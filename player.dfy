// The player controller of game/player.py: gravity, platform snapping,
// horizontal moves, jump, health and the attack-animation counter.
module Players {
  import opened Lists
  import opened Geometry

  const PLAYER_WIDTH: real := 40.0
  const PLAYER_HEIGHT: real := 50.0
  const MOVE_SPEED: real := 5.0
  const JUMP_VELOCITY: real := -12.0
  const MAX_VELOCITY_Y: real := 15.0
  const MAX_HEALTH: int := 100
  const ATTACK_FRAMES: int := 10
  const FALL_DAMAGE: int := 50
  const SPAWN_X: real := 50.0
  const SPAWN_Y: real := 400.0

  /** Right edge of the range the player's x is kept in. */
  const MAX_X: real := SCENE_WIDTH - PLAYER_WIDTH

  /** The player's fields as a value. */
  datatype PlayerState = PlayerState(
    x: real, y: real, vy: real, onGround: bool,
    health: int, attacking: bool, attackFrame: int)
  {
    function Box(): Rect { Rect(x, y, PLAYER_WIDTH, PLAYER_HEIGHT) }
  }

  /** A freshly constructed player: at the spawn point, at rest, full health. */
  const Spawned: PlayerState :=
    PlayerState(SPAWN_X, SPAWN_Y, 0.0, false, MAX_HEALTH, false, 0)

  /** What holds of the player between two frames. */
  predicate PlayerInv(p: PlayerState) {
    && 0 <= p.health <= MAX_HEALTH
    && 0 <= p.attackFrame <= ATTACK_FRAMES
    && (!p.attacking ==> p.attackFrame == 0)
    && p.vy <= MAX_VELOCITY_Y
  }

  // ---------------------------------------------------------------- attack counter

  /** One frame of the attack animation: the counter runs while attacking and
      the animation ends, counter back to 0, once it passes ATTACK_FRAMES. */
  function AttackTick(attacking: bool, frame: int): (r: (bool, int))
    ensures !attacking ==> r == (attacking, frame)
    ensures attacking && frame < ATTACK_FRAMES ==> r == (true, frame + 1)
    ensures attacking && frame >= ATTACK_FRAMES ==> r == (false, 0)
  {
    if attacking then
      var f := frame + 1;
      if f > ATTACK_FRAMES then (false, 0) else (true, f)
    else (attacking, frame)
  }

  /** The animation state after `n` frames. */
  function AttackTicks(attacking: bool, frame: int, n: nat): (bool, int)
  {
    if n == 0 then (attacking, frame)
    else
      var (a, f) := AttackTicks(attacking, frame, n - 1);
      AttackTick(a, f)
  }

  /** Started by `attack_animation`, the animation is still on after each of the
      next ten updates, the counter showing how many have run. */
  lemma {:induction false} AttackRunsTenFrames(n: nat)
    requires n <= ATTACK_FRAMES
    ensures AttackTicks(true, 0, n) == (true, n)
  {
    if n > 0 {
      AttackRunsTenFrames(n - 1);
    }
  }

  /** ... and the eleventh update ends it and resets the counter. */
  lemma AttackEndsOnEleventhFrame()
    ensures AttackTicks(true, 0, ATTACK_FRAMES + 1) == (false, 0)
  {
    AttackRunsTenFrames(ATTACK_FRAMES);
  }

  // ---------------------------------------------------------------- vertical physics

  /** Gravity then the fall-speed cap: the smaller of vy + GRAVITY and MAX_VELOCITY_Y. */
  function Fall(vy: real): (r: real)
    ensures r <= MAX_VELOCITY_Y && r <= vy + GRAVITY
    ensures r == vy + GRAVITY || r == MAX_VELOCITY_Y
  {
    var v := vy + GRAVITY;
    if v > MAX_VELOCITY_Y then MAX_VELOCITY_Y else v
  }

  /** The check against one platform: while falling the player's bottom is put on
      the platform's top, while rising its top under the platform's bottom. */
  function SnapTo(x: real, y: real, vy: real, ground: bool, p: Platform): (real, real, bool)
  {
    if !Overlaps(Rect(x, y, PLAYER_WIDTH, PLAYER_HEIGHT), p.Box()) then (y, vy, ground)
    else if vy > 0.0 then (p.y - PLAYER_HEIGHT, 0.0, true)
    else if vy < 0.0 then (p.y + p.height, 0.0, ground)
    else (y, vy, ground)
  }

  /** The checks against every platform in list order: (y, vy, on-ground) after them. */
  function Collide(x: real, y: real, vy: real, ground: bool, ps: seq<Platform>): (r: (real, real, bool))
    ensures r.1 == vy || r.1 == 0.0
    ensures ground ==> r.2
    decreases |ps|
  {
    if ps == [] then (y, vy, ground)
    else
      var (y1, vy1, g1) := SnapTo(x, y, vy, ground, ps[0]);
      Collide(x, y1, vy1, g1, ps[1..])
  }

  /** Once vy is 0, no platform changes anything. */
  lemma {:induction false} CollideAtRest(x: real, y: real, ground: bool, ps: seq<Platform>)
    ensures Collide(x, y, 0.0, ground, ps) == (y, 0.0, ground)
    decreases |ps|
  {
    if ps != [] {
      CollideAtRest(x, y, ground, ps[1..]);
    }
  }

  /** First match wins: only the first platform (in list order) that overlaps the
      player decides the outcome; a landing puts the player's bottom on that
      platform's top and sets on-ground, a head-bump puts the player's top on its
      bottom; with no overlap nothing changes. */
  lemma {:induction false} CollideFirstMatch(x: real, y: real, vy: real, ground: bool, ps: seq<Platform>)
    ensures var k := FirstOverlap(Rect(x, y, PLAYER_WIDTH, PLAYER_HEIGHT), PlatformBoxes(ps));
      Collide(x, y, vy, ground, ps) ==
        if k.None? || vy == 0.0 then (y, vy, ground)
        else if vy > 0.0 then (ps[k.value].y - PLAYER_HEIGHT, 0.0, true)
        else (ps[k.value].y + ps[k.value].height, 0.0, ground)
    decreases |ps|
  {
    if ps != [] {
      var box := Rect(x, y, PLAYER_WIDTH, PLAYER_HEIGHT);
      assert PlatformBoxes(ps)[1..] == PlatformBoxes(ps[1..]);
      if Overlaps(box, ps[0].Box()) && vy != 0.0 {
        var (y1, vy1, g1) := SnapTo(x, y, vy, ground, ps[0]);
        CollideAtRest(x, y1, g1, ps[1..]);
      } else {
        CollideFirstMatch(x, y, vy, ground, ps[1..]);
      }
    }
  }

  // ---------------------------------------------------------------- horizontal moves

  /** `move_left`: 5 to the left, stopping at the left edge; nothing else changes. */
  function MovedLeft(p: PlayerState): (r: PlayerState)
    ensures r == p.(x := r.x)
    ensures r.x >= 0.0
    ensures p.x - MOVE_SPEED >= 0.0 ==> r.x == p.x - MOVE_SPEED
    ensures p.x - MOVE_SPEED < 0.0 ==> r.x == 0.0
  {
    var nx := p.x - MOVE_SPEED;
    p.(x := if nx < 0.0 then 0.0 else nx)
  }

  /** `move_right`: 5 to the right, stopping where the right side meets the scene edge. */
  function MovedRight(p: PlayerState): (r: PlayerState)
    ensures r == p.(x := r.x)
    ensures r.x <= MAX_X
    ensures p.x + MOVE_SPEED <= MAX_X ==> r.x == p.x + MOVE_SPEED
    ensures p.x + MOVE_SPEED > MAX_X ==> r.x == MAX_X
  {
    var nx := p.x + MOVE_SPEED;
    p.(x := if nx > MAX_X then MAX_X else nx)
  }

  /** Pulls an x pushed outside the scene back to its nearer edge. */
  function ClampX(x: real): (r: real)
    ensures 0.0 <= r <= MAX_X
    ensures 0.0 <= x <= MAX_X ==> r == x
    ensures x < 0.0 ==> r == 0.0
    ensures x > MAX_X ==> r == MAX_X
  {
    if x < 0.0 then 0.0 else if x > MAX_X then MAX_X else x
  }

  /** `jump`: only from the ground (no double jump). */
  function Jumped(p: PlayerState): (r: PlayerState)
    ensures p.onGround ==> r == p.(vy := JUMP_VELOCITY, onGround := false)
    ensures !p.onGround ==> r == p
    ensures PlayerInv(p) ==> PlayerInv(r)
  {
    if p.onGround then p.(vy := JUMP_VELOCITY, onGround := false) else p
  }

  // ---------------------------------------------------------------- health

  /** `take_damage`: the new health and whether the player died (which makes the
      scene restart the level). Health never goes below 0. */
  function Damage(health: int, damage: int): (r: (int, bool))
    ensures r.1 <==> health - damage <= 0
    ensures r.0 >= 0
    ensures r.1 ==> r.0 == 0
    ensures !r.1 ==> r.0 == health - damage
  {
    var h := health - damage;
    if h <= 0 then (0, true) else (h, false)
  }

  // ---------------------------------------------------------------- one update

  /** Attack counter, gravity, vertical move, platform checks and the x clamp. */
  function Physics(p: PlayerState, ps: seq<Platform>): (r: PlayerState)
    ensures r.vy <= MAX_VELOCITY_Y
    ensures 0.0 <= r.x <= MAX_X
    ensures r.health == p.health
    ensures (r.attacking, r.attackFrame) == AttackTick(p.attacking, p.attackFrame)
  {
    var (attacking, frame) := AttackTick(p.attacking, p.attackFrame);
    var vy := Fall(p.vy);
    var (y, vy2, ground) := Collide(p.x, p.y + vy, vy, false, ps);
    p.(x := ClampX(p.x), y := y, vy := vy2, onGround := ground,
       attacking := attacking, attackFrame := frame)
  }

  /** A player below the scene's bottom takes FALL_DAMAGE and is put back at the
      spawn point at rest; the flag says whether that damage killed it. */
  function FellOut(q: PlayerState): (r: (PlayerState, bool))
    ensures q.y <= SCENE_HEIGHT ==> r == (q, false)
    ensures q.y > SCENE_HEIGHT ==>
      && r.0 == q.(x := SPAWN_X, y := SPAWN_Y, vy := 0.0, health := Damage(q.health, FALL_DAMAGE).0)
      && r.1 == (q.health - FALL_DAMAGE <= 0)
  {
    if q.y > SCENE_HEIGHT then
      var (h, died) := Damage(q.health, FALL_DAMAGE);
      (q.(health := h, x := SPAWN_X, y := SPAWN_Y, vy := 0.0), died)
    else (q, false)
  }

  /** `Player.update`: the new state and whether the level must restart. */
  function PlayerStep(p: PlayerState, ps: seq<Platform>): (r: (PlayerState, bool))
    ensures r.0.vy <= MAX_VELOCITY_Y
    ensures 0.0 <= r.0.x <= MAX_X
    ensures r.1 ==> r.0.health == 0
    ensures PlayerInv(p) ==> PlayerInv(r.0)
  {
    FellOut(Physics(p, ps))
  }

  // ---------------------------------------------------------------- the object

  class Player {
    var x: real
    var y: real
    var velocityY: real
    var isOnGround: bool
    var health: int
    var isAttacking: bool
    var attackFrame: int

    function State(): PlayerState
      reads this
    {
      PlayerState(x, y, velocityY, isOnGround, health, isAttacking, attackFrame)
    }

    constructor ()
      ensures State() == Spawned
    {
      x, y := SPAWN_X, SPAWN_Y;
      velocityY := 0.0;
      isOnGround := false;
      health := MAX_HEALTH;
      isAttacking := false;
      attackFrame := 0;
    }

    /** One frame; `died` asks the scene to restart the level. */
    method Update(platforms: seq<Platform>) returns (died: bool)
      modifies this
      ensures (State(), died) == PlayerStep(old(State()), platforms)
    {
      ghost var p0 := State();
      if isAttacking {
        attackFrame := attackFrame + 1;
        if attackFrame > ATTACK_FRAMES {
          isAttacking := false;
          attackFrame := 0;
        }
      }

      assert (isAttacking, attackFrame) == AttackTick(p0.attacking, p0.attackFrame);
      velocityY := velocityY + GRAVITY;
      if velocityY > MAX_VELOCITY_Y {
        velocityY := MAX_VELOCITY_Y;
      }
      y := y + velocityY;

      assert velocityY == Fall(p0.vy) && y == p0.y + velocityY;
      CheckPlatforms(platforms);

      if x < 0.0 {
        x := 0.0;
      } else if x > SCENE_WIDTH - PLAYER_WIDTH {
        x := SCENE_WIDTH - PLAYER_WIDTH;
      }

      assert State() == Physics(p0, platforms);
      died := false;
      if y > SCENE_HEIGHT {
        died := TakeDamage(FALL_DAMAGE);
        ResetPosition();
      }
    }

    /** The platform loop of `update`: on-ground is cleared, then each platform
        the player overlaps may snap it, in list order. */
    method CheckPlatforms(platforms: seq<Platform>)
      modifies this`y, this`velocityY, this`isOnGround
      ensures (y, velocityY, isOnGround) == Collide(x, old(y), old(velocityY), false, platforms)
    {
      isOnGround := false;
      var i := 0;
      while i < |platforms|
        invariant 0 <= i <= |platforms|
        invariant Collide(x, y, velocityY, isOnGround, platforms[i..]) == Collide(x, old(y), old(velocityY), false, platforms)
      {
        var platform := platforms[i];
        assert platforms[i..][1..] == platforms[i + 1..];
        if Overlaps(Rect(x, y, PLAYER_WIDTH, PLAYER_HEIGHT), platform.Box()) {
          if velocityY > 0.0 {
            y := platform.y - PLAYER_HEIGHT;
            velocityY := 0.0;
            isOnGround := true;
          } else if velocityY < 0.0 {
            y := platform.y + platform.height;
            velocityY := 0.0;
          }
        }
        i := i + 1;
      }
      assert platforms[i..] == [];
    }

    method MoveLeft()
      modifies this
      ensures State() == MovedLeft(old(State()))
    {
      var newX := x - MOVE_SPEED;
      if newX < 0.0 {
        newX := 0.0;
      }
      x := newX;
    }

    method MoveRight()
      modifies this
      ensures State() == MovedRight(old(State()))
    {
      var newX := x + MOVE_SPEED;
      if newX > SCENE_WIDTH - PLAYER_WIDTH {
        newX := SCENE_WIDTH - PLAYER_WIDTH;
      }
      x := newX;
    }

    method Jump()
      modifies this
      ensures State() == Jumped(old(State()))
    {
      if isOnGround {
        velocityY := JUMP_VELOCITY;
        isOnGround := false;
      }
    }

    method AttackAnimation()
      modifies this
      ensures State() == old(State()).(attacking := true, attackFrame := 0)
    {
      isAttacking := true;
      attackFrame := 0;
    }

    /** Lowers health by `damage`, clamped at 0; `died` when it reached 0. */
    method TakeDamage(damage: int) returns (died: bool)
      modifies this
      ensures State() == old(State()).(health := Damage(old(health), damage).0)
      ensures died == Damage(old(health), damage).1
    {
      health := health - damage;
      if health <= 0 {
        health := 0;
        died := true;
      } else {
        died := false;
      }
    }

    method ResetPosition()
      modifies this
      ensures State() == old(State()).(x := SPAWN_X, y := SPAWN_Y, vy := 0.0)
    {
      x, y := SPAWN_X, SPAWN_Y;
      velocityY := 0.0;
    }
  }
}
