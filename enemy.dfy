// The patrolling enemy of game/enemy.py: walks back and forth around the x it
// was placed at, falls at a constant speed and lands on platforms.
module Enemies {
  import opened Lists
  import opened Geometry

  const ENEMY_WIDTH: real := 35.0
  const ENEMY_HEIGHT: real := 35.0
  const ENEMY_SPEED: real := 2.0
  const PATROL_DISTANCE: real := 100.0

  /** The enemy's fields as a value; `direction` is -1 (left) or +1 (right). */
  datatype EnemyState = EnemyState(x: real, y: real, startX: real, direction: int)
  {
    function Box(): Rect { Rect(x, y, ENEMY_WIDTH, ENEMY_HEIGHT) }
  }

  function EnemyBoxes(es: seq<EnemyState>): (r: seq<Rect>)
    ensures |r| == |es| && forall i :: 0 <= i < |es| ==> r[i] == es[i].Box()
  {
    seq(|es|, i requires 0 <= i < |es| => es[i].Box())
  }

  /** A newly placed enemy: patrolling from where it stands, heading right. */
  function Placed(x: real, y: real): (e: EnemyState)
    ensures PatrolInv(e)
  {
    EnemyState(x, y, x, 1)
  }

  function Abs(r: real): real { if r < 0.0 then -r else r }

  /** The patrol stays within 102 of its origin, and beyond 100 on either side it
      is already heading back. */
  predicate PatrolInv(e: EnemyState) {
    var offset := e.x - e.startX;
    && (e.direction == 1 || e.direction == -1)
    && -PATROL_DISTANCE - ENEMY_SPEED <= offset <= PATROL_DISTANCE + ENEMY_SPEED
    && (offset > PATROL_DISTANCE ==> e.direction == -1)
    && (offset < -PATROL_DISTANCE ==> e.direction == 1)
  }

  /** The horizontal half of `update`: move 2 along `direction`, then turn round
      when the new position is more than 100 from the origin. */
  function Patrol(e: EnemyState): (r: EnemyState)
    ensures r.x == e.x + ENEMY_SPEED * e.direction as real
    ensures r.y == e.y && r.startX == e.startX
    ensures r.direction == e.direction || r.direction == -e.direction
    ensures e.direction != 0 ==> (r.direction != e.direction <==> Abs(r.x - e.startX) > PATROL_DISTANCE)
    ensures PatrolInv(e) ==> PatrolInv(r)
  {
    var moved := e.(x := e.x + ENEMY_SPEED * e.direction as real);
    if Abs(moved.x - moved.startX) > PATROL_DISTANCE then moved.(direction := -e.direction) else moved
  }

  /** The patrol state after `n` updates. */
  function Patrols(e: EnemyState, n: nat): EnemyState
  {
    if n == 0 then e else Patrol(Patrols(e, n - 1))
  }

  /** From where it was placed, an enemy walks right 2 per update for 50 updates,
      reaching exactly 100 from its origin without turning. */
  lemma {:induction false} WalksOutFromPlacement(x: real, y: real, n: nat)
    requires n <= 50
    ensures Patrols(Placed(x, y), n) == EnemyState(x + 2.0 * n as real, y, x, 1)
  {
    if n > 0 {
      WalksOutFromPlacement(x, y, n - 1);
    }
  }

  /** The 51st update takes it to 102 from the origin and turns it left. */
  lemma FirstTurnOnFiftyFirstUpdate(x: real, y: real)
    ensures Patrols(Placed(x, y), 51) == EnemyState(x + 102.0, y, x, -1)
  {
    WalksOutFromPlacement(x, y, 50);
  }

  /** No oscillation: after a turn past the right bound, the next 100 updates all
      walk left without turning again. */
  lemma {:induction false} NoTurnAfterRightTurn(e: EnemyState, n: nat)
    requires PatrolInv(e) && e.x - e.startX > PATROL_DISTANCE
    requires n <= 100
    ensures Patrols(e, n) == e.(x := e.x - 2.0 * n as real)
  {
    if n > 0 {
      NoTurnAfterRightTurn(e, n - 1);
    }
  }

  /** ... and likewise after a turn past the left bound. */
  lemma {:induction false} NoTurnAfterLeftTurn(e: EnemyState, n: nat)
    requires PatrolInv(e) && e.x - e.startX < -PATROL_DISTANCE
    requires n <= 100
    ensures Patrols(e, n) == e.(x := e.x + 2.0 * n as real)
  {
    if n > 0 {
      NoTurnAfterLeftTurn(e, n - 1);
    }
  }

  /** `Enemy.update`: patrol, fall by GRAVITY, then stand on the first platform
      (in list order) the enemy now overlaps, if any. */
  function EnemyStep(e: EnemyState, ps: seq<Platform>): (r: EnemyState)
    ensures r == Patrol(e).(y := r.y)
    ensures var k := FirstOverlap(Patrol(e).(y := e.y + GRAVITY).Box(), PlatformBoxes(ps));
      r.y == if k.None? then e.y + GRAVITY else ps[k.value].y - ENEMY_HEIGHT
    ensures PatrolInv(e) ==> PatrolInv(r)
  {
    var moved := Patrol(e);
    var fallen := moved.(y := moved.y + GRAVITY);
    match FirstOverlap(fallen.Box(), PlatformBoxes(ps))
    case None => fallen
    case Some(k) => fallen.(y := ps[k].y - ENEMY_HEIGHT)
  }

  class Enemy {
    var x: real
    var y: real
    const startX: real
    var direction: int

    function State(): EnemyState
      reads this
    {
      EnemyState(x, y, startX, direction)
    }

    constructor (x0: real, y0: real)
      ensures State() == Placed(x0, y0)
    {
      x, y := x0, y0;
      startX := x0;
      direction := 1;
    }

    method Update(platforms: seq<Platform>)
      modifies this
      ensures State() == EnemyStep(old(State()), platforms)
    {
      x := x + ENEMY_SPEED * direction as real;
      if Abs(x - startX) > PATROL_DISTANCE {
        direction := direction * -1;
      }
      y := y + GRAVITY;

      ghost var fallen := State();
      var i := 0;
      while i < |platforms|
        invariant 0 <= i <= |platforms|
        invariant State() == fallen
        invariant forall j :: 0 <= j < i ==> !Overlaps(fallen.Box(), platforms[j].Box())
      {
        if Overlaps(Rect(x, y, ENEMY_WIDTH, ENEMY_HEIGHT), platforms[i].Box()) {
          y := platforms[i].y - ENEMY_HEIGHT;
          break;
        }
        i := i + 1;
      }
    }
  }
}
