// The rules of game/game_scene.py stated on values: what one call of
// `update_scene`, `load_level`, `restart_level`, `sword_attack` and the input
// handlers does to the whole game state. The GameScene class (game_scene.dfy)
// is proved to follow these rules.
module SceneRules {
  import opened Lists
  import opened Geometry
  import opened Players
  import opened Enemies
  import opened Swords

  const ATTACK_COOLDOWN_TIME: int := 20
  const CONTACT_DAMAGE: int := 10
  const PUSH_BACK: real := 30.0
  const KILL_SCORE: int := 50
  const COIN_SCORE: int := 10
  const COIN_SIZE: real := 20.0

  datatype Key = KeyA | KeyD | KeySpace | OtherKey(code: int)
  datatype MouseButton = LeftButton | OtherButton

  /** A coin: a 20x20 pickup with no state beyond its position. */
  datatype Coin = Coin(x: real, y: real)
  {
    function Box(): Rect { Rect(x, y, COIN_SIZE, COIN_SIZE) }
  }

  /** What the scene reports to the game window and the statistics store:
      score, lives and level of the window, its coin and kill counters, and the
      deaths and level completions recorded in the store. */
  datatype Hooks = Hooks(
    score: int, lives: int, level: int,
    coinsCollected: int, enemiesKilled: int,
    deaths: int, levelsCompleted: int)

  /** The window's counters when a game starts. */
  const StartHooks: Hooks := Hooks(0, 3, 1, 0, 0, 0, 0)

  /** Everything the scene owns, as a value. */
  datatype World = World(
    player: PlayerState,
    platforms: seq<Platform>,
    enemies: seq<EnemyState>,
    coins: seq<Coin>,
    swords: seq<SwordState>,
    cooldown: int,
    currentLevel: int,
    keys: set<Key>,
    hooks: Hooks)

  // ---------------------------------------------------------------- level data

  /** The ground, across the whole bottom of the scene. */
  const Ground: Platform := Platform(0.0, 550.0, 800.0, 50.0)

  const PlatformData: seq<Platform> := [
    Platform(150.0, 450.0, 120.0, 20.0), Platform(320.0, 380.0, 120.0, 20.0),
    Platform(500.0, 310.0, 120.0, 20.0), Platform(650.0, 240.0, 120.0, 20.0),
    Platform(200.0, 250.0, 100.0, 20.0), Platform(400.0, 180.0, 150.0, 20.0)]

  /** Every level's platforms: the ground first, then the six ledges. */
  const LevelPlatforms: seq<Platform> := [Ground] + PlatformData

  const LevelEnemySpots: seq<(real, real)> := [(300.0, 330.0), (550.0, 260.0), (450.0, 130.0)]

  const LevelCoins: seq<Coin> := [
    Coin(180.0, 400.0), Coin(350.0, 330.0), Coin(530.0, 260.0),
    Coin(680.0, 190.0), Coin(230.0, 200.0), Coin(430.0, 130.0)]

  function LevelEnemies(): seq<EnemyState>
  {
    seq(|LevelEnemySpots|, i requires 0 <= i < |LevelEnemySpots| =>
      Placed(LevelEnemySpots[i].0, LevelEnemySpots[i].1))
  }

  predicate EnemiesInv(es: seq<EnemyState>) {
    forall e :: e in es ==> PatrolInv(e)
  }

  // ---------------------------------------------------------------- load and restart

  /** `load_level(n)`: the level's platforms, enemies and coins replace the
      old ones, swords are cleared, the player is put back; the rest is kept. */
  function LevelLoaded(w: World, n: int): World
  {
    w.(currentLevel := n,
       platforms := LevelPlatforms, enemies := LevelEnemies(), coins := LevelCoins, swords := [],
       player := w.player.(x := SPAWN_X, y := SPAWN_Y, vy := 0.0, health := MAX_HEALTH))
  }

  /** Every level looks the same whatever its number: the ground and six
      ledges, three enemies each placed on its spot and patrolling from there
      heading right, six coins and no sword; the player is back at the spawn
      point with no vertical speed and full health; the level number is `n`;
      the cooldown, held keys and counters are untouched. */
  lemma LevelLoadedLayout(w: World, n: int)
    ensures var r := LevelLoaded(w, n);
      && r.currentLevel == n && r.swords == []
      && |r.platforms| == 7 && r.platforms[0] == Ground
      && |r.enemies| == 3 && EnemiesInv(r.enemies)
      && (forall i :: 0 <= i < 3 ==> r.enemies[i] == Placed(LevelEnemySpots[i].0, LevelEnemySpots[i].1))
      && |r.coins| == 6
      && r.player == w.player.(x := SPAWN_X, y := SPAWN_Y, vy := 0.0, health := MAX_HEALTH)
      && r.cooldown == w.cooldown && r.keys == w.keys && r.hooks == w.hooks
  {
    var es := LevelEnemies();
    forall e | e in es ensures PatrolInv(e) {
      var i :| 0 <= i < |es| && es[i] == e;
      assert e == Placed(LevelEnemySpots[i].0, LevelEnemySpots[i].1);
    }
  }

  /** `restart_level`: one death recorded, one life lost, the current level
      loaded again. */
  function Restarted(w: World): (r: World)
    ensures r.hooks == w.hooks.(lives := w.hooks.lives - 1, deaths := w.hooks.deaths + 1)
    ensures r == LevelLoaded(w, w.currentLevel).(hooks := r.hooks)
  {
    LevelLoaded(w.(hooks := w.hooks.(lives := w.hooks.lives - 1, deaths := w.hooks.deaths + 1)),
                w.currentLevel)
  }

  /** The scene as the GameScene constructor leaves it: level 1 loaded. */
  function Initial(): (r: World)
    ensures r.currentLevel == 1 && r.cooldown == 0 && r.keys == {} && r.hooks == StartHooks
    ensures r.player == Spawned && r.swords == []
  {
    LevelLoaded(World(Spawned, [], [], [], [], 0, 1, {}, StartHooks), 1)
  }

  // ---------------------------------------------------------------- input

  /** `handle_key_press`: the key is held from now on; Space also jumps. */
  function KeyPressed(w: World, k: Key): (r: World)
    ensures r.keys == w.keys + {k}
    ensures r.player == if k == KeySpace then Jumped(w.player) else w.player
    ensures r == w.(keys := r.keys, player := r.player)
  {
    var w1 := w.(keys := w.keys + {k});
    if k == KeySpace then w1.(player := Jumped(w1.player)) else w1
  }

  /** `handle_key_release`: the key is no longer held. */
  function KeyReleased(w: World, k: Key): (r: World)
    ensures r.keys == w.keys - {k} && k !in r.keys
    ensures r == w.(keys := r.keys)
  {
    w.(keys := w.keys - {k})
  }

  /** `sword_attack`: nothing while the cooldown runs; otherwise exactly one new
      sword, facing left exactly when A is held, the cooldown set to 20 and the
      attack animation started. */
  function Attacked(w: World): (r: World)
    ensures w.cooldown > 0 ==> r == w
    ensures w.cooldown <= 0 ==>
      && r.swords == w.swords + [Spawn(w.player.x, w.player.y, KeyA !in w.keys)]
      && r.cooldown == ATTACK_COOLDOWN_TIME
      && r.player == w.player.(attacking := true, attackFrame := 0)
      && r == w.(swords := r.swords, cooldown := r.cooldown, player := r.player)
  {
    if w.cooldown > 0 then w
    else
      var sword := Spawn(w.player.x, w.player.y, !(KeyA in w.keys));
      w.(swords := w.swords + [sword], cooldown := ATTACK_COOLDOWN_TIME,
         player := w.player.(attacking := true, attackFrame := 0))
  }

  /** `handle_mouse_press`: the left button attacks. */
  function MousePressed(w: World, b: MouseButton): (r: World)
    ensures b == LeftButton ==> r == Attacked(w)
    ensures b != LeftButton ==> r == w
  {
    if b == LeftButton then Attacked(w) else w
  }

  // ---------------------------------------------------------------- one frame, phase by phase

  /** The cooldown drops by one while it is positive. */
  function CooledDown(w: World): (r: World)
    ensures r == w.(cooldown := r.cooldown)
    ensures w.cooldown > 0 ==> r.cooldown == w.cooldown - 1
    ensures w.cooldown <= 0 ==> r.cooldown == w.cooldown
  {
    if w.cooldown > 0 then w.(cooldown := w.cooldown - 1) else w
  }

  /** A held A moves left, then a held D moves right (both when both are held). */
  function HeldKeysApplied(w: World): (r: World)
    ensures r == w.(player := r.player)
    ensures r.player == w.player.(x := r.player.x)
    ensures KeyA in w.keys && KeyD !in w.keys ==> r.player == MovedLeft(w.player)
    ensures KeyA !in w.keys && KeyD in w.keys ==> r.player == MovedRight(w.player)
    ensures KeyA in w.keys && KeyD in w.keys ==> r.player == MovedRight(MovedLeft(w.player))
    ensures KeyA !in w.keys && KeyD !in w.keys ==> r.player == w.player
  {
    var p1 := if KeyA in w.keys then MovedLeft(w.player) else w.player;
    var p2 := if KeyD in w.keys then MovedRight(p1) else p1;
    w.(player := p2)
  }

  /** `player.update()`, with the level restarted when it killed the player. */
  function PlayerMoved(w: World): (r: World)
    ensures PlayerStep(w.player, w.platforms).1 ==> r == Restarted(w.(player := PlayerStep(w.player, w.platforms).0))
    ensures !PlayerStep(w.player, w.platforms).1 ==> r == w.(player := PlayerStep(w.player, w.platforms).0)
  {
    var (p, died) := PlayerStep(w.player, w.platforms);
    var w1 := w.(player := p);
    if died then Restarted(w1) else w1
  }

  /** The push after a contact: 30 away from the enemy, to the left when the
      player is left of it. */
  function Pushed(px: real, ex: real): (r: real)
    ensures r == px - PUSH_BACK || r == px + PUSH_BACK
    ensures r < px <==> px < ex
  {
    if px < ex then px - PUSH_BACK else px + PUSH_BACK
  }

  /** The contact check against one just-updated enemy: 10 damage (restarting
      the level when that kills) and a push of 30 away from it. The flag says
      whether the level was restarted. */
  function Contact(w: World, e: EnemyState): (r: (World, bool))
    ensures !Overlaps(w.player.Box(), e.Box()) ==> r == (w, false)
    ensures Overlaps(w.player.Box(), e.Box()) ==>
      && r.1 == (w.player.health - CONTACT_DAMAGE <= 0)
      && (!r.1 ==> r.0 == w.(player := w.player.(health := w.player.health - CONTACT_DAMAGE,
                                                  x := Pushed(w.player.x, e.x))))
      && (r.1 ==> r.0 == var re := Restarted(w.(player := w.player.(health := 0)));
                         re.(player := re.player.(x := Pushed(SPAWN_X, e.x))))
    ensures r.0.cooldown == w.cooldown && r.0.keys == w.keys && r.0.currentLevel == w.currentLevel
  {
    if !Overlaps(w.player.Box(), e.Box()) then (w, false)
    else
      var (h, died) := Damage(w.player.health, CONTACT_DAMAGE);
      var w1 := w.(player := w.player.(health := h));
      var w2 := if died then Restarted(w1) else w1;
      (w2.(player := w2.player.(x := Pushed(w2.player.x, e.x))), died)
  }

  /** The enemy loop from index `i` of the snapshot `snap` taken before it. Each
      snapshot enemy is updated and checked against the player. Until a restart
      the list still holds the snapshot's enemies, so the update lands in slot
      `i`; after a restart the list holds the new level's enemies and the
      remaining snapshot enemies are updated outside it. */
  function EnemiesFrom(w: World, snap: seq<EnemyState>, i: nat, restarted: bool): (r: World)
    requires i <= |snap|
    requires !restarted ==> |w.enemies| == |snap|
    ensures r.cooldown == w.cooldown && r.keys == w.keys && r.currentLevel == w.currentLevel
    ensures r.hooks == w.hooks.(lives := r.hooks.lives, deaths := r.hooks.deaths)
    ensures r.hooks.lives - w.hooks.lives == w.hooks.deaths - r.hooks.deaths <= 0
    decreases |snap| - i
  {
    if i == |snap| then w
    else
      var e := EnemyStep(snap[i], w.platforms);
      var w1 := if restarted then w else w.(enemies := w.enemies[i := e]);
      var (w2, died) := Contact(w1, e);
      EnemiesFrom(w2, snap, i + 1, restarted || died)
  }

  function EnemiesMoved(w: World): World
  {
    EnemiesFrom(w, w.enemies, 0, false)
  }

  /** What one live sword does to the enemies: the first enemy (in list order)
      it overlaps is removed and scored; at most one enemy per sword. */
  function Strike(w: World, s: SwordState): (r: World)
    ensures r == w.(enemies := r.enemies, hooks := r.hooks)
    ensures var k := FirstOverlap(s.Box(), EnemyBoxes(w.enemies));
      && (k.None? ==> r == w)
      && (k.Some? ==>
            && r.enemies == w.enemies[..k.value] + w.enemies[k.value + 1..]
            && r.hooks == w.hooks.(score := w.hooks.score + KILL_SCORE,
                                   enemiesKilled := w.hooks.enemiesKilled + 1))
  {
    match FirstOverlap(s.Box(), EnemyBoxes(w.enemies))
    case None => w
    case Some(k) =>
      w.(enemies := w.enemies[..k] + w.enemies[k + 1..],
         hooks := w.hooks.(score := w.hooks.score + KILL_SCORE,
                           enemiesKilled := w.hooks.enemiesKilled + 1))
  }

  /** The swords that survive one update, each one frame older, in order. */
  function LiveSwords(ss: seq<SwordState>): (r: seq<SwordState>)
    ensures |r| <= |ss|
  {
    if ss == [] then []
    else (if Tick(ss[0]).Active() then [Tick(ss[0])] else []) + LiveSwords(ss[1..])
  }

  /** The sword loop from index `i` of the snapshot `snap`: each sword is
      updated; an expired one is dropped and kills nothing, a live one strikes
      and is kept (`kept` holds the live ones seen so far). */
  function SwordsFrom(w: World, snap: seq<SwordState>, i: nat, kept: seq<SwordState>): (r: World)
    requires i <= |snap|
    decreases |snap| - i
  {
    if i == |snap| then w.(swords := kept)
    else
      var s := Tick(snap[i]);
      if !s.Active() then SwordsFrom(w, snap, i + 1, kept)
      else SwordsFrom(Strike(w, s), snap, i + 1, kept + [s])
  }

  function SwordsMoved(w: World): World
  {
    SwordsFrom(w, w.swords, 0, [])
  }

  /** The coins the player's box does not touch, in their original order. */
  function Uncollected(cs: seq<Coin>, box: Rect): (r: seq<Coin>)
    ensures |r| <= |cs|
  {
    if cs == [] then []
    else
      var last := cs[|cs| - 1];
      Uncollected(cs[..|cs| - 1], box) + (if Overlaps(box, last.Box()) then [] else [last])
  }

  /** Every coin the player touches is removed and earns 10 points and one coin
      event; the others stay. */
  function CoinsCollected(w: World): (r: World)
    ensures r == w.(coins := r.coins, hooks := r.hooks)
    ensures r.coins == Uncollected(w.coins, w.player.Box())
    ensures var n := |w.coins| - |r.coins|;
      r.hooks == w.hooks.(score := w.hooks.score + COIN_SCORE * n,
                          coinsCollected := w.hooks.coinsCollected + n)
  {
    var left := Uncollected(w.coins, w.player.Box());
    var n := |w.coins| - |left|;
    w.(coins := left,
       hooks := w.hooks.(score := w.hooks.score + COIN_SCORE * n,
                         coinsCollected := w.hooks.coinsCollected + n))
  }

  /** The window's `level_complete`: its level goes up by one, one completion
      is recorded, and that level is loaded. */
  function LevelCompleted(w: World): (r: World)
    ensures r.hooks == w.hooks.(level := w.hooks.level + 1, levelsCompleted := w.hooks.levelsCompleted + 1)
    ensures r == LevelLoaded(w, w.hooks.level + 1).(hooks := r.hooks)
  {
    var h := w.hooks.(level := w.hooks.level + 1, levelsCompleted := w.hooks.levelsCompleted + 1);
    LevelLoaded(w.(hooks := h), h.level)
  }

  /** `level_complete` fires exactly when no coin and no enemy is left. */
  function LevelChecked(w: World): (r: World)
    ensures |w.coins| == 0 && |w.enemies| == 0 ==> r == LevelCompleted(w)
    ensures !(|w.coins| == 0 && |w.enemies| == 0) ==> r == w
  {
    if |w.coins| == 0 && |w.enemies| == 0 then LevelCompleted(w) else w
  }

  /** `update_scene`: the phases in their fixed order. */
  function Step(w: World): World
  {
    LevelChecked(CoinsCollected(SwordsMoved(EnemiesMoved(PlayerMoved(HeldKeysApplied(CooledDown(w)))))))
  }

  // ---------------------------------------------------------------- invariants

  /** At most one sword, and a live sword's age plus the cooldown is 20: the
      cooldown outlasts every sword. */
  predicate SwordsInv(ss: seq<SwordState>, cooldown: int) {
    && |ss| <= 1
    && forall s :: s in ss ==> 0 <= s.frameCount < ATTACK_DURATION && s.frameCount + cooldown == ATTACK_COOLDOWN_TIME
  }

  /** What holds of the scene between frames. */
  predicate Inv(w: World) {
    && w.cooldown >= 0
    && PlayerInv(w.player)
    && EnemiesInv(w.enemies)
    && SwordsInv(w.swords, w.cooldown)
  }

  /** What holds inside a frame between the cooldown tick and the sword update:
      every sword is one frame behind the cooldown. */
  predicate MidInv(w: World) {
    && w.cooldown >= 0
    && PlayerInv(w.player)
    && EnemiesInv(w.enemies)
    && |w.swords| <= 1
    && forall s :: s in w.swords ==> 0 <= s.frameCount < ATTACK_DURATION && s.frameCount + 1 + w.cooldown == ATTACK_COOLDOWN_TIME
  }
}
