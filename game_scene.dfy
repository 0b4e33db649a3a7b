// The GameScene object of game/game_scene.py: it owns the player, the lists of
// platforms, enemies, coins and swords, the held keys and the attack cooldown,
// and it stands in for the game window's counters. Every method is proved to
// change the scene exactly as the matching rule of SceneRules says.
module Scenes {
  import opened Lists
  import opened Geometry
  import opened Players
  import opened Enemies
  import opened Swords
  import opened SceneRules
  import opened SceneFacts

  /** The states of a list of enemies, slot by slot. */
  function EnemyStates(es: seq<Enemy>): (r: seq<EnemyState>)
    reads es
    ensures |r| == |es|
  {
    seq(|es|, i requires 0 <= i < |es| reads es => es[i].State())
  }

  /** The states of a list of swords, slot by slot. */
  function SwordStates(ss: seq<Sword>): (r: seq<SwordState>)
    reads ss
    ensures |r| == |ss|
  {
    seq(|ss|, i requires 0 <= i < |ss| reads ss => ss[i].State())
  }

  /** Taking one enemy out of the list takes its state out of the states. */
  lemma EnemyStatesWithout(es: seq<Enemy>, k: nat)
    requires k < |es|
    ensures EnemyStates(es[..k] + es[k + 1..]) == EnemyStates(es)[..k] + EnemyStates(es)[k + 1..]
  {
    var a, b := EnemyStates(es[..k] + es[k + 1..]), EnemyStates(es)[..k] + EnemyStates(es)[k + 1..];
    forall i | 0 <= i < |a| ensures a[i] == b[i] {
      if i < k {
        assert a[i] == es[i].State();
      } else {
        assert a[i] == es[i + 1].State();
      }
    }
  }

  /** One more sword, one more state. */
  lemma SwordStatesSnoc(ss: seq<Sword>, s: Sword)
    ensures SwordStates(ss + [s]) == SwordStates(ss) + [s.State()]
  {
    var a, b := SwordStates(ss + [s]), SwordStates(ss) + [s.State()];
    forall i | 0 <= i < |a| ensures a[i] == b[i] {
      assert a[i] == (ss + [s])[i].State();
    }
  }

  /** Enemies whose fields did not change have the same states. */
  twostate lemma EnemyStatesUnchanged(es: seq<Enemy>)
    requires unchanged(es)
    ensures EnemyStates(es) == old(EnemyStates(es))
  {
    assert forall i :: 0 <= i < |es| ==> es[i].State() == old(es[i].State());
  }

  /** Swords whose fields did not change have the same states. */
  twostate lemma SwordStatesUnchanged(ss: seq<Sword>)
    requires unchanged(ss)
    ensures SwordStates(ss) == old(SwordStates(ss))
  {
    assert forall i :: 0 <= i < |ss| ==> ss[i].State() == old(ss[i].State());
  }

  class GameScene {
    const player: Player
    var platforms: seq<Platform>
    var enemies: seq<Enemy>
    var coins: seq<Coin>
    var swords: seq<Sword>
    var keysPressed: set<Key>
    var attackCooldown: int
    var currentLevel: int
    /** The game window's score, lives, level and statistics counters. */
    var hooks: Hooks

    /** The whole scene as a value. */
    function Snapshot(): World
      reads this, player, enemies, swords
    {
      SceneWith(SwordStates(swords))
    }

    /** The scene as a value, with `ss` standing for the swords. */
    function SceneWith(ss: seq<SwordState>): World
      reads this, player, enemies
    {
      World(player.State(), platforms, EnemyStates(enemies), coins, ss,
            attackCooldown, currentLevel, keysPressed, hooks)
    }

    /** The enemy and sword lists hold distinct objects, and the scene satisfies
        the between-frame invariant. */
    predicate Valid()
      reads this, player, enemies, swords
    {
      Distinct(enemies) && Distinct(swords) && Inv(Snapshot())
    }

    constructor ()
      ensures Valid()
      ensures Snapshot() == Initial()
    {
      platforms, enemies, coins, swords := [], [], [], [];
      player := new Player();
      currentLevel := 1;
      keysPressed := {};
      attackCooldown := 0;
      hooks := StartHooks;
      new;
      LoadLevel(1);
      InitialInv();
    }

    // ------------------------------------------------------------ level loading

    method LoadLevel(n: int)
      modifies this, player
      ensures Snapshot() == LevelLoaded(old(Snapshot()), n)
      ensures Distinct(enemies) && swords == []
      ensures fresh(enemies)
    {
      currentLevel := n;
      platforms, enemies, coins, swords := [], [], [], [];

      player.x, player.y := SPAWN_X, SPAWN_Y;
      player.velocityY := 0.0;
      player.health := MAX_HEALTH;

      AddPlatforms();
      AddEnemies();
      AddCoins();
    }

    method AddPlatforms()
      requires platforms == []
      modifies this`platforms
      ensures platforms == LevelPlatforms
    {
      platforms := platforms + [Ground];
      for i := 0 to |PlatformData|
        invariant platforms == [Ground] + PlatformData[..i]
      {
        platforms := platforms + [PlatformData[i]];
      }
      assert PlatformData[..|PlatformData|] == PlatformData;
    }

    method AddEnemies()
      requires enemies == []
      modifies this`enemies
      ensures EnemyStates(enemies) == LevelEnemies()
      ensures Distinct(enemies)
      ensures fresh(enemies)
    {
      for i := 0 to |LevelEnemySpots|
        invariant |enemies| == i
        invariant Distinct(enemies)
        invariant fresh(enemies)
        invariant EnemyStates(enemies) == LevelEnemies()[..i]
      {
        var (x, y) := LevelEnemySpots[i];
        var enemy := new Enemy(x, y);
        enemies := enemies + [enemy];
      }
    }

    method AddCoins()
      requires coins == []
      modifies this`coins
      ensures coins == LevelCoins
    {
      for i := 0 to |LevelCoins|
        invariant coins == LevelCoins[..i]
      {
        coins := coins + [LevelCoins[i]];
      }
    }

    method RestartLevel()
      modifies this, player
      ensures Snapshot() == Restarted(old(Snapshot()))
      ensures Distinct(enemies) && swords == []
      ensures fresh(enemies)
    {
      hooks := hooks.(deaths := hooks.deaths + 1);
      hooks := hooks.(lives := hooks.lives - 1);
      LoadLevel(currentLevel);
    }

    /** The window's `level_complete`: next level number, one completion
        recorded, that level loaded. */
    method LevelComplete()
      modifies this, player
      ensures Snapshot() == LevelCompleted(old(Snapshot()))
      ensures Distinct(enemies) && swords == []
      ensures fresh(enemies)
    {
      hooks := hooks.(level := hooks.level + 1);
      hooks := hooks.(levelsCompleted := hooks.levelsCompleted + 1);
      LoadLevel(hooks.level);
    }

    // ------------------------------------------------------------ one frame

    method UpdateScene()
      requires Valid()
      modifies this, player, enemies, swords
      ensures Valid()
      ensures Snapshot() == Step(old(Snapshot()))
    {
      ghost var w0 := Snapshot();
      MovePlayer();
      UpdateEnemies();
      UpdateSwords();
      CollectCoins();
      CheckLevelComplete();
      StepKeepsInv(w0);
    }

    /** The first phase of a frame: the cooldown tick and the held movement
        keys, then the player's own update, restarting the level when the
        player fell out. */
    method MovePlayer()
      requires Distinct(enemies) && Distinct(swords)
      modifies this, player
      ensures Snapshot() == PlayerMoved(HeldKeysApplied(CooledDown(old(Snapshot()))))
      ensures Distinct(enemies) && Distinct(swords)
      ensures enemies == old(enemies) || fresh(enemies)
      ensures swords == old(swords) || swords == []
    {
      ApplyHeldKeys();
      var died := player.Update(platforms);
      if died {
        RestartLevel();
      }
    }

    /** The cooldown tick, then a step left for a held A and a step right for
        a held D. */
    method ApplyHeldKeys()
      modifies this`attackCooldown, player
      ensures Snapshot() == HeldKeysApplied(CooledDown(old(Snapshot())))
    {
      if attackCooldown > 0 {
        attackCooldown := attackCooldown - 1;
      }
      if KeyA in keysPressed {
        player.MoveLeft();
      }
      if KeyD in keysPressed {
        player.MoveRight();
      }
      EnemyStatesUnchanged(enemies);
      SwordStatesUnchanged(swords);
    }

    /** The enemy loop over a copy of the list: each enemy is updated and then
        checked against the player. A restart on the way replaces the list, and
        the rest of the copy is still updated and checked. */
    method UpdateEnemies()
      requires Distinct(enemies) && Distinct(swords)
      modifies this, player, enemies
      ensures Snapshot() == EnemiesMoved(old(Snapshot()))
      ensures Distinct(enemies) && Distinct(swords)
      ensures swords == old(swords) || swords == []
    {
      var snap := enemies;
      ghost var w0 := Snapshot();
      ghost var snapStates := EnemyStates(snap);
      ghost var restarted := false;
      var i := 0;
      while i < |snap|
        invariant 0 <= i <= |snap|
        invariant Distinct(snap) && Distinct(enemies) && Distinct(swords)
        invariant !restarted ==> enemies == snap
        invariant restarted ==> forall k :: i <= k < |snap| ==> snap[k] !in enemies
        invariant forall k :: i <= k < |snap| ==> unchanged(snap[k])
        invariant swords == old(swords) || swords == []
        invariant EnemiesFrom(Snapshot(), snapStates, i, restarted) == EnemiesFrom(w0, snapStates, 0, false)
      {
        assert snap[i].State() == snapStates[i];
        var died := EnemyTurn(snap[i], snapStates, i, restarted);
        restarted := restarted || died;
        i := i + 1;
      }
    }

    /** The enemy loop's body for snapshot slot `i`: update, then contact. */
    method EnemyTurn(enemy: Enemy, ghost snap: seq<EnemyState>, ghost i: nat, ghost restarted: bool) returns (died: bool)
      requires i < |snap| && enemy.State() == snap[i]
      requires restarted ==> enemy !in enemies
      requires !restarted ==> |enemies| == |snap| && enemies[i] == enemy && Distinct(enemies)
      modifies this, player, enemy
      ensures !died ==> enemies == old(enemies) && swords == old(swords)
      ensures EnemiesFrom(old(Snapshot()), snap, i, restarted) == EnemiesFrom(Snapshot(), snap, i + 1, restarted || died)
      ensures died ==> Distinct(enemies) && swords == [] && fresh(enemies)
    {
      MoveEnemy(enemy, i, !restarted);
      died := EnemyContact(enemy);
    }

    /** One enemy's update. The scene shows the enemy's new state in its slot
        when the enemy is still listed, and is unchanged otherwise. */
    method MoveEnemy(enemy: Enemy, ghost i: nat, ghost listed: bool)
      requires listed ==> i < |enemies| && enemies[i] == enemy && Distinct(enemies)
      requires !listed ==> enemy !in enemies
      modifies enemy
      ensures enemy.State() == EnemyStep(old(enemy.State()), platforms)
      ensures listed ==> Snapshot() == old(Snapshot()).(enemies := old(Snapshot()).enemies[i := enemy.State()])
      ensures !listed ==> Snapshot() == old(Snapshot())
    {
      enemy.Update(platforms);
      SwordStatesUnchanged(swords);
    }

    /** Contact damage and push-back from one enemy; `died` when the damage
        restarted the level. */
    method EnemyContact(enemy: Enemy) returns (died: bool)
      modifies this, player
      ensures (Snapshot(), died) == Contact(old(Snapshot()), enemy.State())
      ensures !died ==> enemies == old(enemies) && swords == old(swords)
      ensures died ==> Distinct(enemies) && swords == [] && fresh(enemies)
    {
      died := false;
      if Overlaps(player.State().Box(), enemy.State().Box()) {
        died := player.TakeDamage(CONTACT_DAMAGE);
        if died {
          RestartLevel();
        }
        if player.x < enemy.x {
          player.x := player.x - PUSH_BACK;
        } else {
          player.x := player.x + PUSH_BACK;
        }
      }
    }

    /** The sword loop over a copy of the list: an expired sword is dropped,
        a live one strikes. */
    method UpdateSwords()
      requires Distinct(enemies) && Distinct(swords)
      modifies this, swords
      ensures Snapshot() == SwordsMoved(old(Snapshot()))
      ensures Distinct(enemies) && Distinct(swords)
    {
      var snap := swords;
      ghost var w0 := Snapshot();
      ghost var snapStates := SwordStates(snap);
      ghost var keptObjs: seq<Sword> := [];
      ghost var kept: seq<SwordState> := [];
      var i := 0;
      while i < |snap|
        invariant 0 <= i <= |snap| == |snapStates|
        invariant Distinct(snap) && Distinct(enemies) && Distinct(keptObjs)
        invariant swords == keptObjs + snap[i..]
        invariant forall k :: i <= k < |snap| ==> snap[k] !in keptObjs
        invariant forall k :: i <= k < |snap| ==> snap[k].State() == snapStates[k]
        invariant SwordStates(keptObjs) == kept
        invariant SwordsFrom(SceneWith(w0.swords), snapStates, i, kept) == SwordsFrom(w0, snapStates, 0, [])
      {
        var alive;
        alive, keptObjs, kept := SwordTurn(snap, i, w0.swords, snapStates, keptObjs, kept);
        i := i + 1;
      }
      assert swords == keptObjs;
      assert SwordsFrom(SceneWith(w0.swords), snapStates, i, kept) == SceneWith(kept);
    }

    /** The sword loop's body for snapshot slot `i`: update, then drop the
        sword if it expired or strike with it if it is live. The ghost results
        are the kept swords and their states. */
    method SwordTurn(snap: seq<Sword>, i: nat, ghost ws: seq<SwordState>, ghost snapStates: seq<SwordState>,
                     ghost keptObjs: seq<Sword>, ghost kept: seq<SwordState>)
      returns (alive: bool, ghost keptObjs': seq<Sword>, ghost kept': seq<SwordState>)
      requires i < |snap| == |snapStates|
      requires Distinct(snap) && Distinct(enemies) && Distinct(keptObjs)
      requires swords == keptObjs + snap[i..]
      requires forall k :: i <= k < |snap| ==> snap[k] !in keptObjs
      requires snap[i].State() == snapStates[i]
      requires SwordStates(keptObjs) == kept
      modifies this`enemies, this`hooks, this`swords, snap[i]
      ensures Distinct(enemies) && Distinct(keptObjs')
      ensures swords == keptObjs' + snap[i + 1..]
      ensures forall k :: i < k < |snap| ==> snap[k] !in keptObjs'
      ensures forall k :: i < k < |snap| ==> snap[k].State() == old(snap[k].State())
      ensures SwordStates(keptObjs') == kept'
      ensures SwordsFrom(old(SceneWith(ws)), snapStates, i, kept) == SwordsFrom(SceneWith(ws), snapStates, i + 1, kept')
    {
      var sword := snap[i];
      SplitAt(keptObjs, snap, i);
      alive := sword.Update();
      assert SwordStates(keptObjs) == kept;
      if alive {
        Slash(sword, ws);
        SwordStatesSnoc(keptObjs, sword);
        keptObjs', kept' := keptObjs + [sword], kept + [sword.State()];
      } else {
        RemoveFirstAt(keptObjs, sword, snap[i + 1..]);
        swords := RemoveFirst(swords, sword);
        keptObjs', kept' := keptObjs, kept;
      }
    }

    /** One live sword against the enemies. */
    method Slash(sword: Sword, ghost ws: seq<SwordState>)
      requires Distinct(enemies)
      modifies this`enemies, this`hooks
      ensures SceneWith(ws) == Strike(old(SceneWith(ws)), sword.State())
      ensures Distinct(enemies)
    {
      ghost var w0 := SceneWith(ws);
      var box := sword.State().Box();
      KillFirstHit(box);
      EnemyStatesUnchanged(old(enemies));
      ghost var k := FirstOverlap(box, EnemyBoxes(w0.enemies));
      if k.Some? {
        EnemyStatesWithout(old(enemies), k.value);
      }
      StrikeIs(w0, sword.State(), EnemyStates(enemies), hooks);
    }

    /** The scan over a copy of the enemy list: the first enemy the box
        overlaps is removed and scored, and the scan stops there. */
    method KillFirstHit(box: Rect)
      requires Distinct(enemies)
      modifies this`enemies, this`hooks
      ensures var k := FirstOverlap(box, old(EnemyBoxes(EnemyStates(enemies))));
        && (k.None? ==> enemies == old(enemies) && hooks == old(hooks))
        && (k.Some? ==>
              && enemies == old(enemies[..k.value] + enemies[k.value + 1..])
              && hooks == old(hooks).(score := old(hooks).score + KILL_SCORE,
                                      enemiesKilled := old(hooks).enemiesKilled + 1))
      ensures Distinct(enemies)
    {
      var snap := enemies;
      ghost var boxes := EnemyBoxes(EnemyStates(snap));
      var j := 0;
      while j < |snap|
        invariant 0 <= j <= |snap|
        invariant enemies == snap && hooks == old(hooks)
        invariant forall m :: 0 <= m < j ==> !Overlaps(box, boxes[m])
      {
        var enemy := snap[j];
        assert boxes[j] == enemy.State().Box();
        if Overlaps(box, enemy.State().Box()) {
          RemoveFirstDistinct(snap, j);
          DistinctWithout(snap, j);
          enemies := RemoveFirst(enemies, enemy);
          hooks := hooks.(score := hooks.score + KILL_SCORE);
          hooks := hooks.(enemiesKilled := hooks.enemiesKilled + 1);
          break;
        }
        j := j + 1;
      }
    }

    /** Coin pickup against the player's box after this frame's moves. */
    method CollectCoins()
      modifies this`coins, this`hooks
      ensures Snapshot() == CoinsCollected(old(Snapshot()))
    {
      PickUpCoins(player.State().Box());
      assert player.State() == old(player.State());
      assert EnemyStates(enemies) == old(EnemyStates(enemies));
      assert SwordStates(swords) == old(SwordStates(swords));
    }

    /** The coin loop over a copy of the list: each coin the box touches is
        removed and scored. */
    method PickUpCoins(box: Rect)
      modifies this`coins, this`hooks
      ensures coins == Uncollected(old(coins), box)
      ensures var n := |old(coins)| - |coins|;
        hooks == old(hooks).(score := old(hooks).score + COIN_SCORE * n,
                             coinsCollected := old(hooks).coinsCollected + n)
    {
      var snap := coins;
      for i := 0 to |snap|
        invariant coins == Uncollected(snap[..i], box) + snap[i..]
        invariant hooks == old(hooks).(score := old(hooks).score + COIN_SCORE * (i - |Uncollected(snap[..i], box)|),
                                       coinsCollected := old(hooks).coinsCollected + (i - |Uncollected(snap[..i], box)|))
      {
        var coin := snap[i];
        CoinLoopStep(snap, i, box);
        if Overlaps(box, coin.Box()) {
          coins := RemoveFirst(coins, coin);
          hooks := hooks.(score := hooks.score + COIN_SCORE);
          hooks := hooks.(coinsCollected := hooks.coinsCollected + 1);
        }
      }
      assert snap[..|snap|] == snap;
    }

    method CheckLevelComplete()
      requires Distinct(enemies) && Distinct(swords)
      modifies this, player
      ensures Snapshot() == LevelChecked(old(Snapshot()))
      ensures Distinct(enemies) && Distinct(swords)
    {
      if |coins| == 0 && |enemies| == 0 {
        LevelComplete();
      }
    }

    // ------------------------------------------------------------ input

    method HandleKeyPress(key: Key)
      requires Valid()
      modifies this, player
      ensures Valid()
      ensures Snapshot() == KeyPressed(old(Snapshot()), key)
    {
      keysPressed := keysPressed + {key};
      if key == KeySpace {
        player.Jump();
      }
      InputKeepsInv(old(Snapshot()), key, LeftButton);
    }

    method HandleKeyRelease(key: Key)
      requires Valid()
      modifies this`keysPressed
      ensures Valid()
      ensures Snapshot() == KeyReleased(old(Snapshot()), key)
    {
      keysPressed := keysPressed - {key};
      InputKeepsInv(old(Snapshot()), key, LeftButton);
    }

    method HandleMousePress(button: MouseButton)
      requires Valid()
      modifies this, player
      ensures Valid()
      ensures Snapshot() == MousePressed(old(Snapshot()), button)
    {
      if button == LeftButton {
        SwordAttack();
      }
    }

    method SwordAttack()
      requires Valid()
      modifies this, player
      ensures Valid()
      ensures Snapshot() == Attacked(old(Snapshot()))
    {
      AttackedKeepsInv(Snapshot());
      if attackCooldown > 0 {
        return;
      }
      var directionRight := !(KeyA in keysPressed);
      var sword := new Sword(player.x, player.y, directionRight);
      swords := swords + [sword];
      attackCooldown := ATTACK_COOLDOWN_TIME;
      player.AttackAnimation();
    }
  }
}
