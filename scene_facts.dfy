// Properties of the scene rules that span several phases or several frames:
// the between-frame invariant (cooldown never negative, at most one sword and
// it dies before the cooldown ends, health and patrol bounds), the cooldown
// count-down and the score bookkeeping of the sword loop.
module SceneFacts {
  import opened Lists
  import opened Geometry
  import opened Players
  import opened Enemies
  import opened Swords
  import opened SceneRules

  /** A contact check keeps the in-frame invariant: health stays in [0, 100]
      (a restart refills it), a restart brings fresh enemies and no sword. */
  lemma ContactKeepsMidInv(w: World, e: EnemyState)
    requires MidInv(w)
    ensures MidInv(Contact(w, e).0)
  {
    if Overlaps(w.player.Box(), e.Box()) && w.player.health - CONTACT_DAMAGE <= 0 {
      var re := Restarted(w.(player := w.player.(health := 0)));
      assert re.swords == [] && EnemiesInv(re.enemies);
    }
  }

  /** The enemy loop keeps the in-frame invariant, whether or not it restarts
      the level on the way. */
  lemma {:induction false} EnemiesFromKeepsMidInv(w: World, snap: seq<EnemyState>, i: nat, restarted: bool)
    requires i <= |snap|
    requires !restarted ==> |w.enemies| == |snap|
    requires MidInv(w)
    requires forall k :: i <= k < |snap| ==> PatrolInv(snap[k])
    ensures MidInv(EnemiesFrom(w, snap, i, restarted))
    decreases |snap| - i
  {
    if i < |snap| {
      var e := EnemyStep(snap[i], w.platforms);
      assert PatrolInv(e);
      var w1 := if restarted then w else w.(enemies := w.enemies[i := e]);
      if !restarted {
        forall x | x in w1.enemies ensures PatrolInv(x) {
          var j :| 0 <= j < |w1.enemies| && w1.enemies[j] == x;
          if j != i {
            assert x in w.enemies;
          }
        }
      }
      assert MidInv(w1);
      ContactKeepsMidInv(w1, e);
      var (w2, died) := Contact(w1, e);
      EnemiesFromKeepsMidInv(w2, snap, i + 1, restarted || died);
    }
  }

  /** Sword loop bookkeeping: the kept swords are exactly the ones still
      active after their update; each kill removes one enemy and scores 50 with
      one kill event; there are at most as many kills as live swords; nothing but
      the enemies, the counters and the sword list changes. */
  lemma {:induction false} SwordKillsScored(w: World, snap: seq<SwordState>, i: nat, kept: seq<SwordState>)
    requires i <= |snap|
    ensures var r := SwordsFrom(w, snap, i, kept);
      && r.swords == kept + LiveSwords(snap[i..])
      && r == w.(enemies := r.enemies, hooks := r.hooks, swords := r.swords)
      && 0 <= |w.enemies| - |r.enemies| <= |LiveSwords(snap[i..])|
      && r.hooks == w.hooks.(score := w.hooks.score + KILL_SCORE * (|w.enemies| - |r.enemies|),
                             enemiesKilled := w.hooks.enemiesKilled + (|w.enemies| - |r.enemies|))
      && forall e :: e in r.enemies ==> e in w.enemies
    decreases |snap| - i
  {
    if i == |snap| {
      assert snap[i..] == [];
    } else {
      assert snap[i..][1..] == snap[i + 1..];
      var s := Tick(snap[i]);
      if !s.Active() {
        SwordKillsScored(w, snap, i + 1, kept);
      } else {
        var w1 := Strike(w, s);
        SwordKillsScored(w1, snap, i + 1, kept + [s]);
        var k := FirstOverlap(s.Box(), EnemyBoxes(w.enemies));
        if k.Some? {
          forall e | e in w1.enemies ensures e in w.enemies {
            var j :| 0 <= j < |w1.enemies| && w1.enemies[j] == e;
            if j < k.value {
              assert e == w.enemies[j];
            } else {
              assert e == w.enemies[j + 1];
            }
          }
        }
      }
    }
  }

  /** The coins left after the pickup are exactly those the player's box does
      not touch. */
  lemma {:induction false} UncollectedExactly(cs: seq<Coin>, box: Rect)
    ensures forall c :: c in Uncollected(cs, box) <==> c in cs && !Overlaps(box, c.Box())
  {
    if cs != [] {
      var init := cs[..|cs| - 1];
      UncollectedExactly(init, box);
      assert cs == init + [cs[|cs| - 1]];
    }
  }

  /** The coin loop one coin further, on the list it works on (the coins kept
      so far followed by those not yet looked at): a touched coin is removed by
      `remove` and not kept, an untouched one stays and is kept. */
  lemma CoinLoopStep(cs: seq<Coin>, i: nat, box: Rect)
    requires i < |cs|
    ensures var kept := Uncollected(cs[..i], box);
      var kept' := Uncollected(cs[..i + 1], box);
      && (Overlaps(box, cs[i].Box()) ==>
            RemoveFirst(kept + cs[i..], cs[i]) == kept' + cs[i + 1..] && |kept'| == |kept|)
      && (!Overlaps(box, cs[i].Box()) ==>
            kept + cs[i..] == kept' + cs[i + 1..] && |kept'| == |kept| + 1)
  {
    var kept := Uncollected(cs[..i], box);
    assert cs[..i + 1][..i] == cs[..i];
    assert kept + cs[i..] == kept + [cs[i]] + cs[i + 1..];
    if Overlaps(box, cs[i].Box()) {
      UncollectedExactly(cs[..i], box);
      RemoveFirstAt(kept, cs[i], cs[i + 1..]);
    }
  }

  /** A strike is determined by the enemies and counters it leaves. */
  lemma StrikeIs(w: World, s: SwordState, es: seq<EnemyState>, h: Hooks)
    requires var k := FirstOverlap(s.Box(), EnemyBoxes(w.enemies));
      && (k.None? ==> es == w.enemies && h == w.hooks)
      && (k.Some? ==>
            && es == w.enemies[..k.value] + w.enemies[k.value + 1..]
            && h == w.hooks.(score := w.hooks.score + KILL_SCORE, enemiesKilled := w.hooks.enemiesKilled + 1))
    ensures Strike(w, s) == w.(enemies := es, hooks := h)
  {
  }

  /** The single sword, if it survives its update, still obeys the between-frame
      invariant against the already lowered cooldown. */
  lemma LiveSwordsKeepInv(ss: seq<SwordState>, cooldown: int)
    requires |ss| <= 1
    requires forall s :: s in ss ==> 0 <= s.frameCount < ATTACK_DURATION && s.frameCount + 1 + cooldown == ATTACK_COOLDOWN_TIME
    ensures SwordsInv(LiveSwords(ss), cooldown)
  {
    if ss != [] {
      assert ss[1..] == [];
      assert ss[0] in ss;
    }
  }

  /** The cooldown tick turns the between-frame invariant into the in-frame one:
      with the cooldown at 0 there is no sword, so nothing is one frame behind. */
  lemma CooledDownMidInv(w: World)
    requires Inv(w)
    ensures MidInv(CooledDown(w))
  {
  }

  /** The first half of `update_scene` (cooldown tick, held keys, the player's
      update) turns the between-frame invariant into the in-frame one. */
  lemma PlayerPhaseMidInv(w: World)
    requires Inv(w)
    ensures MidInv(PlayerMoved(HeldKeysApplied(CooledDown(w))))
  {
    CooledDownMidInv(w);
    var w2 := HeldKeysApplied(CooledDown(w));
    assert MidInv(w2);
  }

  /** The second half of `update_scene` (swords, coins, the level-complete
      check) turns the in-frame invariant back into the between-frame one. */
  lemma SwordPhaseInv(w4: World)
    requires MidInv(w4)
    ensures Inv(LevelChecked(CoinsCollected(SwordsMoved(w4))))
  {
    SwordKillsScored(w4, w4.swords, 0, []);
    assert w4.swords[0..] == w4.swords;
    LiveSwordsKeepInv(w4.swords, w4.cooldown);
    var w5 := SwordsMoved(w4);
    assert Inv(w5);
    var w6 := CoinsCollected(w5);
    assert Inv(w6);
  }

  /** `update_scene` keeps the between-frame invariant. In particular there is
      never more than one sword, and the cooldown never goes negative. */
  lemma StepKeepsInv(w: World)
    requires Inv(w)
    ensures Inv(Step(w))
  {
    var w3 := PlayerMoved(HeldKeysApplied(CooledDown(w)));
    PlayerPhaseMidInv(w);
    EnemiesFromKeepsMidInv(w3, w3.enemies, 0, false);
    SwordPhaseInv(EnemiesMoved(w3));
  }

  /** Each `update_scene` lowers a positive cooldown by exactly one and leaves a
      zero cooldown at zero. */
  lemma StepCountsDown(w: World)
    ensures Step(w).cooldown == if w.cooldown > 0 then w.cooldown - 1 else w.cooldown
  {
    var w3 := PlayerMoved(HeldKeysApplied(CooledDown(w)));
    var w4 := EnemiesMoved(w3);
    SwordKillsScored(w4, w4.swords, 0, []);
  }

  /** `sword_attack` keeps the invariant: it only adds a sword when the cooldown
      is 0, and then no sword is alive. */
  lemma AttackedKeepsInv(w: World)
    requires Inv(w)
    ensures Inv(Attacked(w))
    ensures w.cooldown == 0 ==> |Attacked(w).swords| == 1
  {
    if w.swords != [] {
      assert w.swords[0] in w.swords;
    }
  }

  /** The input handlers keep the invariant. */
  lemma InputKeepsInv(w: World, k: Key, b: MouseButton)
    requires Inv(w)
    ensures Inv(KeyPressed(w, k)) && Inv(KeyReleased(w, k)) && Inv(MousePressed(w, b))
  {
    AttackedKeepsInv(w);
  }

  /** The scene starts out satisfying the invariant. */
  lemma InitialInv()
    ensures Inv(Initial())
  {
  }
}
