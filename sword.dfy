// The sword hitbox of game/sword.py: placed beside the player when it is
// spawned, it counts the frames it has lived and is active for ten of them.
module Swords {
  import opened Geometry
  import opened Players

  const SWORD_WIDTH: real := 50.0
  const SWORD_HEIGHT: real := 10.0
  const ATTACK_DURATION: int := 10

  /** The sword's fields as a value. */
  datatype SwordState = SwordState(x: real, y: real, directionRight: bool, frameCount: int)
  {
    function Box(): Rect { Rect(x, y, SWORD_WIDTH, SWORD_HEIGHT) }
    predicate Active() { frameCount < ATTACK_DURATION }
  }

  /** A sword spawned for a player at (px, py): at mid-height of the player, its
      inner edge on the player's side in the facing direction. */
  function Spawn(px: real, py: real, directionRight: bool): (s: SwordState)
    ensures directionRight ==> s.x == px + PLAYER_WIDTH
    ensures !directionRight ==> s.x + SWORD_WIDTH == px
    ensures s.y == py + 20.0 && s.directionRight == directionRight
    ensures s.frameCount == 0 && s.Active()
  {
    if directionRight then SwordState(px + 40.0, py + 20.0, directionRight, 0)
    else SwordState(px - 50.0, py + 20.0, directionRight, 0)
  }

  /** One `update`: one more frame lived; nothing else changes. */
  function Tick(s: SwordState): (r: SwordState)
    ensures r.frameCount == s.frameCount + 1
    ensures r == s.(frameCount := r.frameCount)
  {
    s.(frameCount := s.frameCount + 1)
  }

  /** The sword after `n` updates. */
  function Ticks(s: SwordState, n: nat): SwordState
  {
    if n == 0 then s else Tick(Ticks(s, n - 1))
  }

  /** The n-th update of a spawned sword leaves it n frames old, at the same
      place, and reports it active exactly for n < 10: true for the first nine
      calls, false from the tenth on. */
  lemma {:induction false} Lifetime(px: real, py: real, right: bool, n: nat)
    ensures Ticks(Spawn(px, py, right), n) == Spawn(px, py, right).(frameCount := n)
    ensures Ticks(Spawn(px, py, right), n).Active() <==> n < ATTACK_DURATION
  {
    if n > 0 {
      Lifetime(px, py, right, n - 1);
    }
  }

  class Sword {
    const x: real
    const y: real
    const directionRight: bool
    var frameCount: int

    function State(): SwordState
      reads this
    {
      SwordState(x, y, directionRight, frameCount)
    }

    constructor (px: real, py: real, right: bool)
      ensures State() == Spawn(px, py, right)
    {
      directionRight := right;
      if right {
        x, y := px + 40.0, py + 20.0;
      } else {
        x, y := px - 50.0, py + 20.0;
      }
      frameCount := 0;
    }

    /** One frame; the result says whether the sword is still active. */
    method Update() returns (alive: bool)
      modifies this
      ensures State() == Tick(old(State()))
      ensures alive == IsActive()
    {
      frameCount := frameCount + 1;
      alive := frameCount < ATTACK_DURATION;
    }

    predicate IsActive()
      reads this
    {
      State().Active()
    }
  }
}
