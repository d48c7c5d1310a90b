/**
 * Status effects of a combatant (core/src/main/java/com/anyicomplex/unlucky/battle/StatusSet.java,
 * with the effect types of battle/StatusEffect.java).
 *
 * An effect is represented by its type; the set is the list of types in insertion order.
 * DMG_RED (damage reduction) lasts several turns and every other effect lasts one turn.
 */
module Status {

  const DMG_RED: int := 0
  const DISTRACT: int := 1
  const FOCUS: int := 2
  const INTIMIDATE: int := 3
  const REFLECT: int := 4
  const STUN: int := 5
  const INVERT: int := 6
  const SHIELD: int := 7
  const SACRIFICE: int := 8

  /** No two effects of the list share a type. */
  predicate NoDuplicateTypes(s: seq<int>)
  {
    forall i, j :: 0 <= i < j < |s| ==> s[i] != s[j]
  }

  /** `addEffect(e)`: the effect is appended when `findEffect(e)` reports it absent. */
  function Added(s: seq<int>, e: int): seq<int>
  {
    if e != -1 && e in s then s else s + [e]
  }

  /**
   * Which effects a partial clear removes: DMG_RED for `clearAllButSingleTurnEffects`
   * (`dmgRed` true), every other type for `clearAllButMultiTurnEffects` (`dmgRed` false).
   */
  predicate Removed(t: int, dmgRed: bool)
  {
    if dmgRed then t == DMG_RED else t != DMG_RED
  }

  /**
   * The list a forward loop leaves when it removes the element at index i and then moves on
   * to index i + 1: the element that slid into place i after a removal is never looked at.
   */
  function SkipRemove(s: seq<int>, dmgRed: bool): seq<int>
    decreases |s|
  {
    if |s| == 0 then []
    else if Removed(s[0], dmgRed) then
      if |s| == 1 then [] else [s[1]] + SkipRemove(s[2..], dmgRed)
    else [s[0]] + SkipRemove(s[1..], dmgRed)
  }

  /** The intended result of a partial clear: every removable effect gone, the rest in order. */
  function Filter(s: seq<int>, dmgRed: bool): seq<int>
    decreases |s|
  {
    if |s| == 0 then []
    else if Removed(s[0], dmgRed) then Filter(s[1..], dmgRed)
    else [s[0]] + Filter(s[1..], dmgRed)
  }

  /** `sub` is `s` with some elements deleted and the rest kept in order. */
  predicate IsSubsequence(sub: seq<int>, s: seq<int>)
    decreases |s|
  {
    if |sub| == 0 then true
    else if |s| == 0 then false
    else if sub[0] == s[0] then IsSubsequence(sub[1..], s[1..])
    else IsSubsequence(sub, s[1..])
  }

  // ------------------------------------------------------------------
  // Properties of addEffect
  // ------------------------------------------------------------------

  /**
   * Adding a valid type keeps the list free of duplicates, makes the type present, and adding
   * it a second time changes nothing.
   */
  lemma AddedKeepsTypesDistinct(s: seq<int>, e: int)
    requires NoDuplicateTypes(s) && e != -1
    ensures NoDuplicateTypes(Added(s, e))
    ensures e in Added(s, e)
    ensures Added(Added(s, e), e) == Added(s, e)
    ensures e in s ==> Added(s, e) == s
  {
  }

  // ------------------------------------------------------------------
  // Properties of the partial clears
  // ------------------------------------------------------------------

  lemma {:induction false} FilterConcat(a: seq<int>, b: seq<int>, dmgRed: bool)
    ensures Filter(a + b, dmgRed) == Filter(a, dmgRed) + Filter(b, dmgRed)
    decreases |a|
  {
    if |a| == 0 {
      assert a + b == b;
    }
    if |a| > 0 {
      assert (a + b)[0] == a[0];
      assert (a + b)[1..] == a[1..] + b;
      FilterConcat(a[1..], b, dmgRed);
    }
  }

  lemma {:induction false} FilterKeepsClean(s: seq<int>, dmgRed: bool)
    requires forall k :: 0 <= k < |s| ==> !Removed(s[k], dmgRed)
    ensures Filter(s, dmgRed) == s
    decreases |s|
  {
    if |s| > 0 {
      FilterKeepsClean(s[1..], dmgRed);
    }
  }

  lemma {:induction false} SkipRemoveKeepsClean(s: seq<int>, dmgRed: bool)
    requires forall k :: 0 <= k < |s| ==> !Removed(s[k], dmgRed)
    ensures SkipRemove(s, dmgRed) == s
    decreases |s|
  {
    if |s| > 0 {
      SkipRemoveKeepsClean(s[1..], dmgRed);
    }
  }

  /** A partial clear only deletes: the result is a subsequence of the list it started from. */
  lemma {:induction false} SkipRemoveOnlyDeletes(s: seq<int>, dmgRed: bool)
    ensures IsSubsequence(SkipRemove(s, dmgRed), s)
    decreases |s|
  {
    if |s| > 0 {
      if Removed(s[0], dmgRed) {
        if |s| > 1 {
          SkipRemoveOnlyDeletes(s[2..], dmgRed);
          assert s[1..][1..] == s[2..];
          assert IsSubsequence(SkipRemove(s, dmgRed), s[1..]);
          SubsequenceSkipsHead(SkipRemove(s, dmgRed), s);
        }
      } else {
        SkipRemoveOnlyDeletes(s[1..], dmgRed);
      }
    }
  }

  lemma {:induction false} SubsequenceSkipsHead(sub: seq<int>, s: seq<int>)
    requires |s| > 0 && IsSubsequence(sub, s[1..])
    ensures IsSubsequence(sub, s)
    decreases |s|, 0
  {
    if |sub| > 0 && sub[0] == s[0] {
      SubsequenceDropHead(sub, s[1..]);
    }
  }

  lemma {:induction false} SubsequenceDropHead(sub: seq<int>, s: seq<int>)
    requires |sub| > 0 && IsSubsequence(sub, s)
    ensures IsSubsequence(sub[1..], s)
    decreases |s|, 1
  {
    if sub[0] != s[0] {
      SubsequenceDropHead(sub, s[1..]);
      SubsequenceSkipsHead(sub[1..], s);
    } else if |sub| > 1 {
      SubsequenceSkipsHead(sub[1..], s);
    }
  }

  /** How many effects of the list have type t. */
  function Occurrences(s: seq<int>, t: int): nat
    decreases |s|
  {
    if |s| == 0 then 0 else (if s[0] == t then 1 else 0) + Occurrences(s[1..], t)
  }

  /**
   * A partial clear never deletes an effect it is meant to keep: every such type occurs in the
   * result exactly as often as before. In particular the multi-turn clear never removes DMG_RED.
   */
  lemma {:induction false} SkipRemoveKeepsKept(s: seq<int>, dmgRed: bool, t: int)
    requires !Removed(t, dmgRed)
    ensures Occurrences(SkipRemove(s, dmgRed), t) == Occurrences(s, t)
    decreases |s|
  {
    if |s| > 1 {
      if Removed(s[0], dmgRed) {
        var rest := SkipRemove(s[2..], dmgRed);
        SkipRemoveKeepsKept(s[2..], dmgRed, t);
        assert ([s[1]] + rest)[1..] == rest;
        assert s[1..][1..] == s[2..];
      } else {
        var rest := SkipRemove(s[1..], dmgRed);
        SkipRemoveKeepsKept(s[1..], dmgRed, t);
        assert ([s[0]] + rest)[1..] == rest;
      }
    } else if |s| == 1 && !Removed(s[0], dmgRed) {
      assert SkipRemove(s, dmgRed) == [s[0]] + SkipRemove(s[1..], dmgRed) == s;
    }
  }

  /**
   * When no two effects share a type, the single-turn clear (which removes DMG_RED) does what
   * it is meant to: the skipped element never matters, because there is at most one DMG_RED.
   */
  lemma {:induction false} SingleTurnClearExact(s: seq<int>)
    requires NoDuplicateTypes(s)
    ensures SkipRemove(s, true) == Filter(s, true)
    ensures DMG_RED !in SkipRemove(s, true)
    decreases |s|
  {
    if |s| > 0 {
      if s[0] == DMG_RED {
        assert forall k :: 0 <= k < |s[1..]| ==> !Removed(s[1..][k], true) by {
          forall k | 0 <= k < |s[1..]| ensures s[1..][k] != DMG_RED {
            assert s[1..][k] == s[k + 1];
          }
        }
        FilterKeepsClean(s[1..], true);
        if |s| > 1 {
          assert forall k :: 0 <= k < |s[2..]| ==> !Removed(s[2..][k], true) by {
            forall k | 0 <= k < |s[2..]| ensures s[2..][k] != DMG_RED {
              assert s[2..][k] == s[k + 2];
            }
          }
          SkipRemoveKeepsClean(s[2..], true);
          assert s[1..] == [s[1]] + s[2..];
        }
      } else {
        SingleTurnClearExact(s[1..]);
      }
      FilterRemovesAll(s, true);
    }
  }

  /** The intended result holds no removable effect. */
  lemma {:induction false} FilterRemovesAll(s: seq<int>, dmgRed: bool)
    ensures forall k :: 0 <= k < |Filter(s, dmgRed)| ==> !Removed(Filter(s, dmgRed)[k], dmgRed)
    decreases |s|
  {
    if |s| > 0 {
      FilterRemovesAll(s[1..], dmgRed);
    }
  }

  /**
   * The multi-turn clear as written lets a single-turn effect survive: from [DISTRACT, FOCUS]
   * it removes DISTRACT and then skips FOCUS, which slid into the examined slot.
   */
  lemma MultiTurnClearMissesEffect()
    ensures SkipRemove([DISTRACT, FOCUS], false) == [FOCUS]
    ensures Filter([DISTRACT, FOCUS], false) == []
  {
    assert [DISTRACT, FOCUS][2..] == [];
    assert [DISTRACT, FOCUS][1..] == [FOCUS];
    assert [FOCUS][1..] == [];
    assert Filter([FOCUS], false) == Filter([], false) == [];
  }

  /** One pass of the forward loop keeps "done prefix + what the rest will become" fixed. */
  lemma ForwardRemoveStep(s: seq<int>, i: int, dmgRed: bool)
    requires 0 <= i < |s|
    ensures var t := s[..i] + s[i + 1..];
      Removed(s[i], dmgRed) && i + 1 < |s| ==>
        t[..i + 1] + SkipRemove(t[i + 1..], dmgRed) == s[..i] + SkipRemove(s[i..], dmgRed)
    ensures Removed(s[i], dmgRed) && i + 1 == |s| ==> s[..i] + s[i + 1..] == s[..i] + SkipRemove(s[i..], dmgRed)
    ensures !Removed(s[i], dmgRed) ==> s[..i + 1] + SkipRemove(s[i + 1..], dmgRed) == s[..i] + SkipRemove(s[i..], dmgRed)
  {
    var t := s[..i] + s[i + 1..];
    if Removed(s[i], dmgRed) {
      if i + 1 < |s| {
        assert s[i..][2..] == s[i + 2..];
        assert t[..i + 1] == s[..i] + [s[i + 1]];
        assert t[i + 1..] == s[i + 2..];
      }
    } else {
      assert s[i..][1..] == s[i + 1..];
      assert s[..i + 1] == s[..i] + [s[i]];
    }
  }

  // ------------------------------------------------------------------
  // The class
  // ------------------------------------------------------------------

  class StatusSet {
    /** Whether the set belongs to the player (it only changes how icons are drawn). */
    const player: bool
    var effects: seq<int>

    constructor (player: bool)
      ensures this.player == player && effects == []
    {
      this.player := player;
      effects := [];
    }

    /** `findEffect(e)`: the TYPE of the first effect of type e, or -1 when there is none. */
    method FindEffect(e: int) returns (r: int)
      ensures e in effects ==> r == e
      ensures e !in effects ==> r == -1
    {
      var i := 0;
      while i < |effects|
        invariant 0 <= i <= |effects|
        invariant e !in effects[..i]
      {
        if effects[i] == e {
          return effects[i];
        }
        i := i + 1;
      }
      return -1;
    }

    /** `contains(e)`: whether `findEffect(e)` reports something other than -1. */
    method Contains(e: int) returns (b: bool)
      ensures b <==> e in effects && e != -1
    {
      var r := FindEffect(e);
      b := r != -1;
    }

    method AddEffect(e: int)
      modifies this
      ensures effects == Added(old(effects), e)
    {
      var r := FindEffect(e);
      if r == -1 {
        effects := effects + [e];
      }
    }

    method Clear()
      modifies this
      ensures effects == []
    {
      effects := [];
    }

    /** Removes the DMG_RED effects by a forward loop that skips the element after each removal. */
    method ClearAllButSingleTurnEffects()
      modifies this
      ensures effects == SkipRemove(old(effects), true)
    {
      ForwardRemove(true);
    }

    /** Removes every effect but DMG_RED, by the same skipping forward loop. */
    method ClearAllButMultiTurnEffects()
      modifies this
      ensures effects == SkipRemove(old(effects), false)
    {
      ForwardRemove(false);
    }

    /** The loop shared by both partial clears: remove at index i, then go on to i + 1. */
    method ForwardRemove(dmgRed: bool)
      modifies this
      ensures effects == SkipRemove(old(effects), dmgRed)
    {
      ghost var target := SkipRemove(effects, dmgRed);
      var i := 0;
      while i < |effects|
        invariant 0 <= i <= |effects| + 1
        invariant i <= |effects| ==> effects[..i] + SkipRemove(effects[i..], dmgRed) == target
        invariant i > |effects| ==> effects == target
        decreases |effects| + 1 - i
      {
        ForwardRemoveStep(effects, i, dmgRed);
        if Removed(effects[i], dmgRed) {
          effects := effects[..i] + effects[i + 1..];
        }
        i := i + 1;
      }
      if i <= |effects| {
        assert effects[i..] == [] && effects[..i] == effects;
      }
    }

    /**
     * The multi-turn clear as evidently intended: after a removal the same index is examined
     * again, so every effect other than DMG_RED goes.
     */
    method ClearAllButMultiTurnEffectsCorrected()
      modifies this
      ensures effects == Filter(old(effects), false)
    {
      var i := 0;
      while i < |effects|
        invariant 0 <= i <= |effects|
        invariant Filter(effects, false) == Filter(old(effects), false)
        invariant forall k :: 0 <= k < i ==> effects[k] == DMG_RED
        decreases |effects| - i
      {
        if effects[i] != DMG_RED {
          var s := effects;
          assert s == s[..i] + [s[i]] + s[i + 1..];
          FilterConcat(s[..i] + [s[i]], s[i + 1..], false);
          FilterConcat(s[..i], [s[i]], false);
          FilterConcat(s[..i], s[i + 1..], false);
          effects := effects[..i] + effects[i + 1..];
        } else {
          i := i + 1;
        }
      }
      FilterKeepsClean(effects, false);
    }
  }
}
