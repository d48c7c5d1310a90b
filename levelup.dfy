/**
 * The level-up screen (core/src/main/java/com/anyicomplex/unlucky/screen/game/LevelUpScreen.java).
 *
 * It shows five stats (max exp, accuracy, max damage, min damage, max hp) and counts each up to
 * its new value. A click starts the count, a second click skips to the end, a third hands over
 * to the transition back to the map. The 0.05 s gate between count steps is a float timer:
 * `Update` is told whether the gate opened during this frame. Labels and the level-up
 * animation are drawing only; `applyLevelUp` belongs to the player and is reported by a flag.
 */
module LevelUps {
  import opened Events
  import opened GameScreens
  import opened Transitions

  const NUM_STATS: int := 5

  /** One step of the count: each stat below its target goes up by one. */
  function Stepped(s: seq<int>, t: seq<int>): (r: seq<int>)
    requires |s| == |t|
    ensures |r| == |s|
  {
    seq(|s|, i requires 0 <= i < |s| => if s[i] < t[i] then s[i] + 1 else s[i])
  }

  /** `n` steps of the count. */
  function StepN(s: seq<int>, t: seq<int>, n: nat): (r: seq<int>)
    requires |s| == |t|
    ensures |r| == |s|
  {
    if n == 0 then s else Stepped(StepN(s, t, n - 1), t)
  }

  /** The count never overshoots: a stat below its target gains exactly one, any other stays. */
  lemma SteppedNeverOvershoots(s: seq<int>, t: seq<int>)
    requires |s| == |t|
    ensures forall i :: 0 <= i < |s| && s[i] < t[i] ==> Stepped(s, t)[i] == s[i] + 1 <= t[i]
    ensures forall i :: 0 <= i < |s| && s[i] >= t[i] ==> Stepped(s, t)[i] == s[i]
  {
  }

  /** After `n` steps a stat has gained `n` or reached its target, whichever comes first. */
  lemma {:induction false} StepNValue(s: seq<int>, t: seq<int>, n: nat)
    requires |s| == |t|
    ensures forall i :: 0 <= i < |s| ==>
      StepN(s, t, n)[i] == (if s[i] >= t[i] then s[i] else if s[i] + n < t[i] then s[i] + n else t[i])
  {
    if n > 0 {
      StepNValue(s, t, n - 1);
    }
  }

  /**
   * With no stat above its target, the count is complete after `n` steps exactly when no stat
   * had more than `n` to gain: it finishes after the largest increase, and not before.
   */
  lemma FinishesAfterLargestIncrease(s: seq<int>, t: seq<int>, n: nat)
    requires |s| == |t| && forall i :: 0 <= i < |s| ==> s[i] <= t[i]
    ensures StepN(s, t, n) == t <==> forall i :: 0 <= i < |s| ==> t[i] - s[i] <= n
  {
    StepNValue(s, t, n);
    if StepN(s, t, n) == t {
      forall i | 0 <= i < |s|
        ensures t[i] - s[i] <= n
      {
        assert StepN(s, t, n)[i] == t[i];
      }
    }
  }

  /** The three states of the screen a click moves between. */
  datatype Phase = NotStarted | Counting | Finished

  class LevelUpScreen {
    const statsNum: array<int>
    const increasedStats: array<int>
    var startAnim: bool
    var sAnimFinished: bool
    /** Whether the screen's button takes clicks. */
    var touchable: bool
    const gameScreen: GameScreen
    const transition: TransitionScreen

    ghost predicate Valid()
      reads this
    {
      statsNum.Length == NUM_STATS && increasedStats.Length == NUM_STATS && statsNum != increasedStats
    }

    function Phase(): Phase
      reads this
    {
      if sAnimFinished then Finished else if startAnim then Counting else NotStarted
    }

    constructor (gameScreen: GameScreen, transition: TransitionScreen)
      ensures Valid() && fresh(statsNum) && fresh(increasedStats)
      ensures this.gameScreen == gameScreen && this.transition == transition
      ensures Phase() == NotStarted && !touchable
    {
      statsNum := new int[NUM_STATS](_ => 0);
      increasedStats := new int[NUM_STATS](_ => 0);
      this.gameScreen := gameScreen;
      this.transition := transition;
      startAnim, sAnimFinished, touchable := false, false, false;
    }

    /** `reset()`. */
    method Reset()
      modifies this
      ensures Phase() == NotStarted && !startAnim && !touchable
    {
      startAnim := false;
      sAnimFinished := false;
      touchable := false;
    }

    /** `start()`, given the player's five current stats and their five increases. */
    method Start(current: seq<int>, increase: seq<int>)
      requires Valid() && |current| == NUM_STATS && |increase| == NUM_STATS
      modifies this, statsNum, increasedStats
      ensures Valid() && Phase() == NotStarted && touchable
      ensures statsNum[..] == current
      ensures forall i :: 0 <= i < NUM_STATS ==> increasedStats[i] == current[i] + increase[i]
    {
      Reset();
      for i := 0 to NUM_STATS
        modifies statsNum, increasedStats
        invariant forall k :: 0 <= k < i ==> statsNum[k] == current[k]
        invariant forall k :: 0 <= k < i ==> increasedStats[k] == current[k] + increase[k]
      {
        statsNum[i] := current[i];
        increasedStats[i] := statsNum[i] + increase[i];
      }
      touchable := true;
    }

    /**
     * `performClick()`, with `draw` the transition pattern drawn if this click leaves the
     * screen. `levelUpApplied` reports the call to the player's `applyLevelUp`.
     */
    method PerformClick(draw: int) returns (levelUpApplied: bool)
      requires Valid() && 0 <= draw < NUM_TRANSITIONS
      modifies this, statsNum, gameScreen, transition
      ensures Valid() && increasedStats[..] == old(increasedStats[..])
      ensures !(old(touchable) && old(Phase()) == Finished) ==>
        unchanged(gameScreen) && unchanged(transition) && touchable == old(touchable)
      ensures !old(touchable) ==>
        Phase() == old(Phase()) && statsNum[..] == old(statsNum[..])
        && !levelUpApplied && gameScreen.currentEvent == old(gameScreen.currentEvent)
      ensures old(touchable) && old(Phase()) == NotStarted ==>
        Phase() == Counting && levelUpApplied && statsNum[..] == old(statsNum[..])
      ensures old(touchable) && old(Phase()) == Counting ==>
        Phase() == Finished && !levelUpApplied && statsNum[..] == increasedStats[..]
      ensures old(touchable) && old(Phase()) == Finished ==>
        Phase() == NotStarted && !touchable && !levelUpApplied
        && gameScreen.currentEvent == TRANSITION && transition.shouldStart
        && transition.prev == LEVEL_UP && transition.next == MOVING && transition.renderLevelUp
    {
      levelUpApplied := false;
      if !touchable {
        return;
      }
      if sAnimFinished {
        gameScreen.SetCurrentEvent(TRANSITION);
        transition.Start(LEVEL_UP, MOVING, draw);
        Reset();
      } else if !sAnimFinished && !startAnim {
        startAnim := true;
        levelUpApplied := true;
      } else if !sAnimFinished && startAnim {
        for i := 0 to NUM_STATS
          modifies statsNum
          invariant forall k :: 0 <= k < i ==> statsNum[k] == increasedStats[k]
        {
          statsNum[i] := increasedStats[i];
        }
        sAnimFinished := true;
      }
    }

    /**
     * The stat count of `update(dt)`: while counting, each opened gate steps every stat once,
     * and the count is finished once every stat shows its new value.
     */
    method Update(gateOpened: bool)
      requires Valid()
      modifies this, statsNum
      ensures Valid() && touchable == old(touchable) && startAnim == old(startAnim)
      ensures old(Phase()) == Counting ==>
        statsNum[..] == (if gateOpened then Stepped(old(statsNum[..]), increasedStats[..]) else old(statsNum[..]))
        && (sAnimFinished <==> statsNum[..] == increasedStats[..])
      ensures old(Phase()) != Counting ==> statsNum[..] == old(statsNum[..]) && Phase() == old(Phase())
    {
      if startAnim && !sAnimFinished {
        if gateOpened {
          ghost var s := statsNum[..];
          for i := 0 to NUM_STATS
            modifies statsNum
            invariant forall k :: 0 <= k < i ==> statsNum[k] == (if s[k] < increasedStats[k] then s[k] + 1 else s[k])
            invariant forall k :: i <= k < NUM_STATS ==> statsNum[k] == s[k]
          {
            if statsNum[i] < increasedStats[i] {
              statsNum[i] := statsNum[i] + 1;
            }
          }
          assert statsNum[..] == Stepped(s, increasedStats[..]);
        }
        if statsNum[..] == increasedStats[..] {
          sAnimFinished := true;
        }
      }
    }
  }
}
