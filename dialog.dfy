/**
 * The map's dialog box (core/src/main/java/com/anyicomplex/unlucky/screen/game/DialogScreen.java).
 *
 * A dialog is a list of lines. Each line is split into one-character pieces and revealed one
 * piece per text-speed gate; a click completes a running reveal, moves on to the next line,
 * or, after the last line, closes the box and hands the stored event back to the game screen.
 * The text-speed gate is a float timer: `Update` is told whether it opened this frame. The
 * blinking arrow, labels and sounds are drawing only.
 */
module Dialogs {
  import opened Events
  import opened Entities
  import opened GameScreens

  /**
   * Java's `text.split("")`: one piece per character, and a single empty piece for the empty
   * string.
   */
  function Pieces(text: string): (r: seq<string>)
    ensures |r| == if text == "" then 1 else |text|
  {
    if text == "" then [""] else seq(|text|, i requires 0 <= i < |text| => [text[i]])
  }

  /** The pieces glued back together. */
  function Concat(pieces: seq<string>): string
  {
    if pieces == [] then "" else Concat(pieces[..|pieces| - 1]) + pieces[|pieces| - 1]
  }

  /** The first `k` pieces of a line spell its first `k` characters. */
  lemma {:induction false} PiecesPrefix(text: string, k: int)
    requires 0 <= k <= |Pieces(text)|
    ensures Concat(Pieces(text)[..k]) == text[..if k < |text| then k else |text|]
  {
    if text == "" {
      if k == 1 {
        assert Pieces(text)[..k][..0] == [];
      }
    } else if k > 0 {
      PiecesPrefix(text, k - 1);
      assert Pieces(text)[..k][..k - 1] == Pieces(text)[..k - 1];
      assert text[..k] == text[..k - 1] + [text[k - 1]];
    }
  }

  /** Once every piece is out, the whole line is shown. */
  lemma WholeLine(text: string)
    ensures Concat(Pieces(text)) == text
  {
    PiecesPrefix(text, |Pieces(text)|);
    assert Pieces(text)[..|Pieces(text)|] == Pieces(text);
  }

  class DialogScreen {
    var currentText: string
    var currentDialog: seq<string>
    var dialogIndex: int
    var anim: seq<string>
    var resultingText: string
    var animIndex: int
    var beginCycle: bool
    var endCycle: bool
    var prevEvent: EventState
    var nextEvent: EventState
    /** Whether the box is shown and takes clicks. */
    var shown: bool
    const gameScreen: GameScreen
    const player: Entity

    /**
     * The text shown is the pieces revealed so far, taken from the current line (no line at
     * all after a reset), or, once a click has completed the reveal, the whole line while
     * `animIndex` stays where the reveal was cut short.
     */
    ghost predicate Valid()
      reads this
    {
      0 <= dialogIndex && 0 <= animIndex <= |anim|
      && (anim == Pieces(currentText) || (anim == [] && currentText == ""))
      && (resultingText == Concat(anim[..animIndex]) || (endCycle && !beginCycle && resultingText == currentText))
      && (!beginCycle && !endCycle ==> animIndex == 0 && anim == [] && currentText == "")
    }

    /** The box is not in use: no line revealing or waiting for a click. */
    predicate Idle()
      reads this
    {
      !beginCycle && !endCycle
    }

    /** A click now would end the dialog: the last line is fully out. */
    static predicate LastLineDone(dialogIndex: int, dialog: seq<string>, endCycle: bool)
    {
      dialogIndex + 1 == |dialog| && endCycle
    }

    constructor (gameScreen: GameScreen, player: Entity)
      ensures Valid() && this.gameScreen == gameScreen && this.player == player
      ensures currentDialog == [] && dialogIndex == 0 && !beginCycle && !endCycle && !shown
      ensures prevEvent == NONE && nextEvent == NONE
    {
      currentText, currentDialog, dialogIndex := "", [], 0;
      anim, resultingText, animIndex := [], "", 0;
      beginCycle, endCycle := false, false;
      prevEvent, nextEvent := NONE, NONE;
      shown := false;
      this.gameScreen := gameScreen;
      this.player := player;
      new;
      assert anim[..0] == [];
    }

    /** The text shown is a prefix of the current line. */
    lemma ShownIsPrefix()
      requires Valid()
      ensures resultingText <= currentText
      ensures animIndex == |anim| ==> resultingText == currentText
    {
      if resultingText == Concat(anim[..animIndex]) {
        if anim == [] {
          assert anim[..animIndex] == [];
        } else {
          PiecesPrefix(currentText, animIndex);
          if animIndex == |anim| {
            assert anim[..animIndex] == anim;
            WholeLine(currentText);
          }
        }
      }
    }

    /** `reset()`: no line, nothing shown, no reveal running. */
    method Reset()
      requires Valid()
      modifies this
      ensures Valid() && currentText == "" && resultingText == "" && animIndex == 0 && anim == []
      ensures !beginCycle && !endCycle
      ensures currentDialog == old(currentDialog) && dialogIndex == old(dialogIndex)
      ensures prevEvent == old(prevEvent) && nextEvent == old(nextEvent) && shown == old(shown)
    {
      currentText := "";
      resultingText := "";
      animIndex := 0;
      anim := [];
      beginCycle := false;
      endCycle := false;
      assert anim[..0] == [];
    }

    /** `startDialog(dialog, prev, next)`, on a box not in use: the first line starts revealing. */
    method StartDialog(dialog: seq<string>, prev: EventState, next: EventState)
      requires Valid() && Idle() && |dialog| > 0
      modifies this
      ensures Valid() && shown && currentDialog == dialog && currentText == dialog[0]
      ensures anim == Pieces(dialog[0]) && animIndex == 0 && resultingText == "" && beginCycle && !endCycle
      ensures prevEvent == prev && nextEvent == next && dialogIndex == old(dialogIndex)
    {
      shown := true;
      currentDialog := dialog;
      currentText := currentDialog[0];
      anim := Pieces(currentText);
      prevEvent := prev;
      nextEvent := next;
      beginCycle := true;
      assert anim[..0] == [];
    }

    /** `endDialog()`: the box closes and forgets its lines. */
    method EndDialog()
      requires Valid()
      modifies this
      ensures Valid() && Idle() && !shown && dialogIndex == 0 && currentDialog == []
      ensures prevEvent == old(prevEvent) && nextEvent == old(nextEvent)
    {
      Reset();
      shown := false;
      dialogIndex := 0;
      currentDialog := [];
    }

    /** The reveal of `update(dt)`: one more piece each time the text-speed gate opens. */
    method Update(gateOpened: bool)
      requires Valid()
      modifies this
      ensures Valid() && currentText == old(currentText) && anim == old(anim)
      ensures beginCycle == old(beginCycle) && dialogIndex == old(dialogIndex) && currentDialog == old(currentDialog)
      ensures !old(beginCycle) ==> animIndex == old(animIndex) && endCycle == old(endCycle)
      ensures old(beginCycle) ==>
        endCycle == (old(endCycle) || old(animIndex) >= |anim|)
        && animIndex == (if gateOpened && !endCycle then old(animIndex) + 1 else old(animIndex))
    {
      if beginCycle {
        if animIndex >= |anim| {
          endCycle := true;
        }
        if gateOpened && animIndex < |anim| && !endCycle {
          assert anim[..animIndex + 1] == anim[..animIndex] + [anim[animIndex]];
          resultingText := resultingText + anim[animIndex];
          animIndex := animIndex + 1;
        }
      }
    }

    /** `handleEvent(event)`: back on the map, the player dies here if the tile emptied their hp. */
    method HandleEvent(event: EventState)
      modifies gameScreen, player
      ensures event == MOVING && old(player.hp) <= 0 ==>
        gameScreen.currentEvent == DEATH && player.State() == old(player.State()).(hp := old(player.maxHp))
      ensures event == MOVING && old(player.hp) > 0 ==>
        gameScreen.currentEvent == MOVING && player.State() == old(player.State())
      ensures event != MOVING ==>
        gameScreen.currentEvent == old(gameScreen.currentEvent) && player.State() == old(player.State())
    {
      if event == MOVING {
        if player.hp <= 0 {
          gameScreen.Die(player);
          return;
        }
        gameScreen.SetCurrentEvent(MOVING);
      }
    }

    /**
     * `performClick()`. `handled` reports that the dialog ended and `handleEvent(nextEvent)` ran:
     * the game then goes back to the map, or to the death screen with the player healed when
     * the tile emptied their hp, and an event other than MOVING leaves the game as it was.
     */
    method PerformClick() returns (handled: bool)
      requires Valid()
      modifies this, gameScreen, player
      ensures Valid() && prevEvent == old(prevEvent) && nextEvent == old(nextEvent)
      ensures LastLineDone(old(dialogIndex), old(currentDialog), old(endCycle)) ==>
        handled && Idle() && !shown && dialogIndex == 0 && currentDialog == []
      ensures LastLineDone(old(dialogIndex), old(currentDialog), old(endCycle)) && old(nextEvent) == MOVING ==>
        if old(player.hp) <= 0 then
          gameScreen.currentEvent == DEATH && player.State() == old(player.State()).(hp := old(player.maxHp))
        else
          gameScreen.currentEvent == MOVING && player.State() == old(player.State())
      ensures LastLineDone(old(dialogIndex), old(currentDialog), old(endCycle)) && old(nextEvent) != MOVING ==>
        gameScreen.currentEvent == old(gameScreen.currentEvent) && player.State() == old(player.State())
      ensures (!LastLineDone(old(dialogIndex), old(currentDialog), old(endCycle)) && old(endCycle)
               && old(dialogIndex) < |old(currentDialog)|) ==>
        !handled && dialogIndex == old(dialogIndex) + 1 && currentDialog == old(currentDialog)
        && currentText == currentDialog[dialogIndex] && anim == Pieces(currentText)
        && animIndex == 0 && resultingText == "" && beginCycle && !endCycle
      ensures !old(endCycle) && old(beginCycle) ==>
        !handled && resultingText == currentText == old(currentText) && !beginCycle && endCycle
        && dialogIndex == old(dialogIndex)
      ensures !old(endCycle) && !old(beginCycle) ==>
        !handled && dialogIndex == old(dialogIndex) && resultingText == old(resultingText) && !beginCycle && !endCycle
      ensures !handled ==> gameScreen.currentEvent == old(gameScreen.currentEvent) && player.State() == old(player.State())
    {
      handled := false;
      if dialogIndex + 1 == |currentDialog| && endCycle {
        EndDialog();
        HandleEvent(nextEvent);
        handled := true;
      } else if endCycle && dialogIndex < |currentDialog| {
        NextLine();
      } else if beginCycle && !endCycle {
        RevealLine();
      }
    }

    /** The click on a finished line that is not the last: the next line starts revealing. */
    method NextLine()
      requires Valid() && endCycle && dialogIndex + 1 < |currentDialog|
      modifies this
      ensures Valid()
      ensures dialogIndex == old(dialogIndex) + 1 && currentDialog == old(currentDialog)
      ensures currentText == currentDialog[dialogIndex] && anim == Pieces(currentText)
      ensures animIndex == 0 && resultingText == "" && beginCycle && !endCycle
      ensures prevEvent == old(prevEvent) && nextEvent == old(nextEvent) && shown == old(shown)
    {
      dialogIndex := dialogIndex + 1;
      Reset();
      currentText := currentDialog[dialogIndex];
      anim := Pieces(currentText);
      beginCycle := true;
      assert anim[..0] == [];
    }

    /**
     * The click during the reveal: the whole line shows at once. `animIndex` is left where the
     * reveal stopped; with `beginCycle` off no further piece is revealed from it.
     */
    method RevealLine()
      requires Valid() && beginCycle && !endCycle
      modifies this
      ensures Valid()
      ensures resultingText == currentText == old(currentText) && !beginCycle && endCycle
      ensures animIndex == old(animIndex) && anim == old(anim)
      ensures dialogIndex == old(dialogIndex) && currentDialog == old(currentDialog)
      ensures prevEvent == old(prevEvent) && nextEvent == old(nextEvent) && shown == old(shown)
    {
      resultingText := currentText;
      beginCycle := false;
      endCycle := true;
    }
  }
}
