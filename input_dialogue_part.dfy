/** Vestige.Engine.Dialogue.InputDialoguePart: a multiple-choice part whose selected option is changed in place. */
module InputParts {
  import opened Numerics
  import opened Graphics
  import opened DialogueDirections

  /** SelectPreviousOption: one up, or from 0 (and from -1) round to the last option. */
  function PreviousOption(selected: int, count: int): int
  {
    if selected > 0 then selected - 1 else count - 1
  }

  /** SelectNextOption: one down, modulo the option count (C# remainder). */
  function NextOption(selected: int, count: int): int
    requires count != 0
  {
    TruncRem(selected + 1, count)
  }

  /** The selected option of a list of `count` options after `k` presses of "next". */
  function NextRepeated(selected: int, count: int, k: nat): int
    requires count != 0
  {
    if k == 0 then selected else NextOption(NextRepeated(selected, count, k - 1), count)
  }

  /** One "next" on a valid selection: down one place, or from the last option back to the first. */
  lemma NextStep(selected: int, count: int)
    requires 0 <= selected < count
    ensures NextOption(selected, count) == if selected == count - 1 then 0 else selected + 1
  {
    assert NextOption(selected, count) == (selected + 1) % count;
    if selected < count - 1 {
      assert (selected + 1) % count == selected + 1;
    } else {
      assert (selected + 1) % count == count % count == 0;
    }
  }

  /** Both moves keep a selection inside a non-empty option list. */
  lemma SelectionStaysInRange(selected: int, count: int)
    requires 0 <= selected < count
    ensures 0 <= PreviousOption(selected, count) < count
    ensures 0 <= NextOption(selected, count) < count
  {
    NextStep(selected, count);
  }

  /** "Previous" wraps from the first option to the last, "next" from the last to the first. */
  lemma SelectionWraps(count: int)
    requires count >= 1
    ensures PreviousOption(0, count) == count - 1
    ensures NextOption(count - 1, count) == 0
  {
    NextStep(count - 1, count);
  }

  /** "Previous" and "next" undo each other on a valid selection. */
  lemma PreviousUndoesNext(selected: int, count: int)
    requires 0 <= selected < count
    ensures PreviousOption(NextOption(selected, count), count) == selected
    ensures NextOption(PreviousOption(selected, count), count) == selected
  {
    NextStep(selected, count);
    NextStep(PreviousOption(selected, count), count);
  }

  /** Pressing "next" k times (k at most the option count) moves the selection k places round the list. */
  lemma {:induction false} NextRepeatedShifts(selected: int, count: int, k: nat)
    requires 0 <= selected < count && k <= count
    ensures NextRepeated(selected, count, k) == if selected + k < count then selected + k else selected + k - count
  {
    if k > 0 {
      NextRepeatedShifts(selected, count, k - 1);
      NextStep(NextRepeated(selected, count, k - 1), count);
    }
  }

  /** Pressing "next" once per option returns to the original selection. */
  lemma NextCycles(selected: int, count: int)
    requires 0 <= selected < count
    ensures NextRepeated(selected, count, count) == selected
  {
    NextRepeatedShifts(selected, count, count);
  }

  /** With no options, "previous" selects -1 (and "next" would divide by zero). */
  lemma PreviousOnEmptyList(selected: int)
    requires selected == 0 || selected == -1
    ensures PreviousOption(selected, 0) == -1
  {
  }

  /** The line height: the integer height of the reference string "dp". */
  function FontHeight(font: Font): int
  {
    Truncate(font.measure("dp").y)
  }

  /** Where line `index` of a block of `count` lines is drawn: the block's top line is raised by
      (height * count) / 2 - height / 2 (C# integer division) above the centre, and lines are `height` apart. */
  function LinePosition(drawCenter: Vec, height: int, count: int, index: int): Vec
  {
    Vec(drawCenter.x, drawCenter.y - (TruncDiv(height * count, 2) - TruncDiv(height, 2)) as real + (height * index) as real)
  }

  /** The selected line is red, every other line black. */
  function LineColour(index: int, selected: int): Colour
  {
    if index == selected then Red else Black
  }

  /** The draw calls of InputDialoguePart.Draw: one text line per option, in list order. */
  function OptionLines(options: seq<string>, selected: int, font: Font, drawCenter: Vec): (cmds: seq<DrawCommand>)
  {
    seq(|options|, i requires 0 <= i < |options| =>
      TextLine(options[i], LinePosition(drawCenter, FontHeight(font), |options|, i), LineColour(i, selected)))
  }

  /** Exactly the selected line is red, and each line shows its own option. */
  lemma OnlySelectedLineIsRed(options: seq<string>, selected: int, font: Font, drawCenter: Vec)
    ensures |OptionLines(options, selected, font, drawCenter)| == |options|
    ensures forall i :: 0 <= i < |options| ==>
      OptionLines(options, selected, font, drawCenter)[i].text == options[i] &&
      (OptionLines(options, selected, font, drawCenter)[i].tint == Red <==> i == selected)
  {
  }

  /** The lines share the centre's x coordinate and follow each other one line height apart. */
  lemma LinesEvenlySpaced(options: seq<string>, selected: int, font: Font, drawCenter: Vec, i: int)
    requires 0 <= i < |options| - 1
    ensures OptionLines(options, selected, font, drawCenter)[i].anchor.x == drawCenter.x
    ensures OptionLines(options, selected, font, drawCenter)[i + 1].anchor.y
         == OptionLines(options, selected, font, drawCenter)[i].anchor.y + FontHeight(font) as real
  {
  }

  /** With a non-negative even line height the block is centred: line i and line count-1-i lie
      symmetrically about the centre. */
  lemma BlockCentred(options: seq<string>, selected: int, font: Font, drawCenter: Vec, i: int)
    requires FontHeight(font) >= 0 && FontHeight(font) % 2 == 0
    requires 0 <= i < |options|
    ensures var lines := OptionLines(options, selected, font, drawCenter);
      (lines[i].anchor.y - drawCenter.y) + (lines[|options| - 1 - i].anchor.y - drawCenter.y) == 0.0
  {
    var h, n := FontHeight(font), |options|;
    var m := h / 2;
    assert h == 2 * m;
    assert h * n == 2 * (m * n) by { assert h * n == (2 * m) * n; }
    assert TruncDiv(h * n, 2) == m * n;
    assert TruncDiv(h, 2) == m;
    var j := n - 1 - i;
    assert h * i + h * j == 2 * (m * n) - 2 * m by {
      assert h * i + h * j == h * (i + j);
      assert i + j == n - 1;
      assert h * (n - 1) == h * n - h;
    }
  }

  class InputDialoguePart {
    const bubbleDirection: DialogueDirection
    const leftCharacterDirection: DialogueDirection
    const rightCharacterDirection: DialogueDirection
    /** The option texts; the reference is read-only and nothing mutates the list. */
    const options: seq<string>
    var selectedOption: int

    /** The selection points at an option, or, for an empty list, is 0 or the -1 that "previous" leaves. */
    ghost predicate Valid()
      reads this
    {
      if |options| == 0 then selectedOption == 0 || selectedOption == -1
      else 0 <= selectedOption < |options|
    }

    /** The directions go to the base class as (bubble, left character, right character); the list is kept
        as given and the first option is selected. */
    constructor (bubble: DialogueDirection, leftChar: DialogueDirection, rightChar: DialogueDirection, choices: seq<string>)
      ensures bubbleDirection == bubble && leftCharacterDirection == leftChar && rightCharacterDirection == rightChar
      ensures options == choices && selectedOption == 0
      ensures Valid()
    {
      bubbleDirection := bubble;
      leftCharacterDirection := leftChar;
      rightCharacterDirection := rightChar;
      options := choices;
      selectedOption := 0;
    }

    /** Draw: one line per option, in order, the selected one in red. */
    method Draw(font: Font, drawCenter: Vec) returns (cmds: seq<DrawCommand>)
      ensures cmds == OptionLines(options, selectedOption, font, drawCenter)
    {
      var fontHeight := FontHeight(font);
      cmds := [];
      var index := 0;
      while index < |options|
        invariant 0 <= index <= |options|
        invariant |cmds| == index
        invariant forall k :: 0 <= k < index ==>
          cmds[k] == TextLine(options[k], LinePosition(drawCenter, fontHeight, |options|, k), LineColour(k, selectedOption))
      {
        var textColour := if index == selectedOption then Red else Black;
        cmds := cmds + [TextLine(options[index], LinePosition(drawCenter, fontHeight, |options|, index), textColour)];
        index := index + 1;
      }
      assert forall k :: 0 <= k < |options| ==> cmds[k] == OptionLines(options, selectedOption, font, drawCenter)[k];
    }

    method SelectPreviousOption()
      modifies this
      ensures selectedOption == PreviousOption(old(selectedOption), |options|)
      ensures old(Valid()) ==> Valid()
    {
      selectedOption := if selectedOption > 0 then selectedOption - 1 else |options| - 1;
    }

    /** With no options the C# remainder throws DivideByZeroException: reported as `divideByZero`,
        with the selection untouched. */
    method SelectNextOption() returns (divideByZero: bool)
      modifies this
      ensures divideByZero <==> |options| == 0
      ensures selectedOption == if divideByZero then old(selectedOption) else NextOption(old(selectedOption), |options|)
      ensures old(Valid()) ==> Valid()
    {
      if |options| == 0 {
        return true;
      }
      selectedOption := TruncRem(selectedOption + 1, |options|);
      divideByZero := false;
    }
  }
}
