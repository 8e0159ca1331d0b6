/** The abstract base class Vestige.Engine.Dialogue.DialoguePart, as its uses show it: three directions fixed at
    construction (bubble, left character, right character) and a Draw that each variant overrides. The two
    variants are a tagged union here; a multiple-choice part is an object, so every holder of the union
    value shares the same mutable selection. */
module DialogueParts {
  import opened Graphics
  import opened DialogueDirections
  import opened TextParts
  import opened InputParts

  datatype DialoguePart = Text(text: TextDialoguePart) | Input(input: InputDialoguePart)
  {
    function BubbleDirection(): DialogueDirection
    {
      match this
      case Text(t) => t.bubbleDirection
      case Input(p) => p.bubbleDirection
    }

    function LeftCharacterDirection(): DialogueDirection
    {
      match this
      case Text(t) => t.leftCharacterDirection
      case Input(p) => p.leftCharacterDirection
    }

    function RightCharacterDirection(): DialogueDirection
    {
      match this
      case Text(t) => t.rightCharacterDirection
      case Input(p) => p.rightCharacterDirection
    }

    /** The mutable object behind this part, if any. */
    function Objects(): set<object>
    {
      if Input? then {input} else {}
    }
  }

  /** A part as it stands at one moment: its immutable data and, for a choice, the current selection. */
  datatype PartView =
    | TextView(part: TextDialoguePart)
    | ChoiceView(bubble: DialogueDirection, leftChar: DialogueDirection, rightChar: DialogueDirection,
                 options: seq<string>, selected: int)
  {
    function Bubble(): DialogueDirection
    {
      if TextView? then part.bubbleDirection else bubble
    }

    function LeftCharacter(): DialogueDirection
    {
      if TextView? then part.leftCharacterDirection else leftChar
    }

    function RightCharacter(): DialogueDirection
    {
      if TextView? then part.rightCharacterDirection else rightChar
    }
  }

  ghost function View(p: DialoguePart): PartView
    reads p.Objects()
  {
    match p
    case Text(t) => TextView(t)
    case Input(c) => ChoiceView(c.bubbleDirection, c.leftCharacterDirection, c.rightCharacterDirection, c.options, c.selectedOption)
  }

  /** A part's view shows the directions the part was built with. */
  lemma ViewDirections(p: DialoguePart)
    ensures View(p).Bubble() == p.BubbleDirection()
    ensures View(p).LeftCharacter() == p.LeftCharacterDirection()
    ensures View(p).RightCharacter() == p.RightCharacterDirection()
  {
  }

  /** The mutable objects behind a sequence of parts. */
  function InputObjects(ps: seq<DialoguePart>): (objs: set<object>)
    ensures forall i :: 0 <= i < |ps| ==> ps[i].Objects() <= objs
    ensures forall o :: o in objs ==> o is InputDialoguePart
  {
    if ps == [] then {} else InputObjects(ps[..|ps| - 1]) + ps[|ps| - 1].Objects()
  }

  ghost function Views(ps: seq<DialoguePart>): (vs: seq<PartView>)
    reads InputObjects(ps)
    ensures |vs| == |ps|
  {
    if ps == [] then [] else Views(ps[..|ps| - 1]) + [View(ps[|ps| - 1])]
  }

  /** Views are taken element by element. */
  lemma {:induction false} ViewsAt(ps: seq<DialoguePart>, i: int)
    requires 0 <= i < |ps|
    ensures Views(ps)[i] == View(ps[i])
  {
    if i < |ps| - 1 {
      ViewsAt(ps[..|ps| - 1], i);
    }
  }

  /** Appending a part appends its view; the parts already held keep theirs. */
  lemma ViewsAppend(ps: seq<DialoguePart>, p: DialoguePart)
    ensures InputObjects(ps + [p]) == InputObjects(ps) + p.Objects()
    ensures Views(ps + [p]) == Views(ps) + [View(p)]
  {
    assert (ps + [p])[..|ps|] == ps;
  }

  /** The views of parts whose objects nothing has touched are the views they had before. */
  twostate lemma {:induction false} ViewsUnchanged(ps: seq<DialoguePart>)
    requires forall o :: o in InputObjects(ps) ==> old(allocated(o)) && unchanged(o)
    ensures Views(ps) == old(Views(ps))
  {
    if ps != [] {
      assert InputObjects(ps) == InputObjects(ps[..|ps| - 1]) + ps[|ps| - 1].Objects();
      ViewsUnchanged(ps[..|ps| - 1]);
    }
  }

  /** What the part's Draw override puts inside the bubble: the message line of a text part, or the
      option block of a choice part. */
  function Content(v: PartView, font: Font, drawCenter: Vec): seq<DrawCommand>
  {
    match v
    case TextView(t) => t.Draw(font, drawCenter)
    case ChoiceView(_, _, _, options, selected) => OptionLines(options, selected, font, drawCenter)
  }

  /** The virtual call `part.Draw(spriteBatch, font, drawCenter)`. */
  method DrawPart(p: DialoguePart, font: Font, drawCenter: Vec) returns (cmds: seq<DrawCommand>)
    ensures cmds == Content(View(p), font, drawCenter)
  {
    match p
    case Text(t) =>
      cmds := t.Draw(font, drawCenter);
    case Input(c) =>
      cmds := c.Draw(font, drawCenter);
  }
}
