/** Vestige.Engine.Dialogue.DialogueSystem: the modal conversation overlay. It loads its parts from an XML
    script when shown, slides in, steps through the parts on "advance", slides out after the last one, and
    lets the up/down keys move the selection of a multiple-choice part. */
module Dialogue {
  import opened Wrappers
  import opened Numerics
  import opened Graphics
  import opened Xml
  import opened DialogueDirections
  import opened TextParts
  import opened InputParts
  import opened DialogueParts

  const VisualAreaHeight: int := 240
  const MoveAnimationSeconds: real := 0.5
  const EntryScalingFactor: real := 1.5
  const BubbleVerticalOffset: int := -80

  // ---------------------------------------------------------------------------------------------
  // Loading the script

  /** ParseDirectionFromElement: a missing element, or a value that is not exactly a member name, is None. */
  function ParseDirectionFromElement(element: Option<Element>): (d: DialogueDirection)
    ensures d == Left <==> element.Some? && element.value.value == "Left"
    ensures d == Right <==> element.Some? && element.value.value == "Right"
  {
    match element
    case None => DialogueDirection.None
    case Some(e) =>
      match TryParse(e.value)
      case Some(parsed) => parsed
      case None => DialogueDirection.None
  }

  /** The part's `Type` attribute, "Message" when it has none. */
  function PartType(partElement: Element): string
  {
    match Attribute(partElement, "Type")
    case Some(t) => t
    case None => "Message"
  }

  /** ParseTextDialogPart: nothing without a `Message` child; otherwise its text, with the directions read
      from the `Bubble`, `CharacterLeft` and `CharacterRight` children. */
  function ParseTextDialogPart(partElement: Element): (r: Option<TextDialoguePart>)
    ensures r.None? <==> Child(partElement, "Message").None?
    ensures r.Some? ==>
      && r.value.rawText == Child(partElement, "Message").value.value
      && r.value.bubbleDirection == ParseDirectionFromElement(Child(partElement, "Bubble"))
      && r.value.leftCharacterDirection == ParseDirectionFromElement(Child(partElement, "CharacterLeft"))
      && r.value.rightCharacterDirection == ParseDirectionFromElement(Child(partElement, "CharacterRight"))
  {
    match Child(partElement, "Message")
    case None => Option.None
    case Some(message) =>
      Some(TextDialoguePart(
        ParseDirectionFromElement(Child(partElement, "Bubble")),
        ParseDirectionFromElement(Child(partElement, "CharacterLeft")),
        ParseDirectionFromElement(Child(partElement, "CharacterRight")),
        message.value))
  }

  /** The texts of the `Option` elements, one per element, in document order. */
  function OptionTexts(optionElements: seq<Element>): (texts: seq<string>)
    ensures |texts| == |optionElements|
    ensures forall k :: 0 <= k < |optionElements| ==> texts[k] == optionElements[k].value
  {
    if optionElements == [] then []
    else OptionTexts(optionElements[..|optionElements| - 1]) + [optionElements[|optionElements| - 1].value]
  }

  /** The choice part built from an `Options` element: constructor arguments (Left, Right, None, texts). */
  function ChoiceFrom(optionsContainer: Element): PartView
  {
    ChoiceView(Left, Right, DialogueDirection.None, OptionTexts(Children(optionsContainer, "Option")), 0)
  }

  /** The part one `Part` element yields, or nothing when it is dropped. */
  function ParsePart(partElement: Element): Option<PartView>
  {
    if PartType(partElement) == "Choice" then
      match Child(partElement, "Options")
      case None => Option.None
      case Some(o) => Some(ChoiceFrom(o))
    else
      match ParseTextDialogPart(partElement)
      case None => Option.None
      case Some(t) => Some(TextView(t))
  }

  /** The parts a sequence of `Part` elements yields, in document order. */
  function ParseParts(partElements: seq<Element>): seq<PartView>
  {
    FilterMap(ParsePart, partElements)
  }

  /** LoadDialogue's result for a loaded document: the parts of the root's `Part` children. */
  function LoadedParts(root: Element): seq<PartView>
  {
    ParseParts(Children(root, "Part"))
  }

  /** A part is dropped exactly when the child its type needs is missing: `Options` for "Choice",
      `Message` for every other type, a missing `Type` counting as "Message". */
  lemma DroppedParts(partElement: Element)
    ensures ParsePart(partElement).None? <==>
      if Attribute(partElement, "Type") == Some("Choice") then Child(partElement, "Options").None?
      else Child(partElement, "Message").None?
    ensures Attribute(partElement, "Type").None? && ParsePart(partElement).Some? ==> ParsePart(partElement).value.TextView?
  {
  }

  /** A choice part gets bubble Left, left character Right, right character None (the constructor's
      parameter order), its options in document order, and the first option selected. */
  lemma ChoicePartShape(partElement: Element)
    requires ParsePart(partElement).Some? && ParsePart(partElement).value.ChoiceView?
    ensures var v := ParsePart(partElement).value;
      && v.bubble == Left && v.leftChar == Right && v.rightChar == DialogueDirection.None && v.selected == 0
      && var options := Children(Child(partElement, "Options").value, "Option");
         |v.options| == |options| && forall k :: 0 <= k < |options| ==> v.options[k] == options[k].value
  {
  }

  /** A part of any type but "Choice" is a text part whose message is the first `Message` child's text, and
      whose bubble, left character and right character come from the first `Bubble`, `CharacterLeft` and
      `CharacterRight` children respectively, each None when missing or not exactly a direction's name. */
  lemma TextPartShape(partElement: Element)
    requires PartType(partElement) != "Choice" && Child(partElement, "Message").Some?
    ensures var v := ParsePart(partElement);
      && v.Some? && v.value.TextView?
      && v.value.part.rawText == Child(partElement, "Message").value.value
      && (v.value.part.bubbleDirection == Left <==>
            Child(partElement, "Bubble").Some? && Child(partElement, "Bubble").value.value == "Left")
      && (v.value.part.bubbleDirection == Right <==>
            Child(partElement, "Bubble").Some? && Child(partElement, "Bubble").value.value == "Right")
      && (v.value.part.leftCharacterDirection == Left <==>
            Child(partElement, "CharacterLeft").Some? && Child(partElement, "CharacterLeft").value.value == "Left")
      && (v.value.part.leftCharacterDirection == Right <==>
            Child(partElement, "CharacterLeft").Some? && Child(partElement, "CharacterLeft").value.value == "Right")
      && (v.value.part.rightCharacterDirection == Left <==>
            Child(partElement, "CharacterRight").Some? && Child(partElement, "CharacterRight").value.value == "Left")
      && (v.value.part.rightCharacterDirection == Right <==>
            Child(partElement, "CharacterRight").Some? && Child(partElement, "CharacterRight").value.value == "Right")
  {
  }

  /** Loading keeps document order: the parts of two runs of elements are the parts of each, concatenated. */
  lemma ParsePartsAppend(xs: seq<Element>, ys: seq<Element>)
    ensures ParseParts(xs + ys) == ParseParts(xs) + ParseParts(ys)
  {
    FilterMapAppend(ParsePart, xs, ys);
  }

  /** Nothing is invented: loading yields at most one part per element, and exactly one per element
      iff no element is dropped. */
  lemma ParsePartsCount(partElements: seq<Element>)
    ensures |ParseParts(partElements)| <= |partElements|
    ensures |ParseParts(partElements)| == |partElements| <==>
      forall k :: 0 <= k < |partElements| ==> ParsePart(partElements[k]).Some?
  {
    FilterMapCount(ParsePart, partElements);
  }

  /** ParseInputDialogPart: nothing without an `Options` child; otherwise a fresh choice part over the
      collected option texts. */
  method ParseInputDialogPart(partElement: Element) returns (part: Option<InputDialoguePart>)
    ensures part.None? <==> Child(partElement, "Options").None?
    ensures part.Some? ==> fresh(part.value) && View(Input(part.value)) == ChoiceFrom(Child(partElement, "Options").value)
  {
    var optionsContainerElement := Child(partElement, "Options");
    if optionsContainerElement.None? {
      return Option.None;
    }
    var choices: seq<string> := [];
    var optionElements := Children(optionsContainerElement.value, "Option");
    var i := 0;
    while i < |optionElements|
      invariant 0 <= i <= |optionElements|
      invariant choices == OptionTexts(optionElements[..i])
    {
      assert optionElements[..i + 1][..i] == optionElements[..i];
      choices := choices + [optionElements[i].value];
      i := i + 1;
    }
    assert optionElements[..i] == optionElements;
    var input := new InputDialoguePart(Left, Right, DialogueDirection.None, choices);
    part := Some(input);
  }

  // ---------------------------------------------------------------------------------------------
  // The visibility and animation state, as a value

  /** The scalar fields of a DialogueSystem: isShown, isAnimating, isUp, currentMessageIndex,
      animationOffset, drawOffset and blackoutScale. */
  datatype Stage = Stage(shown: bool, animating: bool, up: bool, index: int,
                         progress: real, drawOffset: real, blackout: real)

  /** Update's interpolation endpoints: `from` is 1 while not up (sliding in), `to` is 1 while up (sliding out). */
  function From(up: bool): real { if up then 0.0 else 1.0 }
  function To(up: bool): real { if up then 1.0 else 0.0 }

  /** The states the system can reach, for a script of `count` parts. */
  ghost predicate StageOk(s: Stage, count: int)
  {
    && (s.shown ==> 0 <= s.index < count)
    && (!s.shown ==> !s.up && !s.animating)
    && (s.shown && !s.animating ==> s.up && s.progress == 0.0 && s.drawOffset == 0.0 && s.blackout == 1.0)
    && (s.animating ==>
          (s.drawOffset == Lerp(From(s.up) * VisualAreaHeight as real, To(s.up) * VisualAreaHeight as real, s.progress)
           && s.blackout == Lerp(To(s.up), From(s.up), s.progress)))
  }

  /** ShowText's resets once a non-empty script is loaded. */
  function ShowStage(s: Stage): Stage
  {
    s.(index := 0, shown := true, animating := true, progress := 0.0, drawOffset := VisualAreaHeight as real, blackout := 0.0)
  }

  /** AdvanceText on a script of `count` parts. */
  function AdvanceStage(s: Stage, count: int): (t: Stage)
    ensures !s.shown || s.animating ==> t == s
  {
    if !s.shown || s.animating then s
    else if s.index < count - 1 then s.(index := s.index + 1)
    else s.(animating := true)
  }

  /** Update with `dt` seconds elapsed. */
  function UpdateStage(s: Stage, dt: real): Stage
  {
    if !s.shown then s
    else if s.animating && s.progress < 1.0 then
      var p := s.progress + dt / MoveAnimationSeconds;
      var from := From(s.up);
      var to := To(s.up);
      s.(progress := p,
         drawOffset := Lerp(from * VisualAreaHeight as real, to * VisualAreaHeight as real, p),
         blackout := Lerp(to, from, p))
    else
      var up := if s.animating then s.drawOffset <= 0.0 else s.up;
      s.(up := up, shown := s.shown && !(s.animating && !up),
         animating := false, progress := 0.0, drawOffset := 0.0, blackout := 1.0)
  }

  /** The Update that finishes a slide-out, and so clears `messages`. */
  predicate ClearsMessages(s: Stage)
  {
    s.shown && s.animating && s.progress >= 1.0 && !(s.drawOffset <= 0.0)
  }

  /** Where a finished slide comes to rest: open and up after sliding in, closed after sliding out. */
  function Settled(s: Stage): Stage
  {
    if !s.up then s.(up := true, animating := false, progress := 0.0, drawOffset := 0.0, blackout := 1.0)
    else Stage(false, false, false, s.index, 0.0, 0.0, 1.0)
  }

  /** A closed system does not depend on its script. */
  lemma ClosedStageOk(s: Stage, count: int, count': int)
    requires StageOk(s, count) && !s.shown
    ensures StageOk(s, count')
  {
  }

  lemma ShowStageOk(s: Stage, count: int)
    requires StageOk(s, 0) && !s.shown && count > 0
    ensures StageOk(ShowStage(s), count)
  {
  }

  /** Advancing keeps the index inside the script. */
  lemma AdvanceStageOk(s: Stage, count: int)
    requires StageOk(s, count)
    ensures StageOk(AdvanceStage(s, count), count)
  {
  }

  /** One animation frame: progress grows by dt / 0.5; sliding in, the panel offset falls from 240 to 0 and
      the shade rises from 0 to 1; sliding out, the mirror image. */
  lemma AnimationFrame(s: Stage, dt: real)
    requires s.shown && s.animating && s.progress < 1.0
    ensures var t := UpdateStage(s, dt);
      && t.progress == s.progress + 2.0 * dt
      && t.shown && t.animating && t.up == s.up && t.index == s.index
      && (!s.up ==> t.drawOffset == 240.0 - 240.0 * t.progress && t.blackout == t.progress)
      && (s.up ==> t.drawOffset == 240.0 * t.progress && t.blackout == 1.0 - t.progress)
  {
  }

  /** The first Update after the slide completes: a slide-in settles open and up, a slide-out closes the
      conversation and clears the script. */
  lemma SettleStep(s: Stage, count: int, dt: real)
    requires StageOk(s, count) && s.shown && s.animating && s.progress >= 1.0
    ensures UpdateStage(s, dt) == Settled(s)
    ensures ClearsMessages(s) <==> s.up
  {
    if s.up {
      assert s.drawOffset == 240.0 * s.progress;
    } else {
      assert s.drawOffset == 240.0 - 240.0 * s.progress;
    }
  }

  /** Update preserves the reachable states, and clearing the script goes with closing. */
  lemma UpdateStageOk(s: Stage, count: int, dt: real)
    requires StageOk(s, count)
    ensures StageOk(UpdateStage(s, dt), count)
    ensures ClearsMessages(s) ==> !UpdateStage(s, dt).shown
  {
    if s.shown && s.animating && s.progress >= 1.0 {
      SettleStep(s, count, dt);
    }
  }

  /** Without an animation in progress Update changes nothing. */
  lemma SettledIsStill(s: Stage, count: int, dt: real)
    requires StageOk(s, count) && !s.animating
    ensures UpdateStage(s, dt) == s
  {
  }

  /** Successive Updates, one per frame time. */
  function UpdateAll(s: Stage, dts: seq<real>): Stage
    decreases |dts|
  {
    if dts == [] then s else UpdateAll(UpdateStage(s, dts[0]), dts[1..])
  }

  /** `k` successive AdvanceText calls. */
  function AdvanceAll(s: Stage, count: int, k: nat): Stage
  {
    if k == 0 then s else AdvanceStage(AdvanceAll(s, count, k - 1), count)
  }

  lemma {:induction false} StillAll(s: Stage, count: int, dts: seq<real>)
    requires StageOk(s, count) && !s.animating
    ensures UpdateAll(s, dts) == s
    decreases |dts|
  {
    if dts != [] {
      SettledIsStill(s, count, dts[0]);
      StillAll(s, count, dts[1..]);
    }
  }

  /** A slide in progress completes: once the frame times add up to the rest of the 0.5 s, one more
      Update settles it, and later Updates leave it settled. */
  lemma {:induction false} AnimationCompletes(s: Stage, count: int, dts: seq<real>, last: real)
    requires StageOk(s, count) && s.shown && s.animating
    requires forall i :: 0 <= i < |dts| ==> dts[i] >= 0.0
    requires s.progress + 2.0 * Sum(dts) >= 1.0
    ensures UpdateAll(s, dts + [last]) == Settled(s)
    decreases |dts|
  {
    var all := dts + [last];
    if s.progress >= 1.0 {
      SettleStep(s, count, all[0]);
      UpdateStageOk(s, count, all[0]);
      StillAll(Settled(s), count, all[1..]);
    } else {
      assert dts != [];
      var t := UpdateStage(s, dts[0]);
      UpdateStageOk(s, count, dts[0]);
      assert all[1..] == dts[1..] + [last];
      AnimationCompletes(t, count, dts[1..], last);
    }
  }

  /** From a settled open conversation, advancing moves one part at a time up to the last. */
  lemma {:induction false} AdvanceReachesLast(s: Stage, count: int, k: nat)
    requires StageOk(s, count) && s.shown && !s.animating && s.index + k <= count - 1
    ensures AdvanceAll(s, count, k) == s.(index := s.index + k)
  {
    if k > 0 {
      AdvanceReachesLast(s, count, k - 1);
    }
  }

  /** A whole conversation over a script of `count` parts: opening and letting the slide-in finish gives
      the settled first part; `count` advances reach the last part and start the slide-out; letting it
      finish closes the system. */
  lemma Conversation(s: Stage, count: int, opening: seq<real>, d1: real, closing: seq<real>, d2: real)
    requires StageOk(s, 0) && !s.shown && count > 0
    requires forall i :: 0 <= i < |opening| ==> opening[i] >= 0.0
    requires forall i :: 0 <= i < |closing| ==> closing[i] >= 0.0
    requires Sum(opening) >= MoveAnimationSeconds && Sum(closing) >= MoveAnimationSeconds
    ensures UpdateAll(ShowStage(s), opening + [d1]) == Stage(true, false, true, 0, 0.0, 0.0, 1.0)
    ensures AdvanceAll(Stage(true, false, true, 0, 0.0, 0.0, 1.0), count, count) == Stage(true, true, true, count - 1, 0.0, 0.0, 1.0)
    ensures UpdateAll(Stage(true, true, true, count - 1, 0.0, 0.0, 1.0), closing + [d2]) == Stage(false, false, false, count - 1, 0.0, 0.0, 1.0)
  {
    ShowStageOk(s, count);
    AnimationCompletes(ShowStage(s), count, opening, d1);
    var open := Stage(true, false, true, 0, 0.0, 0.0, 1.0);
    AdvanceReachesLast(open, count, count - 1);
    var closingStart := Stage(true, true, true, count - 1, 0.0, 0.0, 1.0);
    AnimationCompletes(closingStart, count, closing, d2);
  }

  // ---------------------------------------------------------------------------------------------
  // What Draw emits

  /** The panel's top edge: 240 above the viewport bottom, pushed down by the slide offset. */
  function PanelTop(viewport: Rect, drawOffset: real): real
  {
    (viewport.Bottom() - VisualAreaHeight) as real + drawOffset
  }

  function DrawableArea(viewport: Rect, yPosition: real): Rect
  {
    Rect(0, Truncate(yPosition), viewport.width, VisualAreaHeight)
  }

  /** Characters slide 1.5 times as far as the panel. */
  function CharacterTop(yPosition: real, drawOffset: real): real
  {
    yPosition + drawOffset * EntryScalingFactor
  }

  /** DrawCharacter: nothing for None, otherwise the character sprite, mirrored unless it faces Left. */
  function CharacterCommands(character: Texture, x: int, y: real, direction: DialogueDirection): (cmds: seq<DrawCommand>)
    ensures |cmds| == if direction == DialogueDirection.None then 0 else 1
    ensures cmds != [] ==> cmds[0].Sprite? && cmds[0].texture == character && (cmds[0].flipped <==> direction != Left)
  {
    if direction == DialogueDirection.None then []
    else [Sprite(character, Vec(x as real, y), Option.None, White, direction != Left)]
  }

  function BubbleCentre(drawableArea: Rect, yPosition: real, drawOffset: real): Vec
  {
    Vec(drawableArea.CenterX() as real,
        yPosition + BubbleVerticalOffset as real + (VisualAreaHeight / 2) as real + drawOffset * EntryScalingFactor)
  }

  /** DrawSpeechBubble: nothing when the bubble direction is None; otherwise the bubble centred on
      `centre`, mirrored unless it points Left, followed by the part's own content. */
  function BubbleCommands(bubble: Texture, centre: Vec, direction: DialogueDirection, content: seq<DrawCommand>): (cmds: seq<DrawCommand>)
    ensures direction == DialogueDirection.None ==> cmds == []
    ensures direction != DialogueDirection.None ==>
      |cmds| == 1 + |content| && cmds[1..] == content &&
      cmds[0].Sprite? && cmds[0].texture == bubble && (cmds[0].flipped <==> direction != Left)
  {
    if direction == DialogueDirection.None then []
    else [Sprite(bubble, Vec(centre.x - bubble.width as real / 2.0, centre.y - bubble.height as real / 2.0),
                 Option.None, White, direction != Left)] + content
  }

  /** The indicator text: "Next" before the last part, "End" on it. */
  function IndicatorText(index: int, count: int): (text: string)
    ensures text == "Next" <==> index < count - 1
    ensures text == "End" <==> index >= count - 1
  {
    if index < count - 1 then "Next" else "End"
  }

  /** DrawIndicator: a white box at the bottom centre of the viewport and the indicator text in black on it. */
  function IndicatorCommands(assets: OverlayAssets, index: int, count: int): seq<DrawCommand>
  {
    var advanceMessage := IndicatorText(index, count);
    var size := assets.font.measure(advanceMessage);
    var origin := Vec(TruncDiv(assets.viewport.width, 2) as real, assets.viewport.height as real);
    [Fill(assets.blankTexture,
          Rect(Truncate(origin.x - size.x / 2.0), Truncate(origin.y - size.y), Truncate(size.x), Truncate(size.y)), White),
     DrawCommand.Text(advanceMessage, Vec(origin.x - size.x / 2.0, origin.y - size.y), Black)]
  }

  /** Everything an open system draws for the part `part` at position `index` of `count`. */
  function Frame(assets: OverlayAssets, drawOffset: real, blackout: real, part: PartView, index: int, count: int): seq<DrawCommand>
  {
    var viewport := assets.viewport;
    var yPosition := PanelTop(viewport, drawOffset);
    var drawableArea := DrawableArea(viewport, yPosition);
    var characterTop := CharacterTop(yPosition, drawOffset);
    var centre := BubbleCentre(drawableArea, yPosition, drawOffset);
    [Fill(assets.blankTexture, viewport, Shade(blackout)), Fill(assets.blankTexture, drawableArea, SkyBlue)]
    + CharacterCommands(assets.debugCharacter, Truncate(-drawOffset), characterTop, part.LeftCharacter())
    + CharacterCommands(assets.debugCharacter, viewport.Right() - assets.debugCharacter.width + Truncate(drawOffset),
                        characterTop, part.RightCharacter())
    + BubbleCommands(assets.speechBubble, centre, part.Bubble(), Content(part, assets.font, centre))
    + IndicatorCommands(assets, index, count)
  }

  /** Frame, assembled from its pieces in drawing order. */
  lemma FrameFromPieces(assets: OverlayAssets, drawOffset: real, blackout: real, part: PartView, index: int, count: int,
                        background: seq<DrawCommand>, leftCharacter: seq<DrawCommand>, rightCharacter: seq<DrawCommand>,
                        bubble: seq<DrawCommand>)
    requires var yPosition := PanelTop(assets.viewport, drawOffset);
      var drawableArea := DrawableArea(assets.viewport, yPosition);
      var characterTop := CharacterTop(yPosition, drawOffset);
      var centre := BubbleCentre(drawableArea, yPosition, drawOffset);
      && background == [Fill(assets.blankTexture, assets.viewport, Shade(blackout)), Fill(assets.blankTexture, drawableArea, SkyBlue)]
      && leftCharacter == CharacterCommands(assets.debugCharacter, Truncate(-drawOffset), characterTop, part.LeftCharacter())
      && rightCharacter == CharacterCommands(assets.debugCharacter, assets.viewport.Right() - assets.debugCharacter.width + Truncate(drawOffset),
                                             characterTop, part.RightCharacter())
      && bubble == BubbleCommands(assets.speechBubble, centre, part.Bubble(), Content(part, assets.font, centre))
    ensures Frame(assets, drawOffset, blackout, part, index, count)
         == background + leftCharacter + rightCharacter + bubble + IndicatorCommands(assets, index, count)
  {
  }

  function Count(direction: DialogueDirection): nat
  {
    if direction == DialogueDirection.None then 0 else 1
  }

  /** The layout of an open frame: shade and panel first, then one sprite per present character, the bubble
      and its content only when the bubble has a direction, and last the indicator, reading "Next" before the
      last part and "End" on it. */
  lemma FrameLayout(assets: OverlayAssets, drawOffset: real, blackout: real, part: PartView, index: int, count: int)
    ensures var cmds := Frame(assets, drawOffset, blackout, part, index, count);
      var chars := Count(part.LeftCharacter()) + Count(part.RightCharacter());
      var yPosition := PanelTop(assets.viewport, drawOffset);
      var centre := BubbleCentre(DrawableArea(assets.viewport, yPosition), yPosition, drawOffset);
      var bubble := if part.Bubble() == DialogueDirection.None then 0 else 1 + |Content(part, assets.font, centre)|;
      && |cmds| == 4 + chars + bubble
      && cmds[0] == Fill(assets.blankTexture, assets.viewport, Shade(blackout))
      && cmds[1] == Fill(assets.blankTexture, DrawableArea(assets.viewport, yPosition), SkyBlue)
      && cmds[|cmds| - 1].Text? && (cmds[|cmds| - 1].text == "Next" <==> index < count - 1)
  {
    var viewport := assets.viewport;
    var yPosition := PanelTop(viewport, drawOffset);
    var drawableArea := DrawableArea(viewport, yPosition);
    var characterTop := CharacterTop(yPosition, drawOffset);
    var centre := BubbleCentre(drawableArea, yPosition, drawOffset);
    var head := [Fill(assets.blankTexture, viewport, Shade(blackout)), Fill(assets.blankTexture, drawableArea, SkyBlue)];
    var left := CharacterCommands(assets.debugCharacter, Truncate(-drawOffset), characterTop, part.LeftCharacter());
    var right := CharacterCommands(assets.debugCharacter, viewport.Right() - assets.debugCharacter.width + Truncate(drawOffset),
                                   characterTop, part.RightCharacter());
    var bubble := BubbleCommands(assets.speechBubble, centre, part.Bubble(), Content(part, assets.font, centre));
    FrameFromPieces(assets, drawOffset, blackout, part, index, count, head, left, right, bubble);
  }

  /** Inside an open frame: the left character sprite faces as its direction says, and the bubble sprite,
      when drawn, follows the characters, is mirrored unless it points Left, and is followed by the part's
      own content. */
  lemma FrameBubble(assets: OverlayAssets, drawOffset: real, blackout: real, part: PartView, index: int, count: int)
    ensures var cmds := Frame(assets, drawOffset, blackout, part, index, count);
      var chars := Count(part.LeftCharacter()) + Count(part.RightCharacter());
      var yPosition := PanelTop(assets.viewport, drawOffset);
      var content := Content(part, assets.font, BubbleCentre(DrawableArea(assets.viewport, yPosition), yPosition, drawOffset));
      && (part.LeftCharacter() != DialogueDirection.None ==>
            2 < |cmds| && cmds[2].Sprite? && cmds[2].texture == assets.debugCharacter
            && (cmds[2].flipped <==> part.LeftCharacter() == Right))
      && (part.Bubble() != DialogueDirection.None ==>
            && 3 + chars + |content| <= |cmds|
            && cmds[2 + chars].Sprite? && cmds[2 + chars].texture == assets.speechBubble
            && (cmds[2 + chars].flipped <==> part.Bubble() == Right)
            && cmds[3 + chars..3 + chars + |content|] == content)
  {
    var viewport := assets.viewport;
    var yPosition := PanelTop(viewport, drawOffset);
    var drawableArea := DrawableArea(viewport, yPosition);
    var characterTop := CharacterTop(yPosition, drawOffset);
    var centre := BubbleCentre(drawableArea, yPosition, drawOffset);
    var head := [Fill(assets.blankTexture, viewport, Shade(blackout)), Fill(assets.blankTexture, drawableArea, SkyBlue)];
    var left := CharacterCommands(assets.debugCharacter, Truncate(-drawOffset), characterTop, part.LeftCharacter());
    var right := CharacterCommands(assets.debugCharacter, viewport.Right() - assets.debugCharacter.width + Truncate(drawOffset),
                                   characterTop, part.RightCharacter());
    var content := Content(part, assets.font, centre);
    var bubble := BubbleCommands(assets.speechBubble, centre, part.Bubble(), content);
    var indicator := IndicatorCommands(assets, index, count);
    FrameFromPieces(assets, drawOffset, blackout, part, index, count, head, left, right, bubble);
    var cmds := head + left + right + bubble + indicator;
    var chars := |left| + |right|;
    if part.Bubble() != DialogueDirection.None {
      assert cmds[3 + chars..3 + chars + |content|] == bubble[1..];
    }
  }

  /** The body of LoadDialogue's loop for one `Part` element: its `Type` attribute ("Message" when
      absent) picks the choice parser or the text parser. */
  method ParsePartElement(partElement: Element) returns (parsedPart: Option<DialoguePart>)
    ensures parsedPart.None? <==> ParsePart(partElement).None?
    ensures parsedPart.Some? ==> fresh(parsedPart.value.Objects()) && View(parsedPart.value) == ParsePart(partElement).value
  {
    var partType := "Message";
    var typeAttribute := Attribute(partElement, "Type");
    if typeAttribute.Some? {
      partType := typeAttribute.value;
    }
    if partType == "Choice" {
      var input := ParseInputDialogPart(partElement);
      parsedPart := if input.Some? then Some(Input(input.value)) else Option.None;
    } else {
      var text := ParseTextDialogPart(partElement);
      parsedPart := if text.Some? then Some(DialoguePart.Text(text.value)) else Option.None;
    }
  }

  lemma TakeOneMore<T>(s: seq<T>, i: int)
    requires 0 <= i < |s|
    ensures s[..i + 1] == s[..i] + [s[i]]
  {
  }

  lemma TakeAll<T>(s: seq<T>)
    ensures s[..|s|] == s
  {
  }

  /** One step of LoadDialogue's loop: parse the next `Part` element and append what it yields. */
  method ParseNextPart(parsedMessages: seq<DialoguePart>, parts: seq<Element>, i: int) returns (next: seq<DialoguePart>)
    requires 0 <= i < |parts|
    requires Views(parsedMessages) == ParseParts(parts[..i])
    requires forall o :: o in InputObjects(parsedMessages) ==> allocated(o)
    ensures Views(next) == ParseParts(parts[..i + 1])
    ensures fresh(InputObjects(next) - InputObjects(parsedMessages))
    ensures forall o :: o in InputObjects(next) ==> allocated(o)
  {
    label before:
    var parsedPart := ParsePartElement(parts[i]);
    ViewsUnchanged@before(parsedMessages);
    TakeOneMore(parts, i);
    FilterMapSnoc(ParsePart, parts[..i], parts[i]);
    next := parsedMessages;
    if parsedPart.Some? {
      ViewsAppend(parsedMessages, parsedPart.value);
      next := parsedMessages + [parsedPart.value];
    }
  }

  /** LoadDialogue's loop: the parts of the `Part` elements, in document order, dropped ones skipped. */
  method ParseDialogueParts(parts: seq<Element>) returns (parsedMessages: seq<DialoguePart>)
    ensures Views(parsedMessages) == ParseParts(parts)
    ensures fresh(InputObjects(parsedMessages))
    ensures forall o :: o in InputObjects(parsedMessages) ==> allocated(o)
  {
    parsedMessages := [];
    var i := 0;
    while i < |parts|
      invariant 0 <= i <= |parts|
      invariant Views(parsedMessages) == ParseParts(parts[..i])
      invariant fresh(InputObjects(parsedMessages))
      invariant forall o :: o in InputObjects(parsedMessages) ==> allocated(o)
    {
      parsedMessages := ParseNextPart(parsedMessages, parts, i);
      i := i + 1;
    }
    TakeAll(parts);
  }

  // ---------------------------------------------------------------------------------------------
  // The system

  class DialogueSystem {
    var messages: Option<seq<DialoguePart>>
    var currentDialogPart: Option<DialoguePart>
    var currentMessageIndex: int
    var isShown: bool
    var isAnimating: bool
    var isUp: bool
    var animationOffset: real
    var drawOffset: real
    var blackoutScale: real

    function Snapshot(): Stage
      reads this
    {
      Stage(isShown, isAnimating, isUp, currentMessageIndex, animationOffset, drawOffset, blackoutScale)
    }

    function MessageCount(): int
      reads this
    {
      if messages.Some? then |messages.value| else 0
    }

    /** The object `currentDialogPart` refers to, when it is a choice part. */
    function CurrentObjects(): set<object>
      reads this
    {
      if currentDialogPart.Some? then currentDialogPart.value.Objects() else {}
    }

    /** While shown, `currentDialogPart` is the very part at `messages[currentMessageIndex]`; while closed,
        the script is absent or empty (a stale `currentDialogPart` may remain). */
    ghost predicate Valid()
      reads this
    {
      && StageOk(Snapshot(), MessageCount())
      && (isShown ==> messages.Some? && currentDialogPart == Some(messages.value[currentMessageIndex]))
      && (!isShown ==> messages.None? || messages.value == [])
    }

    constructor ()
      ensures Valid()
      ensures !isShown && !isAnimating && !isUp && messages.None? && currentDialogPart.None?
    {
      messages := Option.None;
      currentDialogPart := Option.None;
      currentMessageIndex := 0;
      isShown := false;
      isAnimating := false;
      isUp := false;
      animationOffset := 0.0;
      drawOffset := 0.0;
      blackoutScale := 0.0;
    }

    /** LoadDialogue: on a load failure `messages` keeps its value; otherwise it becomes the parsed parts,
        whose choice parts are fresh objects. */
    method LoadDialogue(document: Document)
      modifies this`messages
      ensures document.LoadFailed? ==> messages == old(messages)
      ensures document.Loaded? ==> messages.Some? && Views(messages.value) == LoadedParts(document.root)
      ensures document.Loaded? ==> fresh(InputObjects(messages.value))
      ensures document.Loaded? ==> forall o :: o in InputObjects(messages.value) ==> allocated(o)
    {
      if document.LoadFailed? {
        return;
      }
      var parsedMessages := ParseDialogueParts(Children(document.root, "Part"));
      messages := Some(parsedMessages);
    }

    /** ShowText: ignored while shown. Otherwise it loads the script and resets the index; an empty script
        (or a failed load, which leaves no script) throws at `messages[0]`, reported as `crashed`; a
        non-empty one opens the conversation on its first part and starts the slide-in. */
    method ShowText(document: Document) returns (crashed: bool)
      requires Valid()
      modifies this
      ensures Valid()
      ensures old(isShown) ==> !crashed && unchanged(this)
      ensures !old(isShown) && document.LoadFailed? ==> crashed && messages == old(messages)
      ensures !old(isShown) && document.Loaded? ==>
        messages.Some? && Views(messages.value) == LoadedParts(document.root) && fresh(InputObjects(messages.value))
      ensures !old(isShown) ==> (crashed <==> MessageCount() == 0)
      ensures !old(isShown) && crashed ==>
        Snapshot() == old(Snapshot()).(index := 0) && currentDialogPart == old(currentDialogPart)
      ensures !old(isShown) && !crashed ==>
        Snapshot() == ShowStage(old(Snapshot())) && currentDialogPart == Some(messages.value[0])
    {
      if isShown {
        return false;
      }
      LoadDialogue(document);
      label loaded:
      currentMessageIndex := 0;
      if messages.None? || |messages.value| == 0 {
        return true;
      }
      currentDialogPart := Some(messages.value[currentMessageIndex]);
      OpenVisualArea();
      crashed := false;
      ViewsUnchanged@loaded(messages.value);
    }

    /** The last steps of ShowText: show the panel and start the slide-in from 240 below. */
    method OpenVisualArea()
      requires StageOk(Snapshot(), 0) && !isShown && messages.Some? && |messages.value| > 0
      requires currentMessageIndex == 0 && currentDialogPart == Some(messages.value[0])
      modifies this`isShown, this`isAnimating, this`animationOffset, this`drawOffset, this`blackoutScale
      ensures Valid()
      ensures Snapshot() == ShowStage(old(Snapshot()))
    {
      ShowStageOk(Snapshot(), |messages.value|);
      isShown := true;
      isAnimating := true;
      animationOffset := 0.0;
      drawOffset := VisualAreaHeight as real;
      blackoutScale := 0.0;
    }

    /** AdvanceText: ignored unless shown and settled; moves to the next part, or on the last part starts
        the slide-out. */
    method AdvanceText()
      requires Valid()
      modifies this
      ensures Valid()
      ensures Snapshot() == AdvanceStage(old(Snapshot()), MessageCount())
      ensures messages == old(messages)
      ensures currentMessageIndex == old(currentMessageIndex) ==> currentDialogPart == old(currentDialogPart)
    {
      AdvanceStageOk(Snapshot(), MessageCount());
      if !isShown || isAnimating {
        return;
      }
      if currentMessageIndex < |messages.value| - 1 {
        currentMessageIndex := currentMessageIndex + 1;
        currentDialogPart := Some(messages.value[currentMessageIndex]);
      } else {
        isAnimating := true;
      }
    }

    /** HandleMoveUpInteraction: on a choice part, "previous option"; on anything else nothing. Not gated
        on being shown or settled; the change is seen through `messages` too, which holds the same object. */
    method HandleMoveUpInteraction()
      requires Valid()
      modifies CurrentObjects()
      ensures Valid() && unchanged(this)
      ensures currentDialogPart.Some? && currentDialogPart.value.Input? ==>
        var input := currentDialogPart.value.input;
        input.selectedOption == PreviousOption(old(input.selectedOption), |input.options|)
      ensures isShown && currentDialogPart.value.Input? ==>
        messages.value[currentMessageIndex].input == currentDialogPart.value.input
    {
      if currentDialogPart.Some? && currentDialogPart.value.Input? {
        currentDialogPart.value.input.SelectPreviousOption();
      }
    }

    /** HandleMoveDownInteraction: on a choice part, "next option" (which throws on an empty option list,
        reported as `divideByZero`); on anything else nothing. */
    method HandleMoveDownInteraction() returns (divideByZero: bool)
      requires Valid()
      modifies CurrentObjects()
      ensures Valid() && unchanged(this)
      ensures divideByZero <==> currentDialogPart.Some? && currentDialogPart.value.Input? && |currentDialogPart.value.input.options| == 0
      ensures currentDialogPart.Some? && currentDialogPart.value.Input? && !divideByZero ==>
        var input := currentDialogPart.value.input;
        input.selectedOption == NextOption(old(input.selectedOption), |input.options|)
      ensures isShown && currentDialogPart.value.Input? ==>
        messages.value[currentMessageIndex].input == currentDialogPart.value.input
    {
      divideByZero := false;
      if currentDialogPart.Some? && currentDialogPart.value.Input? {
        divideByZero := currentDialogPart.value.input.SelectNextOption();
      }
    }

    /** Update: advances the slide by `dt` seconds, or settles it; settling a slide-out closes the system
        and drops the script, but not `currentDialogPart`. */
    method Update(dt: real)
      requires Valid()
      modifies this
      ensures Valid()
      ensures Snapshot() == UpdateStage(old(Snapshot()), dt)
      ensures messages == if ClearsMessages(old(Snapshot())) then Option.None else old(messages)
      ensures currentDialogPart == old(currentDialogPart)
    {
      UpdateStageOk(Snapshot(), MessageCount(), dt);
      if !isShown {
        return;
      }
      if isAnimating && animationOffset < 1.0 {
        animationOffset := animationOffset + dt / MoveAnimationSeconds;
        var from := 0;
        var to := 0;
        if !isUp {
          from := 1;
        } else {
          to := 1;
        }
        drawOffset := Lerp((from * VisualAreaHeight) as real, (to * VisualAreaHeight) as real, animationOffset);
        blackoutScale := Lerp(to as real, from as real, animationOffset);
      } else {
        if isAnimating {
          isUp := drawOffset <= 0.0;
          if !isUp {
            messages := Option.None;
            isShown := false;
          }
        }
        isAnimating := false;
        animationOffset := 0.0;
        drawOffset := 0.0;
        blackoutScale := 1.0;
      }
    }

    /** Draw: nothing while closed; otherwise the frame for the current part. */
    method Draw(assets: OverlayAssets) returns (cmds: seq<DrawCommand>)
      requires Valid()
      ensures !isShown ==> cmds == []
      ensures isShown ==>
        cmds == Frame(assets, drawOffset, blackoutScale, View(currentDialogPart.value), currentMessageIndex, |messages.value|)
    {
      if !isShown {
        return [];
      }
      var part := currentDialogPart.value;
      ViewDirections(part);
      var viewport := assets.viewport;
      var yPosition := PanelTop(viewport, drawOffset);
      var drawableArea := DrawableArea(viewport, yPosition);
      var background := [Fill(assets.blankTexture, viewport, Shade(blackoutScale)), Fill(assets.blankTexture, drawableArea, SkyBlue)];
      var characterTop := CharacterTop(yPosition, drawOffset);
      var leftCharacter := CharacterCommands(assets.debugCharacter, Truncate(-drawOffset), characterTop, part.LeftCharacterDirection());
      var rightCharacter := CharacterCommands(assets.debugCharacter, viewport.Right() - assets.debugCharacter.width + Truncate(drawOffset),
                                              characterTop, part.RightCharacterDirection());
      var centre := BubbleCentre(drawableArea, yPosition, drawOffset);
      var bubble: seq<DrawCommand> := [];
      var bubbleDirection := messages.value[currentMessageIndex].BubbleDirection();
      if bubbleDirection != DialogueDirection.None {
        var content := DrawPart(part, assets.font, centre);
        bubble := BubbleCommands(assets.speechBubble, centre, bubbleDirection, content);
      }
      assert bubble == BubbleCommands(assets.speechBubble, centre, View(part).Bubble(), Content(View(part), assets.font, centre));
      FrameFromPieces(assets, drawOffset, blackoutScale, View(part), currentMessageIndex, |messages.value|,
                      background, leftCharacter, rightCharacter, bubble);
      cmds := background + leftCharacter + rightCharacter + bubble + IndicatorCommands(assets, currentMessageIndex, |messages.value|);
    }
  }
}
