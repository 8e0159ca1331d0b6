/** Vestige.Engine.Core.DialogSystem, the older dialogue overlay: a fixed three-part script, an opening or
    closing slide chosen by whether the conversation is on its first part, and a bubble that is always drawn. */
module Speech {
  import opened Wrappers
  import opened Numerics
  import opened Graphics
  import opened DialogDirections
  import opened DialogParts

  const VisualAreaHeight: int := 240
  const MoveAnimationSeconds: real := 0.5
  const EntryScalingFactor: real := 1.5
  const BubbleVerticalOffset: int := -80

  /** The script ShowText installs. */
  function Script(): seq<DialogPart>
  {
    [DialogPart("Words words words", Left, true, false),
     DialogPart("More words words", Left, true, false),
     DialogPart("NO", Right, true, true)]
  }

  /** CalculateFormattedText: the text shown for a part, which is its message as it stands. */
  function CalculateFormattedText(part: DialogPart): (text: string)
    ensures text == part.messageText
  {
    part.messageText
  }

  // ---------------------------------------------------------------------------------------------
  // The visibility and animation state, as a value

  /** The scalar fields of a DialogSystem: isShown, isAnimating, currentMessageIndex, animationOffset,
      drawOffset and blackoutScale. */
  datatype SpeechState = SpeechState(shown: bool, animating: bool, index: int,
                                     progress: real, drawOffset: real, blackout: real)

  /** Update's interpolation endpoints: sliding in (`from` = 1) on the first part, sliding out on any other. */
  function From(index: int): real { if index == 0 then 1.0 else 0.0 }
  function To(index: int): real { if index == 0 then 0.0 else 1.0 }

  /** The states the system can reach, for a script of `count` parts. */
  ghost predicate SpeechOk(s: SpeechState, count: int)
  {
    && (s.shown ==> 0 <= s.index < count)
    && (!s.shown ==> !s.animating)
    && (s.shown && !s.animating ==> count >= 2 && s.progress == 0.0 && s.drawOffset == 0.0 && s.blackout == 1.0)
    && (s.animating ==>
          (s.drawOffset == Lerp(From(s.index) * VisualAreaHeight as real, To(s.index) * VisualAreaHeight as real, s.progress)
           && s.blackout == Lerp(To(s.index), From(s.index), s.progress)))
  }

  /** ShowText's resets. */
  function ShowSpeech(s: SpeechState): SpeechState
  {
    s.(index := 0, shown := true, animating := true, progress := 0.0, drawOffset := VisualAreaHeight as real, blackout := 0.0)
  }

  /** AdvanceText on a script of `count` parts. */
  function AdvanceSpeech(s: SpeechState, count: int): SpeechState
  {
    if !s.shown || s.animating then s
    else if s.index < count - 1 then s.(index := s.index + 1)
    else s.(animating := true)
  }

  /** Update with `dt` seconds elapsed, on a script of `count` parts; OnAnimationFinished is the closing test. */
  function UpdateSpeech(s: SpeechState, dt: real, count: int): SpeechState
  {
    if !s.shown then s
    else if s.animating && s.progress < 1.0 then
      var p := s.progress + dt / MoveAnimationSeconds;
      var from := From(s.index);
      var to := To(s.index);
      s.(progress := p,
         drawOffset := Lerp(from * VisualAreaHeight as real, to * VisualAreaHeight as real, p),
         blackout := Lerp(to, from, p))
    else
      s.(shown := !(s.animating && s.index == count - 1),
         animating := false, progress := 0.0, drawOffset := 0.0, blackout := 1.0)
  }

  /** Successive Updates, one per frame time. */
  function UpdateAll(s: SpeechState, dts: seq<real>, count: int): SpeechState
    decreases |dts|
  {
    if dts == [] then s else UpdateAll(UpdateSpeech(s, dts[0], count), dts[1..], count)
  }

  /** `k` successive AdvanceText calls. */
  function AdvanceAll(s: SpeechState, count: int, k: nat): SpeechState
  {
    if k == 0 then s else AdvanceSpeech(AdvanceAll(s, count, k - 1), count)
  }

  lemma ShowSpeechOk(s: SpeechState, count: int)
    requires SpeechOk(s, count) && !s.shown && count >= 1
    ensures SpeechOk(ShowSpeech(s), count)
  {
  }

  /** Advancing keeps the index inside the script. */
  lemma AdvanceSpeechOk(s: SpeechState, count: int)
    requires SpeechOk(s, count)
    ensures SpeechOk(AdvanceSpeech(s, count), count)
    ensures AdvanceSpeech(s, count).index == s.index || AdvanceSpeech(s, count).index == s.index + 1
  {
  }

  /** One animation frame: progress grows by dt / 0.5; on the first part the panel slides in (offset 240 to 0,
      shade 0 to 1), on any other part it slides out (offset 0 to 240, shade 1 to 0). */
  lemma SpeechAnimationFrame(s: SpeechState, dt: real, count: int)
    requires s.shown && s.animating && s.progress < 1.0
    ensures var t := UpdateSpeech(s, dt, count);
      && t.progress == s.progress + 2.0 * dt
      && t.shown && t.animating && t.index == s.index
      && (s.index == 0 ==> t.drawOffset == 240.0 - 240.0 * t.progress && t.blackout == t.progress)
      && (s.index != 0 ==> t.drawOffset == 240.0 * t.progress && t.blackout == 1.0 - t.progress)
  {
  }

  /** The first Update after a slide completes closes the conversation iff it is on its last part; the
      script itself is kept. */
  lemma SpeechSettle(s: SpeechState, dt: real, count: int)
    requires SpeechOk(s, count) && s.shown && s.animating && s.progress >= 1.0
    ensures UpdateSpeech(s, dt, count) == SpeechState(s.index != count - 1, false, s.index, 0.0, 0.0, 1.0)
  {
  }

  /** Update preserves the reachable states. */
  lemma UpdateSpeechOk(s: SpeechState, dt: real, count: int)
    requires SpeechOk(s, count)
    ensures SpeechOk(UpdateSpeech(s, dt, count), count)
  {
  }

  lemma {:induction false} StillAll(s: SpeechState, dts: seq<real>, count: int)
    requires SpeechOk(s, count) && !s.animating
    ensures UpdateAll(s, dts, count) == s
    decreases |dts|
  {
    if dts != [] {
      assert UpdateSpeech(s, dts[0], count) == s;
      StillAll(s, dts[1..], count);
    }
  }

  /** A slide in progress completes: once the frame times add up to the rest of the 0.5 s, one more Update
      settles it (closing iff on the last part), and later Updates change nothing. */
  lemma {:induction false} SpeechAnimationCompletes(s: SpeechState, dts: seq<real>, last: real, count: int)
    requires SpeechOk(s, count) && s.shown && s.animating
    requires forall i :: 0 <= i < |dts| ==> dts[i] >= 0.0
    requires s.progress + 2.0 * Sum(dts) >= 1.0
    ensures UpdateAll(s, dts + [last], count) == SpeechState(s.index != count - 1, false, s.index, 0.0, 0.0, 1.0)
    decreases |dts|
  {
    var all := dts + [last];
    if s.progress >= 1.0 {
      SpeechSettle(s, all[0], count);
      UpdateSpeechOk(s, all[0], count);
      StillAll(UpdateSpeech(s, all[0], count), all[1..], count);
    } else {
      assert dts != [];
      UpdateSpeechOk(s, dts[0], count);
      assert all[1..] == dts[1..] + [last];
      SpeechAnimationCompletes(UpdateSpeech(s, dts[0], count), dts[1..], last, count);
    }
  }

  lemma {:induction false} AdvanceReachesLast(s: SpeechState, count: int, k: nat)
    requires SpeechOk(s, count) && s.shown && !s.animating && s.index + k <= count - 1
    ensures AdvanceAll(s, count, k) == s.(index := s.index + k)
  {
    if k > 0 {
      AdvanceReachesLast(s, count, k - 1);
    }
  }

  /** A one-part script closes as soon as its opening slide settles, with no advance: its first part is also
      its last. */
  lemma SinglePartCloses(s: SpeechState, opening: seq<real>, d: real)
    requires SpeechOk(s, 1) && !s.shown
    requires forall i :: 0 <= i < |opening| ==> opening[i] >= 0.0
    requires Sum(opening) >= MoveAnimationSeconds
    ensures UpdateAll(ShowSpeech(s), opening + [d], 1) == SpeechState(false, false, 0, 0.0, 0.0, 1.0)
  {
    ShowSpeechOk(s, 1);
    SpeechAnimationCompletes(ShowSpeech(s), opening, d, 1);
  }

  /** A whole conversation over a script of at least two parts: the opening slide settles open on the first
      part; `count` advances reach the last part and start the closing slide; once it completes the system
      is closed, still on the last part. */
  lemma Conversation(s: SpeechState, count: int, opening: seq<real>, d1: real, closing: seq<real>, d2: real)
    requires SpeechOk(s, count) && !s.shown && count >= 2
    requires forall i :: 0 <= i < |opening| ==> opening[i] >= 0.0
    requires forall i :: 0 <= i < |closing| ==> closing[i] >= 0.0
    requires Sum(opening) >= MoveAnimationSeconds && Sum(closing) >= MoveAnimationSeconds
    ensures UpdateAll(ShowSpeech(s), opening + [d1], count) == SpeechState(true, false, 0, 0.0, 0.0, 1.0)
    ensures AdvanceAll(SpeechState(true, false, 0, 0.0, 0.0, 1.0), count, count) == SpeechState(true, true, count - 1, 0.0, 0.0, 1.0)
    ensures UpdateAll(SpeechState(true, true, count - 1, 0.0, 0.0, 1.0), closing + [d2], count) == SpeechState(false, false, count - 1, 0.0, 0.0, 1.0)
  {
    ShowSpeechOk(s, count);
    SpeechAnimationCompletes(ShowSpeech(s), opening, d1, count);
    var open := SpeechState(true, false, 0, 0.0, 0.0, 1.0);
    AdvanceReachesLast(open, count, count - 1);
    SpeechAnimationCompletes(SpeechState(true, true, count - 1, 0.0, 0.0, 1.0), closing, d2, count);
  }

  // ---------------------------------------------------------------------------------------------
  // What Draw emits

  /** The centre of the speech bubble, pushed down 1.5 times as far as the panel. */
  function SpeechBubbleCentre(drawableArea: Rect, yPosition: real, drawOffset: real): Vec
  {
    Vec(drawableArea.CenterX() as real,
        yPosition + BubbleVerticalOffset as real + (VisualAreaHeight / 2) as real + drawOffset * EntryScalingFactor)
  }

  /** Everything an open system draws for the part `part` whose display text is `displayText`. */
  function SpeechFrame(assets: OverlayAssets, drawOffset: real, blackout: real, part: DialogPart, displayText: string): seq<DrawCommand>
  {
    var viewport := assets.viewport;
    var yPosition := (viewport.Bottom() - VisualAreaHeight) as real + drawOffset;
    var drawableArea := Rect(0, Truncate(yPosition), viewport.width, VisualAreaHeight);
    var characterTop := yPosition + drawOffset * EntryScalingFactor;
    var character := assets.debugCharacter;
    var bubble := assets.speechBubble;
    var centre := SpeechBubbleCentre(drawableArea, yPosition, drawOffset);
    var textSize := assets.font.measure(displayText);
    [Fill(assets.blankTexture, viewport, Shade(blackout)), Fill(assets.blankTexture, drawableArea, SkyBlue)]
    + (if part.isLeftCharacterVisible then [Sprite(character, Vec(0.0, characterTop), Option.None, White, false)] else [])
    + (if part.isRightCharacterVisible
       then [Sprite(character, Vec((viewport.Right() - character.width) as real, characterTop), Option.None, White, true)]
       else [])
    + [Sprite(bubble, Vec(centre.x - bubble.width as real / 2.0, centre.y - bubble.height as real / 2.0),
              Option.None, White, part.direction != Left),
       DrawCommand.Text(displayText, Vec(centre.x - textSize.x / 2.0, centre.y - textSize.y / 2.0), Black)]
  }

  function Visible(b: bool): nat { if b then 1 else 0 }

  /** An open frame draws the shade and panel, the left character iff it is visible (unmirrored), the right
      character iff it is visible (mirrored), then always the bubble, mirrored unless it points Left, and the
      display text in black. */
  lemma SpeechFrameLayout(assets: OverlayAssets, drawOffset: real, blackout: real, part: DialogPart, displayText: string)
    ensures var cmds := SpeechFrame(assets, drawOffset, blackout, part, displayText);
      var chars := Visible(part.isLeftCharacterVisible) + Visible(part.isRightCharacterVisible);
      && |cmds| == 4 + chars
      && cmds[0] == Fill(assets.blankTexture, assets.viewport, Shade(blackout))
      && (part.isLeftCharacterVisible ==> cmds[2].Sprite? && cmds[2].texture == assets.debugCharacter && !cmds[2].flipped)
      && (part.isRightCharacterVisible ==>
            cmds[1 + chars].Sprite? && cmds[1 + chars].texture == assets.debugCharacter && cmds[1 + chars].flipped)
      && cmds[2 + chars].Sprite? && cmds[2 + chars].texture == assets.speechBubble
      && (cmds[2 + chars].flipped <==> part.direction != Left)
      && cmds[3 + chars].Text? && cmds[3 + chars].text == displayText && cmds[3 + chars].tint == Black
  {
  }

  /** The script's scenes: every part shows the left character unmirrored, only the last ("NO") also shows
      the right character, and only that part's bubble is mirrored, since it alone points Right. */
  lemma ScriptScenes(assets: OverlayAssets, drawOffset: real, blackout: real, k: int)
    requires 0 <= k < |Script()|
    ensures var part := Script()[k];
      var cmds := SpeechFrame(assets, drawOffset, blackout, part, CalculateFormattedText(part));
      && |Script()| == 3
      && cmds[2].Sprite? && cmds[2].texture == assets.debugCharacter && !cmds[2].flipped
      && (|cmds| == 6 <==> k == 2) && (|cmds| == 5 <==> k != 2)
      && cmds[|cmds| - 2].Sprite? && cmds[|cmds| - 2].texture == assets.speechBubble
      && (cmds[|cmds| - 2].flipped <==> k == 2)
      && cmds[|cmds| - 1].Text? && cmds[|cmds| - 1].text == part.messageText
  {
    var part := Script()[k];
    SpeechFrameLayout(assets, drawOffset, blackout, part, CalculateFormattedText(part));
  }

  // ---------------------------------------------------------------------------------------------
  // The system

  class DialogSystem {
    var messages: Option<seq<DialogPart>>
    var currentMessageIndex: int
    var displayText: Option<string>
    var isShown: bool
    var isAnimating: bool
    var animationOffset: real
    var drawOffset: real
    var blackoutScale: real

    function Snapshot(): SpeechState
      reads this
    {
      SpeechState(isShown, isAnimating, currentMessageIndex, animationOffset, drawOffset, blackoutScale)
    }

    function MessageCount(): int
      reads this
    {
      if messages.Some? then |messages.value| else 0
    }

    /** While shown, the display text is the current part's message; once installed, the script stays. */
    ghost predicate Valid()
      reads this
    {
      && SpeechOk(Snapshot(), MessageCount())
      && (isShown ==> messages.Some? && displayText == Some(messages.value[currentMessageIndex].messageText))
      && (messages.Some? ==> messages.value == Script())
    }

    constructor ()
      ensures Valid()
      ensures !isShown && !isAnimating && messages.None? && displayText.None?
    {
      messages := Option.None;
      currentMessageIndex := 0;
      displayText := Option.None;
      isShown := false;
      isAnimating := false;
      animationOffset := 0.0;
      drawOffset := 0.0;
      blackoutScale := 0.0;
    }

    /** ShowText: ignored while shown; otherwise installs the script and opens on its first part. */
    method ShowText()
      requires Valid()
      modifies this
      ensures Valid()
      ensures old(isShown) ==> unchanged(this)
      ensures !old(isShown) ==> messages == Some(Script()) && Snapshot() == ShowSpeech(old(Snapshot()))
      ensures displayText == if old(isShown) then old(displayText) else Some(Script()[0].messageText)
    {
      if isShown {
        return;
      }
      messages := Some(Script());
      currentMessageIndex := 0;
      displayText := Some(CalculateFormattedText(messages.value[currentMessageIndex]));
      ShowSpeechOk(old(Snapshot()), |messages.value|);
      isShown := true;
      isAnimating := true;
      animationOffset := 0.0;
      drawOffset := VisualAreaHeight as real;
      blackoutScale := 0.0;
    }

    /** AdvanceText: ignored unless shown and settled; moves to the next part and its text, or on the last
        part starts the closing slide. */
    method AdvanceText()
      requires Valid()
      modifies this
      ensures Valid()
      ensures Snapshot() == AdvanceSpeech(old(Snapshot()), MessageCount())
      ensures messages == old(messages)
    {
      AdvanceSpeechOk(Snapshot(), MessageCount());
      if !isShown || isAnimating {
        return;
      }
      if currentMessageIndex < |messages.value| - 1 {
        currentMessageIndex := currentMessageIndex + 1;
        displayText := Some(CalculateFormattedText(messages.value[currentMessageIndex]));
      } else {
        isAnimating := true;
      }
    }

    /** Update: advances the slide by `dt` seconds, or settles it. */
    method Update(dt: real)
      requires Valid()
      modifies this
      ensures Valid()
      ensures Snapshot() == UpdateSpeech(old(Snapshot()), dt, MessageCount())
      ensures messages == old(messages) && displayText == old(displayText)
    {
      UpdateSpeechOk(Snapshot(), dt, MessageCount());
      if !isShown {
        return;
      }
      if isAnimating && animationOffset < 1.0 {
        animationOffset := animationOffset + dt / MoveAnimationSeconds;
        var from := 0;
        var to := 0;
        if currentMessageIndex == 0 {
          from := 1;
        } else {
          to := 1;
        }
        drawOffset := Lerp((from * VisualAreaHeight) as real, (to * VisualAreaHeight) as real, animationOffset);
        blackoutScale := Lerp(to as real, from as real, animationOffset);
      } else {
        if isAnimating {
          OnAnimationFinished();
        }
        isAnimating := false;
        animationOffset := 0.0;
        drawOffset := 0.0;
        blackoutScale := 1.0;
      }
    }

    /** OnAnimationFinished: closes the system when the conversation is on its last part. */
    method OnAnimationFinished()
      requires messages.Some?
      modifies this`isShown
      ensures isShown == (old(isShown) && currentMessageIndex != |messages.value| - 1)
    {
      if currentMessageIndex == |messages.value| - 1 {
        isShown := false;
      }
    }

    /** Draw: nothing while closed; otherwise the frame for the current part. */
    method Draw(assets: OverlayAssets) returns (cmds: seq<DrawCommand>)
      requires Valid()
      ensures !isShown ==> cmds == []
      ensures isShown ==>
        cmds == SpeechFrame(assets, drawOffset, blackoutScale, messages.value[currentMessageIndex], displayText.value)
    {
      if !isShown {
        return [];
      }
      var viewport := assets.viewport;
      cmds := [Fill(assets.blankTexture, viewport, Shade(blackoutScale))];
      var yPosition := (viewport.Bottom() - VisualAreaHeight) as real + drawOffset;
      var drawableArea := Rect(0, Truncate(yPosition), viewport.width, VisualAreaHeight);
      cmds := cmds + [Fill(assets.blankTexture, drawableArea, SkyBlue)];
      var characterTop := yPosition + drawOffset * EntryScalingFactor;
      var currentDialogPart := messages.value[currentMessageIndex];
      if currentDialogPart.isLeftCharacterVisible {
        cmds := cmds + [Sprite(assets.debugCharacter, Vec(0.0, characterTop), Option.None, White, false)];
      }
      if currentDialogPart.isRightCharacterVisible {
        var characterPos := Vec((viewport.Right() - assets.debugCharacter.width) as real, characterTop);
        cmds := cmds + [Sprite(assets.debugCharacter, characterPos, Option.None, White, true)];
      }
      var drawCenter := SpeechBubbleCentre(drawableArea, yPosition, drawOffset);
      var bubbleOffset := Vec(assets.speechBubble.width as real / 2.0, assets.speechBubble.height as real / 2.0);
      cmds := cmds + [Sprite(assets.speechBubble, Vec(drawCenter.x - bubbleOffset.x, drawCenter.y - bubbleOffset.y),
                             Option.None, White, messages.value[currentMessageIndex].direction != Left)];
      var textSize := assets.font.measure(displayText.value);
      cmds := cmds + [DrawCommand.Text(displayText.value, Vec(drawCenter.x - textSize.x / 2.0, drawCenter.y - textSize.y / 2.0), Black)];
    }
  }
}
