/** Vestige.Engine.Dialogue.TextDialoguePart: an immutable line of dialogue. */
module TextParts {
  import opened Graphics
  import opened DialogueDirections

  /** The three directions the constructor hands to its base class, in the order (bubble, left character,
      right character), and the read-only message text. */
  datatype TextDialoguePart = TextDialoguePart(
    bubbleDirection: DialogueDirection,
    leftCharacterDirection: DialogueDirection,
    rightCharacterDirection: DialogueDirection,
    rawText: string)
  {
    /** Draw: one black line holding exactly the stored message, anchored at the bubble centre. */
    function Draw(font: Font, drawCenter: Vec): (cmds: seq<DrawCommand>)
      ensures |cmds| == 1
      ensures cmds[0].TextLine? && cmds[0].text == rawText && cmds[0].anchor == drawCenter && cmds[0].tint == Black
    {
      [TextLine(rawText, drawCenter, Black)]
    }
  }
}
