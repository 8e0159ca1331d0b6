/** The second Vestige.Engine.Core.DialogPart, kept in Vestige.Engine/Dialogue/DialoguePart.cs: the same
    message and direction, but character directions instead of visibility flags, with defaults. */
module LegacyDialogParts {
  import opened Wrappers
  import opened DialogDirections

  datatype DialogPart = DialogPart(
    messageText: string,
    direction: DialogDirection,
    leftCharacterDirection: DialogDirection,
    rightCharacterDirection: DialogDirection)

  /** The constructor call: an omitted (`None`) character direction takes its default, Right for the left
      character and Left for the right one; a supplied one is stored as given. */
  function NewDialogPart(message: string, dir: DialogDirection,
                         leftChar: Option<DialogDirection>, rightChar: Option<DialogDirection>): (p: DialogPart)
    ensures p.messageText == message && p.direction == dir
    ensures p.leftCharacterDirection == if leftChar.Some? then leftChar.value else Right
    ensures p.rightCharacterDirection == if rightChar.Some? then rightChar.value else Left
  {
    DialogPart(message, dir,
               match leftChar case Some(d) => d case None => Right,
               match rightChar case Some(d) => d case None => Left)
  }

  /** With both defaults the characters face each other: the left one faces Right and the right one Left. */
  lemma DefaultsFaceEachOther(message: string, dir: DialogDirection)
    ensures var p := NewDialogPart(message, dir, Option.None, Option.None);
      p.leftCharacterDirection == Right && p.rightCharacterDirection == Left
      && p.leftCharacterDirection != p.rightCharacterDirection
  {
  }
}
