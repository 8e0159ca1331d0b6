/** Vestige.Engine.Core.DialogPart as the older dialogue system uses it: the message, the bubble direction
    and whether each of the two characters is shown. Every property has a private setter assigned once in
    the constructor, so the record is a value. */
module DialogParts {
  import opened DialogDirections

  /** The constructor's parameters `(message, dir, leftChar, rightChar)` land in these fields, in this order. */
  datatype DialogPart = DialogPart(
    messageText: string,
    direction: DialogDirection,
    isLeftCharacterVisible: bool,
    isRightCharacterVisible: bool)
}
