# Vestige engine core in Dafny

This project models the core of the Vestige engine, a MonoGame role-playing game engine written in C#. Its parts are:

- **The dialogue system.** `Vestige.Engine.Dialogue.DialogueSystem` is a modal conversation overlay. It loads a script of parts from an XML document.
  - Each part is a text line (`TextDialoguePart`) or a multiple-choice menu (`InputDialoguePart`).
  - The overlay slides up and fades in, steps through the parts, then slides away.
  - It draws a shade, a panel, up to two characters, a speech bubble holding the part's content, and a "Next"/"End" indicator.
- **The older speech system.** `Vestige.Engine.Core.DialogSystem` plays a fixed three-part script. It comes with its own `DialogPart` record and a second, later variant of that record that has default character directions.
- **The tile map.** `TileSystem` is a width-by-height grid of tile ids stored row after row in a flat array. It is drawn from a sprite-sheet atlas of 24-pixel tiles.
- **Animated sprites.** `AnimatedObject` is a sprite animation whose frame counter advances once more than 250 ms of game time has built up.

**How the model is built**

- Each object whose fields change in place is a Dafny `class` with those fields:
  - the two dialogue systems
  - the choice part
  - the tile map, whose grid stays an `array`
  - the animated object
- Each class's methods are proved against pure step functions over a snapshot of its state.
- The lemmas about those step functions carry the behavioural properties:
  - invariants that every step keeps
  - the complete open, advance and close conversation
  - the selection cycle
  - the tile position round trip
  - the exact set of tiles drawn
  - the steady frame rate
- The immutable records and the loader are datatypes and functions.
- The loader's element-by-element loop is a method proved equal to a pure filter over the document's `Part` elements.

**Shared modules**

- `Numerics`: C#'s truncating `/` and `%` on `int`, and float-to-int truncation.
- `Graphics`: MonoGame values, with SpriteBatch calls recorded as a sequence of draw commands.
- `Xml`: an already-parsed element tree.
- `Wrappers`: `Option` and a filter-map over sequences.

**Behaviour worth noting**

- A choice part is built as `InputDialoguePart(Left, Right, None, choices)`. The constructor's parameter order is (bubble, left character, right character), so the bubble points Left, the left character faces Right and there is no right character (`Dialogue.ChoicePartShape`).
- Tile ids are 1-based in `GetTilePosition`, and a column can never overflow the sheet (`Tiles.OnlyRowsOverflow`).
- Tiles are placed only through `TileSystem.AddTile`; the engine has no loader that reads a tile map from XML.
- A dialogue document that fails to load leaves the message array unassigned, and `ShowText` then fails at its first index.

## Model

| member | source | states |
|---|---|---|
| Dialogue.ParseDirectionFromElement | Vestige.Engine/Dialogue/DialogueSystem.cs:373-381 | a direction element yields Left / Right exactly when its text is exactly that name; a missing element or any other text yields None |
| DialogueDirections.TryParse | Vestige.Engine/Dialogue/DialogueSystem.cs:380 | parsing succeeds only on an exact enum name, and then yields the value with that name |
| DialogueDirections.TryParseName | Vestige.Engine/Dialogue/DialogueDirection.cs:7-13 | every direction parses back from its own name |
| Xml.Attribute | Vestige.Engine/Dialogue/DialogueSystem.cs:304 | an attribute lookup is absent iff no attribute has that name, and otherwise returns a value the element holds under that name |
| Xml.Child | Vestige.Engine/Dialogue/DialogueSystem.cs:337 | a child lookup is absent iff no child has that name, and otherwise returns the first child with that name in document order |
| Xml.Children | Vestige.Engine/Dialogue/DialogueSystem.cs:364 | the named children are exactly the children carrying that name |
| Xml.NamedAppend | Vestige.Engine/Dialogue/DialogueSystem.cs:364 | selecting by name keeps document order: the matches among two runs of siblings are each run's matches, concatenated |
| Xml.NamedSnoc | Vestige.Engine/Dialogue/DialogueSystem.cs:298 | appending one sibling appends it to the matches exactly when its name matches, so order and multiplicity are kept |
| Dialogue.OptionTexts | Vestige.Engine/Dialogue/DialogueSystem.cs:363-368 | the option strings are the option elements' values, one per element, in document order |
| Dialogue.DroppedParts | Vestige.Engine/Dialogue/DialogueSystem.cs:302-323 | a part is dropped iff it is a Choice without Options or a non-Choice without Message; with no Type attribute a kept part is a text part |
| Dialogue.ParseTextDialogPart | Vestige.Engine/Dialogue/DialogueSystem.cs:335-348 | no part iff there is no Message child; otherwise the message is that child's text and the bubble, left and right directions are read from the Bubble, CharacterLeft and CharacterRight children respectively |
| Dialogue.TextPartShape | Vestige.Engine/Dialogue/DialogueSystem.cs:302-319 | a non-Choice part with a Message child is a text part with that message, each direction Left / Right exactly when its own child says so |
| Dialogue.ChoicePartShape | Vestige.Engine/Dialogue/DialogueSystem.cs:355-371 | a parsed choice part has bubble Left, left character Right, right character None, selection 0 and the option texts in document order |
| Dialogue.ParsePartsAppend | Vestige.Engine/Dialogue/DialogueSystem.cs:298-325 | loading keeps document order: the parts of a concatenation are the concatenated parts |
| Dialogue.ParsePartsCount | Vestige.Engine/Dialogue/DialogueSystem.cs:298-325 | loading never invents parts, and keeps every element iff every element parses |
| Dialogue.ParseInputDialogPart | Vestige.Engine/Dialogue/DialogueSystem.cs:355-371 | returns no part iff there is no Options child; otherwise a new choice part equal to the pure choice reading of the element |
| Dialogue.ParsePartElement | Vestige.Engine/Dialogue/DialogueSystem.cs:302-319 | parses one Part element (Type defaulting to Message) into a new part whose view is the pure reading, or none exactly when the pure reading drops it |
| Dialogue.ParseNextPart | Vestige.Engine/Dialogue/DialogueSystem.cs:299-324 | one loop iteration extends the parsed list to the pure reading of one more element without disturbing the parts already parsed |
| Dialogue.ParseDialogueParts | Vestige.Engine/Dialogue/DialogueSystem.cs:298-327 | the loop's list of parts reads exactly as the pure filter over all Part elements, with all choice parts newly allocated |
| Dialogue.DialogueSystem.LoadDialogue | Vestige.Engine/Dialogue/DialogueSystem.cs:282-328 | a failed load leaves the messages untouched; a loaded document installs parts reading as the pure filter over the root's Part elements |
| Dialogue.DialogueSystem.constructor | Vestige.Engine/Dialogue/DialogueSystem.cs:34-40 | a new system is hidden, not animating, not up, with no messages and no current part |
| Dialogue.DialogueSystem.ShowText | Vestige.Engine/Dialogue/DialogueSystem.cs:70-89 | no-op when shown; otherwise loads, fails iff no part was loaded, and on success opens at index 0 on the first part with offset 240 and blackout 0, keeping the invariant |
| Dialogue.DialogueSystem.OpenVisualArea | Vestige.Engine/Dialogue/DialogueSystem.cs:83-88 | the visual reset sets shown and animating, progress 0, offset 240 and blackout 0 |
| Dialogue.AdvanceStage | Vestige.Engine/Dialogue/DialogueSystem.cs:94-110 | advancing changes nothing unless the dialogue is shown and still |
| Dialogue.DialogueSystem.AdvanceText | Vestige.Engine/Dialogue/DialogueSystem.cs:94-110 | steps the state as the pure advance, keeps the messages, and leaves the current part alone unless the index moved (when it becomes the indexed part) |
| Dialogue.DialogueSystem.HandleMoveUpInteraction | Vestige.Engine/Dialogue/DialogueSystem.cs:112-118 | changes only the selection of a current choice part (to the previous option, wrapping), ungated by visibility, and the change is seen through the message array |
| Dialogue.DialogueSystem.HandleMoveDownInteraction | Vestige.Engine/Dialogue/DialogueSystem.cs:120-126 | changes only the selection of a current choice part (to the next option, wrapping); fails with division by zero exactly on a choice part with no options |
| Dialogue.DialogueSystem.Update | Vestige.Engine/Dialogue/DialogueSystem.cs:132-178 | steps the state as the pure update, clears the messages exactly on a closing settle, never changes the current part, and keeps the invariant |
| Dialogue.ClosedStageOk | Vestige.Engine/Dialogue/DialogueSystem.cs:72-77 | a closed dialogue satisfies the invariant for any script length |
| Dialogue.ShowStageOk | Vestige.Engine/Dialogue/DialogueSystem.cs:70-89 | opening a non-empty script establishes the invariant |
| Dialogue.AdvanceStageOk | Vestige.Engine/Dialogue/DialogueSystem.cs:94-110 | advancing keeps the invariant (index within the script) |
| Dialogue.AnimationFrame | Vestige.Engine/Dialogue/DialogueSystem.cs:139-158 | an animation frame adds dt / 0.5 to the progress; opening lerps offset 240 to 0 and blackout 0 to 1, closing the reverse |
| Dialogue.SettleStep | Vestige.Engine/Dialogue/DialogueSystem.cs:159-177 | once progress reaches 1 the next update settles, and a settle clears the messages iff the dialogue was up (closing) |
| Dialogue.UpdateStageOk | Vestige.Engine/Dialogue/DialogueSystem.cs:132-178 | every update keeps the invariant, and a closing settle leaves the dialogue hidden |
| Dialogue.SettledIsStill | Vestige.Engine/Dialogue/DialogueSystem.cs:159-177 | a still dialogue is unchanged by an update |
| Dialogue.StillAll | Vestige.Engine/Dialogue/DialogueSystem.cs:132-178 | a still dialogue is unchanged by any run of updates |
| Dialogue.AnimationCompletes | Vestige.Engine/Dialogue/DialogueSystem.cs:139-177 | once at least 0.5 s of non-negative frame time has passed, the next update settles the animation |
| Dialogue.AdvanceReachesLast | Vestige.Engine/Dialogue/DialogueSystem.cs:101-105 | k advances from a still dialogue move the index by exactly k while the last part is not passed |
| Dialogue.Conversation | Vestige.Engine/Dialogue/DialogueSystem.cs:70-177 | open, settle up, advance through every part, close and settle: the dialogue ends hidden on the last index, with the visuals reset |
| Dialogue.CharacterCommands | Vestige.Engine/Dialogue/DialogueSystem.cs:250-260 | a character is drawn iff its direction is not None, mirrored iff it is not Left |
| Dialogue.BubbleCommands | Vestige.Engine/Dialogue/DialogueSystem.cs:212-227 | no bubble for direction None; otherwise the bubble sprite, mirrored iff the direction is not Left, followed by the part's content |
| Dialogue.IndicatorText | Vestige.Engine/Dialogue/DialogueSystem.cs:268 | the indicator reads "Next" iff the index is before the last part, "End" otherwise |
| Dialogue.FrameLayout | Vestige.Engine/Dialogue/DialogueSystem.cs:184-207 | a frame is shade, panel, the drawn characters, the bubble and content, and the indicator text, which says "Next" iff more parts follow |
| Dialogue.FrameBubble | Vestige.Engine/Dialogue/DialogueSystem.cs:212-259 | in a frame the left character is mirrored iff it faces Right, and the bubble follows the characters, mirrored iff it points Right, with the content right after it |
| Dialogue.DialogueSystem.Draw | Vestige.Engine/Dialogue/DialogueSystem.cs:184-207 | draws nothing when hidden; otherwise the frame of the current part at the current offset, blackout and index |
| DialogueParts.ViewDirections | Vestige.Engine/Dialogue/DialogueSystem.cs:232-245 | the bubble and character directions read from a part are those of its current contents |
| DialogueParts.DrawPart | Vestige.Engine/Dialogue/DialogueSystem.cs:226 | drawing the current part emits the content of its variant (text line or option lines) |
| TextParts.TextDialoguePart.Draw | Vestige.Engine/Dialogue/TextDialoguePart.cs:22-25 | a text part draws exactly one black line of its raw text at the bubble centre |
| InputParts.InputDialoguePart.constructor | Vestige.Engine/Dialogue/InputDialoguePart.cs:15-23 | a new choice part keeps its three directions and options, with the first option selected |
| InputParts.InputDialoguePart.Draw | Vestige.Engine/Dialogue/InputDialoguePart.cs:25-43 | draws the option lines of the pure layout for the current options and selection |
| InputParts.InputDialoguePart.SelectPreviousOption | Vestige.Engine/Dialogue/InputDialoguePart.cs:45-48 | moves the selection to the previous option, wrapping from the first to the last, and keeps a valid selection valid |
| InputParts.InputDialoguePart.SelectNextOption | Vestige.Engine/Dialogue/InputDialoguePart.cs:50-53 | moves the selection to the next option, wrapping; fails with division by zero iff there are no options |
| InputParts.NextStep | Vestige.Engine/Dialogue/InputDialoguePart.cs:50-53 | the next option is one further, or the first after the last |
| InputParts.SelectionStaysInRange | Vestige.Engine/Dialogue/InputDialoguePart.cs:45-53 | both moves keep a valid selection within the options |
| InputParts.SelectionWraps | Vestige.Engine/Dialogue/InputDialoguePart.cs:45-53 | up from the first option selects the last, and down from the last selects the first |
| InputParts.PreviousUndoesNext | Vestige.Engine/Dialogue/InputDialoguePart.cs:45-53 | up and down undo each other on a valid selection |
| InputParts.NextRepeatedShifts | Vestige.Engine/Dialogue/InputDialoguePart.cs:50-53 | k downs shift the selection by k, wrapping once past the end |
| InputParts.NextCycles | Vestige.Engine/Dialogue/InputDialoguePart.cs:50-53 | as many downs as there are options return to the same selection |
| InputParts.PreviousOnEmptyList | Vestige.Engine/Dialogue/InputDialoguePart.cs:45-48 | up on an empty option list selects -1 |
| InputParts.OnlySelectedLineIsRed | Vestige.Engine/Dialogue/InputDialoguePart.cs:30-42 | one line per option, in order, red iff it is the selected one |
| InputParts.LinesEvenlySpaced | Vestige.Engine/Dialogue/InputDialoguePart.cs:35-36 | lines share the centre's x and are one font height apart |
| InputParts.BlockCentred | Vestige.Engine/Dialogue/InputDialoguePart.cs:27-28 | with an even font height the block of lines is centred on the bubble centre |
| LegacyDialogParts.NewDialogPart | Vestige.Engine/Dialogue/DialoguePart.cs:14-24 | the record keeps message and direction; an omitted left character faces Right and an omitted right character faces Left |
| LegacyDialogParts.DefaultsFaceEachOther | Vestige.Engine/Dialogue/DialoguePart.cs:17-18 | with both characters omitted they face each other |
| Speech.CalculateFormattedText | Vestige.Engine/Core/SpeechSystem.cs:232-236 | the display text is the part's message text unchanged |
| Speech.DialogSystem.constructor | Vestige.Engine/Core/SpeechSystem.cs:31-36 | a new system is hidden and still, with no messages and no display text |
| Speech.DialogSystem.ShowText | Vestige.Engine/Core/SpeechSystem.cs:66-90 | no-op when shown; otherwise installs the three-part script, opens at index 0 with offset 240 and blackout 0, and displays the first message |
| Speech.DialogSystem.AdvanceText | Vestige.Engine/Core/SpeechSystem.cs:95-111 | steps the state as the pure advance, keeping the script and the invariant that the display text is the indexed message |
| Speech.DialogSystem.Update | Vestige.Engine/Core/SpeechSystem.cs:117-155 | steps the state as the pure update; the script and display text are never cleared |
| Speech.DialogSystem.OnAnimationFinished | Vestige.Engine/Core/SpeechSystem.cs:241-247 | hides the dialogue iff the index is on the last message |
| Speech.DialogSystem.Draw | Vestige.Engine/Core/SpeechSystem.cs:161-191 | draws nothing when hidden; otherwise the frame of the indexed part and the display text |
| Speech.ShowSpeechOk | Vestige.Engine/Core/SpeechSystem.cs:66-90 | opening establishes the invariant |
| Speech.AdvanceSpeechOk | Vestige.Engine/Core/SpeechSystem.cs:95-111 | advancing keeps the invariant and moves the index by at most one |
| Speech.SpeechAnimationFrame | Vestige.Engine/Core/SpeechSystem.cs:124-142 | a frame adds dt / 0.5 to the progress; the animation opens iff the index is 0 and closes otherwise |
| Speech.SpeechSettle | Vestige.Engine/Core/SpeechSystem.cs:143-154 | a settle hides the dialogue iff the index is the last one and always resets the visuals |
| Speech.UpdateSpeechOk | Vestige.Engine/Core/SpeechSystem.cs:117-155 | every update keeps the invariant |
| Speech.StillAll | Vestige.Engine/Core/SpeechSystem.cs:143-154 | a still dialogue is unchanged by any run of updates |
| Speech.SpeechAnimationCompletes | Vestige.Engine/Core/SpeechSystem.cs:124-154 | after 0.5 s of non-negative frame time the next update settles |
| Speech.AdvanceReachesLast | Vestige.Engine/Core/SpeechSystem.cs:102-105 | k advances from a still dialogue move the index by exactly k up to the last message |
| Speech.SinglePartCloses | Vestige.Engine/Core/SpeechSystem.cs:241-247 | a one-part script closes as soon as its opening animation settles |
| Speech.Conversation | Vestige.Engine/Core/SpeechSystem.cs:66-155 | open, settle, advance through the script, close and settle: the dialogue ends hidden on the last index |
| Speech.ScriptScenes | Vestige.Engine/Core/SpeechSystem.cs:74-78 | of the script's three parts, all show the left character unmirrored, only the last also shows the right character, and only the last has a mirrored bubble |
| Speech.SpeechFrameLayout | Vestige.Engine/Core/SpeechSystem.cs:161-207 | characters drawn iff visible (right one mirrored), the bubble always, mirrored iff not Left, then the display text in black |
| Tiles.TilesPerRow | Vestige.Engine/Core/TileSystem.cs:86-91 | the tiles per atlas row never overrun the sheet width |
| Tiles.GetTilePosition | Vestige.Engine/Core/TileSystem.cs:75-111 | ids below 1 give (-1, -1); any other result is a non-negative multiple of 24 in both coordinates |
| Tiles.TilesWrapIntoRows | Vestige.Engine/Core/TileSystem.cs:89-101 | a placed id's column is its zero-based index modulo the tiles per row and its row the quotient, so tiles wrap onto the next row; the whole tile lies inside the sheet width and its top inside the sheet height |
| Tiles.OnlyRowsOverflow | Vestige.Engine/Core/TileSystem.cs:103-108 | the sheet-width test never fires: a positive id gives (-1, -1) iff its row lies below the sheet height |
| Tiles.TilePositionRoundTrip | Vestige.Engine/Core/TileSystem.cs:89-101 | the id is recovered from the position of every placed tile |
| Tiles.DistinctTilesDistinctPositions | Vestige.Engine/Core/TileSystem.cs:89-101 | distinct ids never share an atlas tile |
| Tiles.TileAt | Vestige.Engine/Core/TileSystem.cs:55 | every cell (x, y) of the grid is a stored id |
| Tiles.PositionCell | Vestige.Engine/Core/TileSystem.cs:55 | every flat position is the cell (position % width, position / width) |
| Tiles.ColumnDrawsExact | Vestige.Engine/Core/TileSystem.cs:53-71 | a column's draws are exactly the commands of its drawable cells |
| Tiles.GridDrawsExact | Vestige.Engine/Core/TileSystem.cs:51-72 | the covered columns' draws are exactly the commands of their drawable cells |
| Tiles.DrawsExactlyDrawableCells | Vestige.Engine/Core/TileSystem.cs:51-72 | a command is drawn iff it is the command of some in-grid, non-blank cell whose id has an atlas tile |
| Tiles.AddedTileDrawn | Vestige.Engine/Core/TileSystem.cs:40 | a tile written at a position is drawn at the cell of that position when it has an atlas tile |
| Tiles.TileSystem.constructor | Vestige.Engine/Core/TileSystem.cs:14-15 | a new tile system has no grid and no sheet |
| Tiles.TileSystem.Initialize | Vestige.Engine/Core/TileSystem.cs:19-26 | places the grid and allocates width * height blank cells |
| Tiles.TileSystem.AddTile | Vestige.Engine/Core/TileSystem.cs:28-41 | without a grid or for an id outside 0..width * height nothing changes; otherwise exactly the one cell is written |
| Tiles.TileSystem.Draw | Vestige.Engine/Core/TileSystem.cs:43-73 | nothing without a sheet or with an empty grid; otherwise the draws of every cell, x outer and y inner |
| Tiles.TileSystem.DrawCell | Vestige.Engine/Core/TileSystem.cs:55-70 | one cell draws nothing when blank or without an atlas tile, else its 24-pixel square from the atlas |
| Animation.Updated | Vestige.Engine/Core/AnimatedObject.cs:60-75 | an update never changes the sheet, offset, position or frame counts |
| Animation.AtMostOneAdvance | Vestige.Engine/Core/AnimatedObject.cs:68-74 | the frame advances by one and the time resets iff the accumulated time passes 250 ms; otherwise the time just accumulates |
| Animation.FrameStaysInAnimation | Vestige.Engine/Core/AnimatedObject.cs:72 | with a positive frame count the frame stays within the animation |
| Animation.FrameSizeMeasuredOnce | Vestige.Engine/Core/AnimatedObject.cs:62-66 | while a sheet is set and both sides of the frame size are 0, every update measures the size as the sheet size over the frame counts (again on each update while the result stays 0 by 0); once either side is non-zero the size never changes |
| Animation.FrameHolds | Vestige.Engine/Core/AnimatedObject.cs:68-74 | within 250 ms of steady updates the frame holds and the time accumulates |
| Animation.FrameEndsAfter | Vestige.Engine/Core/AnimatedObject.cs:68-74 | the first steady update that passes 250 ms moves to the next frame and resets the time |
| Animation.SteadyFrameRate | Vestige.Engine/Core/AnimatedObject.cs:12 | at a steady frame time each frame lasts exactly 250 ms / elapsed + 1 updates |
| Animation.FrameSourceCell | Vestige.Engine/Core/AnimatedObject.cs:83-86 | the source region is the frame's cell (column frame % VerticalFrames, row frame / VerticalFrames, width and height swapped as written), and the frame is recovered from it |
| Animation.FramesHaveDistinctSources | Vestige.Engine/Core/AnimatedObject.cs:83-86 | different frames are drawn from different regions |
| Animation.AnimatedObject.constructor | Vestige.Engine/Core/AnimatedObject.cs:20-49 | a new object is on frame 0 with no time, no sheet, offset 0 and four frames in a 4 x 4 sheet |
| Animation.AnimatedObject.Update | Vestige.Engine/Core/AnimatedObject.cs:60-75 | steps the object as the pure update |
| Animation.AnimatedObject.Draw | Vestige.Engine/Core/AnimatedObject.cs:81-88 | draws the current frame's source region of the sheet at the position, untinted |
| Numerics.TruncDiv | Vestige.Engine/Core/AnimatedObject.cs:64-65 | C# integer division: the quotient truncated toward zero |
| Numerics.TruncRem | Vestige.Engine/Core/AnimatedObject.cs:72 | C# remainder: the remainder of truncated division, with the sign of the dividend |
| Numerics.Truncate | Vestige.Engine/Dialogue/DialogueSystem.cs:196 | C# float-to-int cast: truncation toward zero |
| Graphics.Lerp | Vestige.Engine/Dialogue/DialogueSystem.cs:156-157 | MathHelper.Lerp gives its first end at 0 and its second at 1 |

## Left out

- **Files and I/O.** `XDocument.Load`, the script's file name and the console message on a failed load are not modelled. The loader takes an already-parsed document, which is either a load failure or a root element.
- **Text and attributes.** Element text is taken as given; XML entity handling and mixed content are not modelled.
- **`Enum.TryParse` leniency.** Its numeric, whitespace-padded and comma-list forms are not modelled. Only exact case-sensitive names parse.
- **Floating point.** `float` values are exact reals, so IEEE rounding and overflow are not modelled. `MathHelper.Lerp` is unclamped, as in MonoGame.
- **Integer width.** C# `int`/`long` are unbounded here, so 32-bit overflow is not modelled. This covers `w * h` in `TileSystem`, accumulated ticks, and pixel arithmetic.
- **Time.** `GameTime` becomes its elapsed time: seconds as a real for the dialogue systems, and 100 ns ticks for `AnimatedObject`.
- **Drawing.**
  - SpriteBatch and SpriteFont calls are recorded as draw commands instead of being executed.
  - `MeasureString` is a function supplied with the font.
  - The shade colour `Color(Black, 0.5) * blackoutScale` is a `Shade(blackoutScale)` tint.
  - Null textures and fonts in the dialogue overlays are not modelled: the overlay assets are passed as values.
- **Text line placement.** The abstract base class `Vestige.Engine.Dialogue.DialoguePart` and its `DrawTextLine` are not part of this model. A line of text is recorded with its anchor and colour, and its placement relative to the anchor is not modelled.
- **Program shell.** `GameRunner`, `EditorRunner`, `Main`, the keyboard and mouse handlers, `Overworld` and `OverworldObject` are not modelled. They are the game loop, window, input and world wiring around the core.
- **`Overworld`'s three-argument `AddTile`.** The `TileSystem` shown here has no such overload, so it is not modelled.
- **Crashes.** Most exceptions are preconditions, not modelled errors:
  - an `AddTile` position outside the array
  - a negative `Initialize` size
  - a zero divisor in `GetTilePosition` or `AnimatedObject`
  - a null sheet in `AnimatedObject.Draw`

  Two crashes are returned as flags that callers can observe instead:
  - `ShowText` on an empty or failed load
  - `SelectNextOption` on an empty option list
- Tiles.TileSystem.Draw: its precondition asks for a sheet with at least one whole tile per row whenever any stored id is positive. The source only needs this for ids it actually reads. The two differ only for a grid whose width and height are both negative, where no cell is read.
- **`GetTilePosition`'s spacing.** The per-tile spacing value it computes and then discards is not modelled.
- **Object identity.** Only choice parts keep object identity, because they are the only part objects that change after loading. Text parts, records and tile ids are values.

## Notes

- **Aliasing.** `currentDialogPart` and `messages[currentMessageIndex]` are the same object. A selection change is therefore proved visible through both (`HandleMoveUpInteraction`, `HandleMoveDownInteraction`).
- **Close does not clear the current part.** A closing settle does not clear `currentDialogPart` (`Dialogue.DialogueSystem.Update` keeps it).
- **The indicator.** It reads "Next" before the last part and "End" on it.
- **Speech script invariant.** `DialogSystem`'s invariant needs a script of at least two parts while the dialogue is shown and still. A one-part script never comes to rest open: the settle of its opening animation closes it (`Speech.SinglePartCloses`).
