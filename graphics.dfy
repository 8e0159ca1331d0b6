/** The rendering substrate seen from the game: MonoGame's value types (Vector2, Point, Rectangle),
    the textures and font it hands over, and SpriteBatch calls recorded as draw commands instead of
    being executed. */
module Graphics {
  import opened Wrappers
  import opened Numerics

  /** A Vector2: float coordinates, taken as exact reals. */
  datatype Vec = Vec(x: real, y: real)

  /** A Point: integer coordinates. */
  datatype Point = Point(x: int, y: int)

  /** A Rectangle: integer position and size. */
  datatype Rect = Rect(x: int, y: int, width: int, height: int)
  {
    function Bottom(): int { y + height }
    function Right(): int { x + width }
    /** `Center.X` of a Rectangle: C#'s integer division, truncating toward zero for a negative width. */
    function CenterX(): int { x + TruncDiv(width, 2) }
  }

  /** A loaded Texture2D, known by an identifier and its pixel size. */
  datatype Texture = Texture(id: nat, width: nat, height: nat)

  /** A SpriteFont, known only through MeasureString. */
  datatype Font = Font(measure: string -> Vec)

  /** The tints used by the game; `Shade(s)` is the half-transparent black shade multiplied by `s`. */
  datatype Colour = White | Black | Red | SkyBlue | Shade(scale: real)

  /** One SpriteBatch call. */
  datatype DrawCommand =
      /** Draw(texture, destinationRectangle, colour) */
    | Fill(texture: Texture, dest: Rect, tint: Colour)
      /** Draw(texture, destinationRectangle, sourceRectangle, colour) */
    | Blit(texture: Texture, dest: Rect, source: Rect, tint: Colour)
      /** Draw(texture, position, sourceRectangle, colour, ..., effects, ...), unrotated and unscaled */
    | Sprite(texture: Texture, position: Vec, region: Option<Rect>, tint: Colour, flipped: bool)
      /** DrawString(font, text, position, colour) */
    | Text(text: string, position: Vec, tint: Colour)
      /** DialoguePart.DrawTextLine(spriteBatch, font, text, anchor, colour): a line of text drawn relative to
          an anchor point by the dialogue part base class, whose exact placement is not part of this model */
    | TextLine(text: string, anchor: Vec, tint: Colour)

  /** The textures, font and viewport the game hands to a dialogue overlay. */
  datatype OverlayAssets = OverlayAssets(blankTexture: Texture, speechBubble: Texture, debugCharacter: Texture,
                                         font: Font, viewport: Rect)

  /** The total of a run of frame times. */
  function Sum(dts: seq<real>): real
  {
    if dts == [] then 0.0 else dts[0] + Sum(dts[1..])
  }

  /** MathHelper.Lerp(a, b, t) = a + (b - a) * t, unclamped. */
  function Lerp(a: real, b: real, t: real): (r: real)
    ensures t == 0.0 ==> r == a
    ensures t == 1.0 ==> r == b
  {
    a + (b - a) * t
  }
}
