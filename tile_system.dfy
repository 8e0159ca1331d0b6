/** Vestige.Engine.Core.TileSystem: a width-by-height grid of tile ids stored row after row in a flat array,
    drawn from a sprite-sheet atlas of 24-pixel tiles. Id 0 is the blank tile; id n > 0 is the n-th atlas
    tile, counting along the rows of the sheet. */
module Tiles {
  import opened Wrappers
  import opened Graphics
  import opened Numerics

  const GridSize: int := 24
  const TileSpacing: int := 1

  /** The atlas tiles per row: the sheet width less one pixel of padding per full 24-pixel column, in whole
      tiles. (Widths are never negative, so C# and Dafny division agree here.) */
  function TilesPerRow(imageWidth: nat): (perRow: nat)
    ensures perRow * GridSize <= imageWidth
  {
    var paddingX := (imageWidth / GridSize) * TileSpacing;
    (imageWidth - paddingX) / GridSize
  }

  /** The marker GetTilePosition returns for "no tile": `new Point(-1)`. */
  const NoTile: Point := Point(-1, -1)

  /** GetTilePosition: the top-left pixel of atlas tile `tileId` (1-based), or NoTile for an id below 1 or a
      tile that falls outside the sheet. Throws (division by zero) for a positive id on a sheet with no whole
      tile per row, which the precondition excludes. */
  function GetTilePosition(tileId: int, imageWidth: nat, imageHeight: nat): (p: Point)
    requires tileId <= 0 || TilesPerRow(imageWidth) > 0
    ensures tileId <= 0 ==> p == NoTile
    ensures p == NoTile || (0 <= p.x && 0 <= p.y && p.x % GridSize == 0 && p.y % GridSize == 0)
  {
    var normalisedId := tileId - 1;
    if normalisedId < 0 then NoTile
    else
      var perRow := TilesPerRow(imageWidth);
      var row := normalisedId / perRow;
      var column := normalisedId - row * perRow;
      RowAndColumn(normalisedId, perRow);
      GridMultiple(row);
      GridMultiple(column);
      var location := Point(column * GridSize, row * GridSize);
      if location.x > imageWidth || location.y > imageHeight then NoTile else location
  }

  /** Splitting an id into a row and a column of `perRow` tiles. */
  lemma RowAndColumn(n: nat, perRow: nat)
    requires perRow > 0
    ensures n / perRow >= 0 && n - (n / perRow) * perRow == n % perRow
    ensures 0 <= n % perRow < perRow
  {
  }

  lemma GridMultiple(k: int)
    ensures k * GridSize == k * 24
    ensures (k * GridSize) % GridSize == 0 && (k * GridSize) / GridSize == k
    ensures k >= 0 ==> k * GridSize >= 0
  {
  }

  /** The inverse of GetTilePosition: the id of the atlas tile whose top-left pixel is `p`. */
  function TileIdAt(p: Point, imageWidth: nat): int
  {
    (p.y / GridSize) * TilesPerRow(imageWidth) + p.x / GridSize + 1
  }

  lemma ColumnFitsSheet(normalisedId: nat, perRow: nat, imageWidth: nat)
    requires 0 < perRow && perRow * GridSize <= imageWidth
    ensures var row := normalisedId / perRow;
      0 <= normalisedId - row * perRow < perRow && (normalisedId - row * perRow) * GridSize + GridSize <= imageWidth
  {
    RowAndColumn(normalisedId, perRow);
    var column := normalisedId % perRow;
    MulMonotone(column + 1, perRow, GridSize);
  }

  /** Atlas tiles are numbered row after row: a placed id's column is its zero-based index modulo the tiles
      per row and its row the quotient, so ids wrap onto the next row once a row of the sheet is full, and
      the whole tile lies inside the sheet's width with its top inside its height. */
  lemma TilesWrapIntoRows(tileId: int, imageWidth: nat, imageHeight: nat)
    requires tileId > 0 && TilesPerRow(imageWidth) > 0
    ensures var p := GetTilePosition(tileId, imageWidth, imageHeight);
      var perRow := TilesPerRow(imageWidth);
      p != NoTile ==>
        && p == Point(((tileId - 1) % perRow) * GridSize, ((tileId - 1) / perRow) * GridSize)
        && p.x + GridSize <= imageWidth && p.y <= imageHeight
  {
    RowAndColumn(tileId - 1, TilesPerRow(imageWidth));
    ColumnFitsSheet(tileId - 1, TilesPerRow(imageWidth), imageWidth);
  }

  /** The sheet-width test in GetTilePosition never fires: a column index is below the tiles per row, so
      its pixel x lies inside the sheet. A positive id is therefore lost only below the bottom of the sheet. */
  lemma OnlyRowsOverflow(tileId: int, imageWidth: nat, imageHeight: nat)
    requires tileId > 0 && TilesPerRow(imageWidth) > 0
    ensures var p := GetTilePosition(tileId, imageWidth, imageHeight);
      p == NoTile <==> ((tileId - 1) / TilesPerRow(imageWidth)) * GridSize > imageHeight
  {
    ColumnFitsSheet(tileId - 1, TilesPerRow(imageWidth), imageWidth);
  }

  /** Every positive id GetTilePosition places is recovered from its position. */
  lemma TilePositionRoundTrip(tileId: int, imageWidth: nat, imageHeight: nat)
    requires tileId > 0 && TilesPerRow(imageWidth) > 0
    requires GetTilePosition(tileId, imageWidth, imageHeight) != NoTile
    ensures TileIdAt(GetTilePosition(tileId, imageWidth, imageHeight), imageWidth) == tileId
  {
    var perRow := TilesPerRow(imageWidth);
    var n := tileId - 1;
    var row := n / perRow;
    var column := n - row * perRow;
    ColumnFitsSheet(n, perRow, imageWidth);
    RowAndColumn(n, perRow);
    GridMultiple(row);
    GridMultiple(column);
  }

  /** Hence distinct ids never share an atlas tile. */
  lemma DistinctTilesDistinctPositions(a: int, b: int, imageWidth: nat, imageHeight: nat)
    requires a > 0 && b > 0 && a != b && TilesPerRow(imageWidth) > 0
    requires GetTilePosition(a, imageWidth, imageHeight) != NoTile
    ensures GetTilePosition(a, imageWidth, imageHeight) != GetTilePosition(b, imageWidth, imageHeight)
  {
    TilePositionRoundTrip(a, imageWidth, imageHeight);
    if GetTilePosition(b, imageWidth, imageHeight) != NoTile {
      TilePositionRoundTrip(b, imageWidth, imageHeight);
    }
  }

  // ---------------------------------------------------------------------------------------------
  // What Draw emits

  /** A cell is drawn unless it is blank or its id has no atlas tile. */
  predicate Drawable(tileId: int, imageWidth: nat, imageHeight: nat)
    requires tileId <= 0 || TilesPerRow(imageWidth) > 0
  {
    tileId != 0 &&
    var p := GetTilePosition(tileId, imageWidth, imageHeight);
    p.x != -1 && p.y != -1
  }

  /** The draw for cell (x, y) holding `tileId`: its 24-pixel square on screen, offset by the grid's top-left
      corner, from the tile's square in the atlas. */
  function CellCommand(sheet: Texture, topLeft: Point, x: int, y: int, tileId: int): DrawCommand
    requires tileId <= 0 || TilesPerRow(sheet.width) > 0
  {
    var p := GetTilePosition(tileId, sheet.width, sheet.height);
    Blit(sheet, Rect(x * GridSize + topLeft.x, y * GridSize + topLeft.y, GridSize, GridSize),
         Rect(p.x, p.y, GridSize, GridSize), White)
  }

  /** Every id in the grid can be looked up: the atlas has a whole tile per row, or no id is positive. */
  predicate Computable(tiles: seq<int>, sheet: Texture)
  {
    TilesPerRow(sheet.width) > 0 || forall i :: 0 <= i < |tiles| ==> tiles[i] <= 0
  }

  lemma CellInGrid(x: int, y: int, w: int, h: int)
    requires 0 <= x < w && 0 <= y < h
    ensures 0 <= x + y * w < w * h
  {
    MulMonotone(y + 1, h, w);
    assert (y + 1) * w == y * w + w;
    assert h * w == w * h;
    MulMonotone(0, y, w);
  }

  /** The id in cell (x, y) of a grid stored row after row. */
  function TileAt(tiles: seq<int>, w: int, h: int, x: int, y: int): (t: int)
    requires |tiles| == w * h && 0 <= x < w && 0 <= y < h
    ensures t in tiles
  {
    CellInGrid(x, y, w, h);
    tiles[x + y * w]
  }

  function CellDraws(tiles: seq<int>, w: int, h: int, sheet: Texture, topLeft: Point, x: int, y: int): seq<DrawCommand>
    requires |tiles| == w * h && Computable(tiles, sheet)
    requires 0 <= x < w && 0 <= y < h
  {
    var tileId := TileAt(tiles, w, h, x, y);
    if Drawable(tileId, sheet.width, sheet.height) then [CellCommand(sheet, topLeft, x, y, tileId)] else []
  }

  /** The draws of column x, rows 0 up to `rows`, top to bottom. */
  function ColumnDraws(tiles: seq<int>, w: int, h: int, sheet: Texture, topLeft: Point, x: int, rows: int): seq<DrawCommand>
    requires |tiles| == w * h && Computable(tiles, sheet)
    requires 0 <= x < w && 0 <= rows <= h
  {
    if rows == 0 then []
    else ColumnDraws(tiles, w, h, sheet, topLeft, x, rows - 1) + CellDraws(tiles, w, h, sheet, topLeft, x, rows - 1)
  }

  /** The draws of columns 0 up to `columns`, left to right, each top to bottom. */
  function GridDraws(tiles: seq<int>, w: int, h: int, sheet: Texture, topLeft: Point, columns: int): seq<DrawCommand>
    requires |tiles| == w * h && Computable(tiles, sheet)
    requires 0 <= columns <= w && 0 <= h
  {
    if columns == 0 then []
    else GridDraws(tiles, w, h, sheet, topLeft, columns - 1) + ColumnDraws(tiles, w, h, sheet, topLeft, columns - 1, h)
  }

  /** Draw, for a sheet and a non-empty grid: every cell, column by column. */
  function AllDraws(tiles: seq<int>, w: int, h: int, sheet: Texture, topLeft: Point): seq<DrawCommand>
    requires |tiles| == w * h && Computable(tiles, sheet)
  {
    if w <= 0 || h <= 0 then [] else GridDraws(tiles, w, h, sheet, topLeft, w)
  }

  /** A column's draws are exactly the commands of its drawable cells among the rows covered. */
  lemma {:induction false} ColumnDrawsExact(tiles: seq<int>, w: int, h: int, sheet: Texture, topLeft: Point, x: int, rows: int)
    requires |tiles| == w * h && Computable(tiles, sheet)
    requires 0 <= x < w && 0 <= rows <= h
    ensures forall c :: c in ColumnDraws(tiles, w, h, sheet, topLeft, x, rows) <==>
      exists y :: 0 <= y < rows && Drawable(TileAt(tiles, w, h, x, y), sheet.width, sheet.height)
                  && c == CellCommand(sheet, topLeft, x, y, TileAt(tiles, w, h, x, y))
  {
    if rows > 0 {
      ColumnDrawsExact(tiles, w, h, sheet, topLeft, x, rows - 1);
    }
  }

  /** The grid's draws are exactly the commands of its drawable cells among the columns covered. */
  lemma {:induction false} GridDrawsExact(tiles: seq<int>, w: int, h: int, sheet: Texture, topLeft: Point, columns: int)
    requires |tiles| == w * h && Computable(tiles, sheet)
    requires 0 <= columns <= w && 0 <= h
    ensures forall c :: c in GridDraws(tiles, w, h, sheet, topLeft, columns) <==>
      exists x, y :: 0 <= x < columns && 0 <= y < h && Drawable(TileAt(tiles, w, h, x, y), sheet.width, sheet.height)
                     && c == CellCommand(sheet, topLeft, x, y, TileAt(tiles, w, h, x, y))
  {
    if columns > 0 {
      GridDrawsExact(tiles, w, h, sheet, topLeft, columns - 1);
      ColumnDrawsExact(tiles, w, h, sheet, topLeft, columns - 1, h);
      var earlier := GridDraws(tiles, w, h, sheet, topLeft, columns - 1);
      var last := ColumnDraws(tiles, w, h, sheet, topLeft, columns - 1, h);
      forall c
        ensures c in earlier + last <==>
          exists x, y :: 0 <= x < columns && 0 <= y < h && Drawable(TileAt(tiles, w, h, x, y), sheet.width, sheet.height)
                         && c == CellCommand(sheet, topLeft, x, y, TileAt(tiles, w, h, x, y))
      {
        if exists x, y :: 0 <= x < columns && 0 <= y < h && Drawable(TileAt(tiles, w, h, x, y), sheet.width, sheet.height)
                          && c == CellCommand(sheet, topLeft, x, y, TileAt(tiles, w, h, x, y)) {
          var x, y :| 0 <= x < columns && 0 <= y < h && Drawable(TileAt(tiles, w, h, x, y), sheet.width, sheet.height)
                      && c == CellCommand(sheet, topLeft, x, y, TileAt(tiles, w, h, x, y));
          if x < columns - 1 {
            assert c in earlier;
          } else {
            assert c in last;
          }
        }
      }
    }
  }

  /** Draw emits one command per drawable cell and nothing else: a command is drawn iff it is the command
      of some in-grid cell that is drawable. */
  lemma DrawsExactlyDrawableCells(tiles: seq<int>, w: int, h: int, sheet: Texture, topLeft: Point)
    requires |tiles| == w * h && Computable(tiles, sheet)
    ensures forall c :: c in AllDraws(tiles, w, h, sheet, topLeft) <==>
      exists x, y :: 0 <= x < w && 0 <= y < h && Drawable(TileAt(tiles, w, h, x, y), sheet.width, sheet.height)
                     && c == CellCommand(sheet, topLeft, x, y, TileAt(tiles, w, h, x, y))
  {
    if w > 0 && h > 0 {
      GridDrawsExact(tiles, w, h, sheet, topLeft, w);
    }
  }

  /** Flat position `position` is cell (position % w, position / w) of a grid of width w. */
  lemma PositionCell(position: int, w: int, h: int)
    requires w > 0 && 0 <= position < w * h
    ensures 0 <= position % w < w && 0 <= position / w < h
    ensures position % w + (position / w) * w == position
  {
    var q := position / w;
    if q >= h {
      MulMonotone(h, q, w);
      assert false;
    }
  }

  /** A tile AddTile writes at `position` is drawn in the cell that position denotes, when it has an atlas
      tile. */
  lemma AddedTileDrawn(tiles: seq<int>, w: int, h: int, sheet: Texture, topLeft: Point, position: int, tileId: int)
    requires |tiles| == w * h && w > 0 && 0 <= position < |tiles|
    requires Computable(tiles[position := tileId], sheet)
    requires TilesPerRow(sheet.width) > 0 && Drawable(tileId, sheet.width, sheet.height)
    ensures CellCommand(sheet, topLeft, position % w, position / w, tileId)
            in AllDraws(tiles[position := tileId], w, h, sheet, topLeft)
  {
    var updated := tiles[position := tileId];
    PositionCell(position, w, h);
    var x, y := position % w, position / w;
    assert TileAt(updated, w, h, x, y) == tileId;
    DrawsExactlyDrawableCells(updated, w, h, sheet, topLeft);
  }

  // ---------------------------------------------------------------------------------------------
  // The system

  class TileSystem {
    var gridHeight: int
    var gridWidth: int
    var topLeft: Point
    var tileArray: array?<int>
    var spriteSheet: Option<Texture>

    /** The array, when present, has one cell per grid position. */
    ghost predicate Valid()
      reads this
    {
      tileArray != null ==> tileArray.Length == gridWidth * gridHeight
    }

    function ImageWidth(): nat
      reads this
    {
      if spriteSheet.Some? then spriteSheet.value.width else 0
    }

    function ImageHeight(): nat
      reads this
    {
      if spriteSheet.Some? then spriteSheet.value.height else 0
    }

    constructor ()
      ensures Valid() && tileArray == null && spriteSheet.None?
    {
      gridHeight := 0;
      gridWidth := 0;
      topLeft := Point(0, 0);
      tileArray := null;
      spriteSheet := Option.None;
    }

    /** Initialize: places the grid and allocates width * height blank cells (a negative size throws). */
    method Initialize(x: int, y: int, w: int, h: int)
      requires w * h >= 0
      modifies this
      ensures Valid()
      ensures topLeft == Point(x, y) && gridWidth == w && gridHeight == h && spriteSheet == old(spriteSheet)
      ensures tileArray != null && fresh(tileArray)
      ensures forall i :: 0 <= i < tileArray.Length ==> tileArray[i] == 0
    {
      topLeft := Point(x, y);
      gridWidth := w;
      gridHeight := h;
      tileArray := new int[w * h](_ => 0);
    }

    /** AddTile: ignored without a grid or for an id outside 0..width * height (the grid's cell count, not
        the atlas size); otherwise writes the id into the cell at `position`, which is not checked. */
    method AddTile(position: int, tileId: int)
      requires tileArray != null && 0 <= tileId <= gridWidth * gridHeight ==> 0 <= position < tileArray.Length
      modifies tileArray
      ensures tileArray == old(tileArray)
      ensures tileArray != null ==>
        tileArray[..] == if tileId < 0 || tileId > gridWidth * gridHeight then old(tileArray[..])
                         else old(tileArray[..])[position := tileId]
    {
      if tileArray == null {
        return;
      }
      if tileId < 0 || tileId > gridWidth * gridHeight {
        return;
      }
      tileArray[position] := tileId;
    }

    /** Draw: nothing without a sheet or a non-empty grid; otherwise the draws of every cell, x outer and
        y inner, skipping blank cells and ids with no atlas tile. */
    method Draw() returns (cmds: seq<DrawCommand>)
      requires Valid()
      requires spriteSheet.Some? && tileArray != null ==> Computable(tileArray[..], spriteSheet.value)
      ensures spriteSheet.None? || tileArray == null || tileArray.Length == 0 ==> cmds == []
      ensures spriteSheet.Some? && tileArray != null ==>
        cmds == AllDraws(tileArray[..], gridWidth, gridHeight, spriteSheet.value, topLeft)
    {
      if spriteSheet.None? || tileArray == null || tileArray.Length == 0 {
        if spriteSheet.Some? && tileArray != null {
          assert gridWidth <= 0 || gridHeight <= 0 || gridWidth * gridHeight > 0;
        }
        return [];
      }
      var sheet := spriteSheet.value;
      ghost var tiles := tileArray[..];
      cmds := [];
      if gridWidth <= 0 || gridHeight <= 0 {
        return;
      }
      var xpos := 0;
      while xpos < gridWidth
        invariant 0 <= xpos <= gridWidth
        invariant cmds == GridDraws(tiles, gridWidth, gridHeight, sheet, topLeft, xpos)
      {
        var ypos := 0;
        while ypos < gridHeight
          invariant 0 <= ypos <= gridHeight
          invariant cmds == GridDraws(tiles, gridWidth, gridHeight, sheet, topLeft, xpos)
                            + ColumnDraws(tiles, gridWidth, gridHeight, sheet, topLeft, xpos, ypos)
        {
          var cell := DrawCell(xpos, ypos);
          cmds := cmds + cell;
          ypos := ypos + 1;
        }
        xpos := xpos + 1;
      }
    }

    /** One iteration of Draw's inner loop: the draw of cell (xpos, ypos), if any. */
    method DrawCell(xpos: int, ypos: int) returns (cell: seq<DrawCommand>)
      requires Valid() && tileArray != null && spriteSheet.Some? && Computable(tileArray[..], spriteSheet.value)
      requires 0 <= xpos < gridWidth && 0 <= ypos < gridHeight
      ensures cell == CellDraws(tileArray[..], gridWidth, gridHeight, spriteSheet.value, topLeft, xpos, ypos)
    {
      CellInGrid(xpos, ypos, gridWidth, gridHeight);
      var tileId := tileArray[xpos + ypos * gridWidth];
      assert tileId == TileAt(tileArray[..], gridWidth, gridHeight, xpos, ypos);
      cell := [];
      if tileId != 0 {
        var location := GetTilePosition(tileId, ImageWidth(), ImageHeight());
        if location.x != -1 && location.y != -1 {
          var outputArea := Rect(xpos * GridSize + topLeft.x, ypos * GridSize + topLeft.y, GridSize, GridSize);
          cell := [Blit(spriteSheet.value, outputArea, Rect(location.x, location.y, GridSize, GridSize), White)];
        }
      }
    }
  }
}
