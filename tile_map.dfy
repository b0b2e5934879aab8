// The level grid: construction from raw ids, bounds-checked lookup by
// cell and by pixel, and the "solid tiles near a box" window query used
// by the collision resolver.

module TileMaps {
  import opened Wrappers
  import opened MathUtil
  import opened Tiles

  /**
   * The id read for a cell past the end of a short row. In the source the
   * lookup yields `undefined`, which is neither solid nor a spike; -1 has
   * the same meaning here.
   */
  const MISSING: int := -1

  function CellId(data: seq<seq<int>>, row: nat, col: nat): int
    requires row < |data|
  {
    if col < |data[row]| then data[row][col] else MISSING
  }

  datatype TileMap = TileMap(theme: string, rows: nat, cols: nat,
                             widthPx: int, heightPx: int, tiles: seq<seq<Tile>>)

  /** Every grid cell holds the tile made for that cell. */
  predicate WellFormed(m: TileMap)
  {
    |m.tiles| == m.rows &&
    m.widthPx == m.cols * TILE_SIZE && m.heightPx == m.rows * TILE_SIZE &&
    (forall r :: 0 <= r < m.rows ==> |m.tiles[r]| == m.cols) &&
    (forall r, c :: 0 <= r < m.rows && 0 <= c < |m.tiles[r]| ==>
       m.tiles[r][c] == MakeTile(m.tiles[r][c].id, c, r))
  }

  /** `theme || 'kitchen'`: the empty string stands for a missing theme. */
  function ThemeOrDefault(theme: string): string
  {
    if theme == "" then "kitchen" else theme
  }

  /** The grid the constructor builds, cell by cell. */
  function TileMapOf(data: seq<seq<int>>, theme: string): (m: TileMap)
    requires |data| > 0
    ensures WellFormed(m)
    ensures m.rows == |data| && m.cols == |data[0]|
    ensures m.widthPx == |data[0]| * 32 && m.heightPx == |data| * 32
    ensures forall r, c :: 0 <= r < m.rows && 0 <= c < m.cols ==> m.tiles[r][c].id == CellId(data, r, c)
    ensures m.theme != ""
  {
    var cols := |data[0]|;
    TileMap(ThemeOrDefault(theme), |data|, cols, cols * TILE_SIZE, |data| * TILE_SIZE,
            seq(|data|, r requires 0 <= r < |data| =>
              seq(cols, c requires 0 <= c < cols => MakeTile(CellId(data, r, c), c, r))))
  }

  /** The constructor's nested loops. The source reads `data[0]`, so data is not empty. */
  method NewTileMap(data: seq<seq<int>>, theme: string) returns (m: TileMap)
    requires |data| > 0
    ensures m == TileMapOf(data, theme)
  {
    var rows := |data|;
    var cols := |data[0]|;
    var tiles: seq<seq<Tile>> := [];
    var row := 0;
    while row < rows
      invariant 0 <= row <= rows && |tiles| == row
      invariant forall r :: 0 <= r < row ==> tiles[r] == TileMapOf(data, theme).tiles[r]
    {
      var line: seq<Tile> := [];
      var col := 0;
      while col < cols
        invariant 0 <= col <= cols && |line| == col
        invariant forall c :: 0 <= c < col ==> line[c] == MakeTile(CellId(data, row, c), c, row)
      {
        line := line + [MakeTile(CellId(data, row, col), col, row)];
        col := col + 1;
      }
      tiles := tiles + [line];
      row := row + 1;
    }
    m := TileMap(ThemeOrDefault(theme), rows, cols, cols * TILE_SIZE, rows * TILE_SIZE, tiles);
  }

  /** `getTileAt`: null outside the grid. */
  function GetTileAt(m: TileMap, col: int, row: int): (r: Option<Tile>)
    requires WellFormed(m)
    ensures r.None? <==> !(0 <= col < m.cols && 0 <= row < m.rows)
    ensures r.Some? ==> r.value.col == col && r.value.row == row && r.value == m.tiles[row][col]
  {
    if col < 0 || col >= m.cols || row < 0 || row >= m.rows then None
    else Some(m.tiles[row][col])
  }

  /** `getTileAtPixel`: the tile whose box contains the pixel, null outside the map. */
  function GetTileAtPixel(m: TileMap, x: real, y: real): (r: Option<Tile>)
    requires WellFormed(m)
    ensures r.None? <==> !(0.0 <= x < m.widthPx as real && 0.0 <= y < m.heightPx as real)
    ensures r.Some? ==> r.value.x as real <= x < (r.value.x + TILE_SIZE) as real
    ensures r.Some? ==> r.value.y as real <= y < (r.value.y + TILE_SIZE) as real
    ensures r.Some? ==> r.value == m.tiles[FloorDiv(y, TILE_SIZE)][FloorDiv(x, TILE_SIZE)]
  {
    var col := FloorDiv(x, TILE_SIZE);
    var row := FloorDiv(y, TILE_SIZE);
    IndexInRange(x, col, m.cols);
    IndexInRange(y, row, m.rows);
    GetTileAt(m, col, row)
  }

  /** A floor-divided index lies in [0, n) iff the pixel lies in [0, 32n). */
  lemma IndexInRange(v: real, i: int, n: int)
    requires (i * TILE_SIZE) as real <= v < ((i + 1) * TILE_SIZE) as real
    ensures (0 <= i < n) <==> (0.0 <= v < (n * TILE_SIZE) as real)
  {
    if 0 <= i < n {
      assert (i + 1) * TILE_SIZE <= n * TILE_SIZE;
    }
    if 0.0 <= v < (n * TILE_SIZE) as real {
      assert (i + 1) * TILE_SIZE > 0;
      assert i * TILE_SIZE < n * TILE_SIZE;
    }
  }

  // ---- the window query ----

  datatype Window = Window(startCol: int, endCol: int, startRow: int, endRow: int)

  /** `margin || 2`: 0 (or an absent margin) means 2. */
  function EffectiveMargin(margin: int): int
  {
    if margin == 0 then 2 else margin
  }

  /** The tile window around a box, widened by the margin and clamped to the grid. */
  function NearWindow(m: TileMap, e: Rect, margin: int): (w: Window)
    ensures w.startCol >= 0 && w.endCol <= m.cols - 1
    ensures w.startRow >= 0 && w.endRow <= m.rows - 1
  {
    var mg := EffectiveMargin(margin);
    var sc := FloorDiv(e.x, TILE_SIZE) - mg;
    var ec := FloorDiv(e.x + e.width, TILE_SIZE) + mg;
    var sr := FloorDiv(e.y, TILE_SIZE) - mg;
    var er := FloorDiv(e.y + e.height, TILE_SIZE) + mg;
    Window(if sc > 0 then sc else 0, if ec < m.cols - 1 then ec else m.cols - 1,
           if sr > 0 then sr else 0, if er < m.rows - 1 then er else m.rows - 1)
  }

  /**
   * With a non-negative margin the window still spans every column and row
   * the box itself touches, clipped to the grid.
   */
  lemma NearWindowCovers(m: TileMap, e: Rect, margin: int)
    requires EffectiveMargin(margin) >= 0
    ensures var w := NearWindow(m, e, margin);
      w.startCol <= IntMax(FloorDiv(e.x, TILE_SIZE), 0) &&
      w.endCol >= IntMin(FloorDiv(e.x + e.width, TILE_SIZE), m.cols - 1) &&
      w.startRow <= IntMax(FloorDiv(e.y, TILE_SIZE), 0) &&
      w.endRow >= IntMin(FloorDiv(e.y + e.height, TILE_SIZE), m.rows - 1)
  {
  }

  /** The solid tiles of row `row`, columns c0..c1, left to right. */
  function RowSolids(m: TileMap, row: int, c0: int, c1: int): seq<Tile>
    requires WellFormed(m) && 0 <= row < m.rows && 0 <= c0 && (c0 <= c1 ==> c1 < m.cols)
    decreases c1 - c0
  {
    if c1 < c0 then []
    else RowSolids(m, row, c0, c1 - 1) + (if m.tiles[row][c1].solid then [m.tiles[row][c1]] else [])
  }

  /** The solid tiles of rows r0..r1, columns c0..c1, in row-major order. */
  function WindowSolids(m: TileMap, r0: int, r1: int, c0: int, c1: int): seq<Tile>
    requires WellFormed(m) && 0 <= r0 && (r0 <= r1 ==> r1 < m.rows)
    requires 0 <= c0 && (c0 <= c1 ==> c1 < m.cols)
    decreases r1 - r0
  {
    if r1 < r0 then []
    else WindowSolids(m, r0, r1 - 1, c0, c1) + RowSolids(m, r1, c0, c1)
  }

  predicate InWindow(t: Tile, r0: int, r1: int, c0: int, c1: int)
  {
    r0 <= t.row <= r1 && c0 <= t.col <= c1
  }

  /** Row-major order: by row, then by column, strictly. */
  predicate RowMajor(s: seq<Tile>)
  {
    forall i, j :: 0 <= i < j < |s| ==>
      s[i].row < s[j].row || (s[i].row == s[j].row && s[i].col < s[j].col)
  }

  lemma {:induction false} RowSolidsExact(m: TileMap, row: int, c0: int, c1: int)
    requires WellFormed(m) && 0 <= row < m.rows && 0 <= c0 && (c0 <= c1 ==> c1 < m.cols)
    ensures forall t :: t in RowSolids(m, row, c0, c1) <==>
      (t.solid && t.row == row && c0 <= t.col <= c1 && m.tiles[row][t.col] == t)
    ensures RowMajor(RowSolids(m, row, c0, c1))
    decreases c1 - c0
  {
    if c1 >= c0 {
      RowSolidsExact(m, row, c0, c1 - 1);
      var pre := RowSolids(m, row, c0, c1 - 1);
      var t := m.tiles[row][c1];
      assert t == MakeTile(t.id, c1, row);
      forall u | u in pre
        ensures u.col < c1
      {
      }
      assert RowSolids(m, row, c0, c1) == pre + (if t.solid then [t] else []);
      forall u
        ensures u in RowSolids(m, row, c0, c1) <==>
          (u.solid && u.row == row && c0 <= u.col <= c1 && m.tiles[row][u.col] == u)
      {
        if u.solid && u.row == row && c0 <= u.col <= c1 && m.tiles[row][u.col] == u && u.col < c1 {
          assert u in pre;
        }
      }
      if t.solid {
        forall i | 0 <= i < |pre| ensures pre[i].col < c1 && pre[i].row == row {
          assert pre[i] in pre;
        }
      }
    }
  }

  lemma {:induction false} WindowSolidsExact(m: TileMap, r0: int, r1: int, c0: int, c1: int)
    requires WellFormed(m) && 0 <= r0 && (r0 <= r1 ==> r1 < m.rows)
    requires 0 <= c0 && (c0 <= c1 ==> c1 < m.cols)
    ensures forall t :: t in WindowSolids(m, r0, r1, c0, c1) <==>
      (t.solid && InWindow(t, r0, r1, c0, c1) && m.tiles[t.row][t.col] == t)
    ensures RowMajor(WindowSolids(m, r0, r1, c0, c1))
    decreases r1 - r0
  {
    if r1 >= r0 {
      WindowSolidsExact(m, r0, r1 - 1, c0, c1);
      RowSolidsExact(m, r1, c0, c1);
      var pre := WindowSolids(m, r0, r1 - 1, c0, c1);
      var last := RowSolids(m, r1, c0, c1);
      assert WindowSolids(m, r0, r1, c0, c1) == pre + last;
      forall i, j | 0 <= i < |pre| && 0 <= j < |last|
        ensures pre[i].row < last[j].row
      {
        assert pre[i] in pre;
        assert last[j] in last;
      }
      AppendRowMajor(pre, last);
    }
  }

  lemma AppendRowMajor(a: seq<Tile>, b: seq<Tile>)
    requires RowMajor(a) && RowMajor(b)
    requires forall i, j :: 0 <= i < |a| && 0 <= j < |b| ==> a[i].row < b[j].row
    ensures RowMajor(a + b)
  {
    forall i, j | 0 <= i < j < |a + b|
      ensures (a + b)[i].row < (a + b)[j].row ||
              ((a + b)[i].row == (a + b)[j].row && (a + b)[i].col < (a + b)[j].col)
    {
      if j < |a| {
      } else if i >= |a| {
        assert (a + b)[i] == b[i - |a|] && (a + b)[j] == b[j - |a|];
      } else {
        assert (a + b)[i] == a[i] && (a + b)[j] == b[j - |a|];
      }
    }
  }

  /** The value `getSolidTilesNear` computes. */
  function SolidTilesNear(m: TileMap, e: Rect, margin: int): seq<Tile>
    requires WellFormed(m)
  {
    var w := NearWindow(m, e, margin);
    WindowSolids(m, w.startRow, w.endRow, w.startCol, w.endCol)
  }

  /**
   * `getSolidTilesNear`: exactly the solid tiles of the clamped window
   * around the box, in row-major order.
   */
  lemma SolidTilesNearExact(m: TileMap, e: Rect, margin: int)
    requires WellFormed(m)
    ensures var w := NearWindow(m, e, margin);
      forall t :: t in SolidTilesNear(m, e, margin) <==>
        (t.solid && InWindow(t, w.startRow, w.endRow, w.startCol, w.endCol) && m.tiles[t.row][t.col] == t)
    ensures RowMajor(SolidTilesNear(m, e, margin))
  {
    var w := NearWindow(m, e, margin);
    WindowSolidsExact(m, w.startRow, w.endRow, w.startCol, w.endCol);
  }

  /**
   * With a margin that does not shrink the window, every solid tile whose
   * box overlaps the query box is among the tiles returned.
   */
  lemma SolidTilesNearCovers(m: TileMap, e: Rect, margin: int, row: int, col: int)
    requires WellFormed(m) && margin >= 0
    requires 0 <= row < m.rows && 0 <= col < m.cols && m.tiles[row][col].solid
    requires RectOverlap(e, Rect((col * TILE_SIZE) as real, (row * TILE_SIZE) as real,
                                 TILE_SIZE as real, TILE_SIZE as real))
    ensures m.tiles[row][col] in SolidTilesNear(m, e, margin)
  {
    var w := NearWindow(m, e, margin);
    NearWindowCovers(m, e, margin);
    CellOfOverlap(e.x, e.width, col);
    CellOfOverlap(e.y, e.height, row);
    SolidTilesNearExact(m, e, margin);
    var t := m.tiles[row][col];
    assert t == MakeTile(t.id, col, row);
    assert InWindow(t, w.startRow, w.endRow, w.startCol, w.endCol);
  }

  /** A span [a, a + len) that meets cell i's span starts at or before i and ends at or after it. */
  lemma CellOfOverlap(a: real, len: real, i: int)
    requires a < ((i + 1) * TILE_SIZE) as real && a + len > (i * TILE_SIZE) as real
    ensures FloorDiv(a, TILE_SIZE) <= i <= FloorDiv(a + len, TILE_SIZE)
  {
    var lo := FloorDiv(a, TILE_SIZE);
    var hi := FloorDiv(a + len, TILE_SIZE);
    assert (lo * TILE_SIZE) as real < ((i + 1) * TILE_SIZE) as real;
    assert (i * TILE_SIZE) as real < ((hi + 1) * TILE_SIZE) as real;
  }

  /** The source's nested loops, pushing solid tiles row by row. */
  method GetSolidTilesNear(m: TileMap, e: Rect, margin: int) returns (result: seq<Tile>)
    requires WellFormed(m)
    ensures result == SolidTilesNear(m, e, margin)
  {
    var w := NearWindow(m, e, margin);
    result := ScanWindow(m, w);
  }

  /** The outer loop over the rows of a window inside the grid. */
  method ScanWindow(m: TileMap, w: Window) returns (result: seq<Tile>)
    requires WellFormed(m) && w.startCol >= 0 && w.endCol <= m.cols - 1
    requires w.startRow >= 0 && w.endRow <= m.rows - 1
    ensures result == WindowSolids(m, w.startRow, w.endRow, w.startCol, w.endCol)
  {
    result := [];
    var row := w.startRow;
    while row <= w.endRow
      invariant w.startRow <= row && (row <= w.endRow + 1 || row == w.startRow)
      invariant result == WindowSolids(m, w.startRow, row - 1, w.startCol, w.endCol)
    {
      var tiles := ScanRow(m, row, w.startCol, w.endCol);
      assert WindowSolids(m, w.startRow, row, w.startCol, w.endCol) == result + tiles;
      result := result + tiles;
      row := row + 1;
    }
  }

  /** The inner loop over columns c0..c1 of one row, pushing the solid tiles. */
  method ScanRow(m: TileMap, row: int, c0: int, c1: int) returns (result: seq<Tile>)
    requires WellFormed(m) && 0 <= row < m.rows && 0 <= c0 && c1 < m.cols
    ensures result == RowSolids(m, row, c0, c1)
  {
    result := [];
    var col := c0;
    while col <= c1
      invariant c0 <= col && (col <= c1 + 1 || col == c0)
      invariant result == RowSolids(m, row, c0, col - 1)
    {
      var tile := m.tiles[row][col];
      if tile.solid {
        result := result + [tile];
      }
      col := col + 1;
    }
  }
}
