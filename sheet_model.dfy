/**
 * The spreadsheet side of the browser (the `useSpreadSheet` hook): the
 * payload it extracts from each editor event, the lookup of a sheet by name,
 * the readers and writers that fall back to a neutral result when there is
 * no sheet, and the range helpers for styles and merged cells.
 *
 * The spreadsheet library is abstract here: a sheet is a map from cell to
 * value, to formula and to style, plus its list of merged spans; `getArray`,
 * `setArray`, `setStyle`, `getSpans`, `removeSpan`, `addSpan` and `unmerge`
 * act on that state in the evident way, and the JSON and CSV conversions are
 * parameters.
 */
module SheetModel {
  import opened JsValue

  datatype Pos = Pos(row: int, col: int)

  /** A rectangle of cells, as `new Range(row, col, rowCount, colCount)`. */
  datatype Area = Area(row: int, col: int, rowCount: int, colCount: int)

  /** A merged block; `rowCount` and `colCount` are its extent. */
  datatype Span = Span(row: int, col: int, rowCount: int, colCount: int)

  datatype Sheet = Sheet(
    name: string,
    rowCount: nat,
    colCount: nat,
    values: map<Pos, Value>,
    formulas: map<Pos, Value>,
    styles: map<Pos, Value>,
    spans: seq<Span>)

  function ValueAt(sh: Sheet, p: Pos): Value {
    if p in sh.values then sh.values[p] else Null
  }

  /** What `getArray(..., true)` reads: the formula where there is one, else the value. */
  function RawAt(sh: Sheet, p: Pos): Value {
    if p in sh.formulas then sh.formulas[p] else ValueAt(sh, p)
  }

  function StyleAt(sh: Sheet, p: Pos): Value {
    if p in sh.styles then sh.styles[p] else Null
  }

  predicate Covers(s: Span, p: Pos) {
    s.row <= p.row < s.row + s.rowCount && s.col <= p.col < s.col + s.colCount
  }

  /** The span shares a cell with the area. */
  predicate Meets(s: Span, a: Area) {
    && s.row < a.row + a.rowCount && a.row < s.row + s.rowCount
    && s.col < a.col + a.colCount && a.col < s.col + s.colCount
    && 0 < a.rowCount && 0 < a.colCount && 0 < s.rowCount && 0 < s.colCount
  }

  /** `getSpans(range)`: the spans meeting the area, in the sheet's order. */
  function Meeting(spans: seq<Span>, a: Area): (r: seq<Span>)
    ensures forall s :: s in r <==> s in spans && Meets(s, a)
    ensures |r| <= |spans|
  {
    if spans == [] then []
    else if Meets(spans[0], a) then [spans[0]] + Meeting(spans[1..], a)
    else Meeting(spans[1..], a)
  }

  /** The spans left once every span meeting the area is removed, in order. */
  function Apart(spans: seq<Span>, a: Area): (r: seq<Span>)
    ensures forall s :: s in r <==> s in spans && !Meets(s, a)
    ensures |r| <= |spans|
  {
    if spans == [] then []
    else if Meets(spans[0], a) then Apart(spans[1..], a)
    else [spans[0]] + Apart(spans[1..], a)
  }

  /** A count that the caller may leave out (`= 1` in the parameter list). */
  function DefaultOne(n: Option<int>): int {
    if n.None? then 1 else n.value
  }

  /** What a read of one cell reports: its value, its formula-or-value, or its style. */
  datatype Layer = Processed | Raw | Style

  function CellOf(sh: Sheet, layer: Layer, p: Pos): Value {
    match layer
    case Processed => ValueAt(sh, p)
    case Raw => RawAt(sh, p)
    case Style => StyleAt(sh, p)
  }

  /** A count as a loop `for (i = 0; i < n; i++)` uses it: nothing below zero. */
  function Clamp(n: int): nat {
    if n < 0 then 0 else n
  }

  /** `g` holds, row by row, the cells of area `a` in `layer`. */
  predicate ReadOf(g: seq<seq<Value>>, sh: Sheet, a: Area, layer: Layer) {
    && |g| == Clamp(a.rowCount)
    && forall i :: 0 <= i < |g| ==>
      && |g[i]| == Clamp(a.colCount)
      && forall j :: 0 <= j < |g[i]| ==> g[i][j] == CellOf(sh, layer, Pos(a.row + i, a.col + j))
  }

  /** `getArray(row, col, rowCount, colCount[, formula])` over an abstract sheet, and the style grid. */
  function Grid(sh: Sheet, a: Area, layer: Layer): (g: seq<seq<Value>>)
    ensures ReadOf(g, sh, a, layer)
  {
    seq(Clamp(a.rowCount), i => seq(Clamp(a.colCount), j => CellOf(sh, layer, Pos(a.row + i, a.col + j))))
  }

  /** Only one grid reads an area. */
  lemma ReadOfIsGrid(g: seq<seq<Value>>, sh: Sheet, a: Area, layer: Layer)
    requires ReadOf(g, sh, a, layer)
    ensures g == Grid(sh, a, layer)
  {
    var h := Grid(sh, a, layer);
    forall i | 0 <= i < |g| ensures g[i] == h[i] {
    }
  }

  /** The cell of `grid` that lands on `p` when its top-left corner is at (row, col). */
  predicate InGrid(p: Pos, row: int, col: int, grid: seq<seq<Value>>) {
    0 <= p.row - row < |grid| && 0 <= p.col - col < |grid[p.row - row]|
  }

  function RowCells(row: int, col: int, n: nat): (r: set<Pos>)
    ensures forall p :: p in r <==> p.row == row && col <= p.col < col + n
    decreases n
  {
    if n == 0 then {} else RowCells(row, col, n - 1) + {Pos(row, col + n - 1)}
  }

  /** The cells a write of `grid` with its top-left corner at (row, col) covers. */
  function GridCells(row: int, col: int, grid: seq<seq<Value>>): (r: set<Pos>)
    ensures forall p :: p in r <==> InGrid(p, row, col, grid)
    decreases |grid|
  {
    if grid == [] then {}
    else
      var init := grid[..|grid| - 1];
      var r := GridCells(row, col, init) + RowCells(row + |grid| - 1, col, |grid[|grid| - 1]|);
      assert forall i :: 0 <= i < |init| ==> init[i] == grid[i];
      r
  }

  /**
   * A cell map after writing `grid` with its top-left corner at (row, col):
   * no cell is dropped, and every cell outside the grid keeps its value.
   */
  function Written(m: map<Pos, Value>, row: int, col: int, grid: seq<seq<Value>>): (r: map<Pos, Value>)
    ensures m.Keys <= r.Keys
    ensures forall p :: p in r && !InGrid(p, row, col, grid) ==> p in m && r[p] == m[p]
  {
    map p | p in m.Keys + GridCells(row, col, grid) ::
      if InGrid(p, row, col, grid) then grid[p.row - row][p.col - col] else m[p]
  }

  /** What a write of `grid` at (row, col) leaves at each cell. */
  lemma WrittenAt(m: map<Pos, Value>, row: int, col: int, grid: seq<seq<Value>>, p: Pos)
    ensures InGrid(p, row, col, grid) ==>
      p in Written(m, row, col, grid) && Written(m, row, col, grid)[p] == grid[p.row - row][p.col - col]
    ensures !InGrid(p, row, col, grid) ==>
      (p in Written(m, row, col, grid) <==> p in m) &&
      (p in m ==> Written(m, row, col, grid)[p] == m[p])
  {
  }

  /** `setArray(row, col, grid[, formula])`: only the written layer changes. */
  function SetArray(sh: Sheet, row: int, col: int, grid: seq<seq<Value>>, raw: bool): (r: Sheet)
    ensures r.name == sh.name && r.rowCount == sh.rowCount && r.colCount == sh.colCount
    ensures r.styles == sh.styles && r.spans == sh.spans
    ensures if raw then r.values == sh.values else r.formulas == sh.formulas
  {
    if raw then sh.(formulas := Written(sh.formulas, row, col, grid))
    else sh.(values := Written(sh.values, row, col, grid))
  }

  /** After a write, a cell of the grid reads back in the written layer as the grid's entry. */
  lemma SetArrayAt(sh: Sheet, row: int, col: int, grid: seq<seq<Value>>, raw: bool, i: nat, j: nat)
    requires i < |grid| && j < |grid[i]|
    ensures CellOf(SetArray(sh, row, col, grid, raw), if raw then Raw else Processed, Pos(row + i, col + j)) == grid[i][j]
  {
    var p := Pos(row + i, col + j);
    assert InGrid(p, row, col, grid);
    if raw {
      WrittenAt(sh.formulas, row, col, grid, p);
    } else {
      WrittenAt(sh.values, row, col, grid, p);
    }
  }

  /** A write of a rectangular grid followed by a read of the same area gives the grid back. */
  lemma GridOfSetArray(sh: Sheet, row: int, col: int, grid: seq<seq<Value>>, width: nat, raw: bool)
    requires forall i :: 0 <= i < |grid| ==> |grid[i]| == width
    ensures Grid(SetArray(sh, row, col, grid, raw), Area(row, col, |grid|, width), if raw then Raw else Processed) == grid
  {
    var layer := if raw then Raw else Processed;
    var after := SetArray(sh, row, col, grid, raw);
    var a := Area(row, col, |grid|, width);
    forall i, j | 0 <= i < |grid| && 0 <= j < |grid[i]| ensures grid[i][j] == CellOf(after, layer, Pos(a.row + i, a.col + j)) {
      SetArrayAt(sh, row, col, grid, raw, i, j);
    }
    assert ReadOf(grid, after, a, layer);
    ReadOfIsGrid(grid, after, a, layer);
  }

  /** A write leaves every cell outside the grid as it was, in both layers. */
  lemma SetArrayElsewhere(sh: Sheet, row: int, col: int, grid: seq<seq<Value>>, raw: bool, p: Pos)
    requires !InGrid(p, row, col, grid)
    ensures ValueAt(SetArray(sh, row, col, grid, raw), p) == ValueAt(sh, p)
    ensures RawAt(SetArray(sh, row, col, grid, raw), p) == RawAt(sh, p)
  {
    WrittenAt(sh.values, row, col, grid, p);
    WrittenAt(sh.formulas, row, col, grid, p);
  }

  /** A write of a grid with an empty last row is the write of the grid without it. */
  lemma WrittenNewRow(m: map<Pos, Value>, row: int, col: int, grid: seq<seq<Value>>)
    ensures Written(m, row, col, grid + [[]]) == Written(m, row, col, grid)
  {
    var longer := grid + [[]];
    forall p ensures InGrid(p, row, col, longer) <==> InGrid(p, row, col, grid) {
      if InGrid(p, row, col, longer) {
        assert p.row - row < |grid|;
      }
    }
    forall p | p in Written(m, row, col, grid)
      ensures p in Written(m, row, col, longer) && Written(m, row, col, longer)[p] == Written(m, row, col, grid)[p]
    {
      WrittenAt(m, row, col, grid, p);
      WrittenAt(m, row, col, longer, p);
    }
    forall p | p in Written(m, row, col, longer) ensures p in Written(m, row, col, grid) {
      WrittenAt(m, row, col, grid, p);
      WrittenAt(m, row, col, longer, p);
    }
  }

  /** Writing one more cell at the end of the last row of a grid is one more map update. */
  lemma WrittenOneMore(m: map<Pos, Value>, row: int, col: int, grid: seq<seq<Value>>, v: Value)
    requires |grid| > 0
    ensures var last := |grid| - 1;
      Written(m, row, col, grid)[Pos(row + last, col + |grid[last]|) := v]
        == Written(m, row, col, grid[..last] + [grid[last] + [v]])
  {
    var last := |grid| - 1;
    var before := Written(m, row, col, grid)[Pos(row + last, col + |grid[last]|) := v];
    var after := Written(m, row, col, grid[..last] + [grid[last] + [v]]);
    WrittenOneMoreCells(m, row, col, grid, v, before, after);
    SameCells(before, after);
  }

  lemma WrittenOneMoreCells(m: map<Pos, Value>, row: int, col: int, grid: seq<seq<Value>>, v: Value,
                            before: map<Pos, Value>, after: map<Pos, Value>)
    requires |grid| > 0
    requires before == Written(m, row, col, grid)[Pos(row + |grid| - 1, col + |grid[|grid| - 1]|) := v]
    requires after == Written(m, row, col, grid[..|grid| - 1] + [grid[|grid| - 1] + [v]])
    ensures forall p :: (p in before <==> p in after) && (p in before ==> before[p] == after[p])
  {
    forall p ensures (p in before <==> p in after) && (p in before ==> before[p] == after[p]) {
      WrittenOneMoreAt(m, row, col, grid, v, p);
    }
  }

  lemma SameCells(a: map<Pos, Value>, b: map<Pos, Value>)
    requires forall p :: (p in a <==> p in b) && (p in a ==> a[p] == b[p])
    ensures a == b
  {
  }

  lemma WrittenOneMoreAt(m: map<Pos, Value>, row: int, col: int, grid: seq<seq<Value>>, v: Value, p: Pos)
    requires |grid| > 0
    ensures var last := |grid| - 1;
      var before := Written(m, row, col, grid)[Pos(row + last, col + |grid[last]|) := v];
      var after := Written(m, row, col, grid[..last] + [grid[last] + [v]]);
      (p in before <==> p in after) && (p in before ==> before[p] == after[p])
  {
    var last := |grid| - 1;
    var longer := grid[..last] + [grid[last] + [v]];
    LongerGrid(row, col, grid, v, p);
    WrittenAt(m, row, col, grid, p);
    WrittenAt(m, row, col, longer, p);
  }

  /** The grid with one more cell at the end of its last row covers the old cells, with their values, and that one. */
  lemma LongerGrid(row: int, col: int, grid: seq<seq<Value>>, v: Value, p: Pos)
    requires |grid| > 0
    ensures var last := |grid| - 1;
      var longer := grid[..last] + [grid[last] + [v]];
      && (InGrid(p, row, col, longer) <==> InGrid(p, row, col, grid) || p == Pos(row + last, col + |grid[last]|))
      && (InGrid(p, row, col, grid) ==> longer[p.row - row][p.col - col] == grid[p.row - row][p.col - col])
      && (p == Pos(row + last, col + |grid[last]|) ==> InGrid(p, row, col, longer) && longer[p.row - row][p.col - col] == v)
  {
    var last := |grid| - 1;
    var longer := grid[..last] + [grid[last] + [v]];
    assert |longer| == |grid|;
    if 0 <= p.row - row < last {
      assert longer[p.row - row] == grid[p.row - row];
    } else if p.row - row == last {
      assert longer[last] == grid[last] + [v];
    }
  }

  /**
   * What `setStylesAndMerges` makes of one sheet: values and formulas are
   * untouched; every given merge is added, and every other span kept is an
   * old one apart from the area.
   */
  function Restyled(sh: Sheet, row: int, col: int, rowCount: int, colCount: int, styles: seq<seq<Value>>, merges: seq<Span>)
    : (r: Sheet)
    ensures r.name == sh.name && r.values == sh.values && r.formulas == sh.formulas
    ensures forall s :: s in merges ==> s in r.spans
    ensures forall s :: s in r.spans ==> s in merges || (s in sh.spans && !Meets(s, Area(row, col, rowCount, colCount)))
  {
    sh.(styles := Written(sh.styles, row, col, styles), spans := Apart(sh.spans, Area(row, col, rowCount, colCount)) + merges)
  }

  /**
   * Reading back what `setStylesAndMerges` wrote gives the styles, and over
   * the same area exactly the given merges that meet it.
   */
  lemma {:induction false} StylesAndMergesReadBack(sh: Sheet, row: int, col: int, rowCount: int, colCount: int,
                                                   styles: seq<seq<Value>>, width: nat, merges: seq<Span>)
    requires forall i :: 0 <= i < |styles| ==> |styles[i]| == width
    ensures var after := Restyled(sh, row, col, rowCount, colCount, styles, merges);
      && Grid(after, Area(row, col, |styles|, width), Style) == styles
      && Meeting(after.spans, Area(row, col, rowCount, colCount)) == Meeting(merges, Area(row, col, rowCount, colCount))
  {
    var after := Restyled(sh, row, col, rowCount, colCount, styles, merges);
    var g := Grid(after, Area(row, col, |styles|, width), Style);
    assert |g| == |styles|;
    forall i | 0 <= i < |styles| ensures g[i] == styles[i] {
      assert |g[i]| == width;
      forall j | 0 <= j < width ensures g[i][j] == styles[i][j] {
        var p := Pos(row + i, col + j);
        assert InGrid(p, row, col, styles);
        WrittenAt(sh.styles, row, col, styles, p);
        assert g[i][j] == StyleAt(after, p);
      }
    }
    MeetingAfterReplace(sh.spans, merges, Area(row, col, rowCount, colCount));
  }

  // ---------------------------------------------------------------- cell-by-cell unmerging

  /** The first `n` cells of a row, left to right. */
  function RowPositions(row: int, col: int, n: nat): (r: seq<Pos>)
    ensures |r| == n
    ensures forall i :: 0 <= i < n ==> r[i] == Pos(row, col + i)
  {
    if n == 0 then [] else RowPositions(row, col, n - 1) + [Pos(row, col + n - 1)]
  }

  /** The cells of the first `n` rows of a block `width` wide, row after row: the order of two nested loops. */
  function BlockPositions(row: int, col: int, n: nat, width: nat): seq<Pos> {
    if n == 0 then [] else BlockPositions(row, col, n - 1, width) + RowPositions(row + n - 1, col, width)
  }

  /** A row holds exactly the cells of its span. */
  lemma RowCell(row: int, col: int, width: nat, p: Pos)
    ensures p in RowPositions(row, col, width) <==> p.row == row && col <= p.col < col + width
  {
    if p.row == row && col <= p.col < col + width {
      assert RowPositions(row, col, width)[p.col - col] == p;
    }
  }

  /** A cell is in the block exactly when it lies in its rectangle. */
  lemma {:induction false} BlockCell(row: int, col: int, n: nat, width: nat, p: Pos)
    ensures p in BlockPositions(row, col, n, width) <==> row <= p.row < row + n && col <= p.col < col + width
  {
    if n > 0 {
      var prev := BlockPositions(row, col, n - 1, width);
      var last := RowPositions(row + n - 1, col, width);
      assert BlockPositions(row, col, n, width) == prev + last;
      assert p in prev + last <==> p in prev || p in last;
      BlockCell(row, col, n - 1, width, p);
      RowCell(row + n - 1, col, width, p);
    }
  }

  /** The block holds exactly the cells of its rectangle. */
  lemma BlockCells(row: int, col: int, n: nat, width: nat)
    ensures forall p :: p in BlockPositions(row, col, n, width) <==> row <= p.row < row + n && col <= p.col < col + width
  {
    forall p: Pos ensures p in BlockPositions(row, col, n, width) <==> row <= p.row < row + n && col <= p.col < col + width {
      BlockCell(row, col, n, width, p);
    }
  }

  /** Row-major order: `p` comes before `q`. */
  predicate Before(p: Pos, q: Pos) {
    p.row < q.row || (p.row == q.row && p.col < q.col)
  }

  /** Strictly increasing in row-major order, hence without repetition. */
  predicate InOrder(b: seq<Pos>) {
    forall i, j :: 0 <= i < j < |b| ==> Before(b[i], b[j]) && b[i] != b[j]
  }

  lemma InOrderConcat(x: seq<Pos>, y: seq<Pos>)
    requires InOrder(x) && InOrder(y)
    requires forall i, j :: 0 <= i < |x| && 0 <= j < |y| ==> Before(x[i], y[j])
    ensures InOrder(x + y)
  {
    var b := x + y;
    forall i, j | 0 <= i < j < |b| ensures Before(b[i], b[j]) {
      if j < |x| {
        assert b[i] == x[i] && b[j] == x[j];
      } else if i < |x| {
        assert b[i] == x[i] && b[j] == y[j - |x|];
      } else {
        assert b[i] == y[i - |x|] && b[j] == y[j - |x|];
      }
    }
  }

  /** A row is visited left to right. */
  lemma RowInOrder(row: int, col: int, width: nat)
    ensures InOrder(RowPositions(row, col, width))
  {
    var r := RowPositions(row, col, width);
    forall i, j | 0 <= i < j < |r| ensures Before(r[i], r[j]) && r[i] != r[j] {
      assert r[i] == Pos(row, col + i) && r[j] == Pos(row, col + j);
    }
  }

  /** The block is visited in strictly increasing row-major order, so each cell exactly once. */
  lemma {:induction false} BlockInOrder(row: int, col: int, n: nat, width: nat)
    ensures InOrder(BlockPositions(row, col, n, width))
  {
    if n > 0 {
      BlockInOrder(row, col, n - 1, width);
      var init := BlockPositions(row, col, n - 1, width);
      var last := RowPositions(row + n - 1, col, width);
      forall i, j | 0 <= i < |init| && 0 <= j < |last| ensures Before(init[i], last[j]) {
        assert init[i] in init;
        BlockCell(row, col, n - 1, width, init[i]);
        assert init[i].row < row + n - 1 == last[j].row;
      }
      RowInOrder(row + n - 1, col, width);
      InOrderConcat(init, last);
      assert BlockPositions(row, col, n, width) == init + last;
    }
  }

  /** The span covers one of the cells. */
  predicate CoversAny(s: Span, cells: seq<Pos>) {
    exists q :: q in cells && Covers(s, q)
  }

  /** The spans, in order, that cover none of the cells: what unmerging each of those cells leaves. */
  function Uncovered(spans: seq<Span>, cells: seq<Pos>): seq<Span> {
    if spans == [] then []
    else if CoversAny(spans[0], cells) then Uncovered(spans[1..], cells)
    else [spans[0]] + Uncovered(spans[1..], cells)
  }

  /** Unmerging no cell leaves every span. */
  lemma {:induction false} UncoveredNothing(spans: seq<Span>)
    ensures Uncovered(spans, []) == spans
  {
    if spans != [] {
      UncoveredNothing(spans[1..]);
      assert !CoversAny(spans[0], []);
    }
  }

  /** Unmerging one more cell is one more filter. */
  lemma {:induction false} UncoverOneMore(spans: seq<Span>, cells: seq<Pos>, p: Pos)
    ensures Uncovered(Uncovered(spans, cells), [p]) == Uncovered(spans, cells + [p])
  {
    if spans != [] {
      UncoverOneMore(spans[1..], cells, p);
      var s := spans[0];
      assert CoversAny(s, cells + [p]) <==> CoversAny(s, cells) || Covers(s, p) by {
        if Covers(s, p) {
          assert p in cells + [p];
        }
        if CoversAny(s, cells) {
          var q :| q in cells && Covers(s, q);
          assert q in cells + [p];
        }
      }
      assert CoversAny(s, [p]) <==> Covers(s, p) by {
        if Covers(s, p) {
          assert p in [p];
        }
      }
    }
  }

  /** A span covers a cell of the area exactly when it meets the area. */
  lemma CoversBlockIffMeets(s: Span, a: Area)
    ensures CoversAny(s, BlockPositions(a.row, a.col, Clamp(a.rowCount), Clamp(a.colCount))) <==> Meets(s, a)
  {
    var b := BlockPositions(a.row, a.col, Clamp(a.rowCount), Clamp(a.colCount));
    BlockCells(a.row, a.col, Clamp(a.rowCount), Clamp(a.colCount));
    if Meets(s, a) {
      var q := Pos(if s.row < a.row then a.row else s.row, if s.col < a.col then a.col else s.col);
      assert q in b && Covers(s, q);
    }
  }

  /** Unmerging every cell of an area leaves exactly the spans apart from it, in order. */
  lemma {:induction false} UncoveredBlock(spans: seq<Span>, a: Area)
    ensures Uncovered(spans, BlockPositions(a.row, a.col, Clamp(a.rowCount), Clamp(a.colCount))) == Apart(spans, a)
  {
    if spans != [] {
      UncoveredBlock(spans[1..], a);
      CoversBlockIffMeets(spans[0], a);
    }
  }

  /** The spans meeting an area after a removal of those meeting it and an addition of `merges`. */
  lemma {:induction false} MeetingAfterReplace(spans: seq<Span>, merges: seq<Span>, a: Area)
    ensures Meeting(Apart(spans, a) + merges, a) == Meeting(merges, a)
  {
    if spans == [] {
      assert Apart(spans, a) + merges == merges;
    } else {
      MeetingAfterReplace(spans[1..], merges, a);
      if !Meets(spans[0], a) {
        var rest := Apart(spans[1..], a) + merges;
        assert Apart(spans, a) + merges == [spans[0]] + rest;
        assert ([spans[0]] + rest)[0] == spans[0] && ([spans[0]] + rest)[1..] == rest;
      }
    }
  }

  // ---------------------------------------------------------------- event payloads

  /** The fields of `source` among `keys` whose value passes `keep`. */
  function Pick(source: Value, keys: seq<string>, keep: Value -> bool): (m: map<string, Value>)
    ensures forall k :: k in m <==> k in keys && keep(Get(source, k))
    ensures forall k :: k in m ==> m[k] == Get(source, k)
  {
    map k | k in keys && keep(Get(source, k)) :: Get(source, k)
  }

  const Coordinates := ["row", "col", "rowCount", "colCount"]
  const Contents := ["newValue", "oldValue", "formula"]
  const Names := ["propertyName", "action", "sheetName", "cellRange", "clipboardData", "pasteOption", "range", "sheet"]

  predicate Defined(v: Value) {
    v != Undefined
  }

  /** The coordinates a truthy `args.range` defines; none without one. */
  function RangeLayer(args: Value): (r: map<string, Value>)
    ensures forall k :: k in r ==> k in Coordinates && r[k] == Get(Get(args, "range"), k) && r[k] != Undefined
    ensures !Truthy(Get(args, "range")) ==> r == map[]
  {
    var range := Get(args, "range");
    if Truthy(range) then Pick(range, Coordinates, Defined) else map[]
  }

  function Base(eventType: string, sender: Value): map<string, Value> {
    map["type" := Str(eventType), "sender" := Str(if Truthy(sender) then "spread" else "unknown")]
  }

  /**
   * The `eventData` record built for one editor event, without its
   * timestamp.  Each field is set by its own test: numeric coordinates,
   * defined contents, truthy names; then the coordinates that a truthy
   * `args.range` defines overwrite those of `args`.
   */
  function EventData(eventType: string, sender: Value, args: Value): (r: map<string, Value>)
    ensures "type" in r && r["type"] == Str(eventType)
    ensures "sender" in r && (r["sender"] == Str("spread") <==> Truthy(sender))
  {
    if !Truthy(args) then Base(eventType, sender)
    else
      BaseApart();
      assert "type" !in ArgsLayer(args) && "sender" !in ArgsLayer(args);
      assert "type" !in RangeLayer(args) && "sender" !in RangeLayer(args);
      Base(eventType, sender) + ArgsLayer(args) + RangeLayer(args)
  }

  /** `type` and `sender` are set by the handler itself, never copied from `args`. */
  lemma BaseApart()
    ensures forall k :: k in Coordinates || k in Contents || k in Names ==> k != "type" && k != "sender"
  {
  }

  /** The fields copied from `args` itself, each group under its own test; values are copied unchanged. */
  function ArgsLayer(args: Value): (r: map<string, Value>)
    ensures forall k :: k in r ==> r[k] == Get(args, k) && (k in Coordinates || k in Contents || k in Names)
  {
    Pick(args, Coordinates, IsNumber) + Pick(args, Contents, Defined) + Pick(args, Names, Truthy)
  }

  lemma CoordinateApart(key: string)
    requires key in Coordinates
    ensures key !in Contents && key !in Names && key != "type" && key != "sender"
  {
  }

  lemma ContentApart(key: string)
    requires key in Contents
    ensures key !in Coordinates && key !in Names && key != "type" && key != "sender"
  {
  }

  lemma NameApart(key: string)
    requires key in Names
    ensures key !in Coordinates && key !in Contents && key != "type" && key != "sender"
  {
  }

  lemma ArgsCoordinate(args: Value, key: string)
    requires key in Coordinates
    ensures key in ArgsLayer(args) <==> IsNumber(Get(args, key))
    ensures key in ArgsLayer(args) ==> ArgsLayer(args)[key] == Get(args, key)
  {
    CoordinateApart(key);
    assert key !in Pick(args, Contents, Defined);
    assert key !in Pick(args, Names, Truthy);
  }

  lemma ArgsContent(args: Value, key: string)
    requires key in Contents
    ensures key in ArgsLayer(args) <==> Get(args, key) != Undefined
    ensures key in ArgsLayer(args) ==> ArgsLayer(args)[key] == Get(args, key)
  {
    ContentApart(key);
    assert key !in Pick(args, Coordinates, IsNumber);
    assert key !in Pick(args, Names, Truthy);
  }

  lemma ArgsName(args: Value, key: string)
    requires key in Names
    ensures key in ArgsLayer(args) <==> Truthy(Get(args, key))
    ensures key in ArgsLayer(args) ==> ArgsLayer(args)[key] == Get(args, key)
  {
    NameApart(key);
    assert key !in Pick(args, Coordinates, IsNumber);
    assert key !in Pick(args, Contents, Defined);
  }

  /** The coordinate `key` of an event: from `args.range` when it has one, else from `args` when numeric. */
  lemma EventCoordinate(eventType: string, sender: Value, args: Value, key: string)
    requires key in Coordinates
    ensures var data := EventData(eventType, sender, args);
      var range := Get(args, "range");
      var fromRange := Truthy(args) && Truthy(range) && Get(range, key) != Undefined;
      && (key in data <==> fromRange || (Truthy(args) && IsNumber(Get(args, key))))
      && (key in data ==> data[key] == if fromRange then Get(range, key) else Get(args, key))
  {
    CoordinateApart(key);
    ArgsCoordinate(args, key);
    RangeCoordinate(args, key);
    if Truthy(args) {
      var lower := Base(eventType, sender) + ArgsLayer(args);
      assert key !in Base(eventType, sender);
      assert key in lower <==> key in ArgsLayer(args);
      assert key in lower ==> lower[key] == ArgsLayer(args)[key];
      assert EventData(eventType, sender, args) == lower + RangeLayer(args);
    }
  }

  /** The coordinate `key` is taken from a truthy `args.range` exactly when it is defined there. */
  lemma RangeCoordinate(args: Value, key: string)
    requires key in Coordinates
    ensures var range := Get(args, "range");
      && (key in RangeLayer(args) <==> Truthy(range) && Get(range, key) != Undefined)
      && (key in RangeLayer(args) ==> RangeLayer(args)[key] == Get(range, key))
  {
  }

  /** `newValue`, `oldValue` and `formula` are kept whenever they are defined, falsy or not. */
  lemma EventValue(eventType: string, sender: Value, args: Value, key: string)
    requires key in Contents && Truthy(args)
    ensures var data := EventData(eventType, sender, args);
      (key in data <==> Get(args, key) != Undefined) && (key in data ==> data[key] == Get(args, key))
  {
    ContentApart(key);
    ArgsContent(args, key);
    assert key !in RangeLayer(args);
  }

  /** The names and objects of an event are kept only when truthy: an `action` of 0 is dropped. */
  lemma EventName(eventType: string, sender: Value, args: Value, key: string)
    requires key in Names && Truthy(args)
    ensures var data := EventData(eventType, sender, args);
      (key in data <==> Truthy(Get(args, key))) && (key in data ==> data[key] == Get(args, key))
  {
    NameApart(key);
    ArgsName(args, key);
    assert key !in RangeLayer(args);
  }

  /** Without `args` the record holds only the event type and the sender. */
  lemma EventWithoutArgs(eventType: string, sender: Value, args: Value)
    requires !Truthy(args)
    ensures EventData(eventType, sender, args).Keys == {"type", "sender"}
  {
  }

  /** The `detail` of a delivered event. */
  function Detail(eventType: string, eventCount: nat, lastEvent: Value, sheetInfo: Value): (r: Value)
    ensures Get(r, "eventType") == Str(eventType) && Get(r, "eventCount") == Num(eventCount)
    ensures Get(r, "lastEvent") == lastEvent && Get(r, "sheetInfo") == sheetInfo
  {
    Record(map["eventType" := Str(eventType), "eventCount" := Num(eventCount),
               "lastEvent" := lastEvent, "sheetInfo" := sheetInfo])
  }

  /** `sheetInfo`: the active sheet's name, row count and column count. */
  function SheetInfo(sh: Sheet): (r: Value)
    ensures Get(r, "name") == Str(sh.name)
    ensures Get(r, "rowCount") == Num(sh.rowCount) && Get(r, "columnCount") == Num(sh.colCount)
  {
    Record(map["name" := Str(sh.name), "rowCount" := Num(sh.rowCount), "columnCount" := Num(sh.colCount)])
  }

  /** The one counter shared by every bound event type. */
  class EventFeed {
    var eventCount: nat

    constructor()
      ensures eventCount == 0
    {
      eventCount := 0;
    }

    /**
     * One event of type `eventType` while `active` is the active sheet: the
     * counter goes up by one first, then the detail reports the new count
     * with the event's record and the sheet's info.  With no active sheet,
     * reading its name throws after the increment and nothing is delivered.
     */
    method Deliver(eventType: string, sender: Value, args: Value, active: Option<Sheet>) returns (detail: Option<Value>)
      modifies this
      ensures eventCount == old(eventCount) + 1
      ensures detail.None? <==> active.None?
      ensures detail.Some? ==>
        && Get(detail.value, "eventType") == Str(eventType)
        && Get(detail.value, "eventCount") == Num(eventCount)
        && Get(detail.value, "lastEvent") == Obj(EventData(eventType, sender, args))
        && Get(detail.value, "sheetInfo") == SheetInfo(active.value)
    {
      eventCount := eventCount + 1;
      if active.None? {
        return None;
      }
      detail := Some(Detail(eventType, eventCount, Obj(EventData(eventType, sender, args)), SheetInfo(active.value)));
    }
  }

  // ---------------------------------------------------------------- the editor

  /** The index of the first sheet called `name`. */
  function FirstNamed(sheets: seq<Sheet>, name: string): (r: Option<nat>)
    ensures r.Some? ==> r.value < |sheets| && sheets[r.value].name == name
    ensures r.Some? ==> forall i :: 0 <= i < r.value ==> sheets[i].name != name
    ensures r.None? <==> forall i :: 0 <= i < |sheets| ==> sheets[i].name != name
  {
    if sheets == [] then None
    else if sheets[0].name == name then Some(0)
    else
      match FirstNamed(sheets[1..], name)
      case None => None
      case Some(k) => Some(k + 1)
  }

  function NamesOf(sheets: seq<Sheet>): (r: seq<string>)
    ensures |r| == |sheets| && forall i :: 0 <= i < |r| ==> r[i] == sheets[i].name
  {
    seq(|sheets|, i requires 0 <= i < |sheets| => sheets[i].name)
  }

  /** The workbook behind the designer, and the getters and setters over its sheets. */
  class Editor {
    /** Whether the designer exists yet. */
    var ready: bool
    var sheets: seq<Sheet>
    /** The index of the active sheet; out of range when there is none. */
    var active: int

    /** `ready` is false before the mounting effect has created the designer. */
    constructor(ready: bool, sheets: seq<Sheet>, active: int)
      ensures this.ready == ready && this.sheets == sheets && this.active == active
    {
      this.ready := ready;
      this.sheets := sheets;
      this.active := active;
    }

    /** `getSheet(sheetName)`: the named sheet, else the active one when no name is given. */
    function SheetIndex(sheetName: Value): (r: Option<nat>)
      reads this
      ensures !ready ==> r.None?
      ensures r.Some? ==> r.value < |sheets|
      ensures Truthy(sheetName) ==>
        (r.Some? <==> ready && sheetName.Str? && exists i :: 0 <= i < |sheets| && sheets[i].name == sheetName.s)
      ensures Truthy(sheetName) && r.Some? ==> sheetName.Str? && sheets[r.value].name == sheetName.s
      ensures !Truthy(sheetName) ==> (r.Some? <==> ready && 0 <= active < |sheets|) && (r.Some? ==> r.value == active)
    {
      if !ready then None
      else if Truthy(sheetName) then
        if sheetName.Str? then FirstNamed(sheets, sheetName.s) else None
      else if 0 <= active < |sheets| then Some(active)
      else None
    }

    /** `getSheetNames()`. */
    function SheetNames(): (r: seq<string>)
      reads this
      ensures !ready ==> r == []
      ensures ready ==> |r| == |sheets| && forall i :: 0 <= i < |r| ==> r[i] == sheets[i].name
    {
      if ready then NamesOf(sheets) else []
    }

    /** `getSheetJSON(sheetName)`; `toJson` is the library's serialiser. */
    function SheetJson(sheetName: Value, toJson: Sheet -> Value): (r: Value)
      reads this
      ensures SheetIndex(sheetName).None? ==> r == Null
      ensures SheetIndex(sheetName).Some? ==> r == toJson(sheets[SheetIndex(sheetName).value])
    {
      match SheetIndex(sheetName)
      case None => Null
      case Some(k) => toJson(sheets[k])
    }

    /** `getSheetCSV(sheetName)`; `toCsv` is the library's serialiser. */
    function SheetCsv(sheetName: Value, toCsv: Sheet -> string): (r: string)
      reads this
      ensures SheetIndex(sheetName).None? ==> r == ""
      ensures SheetIndex(sheetName).Some? ==> r == toCsv(sheets[SheetIndex(sheetName).value])
    {
      match SheetIndex(sheetName)
      case None => ""
      case Some(k) => toCsv(sheets[k])
    }

    /** `getProcessedData` / `getRawData` (`layer` Processed or Raw): the area's grid, [] without a sheet. */
    function Data(startRow: int, startCol: int, rowCount: int, colCount: int, sheetName: Value, layer: Layer): (r: seq<seq<Value>>)
      reads this
      ensures SheetIndex(sheetName).None? ==> r == []
      ensures SheetIndex(sheetName).Some? ==>
        ReadOf(r, sheets[SheetIndex(sheetName).value], Area(startRow, startCol, rowCount, colCount), layer)
    {
      match SheetIndex(sheetName)
      case None => []
      case Some(k) => Grid(sheets[k], Area(startRow, startCol, rowCount, colCount), layer)
    }

    /** `getProcessedDataOfWholeSheet` / `getRawDataOfWholeSheet`: the grid from (0, 0) over the sheet's size. */
    function WholeSheetData(sheetName: Value, layer: Layer): (r: seq<seq<Value>>)
      reads this
      ensures SheetIndex(sheetName).None? ==> r == []
      ensures SheetIndex(sheetName).Some? ==>
        var sh := sheets[SheetIndex(sheetName).value];
        ReadOf(r, sh, Area(0, 0, sh.rowCount, sh.colCount), layer)
    {
      match SheetIndex(sheetName)
      case None => []
      case Some(k) => Grid(sheets[k], Area(0, 0, sheets[k].rowCount, sheets[k].colCount), layer)
    }

    /** `setSheetJSON(json, sheetName)`: only with a sheet and a truthy `json`. */
    method SetSheetJson(json: Value, sheetName: Value, fromJson: (Sheet, Value) -> Sheet)
      modifies this
      ensures ready == old(ready) && active == old(active)
      ensures var k := old(SheetIndex(sheetName));
        sheets == if k.Some? && Truthy(json) then old(sheets)[k.value := fromJson(old(sheets)[k.value], json)] else old(sheets)
    {
      var k := SheetIndex(sheetName);
      if k.Some? && Truthy(json) {
        sheets := sheets[k.value := fromJson(sheets[k.value], json)];
      }
    }

    /** `setSheetCSV(csv, sheetName)`: only with a sheet and a truthy `csv`. */
    method SetSheetCsv(csv: Value, sheetName: Value, fromCsv: (Sheet, Value) -> Sheet)
      modifies this
      ensures ready == old(ready) && active == old(active)
      ensures var k := old(SheetIndex(sheetName));
        sheets == if k.Some? && Truthy(csv) then old(sheets)[k.value := fromCsv(old(sheets)[k.value], csv)] else old(sheets)
    {
      var k := SheetIndex(sheetName);
      if k.Some? && Truthy(csv) {
        sheets := sheets[k.value := fromCsv(sheets[k.value], csv)];
      }
    }

    /** `setProcessedData` (`raw` false) and `setRawData` (`raw` true): write `grid` at (startRow, startCol). */
    method SetData(startRow: int, startCol: int, grid: seq<seq<Value>>, sheetName: Value, raw: bool)
      modifies this
      ensures ready == old(ready) && active == old(active)
      ensures var k := old(SheetIndex(sheetName));
        sheets == if k.Some? then old(sheets)[k.value := SetArray(old(sheets)[k.value], startRow, startCol, grid, raw)] else old(sheets)
    {
      var k := SheetIndex(sheetName);
      if k.Some? {
        sheets := sheets[k.value := SetArray(sheets[k.value], startRow, startCol, grid, raw)];
      }
    }

    /**
     * `getStylesAndMerges`: the style of each cell of the area, row by row,
     * and the spans meeting it.  A count that is not given is 1.
     */
    method GetStylesAndMerges(startRow: int, startCol: int, rowCount: Option<int>, colCount: Option<int>, sheetName: Value)
      returns (styles: seq<seq<Value>>, merges: seq<Span>)
      ensures var a := Area(startRow, startCol, DefaultOne(rowCount), DefaultOne(colCount));
        match SheetIndex(sheetName)
        case None => styles == [] && merges == []
        case Some(k) => styles == Grid(sheets[k], a, Style) && merges == Meeting(sheets[k].spans, a)
    {
      styles := [];
      merges := [];
      var rc := DefaultOne(rowCount);
      var cc := DefaultOne(colCount);
      var k := SheetIndex(sheetName);
      if k.Some? {
        var sh := sheets[k.value];
        var row := 0;
        while row < rc
          invariant 0 <= row <= Clamp(rc)
          invariant ReadOf(styles, sh, Area(startRow, startCol, row, cc), Style)
        {
          var styleRow := [];
          var col := 0;
          while col < cc
            invariant 0 <= col <= Clamp(cc)
            invariant |styleRow| == col
            invariant forall j :: 0 <= j < col ==> styleRow[j] == StyleAt(sh, Pos(startRow + row, startCol + j))
          {
            styleRow := styleRow + [StyleAt(sh, Pos(startRow + row, startCol + col))];
            col := col + 1;
          }
          styles := styles + [styleRow];
          row := row + 1;
        }
        ReadOfIsGrid(styles, sh, Area(startRow, startCol, rc, cc), Style);
        merges := Meeting(sh.spans, Area(startRow, startCol, rc, cc));
      }
    }

    /**
     * `setStylesAndMerges`: each given style lands at its offset from
     * (startRow, startCol); then every span meeting the area goes and the
     * given merges are added.
     */
    method SetStylesAndMerges(startRow: int, startCol: int, rowCount: int, colCount: int,
                              styles: seq<seq<Value>>, merges: seq<Span>, sheetName: Value)
      modifies this
      ensures ready == old(ready) && active == old(active)
      ensures var k := old(SheetIndex(sheetName));
        sheets == if k.None? then old(sheets)
          else old(sheets)[k.value := Restyled(old(sheets)[k.value], startRow, startCol, rowCount, colCount, styles, merges)]
    {
      var k := SheetIndex(sheetName);
      if k.Some? {
        var sh := sheets[k.value];
        var st := PaintStyles(sh.styles, startRow, startCol, styles);
        sheets := sheets[k.value := sh.(styles := st, spans := Apart(sh.spans, Area(startRow, startCol, rowCount, colCount)) + merges)];
      }
    }

    /**
     * `resetMergingStatus`: unmerges the cells of the area one by one, row
     * by row; returns the cells it visited.
     */
    method ResetMergingStatus(startRow: int, startCol: int, rowCount: int, colCount: int, sheetName: Value)
      returns (visited: seq<Pos>)
      modifies this
      ensures ready == old(ready) && active == old(active)
      ensures var k := old(SheetIndex(sheetName));
        && visited == (if k.None? then [] else BlockPositions(startRow, startCol, Clamp(rowCount), Clamp(colCount)))
        && sheets == if k.None? then old(sheets)
          else old(sheets)[k.value := old(sheets)[k.value].(spans := Apart(old(sheets)[k.value].spans, Area(startRow, startCol, rowCount, colCount)))]
    {
      visited := [];
      var k := SheetIndex(sheetName);
      if k.Some? {
        var sh := sheets[k.value];
        var spans;
        spans, visited := UnmergeCells(sh.spans, startRow, startCol, rowCount, colCount);
        sheets := sheets[k.value := sh.(spans := spans)];
      }
    }
  }

  /** The cell-by-cell `setStyle` loop of `setStylesAndMerges`, row lengths as given. */
  method PaintStyles(cells: map<Pos, Value>, startRow: int, startCol: int, styles: seq<seq<Value>>)
    returns (st: map<Pos, Value>)
    ensures st == Written(cells, startRow, startCol, styles)
  {
    st := cells;
    var row := 0;
    while row < |styles|
      invariant 0 <= row <= |styles|
      invariant st == Written(cells, startRow, startCol, styles[..row])
    {
      PaintRowStart(cells, startRow, startCol, styles, row);
      var col := 0;
      while col < |styles[row]|
        invariant 0 <= col <= |styles[row]|
        invariant st == Written(cells, startRow, startCol, styles[..row] + [styles[row][..col]])
      {
        PaintStep(cells, startRow, startCol, styles, row, col);
        st := st[Pos(startRow + row, startCol + col) := styles[row][col]];
        col := col + 1;
      }
      assert styles[row][..col] == styles[row];
      assert styles[..row] + [styles[row][..col]] == styles[..row + 1];
      row := row + 1;
    }
    assert styles[..row] == styles;
  }

  lemma PaintRowStart(m: map<Pos, Value>, row: int, col: int, styles: seq<seq<Value>>, r: nat)
    requires r < |styles|
    ensures Written(m, row, col, styles[..r]) == Written(m, row, col, styles[..r] + [styles[r][..0]])
  {
    WrittenNewRow(m, row, col, styles[..r]);
    assert styles[r][..0] == [];
  }

  lemma PaintStep(m: map<Pos, Value>, row: int, col: int, styles: seq<seq<Value>>, r: nat, c: nat)
    requires r < |styles| && c < |styles[r]|
    ensures Written(m, row, col, styles[..r] + [styles[r][..c]])[Pos(row + r, col + c) := styles[r][c]]
      == Written(m, row, col, styles[..r] + [styles[r][..c + 1]])
  {
    var done := styles[..r] + [styles[r][..c]];
    WrittenOneMore(m, row, col, done, styles[r][c]);
    assert done[..r] == styles[..r];
    assert done[r] + [styles[r][c]] == styles[r][..c + 1];
  }

  /** The two nested `unmerge` loops of `resetMergingStatus`: the spans left and the cells visited. */
  method UnmergeCells(original: seq<Span>, startRow: int, startCol: int, rowCount: int, colCount: int)
    returns (spans: seq<Span>, visited: seq<Pos>)
    ensures visited == BlockPositions(startRow, startCol, Clamp(rowCount), Clamp(colCount))
    ensures spans == Apart(original, Area(startRow, startCol, rowCount, colCount))
  {
    visited := [];
    spans := original;
    UncoveredNothing(original);
    var width := Clamp(colCount);
    var row := 0;
    while row < rowCount
      invariant 0 <= row <= Clamp(rowCount)
      invariant visited == BlockPositions(startRow, startCol, row, width)
      invariant spans == Uncovered(original, visited)
    {
      spans, visited := UnmergeRow(original, spans, visited, startRow + row, startCol, colCount);
      assert visited == BlockPositions(startRow, startCol, row + 1, width);
      row := row + 1;
    }
    UncoveredBlock(original, Area(startRow, startCol, rowCount, colCount));
  }

  /** The inner loop: unmerging the cells of one row, left to right. */
  method UnmergeRow(original: seq<Span>, spans0: seq<Span>, visited0: seq<Pos>, row: int, startCol: int, colCount: int)
    returns (spans: seq<Span>, visited: seq<Pos>)
    requires spans0 == Uncovered(original, visited0)
    ensures visited == visited0 + RowPositions(row, startCol, Clamp(colCount))
    ensures spans == Uncovered(original, visited)
  {
    spans, visited := spans0, visited0;
    var col := 0;
    while col < colCount
      invariant 0 <= col <= Clamp(colCount)
      invariant visited == visited0 + RowPositions(row, startCol, col)
      invariant spans == Uncovered(original, visited)
    {
      var p := Pos(row, startCol + col);
      UncoverOneMore(original, visited, p);
      spans := Uncovered(spans, [p]);
      visited := visited + [p];
      col := col + 1;
    }
  }
}
