/** What the drawn lines of a row show of its cells (crates/tui/src/table.rs:352-406, 603-657). */
module TableContent {
  import opened Sequences
  import opened TableWrap
  import opened TableRender

  // ---------- where a cell stands in a line ----------

  ghost predicate Stands(f: Font, line: string, part: string, at: nat) {
    exists before, after :: line == before + part + after && Width(f, before) == at
  }

  /** The piece of a cell that line k shows: line k of the cell wrapped at its column's width, padded to that
      width as the column is aligned. */
  function Slot(f: Font, aligns: seq<CellAlign>, cells: seq<string>, ws: seq<nat>, k: nat, col: nat): string
    requires col < |ws|
  {
    var pieces := if col < |cells| then Wrapped(f, cells[col], ws[col]) else [];
    Format(f, if col < |aligns| then aligns[col] else Left, if k < |pieces| then pieces[k] else "", ws[col])
  }

  /** The cells of line k with the bars that follow them. */
  function Pieces(f: Font, aligns: seq<CellAlign>, cellLines: seq<seq<string>>, ws: seq<nat>, k: nat): (r: seq<string>)
    ensures |r| == |ws| && forall col :: 0 <= col < |ws| ==> r[col] == Cell(f, aligns, cellLines, ws, k, col)
  {
    seq(|ws|, col requires 0 <= col < |ws| => Cell(f, aligns, cellLines, ws, k, col))
  }

  lemma {:induction false} PiecesConcat(f: Font, aligns: seq<CellAlign>, cellLines: seq<seq<string>>, ws: seq<nat>,
                                        k: nat,
                                        parts: seq<string>, col: nat)
    requires parts == Pieces(f, aligns, cellLines, ws, k) && col <= |ws|
    ensures CellsFrom(f, aligns, cellLines, ws, k, col) == Flat(parts[col..])
    decreases |ws| - col
  {
    if col < |ws| {
      PiecesConcat(f, aligns, cellLines, ws, k, parts, col + 1);
      Headed(parts, col);
    }
  }

  lemma {:induction false} RowPieces(f: Font, aligns: seq<CellAlign>, cellLines: seq<seq<string>>, ws: seq<nat>,
                                     k: nat, parts: seq<string>)
    requires parts == Pieces(f, aligns, cellLines, ws, k)
    ensures RowLine(f, aligns, cellLines, ws, k) == [BAR, ' '] + Flat(parts)
  {
    PiecesConcat(f, aligns, cellLines, ws, k, parts, 0);
    assert parts[0..] == parts;
  }

  lemma {:induction false} ConcatAround(parts: seq<string>, col: nat)
    requires col < |parts|
    ensures Flat(parts) == Flat(parts[..col]) + (parts[col] + Flat(parts[col + 1..]))
  {
    FlatAppend(parts[..col], parts[col..]);
    assert parts == parts[..col] + parts[col..];
    Headed(parts, col);
  }

  lemma {:induction false} SumPushed(ws: seq<nat>, n: nat)
    requires n < |ws|
    ensures Sum(ws[..n + 1]) == Sum(ws[..n]) + ws[n]
  {
    if n == 0 {
      assert ws[..1] == [ws[0]] && ws[..1][1..] == [] && ws[..0] == [];
    } else {
      SumPushed(ws[1..], n - 1);
      assert ws[..n + 1][1..] == ws[1..][..n] && ws[..n][1..] == ws[1..][..n - 1];
    }
  }

  lemma {:induction false} PartsWidth(f: Font, parts: seq<string>, ws: seq<nat>, col: nat)
    requires |parts| == |ws| && col <= |ws|
    requires forall j :: 0 <= j < col ==> Width(f, parts[j]) == ws[j] + 3
    ensures Width(f, Flat(parts[..col])) == Sum(ws[..col]) + 3 * col
  {
    if col == 0 {
      assert ws[..0] == [] && parts[..0] == [];
    } else {
      PartsWidth(f, parts, ws, col - 1);
      Pushed(parts, col - 1);
      FlatPushed(parts[..col - 1], parts[col - 1]);
      WidthAppend(f, Flat(parts[..col - 1]), parts[col - 1]);
      SumPushed(ws, col - 1);
    }
  }

  lemma {:induction false} BeforeWidth(f: Font, aligns: seq<CellAlign>, cells: seq<string>, ws: seq<nat>, k: nat,
                                       col: nat, parts: seq<string>)
    requires Drawable(f) && WideEnough(ws) && col < |ws| && parts == Pieces(f, aligns, CellLines(f, cells, ws), ws, k)
    ensures Width(f, [BAR, ' '] + Flat(parts[..col])) == Sum(ws[..col]) + 3 * col + 2
  {
    forall j | 0 <= j < col ensures Width(f, parts[j]) == ws[j] + 3 { CellWidth(f, aligns, cells, ws, k, j); }
    PartsWidth(f, parts, ws, col);
    BarWidth(f);
    WidthAppend(f, [BAR, ' '], Flat(parts[..col]));
  }

  /** Line k shows the cell of column col at the display width where that column starts. */
  lemma {:induction false} SlotStands(f: Font, aligns: seq<CellAlign>, cells: seq<string>, ws: seq<nat>, k: nat,
                                      col: nat)
    requires Drawable(f) && WideEnough(ws) && col < |ws|
    ensures Stands(f, RowLine(f, aligns, CellLines(f, cells, ws), ws, k), Slot(f, aligns, cells, ws, k, col),
              Sum(ws[..col]) + 3 * col + 2)
  {
    var cellLines := CellLines(f, cells, ws);
    var parts, slot := Pieces(f, aligns, cellLines, ws, k), Slot(f, aligns, cells, ws, k, col);
    var bar := if col == |ws| - 1 then [' ', BAR] else [' ', BAR, ' '];
    assert parts[col] == slot + bar;
    RowPieces(f, aligns, cellLines, ws, k, parts);
    ConcatAround(parts, col);
    BeforeWidth(f, aligns, cells, ws, k, col, parts);
    Between(f, [BAR, ' '], Flat(parts[..col]), slot, bar, Flat(parts[col + 1..]));
  }

  lemma {:induction false} Between(f: Font, a: string, b: string, part: string, c: string, d: string)
    ensures Stands(f, a + (b + ((part + c) + d)), part, Width(f, a + b))
  {
    Around(a, b, part, c, d);
  }

  /** What column col shows down the lines, */
  function Slots(f: Font, aligns: seq<CellAlign>, cells: seq<string>, ws: seq<nat>, col: nat): (r: seq<string>)
    requires col < |ws|
    ensures |r| == Height(CellLines(f, cells, ws))
    ensures forall k :: 0 <= k < |r| ==> r[k] == Slot(f, aligns, cells, ws, k, col)
  {
    var n := Height(CellLines(f, cells, ws));
    seq(n, k requires 0 <= k < n => Slot(f, aligns, cells, ws, k, col))
  }

  /** and of that, what is not padding. */
  function Contents(cellLines: seq<seq<string>>, col: nat): (r: seq<string>)
    ensures |r| == Height(cellLines) && forall k :: 0 <= k < |r| ==> r[k] == Content(cellLines, col, k)
  {
    seq(Height(cellLines), k requires 0 <= k < Height(cellLines) => Content(cellLines, col, k))
  }

  lemma {:induction false} ContentsConcat(cellLines: seq<seq<string>>, col: nat, contents: seq<string>, k: nat)
    requires contents == Contents(cellLines, col) && k <= |contents|
    ensures Flat(contents[k..]) == if col < |cellLines| && k <= |cellLines[col]| then Flat(cellLines[col][k..]) else []
    decreases |contents| - k
  {
    if k < |contents| {
      ContentsConcat(cellLines, col, contents, k + 1);
      Headed(contents, k);
      if col < |cellLines| && k < |cellLines[col]| { Headed(cellLines[col], k); }
    }
  }

  lemma {:induction false} SameInks(f: Font, a: seq<string>, b: seq<string>)
    requires |a| == |b| && forall k :: 0 <= k < |a| ==> Ink(f, a[k]) == Ink(f, b[k])
    ensures InkOf(f, a) == InkOf(f, b)
  {
    if a != [] {
      SameInks(f, a[1..], b[1..]);
      InkAppend(f, a[0], Flat(a[1..]));
      InkAppend(f, b[0], Flat(b[1..]));
    }
  }

  /** All of a cell, of its ink. */
  lemma {:induction false} ColumnInk(f: Font, cells: seq<string>, ws: seq<nat>, col: nat)
    ensures InkOf(f, Contents(CellLines(f, cells, ws), col)) == if col < |cells| then Ink(f, cells[col]) else []
  {
    var cellLines := CellLines(f, cells, ws);
    var contents := Contents(cellLines, col);
    ContentsConcat(cellLines, col, contents, 0);
    assert contents[0..] == contents;
    if col < |cells| {
      assert cellLines[col][0..] == cellLines[col];
      WrappedSound(f, cells[col], if col < |ws| then ws[col] else 10);
    }
  }

  lemma {:induction false} SlotInk(f: Font, aligns: seq<CellAlign>, cells: seq<string>, ws: seq<nat>, k: nat, col: nat)
    requires col < |ws|
    ensures Ink(f, Slot(f, aligns, cells, ws, k, col)) == Ink(f, Content(CellLines(f, cells, ws), col, k))
  {
    FormatPads(f, AlignOf(aligns, col), Content(CellLines(f, cells, ws), col, k), ws[col]);
  }

  lemma {:induction false} SlotsInk(f: Font, aligns: seq<CellAlign>, cells: seq<string>, ws: seq<nat>, col: nat)
    requires col < |ws|
    ensures InkOf(f, Slots(f, aligns, cells, ws, col)) == InkOf(f, Contents(CellLines(f, cells, ws), col))
  {
    var slots, contents := Slots(f, aligns, cells, ws, col), Contents(CellLines(f, cells, ws), col);
    forall k | 0 <= k < |slots|
      ensures Ink(f, slots[k]) == Ink(f, contents[k])
    {
      SlotInk(f, aligns, cells, ws, k, col);
    }
    SameInks(f, slots, contents);
  }

  /** Every one of these lines shows, where column col starts, its piece of the column's cell. */
  ghost predicate ColumnStands(f: Font, aligns: seq<CellAlign>, cells: seq<string>, ws: seq<nat>, col: nat,
                               lines: seq<string>)
    requires col < |ws|
  {
    forall k :: 0 <= k < |lines| ==>
      Stands(f, lines[k], Slot(f, aligns, cells, ws, k, col), Sum(ws[..col]) + 3 * col + 2)
  }

  lemma {:induction false} AllStand(f: Font, aligns: seq<CellAlign>, cells: seq<string>, ws: seq<nat>, col: nat)
    requires Drawable(f) && WideEnough(ws) && col < |ws|
    ensures ColumnStands(f, aligns, cells, ws, col, RowLines(f, aligns, cells, ws))
  {
    var lines := RowLines(f, aligns, cells, ws);
    forall k | 0 <= k < |lines|
      ensures Stands(f, lines[k], Slot(f, aligns, cells, ws, k, col), Sum(ws[..col]) + 3 * col + 2)
    {
      SlotStands(f, aligns, cells, ws, k, col);
    }
  }

  /** Every line drawn shows, where the column starts, its piece of the column's cell, and down the
      lines these pieces show all of it. */
  lemma {:induction false} RowShowsCell(f: Font, aligns: seq<CellAlign>, cells: seq<string>, ws: seq<nat>, col: nat)
    requires Drawable(f) && WideEnough(ws) && col < |ws|
    ensures ColumnStands(f, aligns, cells, ws, col, RowLines(f, aligns, cells, ws))
    ensures InkOf(f, Slots(f, aligns, cells, ws, col)) == if col < |cells| then Ink(f, cells[col]) else []
  {
    AllStand(f, aligns, cells, ws, col);
    SlotsInk(f, aligns, cells, ws, col);
    ColumnInk(f, cells, ws, col);
  }

  // ---------- nothing else is shown ----------

  /** How often s shows the character c. */
  function InkCount(f: Font, s: string, c: char): nat {
    if s == [] then 0 else (if s[0] == c && !f.blank(c) then 1 else 0) + InkCount(f, s[1..], c)
  }

  lemma {:induction false} InkCountAppend(f: Font, a: string, b: string, c: char)
    ensures InkCount(f, a + b, c) == InkCount(f, a, c) + InkCount(f, b, c)
  {
    if a == [] {
      assert a + b == b;
    } else {
      InkCountAppend(f, a[1..], b, c);
      assert (a + b)[0] == a[0] && (a + b)[1..] == a[1..] + b;
    }
  }

  lemma {:induction false} InkCountOf(f: Font, s: string, c: char)
    ensures InkCount(f, s, c) == InkCount(f, Ink(f, s), c)
  {
    if s != [] {
      InkCountOf(f, s[1..], c);
      Tailed(s[0], Ink(f, s[1..]), []);
    }
  }

  lemma {:induction false} SameInkCount(f: Font, s: string, t: string, c: char)
    requires Ink(f, s) == Ink(f, t)
    ensures InkCount(f, s, c) == InkCount(f, t, c)
  {
    InkCountOf(f, s, c);
    InkCountOf(f, t, c);
  }

  lemma {:induction false} NoInkCount(f: Font, s: string, c: char)
    requires Ink(f, s) == []
    ensures InkCount(f, s, c) == 0
  {
    InkCountOf(f, s, c);
  }

  lemma {:induction false} SomeInk(f: Font, s: string) returns (c: char)
    requires Ink(f, s) != []
    ensures InkCount(f, s, c) > 0
  {
    if f.blank(s[0]) { c := SomeInk(f, s[1..]); } else { c := s[0]; }
  }

  /** How much of it is in n bars, */
  function Bars(f: Font, n: nat, c: char): nat {
    if n == 0 then 0 else InkCount(f, [BAR], c) + Bars(f, n - 1, c)
  }

  /** and of the bars of n lines. */
  function FrameInk(f: Font, cols: nat, n: nat, c: char): nat {
    if n == 0 then 0 else Bars(f, cols + 1, c) + FrameInk(f, cols, n - 1, c)
  }

  /** How much of it line k shows in the columns from col on, */
  function LineInk(f: Font, cellLines: seq<seq<string>>, cols: nat, k: nat, col: nat, c: char): nat
    requires col <= cols
    decreases cols - col
  {
    if col == cols then 0 else InkCount(f, Content(cellLines, col, k), c) + LineInk(f, cellLines, cols, k, col + 1, c)
  }

  /** and all lines from k on show there. */
  function ShownLines(f: Font, cellLines: seq<seq<string>>, cols: nat, k: nat, col: nat, c: char): nat
    requires col <= cols && k <= Height(cellLines)
    decreases Height(cellLines) - k
  {
    if k == Height(cellLines) then 0
    else LineInk(f, cellLines, cols, k, col, c) + ShownLines(f, cellLines, cols, k + 1, col, c)
  }

  lemma {:induction false} SeparatorInk(f: Font, c: char)
    ensures InkCount(f, [' ', BAR], c) == InkCount(f, [BAR], c) &&
              InkCount(f, [' ', BAR, ' '], c) == InkCount(f, [BAR], c)
    ensures InkCount(f, [BAR, ' '], c) == InkCount(f, [BAR], c)
  {
    InkBlank(f, ' ');
    assert [' ', BAR] == [' '] + [BAR] && [' ', BAR, ' '] == [' ', BAR] + [' '] && [BAR, ' '] == [BAR] + [' '];
    InkCountAppend(f, [' '], [BAR], c);
    InkCountAppend(f, [' ', BAR], [' '], c);
    InkCountAppend(f, [BAR], [' '], c);
  }

  lemma {:induction false} CellInk(f: Font, aligns: seq<CellAlign>, cellLines: seq<seq<string>>, ws: seq<nat>, k: nat,
                                   col: nat, c: char)
    requires col < |ws|
    ensures InkCount(f, Cell(f, aligns, cellLines, ws, k, col), c) ==
              InkCount(f, Content(cellLines, col, k), c) + InkCount(f, [BAR], c)
  {
    var slot := Format(f, AlignOf(aligns, col), Content(cellLines, col, k), ws[col]);
    FormatPads(f, AlignOf(aligns, col), Content(cellLines, col, k), ws[col]);
    SameInkCount(f, slot, Content(cellLines, col, k), c);
    SeparatorInk(f, c);
    InkCountAppend(f, slot, if col == |ws| - 1 then [' ', BAR] else [' ', BAR, ' '], c);
  }

  lemma {:induction false} PartsInk(f: Font, aligns: seq<CellAlign>, cellLines: seq<seq<string>>, ws: seq<nat>, k: nat,
                                    parts: seq<string>, col: nat, c: char)
    requires parts == Pieces(f, aligns, cellLines, ws, k) && col <= |ws|
    ensures InkCount(f, Flat(parts[col..]), c) == Bars(f, |ws| - col, c) + LineInk(f, cellLines, |ws|, k, col, c)
    decreases |ws| - col
  {
    if col < |ws| {
      PartsInk(f, aligns, cellLines, ws, k, parts, col + 1, c);
      CellInk(f, aligns, cellLines, ws, k, col, c);
      Headed(parts, col);
      InkCountAppend(f, parts[col], Flat(parts[col + 1..]), c);
    }
  }

  lemma {:induction false} RowLineInk(f: Font, aligns: seq<CellAlign>, cellLines: seq<seq<string>>, ws: seq<nat>,
                                      k: nat, c: char)
    ensures InkCount(f, RowLine(f, aligns, cellLines, ws, k), c) ==
              Bars(f, |ws| + 1, c) + LineInk(f, cellLines, |ws|, k, 0, c)
  {
    var parts := Pieces(f, aligns, cellLines, ws, k);
    PartsInk(f, aligns, cellLines, ws, k, parts, 0, c);
    assert parts[0..] == parts;
    RowPieces(f, aligns, cellLines, ws, k, parts);
    SeparatorInk(f, c);
    InkCountAppend(f, [BAR, ' '], Flat(parts), c);
  }

  /** How much of it is in the lines from k on. */
  function LinesCount(f: Font, lines: seq<string>, k: nat, c: char): nat
    requires k <= |lines|
    decreases |lines| - k
  {
    if k == |lines| then 0 else InkCount(f, lines[k], c) + LinesCount(f, lines, k + 1, c)
  }

  lemma {:induction false} FlatCount(f: Font, lines: seq<string>, k: nat, c: char)
    requires k <= |lines|
    ensures InkCount(f, Flat(lines[k..]), c) == LinesCount(f, lines, k, c)
    decreases |lines| - k
  {
    if k < |lines| {
      FlatCount(f, lines, k + 1, c);
      Headed(lines, k);
      InkCountAppend(f, lines[k], Flat(lines[k + 1..]), c);
    }
  }

  lemma {:induction false} RowLinesInk(f: Font, aligns: seq<CellAlign>, cellLines: seq<seq<string>>, ws: seq<nat>,
                                       lines: seq<string>, k: nat, c: char)
    requires k <= |lines| == Height(cellLines)
    requires forall j :: 0 <= j < |lines| ==> lines[j] == RowLine(f, aligns, cellLines, ws, j)
    ensures LinesCount(f, lines, k, c) ==
              FrameInk(f, |ws|, |lines| - k, c) + ShownLines(f, cellLines, |ws|, k, 0, c)
    decreases |lines| - k
  {
    if k < |lines| {
      RowLinesInk(f, aligns, cellLines, ws, lines, k + 1, c);
      RowLineInk(f, aligns, cellLines, ws, k, c);
    }
  }

  lemma {:induction false} ColumnOut(f: Font, cellLines: seq<seq<string>>, cols: nat, k: nat, col: nat,
                                     contents: seq<string>, c: char)
    requires col < cols && contents == Contents(cellLines, col) && k <= |contents|
    ensures ShownLines(f, cellLines, cols, k, col, c)
         == InkCount(f, Flat(contents[k..]), c) + ShownLines(f, cellLines, cols, k, col + 1, c)
    decreases |contents| - k
  {
    if k < |contents| {
      ColumnOut(f, cellLines, cols, k + 1, col, contents, c);
      Headed(contents, k);
      InkCountAppend(f, contents[k], Flat(contents[k + 1..]), c);
    }
  }

  lemma {:induction false} NoColumns(f: Font, cellLines: seq<seq<string>>, cols: nat, k: nat, c: char)
    requires k <= Height(cellLines)
    ensures ShownLines(f, cellLines, cols, k, cols, c) == 0
    decreases Height(cellLines) - k
  {
    if k < Height(cellLines) { NoColumns(f, cellLines, cols, k + 1, c); }
  }

  /** How much of it is in the cells from col on that have a column. */
  function ShownInk(f: Font, cells: seq<string>, cols: nat, col: nat, c: char): nat
    decreases |cells| - col
  {
    if col >= |cells| || col >= cols then 0 else InkCount(f, cells[col], c) + ShownInk(f, cells, cols, col + 1, c)
  }

  lemma {:induction false} LinesShow(f: Font, cells: seq<string>, ws: seq<nat>, col: nat, c: char)
    requires col <= |ws|
    ensures ShownLines(f, CellLines(f, cells, ws), |ws|, 0, col, c) == ShownInk(f, cells, |ws|, col, c)
    decreases |ws| - col
  {
    var cellLines := CellLines(f, cells, ws);
    if col < |ws| {
      LinesShow(f, cells, ws, col + 1, c);
      var contents := Contents(cellLines, col);
      ColumnOut(f, cellLines, |ws|, 0, col, contents, c);
      assert contents[0..] == contents;
      ColumnInk(f, cells, ws, col);
      SameInkCount(f, Flat(contents), if col < |cells| then cells[col] else [], c);
      if col >= |cells| { NoneShown(f, cells, |ws|, col + 1, c); }
    } else {
      NoColumns(f, cellLines, |ws|, 0, c);
    }
  }

  lemma {:induction false} NoneShown(f: Font, cells: seq<string>, cols: nat, col: nat, c: char)
    requires col >= |cells|
    ensures ShownInk(f, cells, cols, col, c) == 0
  {
  }

  /** The cells from col on, but for those beyond the columns. */
  lemma {:induction false} ShownOrSurplus(f: Font, cells: seq<string>, cols: nat, col: nat, c: char)
    requires col <= |cells|
    ensures InkCount(f, Flat(cells[col..]), c) ==
            ShownInk(f, cells, cols, col, c) +
              if |cells| <= cols then 0 else InkCount(f, Flat(cells[if col < cols then cols else col..]), c)
    decreases |cells| - col
  {
    if col < |cells| && col < cols {
      ShownOrSurplus(f, cells, cols, col + 1, c);
      Headed(cells, col);
      InkCountAppend(f, cells[col], Flat(cells[col + 1..]), c);
    } else if col == |cells| {
      assert cells[col..] == [];
    }
  }

  lemma {:induction false} RowInk(f: Font, aligns: seq<CellAlign>, cells: seq<string>, ws: seq<nat>, c: char)
    ensures var lines := RowLines(f, aligns, cells, ws);
            InkCount(f, Flat(lines), c) == FrameInk(f, |ws|, |lines|, c) + ShownInk(f, cells, |ws|, 0, c)
  {
    var lines := RowLines(f, aligns, cells, ws);
    RowLinesInk(f, aligns, CellLines(f, cells, ws), ws, lines, 0, c);
    FlatCount(f, lines, 0, c);
    LinesShow(f, cells, ws, 0, c);
    assert lines[0..] == lines;
  }

  /** The cells beyond the columns. */
  function Surplus(cells: seq<string>, cols: nat): string {
    if |cells| <= cols then [] else Flat(cells[cols..])
  }

  lemma {:induction false} RowShort(f: Font, aligns: seq<CellAlign>, cells: seq<string>, ws: seq<nat>, c: char)
    ensures var lines := RowLines(f, aligns, cells, ws);
            InkCount(f, Flat(lines), c) + InkCount(f, Surplus(cells, |ws|), c)
              == FrameInk(f, |ws|, |lines|, c) + InkCount(f, Flat(cells), c)
  {
    RowInk(f, aligns, cells, ws, c);
    ShownOrSurplus(f, cells, |ws|, 0, c);
    assert cells[0..] == cells;
  }

  /** The lines show each character as often as the cells do, besides the bars. */
  ghost predicate ShowAll(f: Font, cells: seq<string>, cols: nat, lines: seq<string>) {
    forall c :: InkCount(f, Flat(lines), c) == FrameInk(f, cols, |lines|, c) + InkCount(f, Flat(cells), c)
  }

  /** A row is drawn with all the ink of its cells if and only if the cells beyond the columns have
      none: those are not drawn. */
  lemma {:induction false} RowShowsAll(f: Font, aligns: seq<CellAlign>, cells: seq<string>, ws: seq<nat>)
    ensures ShowAll(f, cells, |ws|, RowLines(f, aligns, cells, ws)) <==> Ink(f, Surplus(cells, |ws|)) == []
  {
    var lines, surplus := RowLines(f, aligns, cells, ws), Surplus(cells, |ws|);
    if Ink(f, surplus) == [] {
      forall c ensures InkCount(f, Flat(lines), c) == FrameInk(f, |ws|, |lines|, c) + InkCount(f, Flat(cells), c) {
        RowShort(f, aligns, cells, ws, c);
        NoInkCount(f, surplus, c);
      }
    } else {
      var c := SomeInk(f, surplus);
      RowShort(f, aligns, cells, ws, c);
    }
  }
}
