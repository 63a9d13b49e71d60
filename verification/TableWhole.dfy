/** What a whole table shows of its cells (crates/tui/src/table.rs:321-350, 539-601). */
module TableWhole {
  import opened Messages
  import opened Sequences
  import opened TableWrap
  import opened TableRender
  import opened TableContent

  /** How much of a character there is in the cells of these rows, */
  function RowsInk(f: Font, rows: seq<Row>, c: char): nat {
    if rows == [] then 0 else InkCount(f, Flat(rows[0].cells), c) + RowsInk(f, rows[1..], c)
  }

  /** in those beyond the columns, */
  function SurplusInk(f: Font, rows: seq<Row>, cols: nat, c: char): nat {
    if rows == [] then 0 else InkCount(f, Surplus(rows[0].cells, cols), c) + SurplusInk(f, rows[1..], cols, c)
  }

  /** and in the bars drawn around them. */
  function RowsFrame(f: Font, aligns: seq<CellAlign>, rows: seq<Row>, ws: seq<nat>, c: char): nat {
    if rows == [] then 0
    else
      FrameInk(f, |ws|, |RowLines(f, aligns, rows[0].cells, ws)|, c) + RowsFrame(f, aligns, rows[1..], ws, c)
  }

  lemma {:induction false} LinesAppend(f: Font, a: seq<string>, b: seq<string>, c: char)
    ensures InkCount(f, Flat(a + b), c) == InkCount(f, Flat(a), c) + InkCount(f, Flat(b), c)
  {
    FlatAppend(a, b);
    InkCountAppend(f, Flat(a), Flat(b), c);
  }

  lemma {:induction false} LineCount(f: Font, line: string, c: char)
    ensures InkCount(f, Flat([line]), c) == InkCount(f, line, c)
  {
    FlatOne(line);
  }

  lemma {:induction false} RowFits(f: Font, aligns: seq<CellAlign>, cells: seq<string>, ws: seq<nat>, c: char)
    requires |cells| <= |ws|
    ensures var lines := RowLines(f, aligns, cells, ws);
            InkCount(f, Flat(lines), c) == FrameInk(f, |ws|, |lines|, c) + InkCount(f, Flat(cells), c)
  {
    RowShort(f, aligns, cells, ws, c);
    assert Surplus(cells, |ws|) == [];
  }

  // ---------- the complete table ----------

  function AllRows(t: Table): seq<Row> {
    (if t.header.Some? then [t.header.value] else []) + t.rows
  }

  /** The rules and bars of a table. */
  function TableFrame(f: Font, t: Table, ws: seq<nat>, c: char): nat {
    if ws == [] then 0
    else
      InkCount(f, Top(ws), c) + InkCount(f, Bottom(ws), c)
      + (if t.header.Some? || t.aligns != [] then InkCount(f, Middle(ws), c) else 0)
      + RowsFrame(f, t.aligns, AllRows(t), ws, c)
  }

  lemma {:induction false} BodyInk(f: Font, aligns: seq<CellAlign>, rows: seq<Row>, ws: seq<nat>, c: char)
    ensures InkCount(f, Flat(BodyLines(f, aligns, rows, ws)), c) + SurplusInk(f, rows, |ws|, c)
         == RowsFrame(f, aligns, rows, ws, c) + RowsInk(f, rows, c)
  {
    if rows != [] {
      BodyInk(f, aligns, rows[1..], ws, c);
      RowShort(f, aligns, rows[0].cells, ws, c);
      LinesAppend(f, RowLines(f, aligns, rows[0].cells, ws), BodyLines(f, aligns, rows[1..], ws), c);
    }
  }

  lemma {:induction false} HeadInk(f: Font, t: Table, ws: seq<nat>, c: char)
    requires t.header.Some? ==> |ws| == |t.header.value.cells|
    ensures var middle := if t.header.Some? || t.aligns != [] then InkCount(f, Middle(ws), c) else 0;
            InkCount(f, Flat(HeadLines(f, t, ws)), c) + RowsFrame(f, t.aligns, t.rows, ws, c) + RowsInk(f, t.rows, c)
              == middle + RowsFrame(f, t.aligns, AllRows(t), ws, c) + RowsInk(f, AllRows(t), c)
    ensures SurplusInk(f, AllRows(t), |ws|, c) == SurplusInk(f, t.rows, |ws|, c)
  {
    LineCount(f, Middle(ws), c);
    if t.header.Some? {
      var lines := RowLines(f, t.aligns, t.header.value.cells, ws);
      RowFits(f, t.aligns, t.header.value.cells, ws, c);
      LinesAppend(f, lines, [Middle(ws)], c);
      assert AllRows(t)[0] == t.header.value && AllRows(t)[1..] == t.rows;
    } else {
      assert AllRows(t) == t.rows;
    }
  }

  lemma {:induction false} NothingDrawn(f: Font, rows: seq<Row>, c: char)
    ensures SurplusInk(f, rows, 0, c) == RowsInk(f, rows, c)
  {
    if rows != [] {
      NothingDrawn(f, rows[1..], c);
      assert rows[0].cells[0..] == rows[0].cells;
    }
  }

  /** Of each character the lines show what the frame and the cells hold, less what is beyond the columns. */
  lemma {:induction false} TableInk(f: Font, t: Table, maxWidth: nat, c: char)
    ensures InkCount(f, Flat(TableLines(f, t, maxWidth)), c) + SurplusInk(f, AllRows(t), Columns(t), c)
         == TableFrame(f, t, Widths(f, t, maxWidth), c) + RowsInk(f, AllRows(t), c)
  {
    var ws := Widths(f, t, maxWidth);
    if ws == [] {
      NothingDrawn(f, AllRows(t), c);
    } else {
      var head, body := HeadLines(f, t, ws), BodyLines(f, t.aligns, t.rows, ws);
      HeadInk(f, t, ws, c);
      BodyInk(f, t.aligns, t.rows, ws, c);
      LineCount(f, Top(ws), c);
      LineCount(f, Bottom(ws), c);
      LinesAppend(f, [Top(ws)], head, c);
      LinesAppend(f, [Top(ws)] + head, body, c);
      LinesAppend(f, [Top(ws)] + head + body, [Bottom(ws)], c);
    }
  }

  /** The lines show each character as often as the cells do, besides the frame. */
  ghost predicate ShowsTable(f: Font, t: Table, maxWidth: nat) {
    forall c :: InkCount(f, Flat(TableLines(f, t, maxWidth)), c)
             == TableFrame(f, t, Widths(f, t, maxWidth), c) + RowsInk(f, AllRows(t), c)
  }

  lemma {:induction false} SurplusAt(f: Font, rows: seq<Row>, cols: nat, k: nat, c: char)
    requires k < |rows|
    ensures SurplusInk(f, rows, cols, c) >= InkCount(f, Surplus(rows[k].cells, cols), c)
  {
    if k > 0 { SurplusAt(f, rows[1..], cols, k - 1, c); }
  }

  lemma {:induction false} NoSurplus(f: Font, rows: seq<Row>, cols: nat, c: char)
    requires forall k :: 0 <= k < |rows| ==> Ink(f, Surplus(rows[k].cells, cols)) == []
    ensures SurplusInk(f, rows, cols, c) == 0
  {
    if rows != [] {
      NoInkCount(f, Surplus(rows[0].cells, cols), c);
      NoSurplus(f, rows[1..], cols, c);
    }
  }

  /** A complete table is drawn with all the ink of its cells if and only if no row has ink beyond the
      columns, which the header, or else the first row, determines. */
  lemma {:induction false} TableShowsAll(f: Font, t: Table, maxWidth: nat)
    ensures ShowsTable(f, t, maxWidth) <==>
              forall k :: 0 <= k < |AllRows(t)| ==> Ink(f, Surplus(AllRows(t)[k].cells, Columns(t))) == []
  {
    var rows, cols := AllRows(t), Columns(t);
    if forall k :: 0 <= k < |rows| ==> Ink(f, Surplus(rows[k].cells, cols)) == [] {
      forall c ensures InkCount(f, Flat(TableLines(f, t, maxWidth)), c)
                    == TableFrame(f, t, Widths(f, t, maxWidth), c) + RowsInk(f, rows, c)
      {
        TableInk(f, t, maxWidth, c);
        NoSurplus(f, rows, cols, c);
      }
    } else {
      var k :| 0 <= k < |rows| && Ink(f, Surplus(rows[k].cells, cols)) != [];
      var c := SomeInk(f, Surplus(rows[k].cells, cols));
      TableInk(f, t, maxWidth, c);
      SurplusAt(f, rows, cols, k, c);
    }
  }

  /** Such a table: the second cell of its second row is lost. */
  lemma {:induction false} SecondCellLost(f: Font, t: Table, maxWidth: nat)
    requires !f.blank('c') && t == Table(Some(Row(["a"], true)), [Row(["b", "c"], false)], [])
    ensures !ShowsTable(f, t, maxWidth)
  {
    var cells := ["b", "c"];
    TableShowsAll(f, t, maxWidth);
    assert AllRows(t)[1].cells == cells && cells[1..] == ["c"];
    FlatOne("c");
    assert Surplus(cells, 1) == "c" && "c"[0] == 'c';
  }

  // ---------- a growing table ----------

  /** The rules and bars of the rows from i on, */
  function GrowingRowsFrame(f: Font, g: Growing, ws: seq<nat>, i: nat, c: char): nat
    requires i <= |g.rows|
    decreases |g.rows| - i
  {
    if i == |g.rows| then 0
    else
      FrameInk(f, |ws|, |RowLines(f, g.aligns, g.rows[i].cells, ws)|, c)
      + (if (g.rows[i].isHeader && !g.expectingSeparator) || i < |g.rows| - 1 then InkCount(f, Middle(ws), c) else 0)
      + GrowingRowsFrame(f, g, ws, i + 1, c)
  }

  /** and of the table. */
  function GrowingFrame(f: Font, g: Growing, ws: seq<nat>, c: char): nat {
    if g.rows == [] && CurrentCells(g) == [] then 0
    else
      InkCount(f, Top(ws), c) + InkCount(f, Bottom(ws), c) + GrowingRowsFrame(f, g, ws, 0, c)
      + FrameInk(f, |ws|, |CurrentLines(f, g, ws)|, c)
  }

  lemma {:induction false} GrowingRowsInk(f: Font, g: Growing, ws: seq<nat>, i: nat, c: char)
    requires i <= |g.rows| && |ws| == GrowingColumns(g)
    ensures InkCount(f, Flat(GrowingRows(f, g, ws, i)), c)
         == GrowingRowsFrame(f, g, ws, i, c) + RowsInk(f, g.rows[i..], c)
    decreases |g.rows| - i
  {
    if i < |g.rows| {
      var lines, rest := RowLines(f, g.aligns, g.rows[i].cells, ws), GrowingRows(f, g, ws, i + 1);
      var rule := if (g.rows[i].isHeader && !g.expectingSeparator) || i < |g.rows| - 1 then [Middle(ws)] else [];
      GrowingRowsInk(f, g, ws, i + 1, c);
      RowFits(f, g.aligns, g.rows[i].cells, ws, c);
      LineCount(f, Middle(ws), c);
      LinesAppend(f, lines, rule, c);
      LinesAppend(f, lines + rule, rest, c);
      assert g.rows[i..][0] == g.rows[i] && g.rows[i..][1..] == g.rows[i + 1..];
    }
  }

  lemma {:induction false} CurrentInk(f: Font, g: Growing, ws: seq<nat>, c: char)
    requires |ws| == GrowingColumns(g)
    ensures InkCount(f, Flat(CurrentLines(f, g, ws)), c)
         == FrameInk(f, |ws|, |CurrentLines(f, g, ws)|, c) + InkCount(f, Flat(CurrentCells(g)), c)
  {
    if CurrentCells(g) != [] { RowFits(f, g.aligns, CurrentCells(g), ws, c); }
  }

  /** A growing table has a column for every cell, and is always drawn with all their ink. */
  lemma {:induction false} GrowingShowsAll(f: Font, g: Growing, maxWidth: nat, c: char)
    ensures InkCount(f, Flat(GrowingLines(f, g, maxWidth)), c)
         == GrowingFrame(f, g, GrowingWidths(f, g, maxWidth), c) + RowsInk(f, g.rows, c)
            + InkCount(f, Flat(CurrentCells(g)), c)
  {
    var ws := GrowingWidths(f, g, maxWidth);
    if g.rows != [] || CurrentCells(g) != [] {
      var rows, current := GrowingRows(f, g, ws, 0), CurrentLines(f, g, ws);
      GrowingRowsInk(f, g, ws, 0, c);
      assert g.rows[0..] == g.rows;
      CurrentInk(f, g, ws, c);
      LineCount(f, Top(ws), c);
      LineCount(f, Bottom(ws), c);
      LinesAppend(f, [Top(ws)], rows, c);
      LinesAppend(f, [Top(ws)] + rows, current, c);
      LinesAppend(f, [Top(ws)] + rows + current, [Bottom(ws)], c);
    }
  }
}
