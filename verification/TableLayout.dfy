/** Where everything stands in a drawn table (crates/tui/src/table.rs:275-427, 533-714). */
module TableLayout {
  import opened Messages
  import opened Sequences
  import opened TableWrap
  import opened TableRender

  // ---------- rules ----------

  /** Where the c-th corner or junction of a rule stands. */
  function Junction(ws: seq<nat>, c: nat): nat
    requires c <= |ws|
  {
    Sum(ws[..c]) + 3 * c
  }

  lemma {:induction false} SumFirst(ws: seq<nat>, c: nat)
    requires 0 < c <= |ws|
    ensures Sum(ws[..c]) == ws[0] + Sum(ws[1..][..c - 1])
    ensures Junction(ws, c) == ws[0] + 3 + Junction(ws[1..], c - 1)
  {
    assert ws[..c][0] == ws[0] && ws[..c][1..] == ws[1..][..c - 1];
  }

  lemma {:induction false} Dashes(n: nat)
    ensures |Repeat(DASH, n)| == n && forall k :: 0 <= k < n ==> Repeat(DASH, n)[k] == DASH
  {
    if n > 0 { Dashes(n - 1); }
  }

  lemma {:induction false} RuleLength(ws: seq<nat>, mid: char)
    requires ws != []
    ensures |RuleFrom(ws, mid)| + 1 == Junction(ws, |ws|)
  {
    Dashes(ws[0] + 2);
    SumFirst(ws, |ws|);
    assert ws[1..][..|ws| - 1] == ws[1..];
    if |ws| > 1 {
      RuleLength(ws[1..], mid);
    } else {
      assert ws[1..] == [];
    }
  }

  /** Between the corners there is a junction after each column but the last, and dashes elsewhere. */
  lemma {:induction false} RuleFromLooks(ws: seq<nat>, mid: char, c: nat, p: nat)
    requires c < |ws| && Junction(ws, c) < p <= Junction(ws, c + 1) && p < Junction(ws, |ws|)
    ensures p - 1 < |RuleFrom(ws, mid)| && RuleFrom(ws, mid)[p - 1] == if p < Junction(ws, c + 1) then DASH else mid
    decreases |ws|
  {
    SumFirst(ws, c + 1);
    if c == 0 {
      assert Sum(ws[1..][..0]) == 0 && Sum(ws[..0]) == 0;
      FirstColumn(ws, mid, p);
    } else {
      SumFirst(ws, c);
      SumFirst(ws, |ws|);
      assert ws[1..][..|ws| - 1] == ws[1..];
      RuleFromLooks(ws[1..], mid, c - 1, p - ws[0] - 3);
      LaterColumns(ws, mid, p);
    }
  }

  lemma {:induction false} FirstColumn(ws: seq<nat>, mid: char, p: nat)
    requires ws != [] && 0 < p <= ws[0] + 3 && p < Junction(ws, |ws|)
    ensures p - 1 < |RuleFrom(ws, mid)| && RuleFrom(ws, mid)[p - 1] == if p < ws[0] + 3 then DASH else mid
  {
    RuleLength(ws, mid);
    Dashes(ws[0] + 2);
  }

  lemma {:induction false} LaterColumns(ws: seq<nat>, mid: char, p: nat)
    requires |ws| > 1 && p > ws[0] + 3 && p - ws[0] - 4 < |RuleFrom(ws[1..], mid)|
    ensures p - 1 < |RuleFrom(ws, mid)| && RuleFrom(ws, mid)[p - 1] == RuleFrom(ws[1..], mid)[p - ws[0] - 4]
  {
    Dashes(ws[0] + 2);
  }

  /** A rule is drawn with its corners at the ends, a junction between two columns, and dashes. */
  lemma {:induction false} RuleLooks(ws: seq<nat>, left: char, mid: char, right: char, c: nat, p: nat)
    requires c < |ws| && Junction(ws, c) < p <= Junction(ws, c + 1)
    ensures var rule := Rule(ws, left, mid, right);
            && p < |rule| == Junction(ws, |ws|) + 1 && rule[0] == left
            && rule[p] == if p < Junction(ws, c + 1) then DASH else if c + 1 < |ws| then mid else right
  {
    RuleLength(ws, mid);
    JunctionsRise(ws, c + 1, |ws|);
    if p < Junction(ws, |ws|) { RuleFromLooks(ws, mid, c, p); }
    if c + 1 < |ws| { JunctionsRise(ws, c + 2, |ws|); SumStep(ws, c + 1); }
  }

  lemma {:induction false} SumStep(ws: seq<nat>, c: nat)
    requires c < |ws|
    ensures Junction(ws, c + 1) == Junction(ws, c) + ws[c] + 3
  {
    SumFirst(ws, c + 1);
    if c > 0 {
      SumFirst(ws, c);
      SumStep(ws[1..], c - 1);
    } else {
      assert Sum(ws[1..][..0]) == 0 && Sum(ws[..0]) == 0;
    }
  }

  lemma {:induction false} JunctionsRise(ws: seq<nat>, c: nat, d: nat)
    requires c <= d <= |ws|
    ensures Junction(ws, c) <= Junction(ws, d)
    decreases d - c
  {
    if c < d {
      SumStep(ws, c);
      JunctionsRise(ws, c + 1, d);
    }
  }

  /** The corners of a table. */
  lemma {:induction false} Corners(ws: seq<nat>, c: nat)
    requires c < |ws|
    ensures var at, last := Junction(ws, c + 1), c + 1 == |ws|;
            && at < |Top(ws)| == |Middle(ws)| == |Bottom(ws)|
            && Top(ws)[0] == '\U{250C}' && Top(ws)[at] == (if last then '\U{2510}' else '\U{252C}')
            && Middle(ws)[0] == '\U{251C}' && Middle(ws)[at] == (if last then '\U{2524}' else '\U{253C}')
            && Bottom(ws)[0] == '\U{2514}' && Bottom(ws)[at] == (if last then '\U{2518}' else '\U{2534}')
  {
    var at := Junction(ws, c + 1);
    SumStep(ws, c);
    JunctionsRise(ws, c + 1, |ws|);
    RuleLooks(ws, '\U{250C}', '\U{252C}', '\U{2510}', c, at);
    RuleLooks(ws, '\U{251C}', '\U{253C}', '\U{2524}', c, at);
    RuleLooks(ws, '\U{2514}', '\U{2534}', '\U{2518}', c, at);
  }

  // ---------- lines, block after block ----------

  /** How many lines there are in the first n blocks. */
  function Offset(blocks: seq<seq<string>>, n: nat): nat
    requires n <= |blocks|
  {
    if n == 0 then 0 else Offset(blocks, n - 1) + |blocks[n - 1]|
  }

  lemma {:induction false} FirstBlocks(blocks: seq<seq<string>>, n: nat)
    requires n <= |blocks|
    ensures |Flat(blocks[..n])| == Offset(blocks, n)
  {
    if n > 0 {
      FirstBlocks(blocks, n - 1);
      Pushed(blocks, n - 1);
      FlatPushed(blocks[..n - 1], blocks[n - 1]);
    } else {
      assert blocks[..0] == [];
    }
  }

  /** The lines are these blocks, one below the other: block k begins below those before it. */
  ghost predicate Stacked(lines: seq<string>, blocks: seq<seq<string>>) {
    && |lines| == Offset(blocks, |blocks|)
    && forall k :: 0 <= k < |blocks| ==>
         Offset(blocks, k) + |blocks[k]| <= |lines| && lines[Offset(blocks, k)..][..|blocks[k]|] == blocks[k]
  }

  lemma {:induction false} BlockStands(blocks: seq<seq<string>>, k: nat)
    requires k < |blocks|
    ensures var lines := Flat(blocks);
            Offset(blocks, k) + |blocks[k]| <= |lines| && lines[Offset(blocks, k)..][..|blocks[k]|] == blocks[k]
  {
    var before, after := Flat(blocks[..k]), Flat(blocks[k + 1..]);
    FirstBlocks(blocks, k);
    assert blocks == blocks[..k] + blocks[k..];
    FlatAppend(blocks[..k], blocks[k..]);
    Headed(blocks, k);
    assert (before + (blocks[k] + after))[|before|..] == blocks[k] + after;
  }

  lemma {:induction false} FlatStacked(blocks: seq<seq<string>>)
    ensures Stacked(Flat(blocks), blocks)
  {
    FirstBlocks(blocks, |blocks|);
    assert blocks[..|blocks|] == blocks;
    forall k | 0 <= k < |blocks|
      ensures Offset(blocks, k) + |blocks[k]| <= |Flat(blocks)| &&
                Flat(blocks)[Offset(blocks, k)..][..|blocks[k]|] == blocks[k]
    {
      BlockStands(blocks, k);
    }
  }

  lemma {:induction false} FlatThree(a: seq<seq<string>>, b: seq<seq<string>>, c: seq<seq<string>>)
    ensures Flat(a + b + c) == Flat(a) + Flat(b) + Flat(c)
  {
    FlatAppend(a + b, c);
    FlatAppend(a, b);
  }

  // ---------- the complete table ----------

  /** The rows in their order. */
  function RowBlocks(f: Font, aligns: seq<CellAlign>, rows: seq<Row>, ws: seq<nat>): (r: seq<seq<string>>)
    ensures |r| == |rows| && forall k :: 0 <= k < |r| ==> r[k] == RowLines(f, aligns, rows[k].cells, ws)
  {
    seq(|rows|, k requires 0 <= k < |rows| => RowLines(f, aligns, rows[k].cells, ws))
  }

  function HeadBlocks(f: Font, t: Table, ws: seq<nat>): seq<seq<string>> {
    if t.header.Some? then [RowLines(f, t.aligns, t.header.value.cells, ws), [Middle(ws)]]
    else if t.aligns != [] then [[Middle(ws)]]
    else []
  }

  lemma {:induction false} BodyStacked(f: Font, aligns: seq<CellAlign>, rows: seq<Row>, ws: seq<nat>)
    ensures BodyLines(f, aligns, rows, ws) == Flat(RowBlocks(f, aligns, rows, ws))
  {
    if rows != [] {
      BodyStacked(f, aligns, rows[1..], ws);
      var first, rest := RowLines(f, aligns, rows[0].cells, ws), RowBlocks(f, aligns, rows[1..], ws);
      assert RowBlocks(f, aligns, rows, ws) == [first] + rest;
      Tailed(first, rest, []);
    }
  }

  lemma {:induction false} HeadStacked(f: Font, t: Table, ws: seq<nat>)
    ensures HeadLines(f, t, ws) == Flat(HeadBlocks(f, t, ws))
  {
    FlatOne([Middle(ws)]);
    if t.header.Some? {
      var header := RowLines(f, t.aligns, t.header.value.cells, ws);
      FlatPushed([header], [Middle(ws)]);
      FlatOne(header);
      assert [header] + [[Middle(ws)]] == [header, [Middle(ws)]];
    }
  }

  /** A table with columns is drawn from top to bottom as: the top rule; the header and the rule under it, or
      that rule alone if there are alignments without a header; the rows in their order; the bottom rule. */
  lemma {:induction false} TableStacked(f: Font, t: Table, maxWidth: nat)
    ensures var ws := Widths(f, t, maxWidth);
            if Columns(t) == 0 then TableLines(f, t, maxWidth) == []
            else
              Stacked(TableLines(f, t, maxWidth),
                      [[Top(ws)]] + (HeadBlocks(f, t, ws) + RowBlocks(f, t.aligns, t.rows, ws)) + [[Bottom(ws)]])
  {
    var ws := Widths(f, t, maxWidth);
    var head, rows := HeadBlocks(f, t, ws), RowBlocks(f, t.aligns, t.rows, ws);
    HeadStacked(f, t, ws);
    BodyStacked(f, t.aligns, t.rows, ws);
    FlatAppend(head, rows);
    FlatOne([Top(ws)]);
    FlatOne([Bottom(ws)]);
    FlatThree([[Top(ws)]], head + rows, [[Bottom(ws)]]);
    Regrouped([Top(ws)], Flat(head), Flat(rows));
    FlatStacked([[Top(ws)]] + (head + rows) + [[Bottom(ws)]]);
  }

  // ---------- a growing table ----------

  function RuledRow(f: Font, g: Growing, ws: seq<nat>, i: nat): seq<string>
    requires i < |g.rows|
  {
    RowLines(f, g.aligns, g.rows[i].cells, ws) +
    if (g.rows[i].isHeader && !g.expectingSeparator) || i + 1 < |g.rows| then [Middle(ws)] else []
  }

  /** The rows in their order, with a rule under the header and between two rows. */
  function RuledBlocks(f: Font, g: Growing, ws: seq<nat>): (r: seq<seq<string>>)
    ensures |r| == |g.rows| && forall k :: 0 <= k < |r| ==> r[k] == RuledRow(f, g, ws, k)
  {
    seq(|g.rows|, k requires 0 <= k < |g.rows| => RuledRow(f, g, ws, k))
  }

  lemma {:induction false} GrowingRowsStacked(f: Font, g: Growing, ws: seq<nat>, blocks: seq<seq<string>>, i: nat)
    requires i <= |g.rows| && blocks == RuledBlocks(f, g, ws)
    ensures GrowingRows(f, g, ws, i) == Flat(blocks[i..])
    decreases |g.rows| - i
  {
    if i < |g.rows| {
      GrowingRowsStacked(f, g, ws, blocks, i + 1);
      RuledRowFirst(f, g, ws, i);
      Headed(blocks, i);
    }
  }

  lemma {:induction false} RuledRowFirst(f: Font, g: Growing, ws: seq<nat>, i: nat)
    requires i < |g.rows|
    ensures GrowingRows(f, g, ws, i) == RuledRow(f, g, ws, i) + GrowingRows(f, g, ws, i + 1)
  {
  }

  /** A growing table is drawn from top to bottom as: the top rule; the rows in their order, with their rules;
      the row being read; the bottom rule. */
  lemma {:induction false} GrowingStacked(f: Font, g: Growing, maxWidth: nat)
    ensures var ws := GrowingWidths(f, g, maxWidth);
            var current := if CurrentCells(g) == [] then [] else RowLines(f, g.aligns, CurrentCells(g), ws);
            if g.rows == [] && CurrentCells(g) == [] then GrowingLines(f, g, maxWidth) == []
            else
              Stacked(GrowingLines(f, g, maxWidth),
                      [[Top(ws)]] + (RuledBlocks(f, g, ws) + [current]) + [[Bottom(ws)]])
  {
    var ws := GrowingWidths(f, g, maxWidth);
    var rows, current := RuledBlocks(f, g, ws), CurrentLines(f, g, ws);
    GrowingRowsStacked(f, g, ws, rows, 0);
    assert rows[0..] == rows;
    FlatPushed(rows, current);
    FlatOne([Top(ws)]);
    FlatOne([Bottom(ws)]);
    FlatThree([[Top(ws)]], rows + [current], [[Bottom(ws)]]);
    Regrouped([Top(ws)], Flat(rows), current);
    FlatStacked([[Top(ws)]] + (rows + [current]) + [[Bottom(ws)]]);
  }

  // ---------- how wide a column is ----------

  lemma {:induction false} FloorShare(w: nat, available: nat, content: nat)
    requires content > 0
    ensures var share := Share(w, available, content);
            share >= 3 && (share + 1) * content > w * available && (share > 3 ==> share * content <= w * available)
  {
    var part := w * available;
    var floor := part / content;
    assert floor * content <= part < floor * content + content;
    assert (floor + 1) * content == floor * content + content;
    if floor < 3 { Least(floor + 1, 4, content); }
  }

  lemma {:induction false} Least(a: nat, b: nat, c: nat)
    requires a <= b
    ensures a * c <= b * c
  {
    assert b * c == a * c + (b - a) * c;
  }

  /** Columns keep their natural widths when the table fits, or when the borders alone fill the screen;
      otherwise each gets its share of the room, rounded down, or 3 if that is more. */
  lemma {:induction false} ScaledExactly(ws: seq<nat>, maxWidth: nat, k: nat)
    requires k < |ws| && forall k :: 0 <= k < |ws| ==> ws[k] >= 3
    ensures var border := 3 * |ws| + 1;
            var room := if maxWidth > border then maxWidth - border else 0;
            var scaled := Scaled(ws, maxWidth)[k];
            if room == 0 || Sum(ws) <= room then scaled == ws[k]
            else
              && scaled >= 3 && (scaled + 1) * Sum(ws) > ws[k] * room
              && (scaled > 3 ==> scaled * Sum(ws) <= ws[k] * room)
  {
    var border := 3 * |ws| + 1;
    SumAtLeast(ws, k);
    if maxWidth > border && Sum(ws) > maxWidth - border { FloorShare(ws[k], maxWidth - border, Sum(ws)); }
  }

  lemma {:induction false} SumAtLeast(ws: seq<nat>, k: nat)
    requires k < |ws|
    ensures Sum(ws) >= ws[k]
  {
    if k > 0 { SumAtLeast(ws[1..], k - 1); }
  }
}
