/** Rendering tables, complete or still growing (crates/tui/src/table.rs:20-39, 275-427, 533-714). */
module TableRender {
  import opened Sequences
  import opened TableWrap
  import opened Messages

  // ---------- a whole cell ----------

  function WithoutCr(s: string): string {
    if s != [] && s[|s| - 1] == '\r' then s[..|s| - 1] else s
  }

  /** The lines of text, when `cur` has been read in front of it: line feeds, with or without a carriage
      return before them, end lines. */
  function LinesFrom(text: string, cur: string): seq<string> {
    if text == [] then if cur == [] then [] else [cur]
    else if text[0] == '\n' then [WithoutCr(cur)] + LinesFrom(text[1..], [])
    else LinesFrom(text[1..], cur + [text[0]])
  }

  function WrapAll(f: Font, lines: seq<string>, max: nat): seq<string> {
    if lines == [] then [] else WrapLine(f, lines[0], max) + WrapAll(f, lines[1..], max)
  }

  function Wrapped(f: Font, text: string, max: nat): seq<string> {
    if text == [] then [""] else WrapAll(f, LinesFrom(text, []), max)
  }

  method WrapTextToWidth(f: Font, text: string, max: nat) returns (lines: seq<string>)
    ensures lines == Wrapped(f, text, max) && lines != []
  {
    if text == "" {
      return [""];
    }
    SomeLine(f, text, [], max);
    var source := LinesFrom(text, []);
    lines := [];
    for i := 0 to |source|
      invariant lines + WrapAll(f, source[i..], max) == Wrapped(f, text, max)
    {
      Headed(source, i);
      var wrapped := WrapTextLine(f, source[i], max);
      Regrouped(lines, wrapped, WrapAll(f, source[i + 1..], max));
      lines := lines + wrapped;
    }
    if lines == [] {
      lines := [""];
    }
  }

  lemma {:induction false} WrapTakesALine(f: Font, line: string, max: nat)
    ensures WrapLine(f, line, max) != []
  {
    WrapKeepsInk(f, line, max);
    if EndsInWord(f, line) {
      var n := |line| - 1;
      assert line == line[..n] + [line[n]];
      InkAppend(f, line[..n], [line[n]]);
      InkBlank(f, line[n]);
      assert InkOf(f, []) == [];
    }
  }

  lemma {:induction false} SomeLine(f: Font, text: string, cur: string, max: nat)
    requires text != [] || cur != []
    ensures WrapAll(f, LinesFrom(text, cur), max) != []
    decreases |text|
  {
    if text == [] {
      WrapTakesALine(f, cur, max);
    } else if text[0] == '\n' {
      WrapTakesALine(f, WithoutCr(cur), max);
    } else {
      SomeLine(f, text[1..], cur + [text[0]], max);
    }
  }

  lemma {:induction false} LinesInk(f: Font, text: string, cur: string)
    ensures InkOf(f, LinesFrom(text, cur)) == Ink(f, cur + text)
    decreases |text|
  {
    if text == [] {
      assert cur + text == cur;
      if cur != [] { InkOfOne(f, cur); }
    } else {
      assert text == [text[0]] + text[1..];
      Regrouped(cur, [text[0]], text[1..]);
      if text[0] == '\n' {
        LinesInk(f, text[1..], []);
        CrInk(f, cur);
        InkAroundBlank(f, cur, '\n', text[1..]);
        InkOfAppend(f, [WithoutCr(cur)], LinesFrom(text[1..], []));
        InkOfOne(f, WithoutCr(cur));
      } else {
        LinesInk(f, text[1..], cur + [text[0]]);
      }
    }
  }

  lemma {:induction false} CrInk(f: Font, s: string)
    ensures Ink(f, WithoutCr(s)) == Ink(f, s)
  {
    if s != [] && s[|s| - 1] == '\r' {
      assert s == s[..|s| - 1] + ['\r'];
      InkAppend(f, s[..|s| - 1], ['\r']);
      InkBlank(f, '\r');
      assert Ink(f, s[..|s| - 1]) + [] == Ink(f, s[..|s| - 1]);
    }
  }

  lemma {:induction false} WrapAllKeepsInk(f: Font, lines: seq<string>, max: nat)
    ensures InkOf(f, WrapAll(f, lines, max)) == InkOf(f, lines)
  {
    if lines != [] {
      WrapAllKeepsInk(f, lines[1..], max);
      WrapKeepsInk(f, lines[0], max);
      InkOfAppend(f, WrapLine(f, lines[0], max), WrapAll(f, lines[1..], max));
      InkAppend(f, lines[0], Flat(lines[1..]));
    }
  }

  lemma {:induction false} WrapAllFits(f: Font, lines: seq<string>, max: nat)
    requires max >= 2
    ensures AllFit(f, WrapAll(f, lines, max), max)
  {
    if lines != [] {
      WrapFits(f, lines[0], max);
      WrapAllFits(f, lines[1..], max);
    }
  }

  /** Wrapping a cell loses and adds no character that shows; the lines fit from width 2 on. */
  lemma {:induction false} WrappedSound(f: Font, text: string, max: nat)
    ensures InkOf(f, Wrapped(f, text, max)) == Ink(f, text)
    ensures max >= 2 ==> AllFit(f, Wrapped(f, text, max), max)
  {
    if text == [] {
      InkOfOne(f, "");
    } else {
      WrapAllKeepsInk(f, LinesFrom(text, []), max);
      LinesInk(f, text, []);
      assert [] + text == text;
      if max >= 2 { WrapAllFits(f, LinesFrom(text, []), max); }
    }
  }

  // ---------- alignment ----------

  datatype CellAlign = Left | Center | Right

  function Repeat(c: char, n: nat): string {
    if n == 0 then [] else [c] + Repeat(c, n - 1)
  }

  lemma {:induction false} WidthRepeat(f: Font, c: char, n: nat)
    requires f.width(c) == 1
    ensures Width(f, Repeat(c, n)) == n
  {
    if n > 0 {
      WidthRepeat(f, c, n - 1);
      Tailed(c, Repeat(c, n - 1), []);
    }
  }

  function Format(f: Font, align: CellAlign, content: string, width: nat): string {
    if Width(f, content) >= width then content
    else
      var padding := width - Width(f, content);
      match align
      case Left => content + Repeat(' ', padding)
      case Right => Repeat(' ', padding) + content
      case Center => Repeat(' ', padding - padding / 2) + content + Repeat(' ', padding / 2)
  }

  /** Alignment pads to the width exactly, with blanks only. */
  lemma {:induction false} FormatPads(f: Font, align: CellAlign, content: string, width: nat)
    ensures Width(f, Format(f, align, content, width)) ==
              if Width(f, content) >= width then Width(f, content) else width
    ensures Ink(f, Format(f, align, content, width)) == Ink(f, content)
  {
    if Width(f, content) < width {
      var padding := width - Width(f, content);
      var right := if align == Left then padding else if align == Right then 0 else padding / 2;
      FormatIs(f, align, content, width, padding - right, right);
      PadWidth(f, padding - right, content, right);
    }
  }

  lemma {:induction false} FormatIs(f: Font, align: CellAlign, content: string, width: nat, left: nat, right: nat)
    requires Width(f, content) < width && left + right == width - Width(f, content)
    requires right == if align == Left then left + right else if align == Right then 0 else (left + right) / 2
    ensures Format(f, align, content, width) == Repeat(' ', left) + content + Repeat(' ', right)
  {
    assert [] + content == content && Repeat(' ', left) + content + [] == Repeat(' ', left) + content;
  }

  predicate StandsAt(s: string, part: string, at: nat) {
    at + |part| <= |s| && s[at..at + |part|] == part
  }

  /** Left-aligned content comes first, right-aligned content last; around centred content the room is
      split evenly, an odd column going before it. */
  lemma {:induction false} FormatPlaces(f: Font, align: CellAlign, content: string, width: nat)
    ensures var r := Format(f, align, content, width);
            && |content| <= |r|
            && var room := |r| - |content|;
            && StandsAt(r, content, if align == Left then 0 else if align == Right then room else (room + 1) / 2)
  {
    if Width(f, content) < width {
      var padding := width - Width(f, content);
      Blanks(padding);
      Blanks(padding / 2);
      Blanks(padding - padding / 2);
    }
  }

  lemma {:induction false} Blanks(n: nat)
    ensures |Repeat(' ', n)| == n
  {
    if n > 0 { Blanks(n - 1); }
  }

  lemma {:induction false} PadWidth(f: Font, left: nat, content: string, right: nat)
    ensures Width(f, Repeat(' ', left) + content + Repeat(' ', right)) == left + Width(f, content) + right
    ensures Ink(f, Repeat(' ', left) + content + Repeat(' ', right)) == Ink(f, content)
  {
    WidthRepeat(f, ' ', left);
    WidthRepeat(f, ' ', right);
    WidthAppend(f, Repeat(' ', left), content);
    WidthAppend(f, Repeat(' ', left) + content, Repeat(' ', right));
    NoInk(f, left);
    NoInk(f, right);
    InkAppend(f, Repeat(' ', left), content);
    InkAppend(f, Repeat(' ', left) + content, Repeat(' ', right));
    assert [] + Ink(f, content) + [] == Ink(f, content);
  }

  lemma {:induction false} NoInk(f: Font, n: nat)
    ensures Ink(f, Repeat(' ', n)) == []
  {
    if n > 0 {
      NoInk(f, n - 1);
      Tailed(' ', Repeat(' ', n - 1), []);
    }
  }

  // ---------- column widths ----------

  datatype Row = Row(cells: seq<string>, isHeader: bool)

  /** The width of the widest cell of a column, at least 3. */
  function Natural(f: Font, rows: seq<Row>, col: nat): (w: nat)
    ensures w >= 3
    ensures forall k :: 0 <= k < |rows| && col < |rows[k].cells| ==> Width(f, rows[k].cells[col]) <= w
    ensures w > 3 ==> exists k :: 0 <= k < |rows| && col < |rows[k].cells| && Width(f, rows[k].cells[col]) == w
  {
    if rows == [] then 3
    else
      var front := rows[..|rows| - 1];
      var others := Natural(f, front, col);
      assert forall k :: 0 <= k < |front| ==> front[k] == rows[k];
      var last := rows[|rows| - 1].cells;
      assert rows[|rows| - 1].cells == last;
      if col < |last| then Max(others, Width(f, last[col])) else others
  }

  function Naturals(f: Font, rows: seq<Row>, cols: nat): (ws: seq<nat>)
    ensures |ws| == cols && forall k :: 0 <= k < cols ==> ws[k] == Natural(f, rows, k)
  {
    seq(cols, k requires 0 <= k < cols => Natural(f, rows, k))
  }

  function Sum(ws: seq<nat>): nat {
    if ws == [] then 0 else ws[0] + Sum(ws[1..])
  }

  function Border(cols: nat): nat { cols * 3 + 1 }

  /** Columns share what room there is in proportion, but never go below 3. */
  function Share(w: nat, available: nat, content: nat): nat
    requires content > 0
  {
    Max(w * available / content, 3)
  }

  function ScaledFrom(ws: seq<nat>, available: nat, content: nat): (r: seq<nat>)
    requires content > 0
    ensures |r| == |ws| && forall k :: 0 <= k < |r| ==> r[k] == Share(ws[k], available, content)
  {
    if ws == [] then [] else [Share(ws[0], available, content)] + ScaledFrom(ws[1..], available, content)
  }

  function Scaled(ws: seq<nat>, maxWidth: nat): (r: seq<nat>)
    requires forall k :: 0 <= k < |ws| ==> ws[k] >= 3
    ensures |r| == |ws| && forall k :: 0 <= k < |r| ==> r[k] >= 3
  {
    var border := Border(|ws|);
    if Sum(ws) + border > maxWidth && maxWidth > border && Sum(ws) > 0
    then ScaledFrom(ws, maxWidth - border, Sum(ws)) else ws
  }

  lemma {:induction false} ShareSum(ws: seq<nat>, available: nat, content: nat)
    requires content > 0 && forall k :: 0 <= k < |ws| ==> ws[k] * available / content >= 3
    ensures content * Sum(ScaledFrom(ws, available, content)) <= Sum(ws) * available
  {
    if ws != [] {
      var w, rest := ws[0], ws[1..];
      assert forall k :: 0 <= k < |rest| ==> rest[k] == ws[k + 1];
      ShareSum(rest, available, content);
      var share := w * available / content;
      var s := ScaledFrom(ws, available, content);
      assert s[0] == share && s[1..] == ScaledFrom(rest, available, content);
      ShareOne(w * available, content);
      AddShares(content, share, w, Sum(s[1..]), Sum(rest), available);
    }
  }

  lemma {:induction false} ShareOne(part: nat, content: nat)
    requires content > 0
    ensures content * (part / content) <= part
  {
  }

  lemma {:induction false} AddShares(content: nat, share: nat, w: nat, shares: nat, rest: nat, available: nat)
    requires content * share <= w * available && content * shares <= rest * available
    ensures content * (share + shares) <= (w + rest) * available
  {
    assert content * (share + shares) == content * share + content * shares;
    assert (w + rest) * available == w * available + rest * available;
  }

  /** The table fits the screen unless a column had to be kept at 3, or the borders alone fill it. */
  lemma {:induction false} FitsScreen(ws: seq<nat>, maxWidth: nat)
    requires forall k :: 0 <= k < |ws| ==> ws[k] >= 3
    requires maxWidth > Border(|ws|)
    requires forall k :: 0 <= k < |ws| ==> Sum(ws) > 0 && ws[k] * (maxWidth - Border(|ws|)) / Sum(ws) >= 3
    ensures Sum(Scaled(ws, maxWidth)) + Border(|ws|) <= maxWidth
  {
    var available := maxWidth - Border(|ws|);
    if Sum(ws) > available {
      if ws != [] {
        ShareSum(ws, available, Sum(ws));
        Grows(Sum(ws), Sum(ScaledFrom(ws, available, Sum(ws))), available);
      }
    }
  }

  lemma {:induction false} Grows(a: nat, b: nat, c: nat)
    requires a > 0
    ensures b > c ==> a * b > a * c
  {
    if b > c {
      assert a * b == a * c + a * (b - c);
    }
  }

  // ---------- drawing ----------

  predicate Box(c: char) {
    || c == '\U{2500}' || c == '\U{2502}' || c == '\U{250C}' || c == '\U{252C}' || c == '\U{2510}' || c == '\U{251C}'
    || c == '\U{253C}' || c == '\U{2524}' || c == '\U{2514}' || c == '\U{2534}' || c == '\U{2518}'
  }

  /** Box-drawing characters take one column. */
  predicate Drawable(f: Font) {
    forall c :: Box(c) ==> f.width(c) == 1
  }

  const DASH: char := '\U{2500}'
  const BAR: char := '\U{2502}'

  /** The width of every line of a table. */
  function LineWidth(ws: seq<nat>): nat {
    Sum(ws) + 3 * |ws| + 1
  }

  function RuleFrom(ws: seq<nat>, mid: char): string {
    if ws == [] then []
    else if |ws| == 1 then Repeat(DASH, ws[0] + 2)
    else Repeat(DASH, ws[0] + 2) + [mid] + RuleFrom(ws[1..], mid)
  }

  function Rule(ws: seq<nat>, left: char, mid: char, right: char): string {
    [left] + RuleFrom(ws, mid) + [right]
  }

  method RenderHorizontalBorder(widths: seq<nat>, left: char, mid: char, right: char) returns (content: string)
    ensures content == Rule(widths, left, mid, right)
  {
    content := [left];
    for i := 0 to |widths|
      invariant content + RuleFrom(widths[i..], mid) == [left] + RuleFrom(widths, mid)
    {
      Headed(widths, i);
      var part := Repeat(DASH, widths[i] + 2);
      if i < |widths| - 1 {
        part := part + [mid];
      }
      assert part + RuleFrom(widths[i + 1..], mid) == RuleFrom(widths[i..], mid);
      Regrouped(content, part, RuleFrom(widths[i + 1..], mid));
      content := content + part;
    }
    content := content + [right];
  }

  lemma {:induction false} RuleFromWidth(f: Font, ws: seq<nat>, mid: char)
    requires Drawable(f) && Box(mid) && ws != []
    ensures Width(f, RuleFrom(ws, mid)) == Sum(ws) + 3 * |ws| - 1
  {
    WidthRepeat(f, DASH, ws[0] + 2);
    if |ws| > 1 {
      RuleFromWidth(f, ws[1..], mid);
      WidthAppend(f, Repeat(DASH, ws[0] + 2) + [mid], RuleFrom(ws[1..], mid));
      WidthAppend(f, Repeat(DASH, ws[0] + 2), [mid]);
      WidthOne(f, mid);
    }
  }

  lemma {:induction false} RuleWidth(f: Font, ws: seq<nat>, left: char, mid: char, right: char)
    requires Drawable(f) && Box(left) && Box(mid) && Box(right) && ws != []
    ensures Width(f, Rule(ws, left, mid, right)) == LineWidth(ws)
  {
    RuleFromWidth(f, ws, mid);
    WidthAppend(f, [left] + RuleFrom(ws, mid), [right]);
    WidthAppend(f, [left], RuleFrom(ws, mid));
    WidthOne(f, left);
    WidthOne(f, right);
  }

  /** The wrapped cells of a row; one beyond the columns is wrapped at 10. */
  function CellLines(f: Font, cells: seq<string>, ws: seq<nat>): (r: seq<seq<string>>)
    ensures |r| == |cells| && forall k :: 0 <= k < |r| ==> r[k] == Wrapped(f, cells[k], if k < |ws| then ws[k] else 10)
  {
    seq(|cells|, k requires 0 <= k < |cells| => Wrapped(f, cells[k], if k < |ws| then ws[k] else 10))
  }

  function Height(cellLines: seq<seq<string>>): (h: nat)
    ensures forall k :: 0 <= k < |cellLines| ==> |cellLines[k]| <= h
    ensures if cellLines == [] then h == 1 else exists k :: 0 <= k < |cellLines| && |cellLines[k]| == h
  {
    if cellLines == [] then 1
    else if |cellLines| == 1 then |cellLines[0]|
    else
      var rest := Height(cellLines[1..]);
      assert forall k :: 0 < k < |cellLines| ==> cellLines[k] == cellLines[1..][k - 1];
      Max(|cellLines[0]|, rest)
  }

  function Content(cellLines: seq<seq<string>>, col: nat, k: nat): string {
    if col < |cellLines| && k < |cellLines[col]| then cellLines[col][k] else []
  }

  function AlignOf(aligns: seq<CellAlign>, col: nat): CellAlign {
    if col < |aligns| then aligns[col] else Left
  }

  function Cell(f: Font, aligns: seq<CellAlign>, cellLines: seq<seq<string>>, ws: seq<nat>, k: nat, col: nat): string
    requires col < |ws|
  {
    Format(f, AlignOf(aligns, col), Content(cellLines, col, k), ws[col]) + if col ==
      |ws| - 1 then [' ', BAR] else [' ', BAR, ' ']
  }

  function CellsFrom(f: Font, aligns: seq<CellAlign>, cellLines: seq<seq<string>>, ws: seq<nat>, k: nat,
                     col: nat): string
    requires col <= |ws|
    decreases |ws| - col
  {
    if col == |ws| then [] else Cell(f, aligns, cellLines, ws, k, col) + CellsFrom(f, aligns, cellLines, ws, k, col + 1)
  }

  function RowLine(f: Font, aligns: seq<CellAlign>, cellLines: seq<seq<string>>, ws: seq<nat>, k: nat): string {
    [BAR, ' '] + CellsFrom(f, aligns, cellLines, ws, k, 0)
  }

  function RowLines(f: Font, aligns: seq<CellAlign>, cells: seq<string>, ws: seq<nat>): (lines: seq<string>)
    ensures var cellLines := CellLines(f, cells, ws);
            |lines| == Height(cellLines) && forall k :: 0 <= k < |lines| ==>
              lines[k] == RowLine(f, aligns, cellLines, ws, k)
  {
    var cellLines := CellLines(f, cells, ws);
    seq(Height(cellLines), k requires 0 <= k < Height(cellLines) => RowLine(f, aligns, cellLines, ws, k))
  }

  method RenderRow(f: Font, aligns: seq<CellAlign>, cells: seq<string>, widths: seq<nat>) returns (lines: seq<string>)
    ensures lines == RowLines(f, aligns, cells, widths)
  {
    var cellLines := WrapCells(f, cells, widths);
    ghost var all := RowLines(f, aligns, cells, widths);
    lines := [];
    for k := 0 to Height(cellLines)
      invariant lines == all[..k]
    {
      var line := RenderRowLine(f, aligns, cellLines, widths, k);
      Pushed(all, k);
      lines := lines + [line];
    }
    assert all[..|all|] == all;
  }

  method WrapCells(f: Font, cells: seq<string>, widths: seq<nat>) returns (cellLines: seq<seq<string>>)
    ensures cellLines == CellLines(f, cells, widths)
  {
    cellLines := [];
    for i := 0 to |cells|
      invariant |cellLines| == i
      invariant forall k :: 0 <= k < i ==> cellLines[k] == Wrapped(f, cells[k], if k < |widths| then widths[k] else 10)
    {
      var wrapped := WrapTextToWidth(f, cells[i], if i < |widths| then widths[i] else 10);
      cellLines := cellLines + [wrapped];
    }
  }

  method RenderRowLine(f: Font, aligns: seq<CellAlign>, cellLines: seq<seq<string>>, widths: seq<nat>, k: nat)
    returns (line: string)
    ensures line == RowLine(f, aligns, cellLines, widths, k)
  {
    line := [BAR, ' '];
    ghost var whole := RowLine(f, aligns, cellLines, widths, k);
    for col := 0 to |widths|
      invariant line + CellsFrom(f, aligns, cellLines, widths, k, col) == whole
    {
      var cell := Cell(f, aligns, cellLines, widths, k, col);
      CellsNext(f, aligns, cellLines, widths, k, col);
      Regrouped(line, cell, CellsFrom(f, aligns, cellLines, widths, k, col + 1));
      line := line + cell;
    }
    assert line + [] == line;
  }

  lemma {:induction false} CellsNext(f: Font, aligns: seq<CellAlign>, cellLines: seq<seq<string>>, ws: seq<nat>,
                                     k: nat, col: nat)
    requires col < |ws|
    ensures CellsFrom(f, aligns, cellLines, ws, k, col)
         == Cell(f, aligns, cellLines, ws, k, col) + CellsFrom(f, aligns, cellLines, ws, k, col + 1)
  {
  }

  predicate WideEnough(ws: seq<nat>) {
    ws != [] && forall k :: 0 <= k < |ws| ==> ws[k] >= 3
  }

  lemma {:induction false} CellWidth(f: Font, aligns: seq<CellAlign>, cells: seq<string>, ws: seq<nat>, k: nat,
                                     col: nat)
    requires Drawable(f) && WideEnough(ws) && col < |ws|
    ensures Width(f, Cell(f, aligns, CellLines(f, cells, ws), ws, k, col)) == ws[col] + if col == |ws| - 1 then 2 else 3
  {
    var cellLines := CellLines(f, cells, ws);
    var content := Content(cellLines, col, k);
    if col < |cells| { WrappedSound(f, cells[col], ws[col]); }
    assert Width(f, content) <= ws[col];
    var formatted := Format(f, AlignOf(aligns, col), content, ws[col]);
    FormatPads(f, AlignOf(aligns, col), content, ws[col]);
    BarWidth(f);
    WidthAppend(f, formatted, [' ', BAR]);
    WidthAppend(f, formatted, [' ', BAR, ' ']);
  }

  lemma {:induction false} BarWidth(f: Font)
    requires Drawable(f)
    ensures Width(f, [' ', BAR]) == 2 && Width(f, [' ', BAR, ' ']) == 3 && Width(f, [BAR, ' ']) == 2
  {
    WidthOne(f, ' ');
    WidthOne(f, BAR);
    assert [' ', BAR] == [' '] + [BAR] && [' ', BAR, ' '] == [' '] + [BAR] + [' '] && [BAR, ' '] == [BAR] + [' '];
    WidthAppend(f, [' '], [BAR]);
    WidthAppend(f, [' '] + [BAR], [' ']);
    WidthAppend(f, [BAR], [' ']);
  }

  lemma {:induction false} CellsFromWidth(f: Font, aligns: seq<CellAlign>, cells: seq<string>, ws: seq<nat>, k: nat,
                                          col: nat)
    requires Drawable(f) && WideEnough(ws) && col < |ws|
    ensures Width(f, CellsFrom(f, aligns, CellLines(f, cells, ws), ws, k, col)) == Sum(ws[col..]) + 3 * (|ws| - col) - 1
    decreases |ws| - col
  {
    var cellLines := CellLines(f, cells, ws);
    CellWidth(f, aligns, cells, ws, k, col);
    Headed(ws, col);
    WidthAppend(f, Cell(f, aligns, cellLines, ws, k, col), CellsFrom(f, aligns, cellLines, ws, k, col + 1));
    if col + 1 < |ws| {
      CellsFromWidth(f, aligns, cells, ws, k, col + 1);
    } else {
      assert ws[col + 1..] == [];
    }
  }

  predicate Uniform(f: Font, lines: seq<string>, width: nat) {
    forall k :: 0 <= k < |lines| ==> Width(f, lines[k]) == width
  }

  lemma {:induction false} UniformAppend(f: Font, a: seq<string>, b: seq<string>, width: nat)
    requires Uniform(f, a, width) && Uniform(f, b, width)
    ensures Uniform(f, a + b, width)
  {
  }

  lemma {:induction false} RowUniform(f: Font, aligns: seq<CellAlign>, cells: seq<string>, ws: seq<nat>)
    requires Drawable(f) && WideEnough(ws)
    ensures Uniform(f, RowLines(f, aligns, cells, ws), LineWidth(ws))
  {
    var cellLines, lines := CellLines(f, cells, ws), RowLines(f, aligns, cells, ws);
    forall k | 0 <= k < |lines| ensures Width(f, lines[k]) == LineWidth(ws) {
      CellsFromWidth(f, aligns, cells, ws, k, 0);
      assert ws[0..] == ws;
      BarWidth(f);
      WidthAppend(f, [BAR, ' '], CellsFrom(f, aligns, cellLines, ws, k, 0));
    }
  }

  // ---------- the complete table ----------

  datatype Table = Table(header: Option<Row>, rows: seq<Row>, aligns: seq<CellAlign>)

  function Top(ws: seq<nat>): string { Rule(ws, '\U{250C}', '\U{252C}', '\U{2510}') }

  function Middle(ws: seq<nat>): string { Rule(ws, '\U{251C}', '\U{253C}', '\U{2524}') }

  function Bottom(ws: seq<nat>): string { Rule(ws, '\U{2514}', '\U{2534}', '\U{2518}') }

  function Columns(t: Table): nat {
    if t.header.Some? then |t.header.value.cells| else if t.rows != [] then |t.rows[0].cells| else 0
  }

  function Widths(f: Font, t: Table, maxWidth: nat): (ws: seq<nat>)
    ensures |ws| == Columns(t) && forall k :: 0 <= k < |ws| ==> ws[k] >= 3
  {
    Scaled(Naturals(f, (if t.header.Some? then [t.header.value] else []) + t.rows, Columns(t)), maxWidth)
  }

  function BodyLines(f: Font, aligns: seq<CellAlign>, rows: seq<Row>, ws: seq<nat>): seq<string> {
    if rows == [] then [] else RowLines(f, aligns, rows[0].cells, ws) + BodyLines(f, aligns, rows[1..], ws)
  }

  function HeadLines(f: Font, t: Table, ws: seq<nat>): seq<string> {
    if t.header.Some? then RowLines(f, t.aligns, t.header.value.cells, ws) + [Middle(ws)]
    else if t.aligns != [] then [Middle(ws)]
    else []
  }

  function TableLines(f: Font, t: Table, maxWidth: nat): seq<string> {
    var ws := Widths(f, t, maxWidth);
    if ws == [] then [] else [Top(ws)] + HeadLines(f, t, ws) + BodyLines(f, t.aligns, t.rows, ws) + [Bottom(ws)]
  }

  method RenderTable(f: Font, t: Table, maxWidth: nat) returns (lines: seq<string>)
    ensures lines == TableLines(f, t, maxWidth)
  {
    var widths := Widths(f, t, maxWidth);
    if widths == [] {
      return [];
    }
    var rule := RenderHorizontalBorder(widths, '\U{251C}', '\U{253C}', '\U{2524}');
    var top := RenderHorizontalBorder(widths, '\U{250C}', '\U{252C}', '\U{2510}');
    lines := [top];
    if t.header.Some? {
      var header := RenderRow(f, t.aligns, t.header.value.cells, widths);
      lines := lines + (header + [rule]);
    } else if t.aligns != [] {
      lines := lines + [rule];
    }
    assert lines == [top] + HeadLines(f, t, widths);
    lines := RenderBody(f, t, widths, lines);
    var bottom := RenderHorizontalBorder(widths, '\U{2514}', '\U{2534}', '\U{2518}');
    lines := lines + [bottom];
  }

  method RenderBody(f: Font, t: Table, widths: seq<nat>, head: seq<string>) returns (lines: seq<string>)
    ensures lines == head + BodyLines(f, t.aligns, t.rows, widths)
  {
    lines := head;
    for i := 0 to |t.rows|
      invariant lines + BodyLines(f, t.aligns, t.rows[i..], widths) == head + BodyLines(f, t.aligns, t.rows, widths)
    {
      Headed(t.rows, i);
      var row := RenderRow(f, t.aligns, t.rows[i].cells, widths);
      Regrouped(lines, row, BodyLines(f, t.aligns, t.rows[i + 1..], widths));
      lines := lines + row;
    }
  }

  lemma {:induction false} RulesUniform(f: Font, ws: seq<nat>)
    requires Drawable(f) && ws != []
    ensures Width(f, Top(ws)) == Width(f, Middle(ws)) == Width(f, Bottom(ws)) == LineWidth(ws)
  {
    RuleWidth(f, ws, '\U{250C}', '\U{252C}', '\U{2510}');
    RuleWidth(f, ws, '\U{251C}', '\U{253C}', '\U{2524}');
    RuleWidth(f, ws, '\U{2514}', '\U{2534}', '\U{2518}');
  }

  lemma {:induction false} BodyUniform(f: Font, aligns: seq<CellAlign>, rows: seq<Row>, ws: seq<nat>)
    requires Drawable(f) && WideEnough(ws)
    ensures Uniform(f, BodyLines(f, aligns, rows, ws), LineWidth(ws))
  {
    if rows != [] {
      RowUniform(f, aligns, rows[0].cells, ws);
      BodyUniform(f, aligns, rows[1..], ws);
    }
  }

  /** All lines of a rendered table are equally wide. */
  lemma {:induction false} TableUniform(f: Font, t: Table, maxWidth: nat)
    requires Drawable(f)
    ensures Uniform(f, TableLines(f, t, maxWidth), LineWidth(Widths(f, t, maxWidth)))
  {
    var ws := Widths(f, t, maxWidth);
    if ws != [] {
      var body, n := BodyLines(f, t.aligns, t.rows, ws), LineWidth(ws);
      RulesUniform(f, ws);
      BodyUniform(f, t.aligns, t.rows, ws);
      if t.header.Some? { RowUniform(f, t.aligns, t.header.value.cells, ws); }
      UniformAppend(f, [Top(ws)], HeadLines(f, t, ws), n);
      UniformAppend(f, [Top(ws)] + HeadLines(f, t, ws), body, n);
      UniformAppend(f, [Top(ws)] + HeadLines(f, t, ws) + body, [Bottom(ws)], n);
    }
  }

  // ---------- the table that is still growing ----------

  datatype Growing = Growing(rows: seq<Row>, currentRow: seq<string>, currentCell: string, aligns: seq<CellAlign>,
                             expectingSeparator: bool, columnCount: Option<nat>)

  function CurrentCells(g: Growing): seq<string> {
    g.currentRow + if g.currentCell == [] then [] else [g.currentCell]
  }

  function MostCells(rows: seq<Row>, least: nat): (n: nat)
    ensures n >= least && forall k :: 0 <= k < |rows| ==> |rows[k].cells| <= n
    ensures n > least ==> exists k :: 0 <= k < |rows| && |rows[k].cells| == n
  {
    if rows == [] then least
    else
      assert forall k :: 0 < k < |rows| ==> rows[k] == rows[1..][k - 1];
      MostCells(rows[1..], Max(least, |rows[0].cells|))
  }

  function GrowingColumns(g: Growing): (n: nat)
    ensures n > 0 && n >= |CurrentCells(g)| && (g.columnCount.Some? ==> n >= g.columnCount.value)
    ensures forall k :: 0 <= k < |g.rows| ==> |g.rows[k].cells| <= n
    ensures n == 1 || n == |CurrentCells(g)| || g.columnCount == Some(n) ||
              exists k :: 0 <= k < |g.rows| && |g.rows[k].cells| == n
  {
    MostCells(g.rows, Max(1, Max(if g.columnCount.Some? then g.columnCount.value else 1, |CurrentCells(g)|)))
  }

  /** A current cell widens its column only once the row has other cells. */
  function GrowingWidths(f: Font, g: Growing, maxWidth: nat): (ws: seq<nat>)
    ensures WideEnough(ws) && |ws| == GrowingColumns(g)
  {
    var current := if g.currentRow == [] then [] else CurrentCells(g);
    Scaled(Naturals(f, g.rows + [Row(current, false)], GrowingColumns(g)), maxWidth)
  }

  function GrowingRows(f: Font, g: Growing, ws: seq<nat>, i: nat): seq<string>
    requires i <= |g.rows|
    decreases |g.rows| - i
  {
    if i == |g.rows| then []
    else
      RowLines(f, g.aligns, g.rows[i].cells, ws)
      + (if (g.rows[i].isHeader && !g.expectingSeparator) || i < |g.rows| - 1 then [Middle(ws)] else [])
      + GrowingRows(f, g, ws, i + 1)
  }

  function GrowingLines(f: Font, g: Growing, maxWidth: nat): seq<string> {
    if g.rows == [] && CurrentCells(g) == [] then []
    else
      var ws := GrowingWidths(f, g, maxWidth);
      [Top(ws)] + GrowingRows(f, g, ws, 0) + CurrentLines(f, g, ws) + [Bottom(ws)]
  }

  function CurrentLines(f: Font, g: Growing, ws: seq<nat>): seq<string> {
    if CurrentCells(g) == [] then [] else RowLines(f, g.aligns, CurrentCells(g), ws)
  }

  method RenderGrowing(f: Font, g: Growing, maxWidth: nat) returns (lines: seq<string>)
    ensures lines == GrowingLines(f, g, maxWidth)
  {
    if g.rows == [] && g.currentRow == [] && g.currentCell == [] {
      return [];
    }
    var widths := GrowingWidths(f, g, maxWidth);
    var rule := RenderHorizontalBorder(widths, '\U{251C}', '\U{253C}', '\U{2524}');
    var top := RenderHorizontalBorder(widths, '\U{250C}', '\U{252C}', '\U{2510}');
    var rows := RenderGrowingRows(f, g, widths, rule);
    lines := [top] + rows;
    if g.currentRow != [] || g.currentCell != [] {
      var current := g.currentRow;
      if g.currentCell != [] {
        current := current + [g.currentCell];
      }
      assert current == CurrentCells(g);
      var row := RenderRow(f, g.aligns, current, widths);
      lines := lines + row;
    }
    var bottom := RenderHorizontalBorder(widths, '\U{2514}', '\U{2534}', '\U{2518}');
    lines := lines + [bottom];
  }

  method RenderGrowingRows(f: Font, g: Growing, widths: seq<nat>, rule: string) returns (lines: seq<string>)
    requires rule == Middle(widths)
    ensures lines == GrowingRows(f, g, widths, 0)
  {
    lines := [];
    for i := 0 to |g.rows|
      invariant lines + GrowingRows(f, g, widths, i) == GrowingRows(f, g, widths, 0)
    {
      var row := RenderRow(f, g.aligns, g.rows[i].cells, widths);
      if g.rows[i].isHeader && !g.expectingSeparator {
        row := row + [rule];
      } else if i < |g.rows| - 1 {
        row := row + [rule];
      }
      assert row + GrowingRows(f, g, widths, i + 1) == GrowingRows(f, g, widths, i);
      Regrouped(lines, row, GrowingRows(f, g, widths, i + 1));
      lines := lines + row;
    }
  }

  lemma {:induction false} GrowingRowsUniform(f: Font, g: Growing, ws: seq<nat>, i: nat)
    requires Drawable(f) && WideEnough(ws) && i <= |g.rows|
    ensures Uniform(f, GrowingRows(f, g, ws, i), LineWidth(ws))
    decreases |g.rows| - i
  {
    if i < |g.rows| {
      var rule := if (g.rows[i].isHeader && !g.expectingSeparator) || i < |g.rows| - 1 then [Middle(ws)] else [];
      RowUniform(f, g.aligns, g.rows[i].cells, ws);
      RulesUniform(f, ws);
      GrowingRowsUniform(f, g, ws, i + 1);
      ThreeUniform(f, RowLines(f, g.aligns, g.rows[i].cells, ws), rule, GrowingRows(f, g, ws, i + 1), LineWidth(ws));
    }
  }

  lemma {:induction false} ThreeUniform(f: Font, a: seq<string>, b: seq<string>, c: seq<string>, width: nat)
    requires Uniform(f, a, width) && Uniform(f, b, width) && Uniform(f, c, width)
    ensures Uniform(f, a + b + c, width)
  {
    UniformAppend(f, a, b, width);
    UniformAppend(f, a + b, c, width);
  }

  /** So are those of one that is still growing. */
  lemma {:induction false} GrowingUniform(f: Font, g: Growing, maxWidth: nat)
    requires Drawable(f)
    ensures Uniform(f, GrowingLines(f, g, maxWidth), LineWidth(GrowingWidths(f, g, maxWidth)))
  {
    var ws := GrowingWidths(f, g, maxWidth);
    var rows, last, n := GrowingRows(f, g, ws, 0), CurrentLines(f, g, ws), LineWidth(ws);
    RulesUniform(f, ws);
    GrowingRowsUniform(f, g, ws, 0);
    RowUniform(f, g.aligns, CurrentCells(g), ws);
    UniformAppend(f, [Top(ws)], rows, n);
    UniformAppend(f, [Top(ws)] + rows, last, n);
    UniformAppend(f, [Top(ws)] + rows + last, [Bottom(ws)], n);
  }
}
