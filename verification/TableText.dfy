/** The lines of a cell's text (crates/tui/src/table.rs:43-50). */
module TableText {
  import opened Sequences
  import opened TableWrap
  import opened TableRender

  /** The first line feed stands at j, or there is none and j is the end. */
  predicate LineEnd(text: string, j: nat) {
    && j <= |text| && (forall k :: 0 <= k < j ==> text[k] != '\n') && (j < |text| ==> text[j] == '\n')
  }

  /** The line that ends at j: a carriage return just before the line feed belongs to the line end. */
  predicate IsLine(text: string, j: nat, line: string)
    requires j <= |text|
  {
    if j < |text| && j > 0 && text[j - 1] == '\r' then line == text[..j - 1] else line == text[..j]
  }

  /** These are the lines of the text: a line feed at its end starts none. */
  ghost predicate TextLines(text: string, lines: seq<string>)
    decreases |lines|, 0
  {
    if text == [] then lines == [] else lines != [] && exists j: nat :: LineThen(text, lines, j)
  }

  ghost predicate LineThen(text: string, lines: seq<string>, j: nat)
    requires lines != []
    decreases |lines| - 1, 1
  {
    && LineEnd(text, j) && IsLine(text, j, lines[0])
    && TextLines(if j < |text| then text[j + 1..] else [], lines[1..])
  }

  lemma {:induction false} OneLineEnd(text: string, j: nat, j': nat)
    requires LineEnd(text, j) && LineEnd(text, j')
    ensures j == j'
  {
    assert (j < |text| ==> text[j] == '\n') && (j' < |text| ==> text[j'] == '\n');
  }

  lemma {:induction false} OneReading(text: string, a: seq<string>, b: seq<string>)
    requires TextLines(text, a) && TextLines(text, b)
    ensures a == b
    decreases |a|
  {
    if text != [] {
      var j: nat :| LineThen(text, a, j);
      var j': nat :| LineThen(text, b, j');
      OneLineEnd(text, j, j');
      OneReading(if j < |text| then text[j + 1..] else [], a[1..], b[1..]);
      assert a == [a[0]] + a[1..] && b == [b[0]] + b[1..];
    }
  }

  predicate NoFeed(s: string) {
    forall k :: 0 <= k < |s| ==> s[k] != '\n'
  }

  lemma {:induction false} FeedEnds(cur: string, rest: string, lines: seq<string>)
    requires NoFeed(cur) && TextLines(rest, lines)
    ensures TextLines(cur + (['\n'] + rest), [WithoutCr(cur)] + lines)
  {
    var text, all := cur + (['\n'] + rest), [WithoutCr(cur)] + lines;
    Tailed(WithoutCr(cur), lines, []);
    assert text[|cur|] == '\n' && text[|cur| + 1..] == rest && text[..|cur|] == cur;
    assert cur != [] ==> text[..|cur| - 1] == cur[..|cur| - 1];
    assert LineThen(text, all, |cur|);
  }

  lemma {:induction false} LastLine(cur: string)
    requires NoFeed(cur) && cur != []
    ensures TextLines(cur, [cur])
  {
    assert cur[..|cur|] == cur && [cur][1..] == [];
    assert LineThen(cur, [cur], |cur|);
  }

  lemma {:induction false} LinesRead(text: string, cur: string)
    requires NoFeed(cur)
    ensures TextLines(cur + text, LinesFrom(text, cur))
    decreases |text|
  {
    if text == [] {
      assert cur + text == cur;
      if cur != [] { LastLine(cur); }
    } else {
      Headed(text, 0);
      assert text[0..] == text;
      if text[0] == '\n' {
        LinesRead(text[1..], []);
        assert [] + text[1..] == text[1..];
        FeedEnds(cur, text[1..], LinesFrom(text[1..], []));
      } else {
        LinesRead(text[1..], cur + [text[0]]);
        Regrouped(cur, [text[0]], text[1..]);
      }
    }
  }

  /** A cell is wrapped line by line, and its lines are those that line feeds end. */
  lemma {:induction false} LinesAre(text: string, lines: seq<string>)
    ensures LinesFrom(text, []) == lines <==> TextLines(text, lines)
  {
    LinesRead(text, []);
    assert [] + text == text;
    if TextLines(text, lines) { OneReading(text, lines, LinesFrom(text, [])); }
  }

  function WrappedLines(f: Font, lines: seq<string>, max: nat): (r: seq<seq<string>>)
    ensures |r| == |lines| && forall k :: 0 <= k < |r| ==> r[k] == WrapLine(f, lines[k], max)
  {
    seq(|lines|, k requires 0 <= k < |lines| => WrapLine(f, lines[k], max))
  }

  lemma {:induction false} WrapAllIs(f: Font, lines: seq<string>, max: nat)
    ensures WrapAll(f, lines, max) == Flat(WrappedLines(f, lines, max))
  {
    if lines != [] {
      WrapAllIs(f, lines[1..], max);
      assert WrappedLines(f, lines, max)[1..] == WrappedLines(f, lines[1..], max);
    }
  }

  /** The lines drawn for a cell are those of its first line, then those of its second, and so on. */
  lemma {:induction false} CellInLines(f: Font, text: string, lines: seq<string>, max: nat)
    requires TextLines(text, lines)
    ensures Wrapped(f, text, max) == if text == [] then [""] else Flat(WrappedLines(f, lines, max))
  {
    LinesAre(text, lines);
    WrapAllIs(f, lines, max);
  }
}
