/** Wrapping text to a display width (crates/tui/src/table.rs:41-166). */
module TableWrap {
  import opened Sequences

  /** Display widths and blanks, as Unicode tables give them. */
  datatype Metrics = Metrics(width: char -> nat, blank: char -> bool)

  predicate Sane(m: Metrics) {
    && (forall c :: m.width(c) <= 2)
    && m.blank(' ') && m.blank('\n') && m.blank('\r') && m.width(' ') == 1
  }

  type Font = m: Metrics | Sane(m) ghost witness Metrics(c => 1, c => true)

  function Width(f: Font, s: string): nat {
    if s == [] then 0 else f.width(s[0]) + Width(f, s[1..])
  }

  lemma {:induction false} WidthAppend(f: Font, a: string, b: string)
    ensures Width(f, a + b) == Width(f, a) + Width(f, b)
  {
    if a == [] {
      assert a + b == b;
    } else {
      WidthAppend(f, a[1..], b);
      assert (a + b)[1..] == a[1..] + b;
    }
  }

  lemma {:induction false} WidthOne(f: Font, c: char)
    ensures Width(f, [c]) == f.width(c)
  {
    assert [c][1..] == [];
  }

  // ---------- the words of a line ----------

  /** The words of line, when `word` has been read in front of it. */
  function Split(f: Font, line: string, word: string): seq<string> {
    if line == [] then if word == [] then [] else [word]
    else if !f.blank(line[0]) then Split(f, line[1..], word + [line[0]])
    else if word == [] then Split(f, line[1..], [])
    else [word] + Split(f, line[1..], [])
  }

  function Words(f: Font, line: string): seq<string> {
    Split(f, line, [])
  }

  // ---------- breaking a long word ----------

  function BreakFrom(f: Font, chunk: string, word: string, max: nat): seq<string>
    decreases |word|
  {
    if word == [] then if chunk == [] then [] else [chunk]
    else if Width(f, chunk) + f.width(word[0]) > max &&
      chunk != [] then [chunk] + BreakFrom(f, [word[0]], word[1..], max)
    else BreakFrom(f, chunk + [word[0]], word[1..], max)
  }

  /** The chunks of a word too long for a line. */
  function Chunks(f: Font, word: string, max: nat): seq<string> {
    BreakFrom(f, [], word, max)
  }

  method BreakLongWord(f: Font, word: string, max: nat) returns (chunks: seq<string>)
    ensures chunks == Chunks(f, word, max) && Flat(chunks) == word && Filled(f, chunks, max)
  {
    chunks := [];
    var chunk, width := "", 0;
    for i := 0 to |word|
      invariant width == Width(f, chunk)
      invariant chunks + BreakFrom(f, chunk, word[i..], max) == Chunks(f, word, max)
    {
      var ch := word[i];
      Headed(word, i);
      if width + f.width(ch) > max && chunk != "" {
        Regrouped(chunks, [chunk], BreakFrom(f, [ch], word[i + 1..], max));
        chunks := chunks + [chunk];
        chunk, width := "", 0;
      }
      WidthOne(f, ch);
      WidthAppend(f, chunk, [ch]);
      assert [] + [ch] == [ch];
      chunk, width := chunk + [ch], width + f.width(ch);
    }
    if chunk != "" {
      chunks := chunks + [chunk];
    }
    ChunksConcat(f, [], word, max);
    assert [] + word == word;
    ChunksFilled(f, word, max);
  }

  /** No chunk is empty, and none but the last could have taken in the next character. */
  ghost predicate Filled(f: Font, chunks: seq<string>, max: nat) {
    && (forall k :: 0 <= k < |chunks| ==> chunks[k] != [])
    && forall k :: 0 <= k < |chunks| - 1 ==> Width(f, chunks[k] + [chunks[k + 1][0]]) > max
  }

  lemma {:induction false} FilledBehind(f: Font, chunk: string, chunks: seq<string>, max: nat)
    requires Filled(f, chunks, max) && chunk != []
    requires chunks != [] ==> Width(f, chunk + [chunks[0][0]]) > max
    ensures Filled(f, [chunk] + chunks, max)
  {
  }

  lemma {:induction false} BreaksFilled(f: Font, chunk: string, word: string, max: nat)
    ensures var chunks := BreakFrom(f, chunk, word, max);
            && Filled(f, chunks, max)
            && (chunk != [] ==> chunks != [] && chunk <= chunks[0])
    decreases |word|
  {
    if word != [] {
      var c := word[0];
      WidthOne(f, c);
      WidthAppend(f, chunk, [c]);
      if Width(f, chunk) + f.width(c) > max && chunk != [] {
        BreaksFilled(f, [c], word[1..], max);
        FilledBehind(f, chunk, BreakFrom(f, [c], word[1..], max), max);
      } else {
        BreaksFilled(f, chunk + [c], word[1..], max);
      }
    }
  }

  /** Each chunk takes as many characters as it can. */
  lemma {:induction false} ChunksFilled(f: Font, word: string, max: nat)
    ensures Filled(f, Chunks(f, word, max), max)
  {
    BreaksFilled(f, [], word, max);
  }

  /** No character is lost, */
  lemma {:induction false} ChunksConcat(f: Font, chunk: string, word: string, max: nat)
    ensures Flat(BreakFrom(f, chunk, word, max)) == chunk + word
    decreases |word|
  {
    if word == [] {
      FlatOne(chunk);
      assert chunk + word == chunk;
    } else {
      assert word == [word[0]] + word[1..];
      if Width(f, chunk) + f.width(word[0]) > max && chunk != [] {
        ChunksConcat(f, [word[0]], word[1..], max);
        Tailed(chunk, BreakFrom(f, [word[0]], word[1..], max), []);
      } else {
        ChunksConcat(f, chunk + [word[0]], word[1..], max);
        Regrouped(chunk, [word[0]], word[1..]);
      }
    }
  }

  predicate AllFit(f: Font, lines: seq<string>, max: nat) {
    forall k :: 0 <= k < |lines| ==> Width(f, lines[k]) <= max
  }

  /** and every chunk fits, when every character does. */
  lemma {:induction false} ChunksFit(f: Font, chunk: string, word: string, max: nat)
    requires max >= 2 && Width(f, chunk) <= max
    ensures AllFit(f, BreakFrom(f, chunk, word, max), max)
    decreases |word|
  {
    if word != [] {
      WidthOne(f, word[0]);
      if Width(f, chunk) + f.width(word[0]) > max && chunk != [] {
        ChunksFit(f, [word[0]], word[1..], max);
      } else {
        WidthAppend(f, chunk, [word[0]]);
        ChunksFit(f, chunk + [word[0]], word[1..], max);
      }
    }
  }

  // ---------- filling lines ----------

  /** Lines that are full, and the one being filled. */
  datatype Laid = Laid(lines: seq<string>, cur: string)

  function Joined(cur: string, word: string): string {
    if cur == [] then word else cur + " " + word
  }

  lemma {:induction false} WidthJoined(f: Font, cur: string, word: string)
    ensures Width(f, Joined(cur, word)) == Width(f, cur) + (if cur == [] then 0 else 1) + Width(f, word)
  {
    if cur != [] {
      WidthAppend(f, cur + " ", word);
      WidthAppend(f, cur, " ");
      WidthOne(f, ' ');
    }
  }

  function Flushed(l: Laid): seq<string> {
    if l.cur == [] then l.lines else l.lines + [l.cur]
  }

  function Place(f: Font, l: Laid, word: string, max: nat): Laid {
    if Width(f, Joined(l.cur, word)) <= max then Laid(l.lines, Joined(l.cur, word))
    else if Width(f, word) > max then Laid(Flushed(l) + Chunks(f, word, max), [])
    else Laid(Flushed(l), word)
  }

  function PlaceAll(f: Font, l: Laid, words: seq<string>, max: nat): Laid
    decreases |words|
  {
    if words == [] then l else PlaceAll(f, Place(f, l, words[0], max), words[1..], max)
  }

  /** A line with nothing left to show still takes a line, unless it ends in a word just broken up. */
  function Finished(l: Laid, endsInWord: bool): seq<string> {
    if l.cur == [] && !endsInWord then l.lines + [""] else Flushed(l)
  }

  predicate EndsInWord(f: Font, line: string) {
    line != [] && !f.blank(line[|line| - 1])
  }

  /** The lines a line of text is wrapped into. */
  function WrapLine(f: Font, line: string, max: nat): seq<string> {
    Finished(PlaceAll(f, Laid([], []), Words(f, line), max), EndsInWord(f, line))
  }

  /** What is still to be placed does not change. */
  ghost predicate Wrapping(f: Font, line: string, i: nat, max: nat, l: Laid, word: string) {
    && i <= |line|
    && PlaceAll(f, l, Split(f, line[i..], word), max) == PlaceAll(f, Laid([], []), Words(f, line), max)
    && (word != [] <==> EndsInWord(f, line[..i]))
  }

  lemma {:induction false} WrapNext(f: Font, line: string, i: nat, max: nat, l: Laid, word: string)
    requires Wrapping(f, line, i, max, l, word) && i < |line|
    ensures if !f.blank(line[i]) then Wrapping(f, line, i + 1, max, l, word + [line[i]])
            else if word == [] then Wrapping(f, line, i + 1, max, l, [])
            else Wrapping(f, line, i + 1, max, Place(f, l, word, max), [])
  {
    Headed(line, i);
    assert EndsInWord(f, line[..i + 1]) <==> !f.blank(line[i]);
    if f.blank(line[i]) && word != [] {
      var rest := Split(f, line[i + 1..], []);
      assert Split(f, line[i..], word) == [word] + rest;
      Tailed(word, rest, []);
    }
  }

  lemma {:induction false} WrapEnd(f: Font, line: string, max: nat, l: Laid, word: string)
    requires Wrapping(f, line, |line|, max, l, word)
    ensures WrapLine(f, line, max) == if word == [] then Finished(l, false) else Finished(Place(f, l, word, max), true)
  {
    assert line[..|line|] == line && line[|line|..] == [];
    if word != [] {
      assert Split(f, [], word) == [word] && [word][1..] == [];
      assert PlaceAll(f, l, [word], max) == PlaceAll(f, Place(f, l, word, max), [], max);
    }
  }

  method WrapTextLine(f: Font, line: string, max: nat) returns (lines: seq<string>)
    ensures lines == WrapLine(f, line, max)
  {
    lines := [];
    var currentLine, currentWidth, pendingSpace := "", 0, false;
    var word, wordWidth := "", 0;
    assert line[0..] == line && line[..0] == [];
    for i := 0 to |line|
      invariant Wrapping(f, line, i, max, Laid(lines, currentLine), word)
      invariant currentWidth == Width(f, currentLine) && wordWidth == Width(f, word)
      invariant pendingSpace <==> currentLine != ""
    {
      var ch := line[i];
      WrapNext(f, line, i, max, Laid(lines, currentLine), word);
      if f.blank(ch) {
        if word != "" {
          ghost var l := Laid(lines, currentLine);
          WidthJoined(f, currentLine, word);
          if currentWidth + (if pendingSpace then 1 else 0) + wordWidth > max {
            if currentLine != "" {
              lines := lines + [currentLine];
              currentLine, currentWidth := "", 0;
            }
            if wordWidth > max {
              var chunks := BreakLongWord(f, word, max);
              lines := lines + chunks;
              pendingSpace := false;
            } else {
              currentLine, currentWidth, pendingSpace := word, wordWidth, true;
            }
          } else {
            currentLine := if pendingSpace then currentLine + " " + word else currentLine + word;
            currentWidth := currentWidth + (if pendingSpace then 1 else 0) + wordWidth;
            pendingSpace := true;
          }
          assert Laid(lines, currentLine) == Place(f, l, word, max);
          word, wordWidth := "", 0;
        }
        if currentLine != "" {
          pendingSpace := true;
        }
      } else {
        WidthOne(f, ch);
        WidthAppend(f, word, [ch]);
        word, wordWidth := word + [ch], wordWidth + f.width(ch);
      }
    }
    WrapEnd(f, line, max, Laid(lines, currentLine), word);
    if word != "" {
      WidthJoined(f, currentLine, word);
      if currentWidth + (if pendingSpace then 1 else 0) + wordWidth > max {
        if currentLine != "" {
          lines := lines + [currentLine];
        }
        if wordWidth > max {
          var chunks := BreakLongWord(f, word, max);
          lines := lines + chunks;
        } else {
          lines := lines + [word];
        }
      } else {
        assert "" + word == word;
        lines := lines + [if pendingSpace then currentLine + " " + word else currentLine + word];
      }
    } else if currentLine != "" {
      lines := lines + [currentLine];
    } else {
      lines := lines + [""];
    }
  }

  // ---------- what wrapping keeps ----------

  /** The characters of s that show. */
  function Ink(f: Font, s: string): string {
    if s == [] then [] else if f.blank(s[0]) then Ink(f, s[1..]) else [s[0]] + Ink(f, s[1..])
  }

  lemma {:induction false} InkAppend(f: Font, a: string, b: string)
    ensures Ink(f, a + b) == Ink(f, a) + Ink(f, b)
  {
    if a == [] {
      assert a + b == b;
    } else {
      InkAppend(f, a[1..], b);
      assert (a + b)[1..] == a[1..] + b;
      Tailed(a[0], Ink(f, a[1..]), Ink(f, b));
    }
  }

  lemma {:induction false} InkBlank(f: Font, c: char)
    ensures Ink(f, [c]) == if f.blank(c) then [] else [c]
  {
    assert [c][1..] == [];
  }

  /** The ink of all the lines. */
  function InkOf(f: Font, lines: seq<string>): string {
    Ink(f, Flat(lines))
  }

  lemma {:induction false} InkOfAppend(f: Font, a: seq<string>, b: seq<string>)
    ensures InkOf(f, a + b) == InkOf(f, a) + InkOf(f, b)
  {
    FlatAppend(a, b);
    InkAppend(f, Flat(a), Flat(b));
  }

  lemma {:induction false} InkOfOne(f: Font, s: string)
    ensures InkOf(f, [s]) == Ink(f, s)
  {
    FlatOne(s);
  }

  lemma {:induction false} InkJoined(f: Font, cur: string, word: string)
    ensures Ink(f, Joined(cur, word)) == Ink(f, cur) + Ink(f, word)
  {
    if cur == [] {
      assert [] + Ink(f, word) == Ink(f, word);
    } else {
      InkAppend(f, cur + " ", word);
      InkAppend(f, cur, " ");
      InkBlank(f, ' ');
      assert Ink(f, cur) + [] == Ink(f, cur);
    }
  }

  function InkLaid(f: Font, l: Laid): string {
    InkOf(f, l.lines) + Ink(f, l.cur)
  }

  lemma {:induction false} InkFlushed(f: Font, l: Laid)
    ensures InkOf(f, Flushed(l)) == InkLaid(f, l)
  {
    if l.cur == [] {
      assert InkOf(f, l.lines) + [] == InkOf(f, l.lines);
    } else {
      InkOfAppend(f, l.lines, [l.cur]);
      InkOfOne(f, l.cur);
    }
  }

  lemma {:induction false} InkPlaced(f: Font, l: Laid, word: string, max: nat)
    ensures InkLaid(f, Place(f, l, word, max)) == InkLaid(f, l) + Ink(f, word)
  {
    InkFlushed(f, l);
    if Width(f, Joined(l.cur, word)) <= max {
      InkJoined(f, l.cur, word);
      Regrouped(InkOf(f, l.lines), Ink(f, l.cur), Ink(f, word));
    } else if Width(f, word) > max {
      InkOfAppend(f, Flushed(l), Chunks(f, word, max));
      ChunksConcat(f, [], word, max);
      assert [] + word == word;
      assert (InkLaid(f, l) + Ink(f, word)) + [] == InkLaid(f, l) + Ink(f, word);
    }
  }

  lemma {:induction false} InkPlacedAll(f: Font, l: Laid, words: seq<string>, max: nat)
    ensures InkLaid(f, PlaceAll(f, l, words, max)) == InkLaid(f, l) + InkOf(f, words)
    decreases |words|
  {
    if words == [] {
      assert InkLaid(f, l) + [] == InkLaid(f, l);
    } else {
      InkPlaced(f, l, words[0], max);
      InkPlacedAll(f, Place(f, l, words[0], max), words[1..], max);
      InkAppend(f, words[0], Flat(words[1..]));
      Regrouped(InkLaid(f, l), Ink(f, words[0]), InkOf(f, words[1..]));
    }
  }

  lemma {:induction false} InkSplit(f: Font, line: string, word: string)
    ensures InkOf(f, Split(f, line, word)) == Ink(f, word + line)
    decreases |line|
  {
    if line == [] {
      assert word + line == word;
      if word != [] { InkOfOne(f, word); }
    } else {
      assert line == [line[0]] + line[1..];
      Regrouped(word, [line[0]], line[1..]);
      if !f.blank(line[0]) {
        InkSplit(f, line[1..], word + [line[0]]);
      } else {
        InkSplit(f, line[1..], []);
        InkAroundBlank(f, word, line[0], line[1..]);
        if word != [] {
          Tailed(word, Split(f, line[1..], []), []);
          InkAppend(f, word, Flat(Split(f, line[1..], [])));
        }
      }
    }
  }

  lemma {:induction false} InkAroundBlank(f: Font, word: string, c: char, rest: string)
    requires f.blank(c)
    ensures Ink(f, word + [c] + rest) == Ink(f, word) + Ink(f, rest)
    ensures Ink(f, [] + rest) == Ink(f, rest)
  {
    InkAppend(f, word + [c], rest);
    InkAppend(f, word, [c]);
    InkBlank(f, c);
    assert Ink(f, word) + [] == Ink(f, word) && [] + rest == rest;
  }

  /** Wrapping loses and adds no character that shows, and keeps their order. */
  lemma {:induction false} WrapKeepsInk(f: Font, line: string, max: nat)
    ensures InkOf(f, WrapLine(f, line, max)) == Ink(f, line)
  {
    var l := PlaceAll(f, Laid([], []), Words(f, line), max);
    InkPlacedAll(f, Laid([], []), Words(f, line), max);
    InkSplit(f, line, []);
    InkFlushed(f, l);
    InkOfAppend(f, l.lines, [""]);
    InkOfOne(f, "");
    assert [] + line == line;
    assert InkLaid(f, Laid([], [])) == [] && [] + Ink(f, line) == Ink(f, line);
    assert InkOf(f, l.lines) + [] == InkOf(f, l.lines);
  }

  // ---------- every line fits ----------

  lemma {:induction false} PlacedFits(f: Font, l: Laid, words: seq<string>, max: nat)
    requires max >= 2 && AllFit(f, l.lines, max) && Width(f, l.cur) <= max
    ensures var l' := PlaceAll(f, l, words, max); AllFit(f, l'.lines, max) && Width(f, l'.cur) <= max
    decreases |words|
  {
    if words != [] {
      ChunksFit(f, [], words[0], max);
      PlacedFits(f, Place(f, l, words[0], max), words[1..], max);
    }
  }

  lemma {:induction false} WrapFits(f: Font, line: string, max: nat)
    requires max >= 2
    ensures AllFit(f, WrapLine(f, line, max), max)
  {
    PlacedFits(f, Laid([], []), Words(f, line), max);
  }
}
