/** What wrapping makes of a line, told without its loops (crates/tui/src/table.rs:41-140). */
module TableWords {
  import opened Sequences
  import opened TableWrap
  import opened TableGreedy

  // ---------- the words of a line ----------

  predicate AllBlank(f: Font, s: string) {
    forall k :: 0 <= k < |s| ==> f.blank(s[k])
  }

  predicate NoBlank(f: Font, s: string) {
    forall k :: 0 <= k < |s| ==> !f.blank(s[k])
  }

  /** The word stands at line[i..j]: the first characters that are not blank, up to the next blank. */
  predicate FirstWord(f: Font, line: string, i: nat, j: nat) {
    && i < j <= |line|
    && (forall k :: 0 <= k < i ==> f.blank(line[k]))
    && (forall k :: i <= k < j ==> !f.blank(line[k]))
    && (j < |line| ==> f.blank(line[j]))
  }

  /** These are the runs of characters between the blanks. */
  ghost predicate Reads(f: Font, line: string, words: seq<string>)
    decreases |words|, 0
  {
    if words == [] then AllBlank(f, line) else exists i: nat, j: nat :: ReadsAt(f, line, words, i, j)
  }

  ghost predicate ReadsAt(f: Font, line: string, words: seq<string>, i: nat, j: nat)
    requires words != []
    decreases |words| - 1, 1
  {
    FirstWord(f, line, i, j) && words[0] == line[i..j] && Reads(f, line[j..], words[1..])
  }

  lemma {:induction false} OneFirstWord(f: Font, line: string, i: nat, j: nat, i': nat, j': nat)
    requires FirstWord(f, line, i, j) && FirstWord(f, line, i', j')
    ensures i == i' && j == j'
  {
    assert !f.blank(line[i]) && !f.blank(line[i']);
    assert (j < |line| ==> f.blank(line[j])) && (j' < |line| ==> f.blank(line[j']));
  }

  lemma {:induction false} ReadsOne(f: Font, line: string, a: seq<string>, b: seq<string>)
    requires Reads(f, line, a) && Reads(f, line, b)
    ensures a == b
    decreases |a|
  {
    if a != [] && b != [] {
      var i: nat, j: nat :| ReadsAt(f, line, a, i, j);
      var i': nat, j': nat :| ReadsAt(f, line, b, i', j');
      OneFirstWord(f, line, i, j, i', j');
      ReadsOne(f, line[j..], a[1..], b[1..]);
      assert a == [a[0]] + a[1..] && b == [b[0]] + b[1..];
    } else if a != [] || b != [] {
      NotAllBlank(f, line, if a != [] then a else b);
    }
  }

  lemma {:induction false} NotAllBlank(f: Font, line: string, words: seq<string>)
    requires words != [] && Reads(f, line, words)
    ensures !AllBlank(f, line)
  {
    var i: nat, j: nat :| ReadsAt(f, line, words, i, j);
    assert !f.blank(line[i]);
  }

  lemma {:induction false} ReadsWord(f: Font, word: string, line: string, words: seq<string>)
    requires word != [] && NoBlank(f, word) && (line != [] ==> f.blank(line[0])) && Reads(f, line, words)
    ensures Reads(f, word + line, [word] + words)
  {
    var all := word + line;
    Tailed(word, words, []);
    assert all[0..|word|] == word && all[|word|..] == line;
    assert ReadsAt(f, all, [word] + words, 0, |word|);
  }

  lemma {:induction false} ReadsBlank(f: Font, c: char, line: string, words: seq<string>)
    requires f.blank(c) && Reads(f, line, words)
    ensures Reads(f, [c] + line, words)
  {
    if words != [] {
      var i: nat, j: nat :| ReadsAt(f, line, words, i, j);
      Shifted(f, c, line, i, j);
      assert ReadsAt(f, [c] + line, words, i + 1, j + 1);
    }
  }

  lemma {:induction false} Shifted(f: Font, c: char, line: string, i: nat, j: nat)
    requires f.blank(c) && FirstWord(f, line, i, j)
    ensures var all := [c] + line;
            FirstWord(f, all, i + 1, j + 1) && all[i + 1..j + 1] == line[i..j] && all[j + 1..] == line[j..]
  {
  }

  lemma {:induction false} SplitReads(f: Font, line: string, word: string)
    requires NoBlank(f, word)
    ensures Reads(f, word + line, Split(f, line, word))
    decreases |line|
  {
    if line == [] {
      assert word + line == word && AllBlank(f, []);
      if word != [] {
        ReadsWord(f, word, [], []);
        assert word + [] == word && [word] + [] == [word];
      }
    } else if !f.blank(line[0]) {
      SplitReads(f, line[1..], word + [line[0]]);
      Headed(line, 0);
      Regrouped(word, [line[0]], line[1..]);
      assert line[0..] == line;
    } else {
      SplitReads(f, line[1..], []);
      SplitAtBlank(f, line, word);
    }
  }

  lemma {:induction false} SplitAtBlank(f: Font, line: string, word: string)
    requires NoBlank(f, word) && line != [] && f.blank(line[0])
    requires Reads(f, [] + line[1..], Split(f, line[1..], []))
    ensures Reads(f, word + line, Split(f, line, word))
  {
    var words := Split(f, line[1..], []);
    assert [] + line[1..] == line[1..] && line == [line[0]] + line[1..];
    ReadsBlank(f, line[0], line[1..], words);
    if word == [] { assert word + line == line; } else { ReadsWord(f, word, line, words); }
  }

  /** A line is set word by word: its words are the runs of characters between the blanks, and no others. */
  lemma {:induction false} WordsAre(f: Font, line: string, words: seq<string>)
    ensures Words(f, line) == words <==> Reads(f, line, words)
  {
    SplitReads(f, line, []);
    assert [] + line == line;
    if Reads(f, line, words) { ReadsOne(f, line, words, Words(f, line)); }
  }

  // ---------- lines around words that are too long ----------

  /** The lines these words take. */
  function Lines(f: Font, words: seq<string>, max: nat): seq<string> {
    Flushed(PlaceAll(f, Laid([], []), words, max))
  }

  lemma {:induction false} PlaceAfter(f: Font, before: seq<string>, l: Laid, word: string, max: nat)
    ensures Place(f, Laid(before + l.lines, l.cur), word, max)
         == var next := Place(f, l, word, max); Laid(before + next.lines, next.cur)
    ensures Flushed(Laid(before + l.lines, l.cur)) == before + Flushed(l)
  {
    Regrouped(before, l.lines, [l.cur]);
    Regrouped(before, Flushed(l), Chunks(f, word, max));
  }

  lemma {:induction false} PlaceAllAfter(f: Font, before: seq<string>, l: Laid, words: seq<string>, max: nat)
    ensures PlaceAll(f, Laid(before + l.lines, l.cur), words, max)
         == var end := PlaceAll(f, l, words, max); Laid(before + end.lines, end.cur)
    decreases |words|
  {
    if words != [] {
      PlaceAfter(f, before, l, words[0], max);
      PlaceAllAfter(f, before, Place(f, l, words[0], max), words[1..], max);
    }
  }

  lemma {:induction false} PlaceAllAppend(f: Font, l: Laid, a: seq<string>, b: seq<string>, max: nat)
    ensures PlaceAll(f, l, a + b, max) == PlaceAll(f, PlaceAll(f, l, a, max), b, max)
    decreases |a|
  {
    if a == [] {
      assert a + b == b;
    } else {
      PlaceAllAppend(f, Place(f, l, a[0], max), a[1..], b, max);
      Tailed(a[0], a[1..], b);
      assert a == [a[0]] + a[1..];
    }
  }

  lemma {:induction false} TooLong(f: Font, l: Laid, word: string, max: nat)
    requires Width(f, word) > max
    ensures Place(f, l, word, max) == Laid(Flushed(l) + Chunks(f, word, max), [])
  {
    WidthJoined(f, l.cur, word);
  }

  /** A word too long for a line is cut into lines of its own: those before it and after it are set apart. */
  lemma {:induction false} LongWordApart(f: Font, a: seq<string>, word: string, b: seq<string>, max: nat)
    requires Width(f, word) > max
    ensures Lines(f, a + [word] + b, max) == Lines(f, a, max) + Chunks(f, word, max) + Lines(f, b, max)
  {
    var l := PlaceAll(f, Laid([], []), a, max);
    var before := Lines(f, a, max) + Chunks(f, word, max);
    PlaceAllAppend(f, Laid([], []), a + [word], b, max);
    PlaceAllAppend(f, Laid([], []), a, [word], max);
    TooLong(f, l, word, max);
    assert PlaceAll(f, l, [word], max) == Place(f, l, word, max) by { assert [word][1..] == []; }
    assert before + [] == before;
    PlaceAllAfter(f, before, Laid([], []), b, max);
    PlaceAfter(f, before, PlaceAll(f, Laid([], []), b, max), [], max);
  }

  /** Words that fit are set in as few lines as they can be. */
  lemma {:induction false} FittingWords(f: Font, words: seq<string>, max: nat)
    requires NoEmptyWord(words) && AllFit(f, words, max)
    ensures exists groups :: Setting(f, groups, words, max) && Lines(f, words, max) == Texts(groups)
    ensures forall groups :: Setting(f, groups, words, max) ==> |Lines(f, words, max)| <= |groups|
  {
    if words == [] {
      assert Setting(f, [], words, max) && Texts([]) == [];
    } else {
      FewestLines(f, words, max);
    }
  }

  // ---------- the end of a line ----------

  lemma {:induction false} LineBegun(f: Font, words: seq<string>, max: nat)
    requires words != [] && NoEmptyWord(words)
    ensures PlaceAll(f, Laid([], []), words, max).cur == [] <==> Width(f, words[|words| - 1]) > max
  {
    var front, last := words[..|words| - 1], words[|words| - 1];
    assert words == front + [last];
    PlaceAllAppend(f, Laid([], []), front, [last], max);
    assert [last][1..] == [];
    WidthJoined(f, PlaceAll(f, Laid([], []), front, max).cur, last);
  }

  /** A line takes the lines of its words, and one that is empty if it has none, or ends in blanks behind a
      word that was too long. */
  lemma {:induction false} LineTakes(f: Font, line: string, max: nat)
    ensures var words := Words(f, line);
            WrapLine(f, line, max) ==
              if words == [] || (Width(f, words[|words| - 1]) > max && f.blank(line[|line| - 1]))
              then Lines(f, words, max) + [""] else Lines(f, words, max)
  {
    var words := Words(f, line);
    WordsNonEmpty(f, line, []);
    WordsAre(f, line, words);
    if words != [] {
      LineBegun(f, words, max);
    } else {
      assert Lines(f, words, max) + [""] == [""] && AllBlank(f, line);
    }
  }
}
