/** The wrap takes as few lines as any (crates/tui/src/table.rs:43-140). */
module TableGreedy {
  import opened Sequences
  import opened TableWrap

  /** Words set in one line. */
  function JoinedAll(g: seq<string>): string {
    if g == [] then [] else if |g| == 1 then g[0] else Joined(JoinedAll(g[..|g| - 1]), g[|g| - 1])
  }

  function Texts(groups: seq<seq<string>>): (r: seq<string>)
    ensures |r| == |groups| && forall k :: 0 <= k < |r| ==> r[k] == JoinedAll(groups[k])
  {
    seq(|groups|, k requires 0 <= k < |groups| => JoinedAll(groups[k]))
  }

  predicate WordsFit(f: Font, words: seq<string>, max: nat) {
    forall k :: 0 <= k < |words| ==> words[k] != [] && Width(f, words[k]) <= max
  }

  predicate GroupsFit(f: Font, groups: seq<seq<string>>, max: nat) {
    forall k :: 0 <= k < |groups| ==> groups[k] != [] && Width(f, JoinedAll(groups[k])) <= max
  }

  /** A way to set the words in lines of at most this width. */
  predicate Setting(f: Font, groups: seq<seq<string>>, words: seq<string>, max: nat) {
    GroupsFit(f, groups, max) && Flat(groups) == words
  }

  /** The further lines the greedy wrap takes after one of width c. */
  function Further(f: Font, words: seq<string>, c: nat, max: nat): nat {
    if words == [] then 0
    else if c + 1 + Width(f, words[0]) <= max then Further(f, words[1..], c + 1 + Width(f, words[0]), max)
    else 1 + Further(f, words[1..], Width(f, words[0]), max)
  }

  /** A line that is less full is no worse, and by at most one line better. */
  lemma {:induction false} FurtherMonotone(f: Font, words: seq<string>, c: nat, d: nat, max: nat)
    requires c <= d
    ensures Further(f, words, c, max) <= Further(f, words, d, max) <= 1 + Further(f, words, c, max)
  {
    if words != [] {
      var w := Width(f, words[0]);
      FurtherMonotone(f, words[1..], c + 1 + w, d + 1 + w, max);
      FurtherMonotone(f, words[1..], w, c + 1 + w, max);
    }
  }

  lemma {:induction false} JoinedPushed(f: Font, g: seq<string>, word: string)
    requires g != [] && forall k :: 0 <= k < |g| ==> g[k] != []
    ensures JoinedAll(g + [word]) == Joined(JoinedAll(g), word) && JoinedAll(g) != []
    ensures Width(f, JoinedAll(g + [word])) == Width(f, JoinedAll(g)) + 1 + Width(f, word)
  {
    assert (g + [word])[..|g|] == g;
    if |g| > 1 {
      JoinedPushed(f, g[..|g| - 1], g[|g| - 1]);
    }
    WidthJoined(f, JoinedAll(g), word);
  }

  /** The words of a group that fits all stay on its line. */
  lemma {:induction false} GroupStays(f: Font, g: seq<string>, n: nat, rest: seq<string>, max: nat)
    requires 0 < n <= |g| && Width(f, JoinedAll(g)) <= max && forall k :: 0 <= k < |g| ==> g[k] != []
    ensures Width(f, JoinedAll(g[..n])) <= max
    ensures Further(f, g[n..] + rest, Width(f, JoinedAll(g[..n])), max) == Further(f, rest, Width(f, JoinedAll(g)), max)
    decreases |g| - n
  {
    if n == |g| {
      assert g[..n] == g && g[n..] + rest == rest;
    } else {
      GroupStays(f, g, n + 1, rest, max);
      Pushed(g, n);
      JoinedPushed(f, g[..n], g[n]);
      Headed(g, n);
      Tailed(g[n], g[n + 1..], rest);
    }
  }

  predicate NoEmptyWord(words: seq<string>) {
    forall k :: 0 <= k < |words| ==> words[k] != []
  }

  lemma {:induction false} FlatFirst(groups: seq<seq<string>>)
    requires groups != [] && NoEmptyWord(Flat(groups))
    ensures NoEmptyWord(groups[0]) && NoEmptyWord(Flat(groups[1..]))
  {
    var g, rest := groups[0], Flat(groups[1..]);
    assert forall k :: 0 <= k < |g| ==> g[k] == (g + rest)[k];
    assert forall k :: 0 <= k < |rest| ==> rest[k] == (g + rest)[|g| + k];
  }

  /** A group started on a new line costs one line more than the greedy wrap at most. */
  lemma {:induction false} GroupCosts(f: Font, g: seq<string>, rest: seq<string>, c: nat, max: nat)
    requires g != [] && Width(f, JoinedAll(g)) <= max && NoEmptyWord(g)
    ensures Further(f, g + rest, c, max) <= 1 + Further(f, rest, Width(f, JoinedAll(g)), max)
  {
    var w := Width(f, g[0]);
    GroupStays(f, g, 1, rest, max);
    assert g[..1] == [g[0]];
    Headed(g, 0);
    assert g[0..] == g && (g + rest)[1..] == g[1..] + rest;
    FurtherMonotone(f, g[1..] + rest, w, c + 1 + w, max);
  }

  lemma {:induction false} NoSettingShorter(f: Font, groups: seq<seq<string>>, words: seq<string>, c: nat, max: nat)
    requires Setting(f, groups, words, max) && NoEmptyWord(words)
    ensures Further(f, words, c, max) <= |groups|
  {
    if groups != [] {
      var g, rest := groups[0], Flat(groups[1..]);
      FlatFirst(groups);
      NoSettingShorter(f, groups[1..], rest, Width(f, JoinedAll(g)), max);
      GroupCosts(f, g, rest, c, max);
    }
  }

  /** From its first word on, the greedy wrap sets the words, in one line and `Further` ones. */
  lemma {:induction false} GreedySets(f: Font, done: seq<seq<string>>, g: seq<string>, words: seq<string>, max: nat)
    returns (groups: seq<seq<string>>)
    requires g != [] && NoEmptyWord(g) && WordsFit(f, words, max) && GroupsFit(f, done, max) &&
               Width(f, JoinedAll(g)) <= max
    ensures Sets(f, done, g, words, max, groups)
    decreases |words|
  {
    if words == [] {
      groups := done + [g];
      SetsLast(f, done, g, max);
    } else {
      var word := words[0];
      JoinedPushed(f, g, word);
      assert words == [word] + words[1..];
      if Width(f, JoinedAll(g)) + 1 + Width(f, word) <= max {
        groups := GreedySets(f, done, g + [word], words[1..], max);
        SetsJoined(f, done, g, word, words[1..], max, groups);
      } else {
        assert JoinedAll([word]) == word;
        groups := GreedySets(f, done + [g], [word], words[1..], max);
        SetsOnNewLine(f, done, g, word, words[1..], max, groups);
      }
    }
  }

  /** The groups hold what is done, the words on the line and those to come, as the wrap places them. */
  ghost predicate Sets(f: Font, done: seq<seq<string>>, g: seq<string>, words: seq<string>, max: nat,
                       groups: seq<seq<string>>)
  {
    && GroupsFit(f, groups, max) && Flat(groups) == Flat(done) + (g + words)
    && |groups| == |done| + 1 + Further(f, words, Width(f, JoinedAll(g)), max)
    && var l := PlaceAll(f, Laid(Texts(done), JoinedAll(g)), words, max); l.cur != [] && Flushed(l) == Texts(groups)
  }

  lemma {:induction false} SetsLast(f: Font, done: seq<seq<string>>, g: seq<string>, max: nat)
    requires g != [] && NoEmptyWord(g) && GroupsFit(f, done, max) && Width(f, JoinedAll(g)) <= max
    ensures Sets(f, done, g, [], max, done + [g])
  {
    JoinedPushed(f, g, []);
    FlatPushed(done, g);
    TextsPushed(done, g);
    assert g + [] == g;
  }

  lemma {:induction false} SetsJoined(f: Font, done: seq<seq<string>>, g: seq<string>, word: string,
                                      rest: seq<string>, max: nat,
                                      groups: seq<seq<string>>)
    requires g != [] && NoEmptyWord(g) && Width(f, JoinedAll(g)) + 1 + Width(f, word) <= max
    requires Sets(f, done, g + [word], rest, max, groups)
    ensures Sets(f, done, g, [word] + rest, max, groups)
  {
    JoinedPushed(f, g, word);
    Regrouped(g, [word], rest);
    Tailed(word, rest, []);
  }

  lemma {:induction false} SetsOnNewLine(f: Font, done: seq<seq<string>>, g: seq<string>, word: string,
                                         rest: seq<string>, max: nat,
                                         groups: seq<seq<string>>)
    requires g != [] && NoEmptyWord(g) && Width(f, JoinedAll(g)) + 1 + Width(f, word) > max && Width(f, word) <= max
    requires Sets(f, done + [g], [word], rest, max, groups)
    ensures Sets(f, done, g, [word] + rest, max, groups)
  {
    JoinedPushed(f, g, word);
    assert JoinedAll([word]) == word;
    FlatPushed(done, g);
    TextsPushed(done, g);
    Regrouped(Flat(done), g, [word] + rest);
    Tailed(word, rest, []);
  }

  lemma {:induction false} TextsPushed(done: seq<seq<string>>, g: seq<string>)
    ensures Texts(done + [g]) == Texts(done) + [JoinedAll(g)]
  {
  }

  lemma {:induction false} WordsNonEmpty(f: Font, line: string, word: string)
    ensures NoEmptyWord(Split(f, line, word))
    decreases |line|
  {
    if line != [] {
      WordsNonEmpty(f, line[1..], if f.blank(line[0]) then [] else word + [line[0]]);
    }
  }

  /** When every word fits, the wrap sets the words, and no other setting takes fewer lines. */
  lemma {:induction false} FewestLines(f: Font, words: seq<string>, max: nat)
    requires words != [] && NoEmptyWord(words) && AllFit(f, words, max)
    ensures exists groups :: Setting(f, groups, words, max) &&
              Flushed(PlaceAll(f, Laid([], []), words, max)) == Texts(groups)
    ensures forall groups :: Setting(f, groups, words, max) ==>
              |Flushed(PlaceAll(f, Laid([], []), words, max))| <= |groups|
    ensures PlaceAll(f, Laid([], []), words, max).cur != []
  {
    var w := words[0];
    var groups := GreedySets(f, [], [w], words[1..], max);
    Headed(words, 0);
    assert words[0..] == words && Texts([]) == [] && [] + words == words;
    assert Place(f, Laid([], []), w, max) == Laid([], w);
    assert Setting(f, groups, words, max);
    forall other | Setting(f, other, words, max) ensures |Texts(groups)| <= |other| {
      FirstGroup(f, other, words, max);
    }
  }

  lemma {:induction false} WrapIsMinimal(f: Font, line: string, max: nat)
    requires Words(f, line) != [] && AllFit(f, Words(f, line), max)
    ensures exists groups :: Setting(f, groups, Words(f, line), max) && WrapLine(f, line, max) == Texts(groups)
    ensures forall groups :: Setting(f, groups, Words(f, line), max) ==> |WrapLine(f, line, max)| <= |groups|
  {
    WordsNonEmpty(f, line, []);
    FewestLines(f, Words(f, line), max);
  }

  lemma {:induction false} FirstGroup(f: Font, groups: seq<seq<string>>, words: seq<string>, max: nat)
    requires Setting(f, groups, words, max) && NoEmptyWord(words) && words != []
    ensures 1 + Further(f, words[1..], Width(f, words[0]), max) <= |groups|
  {
    var g, rest := groups[0], Flat(groups[1..]);
    FlatFirst(groups);
    GroupStays(f, g, 1, rest, max);
    assert g[..1] == [g[0]] && words[1..] == g[1..] + rest;
    NoSettingShorter(f, groups[1..], rest, Width(f, JoinedAll(g)), max);
  }
}
