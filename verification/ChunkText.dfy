/** Splitting a long comment (crates/kernel/src/channels/comment.rs:412-439). */
module ChunkText {
  import opened Sequences

  /** Where the last line feed of s ends, 0 if there is none. */
  function AfterLastNewline(s: string): (end: nat)
    ensures end <= |s| && (end > 0 ==> s[end - 1] == '\n') && forall k :: end <= k < |s| ==> s[k] != '\n'
  {
    if s == [] then 0 else if s[|s| - 1] == '\n' then |s| else AfterLastNewline(s[..|s| - 1])
  }

  /** Of each chunk: it has 1 to max characters and, with others to follow, could not have taken in all the
      rest, and is cut where it should be. */
  predicate Fine(chunks: seq<string>, max: nat) {
    chunks == []
    || (0 < |chunks[0]| <= max && (|chunks| > 1 ==> CutHere(chunks[0], Flat(chunks[1..]), max)) &&
      Fine(chunks[1..], max))
  }

  predicate CutHere(chunk: string, rest: string, max: nat) {
    |chunk| + |rest| > max && WellCut(chunk, rest, max)
  }

  predicate WellCut(chunk: string, rest: string, max: nat) {
    && chunk != []
    && if chunk[|chunk| - 1] == '\n' then NoLaterBreak(chunk, rest, max) else |chunk| == max && '\n' !in chunk
  }

  /** The chunk could not have been ended at a later line feed. */
  predicate NoLaterBreak(chunk: string, rest: string, max: nat) {
    forall k :: 0 <= k < |rest| && |chunk| + k < max ==> rest[k] != '\n'
  }

  /** The first chunk of a text longer than the budget. */
  function FirstChunk(text: string, max: nat): (n: nat)
    requires 0 < max < |text|
    ensures 0 < n <= max
  {
    var soft := AfterLastNewline(text[..max]);
    if soft > 0 then soft else max
  }

  function TextChunks(text: string, max: nat): (chunks: seq<string>)
    requires max > 0
    ensures Flat(chunks) == text
    decreases |text|
  {
    if text == [] then []
    else if |text| <= max then [text]
    else
      var n := FirstChunk(text, max);
      assert text[..n] + text[n..] == text;
      [text[..n]] + TextChunks(text[n..], max)
  }

  /** Every chunk has 1 to max characters; but for the last it ends in the last line feed that fits
      or, if none does, is exactly max long. */
  lemma {:induction false} ChunksFine(text: string, max: nat)
    requires max > 0
    ensures Fine(TextChunks(text, max), max)
    decreases |text|
  {
    if |text| > max {
      var n := FirstChunk(text, max);
      ChunksFine(text[n..], max);
      FirstFine(text, max);
      Tailed(text[..n], TextChunks(text[n..], max), []);
    }
  }

  lemma {:induction false} FirstFine(text: string, max: nat)
    requires 0 < max < |text|
    ensures var n := FirstChunk(text, max); CutHere(text[..n], text[n..], max)
  {
    var n, soft := FirstChunk(text, max), AfterLastNewline(text[..max]);
    forall k | soft <= k < max ensures text[k] != '\n' { assert text[k] == text[..max][k]; }
    assert soft > 0 ==> text[soft - 1] == '\n';
  }

  lemma {:induction false} FineStart(chunks: seq<string>, max: nat)
    requires Fine(chunks, max) && chunks != []
    ensures Flat(chunks) == chunks[0] + Flat(chunks[1..]) && Flat(chunks) != []
    ensures |chunks| > 1 ==> |Flat(chunks)| > max
    ensures |chunks| == 1 ==> Flat(chunks) == chunks[0]
  {
    assert |chunks| == 1 ==> chunks[1..] == [] && chunks[0] + [] == chunks[0];
  }

  /** A longer text has one place where the first chunk can be cut. */
  lemma {:induction false} OneCut(text: string, a: nat, b: nat, max: nat)
    requires 0 < a <= max < |text| && 0 < b <= max
    requires WellCut(text[..a], text[a..], max) && WellCut(text[..b], text[b..], max)
    ensures a == b
  {
    if a < b { CutTooSoon(text, a, b, max); }
    if b < a { CutTooSoon(text, b, a, max); }
  }

  lemma {:induction false} CutTooSoon(text: string, a: nat, b: nat, max: nat)
    requires 0 < a < b <= max < |text| && WellCut(text[..a], text[a..], max)
    ensures !WellCut(text[..b], text[b..], max)
  {
    assert text[..a][a - 1] == text[a - 1] == text[..b][a - 1];
    assert text[..b][b - 1] == text[b - 1] == text[a..][b - 1 - a];
  }

  /** There is no other way to cut a text so. */
  lemma {:induction false} ChunksUnique(text: string, chunks: seq<string>, max: nat)
    requires max > 0 && Fine(chunks, max) && Flat(chunks) == text
    ensures chunks == TextChunks(text, max)
    decreases |chunks|
  {
    if chunks != [] {
      FineStart(chunks, max);
      var a := |chunks[0]|;
      assert text[..a] == chunks[0] && text[a..] == Flat(chunks[1..]);
      if |text| > max {
        FirstFine(text, max);
        OneCut(text, a, FirstChunk(text, max), max);
        ChunksUnique(text[a..], chunks[1..], max);
      }
      assert chunks == [chunks[0]] + chunks[1..];
    }
  }

  method SplitComment(text: string, max: nat) returns (chunks: seq<string>)
    ensures Flat(chunks) == text
    ensures max > 0 ==> chunks == TextChunks(text, max)
    ensures max == 0 ==> chunks == if text == "" then [] else [text]
  {
    if max == 0 {
      assert Flat([text]) == text + [] && text + [] == text;
      return if text == "" then [] else [text];
    }
    chunks := [];
    var rest := text;
    while rest != ""
      invariant chunks + TextChunks(rest, max) == TextChunks(text, max)
      decreases |rest|
    {
      if |rest| <= max {
        chunks := chunks + [rest];
        break;
      }
      var newline := AfterLastNewline(rest[..max]);
      var end := if newline > 0 then newline else max;
      Regrouped(chunks, [rest[..end]], TextChunks(rest[end..], max));
      chunks := chunks + [rest[..end]];
      rest := rest[end..];
    }
    assert chunks == TextChunks(text, max);
  }
}
