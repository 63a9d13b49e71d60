/** How a word too long for a line is cut (crates/tui/src/table.rs:143-166). */
module TableBreak {
  import opened Sequences
  import opened TableWrap

  /** The further chunks a word takes after one of width c. */
  function More(f: Font, word: string, c: nat, max: nat): nat {
    if word == [] then 0
    else if c + f.width(word[0]) > max then 1 + More(f, word[1..], f.width(word[0]), max)
    else More(f, word[1..], c + f.width(word[0]), max)
  }

  lemma {:induction false} MoreMonotone(f: Font, word: string, c: nat, d: nat, max: nat)
    requires c <= d
    ensures More(f, word, c, max) <= More(f, word, d, max) <= 1 + More(f, word, c, max)
  {
    if word != [] {
      var w := f.width(word[0]);
      MoreMonotone(f, word[1..], c + w, d + w, max);
      MoreMonotone(f, word[1..], w, c + w, max);
    }
  }

  lemma {:induction false} BreakCount(f: Font, chunk: string, word: string, max: nat)
    requires chunk != []
    ensures |BreakFrom(f, chunk, word, max)| == 1 + More(f, word, Width(f, chunk), max)
    decreases |word|
  {
    if word != [] {
      WidthOne(f, word[0]);
      WidthAppend(f, chunk, [word[0]]);
      BreakCount(f, if Width(f, chunk) + f.width(word[0]) > max then [word[0]] else chunk + [word[0]], word[1..], max);
    }
  }

  /** A piece that fits stays in one chunk. */
  lemma {:induction false} PieceStays(f: Font, piece: string, n: nat, rest: string, max: nat)
    requires n <= |piece| && Width(f, piece) <= max
    ensures Width(f, piece[..n]) <= max
    ensures More(f, piece[n..] + rest, Width(f, piece[..n]), max) == More(f, rest, Width(f, piece), max)
    decreases |piece| - n
  {
    if n == |piece| {
      assert piece[..n] == piece && piece[n..] + rest == rest;
    } else {
      PieceStays(f, piece, n + 1, rest, max);
      Pushed(piece, n);
      WidthOne(f, piece[n]);
      WidthAppend(f, piece[..n], [piece[n]]);
      Headed(piece, n);
      Tailed(piece[n], piece[n + 1..], rest);
    }
  }

  /** A further piece costs one chunk at most. */
  lemma {:induction false} PieceCosts(f: Font, piece: string, rest: string, c: nat, max: nat)
    requires Width(f, piece) <= max
    ensures More(f, piece + rest, c, max) <= 1 + More(f, rest, Width(f, piece), max)
  {
    PieceStays(f, piece, 0, rest, max);
    assert piece[..0] == [] && piece[0..] == piece;
    MoreMonotone(f, piece + rest, 0, c, max);
  }

  lemma {:induction false} PiecesCost(f: Font, pieces: seq<string>, c: nat, max: nat)
    requires AllFit(f, pieces, max)
    ensures More(f, Flat(pieces), c, max) <= |pieces|
  {
    if pieces != [] {
      PiecesCost(f, pieces[1..], Width(f, pieces[0]), max);
      PieceCosts(f, pieces[0], Flat(pieces[1..]), c, max);
    }
  }

  lemma {:induction false} FewestFrom(f: Font, word: string, pieces: seq<string>, max: nat)
    requires word != [] && Flat(pieces) == word && AllFit(f, pieces, max)
    ensures 1 + More(f, word[1..], f.width(word[0]), max) <= |pieces|
  {
    var piece, rest := pieces[0], Flat(pieces[1..]);
    if piece == [] {
      assert [] + rest == rest;
      FewestFrom(f, word, pieces[1..], max);
    } else {
      PiecesCost(f, pieces[1..], Width(f, piece), max);
      PieceStays(f, piece, 1, rest, max);
      assert piece[..1] == [piece[0]] && word[1..] == piece[1..] + rest;
      WidthOne(f, piece[0]);
    }
  }

  /** No way to cut a word into pieces that fit has fewer of them. */
  lemma {:induction false} ChunksFewest(f: Font, word: string, pieces: seq<string>, max: nat)
    requires Flat(pieces) == word && AllFit(f, pieces, max)
    ensures |Chunks(f, word, max)| <= |pieces|
  {
    if word != [] {
      FewestFrom(f, word, pieces, max);
      BreakCount(f, [word[0]], word[1..], max);
      WidthOne(f, word[0]);
      assert [] + [word[0]] == [word[0]];
    }
  }
}
