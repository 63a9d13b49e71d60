/** Facts about sequences that the solver is slow to find, and what several modules share. */
module Sequences {
  lemma {:induction false} Regrouped<T>(a: seq<T>, b: seq<T>, c: seq<T>)
    ensures (a + b) + c == a + (b + c)
  {
  }

  lemma {:induction false} Peeled<T>(s: seq<T>, lo: nat, hi: nat)
    requires lo < hi <= |s|
    ensures s[lo..hi] == [s[lo]] + s[lo + 1..hi]
  {
  }

  lemma {:induction false} Rejoined<T>(s: seq<T>, lo: nat, mid: nat)
    requires lo <= mid <= |s|
    ensures s[lo..mid] + s[mid..] == s[lo..]
  {
  }

  lemma {:induction false} Headed<T>(s: seq<T>, lo: nat)
    requires lo < |s|
    ensures [s[lo]] + s[lo + 1..] == s[lo..] && s[lo..][0] == s[lo] && s[lo..][1..] == s[lo + 1..]
  {
  }

  lemma {:induction false} Dropped<T>(a: seq<T>, b: seq<T>, c: seq<T>)
    ensures (a + (b + c))[|a| + |b|..] == c
  {
  }

  lemma {:induction false} Pushed<T>(s: seq<T>, n: nat)
    requires n < |s|
    ensures s[..n + 1] == s[..n] + [s[n]]
  {
  }

  lemma {:induction false} Around<T>(a: seq<T>, b: seq<T>, part: seq<T>, c: seq<T>, d: seq<T>)
    ensures a + (b + ((part + c) + d)) == (a + b) + part + (c + d)
  {
  }

  lemma {:induction false} Tailed<T>(x: T, a: seq<T>, b: seq<T>)
    ensures ([x] + a)[0] == x && ([x] + a)[1..] == a && ([x] + a) + b == [x] + (a + b)
  {
  }

  lemma {:induction false} Behind<T>(a: seq<T>, b: seq<T>, d: nat)
    requires b != [] && d < |b[1..]|
    ensures |a| + 1 + d < |a + b| && (a + b)[|a|] == b[0] && (a + b)[|a| + 1 + d] == b[1..][d]
  {
  }

  // ---------- shared functions and properties ----------

  function Max(a: nat, b: nat): nat { if a < b then b else a }

  function Min(a: nat, b: nat): nat { if a < b then a else b }

  function Flat<T>(parts: seq<seq<T>>): seq<T> {
    if parts == [] then [] else parts[0] + Flat(parts[1..])
  }

  lemma {:induction false} FlatOne<T>(part: seq<T>)
    ensures Flat([part]) == part
  {
    assert [part][1..] == [] && part + [] == part;
  }

  lemma {:induction false} FlatAppend<T>(a: seq<seq<T>>, b: seq<seq<T>>)
    ensures Flat(a + b) == Flat(a) + Flat(b)
  {
    if a == [] {
      assert a + b == b && [] + Flat(b) == Flat(b);
    } else {
      FlatAppend(a[1..], b);
      assert (a + b)[0] == a[0] && (a + b)[1..] == a[1..] + b;
      Regrouped(a[0], Flat(a[1..]), Flat(b));
    }
  }

  lemma {:induction false} FlatPushed<T>(parts: seq<seq<T>>, part: seq<T>)
    ensures Flat(parts + [part]) == Flat(parts) + part
  {
    FlatAppend(parts, [part]);
    FlatOne(part);
  }

  ghost predicate NoRepeat<T>(s: seq<T>) {
    forall i, j :: 0 <= i < j < |s| ==> s[i] != s[j]
  }

  ghost predicate EndsWith<T>(s: seq<T>, tail: seq<T>) {
    |tail| <= |s| && s[|s| - |tail|..] == tail
  }
}
