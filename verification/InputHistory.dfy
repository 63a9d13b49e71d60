/** The input history kept for a working directory (crates/cli/src/storage.rs:150-190). */
module InputHistory {
  import opened Sequences

  /** Every entry once, where it stands last. */
  function KeepLast(s: seq<string>): seq<string> {
    if s == [] then [] else if s[0] in s[1..] then KeepLast(s[1..]) else [s[0]] + KeepLast(s[1..])
  }

  /** Over the limit, only the last half of it is kept. */
  function Trimmed(s: seq<string>, limit: nat): seq<string> {
    if |s| > limit then s[|s| - limit / 2..] else s
  }

  function Saved(stored: seq<string>, added: seq<string>, limit: nat): seq<string> {
    if added == [] then stored else Trimmed(KeepLast(stored + added), limit)
  }

  /** The history after these saves, from empty. */
  function AfterSaves(saves: seq<seq<string>>, limit: nat): seq<string> {
    if saves == [] then [] else Saved(AfterSaves(saves[..|saves| - 1], limit), saves[|saves| - 1], limit)
  }

  /** All that was ever entered. */
  function Entered(saves: seq<seq<string>>): seq<string> {
    if saves == [] then [] else Entered(saves[..|saves| - 1]) + saves[|saves| - 1]
  }

  class HistoryFile {
    var entries: seq<string>
    const limit: nat

    constructor (limit: nat)
      ensures entries == [] && this.limit == limit
    {
      entries, this.limit := [], limit;
    }

    method Save(added: seq<string>)
      modifies this
      ensures entries == Saved(old(entries), added, limit)
    {
      if added == [] {
        return;
      }
      var deduped := Dedup(entries + added);
      entries := if |deduped| > limit then deduped[|deduped| - limit / 2..] else deduped;
    }

    /** From the end, so that the latest occurrence is met first. */
    static method Dedup(s: seq<string>) returns (deduped: seq<string>)
      ensures deduped == KeepLast(s)
    {
      var seen: set<string> := {};
      deduped := [];
      var i := |s|;
      while i > 0
        invariant 0 <= i <= |s| && deduped == KeepLast(s[i..])
        invariant forall e :: e in seen <==> e in s[i..]
      {
        i := i - 1;
        Headed(s, i);
        if s[i] !in seen {
          seen := seen + {s[i]};
          deduped := [s[i]] + deduped;
        }
      }
      assert s[0..] == s;
    }
  }

  // ---------- what a run of saves leaves ----------

  function Others(s: seq<string>, drop: seq<string>): seq<string> {
    if s == [] then [] else if s[0] in drop then Others(s[1..], drop) else [s[0]] + Others(s[1..], drop)
  }

  lemma {:induction false} KeepLastSame(s: seq<string>)
    ensures NoRepeat(KeepLast(s)) && forall e :: e in KeepLast(s) <==> e in s
  {
    if s != [] { KeepLastSame(s[1..]); }
  }

  /** The entry stands at k, and not behind it. */
  predicate StandsLast(s: seq<string>, e: string, k: nat) {
    k < |s| && s[k] == e && forall j :: k < j < |s| ==> s[j] != e
  }

  /** Entries are kept in the order of their last occurrences. */
  lemma {:induction false} KeepLastOrder(s: seq<string>, i: nat, j: nat) returns (a: nat, b: nat)
    requires i < j < |KeepLast(s)|
    ensures a < b && StandsLast(s, KeepLast(s)[i], a) && StandsLast(s, KeepLast(s)[j], b)
  {
    var rest := KeepLast(s[1..]);
    if s[0] in s[1..] {
      a, b := KeepLastOrder(s[1..], i, j);
      a, b := a + 1, b + 1;
    } else if i > 0 {
      a, b := KeepLastOrder(s[1..], i - 1, j - 1);
      a, b := a + 1, b + 1;
    } else {
      a := 0;
      b := LastOf(s[1..], rest[j - 1]);
      b := b + 1;
    }
  }

  lemma {:induction false} LastOf(s: seq<string>, e: string) returns (k: nat)
    requires e in KeepLast(s)
    ensures StandsLast(s, e, k)
  {
    KeepLastSame(s);
    k := |s| - 1;
    while s[k] != e
      invariant 0 <= k < |s| && e in s[..k + 1] && forall j :: k < j < |s| ==> s[j] != e
      decreases k
    {
      Pushed(s, k);
      k := k - 1;
    }
  }

  lemma {:induction false} KeepLastAppend(a: seq<string>, b: seq<string>)
    ensures KeepLast(a + b) == Others(KeepLast(a), b) + KeepLast(b)
  {
    if a == [] {
      assert a + b == b && [] + KeepLast(b) == KeepLast(b);
    } else {
      KeepLastAppend(a[1..], b);
      assert (a + b)[1..] == a[1..] + b;
      var rest := KeepLast(a[1..]);
      if a[0] !in a[1..] {
        Tailed(a[0], rest, []);
        Tailed(a[0], Others(rest, b), KeepLast(b));
      }
      DropRepeated(a[0], a[1..], b);
    }
  }

  /** An entry that comes again in b is dropped from a either way. */
  lemma {:induction false} DropRepeated(e: string, a: seq<string>, b: seq<string>)
    ensures e in a + b <==> e in a || e in b
  {
  }

  lemma {:induction false} KeepLastFixed(s: seq<string>)
    requires NoRepeat(s)
    ensures KeepLast(s) == s
  {
    if s != [] {
      KeepLastFixed(s[1..]);
      assert s == [s[0]] + s[1..];
    }
  }

  lemma {:induction false} OthersAppend(a: seq<string>, b: seq<string>, drop: seq<string>)
    ensures Others(a + b, drop) == Others(a, drop) + Others(b, drop)
  {
    if a == [] {
      assert a + b == b;
    } else {
      OthersAppend(a[1..], b, drop);
      assert (a + b)[1..] == a[1..] + b;
      Tailed(a[0], Others(a[1..], drop), Others(b, drop));
    }
  }

  lemma {:induction false} EndKept(all: seq<string>, t: seq<string>)
    requires EndsWith(KeepLast(all), t)
    ensures NoRepeat(t) && KeepLast(t) == t
    ensures KeepLast(all) == KeepLast(all)[..|KeepLast(all)| - |t|] + t
  {
    KeepLastSame(all);
    KeepLastFixed(t);
  }

  lemma {:induction false} SuffixSaved(all: seq<string>, t: seq<string>, b: seq<string>)
    requires EndsWith(KeepLast(all), t)
    ensures NoRepeat(t) && EndsWith(KeepLast(all + b), KeepLast(t + b))
  {
    var front := KeepLast(all)[..|KeepLast(all)| - |t|];
    EndKept(all, t);
    SavedEnds(all, front, t, b);
  }

  lemma {:induction false} SavedEnds(all: seq<string>, front: seq<string>, t: seq<string>, b: seq<string>)
    requires KeepLast(all) == front + t && KeepLast(t) == t
    ensures EndsWith(KeepLast(all + b), KeepLast(t + b))
  {
    KeepLastAppend(all, b);
    KeepLastAppend(t, b);
    OthersAppend(front, t, b);
    EndsSo(Others(front, b), Others(t, b), KeepLast(b));
  }

  lemma {:induction false} EndsSo(a: seq<string>, b: seq<string>, c: seq<string>)
    ensures EndsWith((a + b) + c, b + c)
  {
    Regrouped(a, b, c);
  }

  lemma {:induction false} SizeOf(s: seq<string>)
    requires NoRepeat(s)
    ensures |set e | e in s| == |s|
  {
    if s != [] {
      SizeOf(s[1..]);
      assert (set e | e in s) == {s[0]} + (set e | e in s[1..]);
    }
  }

  lemma {:induction false} NoShorter(t: seq<string>, b: seq<string>)
    requires NoRepeat(t)
    ensures |KeepLast(t + b)| >= |t|
  {
    var k := KeepLast(t + b);
    KeepLastSame(t + b);
    SizeOf(t);
    SizeOf(k);
    var ts, ks := set e | e in t, set e | e in k;
    assert ts <= ks;
    assert ks == ts + (ks - ts);
  }

  /** What is stored is the end of the deduplicated list of everything ever entered: no more than the
      limit, and no less than half of it unless nothing was ever dropped. */
  lemma {:induction false} StoredIsRecent(saves: seq<seq<string>>, limit: nat)
    ensures var stored, all := AfterSaves(saves, limit), KeepLast(Entered(saves));
            && NoRepeat(stored) && EndsWith(all, stored)
            && Min(|all|, limit / 2) <= |stored| <= limit
  {
    if saves != [] {
      var before, added := saves[..|saves| - 1], saves[|saves| - 1];
      var t, all := AfterSaves(before, limit), Entered(before);
      StoredIsRecent(before, limit);
      SuffixSaved(all, t, added);
      NoShorter(t, added);
      KeepLastSame(t + added);
      if added == [] {
        assert all + added == all;
      } else {
        SavedBounds(all, t, added, limit);
      }
    }
  }

  lemma {:induction false} SavedBounds(all: seq<string>, t: seq<string>, added: seq<string>, limit: nat)
    requires EndsWith(KeepLast(all), t) && Min(|KeepLast(all)|, limit / 2) <= |t| && added != []
    ensures var stored, now := Saved(t, added, limit), KeepLast(all + added);
            NoRepeat(stored) && EndsWith(now, stored) && Min(|now|, limit / 2) <= |stored| <= limit
  {
    var now, merged := KeepLast(all + added), KeepLast(t + added);
    TrimmedEnds(t + added, limit);
    MergedLength(all, t, added, limit);
    SuffixSaved(all, t, added);
    EndOfEnd(now, merged, Trimmed(merged, limit));
  }

  /** Merging loses nothing but what was dropped before. */
  lemma {:induction false} MergedLength(all: seq<string>, t: seq<string>, added: seq<string>, limit: nat)
    requires EndsWith(KeepLast(all), t) && Min(|KeepLast(all)|, limit / 2) <= |t|
    ensures Min(|KeepLast(all + added)|, limit / 2) <= |KeepLast(t + added)|
  {
    EndKept(all, t);
    NoShorter(t, added);
    if |t| == |KeepLast(all)| { NothingDropped(all, t, added); }
  }

  lemma {:induction false} TrimmedEnds(all: seq<string>, limit: nat)
    ensures var merged := KeepLast(all);
            var trimmed := Trimmed(merged, limit);
            && NoRepeat(trimmed) && EndsWith(merged, trimmed)
            && |trimmed| == if |merged| > limit then limit / 2 else |merged|
  {
    KeepLastSame(all);
  }

  /** A save without entries changes nothing. Any other leaves the end of the merged list: all of it, or half of
      the limit when it is longer than that. */
  lemma {:induction false} SavedIs(stored: seq<string>, added: seq<string>, limit: nat)
    ensures var merged, saved := KeepLast(stored + added), Saved(stored, added, limit);
            if added == [] then saved == stored
            else EndsWith(merged, saved) && |saved| == if |merged| > limit then limit / 2 else |merged|
  {
    TrimmedEnds(stored + added, limit);
  }

  lemma {:induction false} EndOfEnd(s: seq<string>, t: seq<string>, u: seq<string>)
    requires EndsWith(s, t) && EndsWith(t, u)
    ensures EndsWith(s, u)
  {
    assert s[|s| - |t|..][|t| - |u|..] == s[|s| - |u|..];
  }

  lemma {:induction false} NothingDropped(all: seq<string>, t: seq<string>, added: seq<string>)
    requires EndsWith(KeepLast(all), t) && |t| == |KeepLast(all)|
    ensures KeepLast(t + added) == KeepLast(all + added)
  {
    assert KeepLast(all) == t;
    KeepLastSame(all);
    KeepLastAppend(all, added);
    KeepLastFixed(t);
    KeepLastAppend(t, added);
  }
}
