/** Reading and writing settings by dotted keys (crates/cli/src/utils.rs:36-81). */
module DottedKey {
  import opened Messages
  import opened Sequences

  datatype Value = Scalar(text: string) | Table(entries: map<string, Value>)

  /** The parts of a key between its dots, when `part` has been read in front of it. */
  function PartsFrom(key: string, part: string): (parts: seq<string>)
    ensures parts != []
  {
    if key == [] then [part]
    else if key[0] == '.' then [part] + PartsFrom(key[1..], [])
    else PartsFrom(key[1..], part + [key[0]])
  }

  function Parts(key: string): (parts: seq<string>)
    ensures parts != []
  {
    PartsFrom(key, [])
  }

  function Dotted(parts: seq<string>): string
    requires parts != []
  {
    if |parts| == 1 then parts[0] else parts[0] + "." + Dotted(parts[1..])
  }

  lemma {:induction false} DottedPartsFrom(key: string, part: string)
    ensures Dotted(PartsFrom(key, part)) == part + key
    decreases |key|
  {
    if key == [] {
      assert part + key == part;
    } else {
      assert key == [key[0]] + key[1..];
      Regrouped(part, [key[0]], key[1..]);
      if key[0] == '.' {
        DottedPartsFrom(key[1..], []);
        Tailed(part, PartsFrom(key[1..], []), []);
        assert [] + key[1..] == key[1..];
      } else {
        DottedPartsFrom(key[1..], part + [key[0]]);
      }
    }
  }

  predicate DotFree(parts: seq<string>) {
    forall k :: 0 <= k < |parts| ==> '.' !in parts[k]
  }

  lemma {:induction false} PartsDotFree(key: string, part: string)
    requires '.' !in part
    ensures DotFree(PartsFrom(key, part))
    decreases |key|
  {
    if key != [] {
      PartsDotFree(key[1..], if key[0] == '.' then [] else part + [key[0]]);
    }
  }

  /** A key is split at each of its dots. */
  lemma {:induction false} PartsOfKey(key: string)
    ensures Dotted(Parts(key)) == key && DotFree(Parts(key))
  {
    DottedPartsFrom(key, []);
    PartsDotFree(key, []);
    assert [] + key == key;
  }

  /** What is read of parts[0] stands in `part`, the remainder in front of the other parts. */
  lemma {:induction false} PartsRead(parts: seq<string>, part: string, left: string)
    requires parts != [] && DotFree(parts) && parts[0] == part + left
    ensures PartsFrom(if |parts| == 1 then left else left + ("." + Dotted(parts[1..])), part) == parts
    decreases |parts|, |left|
  {
    var others := if |parts| == 1 then [] else "." + Dotted(parts[1..]);
    assert parts == [parts[0]] + parts[1..];
    if left != [] {
      assert left[0] == parts[0][|part|] && left == [left[0]] + left[1..];
      Regrouped(part, [left[0]], left[1..]);
      Tailed(left[0], left[1..], others);
      PartsRead(parts, part + [left[0]], left[1..]);
      assert |parts| == 1 ==> left + others == left && left[1..] + others == left[1..];
    } else {
      assert part + left == part && left + others == others;
      if |parts| > 1 {
        assert [] + parts[1] == parts[1] && DotFree(parts[1..]);
        PartsRead(parts[1..], [], parts[1]);
        DottedHead(parts[1..]);
        PartsAtDot(parts);
      }
    }
  }

  lemma {:induction false} DottedHead(parts: seq<string>)
    requires parts != []
    ensures Dotted(parts) == if |parts| == 1 then parts[0] else parts[0] + ("." + Dotted(parts[1..]))
  {
    assert |parts| > 1 ==> parts[0] + "." + Dotted(parts[1..]) == parts[0] + ("." + Dotted(parts[1..]));
  }

  lemma {:induction false} PartsAtDot(parts: seq<string>)
    requires |parts| > 1 && PartsFrom(Dotted(parts[1..]), []) == parts[1..]
    ensures PartsFrom("." + Dotted(parts[1..]), parts[0]) == parts
  {
    Tailed('.', Dotted(parts[1..]), []);
    Headed(parts, 0);
    assert parts[0..] == parts;
  }

  /** The key is split at its dots into these parts. */
  predicate Splits(key: string, parts: seq<string>) {
    parts != [] && DotFree(parts) && Dotted(parts) == key
  }

  /** There are no other parts without dots that joined by dots make up the key. */
  lemma {:induction false} PartsUnique(key: string, parts: seq<string>)
    ensures Splits(key, parts) <==> parts == Parts(key)
  {
    PartsOfKey(key);
    if Splits(key, parts) {
      assert [] + parts[0] == parts[0];
      PartsRead(parts, [], parts[0]);
      DottedHead(parts);
    }
  }

  /** `get_nested_value`. */
  function Get(value: Value, parts: seq<string>): Option<Value>
    decreases |parts|
  {
    if parts == [] then Some(value)
    else if value.Table? && parts[0] in value.entries then Get(value.entries[parts[0]], parts[1..])
    else None
  }

  method GetNestedValue(value: Value, key: string) returns (found: Option<Value>)
    ensures found == Get(value, Parts(key)) && forall parts :: Splits(key, parts) ==> found == Get(value, parts)
  {
    forall parts ensures Splits(key, parts) <==> parts == Parts(key) { PartsUnique(key, parts); }
    var current := value;
    var parts := Parts(key);
    for i := 0 to |parts|
      invariant Get(current, parts[i..]) == Get(value, parts)
    {
      Headed(parts, i);
      if !(current.Table? && parts[i] in current.entries) {
        return None;
      }
      current := current.entries[parts[i]];
    }
    found := Some(current);
  }

  /** The table as `set_nested_value` leaves it behind, and whether the value could be set. */
  function Set(table: map<string, Value>, parts: seq<string>, value: Value): (map<string, Value>, bool)
    requires parts != []
    decreases |parts|
  {
    var part := parts[0];
    if |parts| == 1 then (table[part := value], true)
    else
      var child := if part in table then table[part] else Table(map[]);
      match child
      case Scalar(_) => (table, false)
      case Table(entries) =>
        var (entries', done) := Set(entries, parts[1..], value);
        (table[part := Table(entries')], done)
  }

  type Entries = map<string, Value>

  /** The outermost table, when the one i levels down has become `inner`. */
  function Rebuilt(spine: seq<Entries>, parts: seq<string>, i: nat, inner: Entries): Entries
    requires i <= |spine| && i <= |parts|
  {
    if i == 0 then inner else Rebuilt(spine, parts, i - 1, spine[i - 1][parts[i - 1] := Table(inner)])
  }

  lemma {:induction false} RebuiltLonger(spine: seq<Entries>, more: Entries, parts: seq<string>, i: nat, inner: Entries)
    requires i <= |spine| && i <= |parts|
    ensures Rebuilt(spine + [more], parts, i, inner) == Rebuilt(spine, parts, i, inner)
  {
    if i > 0 { RebuiltLonger(spine, more, parts, i - 1, spine[i - 1][parts[i - 1] := Table(inner)]); }
  }

  /** Where the walk stands: i levels down, at `current`, with these tables above it. */
  ghost predicate Walking(table: Entries, parts: seq<string>, value: Value, spine: seq<Entries>, i: nat,
                          current: Entries)
  {
    && |spine| == i < |parts|
    && var whole, rest := Set(table, parts, value), Set(current, parts[i..], value);
    && Rebuilt(spine, parts, i, rest.0) == whole.0 && rest.1 == whole.1
  }

  lemma {:induction false} WalkDown(table: Entries, parts: seq<string>, value: Value, spine: seq<Entries>, i: nat,
                                    current: Entries)
    requires Walking(table, parts, value, spine, i, current) && i + 1 < |parts|
    ensures var part := parts[i];
            var entered := if part in current then current else current[part := Table(map[])];
            match entered[part]
            case Scalar(_) => Set(table, parts, value) == (Rebuilt(spine, parts, i, current), false) && part in current
            case Table(entries) => Walking(table, parts, value, spine + [entered], i + 1, entries)
  {
    var part := parts[i];
    var entered := if part in current then current else current[part := Table(map[])];
    Headed(parts, i);
    if entered[part].Table? {
      var inner := Set(entered[part].entries, parts[i + 1..], value).0;
      RebuiltLonger(spine, entered, parts, i, entered[part := Table(inner)]);
      assert entered[part := Table(inner)] == current[part := Table(inner)];
    }
  }

  /** `set_nested_value`: walk down, putting in the tables that are missing on the way, and set the value
      in the last one; every change shows in the tables above. */
  method SetNestedValue(table: Entries, key: string, value: Value) returns (updated: Entries, done: bool)
    ensures (updated, done) == Set(table, Parts(key), value)
    ensures forall parts :: Splits(key, parts) ==> (updated, done) == Set(table, parts, value)
  {
    forall parts ensures Splits(key, parts) <==> parts == Parts(key) { PartsUnique(key, parts); }
    var parts := Parts(key);
    var current := table;
    var spine: seq<Entries> := [];
    var i := 0;
    done := true;
    assert parts[0..] == parts;
    while i < |parts| - 1 && done
      invariant |spine| == i < |parts|
      invariant done ==> Walking(table, parts, value, spine, i, current)
      invariant !done ==> Set(table, parts, value) == (Rebuilt(spine, parts, i, current), false)
      decreases |parts| - i, done
    {
      var part := parts[i];
      WalkDown(table, parts, value, spine, i, current);
      if part !in current {
        current := current[part := Table(map[])];
      }
      match current[part]
      case Scalar(_) =>
        done := false;
      case Table(entries) =>
        spine := spine + [current];
        current := entries;
        i := i + 1;
    }
    if done {
      assert parts[i..] == [parts[i]];
      current := current[parts[i] := value];
    }
    ghost var whole := Rebuilt(spine, parts, i, current);
    while i > 0
      invariant i <= |spine| && i < |parts| && Rebuilt(spine, parts, i, current) == whole
    {
      current := spine[i - 1][parts[i - 1] := Table(current)];
      i := i - 1;
    }
    updated := current;
  }

  predicate Unrelated(p: seq<string>, q: seq<string>) {
    !(p <= q) && !(q <= p)
  }

  /** A scalar stands on the way. */
  ghost predicate Blocked(table: map<string, Value>, parts: seq<string>) {
    exists n :: 0 < n < |parts| && Get(Table(table), parts[..n]).Some? && Get(Table(table), parts[..n]).value.Scalar?
  }

  /** What was written is read back; */
  lemma {:induction false} SetThenGet(table: map<string, Value>, parts: seq<string>, value: Value)
    requires parts != [] && Set(table, parts, value).1
    ensures Get(Table(Set(table, parts, value).0), parts) == Some(value)
    decreases |parts|
  {
    var part := parts[0];
    if |parts| == 1 {
      assert parts[1..] == [];
    } else {
      var child := if part in table then table[part] else Table(map[]);
      SetThenGet(child.entries, parts[1..], value);
    }
  }

  /** no other setting changes; */
  lemma {:induction false} SetElsewhere(table: map<string, Value>, parts: seq<string>, value: Value, other: seq<string>)
    requires parts != [] && Unrelated(parts, other)
    ensures Get(Table(Set(table, parts, value).0), other) == Get(Table(table), other)
    decreases |parts|
  {
    var part := parts[0];
    assert |parts| == 1 && other != [] && other[0] == part ==> parts <= other;
    if other != [] && other[0] == part {
      var child := if part in table then table[part] else Table(map[]);
      assert parts == [part] + parts[1..] && other == [part] + other[1..];
      UnrelatedTails(parts, other);
      if child.Table? {
        SetElsewhere(child.entries, parts[1..], value, other[1..]);
        EmptyHasNone(other[1..]);
      }
    }
  }

  lemma {:induction false} UnrelatedTails(p: seq<string>, q: seq<string>)
    requires p != [] && q != [] && p[0] == q[0] && Unrelated(p, q)
    ensures Unrelated(p[1..], q[1..]) && q[1..] != []
  {
    assert p == [p[0]] + p[1..] && q == [q[0]] + q[1..];
    assert p[1..] <= q[1..] ==> p <= q;
    assert q[1..] <= p[1..] ==> q <= p;
  }

  lemma {:induction false} EmptyHasNone(parts: seq<string>)
    ensures parts != [] ==> Get(Table(map[]), parts).None?
  {
  }

  /** and when the value cannot be set, the table is as it was, although the walk may have put in
      tables on its way; */
  lemma {:induction false} FailureChangesNothing(table: map<string, Value>, parts: seq<string>, value: Value)
    requires parts != [] && !Set(table, parts, value).1
    ensures Set(table, parts, value).0 == table && parts[0] in table
    decreases |parts|
  {
    var part := parts[0];
    var child := if part in table then table[part] else Table(map[]);
    if child.Table? {
      FailureChangesNothing(child.entries, parts[1..], value);
      assert part in table;
      assert table[part := table[part]] == table;
    }
  }

  /** which happens exactly when a scalar stands on the way. */
  lemma {:induction false} FailsWhenBlocked(table: map<string, Value>, parts: seq<string>, value: Value)
    requires parts != []
    ensures !Set(table, parts, value).1 <==> Blocked(table, parts)
    decreases |parts|
  {
    if |parts| > 1 {
      var part, rest := parts[0], parts[1..];
      var child := if part in table then table[part] else Table(map[]);
      forall n | 0 < n < |parts| ensures parts[..n][0] == part && parts[..n][1..] == rest[..n - 1] {}
      if child.Table? {
        FailsWhenBlocked(child.entries, rest, value);
        if n :| 0 < n < |rest| && Get(child, rest[..n]).Some? && Get(child, rest[..n]).value.Scalar? {
          EmptyHasNone(rest[..n]);
          assert Get(Table(table), parts[..n + 1]) == Get(child, rest[..n]);
        }
        if n :| 0 < n < |parts| && Get(Table(table), parts[..n]).Some? && Get(Table(table), parts[..n]).value.Scalar? {
          assert Get(Table(table), parts[..n]) == Get(child, rest[..n - 1]);
        }
      } else {
        assert parts[..1][1..] == [] && Get(Table(table), parts[..1]) == Some(child);
      }
    }
  }
}
