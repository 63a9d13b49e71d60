/** What `MessageBuffer::sanitize` leaves of a history
    (crates/kernel/src/agent/message_buffer.rs:225-339). */
module Sanitize {
  import opened Messages
  import opened Sequences

  // ---------- groups: an assistant batch and the results that answer it ----------

  /** The length of the shortest prefix of s holding n results, with nothing but
      Internal messages between them; None when a breaker or the end comes first. */
  function GroupSpan(s: seq<Message>, n: nat): (span: Option<nat>)
    ensures span.Some? ==> n <= span.value <= |s|
    ensures span.Some? ==> forall k :: 0 <= k < span.value ==> !Breaker(s[k])
  {
    if n == 0 then Some(0)
    else if s == [] || Breaker(s[0]) then None
    else
      var rest := GroupSpan(s[1..], if s[0].role == Tool then n - 1 else n);
      if rest.Some? then Some(1 + rest.value) else None
  }

  /** The call ids carried by the results in s, in order. */
  function ResultIds(s: seq<Message>): seq<Option<string>> {
    if s == [] then []
    else if s[0].role == Tool then [s[0].toolCallId] + ResultIds(s[1..]) else ResultIds(s[1..])
  }

  /** The results answer the calls: each names a call, none twice, no call is left over. */
  ghost predicate Answers(ids: seq<Option<string>>, calls: seq<ToolCall>) {
    && (forall p :: 0 <= p < |ids| ==> ids[p].Some? && ids[p].value in CallIds(calls))
    && (forall p, q :: 0 <= p < q < |ids| ==> ids[p] != ids[q])
    && (forall id :: id in CallIds(calls) ==> Some(id) in ids)
  }

  /** The length of the complete group at the head of s, None when its batch is incomplete. */
  ghost function GroupLen(s: seq<Message>): (len: Option<nat>)
    requires s != [] && s[0].role == Assistant && s[0].toolCalls.Some?
    ensures len.Some? ==> 1 <= len.value <= |s|
    ensures len.Some? ==> forall k :: 1 <= k < len.value ==> !Breaker(s[k])
  {
    var calls := s[0].toolCalls.value;
    var span := GroupSpan(s[1..], |calls|);
    if span.Some? && Answers(ResultIds(s[1..][..span.value]), calls) then Some(1 + span.value) else None
  }

  predicate Batch(m: Message) {
    m.role == Assistant && m.toolCalls.Some?
  }

  /** An assistant message with neither content nor a call list. */
  predicate EmptyReply(m: Message) {
    m.role == Assistant && m.toolCalls.None? && m.content == []
  }

  /** The sanitized history, read off from left to right. */
  ghost function Sanitized(s: seq<Message>): seq<Message>
    decreases |s|
  {
    if s == [] then []
    else if Batch(s[0]) && GroupLen(s).Some? then s[..GroupLen(s).value] + Sanitized(s[GroupLen(s).value..])
    else if s[0].role == Tool || Batch(s[0]) || EmptyReply(s[0]) then Sanitized(s[1..])
    else [s[0]] + Sanitized(s[1..])
  }

  // ---------- what is kept, message by message ----------

  ghost predicate InGroup(s: seq<Message>, k: nat)
    requires k < |s|
  {
    exists i :: 0 <= i < k && Batch(s[i]) && GroupLen(s[i..]).Some? && k < i + GroupLen(s[i..]).value
  }

  ghost predicate Kept(s: seq<Message>, k: nat)
    requires k < |s|
  {
    match s[k].role
    case Tool => InGroup(s, k)
    case Assistant => if s[k].toolCalls.Some? then GroupLen(s[k..]).Some? else s[k].content != []
    case _ => true
  }

  /** The messages of s at positions lo and up that are not in drop. */
  function Retain(s: seq<Message>, drop: set<nat>, lo: nat): (r: seq<Message>)
    requires lo <= |s|
    ensures |r| <= |s| - lo
    decreases |s| - lo
  {
    if lo == |s| then [] else if lo in drop then Retain(s, drop, lo + 1) else [s[lo]] + Retain(s, drop, lo + 1)
  }

  ghost function Removed(s: seq<Message>): set<nat> {
    set k: nat | k < |s| && !Kept(s, k)
  }

  /** No complete group reaches across position i. */
  ghost predicate Boundary(s: seq<Message>, i: nat)
    requires i <= |s|
  {
    forall j :: 0 <= j < i && Batch(s[j]) && GroupLen(s[j..]).Some? ==> j + GroupLen(s[j..]).value <= i
  }

  lemma {:induction false} RetainRun(s: seq<Message>, drop: set<nat>, lo: nat, hi: nat)
    requires lo <= hi <= |s|
    requires forall k :: lo <= k < hi ==> k !in drop
    ensures Retain(s, drop, lo) == s[lo..hi] + Retain(s, drop, hi)
    decreases hi - lo
  {
    if lo < hi {
      RetainRun(s, drop, lo + 1, hi);
      Peeled(s, lo, hi);
      Regrouped([s[lo]], s[lo + 1..hi], Retain(s, drop, hi));
    }
  }

  lemma {:induction false} GroupKept(s: seq<Message>, i: nat)
    requires i < |s| && Boundary(s, i) && Batch(s[i]) && GroupLen(s[i..]).Some?
    ensures Boundary(s, i + GroupLen(s[i..]).value)
    ensures forall k :: i <= k < i + GroupLen(s[i..]).value ==> k !in Removed(s)
  {
    var end := i + GroupLen(s[i..]).value;
    forall k: nat | i <= k < end ensures k !in Removed(s) && (k > i ==> !Breaker(s[k])) {
      assert s[k] == s[i..][k - i];
      if s[k].role == Tool { assert InGroup(s, k); }
    }
  }

  lemma {:induction false} SanitizedFrom(s: seq<Message>, i: nat)
    requires i <= |s| && Boundary(s, i)
    ensures Sanitized(s[i..]) == Retain(s, Removed(s), i)
    decreases |s| - i
  {
    if i < |s| {
      var t := s[i..];
      assert t[0] == s[i] && t[1..] == s[i + 1..];
      if Batch(s[i]) && GroupLen(t).Some? {
        var end := i + GroupLen(t).value;
        GroupKept(s, i);
        RetainRun(s, Removed(s), i, end);
        assert t[GroupLen(t).value..] == s[end..] && t[..GroupLen(t).value] == s[i..end];
        SanitizedFrom(s, end);
      } else {
        assert i in Removed(s) <==> !Kept(s, i);
        assert s[i].role == Tool ==> !InGroup(s, i);
        SanitizedFrom(s, i + 1);
      }
    }
  }

  /** Sanitizing removes exactly: assistants with neither content nor call list, batches whose
      group is incomplete, and results outside a complete group. */
  lemma {:induction false} SanitizedExactly(s: seq<Message>)
    ensures Sanitized(s) == Retain(s, Removed(s), 0)
  {
    SanitizedFrom(s, 0);
    assert s[0..] == s;
  }

  // ---------- idempotence ----------

  lemma {:induction false} GroupSpanLocal(s: seq<Message>, n: nat, rest: seq<Message>)
    requires GroupSpan(s, n).Some?
    ensures GroupSpan(s[..GroupSpan(s, n).value] + rest, n) == GroupSpan(s, n)
    decreases |s|
  {
    if n > 0 {
      var L := GroupSpan(s, n).value;
      GroupSpanLocal(s[1..], if s[0].role == Tool then n - 1 else n, rest);
      assert (s[..L] + rest)[1..] == s[1..][..L - 1] + rest;
    }
  }

  lemma {:induction false} GroupLenLocal(s: seq<Message>, rest: seq<Message>)
    requires s != [] && Batch(s[0]) && GroupLen(s).Some?
    ensures GroupLen(s[..GroupLen(s).value] + rest) == GroupLen(s)
  {
    var L := GroupLen(s).value;
    var t := s[..L] + rest;
    GroupSpanLocal(s[1..], |s[0].toolCalls.value|, rest);
    assert t[1..] == s[1..][..L - 1] + rest;
    assert t[1..][..L - 1] == s[1..][..L - 1];
  }

  /** A second pass removes nothing. */
  lemma {:induction false} SanitizeIdempotent(s: seq<Message>)
    ensures Sanitized(Sanitized(s)) == Sanitized(s)
    decreases |s|
  {
    if s != [] {
      if Batch(s[0]) && GroupLen(s).Some? {
        var L := GroupLen(s).value;
        SanitizeIdempotent(s[L..]);
        GroupLenLocal(s, Sanitized(s[L..]));
        var t := s[..L] + Sanitized(s[L..]);
        assert t[L..] == Sanitized(s[L..]) && t[..L] == s[..L];
      } else {
        SanitizeIdempotent(s[1..]);
        var t := [s[0]] + Sanitized(s[1..]);
        assert t[1..] == Sanitized(s[1..]);
      }
    }
  }

  lemma {:induction false} RetainShort(s: seq<Message>, drop: set<nat>, lo: nat, k: nat)
    requires lo <= k < |s| && k in drop
    ensures |Retain(s, drop, lo)| < |s| - lo
    decreases k - lo
  {
    if lo < k { RetainShort(s, drop, lo + 1, k); }
  }

  /** The output is well-formed: every result sits in a complete group, every batch is answered. */
  lemma {:induction false} SanitizedWellFormed(s: seq<Message>)
    ensures forall k :: 0 <= k < |Sanitized(s)| ==> Kept(Sanitized(s), k)
  {
    var t := Sanitized(s);
    SanitizeIdempotent(s);
    SanitizedExactly(t);
    forall k | 0 <= k < |t| ensures Kept(t, k) {
      if k in Removed(t) { RetainShort(t, Removed(t), 0, k); }
    }
  }

  // ---------- Internal messages are transparent ----------

  function ModelFacing(s: seq<Message>): seq<Message> {
    if s == [] then []
    else if s[0].role == Internal then ModelFacing(s[1..]) else [s[0]] + ModelFacing(s[1..])
  }

  lemma {:induction false} ModelFacingAppend(s: seq<Message>, t: seq<Message>)
    ensures ModelFacing(s + t) == ModelFacing(s) + ModelFacing(t)
  {
    if s == [] {
      assert s + t == t;
    } else {
      ModelFacingAppend(s[1..], t);
      assert (s + t)[1..] == s[1..] + t;
      Tailed(s[0], ModelFacing(s[1..]), ModelFacing(t));
    }
  }

  lemma {:induction false} ModelFacingCons(m: Message, s: seq<Message>)
    ensures ModelFacing([m] + s) == if m.role == Internal then ModelFacing(s) else [m] + ModelFacing(s)
    ensures m.role != Internal ==> ModelFacing([m] + s)[1..] == ModelFacing(s)
  {
    Tailed(m, s, []);
  }

  lemma {:induction false} ModelFacingIds(s: seq<Message>)
    ensures ResultIds(ModelFacing(s)) == ResultIds(s)
  {
    if s != [] {
      ModelFacingIds(s[1..]);
      if s[0].role == Internal {
        assert ModelFacing(s) == ModelFacing(s[1..]) && ResultIds(s) == ResultIds(s[1..]);
      } else {
        assert ModelFacing(s)[1..] == ModelFacing(s[1..]);
      }
    }
  }

  lemma {:induction false} ModelFacingSpan(s: seq<Message>, n: nat)
    ensures GroupSpan(s, n).Some? <==> GroupSpan(ModelFacing(s), n).Some?
    ensures GroupSpan(s, n).Some? ==>
              && GroupSpan(ModelFacing(s), n).value == |ModelFacing(s[..GroupSpan(s, n).value])|
              && ModelFacing(s)[..GroupSpan(ModelFacing(s), n).value] == ModelFacing(s[..GroupSpan(s, n).value])
  {
    if n > 0 && s != [] && !Breaker(s[0]) {
      var m := if s[0].role == Tool then n - 1 else n;
      ModelFacingSpan(s[1..], m);
      ModelFacingCons(s[0], s[1..]);
      assert s == [s[0]] + s[1..];
      var span := GroupSpan(s[1..], m);
      if span.Some? {
        ModelFacingCons(s[0], s[1..][..span.value]);
        Peeled(s, 0, 1 + span.value);
        assert s[..1 + span.value] == s[0..1 + span.value] && s[1..1 + span.value] == s[1..][..span.value];
      }
    }
  }

  lemma {:induction false} ModelFacingGroup(s: seq<Message>)
    requires s != [] && Batch(s[0])
    ensures var f := ModelFacing(s);
            && f != [] && f[0] == s[0]
            && (GroupLen(s).Some? <==> GroupLen(f).Some?)
            && (GroupLen(s).Some? ==>
                  && f[..GroupLen(f).value] == ModelFacing(s[..GroupLen(s).value])
                  && f[GroupLen(f).value..] == ModelFacing(s[GroupLen(s).value..]))
  {
    var f := ModelFacing(s);
    assert f[1..] == ModelFacing(s[1..]);
    ModelFacingSpan(s[1..], |s[0].toolCalls.value|);
    var span := GroupSpan(s[1..], |s[0].toolCalls.value|);
    if span.Some? {
      ModelFacingIds(s[1..][..span.value]);
      var L := 1 + span.value;
      assert s[..L][1..] == s[1..][..span.value];
      ModelFacingAppend(s[..L], s[L..]);
      assert s == s[..L] + s[L..];
    }
  }

  /** Hiding Internal messages before sanitizing (`sanitized_model_messages`) or after it
      (`handle_streaming`) gives the provider the same view. */
  lemma {:induction false} InternalTransparent(s: seq<Message>)
    ensures Sanitized(ModelFacing(s)) == ModelFacing(Sanitized(s))
    decreases |s|
  {
    if s != [] {
      var f := ModelFacing(s);
      if Batch(s[0]) && GroupLen(s).Some? {
        ModelFacingGroup(s);
        var L := GroupLen(s).value;
        InternalTransparent(s[L..]);
        ModelFacingAppend(s[..L], Sanitized(s[L..]));
      } else {
        if Batch(s[0]) { ModelFacingGroup(s); }
        InternalTransparent(s[1..]);
        if s[0].role == Internal {
          assert f == ModelFacing(s[1..]);
        } else {
          assert f[1..] == ModelFacing(s[1..]);
        }
        ModelFacingAppend([s[0]], Sanitized(s[1..]));
        assert ModelFacing([s[0]]) == if s[0].role == Internal then [] else [s[0]];
      }
    }
  }
}
