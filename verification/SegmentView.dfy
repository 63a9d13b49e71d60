/** The closed-out history segment by segment, told without the loop's open calls
    (crates/kernel/src/agent/message_buffer.rs:162-223, 349-375). */
module SegmentView {
  import opened Messages
  import opened Sequences
  import opened CloseOut
  import opened CloseOutLaws
  import opened Conservation
  import opened Respawn
  import opened RespawnLaws
  import opened ClosedAgain
  import opened HistoryRepair

  /** The first chain-breaking message from lo on, or the end. */
  function SegmentEnd(h: seq<Message>, lo: nat): (end: nat)
    requires lo <= |h|
    ensures lo <= end <= |h| && (end < |h| ==> Breaker(h[end])) && forall k :: lo <= k < end ==> !Breaker(h[k])
    decreases |h| - lo
  {
    if lo == |h| || Breaker(h[lo]) then lo else SegmentEnd(h, lo + 1)
  }

  /** Message k is the first result in the log for a call, but not for one of these. */
  predicate Elsewhere(h: seq<Message>, k: nat, calls: seq<ToolCall>)
    requires k < |h|
  {
    && h[k].role == Tool && h[k].toolCallId.Some?
    && var id := h[k].toolCallId.value;
       id in BatchIds(h) && id !in CallIds(calls) && forall j :: 0 <= j < k ==> !ResultFor(h[j], id)
  }

  /** The messages from lo to hi that stay in the segment of these calls. */
  function Staying(h: seq<Message>, lo: nat, hi: nat, calls: seq<ToolCall>): seq<Message>
    requires lo <= hi <= |h|
    decreases hi - lo
  {
    if lo == hi then []
    else (if Elsewhere(h, lo, calls) then [] else [h[lo]]) + Staying(h, lo + 1, hi, calls)
  }

  /** The segment opened by these calls, and those behind it: what stays there, then in call order a result for
      each call that the segment leaves unanswered, its first one in the log or one made up. */
  function Mended(h: seq<Message>, lo: nat, calls: seq<ToolCall>): seq<Message>
    requires lo <= |h|
    decreases |h| - lo
  {
    Staying(h, lo, SegmentEnd(h, lo), calls) + Answered(h, Results(h), Unanswered(calls, h[lo..])) + Onward(h, lo)
  }

  function Onward(h: seq<Message>, lo: nat): seq<Message>
    requires lo <= |h|
    decreases |h| - SegmentEnd(h, lo), 1
  {
    var end := SegmentEnd(h, lo);
    if end == |h| then [] else [h[end]] + Mended(h, end + 1, Calls(h[end]))
  }

  // ---------- the walk gives just that ----------

  /** Open at i are those of the calls that have had no result since lo. */
  ghost predicate OpenSince(h: seq<Message>, lo: nat, i: nat, calls: seq<ToolCall>, open: seq<ToolCall>) {
    && lo <= i <= |h| && DistinctIds(open)
    && (forall id :: id in CallIds(open) <==> id in CallIds(calls) && forall k :: lo <= k < i ==> !ResultFor(h[k], id))
  }

  lemma {:induction false} OpenNextSince(h: seq<Message>, lo: nat, i: nat, calls: seq<ToolCall>, open: seq<ToolCall>)
    requires OpenSince(h, lo, i, calls, open) && i < |h| && !Breaker(h[i])
    ensures OpenSince(h, lo, i + 1, calls, Pace(h, Results(h), i, open).open)
  {
    var pos := OpenPosition(open, h[i]);
    if h[i].role == Tool && pos.Some? {
      OthersIds(open, pos.value);
    } else {
      forall id | id in CallIds(open) ensures !ResultFor(h[i], id) {}
    }
  }

  lemma {:induction false} MatchedIsFirst(h: seq<Message>, k: nat)
    requires k < |h|
    ensures Matched(h, Results(h), k) <==>
              && h[k].role == Tool && h[k].toolCallId.Some? && h[k].toolCallId.value in BatchIds(h)
              && forall j :: 0 <= j < k ==> !ResultFor(h[j], h[k].toolCallId.value)
  {
  }

  /** A message is passed over exactly when it belongs elsewhere. */
  lemma {:induction false} PassedOver(h: seq<Message>, lo: nat, i: nat, calls: seq<ToolCall>, open: seq<ToolCall>)
    requires OpenSince(h, lo, i, calls, open) && i < |h| && !Breaker(h[i])
    ensures Emitted(h, Results(h), i, open) == if Elsewhere(h, i, calls) then [] else [h[i]]
  {
    MatchedIsFirst(h, i);
    var pos := OpenPosition(open, h[i]);
    if h[i].role == Tool && h[i].toolCallId.Some? {
      var id := h[i].toolCallId.value;
      assert ResultFor(h[i], id);
      if pos.Some? { assert open[pos.value].id in CallIds(open); }
      assert pos.None? ==> id !in CallIds(open);
    }
  }

  lemma {:induction false} StillUnanswered(h: seq<Message>, i: nat, open: seq<ToolCall>)
    requires i < |h| && !Breaker(h[i]) && DistinctIds(open)
    ensures Unanswered(Pace(h, Results(h), i, open).open, h[i + 1..]) == Unanswered(open, h[i..])
  {
    assert h[i..][0] == h[i] && h[i..][1..] == h[i + 1..];
    var next, pos := Pace(h, Results(h), i, open).open, OpenPosition(open, h[i]);
    if h[i].role == Tool && pos.Some? {
      UnansweredWithout(open, pos.value, h[i..]);
      UnansweredSame(next, h[i..], h[i + 1..]);
    } else {
      UnansweredSame(open, h[i..], h[i + 1..]);
    }
  }

  lemma {:induction false} SegmentMends(h: History, lo: nat, i: nat, calls: seq<ToolCall>, open: seq<ToolCall>)
    requires OpenSince(h, lo, i, calls, open)
    ensures Onwards(h, i, calls, open)
    decreases |h| - i, 0
  {
    if i == |h| {
      SegmentStops(h, i, calls, open);
    } else if Breaker(h[i]) {
      MendsOn(h, i + 1, Calls(h[i]));
      SegmentStops(h, i, calls, open);
    } else {
      OpenNextSince(h, lo, i, calls, open);
      SegmentMends(h, lo, i + 1, calls, Pace(h, Results(h), i, open).open);
      SegmentStep(h, lo, i, calls, open);
    }
  }

  lemma {:induction false} SegmentStops(h: seq<Message>, i: nat, calls: seq<ToolCall>, open: seq<ToolCall>)
    requires i <= |h| && (i < |h| ==> Breaker(h[i]))
    requires i < |h| ==> After(h, Results(h), i + 1, Calls(h[i])) == Mended(h, i + 1, Calls(h[i]))
    ensures Onwards(h, i, calls, open)
  {
    var res := Results(h);
    NothingAnswered(open);
    UnansweredSame(open, h[i..], []);
    assert [] + Answered(h, res, open) == Answered(h, res, open);
    if i < |h| { AfterBreaker(h, res, i, open); }
    assert Answered(h, res, open) + [] == Answered(h, res, open);
  }

  lemma {:induction false} SegmentStep(h: seq<Message>, lo: nat, i: nat, calls: seq<ToolCall>, open: seq<ToolCall>)
    requires OpenSince(h, lo, i, calls, open) && i < |h| && !Breaker(h[i])
    requires Onwards(h, i + 1, calls, Pace(h, Results(h), i, open).open)
    ensures Onwards(h, i, calls, open)
  {
    PassedOver(h, lo, i, calls, open);
    StillUnanswered(h, i, open);
    OneMoreStays(h, i, calls);
    ThreeMore(Emitted(h, Results(h), i, open), Staying(h, i + 1, SegmentEnd(h, i + 1), calls),
      Answered(h, Results(h), Unanswered(open, h[i..])), Onward(h, i + 1));
  }

  lemma {:induction false} OneMoreStays(h: seq<Message>, i: nat, calls: seq<ToolCall>)
    requires i < |h| && !Breaker(h[i])
    ensures Staying(h, i, SegmentEnd(h, i), calls)
         == (if Elsewhere(h, i, calls) then [] else [h[i]]) + Staying(h, i + 1, SegmentEnd(h, i + 1), calls)
    ensures Onward(h, i) == Onward(h, i + 1)
  {
  }

  lemma {:induction false} ThreeMore(own: seq<Message>, a: seq<Message>, b: seq<Message>, c: seq<Message>)
    ensures own + (a + b + c) == own + a + b + c
  {
  }

  /** From i on, what is left of the segment and what lies behind it. */
  ghost predicate Onwards(h: seq<Message>, i: nat, calls: seq<ToolCall>, open: seq<ToolCall>)
    requires i <= |h|
  {
    After(h, Results(h), i, open)
      == Staying(h, i, SegmentEnd(h, i), calls) + Answered(h, Results(h), Unanswered(open, h[i..])) + Onward(h, i)
  }

  lemma {:induction false} MendsOn(h: History, lo: nat, calls: seq<ToolCall>)
    requires lo <= |h| && DistinctIds(calls)
    ensures After(h, Results(h), lo, calls) == Mended(h, lo, calls)
    decreases |h| - lo, 1
  {
    SegmentMends(h, lo, lo, calls, calls);
  }

  /** With distinct call ids, segment after segment: each message of the log stays where it is, unless it is the
      first result for a call of another batch; behind them, in call order, stand the results of the calls
      that the segment leaves unanswered. */
  lemma {:induction false} ClosedBySegments(h: History)
    ensures Closed(h) == Mended(h, 0, [])
  {
    ClosedIsAfter(h);
    MendsOn(h, 0, []);
  }

  // ---------- histories that need no repair ----------

  lemma {:induction false} AllStay(h: seq<Message>, lo: nat, hi: nat, calls: seq<ToolCall>)
    requires lo <= hi <= |h| && forall k :: lo <= k < hi ==> !Elsewhere(h, k, calls)
    ensures Staying(h, lo, hi, calls) == h[lo..hi]
    decreases hi - lo
  {
    if lo < hi {
      AllStay(h, lo + 1, hi, calls);
      Peeled(h, lo, hi);
    } else {
      assert h[lo..hi] == [];
    }
  }

  lemma {:induction false} NoneUnanswered(calls: seq<ToolCall>, s: seq<Message>)
    requires forall q :: 0 <= q < |calls| ==> SegmentHas(s, calls[q].id)
    ensures Unanswered(calls, s) == []
  {
    if calls != [] { NoneUnanswered(calls[1..], s); }
  }

  /** A first result that stands ahead of its batch, which is answered besides. */
  lemma {:induction false} AheadOverwrites(h: seq<Message>, k: nat, b: nat, q: nat, calls: seq<ToolCall>)
    requires AllAnswered(h) && k < b < |h| && q < |Calls(h[b])| && Elsewhere(h, k, calls)
    requires h[k].toolCallId == Some(Calls(h[b])[q].id)
    ensures Overwritten(h)
  {
    MatchedIsFirst(h, k);
    AnsweredBatch(h, b, q);
    assert Calls(h[b])[q].id in CallIds(Calls(h[b]));
    assert Preempts(h, b, k) && PreemptedFrom(h, 0, k);
  }

  /** A result behind the segment of its call is not the first. */
  lemma {:induction false} LateNotFirst(h: seq<Message>, b: nat, q: nat, end: nat, k: nat, calls: seq<ToolCall>)
    requires AllAnswered(h) && b < end <= k < |h| && q < |Calls(h[b])| && Breaker(h[end])
    requires h[k].toolCallId == Some(Calls(h[b])[q].id)
    ensures !Elsewhere(h, k, calls)
  {
    AnsweredBatch(h, b, q);
    InSegment(h, b + 1, end, Calls(h[b])[q].id);
  }

  function CallsBehind(h: seq<Message>, lo: nat): seq<ToolCall>
    requires lo <= |h|
  {
    if lo == 0 then [] else Calls(h[lo - 1])
  }

  /** A batch of this id, at another place. */
  lemma {:induction false} OtherBatch(h: seq<Message>, k: nat, lo: nat) returns (b: nat, q: nat)
    requires k < |h| && lo <= |h| && Elsewhere(h, k, CallsBehind(h, lo))
    ensures b < |h| && q < |Calls(h[b])| && h[k].toolCallId == Some(Calls(h[b])[q].id) && b + 1 != lo
  {
    b, q :| 0 <= b < |h| && 0 <= q < |Calls(h[b])| && Calls(h[b])[q].id == h[k].toolCallId.value;
    assert Calls(h[b])[q].id in CallIds(Calls(h[b]));
  }

  lemma {:induction false} NotBetween(h: seq<Message>, lo: nat, k: nat, b: nat, q: nat)
    requires b < |h| && q < |Calls(h[b])| && b + 1 != lo && k < |h|
    requires forall j :: lo <= j <= k ==> !Breaker(h[j])
    ensures b > k || b + 1 < lo
  {
    assert Breaker(h[b]);
  }

  /** A result that belongs elsewhere though every call is answered stands ahead of its batch. */
  lemma {:induction false} ElsewhereOverwrites(h: seq<Message>, lo: nat, k: nat)
    requires AllAnswered(h) && lo <= k < |h| && (lo == 0 || Breaker(h[lo - 1]))
    requires (forall j :: lo <= j <= k ==> !Breaker(h[j])) && Elsewhere(h, k, CallsBehind(h, lo))
    ensures Overwritten(h)
  {
    var b, q := OtherBatch(h, k, lo);
    NotBetween(h, lo, k, b, q);
    if k < b {
      AheadOverwrites(h, k, b, q, CallsBehind(h, lo));
    } else {
      LateNotFirst(h, b, q, lo - 1, k, CallsBehind(h, lo));
    }
  }

  /** A segment ends at the next chain-breaking message. */
  lemma {:induction false} InSegment(h: seq<Message>, lo: nat, end: nat, id: string)
    requires lo <= |h| && SegmentHas(h[lo..], id) && lo <= end + 1 <= |h| && (lo <= end ==> Breaker(h[end]))
    ensures lo <= end ==> exists k :: lo <= k < end && ResultFor(h[k], id)
    decreases |h| - lo
  {
    if lo <= end {
      assert h[lo..][0] == h[lo] && h[lo..][1..] == h[lo + 1..];
      if !ResultFor(h[lo], id) {
        InSegment(h, lo + 1, end, id);
      }
    }
  }

  lemma {:induction false} SegmentUnmended(h: seq<Message>, lo: nat)
    requires AllAnswered(h) && !Overwritten(h) && lo <= |h| && (lo == 0 || Breaker(h[lo - 1]))
    ensures Staying(h, lo, SegmentEnd(h, lo), CallsBehind(h, lo)) == h[lo..SegmentEnd(h, lo)]
    ensures Unanswered(CallsBehind(h, lo), h[lo..]) == []
  {
    var calls, end := CallsBehind(h, lo), SegmentEnd(h, lo);
    forall k | lo <= k < end ensures !Elsewhere(h, k, calls) {
      if Elsewhere(h, k, calls) { ElsewhereOverwrites(h, lo, k); }
    }
    AllStay(h, lo, end, calls);
    forall q | 0 <= q < |calls| ensures SegmentHas(h[lo..], calls[q].id) { AnsweredBatch(h, lo - 1, q); }
    NoneUnanswered(calls, h[lo..]);
  }

  lemma {:induction false} Unmended(h: seq<Message>, lo: nat)
    requires AllAnswered(h) && !Overwritten(h) && lo <= |h| && (lo == 0 || Breaker(h[lo - 1]))
    ensures Mended(h, lo, CallsBehind(h, lo)) == h[lo..]
    decreases |h| - lo
  {
    if SegmentEnd(h, lo) < |h| { Unmended(h, SegmentEnd(h, lo) + 1); }
    OnwardUnmended(h, lo);
    UnmendedStep(h, lo);
  }

  lemma {:induction false} OnwardUnmended(h: seq<Message>, lo: nat)
    requires lo <= |h|
    requires var end := SegmentEnd(h, lo); end < |h| ==> Mended(h, end + 1, CallsBehind(h, end + 1)) == h[end + 1..]
    ensures Onward(h, lo) == h[SegmentEnd(h, lo)..]
  {
    var end := SegmentEnd(h, lo);
    if end < |h| { Headed(h, end); } else { assert h[end..] == []; }
  }

  lemma {:induction false} UnmendedStep(h: seq<Message>, lo: nat)
    requires AllAnswered(h) && !Overwritten(h) && lo <= |h| && (lo == 0 || Breaker(h[lo - 1]))
    requires Onward(h, lo) == h[SegmentEnd(h, lo)..]
    ensures Mended(h, lo, CallsBehind(h, lo)) == h[lo..]
  {
    SegmentUnmended(h, lo);
    Rejoined(h, lo, SegmentEnd(h, lo));
    assert h[lo..SegmentEnd(h, lo)] + [] == h[lo..SegmentEnd(h, lo)];
  }

  /** Close-out leaves a history alone exactly when every call has a result in its own segment, and none has one
      ahead of its batch besides. */
  lemma {:induction false} UnchangedExactly(h: History)
    ensures Closed(h) == h <==> AllAnswered(h) && !Overwritten(h)
  {
    if AllAnswered(h) && !Overwritten(h) {
      Unmended(h, 0);
      ClosedBySegments(h);
      assert h[0..] == h;
    }
    if Closed(h) == h {
      EveryCallAnswered(h);
      NothingMissing(h);
      if Overwritten(h) { OneLost(h); }
      Lengths(h);
    }
  }

  lemma {:induction false} NothingMissing(h: History)
    requires AllAnswered(h)
    ensures Synthesized(h) == []
  {
    var calls := SynthCalls(Sources(h));
    GapsOf(h);
    forall id | id in BatchIds(h) ensures id in Results(h) { BatchIdAnswered(h, id); }
    assert CallIds(calls) == {};
    NoIds(calls);
  }

  lemma {:induction false} BatchIdAnswered(h: seq<Message>, id: string)
    requires AllAnswered(h) && id in BatchIds(h)
    ensures id in Results(h)
  {
    var j, q :| 0 <= j < |h| && 0 <= q < |Calls(h[j])| && Calls(h[j])[q].id == id;
    AnsweredBatch(h, j, q);
    var k := SegmentResult(h, j + 1, id);
    assert FirstResult(h, id, 0).Some?;
  }

  lemma {:induction false} NoIds(calls: seq<ToolCall>)
    ensures calls != [] ==> CallIds(calls) != {}
  {
    if calls != [] { assert calls[0].id in CallIds(calls); }
  }
}
