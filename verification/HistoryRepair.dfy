/** The repair of a loaded history, put together: logs in recording order, and the logs for which
    the repair falls short. */
module HistoryRepair {
  import opened Messages
  import opened CloseOut
  import opened CloseOutLaws
  import opened Conservation
  import opened Respawn
  import opened RespawnLaws
  import opened ClosedAgain
  import opened RepeatedIds

  // ---------- what is open at the end of a log ----------

  function LastBreaker(h: seq<Message>, n: nat): (b: Option<nat>)
    requires n <= |h|
    ensures b.Some? ==> b.value < n && Breaker(h[b.value]) && forall k :: b.value < k < n ==> !Breaker(h[k])
    ensures b.None? ==> forall k :: 0 <= k < n ==> !Breaker(h[k])
  {
    if n == 0 then None else if Breaker(h[n - 1]) then Some(n - 1) else LastBreaker(h, n - 1)
  }

  /** The calls without a result in the segment s. */
  function Unanswered(open: seq<ToolCall>, s: seq<Message>): seq<ToolCall> {
    if open == [] then []
    else if SegmentHas(s, open[0].id) then Unanswered(open[1..], s) else [open[0]] + Unanswered(open[1..], s)
  }

  lemma {:induction false} UnansweredWithout(open: seq<ToolCall>, pos: nat, s: seq<Message>)
    requires pos < |open| && SegmentHas(s, open[pos].id)
    ensures Unanswered(Without(open, pos), s) == Unanswered(open, s)
  {
    var others := Without(open, pos);
    if pos == 0 {
      assert others == open[1..];
    } else {
      UnansweredWithout(open[1..], pos - 1, s);
      assert others[0] == open[0] && others[1..] == Without(open[1..], pos - 1);
    }
  }

  lemma {:induction false} UnansweredSame(open: seq<ToolCall>, s: seq<Message>, t: seq<Message>)
    requires forall p :: 0 <= p < |open| ==> SegmentHas(s, open[p].id) == SegmentHas(t, open[p].id)
    ensures Unanswered(open, s) == Unanswered(open, t)
  {
    if open != [] { UnansweredSame(open[1..], s, t); }
  }

  lemma {:induction false} RestUnanswered(h: seq<Message>, res: map<string, nat>, i: nat, open: seq<ToolCall>)
    requires i <= |h| && DistinctIds(open) && forall k :: i <= k < |h| ==> !Breaker(h[k])
    ensures Rest(h, res, i, open) == Unanswered(open, h[i..])
    decreases |h| - i
  {
    if i == |h| {
      assert h[i..] == [];
      NothingAnswered(open);
    } else {
      assert h[i..][0] == h[i] && h[i..][1..] == h[i + 1..];
      var next := Pace(h, res, i, open).open;
      RestUnanswered(h, res, i + 1, next);
      var pos := OpenPosition(open, h[i]);
      if h[i].role == Tool && pos.Some? {
        UnansweredWithout(open, pos.value, h[i..]);
        UnansweredSame(next, h[i..], h[i + 1..]);
      } else {
        UnansweredSame(open, h[i..], h[i + 1..]);
      }
    }
  }

  lemma {:induction false} NothingAnswered(open: seq<ToolCall>)
    ensures Unanswered(open, []) == open
  {
    if open != [] { NothingAnswered(open[1..]); }
  }

  lemma {:induction false} RestFrom(h: seq<Message>, res: map<string, nat>, i: nat, j: nat, open: seq<ToolCall>)
    requires i <= j < |h| && Breaker(h[j])
    ensures Rest(h, res, i, open) == Rest(h, res, j + 1, Calls(h[j]))
    decreases j - i
  {
    if i < j { RestFrom(h, res, i + 1, j, Pace(h, res, i, open).open); }
  }

  /** Open at the end are the calls of the last batch without a result after it, unless another
      chain-breaking message follows. */
  lemma {:induction false} OpenAtEndIs(h: History)
    ensures OpenAtEnd(h) == (var b := LastBreaker(h, |h|);
                             if b.Some? then Unanswered(Calls(h[b.value]), h[b.value + 1..]) else [])
  {
    var b := LastBreaker(h, |h|);
    assert DistinctIds([]);
    if b.Some? {
      assert DistinctIds(Calls(h[b.value]));
      RestFrom(h, Results(h), 0, b.value, []);
      RestUnanswered(h, Results(h), b.value + 1, Calls(h[b.value]));
    } else {
      RestUnanswered(h, Results(h), 0, []);
    }
  }

  // ---------- logs in recording order ----------

  /** No result stands ahead of the batch it answers. */
  ghost predicate ResultsFollow(h: seq<Message>) {
    forall k, b :: 0 <= k < b < |h| && h[k].role == Tool && h[k].toolCallId.Some? ==>
      h[k].toolCallId.value !in CallIds(Calls(h[b]))
  }

  lemma {:induction false} OpenHasNoResult(h: History, p: nat)
    requires ResultsFollow(h) && p < |OpenAtEnd(h)|
    ensures OpenAtEnd(h)[p].id !in Results(h)
  {
    OpenAtEndIs(h);
    var b := LastBreaker(h, |h|);
    if b.Some? { UnansweredHasNoResult(h, b.value, p); }
  }

  lemma {:induction false} UnansweredHasNoResult(h: seq<Message>, b: nat, p: nat)
    requires ResultsFollow(h) && b < |h| && Breaker(h[b]) && (forall j :: b < j < |h| ==> !Breaker(h[j]))
    requires p < |Unanswered(Calls(h[b]), h[b + 1..])|
    ensures Unanswered(Calls(h[b]), h[b + 1..])[p].id !in Results(h)
  {
    var id := Unanswered(Calls(h[b]), h[b + 1..])[p].id;
    UnansweredMember(Calls(h[b]), h[b + 1..], p);
    forall k | 0 <= k < |h| ensures !ResultFor(h[k], id) { NoResultAround(h, b, id, k); }
  }

  lemma {:induction false} NoResultAround(h: seq<Message>, b: nat, id: string, k: nat)
    requires b < |h| && Breaker(h[b]) && (forall j :: b < j < |h| ==> !Breaker(h[j])) && k < |h|
    requires ResultsFollow(h) && id in CallIds(Calls(h[b])) && !SegmentHas(h[b + 1..], id)
    ensures !ResultFor(h[k], id)
  {
    if k > b { NoneInSegment(h, b + 1, k, id); }
  }

  lemma {:induction false} UnansweredMember(open: seq<ToolCall>, s: seq<Message>, p: nat)
    requires p < |Unanswered(open, s)|
    ensures Unanswered(open, s)[p].id in CallIds(open) && !SegmentHas(s, Unanswered(open, s)[p].id)
  {
    var rest := Unanswered(open[1..], s);
    var kept := !SegmentHas(s, open[0].id);
    IdsCons(open[0], open[1..]);
    assert [open[0]] + open[1..] == open;
    if !kept {
      assert Unanswered(open, s) == rest;
      UnansweredMember(open[1..], s, p);
    } else if p > 0 {
      UnansweredMember(open[1..], s, p - 1);
    }
  }

  lemma {:induction false} NoneInSegment(h: seq<Message>, lo: nat, k: nat, id: string)
    requires lo <= k < |h| && !SegmentHas(h[lo..], id) && forall j :: lo <= j < |h| ==> !Breaker(h[j])
    ensures !ResultFor(h[k], id)
    decreases k - lo
  {
    assert h[lo..][0] == h[lo] && h[lo..][1..] == h[lo + 1..];
    if lo < k { NoneInSegment(h, lo + 1, k, id); }
  }

  /** For a log in recording order close-out is a repair in every sense: nothing is lost, a second
      close-out changes nothing, and the next respawn sees the same history and adds nothing. */
  lemma {:induction false} RecordedLogsRepair(h: History)
    requires ResultsFollow(h)
    ensures multiset(Closed(h)) == multiset(h) + multiset(Synthesized(h))
    ensures Closed(Closed(h)) == Closed(h) && Synthesized(Closed(h)) == []
    ensures Closed(Grow(h)) == Closed(h) && Synthesized(Grow(h)) == []
  {
    ClosedConserves(h);
    ClosedAgainSynthesizesNothing(h);
    assert !TwoAhead(h) by {
      forall k, b, q | 0 <= k < b < |h| && 0 <= q < |Calls(h[b])| ensures !ResultFor(h[k], Calls(h[b])[q].id) {
        assert Calls(h[b])[q].id in CallIds(Calls(h[b]));
      }
    }
    ClosedAgainSame(h);
    SecondReadSynthesizesNothing(h);
    forall p | 0 <= p < |OpenAtEnd(h)| ensures OpenAtEnd(h)[p].id !in Results(h) { OpenHasNoResult(h, p); }
    SecondReadSameHistory(h);
  }

  // ---------- logs with one result to a call, wherever it stands ----------

  ghost predicate OneResultEach(h: seq<Message>) {
    forall j, k :: 0 <= j < k < |h| && h[j].role == Tool && h[j].toolCallId.Some? ==>
      !ResultFor(h[k], h[j].toolCallId.value)
  }

  lemma {:induction false} PreemptedTwice(h: seq<Message>, k: nat, b: nat)
    requires k < |h| && h[k].role == Tool && Preempts(h, b, k)
    ensures !OneResultEach(h)
  {
    var m := SegmentResult(h, b + 1, h[k].toolCallId.value);
    assert k < m;
  }

  /** Late and early results alike are moved to their batch and nothing is lost; a second close-out
      changes nothing. */
  lemma {:induction false} SingleResultsMoved(h: History)
    requires OneResultEach(h)
    ensures multiset(Closed(h)) == multiset(h) + multiset(Synthesized(h))
    ensures Closed(Closed(h)) == Closed(h)
  {
    forall k, b: nat | 0 <= k < |h| && h[k].role == Tool ensures !Preempts(h, b, k) {
      if Preempts(h, b, k) { PreemptedTwice(h, k, b); }
    }
    ClosedConserves(h);
    ClosedAgainSame(h);
  }

  // ---------- logs for which the repair falls short ----------

  const EARLY: Message := Message(Tool, ["one"], None, Some("t1"), map[])
  const AGAIN: Message := Message(Tool, ["two"], None, Some("t1"), map[])
  const OTHER: ToolCall := ToolCall("t2", "probe", "")

  lemma {:induction false} OneBatchOnly(h: seq<Message>, b: nat)
    requires b < |h| && DistinctIds(Calls(h[b])) && forall k :: 0 <= k < |h| && k != b ==> Calls(h[k]) == []
    ensures DistinctCallIds(h)
  {
  }

  /** A result ahead of its batch, whose other call has none: the second read orders them otherwise. */
  lemma {:induction false} EarlyResultReorders(batch: Message, h: seq<Message>)
    requires batch == BATCH.(toolCalls := Some([CALL, OTHER])) && h == [EARLY, batch]
    ensures DistinctCallIds(h) && Closed(Grow(h)) != Closed(h)
  {
    OneBatchOnly(h, 1);
    EarlyOpen(h);
    EarlyFound(h);
    GapsOutOfOrder(Results(h), OpenAtEnd(h));
    SecondReadSameHistory(h);
  }

  lemma {:induction false} EarlyOpen(h: History)
    requires |h| == 2 && h[0] == EARLY && h[1] == BATCH.(toolCalls := Some([CALL, OTHER]))
    ensures OpenAtEnd(h) == [CALL, OTHER]
  {
    OpenAtEndIs(h);
    assert LastBreaker(h, 2) == Some(1) && h[2..] == [];
    NothingAnswered(Calls(h[1]));
  }

  lemma {:induction false} EarlyFound(h: seq<Message>)
    requires |h| == 2 && h[0] == EARLY && h[1] == BATCH.(toolCalls := Some([CALL, OTHER]))
    ensures "t1" in Results(h) && "t2" !in Results(h)
  {
    assert Calls(h[1])[0].id == "t1";
    assert FirstResult(h, "t1", 0) == Some(0) && FirstResult(h, "t2", 0).None?;
  }

  lemma {:induction false} GapsOutOfOrder(res: map<string, nat>, open: seq<ToolCall>)
    requires open == [CALL, OTHER] && "t1" in res && "t2" !in res
    ensures !GapsFirst(res, open)
  {
    assert open[0].id in res && open[1].id !in res;
  }

  /** Two results ahead of their batch: the second close-out loses one. */
  lemma {:induction false} TwoEarlyResults(h: seq<Message>)
    requires h == [EARLY, AGAIN, BATCH]
    ensures DistinctCallIds(h) && Closed(Closed(h)) != Closed(h)
  {
    OneBatchOnly(h, 2);
    assert ResultFor(h[0], Calls(h[2])[0].id) && ResultFor(h[1], Calls(h[2])[0].id);
    ClosedAgainSame(h);
  }

  /** A result ahead of its batch and another after it: the first goes missing. */
  lemma {:induction false} EarlyResultLost(h: seq<Message>)
    requires h == [EARLY, BATCH, AGAIN]
    ensures DistinctCallIds(h) && multiset(Closed(h)) != multiset(h) + multiset(Synthesized(h))
  {
    OneBatchOnly(h, 1);
    assert Calls(h[1])[0].id == "t1" && FirstResult(h, "t1", 0) == Some(0);
    assert h[2..][0] == AGAIN && Preempts(h, 1, 0) && Matched(h, Results(h), 0) && PreemptedFrom(h, 0, 0);
    ClosedConserves(h);
  }
}
