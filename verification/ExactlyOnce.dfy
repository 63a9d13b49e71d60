/** How many results a call has after close-out (crates/kernel/src/agent/message_buffer.rs:162-223). */
module ExactlyOnce {
  import opened Messages
  import opened Sequences
  import opened CloseOut
  import opened CloseOutLaws
  import opened Conservation
  import opened Respawn
  import opened RespawnLaws
  import opened CallLedger
  import opened HistoryRepair

  /** Every call has exactly one result before the next chain-breaking message. */
  predicate EachOnce(s: seq<Message>) {
    s == []
    || ((forall q :: 0 <= q < |Calls(s[0])| ==> OwnResults(s[1..], Calls(s[0])[q].id) == 1) && EachOnce(s[1..]))
  }

  /** No call has two. */
  predicate NoneTwice(s: seq<Message>) {
    s == []
    || ((forall q :: 0 <= q < |Calls(s[0])| ==> OwnResults(s[1..], Calls(s[0])[q].id) <= 1) && NoneTwice(s[1..]))
  }

  function AtLeastOne(n: nat): nat { if n == 0 then 1 else n }

  lemma {:induction false} AnsweredOwn(h: seq<Message>, res: map<string, nat>, open: seq<ToolCall>,
                                       rest: seq<Message>, id: string)
    requires Indexes(h, res) && DistinctIds(open) && (rest == [] || Breaker(rest[0]))
    ensures OwnResults(Answered(h, res, open) + rest, id) == if id in CallIds(open) then 1 else 0
    ensures EachOnce(Answered(h, res, open) + rest) <==> EachOnce(rest)
  {
    if open == [] {
      assert CallIds(open) == {} && Answered(h, res, open) + rest == rest;
    } else {
      assert DistinctIds(open[1..]) && open == [open[0]] + open[1..];
      IdsCons(open[0], open[1..]);
      assert open[0].id !in CallIds(open[1..]);
      AnsweredOwn(h, res, open[1..], rest, id);
      Tailed(Answer(h, res, open[0]), Answered(h, res, open[1..]), rest);
    }
  }

  lemma {:induction false} OwnNext(h: seq<Message>, id: string, i: nat)
    requires i < |h|
    ensures OwnResults(h[i..], id) ==
            if Breaker(h[i]) then 0 else (if ResultFor(h[i], id) then 1 else 0) + OwnResults(h[i + 1..], id)
  {
    assert h[i..][0] == h[i] && h[i..][1..] == h[i + 1..];
  }

  /** What closes a segment: its end, or a chain-breaking message. */
  lemma {:induction false} ClosedOwn(h: seq<Message>, res: map<string, nat>, i: nat, open: seq<ToolCall>, id: string)
    requires i <= |h| && Indexes(h, res) && DistinctIds(open) && (i < |h| ==> Breaker(h[i]))
    ensures OwnResults(After(h, res, i, open), id) == if id in CallIds(open) then 1 else 0
    ensures OwnResults(h[i..], id) == 0
  {
    if i == |h| {
      AnsweredOwn(h, res, open, [], id);
      assert Answered(h, res, open) + [] == Answered(h, res, open);
    } else {
      AfterBreaker(h, res, i, open);
      AnsweredOwn(h, res, open, [h[i]] + After(h, res, i + 1, Calls(h[i])), id);
    }
  }

  /** Results for a call that has been answered stay where they are. */
  lemma {:induction false} ShutOwn(h: seq<Message>, res: map<string, nat>, i: nat, open: seq<ToolCall>, id: string)
    requires i <= |h| && Indexes(h, res) && DistinctIds(open) && id !in CallIds(open) && (id in res ==> res[id] < i)
    ensures OwnResults(After(h, res, i, open), id) == OwnResults(h[i..], id)
    decreases |h| - i
  {
    if i == |h| || Breaker(h[i]) {
      ClosedOwn(h, res, i, open, id);
    } else {
      var next := Pace(h, res, i, open).open;
      OwnNext(h, id, i);
      AfterFront(h, res, i, open);
      ShutNext(h, res, i, open, id);
      ShutOwn(h, res, i + 1, next, id);
    }
  }

  lemma {:induction false} ShutNext(h: seq<Message>, res: map<string, nat>, i: nat, open: seq<ToolCall>, id: string)
    requires i < |h| && !Breaker(h[i]) && DistinctIds(open) && id !in CallIds(open) && (id in res ==> res[id] < i)
    ensures var step := Pace(h, res, i, open);
            DistinctIds(step.open) && id !in CallIds(step.open) && (ResultFor(h[i], id) ==> step.emit != [])
  {
    var pos := OpenPosition(open, h[i]);
    if h[i].role == Tool && pos.Some? {
      OthersIds(open, pos.value);
      assert open[pos.value].id in CallIds(open);
    }
  }

  /** An open call ends up with the results of its segment, or with one from elsewhere. */
  lemma {:induction false} OpenOwn(h: seq<Message>, res: map<string, nat>, i: nat, open: seq<ToolCall>, id: string)
    requires i <= |h| && Indexes(h, res) && FirstOnly(h, res) && DistinctIds(open) && id in CallIds(open)
    ensures OwnResults(After(h, res, i, open), id) == AtLeastOne(OwnResults(h[i..], id))
    decreases |h| - i
  {
    if i == |h| || Breaker(h[i]) {
      ClosedOwn(h, res, i, open, id);
    } else {
      var next := Pace(h, res, i, open).open;
      OwnNext(h, id, i);
      AfterFront(h, res, i, open);
      OpenNext(h, res, i, open, id);
      if ResultFor(h[i], id) {
        ShutOwn(h, res, i + 1, next, id);
      } else {
        OpenOwn(h, res, i + 1, next, id);
      }
    }
  }

  lemma {:induction false} OpenNext(h: seq<Message>, res: map<string, nat>, i: nat, open: seq<ToolCall>, id: string)
    requires i < |h| && !Breaker(h[i]) && FirstOnly(h, res) && DistinctIds(open) && id in CallIds(open)
    ensures var step := Pace(h, res, i, open);
            && DistinctIds(step.open)
            && (id in CallIds(step.open) <==> !ResultFor(h[i], id))
            && (ResultFor(h[i], id) ==> step.emit != [] && (id in res ==> res[id] < i + 1))
  {
    var pos := OpenPosition(open, h[i]);
    var p :| 0 <= p < |open| && open[p].id == id;
    if h[i].role == Tool && pos.Some? { OthersIds(open, pos.value); }
  }

  lemma {:induction false} EachOnceIff(h: History, res: map<string, nat>, i: nat, open: seq<ToolCall>)
    requires i <= |h| && Indexes(h, res) && FirstOnly(h, res) && DistinctIds(open)
    ensures EachOnce(After(h, res, i, open)) <==> NoneTwice(h[i..])
    decreases |h| - i
  {
    if i == |h| {
      EndOnce(h, res, open);
    } else if Breaker(h[i]) {
      EachOnceIff(h, res, i + 1, Calls(h[i]));
      BreakerOnce(h, res, i, open);
    } else {
      var next := PaceDistinct(h, res, i, open);
      EachOnceIff(h, res, i + 1, next);
      QuietOnce(h, res, i, open);
    }
  }

  lemma {:induction false} EndOnce(h: History, res: map<string, nat>, open: seq<ToolCall>)
    requires Indexes(h, res) && DistinctIds(open)
    ensures EachOnce(After(h, res, |h|, open)) && NoneTwice(h[|h|..])
  {
    AnsweredOwn(h, res, open, [], "");
    assert Answered(h, res, open) + [] == Answered(h, res, open);
  }

  /** A message that makes no calls adds nothing to either side. */
  lemma {:induction false} NoCallsOnce(m: Message, rest: seq<Message>)
    requires Calls(m) == []
    ensures EachOnce([m] + rest) <==> EachOnce(rest)
    ensures NoneTwice([m] + rest) <==> NoneTwice(rest)
  {
    Tailed(m, rest, []);
  }

  lemma {:induction false} QuietOnce(h: History, res: map<string, nat>, i: nat, open: seq<ToolCall>)
    requires i < |h| && !Breaker(h[i]) && Indexes(h, res)
    requires EachOnce(After(h, res, i + 1, Pace(h, res, i, open).open)) <==> NoneTwice(h[i + 1..])
    ensures EachOnce(After(h, res, i, open)) <==> NoneTwice(h[i..])
  {
    var rest := After(h, res, i + 1, Pace(h, res, i, open).open);
    Headed(h, i);
    AfterFront(h, res, i, open);
    NoCallsOnce(h[i], rest);
    NoCallsOnce(h[i], h[i + 1..]);
  }

  lemma {:induction false} BreakerOnce(h: History, res: map<string, nat>, i: nat, open: seq<ToolCall>)
    requires i < |h| && Breaker(h[i]) && Indexes(h, res) && FirstOnly(h, res) && DistinctIds(open)
    requires EachOnce(After(h, res, i + 1, Calls(h[i]))) <==> NoneTwice(h[i + 1..])
    ensures EachOnce(After(h, res, i, open)) <==> NoneTwice(h[i..])
  {
    var calls, rest := Calls(h[i]), After(h, res, i + 1, Calls(h[i]));
    forall q | 0 <= q < |calls|
      ensures OwnResults(rest, calls[q].id) == AtLeastOne(OwnResults(h[i + 1..], calls[q].id))
    {
      assert calls[q].id in CallIds(calls) && DistinctIds(calls);
      OpenOwn(h, res, i + 1, calls, calls[q].id);
    }
    AfterBreaker(h, res, i, open);
    AnsweredOwn(h, res, open, [h[i]] + rest, "");
    Tailed(h[i], rest, []);
    Headed(h, i);
  }

  /** With distinct call ids, each call has exactly one result before the next chain-breaking message
      after close-out, if and only if none had two there before. */
  lemma {:induction false} ExactlyOneEach(h: History)
    ensures EachOnce(Closed(h)) <==> NoneTwice(h)
  {
    ClosedIsAfter(h);
    assert DistinctIds([]) && h[0..] == h;
    EachOnceIff(h, Results(h), 0, []);
  }

  // ---------- one result to a call, before and after ----------

  lemma {:induction false} SingleOwn(h: seq<Message>, id: string, i: nat)
    requires OneResultEach(h) && i <= |h|
    ensures OwnResults(h[i..], id) <= ResultsFrom(h, id, i) <= 1
    decreases |h| - i
  {
    if i < |h| {
      OwnNext(h, id, i);
      SingleOwn(h, id, i + 1);
      if ResultFor(h[i], id) { NoMore(h, id, i, i + 1); }
    }
  }

  lemma {:induction false} NoMore(h: seq<Message>, id: string, i: nat, j: nat)
    requires OneResultEach(h) && i < j <= |h| && ResultFor(h[i], id)
    ensures ResultsFrom(h, id, j) == 0
    decreases |h| - j
  {
    if j < |h| { NoMore(h, id, i, j + 1); }
  }

  lemma {:induction false} SingleNoneTwice(h: seq<Message>, i: nat)
    requires OneResultEach(h) && i <= |h|
    ensures NoneTwice(h[i..])
    decreases |h| - i
  {
    if i < |h| {
      assert h[i..][0] == h[i] && h[i..][1..] == h[i + 1..];
      forall q | 0 <= q < |Calls(h[i])| ensures OwnResults(h[i + 1..], Calls(h[i])[q].id) <= 1 {
        SingleOwn(h, Calls(h[i])[q].id, i + 1);
      }
      SingleNoneTwice(h, i + 1);
    }
  }

  function ResultCount(s: seq<Message>, id: string): nat {
    if s == [] then 0 else (if ResultFor(s[0], id) then 1 else 0) + ResultCount(s[1..], id)
  }

  lemma {:induction false} ResultCountAppend(a: seq<Message>, b: seq<Message>, id: string)
    ensures ResultCount(a + b, id) == ResultCount(a, id) + ResultCount(b, id)
  {
    if a == [] {
      assert a + b == b;
    } else {
      ResultCountAppend(a[1..], b, id);
      assert (a + b)[1..] == a[1..] + b;
    }
  }

  lemma {:induction false} ResultCountBag(a: seq<Message>, b: seq<Message>, id: string)
    requires multiset(a) == multiset(b)
    ensures ResultCount(a, id) == ResultCount(b, id)
    decreases |a|
  {
    if a == [] {
      assert |multiset(b)| == 0;
    } else {
      assert a[0] in multiset(b);
      var j :| 0 <= j < |b| && b[j] == a[0];
      SameRest(a, b, j);
      ResultCountBag(a[1..], b[..j] + b[j + 1..], id);
      CountWithout(b, j, id);
    }
  }

  lemma {:induction false} CountWithout(b: seq<Message>, j: nat, id: string)
    requires j < |b|
    ensures ResultCount(b, id) == ResultCount(b[..j] + b[j + 1..], id) + if ResultFor(b[j], id) then 1 else 0
  {
    TakenOut(b, j);
    ResultCountAppend(b[..j], [b[j]] + b[j + 1..], id);
    ResultCountAppend(b[..j], b[j + 1..], id);
    Tailed(b[j], b[j + 1..], []);
  }

  lemma {:induction false} SameRest(a: seq<Message>, b: seq<Message>, j: nat)
    requires a != [] && j < |b| && b[j] == a[0] && multiset(a) == multiset(b)
    ensures multiset(a[1..]) == multiset(b[..j] + b[j + 1..])
  {
    TakenOut(b, j);
    TakenOut(a, 0);
    assert a[..0] + a[1..] == a[1..];
    OneLess(multiset(a[1..]), multiset(b[..j] + b[j + 1..]), a[0]);
  }

  lemma {:induction false} OneLess(a: multiset<Message>, b: multiset<Message>, m: Message)
    requires a + multiset{m} == b + multiset{m}
    ensures a == b
  {
    assert (a + multiset{m}) - multiset{m} == a && (b + multiset{m}) - multiset{m} == b;
  }

  lemma {:induction false} TakenOut(b: seq<Message>, j: nat)
    requires j < |b|
    ensures b == b[..j] + ([b[j]] + b[j + 1..])
    ensures multiset(b) == multiset(b[..j] + b[j + 1..]) + multiset{b[j]}
  {
    assert b == b[..j] + ([b[j]] + b[j + 1..]);
  }

  lemma {:induction false} CountAtLeastTwo(s: seq<Message>, j: nat, k: nat, id: string)
    requires j < k < |s| && ResultFor(s[j], id) && ResultFor(s[k], id)
    ensures ResultCount(s, id) >= 2
  {
    if j > 0 { CountAtLeastTwo(s[1..], j - 1, k - 1, id); } else { CountAtLeastOne(s[1..], k - 1, id); }
  }

  lemma {:induction false} CountAtLeastOne(s: seq<Message>, k: nat, id: string)
    requires k < |s| && ResultFor(s[k], id)
    ensures ResultCount(s, id) >= 1
  {
    if k > 0 { CountAtLeastOne(s[1..], k - 1, id); }
  }

  lemma {:induction false} CountSingle(h: seq<Message>, id: string, i: nat)
    requires i <= |h|
    ensures ResultCount(h[i..], id) == ResultsFrom(h, id, i)
    ensures (forall k :: i <= k < |h| ==> !ResultFor(h[k], id)) ==> ResultsFrom(h, id, i) == 0
    decreases |h| - i
  {
    if i < |h| {
      assert h[i..][0] == h[i] && h[i..][1..] == h[i + 1..];
      CountSingle(h, id, i + 1);
    }
  }

  lemma {:induction false} DistinctOnce(calls: seq<ToolCall>, id: string)
    requires DistinctIds(calls)
    ensures CallsFor(calls, id) == if id in CallIds(calls) then 1 else 0
  {
    CallsForNone(calls, id);
    if calls != [] {
      assert DistinctIds(calls[1..]);
      DistinctOnce(calls[1..], id);
      CallsForNone(calls[1..], id);
      IdsCons(calls[0], calls[1..]);
      assert calls == [calls[0]] + calls[1..];
      assert calls[0].id !in CallIds(calls[1..]);
    }
  }

  lemma {:induction false} SynthesizedCount(h: History, id: string)
    requires OneResultEach(h)
    ensures ResultCount(h, id) + ResultCount(Synthesized(h), id) <= 1
  {
    var calls := SynthCalls(Sources(h));
    assert h[0..] == h;
    CountSingle(h, id, 0);
    SingleOwn(h, id, 0);
    GapsOf(h);
    DistinctOnce(calls, id);
    CancelledCount(calls, id);
    if id in CallIds(calls) {
      assert FirstResult(h, id, 0).None?;
    }
  }

  lemma {:induction false} CancelledCount(calls: seq<ToolCall>, id: string)
    ensures ResultCount(CancelledResults(calls), id) == CallsFor(calls, id)
  {
    if calls != [] {
      CancelledCount(calls[1..], id);
      assert CancelledResults(calls)[1..] == CancelledResults(calls[1..]);
    }
  }

  /** With one result to a call in the log, there is still one after close-out, and it stands where it
      belongs: every call has exactly one result, before the next chain-breaking message. */
  lemma {:induction false} SingleResultsStaySingle(h: History)
    requires OneResultEach(h)
    ensures OneResultEach(Closed(h)) && EachOnce(Closed(h))
  {
    var out := Closed(h);
    SingleResultsMoved(h);
    assert h[0..] == h;
    SingleNoneTwice(h, 0);
    ExactlyOneEach(h);
    forall j, k | 0 <= j < k < |out| && out[j].role == Tool && out[j].toolCallId.Some?
      ensures !ResultFor(out[k], out[j].toolCallId.value)
    {
      var id := out[j].toolCallId.value;
      ResultCountBag(out, h + Synthesized(h), id);
      ResultCountAppend(h, Synthesized(h), id);
      SynthesizedCount(h, id);
      if ResultFor(out[k], id) { CountAtLeastTwo(out, j, k, id); }
    }
  }
}
