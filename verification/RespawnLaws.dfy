/** The append-only log settles: what a respawn synthesizes, the next one finds. */
module RespawnLaws {
  import opened Messages
  import opened CloseOut
  import opened CloseOutLaws
  import opened Respawn
  import opened Sequences

  // ---------- the walk up to its final close-out ----------

  function Rest(h: seq<Message>, res: map<string, nat>, i: nat, open: seq<ToolCall>): seq<ToolCall>
    requires i <= |h|
    decreases |h| - i
  {
    if i == |h| then open else Rest(h, res, i + 1, Pace(h, res, i, open).open)
  }

  function Before(h: seq<Message>, res: map<string, nat>, i: nat, open: seq<ToolCall>): seq<Message>
    requires i <= |h| && Indexes(h, res)
    decreases |h| - i
  {
    if i == |h| then [] else Emitted(h, res, i, open) + Before(h, res, i + 1, Pace(h, res, i, open).open)
  }

  function GapsBefore(h: seq<Message>, res: map<string, nat>, i: nat, open: seq<ToolCall>): seq<ToolCall>
    requires i <= |h|
    decreases |h| - i
  {
    if i == |h| then []
    else (if Breaker(h[i]) then Gaps(res, open) else []) + GapsBefore(h, res, i + 1, Pace(h, res, i, open).open)
  }

  lemma {:induction false} AfterSplits(h: seq<Message>, res: map<string, nat>, i: nat, open: seq<ToolCall>)
    requires i <= |h| && Indexes(h, res)
    ensures After(h, res, i, open) == Before(h, res, i, open) + Answered(h, res, Rest(h, res, i, open))
    decreases |h| - i
  {
    if i < |h| {
      var next := Pace(h, res, i, open).open;
      AfterSplits(h, res, i + 1, next);
      Regrouped(Emitted(h, res, i, open), Before(h, res, i + 1, next), Answered(h, res, Rest(h, res, i + 1, next)));
    }
  }

  lemma {:induction false} EmitGaps(h: seq<Message>, res: map<string, nat>, i: nat, open: seq<ToolCall>)
    requires i < |h|
    ensures SynthCalls(Pace(h, res, i, open).emit) == if Breaker(h[i]) then Gaps(res, open) else []
  {
    assert SynthCalls([Log(i)]) == [];
    if Breaker(h[i]) {
      ResolveGaps(res, open);
      SynthAppend(Resolve(res, open), [Log(i)]);
      assert Gaps(res, open) + [] == Gaps(res, open);
    }
  }

  lemma {:induction false} SynthSplits(h: seq<Message>, res: map<string, nat>, i: nat, open: seq<ToolCall>)
    requires i <= |h|
    ensures SynthCalls(Settle(h, res, i, open)) == GapsBefore(h, res, i, open) + Gaps(res, Rest(h, res, i, open))
    decreases |h| - i
  {
    if i == |h| {
      ResolveGaps(res, open);
    } else {
      var step := Pace(h, res, i, open);
      SynthSplits(h, res, i + 1, step.open);
      EmitGaps(h, res, i, open);
      SynthAppend(step.emit, Settle(h, res, i + 1, step.open));
      Regrouped(if Breaker(h[i]) then Gaps(res, open) else [], GapsBefore(h, res, i + 1, step.open),
                Gaps(res, Rest(h, res, i + 1, step.open)));
    }
  }

  // ---------- the same walk on a longer log ----------

  /** `res` covers the open calls and those of every batch from i on. */
  predicate Knows(h: seq<Message>, res: map<string, nat>, i: nat, open: seq<ToolCall>) {
    && (forall p :: 0 <= p < |open| ==> open[p].id in res)
    && (forall b, q :: i <= b < |h| && 0 <= q < |Calls(h[b])| ==> Calls(h[b])[q].id in res)
  }

  lemma {:induction false} KnowsNext(h: seq<Message>, res: map<string, nat>, i: nat, open: seq<ToolCall>)
    requires i < |h| && Knows(h, res, i, open)
    ensures Knows(h, res, i + 1, Pace(h, res, i, open).open)
  {
  }

  lemma {:induction false} NoGaps(res: map<string, nat>, open: seq<ToolCall>)
    requires forall p :: 0 <= p < |open| ==> open[p].id in res
    ensures Gaps(res, open) == [] && Known(res, open) == open
  {
    if open != [] { NoGaps(res, open[1..]); }
  }

  lemma {:induction false} NothingSynthesized(h: seq<Message>, res: map<string, nat>, i: nat, open: seq<ToolCall>)
    requires i <= |h| && Knows(h, res, i, open)
    ensures SynthCalls(Settle(h, res, i, open)) == []
    decreases |h| - i
  {
    NoGaps(res, open);
    if i == |h| {
      ResolveGaps(res, open);
    } else {
      var step := Pace(h, res, i, open);
      KnowsNext(h, res, i, open);
      NothingSynthesized(h, res, i + 1, step.open);
      EmitGaps(h, res, i, open);
      SynthAppend(step.emit, Settle(h, res, i + 1, step.open));
    }
  }

  /** The longer log h2 holds, past the end of h, a cancelled result for every id `more` adds. */
  ghost predicate LogExtends(h: seq<Message>, res: map<string, nat>, h2: seq<Message>, more: map<string, nat>) {
    && Indexes(h, res) && Indexes(h2, more) && h <= h2
    && (forall id :: id in res ==> id in more && more[id] == res[id])
    && (forall id :: id in more && id !in res ==> more[id] >= |h| && h2[more[id]] == CancelledResult(id))
  }

  lemma {:induction false} SameAnswers(h: seq<Message>, res: map<string, nat>, h2: seq<Message>,
                                       more: map<string, nat>, open: seq<ToolCall>)
    requires LogExtends(h, res, h2, more) && forall p :: 0 <= p < |open| ==> open[p].id in more
    ensures Answered(h2, more, open) == Answered(h, res, open)
  {
    if open != [] { SameAnswers(h, res, h2, more, open[1..]); }
  }

  lemma {:induction false} SamePace(h: seq<Message>, res: map<string, nat>, h2: seq<Message>, more: map<string, nat>,
                                    i: nat, open: seq<ToolCall>)
    requires LogExtends(h, res, h2, more) && i < |h|
    requires forall p :: 0 <= p < |open| ==> open[p].id in more
    ensures Pace(h2, more, i, open).open == Pace(h, res, i, open).open
    ensures Emitted(h2, more, i, open) == Emitted(h, res, i, open)
  {
    SameAnswers(h, res, h2, more, open);
    assert h2[i] == h[i];
  }

  lemma {:induction false} Grown(h: seq<Message>, res: map<string, nat>, h2: seq<Message>, more: map<string, nat>,
                                 i: nat, open: seq<ToolCall>)
    requires LogExtends(h, res, h2, more) && i <= |h| && Knows(h, more, i, open)
    ensures After(h2, more, i, open) == Before(h, res, i, open) + After(h2, more, |h|, Rest(h, res, i, open))
    decreases |h| - i
  {
    if i < |h| {
      var next := Pace(h, res, i, open).open;
      SamePace(h, res, h2, more, i, open);
      KnowsPace(h, res, more, i, open);
      Grown(h, res, h2, more, i + 1, next);
      Regrouped(Emitted(h, res, i, open), Before(h, res, i + 1, next), After(h2, more, |h|, Rest(h, res, i + 1, next)));
    }
  }

  lemma {:induction false} KnowsPace(h: seq<Message>, res: map<string, nat>, more: map<string, nat>, i: nat,
                                     open: seq<ToolCall>)
    requires i < |h| && Knows(h, more, i, open)
    ensures Knows(h, more, i + 1, Pace(h, res, i, open).open)
  {
  }

  // ---------- the appended results ----------

  /** Message k is the matched result of a call that is no longer open. */
  predicate MovedAlready(h2: seq<Message>, more: map<string, nat>, open: seq<ToolCall>, k: nat) {
    k < |h2| && Matched(h2, more, k) && h2[k].toolCallId.value !in CallIds(open)
  }

  /** Results of batches closed earlier have been moved there already. */
  lemma {:induction false} TailSkipped(h2: seq<Message>, more: map<string, nat>, j: nat, end: nat, open: seq<ToolCall>)
    requires Indexes(h2, more) && j <= end <= |h2|
    requires forall k: nat :: j <= k < end ==> MovedAlready(h2, more, open, k)
    ensures After(h2, more, j, open) == After(h2, more, end, open)
    decreases end - j
  {
    if j < end {
      OneSkipped(h2, more, j, open);
      TailSkipped(h2, more, j + 1, end, open);
    }
  }

  lemma {:induction false} NotOpen(open: seq<ToolCall>, m: Message)
    requires m.toolCallId.Some? && m.toolCallId.value !in CallIds(open)
    ensures OpenPosition(open, m).None?
  {
    forall p | 0 <= p < |open| ensures open[p].id != m.toolCallId.value {
      assert open[p].id in CallIds(open);
    }
  }

  lemma {:induction false} OneSkipped(h2: seq<Message>, more: map<string, nat>, j: nat, open: seq<ToolCall>)
    requires Indexes(h2, more) && MovedAlready(h2, more, open, j)
    ensures After(h2, more, j, open) == After(h2, more, j + 1, open)
  {
    NotOpen(open, h2[j]);
    assert Emitted(h2, more, j, open) == [];
    assert [] + After(h2, more, j + 1, open) == After(h2, more, j + 1, open);
  }

  lemma {:induction false} GapsWithout(res: map<string, nat>, open: seq<ToolCall>, pos: nat)
    requires DistinctIds(open) && pos < |open| && Gaps(res, open) != [] && open[pos].id == Gaps(res, open)[0].id
    ensures Gaps(res, Without(open, pos)) == Gaps(res, open)[1..]
    ensures Known(res, Without(open, pos)) == Known(res, open)
    ensures DistinctIds(Without(open, pos))
  {
    var others := Without(open, pos);
    GapsKnown(res, open);
    assert open[pos].id !in res;
    if pos == 0 {
      assert others == open[1..];
    } else {
      WithoutTail(open, pos);
      assert open[0].id in res;
      GapsWithout(res, open[1..], pos - 1);
      WithoutDistinct(open, pos);
    }
  }

  lemma {:induction false} WithoutDistinct(open: seq<ToolCall>, pos: nat)
    requires DistinctIds(open) && pos < |open|
    ensures DistinctIds(Without(open, pos))
  {
  }

  lemma {:induction false} WithoutTail(open: seq<ToolCall>, pos: nat)
    requires 0 < pos < |open|
    ensures var others := Without(open, pos); others[0] == open[0] && others[1..] == Without(open[1..], pos - 1)
    ensures DistinctIds(open) ==> DistinctIds(open[1..])
  {
  }

  lemma {:induction false} NextGap(res: map<string, nat>, open: seq<ToolCall>, m: Message)
    requires DistinctIds(open) && Gaps(res, open) != [] && m == CancelledResult(Gaps(res, open)[0].id)
    ensures OpenPosition(open, m).Some?
    ensures var others := Without(open, OpenPosition(open, m).value);
            DistinctIds(others) && Gaps(res, others) == Gaps(res, open)[1..] && Known(res, others) == Known(res, open)
  {
    var id := Gaps(res, open)[0].id;
    GapIds(res, open, id);
    assert id in CallIds(Gaps(res, open));
    var p :| 0 <= p < |open| && open[p].id == id;
    GapsWithout(res, open, OpenPosition(open, m).value);
  }

  lemma {:induction false} Regroup(s: seq<Message>, j: nat, tail: seq<Message>)
    requires j < |s|
    ensures [s[j]] + (s[j + 1..] + tail) == s[j..] + tail
  {
  }

  /** The results appended for the batch still open pair up in place. */
  lemma {:induction false} TailPaired(h2: seq<Message>, more: map<string, nat>, res: map<string, nat>, j: nat,
                                      open: seq<ToolCall>)
    requires Indexes(h2, more) && DistinctIds(open) && j <= |h2|
    requires h2[j..] == CancelledResults(Gaps(res, open))
    ensures After(h2, more, j, open) == h2[j..] + Answered(h2, more, Known(res, open))
    decreases |h2| - j
  {
    if j == |h2| {
      KnownOnly(res, open);
    } else {
      assert h2[j] == h2[j..][0] && h2[j + 1..] == h2[j..][1..];
      NextGap(res, open, h2[j]);
      var gaps := Gaps(res, open);
      assert CancelledResults(gaps)[1..] == CancelledResults(gaps[1..]);
      var others := Pace(h2, more, j, open).open;
      TailPaired(h2, more, res, j + 1, others);
      Regroup(h2, j, Answered(h2, more, Known(res, open)));
    }
  }

  lemma {:induction false} KnownOnly(res: map<string, nat>, open: seq<ToolCall>)
    requires Gaps(res, open) == []
    ensures Known(res, open) == open
  {
    if open != [] {
      assert open[0].id in res;
      KnownOnly(res, open[1..]);
      assert open == [open[0]] + open[1..];
    }
  }

  // ---------- when does the second read give the same history? ----------

  /** No call that has a result stands before one that has none. */
  predicate GapsFirst(res: map<string, nat>, open: seq<ToolCall>) {
    forall p, q :: 0 <= p < q < |open| && open[q].id !in res ==> open[p].id !in res
  }

  lemma {:induction false} GapsFirstOrder(res: map<string, nat>, open: seq<ToolCall>)
    requires GapsFirst(res, open)
    ensures open == Gaps(res, open) + Known(res, open)
  {
    if open != [] {
      assert GapsFirst(res, open[1..]);
      if open[0].id in res {
        NoGaps(res, open);
      } else {
        GapsFirstOrder(res, open[1..]);
      }
    }
  }

  lemma {:induction false} AnsweredAt(h: seq<Message>, res: map<string, nat>, open: seq<ToolCall>, p: nat)
    requires Indexes(h, res) && p < |open|
    ensures Answered(h, res, open)[p] == Answer(h, res, open[p])
  {
    if p > 0 { AnsweredAt(h, res, open[1..], p - 1); }
  }

  lemma {:induction false} AnsweredAppend(h: seq<Message>, res: map<string, nat>, a: seq<ToolCall>, b: seq<ToolCall>)
    requires Indexes(h, res)
    ensures Answered(h, res, a + b) == Answered(h, res, a) + Answered(h, res, b)
  {
    if a == [] {
      assert a + b == b;
    } else {
      AnsweredAppend(h, res, a[1..], b);
      assert (a + b)[0] == a[0] && (a + b)[1..] == a[1..] + b;
    }
  }

  lemma {:induction false} AnsweredGaps(h: seq<Message>, res: map<string, nat>, gaps: seq<ToolCall>)
    requires Indexes(h, res) && forall p :: 0 <= p < |gaps| ==> gaps[p].id !in res
    ensures Answered(h, res, gaps) == CancelledResults(gaps)
  {
    forall p | 0 <= p < |gaps| ensures Answered(h, res, gaps)[p] == CancelledResults(gaps)[p] {
      AnsweredAt(h, res, gaps, p);
    }
  }

  lemma {:induction false} SameOrderIff(h: seq<Message>, res: map<string, nat>, open: seq<ToolCall>)
    requires Indexes(h, res)
    ensures CancelledResults(Gaps(res, open)) + Answered(h, res, Known(res, open)) == Answered(h, res, open) <==>
              GapsFirst(res, open)
  {
    var gaps, known := Gaps(res, open), Known(res, open);
    GapsKnown(res, open);
    AnsweredGaps(h, res, gaps);
    AnsweredAppend(h, res, gaps, known);
    if GapsFirst(res, open) {
      GapsFirstOrder(res, open);
    } else {
      OtherOrder(h, res, open, gaps, known);
    }
  }

  lemma {:induction false} OtherOrder(h: seq<Message>, res: map<string, nat>, open: seq<ToolCall>,
                                      gaps: seq<ToolCall>, known: seq<ToolCall>)
    requires Indexes(h, res) && !GapsFirst(res, open) && |gaps| + |known| == |open|
    requires forall p :: 0 <= p < |gaps| ==> gaps[p].id !in res
    requires forall p :: 0 <= p < |known| ==> known[p].id in res
    ensures Answered(h, res, gaps + known) != Answered(h, res, open)
  {
    var p, q :| 0 <= p < q < |open| && open[q].id !in res && open[p].id in res;
    AnsweredAt(h, res, open, p);
    AnsweredAt(h, res, open, q);
    AnsweredAt(h, res, gaps + known, p);
    AnsweredAt(h, res, gaps + known, q);
  }

  // ---------- the grown log ----------

  function Grow(h: seq<Message>): seq<Message> {
    h + Synthesized(h)
  }

  lemma {:induction false} ResultsCover(h: seq<Message>)
    ensures Covers(h, Results(h))
  {
  }

  lemma {:induction false} TailHas(h: seq<Message>, t: nat)
    requires t < |SynthCalls(Sources(h))|
    ensures Grow(h)[|h| + t] == CancelledResult(SynthCalls(Sources(h))[t].id)
  {
  }

  lemma {:induction false} GapsOf(h: History)
    ensures DistinctIds(SynthCalls(Sources(h)))
    ensures forall id :: id in CallIds(SynthCalls(Sources(h))) <==> id in BatchIds(h) && id !in Results(h)
  {
    ClosedIsAfter(h);
    ResultsCover(h);
    assert CallIds([]) == {};
    SynthDistinct(h, Results(h), 0, []);
    forall id ensures id in CallIds(SynthCalls(Sources(h))) <==> id in BatchIds(h) && id !in Results(h) {
      SynthIds(h, Results(h), 0, [], id);
      AheadBatch(h, id);
    }
  }

  lemma {:induction false} GrowDistinct(h: History)
    ensures DistinctCallIds(Grow(h)) && BatchIds(Grow(h)) == BatchIds(h)
  {
    var h2 := Grow(h);
    assert forall k :: 0 <= k < |h| ==> h2[k] == h[k];
    forall k | |h| <= k < |h2| ensures Calls(h2[k]) == [] {
      TailHas(h, k - |h|);
    }
  }

  /** A call synthesized on the first read finds its result at the end of the grown log. */
  lemma {:induction false} GapFound(h: History, t: nat)
    requires t < |SynthCalls(Sources(h))|
    ensures var id := SynthCalls(Sources(h))[t].id;
            id in Results(Grow(h)) && Results(Grow(h))[id] == |h| + t
  {
    var gaps, h2 := SynthCalls(Sources(h)), Grow(h);
    var id := gaps[t].id;
    GapsOf(h);
    GrowDistinct(h);
    assert id in CallIds(gaps);
    TailHas(h, t);
    forall k | 0 <= k < |h| + t ensures !ResultFor(h2[k], id) {
      if k < |h| {
        assert h2[k] == h[k] && FirstResult(h, id, 0).None?;
      } else {
        TailHas(h, k - |h|);
      }
    }
    assert ResultFor(h2[|h| + t], id);
  }

  lemma {:induction false} ResultStays(h: History, id: string)
    requires id in Results(h)
    ensures id in Results(Grow(h)) && Results(Grow(h))[id] == Results(h)[id]
  {
    var h2 := Grow(h);
    GrowDistinct(h);
    var k := Results(h)[id];
    assert FirstResult(h, id, 0) == Some(k) && h2[k] == h[k];
    var first := FirstResult(h2, id, 0);
    assert first.Some? && first.value <= k;
    assert h2[first.value] == h[first.value];
  }

  lemma {:induction false} GrowExtends(h: History)
    ensures LogExtends(h, Results(h), Grow(h), Results(Grow(h)))
    ensures forall id :: id in BatchIds(h) ==> id in Results(Grow(h))
  {
    var h2, res, more := Grow(h), Results(h), Results(Grow(h));
    GrowDistinct(h);
    forall id | id in res ensures id in more && more[id] == res[id] { ResultStays(h, id); }
    forall id | id in BatchIds(h) ensures id in more
        && (id !in res ==> more[id] >= |h| && h2[more[id]] == CancelledResult(id))
    {
      if id in res {
        ResultStays(h, id);
      } else {
        GapsOf(h);
        var gaps := SynthCalls(Sources(h));
        assert id in CallIds(gaps);
        var t :| 0 <= t < |gaps| && gaps[t].id == id;
        GapFound(h, t);
        TailHas(h, t);
      }
    }
  }

  lemma {:induction false} BatchesKnown(h: seq<Message>, more: map<string, nat>)
    requires forall id :: id in BatchIds(h) ==> id in more
    ensures Knows(h, more, 0, [])
  {
  }

  /** What is still open when the log ends. */
  function OpenAtEnd(h: seq<Message>): seq<ToolCall> {
    Rest(h, Results(h), 0, [])
  }

  lemma {:induction false} RestReady(h: History, res: map<string, nat>, i: nat, open: seq<ToolCall>)
    requires Ready(h, i, open)
    ensures DistinctIds(Rest(h, res, i, open))
    decreases |h| - i
  {
    if i < |h| {
      ReadyNext(h, res, i, open);
      RestReady(h, res, i + 1, Pace(h, res, i, open).open);
    }
  }

  lemma {:induction false} DistinctSplit(a: seq<ToolCall>, b: seq<ToolCall>)
    requires DistinctIds(a + b)
    ensures CallIds(a) !! CallIds(b)
  {
    forall p, q | 0 <= p < |a| && 0 <= q < |b| ensures a[p].id != b[q].id {
      assert a[p] == (a + b)[p] && b[q] == (a + b)[|a| + q];
    }
  }

  /** The calls closed before the end are not open at the end. */
  lemma {:induction false} ClosedApart(h: History)
    ensures CallIds(GapsBefore(h, Results(h), 0, [])) !! CallIds(OpenAtEnd(h)) - Results(h).Keys
  {
    var res := Results(h);
    var gaps, last := GapsBefore(h, res, 0, []), Gaps(res, OpenAtEnd(h));
    ClosedIsAfter(h);
    SynthSplits(h, res, 0, []);
    GapsOf(h);
    DistinctSplit(gaps, last);
    forall id | id in CallIds(OpenAtEnd(h)) && id !in res ensures id in CallIds(last) {
      GapIds(res, OpenAtEnd(h), id);
    }
  }

  lemma {:induction false} TailParts(h: History)
    ensures SynthCalls(Sources(h)) == GapsBefore(h, Results(h), 0, []) + Gaps(Results(h), OpenAtEnd(h))
  {
    ClosedIsAfter(h);
    SynthSplits(h, Results(h), 0, []);
  }

  lemma {:induction false} ClosedTail(h: History, k: nat)
    requires |h| <= k < |h| + |GapsBefore(h, Results(h), 0, [])|
    ensures MovedAlready(Grow(h), Results(Grow(h)), OpenAtEnd(h), k)
  {
    var gap := GapsBefore(h, Results(h), 0, [])[k - |h|];
    GapPlaced(h, k - |h|, gap);
    MovedAt(Grow(h), Results(Grow(h)), OpenAtEnd(h), k, gap.id);
  }

  lemma {:induction false} GapPlaced(h: History, t: nat, gap: ToolCall)
    requires t < |GapsBefore(h, Results(h), 0, [])| && gap == GapsBefore(h, Results(h), 0, [])[t]
    ensures |h| + t < |Grow(h)| && Grow(h)[|h| + t] == CancelledResult(gap.id)
    ensures gap.id in Results(Grow(h)) && Results(Grow(h))[gap.id] == |h| + t && gap.id !in CallIds(OpenAtEnd(h))
  {
    TailParts(h);
    assert SynthCalls(Sources(h))[t] == gap;
    GapFound(h, t);
    TailHas(h, t);
    GapNotOpen(h, t, gap);
  }

  lemma {:induction false} GapNotOpen(h: History, t: nat, gap: ToolCall)
    requires t < |GapsBefore(h, Results(h), 0, [])| && gap == GapsBefore(h, Results(h), 0, [])[t]
    ensures gap.id !in CallIds(OpenAtEnd(h))
  {
    TailParts(h);
    var all := SynthCalls(Sources(h));
    assert all[t] == gap && gap.id in CallIds(all) && gap.id in CallIds(GapsBefore(h, Results(h), 0, []));
    GapsOf(h);
    ClosedApart(h);
  }

  lemma {:induction false} MovedAt(h2: seq<Message>, more: map<string, nat>, open: seq<ToolCall>, k: nat, id: string)
    requires k < |h2| && h2[k] == CancelledResult(id) && id in more && more[id] == k && id !in CallIds(open)
    ensures MovedAlready(h2, more, open, k)
  {
  }

  lemma {:induction false} OpenTail(h: History)
    ensures var end := |h| + |GapsBefore(h, Results(h), 0, [])|;
            end <= |Grow(h)| && Grow(h)[end..] == CancelledResults(Gaps(Results(h), OpenAtEnd(h)))
  {
    TailParts(h);
    var gaps, last := GapsBefore(h, Results(h), 0, []), Gaps(Results(h), OpenAtEnd(h));
    CancelledAppend(gaps, last);
    Dropped(h, CancelledResults(gaps), CancelledResults(last));
  }

  lemma {:induction false} CancelledAppend(a: seq<ToolCall>, b: seq<ToolCall>)
    ensures CancelledResults(a + b) == CancelledResults(a) + CancelledResults(b)
  {
  }

  lemma {:induction false} OpenTailPaired(h: History, h2: seq<Message>, more: map<string, nat>, end: nat)
    requires Indexes(h2, more) && end <= |h2|
    requires h2[end..] == CancelledResults(Gaps(Results(h), OpenAtEnd(h)))
    ensures After(h2, more, end, OpenAtEnd(h)) == h2[end..] + Answered(h2, more, Known(Results(h), OpenAtEnd(h)))
  {
    RestReady(h, Results(h), 0, []);
    TailPaired(h2, more, Results(h), end, OpenAtEnd(h));
  }

  /** The appended results: those of closed batches are skipped, those of the open one pair up. */
  lemma {:induction false} TailSettles(h: History)
    ensures var h2, more, open := Grow(h), Results(Grow(h)), OpenAtEnd(h);
            After(h2, more, |h|, open) ==
              CancelledResults(Gaps(Results(h), open)) + Answered(h2, more, Known(Results(h), open))
  {
    var h2, more, open := Grow(h), Results(Grow(h)), OpenAtEnd(h);
    var end := |h| + |GapsBefore(h, Results(h), 0, [])|;
    OpenTail(h);
    forall k: nat | |h| <= k < end ensures MovedAlready(h2, more, open, k) {
      ClosedTail(h, k);
    }
    TailSkipped(h2, more, |h|, end, open);
    OpenTailPaired(h, h2, more, end);
  }

  lemma {:induction false} KnownAnswers(h: History)
    ensures var known := Known(Results(h), OpenAtEnd(h));
            Answered(Grow(h), Results(Grow(h)), known) == Answered(h, Results(h), known)
  {
    GrowExtends(h);
    GapsKnown(Results(h), OpenAtEnd(h));
    SameAnswers(h, Results(h), Grow(h), Results(Grow(h)), Known(Results(h), OpenAtEnd(h)));
  }

  /** On distinct call ids, a respawn that reads the log with the earlier respawn's additions
      synthesizes nothing. */
  lemma {:induction false} SecondReadSynthesizesNothing(h: History)
    ensures DistinctCallIds(Grow(h)) && Synthesized(Grow(h)) == []
  {
    var h2 := Grow(h);
    GrowDistinct(h);
    GrowExtends(h);
    BatchesKnown(h2, Results(h2));
    ClosedIsAfter(h2);
    NothingSynthesized(h2, Results(h2), 0, []);
  }

  /** It sees the same history as before exactly when, among the calls still open at the end of
      the log, none that has a result (which then stands ahead of its batch) precedes one that
      has none. */
  lemma {:induction false} SecondReadSameHistory(h: History)
    ensures Closed(Grow(h)) == Closed(h) <==> GapsFirst(Results(h), OpenAtEnd(h))
  {
    var res, h2, more, open := Results(h), Grow(h), Results(Grow(h)), OpenAtEnd(h);
    GrowDistinct(h);
    GrowExtends(h);
    BatchesKnown(h, more);
    ClosedIsAfter(h);
    ClosedIsAfter(h2);
    AfterSplits(h, res, 0, []);
    Grown(h, res, h2, more, 0, []);
    TailSettles(h);
    KnownAnswers(h);
    SameOrderIff(h, res, open);
    var before := Before(h, res, 0, []);
    var first, second := Answered(h, res, open), CancelledResults(Gaps(res, open)) + Answered(h, res, Known(res, open));
    assert Closed(h) == before + first && Closed(h2) == before + second;
    if Closed(h2) == Closed(h) {
      assert first == Closed(h)[|before|..] && second == Closed(h2)[|before|..];
    }
  }

  /** The log after n respawns. */
  function Respawned(h: seq<Message>, n: nat): seq<Message> {
    if n == 0 then h else Grow(Respawned(h, n - 1))
  }

  lemma {:induction false} GrowOnce(h: History)
    ensures Grow(Grow(h)) == Grow(h)
  {
    SecondReadSynthesizesNothing(h);
  }

  /** However often the session respawns, its log grows at most once. */
  lemma {:induction false} LogSettles(h: History, n: nat)
    requires n >= 1
    ensures Respawned(h, n) == Grow(h)
  {
    RespawnedNext(h, n - 1);
    if n > 1 {
      LogSettles(h, n - 1);
      GrowOnce(h);
    }
  }

  lemma {:induction false} RespawnedNext(h: seq<Message>, n: nat)
    ensures Respawned(h, n + 1) == Grow(Respawned(h, n)) && Respawned(h, 0) == h
  {
  }
}
