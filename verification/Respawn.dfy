/** Close-out across respawns: the log is append-only, each respawn reads it, closes it out in
    memory and appends what it synthesized (crates/kernel/src/agent/message_buffer.rs:102-124,
    crates/kernel/src/kernel/conductor.rs:736-744). */
module Respawn {
  import opened Messages
  import opened CloseOut
  import opened CloseOutLaws

  // ---------- calls with and without a result ----------

  function Gaps(res: map<string, nat>, open: seq<ToolCall>): seq<ToolCall> {
    if open == [] then [] else if open[0].id in res then Gaps(res, open[1..]) else [open[0]] + Gaps(res, open[1..])
  }

  function Known(res: map<string, nat>, open: seq<ToolCall>): seq<ToolCall> {
    if open == [] then [] else if open[0].id in res then [open[0]] + Known(res, open[1..]) else Known(res, open[1..])
  }

  lemma {:induction false} GapsKnown(res: map<string, nat>, open: seq<ToolCall>)
    ensures |Gaps(res, open)| + |Known(res, open)| == |open|
    ensures forall p :: 0 <= p < |Gaps(res, open)| ==> Gaps(res, open)[p].id !in res
    ensures forall p :: 0 <= p < |Known(res, open)| ==> Known(res, open)[p].id in res
  {
    if open != [] { GapsKnown(res, open[1..]); }
  }

  lemma {:induction false} GapIds(res: map<string, nat>, open: seq<ToolCall>, id: string)
    ensures id in CallIds(Gaps(res, open)) <==> id in CallIds(open) && id !in res
  {
    if open == [] {
      assert CallIds([]) == {};
    } else {
      GapIds(res, open[1..], id);
      IdsCons(open[0], open[1..]);
      IdsCons(open[0], Gaps(res, open[1..]));
      assert open == [open[0]] + open[1..];
      assert open[0].id in res ==> Gaps(res, open) == Gaps(res, open[1..]);
    }
  }

  lemma {:induction false} IdsCons(c: ToolCall, cs: seq<ToolCall>)
    ensures CallIds([c] + cs) == {c.id} + CallIds(cs)
  {
    var all := [c] + cs;
    forall p | 0 <= p < |cs| ensures cs[p].id in CallIds(all) { assert all[p + 1] == cs[p]; }
    assert all[0] == c;
    forall id | id in CallIds(all) ensures id in {c.id} + CallIds(cs) {
      var p :| 0 <= p < |all| && all[p].id == id;
      if p > 0 { assert cs[p - 1] == all[p]; }
    }
  }

  lemma {:induction false} IdsAppend(a: seq<ToolCall>, b: seq<ToolCall>)
    ensures CallIds(a + b) == CallIds(a) + CallIds(b)
  {
    forall p | 0 <= p < |a| ensures a[p].id in CallIds(a + b) { assert (a + b)[p] == a[p]; }
    forall p | 0 <= p < |b| ensures b[p].id in CallIds(a + b) { assert (a + b)[|a| + p] == b[p]; }
  }

  lemma {:induction false} DistinctAppend(a: seq<ToolCall>, b: seq<ToolCall>)
    requires DistinctIds(a) && DistinctIds(b) && CallIds(a) !! CallIds(b)
    ensures DistinctIds(a + b)
  {
    forall p, q | 0 <= p < q < |a + b| ensures (a + b)[p].id != (a + b)[q].id {
      if p < |a| <= q { assert a[p].id in CallIds(a) && b[q - |a|].id in CallIds(b); }
    }
  }

  lemma {:induction false} GapsDistinct(res: map<string, nat>, open: seq<ToolCall>)
    requires DistinctIds(open)
    ensures DistinctIds(Gaps(res, open))
  {
    if open != [] {
      var rest := open[1..];
      assert DistinctIds(rest);
      GapsDistinct(res, rest);
      GapIds(res, rest, open[0].id);
      assert open[0].id !in CallIds(rest);
      if open[0].id !in res {
        IdsCons(open[0], []);
        assert [open[0]] + [] == [open[0]] && CallIds([]) == {};
        DistinctAppend([open[0]], Gaps(res, rest));
      }
    }
  }

  lemma {:induction false} ResolveGaps(res: map<string, nat>, open: seq<ToolCall>)
    ensures SynthCalls(Resolve(res, open)) == Gaps(res, open)
  {
    if open != [] {
      ResolveGaps(res, open[1..]);
      var r := Resolve(res, open);
      assert r[0] == Resolved(res, open[0]) && r[1..] == Resolve(res, open[1..]);
    }
  }

  // ---------- which calls are synthesized ----------

  /** No batch call with a result in the log is missing from `res`. */
  ghost predicate Covers(h: seq<Message>, res: map<string, nat>) {
    forall k, id :: 0 <= k < |h| && id in BatchIds(h) && ResultFor(h[k], id) ==> id in res
  }

  lemma {:induction false} AheadNext(h: seq<Message>, i: nat, id: string)
    requires i < |h|
    ensures Ahead(h, i, id) <==> id in CallIds(Calls(h[i])) || Ahead(h, i + 1, id)
    ensures !Ahead(h, |h|, id)
  {
  }

  lemma {:induction false} AheadBatch(h: seq<Message>, id: string)
    ensures Ahead(h, 0, id) <==> id in BatchIds(h)
  {
    if Ahead(h, 0, id) {
      var b :| 0 <= b < |h| && id in CallIds(Calls(h[b]));
      var q :| 0 <= q < |Calls(h[b])| && Calls(h[b])[q].id == id;
    }
    if id in BatchIds(h) {
      var j, q :| 0 <= j < |h| && 0 <= q < |Calls(h[j])| && Calls(h[j])[q].id == id;
      assert id in CallIds(Calls(h[j]));
    }
  }

  lemma {:induction false} PaceGaps(h: History, res: map<string, nat>, i: nat, open: seq<ToolCall>, id: string)
    requires i < |h| && DistinctIds(open) && Covers(h, res) && CallIds(open) <= BatchIds(h)
    ensures var step := Pace(h, res, i, open);
            && CallIds(step.open) <= BatchIds(h)
            && SynthCalls(step.emit) == (if Breaker(h[i]) then Gaps(res, open) else [])
            && ((id in CallIds(open) || Ahead(h, i, id)) && id !in res <==>
                  id in CallIds(SynthCalls(step.emit)) ||
                    ((id in CallIds(step.open) || Ahead(h, i + 1, id)) && id !in res))
  {
    if Breaker(h[i]) {
      BreakerGaps(h, res, i, open, id);
    } else {
      QuietGaps(h, res, i, open, id);
    }
  }

  lemma {:induction false} BreakerGaps(h: History, res: map<string, nat>, i: nat, open: seq<ToolCall>, id: string)
    requires i < |h| && Breaker(h[i])
    ensures CallIds(Calls(h[i])) <= BatchIds(h) && SynthCalls(Pace(h, res, i, open).emit) == Gaps(res, open)
    ensures (id in CallIds(open) || Ahead(h, i, id)) && id !in res <==>
              id in CallIds(Gaps(res, open)) || ((id in CallIds(Calls(h[i])) || Ahead(h, i + 1, id)) && id !in res)
  {
    AheadNext(h, i, id);
    ResolveGaps(res, open);
    SynthAppend(Resolve(res, open), [Log(i)]);
    assert SynthCalls([Log(i)]) == [] && Gaps(res, open) + [] == Gaps(res, open);
    GapIds(res, open, id);
    forall q | 0 <= q < |Calls(h[i])| ensures Calls(h[i])[q].id in BatchIds(h) {}
  }

  lemma {:induction false} QuietGaps(h: History, res: map<string, nat>, i: nat, open: seq<ToolCall>, id: string)
    requires i < |h| && !Breaker(h[i]) && DistinctIds(open) && Covers(h, res) && CallIds(open) <= BatchIds(h)
    ensures var step := Pace(h, res, i, open);
            && CallIds(step.open) <= BatchIds(h) && SynthCalls(step.emit) == [] && CallIds([]) == {}
            && ((id in CallIds(open) || Ahead(h, i, id)) && id !in res <==>
                  (id in CallIds(step.open) || Ahead(h, i + 1, id)) && id !in res)
  {
    AheadNext(h, i, id);
    assert CallIds([]) == {} && SynthCalls([Log(i)]) == [];
    var pos := OpenPosition(open, h[i]);
    if h[i].role == Tool && pos.Some? {
      OthersIds(open, pos.value);
      assert open[pos.value].id in CallIds(open);
    }
  }

  /** From i on, an id is synthesized if it is called from here on, or open, and has no result. */
  ghost predicate SynthIs(h: seq<Message>, res: map<string, nat>, i: nat, open: seq<ToolCall>, id: string)
    requires i <= |h|
  {
    id in CallIds(SynthCalls(Settle(h, res, i, open))) <==> (id in CallIds(open) || Ahead(h, i, id)) && id !in res
  }

  /** Exactly the calls without a result in the log are synthesized, */
  lemma {:induction false} SynthIds(h: History, res: map<string, nat>, i: nat, open: seq<ToolCall>, id: string)
    requires i <= |h| && DistinctIds(open) && Covers(h, res) && CallIds(open) <= BatchIds(h)
    ensures SynthIs(h, res, i, open, id)
    decreases |h| - i
  {
    if i == |h| {
      SynthIdsEnd(h, res, open, id);
    } else {
      var next := PaceOpen(h, res, i, open);
      SynthIds(h, res, i + 1, next, id);
      SynthIdsStep(h, res, i, open, next, id);
    }
  }

  lemma {:induction false} PaceOpen(h: History, res: map<string, nat>, i: nat, open: seq<ToolCall>)
    returns (next: seq<ToolCall>)
    requires i < |h| && DistinctIds(open) && Covers(h, res) && CallIds(open) <= BatchIds(h)
    ensures next == Pace(h, res, i, open).open && DistinctIds(next) && CallIds(next) <= BatchIds(h)
  {
    next := PaceDistinct(h, res, i, open);
    PaceGaps(h, res, i, open, "");
  }

  lemma {:induction false} PaceReady(h: History, res: map<string, nat>, i: nat, open: seq<ToolCall>)
    returns (next: seq<ToolCall>)
    requires Ready(h, i, open) && Covers(h, res) && CallIds(open) <= BatchIds(h) && i < |h|
    ensures next == Pace(h, res, i, open).open && Ready(h, i + 1, next) && CallIds(next) <= BatchIds(h)
  {
    next := Pace(h, res, i, open).open;
    ReadyNext(h, res, i, open);
    PaceGaps(h, res, i, open, "");
  }

  lemma {:induction false} SynthIdsEnd(h: History, res: map<string, nat>, open: seq<ToolCall>, id: string)
    ensures SynthIs(h, res, |h|, open, id)
  {
    ResolveGaps(res, open);
    GapIds(res, open, id);
  }

  lemma {:induction false} SynthIdsStep(h: History, res: map<string, nat>, i: nat, open: seq<ToolCall>,
                                        next: seq<ToolCall>, id: string)
    requires i < |h| && DistinctIds(open) && Covers(h, res) && CallIds(open) <= BatchIds(h)
    requires next == Pace(h, res, i, open).open
    requires SynthIs(h, res, i + 1, next, id)
    ensures SynthIs(h, res, i, open, id)
  {
    PaceGaps(h, res, i, open, id);
    SynthStep(h, res, i, open, id);
  }

  lemma {:induction false} SynthStep(h: seq<Message>, res: map<string, nat>, i: nat, open: seq<ToolCall>, id: string)
    requires i < |h|
    ensures var step := Pace(h, res, i, open);
            id in CallIds(SynthCalls(Settle(h, res, i, open))) <==>
              id in CallIds(SynthCalls(step.emit)) || id in CallIds(SynthCalls(Settle(h, res, i + 1, step.open)))
  {
    var step := Pace(h, res, i, open);
    var rest := Settle(h, res, i + 1, step.open);
    SynthAppend(step.emit, rest);
    IdsAppend(SynthCalls(step.emit), SynthCalls(rest));
  }

  /** and each of them once. */
  lemma {:induction false} SynthDistinct(h: History, res: map<string, nat>, i: nat, open: seq<ToolCall>)
    requires Ready(h, i, open) && Covers(h, res) && CallIds(open) <= BatchIds(h)
    ensures DistinctIds(SynthCalls(Settle(h, res, i, open)))
    decreases |h| - i
  {
    if i == |h| {
      ResolveGaps(res, open);
      GapsDistinct(res, open);
    } else {
      var next := PaceReady(h, res, i, open);
      SynthDistinct(h, res, i + 1, next);
      SynthDistinctStep(h, res, i, open, next);
    }
  }

  lemma {:induction false} SynthDistinctStep(h: History, res: map<string, nat>, i: nat, open: seq<ToolCall>,
                                             next: seq<ToolCall>)
    requires Ready(h, i, open) && Covers(h, res) && CallIds(open) <= BatchIds(h) && i < |h|
    requires next == Pace(h, res, i, open).open && DistinctIds(SynthCalls(Settle(h, res, i + 1, next)))
    ensures DistinctIds(SynthCalls(Settle(h, res, i, open)))
  {
    var step := Pace(h, res, i, open);
    var later := SynthCalls(Settle(h, res, i + 1, step.open));
    PaceGaps(h, res, i, open, "");
    SynthAppend(step.emit, Settle(h, res, i + 1, step.open));
    if Breaker(h[i]) {
      GapsDistinct(res, open);
      GapsApart(h, res, i, open);
      DistinctAppend(Gaps(res, open), later);
    } else {
      assert [] + later == later;
    }
  }

  /** What a breaker closes is not synthesized again later. */
  lemma {:induction false} GapsApart(h: History, res: map<string, nat>, i: nat, open: seq<ToolCall>)
    requires Ready(h, i, open) && Covers(h, res) && CallIds(open) <= BatchIds(h) && i < |h| && Breaker(h[i])
    ensures CallIds(Gaps(res, open)) !! CallIds(SynthCalls(Settle(h, res, i + 1, Calls(h[i]))))
  {
    forall id | id in CallIds(Gaps(res, open)) ensures id !in CallIds(SynthCalls(Settle(h, res, i + 1, Calls(h[i])))) {
      GapIds(res, open, id);
      OpenNotAhead(h, i, open, id);
      NotSynthesizedLater(h, res, i, open, id);
    }
  }

  lemma {:induction false} NotSynthesizedLater(h: History, res: map<string, nat>, i: nat, open: seq<ToolCall>,
                                               id: string)
    requires Ready(h, i, open) && Covers(h, res) && CallIds(open) <= BatchIds(h) && i < |h| && Breaker(h[i])
    requires id !in CallIds(Calls(h[i])) && !Ahead(h, i + 1, id)
    ensures id !in CallIds(SynthCalls(Settle(h, res, i + 1, Calls(h[i]))))
  {
    var next := PaceReady(h, res, i, open);
    SynthIds(h, res, i + 1, next, id);
  }

  lemma {:induction false} OpenNotAhead(h: History, i: nat, open: seq<ToolCall>, id: string)
    requires Ready(h, i, open) && i < |h| && id in CallIds(open)
    ensures id !in CallIds(Calls(h[i])) && !Ahead(h, i + 1, id)
  {
  }
}
