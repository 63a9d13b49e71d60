/** When the log stops growing, for every history: also those in which calls share an id
    (crates/kernel/src/agent/message_buffer.rs:102-223). */
module RepeatedIds {
  import opened Messages
  import opened CloseOut
  import opened CloseOutLaws
  import opened Respawn
  import opened RespawnLaws
  import opened CallLedger

  // ---------- calls without a result of their own ----------

  predicate BreakerFrom(h: seq<Message>, i: nat) {
    exists k :: i <= k < |h| && Breaker(h[k])
  }

  /** The calls for an id that message b makes and its own segment leaves without a result. */
  function Short(h: seq<Message>, id: string, b: nat): nat
    requires b < |h|
  {
    Minus(CallsFor(Calls(h[b]), id), OwnResults(h[b + 1..], id))
  }

  /** Of these, those of messages from i on that have a chain-breaking message after them. */
  function Unmet(h: seq<Message>, id: string, i: nat): nat
    requires i <= |h|
    decreases |h| - i
  {
    if i == |h| then 0
    else (if Breaker(h[i]) && BreakerFrom(h, i + 1) then Short(h, id, i) else 0) + Unmet(h, id, i + 1)
  }

  /** The calls for an id made by the last chain-breaking message before n, */
  function CallsAt(h: seq<Message>, id: string, n: nat): nat
    requires n <= |h|
  {
    if n == 0 then 0 else if Breaker(h[n - 1]) then CallsFor(Calls(h[n - 1]), id) else CallsAt(h, id, n - 1)
  }

  /** and by those before it. */
  function CallsBefore(h: seq<Message>, id: string, n: nat): nat
    requires n <= |h|
  {
    if n == 0 then 0
    else CallsBefore(h, id, n - 1) + if Breaker(h[n - 1]) then CallsAt(h, id, n - 1) else 0
  }

  /** The first result for the id, if there is one, is not needed where it stands: it stands in no batch
      of the id or, after an earlier call for it, in a batch that is the last or has enough results after it. */
  ghost predicate Spare(h: seq<Message>, id: string) {
    var first := FirstResult(h, id, 0);
    first.Some? ==>
      var n := CallsAt(h, id, first.value);
      || n == 0
      || (CallsBefore(h, id, first.value) > 0 && OwedCalls(h, id, first.value + 1, n) == 0)
  }

  /** No call for the id stays without a result in its own closed segment, but for one that the first
      result for the id can serve. */
  ghost predicate Quiet(h: seq<Message>, id: string) {
    Unmet(h, id, 0) == 0 || (Unmet(h, id, 0) == 1 && Spare(h, id))
  }

  // ---------- the ledger, in terms of segments ----------

  /** Of n calls open at i, those that the rest of their segment, if it is closed, leaves without a result. */
  function OwedCalls(h: seq<Message>, id: string, i: nat, n: nat): nat
    requires i <= |h|
  {
    if BreakerFrom(h, i) then Minus(n, OwnResults(h[i..], id)) else 0
  }

  lemma {:induction false} OwedNext(h: seq<Message>, id: string, i: nat, n: nat)
    requires i < |h|
    ensures Breaker(h[i]) ==> OwedCalls(h, id, i, n) == n
    ensures !Breaker(h[i]) ==>
              OwedCalls(h, id, i, n) == OwedCalls(h, id, i + 1, if ResultFor(h[i], id) then Minus(n, 1) else n)
    ensures Unmet(h, id, i) ==
              (if Breaker(h[i]) then OwedCalls(h, id, i + 1, CallsFor(Calls(h[i]), id)) else 0) + Unmet(h, id, i + 1)
  {
    assert h[i..][0] == h[i] && h[i..][1..] == h[i + 1..];
    assert Breaker(h[i]) ==> BreakerFrom(h, i);
    assert !Breaker(h[i]) ==> (BreakerFrom(h, i) <==> BreakerFrom(h, i + 1));
  }

  lemma {:induction false} OwedNone(h: seq<Message>, id: string, i: nat)
    requires i <= |h|
    ensures OwedCalls(h, id, i, 0) == 0
  {
  }

  lemma {:induction false} OwedAtEnd(h: seq<Message>, id: string, n: nat)
    ensures OwedCalls(h, id, |h|, n) == 0
  {
    assert !BreakerFrom(h, |h|);
  }

  /** Without a first result to take, closed segments pay for all they leave open. */
  lemma {:induction false} WalkPays(h: seq<Message>, id: string, first: Option<nat>, i: nat, l: Ledger)
    requires i <= |h| && (first.None? || (l.used && first.value < i))
    ensures Walk(h, id, first, i, |h|, l).made == l.made + OwedCalls(h, id, i, l.open) + Unmet(h, id, i)
    decreases |h| - i
  {
    if i == |h| {
      OwedAtEnd(h, id, l.open);
    } else {
      OwedNext(h, id, i, l.open);
      OwedNone(h, id, i);
      OwedNone(h, id, i + 1);
      WalkPays(h, id, first, i + 1, LedgerStep(h, id, first, i, l));
    }
  }

  /** A first result passed over is left for the first call that needs it. */
  lemma {:induction false} WalkTakes(h: seq<Message>, id: string, first: Option<nat>, i: nat, l: Ledger)
    requires i <= |h| && first.Some? && first.value < i && !l.used
    ensures Walk(h, id, first, i, |h|, l).made == l.made + Minus(OwedCalls(h, id, i, l.open) + Unmet(h, id, i), 1)
    decreases |h| - i
  {
    if i == |h| {
      OwedAtEnd(h, id, l.open);
    } else {
      OwedNext(h, id, i, l.open);
      OwedNone(h, id, i);
      var next := LedgerStep(h, id, first, i, l);
      if next.used {
        WalkPays(h, id, first, i + 1, next);
      } else {
        OwedNone(h, id, i + 1);
        WalkTakes(h, id, first, i + 1, next);
      }
    }
  }

  /** Up to the first result, calls are answered by nothing but that one. */
  lemma {:induction false} WalkToFirst(h: seq<Message>, id: string, f: nat, n: nat)
    requires n <= f < |h| && forall k :: 0 <= k < f ==> !ResultFor(h[k], id)
    ensures var closed := CallsBefore(h, id, n);
            Walk(h, id, Some(f), 0, n, EMPTY) == Ledger(CallsAt(h, id, n), closed > 0, Minus(closed, 1))
  {
    if n > 0 {
      WalkToFirst(h, id, f, n - 1);
      WalkLast(h, id, Some(f), n - 1);
    }
  }

  lemma {:induction false} UnmetToFirst(h: seq<Message>, id: string, f: nat, n: nat)
    requires n <= f < |h| && forall k :: 0 <= k < f ==> !ResultFor(h[k], id)
    ensures Unmet(h, id, 0) == CallsBefore(h, id, n) + OwedCalls(h, id, n, CallsAt(h, id, n)) + Unmet(h, id, n)
  {
    if n == 0 {
      OwedNone(h, id, 0);
    } else {
      UnmetToFirst(h, id, f, n - 1);
      OwedNext(h, id, n - 1, CallsAt(h, id, n - 1));
    }
  }

  /** What closed segments have made up for an id with a first result at f. */
  lemma {:induction false} MadeWithFirst(h: seq<Message>, id: string, f: nat)
    requires f < |h| && ResultFor(h[f], id) && forall k :: 0 <= k < f ==> !ResultFor(h[k], id)
    ensures var n, before, unmet := CallsAt(h, id, f), CallsBefore(h, id, f), Unmet(h, id, 0);
            && unmet == before + OwedCalls(h, id, f + 1, Minus(n, 1)) + Unmet(h, id, f + 1)
            && Walk(h, id, Some(f), 0, |h|, EMPTY).made ==
                 if before > 0 then before - 1 + OwedCalls(h, id, f + 1, n) + Unmet(h, id, f + 1)
                 else if n > 0 then unmet else Minus(unmet, 1)
  {
    var n := CallsAt(h, id, f);
    var l := Walk(h, id, Some(f), 0, f, EMPTY);
    WalkToFirst(h, id, f, f);
    UnmetToFirst(h, id, f, f);
    OwedNext(h, id, f, n);
    WalkSplit(h, id, Some(f), 0, f, |h|, EMPTY);
    var next := LedgerStep(h, id, Some(f), f, l);
    if next.used { WalkPays(h, id, Some(f), f + 1, next); } else { WalkTakes(h, id, Some(f), f + 1, next); }
  }

  /** More calls can only be owed more results. */
  lemma {:induction false} OwedMore(h: seq<Message>, id: string, i: nat, n: nat)
    requires i <= |h| && n > 0
    ensures OwedCalls(h, id, i, n - 1) <= OwedCalls(h, id, i, n) <= OwedCalls(h, id, i, n - 1) + 1
  {
  }

  lemma {:induction false} QuietWithFirst(h: seq<Message>, id: string, f: nat)
    requires FirstResult(h, id, 0) == Some(f)
    ensures Quiet(h, id) <==> Walk(h, id, Some(f), 0, |h|, EMPTY).made == 0
  {
    var n := CallsAt(h, id, f);
    MadeWithFirst(h, id, f);
    OwedNone(h, id, f + 1);
    if n > 0 { OwedMore(h, id, f + 1, n); }
  }

  lemma {:induction false} QuietWithout(h: seq<Message>, id: string)
    requires FirstResult(h, id, 0).None?
    ensures Quiet(h, id) <==> Walk(h, id, None, 0, |h|, EMPTY).made <= 1
  {
    WalkPays(h, id, None, 0, EMPTY);
    OwedNone(h, id, 0);
  }

  // ---------- the next read, and all that follow ----------

  lemma {:induction false} QuietMeans(h: seq<Message>, id: string)
    ensures Quiet(h, id) <==> Made(Grow(h), id) == 0
  {
    SecondRead(h, id);
    FirstIs(h, id);
    var first := FirstResult(h, id, 0);
    if id !in BatchIds(h) { UncalledWalk(h, id, first, 0); }
    if first.Some? { QuietWithFirst(h, id, first.value); } else { QuietWithout(h, id); }
    if id !in BatchIds(h) { UncalledWalk(h, id, None, 0); }
  }

  lemma {:induction false} NothingMade(h: seq<Message>)
    ensures Synthesized(h) == [] <==> forall id :: Made(h, id) == 0
  {
    var calls := SynthCalls(Sources(h));
    if calls != [] { assert Made(h, calls[0].id) > 0; }
  }

  /** For every history: the second read synthesizes nothing exactly when no id has two calls without
      a result in their own closed segments, nor one that its first result cannot serve. */
  lemma {:induction false} SecondReadQuiet(h: seq<Message>)
    ensures Synthesized(Grow(h)) == [] <==> forall id :: Quiet(h, id)
  {
    NothingMade(Grow(h));
    forall id ensures Quiet(h, id) <==> Made(Grow(h), id) == 0 { QuietMeans(h, id); }
  }

  function Without1(calls: seq<ToolCall>, id: string): seq<ToolCall> {
    if calls == [] then [] else if calls[0].id == id then calls[1..] else [calls[0]] + Without1(calls[1..], id)
  }

  lemma {:induction false} WithoutOne(calls: seq<ToolCall>, id: string, other: string)
    requires CallsFor(calls, id) > 0
    ensures |Without1(calls, id)| == |calls| - 1
    ensures CallsFor(Without1(calls, id), other) == CallsFor(calls, other) - if other == id then 1 else 0
  {
    if calls[0].id != id { WithoutOne(calls[1..], id, other); }
  }

  lemma {:induction false} SameLength(a: seq<ToolCall>, b: seq<ToolCall>)
    requires forall id :: CallsFor(a, id) == CallsFor(b, id)
    ensures |a| == |b|
  {
    if a == [] {
      assert b != [] ==> CallsFor(a, b[0].id) == 0 && CallsFor(b, b[0].id) > 0;
    } else {
      var id := a[0].id;
      assert CallsFor(a, id) > 0;
      WithoutOne(b, id, id);
      forall other ensures CallsFor(a[1..], other) == CallsFor(Without1(b, id), other) { WithoutOne(b, id, other); }
      SameLength(a[1..], Without1(b, id));
    }
  }

  lemma {:induction false} SameMade(h: seq<Message>, g: seq<Message>)
    requires forall id :: Made(h, id) == Made(g, id)
    ensures |Synthesized(h)| == |Synthesized(g)|
  {
    var a, b := SynthCalls(Sources(h)), SynthCalls(Sources(g));
    forall id ensures CallsFor(a, id) == CallsFor(b, id) { assert Made(h, id) == Made(g, id); }
    SameLength(a, b);
  }

  lemma {:induction false} SteadyTwice(h: seq<Message>)
    ensures |Synthesized(Grow(Grow(h)))| == |Synthesized(Grow(h))|
  {
    forall id ensures Made(Grow(Grow(h)), id) == Made(Grow(h), id) { SteadyReads(h, id); }
    SameMade(Grow(Grow(h)), Grow(h));
  }

  lemma {:induction false} SteadyRead(h: seq<Message>, n: nat)
    ensures |Synthesized(Respawned(h, n + 1))| == |Synthesized(Grow(h))|
  {
    RespawnedNext(h, n);
    if n > 0 {
      SteadyRead(h, n - 1);
      RespawnedNext(h, n - 1);
      SteadyTwice(Respawned(h, n - 1));
    }
  }

  function Total(length: nat, more: nat, times: nat): nat {
    if times == 0 then length else Total(length, more, times - 1) + more
  }

  lemma {:induction false} TotalIs(length: nat, more: nat, times: nat)
    ensures Total(length, more, times) == length + times * more
  {
    if times > 0 {
      TotalIs(length, more, times - 1);
      assert times * more == (times - 1) * more + more;
    }
  }

  lemma {:induction false} GrowsToTotal(h: seq<Message>, n: nat)
    ensures |Respawned(h, n + 1)| == Total(|Grow(h)|, |Synthesized(Grow(h))|, n)
  {
    RespawnedNext(h, n);
    if n > 0 {
      GrowsToTotal(h, n - 1);
      GrowsOnce(h, n);
    }
  }

  /** Every respawn after the first appends as much as the second one does, for ever. */
  lemma {:induction false} LogGrowsSteadily(h: seq<Message>, n: nat)
    ensures |Respawned(h, n + 1)| == |Grow(h)| + n * |Synthesized(Grow(h))|
  {
    GrowsToTotal(h, n);
    TotalIs(|Grow(h)|, |Synthesized(Grow(h))|, n);
  }

  lemma {:induction false} GrowsOnce(h: seq<Message>, n: nat)
    requires n > 0
    ensures |Respawned(h, n + 1)| == |Respawned(h, n)| + |Synthesized(Grow(h))|
  {
    SteadyRead(h, n - 1);
    RespawnedNext(h, n);
    Longer(Respawned(h, n));
  }

  lemma {:induction false} Longer(h: seq<Message>)
    ensures |Grow(h)| == |h| + |Synthesized(h)|
  {
  }

  /** So the log stops growing after the first respawn, or never. */
  lemma {:induction false} LogStops(h: seq<Message>, n: nat)
    requires n > 0
    ensures Respawned(h, n + 1) == Grow(h) <==> forall id :: Quiet(h, id)
  {
    SecondReadQuiet(h);
    if Synthesized(Grow(h)) == [] {
      StaysGrown(h, n);
    } else {
      LogGrowsSteadily(h, n);
      Positive(n, |Synthesized(Grow(h))|);
    }
  }

  lemma {:induction false} Positive(a: nat, b: nat)
    requires a > 0 && b > 0
    ensures a * b > 0
  {
  }

  lemma {:induction false} StaysGrown(h: seq<Message>, n: nat)
    requires Synthesized(Grow(h)) == []
    ensures Respawned(h, n + 1) == Grow(h)
  {
    RespawnedNext(h, n);
    if n > 0 {
      StaysGrown(h, n - 1);
      assert Grow(h) + [] == Grow(h);
    }
  }

  // ---------- a log that never stops growing ----------

  const USER: Message := Message(User, ["go on"], None, None, map[])
  const CALL: ToolCall := ToolCall("t1", "probe", "")
  const BATCH: Message := Message(Assistant, ["calling"], Some([CALL]), None, map[])

  lemma {:induction false} OnlyOneId(calls: seq<ToolCall>, id: string)
    requires forall other :: other != id ==> CallsFor(calls, other) == 0
    ensures |calls| == CallsFor(calls, id)
  {
    if calls != [] {
      assert calls[0].id != id ==> CallsFor(calls, calls[0].id) > 0;
      forall other | other != id ensures CallsFor(calls[1..], other) == 0 {
        assert CallsFor(calls, other) == 0;
      }
      OnlyOneId(calls[1..], id);
    }
  }

  lemma {:induction false} OnlyOneMade(h: seq<Message>, id: string)
    requires forall other :: other != id ==> Made(h, other) == 0
    ensures |Synthesized(h)| == Made(h, id)
  {
    forall other | other != id ensures CallsFor(SynthCalls(Sources(h)), other) == 0 { assert Made(h, other) == 0; }
    OnlyOneId(SynthCalls(Sources(h)), id);
  }

  /** A call that is made and not answered before the next message. */
  predicate CalledAt(h: seq<Message>, i: nat) {
    i + 1 < |h| && h[i] == BATCH && h[i + 1] == USER
  }

  lemma {:induction false} WitnessSteps(h: seq<Message>, id: string, n: nat, made: nat, i: nat, m: nat)
    requires CalledAt(h, i) && n == CallsFor(Calls(BATCH), id) && m == i + 2
    ensures Walk(h, id, None, i, m, Ledger(0, false, made)) == Ledger(0, false, made + n)
  {
    var before, now, after := Ledger(0, false, made), Ledger(n, false, made), Ledger(0, false, made + n);
    assert Calls(USER) == [] && CallsFor([], id) == 0;
    assert LedgerStep(h, id, None, i, before) == now && LedgerStep(h, id, None, i + 1, now) == after;
    assert Walk(h, id, None, i + 1, m, now) == Walk(h, id, None, m, m, after);
  }

  lemma {:induction false} WitnessCalls(id: string)
    ensures CallsFor(Calls(BATCH), id) == if CALL.id == id then 1 else 0
  {
    assert Calls(BATCH) == [CALL] && [CALL][1..] == [];
  }

  /** The same call made twice and never answered. */
  predicate CalledTwice(h: seq<Message>) {
    |h| == 4 && CalledAt(h, |h| - 4) && CalledAt(h, |h| - 2)
  }

  lemma {:induction false} WitnessWalk(h: seq<Message>, id: string, n: nat, i: nat, m: nat, e: nat)
    requires CalledAt(h, i) && CalledAt(h, m) && n == CallsFor(Calls(BATCH), id) && m == i + 2 && e == m + 2
    ensures Walk(h, id, None, i, e, Ledger(0, false, 0)) == Ledger(0, false, n + n)
  {
    WalkSplit(h, id, None, i, m, e, Ledger(0, false, 0));
    WitnessSteps(h, id, n, 0, i, m);
    WitnessSteps(h, id, n, n, m, e);
  }

  lemma {:induction false} WitnessFirst(h: seq<Message>, id: string)
    requires CalledTwice(h)
    ensures FirstFor(Results(h), id) == None
  {
    FirstIs(h, id);
    var first := FirstResult(h, id, 0);
    assert forall k :: 0 <= k < |h| ==> h[k].role != Tool;
  }

  lemma {:induction false} WitnessEnd(h: seq<Message>, id: string, n: nat, start: nat, e: nat)
    requires CalledAt(h, start) && CalledAt(h, start + 2) && n == CallsFor(Calls(BATCH), id)
    requires start == 0 && e == start + 4 && e == |h| && FirstFor(Results(h), id) == None
    ensures AtEnd(h, id) == Ledger(0, false, n + n)
  {
    WitnessWalk(h, id, n, start, start + 2, e);
  }

  lemma {:induction false} EndMade(h: seq<Message>, id: string, made: nat)
    requires FirstFor(Results(h), id) == None && AtEnd(h, id) == Ledger(0, false, made)
    ensures Made(h, id) == made && Made(Grow(h), id) == Minus(made, 1)
  {
    MadeIs(h, id);
    SecondRead(h, id);
  }

  lemma {:induction false} WitnessMade(h: seq<Message>, id: string, n: nat, start: nat)
    requires CalledAt(h, start) && CalledAt(h, start + 2) && n == CallsFor(Calls(BATCH), id)
    requires start == 0 && |h| == start + 4 && FirstFor(Results(h), id) == None
    ensures Made(h, id) == n + n && Made(Grow(h), id) == Minus(n + n, 1)
  {
    WitnessEnd(h, id, n, start, |h|);
    EndMade(h, id, n + n);
  }

  lemma {:induction false} WitnessCounts(h: seq<Message>, id: string, start: nat)
    requires CalledAt(h, start) && CalledAt(h, start + 2) && start == 0 && |h| == start + 4 &&
               FirstFor(Results(h), id) == None
    ensures Made(h, id) == if CALL.id == id then 2 else 0
    ensures Made(Grow(h), id) == if CALL.id == id then 1 else 0
  {
    WitnessMade(h, id, CallsFor(Calls(BATCH), id), start);
    WitnessCalls(id);
  }

  lemma {:induction false} WitnessLengths(h: seq<Message>)
    requires CalledTwice(h)
    ensures |Synthesized(h)| == 2 && |Synthesized(Grow(h))| == 1 && !Quiet(h, CALL.id)
  {
    var start: nat := |h| - 4;
    forall id
      ensures Made(h, id) == (if CALL.id == id then 2 else 0) && Made(Grow(h), id) == if CALL.id == id then 1 else 0
    {
      WitnessFirst(h, id);
      WitnessCounts(h, id, start);
    }
    OnlyOneMade(h, CALL.id);
    OnlyOneMade(Grow(h), CALL.id);
    QuietMeans(h, CALL.id);
  }

  /** After n >= 1 respawns that log has 5 + n messages. */
  lemma {:induction false} RepeatedIdsKeepGrowing(h: seq<Message>, n: nat)
    requires CalledTwice(h) && n > 0
    ensures |Respawned(h, n)| == 5 + n && !Quiet(h, CALL.id)
  {
    WitnessLengths(h);
    Longer(h);
    LogGrowsSteadily(h, n - 1);
  }

  /** The same call made twice and answered in place each time: the log does not grow at all. */
  lemma {:induction false} AnsweredIdsStayQuiet(h: seq<Message>, answer: Message)
    requires ResultFor(answer, CALL.id) && h == [BATCH, answer, BATCH, answer]
    ensures !DistinctCallIds(h) && forall id :: Quiet(h, id)
  {
    assert Calls(h[0])[0].id == Calls(h[2])[0].id;
    assert [CALL][1..] == [];
    forall id ensures Quiet(h, id) {
      assert Unmet(h, id, 4) == 0 && Unmet(h, id, 3) == 0;
      assert !BreakerFrom(h, 3);
      assert h[1..][0] == answer && h[1..][1..] == h[2..] && h[2..][0] == BATCH && OwnResults(h[2..], id) == 0;
      assert Unmet(h, id, 2) == 0 && Unmet(h, id, 1) == 0;
      assert CallsFor(Calls(BATCH), id) <= OwnResults(h[1..], id);
    }
  }
}
