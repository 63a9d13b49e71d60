/** Close-out seen from one call id, for every history: how many of its calls get a synthesized
    result, on one read and on the reads that follow
    (crates/kernel/src/agent/message_buffer.rs:125-223, 349-375). */
module CallLedger {
  import opened Messages
  import opened CloseOut
  import opened Respawn
  import opened RespawnLaws

  function CallsFor(calls: seq<ToolCall>, id: string): nat {
    if calls == [] then 0 else (if calls[0].id == id then 1 else 0) + CallsFor(calls[1..], id)
  }

  lemma {:induction false} CallsForAppend(a: seq<ToolCall>, b: seq<ToolCall>, id: string)
    ensures CallsFor(a + b, id) == CallsFor(a, id) + CallsFor(b, id)
  {
    if a == [] {
      assert a + b == b;
    } else {
      CallsForAppend(a[1..], b, id);
      assert (a + b)[0] == a[0] && (a + b)[1..] == a[1..] + b;
    }
  }

  lemma {:induction false} CallsForWithout(open: seq<ToolCall>, pos: nat, id: string)
    requires pos < |open|
    ensures CallsFor(open, id) == CallsFor(Without(open, pos), id) + if open[pos].id == id then 1 else 0
  {
    assert open == open[..pos] + ([open[pos]] + open[pos + 1..]);
    CallsForAppend(open[..pos], [open[pos]] + open[pos + 1..], id);
    CallsForAppend([open[pos]], open[pos + 1..], id);
    CallsForAppend(open[..pos], open[pos + 1..], id);
    assert [open[pos]][1..] == [];
  }

  lemma {:induction false} CallsForNone(open: seq<ToolCall>, id: string)
    ensures CallsFor(open, id) == 0 <==> id !in CallIds(open)
  {
    if open != [] {
      CallsForNone(open[1..], id);
      IdsCons(open[0], open[1..]);
      assert open == [open[0]] + open[1..];
    } else {
      assert CallIds(open) == {};
    }
  }

  // ---------- the walk as one id sees it ----------

  /** The open calls for an id, whether its first result is used up, and the results made up for it. */
  datatype Ledger = Ledger(open: nat, used: bool, made: nat)

  const EMPTY: Ledger := Ledger(0, false, 0)

  function FirstFor(res: map<string, nat>, id: string): Option<nat> {
    if id in res then Some(res[id]) else None
  }

  /** A chain-breaking message, or the end: one open call takes the first result, if it is left. */
  function Drained(first: Option<nat>, l: Ledger): Ledger {
    if l.open == 0 || first.None? || l.used then Ledger(0, l.used, l.made + l.open)
    else Ledger(0, true, l.made + l.open - 1)
  }

  function LedgerStep(h: seq<Message>, id: string, first: Option<nat>, i: nat, l: Ledger): Ledger
    requires i < |h|
  {
    if Breaker(h[i]) then Drained(first, l).(open := CallsFor(Calls(h[i]), id))
    else if ResultFor(h[i], id) && l.open > 0 && !(l.used && first == Some(i)) then
      Ledger(l.open - 1, l.used || first == Some(i), l.made)
    else l
  }

  function Walk(h: seq<Message>, id: string, first: Option<nat>, i: nat, n: nat, l: Ledger): Ledger
    requires i <= n <= |h|
    decreases n - i
  {
    if i == n then l else Walk(h, id, first, i + 1, n, LedgerStep(h, id, first, i, l))
  }

  lemma {:induction false} WalkSplit(h: seq<Message>, id: string, first: Option<nat>, i: nat, m: nat, n: nat, l: Ledger)
    requires i <= m <= n <= |h|
    ensures Walk(h, id, first, i, n, l) == Walk(h, id, first, m, n, Walk(h, id, first, i, m, l))
    decreases m - i
  {
    if i < m { WalkSplit(h, id, first, i + 1, m, n, LedgerStep(h, id, first, i, l)); }
  }

  lemma {:induction false} WalkLast(h: seq<Message>, id: string, first: Option<nat>, n: nat)
    requires n < |h|
    ensures Walk(h, id, first, 0, n + 1, EMPTY) == LedgerStep(h, id, first, n, Walk(h, id, first, 0, n, EMPTY))
  {
    WalkSplit(h, id, first, 0, n, n + 1, EMPTY);
  }

  lemma {:induction false} WalkSame(h: seq<Message>, g: seq<Message>, id: string, first: Option<nat>, i: nat, n: nat,
                                    l: Ledger)
    requires i <= n <= |h| && h <= g
    ensures Walk(g, id, first, i, n, l) == Walk(h, id, first, i, n, l)
    decreases n - i
  {
    if i < n {
      assert g[i] == h[i];
      WalkSame(h, g, id, first, i + 1, n, LedgerStep(h, id, first, i, l));
    }
  }

  // ---------- the ledger tells what is synthesized ----------

  ghost predicate Keeps(h: seq<Message>, res: map<string, nat>, id: string, i: nat,
                          open: seq<ToolCall>, consumed: set<nat>, l: Ledger)
  {
    && l.open == CallsFor(open, id)
    && (l.used <==> id in res && res[id] in consumed)
    && (forall k :: k in consumed && k >= i ==> k < |h| && Matched(h, res, k))
  }

  lemma {:induction false} DrainLedger(h: seq<Message>, res: map<string, nat>, id: string, i: nat,
                                       open: seq<ToolCall>, consumed: set<nat>, l: Ledger)
    requires Indexes(h, res) && Keeps(h, res, id, i, open, consumed, l)
    ensures var (closed, after) := Drain(res, open, consumed);
            var drained := Drained(FirstFor(res, id), l);
            && CallsFor(SynthCalls(closed), id) + l.made == drained.made
            && Keeps(h, res, id, i, [], after, drained)
    decreases |open|
  {
    if open != [] {
      var call := open[0];
      if call.id in res && res[call.id] !in consumed {
        var next := if call.id == id then Ledger(l.open - 1, true, l.made) else l;
        assert call.id != id && id in res ==> res[call.id] != res[id];
        DrainLedger(h, res, id, i, open[1..], consumed + {res[call.id]}, next);
      } else {
        var next := if call.id == id then Ledger(l.open - 1, l.used, l.made + 1) else l;
        DrainLedger(h, res, id, i, open[1..], consumed, next);
      }
      SynthHead(Drain(res, open, consumed).0, id);
    }
  }

  lemma {:induction false} SynthHead(s: seq<Source>, id: string)
    requires s != []
    ensures CallsFor(SynthCalls(s), id) ==
            (if s[0].Synth? && s[0].call.id == id then 1 else 0) + CallsFor(SynthCalls(s[1..]), id)
  {
  }

  lemma {:induction false} AdvanceLedger(h: seq<Message>, res: map<string, nat>, id: string, i: nat,
                                         open: seq<ToolCall>, consumed: set<nat>, l: Ledger)
    requires i < |h| && Indexes(h, res) && Keeps(h, res, id, i, open, consumed, l)
    ensures var step := Advance(h, res, i, open, consumed);
            var next := LedgerStep(h, id, FirstFor(res, id), i, l);
            && CallsFor(SynthCalls(step.emit), id) + l.made == next.made
            && Keeps(h, res, id, i + 1, step.open, step.consumed, next)
  {
    assert SynthCalls([Log(i)]) == [];
    if Breaker(h[i]) {
      DrainLedger(h, res, id, i, open, consumed, l);
      var closed := Drain(res, open, consumed).0;
      SynthAppend(closed, [Log(i)]);
      assert SynthCalls(closed) + [] == SynthCalls(closed);
    } else if h[i].role == Tool {
      ToolLedger(h, res, id, i, open, consumed, l);
    }
  }

  lemma {:induction false} ToolLedger(h: seq<Message>, res: map<string, nat>, id: string, i: nat,
                                      open: seq<ToolCall>, consumed: set<nat>, l: Ledger)
    requires i < |h| && Indexes(h, res) && Keeps(h, res, id, i, open, consumed, l) && h[i].role == Tool
    ensures var step := Advance(h, res, i, open, consumed);
            var next := LedgerStep(h, id, FirstFor(res, id), i, l);
            && SynthCalls(step.emit) == [] && l.made == next.made
            && Keeps(h, res, id, i + 1, step.open, step.consumed, next)
  {
    var pos := OpenPosition(open, h[i]);
    assert SynthCalls([Log(i)]) == [];
    CallsForNone(open, id);
    if i in consumed {
      assert ResultFor(h[i], id) ==> FirstFor(res, id) == Some(i) && l.used;
    } else if pos.Some? {
      CallsForWithout(open, pos.value, id);
      assert ResultFor(h[i], id) <==> open[pos.value].id == id;
      if ResultFor(h[i], id) { assert open[pos.value].id in CallIds(open); }
    } else {
      assert ResultFor(h[i], id) ==> id !in CallIds(open);
    }
  }

  lemma {:induction false} RebuildLedger(h: seq<Message>, res: map<string, nat>, id: string, i: nat,
                                         open: seq<ToolCall>, consumed: set<nat>, l: Ledger)
    requires i <= |h| && Indexes(h, res) && Keeps(h, res, id, i, open, consumed, l)
    ensures CallsFor(SynthCalls(Rebuild(h, res, i, open, consumed)), id) + l.made
         == Drained(FirstFor(res, id), Walk(h, id, FirstFor(res, id), i, |h|, l)).made
    decreases |h| - i
  {
    if i == |h| {
      DrainLedger(h, res, id, i, open, consumed, l);
    } else {
      var step := Advance(h, res, i, open, consumed);
      var rest := Rebuild(h, res, i + 1, step.open, step.consumed);
      AdvanceLedger(h, res, id, i, open, consumed, l);
      RebuildLedger(h, res, id, i + 1, step.open, step.consumed, LedgerStep(h, id, FirstFor(res, id), i, l));
      SynthAppend(step.emit, rest);
      CallsForAppend(SynthCalls(step.emit), SynthCalls(rest), id);
    }
  }

  /** The ledger of an id at the end of the log, before its open calls are closed. */
  function AtEnd(h: seq<Message>, id: string): Ledger {
    Walk(h, id, FirstFor(Results(h), id), 0, |h|, EMPTY)
  }

  /** How many results are made up for an id. */
  function Made(h: seq<Message>, id: string): nat {
    CallsFor(SynthCalls(Sources(h)), id)
  }

  lemma {:induction false} MadeIs(h: seq<Message>, id: string)
    ensures Made(h, id) == Drained(FirstFor(Results(h), id), AtEnd(h, id)).made
  {
    RebuildLedger(h, Results(h), id, 0, [], {}, EMPTY);
  }

  // ---------- the grown log ----------

  /** The results for an id from position i on. */
  function ResultsFrom(g: seq<Message>, id: string, i: nat): nat
    requires i <= |g|
    decreases |g| - i
  {
    if i == |g| then 0 else (if ResultFor(g[i], id) then 1 else 0) + ResultsFrom(g, id, i + 1)
  }

  lemma {:induction false} AppendedResults(h: seq<Message>, calls: seq<ToolCall>, id: string, t: nat)
    requires t <= |calls|
    ensures ResultsFrom(h + CancelledResults(calls), id, |h| + t) == CallsFor(calls[t..], id)
    decreases |calls| - t
  {
    if t < |calls| {
      assert (h + CancelledResults(calls))[|h| + t] == CancelledResult(calls[t].id);
      assert calls[t..][0] == calls[t] && calls[t..][1..] == calls[t + 1..];
      AppendedResults(h, calls, id, t + 1);
    } else {
      assert calls[t..] == [];
    }
  }

  function Minus(a: nat, b: nat): nat { if a > b then a - b else 0 }

  /** Appended results pay off the calls still open, except a first result that is used up. */
  lemma {:induction false} TailPays(g: seq<Message>, id: string, first: Option<nat>, i: nat, l: Ledger)
    requires i <= |g| && forall k :: i <= k < |g| ==> g[k].role == Tool
    requires first.Some? && first.value >= i ==> first.value < |g| && ResultFor(g[first.value], id)
    ensures var skipped := if l.used && first.Some? && first.value >= i then 1 else 0;
            var end := Walk(g, id, first, i, |g|, l);
            && end.made == l.made && skipped <= ResultsFrom(g, id, i)
            && end.open == Minus(l.open, ResultsFrom(g, id, i) - skipped)
            && (l.used ==> end.used) && (end.used ==> l.used || (first.Some? && first.value >= i))
    decreases |g| - i
  {
    if i < |g| { TailPays(g, id, first, i + 1, LedgerStep(g, id, first, i, l)); }
  }

  /** A first result that stands past n is taken by the first call closed without one. */
  lemma {:induction false} LateFirst(h: seq<Message>, id: string, f: nat, i: nat, n: nat, l: Ledger, k: Ledger)
    requires i <= n <= |h| && n <= f
    requires k == Ledger(l.open, l.made > 0, Minus(l.made, 1)) && !l.used
    ensures var plain := Walk(h, id, None, i, n, l);
            !plain.used && Walk(h, id, Some(f), i, n, k) == Ledger(plain.open, plain.made > 0, Minus(plain.made, 1))
    decreases n - i
  {
    if i < n { LateFirst(h, id, f, i + 1, n, LedgerStep(h, id, None, i, l), LedgerStep(h, id, Some(f), i, k)); }
  }

  lemma {:induction false} GrowBatches(h: seq<Message>)
    ensures BatchIds(Grow(h)) == BatchIds(h)
  {
    var g := Grow(h);
    assert forall k :: 0 <= k < |h| ==> g[k] == h[k];
    forall k | |h| <= k < |g| ensures Calls(g[k]) == [] { TailHas(h, k - |h|); }
  }

  lemma {:induction false} FirstIs(h: seq<Message>, id: string)
    ensures FirstFor(Results(h), id) == if id in BatchIds(h) then FirstResult(h, id, 0) else None
  {
  }

  lemma {:induction false} FirstLonger(h: seq<Message>, g: seq<Message>, id: string, i: nat)
    requires h <= g && i <= |h|
    ensures var now, later := FirstResult(h, id, i), FirstResult(g, id, i);
            if now.Some? then later == now else later.Some? ==> later.value >= |h|
    decreases |h| - i
  {
    if i < |h| {
      assert g[i] == h[i];
      FirstLonger(h, g, id, i + 1);
    }
  }

  /** Where the first result for an id stands in the grown log. */
  lemma {:induction false} GrowFirst(h: seq<Message>, id: string)
    ensures var first, later := FirstFor(Results(h), id), FirstFor(Results(Grow(h)), id);
            if first.Some? then later == first
            else if later.Some? then later.value >= |h| && ResultFor(Grow(h)[later.value], id) else Made(h, id) == 0
  {
    GrowBatches(h);
    FirstIs(h, id);
    FirstIs(Grow(h), id);
    FirstLonger(h, Grow(h), id, 0);
    if Made(h, id) > 0 { MadeFound(h, id); }
  }

  lemma {:induction false} MadeFound(h: seq<Message>, id: string)
    requires Made(h, id) > 0
    ensures id in BatchIds(h) && FirstResult(Grow(h), id, 0).Some?
  {
    var calls := SynthCalls(Sources(h));
    CallsForNone(calls, id);
    var t :| 0 <= t < |calls| && calls[t].id == id;
    TailHas(h, t);
    MadeCalled(h, id);
  }

  lemma {:induction false} MadeCalled(h: seq<Message>, id: string)
    requires Made(h, id) > 0
    ensures id in BatchIds(h)
  {
    MadeIs(h, id);
    if id !in BatchIds(h) { UncalledWalk(h, id, FirstFor(Results(h), id), 0); }
  }

  lemma {:induction false} UncalledWalk(h: seq<Message>, id: string, first: Option<nat>, i: nat)
    requires i <= |h| && id !in BatchIds(h)
    ensures Walk(h, id, first, i, |h|, EMPTY) == EMPTY
    decreases |h| - i
  {
    if i < |h| {
      CallsForNone(Calls(h[i]), id);
      UncalledWalk(h, id, first, i + 1);
    }
  }

  /** The ledger of the grown log: its prefix walked with the first result known by then, paid off. */
  lemma {:induction false} GrownEnd(h: seq<Message>, id: string, later: Option<nat>)
    requires later == FirstFor(Results(Grow(h)), id)
    ensures Paid(|h|, later, Walk(h, id, later, 0, |h|, EMPTY), Made(h, id), AtEnd(Grow(h), id))
  {
    var g := Grow(h);
    forall k | |h| <= k < |g| ensures g[k].role == Tool { TailHas(h, k - |h|); }
    LongerEnd(h, g, id, later);
    MadeAppended(h, id);
  }

  /** The ledger k, after a tail that starts at n and holds `paid` results. */
  ghost predicate Paid(n: nat, later: Option<nat>, k: Ledger, paid: nat, end: Ledger) {
    var skipped := if k.used && later.Some? && later.value >= n then 1 else 0;
    && end.made == k.made && (k.used ==> end.used) && (end.used ==> k.used || (later.Some? && later.value >= n))
    && skipped <= paid && end.open == Minus(k.open, paid - skipped)
  }

  lemma {:induction false} LongerEnd(h: seq<Message>, g: seq<Message>, id: string, later: Option<nat>)
    requires h <= g && forall k :: |h| <= k < |g| ==> g[k].role == Tool
    requires later.Some? && later.value >= |h| ==> later.value < |g| && ResultFor(g[later.value], id)
    ensures Paid(|h|, later, Walk(h, id, later, 0, |h|, EMPTY), ResultsFrom(g, id, |h|),
              Walk(g, id, later, 0, |g|, EMPTY))
  {
    WalkSame(h, g, id, later, 0, |h|, EMPTY);
    WalkSplit(g, id, later, 0, |h|, |g|, EMPTY);
    TailPays(g, id, later, |h|, Walk(h, id, later, 0, |h|, EMPTY));
  }

  lemma {:induction false} MadeAppended(h: seq<Message>, id: string)
    ensures ResultsFrom(Grow(h), id, |h|) == Made(h, id)
  {
    var calls := SynthCalls(Sources(h));
    AppendedResults(h, calls, id, 0);
    assert calls[0..] == calls;
  }

  /** How the ledger of a log at its end hangs together with the one that the first result later
      known for the id would give. */
  ghost predicate Linked(n: nat, first: Option<nat>, later: Option<nat>, end: Ledger, k: Ledger) {
    if first.Some? then later == first && first.value < n && k == end
    else !end.used && if later.None? then Drained(first, end).made == 0 && k == end
                      else later.value >= n && k == Ledger(end.open, end.made > 0, Minus(end.made, 1))
  }

  lemma {:induction false} LinkedCounts(n: nat, first: Option<nat>, later: Option<nat>, end: Ledger, k: Ledger,
                                        grown: Ledger)
    requires Linked(n, first, later, end, k) && Paid(n, later, k, Drained(first, end).made, grown)
    ensures Drained(later, grown).made == (if first.Some? then end.made else Minus(end.made, 1))
    ensures grown.made == Drained(later, grown).made
  {
  }

  lemma {:induction false} GrowLinked(h: seq<Message>, id: string, later: Option<nat>)
    requires later == FirstFor(Results(Grow(h)), id)
    ensures Linked(|h|, FirstFor(Results(h), id), later, AtEnd(h, id), Walk(h, id, later, 0, |h|, EMPTY))
  {
    MadeIs(h, id);
    GrowFirst(h, id);
    if FirstFor(Results(h), id).None? {
      PlainWalk(h, id, 0, EMPTY);
      if later.Some? { LateWalk(h, id, later); }
    }
  }

  lemma {:induction false} LateWalk(h: seq<Message>, id: string, later: Option<nat>)
    requires later.Some? && later.value >= |h|
    ensures var end := Walk(h, id, None, 0, |h|, EMPTY);
            Walk(h, id, later, 0, |h|, EMPTY) == Ledger(end.open, end.made > 0, Minus(end.made, 1))
  {
    LateFirst(h, id, later.value, 0, |h|, EMPTY, EMPTY);
  }

  /** What the second read makes up: exactly what the first made up before the log's last calls were
      closed, less one if no result for the id was there yet. */
  lemma {:induction false} SecondRead(h: seq<Message>, id: string)
    ensures var made := AtEnd(h, id).made;
            && Made(Grow(h), id) == (if FirstFor(Results(h), id).Some? then made else Minus(made, 1))
            && AtEnd(Grow(h), id).made == Made(Grow(h), id)
  {
    var first, later := FirstFor(Results(h), id), FirstFor(Results(Grow(h)), id);
    MadeIs(h, id);
    MadeIs(Grow(h), id);
    GrowLinked(h, id, later);
    GrownEnd(h, id, later);
    LinkedCounts(|h|, first, later, AtEnd(h, id), Walk(h, id, later, 0, |h|, EMPTY), AtEnd(Grow(h), id));
  }

  lemma {:induction false} PlainWalk(h: seq<Message>, id: string, i: nat, l: Ledger)
    requires i <= |h| && !l.used
    ensures !Walk(h, id, None, i, |h|, l).used
    decreases |h| - i
  {
    if i < |h| { PlainWalk(h, id, i + 1, LedgerStep(h, id, None, i, l)); }
  }

  /** From the second read on every read makes up the same. */
  lemma {:induction false} SteadyReads(h: seq<Message>, id: string)
    ensures Made(Grow(Grow(h)), id) == Made(Grow(h), id)
  {
    SecondRead(h, id);
    SecondRead(Grow(h), id);
    MadeIs(Grow(h), id);
    GrowFirst(h, id);
    if FirstFor(Results(Grow(h)), id).None? { NoneMade(h, id); }
  }

  lemma {:induction false} NoneMade(h: seq<Message>, id: string)
    requires FirstFor(Results(Grow(h)), id).None?
    ensures Made(Grow(h), id) == 0
  {
    GrowFirst(h, id);
    MadeIs(h, id);
    SecondRead(h, id);
  }
}
