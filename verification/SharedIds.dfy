/** What close-out loses and what it answers, for every history: also those in which calls share an id
    (crates/kernel/src/agent/message_buffer.rs:125-223, 349-375). */
module SharedIds {
  import opened Messages
  import opened Sequences
  import opened CloseOut
  import opened CloseOutLaws
  import opened Conservation
  import opened CallLedger
  import opened RepeatedIds

  /** The first result for an id stands ahead of every call for it, and each of its batches has enough
      results in its own segment: nothing makes use of that first one. */
  ghost predicate LeftOver(h: seq<Message>, id: string) {
    && id in BatchIds(h) && FirstResult(h, id, 0).Some?
    && forall b :: 0 <= b < |h| && CallsFor(Calls(h[b]), id) > 0 ==>
         FirstResult(h, id, 0).value < b && Short(h, id, b) == 0
  }

  // ---------- how often a message is emitted ----------

  /** A first result is emitted when the ledger of its id takes it. */
  function Takes(before: Ledger, after: Ledger): nat {
    if !before.used && after.used then 1 else 0
  }

  lemma {:induction false} DrainTakes(h: seq<Message>, res: map<string, nat>, id: string, i: nat,
                                      open: seq<ToolCall>, consumed: set<nat>, l: Ledger)
    requires Indexes(h, res) && Keeps(h, res, id, i, open, consumed, l) && id in res
    ensures Count(Drain(res, open, consumed).0, Log(res[id])) == Takes(l, Drained(FirstFor(res, id), l))
    decreases |open|
  {
    if open != [] {
      var call := open[0];
      var s := Drain(res, open, consumed).0;
      assert call.id in res && res[call.id] == res[id] ==> call.id == id;
      if call.id in res && res[call.id] !in consumed {
        var next := if call.id == id then Ledger(l.open - 1, true, l.made) else l;
        DrainTakes(h, res, id, i, open[1..], consumed + {res[call.id]}, next);
        assert s[0] == Log(res[call.id]) && s[1..] == Drain(res, open[1..], consumed + {res[call.id]}).0;
      } else {
        var next := if call.id == id then Ledger(l.open - 1, l.used, l.made + 1) else l;
        DrainTakes(h, res, id, i, open[1..], consumed, next);
        assert s[0] == Synth(call) && s[1..] == Drain(res, open[1..], consumed).0;
      }
    }
  }

  lemma {:induction false} CountOne(s: Source, t: Source)
    ensures Count([s], t) == if s == t then 1 else 0
  {
    assert [s][1..] == [];
  }

  lemma {:induction false} AdvanceTakes(h: seq<Message>, res: map<string, nat>, id: string, i: nat,
                                        open: seq<ToolCall>, consumed: set<nat>, l: Ledger)
    requires i < |h| && Indexes(h, res) && Keeps(h, res, id, i, open, consumed, l) && id in res
    ensures Count(Advance(h, res, i, open, consumed).emit, Log(res[id]))
         == Takes(l, LedgerStep(h, id, FirstFor(res, id), i, l))
  {
    CountOne(Log(i), Log(res[id]));
    if Breaker(h[i]) {
      DrainTakes(h, res, id, i, open, consumed, l);
      CountAppend(Drain(res, open, consumed).0, [Log(i)], Log(res[id]));
    } else if h[i].role == Tool {
      var pos := OpenPosition(open, h[i]);
      CallsForNone(open, id);
      if pos.Some? { assert open[pos.value].id in CallIds(open); }
    }
  }

  /** What is used stays so. */
  lemma {:induction false} StaysUsed(h: seq<Message>, id: string, first: Option<nat>, i: nat, l: Ledger)
    requires i <= |h| && l.used
    ensures Drained(first, Walk(h, id, first, i, |h|, l)).used
    decreases |h| - i
  {
    if i < |h| { StaysUsed(h, id, first, i + 1, LedgerStep(h, id, first, i, l)); }
  }

  lemma {:induction false} RebuildTakes(h: seq<Message>, res: map<string, nat>, id: string, i: nat,
                                        open: seq<ToolCall>, consumed: set<nat>, l: Ledger)
    requires i <= |h| && Indexes(h, res) && Keeps(h, res, id, i, open, consumed, l) && id in res
    ensures var first := FirstFor(res, id);
            Count(Rebuild(h, res, i, open, consumed), Log(res[id]))
              == Takes(l, Drained(first, Walk(h, id, first, i, |h|, l)))
    decreases |h| - i
  {
    var first := FirstFor(res, id);
    if i == |h| {
      DrainTakes(h, res, id, i, open, consumed, l);
    } else {
      var step, next := Advance(h, res, i, open, consumed), LedgerStep(h, id, first, i, l);
      AdvanceLedger(h, res, id, i, open, consumed, l);
      AdvanceTakes(h, res, id, i, open, consumed, l);
      RebuildTakes(h, res, id, i + 1, step.open, step.consumed, next);
      CountAppend(step.emit, Rebuild(h, res, i + 1, step.open, step.consumed), Log(res[id]));
      if next.used { StaysUsed(h, id, first, i + 1, next); }
    }
  }

  /** Only first results are ever moved. */
  ghost predicate MovesFirstOnly(h: seq<Message>, res: map<string, nat>, i: nat, consumed: set<nat>) {
    forall k :: k in consumed && k >= i ==> k < |h| && Matched(h, res, k)
  }

  lemma {:induction false} DrainMoves(h: seq<Message>, res: map<string, nat>, i: nat, open: seq<ToolCall>,
                                      consumed: set<nat>, k: nat)
    requires Indexes(h, res) && MovesFirstOnly(h, res, i, consumed) && k < |h| && !Matched(h, res, k)
    ensures MovesFirstOnly(h, res, i, Drain(res, open, consumed).1)
    ensures Count(Drain(res, open, consumed).0, Log(k)) == 0
    decreases |open|
  {
    if open != [] {
      var id, s := open[0].id, Drain(res, open, consumed).0;
      if id in res && res[id] !in consumed {
        DrainMoves(h, res, i, open[1..], consumed + {res[id]}, k);
        assert s[0] == Log(res[id]) && s[1..] == Drain(res, open[1..], consumed + {res[id]}).0;
      } else {
        DrainMoves(h, res, i, open[1..], consumed, k);
        assert s[0] == Synth(open[0]) && s[1..] == Drain(res, open[1..], consumed).0;
      }
    }
  }

  lemma {:induction false} AdvanceMoves(h: seq<Message>, res: map<string, nat>, i: nat, open: seq<ToolCall>,
                                        consumed: set<nat>, k: nat)
    requires i < |h| && Indexes(h, res) && MovesFirstOnly(h, res, i, consumed) && k < |h| && !Matched(h, res, k)
    ensures var step := Advance(h, res, i, open, consumed);
            Count(step.emit, Log(k)) == (if k == i then 1 else 0) && MovesFirstOnly(h, res, i + 1, step.consumed)
  {
    CountOne(Log(i), Log(k));
    if Breaker(h[i]) {
      DrainMoves(h, res, i, open, consumed, k);
      CountAppend(Drain(res, open, consumed).0, [Log(i)], Log(k));
    }
  }

  /** Every other message is emitted once. */
  lemma {:induction false} RebuildKeeps(h: seq<Message>, res: map<string, nat>, i: nat, open: seq<ToolCall>,
                                        consumed: set<nat>, k: nat)
    requires i <= |h| && Indexes(h, res) && MovesFirstOnly(h, res, i, consumed) && k < |h| && !Matched(h, res, k)
    ensures Count(Rebuild(h, res, i, open, consumed), Log(k)) == if k >= i then 1 else 0
    decreases |h| - i
  {
    if i == |h| {
      DrainMoves(h, res, i, open, consumed, k);
    } else {
      var step := Advance(h, res, i, open, consumed);
      AdvanceMoves(h, res, i, open, consumed, k);
      RebuildKeeps(h, res, i + 1, step.open, step.consumed, k);
      CountAppend(step.emit, Rebuild(h, res, i + 1, step.open, step.consumed), Log(k));
    }
  }

  // ---------- when a first result is used, in terms of segments ----------

  /** Past the first result, which is still to be had, nothing takes it when every segment has enough. */
  lemma {:induction false} NeverTaken(h: seq<Message>, id: string, f: nat, i: nat, l: Ledger)
    requires f < i <= |h| && !l.used
    ensures !Drained(Some(f), Walk(h, id, Some(f), i, |h|, l)).used <==>
              l.open <= OwnResults(h[i..], id) && forall b :: i <= b < |h| ==> Short(h, id, b) == 0
    decreases |h| - i
  {
    if i < |h| {
      var next := LedgerStep(h, id, Some(f), i, l);
      assert h[i..][0] == h[i] && h[i..][1..] == h[i + 1..];
      if next.used { StaysUsed(h, id, Some(f), i + 1, next); } else { NeverTaken(h, id, f, i + 1, next); }
      NoShortfall(h, id, i);
    }
  }

  lemma {:induction false} NoShortfall(h: seq<Message>, id: string, i: nat)
    requires i < |h|
    ensures (forall b :: i <= b < |h| ==> Short(h, id, b) == 0) <==>
              Short(h, id, i) == 0 && forall b :: i + 1 <= b < |h| ==> Short(h, id, b) == 0
    ensures !Breaker(h[i]) ==> Short(h, id, i) == 0
  {
  }

  /** No call for the id stands before n. */
  ghost predicate Uncalled(h: seq<Message>, id: string, n: nat)
    requires n <= |h|
  {
    forall b :: 0 <= b < n ==> CallsFor(Calls(h[b]), id) == 0
  }

  lemma {:induction false} NoCallsBefore(h: seq<Message>, id: string, n: nat)
    requires n <= |h|
    ensures CallsBefore(h, id, n) == 0 && CallsAt(h, id, n) == 0 <==> Uncalled(h, id, n)
  {
    if n > 0 {
      NoCallsBefore(h, id, n - 1);
      assert !Breaker(h[n - 1]) ==> Calls(h[n - 1]) == [];
    }
  }

  lemma {:induction false} UsedUnlessLeftOver(h: seq<Message>, id: string, f: nat)
    requires id in BatchIds(h) && FirstResult(h, id, 0) == Some(f)
    ensures !Drained(Some(f), Walk(h, id, Some(f), 0, |h|, EMPTY)).used <==>
              Uncalled(h, id, f) && forall b :: f < b < |h| ==> Short(h, id, b) == 0
  {
    var l := Walk(h, id, Some(f), 0, f, EMPTY);
    WalkToFirst(h, id, f, f);
    NoCallsBefore(h, id, f);
    WalkSplit(h, id, Some(f), 0, f, |h|, EMPTY);
    UsedFrom(h, id, f, l);
  }

  lemma {:induction false} UsedFrom(h: seq<Message>, id: string, f: nat, l: Ledger)
    requires f < |h| && ResultFor(h[f], id)
    ensures !Drained(Some(f), Walk(h, id, Some(f), f, |h|, l)).used <==>
              !l.used && l.open == 0 && forall b :: f < b < |h| ==> Short(h, id, b) == 0
  {
    var next := LedgerStep(h, id, Some(f), f, l);
    if next.used { StaysUsed(h, id, Some(f), f + 1, next); } else { NeverTaken(h, id, f, f + 1, next); }
  }

  lemma {:induction false} LeftOverIs(h: seq<Message>, id: string, f: nat)
    requires id in BatchIds(h) && FirstResult(h, id, 0) == Some(f)
    ensures LeftOver(h, id) <==> Uncalled(h, id, f) && forall b :: f < b < |h| ==> Short(h, id, b) == 0
  {
    assert Calls(h[f]) == [];
    forall b | 0 <= b < |h| && CallsFor(Calls(h[b]), id) == 0 ensures Short(h, id, b) == 0 {}
    if LeftOver(h, id) {
      forall b | 0 <= b < f ensures CallsFor(Calls(h[b]), id) == 0 {}
    }
  }

  /** Every message of the log is in the output once, but for the first results of ids left over. */
  lemma {:induction false} PlacedOnce(h: seq<Message>, k: nat)
    requires k < |h|
    ensures Count(Sources(h), Log(k)) ==
              if Matched(h, Results(h), k) && LeftOver(h, h[k].toolCallId.value) then 0 else 1
  {
    var res := Results(h);
    if Matched(h, res, k) {
      var id := h[k].toolCallId.value;
      RebuildTakes(h, res, id, 0, [], {}, EMPTY);
      UsedUnlessLeftOver(h, id, k);
      LeftOverIs(h, id, k);
    } else {
      RebuildKeeps(h, res, 0, [], {}, k);
    }
  }

  // ---------- from sources to messages ----------

  lemma {:induction false} Missing(h: seq<Message>, s: Source)
    ensures Count(Everything(h), s) - Count(Sources(h), s) ==
              if s.Log? && s.pos < |h| && Matched(h, Results(h), s.pos) && LeftOver(h, h[s.pos].toolCallId.value)
              then 1 else 0
  {
    var calls := SynthCalls(Sources(h));
    CountAppend(Whole(|h|), SynthSources(calls), s);
    WholeCount(|h|, s);
    SynthCount(Sources(h), s);
    if s.Log? {
      if s.pos < |h| { PlacedOnce(h, s.pos); } else { NotCounted(h, Sources(h), s); }
    }
  }

  lemma {:induction false} OneMissing(h: seq<Message>, id: string)
    requires LeftOver(h, id)
    ensures |Sources(h)| < |Everything(h)|
  {
    var k := FirstResult(h, id, 0).value;
    forall s ensures Count(Sources(h), s) <= Count(Everything(h), s) { Missing(h, s); }
    Missing(h, Log(k));
    FewerCounts(Sources(h), Everything(h), Log(k));
  }

  /** For every history the output is a permutation of the log plus the synthesized results if and only
      if no id is left over: a first result ahead of all its calls, each of which has its own besides. */
  lemma {:induction false} ConservedExactly(h: seq<Message>)
    ensures multiset(Closed(h)) == multiset(h) + multiset(Synthesized(h)) <==> forall id :: !LeftOver(h, id)
  {
    if id :| LeftOver(h, id) {
      OneMissing(h, id);
      Lengths(h);
      assert |multiset(Closed(h))| < |multiset(h + Synthesized(h))|;
    } else {
      forall s ensures Count(Sources(h), s) == Count(Everything(h), s) { Missing(h, s); }
      RenderPermuted(h, Sources(h), Everything(h));
    }
  }

  // ---------- every call is answered ----------

  /** A segment that begins like this has as many results for each id as these calls. */
  ghost predicate ServesAll(rest: seq<Message>, calls: seq<ToolCall>) {
    forall id :: CallsFor(calls, id) <= OwnResults(rest, id)
  }

  /** Every message that makes calls is followed, in its own segment, by as many results for each id. */
  ghost predicate Enough(s: seq<Message>) {
    s == [] || (ServesAll(s[1..], Calls(s[0])) && Enough(s[1..]))
  }

  lemma {:induction false} OwnHead(m: Message, rest: seq<Message>, id: string)
    ensures OwnResults([m] + rest, id) ==
            if Breaker(m) then 0 else (if ResultFor(m, id) then 1 else 0) + OwnResults(rest, id)
  {
    Tailed(m, rest, []);
  }

  lemma {:induction false} EnoughHead(m: Message, rest: seq<Message>)
    ensures Enough([m] + rest) <==> ServesAll(rest, Calls(m)) && Enough(rest)
    ensures Calls(m) == [] ==> ServesAll(rest, Calls(m))
  {
    Tailed(m, rest, []);
  }

  /** One more result in front serves one more call. */
  lemma {:induction false} OneMoreCovers(m: Message, rest: seq<Message>, call: ToolCall, calls: seq<ToolCall>)
    requires m.role == Tool && m.toolCallId == Some(call.id) && ServesAll(rest, calls) && Enough(rest)
    ensures ServesAll([m] + rest, [call] + calls) && Enough([m] + rest)
  {
    EnoughHead(m, rest);
    forall id ensures CallsFor([call] + calls, id) <= OwnResults([m] + rest, id) {
      OwnHead(m, rest, id);
      assert ([call] + calls)[1..] == calls;
    }
  }

  /** Closing the open calls answers each of them. */
  lemma {:induction false} DrainAnswers(h: seq<Message>, res: map<string, nat>, open: seq<ToolCall>,
                                        consumed: set<nat>, rest: seq<Message>)
    requires Indexes(h, res) && InLog(h, Drain(res, open, consumed).0) && Enough(rest)
    ensures var all := Render(h, Drain(res, open, consumed).0) + rest; ServesAll(all, open) && Enough(all)
    decreases |open|
  {
    var s := Drain(res, open, consumed).0;
    if open == [] {
      assert Render(h, s) + rest == rest;
    } else {
      var call := open[0];
      var after := if call.id in res && res[call.id] !in consumed then consumed + {res[call.id]} else consumed;
      var d := Drain(res, open[1..], after).0;
      assert s[1..] == d && open == [call] + open[1..];
      DrainAnswers(h, res, open[1..], after, rest);
      assert Render(h, s) == [Rendered(h, s[0])] + Render(h, d);
      Tailed(Rendered(h, s[0]), Render(h, d), rest);
      OneMoreCovers(Rendered(h, s[0]), Render(h, d) + rest, call, open[1..]);
    }
  }

  lemma {:induction false} BreakerAnswers(h: seq<Message>, res: map<string, nat>, i: nat, open: seq<ToolCall>,
                                          consumed: set<nat>, s: seq<Source>)
    requires i < |h| && Indexes(h, res) && Breaker(h[i]) && InLog(h, s)
    requires Enough(Render(h, s)) && ServesAll(Render(h, s), Calls(h[i]))
    ensures var all := Advance(h, res, i, open, consumed).emit + s;
            InLog(h, all) && ServesAll(Render(h, all), open) && Enough(Render(h, all))
  {
    var closed, rest := Drain(res, open, consumed).0, Render(h, s);
    DrainInLog(h, res, open, consumed);
    EnoughHead(h[i], rest);
    DrainAnswers(h, res, open, consumed, [h[i]] + rest);
    assert Render(h, [Log(i)]) == [h[i]];
    RenderAppend(h, closed, [Log(i)]);
    RenderAppend(h, closed + [Log(i)], s);
    Regrouped(Render(h, closed), [h[i]], rest);
  }

  lemma {:induction false} QuietAnswers(h: seq<Message>, res: map<string, nat>, i: nat, open: seq<ToolCall>,
                                        consumed: set<nat>, s: seq<Source>)
    requires i < |h| && Indexes(h, res) && !Breaker(h[i]) && InLog(h, s)
    requires Enough(Render(h, s)) && ServesAll(Render(h, s), Advance(h, res, i, open, consumed).open)
    ensures var all := Advance(h, res, i, open, consumed).emit + s;
            InLog(h, all) && ServesAll(Render(h, all), open) && Enough(Render(h, all))
  {
    var step := Advance(h, res, i, open, consumed);
    RenderAppend(h, step.emit, s);
    if step.emit == [] {
      assert step.emit + s == s;
    } else {
      assert Render(h, step.emit) == [h[i]];
      EnoughHead(h[i], Render(h, s));
      StaysCovered(h[i], step.open, open, Render(h, s));
    }
  }

  lemma {:induction false} StaysCovered(m: Message, left: seq<ToolCall>, open: seq<ToolCall>, rest: seq<Message>)
    requires !Breaker(m) && ServesAll(rest, left)
    requires left == open || (m.role == Tool && OpenPosition(open, m).Some? &&
                                left == Without(open, OpenPosition(open, m).value))
    ensures ServesAll([m] + rest, open)
  {
    forall id ensures CallsFor(open, id) <= OwnResults([m] + rest, id) {
      OwnHead(m, rest, id);
      if left != open { CallsForWithout(open, OpenPosition(open, m).value, id); }
    }
  }

  lemma {:induction false} RebuildAnswers(h: seq<Message>, res: map<string, nat>, i: nat, open: seq<ToolCall>,
                                          consumed: set<nat>)
    requires i <= |h| && Indexes(h, res)
    ensures var s := Rebuild(h, res, i, open, consumed);
            InLog(h, s) && ServesAll(Render(h, s), open) && Enough(Render(h, s))
    decreases |h| - i
  {
    if i == |h| {
      var closed := Drain(res, open, consumed).0;
      DrainInLog(h, res, open, consumed);
      DrainAnswers(h, res, open, consumed, []);
      assert Render(h, closed) + [] == Render(h, closed);
    } else {
      var step := Advance(h, res, i, open, consumed);
      var s := Rebuild(h, res, i + 1, step.open, step.consumed);
      RebuildAnswers(h, res, i + 1, step.open, step.consumed);
      if Breaker(h[i]) {
        BreakerAnswers(h, res, i, open, consumed, s);
      } else {
        QuietAnswers(h, res, i, open, consumed, s);
      }
    }
  }

  /** For every history, each call has a result of its own before the next chain-breaking message. */
  lemma {:induction false} EveryCallHasItsOwn(h: seq<Message>)
    ensures Enough(Closed(h))
  {
    RebuildAnswers(h, Results(h), 0, [], {});
  }
}
