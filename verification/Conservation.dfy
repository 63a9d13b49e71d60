/** Close-out loses nothing, and the only histories for which it does. */
module Conservation {
  import opened Messages
  import opened CloseOut
  import opened CloseOutLaws

  /** `res` sends a call id to its first result. */
  ghost predicate FirstOnly(h: seq<Message>, res: map<string, nat>) {
    forall id :: id in res ==> FirstResult(h, id, 0) == Some(res[id])
  }

  /** Batch b has a call whose matched result k stands ahead of it, and another result for the
      same call inside its own segment. */
  predicate Preempts(h: seq<Message>, b: nat, k: nat) {
    && k < b < |h| && h[k].toolCallId.Some?
    && h[k].toolCallId.value in CallIds(Calls(h[b]))
    && SegmentHas(h[b + 1..], h[k].toolCallId.value)
  }

  ghost predicate PreemptedFrom(h: seq<Message>, i: nat, k: nat) {
    exists b :: i <= b < |h| && Preempts(h, b, k)
  }

  function Count(sources: seq<Source>, s: Source): nat {
    if sources == [] then 0 else (if sources[0] == s then 1 else 0) + Count(sources[1..], s)
  }

  lemma {:induction false} CountAppend(a: seq<Source>, b: seq<Source>, s: Source)
    ensures Count(a + b, s) == Count(a, s) + Count(b, s)
  {
    if a == [] {
      assert a + b == b;
    } else {
      CountAppend(a[1..], b, s);
      assert (a + b)[0] == a[0] && (a + b)[1..] == a[1..] + b;
    }
  }

  /** How often message k is still to be emitted when the walk stands at i. */
  ghost function Remaining(h: History, res: map<string, nat>, i: nat, open: seq<ToolCall>, k: nat): nat
    requires i <= |h| && k < |h|
  {
    if !Matched(h, res, k) then (if k >= i then 1 else 0)
    else
      var id := h[k].toolCallId.value;
      if id in CallIds(open) then (if k < i && SegmentHas(h[i..], id) then 0 else 1)
      else if Ahead(h, i, id) && !PreemptedFrom(h, i, k) then 1
      else 0
  }

  lemma {:induction false} ResolveCount(h: History, res: map<string, nat>, open: seq<ToolCall>, k: nat)
    requires FirstOnly(h, res) && DistinctIds(open) && k < |h|
    ensures Count(Resolve(res, open), Log(k)) == if Matched(h, res, k) &&
              h[k].toolCallId.value in CallIds(open) then 1 else 0
  {
    if open == [] {
      assert CallIds(open) == {};
    } else {
      assert DistinctIds(open[1..]);
      ResolveCount(h, res, open[1..], k);
      var r := Resolve(res, open);
      assert r[0] == Resolved(res, open[0]) && r[1..] == Resolve(res, open[1..]);
      OthersIds(open, 0);
      assert Without(open, 0) == open[1..] && open[0].id in CallIds(open);
    }
  }

  lemma {:induction false} SegmentTail(h: seq<Message>, i: nat, id: string)
    requires i < |h|
    ensures SegmentHas(h[i..], id) == (!Breaker(h[i]) && (ResultFor(h[i], id) || SegmentHas(h[i + 1..], id)))
    ensures !SegmentHas(h[|h|..], id)
  {
    assert h[i..][0] == h[i] && h[i..][1..] == h[i + 1..];
  }

  lemma {:induction false} FirstAhead(h: seq<Message>, i: nat, k: nat)
    requires i < |h| && k < |h| && h[k].toolCallId.Some?
    ensures var id := h[k].toolCallId.value;
            && (Ahead(h, i, id) <==> id in CallIds(Calls(h[i])) || Ahead(h, i + 1, id))
            && (PreemptedFrom(h, i, k) <==> Preempts(h, i, k) || PreemptedFrom(h, i + 1, k))
  {
  }

  /** A batch id belongs to one batch only. */
  lemma {:induction false} OneBatch(h: History, i: nat, open: seq<ToolCall>, id: string)
    requires Ready(h, i, open)
    ensures id in CallIds(open) ==> !Ahead(h, i, id)
    ensures i < |h| && id in CallIds(Calls(h[i])) ==> !Ahead(h, i + 1, id)
  {
  }

  lemma {:induction false} QuietStepDue(h: History, res: map<string, nat>, i: nat, open: seq<ToolCall>, k: nat)
    requires Ready(h, i, open) && FirstOnly(h, res) && i < |h| && k < |h|
    requires !Breaker(h[i])
    ensures var step := Pace(h, res, i, open);
            Remaining(h, res, i, open, k) == Count(step.emit, Log(k)) + Remaining(h, res, i + 1, step.open, k)
  {
    if Matched(h, res, k) {
      var id := h[k].toolCallId.value;
      SegmentTail(h, i, id);
      FirstAhead(h, i, k);
      OneBatch(h, i, open, id);
      var pos := OpenPosition(open, h[i]);
      if h[i].role == Tool && pos.Some? {
        OthersIds(open, pos.value);
        assert open[pos.value].id in CallIds(open);
      } else if h[i].role == Tool {
        assert id in CallIds(open) ==> h[i].toolCallId != Some(id);
      }
    }
  }

  lemma {:induction false} BreakerStepDue(h: History, res: map<string, nat>, i: nat, open: seq<ToolCall>, k: nat)
    requires Ready(h, i, open) && FirstOnly(h, res) && i < |h| && k < |h|
    requires Breaker(h[i])
    ensures var step := Pace(h, res, i, open);
            Remaining(h, res, i, open, k) == Count(step.emit, Log(k)) + Remaining(h, res, i + 1, step.open, k)
  {
    ResolveCount(h, res, open, k);
    CountAppend(Resolve(res, open), [Log(i)], Log(k));
    if Matched(h, res, k) {
      var id := h[k].toolCallId.value;
      SegmentTail(h, i, id);
      FirstAhead(h, i, k);
      OneBatch(h, i, open, id);
      OneBatch(h, i + 1, Calls(h[i]), id);
    }
  }

  lemma {:induction false} StepDue(h: History, res: map<string, nat>, i: nat, open: seq<ToolCall>, k: nat)
    requires Ready(h, i, open) && FirstOnly(h, res) && i < |h| && k < |h|
    ensures var step := Pace(h, res, i, open);
            Remaining(h, res, i, open, k) == Count(step.emit, Log(k)) + Remaining(h, res, i + 1, step.open, k)
  {
    if Breaker(h[i]) {
      BreakerStepDue(h, res, i, open, k);
    } else {
      QuietStepDue(h, res, i, open, k);
    }
  }

  lemma {:induction false} EndDue(h: History, res: map<string, nat>, open: seq<ToolCall>, k: nat)
    requires FirstOnly(h, res) && DistinctIds(open) && k < |h|
    ensures Count(Resolve(res, open), Log(k)) == Remaining(h, res, |h|, open, k)
  {
    ResolveCount(h, res, open, k);
    assert h[|h|..] == [];
  }

  lemma {:induction false} StepCount(h: History, res: map<string, nat>, i: nat, open: seq<ToolCall>, k: nat)
    requires Ready(h, i, open) && FirstOnly(h, res) && i < |h| && k < |h|
    requires var next := Pace(h, res, i, open).open;
             Count(Settle(h, res, i + 1, next), Log(k)) == Remaining(h, res, i + 1, next, k)
    ensures Count(Settle(h, res, i, open), Log(k)) == Remaining(h, res, i, open, k)
  {
    var step := Pace(h, res, i, open);
    StepDue(h, res, i, open, k);
    CountAppend(step.emit, Settle(h, res, i + 1, step.open), Log(k));
  }

  /** The close-out emits every message as often as it is due. */
  lemma {:induction false} SettleCount(h: History, res: map<string, nat>, i: nat, open: seq<ToolCall>, k: nat)
    requires Ready(h, i, open) && FirstOnly(h, res) && k < |h|
    ensures Count(Settle(h, res, i, open), Log(k)) == Remaining(h, res, i, open, k)
    decreases |h| - i
  {
    if i == |h| {
      EndDue(h, res, open, k);
    } else {
      ReadyNext(h, res, i, open);
      SettleCount(h, res, i + 1, Pace(h, res, i, open).open, k);
      StepCount(h, res, i, open, k);
    }
  }

  // ---------- from sources to messages ----------

  /** The log itself, message by message. */
  function Whole(n: nat): (r: seq<Source>)
    ensures |r| == n && forall k :: 0 <= k < n ==> r[k] == Log(k)
  {
    if n == 0 then [] else Whole(n - 1) + [Log(n - 1)]
  }

  lemma {:induction false} WholeCount(n: nat, s: Source)
    ensures Count(Whole(n), s) == if s.Log? && s.pos < n then 1 else 0
  {
    if n > 0 {
      WholeCount(n - 1, s);
      CountAppend(Whole(n - 1), [Log(n - 1)], s);
    }
  }

  function SynthSources(calls: seq<ToolCall>): (r: seq<Source>)
    ensures |r| == |calls| && forall p :: 0 <= p < |r| ==> r[p] == Synth(calls[p])
  {
    if calls == [] then [] else [Synth(calls[0])] + SynthSources(calls[1..])
  }

  lemma {:induction false} SynthCount(sources: seq<Source>, s: Source)
    ensures Count(SynthSources(SynthCalls(sources)), s) == if s.Synth? then Count(sources, s) else 0
  {
    if sources != [] {
      SynthCount(sources[1..], s);
      var calls := SynthCalls(sources);
      if sources[0].Synth? {
        assert calls[0] == sources[0].call && calls[1..] == SynthCalls(sources[1..]);
        assert SynthSources(calls)[1..] == SynthSources(calls[1..]);
      } else {
        assert calls == SynthCalls(sources[1..]);
      }
    }
  }

  function Remove(b: seq<Source>, s: Source): seq<Source> {
    if b == [] then [] else if b[0] == s then b[1..] else [b[0]] + Remove(b[1..], s)
  }

  lemma {:induction false} RemoveCount(b: seq<Source>, s: Source, t: Source)
    requires Count(b, s) > 0
    ensures Count(Remove(b, s), t) == Count(b, t) - if s == t then 1 else 0
  {
    if b[0] != s {
      RemoveCount(b[1..], s, t);
      var r := Remove(b, s);
      assert r[0] == b[0] && r[1..] == Remove(b[1..], s);
    }
  }

  lemma {:induction false} RemoveInLog(h: seq<Message>, b: seq<Source>, s: Source)
    requires InLog(h, b) && Count(b, s) > 0
    ensures (s.Log? ==> s.pos < |h|) && InLog(h, Remove(b, s))
  {
    if b[0] != s { RemoveInLog(h, b[1..], s); }
  }

  lemma {:induction false} RenderCons(h: seq<Message>, b: seq<Source>)
    requires InLog(h, b) && b != []
    ensures InLog(h, b[1..]) && multiset(Render(h, b)) == multiset{Rendered(h, b[0])} + multiset(Render(h, b[1..]))
  {
    assert Render(h, b) == [Rendered(h, b[0])] + Render(h, b[1..]);
  }

  lemma {:induction false} RemoveRenders(h: seq<Message>, b: seq<Source>, s: Source)
    requires InLog(h, b) && Count(b, s) > 0 && InLog(h, Remove(b, s)) && (s.Log? ==> s.pos < |h|)
    ensures multiset(Render(h, b)) == multiset{Rendered(h, s)} + multiset(Render(h, Remove(b, s)))
  {
    RenderCons(h, b);
    if b[0] != s {
      RemoveInLog(h, b[1..], s);
      RemoveRenders(h, b[1..], s);
      var fewer := Remove(b, s);
      assert fewer[0] == b[0] && fewer[1..] == Remove(b[1..], s);
      RenderCons(h, fewer);
      Swapped(Rendered(h, b[0]), Rendered(h, s), multiset(Render(h, fewer[1..])));
    }
  }

  lemma {:induction false} Swapped(a: Message, b: Message, rest: multiset<Message>)
    ensures multiset{a} + (multiset{b} + rest) == multiset{b} + (multiset{a} + rest)
  {
  }

  /** Sources that occur equally often render to the same multiset of messages. */
  lemma {:induction false} RenderPermuted(h: seq<Message>, a: seq<Source>, b: seq<Source>)
    requires InLog(h, a) && InLog(h, b) && forall s :: Count(a, s) == Count(b, s)
    ensures multiset(Render(h, a)) == multiset(Render(h, b))
    decreases |a|
  {
    if a == [] {
      if b != [] { assert Count(a, b[0]) == 0; }
    } else {
      var s := a[0];
      assert Count(a, s) == Count(b, s) && Remove(a, s) == a[1..];
      forall t ensures Count(a[1..], t) == Count(Remove(b, s), t) {
        RemoveCount(a, s, t);
        RemoveCount(b, s, t);
      }
      RemoveInLog(h, a, s);
      RemoveInLog(h, b, s);
      RemoveRenders(h, a, s);
      RemoveRenders(h, b, s);
      RenderPermuted(h, a[1..], Remove(b, s));
    }
  }

  /** Fewer occurrences, fewer sources. */
  lemma {:induction false} FewerCounts(a: seq<Source>, b: seq<Source>, lost: Source)
    requires (forall s :: Count(a, s) <= Count(b, s)) && Count(a, lost) < Count(b, lost)
    ensures |a| < |b|
    decreases |a|
  {
    if a != [] {
      var s := a[0];
      assert Count(a, s) <= Count(b, s) && Remove(a, s) == a[1..];
      forall t
        ensures Count(a[1..], t) <= Count(Remove(b, s), t) && (t == lost ==> Count(a[1..], t) < Count(Remove(b, s), t))
      {
        RemoveCount(a, s, t);
        RemoveCount(b, s, t);
      }
      RemoveShorter(b, s);
      FewerCounts(a[1..], Remove(b, s), lost);
    }
  }

  lemma {:induction false} RemoveShorter(b: seq<Source>, s: Source)
    requires Count(b, s) > 0
    ensures |Remove(b, s)| == |b| - 1
  {
    if b[0] != s { RemoveShorter(b[1..], s); }
  }

  /** The log followed by the synthesized results. */
  function Everything(h: seq<Message>): (r: seq<Source>)
    ensures InLog(h, r) && Render(h, r) == h + Synthesized(h)
  {
    var calls := SynthCalls(Sources(h));
    var whole, synth := Whole(|h|), SynthSources(calls);
    RenderAppend(h, whole, synth);
    assert Render(h, whole) == h;
    assert Render(h, synth) == CancelledResults(calls);
    whole + synth
  }

  /** A call whose matched result stands ahead of its batch is answered again inside it. */
  ghost predicate Overwritten(h: seq<Message>) {
    exists k :: 0 <= k < |h| && Matched(h, Results(h), k) && PreemptedFrom(h, 0, k)
  }

  lemma {:induction false} CountsFromStart(h: History, k: nat)
    requires k < |h|
    ensures Count(Sources(h), Log(k)) == if Matched(h, Results(h), k) && PreemptedFrom(h, 0, k) then 0 else 1
  {
    ClosedIsAfter(h);
    SettleCount(h, Results(h), 0, [], k);
    if Matched(h, Results(h), k) {
      var id := h[k].toolCallId.value;
      assert id in BatchIds(h);
      var j, q :| 0 <= j < |h| && 0 <= q < |Calls(h[j])| && Calls(h[j])[q].id == id;
      assert id in CallIds(Calls(h[j])) && Ahead(h, 0, id);
      assert CallIds([]) == {};
    }
  }

  lemma {:induction false} CountsOf(h: History, s: Source)
    ensures Count(Everything(h), s) - Count(Sources(h), s) ==
              if s.Log? && s.pos < |h| && Matched(h, Results(h), s.pos) && PreemptedFrom(h, 0, s.pos) then 1 else 0
  {
    var calls := SynthCalls(Sources(h));
    CountAppend(Whole(|h|), SynthSources(calls), s);
    WholeCount(|h|, s);
    SynthCount(Sources(h), s);
    if s.Log? {
      if s.pos < |h| { CountsFromStart(h, s.pos); } else { NotCounted(h, Sources(h), s); }
    }
  }

  lemma {:induction false} NotCounted(h: seq<Message>, sources: seq<Source>, s: Source)
    requires InLog(h, sources) && s.Log? && s.pos >= |h|
    ensures Count(sources, s) == 0
  {
    if sources != [] { NotCounted(h, sources[1..], s); }
  }

  /** With distinct call ids the closed-out history is a permutation of the log plus the
      synthesized results, exactly when no call has a result ahead of its batch and another
      inside it; the early one is the message that goes missing. */
  lemma {:induction false} ClosedConserves(h: History)
    ensures multiset(Closed(h)) == multiset(h) + multiset(Synthesized(h)) <==> !Overwritten(h)
  {
    if Overwritten(h) {
      OneLost(h);
      Lengths(h);
      assert |multiset(Closed(h))| < |multiset(h + Synthesized(h))|;
    } else {
      forall s ensures Count(Sources(h), s) == Count(Everything(h), s) { CountsOf(h, s); }
      RenderPermuted(h, Sources(h), Everything(h));
    }
  }

  lemma {:induction false} Lengths(h: seq<Message>)
    ensures |Closed(h)| == |Sources(h)| && |h + Synthesized(h)| == |Everything(h)|
  {
  }

  lemma {:induction false} NoneAdded(h: History)
    ensures forall s :: Count(Sources(h), s) <= Count(Everything(h), s)
  {
    forall s ensures Count(Sources(h), s) <= Count(Everything(h), s) { CountsOf(h, s); }
  }

  lemma {:induction false} LostAt(h: History, k: nat)
    requires k < |h| && Matched(h, Results(h), k) && PreemptedFrom(h, 0, k)
    ensures Count(Sources(h), Log(k)) < Count(Everything(h), Log(k))
  {
    CountsOf(h, Log(k));
  }

  lemma {:induction false} OneLost(h: History)
    requires Overwritten(h)
    ensures |Sources(h)| < |Everything(h)|
  {
    var k: nat :| k < |h| && Matched(h, Results(h), k) && PreemptedFrom(h, 0, k);
    NoneAdded(h);
    LostAt(h, k);
    FewerCounts(Sources(h), Everything(h), Log(k));
  }
}
