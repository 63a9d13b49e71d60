/** Closing dangling tool batches of a loaded history
    (crates/kernel/src/agent/message_buffer.rs:102-223, 342-375). */
module CloseOut {
  import opened Messages

  // ---------- what the rebuilt history consists of ----------

  /** A message of the rebuilt history: one of the log's, or a synthesized result. */
  datatype Source = Log(pos: nat) | Synth(call: ToolCall)

  predicate InLog(h: seq<Message>, sources: seq<Source>) {
    forall p :: 0 <= p < |sources| && sources[p].Log? ==> sources[p].pos < |h|
  }

  function Rendered(h: seq<Message>, source: Source): Message
    requires source.Log? ==> source.pos < |h|
  {
    match source
    case Log(pos) => h[pos]
    case Synth(call) => CancelledResult(call.id)
  }

  function Render(h: seq<Message>, sources: seq<Source>): (r: seq<Message>)
    requires InLog(h, sources)
    ensures |r| == |sources| && forall p :: 0 <= p < |r| ==> r[p] == Rendered(h, sources[p])
  {
    if sources == [] then [] else [Rendered(h, sources[0])] + Render(h, sources[1..])
  }

  function SynthCalls(sources: seq<Source>): seq<ToolCall> {
    if sources == [] then []
    else if sources[0].Synth? then [sources[0].call] + SynthCalls(sources[1..])
    else SynthCalls(sources[1..])
  }

  function CancelledResults(calls: seq<ToolCall>): (r: seq<Message>)
    ensures |r| == |calls| && forall p :: 0 <= p < |r| ==> r[p] == CancelledResult(calls[p].id)
  {
    seq(|calls|, p requires 0 <= p < |calls| => CancelledResult(calls[p].id))
  }

  // ---------- first pass: where each batch call finds its result ----------

  function BatchIds(h: seq<Message>): set<string> {
    set j, q | 0 <= j < |h| && 0 <= q < |Calls(h[j])| :: Calls(h[j])[q].id
  }

  function FirstResult(h: seq<Message>, id: string, lo: nat): (first: Option<nat>)
    requires lo <= |h|
    ensures first.Some? ==> lo <= first.value < |h| && ResultFor(h[first.value], id)
    ensures first.Some? ==> forall k :: lo <= k < first.value ==> !ResultFor(h[k], id)
    ensures first.None? ==> forall k :: lo <= k < |h| ==> !ResultFor(h[k], id)
    decreases |h| - lo
  {
    if lo == |h| then None else if ResultFor(h[lo], id) then Some(lo) else FirstResult(h, id, lo + 1)
  }

  function Results(h: seq<Message>): (res: map<string, nat>)
    ensures forall id :: id in res ==> res[id] < |h| && ResultFor(h[res[id]], id)
  {
    map id | id in BatchIds(h) && FirstResult(h, id, 0).Some? :: FirstResult(h, id, 0).value
  }

  predicate Indexes(h: seq<Message>, res: map<string, nat>) {
    forall id :: id in res ==> res[id] < |h| && ResultFor(h[res[id]], id)
  }

  // ---------- second pass, as the code runs it ----------

  function Position(open: seq<ToolCall>, id: string): (pos: Option<nat>)
    ensures pos.Some? ==> pos.value < |open| && open[pos.value].id == id
    ensures pos.None? ==> forall p :: 0 <= p < |open| ==> open[p].id != id
  {
    if open == [] then None
    else if open[0].id == id then Some(0)
    else var rest := Position(open[1..], id); if rest.Some? then Some(1 + rest.value) else None
  }

  function OpenPosition(open: seq<ToolCall>, m: Message): (pos: Option<nat>)
    ensures pos.Some? ==> pos.value < |open| && m.toolCallId == Some(open[pos.value].id)
    ensures pos.None? ==> forall p :: 0 <= p < |open| ==> m.toolCallId != Some(open[p].id)
  {
    if m.toolCallId.Some? then Position(open, m.toolCallId.value) else None
  }

  function Without(open: seq<ToolCall>, pos: nat): seq<ToolCall>
    requires pos < |open|
  {
    open[..pos] + open[pos + 1..]
  }

  /** Is message k the result its call is matched with? */
  predicate Matched(h: seq<Message>, res: map<string, nat>, k: nat)
    requires k < |h|
  {
    h[k].role == Tool && h[k].toolCallId.Some? && h[k].toolCallId.value in res && res[h[k].toolCallId.value] == k
  }

  /** `close_open_batch`: migrate or synthesize a result for every open call. */
  function Drain(res: map<string, nat>, open: seq<ToolCall>, consumed: set<nat>): (seq<Source>, set<nat>) {
    if open == [] then ([], consumed)
    else
      var id := open[0].id;
      if id in res && res[id] !in consumed then
        var (rest, after) := Drain(res, open[1..], consumed + {res[id]});
        ([Log(res[id])] + rest, after)
      else
        var (rest, after) := Drain(res, open[1..], consumed);
        ([Synth(open[0])] + rest, after)
  }

  datatype Cursor = Cursor(emit: seq<Source>, open: seq<ToolCall>, consumed: set<nat>)

  function Advance(h: seq<Message>, res: map<string, nat>, i: nat, open: seq<ToolCall>, consumed: set<nat>): Cursor
    requires i < |h|
  {
    match h[i].role
    case Internal => Cursor([Log(i)], open, consumed)
    case Tool =>
      var pos := OpenPosition(open, h[i]);
      if i in consumed then Cursor([], open, consumed)
      else if pos.Some? then Cursor([Log(i)], Without(open, pos.value), consumed + {i})
      else if Matched(h, res, i) then Cursor([], open, consumed)
      else Cursor([Log(i)], open, consumed)
    case _ =>
      var (closed, after) := Drain(res, open, consumed);
      Cursor(closed + [Log(i)], Calls(h[i]), after)
  }

  function Rebuild(h: seq<Message>, res: map<string, nat>, i: nat, open: seq<ToolCall>, consumed: set<nat>): seq<Source>
    requires i <= |h|
    decreases |h| - i
  {
    if i == |h| then Drain(res, open, consumed).0
    else
      var step := Advance(h, res, i, open, consumed);
      step.emit + Rebuild(h, res, i + 1, step.open, step.consumed)
  }

  lemma {:induction false} DrainInLog(h: seq<Message>, res: map<string, nat>, open: seq<ToolCall>, consumed: set<nat>)
    requires Indexes(h, res)
    ensures InLog(h, Drain(res, open, consumed).0)
  {
    if open != [] {
      DrainInLog(h, res, open[1..], consumed + if open[0].id in res then {res[open[0].id]} else {});
      DrainInLog(h, res, open[1..], consumed);
    }
  }

  lemma {:induction false} RebuildInLog(h: seq<Message>, res: map<string, nat>, i: nat, open: seq<ToolCall>,
                                        consumed: set<nat>)
    requires i <= |h| && Indexes(h, res)
    ensures InLog(h, Rebuild(h, res, i, open, consumed))
    decreases |h| - i
  {
    DrainInLog(h, res, open, consumed);
    if i < |h| {
      var step := Advance(h, res, i, open, consumed);
      RebuildInLog(h, res, i + 1, step.open, step.consumed);
    }
  }

  /** Where every message of the closed-out history comes from. */
  function Sources(h: seq<Message>): (sources: seq<Source>)
    ensures InLog(h, sources)
  {
    RebuildInLog(h, Results(h), 0, [], {});
    Rebuild(h, Results(h), 0, [], {})
  }

  /** The closed-out history. */
  function Closed(h: seq<Message>): seq<Message> {
    Render(h, Sources(h))
  }

  /** The synthesized messages, which the caller appends to the log. */
  function Synthesized(h: seq<Message>): seq<Message> {
    CancelledResults(SynthCalls(Sources(h)))
  }

  lemma {:induction false} RenderAppend(h: seq<Message>, a: seq<Source>, b: seq<Source>)
    requires InLog(h, a) && InLog(h, b)
    ensures InLog(h, a + b) && Render(h, a + b) == Render(h, a) + Render(h, b)
  {
  }

  lemma {:induction false} SynthAppend(a: seq<Source>, b: seq<Source>)
    ensures SynthCalls(a + b) == SynthCalls(a) + SynthCalls(b)
  {
    if a == [] {
      assert a + b == b;
    } else {
      SynthAppend(a[1..], b);
      assert (a + b)[1..] == a[1..] + b && (a + b)[0] == a[0];
      var head := if a[0].Synth? then [a[0].call] else [];
      assert head + (SynthCalls(a[1..]) + SynthCalls(b)) == (head + SynthCalls(a[1..])) + SynthCalls(b);
    }
  }

  // ---------- non-Tool messages keep their order (every history) ----------

  function Spoken(s: seq<Message>): seq<Message> {
    if s == [] then [] else if s[0].role == Tool then Spoken(s[1..]) else [s[0]] + Spoken(s[1..])
  }

  lemma {:induction false} SpokenAppend(a: seq<Message>, b: seq<Message>)
    ensures Spoken(a + b) == Spoken(a) + Spoken(b)
  {
    if a == [] {
      assert a + b == b;
    } else {
      SpokenAppend(a[1..], b);
      assert (a + b)[1..] == a[1..] + b;
    }
  }

  lemma {:induction false} DrainSilent(h: seq<Message>, res: map<string, nat>, open: seq<ToolCall>, consumed: set<nat>)
    requires Indexes(h, res)
    ensures InLog(h, Drain(res, open, consumed).0) && Spoken(Render(h, Drain(res, open, consumed).0)) == []
  {
    DrainInLog(h, res, open, consumed);
    if open != [] {
      var d := Drain(res, open, consumed).0;
      DrainSilent(h, res, open[1..], consumed + if open[0].id in res then {res[open[0].id]} else {});
      DrainSilent(h, res, open[1..], consumed);
      assert Render(h, d)[1..] == Render(h, d[1..]);
    }
  }

  lemma {:induction false} RenderedSpoken(h: seq<Message>, a: seq<Source>, b: seq<Source>)
    requires InLog(h, a) && InLog(h, b)
    ensures InLog(h, a + b) && Spoken(Render(h, a + b)) == Spoken(Render(h, a)) + Spoken(Render(h, b))
  {
    RenderAppend(h, a, b);
    SpokenAppend(Render(h, a), Render(h, b));
  }

  lemma {:induction false} OwnSpoken(h: seq<Message>, i: nat)
    requires i < |h|
    ensures InLog(h, [Log(i)]) && Spoken(Render(h, [Log(i)])) == Spoken([h[i]])
  {
    assert Render(h, [Log(i)]) == [h[i]];
  }

  lemma {:induction false} AdvanceSpoken(h: seq<Message>, res: map<string, nat>, i: nat, open: seq<ToolCall>,
                                         consumed: set<nat>)
    requires i < |h| && Indexes(h, res)
    ensures var emit := Advance(h, res, i, open, consumed).emit;
            InLog(h, emit) && Spoken(Render(h, emit)) == Spoken([h[i]])
  {
    OwnSpoken(h, i);
    if Breaker(h[i]) {
      DrainSilent(h, res, open, consumed);
      RenderedSpoken(h, Drain(res, open, consumed).0, [Log(i)]);
    } else {
      assert h[i].role == Tool ==> Spoken([h[i]]) == [];
    }
  }

  lemma {:induction false} RebuildSpoken(h: seq<Message>, res: map<string, nat>, i: nat, open: seq<ToolCall>,
                                         consumed: set<nat>)
    requires i <= |h| && Indexes(h, res)
    ensures InLog(h, Rebuild(h, res, i, open, consumed))
    ensures Spoken(Render(h, Rebuild(h, res, i, open, consumed))) == Spoken(h[i..])
    decreases |h| - i
  {
    if i == |h| {
      DrainSilent(h, res, open, consumed);
    } else {
      var step := Advance(h, res, i, open, consumed);
      RebuildSpoken(h, res, i + 1, step.open, step.consumed);
      AdvanceSpoken(h, res, i, open, consumed);
      RenderedSpoken(h, step.emit, Rebuild(h, res, i + 1, step.open, step.consumed));
      SpokenFrom(h, i);
    }
  }

  lemma {:induction false} SpokenFrom(h: seq<Message>, i: nat)
    requires i < |h|
    ensures Spoken(h[i..]) == Spoken([h[i]]) + Spoken(h[i + 1..])
  {
    assert h[i..] == [h[i]] + h[i + 1..];
    SpokenAppend([h[i]], h[i + 1..]);
  }

  /** Close-out moves and adds results only: every other message keeps its place in the order. */
  lemma {:induction false} NonToolOrderKept(h: seq<Message>)
    ensures Spoken(Closed(h)) == Spoken(h)
  {
    RebuildSpoken(h, Results(h), 0, [], {});
    assert h[0..] == h;
  }

  // ---------- distinct call ids: no `consumed` set is needed ----------

  ghost predicate DistinctCallIds(h: seq<Message>) {
    && (forall j :: 0 <= j < |h| ==> DistinctIds(Calls(h[j])))
    && (forall j, k, p, q :: 0 <= j < k < |h| && 0 <= p < |Calls(h[j])| && 0 <= q < |Calls(h[k])| ==>
          Calls(h[j])[p].id != Calls(h[k])[q].id)
  }

  /** The histories the kernel writes: no two calls share an id. */
  type History = h: seq<Message> | DistinctCallIds(h) ghost witness []

  /** The open calls differ from each other and from those of every batch from i on. */
  ghost predicate Ready(h: seq<Message>, i: nat, open: seq<ToolCall>) {
    && i <= |h|
    && DistinctIds(open)
    && (forall p, k, q :: 0 <= p < |open| && i <= k < |h| && 0 <= q < |Calls(h[k])| ==> open[p].id != Calls(h[k])[q].id)
  }

  function Resolved(res: map<string, nat>, call: ToolCall): Source {
    if call.id in res then Log(res[call.id]) else Synth(call)
  }

  function Resolve(res: map<string, nat>, open: seq<ToolCall>): (r: seq<Source>)
    ensures |r| == |open| && forall p :: 0 <= p < |r| ==> r[p] == Resolved(res, open[p])
  {
    if open == [] then [] else [Resolved(res, open[0])] + Resolve(res, open[1..])
  }

  datatype Stride = Stride(emit: seq<Source>, open: seq<ToolCall>)

  function Pace(h: seq<Message>, res: map<string, nat>, i: nat, open: seq<ToolCall>): Stride
    requires i < |h|
  {
    match h[i].role
    case Internal => Stride([Log(i)], open)
    case Tool =>
      var pos := OpenPosition(open, h[i]);
      if pos.Some? then Stride([Log(i)], Without(open, pos.value))
      else if Matched(h, res, i) then Stride([], open)
      else Stride([Log(i)], open)
    case _ => Stride(Resolve(res, open) + [Log(i)], Calls(h[i]))
  }

  function Settle(h: seq<Message>, res: map<string, nat>, i: nat, open: seq<ToolCall>): seq<Source>
    requires i <= |h|
    decreases |h| - i
  {
    if i == |h| then Resolve(res, open)
    else
      var step := Pace(h, res, i, open);
      step.emit + Settle(h, res, i + 1, step.open)
  }

  lemma {:induction false} ReadyNext(h: seq<Message>, res: map<string, nat>, i: nat, open: seq<ToolCall>)
    requires DistinctCallIds(h) && Ready(h, i, open) && i < |h|
    ensures Ready(h, i + 1, Pace(h, res, i, open).open)
  {
  }

  /** No consumed result belongs to an open call or to a batch yet to come. */
  ghost predicate Spent(h: seq<Message>, res: map<string, nat>, i: nat, open: seq<ToolCall>, consumed: set<nat>) {
    forall k :: k in consumed ==>
      && k < |h| && h[k].role == Tool && h[k].toolCallId.Some?
      && (forall p :: 0 <= p < |open| ==> open[p].id != h[k].toolCallId.value)
      && (forall j, q :: i <= j < |h| && 0 <= q < |Calls(h[j])| ==> Calls(h[j])[q].id != h[k].toolCallId.value)
      && (k >= i ==> Matched(h, res, k))
  }

  ghost predicate Unconsumed(h: seq<Message>, open: seq<ToolCall>, consumed: set<nat>) {
    forall k, p :: k in consumed && 0 <= p < |open| ==> k < |h| && h[k].toolCallId != Some(open[p].id)
  }

  lemma {:induction false} DrainFresh(h: seq<Message>, res: map<string, nat>, open: seq<ToolCall>, consumed: set<nat>)
    requires Indexes(h, res) && DistinctIds(open) && Unconsumed(h, open, consumed)
    ensures Drain(res, open, consumed).0 == Resolve(res, open)
    ensures forall k :: k in Drain(res, open, consumed).1 ==>
              k in consumed || exists p :: 0 <= p < |open| && Resolved(res, open[p]) == Log(k)
  {
    if open != [] {
      var id := open[0].id;
      assert Resolved(res, open[0]) == if id in res then Log(res[id]) else Synth(open[0]);
      if id in res {
        assert res[id] !in consumed;
        DrainFresh(h, res, open[1..], consumed + {res[id]});
      } else {
        DrainFresh(h, res, open[1..], consumed);
      }
    }
  }

  lemma {:induction false} SpentNext(h: seq<Message>, res: map<string, nat>, i: nat, open: seq<ToolCall>,
                                     consumed: set<nat>)
    requires DistinctCallIds(h) && Ready(h, i, open) && Spent(h, res, i, open, consumed) && i < |h|
    requires Indexes(h, res)
    ensures var step := Advance(h, res, i, open, consumed);
            && Pace(h, res, i, open) == Stride(step.emit, step.open)
            && Spent(h, res, i + 1, step.open, step.consumed)
  {
    if Breaker(h[i]) {
      SpentBreaker(h, res, i, open, consumed);
    }
  }

  lemma {:induction false} SpentBreaker(h: seq<Message>, res: map<string, nat>, i: nat, open: seq<ToolCall>,
                                        consumed: set<nat>)
    requires DistinctCallIds(h) && Ready(h, i, open) && Spent(h, res, i, open, consumed) && i < |h|
    requires Indexes(h, res) && Breaker(h[i])
    ensures Drain(res, open, consumed).0 == Resolve(res, open)
    ensures Spent(h, res, i + 1, Calls(h[i]), Drain(res, open, consumed).1)
  {
    DrainFresh(h, res, open, consumed);
  }

  lemma {:induction false} RebuildSettles(h: seq<Message>, res: map<string, nat>, i: nat, open: seq<ToolCall>,
                                          consumed: set<nat>)
    requires DistinctCallIds(h) && Ready(h, i, open) && Spent(h, res, i, open, consumed) && Indexes(h, res)
    ensures Rebuild(h, res, i, open, consumed) == Settle(h, res, i, open)
    decreases |h| - i
  {
    if i == |h| {
      DrainFresh(h, res, open, consumed);
    } else {
      var step := Advance(h, res, i, open, consumed);
      SpentNext(h, res, i, open, consumed);
      ReadyNext(h, res, i, open);
      RebuildSettles(h, res, i + 1, step.open, step.consumed);
    }
  }

  lemma {:induction false} SourcesSettle(h: seq<Message>)
    requires DistinctCallIds(h)
    ensures Sources(h) == Settle(h, Results(h), 0, [])
  {
    RebuildSettles(h, Results(h), 0, [], {});
  }
}
