/** Closing out a history that is closed out already. */
module ClosedAgain {
  import opened Messages
  import opened CloseOut
  import opened CloseOutLaws
  import opened Conservation
  import opened Respawn
  import opened Sequences
  import opened RespawnLaws

  // ---------- the calls of a closed-out history are those of the log ----------

  function AllCalls(s: seq<Message>): seq<ToolCall> {
    if s == [] then [] else Calls(s[0]) + AllCalls(s[1..])
  }

  lemma {:induction false} AllCallsSpoken(s: seq<Message>)
    ensures AllCalls(Spoken(s)) == AllCalls(s)
  {
    if s != [] {
      AllCallsSpoken(s[1..]);
      if s[0].role == Tool {
        assert Spoken(s) == Spoken(s[1..]) && AllCalls(s) == AllCalls(s[1..]);
      } else {
        assert Spoken(s)[0] == s[0] && Spoken(s)[1..] == Spoken(s[1..]);
      }
    }
  }

  lemma {:induction false} BatchIdsFlat(s: seq<Message>, id: string)
    ensures id in BatchIds(s) <==> id in CallIds(AllCalls(s))
  {
    if s == [] {
      assert CallIds([]) == {};
    } else {
      BatchIdsFlat(s[1..], id);
      IdsAppend(Calls(s[0]), AllCalls(s[1..]));
      BatchIdsCons(s, id);
    }
  }

  lemma {:induction false} BatchIdsCons(s: seq<Message>, id: string)
    requires s != []
    ensures id in BatchIds(s) <==> id in CallIds(Calls(s[0])) || id in BatchIds(s[1..])
  {
    if id in BatchIds(s) {
      var j, q :| 0 <= j < |s| && 0 <= q < |Calls(s[j])| && Calls(s[j])[q].id == id;
      if j > 0 { assert s[1..][j - 1] == s[j]; }
    }
    if id in BatchIds(s[1..]) {
      var j, q :| 0 <= j < |s[1..]| && 0 <= q < |Calls(s[1..][j])| && Calls(s[1..][j])[q].id == id;
      assert s[j + 1] == s[1..][j];
    }
  }

  lemma {:induction false} DistinctTail(s: seq<Message>)
    requires s != [] && DistinctCallIds(s)
    ensures DistinctCallIds(s[1..]) && CallIds(Calls(s[0])) !! BatchIds(s[1..])
  {
    var t := s[1..];
    assert forall j :: 0 <= j < |t| ==> t[j] == s[j + 1];
    forall p, j, q | 0 <= p < |Calls(s[0])| && 0 <= j < |t| && 0 <= q < |Calls(t[j])|
      ensures Calls(s[0])[p].id != Calls(t[j])[q].id
    {
      assert t[j] == s[j + 1];
    }
  }

  lemma {:induction false} DistinctCons(s: seq<Message>)
    requires s != [] && DistinctCallIds(s[1..]) && DistinctIds(Calls(s[0])) && CallIds(Calls(s[0])) !! BatchIds(s[1..])
    ensures DistinctCallIds(s)
  {
    var t := s[1..];
    forall j | 0 <= j < |s| ensures DistinctIds(Calls(s[j])) {
      if j > 0 { assert s[j] == t[j - 1]; }
    }
    forall j, k, p, q | 0 <= j < k < |s| && 0 <= p < |Calls(s[j])| && 0 <= q < |Calls(s[k])|
      ensures Calls(s[j])[p].id != Calls(s[k])[q].id
    {
      assert s[k] == t[k - 1];
      if j > 0 {
        assert s[j] == t[j - 1];
      } else {
        assert Calls(s[0])[p].id in CallIds(Calls(s[0])) && Calls(t[k - 1])[q].id in BatchIds(t);
      }
    }
  }

  lemma {:induction false} DistinctFlat(s: seq<Message>)
    ensures DistinctCallIds(s) <==> DistinctIds(AllCalls(s))
  {
    if s != [] {
      var own, others := Calls(s[0]), AllCalls(s[1..]);
      DistinctFlat(s[1..]);
      forall id ensures id in BatchIds(s[1..]) <==> id in CallIds(others) { BatchIdsFlat(s[1..], id); }
      if DistinctCallIds(s) {
        DistinctTail(s);
        DistinctAppend(own, others);
      }
      if DistinctIds(own + others) {
        DistinctSplit(own, others);
        DistinctParts(own, others);
        DistinctCons(s);
      }
    }
  }

  lemma {:induction false} DistinctParts(a: seq<ToolCall>, b: seq<ToolCall>)
    requires DistinctIds(a + b)
    ensures DistinctIds(a) && DistinctIds(b)
  {
    assert forall p :: 0 <= p < |a| ==> a[p] == (a + b)[p];
    assert forall p :: 0 <= p < |b| ==> b[p] == (a + b)[|a| + p];
  }

  lemma {:induction false} ClosedCalls(h: History)
    ensures DistinctCallIds(Closed(h)) && BatchIds(Closed(h)) == BatchIds(h)
  {
    NonToolOrderKept(h);
    AllCallsSpoken(h);
    AllCallsSpoken(Closed(h));
    DistinctFlat(h);
    DistinctFlat(Closed(h));
    forall id ensures id in BatchIds(Closed(h)) <==> id in BatchIds(h) {
      BatchIdsFlat(h, id);
      BatchIdsFlat(Closed(h), id);
    }
  }

  // ---------- a second close-out synthesizes nothing ----------

  lemma {:induction false} AnsweredBatch(s: seq<Message>, b: nat, q: nat)
    requires AllAnswered(s) && b < |s| && q < |Calls(s[b])|
    ensures SegmentHas(s[b + 1..], Calls(s[b])[q].id)
  {
    if b > 0 {
      AnsweredBatch(s[1..], b - 1, q);
      assert s[1..][b..] == s[b + 1..];
    }
  }

  lemma {:induction false} SegmentResult(s: seq<Message>, lo: nat, id: string) returns (k: nat)
    requires lo <= |s| && SegmentHas(s[lo..], id)
    ensures lo <= k < |s| && ResultFor(s[k], id)
    decreases |s| - lo
  {
    assert s[lo..][0] == s[lo] && s[lo..][1..] == s[lo + 1..];
    if ResultFor(s[lo], id) { k := lo; } else { k := SegmentResult(s, lo + 1, id); }
  }

  lemma {:induction false} ClosedAgainSynthesizesNothing(h: History)
    ensures DistinctCallIds(Closed(h)) && Synthesized(Closed(h)) == []
  {
    var out := Closed(h);
    ClosedCalls(h);
    EveryCallAnswered(h);
    forall b, q | 0 <= b < |out| && 0 <= q < |Calls(out[b])| ensures Calls(out[b])[q].id in Results(out) {
      AnsweredBatch(out, b, q);
      var k := SegmentResult(out, b + 1, Calls(out[b])[q].id);
      assert Calls(out[b])[q].id in BatchIds(out);
    }
    ClosedIsAfter(out);
    NothingSynthesized(out, Results(out), 0, []);
  }

  // ---------- and changes nothing, unless a call has two results ahead of its batch ----------

  /** A call with two results that both stand ahead of its batch. */
  ghost predicate TwoAhead(h: seq<Message>) {
    exists k1, k2, b, q :: 0 <= k1 < k2 < b < |h| && 0 <= q < |Calls(h[b])|
      && ResultFor(h[k1], Calls(h[b])[q].id) && ResultFor(h[k2], Calls(h[b])[q].id)
  }

  /** Every call of a batch that is closed by now has a result among the first n messages. */
  ghost predicate Passed(h: seq<Message>, out: seq<Message>, i: nat, open: seq<ToolCall>, n: nat) {
    n <= |out| && forall id :: id in BatchIds(h) && id !in CallIds(open) && !Ahead(h, i, id) ==>
                     exists p :: 0 <= p < n && ResultFor(out[p], id)
  }

  lemma {:induction false} EarlierResult(h: seq<Message>, i: nat, id: string) returns (k: nat)
    requires i < |h| && ResultFor(h[i], id) && id in BatchIds(h) && !Matched(h, Results(h), i)
    ensures k < i && ResultFor(h[k], id)
  {
    k := FirstResult(h, id, 0).value;
    assert Results(h)[id] == k;
  }

  lemma {:induction false} TwoAheadAt(h: seq<Message>, k1: nat, k2: nat, b: nat, id: string)
    requires k1 < k2 < b < |h| && ResultFor(h[k1], id) && ResultFor(h[k2], id) && id in CallIds(Calls(h[b]))
    ensures TwoAhead(h)
  {
    var q :| 0 <= q < |Calls(h[b])| && Calls(h[b])[q].id == id;
    assert ResultFor(h[k1], Calls(h[b])[q].id) && ResultFor(h[k2], Calls(h[b])[q].id);
  }

  lemma {:induction false} OrphanPast(h: seq<Message>, i: nat, id: string)
    requires i < |h| && ResultFor(h[i], id) && id in BatchIds(h) && !Matched(h, Results(h), i)
    ensures Ahead(h, i, id) ==> TwoAhead(h)
  {
    var k := EarlierResult(h, i, id);
    if Ahead(h, i, id) {
      var b :| i <= b < |h| && id in CallIds(Calls(h[b]));
      TwoAheadAt(h, k, i, b, id);
    }
  }

  lemma {:induction false} NotMatchedAgain(h: seq<Message>, out: seq<Message>, i: nat, open: seq<ToolCall>, n: nat)
    requires !TwoAhead(h) && BatchIds(out) == BatchIds(h) && Passed(h, out, i, open, n)
    requires i < |h| && n < |out| && out[n] == h[i] && h[i].role == Tool
    requires OpenPosition(open, h[i]).None? && !Matched(h, Results(h), i)
    ensures !Matched(out, Results(out), n)
  {
    if h[i].toolCallId.Some? && h[i].toolCallId.value in BatchIds(h) {
      var id := h[i].toolCallId.value;
      OrphanPast(h, i, id);
      assert id !in CallIds(open);
      var p :| 0 <= p < n && ResultFor(out[p], id);
      LaterUnmatched(out, p, n, id);
    }
  }

  lemma {:induction false} LaterUnmatched(out: seq<Message>, p: nat, n: nat, id: string)
    requires p < n < |out| && ResultFor(out[p], id) && ResultFor(out[n], id)
    ensures !Matched(out, Results(out), n)
  {
    var first := FirstResult(out, id, 0);
    assert first.Some? && first.value <= p;
  }

  lemma {:induction false} JoinPieces(s: seq<Message>, a: nat, b: nat, c: nat, tail: seq<Message>)
    requires a <= b <= c <= |s|
    ensures s[a..b] + (s[b..c] + tail) == s[a..c] + tail
  {
  }

  lemma {:induction false} FrontPaired(out: seq<Message>, res: map<string, nat>, n: nat, open: seq<ToolCall>)
    requires Indexes(out, res) && open != [] && n < |out| && ResultFor(out[n], open[0].id)
    ensures After(out, res, n, open) == out[n..n + 1] + After(out, res, n + 1, open[1..])
  {
    assert OpenPosition(open, out[n]) == Some(0);
    assert Without(open, 0) == open[1..];
    AfterFront(out, res, n, open);
  }

  /** The results of the open calls stand at n, in order. */
  predicate InOrder(out: seq<Message>, n: nat, open: seq<ToolCall>) {
    n + |open| <= |out| && forall p :: 0 <= p < |open| ==> ResultFor(out[n + p], open[p].id)
  }

  lemma {:induction false} InOrderTail(out: seq<Message>, n: nat, open: seq<ToolCall>)
    requires InOrder(out, n, open) && open != []
    ensures ResultFor(out[n], open[0].id) && InOrder(out, n + 1, open[1..])
  {
    assert ResultFor(out[n + 0], open[0].id);
    forall p | 0 <= p < |open[1..]| ensures ResultFor(out[n + 1 + p], open[1..][p].id) {
      assert ResultFor(out[n + (p + 1)], open[p + 1].id);
    }
  }

  /** Results in the order of the open calls pair up one by one. */
  lemma {:induction false} PairedInOrder(out: seq<Message>, res: map<string, nat>, n: nat, open: seq<ToolCall>,
                                         end: nat)
    requires Indexes(out, res) && InOrder(out, n, open) && end == n + |open|
    ensures After(out, res, n, open) == out[n..end] + After(out, res, end, [])
    decreases |open|
  {
    if open != [] {
      InOrderTail(out, n, open);
      FrontPaired(out, res, n, open);
      PairedInOrder(out, res, n + 1, open[1..], end);
      JoinPieces(out, n, n + 1, end, After(out, res, end, []));
    }
  }

  lemma {:induction false} PassedNext(h: History, out: seq<Message>, i: nat, open: seq<ToolCall>, n: nat)
    requires i < |h| && !Breaker(h[i]) && Passed(h, out, i, open, n)
    ensures var step := Pace(h, Results(h), i, open);
            if step.emit == [] then Passed(h, out, i + 1, step.open, n)
            else n < |out| && out[n] == h[i] ==> Passed(h, out, i + 1, step.open, n + 1)
  {
    var step := Pace(h, Results(h), i, open);
    var n' := if step.emit == [] then n else n + 1;
    if n' == n || (n < |out| && out[n] == h[i]) {
      forall id | id in BatchIds(h) && id !in CallIds(step.open) && !Ahead(h, i + 1, id)
        ensures exists p :: 0 <= p < n' && ResultFor(out[p], id)
      {
        SeenOne(h, out, i, open, n, id);
      }
    }
  }

  lemma {:induction false} SeenOne(h: History, out: seq<Message>, i: nat, open: seq<ToolCall>, n: nat, id: string)
    requires i < |h| && !Breaker(h[i]) && Passed(h, out, i, open, n) && id in BatchIds(h)
    requires id !in CallIds(Pace(h, Results(h), i, open).open) && !Ahead(h, i + 1, id)
    ensures || (exists p :: 0 <= p < n && ResultFor(out[p], id))
            || (Pace(h, Results(h), i, open).emit != [] && ResultFor(h[i], id))
  {
    AheadNext(h, i, id);
    assert CallIds([]) == {};
    var pos := OpenPosition(open, h[i]);
    if h[i].role == Tool && pos.Some? {
      StillOpen(open, pos.value);
    }
  }

  lemma {:induction false} StillOpen(open: seq<ToolCall>, pos: nat)
    requires pos < |open|
    ensures forall id :: id in CallIds(open) && id != open[pos].id ==> id in CallIds(Without(open, pos))
  {
    var others := Without(open, pos);
    forall id | id in CallIds(open) && id != open[pos].id ensures id in CallIds(others) {
      var p :| 0 <= p < |open| && open[p].id == id;
      assert others[if p < pos then p else p - 1].id == id;
    }
  }

  lemma {:induction false} SeenBreaker(h: History, out: seq<Message>, i: nat, open: seq<ToolCall>, n: nat)
    requires i < |h| && Breaker(h[i]) && Passed(h, out, i, open, n)
    requires n + |open| < |out| && InOrder(out, n, open)
    ensures Passed(h, out, i + 1, Calls(h[i]), n + |open| + 1)
  {
    forall id | id in BatchIds(h) && id !in CallIds(Calls(h[i])) && !Ahead(h, i + 1, id)
      ensures exists p :: 0 <= p < n + |open| + 1 && ResultFor(out[p], id)
    {
      AheadNext(h, i, id);
      if id in CallIds(open) {
        var p :| 0 <= p < |open| && open[p].id == id;
        assert ResultFor(out[n + p], id);
      }
    }
  }

  /** What `Again` keeps: the rest of the closed-out history starts at n. */
  ghost predicate Resumes(h: History, out: seq<Message>, i: nat, open: seq<ToolCall>, n: nat) {
    && Ready(h, i, open) && n <= |out|
    && After(h, Results(h), i, open) == out[n..]
    && Passed(h, out, i, open, n)
  }

  lemma {:induction false} AnsweredInOrder(h: seq<Message>, res: map<string, nat>, open: seq<ToolCall>,
                                           out: seq<Message>, n: nat)
    requires Indexes(h, res) && n <= |out| && Answered(h, res, open) <= out[n..]
    ensures InOrder(out, n, open)
  {
    forall p | 0 <= p < |open| ensures ResultFor(out[n + p], open[p].id) {
      AnsweredAt(h, res, open, p);
      assert out[n + p] == out[n..][p];
    }
  }

  lemma {:induction false} ResumesBreaker(h: History, out: seq<Message>, i: nat, open: seq<ToolCall>, n: nat)
    requires i < |h| && Breaker(h[i]) && Resumes(h, out, i, open, n)
    ensures n + |open| < |out| && out[n + |open|] == h[i] && Resumes(h, out, i + 1, Calls(h[i]), n + |open| + 1)
    ensures InOrder(out, n, open)
  {
    var res := Results(h);
    var answered, rest := Answered(h, res, open), After(h, res, i + 1, Calls(h[i]));
    AfterBreaker(h, res, i, open);
    AnsweredInOrder(h, res, open, out, n);
    assert out[n..][|open|] == h[i] && out[n..][|open| + 1..] == rest;
    assert out[n + |open|] == out[n..][|open|] && out[n + |open| + 1..] == out[n..][|open| + 1..];
    SeenBreaker(h, out, i, open, n);
    ReadyNext(h, res, i, open);
  }

  lemma {:induction false} Again(h: History, out: seq<Message>, i: nat, open: seq<ToolCall>, n: nat)
    requires !TwoAhead(h) && BatchIds(out) == BatchIds(h) && Resumes(h, out, i, open, n)
    ensures After(out, Results(out), n, open) == out[n..]
    decreases |h| - i
  {
    if i == |h| {
      AgainEnd(h, out, open, n);
    } else if Breaker(h[i]) {
      AgainBatch(h, out, i, open, n);
    } else {
      AgainQuiet(h, out, i, open, n);
    }
  }

  lemma {:induction false} AgainBatch(h: History, out: seq<Message>, i: nat, open: seq<ToolCall>, n: nat)
    requires !TwoAhead(h) && BatchIds(out) == BatchIds(h) && Resumes(h, out, i, open, n)
    requires i < |h| && Breaker(h[i])
    ensures After(out, Results(out), n, open) == out[n..]
    decreases |h| - i, 0
  {
    var m := ResumesAfter(h, out, i, open, n);
    Again(h, out, i + 1, Calls(h[i]), m);
    BatchInOrder(h, out, i, open, n, m);
    AgainFrom(out, n, open, m, Calls(h[i]));
  }

  lemma {:induction false} ResumesAfter(h: History, out: seq<Message>, i: nat, open: seq<ToolCall>, n: nat)
    returns (m: nat)
    requires i < |h| && Breaker(h[i]) && Resumes(h, out, i, open, n)
    ensures m == n + |open| + 1 <= |out| && Resumes(h, out, i + 1, Calls(h[i]), m)
  {
    ResumesBreaker(h, out, i, open, n);
    m := n + |open| + 1;
  }

  lemma {:induction false} AgainEnd(h: History, out: seq<Message>, open: seq<ToolCall>, n: nat)
    requires Resumes(h, out, |h|, open, n)
    ensures After(out, Results(out), n, open) == out[n..]
  {
    AnsweredInOrder(h, Results(h), open, out, n);
    AgainTail(out, n, open);
  }

  lemma {:induction false} AgainFrom(out: seq<Message>, n: nat, open: seq<ToolCall>, m: nat, calls: seq<ToolCall>)
    requires n + |open| + 1 == m <= |out| && Breaker(out[m - 1]) && Calls(out[m - 1]) == calls && InOrder(out, n, open)
    requires After(out, Results(out), m, calls) == out[m..]
    ensures After(out, Results(out), n, open) == out[n..]
  {
    AgainBreaker(out, m - 1);
    AgainTail(out, n, open);
  }

  lemma {:induction false} BatchInOrder(h: History, out: seq<Message>, i: nat, open: seq<ToolCall>, n: nat, m: nat)
    requires i < |h| && Breaker(h[i]) && Resumes(h, out, i, open, n) && m == n + |open| + 1 <= |out|
    ensures out[m - 1] == h[i] && InOrder(out, n, open)
  {
    ResumesBreaker(h, out, i, open, n);
  }

  lemma {:induction false} AgainTail(out: seq<Message>, n: nat, open: seq<ToolCall>)
    requires InOrder(out, n, open)
    requires n + |open| < |out| ==> After(out, Results(out), n + |open|, []) == out[n + |open|..]
    ensures After(out, Results(out), n, open) == out[n..]
  {
    var end := n + |open|;
    PairedInOrder(out, Results(out), n, open, end);
    Rejoined(out, n, end);
  }

  lemma {:induction false} AgainBreaker(out: seq<Message>, m: nat)
    requires m < |out| && Breaker(out[m])
    requires After(out, Results(out), m + 1, Calls(out[m])) == out[m + 1..]
    ensures After(out, Results(out), m, []) == out[m..]
  {
    AfterBreaker(out, Results(out), m, []);
    assert Answered(out, Results(out), []) == [];
    Headed(out, m);
    assert [] + out[m..] == out[m..];
  }

  lemma {:induction false} AgainQuiet(h: History, out: seq<Message>, i: nat, open: seq<ToolCall>, n: nat)
    requires !TwoAhead(h) && BatchIds(out) == BatchIds(h) && Resumes(h, out, i, open, n)
    requires i < |h| && !Breaker(h[i])
    ensures After(out, Results(out), n, open) == out[n..]
    decreases |h| - i, 0
  {
    var step := Pace(h, Results(h), i, open);
    ResumesQuiet(h, out, i, open, n);
    if step.emit == [] {
      Again(h, out, i + 1, step.open, n);
    } else {
      Again(h, out, i + 1, step.open, n + 1);
      SamePaceAgain(h, out, i, open, n);
      AfterFront(out, Results(out), n, open);
      assert [out[n]] + out[n + 1..] == out[n..];
    }
  }

  lemma {:induction false} ResumesQuiet(h: History, out: seq<Message>, i: nat, open: seq<ToolCall>, n: nat)
    requires i < |h| && !Breaker(h[i]) && Resumes(h, out, i, open, n)
    ensures var step := Pace(h, Results(h), i, open);
            if step.emit == [] then step.open == open && Resumes(h, out, i + 1, open, n)
            else n < |out| && out[n] == h[i] && Resumes(h, out, i + 1, step.open, n + 1)
  {
    AfterQuiet(h, out, i, open, n);
    PassedNext(h, out, i, open, n);
    ReadyNext(h, Results(h), i, open);
  }

  lemma {:induction false} AfterQuiet(h: seq<Message>, out: seq<Message>, i: nat, open: seq<ToolCall>, n: nat)
    requires i < |h| && !Breaker(h[i]) && n <= |out| && After(h, Results(h), i, open) == out[n..]
    ensures var step := Pace(h, Results(h), i, open);
            if step.emit == [] then step.open == open && After(h, Results(h), i + 1, open) == out[n..]
            else n < |out| && out[n] == h[i] && After(h, Results(h), i + 1, step.open) == out[n + 1..]
  {
    AfterFront(h, Results(h), i, open);
    if Pace(h, Results(h), i, open).emit != [] {
      assert out[n] == out[n..][0] && out[n + 1..] == out[n..][1..];
    }
  }

  lemma {:induction false} SamePaceAgain(h: History, out: seq<Message>, i: nat, open: seq<ToolCall>, n: nat)
    requires !TwoAhead(h) && BatchIds(out) == BatchIds(h) && Passed(h, out, i, open, n)
    requires i < |h| && !Breaker(h[i]) && Pace(h, Results(h), i, open).emit != [] && n < |out| && out[n] == h[i]
    ensures Pace(out, Results(out), n, open) == Stride([Log(n)], Pace(h, Results(h), i, open).open)
  {
    if h[i].role == Tool && OpenPosition(open, h[i]).None? {
      NotMatchedAgain(h, out, i, open, n);
    }
  }

  // ---------- two results ahead of a batch: the second close-out loses one ----------

  /** The messages emitted while the walk goes from i to j, and the calls then open. */
  function Reach(h: seq<Message>, res: map<string, nat>, i: nat, j: nat, open: seq<ToolCall>): (seq<Message>,
                 seq<ToolCall>)
    requires i <= j <= |h| && Indexes(h, res)
    decreases j - i
  {
    if i == j then ([], open)
    else
      var (rest, last) := Reach(h, res, i + 1, j, Pace(h, res, i, open).open);
      (Emitted(h, res, i, open) + rest, last)
  }

  lemma {:induction false} ReachSplits(h: History, res: map<string, nat>, i: nat, j: nat, open: seq<ToolCall>)
    requires i <= j <= |h| && Indexes(h, res) && Ready(h, i, open)
    ensures Ready(h, j, Reach(h, res, i, j, open).1)
    ensures After(h, res, i, open) == Reach(h, res, i, j, open).0 + After(h, res, j, Reach(h, res, i, j, open).1)
    decreases j - i
  {
    if i < j {
      ReadyNext(h, res, i, open);
      ReachSplits(h, res, i + 1, j, Pace(h, res, i, open).open);
    }
  }

  lemma {:induction false} AnsweredSilent(h: seq<Message>, res: map<string, nat>, open: seq<ToolCall>)
    requires Indexes(h, res)
    ensures Spoken(Answered(h, res, open)) == []
  {
    if open != [] {
      AnsweredSilent(h, res, open[1..]);
      assert Answered(h, res, open)[1..] == Answered(h, res, open[1..]);
    }
  }

  lemma {:induction false} AfterSpoken(h: seq<Message>, res: map<string, nat>, i: nat, open: seq<ToolCall>)
    requires i <= |h| && Indexes(h, res)
    ensures Spoken(After(h, res, i, open)) == Spoken(h[i..])
    decreases |h| - i
  {
    AnsweredSilent(h, res, open);
    if i < |h| {
      var rest := After(h, res, i + 1, Pace(h, res, i, open).open);
      AfterSpoken(h, res, i + 1, Pace(h, res, i, open).open);
      assert h[i..][0] == h[i] && h[i..][1..] == h[i + 1..];
      if Breaker(h[i]) {
        AfterBreaker(h, res, i, open);
        SpokenAppend(Answered(h, res, open), [h[i]] + rest);
        assert ([h[i]] + rest)[1..] == rest;
      } else {
        AfterFront(h, res, i, open);
      }
    }
  }

  lemma {:induction false} SpokenIn(s: seq<Message>, m: Message)
    requires m.role != Tool
    ensures m in Spoken(s) <==> m in s
  {
    if s != [] {
      SpokenIn(s[1..], m);
      assert s == [s[0]] + s[1..];
    }
  }

  /** A message that is not a result is still to be emitted when the walk has not reached it. */
  lemma {:induction false} StillToCome(h: seq<Message>, res: map<string, nat>, i: nat, open: seq<ToolCall>, b: nat)
    requires i <= b < |h| && Indexes(h, res) && h[b].role != Tool
    ensures h[b] in After(h, res, i, open)
  {
    AfterSpoken(h, res, i, open);
    SpokenIn(h[i..], h[b]);
    SpokenIn(After(h, res, i, open), h[b]);
    assert h[i..][b - i] == h[b];
  }

  lemma {:induction false} OrphanEmitted(h: History, k: nat, open: seq<ToolCall>, b: nat, q: nat)
    requires Ready(h, k, open) && k < b < |h| && q < |Calls(h[b])|
    requires ResultFor(h[k], Calls(h[b])[q].id) && !Matched(h, Results(h), k)
    ensures var s := After(h, Results(h), k, open); s != [] && s[0] == h[k] && h[b] in s[1..]
  {
    OrphanWaits(h, k, open, b, q);
    AfterFront(h, Results(h), k, open);
    StillToCome(h, Results(h), k + 1, Pace(h, Results(h), k, open).open, b);
  }

  lemma {:induction false} OrphanWaits(h: History, k: nat, open: seq<ToolCall>, b: nat, q: nat)
    requires Ready(h, k, open) && k < b < |h| && q < |Calls(h[b])|
    requires ResultFor(h[k], Calls(h[b])[q].id) && !Matched(h, Results(h), k)
    ensures Pace(h, Results(h), k, open).emit == [Log(k)] && h[b].role != Tool
  {
    assert OpenPosition(open, h[k]).None?;
  }

  lemma {:induction false} OrphanPlaced(h: History, k: nat, b: nat, q: nat) returns (p: nat, later: nat)
    requires k < b < |h| && q < |Calls(h[b])|
    requires ResultFor(h[k], Calls(h[b])[q].id) && !Matched(h, Results(h), k)
    ensures p < later < |Closed(h)| && Closed(h)[p] == h[k] && Closed(h)[later] == h[b]
  {
    var (done, open) := Reach(h, Results(h), 0, k, []);
    var rest := After(h, Results(h), k, open);
    ClosedIsAfter(h);
    ReachSplits(h, Results(h), 0, k, []);
    OrphanEmitted(h, k, open, b, q);
    var d :| 0 <= d < |rest[1..]| && rest[1..][d] == h[b];
    Behind(done, rest, d);
    p, later := |done|, |done| + 1 + d;
  }

  lemma {:induction false} TwoAheadOverwrites(h: History)
    requires TwoAhead(h)
    ensures Overwritten(Closed(h))
  {
    var k1, k2, b, q :| 0 <= k1 < k2 < b < |h| && 0 <= q < |Calls(h[b])|
      && ResultFor(h[k1], Calls(h[b])[q].id) && ResultFor(h[k2], Calls(h[b])[q].id);
    var first := FirstResult(h, Calls(h[b])[q].id, 0);
    assert first.Some? && first.value <= k1;
    var p, later := OrphanPlaced(h, k2, b, q);
    EveryCallAnswered(h);
    OverwrittenAt(Closed(h), p, later, q);
  }

  lemma {:induction false} OverwrittenAt(out: seq<Message>, k: nat, b: nat, q: nat)
    requires k < b < |out| && q < |Calls(out[b])| && ResultFor(out[k], Calls(out[b])[q].id)
    requires AllAnswered(out)
    ensures Overwritten(out)
  {
    var id := Calls(out[b])[q].id;
    AnsweredBatch(out, b, q);
    assert id in BatchIds(out) && id in CallIds(Calls(out[b]));
    var first := FirstResult(out, id, 0);
    assert first.Some? && first.value <= k;
    assert Preempts(out, b, first.value) && PreemptedFrom(out, 0, first.value);
  }

  /** Closing out again changes nothing exactly when no call has two results ahead of its batch. */
  lemma {:induction false} ClosedAgainSame(h: History)
    ensures Closed(Closed(h)) == Closed(h) <==> !TwoAhead(h)
  {
    var out := Closed(h);
    ClosedCalls(h);
    ClosedIsAfter(h);
    ClosedIsAfter(out);
    if TwoAhead(h) {
      EveryCallAnswered(h);
      TwoAheadOverwrites(h);
      ClosedConserves(out);
      ClosedAgainSynthesizesNothing(h);
      assert multiset(out) + multiset(Synthesized(out)) == multiset(out);
    } else {
      assert out[0..] == out;
      forall id ensures Ahead(h, 0, id) <==> id in BatchIds(h) { AheadBatch(h, id); }
      Again(h, out, 0, [], 0);
    }
  }
}
