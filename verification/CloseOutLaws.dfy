/** What closing out a history guarantees: every call answered, nothing lost, nothing done twice. */
module CloseOutLaws {
  import opened Messages
  import opened CloseOut
  import opened Sanitize
  import opened Sequences

  // ---------- the closed-out history as messages ----------

  function Answer(h: seq<Message>, res: map<string, nat>, call: ToolCall): (m: Message)
    requires Indexes(h, res)
    ensures ResultFor(m, call.id)
  {
    if call.id in res then h[res[call.id]] else CancelledResult(call.id)
  }

  function Answered(h: seq<Message>, res: map<string, nat>, open: seq<ToolCall>): (r: seq<Message>)
    requires Indexes(h, res)
    ensures |r| == |open|
  {
    if open == [] then [] else [Answer(h, res, open[0])] + Answered(h, res, open[1..])
  }

  function Emitted(h: seq<Message>, res: map<string, nat>, i: nat, open: seq<ToolCall>): seq<Message>
    requires i < |h| && Indexes(h, res)
  {
    if Breaker(h[i]) then Answered(h, res, open) + [h[i]]
    else if Pace(h, res, i, open).emit == [] then []
    else [h[i]]
  }

  /** The closed-out history from message i on, when these calls are still open. */
  function After(h: seq<Message>, res: map<string, nat>, i: nat, open: seq<ToolCall>): seq<Message>
    requires i <= |h| && Indexes(h, res)
    decreases |h| - i
  {
    if i == |h| then Answered(h, res, open)
    else Emitted(h, res, i, open) + After(h, res, i + 1, Pace(h, res, i, open).open)
  }

  lemma {:induction false} ResolveRenders(h: seq<Message>, res: map<string, nat>, open: seq<ToolCall>)
    requires Indexes(h, res)
    ensures InLog(h, Resolve(res, open)) && Render(h, Resolve(res, open)) == Answered(h, res, open)
  {
    if open != [] {
      ResolveRenders(h, res, open[1..]);
      var r := Resolve(res, open);
      assert r[1..] == Resolve(res, open[1..]) && r[0] == Resolved(res, open[0]);
    }
  }

  lemma {:induction false} EmittedRenders(h: seq<Message>, res: map<string, nat>, i: nat, open: seq<ToolCall>)
    requires i < |h| && Indexes(h, res)
    ensures InLog(h, Pace(h, res, i, open).emit) && Render(h, Pace(h, res, i, open).emit) == Emitted(h, res, i, open)
  {
    var own := [Log(i)];
    assert Render(h, own) == [h[i]];
    if Breaker(h[i]) {
      ResolveRenders(h, res, open);
      RenderAppend(h, Resolve(res, open), own);
    }
  }

  lemma {:induction false} SettleRenders(h: seq<Message>, res: map<string, nat>, i: nat, open: seq<ToolCall>)
    requires i <= |h| && Indexes(h, res)
    ensures InLog(h, Settle(h, res, i, open)) && Render(h, Settle(h, res, i, open)) == After(h, res, i, open)
    decreases |h| - i
  {
    if i == |h| {
      ResolveRenders(h, res, open);
    } else {
      var step := Pace(h, res, i, open);
      SettleRenders(h, res, i + 1, step.open);
      SettleStep(h, res, i, open, Settle(h, res, i + 1, step.open), After(h, res, i + 1, step.open));
    }
  }

  lemma {:induction false} SettleStep(h: seq<Message>, res: map<string, nat>, i: nat, open: seq<ToolCall>,
                                      later: seq<Source>, rest: seq<Message>)
    requires i < |h| && Indexes(h, res) && InLog(h, later) && Render(h, later) == rest
    requires later == Settle(h, res, i + 1, Pace(h, res, i, open).open)
    requires rest == After(h, res, i + 1, Pace(h, res, i, open).open)
    ensures InLog(h, Settle(h, res, i, open)) && Render(h, Settle(h, res, i, open)) == After(h, res, i, open)
  {
    EmittedRenders(h, res, i, open);
    Rendering(h, Pace(h, res, i, open).emit, later, Emitted(h, res, i, open), rest);
  }

  lemma {:induction false} Rendering(h: seq<Message>, a: seq<Source>, b: seq<Source>, ma: seq<Message>,
                                     mb: seq<Message>)
    requires InLog(h, a) && Render(h, a) == ma && InLog(h, b) && Render(h, b) == mb
    ensures InLog(h, a + b) && Render(h, a + b) == ma + mb
  {
    RenderAppend(h, a, b);
  }

  lemma {:induction false} ClosedIsAfter(h: seq<Message>)
    requires DistinctCallIds(h)
    ensures Sources(h) == Settle(h, Results(h), 0, [])
    ensures Closed(h) == After(h, Results(h), 0, [])
  {
    SourcesSettle(h);
    SettleRenders(h, Results(h), 0, []);
  }

  /** A batch from i on calls this id. */
  predicate Ahead(h: seq<Message>, i: nat, id: string) {
    exists b :: i <= b < |h| && id in CallIds(Calls(h[b]))
  }

  // ---------- every call is answered inside its own segment ----------

  /** A result for id comes before the next breaker. */
  predicate SegmentHas(s: seq<Message>, id: string) {
    s != [] && !Breaker(s[0]) && (ResultFor(s[0], id) || SegmentHas(s[1..], id))
  }

  /** The results for an id before the next chain-breaking message. */
  function OwnResults(s: seq<Message>, id: string): nat {
    if s == [] || Breaker(s[0]) then 0 else (if ResultFor(s[0], id) then 1 else 0) + OwnResults(s[1..], id)
  }

  predicate AllAnswered(s: seq<Message>) {
    s == [] || ((forall q :: 0 <= q < |Calls(s[0])| ==> SegmentHas(s[1..], Calls(s[0])[q].id)) && AllAnswered(s[1..]))
  }

  /** Every batch in s is answered, and so are these calls, by the segment s starts with. */
  predicate Serves(s: seq<Message>, open: seq<ToolCall>) {
    AllAnswered(s) && forall p :: 0 <= p < |open| ==> SegmentHas(s, open[p].id)
  }

  lemma {:induction false} AnsweredFirst(h: seq<Message>, res: map<string, nat>, open: seq<ToolCall>,
                                         rest: seq<Message>)
    requires Indexes(h, res) && AllAnswered(rest)
    ensures Serves(Answered(h, res, open) + rest, open)
  {
    var s := Answered(h, res, open) + rest;
    if open == [] {
      assert s == rest;
    } else {
      AnsweredFirst(h, res, open[1..], rest);
      Tailed(Answer(h, res, open[0]), Answered(h, res, open[1..]), rest);
      SegmentFront(s, open, 0);
    }
  }

  /** A result in front of a segment that answers the other open calls. */
  lemma {:induction false} SegmentFront(s: seq<Message>, open: seq<ToolCall>, pos: nat)
    requires s != [] && !Breaker(s[0]) && pos < |open| && ResultFor(s[0], open[pos].id)
    requires Serves(s[1..], Without(open, pos))
    ensures Serves(s, open)
  {
    forall p | 0 <= p < |open| ensures SegmentHas(s, open[p].id) {
      if p < pos {
        assert Without(open, pos)[p] == open[p];
      } else if p > pos {
        assert Without(open, pos)[p - 1] == open[p];
      }
    }
  }

  lemma {:induction false} AfterAnswered(h: seq<Message>, res: map<string, nat>, i: nat, open: seq<ToolCall>)
    requires i <= |h| && Indexes(h, res)
    ensures Serves(After(h, res, i, open), open)
    decreases |h| - i
  {
    if i == |h| {
      EndServes(h, res, open);
    } else if Breaker(h[i]) {
      AfterAnswered(h, res, i + 1, Calls(h[i]));
      BreakerServes(h, res, i, open);
    } else {
      AfterAnswered(h, res, i + 1, Pace(h, res, i, open).open);
      FrontServes(h, res, i, open);
    }
  }

  lemma {:induction false} EndServes(h: seq<Message>, res: map<string, nat>, open: seq<ToolCall>)
    requires Indexes(h, res)
    ensures Serves(After(h, res, |h|, open), open)
  {
    AnsweredFirst(h, res, open, []);
    assert Answered(h, res, open) + [] == Answered(h, res, open);
  }

  lemma {:induction false} BreakerServes(h: seq<Message>, res: map<string, nat>, i: nat, open: seq<ToolCall>)
    requires i < |h| && Indexes(h, res) && Breaker(h[i]) && Serves(After(h, res, i + 1, Calls(h[i])), Calls(h[i]))
    ensures Serves(After(h, res, i, open), open)
  {
    var rest := After(h, res, i + 1, Calls(h[i]));
    Tailed(h[i], rest, []);
    AfterBreaker(h, res, i, open);
    AnsweredFirst(h, res, open, [h[i]] + rest);
  }

  lemma {:induction false} FrontServes(h: seq<Message>, res: map<string, nat>, i: nat, open: seq<ToolCall>)
    requires i < |h| && Indexes(h, res) && !Breaker(h[i])
    requires var next := Pace(h, res, i, open).open; Serves(After(h, res, i + 1, next), next)
    ensures Serves(After(h, res, i, open), open)
  {
    var pos := OpenPosition(open, h[i]);
    AfterFront(h, res, i, open);
    if h[i].role == Tool && pos.Some? {
      SegmentFront(After(h, res, i, open), open, pos.value);
    } else if Pace(h, res, i, open).emit != [] {
      ServesBehind(After(h, res, i, open), open);
    }
  }

  lemma {:induction false} ServesBehind(s: seq<Message>, open: seq<ToolCall>)
    requires s != [] && !Breaker(s[0]) && Serves(s[1..], open)
    ensures Serves(s, open)
  {
  }

  lemma {:induction false} AfterBreaker(h: seq<Message>, res: map<string, nat>, i: nat, open: seq<ToolCall>)
    requires i < |h| && Indexes(h, res) && Breaker(h[i])
    ensures After(h, res, i, open) == Answered(h, res, open) + ([h[i]] + After(h, res, i + 1, Calls(h[i])))
  {
    Regrouped(Answered(h, res, open), [h[i]], After(h, res, i + 1, Calls(h[i])));
  }

  /** A message that closes nothing is emitted in front of the rest or withheld. */
  lemma {:induction false} AfterFront(h: seq<Message>, res: map<string, nat>, i: nat, open: seq<ToolCall>)
    requires i < |h| && Indexes(h, res) && !Breaker(h[i])
    ensures var s, step := After(h, res, i, open), Pace(h, res, i, open);
            var rest := After(h, res, i + 1, step.open);
            if step.emit == [] then s == rest else s != rest && s != [] && s[0] == h[i] && s[1..] == rest
  {
  }

  /** After close-out every call of every batch has a result before the next breaker. */
  lemma {:induction false} EveryCallAnswered(h: seq<Message>)
    requires DistinctCallIds(h)
    ensures AllAnswered(Closed(h))
  {
    ClosedIsAfter(h);
    AfterAnswered(h, Results(h), 0, []);
  }

  // ---------- sanitize keeps every batch of a closed-out history ----------

  function WithoutEmptyReplies(s: seq<Message>): seq<Message> {
    if s == [] then []
    else if EmptyReply(s[0]) then WithoutEmptyReplies(s[1..])
    else [s[0]] + WithoutEmptyReplies(s[1..])
  }

  lemma {:induction false} NoEmptyReplies(s: seq<Message>, rest: seq<Message>)
    requires forall k :: 0 <= k < |s| ==> !EmptyReply(s[k])
    ensures WithoutEmptyReplies(s + rest) == s + WithoutEmptyReplies(rest)
  {
    if s == [] {
      assert s + rest == rest;
    } else {
      NoEmptyReplies(s[1..], rest);
      assert (s + rest)[1..] == s[1..] + rest;
    }
  }

  /** s starts with the results of exactly these calls, and sanitize takes nothing but empty
      replies from what follows them. */
  ghost predicate Completes(s: seq<Message>, calls: seq<ToolCall>) {
    var span := GroupSpan(s, |calls|);
    && span.Some?
    && Answers(ResultIds(s[..span.value]), calls)
    && Sanitized(s[span.value..]) == WithoutEmptyReplies(s[span.value..])
  }

  lemma {:induction false} CompletesNone(s: seq<Message>)
    ensures Completes(s, []) <==> Sanitized(s) == WithoutEmptyReplies(s)
  {
    assert s[0..] == s && s[..0] == [] && ResultIds(s[..0]) == [];
  }

  /** A breaker in front of a segment that completes its calls. */
  lemma {:induction false} BreakerCompletes(m: Message, rest: seq<Message>)
    requires Breaker(m) && Completes(rest, Calls(m))
    ensures Completes([m] + rest, [])
  {
    var s := [m] + rest;
    Tailed(m, rest, []);
    if Batch(m) {
      var span := GroupSpan(rest, |Calls(m)|).value;
      assert GroupLen(s) == Some(1 + span);
      assert s[..1 + span] == [m] + rest[..span] && s[1 + span..] == rest[span..];
      BatchCompletes(m, rest, span);
    } else {
      CompletesNone(rest);
    }
    CompletesNone(s);
  }

  lemma {:induction false} BatchCompletes(m: Message, rest: seq<Message>, span: nat)
    requires Batch(m) && span <= |rest| && forall k :: 0 <= k < span ==> !Breaker(rest[k])
    requires Sanitized(rest[span..]) == WithoutEmptyReplies(rest[span..])
    ensures ([m] + rest[..span]) + Sanitized(rest[span..]) == WithoutEmptyReplies([m] + rest)
  {
    assert rest == rest[..span] + rest[span..];
    NoEmptyReplies(rest[..span], rest[span..]);
    Tailed(m, rest, []);
    Tailed(m, rest[..span], Sanitized(rest[span..]));
  }

  lemma {:induction false} AnsweredCompletes(h: seq<Message>, res: map<string, nat>, open: seq<ToolCall>,
                                             rest: seq<Message>)
    requires Indexes(h, res) && DistinctIds(open) && Completes(rest, [])
    ensures Completes(Answered(h, res, open) + rest, open)
  {
    var s := Answered(h, res, open) + rest;
    if open == [] {
      assert s == rest;
    } else {
      assert DistinctIds(open[1..]);
      AnsweredCompletes(h, res, open[1..], rest);
      Tailed(Answer(h, res, open[0]), Answered(h, res, open[1..]), rest);
      assert Without(open, 0) == open[1..];
      ToolCompletes(s, open, 0);
    }
  }

  lemma {:induction false} OthersIds(open: seq<ToolCall>, pos: nat)
    requires pos < |open| && DistinctIds(open)
    ensures CallIds(Without(open, pos)) == CallIds(open) - {open[pos].id}
  {
    var others := Without(open, pos);
    forall id | id in CallIds(open) && id != open[pos].id ensures id in CallIds(others) {
      var p :| 0 <= p < |open| && open[p].id == id;
      assert others[if p < pos then p else p - 1].id == id;
    }
    forall id | id in CallIds(others) ensures id in CallIds(open) && id != open[pos].id {
      var p :| 0 <= p < |others| && others[p].id == id;
      assert open[if p < pos then p else p + 1].id == id;
    }
  }

  lemma {:induction false} AnswersOneMore(ids: seq<Option<string>>, others: seq<ToolCall>, open: seq<ToolCall>,
                                          id: string)
    requires Answers(ids, others) && CallIds(others) == CallIds(open) - {id} && id in CallIds(open)
    ensures Answers([Some(id)] + ids, open)
  {
    var more := [Some(id)] + ids;
    assert more[0] == Some(id);
    forall p | 1 <= p < |more| ensures more[p] == ids[p - 1] {}
    forall other | other in CallIds(open) ensures Some(other) in more {
      if other != id { assert Some(other) in ids; }
    }
  }

  /** A result for one of the calls in front of a segment that completes the others. */
  lemma {:induction false} ToolCompletes(s: seq<Message>, open: seq<ToolCall>, pos: nat)
    requires s != [] && pos < |open| && DistinctIds(open)
    requires ResultFor(s[0], open[pos].id) && Completes(s[1..], Without(open, pos))
    ensures Completes(s, open)
  {
    var others := Without(open, pos);
    var span := GroupSpan(s[1..], |others|).value;
    var ids := ResultIds(s[1..][..span]);
    assert s[..1 + span][1..] == s[1..][..span];
    assert s[1 + span..] == s[1..][span..];
    assert ResultIds(s[..1 + span]) == [Some(open[pos].id)] + ids;
    assert open[pos].id in CallIds(open);
    OthersIds(open, pos);
    AnswersOneMore(ids, others, open, open[pos].id);
  }

  /** Every result of the history is the one its call is matched with. */
  ghost predicate NoOrphan(h: seq<Message>, res: map<string, nat>) {
    forall k :: 0 <= k < |h| && h[k].role == Tool ==> Matched(h, res, k)
  }

  lemma {:induction false} StepCompletes(h: seq<Message>, res: map<string, nat>, i: nat, open: seq<ToolCall>)
    requires i < |h| && Indexes(h, res) && DistinctIds(open) && (h[i].role == Tool ==> Matched(h, res, i))
    requires var next := Pace(h, res, i, open).open; Completes(After(h, res, i + 1, next), next)
    ensures Completes(After(h, res, i, open), open)
  {
    if Breaker(h[i]) {
      var rest := After(h, res, i + 1, Calls(h[i]));
      BreakerCompletes(h[i], rest);
      AfterBreaker(h, res, i, open);
      AnsweredCompletes(h, res, open, [h[i]] + rest);
    } else {
      AfterFront(h, res, i, open);
      var s := After(h, res, i, open);
      if h[i].role == Internal {
        InternalCompletes(s, open);
      } else if OpenPosition(open, h[i]).Some? {
        ToolCompletes(s, open, OpenPosition(open, h[i]).value);
      }
    }
  }

  lemma {:induction false} AfterSanitized(h: seq<Message>, res: map<string, nat>, i: nat, open: seq<ToolCall>)
    requires DistinctCallIds(h) && DistinctIds(open) && i <= |h| && Indexes(h, res) && NoOrphan(h, res)
    ensures Completes(After(h, res, i, open), open)
    decreases |h| - i
  {
    if i == |h| {
      EndCompletes(h, res, open);
    } else {
      var next := PaceDistinct(h, res, i, open);
      AfterSanitized(h, res, i + 1, next);
      StepCompletes(h, res, i, open);
    }
  }

  lemma {:induction false} PaceDistinct(h: seq<Message>, res: map<string, nat>, i: nat, open: seq<ToolCall>)
    returns (next: seq<ToolCall>)
    requires i < |h| && DistinctCallIds(h) && DistinctIds(open)
    ensures next == Pace(h, res, i, open).open && DistinctIds(next)
  {
    next := Pace(h, res, i, open).open;
  }

  lemma {:induction false} EndCompletes(h: seq<Message>, res: map<string, nat>, open: seq<ToolCall>)
    requires DistinctIds(open) && Indexes(h, res)
    ensures Completes(After(h, res, |h|, open), open)
  {
    CompletesNone([]);
    AnsweredCompletes(h, res, open, []);
    assert Answered(h, res, open) + [] == Answered(h, res, open);
  }

  lemma {:induction false} InternalCompletes(s: seq<Message>, open: seq<ToolCall>)
    requires s != [] && s[0].role == Internal && Completes(s[1..], open)
    ensures Completes(s, open)
  {
    if open == [] {
      CompletesNone(s[1..]);
      CompletesNone(s);
    } else {
      var span := GroupSpan(s[1..], |open|).value;
      assert s[..1 + span][1..] == s[1..][..span];
      assert s[1 + span..] == s[1..][span..];
      assert ResultIds(s[..1 + span]) == ResultIds(s[1..][..span]);
    }
  }

  /** With distinct call ids and no stray or repeated result, sanitize takes nothing from a
      closed-out history but the assistant messages that have neither content nor calls. */
  lemma {:induction false} SanitizeKeepsBatches(h: seq<Message>)
    requires DistinctCallIds(h) && NoOrphan(h, Results(h))
    ensures Sanitized(Closed(h)) == WithoutEmptyReplies(Closed(h))
  {
    ClosedIsAfter(h);
    AfterSanitized(h, Results(h), 0, []);
    CompletesNone(Closed(h));
  }
}
