/** The agent's history buffer and its in-place repair
    (crates/kernel/src/agent/message_buffer.rs). */
module MessageBuffer {
  import opened Messages
  import opened Sanitize
  import CloseOut
  import opened Sequences

  // ---------- the scan of one group ----------

  lemma {:induction false} ResultIdsAppend(s: seq<Message>, m: Message)
    ensures ResultIds(s + [m]) == ResultIds(s) + if m.role == Tool then [m.toolCallId] else []
  {
    if s == [] {
      assert s + [m] == [m] && ResultIds([m][1..]) == [];
    } else {
      ResultIdsAppend(s[1..], m);
      assert (s + [m])[1..] == s[1..] + [m];
    }
  }

  /** Walking past a run of results and Internal messages leaves the rest of the span. */
  lemma {:induction false} SpanAfter(s: seq<Message>, n: nat, done: nat)
    requires done <= |s| && forall k :: 0 <= k < done ==> !Breaker(s[k])
    requires |ResultIds(s[..done])| < n
    ensures var rest := GroupSpan(s[done..], n - |ResultIds(s[..done])|);
            GroupSpan(s, n) == if rest.Some? then Some(done + rest.value) else None
  {
    if done == 0 {
      assert s[0..] == s;
    } else {
      IdsFrom(s, done);
      SpanFirst(s, n);
      assert s[1..][done - 1..] == s[done..];
      SpanAfter(s[1..], if s[0].role == Tool then n - 1 else n, done - 1);
    }
  }

  lemma {:induction false} SpanFirst(s: seq<Message>, n: nat)
    requires s != [] && n > 0 && !Breaker(s[0])
    ensures var rest := GroupSpan(s[1..], if s[0].role == Tool then n - 1 else n);
            GroupSpan(s, n) == if rest.Some? then Some(1 + rest.value) else None
  {
  }

  lemma {:induction false} IdsFrom(s: seq<Message>, done: nat)
    requires 0 < done <= |s|
    ensures |ResultIds(s[..done])| == |ResultIds(s[1..][..done - 1])| + if s[0].role == Tool then 1 else 0
  {
    assert s[1..][..done - 1] == s[..done][1..];
  }

  lemma {:induction false} IdsPrefix(s: seq<Message>, lo: nat, hi: nat)
    requires lo <= hi <= |s|
    ensures ResultIds(s[..lo]) <= ResultIds(s[..hi])
    decreases hi - lo
  {
    if lo < hi {
      IdsPrefix(s, lo, hi - 1);
      assert s[..hi] == s[..hi - 1] + [s[hi - 1]];
      ResultIdsAppend(s[..hi - 1], s[hi - 1]);
    }
  }

  /** A result that names no expected call spoils every group it would belong to. */
  lemma {:induction false} SpoiledGroup(s: seq<Message>, n: nat, done: nat, calls: seq<ToolCall>)
    requires done < |s| && (forall k :: 0 <= k < done ==> !Breaker(s[k])) && s[done].role == Tool
    requires |ResultIds(s[..done])| < n
    requires s[done].toolCallId.None? || s[done].toolCallId.value !in CallIds(calls) ||
               s[done].toolCallId in ResultIds(s[..done])
    ensures GroupSpan(s, n).Some? ==> !Answers(ResultIds(s[..GroupSpan(s, n).value]), calls)
  {
    SpanAfter(s, n, done);
    if GroupSpan(s, n).Some? {
      var ids := ResultIds(s[..done]);
      var end := GroupSpan(s, n).value;
      assert s[..done + 1] == s[..done] + [s[done]];
      ResultIdsAppend(s[..done], s[done]);
      IdsPrefix(s, done + 1, end);
      assert ResultIds(s[..end])[|ids|] == s[done].toolCallId;
      if s[done].toolCallId in ids {
        var p :| 0 <= p < |ids| && ids[p] == s[done].toolCallId;
        assert ResultIds(s[..end])[p] == ids[p];
      }
    }
  }

  /** The positions of the results in s[lo..hi]. */
  function ToolPositions(s: seq<Message>, lo: nat, hi: nat): seq<nat>
    requires lo <= hi <= |s|
    decreases hi
  {
    if lo == hi then [] else ToolPositions(s, lo, hi - 1) + if s[hi - 1].role == Tool then [hi - 1] else []
  }

  lemma {:induction false} ToolPositionsExact(s: seq<Message>, lo: nat, hi: nat, k: nat)
    requires lo <= hi <= |s|
    ensures k in ToolPositions(s, lo, hi) <==> lo <= k < hi && s[k].role == Tool
    decreases hi
  {
    if lo < hi {
      ToolPositionsExact(s, lo, hi - 1, k);
    }
  }

  /** The first `done` messages after a batch: no breaker among them, their results name calls of
      the batch, and `expected` holds the calls still unanswered. */
  ghost predicate Scanned(tail: seq<Message>, calls: seq<ToolCall>, done: nat, expected: set<string>) {
    && done <= |tail|
    && (forall k :: 0 <= k < done ==> !Breaker(tail[k]))
    && var ids := ResultIds(tail[..done]);
    && (forall p :: 0 <= p < |ids| ==> ids[p].Some? && ids[p].value in CallIds(calls))
    && (forall p, q :: 0 <= p < q < |ids| ==> ids[p] != ids[q])
    && (forall id :: id in expected <==> id in CallIds(calls) && Some(id) !in ids)
  }

  lemma {:induction false} ScanStep(tail: seq<Message>, calls: seq<ToolCall>, done: nat, expected: set<string>)
    requires Scanned(tail, calls, done, expected) && done < |tail|
    requires |ResultIds(tail[..done])| < |calls|
    ensures |ResultIds(tail[..done + 1])| == |ResultIds(tail[..done])| + if tail[done].role == Tool then 1 else 0
    ensures tail[done].role == Internal ==> Scanned(tail, calls, done + 1, expected)
    ensures tail[done].role == Tool && tail[done].toolCallId.Some? && tail[done].toolCallId.value in expected ==>
              && Scanned(tail, calls, done + 1, expected - {tail[done].toolCallId.value})
              && (|ResultIds(tail[..done + 1])| == |calls| ==> GroupSpan(tail, |calls|) == Some(done + 1))
  {
    assert tail[..done + 1] == tail[..done] + [tail[done]];
    ResultIdsAppend(tail[..done], tail[done]);
    SpanAfter(tail, |calls|, done);
    assert tail[done..][0] == tail[done];
  }

  lemma {:induction false} ScanFails(tail: seq<Message>, calls: seq<ToolCall>, done: nat, expected: set<string>)
    requires Scanned(tail, calls, done, expected)
    requires |ResultIds(tail[..done])| < |calls|
    requires done < |tail| ==> tail[done].role != Internal
    requires done < |tail| && tail[done].role == Tool ==>
               tail[done].toolCallId.None? || tail[done].toolCallId.value !in expected
    ensures GroupSpan(tail, |calls|).Some? ==> !Answers(ResultIds(tail[..GroupSpan(tail, |calls|).value]), calls)
  {
    SpanAfter(tail, |calls|, done);
    if done < |tail| && tail[done].role == Tool {
      SpoiledGroup(tail, |calls|, done, calls);
    }
  }

  /** The scan of the batch at position i has reached cursor with nothing wrong so far. */
  ghost predicate Scanning(s: seq<Message>, i: nat, cursor: nat, expected: set<string>) {
    && i < cursor <= |s| && Batch(s[i])
    && var calls, tail, done := s[i].toolCalls.value, s[i + 1..], cursor - i - 1;
    && Scanned(tail, calls, done, expected)
    && |ToolPositions(s, i + 1, cursor)| == |ResultIds(tail[..done])| <= |calls|
    && (|ResultIds(tail[..done])| == |calls| ==> GroupSpan(tail, |calls|) == Some(done))
  }

  lemma {:induction false} ScanStart(s: seq<Message>, i: nat)
    requires i < |s| && Batch(s[i])
    ensures Scanning(s, i, i + 1, CallIds(s[i].toolCalls.value))
  {
    assert s[i + 1..][..0] == [];
  }

  lemma {:induction false} ScanOn(s: seq<Message>, i: nat, cursor: nat, expected: set<string>)
    requires Scanning(s, i, cursor, expected) && cursor < |s|
    requires |ToolPositions(s, i + 1, cursor)| < |s[i].toolCalls.value|
    ensures s[cursor].role == Internal ==> Scanning(s, i, cursor + 1, expected)
    ensures s[cursor].role == Tool && s[cursor].toolCallId.Some? && s[cursor].toolCallId.value in expected ==>
              Scanning(s, i, cursor + 1, expected - {s[cursor].toolCallId.value})
  {
    ScanStep(s[i + 1..], s[i].toolCalls.value, cursor - i - 1, expected);
    assert s[i + 1..][cursor - i - 1] == s[cursor];
  }

  lemma {:induction false} ScanStuck(s: seq<Message>, i: nat, cursor: nat, expected: set<string>)
    requires Scanning(s, i, cursor, expected)
    requires |ToolPositions(s, i + 1, cursor)| < |s[i].toolCalls.value|
    requires cursor < |s| ==> s[cursor].role != Internal
    requires cursor < |s| && s[cursor].role == Tool ==>
               s[cursor].toolCallId.None? || s[cursor].toolCallId.value !in expected
    ensures GroupLen(s[i..]).None?
  {
    ScanFails(s[i + 1..], s[i].toolCalls.value, cursor - i - 1, expected);
    assert s[i..][1..] == s[i + 1..];
  }

  lemma {:induction false} ScanEnd(s: seq<Message>, i: nat, cursor: nat, expected: set<string>)
    requires Scanning(s, i, cursor, expected)
    requires |ToolPositions(s, i + 1, cursor)| == |s[i].toolCalls.value|
    ensures GroupLen(s[i..]) == if expected == {} then Some(cursor - i) else None
  {
    assert s[i..][1..] == s[i + 1..];
    if expected != {} {
      var id :| id in expected;
      assert Some(id) !in ResultIds(s[i + 1..][..cursor - i - 1]);
    }
  }

  lemma {:induction false} ScanClean(s: seq<Message>, i: nat, cursor: nat, expected: set<string>)
    requires Scanning(s, i, cursor, expected)
    ensures forall k :: i < k < cursor ==> !Breaker(s[k])
  {
    forall k | i < k < cursor ensures !Breaker(s[k]) {
      assert s[k] == s[i + 1..][k - i - 1];
    }
  }

  /** The inner loop of `sanitize`: collect the results of the batch at position i. The scan
      stops at cursor; `visits` counts the messages it looked at. */
  method CollectGroup(messages: seq<Message>, i: nat)
    returns (valid: bool, cursor: nat, found: seq<nat>, ghost visits: nat)
    requires i < |messages| && Batch(messages[i])
    ensures i < cursor <= |messages|
    ensures GroupLen(messages[i..]) == if valid then Some(cursor - i) else None
    ensures forall k :: i < k < cursor ==> !Breaker(messages[k])
    ensures || found == ToolPositions(messages, i + 1, cursor)
            || (cursor < |messages| && messages[cursor].role == Tool &&
              found == ToolPositions(messages, i + 1, cursor) + [cursor])
    ensures visits <= cursor - i - 1 + if !valid && cursor < |messages| then 1 else 0
  {
    var calls := messages[i].toolCalls.value;
    var expected := CallIds(calls);
    found, cursor, visits := [], i + 1, 0;
    ScanStart(messages, i);
    while |found| < |calls|
      invariant Scanning(messages, i, cursor, expected)
      invariant found == ToolPositions(messages, i + 1, cursor)
      invariant visits <= cursor - i - 1
      decreases |messages| - cursor
    {
      ScanClean(messages, i, cursor, expected);
      if cursor >= |messages| {
        ScanStuck(messages, i, cursor, expected);
        return false, cursor, found, visits;
      }
      var next := messages[cursor];
      visits := visits + 1;
      if next.role == Internal {
        ScanOn(messages, i, cursor, expected);
        cursor := cursor + 1;
      } else if next.role == Tool {
        found := found + [cursor];
        if next.toolCallId.None? || next.toolCallId.value !in expected {
          ScanStuck(messages, i, cursor, expected);
          return false, cursor, found, visits;
        }
        ScanOn(messages, i, cursor, expected);
        expected := expected - {next.toolCallId.value};
        cursor := cursor + 1;
      } else {
        ScanStuck(messages, i, cursor, expected);
        return false, cursor, found, visits;
      }
    }
    ScanClean(messages, i, cursor, expected);
    ScanEnd(messages, i, cursor, expected);
    valid := expected == {};
  }

  // ---------- the whole buffer ----------

  lemma {:induction false} SkipBrokenGroup(s: seq<Message>, i: nat, j: nat, drop: set<nat>)
    requires i <= j <= |s| && forall k :: i <= k < j ==> !Breaker(s[k])
    requires forall k: nat :: i <= k < j ==> (k in drop <==> s[k].role == Tool)
    ensures Sanitized(s[i..]) == Retain(s[..j], drop, i) + Sanitized(s[j..])
    decreases j - i
  {
    if i < j {
      assert s[i..][0] == s[i] && s[i..][1..] == s[i + 1..];
      SkipBrokenGroup(s, i + 1, j, drop);
      Tailed(s[i], Retain(s[..j], drop, i + 1), Sanitized(s[j..]));
    }
  }

  lemma {:induction false} RetainSplit(s: seq<Message>, drop: set<nat>, lo: nat, mid: nat)
    requires lo <= mid <= |s|
    ensures Retain(s, drop, lo) == Retain(s[..mid], drop, lo) + Retain(s, drop, mid)
    decreases mid - lo
  {
    if lo < mid {
      RetainSplit(s, drop, lo + 1, mid);
      Tailed(s[lo], Retain(s[..mid], drop, lo + 1), Retain(s, drop, mid));
    }
  }

  lemma {:induction false} RetainSame(s: seq<Message>, drop: set<nat>, more: set<nat>, lo: nat)
    requires lo <= |s| && forall k :: lo <= k < |s| ==> (k in drop <==> k in more)
    ensures Retain(s, drop, lo) == Retain(s, more, lo)
    decreases |s| - lo
  {
    if lo < |s| {
      RetainSame(s, drop, more, lo + 1);
    }
  }

  /** What the scan owes once it has dealt with the first i messages. */
  ghost predicate Progress(s: seq<Message>, i: nat, drop: set<nat>) {
    && i <= |s|
    && Retain(s[..i], drop, 0) + Sanitized(s[i..]) == Sanitized(s)
    && (forall k :: k in drop ==> k < i || (k == i && i < |s| && s[i].role == Tool))
  }

  /** One step of the scan: positions i..j are settled, `more` marks the ones to remove. */
  lemma {:induction false} Progressed(s: seq<Message>, i: nat, j: nat, drop: set<nat>, more: set<nat>)
    requires Progress(s, i, drop) && i <= j <= |s|
    requires forall k :: k < i ==> (k in drop <==> k in more)
    requires forall k :: k in more ==> k < j || (k == j && j < |s| && s[j].role == Tool)
    requires Sanitized(s[i..]) == Retain(s[..j], more, i) + Sanitized(s[j..])
    ensures Progress(s, j, more)
  {
    RetainGrown(s, i, j, drop, more);
    Regrouped(Retain(s[..i], drop, 0), Retain(s[..j], more, i), Sanitized(s[j..]));
  }

  lemma {:induction false} RetainGrown(s: seq<Message>, i: nat, j: nat, drop: set<nat>, more: set<nat>)
    requires i <= j <= |s| && forall k :: k < i ==> (k in drop <==> k in more)
    ensures Retain(s[..j], more, 0) == Retain(s[..i], drop, 0) + Retain(s[..j], more, i)
  {
    RetainSplit(s[..j], more, 0, i);
    assert s[..j][..i] == s[..i];
    RetainSame(s[..i], drop, more, 0);
  }

  function Positions(found: seq<nat>): set<nat> {
    set p | 0 <= p < |found| :: found[p]
  }

  lemma {:induction false} MarkFound(s: seq<Message>, i: nat, cursor: nat, found: seq<nat>, before: set<nat>,
                                     after: set<nat>)
    requires i < cursor <= |s|
    requires || found == ToolPositions(s, i + 1, cursor)
             || (cursor < |s| && s[cursor].role == Tool && found == ToolPositions(s, i + 1, cursor) + [cursor])
    requires forall k :: k in before ==> k < i
    requires after == before + {i} + Positions(found)
    ensures forall k: nat :: i < k < cursor ==> (k in after <==> s[k].role == Tool)
    ensures forall k :: k < i ==> (k in after <==> k in before)
    ensures forall k :: k in after ==> k < cursor || (k == cursor && cursor < |s| && s[cursor].role == Tool)
    ensures i in after
  {
    var tools := ToolPositions(s, i + 1, cursor);
    forall k: nat ensures k in tools <==> i < k < cursor && s[k].role == Tool {
      ToolPositionsExact(s, i + 1, cursor, k);
    }
    assert forall p :: 0 <= p < |tools| ==> found[p] == tools[p] && tools[p] in tools;
    forall k: nat | k in tools ensures k in after {
      var p :| 0 <= p < |tools| && tools[p] == k;
      assert found[p] == k;
    }
  }

  lemma {:induction false} PassSingle(s: seq<Message>, i: nat, before: set<nat>, after: set<nat>)
    requires i < |s| && !Batch(s[i]) && Progress(s, i, before)
    requires after == before + if s[i].role == Tool || EmptyReply(s[i]) then {i} else {}
    ensures Progress(s, i + 1, after)
  {
    assert s[i..][0] == s[i] && s[i..][1..] == s[i + 1..];
    var t := s[..i + 1];
    assert Retain(t, after, i) == (if i in after then [] else [t[i]]) + Retain(t, after, i + 1);
    Progressed(s, i, i + 1, before, after);
  }

  lemma {:induction false} PassGroup(s: seq<Message>, i: nat, cursor: nat, drop: set<nat>)
    requires i < cursor <= |s| && Batch(s[i]) && Progress(s, i, drop)
    requires GroupLen(s[i..]) == Some(cursor - i)
    ensures Progress(s, cursor, drop)
  {
    RetainWhole(s, i, cursor, drop);
    GroupSanitized(s, i, cursor);
    Progressed(s, i, cursor, drop, drop);
  }

  lemma {:induction false} GroupSanitized(s: seq<Message>, i: nat, cursor: nat)
    requires i < cursor <= |s| && Batch(s[i]) && GroupLen(s[i..]) == Some(cursor - i)
    ensures Sanitized(s[i..]) == s[i..cursor] + Sanitized(s[cursor..])
  {
    assert s[i..][..cursor - i] == s[i..cursor] && s[i..][cursor - i..] == s[cursor..];
  }

  lemma {:induction false} RetainWhole(s: seq<Message>, i: nat, cursor: nat, drop: set<nat>)
    requires i <= cursor <= |s| && forall k :: i <= k < cursor ==> k !in drop
    ensures Retain(s[..cursor], drop, i) == s[i..cursor]
  {
    RetainRun(s[..cursor], drop, i, cursor);
    assert s[..cursor][i..cursor] == s[i..cursor];
  }

  lemma {:induction false} PassBroken(s: seq<Message>, i: nat, cursor: nat, found: seq<nat>, before: set<nat>,
                                      after: set<nat>)
    requires i < cursor <= |s| && Batch(s[i]) && Progress(s, i, before)
    requires GroupLen(s[i..]).None? && forall k :: i < k < cursor ==> !Breaker(s[k])
    requires || found == ToolPositions(s, i + 1, cursor)
             || (cursor < |s| && s[cursor].role == Tool && found == ToolPositions(s, i + 1, cursor) + [cursor])
    requires after == before + {i} + Positions(found)
    ensures Progress(s, cursor, after)
  {
    MarkFound(s, i, cursor, found, before, after);
    SkipBrokenGroup(s, i + 1, cursor, after);
    assert s[i..][0] == s[i] && s[i..][1..] == s[i + 1..];
    Progressed(s, i, cursor, before, after);
  }

  // ---------- indexing the results ----------

  lemma {:induction false} BatchIdsStep(messages: seq<Message>, i: nat)
    requires i < |messages|
    ensures CloseOut.BatchIds(messages[..i + 1]) == CloseOut.BatchIds(messages[..i]) + CallIds(Calls(messages[i]))
  {
    var before, now := messages[..i], messages[..i + 1];
    forall j, q | 0 <= j < |before| && 0 <= q < |Calls(before[j])|
      ensures Calls(before[j])[q].id in CloseOut.BatchIds(now)
    {
      assert now[j] == before[j];
    }
    forall j, q | 0 <= j < |now| && 0 <= q < |Calls(now[j])|
      ensures Calls(now[j])[q].id in CloseOut.BatchIds(before) + CallIds(Calls(messages[i]))
    {
      if j < i { assert now[j] == before[j]; }
    }
    forall q | 0 <= q < |Calls(messages[i])| ensures Calls(messages[i])[q].id in CloseOut.BatchIds(now) {
      assert now[i] == messages[i];
    }
  }

  ghost predicate IndexedUpTo(messages: seq<Message>, batchIds: set<string>, results: map<string, nat>, i: nat) {
    && i <= |messages|
    && (forall id :: id in results ==> id in batchIds && results[id] < i && ResultFor(messages[results[id]], id))
    && (forall id, k :: id in results && 0 <= k < results[id] ==> !ResultFor(messages[k], id))
    && (forall id, k :: id in batchIds && id !in results && 0 <= k < i ==> !ResultFor(messages[k], id))
  }

  lemma {:induction false} IndexNext(messages: seq<Message>, batchIds: set<string>, results: map<string, nat>, i: nat)
    requires IndexedUpTo(messages, batchIds, results, i) && i < |messages|
    ensures var msg := messages[i];
            if msg.role == Tool && msg.toolCallId.Some? && msg.toolCallId.value in batchIds &&
              msg.toolCallId.value !in results
            then IndexedUpTo(messages, batchIds, results[msg.toolCallId.value := i], i + 1)
            else IndexedUpTo(messages, batchIds, results, i + 1)
  {
  }

  lemma {:induction false} IndexedAll(messages: seq<Message>, results: map<string, nat>)
    requires IndexedUpTo(messages, CloseOut.BatchIds(messages), results, |messages|)
    ensures results == CloseOut.Results(messages)
  {
    var all := CloseOut.Results(messages);
    forall id ensures id in results <==> id in all {
      var first := CloseOut.FirstResult(messages, id, 0);
    }
    forall id | id in results ensures results[id] == all[id] {
      var first := CloseOut.FirstResult(messages, id, 0);
    }
  }

  // ---------- emitting the rebuilt history ----------

  /** The messages written so far, and those of them that were made up, come from these sources. */
  predicate Written(log: seq<Message>, done: seq<CloseOut.Source>, out: seq<Message>, made: seq<Message>) {
    CloseOut.InLog(log, done) && out == CloseOut.Render(log, done) &&
      made == CloseOut.CancelledResults(CloseOut.SynthCalls(done))
  }

  lemma {:induction false} WrittenMore(log: seq<Message>, done: seq<CloseOut.Source>, out: seq<Message>,
                                       made: seq<Message>,
                                       done': seq<CloseOut.Source>, out': seq<Message>, made': seq<Message>)
    requires Written(log, done, out, made) && Written(log, done', out', made')
    ensures Written(log, done + done', out + out', made + made')
  {
    CloseOut.RenderAppend(log, done, done');
    CloseOut.SynthAppend(done, done');
  }

  lemma {:induction false} WriteOwn(log: seq<Message>, done: seq<CloseOut.Source>, out: seq<Message>,
                                    made: seq<Message>, i: nat)
    requires Written(log, done, out, made) && i < |log|
    ensures Written(log, done + [CloseOut.Log(i)], out + [log[i]], made)
  {
    var own := [CloseOut.Log(i)];
    assert Written(log, own, [log[i]], []);
    WrittenMore(log, done, out, made, own, [log[i]], []);
    assert made + [] == made;
  }

  lemma {:induction false} WriteMade(log: seq<Message>, done: seq<CloseOut.Source>, out: seq<Message>,
                                     made: seq<Message>, call: ToolCall)
    requires Written(log, done, out, made)
    ensures var m := [CancelledResult(call.id)]; Written(log, done + [CloseOut.Synth(call)], out + m, made + m)
  {
    var own, m := [CloseOut.Synth(call)], [CancelledResult(call.id)];
    assert CloseOut.SynthCalls(own) == [call];
    assert Written(log, own, m, m);
    WrittenMore(log, done, out, made, own, m, m);
  }

  /** What is written so far, followed by what the rest of the log gives, is the closed-out history. */
  predicate Closing(log: seq<Message>, res: map<string, nat>, i: nat, open: seq<ToolCall>, consumed: set<nat>,
                    done: seq<CloseOut.Source>, out: seq<Message>, made: seq<Message>)
  {
    && i <= |log| && Written(log, done, out, made)
    && done + CloseOut.Rebuild(log, res, i, open, consumed) == CloseOut.Sources(log)
  }

  lemma {:induction false} ClosingNext(log: seq<Message>, res: map<string, nat>, i: nat, open: seq<ToolCall>,
                                       consumed: set<nat>,
                                       done: seq<CloseOut.Source>, out: seq<Message>, made: seq<Message>,
                                       out': seq<Message>, made': seq<Message>)
    requires i < |log| && Closing(log, res, i, open, consumed, done, out, made)
    requires Written(log, done + CloseOut.Advance(log, res, i, open, consumed).emit, out', made')
    ensures var step := CloseOut.Advance(log, res, i, open, consumed);
            Closing(log, res, i + 1, step.open, step.consumed, done + step.emit, out', made')
  {
    var step := CloseOut.Advance(log, res, i, open, consumed);
    Regrouped(done, step.emit, CloseOut.Rebuild(log, res, i + 1, step.open, step.consumed));
  }

  lemma {:induction false} ClosingEnds(log: seq<Message>, res: map<string, nat>, open: seq<ToolCall>,
                                       consumed: set<nat>,
                                       done: seq<CloseOut.Source>, out: seq<Message>, made: seq<Message>,
                                       more: seq<Message>, made': seq<Message>)
    requires Closing(log, res, |log|, open, consumed, done, out, made)
    requires Written(log, CloseOut.Drain(res, open, consumed).0, more, made')
    ensures out + more == CloseOut.Closed(log) && made + made' == CloseOut.Synthesized(log)
  {
    WrittenMore(log, done, out, made, CloseOut.Drain(res, open, consumed).0, more, made');
  }

  lemma {:induction false} WriteBreaker(log: seq<Message>, res: map<string, nat>, i: nat, open: seq<ToolCall>,
                                        consumed: set<nat>,
                                        done: seq<CloseOut.Source>, out: seq<Message>, made: seq<Message>,
                                        more: seq<Message>, made': seq<Message>)
    requires i < |log| && Breaker(log[i]) && Written(log, done, out, made)
    requires Written(log, CloseOut.Drain(res, open, consumed).0, more, made')
    ensures Written(log, done + CloseOut.Advance(log, res, i, open, consumed).emit, out + more + [log[i]], made + made')
  {
    var closed := CloseOut.Drain(res, open, consumed).0;
    WrittenMore(log, done, out, made, closed, more, made');
    WriteOwn(log, done + closed, out + more, made + made', i);
    Regrouped(done, closed, [CloseOut.Log(i)]);
  }

  /** Part of an open batch is written; draining the other calls gives the rest of it. */
  predicate Draining(log: seq<Message>, res: map<string, nat>, open: seq<ToolCall>, consumed: set<nat>, p: nat,
                     after: set<nat>,
                     done: seq<CloseOut.Source>, out: seq<Message>, made: seq<Message>)
  {
    && p <= |open| && Written(log, done, out, made)
    && done + CloseOut.Drain(res, open[p..], after).0 == CloseOut.Drain(res, open, consumed).0
    && CloseOut.Drain(res, open[p..], after).1 == CloseOut.Drain(res, open, consumed).1
  }

  lemma {:induction false} DrainNext(log: seq<Message>, res: map<string, nat>, open: seq<ToolCall>,
                                     consumed: set<nat>, p: nat, after: set<nat>,
                                     done: seq<CloseOut.Source>, out: seq<Message>, made: seq<Message>)
    requires Draining(log, res, open, consumed, p, after, done, out, made) && p < |open| && CloseOut.Indexes(log, res)
    ensures var id, m := open[p].id, [CancelledResult(open[p].id)];
            if id in res && res[id] !in after then
              Draining(log, res, open, consumed, p + 1, after + {res[id]}, done + [CloseOut.Log(res[id])], out +
                [log[res[id]]], made)
            else Draining(log, res, open, consumed, p + 1, after, done + [CloseOut.Synth(open[p])], out + m, made + m)
  {
    var id := open[p].id;
    assert open[p..][0] == open[p] && open[p..][1..] == open[p + 1..];
    if id in res && res[id] !in after {
      WriteOwn(log, done, out, made, res[id]);
      Regrouped(done, [CloseOut.Log(res[id])], CloseOut.Drain(res, open[p + 1..], after + {res[id]}).0);
    } else {
      WriteMade(log, done, out, made, open[p]);
      Regrouped(done, [CloseOut.Synth(open[p])], CloseOut.Drain(res, open[p + 1..], after).0);
    }
  }

  class MessageBuffer {
    var messages: seq<Message>

    constructor (messages: seq<Message>)
      ensures this.messages == messages
    {
      this.messages := messages;
    }

    /** `sanitize`: drop incomplete assistant/tool groups in place. The scan looks at no more
        than twice as many messages as the buffer holds. */
    method Sanitize() returns (ghost visits: nat)
      modifies this
      ensures messages == Sanitized(old(messages))
      ensures visits <= 2 * old(|messages|)
    {
      var s := messages;
      var toRemove: set<nat> := {};
      var i := 0;
      visits := 0;
      assert s[..0] == [] && s[0..] == s;
      while i < |s|
        invariant Progress(s, i, toRemove)
        invariant visits <= if i < |s| then 2 * i + 1 else 2 * i
        decreases |s| - i
      {
        ghost var before := toRemove;
        visits := visits + 1;
        if !Batch(s[i]) {
          if s[i].role == Tool || EmptyReply(s[i]) {
            toRemove := toRemove + {i};
          }
          PassSingle(s, i, before, toRemove);
          i := i + 1;
        } else {
          var valid, cursor, found, groupVisits := CollectGroup(s, i);
          visits := visits + groupVisits;
          if valid {
            PassGroup(s, i, cursor, toRemove);
          } else {
            toRemove := toRemove + {i} + Positions(found);
            PassBroken(s, i, cursor, found, before, toRemove);
          }
          i := cursor;
        }
      }
      assert s[..|s|] == s && s[|s|..] == [];
      messages := RetainOthers(s, toRemove);
    }

    static method RetainOthers(s: seq<Message>, drop: set<nat>) returns (kept: seq<Message>)
      ensures kept == Retain(s, drop, 0)
    {
      kept := [];
      for i := 0 to |s|
        invariant kept + Retain(s, drop, i) == Retain(s, drop, 0)
      {
        if i !in drop {
          Regrouped(kept, [s[i]], Retain(s, drop, i + 1));
          kept := kept + [s[i]];
        }
      }
    }

    /** `close_dangling_tool_batches`: rebuild a loaded history so that every call of every batch
        has a result, and return the results that had to be made up. */
    static method CloseDanglingToolBatches(messages: seq<Message>)
      returns (out: seq<Message>, synthesized: seq<Message>)
      ensures out == CloseOut.Closed(messages)
      ensures synthesized == CloseOut.Synthesized(messages)
    {
      var results := IndexResults(messages);
      ghost var done: seq<CloseOut.Source> := [];
      out, synthesized := [], [];
      var open: seq<ToolCall>, consumed: set<nat> := [], {};
      for i := 0 to |messages|
        invariant Closing(messages, results, i, open, consumed, done, out, synthesized)
      {
        var msg := messages[i];
        ghost var step := CloseOut.Advance(messages, results, i, open, consumed);
        ghost var was, wasMade, wasOpen, wasConsumed := out, synthesized, open, consumed;
        if msg.role == Internal {
          out := out + [msg];
          WriteOwn(messages, done, was, wasMade, i);
        } else if msg.role == Tool {
          var pos := CloseOut.OpenPosition(open, msg);
          if i in consumed {
            assert done + step.emit == done;
          } else if pos.Some? {
            consumed := consumed + {i};
            open := CloseOut.Without(open, pos.value);
            out := out + [msg];
            WriteOwn(messages, done, was, wasMade, i);
          } else if msg.toolCallId.Some? && msg.toolCallId.value in results && results[msg.toolCallId.value] == i {
            assert done + step.emit == done;
          } else {
            out := out + [msg];
            WriteOwn(messages, done, was, wasMade, i);
          }
        } else {
          var more, made, after := CloseOpenBatch(messages, results, open, consumed);
          out := out + more + [msg];
          synthesized := synthesized + made;
          consumed := after;
          open := if msg.role == Assistant && msg.toolCalls.Some? &&
            msg.toolCalls.value != [] then msg.toolCalls.value else [];
          WriteBreaker(messages, results, i, wasOpen, wasConsumed, done, was, wasMade, more, made);
        }
        ClosingNext(messages, results, i, wasOpen, wasConsumed, done, was, wasMade, out, synthesized);
        done := done + step.emit;
      }
      var more, made, _ := CloseOpenBatch(messages, results, open, consumed);
      ClosingEnds(messages, results, open, consumed, done, out, synthesized, more, made);
      out, synthesized := out + more, synthesized + made;
    }

    /** First pass: the ids of all calls, */
    static method CollectBatchIds(messages: seq<Message>) returns (batchIds: set<string>)
      ensures batchIds == CloseOut.BatchIds(messages)
    {
      batchIds := {};
      for i := 0 to |messages|
        invariant batchIds == CloseOut.BatchIds(messages[..i])
      {
        BatchIdsStep(messages, i);
        batchIds := batchIds + CallIds(Calls(messages[i]));
      }
      assert messages[..|messages|] == messages;
    }

    /** and where the first result for each of them stands. */
    static method IndexResults(messages: seq<Message>) returns (results: map<string, nat>)
      ensures results == CloseOut.Results(messages)
    {
      var batchIds := CollectBatchIds(messages);
      results := map[];
      for i := 0 to |messages|
        invariant IndexedUpTo(messages, batchIds, results, i)
      {
        var msg := messages[i];
        IndexNext(messages, batchIds, results, i);
        if msg.role == Tool && msg.toolCallId.Some? {
          var id := msg.toolCallId.value;
          if id in batchIds && id !in results {
            results := results[id := i];
          }
        }
      }
      IndexedAll(messages, results);
    }

    /** `close_open_batch`: drain the open batch, migrating the results that exist elsewhere and
        making up the others. */
    static method CloseOpenBatch(messages: seq<Message>, results: map<string, nat>, open: seq<ToolCall>,
                                 consumed: set<nat>)
      returns (out: seq<Message>, synthesized: seq<Message>, after: set<nat>)
      requires CloseOut.Indexes(messages, results)
      ensures after == CloseOut.Drain(results, open, consumed).1
      ensures Written(messages, CloseOut.Drain(results, open, consumed).0, out, synthesized)
    {
      ghost var done: seq<CloseOut.Source> := [];
      out, synthesized, after := [], [], consumed;
      assert open[0..] == open &&
        [] + CloseOut.Drain(results, open, consumed).0 == CloseOut.Drain(results, open, consumed).0;
      for p := 0 to |open|
        invariant Draining(messages, results, open, consumed, p, after, done, out, synthesized)
      {
        var call := open[p];
        DrainNext(messages, results, open, consumed, p, after, done, out, synthesized);
        if call.id in results && results[call.id] !in after {
          done := done + [CloseOut.Log(results[call.id])];
          out := out + [messages[results[call.id]]];
          after := after + {results[call.id]};
        } else {
          done := done + [CloseOut.Synth(call)];
          out := out + [CancelledResult(call.id)];
          synthesized := synthesized + [CancelledResult(call.id)];
        }
      }
      assert open[|open|..] == [] && done + [] == done;
    }
  }
}
