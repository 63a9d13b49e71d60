/** What the sentinel's Break means when no two calls share an id
    (crates/kernel/src/agent/loop_detect.rs:1-30). */
module LoopMeaning {
  import opened Messages
  import opened Sequences
  import opened CloseOut
  import opened LoopDetect

  /** Message k is the last result of call q of message b, and of no other call. */
  ghost predicate OwnResult(h: seq<Message>, b: nat, q: nat, k: nat) {
    && b < k < |h| && q < |Calls(h[b])| && ResultFor(h[k], Calls(h[b])[q].id)
    && (forall j :: k < j < |h| ==> !ResultFor(h[j], Calls(h[b])[q].id))
    && forall j, p :: 0 <= j < |h| && 0 <= p < |Calls(h[j])| && Calls(h[j])[p].id == Calls(h[b])[q].id ==>
      j == b && p == q
  }

  /** Message b makes this call, and this is its own result. */
  ghost predicate CallsWith(h: seq<Message>, b: nat, tool: string, arguments: string, content: seq<string>) {
    exists q: nat, k: nat ::
      && OwnResult(h, b, q, k)
      && Calls(h[b])[q].name == tool && Calls(h[b])[q].arguments == arguments && h[k].content == content
  }

  /** Some message of the history makes this call. */
  ghost predicate MadeIn(h: seq<Message>, tool: string, arguments: string, content: seq<string>) {
    exists b: nat :: b < |h| && CallsWith(h, b, tool, arguments, content)
  }

  /** Among the calls of this history that have results of their own, a fingerprint tells apart those that
      differ in name, arguments or result. */
  ghost predicate TellsApart(hash: Fingerprint, h: seq<Message>) {
    forall n, a, c, n', a', c' :: MadeIn(h, n, a, c) && MadeIn(h, n', a', c') && hash(n, a, c) == hash(n', a', c') ==>
      n == n' && a == a' && c == c'
  }

  /** Where the batches from position i on stand. */
  function BatchesAt(h: seq<Message>, i: nat): seq<nat>
    requires i <= |h|
    decreases |h| - i
  {
    if i == |h| then [] else if Calls(h[i]) != [] then [i] + BatchesAt(h, i + 1) else BatchesAt(h, i + 1)
  }

  /** The last n batches of the turn all make this call, each time with this result of its own. */
  ghost predicate Repeated(h: seq<Message>, n: nat, tool: string, arguments: string, content: seq<string>) {
    var at := BatchesAt(h, TurnStart(h));
    n <= |at| && forall k :: |at| - n <= k < |at| ==> CallsWith(h, at[k], tool, arguments, content)
  }

  /** The batches from position i on, and where they stand. */
  ghost predicate Stand(hash: Fingerprint, h: seq<Message>, i: nat, at: seq<nat>, batches: seq<Batch>) {
    && |at| == |batches|
    && forall k :: 0 <= k < |at| ==>
      i <= at[k] < |h| && batches[k] == Prints(hash, h, at[k] + 1, Calls(h[at[k]]))
  }

  lemma {:induction false} BatchesStand(hash: Fingerprint, h: seq<Message>, i: nat)
    requires i <= |h|
    ensures Stand(hash, h, i, BatchesAt(h, i), BatchesFrom(hash, h, i))
    decreases |h| - i
  {
    if i < |h| {
      BatchesStand(hash, h, i + 1);
      StandBehind(hash, h, i, BatchesAt(h, i + 1), BatchesFrom(hash, h, i + 1));
    }
  }

  lemma {:induction false} StandBehind(hash: Fingerprint, h: seq<Message>, i: nat, at: seq<nat>, batches: seq<Batch>)
    requires i < |h| && Stand(hash, h, i + 1, at, batches)
    ensures Stand(hash, h, i, at, batches)
    ensures Stand(hash, h, i, [i] + at, [Prints(hash, h, i + 1, Calls(h[i]))] + batches)
  {
  }

  lemma {:induction false} BatchStands(hash: Fingerprint, h: seq<Message>, k: nat) returns (b: nat)
    requires k < |TurnBatches(hash, h)|
    ensures k < |BatchesAt(h, TurnStart(h))| && b == BatchesAt(h, TurnStart(h))[k] < |h|
    ensures TurnBatches(hash, h)[k] == Prints(hash, h, b + 1, Calls(h[b]))
  {
    BatchesStand(hash, h, TurnStart(h));
    b := BatchesAt(h, TurnStart(h))[k];
  }

  lemma {:induction false} LastResultStands(h: seq<Message>, id: string, i: nat) returns (k: nat)
    requires i <= |h| && LastResult(h, id, i).Some?
    ensures i <= k < |h| && ResultFor(h[k], id) && h[k].content == LastResult(h, id, i).value
    ensures forall j :: k < j < |h| ==> !ResultFor(h[j], id)
    decreases |h| - i
  {
    if LastResult(h, id, i + 1).Some? {
      k := LastResultStands(h, id, i + 1);
    } else {
      k := i;
      NoneLater(h, id, i + 1);
    }
  }

  lemma {:induction false} NoneLater(h: seq<Message>, id: string, i: nat)
    requires i <= |h| && LastResult(h, id, i).None?
    ensures forall j :: i <= j < |h| ==> !ResultFor(h[j], id)
    decreases |h| - i
  {
    if i < |h| { NoneLater(h, id, i + 1); }
  }

  lemma {:induction false} LastResultIs(h: seq<Message>, id: string, i: nat, k: nat)
    requires i <= k < |h| && ResultFor(h[k], id) && forall j :: k < j < |h| ==> !ResultFor(h[j], id)
    ensures LastResult(h, id, i) == Some(h[k].content)
    decreases k - i
  {
    if i < k { LastResultIs(h, id, i + 1, k); } else { NoLateResult(h, id, i + 1); }
  }

  lemma {:induction false} PrintsHold(hash: Fingerprint, h: seq<Message>, i: nat, calls: seq<ToolCall>, mark: nat)
    returns (q: nat)
    requires i <= |h| && Holds(Prints(hash, h, i, calls), mark)
    ensures q < |calls| && LastResult(h, calls[q].id, i).Some?
    ensures hash(calls[q].name, calls[q].arguments, LastResult(h, calls[q].id, i).value) == mark
  {
    var prints, rest := Prints(hash, h, i, calls), Prints(hash, h, i, calls[1..]);
    var first := LastResult(h, calls[0].id, i);
    if first.Some? && hash(calls[0].name, calls[0].arguments, first.value) == mark {
      q := 0;
    } else {
      var p :| 0 <= p < |prints| && prints[p].mark == mark;
      assert first.Some? ==> p > 0 && rest[p - 1] == prints[p];
      assert Holds(rest, mark) by { assert rest[if first.Some? then p - 1 else p].mark == mark; }
      q := PrintsHold(hash, h, i, calls[1..], mark);
      q := q + 1;
    }
  }

  lemma {:induction false} HoldsPrint(hash: Fingerprint, h: seq<Message>, i: nat, calls: seq<ToolCall>, q: nat)
    requires i <= |h| && q < |calls| && LastResult(h, calls[q].id, i).Some?
    ensures Holds(Prints(hash, h, i, calls),
              hash(calls[q].name, calls[q].arguments, LastResult(h, calls[q].id, i).value))
  {
    var prints, rest := Prints(hash, h, i, calls), Prints(hash, h, i, calls[1..]);
    var mark := hash(calls[q].name, calls[q].arguments, LastResult(h, calls[q].id, i).value);
    if q == 0 {
      assert prints[0].mark == mark;
    } else {
      HoldsPrint(hash, h, i, calls[1..], q - 1);
      var p :| 0 <= p < |rest| && rest[p].mark == mark;
      assert prints[if LastResult(h, calls[0].id, i).Some? then p + 1 else p].mark == mark;
    }
  }

  /** A fingerprint that a batch holds is that of a call it makes. */
  lemma {:induction false} HoldsSome(hash: Fingerprint, h: seq<Message>, b: nat, mark: nat)
    returns (tool: string, arguments: string, content: seq<string>)
    requires DistinctCallIds(h) && b < |h| && Holds(Prints(hash, h, b + 1, Calls(h[b])), mark)
    ensures CallsWith(h, b, tool, arguments, content) && hash(tool, arguments, content) == mark
  {
    var calls := Calls(h[b]);
    var q := PrintsHold(hash, h, b + 1, calls, mark);
    var k := LastResultStands(h, calls[q].id, b + 1);
    tool, arguments, content := calls[q].name, calls[q].arguments, h[k].content;
    StandsAsOwn(h, b, q, k);
  }

  lemma {:induction false} StandsAsOwn(h: seq<Message>, b: nat, q: nat, k: nat)
    requires DistinctCallIds(h) && b < k < |h| && q < |Calls(h[b])| && ResultFor(h[k], Calls(h[b])[q].id)
    requires forall j :: k < j < |h| ==> !ResultFor(h[j], Calls(h[b])[q].id)
    ensures CallsWith(h, b, Calls(h[b])[q].name, Calls(h[b])[q].arguments, h[k].content)
  {
    OnlyCall(h, b, q);
    assert OwnResult(h, b, q, k);
  }

  lemma {:induction false} HoldsCall(hash: Fingerprint, h: seq<Message>, b: nat, tool: string, arguments: string,
                                     content: seq<string>)
    requires DistinctCallIds(h) && TellsApart(hash, h) && b < |h| && MadeIn(h, tool, arguments, content)
    requires Holds(Prints(hash, h, b + 1, Calls(h[b])), hash(tool, arguments, content))
    ensures CallsWith(h, b, tool, arguments, content)
  {
    var n, a, c := HoldsSome(hash, h, b, hash(tool, arguments, content));
    assert MadeIn(h, n, a, c);
  }

  lemma {:induction false} OnlyCall(h: seq<Message>, b: nat, q: nat)
    requires DistinctCallIds(h) && b < |h| && q < |Calls(h[b])|
    ensures forall j, p :: 0 <= j < |h| && 0 <= p < |Calls(h[j])| && Calls(h[j])[p].id == Calls(h[b])[q].id ==>
              j == b && p == q
  {
  }

  lemma {:induction false} CallHolds(hash: Fingerprint, h: seq<Message>, b: nat, tool: string, arguments: string,
                                     content: seq<string>)
    requires b < |h| && CallsWith(h, b, tool, arguments, content)
    ensures Holds(Prints(hash, h, b + 1, Calls(h[b])), hash(tool, arguments, content))
  {
    var calls := Calls(h[b]);
    var q: nat, k: nat :| OwnResult(h, b, q, k)
      && calls[q].name == tool && calls[q].arguments == arguments && h[k].content == content;
    LastResultIs(h, calls[q].id, b + 1, k);
    HoldsPrint(hash, h, b + 1, calls, q);
  }

  /** A batch holds a fingerprint exactly when it makes the call that has it. */
  lemma {:induction false} HoldsMeans(hash: Fingerprint, h: seq<Message>, b: nat, tool: string, arguments: string,
                                      content: seq<string>)
    requires DistinctCallIds(h) && TellsApart(hash, h) && b < |h| && MadeIn(h, tool, arguments, content)
    ensures Holds(Prints(hash, h, b + 1, Calls(h[b])), hash(tool, arguments, content)) <==>
              CallsWith(h, b, tool, arguments, content)
  {
    if Holds(Prints(hash, h, b + 1, Calls(h[b])), hash(tool, arguments, content)) {
      HoldsCall(hash, h, b, tool, arguments, content);
    }
    if CallsWith(h, b, tool, arguments, content) { CallHolds(hash, h, b, tool, arguments, content); }
  }

  lemma {:induction false} AllHold(hash: Fingerprint, h: seq<Message>, tool: string, arguments: string,
                                   content: seq<string>, k: nat)
    requires DistinctCallIds(h) && TellsApart(hash, h) && MadeIn(h, tool, arguments, content)
    requires k < |TurnBatches(hash, h)|
    ensures k < |BatchesAt(h, TurnStart(h))|
    ensures Holds(TurnBatches(hash, h)[k], hash(tool, arguments, content)) <==>
              CallsWith(h, BatchesAt(h, TurnStart(h))[k], tool, arguments, content)
  {
    var b := BatchStands(hash, h, k);
    HoldsMeans(hash, h, b, tool, arguments, content);
  }

  lemma {:induction false} InLastMeans(hash: Fingerprint, h: seq<Message>, n: nat, tool: string, arguments: string,
                                       content: seq<string>)
    requires DistinctCallIds(h) && TellsApart(hash, h) && MadeIn(h, tool, arguments, content)
    ensures InLast(TurnBatches(hash, h), hash(tool, arguments, content), n) <==>
              Repeated(h, n, tool, arguments, content)
  {
    var at, batches := BatchesAt(h, TurnStart(h)), TurnBatches(hash, h);
    BatchesStand(hash, h, TurnStart(h));
    forall k | 0 <= k < |at|
      ensures Holds(batches[k], hash(tool, arguments, content)) <==> CallsWith(h, at[k], tool, arguments, content)
    {
      AllHold(hash, h, tool, arguments, content, k);
    }
  }

  /** A fingerprint in the last batches is that of a call with a result of its own. */
  lemma {:induction false} MarkMeans(hash: Fingerprint, h: seq<Message>, n: nat, mark: nat)
    returns (tool: string, arguments: string, content: seq<string>)
    requires DistinctCallIds(h) && n > 0 && InLast(TurnBatches(hash, h), mark, n)
    ensures MadeIn(h, tool, arguments, content) && hash(tool, arguments, content) == mark
  {
    var b := LastBatch(hash, h, n, mark);
    tool, arguments, content := HoldsSome(hash, h, b, mark);
  }

  lemma {:induction false} LastBatch(hash: Fingerprint, h: seq<Message>, n: nat, mark: nat) returns (b: nat)
    requires n > 0 && InLast(TurnBatches(hash, h), mark, n)
    ensures b < |h| && Holds(Prints(hash, h, b + 1, Calls(h[b])), mark)
  {
    var batches := TurnBatches(hash, h);
    b := BatchStands(hash, h, |batches| - 1);
    assert Holds(batches[|batches| - 1], mark);
  }

  lemma {:induction false} RepeatedMade(h: seq<Message>, n: nat, tool: string, arguments: string,
                                        content: seq<string>)
    requires n > 0 && Repeated(h, n, tool, arguments, content)
    ensures MadeIn(h, tool, arguments, content)
  {
    var at := BatchesAt(h, TurnStart(h));
    assert CallsWith(h, at[|at| - 1], tool, arguments, content);
  }

  /** Some call with its own result is in the last n batches exactly when some print is. */
  lemma {:induction false} RepeatedIff(hash: Fingerprint, h: seq<Message>, n: nat)
    requires DistinctCallIds(h) && TellsApart(hash, h) && n > 0
    ensures (exists mark :: InLast(TurnBatches(hash, h), mark, n)) <==>
              exists tool, arguments, content :: Repeated(h, n, tool, arguments, content)
  {
    if mark :| InLast(TurnBatches(hash, h), mark, n) {
      var tool, arguments, content := MarkMeans(hash, h, n, mark);
      InLastMeans(hash, h, n, tool, arguments, content);
    }
    if tool, arguments, content :| Repeated(h, n, tool, arguments, content) {
      RepeatedMade(h, n, tool, arguments, content);
      InLastMeans(hash, h, n, tool, arguments, content);
    }
  }

  /** With distinct call ids, and a fingerprint that tells the calls of this history apart, the guard
      breaks exactly when the last breakAt batches of the turn all made the same call and each got the
      same result of its own. */
  lemma {:induction false} BreakMeans(hash: Fingerprint, h: seq<Message>, breakAt: nat, warnAt: nat)
    requires DistinctCallIds(h) && TellsApart(hash, h) && breakAt >= 2
    ensures Verdict(TurnBatches(hash, h), breakAt, warnAt).Break? <==>
              exists tool, arguments, content :: Repeated(h, breakAt, tool, arguments, content)
  {
    BreaksWhenRepeated(TurnBatches(hash, h), breakAt, warnAt);
    RepeatedIff(hash, h, breakAt);
  }

  // ---------- the call a signal names ----------

  /** A print is that of a call with its name. */
  lemma {:induction false} PrintStands(hash: Fingerprint, h: seq<Message>, i: nat, calls: seq<ToolCall>, k: nat)
    returns (q: nat)
    requires i <= |h| && k < |Prints(hash, h, i, calls)|
    ensures q < |calls| && LastResult(h, calls[q].id, i).Some?
    ensures Prints(hash, h, i, calls)[k]
         == CallPrint(calls[q].name, hash(calls[q].name, calls[q].arguments, LastResult(h, calls[q].id, i).value))
  {
    var first := LastResult(h, calls[0].id, i);
    if first.Some? && k == 0 {
      q := 0;
    } else {
      q := PrintStands(hash, h, i, calls[1..], if first.Some? then k - 1 else k);
      q := q + 1;
    }
  }

  lemma {:induction false} NamedStands(hash: Fingerprint, h: seq<Message>, b: nat, k: nat)
    returns (arguments: string, content: seq<string>)
    requires DistinctCallIds(h) && b < |h| && k < |Prints(hash, h, b + 1, Calls(h[b]))|
    ensures var own := Prints(hash, h, b + 1, Calls(h[b]))[k];
            CallsWith(h, b, own.tool, arguments, content) && hash(own.tool, arguments, content) == own.mark
  {
    var calls := Calls(h[b]);
    var q := PrintStands(hash, h, b + 1, calls, k);
    var r := LastResultStands(h, calls[q].id, b + 1);
    arguments, content := calls[q].arguments, h[r].content;
    StandsAsOwn(h, b, q, r);
  }

  lemma {:induction false} LastNamed(hash: Fingerprint, h: seq<Message>, tool: string, streak: nat)
    returns (arguments: string, content: seq<string>)
    requires DistinctCallIds(h) && NamesACall(TurnBatches(hash, h), tool, streak)
    ensures MadeIn(h, tool, arguments, content)
    ensures InLast(TurnBatches(hash, h), hash(tool, arguments, content), streak)
  {
    var k, mark := NamedPrint(TurnBatches(hash, h), tool, streak);
    arguments, content := LastStands(hash, h, k, tool, mark);
  }

  lemma {:induction false} NamedPrint(batches: seq<Batch>, tool: string, streak: nat) returns (k: nat, mark: nat)
    requires NamesACall(batches, tool, streak)
    ensures batches != [] && k < |batches[|batches| - 1]| && batches[|batches| - 1][k] == CallPrint(tool, mark)
    ensures InLast(batches, mark, streak)
  {
    var last := batches[|batches| - 1];
    k :| 0 <= k < |last| && last[k].tool == tool && Longest(batches, last[k].mark, streak);
    mark := last[k].mark;
  }

  lemma {:induction false} LastStands(hash: Fingerprint, h: seq<Message>, k: nat, tool: string, mark: nat)
    returns (arguments: string, content: seq<string>)
    requires DistinctCallIds(h)
    requires var batches := TurnBatches(hash, h);
             batches != [] && k < |batches[|batches| - 1]| && batches[|batches| - 1][k] == CallPrint(tool, mark)
    ensures MadeIn(h, tool, arguments, content) && hash(tool, arguments, content) == mark
  {
    var b := BatchStands(hash, h, |TurnBatches(hash, h)| - 1);
    arguments, content := NamedStands(hash, h, b, k);
  }

  lemma {:induction false} FewerLast(batches: seq<Batch>, mark: nat, n: nat, m: nat)
    requires InLast(batches, mark, m) && n <= m
    ensures InLast(batches, mark, n)
  {
  }

  /** The tool that a signal names is that of the call repeated. */
  lemma {:induction false} NamedCall(hash: Fingerprint, h: seq<Message>, tool: string, streak: nat, n: nat)
    requires DistinctCallIds(h) && TellsApart(hash, h) && n <= streak && NamesACall(TurnBatches(hash, h), tool, streak)
    ensures exists arguments, content :: Repeated(h, n, tool, arguments, content)
  {
    var arguments, content := LastNamed(hash, h, tool, streak);
    FewerLast(TurnBatches(hash, h), hash(tool, arguments, content), n, streak);
    InLastMeans(hash, h, n, tool, arguments, content);
  }

  /** With distinct call ids and a fingerprint that tells the calls apart: what `detect` reports, in terms of
      the calls made and their own results. The tool named is that of a call repeated so. */
  lemma {:induction false} SignalMeans(hash: Fingerprint, h: seq<Message>, guard: LoopGuard, signal: LoopSignal)
    requires DistinctCallIds(h) && TellsApart(hash, h) && Guards(guard, TurnBatches(hash, h), signal)
    ensures var breakAt := if guard.breakAt < 2 then 2 else guard.breakAt;
            var warnAt := if guard.warnAt < 2 then 2 else guard.warnAt;
            && (signal.Break? <==>
                  guard.breakAt > 0 &&
                  exists tool, arguments, content :: Repeated(h, breakAt, tool, arguments, content))
            && (signal.Warn? <==>
                  guard.breakAt > 0 && guard.warnAt > 0 && !signal.Break? &&
                  exists tool, arguments, content :: Repeated(h, warnAt, tool, arguments, content))
            && (signal.Break? ==>
                  exists arguments, content :: Repeated(h, breakAt, signal.tool, arguments, content))
            && (signal.Warn? ==>
                  exists arguments, content :: Repeated(h, signal.streak, signal.tool, arguments, content))
  {
    RepeatedIff(hash, h, if guard.breakAt < 2 then 2 else guard.breakAt);
    RepeatedIff(hash, h, if guard.warnAt < 2 then 2 else guard.warnAt);
    if signal.Break? {
      var streak :| streak >= signal.streak && NamesACall(TurnBatches(hash, h), signal.tool, streak);
      NamedCall(hash, h, signal.tool, streak, signal.streak);
    } else if signal.Warn? {
      NamedCall(hash, h, signal.tool, signal.streak, signal.streak);
    }
  }
}
