/** The loop sentinel (crates/kernel/src/agent/loop_detect.rs:40-181). The fingerprint of a call, a
    hash of its name, arguments and result content, is a parameter. */
module LoopDetect {
  import opened Messages
  import opened Sequences

  type Fingerprint = (string, string, seq<string>) -> nat

  datatype LoopGuard = LoopGuard(warnAt: nat, breakAt: nat)

  datatype LoopSignal = Quiet | Warn(tool: string, streak: nat) | Break(tool: string, streak: nat)

  datatype CallPrint = CallPrint(tool: string, mark: nat)

  type Batch = seq<CallPrint>

  /** Thresholds of 1 are taken for 2; 0 switches the guard, or its warnings, off. */
  function BreakAt(guard: LoopGuard): nat { Max(guard.breakAt, 2) }

  function WarnAt(guard: LoopGuard): nat { if guard.warnAt == 0 then 0 else Max(guard.warnAt, 2) }

  // ---------- the batches of the current turn ----------

  /** A user message that starts a turn, as opposed to one injected while a turn runs. */
  predicate StartsTurn(m: Message) {
    m.role == User && !(TURN_INTERNAL_META_KEY in m.metadata && m.metadata[TURN_INTERNAL_META_KEY] == "true")
  }

  /** The content of the last result for id in h[i..]. */
  function LastResult(h: seq<Message>, id: string, i: nat): Option<seq<string>>
    requires i <= |h|
    decreases |h| - i
  {
    if i == |h| then None
    else if LastResult(h, id, i + 1).Some? then LastResult(h, id, i + 1)
    else if ResultFor(h[i], id) then Some(h[i].content)
    else None
  }

  /** The prints of the calls that have a result in h[i..]; the others do not take part. */
  function Prints(hash: Fingerprint, h: seq<Message>, i: nat, calls: seq<ToolCall>): Batch
    requires i <= |h|
  {
    if calls == [] then []
    else
      var call, rest := calls[0], Prints(hash, h, i, calls[1..]);
      match LastResult(h, call.id, i)
      case Some(content) => [CallPrint(call.name, hash(call.name, call.arguments, content))] + rest
      case None => rest
  }

  /** Where the current turn starts. */
  function TurnStart(h: seq<Message>): (i: nat)
    ensures i <= |h| && (i > 0 ==> StartsTurn(h[i - 1])) && forall k :: i <= k < |h| ==> !StartsTurn(h[k])
  {
    if h == [] then 0 else if StartsTurn(h[|h| - 1]) then |h| else TurnStart(h[..|h| - 1])
  }

  function BatchesFrom(hash: Fingerprint, h: seq<Message>, i: nat): seq<Batch>
    requires i <= |h|
    decreases |h| - i
  {
    if i == |h| then []
    else if Calls(h[i]) != [] then [Prints(hash, h, i + 1, Calls(h[i]))] + BatchesFrom(hash, h, i + 1)
    else BatchesFrom(hash, h, i + 1)
  }

  /** The tool batches since the last message that started a turn. */
  function TurnBatches(hash: Fingerprint, h: seq<Message>): seq<Batch> {
    BatchesFrom(hash, h, TurnStart(h))
  }

  // ---------- the verdict, looking back over the whole turn ----------

  predicate Holds(batch: Batch, mark: nat) {
    exists k :: 0 <= k < |batch| && batch[k].mark == mark
  }

  /** How many of the last batches in a row hold the print. */
  function Streak(batches: seq<Batch>, mark: nat): nat {
    if batches == [] || !Holds(batches[|batches| - 1], mark) then 0 else 1 + Streak(batches[..|batches| - 1], mark)
  }

  function Hit(tool: string, streak: nat, breakAt: nat, warnAt: nat): LoopSignal {
    if streak >= breakAt then Break(tool, streak)
    else if warnAt > 0 && streak >= warnAt then Warn(tool, streak)
    else Quiet
  }

  predicate TextLess(a: string, b: string) {
    b != [] && (a == [] || a[0] < b[0] || (a[0] == b[0] && TextLess(a[1..], b[1..])))
  }

  /** The order of signals: by level, then tool, then streak. */
  predicate Less(a: LoopSignal, b: LoopSignal) {
    match (a, b)
    case (Quiet, Warn(_, _)) | (Quiet, Break(_, _)) | (Warn(_, _), Break(_, _)) => true
    case (Warn(t, n), Warn(t', n')) => TextLess(t, t') || (t == t' && n < n')
    case (Break(t, n), Break(t', n')) => TextLess(t, t') || (t == t' && n < n')
    case _ => false
  }

  function Worse(a: LoopSignal, b: LoopSignal): LoopSignal {
    if Less(a, b) then b else a
  }

  function Worst(before: seq<Batch>, current: Batch, breakAt: nat, warnAt: nat): LoopSignal {
    if current == [] then Quiet
    else
      var call := current[|current| - 1];
      Worse(Worst(before, current[..|current| - 1], breakAt, warnAt),
            Hit(call.tool, 1 + Streak(before, call.mark), breakAt, warnAt))
  }

  function Verdict(batches: seq<Batch>, breakAt: nat, warnAt: nat): LoopSignal {
    if batches == [] then Quiet
    else Worst(batches[..|batches| - 1], batches[|batches| - 1], breakAt, warnAt)
  }

  function Capped(signal: LoopSignal, cap: nat): LoopSignal {
    match signal
    case Quiet => Quiet
    case Warn(tool, streak) => Warn(tool, Min(streak, cap))
    case Break(tool, streak) => Break(tool, Min(streak, cap))
  }

  function Suffix(batches: seq<Batch>, depth: nat): seq<Batch> {
    if |batches| <= depth then batches else batches[|batches| - depth..]
  }

  // ---------- what the verdict means ----------

  /** The print is in each of the last n batches. */
  ghost predicate InLast(batches: seq<Batch>, mark: nat, n: nat) {
    n <= |batches| && forall k :: |batches| - n <= k < |batches| ==> Holds(batches[k], mark)
  }

  lemma {:induction false} RunMeans(batches: seq<Batch>, mark: nat, n: nat)
    ensures Streak(batches, mark) >= n <==> InLast(batches, mark, n)
  {
    if n > 0 && batches != [] && Holds(batches[|batches| - 1], mark) {
      var front := batches[..|batches| - 1];
      RunMeans(front, mark, n - 1);
      assert forall k :: 0 <= k < |front| ==> front[k] == batches[k];
    }
  }

  lemma {:induction false} WorstLevel(before: seq<Batch>, current: Batch, breakAt: nat, warnAt: nat)
    ensures var worst := Worst(before, current, breakAt, warnAt);
            && (worst.Break? <==> exists k :: 0 <= k < |current| && 1 + Streak(before, current[k].mark) >= breakAt)
            && (worst == Quiet <==>
              forall k :: 0 <= k < |current| ==>
              Hit(current[k].tool, 1 + Streak(before, current[k].mark), breakAt, warnAt) == Quiet)
  {
    if current != [] {
      var front := current[..|current| - 1];
      WorstLevel(before, front, breakAt, warnAt);
      assert forall k :: 0 <= k < |current| - 1 ==> front[k] == current[k];
    }
  }

  lemma {:induction false} WorstNamesACall(before: seq<Batch>, current: Batch, breakAt: nat, warnAt: nat)
    ensures var worst := Worst(before, current, breakAt, warnAt);
            worst != Quiet ==>
              exists k ::
                && 0 <= k < |current|
                && worst == Hit(current[k].tool, 1 + Streak(before, current[k].mark), breakAt, warnAt)
  {
    if current != [] {
      var front := current[..|current| - 1];
      WorstNamesACall(before, front, breakAt, warnAt);
      assert forall k :: 0 <= k < |current| - 1 ==> front[k] == current[k];
      var call := current[|current| - 1];
      if Worst(before, current, breakAt, warnAt) == Hit(call.tool, 1 + Streak(before, call.mark), breakAt, warnAt) {
        assert call == current[|current| - 1];
      }
    }
  }

  lemma {:induction false} TextOrder(a: string, b: string, c: string)
    ensures !TextLess(a, a)
    ensures TextLess(a, b) && TextLess(b, c) ==> TextLess(a, c)
    ensures TextLess(a, b) || a == b || TextLess(b, a)
  {
    if a != [] { TextOrder(a[1..], if b == [] then [] else b[1..], if c == [] then [] else c[1..]); }
    if a != [] && b != [] && a[0] == b[0] { assert a == [a[0]] + a[1..] && b == [b[0]] + b[1..]; }
  }

  lemma {:induction false} LessOrder(a: LoopSignal, b: LoopSignal, c: LoopSignal)
    ensures !Less(a, a)
    ensures Less(a, b) && Less(b, c) ==> Less(a, c)
    ensures Less(a, b) || a == b || Less(b, a)
  {
    if a != Quiet {
      TextOrder(a.tool, if b == Quiet then a.tool else b.tool, if c == Quiet then a.tool else c.tool);
    }
  }

  /** No call of the last batch deserves more than what is reported. */
  lemma {:induction false} WorstIsGreatest(before: seq<Batch>, current: Batch, k: nat, breakAt: nat, warnAt: nat)
    requires k < |current|
    ensures !Less(Worst(before, current, breakAt, warnAt),
              Hit(current[k].tool, 1 + Streak(before, current[k].mark), breakAt, warnAt))
  {
    var front, call := current[..|current| - 1], current[|current| - 1];
    var rest, last := Worst(before, front, breakAt, warnAt),
      Hit(call.tool, 1 + Streak(before, call.mark), breakAt, warnAt);
    var own := Hit(current[k].tool, 1 + Streak(before, current[k].mark), breakAt, warnAt);
    LessOrder(last, rest, own);
    if k < |front| {
      WorstIsGreatest(before, front, k, breakAt, warnAt);
      LessOrder(rest, last, own);
      LessOrder(own, rest, last);
    }
  }

  /** The guard breaks exactly when a call of the last batch is in each of the last breakAt batches. */
  lemma {:induction false} BreaksWhenRepeated(batches: seq<Batch>, breakAt: nat, warnAt: nat)
    requires breakAt >= 2
    ensures Verdict(batches, breakAt, warnAt).Break? <==> exists mark :: InLast(batches, mark, breakAt)
  {
    if batches != [] {
      var before, current := batches[..|batches| - 1], batches[|batches| - 1];
      WorstLevel(before, current, breakAt, warnAt);
      forall mark
        ensures InLast(batches, mark, breakAt) <==> Holds(current, mark) && Streak(before, mark) >= breakAt - 1
      {
        RunMeans(batches, mark, breakAt);
      }
      if mark :| InLast(batches, mark, breakAt) {
        var k :| 0 <= k < |current| && current[k].mark == mark;
        assert 1 + Streak(before, current[k].mark) >= breakAt;
      }
      if k :| 0 <= k < |current| && 1 + Streak(before, current[k].mark) >= breakAt {
        assert InLast(batches, current[k].mark, breakAt);
      }
    }
  }

  /** The print is in each of the last n batches, and not in the one before. */
  ghost predicate Longest(batches: seq<Batch>, mark: nat, n: nat) {
    InLast(batches, mark, n) && !InLast(batches, mark, n + 1)
  }

  /** The signal names a call of the last batch, and how many of the last batches in a row hold its print. */
  ghost predicate NamesACall(batches: seq<Batch>, tool: string, streak: nat) {
    batches != [] &&
    var last := batches[|batches| - 1];
    exists k :: 0 <= k < |last| && last[k].tool == tool && Longest(batches, last[k].mark, streak)
  }

  lemma {:induction false} LastStreak(batches: seq<Batch>, k: nat)
    requires batches != [] && k < |batches[|batches| - 1]|
    ensures var mark := batches[|batches| - 1][k].mark;
            var streak := 1 + Streak(batches[..|batches| - 1], mark);
            && Longest(batches, mark, streak)
            && forall n :: streak >= n <==> InLast(batches, mark, n)
  {
    var mark := batches[|batches| - 1][k].mark;
    assert Holds(batches[|batches| - 1], mark);
    forall n: nat ensures Streak(batches, mark) >= n <==> InLast(batches, mark, n) { RunMeans(batches, mark, n); }
  }

  /** A warning is given exactly when it is on, the guard does not break, and a call of the last batch is in
      each of the last warnAt batches. */
  lemma {:induction false} WarnsWhenRepeated(batches: seq<Batch>, breakAt: nat, warnAt: nat)
    requires breakAt >= 2 && (warnAt == 0 || warnAt >= 2)
    ensures var verdict := Verdict(batches, breakAt, warnAt);
            verdict.Warn? <==> warnAt > 0 && !verdict.Break? && exists mark :: InLast(batches, mark, warnAt)
  {
    if batches != [] {
      var before, current := batches[..|batches| - 1], batches[|batches| - 1];
      WorstLevel(before, current, breakAt, warnAt);
      if mark :| warnAt > 0 && InLast(batches, mark, warnAt) {
        assert Holds(current, mark);
        var k :| 0 <= k < |current| && current[k].mark == mark;
        LastStreak(batches, k);
      }
      if k :| 0 <= k < |current| && warnAt > 0 && 1 + Streak(before, current[k].mark) >= warnAt {
        LastStreak(batches, k);
        assert InLast(batches, current[k].mark, warnAt);
      }
    }
  }

  lemma {:induction false} VerdictNames(batches: seq<Batch>, breakAt: nat, warnAt: nat)
    ensures var verdict := Verdict(batches, breakAt, warnAt);
            verdict != Quiet ==> NamesACall(batches, verdict.tool, verdict.streak)
  {
    if Verdict(batches, breakAt, warnAt) != Quiet {
      var before, current := batches[..|batches| - 1], batches[|batches| - 1];
      WorstNamesACall(before, current, breakAt, warnAt);
      var k :| 0 <= k < |current| &&
        Worst(before, current, breakAt, warnAt) ==
          Hit(current[k].tool, 1 + Streak(before, current[k].mark), breakAt, warnAt);
      LastStreak(batches, k);
    }
  }

  /** They first differ at k, where a has the smaller character. */
  predicate SmallerAt(a: string, b: string, k: nat) {
    k < |a| && k < |b| && (forall j :: 0 <= j < k ==> a[j] == b[j]) && a[k] < b[k]
  }

  /** One text is the beginning of the other, or has the smaller character where they first differ. */
  ghost predicate ComesBefore(a: string, b: string) {
    a < b || exists k: nat :: SmallerAt(a, b, k)
  }

  lemma {:induction false} TextLessIs(a: string, b: string)
    ensures TextLess(a, b) <==> ComesBefore(a, b)
  {
    if a != [] && b != [] {
      assert a[0] < b[0] ==> SmallerAt(a, b, 0);
      if a[0] == b[0] {
        TextLessIs(a[1..], b[1..]);
        assert a == [a[0]] + a[1..] && b == [a[0]] + b[1..];
        if k: nat :| SmallerAt(a[1..], b[1..], k) { assert SmallerAt(a, b, k + 1); }
        if k: nat :| SmallerAt(a, b, k) { assert SmallerAt(a[1..], b[1..], k - 1); }
      }
    }
  }

  /** Of the calls that deserve the same level, the one whose tool comes last is named, with its longest streak. */
  lemma {:induction false} GreatestNamed(batches: seq<Batch>, breakAt: nat, warnAt: nat, k: nat, streak: nat)
    requires batches != [] && k < |batches[|batches| - 1]|
    requires Longest(batches, batches[|batches| - 1][k].mark, streak)
    ensures var verdict, tool := Verdict(batches, breakAt, warnAt), batches[|batches| - 1][k].tool;
            verdict != Quiet && (verdict.Break? ==> streak >= breakAt) && (verdict.Warn? ==> streak >= warnAt) ==>
              !ComesBefore(verdict.tool, tool) && (tool == verdict.tool ==> streak <= verdict.streak)
  {
    var before, current := batches[..|batches| - 1], batches[|batches| - 1];
    LastStreak(batches, k);
    OneLongest(batches, current[k].mark, streak, 1 + Streak(before, current[k].mark));
    WorstIsGreatest(before, current, k, breakAt, warnAt);
    VerdictBounds(batches, breakAt, warnAt);
    if Verdict(batches, breakAt, warnAt) != Quiet {
      TextLessIs(Verdict(batches, breakAt, warnAt).tool, current[k].tool);
    }
  }

  lemma {:induction false} OneLongest(batches: seq<Batch>, mark: nat, m: nat, n: nat)
    requires Longest(batches, mark, m) && Longest(batches, mark, n)
    ensures m == n
  {
  }

  // ---------- a bounded look back is enough ----------

  lemma {:induction false} RunCapped(batches: seq<Batch>, mark: nat, depth: nat)
    ensures Streak(Suffix(batches, depth), mark) == Min(Streak(batches, mark), depth)
  {
    if depth > 0 && batches != [] && Holds(batches[|batches| - 1], mark) {
      RunCapped(batches[..|batches| - 1], mark, depth - 1);
      SuffixFront(batches, depth);
    }
  }

  lemma {:induction false} SuffixFront(batches: seq<Batch>, depth: nat)
    requires depth > 0 && batches != []
    ensures var s := Suffix(batches, depth);
            s != [] && s[..|s| - 1] == Suffix(batches[..|batches| - 1], depth - 1) &&
              s[|s| - 1] == batches[|batches| - 1]
  {
  }

  lemma {:induction false} HitCapped(tool: string, streak: nat, breakAt: nat, warnAt: nat)
    ensures Hit(tool, Min(streak, breakAt), breakAt, warnAt) == Capped(Hit(tool, streak, breakAt, warnAt), breakAt)
  {
  }

  lemma {:induction false} WorseCapped(a: LoopSignal, b: LoopSignal, cap: nat)
    ensures Worse(Capped(a, cap), Capped(b, cap)) == Capped(Worse(a, b), cap)
  {
  }

  lemma {:induction false} CallCapped(before: seq<Batch>, call: CallPrint, breakAt: nat, warnAt: nat)
    requires breakAt > 0
    ensures Hit(call.tool, 1 + Streak(Suffix(before, breakAt - 1), call.mark), breakAt, warnAt)
         == Capped(Hit(call.tool, 1 + Streak(before, call.mark), breakAt, warnAt), breakAt)
  {
    RunCapped(before, call.mark, breakAt - 1);
    HitCapped(call.tool, 1 + Streak(before, call.mark), breakAt, warnAt);
  }

  lemma {:induction false} WorstCapped(before: seq<Batch>, current: Batch, breakAt: nat, warnAt: nat)
    requires breakAt > 0
    ensures Worst(Suffix(before, breakAt - 1), current, breakAt, warnAt) ==
              Capped(Worst(before, current, breakAt, warnAt), breakAt)
  {
    if current != [] {
      WorstCapped(before, current[..|current| - 1], breakAt, warnAt);
      WorstCappedStep(before, current, breakAt, warnAt);
    }
  }

  lemma {:induction false} WorstCappedStep(before: seq<Batch>, current: Batch, breakAt: nat, warnAt: nat)
    requires breakAt > 0 && current != []
    requires var front := current[..|current| - 1];
             Worst(Suffix(before, breakAt - 1), front, breakAt, warnAt)
               == Capped(Worst(before, front, breakAt, warnAt), breakAt)
    ensures Worst(Suffix(before, breakAt - 1), current, breakAt, warnAt)
         == Capped(Worst(before, current, breakAt, warnAt), breakAt)
  {
    var call, front := current[|current| - 1], current[..|current| - 1];
    CallCapped(before, call, breakAt, warnAt);
    WorseCapped(Worst(before, front, breakAt, warnAt),
                Hit(call.tool, 1 + Streak(before, call.mark), breakAt, warnAt), breakAt);
  }

  /** Looking back over breakAt batches gives the level and the tool that looking back over the whole
      turn would give, and the streak capped at breakAt. */
  lemma {:induction false} DepthSuffices(batches: seq<Batch>, breakAt: nat, warnAt: nat)
    requires breakAt > 0
    ensures Verdict(Suffix(batches, breakAt), breakAt, warnAt) == Capped(Verdict(batches, breakAt, warnAt), breakAt)
  {
    if batches != [] {
      SuffixFront(batches, breakAt);
      WorstCapped(batches[..|batches| - 1], batches[|batches| - 1], breakAt, warnAt);
    }
  }

  // ---------- what the verdict depends on ----------

  lemma {:induction false} LastResultShift(g: seq<Message>, h: seq<Message>, id: string, i: nat)
    requires i <= |h|
    ensures LastResult(g + h, id, |g| + i) == LastResult(h, id, i)
    decreases |h| - i
  {
    if i < |h| { LastResultShift(g, h, id, i + 1); }
  }

  lemma {:induction false} PrintsShift(hash: Fingerprint, g: seq<Message>, h: seq<Message>, i: nat,
                                       calls: seq<ToolCall>)
    requires i <= |h|
    ensures Prints(hash, g + h, |g| + i, calls) == Prints(hash, h, i, calls)
  {
    if calls != [] {
      PrintsShift(hash, g, h, i, calls[1..]);
      LastResultShift(g, h, calls[0].id, i);
    }
  }

  lemma {:induction false} BatchesShift(hash: Fingerprint, g: seq<Message>, h: seq<Message>, i: nat)
    requires i <= |h|
    ensures BatchesFrom(hash, g + h, |g| + i) == BatchesFrom(hash, h, i)
    decreases |h| - i
  {
    if i < |h| {
      BatchesShift(hash, g, h, i + 1);
      PrintsShift(hash, g, h, i + 1, Calls(h[i]));
    }
  }

  lemma {:induction false} TurnStartAt(h: seq<Message>, i: nat)
    requires i < |h| && StartsTurn(h[i]) && forall k :: i < k < |h| ==> !StartsTurn(h[k])
    ensures TurnStart(h) == i + 1
  {
  }

  /** Nothing before the message that started the turn matters. */
  lemma {:induction false} EarlierTurnsForgotten(hash: Fingerprint, g: seq<Message>, start: Message, h: seq<Message>)
    requires StartsTurn(start)
    ensures TurnBatches(hash, g + [start] + h) == TurnBatches(hash, [start] + h)
  {
    Regrouped(g, [start], h);
    assert ([start] + h)[0] == start;
    TurnShift(hash, g, [start] + h);
  }

  lemma {:induction false} TurnShift(hash: Fingerprint, g: seq<Message>, t: seq<Message>)
    requires t != [] && StartsTurn(t[0])
    ensures TurnBatches(hash, g + t) == TurnBatches(hash, t)
  {
    TurnStartShift(g, t);
    BatchesShift(hash, g, t, TurnStart(t));
  }

  lemma {:induction false} TurnStartShift(g: seq<Message>, t: seq<Message>)
    requires TurnStart(t) > 0
    ensures TurnStart(g + t) == |g| + TurnStart(t)
  {
    TurnStartAt(g + t, |g| + TurnStart(t) - 1);
  }

  /** Messages that take no part in the scan: injected user messages, system and Internal messages,
      replies without calls. */
  predicate Transparent(m: Message) {
    m.role != Tool && Calls(m) == [] && !StartsTurn(m)
  }

  lemma {:induction false} LastResultAround(a: seq<Message>, m: Message, b: seq<Message>, id: string, i: nat)
    requires i <= |a| && m.role != Tool
    ensures LastResult(a + [m] + b, id, i) == LastResult(a + b, id, i)
    decreases |a| - i
  {
    var with, without := a + [m] + b, a + b;
    if i < |a| {
      LastResultAround(a, m, b, id, i + 1);
      assert with[i] == a[i] && without[i] == a[i];
    } else {
      LastResultShift(a + [m], b, id, 0);
      LastResultShift(a, b, id, 0);
      assert with[|a|] == m;
    }
  }

  lemma {:induction false} PrintsAround(hash: Fingerprint, a: seq<Message>, m: Message, b: seq<Message>, i: nat,
                                        calls: seq<ToolCall>)
    requires i <= |a| && m.role != Tool
    ensures Prints(hash, a + [m] + b, i, calls) == Prints(hash, a + b, i, calls)
  {
    if calls != [] {
      PrintsAround(hash, a, m, b, i, calls[1..]);
      LastResultAround(a, m, b, calls[0].id, i);
    }
  }

  lemma {:induction false} BatchesAround(hash: Fingerprint, a: seq<Message>, m: Message, b: seq<Message>, i: nat)
    requires i <= |a| && Transparent(m)
    ensures BatchesFrom(hash, a + [m] + b, i) == BatchesFrom(hash, a + b, i)
    decreases |a| - i
  {
    var with, without := a + [m] + b, a + b;
    if i < |a| {
      BatchesAround(hash, a, m, b, i + 1);
      PrintsAround(hash, a, m, b, i + 1, Calls(a[i]));
      assert with[i] == a[i] && without[i] == a[i];
    } else {
      BatchesShift(hash, a + [m], b, 0);
      BatchesShift(hash, a, b, 0);
      assert with[|a|] == m;
    }
  }

  lemma {:induction false} TurnStartAround(a: seq<Message>, m: Message, b: seq<Message>)
    requires !StartsTurn(m)
    ensures if TurnStart(a + b) <= |a| then TurnStart(a + [m] + b) == TurnStart(a + b)
            else TurnStart(a + [m] + b) == TurnStart(a + b) + 1
  {
    var with, without, start := a + [m] + b, a + b, TurnStart(a + b);
    var start' := if start <= |a| then start else start + 1;
    assert forall k :: 0 <= k < |a| ==> with[k] == without[k];
    assert forall k :: |a| < k < |with| ==> with[k] == without[k - 1];
    if start' > 0 {
      TurnStartAt(with, start' - 1);
    }
  }

  /** An injected message changes nothing, wherever it stands. */
  lemma {:induction false} InjectedMessagesIgnored(hash: Fingerprint, a: seq<Message>, m: Message, b: seq<Message>)
    requires Transparent(m)
    ensures TurnBatches(hash, a + [m] + b) == TurnBatches(hash, a + b)
  {
    TurnStartAround(a, m, b);
    if TurnStart(a + b) <= |a| { InjectedInTurn(hash, a, m, b); } else { InjectedBefore(hash, a, m, b); }
  }

  lemma {:induction false} InjectedInTurn(hash: Fingerprint, a: seq<Message>, m: Message, b: seq<Message>)
    requires Transparent(m) && TurnStart(a + b) <= |a|
    ensures TurnBatches(hash, a + [m] + b) == TurnBatches(hash, a + b)
  {
    TurnStartAround(a, m, b);
    BatchesAround(hash, a, m, b, TurnStart(a + b));
  }

  lemma {:induction false} InjectedBefore(hash: Fingerprint, a: seq<Message>, m: Message, b: seq<Message>)
    requires Transparent(m) && TurnStart(a + b) > |a|
    ensures TurnBatches(hash, a + [m] + b) == TurnBatches(hash, a + b)
  {
    var start := TurnStart(a + b);
    TurnStartAround(a, m, b);
    BatchesAfter(hash, a, m, b, start);
    SameBatches(hash, a + [m] + b, a + b, start + 1, start);
  }

  lemma {:induction false} SameBatches(hash: Fingerprint, g: seq<Message>, h: seq<Message>, i: nat, j: nat)
    requires TurnStart(g) == i && TurnStart(h) == j && BatchesFrom(hash, g, i) == BatchesFrom(hash, h, j)
    ensures TurnBatches(hash, g) == TurnBatches(hash, h)
  {
  }

  lemma {:induction false} BatchesAfter(hash: Fingerprint, a: seq<Message>, m: Message, b: seq<Message>, i: nat)
    requires |a| <= i <= |a| + |b|
    ensures BatchesFrom(hash, a + [m] + b, i + 1) == BatchesFrom(hash, a + b, i)
  {
    BatchesShift(hash, a + [m], b, i - |a|);
    BatchesShift(hash, a, b, i - |a|);
  }

  // ---------- over a whole turn ----------

  /** At time t every call made so far has its last result: no result for it comes later. */
  ghost predicate Settled(h: seq<Message>, t: nat) {
    t <= |h| && forall i, q, k :: 0 <= i < t <= k < |h| && 0 <= q < |Calls(h[i])| ==>
      !ResultFor(h[k], Calls(h[i])[q].id)
  }

  lemma {:induction false} LastResultEarly(h: seq<Message>, t: nat, id: string, i: nat)
    requires i <= t <= |h| && forall k :: t <= k < |h| ==> !ResultFor(h[k], id)
    ensures LastResult(h[..t], id, i) == LastResult(h, id, i)
    decreases |h| - i
  {
    if i < t {
      LastResultEarly(h, t, id, i + 1);
    } else if i < |h| {
      NoLateResult(h, id, i);
    }
  }

  lemma {:induction false} NoLateResult(h: seq<Message>, id: string, i: nat)
    requires i <= |h| && forall k :: i <= k < |h| ==> !ResultFor(h[k], id)
    ensures LastResult(h, id, i).None?
    decreases |h| - i
  {
    if i < |h| { NoLateResult(h, id, i + 1); }
  }

  lemma {:induction false} PrintsEarly(hash: Fingerprint, h: seq<Message>, t: nat, i: nat, calls: seq<ToolCall>)
    requires i <= t <= |h| && forall q, k :: t <= k < |h| && 0 <= q < |calls| ==> !ResultFor(h[k], calls[q].id)
    ensures Prints(hash, h[..t], i, calls) == Prints(hash, h, i, calls)
  {
    if calls != [] {
      PrintsEarly(hash, h, t, i, calls[1..]);
      LastResultEarly(h, t, calls[0].id, i);
    }
  }

  /** What the sentinel saw of a turn when its first batches had settled. */
  lemma {:induction false} BatchesEarly(hash: Fingerprint, h: seq<Message>, t: nat, i: nat)
    requires i <= t <= |h| && Settled(h, t)
    ensures BatchesFrom(hash, h[..t], i) + BatchesFrom(hash, h, t) == BatchesFrom(hash, h, i)
    decreases t - i
  {
    if i == t {
      assert [] + BatchesFrom(hash, h, t) == BatchesFrom(hash, h, t);
    } else {
      BatchesEarly(hash, h, t, i + 1);
      PrintsEarly(hash, h, t, i + 1, Calls(h[i]));
      if Calls(h[i]) != [] {
        Regrouped([Prints(hash, h, i + 1, Calls(h[i]))], BatchesFrom(hash, h[..t], i + 1), BatchesFrom(hash, h, t));
      }
    }
  }

  lemma {:induction false} TurnStartEarly(h: seq<Message>, t: nat)
    requires TurnStart(h) <= t <= |h|
    ensures TurnStart(h[..t]) == TurnStart(h)
    decreases |h|
  {
    if t < |h| {
      assert h[..|h| - 1][..t] == h[..t];
      TurnStartEarly(h[..|h| - 1], t);
    } else {
      assert h[..t] == h;
    }
  }

  /** times[n]: a moment when the turn's first n + 1 batches have settled. */
  ghost predicate Watched(hash: Fingerprint, h: seq<Message>, times: seq<nat>) {
    && |times| == |TurnBatches(hash, h)|
    && forall n :: 0 <= n < |times| ==>
         TurnStart(h) <= times[n] && Settled(h, times[n]) && |BatchesFrom(hash, h, times[n])| == |times| - (n + 1)
  }

  lemma {:induction false} SeenAt(hash: Fingerprint, h: seq<Message>, times: seq<nat>, n: nat)
    requires Watched(hash, h, times) && n < |times|
    ensures TurnBatches(hash, h[..times[n]]) == TurnBatches(hash, h)[..n + 1]
  {
    BatchesEarly(hash, h, times[n], TurnStart(h));
    TurnStartEarly(h, times[n]);
  }

  /** When the sentinel is asked after every batch and its Break ends the turn, no call is repeated
      with the same result in more than max(2, break_at) batches in a row. */
  lemma {:induction false} NoRunawayLoop(hash: Fingerprint, h: seq<Message>, times: seq<nat>, guard: LoopGuard,
                                         mark: nat, lo: nat, hi: nat)
    requires guard.breakAt > 0 && Watched(hash, h, times)
    requires forall n :: 0 <= n < |times| - 1 ==>
               !Verdict(TurnBatches(hash, h[..times[n]]), BreakAt(guard), WarnAt(guard)).Break?
    requires lo <= hi <= |TurnBatches(hash, h)| && forall k :: lo <= k < hi ==> Holds(TurnBatches(hash, h)[k], mark)
    ensures hi - lo <= if guard.breakAt < 2 then 2 else guard.breakAt
  {
    if hi - lo > BreakAt(guard) {
      var n := lo + BreakAt(guard) - 1;
      SeenAt(hash, h, times, n);
      BreaksWhenRepeated(TurnBatches(hash, h[..times[n]]), BreakAt(guard), WarnAt(guard));
      assert InLast(TurnBatches(hash, h[..times[n]]), mark, BreakAt(guard));
      assert false;
    }
  }

  // ---------- the scan ----------

  function Reversed(s: seq<Batch>): (r: seq<Batch>)
    ensures |r| == |s| && forall k :: 0 <= k < |r| ==> r[k] == s[|s| - 1 - k]
  {
    seq(|s|, k requires 0 <= k < |s| => s[|s| - 1 - k])
  }

  /** The results seen when h[i..] has been scanned. */
  ghost predicate Gathered(h: seq<Message>, i: nat, results: map<string, seq<string>>) {
    i <= |h| && forall id :: (if id in results then Some(results[id]) else None) == LastResult(h, id, i)
  }

  lemma {:induction false} GatheredNext(h: seq<Message>, i: nat, results: map<string, seq<string>>)
    requires i < |h| && Gathered(h, i + 1, results)
    ensures var id := h[i].toolCallId;
            if h[i].role == Tool && id.Some? && id.value !in results
            then Gathered(h, i, results[id.value := h[i].content])
            else Gathered(h, i, results)
  {
    forall id ensures LastResult(h, id, i) ==
                      if LastResult(h, id, i + 1).Some? then LastResult(h, id, i + 1)
                      else if ResultFor(h[i], id) then Some(h[i].content) else None
    {
    }
  }

  /** The batches found so far, latest first, when h[i..] has been scanned. */
  ghost predicate BatchesFound(hash: Fingerprint, h: seq<Message>, i: nat, found: seq<Batch>) {
    TurnStart(h) <= i <= |h| && Reversed(found) == BatchesFrom(hash, h, i)
  }

  lemma {:induction false} ScannedNext(hash: Fingerprint, h: seq<Message>, i: nat, found: seq<Batch>)
    requires BatchesFound(hash, h, i + 1, found) && TurnStart(h) <= i
    ensures if Calls(h[i]) != [] then BatchesFound(hash, h, i, found + [Prints(hash, h, i + 1, Calls(h[i]))])
            else BatchesFound(hash, h, i, found)
  {
    var batch := Prints(hash, h, i + 1, Calls(h[i]));
    assert Reversed(found + [batch]) == [batch] + Reversed(found);
  }

  lemma {:induction false} BatchesSplit(hash: Fingerprint, h: seq<Message>, lo: nat, i: nat) returns (front: seq<Batch>)
    requires lo <= i <= |h|
    ensures BatchesFrom(hash, h, lo) == front + BatchesFrom(hash, h, i)
    decreases i - lo
  {
    if lo == i {
      front := [];
      assert [] + BatchesFrom(hash, h, i) == BatchesFrom(hash, h, i);
    } else {
      front := BatchesSplit(hash, h, lo + 1, i);
      if Calls(h[lo]) != [] {
        Tailed(Prints(hash, h, lo + 1, Calls(h[lo])), front, BatchesFrom(hash, h, i));
        front := [Prints(hash, h, lo + 1, Calls(h[lo]))] + front;
      }
    }
  }

  lemma {:induction false} FoundEnough(hash: Fingerprint, h: seq<Message>, i: nat, found: seq<Batch>, depth: nat)
    requires BatchesFound(hash, h, i, found) && (|found| == depth || (|found| <= depth && i == TurnStart(h)))
    ensures Reversed(found) == Suffix(TurnBatches(hash, h), depth)
  {
    var front := BatchesSplit(hash, h, TurnStart(h), i);
    assert (front + BatchesFrom(hash, h, i))[|front|..] == BatchesFrom(hash, h, i);
  }

  /** `recent_batches`: the last `depth` batches of the turn. */
  method RecentBatches(hash: Fingerprint, messages: seq<Message>, depth: nat) returns (batches: seq<Batch>)
    requires depth > 0
    ensures batches == Suffix(TurnBatches(hash, messages), depth)
  {
    var results: map<string, seq<string>> := map[];
    var found: seq<Batch> := [];
    var i: nat := |messages|;
    while i > 0
      invariant i <= |messages| && Gathered(messages, i, results)
      invariant BatchesFound(hash, messages, i, found) && |found| < depth
    {
      var msg := messages[i - 1];
      if StartsTurn(msg) {
        TurnStartAt(messages, i - 1);
        break;
      }
      GatheredNext(messages, i - 1, results);
      ScannedNext(hash, messages, i - 1, found);
      if msg.role == Tool {
        if msg.toolCallId.Some? && msg.toolCallId.value !in results {
          results := results[msg.toolCallId.value := msg.content];
        }
      } else if Calls(msg) != [] {
        var batch := CollectPrints(hash, messages, i, Calls(msg), results);
        found := found + [batch];
      }
      i := i - 1;
      if |found| == depth {
        break;
      }
    }
    FoundEnough(hash, messages, i, found, depth);
    batches := Reversed(found);
  }

  method CollectPrints(hash: Fingerprint, messages: seq<Message>, i: nat, calls: seq<ToolCall>,
                       results: map<string, seq<string>>)
    returns (batch: Batch)
    requires Gathered(messages, i, results)
    ensures batch == Prints(hash, messages, i, calls)
  {
    batch := [];
    for k := 0 to |calls|
      invariant batch + Prints(hash, messages, i, calls[k..]) == Prints(hash, messages, i, calls)
    {
      var call := calls[k];
      Headed(calls, k);
      assert (if call.id in results then Some(results[call.id]) else None) == LastResult(messages, call.id, i);
      if call.id in results {
        var own := [CallPrint(call.name, hash(call.name, call.arguments, results[call.id]))];
        Regrouped(batch, own, Prints(hash, messages, i, calls[k + 1..]));
        batch := batch + own;
      }
    }
  }

  /** What a guard makes of the batches of a turn. It breaks when a print is in each of the last breakAt
      batches and warns when one is in each of the last warnAt; a threshold of 1 is taken for 2, and with 0
      it is silent, or does not warn. */
  ghost predicate Guards(guard: LoopGuard, batches: seq<Batch>, signal: LoopSignal) {
    var breakAt := if guard.breakAt < 2 then 2 else guard.breakAt;
    var warnAt := if guard.warnAt < 2 then 2 else guard.warnAt;
    && (signal.Break? <==> guard.breakAt > 0 && exists mark :: InLast(batches, mark, breakAt))
    && (signal.Warn? <==>
          guard.breakAt > 0 && guard.warnAt > 0 && !signal.Break? && exists mark :: InLast(batches, mark, warnAt))
    && (signal.Break? ==> signal.streak == breakAt)
    && (signal.Warn? ==> NamesACall(batches, signal.tool, signal.streak) && warnAt <= signal.streak < breakAt)
    && (signal.Break? ==> exists streak :: streak >= breakAt && NamesACall(batches, signal.tool, streak))
  }

  lemma {:induction false} VerdictGuards(guard: LoopGuard, batches: seq<Batch>)
    requires guard.breakAt > 0
    ensures Guards(guard, batches, Capped(Verdict(batches, BreakAt(guard), WarnAt(guard)), BreakAt(guard)))
  {
    var breakAt, warnAt := BreakAt(guard), WarnAt(guard);
    BreaksWhenRepeated(batches, breakAt, warnAt);
    WarnsWhenRepeated(batches, breakAt, warnAt);
    VerdictNames(batches, breakAt, warnAt);
    VerdictBounds(batches, breakAt, warnAt);
  }

  lemma {:induction false} VerdictBounds(batches: seq<Batch>, breakAt: nat, warnAt: nat)
    ensures var verdict := Verdict(batches, breakAt, warnAt);
            && (verdict.Break? ==> verdict.streak >= breakAt)
            && (verdict.Warn? ==> 0 < warnAt <= verdict.streak < breakAt)
  {
    if Verdict(batches, breakAt, warnAt) != Quiet {
      WorstNamesACall(batches[..|batches| - 1], batches[|batches| - 1], breakAt, warnAt);
    }
  }

  /** `detect`: what the whole turn deserves, the streak capped at the threshold. */
  method Detect(hash: Fingerprint, messages: seq<Message>, guard: LoopGuard) returns (signal: LoopSignal)
    ensures Guards(guard, TurnBatches(hash, messages), signal)
    ensures signal == if guard.breakAt == 0 then Quiet
                      else Capped(Verdict(TurnBatches(hash, messages), BreakAt(guard), WarnAt(guard)), BreakAt(guard))
  {
    if guard.breakAt == 0 {
      return Quiet;
    }
    var breakAt, warnAt := BreakAt(guard), WarnAt(guard);
    var batches := RecentBatches(hash, messages, breakAt);
    DepthSuffices(TurnBatches(hash, messages), breakAt, warnAt);
    VerdictGuards(guard, TurnBatches(hash, messages));
    if batches == [] {
      return Quiet;
    }
    signal := WorstSignal(batches[..|batches| - 1], batches[|batches| - 1], breakAt, warnAt);
  }

  method WorstSignal(before: seq<Batch>, current: Batch, breakAt: nat, warnAt: nat) returns (signal: LoopSignal)
    ensures signal == Worst(before, current, breakAt, warnAt)
  {
    signal := Quiet;
    for k := 0 to |current|
      invariant signal == Worst(before, current[..k], breakAt, warnAt)
    {
      var call := current[k];
      var streak := 1 + Streak(before, call.mark);
      WorstNext(before, current, k, breakAt, warnAt);
      if streak >= breakAt || (warnAt > 0 && streak >= warnAt) {
        var hit := if streak >= breakAt then Break(call.tool, streak) else Warn(call.tool, streak);
        if Less(signal, hit) {
          signal := hit;
        }
      }
    }
    assert current[..|current|] == current;
  }

  lemma {:induction false} WorstNext(before: seq<Batch>, current: Batch, k: nat, breakAt: nat, warnAt: nat)
    requires k < |current|
    ensures Worst(before, current[..k + 1], breakAt, warnAt) ==
            Worse(Worst(before, current[..k], breakAt, warnAt),
                  Hit(current[k].tool, 1 + Streak(before, current[k].mark), breakAt, warnAt))
  {
    assert current[..k + 1][..k] == current[..k];
  }
}
