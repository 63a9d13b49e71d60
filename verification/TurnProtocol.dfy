/** What hooks and front ends may observe of an agent's turns
    (crates/kernel/src/agent/agent.rs:540-598, 661-690; crates/kernel/src/event/mod.rs:203-224). */
module TurnProtocol {
  import opened Messages

  datatype FinishReason = Stop | Repeat | ToolCalls | MaxTokens | PauseTurn | Refusal | ContentFilter | Unknown

  /** What was going on when a cancel was observed. */
  datatype Operation = StreamCreation | CollectingStream | StreamingRetry | CompactingHistory | ToolRun(name: string)

  datatype AgentError =
    | Aborted(operation: Operation)                                        // AgentError::Cancelled
    | Quit                                                                 // AgentError::Shutdown
    | Provider(message: string, overflow: bool, retryable: bool)
    | StreamTaskPanicked(message: string)
    | Other(message: string)
  {
    predicate IsContextOverflow() { Provider? && overflow }

    predicate IsRetryable() { StreamTaskPanicked? || (Provider? && retryable) }
  }

  /** Why streaming was given up. */
  datatype GaveUp = OverflowRecoveryFailed | OverflowPersisted | OutOfRetries | NotRetryable

  /** The texts of failures, told apart by what they say. */
  datatype Failure =
    | NoReasonRecorded
    | InconsistentCompletion
    | PauseTurnUnsupported
    | Plain(error: AgentError)
    | InContext(context: GaveUp, error: AgentError)

  datatype StopReason =
    | Completed(finish: Option<FinishReason>)
    | Cancelled(operation: Operation)
    | Shutdown
    | Failed(failure: Failure)
    | MaxIterations(reached: nat)
    | ToolLoop(tool: string, count: nat)

  /** The stop reasons told to the `turn_end` hook. */
  datatype Ending =
    AsCompleted | AsCancelled | AsShutdown | AsFailed | AsMaxIterations | AsToolLoop | AsRewound | AsUnknown

  /** A reason being noted, the two turn hooks, and the `Stopped` lifecycle event. */
  datatype Event =
    | Note(reason: StopReason)
    | TurnStart
    | TurnEnd(how: Ending)
    | Stopped(reason: StopReason)

  const INTERNAL: StopReason := Failed(NoReasonRecorded)

  /** The first note counts. */
  function Noted(pending: Option<StopReason>, reason: StopReason): Option<StopReason> {
    if pending.Some? then pending else Some(reason)
  }

  function Label(reason: Option<StopReason>): Ending {
    match reason
    case Some(Completed(_)) => AsCompleted
    case Some(Cancelled(_)) => AsCancelled
    case Some(Shutdown) => AsShutdown
    case Some(Failed(_)) => AsFailed
    case Some(MaxIterations(_)) => AsMaxIterations
    case Some(ToolLoop(_, _)) => AsToolLoop
    case None => AsUnknown
  }

  /** The reason a turn must be reported with once its end was announced, if any: a rewound turn
      is not reported, nor is one cut off by a shutdown error before any reason was noted. */
  function Owed(how: Ending, first: Option<StopReason>): Option<StopReason> {
    if how == AsRewound then None
    else if first.Some? then first
    else if how == AsShutdown then None
    else Some(INTERNAL)
  }

  // ---------- the protocol as an automaton ----------

  datatype Phase =
    | Between(pending: Option<StopReason>)
    | Open(first: Option<StopReason>)
    | Owing(reason: StopReason)
    | Broken

  function Next(p: Phase, e: Event): Phase {
    match (p, e)
    case (Between(pending), Note(r)) => Between(Noted(pending, r))
    case (Between(_), TurnStart) => Open(None)
    case (Between(pending), Stopped(r)) => if pending == Some(r) then Between(None) else Broken
    case (Open(first), Note(r)) => Open(Noted(first, r))
    case (Open(first), TurnEnd(how)) =>
      if how != AsRewound && how != AsShutdown && how != Label(first) then Broken
      else if Owed(how, first).Some? then Owing(Owed(how, first).value)
      else Between(None)
    case (Owing(owed), Stopped(r)) => if owed == r then Between(None) else Broken
    case _ => Broken
  }

  function Watch(t: seq<Event>): Phase {
    if t == [] then Between(None) else Next(Watch(t[..|t| - 1]), t[|t| - 1])
  }

  // ---------- what an accepted trace looks like ----------

  /** The turn that started at s is still open just before p. */
  ghost predicate OpenFrom(t: seq<Event>, s: nat, p: nat) {
    s < p <= |t| && t[s].TurnStart? && forall k :: s < k < p ==> t[k].Note?
  }

  ghost predicate InTurn(t: seq<Event>, p: nat) {
    exists s: nat :: OpenFrom(t, s, p)
  }

  /** The first reason noted in t[lo..hi]. */
  function FirstNote(t: seq<Event>, lo: nat, hi: nat): (first: Option<StopReason>)
    requires lo <= hi <= |t|
    ensures first.None? <==> forall k :: lo <= k < hi ==> !t[k].Note?
    ensures first.Some? ==>
              exists q :: lo <= q < hi && t[q] == Note(first.value) && forall k :: lo <= k < q ==> !t[k].Note?
    decreases hi - lo
  {
    if lo == hi then None else if t[lo].Note? then Some(t[lo].reason) else FirstNote(t, lo + 1, hi)
  }

  /** The turn that started at s has just ended, and must be reported with this reason. */
  ghost predicate Due(t: seq<Event>, s: nat, p: nat, reason: StopReason) {
    && 0 < p <= |t| && OpenFrom(t, s, p - 1) && t[p - 1].TurnEnd?
    && Owed(t[p - 1].how, FirstNote(t, s + 1, p - 1)) == Some(reason)
  }

  ghost predicate NothingDue(t: seq<Event>, p: nat) {
    forall s: nat, reason :: !Due(t, s, p, reason)
  }

  /** Nothing but notes since lo, outside any turn: lo is the beginning or follows a report, or the
      end of a turn that is not to be reported. */
  ghost predicate Fresh(t: seq<Event>, lo: nat, p: nat) {
    && lo <= p <= |t|
    && (lo > 0 ==> t[lo - 1].Stopped? || (t[lo - 1].TurnEnd? && NothingDue(t, lo)))
    && forall k :: lo <= k < p ==> t[k].Note?
  }

  /** What may be observed at p, told by what was observed before. */
  ghost predicate Lawful(t: seq<Event>, p: nat)
    requires p < |t|
  {
    match t[p]
    case Note(_) => NothingDue(t, p)
    case TurnStart => NothingDue(t, p) && !InTurn(t, p)
    case TurnEnd(how) =>
      exists s: nat :: OpenFrom(t, s, p) &&
        (how == AsRewound || how == AsShutdown || how == Label(FirstNote(t, s + 1, p)))
    case Stopped(reason) =>
      || (exists s: nat :: Due(t, s, p, reason))
      || (exists lo: nat :: Fresh(t, lo, p) && FirstNote(t, lo, p) == Some(reason))
  }

  /** The protocol: turns do not nest, their end is announced with the first reason noted since their
      start and reported at once. What is reported outside any turn is the first reason noted since the
      last report, once; it is not reported at all when a turn starts before that. */
  ghost predicate Protocol(t: seq<Event>) {
    forall p :: 0 <= p < |t| ==> Lawful(t, p)
  }

  // ---------- the automaton accepts exactly these traces ----------

  lemma {:induction false} WatchAppend(t: seq<Event>, e: Event)
    ensures Watch(t + [e]) == Next(Watch(t), e)
  {
    assert (t + [e])[..|t|] == t;
  }

  lemma {:induction false} WatchStep(t: seq<Event>, p: nat)
    requires p < |t|
    ensures Watch(t[..p + 1]) == Next(Watch(t[..p]), t[p])
  {
    assert t[..p + 1][..p] == t[..p];
  }

  lemma {:induction false} WatchPrefix(t: seq<Event>, p: nat)
    requires p <= |t| && Watch(t) != Broken
    ensures Watch(t[..p]) != Broken
    decreases |t| - p
  {
    assert t[..|t|] == t;
    if p < |t| {
      WatchPrefix(t, p + 1);
      WatchStep(t, p);
    }
  }

  /** What the automaton remembers, told by positions. */
  ghost predicate Remembers(t: seq<Event>, p: nat)
    requires p <= |t|
  {
    match Watch(t[..p])
    case Between(pending) => exists lo: nat :: Fresh(t, lo, p) && pending == FirstNote(t, lo, p)
    case Open(first) => exists s: nat :: OpenFrom(t, s, p) && first == FirstNote(t, s + 1, p)
    case Owing(reason) => exists s: nat :: Due(t, s, p, reason)
    case Broken => false
  }

  lemma {:induction false} NoteAppended(t: seq<Event>, lo: nat, p: nat)
    requires lo <= p < |t|
    ensures FirstNote(t, lo, p + 1) ==
            if FirstNote(t, lo, p).Some? then FirstNote(t, lo, p) else if t[p].Note? then Some(t[p].reason) else None
    decreases p - lo
  {
    if lo < p && !t[lo].Note? { NoteAppended(t, lo + 1, p); }
  }

  lemma {:induction false} OneStart(t: seq<Event>, s: nat, s': nat, p: nat)
    requires OpenFrom(t, s, p) && OpenFrom(t, s', p)
    ensures s == s'
  {
  }

  lemma {:induction false} OneDue(t: seq<Event>, s: nat, s': nat, p: nat, r: StopReason, r': StopReason)
    requires Due(t, s, p, r) && Due(t, s', p, r')
    ensures r == r'
  {
    OneStart(t, s, s', p - 1);
  }

  lemma {:induction false} OneFresh(t: seq<Event>, lo: nat, lo': nat, p: nat)
    requires Fresh(t, lo, p) && Fresh(t, lo', p)
    ensures lo == lo'
  {
  }

  lemma {:induction false} FreshApart(t: seq<Event>, lo: nat, p: nat)
    requires Fresh(t, lo, p)
    ensures NothingDue(t, p) && !InTurn(t, p)
  {
    forall s: nat ensures !OpenFrom(t, s, p) {
      if s < p && t[s].TurnStart? { assert s < lo; }
    }
  }

  lemma {:induction false} OpenApart(t: seq<Event>, s: nat, p: nat)
    requires OpenFrom(t, s, p)
    ensures NothingDue(t, p) && forall lo: nat :: !Fresh(t, lo, p)
  {
    forall lo: nat ensures !Fresh(t, lo, p) {
      if s < lo <= p { assert t[lo - 1].Note? || lo - 1 == s; }
    }
  }

  lemma {:induction false} DueApart(t: seq<Event>, s: nat, p: nat, r: StopReason)
    requires Due(t, s, p, r)
    ensures !InTurn(t, p) && !NothingDue(t, p) && forall lo: nat :: !Fresh(t, lo, p)
  {
    forall s': nat ensures !OpenFrom(t, s', p) {}
  }

  lemma {:induction false} EndNotDue(t: seq<Event>, s: nat, p: nat)
    requires p < |t| && OpenFrom(t, s, p) && t[p].TurnEnd? && Owed(t[p].how, FirstNote(t, s + 1, p)).None?
    ensures Fresh(t, p + 1, p + 1)
  {
    var after := p + 1;
    forall s': nat, r ensures !Due(t, s', after, r) {
      if OpenFrom(t, s', p) { OneStart(t, s, s', p); }
    }
  }

  /** At p the automaton goes on exactly when what is observed there is lawful, and remembers it. */
  ghost predicate Agrees(t: seq<Event>, p: nat)
    requires p < |t|
  {
    (Watch(t[..p + 1]) != Broken <==> Lawful(t, p)) && (Watch(t[..p + 1]) != Broken ==> Remembers(t, p + 1))
  }

  lemma {:induction false} AgreesBetween(t: seq<Event>, lo: nat, p: nat)
    requires p < |t| && Fresh(t, lo, p) && Watch(t[..p]) == Between(FirstNote(t, lo, p))
    ensures Agrees(t, p)
  {
    WatchStep(t, p);
    NoteAppended(t, lo, p);
    FreshApart(t, lo, p);
    match t[p]
    case Note(_) =>
      assert Fresh(t, lo, p + 1);
    case TurnStart =>
      assert OpenFrom(t, p, p + 1) && FirstNote(t, p + 1, p + 1) == None;
    case TurnEnd(_) =>
    case Stopped(r) =>
      forall lo': nat | Fresh(t, lo', p) ensures lo' == lo { OneFresh(t, lo, lo', p); }
      assert Fresh(t, p + 1, p + 1) && FirstNote(t, p + 1, p + 1) == None;
  }

  lemma {:induction false} AgreesOpen(t: seq<Event>, s: nat, p: nat)
    requires p < |t| && OpenFrom(t, s, p) && Watch(t[..p]) == Open(FirstNote(t, s + 1, p))
    ensures Agrees(t, p)
  {
    WatchStep(t, p);
    NoteAppended(t, s + 1, p);
    OpenApart(t, s, p);
    match t[p]
    case Note(_) =>
      assert OpenFrom(t, s, p + 1);
    case TurnStart =>
    case TurnEnd(how) =>
      forall s': nat | OpenFrom(t, s', p) ensures s' == s { OneStart(t, s, s', p); }
      var owed := Owed(how, FirstNote(t, s + 1, p));
      if owed.Some? {
        assert Due(t, s, p + 1, owed.value);
      } else {
        EndNotDue(t, s, p);
        assert FirstNote(t, p + 1, p + 1) == None;
      }
    case Stopped(_) =>
  }

  lemma {:induction false} AgreesOwing(t: seq<Event>, s: nat, p: nat, owed: StopReason)
    requires p < |t| && Due(t, s, p, owed) && Watch(t[..p]) == Owing(owed)
    ensures Agrees(t, p)
  {
    WatchStep(t, p);
    DueApart(t, s, p, owed);
    if t[p].Stopped? {
      forall s': nat ensures Due(t, s', p, t[p].reason) ==> t[p].reason == owed {
        if Due(t, s', p, t[p].reason) { OneDue(t, s, s', p, owed, t[p].reason); }
      }
      assert Fresh(t, p + 1, p + 1) && FirstNote(t, p + 1, p + 1) == None;
    }
  }

  lemma {:induction false} AgreesAt(t: seq<Event>, p: nat)
    requires p < |t| && Remembers(t, p)
    ensures Agrees(t, p)
  {
    match Watch(t[..p])
    case Between(pending) =>
      var lo: nat :| Fresh(t, lo, p) && pending == FirstNote(t, lo, p);
      AgreesBetween(t, lo, p);
    case Open(first) =>
      var s: nat :| OpenFrom(t, s, p) && first == FirstNote(t, s + 1, p);
      AgreesOpen(t, s, p);
    case Owing(owed) =>
      var s: nat :| Due(t, s, p, owed);
      AgreesOwing(t, s, p, owed);
  }

  lemma {:induction false} AcceptedUpTo(t: seq<Event>, p: nat)
    requires p <= |t|
    ensures Watch(t[..p]) != Broken <==> forall q :: 0 <= q < p ==> Lawful(t, q)
    ensures Watch(t[..p]) != Broken ==> Remembers(t, p)
  {
    if p == 0 {
      assert Fresh(t, 0, 0) && FirstNote(t, 0, 0) == None;
    } else {
      AcceptedUpTo(t, p - 1);
      WatchStep(t, p - 1);
      if Watch(t[..p - 1]) != Broken { AgreesAt(t, p - 1); }
    }
  }

  /** A trace is accepted if and only if it keeps the protocol. */
  lemma {:induction false} ProtocolExact(t: seq<Event>)
    ensures Watch(t) != Broken <==> Protocol(t)
  {
    AcceptedUpTo(t, |t|);
    assert t[..|t|] == t;
  }

  // ---------- what follows ----------

  /** Starts and ends of turns. */
  function Boundaries(t: seq<Event>): seq<Event> {
    if t == [] then []
    else if t[|t| - 1].TurnStart? || t[|t| - 1].TurnEnd? then Boundaries(t[..|t| - 1]) + [t[|t| - 1]]
    else Boundaries(t[..|t| - 1])
  }

  predicate Alternating(b: seq<Event>) {
    forall k :: 0 <= k < |b| ==> if k % 2 == 0 then b[k].TurnStart? else b[k].TurnEnd?
  }

  lemma {:induction false} AlternatingPhase(t: seq<Event>)
    requires Watch(t) != Broken
    ensures Alternating(Boundaries(t))
    ensures Watch(t).Open? <==> |Boundaries(t)| % 2 == 1
  {
    if t != [] {
      AlternatingPhase(t[..|t| - 1]);
    }
  }

  /** Starts and ends of turns alternate, beginning with a start. */
  lemma {:induction false} Alternation(t: seq<Event>)
    requires Protocol(t)
    ensures Alternating(Boundaries(t))
  {
    ProtocolExact(t);
    AlternatingPhase(t);
  }

  /** While a turn is open only notes and its end are seen: no second start, no `Stopped`. */
  lemma {:induction false} NothingInsideATurn(t: seq<Event>, s: nat, p: nat)
    requires Protocol(t) && p < |t| && OpenFrom(t, s, p)
    ensures t[p].Note? || t[p].TurnEnd?
  {
    assert Lawful(t, p) && InTurn(t, p);
    OpenApart(t, s, p);
  }

  /** The end of a turn is followed at once by a `Stopped` with the first reason noted since the
      turn began; an internal failure stands in when none was noted. */
  lemma {:induction false} WoundDownTurnReported(t: seq<Event>, s: nat, p: nat)
    requires Protocol(t) && p + 1 < |t| && OpenFrom(t, s, p) && t[p].TurnEnd?
    requires Owed(t[p].how, FirstNote(t, s + 1, p)).Some?
    ensures t[p + 1] == Stopped(Owed(t[p].how, FirstNote(t, s + 1, p)).value)
    ensures t[p].how == Label(FirstNote(t, s + 1, p)) || t[p].how == AsShutdown
  {
    var owed, after := Owed(t[p].how, FirstNote(t, s + 1, p)).value, p + 1;
    assert Lawful(t, p) && Lawful(t, after) && Due(t, s, after, owed);
    forall s': nat | OpenFrom(t, s', p) ensures s' == s { OneStart(t, s, s', p); }
    DueApart(t, s, after, owed);
    if t[after].Stopped? {
      var r := t[after].reason;
      forall s': nat ensures Due(t, s', after, r) ==> r == owed {
        if Due(t, s', after, r) { OneDue(t, s, s', after, owed, r); }
      }
    }
  }

  /** A turn whose first note is a shutdown is reported as shut down, whatever is noted later. */
  lemma {:induction false} ShutdownReported(t: seq<Event>, s: nat, p: nat)
    requires Protocol(t) && p + 1 < |t| && OpenFrom(t, s, p) && t[p].TurnEnd? && t[p].how != AsRewound
    requires s + 1 < p && t[s + 1] == Note(Shutdown)
    ensures t[p] == TurnEnd(AsShutdown) && t[p + 1] == Stopped(Shutdown)
  {
    WoundDownTurnReported(t, s, p);
  }

  /** A `Stopped` after a rewound turn, and an ending that is not the reason's, are against it. */
  lemma {:induction false} Unlawful(t: seq<Event>, reason: StopReason, how: Ending, stopped: StopReason)
    requires t == [TurnStart, Note(reason), TurnEnd(how), Stopped(stopped)]
    ensures Protocol(t) <==>
              && stopped == reason
              && (how == AsShutdown || match reason
                                       case Completed(_) => how == AsCompleted
                                       case Cancelled(_) => how == AsCancelled
                                       case Shutdown => false
                                       case Failed(_) => how == AsFailed
                                       case MaxIterations(_) => how == AsMaxIterations
                                       case ToolLoop(_, _) => how == AsToolLoop)
  {
    ProtocolExact(t);
    WatchStep(t, 0);
    WatchStep(t, 1);
    WatchStep(t, 2);
    WatchStep(t, 3);
    assert t[..0] == [] && t[..4] == t;
  }

  /** A start drops a reason that is still pending. */
  lemma {:induction false} PendingDropped(t: seq<Event>, reason: StopReason, how: Ending, stopped: StopReason)
    requires t == [Note(reason), TurnStart, TurnEnd(how), Stopped(stopped)]
    ensures Protocol(t) <==> how == AsUnknown && stopped == INTERNAL
  {
    ProtocolExact(t);
    WatchStep(t, 0);
    WatchStep(t, 1);
    WatchStep(t, 2);
    WatchStep(t, 3);
    assert t[..0] == [] && t[..4] == t;
  }

  // ---------- traces as they grow ----------

  datatype Trace = Start | Then(before: Trace, last: Event)

  function Events(t: Trace): seq<Event> {
    match t
    case Start => []
    case Then(before, e) => Events(before) + [e]
  }

  /** What the automaton remembers of a trace. */
  function Seen(t: Trace): Phase {
    match t
    case Start => Between(None)
    case Then(before, e) => Next(Seen(before), e)
  }

  /** The hooks and `Stopped` events of a trace, without the notes. */
  function Marks(t: Trace): Trace {
    match t
    case Start => Start
    case Then(before, e) => if e.Note? then Marks(before) else Then(Marks(before), e)
  }

  /** How many reasons have been dropped by starts. */
  function ReasonsDropped(t: Trace): nat {
    match t
    case Start => 0
    case Then(before, e) =>
      ReasonsDropped(before) + if e.TurnStart? && Seen(before).Between? && Seen(before).pending.Some? then 1 else 0
  }

  predicate Extends(before: Trace, after: Trace) {
    before == after || (after.Then? && Extends(before, after.before))
  }

  lemma {:induction false} ExtendsOn(a: Trace, b: Trace, c: Trace)
    requires Extends(a, b) && Extends(b, c)
    ensures Extends(a, c)
  {
    if b != c { ExtendsOn(a, b, c.before); }
  }

  lemma {:induction false} SeenIsWatched(t: Trace)
    ensures Seen(t) == Watch(Events(t))
  {
    if t.Then? {
      SeenIsWatched(t.before);
      WatchAppend(Events(t.before), t.last);
    }
  }

  lemma {:induction false} ProtocolSeen(t: Trace)
    ensures Seen(t) != Broken <==> Protocol(Events(t))
  {
    SeenIsWatched(t);
    ProtocolExact(Events(t));
  }
}
