/** The agent's main loop (crates/kernel/src/agent/agent.rs:273-598, 777-938, 961-1065, 1091-1195,
    1307-1448, 1531-1722; crates/kernel/src/agent/types.rs:360-394). What other tasks, providers and
    tools contribute to one round of the loop is a parameter of that round. */
module TurnCycle {
  import opened Messages
  import opened TurnProtocol
  import opened CancelToken

  datatype AgentState = Idle | Streaming | ExecutingTool | Compacting | WindingDown

  datatype Outcome = Ok | Err(error: AgentError)

  datatype Flow = Leave | Again | Ran(outcome: Outcome)

  // ---------- what a round meets ----------

  datatype Compaction = Unneeded | Rewritten | Interrupted | CompactionFailed(error: string)

  datatype FullCompaction = NoModel(error: string) | NoCompactor | Compacted(result: Compaction)

  function CompactionError(full: FullCompaction): string {
    match full
    case NoModel(error) => error
    case Compacted(CompactionFailed(error)) => error
    case _ => ""
  }

  datatype Completion = BrokenOff(error: AgentError) | Completion(finish: Option<FinishReason>, hasToolCalls: bool)

  /** One attempt to stream a reply, and what follows it when it fails. */
  datatype Attempt = Attempt(
    model: Option<string>,          // the model cannot be resolved
    early: Signal,
    auto: Option<Compaction>,       // automatic compaction, when it is due
    request: Option<AgentError>,    // the request cannot be built
    opening: Signal,
    refused: Option<AgentError>,    // the stream cannot be opened
    during: Signal,
    completion: Completion,
    recovery: FullCompaction,
    waiting: Signal)

  datatype Input =
    | UserInput
    | SteerInput
    | BtwInput
    | ShutdownInput
    | CancelInput
    | CompactInput(full: FullCompaction)
    | ContinueInput
    | RewindInput(failure: Option<AgentError>)
    | ClearInput
    | ResponseInput

  datatype IdleRound = Steered | Took(input: Input) | CancelledWaiting | Mail | TimedOut(mailboxEmpty: bool)

  datatype Round = Round(
    signal: Signal,
    idle: IdleRound,
    hasUserMessage: bool,           // the history holds a user message to anchor a turn to
    attempts: nat -> Attempt,
    tools: ToolRound,
    settle: Signal)

  /** A user message, a steering one or a continuation comes off the mailbox. */
  predicate TakesToStream(idle: IdleRound) {
    idle == Took(UserInput) || idle == Took(SteerInput) || idle == Took(ContinueInput)
  }

  /** Running a tool batch: it may note reasons, cancel, end in any state, with or without an error. */
  datatype ToolRound = ToolRound(notes: seq<StopReason>, next: AgentState, outcome: Outcome, cancelled: bool,
    forShutdown: bool)

  /** A compaction is interrupted by a cancelled token only. */
  predicate Calm(a: Attempt) {
    a.auto == Some(Interrupted) ==> a.early != Quiet
  }

  ghost predicate AllCalm(script: nat -> Attempt) {
    forall k :: Calm(script(k))
  }

  /** And a tool batch that has noted a reason does not lead back to streaming. */
  ghost predicate Steady(r: Round) {
    && AllCalm(r.attempts)
    && (r.tools.outcome.Ok? && (r.tools.next == Streaming || r.tools.next == ExecutingTool) ==> r.tools.notes == [])
  }

  predicate StreamCompletionConsistent(finish: Option<FinishReason>, hasToolCalls: bool) {
    match finish
    case Some(ToolCalls) => hasToolCalls
    case Some(Stop) | Some(MaxTokens) | Some(PauseTurn) | Some(Refusal) | Some(Repeat) => !hasToolCalls
    case None | Some(ContentFilter) | Some(Unknown) => false
  }

  // ---------- what a reply leads to ----------

  /** The state after a complete reply: tools are run if it calls some, a truncated one is continued once. */
  function StateAfter(finish: Option<FinishReason>, hasToolCalls: bool, continuedBefore: bool): AgentState {
    match finish
    case Some(ToolCalls) => if hasToolCalls then ExecutingTool else WindingDown
    case Some(MaxTokens) => if hasToolCalls || continuedBefore then WindingDown else Streaming
    case _ => WindingDown
  }

  /** The reason the turn ends with, when the reply ends it. */
  function ReasonAfter(finish: Option<FinishReason>, hasToolCalls: bool): StopReason {
    match finish
    case Some(Stop) | Some(Repeat) | Some(Refusal) | Some(MaxTokens) =>
      if hasToolCalls then Failed(InconsistentCompletion) else Completed(finish)
    case Some(PauseTurn) => if hasToolCalls then Failed(InconsistentCompletion) else Failed(PauseTurnUnsupported)
    case Some(ToolCalls) | Some(ContentFilter) | Some(Unknown) | None => Failed(InconsistentCompletion)
  }

  /** Had the token been cancelled by the time the stream was opened, or the reply collected? */
  predicate CancelledAtOpening(a: Attempt, cancelled: bool) {
    cancelled || a.early != Quiet || a.opening != Quiet
  }

  predicate CancelledAtReply(a: Attempt, cancelled: bool) {
    CancelledAtOpening(a, cancelled) || a.during != Quiet
  }

  /** The first thing that goes wrong in an attempt, if any: no model, no request, a cancel before the stream
      is open, a refusal, a cancel before the reply is complete, a reply broken off. */
  function FirstError(a: Attempt, cancelled: bool): Option<AgentError> {
    match (a.model, a.request, CancelledAtOpening(a, cancelled), a.refused, CancelledAtReply(a, cancelled),
           a.completion)
    case (Some(message), _, _, _, _, _) => Some(Other(message))
    case (None, Some(e), _, _, _, _) => Some(e)
    case (None, None, true, _, _, _) => Some(Aborted(StreamCreation))
    case (None, None, false, Some(e), _, _) => Some(e)
    case (None, None, false, None, true, _) => Some(Aborted(CollectingStream))
    case (None, None, false, None, false, BrokenOff(e)) => Some(e)
    case (None, None, false, None, false, Completion(_, _)) => None
  }

  /** Only a cancel depends on the token. */
  lemma {:induction false} SameError(a: Attempt, cancelled: bool)
    ensures FirstError(a, cancelled).None? ==> FirstError(a, false).None? && a.completion.Completion?
    ensures FirstError(a, cancelled).Some? ==>
              FirstError(a, cancelled).value.Aborted? || FirstError(a, false) == FirstError(a, cancelled)
  {
  }

  /** Nothing goes wrong, and no compaction is interrupted. */
  predicate Smooth(a: Attempt) {
    && a.model.None? && a.request.None? && a.refused.None? && a.auto != Some(Interrupted)
    && a.early == a.opening == a.during == Quiet && a.completion.Completion?
  }

  /** The reason pending after a reply. */
  function ReasonPending(finish: Option<FinishReason>, hasToolCalls: bool, next: AgentState,
                        before: Option<StopReason>): Option<StopReason>
  {
    if next == WindingDown then Noted(before, ReasonAfter(finish, hasToolCalls)) else before
  }

  /** The attempts that many Streaming rounds can make. */
  function AttemptsFor(rounds: nat, retries: nat): nat {
    if rounds == 0 then 0 else AttemptsFor(rounds - 1, retries) + retries + 2
  }

  lemma {:induction false} AttemptsAre(rounds: nat, retries: nat)
    ensures AttemptsFor(rounds, retries) == rounds * (retries + 2)
  {
    if rounds > 0 {
      AttemptsAre(rounds - 1, retries);
      assert (rounds - 1) * (retries + 2) + (retries + 2) == rounds * (retries + 2);
    }
  }

  lemma {:induction false} FewerRounds(rounds: nat, limit: nat, retries: nat)
    requires rounds <= limit
    ensures AttemptsFor(rounds, retries) <= AttemptsFor(limit, retries)
  {
    if rounds < limit { FewerRounds(rounds, limit - 1, retries); }
  }

  // ---------- the retry policy ----------

  /** How many of these errors draw on the retry budget. */
  function Ordinary(met: seq<AgentError>): nat {
    if met == [] then 0 else Ordinary(met[..|met| - 1]) + if met[|met| - 1].IsContextOverflow() then 0 else 1
  }

  predicate Overflowed(met: seq<AgentError>) {
    met != [] && (met[|met| - 1].IsContextOverflow() || Overflowed(met[..|met| - 1]))
  }

  /** After these errors, is e worth another attempt? An overflow is once; other errors are within the
      budget, the first of them whatever it is. */
  predicate Retried(met: seq<AgentError>, e: AgentError, maxRetries: nat) {
    && !e.Aborted?
    && if e.IsContextOverflow() then !Overflowed(met)
       else Ordinary(met) < maxRetries && (e.IsRetryable() || Ordinary(met) == 0)
  }

  /** The context a failure is reported in. */
  function WhyGivenUp(met: seq<AgentError>, e: AgentError, maxRetries: nat): GaveUp {
    match (e.IsContextOverflow(), Overflowed(met), Ordinary(met) >= maxRetries)
    case (true, true, _) => OverflowPersisted
    case (true, false, _) => OverflowRecoveryFailed
    case (false, _, true) => OutOfRetries
    case (false, _, false) => NotRetryable
  }

  function FailedRecovery(a: Attempt): AgentError {
    Other(CompactionError(a.recovery))
  }

  predicate AllRetried(met: seq<AgentError>, maxRetries: nat) {
    met == [] || (AllRetried(met[..|met| - 1], maxRetries) && Retried(met[..|met| - 1], met[|met| - 1], maxRetries))
  }

  lemma {:induction false} MetOneMore(met: seq<AgentError>, e: AgentError, maxRetries: nat)
    ensures Ordinary(met + [e]) == Ordinary(met) + if e.IsContextOverflow() then 0 else 1
    ensures Overflowed(met + [e]) <==> Overflowed(met) || e.IsContextOverflow()
    ensures AllRetried(met + [e], maxRetries) <==> AllRetried(met, maxRetries) && Retried(met, e, maxRetries)
  {
    assert (met + [e])[..|met|] == met;
  }

  /** The errors met are those of the attempts made, one after the other. */
  predicate MetInTurn(script: nat -> Attempt, met: seq<AgentError>) {
    met == []
    || (MetInTurn(script, met[..|met| - 1]) && FirstError(script(|met| - 1), false) == Some(met[|met| - 1]))
  }

  lemma {:induction false} MetOneMoreInTurn(script: nat -> Attempt, met: seq<AgentError>, e: AgentError)
    requires MetInTurn(script, met) && FirstError(script(|met|), false) == Some(e)
    ensures MetInTurn(script, met + [e])
  {
    assert (met + [e])[..|met|] == met;
  }

  /** A turn has just been closed and reported with this reason. */
  ghost predicate JustReported(t: Trace, reason: StopReason) {
    t.Then? && t.last == Stopped(reason) && t.before.Then? && t.before.last.TurnEnd?
  }

  // ---------- what a round leads to ----------

  /** An agent between two rounds. */
  datatype Moment = Moment(limit: nat, state: AgentState, turnOpen: bool, pending: Option<StopReason>, iterations: nat,
    continued: bool, streamed: nat, cancelled: bool, trace: Trace)

  /** What is observed when a turn is closed and reported, or a reason pending outside of one. */
  function WoundDown(trace: Trace, turnOpen: bool, pending: Option<StopReason>): Trace {
    match (turnOpen, pending)
    case (true, Some(reason)) => Then(Then(trace, TurnEnd(Label(pending))), Stopped(reason))
    case (true, None) => Then(Then(trace, TurnEnd(AsUnknown)), Stopped(INTERNAL))
    case (false, Some(reason)) => Then(trace, Stopped(reason))
    case (false, None) => trace
  }

  /** A Streaming round whose first attempt is answered: a turn is opened, if there is none, and a message to
      anchor it to; the reply leads to the next state, and its reason, if it ends the turn, is noted. */
  ghost predicate ReplyTaken(a: Moment, r: Round, b: Moment) {
    var starts := r.hasUserMessage && !a.turnOpen;
    var trace, pending := if starts then Then(a.trace, TurnStart) else a.trace, if starts then None else a.pending;
    var reply := r.attempts(0).completion;
    && reply.Completion? && b.turnOpen == (a.turnOpen || r.hasUserMessage)
    && b.state == StateAfter(reply.finish, reply.hasToolCalls, a.continued)
    && b.continued == (a.continued || b.state == Streaming)
    && b.pending == ReasonPending(reply.finish, reply.hasToolCalls, b.state, pending)
    && b.trace == if b.state == WindingDown then Then(trace, Note(ReasonAfter(reply.finish, reply.hasToolCalls)))
                  else trace
  }

  /** A round takes the agent from a to b. */
  ghost predicate Rounded(a: Moment, r: Round, b: Moment, left: bool) {
    var limited := a.state == Streaming && a.limit > 0 && a.iterations >= a.limit;
    && b.limit == a.limit
    && (a.state == Idle && !a.cancelled && r.signal == Quiet && TakesToStream(r.idle) ==>
          !left && b == a.(state := Streaming, iterations := 1, streamed := 0,
                           continued := a.continued && r.idle != Took(UserInput)))
    && (a.state == Idle && (a.cancelled || r.signal != Quiet) ==> left && b.trace == a.trace)
    && (limited ==>
          && !left && b.state == WindingDown && b.turnOpen == a.turnOpen && b.streamed == a.streamed
          && b.trace == Then(a.trace, Note(MaxIterations(a.limit)))
          && b.pending == Noted(a.pending, MaxIterations(a.limit)))
    && (a.state == Streaming && !limited ==> b.streamed == a.streamed + 1)
    && (a.state == Streaming && !limited && !a.cancelled && r.signal == Quiet && Smooth(r.attempts(0)) ==>
          !left && ReplyTaken(a, r, b))
    && (a.state == Compacting ==> !left && b.state == WindingDown)
    && (a.state == WindingDown ==>
          && !left && b.state == Idle && !b.turnOpen && b.pending.None? && b.streamed == a.streamed
          && b.trace == WoundDown(a.trace, a.turnOpen, a.pending))
  }

  /** A signal at the start of a round cancels the token, and does nothing else. */
  lemma {:induction false} Signalled(a: Moment, r: Round, b: Moment, left: bool)
    requires Rounded(a.(cancelled := a.cancelled || r.signal != Quiet), r, b, left)
    ensures Rounded(a, r, b, left)
  {
  }

  class Agent {
    const maxIterations: nat        // 0: unlimited
    const maxRetries: nat
    const token: CancelToken

    var state: AgentState
    var turnOpen: bool              // current_turn.is_some()
    var lastStopReason: Option<StopReason>
    var iterations: nat
    var autoContinueUsed: bool

    /** Hooks, events and notes so far, and the same without the notes; Streaming rounds and streaming
        attempts since the last Idle round, and whether that round took an input off the mailbox;
        automatic continuations since the last user input. */
    ghost var trace: Trace
    ghost var marks: Trace
    ghost var streamed: nat
    ghost var attempts: nat
    ghost var tookInput: bool
    ghost var continued: nat
    /** Pending reasons dropped by the start of a turn. */
    ghost var dropped: nat

    constructor (maxIterations: nat, maxRetries: nat, token: CancelToken)
      ensures AtHead() && trace == Start && state == Idle && dropped == 0
      ensures iterations == 0 && !turnOpen && lastStopReason.None? && !autoContinueUsed
      ensures this.maxIterations == maxIterations && this.maxRetries == maxRetries && this.token == token
    {
      this.maxIterations, this.maxRetries, this.token := maxIterations, maxRetries, token;
      state, turnOpen, lastStopReason, iterations, autoContinueUsed := Idle, false, None, 0, false;
      trace, marks, streamed, attempts, tookInput, continued, dropped := Start, Start, 0, 0, false, 0, 0;
    }

    /** The trace keeps the protocol, and the fields are what the protocol remembers of it. */
    ghost predicate Tracked() reads this {
      && Seen(trace) == (if turnOpen then Open(lastStopReason) else Between(lastStopReason)) && marks == Marks(trace)
      && dropped == ReasonsDropped(trace) && continued == if autoContinueUsed then 1 else 0
    }

    /** With `due` rounds still to be counted. */
    ghost predicate Bounded(due: nat) reads this {
      && streamed + (if tookInput then 1 else 0) <= iterations + due
      && (maxIterations > 0 ==> streamed + (if tookInput then 1 else 0) <= maxIterations)
      && attempts <= AttemptsFor(streamed, maxRetries)
    }

    /** What holds whenever the loop comes round. */
    ghost predicate AtHead() reads this {
      && Tracked() && Bounded(0)
      && (state == Idle ==> !turnOpen && lastStopReason.None?)
    }

    /** Outside a turn no reason is pending while streaming or running tools. */
    ghost predicate Clean() reads this {
      (state == Streaming || state == ExecutingTool) && !turnOpen ==> lastStopReason.None?
    }

    /** The round is to start a turn, and a reason is pending. */
    predicate Drops(r: Round) reads this {
      && state == Streaming && !(maxIterations > 0 && iterations >= maxIterations)
      && !turnOpen && r.hasUserMessage && lastStopReason.Some?
    }

    ghost function Current(): Moment reads this, token {
      Moment(maxIterations, state, turnOpen, lastStopReason, iterations, autoContinueUsed, streamed, token.cancelled,
             trace)
    }

    /** The turn is still open with this reason, or has been reported with it. */
    ghost predicate KeptOrReported(reason: Option<StopReason>)
      requires reason.Some?
      reads this
    {
      if turnOpen then lastStopReason == reason else JustReported(trace, reason.value)
    }

    /** The reason the open turn is to be reported with. */
    ghost function NotedInTurn(): Option<StopReason> reads this {
      if turnOpen then lastStopReason else None
    }

    ghost predicate StillDue(reason: Option<StopReason>, outcome: Outcome)
      requires reason.Some?
      reads this
    {
      KeptOrReported(reason) && (!turnOpen ==> lastStopReason.None? && outcome == Ok)
    }

    // ---------- reasons ----------

    method NoteStopped(reason: StopReason)
      requires Tracked()
      modifies this`lastStopReason, this`trace
      ensures Tracked() && trace == Then(old(trace), Note(reason))
      ensures lastStopReason == Noted(old(lastStopReason), reason)
    {
      if lastStopReason.None? {
        lastStopReason := Some(reason);
      }
      trace := Then(trace, Note(reason));
    }

    /** `fail_agent`. */
    method FailAgent(context: GaveUp, error: AgentError) returns (outcome: Outcome)
      requires Tracked()
      modifies this`lastStopReason, this`trace
      ensures Tracked() && Extends(old(trace), trace)
      ensures outcome == Err(error) && lastStopReason == Noted(old(lastStopReason), Failed(InContext(context, error)))
    {
      NoteStopped(Failed(InContext(context, error)));
      outcome := Err(error);
    }

    /** The shutdown attribution, where a run is interrupted: reading the mark consumes it. */
    method NoteInterrupted(operation: Operation)
      requires Tracked()
      modifies this`lastStopReason, this`trace, token`forShutdown
      ensures Tracked() && trace ==
                Then(old(trace), Note(if old(token.forShutdown) then Shutdown else Cancelled(operation)))
      ensures lastStopReason ==
                Noted(old(lastStopReason), if old(token.forShutdown) then Shutdown else Cancelled(operation))
      ensures !token.forShutdown
    {
      var shutdown := token.TakeForShutdown();
      if shutdown {
        NoteStopped(Shutdown);
      } else {
        NoteStopped(Cancelled(operation));
      }
    }

    method HandleCancel(context: Operation)
      requires Tracked()
      modifies this`state, this`lastStopReason, this`trace, token`forShutdown
      ensures Tracked() && state == WindingDown && !token.forShutdown
      ensures trace == Then(old(trace), Note(if old(token.forShutdown) then Shutdown else Cancelled(context)))
      ensures lastStopReason ==
                Noted(old(lastStopReason), if old(token.forShutdown) then Shutdown else Cancelled(context))
    {
      NoteInterrupted(context);
      state := WindingDown;
    }

    // ---------- ends and starts of turns ----------

    method StartTurnIfNeeded(hasUserMessage: bool)
      requires Tracked()
      modifies this`turnOpen, this`marks, this`lastStopReason, this`trace, this`dropped
      ensures Tracked() && turnOpen == (old(turnOpen) || hasUserMessage)
      ensures dropped == old(dropped) + if !old(turnOpen) && hasUserMessage && old(lastStopReason).Some? then 1 else 0
      ensures turnOpen && !old(turnOpen) ==>
                trace == Then(old(trace), TurnStart) && marks == Then(old(marks), TurnStart) && lastStopReason.None?
      ensures turnOpen == old(turnOpen) ==>
                trace == old(trace) && marks == old(marks) && lastStopReason == old(lastStopReason)
    {
      if turnOpen || !hasUserMessage {
        return;
      }
      dropped := dropped + if lastStopReason.Some? then 1 else 0;
      lastStopReason := None;
      turnOpen := true;
      trace, marks := Then(trace, TurnStart), Then(marks, TurnStart);
    }

    /** Closing the turn, if one is open, fires its `turn_end` hook. */
    method CompleteCurrentTurn(how: Ending)
      modifies this`turnOpen, this`marks, this`trace
      ensures !turnOpen && trace == (if old(turnOpen) then Then(old(trace), TurnEnd(how)) else old(trace))
      ensures marks == if old(turnOpen) then Then(old(marks), TurnEnd(how)) else old(marks)
    {
      if turnOpen {
        turnOpen := false;
        trace, marks := Then(trace, TurnEnd(how)), Then(marks, TurnEnd(how));
      }
    }

    method EmitStopped(reason: StopReason)
      modifies this`trace, this`marks
      ensures trace == Then(old(trace), Stopped(reason)) && marks == Then(old(marks), Stopped(reason))
    {
      trace, marks := Then(trace, Stopped(reason)), Then(marks, Stopped(reason));
    }

    /** Close the turn, then report it; outside a turn, report the reason if there is one. */
    method FinishTurnWindDown()
      requires Tracked()
      modifies this`turnOpen, this`marks, this`lastStopReason, this`trace
      ensures Tracked() && !turnOpen && lastStopReason.None?
      ensures trace == WoundDown(old(trace), old(turnOpen), old(lastStopReason))
      ensures old(turnOpen) && old(lastStopReason).Some? ==> JustReported(trace, old(lastStopReason).value)
    {
      var reason := lastStopReason;
      lastStopReason := None;
      if !turnOpen {
        if reason.Some? { EmitStopped(reason.value); }
        return;
      }
      CompleteCurrentTurn(Label(reason));
      EmitStopped(if reason.Some? then reason.value else INTERNAL);
    }

    /** The net at the bottom of the loop. */
    method CompleteTurnIfNeeded()
      requires Tracked()
      modifies this`turnOpen, this`marks, this`lastStopReason, this`trace
      ensures Tracked() && Extends(old(trace), trace)
      ensures state == Idle ==> !turnOpen && lastStopReason.None?
      ensures trace == if state == Idle then WoundDown(old(trace), old(turnOpen), old(lastStopReason)) else old(trace)
      ensures old(turnOpen) && old(lastStopReason).Some? ==> KeptOrReported(old(lastStopReason))
      ensures state != Idle || (!old(turnOpen) && old(lastStopReason).None?) ==>
                turnOpen == old(turnOpen) && lastStopReason == old(lastStopReason) && trace == old(trace)
    {
      if state != Idle || (!turnOpen && lastStopReason.None?) {
        return;
      }
      FinishTurnWindDown();
    }

    method ProcessRewind(failure: Option<AgentError>) returns (outcome: Outcome)
      requires Tracked()
      modifies this`turnOpen, this`marks, this`lastStopReason, this`trace
      ensures Tracked() && !turnOpen && outcome == (if failure.Some? then Err(failure.value) else Ok)
      ensures old(turnOpen) ==> trace == Then(old(trace), TurnEnd(AsRewound)) && lastStopReason.None?
      ensures !old(turnOpen) ==> trace == old(trace) && marks == old(marks) && lastStopReason == old(lastStopReason)
    {
      if turnOpen {
        lastStopReason := None;
        CompleteCurrentTurn(AsRewound);
      }
      outcome := if failure.Some? then Err(failure.value) else Ok;
    }

    // ---------- compaction ----------

    method HandleCompactionResult(result: Compaction) returns (ok: bool)
      requires Tracked()
      modifies this`lastStopReason, this`trace, token`forShutdown
      ensures Tracked() && Extends(old(trace), trace) && ok == (result.Unneeded? || result.Rewritten?)
      ensures result.Interrupted? ==>
                && lastStopReason ==
                  Noted(old(lastStopReason),
                  if old(token.forShutdown) then Shutdown else Cancelled(CompactingHistory))
                && !token.forShutdown
      ensures !result.Interrupted? ==>
                lastStopReason == old(lastStopReason) && trace == old(trace) &&
                token.forShutdown == old(token.forShutdown)
    {
      if result.Interrupted? {
        NoteInterrupted(CompactingHistory);
      }
      ok := result.Unneeded? || result.Rewritten?;
    }

    method ForceFullCompact(full: FullCompaction) returns (ok: bool)
      requires Tracked()
      modifies this`state, this`lastStopReason, this`trace, token`forShutdown
      ensures Tracked() && Extends(old(trace), trace) && state == old(state)
      ensures ok <==> full == Compacted(Unneeded) || full == Compacted(Rewritten)
      ensures lastStopReason ==
                if full == Compacted(Interrupted) then Noted(old(lastStopReason),
                  if old(token.forShutdown) then Shutdown else Cancelled(CompactingHistory))
                else old(lastStopReason)
    {
      var before := state;
      state := Compacting;
      ok := false;
      if full.Compacted? {
        ok := HandleCompactionResult(full.result);
      }
      state := before;
    }

    method MaybeCompact(auto: Option<Compaction>)
      requires Tracked()
      modifies this`state, this`lastStopReason, this`trace, token`forShutdown
      ensures Tracked() && Extends(old(trace), trace) && state == old(state)
      ensures auto == Some(Interrupted) ==>
                lastStopReason ==
                  Noted(old(lastStopReason),
                  if old(token.forShutdown) then Shutdown else Cancelled(CompactingHistory))
      ensures auto != Some(Interrupted) ==> lastStopReason == old(lastStopReason) && trace == old(trace)
    {
      if auto.Some? {
        var before := state;
        state := Compacting;
        state := before;
        var _ := HandleCompactionResult(auto.value);
      }
    }

    // ---------- streaming ----------

    method EndTurn(reason: StopReason)
      requires Tracked()
      modifies this`state, this`lastStopReason, this`trace
      ensures Tracked() && state == WindingDown && trace == Then(old(trace), Note(reason))
      ensures lastStopReason == Noted(old(lastStopReason), reason)
    {
      NoteStopped(reason);
      state := WindingDown;
    }

    /** A consistent completion leads on to the tools exactly when it calls some; a truncated one is
        continued once per user input; everything else ends the turn with a reason. */
    method TransitionAfterStreaming(finish: Option<FinishReason>, hasToolCalls: bool)
      requires Tracked()
      modifies this`state, this`lastStopReason, this`trace, this`autoContinueUsed, this`continued
      ensures Tracked() && Extends(old(trace), trace)
      ensures state == ExecutingTool || state == Streaming || state == WindingDown
      ensures state == ExecutingTool <==> finish == Some(ToolCalls) && hasToolCalls
      ensures state == Streaming <==> finish == Some(MaxTokens) && !hasToolCalls && !old(autoContinueUsed)
      ensures autoContinueUsed == (old(autoContinueUsed) || state == Streaming)
      ensures state == StateAfter(finish, hasToolCalls, old(autoContinueUsed))
      ensures lastStopReason == ReasonPending(finish, hasToolCalls, state, old(lastStopReason))
      ensures trace == if state == WindingDown then Then(old(trace), Note(ReasonAfter(finish, hasToolCalls)))
                       else old(trace)
    {
      if !StreamCompletionConsistent(finish, hasToolCalls) {
        EndTurn(Failed(InconsistentCompletion));
      } else if finish == Some(ToolCalls) {
        state := ExecutingTool;
      } else if finish == Some(MaxTokens) && !autoContinueUsed {
        autoContinueUsed := true;
        continued := continued + 1;
        state := Streaming;
      } else if finish == Some(PauseTurn) {
        EndTurn(Failed(PauseTurnUnsupported));
      } else {
        EndTurn(Completed(finish));
      }
    }

    /** The reply has been dealt with: the reason it ends the turn with, if it does, is noted. */
    ghost predicate Replied(finish: Option<FinishReason>, hasToolCalls: bool, before: Option<StopReason>,
                            traceBefore: Trace) reads this
    {
      && lastStopReason == ReasonPending(finish, hasToolCalls, state, before)
      && trace == if state == WindingDown then Then(traceBefore, Note(ReasonAfter(finish, hasToolCalls)))
                  else traceBefore
    }

    /** One attempt: it ends in the next state, or in an error that leaves the state alone. */
    method HandleStreaming(a: Attempt) returns (outcome: Outcome)
      requires Tracked() && state == Streaming
      modifies this`state, this`lastStopReason, this`trace, this`autoContinueUsed, this`continued, token
      ensures Tracked() && Extends(old(trace), trace)
      ensures outcome == (if FirstError(a, old(token.cancelled)).Some?
                then Err(FirstError(a, old(token.cancelled)).value) else Ok)
      ensures outcome.Ok? ==>
                && state == StateAfter(a.completion.finish, a.completion.hasToolCalls, old(autoContinueUsed))
                && (a.auto != Some(Interrupted) ==>
                      Replied(a.completion.finish, a.completion.hasToolCalls, old(lastStopReason), old(trace)))
                && autoContinueUsed == (old(autoContinueUsed) || state == Streaming)
                && (state == WindingDown ==> lastStopReason.Some?)
                && !token.cancelled
      ensures outcome.Err? ==> state == Streaming && autoContinueUsed == old(autoContinueUsed)
      ensures old(token.cancelled) ==> token.cancelled && outcome.Err?
      ensures Calm(a) && state != WindingDown && lastStopReason != old(lastStopReason) ==>
                token.cancelled && outcome.Err?
      ensures old(lastStopReason).Some? ==> lastStopReason == old(lastStopReason)
      ensures a.model.None? && a.auto == Some(Interrupted) && (old(token.forShutdown) || a.early == KernelShutdown) ==>
                lastStopReason == Noted(old(lastStopReason), Shutdown)
    {
      if a.model.Some? {
        return Err(Other(a.model.value));
      }
      token.Receive(a.early);
      MaybeCompact(a.auto);
      ghost var before := trace;
      if a.request.Some? {
        return Err(a.request.value);
      }
      token.Receive(a.opening);
      if token.cancelled {
        return Err(Aborted(StreamCreation));
      }
      if a.refused.Some? {
        return Err(a.refused.value);
      }
      token.Receive(a.during);
      if token.cancelled {
        return Err(Aborted(CollectingStream));
      }
      if a.completion.BrokenOff? {
        return Err(a.completion.error);
      }
      TransitionAfterStreaming(a.completion.finish, a.completion.hasToolCalls);
      ExtendsOn(old(trace), before, trace);
      outcome := Ok;
    }

    /** Retries within the budget, and one forced compaction when the context overflows: no more
        than maxRetries + 2 attempts. An error that is not a cancellation leaves a reason behind.
        `met` are the errors retried, `last` is the one given up with. */
    method HandleStreamingWithRetry(script: nat -> Attempt)
      returns (outcome: Outcome, ghost met: seq<AgentError>, ghost last: AgentError)
      requires Tracked() && state == Streaming
      modifies this`state, this`lastStopReason, this`trace, this`autoContinueUsed, this`continued, this`attempts, token
      ensures Tracked() && Extends(old(trace), trace)
      ensures old(attempts) < attempts <= old(attempts) + maxRetries + 2
      ensures attempts == old(attempts) + |met| + 1 && AllRetried(met, maxRetries)
      ensures MetInTurn(script, met) && Ended(script(|met|), outcome, met, last, old(autoContinueUsed))
      ensures Smooth(script(0)) && !old(token.cancelled) ==>
                met == [] && AtOnce(script(0), outcome, old(lastStopReason), old(trace))
      ensures AllCalm(script) && outcome.Ok? && state != WindingDown ==>
                lastStopReason == old(lastStopReason)
      ensures old(lastStopReason).Some? ==> lastStopReason == old(lastStopReason)
    {
      var attempt, recovered, k, again := 0, false, 0, true;
      met, last, outcome := [], Quit, Ok;
      ghost var smooth, calm := Smooth(script(0)) && !token.cancelled, AllCalm(script);
      while again
        invariant Tracked() && Extends(old(trace), trace)
        invariant attempts == old(attempts) + k && k == |met| + (if again then 0 else 1)
        invariant MetInTurn(script, met) && AllRetried(met, maxRetries) && |met| <= maxRetries + 1
        invariant again ==> autoContinueUsed == old(autoContinueUsed) && Retrying(met, attempt, recovered)
        invariant !again ==> Ended(script(|met|), outcome, met, last, old(autoContinueUsed))
        invariant ReasonKept(again, outcome, calm, old(lastStopReason))
        invariant smooth ==> met == []
        invariant smooth && again ==>
                    !token.cancelled && lastStopReason == old(lastStopReason) && trace == old(trace)
        invariant smooth && !again ==> AtOnce(script(0), outcome, old(lastStopReason), old(trace))
        decreases again, maxRetries - attempt, !recovered
      {
        ghost var error;
        ghost var before := trace;
        var a := script(k);
        assert calm ==> Calm(a);
        again, attempt, recovered, outcome, error := TryOnce(a, attempt, recovered, met);
        ExtendsOn(old(trace), before, trace);
        k := k + 1;
        if again {
          MetOneMoreInTurn(script, met, error);
          met := met + [error];
        } else {
          last := error;
        }
      }
    }

    /** A reason noted before the attempts stays; if interrupted compactions come with a cancelled token, none is
        noted besides the one the last attempt ends with. */
    ghost predicate ReasonKept(again: bool, outcome: Outcome, calm: bool, before: Option<StopReason>)
      reads this, token
    {
      && (before.Some? ==> lastStopReason == before)
      && (calm && again ==> lastStopReason == before || token.cancelled)
      && (calm && !again ==> lastStopReason == before || outcome.Err? || state == WindingDown)
    }

    /** The attempt was answered, and the reply has been dealt with. */
    ghost predicate AtOnce(a: Attempt, outcome: Outcome, before: Option<StopReason>, traceBefore: Trace) reads this {
      && outcome.Ok? && a.completion.Completion?
      && Replied(a.completion.finish, a.completion.hasToolCalls, before, traceBefore)
    }

    /** The last attempt led to the state its reply asks for, or to the error given up with. */
    ghost predicate Concluded(a: Attempt, outcome: Outcome, last: AgentError, continuedBefore: bool) reads this {
      if outcome.Ok? then
        && FirstError(a, false).None?
        && state == StateAfter(a.completion.finish, a.completion.hasToolCalls, continuedBefore)
        && autoContinueUsed == (continuedBefore || state == Streaming)
      else last.Aborted? || FirstError(a, false) == Some(last)
    }

    ghost predicate Retrying(met: seq<AgentError>, attempt: nat, recovered: bool) reads this {
      state == Streaming && Counted(met, attempt, recovered)
    }

    ghost predicate Ended(a: Attempt, outcome: Outcome, met: seq<AgentError>, last: AgentError, continuedBefore: bool)
      reads this
    {
      GaveUpOrDone(outcome, met, last) && Concluded(a, outcome, last, continuedBefore)
    }

    /** How the retry loop ends. */
    ghost predicate GaveUpOrDone(outcome: Outcome, met: seq<AgentError>, last: AgentError) reads this {
      match outcome
      case Ok => state == Streaming || state == ExecutingTool || (state == WindingDown && lastStopReason.Some?)
      case Err(e) =>
        && state == Streaming
        && (!e.Aborted? ==> lastStopReason.Some? && (Retried(met, last, maxRetries) ==> last.IsContextOverflow()))
    }

    /** One attempt, and the decision whether to make another. */
    method TryOnce(a: Attempt, attempt: nat, recovered: bool, ghost met: seq<AgentError>)
      returns (again: bool, attempt': nat, recovered': bool, outcome: Outcome, ghost error: AgentError)
      requires Tracked() && state == Streaming && Counted(met, attempt, recovered)
      modifies this`state, this`lastStopReason, this`trace, this`autoContinueUsed, this`continued, this`attempts, token
      ensures Tracked() && Extends(old(trace), trace) && attempts == old(attempts) + 1
      ensures again ==>
                && Retrying(met + [error], attempt', recovered')
                && (attempt' > attempt || (attempt' == attempt && !recovered && recovered'))
      ensures !again ==> Ended(a, outcome, met, error, old(autoContinueUsed))
      ensures again ==> FirstError(a, false) == Some(error) && autoContinueUsed == old(autoContinueUsed)
      ensures Smooth(a) && !old(token.cancelled) ==> !again && AtOnce(a, outcome, old(lastStopReason), old(trace))
      ensures old(token.cancelled) ==> token.cancelled && (again || outcome.Err?)
      ensures Calm(a) && again ==> lastStopReason == old(lastStopReason) || token.cancelled
      ensures Calm(a) && !again ==> lastStopReason == old(lastStopReason) || outcome.Err? || state == WindingDown
      ensures old(lastStopReason).Some? ==> lastStopReason == old(lastStopReason)
    {
      attempts := attempts + 1;
      again, attempt', recovered', error := false, attempt, recovered, Quit;
      SameError(a, token.cancelled);
      outcome := HandleStreaming(a);
      if outcome.Err? {
        error := outcome.error;
        if !outcome.error.Aborted? {
          ghost var before := trace;
          attempt', recovered', outcome := RetryOrFail(outcome.error, a, attempt, recovered, met);
          ExtendsOn(old(trace), before, trace);
          again := outcome.Ok?;
        }
      }
    }

    /** What the retry loop has counted of the errors met so far. */
    ghost predicate Counted(met: seq<AgentError>, attempt: nat, recovered: bool) reads this {
      && attempt == Ordinary(met) <= maxRetries && recovered == Overflowed(met) && AllRetried(met, maxRetries)
      && |met| == attempt + if recovered then 1 else 0
    }

    /** After an error: Ok to try again, with the counters moved on, or the error to give up with. */
    method RetryOrFail(e: AgentError, a: Attempt, attempt: nat, recovered: bool, ghost met: seq<AgentError>)
      returns (attempt': nat, recovered': bool, outcome: Outcome)
      requires Tracked() && !e.Aborted? && Counted(met, attempt, recovered)
      modifies this`state, this`lastStopReason, this`trace, token
      ensures Tracked() && Extends(old(trace), trace) && state == old(state)
      ensures outcome.Ok? ==>
                && Retried(met, e, maxRetries) && Counted(met + [e], attempt', recovered')
                && (attempt' > attempt || (attempt' == attempt && !recovered && recovered'))
      ensures outcome.Err? && !outcome.error.Aborted? ==>
                && lastStopReason.Some?
                && (Retried(met, e, maxRetries) ==> e.IsContextOverflow())
      ensures old(token.cancelled) ==> token.cancelled
      ensures outcome.Ok? ==> lastStopReason == old(lastStopReason)
      ensures outcome.Err? ==>
                || !Retried(met, e, maxRetries) || outcome == Err(Aborted(StreamingRetry))
                || (e.IsContextOverflow() && outcome.error == FailedRecovery(a))
      ensures outcome.Err? && outcome.error != Aborted(StreamingRetry) ==>
                && outcome.error == (if e.IsContextOverflow() && !Overflowed(met) then FailedRecovery(a) else e)
                && (a.recovery != Compacted(Interrupted) ==>
                      lastStopReason ==
                        Noted(old(lastStopReason), Failed(InContext(WhyGivenUp(met, e, maxRetries), outcome.error))))
      ensures old(lastStopReason).Some? ==> lastStopReason == old(lastStopReason)
    {
      MetOneMore(met, e, maxRetries);
      attempt', recovered', outcome := attempt, recovered, Ok;
      if e.IsContextOverflow() && !recovered {
        recovered' := true;
        var ok := ForceFullCompact(a.recovery);
        if !ok {
          ghost var before := trace;
          outcome := FailAgent(OverflowRecoveryFailed, Other(CompactionError(a.recovery)));
          ExtendsOn(old(trace), before, trace);
        }
      } else if e.IsContextOverflow() {
        outcome := FailAgent(OverflowPersisted, e);
      } else if attempt >= maxRetries {
        outcome := FailAgent(OutOfRetries, e);
      } else if !(e.IsRetryable() || attempt == 0) {
        outcome := FailAgent(NotRetryable, e);
      } else {
        attempt' := attempt + 1;
        token.Receive(a.waiting);
        if token.cancelled {
          outcome := Err(Aborted(StreamingRetry));
        }
      }
    }

    /** A Streaming round: the turn is open, if there is a message to open it on, before anything
        is streamed. */
    method StreamingArm(r: Round) returns (outcome: Outcome)
      requires Tracked() && state == Streaming && Bounded(0) && (maxIterations > 0 ==> iterations < maxIterations)
      modifies this`state, this`turnOpen, this`marks, this`lastStopReason, this`trace, this`autoContinueUsed,
               this`continued, this`streamed, this`attempts, this`dropped, token
      ensures Tracked() && turnOpen == (old(turnOpen) || r.hasUserMessage)
      ensures dropped == old(dropped) + if old(Drops(r)) then 1 else 0
      ensures Steady(r) && outcome.Ok? && old(Clean()) ==> Clean()
      ensures marks == if turnOpen && !old(turnOpen) then Then(old(marks), TurnStart) else old(marks)
      ensures streamed == old(streamed) + 1 && attempts <= old(attempts) + maxRetries + 2 && Bounded(1)
      ensures Extends(old(trace), trace)
      ensures outcome.Ok? ==>
                state == Streaming || state == ExecutingTool || (state == WindingDown && lastStopReason.Some?)
      ensures Smooth(r.attempts(0)) && !old(token.cancelled) ==> outcome.Ok? && ReplyTaken(old(Current()), r, Current())
      ensures outcome.Err? ==> state == Streaming && (outcome.error.Aborted? || lastStopReason.Some?)
      ensures old(turnOpen) && old(lastStopReason).Some? ==> lastStopReason == old(lastStopReason)
    {
      streamed := streamed + 1;
      StartTurnIfNeeded(r.hasUserMessage);
      ghost var before := trace;
      ghost var met, last;
      outcome, met, last := HandleStreamingWithRetry(r.attempts);
      ExtendsOn(old(trace), before, trace);
    }

    /** A tool batch, which cannot be seen: only the turn is out of its reach. */
    method HandleExecuteTool(tools: ToolRound) returns (outcome: Outcome)
      requires Tracked()
      modifies this`state, this`lastStopReason, this`trace, token
      ensures Tracked() && Extends(old(trace), trace) && state == tools.next && outcome == tools.outcome
      ensures token.cancelled == tools.cancelled && token.forShutdown == tools.forShutdown
      ensures tools.notes == [] ==> lastStopReason == old(lastStopReason)
      ensures old(lastStopReason).Some? ==> lastStopReason == old(lastStopReason)
    {
      for k := 0 to |tools.notes|
        invariant Tracked() && Extends(old(trace), trace)
        invariant old(lastStopReason).Some? || tools.notes == [] ==> lastStopReason == old(lastStopReason)
      {
        NoteStopped(tools.notes[k]);
      }
      state, outcome := tools.next, tools.outcome;
      token.cancelled, token.forShutdown := tools.cancelled, tools.forShutdown;
    }

    // ---------- idle ----------

    method HandleInput(input: Input) returns (outcome: Outcome)
      requires Tracked() && state == Idle && !turnOpen
      modifies this`state, this`turnOpen, this`marks, this`lastStopReason, this`trace, this`autoContinueUsed,
               this`continued, token
      ensures Tracked() && !turnOpen && Extends(old(trace), trace) && marks == old(marks)
      ensures state == Streaming <==> input.UserInput? || input.SteerInput? || input.ContinueInput?
      ensures state == Streaming || state == Idle
      ensures input.UserInput? ==> !autoContinueUsed
      ensures !input.UserInput? ==> autoContinueUsed == old(autoContinueUsed)
      ensures token.cancelled == (old(token.cancelled) || input.CancelInput? || input.ShutdownInput?)
      ensures input.ShutdownInput? ==> token.forShutdown
      ensures outcome == (if input.RewindInput? && input.failure.Some? then Err(input.failure.value) else Ok)
      ensures !input.CompactInput? ==> trace == old(trace) && lastStopReason == old(lastStopReason)
      ensures input.CompactInput? ==>
                lastStopReason ==
                  if input.full == Compacted(Interrupted) then Noted(old(lastStopReason),
                    if old(token.forShutdown) then Shutdown else Cancelled(CompactingHistory))
                  else old(lastStopReason)
    {
      outcome := Ok;
      match input
      case UserInput =>
        autoContinueUsed, continued := false, 0;
        state := Streaming;
      case SteerInput | ContinueInput =>
        state := Streaming;
      case ShutdownInput =>
        token.CancelForShutdown();
        state := Idle;
      case CancelInput =>
        token.Cancel();
        state := Idle;
      case CompactInput(full) =>
        var _ := ForceFullCompact(full);
      case RewindInput(failure) =>
        outcome := ProcessRewind(failure);
      case BtwInput | ClearInput | ResponseInput =>
    }

    // ---------- errors ----------

    /** After an error: leave the loop, or wind down what is pending, or be idle. */
    method HandleError(e: AgentError) returns (leave: bool)
      requires Tracked()
      modifies this`state, this`turnOpen, this`marks, this`lastStopReason, this`trace, token`forShutdown
      ensures Tracked() && leave == e.Quit?
      ensures leave ==> !turnOpen && lastStopReason.None?
      ensures leave ==>
                var closed := if old(turnOpen) then Then(old(trace), TurnEnd(AsShutdown)) else old(trace);
                trace == if old(lastStopReason).Some? then Then(closed, Stopped(old(lastStopReason).value)) else closed
      ensures Extends(old(trace), trace) && (!leave ==> turnOpen == old(turnOpen) && marks == old(marks))
      ensures e.Aborted? ==>
                && state == WindingDown
                && lastStopReason ==
                  Noted(old(lastStopReason), if old(token.forShutdown) then Shutdown else Cancelled(e.operation))
      ensures !leave && !e.Aborted? ==>
                && lastStopReason ==
                  (if turnOpen then Noted(old(lastStopReason), Failed(Plain(e))) else old(lastStopReason))
                && state == (if old(state) == Idle || (!turnOpen && lastStopReason.None?) then Idle else WindingDown)
    {
      leave := false;
      if e.Quit? {
        var reason := lastStopReason;
        CompleteCurrentTurn(AsShutdown);
        lastStopReason := None;
        if reason.Some? {
          EmitStopped(reason.value);
        }
        return true;
      }
      if e.Aborted? {
        HandleCancel(e.operation);
      } else {
        if turnOpen && lastStopReason.None? {
          lastStopReason := Some(Failed(Plain(e)));
          trace := Then(trace, Note(Failed(Plain(e))));
        }
        if state != Idle {
          state := if turnOpen || lastStopReason.Some? then WindingDown else Idle;
        }
      }
    }

    // ---------- the loop ----------

    /** An Idle round: leave, come round again, or run on with an outcome. */
    method IdleArm(idle: IdleRound) returns (flow: Flow)
      requires AtHead() && state == Idle
      modifies this`state, this`turnOpen, this`marks, this`lastStopReason, this`trace, this`autoContinueUsed,
               this`continued,
               this`iterations, this`streamed, this`attempts, this`tookInput, token
      ensures Tracked() && !turnOpen && Extends(old(trace), trace) && marks == old(marks)
      ensures flow != Leave ==> iterations == streamed == attempts == 0 && (tookInput <==> flow.Ran?)
      ensures !flow.Ran? ==> lastStopReason.None?
      ensures flow == Leave <==> old(token.cancelled) || idle == CancelledWaiting || idle == TimedOut(true)
      ensures flow.Ran? <==> idle.Took? && !old(token.cancelled)
      ensures flow.Ran? ==>
                (state == Streaming <==> idle.input.UserInput? || idle.input.SteerInput? || idle.input.ContinueInput?)
      ensures flow.Ran? && !idle.input.CompactInput? ==> trace == old(trace) && lastStopReason.None?
      ensures flow.Ran? && !idle.input.RewindInput? ==> flow.outcome == Ok
      ensures flow == Again ==> (state == Streaming <==> idle == Steered)
      ensures TakesToStream(idle) ==>
                token.cancelled == old(token.cancelled) &&
                (flow.Ran? ==> autoContinueUsed == (old(autoContinueUsed) && idle != Took(UserInput)))
      ensures flow == Leave && !old(token.cancelled) ==> trace == old(trace)
      ensures old(token.cancelled) ==> trace == old(trace)
      ensures state == Idle || state == Streaming
    {
      if token.cancelled {
        return Leave;
      }
      iterations, streamed, attempts, tookInput := 0, 0, 0, false;
      match idle
      case Steered =>
        state := Streaming;
        flow := Again;
      case Took(input) =>
        tookInput := true;
        var outcome := HandleInput(input);
        flow := Ran(outcome);
      case CancelledWaiting =>
        token.Receive(UserCancel);
        flow := Leave;
      case Mail =>
        flow := Again;
      case TimedOut(mailboxEmpty) =>
        flow := if mailboxEmpty then Leave else Again;
    }

    /** The bottom of a round: deal with an error, then catch what bypassed winding down. */
    method FinishRound(outcome: Outcome, settle: Signal, ghost noted: Option<StopReason>) returns (leave: bool)
      requires Tracked() && (noted.Some? ==> StillDue(noted, outcome))
      modifies this`state, this`turnOpen, this`marks, this`lastStopReason, this`trace, this`iterations, token
      ensures Tracked() && Extends(old(trace), trace)
      ensures leave <==> outcome == Err(Quit)
      ensures leave || state == Idle ==> !turnOpen && lastStopReason.None?
      ensures !leave ==> iterations == old(iterations) + 1
      ensures outcome == Ok ==> token.cancelled == old(token.cancelled)
      ensures if outcome == Ok then state == old(state) else leave || state == Idle || state == WindingDown
      ensures outcome == Ok && (state != Idle || (!old(turnOpen) && old(lastStopReason).None?)) ==>
                turnOpen == old(turnOpen) && lastStopReason == old(lastStopReason) && trace == old(trace)
      ensures noted.Some? ==> KeptOrReported(noted)
    {
      leave := false;
      if outcome.Err? {
        token.Receive(settle);
        leave := HandleError(outcome.error);
        if leave {
          return;
        }
      }
      ghost var before := trace;
      CompleteTurnIfNeeded();
      ExtendsOn(old(trace), before, trace);
      iterations := iterations + 1;
    }

    /** One round of the loop. Once the iterations are used up, nothing is streamed any more. */
    method Iterate(r: Round) returns (leave: bool)
      requires AtHead()
      modifies this, token
      ensures Tracked() && Extends(old(trace), trace)
      ensures if leave then !turnOpen && lastStopReason.None? else AtHead()
      ensures old(NotedInTurn()).Some? ==> KeptOrReported(old(NotedInTurn()))
      ensures dropped == old(dropped) + if old(Drops(r)) then 1 else 0
      ensures Steady(r) && old(Clean()) && !leave ==> Clean()
      ensures Rounded(old(Current()), r, Current(), leave)
    {
      ghost var noted, start := NotedInTurn(), Current();
      token.Receive(r.signal);
      if maxIterations > 0 && iterations >= maxIterations && state == Streaming {
        NoteStopped(MaxIterations(maxIterations));
        state := WindingDown;
        return false;
      }
      leave := RunAndFinish(r, noted);
      Signalled(start, r, Current(), leave);
    }

    /** A round within the limit. */
    method RunAndFinish(r: Round, ghost noted: Option<StopReason>) returns (leave: bool)
      requires token.cancelled || r.signal == Quiet
      requires AtHead() && (maxIterations > 0 && state == Streaming ==> iterations < maxIterations) &&
                 noted == NotedInTurn()
      modifies this, token
      ensures Tracked() && Extends(old(trace), trace)
      ensures if leave then !turnOpen && lastStopReason.None? else AtHead()
      ensures noted.Some? ==> KeptOrReported(noted)
      ensures dropped == old(dropped) + if old(Drops(r)) then 1 else 0
      ensures Steady(r) && old(Clean()) && !leave ==> Clean()
      ensures Rounded(old(Current()), r, Current(), leave)
    {
      var flow := RunArm(r, noted);
      if !flow.Ran? {
        return flow == Leave;
      }
      ghost var before := trace;
      leave := FinishRound(flow.outcome, r.settle, noted);
      ExtendsOn(old(trace), before, trace);
    }

    method RunArm(r: Round, ghost noted: Option<StopReason>) returns (flow: Flow)
      requires AtHead() && (maxIterations > 0 && state == Streaming ==> iterations < maxIterations) &&
                 noted == NotedInTurn()
      modifies this, token
      ensures Tracked() && Extends(old(trace), trace)
      ensures flow.Ran? ==> Bounded(1)
      ensures flow == Again ==> AtHead()
      ensures flow == Leave ==> !turnOpen && lastStopReason.None?
      ensures noted.Some? ==> flow.Ran? && StillDue(noted, flow.outcome)
      ensures dropped == old(dropped) + if old(Drops(r)) then 1 else 0
      ensures Steady(r) && old(Clean()) && flow != Leave && (flow.Ran? ==> flow.outcome.Ok?) ==> Clean()
      ensures old(state) == Idle && !old(token.cancelled) && TakesToStream(r.idle) ==>
                && flow == Ran(Ok)
                && Current() == old(Current()).(state := Streaming, iterations := 0, streamed := 0,
                                        continued := old(autoContinueUsed) && r.idle != Took(UserInput))
      ensures old(state) == Idle && old(token.cancelled) ==> flow == Leave && trace == old(trace)
      ensures old(state) == Streaming ==> streamed == old(streamed) + 1
      ensures old(state) == Streaming && Smooth(r.attempts(0)) && !old(token.cancelled) ==>
                flow == Ran(Ok) && ReplyTaken(old(Current()), r, Current())
      ensures old(state) == WindingDown ==>
                && flow == Ran(Ok) && state == Idle && !turnOpen && lastStopReason.None? && streamed == old(streamed)
                && trace == WoundDown(old(trace), old(turnOpen), old(lastStopReason))
      ensures old(state) == Compacting ==> flow == Ran(Ok) && state == WindingDown
      ensures old(state) == ExecutingTool ==> flow == Ran(r.tools.outcome) && state == r.tools.next
    {
      var outcome := Ok;
      match state {
        case Idle =>
          flow := IdleArm(r.idle);
          return;
        case Streaming =>
          outcome := StreamingArm(r);
        case ExecutingTool =>
          outcome := HandleExecuteTool(r.tools);
        case Compacting =>
          state := WindingDown;
        case WindingDown =>
          FinishTurnWindDown();
          state := Idle;
      }
      flow := Ran(outcome);
    }

    /** After an input was taken off the mailbox to be streamed, the next round reaches the Streaming arm if
        and only if the limit is not 1. */
    method TakeAndStream(first: Round, second: Round)
      requires AtHead() && state == Idle && !token.cancelled && first.signal == Quiet && TakesToStream(first.idle)
      modifies this, token
      ensures streamed == if maxIterations == 1 then 0 else 1
      ensures maxIterations == 1 ==>
                && AtHead() && state == WindingDown && !turnOpen && lastStopReason == Some(MaxIterations(1))
                && trace == Then(old(trace), Note(MaxIterations(1)))
    {
      var left := Iterate(first);
      left := Iterate(second);
    }

    /** With a limit of 1 a new agent reports its first input as out of iterations: no turn is started. */
    static method LimitOne(maxRetries: nat, token: CancelToken, first: Round, second: Round, third: Round)
      returns (agent: Agent)
      requires !token.cancelled && first.signal == Quiet && TakesToStream(first.idle)
      modifies token
      ensures agent.state == Idle && agent.streamed == 0
      ensures agent.trace == Then(Then(Start, Note(MaxIterations(1))), Stopped(MaxIterations(1)))
    {
      agent := new Agent(1, maxRetries, token);
      agent.TakeAndStream(first, second);
      var left := agent.Iterate(third);
    }

    /** Any number of rounds, whatever they meet: one after the other, until one leaves or all are done. */
    method StartLoop(script: seq<Round>) returns (left: bool, ghost moments: seq<Moment>)
      requires AtHead()
      modifies this, token
      ensures Tracked() && Extends(old(trace), trace) && Protocol(Events(trace))
      ensures if left then !turnOpen && lastStopReason.None? else AtHead()
      ensures old(Clean()) && (forall k :: 0 <= k < |script| ==> Steady(script[k])) ==> dropped == old(dropped)
      ensures RoundsRun(script, moments, left) && moments[0] == old(Current()) && moments[|moments| - 1] == Current()
    {
      left, moments := false, [Current()];
      ghost var steady := old(Clean()) && forall k :: 0 <= k < |script| ==> Steady(script[k]);
      ProtocolSeen(trace);
      for k := 0 to |script|
        invariant AtHead() && Extends(old(trace), trace) && Protocol(Events(trace))
        invariant steady ==> Clean() && dropped == old(dropped)
        invariant Through(script, moments, k) && moments[0] == old(Current()) && moments[k] == Current()
      {
        ghost var before := trace;
        left := Iterate(script[k]);
        ThroughNext(script, moments, k, Current(), left);
        moments := moments + [Current()];
        ExtendsOn(old(trace), before, trace);
        ProtocolSeen(trace);
        if left {
          return;
        }
      }
    }

    /** A user message that is answered plainly: one turn, reported as completed. */
    static method PlainTurn(maxIterations: nat, maxRetries: nat, token: CancelToken, first: Round, second: Round,
                            third: Round)
      returns (agent: Agent)
      requires maxIterations != 1 && !token.cancelled && first.signal == second.signal == Quiet
      requires first.idle == Took(UserInput) && second.hasUserMessage && Smooth(second.attempts(0))
      requires second.attempts(0).completion == Completion(Some(Stop), false)
      modifies token
      ensures agent.state == Idle
      ensures Events(agent.trace)
           == [TurnStart, Note(Completed(Some(Stop))), TurnEnd(AsCompleted), Stopped(Completed(Some(Stop)))]
    {
      agent := new Agent(maxIterations, maxRetries, token);
      var left := agent.Iterate(first);
      left := agent.Iterate(second);
      left := agent.Iterate(third);
    }
  }

  /** The first n rounds have taken the agent from each moment to the next. */
  ghost predicate Through(script: seq<Round>, moments: seq<Moment>, n: nat) {
    |moments| == n + 1 <= |script| + 1 &&
    forall k :: 0 <= k < n ==> Rounded(moments[k], script[k], moments[k + 1], false)
  }

  /** The rounds have been run, up to the one that left, if any did. */
  ghost predicate RoundsRun(script: seq<Round>, moments: seq<Moment>, left: bool) {
    var n := |moments| - 1;
    if !left then Through(script, moments, |script|)
    else
      && 0 < n <= |script| && Through(script, moments[..n], n - 1)
      && Rounded(moments[n - 1], script[n - 1], moments[n], true)
  }

  lemma {:induction false} ThroughNext(script: seq<Round>, moments: seq<Moment>, n: nat, next: Moment, left: bool)
    requires n < |script| && Through(script, moments, n) && Rounded(moments[n], script[n], next, left)
    ensures if left then RoundsRun(script, moments + [next], true) else Through(script, moments + [next], n + 1)
  {
    assert (moments + [next])[..n + 1] == moments;
  }

  /** Between two Idle rounds an agent with a limit makes no more attempts than the limits allow. */
  lemma {:induction false} RunBounded(agent: Agent)
    requires agent.AtHead() && agent.maxIterations > 0
    ensures agent.streamed <= agent.maxIterations
    ensures agent.attempts <= agent.maxIterations * (agent.maxRetries + 2)
    ensures agent.tookInput && agent.maxIterations == 1 ==> agent.attempts == 0
  {
    FewerRounds(agent.streamed, agent.maxIterations, agent.maxRetries);
    AttemptsAre(agent.maxIterations, agent.maxRetries);
  }
}
