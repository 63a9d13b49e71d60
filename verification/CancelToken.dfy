/** The resettable cancel token (crates/kernel/src/agent/cancel.rs). */
module CancelToken {
  /** A cancel reaching the token from another task while the agent waits. */
  datatype Signal = Quiet | UserCancel | KernelShutdown

  // ---------- what a sequence of uses leads to ----------

  datatype Use = Cancelling | ShuttingDown | Taking | Resetting

  /** A kernel shutdown has cancelled the token, and nothing has read or reset it since. */
  ghost predicate Attributed(uses: seq<Use>, n: nat) {
    n <= |uses| && exists j :: 0 <= j < n && uses[j] == ShuttingDown && Untouched(uses, j, n)
  }

  predicate Untouched(uses: seq<Use>, j: nat, n: nat)
    requires n <= |uses|
  {
    forall i :: j < i < n ==> uses[i] != Taking && uses[i] != Resetting
  }

  lemma {:induction false} AttributedNext(uses: seq<Use>, n: nat)
    requires n < |uses|
    ensures Attributed(uses, n + 1) <==>
              uses[n] == ShuttingDown || (uses[n] == Cancelling && Attributed(uses, n))
    ensures !Attributed(uses, 0)
  {
    if uses[n] == ShuttingDown { assert Untouched(uses, n, n + 1); }
    if j :| 0 <= j < n && uses[j] == ShuttingDown && Untouched(uses, j, n) {
      assert uses[n] == Cancelling ==> Untouched(uses, j, n + 1);
    }
    if j :| 0 <= j < n + 1 && uses[j] == ShuttingDown && Untouched(uses, j, n + 1) {
      assert j < n ==> Untouched(uses, j, n);
    }
  }

  function ShutdownsIn(uses: seq<Use>, n: nat): nat
    requires n <= |uses|
  {
    if n == 0 then 0 else ShutdownsIn(uses, n - 1) + if uses[n - 1] == ShuttingDown then 1 else 0
  }

  function Trues(taken: seq<bool>): nat {
    if taken == [] then 0 else Trues(taken[..|taken| - 1]) + if taken[|taken| - 1] then 1 else 0
  }

  /** What each take answers. */
  ghost function AnswersGiven(uses: seq<Use>, n: nat): seq<bool>
    requires n <= |uses|
  {
    if n == 0 then []
    else AnswersGiven(uses, n - 1) + if uses[n - 1] == Taking then [Attributed(uses, n - 1)] else []
  }

  /** A shutdown is attributed at most once. */
  lemma {:induction false} AttributedOnce(uses: seq<Use>, n: nat)
    requires n <= |uses|
    ensures Trues(AnswersGiven(uses, n)) + (if Attributed(uses, n) then 1 else 0) <= ShutdownsIn(uses, n)
  {
    if n > 0 {
      var before := AnswersGiven(uses, n - 1);
      AttributedOnce(uses, n - 1);
      AttributedNext(uses, n - 1);
      if uses[n - 1] == Taking {
        assert (before + [Attributed(uses, n - 1)])[..|before|] == before;
      } else {
        assert before + [] == before;
      }
    }
  }

  class CancelToken {
    var cancelled: bool
    /** Was the last cancel made by the kernel shutting down? Reading it clears it. */
    var forShutdown: bool

    constructor ()
      ensures !cancelled && !forShutdown
    {
      cancelled, forShutdown := false, false;
    }

    method Cancel()
      modifies this`cancelled
      ensures cancelled
    {
      cancelled := true;
    }

    method CancelForShutdown()
      modifies this
      ensures cancelled && forShutdown
    {
      forShutdown := true;
      Cancel();
    }

    method TakeForShutdown() returns (was: bool)
      modifies this`forShutdown
      ensures was == old(forShutdown) && !forShutdown
    {
      was, forShutdown := forShutdown, false;
    }

    /** A fresh token, if this one was used up; the attribution goes with it. */
    method ResetIfCancelled()
      modifies this
      ensures !cancelled
      ensures forShutdown == (old(forShutdown) && !old(cancelled))
    {
      if cancelled {
        cancelled, forShutdown := false, false;
      }
    }

    /** Over any uses of a new token, a take answers true exactly when a shutdown was the last to
        touch the attribution, so there are never more such answers than shutdowns. */
    method Run(uses: seq<Use>) returns (taken: seq<bool>)
      requires !cancelled && !forShutdown
      modifies this
      ensures taken == AnswersGiven(uses, |uses|) && Trues(taken) <= ShutdownsIn(uses, |uses|)
      ensures forShutdown == Attributed(uses, |uses|)
    {
      taken := [];
      for k := 0 to |uses|
        invariant taken == AnswersGiven(uses, k) && forShutdown == Attributed(uses, k)
        invariant forShutdown ==> cancelled
      {
        AttributedNext(uses, k);
        match uses[k] {
          case Cancelling => Cancel();
          case ShuttingDown => CancelForShutdown();
          case Taking =>
            var was := TakeForShutdown();
            taken := taken + [was];
          case Resetting => ResetIfCancelled();
        }
      }
      AttributedOnce(uses, |uses|);
    }

    method Receive(signal: Signal)
      modifies this
      ensures cancelled == (old(cancelled) || signal != Quiet)
      ensures forShutdown == (old(forShutdown) || signal == KernelShutdown)
    {
      match signal
      case Quiet =>
      case UserCancel => Cancel();
      case KernelShutdown => CancelForShutdown();
    }
  }
}
