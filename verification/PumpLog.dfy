/** What happens to pumps and windows, one occurrence after the other, and what it leaves a window with
    (crates/gui/src/commands/chat.rs:67-203). The subscription table is not consulted here. */
module PumpLog {

  datatype Occurrence =
    | Told(session: string, subscriber: string, generation: nat)   // `subscribe` returned, on this pump
    | Installed(session: string, generation: nat)                  // the pump became the session's
    | Left(session: string, subscriber: string)                    // `unsubscribe` returned
    | Stopped(generation: nat)                                     // the pump's stream ended, or it crashed
    | CleanedUp(generation: nat)                                   // a stopped pump got the lock

  /** A window is away, or fed by a pump, or was told that it subscribed and has been forgotten since. */
  datatype Place = Away | Fed(generation: nat) | Forgotten

  /** A pump entered for the session feeds those the last one fed; its cleanup forgets those it feeds. */
  function Moved(place: Place, session: string, subscriber: string, o: Occurrence): Place {
    match o
    case Told(s, w, g) => if s == session && w == subscriber then Fed(g) else place
    case Installed(s, g) => if s == session && place.Fed? then Fed(g) else place
    case Left(s, w) => if s == session && w == subscriber then Away else place
    case Stopped(_) => place
    case CleanedUp(g) => if place == Fed(g) then Forgotten else place
  }

  function PlaceOf(log: seq<Occurrence>, session: string, subscriber: string): Place {
    if log == [] then Away
    else Moved(PlaceOf(log[..|log| - 1], session, subscriber), session, subscriber, log[|log| - 1])
  }

  lemma {:induction false} PlaceAppend(log: seq<Occurrence>, o: Occurrence, session: string, subscriber: string)
    ensures PlaceOf(log + [o], session, subscriber) ==
            Moved(PlaceOf(log, session, subscriber), session, subscriber, o)
  {
    assert (log + [o])[..|log|] == log;
  }

  /** It was told so at k, and has not left since. */
  ghost predicate ToldAt(log: seq<Occurrence>, session: string, subscriber: string, k: nat) {
    && k < |log| && log[k].Told? && log[k].session == session && log[k].subscriber == subscriber
    && forall j :: k < j < |log| ==> log[j] != Left(session, subscriber)
  }

  /** The window was told that it subscribed, and has not unsubscribed since. */
  ghost predicate Subscribed(log: seq<Occurrence>, session: string, subscriber: string) {
    exists k: nat :: ToldAt(log, session, subscriber, k)
  }

  lemma {:induction false} SubscribedAppend(log: seq<Occurrence>, o: Occurrence, session: string, subscriber: string)
    ensures Subscribed(log + [o], session, subscriber) <==>
              || (o.Told? && o.session == session && o.subscriber == subscriber)
              || (o != Left(session, subscriber) && Subscribed(log, session, subscriber))
  {
    var more := log + [o];
    if o.Told? && o.session == session && o.subscriber == subscriber {
      assert ToldAt(more, session, subscriber, |log|);
    } else {
      if k: nat :| ToldAt(log, session, subscriber, k) && o != Left(session, subscriber) {
        assert ToldAt(more, session, subscriber, k);
      }
      if k: nat :| ToldAt(more, session, subscriber, k) {
        assert more[|log|] == o && forall j :: k < j < |log| ==> log[j] == more[j];
        assert ToldAt(log, session, subscriber, k);
      }
    }
  }

  lemma {:induction false} ToldLast(log: seq<Occurrence>, session: string, subscriber: string, g: nat)
    ensures Subscribed(log + [Told(session, subscriber, g)], session, subscriber)
  {
    SubscribedAppend(log, Told(session, subscriber, g), session, subscriber);
  }

  lemma {:induction false} StillTold(log: seq<Occurrence>, later: seq<Occurrence>, session: string, subscriber: string)
    requires Subscribed(log, session, subscriber) && Left(session, subscriber) !in later
    ensures Subscribed(log + later, session, subscriber)
  {
    var k: nat :| ToldAt(log, session, subscriber, k);
    assert ToldAt(log + later, session, subscriber, k);
  }

  lemma {:induction false} SubscribedIsPlaced(log: seq<Occurrence>, session: string, subscriber: string)
    ensures Subscribed(log, session, subscriber) <==> !PlaceOf(log, session, subscriber).Away?
  {
    if log != [] {
      var before, o := log[..|log| - 1], log[|log| - 1];
      assert log == before + [o];
      SubscribedIsPlaced(before, session, subscriber);
      SubscribedAppend(before, o, session, subscriber);
    }
  }

  // ---------- when nothing stops ----------

  /** A pump cleans up when it has stopped, and not before. */
  ghost predicate StopsFirst(log: seq<Occurrence>) {
    forall k :: 0 <= k < |log| && log[k].CleanedUp? ==> Stopped(log[k].generation) in log[..k]
  }

  /** The pumps entered for the session from k on, and the one named there. */
  ghost predicate EnteredSince(log: seq<Occurrence>, session: string, k: nat, g: nat) {
    exists j :: k <= j < |log| && (log[j].Told? || log[j].Installed?) && log[j].session == session &&
      log[j].generation == g
  }

  /** The pump that feeds a window, or whose cleanup made it forgotten, was entered since it was told. */
  lemma {:induction false} FedSince(log: seq<Occurrence>, session: string, subscriber: string, k: nat)
    requires ToldAt(log, session, subscriber, k) && StopsFirst(log)
    ensures FedOrForgotten(log, session, k, PlaceOf(log, session, subscriber))
  {
    var before, o := log[..|log| - 1], log[|log| - 1];
    assert log == before + [o];
    if k == |log| - 1 {
      assert EnteredSince(log, session, k, log[k].generation);
    } else {
      StopsFirstBefore(log);
      assert ToldAt(before, session, subscriber, k);
      FedSince(before, session, subscriber, k);
      StillFed(before, o, session, subscriber, k);
    }
  }

  ghost predicate FedOrForgotten(log: seq<Occurrence>, session: string, k: nat, place: Place) {
    match place
    case Away => false
    case Fed(g) => EnteredSince(log, session, k, g)
    case Forgotten => exists g :: EnteredSince(log, session, k, g) && Stopped(g) in log
  }

  lemma {:induction false} StillFed(before: seq<Occurrence>, o: Occurrence, session: string, subscriber: string, k: nat)
    requires k < |before| && o != Left(session, subscriber) && (o.CleanedUp? ==> Stopped(o.generation) in before)
    requires FedOrForgotten(before, session, k, PlaceOf(before, session, subscriber))
    ensures FedOrForgotten(before + [o], session, k, PlaceOf(before + [o], session, subscriber))
  {
    var log := before + [o];
    PlaceAppend(before, o, session, subscriber);
    StillEntered(before, o, session, k);
    assert log[|before|] == o;
    if (o.Told? || o.Installed?) && o.session == session { assert EnteredSince(log, session, k, o.generation); }
  }

  lemma {:induction false} StopsFirstBefore(log: seq<Occurrence>)
    requires log != [] && StopsFirst(log)
    ensures StopsFirst(log[..|log| - 1])
  {
    var before := log[..|log| - 1];
    assert forall k :: 0 <= k < |before| ==> before[k] == log[k] && before[..k] == log[..k];
  }

  lemma {:induction false} StillEntered(before: seq<Occurrence>, o: Occurrence, session: string, k: nat)
    ensures forall g :: EnteredSince(before, session, k, g) ==> EnteredSince(before + [o], session, k, g)
  {
    forall g | EnteredSince(before, session, k, g) ensures EnteredSince(before + [o], session, k, g) {
      var j :| k <= j < |before| && (before[j].Told? || before[j].Installed?) && before[j].session == session
        && before[j].generation == g;
      assert (before + [o])[j] == before[j];
    }
  }

  /** A window is fed by a pump that has not stopped, as long as none entered for its session since it
      was told has. */
  lemma {:induction false} NoStopNoLoss(log: seq<Occurrence>, session: string, subscriber: string, k: nat)
    requires ToldAt(log, session, subscriber, k) && StopsFirst(log)
    requires forall g :: EnteredSince(log, session, k, g) ==> Stopped(g) !in log
    ensures PlaceOf(log, session, subscriber).Fed? && Stopped(PlaceOf(log, session, subscriber).generation) !in log
  {
    FedSince(log, session, subscriber, k);
  }
}
