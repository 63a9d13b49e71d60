/** Event pumps shared by the windows of the app (crates/gui/src/commands/chat.rs:67-203,
    crates/gui/src/state.rs:60-83, 162-166). Every critical section under the subscription lock is one
    step; what happens between them, in other windows and in the pumps themselves, may interleave. */
module EventPumps {
  import opened PumpLog

  datatype Stage = Running | Draining | Finished

  /** A spawned task: it forwards events while Running, and waits for the lock to clean up while Draining. */
  datatype Pump = Pump(session: string, stage: Stage, aborted: bool)

  datatype Entry = Entry(generation: nat, subscribers: set<string>)

  /** A `subscribe` in flight: waiting for the kernel, or holding a pump it has yet to commit. */
  datatype Call = Connecting(session: string, subscriber: string) | Holding(session: string, subscriber: string,
    generation: nat)

  datatype Action =
    | Subscribe(call: nat, session: string, subscriber: string)
    | ConnectFailed(call: nat)
    | Spawned(call: nat)
    | Committed(call: nat)
    | Unsubscribe(session: string, subscriber: string)
    | LoopEnded(generation: nat)
    | GotLock(generation: nat)
    | Crashed(generation: nat)
    | AbortTookEffect(generation: nat)

  type Entries = map<string, Entry>
  type Pumps = map<nat, Pump>
  type InFlight = map<nat, Call>

  /** A pump that forwards events and goes on doing so. */
  predicate Live(p: Pump) {
    p.stage == Running && !p.aborted
  }

  predicate Held(calls: InFlight, g: nat) {
    exists c :: c in calls && calls[c].Holding? && calls[c].generation == g
  }

  predicate IsEntry(entries: Entries, pumps: Pumps, g: nat) {
    g in pumps && pumps[g].session in entries && entries[pumps[g].session].generation == g
  }

  // ---------- the invariant ----------

  ghost predicate EntriesSound(entries: Entries, pumps: Pumps) {
    forall s :: s in entries ==>
      && entries[s].subscribers != {}
      && entries[s].generation in pumps && pumps[entries[s].generation].session == s
      && !pumps[entries[s].generation].aborted
  }

  ghost predicate CallsSound(entries: Entries, pumps: Pumps, calls: InFlight) {
    && (forall c :: c in calls && calls[c].Holding? ==>
          && calls[c].generation in pumps && pumps[calls[c].generation].session == calls[c].session
          && !pumps[calls[c].generation].aborted
          && !IsEntry(entries, pumps, calls[c].generation))
    && (forall c, d :: c in calls && d in calls && c != d && calls[c].Holding? && calls[d].Holding? ==>
          calls[c].generation != calls[d].generation)
  }

  /** A live pump is its session's entry, or held by a subscribe in flight. */
  ghost predicate LivePumpsOwned(entries: Entries, pumps: Pumps, calls: InFlight) {
    forall g :: g in pumps && Live(pumps[g]) ==> IsEntry(entries, pumps, g) || Held(calls, g)
  }

  ghost predicate Sound(entries: Entries, generation: nat, pumps: Pumps, calls: InFlight) {
    && (forall g :: g in pumps ==> 0 < g <= generation)
    && EntriesSound(entries, pumps) && CallsSound(entries, pumps, calls) && LivePumpsOwned(entries, pumps, calls)
  }

  /** A pump stays held when only another call changes. */
  lemma {:induction false} StillHeld(calls: InFlight, calls': InFlight, call: nat, g: nat)
    requires forall c :: c in calls && c != call ==> c in calls' && calls'[c] == calls[c]
    requires call in calls && calls[call].Holding? ==> calls[call].generation != g
    ensures Held(calls, g) ==> Held(calls', g)
  {
    if Held(calls, g) {
      var c :| c in calls && calls[c].Holding? && calls[c].generation == g;
      assert c in calls';
    }
  }

  lemma {:induction false} AllStillHeld(calls: InFlight, calls': InFlight, call: nat)
    requires forall c :: c in calls && c != call ==> c in calls' && calls'[c] == calls[c]
    requires call in calls ==> calls[call].Connecting?
    ensures forall g :: Held(calls, g) ==> Held(calls', g)
  {
    forall g ensures Held(calls, g) ==> Held(calls', g) { StillHeld(calls, calls', call, g); }
  }

  function Subscribers(entries: Entries, session: string): set<string> {
    if session in entries then entries[session].subscribers else {}
  }

  /** The pumps once a new one is entered for the session: an unfinished old one is aborted. */
  function Superseded(entries: Entries, pumps: Pumps, session: string): Pumps {
    if session !in entries then pumps
    else
      var g := entries[session].generation;
      if g in pumps && pumps[g].stage != Finished then pumps[g := pumps[g].(aborted := true)] else pumps
  }

  lemma {:induction false} CommitSound(entries: Entries, generation: nat, pumps: Pumps, calls: InFlight, call: nat)
    requires Sound(entries, generation, pumps, calls) && call in calls && calls[call].Holding?
    ensures var Holding(session, subscriber, g) := calls[call];
            Sound(entries[session := Entry(g, Subscribers(entries, session) + {subscriber})], generation,
                  Superseded(entries, pumps, session), calls - {call})
  {
    var Holding(session, subscriber, g) := calls[call];
    var entries' := entries[session := Entry(g, Subscribers(entries, session) + {subscriber})];
    var pumps', calls' := Superseded(entries, pumps, session), calls - {call};
    assert EntriesSound(entries', pumps');
    assert CallsSound(entries', pumps', calls');
    forall k | k in pumps' && Live(pumps'[k]) ensures IsEntry(entries', pumps', k) || Held(calls', k) {
      if k != g { StillHeld(calls, calls', call, k); }
    }
  }

  /** The entries without that window, and the pumps: the last window takes entry and pump along. */
  function WithoutWindow(entries: Entries, session: string, subscriber: string): Entries {
    if session !in entries then entries
    else
      var fewer := entries[session].subscribers - {subscriber};
      if fewer == {} then entries - {session} else entries[session := entries[session].(subscribers := fewer)]
  }

  function Unfed(entries: Entries, pumps: Pumps, session: string, subscriber: string): Pumps {
    if session in entries && entries[session].subscribers - {subscriber} == {} && entries[session].generation in pumps
    then pumps[entries[session].generation := pumps[entries[session].generation].(aborted := true)]
    else pumps
  }

  /** The entries without that of a generation. */
  function Evicted(entries: Entries, g: nat): Entries {
    map s | s in entries && entries[s].generation != g :: entries[s]
  }

  lemma {:induction false} LeaveSound(entries: Entries, generation: nat, pumps: Pumps, calls: InFlight,
                                      session: string, subscriber: string)
    requires Sound(entries, generation, pumps, calls)
    ensures Sound(WithoutWindow(entries, session, subscriber), generation,
                  Unfed(entries, pumps, session, subscriber), calls)
  {
    var entries', pumps' := WithoutWindow(entries, session, subscriber), Unfed(entries, pumps, session, subscriber);
    assert EntriesSound(entries', pumps') && CallsSound(entries', pumps', calls);
  }

  lemma {:induction false} CleanUpSound(entries: Entries, generation: nat, pumps: Pumps, calls: InFlight, g: nat)
    requires Sound(entries, generation, pumps, calls) && g in pumps && pumps[g].stage == Draining
    ensures Sound(Evicted(entries, g), generation, pumps[g := pumps[g].(stage := Finished)], calls)
    ensures var s := pumps[g].session;
            Evicted(entries, g) == if s in entries && entries[s].generation == g then entries - {s} else entries
  {
    var s := pumps[g].session;
    assert forall o :: o in entries && entries[o].generation == g ==> o == s;
  }

  // ---------- what the table knows of the windows ----------

  /** The table holds exactly the windows that a pump feeds, under that pump; a pump that nobody has
      aborted runs until it stops. */
  ghost predicate Recorded(entries: Entries, pumps: Pumps, log: seq<Occurrence>) {
    && (forall s, w :: PlaceOf(log, s, w).Fed? ==>
          s in entries && w in entries[s].subscribers && PlaceOf(log, s, w).generation == entries[s].generation)
    && (forall s, w :: s in entries && w in entries[s].subscribers ==> PlaceOf(log, s, w).Fed?)
    && (forall g :: g in pumps && !pumps[g].aborted ==> (pumps[g].stage == Running <==> Stopped(g) !in log))
    && (forall g :: g in pumps && pumps[g].stage == Draining ==> Stopped(g) in log)
    && (forall g :: Stopped(g) in log ==> g in pumps)
    && StopsFirst(log)
  }

  /** Nobody is untold, and the window is told. */
  ghost predicate TellsOn(before: seq<Occurrence>, after: seq<Occurrence>, session: string, subscriber: string) {
    Subscribed(after, session, subscriber) && AllTold(before, after)
  }

  ghost predicate AllTold(before: seq<Occurrence>, after: seq<Occurrence>) {
    forall s, w :: Subscribed(before, s, w) ==> Subscribed(after, s, w)
  }

  lemma {:induction false} ToldTells(log: seq<Occurrence>, session: string, subscriber: string, g: nat)
    ensures TellsOn(log, log + [Told(session, subscriber, g)], session, subscriber)
  {
    ToldLast(log, session, subscriber, g);
    forall s, w | Subscribed(log, s, w) ensures Subscribed(log + [Told(session, subscriber, g)], s, w) {
      StillTold(log, [Told(session, subscriber, g)], s, w);
    }
  }

  lemma {:induction false} InstalledTells(log: seq<Occurrence>, session: string, subscriber: string, g: nat)
    ensures TellsOn(log, log + [Installed(session, g)] + [Told(session, subscriber, g)], session, subscriber)
  {
    ToldTells(log + [Installed(session, g)], session, subscriber, g);
    forall s, w | Subscribed(log, s, w) ensures Subscribed(log + [Installed(session, g)], s, w) {
      StillTold(log, [Installed(session, g)], s, w);
    }
  }

  lemma {:induction false} StopTells(log: seq<Occurrence>, g: nat)
    ensures AllTold(log, log + [Stopped(g)]) && AllTold(log, log + [CleanedUp(g)])
  {
    forall s, w | Subscribed(log, s, w)
      ensures Subscribed(log + [Stopped(g)], s, w) && Subscribed(log + [CleanedUp(g)], s, w)
    {
      StillTold(log, [Stopped(g)], s, w);
      StillTold(log, [CleanedUp(g)], s, w);
    }
  }

  lemma {:induction false} RecordedTold(entries: Entries, pumps: Pumps, log: seq<Occurrence>, session: string,
                                        subscriber: string)
    requires Recorded(entries, pumps, log) && session in entries
    ensures var entry := entries[session];
            Recorded(entries[session := entry.(subscribers := entry.subscribers + {subscriber})], pumps,
                     log + [Told(session, subscriber, entry.generation)])
  {
    var o := Told(session, subscriber, entries[session].generation);
    LogKept(log, o);
    forall s, w ensures PlaceOf(log + [o], s, w) == Moved(PlaceOf(log, s, w), s, w, o) { PlaceAppend(log, o, s, w); }
  }

  /** What one more occurrence leaves of the stops. */
  lemma {:induction false} LogKept(log: seq<Occurrence>, o: Occurrence)
    requires StopsFirst(log) && (o.CleanedUp? ==> Stopped(o.generation) in log)
    ensures StopsFirst(log + [o])
    ensures forall g :: Stopped(g) in log + [o] <==> Stopped(g) in log || o == Stopped(g)
  {
    var more := log + [o];
    assert more[..|log|] == log;
    assert forall k :: 0 <= k < |log| ==> more[k] == log[k] && more[..k] == log[..k];
  }

  lemma {:induction false} RecordedInstalled(entries: Entries, pumps: Pumps, log: seq<Occurrence>, session: string,
                                             g: nat)
    requires Recorded(entries, pumps, log)
    ensures Recorded(entries[session := Entry(g, Subscribers(entries, session))], Superseded(entries, pumps, session),
                     log + [Installed(session, g)])
  {
    var o := Installed(session, g);
    LogKept(log, o);
    forall s, w ensures PlaceOf(log + [o], s, w) == Moved(PlaceOf(log, s, w), s, w, o) { PlaceAppend(log, o, s, w); }
  }

  lemma {:induction false} RecordedCommit(entries: Entries, pumps: Pumps, log: seq<Occurrence>, session: string,
                                          subscriber: string, g: nat)
    requires Recorded(entries, pumps, log)
    ensures Recorded(entries[session := Entry(g, Subscribers(entries, session) + {subscriber})],
                     Superseded(entries, pumps, session),
                     log + [Installed(session, g)] + [Told(session, subscriber, g)])
  {
    var entries' := entries[session := Entry(g, Subscribers(entries, session))];
    RecordedInstalled(entries, pumps, log, session, g);
    RecordedTold(entries', Superseded(entries, pumps, session), log + [Installed(session, g)], session, subscriber);
    var more := Subscribers(entries, session) + {subscriber};
    assert entries'[session := Entry(g, more)] == entries[session := Entry(g, more)];
  }

  lemma {:induction false} RecordedLeft(entries: Entries, pumps: Pumps, log: seq<Occurrence>, session: string,
                                        subscriber: string)
    requires Recorded(entries, pumps, log)
    ensures Recorded(WithoutWindow(entries, session, subscriber), Unfed(entries, pumps, session, subscriber),
                     log + [Left(session, subscriber)])
  {
    var o := Left(session, subscriber);
    LogKept(log, o);
    forall s, w
      ensures PlaceOf(log + [o], s, w) == Moved(PlaceOf(log, s, w), s, w, o)
      ensures w != subscriber && s in entries && w in entries[s].subscribers ==>
                w in entries[s].subscribers - {subscriber}
    {
      PlaceAppend(log, o, s, w);
    }
  }

  lemma {:induction false} RecordedStopped(entries: Entries, pumps: Pumps, log: seq<Occurrence>, g: nat, stage: Stage)
    requires Recorded(entries, pumps, log) && g in pumps && stage != Running
    ensures Recorded(entries, pumps[g := pumps[g].(stage := stage)], log + [Stopped(g)])
  {
    var o := Stopped(g);
    LogKept(log, o);
    forall s, w ensures PlaceOf(log + [o], s, w) == PlaceOf(log, s, w) { PlaceAppend(log, o, s, w); }
  }

  lemma {:induction false} RecordedCleanUp(entries: Entries, generation: nat, pumps: Pumps, calls: InFlight,
                                           log: seq<Occurrence>, g: nat)
    requires Sound(entries, generation, pumps, calls) && Recorded(entries, pumps, log)
    requires g in pumps && pumps[g].stage == Draining
    ensures Recorded(Evicted(entries, g), pumps[g := pumps[g].(stage := Finished)], log + [CleanedUp(g)])
  {
    var o := CleanedUp(g);
    LogKept(log, o);
    forall s, w
      ensures PlaceOf(log + [o], s, w) == if PlaceOf(log, s, w) == Fed(g) then Forgotten else PlaceOf(log, s, w)
    {
      PlaceAppend(log, o, s, w);
    }
  }

  /** The window is in its session's entry, and that pump is live. */
  predicate Follows(entries: Entries, pumps: Pumps, session: string, subscriber: string) {
    && session in entries && subscriber in entries[session].subscribers
    && entries[session].generation in pumps && Live(pumps[entries[session].generation])
  }

  /** A window that was told so follows a live pump if and only if the last pump entered for it has not
      stopped, and it was not forgotten in the cleanup of one before. */
  lemma {:induction false} FollowsIff(entries: Entries, generation: nat, pumps: Pumps, calls: InFlight,
                                      log: seq<Occurrence>, session: string, subscriber: string)
    requires Sound(entries, generation, pumps, calls) && Recorded(entries, pumps, log)
    requires Subscribed(log, session, subscriber)
    ensures Follows(entries, pumps, session, subscriber) <==>
              match PlaceOf(log, session, subscriber)
              case Fed(g) => Stopped(g) !in log
              case _ => false
  {
    SubscribedIsPlaced(log, session, subscriber);
  }

  /** It does so as long as no pump has stopped that was entered for its session since it was told. */
  lemma {:induction false} FollowsUndisturbed(entries: Entries, generation: nat, pumps: Pumps, calls: InFlight,
                                              log: seq<Occurrence>, session: string, subscriber: string, k: nat)
    requires Sound(entries, generation, pumps, calls) && Recorded(entries, pumps, log)
    requires ToldAt(log, session, subscriber, k)
    requires forall g :: EnteredSince(log, session, k, g) ==> Stopped(g) !in log
    ensures Follows(entries, pumps, session, subscriber)
  {
    NoStopNoLoss(log, session, subscriber, k);
    FollowsIff(entries, generation, pumps, calls, log, session, subscriber);
  }

  // ---------- what it means ----------

  function LiveOf(pumps: Pumps, session: string): set<nat> {
    set g | g in pumps && pumps[g].session == session && Live(pumps[g])
  }

  function HoldersOf(calls: InFlight, session: string): set<nat> {
    set c | c in calls && calls[c].Holding? && calls[c].session == session
  }

  lemma {:induction false} SmallImage(cs: set<nat>, gs: set<nat>, f: map<nat, nat>)
    requires forall g :: g in gs ==> exists c :: c in cs && c in f && f[c] == g
    ensures |gs| <= |cs|
  {
    if gs != {} {
      var g :| g in gs;
      var c :| c in cs && c in f && f[c] == g;
      forall g' | g' in gs - {g} ensures exists c' :: c' in cs - {c} && c' in f && f[c'] == g' {
        var c' :| c' in cs && c' in f && f[c'] == g';
        assert c' != c;
      }
      SmallImage(cs - {c}, gs - {g}, f);
    }
  }

  /** No session has more live pumps than subscribes that hold one for it, and one besides: with
      none in flight there is at most one. A pump whose abort has yet to take effect is not counted. */
  lemma {:induction false} FewLivePumps(entries: Entries, generation: nat, pumps: Pumps, calls: InFlight,
                                        session: string)
    requires Sound(entries, generation, pumps, calls)
    ensures |LiveOf(pumps, session)| <= |HoldersOf(calls, session)| + if session in entries then 1 else 0
  {
    var holders, live := HoldersOf(calls, session), LiveOf(pumps, session);
    var entered := if session in entries then {entries[session].generation} else {};
    var f := map c | c in holders :: calls[c].generation;
    forall g | g in live - entered ensures exists c :: c in holders && c in f && f[c] == g {
      assert !IsEntry(entries, pumps, g);
      var c :| c in calls && calls[c].Holding? && calls[c].generation == g;
      assert c in holders;
    }
    SmallImage(holders, live - entered, f);
    assert live <= (live - entered) + entered;
    UnionSize(live, live - entered, entered);
  }

  lemma {:induction false} UnionSize(s: set<nat>, a: set<nat>, b: set<nat>)
    requires s <= a + b
    ensures |s| <= |a| + |b|
  {
    SubsetSize(s, a + b);
    assert |a + b| == |a| + |b| - |a * b|;
  }

  lemma {:induction false} SubsetSize(s: set<nat>, t: set<nat>)
    requires s <= t
    ensures |s| <= |t|
  {
    if s != {} {
      var x :| x in s;
      SubsetSize(s - {x}, t - {x});
    }
  }

  // ---------- what each action leads to ----------

  datatype World = World(entries: Entries, generation: nat, pumps: Pumps, calls: InFlight)

  /** Actions that cannot happen leave everything as it is. */
  function AfterAction(w: World, action: Action): World {
    match action
    case Subscribe(call, s, who) =>
      if call in w.calls then w
      else if s in w.entries && w.entries[s].generation in w.pumps
        && w.pumps[w.entries[s].generation].stage != Finished
      then w.(entries := w.entries[s := w.entries[s].(subscribers := w.entries[s].subscribers + {who})])
      else w.(calls := w.calls[call := Connecting(s, who)])
    case ConnectFailed(call) =>
      if call in w.calls && w.calls[call].Connecting? then w.(calls := w.calls - {call}) else w
    case Spawned(call) =>
      if call in w.calls && w.calls[call].Connecting? then
        var g, s, who := w.generation + 1, w.calls[call].session, w.calls[call].subscriber;
        World(w.entries, g, w.pumps[g := Pump(s, Running, false)], w.calls[call := Holding(s, who, g)])
      else w
    case Committed(call) =>
      if call in w.calls && w.calls[call].Holding? then
        var Holding(s, who, g) := w.calls[call];
        World(w.entries[s := Entry(g, Subscribers(w.entries, s) + {who})], w.generation,
              Superseded(w.entries, w.pumps, s), w.calls - {call})
      else w
    case Unsubscribe(s, who) =>
      w.(entries := WithoutWindow(w.entries, s, who), pumps := Unfed(w.entries, w.pumps, s, who))
    case LoopEnded(g) => if g in w.pumps && w.pumps[g].stage == Running then Moving(w, g, Draining) else w
    case GotLock(g) =>
      if g in w.pumps && w.pumps[g].stage == Draining
      then Moving(w, g, Finished).(entries := Evicted(w.entries, g)) else w
    case Crashed(g) => if g in w.pumps then Moving(w, g, Finished) else w
    case AbortTookEffect(g) => if g in w.pumps && w.pumps[g].aborted then Moving(w, g, Finished) else w
  }

  function Moving(w: World, g: nat, stage: Stage): World
    requires g in w.pumps
  {
    w.(pumps := w.pumps[g := w.pumps[g].(stage := stage)])
  }

  function AfterAll(w: World, schedule: seq<Action>): World {
    if schedule == [] then w else AfterAction(AfterAll(w, schedule[..|schedule| - 1]), schedule[|schedule| - 1])
  }

  lemma {:induction false} AfterOneMore(w: World, schedule: seq<Action>, k: nat)
    requires k < |schedule|
    ensures AfterAll(w, schedule[..k + 1]) == AfterAction(AfterAll(w, schedule[..k]), schedule[k])
  {
    assert schedule[..k + 1][..k] == schedule[..k];
  }

  class AppState {
    var subscriptions: Entries
    var generation: nat
    /** The tasks spawned so far and the subscribes in flight. */
    var pumps: Pumps
    var calls: InFlight
    /** What has happened so far. */
    ghost var log: seq<Occurrence>

    constructor ()
      ensures Valid() && Blank()
    {
      subscriptions, generation, pumps, calls, log := map[], 0, map[], map[], [];
    }

    ghost predicate Valid() reads this {
      Sound(subscriptions, generation, pumps, calls) && Recorded(subscriptions, pumps, log)
    }

    function Now(): World reads this {
      World(subscriptions, generation, pumps, calls)
    }

    /** The window follows a live pump. */
    predicate Following(session: string, subscriber: string) reads this {
      Follows(subscriptions, pumps, session, subscriber)
    }

    /** It was told that it subscribed and has not left, but follows none. */
    ghost predicate Deceived(session: string, subscriber: string) reads this {
      Subscribed(log, session, subscriber) && !Following(session, subscriber)
    }

    predicate IsFinished(g: nat)
      requires g in pumps
      reads this
    {
      pumps[g].stage == Finished
    }

    /** First section of `subscribe`: join the session's pump unless it has finished. */
    method Join(call: nat, session: string, subscriber: string) returns (joined: bool)
      requires Valid() && call !in calls
      modifies this`subscriptions, this`calls, this`log
      ensures Valid()
      ensures joined <==> session in old(subscriptions) && !IsFinished(old(subscriptions)[session].generation)
      ensures joined ==>
                && calls == old(calls)
                && log == old(log) + [Told(session, subscriber, old(subscriptions)[session].generation)]
                && var entry := old(subscriptions)[session];
                   var more := entry.subscribers + {subscriber};
                   subscriptions == old(subscriptions)[session := entry.(subscribers := more)]
      ensures joined ==> (Live(pumps[subscriptions[session].generation]) <==>
                pumps[subscriptions[session].generation].stage != Draining)
      ensures !joined ==>
                && log == old(log) && subscriptions == old(subscriptions)
                && calls == old(calls)[call := Connecting(session, subscriber)]
    {
      if session in subscriptions {
        var entry := subscriptions[session];
        if !IsFinished(entry.generation) {
          RecordedTold(subscriptions, pumps, log, session, subscriber);
          subscriptions := subscriptions[session := entry.(subscribers := entry.subscribers + {subscriber})];
          log := log + [Told(session, subscriber, entry.generation)];
          return true;
        }
      }
      AllStillHeld(calls, calls[call := Connecting(session, subscriber)], call);
      calls := calls[call := Connecting(session, subscriber)];
      joined := false;
    }

    method FailToConnect(call: nat)
      requires Valid() && call in calls && calls[call].Connecting?
      modifies this`calls
      ensures Valid() && calls == old(calls) - {call}
    {
      AllStillHeld(calls, calls - {call}, call);
      calls := calls - {call};
    }

    /** The kernel answered: a new generation's pump runs before it is entered. */
    method Spawn(call: nat)
      requires Valid() && call in calls && calls[call].Connecting?
      modifies this`generation, this`pumps, this`calls
      ensures Valid() && generation == old(generation) + 1
      ensures generation !in old(pumps) &&
                pumps == old(pumps)[generation := Pump(old(calls)[call].session, Running, false)]
      ensures calls == old(calls)[call := Holding(old(calls)[call].session, old(calls)[call].subscriber, generation)]
    {
      generation := generation + 1;
      pumps := pumps[generation := Pump(calls[call].session, Running, false)];
      calls := calls[call := Holding(calls[call].session, calls[call].subscriber, generation)];
      AllStillHeld(old(calls), calls, call);
      assert calls[call].generation == generation;
    }

    method Abort(g: nat)
      requires g in pumps
      modifies this`pumps
      ensures pumps == old(pumps)[g := old(pumps)[g].(aborted := true)]
    {
      pumps := pumps[g := pumps[g].(aborted := true)];
    }

    /** Second section of `subscribe`: enter the pump. A pump entered meanwhile, unless finished, is
        aborted; the session's other subscribers stay. */
    method Commit(call: nat)
      requires Valid() && call in calls && calls[call].Holding?
      modifies this`subscriptions, this`pumps, this`calls, this`log
      ensures Valid() && calls == old(calls) - {call}
      ensures var Holding(session, subscriber, g) := old(calls)[call];
              && subscriptions ==
                old(subscriptions)[session := Entry(g, Subscribers(old(subscriptions), session) + {subscriber})]
              && pumps == Superseded(old(subscriptions), old(pumps), session)
              && log == old(log) + [Installed(session, g)] + [Told(session, subscriber, g)]
              && (Live(pumps[g]) <==> old(pumps)[g].stage == Running)
    {
      var Holding(session, subscriber, g) := calls[call];
      CommitSound(subscriptions, generation, pumps, calls, call);
      RecordedCommit(subscriptions, pumps, log, session, subscriber, g);
      if session in subscriptions {
        var entry := subscriptions[session];
        if !IsFinished(entry.generation) {
          Abort(entry.generation);
        }
        subscriptions := subscriptions[session := Entry(g, entry.subscribers + {subscriber})];
      } else {
        subscriptions := subscriptions[session := Entry(g, {} + {subscriber})];
      }
      calls := calls - {call};
      log := log + [Installed(session, g)] + [Told(session, subscriber, g)];
    }

    /** `unsubscribe`: the last subscriber to leave takes the entry and its pump along. */
    method Leave(session: string, subscriber: string)
      requires Valid()
      modifies this`subscriptions, this`pumps, this`log
      ensures Valid() && log == old(log) + [Left(session, subscriber)]
      ensures session !in old(subscriptions) ==> subscriptions == old(subscriptions) && pumps == old(pumps)
      ensures session in old(subscriptions) ==>
                var entry := old(subscriptions)[session];
                if entry.subscribers - {subscriber} == {} then
                  && subscriptions == old(subscriptions) - {session}
                  && pumps == old(pumps)[entry.generation := old(pumps)[entry.generation].(aborted := true)]
                else
                  && subscriptions ==
                    old(subscriptions)[session := entry.(subscribers := entry.subscribers - {subscriber})]
                  && pumps == old(pumps)
    {
      LeaveSound(subscriptions, generation, pumps, calls, session, subscriber);
      RecordedLeft(subscriptions, pumps, log, session, subscriber);
      log := log + [Left(session, subscriber)];
      if session in subscriptions {
        var entry := subscriptions[session].(subscribers := subscriptions[session].subscribers - {subscriber});
        if entry.subscribers == {} {
          subscriptions := subscriptions - {session};
          Abort(entry.generation);
        } else {
          subscriptions := subscriptions[session := entry];
        }
      }
    }

    /** A pump stops: its stream ended, or it crashed. */
    method Stop(g: nat, stage: Stage)
      requires Valid() && g in pumps && stage != Running
      modifies this`pumps, this`log
      ensures Valid() && pumps == old(pumps)[g := old(pumps)[g].(stage := stage)] && log == old(log) + [Stopped(g)]
    {
      RecordedStopped(subscriptions, pumps, log, g, stage);
      pumps := pumps[g := pumps[g].(stage := stage)];
      log := log + [Stopped(g)];
    }

    /** An abort takes effect. */
    method FinishAborted(g: nat)
      requires Valid() && g in pumps && pumps[g].aborted
      modifies this`pumps
      ensures Valid() && pumps == old(pumps)[g := old(pumps)[g].(stage := Finished)]
    {
      pumps := pumps[g := pumps[g].(stage := Finished)];
    }

    /** The cleanup at the end of a pump: it evicts no entry but its own generation's. */
    method CleanUp(g: nat)
      requires Valid() && g in pumps && pumps[g].stage == Draining
      modifies this`subscriptions, this`pumps, this`log
      ensures Valid() && pumps == old(pumps)[g := old(pumps)[g].(stage := Finished)]
      ensures log == old(log) + [CleanedUp(g)]
      ensures subscriptions == Evicted(old(subscriptions), g)
    {
      CleanUpSound(subscriptions, generation, pumps, calls, g);
      RecordedCleanUp(subscriptions, generation, pumps, calls, log, g);
      var session := pumps[g].session;
      if session in subscriptions && subscriptions[session].generation == g {
        subscriptions := subscriptions - {session};
      }
      pumps := pumps[g := pumps[g].(stage := Finished)];
      log := log + [CleanedUp(g)];
    }

    ghost predicate Blank() reads this {
      generation == 0 && subscriptions == map[] && pumps == map[] && calls == map[] && log == []
    }

    // ---------- windows that are told so, and follow no pump ----------

    /** A window that joins a pump whose stream has ended, but which still waits for the lock, is told
        that it subscribed; the cleanup then evicts it with the entry. */
    method JoinTooLate(call: nat, session: string, subscriber: string)
      requires Valid() && call !in calls
      requires session in subscriptions && pumps[subscriptions[session].generation].stage == Draining
      modifies this`subscriptions, this`calls, this`pumps, this`log
      ensures Valid() && subscriptions == old(subscriptions) - {session} && calls == old(calls)
      ensures Deceived(session, subscriber) && AllTold(old(log), log)
    {
      JoinDraining(call, session, subscriber);
      ghost var joinedLog := log;
      CleanUpOf(session);
      assert AllTold(joinedLog, log);
    }

    /** The session's pump has stopped, but the window is told so all the same. */
    method JoinDraining(call: nat, session: string, subscriber: string)
      requires Valid() && call !in calls
      requires session in subscriptions && pumps[subscriptions[session].generation].stage == Draining
      modifies this`subscriptions, this`calls, this`log
      ensures Valid() && calls == old(calls)
      ensures session in subscriptions && pumps[subscriptions[session].generation].stage == Draining
      ensures subscriptions - {session} == old(subscriptions) - {session}
      ensures TellsOn(old(log), log, session, subscriber)
    {
      ghost var g := subscriptions[session].generation;
      var joined := Join(call, session, subscriber);
      ToldTells(old(log), session, subscriber, g);
    }

    /** The cleanup of a session's pump takes its entry, and tells nobody. */
    method CleanUpOf(session: string)
      requires Valid() && session in subscriptions && pumps[subscriptions[session].generation].stage == Draining
      modifies this`subscriptions, this`pumps, this`log
      ensures Valid() && subscriptions == old(subscriptions) - {session} && AllTold(old(log), log)
    {
      StopTells(log, subscriptions[session].generation);
      CleanUpSound(subscriptions, generation, pumps, calls, subscriptions[session].generation);
      CleanUp(subscriptions[session].generation);
    }

    /** The first subscribe, up to where it holds its pump, and to its end. */
    method HoldFirst(session: string, subscriber: string)
      requires Valid() && Blank()
      modifies this
      ensures Valid() && generation == 1 && subscriptions == map[] && log == []
      ensures pumps == map[1 := Pump(session, Running, false)] && calls == map[0 := Holding(session, subscriber, 1)]
    {
      var joined := Join(0, session, subscriber);
      Spawn(0);
    }

    /** The subscribe of that call returns. */
    method CommitTold(call: nat)
      requires Valid() && call in calls && calls[call].Holding?
      modifies this`subscriptions, this`pumps, this`calls, this`log
      ensures Valid() && calls == old(calls) - {call}
      ensures var Holding(session, subscriber, g) := old(calls)[call];
              && subscriptions ==
                old(subscriptions)[session := Entry(g, Subscribers(old(subscriptions), session) + {subscriber})]
              && pumps == Superseded(old(subscriptions), old(pumps), session)
              && TellsOn(old(log), log, session, subscriber)
    {
      ghost var Holding(session, subscriber, g) := calls[call];
      Commit(call);
      InstalledTells(old(log), session, subscriber, g);
    }

    /** The first subscribe is through. */
    method CommitFirst(session: string, subscriber: string)
      requires Valid() && subscriptions == map[] && 0 in calls && calls[0] == Holding(session, subscriber, 1)
      modifies this`subscriptions, this`pumps, this`calls, this`log
      ensures Valid() && calls == old(calls) - {0} && pumps == old(pumps)
      ensures subscriptions == map[session := Entry(1, {subscriber})] && TellsOn(old(log), log, session, subscriber)
    {
      CommitTold(0);
      assert {} + {subscriber} == {subscriber};
    }

    /** A first window subscribes, its stream ends, and a second one joins before the pump has cleaned up.
        Both are gone, and no subscribe is in flight to bring them back. */
    static method BothGone(session: string, early: string, late: string) returns (state: AppState)
      ensures state.Valid() && state.subscriptions == map[] && state.calls == map[]
      ensures state.Deceived(session, early) && state.Deceived(session, late)
    {
      state := new AppState();
      state.HoldFirst(session, early);
      state.CommitFirst(session, early);
      StopTells(state.log, 1);
      state.Stop(1, Draining);
      state.JoinTooLate(1, session, late);
    }

    /** A stream that ends before its pump is entered, and whose cleanup comes after. */
    static method EndedBeforeCommit(session: string, subscriber: string) returns (state: AppState)
      ensures state.Valid() && state.subscriptions == map[] && state.calls == map[]
      ensures state.Deceived(session, subscriber)
    {
      state := new AppState();
      state.HoldFirst(session, subscriber);
      state.Stop(1, Draining);
      state.CommitFirst(session, subscriber);
      state.CleanUpOf(session);
    }

    /** A pump that crashes before it is entered: the entry stays, with nothing behind it. */
    static method CrashedBeforeCommit(session: string, subscriber: string) returns (state: AppState)
      ensures state.Valid() && state.subscriptions == map[session := Entry(1, {subscriber})] && state.calls == map[]
      ensures LiveOf(state.pumps, session) == {} && state.Deceived(session, subscriber)
    {
      state := new AppState();
      state.HoldFirst(session, subscriber);
      state.Stop(1, Finished);
      state.CommitFirst(session, subscriber);
    }

    /** Two subscribes race; the pump of the second has stopped when it is entered, and takes the place of
        the live one. */
    static method StoppedReplacesLive(session: string, early: string, late: string) returns (state: AppState)
      ensures state.Valid() && state.subscriptions == map[] && state.calls == map[]
      ensures state.Deceived(session, early) && state.Deceived(session, late)
    {
      state := new AppState();
      state.Race(session, early, late);
      StopTells(state.log, 2);
      state.Stop(2, Draining);
      state.CommitTold(1);
      state.CleanUpOf(session);
    }

    /** A pump that has stopped does no harm when another is entered before it has cleaned up. */
    static method Rescued(session: string, early: string, late: string) returns (state: AppState)
      ensures state.Valid() && Stopped(1) in state.log && PlaceOf(state.log, session, early) == Fed(2)
      ensures state.Following(session, early) && state.Following(session, late)
    {
      state := new AppState();
      state.Race(session, early, late);
      state.Stop(1, Draining);
      state.Commit(1);
    }

    /** The first of two subscribes that race is through, with a live pump, and the second holds another. */
    method Race(session: string, early: string, late: string)
      requires Valid() && Blank()
      modifies this
      ensures Valid() && calls == map[1 := Holding(session, late, 2)]
      ensures subscriptions == map[session := Entry(1, {early})]
      ensures pumps == map[1 := Pump(session, Running, false), 2 := Pump(session, Running, false)]
      ensures Subscribed(log, session, early)
    {
      HoldFirst(session, early);
      JoinNone(1, session, late);
      CommitFirst(session, early);
      Spawn(1);
    }

    /** Nothing to join: the subscribe goes on to connect. */
    method JoinNone(call: nat, session: string, subscriber: string)
      requires Valid() && call !in calls && session !in subscriptions
      modifies this`subscriptions, this`calls, this`log
      ensures Valid() && subscriptions == old(subscriptions) && log == old(log)
      ensures calls == old(calls)[call := Connecting(session, subscriber)]
    {
      var joined := Join(call, session, subscriber);
    }

    // ---------- any schedule ----------

    /** Whatever the windows, the kernel and the pumps do next, if they can. */
    method Step(action: Action)
      requires Valid()
      modifies this
      ensures Valid() && Now() == AfterAction(old(Now()), action)
      ensures !action.LoopEnded? && !action.Crashed? ==> forall g :: Stopped(g) in log ==> Stopped(g) in old(log)
    {
      match action
      case Subscribe(_, _, _) | ConnectFailed(_) | Spawned(_) | Committed(_) =>
        StepCall(action);
      case Unsubscribe(session, subscriber) =>
        Leave(session, subscriber);
      case LoopEnded(_) | GotLock(_) | Crashed(_) | AbortTookEffect(_) =>
        StepPump(action);
    }

    method StepCall(action: Action)
      requires Valid() && (action.Subscribe? || action.ConnectFailed? || action.Spawned? || action.Committed?)
      modifies this
      ensures Valid() && Now() == AfterAction(old(Now()), action)
      ensures forall g :: Stopped(g) in log ==> Stopped(g) in old(log)
    {
      match action
      case Subscribe(call, session, subscriber) =>
        if call !in calls { var _ := Join(call, session, subscriber); }
      case ConnectFailed(call) =>
        if call in calls && calls[call].Connecting? { FailToConnect(call); }
      case Spawned(call) =>
        if call in calls && calls[call].Connecting? { Spawn(call); }
      case Committed(call) =>
        if call in calls && calls[call].Holding? { Commit(call); }
    }

    method StepPump(action: Action)
      requires Valid() && (action.LoopEnded? || action.GotLock? || action.Crashed? || action.AbortTookEffect?)
      modifies this`pumps, this`subscriptions, this`log
      ensures Valid() && Now() == AfterAction(old(Now()), action)
      ensures !action.LoopEnded? && !action.Crashed? ==> forall g :: Stopped(g) in log ==> Stopped(g) in old(log)
    {
      match action
      case LoopEnded(g) =>
        if g in pumps && pumps[g].stage == Running { Stop(g, Draining); }
      case GotLock(g) =>
        if g in pumps && pumps[g].stage == Draining { CleanUp(g); }
      case Crashed(g) =>
        if g in pumps { Stop(g, Finished); }
      case AbortTookEffect(g) =>
        if g in pumps && pumps[g].aborted { FinishAborted(g); }
    }

    /** Over every interleaving a session has no more live pumps than subscribes holding one, and its
        entry's. A window that was told that it subscribed follows a live pump exactly as long as the pump
        last entered for it has not stopped; it does so for good if nothing stops. */
    method Interleave(schedule: seq<Action>)
      requires Valid()
      modifies this
      ensures Valid() && Now() == AfterAll(old(Now()), schedule)
      ensures forall session ::
                |LiveOf(pumps, session)| <= |HoldersOf(calls, session)| + if session in subscriptions then 1 else 0
      ensures forall session, subscriber :: Subscribed(log, session, subscriber) ==>
                (Following(session, subscriber) <==>
                   match PlaceOf(log, session, subscriber)
                   case Fed(g) => Stopped(g) !in log
                   case _ => false)
      ensures (forall g :: Stopped(g) !in old(log)) &&
              (forall k :: 0 <= k < |schedule| ==> !schedule[k].LoopEnded? && !schedule[k].Crashed?) ==>
                forall session, subscriber :: Subscribed(log, session, subscriber) ==> Following(session, subscriber)
    {
      ghost var calm := (forall g :: Stopped(g) !in old(log)) &&
        (forall k :: 0 <= k < |schedule| ==> !schedule[k].LoopEnded? && !schedule[k].Crashed?);
      for k := 0 to |schedule|
        invariant Valid() && Now() == AfterAll(old(Now()), schedule[..k])
        invariant calm ==> forall g :: Stopped(g) !in log
      {
        AfterOneMore(old(Now()), schedule, k);
        Step(schedule[k]);
      }
      assert schedule[..|schedule|] == schedule;
      forall session
        ensures |LiveOf(pumps, session)| <= |HoldersOf(calls, session)| + if session in subscriptions then 1 else 0
      {
        FewLivePumps(subscriptions, generation, pumps, calls, session);
      }
      forall session, subscriber | Subscribed(log, session, subscriber)
        ensures Following(session, subscriber) <==>
                  match PlaceOf(log, session, subscriber)
                  case Fed(g) => Stopped(g) !in log
                  case _ => false
        ensures calm ==> Following(session, subscriber)
      {
        FollowsIff(subscriptions, generation, pumps, calls, log, session, subscriber);
        if calm {
          var k: nat :| ToldAt(log, session, subscriber, k);
          FollowsUndisturbed(subscriptions, generation, pumps, calls, log, session, subscriber, k);
        }
      }
    }
  }
}
