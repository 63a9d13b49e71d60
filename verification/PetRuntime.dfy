/** The desktop pet's view of the sessions (crates/gui/src/pet.rs:92-110, 241-327, 330-464).
    Titles come normalized; notice expiry and the moods are not part of this model. */
module PetRuntime {
  import opened Messages
  import opened Sequences

  const MAX_SEEN_EVENTS: nat := 2048
  const MAX_REVISION: nat := 0xFFFF_FFFF_FFFF_FFFF
  const UNTITLED: string := "Untitled session"

  datatype Session = Session(title: string, running: bool)

  datatype Kind = Permission | AskUser

  datatype Request = Request(kind: Kind, reqId: string, sessionId: string, title: string)

  datatype Notice = Notice(eventId: string, sessionId: string, title: string, reason: string)

  datatype Activity =
    | Requested(kind: Kind, reqId: string, target: string)
    | Resolved(reqId: string)
    | Started
    | Stopped(reason: string)

  datatype Report = Report(id: string, title: string, running: bool)

  type Sessions = map<string, Session>

  // ---------- requests ----------

  predicate UniqueIds(requests: seq<Request>) {
    forall i, j :: 0 <= i < j < |requests| ==> requests[i].reqId != requests[j].reqId
  }

  function WithoutRequest(requests: seq<Request>, reqId: string): (r: seq<Request>)
    ensures forall q :: q in r <==> q in requests && q.reqId != reqId
    ensures UniqueIds(requests) ==> UniqueIds(r)
  {
    if requests == [] then []
    else
      var rest := WithoutRequest(requests[1..], reqId);
      if requests[0].reqId == reqId then rest else [requests[0]] + rest
  }

  function WithoutSessions(requests: seq<Request>, ids: set<string>): (r: seq<Request>)
    ensures forall q :: q in r <==> q in requests && q.sessionId !in ids
    ensures UniqueIds(requests) ==> UniqueIds(r)
    ensures ids == {} ==> r == requests
  {
    if requests == [] then []
    else
      var rest := WithoutSessions(requests[1..], ids);
      if requests[0].sessionId in ids then rest else [requests[0]] + rest
  }

  /** One comes before the other. */
  ghost predicate Precedes(requests: seq<Request>, p: Request, q: Request) {
    exists a, b :: 0 <= a < b < |requests| && requests[a] == p && requests[b] == q
  }

  ghost predicate InOrderOf(after: seq<Request>, before: seq<Request>) {
    forall i, j :: 0 <= i < j < |after| ==> Precedes(before, after[i], after[j])
  }

  lemma {:induction false} PrecedesBehind(r: Request, requests: seq<Request>, p: Request, q: Request)
    ensures Precedes(requests, p, q) ==> Precedes([r] + requests, p, q)
    ensures q in requests ==> Precedes([r] + requests, r, q)
  {
    var all := [r] + requests;
    if a, b :| 0 <= a < b < |requests| && requests[a] == p && requests[b] == q {
      assert all[a + 1] == p && all[b + 1] == q;
    }
    if b :| 0 <= b < |requests| && requests[b] == q {
      assert all[0] == r && all[b + 1] == q;
    }
  }

  lemma {:induction false} OrderBehind(r: Request, after: seq<Request>, before: seq<Request>)
    requires InOrderOf(after, before) && forall p :: p in after ==> p in before
    ensures InOrderOf(after, [r] + before) && InOrderOf([r] + after, [r] + before)
  {
    forall i, j | 0 <= i < j < |after| ensures Precedes([r] + before, after[i], after[j]) {
      PrecedesBehind(r, before, after[i], after[j]);
    }
    forall i, j | 0 <= i < j < |after| + 1 ensures Precedes([r] + before, ([r] + after)[i], ([r] + after)[j]) {
      PrecedesBehind(r, before, r, after[j - 1]);
      if i > 0 { PrecedesBehind(r, before, after[i - 1], after[j - 1]); }
    }
  }

  lemma {:induction false} OthersInOrder(requests: seq<Request>, reqId: string, ids: set<string>)
    ensures InOrderOf(WithoutRequest(requests, reqId), requests) && InOrderOf(WithoutSessions(requests, ids), requests)
  {
    if requests != [] {
      var q, rest := requests[0], requests[1..];
      OthersInOrder(rest, reqId, ids);
      assert requests == [q] + rest;
      OrderBehind(q, WithoutRequest(rest, reqId), rest);
      OrderBehind(q, WithoutSessions(rest, ids), rest);
    }
  }

  /** The requests an activity leaves pending. */
  function Pending(requests: seq<Request>, source: string, title: string, activity: Activity): seq<Request> {
    match activity
    case Requested(kind, reqId, target) => WithoutRequest(requests, reqId) + [Request(kind, reqId, target, title)]
    case Resolved(reqId) => WithoutRequest(requests, reqId)
    case Started => requests
    case Stopped(_) => WithoutSessions(requests, {source})
  }

  /** A request stands last, under its id alone; a resolved one goes; with a session's end all of its requests
      go. The others stay, in their order. */
  lemma {:induction false} PendingAfter(before: seq<Request>, source: string, title: string, activity: Activity)
    ensures var after := Pending(before, source, title, activity);
            match activity
            case Requested(kind, reqId, target) =>
              && after != [] && after[|after| - 1] == Request(kind, reqId, target, title)
              && var others := after[..|after| - 1];
                 InOrderOf(others, before) && forall q :: q in others <==> q in before && q.reqId != reqId
            case Resolved(reqId) =>
              InOrderOf(after, before) && forall q :: q in after <==> q in before && q.reqId != reqId
            case Started => after == before
            case Stopped(_) =>
              InOrderOf(after, before) && forall q :: q in after <==> q in before && q.sessionId != source
  {
    OthersInOrder(before, if activity.Requested? || activity.Resolved? then activity.reqId else "", {source});
    if activity.Requested? {
      var others := WithoutRequest(before, activity.reqId);
      var all := Pending(before, source, title, activity);
      assert all[..|all| - 1] == others;
    }
  }

  // ---------- remembered events ----------

  /** The set holds what the order lists, each once. */
  ghost predicate Tracks(seen: set<string>, order: seq<string>) {
    NoRepeat(order) && forall key :: key in seen <==> key in order
  }

  lemma {:induction false} TracksTail(seen: set<string>, order: seq<string>)
    requires Tracks(seen, order) && order != []
    ensures Tracks(seen - {order[0]}, order[1..])
  {
    assert order == [order[0]] + order[1..];
  }

  /** The last events, up to the limit. */
  function Recent(order: seq<string>): seq<string> {
    if |order| > MAX_SEEN_EVENTS then order[|order| - MAX_SEEN_EVENTS..] else order
  }

  /** The order of remembered events after these were delivered. */
  function Remembered(order: seq<string>, keys: seq<string>): seq<string>
    decreases |keys|
  {
    if keys == [] then order
    else Remembered(if keys[0] in order then order else Recent(order + [keys[0]]), keys[1..])
  }

  lemma {:induction false} RememberedOne(order: seq<string>, key: string)
    ensures Remembered(order, [key]) == if key in order then order else Recent(order + [key])
  {
    assert [key][1..] == [];
  }

  lemma {:induction false} TracksPushed(seen: set<string>, order: seq<string>, key: string)
    requires Tracks(seen, order) && key !in seen
    ensures Tracks(seen + {key}, order + [key])
  {
  }

  /** An event is remembered at least until as many others as the limit allows have come. */
  lemma {:induction false} RememberedLongEnough(order: seq<string>, p: nat, keys: seq<string>)
    requires p < |order| <= 2048 && |order| - p + |keys| <= 2048
    ensures order[p] in Remembered(order, keys)
    decreases |keys|
  {
    if keys != [] {
      var next := Recent(order + [keys[0]]);
      if keys[0] in order {
        RememberedLongEnough(order, p, keys[1..]);
      } else {
        var p' := p + |next| - |order| - 1;
        assert next[p'] == order[p];
        RememberedLongEnough(next, p', keys[1..]);
      }
    }
  }

  // ---------- what a reconcile reports ----------

  /** The sessions reported; a later report on the same one counts. */
  function Reported(reports: seq<Report>): Sessions {
    if reports == [] then map[]
    else
      var last := reports[|reports| - 1];
      Reported(reports[..|reports| - 1])[last.id := Session(last.title, last.running)]
  }

  function Cleared(sessions: Sessions): Sessions {
    map id | id in sessions :: sessions[id].(running := false)
  }

  function RunningIds(sessions: Sessions): set<string> {
    set id | id in sessions && sessions[id].running
  }

  /** A report of a known session, not running, under the title it has. */
  predicate Expected(sessions: Sessions, r: Report) {
    !r.running && r.id in sessions && sessions[r.id].title == r.title
  }

  predicate AllExpected(sessions: Sessions, reports: seq<Report>) {
    forall k :: 0 <= k < |reports| ==> Expected(sessions, reports[k])
  }

  /** Nothing ran, nothing is reported to run, and each session is reported as it is known. */
  ghost predicate NothingNew(sessions: Sessions, reports: seq<Report>) {
    && RunningIds(sessions) == {}
    && AllExpected(sessions, reports)
    && sessions.Keys <= Reported(reports).Keys
  }

  lemma {:induction false} ReportedExpected(sessions: Sessions, reports: seq<Report>)
    requires AllExpected(sessions, reports)
    ensures forall id :: id in Reported(reports) ==> id in sessions && Reported(reports)[id] == Cleared(sessions)[id]
  {
    if reports != [] {
      ReportedExpected(sessions, reports[..|reports| - 1]);
      assert Expected(sessions, reports[|reports| - 1]);
    }
  }

  lemma {:induction false} RunningReported(reports: seq<Report>)
    ensures RunningIds(Reported(reports)) != {} ==> exists k :: 0 <= k < |reports| && reports[k].running
  {
    if reports != [] {
      var front := reports[..|reports| - 1];
      RunningReported(front);
      var last := reports[|reports| - 1];
      assert RunningIds(Reported(reports)) <= RunningIds(Reported(front)) + if last.running then {last.id} else {};
    }
  }

  class PetRuntime {
    var revision: nat
    var sessions: Sessions
    var requests: seq<Request>
    var notice: Option<Notice>
    var seenEvents: set<string>
    var seenEventOrder: seq<string>

    constructor ()
      ensures Valid() && sessions == map[] && requests == []
    {
      revision, sessions, requests, notice, seenEvents, seenEventOrder := 0, map[], [], None, {}, [];
    }

    ghost predicate Valid() reads this {
      && Tracks(seenEvents, seenEventOrder) && |seenEventOrder| <= MAX_SEEN_EVENTS
      && UniqueIds(requests)
      && revision <= MAX_REVISION
    }

    function Bumped(n: nat, changed: bool): nat {
      if changed && n < MAX_REVISION then n + 1 else n
    }

    method BumpRevision()
      requires revision <= MAX_REVISION
      modifies this`revision
      ensures revision == Bumped(old(revision), true) && revision <= MAX_REVISION
    {
      if revision < MAX_REVISION {
        revision := revision + 1;
      }
    }

    method RememberEvent(key: string) returns (first: bool)
      requires Valid()
      modifies this`seenEvents, this`seenEventOrder
      ensures Valid() && first == (key !in old(seenEvents)) && |seenEventOrder| <= 2048
      ensures seenEventOrder == Remembered(old(seenEventOrder), [key])
      ensures !first ==> unchanged(this)
    {
      RememberedOne(seenEventOrder, key);
      if key in seenEvents {
        return false;
      }
      TracksPushed(seenEvents, seenEventOrder, key);
      seenEvents := seenEvents + {key};
      seenEventOrder := seenEventOrder + [key];
      ForgetOldest();
      first := true;
    }

    method ForgetOldest()
      requires Tracks(seenEvents, seenEventOrder)
      modifies this`seenEvents, this`seenEventOrder
      ensures Tracks(seenEvents, seenEventOrder) && seenEventOrder == Recent(old(seenEventOrder))
    {
      ghost var all := seenEventOrder;
      while |seenEventOrder| > MAX_SEEN_EVENTS
        invariant Tracks(seenEvents, seenEventOrder)
        invariant EndsWith(all, seenEventOrder) && (seenEventOrder == all || |seenEventOrder| >= MAX_SEEN_EVENTS)
      {
        var oldest := seenEventOrder[0];
        TracksTail(seenEvents, seenEventOrder);
        seenEventOrder := seenEventOrder[1..];
        seenEvents := seenEvents - {oldest};
      }
    }

    method SetRunning(id: string, running: bool) returns (changed: bool)
      modifies this`sessions
      ensures changed == (running != (id in old(sessions) && old(sessions)[id].running))
      ensures var title := if id in old(sessions) then old(sessions)[id].title else UNTITLED;
              sessions == old(sessions)[id := Session(title, running)]
    {
      var session := if id in sessions then sessions[id] else Session(UNTITLED, false);
      changed := session.running != running;
      sessions := sessions[id := session.(running := running)];
    }

    function TitleOf(id: string): string reads this {
      if id in sessions then sessions[id].title else UNTITLED
    }

    function IsRunning(id: string): bool reads this {
      id in sessions && sessions[id].running
    }

    /** An event delivered before, and still remembered, changes nothing at all. */
    method ProcessActivity(source: string, eventId: string, activity: Activity) returns (changed: bool)
      requires Valid()
      modifies this
      ensures Valid() && seenEventOrder == Remembered(old(seenEventOrder), [source + ":" + eventId])
      ensures source + ":" + eventId in old(seenEvents) ==> !changed && unchanged(this)
      ensures source + ":" + eventId !in old(seenEvents) ==>
                && requests == Pending(old(requests), source, old(TitleOf(source)), activity)
                && sessions == (if activity.Started? || activity.Stopped?
                  then old(sessions)[source := Session(old(TitleOf(source)), activity.Started?)] else old(sessions))
                && notice == (if activity.Stopped? then Some(Notice(eventId, source, old(TitleOf(source)),
                  activity.reason))
                              else old(notice))
                && (changed <==> activity.Requested? || activity.Stopped? || requests != old(requests)
                                 || (activity.Started? && !old(IsRunning(source))))
      ensures !changed ==>
                && requests == old(requests) && notice == old(notice)
                && forall id :: old(TitleOf(id)) == TitleOf(id)
      ensures revision == Bumped(old(revision), changed)
    {
      var first := RememberEvent(source + ":" + eventId);
      if !first {
        return false;
      }
      var title := TitleOf(source);
      match activity {
        case Requested(kind, reqId, target) =>
          requests := WithoutRequest(requests, reqId) + [Request(kind, reqId, target, title)];
          changed := true;
        case Resolved(reqId) =>
          var before := requests;
          requests := WithoutRequest(requests, reqId);
          changed := |requests| != |before|;
          NothingRemoved(before, reqId);
        case Started =>
          changed := SetRunning(source, true);
        case Stopped(reason) =>
          var _ := SetRunning(source, false);
          requests := WithoutSessions(requests, {source});
          notice := Some(Notice(eventId, source, title, reason));
          changed := true;
      }
      if changed {
        BumpRevision();
      }
    }

    /** Afterwards exactly the reported sessions are known, as last reported, and the requests of those
        no longer reported are gone. Nothing is announced exactly when nothing ran before, nothing runs
        now, and the sessions are known as they are reported. */
    method ReconcileRunningSessions(reports: seq<Report>) returns (changed: bool)
      requires Valid()
      modifies this`sessions, this`requests, this`revision
      ensures Valid() && sessions == Reported(reports)
      ensures requests == WithoutSessions(old(requests), old(sessions).Keys - Reported(reports).Keys)
      ensures changed <==> !NothingNew(old(sessions), reports)
      ensures !changed ==> sessions == old(sessions) && requests == old(requests)
      ensures revision == Bumped(old(revision), changed)
    {
      var oldRunning := |RunningIds(sessions)|;
      var ids: set<string>;
      sessions, changed, ids := TakeReports(Cleared(sessions), reports);
      var stale := sessions.Keys - ids;
      StaleOnes(old(sessions), reports);
      sessions := sessions - stale;
      requests := WithoutSessions(requests, stale);
      changed := changed || stale != {};
      changed := changed || oldRunning != |RunningIds(sessions)|;
      Reconciled(old(sessions), reports);
      if changed {
        BumpRevision();
      }
    }

    /** A session that goes on running is announced a second time, though it is known as it is reported. */
    static method AnnouncedAgain(id: string, title: string) returns (pet: PetRuntime, known: Sessions, changed: bool)
      ensures pet.Valid() && known == pet.sessions == map[id := Session(title, true)] && changed
    {
      pet := new PetRuntime();
      var reports := [Report(id, title, true)];
      assert Reported(reports) == map[id := Session(title, true)] by { assert reports[..0] == []; }
      changed := pet.ReconcileRunningSessions(reports);
      known := pet.sessions;
      changed := pet.ReconcileRunningSessions(reports);
      assert id in RunningIds(known);
    }

    static method TakeReports(known: Sessions, reports: seq<Report>)
      returns (sessions: Sessions, changed: bool, ids: set<string>)
      requires forall id :: id in known ==> !known[id].running
      ensures sessions == known + Reported(reports) && ids == Reported(reports).Keys
      ensures changed <==> !AllExpected(known, reports)
    {
      sessions, changed, ids := known, false, {};
      for k := 0 to |reports|
        invariant Taken(known, reports[..k], sessions, changed, ids)
      {
        var r := reports[k];
        ReportNext(known, reports, k, sessions, changed, ids);
        changed := changed || r.id !in sessions || sessions[r.id].title != r.title ||
          sessions[r.id].running != r.running;
        sessions := sessions[r.id := Session(r.title, r.running)];
        ids := ids + {r.id};
      }
      assert reports[..|reports|] == reports;
    }
  }

  ghost predicate Taken(known: Sessions, reports: seq<Report>, sessions: Sessions, changed: bool, ids: set<string>) {
    && sessions == known + Reported(reports) && ids == Reported(reports).Keys
    && (changed <==> !AllExpected(known, reports))
    && (!changed ==> sessions == known)
  }

  lemma {:induction false} StaleOnes(sessions: Sessions, reports: seq<Report>)
    ensures var all, reported := Cleared(sessions) + Reported(reports), Reported(reports);
            && all.Keys - reported.Keys == sessions.Keys - reported.Keys
            && all - (all.Keys - reported.Keys) == reported
            && (sessions.Keys - reported.Keys == {} <==> sessions.Keys <= reported.Keys)
  {
    assert Cleared(sessions).Keys == sessions.Keys;
  }

  lemma {:induction false} NothingRemoved(requests: seq<Request>, reqId: string)
    ensures |WithoutRequest(requests, reqId)| <= |requests|
    ensures |WithoutRequest(requests, reqId)| == |requests| ==> WithoutRequest(requests, reqId) == requests
  {
    if requests != [] {
      var q, rest := requests[0], WithoutRequest(requests[1..], reqId);
      NothingRemoved(requests[1..], reqId);
      Headed(requests, 0);
      assert requests[0..] == requests;
      assert WithoutRequest(requests, reqId) == if q.reqId == reqId then rest else [q] + rest;
    }
  }

  lemma {:induction false} ReportNext(known: Sessions, reports: seq<Report>, k: nat, sessions: Sessions,
                                      changed: bool, ids: set<string>)
    requires k < |reports| && Taken(known, reports[..k], sessions, changed, ids)
    requires forall id :: id in known ==> !known[id].running
    ensures var r := reports[k];
            Taken(known, reports[..k + 1], sessions[r.id := Session(r.title, r.running)],
                  changed || r.id !in sessions || sessions[r.id].title != r.title ||
                    sessions[r.id].running != r.running,
                  ids + {r.id})
  {
    var all, r := reports[..k + 1], reports[k];
    assert all[..k] == reports[..k] && all[k] == r;
    AllExpectedNext(known, reports, k);
    assert Expected(known, r) ==> known[r.id := Session(r.title, r.running)] == known;
  }

  lemma {:induction false} AllExpectedNext(known: Sessions, reports: seq<Report>, k: nat)
    requires k < |reports|
    ensures AllExpected(known, reports[..k + 1]) <==> AllExpected(known, reports[..k]) && Expected(known, reports[k])
  {
    var all := reports[..k + 1];
    assert all[k] == reports[k] && forall j :: 0 <= j < k ==> all[j] == reports[..k][j];
  }

  lemma {:induction false} Reconciled(sessions: Sessions, reports: seq<Report>)
    ensures AllExpected(Cleared(sessions), reports) <==> AllExpected(sessions, reports)
    ensures AllExpected(sessions, reports) ==> RunningIds(Reported(reports)) == {}
    ensures NothingNew(sessions, reports) ==> Reported(reports) == sessions
  {
    assert forall r :: Expected(Cleared(sessions), r) <==> Expected(sessions, r);
    RunningReported(reports);
    if AllExpected(sessions, reports) { ReportedExpected(sessions, reports); }
    assert forall id :: id in sessions && id !in RunningIds(sessions) ==> Cleared(sessions)[id] == sessions[id];
  }

  /** Known are the sessions reported, each as it was reported last. */
  lemma {:induction false} ReportedAt(reports: seq<Report>, k: nat)
    requires k < |reports| && forall j :: k < j < |reports| ==> reports[j].id != reports[k].id
    ensures reports[k].id in Reported(reports) &&
              Reported(reports)[reports[k].id] == Session(reports[k].title, reports[k].running)
  {
    if k < |reports| - 1 { ReportedAt(reports[..|reports| - 1], k); }
  }

  lemma {:induction false} OnlyReported(reports: seq<Report>, id: string)
    ensures id in Reported(reports) <==> exists k :: 0 <= k < |reports| && reports[k].id == id
  {
    if reports != [] {
      var front := reports[..|reports| - 1];
      OnlyReported(front, id);
      assert forall k :: 0 <= k < |front| ==> front[k] == reports[k];
      assert id in Reported(reports) <==> id in Reported(front) || reports[|reports| - 1].id == id;
    }
  }

  /** When nothing changes, a change is announced all the same exactly when some session runs. */
  lemma {:induction false} AnnouncedUnchanged(sessions: Sessions, reports: seq<Report>)
    requires Reported(reports) == sessions && forall i, j :: 0 <= i < j < |reports| ==> reports[i].id != reports[j].id
    ensures NothingNew(sessions, reports) <==> RunningIds(sessions) == {}
  {
    forall k | 0 <= k < |reports| && RunningIds(sessions) == {} ensures Expected(sessions, reports[k]) {
      ReportedAt(reports, k);
      assert reports[k].id !in RunningIds(sessions);
    }
  }
}
