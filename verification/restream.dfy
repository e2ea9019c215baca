/**
 The restream node's session table. Every handler is split into its lock sections; the external
 calls between them (control plane, media server) take any time and any outcome, so sections of any
 number of requests interleave freely.
 */
module Restream {
  import opened Base

  type Path = nat
  type SessionId = nat
  type ContextId = nat
  type RequestId = nat

  /** A session and the heartbeat context whose cancel function it stores. */
  datatype Session = Session(id: SessionId, heartbeat: Option<ContextId>)

  /** What the mutex guards, and the heartbeat contexts that have not been cancelled. */
  datatype Table = Table(sessions: map<Path, Session>, pending: set<Path>, live: map<ContextId, Path>)

  // ---------------------------------------------------------------------------------------------
  // Lock sections
  // ---------------------------------------------------------------------------------------------

  function Cancel(live: map<ContextId, Path>, heartbeat: Option<ContextId>): map<ContextId, Path> {
    if heartbeat.None? then live else live - {heartbeat.value}
  }

  function Enter(t: Table, path: Path): (Table, bool) {
    if path in t.sessions || path in t.pending then (t, false) else (t.(pending := t.pending + {path}), true)
  }

  function StoreSession(t: Table, path: Path, id: SessionId): Table {
    t.(sessions := t.sessions[path := Session(id, None)])
  }

  function Leave(t: Table, path: Path): Table {
    t.(pending := t.pending - {path})
  }

  /** Offline: whatever session the path has goes. */
  function Take(t: Table, path: Path): (Table, Option<SessionId>) {
    if path !in t.sessions then (t, None)
    else
      (t.(sessions := t.sessions - {path}, live := Cancel(t.live, t.sessions[path].heartbeat)),
       Some(t.sessions[path].id))
  }

  /** Abandon: the path's session goes only if it is still the one that failed. */
  function TakeIf(t: Table, path: Path, id: SessionId): (Table, bool) {
    if path in t.sessions && t.sessions[path].id == id then (Take(t, path).0, true) else (t, false)
  }

  /** Online, after the media server accepted the forwards. */
  function StartHeartbeat(t: Table, path: Path, id: SessionId, context: ContextId): (Table, bool) {
    if path !in t.sessions || t.sessions[path].id != id then (t, false)
    else
      (t.(sessions := t.sessions[path := Session(id, Some(context))],
          live := Cancel(t.live, t.sessions[path].heartbeat)[context := path]),
       true)
  }

  // ---------------------------------------------------------------------------------------------
  // Requests in flight
  // ---------------------------------------------------------------------------------------------

  /** Where a request is: the external call it waits for, or the section it runs next. */
  datatype Phase =
    | Authorizing(path: Path)
    | Granted(path: Path, id: SessionId)
    | Leaving(path: Path)
    | Configuring(path: Path, id: SessionId)
    | Ending(id: SessionId)

  /** `ended` is the history of End calls sent to the control plane. */
  datatype State = State(
    table: Table,
    requests: map<RequestId, Phase>,
    ended: seq<SessionId>,
    nextRequest: RequestId,
    nextSession: SessionId,
    nextContext: ContextId)

  const INITIAL := State(Table(map[], {}, map[]), map[], [], 0, 0, 0)

  datatype Event =
    | Authorize(path: Path)
    | Deny(request: RequestId)
    | Grant(request: RequestId)
    | RejectDestination(request: RequestId)
    | Accept(request: RequestId)
    | Return(request: RequestId)
    | Online(path: Path)
    | Configured(request: RequestId)
    | ConfigureFailed(request: RequestId)
    | Offline(path: Path)
    | CallEnd(request: RequestId)

  predicate Enabled(s: State, e: Event) {
    match e
    case Authorize(_) => true
    case Online(_) => true
    case Offline(_) => true
    case Deny(r) => r in s.requests && s.requests[r].Authorizing?
    case Grant(r) => r in s.requests && s.requests[r].Authorizing?
    case RejectDestination(r) => r in s.requests && s.requests[r].Granted?
    case Accept(r) => r in s.requests && s.requests[r].Granted?
    case Return(r) => r in s.requests && s.requests[r].Leaving?
    case Configured(r) => r in s.requests && s.requests[r].Configuring?
    case ConfigureFailed(r) => r in s.requests && s.requests[r].Configuring?
    case CallEnd(r) => r in s.requests && s.requests[r].Ending?
  }

  function Begin(s: State, table: Table, phase: Phase): State {
    s.(table := table, requests := s.requests[s.nextRequest := phase], nextRequest := s.nextRequest + 1)
  }

  function Next(s: State, e: Event): State
    requires Enabled(s, e)
  {
    match e
    case Authorize(path) =>
      var (table, entered) := Enter(s.table, path);
      if entered then Begin(s, table, Authorizing(path)) else s
    case Deny(r) => s.(requests := s.requests[r := Leaving(s.requests[r].path)])
    case Grant(r) =>
      s.(requests := s.requests[r := Granted(s.requests[r].path, s.nextSession)], nextSession := s.nextSession + 1)
    case RejectDestination(r) =>
      s.(requests := s.requests[r := Leaving(s.requests[r].path)], ended := s.ended + [s.requests[r].id])
    case Accept(r) =>
      s.(table := StoreSession(s.table, s.requests[r].path, s.requests[r].id),
         requests := s.requests[r := Leaving(s.requests[r].path)])
    case Return(r) => s.(table := Leave(s.table, s.requests[r].path), requests := s.requests - {r})
    case Online(path) =>
      if path in s.table.sessions then Begin(s, s.table, Configuring(path, s.table.sessions[path].id)) else s
    case Configured(r) =>
      var (table, _) := StartHeartbeat(s.table, s.requests[r].path, s.requests[r].id, s.nextContext);
      s.(table := table, requests := s.requests - {r}, nextContext := s.nextContext + 1)
    case ConfigureFailed(r) =>
      var (table, taken) := TakeIf(s.table, s.requests[r].path, s.requests[r].id);
      s.(table := table, requests := if taken then s.requests[r := Ending(s.requests[r].id)] else s.requests - {r})
    case Offline(path) =>
      var (table, taken) := Take(s.table, path);
      if taken.Some? then Begin(s, table, Ending(taken.value)) else s
    case CallEnd(r) => s.(requests := s.requests - {r}, ended := s.ended + [s.requests[r].id])
  }

  // ---------------------------------------------------------------------------------------------
  // Invariant
  // ---------------------------------------------------------------------------------------------

  /** An authorize request between its first and its last section. */
  predicate Inside(p: Phase) {
    p.Authorizing? || p.Granted? || p.Leaving?
  }

  /** The request will end this session, or decide to. */
  predicate Carries(p: Phase, id: SessionId) {
    (p.Granted? || p.Ending?) && p.id == id
  }

  /** Two requests inside authorization are for two paths. */
  ghost predicate InsideApart(requests: map<RequestId, Phase>) {
    forall r, q | r in requests && q in requests && Inside(requests[r]) && Inside(requests[q])
                  && requests[r].path == requests[q].path :: r == q
  }

  ghost predicate PendingOk(s: State) {
    && (forall r | r in s.requests && Inside(s.requests[r]) :: s.requests[r].path in s.table.pending)
    && InsideApart(s.requests)
    && (forall r | r in s.requests && (s.requests[r].Authorizing? || s.requests[r].Granted?) ::
          s.requests[r].path !in s.table.sessions)
  }

  /** Ids handed out are below the counters. */
  ghost predicate FreshOk(s: State) {
    && (forall r | r in s.requests :: r < s.nextRequest)
    && (forall p | p in s.table.sessions :: s.table.sessions[p].id < s.nextSession)
    && (forall r | r in s.requests && (s.requests[r].Granted? || s.requests[r].Ending? || s.requests[r].Configuring?) ::
          s.requests[r].id < s.nextSession)
    && (forall i | 0 <= i < |s.ended| :: s.ended[i] < s.nextSession)
    && (forall c | c in s.table.live :: c < s.nextContext)
    && (forall p | p in s.table.sessions && s.table.sessions[p].heartbeat.Some? ::
          s.table.sessions[p].heartbeat.value < s.nextContext)
  }

  /** A session id is on one path, carried by nobody and not ended. */
  ghost predicate SessionsApart(s: State) {
    && (forall p, q | p in s.table.sessions && q in s.table.sessions
                      && s.table.sessions[p].id == s.table.sessions[q].id :: p == q)
    && (forall p, r | p in s.table.sessions && r in s.requests :: !Carries(s.requests[r], s.table.sessions[p].id))
    && (forall p | p in s.table.sessions :: s.table.sessions[p].id !in s.ended)
  }

  /** A carried id is carried by one request and not ended. */
  ghost predicate CarriersApart(s: State) {
    && (forall r, q, id | r in s.requests && q in s.requests
                          && Carries(s.requests[r], id) && Carries(s.requests[q], id) :: r == q)
    && (forall r | r in s.requests && (s.requests[r].Granted? || s.requests[r].Ending?) :: s.requests[r].id !in s.ended)
  }

  ghost predicate EndedOnce(ended: seq<SessionId>) {
    forall i, j | 0 <= i < j < |ended| :: ended[i] != ended[j]
  }

  /** A session id is in one place only: on one path, carried by one request, or ended once. */
  ghost predicate OnePlace(s: State) {
    SessionsApart(s) && CarriersApart(s) && EndedOnce(s.ended)
  }

  ghost predicate OnSomePath(t: Table, id: SessionId) {
    exists p :: p in t.sessions && t.sessions[p].id == id
  }

  ghost predicate Carried(requests: map<RequestId, Phase>, id: SessionId) {
    exists r :: r in requests && Carries(requests[r], id)
  }

  /** No session the control plane granted is lost. */
  ghost predicate Accounted(s: State) {
    forall id: SessionId | id < s.nextSession :: OnSomePath(s.table, id) || Carried(s.requests, id) || id in s.ended
  }

  /** The uncancelled contexts are exactly the ones stored in current sessions. */
  ghost predicate HeartbeatsOk(t: Table) {
    && (forall c | c in t.live :: t.live[c] in t.sessions && t.sessions[t.live[c]].heartbeat == Some(c))
    && (forall p | p in t.sessions && t.sessions[p].heartbeat.Some? ::
          t.sessions[p].heartbeat.value in t.live && t.live[t.sessions[p].heartbeat.value] == p)
  }

  ghost predicate Inv(s: State) {
    PendingOk(s) && FreshOk(s) && OnePlace(s) && HeartbeatsOk(s.table) && Accounted(s)
  }

  lemma InsideApartStep(s: State, e: Event)
    requires PendingOk(s) && Enabled(s, e)
    ensures InsideApart(Next(s, e).requests)
  {}

  lemma PendingStep(s: State, e: Event)
    requires PendingOk(s) && FreshOk(s) && Enabled(s, e)
    ensures PendingOk(Next(s, e))
  {
    InsideApartStep(s, e);
  }

  lemma FreshStep(s: State, e: Event)
    requires FreshOk(s) && Enabled(s, e)
    ensures FreshOk(Next(s, e))
  {}

  /** A session present after the step was there before, or was just accepted. */
  lemma SessionOrigin(s: State, e: Event, p: Path)
    requires Enabled(s, e) && p in Next(s, e).table.sessions
    ensures var id := Next(s, e).table.sessions[p].id;
            || (p in s.table.sessions && s.table.sessions[p].id == id
                && !(e.Accept? && s.requests[e.request].path == p))
            || (e.Accept? && s.requests[e.request] == Granted(p, id))
  {}

  lemma SessionsDistinctStep(s: State, e: Event, p: Path, q: Path)
    requires OnePlace(s) && Enabled(s, e)
    requires p in Next(s, e).table.sessions && q in Next(s, e).table.sessions
    requires Next(s, e).table.sessions[p].id == Next(s, e).table.sessions[q].id
    ensures p == q
  {
    SessionOrigin(s, e, p);
    SessionOrigin(s, e, q);
    hide Next;
    assert e.Accept? ==> Carries(s.requests[e.request], s.requests[e.request].id);
  }

  lemma SessionNotCarriedStep(s: State, e: Event, p: Path, r: RequestId)
    requires FreshOk(s) && OnePlace(s) && Enabled(s, e)
    requires p in Next(s, e).table.sessions && r in Next(s, e).requests
    ensures !Carries(Next(s, e).requests[r], Next(s, e).table.sessions[p].id)
  {
    SessionOrigin(s, e, p);
    var id := Next(s, e).table.sessions[p].id;
    assert e.Accept? ==> Carries(s.requests[e.request], s.requests[e.request].id);
    if p in s.table.sessions && s.table.sessions[p].id == id {
      assert forall q | q in s.requests :: !Carries(s.requests[q], id);
    }
  }

  lemma SessionNotEndedStep(s: State, e: Event, p: Path)
    requires FreshOk(s) && OnePlace(s) && Enabled(s, e) && p in Next(s, e).table.sessions
    ensures Next(s, e).table.sessions[p].id !in Next(s, e).ended
  {
    SessionOrigin(s, e, p);
    var id := Next(s, e).table.sessions[p].id;
    if e.RejectDestination? || e.CallEnd? {
      assert Carries(s.requests[e.request], s.requests[e.request].id);
    }
  }

  lemma SessionsApartStep(s: State, e: Event)
    requires FreshOk(s) && OnePlace(s) && Enabled(s, e)
    ensures SessionsApart(Next(s, e))
  {
    var s' := Next(s, e);
    forall p, q | p in s'.table.sessions && q in s'.table.sessions && s'.table.sessions[p].id == s'.table.sessions[q].id
      ensures p == q
    {
      SessionsDistinctStep(s, e, p, q);
    }
    forall p, r | p in s'.table.sessions && r in s'.requests ensures !Carries(s'.requests[r], s'.table.sessions[p].id) {
      SessionNotCarriedStep(s, e, p, r);
    }
    forall p | p in s'.table.sessions ensures s'.table.sessions[p].id !in s'.ended {
      SessionNotEndedStep(s, e, p);
    }
  }

  lemma CarriersApartStep(s: State, e: Event)
    requires FreshOk(s) && OnePlace(s) && Enabled(s, e)
    ensures CarriersApart(Next(s, e))
  {
    var s' := Next(s, e);
    forall r | r in s'.requests && (s'.requests[r].Granted? || s'.requests[r].Ending?)
      ensures s'.requests[r].id !in s'.ended
    {
      if e.RejectDestination? || e.CallEnd? {
        assert Carries(s.requests[e.request], s.requests[e.request].id);
        assert Carries(s.requests[r], s.requests[r].id);
      }
    }
  }

  lemma EndedOnceStep(s: State, e: Event)
    requires OnePlace(s) && Enabled(s, e)
    ensures EndedOnce(Next(s, e).ended)
  {
    if e.RejectDestination? || e.CallEnd? {
      var id := s.requests[e.request].id;
      var ended := s.ended + [id];
      assert id !in s.ended;
      forall i, j | 0 <= i < j < |ended| ensures ended[i] != ended[j] {
        assert s.ended[i] in s.ended;
      }
      assert Next(s, e).ended == ended;
    } else {
      assert Next(s, e).ended == s.ended;
    }
  }

  lemma HeartbeatsStep(s: State, e: Event)
    requires PendingOk(s) && FreshOk(s) && HeartbeatsOk(s.table) && Enabled(s, e)
    ensures HeartbeatsOk(Next(s, e).table)
  {}

  /** Where a session id goes in one step. */
  lemma AccountedOne(s: State, e: Event, id: SessionId)
    requires PendingOk(s) && FreshOk(s) && Enabled(s, e) && id < Next(s, e).nextSession
    requires id < s.nextSession ==> OnSomePath(s.table, id) || Carried(s.requests, id) || id in s.ended
    ensures OnSomePath(Next(s, e).table, id) || Carried(Next(s, e).requests, id) || id in Next(s, e).ended
  {
    var s' := Next(s, e);
    if id == s.nextSession {
      assert Carries(s'.requests[e.request], id);
    } else if id in s.ended {
      assert id in s'.ended;
    } else if OnSomePath(s.table, id) {
      var p :| p in s.table.sessions && s.table.sessions[p].id == id;
      if p in s'.table.sessions {
        assert s'.table.sessions[p].id == id;
      } else if e.Offline? {
        assert Carries(s'.requests[s.nextRequest], id);
      } else {
        assert Carries(s'.requests[e.request], id);
      }
    } else {
      var r :| r in s.requests && Carries(s.requests[r], id);
      if e == RejectDestination(r) || e == CallEnd(r) {
        assert s'.ended[|s.ended|] == id;
      } else if e == Accept(r) {
        assert s'.table.sessions[s.requests[r].path].id == id;
      } else {
        assert Carries(s'.requests[r], id);
      }
    }
  }

  /** Every step keeps the invariant. */
  lemma StepInv(s: State, e: Event)
    requires Inv(s) && Enabled(s, e)
    ensures Inv(Next(s, e))
  {
    PendingStep(s, e);
    FreshStep(s, e);
    SessionsApartStep(s, e);
    CarriersApartStep(s, e);
    EndedOnceStep(s, e);
    HeartbeatsStep(s, e);
    forall id: SessionId | id < Next(s, e).nextSession
      ensures OnSomePath(Next(s, e).table, id) || Carried(Next(s, e).requests, id) || id in Next(s, e).ended
    {
      AccountedOne(s, e, id);
    }
  }

  // ---------------------------------------------------------------------------------------------
  // Runs
  // ---------------------------------------------------------------------------------------------

  ghost predicate Run(ss: seq<State>, es: seq<Event>) {
    && |ss| == |es| + 1
    && ss[0] == INITIAL
    && forall i | 0 <= i < |es| :: Enabled(ss[i], es[i]) && ss[i + 1] == Next(ss[i], es[i])
  }

  lemma {:induction false} RunInv(ss: seq<State>, es: seq<Event>, i: nat)
    requires Run(ss, es) && i < |ss|
    ensures Inv(ss[i])
  {
    if i > 0 {
      RunInv(ss, es, i - 1);
      StepInv(ss[i - 1], es[i - 1]);
    }
  }

  /** Storing an accepted session never overwrites one: its path is reserved and empty. */
  lemma AcceptNeverOverwrites(ss: seq<State>, es: seq<Event>, i: nat, r: RequestId)
    requires Run(ss, es) && i < |es| && es[i] == Accept(r)
    ensures ss[i].requests[r].path !in ss[i].table.sessions && ss[i].requests[r].path in ss[i].table.pending
    ensures ss[i + 1].table.sessions.Keys == ss[i].table.sessions.Keys + {ss[i].requests[r].path}
  {
    RunInv(ss, es, i);
  }

  /** Two publishers are never inside authorization for one path. */
  lemma OneAuthorizationPerPath(ss: seq<State>, es: seq<Event>, i: nat, r: RequestId, q: RequestId)
    requires Run(ss, es) && i < |ss| && r in ss[i].requests && q in ss[i].requests
    requires Inside(ss[i].requests[r]) && Inside(ss[i].requests[q]) && ss[i].requests[r].path == ss[i].requests[q].path
    ensures r == q
  {
    RunInv(ss, es, i);
  }

  lemma {:induction false} EndedGrows(ss: seq<State>, es: seq<Event>, i: nat, j: nat)
    requires Run(ss, es) && i <= j < |ss|
    ensures ss[i].ended <= ss[j].ended
    ensures ss[i].nextSession <= ss[j].nextSession
    decreases j - i
  {
    if i < j {
      EndedGrows(ss, es, i + 1, j);
    }
  }

  /** The node ends each session at most once, only when it is on no path, and it never returns to one. */
  lemma EndedOnceAndGone(ss: seq<State>, es: seq<Event>, i: nat, j: nat, m: nat, n: nat, p: Path)
    requires Run(ss, es) && i <= j < |ss| && m < |ss[i].ended| && n < |ss[j].ended|
    ensures ss[j].ended[n] == ss[i].ended[m] ==> n == m
    ensures p in ss[j].table.sessions ==> ss[j].table.sessions[p].id != ss[i].ended[m]
  {
    EndedGrows(ss, es, i, j);
    RunInv(ss, es, j);
    assert ss[j].ended[m] == ss[i].ended[m];
  }

  /** Each path has at most one uncancelled heartbeat context, and it is the one its session stores. */
  lemma OneHeartbeatPerPath(ss: seq<State>, es: seq<Event>, i: nat, c: ContextId, d: ContextId)
    requires Run(ss, es) && i < |ss| && c in ss[i].table.live && d in ss[i].table.live
    ensures var path := ss[i].table.live[c];
            path in ss[i].table.sessions && ss[i].table.sessions[path].heartbeat == Some(c)
    ensures ss[i].table.live[c] == ss[i].table.live[d] ==> c == d
  {
    RunInv(ss, es, i);
  }

  /** Conservation: every session ever granted is on exactly one path, in exactly one request's hands,
      or ended exactly once. */
  lemma NoSessionIsLost(ss: seq<State>, es: seq<Event>, i: nat, id: SessionId)
    requires Run(ss, es) && i < |ss| && id < ss[i].nextSession
    ensures OnSomePath(ss[i].table, id) || Carried(ss[i].requests, id) || id in ss[i].ended
    ensures !(OnSomePath(ss[i].table, id) && Carried(ss[i].requests, id))
    ensures !(OnSomePath(ss[i].table, id) && id in ss[i].ended)
    ensures !(Carried(ss[i].requests, id) && id in ss[i].ended)
  {
    RunInv(ss, es, i);
  }

  /** With no request in flight, what was granted is either published on a path or ended. */
  lemma QuiescentNodeKeepsNothing(ss: seq<State>, es: seq<Event>, i: nat, id: SessionId)
    requires Run(ss, es) && i < |ss| && ss[i].requests == map[] && id < ss[i].nextSession
    ensures OnSomePath(ss[i].table, id) <==> id !in ss[i].ended
  {
    NoSessionIsLost(ss, es, i, id);
  }

  // ---------------------------------------------------------------------------------------------
  // The handler
  // ---------------------------------------------------------------------------------------------

  /** The handler's mutex-guarded maps. Each method is one lock section, proved against the table step. */
  class Handler {
    var sessions: map<Path, Session>
    var pending: set<Path>
    ghost var live: map<ContextId, Path>

    ghost function View(): Table
      reads this
    {
      Table(sessions, pending, live)
    }

    constructor ()
      ensures View() == Table(map[], {}, map[])
    {
      sessions, pending, live := map[], {}, map[];
    }

    method EnterAuthorize(path: Path) returns (entered: bool)
      modifies this`pending
      ensures (View(), entered) == Enter(old(View()), path)
    {
      entered := path !in sessions && path !in pending;
      if entered {
        pending := pending + {path};
      }
    }

    method StoreAccepted(path: Path, id: SessionId)
      modifies this`sessions
      ensures View() == StoreSession(old(View()), path, id)
    {
      sessions := sessions[path := Session(id, None)];
    }

    method LeaveAuthorize(path: Path)
      modifies this`pending
      ensures View() == Leave(old(View()), path)
    {
      pending := pending - {path};
    }

    method RemoveSession(path: Path)
      requires path in sessions
      modifies this`sessions, this`live
      ensures View() == Take(old(View()), path).0
    {
      live := Cancel(live, sessions[path].heartbeat);
      sessions := sessions - {path};
    }

    method OfflineSection(path: Path) returns (taken: Option<SessionId>)
      modifies this`sessions, this`live
      ensures (View(), taken) == Take(old(View()), path)
    {
      if path !in sessions {
        return None;
      }
      taken := Some(sessions[path].id);
      RemoveSession(path);
    }

    method AbandonSection(path: Path, id: SessionId) returns (taken: bool)
      modifies this`sessions, this`live
      ensures (View(), taken) == TakeIf(old(View()), path, id)
    {
      taken := path in sessions && sessions[path].id == id;
      if taken {
        RemoveSession(path);
      }
    }

    method HeartbeatSection(path: Path, id: SessionId, context: ContextId) returns (started: bool)
      modifies this`sessions, this`live
      ensures (View(), started) == StartHeartbeat(old(View()), path, id, context)
    {
      if path !in sessions || sessions[path].id != id {
        return false;
      }
      live := Cancel(live, sessions[path].heartbeat)[context := path];
      sessions := sessions[path := Session(id, Some(context))];
      started := true;
    }
  }
}
