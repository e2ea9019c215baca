/**
 What every step of the restream node does, told from the side of what it changes: a path's session, its reservation,
 the live heartbeats, a request, and the calls that end sessions. In every case that is not listed the value stays.
 */
module RestreamEffects {
  import opened Base
  import opened Restream

  function SessionOf(t: Table, path: Path): Option<Session> {
    if path in t.sessions then Some(t.sessions[path]) else None
  }

  function PhaseOf(s: State, r: RequestId): Option<Phase> {
    if r in s.requests then Some(s.requests[r]) else None
  }

  /** The request configures this path for the session that the path still has. */
  predicate StillConfigures(s: State, r: RequestId, path: Path) {
    && r in s.requests && s.requests[r].Configuring? && s.requests[r].path == path
    && path in s.table.sessions && s.table.sessions[path].id == s.requests[r].id
  }

  /** The step ends the path's time on the node: the publisher is gone, or its forwards cannot be configured. */
  predicate Removes(s: State, e: Event, path: Path) {
    match e
    case Offline(p) => p == path && path in s.table.sessions
    case ConfigureFailed(r) => StillConfigures(s, r, path)
    case _ => false
  }

  /** All that can happen to a path's session, and when. */
  function SessionNext(s: State, e: Event, path: Path): Option<Session> {
    if Removes(s, e, path) then None
    else if e.Accept? && e.request in s.requests && s.requests[e.request].Granted?
            && s.requests[e.request].path == path
    then Some(Session(s.requests[e.request].id, None))
    else if e.Configured? && StillConfigures(s, e.request, path)
    then Some(Session(s.requests[e.request].id, Some(s.nextContext)))
    else SessionOf(s.table, path)
  }

  lemma SessionAfter(s: State, e: Event, path: Path)
    requires Enabled(s, e)
    ensures SessionOf(Next(s, e).table, path) == SessionNext(s, e, path)
  {
    hide Cancel;
  }

  /** The path is neither published nor reserved, and a publisher asks for it. */
  predicate Reserves(s: State, e: Event, path: Path) {
    e == Authorize(path) && path !in s.table.sessions && path !in s.table.pending
  }

  /** A path is reserved from the request for authorization until that request returns. */
  lemma PendingAfter(s: State, e: Event, path: Path)
    requires Enabled(s, e)
    ensures path in Next(s, e).table.pending <==>
            && (path in s.table.pending || Reserves(s, e, path))
            && !(e.Return? && s.requests[e.request].path == path)
  {
    hide Cancel;
  }

  /** A heartbeat starts with a configured session; it is cancelled when its session goes or gets another one. */
  predicate LiveNext(s: State, e: Event, c: ContextId) {
    || (e.Configured? && e.request in s.requests && s.requests[e.request].Configuring?
        && StillConfigures(s, e.request, s.requests[e.request].path) && c == s.nextContext)
    || (c in s.table.live
        && !Removes(s, e, s.table.live[c]) && !(e.Configured? && StillConfigures(s, e.request, s.table.live[c])))
  }

  lemma LiveUnderRemoval(s: State, e: Event, c: ContextId)
    requires HeartbeatsOk(s.table) && Enabled(s, e) && (e.Offline? || e.ConfigureFailed?)
    ensures c in Next(s, e).table.live <==> LiveNext(s, e, c)
  {
    var path := if e.Offline? then e.path else s.requests[e.request].path;
    assert Next(s, e).table.live ==
           if Removes(s, e, path) then Cancel(s.table.live, s.table.sessions[path].heartbeat) else s.table.live;
    hide Next;
  }

  lemma LiveUnderConfigured(s: State, e: Event, c: ContextId)
    requires HeartbeatsOk(s.table) && Enabled(s, e) && e.Configured?
    requires s.nextContext !in s.table.live
    requires forall p | p in s.table.sessions :: s.table.sessions[p].heartbeat != Some(s.nextContext)
    ensures c in Next(s, e).table.live <==> LiveNext(s, e, c)
  {
    var path := s.requests[e.request].path;
    assert Next(s, e).table.live ==
           if StillConfigures(s, e.request, path)
           then Cancel(s.table.live, s.table.sessions[path].heartbeat)[s.nextContext := path] else s.table.live;
    hide Next;
  }

  lemma LiveAfter(s: State, e: Event, c: ContextId)
    requires HeartbeatsOk(s.table) && FreshOk(s) && Enabled(s, e)
    ensures c in Next(s, e).table.live <==> LiveNext(s, e, c)
  {
    if e.Offline? || e.ConfigureFailed? {
      hide Next;
      LiveUnderRemoval(s, e, c);
    } else if e.Configured? {
      hide Next;
      LiveUnderConfigured(s, e, c);
    }
    hide HeartbeatsOk;
  }

  /** The step begins a request, in this phase. */
  function Begins(s: State, e: Event): Option<Phase> {
    match e
    case Authorize(path) => if Reserves(s, e, path) then Some(Authorizing(path)) else None
    case Online(path) =>
      if path in s.table.sessions then Some(Configuring(path, s.table.sessions[path].id)) else None
    case Offline(path) => if path in s.table.sessions then Some(Ending(s.table.sessions[path].id)) else None
    case _ => None
  }

  /** All that can happen to a request, and when. */
  function PhaseNext(s: State, e: Event, r: RequestId): Option<Phase> {
    if r !in s.requests then
      if r == s.nextRequest then Begins(s, e) else None
    else
      var p := s.requests[r];
      if e == Grant(r) && p.Authorizing? then Some(Granted(p.path, s.nextSession))
      else if (e == Deny(r) && p.Authorizing?) || (e in {RejectDestination(r), Accept(r)} && p.Granted?) then
        Some(Leaving(p.path))
      else if e == ConfigureFailed(r) && p.Configuring? && StillConfigures(s, r, p.path) then Some(Ending(p.id))
      else if e in {Return(r), Configured(r), ConfigureFailed(r), CallEnd(r)} then None
      else Some(p)
  }

  lemma PhaseAfter(s: State, e: Event, r: RequestId)
    requires FreshOk(s) && Enabled(s, e)
    ensures PhaseOf(Next(s, e), r) == PhaseNext(s, e, r)
  {
    hide Cancel;
  }

  /** A session is ended by the request that carries it: when a destination is unsafe, or at the request's end. */
  lemma EndedAfter(s: State, e: Event)
    requires Enabled(s, e)
    ensures Next(s, e).ended ==
            match e
            case RejectDestination(r) => s.ended + [s.requests[r].id]
            case CallEnd(r) => s.ended + [s.requests[r].id]
            case _ => s.ended
    ensures Next(s, e).nextSession == s.nextSession + if e.Grant? then 1 else 0
  {}

  /** What the lock sections answer. */
  lemma SectionAnswers(t: Table, path: Path, id: SessionId, context: ContextId)
    ensures Enter(t, path).1 <==> path !in t.sessions && path !in t.pending
    ensures Take(t, path).1 == if path in t.sessions then Some(t.sessions[path].id) else None
    ensures TakeIf(t, path, id).1 <==> path in t.sessions && t.sessions[path].id == id
    ensures StartHeartbeat(t, path, id, context).1 <==> path in t.sessions && t.sessions[path].id == id
  {}

  /** At every step of every run the node changes as listed above. */
  lemma NodeNext(ss: seq<State>, es: seq<Event>, i: nat, path: Path, r: RequestId)
    requires Run(ss, es) && i < |es|
    ensures SessionOf(ss[i + 1].table, path) == SessionNext(ss[i], es[i], path)
    ensures PhaseOf(ss[i + 1], r) == PhaseNext(ss[i], es[i], r)
    ensures path in ss[i + 1].table.pending <==>
            && (path in ss[i].table.pending || Reserves(ss[i], es[i], path))
            && !(es[i].Return? && ss[i].requests[es[i].request].path == path)
    ensures forall c: ContextId :: c in ss[i + 1].table.live <==> LiveNext(ss[i], es[i], c)
  {
    hide Next, SessionNext, PhaseNext, SessionOf, PhaseOf, Reserves;
    RunInv(ss, es, i);
    SessionAfter(ss[i], es[i], path);
    PendingAfter(ss[i], es[i], path);
    PhaseAfter(ss[i], es[i], r);
    forall c: ContextId ensures c in ss[i + 1].table.live <==> LiveNext(ss[i], es[i], c) {
      LiveAfter(ss[i], es[i], c);
    }
  }
}
