/**
 The supervisor of one provider's listeners, the listeners' token refreshes and the version-guarded
 writes, as interleaved steps for one user. Users share nothing here: a supervisor pass reads all
 connection rows at once, then compares and starts each user on its own.

 A pass reads the row, compares it with the running listener, and starts a listener if none runs;
 listeners publish a version, save it, write and end at any moment in between; the user connects
 and disconnects at any moment.
 */
module Supervisor {
  import opened Base

  type ListenerId = nat

  /** A saved connection. `connected` is the status column of the one provider that has it. */
  datatype Connection = Connection(account: nat, connectedAt: nat, tokenVersion: nat, connected: bool)

  datatype Phase = Listening | Publishing | Ended

  /** `base`, `since` and `disturbed` are history: the version it started from, the moment that version was
      read, and whether the row was deleted, re-saved by a connect, or left the connected status since. */
  datatype Listener = Listener(
    account: nat,
    connectedAt: nat,
    version: nat,      // the version its guarded writes carry
    published: nat,    // the version the supervisor sees
    phase: Phase,
    base: nat,
    since: nat,
    disturbed: bool)

  datatype Stage = Unchecked | Unstarted | Done

  /** A pass in progress: the row it read, how far it is, and whether the row was disturbed since. */
  datatype Pass = Pass(row: Option<Connection>, stage: Stage, since: nat, disturbed: bool)

  /** `statuses` says whether this provider's connections carry a status. */
  datatype State = State(
    statuses: bool,
    connection: Option<Connection>,
    nextConnectedAt: nat,
    listeners: map<ListenerId, Listener>,
    nextListener: ListenerId,
    running: Option<ListenerId>,
    pass: Option<Pass>,
    clock: nat)        // history: how many steps were taken

  function Initial(statuses: bool): State {
    State(statuses, None, 0, map[], 0, None, None, 0)
  }

  datatype Event =
    | Connect(account: nat)
    | Disconnect
    | ReadSnapshot
    | Compare
    | StartListener
    | EndPass
    | Reap(id: ListenerId)
    | Publish(id: ListenerId)
    | SaveTokens(id: ListenerId)
    | SaveTokensError(id: ListenerId, committed: bool)
    | SaveDonations(id: ListenerId)
    | RequireReauthorization(id: ListenerId)
    | MarkError(id: ListenerId)
    | HistoryMarkError(account: nat, connectedAt: nat, version: nat)
    | Stop(id: ListenerId)

  /** The condition every guarded write carries. */
  predicate Guard(s: State, account: nat, connectedAt: nat, version: nat) {
    s.connection == Some(Connection(account, connectedAt, version, true))
  }

  predicate Owns(s: State, l: Listener) {
    Guard(s, l.account, l.connectedAt, l.version)
  }

  /** The supervisor's comparison of a listener with the row it read. */
  predicate Replaced(account: nat, connectedAt: nat, published: nat, c: Connection) {
    c.account != account || c.connectedAt != connectedAt || c.tokenVersion > published
  }

  predicate ReplacedBy(l: Listener, c: Connection) {
    Replaced(l.account, l.connectedAt, l.published, c)
  }

  /** A pass cancels the listener: the row it read is gone or not the listener's. */
  predicate Cancels(p: Pass, l: Listener) {
    p.row.None? || ReplacedBy(l, p.row.value)
  }

  predicate In(s: State, id: ListenerId, phase: Phase) {
    id in s.listeners && s.listeners[id].phase == phase
  }

  predicate Enabled(s: State, e: Event) {
    match e
    case Connect(_) => true
    case Disconnect => true
    case ReadSnapshot => s.pass.None?
    case Compare => s.pass.Some? && s.pass.value.stage.Unchecked?
    case StartListener => s.pass.Some? && s.pass.value.stage.Unstarted?
    case EndPass => s.pass.Some? && s.pass.value.stage.Done?
    case Reap(id) => s.pass.None? && In(s, id, Ended)
    case Publish(id) => In(s, id, Listening)
    case SaveTokens(id) => In(s, id, Publishing)
    case SaveTokensError(id, _) => In(s, id, Publishing)
    case SaveDonations(id) => In(s, id, Listening)
    case RequireReauthorization(id) => In(s, id, Listening)
    case MarkError(id) => In(s, id, Listening)
    case HistoryMarkError(_, _, _) => true
    case Stop(id) => In(s, id, Listening)
  }

  // ---------------------------------------------------------------------------------------------
  // Steps
  // ---------------------------------------------------------------------------------------------

  function DisturbAll(listeners: map<ListenerId, Listener>): map<ListenerId, Listener> {
    map id | id in listeners :: listeners[id].(disturbed := true)
  }

  /** The row is deleted, re-saved or invalidated: every history notes it. */
  function Rewrite(s: State, connection: Option<Connection>): State {
    s.(connection := connection,
       listeners := DisturbAll(s.listeners),
       pass := if s.pass.None? then None else Some(s.pass.value.(disturbed := true)))
  }

  function End(s: State, id: ListenerId): State
    requires id in s.listeners
  {
    s.(listeners := s.listeners[id := s.listeners[id].(phase := Ended)])
  }

  /** The row stops being connected: one provider keeps it with another status, the others delete it. */
  function Invalidate(s: State): State
    requires s.connection.Some?
  {
    Rewrite(s, if s.statuses then Some(s.connection.value.(connected := false)) else None)
  }

  function Bump(s: State): State
    requires s.connection.Some?
  {
    s.(connection := Some(s.connection.value.(tokenVersion := s.connection.value.tokenVersion + 1)))
  }

  function ConnectUser(s: State, account: nat): State {
    match s.connection
    case Some(c) => Rewrite(s, Some(Connection(account, c.connectedAt, c.tokenVersion + 1, true)))
    case None =>
      Rewrite(s, Some(Connection(account, s.nextConnectedAt, 1, true))).(nextConnectedAt := s.nextConnectedAt + 1)
  }

  function ReadRow(s: State): State {
    var row := if s.connection.Some? && s.connection.value.connected then s.connection else None;
    s.(pass := Some(Pass(row, if s.running.Some? then Unchecked else Unstarted, s.clock, false)))
  }

  function CompareRow(s: State): State
    requires Enabled(s, Compare) && Shape(s)
  {
    var p := s.pass.value;
    s.(pass := Some(p.(stage := Unstarted)),
       running := if Cancels(p, s.listeners[s.running.value]) then None else s.running)
  }

  function StartRow(s: State): State
    requires Enabled(s, StartListener)
  {
    var p := s.pass.value;
    var s1 := s.(pass := Some(p.(stage := Done)));
    if p.row.None? || s.running.Some? then s1
    else
      var c := p.row.value;
      var l := Listener(c.account, c.connectedAt, c.tokenVersion, c.tokenVersion, Listening, c.tokenVersion,
                        p.since, p.disturbed);
      s1.(listeners := s.listeners[s.nextListener := l], nextListener := s.nextListener + 1,
          running := Some(s.nextListener))
  }

  function Effect(s: State, e: Event): State
    requires Enabled(s, e) && Shape(s)
  {
    match e
    case Connect(account) => ConnectUser(s, account)
    case Disconnect => Rewrite(s, None)
    case ReadSnapshot => ReadRow(s)
    case Compare => CompareRow(s)
    case StartListener => StartRow(s)
    case EndPass => s.(pass := None)
    case Reap(id) => if s.running == Some(id) then s.(running := None) else s
    case Publish(id) =>
      var l := s.listeners[id];
      s.(listeners := s.listeners[id := l.(published := l.version + 1, phase := Publishing)])
    case SaveTokens(id) =>
      var l := s.listeners[id];
      if Owns(s, l) then Bump(s).(listeners := s.listeners[id := l.(version := l.published, phase := Listening)])
      else End(s, id)
    case SaveTokensError(id, committed) =>
      if committed && Owns(s, s.listeners[id]) then End(Bump(s), id) else End(s, id)
    case SaveDonations(id) => if Owns(s, s.listeners[id]) then s else End(s, id)
    case RequireReauthorization(id) =>
      if Owns(s, s.listeners[id]) then End(Invalidate(s), id) else End(s, id)
    case MarkError(id) =>
      if s.statuses && Owns(s, s.listeners[id]) then End(Invalidate(s), id) else End(s, id)
    case HistoryMarkError(account, connectedAt, version) =>
      if s.statuses && Guard(s, account, connectedAt, version) then Invalidate(s) else s
    case Stop(id) => End(s, id)
  }

  function Next(s: State, e: Event): State
    requires Enabled(s, e) && Shape(s)
  {
    Effect(s, e).(clock := s.clock + 1)
  }

  // ---------------------------------------------------------------------------------------------
  // Invariant
  // ---------------------------------------------------------------------------------------------

  /** References resolve. */
  predicate Shape(s: State) {
    && (s.running.Some? ==> s.running.value in s.listeners)
    && (forall id | id in s.listeners :: id < s.nextListener)
    && (s.pass.Some? && s.pass.value.stage.Unchecked? ==> s.running.Some?)
  }

  /** Row `newer` may follow row `older` in time: connection time first, then version; and one
      connection time and version belong to one account. */
  predicate Follows(account: nat, connectedAt: nat, version: nat, newer: Connection) {
    && connectedAt <= newer.connectedAt
    && (newer.connectedAt == connectedAt ==>
          version <= newer.tokenVersion && (newer.tokenVersion == version ==> newer.account == account))
  }

  ghost predicate ListenerOk(s: State, l: Listener) {
    && l.connectedAt < s.nextConnectedAt
    && l.base <= l.version <= l.published <= l.version + 1
    && (l.phase.Listening? ==> l.published == l.version)
    && (l.phase.Publishing? ==> l.published == l.version + 1)
    && (s.connection.Some? ==> Follows(l.account, l.connectedAt, l.version, s.connection.value))
  }

  /** Only the running listener can own the row. */
  ghost predicate Powerless(s: State, id: ListenerId)
    requires id in s.listeners
  {
    s.listeners[id].phase.Ended? || s.running == Some(id) || !Owns(s, s.listeners[id])
  }

  /** Until it is disturbed, the running listener's row is there and no newer than it published. */
  ghost predicate RunningOk(s: State, l: Listener) {
    l.disturbed || (s.connection.Some? && s.connection.value.connected && !ReplacedBy(l, s.connection.value))
  }

  /** The row a pass read is a past state of the row. */
  ghost predicate PassOk(s: State, p: Pass)
    requires Shape(s) && s.pass == Some(p)
  {
    && (p.row.Some? ==>
          var r := p.row.value;
          && r.connected && r.connectedAt < s.nextConnectedAt
          && (s.connection.Some? ==> Follows(r.account, r.connectedAt, r.tokenVersion, s.connection.value))
          && (p.disturbed || s.connection == p.row
              || (s.running.Some? && !ReplacedBy(s.listeners[s.running.value], r))))
    && (p.row.None? && p.stage.Unstarted? ==> s.running.None?)
    && (p.stage.Unchecked? ==> CheckOk(s, p, s.listeners[s.running.value]))
  }

  /** What that row says about the listener it is going to be compared with. */
  ghost predicate CheckOk(s: State, p: Pass, l: Listener) {
    match p.row
    case None => l.disturbed && !Owns(s, l)
    case Some(r) =>
      && l.connectedAt <= r.connectedAt
      && (r.connectedAt == l.connectedAt ==>
            l.base <= r.tokenVersion && (r.tokenVersion <= l.version ==> r.account == l.account))
      && (l.disturbed || !ReplacedBy(l, r))
  }

  ghost predicate Inv(s: State) {
    && Shape(s)
    && (s.connection.Some? ==>
          s.connection.value.connectedAt < s.nextConnectedAt && (!s.statuses ==> s.connection.value.connected))
    && (forall id | id in s.listeners :: ListenerOk(s, s.listeners[id]) && Powerless(s, id))
    && (s.running.Some? ==> RunningOk(s, s.listeners[s.running.value]))
    && (s.pass.Some? ==> PassOk(s, s.pass.value))
  }

  lemma UserStepInv(s: State, e: Event)
    requires Inv(s) && (e.Connect? || e.Disconnect? || e.HistoryMarkError?)
    ensures Inv(Effect(s, e))
  {}

  lemma PassStepInv(s: State, e: Event)
    requires Inv(s) && Enabled(s, e)
    requires e.ReadSnapshot? || e.StartListener? || e.EndPass? || e.Reap?
    ensures Inv(Effect(s, e))
  {}

  lemma CompareInv(s: State)
    requires Inv(s) && Enabled(s, Compare)
    ensures Inv(Effect(s, Compare))
  {}

  lemma PublishInv(s: State, id: ListenerId)
    requires Inv(s) && Enabled(s, Publish(id))
    ensures Inv(Effect(s, Publish(id)))
  {}

  lemma EndInv(s: State, id: ListenerId)
    requires Inv(s) && id in s.listeners
    ensures Inv(End(s, id))
  {}

  lemma InvalidateInv(s: State)
    requires Inv(s) && s.connection.Some?
    ensures Inv(Invalidate(s)) && Invalidate(s).listeners.Keys == s.listeners.Keys
  {}

  lemma ClockInv(s: State, clock: nat)
    requires Inv(s)
    ensures Inv(s.(clock := clock))
  {}

  /** The owner of the row, and nobody else, moves the version on. */
  lemma SaveOwnInv(s: State, id: ListenerId)
    requires Inv(s) && In(s, id, Publishing) && Owns(s, s.listeners[id])
    ensures var l := s.listeners[id];
            Inv(Bump(s).(listeners := s.listeners[id := l.(version := l.published, phase := Listening)]))
  {
    assert Powerless(s, id) && ListenerOk(s, s.listeners[id]);
    var l := s.listeners[id];
    var s' := Bump(s).(listeners := s.listeners[id := l.(version := l.published, phase := Listening)]);
    forall other | other in s'.listeners ensures ListenerOk(s', s'.listeners[other]) && Powerless(s', other) {
      assert ListenerOk(s, s.listeners[other]) && Powerless(s, other);
    }
  }

  lemma SaveTokensInv(s: State, id: ListenerId)
    requires Inv(s) && Enabled(s, SaveTokens(id))
    ensures Inv(Effect(s, SaveTokens(id)))
  {
    assert Shape(s);
    hide Inv;
    if Owns(s, s.listeners[id]) {
      SaveOwnInv(s, id);
    } else {
      EndInv(s, id);
    }
  }

  lemma SaveTokensErrorInv(s: State, id: ListenerId, committed: bool)
    requires Inv(s) && Enabled(s, SaveTokensError(id, committed))
    ensures Inv(Effect(s, SaveTokensError(id, committed)))
  {}

  lemma EndStepInv(s: State, e: Event)
    requires Inv(s) && Enabled(s, e)
    requires e.SaveDonations? || e.RequireReauthorization? || e.MarkError? || e.Stop?
    ensures Inv(Effect(s, e))
  {
    assert Shape(s);
    hide Inv, Shape;
    EndInv(s, e.id);
    if s.connection.Some? {
      InvalidateInv(s);
      hide Rewrite, DisturbAll;
      EndInv(Invalidate(s), e.id);
    }
  }

  lemma EffectInv(s: State, e: Event)
    requires Inv(s) && Enabled(s, e)
    ensures Inv(Effect(s, e))
  {
    assert Shape(s);
    hide Inv, Effect;
    match e
    case Connect(_) => UserStepInv(s, e);
    case Disconnect => UserStepInv(s, e);
    case HistoryMarkError(_, _, _) => UserStepInv(s, e);
    case ReadSnapshot => PassStepInv(s, e);
    case StartListener => PassStepInv(s, e);
    case EndPass => PassStepInv(s, e);
    case Reap(_) => PassStepInv(s, e);
    case Compare => CompareInv(s);
    case Publish(id) => PublishInv(s, id);
    case SaveTokens(id) => SaveTokensInv(s, id);
    case SaveTokensError(id, committed) => SaveTokensErrorInv(s, id, committed);
    case SaveDonations(_) => EndStepInv(s, e);
    case RequireReauthorization(_) => EndStepInv(s, e);
    case MarkError(_) => EndStepInv(s, e);
    case Stop(_) => EndStepInv(s, e);
  }

  /** Every step keeps the invariant. */
  lemma StepInv(s: State, e: Event)
    requires Inv(s) && Enabled(s, e)
    ensures Inv(Next(s, e))
  {
    assert Shape(s);
    hide Inv, Effect;
    EffectInv(s, e);
    ClockInv(Effect(s, e), s.clock + 1);
  }

  // ---------------------------------------------------------------------------------------------
  // Runs
  // ---------------------------------------------------------------------------------------------

  ghost predicate Run(ss: seq<State>, es: seq<Event>) {
    && |ss| == |es| + 1
    && ss[0] == Initial(ss[0].statuses)
    && (forall i | 0 <= i < |ss| :: Shape(ss[i]))
    && (forall i | 0 <= i < |es| :: Enabled(ss[i], es[i]) && ss[i + 1] == Next(ss[i], es[i]))
  }

  lemma {:induction false} RunInv(ss: seq<State>, es: seq<Event>, i: nat)
    requires Run(ss, es) && i < |ss|
    ensures Inv(ss[i]) && ss[i].clock == i
  {
    if i > 0 {
      RunInv(ss, es, i - 1);
      StepInv(ss[i - 1], es[i - 1]);
    }
  }

  /** The step deletes the row, saves it by a connect, or makes it leave the connected status. */
  predicate Disturbs(s: State, e: Event) {
    match e
    case Connect(_) => true
    case Disconnect => true
    case RequireReauthorization(id) => id in s.listeners && Owns(s, s.listeners[id])
    case MarkError(id) => s.statuses && id in s.listeners && Owns(s, s.listeners[id])
    case HistoryMarkError(account, connectedAt, version) => s.statuses && Guard(s, account, connectedAt, version)
    case _ => false
  }

  /** A step between two moments of the run that did that. */
  ghost predicate DisturbedBetween(ss: seq<State>, es: seq<Event>, from: nat, to: nat) {
    exists m: nat :: from <= m < to && m < |es| && m < |ss| && Disturbs(ss[m], es[m])
  }

  lemma DisturbedNext(ss: seq<State>, es: seq<Event>, from: nat, i: nat)
    requires |ss| == |es| + 1 && from <= i < |es|
    ensures DisturbedBetween(ss, es, from, i + 1) <==> DisturbedBetween(ss, es, from, i) || Disturbs(ss[i], es[i])
  {
    if DisturbedBetween(ss, es, from, i + 1) {
      var m: nat :| from <= m < i + 1 && m < |es| && Disturbs(ss[m], es[m]);
      assert m == i || m < i;
    }
  }

  ghost predicate HistoryOk(ss: seq<State>, es: seq<Event>, i: nat) {
    && |ss| == |es| + 1 && i < |ss|
    && (forall id | id in ss[i].listeners ::
          && ss[i].listeners[id].since <= i
          && (ss[i].listeners[id].disturbed <==> DisturbedBetween(ss, es, ss[i].listeners[id].since, i)))
    && (ss[i].pass.Some? ==>
          && ss[i].pass.value.since <= i
          && (ss[i].pass.value.disturbed <==> DisturbedBetween(ss, es, ss[i].pass.value.since, i)))
  }

  lemma HistoryStep(ss: seq<State>, es: seq<Event>, i: nat)
    requires Run(ss, es) && i < |es| && HistoryOk(ss, es, i)
    requires ss[i].clock == i
    ensures HistoryOk(ss, es, i + 1)
  {
    var s, j := ss[i], i + 1;
    forall from: nat | from <= i
      ensures DisturbedBetween(ss, es, from, j) <==> DisturbedBetween(ss, es, from, i) || Disturbs(s, es[i])
    {
      DisturbedNext(ss, es, from, i);
    }
    PassHistory(s, es[i]);
    hide Next, Enabled, Shape, Disturbs, DisturbedBetween;
    forall id | id in ss[j].listeners
      ensures ss[j].listeners[id].since <= j
      ensures ss[j].listeners[id].disturbed <==> DisturbedBetween(ss, es, ss[j].listeners[id].since, j)
    {
      ListenerHistory(s, es[i], id);
    }
  }

  /** One step: who becomes disturbed, and where a listener's history comes from. */
  lemma ListenerHistory(s: State, e: Event, id: ListenerId)
    requires Enabled(s, e) && Shape(s) && id in Next(s, e).listeners
    ensures var l := Next(s, e).listeners[id];
            if id in s.listeners then
              l.since == s.listeners[id].since && (l.disturbed <==> s.listeners[id].disturbed || Disturbs(s, e))
            else
              && s.pass.Some? && l.since == s.pass.value.since && l.disturbed == s.pass.value.disturbed
              && !Disturbs(s, e)
  {}

  lemma PassHistory(s: State, e: Event)
    requires Enabled(s, e) && Shape(s)
    ensures Next(s, e).pass.Some? ==>
              var p := Next(s, e).pass.value;
              if e.ReadSnapshot? then p.since == s.clock && !p.disturbed
              else
                && s.pass.Some? && p.since == s.pass.value.since
                && (p.disturbed <==> s.pass.value.disturbed || Disturbs(s, e))
  {}

  lemma {:induction false} HistoryIsTrue(ss: seq<State>, es: seq<Event>, i: nat)
    requires Run(ss, es) && i < |ss|
    ensures HistoryOk(ss, es, i)
  {
    if i > 0 {
      HistoryIsTrue(ss, es, i - 1);
      RunInv(ss, es, i - 1);
      HistoryStep(ss, es, i - 1);
    }
  }

  /**
   A listener's own token refresh never makes the supervisor cancel it: whenever a pass cancels, then
   between the read of the snapshot the listener started from and now the row was deleted, saved by
   a connect, or left the connected status.
   */
  lemma OwnRefreshNeverCancels(ss: seq<State>, es: seq<Event>, i: nat)
    requires Run(ss, es) && i < |es| && es[i] == Compare
    requires ss[i].running.Some? && ss[i + 1].running.None?
    ensures DisturbedBetween(ss, es, ss[i].listeners[ss[i].running.value].since, i)
  {
    RunInv(ss, es, i);
    HistoryIsTrue(ss, es, i);
    var id := ss[i].running.value;
    assert ss[i].listeners[id].disturbed;
  }

  /**
   No stale listener survives a replacement. When a pass keeps a listener, the row it read was one the
   listener itself started from or wrote; or the listener has ended; or it has published the next
   version while somebody else saved that very version, and then its pending save fails and ends it.
   */
  lemma KeptListenerIsNotStale(ss: seq<State>, es: seq<Event>, i: nat)
    requires Run(ss, es) && i < |es| && es[i] == Compare && ss[i + 1].running.Some?
    ensures ss[i].running.Some? && ss[i].pass.Some? && ss[i].pass.value.row.Some?
    ensures var s, id := ss[i], ss[i].running.value;
            var l, r := s.listeners[id], s.pass.value.row.value;
            && r.account == l.account && r.connectedAt == l.connectedAt
            && (|| l.base <= r.tokenVersion <= l.version
                || l.phase.Ended?
                || (&& l.phase.Publishing? && r.tokenVersion == l.version + 1 && !Owns(s, l)
                    && Next(s, SaveTokens(id)).listeners[id].phase.Ended?
                    && Next(s, SaveTokens(id)).connection == s.connection))
  {
    RunInv(ss, es, i);
  }

  /** The pair of a listener's identity and version is lost for good once the row is not its own. */
  lemma PowerlessStep(s: State, e: Event, id: ListenerId)
    requires Inv(s) && Enabled(s, e) && id in s.listeners && !Owns(s, s.listeners[id])
    ensures id in Next(s, e).listeners && !Owns(Next(s, e), Next(s, e).listeners[id])
  {
    assert ListenerOk(s, s.listeners[id]);
  }

  lemma {:induction false} PowerlessForGood(ss: seq<State>, es: seq<Event>, i: nat, j: nat, id: ListenerId)
    requires Run(ss, es) && i <= j < |ss| && id in ss[i].listeners && !Owns(ss[i], ss[i].listeners[id])
    ensures id in ss[j].listeners && !Owns(ss[j], ss[j].listeners[id])
    decreases j - i
  {
    if i < j {
      RunInv(ss, es, i);
      PowerlessStep(ss[i], es[i], id);
      PowerlessForGood(ss, es, i + 1, j, id);
    }
  }

  predicate SameIdentity(l: Listener, l': Listener) {
    l'.account == l.account && l'.connectedAt == l.connectedAt && l'.version == l.version
  }

  lemma NonOwnerStep(s: State, e: Event, id: ListenerId)
    requires Shape(s) && Enabled(s, e) && id in s.listeners && !Owns(s, s.listeners[id])
    ensures id in Next(s, e).listeners && SameIdentity(s.listeners[id], Next(s, e).listeners[id])
  {}

  /** What a listener that does not own the row still writes, and for whom, stands still. */
  lemma {:induction false} NonOwnerStandsStill(ss: seq<State>, es: seq<Event>, i: nat, j: nat, id: ListenerId)
    requires Run(ss, es) && i <= j < |ss| && id in ss[i].listeners && !Owns(ss[i], ss[i].listeners[id])
    ensures id in ss[j].listeners && SameIdentity(ss[i].listeners[id], ss[j].listeners[id])
    decreases j
  {
    hide Next, Enabled, Shape, Owns;
    if i < j {
      NonOwnerStandsStill(ss, es, i, j - 1, id);
      PowerlessForGood(ss, es, i, j - 1, id);
      NonOwnerStep(ss[j - 1], es[j - 1], id);
    }
  }

  /** A pass keeps the row it read; until it compares, the running listener stays the same one. */
  lemma {:induction false} PassWaits(ss: seq<State>, es: seq<Event>, i: nat, j: nat)
    requires Run(ss, es) && i < j < |ss| && es[i] == ReadSnapshot && forall m | i < m < j :: es[m] != EndPass
    ensures ss[j].pass.Some?
    ensures ss[j].pass.value.row ==
            if ss[i].connection.Some? && ss[i].connection.value.connected then ss[i].connection else None
    ensures ss[j].pass.value.stage.Unchecked? ==> ss[j].running == ss[i].running
    decreases j
  {
    if i + 1 < j {
      PassWaits(ss, es, i, j - 1);
    }
  }

  /**
   No stale listener survives a pass. When a pass reads its snapshot after the running listener has lost
   the row, its comparison leaves no listener running, unless that listener has ended, or is in the middle
   of a refresh whose save fails and ends it.
   */
  lemma ReplacementIsSeen(ss: seq<State>, es: seq<Event>, i: nat, j: nat, id: ListenerId)
    requires Run(ss, es) && i < j < |es| && es[i] == ReadSnapshot && es[j] == Compare
    requires forall m | i < m < j :: es[m] != EndPass
    requires ss[i].running == Some(id) && id in ss[i].listeners && !Owns(ss[i], ss[i].listeners[id])
    ensures id in ss[j].listeners
    ensures var s, l := ss[j], ss[j].listeners[id];
            || ss[j + 1].running.None?
            || l.phase.Ended?
            || (&& l.phase.Publishing? && !Owns(s, l)
                && Next(s, SaveTokens(id)).listeners[id].phase.Ended?
                && Next(s, SaveTokens(id)).connection == s.connection)
  {
    PassWaits(ss, es, i, j);
    NonOwnerStandsStill(ss, es, i, j, id);
    RunInv(ss, es, i);
    if ss[j + 1].running.Some? {
      KeptListenerIsNotStale(ss, es, j);
      assert ListenerOk(ss[i], ss[i].listeners[id]);
    }
  }

  /** From then on each guarded write it attempts leaves the row as it is and ends the listener. */
  lemma StaleWritesFail(ss: seq<State>, es: seq<Event>, i: nat, j: nat, id: ListenerId)
    requires Run(ss, es) && i <= j < |es| && id in ss[i].listeners && !Owns(ss[i], ss[i].listeners[id])
    requires es[j] in {SaveTokens(id), SaveTokensError(id, true), SaveTokensError(id, false), SaveDonations(id),
                       RequireReauthorization(id), MarkError(id)}
    ensures ss[j + 1].connection == ss[j].connection
    ensures id in ss[j + 1].listeners && ss[j + 1].listeners[id].phase.Ended?
  {
    PowerlessForGood(ss, es, i, j, id);
  }

  /** At every moment at most one live listener can write at all, and it is the supervised one. */
  lemma OneWriter(ss: seq<State>, es: seq<Event>, i: nat, id: ListenerId)
    requires Run(ss, es) && i < |ss| && id in ss[i].listeners
    requires !ss[i].listeners[id].phase.Ended? && Owns(ss[i], ss[i].listeners[id])
    ensures ss[i].running == Some(id)
  {
    RunInv(ss, es, i);
    assert Powerless(ss[i], id);
  }
}
