/**
 What every step of a supervisor run does, told from the side of what it changes: the connection row, a listener,
 which listener runs, and the pass. Each theorem lists, in columns, which steps make a change and under exactly which
 conditions; in every other case the value stays.
 */
module SupervisorEffects {
  import opened Base
  import opened Supervisor

  /** Account, connection time and version of the listener are those of the row, and the row is connected. */
  predicate Matches(s: State, id: ListenerId) {
    && id in s.listeners && s.connection.Some? && s.connection.value.connected
    && s.connection.value.account == s.listeners[id].account
    && s.connection.value.connectedAt == s.listeners[id].connectedAt
    && s.connection.value.tokenVersion == s.listeners[id].version
  }

  /** The row, once it stops being connected. */
  function Disconnected(s: State): Option<Connection>
    requires s.connection.Some?
  {
    if s.statuses then Some(s.connection.value.(connected := false)) else None
  }

  function NextVersion(s: State): Option<Connection>
    requires s.connection.Some?
  {
    Some(s.connection.value.(tokenVersion := s.connection.value.tokenVersion + 1))
  }

  /** All that can happen to the row, and when. */
  function RowNext(s: State, e: Event): Option<Connection> {
    match e
    case Connect(account) =>
      (match s.connection
       case None => Some(Connection(account, s.nextConnectedAt, 1, true))
       case Some(c) => Some(Connection(account, c.connectedAt, c.tokenVersion + 1, true)))
    case Disconnect => None
    case SaveTokens(id) => if Matches(s, id) then NextVersion(s) else s.connection
    case SaveTokensError(id, committed) => if committed && Matches(s, id) then NextVersion(s) else s.connection
    case RequireReauthorization(id) => if Matches(s, id) then Disconnected(s) else s.connection
    case MarkError(id) => if s.statuses && Matches(s, id) then Disconnected(s) else s.connection
    case HistoryMarkError(account, connectedAt, version) =>
      if s.statuses && s.connection == Some(Connection(account, connectedAt, version, true)) then Disconnected(s)
      else s.connection
    case _ => s.connection
  }

  lemma RowAfter(s: State, e: Event)
    requires Shape(s) && Enabled(s, e)
    ensures Next(s, e).connection == RowNext(s, e)
  {
    hide DisturbAll;
  }

  /** At every step of every run the row is the one listed above. */
  lemma RowStep(ss: seq<State>, es: seq<Event>, i: nat)
    requires Run(ss, es) && i < |es|
    ensures ss[i + 1].connection == RowNext(ss[i], es[i])
  {
    hide Next, RowNext;
    RowAfter(ss[i], es[i]);
  }

  datatype Outlook = Outlook(account: nat, connectedAt: nat, version: nat, published: nat, phase: Phase)

  /** The listener without its history. */
  function OutlookOf(l: Listener): Outlook {
    Outlook(l.account, l.connectedAt, l.version, l.published, l.phase)
  }

  /** All that can happen to a listener, and when. */
  function ListenerNext(s: State, e: Event, id: ListenerId): Outlook
    requires id in s.listeners
  {
    var l := OutlookOf(s.listeners[id]);
    if e == Publish(id) then l.(published := l.version + 1, phase := Publishing)
    else if e == SaveTokens(id) && Matches(s, id) then l.(version := l.version + 1, phase := Listening)
    else if e == SaveDonations(id) && Matches(s, id) then l
    else if e in {SaveTokens(id), SaveTokensError(id, true), SaveTokensError(id, false), SaveDonations(id),
                  RequireReauthorization(id), MarkError(id), Stop(id)}
    then l.(phase := Ended)
    else l
  }

  lemma ListenerWrites(s: State, e: Event, id: ListenerId)
    requires Shape(s) && Enabled(s, e) && id in s.listeners && ListenerOk(s, s.listeners[id])
    requires e.SaveTokens? || e.SaveTokensError? || e.SaveDonations? || e.RequireReauthorization? || e.MarkError?
    ensures id in Next(s, e).listeners && OutlookOf(Next(s, e).listeners[id]) == ListenerNext(s, e, id)
  {
    hide Shape;
  }

  lemma ListenerWaits(s: State, e: Event, id: ListenerId)
    requires Shape(s) && Enabled(s, e) && id in s.listeners
    requires !e.SaveTokens? && !e.SaveTokensError? && !e.SaveDonations? && !e.RequireReauthorization? && !e.MarkError?
    ensures id in Next(s, e).listeners && OutlookOf(Next(s, e).listeners[id]) == ListenerNext(s, e, id)
  {
    hide Matches;
  }

  /** At every step of every run a listener is as listed above. */
  lemma ListenerStep(ss: seq<State>, es: seq<Event>, i: nat, id: ListenerId)
    requires Run(ss, es) && i < |es| && id in ss[i].listeners
    ensures id in ss[i + 1].listeners && OutlookOf(ss[i + 1].listeners[id]) == ListenerNext(ss[i], es[i], id)
  {
    var s, e := ss[i], es[i];
    hide Next, ListenerNext;
    RunInv(ss, es, i);
    assert ListenerOk(s, s.listeners[id]);
    if e.SaveTokens? || e.SaveTokensError? || e.SaveDonations? || e.RequireReauthorization? || e.MarkError? {
      ListenerWrites(s, e, id);
    } else {
      ListenerWaits(s, e, id);
    }
  }

  /** A pass reads a connected row while no listener runs, or cancelled the one that ran. */
  predicate Starts(s: State, e: Event) {
    e.StartListener? && s.pass.Some? && s.pass.value.row.Some? && s.running.None?
  }

  /** The row the pass read is gone, another account's, of another connection, or newer than the listener published. */
  predicate Outdated(s: State) {
    && s.pass.Some? && s.running.Some? && s.running.value in s.listeners
    && (s.pass.value.row.None?
        || s.pass.value.row.value.account != s.listeners[s.running.value].account
        || s.pass.value.row.value.connectedAt != s.listeners[s.running.value].connectedAt
        || s.pass.value.row.value.tokenVersion > s.listeners[s.running.value].published)
  }

  /** Which listener runs after a step. */
  function RunningNext(s: State, e: Event): Option<ListenerId> {
    if e == Compare && Outdated(s) then None
    else if Starts(s, e) then Some(s.nextListener)
    else if e.Reap? && s.running == Some(e.id) then None
    else s.running
  }

  /** The listener a pass starts serves the row that the pass read. */
  predicate StartsAfresh(s: State, t: State)
    requires s.pass.Some? && s.pass.value.row.Some?
  {
    var c := s.pass.value.row.value;
    && s.nextListener !in s.listeners && s.nextListener in t.listeners
    && OutlookOf(t.listeners[s.nextListener])
       == Outlook(c.account, c.connectedAt, c.tokenVersion, c.tokenVersion, Listening)
  }

  lemma RunningAfter(s: State, e: Event)
    requires Shape(s) && Enabled(s, e)
    ensures Next(s, e).running == RunningNext(s, e)
  {
    hide DisturbAll, Owns, Guard;
  }

  lemma StartAfter(s: State, e: Event)
    requires Shape(s) && Enabled(s, e)
    ensures Next(s, e).listeners.Keys == s.listeners.Keys + if Starts(s, e) then {s.nextListener} else {}
    ensures Starts(s, e) ==> StartsAfresh(s, Next(s, e))
  {
    hide Owns, Guard;
  }

  /** At every step: which listener runs, and which one is new. */
  lemma RunningStep(ss: seq<State>, es: seq<Event>, i: nat)
    requires Run(ss, es) && i < |es|
    ensures ss[i + 1].running == RunningNext(ss[i], es[i])
    ensures ss[i + 1].listeners.Keys ==
            ss[i].listeners.Keys + if Starts(ss[i], es[i]) then {ss[i].nextListener} else {}
    ensures Starts(ss[i], es[i]) ==> StartsAfresh(ss[i], ss[i + 1])
  {
    hide Next, RunningNext, StartsAfresh;
    RunningAfter(ss[i], es[i]);
    StartAfter(ss[i], es[i]);
  }

  /** At every step: what the pass has read and how far it is. */
  lemma PassStep(ss: seq<State>, es: seq<Event>, i: nat)
    requires Run(ss, es) && i < |es|
    ensures var s, p := ss[i], ss[i + 1].pass;
            match es[i]
            case ReadSnapshot =>
              && p.Some?
              && p.value.row == (if s.connection.Some? && s.connection.value.connected then s.connection else None)
              && p.value.stage == (if s.running.Some? then Unchecked else Unstarted)
            case Compare => p.Some? && s.pass.Some? && p.value.row == s.pass.value.row && p.value.stage == Unstarted
            case StartListener => p.Some? && s.pass.Some? && p.value.row == s.pass.value.row && p.value.stage == Done
            case EndPass => p.None?
            case _ =>
              && (p.Some? <==> s.pass.Some?)
              && (p.Some? ==> p.value.row == s.pass.value.row && p.value.stage == s.pass.value.stage)
  {}

  /**
   A listener that publishes while it owns the row completes its refresh: the row's version goes up by one, and the
   listener goes on under exactly that version, still the running one and the owner.
   */
  lemma OwnRefreshSucceeds(ss: seq<State>, es: seq<Event>, i: nat, id: ListenerId)
    requires Run(ss, es) && i < |es| && es[i] == SaveTokens(id) && Matches(ss[i], id)
    ensures var c, c' := ss[i].connection.value, ss[i + 1].connection;
            && c' == Some(c.(tokenVersion := c.tokenVersion + 1)) && c'.value.connected
            && ss[i + 1].running == Some(id) && Matches(ss[i + 1], id)
    ensures var l, l' := ss[i].listeners[id], ss[i + 1].listeners[id];
            && l'.phase.Listening? && l'.version == l'.published == ss[i + 1].connection.value.tokenVersion
            && l'.account == l.account && l'.connectedAt == l.connectedAt
  {
    RowStep(ss, es, i);
    ListenerStep(ss, es, i, id);
    RunInv(ss, es, i);
    assert ListenerOk(ss[i], ss[i].listeners[id]) && Powerless(ss[i], id);
    RunInv(ss, es, i + 1);
    assert ListenerOk(ss[i + 1], ss[i + 1].listeners[id]) && Powerless(ss[i + 1], id);
    hide Next, Inv, Run;
  }

  /** An owner's save of donations leaves it listening; losing the authorization, or an error where there are
      statuses, takes its row out of connected and ends it. */
  lemma OwnWritesCount(ss: seq<State>, es: seq<Event>, i: nat, id: ListenerId)
    requires Run(ss, es) && i < |es| && Matches(ss[i], id)
    ensures es[i] == SaveDonations(id) ==>
              Matches(ss[i + 1], id) && ss[i + 1].listeners[id].phase == ss[i].listeners[id].phase
    ensures es[i] == RequireReauthorization(id) || (es[i] == MarkError(id) && ss[i].statuses) ==>
              && (ss[i + 1].connection.Some? ==> !ss[i + 1].connection.value.connected)
              && id in ss[i + 1].listeners && ss[i + 1].listeners[id].phase.Ended?
  {
    RowStep(ss, es, i);
    ListenerStep(ss, es, i, id);
    hide Next, Run;
  }
}
