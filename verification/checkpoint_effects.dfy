/**
 What every step of a checkpoint run does, told from the side of what it changes: the connection row, a holder, an
 import, and the rows stored and reported. In every case that is not listed the value stays.
 */
module CheckpointEffects {
  import opened Base
  import opened StreamlabsHistory
  import opened Checkpoints

  /** Account, connection time and version of the holder are those of the row. */
  predicate Matches(s: State, id: HolderId) {
    && id in s.holders && s.connection.Some?
    && s.connection.value.account == s.holders[id].account
    && s.connection.value.connectedAt == s.holders[id].connectedAt
    && s.connection.value.version == s.holders[id].version
  }

  /** The row under the checkpoint of a saved batch; a batch of an empty log has none, and the row keeps its own. */
  function Moved(c: Connection, checkpoint: Option<string>): Connection {
    if checkpoint.Some? then c.(checkpoint := checkpoint) else c
  }

  /** The batch the step saves, if it saves one and the row is the holder's. */
  function Saves(s: State, e: Event): Option<Batch> {
    match e
    case Save(id) => if Matches(s, id) then s.holders[id].batch else None
    case SaveFails(id, committed) => if committed && Matches(s, id) then s.holders[id].batch else None
    case _ => None
  }

  /** All that can happen to the row, and when. */
  function RowNext(s: State, e: Event): Option<Connection> {
    if Saves(s, e).Some? && s.connection.Some? then
      Some(Moved(s.connection.value, Saves(s, e).value.history.checkpoint))
    else
      match e
      case SaveImport(id, connectedAt) =>
        if id !in s.imports then s.connection
        else
          var i := s.imports[id];
          var checkpoint := i.batch.history.checkpoint;
          (match s.connection
           case None => Some(Connection(i.account, connectedAt, 1, checkpoint))
           case Some(c) => Some(Connection(i.account, c.connectedAt, c.version + 1, checkpoint)))
      case RefreshTokens(id) =>
        if Matches(s, id) then Some(s.connection.value.(version := s.connection.value.version + 1)) else s.connection
      case Disconnect => None
      case _ => s.connection
  }

  lemma RowAfter(s: State, e: Event)
    requires Enabled(s, e)
    ensures Next(s, e).connection == RowNext(s, e)
  {
    hide HistoryOf, Ids, Without;
  }

  function HolderOf(s: State, id: HolderId): Option<Holder> {
    if id in s.holders then Some(s.holders[id]) else None
  }

  /** All that can happen to a listener or a pass, and when. */
  function HolderNext(s: State, e: Event, id: HolderId): Option<Holder> {
    if e == Open(id) && s.connection.Some? then
      var c := s.connection.value;
      Some(Holder(c.account, c.connectedAt, c.version, c.checkpoint, None))
    else if id !in s.holders then None
    else
      var h := s.holders[id];
      if e == ReadHistory(id) then
        Some(h.(batch := Some(Batch(HistoryOf(Reversed(Log(s, h.account)), h.checkpoint), |Log(s, h.account)|))))
      else if e == Save(id) && Matches(s, id) && h.batch.Some? then
        Some(h.(checkpoint := h.batch.value.history.checkpoint, batch := None))
      else if e == RefreshTokens(id) && Matches(s, id) then Some(h.(version := h.version + 1))
      else if e in {Save(id), SaveFails(id, true), SaveFails(id, false), RefreshTokens(id), Close(id)} then None
      else Some(h)
  }

  lemma HolderAfter(s: State, e: Event, id: HolderId)
    requires Enabled(s, e)
    ensures HolderOf(Next(s, e), id) == HolderNext(s, e, id)
  {
    hide HistoryOf, Ids, Reversed;
  }

  function ImportOf(s: State, id: HolderId): Option<Import> {
    if id in s.imports then Some(s.imports[id]) else None
  }

  /** All that can happen to a connect between its import and its save. */
  function ImportNext(s: State, e: Event, id: HolderId): Option<Import> {
    if e.ImportHistory? && e.id == id then
      var log := Log(s, e.account);
      Some(Import(e.account, Batch(HistoryOf(Reversed(log), None), |log|)))
    else if (e.SaveImport? || e.AbandonImport?) && e.id == id then None
    else ImportOf(s, id)
  }

  lemma ImportAfter(s: State, e: Event, id: HolderId)
    requires Enabled(s, e)
    ensures ImportOf(Next(s, e), id) == ImportNext(s, e, id)
  {
    hide HistoryOf, Ids, Reversed;
  }

  /** The batch whose rejected rows the step reports, whether or not it is then saved. */
  function Reports(s: State, e: Event): Option<Batch> {
    match e
    case SaveImport(id, _) => if id in s.imports then Some(s.imports[id].batch) else None
    case Save(id) => if id in s.holders then s.holders[id].batch else None
    case SaveFails(id, _) => if id in s.holders then s.holders[id].batch else None
    case _ => None
  }

  /** The batch whose donations the step stores. */
  function Stores(s: State, e: Event): Option<Batch> {
    if e.SaveImport? then Reports(s, e) else Saves(s, e)
  }

  predicate Named(rows: seq<Row>, id: string) {
    exists i :: 0 <= i < |rows| && rows[i].id == id
  }

  /** A donation is stored with the batch that brings it, a rejected row is reported with it, and the provider's log
      grows by its own rows only. */
  lemma RecordsAfter(s: State, e: Event, id: string, account: Account)
    requires Enabled(s, e)
    ensures id in Next(s, e).stored <==>
            id in s.stored || (Stores(s, e).Some? && Named(Stores(s, e).value.history.donations, id))
    ensures id in Next(s, e).reported <==>
            id in s.reported || (Reports(s, e).Some? && Named(Reports(s, e).value.history.rejected, id))
    ensures Log(Next(s, e), account) ==
            if e.Donate? && e.account == account then Log(s, account) + [e.row] else Log(s, account)
  {
    hide HistoryOf, Without, Reversed;
  }

  /** At every step of every run the row, each holder and each import are as listed above. */
  lemma StateNext(ss: seq<State>, es: seq<Event>, i: nat, id: HolderId)
    requires Run(ss, es) && i < |es|
    ensures ss[i + 1].connection == RowNext(ss[i], es[i])
    ensures HolderOf(ss[i + 1], id) == HolderNext(ss[i], es[i], id)
    ensures ImportOf(ss[i + 1], id) == ImportNext(ss[i], es[i], id)
  {
    hide Next, RowNext, HolderNext, ImportNext, HolderOf, ImportOf;
    RowAfter(ss[i], es[i]);
    HolderAfter(ss[i], es[i], id);
    ImportAfter(ss[i], es[i], id);
  }

  /** The newest row's identifier, unless the log is empty. */
  function Newest(log: seq<Row>): Option<string> {
    if log == [] then None else Some(log[|log| - 1].id)
  }

  /**
   A pass that reads at moment i and saves at moment j, with the row still its own, moves the checkpoint to the newest
   row of moment i, or leaves it where it was if there was none, and goes on from there. If the row is not its own any
   more, it changes neither the row nor what is stored, and it ends.
   */
  lemma SavedPassMovesCheckpoint(ss: seq<State>, es: seq<Event>, i: nat, j: nat, id: HolderId)
    requires Run(ss, es) && i < j < |es| && es[i] == ReadHistory(id) && es[j] == Save(id)
    requires forall m | i < m < j :: LeavesAlone(es[m], id)
    ensures id in ss[i].holders && id in ss[j].holders
    ensures var newest := Newest(Log(ss[i], ss[i].holders[id].account));
            && (Matches(ss[j], id) ==>
                  && ss[j + 1].connection.Some?
                  && ss[j + 1].connection.value.checkpoint
                     == (if newest.Some? then newest else ss[j].connection.value.checkpoint)
                  && ss[j + 1].connection.value.version == ss[j].connection.value.version
                  && Matches(ss[j + 1], id) && ss[j + 1].holders[id].batch.None?
                  && (newest.Some? ==> ss[j + 1].holders[id].checkpoint == newest))
            && (!Matches(ss[j], id) ==>
                  && ss[j + 1].connection == ss[j].connection && ss[j + 1].stored == ss[j].stored
                  && id !in ss[j + 1].holders)
  {
    var n, log := i + 1, Log(ss[i], ss[i].holders[id].account);
    StateNext(ss, es, i, id);
    StateNext(ss, es, j, id);
    HolderWaits(ss, es, n, j, id);
    assert log != [] ==> Reversed(log)[0] == log[|log| - 1];
    RunInv(ss, es, i);
    assert HolderOk(ss[i], ss[i].holders[id]);
    assert log == [] ==> ss[i].holders[id].checkpoint.None?;
    hide Reversed, Run, Newer, Select;
    if !Matches(ss[j], id) {
      NothingStored(ss[j], es[j]);
    }
  }

  lemma NothingStored(s: State, e: Event)
    requires Enabled(s, e) && Stores(s, e).None?
    ensures Next(s, e).stored == s.stored
  {
    hide HistoryOf, Ids;
  }
}
