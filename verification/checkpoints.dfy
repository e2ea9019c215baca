/**
 The history checkpoint of one user's Streamlabs connection. Live listeners, recent and hourly history
 passes and reconnects each read the account's donation log from the checkpoint they hold, and later
 save what they read together with a new checkpoint. They interleave freely, so a slow one may replace
 a newer checkpoint with an older one.
 */
module Checkpoints {
  import opened Base
  import opened StreamlabsHistory

  type Account = nat
  type HolderId = nat

  /** A saved connection: identity, version and checkpoint. */
  datatype Connection = Connection(account: Account, connectedAt: int, version: nat, checkpoint: Option<string>)

  /** A history read and not yet saved. `upTo` is history: how many rows the log had at its first page. */
  datatype Batch = Batch(history: History, upTo: nat)

  /** A listener or a history pass: the connection it read, the checkpoint it holds, what it read. */
  datatype Holder = Holder(account: Account, connectedAt: int, version: nat, checkpoint: Option<string>,
                           batch: Option<Batch>)

  /** A connect between its import and its save. */
  datatype Import = Import(account: Account, batch: Batch)

  /** `stored` and `reported` are the identifiers with a donation row, and those reported as rejected. */
  datatype State = State(
    logs: map<Account, seq<Row>>,
    connection: Option<Connection>,
    holders: map<HolderId, Holder>,
    imports: map<HolderId, Import>,
    stored: set<string>,
    reported: set<string>)

  const INITIAL := State(map[], None, map[], map[], {}, {})

  datatype Event =
    | Donate(account: Account, row: Row)
    | ImportHistory(id: HolderId, account: Account)
    | SaveImport(id: HolderId, connectedAt: int)
    | AbandonImport(id: HolderId)
    | Disconnect
    | Open(id: HolderId)
    | ReadHistory(id: HolderId)
    | Save(id: HolderId)
    | SaveFails(id: HolderId, committed: bool)
    | RefreshTokens(id: HolderId)
    | Close(id: HolderId)

  function Log(s: State, account: Account): seq<Row> {
    if account in s.logs then s.logs[account] else []
  }

  /** A row the provider may add: identifiers do not repeat, and only invalid rows lack one. */
  predicate New(log: seq<Row>, row: Row) {
    && (row.valid ==> row.id != "")
    && (row.id != "" ==> forall i | 0 <= i < |log| :: log[i].id != row.id)
  }

  /** A complete walk of the log as it is now. It fails when the newest row has no identifier. */
  predicate Readable(log: seq<Row>) {
    log != [] ==> log[|log| - 1].id != ""
  }

  predicate Enabled(s: State, e: Event) {
    match e
    case Donate(account, row) => New(Log(s, account), row)
    case ImportHistory(id, account) => Readable(Log(s, account))
    case SaveImport(id, _) => id in s.imports
    case AbandonImport(_) => true
    case Disconnect => true
    case Open(_) => s.connection.Some?
    case ReadHistory(id) => id in s.holders && Readable(Log(s, s.holders[id].account))
    case Save(id) => id in s.holders && s.holders[id].batch.Some?
    case SaveFails(id, _) => id in s.holders && s.holders[id].batch.Some?
    case RefreshTokens(id) => id in s.holders
    case Close(_) => true
  }

  // ---------------------------------------------------------------------------------------------
  // Steps
  // ---------------------------------------------------------------------------------------------

  function Ids(rows: seq<Row>): set<string> {
    set i | 0 <= i < |rows| :: rows[i].id
  }

  function ReadBatch(log: seq<Row>, checkpoint: Option<string>): Batch {
    Batch(HistoryOf(Reversed(log), checkpoint), |log|)
  }

  /** Rejected rows are reported before the donations are saved, and whether or not they are. */
  function Report(s: State, b: Batch): State {
    s.(reported := s.reported + Ids(b.history.rejected))
  }

  function Store(s: State, b: Batch): State {
    s.(stored := s.stored + Ids(b.history.donations))
  }

  /** The condition of every guarded write. */
  predicate Guard(s: State, h: Holder) {
    && s.connection.Some?
    && s.connection.value.account == h.account
    && s.connection.value.connectedAt == h.connectedAt
    && s.connection.value.version == h.version
  }

  /** The guarded save: the checkpoint, unless the batch has none, together with the donations. */
  function Commit(s: State, b: Batch): State
    requires s.connection.Some?
  {
    var c := s.connection.value;
    var checkpoint := if b.history.checkpoint.Some? then b.history.checkpoint else c.checkpoint;
    Store(s, b).(connection := Some(c.(checkpoint := checkpoint)))
  }

  function Without<T>(m: map<HolderId, T>, id: HolderId): map<HolderId, T> {
    map k | k in m && k != id :: m[k]
  }

  /** A connect inserts the row, or keeps its connection time and raises its version. */
  function SaveConnection(s: State, i: Import, connectedAt: int): State {
    var inserted := Connection(i.account, connectedAt, 1, i.batch.history.checkpoint);
    var row := match s.connection
               case None => inserted
               case Some(c) => inserted.(connectedAt := c.connectedAt, version := c.version + 1);
    Store(Report(s, i.batch), i.batch).(connection := Some(row))
  }

  function Next(s: State, e: Event): State
    requires Enabled(s, e)
  {
    match e
    case Donate(account, row) => s.(logs := s.logs[account := Log(s, account) + [row]])
    case ImportHistory(id, account) =>
      s.(imports := s.imports[id := Import(account, ReadBatch(Log(s, account), None))])
    case SaveImport(id, connectedAt) =>
      SaveConnection(s, s.imports[id], connectedAt).(imports := Without(s.imports, id))
    case AbandonImport(id) => s.(imports := Without(s.imports, id))
    case Disconnect => s.(connection := None)
    case Open(id) =>
      var c := s.connection.value;
      s.(holders := s.holders[id := Holder(c.account, c.connectedAt, c.version, c.checkpoint, None)])
    case ReadHistory(id) =>
      var h := s.holders[id];
      s.(holders := s.holders[id := h.(batch := Some(ReadBatch(Log(s, h.account), h.checkpoint)))])
    case Save(id) =>
      var h := s.holders[id];
      var b := h.batch.value;
      var s1 := Report(s, b);
      if Guard(s, h)
      then Commit(s1, b).(holders := s.holders[id := h.(checkpoint := b.history.checkpoint, batch := None)])
      else s1.(holders := Without(s.holders, id))
    case SaveFails(id, committed) =>
      var h := s.holders[id];
      var s1 := Report(s, h.batch.value).(holders := Without(s.holders, id));
      if committed && Guard(s, h) then Commit(s1, h.batch.value) else s1
    case RefreshTokens(id) =>
      var h := s.holders[id];
      if Guard(s, h)
      then s.(connection := Some(s.connection.value.(version := h.version + 1)),
              holders := s.holders[id := h.(version := h.version + 1)])
      else s.(holders := Without(s.holders, id))
    case Close(id) => s.(holders := Without(s.holders, id))
  }

  // ---------------------------------------------------------------------------------------------
  // Soundness of checkpoints
  // ---------------------------------------------------------------------------------------------

  /** A valid row has its donation stored, an invalid one was reported. */
  predicate Handled(s: State, row: Row) {
    if row.valid then row.id in s.stored else row.id in s.reported
  }

  /** The checkpoint names a row of the log, and that row and all older ones are handled. */
  ghost predicate Sound(s: State, account: Account, checkpoint: Option<string>) {
    checkpoint.Some? ==>
      && checkpoint.value != ""
      && exists p :: 0 <= p < |Log(s, account)| && Marks(s, account, checkpoint.value, p)
  }

  ghost predicate Marks(s: State, account: Account, id: string, p: nat) {
    && p < |Log(s, account)|
    && Log(s, account)[p].id == id
    && forall q | 0 <= q <= p :: Handled(s, Log(s, account)[q])
  }

  /** Once it is reported and stored, the batch leaves nothing of the log it read unhandled. */
  ghost predicate Complete(s: State, account: Account, b: Batch) {
    var log := Log(s, account);
    && b.upTo <= |log|
    && (b.history.checkpoint.Some? <==> b.upTo > 0)
    && (b.upTo > 0 ==> log[b.upTo - 1].id != "" && b.history.checkpoint == Some(log[b.upTo - 1].id))
    && (forall q | 0 <= q < b.upTo :: Handled(s, log[q]) || Brings(b, log[q]))
  }

  ghost predicate Brings(b: Batch, row: Row) {
    if row.valid then row in b.history.donations else row in b.history.rejected
  }

  ghost predicate HolderOk(s: State, h: Holder) {
    && Sound(s, h.account, h.checkpoint)
    && (h.batch.Some? ==> Complete(s, h.account, h.batch.value))
  }

  ghost predicate ImportOk(s: State, i: Import) {
    Complete(s, i.account, i.batch)
  }

  ghost predicate Inv(s: State) {
    && (forall account | account in s.logs :: LogOk(s.logs[account]))
    && (s.connection.Some? ==> Sound(s, s.connection.value.account, s.connection.value.checkpoint))
    && (forall id | id in s.holders :: HolderOk(s, s.holders[id]))
    && (forall id | id in s.imports :: ImportOk(s, s.imports[id]))
  }

  /** Logs and the handled rows only grow. */
  ghost predicate Grows(s: State, t: State) {
    && (forall account :: Log(s, account) <= Log(t, account))
    && s.stored <= t.stored && s.reported <= t.reported
  }

  lemma SoundStays(s: State, t: State, account: Account, checkpoint: Option<string>)
    requires Grows(s, t) && Sound(s, account, checkpoint)
    ensures Sound(t, account, checkpoint)
  {
    if checkpoint.Some? {
      var p :| 0 <= p < |Log(s, account)| && Marks(s, account, checkpoint.value, p);
      assert Log(s, account) <= Log(t, account);
      assert Marks(t, account, checkpoint.value, p);
    }
  }

  lemma CompleteStays(s: State, t: State, account: Account, b: Batch)
    requires Grows(s, t) && Complete(s, account, b)
    ensures Complete(t, account, b)
  {
    assert Log(s, account) <= Log(t, account);
    forall q | 0 <= q < b.upTo ensures Handled(t, Log(t, account)[q]) || Brings(b, Log(t, account)[q]) {
      assert Log(t, account)[q] == Log(s, account)[q];
    }
  }

  lemma StepGrows(s: State, e: Event)
    requires Enabled(s, e)
    ensures Grows(s, Next(s, e))
  {}

  /** What a walk from a sound checkpoint reads, together with what is handled, is the whole log. */
  lemma ReadIsComplete(s: State, account: Account, checkpoint: Option<string>)
    requires Sound(s, account, checkpoint) && Readable(Log(s, account)) && LogOk(Log(s, account))
    ensures Complete(s, account, ReadBatch(Log(s, account), checkpoint))
  {
    var log := Log(s, account);
    var rows := Reversed(log);
    var k := NewerIsPrefix(rows, checkpoint);
    forall q | 0 <= q < |log| ensures Handled(s, log[q]) || Brings(ReadBatch(log, checkpoint), log[q]) {
      var i := |log| - 1 - q;
      assert rows[i] == log[q];
      if i < k {
        assert rows[..k][i] == rows[i];
        SelectKeeps(rows[..k], log[q].valid, log[q]);
      } else {
        var p :| 0 <= p < |log| && Marks(s, account, checkpoint.value, p);
        assert rows[k] == log[|log| - 1 - k];
        assert p == |log| - 1 - k;
      }
    }
  }

  /** Once a batch is reported and stored, its checkpoint is sound. */
  lemma SavedIsSound(s: State, account: Account, b: Batch)
    requires Complete(s, account, b)
    requires Ids(b.history.donations) <= s.stored && Ids(b.history.rejected) <= s.reported
    ensures Sound(s, account, b.history.checkpoint)
    ensures forall q | 0 <= q < b.upTo :: Handled(s, Log(s, account)[q])
  {
    forall q | 0 <= q < b.upTo ensures Handled(s, Log(s, account)[q]) {
      if Brings(b, Log(s, account)[q]) {
        assert Log(s, account)[q].id in Ids(b.history.donations) + Ids(b.history.rejected);
      }
    }
    if b.upTo > 0 {
      var p := b.upTo - 1;
      assert Marks(s, account, Log(s, account)[p].id, p);
    }
  }

  // ---------------------------------------------------------------------------------------------
  // Every step keeps it
  // ---------------------------------------------------------------------------------------------

  /** What a step leaves alone stays sound. */
  lemma Frame(s: State, t: State)
    requires Inv(s) && Grows(s, t)
    ensures s.connection.Some? ==> Sound(t, s.connection.value.account, s.connection.value.checkpoint)
    ensures forall id | id in s.holders :: HolderOk(t, s.holders[id])
    ensures forall id | id in s.imports :: ImportOk(t, s.imports[id])
  {
    if s.connection.Some? {
      SoundStays(s, t, s.connection.value.account, s.connection.value.checkpoint);
    }
    forall id | id in s.holders ensures HolderOk(t, s.holders[id]) {
      var h := s.holders[id];
      assert HolderOk(s, h);
      SoundStays(s, t, h.account, h.checkpoint);
      if h.batch.Some? {
        CompleteStays(s, t, h.account, h.batch.value);
      }
    }
    forall id | id in s.imports ensures ImportOk(t, s.imports[id]) {
      assert ImportOk(s, s.imports[id]);
      CompleteStays(s, t, s.imports[id].account, s.imports[id].batch);
    }
  }

  /** A saved batch leaves its account sound, with the new checkpoint or with the one kept for an empty log. */
  lemma CommitIsSound(s: State, t: State, account: Account, b: Batch)
    requires Grows(s, t) && Complete(s, account, b)
    requires Ids(b.history.donations) <= t.stored && Ids(b.history.rejected) <= t.reported
    ensures Sound(t, account, b.history.checkpoint)
  {
    CompleteStays(s, t, account, b);
    SavedIsSound(t, account, b);
  }

  lemma LogsStayOk(s: State, account: Account, row: Row)
    requires Inv(s) && Enabled(s, Donate(account, row))
    ensures var logs := Next(s, Donate(account, row)).logs;
            forall a | a in logs :: LogOk(logs[a])
  {
    var log := Log(s, account);
    assert LogOk(log);
    assert LogOk(log + [row]) by {
      forall i, j | 0 <= i < j < |log + [row]| && (log + [row])[i].id == (log + [row])[j].id
        ensures (log + [row])[i].id == ""
      {}
    }
  }

  lemma LogStepInv(s: State, e: Event)
    requires Inv(s) && Enabled(s, e) && (e.Donate? || e.ImportHistory? || e.ReadHistory?)
    ensures Inv(Next(s, e))
  {
    var t := Next(s, e);
    StepGrows(s, e);
    Frame(s, t);
    match e {
      case Donate(account, row) => LogsStayOk(s, account, row);
      case ImportHistory(_, account) =>
        assert LogOk(Log(s, account));
        ReadIsComplete(s, account, None);
        CompleteStays(s, t, account, ReadBatch(Log(s, account), None));
      case ReadHistory(id) =>
        var h := s.holders[id];
        assert HolderOk(s, h) && LogOk(Log(s, h.account));
        ReadIsComplete(s, h.account, h.checkpoint);
        CompleteStays(s, t, h.account, ReadBatch(Log(s, h.account), h.checkpoint));
    }
  }

  lemma SaveStepInv(s: State, e: Event)
    requires Inv(s) && Enabled(s, e) && (e.SaveImport? || e.Save? || e.SaveFails?)
    ensures Inv(Next(s, e))
  {
    var t := Next(s, e);
    StepGrows(s, e);
    Frame(s, t);
    hide Sound, Complete, Grows, LogOk;
    if e.SaveImport? {
      assert ImportOk(s, s.imports[e.id]);
      CommitIsSound(s, t, s.imports[e.id].account, s.imports[e.id].batch);
    } else {
      assert HolderOk(s, s.holders[e.id]);
      if Guard(s, s.holders[e.id]) && (e.SaveFails? ==> e.committed) {
        CommitIsSound(s, t, s.holders[e.id].account, s.holders[e.id].batch.value);
      }
    }
  }

  lemma OtherStepInv(s: State, e: Event)
    requires Inv(s) && Enabled(s, e)
    requires e.AbandonImport? || e.Disconnect? || e.Open? || e.RefreshTokens? || e.Close?
    ensures Inv(Next(s, e))
  {
    StepGrows(s, e);
    Frame(s, Next(s, e));
    hide Sound, Complete, Grows, LogOk;
    assert e.RefreshTokens? ==> HolderOk(Next(s, e), s.holders[e.id]);
  }

  /** Every step keeps the invariant. */
  lemma StepInv(s: State, e: Event)
    requires Inv(s) && Enabled(s, e)
    ensures Inv(Next(s, e))
  {
    hide Inv, Enabled, Next;
    if e.Donate? || e.ImportHistory? || e.ReadHistory? {
      LogStepInv(s, e);
    } else if e.SaveImport? || e.Save? || e.SaveFails? {
      SaveStepInv(s, e);
    } else {
      OtherStepInv(s, e);
    }
  }

  // ---------------------------------------------------------------------------------------------
  // Runs
  // ---------------------------------------------------------------------------------------------

  ghost predicate Run(ss: seq<State>, es: seq<Event>) {
    && |ss| == |es| + 1 && ss[0] == INITIAL
    && forall i | 0 <= i < |es| :: Enabled(ss[i], es[i]) && ss[i + 1] == Next(ss[i], es[i])
  }

  lemma {:induction false} RunInv(ss: seq<State>, es: seq<Event>, i: nat)
    requires Run(ss, es) && i < |ss|
    ensures Inv(ss[i])
  {
    if i > 0 {
      RunInv(ss, es, i - 1);
      StepInv(ss[i - 1], es[i - 1]);
    }
  }

  lemma {:induction false} RunGrows(ss: seq<State>, es: seq<Event>, i: nat, j: nat)
    requires Run(ss, es) && i <= j < |ss|
    ensures Grows(ss[i], ss[j])
    decreases j
  {
    hide Grows, Log, Next, Enabled;
    if i < j {
      RunGrows(ss, es, i, j - 1);
      StepGrows(ss[j - 1], es[j - 1]);
      GrowsOn(ss[i], ss[j - 1], ss[j]);
    } else {
      GrowsOn(ss[i], ss[i], ss[i]);
    }
  }

  lemma GrowsOn(s: State, t: State, u: State)
    requires (s == t || Grows(s, t)) && (t == u || Grows(t, u))
    ensures Grows(s, u)
  {
    forall a ensures Log(s, a) <= Log(u, a) {
      assert Log(s, a) <= Log(t, a) <= Log(u, a);
    }
  }

  /**
   In every reachable state, whatever overtook whatever, the stored checkpoint names a row of the
   connected account's log, and that row and every older one has its donation stored or was reported
   as rejected.
   */
  lemma CheckpointIsSound(ss: seq<State>, es: seq<Event>, i: nat)
    requires Run(ss, es) && i < |ss| && ss[i].connection.Some? && ss[i].connection.value.checkpoint.Some?
    ensures var c := ss[i].connection.value;
            var log := Log(ss[i], c.account);
            exists p ::
              && 0 <= p < |log| && log[p].id == c.checkpoint.value
              && forall q | 0 <= q <= p :: Handled(ss[i], log[q])
  {
    RunInv(ss, es, i);
    var c := ss[i].connection.value;
    var p :| 0 <= p < |Log(ss[i], c.account)| && Marks(ss[i], c.account, c.checkpoint.value, p);
  }

  /** So nothing is ever skipped: a walk from the stored checkpoint brings every row not yet handled. */
  lemma NextWalkBringsTheRest(ss: seq<State>, es: seq<Event>, i: nat, q: nat)
    requires Run(ss, es) && i < |ss| && ss[i].connection.Some?
    requires Readable(Log(ss[i], ss[i].connection.value.account))
    requires q < |Log(ss[i], ss[i].connection.value.account)|
    requires !Handled(ss[i], Log(ss[i], ss[i].connection.value.account)[q])
    ensures var c := ss[i].connection.value;
            var row := Log(ss[i], c.account)[q];
            var walk := HistoryOf(Reversed(Log(ss[i], c.account)), c.checkpoint);
            if row.valid then row in walk.donations else row in walk.rejected
  {
    RunInv(ss, es, i);
    var c := ss[i].connection.value;
    assert LogOk(Log(ss[i], c.account));
    ReadIsComplete(ss[i], c.account, c.checkpoint);
  }

  /** The step is not about this holder. */
  predicate LeavesAlone(e: Event, id: HolderId) {
    match e
    case Open(k) => k != id
    case ReadHistory(k) => k != id
    case Save(k) => k != id
    case SaveFails(k, _) => k != id
    case RefreshTokens(k) => k != id
    case Close(k) => k != id
    case _ => true
  }

  lemma {:induction false} HolderWaits(ss: seq<State>, es: seq<Event>, i: nat, j: nat, id: HolderId)
    requires Run(ss, es) && i <= j < |ss| && id in ss[i].holders
    requires forall m | i <= m < j :: LeavesAlone(es[m], id)
    ensures id in ss[j].holders && ss[j].holders[id] == ss[i].holders[id]
    decreases j
  {
    if i < j {
      HolderWaits(ss, es, i, j - 1, id);
    }
  }

  /**
   A pass that reads at moment i and saves successfully at moment j leaves nothing behind that was in
   the log at moment i, whatever happens in between, and whatever checkpoint it started from. The same
   holds for good.
   */
  lemma SavedPassIsComplete(ss: seq<State>, es: seq<Event>, i: nat, j: nat, k: nat, id: HolderId, q: nat)
    requires Run(ss, es) && i < j < k < |ss|
    requires es[i] == ReadHistory(id) && es[j] == Save(id) && forall m | i < m < j :: LeavesAlone(es[m], id)
    requires id in ss[j].holders && Guard(ss[j], ss[j].holders[id])
    requires id in ss[i].holders && q < |Log(ss[i], ss[i].holders[id].account)|
    ensures Handled(ss[k], Log(ss[i], ss[i].holders[id].account)[q])
  {
    var account := ss[i].holders[id].account;
    var n := i + 1;
    HolderWaits(ss, es, n, j, id);
    var b := ss[j].holders[id].batch.value;
    RunInv(ss, es, j);
    assert HolderOk(ss[j], ss[j].holders[id]);
    var m := j + 1;
    StepGrows(ss[j], es[j]);
    CompleteStays(ss[j], ss[m], account, b);
    SavedIsSound(ss[m], account, b);
    RunGrows(ss, es, i, m);
    RunGrows(ss, es, m, k);
    assert Log(ss[i], account)[q] == Log(ss[m], account)[q];
  }

  predicate LeavesImportAlone(e: Event, id: HolderId) {
    match e
    case ImportHistory(k, _) => k != id
    case SaveImport(k, _) => k != id
    case AbandonImport(k) => k != id
    case _ => true
  }

  lemma {:induction false} ImportWaits(ss: seq<State>, es: seq<Event>, i: nat, j: nat, id: HolderId)
    requires Run(ss, es) && i <= j < |ss| && id in ss[i].imports
    requires forall m | i <= m < j :: LeavesImportAlone(es[m], id)
    ensures id in ss[j].imports && ss[j].imports[id] == ss[i].imports[id]
    decreases j
  {
    if i < j {
      ImportWaits(ss, es, i, j - 1, id);
    }
  }

  /** A connect that reads at moment i and saves at moment j has imported the whole log of moment i. */
  lemma ConnectImportsEverything(ss: seq<State>, es: seq<Event>, i: nat, j: nat, k: nat, id: HolderId, q: nat)
    requires Run(ss, es) && i < j < k < |ss|
    requires es[i].ImportHistory? && es[i].id == id && es[j].SaveImport? && es[j].id == id
    requires forall m | i < m < j :: LeavesImportAlone(es[m], id)
    requires q < |Log(ss[i], es[i].account)|
    ensures Handled(ss[k], Log(ss[i], es[i].account)[q])
  {
    var account := es[i].account;
    var n := i + 1;
    ImportWaits(ss, es, n, j, id);
    var b := ss[j].imports[id].batch;
    RunInv(ss, es, j);
    assert ImportOk(ss[j], ss[j].imports[id]);
    var m := j + 1;
    StepGrows(ss[j], es[j]);
    CompleteStays(ss[j], ss[m], account, b);
    SavedIsSound(ss[m], account, b);
    RunGrows(ss, es, i, m);
    RunGrows(ss, es, m, k);
    assert Log(ss[i], account)[q] == Log(ss[m], account)[q];
  }

  // ---------------------------------------------------------------------------------------------
  // Checkpoints do move back
  // ---------------------------------------------------------------------------------------------

  const OLDER := Row("1", true)
  const NEWER := Row("2", true)

  function Known(newest: Row, donations: seq<Row>, upTo: nat): Batch {
    Batch(History(donations, [], Some(newest.id)), upTo)
  }

  lemma ExampleReads()
    ensures ReadBatch([OLDER], None) == Known(OLDER, [OLDER], 1)
    ensures ReadBatch([OLDER], Some(OLDER.id)) == Known(OLDER, [], 1)
    ensures ReadBatch([OLDER, NEWER], Some(OLDER.id)) == Known(NEWER, [NEWER], 2)
  {
    assert Reversed([OLDER]) == [OLDER] && Reversed([OLDER, NEWER]) == [NEWER, OLDER];
    assert [NEWER, OLDER][1..] == [OLDER] && [OLDER][1..] == [];
    assert Newer([OLDER], None) == [OLDER] && Select([OLDER], true) == [OLDER] && Select([OLDER], false) == [];
    assert Newer([OLDER], Some(OLDER.id)) == [] && Newer([NEWER, OLDER], Some(OLDER.id)) == [NEWER];
  }

  // The connection holds the older donation; two passes start from it, the second after a newer donation.
  const READ_OLDER := Holder(0, 0, 1, Some(OLDER.id), Some(Known(OLDER, [], 1)))
  const OPENED := READ_OLDER.(batch := None)
  const READ_NEWER := READ_OLDER.(batch := Some(Known(NEWER, [NEWER], 2)))
  const DONATED := INITIAL.(logs := map[0 := [OLDER]])
  const IMPORTED := DONATED.(imports := map[0 := Import(0, Known(OLDER, [OLDER], 1))])
  const CONNECTED := DONATED.(connection := Some(Connection(0, 0, 1, Some(OLDER.id))), stored := {OLDER.id})
  const DONATED_AGAIN := CONNECTED.(logs := map[0 := [OLDER, NEWER]], holders := map[1 := READ_OLDER])

  lemma PassReads()
    ensures var e := Donate(0, OLDER); Enabled(INITIAL, e) && Next(INITIAL, e) == DONATED
    ensures var e := ImportHistory(0, 0); Enabled(DONATED, e) && Next(DONATED, e) == IMPORTED
    ensures var e := SaveImport(0, 0); Enabled(IMPORTED, e) && Next(IMPORTED, e) == CONNECTED
    ensures var s, e := CONNECTED.(holders := map[1 := READ_OLDER]), Donate(0, NEWER);
            Enabled(s, e) && Next(s, e) == DONATED_AGAIN
  {
    ExampleReads();
    hide ReadBatch;
    assert [] + [OLDER] == [OLDER] && [OLDER] + [NEWER] == [OLDER, NEWER];
    assert [OLDER][0] == OLDER;
  }

  lemma PassesOpen()
    ensures var e := Open(1); Enabled(CONNECTED, e) && Next(CONNECTED, e) == CONNECTED.(holders := map[1 := OPENED])
    ensures var s, e := CONNECTED.(holders := map[1 := OPENED]), ReadHistory(1);
            Enabled(s, e) && Next(s, e) == CONNECTED.(holders := map[1 := READ_OLDER])
    ensures var s, e := DONATED_AGAIN, Open(2);
            Enabled(s, e) && Next(s, e) == s.(holders := map[1 := READ_OLDER, 2 := OPENED])
    ensures var s, e := DONATED_AGAIN.(holders := map[1 := READ_OLDER, 2 := OPENED]), ReadHistory(2);
            Enabled(s, e) && Next(s, e) == s.(holders := map[1 := READ_OLDER, 2 := READ_NEWER])
  {
    ExampleReads();
    hide ReadBatch;
  }

  lemma PassesSave(s: State)
    requires s == DONATED_AGAIN.(holders := map[1 := READ_OLDER, 2 := READ_NEWER])
    ensures Enabled(s, Save(2)) && Enabled(Next(s, Save(2)), Save(1))
    ensures Next(s, Save(2)).connection == Some(Connection(0, 0, 1, Some(NEWER.id)))
    ensures Next(Next(s, Save(2)), Save(1)).connection == Some(Connection(0, 0, 1, Some(OLDER.id)))
  {}

  lemma Extend(ss: seq<State>, es: seq<Event>, e: Event, t: State) returns (states: seq<State>, events: seq<Event>)
    requires Run(ss, es) && Enabled(ss[|es|], e) && Next(ss[|es|], e) == t
    ensures Run(states, events) && |events| == |es| + 1
    ensures states[|es|] == ss[|es|] && states[|es| + 1] == t
  {
    states, events := ss + [t], es + [e];
  }

  /** A reachable step that replaces a newer checkpoint with an older one: two passes overtake each other. */
  lemma CheckpointsMoveBack() returns (ss: seq<State>, es: seq<Event>)
    ensures Run(ss, es) && |es| == 10
    ensures ss[9].connection.Some? && ss[9].connection.value.checkpoint == Some(NEWER.id)
    ensures ss[10].connection.Some? && ss[10].connection.value.checkpoint == Some(OLDER.id)
  {
    PassReads();
    PassesOpen();
    var s8 := DONATED_AGAIN.(holders := map[1 := READ_OLDER, 2 := READ_NEWER]);
    PassesSave(s8);
    ss, es := [INITIAL], [];
    assert Run(ss, es);
    hide *;
    ss, es := Extend(ss, es, Donate(0, OLDER), DONATED);
    ss, es := Extend(ss, es, ImportHistory(0, 0), IMPORTED);
    ss, es := Extend(ss, es, SaveImport(0, 0), CONNECTED);
    ss, es := Extend(ss, es, Open(1), CONNECTED.(holders := map[1 := OPENED]));
    ss, es := Extend(ss, es, ReadHistory(1), CONNECTED.(holders := map[1 := READ_OLDER]));
    ss, es := Extend(ss, es, Donate(0, NEWER), DONATED_AGAIN);
    ss, es := Extend(ss, es, Open(2), DONATED_AGAIN.(holders := map[1 := READ_OLDER, 2 := OPENED]));
    ss, es := Extend(ss, es, ReadHistory(2), s8);
    ss, es := Extend(ss, es, Save(2), Next(s8, Save(2)));
    ss, es := Extend(ss, es, Save(1), Next(Next(s8, Save(2)), Save(1)));
  }
}
