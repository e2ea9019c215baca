/**
 What queueing does to the rows, in columns: which donations of a batch get an alert and what it looks like, what a
 test alert or a replay queues, and which old rows the new ones push out of the queue.
 */
module AlertQueueing {
  import opened Base
  import opened AlertRows
  import opened Newest
  import opened AlertTables
  import opened AlertInvariant
  import opened DonationOrder
  import opened AlertRuns

  // ---------------------------------------------------------------------------------------------
  // One row and the trim
  // ---------------------------------------------------------------------------------------------

  /** How many rows a transaction queues. */
  function Queued(t: Tables, t': Tables): int {
    t'.nextSequence - t.nextSequence
  }

  /** How many rows of the user wait behind row k. */
  function Behind(rows: map<nat, Row>, user: UserId, k: nat): nat {
    |Above(WaitingKeys(rows, user), k)|
  }

  function Retired(r: Row, now: int, reason: Diagnostic): Row {
    r.(status := Expired, finishedAt := Some(now), preparationLease := None, lastError := Some(reason))
  }

  /** What the trim makes of a row that a hundred others wait behind. */
  function Dropped(r: Row, now: int): Row {
    Retired(r, now, BacklogLimit)
  }

  /** Row k of the user waits, and counting the `queued` new ones a hundred rows wait behind it. */
  predicate Overflows(rows: map<nat, Row>, user: UserId, k: nat, queued: int) {
    k in rows && rows[k].user == user && Waiting(rows[k]) && Behind(rows, user, k) + queued >= MAX_PENDING_ALERTS
  }

  /** What survives keeps what waits behind it. */
  lemma NewestAbove(s: set<nat>, n: nat, k: nat)
    requires k in NewestOf(s, n)
    ensures Above(NewestOf(s, n), k) == Above(s, k)
  {
    forall j | j in Above(s, k) ensures j in NewestOf(s, n) {
      SubsetSize(Above(s, j), Above(s, k));
    }
  }

  /** The trim, seen from one row. */
  lemma TrimRow(rows: map<nat, Row>, user: UserId, now: int, k: nat)
    requires k in rows
    ensures var rows' := BoundBacklog(rows, user, now);
            && rows'.Keys == rows.Keys
            && rows'[k] == (if Overflows(rows, user, k, 0) then Dropped(rows[k], now) else rows[k])
            && (k in WaitingKeys(rows', user) ==> Behind(rows', user, k) == Behind(rows, user, k))
  {
    TrimKeepsNewest(rows, user, now);
    if k in NewestOf(WaitingKeys(rows, user), MAX_PENDING_ALERTS) {
      NewestAbove(WaitingKeys(rows, user), MAX_PENDING_ALERTS, k);
    }
  }

  /** A row appended behind all others. */
  lemma AppendBehind(rows: map<nat, Row>, next: nat, row: Row, k: nat)
    requires k in rows && Waiting(row) && forall j | j in rows :: j < next
    ensures Behind(rows[next := row], row.user, k) == Behind(rows, row.user, k) + 1
  {
    var waiting := WaitingKeys(rows, row.user);
    assert WaitingKeys(rows[next := row], row.user) == waiting + {next};
    hide WaitingKeys;
    assert Above(waiting + {next}, k) == Above(waiting, k) + {next};
  }

  lemma LastBehind(rows: map<nat, Row>, next: nat, row: Row)
    requires forall j | j in rows :: j < next
    ensures Behind(rows[next := row], row.user, next) == 0
  {
    assert Above(WaitingKeys(rows[next := row], row.user), next) == {};
  }

  /** Queueing one row and trimming, seen from an old row. */
  lemma QueueOld(t: Tables, row: Row, now: int, k: nat)
    requires RowsOk(t) && Waiting(row) && k in t.rows
    ensures var rows' := Trim(Append(t, row), row.user, now).rows;
            && k in rows'
            && rows'[k] == (if Overflows(t.rows, row.user, k, 1) then Dropped(t.rows[k], now) else t.rows[k])
            && (k in WaitingKeys(rows', row.user) ==> Behind(rows', row.user, k) == Behind(t.rows, row.user, k) + 1)
  {
    var rows1 := Append(t, row).rows;
    AppendBehind(t.rows, t.nextSequence, row, k);
    TrimRow(rows1, row.user, now, k);
    hide BoundBacklog, Behind, WaitingKeys;
  }

  /** The new row is there, and nothing else is new. */
  lemma QueueNew(t: Tables, row: Row, now: int)
    requires RowsOk(t) && Waiting(row)
    ensures var t' := Trim(Append(t, row), row.user, now);
            && t' == t.(rows := t'.rows, nextSequence := t.nextSequence + 1)
            && t'.rows.Keys == t.rows.Keys + {t.nextSequence} && t'.rows[t.nextSequence] == row
            && Behind(t'.rows, row.user, t.nextSequence) == 0
  {
    var rows1 := Append(t, row).rows;
    LastBehind(t.rows, t.nextSequence, row);
    TrimRow(rows1, row.user, now, t.nextSequence);
    hide BoundBacklog, Behind;
  }


  // ---------------------------------------------------------------------------------------------
  // Donation batches
  // ---------------------------------------------------------------------------------------------

  /** Alerts of the user are on for the source, and the donation is less than ten minutes old, but for a
      millisecond. */
  predicate Wanted(t: Tables, user: UserId, source: Source, d: Donation, acceptedAt: int) {
    && user in t.settings && t.settings[user].enabled && source in t.settings[user].sources
    && acceptedAt - d.occurredAt < MAX_ALERT_AGE - 1
  }

  predicate Unstored(t: Tables, user: UserId, source: Source, d: Donation) {
    DonationKey(user, source, d.sourceId) !in t.donations
  }

  /** The alert of a donation: it waits from now on, for speech if speech is on and there is something to say. */
  function AlertRow(s: Settings, user: UserId, number: nat, d: Donation, acceptedAt: int): Row {
    Row(user, Incoming, Some(number), d.speech,
        if s.ttsEnabled && d.speech then Preparing else Pending,
        acceptedAt, acceptedAt, (if d.occurredAt < acceptedAt then d.occurredAt else acceptedAt) + MAX_ALERT_AGE,
        None, None, None, 0, 0, None, None)
  }

  predicate Alerted(t: Tables, user: UserId, source: Source, d: Donation, origin: Origin, acceptedAt: int) {
    Unstored(t, user, source, d) && !origin.InitialHistory? && Wanted(t, user, source, d, acceptedAt)
  }

  /** The batch stores a new donation of a user with settings, not as an initial import: then the queue is trimmed. */
  ghost predicate Trims(t: Tables, user: UserId, source: Source, ds: seq<Donation>, origin: Origin) {
    user in t.settings && !origin.InitialHistory? && exists i :: 0 <= i < |ds| && Unstored(t, user, source, ds[i])
  }

  lemma NumberIsNew(t: Tables, key: DonationKey)
    requires RowsOk(t)
    ensures RowsOk(Record(t, key))
    ensures forall k | k in t.rows :: t.rows[k].donation != Some(t.nextDonation)
  {}

  lemma EnqueueCases(t: Tables, user: UserId, number: nat, source: Source, d: Donation, acceptedAt: int)
    requires user in t.settings && forall k | k in t.rows :: t.rows[k].donation != Some(number)
    ensures EnqueueIncoming(t, user, number, source, d.occurredAt, d.speech, acceptedAt) ==
            if Wanted(t, user, source, d, acceptedAt)
            then Trim(Append(t, AlertRow(t.settings[user], user, number, d, acceptedAt)), user, acceptedAt)
            else Trim(t, user, acceptedAt)
  {
    hide Trim, Append;
  }

  /** The cases of one donation. */
  lemma InsertCases(t: Tables, user: UserId, source: Source, d: Donation, origin: Origin, acceptedAt: int)
    requires RowsOk(t)
    ensures var t1 := Record(t, DonationKey(user, source, d.sourceId));
            InsertDonation(t, user, source, d, origin, acceptedAt) ==
            if !Unstored(t, user, source, d) then t
            else if origin.InitialHistory? || user !in t.settings then t1
            else if Wanted(t, user, source, d, acceptedAt)
            then Trim(Append(t1, AlertRow(t.settings[user], user, t.nextDonation, d, acceptedAt)), user, acceptedAt)
            else Trim(t1, user, acceptedAt)
  {
    var key := DonationKey(user, source, d.sourceId);
    NumberIsNew(t, key);
    if user in t.settings {
      EnqueueCases(Record(t, key), user, t.nextDonation, source, d, acceptedAt);
      assert Wanted(Record(t, key), user, source, d, acceptedAt) == Wanted(t, user, source, d, acceptedAt);
    } else {
      assert EnqueueIncoming(Record(t, key), user, t.nextDonation, source, d.occurredAt, d.speech, acceptedAt)
          == Record(t, key);
    }
    hide RowsOk, Trim, Append, EnqueueIncoming, Wanted, AlertRow;
  }

  lemma TrimFrame(t: Tables, user: UserId, now: int)
    ensures Trim(t, user, now) == t.(rows := Trim(t, user, now).rows) && Trim(t, user, now).rows.Keys == t.rows.Keys
  {}

  /** One donation: whether it is stored, and whether it alerts. */
  lemma InsertNew(t: Tables, user: UserId, source: Source, d: Donation, origin: Origin, acceptedAt: int)
    requires RowsOk(t)
    ensures var key := DonationKey(user, source, d.sourceId);
            var t' := InsertDonation(t, user, source, d, origin, acceptedAt);
            && t'.nextDonation == t.nextDonation + (if Unstored(t, user, source, d) then 1 else 0)
            && t'.donations ==
               (if Unstored(t, user, source, d) then t.donations[key := t.nextDonation] else t.donations)
            && t'.nextSequence == t.nextSequence + (if Alerted(t, user, source, d, origin, acceptedAt) then 1 else 0)
            && (!Alerted(t, user, source, d, origin, acceptedAt) ==> t'.rows.Keys == t.rows.Keys)
            && (Alerted(t, user, source, d, origin, acceptedAt) ==>
                  && t'.rows.Keys == t.rows.Keys + {t.nextSequence}
                  && t'.rows[t.nextSequence] == AlertRow(t.settings[user], user, t.nextDonation, d, acceptedAt)
                  && Behind(t'.rows, user, t.nextSequence) == 0)
  {
    var key := DonationKey(user, source, d.sourceId);
    NumberIsNew(t, key);
    InsertCases(t, user, source, d, origin, acceptedAt);
    TrimFrame(Record(t, key), user, acceptedAt);
    hide InsertDonation, Trim, Behind, Wanted, BoundBacklog, RowsOk;
    if Alerted(t, user, source, d, origin, acceptedAt) {
      AlertRowWaits(t.settings[user], user, t.nextDonation, d, acceptedAt);
      hide AlertRow;
      QueueNew(Record(t, key), AlertRow(t.settings[user], user, t.nextDonation, d, acceptedAt), acceptedAt);
    }
    hide AlertRow, Append;
  }

  /** One donation, seen from an old row of any user. */
  lemma InsertOld(t: Tables, user: UserId, source: Source, d: Donation, origin: Origin, acceptedAt: int, k: nat)
    requires RowsOk(t) && k in t.rows
    ensures var t' := InsertDonation(t, user, source, d, origin, acceptedAt);
            var trims := user in t.settings && !origin.InitialHistory? && Unstored(t, user, source, d);
            var queued := if Alerted(t, user, source, d, origin, acceptedAt) then 1 else 0;
            && k in t'.rows && (!trims ==> t'.rows == t.rows && queued == 0)
            && t'.rows[k] ==
               (if trims && Overflows(t.rows, user, k, queued) then Dropped(t.rows[k], acceptedAt) else t.rows[k])
            && (k in WaitingKeys(t'.rows, user) ==> Behind(t'.rows, user, k) == Behind(t.rows, user, k) + queued)
  {
    var t1 := Record(t, DonationKey(user, source, d.sourceId));
    NumberIsNew(t, DonationKey(user, source, d.sourceId));
    InsertCases(t, user, source, d, origin, acceptedAt);
    hide InsertDonation;
    if Alerted(t, user, source, d, origin, acceptedAt) {
      QueueOld(t1, AlertRow(t.settings[user], user, t.nextDonation, d, acceptedAt), acceptedAt, k);
      hide Trim;
    } else {
      TrimRow(t1.rows, user, acceptedAt, k);
    }
    hide BoundBacklog, Behind, RowsOk, WaitingKeys;
  }


  lemma FirstStep(t: Tables, user: UserId, source: Source, ds: seq<Donation>, origin: Origin, acceptedAt: int)
    returns (t1: Tables)
    requires Inv(t) && ds != []
    ensures t1 == InsertDonation(t, user, source, ds[0], origin, acceptedAt) && Inv(t1) && RowsOk(t) && RowsOk(t1)
    ensures InsertDonations(t, user, source, ds, origin, acceptedAt)
            == InsertDonations(t1, user, source, ds[1..], origin, acceptedAt)
    ensures t1.settings == t.settings && t.nextSequence <= t1.nextSequence && t.nextDonation <= t1.nextDonation
    ensures Trims(t, user, source, ds, origin) <==>
            (user in t.settings && !origin.InitialHistory? && Unstored(t, user, source, ds[0]))
            || Trims(t1, user, source, ds[1..], origin)
  {
    t1 := InsertDonation(t, user, source, ds[0], origin, acceptedAt);
    assert RowsOk(t);
    hide InsertDonation, Alerted, Behind, AlertRow, RowsOk;
    InsertDonationInv(t, user, source, ds[0], origin, acceptedAt);
    InsertDonationFrame(t, user, source, ds[0], origin, acceptedAt);
    InsertNew(t, user, source, ds[0], origin, acceptedAt);
    assert RowsOk(t1) by { assert Inv(t1); }
    hide Inv, Queues;
    TrimsStep(t, t1, user, source, ds, origin);
  }

  lemma TrimsStep(t: Tables, t1: Tables, user: UserId, source: Source, ds: seq<Donation>, origin: Origin)
    requires ds != [] && t1.settings == t.settings
    requires t1.donations.Keys == t.donations.Keys + {DonationKey(user, source, ds[0].sourceId)}
    ensures Trims(t, user, source, ds, origin) <==>
            (user in t.settings && !origin.InitialHistory? && Unstored(t, user, source, ds[0]))
            || Trims(t1, user, source, ds[1..], origin)
  {
    var rest := ds[1..];
    assert forall i | 1 <= i < |ds| :: ds[i] == rest[i - 1];
    if Trims(t, user, source, ds, origin) && !Unstored(t, user, source, ds[0]) {
      var i :| 0 <= i < |ds| && Unstored(t, user, source, ds[i]);
      assert Unstored(t1, user, source, rest[i - 1]);
    }
    if Trims(t1, user, source, rest, origin) {
      var i :| 0 <= i < |rest| && Unstored(t1, user, source, rest[i]);
      assert Unstored(t, user, source, ds[i + 1]);
    }
  }

  /** A whole batch, seen from an old row of any user: it is dropped exactly when the new rows push it out. */
  lemma {:induction false} BatchOld(t: Tables, user: UserId, source: Source, ds: seq<Donation>, origin: Origin,
                                    acceptedAt: int, k: nat)
    requires Inv(t) && k in t.rows
    ensures var t' := InsertDonations(t, user, source, ds, origin, acceptedAt);
            && k in t'.rows && Queued(t, t') >= 0 && (!Trims(t, user, source, ds, origin) ==> Queued(t, t') == 0)
            && t'.rows[k] == (if Trims(t, user, source, ds, origin) && Overflows(t.rows, user, k, Queued(t, t'))
                              then Dropped(t.rows[k], acceptedAt) else t.rows[k])
    decreases |ds|
  {
    if ds != [] {
      var t1 := FirstStep(t, user, source, ds, origin, acceptedAt);
      InsertOld(t, user, source, ds[0], origin, acceptedAt, k);
      InsertNew(t, user, source, ds[0], origin, acceptedAt);
      hide InsertDonation, InsertDonations, Trims, Behind, Inv, RowsOk, Alerted, Unstored;
      BatchOld(t1, user, source, ds[1..], origin, acceptedAt, k);
    }
  }

  /** The donation at position m is the first of its identifier in the batch, and not stored yet. */
  ghost predicate FirstStored(t: Tables, user: UserId, source: Source, ds: seq<Donation>, m: nat) {
    && m < |ds| && Unstored(t, user, source, ds[m])
    && forall i | 0 <= i < m :: ds[i].sourceId != ds[m].sourceId
  }

  /** What becomes of a row the batch queued: a hundred later ones push it out. */
  function Settled(r: Row, later: int, acceptedAt: int): Row {
    if later >= MAX_PENDING_ALERTS then Dropped(r, acceptedAt) else r
  }

  /** Row k is the alert of that donation after the batch: still as it was queued, or pushed out since. */
  ghost predicate IsAlert(t: Tables, t': Tables, user: UserId, source: Source, d: Donation, acceptedAt: int, k: nat) {
    var key := DonationKey(user, source, d.sourceId);
    && user in t.settings && key in t'.donations
    && t.nextSequence <= k < t'.nextSequence && k in t'.rows
    && t'.rows[k] == Settled(AlertRow(t.settings[user], user, t'.donations[key], d, acceptedAt),
                             t'.nextSequence - 1 - k, acceptedAt)
  }

  lemma IsAlertFrom(t: Tables, t1: Tables, t': Tables, user: UserId, source: Source, d: Donation, acceptedAt: int,
                    k: nat)
    requires IsAlert(t1, t', user, source, d, acceptedAt, k)
    requires t1.settings == t.settings && t.nextSequence <= t1.nextSequence
    ensures IsAlert(t, t', user, source, d, acceptedAt, k)
  {}

  lemma HeadAlerts(t: Tables, user: UserId, source: Source, ds: seq<Donation>, origin: Origin, acceptedAt: int)
    requires Inv(t) && ds != [] && Alerted(t, user, source, ds[0], origin, acceptedAt)
    ensures IsAlert(t, InsertDonations(t, user, source, ds, origin, acceptedAt), user, source, ds[0], acceptedAt,
                    t.nextSequence)
  {
    var t1 := FirstStep(t, user, source, ds, origin, acceptedAt);
    InsertNew(t, user, source, ds[0], origin, acceptedAt);
    InsertDonationsFrame(t1, user, source, ds[1..], origin, acceptedAt);
    assert user in t.settings;
    hide InsertDonation, InsertDonations, Behind, Inv, RowsOk, AlertRow, Wanted, Trims, Alerted;
    BatchOld(t1, user, source, ds[1..], origin, acceptedAt, t.nextSequence);
    assert Waiting(t1.rows[t.nextSequence]) && t1.rows[t.nextSequence].user == user by {
      assert AlertRow(t.settings[user], user, t.nextDonation, ds[0], acceptedAt) == t1.rows[t.nextSequence];
      AlertRowWaits(t.settings[user], user, t.nextDonation, ds[0], acceptedAt);
    }
  }

  lemma AlertRowWaits(s: Settings, user: UserId, number: nat, d: Donation, acceptedAt: int)
    ensures var r := AlertRow(s, user, number, d, acceptedAt); Waiting(r) && r.user == user
  {}

  /** A wanted donation of the batch has its alert. */
  lemma {:induction false} BatchAlerts(t: Tables, user: UserId, source: Source, ds: seq<Donation>, origin: Origin,
                                       acceptedAt: int, m: nat)
    returns (k: nat)
    requires Inv(t) && FirstStored(t, user, source, ds, m) && Alerted(t, user, source, ds[m], origin, acceptedAt)
    ensures IsAlert(t, InsertDonations(t, user, source, ds, origin, acceptedAt), user, source, ds[m], acceptedAt, k)
    decreases |ds|
  {
    if m == 0 {
      HeadAlerts(t, user, source, ds, origin, acceptedAt);
      k := t.nextSequence;
    } else {
      var t1 := FirstStep(t, user, source, ds, origin, acceptedAt);
      LaterIsFirst(t, t1, user, source, ds, origin, acceptedAt, m);
      hide InsertDonation, InsertDonations, Inv, AlertRow, Settled;
      hide IsAlert, Alerted, FirstStored, Trims;
      k := BatchAlerts(t1, user, source, ds[1..], origin, acceptedAt, m - 1);
      IsAlertFrom(t, t1, InsertDonations(t, user, source, ds, origin, acceptedAt), user, source, ds[m], acceptedAt, k);
    }
  }

  /** What is new about a later donation of the batch still is after the first one. */
  lemma LaterIsFirst(t: Tables, t1: Tables, user: UserId, source: Source, ds: seq<Donation>, origin: Origin,
                     acceptedAt: int, m: nat)
    requires RowsOk(t) && 0 < m && FirstStored(t, user, source, ds, m)
    requires t1 == InsertDonation(t, user, source, ds[0], origin, acceptedAt)
    ensures FirstStored(t1, user, source, ds[1..], m - 1) && ds[1..][m - 1] == ds[m]
    ensures Alerted(t1, user, source, ds[m], origin, acceptedAt) == Alerted(t, user, source, ds[m], origin, acceptedAt)
  {
    InsertNew(t, user, source, ds[0], origin, acceptedAt);
    InsertDonationFrame(t, user, source, ds[0], origin, acceptedAt);
    hide InsertDonation, AlertRow;
    assert forall i | 0 <= i < m :: ds[1..][i] == ds[i + 1];
  }


  /** The first donation queues at most one row, its alert. */
  lemma HeadQueues(t: Tables, user: UserId, source: Source, ds: seq<Donation>, origin: Origin, acceptedAt: int, k: nat)
    requires RowsOk(t) && ds != [] && k !in t.rows
    requires k in InsertDonation(t, user, source, ds[0], origin, acceptedAt).rows
    ensures Alerted(t, user, source, ds[0], origin, acceptedAt) && k == t.nextSequence
    ensures FirstStored(t, user, source, ds, 0)
  {
    InsertNew(t, user, source, ds[0], origin, acceptedAt);
    hide InsertDonation, AlertRow, Behind, RowsOk;
  }

  /** Every row a batch queues is the alert of one of its donations. */
  lemma {:induction false} BatchQueues(t: Tables, user: UserId, source: Source, ds: seq<Donation>, origin: Origin,
                                       acceptedAt: int, k: nat)
    returns (m: nat)
    requires Inv(t) && k !in t.rows && k in InsertDonations(t, user, source, ds, origin, acceptedAt).rows
    ensures FirstStored(t, user, source, ds, m) && Alerted(t, user, source, ds[m], origin, acceptedAt)
    ensures IsAlert(t, InsertDonations(t, user, source, ds, origin, acceptedAt), user, source, ds[m], acceptedAt, k)
    decreases |ds|
  {
    if ds == [] {
      assert false;
    }
    hide InsertDonation, InsertDonations, Inv, RowsOk, Trims, Alerted, FirstStored, IsAlert;
    var t1 := FirstStep(t, user, source, ds, origin, acceptedAt);
    if k in t1.rows {
      m := 0;
      HeadQueues(t, user, source, ds, origin, acceptedAt, k);
      HeadAlerts(t, user, source, ds, origin, acceptedAt);
    } else {
      var n := BatchQueues(t1, user, source, ds[1..], origin, acceptedAt, k);
      m := n + 1;
      FirstIsLater(t, t1, user, source, ds, origin, acceptedAt, m);
      IsAlertFrom(t, t1, InsertDonations(t, user, source, ds, origin, acceptedAt), user, source, ds[m], acceptedAt, k);
    }
  }

  lemma FirstIsLater(t: Tables, t1: Tables, user: UserId, source: Source, ds: seq<Donation>, origin: Origin,
                     acceptedAt: int, m: nat)
    requires RowsOk(t) && 0 < m && ds != [] && FirstStored(t1, user, source, ds[1..], m - 1)
    requires t1 == InsertDonation(t, user, source, ds[0], origin, acceptedAt)
    ensures FirstStored(t, user, source, ds, m) && m < |ds| && ds[1..][m - 1] == ds[m]
    ensures Alerted(t1, user, source, ds[m], origin, acceptedAt) == Alerted(t, user, source, ds[m], origin, acceptedAt)
  {
    InsertNew(t, user, source, ds[0], origin, acceptedAt);
    InsertDonationFrame(t, user, source, ds[0], origin, acceptedAt);
    hide InsertDonation, AlertRow;
    assert ds[m].sourceId != ds[0].sourceId;
    forall i | 0 <= i < m ensures ds[i].sourceId != ds[m].sourceId {
      assert i > 0 ==> ds[1..][i - 1] == ds[i];
    }
  }

  function KeysOf(user: UserId, source: Source, ds: seq<Donation>): set<DonationKey> {
    set d | d in ds :: DonationKey(user, source, d.sourceId)
  }

  lemma KeysOfCons(user: UserId, source: Source, ds: seq<Donation>)
    requires ds != []
    ensures KeysOf(user, source, ds) ==
            {DonationKey(user, source, ds[0].sourceId)} + KeysOf(user, source, ds[1..])
  {
    assert ds == [ds[0]] + ds[1..];
  }

  /** A batch stores all its donations and nothing else. */
  lemma {:induction false} BatchStores(t: Tables, user: UserId, source: Source, ds: seq<Donation>, origin: Origin,
                                       acceptedAt: int)
    requires Inv(t)
    ensures InsertDonations(t, user, source, ds, origin, acceptedAt).donations.Keys ==
            t.donations.Keys + KeysOf(user, source, ds)
    decreases |ds|
  {
    if ds == [] {
      assert KeysOf(user, source, ds) == {};
    } else {
      hide InsertDonation, InsertDonations, Inv, RowsOk, Behind, AlertRow, Trims, Alerted;
      var t1 := FirstStep(t, user, source, ds, origin, acceptedAt);
      InsertNew(t, user, source, ds[0], origin, acceptedAt);
      BatchStores(t1, user, source, ds[1..], origin, acceptedAt);
      KeysOfCons(user, source, ds);
      hide KeysOf;
    }
  }

  /** An incoming row after a batch, of a donation that was not stored before. */
  lemma NewAlertOnly(t: Tables, user: UserId, source: Source, ds: seq<Donation>, origin: Origin, acceptedAt: int,
                     m: nat, k: nat)
    requires Inv(t) && FirstStored(t, user, source, ds, m)
    requires AlertOf(InsertDonations(t, user, source, ds, origin, acceptedAt),
                     DonationKey(user, source, ds[m].sourceId), k)
    ensures Alerted(t, user, source, ds[m], origin, acceptedAt)
    ensures IsAlert(t, InsertDonations(t, user, source, ds, origin, acceptedAt), user, source, ds[m], acceptedAt, k)
  {
    var key := DonationKey(user, source, ds[m].sourceId);
    var t' := InsertDonations(t, user, source, ds, origin, acceptedAt);
    InsertDonationsQueue(t, user, source, ds, origin, acceptedAt);
    InsertDonationsNewIds(t, user, source, ds, origin, acceptedAt, key);
    assert RowsOk(t) && DonationsOk(t');
    hide InsertDonations, Inv, Queues, RowOk;
    if k in t.rows {
      BatchOld(t, user, source, ds, origin, acceptedAt, k);
      assert false;
    } else {
      var n := BatchQueues(t, user, source, ds, origin, acceptedAt, k);
      assert t'.donations[DonationKey(user, source, ds[n].sourceId)] == t'.donations[key];
      assert ds[n].sourceId == ds[m].sourceId;
      assert n == m;
    }
  }

  // ---------------------------------------------------------------------------------------------
  // Test alerts and replays
  // ---------------------------------------------------------------------------------------------

  /** The row a test alert or a replay queues: it is as good as new for ten minutes. */
  function OwnRow(t: Tables, user: UserId, kind: Kind, donation: Option<nat>, speech: bool, now: int): Row {
    var spoken := speech && user in t.settings && t.settings[user].ttsEnabled;
    Row(user, kind, donation, speech, if spoken then Preparing else Pending, now, now, now + MAX_ALERT_AGE,
        None, None, None, 0, 0, None, None)
  }

  lemma CreateTestIs(t: Tables, user: UserId, now: int)
    ensures CreateTest(t, user, now) ==
            Trim(Append(EnsureSettings(t, user), OwnRow(t, user, Test, None, true, now)), user, now)
  {
    hide Trim, Append;
  }

  /** A finished row of the user's own that shows a donation. */
  predicate Grants(t: Tables, user: UserId, k: nat) {
    k in t.rows && t.rows[k].user == user && t.rows[k].donation.Some? && Terminal(t.rows[k])
  }

  lemma ReplayQueues(t: Tables, user: UserId, k: nat, now: int)
    ensures Replay(t, user, k, now).1 == Grants(t, user, k)
    ensures Replay(t, user, k, now).0 ==
               if !Grants(t, user, k) then t
               else Trim(Append(EnsureSettings(t, user),
                                OwnRow(t, user, Replayed, t.rows[k].donation, t.rows[k].speech, now)), user, now)
  {
    hide Trim, Append;
  }

  /** A test alert or a granted replay queues exactly one row, and the trim does not touch it. */
  lemma NewUnderOwn(t: Tables, row: Row, now: int)
    requires Inv(t) && Waiting(row)
    ensures var t' := Trim(Append(EnsureSettings(t, row.user), row), row.user, now);
            && t'.rows.Keys == t.rows.Keys + {t.nextSequence} && t'.rows[t.nextSequence] == row
            && t'.nextSequence == t.nextSequence + 1
  {
    assert RowsOk(t) && RowsOk(EnsureSettings(t, row.user));
    hide Inv, RowsOk, Append, Trim;
    QueueNew(EnsureSettings(t, row.user), row, now);
  }
}
