/**
 The donation and donation-alert tables, and every transaction of the alert store as one atomic
 step on them. Row locks make each transaction atomic; `now` is an arbitrary integer.

 A playback is identified by its queue sequence: like its random primary key, the sequence is
 unique and never reused.
 */
module AlertTables {
  import opened Base
  import opened AlertRows
  import opened Newest

  type TokenHash = nat

  const MAX_PENDING_ALERTS: nat := 100
  const MAX_RETAINED_TERMINAL: nat := 20
  const TERMINAL_RETENTION := 2_592_000_000

  datatype Source = DonationAlerts | DonateStream | Streamlabs | Tourniquet | StreamElements

  const ALL_SOURCES: set<Source> := {DonationAlerts, DonateStream, Streamlabs, Tourniquet, StreamElements}

  datatype Settings = Settings(enabled: bool, paused: bool, ttsEnabled: bool, sources: set<Source>)

  const DEFAULT_SETTINGS := Settings(false, false, false, ALL_SOURCES)

  datatype Player = Player(key: PlayerKey, active: bool, visible: bool, leaseExpiresAt: int)

  datatype DonationKey = DonationKey(user: UserId, source: Source, sourceId: string)

  datatype Donation = Donation(sourceId: string, occurredAt: int, speech: bool)

  datatype Origin = InitialHistory | Live | Recovery

  /** A speech job handed to a worker. */
  datatype Job = Job(playback: nat, user: UserId, generation: nat, attempts: nat)

  /** What a page sends with every player call. */
  datatype Credentials = Credentials(token: TokenHash, key: PlayerKey)

  datatype Tables = Tables(
    rows: map<nat, Row>,
    players: map<UserId, Player>,
    overlays: map<TokenHash, UserId>,
    settings: map<UserId, Settings>,
    donations: map<DonationKey, nat>,
    nextSequence: nat,
    nextDonation: nat,
    candidates: set<PlayerId>,  // history: every id a page has ever offered
    jobs: set<Job>)             // history: every job ever handed out

  const EMPTY := Tables(map[], map[], map[], map[], map[], 1, 1, {}, {})

  // ---------------------------------------------------------------------------------------------
  // Selections and single UPDATE statements
  // ---------------------------------------------------------------------------------------------

  function LiveKeys(rows: map<nat, Row>, user: UserId): set<nat> {
    set k | k in rows && rows[k].user == user && !Terminal(rows[k])
  }

  function WaitingKeys(rows: map<nat, Row>, user: UserId): set<nat> {
    set k | k in rows && rows[k].user == user && Waiting(rows[k])
  }

  function PlayingKeys(rows: map<nat, Row>, user: UserId): set<nat> {
    set k | k in rows && rows[k].user == user && rows[k].status.Playing?
  }

  function TerminalKeys(rows: map<nat, Row>, user: UserId): set<nat> {
    set k | k in rows && rows[k].user == user && Terminal(rows[k])
  }

  predicate Assigned(r: Row, user: UserId, key: PlayerKey) {
    r.user == user && r.player == Some(key) && r.status.Playing?
  }

  function RecoverAssigned(rows: map<nat, Row>, user: UserId, key: PlayerKey, now: int): map<nat, Row> {
    map k | k in rows ::
      if Assigned(rows[k], user, key) then Recover(rows[k], now, PlayerDisconnected) else rows[k]
  }

  function RecoverUser(rows: map<nat, Row>, user: UserId, now: int): map<nat, Row> {
    map k | k in rows ::
      if rows[k].user == user && rows[k].status.Playing? then Recover(rows[k], now, OverlayRotated) else rows[k]
  }

  function RecoverTimedOut(rows: map<nat, Row>, user: UserId, now: int): map<nat, Row> {
    map k | k in rows ::
      if rows[k].user == user && TimedOut(rows[k], now) then TimeOut(rows[k], now) else rows[k]
  }

  function ExpireUser(rows: map<nat, Row>, user: UserId, now: int): map<nat, Row> {
    map k | k in rows ::
      if rows[k].user == user && Waiting(rows[k]) && rows[k].expiresAt <= now
      then ExpireWaiting(rows[k], now, AlertExpired) else rows[k]
  }

  function ExpireAll(rows: map<nat, Row>, now: int): map<nat, Row> {
    map k | k in rows ::
      if Waiting(rows[k]) && rows[k].expiresAt <= now then ExpireWaiting(rows[k], now, AlertExpired) else rows[k]
  }

  function GiveUpExhausted(rows: map<nat, Row>, now: int): map<nat, Row> {
    map k | k in rows :: if SpeechExhausted(rows[k], now) then GiveUpSpeech(rows[k]) else rows[k]
  }

  function BoundBacklog(rows: map<nat, Row>, user: UserId, now: int): map<nat, Row> {
    var kept := NewestOf(WaitingKeys(rows, user), MAX_PENDING_ALERTS);
    map k | k in rows ::
      if k in WaitingKeys(rows, user) && k !in kept then ExpireWaiting(rows[k], now, BacklogLimit) else rows[k]
  }

  function TerminalAt(r: Row): int {
    if r.finishedAt.Some? then r.finishedAt.value else r.createdAt
  }

  predicate Prunable(rows: map<nat, Row>, k: nat, now: int) {
    && k in rows
    && Terminal(rows[k])
    && (TerminalAt(rows[k]) < now - TERMINAL_RETENTION
        || k !in NewestOf(TerminalKeys(rows, rows[k].user), MAX_RETAINED_TERMINAL))
  }

  // ---------------------------------------------------------------------------------------------
  // Settings and overlay links
  // ---------------------------------------------------------------------------------------------

  function EnsureSettings(t: Tables, user: UserId): Tables {
    if user in t.settings then t else t.(settings := t.settings[user := DEFAULT_SETTINGS])
  }

  function SetPaused(t: Tables, user: UserId, paused: bool): Tables {
    var t1 := EnsureSettings(t, user);
    t1.(settings := t1.settings[user := t1.settings[user].(paused := paused)])
  }

  function UpdateSettings(t: Tables, user: UserId, enabled: bool, ttsEnabled: bool, sources: set<Source>): Tables {
    var t1 := EnsureSettings(t, user);
    var before := t1.settings[user];
    t1.(settings := t1.settings[user := Settings(enabled, before.paused, ttsEnabled, sources)])
  }

  /** Installs a new overlay link; fails when another user already holds that token. */
  function SetOverlayToken(t: Tables, user: UserId, token: TokenHash, now: int): (Tables, bool) {
    if token in t.overlays && t.overlays[token] != user then (t, false)
    else
      var t1 := EnsureSettings(t, user);
      (t1.(rows := RecoverUser(t1.rows, user, now),
           players := t1.players - {user},
           overlays := (map h | h in t1.overlays && t1.overlays[h] != user :: t1.overlays[h])[token := user]),
       true)
  }

  // ---------------------------------------------------------------------------------------------
  // Player leases
  // ---------------------------------------------------------------------------------------------

  datatype OpenResult = InvalidToken | Standby(generation: nat) | Active(generation: nat)

  function OpenPlayer(t: Tables, token: TokenHash, candidate: PlayerId, now: int): (Tables, OpenResult) {
    var t1 := t.(candidates := t.candidates + {candidate});
    if token !in t1.overlays then (t1, InvalidToken)
    else
      var user := t1.overlays[token];
      if user !in t1.players then
        var newcomer := Player(PlayerKey(candidate, 1), false, false, now + PLAYER_LEASE);
        (t1.(players := t1.players[user := newcomer]), Active(1))
      else
        var current := t1.players[user];
        if current.leaseExpiresAt > now then (t1, Standby(current.key.generation))
        else
          var next := current.key.generation + 1;
          var newcomer := Player(PlayerKey(candidate, next), false, false, now + PLAYER_LEASE);
          (t1.(rows := RecoverAssigned(t1.rows, user, current.key, now), players := t1.players[user := newcomer]),
           Active(next))
  }

  /** The player row joined with the overlay row: the call comes from the current player. */
  predicate Current(t: Tables, c: Credentials) {
    && c.token in t.overlays
    && t.overlays[c.token] in t.players
    && t.players[t.overlays[c.token]].key == c.key
  }

  predicate CurrentLease(t: Tables, c: Credentials, now: int) {
    Current(t, c) && t.players[t.overlays[c.token]].leaseExpiresAt > now
  }

  function Heartbeat(t: Tables, c: Credentials, active: bool, visible: bool, now: int): (Tables, bool) {
    if !Current(t, c) then (t, false)
    else
      var user := t.overlays[c.token];
      var recovered := RecoverAssigned(t.rows, user, c.key, now);
      if t.players[user].leaseExpiresAt <= now then (t.(rows := recovered), false)
      else
        (t.(players := t.players[user := Player(c.key, active, visible, now + PLAYER_LEASE)],
            rows := if active && visible then t.rows else recovered),
         true)
  }

  function ReleasePlayer(t: Tables, c: Credentials, now: int): Tables {
    if !Current(t, c) then t
    else
      var user := t.overlays[c.token];
      t.(rows := RecoverAssigned(t.rows, user, c.key, now), players := t.players - {user})
  }

  // ---------------------------------------------------------------------------------------------
  // Playback
  // ---------------------------------------------------------------------------------------------

  datatype ClaimResult = LeaseLost | NothingToPlay | Claimed(playback: nat)

  /** The rows the claim's candidate query returns. */
  function ClaimCandidates(rows: map<nat, Row>, user: UserId, now: int): set<nat> {
    set k | k in rows
            && rows[k].user == user
            && rows[k].status.Pending?
            && rows[k].availableAt <= now
            && rows[k].expiresAt > now
            && PlayingKeys(rows, user) == {}
            && (forall j | j in WaitingKeys(rows, user) && rows[j].expiresAt > now :: k <= j)
  }

  ghost function ClaimPlayback(t: Tables, c: Credentials, now: int): (Tables, ClaimResult) {
    if !Current(t, c) || t.overlays[c.token] !in t.settings then (t, LeaseLost)
    else
      var user := t.overlays[c.token];
      var player := t.players[user];
      if player.leaseExpiresAt <= now then
        (t.(rows := RecoverAssigned(t.rows, user, c.key, now)), LeaseLost)
      else
        var rows := ExpireUser(RecoverTimedOut(t.rows, user, now), user, now);
        var candidates := ClaimCandidates(rows, user, now);
        if !player.active || !player.visible || t.settings[user].paused || candidates == {} then
          (t.(rows := rows), NothingToPlay)
        else
          var k := Least(candidates);
          (t.(rows := rows[k := Claim(rows[k], c.key)]), Claimed(k))
  }

  function StartPlayback(t: Tables, c: Credentials, k: nat, now: int): (Tables, bool) {
    if CurrentLease(t, c, now) && k in t.rows && Assigned(t.rows[k], t.overlays[c.token], c.key) then
      (t.(rows := t.rows[k := Start(t.rows[k], now)]), true)
    else (t, false)
  }

  datatype Outcome = FinishCompleted | FinishInterrupted

  predicate Finishable(r: Row, user: UserId, key: PlayerKey, outcome: Outcome) {
    && r.user == user
    && r.player == Some(key)
    && match outcome
       case FinishCompleted => r.startedAt.Some? && (r.status.Playing? || r.status.Completed?)
       case FinishInterrupted => r.status.Playing? || r.status.Interrupted?
  }

  function Finish(r: Row, outcome: Outcome, now: int): Row {
    match outcome
    case FinishCompleted => Complete(r, now)
    case FinishInterrupted => Interrupt(r, now)
  }

  function FinishPlayback(t: Tables, c: Credentials, k: nat, outcome: Outcome, now: int): (Tables, bool) {
    if CurrentLease(t, c, now) && k in t.rows && Finishable(t.rows[k], t.overlays[c.token], c.key, outcome) then
      (t.(rows := t.rows[k := Finish(t.rows[k], outcome, now)]), true)
    else (t, false)
  }

  datatype StreamResult = StreamLost | Streaming(paused: bool, playback: Option<nat>)

  ghost function StreamState(t: Tables, c: Credentials, now: int): (Tables, StreamResult) {
    if !Current(t, c) || t.overlays[c.token] !in t.settings then (t, StreamLost)
    else
      var user := t.overlays[c.token];
      if t.players[user].leaseExpiresAt <= now then
        (t.(rows := RecoverAssigned(t.rows, user, c.key, now)), StreamLost)
      else
        var rows := RecoverTimedOut(t.rows, user, now);
        var mine := set k | k in rows && Assigned(rows[k], user, c.key);
        (t.(rows := rows), Streaming(t.settings[user].paused, if mine == {} then None else Some(Least(mine))))
  }

  // ---------------------------------------------------------------------------------------------
  // Queueing
  // ---------------------------------------------------------------------------------------------

  function Append(t: Tables, row: Row): Tables {
    t.(rows := t.rows[t.nextSequence := row], nextSequence := t.nextSequence + 1)
  }

  function Trim(t: Tables, user: UserId, now: int): Tables {
    t.(rows := BoundBacklog(t.rows, user, now))
  }

  predicate Alerts(t: Tables, user: UserId, donation: nat, source: Source, occurredAt: int, acceptedAt: int) {
    && user in t.settings
    && t.settings[user].enabled
    && source in t.settings[user].sources
    && occurredAt > acceptedAt - MAX_ALERT_AGE + 1
    && (forall k | k in t.rows :: t.rows[k].kind.Incoming? ==> t.rows[k].donation != Some(donation))
  }

  function EnqueueIncoming(t: Tables, user: UserId, donation: nat, source: Source, occurredAt: int, speech: bool,
                           acceptedAt: int): Tables
  {
    if user !in t.settings then t
    else
      var expiresAt := if acceptedAt <= occurredAt then acceptedAt + MAX_ALERT_AGE else occurredAt + MAX_ALERT_AGE;
      var row := NewRow(user, Incoming, Some(donation), speech, t.settings[user].ttsEnabled, acceptedAt, expiresAt);
      Trim(if Alerts(t, user, donation, source, occurredAt, acceptedAt) then Append(t, row) else t, user, acceptedAt)
  }

  /** A donation row under a new id. */
  function Record(t: Tables, key: DonationKey): Tables {
    t.(donations := t.donations[key := t.nextDonation], nextDonation := t.nextDonation + 1)
  }

  function InsertDonation(t: Tables, user: UserId, source: Source, d: Donation, origin: Origin,
                          acceptedAt: int): Tables {
    var key := DonationKey(user, source, d.sourceId);
    if key in t.donations then t
    else
      var t1 := Record(t, key);
      if origin.InitialHistory? then t1
      else EnqueueIncoming(t1, user, t.nextDonation, source, d.occurredAt, d.speech, acceptedAt)
  }

  /** One provider batch, already in order, inside one transaction. */
  function InsertDonations(t: Tables, user: UserId, source: Source, ds: seq<Donation>, origin: Origin,
                           acceptedAt: int): Tables
    decreases |ds|
  {
    if ds == [] then t
    else InsertDonations(InsertDonation(t, user, source, ds[0], origin, acceptedAt), user, source, ds[1..], origin,
                         acceptedAt)
  }

  function CreateTest(t: Tables, user: UserId, now: int): Tables {
    var t1 := EnsureSettings(t, user);
    Trim(Append(t1, NewRow(user, Test, None, true, t1.settings[user].ttsEnabled, now, now + MAX_ALERT_AGE)), user, now)
  }

  predicate Replayable(t: Tables, user: UserId, k: nat) {
    k in t.rows && t.rows[k].user == user && t.rows[k].donation.Some? && Terminal(t.rows[k])
  }

  function Replay(t: Tables, user: UserId, k: nat, now: int): (Tables, bool) {
    if !Replayable(t, user, k) then (t, false)
    else
      var t1 := EnsureSettings(t, user);
      var row := NewRow(user, Replayed, t.rows[k].donation, t.rows[k].speech, t1.settings[user].ttsEnabled,
                        now, now + MAX_ALERT_AGE);
      (Trim(Append(t1, row), user, now), true)
  }

  ghost function Skip(t: Tables, user: UserId, now: int): (Tables, Option<nat>) {
    var playing := PlayingKeys(t.rows, user);
    var live := LiveKeys(t.rows, user);
    if user !in t.settings || live == {} then (t, None)
    else
      var k := Least(if playing != {} then playing else live);
      (t.(rows := t.rows[k := SkipRow(t.rows[k], now)]), Some(k))
  }

  // ---------------------------------------------------------------------------------------------
  // Speech preparation and retention
  // ---------------------------------------------------------------------------------------------

  function SpeechCandidates(rows: map<nat, Row>, now: int): set<nat> {
    set k | k in rows && SpeechClaimable(rows[k], now)
  }

  /** Hands out the oldest claimable row. */
  ghost function HandOut(t: Tables, now: int): (Tables, Option<Job>) {
    var candidates := SpeechCandidates(t.rows, now);
    if candidates == {} then (t, None)
    else
      var k := Least(candidates);
      var row := ClaimSpeech(t.rows[k], now);
      var job := Job(k, row.user, row.preparationGeneration, row.preparationAttempts);
      (t.(rows := t.rows[k := row], jobs := t.jobs + {job}), Some(job))
  }

  ghost function ClaimPreparation(t: Tables, now: int): (Tables, Option<Job>) {
    HandOut(t.(rows := GiveUpExhausted(ExpireAll(t.rows, now), now)), now)
  }

  /** The guard of both job reports: the row still belongs to that claim. */
  predicate Reportable(t: Tables, job: Job) {
    && job.playback in t.rows
    && t.rows[job.playback].user == job.user
    && t.rows[job.playback].preparationGeneration == job.generation
    && t.rows[job.playback].status.Preparing?
  }

  function CompletePreparation(t: Tables, job: Job): (Tables, bool) {
    if Reportable(t, job) then (t.(rows := t.rows[job.playback := CompleteSpeech(t.rows[job.playback])]), true)
    else (t, false)
  }

  function FailPreparation(t: Tables, job: Job, now: int): (Tables, bool) {
    if Reportable(t, job) then
      (t.(rows := t.rows[job.playback := FailSpeech(t.rows[job.playback], job.attempts, now)]), true)
    else (t, false)
  }

  function PruneRetention(t: Tables, now: int): Tables {
    t.(rows := map k | k in t.rows && !Prunable(t.rows, k, now) :: t.rows[k])
  }
}
