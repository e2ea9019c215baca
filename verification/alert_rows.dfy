/**
 One row of the donation-alert playback table: its columns, the row-level effect of every
 UPDATE the store issues, and the life-cycle law those effects obey.

 Columns that no guard reads (author, message, amount, asset ids, volumes, colours) are left out.
 Times are whole milliseconds.
 */
module AlertRows {
  import opened Base

  type UserId = nat
  type PlayerId = nat

  const PLAYER_LEASE := 15_000
  const PREPARATION_LEASE := 120_000
  const PREPARATION_TRIES: nat := 3
  const ACKNOWLEDGEMENT_TIMEOUT := 120_000
  const MAX_ALERT_AGE := 600_000

  datatype Status = Preparing | Pending | Playing | Completed | Skipped | Expired | Interrupted

  datatype Kind = Incoming | Replayed | Test

  datatype Diagnostic =
    | AlertExpired | BacklogLimit | PlaybackTimeout | PlayerDisconnected
    | OverlayRotated | PlaybackIssue | TtsUnavailable

  /** A player row is identified by the page's random id together with its generation. */
  datatype PlayerKey = PlayerKey(id: PlayerId, generation: nat)

  datatype Row = Row(
    user: UserId,
    kind: Kind,
    donation: Option<nat>,
    speech: bool,              // the message holds something other than white space
    status: Status,
    createdAt: int,
    availableAt: int,
    expiresAt: int,
    startedAt: Option<int>,
    finishedAt: Option<int>,
    player: Option<PlayerKey>,
    preparationGeneration: nat,
    preparationAttempts: nat,
    preparationLease: Option<int>,
    lastError: Option<Diagnostic>)

  predicate Terminal(r: Row) {
    r.status.Completed? || r.status.Skipped? || r.status.Expired? || r.status.Interrupted?
  }

  predicate Waiting(r: Row) {
    r.status.Preparing? || r.status.Pending?
  }

  // ---------------------------------------------------------------------------------------------
  // Row-level effects
  // ---------------------------------------------------------------------------------------------

  function NewRow(user: UserId, kind: Kind, donation: Option<nat>, speech: bool, ttsEnabled: bool,
                  now: int, expiresAt: int): Row {
    Row(user, kind, donation, speech, if ttsEnabled && speech then Preparing else Pending, now, now, expiresAt,
        None, None, None, 0, 0, None, None)
  }

  /** A player gives up the row: unstarted work is requeued or expires, started work is terminal. */
  function Recover(r: Row, now: int, reason: Diagnostic): Row {
    if r.startedAt.None? && r.expiresAt > now then
      r.(status := Pending, finishedAt := None, player := None, lastError := None)
    else if r.startedAt.None? then
      r.(status := Expired, finishedAt := Some(now), player := None, lastError := Some(AlertExpired))
    else
      r.(status := Interrupted, finishedAt := Some(now), lastError := Some(reason))
  }

  predicate TimedOut(r: Row, now: int) {
    && r.status.Playing?
    && match r.startedAt
       case None => r.expiresAt <= now
       case Some(started) => started <= now - ACKNOWLEDGEMENT_TIMEOUT
  }

  function TimeOut(r: Row, now: int): Row {
    if r.startedAt.None? then
      r.(status := Expired, finishedAt := Some(now), player := None, lastError := Some(AlertExpired))
    else
      r.(status := Interrupted, finishedAt := Some(now), lastError := Some(PlaybackTimeout))
  }

  function ExpireWaiting(r: Row, now: int, reason: Diagnostic): Row {
    r.(status := Expired, finishedAt := Some(now), preparationLease := None, lastError := Some(reason))
  }

  function Claim(r: Row, player: PlayerKey): Row {
    r.(status := Playing, player := Some(player))
  }

  function Start(r: Row, now: int): Row {
    r.(startedAt := if r.startedAt.None? then Some(now) else r.startedAt)
  }

  function Complete(r: Row, now: int): Row {
    r.(status := Completed, finishedAt := if r.finishedAt.None? then Some(now) else r.finishedAt)
  }

  function Interrupt(r: Row, now: int): Row {
    if r.startedAt.None? && r.expiresAt > now then
      r.(status := Pending, finishedAt := None, player := None, lastError := None)
    else if r.startedAt.None? then
      r.(status := Expired, finishedAt := if r.finishedAt.None? then Some(now) else r.finishedAt,
         player := None, lastError := Some(AlertExpired))
    else
      r.(status := Interrupted, finishedAt := if r.finishedAt.None? then Some(now) else r.finishedAt,
         lastError := if r.status.Interrupted? then r.lastError
                      else if r.lastError.None? then Some(PlaybackIssue) else r.lastError)
  }

  function SkipRow(r: Row, now: int): Row {
    r.(status := Skipped, finishedAt := Some(now), preparationLease := None)
  }

  /** No worker may hold the row: its speech lease is absent or over. */
  predicate LeaseFree(r: Row, now: int) {
    r.preparationLease.None? || r.preparationLease.value <= now
  }

  predicate SpeechExhausted(r: Row, now: int) {
    && r.status.Preparing?
    && r.expiresAt > now
    && r.preparationAttempts >= PREPARATION_TRIES
    && LeaseFree(r, now)
  }

  function GiveUpSpeech(r: Row): Row {
    r.(status := Pending, preparationLease := None, lastError := Some(TtsUnavailable))
  }

  predicate SpeechClaimable(r: Row, now: int) {
    && r.status.Preparing?
    && r.availableAt <= now
    && r.expiresAt > now
    && r.preparationAttempts < PREPARATION_TRIES
    && LeaseFree(r, now)
  }

  function ClaimSpeech(r: Row, now: int): Row {
    r.(preparationGeneration := r.preparationGeneration + 1,
       preparationAttempts := r.preparationAttempts + 1,
       preparationLease := Some(now + PREPARATION_LEASE),
       lastError := None)
  }

  function CompleteSpeech(r: Row): Row {
    r.(status := Pending, preparationLease := None, lastError := None)
  }

  function FailSpeech(r: Row, attempts: nat, now: int): Row {
    var terminal := attempts >= PREPARATION_TRIES;
    var retryAt := now + attempts * 1000;
    if r.expiresAt <= now then
      r.(status := Expired, finishedAt := Some(now), preparationLease := None, lastError := Some(TtsUnavailable))
    else if terminal then
      r.(status := Pending, preparationLease := None, lastError := Some(TtsUnavailable))
    else
      r.(availableAt := if r.expiresAt <= retryAt then r.expiresAt else retryAt,
         preparationLease := None, lastError := Some(TtsUnavailable))
  }

  // ---------------------------------------------------------------------------------------------
  // Well-formed rows and the life-cycle law
  // ---------------------------------------------------------------------------------------------

  /** What the status of a stored row says about its other columns. */
  ghost predicate RowOk(r: Row) {
    && (Waiting(r) ==> r.startedAt.None? && r.player.None?)
    && (r.status.Playing? ==> r.player.Some? && r.availableAt < r.expiresAt)
    && (r.status.Completed? || r.status.Interrupted? ==> r.startedAt.Some? && r.player.Some?)
    && (r.status.Expired? ==> r.startedAt.None?)
    && (Terminal(r) <==> r.finishedAt.Some?)
    && (r.kind.Test? <==> r.donation.None?)
    && r.expiresAt > r.createdAt
    && r.preparationAttempts == r.preparationGeneration <= PREPARATION_TRIES
    && (r.preparationLease.Some? ==> r.status.Preparing? && r.preparationAttempts > 0)
    && (r.status.Preparing? && r.preparationAttempts == PREPARATION_TRIES ==> r.preparationLease.Some?)
  }

  /** Decreases with every claim of a speech job and with every failure that keeps it preparing. */
  function SpeechMeasure(r: Row): int {
    2 * (PREPARATION_TRIES - r.preparationAttempts) + (if r.preparationLease.Some? then 1 else 0)
  }

  /** A repeated failure report moves the time of the next try, nothing else. */
  predicate Postponed(r: Row, r': Row) {
    r.preparationLease.None? && r' == r.(availableAt := r'.availableAt, lastError := r'.lastError)
  }

  /** All that one transaction may do to a row it does not delete. */
  ghost predicate RowNext(r: Row, r': Row) {
    && r'.user == r.user && r'.kind == r.kind && r'.donation == r.donation
    && r'.speech == r.speech && r'.createdAt == r.createdAt && r'.expiresAt == r.expiresAt
    // Terminal statuses absorb: the row is never written again.
    && (Terminal(r) ==> r' == r)
    // A started row keeps its start time and its player, and is never queued again.
    && (r.startedAt.Some? ==> r'.startedAt == r.startedAt && r'.player == r.player && !Waiting(r'))
    // Only a playing row starts.
    && (r.startedAt.None? && r'.startedAt.Some? ==> r.status.Playing? && r' == r.(startedAt := r'.startedAt))
    // Only a pending row is claimed, and a playing row does not change hands.
    && (r'.status.Playing? ==> r.status.Pending? || (r.status.Playing? && r'.player == r.player))
    // Speech preparation is never resumed, and each step of it uses up the measure.
    && (r'.status.Preparing? ==> r.status.Preparing?)
    && (r.status.Preparing? && r'.status.Preparing? ==>
          r' == r || SpeechMeasure(r') < SpeechMeasure(r) || Postponed(r, r'))
    && r'.preparationGeneration >= r.preparationGeneration
  }

  /** The reflexive case: a transaction that does not touch the row. */
  lemma UntouchedNext(r: Row)
    requires RowOk(r)
    ensures RowNext(r, r)
  {}

  lemma RecoverNext(r: Row, now: int, reason: Diagnostic)
    requires RowOk(r) && r.status.Playing?
    ensures RowOk(Recover(r, now, reason)) && RowNext(r, Recover(r, now, reason))
    ensures !Recover(r, now, reason).status.Playing?
  {}

  lemma TimeOutNext(r: Row, now: int)
    requires RowOk(r) && TimedOut(r, now)
    ensures RowOk(TimeOut(r, now)) && RowNext(r, TimeOut(r, now)) && Terminal(TimeOut(r, now))
  {}

  lemma ExpireWaitingNext(r: Row, now: int, reason: Diagnostic)
    requires RowOk(r) && Waiting(r)
    ensures RowOk(ExpireWaiting(r, now, reason)) && RowNext(r, ExpireWaiting(r, now, reason))
  {}

  lemma ClaimNext(r: Row, player: PlayerKey)
    requires RowOk(r) && r.status.Pending? && r.availableAt < r.expiresAt
    ensures RowOk(Claim(r, player)) && RowNext(r, Claim(r, player))
  {}

  lemma StartNext(r: Row, now: int)
    requires RowOk(r) && r.status.Playing?
    ensures RowOk(Start(r, now)) && RowNext(r, Start(r, now))
  {}

  lemma CompleteNext(r: Row, now: int)
    requires RowOk(r) && r.startedAt.Some? && (r.status.Playing? || r.status.Completed?)
    ensures RowOk(Complete(r, now)) && RowNext(r, Complete(r, now))
  {}

  lemma InterruptNext(r: Row, now: int)
    requires RowOk(r) && (r.status.Playing? || r.status.Interrupted?)
    ensures RowOk(Interrupt(r, now)) && RowNext(r, Interrupt(r, now)) && !Interrupt(r, now).status.Playing?
  {}

  lemma SkipNext(r: Row, now: int)
    requires RowOk(r) && !Terminal(r)
    ensures RowOk(SkipRow(r, now)) && RowNext(r, SkipRow(r, now))
  {}

  lemma SpeechNext(r: Row, now: int)
    requires RowOk(r)
    ensures SpeechExhausted(r, now) ==> RowOk(GiveUpSpeech(r)) && RowNext(r, GiveUpSpeech(r))
    ensures SpeechClaimable(r, now) ==> RowOk(ClaimSpeech(r, now)) && RowNext(r, ClaimSpeech(r, now))
    ensures r.status.Preparing? ==> RowOk(CompleteSpeech(r)) && RowNext(r, CompleteSpeech(r))
  {}

  lemma FailSpeechNext(r: Row, attempts: nat, now: int)
    requires RowOk(r) && r.status.Preparing? && attempts == r.preparationAttempts > 0
    ensures RowOk(FailSpeech(r, attempts, now)) && RowNext(r, FailSpeech(r, attempts, now))
  {}
}
