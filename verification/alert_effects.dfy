/**
 What every transaction of a run does, told from the side of what it changes: a playing row, a waiting row, a
 player, a link, the settings. Each theorem says, in columns, which calls make the change, under exactly which
 conditions, and what the new value is; in every other case the value stays.
 */
module AlertEffects {
  import opened Base
  import opened AlertRows
  import opened Newest
  import opened AlertTables
  import opened AlertInvariant
  import opened DonationOrder
  import opened AlertRuns
  import opened AlertQueueing

  // ---------------------------------------------------------------------------------------------
  // Who calls
  // ---------------------------------------------------------------------------------------------

  /** What a page sends with the call, if it sends anything. */
  function SentWith(call: Call): Option<Credentials> {
    match call
    case HeartbeatCall(c, _, _) => Some(c)
    case ReleaseCall(c) => Some(c)
    case ClaimCall(c) => Some(c)
    case StartCall(c, _) => Some(c)
    case FinishCall(c, _, _) => Some(c)
    case StreamCall(c) => Some(c)
    case _ => None
  }

  /** The token is the user's link, and the pair is the user's player. */
  predicate Speaks(t: Tables, c: Credentials, user: UserId) {
    && c.token in t.overlays && t.overlays[c.token] == user
    && user in t.players && t.players[user].key == c.key
  }

  predicate Leased(t: Tables, user: UserId, now: int) {
    user in t.players && now < t.players[user].leaseExpiresAt
  }

  /** The user's player makes the call. */
  predicate ByPlayer(t: Tables, e: Event, user: UserId) {
    SentWith(e.call).Some? && Speaks(t, SentWith(e.call).value, user)
  }

  // ---------------------------------------------------------------------------------------------
  // A playing row
  // ---------------------------------------------------------------------------------------------

  /** The user's player loses what it plays: the link is rotated, the player is taken over, releases, hides, or
      calls when its lease is over. */
  predicate Dislodges(t: Tables, e: Event, user: UserId) {
    match e.call
    case TokenCall(u, token) => u == user && (token in t.overlays ==> t.overlays[token] == user)
    case OpenCall(token, _) => token in t.overlays && t.overlays[token] == user && !Leased(t, user, e.now)
    case HeartbeatCall(_, active, visible) =>
      ByPlayer(t, e, user) && (!Leased(t, user, e.now) || !active || !visible)
    case ReleaseCall(_) => ByPlayer(t, e, user)
    case ClaimCall(_) => ByPlayer(t, e, user) && !Leased(t, user, e.now)
    case StreamCall(_) => ByPlayer(t, e, user) && !Leased(t, user, e.now)
    case _ => false
  }

  /** The user's player asks for work or for the state under a live lease. */
  predicate Looks(t: Tables, e: Event, user: UserId) {
    (e.call.ClaimCall? || e.call.StreamCall?) && ByPlayer(t, e, user) && Leased(t, user, e.now)
  }

  /** Unstarted and past its expiry, or started and not acknowledged for two minutes. */
  predicate Overdue(r: Row, now: int) {
    if r.startedAt.None? then r.expiresAt <= now else r.startedAt.value + ACKNOWLEDGEMENT_TIMEOUT <= now
  }

  /** The row's player acknowledges it under a live lease. */
  predicate Acknowledges(t: Tables, e: Event, user: UserId, k: nat) {
    && ((e.call.StartCall? && e.call.playback == k) || (e.call.FinishCall? && e.call.playback == k))
    && ByPlayer(t, e, user) && Leased(t, user, e.now)
  }

  /** Unstarted, a row goes back to the queue or expires; started, it is interrupted. */
  predicate GivenBack(r: Row, r': Row, now: int, reason: Option<Diagnostic>) {
    if r.startedAt.Some? then
      r' == r.(status := Interrupted, finishedAt := Some(now), lastError := reason)
    else if now < r.expiresAt then
      r' == r.(status := Pending, player := None, finishedAt := None, lastError := None)
    else
      r' == r.(status := Expired, player := None, finishedAt := Some(now), lastError := Some(AlertExpired))
  }

  /** All that can happen to a playing row, and when. */
  ghost predicate PlayingNext(t: Tables, e: Event, k: nat, t': Tables)
    requires k in t.rows
  {
    && k in t'.rows
    && var r, r' := t.rows[k], t'.rows[k];
       if Dislodges(t, e, r.user) then
         GivenBack(r, r', e.now, Some(if e.call.TokenCall? then OverlayRotated else PlayerDisconnected))
       else if Looks(t, e, r.user) && Overdue(r, e.now) then
         GivenBack(r, r', e.now, Some(PlaybackTimeout))
       else if Acknowledges(t, e, r.user, k) && e.call.StartCall? then
         r' == r.(startedAt := if r.startedAt.None? then Some(e.now) else r.startedAt)
       else if Acknowledges(t, e, r.user, k) && e.call.outcome.FinishInterrupted? then
         GivenBack(r, r', e.now, if r.lastError.None? then Some(PlaybackIssue) else r.lastError)
       else if Acknowledges(t, e, r.user, k) && r.startedAt.Some? then
         r' == r.(status := Completed, finishedAt := Some(e.now))
       else if e.call == SkipCall(r.user) && r.user in t.settings then
         r' == r.(status := Skipped, finishedAt := Some(e.now), preparationLease := None)
       else
         r' == r
  }

  /** What the invariant says about a playing row. */
  ghost predicate Plays(t: Tables, k: nat) {
    && k in t.rows && t.rows[k].status.Playing? && t.rows[k].finishedAt.None?
    && t.rows[k].user in t.players && t.rows[k].player == Some(t.players[t.rows[k].user].key)
    && (forall h | h in t.overlays :: t.overlays[h] in t.settings)
    && (forall j | j in t.rows && t.rows[j].user == t.rows[k].user && t.rows[j].status.Playing? :: j == k)
  }

  lemma InvPlays(t: Tables, k: nat)
    requires Inv(t) && k in t.rows && t.rows[k].status.Playing?
    ensures Plays(t, k)
  {
    assert RowOk(t.rows[k]);
    forall j | j in t.rows && t.rows[j].user == t.rows[k].user && t.rows[j].status.Playing? ensures j == k {
      assert PassedBy(t.rows, t.rows[k].user, k) && PassedBy(t.rows, t.rows[k].user, j);
    }
  }

  lemma PlayingUnderToken(t: Tables, e: Event, k: nat)
    requires Plays(t, k) && (e.call.TokenCall? || e.call.OpenCall?)
    ensures PlayingNext(t, e, k, Apply(t, e))
  {}

  lemma PlayingUnderLease(t: Tables, e: Event, k: nat)
    requires Plays(t, k) && (e.call.HeartbeatCall? || e.call.ReleaseCall?)
    ensures PlayingNext(t, e, k, Apply(t, e))
  {}

  lemma PlayingUnderAcknowledgement(t: Tables, e: Event, k: nat)
    requires Plays(t, k) && (e.call.StartCall? || e.call.FinishCall?)
    ensures PlayingNext(t, e, k, Apply(t, e))
  {}

  lemma PlayingUnderStream(t: Tables, e: Event, k: nat)
    requires Plays(t, k) && e.call.StreamCall?
    ensures PlayingNext(t, e, k, Apply(t, e))
  {}

  /** The clean-up of a claim times out what plays and expires what waits. */
  lemma SweptRow(rows: map<nat, Row>, user: UserId, now: int, k: nat)
    requires k in rows
    ensures var swept := ExpireUser(RecoverTimedOut(rows, user, now), user, now);
            && swept.Keys == rows.Keys
            && swept[k] == if rows[k].user != user then rows[k]
                           else if TimedOut(rows[k], now) then TimeOut(rows[k], now)
                           else if Waiting(rows[k]) && rows[k].expiresAt <= now
                           then ExpireWaiting(rows[k], now, AlertExpired) else rows[k]
  {}

  /** A claim without a live lease gives back what the player holds. */
  lemma LateClaim(t: Tables, c: Credentials, now: int, user: UserId)
    requires Speaks(t, c, user) && !Leased(t, user, now) && user in t.settings
    ensures ClaimPlayback(t, c, now) == (t.(rows := RecoverAssigned(t.rows, user, c.key, now)), LeaseLost)
  {}

  /** A claim under a live lease may take one row that is pending after the clean-up. */
  lemma LiveClaim(t: Tables, c: Credentials, now: int, user: UserId, k: nat)
    requires Speaks(t, c, user) && Leased(t, user, now) && user in t.settings && k in t.rows
    ensures var rows := ExpireUser(RecoverTimedOut(t.rows, user, now), user, now);
            var (t', result) := ClaimPlayback(t, c, now);
            && t'.rows.Keys == t.rows.Keys
            && (result == Claimed(k) ==>
                  k in ClaimCandidates(rows, user, now) && t'.rows[k] == Claim(rows[k], c.key))
            && (result != Claimed(k) ==> t'.rows[k] == rows[k])
  {
    SweptRow(t.rows, user, now, k);
    hide ExpireUser, RecoverTimedOut, PlayingKeys, WaitingKeys, Apply;
    var rows := ExpireUser(RecoverTimedOut(t.rows, user, now), user, now);
    match ClaimPlayback(t, c, now).1
    case Claimed(j) => assert j in rows;
    case _ =>
  }

  lemma ClaimIs(t: Tables, e: Event)
    requires e.call.ClaimCall?
    ensures Apply(t, e) == ClaimPlayback(t, e.call.credentials, e.now).0
  {}

  lemma PlayingUnderClaim(t: Tables, e: Event, k: nat)
    requires Plays(t, k) && e.call.ClaimCall?
    ensures PlayingNext(t, e, k, Apply(t, e))
  {
    var c, user := e.call.credentials, t.rows[k].user;
    ClaimIs(t, e);
    hide Apply;
    assert !Acknowledges(t, e, user, k);
    assert Dislodges(t, e, user) <==> ByPlayer(t, e, user) && !Leased(t, user, e.now);
    assert Looks(t, e, user) <==> ByPlayer(t, e, user) && Leased(t, user, e.now);
    assert ByPlayer(t, e, user) <==> Speaks(t, c, user);
    assert Speaks(t, c, user) ==> user in t.settings && t.rows[k].player == Some(c.key);
    hide Dislodges, Looks, Acknowledges, ByPlayer, Plays, Leased;
    if !Speaks(t, c, user) {
      OthersClaim(t, c, e.now, k);
    } else if Leased(t, user, e.now) {
      LiveClaim(t, c, e.now, user, k);
      SweptRow(t.rows, user, e.now, k);
    } else {
      LateClaim(t, c, e.now, user);
    }
    hide ClaimPlayback, ExpireUser, RecoverTimedOut, Speaks, ClaimCandidates;
  }

  /** A claim leaves alone what belongs to other users. */
  lemma OthersClaim(t: Tables, c: Credentials, now: int, k: nat)
    requires k in t.rows && !Speaks(t, c, t.rows[k].user)
    ensures ClaimPlayback(t, c, now).0.rows.Keys == t.rows.Keys && ClaimPlayback(t, c, now).0.rows[k] == t.rows[k]
  {
    if c.token in t.overlays && Speaks(t, c, t.overlays[c.token]) && t.overlays[c.token] in t.settings {
      var user := t.overlays[c.token];
      if Leased(t, user, now) {
        LiveClaim(t, c, now, user, k);
        SweptRow(t.rows, user, now, k);
      } else {
        LateClaim(t, c, now, user);
      }
      hide ClaimPlayback, ExpireUser, RecoverTimedOut;
    }
  }

  lemma PlayingUnderSkip(t: Tables, e: Event, k: nat)
    requires Plays(t, k) && e.call.SkipCall?
    ensures PlayingNext(t, e, k, Apply(t, e))
  {
    assert k in LiveKeys(t.rows, t.rows[k].user) && PlayingKeys(t.rows, t.rows[k].user) == {k};
  }

  // ---------------------------------------------------------------------------------------------
  // A waiting row
  // ---------------------------------------------------------------------------------------------

  /** The user's player, visible and not paused, asks for work under a live lease while nothing else plays, and
      k is the first waiting row that has not expired, prepared and available. */
  ghost predicate Takes(t: Tables, e: Event, k: nat)
    requires k in t.rows
  {
    var r, user := t.rows[k], t.rows[k].user;
    && e.call.ClaimCall? && ByPlayer(t, e, user) && Leased(t, user, e.now)
    && t.players[user].active && t.players[user].visible && user in t.settings && !t.settings[user].paused
    && r.status.Pending? && r.availableAt <= e.now < r.expiresAt
    && (forall j | j in t.rows && t.rows[j].user == user && Waiting(t.rows[j]) && j < k :: t.rows[j].expiresAt <= e.now)
    && (forall j | j in t.rows && t.rows[j].user == user && t.rows[j].status.Playing? :: Overdue(t.rows[j], e.now))
  }

  /** Nobody prepares the row now. */
  predicate Unleased(r: Row, now: int) {
    r.preparationLease.Some? ==> r.preparationLease.value <= now
  }

  /** A worker may take the row: it prepares, is available and unexpired, has tries left, and nobody prepares it. */
  predicate Preparable(r: Row, now: int) {
    r.status.Preparing? && r.availableAt <= now < r.expiresAt && r.preparationAttempts < 3 && Unleased(r, now)
  }

  /** The oldest row a worker may take. */
  ghost predicate NextToPrepare(rows: map<nat, Row>, now: int, k: nat) {
    k in rows && Preparable(rows[k], now) && forall j | j in rows && Preparable(rows[j], now) :: k <= j
  }

  /** A worker reports on the row's last claim while the row still prepares. */
  predicate Reports(t: Tables, job: Job, k: nat)
    requires k in t.rows
  {
    var r := t.rows[k];
    job.playback == k && job.user == r.user && job.generation == r.preparationGeneration && r.status.Preparing?
  }

  /** The user skips, nothing plays, and k is the oldest waiting row. */
  ghost predicate SkipsWaiting(t: Tables, e: Event, k: nat)
    requires k in t.rows
  {
    && e.call == SkipCall(t.rows[k].user) && t.rows[k].user in t.settings
    && forall j | j in t.rows && t.rows[j].user == t.rows[k].user && !Terminal(t.rows[j]) ::
         !t.rows[j].status.Playing? && k <= j
  }

  /** The user's queue is appended to and trimmed. */
  ghost predicate Trimmed(t: Tables, e: Event, user: UserId) {
    match e.call
    case BatchCall(u, source, ds, origin) => u == user && Trims(t, user, source, Ordered(ds), origin)
    case TestCall(u) => u == user
    case ReplayCall(u, k) => u == user && Grants(t, user, k)
    case _ => false
  }

  /** What a failed attempt makes of a row: it expires, goes on without speech, or is tried again later. */
  function Failed(r: Row, attempts: nat, now: int): Row {
    if r.expiresAt <= now then Retired(r, now, TtsUnavailable)
    else if attempts >= 3 then r.(status := Pending, preparationLease := None, lastError := Some(TtsUnavailable))
    else r.(availableAt := if now + attempts * 1000 < r.expiresAt then now + attempts * 1000 else r.expiresAt,
            preparationLease := None, lastError := Some(TtsUnavailable))
  }

  /** All that can happen to a waiting row, and when. */
  ghost predicate WaitingNext(t: Tables, e: Event, k: nat, t': Tables)
    requires k in t.rows
  {
    && k in t'.rows
    && var r, r' := t.rows[k], t'.rows[k];
       if Looks(t, e, r.user) && e.call.ClaimCall? && r.expiresAt <= e.now then
         r' == Retired(r, e.now, AlertExpired)
       else if Takes(t, e, k) then
         r' == r.(status := Playing, player := Some(SentWith(e.call).value.key))
       else if e.call.SpeechClaimCall? && r.expiresAt <= e.now then
         r' == Retired(r, e.now, AlertExpired)
       else if e.call.SpeechClaimCall? && r.status.Preparing? && r.preparationAttempts >= 3 && Unleased(r, e.now) then
         r' == r.(status := Pending, preparationLease := None, lastError := Some(TtsUnavailable))
       else if e.call.SpeechClaimCall? && NextToPrepare(t.rows, e.now, k) then
         r' == r.(preparationGeneration := r.preparationGeneration + 1,
                  preparationAttempts := r.preparationAttempts + 1,
                  preparationLease := Some(e.now + PREPARATION_LEASE), lastError := None)
       else if e.call.SpeechDoneCall? && Reports(t, e.call.job, k) then
         r' == r.(status := Pending, preparationLease := None, lastError := None)
       else if e.call.SpeechFailedCall? && Reports(t, e.call.job, k) then
         r' == Failed(r, e.call.job.attempts, e.now)
       else if SkipsWaiting(t, e, k) then
         r' == r.(status := Skipped, finishedAt := Some(e.now), preparationLease := None)
       else if Trimmed(t, e, r.user) && Overflows(t.rows, r.user, k, Queued(t, t')) then
         r' == Dropped(r, e.now)
       else
         r' == r
  }

  /** The claim's player is visible, active and not paused, and its lease is live. */
  predicate MayTake(t: Tables, c: Credentials, now: int) {
    && c.token in t.overlays
    && var user := t.overlays[c.token];
       && Speaks(t, c, user) && Leased(t, user, now) && t.players[user].active && t.players[user].visible
       && user in t.settings && !t.settings[user].paused
  }

  lemma OnlyThatPlayer(t: Tables, c: Credentials, now: int)
    requires !MayTake(t, c, now)
    ensures !ClaimPlayback(t, c, now).1.Claimed?
  {
    hide ExpireUser, RecoverTimedOut, RecoverAssigned, ClaimCandidates;
  }

  lemma TakesIs(t: Tables, e: Event, k: nat)
    requires e.call.ClaimCall? && MayTake(t, e.call.credentials, e.now)
    ensures var user := t.overlays[e.call.credentials.token];
            k in t.rows && Takes(t, e, k) <==>
            && Head(t, user, e.now, k) && t.rows[k].status.Pending? && t.rows[k].availableAt <= e.now
            && (forall j | j in t.rows && t.rows[j].user == user && t.rows[j].status.Playing? ::
                  TimedOut(t.rows[j], e.now))
  {
    HeadIs(t, t.overlays[e.call.credentials.token], e.now, k);
    hide Head;
    assert forall j | j in t.rows && t.rows[j].status.Playing? ::
        TimedOut(t.rows[j], e.now) <==> Overdue(t.rows[j], e.now);
    hide TimedOut, Overdue, Waiting;
  }

  /** A claim takes a row exactly when the conditions hold, and answers with it. */
  lemma ClaimTakes(t: Tables, e: Event, k: nat)
    requires Inv(t) && e.call.ClaimCall?
    ensures ClaimPlayback(t, e.call.credentials, e.now).1 == Claimed(k) <==> k in t.rows && Takes(t, e, k)
  {
    var c := e.call.credentials;
    hide ClaimPlayback;
    if MayTake(t, c, e.now) {
      ClaimTakesTheHead(t, c, e.now, k);
      TakesIs(t, e, k);
      hide Takes, Inv, Head, TimedOut;
    } else {
      OnlyThatPlayer(t, c, e.now);
      hide Inv;
    }
  }

  lemma HeadIs(t: Tables, user: UserId, now: int, k: nat)
    ensures Head(t, user, now, k) <==>
            && k in t.rows && t.rows[k].user == user && Waiting(t.rows[k]) && now < t.rows[k].expiresAt
            && forall j | j in t.rows && t.rows[j].user == user && Waiting(t.rows[j]) && j < k ::
                 t.rows[j].expiresAt <= now
  {}

  /** What the invariant says about a waiting row. */
  ghost predicate Waits(t: Tables, k: nat) {
    && k in t.rows && Waiting(t.rows[k]) && t.rows[k].player.None? && t.rows[k].startedAt.None?
    && t.rows[k].finishedAt.None? && (t.rows[k].preparationLease.Some? ==> t.rows[k].status.Preparing?)
  }

  lemma InvWaits(t: Tables, k: nat)
    requires Inv(t) && k in t.rows && Waiting(t.rows[k])
    ensures Waits(t, k)
  {
    assert RowOk(t.rows[k]);
  }

  lemma WaitingUnderLease(t: Tables, e: Event, k: nat)
    requires Waits(t, k) && (e.call.TokenCall? || e.call.OpenCall? || e.call.HeartbeatCall? || e.call.ReleaseCall?)
    ensures WaitingNext(t, e, k, Apply(t, e))
  {
    hide Trims, Behind, Speaks;
  }

  lemma WaitingUnderAcknowledgement(t: Tables, e: Event, k: nat)
    requires Waits(t, k) && (e.call.StartCall? || e.call.FinishCall? || e.call.StreamCall?)
    ensures WaitingNext(t, e, k, Apply(t, e))
  {
    hide Trims, Behind, Speaks;
  }

  lemma TakesLooks(t: Tables, e: Event, k: nat)
    requires k in t.rows && e.call.ClaimCall?
    ensures Looks(t, e, t.rows[k].user) <==>
            Speaks(t, e.call.credentials, t.rows[k].user) && Leased(t, t.rows[k].user, e.now)
    ensures Takes(t, e, k) ==> Looks(t, e, t.rows[k].user)
  {}

  /** What a claim makes of a waiting row. */
  lemma WaitingClaimed(t: Tables, e: Event, k: nat)
    requires Inv(t) && Waits(t, k) && e.call.ClaimCall?
    ensures var r, rows' := t.rows[k], ClaimPlayback(t, e.call.credentials, e.now).0.rows;
            && k in rows'
            && rows'[k] == if !Looks(t, e, r.user) then r
                           else if r.expiresAt <= e.now then ExpireWaiting(r, e.now, AlertExpired)
                           else if Takes(t, e, k) then Claim(r, e.call.credentials.key)
                           else r
  {
    var c, user := e.call.credentials, t.rows[k].user;
    assert Speaks(t, c, user) ==> user in t.settings by { assert OverlaysOk(t); }
    hide ClaimPlayback, Inv, Takes;
    ClaimTakes(t, e, k);
    TakesLooks(t, e, k);
    hide Looks;
    if !Speaks(t, c, user) {
      OthersClaim(t, c, e.now, k);
    } else if Leased(t, user, e.now) {
      LiveClaim(t, c, e.now, user, k);
      SweptRow(t.rows, user, e.now, k);
    } else {
      LateClaim(t, c, e.now, user);
      assert RecoverAssigned(t.rows, user, c.key, e.now)[k] == t.rows[k];
    }
    hide ExpireUser, RecoverTimedOut, RecoverAssigned, Speaks, ClaimCandidates, Leased;
  }

  lemma WaitingUnderClaim(t: Tables, e: Event, k: nat)
    requires Inv(t) && Waits(t, k) && e.call.ClaimCall?
    ensures WaitingNext(t, e, k, Apply(t, e))
  {
    hide Apply, ClaimPlayback, Inv;
    ClaimIs(t, e);
    WaitingClaimed(t, e, k);
    assert !Trimmed(t, e, t.rows[k].user) && !SkipsWaiting(t, e, k);
    assert Takes(t, e, k) ==> Looks(t, e, t.rows[k].user);
    hide Looks, Takes, Trimmed, SkipsWaiting, Reports, NextToPrepare, Overflows;
  }

  lemma SkipIs(t: Tables, e: Event)
    requires e.call.SkipCall?
    ensures Apply(t, e) == Skip(t, e.call.user, e.now).0
  {}

  lemma WaitingUnderSkip(t: Tables, e: Event, k: nat)
    requires Waits(t, k) && e.call.SkipCall?
    ensures WaitingNext(t, e, k, Apply(t, e))
  {
    hide Apply;
    SkipIs(t, e);
    var user := e.call.user;
    var playing, live := PlayingKeys(t.rows, user), LiveKeys(t.rows, user);
    if t.rows[k].user == user && user in t.settings {
      assert k in live && forall j :: j in live <==> j in t.rows && t.rows[j].user == user && !Terminal(t.rows[j]);
      assert forall j :: j in playing <==> j in live && t.rows[j].status.Playing?;
      hide LiveKeys, PlayingKeys, Terminal;
      if playing == {} && Least(live) == k {
        assert SkipsWaiting(t, e, k);
      }
      if SkipsWaiting(t, e, k) {
        assert Least(live) == k && forall j | j in playing :: false;
      }
    }
    hide SkipsWaiting;
  }

  lemma WaitingUnderDone(t: Tables, e: Event, k: nat)
    requires Waits(t, k) && e.call.SpeechDoneCall?
    ensures WaitingNext(t, e, k, Apply(t, e))
  {}

  lemma WaitingUnderFailed(t: Tables, e: Event, k: nat)
    requires Waits(t, k) && e.call.SpeechFailedCall?
    ensures WaitingNext(t, e, k, Apply(t, e))
  {}

  lemma WaitingUnderSettings(t: Tables, e: Event, k: nat)
    requires Waits(t, k) && (e.call.EnsureCall? || e.call.PauseCall? || e.call.SettingsCall? || e.call.PruneCall?)
    ensures WaitingNext(t, e, k, Apply(t, e))
  {}

  /** The clean-up of a worker's claim, seen from one row. */
  lemma SpeechSwept(rows: map<nat, Row>, now: int, k: nat)
    requires k in rows
    ensures var swept := GiveUpExhausted(ExpireAll(rows, now), now);
            && swept.Keys == rows.Keys
            && swept[k] == (if Waiting(rows[k]) && rows[k].expiresAt <= now then Retired(rows[k], now, AlertExpired)
                            else if rows[k].status.Preparing? && rows[k].preparationAttempts >= 3
                                    && Unleased(rows[k], now)
                            then rows[k].(status := Pending, preparationLease := None,
                                          lastError := Some(TtsUnavailable))
                            else rows[k])
            && (SpeechClaimable(swept[k], now) <==> Preparable(rows[k], now))
            && (Preparable(rows[k], now) ==> swept[k] == rows[k])
  {}

  /** The job for row k, as its last claim so far leaves it. */
  function JobFor(rows: map<nat, Row>, k: nat): Job
    requires k in rows
  {
    Job(k, rows[k].user, rows[k].preparationGeneration + 1, rows[k].preparationAttempts + 1)
  }

  lemma HandOutRow(t: Tables, swept: map<nat, Row>, now: int, k: nat)
    requires k in t.rows && swept.Keys == t.rows.Keys
    requires forall j | j in t.rows :: SpeechClaimable(swept[j], now) <==> Preparable(t.rows[j], now)
    ensures var t' := HandOut(t.(rows := swept), now).0;
            && t'.rows.Keys == t.rows.Keys
            && t'.rows[k] == (if NextToPrepare(t.rows, now, k) then ClaimSpeech(swept[k], now) else swept[k])
  {
    var candidates := SpeechCandidates(swept, now);
    assert forall j :: j in candidates <==> j in t.rows && Preparable(t.rows[j], now);
    hide Preparable, SpeechClaimable, SpeechCandidates;
  }

  lemma HandOutJob(t: Tables, swept: map<nat, Row>, now: int)
    requires swept.Keys == t.rows.Keys
    requires forall j | j in t.rows :: SpeechClaimable(swept[j], now) <==> Preparable(t.rows[j], now)
    requires forall j | j in t.rows && Preparable(t.rows[j], now) :: swept[j] == t.rows[j]
    ensures var (t', job) := HandOut(t.(rows := swept), now);
            && (forall k | NextToPrepare(t.rows, now, k) :: job == Some(JobFor(t.rows, k)))
            && (job.Some? ==> NextToPrepare(t.rows, now, job.value.playback) && t'.jobs == t.jobs + {job.value})
            && (job.None? ==> t'.jobs == t.jobs)
  {
    var candidates := SpeechCandidates(swept, now);
    assert forall j :: j in candidates <==> j in t.rows && Preparable(t.rows[j], now);
    hide Preparable, SpeechClaimable, SpeechCandidates;
  }

  /** A worker's claim, seen from one row. */
  lemma SpeechClaimRow(t: Tables, now: int, k: nat)
    requires k in t.rows
    ensures var swept := GiveUpExhausted(ExpireAll(t.rows, now), now);
            var (t', job) := ClaimPreparation(t, now);
            && swept.Keys == t.rows.Keys == t'.rows.Keys
            && t'.rows[k] == (if NextToPrepare(t.rows, now, k) then ClaimSpeech(swept[k], now) else swept[k])
            && (NextToPrepare(t.rows, now, k) ==> job == Some(JobFor(t.rows, k)))
            && (job.Some? ==> NextToPrepare(t.rows, now, job.value.playback) && t'.jobs == t.jobs + {job.value})
            && (job.None? ==> t'.jobs == t.jobs)
  {
    hide HandOut, SpeechClaimable, Preparable, NextToPrepare, GiveUpExhausted, ExpireAll, ClaimSpeech, JobFor;
    var swept := GiveUpExhausted(ExpireAll(t.rows, now), now);
    SpeechSwept(t.rows, now, k);
    forall j | j in t.rows
      ensures SpeechClaimable(swept[j], now) <==> Preparable(t.rows[j], now)
      ensures Preparable(t.rows[j], now) ==> swept[j] == t.rows[j]
    {
      SpeechSwept(t.rows, now, j);
    }
    hide Unleased, Retired, Waiting;
    HandOutRow(t, swept, now, k);
    HandOutJob(t, swept, now);
  }

  lemma SpeechClaimIs(t: Tables, e: Event)
    requires e.call.SpeechClaimCall?
    ensures Apply(t, e) == ClaimPreparation(t, e.now).0
  {}

  lemma WaitingUnderSpeechClaim(t: Tables, e: Event, k: nat)
    requires Waits(t, k) && e.call.SpeechClaimCall?
    ensures WaitingNext(t, e, k, Apply(t, e))
  {
    hide Apply, ClaimPreparation, SpeechClaimable, GiveUpExhausted, ExpireAll, HandOut;
    SpeechClaimIs(t, e);
    SpeechSwept(t.rows, e.now, k);
    SpeechClaimRow(t, e.now, k);
    assert NextToPrepare(t.rows, e.now, k) ==> Preparable(t.rows[k], e.now);
    assert !Looks(t, e, t.rows[k].user) || !e.call.ClaimCall?;
    assert !Takes(t, e, k) && !SkipsWaiting(t, e, k) && !Trimmed(t, e, t.rows[k].user);
    hide Looks, Takes, NextToPrepare, Trimmed, SkipsWaiting, Reports, Behind;
  }


  lemma TestIs(t: Tables, e: Event)
    requires e.call.TestCall?
    ensures Apply(t, e) == CreateTest(t, e.call.user, e.now)
  {}

  lemma ReplayIs(t: Tables, e: Event)
    requires e.call.ReplayCall?
    ensures Apply(t, e) == Replay(t, e.call.user, e.call.playback, e.now).0
  {}

  lemma BatchIs(t: Tables, e: Event)
    requires e.call.BatchCall?
    ensures Apply(t, e) ==
            InsertDonations(t, e.call.user, e.call.source, Ordered(e.call.donations), e.call.origin, e.now)
  {}

  /** What queueing does to an old row of any user: it stays, unless the new rows push it out of the queue. */
  ghost predicate OldNext(t: Tables, e: Event, k: nat, t': Tables)
    requires k in t.rows
  {
    var r := t.rows[k];
    && k in t'.rows && t.nextSequence <= t'.nextSequence
    && t'.rows[k] == if Trimmed(t, e, r.user) && Overflows(t.rows, r.user, k, Queued(t, t'))
                     then Dropped(r, e.now) else r
  }

  lemma OldUnderBatch(t: Tables, e: Event, k: nat)
    requires Inv(t) && k in t.rows && e.call.BatchCall?
    ensures OldNext(t, e, k, Apply(t, e))
  {
    hide Apply, Inv, Behind, Dropped, Trims, InsertDonations;
    BatchIs(t, e);
    BatchOld(t, e.call.user, e.call.source, Ordered(e.call.donations), e.call.origin, e.now, k);
  }

  lemma OldUnderOwn(t: Tables, e: Event, row: Row, k: nat)
    requires Inv(t) && k in t.rows && Waiting(row)
    requires Trimmed(t, e, row.user) && forall u | u != row.user :: !Trimmed(t, e, u)
    ensures OldNext(t, e, k, Trim(Append(EnsureSettings(t, row.user), row), row.user, e.now))
  {
    var t1 := EnsureSettings(t, row.user);
    assert RowsOk(t) && RowsOk(t1);
    hide Inv, RowsOk, Behind, Append, Trim, Trimmed;
    QueueOld(t1, row, e.now, k);
    QueueNew(t1, row, e.now);
  }

  lemma OldUnderTest(t: Tables, e: Event, k: nat)
    requires Inv(t) && k in t.rows && e.call.TestCall?
    ensures OldNext(t, e, k, Apply(t, e))
  {
    hide Apply, Inv, Append, Trim, CreateTest, OldNext;
    TestIs(t, e);
    CreateTestIs(t, e.call.user, e.now);
    OldUnderOwn(t, e, OwnRow(t, e.call.user, Test, None, true, e.now), k);
  }

  lemma OldUnderReplay(t: Tables, e: Event, k: nat)
    requires Inv(t) && k in t.rows && e.call.ReplayCall?
    ensures OldNext(t, e, k, Apply(t, e))
  {
    var user, p := e.call.user, e.call.playback;
    hide Apply, Inv, Append, Trim, Replay, Overflows, Dropped;
    ReplayIs(t, e);
    ReplayQueues(t, user, p, e.now);
    if Trimmed(t, e, user) {
      OldUnderOwn(t, e, OwnRow(t, user, Replayed, t.rows[p].donation, t.rows[p].speech, e.now), k);
    }
  }

  // ---------------------------------------------------------------------------------------------
  // Every row, at every step of a run
  // ---------------------------------------------------------------------------------------------

  lemma PlayingUnderRest(t: Tables, e: Event, k: nat)
    requires Plays(t, k)
    requires e.call.EnsureCall? || e.call.PauseCall? || e.call.SettingsCall? || e.call.PruneCall?
             || e.call.SpeechDoneCall? || e.call.SpeechFailedCall?
    ensures PlayingNext(t, e, k, Apply(t, e))
  {}

  lemma PlayingUnderSpeechClaim(t: Tables, e: Event, k: nat)
    requires Plays(t, k) && e.call.SpeechClaimCall?
    ensures PlayingNext(t, e, k, Apply(t, e))
  {
    hide Apply, ClaimPreparation, GiveUpExhausted, ExpireAll, HandOut;
    SpeechClaimIs(t, e);
    SpeechSwept(t.rows, e.now, k);
    SpeechClaimRow(t, e.now, k);
    assert !NextToPrepare(t.rows, e.now, k);
    hide NextToPrepare;
  }

  lemma PlayingUnderQueueing(t: Tables, e: Event, k: nat)
    requires Inv(t) && Plays(t, k) && (e.call.BatchCall? || e.call.TestCall? || e.call.ReplayCall?)
    ensures PlayingNext(t, e, k, Apply(t, e))
  {
    hide Apply, Inv;
    if e.call.BatchCall? {
      OldUnderBatch(t, e, k);
    } else if e.call.TestCall? {
      OldUnderTest(t, e, k);
    } else {
      OldUnderReplay(t, e, k);
    }
    hide Trimmed, Dropped, Behind;
  }

  lemma WaitingUnderQueueing(t: Tables, e: Event, k: nat)
    requires Inv(t) && Waits(t, k) && (e.call.BatchCall? || e.call.TestCall? || e.call.ReplayCall?)
    ensures WaitingNext(t, e, k, Apply(t, e))
  {
    hide Apply, Inv;
    if e.call.BatchCall? {
      OldUnderBatch(t, e, k);
    } else if e.call.TestCall? {
      OldUnderTest(t, e, k);
    } else {
      OldUnderReplay(t, e, k);
    }
    hide Trimmed, Dropped, Behind;
  }

  lemma PlayingStep(t: Tables, e: Event, k: nat)
    requires Inv(t) && k in t.rows && t.rows[k].status.Playing?
    ensures PlayingNext(t, e, k, Apply(t, e))
  {
    InvPlays(t, k);
    hide Inv, Plays, Apply, PlayingNext;
    var c := e.call;
    if c.TokenCall? || c.OpenCall? {
      PlayingUnderToken(t, e, k);
    } else if c.HeartbeatCall? || c.ReleaseCall? {
      PlayingUnderLease(t, e, k);
    } else if c.StartCall? || c.FinishCall? {
      PlayingUnderAcknowledgement(t, e, k);
    } else if c.StreamCall? {
      PlayingUnderStream(t, e, k);
    } else if c.ClaimCall? {
      PlayingUnderClaim(t, e, k);
    } else if c.SkipCall? {
      PlayingUnderSkip(t, e, k);
    } else if c.SpeechClaimCall? {
      PlayingUnderSpeechClaim(t, e, k);
    } else if c.BatchCall? || c.TestCall? || c.ReplayCall? {
      PlayingUnderQueueing(t, e, k);
    } else {
      PlayingUnderRest(t, e, k);
    }
  }

  lemma WaitingStep(t: Tables, e: Event, k: nat)
    requires Inv(t) && k in t.rows && Waiting(t.rows[k])
    ensures WaitingNext(t, e, k, Apply(t, e))
  {
    InvWaits(t, k);
    hide Inv, Waits, Apply, WaitingNext;
    var c := e.call;
    if c.ClaimCall? {
      WaitingUnderClaim(t, e, k);
    } else if c.SkipCall? {
      WaitingUnderSkip(t, e, k);
    } else if c.SpeechClaimCall? {
      WaitingUnderSpeechClaim(t, e, k);
    } else if c.SpeechDoneCall? {
      WaitingUnderDone(t, e, k);
    } else if c.SpeechFailedCall? {
      WaitingUnderFailed(t, e, k);
    } else if c.BatchCall? || c.TestCall? || c.ReplayCall? {
      WaitingUnderQueueing(t, e, k);
    } else if c.EnsureCall? || c.PauseCall? || c.SettingsCall? || c.PruneCall? {
      WaitingUnderSettings(t, e, k);
    } else if c.StartCall? || c.FinishCall? || c.StreamCall? {
      WaitingUnderAcknowledgement(t, e, k);
    } else {
      WaitingUnderLease(t, e, k);
    }
  }

  /** At every step of every run, what becomes of a row that is not finished is decided by its columns and the
      call alone, as listed above. */
  lemma LiveRowNext(ts: seq<Tables>, es: seq<Event>, i: nat, k: nat)
    requires Run(ts, es) && i < |es| && k in ts[i].rows && !Terminal(ts[i].rows[k])
    ensures ts[i].rows[k].status.Playing? ==> PlayingNext(ts[i], es[i], k, ts[i + 1])
    ensures Waiting(ts[i].rows[k]) ==> WaitingNext(ts[i], es[i], k, ts[i + 1])
  {
    hide Apply, PlayingNext, WaitingNext;
    RunInv(ts, es, i);
    if ts[i].rows[k].status.Playing? {
      PlayingStep(ts[i], es[i], k);
    } else {
      WaitingStep(ts[i], es[i], k);
    }
  }

  /** Over runs: a row starts to play in exactly one way. The player of its user asks for work under a live lease,
      active, visible and not paused, while nothing else plays, and the row heads the queue, prepared and available. */
  lemma PlaysIff(ts: seq<Tables>, es: seq<Event>, i: nat, k: nat)
    requires Run(ts, es) && i < |es| && (k in ts[i].rows ==> !ts[i].rows[k].status.Playing?)
    ensures k in ts[i + 1].rows && ts[i + 1].rows[k].status.Playing? <==> k in ts[i].rows && Takes(ts[i], es[i], k)
    ensures k in ts[i].rows && Takes(ts[i], es[i], k) ==>
              ts[i + 1].rows[k] == ts[i].rows[k].(status := Playing, player := Some(SentWith(es[i].call).value.key))
  {
    hide Apply, Overflows, Trimmed, NextToPrepare, SkipsWaiting;
    RunInv(ts, es, i);
    assert RowsEvolve(ts[i], ts[i + 1].rows);
    if k in ts[i].rows && Waiting(ts[i].rows[k]) {
      LiveRowNext(ts, es, i, k);
      assert Takes(ts[i], es[i], k) ==> es[i].now < ts[i].rows[k].expiresAt;
    } else if k in ts[i].rows {
      assert Terminal(ts[i].rows[k]) && !Takes(ts[i], es[i], k);
    } else {
      assert k in ts[i + 1].rows ==> Fresh(ts[i], k, ts[i + 1].rows[k]);
    }
    hide Takes, Inv, Evolves;
  }

  /** Over runs: a playing row is completed exactly by its player's acknowledgement, after its start and under a live
      lease. */
  lemma CompletesIff(ts: seq<Tables>, es: seq<Event>, i: nat, k: nat)
    requires Run(ts, es) && i < |es| && k in ts[i].rows && ts[i].rows[k].status.Playing? && k in ts[i + 1].rows
    ensures ts[i + 1].rows[k].status.Completed? <==>
            && es[i].call.FinishCall? && es[i].call.outcome.FinishCompleted?
            && Acknowledges(ts[i], es[i], ts[i].rows[k].user, k) && ts[i].rows[k].startedAt.Some?
    ensures ts[i + 1].rows[k].status.Completed? ==> ts[i + 1].rows[k].finishedAt == Some(es[i].now)
  {
    hide Apply, Run;
    LiveRowNext(ts, es, i, k);
    hide ByPlayer, Leased, Overdue;
  }

  /** How many finished rows of the user have a higher sequence number. */
  function FinishedAbove(t: Tables, user: UserId, k: nat): nat {
    |set j | j in t.rows && t.rows[j].user == user && Terminal(t.rows[j]) && j > k|
  }

  /** Over runs: a finished row is never written again, and retention deletes it exactly when it finished more than
      30 days ago or twenty finished rows of its user have higher sequence numbers. */
  lemma FinishedRowNext(ts: seq<Tables>, es: seq<Event>, i: nat, k: nat)
    requires Run(ts, es) && i < |es| && k in ts[i].rows && Terminal(ts[i].rows[k])
    ensures ts[i].rows[k].finishedAt.Some?
    ensures k !in ts[i + 1].rows <==>
            && es[i].call.PruneCall?
            && (ts[i].rows[k].finishedAt.value + TERMINAL_RETENTION < es[i].now
                || FinishedAbove(ts[i], ts[i].rows[k].user, k) >= MAX_RETAINED_TERMINAL)
    ensures k in ts[i + 1].rows ==> ts[i + 1].rows[k] == ts[i].rows[k]
  {
    var t, e := ts[i], es[i];
    RunInv(ts, es, i);
    assert RowOk(t.rows[k]) && RowsEvolve(t, ts[i + 1].rows);
    if e.call.PruneCall? {
      PruneIs(t, e);
      PrunedIff(t, k, e.now);
    } else {
      DeletesNothing(t, e, k);
    }
    hide Apply, PruneRetention, Run, FinishedAbove;
  }

  lemma PlayerDeletesNothing(t: Tables, e: Event)
    requires e.call.TokenCall? || e.call.OpenCall? || e.call.HeartbeatCall? || e.call.ReleaseCall? || e.call.StartCall?
             || e.call.FinishCall?
    ensures t.rows.Keys <= Apply(t, e).rows.Keys
  {
    hide Recover, Start, Finish, Assigned;
  }

  lemma ClaimDeletesNothing(t: Tables, e: Event)
    requires e.call.ClaimCall? || e.call.StreamCall? || e.call.SkipCall?
    ensures t.rows.Keys <= Apply(t, e).rows.Keys
  {
    hide Recover, TimeOut, ExpireWaiting, TimedOut, Assigned, ClaimCandidates, LiveKeys, PlayingKeys, Claim, SkipRow;
  }

  lemma SpeechDeletesNothing(t: Tables, e: Event)
    requires e.call.SpeechClaimCall? || e.call.SpeechDoneCall? || e.call.SpeechFailedCall?
    ensures t.rows.Keys <= Apply(t, e).rows.Keys
  {
    hide ExpireWaiting, GiveUpSpeech, SpeechExhausted, SpeechCandidates, ClaimSpeech, CompleteSpeech, FailSpeech,
         Reportable;
  }

  lemma SettingsDeleteNothing(t: Tables, e: Event)
    requires e.call.EnsureCall? || e.call.PauseCall? || e.call.SettingsCall?
    ensures t.rows.Keys <= Apply(t, e).rows.Keys
  {}

  lemma DeletesNothing(t: Tables, e: Event, k: nat)
    requires Inv(t) && k in t.rows && !e.call.PruneCall?
    ensures k in Apply(t, e).rows
  {
    hide Apply, Inv;
    var c := e.call;
    if c.ClaimCall? || c.StreamCall? || c.SkipCall? {
      ClaimDeletesNothing(t, e);
    } else if c.SpeechClaimCall? || c.SpeechDoneCall? || c.SpeechFailedCall? {
      SpeechDeletesNothing(t, e);
    } else if c.EnsureCall? || c.PauseCall? || c.SettingsCall? {
      SettingsDeleteNothing(t, e);
    } else if c.BatchCall? {
      OldUnderBatch(t, e, k);
    } else if c.TestCall? {
      OldUnderTest(t, e, k);
    } else if c.ReplayCall? {
      OldUnderReplay(t, e, k);
    } else {
      PlayerDeletesNothing(t, e);
    }
  }

  lemma PruneIs(t: Tables, e: Event)
    requires e.call.PruneCall?
    ensures Apply(t, e) == PruneRetention(t, e.now)
  {}

  lemma PrunedIff(t: Tables, k: nat, now: int)
    requires k in t.rows && Terminal(t.rows[k]) && t.rows[k].finishedAt.Some?
    ensures k !in PruneRetention(t, now).rows <==>
            || t.rows[k].finishedAt.value + TERMINAL_RETENTION < now
            || FinishedAbove(t, t.rows[k].user, k) >= MAX_RETAINED_TERMINAL
  {
    var user := t.rows[k].user;
    assert Above(TerminalKeys(t.rows, user), k)
        == set j | j in t.rows && t.rows[j].user == user && Terminal(t.rows[j]) && j > k;
  }

  // ---------------------------------------------------------------------------------------------
  // Players, links and settings
  // ---------------------------------------------------------------------------------------------

  function PlayerOf(t: Tables, user: UserId): Option<Player> {
    if user in t.players then Some(t.players[user]) else None
  }

  /** The token may become the user's link. */
  predicate Links(t: Tables, e: Event, user: UserId) {
    e.call.TokenCall? && e.call.user == user && (e.call.token in t.overlays ==> t.overlays[e.call.token] == user)
  }

  /** A page opens with the user's link while no other one holds a live lease. */
  predicate TakesOver(t: Tables, e: Event, user: UserId) {
    && e.call.OpenCall? && e.call.token in t.overlays && t.overlays[e.call.token] == user
    && !Leased(t, user, e.now)
  }

  function NextGeneration(t: Tables, user: UserId): nat {
    if user in t.players then t.players[user].key.generation + 1 else 1
  }

  /** All that can happen to a user's player, and when. */
  function PlayerNext(t: Tables, e: Event, user: UserId): Option<Player> {
    if Links(t, e, user) then None
    else if TakesOver(t, e, user) then
      Some(Player(PlayerKey(e.call.candidate, NextGeneration(t, user)), false, false, e.now + PLAYER_LEASE))
    else if e.call.ReleaseCall? && ByPlayer(t, e, user) then None
    else if e.call.HeartbeatCall? && ByPlayer(t, e, user) && Leased(t, user, e.now) then
      Some(Player(e.call.credentials.key, e.call.active, e.call.visible, e.now + PLAYER_LEASE))
    else PlayerOf(t, user)
  }

  lemma PlayerUnderOpen(t: Tables, e: Event, user: UserId)
    requires e.call.OpenCall?
    ensures PlayerOf(Apply(t, e), user) == PlayerNext(t, e, user)
  {
    hide RecoverAssigned;
  }

  lemma PlayerStep(t: Tables, e: Event, user: UserId)
    ensures PlayerOf(Apply(t, e), user) == PlayerNext(t, e, user)
  {
    if e.call.OpenCall? {
      PlayerUnderOpen(t, e, user);
      hide Apply, PlayerNext;
    } else if e.call.HeartbeatCall? || e.call.ReleaseCall? || e.call.TokenCall? {
      hide RecoverAssigned, RecoverUser;
    } else {
      PlayersUntouched(t, e);
      hide Apply;
    }
  }

  /** Over runs: at every step each user's player is the one listed above. */
  lemma PlayersNext(ts: seq<Tables>, es: seq<Event>, i: nat, user: UserId)
    requires Run(ts, es) && i < |es|
    ensures PlayerOf(ts[i + 1], user) == PlayerNext(ts[i], es[i], user)
  {
    hide Apply, PlayerNext;
    PlayerStep(ts[i], es[i], user);
  }

  /** Over runs: while its lease is live a player loses its place only by rotating the link or by its own release. */
  lemma LeaseProtects(ts: seq<Tables>, es: seq<Event>, i: nat, user: UserId)
    requires Run(ts, es) && i < |es| && Leased(ts[i], user, es[i].now)
    requires user in ts[i + 1].players ==> ts[i + 1].players[user].key != ts[i].players[user].key
    ensures Links(ts[i], es[i], user) || es[i].call.ReleaseCall?
    ensures es[i].call.ReleaseCall? ==>
              es[i].call.credentials.key == ts[i].players[user].key && user !in ts[i + 1].players
  {
    hide Apply;
    PlayersNext(ts, es, i, user);
  }

  /** Opening: a page stands by exactly while another one holds a live lease, and then only its id is noted;
      otherwise it becomes the player, with the next generation. */
  lemma OpenAnswers(t: Tables, token: TokenHash, candidate: PlayerId, now: int)
    ensures var (t', result) := OpenPlayer(t, token, candidate, now);
            && (result == InvalidToken <==> token !in t.overlays)
            && (result.Standby? <==> token in t.overlays && Leased(t, t.overlays[token], now))
            && (result.Standby? ==> result.generation == t.players[t.overlays[token]].key.generation)
            && (!result.Active? ==> t' == t.(candidates := t.candidates + {candidate}))
            && (result.Active? ==>
                  var user := t.overlays[token];
                  && result.generation == NextGeneration(t, user)
                  && PlayerOf(t', user)
                     == Some(Player(PlayerKey(candidate, result.generation), false, false, now + PLAYER_LEASE)))
  {
    hide RecoverAssigned;
  }

  /** The caller is the player behind the link it sends, and its lease is live. */
  predicate HasLease(t: Tables, c: Credentials, now: int) {
    c.token in t.overlays && Speaks(t, c, t.overlays[c.token]) && Leased(t, t.overlays[c.token], now)
  }

  /** The row is assigned to exactly that player of that user. */
  predicate AssignedTo(t: Tables, c: Credentials, k: nat) {
    && k in t.rows && c.token in t.overlays
    && t.rows[k].user == t.overlays[c.token] && t.rows[k].player == Some(c.key)
  }

  /** Which calls of a page are accepted. */
  lemma PlayerAnswers(t: Tables, c: Credentials, k: nat, outcome: Outcome, active: bool, visible: bool, now: int)
    ensures Heartbeat(t, c, active, visible, now).1 <==> HasLease(t, c, now)
    ensures StartPlayback(t, c, k, now).1 <==> HasLease(t, c, now) && AssignedTo(t, c, k) && t.rows[k].status.Playing?
    ensures FinishPlayback(t, c, k, outcome, now).1 <==>
            && HasLease(t, c, now) && AssignedTo(t, c, k)
            && (outcome.FinishCompleted? ==>
                  t.rows[k].startedAt.Some? && (t.rows[k].status.Playing? || t.rows[k].status.Completed?))
            && (outcome.FinishInterrupted? ==> t.rows[k].status.Playing? || t.rows[k].status.Interrupted?)
  {
    hide RecoverAssigned, Finish;
  }

  /** What a claim and a look at the state answer. */
  lemma ClaimAnswers(t: Tables, e: Event)
    requires Inv(t) && (e.call.ClaimCall? || e.call.StreamCall?)
    ensures e.call.ClaimCall? ==>
              var result := ClaimPlayback(t, e.call.credentials, e.now).1;
              && (result == LeaseLost <==> !HasLease(t, e.call.credentials, e.now))
              && forall k :: result == Claimed(k) <==> k in t.rows && Takes(t, e, k)
    ensures e.call.StreamCall? ==>
              var result := StreamState(t, e.call.credentials, e.now).1;
              && (result == StreamLost <==> !HasLease(t, e.call.credentials, e.now))
              && (result.Streaming? ==>
                    && result.paused == t.settings[t.overlays[e.call.credentials.token]].paused
                    && forall k: nat :: result.playback == Some(k) <==> Shown(t, e.call.credentials, e.now, k))
  {
    var c := e.call.credentials;
    assert OverlaysOk(t);
    if e.call.ClaimCall? {
      forall k ensures ClaimPlayback(t, c, e.now).1 == Claimed(k) <==> k in t.rows && Takes(t, e, k) {
        ClaimTakes(t, e, k);
      }
      hide Takes, ExpireUser, RecoverTimedOut, RecoverAssigned, ClaimCandidates, Inv;
    } else if HasLease(t, c, e.now) {
      StreamShows(t, c, e.now);
    }
  }

  lemma StreamShows(t: Tables, c: Credentials, now: int)
    requires Inv(t) && HasLease(t, c, now) && t.overlays[c.token] in t.settings
    ensures var result := StreamState(t, c, now).1;
            && result.Streaming? && result.paused == t.settings[t.overlays[c.token]].paused
            && forall k: nat :: result.playback == Some(k) <==> Shown(t, c, now, k)
  {
    var user := t.overlays[c.token];
    var rows := RecoverTimedOut(t.rows, user, now);
    var mine := set k | k in rows && Assigned(rows[k], user, c.key);
    forall k ensures k in mine <==> Shown(t, c, now, k) {
      ShownStays(t, c, now, k);
    }
    forall j, k | j in mine && k in mine ensures j == k {
      InvPlays(t, k);
    }
    hide Inv, RecoverTimedOut, Shown, Assigned;
  }

  /** The caller's playing row, unless it is overdue. */
  predicate Shown(t: Tables, c: Credentials, now: int, k: nat) {
    AssignedTo(t, c, k) && t.rows[k].status.Playing? && !Overdue(t.rows[k], now)
  }

  lemma ShownStays(t: Tables, c: Credentials, now: int, k: nat)
    requires HasLease(t, c, now)
    ensures var rows := RecoverTimedOut(t.rows, t.overlays[c.token], now);
            Shown(t, c, now, k) <==> k in rows && Assigned(rows[k], t.overlays[c.token], c.key)
  {}


  function SettingsOf(t: Tables, user: UserId): Settings {
    if user in t.settings then t.settings[user] else Settings(false, false, false, ALL_SOURCES)
  }

  /** The user's settings appear, if they were missing. */
  predicate GetsSettings(t: Tables, e: Event, user: UserId) {
    match e.call
    case EnsureCall(u) => u == user
    case TokenCall(_, _) => Links(t, e, user)
    case TestCall(u) => u == user
    case ReplayCall(u, k) => u == user && Grants(t, user, k)
    case _ => false
  }

  /** All that can happen to a user's settings, and when. */
  predicate SettingsNext(t: Tables, e: Event, user: UserId, t': Tables) {
    var s := SettingsOf(t, user);
    match e.call
    case PauseCall(u, paused) =>
      if u == user then user in t'.settings && t'.settings[user] == s.(paused := paused)
      else SameSettings(t, t', user)
    case SettingsCall(u, enabled, ttsEnabled, sources) =>
      if u == user then user in t'.settings && t'.settings[user] == Settings(enabled, s.paused, ttsEnabled, sources)
      else SameSettings(t, t', user)
    case _ =>
      if GetsSettings(t, e, user) then user in t'.settings && t'.settings[user] == s else SameSettings(t, t', user)
  }

  predicate SameSettings(t: Tables, t': Tables, user: UserId) {
    (user in t'.settings <==> user in t.settings) && (user in t.settings ==> t'.settings[user] == t.settings[user])
  }

  /** All that can happen to the links, and when: a user has one link at most. */
  predicate LinksNext(t: Tables, e: Event, token: TokenHash, user: UserId, t': Tables) {
    (token in t'.overlays && t'.overlays[token] == user) <==>
    if Links(t, e, user) then e.call.token == token else token in t.overlays && t.overlays[token] == user
  }

  lemma SettingsUnderOwn(t: Tables, e: Event, user: UserId, token: TokenHash)
    requires e.call.EnsureCall? || e.call.PauseCall? || e.call.SettingsCall?
    ensures SettingsNext(t, e, user, Apply(t, e)) && LinksNext(t, e, token, user, Apply(t, e))
  {}

  lemma TokenIs(t: Tables, e: Event)
    requires e.call.TokenCall?
    ensures Apply(t, e) == SetOverlayToken(t, e.call.user, e.call.token, e.now).0
  {}

  /** Rotating the link: refused exactly when another user holds the token. */
  lemma TokenLinks(t: Tables, e: Event, user: UserId, token: TokenHash)
    requires e.call.TokenCall?
    ensures SetOverlayToken(t, e.call.user, e.call.token, e.now).1 <==> Links(t, e, e.call.user)
    ensures SettingsNext(t, e, user, Apply(t, e)) && LinksNext(t, e, token, user, Apply(t, e))
  {
    hide Apply, RecoverUser;
    TokenIs(t, e);
  }

  lemma SettingsUnderQueueing(t: Tables, e: Event, user: UserId, token: TokenHash)
    requires e.call.TestCall? || e.call.ReplayCall? || e.call.BatchCall?
    ensures SettingsNext(t, e, user, Apply(t, e)) && LinksNext(t, e, token, user, Apply(t, e))
  {
    hide Apply, BoundBacklog, InsertDonations;
    if e.call.BatchCall? {
      BatchIs(t, e);
      InsertDonationsFrame(t, e.call.user, e.call.source, Ordered(e.call.donations), e.call.origin, e.now);
    } else if e.call.TestCall? {
      TestIs(t, e);
    } else {
      ReplayIs(t, e);
    }
  }

  /** What only queueing, settings and link calls write. */
  predicate FieldsKept(t: Tables, t': Tables) {
    && t'.settings == t.settings && t'.overlays == t.overlays
    && t'.nextSequence == t.nextSequence && t'.donations == t.donations
  }

  lemma PlayerKeepsFields(t: Tables, e: Event)
    requires e.call.OpenCall? || e.call.HeartbeatCall? || e.call.ReleaseCall? || e.call.StartCall? || e.call.FinishCall?
    ensures FieldsKept(t, Apply(t, e))
  {
    hide RecoverAssigned, Start, Finish;
  }

  lemma QueueKeepsFields(t: Tables, e: Event)
    requires e.call.ClaimCall? || e.call.StreamCall? || e.call.SkipCall? || e.call.PruneCall?
    ensures FieldsKept(t, Apply(t, e))
  {
    hide RecoverAssigned, RecoverTimedOut, ExpireUser, Prunable, ClaimCandidates, LiveKeys, PlayingKeys;
  }

  lemma SpeechKeepsFields(t: Tables, e: Event)
    requires e.call.SpeechClaimCall? || e.call.SpeechDoneCall? || e.call.SpeechFailedCall?
    ensures FieldsKept(t, Apply(t, e))
  {
    hide GiveUpExhausted, ExpireAll, SpeechCandidates;
  }

  lemma KeepsFields(t: Tables, e: Event)
    requires !e.call.EnsureCall? && !e.call.PauseCall? && !e.call.SettingsCall? && !e.call.TokenCall?
    requires !e.call.TestCall? && !e.call.ReplayCall? && !e.call.BatchCall?
    ensures FieldsKept(t, Apply(t, e))
  {
    hide Apply, FieldsKept;
    if e.call.ClaimCall? || e.call.StreamCall? || e.call.SkipCall? || e.call.PruneCall? {
      QueueKeepsFields(t, e);
    } else if e.call.SpeechClaimCall? || e.call.SpeechDoneCall? || e.call.SpeechFailedCall? {
      SpeechKeepsFields(t, e);
    } else {
      PlayerKeepsFields(t, e);
    }
  }

  /** Over runs: at every step settings and links are the ones listed above. */
  lemma SettingsAndLinksNext(ts: seq<Tables>, es: seq<Event>, i: nat, user: UserId, token: TokenHash)
    requires Run(ts, es) && i < |es|
    ensures SettingsNext(ts[i], es[i], user, ts[i + 1]) && LinksNext(ts[i], es[i], token, user, ts[i + 1])
  {
    var t, e := ts[i], es[i];
    hide Apply;
    if e.call.EnsureCall? || e.call.PauseCall? || e.call.SettingsCall? {
      SettingsUnderOwn(t, e, user, token);
    } else if e.call.TokenCall? {
      TokenLinks(t, e, user, token);
    } else if e.call.TestCall? || e.call.ReplayCall? || e.call.BatchCall? {
      SettingsUnderQueueing(t, e, user, token);
    } else {
      KeepsFields(t, e);
    }
  }

  // ---------------------------------------------------------------------------------------------
  // New rows and new donations
  // ---------------------------------------------------------------------------------------------

  /** The one row a test alert or a granted replay queues. */
  predicate QueuesOne(t: Tables, t': Tables, row: Row) {
    && t'.nextSequence == t.nextSequence + 1 && t'.rows.Keys == t.rows.Keys + {t.nextSequence}
    && t'.rows[t.nextSequence] == row
  }

  lemma TestQueues(t: Tables, e: Event)
    requires Inv(t) && e.call.TestCall?
    ensures QueuesOne(t, Apply(t, e), OwnRow(t, e.call.user, Test, None, true, e.now))
  {
    hide Apply, Inv, Append, Trim, CreateTest;
    TestIs(t, e);
    CreateTestIs(t, e.call.user, e.now);
    NewUnderOwn(t, OwnRow(t, e.call.user, Test, None, true, e.now), e.now);
  }

  lemma GrantedReplayQueues(t: Tables, e: Event)
    requires Inv(t) && e.call.ReplayCall?
    ensures var user, k := e.call.user, e.call.playback;
            && Replay(t, user, k, e.now).1 == Grants(t, user, k)
            && (!Grants(t, user, k) ==> Apply(t, e) == t)
            && (Grants(t, user, k) ==>
                  QueuesOne(t, Apply(t, e),
                            OwnRow(t, user, Replayed, t.rows[k].donation, t.rows[k].speech, e.now)))
  {
    var user, k := e.call.user, e.call.playback;
    hide Apply, Inv, Append, Trim, Replay;
    ReplayIs(t, e);
    ReplayQueues(t, user, k, e.now);
    if Grants(t, user, k) {
      NewUnderOwn(t, OwnRow(t, user, Replayed, t.rows[k].donation, t.rows[k].speech, e.now), e.now);
    }
  }

  /** Over runs: rows appear by a test alert, a granted replay or a batch of donations only. */
  lemma NewRowsNext(ts: seq<Tables>, es: seq<Event>, i: nat, k: nat)
    requires Run(ts, es) && i < |es| && k in ts[i + 1].rows && k !in ts[i].rows
    ensures var t, e, r := ts[i], es[i], ts[i + 1].rows[k];
            match e.call
            case TestCall(user) => k == t.nextSequence && r == OwnRow(t, user, Test, None, true, e.now)
            case ReplayCall(user, p) =>
              && Grants(t, user, p) && k == t.nextSequence
              && r == OwnRow(t, user, Replayed, t.rows[p].donation, t.rows[p].speech, e.now)
            case BatchCall(user, source, ds, origin) =>
              exists m: nat :: FirstStored(t, user, source, Ordered(ds), m)
                          && Alerted(t, user, source, Ordered(ds)[m], origin, e.now)
                          && IsAlert(t, ts[i + 1], user, source, Ordered(ds)[m], e.now, k)
            case _ => false
  {
    var t, e, t' := ts[i], es[i], ts[i + 1];
    RunInv(ts, es, i);
    RunInv(ts, es, i + 1);
    assert Fresh(t, k, t'.rows[k]) && k < t'.nextSequence;
    hide Apply, Inv, Evolves, OwnRow, IsAlert, Alerted, FirstStored;
    match e.call
    case TestCall(_) => TestQueues(t, e);
    case ReplayCall(_, _) => GrantedReplayQueues(t, e);
    case BatchCall(user, source, ds, origin) =>
      BatchIs(t, e);
      var m := BatchQueues(t, user, source, Ordered(ds), origin, e.now, k);
    case _ =>
      NothingQueued(t, e);
      assert false;
  }

  lemma NothingQueued(t: Tables, e: Event)
    requires !e.call.TestCall? && !e.call.ReplayCall? && !e.call.BatchCall?
    ensures Apply(t, e).nextSequence == t.nextSequence && Apply(t, e).donations == t.donations
  {
    if !e.call.EnsureCall? && !e.call.PauseCall? && !e.call.SettingsCall? && !e.call.TokenCall? {
      KeepsFields(t, e);
      hide Apply;
    }
    hide RecoverUser, InsertDonations;
  }

  /** Over runs: a donation that a batch stores first gets an alert if and only if the batch is no initial import, the
      user has alerts on for the source, and the donation is less than ten minutes old, but for a millisecond. */
  lemma DonationAlertsIff(ts: seq<Tables>, es: seq<Event>, i: nat, user: UserId, source: Source, ds: seq<Donation>,
                          origin: Origin, m: nat)
    requires Run(ts, es) && i < |es| && es[i].call == BatchCall(user, source, ds, origin)
    requires FirstStored(ts[i], user, source, Ordered(ds), m)
    ensures var d, t' := Ordered(ds)[m], ts[i + 1];
            var key := DonationKey(user, source, d.sourceId);
            && ((exists k: nat :: AlertOf(t', key, k)) <==> Alerted(ts[i], user, source, d, origin, es[i].now))
            && (forall k: nat | AlertOf(t', key, k) :: IsAlert(ts[i], t', user, source, d, es[i].now, k))
  {
    var t, t', ordered := ts[i], ts[i + 1], Ordered(ds);
    var key := DonationKey(user, source, ordered[m].sourceId);
    assert Inv(t) by { RunInv(ts, es, i); }
    BatchIs(t, es[i]);
    hide Apply, Inv, Alerted, InsertDonations, FirstStored;
    forall k: nat | AlertOf(t', key, k)
      ensures Alerted(t, user, source, ordered[m], origin, es[i].now)
      ensures IsAlert(t, t', user, source, ordered[m], es[i].now, k)
    {
      NewAlertOnly(t, user, source, ordered, origin, es[i].now, m, k);
    }
    if Alerted(t, user, source, ordered[m], origin, es[i].now) {
      var k := BatchAlerts(t, user, source, ordered, origin, es[i].now, m);
      assert AlertOf(t', key, k);
    }
  }

  /** Over runs: a batch stores exactly its donations, and no other call stores any. */
  lemma DonationsNext(ts: seq<Tables>, es: seq<Event>, i: nat)
    requires Run(ts, es) && i < |es|
    ensures ts[i + 1].donations.Keys == ts[i].donations.Keys +
              match es[i].call
              case BatchCall(user, source, ds, _) => KeysOf(user, source, ds)
              case _ => {}
  {
    var t, e := ts[i], es[i];
    RunInv(ts, es, i);
    hide Apply, Inv, KeysOf;
    match e.call
    case BatchCall(user, source, ds, origin) =>
      BatchIs(t, e);
      BatchStores(t, user, source, Ordered(ds), origin, e.now);
      OrderedKeys(user, source, ds);
    case TestCall(_) => OwnStoresNothing(t, e);
    case ReplayCall(_, _) => OwnStoresNothing(t, e);
    case _ => NothingQueued(t, e);
  }

  lemma OrderedKeys(user: UserId, source: Source, ds: seq<Donation>)
    ensures KeysOf(user, source, Ordered(ds)) == KeysOf(user, source, ds)
  {
    OrderedSorts(ds);
    assert forall d :: d in ds <==> d in multiset(ds);
    assert forall d :: d in Ordered(ds) <==> d in multiset(Ordered(ds));
  }

  lemma OwnStoresNothing(t: Tables, e: Event)
    requires e.call.TestCall? || e.call.ReplayCall?
    ensures Apply(t, e).donations == t.donations
  {
    hide Apply, BoundBacklog;
    if e.call.TestCall? {
      TestIs(t, e);
    } else {
      ReplayIs(t, e);
    }
  }

  // ---------------------------------------------------------------------------------------------
  // Workers and skips
  // ---------------------------------------------------------------------------------------------

  /** A worker's claim hands out the oldest row it may take, if there is one, with its next generation and try. */
  lemma WorkerAnswers(t: Tables, e: Event, k: nat)
    requires k in t.rows && e.call.SpeechClaimCall?
    ensures var (t', job) := ClaimPreparation(t, e.now);
            && (NextToPrepare(t.rows, e.now, k) ==> job == Some(JobFor(t.rows, k)))
            && (job.Some? ==> NextToPrepare(t.rows, e.now, job.value.playback) && t'.jobs == t.jobs + {job.value})
            && (job.None? ==> t'.jobs == t.jobs)
  {
    hide ClaimPreparation, NextToPrepare, JobFor;
    SpeechClaimRow(t, e.now, k);
  }

  /** Reports are accepted exactly while the row still belongs to that claim; skips answer with what they skip. */
  lemma ReportAnswers(t: Tables, job: Job, user: UserId, now: int, k: nat)
    requires k in t.rows
    ensures CompletePreparation(t, job).1 <==> job.playback in t.rows && Reports(t, job, job.playback)
    ensures FailPreparation(t, job, now).1 <==> job.playback in t.rows && Reports(t, job, job.playback)
    ensures Skip(t, user, now).1 == Some(k) <==>
            && t.rows[k].user == user && user in t.settings && !Terminal(t.rows[k])
            && forall j | j in t.rows && t.rows[j].user == user && !Terminal(t.rows[j]) ::
                 if t.rows[k].status.Playing? then t.rows[j].status.Playing? ==> k <= j
                 else !t.rows[j].status.Playing? && k <= j
  {
    var live, playing := LiveKeys(t.rows, user), PlayingKeys(t.rows, user);
    assert forall j :: j in live <==> j in t.rows && t.rows[j].user == user && !Terminal(t.rows[j]);
    assert forall j :: j in playing <==> j in live && t.rows[j].status.Playing?;
    hide LiveKeys, PlayingKeys;
  }

}
