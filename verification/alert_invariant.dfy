/**
 The invariant of the alert tables and its preservation by every transaction, together with the
 two-state law `Evolves` that every transaction obeys.
 */
module AlertInvariant {
  import opened Base
  import opened AlertRows
  import opened Newest
  import opened AlertTables

  const LIVE_BOUND: nat := MAX_PENDING_ALERTS + 1

  ghost predicate RowsOk(t: Tables) {
    forall k | k in t.rows ::
      && k < t.nextSequence
      && RowOk(t.rows[k])
      && (t.rows[k].donation.Some? ==> t.rows[k].donation.value < t.nextDonation)
  }

  /** A playing row belongs to the player that is current right now. */
  ghost predicate Held(t: Tables) {
    forall k | k in t.rows && t.rows[k].status.Playing? ::
      t.rows[k].user in t.players && t.rows[k].player == Some(t.players[t.rows[k].user].key)
  }

  /** Everything of the user queued before `k` is finished. */
  ghost predicate PassedBy(rows: map<nat, Row>, user: UserId, k: nat) {
    forall j | j in rows && rows[j].user == user && j < k :: Terminal(rows[j])
  }

  ghost predicate Passed(t: Tables) {
    forall k | k in t.rows && t.rows[k].status.Playing? :: PassedBy(t.rows, t.rows[k].user, k)
  }

  ghost predicate Bounded(t: Tables) {
    forall user: UserId :: |LiveKeys(t.rows, user)| <= LIVE_BOUND
  }

  /** A job that was handed out names the row, its user and one of its claims so far. */
  ghost predicate JobOk(t: Tables, job: Job) {
    && 1 <= job.attempts == job.generation
    && job.playback < t.nextSequence
    && (job.playback in t.rows ==>
          var r := t.rows[job.playback];
          r.user == job.user && job.generation <= r.preparationGeneration)
  }

  ghost predicate JobsOk(t: Tables) {
    forall job | job in t.jobs :: JobOk(t, job)
  }

  ghost predicate IncomingOk(t: Tables) {
    forall j, k | j in t.rows && k in t.rows && t.rows[j].kind.Incoming? && t.rows[k].kind.Incoming?
                  && t.rows[j].donation == t.rows[k].donation :: j == k
  }

  ghost predicate DonationsOk(t: Tables) {
    && (forall d | d in t.donations :: t.donations[d] < t.nextDonation)
    && (forall d, e | d in t.donations && e in t.donations && t.donations[d] == t.donations[e] :: d == e)
  }

  /** Every player id was offered, and serves one user only. */
  ghost predicate PlayersOk(t: Tables) {
    && (forall u | u in t.players :: t.players[u].key.id in t.candidates)
    && (forall u, v | u in t.players && v in t.players && t.players[u].key.id == t.players[v].key.id :: u == v)
  }

  /** One overlay link per user, and only for users with settings. */
  ghost predicate OverlaysOk(t: Tables) {
    && (forall h | h in t.overlays :: t.overlays[h] in t.settings)
    && (forall h, g | h in t.overlays && g in t.overlays && t.overlays[h] == t.overlays[g] :: h == g)
  }

  /** Everything but the bound on the backlog. */
  ghost predicate Core(t: Tables) {
    && RowsOk(t) && Held(t) && Passed(t) && JobsOk(t)
    && IncomingOk(t) && DonationsOk(t) && PlayersOk(t) && OverlaysOk(t)
  }

  ghost predicate Inv(t: Tables) {
    Core(t) && Bounded(t)
  }

  /** What an appended row may look like when its transaction commits. */
  ghost predicate Fresh(t: Tables, k: nat, r: Row) {
    && t.nextSequence <= k
    && r.startedAt.None? && !r.status.Playing?
    && (r.kind.Incoming? ==> r.donation.Some? && t.nextDonation <= r.donation.value)
  }

  ghost predicate RowsEvolve(t: Tables, rows': map<nat, Row>) {
    && (forall k | k in rows' :: if k in t.rows then RowNext(t.rows[k], rows'[k]) else Fresh(t, k, rows'[k]))
    && (forall k | k in t.rows && k !in rows' :: Terminal(t.rows[k]))
  }

  /** The player of a user stays, goes, or is replaced by one whose id was never offered before. */
  ghost predicate PlayersEvolve(t: Tables, players': map<UserId, Player>) {
    forall u | u in players' ::
      (u in t.players && players'[u].key == t.players[u].key) || players'[u].key.id !in t.candidates
  }

  ghost predicate Evolves(t: Tables, t': Tables) {
    && t.nextSequence <= t'.nextSequence
    && t.nextDonation <= t'.nextDonation
    && t.candidates <= t'.candidates
    && (forall d | d in t.donations :: d in t'.donations && t'.donations[d] == t.donations[d])
    && RowsEvolve(t, t'.rows)
    && PlayersEvolve(t, t'.players)
  }

  // ---------------------------------------------------------------------------------------------
  // UPDATE statements that start nothing
  // ---------------------------------------------------------------------------------------------

  /** Every row is left alone or moves on; none becomes playing, none is prepared further. */
  ghost predicate Settles(rows: map<nat, Row>, rows': map<nat, Row>) {
    && rows'.Keys == rows.Keys
    && forall k | k in rows ::
         && RowOk(rows'[k])
         && RowNext(rows[k], rows'[k])
         && (rows'[k].status.Playing? ==> rows[k].status.Playing?)
         && (rows'[k].status.Preparing? ==> rows'[k] == rows[k])
  }

  /** A settling update whose effect on each row is nothing or final. */
  ghost predicate Ends(rows: map<nat, Row>, rows': map<nat, Row>) {
    && Settles(rows, rows')
    && forall k | k in rows :: rows'[k] == rows[k] || Terminal(rows'[k])
  }

  lemma RecoverAssignedSettles(t: Tables, user: UserId, key: PlayerKey, now: int)
    requires RowsOk(t)
    ensures Settles(t.rows, RecoverAssigned(t.rows, user, key, now))
    ensures forall k | k in t.rows :: !Assigned(RecoverAssigned(t.rows, user, key, now)[k], user, key)
  {
    forall k | k in t.rows && Assigned(t.rows[k], user, key)
      ensures RowOk(Recover(t.rows[k], now, PlayerDisconnected))
      ensures RowNext(t.rows[k], Recover(t.rows[k], now, PlayerDisconnected))
    {
      RecoverNext(t.rows[k], now, PlayerDisconnected);
    }
  }

  lemma RecoverUserSettles(t: Tables, user: UserId, now: int)
    requires RowsOk(t)
    ensures Settles(t.rows, RecoverUser(t.rows, user, now))
    ensures PlayingKeys(RecoverUser(t.rows, user, now), user) == {}
  {
    forall k | k in t.rows && t.rows[k].user == user && t.rows[k].status.Playing?
      ensures RowOk(Recover(t.rows[k], now, OverlayRotated))
      ensures RowNext(t.rows[k], Recover(t.rows[k], now, OverlayRotated))
    {
      RecoverNext(t.rows[k], now, OverlayRotated);
    }
  }

  lemma RecoverTimedOutEnds(t: Tables, user: UserId, now: int)
    requires RowsOk(t)
    ensures Ends(t.rows, RecoverTimedOut(t.rows, user, now))
  {
    forall k | k in t.rows && t.rows[k].user == user && TimedOut(t.rows[k], now)
      ensures RowOk(TimeOut(t.rows[k], now)) && RowNext(t.rows[k], TimeOut(t.rows[k], now))
    {
      TimeOutNext(t.rows[k], now);
    }
  }

  lemma ExpireUserEnds(t: Tables, user: UserId, now: int)
    requires RowsOk(t)
    ensures Ends(t.rows, ExpireUser(t.rows, user, now))
  {
    forall k | k in t.rows && Waiting(t.rows[k])
      ensures RowOk(ExpireWaiting(t.rows[k], now, AlertExpired))
      ensures RowNext(t.rows[k], ExpireWaiting(t.rows[k], now, AlertExpired))
    {
      ExpireWaitingNext(t.rows[k], now, AlertExpired);
    }
  }

  lemma ExpireAllEnds(t: Tables, now: int)
    requires RowsOk(t)
    ensures Ends(t.rows, ExpireAll(t.rows, now))
  {
    forall k | k in t.rows && Waiting(t.rows[k])
      ensures RowOk(ExpireWaiting(t.rows[k], now, AlertExpired))
      ensures RowNext(t.rows[k], ExpireWaiting(t.rows[k], now, AlertExpired))
    {
      ExpireWaitingNext(t.rows[k], now, AlertExpired);
    }
  }

  lemma GiveUpSettles(t: Tables, now: int)
    requires RowsOk(t)
    ensures Settles(t.rows, GiveUpExhausted(t.rows, now))
  {
    forall k | k in t.rows && SpeechExhausted(t.rows[k], now)
      ensures RowOk(GiveUpSpeech(t.rows[k])) && RowNext(t.rows[k], GiveUpSpeech(t.rows[k]))
    {
      SpeechNext(t.rows[k], now);
    }
  }

  lemma BoundBacklogEnds(t: Tables, user: UserId, now: int)
    requires RowsOk(t)
    ensures Ends(t.rows, BoundBacklog(t.rows, user, now))
  {
    forall k | k in t.rows && Waiting(t.rows[k])
      ensures RowOk(ExpireWaiting(t.rows[k], now, BacklogLimit))
      ensures RowNext(t.rows[k], ExpireWaiting(t.rows[k], now, BacklogLimit))
    {
      ExpireWaitingNext(t.rows[k], now, BacklogLimit);
    }
  }

  /** Two updates in one transaction touch a row twice only if the first left it alone or finished it. */
  lemma EndsThenSettles(rows: map<nat, Row>, rows1: map<nat, Row>, rows2: map<nat, Row>)
    requires Ends(rows, rows1) && Settles(rows1, rows2)
    ensures Settles(rows, rows2)
    ensures Ends(rows1, rows2) ==> Ends(rows, rows2)
  {}

  // ---------------------------------------------------------------------------------------------
  // Preservation of the invariant by a settling update
  // ---------------------------------------------------------------------------------------------

  lemma LiveShrinks(rows: map<nat, Row>, rows': map<nat, Row>, user: UserId)
    requires forall k | k in rows' :: k in rows && RowNext(rows[k], rows'[k])
    ensures LiveKeys(rows', user) <= LiveKeys(rows, user)
    ensures |LiveKeys(rows', user)| <= |LiveKeys(rows, user)|
  {
    SubsetSize(LiveKeys(rows', user), LiveKeys(rows, user));
  }

  lemma SettledCore(t: Tables, rows': map<nat, Row>)
    requires Core(t) && Settles(t.rows, rows')
    ensures Core(t.(rows := rows'))
  {
    var t' := t.(rows := rows');
    forall job | job in t'.jobs ensures JobOk(t', job) {
      assert JobOk(t, job);
    }
  }

  lemma BoundedShrinks(t: Tables, rows': map<nat, Row>)
    requires Bounded(t) && forall k | k in rows' :: k in t.rows && RowNext(t.rows[k], rows'[k])
    ensures Bounded(t.(rows := rows'))
  {
    forall user: UserId ensures |LiveKeys(rows', user)| <= LIVE_BOUND {
      LiveShrinks(t.rows, rows', user);
    }
  }

  lemma SettledRowsInv(t: Tables, rows': map<nat, Row>)
    requires Inv(t) && Settles(t.rows, rows')
    ensures Inv(t.(rows := rows')) && Evolves(t, t.(rows := rows'))
  {
    SettledCore(t, rows');
    BoundedShrinks(t, rows');
  }

  /** Changing one row to its settled successor. */
  lemma SettledOneInv(t: Tables, k: nat, r: Row)
    requires Inv(t) && k in t.rows && RowOk(r) && RowNext(t.rows[k], r)
    requires r.status.Playing? ==> t.rows[k].status.Playing?
    requires r.status.Preparing? ==> r == t.rows[k]
    ensures Inv(t.(rows := t.rows[k := r])) && Evolves(t, t.(rows := t.rows[k := r]))
  {
    forall j | j in t.rows ensures RowNext(t.rows[j], t.rows[j]) {
      UntouchedNext(t.rows[j]);
    }
    SettledRowsInv(t, t.rows[k := r]);
  }

  lemma UnchangedInv(t: Tables)
    requires Inv(t)
    ensures Evolves(t, t)
  {
    forall j | j in t.rows ensures RowNext(t.rows[j], t.rows[j]) {
      UntouchedNext(t.rows[j]);
    }
  }

  // ---------------------------------------------------------------------------------------------
  // Settings, links and leases
  // ---------------------------------------------------------------------------------------------

  lemma SettingsInv(t: Tables, settings: map<UserId, Settings>)
    requires Inv(t) && t.settings.Keys <= settings.Keys
    ensures Inv(t.(settings := settings)) && Evolves(t, t.(settings := settings))
  {
    var t' := t.(settings := settings);
    UnchangedInv(t);
    forall job | job in t'.jobs ensures JobOk(t', job) {
      assert JobOk(t, job);
    }
  }

  /** A user's player may change hands only while nothing of the user is playing. */
  lemma PlayersInv(t: Tables, players': map<UserId, Player>, user: UserId)
    requires Inv(t)
    requires forall u | u != user :: u in players' <==> u in t.players
    requires forall u | u in players' && u != user :: players'[u] == t.players[u]
    requires user in players' ==> players'[user].key.id in t.candidates
    requires user in players' ==> forall u | u in t.players && u != user :: t.players[u].key.id != players'[user].key.id
    requires PlayingKeys(t.rows, user) == {}
             || (user in players' && user in t.players && players'[user].key == t.players[user].key)
    ensures Inv(t.(players := players'))
  {
    var t' := t.(players := players');
    assert Held(t') by {
      forall k | k in t'.rows && t'.rows[k].status.Playing?
        ensures t'.rows[k].user in players' && t'.rows[k].player == Some(players'[t'.rows[k].user].key)
      {
        assert t.rows[k].user == user ==> k in PlayingKeys(t.rows, user);
      }
    }
    forall job | job in t'.jobs ensures JobOk(t', job) {
      assert JobOk(t, job);
    }
  }

  lemma LinkInv(t: Tables, user: UserId, token: TokenHash)
    requires Inv(t) && user in t.settings && (token in t.overlays ==> t.overlays[token] == user)
    ensures var links := (map h | h in t.overlays && t.overlays[h] != user :: t.overlays[h])[token := user];
            Inv(t.(overlays := links))
  {
    var links := (map h | h in t.overlays && t.overlays[h] != user :: t.overlays[h])[token := user];
    forall job | job in t.jobs ensures JobOk(t.(overlays := links), job) {
      assert JobOk(t, job);
    }
  }

  lemma CandidatesInv(t: Tables, candidate: PlayerId)
    requires Inv(t)
    ensures Inv(t.(candidates := t.candidates + {candidate}))
  {
    var t' := t.(candidates := t.candidates + {candidate});
    forall job | job in t'.jobs ensures JobOk(t', job) {
      assert JobOk(t, job);
    }
  }

  /** Recovering what the current player holds frees the user's queue. */
  lemma RecoverCurrentFrees(t: Tables, user: UserId, now: int)
    requires RowsOk(t) && Held(t) && user in t.players
    ensures PlayingKeys(RecoverAssigned(t.rows, user, t.players[user].key, now), user) == {}
  {
    var key := t.players[user].key;
    var rows' := RecoverAssigned(t.rows, user, key, now);
    forall k | k in rows' && rows'[k].user == user ensures !rows'[k].status.Playing? {
      if t.rows[k].status.Playing? {
        assert Assigned(t.rows[k], user, key);
        RecoverNext(t.rows[k], now, PlayerDisconnected);
      }
    }
  }

  lemma DisconnectInv(t: Tables, user: UserId, now: int)
    requires Inv(t)
    ensures var t' := t.(rows := RecoverUser(t.rows, user, now), players := t.players - {user});
            Inv(t') && Evolves(t, t')
  {
    RecoverUserSettles(t, user, now);
    var t1 := t.(rows := RecoverUser(t.rows, user, now));
    SettledRowsInv(t, t1.rows);
    PlayersInv(t1, t1.players - {user}, user);
  }

  lemma SetOverlayTokenInv(t: Tables, user: UserId, token: TokenHash, now: int)
    requires Inv(t)
    ensures Inv(SetOverlayToken(t, user, token, now).0) && Evolves(t, SetOverlayToken(t, user, token, now).0)
  {
    if token in t.overlays && t.overlays[token] != user {
      UnchangedInv(t);
    } else {
      var t1 := t.(rows := RecoverUser(t.rows, user, now), players := t.players - {user});
      DisconnectInv(t, user, now);
      var t2 := t1.(settings := EnsureSettings(t, user).settings);
      SettingsInv(t1, t2.settings);
      LinkInv(t2, user, token);
    }
  }

  lemma OpenPlayerInv(t: Tables, token: TokenHash, candidate: PlayerId, now: int)
    requires Inv(t) && candidate !in t.candidates
    ensures Inv(OpenPlayer(t, token, candidate, now).0) && Evolves(t, OpenPlayer(t, token, candidate, now).0)
  {
    var t' := OpenPlayer(t, token, candidate, now).0;
    var t1 := t.(candidates := t.candidates + {candidate});
    CandidatesInv(t, candidate);
    UnchangedInv(t);
    if token in t.overlays {
      var user := t.overlays[token];
      if user in t.players && t.players[user].leaseExpiresAt <= now {
        RecoverAssignedSettles(t1, user, t.players[user].key, now);
        RecoverCurrentFrees(t1, user, now);
        var t2 := t1.(rows := t'.rows);
        SettledRowsInv(t1, t2.rows);
        PlayersInv(t2, t'.players, user);
      } else if user !in t.players {
        assert PlayingKeys(t1.rows, user) == {};
        PlayersInv(t1, t'.players, user);
      }
    }
  }

  /** The current player's row is updated in place. */
  lemma RenewInv(t: Tables, user: UserId, active: bool, visible: bool, leaseExpiresAt: int)
    requires Inv(t) && user in t.players
    ensures var players := t.players[user := Player(t.players[user].key, active, visible, leaseExpiresAt)];
            Inv(t.(players := players)) && PlayersEvolve(t, players)
  {
    PlayersInv(t, t.players[user := Player(t.players[user].key, active, visible, leaseExpiresAt)], user);
  }

  lemma HeartbeatInv(t: Tables, c: Credentials, active: bool, visible: bool, now: int)
    requires Inv(t)
    ensures Inv(Heartbeat(t, c, active, visible, now).0) && Evolves(t, Heartbeat(t, c, active, visible, now).0)
  {
    UnchangedInv(t);
    if Current(t, c) {
      var user := t.overlays[c.token];
      RecoverAssignedSettles(t, user, c.key, now);
      hide Inv, Settles, RowsEvolve, PlayersEvolve, RecoverAssigned;
      var t1 := t.(rows := RecoverAssigned(t.rows, user, c.key, now));
      SettledRowsInv(t, t1.rows);
      RenewInv(t, user, active, visible, now + PLAYER_LEASE);
      RenewInv(t1, user, active, visible, now + PLAYER_LEASE);
    }
  }

  lemma ReleasePlayerInv(t: Tables, c: Credentials, now: int)
    requires Inv(t)
    ensures Inv(ReleasePlayer(t, c, now)) && Evolves(t, ReleasePlayer(t, c, now))
  {
    UnchangedInv(t);
    if Current(t, c) {
      var user := t.overlays[c.token];
      RecoverAssignedSettles(t, user, c.key, now);
      RecoverCurrentFrees(t, user, now);
      var t1 := t.(rows := RecoverAssigned(t.rows, user, c.key, now));
      SettledRowsInv(t, t1.rows);
      PlayersInv(t1, t1.players - {user}, user);
    }
  }

  lemma StreamStateInv(t: Tables, c: Credentials, now: int)
    requires Inv(t)
    ensures Inv(StreamState(t, c, now).0) && Evolves(t, StreamState(t, c, now).0)
  {
    UnchangedInv(t);
    if Current(t, c) {
      var user := t.overlays[c.token];
      RecoverAssignedSettles(t, user, c.key, now);
      SettledRowsInv(t, RecoverAssigned(t.rows, user, c.key, now));
      RecoverTimedOutEnds(t, user, now);
      SettledRowsInv(t, RecoverTimedOut(t.rows, user, now));
    }
  }

  // ---------------------------------------------------------------------------------------------
  // Claim, start, finish, skip
  // ---------------------------------------------------------------------------------------------

  /** The clean-up part of a claim. */
  lemma ClaimSweep(t: Tables, user: UserId, now: int)
    requires RowsOk(t)
    ensures Ends(t.rows, ExpireUser(RecoverTimedOut(t.rows, user, now), user, now))
    ensures forall k | k in ExpireUser(RecoverTimedOut(t.rows, user, now), user, now) ::
              var r := ExpireUser(RecoverTimedOut(t.rows, user, now), user, now)[k];
              r.user == user && Waiting(r) ==> r.expiresAt > now
  {
    RecoverTimedOutEnds(t, user, now);
    var t1 := t.(rows := RecoverTimedOut(t.rows, user, now));
    ExpireUserEnds(t1, user, now);
    EndsThenSettles(t.rows, t1.rows, ExpireUser(t1.rows, user, now));
  }

  /** The claimed row has only finished rows of its user before it, and no other one is playing. */
  lemma ClaimPasses(rows: map<nat, Row>, user: UserId, now: int, k: nat)
    requires forall j | j in rows && rows[j].user == user && Waiting(rows[j]) :: rows[j].expiresAt > now
    requires k in ClaimCandidates(rows, user, now)
    ensures PassedBy(rows, user, k)
  {
    forall j | j in rows && rows[j].user == user && j < k ensures Terminal(rows[j]) {
      assert j !in WaitingKeys(rows, user) && j !in PlayingKeys(rows, user);
    }
  }

  lemma ClaimOneInv(t: Tables, user: UserId, k: nat, key: PlayerKey)
    requires Inv(t) && k in t.rows && t.rows[k].user == user && t.rows[k].status.Pending?
    requires PlayingKeys(t.rows, user) == {} && PassedBy(t.rows, user, k)
    requires user in t.players && t.players[user].key == key && t.rows[k].availableAt < t.rows[k].expiresAt
    ensures Inv(t.(rows := t.rows[k := Claim(t.rows[k], key)]))
  {
    var t' := t.(rows := t.rows[k := Claim(t.rows[k], key)]);
    ClaimNext(t.rows[k], key);
    forall u: UserId ensures |LiveKeys(t'.rows, u)| <= LIVE_BOUND {
      assert LiveKeys(t'.rows, u) == LiveKeys(t.rows, u);
    }
    assert Passed(t') by {
      forall j | j in t'.rows && t'.rows[j].status.Playing? ensures PassedBy(t'.rows, t'.rows[j].user, j) {
        if j != k {
          assert j !in PlayingKeys(t.rows, user);
        }
      }
    }
    forall job | job in t'.jobs ensures JobOk(t', job) {
      assert JobOk(t, job);
    }
  }

  /** A row that is pending after the sweep was not touched by it. */
  lemma ClaimEvolves(t: Tables, rows: map<nat, Row>, k: nat, key: PlayerKey)
    requires Inv(t) && Ends(t.rows, rows) && k in rows && rows[k].status.Pending?
    requires rows[k].availableAt < rows[k].expiresAt
    ensures Evolves(t, t.(rows := rows[k := Claim(rows[k], key)]))
  {
    UnchangedInv(t);
    assert rows[k] == t.rows[k];
    ClaimNext(t.rows[k], key);
  }

  lemma ClaimPlaybackInv(t: Tables, c: Credentials, now: int)
    requires Inv(t)
    ensures Inv(ClaimPlayback(t, c, now).0) && Evolves(t, ClaimPlayback(t, c, now).0)
  {
    UnchangedInv(t);
    if Current(t, c) {
      var user := t.overlays[c.token];
      var rows := ExpireUser(RecoverTimedOut(t.rows, user, now), user, now);
      assert Inv(t.(rows := RecoverAssigned(t.rows, user, c.key, now)))
             && Evolves(t, t.(rows := RecoverAssigned(t.rows, user, c.key, now))) by {
        RecoverAssignedSettles(t, user, c.key, now);
        SettledRowsInv(t, RecoverAssigned(t.rows, user, c.key, now));
      }
      ClaimSweep(t, user, now);
      SettledRowsInv(t, rows);
      match ClaimPlayback(t, c, now).1
      case Claimed(k) =>
        ClaimPasses(rows, user, now, k);
        ClaimOneInv(t.(rows := rows), user, k, c.key);
        ClaimEvolves(t, rows, k, c.key);
      case _ =>
    }
  }

  lemma StartPlaybackInv(t: Tables, c: Credentials, k: nat, now: int)
    requires Inv(t)
    ensures Inv(StartPlayback(t, c, k, now).0) && Evolves(t, StartPlayback(t, c, k, now).0)
  {
    if StartPlayback(t, c, k, now).1 {
      StartNext(t.rows[k], now);
      SettledOneInv(t, k, Start(t.rows[k], now));
    } else {
      UnchangedInv(t);
    }
  }

  lemma FinishPlaybackInv(t: Tables, c: Credentials, k: nat, outcome: Outcome, now: int)
    requires Inv(t)
    ensures Inv(FinishPlayback(t, c, k, outcome, now).0) && Evolves(t, FinishPlayback(t, c, k, outcome, now).0)
  {
    if FinishPlayback(t, c, k, outcome, now).1 {
      if outcome.FinishCompleted? {
        CompleteNext(t.rows[k], now);
      } else {
        InterruptNext(t.rows[k], now);
      }
      SettledOneInv(t, k, Finish(t.rows[k], outcome, now));
    } else {
      UnchangedInv(t);
    }
  }

  lemma SkipInv(t: Tables, user: UserId, now: int)
    requires Inv(t)
    ensures Inv(Skip(t, user, now).0) && Evolves(t, Skip(t, user, now).0)
  {
    match Skip(t, user, now).1
    case Some(k) =>
      SkipNext(t.rows[k], now);
      SettledOneInv(t, k, SkipRow(t.rows[k], now));
    case None => UnchangedInv(t);
  }

  // ---------------------------------------------------------------------------------------------
  // Queueing
  // ---------------------------------------------------------------------------------------------

  lemma AppendCore(t: Tables, row: Row)
    requires Inv(t) && RowOk(row) && Waiting(row)
    requires row.donation.Some? ==> row.donation.value < t.nextDonation
    requires row.kind.Incoming? ==>
               forall k | k in t.rows && t.rows[k].kind.Incoming? :: t.rows[k].donation != row.donation
    ensures Core(Append(t, row))
    ensures forall u: UserId | u != row.user :: |LiveKeys(Append(t, row).rows, u)| <= LIVE_BOUND
  {
    var t' := Append(t, row);
    assert t.nextSequence !in t.rows;
    forall u: UserId | u != row.user ensures |LiveKeys(t'.rows, u)| <= LIVE_BOUND {
      assert LiveKeys(t'.rows, u) == LiveKeys(t.rows, u);
    }
    AppendIncoming(t, row);
    AppendPassed(t, row);
    hide IncomingOk, Passed;
    forall job | job in t'.jobs ensures JobOk(t', job) {
      assert JobOk(t, job);
    }
  }

  lemma AppendIncoming(t: Tables, row: Row)
    requires IncomingOk(t) && t.nextSequence !in t.rows
    requires row.kind.Incoming? ==>
               forall k | k in t.rows && t.rows[k].kind.Incoming? :: t.rows[k].donation != row.donation
    ensures IncomingOk(Append(t, row))
  {}

  /** An appended row is behind every playing one. */
  lemma AppendPassed(t: Tables, row: Row)
    requires RowsOk(t) && Passed(t) && Waiting(row)
    ensures Passed(Append(t, row))
  {
    var t' := Append(t, row);
    forall k | k in t'.rows && t'.rows[k].status.Playing? ensures PassedBy(t'.rows, t'.rows[k].user, k) {
      assert k in t.rows && PassedBy(t.rows, t.rows[k].user, k);
    }
  }

  /** Two playing rows of one user would each have passed the other. */
  lemma OnePlaying(t: Tables, user: UserId)
    requires RowsOk(t) && Passed(t)
    ensures |PlayingKeys(t.rows, user)| <= 1
  {
    var playing := PlayingKeys(t.rows, user);
    if playing != {} {
      var k :| k in playing;
      forall j | j in playing ensures j == k {
        assert PassedBy(t.rows, user, k) && PassedBy(t.rows, user, j);
      }
      assert playing == {k};
    }
  }

  /** What is left waiting after the trim: exactly the newest hundred. */
  lemma TrimKeepsNewest(rows: map<nat, Row>, user: UserId, now: int)
    ensures WaitingKeys(BoundBacklog(rows, user, now), user) == NewestOf(WaitingKeys(rows, user), MAX_PENDING_ALERTS)
    ensures |WaitingKeys(BoundBacklog(rows, user, now), user)|
            == if |WaitingKeys(rows, user)| < MAX_PENDING_ALERTS then |WaitingKeys(rows, user)| else MAX_PENDING_ALERTS
  {
    NewestSize(WaitingKeys(rows, user), MAX_PENDING_ALERTS);
  }

  lemma LiveSize(rows: map<nat, Row>, user: UserId)
    ensures |LiveKeys(rows, user)| == |WaitingKeys(rows, user)| + |PlayingKeys(rows, user)|
  {
    assert LiveKeys(rows, user) == WaitingKeys(rows, user) + PlayingKeys(rows, user);
    assert WaitingKeys(rows, user) !! PlayingKeys(rows, user);
  }

  /** A hundred waiting rows at most, and one playing. */
  lemma TrimBounds(t: Tables, user: UserId, now: int)
    requires RowsOk(t) && Passed(t)
    ensures |LiveKeys(BoundBacklog(t.rows, user, now), user)| <= LIVE_BOUND
  {
    OnePlaying(t, user);
    TrimKeepsNewest(t.rows, user, now);
    assert PlayingKeys(BoundBacklog(t.rows, user, now), user) == PlayingKeys(t.rows, user);
    LiveSize(BoundBacklog(t.rows, user, now), user);
  }

  lemma TrimInv(t: Tables, user: UserId, now: int)
    requires Core(t)
    requires forall u: UserId | u != user :: |LiveKeys(t.rows, u)| <= LIVE_BOUND
    ensures Inv(Trim(t, user, now)) && Ends(t.rows, Trim(t, user, now).rows)
  {
    var t' := Trim(t, user, now);
    BoundBacklogEnds(t, user, now);
    SettledCore(t, t'.rows);
    TrimBounds(t, user, now);
    forall u: UserId ensures |LiveKeys(t'.rows, u)| <= LIVE_BOUND {
      if u != user {
        LiveShrinks(t.rows, t'.rows, u);
      }
    }
  }

  /** What queueing does to the rows: old ones stay or end, new ones are unstarted, and incoming
      ones carry a donation that is at least `donation`. */
  ghost predicate Queues(rows: map<nat, Row>, rows': map<nat, Row>, from: nat, donation: nat) {
    && (forall k | k in rows ::
          k in rows' && RowNext(rows[k], rows'[k]) && (rows'[k] == rows[k] || Terminal(rows'[k])))
    && (forall k | k in rows' && k !in rows ::
          && from <= k && rows'[k].startedAt.None? && !rows'[k].status.Playing?
          && (rows'[k].kind.Incoming? ==> rows'[k].donation.Some? && donation <= rows'[k].donation.value))
  }

  lemma QueuesNothing(t: Tables, donation: nat)
    requires RowsOk(t)
    ensures Queues(t.rows, t.rows, t.nextSequence, donation)
  {
    forall k | k in t.rows ensures RowNext(t.rows[k], t.rows[k]) {
      UntouchedNext(t.rows[k]);
    }
  }

  lemma QueuesTwice(rows: map<nat, Row>, rows1: map<nat, Row>, rows2: map<nat, Row>, from: nat, from1: nat,
                    donation: nat, donation1: nat)
    requires Queues(rows, rows1, from, donation) && Queues(rows1, rows2, from1, donation1)
    requires from <= from1 && donation <= donation1
    ensures Queues(rows, rows2, from, donation)
  {
    forall k | k in rows2 && k !in rows
      ensures from <= k && rows2[k].startedAt.None? && !rows2[k].status.Playing?
      ensures rows2[k].kind.Incoming? ==> rows2[k].donation.Some? && donation <= rows2[k].donation.value
    {
      if k in rows1 {
        assert RowNext(rows1[k], rows2[k]);
      }
    }
  }

  lemma QueuesEvolve(t: Tables, t': Tables)
    requires Queues(t.rows, t'.rows, t.nextSequence, t.nextDonation)
    requires t.nextSequence <= t'.nextSequence && t.nextDonation <= t'.nextDonation
    requires t'.players == t.players && t'.candidates == t.candidates
    requires forall d | d in t.donations :: d in t'.donations && t'.donations[d] == t.donations[d]
    ensures Evolves(t, t')
  {}

  /** Append and trim in one transaction. */
  lemma QueueInv(t: Tables, row: Row, now: int, donation: nat)
    requires Inv(t) && RowOk(row) && Waiting(row)
    requires row.donation.Some? ==> row.donation.value < t.nextDonation
    requires row.kind.Incoming? ==> donation <= row.donation.value
    requires row.kind.Incoming? ==>
               forall k | k in t.rows && t.rows[k].kind.Incoming? :: t.rows[k].donation != row.donation
    ensures Inv(Trim(Append(t, row), row.user, now))
    ensures Queues(t.rows, Trim(Append(t, row), row.user, now).rows, t.nextSequence, donation)
  {
    AppendCore(t, row);
    assert RowsOk(t);
    hide Inv, Core, Trim, Ends, LiveKeys, RowsOk, Queues;
    TrimInv(Append(t, row), row.user, now);
    TrimQueues(t, row, Trim(Append(t, row), row.user, now).rows, donation);
  }

  lemma TrimQueues(t: Tables, row: Row, rows': map<nat, Row>, donation: nat)
    requires RowsOk(t) && Waiting(row) && row.startedAt.None? && Ends(Append(t, row).rows, rows')
    requires row.kind.Incoming? ==> row.donation.Some? && donation <= row.donation.value
    ensures Queues(t.rows, rows', t.nextSequence, donation)
  {
    var rows1 := Append(t, row).rows;
    assert t.nextSequence !in t.rows;
    forall k | k in t.rows
      ensures k in rows' && RowNext(t.rows[k], rows'[k]) && (rows'[k] == t.rows[k] || Terminal(rows'[k]))
    {
      assert rows1[k] == t.rows[k];
    }
    assert RowNext(rows1[t.nextSequence], rows'[t.nextSequence]);
  }

  /** A user-made alert: settings appear if they were missing, then one row is queued. */
  lemma QueueOwnInv(t: Tables, user: UserId, row: Row, now: int)
    requires Inv(t) && RowOk(row) && Waiting(row) && row.user == user && !row.kind.Incoming?
    requires row.donation.Some? ==> row.donation.value < t.nextDonation
    ensures var t' := Trim(Append(EnsureSettings(t, user), row), user, now);
            Inv(t') && Evolves(t, t')
  {
    var t1 := t.(settings := EnsureSettings(t, user).settings);
    assert t1 == EnsureSettings(t, user);
    assert Inv(t1) by { SettingsInv(t, t1.settings); }
    QueueInv(t1, row, now, t.nextDonation);
    assert Evolves(t, Trim(Append(t1, row), user, now)) by {
      QueuesEvolve(t, Trim(Append(t1, row), user, now));
    }
  }

  lemma CreateTestInv(t: Tables, user: UserId, now: int)
    requires Inv(t)
    ensures Inv(CreateTest(t, user, now)) && Evolves(t, CreateTest(t, user, now))
  {
    var speech := EnsureSettings(t, user).settings[user].ttsEnabled;
    QueueOwnInv(t, user, NewRow(user, Test, None, true, speech, now, now + MAX_ALERT_AGE), now);
  }

  lemma ReplayInv(t: Tables, user: UserId, k: nat, now: int)
    requires Inv(t)
    ensures Inv(Replay(t, user, k, now).0) && Evolves(t, Replay(t, user, k, now).0)
  {
    if Replayable(t, user, k) {
      var speech := EnsureSettings(t, user).settings[user].ttsEnabled;
      var row := NewRow(user, Replayed, t.rows[k].donation, t.rows[k].speech, speech, now, now + MAX_ALERT_AGE);
      assert RowOk(t.rows[k]);
      QueueOwnInv(t, user, row, now);
    } else {
      UnchangedInv(t);
    }
  }

  lemma EnqueueIncomingInv(t: Tables, user: UserId, donation: nat, source: Source, occurredAt: int, speech: bool,
                           acceptedAt: int)
    requires Inv(t) && donation < t.nextDonation
    ensures var t' := EnqueueIncoming(t, user, donation, source, occurredAt, speech, acceptedAt);
            Inv(t') && Queues(t.rows, t'.rows, t.nextSequence, donation)
  {
    assert RowsOk(t) && Core(t) && forall u: UserId :: |LiveKeys(t.rows, u)| <= LIVE_BOUND;
    hide Inv, Core, RowsOk, LiveKeys, BoundBacklog;
    if user !in t.settings {
      QueuesNothing(t, donation);
    } else if Alerts(t, user, donation, source, occurredAt, acceptedAt) {
      var expiresAt := if acceptedAt <= occurredAt then acceptedAt + MAX_ALERT_AGE else occurredAt + MAX_ALERT_AGE;
      var row := NewRow(user, Incoming, Some(donation), speech, t.settings[user].ttsEnabled, acceptedAt, expiresAt);
      QueueInv(t, row, acceptedAt, donation);
    } else {
      TrimInv(t, user, acceptedAt);
    }
  }

  /** Recording a donation under a new id. */
  lemma RecordInv(t: Tables, key: DonationKey)
    requires Inv(t) && key !in t.donations
    ensures Inv(Record(t, key))
  {
    forall job | job in t.jobs ensures JobOk(Record(t, key), job) {
      assert JobOk(t, job);
    }
  }

  /** A new donation is recorded, and queued unless it comes from an initial import. */
  lemma NewDonationInv(t: Tables, key: DonationKey, d: Donation, origin: Origin, acceptedAt: int)
    requires Inv(t) && key !in t.donations
    ensures var t' := InsertDonation(t, key.user, key.source, d.(sourceId := key.sourceId), origin, acceptedAt);
            Inv(t') && Queues(t.rows, t'.rows, t.nextSequence, t.nextDonation)
  {
    assert RowsOk(t);
    hide Inv, Queues, EnqueueIncoming, RowsOk;
    RecordInv(t, key);
    if origin.InitialHistory? {
      QueuesNothing(t, t.nextDonation);
    } else {
      EnqueueIncomingInv(Record(t, key), key.user, t.nextDonation, key.source, d.occurredAt, d.speech, acceptedAt);
    }
  }

  lemma InsertDonationInv(t: Tables, user: UserId, source: Source, d: Donation, origin: Origin, acceptedAt: int)
    requires Inv(t)
    ensures var t' := InsertDonation(t, user, source, d, origin, acceptedAt);
            Inv(t') && Queues(t.rows, t'.rows, t.nextSequence, t.nextDonation)
  {
    var key := DonationKey(user, source, d.sourceId);
    assert RowsOk(t);
    hide Inv, Queues, EnqueueIncoming, RowsOk;
    if key in t.donations {
      QueuesNothing(t, t.nextDonation);
    } else {
      assert d.(sourceId := key.sourceId) == d;
      hide InsertDonation;
      NewDonationInv(t, key, d, origin, acceptedAt);
    }
  }

  /** What a batch never touches, and what only grows. */
  ghost predicate BatchFrame(t: Tables, t': Tables) {
    && t.nextSequence <= t'.nextSequence && t.nextDonation <= t'.nextDonation
    && t'.players == t.players && t'.candidates == t.candidates && t'.jobs == t.jobs
    && t'.settings == t.settings && t'.overlays == t.overlays
    && forall d | d in t.donations :: d in t'.donations && t'.donations[d] == t.donations[d]
  }

  lemma InsertDonationFrame(t: Tables, user: UserId, source: Source, d: Donation, origin: Origin, acceptedAt: int)
    ensures BatchFrame(t, InsertDonation(t, user, source, d, origin, acceptedAt))
  {
    var key := DonationKey(user, source, d.sourceId);
    EnqueueFrame(Record(t, key), user, t.nextDonation, source, d.occurredAt, d.speech, acceptedAt);
    hide EnqueueIncoming;
  }

  lemma EnqueueFrame(t: Tables, user: UserId, donation: nat, source: Source, occurredAt: int, speech: bool,
                     acceptedAt: int)
    ensures var t' := EnqueueIncoming(t, user, donation, source, occurredAt, speech, acceptedAt);
            t' == t.(rows := t'.rows, nextSequence := t'.nextSequence) && t.nextSequence <= t'.nextSequence
  {
    hide BoundBacklog, Alerts;
  }

  lemma {:induction false} InsertDonationsFrame(t: Tables, user: UserId, source: Source, ds: seq<Donation>,
                                                origin: Origin, acceptedAt: int)
    ensures BatchFrame(t, InsertDonations(t, user, source, ds, origin, acceptedAt))
    decreases |ds|
  {
    if ds != [] {
      InsertDonationFrame(t, user, source, ds[0], origin, acceptedAt);
      hide InsertDonation;
      InsertDonationsFrame(InsertDonation(t, user, source, ds[0], origin, acceptedAt), user, source, ds[1..], origin,
                           acceptedAt);
    }
  }

  lemma {:induction false} InsertDonationsQueue(t: Tables, user: UserId, source: Source, ds: seq<Donation>,
                                                origin: Origin, acceptedAt: int)
    requires Inv(t)
    ensures var t' := InsertDonations(t, user, source, ds, origin, acceptedAt);
            Inv(t') && Queues(t.rows, t'.rows, t.nextSequence, t.nextDonation)
    decreases |ds|
  {
    if ds == [] {
      QueuesNothing(t, t.nextDonation);
    } else {
      var t1 := InsertDonation(t, user, source, ds[0], origin, acceptedAt);
      InsertDonationInv(t, user, source, ds[0], origin, acceptedAt);
      InsertDonationFrame(t, user, source, ds[0], origin, acceptedAt);
      InsertDonationsQueue(t1, user, source, ds[1..], origin, acceptedAt);
      var t' := InsertDonations(t1, user, source, ds[1..], origin, acceptedAt);
      QueuesTwice(t.rows, t1.rows, t'.rows, t.nextSequence, t1.nextSequence, t.nextDonation, t1.nextDonation);
    }
  }

  lemma InsertDonationsInv(t: Tables, user: UserId, source: Source, ds: seq<Donation>, origin: Origin, acceptedAt: int)
    requires Inv(t)
    ensures Inv(InsertDonations(t, user, source, ds, origin, acceptedAt))
    ensures Evolves(t, InsertDonations(t, user, source, ds, origin, acceptedAt))
  {
    InsertDonationsFrame(t, user, source, ds, origin, acceptedAt);
    InsertDonationsQueue(t, user, source, ds, origin, acceptedAt);
    QueuesEvolve(t, InsertDonations(t, user, source, ds, origin, acceptedAt));
  }

  // ---------------------------------------------------------------------------------------------
  // Speech preparation and retention
  // ---------------------------------------------------------------------------------------------

  lemma PreparationSweep(t: Tables, now: int)
    requires RowsOk(t)
    ensures Settles(t.rows, GiveUpExhausted(ExpireAll(t.rows, now), now))
  {
    ExpireAllEnds(t, now);
    var t1 := t.(rows := ExpireAll(t.rows, now));
    GiveUpSettles(t1, now);
    EndsThenSettles(t.rows, t1.rows, GiveUpExhausted(t1.rows, now));
  }

  /** Handing a job out: older jobs of the row are superseded. */
  lemma ClaimSpeechInv(t: Tables, k: nat, now: int)
    requires Inv(t) && k in t.rows && SpeechClaimable(t.rows[k], now)
    ensures var row := ClaimSpeech(t.rows[k], now);
            Inv(t.(rows := t.rows[k := row],
                   jobs := t.jobs + {Job(k, row.user, row.preparationGeneration, row.preparationAttempts)}))
  {
    var row := ClaimSpeech(t.rows[k], now);
    var t' := t.(rows := t.rows[k := row],
                 jobs := t.jobs + {Job(k, row.user, row.preparationGeneration, row.preparationAttempts)});
    SpeechNext(t.rows[k], now);
    forall u: UserId ensures |LiveKeys(t'.rows, u)| <= LIVE_BOUND {
      assert LiveKeys(t'.rows, u) == LiveKeys(t.rows, u);
    }
    forall job | job in t'.jobs ensures JobOk(t', job) {
      if job in t.jobs {
        assert JobOk(t, job);
      }
    }
  }

  lemma HandOutInv(t: Tables, now: int)
    requires Inv(t)
    ensures Inv(HandOut(t, now).0)
  {
    var candidates := SpeechCandidates(t.rows, now);
    if candidates != {} {
      var k := Least(candidates);
      assert SpeechClaimable(t.rows[k], now);
      hide Inv, SpeechCandidates, SpeechClaimable, ClaimSpeech;
      ClaimSpeechInv(t, k, now);
    }
  }

  /** The row handed out is one the sweep left alone. */
  lemma HandOutEvolves(t: Tables, rows: map<nat, Row>, now: int)
    requires Inv(t) && Settles(t.rows, rows) && Evolves(t, t.(rows := rows))
    ensures Evolves(t, HandOut(t.(rows := rows), now).0)
  {
    var candidates := SpeechCandidates(rows, now);
    if candidates != {} {
      var k := Least(candidates);
      assert k in rows && SpeechClaimable(rows[k], now) && rows[k] == t.rows[k] && RowOk(t.rows[k]);
      SpeechNext(t.rows[k], now);
      hide Inv, Settles, RowNext, RowOk, SpeechCandidates, SpeechClaimable, ClaimSpeech;
    }
  }

  lemma ClaimPreparationInv(t: Tables, now: int)
    requires Inv(t)
    ensures Inv(ClaimPreparation(t, now).0) && Evolves(t, ClaimPreparation(t, now).0)
  {
    var rows := GiveUpExhausted(ExpireAll(t.rows, now), now);
    assert RowsOk(t);
    hide Inv, Evolves, Settles, RowsOk, GiveUpExhausted, ExpireAll, HandOut;
    PreparationSweep(t, now);
    SettledRowsInv(t, rows);
    HandOutInv(t.(rows := rows), now);
    HandOutEvolves(t, rows, now);
  }

  lemma CompletePreparationInv(t: Tables, job: Job)
    requires Inv(t)
    ensures Inv(CompletePreparation(t, job).0) && Evolves(t, CompletePreparation(t, job).0)
  {
    UnchangedInv(t);
    if Reportable(t, job) {
      SpeechNext(t.rows[job.playback], 0);
      SettledOneInv(t, job.playback, CompleteSpeech(t.rows[job.playback]));
    }
  }

  /** Changing a preparing row without handing it out. */
  lemma RetryCore(t: Tables, k: nat, r: Row)
    requires Inv(t) && k in t.rows && t.rows[k].status.Preparing?
    requires RowOk(r) && RowNext(t.rows[k], r) && !r.status.Playing?
    ensures Core(t.(rows := t.rows[k := r]))
  {
    var t' := t.(rows := t.rows[k := r]);
    forall job | job in t'.jobs ensures JobOk(t', job) {
      assert JobOk(t, job);
    }
  }

  /** Any job that was handed out may report a failure, any number of times. */
  lemma FailPreparationInv(t: Tables, job: Job, now: int)
    requires Inv(t) && job in t.jobs
    ensures Inv(FailPreparation(t, job, now).0) && Evolves(t, FailPreparation(t, job, now).0)
  {
    UnchangedInv(t);
    if Reportable(t, job) {
      var k := job.playback;
      assert JobOk(t, job);
      FailSpeechNext(t.rows[k], job.attempts, now);
      hide FailSpeech;
      var r := FailSpeech(t.rows[k], job.attempts, now);
      RetryCore(t, k, r);
      BoundedShrinks(t, t.rows[k := r]);
    }
  }

  lemma PruneRetentionInv(t: Tables, now: int)
    requires Inv(t)
    ensures Inv(PruneRetention(t, now)) && Evolves(t, PruneRetention(t, now))
  {
    var t' := PruneRetention(t, now);
    forall k | k in t'.rows ensures RowNext(t.rows[k], t'.rows[k]) {
      UntouchedNext(t.rows[k]);
    }
    forall u: UserId ensures |LiveKeys(t'.rows, u)| <= LIVE_BOUND {
      LiveShrinks(t.rows, t'.rows, u);
    }
    forall job | job in t'.jobs ensures JobOk(t', job) {
      assert JobOk(t, job);
    }
  }
}
