/**
 The alert store itself: tables updated in place, one method per transaction. Each method is proved
 against the step of the same name in AlertTables and keeps the invariant.
 */
module AlertStore {
  import opened Base
  import opened AlertRows
  import opened Newest
  import T = AlertTables
  import opened AlertInvariant
  import opened DonationOrder

  type Tables = T.Tables
  type Credentials = T.Credentials

  class Store {
    var rows: map<nat, Row>
    var players: map<UserId, T.Player>
    var overlays: map<T.TokenHash, UserId>
    var settings: map<UserId, T.Settings>
    var donations: map<T.DonationKey, nat>
    var nextSequence: nat
    var nextDonation: nat
    ghost var candidates: set<PlayerId>
    ghost var jobs: set<T.Job>

    ghost function View(): Tables
      reads this
    {
      T.Tables(rows, players, overlays, settings, donations, nextSequence, nextDonation, candidates, jobs)
    }

    ghost predicate Valid()
      reads this
    {
      Inv(View())
    }

    constructor ()
      ensures Valid() && View() == T.EMPTY
    {
      rows, players, overlays, settings, donations := map[], map[], map[], map[], map[];
      nextSequence, nextDonation := 1, 1;
      candidates, jobs := {}, {};
      new;
      forall u: UserId ensures |T.LiveKeys(rows, u)| <= LIVE_BOUND {
        assert T.LiveKeys(rows, u) == {};
      }
    }

    // -------------------------------------------------------------------------------------------
    // Settings and links
    // -------------------------------------------------------------------------------------------

    method EnsureSettings(user: UserId)
      modifies this`settings
      ensures View() == T.EnsureSettings(old(View()), user)
    {
      if user !in settings {
        settings := settings[user := T.DEFAULT_SETTINGS];
      }
    }

    method SetPaused(user: UserId, paused: bool)
      requires Valid()
      modifies this`settings
      ensures Valid() && View() == T.SetPaused(old(View()), user, paused)
    {
      ghost var t := View();
      EnsureSettings(user);
      settings := settings[user := settings[user].(paused := paused)];
      SettingsInv(t, settings);
    }

    method UpdateSettings(user: UserId, enabled: bool, ttsEnabled: bool, sources: set<T.Source>)
      requires Valid()
      modifies this`settings
      ensures Valid() && View() == T.UpdateSettings(old(View()), user, enabled, ttsEnabled, sources)
    {
      ghost var t := View();
      EnsureSettings(user);
      settings := settings[user := T.Settings(enabled, settings[user].paused, ttsEnabled, sources)];
      SettingsInv(t, settings);
    }

    method SetOverlayToken(user: UserId, token: T.TokenHash, now: int) returns (ok: bool)
      requires Valid()
      modifies this
      ensures Valid() && (View(), ok) == T.SetOverlayToken(old(View()), user, token, now)
    {
      hide Inv, Evolves, T.RecoverUser;
      SetOverlayTokenInv(View(), user, token, now);
      if token in overlays && overlays[token] != user {
        return false;
      }
      EnsureSettings(user);
      rows := T.RecoverUser(rows, user, now);
      players := players - {user};
      overlays := (map h | h in overlays && overlays[h] != user :: overlays[h])[token := user];
      ok := true;
    }

    // -------------------------------------------------------------------------------------------
    // Player leases
    // -------------------------------------------------------------------------------------------

    method OpenPlayer(token: T.TokenHash, candidate: PlayerId, now: int) returns (result: T.OpenResult)
      requires Valid() && candidate !in candidates
      modifies this
      ensures Valid() && (View(), result) == T.OpenPlayer(old(View()), token, candidate, now)
    {
      hide Inv, Evolves, T.RecoverAssigned;
      OpenPlayerInv(View(), token, candidate, now);
      candidates := candidates + {candidate};
      if token !in overlays {
        return T.InvalidToken;
      }
      var user := overlays[token];
      var generation := 1;
      if user in players {
        var current := players[user];
        if current.leaseExpiresAt > now {
          return T.Standby(current.key.generation);
        }
        rows := T.RecoverAssigned(rows, user, current.key, now);
        generation := current.key.generation + 1;
      }
      players := players[user := T.Player(PlayerKey(candidate, generation), false, false, now + PLAYER_LEASE)];
      result := T.Active(generation);
    }

    function FindPlayer(c: Credentials): (user: Option<UserId>)
      reads this
      ensures user.Some? <==> T.Current(View(), c)
      ensures user.Some? ==> user.value == overlays[c.token]
    {
      if c.token in overlays && overlays[c.token] in players && players[overlays[c.token]].key == c.key
      then Some(overlays[c.token]) else None
    }

    method Heartbeat(c: Credentials, active: bool, visible: bool, now: int) returns (ok: bool)
      requires Valid()
      modifies this`rows, this`players
      ensures Valid() && (View(), ok) == T.Heartbeat(old(View()), c, active, visible, now)
    {
      hide Inv, Evolves, T.RecoverAssigned;
      HeartbeatInv(View(), c, active, visible, now);
      var found := FindPlayer(c);
      if found.None? {
        return false;
      }
      var user := found.value;
      if players[user].leaseExpiresAt <= now {
        rows := T.RecoverAssigned(rows, user, c.key, now);
        return false;
      }
      players := players[user := T.Player(c.key, active, visible, now + PLAYER_LEASE)];
      if !active || !visible {
        rows := T.RecoverAssigned(rows, user, c.key, now);
      }
      ok := true;
    }

    method ReleasePlayer(c: Credentials, now: int)
      requires Valid()
      modifies this`rows, this`players
      ensures Valid() && View() == T.ReleasePlayer(old(View()), c, now)
    {
      hide Inv, Evolves, T.RecoverAssigned;
      ReleasePlayerInv(View(), c, now);
      var found := FindPlayer(c);
      if found.Some? {
        rows := T.RecoverAssigned(rows, found.value, c.key, now);
        players := players - {found.value};
      }
    }

    // -------------------------------------------------------------------------------------------
    // Playback
    // -------------------------------------------------------------------------------------------

    /** ORDER BY queue_sequence LIMIT 1. */
    method First(s: set<nat>) returns (k: nat)
      requires s != {}
      ensures k == Least(s)
    {
      LeastExists(s);
      k :| k in s && forall j | j in s :: k <= j;
    }

    method ClaimPlayback(c: Credentials, now: int) returns (result: T.ClaimResult)
      requires Valid()
      modifies this`rows
      ensures Valid() && (View(), result) == T.ClaimPlayback(old(View()), c, now)
    {
      hide Inv, Evolves, T.RecoverAssigned, T.RecoverTimedOut, T.ExpireUser;
      ClaimPlaybackInv(View(), c, now);
      var found := FindPlayer(c);
      if found.None? || found.value !in settings {
        return T.LeaseLost;
      }
      var user := found.value;
      if players[user].leaseExpiresAt <= now {
        rows := T.RecoverAssigned(rows, user, c.key, now);
        return T.LeaseLost;
      }
      rows := T.RecoverTimedOut(rows, user, now);
      rows := T.ExpireUser(rows, user, now);
      if !players[user].active || !players[user].visible || settings[user].paused {
        return T.NothingToPlay;
      }
      var ready := T.ClaimCandidates(rows, user, now);
      if ready == {} {
        return T.NothingToPlay;
      }
      var k := First(ready);
      rows := rows[k := Claim(rows[k], c.key)];
      result := T.Claimed(k);
    }

    method StartPlayback(c: Credentials, k: nat, now: int) returns (ok: bool)
      requires Valid()
      modifies this`rows
      ensures Valid() && (View(), ok) == T.StartPlayback(old(View()), c, k, now)
    {
      hide Inv, Evolves;
      StartPlaybackInv(View(), c, k, now);
      var found := FindPlayer(c);
      ok := found.Some? && players[found.value].leaseExpiresAt > now && k in rows
            && T.Assigned(rows[k], found.value, c.key);
      if ok {
        rows := rows[k := Start(rows[k], now)];
      }
    }

    method FinishPlayback(c: Credentials, k: nat, outcome: T.Outcome, now: int) returns (ok: bool)
      requires Valid()
      modifies this`rows
      ensures Valid() && (View(), ok) == T.FinishPlayback(old(View()), c, k, outcome, now)
    {
      hide Inv, Evolves;
      FinishPlaybackInv(View(), c, k, outcome, now);
      var found := FindPlayer(c);
      ok := found.Some? && players[found.value].leaseExpiresAt > now && k in rows
            && T.Finishable(rows[k], found.value, c.key, outcome);
      if ok {
        rows := rows[k := if outcome.FinishCompleted? then Complete(rows[k], now) else Interrupt(rows[k], now)];
      }
    }

    method StreamState(c: Credentials, now: int) returns (result: T.StreamResult)
      requires Valid()
      modifies this`rows
      ensures Valid() && (View(), result) == T.StreamState(old(View()), c, now)
    {
      hide Inv, Evolves, T.RecoverAssigned, T.RecoverTimedOut;
      StreamStateInv(View(), c, now);
      var found := FindPlayer(c);
      if found.None? || found.value !in settings {
        return T.StreamLost;
      }
      var user := found.value;
      if players[user].leaseExpiresAt <= now {
        rows := T.RecoverAssigned(rows, user, c.key, now);
        return T.StreamLost;
      }
      rows := T.RecoverTimedOut(rows, user, now);
      var mine := set k | k in rows && T.Assigned(rows[k], user, c.key);
      var playback := None;
      if mine != {} {
        var k := First(mine);
        playback := Some(k);
      }
      result := T.Streaming(settings[user].paused, playback);
    }

    // -------------------------------------------------------------------------------------------
    // Queueing
    // -------------------------------------------------------------------------------------------

    method Queue(row: Row, now: int)
      modifies this`rows, this`nextSequence
      ensures View() == T.Trim(T.Append(old(View()), row), row.user, now)
    {
      rows := rows[nextSequence := row];
      nextSequence := nextSequence + 1;
      rows := T.BoundBacklog(rows, row.user, now);
    }

    method EnqueueIncoming(user: UserId, donation: nat, source: T.Source, occurredAt: int, speech: bool,
                           acceptedAt: int)
      modifies this`rows, this`nextSequence
      ensures View() == T.EnqueueIncoming(old(View()), user, donation, source, occurredAt, speech, acceptedAt)
    {
      hide T.BoundBacklog;
      if user !in settings {
        return;
      }
      var current := settings[user];
      if && current.enabled
         && source in current.sources
         && occurredAt > acceptedAt - MAX_ALERT_AGE + 1
         && (forall k | k in rows :: rows[k].kind.Incoming? ==> rows[k].donation != Some(donation))
      {
        var expiresAt := acceptedAt + MAX_ALERT_AGE;
        if occurredAt < acceptedAt {
          expiresAt := occurredAt + MAX_ALERT_AGE;
        }
        Queue(NewRow(user, Incoming, Some(donation), speech, current.ttsEnabled, acceptedAt, expiresAt), acceptedAt);
      } else {
        rows := T.BoundBacklog(rows, user, acceptedAt);
      }
    }

    method InsertDonation(user: UserId, source: T.Source, d: T.Donation, origin: T.Origin, acceptedAt: int)
      modifies this`rows, this`nextSequence, this`donations, this`nextDonation
      ensures View() == T.InsertDonation(old(View()), user, source, d, origin, acceptedAt)
    {
      hide T.EnqueueIncoming;
      var key := T.DonationKey(user, source, d.sourceId);
      if key !in donations {
        var id := nextDonation;
        donations := donations[key := id];
        nextDonation := nextDonation + 1;
        if !origin.InitialHistory? {
          EnqueueIncoming(user, id, source, d.occurredAt, d.speech, acceptedAt);
        }
      }
    }

    method InsertDonations(user: UserId, source: T.Source, batch: seq<T.Donation>, origin: T.Origin, acceptedAt: int)
      requires Valid()
      modifies this`rows, this`nextSequence, this`donations, this`nextDonation
      ensures Valid() && View() == T.InsertDonations(old(View()), user, source, Ordered(batch), origin, acceptedAt)
    {
      hide Inv, Evolves, T.InsertDonation, Ordered;
      InsertDonationsInv(View(), user, source, Ordered(batch), origin, acceptedAt);
      var ordered := Ordered(batch);
      for i := 0 to |ordered|
        invariant T.InsertDonations(View(), user, source, ordered[i..], origin, acceptedAt)
                  == T.InsertDonations(old(View()), user, source, ordered, origin, acceptedAt)
      {
        assert ordered[i..][0] == ordered[i] && ordered[i..][1..] == ordered[i + 1..];
        InsertDonation(user, source, ordered[i], origin, acceptedAt);
      }
    }

    method CreateTest(user: UserId, now: int)
      requires Valid()
      modifies this
      ensures Valid() && View() == T.CreateTest(old(View()), user, now)
    {
      hide Inv, Evolves, T.BoundBacklog;
      CreateTestInv(View(), user, now);
      EnsureSettings(user);
      Queue(NewRow(user, Test, None, true, settings[user].ttsEnabled, now, now + MAX_ALERT_AGE), now);
    }

    method Replay(user: UserId, k: nat, now: int) returns (ok: bool)
      requires Valid()
      modifies this
      ensures Valid() && (View(), ok) == T.Replay(old(View()), user, k, now)
    {
      hide Inv, Evolves, T.BoundBacklog;
      ReplayInv(View(), user, k, now);
      ok := k in rows && rows[k].user == user && rows[k].donation.Some? && Terminal(rows[k]);
      if ok {
        var original := rows[k];
        EnsureSettings(user);
        Queue(NewRow(user, Replayed, original.donation, original.speech, settings[user].ttsEnabled,
                     now, now + MAX_ALERT_AGE), now);
      }
    }

    method Skip(user: UserId, now: int) returns (skipped: Option<nat>)
      requires Valid()
      modifies this`rows
      ensures Valid() && (View(), skipped) == T.Skip(old(View()), user, now)
    {
      hide Inv, Evolves;
      SkipInv(View(), user, now);
      var live := T.LiveKeys(rows, user);
      if user !in settings || live == {} {
        return None;
      }
      var playing := T.PlayingKeys(rows, user);
      var k := First(if playing != {} then playing else live);
      rows := rows[k := SkipRow(rows[k], now)];
      skipped := Some(k);
    }

    // -------------------------------------------------------------------------------------------
    // Speech preparation and retention
    // -------------------------------------------------------------------------------------------

    /** Expires overdue rows and gives up speech where every try is used up. */
    method SweepPreparation(now: int)
      modifies this`rows
      ensures rows == T.GiveUpExhausted(T.ExpireAll(old(rows), now), now)
    {
      hide T.ExpireAll, T.GiveUpExhausted;
      rows := T.ExpireAll(rows, now);
      rows := T.GiveUpExhausted(rows, now);
    }

    /** Hands out the oldest claimable row. */
    method HandOut(now: int) returns (job: Option<T.Job>)
      modifies this`rows, this`jobs
      ensures (View(), job) == T.HandOut(old(View()), now)
    {
      hide SpeechClaimable, ClaimSpeech;
      var ready := T.SpeechCandidates(rows, now);
      if ready == {} {
        return None;
      }
      var k := First(ready);
      var row := ClaimSpeech(rows[k], now);
      rows := rows[k := row];
      job := Some(T.Job(k, row.user, row.preparationGeneration, row.preparationAttempts));
      jobs := jobs + {job.value};
    }

    method ClaimPreparation(now: int) returns (job: Option<T.Job>)
      requires Valid()
      modifies this`rows, this`jobs
      ensures Valid() && (View(), job) == T.ClaimPreparation(old(View()), now)
    {
      hide Inv, Evolves, T.ExpireAll, T.GiveUpExhausted, T.HandOut;
      ClaimPreparationInv(View(), now);
      SweepPreparation(now);
      job := HandOut(now);
    }

    function Reportable(job: T.Job): (r: bool)
      reads this
      ensures r == T.Reportable(View(), job)
    {
      && job.playback in rows
      && rows[job.playback].user == job.user
      && rows[job.playback].preparationGeneration == job.generation
      && rows[job.playback].status.Preparing?
    }

    method CompletePreparation(job: T.Job) returns (ok: bool)
      requires Valid()
      modifies this`rows
      ensures Valid() && (View(), ok) == T.CompletePreparation(old(View()), job)
    {
      hide Inv, Evolves;
      CompletePreparationInv(View(), job);
      ok := Reportable(job);
      if ok {
        rows := rows[job.playback := CompleteSpeech(rows[job.playback])];
      }
    }

    method FailPreparation(job: T.Job, now: int) returns (ok: bool)
      requires Valid() && job in jobs
      modifies this`rows
      ensures Valid() && (View(), ok) == T.FailPreparation(old(View()), job, now)
    {
      hide Inv, Evolves;
      FailPreparationInv(View(), job, now);
      ok := Reportable(job);
      if ok {
        rows := rows[job.playback := FailSpeech(rows[job.playback], job.attempts, now)];
      }
    }

    method PruneRetention(now: int)
      requires Valid()
      modifies this`rows
      ensures Valid() && View() == T.PruneRetention(old(View()), now)
    {
      hide Inv, Evolves, T.Prunable;
      PruneRetentionInv(View(), now);
      rows := map k | k in rows && !T.Prunable(rows, k, now) :: rows[k];
    }
  }
}
