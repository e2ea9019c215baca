/**
 Whole runs of the alert store: any number of transactions of any kind, in any order, at any times.
 The main theorems speak about two arbitrary moments of one run.
 */
module AlertRuns {
  import opened Base
  import opened AlertRows
  import opened Newest
  import opened AlertTables
  import opened AlertInvariant
  import opened DonationOrder

  datatype Call =
    | EnsureCall(user: UserId)
    | PauseCall(user: UserId, paused: bool)
    | SettingsCall(user: UserId, enabled: bool, ttsEnabled: bool, sources: set<Source>)
    | TokenCall(user: UserId, token: TokenHash)
    | OpenCall(token: TokenHash, candidate: PlayerId)
    | HeartbeatCall(credentials: Credentials, active: bool, visible: bool)
    | ReleaseCall(credentials: Credentials)
    | ClaimCall(credentials: Credentials)
    | StartCall(credentials: Credentials, playback: nat)
    | FinishCall(credentials: Credentials, playback: nat, outcome: Outcome)
    | StreamCall(credentials: Credentials)
    | BatchCall(user: UserId, source: Source, donations: seq<Donation>, origin: Origin)
    | TestCall(user: UserId)
    | ReplayCall(user: UserId, playback: nat)
    | SkipCall(user: UserId)
    | SpeechClaimCall
    | SpeechDoneCall(job: Job)
    | SpeechFailedCall(job: Job)
    | PruneCall

  /** One transaction and the clock reading it was given. */
  datatype Event = Event(now: int, call: Call)

  ghost function Apply(t: Tables, e: Event): Tables {
    match e.call
    case EnsureCall(user) => EnsureSettings(t, user)
    case PauseCall(user, paused) => SetPaused(t, user, paused)
    case SettingsCall(user, enabled, ttsEnabled, sources) => UpdateSettings(t, user, enabled, ttsEnabled, sources)
    case TokenCall(user, token) => SetOverlayToken(t, user, token, e.now).0
    case OpenCall(token, candidate) => OpenPlayer(t, token, candidate, e.now).0
    case HeartbeatCall(c, active, visible) => Heartbeat(t, c, active, visible, e.now).0
    case ReleaseCall(c) => ReleasePlayer(t, c, e.now)
    case ClaimCall(c) => ClaimPlayback(t, c, e.now).0
    case StartCall(c, k) => StartPlayback(t, c, k, e.now).0
    case FinishCall(c, k, outcome) => FinishPlayback(t, c, k, outcome, e.now).0
    case StreamCall(c) => StreamState(t, c, e.now).0
    case BatchCall(user, source, ds, origin) => InsertDonations(t, user, source, Ordered(ds), origin, e.now)
    case TestCall(user) => CreateTest(t, user, e.now)
    case ReplayCall(user, k) => Replay(t, user, k, e.now).0
    case SkipCall(user) => Skip(t, user, e.now).0
    case SpeechClaimCall => ClaimPreparation(t, e.now).0
    case SpeechDoneCall(job) => CompletePreparation(t, job).0
    case SpeechFailedCall(job) => FailPreparation(t, job, e.now).0
    case PruneCall => PruneRetention(t, e.now)
  }

  /** Player ids are random and never repeat; a worker reports failures only of jobs that were handed out. */
  ghost predicate Allowed(t: Tables, e: Event) {
    match e.call
    case OpenCall(_, candidate) => candidate !in t.candidates
    case SpeechFailedCall(job) => job in t.jobs
    case _ => true
  }

  ghost predicate Run(ts: seq<Tables>, es: seq<Event>) {
    && |ts| == |es| + 1
    && ts[0] == EMPTY
    && forall i | 0 <= i < |es| :: Allowed(ts[i], es[i]) && ts[i + 1] == Apply(ts[i], es[i])
  }

  lemma SettingsStepInv(t: Tables, e: Event)
    requires Inv(t)
    requires e.call.EnsureCall? || e.call.PauseCall? || e.call.SettingsCall? || e.call.TokenCall?
    ensures Inv(Apply(t, e)) && Evolves(t, Apply(t, e))
  {
    hide Inv, Evolves;
    if e.call.TokenCall? {
      SetOverlayTokenInv(t, e.call.user, e.call.token, e.now);
    } else {
      SettingsInv(t, Apply(t, e).settings);
    }
  }

  lemma LeaseStepInv(t: Tables, e: Event)
    requires Inv(t) && Allowed(t, e)
    requires e.call.OpenCall? || e.call.HeartbeatCall? || e.call.ReleaseCall? || e.call.StreamCall?
    ensures Inv(Apply(t, e)) && Evolves(t, Apply(t, e))
  {
    hide Inv, Evolves;
    match e.call
    case OpenCall(token, candidate) => OpenPlayerInv(t, token, candidate, e.now);
    case HeartbeatCall(c, active, visible) => HeartbeatInv(t, c, active, visible, e.now);
    case ReleaseCall(c) => ReleasePlayerInv(t, c, e.now);
    case StreamCall(c) => StreamStateInv(t, c, e.now);
  }

  lemma PlaybackStepInv(t: Tables, e: Event)
    requires Inv(t)
    requires e.call.ClaimCall? || e.call.StartCall? || e.call.FinishCall? || e.call.SkipCall?
    ensures Inv(Apply(t, e)) && Evolves(t, Apply(t, e))
  {
    hide Inv, Evolves;
    match e.call
    case ClaimCall(c) => ClaimPlaybackInv(t, c, e.now);
    case StartCall(c, k) => StartPlaybackInv(t, c, k, e.now);
    case FinishCall(c, k, outcome) => FinishPlaybackInv(t, c, k, outcome, e.now);
    case SkipCall(user) => SkipInv(t, user, e.now);
  }

  lemma QueueStepInv(t: Tables, e: Event)
    requires Inv(t)
    requires e.call.BatchCall? || e.call.TestCall? || e.call.ReplayCall? || e.call.PruneCall?
    ensures Inv(Apply(t, e)) && Evolves(t, Apply(t, e))
  {
    hide Inv, Evolves;
    match e.call
    case BatchCall(user, source, ds, origin) => InsertDonationsInv(t, user, source, Ordered(ds), origin, e.now);
    case TestCall(user) => CreateTestInv(t, user, e.now);
    case ReplayCall(user, k) => ReplayInv(t, user, k, e.now);
    case PruneCall => PruneRetentionInv(t, e.now);
  }

  lemma SpeechStepInv(t: Tables, e: Event)
    requires Inv(t) && Allowed(t, e)
    requires e.call.SpeechClaimCall? || e.call.SpeechDoneCall? || e.call.SpeechFailedCall?
    ensures Inv(Apply(t, e)) && Evolves(t, Apply(t, e))
  {
    hide Inv, Evolves;
    match e.call
    case SpeechClaimCall => ClaimPreparationInv(t, e.now);
    case SpeechDoneCall(job) => CompletePreparationInv(t, job);
    case SpeechFailedCall(job) => FailPreparationInv(t, job, e.now);
  }

  /** Every transaction keeps the invariant and obeys the two-state law. */
  lemma StepInv(t: Tables, e: Event)
    requires Inv(t) && Allowed(t, e)
    ensures Inv(Apply(t, e)) && Evolves(t, Apply(t, e))
  {
    hide Inv, Evolves, Apply;
    var c := e.call;
    if c.EnsureCall? || c.PauseCall? || c.SettingsCall? || c.TokenCall? {
      SettingsStepInv(t, e);
    } else if c.OpenCall? || c.HeartbeatCall? || c.ReleaseCall? || c.StreamCall? {
      LeaseStepInv(t, e);
    } else if c.ClaimCall? || c.StartCall? || c.FinishCall? || c.SkipCall? {
      PlaybackStepInv(t, e);
    } else if c.BatchCall? || c.TestCall? || c.ReplayCall? || c.PruneCall? {
      QueueStepInv(t, e);
    } else {
      SpeechStepInv(t, e);
    }
  }

  /** The invariant holds at every moment of every run. */
  lemma {:induction false} RunInv(ts: seq<Tables>, es: seq<Event>, i: nat)
    requires Run(ts, es) && i < |ts|
    ensures Inv(ts[i])
    ensures i < |es| ==> Evolves(ts[i], ts[i + 1])
  {
    if i == 0 {
      forall u: UserId ensures |LiveKeys(EMPTY.rows, u)| <= LIVE_BOUND {
        assert LiveKeys(EMPTY.rows, u) == {};
      }
    } else {
      RunInv(ts, es, i - 1);
      StepInv(ts[i - 1], es[i - 1]);
    }
    if i < |es| {
      StepInv(ts[i], es[i]);
    }
  }

  // ---------------------------------------------------------------------------------------------
  // Rows over time
  // ---------------------------------------------------------------------------------------------

  ghost predicate Kept(r: Row, r': Row) {
    && r'.user == r.user && r'.kind == r.kind && r'.donation == r.donation
    && (Terminal(r) ==> r' == r)
    && (r.startedAt.Some? ==> r'.startedAt == r.startedAt && r'.player == r.player && !Waiting(r'))
    && r.preparationGeneration <= r'.preparationGeneration
  }

  /** Sequences are not reused: a row seen later was already there, and all it lost is its future. */
  lemma {:induction false} RowKept(ts: seq<Tables>, es: seq<Event>, i: nat, j: nat, k: nat)
    requires Run(ts, es) && i <= j < |ts|
    requires k in ts[j].rows && k < ts[i].nextSequence
    ensures k in ts[i].rows && Kept(ts[i].rows[k], ts[j].rows[k])
    ensures ts[i].nextSequence <= ts[j].nextSequence && ts[i].nextDonation <= ts[j].nextDonation
    decreases j - i
  {
    RunInv(ts, es, i);
    if i < j {
      RowKept(ts, es, i + 1, j, k);
    }
  }

  lemma {:induction false} CountersGrow(ts: seq<Tables>, es: seq<Event>, i: nat, j: nat)
    requires Run(ts, es) && i <= j < |ts|
    ensures ts[i].nextSequence <= ts[j].nextSequence && ts[i].nextDonation <= ts[j].nextDonation
    ensures ts[i].candidates <= ts[j].candidates
    ensures forall d | d in ts[i].donations :: d in ts[j].donations && ts[j].donations[d] == ts[i].donations[d]
    decreases j - i
  {
    if i < j {
      RunInv(ts, es, i);
      CountersGrow(ts, es, i + 1, j);
    }
  }

  /**
   FIFO. Once a playback has been claimed, every playback of that user queued before it is finished
   from then on, whatever recoveries, retries, skips, trims or prunes follow.
   */
  lemma ClaimedPassesForGood(ts: seq<Tables>, es: seq<Event>, i: nat, j: nat, k: nat, earlier: nat)
    requires Run(ts, es) && i <= j < |ts|
    requires k in ts[i].rows && ts[i].rows[k].status.Playing?
    requires earlier in ts[j].rows && earlier < k && ts[j].rows[earlier].user == ts[i].rows[k].user
    ensures Terminal(ts[j].rows[earlier])
  {
    RunInv(ts, es, i);
    RowKept(ts, es, i, j, earlier);
    assert PassedBy(ts[i].rows, ts[i].rows[k].user, k);
  }

  /** The transaction after moment `i` is the first to record a start of playback `k`. */
  ghost predicate FirstStart(ts: seq<Tables>, i: nat, k: nat) {
    && i + 1 < |ts|
    && k in ts[i].rows && ts[i].rows[k].startedAt.None?
    && k in ts[i + 1].rows && ts[i + 1].rows[k].startedAt.Some?
  }

  /** First starts of one user happen in strictly increasing queue order. */
  lemma StartsInQueueOrder(ts: seq<Tables>, es: seq<Event>, i: nat, j: nat, p: nat, q: nat)
    requires Run(ts, es) && i < j
    requires FirstStart(ts, i, p) && FirstStart(ts, j, q)
    requires ts[i].rows[p].user == ts[j].rows[q].user
    ensures p < q
  {
    RunInv(ts, es, i);
    RunInv(ts, es, j);
    assert ts[i].rows[p].status.Playing? && ts[j].rows[q].status.Playing?;
    if q < p {
      ClaimedPassesForGood(ts, es, i, j, p, q);
    } else if q == p {
      RowKept(ts, es, i + 1, j, p);
    }
  }

  /** No start is recorded without a claim, and no row appears already started. */
  lemma StartedWasPlaying(ts: seq<Tables>, es: seq<Event>, i: nat, k: nat)
    requires Run(ts, es) && i + 1 < |ts|
    requires k in ts[i + 1].rows && ts[i + 1].rows[k].startedAt.Some?
    requires k in ts[i].rows ==> ts[i].rows[k].startedAt.None?
    ensures FirstStart(ts, i, k) && ts[i].rows[k].status.Playing?
  {
    RunInv(ts, es, i);
    assert k in ts[i].rows || Fresh(ts[i], k, ts[i + 1].rows[k]);
  }

  /** At every moment a user has at most one playing row, held by exactly the current player. */
  lemma OnePlayingAndHeld(ts: seq<Tables>, es: seq<Event>, i: nat, k: nat, other: nat)
    requires Run(ts, es) && i < |ts|
    requires k in ts[i].rows && ts[i].rows[k].status.Playing?
    requires other in ts[i].rows && ts[i].rows[other].status.Playing?
    ensures ts[i].rows[k].user in ts[i].players
    ensures ts[i].rows[k].player == Some(ts[i].players[ts[i].rows[k].user].key)
    ensures ts[i].rows[other].user == ts[i].rows[k].user ==> other == k
  {
    RunInv(ts, es, i);
    assert PassedBy(ts[i].rows, ts[i].rows[k].user, k);
    assert PassedBy(ts[i].rows, ts[i].rows[other].user, other);
  }

  /**
   Never rendered twice. A started row keeps its start time and its player for good and is never
   queued again; a finished row is never written again.
   */
  lemma StartedForGood(ts: seq<Tables>, es: seq<Event>, i: nat, j: nat, k: nat)
    requires Run(ts, es) && i <= j < |ts| && k in ts[i].rows && k in ts[j].rows
    ensures ts[i].rows[k].startedAt.Some? ==>
              && ts[j].rows[k].startedAt == ts[i].rows[k].startedAt
              && ts[j].rows[k].player == ts[i].rows[k].player
              && !Waiting(ts[j].rows[k])
    ensures Terminal(ts[i].rows[k]) ==> ts[j].rows[k] == ts[i].rows[k]
    ensures ts[j].rows[k].status.Completed? || ts[j].rows[k].status.Interrupted? ==> ts[j].rows[k].startedAt.Some?
    ensures ts[j].rows[k].status.Expired? ==> ts[j].rows[k].startedAt.None?
  {
    RunInv(ts, es, i);
    RunInv(ts, es, j);
    RowKept(ts, es, i, j, k);
  }

  /** A deleted playback was finished when it went, and its sequence number stays unused. */
  lemma {:induction false} DeletedForGood(ts: seq<Tables>, es: seq<Event>, i: nat, j: nat, k: nat) returns (m: nat)
    requires Run(ts, es) && i <= j < |ts| && k in ts[i].rows && k !in ts[j].rows
    ensures i <= m < j && k in ts[m].rows && Terminal(ts[m].rows[k])
    ensures forall n | m < n <= j :: k !in ts[n].rows
    decreases j
  {
    hide Apply;
    if k in ts[j - 1].rows {
      m := j - 1;
      RunInv(ts, es, j - 1);
    } else {
      m := DeletedForGood(ts, es, i, j - 1, k);
    }
  }

  // ---------------------------------------------------------------------------------------------
  // Acknowledgements
  // ---------------------------------------------------------------------------------------------

  /** Finishing a row that is finished already writes back what it holds. */
  lemma FinishOfFinished(r: Row, outcome: Outcome, now: int)
    requires RowOk(r) && Terminal(r)
    requires if outcome.FinishCompleted? then r.status.Completed? else r.status.Interrupted?
    ensures Finish(r, outcome, now) == r
  {}

  /**
   A finish acknowledgement repeated before anything else happens changes nothing, whatever the clock
   says, and neither does the opposite one after a started playback; a repetition for a started playback
   is accepted under a live lease.
   */
  lemma FinishIsIdempotent(t: Tables, c: Credentials, k: nat, first: Outcome, now: int, second: Outcome, again: int)
    requires Inv(t) && FinishPlayback(t, c, k, first, now).1
    requires second == first || t.rows[k].startedAt.Some?
    ensures var t' := FinishPlayback(t, c, k, first, now).0;
            && FinishPlayback(t', c, k, second, again).0 == t'
            && (t.rows[k].startedAt.Some? ==> Terminal(t'.rows[k]))
            && (t.rows[k].startedAt.Some? && second == first && CurrentLease(t', c, again) ==>
                  FinishPlayback(t', c, k, second, again).1)
  {
    var t' := FinishPlayback(t, c, k, first, now).0;
    assert RowOk(t'.rows[k]) by {
      if first.FinishCompleted? {
        CompleteNext(t.rows[k], now);
      } else {
        InterruptNext(t.rows[k], now);
      }
    }
    if FinishPlayback(t', c, k, second, again).1 {
      FinishOfFinished(t'.rows[k], second, again);
      assert t'.rows[k := t'.rows[k]] == t'.rows;
    }
  }

  /** The guard of the branches that end the row: it has started, or it may not be played any more. */
  predicate Final(r: Row, now: int) {
    r.startedAt.Some? || r.expiresAt <= now
  }

  /** What an accepted acknowledgement does to its row. */
  lemma FinishEffect(t: Tables, c: Credentials, k: nat, outcome: Outcome, now: int)
    requires Inv(t) && FinishPlayback(t, c, k, outcome, now).1
    ensures var r, r' := t.rows[k], FinishPlayback(t, c, k, outcome, now).0.rows[k];
            && (Final(r, now) ==> Terminal(r'))
            && (r.startedAt.Some? ==>
                  && (if outcome.FinishCompleted? then r'.status.Completed? else r'.status.Interrupted?)
                  && r'.user == r.user && r'.player == r.player && r'.startedAt == r.startedAt)
            && (!Final(r, now) ==>
                  && outcome.FinishInterrupted? && r.status.Playing?
                  && r' == r.(status := Pending, finishedAt := None, player := None, lastError := None))
  {}

  /** No acknowledgement changes a finished row. */
  lemma FinishOfTerminal(t: Tables, c: Credentials, k: nat, outcome: Outcome, now: int)
    requires Inv(t) && (k in t.rows ==> Terminal(t.rows[k]))
    ensures FinishPlayback(t, c, k, outcome, now).0 == t
  {
    if FinishPlayback(t, c, k, outcome, now).1 {
      FinishOfFinished(t.rows[k], outcome, now);
      assert t.rows[k := t.rows[k]] == t.rows;
    }
  }

  /**
   Over runs: once an acknowledgement has finished its playback, repeating it at any later moment, or
   sending the opposite one, changes nothing, whatever happens in between. For a started playback the
   repetition is accepted as long as the row is there and the lease is live.
   */
  lemma FinishStaysFinal(ts: seq<Tables>, es: seq<Event>, i: nat, j: nat, c: Credentials, k: nat, first: Outcome,
                         second: Outcome, again: int)
    requires Run(ts, es) && i < j < |ts| && es[i].call == FinishCall(c, k, first)
    requires FinishPlayback(ts[i], c, k, first, es[i].now).1 && Final(ts[i].rows[k], es[i].now)
    ensures FinishPlayback(ts[j], c, k, second, again).0 == ts[j]
    ensures ts[i].rows[k].startedAt.Some? && second == first && k in ts[j].rows && CurrentLease(ts[j], c, again) ==>
              FinishPlayback(ts[j], c, k, second, again).1
  {
    var n := i + 1;
    assert ts[n] == FinishPlayback(ts[i], c, k, first, es[i].now).0;
    hide Apply, Inv;
    RunInv(ts, es, i);
    RunInv(ts, es, j);
    FinishEffect(ts[i], c, k, first, es[i].now);
    assert Current(ts[i], c) && ts[i].rows[k].user == ts[i].overlays[c.token] && ts[i].rows[k].player == Some(c.key);
    if k in ts[j].rows {
      assert k in ts[n].rows;
      StartedForGood(ts, es, n, j, k);
      if Current(ts[j], c) {
        SenderStays(ts, es, i, j, c);
      }
    }
    FinishOfTerminal(ts[j], c, k, second, again);
  }

  /** Credentials that are current at two moments belong to the same user. */
  lemma SenderStays(ts: seq<Tables>, es: seq<Event>, i: nat, j: nat, c: Credentials)
    requires Run(ts, es) && i <= j < |ts| && Current(ts[i], c) && Current(ts[j], c)
    ensures ts[j].overlays[c.token] == ts[i].overlays[c.token]
  {
    hide Apply;
    assert PlayersOk(ts[i]) by { RunInv(ts, es, i); }
    KeyStays(ts, es, i, j, ts[j].overlays[c.token], c.key);
  }

  lemma {:induction false} KeyStays(ts: seq<Tables>, es: seq<Event>, i: nat, j: nat, user: UserId, key: PlayerKey)
    requires Run(ts, es) && i <= j < |ts| && key.id in ts[i].candidates
    requires user in ts[j].players && ts[j].players[user].key == key
    ensures user in ts[i].players && ts[i].players[user].key == key
    decreases j
  {
    hide Apply;
    if i < j {
      CountersGrow(ts, es, i, j - 1);
      RunInv(ts, es, j - 1);
      WasCurrent(ts[j - 1], ts[j], user, key);
      KeyStays(ts, es, i, j - 1, user, key);
    }
  }

  lemma Extend(ts: seq<Tables>, es: seq<Event>, e: Event) returns (us: seq<Tables>, vs: seq<Event>)
    requires Run(ts, es) && Allowed(ts[|es|], e)
    ensures Run(us, vs) && |vs| == |es| + 1 && us[|vs|] == Apply(ts[|es|], e)
    ensures ts <= us && es <= vs && vs[|es|] == e
    ensures Paced(vs, |es|, e.now, e.now)
  {
    us, vs := ts + [Apply(ts[|es|], e)], es + [e];
  }

  /** From transaction n on the clock does not go back, and it stays between the two moments. */
  ghost predicate Paced(es: seq<Event>, n: nat, from: int, until: int) {
    && n <= |es| && from <= until
    && (forall i | n <= i < |es| :: from <= es[i].now <= until)
    && (forall i, j | n <= i <= j < |es| :: es[i].now <= es[j].now)
  }

  lemma PacedJoin(es: seq<Event>, vs: seq<Event>, n: nat, from: int, mid: int, until: int)
    requires es <= vs && Paced(es, n, from, mid) && Paced(vs, |es|, mid, until)
    ensures Paced(vs, n, from, until)
  {
    assert forall i | 0 <= i < |es| :: vs[i] == es[i];
  }

  /** The state differs in the player rows and in the settings at most. */
  predicate SameQueue(t: Tables, t': Tables) {
    t'.rows == t.rows && t'.overlays == t.overlays && t'.settings == t.settings
  }

  /** A player with a lease can keep it for as long as it likes. */
  lemma {:induction false} KeepAlive(ts: seq<Tables>, es: seq<Event>, c: Credentials, from: int, until: int)
    returns (us: seq<Tables>, vs: seq<Event>)
    requires Run(ts, es) && CurrentLease(ts[|es|], c, from) && from <= until
    ensures Run(us, vs) && ts <= us && es <= vs && SameQueue(ts[|es|], us[|vs|]) && CurrentLease(us[|vs|], c, until)
    ensures var p := us[|vs|].players[us[|vs|].overlays[c.token]]; p.active && p.visible
    ensures Paced(vs, |es|, from, until)
    decreases var left := until - ts[|es|].players[ts[|es|].overlays[c.token]].leaseExpiresAt;
              if left < 0 then 0 else left + 1
  {
    var t := ts[|es|];
    var lease := t.players[t.overlays[c.token]].leaseExpiresAt;
    var now := if lease <= until then lease - 1 else until;
    us, vs := Extend(ts, es, Event(now, HeartbeatCall(c, true, true)));
    var t' := us[|vs|];
    assert SameQueue(t, t') && CurrentLease(t', c, now);
    if t'.players[t'.overlays[c.token]].leaseExpiresAt <= until {
      ghost var ws := vs;
      us, vs := KeepAlive(us, vs, c, now, until);
      PacedJoin(ws, vs, |es|, from, now, until);
    }
  }

  /** A pending, unexpired row of the credentials' user heads the queue, and nothing of that user plays. */
  ghost predicate HeadsQueue(t: Tables, c: Credentials, k: nat) {
    && c.token in t.overlays && k in t.rows
    && var user := t.overlays[c.token];
       && t.rows[k].user == user && t.rows[k].status.Pending? && t.rows[k].startedAt.None?
       && t.rows[k].availableAt < t.rows[k].expiresAt
       && PassedBy(t.rows, user, k) && PlayingKeys(t.rows, user) == {}
  }

  predicate Ready(t: Tables, c: Credentials, now: int) {
    && CurrentLease(t, c, now)
    && var user := t.overlays[c.token];
       user in t.settings && !t.settings[user].paused && t.players[user].active && t.players[user].visible
  }

  lemma ClaimedHead(t: Tables, c: Credentials, now: int, k: nat)
    requires Inv(t) && Ready(t, c, now) && HeadsQueue(t, c, k)
    requires t.rows[k].availableAt <= now < t.rows[k].expiresAt
    ensures var t' := ClaimPlayback(t, c, now).0;
            && t'.overlays == t.overlays && t'.players == t.players
            && k in t'.rows && t'.rows[k] == Claim(t.rows[k], c.key)
  {
    var user := t.overlays[c.token];
    assert Head(t, user, now, k) by {
      forall j | j in t.rows && t.rows[j].user == user && Waiting(t.rows[j]) ensures k <= j {}
    }
    assert forall j | j in t.rows && t.rows[j].user == user :: j !in PlayingKeys(t.rows, user);
    ClaimTakesTheHead(t, c, now, k);
    hide Inv, Head, PassedBy, TimedOut;
    ClaimSweepEffect(t, user, now);
    hide ExpireUser, RecoverTimedOut, ClaimCandidates;
  }

  /** A ready player takes the head of the queue, and may give it up again. */
  lemma HeadIsTaken(t: Tables, c: Credentials, now: int, k: nat)
    requires Inv(t) && Ready(t, c, now) && HeadsQueue(t, c, k)
    requires t.rows[k].availableAt <= now < t.rows[k].expiresAt
    ensures var t' := ClaimPlayback(t, c, now).0;
            && FinishPlayback(t', c, k, FinishInterrupted, now).1
            && FinishPlayback(t', c, k, FinishInterrupted, now).0 != t'
            && k in t'.rows && !Final(t'.rows[k], now)
  {
    ClaimedHead(t, c, now, k);
    var t' := ClaimPlayback(t, c, now).0;
    hide ClaimPlayback, Inv, PassedBy, PlayingKeys;
    assert FinishPlayback(t', c, k, FinishInterrupted, now).0.rows[k].status.Pending?;
  }

  /** After an acknowledgement that does not finish its playback the row heads its user's queue. */
  lemma ReturnedIsHead(t: Tables, c: Credentials, k: nat, outcome: Outcome, now: int)
    requires Inv(t) && FinishPlayback(t, c, k, outcome, now).1 && !Final(t.rows[k], now)
    ensures outcome.FinishInterrupted?
    ensures var t' := FinishPlayback(t, c, k, outcome, now).0;
            && HeadsQueue(t', c, k) && now < t'.rows[k].expiresAt
            && CurrentLease(t', c, now) && t'.overlays[c.token] in t'.settings
  {
    var user := t.overlays[c.token];
    var t' := FinishPlayback(t, c, k, outcome, now).0;
    FinishEffect(t, c, k, outcome, now);
    assert forall j | j in t.rows && t.rows[j].status.Playing? :: PassedBy(t.rows, t.rows[j].user, j);
    forall j | j in t'.rows && t'.rows[j].user == user ensures !t'.rows[j].status.Playing? {}
  }

  /** From `now` on the current player resumes and keeps its lease; the queue stays as it is. */
  lemma KeepReady(ts: seq<Tables>, es: seq<Event>, c: Credentials, now: int, until: int)
    returns (us: seq<Tables>, vs: seq<Event>)
    requires Run(ts, es) && CurrentLease(ts[|es|], c, now) && now <= until
    requires ts[|es|].overlays[c.token] in ts[|es|].settings
    ensures Run(us, vs) && ts <= us && es <= vs && |vs| < |us| && Paced(vs, |es|, now, until)
    ensures Ready(us[|vs|], c, until) && us[|vs|].rows == ts[|es|].rows && us[|vs|].overlays == ts[|es|].overlays
  {
    var t, user := ts[|es|], ts[|es|].overlays[c.token];
    us, vs := Extend(ts, es, Event(now, PauseCall(user, false)));
    var t1 := us[|vs|];
    assert t1 == t.(settings := t1.settings) && user in t1.settings && !t1.settings[user].paused;
    ghost var resumed := vs;
    hide Apply;
    us, vs := KeepAlive(us, vs, c, now, until);
    PacedJoin(resumed, vs, |es|, now, now, until);
  }

  /** And then it takes the head of the queue. */
  lemma TakeHead(ts: seq<Tables>, es: seq<Event>, c: Credentials, k: nat, now: int)
    returns (us: seq<Tables>, vs: seq<Event>, again: int)
    requires Run(ts, es) && HeadsQueue(ts[|es|], c, k) && CurrentLease(ts[|es|], c, now)
    requires ts[|es|].overlays[c.token] in ts[|es|].settings && now < ts[|es|].rows[k].expiresAt
    ensures Run(us, vs) && ts <= us && es <= vs && |vs| < |us| && Paced(vs, |es|, now, again)
    ensures FinishPlayback(us[|vs|], c, k, FinishInterrupted, again).1
    ensures FinishPlayback(us[|vs|], c, k, FinishInterrupted, again).0 != us[|vs|]
    ensures k in us[|vs|].rows && !Final(us[|vs|].rows[k], again)
  {
    var t := ts[|es|];
    again := if now < t.rows[k].availableAt then t.rows[k].availableAt else now;
    hide PassedBy, PlayingKeys, FinishPlayback, Ready, Paced, Inv;
    us, vs := KeepReady(ts, es, c, now, again);
    assert HeadsQueue(us[|vs|], c, k);
    RunInv(us, vs, |vs|);
    HeadIsTaken(us[|vs|], c, again, k);
    hide HeadsQueue;
    ghost var kept := vs;
    us, vs := Extend(us, vs, Event(again, ClaimCall(c)));
    PacedJoin(kept, vs, |es|, now, again, again);
  }

  /**
   An accepted acknowledgement that does not finish its playback returns it to the queue. From then on, and
   with a clock that does not go back, the same player can claim it again, and then the repeated
   acknowledgement takes it away once more.
   */
  lemma OpenFinishIsRepeatable(ts: seq<Tables>, es: seq<Event>, c: Credentials, k: nat, first: Outcome)
    returns (us: seq<Tables>, vs: seq<Event>, again: int)
    requires Run(ts, es) && es != [] && es[|es| - 1].call == FinishCall(c, k, first)
    requires FinishPlayback(ts[|es| - 1], c, k, first, es[|es| - 1].now).1
    requires !Final(ts[|es| - 1].rows[k], es[|es| - 1].now)
    ensures Run(us, vs) && ts <= us && es <= vs && |vs| < |us| && Paced(vs, |es|, es[|es| - 1].now, again)
    ensures FinishPlayback(us[|vs|], c, k, first, again).1 && FinishPlayback(us[|vs|], c, k, first, again).0 != us[|vs|]
  {
    var i := |es| - 1;
    assert ts[|es|] == FinishPlayback(ts[i], c, k, first, es[i].now).0;
    RunInv(ts, es, i);
    hide Inv, FinishPlayback, HeadsQueue, Apply;
    ReturnedIsHead(ts[i], c, k, first, es[i].now);
    us, vs, again := TakeHead(ts, es, c, k, es[i].now);
  }

  // One player of user 0, in front of a test alert.
  const PAGE := Credentials(0, PlayerKey(7, 1))
  const ALERT := NewRow(0, Test, None, true, false, 0, MAX_ALERT_AGE)
  const LINKED := EMPTY.(settings := map[0 := DEFAULT_SETTINGS], overlays := map[0 := 0])
  const OPENED := LINKED.(players := map[0 := Player(PAGE.key, false, false, PLAYER_LEASE)], candidates := {7})
  const VISIBLE := OPENED.(players := map[0 := Player(PAGE.key, true, true, PLAYER_LEASE)])
  const QUEUED := VISIBLE.(rows := map[1 := ALERT], nextSequence := 2)

  lemma PageOpens()
    ensures Apply(EMPTY, Event(0, TokenCall(0, 0))) == LINKED
    ensures Apply(LINKED, Event(0, OpenCall(0, 7))) == OPENED
    ensures Apply(OPENED, Event(0, HeartbeatCall(PAGE, true, true))) == VISIBLE
  {
    assert RecoverUser(EMPTY.rows, 0, 0) == map[];
  }

  lemma AlertQueues()
    ensures Apply(VISIBLE, Event(0, TestCall(0))) == QUEUED
  {
    assert Append(VISIBLE, ALERT) == QUEUED;
    assert WaitingKeys(QUEUED.rows, 0) == {1};
    TrimDropsOldest(QUEUED, 0, 0, 1, 1);
    assert Trim(QUEUED, 0, 0) == QUEUED;
  }

  lemma AlertIsQueued() returns (ts: seq<Tables>, es: seq<Event>)
    ensures Run(ts, es) && ts[|es|] == QUEUED && Paced(es, 0, 0, 0)
  {
    PageOpens();
    AlertQueues();
    ts, es := [EMPTY], [];
    hide Apply;
    ts, es := Extend(ts, es, Event(0, TokenCall(0, 0)));
    ts, es := Extend(ts, es, Event(0, OpenCall(0, 7)));
    ts, es := Extend(ts, es, Event(0, HeartbeatCall(PAGE, true, true)));
    ts, es := Extend(ts, es, Event(0, TestCall(0)));
  }

  /** A run in which a player is told twice that its unstarted playback was interrupted, and both count. Its
      clock starts at 0 and does not go back. */
  lemma InterruptedTwice() returns (ts: seq<Tables>, es: seq<Event>, i: nat, again: int)
    ensures Run(ts, es) && i < |es| && |es| < |ts| && Paced(es, 0, 0, again)
    ensures es[i].call == FinishCall(PAGE, 1, FinishInterrupted)
    ensures FinishPlayback(ts[i], PAGE, 1, FinishInterrupted, es[i].now).1 && ts[i].rows[1].startedAt.None?
    ensures FinishPlayback(ts[|es|], PAGE, 1, FinishInterrupted, again).1
    ensures FinishPlayback(ts[|es|], PAGE, 1, FinishInterrupted, again).0 != ts[|es|]
  {
    ts, es := AlertIsQueued();
    ghost var queued := es;
    assert HeadsQueue(QUEUED, PAGE, 1) && CurrentLease(QUEUED, PAGE, 0) && 0 in QUEUED.settings;
    hide HeadsQueue, FinishPlayback, Apply, Paced;
    var now;
    ts, es, now := TakeHead(ts, es, PAGE, 1, 0);
    PacedJoin(queued, es, 0, 0, 0, now);
    i := |es|;
    ghost var taken := es;
    ts, es := Extend(ts, es, Event(now, FinishCall(PAGE, 1, FinishInterrupted)));
    PacedJoin(taken, es, 0, 0, now, now);
    ghost var acknowledged := es;
    ts, es, again := OpenFinishIsRepeatable(ts, es, PAGE, 1, FinishInterrupted);
    PacedJoin(acknowledged, es, 0, 0, now, again);
  }

  /** In every continuation of the run whose clock does not go back, repeating the last acknowledgement at
      the end changes nothing. */
  ghost predicate StaysIdle(ts: seq<Tables>, es: seq<Event>, c: Credentials, k: nat, outcome: Outcome) {
    es != [] &&
    forall us, vs, again | Run(us, vs) && ts <= us && es <= vs && Paced(vs, |es|, es[|es| - 1].now, again) ::
      FinishPlayback(us[|vs|], c, k, outcome, again).0 == us[|vs|]
  }

  /** Repeating an accepted acknowledgement is idle for good if and only if its playback had started or
      may not be played any more when it was acknowledged. */
  lemma FinishIsIdleIff(ts: seq<Tables>, es: seq<Event>, c: Credentials, k: nat, outcome: Outcome)
    requires Run(ts, es) && es != [] && es[|es| - 1].call == FinishCall(c, k, outcome)
    requires FinishPlayback(ts[|es| - 1], c, k, outcome, es[|es| - 1].now).1
    ensures StaysIdle(ts, es, c, k, outcome) <==> Final(ts[|es| - 1].rows[k], es[|es| - 1].now)
  {
    var i := |es| - 1;
    if Final(ts[i].rows[k], es[i].now) {
      forall us, vs, again | Run(us, vs) && ts <= us && es <= vs && Paced(vs, |es|, es[i].now, again)
        ensures FinishPlayback(us[|vs|], c, k, outcome, again).0 == us[|vs|]
      {
        assert us[i] == ts[i] && vs[i] == es[i];
        FinishStaysFinal(us, vs, i, |vs|, c, k, outcome, outcome, again);
      }
    } else {
      var us, vs, again := OpenFinishIsRepeatable(ts, es, c, k, outcome);
      assert FinishPlayback(us[|vs|], c, k, outcome, again).0 != us[|vs|];
    }
  }

  /** A repeated start acknowledgement keeps the first start time. */
  lemma StartIsIdempotent(t: Tables, c: Credentials, k: nat, now: int, again: int)
    requires StartPlayback(t, c, k, now).1
    ensures var t' := StartPlayback(t, c, k, now).0;
            && StartPlayback(t', c, k, again).0 == t'
            && t'.rows[k].startedAt.Some?
            && (t.rows[k].startedAt.None? ==> t'.rows[k].startedAt == Some(now))
  {
    var t' := StartPlayback(t, c, k, now).0;
    assert t'.rows[k := t'.rows[k]] == t'.rows;
  }

  // ---------------------------------------------------------------------------------------------
  // Fencing
  // ---------------------------------------------------------------------------------------------

  /** The pair was offered once and is nobody's current player. */
  ghost predicate Dead(t: Tables, key: PlayerKey) {
    key.id in t.candidates && forall u | u in t.players :: t.players[u].key != key
  }

  /** A pair that is not current never becomes current again. */
  lemma {:induction false} DeadForGood(ts: seq<Tables>, es: seq<Event>, i: nat, j: nat, key: PlayerKey)
    requires Run(ts, es) && i <= j < |ts| && Dead(ts[i], key)
    ensures Dead(ts[j], key)
    decreases j - i
  {
    if i < j {
      RunInv(ts, es, i);
      DeadForGood(ts, es, i + 1, j, key);
    }
  }

  predicate IsCurrent(t: Tables, key: PlayerKey) {
    exists u | u in t.players :: t.players[u].key == key
  }

  /** A pair that stopped being current is dead. */
  lemma SupersededIsDead(ts: seq<Tables>, es: seq<Event>, i: nat, key: PlayerKey)
    requires Run(ts, es) && i < |es|
    requires IsCurrent(ts[i], key) && !IsCurrent(ts[i + 1], key)
    ensures Dead(ts[i + 1], key)
  {
    RunInv(ts, es, i);
  }

  /** A pair that was only ever returned as standby is dead from the start. */
  lemma StandbyIsDead(t: Tables, token: TokenHash, candidate: PlayerId, now: int)
    requires Inv(t) && candidate !in t.candidates
    requires OpenPlayer(t, token, candidate, now).1.Standby?
    ensures var (t', result) := OpenPlayer(t, token, candidate, now);
            Dead(t', PlayerKey(candidate, result.generation)) && t'.rows == t.rows && t'.players == t.players
  {}

  function Sender(call: Call): Option<PlayerKey> {
    match call
    case HeartbeatCall(c, _, _) => Some(c.key)
    case ReleaseCall(c) => Some(c.key)
    case ClaimCall(c) => Some(c.key)
    case StartCall(c, _) => Some(c.key)
    case FinishCall(c, _, _) => Some(c.key)
    case StreamCall(c) => Some(c.key)
    case _ => None
  }

  lemma DeadCall(t: Tables, e: Event, key: PlayerKey)
    requires Sender(e.call) == Some(key) && Dead(t, key)
    ensures Apply(t, e) == t
  {
    assert forall c: Credentials | c.key == key :: !Current(t, c);
    hide Dead, Current;
  }

  /** Every call that carries a dead pair, now or later, changes no row at all. */
  lemma DeadCallsChangeNothing(ts: seq<Tables>, es: seq<Event>, i: nat, j: nat)
    requires Run(ts, es) && i <= j < |es|
    requires Sender(es[j].call).Some? && Dead(ts[i], Sender(es[j].call).value)
    ensures ts[j + 1] == ts[j]
  {
    var key := Sender(es[j].call).value;
    DeadForGood(ts, es, i, j, key);
    DeadCall(ts[j], es[j], key);
    hide Apply, Sender, Dead;
  }

  lemma PlaybackKeepsPlayers(t: Tables, e: Event)
    requires e.call.ClaimCall? || e.call.StartCall? || e.call.FinishCall? || e.call.StreamCall? || e.call.SkipCall?
    ensures Apply(t, e).players == t.players
  {}

  lemma QueueKeepsPlayers(t: Tables, e: Event)
    requires e.call.BatchCall? || e.call.TestCall? || e.call.ReplayCall? || e.call.PruneCall?
             || e.call.EnsureCall? || e.call.PauseCall? || e.call.SettingsCall?
    ensures Apply(t, e).players == t.players
  {
    if e.call.BatchCall? {
      InsertDonationsFrame(t, e.call.user, e.call.source, Ordered(e.call.donations), e.call.origin, e.now);
    }
  }

  lemma SpeechKeepsPlayers(t: Tables, e: Event)
    requires e.call.SpeechClaimCall? || e.call.SpeechDoneCall? || e.call.SpeechFailedCall?
    ensures Apply(t, e).players == t.players
  {}

  lemma PlayersUntouched(t: Tables, e: Event)
    requires !e.call.OpenCall? && !e.call.HeartbeatCall? && !e.call.ReleaseCall? && !e.call.TokenCall?
    ensures Apply(t, e).players == t.players
  {
    hide Apply;
    if e.call.SpeechClaimCall? || e.call.SpeechDoneCall? || e.call.SpeechFailedCall? {
      SpeechKeepsPlayers(t, e);
    } else if e.call.ClaimCall? || e.call.StartCall? || e.call.FinishCall? || e.call.StreamCall? || e.call.SkipCall? {
      PlaybackKeepsPlayers(t, e);
    } else {
      QueueKeepsPlayers(t, e);
    }
  }

  /** One transaction at `now`: the lease of a pair that stays current is untouched once it is over. */
  lemma ExpiredLeaseStep(t: Tables, e: Event, user: UserId)
    requires PlayersOk(t) && Allowed(t, e)
    requires user in t.players && t.players[user].leaseExpiresAt <= e.now
    requires user in Apply(t, e).players && Apply(t, e).players[user].key == t.players[user].key
    ensures Apply(t, e).players[user].leaseExpiresAt == t.players[user].leaseExpiresAt
  {
    if !e.call.OpenCall? && !e.call.HeartbeatCall? && !e.call.ReleaseCall? && !e.call.TokenCall? {
      PlayersUntouched(t, e);
    }
  }

  /** A pair that is current now was current a step ago, or its id is new. */
  lemma WasCurrent(t: Tables, t': Tables, user: UserId, key: PlayerKey)
    requires Evolves(t, t') && key.id in t.candidates
    requires user in t'.players && t'.players[user].key == key
    ensures user in t.players && t.players[user].key == key
  {}

  lemma PlayersOkAt(ts: seq<Tables>, es: seq<Event>, i: nat)
    requires Run(ts, es) && i < |ts|
    ensures PlayersOk(ts[i])
  {
    RunInv(ts, es, i);
  }

  lemma KeyWasCurrent(ts: seq<Tables>, es: seq<Event>, i: nat, m: nat, user: UserId)
    requires Run(ts, es) && i <= m < |es|
    requires user in ts[i].players && user in ts[m + 1].players
    requires ts[m + 1].players[user].key == ts[i].players[user].key
    ensures user in ts[m].players && ts[m].players[user].key == ts[i].players[user].key
  {
    hide Apply;
    var key := ts[i].players[user].key;
    assert PlayersOk(ts[i]) by { RunInv(ts, es, i); }
    CountersGrow(ts, es, i, m);
    RunInv(ts, es, m);
    WasCurrent(ts[m], ts[m + 1], user, key);
  }

  /** With a clock that never goes back, an expired lease is never renewed. */
  lemma {:induction false} ExpiredLeaseForGood(ts: seq<Tables>, es: seq<Event>, i: nat, j: nat, user: UserId)
    requires Run(ts, es) && i <= j < |ts| && i < |es|
    requires forall a | i <= a < |es| :: es[i].now <= es[a].now
    requires user in ts[i].players && ts[i].players[user].leaseExpiresAt <= es[i].now
    requires user in ts[j].players && ts[j].players[user].key == ts[i].players[user].key
    ensures ts[j].players[user].leaseExpiresAt == ts[i].players[user].leaseExpiresAt
    decreases j
  {
    hide Apply, Inv, Evolves;
    if i < j {
      KeyWasCurrent(ts, es, i, j - 1, user);
      ExpiredLeaseForGood(ts, es, i, j - 1, user);
      assert PlayersOk(ts[j - 1]) by { PlayersOkAt(ts, es, j - 1); }
      ExpiredLeaseStep(ts[j - 1], es[j - 1], user);
    }
  }

  // ---------------------------------------------------------------------------------------------
  // No orphans, and exactly which row a claim takes
  // ---------------------------------------------------------------------------------------------

  /** Every way a player can lose its place leaves the user's queue unblocked. */
  lemma NothingOrphaned(t: Tables, user: UserId, token: TokenHash, candidate: PlayerId, now: int)
    requires Inv(t)
    ensures SetOverlayToken(t, user, token, now).1 ==>
            PlayingKeys(SetOverlayToken(t, user, token, now).0.rows, user) == {}
    ensures OpenPlayer(t, token, candidate, now).1.Active? ==>
              PlayingKeys(OpenPlayer(t, token, candidate, now).0.rows, t.overlays[token]) == {}
  {
    RecoverUserSettles(t, user, now);
    if token in t.overlays {
      var owner := t.overlays[token];
      if owner in t.players {
        RecoverCurrentFrees(t, owner, now);
      } else {
        assert PlayingKeys(t.rows, owner) == {};
      }
    }
  }

  lemma NothingOrphanedByThePlayer(t: Tables, c: Credentials, active: bool, visible: bool, now: int)
    requires Inv(t) && Current(t, c)
    ensures PlayingKeys(ReleasePlayer(t, c, now).rows, t.overlays[c.token]) == {}
    ensures !Heartbeat(t, c, active, visible, now).1 || !active || !visible ==>
              PlayingKeys(Heartbeat(t, c, active, visible, now).0.rows, t.overlays[c.token]) == {}
    ensures t.players[t.overlays[c.token]].leaseExpiresAt <= now && t.overlays[c.token] in t.settings ==>
              PlayingKeys(ClaimPlayback(t, c, now).0.rows, t.overlays[c.token]) == {}
  {
    RecoverCurrentFrees(t, t.overlays[c.token], now);
  }

  /** The row at the head of the user's queue: the first waiting one that has not expired. */
  ghost predicate Head(t: Tables, user: UserId, now: int, k: nat) {
    && k in t.rows && t.rows[k].user == user && Waiting(t.rows[k]) && t.rows[k].expiresAt > now
    && forall j | j in t.rows && t.rows[j].user == user && Waiting(t.rows[j]) && t.rows[j].expiresAt > now :: k <= j
  }

  /**
   A ready player's claim takes the head of the queue exactly when nothing else is playing and the
   head is prepared and available; no later row overtakes a head that is not.
   */
  lemma ClaimTakesTheHead(t: Tables, c: Credentials, now: int, k: nat)
    requires Inv(t) && CurrentLease(t, c, now)
    requires var user := t.overlays[c.token];
             user in t.settings && !t.settings[user].paused && t.players[user].active && t.players[user].visible
    ensures ClaimPlayback(t, c, now).1 == Claimed(k) <==>
            var user := t.overlays[c.token];
            && Head(t, user, now, k)
            && t.rows[k].status.Pending? && t.rows[k].availableAt <= now
            && (forall j | j in t.rows && t.rows[j].user == user && t.rows[j].status.Playing? ::
                TimedOut(t.rows[j], now))
  {
    var user := t.overlays[c.token];
    var rows := ExpireUser(RecoverTimedOut(t.rows, user, now), user, now);
    ClaimSweepEffect(t, user, now);
    HeadMatches(t, rows, user, now, k);
    var candidates := ClaimCandidates(rows, user, now);
    if candidates != {} {
      CandidatesAgree(rows, user, now, Least(candidates), k);
    }
  }

  /** What the clean-up part of a claim leaves waiting and playing. */
  lemma ClaimSweepEffect(t: Tables, user: UserId, now: int)
    requires RowsOk(t)
    ensures var rows := ExpireUser(RecoverTimedOut(t.rows, user, now), user, now);
            forall j | j in t.rows ::
              && (Waiting(rows[j]) && rows[j].user == user <==>
                    Waiting(t.rows[j]) && t.rows[j].user == user && t.rows[j].expiresAt > now)
              && (Waiting(rows[j]) ==> rows[j] == t.rows[j])
              && (j in PlayingKeys(rows, user) <==>
                    t.rows[j].user == user && t.rows[j].status.Playing? && !TimedOut(t.rows[j], now))
  {}

  lemma HeadMatches(t: Tables, rows: map<nat, Row>, user: UserId, now: int, k: nat)
    requires rows.Keys == t.rows.Keys
    requires forall j | j in t.rows ::
               && (Waiting(rows[j]) && rows[j].user == user <==>
                     Waiting(t.rows[j]) && t.rows[j].user == user && t.rows[j].expiresAt > now)
               && (Waiting(rows[j]) ==> rows[j] == t.rows[j])
    ensures k in ClaimCandidates(rows, user, now) <==>
            && Head(t, user, now, k) && t.rows[k].status.Pending? && t.rows[k].availableAt <= now
            && PlayingKeys(rows, user) == {}
  {
    if Head(t, user, now, k) {
      assert forall j | j in WaitingKeys(rows, user) && rows[j].expiresAt > now :: k <= j;
    }
    if k in ClaimCandidates(rows, user, now) {
      forall j | j in t.rows && t.rows[j].user == user && Waiting(t.rows[j]) && t.rows[j].expiresAt > now
        ensures k <= j
      {
        assert j in WaitingKeys(rows, user);
      }
    }
  }

  /** The candidate query never returns two rows. */
  lemma CandidatesAgree(rows: map<nat, Row>, user: UserId, now: int, k: nat, j: nat)
    requires k in ClaimCandidates(rows, user, now)
    ensures j in ClaimCandidates(rows, user, now) ==> j == k
  {
    if j in ClaimCandidates(rows, user, now) {
      assert j in WaitingKeys(rows, user) && k in WaitingKeys(rows, user);
    }
  }

  // ---------------------------------------------------------------------------------------------
  // Backlog
  // ---------------------------------------------------------------------------------------------

  /** At every moment at most 101 of a user's alerts wait or play. */
  lemma BacklogBound(ts: seq<Tables>, es: seq<Event>, i: nat, user: UserId)
    requires Run(ts, es) && i < |ts|
    ensures |WaitingKeys(ts[i].rows, user)| + |PlayingKeys(ts[i].rows, user)| <= MAX_PENDING_ALERTS + 1
    ensures |PlayingKeys(ts[i].rows, user)| <= 1
  {
    RunInv(ts, es, i);
    LiveSize(ts[i].rows, user);
    OnePlaying(ts[i], user);
  }

  /** After an alert is queued at most 100 wait, and whatever was dropped is older than all of them. */
  lemma TrimDropsOldest(t: Tables, user: UserId, now: int, kept: nat, dropped: nat)
    ensures |WaitingKeys(Trim(t, user, now).rows, user)| <= MAX_PENDING_ALERTS
    ensures |WaitingKeys(t.rows, user)| <= MAX_PENDING_ALERTS ==> Trim(t, user, now).rows == t.rows
    ensures kept in WaitingKeys(Trim(t, user, now).rows, user)
            && dropped in WaitingKeys(t.rows, user) && dropped !in WaitingKeys(Trim(t, user, now).rows, user)
            ==> dropped < kept && Trim(t, user, now).rows[dropped].status.Expired?
  {
    TrimKeepsNewest(t.rows, user, now);
    var waiting := WaitingKeys(t.rows, user);
    var newest := NewestOf(waiting, MAX_PENDING_ALERTS);
    if |waiting| <= MAX_PENDING_ALERTS {
      assert newest == waiting by {
        SubsetSize(newest, waiting);
        assert waiting == newest + (waiting - newest);
      }
      assert Trim(t, user, now).rows == t.rows;
    }
    if kept in newest && dropped in waiting && dropped !in newest {
      NewestSplit(waiting, MAX_PENDING_ALERTS, kept, dropped);
    }
  }

  /** Of a user's finished rows exactly those remain that are among the 20 newest and not too old; a remaining
      row is unchanged. */
  lemma PruneKeepsExactly(t: Tables, now: int, user: UserId)
    ensures TerminalKeys(PruneRetention(t, now).rows, user) ==
            set k | k in NewestOf(TerminalKeys(t.rows, user), MAX_RETAINED_TERMINAL)
                    && TerminalAt(t.rows[k]) >= now - TERMINAL_RETENTION
    ensures forall k | k in PruneRetention(t, now).rows :: k in t.rows && PruneRetention(t, now).rows[k] == t.rows[k]
    ensures forall k | k in t.rows && !Terminal(t.rows[k]) :: k in PruneRetention(t, now).rows
  {}

  /** Retention leaves each user at most 20 finished rows, and touches nothing else. */
  lemma PruneKeepsNewest(t: Tables, now: int, user: UserId, k: nat)
    ensures |TerminalKeys(PruneRetention(t, now).rows, user)| <= MAX_RETAINED_TERMINAL
    ensures k in t.rows && !Terminal(t.rows[k]) ==>
              k in PruneRetention(t, now).rows && PruneRetention(t, now).rows[k] == t.rows[k]
  {
    var terminal := TerminalKeys(t.rows, user);
    NewestSize(terminal, MAX_RETAINED_TERMINAL);
    assert TerminalKeys(PruneRetention(t, now).rows, user) <= NewestOf(terminal, MAX_RETAINED_TERMINAL);
    SubsetSize(TerminalKeys(PruneRetention(t, now).rows, user), NewestOf(terminal, MAX_RETAINED_TERMINAL));
  }

  // ---------------------------------------------------------------------------------------------
  // One alert per donation
  // ---------------------------------------------------------------------------------------------

  /** Incoming rows of a known donation are never added later. */
  lemma {:induction false} IncomingKept(ts: seq<Tables>, es: seq<Event>, i: nat, j: nat, k: nat)
    requires Run(ts, es) && i <= j < |ts|
    requires k in ts[j].rows && ts[j].rows[k].kind.Incoming?
    requires ts[j].rows[k].donation.Some? && ts[j].rows[k].donation.value < ts[i].nextDonation
    ensures k in ts[i].rows && ts[i].rows[k].kind.Incoming? && ts[i].rows[k].donation == ts[j].rows[k].donation
    decreases j - i
  {
    if i < j {
      RunInv(ts, es, i);
      IncomingKept(ts, es, i + 1, j, k);
      assert k in ts[i].rows || Fresh(ts[i], k, ts[i + 1].rows[k]);
    }
  }

  /** Over any run a donation has at most one incoming playback, even after that one is deleted. */
  lemma OneAlertPerDonation(ts: seq<Tables>, es: seq<Event>, i: nat, j: nat, k: nat, other: nat)
    requires Run(ts, es) && i <= j < |ts|
    requires k in ts[i].rows && ts[i].rows[k].kind.Incoming?
    requires other in ts[j].rows && ts[j].rows[other].kind.Incoming?
    requires ts[i].rows[k].donation == ts[j].rows[other].donation
    ensures other == k
  {
    RunInv(ts, es, i);
    RunInv(ts, es, j);
    IncomingKept(ts, es, i, j, other);
  }

  /** A provider's donation id names one stored donation for good. */
  lemma OneDonationPerKey(ts: seq<Tables>, es: seq<Event>, i: nat, j: nat, d: DonationKey, e: DonationKey)
    requires Run(ts, es) && i <= j < |ts|
    requires d in ts[i].donations && e in ts[j].donations
    ensures d in ts[j].donations
    ensures ts[j].donations[e] == ts[i].donations[d] <==> e == d
  {
    RunInv(ts, es, j);
    CountersGrow(ts, es, i, j);
  }

  lemma {:induction false} InitialBatchQueuesNothing(t: Tables, user: UserId, source: Source, ds: seq<Donation>,
                                                     acceptedAt: int)
    ensures InsertDonations(t, user, source, ds, InitialHistory, acceptedAt).rows == t.rows
    decreases |ds|
  {
    if ds != [] {
      InitialBatchQueuesNothing(InsertDonation(t, user, source, ds[0], InitialHistory, acceptedAt), user, source,
                                ds[1..], acceptedAt);
    }
  }

  /** A donation first stored by an initial import never alerts, however often it is read again. */
  lemma InitialImportNeverAlerts(ts: seq<Tables>, es: seq<Event>, i: nat, j: nat, d: DonationKey, k: nat)
    requires Run(ts, es) && i < j < |ts|
    requires es[i].call.BatchCall? && es[i].call.origin.InitialHistory?
    requires d !in ts[i].donations && d in ts[i + 1].donations
    requires k in ts[j].rows && ts[j].rows[k].kind.Incoming?
    ensures ts[j].rows[k].donation != Some(ts[i + 1].donations[d])
  {
    hide Evolves;
    RunInv(ts, es, i);
    RunInv(ts, es, i + 1);
    RunInv(ts, es, j);
    var call := es[i].call;
    InitialBatchQueuesNothing(ts[i], call.user, call.source, Ordered(call.donations), es[i].now);
    if ts[j].rows[k].donation == Some(ts[i + 1].donations[d]) {
      IncomingKept(ts, es, i + 1, j, k);
      InsertDonationsNewIds(ts[i], call.user, call.source, Ordered(call.donations), call.origin, es[i].now, d);
    }
  }

  /** Ids given out by a batch are new. */
  lemma {:induction false} InsertDonationsNewIds(t: Tables, user: UserId, source: Source, ds: seq<Donation>,
                                                 origin: Origin, acceptedAt: int, d: DonationKey)
    requires d !in t.donations && d in InsertDonations(t, user, source, ds, origin, acceptedAt).donations
    ensures t.nextDonation <= InsertDonations(t, user, source, ds, origin, acceptedAt).donations[d]
    decreases |ds|
  {
    if ds != [] {
      var t1 := InsertDonation(t, user, source, ds[0], origin, acceptedAt);
      InsertDonationsFrame(t1, user, source, ds[1..], origin, acceptedAt);
      InsertDonationFrame(t, user, source, ds[0], origin, acceptedAt);
      InsertDonationStores(t, user, source, ds[0], origin, acceptedAt);
      hide InsertDonation;
      if d !in t1.donations {
        InsertDonationsNewIds(t1, user, source, ds[1..], origin, acceptedAt, d);
      }
    }
  }

  /** The incoming row of a stored donation. */
  ghost predicate AlertOf(t: Tables, key: DonationKey, k: nat) {
    && key in t.donations && k in t.rows
    && t.rows[k].kind.Incoming? && t.rows[k].donation == Some(t.donations[key])
  }

  /** An alert for a donation already stored was already queued; one for a later donation was not. */
  lemma AlertBefore(t: Tables, t': Tables, key: DonationKey, k: nat)
    requires Inv(t) && Inv(t') && Queues(t.rows, t'.rows, t.nextSequence, t.nextDonation)
    requires forall d | d in t.donations :: d in t'.donations && t'.donations[d] == t.donations[d]
    requires AlertOf(t', key, k)
    ensures key in t.donations ==> k < t.nextSequence
    ensures key !in t.donations && t.nextDonation <= t'.donations[key] ==> t.nextSequence <= k
  {
    if k in t.rows {
      assert RowNext(t.rows[k], t'.rows[k]);
    }
  }

  /** The first donation of a batch is alerted before any new one after it. */
  lemma BatchHead(t: Tables, user: UserId, source: Source, ds: seq<Donation>, origin: Origin, acceptedAt: int,
                  later: DonationKey, j: nat, k: nat)
    requires Inv(t) && ds != []
    requires DonationKey(user, source, ds[0].sourceId) !in t.donations
    requires later !in t.donations && later != DonationKey(user, source, ds[0].sourceId)
    requires AlertOf(InsertDonations(t, user, source, ds, origin, acceptedAt),
                     DonationKey(user, source, ds[0].sourceId), j)
    requires AlertOf(InsertDonations(t, user, source, ds, origin, acceptedAt), later, k)
    ensures j < k
  {
    hide Inv, Queues, InsertDonation;
    var t1 := InsertDonation(t, user, source, ds[0], origin, acceptedAt);
    var t' := InsertDonations(t1, user, source, ds[1..], origin, acceptedAt);
    InsertDonationInv(t, user, source, ds[0], origin, acceptedAt);
    InsertDonationsQueue(t1, user, source, ds[1..], origin, acceptedAt);
    InsertDonationsFrame(t1, user, source, ds[1..], origin, acceptedAt);
    InsertDonationStores(t, user, source, ds[0], origin, acceptedAt);
    InsertDonationsNewIds(t1, user, source, ds[1..], origin, acceptedAt, later);
    AlertBefore(t1, t', DonationKey(user, source, ds[0].sourceId), j);
    AlertBefore(t1, t', later, k);
  }

  lemma InsertDonationStores(t: Tables, user: UserId, source: Source, d: Donation, origin: Origin, acceptedAt: int)
    ensures var key := DonationKey(user, source, d.sourceId);
            InsertDonation(t, user, source, d, origin, acceptedAt).donations
            == if key in t.donations then t.donations else t.donations[key := t.nextDonation]
  {}

  /** Alerts of one batch are queued in the order of the list they are inserted from. */
  lemma {:induction false} BatchSequencing(t: Tables, user: UserId, source: Source, ds: seq<Donation>, origin: Origin,
                                           acceptedAt: int, a: nat, b: nat, j: nat, k: nat)
    requires Inv(t) && a < b < |ds|
    requires forall i | 0 <= i < b :: ds[i].sourceId != ds[b].sourceId
    requires DonationKey(user, source, ds[a].sourceId) !in t.donations
    requires DonationKey(user, source, ds[b].sourceId) !in t.donations
    requires AlertOf(InsertDonations(t, user, source, ds, origin, acceptedAt),
                     DonationKey(user, source, ds[a].sourceId), j)
    requires AlertOf(InsertDonations(t, user, source, ds, origin, acceptedAt),
                     DonationKey(user, source, ds[b].sourceId), k)
    ensures j < k
    decreases |ds|
  {
    hide Inv;
    if ds[0].sourceId == ds[a].sourceId {
      BatchHead(t, user, source, ds, origin, acceptedAt, DonationKey(user, source, ds[b].sourceId), j, k);
    } else {
      var t1 := InsertDonation(t, user, source, ds[0], origin, acceptedAt);
      assert Inv(t1) by { InsertDonationInv(t, user, source, ds[0], origin, acceptedAt); }
      assert ds[1..][a - 1] == ds[a] && ds[1..][b - 1] == ds[b];
      BatchSequencing(t1, user, source, ds[1..], origin, acceptedAt, a - 1, b - 1, j, k);
    }
  }

  /** No other row of the batch with the same provider id comes before it. */
  ghost predicate FirstOfItsId(ds: seq<Donation>, d: Donation) {
    d in ds && forall e | e in ds && e.sourceId == d.sourceId :: Leq(d, e)
  }

  /** Where the first rows of two provider ids stand in the insertion order. */
  lemma OrderedPositions(ds: seq<Donation>, a: Donation, b: Donation) returns (n: nat, m: nat)
    requires a in ds && FirstOfItsId(ds, b) && a.sourceId != b.sourceId && Leq(a, b)
    ensures n < m < |Ordered(ds)| && Ordered(ds)[n].sourceId == a.sourceId && Ordered(ds)[m].sourceId == b.sourceId
    ensures forall p | 0 <= p < m :: Ordered(ds)[p].sourceId != b.sourceId
  {
    var ordered := Ordered(ds);
    OrderedSorts(ds);
    assert a in multiset(ds) && b in multiset(ds);
    n := FirstIndex(ordered, a.sourceId, a);
    m := FirstIndex(ordered, b.sourceId, b);
    if m < n {
      assert ordered[m] in multiset(ordered) && ordered[m] in multiset(ds);
      LeqTransitive(a, b, ordered[m]);
      var na :| 0 <= na < |ordered| && ordered[na] == a;
      LeqTransitive(b, ordered[m], a);
      IdTotal(a.sourceId, b.sourceId);
    }
  }

  /** Within one provider batch, the alert of the donation that comes first (by time, then by id) is queued
      first. A provider id that the batch names more than once counts where it first comes. */
  lemma BatchAlertsInOrder(t: Tables, user: UserId, source: Source, ds: seq<Donation>, origin: Origin, now: int,
                           a: Donation, b: Donation, j: nat, k: nat)
    requires Inv(t) && a in ds && FirstOfItsId(ds, b) && a.sourceId != b.sourceId && Leq(a, b)
    requires DonationKey(user, source, a.sourceId) !in t.donations
    requires DonationKey(user, source, b.sourceId) !in t.donations
    requires AlertOf(Apply(t, Event(now, BatchCall(user, source, ds, origin))), DonationKey(user, source, a.sourceId),
                     j)
    requires AlertOf(Apply(t, Event(now, BatchCall(user, source, ds, origin))), DonationKey(user, source, b.sourceId),
                     k)
    ensures j < k
  {
    hide Inv, AlertOf;
    var n, m := OrderedPositions(ds, a, b);
    BatchSequencing(t, user, source, Ordered(ds), origin, now, n, m, j, k);
  }

  lemma {:induction false} FirstIndex(ds: seq<Donation>, id: string, d: Donation) returns (n: nat)
    requires d in ds && d.sourceId == id
    ensures n < |ds| && ds[n].sourceId == id && forall p | 0 <= p < n :: ds[p].sourceId != id
  {
    if ds[0].sourceId == id {
      n := 0;
    } else {
      assert d in ds[1..];
      var rest := FirstIndex(ds[1..], id, d);
      n := rest + 1;
      forall p | 0 <= p < n ensures ds[p].sourceId != id {
        assert p > 0 ==> ds[p] == ds[1..][p - 1];
      }
    }
  }

  // ---------------------------------------------------------------------------------------------
  // Speech preparation
  // ---------------------------------------------------------------------------------------------

  /** At most three attempts, and a report that matches a row's claim knows the row's attempts. */
  lemma SpeechAttempts(ts: seq<Tables>, es: seq<Event>, i: nat, k: nat, job: Job)
    requires Run(ts, es) && i < |ts| && k in ts[i].rows
    ensures ts[i].rows[k].preparationAttempts <= PREPARATION_TRIES
    ensures ts[i].rows[k].status.Preparing? && ts[i].rows[k].preparationAttempts == PREPARATION_TRIES ==>
              ts[i].rows[k].preparationLease.Some?
    ensures job in ts[i].jobs && job.playback == k && ts[i].rows[k].preparationGeneration == job.generation ==>
              job.attempts == ts[i].rows[k].preparationAttempts && job.user == ts[i].rows[k].user
  {
    RunInv(ts, es, i);
    if job in ts[i].jobs {
      assert JobOk(ts[i], job);
    }
  }

  /** A job whose row was claimed again stays powerless: its reports change no row. */
  lemma SupersededJobIsPowerless(ts: seq<Tables>, es: seq<Event>, i: nat, j: nat, job: Job)
    requires Run(ts, es) && i <= j < |es|
    requires job.playback < ts[i].nextSequence
    requires job.playback in ts[i].rows ==> job.generation < ts[i].rows[job.playback].preparationGeneration
    requires es[j].call == SpeechDoneCall(job) || es[j].call == SpeechFailedCall(job)
    ensures ts[j + 1].rows == ts[j].rows
  {
    if job.playback in ts[j].rows {
      RowKept(ts, es, i, j, job.playback);
    }
  }

  /** How many transactions of the run handed `k` out or took it back and left it preparing. */
  ghost function SpeechSteps(ts: seq<Tables>, k: nat, i: nat, j: nat): nat
    requires i <= j < |ts|
    decreases j - i
  {
    if i == j then 0
    else SpeechSteps(ts, k, i, j - 1) +
         (if k in ts[j - 1].rows && k in ts[j].rows && ts[j - 1].rows[k].status.Preparing?
             && ts[j].rows[k].status.Preparing? && !Postponed(ts[j - 1].rows[k], ts[j].rows[k])
             && ts[j].rows[k] != ts[j - 1].rows[k] then 1 else 0)
  }

  lemma WasPreparing(ts: seq<Tables>, es: seq<Event>, i: nat, k: nat)
    requires Run(ts, es) && i + 1 < |ts| && k < ts[i].nextSequence
    requires k in ts[i + 1].rows && ts[i + 1].rows[k].status.Preparing?
    ensures k in ts[i].rows && ts[i].rows[k].status.Preparing?
    ensures || ts[i + 1].rows[k] == ts[i].rows[k]
            || SpeechMeasure(ts[i + 1].rows[k]) < SpeechMeasure(ts[i].rows[k])
            || Postponed(ts[i].rows[k], ts[i + 1].rows[k])
  {
    RunInv(ts, es, i);
  }

  /** Between two moments of preparation, each hand-out and each return uses up one unit of a measure
      of at most 6. */
  lemma {:induction false} SpeechIsBounded(ts: seq<Tables>, es: seq<Event>, i: nat, j: nat, k: nat)
    requires Run(ts, es) && i <= j < |ts|
    requires k in ts[i].rows && k in ts[j].rows && ts[j].rows[k].status.Preparing?
    ensures SpeechSteps(ts, k, i, j) + SpeechMeasure(ts[j].rows[k]) <= SpeechMeasure(ts[i].rows[k]) <= 6
    decreases j - i
  {
    hide Apply;
    RunInv(ts, es, i);
    if i < j {
      CountersGrow(ts, es, i, j - 1);
      WasPreparing(ts, es, j - 1, k);
      SpeechIsBounded(ts, es, i, j - 1, k);
    }
  }

  /** A preparing row was preparing ever since it was queued: no row comes back to preparation. */
  lemma {:induction false} PreparingAllAlong(ts: seq<Tables>, es: seq<Event>, i: nat, j: nat, k: nat)
    requires Run(ts, es) && i <= j < |ts| && k < ts[i].nextSequence
    requires k in ts[j].rows && ts[j].rows[k].status.Preparing?
    ensures k in ts[i].rows && ts[i].rows[k].status.Preparing?
    ensures ts[i].rows[k].preparationGeneration <= ts[j].rows[k].preparationGeneration
    decreases j
  {
    hide Apply;
    if i < j {
      CountersGrow(ts, es, i, j - 1);
      WasPreparing(ts, es, j - 1, k);
      RowKept(ts, es, j - 1, j, k);
      PreparingAllAlong(ts, es, i, j - 1, k);
    }
  }

  /** What a worker's claim does to one preparing row. */
  lemma SpeechClaimEffect(t: Tables, now: int, k: nat)
    requires k in t.rows && t.rows[k].status.Preparing?
    ensures var t' := ClaimPreparation(t, now).0;
            && k in t'.rows
            && (t.rows[k].expiresAt <= now ==> t'.rows[k].status.Expired?)
            && (SpeechExhausted(t.rows[k], now) ==> t'.rows[k].status.Pending?)
            && (SpeechClaimable(t.rows[k], now)
                && (forall j | j in t.rows && SpeechClaimable(t.rows[j], now) :: k <= j) ==>
                  t'.rows[k] == ClaimSpeech(t.rows[k], now))
  {
    var rows := GiveUpExhausted(ExpireAll(t.rows, now), now);
    SpeechSweepEffect(t.rows, now);
    hide GiveUpExhausted, ExpireAll, SpeechClaimable, SpeechExhausted;
    if SpeechClaimable(t.rows[k], now) {
      assert k in SpeechCandidates(rows, now);
    }
  }

  /** The clean-up before a claim: what it expires, what goes on without speech, what it leaves to be claimed. */
  lemma SpeechSweepEffect(rows: map<nat, Row>, now: int)
    ensures var swept := GiveUpExhausted(ExpireAll(rows, now), now);
            && swept.Keys == rows.Keys
            && forall k | k in rows ::
                 && (rows[k].status.Preparing? && rows[k].expiresAt <= now ==> swept[k].status.Expired?)
                 && (SpeechExhausted(rows[k], now) ==> swept[k].status.Pending?)
                 && (SpeechClaimable(swept[k], now) <==> SpeechClaimable(rows[k], now))
                 && (SpeechClaimable(rows[k], now) ==> swept[k] == rows[k])
                 && (!SpeechClaimable(swept[k], now) && swept[k].status.Preparing? ==> swept[k] == rows[k])
  {}

  /** A worker's claim at or after its expiry ends a row's preparation for good. */
  lemma ExpiryEndsPreparation(ts: seq<Tables>, es: seq<Event>, i: nat, j: nat, k: nat)
    requires Run(ts, es) && i < j < |ts|
    requires es[i].call.SpeechClaimCall? && k in ts[i].rows && ts[i].rows[k].expiresAt <= es[i].now
    ensures k in ts[j].rows ==> !ts[j].rows[k].status.Preparing?
  {
    var n := i + 1;
    assert ts[n] == ClaimPreparation(ts[i], es[i].now).0;
    hide Apply, ClaimPreparation, Allowed;
    assert k < ts[i].nextSequence by { RunInv(ts, es, i); }
    CountersGrow(ts, es, i, n);
    if k in ts[j].rows && ts[j].rows[k].status.Preparing? {
      PreparingAllAlong(ts, es, n, j, k);
      PreparingAllAlong(ts, es, i, n, k);
      SpeechClaimEffect(ts[i], es[i].now, k);
    }
  }

  /** At moment `i` a worker asks for a job, and `k` is the oldest row that it could take: nobody works on it. */
  ghost predicate Turn(ts: seq<Tables>, es: seq<Event>, i: nat, k: nat) {
    && i < |es| && i < |ts| && es[i].call.SpeechClaimCall?
    && k in ts[i].rows && LeaseFree(ts[i].rows[k], es[i].now) && ts[i].rows[k].availableAt <= es[i].now
    && forall j | j in ts[i].rows && SpeechClaimable(ts[i].rows[j], es[i].now) :: k <= j
  }

  /** Each turn uses up an attempt or ends the preparation. */
  lemma TurnCounts(ts: seq<Tables>, es: seq<Event>, i: nat, j: nat, k: nat)
    requires Run(ts, es) && i < j < |ts| && Turn(ts, es, i, k)
    requires k in ts[j].rows && ts[j].rows[k].status.Preparing?
    ensures k in ts[i].rows && ts[i].rows[k].status.Preparing?
    ensures ts[i].rows[k].preparationGeneration < ts[j].rows[k].preparationGeneration
  {
    var n := i + 1;
    assert ts[n] == ClaimPreparation(ts[i], es[i].now).0;
    hide Apply, ClaimPreparation, Allowed;
    assert k < ts[i].nextSequence && RowOk(ts[i].rows[k]) by { RunInv(ts, es, i); }
    CountersGrow(ts, es, i, n);
    PreparingAllAlong(ts, es, n, j, k);
    PreparingAllAlong(ts, es, i, n, k);
    SpeechClaimEffect(ts[i], es[i].now, k);
  }

  /** Whatever happens in between, a row's fourth turn ends its preparation for good. */
  lemma FourTurnsEndPreparation(ts: seq<Tables>, es: seq<Event>, a: nat, b: nat, c: nat, d: nat, j: nat, k: nat)
    requires Run(ts, es) && a < b < c < d < j < |ts|
    requires Turn(ts, es, a, k) && Turn(ts, es, b, k) && Turn(ts, es, c, k) && Turn(ts, es, d, k)
    ensures k in ts[j].rows ==> !ts[j].rows[k].status.Preparing?
  {
    hide Turn, Apply;
    if k in ts[j].rows && ts[j].rows[k].status.Preparing? {
      TurnCounts(ts, es, d, j, k);
      TurnCounts(ts, es, c, d, k);
      TurnCounts(ts, es, b, c, k);
      TurnCounts(ts, es, a, b, k);
      RunInv(ts, es, j);
    }
  }

  /**
   When a worker's claim finds nothing to do, every row still preparing is leased to someone or not
   available yet; exhausted rows went to the queue without speech and overdue ones expired.
   */
  lemma IdleWorkerMeansLeased(t: Tables, now: int, k: nat)
    requires Inv(t) && ClaimPreparation(t, now).1.None?
    requires k in ClaimPreparation(t, now).0.rows && ClaimPreparation(t, now).0.rows[k].status.Preparing?
    ensures var r := ClaimPreparation(t, now).0.rows[k];
            && r.expiresAt > now
            && (!LeaseFree(r, now) || (r.availableAt > now && r.preparationAttempts < PREPARATION_TRIES))
  {
    var rows := GiveUpExhausted(ExpireAll(t.rows, now), now);
    assert k !in SpeechCandidates(rows, now);
  }
}
