/**
 The request scheduler of one provider client: three classes of waiting requests, two burst counters,
 one grant at a time. Which class has somebody waiting is decided by the environment afresh at every
 channel check.
 */
module RequestLimiter {
  import opened Base

  datatype Priority = Regular | Recovery | Critical

  const MAXIMUM_CRITICAL_BURST: nat := 4
  const MAXIMUM_RECOVERY_BURST: nat := 4

  datatype Bursts = Bursts(critical: nat, recovery: nat)

  /** What one look at the history channels finds, check by check. */
  datatype HistoryLook = HistoryLook(regularFirst: bool, recovery: bool, regular: bool)

  /** What one selection finds, check by check; `woken` is the class that ends the final wait.
      `cancelled` says whether the chosen request was cancelled before its grant. */
  datatype Look = Look(critical: bool, history: HistoryLook, criticalAgain: bool, historyAgain: HistoryLook,
                       woken: Priority, cancelled: bool)

  function NextHistory(recoveryBurst: nat, look: HistoryLook): Option<Priority> {
    if recoveryBurst >= MAXIMUM_RECOVERY_BURST && look.regularFirst then Some(Regular)
    else if look.recovery then Some(Recovery)
    else if look.regular then Some(Regular)
    else None
  }

  function Select(b: Bursts, look: Look): Priority {
    var first := if b.critical < MAXIMUM_CRITICAL_BURST
                 then (if look.critical then Some(Critical) else None)
                 else NextHistory(b.recovery, look.history);
    if first.Some? then first.value
    else if look.criticalAgain then Critical
    else
      var second := NextHistory(b.recovery, look.historyAgain);
      if second.Some? then second.value else look.woken
  }

  function Count(b: Bursts, granted: Priority): Bursts {
    match granted
    case Critical => b.(critical := b.critical + 1)
    case Recovery => Bursts(0, b.recovery + 1)
    case Regular => Bursts(0, 0)
  }

  /** The grants a sequence of looks leads to. */
  function Grants(b: Bursts, looks: seq<Look>): seq<Priority>
    decreases |looks|
  {
    if looks == [] then []
    else if looks[0].cancelled then Grants(b, looks[1..])
    else [Select(b, looks[0])] + Grants(Count(b, Select(b, looks[0])), looks[1..])
  }

  // ---------------------------------------------------------------------------------------------
  // Who waits, and for how long
  // ---------------------------------------------------------------------------------------------

  /** A regular request waits at every check. */
  predicate RegularWaits(look: Look) {
    && look.history.regularFirst && look.history.regular
    && look.historyAgain.regularFirst && look.historyAgain.regular
  }

  predicate RecoveryWaits(look: Look) {
    look.history.recovery && look.historyAgain.recovery
  }

  function Left(burst: nat, maximum: nat): nat {
    if burst < maximum then maximum - burst else 0
  }

  /** How many other grants a waiting regular request can still see. */
  function RegularMeasure(b: Bursts): nat {
    5 * Left(b.recovery, MAXIMUM_RECOVERY_BURST) + Left(b.critical, MAXIMUM_CRITICAL_BURST)
  }

  function Others(grants: seq<Priority>): nat {
    if grants == [] then 0 else (if grants[0].Regular? then 0 else 1) + Others(grants[1..])
  }

  function Regulars(grants: seq<Priority>): nat {
    if grants == [] then 0 else (if grants[0].Regular? then 1 else 0) + Regulars(grants[1..])
  }

  function Criticals(grants: seq<Priority>): nat {
    if grants == [] then 0 else (if grants[0].Critical? then 1 else 0) + Criticals(grants[1..])
  }

  /** Each grant to somebody else brings the waiting request closer. */
  lemma GrantDecreases(b: Bursts, look: Look)
    requires RegularWaits(look)
    ensures Select(b, look) != Regular ==> RegularMeasure(Count(b, Select(b, look))) < RegularMeasure(b)
    ensures RegularMeasure(b) <= 24
  {}

  /**
   While regular requests wait without a break, the other classes get at most the measure plus 24 grants
   for every regular one. So a regular request with n ahead of it sees at most 24 * (n + 1) other grants.
   */
  lemma {:induction false} RegularShare(b: Bursts, looks: seq<Look>)
    requires forall i | 0 <= i < |looks| :: RegularWaits(looks[i])
    ensures Others(Grants(b, looks)) <= RegularMeasure(b) + 24 * Regulars(Grants(b, looks))
    decreases |looks|
  {
    if looks != [] {
      var granted := Select(b, looks[0]);
      GrantDecreases(b, looks[0]);
      if looks[0].cancelled {
        RegularShare(b, looks[1..]);
      } else {
        RegularShare(Count(b, granted), looks[1..]);
        assert Grants(b, looks)[1..] == Grants(Count(b, granted), looks[1..]);
      }
    }
  }

  lemma {:induction false} CountsAddUp(grants: seq<Priority>)
    ensures Others(grants) + Regulars(grants) == |grants|
    ensures Regulars(grants) > 0 ==> Regular in grants
    ensures Criticals(grants) < |grants| ==> Regular in grants || Recovery in grants
  {
    if grants != [] {
      CountsAddUp(grants[1..]);
      assert grants == [grants[0]] + grants[1..];
    }
  }

  /** A regular request that waits through 25 grants sees one of them go to its class. */
  lemma RegularWithin25Grants(b: Bursts, looks: seq<Look>)
    requires forall i | 0 <= i < |looks| :: RegularWaits(looks[i])
    requires |Grants(b, looks)| >= 25
    ensures Regular in Grants(b, looks)
  {
    RegularShare(b, looks);
    GrantDecreases(b, looks[0]);
    CountsAddUp(Grants(b, looks));
  }

  /** Nobody waits for ever behind critical requests: at most four precede a history grant. */
  lemma {:induction false} CriticalShare(b: Bursts, looks: seq<Look>)
    requires forall i | 0 <= i < |looks| :: RegularWaits(looks[i]) || RecoveryWaits(looks[i])
    requires Regular !in Grants(b, looks) && Recovery !in Grants(b, looks)
    ensures |Grants(b, looks)| <= Left(b.critical, MAXIMUM_CRITICAL_BURST)
    decreases |looks|
  {
    if looks != [] {
      if looks[0].cancelled {
        CriticalShare(b, looks[1..]);
      } else {
        var rest := Grants(Count(b, Select(b, looks[0])), looks[1..]);
        assert Grants(b, looks) == [Select(b, looks[0])] + rest;
        assert Select(b, looks[0]) in Grants(b, looks);
        assert forall p | p in rest :: p in Grants(b, looks);
        CriticalShare(Count(b, Select(b, looks[0])), looks[1..]);
      }
    }
  }

  /** A history request that waits through five grants sees one of them go to history. */
  lemma HistoryWithin5Grants(b: Bursts, looks: seq<Look>)
    requires forall i | 0 <= i < |looks| :: RegularWaits(looks[i]) || RecoveryWaits(looks[i])
    requires |Grants(b, looks)| >= 5
    ensures Regular in Grants(b, looks) || Recovery in Grants(b, looks)
  {
    if Regular !in Grants(b, looks) && Recovery !in Grants(b, looks) {
      CriticalShare(b, looks);
    }
  }

  /** Somebody of the class is found waiting at one of the checks. */
  predicate Found(look: Look, p: Priority) {
    match p
    case Critical => look.critical || look.criticalAgain
    case Recovery => look.history.recovery || look.historyAgain.recovery
    case Regular =>
      || look.history.regularFirst || look.history.regular
      || look.historyAgain.regularFirst || look.historyAgain.regular
  }

  /** A grant goes to a class that was found waiting, or to the one that ends the final wait; and the scheduler does not
      wait while somebody is found at its last look. */
  lemma GrantsWhoWaits(b: Bursts, look: Look)
    ensures Found(look, Select(b, look)) || Select(b, look) == look.woken
    ensures (forall p :: !Found(look, p)) ==> Select(b, look) == look.woken
    ensures look.criticalAgain || look.historyAgain.recovery || look.historyAgain.regular ==>
              Found(look, Select(b, look))
    ensures look.critical && b.critical < 4 ==> Select(b, look) == Critical
  {
    assert Found(look, Critical) || Found(look, Recovery) || Found(look, Regular) || Select(b, look) == look.woken;
  }

  /** Recovery yields to regular history after four grants of its own, and only then. */
  lemma RecoveryPreference(b: Bursts, look: Look)
    requires RegularWaits(look) && RecoveryWaits(look)
    ensures Select(b, look) != Critical ==> (Select(b, look) == Regular <==> b.recovery >= MAXIMUM_RECOVERY_BURST)
  {}

  const EVERYBODY := Look(true, HistoryLook(true, true, true), true, HistoryLook(true, true, true), Regular, false)

  /** The bound is reached: when everybody waits all the time, regular waits out its whole measure. */
  lemma {:induction false} BoundIsReached(b: Bursts, looks: seq<Look>)
    requires forall i | 0 <= i < |looks| :: looks[i] == EVERYBODY
    requires |looks| == RegularMeasure(b) + 1
    ensures |Grants(b, looks)| == |looks| && Grants(b, looks)[RegularMeasure(b)] == Regular
    ensures forall i | 0 <= i < RegularMeasure(b) :: Grants(b, looks)[i] != Regular
    decreases |looks|
  {
    var granted := Select(b, looks[0]);
    if RegularMeasure(b) == 0 {
      assert granted == Regular && looks[1..] == [];
    } else {
      assert RegularMeasure(Count(b, granted)) == RegularMeasure(b) - 1;
      BoundIsReached(Count(b, granted), looks[1..]);
      assert Grants(b, looks) == [granted] + Grants(Count(b, granted), looks[1..]);
    }
  }

  function Uncancelled(looks: seq<Look>): seq<Look> {
    if looks == [] then []
    else (if looks[0].cancelled then [] else [looks[0]]) + Uncancelled(looks[1..])
  }

  /** Cancelled requests take no grant and shift nobody's turn. */
  lemma {:induction false} CancelledRequestsDoNotCount(b: Bursts, looks: seq<Look>)
    ensures Grants(b, looks) == Grants(b, Uncancelled(looks))
    decreases |looks|
  {
    if looks != [] {
      var rest := Uncancelled(looks[1..]);
      if looks[0].cancelled {
        CancelledRequestsDoNotCount(b, looks[1..]);
        assert Uncancelled(looks) == rest;
      } else {
        CancelledRequestsDoNotCount(Count(b, Select(b, looks[0])), looks[1..]);
        assert Uncancelled(looks) == [looks[0]] + rest;
        assert Uncancelled(looks)[1..] == rest;
      }
    }
  }

  // ---------------------------------------------------------------------------------------------
  // The loop
  // ---------------------------------------------------------------------------------------------

  method TakeHistory(recoveryBurst: nat, look: HistoryLook) returns (priority: Priority, ok: bool)
    ensures ok <==> NextHistory(recoveryBurst, look).Some?
    ensures ok ==> NextHistory(recoveryBurst, look) == Some(priority)
  {
    if recoveryBurst >= MAXIMUM_RECOVERY_BURST {
      if look.regularFirst {
        return Regular, true;
      }
    }
    if look.recovery {
      return Recovery, true;
    }
    if look.regular {
      return Regular, true;
    }
    return Regular, false;
  }

  method Take(criticalBurst: nat, recoveryBurst: nat, look: Look) returns (priority: Priority)
    ensures priority == Select(Bursts(criticalBurst, recoveryBurst), look)
  {
    if criticalBurst < MAXIMUM_CRITICAL_BURST {
      if look.critical {
        return Critical;
      }
    }
    if criticalBurst >= MAXIMUM_CRITICAL_BURST {
      var taken, ok := TakeHistory(recoveryBurst, look.history);
      if ok {
        return taken;
      }
    }
    if look.criticalAgain {
      return Critical;
    }
    var taken, ok := TakeHistory(recoveryBurst, look.historyAgain);
    if ok {
      return taken;
    }
    return look.woken;
  }

  /** Any finite stretch of the scheduler's endless loop. */
  method Run(looks: seq<Look>) returns (grants: seq<Priority>)
    ensures grants == Grants(Bursts(0, 0), looks)
  {
    var criticalBurst, recoveryBurst := 0, 0;
    grants := [];
    for i := 0 to |looks|
      invariant grants + Grants(Bursts(criticalBurst, recoveryBurst), looks[i..]) == Grants(Bursts(0, 0), looks)
    {
      assert looks[i..][0] == looks[i] && looks[i..][1..] == looks[i + 1..];
      var priority := Take(criticalBurst, recoveryBurst, looks[i]);
      if looks[i].cancelled {
        continue;
      }
      ghost var rest := Grants(Bursts(criticalBurst, recoveryBurst), looks[i..]);
      ghost var before := grants;
      grants := grants + [priority];
      match priority {
        case Critical => criticalBurst := criticalBurst + 1;
        case Recovery => criticalBurst, recoveryBurst := 0, recoveryBurst + 1;
        case Regular => criticalBurst, recoveryBurst := 0, 0;
      }
      assert rest == [priority] + Grants(Bursts(criticalBurst, recoveryBurst), looks[i + 1..]);
      assert before + rest == grants + Grants(Bursts(criticalBurst, recoveryBurst), looks[i + 1..]);
    }
    assert looks[|looks|..] == [];
  }
}
