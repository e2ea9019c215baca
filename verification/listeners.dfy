/**
 The supervisor's map of running listeners, updated in place: one pass over all connections, and the
 removal of completed listeners. The interleaving with the listeners themselves is in Supervisor.
 */
module Listeners {
  import S = Supervisor

  type UserId = nat

  datatype Row = Row(user: UserId, connection: S.Connection)

  /** The version a listener publishes. The object itself is the listener's identity. */
  class SharedVersion {
    var value: nat

    constructor (version: nat)
      ensures value == version
    {
      value := version;
    }
  }

  datatype Running = Running(version: SharedVersion, account: nat, connectedAt: nat)

  /** The row is no longer the one this listener serves. */
  ghost predicate ReplacedBy(l: Running, c: S.Connection)
    reads l.version
  {
    S.Replaced(l.account, l.connectedAt, l.version.value, c)
  }

  lemma VersionsHold(running: map<UserId, Running>)
    ensures forall u | u in running :: running[u].version in Versions(running)
  {}

  /** The listener starts out with this row. */
  ghost predicate Serves(l: Running, c: S.Connection)
    reads l.version
  {
    l.account == c.account && l.connectedAt == c.connectedAt && l.version.value == c.tokenVersion
  }

  function Versions(running: map<UserId, Running>): set<SharedVersion> {
    set u | u in running :: running[u].version
  }

  predicate OneRowPerUser(rows: seq<Row>) {
    forall i, j | 0 <= i < j < |rows| :: rows[i].user != rows[j].user
  }

  predicate HasRow(rows: seq<Row>, user: UserId) {
    exists i :: 0 <= i < |rows| && rows[i].user == user
  }

  /** The pass keeps this user's listener. */
  ghost predicate Keeps(rows: seq<Row>, running: map<UserId, Running>, user: UserId)
    requires user in running
    reads running[user].version
  {
    exists i :: 0 <= i < |rows| && rows[i].user == user && !ReplacedBy(running[user], rows[i].connection)
  }

  class Integration {
    var running: map<UserId, Running>
    var cancelled: set<SharedVersion>

    /** Listeners are distinct, and none of the running ones is cancelled. */
    ghost predicate Valid()
      reads this
    {
      && (forall a, b | a in running && b in running :: running[a].version == running[b].version ==> a == b)
      && (forall a | a in running :: running[a].version !in cancelled)
    }

    constructor ()
      ensures Valid() && running == map[] && cancelled == {}
    {
      running, cancelled := map[], {};
    }

    /** A map from users to their rows. */
    method ByUser(rows: seq<Row>) returns (byUser: map<UserId, S.Connection>)
      requires OneRowPerUser(rows)
      ensures forall u :: u in byUser <==> HasRow(rows, u)
      ensures forall i | 0 <= i < |rows| :: rows[i].user in byUser && byUser[rows[i].user] == rows[i].connection
    {
      byUser := map[];
      for n := 0 to |rows|
        invariant forall u | u in byUser :: HasRow(rows, u)
        invariant forall i | 0 <= i < n :: rows[i].user in byUser && byUser[rows[i].user] == rows[i].connection
      {
        byUser := byUser[rows[n].user := rows[n].connection];
      }
    }

    method Cancel(user: UserId)
      requires Valid() && user in running
      modifies this
      ensures Valid()
      ensures running == old(running) - {user} && cancelled == old(cancelled) + {old(running)[user].version}
    {
      cancelled := cancelled + {running[user].version};
      running := running - {user};
    }

    method IsReplaced(user: UserId, c: S.Connection) returns (r: bool)
      requires user in running
      ensures r == ReplacedBy(running[user], c)
    {
      var l := running[user];
      return S.Replaced(l.account, l.connectedAt, l.version.value, c);
    }

    lemma RunningNotCancelled()
      requires Valid()
      ensures forall u | u in running :: running[u].version !in cancelled
    {}

    /** The users whose listener's row is gone or replaced. */
    ghost function Stale(byUser: map<UserId, S.Connection>): set<UserId>
      reads this, Versions(running)
    {
      set u | u in running && (u !in byUser || ReplacedBy(running[u], byUser[u]))
    }

    /** Cancels the listeners whose row is gone or replaced, and only them. */
    method CancelReplaced(byUser: map<UserId, S.Connection>)
      requires Valid()
      modifies this
      ensures Valid() && running == old(running) - old(Stale(byUser))
      ensures old(cancelled) <= cancelled <= old(cancelled) + Versions(old(running))
      ensures forall u | u in old(running) :: (old(running)[u].version in cancelled <==> u in old(Stale(byUser)))
    {
      hide Valid, Versions, S.Replaced, ReplacedBy;
      ghost var before, stale, all := running, Stale(byUser), Versions(running);
      RunningNotCancelled();
      assert forall u | u in before :: before[u].version in all by { VersionsHold(before); }
      var users := running.Keys;
      while users != {}
        invariant Valid() && users <= before.Keys
        invariant forall u :: u in running <==> u in before && (u in users || u !in stale)
        invariant forall u | u in running :: running[u] == before[u]
        invariant old(cancelled) <= cancelled <= old(cancelled) + all
        invariant forall u | u in before :: (u in stale <==> u !in byUser || ReplacedBy(before[u], byUser[u]))
        invariant forall u | u in stale && u !in users :: before[u].version in cancelled
        decreases |users|
      {
        var user :| user in users;
        users := users - {user};
        var replaced := user !in byUser;
        if !replaced {
          replaced := IsReplaced(user, byUser[user]);
        }
        assert replaced <==> user in stale;
        if replaced {
          Cancel(user);
        }
      }
      RunningNotCancelled();
    }

    method Start(user: UserId, c: S.Connection)
      requires Valid() && user !in running
      modifies this`running
      ensures Valid() && running.Keys == old(running).Keys + {user}
      ensures forall u | u in old(running) :: running[u] == old(running)[u]
      ensures fresh(running[user].version) && Serves(running[user], c)
    {
      var version := new SharedVersion(c.tokenVersion);
      running := running[user := Running(version, c.account, c.connectedAt)];
    }

    /** Starts a listener for every row whose user has none. */
    method StartMissing(rows: seq<Row>)
      requires Valid() && OneRowPerUser(rows)
      modifies this`running
      ensures Valid()
      ensures forall u | u in old(running) :: u in running && running[u] == old(running)[u]
      ensures forall u | u in running && u !in old(running) :: HasRow(rows, u) && fresh(running[u].version)
      ensures forall i | 0 <= i < |rows| :: rows[i].user in running
      ensures forall i | 0 <= i < |rows| && rows[i].user !in old(running) ::
                Serves(running[rows[i].user], rows[i].connection)
    {
      hide Valid;
      for n := 0 to |rows|
        invariant Valid()
        invariant forall u | u in old(running) :: u in running && running[u] == old(running)[u]
        invariant forall u | u in running && u !in old(running) :: fresh(running[u].version)
        invariant forall u | u in running && u !in old(running) :: exists i :: 0 <= i < n && rows[i].user == u
        invariant forall i | 0 <= i < n :: rows[i].user in running
        invariant forall i | 0 <= i < n && rows[i].user !in old(running) ::
                    Serves(running[rows[i].user], rows[i].connection)
      {
        var user, c := rows[n].user, rows[n].connection;
        if user in running {
          continue;
        }
        Start(user, c);
      }
    }

    /**
     One pass. Afterwards exactly the connected users have a listener. A listener stays, the very same one,
     exactly if its user is connected and the row does not replace it; every other old one is cancelled
     and nothing else; every new one is a new listener serving the row that was read.
     */
    method RefreshListeners(rows: seq<Row>)
      requires Valid() && OneRowPerUser(rows)
      modifies this
      ensures Valid() && old(cancelled) <= cancelled
      ensures forall u :: u in running <==> HasRow(rows, u)
      ensures forall u | u in old(running) && Keeps(rows, old(running), u) ::
                u in running && running[u] == old(running)[u]
      ensures forall u | u in running && !(u in old(running) && Keeps(rows, old(running), u)) ::
                fresh(running[u].version)
      ensures forall i | 0 <= i < |rows|
                         && !(rows[i].user in old(running) && Keeps(rows, old(running), rows[i].user)) ::
                rows[i].user in running && Serves(running[rows[i].user], rows[i].connection)
      ensures forall u | u in old(running) :: (old(running)[u].version in cancelled <==> !Keeps(rows, old(running), u))
      ensures cancelled <= old(cancelled) + Versions(old(running))
    {
      hide Valid, Versions, S.Replaced, ReplacedBy;
      var byUser := ByUser(rows);
      forall u | u in running
        ensures Keeps(rows, running, u) <==> u in byUser && !ReplacedBy(running[u], byUser[u])
      {
        if u in byUser {
          var i :| 0 <= i < |rows| && rows[i].user == u;
          assert rows[i].connection == byUser[u];
        }
      }
      assert forall u | u in running :: u in Stale(byUser) <==> !Keeps(rows, running, u);
      CancelReplaced(byUser);
      StartMissing(rows);
    }

    /** A completed listener leaves the map only if it still is the user's listener. */
    method Complete(user: UserId, version: SharedVersion)
      requires Valid()
      modifies this`running
      ensures Valid()
      ensures running == map u | u in old(running) && !(u == user && old(running)[u].version == version) ::
                old(running)[u]
    {
      if user in running && running[user].version == version {
        running := map u | u in running && u != user :: running[u];
      }
    }
  }
}
