/**
 Connected chat accounts and their sources: every source of a user holds one of 20 slots, kept while it
 exists. Each operation is one transaction.
 */
module ChatSources {
  import opened Base
  import Newest

  const MAX_SOURCES := 20

  type User = nat
  type Provider = nat
  type ConnectionId = nat

  datatype Key = Key(user: User, provider: Provider, sourceId: string)

  datatype Connection = Connection(user: User, provider: Provider, account: string, version: nat, usable: bool)

  datatype Source = Source(connection: ConnectionId, position: nat, enabled: bool)

  datatype Tables = Tables(connections: map<ConnectionId, Connection>, sources: map<Key, Source>,
                           nextConnection: ConnectionId)

  const EMPTY := Tables(map[], map[], 0)

  datatype Failure = UnknownProvider | ProvidersDiffer | ConnectedElsewhere | LimitReached

  predicate Known(provider: Provider) { provider < 5 }

  function KeysOf(t: Tables, user: User): set<Key> {
    set k | k in t.sources && k.user == user
  }

  /** The slots a user's sources hold. */
  function Taken(t: Tables, user: User): set<nat> {
    set k | k in KeysOf(t, user) :: t.sources[k].position
  }

  // ---------------------------------------------------------------------------------------------
  // Transactions
  // ---------------------------------------------------------------------------------------------

  function HasSourceCapacity(t: Tables, key: Key): Result<bool, Failure> {
    if !Known(key.provider) then Err(UnknownProvider)
    else Ok(key in t.sources || |KeysOf(t, key.user)| < MAX_SOURCES)
  }

  /** The saved connection of a provider account, of whichever user. */
  ghost predicate IsAccount(t: Tables, id: ConnectionId, provider: Provider, account: string) {
    id in t.connections && t.connections[id].provider == provider && t.connections[id].account == account
  }

  ghost predicate HasAccount(t: Tables, provider: Provider, account: string) {
    exists id :: IsAccount(t, id, provider, account)
  }

  ghost function AccountId(t: Tables, provider: Provider, account: string): (id: ConnectionId)
    requires HasAccount(t, provider, account)
    ensures IsAccount(t, id, provider, account)
  {
    var id :| IsAccount(t, id, provider, account);
    id
  }

  /** Inserting or updating the account's connection; only its owner may update it. */
  ghost function SaveConnection(t: Tables, user: User, provider: Provider, account: string)
    : Result<(Tables, ConnectionId), Failure>
  {
    if !HasAccount(t, provider, account) then
      var id := t.nextConnection;
      Ok((t.(connections := t.connections[id := Connection(user, provider, account, 1, true)],
             nextConnection := id + 1), id))
    else
      var id := AccountId(t, provider, account);
      var c := t.connections[id];
      if c.user != user then Err(ConnectedElsewhere)
      else Ok((t.(connections := t.connections[id := c.(version := c.version + 1, usable := true)]), id))
  }

  /** The first slot at or after `from` that nothing holds. */
  function FreeSlot(taken: set<nat>, from: nat): Option<nat>
    decreases MAX_SOURCES - from
  {
    if from >= MAX_SOURCES then None
    else if from !in taken then Some(from)
    else FreeSlot(taken, from + 1)
  }

  /** An existing source keeps its slot, a new one takes the lowest free one. */
  function SlotFor(t: Tables, key: Key): Option<nat> {
    if key in t.sources then Some(t.sources[key].position) else FreeSlot(Taken(t, key.user), 0)
  }

  ghost function SaveProviderAccount(t: Tables, user: User, provider: Provider, account: string,
                                     sourceProvider: Provider, sourceId: string): Result<Tables, Failure> {
    if !Known(provider) then Err(UnknownProvider)
    else if provider != sourceProvider then Err(ProvidersDiffer)
    else
      match SaveConnection(t, user, provider, account)
      case Err(e) => Err(e)
      case Ok((t1, id)) =>
        var key := Key(user, sourceProvider, sourceId);
        match SlotFor(t1, key)
        case None => Err(LimitReached)
        case Some(slot) => Ok(t1.(sources := t1.sources[key := Source(id, slot, true)]))
  }

  /** Deleting a connection deletes its sources with it. */
  function Disconnect(t: Tables, user: User, id: ConnectionId): Tables {
    if id in t.connections && t.connections[id].user == user then
      t.(connections := map c | c in t.connections && c != id :: t.connections[c],
         sources := map k | k in t.sources && t.sources[k].connection != id :: t.sources[k])
    else t
  }

  function SetSourceEnabled(t: Tables, key: Key, enabled: bool): Tables {
    if key in t.sources then t.(sources := t.sources[key := t.sources[key].(enabled := enabled)]) else t
  }

  // ---------------------------------------------------------------------------------------------
  // Invariant
  // ---------------------------------------------------------------------------------------------

  ghost predicate Inv(t: Tables) {
    && (forall id | id in t.connections :: id < t.nextConnection)
    && (forall a, b | a in t.connections && b in t.connections ::
          && t.connections[a].provider == t.connections[b].provider
          && t.connections[a].account == t.connections[b].account
          ==> a == b)
    && (forall k | k in t.sources :: Placed(t, k))
    && (forall j, k | j in t.sources && k in t.sources ::
          j.user == k.user && t.sources[j].position == t.sources[k].position ==> j == k)
  }

  /** A source holds one of the slots and belongs to a connection of its own user and provider. */
  predicate Placed(t: Tables, k: Key) {
    && k in t.sources
    && t.sources[k].position < MAX_SOURCES
    && t.sources[k].connection in t.connections
    && t.connections[t.sources[k].connection].user == k.user
    && t.connections[t.sources[k].connection].provider == k.provider
  }

  lemma {:induction false} FreeSlotMeans(taken: set<nat>, from: nat)
    ensures var r := FreeSlot(taken, from);
            match r
            case None => forall s | from <= s < MAX_SOURCES :: s in taken
            case Some(slot) => from <= slot < MAX_SOURCES && slot !in taken && forall s | from <= s < slot :: s in taken
    decreases MAX_SOURCES - from
  {
    if from < MAX_SOURCES && from in taken {
      FreeSlotMeans(taken, from + 1);
    }
  }

  // ---------------------------------------------------------------------------------------------
  // Pigeonhole
  // ---------------------------------------------------------------------------------------------

  function Slots(n: nat): (s: set<nat>)
    ensures |s| == n && forall i :: i in s <==> 0 <= i < n
  {
    if n == 0 then {} else Slots(n - 1) + {n - 1}
  }

  function Positions(t: Tables, keys: set<Key>): set<nat>
    requires forall k | k in keys :: k in t.sources
  {
    set k | k in keys :: t.sources[k].position
  }

  /** Distinct sources of one user hold distinct slots, so they are as many. */
  lemma {:induction false} AsManySlots(t: Tables, user: User, keys: set<Key>)
    requires Inv(t) && keys <= KeysOf(t, user)
    ensures |Positions(t, keys)| == |keys|
    decreases |keys|
  {
    if keys != {} {
      var k :| k in keys;
      AsManySlots(t, user, keys - {k});
      assert Positions(t, keys) == Positions(t, keys - {k}) + {t.sources[k].position};
      assert t.sources[k].position !in Positions(t, keys - {k});
    } else {
      assert Positions(t, keys) == {};
    }
  }

  /** A user with fewer than 20 sources has a free slot, and one with 20 has none. */
  lemma SlotFreeIff(t: Tables, user: User)
    requires Inv(t)
    ensures |KeysOf(t, user)| <= MAX_SOURCES
    ensures FreeSlot(Taken(t, user), 0).Some? <==> |KeysOf(t, user)| < MAX_SOURCES
  {
    hide Taken, KeysOf, Inv;
    TakenSize(t, user);
    FreeIff(Taken(t, user));
  }

  lemma FreeIff(taken: set<nat>)
    requires taken <= Slots(MAX_SOURCES)
    ensures |taken| <= MAX_SOURCES && (FreeSlot(taken, 0).Some? <==> |taken| < MAX_SOURCES)
  {
    hide FreeSlot, Slots;
    FreeSlotMeans(taken, 0);
    var all := Slots(MAX_SOURCES);
    Newest.SubsetSize(taken, all);
    if FreeSlot(taken, 0).None? {
      assert taken == all;
    } else {
      assert FreeSlot(taken, 0).value in all && FreeSlot(taken, 0).value !in taken;
    }
  }

  lemma TakenSize(t: Tables, user: User)
    requires Inv(t)
    ensures |Taken(t, user)| == |KeysOf(t, user)| && Taken(t, user) <= Slots(MAX_SOURCES)
  {
    AsManySlots(t, user, KeysOf(t, user));
    assert Taken(t, user) == Positions(t, KeysOf(t, user));
    assert forall k | k in KeysOf(t, user) :: Placed(t, k);
  }

  /** The capacity check tells exactly whether saving the account on the same tables finds a slot. */
  lemma CapacityIsSlot(t: Tables, user: User, provider: Provider, account: string, sourceId: string)
    requires Inv(t) && Known(provider)
    requires HasAccount(t, provider, account) ==> t.connections[AccountId(t, provider, account)].user == user
    ensures var key := Key(user, provider, sourceId);
            var saved := SaveProviderAccount(t, user, provider, account, provider, sourceId);
            && (HasSourceCapacity(t, key) == Ok(true) <==> saved.Ok?)
            && (HasSourceCapacity(t, key) == Ok(false) <==> saved == Err(LimitReached))
  {
    var t1 := SaveConnection(t, user, provider, account).value.0;
    assert KeysOf(t1, user) == KeysOf(t, user) && Taken(t1, user) == Taken(t, user);
    SlotFreeIff(t, user);
  }

  // ---------------------------------------------------------------------------------------------
  // Every transaction keeps the slots distinct
  // ---------------------------------------------------------------------------------------------

  lemma SaveConnectionInv(t: Tables, user: User, provider: Provider, account: string)
    requires Inv(t) && SaveConnection(t, user, provider, account).Ok?
    ensures var (t1, id) := SaveConnection(t, user, provider, account).value;
            && Inv(t1) && t1.sources == t.sources
            && id in t1.connections && t1.connections[id].user == user && t1.connections[id].provider == provider
  {
    var (t1, id) := SaveConnection(t, user, provider, account).value;
    forall c | c in t.connections && t.connections[c].provider == provider && t.connections[c].account == account
      ensures HasAccount(t, provider, account) && c == id
    {
      assert IsAccount(t, c, provider, account);
    }
    forall k | k in t1.sources ensures Placed(t1, k) {
      assert Placed(t, k);
    }
  }

  /** A successful save is a saved connection and one placed source. */
  lemma SaveIsPlacing(t: Tables, user: User, provider: Provider, account: string, sourceProvider: Provider,
                      sourceId: string)
    returns (t1: Tables, id: ConnectionId, slot: nat)
    requires Inv(t) && SaveProviderAccount(t, user, provider, account, sourceProvider, sourceId).Ok?
    ensures var key := Key(user, sourceProvider, sourceId);
            && SaveProviderAccount(t, user, provider, account, sourceProvider, sourceId).value ==
               t1.(sources := t.sources[key := Source(id, slot, true)])
            && Inv(t1) && t1.sources == t.sources && SlotFor(t1, key) == Some(slot)
            && id in t1.connections && t1.connections[id].user == user && t1.connections[id].provider == sourceProvider
  {
    SaveConnectionInv(t, user, provider, account);
    var saved := SaveConnection(t, user, provider, account).value;
    t1, id := saved.0, saved.1;
    hide Inv, SaveConnection;
    slot := SlotFor(t1, Key(user, sourceProvider, sourceId)).value;
  }

  /** Saving puts one source on a slot of its own and moves no other; the tables stay well formed. */
  lemma SaveKeepsSlots(t: Tables, user: User, provider: Provider, account: string, sourceProvider: Provider,
                       sourceId: string)
    requires Inv(t) && SaveProviderAccount(t, user, provider, account, sourceProvider, sourceId).Ok?
    ensures var u := SaveProviderAccount(t, user, provider, account, sourceProvider, sourceId).value;
            var key := Key(user, sourceProvider, sourceId);
            && Inv(u) && u.sources.Keys == t.sources.Keys + {key} && u.sources[key].enabled
            && (forall k | k in t.sources ::
                  u.sources[k].position == t.sources[k].position && (k != key ==> u.sources[k] == t.sources[k]))
            && (key !in t.sources ==> forall s | 0 <= s < u.sources[key].position :: s in Taken(t, user))
  {
    hide SaveProviderAccount, Inv, FreeSlot;
    var t1, id, slot := SaveIsPlacing(t, user, provider, account, sourceProvider, sourceId);
    assert Taken(t1, user) == Taken(t, user);
    FreeSlotMeans(Taken(t, user), 0);
    PlaceInv(t1, Key(user, sourceProvider, sourceId), id, slot);
  }

  lemma PlaceInv(t: Tables, key: Key, id: ConnectionId, slot: nat)
    requires Inv(t) && id in t.connections
    requires t.connections[id].user == key.user && t.connections[id].provider == key.provider
    requires SlotFor(t, key) == Some(slot)
    ensures Inv(t.(sources := t.sources[key := Source(id, slot, true)]))
  {
    var u := t.(sources := t.sources[key := Source(id, slot, true)]);
    hide FreeSlot;
    FreeSlotMeans(Taken(t, key.user), 0);
    forall k | k in u.sources ensures Placed(u, k) {
      assert k in t.sources ==> Placed(t, k);
    }
    if key !in t.sources {
      forall k | k in t.sources && k.user == key.user ensures t.sources[k].position != slot {
        assert k in KeysOf(t, key.user) && t.sources[k].position in Taken(t, key.user);
      }
    }
  }

  lemma DisconnectKeepsSlots(t: Tables, user: User, id: ConnectionId)
    requires Inv(t)
    ensures Inv(Disconnect(t, user, id))
    ensures forall k | k in Disconnect(t, user, id).sources ::
              k in t.sources && Disconnect(t, user, id).sources[k] == t.sources[k]
  {
    var u := Disconnect(t, user, id);
    forall k | k in u.sources ensures Placed(u, k) {
      assert Placed(t, k);
    }
  }

  datatype Event =
    | Save(user: User, provider: Provider, account: string, sourceProvider: Provider, sourceId: string)
    | Leave(user: User, id: ConnectionId)
    | Toggle(key: Key, enabled: bool)
    | MarkUnusable(id: ConnectionId, version: nat)
    | UpdateCredentials(id: ConnectionId, version: nat)

  ghost function Next(t: Tables, e: Event): Tables {
    match e
    case Save(user, provider, account, sourceProvider, sourceId) =>
      var r := SaveProviderAccount(t, user, provider, account, sourceProvider, sourceId);
      if r.Ok? then r.value else t
    case Leave(user, id) => Disconnect(t, user, id)
    case Toggle(key, enabled) => SetSourceEnabled(t, key, enabled)
    case MarkUnusable(id, version) =>
      if id in t.connections && t.connections[id].version == version
      then t.(connections := t.connections[id := t.connections[id].(usable := false)]) else t
    case UpdateCredentials(id, version) =>
      if id in t.connections && t.connections[id].version == version
      then t.(connections := t.connections[id := t.connections[id].(version := version + 1, usable := true)]) else t
  }

  lemma StepInv(t: Tables, e: Event)
    requires Inv(t)
    ensures Inv(Next(t, e))
  {
    match e
    case Save(user, provider, account, sourceProvider, sourceId) =>
      if SaveProviderAccount(t, user, provider, account, sourceProvider, sourceId).Ok? {
        SaveKeepsSlots(t, user, provider, account, sourceProvider, sourceId);
      }
    case Leave(user, id) => DisconnectKeepsSlots(t, user, id);
    case Toggle(_, _) => OnlyFlags(t, Next(t, e));
    case MarkUnusable(_, _) => OnlyFlags(t, Next(t, e));
    case UpdateCredentials(_, _) => OnlyFlags(t, Next(t, e));
  }

  lemma OnlyFlags(t: Tables, u: Tables)
    requires Inv(t) && u.nextConnection == t.nextConnection
    requires u.connections.Keys == t.connections.Keys && u.sources.Keys == t.sources.Keys
    requires forall id | id in t.connections ::
               && u.connections[id].user == t.connections[id].user
               && u.connections[id].provider == t.connections[id].provider
               && u.connections[id].account == t.connections[id].account
    requires forall k | k in t.sources ::
               u.sources[k].connection == t.sources[k].connection && u.sources[k].position == t.sources[k].position
    ensures Inv(u)
  {
    forall k | k in u.sources ensures Placed(u, k) {
      assert Placed(t, k);
    }
  }

  ghost predicate Run(ts: seq<Tables>, es: seq<Event>) {
    && |ts| == |es| + 1 && ts[0] == EMPTY
    && forall i | 0 <= i < |es| :: ts[i + 1] == Next(ts[i], es[i])
  }

  /** In every reachable state no user has more than 20 sources, and each holds its own slot of 0..19. */
  lemma {:induction false} SlotsStayDistinct(ts: seq<Tables>, es: seq<Event>, i: nat, user: User)
    requires Run(ts, es) && i < |ts|
    ensures Inv(ts[i]) && |KeysOf(ts[i], user)| <= MAX_SOURCES
    ensures forall j, k | j in KeysOf(ts[i], user) && k in KeysOf(ts[i], user) && j != k ::
              ts[i].sources[j].position != ts[i].sources[k].position
    ensures forall k | k in KeysOf(ts[i], user) :: ts[i].sources[k].position < MAX_SOURCES
  {
    if i > 0 {
      SlotsStayDistinct(ts, es, i - 1, user);
      StepInv(ts[i - 1], es[i - 1]);
    }
    SlotFreeIff(ts[i], user);
    assert forall k | k in KeysOf(ts[i], user) :: Placed(ts[i], k);
  }
}

/** The store whose transactions these are, updating its tables in place. */
module ChatStore {
  import opened Base
  import opened ChatSources
  import T = ChatSources

  class Store {
    var connections: map<ConnectionId, Connection>
    var sources: map<Key, Source>
    var nextConnection: ConnectionId

    function View(): Tables
      reads this
    {
      Tables(connections, sources, nextConnection)
    }

    constructor ()
      ensures View() == EMPTY
    {
      connections, sources, nextConnection := map[], map[], 0;
    }

    method FindAccount(provider: Provider, account: string) returns (found: bool, id: ConnectionId)
      ensures found <==> HasAccount(View(), provider, account)
      ensures found ==> IsAccount(View(), id, provider, account)
    {
      var ids := connections.Keys;
      while ids != {}
        invariant ids <= connections.Keys
        invariant forall k | k in connections && k !in ids :: !IsAccount(View(), k, provider, account)
        decreases |ids|
      {
        id :| id in ids;
        if connections[id].provider == provider && connections[id].account == account {
          assert IsAccount(View(), id, provider, account);
          return true, id;
        }
        ids := ids - {id};
      }
      return false, 0;
    }

    /** The lowest slot none of the user's sources holds. */
    method LowestFreeSlot(user: User) returns (slot: Option<nat>)
      ensures slot == FreeSlot(Taken(View(), user), 0)
    {
      var taken := set k | k in sources && k.user == user :: sources[k].position;
      assert taken == Taken(View(), user);
      for s := 0 to MAX_SOURCES
        invariant FreeSlot(taken, 0) == FreeSlot(taken, s)
      {
        if s !in taken {
          return Some(s);
        }
      }
      return None;
    }

    method HasSourceCapacity(key: Key) returns (r: Result<bool, Failure>)
      ensures r == T.HasSourceCapacity(View(), key)
    {
      if !Known(key.provider) {
        return Err(UnknownProvider);
      }
      var count := |set k | k in sources && k.user == key.user|;
      return Ok(key in sources || count < MAX_SOURCES);
    }

    /** A failed transaction leaves the tables as they were. */
    method SaveProviderAccount(user: User, provider: Provider, account: string, sourceProvider: Provider,
                               sourceId: string)
      returns (failure: Option<Failure>)
      requires Inv(View())
      modifies this
      ensures Inv(View())
      ensures match T.SaveProviderAccount(old(View()), user, provider, account, sourceProvider, sourceId)
              case Ok(t) => failure == None && View() == t
              case Err(e) => failure == Some(e) && View() == old(View())
    {
      if !Known(provider) {
        return Some(UnknownProvider);
      }
      if provider != sourceProvider {
        return Some(ProvidersDiffer);
      }
      ghost var before := View();
      var found, id := FindAccount(provider, account);
      var saved: Connection;
      if found {
        saved := connections[id];
        if saved.user != user {
          return Some(ConnectedElsewhere);
        }
        saved := saved.(version := saved.version + 1, usable := true);
      } else {
        id := nextConnection;
        saved := Connection(user, provider, account, 1, true);
      }
      ghost var t1 := SaveConnection(before, user, provider, account).value;
      assert t1.1 == id && t1.0.connections == connections[id := saved];
      var key := Key(user, sourceProvider, sourceId);
      assert Taken(t1.0, user) == Taken(before, user);
      var position := None;
      if key in sources {
        position := Some(sources[key].position);
      } else {
        position := LowestFreeSlot(user);
      }
      if position.None? {
        return Some(LimitReached);
      }
      connections := connections[id := saved];
      sources := sources[key := Source(id, position.value, true)];
      if !found {
        nextConnection := id + 1;
      }
      SaveKeepsSlots(before, user, provider, account, sourceProvider, sourceId);
      return None;
    }

    method Disconnect(user: User, id: ConnectionId)
      requires Inv(View())
      modifies this
      ensures Inv(View()) && View() == T.Disconnect(old(View()), user, id)
    {
      DisconnectKeepsSlots(View(), user, id);
      if id in connections && connections[id].user == user {
        connections := map c | c in connections && c != id :: connections[c];
        sources := map k | k in sources && sources[k].connection != id :: sources[k];
      }
    }
  }
}
