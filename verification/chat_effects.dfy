/**
 What every transaction on chat accounts and sources does, in columns: when a save fails and why, what it writes
 otherwise, and what the other transactions change.
 */
module ChatEffects {
  import opened Base
  import opened ChatSources

  /** Somebody has connected the account. */
  predicate Connects(t: Tables, id: ConnectionId, user: User, provider: Provider, account: string) {
    && id in t.connections && t.connections[id].user == user
    && t.connections[id].provider == provider && t.connections[id].account == account
  }

  ghost predicate TakenByAnother(t: Tables, user: User, provider: Provider, account: string) {
    exists id, other :: other != user && Connects(t, id, other, provider, account)
  }

  /** The source is new, and its user has twenty. */
  predicate Full(t: Tables, key: Key) {
    key !in t.sources && |set k | k in t.sources && k.user == key.user| >= 20
  }

  /** Whose the account is, before and after. */
  lemma ConnectionSaved(t: Tables, user: User, provider: Provider, account: string)
    requires Inv(t)
    ensures var r := SaveConnection(t, user, provider, account);
            && (r.Err? <==> TakenByAnother(t, user, provider, account))
            && (r.Err? ==> r.error == ConnectedElsewhere)
            && (r.Ok? ==>
                  var (t1, id) := r.value;
                  && t1.sources == t.sources
                  && (forall c | c in t1.connections && c != id ::
                        c in t.connections && t1.connections[c] == t.connections[c])
                  && t.connections.Keys <= t1.connections.Keys && id in t1.connections
                  && (id in t.connections ==>
                        && Connects(t, id, user, provider, account)
                        && t1.connections[id]
                           == Connection(user, provider, account, t.connections[id].version + 1, true))
                  && (id !in t.connections ==>
                        && id == t.nextConnection && !HasAccount(t, provider, account)
                        && t1.connections[id] == Connection(user, provider, account, 1, true)))
  {
    assert forall c, other | Connects(t, c, other, provider, account) :: IsAccount(t, c, provider, account);
    if HasAccount(t, provider, account) {
      var id := AccountId(t, provider, account);
      assert Connects(t, id, t.connections[id].user, provider, account);
    }
  }

  /** A save fails for exactly these reasons, looked at in this order. */
  lemma SaveFailsIff(t: Tables, user: User, provider: Provider, account: string, sourceProvider: Provider,
                     sourceId: string)
    requires Inv(t)
    ensures var r := SaveProviderAccount(t, user, provider, account, sourceProvider, sourceId);
            if provider >= 5 then r == Err(UnknownProvider)
            else if provider != sourceProvider then r == Err(ProvidersDiffer)
            else if TakenByAnother(t, user, provider, account) then r == Err(ConnectedElsewhere)
            else if Full(t, Key(user, sourceProvider, sourceId)) then r == Err(LimitReached)
            else r.Ok?
  {
    ConnectionSaved(t, user, provider, account);
    SlotFreeIff(t, user);
    hide Inv, FreeSlot, SaveConnection, TakenByAnother, IsAccount, HasAccount;
    assert (set k | k in t.sources && k.user == user) == KeysOf(t, user);
    if SaveConnection(t, user, provider, account).Ok? {
      var t1 := SaveConnection(t, user, provider, account).value.0;
      assert KeysOf(t1, user) == KeysOf(t, user) && Taken(t1, user) == Taken(t, user);
    }
  }

  /** What a successful save writes: the account's connection with its next version, and one source on its slot. */
  lemma SaveWrites(t: Tables, user: User, provider: Provider, account: string, sourceProvider: Provider,
                   sourceId: string)
    returns (id: ConnectionId)
    requires Inv(t) && SaveProviderAccount(t, user, provider, account, sourceProvider, sourceId).Ok?
    ensures var u := SaveProviderAccount(t, user, provider, account, sourceProvider, sourceId).value;
            var key := Key(user, sourceProvider, sourceId);
            && id in u.connections
            && u.connections[id]
               == Connection(user, provider, account, if id in t.connections then t.connections[id].version + 1 else 1,
                             true)
            && (id in t.connections <==> exists c :: Connects(t, c, user, provider, account))
            && (forall c | c != id :: c in u.connections <==> c in t.connections)
            && (forall c | c in t.connections && c != id :: u.connections[c] == t.connections[c])
            && key in u.sources && u.sources[key].connection == id && u.sources[key].enabled
            && (key in t.sources ==> u.sources[key].position == t.sources[key].position)
            && (forall k | k != key :: k in u.sources <==> k in t.sources)
            && (forall k | k in t.sources && k != key :: u.sources[k] == t.sources[k])
  {
    ConnectionSaved(t, user, provider, account);
    var saved := SaveConnection(t, user, provider, account).value;
    id := saved.1;
    assert forall c | Connects(t, c, user, provider, account) :: IsAccount(t, c, provider, account);
    hide Inv, FreeSlot, SaveConnection, TakenByAnother, Taken;
  }

  /** Disconnecting deletes the user's own connection with exactly the sources it carries; of another user's it
      changes nothing. */
  lemma DisconnectWrites(t: Tables, user: User, id: ConnectionId)
    ensures var u, own := Disconnect(t, user, id), id in t.connections && t.connections[id].user == user;
            && (!own ==> u == t)
            && (own ==>
                  && (forall c :: c in u.connections <==> c in t.connections && c != id)
                  && (forall c | c in u.connections :: u.connections[c] == t.connections[c])
                  && (forall k :: k in u.sources <==> k in t.sources && t.sources[k].connection != id)
                  && (forall k | k in u.sources :: u.sources[k] == t.sources[k]))
  {}

  /** The other transactions change one column, under their guard. */
  lemma FlagsWritten(t: Tables, e: Event, key: Key, id: ConnectionId)
    requires e.Toggle? || e.MarkUnusable? || e.UpdateCredentials?
    ensures var u := Next(t, e);
            && u.sources.Keys == t.sources.Keys && u.connections.Keys == t.connections.Keys
            && (key in t.sources ==>
                  u.sources[key] == if e.Toggle? && e.key == key then t.sources[key].(enabled := e.enabled)
                                    else t.sources[key])
            && (id in t.connections ==>
                  var c := t.connections[id];
                  u.connections[id] ==
                    if e == MarkUnusable(id, c.version) then c.(usable := false)
                    else if e == UpdateCredentials(id, c.version) then c.(version := c.version + 1, usable := true)
                    else c)
  {}

  /** There is room exactly for a source that exists, and for a new one of a user with fewer than twenty. */
  lemma CapacityIs(t: Tables, key: Key)
    ensures HasSourceCapacity(t, key) == if key.provider >= 5 then Err(UnknownProvider) else Ok(!Full(t, key))
  {
    assert (set k | k in t.sources && k.user == key.user) == KeysOf(t, key.user);
  }
}
