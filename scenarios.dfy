/** Client-side consequences of the store's and the scheduler's contracts: sequences
    of calls as the page and the worker issue them. */
module Scenarios {
  import opened Types
  import opened Seqs
  import opened PortfolioStore
  import opened TokenUpdater

  /** A refresh that lands after the token was removed does not bring it back. */
  method RemoveThenRefresh(store: Store, address: string, data: Patch)
    requires DistinctKeys(data)
    modifies store
    ensures store.tokens == old(store.tokens) - {address}
    ensures address !in store.tokens
  {
    store.RemoveToken(address);
    store.UpdateTokenData(address, data);
  }

  /** Adding a token and then removing it leaves an empty store empty. */
  method AddThenRemove(store: Store, address: string, data: TokenData, entryPrice: real, now: int)
    requires store.tokens == map[]
    modifies store
    ensures store.tokens == map[]
  {
    store.AddToken(address, data, entryPrice, now);
    assert store.tokens.Keys == {address};
    assert store.tokens[address].entryData.price == entryPrice;
    store.RemoveToken(address);
  }

  /** A group can list an address that is not tracked, and adding it twice lists it once. */
  method GroupWithUntrackedMember(store: Store, name: string, address: string, now: nat)
    requires address !in store.tokens
    modifies store
    ensures var id := GroupId(now);
      id in store.groups && store.groups[id].tokens == Some([address])
    ensures address !in store.tokens
  {
    store.CreateGroup(name, None, now);
    ghost var created := store.groups[GroupId(now)];
    assert created.tokens == Some([]);
    store.AddTokenToGroup(GroupId(now), address);
    assert AddUnique([], address) == [address];
    assert store.groups[GroupId(now)] == AddMember(created, address);
    store.AddTokenToGroup(GroupId(now), address);
  }

  /** The group list's delete button, `removeGroup(group.id)` for a group it shows, takes
      exactly that group off the list. */
  method RemoveShownGroup(store: Store, g: TokenGroup)
    requires store.Valid() && g in store.groups.Values
    modifies store
    ensures store.groups == old(store.groups) - {g.id}
    ensures g !in store.groups.Values && store.Valid()
  {
    store.RemoveGroup(g.id);
  }

  /** Removing a listed member lowers the group's shown token count by exactly one. */
  method RemoveListedMember(store: Store, groupId: string, address: string)
    requires store.Valid() && groupId in store.groups && store.groups[groupId].tokens.Some?
    requires address in store.groups[groupId].tokens.value
    modifies store
    ensures groupId in store.groups && store.groups[groupId].tokens.Some?
    ensures |store.groups[groupId].tokens.value| == |old(store.groups[groupId].tokens.value)| - 1
    ensures store.Valid()
  {
    ghost var list := store.groups[groupId].tokens.value;
    store.RemoveTokenFromGroup(groupId, address);
    RemoveAllOne(list, address);
  }

  /** A manual refresh merges the fetched data plus the current note and keeps the entry
      data, as the page's refresh button does. */
  method ManualRefresh(store: Store, address: string, data: TokenData)
    requires address in store.tokens
    modifies store
    ensures store.tokens == old(store.tokens)[address := EntryOf(data, old(store.tokens)[address].note,
                                                               old(store.tokens)[address].entryData)]
  {
    var note := store.tokens[address].note;
    var patch := RefreshPatch(data, note);
    ghost var e := store.tokens[address];
    store.UpdateTokenData(address, patch);
    ghost var r := store.tokens[address];
    RefreshMerge(e, data, note, r);
  }

  /** `{ ...data, note }`: the seven market keys, then `note`. */
  function RefreshPatch(d: TokenData, note: Option<string>): Patch {
    MarketPatch(d) + [NoteField(note)]
  }

  /** The eight keys of the refresh patch. */
  lemma RefreshKeys(d: TokenData, note: Option<string>)
    ensures KeysOf(RefreshPatch(d, note))
            == {BaseTokenKey, PriceUsdKey, PriceChangeKey, VolumeKey, TxnsKey, MarketCapKey,
                InfoKey, NoteKey}
  {
    var patch := RefreshPatch(d, note);
    assert patch[..7] == MarketPatch(d) && patch[..8] == patch;
    MarketKeys(d);
    KeysOfPrefix(patch, 7);
  }

  /** The expected entry is a merge of the refresh patch. */
  lemma RefreshIsMerge(e: TokenEntry, d: TokenData, note: Option<string>)
    ensures IsMerge(e, RefreshPatch(d, note), EntryOf(d, note, e.entryData))
  {
    RefreshKeys(d, note);
  }

  /** Merging fetched data plus a note sets the market fields and the note and keeps the
      entry data. */
  lemma RefreshMerge(e: TokenEntry, d: TokenData, note: Option<string>, r: TokenEntry)
    requires IsMerge(e, RefreshPatch(d, note), r)
    ensures r == EntryOf(d, note, e.entryData)
  {
    RefreshIsMerge(e, d, note);
    MergeUnique(e, RefreshPatch(d, note), r, EntryOf(d, note, e.entryData));
  }

  /** A fresh scheduler queues a token once however often the worker names it, and a
      cycle at a time past the interval fetches it and drops it from the queue; the token
      is stamped unless its fetch threw. */
  method FirstCycle(tokens: map<string, TokenData>, address: string, now: int,
                    fetch: string -> FetchOutcome) returns (u: UpdateStore)
    requires tokens.Keys == {address}
    requires now > DefaultInterval
    ensures u.fetchQueue == [] && u.updateInterval == DefaultInterval
    ensures fetch(address).Threw? ==> u.lastUpdated == map[]
    ensures !fetch(address).Threw? ==> u.lastUpdated == map[address := now]
  {
    u := new UpdateStore();
    EnqueueSpec([], address);
    u.QueueTokenUpdate(address);
    EnqueueIdempotent([], address);
    u.QueueTokenUpdate(address);
    assert u.fetchQueue == [address];
    assert Due(map[], DefaultInterval, address, now);
    assert [address][1..] == [];
    assert DueFilter([address], map[], DefaultInterval, now) == [address];
    assert Batch([address], map[], DefaultInterval, now) == [address];
    u.UpdateTokens(tokens, now, fetch);
    assert u.fetchQueue == RemoveAll([address], [address]);
    assert u.lastUpdated == Stamped(map[], [address], fetch, now);
  }
}
