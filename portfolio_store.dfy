/** The portfolio store of store/use-portfolio-store.ts: a map from address to tracked
    token and a map from group id to group, with total mutations that do nothing on a
    missing key. `Date.now()` is the parameter `now`. */
module PortfolioStore {
  import opened Types
  import opened Seqs

  // ---------------------------------------------------------------------------
  // Partial token data and the per-key shallow merge

  /** The keys a token entry object can carry. */
  datatype Key = BaseTokenKey | PriceUsdKey | PriceChangeKey | VolumeKey | TxnsKey
               | MarketCapKey | InfoKey | NoteKey | EntryDataKey

  /** One own key of a partial-data object, with its value. A `note` key whose value is
      `undefined` is `NoteField(None)`. */
  datatype Field =
    | BaseTokenField(baseToken: BaseToken)
    | PriceUsdField(priceUsd: string)
    | PriceChangeField(priceChange: PriceChange)
    | VolumeField(volume: Volume)
    | TxnsField(txns: Txns)
    | MarketCapField(marketCap: real)
    | InfoField(info: Info)
    | NoteField(note: Option<string>)
    | EntryDataField(entryData: EntryData)

  /** A partial-data object as `Object.keys(data)` enumerates it, with the values. */
  type Patch = seq<Field>

  function KeyOf(f: Field): Key {
    match f
    case BaseTokenField(_) => BaseTokenKey
    case PriceUsdField(_) => PriceUsdKey
    case PriceChangeField(_) => PriceChangeKey
    case VolumeField(_) => VolumeKey
    case TxnsField(_) => TxnsKey
    case MarketCapField(_) => MarketCapKey
    case InfoField(_) => InfoKey
    case NoteField(_) => NoteKey
    case EntryDataField(_) => EntryDataKey
  }

  /** `entry[k]`, as a key/value pair. */
  function Project(e: TokenEntry, k: Key): (f: Field)
    ensures KeyOf(f) == k
  {
    match k
    case BaseTokenKey => BaseTokenField(e.baseToken)
    case PriceUsdKey => PriceUsdField(e.priceUsd)
    case PriceChangeKey => PriceChangeField(e.priceChange)
    case VolumeKey => VolumeField(e.volume)
    case TxnsKey => TxnsField(e.txns)
    case MarketCapKey => MarketCapField(e.marketCap)
    case InfoKey => InfoField(e.info)
    case NoteKey => NoteField(e.note)
    case EntryDataKey => EntryDataField(e.entryData)
  }

  /** `(token as any)[key] = data[key]` */
  function SetField(e: TokenEntry, f: Field): TokenEntry {
    match f
    case BaseTokenField(v) => e.(baseToken := v)
    case PriceUsdField(v) => e.(priceUsd := v)
    case PriceChangeField(v) => e.(priceChange := v)
    case VolumeField(v) => e.(volume := v)
    case TxnsField(v) => e.(txns := v)
    case MarketCapField(v) => e.(marketCap := v)
    case InfoField(v) => e.(info := v)
    case NoteField(v) => e.(note := v)
    case EntryDataField(v) => e.(entryData := v)
  }

  /** The keys of a partial-data object. */
  function KeysOf(p: Patch): set<Key> {
    set i | 0 <= i < |p| :: KeyOf(p[i])
  }

  /** An object never has the same own key twice. */
  predicate DistinctKeys(p: Patch) {
    forall i, j :: 0 <= i < j < |p| ==> KeyOf(p[i]) != KeyOf(p[j])
  }

  /** `r` is `e` shallow-merged with `p`: each key of `p` holds `p`'s value, every other
      key keeps `e`'s value. */
  ghost predicate IsMerge(e: TokenEntry, p: Patch, r: TokenEntry) {
    && (forall i :: 0 <= i < |p| ==> Project(r, KeyOf(p[i])) == p[i])
    && (forall k :: k !in KeysOf(p) ==> Project(r, k) == Project(e, k))
  }

  /** An entry is determined by its values at the nine keys. */
  lemma EntryExtensionality(a: TokenEntry, b: TokenEntry)
    requires forall k :: Project(a, k) == Project(b, k)
    ensures a == b
  {
    assert Project(a, BaseTokenKey) == Project(b, BaseTokenKey);
    assert Project(a, PriceUsdKey) == Project(b, PriceUsdKey);
    assert Project(a, PriceChangeKey) == Project(b, PriceChangeKey);
    assert Project(a, VolumeKey) == Project(b, VolumeKey);
    assert Project(a, TxnsKey) == Project(b, TxnsKey);
    assert Project(a, MarketCapKey) == Project(b, MarketCapKey);
    assert Project(a, InfoKey) == Project(b, InfoKey);
    assert Project(a, NoteKey) == Project(b, NoteKey);
    assert Project(a, EntryDataKey) == Project(b, EntryDataKey);
  }

  /** The merge is a function: at most one entry is `e` merged with `p`. */
  lemma MergeUnique(e: TokenEntry, p: Patch, r1: TokenEntry, r2: TokenEntry)
    requires IsMerge(e, p, r1) && IsMerge(e, p, r2)
    ensures r1 == r2
  {
    forall k ensures Project(r1, k) == Project(r2, k) {
      if k in KeysOf(p) {
        var i :| 0 <= i < |p| && KeyOf(p[i]) == k;
      }
    }
    EntryExtensionality(r1, r2);
  }

  /** Writing a field changes the entry at that field's key and nowhere else. */
  lemma ProjectSetField(e: TokenEntry, f: Field)
    ensures forall k :: Project(SetField(e, f), k) == if k == KeyOf(f) then f else Project(e, k)
  {
  }

  /** The keys of the first `i + 1` fields are those of the first `i` and the `i`-th. */
  lemma KeysOfPrefix(p: Patch, i: nat)
    requires i < |p|
    ensures KeysOf(p[..i + 1]) == KeysOf(p[..i]) + {KeyOf(p[i])}
  {
    var a, b := p[..i], p[..i + 1];
    forall k | k in KeysOf(b) ensures k in KeysOf(a) + {KeyOf(p[i])} {
      var j :| 0 <= j < |b| && KeyOf(b[j]) == k;
      if j < i {
        assert b[j] == a[j];
      }
    }
    forall k | k in KeysOf(a) ensures k in KeysOf(b) {
      var j :| 0 <= j < |a| && KeyOf(a[j]) == k;
      assert b[j] == a[j];
    }
    assert KeyOf(b[i]) in KeysOf(b);
  }

  /** The shallow merge loop of `updateTokenData` and of the refresh callback:
      `Object.keys(data).forEach(key => token[key] = data[key])`. */
  method Merge(e: TokenEntry, p: Patch) returns (r: TokenEntry)
    requires DistinctKeys(p)
    ensures IsMerge(e, p, r)
  {
    r := e;
    for i := 0 to |p|
      invariant forall j :: 0 <= j < i ==> Project(r, KeyOf(p[j])) == p[j]
      invariant forall k :: k !in KeysOf(p[..i]) ==> Project(r, k) == Project(e, k)
    {
      ProjectSetField(r, p[i]);
      KeysOfPrefix(p, i);
      r := SetField(r, p[i]);
    }
    assert p[..|p|] == p;
  }

  /** The own keys of a fetched `TokenData` object: the seven market keys. */
  function MarketPatch(d: TokenData): Patch {
    [BaseTokenField(d.baseToken), PriceUsdField(d.priceUsd), PriceChangeField(d.priceChange),
     VolumeField(d.volume), TxnsField(d.txns), MarketCapField(d.marketCap), InfoField(d.info)]
  }

  /** The seven keys a fetched record carries. */
  lemma MarketKeys(d: TokenData)
    ensures KeysOf(MarketPatch(d))
            == {BaseTokenKey, PriceUsdKey, PriceChangeKey, VolumeKey, TxnsKey, MarketCapKey, InfoKey}
  {
    var p := MarketPatch(d);
    assert KeyOf(p[0]) in KeysOf(p) && KeyOf(p[1]) in KeysOf(p) && KeyOf(p[2]) in KeysOf(p);
    assert KeyOf(p[3]) in KeysOf(p) && KeyOf(p[4]) in KeysOf(p) && KeyOf(p[5]) in KeysOf(p);
    assert KeyOf(p[6]) in KeysOf(p);
  }

  /** The expected entry is a merge of the market patch. */
  lemma MarketIsMerge(e: TokenEntry, d: TokenData)
    ensures IsMerge(e, MarketPatch(d), EntryOf(d, e.note, e.entryData))
  {
    MarketKeys(d);
  }

  /** Merging fetched market data replaces the seven market fields and keeps the user's
      note and entry data. */
  lemma MergeMarketData(e: TokenEntry, d: TokenData, r: TokenEntry)
    requires IsMerge(e, MarketPatch(d), r)
    ensures r == EntryOf(d, e.note, e.entryData)
  {
    MarketIsMerge(e, d);
    MergeUnique(e, MarketPatch(d), r, EntryOf(d, e.note, e.entryData));
  }

  /** A patch without `note` or `entryData` keys leaves both untouched. */
  lemma MergeKeepsUserFields(e: TokenEntry, p: Patch, r: TokenEntry)
    requires IsMerge(e, p, r)
    requires NoteKey !in KeysOf(p) && EntryDataKey !in KeysOf(p)
    ensures r.note == e.note && r.entryData == e.entryData
  {
    assert Project(r, NoteKey) == Project(e, NoteKey);
    assert Project(r, EntryDataKey) == Project(e, EntryDataKey);
  }

  // ---------------------------------------------------------------------------
  // Group ids

  function DigitChar(d: nat): char
    requires d < 10
  {
    (48 + d) as char
  }

  /** The decimal numeral of `n`, as a template literal prints it. */
  function Decimal(n: nat): string {
    if n < 10 then [DigitChar(n)] else Decimal(n / 10) + [DigitChar(n % 10)]
  }

  /** `` `group_${Date.now()}` `` */
  function GroupId(now: nat): string {
    "group_" + Decimal(now)
  }

  lemma {:induction false} DecimalInjective(a: nat, b: nat)
    requires Decimal(a) == Decimal(b)
    ensures a == b
  {
    if a >= 10 && b >= 10 {
      var da, db := Decimal(a), Decimal(b);
      assert da[|da| - 1] == DigitChar(a % 10) && db[|db| - 1] == DigitChar(b % 10);
      assert da[..|da| - 1] == Decimal(a / 10) && db[..|db| - 1] == Decimal(b / 10);
      DecimalInjective(a / 10, b / 10);
    }
  }

  /** Groups created at different milliseconds get different ids; two creations in the
      same millisecond share one. */
  lemma GroupIdsDistinct(t1: nat, t2: nat)
    ensures GroupId(t1) == GroupId(t2) <==> t1 == t2
  {
    if GroupId(t1) == GroupId(t2) {
      assert GroupId(t1)[6..] == Decimal(t1);
      assert GroupId(t2)[6..] == Decimal(t2);
      DecimalInjective(t1, t2);
    }
  }

  // ---------------------------------------------------------------------------
  // Group membership

  /** A group's list after `removeToken` or `removeTokenFromGroup`: `address` filtered out,
      an undefined list left undefined. */
  function StripMember(g: TokenGroup, address: string): TokenGroup {
    if g.tokens.Some? then g.(tokens := Some(RemoveAll(g.tokens.value, [address]))) else g
  }

  /** A group's list after `addTokenToGroup`: created if undefined, then `address`
      appended unless already present. */
  function AddMember(g: TokenGroup, address: string): TokenGroup {
    var list := if g.tokens.Some? then g.tokens.value else [];
    g.(tokens := Some(AddUnique(list, address)))
  }

  /** Removing a member removes every occurrence of it, keeps every other member with
      its multiplicity and order, and keeps the group's id, name and description. */
  lemma StripMemberSpec(g: TokenGroup, address: string)
    ensures var r := StripMember(g, address);
      && r.id == g.id && r.name == g.name && r.description == g.description
      && r.tokens.Some? == g.tokens.Some?
      && (r.tokens.Some? ==>
            && address !in r.tokens.value
            && (forall x :: x != address ==> multiset(r.tokens.value)[x] == multiset(g.tokens.value)[x])
            && (forall s, t :: g.tokens.value == s + t ==>
                  r.tokens.value == RemoveAll(s, [address]) + RemoveAll(t, [address]))
            && (NoDup(g.tokens.value) ==> NoDup(r.tokens.value)))
  {
    if g.tokens.Some? {
      var list := g.tokens.value;
      RemoveAllMembers(list, [address]);
      RemoveAllCounts(list, [address]);
      if NoDup(list) {
        RemoveAllNoDup(list, [address]);
      }
      forall s, t | list == s + t
        ensures RemoveAll(list, [address]) == RemoveAll(s, [address]) + RemoveAll(t, [address])
      {
        RemoveAllAppend(s, t, [address]);
      }
    }
  }

  /** Adding a member makes it present exactly once, adds nothing else, keeps the old
      members in order at the front, and doing it twice is doing it once. */
  lemma AddMemberSpec(g: TokenGroup, address: string)
    ensures var r := AddMember(g, address);
      && r.id == g.id && r.name == g.name && r.description == g.description
      && r.tokens.Some? && address in r.tokens.value
      && (forall x :: x in r.tokens.value <==> x == address || (g.tokens.Some? && x in g.tokens.value))
      && (g.tokens.Some? ==> r.tokens.value[..|g.tokens.value|] == g.tokens.value)
      && (g.tokens.None? || NoDup(g.tokens.value) ==> NoDup(r.tokens.value))
      && AddMember(r, address) == r
  {
  }

  // ---------------------------------------------------------------------------
  // The store

  /** The zustand store's state: `tokens` and `groups`. */
  class Store {
    var tokens: map<string, TokenEntry>
    var groups: map<string, TokenGroup>

    /** Every group is filed under its own id and lists no address twice. */
    ghost predicate Valid()
      reads this
    {
      forall id :: id in groups ==>
        groups[id].id == id && (groups[id].tokens.Some? ==> NoDup(groups[id].tokens.value))
    }

    constructor ()
      ensures Valid() && tokens == map[] && groups == map[]
    {
      tokens := map[];
      groups := map[];
    }

    /** `addToken(address, data, entryPrice)`: (re)places the entry, with entry data
        taken now; any previous entry, note included, is gone. `data.marketCap || 0` is
        `data.marketCap` itself, since a falsy number is 0. */
    method AddToken(address: string, data: TokenData, entryPrice: real, now: int)
      modifies this
      ensures tokens == old(tokens)[address := EntryOf(data, None, EntryData(entryPrice, data.marketCap, now))]
      ensures groups == old(groups)
    {
      tokens := tokens[address := EntryOf(data, None, EntryData(entryPrice, data.marketCap, now))];
    }

    /** `removeToken(address)`: delete the entry, then filter the address out of every
        group that has a list. */
    method RemoveToken(address: string)
      modifies this
      ensures tokens == old(tokens) - {address}
      ensures groups.Keys == old(groups).Keys
      ensures forall id :: id in groups ==> groups[id] == StripMember(old(groups)[id], address)
      ensures forall id :: id in groups && groups[id].tokens.Some? ==> address !in groups[id].tokens.value
      ensures old(Valid()) ==> Valid()
    {
      tokens := tokens - {address};
      ghost var before := groups;
      var pending := groups.Keys;
      while pending != {}
        invariant tokens == old(tokens) - {address}
        invariant pending <= before.Keys && groups.Keys == before.Keys
        invariant forall id :: id in groups ==>
                    groups[id] == if id in pending then before[id] else StripMember(before[id], address)
        decreases pending
      {
        var id :| id in pending;
        var group := groups[id];
        if group.tokens.Some? {
          groups := groups[id := group.(tokens := Some(RemoveAll(group.tokens.value, [address])))];
        }
        pending := pending - {id};
      }
      forall id | id in groups
        ensures groups[id].id == before[id].id
        ensures groups[id].tokens.Some? ==> address !in groups[id].tokens.value
        ensures before[id].tokens.Some? && NoDup(before[id].tokens.value) ==> NoDup(groups[id].tokens.value)
      {
        StripMemberSpec(before[id], address);
      }
    }

    /** `updateEntryData(address, price, marketCap)`: only `entryData` changes, and only
        for a tracked address. */
    method UpdateEntryData(address: string, price: real, marketCap: real, now: int)
      modifies this
      ensures address !in old(tokens) ==> tokens == old(tokens)
      ensures address in old(tokens) ==>
                tokens == old(tokens)[address := old(tokens)[address].(entryData := EntryData(price, marketCap, now))]
      ensures groups == old(groups)
    {
      if address in tokens {
        tokens := tokens[address := tokens[address].(entryData := EntryData(price, marketCap, now))];
      }
    }

    /** `updateTokenData(address, data)`: shallow-merge into a tracked entry; a missing
        address is never re-created. */
    method UpdateTokenData(address: string, data: Patch)
      requires DistinctKeys(data)
      modifies this
      ensures address !in old(tokens) ==> tokens == old(tokens)
      ensures tokens.Keys == old(tokens).Keys
      ensures address in tokens ==> IsMerge(old(tokens)[address], data, tokens[address])
      ensures forall a :: a in tokens && a != address ==> tokens[a] == old(tokens)[a]
      ensures groups == old(groups)
    {
      if address in tokens {
        var merged := Merge(tokens[address], data);
        tokens := tokens[address := merged];
      }
    }

    /** The refresh callback of `startTokenUpdates`: merge each update into its entry,
        skipping addresses that are not tracked. */
    method ApplyUpdates(updated: map<string, Patch>)
      requires forall a :: a in updated ==> DistinctKeys(updated[a])
      modifies this
      ensures tokens.Keys == old(tokens).Keys
      ensures forall a :: a in tokens && a in updated ==> IsMerge(old(tokens)[a], updated[a], tokens[a])
      ensures forall a :: a in tokens && a !in updated ==> tokens[a] == old(tokens)[a]
      ensures groups == old(groups)
    {
      ghost var before := tokens;
      var pending := updated.Keys;
      while pending != {}
        invariant pending <= updated.Keys && tokens.Keys == before.Keys
        invariant forall a :: a in tokens && a in updated && a !in pending ==>
                    IsMerge(before[a], updated[a], tokens[a])
        invariant forall a :: a in tokens && (a !in updated || a in pending) ==> tokens[a] == before[a]
        invariant groups == old(groups)
        decreases pending
      {
        var a :| a in pending;
        if a in tokens {
          var merged := Merge(tokens[a], updated[a]);
          tokens := tokens[a := merged];
        }
        pending := pending - {a};
      }
    }

    /** `createGroup(name, description)`: files an empty group under
        `group_<now>`, replacing one created in the same millisecond. */
    method CreateGroup(name: string, description: Option<string>, now: nat)
      modifies this
      ensures groups == old(groups)[GroupId(now) := TokenGroup(GroupId(now), name, description, Some([]))]
      ensures tokens == old(tokens)
      ensures old(Valid()) ==> Valid()
    {
      var id := GroupId(now);
      groups := groups[id := TokenGroup(id, name, description, Some([]))];
    }

    /** `removeGroup(groupId)` */
    method RemoveGroup(groupId: string)
      modifies this
      ensures groups == old(groups) - {groupId}
      ensures tokens == old(tokens)
      ensures old(Valid()) ==> Valid()
    {
      groups := groups - {groupId};
    }

    /** `addTokenToGroup(groupId, address)`: no-op for an unknown group; the address
        need not be tracked. */
    method AddTokenToGroup(groupId: string, address: string)
      modifies this
      ensures groupId !in old(groups) ==> groups == old(groups)
      ensures groupId in old(groups) ==> groups == old(groups)[groupId := AddMember(old(groups)[groupId], address)]
      ensures tokens == old(tokens)
      ensures old(Valid()) ==> Valid()
    {
      if groupId in groups {
        var group := groups[groupId];
        var list := if group.tokens.Some? then group.tokens.value else [];
        if address !in list {
          list := list + [address];
        }
        groups := groups[groupId := group.(tokens := Some(list))];
        AddMemberSpec(group, address);
      }
    }

    /** `removeTokenFromGroup(groupId, address)`: no-op when the group or its list is
        missing. */
    method RemoveTokenFromGroup(groupId: string, address: string)
      modifies this
      ensures groupId !in old(groups) ==> groups == old(groups)
      ensures groupId in old(groups) ==>
                groups == old(groups)[groupId := StripMember(old(groups)[groupId], address)]
      ensures tokens == old(tokens)
      ensures old(Valid()) ==> Valid()
    {
      if groupId in groups && groups[groupId].tokens.Some? {
        var group := groups[groupId];
        groups := groups[groupId := group.(tokens := Some(RemoveAll(group.tokens.value, [address])))];
        StripMemberSpec(group, address);
      }
    }

    /** `updateGroupName(groupId, name)` */
    method UpdateGroupName(groupId: string, name: string)
      modifies this
      ensures groupId !in old(groups) ==> groups == old(groups)
      ensures groupId in old(groups) ==> groups == old(groups)[groupId := old(groups)[groupId].(name := name)]
      ensures tokens == old(tokens)
      ensures old(Valid()) ==> Valid()
    {
      if groupId in groups {
        groups := groups[groupId := groups[groupId].(name := name)];
      }
    }

    /** `updateGroupDescription(groupId, description)` */
    method UpdateGroupDescription(groupId: string, description: string)
      modifies this
      ensures groupId !in old(groups) ==> groups == old(groups)
      ensures groupId in old(groups) ==>
                groups == old(groups)[groupId := old(groups)[groupId].(description := Some(description))]
      ensures tokens == old(tokens)
      ensures old(Valid()) ==> Valid()
    {
      if groupId in groups {
        groups := groups[groupId := groups[groupId].(description := Some(description))];
      }
    }

    /** `addTokenNote(address, note)` */
    method AddTokenNote(address: string, note: string)
      modifies this
      ensures address !in old(tokens) ==> tokens == old(tokens)
      ensures address in old(tokens) ==> tokens == old(tokens)[address := old(tokens)[address].(note := Some(note))]
      ensures groups == old(groups)
    {
      if address in tokens {
        tokens := tokens[address := tokens[address].(note := Some(note))];
      }
    }

    /** `removeTokenNote(address)`: `delete token.note`. */
    method RemoveTokenNote(address: string)
      modifies this
      ensures address !in old(tokens) ==> tokens == old(tokens)
      ensures address in old(tokens) ==> tokens == old(tokens)[address := old(tokens)[address].(note := None)]
      ensures groups == old(groups)
    {
      if address in tokens {
        tokens := tokens[address := tokens[address].(note := None)];
      }
    }
  }
}
