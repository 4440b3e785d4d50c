# Portfolio tracker core, in Dafny

A model of the client-side core of a cryptocurrency portfolio tracker, with proofs.
A user tracks tokens by address, together with an entry price. The app fetches market
data from a price-aggregation API and sorts tokens into groups. Three parts of the app
are modelled:

- **The portfolio store** (`portfolio_store.dfy`, module `PortfolioStore`). It is a class
  `Store` with two fields. `tokens` maps an address to a `TokenEntry`. `groups` maps a
  group id to a `TokenGroup`. Every mutation is a method that reassigns these maps.
  `AddToken` and `CreateGroup` insert or overwrite an entry. Every other mutation does
  nothing when its key is missing. The shallow merge
  `Object.keys(data).forEach(key => token[key] = data[key])` is the loop `Merge`. A
  partial-data object is a `Patch`: the object's own keys with their values, in
  enumeration order. `IsMerge` specifies the merge key by key.
  `Store.Valid()` is the store's invariant, called "consistent" below: each group is
  stored under its own id and lists each address at most once. Every mutation preserves
  it, and `RemoveShownGroup` and `RemoveListedMember` rely on it.
- **The refresh scheduler** (`token_updater.dfy`, module `TokenUpdater`). It is a class
  `UpdateStore` with the fields `lastUpdated`, `updateInterval` and `fetchQueue`. The
  due filter, the batch of at most ten addresses, the stamped `lastUpdated` and the
  queue after a cycle are pure functions (`DueFilter`, `Batch`, `Stamped`, `RemoveAll`).
  The store's methods are proved against them, and lemmas state the properties of the
  functions. The clock is a parameter `now`. The fetch is an oracle
  `fetch: string -> FetchOutcome`: it throws, returns `null`, or returns data.
- **The response normaliser** (`token.dfy`, module `TokenFetch`). It goes from the parsed
  API payload, a datatype whose every field may be missing, to `Option<TokenData>`.
  `Normalise` is the specification. `FetchTokenData` and `BuildSocials` do the work the
  way the source does: they validate, build the social table in a loop, then build the
  record. `Encode` and `NormaliseEncode` give the partner property: normalising a record
  that is already in normal form gives it back.

`types.dfy` holds the record shapes. `seqs.dfy` holds the list idioms the other modules
share: filter against a drop list, `includes` + `push`, and `Array.from(new Set(...))`.
`scenarios.dfy` holds client methods that chain calls the way the page and the worker
do. They show, for example, that a refresh arriving after a removal does not bring the
token back.

Market figures are JavaScript numbers in the source. Here they are `real`. Times are
integer milliseconds.

The model follows the code in these points:

- A cycle drops every batch address from the queue, whatever its fetch outcome
  (lib/utils/token-updater.ts:81-83). `startTokenUpdateWorker` queues every key again
  before each cycle (lib/utils/token-updater.ts:110-112).
- A fetch that returns `null` still stamps `lastUpdated`
  (lib/utils/token-updater.ts:54,63,71). Only a fetch that throws leaves the stamp alone.
- The due check is strict. After a stamp at `T`, an address is not due at `T + interval`
  and is due from `T + interval + 1`.
- A refresh merge writes every key present in the update, `entryData` and `note`
  included. It leaves those two alone only when the update lacks them (`MergeKeepsUserFields`).
  The store's own wiring hands the merge callback the store's token snapshot, entries
  and all. This is why `ApplyUpdates` is specified for arbitrary patches.

## Model

| member | source | states |
|---|---|---|
| `Seqs.RemoveAllMembers` | store/use-portfolio-store.ts:140-142 | After filtering, an element is present iff it was present before and is not in the drop list |
| `Seqs.RemoveAllCounts` | store/use-portfolio-store.ts:51-53 | Filtering removes every occurrence of a dropped address and keeps every other element with its multiplicity |
| `Seqs.RemoveAllAppend` | lib/utils/token-updater.ts:81-83 | Filtering distributes over concatenation, so the kept elements keep their relative order |
| `Seqs.RemoveAllKeepsAll` | lib/utils/token-updater.ts:81-83 | A filter that matches no element returns the list unchanged |
| `Seqs.RemoveAllNoDup` | store/use-portfolio-store.ts:136-144 | Filtering a duplicate-free list gives a duplicate-free list |
| `Seqs.RemoveAllOne` | store/use-portfolio-store.ts:136-144 | Filtering one present address out of a duplicate-free list shortens it by exactly one |
| `Seqs.RemoveAllPrefix` | lib/utils/token-updater.ts:47-83 | Dropping a duplicate-free list's own first n elements leaves exactly its suffix from n |
| `Seqs.AddUniqueSpec` | store/use-portfolio-store.ts:130-132 | `includes`-then-`push` makes x present, adds nothing else, keeps the list duplicate-free, and is idempotent |
| `Seqs.DedupSpec` | lib/utils/token-updater.ts:30-32 | `Array.from(new Set(s))` has no duplicates and the same members as s |
| `Seqs.DedupOfNoDup` | lib/utils/token-updater.ts:30-32 | On a duplicate-free list the Set round trip is the identity |
| `TokenFetch.BuildSocials` | lib/utils/token.ts:23-42 | The loop builds exactly the specified table: four keys, `websites[0]` first, then the last entry of each known type wins |
| `TokenFetch.FetchTokenData` | lib/utils/token.ts:10-73 | The normalisation body returns exactly `Normalise(address, payload)`: reject, then assemble with defaults |
| `TokenFetch.NormaliseRejects` | lib/utils/token.ts:10-20 | The result is null iff `pairs` is absent or empty, or the first pair's base token, name or symbol is missing or empty |
| `TokenFetch.NormaliseReadsFirstPairOnly` | lib/utils/token.ts:15 | Payloads that agree on `pairs[0]` normalise to the same result |
| `TokenFetch.NormaliseDefaults` | lib/utils/token.ts:44-71 | Name and symbol are copied; the address falls back to the queried one; a missing or empty price becomes "0"; a missing 24h price change, any missing volume bucket and a missing market cap become 0, and a present one is copied; a missing txn bucket becomes zero buys and sells, and a present one is copied; a missing or empty image or header becomes null, a non-empty one is copied; the socials are the table built from `info` |
| `TokenFetch.NormaliseIsNormal` | lib/utils/token.ts:44-73 | Every result has a non-empty name, symbol and price, and its image and header are null or non-empty |
| `TokenFetch.LastOfKindAppend` | lib/utils/token.ts:36-42 | A later block of social entries overrides an earlier one for each type |
| `TokenFetch.LastOfKindSpec` | lib/utils/token.ts:36-42 | The lookup finds nothing iff no entry has the type; otherwise it finds the url of the last entry of that type |
| `TokenFetch.SocialsWebsite` | lib/utils/token.ts:30-42 | A `website`-typed social entry overrides `websites[0]`; without one, `websites[0]` (or null) stands |
| `TokenFetch.UnknownKindIgnored` | lib/utils/token.ts:38-40 | A social entry whose type is not one of the four keys leaves the table unchanged |
| `TokenFetch.SocialListRoundTrip` | lib/utils/token.ts:23-42 | Replaying a table as typed social entries rebuilds the same table |
| `TokenFetch.NormaliseEncode` | lib/utils/token.ts:10-73 | A record in normal form, encoded as a one-pair payload, normalises back to itself |
| `TokenUpdater.StampBatch` | lib/utils/token-updater.ts:65-77 | The loop builds `Stamped`: every batch address whose fetch did not throw (null results included) gets the cycle time; every other entry is kept |
| `TokenUpdater.UpdateStore.constructor` | lib/utils/token-updater.ts:24-26 | Empty `lastUpdated`, an interval of five minutes, an empty queue |
| `TokenUpdater.UpdateStore.QueueTokenUpdate` | lib/utils/token-updater.ts:28-34 | The queue becomes the Set round trip of the old queue plus the address; the other fields are unchanged; the queue is duplicate-free |
| `TokenUpdater.UpdateStore.ShouldUpdateToken` | lib/utils/token-updater.ts:88-92 | A never-stamped address is due iff now > interval; a stamped one is due iff now > stamp + interval |
| `TokenUpdater.UpdateStore.UpdateTokens` | lib/utils/token-updater.ts:36-86 | The new queue is the old one minus the batch, whatever the fetch outcomes; the new `lastUpdated` is `Stamped`; the interval is unchanged |
| `TokenUpdater.UpdateStore.QueueAll` | lib/utils/token-updater.ts:110-112 | Queuing every key in order gives `EnqueueAll`; nothing else changes |
| `TokenUpdater.UpdateStore.RunWorkerCycle` | lib/utils/token-updater.ts:108-116 | Every key of `tokens` is queued before the cycle, and the cycle then runs on that queue |
| `TokenUpdater.EnqueueSpec` | lib/utils/token-updater.ts:28-34 | After queuing, the queue holds the address and nothing new besides, has no duplicates, and on a duplicate-free queue the address is appended iff it was absent |
| `TokenUpdater.EnqueueIdempotent` | lib/utils/token-updater.ts:28-34 | Queuing an address twice equals queuing it once |
| `TokenUpdater.EnqueueAllSpec` | lib/utils/token-updater.ts:108-112 | After the worker's queuing loop, every key is queued, the old queue is still at the front, and there are no duplicates |
| `TokenUpdater.DueAfterStamp` | lib/utils/token-updater.ts:88-92 | After a stamp at T an address is not due at T + interval and is due at T + interval + 1; a never-stamped one is due once now > interval |
| `TokenUpdater.DueFilterSpec` | lib/utils/token-updater.ts:41-43 | The due filter keeps exactly the queued addresses that are due, without duplicates when the queue has none |
| `TokenUpdater.BatchSpec` | lib/utils/token-updater.ts:41-47 | The batch is the first min(10, #due) due addresses in queue order, all queued and due |
| `TokenUpdater.DueFilterRemoveAll` | lib/utils/token-updater.ts:41-83 | Filtering for due addresses commutes with dropping the batch |
| `TokenUpdater.DueFilterIgnoresOtherStamps` | lib/utils/token-updater.ts:66-71 | Stamps on batch addresses do not change which other addresses are due |
| `TokenUpdater.CycleLeavesOverflowQueued` | lib/utils/token-updater.ts:41-83 | After a cycle, the queued and due addresses are exactly the due addresses beyond the batch, in order |
| `TokenUpdater.FifteenDueScenario` | lib/utils/token-updater.ts:46-47 | With 15 due addresses, 10 are fetched and 5 stay queued and due |
| `TokenUpdater.CycleEffect` | lib/utils/token-updater.ts:63-83 | The queue loses exactly the batch; a batch address whose fetch did not throw is stamped and not due again until the interval has passed; other stamps are unchanged |
| `PortfolioStore.MergeUnique` | store/use-portfolio-store.ts:70-79 | The key-by-key merge specification determines the merged entry uniquely |
| `PortfolioStore.Merge` | store/use-portfolio-store.ts:75-77 | The per-key assignment loop yields the merge: keys in the data take its values, all other keys keep the entry's |
| `PortfolioStore.ProjectSetField` | store/use-portfolio-store.ts:75-77 | Assigning one key changes the entry at that key and at no other key |
| `PortfolioStore.MergeMarketData` | store/use-portfolio-store.ts:84-95 | Merging a fetched record replaces the seven market fields and keeps the note and entry data |
| `PortfolioStore.MergeKeepsUserFields` | store/use-portfolio-store.ts:70-79 | An update without `note` and `entryData` keys leaves both untouched |
| `PortfolioStore.DecimalInjective` | store/use-portfolio-store.ts:108 | Distinct timestamps print as distinct decimal numerals |
| `PortfolioStore.GroupIdsDistinct` | store/use-portfolio-store.ts:106-115 | Two group ids are equal iff they were created in the same millisecond |
| `PortfolioStore.StripMemberSpec` | store/use-portfolio-store.ts:47-55 | Removing an address from a group removes every occurrence and keeps the other members with their order; an undefined list stays undefined; id, name and description are unchanged |
| `PortfolioStore.AddMemberSpec` | store/use-portfolio-store.ts:122-134 | Adding makes the address a member exactly once, adds nothing else, keeps the old members first, and a second add is a no-op |
| `PortfolioStore.Store.constructor` | store/use-portfolio-store.ts:27-28 | An empty store: no tokens, no groups |
| `PortfolioStore.Store.AddToken` | store/use-portfolio-store.ts:30-40 | The entry becomes the data plus entry data (price, market cap, now), with no note; other tokens and all groups are unchanged |
| `PortfolioStore.Store.RemoveToken` | store/use-portfolio-store.ts:42-56 | The address leaves `tokens` and every group's list; groups keep their ids, other members and undefined lists |
| `PortfolioStore.Store.UpdateEntryData` | store/use-portfolio-store.ts:58-68 | A no-op for an untracked address; otherwise only that entry's `entryData` changes |
| `PortfolioStore.Store.UpdateTokenData` | store/use-portfolio-store.ts:70-79 | A no-op for an untracked address, so a token is never re-created; otherwise that entry becomes the merge and nothing else changes |
| `PortfolioStore.Store.ApplyUpdates` | store/use-portfolio-store.ts:84-95 | Each tracked address in the update is merged; untracked ones are skipped; no entry is created or deleted |
| `PortfolioStore.Store.CreateGroup` | store/use-portfolio-store.ts:106-115 | An empty group is filed under `group_<now>`, replacing one from the same millisecond; tokens are unchanged |
| `PortfolioStore.Store.RemoveGroup` | store/use-portfolio-store.ts:117-120 | Only `groups` changes: the id is gone |
| `PortfolioStore.Store.AddTokenToGroup` | store/use-portfolio-store.ts:122-134 | A no-op for an unknown group; otherwise the group's list becomes `AddMember`; tokens are unchanged |
| `PortfolioStore.Store.RemoveTokenFromGroup` | store/use-portfolio-store.ts:136-144 | A no-op when the group or its list is missing; otherwise the address is filtered out of that group only |
| `PortfolioStore.Store.UpdateGroupName` | store/use-portfolio-store.ts:146-152 | A no-op on a missing id; otherwise only that group's name changes |
| `PortfolioStore.Store.UpdateGroupDescription` | store/use-portfolio-store.ts:154-160 | A no-op on a missing id; otherwise only that group's description changes |
| `PortfolioStore.Store.AddTokenNote` | store/use-portfolio-store.ts:162-168 | A no-op on a missing address; otherwise only that entry's note changes |
| `PortfolioStore.Store.RemoveTokenNote` | store/use-portfolio-store.ts:170-176 | A no-op on a missing address; otherwise only that entry's note is removed |
| `Scenarios.RemoveThenRefresh` | store/use-portfolio-store.ts:42-79 | Removing a token and then merging data for it leaves it removed |
| `Scenarios.AddThenRemove` | store/use-portfolio-store.ts:30-56 | Adding one token to an empty store and removing it leaves the store empty |
| `Scenarios.GroupWithUntrackedMember` | store/use-portfolio-store.ts:106-134 | A new group can list an untracked address, and adding it twice lists it once |
| `Scenarios.FirstCycle` | lib/utils/token-updater.ts:22-84 | A fresh scheduler with one token queued twice runs one cycle past the interval: the queue ends empty and the token is stamped with `now` unless its fetch threw |
| `Scenarios.RemoveShownGroup` | components/group-manager.tsx:125-141 | In a consistent store, deleting a listed group by its own id removes that group and no other, and the store stays consistent |
| `Scenarios.RemoveListedMember` | components/group-manager.tsx:133-135 | In a consistent store, removing a listed member lowers the group's shown token count by exactly one |
| `Scenarios.ManualRefresh` | app/page.tsx:179-190 | The page's refresh, which passes the fetched data plus the current note, replaces market data and keeps note and entry data |
| `Scenarios.RefreshMerge` | app/page.tsx:179-190 | Any merge of the fetched data plus a note sets the seven market fields and the note and keeps the entry data |

## Left out

- The HTTP request, the JSON parse and the `console.error` logging (lib/utils/token.ts:5-8, 74-77) are I/O. The payload is an input datatype. The payload datatype cannot express JSON values of the wrong type. The source copies some of them into the result (a numeric `name` or `priceUsd`, a string `volume.h1`) and throws on others (a non-array `socials`), and its `catch` turns a throw into `null`.
- A present `txns` bucket is copied as it is. The model cannot represent a bucket whose inner `buys` or `sells` is missing.
- The `in` test on the socials table (lib/utils/token.ts:38) is modelled as "one of the four keys". Inherited object keys such as `toString` are ignored.
- Numbers are `real`. NaN and negative zero, both falsy in JavaScript, are not represented, so only `0` takes a default.
- `setInterval` and `clearInterval` (lib/utils/token-updater.ts:118-125) are not modelled: a timer is concurrency. One worker tick is `RunWorkerCycle`.
- The concurrent fetches of `Promise.all` (lib/utils/token-updater.ts:50-60) are not modelled. The fetch is an oracle, and the cycle runs as one sequential step. Queue changes made while the fetches are in flight are therefore not modelled.
- TokenUpdater.UpdateStore.UpdateTokens: the due filter and the stamp use one clock reading `now`. The source reads `Date.now()` once for the stamp and again inside each due check.
- TokenUpdater.UpdateStore.UpdateTokens: the merged copy `newTokens` (lib/utils/token-updater.ts:67-76) is not computed, because the source discards it.
- The zustand `persist` and `immer` middleware and localStorage (store/use-portfolio-store.ts:23-26, 178-181; lib/utils/token-updater.ts:94-99) are library plumbing. Only `lastUpdated` of the scheduler is persisted.
- The wiring of `startTokenUpdates` (store/use-portfolio-store.ts:81-104) is glue. It passes a stub whose `shouldUpdateToken` is always true and whose `queueTokenUpdate` does nothing. Only its merge callback is modelled, as `ApplyUpdates`.
- `Object.keys` order: `RunWorkerCycle` takes the key order as a parameter that enumerates the keys of `tokens`.
- A partial update whose key is present with the value `undefined` is modelled only for `note`, where it clears the note. For the other keys the types rule it out.
- `TokenData.note` (types/index.ts:2) is not a field of `TokenData`: the fetcher never sets it. A note inside a partial update is `NoteField`.
- PortfolioStore.Store.AddToken: `data.marketCap || 0` is written as `data.marketCap`, since only a zero number is falsy here.
- Rendering, dialogs, toasts, clipboard, input checks and number formatting (app/page.tsx, components/group-manager.tsx, app/layout.tsx) are presentation, as is skipping group members that are not tracked.
- `Date.now()` is a parameter: `int` for the scheduler, `nat` for group ids.
