/** The refresh scheduler of lib/utils/token-updater.ts: an order-preserving,
    duplicate-free fetch queue, a last-updated time per address, and the batch
    cycle that refreshes at most ten due addresses. The clock and the fetch are
    parameters; the fetches of one batch, which the source runs concurrently, run
    here one after another. */
module TokenUpdater {
  import opened Types
  import opened Seqs

  /** At most this many fetches per cycle. */
  const BatchSize: nat := 10

  /** Five minutes, in milliseconds. */
  const DefaultInterval: int := 5 * 60 * 1000

  /** What one `fetchTokenData` call in the batch came to: it threw, or it returned
      data or `null`. */
  datatype FetchOutcome = Threw | Fetched(data: Option<TokenData>)

  /** `queueTokenUpdate`: `Array.from(new Set([...queue, address]))`. */
  function Enqueue(q: seq<string>, address: string): seq<string> {
    Dedup(q + [address])
  }

  /** The worker's `forEach` of `queueTokenUpdate` over `keys`. */
  function EnqueueAll(q: seq<string>, keys: seq<string>): seq<string> {
    if keys == [] then q else Enqueue(EnqueueAll(q, keys[..|keys| - 1]), keys[|keys| - 1])
  }

  /** `lastUpdated[address] || 0` */
  function LastUpdate(last: map<string, int>, address: string): int {
    if address in last then last[address] else 0
  }

  /** `shouldUpdateToken`: strictly more than the interval has passed. */
  predicate Due(last: map<string, int>, interval: int, address: string, now: int) {
    now - LastUpdate(last, address) > interval
  }

  /** `fetchQueue.filter(shouldUpdateToken)` */
  function DueFilter(q: seq<string>, last: map<string, int>, interval: int, now: int): seq<string> {
    if q == [] then []
    else if Due(last, interval, q[0], now) then [q[0]] + DueFilter(q[1..], last, interval, now)
    else DueFilter(q[1..], last, interval, now)
  }

  /** `tokensToUpdate.slice(0, batchSize)` */
  function Batch(q: seq<string>, last: map<string, int>, interval: int, now: int): seq<string> {
    var due := DueFilter(q, last, interval, now);
    if |due| <= BatchSize then due else due[..BatchSize]
  }

  /** The new `lastUpdated`: every batch address whose fetch did not throw, even one
      that returned `null`, is stamped with `time`; every other entry is kept. */
  function Stamped(last: map<string, int>, batch: seq<string>, fetch: string -> FetchOutcome,
                   time: int): map<string, int>
  {
    var hit := set a | a in batch && !fetch(a).Threw?;
    map a | a in last.Keys + hit :: if a in hit then time else last[a]
  }

  /** Stamping one more address updates that address alone, and only when its fetch
      did not throw. */
  lemma StampedStep(last: map<string, int>, batch: seq<string>, a: string,
                    fetch: string -> FetchOutcome, time: int)
    ensures Stamped(last, batch + [a], fetch, time)
            == if fetch(a).Threw? then Stamped(last, batch, fetch, time)
               else Stamped(last, batch, fetch, time)[a := time]
  {
    var b := batch + [a];
    assert forall x :: x in b <==> x in batch || x == a;
  }

  /** Builds `newLastUpdated` as the `forEach` over the valid updates does. */
  method StampBatch(last: map<string, int>, batch: seq<string>, fetch: string -> FetchOutcome,
                    time: int) returns (r: map<string, int>)
    ensures r == Stamped(last, batch, fetch, time)
  {
    r := last;
    for i := 0 to |batch|
      invariant r == Stamped(last, batch[..i], fetch, time)
    {
      assert batch[..i + 1] == batch[..i] + [batch[i]];
      StampedStep(last, batch[..i], batch[i], fetch, time);
      if !fetch(batch[i]).Threw? {
        r := r[batch[i] := time];
      }
    }
    assert batch[..|batch|] == batch;
  }

  // ---------------------------------------------------------------------------
  // The store

  /** The scheduler's store: `lastUpdated`, `updateInterval` and `fetchQueue`. */
  class UpdateStore {
    var lastUpdated: map<string, int>
    var updateInterval: int
    var fetchQueue: seq<string>

    /** The queue holds each address at most once. */
    ghost predicate Valid()
      reads this
    {
      NoDup(fetchQueue)
    }

    constructor ()
      ensures Valid()
      ensures lastUpdated == map[] && updateInterval == DefaultInterval && fetchQueue == []
    {
      lastUpdated := map[];
      updateInterval := DefaultInterval;
      fetchQueue := [];
    }

    /** `queueTokenUpdate(address)` */
    method QueueTokenUpdate(address: string)
      modifies this
      ensures fetchQueue == Enqueue(old(fetchQueue), address)
      ensures lastUpdated == old(lastUpdated) && updateInterval == old(updateInterval)
      ensures Valid()
    {
      EnqueueSpec(fetchQueue, address);
      fetchQueue := Enqueue(fetchQueue, address);
    }

    /** `shouldUpdateToken(address)` with `Date.now()` passed in as `now`. */
    function ShouldUpdateToken(address: string, now: int): (due: bool)
      reads this
      ensures address !in lastUpdated ==> (due <==> now > updateInterval)
      ensures address in lastUpdated ==> (due <==> now > lastUpdated[address] + updateInterval)
    {
      Due(lastUpdated, updateInterval, address, now)
    }

    /** `updateTokens(tokens)`: fetch the first ten due addresses, stamp every one whose
        fetch did not throw, and drop the whole batch from the queue. `tokens` only
        feeds the source's merged copy, which is discarded. */
    method UpdateTokens(tokens: map<string, TokenData>, now: int, fetch: string -> FetchOutcome)
      modifies this
      ensures var batch := Batch(old(fetchQueue), old(lastUpdated), old(updateInterval), now);
        && fetchQueue == RemoveAll(old(fetchQueue), batch)
        && lastUpdated == Stamped(old(lastUpdated), batch, fetch, now)
      ensures updateInterval == old(updateInterval)
      ensures old(Valid()) ==> Valid()
    {
      var tokensToUpdate := DueFilter(fetchQueue, lastUpdated, updateInterval, now);
      var batch := if |tokensToUpdate| <= BatchSize then tokensToUpdate
                   else tokensToUpdate[..BatchSize];
      var newLastUpdated := StampBatch(lastUpdated, batch, fetch, now);
      if Valid() {
        RemoveAllNoDup(fetchQueue, batch);
      }
      lastUpdated := newLastUpdated;
      fetchQueue := RemoveAll(fetchQueue, batch);
    }

    /** Queue every key, in `Object.keys` order. */
    method QueueAll(keys: seq<string>)
      modifies this
      ensures fetchQueue == EnqueueAll(old(fetchQueue), keys)
      ensures lastUpdated == old(lastUpdated) && updateInterval == old(updateInterval)
      ensures old(Valid()) ==> Valid()
    {
      for i := 0 to |keys|
        invariant fetchQueue == EnqueueAll(old(fetchQueue), keys[..i])
        invariant lastUpdated == old(lastUpdated) && updateInterval == old(updateInterval)
        invariant old(Valid()) ==> Valid()
      {
        assert keys[..i + 1][..i] == keys[..i];
        QueueTokenUpdate(keys[i]);
      }
      assert keys[..|keys|] == keys;
    }

    /** One tick of `startTokenUpdateWorker`: queue every tracked address, then run the
        batch cycle. `keys` is `Object.keys(tokens)`. */
    method RunWorkerCycle(tokens: map<string, TokenData>, keys: seq<string>, now: int,
                          fetch: string -> FetchOutcome)
      requires forall k :: k in keys <==> k in tokens
      modifies this
      ensures var queued := EnqueueAll(old(fetchQueue), keys);
        var batch := Batch(queued, old(lastUpdated), old(updateInterval), now);
        && fetchQueue == RemoveAll(queued, batch)
        && lastUpdated == Stamped(old(lastUpdated), batch, fetch, now)
      ensures updateInterval == old(updateInterval)
      ensures old(Valid()) ==> Valid()
    {
      QueueAll(keys);
      UpdateTokens(tokens, now, fetch);
    }
  }

  // ---------------------------------------------------------------------------
  // Properties of the queue

  /** The queue after `queueTokenUpdate(a)` holds `a`, holds nothing new besides, and has
      no duplicates; on a duplicate-free queue, `a` is appended only if it was absent. */
  lemma EnqueueSpec(q: seq<string>, a: string)
    ensures NoDup(Enqueue(q, a))
    ensures forall x :: x in Enqueue(q, a) <==> x in q || x == a
    ensures NoDup(q) ==> Enqueue(q, a) == (if a in q then q else q + [a])
  {
    var s := q + [a];
    assert s[..|s| - 1] == q;
    DedupSpec(q);
    DedupSpec(s);
    if NoDup(q) {
      DedupOfNoDup(q);
    }
  }

  /** Queuing the same address twice gives the same queue as queuing it once. */
  lemma EnqueueIdempotent(q: seq<string>, a: string)
    ensures Enqueue(Enqueue(q, a), a) == Enqueue(q, a)
  {
    var once := Enqueue(q, a);
    EnqueueSpec(q, a);
    EnqueueSpec(once, a);
  }

  /** After the worker's queuing loop every key is queued, nothing else was added, the
      old queue is still at the front, and there are no duplicates. */
  lemma {:induction false} EnqueueAllSpec(q: seq<string>, keys: seq<string>)
    requires NoDup(q)
    ensures NoDup(EnqueueAll(q, keys))
    ensures forall x :: x in EnqueueAll(q, keys) <==> x in q || x in keys
    ensures |q| <= |EnqueueAll(q, keys)| && EnqueueAll(q, keys)[..|q|] == q
  {
    if keys != [] {
      var init, k := keys[..|keys| - 1], keys[|keys| - 1];
      EnqueueAllSpec(q, init);
      var mid := EnqueueAll(q, init);
      EnqueueSpec(mid, k);
      assert keys == init + [k];
      var r := Enqueue(mid, k);
      assert r[..|q|] == mid[..|q|];
    }
  }

  // ---------------------------------------------------------------------------
  // Properties of the due check and the batch

  /** A due check against a fresh stamp at `t` fails at `t + interval` and holds one
      millisecond later; a never-stamped address is due once `now` exceeds the interval. */
  lemma DueAfterStamp(last: map<string, int>, interval: int, a: string, t: int, now: int)
    ensures !Due(last[a := t], interval, a, t + interval)
    ensures Due(last[a := t], interval, a, t + interval + 1)
    ensures a !in last ==> (Due(last, interval, a, now) <==> now > interval)
  {
  }

  lemma {:induction false} DueFilterSpec(q: seq<string>, last: map<string, int>, interval: int, now: int)
    ensures forall x :: x in DueFilter(q, last, interval, now) <==> x in q && Due(last, interval, x, now)
    ensures NoDup(q) ==> NoDup(DueFilter(q, last, interval, now))
  {
    if q != [] {
      assert q == [q[0]] + q[1..];
      assert NoDup(q) ==> NoDup(q[1..]) && q[0] !in q[1..] by {
        if NoDup(q) {
          forall i, j | 0 <= i < j < |q[1..]| ensures q[1..][i] != q[1..][j] {
            assert q[1..][i] == q[i + 1] && q[1..][j] == q[j + 1];
          }
          forall j | 0 <= j < |q[1..]| ensures q[1..][j] != q[0] {
            assert q[1..][j] == q[j + 1];
          }
        }
      }
      DueFilterSpec(q[1..], last, interval, now);
    }
  }

  /** The batch is the first `min(10, #due)` due addresses in queue order: every one is
      queued and due, and a duplicate-free queue gives a duplicate-free batch. */
  lemma BatchSpec(q: seq<string>, last: map<string, int>, interval: int, now: int)
    ensures var due, batch := DueFilter(q, last, interval, now), Batch(q, last, interval, now);
      && |batch| == (if |due| < BatchSize then |due| else BatchSize)
      && batch == due[..|batch|]
      && (forall x :: x in batch ==> x in q && Due(last, interval, x, now))
      && (NoDup(q) ==> NoDup(batch))
  {
    var due := DueFilter(q, last, interval, now);
    DueFilterSpec(q, last, interval, now);
    assert due[..|due|] == due;
    forall x | x in Batch(q, last, interval, now) ensures x in due {
    }
  }

  /** Filtering for due addresses commutes with dropping the batch. */
  lemma {:induction false} DueFilterRemoveAll(q: seq<string>, drop: seq<string>,
                                              last: map<string, int>, interval: int, now: int)
    ensures DueFilter(RemoveAll(q, drop), last, interval, now)
            == RemoveAll(DueFilter(q, last, interval, now), drop)
  {
    if q != [] {
      DueFilterRemoveAll(q[1..], drop, last, interval, now);
      var rest := RemoveAll(q[1..], drop);
      if q[0] !in drop {
        assert ([q[0]] + rest)[0] == q[0] && ([q[0]] + rest)[1..] == rest;
      }
      if Due(last, interval, q[0], now) {
        var d := DueFilter(q[1..], last, interval, now);
        assert ([q[0]] + d)[0] == q[0] && ([q[0]] + d)[1..] == d;
      }
    }
  }

  /** Stamps on addresses outside `q` do not change which addresses of `q` are due. */
  lemma {:induction false} DueFilterIgnoresOtherStamps(q: seq<string>, last: map<string, int>,
      batch: seq<string>, fetch: string -> FetchOutcome, time: int, interval: int, now: int)
    requires forall x :: x in q ==> x !in batch
    ensures DueFilter(q, Stamped(last, batch, fetch, time), interval, now)
            == DueFilter(q, last, interval, now)
  {
    if q != [] {
      assert q[0] in q;
      forall x | x in q[1..] ensures x !in batch {
        assert x in q;
      }
      DueFilterIgnoresOtherStamps(q[1..], last, batch, fetch, time, interval, now);
      assert LastUpdate(Stamped(last, batch, fetch, time), q[0]) == LastUpdate(last, q[0]);
    }
  }

  /** After a cycle, the addresses still queued and due are exactly the due addresses
      that did not fit in the batch, in queue order. */
  lemma CycleLeavesOverflowQueued(q: seq<string>, last: map<string, int>, interval: int,
                                  now: int, fetch: string -> FetchOutcome)
    requires NoDup(q)
    ensures var batch := Batch(q, last, interval, now);
      DueFilter(RemoveAll(q, batch), Stamped(last, batch, fetch, now), interval, now)
        == DueFilter(q, last, interval, now)[|batch|..]
  {
    var due := DueFilter(q, last, interval, now);
    var batch := Batch(q, last, interval, now);
    var rest := RemoveAll(q, batch);
    RemoveAllMembers(q, batch);
    DueFilterIgnoresOtherStamps(rest, last, batch, fetch, now, interval, now);
    DueFilterRemoveAll(q, batch, last, interval, now);
    BatchSpec(q, last, interval, now);
    DueFilterSpec(q, last, interval, now);
    RemoveAllPrefix(due, |batch|);
  }

  /** With fifteen due addresses queued, a cycle fetches ten and leaves five queued
      and still due. */
  lemma FifteenDueScenario(q: seq<string>, last: map<string, int>, interval: int, now: int,
                           fetch: string -> FetchOutcome)
    requires NoDup(q) && |DueFilter(q, last, interval, now)| == 15
    ensures |Batch(q, last, interval, now)| == 10
    ensures var batch := Batch(q, last, interval, now);
      |DueFilter(RemoveAll(q, batch), Stamped(last, batch, fetch, now), interval, now)| == 5
  {
    CycleLeavesOverflowQueued(q, last, interval, now, fetch);
  }

  /** After a cycle the queue has lost exactly the batch addresses, whatever their fetch
      outcome, and every batch address whose fetch did not throw is not due again until
      the interval has passed. */
  lemma CycleEffect(q: seq<string>, last: map<string, int>, interval: int, now: int,
                    fetch: string -> FetchOutcome)
    ensures var batch := Batch(q, last, interval, now);
      && (forall x :: x in RemoveAll(q, batch) <==> x in q && x !in batch)
      && (forall x :: x in batch && !fetch(x).Threw? ==>
            Stamped(last, batch, fetch, now)[x] == now
            && !Due(Stamped(last, batch, fetch, now), interval, x, now + interval)
            && Due(Stamped(last, batch, fetch, now), interval, x, now + interval + 1))
      && (forall x :: x !in batch || fetch(x).Threw? ==>
            (x in Stamped(last, batch, fetch, now) <==> x in last)
            && LastUpdate(Stamped(last, batch, fetch, now), x) == LastUpdate(last, x))
  {
    RemoveAllMembers(q, Batch(q, last, interval, now));
  }
}
