/** One pass of the polling loop in `main` (src/main.rs:62-136): fetch the
    coin list, then ask for the quotes of at most 500 coins at a time,
    sleeping the current backoff before each request, and merge every
    batch's quotes into the list. */
module Polling {
  import opened Base
  import opened Payload
  import opened Rest
  import opened Executor

  /** `RATES_TOKENS_PER_REQUEST`: the most ids one price request names. */
  const RATES_TOKENS_PER_REQUEST: nat := 500

  // ---------------------------------------------------------------- batches

  /** `coins_len.div_ceil(RATES_TOKENS_PER_REQUEST)`: the least number of
      500-id batches that hold `len` ids. */
  function BatchCount(len: nat): nat
  {
    if len % RATES_TOKENS_PER_REQUEST > 0 then len / RATES_TOKENS_PER_REQUEST + 1
    else len / RATES_TOKENS_PER_REQUEST
  }

  /** There are no batches exactly when there are no ids, and the batches
      hold all `len` ids with room for fewer than 500 more. */
  lemma BatchCountBounds(len: nat)
    ensures BatchCount(len) == 0 <==> len == 0
    ensures BatchCount(len) > 0 ==>
              (BatchCount(len) - 1) * RATES_TOKENS_PER_REQUEST < len <= BatchCount(len) * RATES_TOKENS_PER_REQUEST
  {
  }

  /** The half-open index range `(start, end)` of batch `i`: the last batch
      ends at `len`, every other one holds exactly 500 ids. */
  function BatchRange(i: nat, len: nat): (r: (nat, nat))
    requires i < BatchCount(len)
    ensures r.0 == i * RATES_TOKENS_PER_REQUEST
    ensures r.0 < r.1 <= len && r.1 - r.0 <= RATES_TOKENS_PER_REQUEST
  {
    BatchCountBounds(len);
    var start := i * RATES_TOKENS_PER_REQUEST;
    var end := if i == BatchCount(len) - 1 then len else start + RATES_TOKENS_PER_REQUEST;
    (start, end)
  }

  /** The batches are contiguous: the first starts at 0, each one starts
      where the previous one ends, and the last ends at `len`. */
  lemma BatchesContiguous(len: nat)
    ensures len > 0 ==> BatchRange(0, len).0 == 0 && BatchRange(BatchCount(len) - 1, len).1 == len
    ensures forall i :: 0 <= i < BatchCount(len) - 1 ==> BatchRange(i, len).1 == BatchRange(i + 1, len).0
  {
  }

  /** Every index below `len` lies in exactly one batch, batch `k / 500`. */
  lemma BatchOf(len: nat, k: nat)
    requires k < len
    ensures k / RATES_TOKENS_PER_REQUEST < BatchCount(len)
    ensures forall i :: 0 <= i < BatchCount(len) ==>
              (BatchRange(i, len).0 <= k < BatchRange(i, len).1 <==> i == k / RATES_TOKENS_PER_REQUEST)
  {
    var b := k / RATES_TOKENS_PER_REQUEST;
    assert b * RATES_TOKENS_PER_REQUEST <= k < (b + 1) * RATES_TOKENS_PER_REQUEST;
    forall i | 0 <= i < BatchCount(len)
      ensures BatchRange(i, len).0 <= k < BatchRange(i, len).1 <==> i == b
    {
      if i < b {
        assert (i + 1) * RATES_TOKENS_PER_REQUEST <= b * RATES_TOKENS_PER_REQUEST;
      } else if i > b {
        assert i * RATES_TOKENS_PER_REQUEST >= (b + 1) * RATES_TOKENS_PER_REQUEST;
      }
    }
  }

  /** The ids of `coins`, in order. */
  function IdsOf(coins: seq<CgCoin>): (ids: seq<string>)
    ensures |ids| == |coins|
    ensures forall j :: 0 <= j < |coins| ==> ids[j] == coins[j].id
  {
    seq(|coins|, j requires 0 <= j < |coins| => coins[j].id)
  }

  /** The ids batch `i` asks for. */
  function BatchIds(coins: seq<CgCoin>, i: nat): seq<string>
    requires i < BatchCount(|coins|)
  {
    var r := BatchRange(i, |coins|);
    IdsOf(coins[r.0..r.1])
  }

  /** The ids of batches `i`, `i + 1`, ... in request order. */
  function IdsFrom(coins: seq<CgCoin>, i: nat): seq<string>
    requires i <= BatchCount(|coins|)
    decreases BatchCount(|coins|) - i
  {
    if i == BatchCount(|coins|) then [] else BatchIds(coins, i) + IdsFrom(coins, i + 1)
  }

  /** The batches from `i` on ask for the ids of the coins from `i * 500`
      on, in list order. */
  lemma {:induction false} BatchesCoverIdsFrom(coins: seq<CgCoin>, i: nat)
    requires i <= BatchCount(|coins|)
    ensures i * RATES_TOKENS_PER_REQUEST <= |coins| ==>
              IdsFrom(coins, i) == IdsOf(coins[i * RATES_TOKENS_PER_REQUEST..])
    decreases BatchCount(|coins|) - i
  {
    if i < BatchCount(|coins|) {
      BatchesCoverIdsFrom(coins, i + 1);
      var r := BatchRange(i, |coins|);
      if i + 1 < BatchCount(|coins|) {
        assert r.1 == (i + 1) * RATES_TOKENS_PER_REQUEST;
      } else {
        assert r.1 == |coins|;
        assert coins[r.1..] == [];
      }
      assert coins[r.0..] == coins[r.0..r.1] + coins[r.1..];
      assert IdsOf(coins[r.0..]) == IdsOf(coins[r.0..r.1]) + IdsOf(coins[r.1..]);
    } else if i * RATES_TOKENS_PER_REQUEST <= |coins| {
      assert coins[i * RATES_TOKENS_PER_REQUEST..] == [];
    }
  }

  /** Together the batches ask for every coin's id exactly once, in list
      order. */
  lemma BatchesCoverIds(coins: seq<CgCoin>)
    ensures IdsFrom(coins, 0) == IdsOf(coins)
  {
    BatchesCoverIdsFrom(coins, 0);
    assert coins[0..] == coins;
  }

  // ------------------------------------------------------------ rate merge

  /** The rate a quote gives its coin: a zero price is no price. */
  function NormalizedUsd(usd: real): (r: Option<real>)
    ensures r.None? <==> usd == 0.0
    ensures r.Some? ==> r.value == usd
  {
    if usd == 0.0 then None else Some(usd)
  }

  /** The predicate of `coins.iter_mut().find(|x| x.id == id)`. */
  function IdIs(id: string): CgCoin -> bool
  {
    (c: CgCoin) => c.id == id
  }

  /** What one quote does to the list: with a `usd` price, the first coin
      with the quote's id gets the normalised price; nothing else changes. */
  function MergeOne(coins: seq<CgCoin>, id: string, rate: CgRate): (r: seq<CgCoin>)
    ensures |r| == |coins|
    ensures forall j :: 0 <= j < |coins| ==> r[j] == coins[j].(rate := r[j].rate)
    ensures forall j :: 0 <= j < |coins| && r[j] != coins[j] ==>
              rate.usd.Some? && FirstIndex(coins, IdIs(id)) == Some(j)
    ensures rate.usd.Some? && FirstIndex(coins, IdIs(id)).Some? ==>
              r[FirstIndex(coins, IdIs(id)).value].rate == NormalizedUsd(rate.usd.value)
  {
    if rate.usd.None? then coins
    else match FirstIndex(coins, IdIs(id))
      case None => coins
      case Some(j) => coins[j := coins[j].(rate := NormalizedUsd(rate.usd.value))]
  }

  /** Coin `j` once the quotes of `keys` are merged: a coin that is the
      first with its id, whose id is among `keys` and whose quote has a
      `usd` price takes the normalised price; every other coin is as it was. */
  function MergedCoin(coins: seq<CgCoin>, j: nat, rates: CgRateMap, keys: set<string>): CgCoin
    requires j < |coins|
  {
    var c := coins[j];
    if c.id in keys && c.id in rates && rates[c.id].usd.Some? && FirstIndex(coins, IdIs(c.id)) == Some(j)
    then c.(rate := NormalizedUsd(rates[c.id].usd.value))
    else c
  }

  /** The list after the quotes of `keys` are merged, in any order. */
  function MergeKeys(coins: seq<CgCoin>, rates: CgRateMap, keys: set<string>): (r: seq<CgCoin>)
    ensures |r| == |coins|
    ensures forall j :: 0 <= j < |coins| ==> r[j] == MergedCoin(coins, j, rates, keys)
  {
    seq(|coins|, j requires 0 <= j < |coins| => MergedCoin(coins, j, rates, keys))
  }

  /** The list after all the quotes of one response are merged. */
  function MergeAll(coins: seq<CgCoin>, rates: CgRateMap): seq<CgCoin>
  {
    MergeKeys(coins, rates, rates.Keys)
  }

  /** Merging one response changes only `rate` fields, and only that of a
      coin that is the first with its id and whose quote has a `usd` price;
      every such coin takes that price (zero read as none). */
  lemma MergeAllChanges(coins: seq<CgCoin>, rates: CgRateMap)
    ensures |MergeAll(coins, rates)| == |coins|
    ensures forall j :: 0 <= j < |coins| ==> MergeAll(coins, rates)[j] == coins[j].(rate := MergeAll(coins, rates)[j].rate)
    ensures forall j :: 0 <= j < |coins| && MergeAll(coins, rates)[j] != coins[j] ==>
              && coins[j].id in rates && rates[coins[j].id].usd.Some?
              && FirstIndex(coins, IdIs(coins[j].id)) == Some(j)
    ensures forall j :: 0 <= j < |coins| && coins[j].id in rates && rates[coins[j].id].usd.Some?
                          && FirstIndex(coins, IdIs(coins[j].id)) == Some(j) ==>
              MergeAll(coins, rates)[j].rate == NormalizedUsd(rates[coins[j].id].usd.value)
  {
  }

  /** Merging only touches `rate`, so the first coin with an id stays the
      first. */
  lemma SameIdsSameFirst(a: seq<CgCoin>, b: seq<CgCoin>, id: string)
    requires |a| == |b| && forall j :: 0 <= j < |a| ==> a[j].id == b[j].id
    ensures FirstIndex(a, IdIs(id)) == FirstIndex(b, IdIs(id))
  {
    FirstIndexAgrees(a, b, IdIs(id));
  }

  /** Merging one more quote into a partly merged list. */
  lemma MergeStep(coins: seq<CgCoin>, rates: CgRateMap, done: set<string>, id: string)
    requires id in rates && id !in done
    ensures MergeOne(MergeKeys(coins, rates, done), id, rates[id]) == MergeKeys(coins, rates, done + {id})
  {
    var cur := MergeKeys(coins, rates, done);
    SameIdsSameFirst(cur, coins, id);
    var next := MergeOne(cur, id, rates[id]);
    var want := MergeKeys(coins, rates, done + {id});
    forall j | 0 <= j < |coins|
      ensures next[j] == want[j]
    {
      if coins[j].id == id {
        assert cur[j] == coins[j];
      } else {
        assert FirstIndex(cur, IdIs(id)) != Some(j);
      }
    }
  }

  /** No element of `order` occurs twice. */
  predicate Distinct(order: seq<string>)
  {
    forall a, b :: 0 <= a < b < |order| ==> order[a] != order[b]
  }

  /** The quotes merged one after another in the order `order`. */
  function MergeInOrder(coins: seq<CgCoin>, rates: CgRateMap, order: seq<string>): seq<CgCoin>
    requires forall k :: 0 <= k < |order| ==> order[k] in rates
    decreases |order|
  {
    if order == [] then coins
    else
      var last := order[|order| - 1];
      MergeOne(MergeInOrder(coins, rates, order[..|order| - 1]), last, rates[last])
  }

  /** The order in which the map hands out its quotes does not matter: any
      enumeration of the keys merges to the same list. */
  lemma {:induction false} MergeOrderIrrelevant(coins: seq<CgCoin>, rates: CgRateMap, order: seq<string>)
    requires Distinct(order) && forall k :: 0 <= k < |order| ==> order[k] in rates
    ensures MergeInOrder(coins, rates, order) == MergeKeys(coins, rates, set k | k in order)
    decreases |order|
  {
    if order == [] {
      assert MergeKeys(coins, rates, {}) == coins;
    } else {
      var front := order[..|order| - 1];
      var last := order[|order| - 1];
      MergeOrderIrrelevant(coins, rates, front);
      var keys := set k | k in front;
      assert last !in keys;
      MergeStep(coins, rates, keys, last);
      assert keys + {last} == set k | k in order;
    }
  }

  /** The merge loop over one response: for each quote, in whatever order
      the map yields them, a `usd` price (zero read as none) is written into
      the first coin with the quote's id. */
  method MergeRates(coins: array<CgCoin>, rates: CgRateMap)
    modifies coins
    ensures coins[..] == MergeAll(old(coins[..]), rates)
  {
    ghost var before := coins[..];
    var remaining := rates.Keys;
    ghost var done: set<string> := {};
    assert MergeKeys(before, rates, {}) == before;
    while remaining != {}
      invariant remaining + done == rates.Keys && remaining !! done
      invariant coins[..] == MergeKeys(before, rates, done)
      decreases remaining
    {
      var id :| id in remaining;
      var rate := rates[id];
      ghost var prev := coins[..];
      if rate.usd.Some? {
        var rateUsd := if rate.usd.value == 0.0 then None else rate.usd;
        var found := Find(coins[..], IdIs(id));
        if found.Some? {
          coins[found.value] := coins[found.value].(rate := rateUsd);
        }
      }
      assert coins[..] == MergeOne(prev, id, rate);
      MergeStep(before, rates, done, id);
      remaining := remaining - {id};
      done := done + {id};
    }
  }

  // ----------------------------------------------------------- batch loop

  /** The id lists of all the batches of `coins`, in request order. */
  function Batches(coins: seq<CgCoin>): seq<seq<string>>
  {
    seq(BatchCount(|coins|), i requires 0 <= i < BatchCount(|coins|) => BatchIds(coins, i))
  }

  /** Lists with the same ids, in the same order, are cut into the same
      batches. */
  lemma SameIdsSameBatches(a: seq<CgCoin>, b: seq<CgCoin>)
    requires IdsOf(a) == IdsOf(b)
    ensures Batches(a) == Batches(b)
  {
    assert |a| == |IdsOf(a)| == |b|;
    forall i | 0 <= i < BatchCount(|a|)
      ensures BatchIds(a, i) == BatchIds(b, i)
    {
      var r := BatchRange(i, |a|);
      assert IdsOf(a[r.0..r.1]) == IdsOf(a)[r.0..r.1];
      assert IdsOf(b[r.0..r.1]) == IdsOf(b)[r.0..r.1];
    }
  }

  /** The list after the quotes of several responses are merged, one
      response after another. */
  function MergeEach(coins: seq<CgCoin>, received: seq<CgRateMap>): seq<CgCoin>
    decreases |received|
  {
    if received == [] then coins
    else MergeAll(MergeEach(coins, received[..|received| - 1]), received[|received| - 1])
  }

  /** One more response merged after the others. */
  lemma MergeEachSnoc(coins: seq<CgCoin>, received: seq<CgRateMap>, rates: CgRateMap)
    ensures MergeEach(coins, received + [rates]) == MergeAll(MergeEach(coins, received), rates)
  {
    assert (received + [rates])[..|received|] == received;
  }

  /** However many responses are merged, only `rate` fields change. */
  lemma {:induction false} MergeEachKeepsIds(coins: seq<CgCoin>, received: seq<CgRateMap>)
    ensures |MergeEach(coins, received)| == |coins|
    ensures forall j :: 0 <= j < |coins| ==> MergeEach(coins, received)[j] == coins[j].(rate := MergeEach(coins, received)[j].rate)
    decreases |received|
  {
    if received != [] {
      var front := received[..|received| - 1];
      MergeEachKeepsIds(coins, front);
      MergeAllChanges(MergeEach(coins, front), received[|received| - 1]);
    }
  }

  /** Merging never changes the ids, so it never changes the batches. */
  lemma MergeEachKeepsBatches(coins: seq<CgCoin>, received: seq<CgRateMap>)
    ensures Batches(MergeEach(coins, received)) == Batches(coins)
  {
    var merged := MergeEach(coins, received);
    MergeEachKeepsIds(coins, received);
    assert IdsOf(merged) == IdsOf(coins);
    SameIdsSameBatches(merged, coins);
  }

  datatype PollError = CoinsFailed(error: FetchError) | RatesFailed(error: FetchError)

  /** Where a pass stands: how it ended (so far), the backoff counter, the
      responses consumed, the sleeps taken before each price request (in
      milliseconds), `rates_found_num`, the quote maps received so far, in
      order, and the ban sleeps the requests took (in seconds), in order. */
  datatype Poll = Poll(outcome: Exit<Result<(), PollError>>, backoffMs: nat, used: nat,
                       waits: seq<nat>, ratesFound: nat, received: seq<CgRateMap>, banSleeps: seq<nat>)

  /** A finished pass and the coin list it leaves. */
  datatype Synced = Synced(poll: Poll, coins: seq<CgCoin>)

  function Start(backoffMs: nat): Poll
  {
    Poll(Returned(Ok(())), backoffMs, 0, [], 0, [], [])
  }

  /** One price request: from the batch's ids, the responses still to come
      and the backoff, what the call returns and does. */
  type RatesFetch = (seq<string>, seq<Response>, nat) -> Run<Result<CgRateMap, FetchError>>

  /** A request consumes no more responses than there are and never lowers
      the backoff. */
  ghost predicate Consumes(fetch: RatesFetch)
  {
    forall ids, rest, b :: fetch(ids, rest, b).used <= |rest| && fetch(ids, rest, b).backoffMs >= b
  }

  /** `fetch` answers every price request as `fetch_rates` with template
      `s` does. */
  ghost predicate FetchesRates(fetch: RatesFetch, s: BuilderState, dec: Decoders)
  {
    forall ids, rest, b {:trigger FetchRatesSpec(s, ids, rest, dec, b)} ::
      fetch(ids, rest, b) == FetchRatesSpec(s, ids, rest, dec, b)
  }

  /** `fetch_rates` with the given price template. */
  function RatesFetcher(template: BuilderState, dec: Decoders): (fetch: RatesFetch)
    ensures Consumes(fetch) && FetchesRates(fetch, template, dec)
  {
    (ids: seq<string>, rest: seq<Response>, b: nat) => FetchRatesSpec(template, ids, rest, dec, b)
  }

  /** The batch loop from batch `i` on, with the responses from position
      `p.used` of `transport`: sleep the backoff, fetch the batch's quotes,
      stop on an error, otherwise count them and keep them for the merge. */
  function Sync(fetch: RatesFetch, batches: seq<seq<string>>, i: nat, transport: seq<Response>, p: Poll): Poll
    requires Consumes(fetch) && i <= |batches| && p.used <= |transport|
    decreases |batches| - i
  {
    if i == |batches| then p
    else
      var fetched := fetch(batches[i], transport[p.used..], p.backoffMs);
      var after := p.(waits := p.waits + [p.backoffMs], backoffMs := fetched.backoffMs, used := p.used + fetched.used,
                        banSleeps := p.banSleeps + fetched.sleeps);
      match fetched.outcome
      case Panicked(reason) => after.(outcome := Panicked(reason))
      case Returned(Err(e)) => after.(outcome := Returned(Err(RatesFailed(e))))
      case Returned(Ok(rates)) =>
        Sync(fetch, batches, i + 1, transport,
             after.(ratesFound := p.ratesFound + |rates|, received := p.received + [rates]))
  }

  /** The backoff never shrinks, the responses consumed stay within those
      given, and there is at most one sleep per batch, appended after the
      earlier ones; a pass that succeeds sleeps exactly once per batch. */
  lemma {:induction false} SyncProgress(fetch: RatesFetch, batches: seq<seq<string>>, i: nat, transport: seq<Response>,
                                        p: Poll)
    requires Consumes(fetch) && i <= |batches| && p.used <= |transport|
    ensures var r := Sync(fetch, batches, i, transport, p);
      && r.backoffMs >= p.backoffMs
      && p.used <= r.used <= |transport|
      && r.ratesFound >= p.ratesFound
      && |p.waits| <= |r.waits| <= |p.waits| + |batches| - i
      && r.waits[..|p.waits|] == p.waits
      && (p.outcome == Returned(Ok(())) && r.outcome == Returned(Ok(())) ==> |r.waits| == |p.waits| + |batches| - i)
    decreases |batches| - i
  {
    if i < |batches| {
      var fetched := fetch(batches[i], transport[p.used..], p.backoffMs);
      var after := p.(waits := p.waits + [p.backoffMs], backoffMs := fetched.backoffMs, used := p.used + fetched.used,
                        banSleeps := p.banSleeps + fetched.sleeps);
      if fetched.outcome.Returned? && fetched.outcome.value.Ok? {
        var rates := fetched.outcome.value.value;
        var q := after.(ratesFound := p.ratesFound + |rates|, received := p.received + [rates]);
        SyncProgress(fetch, batches, i + 1, transport, q);
        var r := Sync(fetch, batches, i + 1, transport, q);
        assert r.waits[..|p.waits|] == q.waits[..|q.waits|][..|p.waits|];
      } else {
        assert after.waits[..|p.waits|] == p.waits;
      }
    }
  }

  /** `rates_found_num` counts the quotes of every response received. */
  function TotalQuotes(received: seq<CgRateMap>): nat
    decreases |received|
  {
    if received == [] then 0 else TotalQuotes(received[..|received| - 1]) + |received[|received| - 1]|
  }

  lemma TotalQuotesSnoc(received: seq<CgRateMap>, rates: CgRateMap)
    ensures TotalQuotes(received + [rates]) == TotalQuotes(received) + |rates|
  {
    assert (received + [rates])[..|received|] == received;
  }

  /** The quote maps received stay in request order, at most one per
      batch, after those received before. */
  lemma {:induction false} SyncReceived(fetch: RatesFetch, batches: seq<seq<string>>, i: nat,
                                        transport: seq<Response>, p: Poll)
    requires Consumes(fetch) && i <= |batches| && p.used <= |transport|
    ensures var r := Sync(fetch, batches, i, transport, p);
      && |p.received| <= |r.received| <= |p.received| + |batches| - i
      && r.received[..|p.received|] == p.received
    decreases |batches| - i
  {
    if i < |batches| {
      var fetched := fetch(batches[i], transport[p.used..], p.backoffMs);
      var after := p.(waits := p.waits + [p.backoffMs], backoffMs := fetched.backoffMs, used := p.used + fetched.used,
                        banSleeps := p.banSleeps + fetched.sleeps);
      if fetched.outcome.Returned? && fetched.outcome.value.Ok? {
        var rates := fetched.outcome.value.value;
        var q := after.(ratesFound := p.ratesFound + |rates|, received := p.received + [rates]);
        SyncReceived(fetch, batches, i + 1, transport, q);
        var r := Sync(fetch, batches, i + 1, transport, q);
        assert r.received[..|p.received|] == q.received[..|q.received|][..|p.received|];
      }
    }
  }

  /** `rates_found_num` is the total number of quotes received. */
  lemma {:induction false} SyncCountsQuotes(fetch: RatesFetch, batches: seq<seq<string>>, i: nat,
                                            transport: seq<Response>, p: Poll)
    requires Consumes(fetch) && i <= |batches| && p.used <= |transport|
    requires p.ratesFound == TotalQuotes(p.received)
    ensures var r := Sync(fetch, batches, i, transport, p); r.ratesFound == TotalQuotes(r.received)
    decreases |batches| - i
  {
    if i < |batches| {
      var fetched := fetch(batches[i], transport[p.used..], p.backoffMs);
      if fetched.outcome.Returned? && fetched.outcome.value.Ok? {
        var rates := fetched.outcome.value.value;
        var q := p.(waits := p.waits + [p.backoffMs], backoffMs := fetched.backoffMs, used := p.used + fetched.used,
                        banSleeps := p.banSleeps + fetched.sleeps,
                    ratesFound := p.ratesFound + |rates|, received := p.received + [rates]);
        TotalQuotesSnoc(p.received, rates);
        SyncCountsQuotes(fetch, batches, i + 1, transport, q);
      }
    }
  }

  /** Each price request is preceded by a sleep of the backoff current at
      that point, so every sleep lies between the backoff before and after
      the pass. */
  lemma {:induction false} SyncWaitsBounded(fetch: RatesFetch, batches: seq<seq<string>>, i: nat,
                                            transport: seq<Response>, p: Poll)
    requires Consumes(fetch) && i <= |batches| && p.used <= |transport|
    ensures var r := Sync(fetch, batches, i, transport, p);
      forall k :: |p.waits| <= k < |r.waits| ==> p.backoffMs <= r.waits[k] <= r.backoffMs
    decreases |batches| - i
  {
    if i < |batches| {
      var fetched := fetch(batches[i], transport[p.used..], p.backoffMs);
      var after := p.(waits := p.waits + [p.backoffMs], backoffMs := fetched.backoffMs, used := p.used + fetched.used,
                        banSleeps := p.banSleeps + fetched.sleeps);
      var r := Sync(fetch, batches, i, transport, p);
      if fetched.outcome.Returned? && fetched.outcome.value.Ok? {
        var rates := fetched.outcome.value.value;
        var q := after.(ratesFound := p.ratesFound + |rates|, received := p.received + [rates]);
        assert r == Sync(fetch, batches, i + 1, transport, q);
        SyncWaitsBounded(fetch, batches, i + 1, transport, q);
        SyncProgress(fetch, batches, i + 1, transport, q);
        forall k | |p.waits| <= k < |r.waits|
          ensures p.backoffMs <= r.waits[k] <= r.backoffMs
        {
          if k == |p.waits| {
            assert r.waits[..|q.waits|][k] == r.waits[k];
          }
        }
      } else {
        assert r.waits == p.waits + [p.backoffMs] && r.backoffMs == fetched.backoffMs;
      }
    }
  }

  /** The sleeps before successive price requests never shrink. */
  lemma {:induction false} SyncWaitsSorted(fetch: RatesFetch, batches: seq<seq<string>>, i: nat,
                                           transport: seq<Response>, p: Poll)
    requires Consumes(fetch) && i <= |batches| && p.used <= |transport|
    ensures var r := Sync(fetch, batches, i, transport, p);
      forall a, b :: |p.waits| <= a < b < |r.waits| ==> r.waits[a] <= r.waits[b]
    decreases |batches| - i
  {
    if i < |batches| {
      var fetched := fetch(batches[i], transport[p.used..], p.backoffMs);
      var after := p.(waits := p.waits + [p.backoffMs], backoffMs := fetched.backoffMs, used := p.used + fetched.used,
                        banSleeps := p.banSleeps + fetched.sleeps);
      var r := Sync(fetch, batches, i, transport, p);
      if fetched.outcome.Returned? && fetched.outcome.value.Ok? {
        var rates := fetched.outcome.value.value;
        var q := after.(ratesFound := p.ratesFound + |rates|, received := p.received + [rates]);
        assert r == Sync(fetch, batches, i + 1, transport, q);
        SyncWaitsSorted(fetch, batches, i + 1, transport, q);
        SyncWaitsBounded(fetch, batches, i + 1, transport, q);
        SyncProgress(fetch, batches, i + 1, transport, q);
        forall a, b | |p.waits| <= a < b < |r.waits|
          ensures r.waits[a] <= r.waits[b]
        {
          if a == |p.waits| {
            assert r.waits[..|q.waits|][a] == r.waits[a];
          }
        }
      } else {
        assert r.waits == p.waits + [p.backoffMs];
      }
    }
  }

  /** One batch whose quotes came back: the pass goes on with the next
      batch. */
  lemma SyncStepOk(fetch: RatesFetch, batches: seq<seq<string>>, i: nat, transport: seq<Response>, p: Poll,
                   fetched: Run<Result<CgRateMap, FetchError>>)
    requires Consumes(fetch) && i < |batches| && p.used <= |transport|
    requires fetched == fetch(batches[i], transport[p.used..], p.backoffMs) && fetched.outcome.Returned?
    requires fetched.outcome.value.Ok?
    ensures p.used + fetched.used <= |transport|
    ensures Sync(fetch, batches, i, transport, p) ==
            Sync(fetch, batches, i + 1, transport,
                 p.(waits := p.waits + [p.backoffMs], backoffMs := fetched.backoffMs, used := p.used + fetched.used,
                        banSleeps := p.banSleeps + fetched.sleeps,
                    ratesFound := p.ratesFound + |fetched.outcome.value.value|,
                    received := p.received + [fetched.outcome.value.value]))
  {
  }

  /** An iteration whose price request fails or panics ends the pass there,
      with that iteration's bookkeeping. */
  lemma SyncStepStop(fetch: RatesFetch, batches: seq<seq<string>>, i: nat, transport: seq<Response>, p: Poll,
                     fetched: Run<Result<CgRateMap, FetchError>>)
    requires Consumes(fetch) && i < |batches| && p.used <= |transport|
    requires fetched == fetch(batches[i], transport[p.used..], p.backoffMs)
    requires !(fetched.outcome.Returned? && fetched.outcome.value.Ok?)
    ensures p.used + fetched.used <= |transport|
    ensures Sync(fetch, batches, i, transport, p) ==
            p.(waits := p.waits + [p.backoffMs], backoffMs := fetched.backoffMs, used := p.used + fetched.used,
               banSleeps := p.banSleeps + fetched.sleeps,
               outcome := if fetched.outcome.Panicked? then Panicked(fetched.outcome.reason)
                          else Returned(Err(RatesFailed(fetched.outcome.value.error))))
  {
  }

  /** Any state `q` that records one iteration from `p` with the answer
      `fetched` is where `Sync` goes next: on to batch `i + 1` when the
      answer was a quote map, and nowhere when it was an error or a panic. */
  lemma SyncStepAgrees(fetch: RatesFetch, batches: seq<seq<string>>, i: nat, transport: seq<Response>, p: Poll,
                       fetched: Run<Result<CgRateMap, FetchError>>, q: Poll)
    requires Consumes(fetch) && i < |batches| && p.used <= |transport| && p.outcome == Returned(Ok(()))
    requires fetched == fetch(batches[i], transport[p.used..], p.backoffMs)
    requires q.waits == p.waits + [p.backoffMs] && q.backoffMs == fetched.backoffMs && q.used == p.used + fetched.used
    requires q.banSleeps == p.banSleeps + fetched.sleeps
    requires match fetched.outcome
             case Panicked(reason) => q == p.(waits := q.waits, backoffMs := q.backoffMs, used := q.used,
                                              banSleeps := q.banSleeps, outcome := Panicked(reason))
             case Returned(Err(e)) => q == p.(waits := q.waits, backoffMs := q.backoffMs, used := q.used,
                                              banSleeps := q.banSleeps, outcome := Returned(Err(RatesFailed(e))))
             case Returned(Ok(rates)) => q == p.(waits := q.waits, backoffMs := q.backoffMs, used := q.used,
                                                 banSleeps := q.banSleeps, ratesFound := p.ratesFound + |rates|,
                                                 received := p.received + [rates])
    ensures q.used <= |transport|
    ensures Sync(fetch, batches, i, transport, p) ==
            if q.outcome == Returned(Ok(())) then Sync(fetch, batches, i + 1, transport, q) else q
  {
    if fetched.outcome.Returned? && fetched.outcome.value.Ok? {
      SyncStepOk(fetch, batches, i, transport, p, fetched);
    } else {
      SyncStepStop(fetch, batches, i, transport, p, fetched);
    }
  }

  /** The request of one iteration of the batch loop: the range of batch
      `i`, its ids, and the price request for them. */
  method FetchBatch(coins: array<CgCoin>, template: MethodBuilder, ghost fetch: RatesFetch, i: nat, iterations: nat,
                    rest: seq<Response>, dec: Decoders, backoffMs: nat)
    returns (fetched: Run<Result<CgRateMap, FetchError>>)
    requires FetchesRates(fetch, template.State(), dec)
    requires iterations == BatchCount(coins.Length) && i < iterations
    ensures fetched == fetch(Batches(coins[..])[i], rest, backoffMs)
  {
    var start := i * RATES_TOKENS_PER_REQUEST;
    var end := if i == iterations - 1 then coins.Length else start + RATES_TOKENS_PER_REQUEST;
    var ids := IdsOf(coins[start..end]);
    assert ids == BatchIds(coins[..], i) == Batches(coins[..])[i];
    fetched := FetchRates(template, ids, rest, dec, backoffMs);
  }

  /** The merge of one batch's quotes into a list that already holds the
      earlier batches' quotes. */
  method MergeBatch(coins: array<CgCoin>, ghost original: seq<CgCoin>, ghost received: seq<CgRateMap>, rates: CgRateMap)
    modifies coins
    requires coins[..] == MergeEach(original, received)
    ensures coins[..] == MergeEach(original, received + [rates])
  {
    MergeRates(coins, rates);
    MergeEachSnoc(original, received, rates);
  }

  /** One iteration of the batch loop from state `p`: sleep, fetch batch
      `i`'s quotes, and on success count them and merge them into the
      list. The result is where `Sync` goes from `p`. */
  method SyncStep(coins: array<CgCoin>, template: MethodBuilder, ghost fetch: RatesFetch, ghost original: seq<CgCoin>,
                  ghost batches: seq<seq<string>>, transport: seq<Response>, dec: Decoders, i: nat, iterations: nat,
                  p: Poll)
    returns (q: Poll)
    modifies coins
    requires Consumes(fetch) && FetchesRates(fetch, template.State(), dec)
    requires batches == Batches(original)
    requires coins.Length == |original| && iterations == BatchCount(|original|) == |batches| && i < iterations
    requires p.outcome == Returned(Ok(())) && p.used <= |transport| && coins[..] == MergeEach(original, p.received)
    ensures q.used <= |transport| && coins[..] == MergeEach(original, q.received)
    ensures Sync(fetch, batches, i, transport, p) ==
            if q.outcome == Returned(Ok(())) then Sync(fetch, batches, i + 1, transport, q) else q
  {
    MergeEachKeepsBatches(original, p.received);
    var fetched := FetchBatch(coins, template, fetch, i, iterations, transport[p.used..], dec, p.backoffMs);
    assert fetched == fetch(batches[i], transport[p.used..], p.backoffMs);
    match fetched.outcome {
      case Panicked(reason) =>
        q := p.(waits := p.waits + [p.backoffMs], backoffMs := fetched.backoffMs, used := p.used + fetched.used,
                banSleeps := p.banSleeps + fetched.sleeps, outcome := Panicked(reason));
      case Returned(Err(e)) =>
        q := p.(waits := p.waits + [p.backoffMs], backoffMs := fetched.backoffMs, used := p.used + fetched.used,
                banSleeps := p.banSleeps + fetched.sleeps, outcome := Returned(Err(RatesFailed(e))));
      case Returned(Ok(rates)) =>
        MergeBatch(coins, original, p.received, rates);
        q := p.(waits := p.waits + [p.backoffMs], backoffMs := fetched.backoffMs, used := p.used + fetched.used,
                banSleeps := p.banSleeps + fetched.sleeps,
                ratesFound := p.ratesFound + |rates|, received := p.received + [rates]);
    }
    SyncStepAgrees(fetch, batches, i, transport, p, fetched, q);
  }

  /** The batch loop of `main` over the fetched coins, against any `fetch`
      that answers as `fetch_rates` with the price template does. */
  method SyncBatches(coins: array<CgCoin>, template: MethodBuilder, ghost fetch: RatesFetch, transport: seq<Response>,
                     dec: Decoders, backoffMs: nat)
    returns (r: Poll)
    modifies coins
    requires Consumes(fetch) && FetchesRates(fetch, template.State(), dec)
    ensures r == Sync(fetch, Batches(old(coins[..])), 0, transport, Start(backoffMs))
    ensures coins[..] == MergeEach(old(coins[..]), r.received)
  {
    ghost var original := coins[..];
    ghost var spec := Sync(fetch, Batches(original), 0, transport, Start(backoffMs));
    var coinsLen := coins.Length;
    var iterations := if coinsLen % RATES_TOKENS_PER_REQUEST > 0 then coinsLen / RATES_TOKENS_PER_REQUEST + 1
                      else coinsLen / RATES_TOKENS_PER_REQUEST;
    ghost var batches := Batches(original);
    assert iterations == BatchCount(coinsLen) == |batches|;
    r := Start(backoffMs);
    for i := 0 to iterations
      invariant r.outcome == Returned(Ok(())) && r.used <= |transport|
      invariant coins[..] == MergeEach(original, r.received)
      invariant spec == Sync(fetch, batches, i, transport, r)
    {
      r := SyncStep(coins, template, fetch, original, batches, transport, dec, i, iterations, r);
      if r.outcome != Returned(Ok(())) {
        return;
      }
    }
  }

  /** The batch loop of `main` over the fetched coins, with the price
      template, the responses still to come and the backoff counter: its
      bookkeeping is `Sync`'s, and the list it leaves is the original one
      with the quotes received merged in, in order. */
  method SyncRates(coins: array<CgCoin>, template: MethodBuilder, transport: seq<Response>, dec: Decoders,
                   backoffMs: nat)
    returns (r: Poll)
    modifies coins
    ensures r == Sync(RatesFetcher(template.State(), dec), Batches(old(coins[..])), 0, transport, Start(backoffMs))
    ensures coins[..] == MergeEach(old(coins[..]), r.received)
  {
    r := SyncBatches(coins, template, RatesFetcher(template.State(), dec), transport, dec, backoffMs);
  }

  /** One pass of the outer loop of `main`, up to the quotes of the last
      batch: fetch the coin list, then run the batch loop over it. */
  function PollOnceSpec(coinsTemplate: BuilderState, ratesTemplate: BuilderState, transport: seq<Response>,
                        dec: Decoders, backoffMs: nat): Synced
  {
    var fetched := FetchCoinsSpec(coinsTemplate, transport, dec, backoffMs);
    var failed := Start(fetched.backoffMs).(used := fetched.used, banSleeps := fetched.sleeps);
    match fetched.outcome
    case Panicked(reason) => Synced(failed.(outcome := Panicked(reason)), [])
    case Returned(Err(e)) => Synced(failed.(outcome := Returned(Err(CoinsFailed(e)))), [])
    case Returned(Ok(coins)) =>
      var s := Sync(RatesFetcher(ratesTemplate, dec), Batches(coins), 0, transport[fetched.used..],
                    Start(fetched.backoffMs));
      Synced(s.(used := fetched.used + s.used, banSleeps := fetched.sleeps + s.banSleeps), MergeEach(coins, s.received))
  }

  /** A pass never lowers the backoff and consumes no more responses than
      there are, and `rates_found_num` counts every quote received. When
      the coin list arrives, the list the pass leaves holds the same coins
      in the same order, and a pass that completes sleeps once per batch. */
  lemma PollOnceOutcome(coinsTemplate: BuilderState, ratesTemplate: BuilderState, transport: seq<Response>,
                        dec: Decoders, backoffMs: nat)
    ensures var s := PollOnceSpec(coinsTemplate, ratesTemplate, transport, dec, backoffMs);
      && s.poll.backoffMs >= backoffMs
      && s.poll.used <= |transport|
      && s.poll.ratesFound == TotalQuotes(s.poll.received)
    ensures var fetched := FetchCoinsSpec(coinsTemplate, transport, dec, backoffMs);
            var s := PollOnceSpec(coinsTemplate, ratesTemplate, transport, dec, backoffMs);
      fetched.outcome.Returned? && fetched.outcome.value.Ok? ==>
        && |s.coins| == |fetched.outcome.value.value|
        && (forall j :: 0 <= j < |s.coins| ==> s.coins[j].id == fetched.outcome.value.value[j].id)
        && (s.poll.outcome == Returned(Ok(())) ==> |s.poll.waits| == BatchCount(|s.coins|))
  {
    var fetched := FetchCoinsSpec(coinsTemplate, transport, dec, backoffMs);
    if fetched.outcome.Returned? && fetched.outcome.value.Ok? {
      var coins := fetched.outcome.value.value;
      var fetch := RatesFetcher(ratesTemplate, dec);
      var rest := transport[fetched.used..];
      SyncProgress(fetch, Batches(coins), 0, rest, Start(fetched.backoffMs));
      SyncCountsQuotes(fetch, Batches(coins), 0, rest, Start(fetched.backoffMs));
      var s := Sync(fetch, Batches(coins), 0, rest, Start(fetched.backoffMs));
      MergeEachKeepsIds(coins, s.received);
    }
  }

  /** `main` up to the end of the batch loop: fetch the coin list into a
      fresh array, then run the batch loop over it. */
  method PollOnce(coinsTemplate: MethodBuilder, ratesTemplate: MethodBuilder, transport: seq<Response>,
                  dec: Decoders, backoffMs: nat)
    returns (r: Poll, coins: array<CgCoin>)
    ensures Synced(r, coins[..]) ==
            PollOnceSpec(coinsTemplate.State(), ratesTemplate.State(), transport, dec, backoffMs)
  {
    var fetched := FetchCoins(coinsTemplate, transport, dec, backoffMs);
    match fetched.outcome {
      case Panicked(reason) =>
        coins := new CgCoin[0];
        return Poll(Panicked(reason), fetched.backoffMs, fetched.used, [], 0, [], fetched.sleeps), coins;
      case Returned(Err(e)) =>
        coins := new CgCoin[0];
        return Poll(Returned(Err(CoinsFailed(e))), fetched.backoffMs, fetched.used, [], 0, [], fetched.sleeps), coins;
      case Returned(Ok(list)) =>
        coins := new CgCoin[|list|](j requires 0 <= j < |list| => list[j]);
        assert coins[..] == list;
        var synced := SyncRates(coins, ratesTemplate, transport[fetched.used..], dec, fetched.backoffMs);
        return synced.(used := fetched.used + synced.used, banSleeps := fetched.sleeps + synced.banSleeps), coins;
    }
  }
}
