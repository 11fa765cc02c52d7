# cg_req in Dafny

cg_req is a polling client for the CoinGecko REST API. It repeats one pass
over and over: it fetches the coin list, then asks for USD quotes for at most
500 coin ids at a time, and writes each quote into the matching coin. Every
call goes through a small declarative REST layer:

- parameter slots (pre-valued, required or optional);
- a fluent builder whose `build` panics on a missing field;
- write-once setters on a built method;
- a URI compiler that fills `{key}` route placeholders and appends the query
  pairs;
- a request loop that retries on HTTP 429 bans and raises a caller-owned
  backoff counter each time.

This project models that core and proves what it promises. The modules
follow the source files:

- `Base` (base.dfy): Rust's `Option` and `Result`, `Exit`, the fixed-width
  integers and `Iterator::find` (as `FirstIndex`, plus the loop `Find`).
  `Exit` is how a call ends: it returns, or it panics in an `unwrap` or
  `expect`.
- `Payload` (payload.dfy): the CoinGecko records `CgCoin`, `CgRate` and
  `CgRates`.
- `Rest` (rest.dfy): src/rest.rs, which covers the parameter constructors,
  `Serialize` for a parameter bunch, `RestApiMethodBuilder` and the
  `set_*_value` setters. The builder and the built method are classes
  whose methods update their fields. `serialize` is a method with its two
  loops.
- `Hyper` (hyper.dfy): `compile_uri` of src/hyper.rs. A URI is `base_url`
  plus the substituted path, followed by its ordered query pairs.
- `Executor` (executor.dfy): `validate_response`, the response transformers,
  the `request` loop, and `fetch_coins` / `fetch_rates` with their variant
  checks. The server is a sequence of responses given in order. JSON
  decoding is a pair of functions passed in (`Decoders`). Each call returns
  a `Run`, which records:
  - its result;
  - the backoff counter after the call;
  - how many responses it used;
  - the ban sleeps it took.
- `Polling` (polling.dfy): one pass of the loop in `main` (src/main.rs:65-136).
  This covers:
  - the `div_ceil` batch count and the batch ranges;
  - the rate merge, which works in place on an `array<CgCoin>`;
  - the batch loop. Its bookkeeping (backoff, backoff sleeps, ban sleeps,
    `rates_found_num` and the quote maps received) is a `Poll` record, and the function `Sync`
    specifies it.

Each imperative operation is a method proved against a specification
function:

| method | specification |
|---|---|
| `Serialize` | `CollectPairs` |
| `CompileUri` | `CompileSpec` |
| `Request` | `RequestSpec` |
| `MergeRates` | `MergeAll` |
| `SyncBatches` | `Sync` and `MergeEach` |
| `PollOnce` | `PollOnceSpec` |

The properties the source promises are lemmas about those functions.

## Model

| member | source | states |
|---|---|---|
| Base.FirstIndex | src/rest.rs:222 | The index `find` stops at is the first element that satisfies the predicate; `None` means no element does. |
| Base.Find | src/rest.rs:222 | The search loop returns exactly `FirstIndex`: the first matching position, or `None`. |
| Rest.SlotConstructors | src/rest.rs:23-43 | A pre-valued slot serialises to its pair. An unset required slot fails with its key. An unset optional slot is omitted. |
| Rest.Pairs | src/rest.rs:90-105 | The emitted pairs never outnumber the slots. |
| Rest.PairsAppend | src/rest.rs:90-105 | The emitted pairs keep declaration order: they distribute over concatenation. |
| Rest.PairsMember | src/rest.rs:90-105 | A pair is emitted iff some slot has that key and that value: nothing is invented and no set slot is dropped. |
| Rest.CollectPairsVerdict | src/rest.rs:91-99 | Serialisation fails iff some required slot is unset, and the error names the first such slot. Otherwise the output is exactly the value-bearing slots, in order. |
| Rest.CollectPairsAppend | src/rest.rs:91-99 | On two lists in a row, an error in the first wins, then one in the second. Otherwise the outputs concatenate. |
| Rest.Serialize | src/rest.rs:85-107 | The two-loop serialiser returns exactly the verdict `CollectPairs` gives. |
| Rest.KeepSet | src/rest.rs:90-100 | The filtering loop keeps only slots with a value, and their pairs are the serialiser's output. On an unset required slot it returns that slot's key as the error. |
| Rest.EmitFields | src/rest.rs:101-105 | One field is emitted per kept slot, in order. |
| Rest.SetParam | src/rest.rs:221-231 | Succeeds iff the first slot with the key exists and is unset. Not found iff no slot has the key. Already set iff the first slot with the key has a value. Otherwise only that first slot gets the value, and every other slot is unchanged. |
| Rest.SetParamWriteOnce | src/rest.rs:221-231 | Once a setter has succeeded for a key, a second set of the same key fails with already set. |
| Rest.SetRoute | src/rest.rs:247-261 | Route parameters follow the same rules. The setter succeeds iff the first route slot with the key exists and is unset. It is not found iff no route slot has the key, and already set iff that first slot has a value. On success only that slot gets the value, and every other route slot is unchanged. |
| Rest.BuildSpec | src/rest.rs:194-214 | `build` returns iff `base_url`, `url` and `transform_response` are all set. It panics with the message of the first missing one, in field order. A built method carries every builder field unchanged. |
| Rest.BuildUnbuilt | src/rest.rs:194-214 | Building loses nothing: a descriptor's own builder state builds back to it. |
| Rest.EmptyBuilder | src/rest.rs:150-161 | A new builder has method `Get` and empty parameter lists, and cannot be built. |
| Rest.MethodBuilder.constructor | src/rest.rs:150-161 | A fresh builder is in the `EmptyBuilder` state. |
| Rest.MethodBuilder.SetBaseUrl | src/rest.rs:162-165 | Sets `base_url` and changes no other field. |
| Rest.MethodBuilder.SetMethod | src/rest.rs:166-169 | Sets the HTTP method and changes no other field. |
| Rest.MethodBuilder.SetUrl | src/rest.rs:170-173 | Sets the path template and changes no other field. |
| Rest.MethodBuilder.AddRouteParam | src/rest.rs:174-177 | Appends one route parameter at the end. The earlier ones are unchanged. |
| Rest.MethodBuilder.AddParam | src/rest.rs:178-181 | Appends one parameter at the end. The earlier ones are unchanged. |
| Rest.MethodBuilder.AddQueryParam | src/rest.rs:182-185 | Appends one query parameter at the end. The earlier ones are unchanged. |
| Rest.MethodBuilder.SetTransformResponse | src/rest.rs:186-189 | Sets the transformer and changes no other field. |
| Rest.MethodBuilder.SetConfigureRequest | src/rest.rs:190-193 | Sets the request hook and changes no other field. |
| Rest.MethodBuilder.Clone | src/rest.rs:136-146 | The clone is a new, independent builder with the same state. |
| Rest.MethodBuilder.Build | src/rest.rs:194-214 | Panics exactly as `BuildSpec` does. Otherwise it returns a new method whose fields are `BuildSpec`'s descriptor. |
| Rest.RestApiMethod.constructor | src/rest.rs:109-120 | A built method holds exactly the given descriptor. |
| Rest.RestApiMethod.Builder | src/rest.rs:218-220 | Returns a new builder in the empty state. |
| Rest.RestApiMethod.SetParamValue | src/rest.rs:221-231 | Returns what `SetParam` decides. On success it installs the updated list; on failure `params` is unchanged. No other field changes. |
| Rest.RestApiMethod.SetQueryParamValue | src/rest.rs:232-246 | The same rules, applied to `query_params` only. |
| Rest.RestApiMethod.SetRouteParamValue | src/rest.rs:247-261 | The same rules, applied to `route_params` only, following `SetRoute`. |
| Hyper.Token | src/hyper.rs:33 | The placeholder of a key is the key wrapped in braces: it starts with `{`, ends with `}`, and the text between them is exactly the key. |
| Hyper.ReplaceAllAbsent | src/hyper.rs:34 | A replace whose token does not occur leaves the path unchanged. |
| Hyper.ReplaceAllToken | src/hyper.rs:33-34 | Take a path whose text before a placeholder holds no `{`. Replacing that key's placeholder puts the value where the first placeholder was. The text before it is kept, and the replace continues over the rest of the path. |
| Hyper.ReplaceAllOnce | src/hyper.rs:33-34 | Take a path holding one placeholder and no other `{`. Replacing that placeholder puts the value in its place and leaves the text on both sides unchanged. |
| Hyper.SubstituteRoutes | src/hyper.rs:22-35 | The route loop fails iff some route parameter is unset, and names the first one. |
| Hyper.SubstituteRoutesAbsent | src/hyper.rs:22-35 | A path without any of the placeholders comes out unchanged. |
| Hyper.CompileOutcome | src/hyper.rs:21-56 | `compile_uri` fails iff one of these entries is unset: a route parameter, a required `params` entry (under `Get` only) or a required `query_params` entry. Route errors take precedence, then `params`, then `query_params`, and the first unset entry is named. On success the address is the base URL plus the substituted path. The query is then the value-bearing `params` (`Get` only), then the value-bearing `query_params`, each list in declaration order. |
| Hyper.PostIgnoresParams | src/hyper.rs:39-47 | For `Post`, `params` are neither checked nor appended: any `params` give the same result. |
| Hyper.ExamplePath | src/hyper.rs:22-35 | Worked example: substituting the route parameter `id = 42` into `/x/{id}` gives `/x/42`. |
| Hyper.ExampleQuery | src/hyper.rs:40-46 | Worked example: the slots `a = 1` and `b = 2` give the query pairs `a=1`, `b=2` in that order. |
| Hyper.CompileExample | src/hyper.rs:21-56 | Worked example: the whole call compiles to `base/x/42` with the query `a=1&b=2`. |
| Hyper.CompileExampleUnset | src/hyper.rs:23-32 | Worked example: with `id` unset, the call fails naming `id`. |
| Hyper.CompileUri | src/hyper.rs:21-56 | The three loops with early returns compute exactly `CompileSpec`. |
| Executor.DecimalStringValue | src/main.rs:316 | A server's decimal numeral reads back as its value. |
| Executor.ParseU32RoundTrip | src/main.rs:316 | The `u32` parse accepts every 32-bit numeral, with or without a leading `+`, and returns its value. |
| Executor.ValidateResponse | src/main.rs:296-324 | 200 returns the decoded body iff decoding succeeds; otherwise it returns `FailToParse` with the decoder's message. 429 without `retry-after` returns `Banned(None)`, and is the only input that does. 429 with a parseable `retry-after` returns `Banned(Some(n))`. 429 with an unparseable header panics. No other input panics in this model; the one further panic in the source, behind `info!` logging, is listed under Left out. Any other code returns `UnexpectedResponseCode` with the same code, and only such codes do. |
| Executor.BannedFor | src/main.rs:314-317 | A 429 whose `retry-after` is the numeral of `n` is a ban of `n` seconds. |
| Executor.Transform | src/main.rs:153-161 | A transformer's success is its decoder's success, tagged with the transformer's variant. A 200 whose body decodes always succeeds with that value. Otherwise the transformer panics exactly when `validate_response` does, with the same reason, and fails with exactly its error. |
| Executor.ClassifyOutcome | src/main.rs:271-290 | Only `Banned(Some(s))` re-enters the loop. Every other transform result ends the call: a success with the transformed payload unchanged, `Banned(None)` with the unknown-time error, any other error `e` with the unhandled error carrying `e`, and a panic as a panic. |
| Executor.ClassifyBan | src/main.rs:275-281 | For every transformer, a 429 whose `retry-after` header is the decimal text of `n` is retried after `n` seconds. |
| Executor.ClassifyUnexpectedCode | src/main.rs:286 | For every transformer, a status other than 200 and 429 ends the call with the unhandled error carrying `UnexpectedResponseCode` of that status. |
| Executor.ClassifyUndecodable | src/main.rs:286 | A 200 whose body the transformer's decoder rejects ends the call with the unhandled error carrying `FailToParse` and the decoder's message. |
| Executor.RetryOutcome | src/main.rs:258-293 | Let `k` be the number of responses before the one that decides the call, or all of them if none does. Each of the `k` was a ban of known length `s`, slept `s + 1` seconds. The backoff equals its initial value plus 500 ms per ban. The response after them decides the call; when the responses run out, the end-of-loop error is returned. |
| Executor.RetryStopsAtFirstStop | src/main.rs:271-290 | The first response that is not a ban of known length decides the call. The call uses exactly one response past the `k` bans before it, and the backoff rises by 500 ms per ban. |
| Executor.BanThenSuccess | src/main.rs:275-281 | Worked example: a 2-second ban then a 200 returns the payload. The call sleeps one ban of 3 seconds and raises the backoff by one step. |
| Executor.BannedForUnknownTimeIsFatal | src/main.rs:282-284 | A 429 without `retry-after` ends the call at once with an error, after one response, with the backoff unchanged. |
| Executor.RequestSpec | src/main.rs:259-260 | A URI that does not compile fails with `compile_uri`'s own error, before any response is consumed, and leaves the backoff unchanged. In every case the call uses no more responses than there are, and the backoff never decreases. |
| Executor.Request | src/main.rs:253-294 | The `while true` loop computes exactly `RequestSpec`. |
| Executor.FetchSpec | src/main.rs:210-212 | Building and running a call uses no more responses than there are and never lowers the backoff. |
| Executor.ExpectCoins | src/main.rs:218-222 | `fetch_coins` succeeds iff the request returned `CgAllCoins`, and the value is that payload's coins. It fails with the variant error iff the request returned another payload. A request error `e` becomes the request-failed error carrying `e`, and a panic passes through. Backoff, responses used and sleeps pass through unchanged. |
| Executor.ExpectRates | src/main.rs:244-250 | `fetch_rates` succeeds iff the request returned `CgRates`, and the value is that payload's rates. It fails with the variant error iff the request returned another payload. A request error `e` becomes the request-failed error carrying `e`, and a panic passes through. Backoff, responses used and sleeps pass through unchanged. |
| Executor.IdsReachQuery | src/main.rs:231-233 | The batch's comma-joined ids reach the compiled `Get` query as the `ids` pair. |
| Executor.FetchRatesSpec | src/main.rs:225-251 | A rate request uses no more responses than there are and never lowers the backoff. |
| Executor.SuccessIsTagged | src/main.rs:153-183 | A successful call carries the payload variant of the transformer it was declared with. |
| Executor.MatchingTransformerPassesVariantCheck | src/main.rs:218-250 | Any builder state declared with the coin-list transformer never fails `fetch_coins`' variant check, and any declared with the price transformer never fails `fetch_rates`'. |
| Executor.FetchCoins | src/main.rs:205-223 | Clone, build, request and variant check compute exactly `FetchCoinsSpec`. |
| Executor.FetchRates | src/main.rs:225-251 | Clone, add `ids`, build, request and variant check compute exactly `FetchRatesSpec`. |
| Polling.BatchCountBounds | src/main.rs:83 | There are no batches iff there are no coins. Otherwise the batches hold all `len` ids, with room for fewer than 500 more: the count is the ceiling of `len / 500`. |
| Polling.BatchRange | src/main.rs:87-92 | Batch `i` starts at `500 * i`, is non-empty, ends within the list and holds at most 500 ids. |
| Polling.BatchesContiguous | src/main.rs:86-92 | The first batch starts at 0 and the last ends at `len`. Each batch starts where the previous one ends. |
| Polling.BatchOf | src/main.rs:86-94 | Every index below `len` lies in exactly one batch, `k / 500`: the batches are disjoint and cover the list. |
| Polling.IdsOf | src/main.rs:94 | The id list has one entry per coin, in order. |
| Polling.BatchesCoverIdsFrom | src/main.rs:86-94 | The batches from `i` on ask for the ids of the coins from position `500 * i` on, in order. |
| Polling.BatchesCoverIds | src/main.rs:86-94 | Together the batches ask for every coin's id exactly once, in list order. |
| Polling.NormalizedUsd | src/main.rs:127-131 | A zero price becomes `None`; any other price is kept as it is. |
| Polling.MergeOne | src/main.rs:125-136 | A quote changes only the `rate` field. It changes only the first coin with its id, and only if the quote has a `usd` price; that coin then takes the normalised price. An unknown id changes nothing. |
| Polling.MergeKeys | src/main.rs:125-136 | After the quotes of a key set are merged, coin `j` is `MergedCoin`: the normalised price if it is the first coin with a quoted id that has a price, itself otherwise. |
| Polling.MergeAllChanges | src/main.rs:125-136 | Merging one response keeps the length and changes only `rate`. It changes only a coin that is the first with its id, whose id is quoted with a `usd` price. Every such coin takes the normalised price. |
| Polling.MergeOrderIrrelevant | src/main.rs:125 | The map's iteration order does not matter: any duplicate-free enumeration of the keys merges to the same list. |
| Polling.MergeRates | src/main.rs:125-136 | The in-place loop over the quotes leaves the array equal to `MergeAll` of its old contents. |
| Polling.MergeEachKeepsIds | src/main.rs:125-136 | However many responses are merged, the length is kept and only `rate` fields change. |
| Polling.MergeEachKeepsBatches | src/main.rs:86-136 | Merging never changes ids, so the batches of later iterations are those of the fetched list. |
| Polling.RatesFetcher | src/main.rs:102-107 | `fetch_rates` with the rates template uses no more responses than it is given and never lowers the backoff. |
| Polling.SyncProgress | src/main.rs:86-117 | The batch loop never lowers the backoff and uses no more responses than there are. It sleeps at most once per batch, appending to the earlier sleeps. A pass that completes sleeps exactly once per batch. |
| Polling.SyncReceived | src/main.rs:102-118 | The quote maps are received in request order, at most one per batch, after the earlier ones. |
| Polling.SyncCountsQuotes | src/main.rs:85-118 | `rates_found_num` is the total number of quotes received. |
| Polling.SyncWaitsBounded | src/main.rs:97-101 | Every sleep before a price request lies between the backoff before the pass and the backoff after it. |
| Polling.SyncWaitsSorted | src/main.rs:97-101 | The sleeps before successive price requests never shrink. |
| Polling.FetchBatch | src/main.rs:87-108 | Iteration `i` asks for exactly the ids of batch `i`. |
| Polling.MergeBatch | src/main.rs:125-136 | Merging one more response into the list extends the fold of the responses merged so far. |
| Polling.SyncStepAgrees | src/main.rs:86-136 | A state that records one iteration's sleep, backoff, responses used and ban sleeps is where the batch loop goes next. On a quote map the loop continues with the next batch, with the count and the received maps extended. On an error or a panic the pass ends there. |
| Polling.SyncStep | src/main.rs:86-136 | One iteration moves the loop state exactly as `Sync` does. It stops the pass on an error, and keeps the array equal to the fold of the quotes received. |
| Polling.SyncBatches | src/main.rs:83-137 | The batch loop's bookkeeping is `Sync`'s, against any fetch that answers as `fetch_rates` does. The array it leaves is the fetched list with every received response merged in order. |
| Polling.SyncRates | src/main.rs:83-137 | The same, with `fetch_rates` itself. |
| Polling.PollOnceOutcome | src/main.rs:65-136 | A pass never lowers the backoff, uses no more responses than there are, and counts every quote received. When the coin list arrives, the list left has the same coins in the same order. A pass that completes sleeps once per batch. |
| Polling.PollOnce | src/main.rs:65-137 | Fetching the coin list into a new array and running the batch loop computes exactly `PollOnceSpec`. |

## Left out

- I/O is not part of this model. This covers the HTTP client (`create_hyper`, `create_request_builder`), the request and body collection, `tokio` sleeps, logging, `dotenvy` and `env_logger` setup, and the `println!` sampling of `coins[0..10000]` after the batch loop. A sleep is recorded as a duration: whole seconds for ban sleeps and milliseconds for the backoff sleeps. One request records its ban sleeps in `Run.sleeps`. A pass collects the ban sleeps of all its requests, in order, in `Poll.banSleeps`, and its backoff sleeps in `Poll.waits`.
- The outer `loop` of `main` and its 60-second `f32` cooldown are not part of this model: `PollOnce` is one pass. `Duration::from_secs_f32` is not modelled either; ban sleeps are whole seconds.
- `Url::parse` and percent-encoding (the `url` crate) are not modelled. A URI is the base URL plus the path, followed by the ordered raw query pairs. The `unwrap` on the parse is not modelled as a panic.
- `serde_json` decoding is not modelled; it is a decoder function passed in (`Decoders`). `convert_params_into_json_string` is not modelled either. The error message of a failing `serialize` is modelled by the slot's key alone, without its text.
- `configure_request` is stored, copied and built, but never invoked by the source; it is an opaque field here.
- `ValidateResponseError::InnerError` and `KeyExpired` are never produced by the code and are not modelled.
- The only `ResponseTransformer`s are the program's two closures (`AllCoinsTransformer`, `CoinRatesTransformer`), not arbitrary function pointers.
- Request: the server is a finite sequence of responses. When it runs out, the call returns the source's otherwise unreachable end-of-loop error (`UnexpectedEndOfLoop`). A failing network call is an `unwrap` panic in the source and is not modelled.
- Retry: a ban's sleep `seconds + 1` is computed without bounds. The source adds in `u32`, which overflows for a `retry-after` of 4294967295; that value is not modelled.
- Sync: the backoff counter is an unbounded natural number. The source's `u64` counter could overflow only after about 3.7·10^16 bans, so that overflow is not modelled.
- ValidateResponse: a 200 whose body fails to decode logs the body with `info!`, through `String::from_utf8(...).unwrap()` (src/main.rs:308). With info logging enabled, a body that is also not valid UTF-8 panics there. Logging is not modelled, so that panic is not either, and the model returns `FailToParse` for such a body.
- Error texts are not modelled. The `String` messages built by `compile_uri` (src/hyper.rs:27-30, 44, 52), the `set_*_value` setters (src/rest.rs:224, 229, 239, 244, 254, 259) and `request` (src/main.rs:283, 286, 289) become datatype constructors. Each constructor carries the key, code or inner error the message interpolates, not its formatted text.
- ParseU32: it takes the `retry-after` header as a string. The source's `to_str` can fail on bytes that are not visible ASCII, an `unwrap` panic, and that failure is not modelled.
- Transport failures, cancellation and concurrency are not modelled: the program is sequential.
