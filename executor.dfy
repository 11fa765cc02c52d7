/** Response classification and the retry/backoff loop of src/main.rs
    (`validate_response`, `request`, `fetch_coins`, `fetch_rates`). The
    transport is the sequence of responses the server gives, in order; JSON
    decoding is a pair of abstract functions. */
module Executor {
  import opened Base
  import opened Payload
  import opened Rest
  import opened Hyper

  /** `SLEEP_BETWEEN_REQUESTS_STEP_MS`: what every ban adds to the backoff. */
  const SLEEP_BETWEEN_REQUESTS_STEP_MS: nat := 500

  type Bytes = seq<byte>

  /** Response headers by lower-case name, with the first value of each. */
  type Headers = map<string, string>

  datatype Response = Response(status: u16, headers: Headers, body: Bytes)

  /** `serde_json::from_slice` for the two payload types; `Err` carries the
      decoder's message. */
  datatype Decoders = Decoders(
    coins: Bytes -> Result<seq<CgCoin>, string>,
    rates: Bytes -> Result<CgRateMap, string>)

  predicate IsDigit(c: char)
  {
    '0' <= c <= '9'
  }

  predicate AllDigits(s: string)
  {
    forall i :: 0 <= i < |s| ==> IsDigit(s[i])
  }

  /** The value of a decimal numeral, most significant digit first. */
  function DigitsValue(s: string): nat
    requires AllDigits(s)
    decreases |s|
  {
    if s == [] then 0 else DigitsValue(s[..|s| - 1]) * 10 + (s[|s| - 1] as int - '0' as int)
  }

  /** `str::parse::<u32>`: an optional `+`, then one or more decimal digits
      whose value fits in 32 bits. */
  function ParseU32(s: string): Option<u32>
  {
    var digits := if |s| > 0 && s[0] == '+' then s[1..] else s;
    if |digits| == 0 || !AllDigits(digits) then None
    else if DigitsValue(digits) < 0x1_0000_0000 then Some(DigitsValue(digits))
    else None
  }

  /** The decimal numeral of `n` (what a server writes into `retry-after`). */
  function DecimalString(n: nat): (s: string)
    ensures |s| > 0 && AllDigits(s)
  {
    if n < 10 then [('0' as int + n) as char]
    else DecimalString(n / 10) + [('0' as int + n % 10) as char]
  }

  lemma {:induction false} DecimalStringValue(n: nat)
    ensures DigitsValue(DecimalString(n)) == n
  {
    if n >= 10 {
      var s := DecimalString(n);
      assert s[..|s| - 1] == DecimalString(n / 10);
      DecimalStringValue(n / 10);
    }
  }

  /** The parser reads back every 32-bit numeral, with or without `+`. */
  lemma ParseU32RoundTrip(n: u32)
    ensures ParseU32(DecimalString(n)) == Some(n)
    ensures ParseU32("+" + DecimalString(n)) == Some(n)
  {
    DecimalStringValue(n);
    assert ("+" + DecimalString(n))[1..] == DecimalString(n);
  }

  const RETRY_AFTER := "retry-after"

  /** `validate_response`: 200 decodes the body, 429 is a ban whose length is
      the `retry-after` header (its absence gives an unknown length, an
      unparseable value panics in `unwrap`), any other code is unexpected. */
  function ValidateResponse<M>(code: u16, body: Bytes, headers: Headers,
                               decode: Bytes -> Result<M, string>): (r: Exit<Result<M, ValidateResponseError>>)
    ensures r.Returned? && r.value.Ok? <==> code == 200 && decode(body).Ok?
    ensures r.Returned? && r.value.Ok? ==> r.value.value == decode(body).value
    ensures code == 200 && decode(body).Err? ==> r == Returned(Err(FailToParse(decode(body).error)))
    ensures r == Returned(Err(Banned(None))) <==> code == 429 && RETRY_AFTER !in headers
    ensures r.Panicked? <==> code == 429 && RETRY_AFTER in headers && ParseU32(headers[RETRY_AFTER]).None?
    ensures code == 429 && RETRY_AFTER in headers && ParseU32(headers[RETRY_AFTER]).Some? ==>
            r == Returned(Err(Banned(ParseU32(headers[RETRY_AFTER]))))
    ensures r == Returned(Err(UnexpectedResponseCode(code))) <==> code != 200 && code != 429
  {
    if code == 200 then
      match decode(body)
      case Ok(x) => Returned(Ok(x))
      case Err(e) => Returned(Err(FailToParse(e)))
    else if code == 429 then
      if RETRY_AFTER in headers then
        match ParseU32(headers[RETRY_AFTER])
        case Some(seconds) => Returned(Err(Banned(Some(seconds))))
        case None => Panicked("retry-after is not a u32: " + headers[RETRY_AFTER])
      else Returned(Err(Banned(None)))
    else Returned(Err(UnexpectedResponseCode(code)))
  }

  /** A 429 naming a wait of `n` seconds is a ban of `n` seconds. */
  lemma BannedFor(n: u32, body: Bytes, headers: Headers, decode: Bytes -> Result<CgRateMap, string>)
    requires RETRY_AFTER in headers && headers[RETRY_AFTER] == DecimalString(n)
    ensures ValidateResponse(429, body, headers, decode) == Returned(Err(Banned(Some(n))))
  {
    ParseU32RoundTrip(n);
  }

  /** The response transformers of src/main.rs:153-161 and 175-183: validate
      with the matching decoder and tag the payload. */
  function Transform(t: ResponseTransformer, resp: Response, dec: Decoders): (r: Exit<Result<MethodResponse, ValidateResponseError>>)
    ensures t == AllCoinsTransformer && r.Returned? && r.value.Ok? ==>
            dec.coins(resp.body).Ok? && r.value.value == CgAllCoins(dec.coins(resp.body).value)
    ensures t == CoinRatesTransformer && r.Returned? && r.value.Ok? ==>
            dec.rates(resp.body).Ok? && r.value.value == CgRates(dec.rates(resp.body).value)
    ensures resp.status == 200 && t == AllCoinsTransformer && dec.coins(resp.body).Ok? ==>
            r == Returned(Ok(CgAllCoins(dec.coins(resp.body).value)))
    ensures resp.status == 200 && t == CoinRatesTransformer && dec.rates(resp.body).Ok? ==>
            r == Returned(Ok(CgRates(dec.rates(resp.body).value)))
    ensures t == AllCoinsTransformer ==>
            var v := ValidateResponse(resp.status, resp.body, resp.headers, dec.coins);
            && (v.Panicked? <==> r.Panicked?) && (v.Panicked? ==> r == Panicked(v.reason))
            && (v.Returned? && v.value.Err? ==> r == Returned(Err(v.value.error)))
    ensures t == CoinRatesTransformer ==>
            var v := ValidateResponse(resp.status, resp.body, resp.headers, dec.rates);
            && (v.Panicked? <==> r.Panicked?) && (v.Panicked? ==> r == Panicked(v.reason))
            && (v.Returned? && v.value.Err? ==> r == Returned(Err(v.value.error)))
  {
    match t
    case AllCoinsTransformer =>
      (match ValidateResponse(resp.status, resp.body, resp.headers, dec.coins)
       case Panicked(reason) => Panicked(reason)
       case Returned(Ok(coins)) => Returned(Ok(CgAllCoins(coins)))
       case Returned(Err(e)) => Returned(Err(e)))
    case CoinRatesTransformer =>
      (match ValidateResponse(resp.status, resp.body, resp.headers, dec.rates)
       case Panicked(reason) => Panicked(reason)
       case Returned(Ok(rates)) => Returned(Ok(CgRates(rates)))
       case Returned(Err(e)) => Returned(Err(e)))
  }

  /** The failures `request` returns. `UnexpectedEndOfLoop` is the error
      after the loop, reached here when the responses run out. */
  datatype RequestError =
    | CompileFailed(uriError: UriError)
    | BannedForUnknownTime
    | Unhandled(error: ValidateResponseError)
    | UnexpectedEndOfLoop

  /** What one response leads to: wait and ask again, or end the call. */
  datatype Step = Again(seconds: u32) | Stop(outcome: Exit<Result<MethodResponse, RequestError>>)

  /** The `match` on the transformed response in `request`. */
  function Classify(t: ResponseTransformer, resp: Response, dec: Decoders): Step
  {
    match Transform(t, resp, dec)
    case Panicked(reason) => Stop(Panicked(reason))
    case Returned(Ok(x)) => Stop(Returned(Ok(x)))
    case Returned(Err(Banned(Some(seconds)))) => Again(seconds)
    case Returned(Err(Banned(None))) => Stop(Returned(Err(BannedForUnknownTime)))
    case Returned(Err(e)) => Stop(Returned(Err(Unhandled(e))))
  }

  /** Only a ban of known length re-enters the loop; every other result
      ends the call, a success carrying the transformed payload. */
  lemma ClassifyOutcome(t: ResponseTransformer, resp: Response, dec: Decoders)
    ensures var tr := Transform(t, resp, dec);
      match Classify(t, resp, dec)
      case Again(seconds) => tr == Returned(Err(Banned(Some(seconds))))
      case Stop(outcome) =>
        && (forall n: u32 :: tr != Returned(Err(Banned(Some(n)))))
        && outcome != Returned(Err(UnexpectedEndOfLoop))
        && (tr.Returned? && tr.value.Ok? ==> outcome == Returned(Ok(tr.value.value)))
        && (tr == Returned(Err(Banned(None))) ==> outcome == Returned(Err(BannedForUnknownTime)))
        && (tr.Panicked? ==> outcome == Panicked(tr.reason))
        && (tr.Returned? && tr.value.Err? && !tr.value.error.Banned? ==>
              outcome == Returned(Err(Unhandled(tr.value.error))))
  {
  }

  /** A 429 naming a wait of `n` seconds is retried, whatever the
      transformer. */
  lemma ClassifyBan(t: ResponseTransformer, resp: Response, dec: Decoders, n: u32)
    requires resp.status == 429 && RETRY_AFTER in resp.headers && resp.headers[RETRY_AFTER] == DecimalString(n)
    ensures Classify(t, resp, dec) == Again(n)
  {
    ParseU32RoundTrip(n);
  }

  /** A status other than 200 and 429 ends the call with the unexpected
      code. */
  lemma ClassifyUnexpectedCode(t: ResponseTransformer, resp: Response, dec: Decoders)
    requires resp.status != 200 && resp.status != 429
    ensures Classify(t, resp, dec) == Stop(Returned(Err(Unhandled(UnexpectedResponseCode(resp.status)))))
  {
  }

  /** A 200 whose body the transformer's decoder rejects ends the call with
      the decoder's message. */
  lemma ClassifyUndecodable(t: ResponseTransformer, resp: Response, dec: Decoders)
    requires resp.status == 200
    ensures t == AllCoinsTransformer && dec.coins(resp.body).Err? ==>
            Classify(t, resp, dec) == Stop(Returned(Err(Unhandled(FailToParse(dec.coins(resp.body).error)))))
    ensures t == CoinRatesTransformer && dec.rates(resp.body).Err? ==>
            Classify(t, resp, dec) == Stop(Returned(Err(Unhandled(FailToParse(dec.rates(resp.body).error)))))
  {
  }

  /** The result of a call together with what it did to the caller's state:
      the backoff counter after it, how many responses it consumed and the
      ban sleeps (in seconds) it took. */
  datatype Run<T> = Run(outcome: Exit<T>, backoffMs: nat, used: nat, sleeps: seq<nat>)

  /** The attempts of `request` once its URI compiles, against the responses
      `transport` in order. */
  function Retry(t: ResponseTransformer, transport: seq<Response>, dec: Decoders, backoffMs: nat)
    : Run<Result<MethodResponse, RequestError>>
    decreases |transport|
  {
    if transport == [] then Run(Returned(Err(UnexpectedEndOfLoop)), backoffMs, 0, [])
    else match Classify(t, transport[0], dec)
      case Stop(outcome) => Run(outcome, backoffMs, 1, [])
      case Again(seconds) =>
        var rest := Retry(t, transport[1..], dec, backoffMs + SLEEP_BETWEEN_REQUESTS_STEP_MS);
        Run(rest.outcome, rest.backoffMs, rest.used + 1, [seconds + 1] + rest.sleeps)
  }

  /** A classified response never reads as the loop running out. */
  lemma StopIsNotEndOfLoop(t: ResponseTransformer, resp: Response, dec: Decoders)
    ensures Classify(t, resp, dec).Stop? ==> Classify(t, resp, dec).outcome != Returned(Err(UnexpectedEndOfLoop))
  {
  }

  /** Every response before the last one consumed was a ban of known
      length, each slept for one second more than it named and each raising
      the backoff by one step; the last one consumed decides the call, or
      the responses ran out. */
  lemma {:induction false} RetryOutcome(t: ResponseTransformer, transport: seq<Response>, dec: Decoders, backoffMs: nat)
    ensures var r := Retry(t, transport, dec, backoffMs);
      && |r.sleeps| <= r.used <= |transport|
      && r.backoffMs == backoffMs + SLEEP_BETWEEN_REQUESTS_STEP_MS * |r.sleeps|
      && (forall i :: 0 <= i < |r.sleeps| ==>
            Classify(t, transport[i], dec).Again? && r.sleeps[i] == Classify(t, transport[i], dec).seconds + 1)
      && (r.outcome == Returned(Err(UnexpectedEndOfLoop)) ==> r.used == |r.sleeps| == |transport|)
      && (r.outcome != Returned(Err(UnexpectedEndOfLoop)) ==>
            r.used == |r.sleeps| + 1 && Classify(t, transport[r.used - 1], dec) == Stop(r.outcome))
    decreases |transport|
  {
    if transport != [] {
      StopIsNotEndOfLoop(t, transport[0], dec);
      if Classify(t, transport[0], dec).Again? {
        var rest := Retry(t, transport[1..], dec, backoffMs + SLEEP_BETWEEN_REQUESTS_STEP_MS);
        RetryOutcome(t, transport[1..], dec, backoffMs + SLEEP_BETWEEN_REQUESTS_STEP_MS);
        var r := Retry(t, transport, dec, backoffMs);
        assert r.sleeps == [Classify(t, transport[0], dec).seconds + 1] + rest.sleeps;
        forall i | 1 <= i < |r.sleeps|
          ensures Classify(t, transport[i], dec).Again? && r.sleeps[i] == Classify(t, transport[i], dec).seconds + 1
        {
          assert r.sleeps[i] == rest.sleeps[i - 1] && transport[1..][i - 1] == transport[i];
        }
      }
    }
  }

  /** What `request` computes: a URI that does not compile ends the call
      before any response is consumed; otherwise the attempts run. */
  function RequestSpec(d: Descriptor, transport: seq<Response>, dec: Decoders, backoffMs: nat)
    : (r: Run<Result<MethodResponse, RequestError>>)
    ensures CompileSpec(d).Err? ==>
              r.outcome == Returned(Err(CompileFailed(CompileSpec(d).error))) &&
              r.used == 0 && r.backoffMs == backoffMs && r.sleeps == []
    ensures r.used <= |transport| && r.backoffMs >= backoffMs
  {
    match CompileSpec(d)
    case Err(e) => Run(Returned(Err(CompileFailed(e))), backoffMs, 0, [])
    case Ok(_) =>
      RetryOutcome(d.transformResponse, transport, dec, backoffMs);
      Retry(d.transformResponse, transport, dec, backoffMs)
  }

  /** The first response that is not a ban of known length decides the
      call, and every response before it was such a ban. */
  lemma {:induction false} RetryStopsAtFirstStop(t: ResponseTransformer, transport: seq<Response>, dec: Decoders,
                                                 backoffMs: nat, k: nat)
    requires k < |transport| && Classify(t, transport[k], dec).Stop?
    requires forall i :: 0 <= i < k ==> Classify(t, transport[i], dec).Again?
    ensures Retry(t, transport, dec, backoffMs).used == k + 1
    ensures Retry(t, transport, dec, backoffMs).outcome == Classify(t, transport[k], dec).outcome
    ensures Retry(t, transport, dec, backoffMs).backoffMs == backoffMs + SLEEP_BETWEEN_REQUESTS_STEP_MS * k
    decreases k
  {
    if k > 0 {
      assert Classify(t, transport[0], dec).Again?;
      assert transport[1..][k - 1] == transport[k];
      forall i | 0 <= i < k - 1
        ensures Classify(t, transport[1..][i], dec).Again?
      {
        assert transport[1..][i] == transport[i + 1];
      }
      RetryStopsAtFirstStop(t, transport[1..], dec, backoffMs + SLEEP_BETWEEN_REQUESTS_STEP_MS, k - 1);
    }
  }

  /** A ban of two seconds followed by a success: the payload comes back,
      after one sleep of three seconds, with the backoff one step higher. */
  lemma BanThenSuccess(dec: Decoders, backoffMs: nat, body: Bytes, banBody: Bytes)
    requires dec.rates(body).Ok?
    ensures
      var banned := Response(429, map[RETRY_AFTER := "2"], banBody);
      var ok := Response(200, map[], body);
      Retry(CoinRatesTransformer, [banned, ok], dec, backoffMs) ==
        Run(Returned(Ok(CgRates(dec.rates(body).value))), backoffMs + SLEEP_BETWEEN_REQUESTS_STEP_MS, 2, [3])
  {
    var banned := Response(429, map[RETRY_AFTER := "2"], banBody);
    var ok := Response(200, map[], body);
    assert DecimalString(2) == "2";
    BannedFor(2, banBody, banned.headers, dec.rates);
    assert Classify(CoinRatesTransformer, banned, dec) == Again(2);
    assert [banned, ok][1..] == [ok];
    assert [3] + [] == [3];
  }

  /** A 429 without `retry-after` ends the call at once, without a retry and
      without touching the backoff. */
  lemma BannedForUnknownTimeIsFatal(t: ResponseTransformer, rest: seq<Response>, dec: Decoders,
                                    backoffMs: nat, body: Bytes, headers: Headers)
    requires RETRY_AFTER !in headers
    ensures Retry(t, [Response(429, headers, body)] + rest, dec, backoffMs) ==
            Run(Returned(Err(BannedForUnknownTime)), backoffMs, 1, [])
  {
    assert ([Response(429, headers, body)] + rest)[0] == Response(429, headers, body);
  }

  /** `Run` of the attempts from `i` on, seen from the start of the call. */
  function Resume<T>(i: nat, sleeps: seq<nat>, rest: Run<T>): Run<T>
  {
    Run(rest.outcome, rest.backoffMs, rest.used + i, sleeps + rest.sleeps)
  }

  /** Unfolding `Retry` once at a ban of known length. */
  lemma RetryUnfoldAgain(t: ResponseTransformer, transport: seq<Response>, dec: Decoders, backoffMs: nat, seconds: u32)
    requires transport != [] && Classify(t, transport[0], dec) == Again(seconds)
    ensures Retry(t, transport, dec, backoffMs) ==
            Resume(1, [seconds + 1], Retry(t, transport[1..], dec, backoffMs + SLEEP_BETWEEN_REQUESTS_STEP_MS))
  {
  }

  lemma ResumeResume<T>(i: nat, sleeps: seq<nat>, x: nat, rest: Run<T>)
    ensures Resume(i, sleeps, Resume(1, [x], rest)) == Resume(i + 1, sleeps + [x], rest)
  {
    assert sleeps + ([x] + rest.sleeps) == (sleeps + [x]) + rest.sleeps;
  }

  lemma RetryAgain(t: ResponseTransformer, transport: seq<Response>, dec: Decoders, backoffMs: nat,
                   i: nat, sleeps: seq<nat>, seconds: u32)
    requires i < |transport| && Classify(t, transport[i], dec) == Again(seconds)
    ensures Resume(i, sleeps, Retry(t, transport[i..], dec, backoffMs)) ==
            Resume(i + 1, sleeps + [seconds + 1],
                   Retry(t, transport[i + 1..], dec, backoffMs + SLEEP_BETWEEN_REQUESTS_STEP_MS))
  {
    assert transport[i..][0] == transport[i];
    assert transport[i..][1..] == transport[i + 1..];
    RetryUnfoldAgain(t, transport[i..], dec, backoffMs, seconds);
    ResumeResume(i, sleeps, seconds + 1,
                 Retry(t, transport[i + 1..], dec, backoffMs + SLEEP_BETWEEN_REQUESTS_STEP_MS));
  }

  lemma RetryStop(t: ResponseTransformer, transport: seq<Response>, dec: Decoders, backoffMs: nat,
                  i: nat, sleeps: seq<nat>)
    requires i < |transport| && Classify(t, transport[i], dec).Stop?
    ensures Resume(i, sleeps, Retry(t, transport[i..], dec, backoffMs)) ==
            Run(Classify(t, transport[i], dec).outcome, backoffMs, i + 1, sleeps)
  {
    assert transport[i..][0] == transport[i];
    assert sleeps + [] == sleeps;
  }

  lemma RetryExhausted(t: ResponseTransformer, transport: seq<Response>, dec: Decoders, backoffMs: nat,
                       sleeps: seq<nat>)
    ensures Resume(|transport|, sleeps, Retry(t, transport[|transport|..], dec, backoffMs)) ==
            Run(Returned(Err(UnexpectedEndOfLoop)), backoffMs, |transport|, sleeps)
  {
    assert transport[|transport|..] == [];
    assert sleeps + [] == sleeps;
  }

  /** `request`: compile the URI, send, transform; a ban of known length
      raises the caller's backoff by one step, sleeps `seconds + 1` and tries
      again; every other outcome is returned. */
  method Request(m: RestApiMethod, transport: seq<Response>, dec: Decoders, backoffMs: nat)
    returns (r: Run<Result<MethodResponse, RequestError>>)
    ensures r == RequestSpec(m.View(), transport, dec, backoffMs)
  {
    var backoff: nat := backoffMs;
    var sleeps: seq<nat> := [];
    var i := 0;
    ghost var t := m.transformResponse;
    ghost var compiles := CompileSpec(m.View()).Ok?;
    ghost var spec := RequestSpec(m.View(), transport, dec, backoffMs);
    while true
      invariant 0 <= i <= |transport|
      invariant i > 0 ==> compiles
      invariant i == 0 ==> backoff == backoffMs && sleeps == []
      invariant compiles ==> spec == Resume(i, sleeps, Retry(t, transport[i..], dec, backoff))
      decreases |transport| - i
    {
      var uri := CompileUri(m);
      if uri.Err? {
        return Run(Returned(Err(CompileFailed(uri.error))), backoff, i, sleeps);
      }
      if i == |transport| {
        RetryExhausted(t, transport, dec, backoff, sleeps);
        return Run(Returned(Err(UnexpectedEndOfLoop)), backoff, i, sleeps);
      }
      var response := transport[i];
      match Classify(m.transformResponse, response, dec)
      case Stop(outcome) =>
        RetryStop(t, transport, dec, backoff, i, sleeps);
        return Run(outcome, backoff, i + 1, sleeps);
      case Again(seconds) =>
        RetryAgain(t, transport, dec, backoff, i, sleeps, seconds);
        backoff := backoff + SLEEP_BETWEEN_REQUESTS_STEP_MS;
        sleeps := sleeps + [seconds + 1];
        i := i + 1;
    }
  }

  /** The failures of `fetch_coins` / `fetch_rates`. */
  datatype FetchError = RequestFailed(error: RequestError) | WrongVariant

  /** Build a method from a builder state and run it. */
  function FetchSpec(s: BuilderState, transport: seq<Response>, dec: Decoders, backoffMs: nat)
    : (r: Run<Result<MethodResponse, RequestError>>)
    ensures r.used <= |transport| && r.backoffMs >= backoffMs
  {
    match BuildSpec(s)
    case Panicked(reason) => Run(Panicked(reason), backoffMs, 0, [])
    case Returned(d) => RequestSpec(d, transport, dec, backoffMs)
  }

  /** The variant check of `fetch_coins`. */
  function ExpectCoins(run: Run<Result<MethodResponse, RequestError>>): (r: Run<Result<seq<CgCoin>, FetchError>>)
    ensures r.backoffMs == run.backoffMs && r.used == run.used && r.sleeps == run.sleeps
    ensures r.outcome.Returned? && r.outcome.value.Ok? <==>
            run.outcome.Returned? && run.outcome.value.Ok? && run.outcome.value.value.CgAllCoins?
    ensures r.outcome == Returned(Err(WrongVariant)) <==>
            run.outcome.Returned? && run.outcome.value.Ok? && !run.outcome.value.value.CgAllCoins?
    ensures r.outcome.Returned? && r.outcome.value.Ok? ==> r.outcome.value.value == run.outcome.value.value.coins
    ensures run.outcome.Returned? && run.outcome.value.Err? ==>
              r.outcome == Returned(Err(RequestFailed(run.outcome.value.error)))
    ensures run.outcome.Panicked? ==> r.outcome == Panicked(run.outcome.reason)
  {
    var outcome := match run.outcome
      case Panicked(reason) => Panicked(reason)
      case Returned(Err(e)) => Returned(Err(RequestFailed(e)))
      case Returned(Ok(CgAllCoins(coins))) => Returned(Ok(coins))
      case Returned(Ok(_)) => Returned(Err(WrongVariant));
    Run(outcome, run.backoffMs, run.used, run.sleeps)
  }

  /** The variant check of `fetch_rates`. */
  function ExpectRates(run: Run<Result<MethodResponse, RequestError>>): (r: Run<Result<CgRateMap, FetchError>>)
    ensures r.backoffMs == run.backoffMs && r.used == run.used && r.sleeps == run.sleeps
    ensures r.outcome.Returned? && r.outcome.value.Ok? <==>
            run.outcome.Returned? && run.outcome.value.Ok? && run.outcome.value.value.CgRates?
    ensures r.outcome == Returned(Err(WrongVariant)) <==>
            run.outcome.Returned? && run.outcome.value.Ok? && !run.outcome.value.value.CgRates?
    ensures r.outcome.Returned? && r.outcome.value.Ok? ==> r.outcome.value.value == run.outcome.value.value.rates
    ensures run.outcome.Returned? && run.outcome.value.Err? ==>
              r.outcome == Returned(Err(RequestFailed(run.outcome.value.error)))
    ensures run.outcome.Panicked? ==> r.outcome == Panicked(run.outcome.reason)
  {
    var outcome := match run.outcome
      case Panicked(reason) => Panicked(reason)
      case Returned(Err(e)) => Returned(Err(RequestFailed(e)))
      case Returned(Ok(CgRates(rates))) => Returned(Ok(rates))
      case Returned(Ok(_)) => Returned(Err(WrongVariant));
    Run(outcome, run.backoffMs, run.used, run.sleeps)
  }

  /** `Vec<String>::join`. */
  function Join(parts: seq<string>, sep: string): string
    decreases |parts|
  {
    if |parts| == 0 then ""
    else if |parts| == 1 then parts[0]
    else parts[0] + sep + Join(parts[1..], sep)
  }

  /** The per-call specialisation of the rates template: one more
      pre-valued parameter `ids`, the comma-joined coin ids. */
  function WithIds(s: BuilderState, ids: seq<string>): BuilderState
  {
    s.(params := s.params + [Prevalue("ids", Join(ids, ","))])
  }

  /** The batch's ids reach the compiled query of a `Get` rate request as
      one `ids` pair. */
  lemma IdsReachQuery(s: BuilderState, ids: seq<string>)
    requires BuildSpec(WithIds(s, ids)).Returned?
    requires BuildSpec(WithIds(s, ids)).value.requestMethod == Get
    requires CompileSpec(BuildSpec(WithIds(s, ids)).value).Ok?
    ensures ("ids", Join(ids, ",")) in CompileSpec(BuildSpec(WithIds(s, ids)).value).value.query
  {
    var d := BuildSpec(WithIds(s, ids)).value;
    CompileOutcome(d);
    var items := d.params.items;
    assert items[|items| - 1] == Prevalue("ids", Join(ids, ","));
    PairsMember(items, "ids", Join(ids, ","));
  }

  function FetchCoinsSpec(s: BuilderState, transport: seq<Response>, dec: Decoders, backoffMs: nat)
    : Run<Result<seq<CgCoin>, FetchError>>
  {
    ExpectCoins(FetchSpec(s, transport, dec, backoffMs))
  }

  function FetchRatesSpec(s: BuilderState, ids: seq<string>, transport: seq<Response>, dec: Decoders, backoffMs: nat)
    : (r: Run<Result<CgRateMap, FetchError>>)
    ensures r.used <= |transport| && r.backoffMs >= backoffMs
  {
    ExpectRates(FetchSpec(WithIds(s, ids), transport, dec, backoffMs))
  }

  /** A call declared with the transformer of its kind never fails the
      variant check. */
  lemma MatchingTransformerPassesVariantCheck(s: BuilderState, ids: seq<string>, transport: seq<Response>,
                                              dec: Decoders, backoffMs: nat)
    ensures s.transformResponse == Some(AllCoinsTransformer) ==>
            FetchCoinsSpec(s, transport, dec, backoffMs).outcome != Returned(Err(WrongVariant))
    ensures s.transformResponse == Some(CoinRatesTransformer) ==>
            FetchRatesSpec(s, ids, transport, dec, backoffMs).outcome != Returned(Err(WrongVariant))
  {
    SuccessIsTagged(s, transport, dec, backoffMs);
    SuccessIsTagged(WithIds(s, ids), transport, dec, backoffMs);
  }

  /** A successful run carries the payload its transformer tags. */
  lemma SuccessIsTagged(s: BuilderState, transport: seq<Response>, dec: Decoders, backoffMs: nat)
    ensures var run := FetchSpec(s, transport, dec, backoffMs);
            run.outcome.Returned? && run.outcome.value.Ok? ==>
              (s.transformResponse == Some(AllCoinsTransformer) ==> run.outcome.value.value.CgAllCoins?) &&
              (s.transformResponse == Some(CoinRatesTransformer) ==> run.outcome.value.value.CgRates?)
  {
    var run := FetchSpec(s, transport, dec, backoffMs);
    if run.outcome.Returned? && run.outcome.value.Ok? {
      var d := BuildSpec(s).value;
      var r := Retry(d.transformResponse, transport, dec, backoffMs);
      assert run == r;
      RetryOutcome(d.transformResponse, transport, dec, backoffMs);
      var last := transport[r.used - 1];
      assert Classify(d.transformResponse, last, dec) == Stop(r.outcome);
      ClassifyOutcome(d.transformResponse, last, dec);
      assert Transform(d.transformResponse, last, dec).Returned?;
    }
  }

  /** `fetch_coins`: build a fresh copy of the template, run it, and expect
      the `CgAllCoins` variant. */
  method FetchCoins(template: MethodBuilder, transport: seq<Response>, dec: Decoders, backoffMs: nat)
    returns (r: Run<Result<seq<CgCoin>, FetchError>>)
    ensures r == FetchCoinsSpec(template.State(), transport, dec, backoffMs)
  {
    var builder := template.Clone();
    var built := builder.Build();
    if built.Panicked? {
      return Run(Panicked(built.reason), backoffMs, 0, []);
    }
    var response := Request(built.value, transport, dec, backoffMs);
    var outcome := match response.outcome
      case Panicked(reason) => Panicked(reason)
      case Returned(Err(e)) => Returned(Err(RequestFailed(e)))
      case Returned(Ok(CgAllCoins(coins))) => Returned(Ok(coins))
      case Returned(Ok(_)) => Returned(Err(WrongVariant));
    return Run(outcome, response.backoffMs, response.used, response.sleeps);
  }

  /** `fetch_rates`: specialise a copy of the template with the batch's ids,
      run it, and expect the `CgRates` variant. */
  method FetchRates(template: MethodBuilder, ids: seq<string>, transport: seq<Response>, dec: Decoders, backoffMs: nat)
    returns (r: Run<Result<CgRateMap, FetchError>>)
    ensures r == FetchRatesSpec(template.State(), ids, transport, dec, backoffMs)
  {
    var builder := template.Clone();
    builder.AddParam(Prevalue("ids", Join(ids, ",")));
    var built := builder.Build();
    if built.Panicked? {
      return Run(Panicked(built.reason), backoffMs, 0, []);
    }
    var response := Request(built.value, transport, dec, backoffMs);
    var outcome := match response.outcome
      case Panicked(reason) => Panicked(reason)
      case Returned(Err(e)) => Returned(Err(RequestFailed(e)))
      case Returned(Ok(CgRates(rates))) => Returned(Ok(rates))
      case Returned(Ok(_)) => Returned(Err(WrongVariant));
    return Run(outcome, response.backoffMs, response.used, response.sleeps);
  }
}
