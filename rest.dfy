/** The declarative REST-call layer of src/rest.rs: parameter slots, their
    serialisation, the fluent method builder with its `build` gate, and the
    write-once setters of a built method. */
module Rest {
  import opened Base
  import opened Payload

  datatype RequestMethod = Get | Post

  /** A named value slot (`RestApiMethodParam`). */
  datatype Param = Param(key: string, value: Option<string>, isRequired: bool)

  /** A slot filled at declaration time, e.g. a constant query parameter. */
  function Prevalue(key: string, value: string): Param
  {
    Param(key, Some(value), true)
  }

  /** A slot that must be filled before the call is made. */
  function Required(key: string): Param
  {
    Param(key, None, true)
  }

  /** A slot that may stay empty; it is then left out. */
  function Optional(key: string): Param
  {
    Param(key, None, false)
  }

  /** A `{key}` placeholder in the path template (`RestApiMethodRouteParam`). */
  datatype RouteParam = RouteParam(key: string, value: Option<string>)

  /** The classified failures of one response. The two variants the program
      never produces (`InnerError`, `KeyExpired`) are not modelled. */
  datatype ValidateResponseError =
    | FailToParse(message: string)
    | Banned(seconds: Option<u32>)
    | UnexpectedResponseCode(code: u16)

  /** The response transformers the program declares: the closures of
      src/main.rs that validate a response and tag its payload. */
  datatype ResponseTransformer = AllCoinsTransformer | CoinRatesTransformer

  /** The request hook; it is stored and copied but never invoked. */
  datatype RequestConfigurator = RequestConfigurator(name: string)

  /** The tagged payload a transformer returns. */
  datatype MethodResponse = CgAllCoins(coins: seq<CgCoin>) | CgRates(rates: CgRateMap)

  /** An ordered collection of parameter slots (`RestApiMethodParamBunch`). */
  datatype ParamBunch = ParamBunch(items: seq<Param>)

  /** A serialised field, or a query pair: key and value. */
  type Pair = (string, string)

  /** A required slot that still has no value: serialising it fails. */
  predicate Missing(p: Param)
  {
    p.value.None? && p.isRequired
  }

  /** The pair a slot contributes: one if it carries a value, none otherwise. */
  function PairOf(p: Param): seq<Pair>
  {
    if p.value.Some? then [(p.key, p.value.value)] else []
  }

  /** The value-bearing slots, as pairs, in declaration order. */
  function Pairs(items: seq<Param>): (r: seq<Pair>)
    ensures |r| <= |items|
  {
    if items == [] then [] else PairOf(items[0]) + Pairs(items[1..])
  }

  /** Pairs keeps declaration order: it distributes over concatenation. */
  lemma {:induction false} PairsAppend(a: seq<Param>, b: seq<Param>)
    ensures Pairs(a + b) == Pairs(a) + Pairs(b)
    decreases |a|
  {
    if a == [] {
      assert a + b == b;
      assert [] + Pairs(b) == Pairs(b);
    } else {
      assert (a + b)[0] == a[0];
      assert (a + b)[1..] == a[1..] + b;
      PairsAppend(a[1..], b);
      calc {
        Pairs(a + b);
        PairOf(a[0]) + Pairs(a[1..] + b);
        PairOf(a[0]) + (Pairs(a[1..]) + Pairs(b));
        (PairOf(a[0]) + Pairs(a[1..])) + Pairs(b);
      }
    }
  }

  lemma PairsSingle(p: Param)
    ensures Pairs([p]) == PairOf(p)
  {
    assert [p][1..] == [];
  }

  /** A pair is emitted exactly when some slot carries that key and value:
      nothing is invented and no set slot is dropped. */
  lemma {:induction false} PairsMember(items: seq<Param>, k: string, v: string)
    ensures (k, v) in Pairs(items) <==>
            exists i :: 0 <= i < |items| && items[i].key == k && items[i].value == Some(v)
    decreases |items|
  {
    if items != [] {
      PairsMember(items[1..], k, v);
      if (k, v) in Pairs(items[1..]) {
        var i :| 0 <= i < |items[1..]| && items[1..][i].key == k && items[1..][i].value == Some(v);
        assert items[i + 1] == items[1..][i];
      }
      if exists i :: 0 <= i < |items| && items[i].key == k && items[i].value == Some(v) {
        var i :| 0 <= i < |items| && items[i].key == k && items[i].value == Some(v);
        if i > 0 {
          assert items[1..][i - 1] == items[i];
        }
      }
    }
  }

  /** The serialiser's verdict on a list of slots, step by step as the loop
      of src/rest.rs:91-99 walks it: unset optional slots are skipped, an
      unset required slot stops it. */
  function CollectPairs(items: seq<Param>): Result<seq<Pair>, string>
    decreases |items|
  {
    if items == [] then Ok([])
    else
      var rest := CollectPairs(items[1..]);
      if items[0].value.Some? then
        match rest
        case Ok(tail) => Ok([(items[0].key, items[0].value.value)] + tail)
        case Err(k) => Err(k)
      else if items[0].isRequired then Err(items[0].key)
      else rest
  }

  /** The first unset required slot decides the verdict (the error carries
      its key); without one, every value-bearing slot is emitted in order. */
  lemma {:induction false} CollectPairsVerdict(items: seq<Param>)
    ensures match FirstIndex(items, Missing)
      case Some(i) => CollectPairs(items) == Err(items[i].key)
      case None => CollectPairs(items) == Ok(Pairs(items))
    decreases |items|
  {
    if items != [] {
      CollectPairsVerdict(items[1..]);
      assert Pairs(items) == PairOf(items[0]) + Pairs(items[1..]);
      if !Missing(items[0]) {
        match FirstIndex(items[1..], Missing)
        case Some(i) =>
          assert items[i + 1] == items[1..][i];
        case None =>
          if items[0].value.None? {
            assert PairOf(items[0]) + Pairs(items[1..]) == Pairs(items[1..]);
          }
      }
    }
  }

  /** The three slot constructors as the serialiser sees them: a pre-valued
      slot is emitted, an unset required one fails, an unset optional one is
      omitted. */
  lemma SlotConstructors(key: string, value: string)
    ensures CollectPairs([Prevalue(key, value)]) == Ok([(key, value)])
    ensures CollectPairs([Required(key)]) == Err(key)
    ensures CollectPairs([Optional(key)]) == Ok([])
  {
    assert [Prevalue(key, value)][1..] == [];
    assert CollectPairs([Prevalue(key, value)][1..]) == Ok([]);
    assert [(key, value)] + [] == [(key, value)];
    assert [Optional(key)][1..] == [];
  }

  /** `impl Serialize for RestApiMethodParamBunch`: keep the value-bearing
      slots in a local list, failing on an unset required one, then emit one
      field per kept slot. */
  method Serialize(bunch: ParamBunch) returns (r: Result<seq<Pair>, string>)
    ensures r == CollectPairs(bunch.items)
  {
    var kept := KeepSet(bunch.items);
    match kept {
      case Err(key) =>
        return Err(key);
      case Ok(filtered) =>
        var fields := EmitFields(filtered);
        return Ok(fields);
    }
  }

  /** Every slot in `ps` carries a value. */
  predicate AllSet(ps: seq<Param>)
  {
    forall j :: 0 <= j < |ps| ==> ps[j].value.Some?
  }

  /** The serialiser's verdict on one slot. */
  lemma CollectPairsSingle(p: Param)
    ensures CollectPairs([p]) == if Missing(p) then Err(p.key) else Ok(PairOf(p))
  {
    assert [p][1..] == [];
    assert CollectPairs([p][1..]) == Ok([]);
    assert PairOf(p) + [] == PairOf(p);
  }

  /** The serialiser's verdict on two lists in a row: an error in the
      first wins, then one in the second; otherwise the pairs concatenate. */
  lemma {:induction false} CollectPairsAppend(a: seq<Param>, b: seq<Param>)
    ensures CollectPairs(a + b) ==
            match CollectPairs(a)
            case Err(k) => Err(k)
            case Ok(x) => (match CollectPairs(b) case Err(k) => Err(k) case Ok(y) => Ok(x + y))
    decreases |a|
  {
    if a == [] {
      assert a + b == b;
      if CollectPairs(b).Ok? {
        assert [] + CollectPairs(b).value == CollectPairs(b).value;
      }
    } else {
      assert (a + b)[0] == a[0];
      assert (a + b)[1..] == a[1..] + b;
      CollectPairsAppend(a[1..], b);
      if a[0].value.Some? && CollectPairs(a[1..]).Ok? && CollectPairs(b).Ok? {
        var x := CollectPairs(a[1..]).value;
        var y := CollectPairs(b).value;
        assert [(a[0].key, a[0].value.value)] + (x + y) == ([(a[0].key, a[0].value.value)] + x) + y;
      }
    }
  }

  /** The first half of `serialize`: the slots that carry a value, in
      order, unless an unset required slot comes first. */
  method KeepSet(items: seq<Param>) returns (r: Result<seq<Param>, string>)
    ensures r.Err? ==> CollectPairs(items) == Err(r.error)
    ensures r.Ok? ==> CollectPairs(items) == Ok(Pairs(r.value)) && AllSet(r.value)
  {
    var filtered: seq<Param> := [];
    for i := 0 to |items|
      invariant CollectPairs(items[..i]) == Ok(Pairs(filtered)) && AllSet(filtered)
    {
      assert items[..i + 1] == items[..i] + [items[i]];
      CollectPairsAppend(items[..i], [items[i]]);
      CollectPairsSingle(items[i]);
      if items[i].value.Some? {
        PairsAppend(filtered, [items[i]]);
        PairsSingle(items[i]);
        filtered := filtered + [items[i]];
      } else if !items[i].isRequired {
        assert Pairs(filtered) + PairOf(items[i]) == Pairs(filtered);
      } else {
        assert items == items[..i + 1] + items[i + 1..];
        CollectPairsAppend(items[..i + 1], items[i + 1..]);
        return Err(items[i].key);
      }
    }
    assert items[..|items|] == items;
    return Ok(filtered);
  }

  /** The second half of `serialize`: one struct field per kept slot, in
      order. */
  method EmitFields(filtered: seq<Param>) returns (fields: seq<Pair>)
    requires AllSet(filtered)
    ensures fields == Pairs(filtered)
  {
    fields := [];
    for j := 0 to |filtered|
      invariant fields == Pairs(filtered[..j])
    {
      PairsAppend(filtered[..j], [filtered[j]]);
      assert filtered[..j + 1] == filtered[..j] + [filtered[j]];
      fields := fields + [(filtered[j].key, filtered[j].value.value)];
    }
    assert filtered[..|filtered|] == filtered;
  }

  /** Why a write-once setter refused a value. */
  datatype SetError = AlreadySet(key: string) | NotFound(key: string)

  function KeyIs(key: string): Param -> bool
  {
    (p: Param) => p.key == key
  }

  function RouteKeyIs(key: string): RouteParam -> bool
  {
    (p: RouteParam) => p.key == key
  }

  /** Write-once assignment to the first slot named `key`. */
  function SetParam(items: seq<Param>, key: string, value: string): (r: Result<seq<Param>, SetError>)
    ensures r == Err(NotFound(key)) <==> forall j :: 0 <= j < |items| ==> items[j].key != key
    ensures r == Err(AlreadySet(key)) <==>
            exists i :: 0 <= i < |items| && items[i].key == key && items[i].value.Some? &&
                        forall j :: 0 <= j < i ==> items[j].key != key
    ensures r.Ok? <==>
            exists i :: 0 <= i < |items| && items[i].key == key && items[i].value.None? &&
                        forall j :: 0 <= j < i ==> items[j].key != key
    ensures r.Ok? ==>
            exists i :: 0 <= i < |items| && items[i].key == key && items[i].value.None? &&
                        (forall j :: 0 <= j < i ==> items[j].key != key) &&
                        r.value == items[i := items[i].(value := Some(value))]
  {
    match FirstIndex(items, KeyIs(key))
    case None => Err(NotFound(key))
    case Some(i) =>
      if items[i].value.Some? then Err(AlreadySet(key))
      else Ok(items[i := items[i].(value := Some(value))])
  }

  /** Write-once: once a slot has been filled, filling it again fails. */
  lemma SetParamWriteOnce(items: seq<Param>, key: string, v: string, w: string)
    requires SetParam(items, key, v).Ok?
    ensures SetParam(SetParam(items, key, v).value, key, w) == Err(AlreadySet(key))
  {
    var i :| 0 <= i < |items| && items[i].key == key && items[i].value.None? &&
             (forall j :: 0 <= j < i ==> items[j].key != key) &&
             SetParam(items, key, v).value == items[i := items[i].(value := Some(v))];
    var filled := SetParam(items, key, v).value;
    assert filled[i].key == key && filled[i].value.Some?;
    assert forall j :: 0 <= j < i ==> filled[j].key != key;
  }

  /** Write-once assignment to the first route placeholder named `key`. */
  function SetRoute(routes: seq<RouteParam>, key: string, value: string): (r: Result<seq<RouteParam>, SetError>)
    ensures r == Err(NotFound(key)) <==> forall j :: 0 <= j < |routes| ==> routes[j].key != key
    ensures r == Err(AlreadySet(key)) <==>
            exists i :: 0 <= i < |routes| && routes[i].key == key && routes[i].value.Some? &&
                        forall j :: 0 <= j < i ==> routes[j].key != key
    ensures r.Ok? <==>
            exists i :: 0 <= i < |routes| && routes[i].key == key && routes[i].value.None? &&
                        forall j :: 0 <= j < i ==> routes[j].key != key
    ensures r.Ok? ==>
            exists i :: 0 <= i < |routes| && routes[i].key == key && routes[i].value.None? &&
                        (forall j :: 0 <= j < i ==> routes[j].key != key) &&
                        r.value == routes[i := routes[i].(value := Some(value))]
  {
    match FirstIndex(routes, RouteKeyIs(key))
    case None => Err(NotFound(key))
    case Some(i) =>
      if routes[i].value.Some? then Err(AlreadySet(key))
      else Ok(routes[i := routes[i].(value := Some(value))])
  }

  /** Everything a builder has accumulated (`RestApiMethodBuilder`). */
  datatype BuilderState = BuilderState(
    baseUrl: Option<string>,
    requestMethod: RequestMethod,
    url: Option<string>,
    params: seq<Param>,
    queryParams: seq<Param>,
    routeParams: seq<RouteParam>,
    transformResponse: Option<ResponseTransformer>,
    configureRequest: Option<RequestConfigurator>)

  /** A fully specified REST call (`RestApiMethod`). */
  datatype Descriptor = Descriptor(
    baseUrl: string,
    requestMethod: RequestMethod,
    url: string,
    params: ParamBunch,
    queryParams: ParamBunch,
    routeParams: seq<RouteParam>,
    transformResponse: ResponseTransformer,
    configureRequest: Option<RequestConfigurator>)

  const BASE_URL_NOT_SET := "RestApiMethodBuilder base_url was not set"
  const URL_NOT_SET := "RestApiMethodBuilder url was not set"
  const TRANSFORM_NOT_SET := "RestApiMethodBuilder transform_response was not set"

  /** The builder state a descriptor is built from: every field the same. */
  function Unbuilt(d: Descriptor): BuilderState
  {
    BuilderState(Some(d.baseUrl), d.requestMethod, Some(d.url), d.params.items,
                 d.queryParams.items, d.routeParams, Some(d.transformResponse), d.configureRequest)
  }

  /** The `build` gate: it panics on the first of `base_url`, `url`,
      `transform_response` (in field order) that is unset, and otherwise
      copies every field unchanged. */
  function BuildSpec(s: BuilderState): (r: Exit<Descriptor>)
    ensures r.Returned? <==> s.baseUrl.Some? && s.url.Some? && s.transformResponse.Some?
    ensures r.Returned? ==> Unbuilt(r.value) == s
    ensures s.baseUrl.None? ==> r == Panicked(BASE_URL_NOT_SET)
    ensures s.baseUrl.Some? && s.url.None? ==> r == Panicked(URL_NOT_SET)
    ensures s.baseUrl.Some? && s.url.Some? && s.transformResponse.None? ==> r == Panicked(TRANSFORM_NOT_SET)
  {
    if s.baseUrl.None? then Panicked(BASE_URL_NOT_SET)
    else if s.url.None? then Panicked(URL_NOT_SET)
    else if s.transformResponse.None? then Panicked(TRANSFORM_NOT_SET)
    else Returned(Descriptor(s.baseUrl.value, s.requestMethod, s.url.value, ParamBunch(s.params),
                             ParamBunch(s.queryParams), s.routeParams, s.transformResponse.value,
                             s.configureRequest))
  }

  /** Building loses nothing: every descriptor is what building its own
      builder state gives. */
  lemma BuildUnbuilt(d: Descriptor)
    ensures BuildSpec(Unbuilt(d)) == Returned(d)
  {
  }

  /** The state of a fresh builder (`RestApiMethodBuilder::new`). */
  function EmptyBuilder(): (s: BuilderState)
    ensures s.requestMethod == Get && s.params == [] && s.queryParams == [] && s.routeParams == []
    ensures BuildSpec(s).Panicked?
  {
    BuilderState(None, Get, None, [], [], [], None, None)
  }

  /** The mutable staging object of a REST method (`RestApiMethodBuilder`). */
  class MethodBuilder {
    var baseUrl: Option<string>
    var requestMethod: RequestMethod
    var url: Option<string>
    var params: seq<Param>
    var queryParams: seq<Param>
    var routeParams: seq<RouteParam>
    var transformResponse: Option<ResponseTransformer>
    var configureRequest: Option<RequestConfigurator>

    function State(): BuilderState
      reads this
    {
      BuilderState(baseUrl, requestMethod, url, params, queryParams, routeParams,
                   transformResponse, configureRequest)
    }

    constructor ()
      ensures State() == EmptyBuilder()
    {
      baseUrl, requestMethod, url := None, Get, None;
      params, queryParams, routeParams := [], [], [];
      transformResponse, configureRequest := None, None;
    }

    method SetBaseUrl(u: string)
      modifies this`baseUrl
      ensures baseUrl == Some(u)
    {
      baseUrl := Some(u);
    }

    method SetMethod(m: RequestMethod)
      modifies this`requestMethod
      ensures requestMethod == m
    {
      requestMethod := m;
    }

    method SetUrl(u: string)
      modifies this`url
      ensures url == Some(u)
    {
      url := Some(u);
    }

    method AddRouteParam(p: RouteParam)
      modifies this`routeParams
      ensures routeParams == old(routeParams) + [p]
    {
      routeParams := routeParams + [p];
    }

    method AddParam(p: Param)
      modifies this`params
      ensures params == old(params) + [p]
    {
      params := params + [p];
    }

    method AddQueryParam(p: Param)
      modifies this`queryParams
      ensures queryParams == old(queryParams) + [p]
    {
      queryParams := queryParams + [p];
    }

    method SetTransformResponse(t: ResponseTransformer)
      modifies this`transformResponse
      ensures transformResponse == Some(t)
    {
      transformResponse := Some(t);
    }

    method SetConfigureRequest(c: RequestConfigurator)
      modifies this`configureRequest
      ensures configureRequest == Some(c)
    {
      configureRequest := Some(c);
    }

    /** `#[derive(Clone)]`: an independent copy, used as a per-call template. */
    method Clone() returns (b: MethodBuilder)
      ensures fresh(b) && b.State() == State()
    {
      b := new MethodBuilder();
      b.baseUrl, b.requestMethod, b.url := baseUrl, requestMethod, url;
      b.params, b.queryParams, b.routeParams := params, queryParams, routeParams;
      b.transformResponse, b.configureRequest := transformResponse, configureRequest;
    }

    method Build() returns (r: Exit<RestApiMethod>)
      ensures match BuildSpec(State())
        case Panicked(reason) => r == Panicked(reason)
        case Returned(d) => r.Returned? && fresh(r.value) && r.value.View() == d
    {
      if baseUrl.None? {
        return Panicked(BASE_URL_NOT_SET);
      }
      if url.None? {
        return Panicked(URL_NOT_SET);
      }
      if transformResponse.None? {
        return Panicked(TRANSFORM_NOT_SET);
      }
      var m := new RestApiMethod(Descriptor(baseUrl.value, requestMethod, url.value,
                                            ParamBunch(params), ParamBunch(queryParams), routeParams,
                                            transformResponse.value, configureRequest));
      return Returned(m);
    }
  }

  /** A built REST method; only the values inside its slots change after
      `build`, through the write-once setters. */
  class RestApiMethod {
    var baseUrl: string
    var requestMethod: RequestMethod
    var url: string
    var params: ParamBunch
    var queryParams: ParamBunch
    var routeParams: seq<RouteParam>
    var transformResponse: ResponseTransformer
    var configureRequest: Option<RequestConfigurator>

    function View(): Descriptor
      reads this
    {
      Descriptor(baseUrl, requestMethod, url, params, queryParams, routeParams,
                 transformResponse, configureRequest)
    }

    constructor (d: Descriptor)
      ensures View() == d
    {
      baseUrl, requestMethod, url := d.baseUrl, d.requestMethod, d.url;
      params, queryParams, routeParams := d.params, d.queryParams, d.routeParams;
      transformResponse, configureRequest := d.transformResponse, d.configureRequest;
    }

    /** `RestApiMethod::builder`. */
    static method Builder() returns (b: MethodBuilder)
      ensures fresh(b) && b.State() == EmptyBuilder()
    {
      b := new MethodBuilder();
    }

    method SetParamValue(key: string, value: string) returns (r: Result<(), SetError>)
      modifies this`params
      ensures match SetParam(old(params.items), key, value)
        case Ok(items) => r == Ok(()) && params == ParamBunch(items)
        case Err(e) => r == Err(e) && params == old(params)
    {
      var found := Find(params.items, KeyIs(key));
      if found.None? {
        return Err(NotFound(key));
      }
      var i := found.value;
      if params.items[i].value.Some? {
        return Err(AlreadySet(key));
      }
      params := ParamBunch(params.items[i := params.items[i].(value := Some(value))]);
      return Ok(());
    }

    method SetQueryParamValue(key: string, value: string) returns (r: Result<(), SetError>)
      modifies this`queryParams
      ensures match SetParam(old(queryParams.items), key, value)
        case Ok(items) => r == Ok(()) && queryParams == ParamBunch(items)
        case Err(e) => r == Err(e) && queryParams == old(queryParams)
    {
      var found := Find(queryParams.items, KeyIs(key));
      if found.None? {
        return Err(NotFound(key));
      }
      var i := found.value;
      if queryParams.items[i].value.Some? {
        return Err(AlreadySet(key));
      }
      queryParams := ParamBunch(queryParams.items[i := queryParams.items[i].(value := Some(value))]);
      return Ok(());
    }

    method SetRouteParamValue(key: string, value: string) returns (r: Result<(), SetError>)
      modifies this`routeParams
      ensures match SetRoute(old(routeParams), key, value)
        case Ok(routes) => r == Ok(()) && routeParams == routes
        case Err(e) => r == Err(e) && routeParams == old(routeParams)
    {
      var found := Find(routeParams, RouteKeyIs(key));
      if found.None? {
        return Err(NotFound(key));
      }
      var i := found.value;
      if routeParams[i].value.Some? {
        return Err(AlreadySet(key));
      }
      routeParams := routeParams[i := routeParams[i].(value := Some(value))];
      return Ok(());
    }
  }
}
