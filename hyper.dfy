/** URI compilation (`compile_uri` of src/hyper.rs). The `url` crate's parsing
    and percent-encoding are not modelled: a URI is the concatenation of
    `base_url` and the substituted path, plus its ordered query pairs. */
module Hyper {
  import opened Base
  import opened Rest

  datatype Uri = Uri(address: string, query: seq<Pair>)

  datatype UriError = MissingRouteParam(key: string) | MissingParam(key: string)

  /** `pat` occurs in `s` starting at position `i`. */
  predicate MatchAt(s: string, pat: string, i: nat)
  {
    i + |pat| <= |s| && s[i..i + |pat|] == pat
  }

  ghost predicate Occurs(s: string, pat: string)
  {
    exists i: nat :: MatchAt(s, pat, i)
  }

  /** `str::replace`: scanning left to right, every occurrence of `pat` that
      does not overlap an earlier replaced one becomes `rep`. */
  function ReplaceAll(s: string, pat: string, rep: string): string
    requires |pat| > 0
    decreases |s|
  {
    if |s| < |pat| then s
    else if s[..|pat|] == pat then rep + ReplaceAll(s[|pat|..], pat, rep)
    else [s[0]] + ReplaceAll(s[1..], pat, rep)
  }

  /** A path without the placeholder is left as it is. */
  lemma {:induction false} ReplaceAllAbsent(s: string, pat: string, rep: string)
    requires |pat| > 0 && !Occurs(s, pat)
    ensures ReplaceAll(s, pat, rep) == s
    decreases |s|
  {
    if |s| >= |pat| {
      assert !MatchAt(s, pat, 0);
      assert s[0..|pat|] == s[..|pat|];
      forall i: nat | MatchAt(s[1..], pat, i)
        ensures MatchAt(s, pat, i + 1)
      {
        assert s[1..][i..i + |pat|] == s[i + 1..i + 1 + |pat|];
      }
      ReplaceAllAbsent(s[1..], pat, rep);
      assert [s[0]] + s[1..] == s;
    }
  }

  /** The placeholder a route parameter stands for in the path: `{key}`. */
  function Token(key: string): (t: string)
    ensures |t| == |key| + 2 && t[0] == '{' && t[|t| - 1] == '}'
    ensures t[1..|t| - 1] == key
  {
    "{" + key + "}"
  }

  /** Each occurrence of the placeholder is replaced: a path that reaches
      the token without passing an opening brace has the token replaced
      there, and the rest is scanned from just after it. */
  lemma {:induction false} ReplaceAllToken(a: string, key: string, value: string, b: string)
    requires '{' !in a
    ensures ReplaceAll(a + Token(key) + b, Token(key), value) == a + value + ReplaceAll(b, Token(key), value)
    decreases |a|
  {
    var pat := Token(key);
    var s := a + pat + b;
    if a == [] {
      assert s == pat + b;
      assert s[..|pat|] == pat;
      assert s[|pat|..] == b;
    } else {
      assert s[0] == a[0] != '{' == pat[0];
      assert s[..|pat|] != pat by {
        assert s[..|pat|][0] == s[0];
      }
      assert s[1..] == a[1..] + pat + b;
      ReplaceAllToken(a[1..], key, value, b);
      assert [a[0]] + (a[1..] + value + ReplaceAll(b, pat, value)) == a + value + ReplaceAll(b, pat, value);
    }
  }

  /** A placeholder the path never contains is left alone, so a path made
      of a brace-free prefix, the token and a brace-free suffix comes out
      with the value in place of the token. */
  lemma ReplaceAllOnce(a: string, key: string, value: string, b: string)
    requires '{' !in a && '{' !in b
    ensures ReplaceAll(a + Token(key) + b, Token(key), value) == a + value + b
  {
    ReplaceAllToken(a, key, value, b);
    var pat := Token(key);
    forall i: nat
      ensures !MatchAt(b, pat, i)
    {
      if i + |pat| <= |b| {
        assert b[i..i + |pat|][0] == b[i];
      }
    }
    ReplaceAllAbsent(b, pat, value);
  }

  predicate Unset(r: RouteParam)
  {
    r.value.None?
  }

  /** The route loop of `compile_uri`: substitute each placeholder in
      declaration order into the already-substituted path; the first unset
      route parameter stops it, and its key is the error. */
  function SubstituteRoutes(path: string, routes: seq<RouteParam>): (r: Result<string, string>)
    ensures match FirstIndex(routes, Unset)
      case Some(i) => r == Err(routes[i].key)
      case None => r.Ok?
    decreases |routes|
  {
    if routes == [] then Ok(path)
    else match routes[0].value
      case None => Err(routes[0].key)
      case Some(v) => SubstituteRoutes(ReplaceAll(path, Token(routes[0].key), v), routes[1..])
  }

  /** A path in which no placeholder of a set route parameter occurs comes
      out unchanged. */
  lemma {:induction false} SubstituteRoutesAbsent(path: string, routes: seq<RouteParam>)
    requires forall j :: 0 <= j < |routes| ==> routes[j].value.Some? && !Occurs(path, Token(routes[j].key))
    ensures SubstituteRoutes(path, routes) == Ok(path)
    decreases |routes|
  {
    if routes != [] {
      ReplaceAllAbsent(path, Token(routes[0].key), routes[0].value.value);
      SubstituteRoutesAbsent(path, routes[1..]);
    }
  }

  /** What `compile_uri` computes. */
  function CompileSpec(d: Descriptor): Result<Uri, UriError>
  {
    match SubstituteRoutes(d.url, d.routeParams)
    case Err(k) => Err(MissingRouteParam(k))
    case Ok(path) =>
      var fromParams := if d.requestMethod == Get then CollectPairs(d.params.items) else Ok([]);
      match fromParams
      case Err(k) => Err(MissingParam(k))
      case Ok(pairs) =>
        match CollectPairs(d.queryParams.items)
        case Err(k) => Err(MissingParam(k))
        case Ok(queryPairs) => Ok(Uri(d.baseUrl + path, pairs + queryPairs))
  }

  /** `compile_uri` fails exactly when a route parameter is unset, or a
      required query entry is unset (in `params` for `Get` only, or in
      `query_params`), and the first of these in that order is the error;
      otherwise the address is the base URL followed by the substituted path
      and the query lists the set entries in declaration order. */
  lemma CompileOutcome(d: Descriptor)
    ensures CompileSpec(d).Err? <==>
            || FirstIndex(d.routeParams, Unset).Some?
            || (d.requestMethod == Get && FirstIndex(d.params.items, Missing).Some?)
            || FirstIndex(d.queryParams.items, Missing).Some?
    ensures FirstIndex(d.routeParams, Unset).Some? ==>
            CompileSpec(d) == Err(MissingRouteParam(d.routeParams[FirstIndex(d.routeParams, Unset).value].key))
    ensures FirstIndex(d.routeParams, Unset).None? && d.requestMethod == Get &&
            FirstIndex(d.params.items, Missing).Some? ==>
            CompileSpec(d) == Err(MissingParam(d.params.items[FirstIndex(d.params.items, Missing).value].key))
    ensures FirstIndex(d.routeParams, Unset).None? &&
            (d.requestMethod == Get ==> FirstIndex(d.params.items, Missing).None?) &&
            FirstIndex(d.queryParams.items, Missing).Some? ==>
            CompileSpec(d) == Err(MissingParam(d.queryParams.items[FirstIndex(d.queryParams.items, Missing).value].key))
    ensures CompileSpec(d).Ok? ==>
            CompileSpec(d).value.address == d.baseUrl + SubstituteRoutes(d.url, d.routeParams).value &&
            CompileSpec(d).value.query == (if d.requestMethod == Get then Pairs(d.params.items) else []) + Pairs(d.queryParams.items)
  {
    CollectPairsVerdict(d.params.items);
    CollectPairsVerdict(d.queryParams.items);
  }

  /** For a `Post` method the `params` are neither appended nor checked. */
  lemma PostIgnoresParams(d: Descriptor, params: ParamBunch)
    requires d.requestMethod == Post
    ensures CompileSpec(d.(params := params)) == CompileSpec(d)
  {
  }

  /** The worked example: `/x/{id}` with `id = 42` and parameters declared
      `a = 1` then `b = 2` compiles to `/x/42?a=1&b=2`. */
  lemma CompileExample(base: string)
    ensures CompileSpec(Descriptor(base, Get, "/x/{id}", ParamBunch([Prevalue("a", "1"), Prevalue("b", "2")]),
                                   ParamBunch([]), [RouteParam("id", Some("42"))], AllCoinsTransformer, None))
            == Ok(Uri(base + "/x/42", [("a", "1"), ("b", "2")]))
  {
    ExamplePath();
    ExampleQuery();
    assert CollectPairs([]) == Ok([]);
    assert [("a", "1"), ("b", "2")] + [] == [("a", "1"), ("b", "2")];
  }

  /** The worked example with `id` unset fails naming `id`. */
  lemma CompileExampleUnset(base: string)
    ensures CompileSpec(Descriptor(base, Get, "/x/{id}", ParamBunch([Prevalue("a", "1"), Prevalue("b", "2")]),
                                   ParamBunch([]), [RouteParam("id", None)], AllCoinsTransformer, None))
            == Err(MissingRouteParam("id"))
  {
  }

  /** The path of the worked example. */
  lemma ExamplePath()
    ensures SubstituteRoutes("/x/{id}", [RouteParam("id", Some("42"))]) == Ok("/x/42")
  {
    ReplaceAllOnce("/x/", "id", "42", "");
    assert "/x/" + Token("id") + "" == "/x/{id}";
    assert "/x/" + "42" + "" == "/x/42";
    assert [RouteParam("id", Some("42"))][1..] == [];
  }

  /** The query of the worked example. */
  lemma ExampleQuery()
    ensures CollectPairs([Prevalue("a", "1"), Prevalue("b", "2")]) == Ok([("a", "1"), ("b", "2")])
  {
    var items := [Prevalue("a", "1"), Prevalue("b", "2")];
    assert items[1..] == [Prevalue("b", "2")];
    CollectPairsSingle(Prevalue("b", "2"));
    assert [("a", "1")] + [("b", "2")] == [("a", "1"), ("b", "2")];
  }

  /** `Ok(acc ++ pairs)` for a successful tail, the tail's error otherwise. */
  function Prepend(acc: seq<Pair>, r: Result<seq<Pair>, string>): Result<seq<Pair>, string>
  {
    match r
    case Ok(pairs) => Ok(acc + pairs)
    case Err(k) => Err(k)
  }

  lemma PrependNothing(r: Result<seq<Pair>, string>)
    ensures Prepend([], r) == r
  {
    if r.Ok? {
      assert [] + r.value == r.value;
    }
  }

  lemma PrependAssoc(a: seq<Pair>, b: seq<Pair>, r: Result<seq<Pair>, string>)
    ensures Prepend(a, Prepend(b, r)) == Prepend(a + b, r)
  {
    if r.Ok? {
      assert a + (b + r.value) == (a + b) + r.value;
    }
  }

  /** One step of a query loop: the verdict on `items[i..]` from the slot at
      `i` and the verdict on `items[i + 1..]`. */
  lemma CollectPairsStep(items: seq<Param>, i: nat)
    requires i < |items|
    ensures CollectPairs(items[i..]) ==
            if items[i].value.Some? then Prepend([(items[i].key, items[i].value.value)], CollectPairs(items[i + 1..]))
            else if items[i].isRequired then Err(items[i].key)
            else CollectPairs(items[i + 1..])
  {
    assert items[i..][0] == items[i];
    assert items[i..][1..] == items[i + 1..];
  }

  /** `compile_uri`: substitute the route placeholders, then append the
      query pairs of `params` (for `Get` only) and of `query_params`,
      returning early on the first unset required entry. */
  method CompileUri(m: RestApiMethod) returns (r: Result<Uri, UriError>)
    ensures r == CompileSpec(m.View())
  {
    var url := m.url;
    var routes := m.routeParams;
    for i := 0 to |routes|
      invariant SubstituteRoutes(m.url, routes) == SubstituteRoutes(url, routes[i..])
    {
      assert routes[i..][0] == routes[i];
      assert routes[i..][1..] == routes[i + 1..];
      match routes[i].value
      case None =>
        return Err(MissingRouteParam(routes[i].key));
      case Some(val) =>
        url := ReplaceAll(url, Token(routes[i].key), val);
    }
    assert routes[|routes|..] == [];
    var query: seq<Pair> := [];
    var fromParams: Result<seq<Pair>, string> := Ok([]);
    if m.requestMethod == Get {
      var items := m.params.items;
      fromParams := CollectPairs(items);
      assert items[0..] == items;
      PrependNothing(fromParams);
      for i := 0 to |items|
        invariant fromParams == Prepend(query, CollectPairs(items[i..]))
      {
        CollectPairsStep(items, i);
        if items[i].value.Some? {
          PrependAssoc(query, [(items[i].key, items[i].value.value)], CollectPairs(items[i + 1..]));
          query := query + [(items[i].key, items[i].value.value)];
        } else if items[i].isRequired {
          return Err(MissingParam(items[i].key));
        }
      }
      assert items[|items|..] == [];
      assert query + [] == query;
    }
    var queryItems := m.queryParams.items;
    assert fromParams == Ok(query);
    var fromQuery := Prepend(query, CollectPairs(queryItems));
    assert queryItems[0..] == queryItems;
    for i := 0 to |queryItems|
      invariant fromQuery == Prepend(query, CollectPairs(queryItems[i..]))
    {
      CollectPairsStep(queryItems, i);
      if queryItems[i].value.Some? {
        PrependAssoc(query, [(queryItems[i].key, queryItems[i].value.value)], CollectPairs(queryItems[i + 1..]));
        query := query + [(queryItems[i].key, queryItems[i].value.value)];
      } else if queryItems[i].isRequired {
        return Err(MissingParam(queryItems[i].key));
      }
    }
    assert queryItems[|queryItems|..] == [];
    assert query + [] == query;
    assert fromQuery == Ok(query);
    assert SubstituteRoutes(m.url, routes) == Ok(url);
    return Ok(Uri(m.baseUrl + url, query));
  }
}
