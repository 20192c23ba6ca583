/**
  Building one collection item for a URL pattern and an HTTP method
  (`createItem`, `createHeaders`, `createBody`, `buildUrl`). The JSON
  serialiser is a parameter: a function from the body map to its text, or
  to `None` when it throws `JsonProcessingException`.
 */
module RequestBuilding {
  import opened Wrappers
  import opened JavaStrings
  import opened CollectionModel
  import opened CollectionProperties
  import opened ParameterExtraction

  /** The one checked exception that can escape item building. */
  datatype Failure = JsonProcessingFailure

  datatype Result<T> = Ok(value: T) | Err(failure: Failure)

  /** `ObjectMapper.writeValueAsString` applied to a body map. */
  type Serializer = Entries -> Option<string>

  /** The item name: the pattern, an underscore and the method's name in
      upper case (which is the enum constant's name unchanged). */
  function ItemName(pattern: string, m: Method): (name: string)
    ensures name == pattern + "_" + MethodName(m)
  {
    ToUpperNoLower(MethodName(m));
    pattern + "_" + ToUpper(MethodName(m))
  }

  /** Method names hold no underscore, so the item name determines both
      the pattern and the method: two items of the same name come from the
      same pattern and method. */
  lemma ItemNameInjective(p1: string, m1: Method, p2: string, m2: Method)
    requires ItemName(p1, m1) == ItemName(p2, m2)
    ensures p1 == p2 && m1 == m2
  {
    var s := ItemName(p1, m1);
    var n1, n2 := MethodName(m1), MethodName(m2);
    assert s == p1 + "_" + n1 == p2 + "_" + n2;
    if |n1| < |n2| {
      UnderscoreInName(s, p2, n2, p1, n1);
    } else if |n2| < |n1| {
      UnderscoreInName(s, p1, n1, p2, n2);
    } else {
      assert n1 == s[|s| - |n1|..] == n2;
      MethodNameInjective(m1, m2);
      assert p1 == s[..|p1|] == p2;
    }
  }

  /** If `s` splits as `p + "_" + n` and as `q + "_" + n'` with `n'`
      shorter than `n`, then `n` holds the underscore that precedes `n'`. */
  lemma UnderscoreInName(s: string, p: string, n: string, p': string, n': string)
    requires s == p + "_" + n == p' + "_" + n'
    requires |n'| < |n|
    ensures n[|n| - |n'| - 1] == '_'
  {
    var q := |s| - |n'| - 1;
    assert s[q] == (p' + "_" + n')[|p'|];
    assert s[q] == (p + "_" + n)[|p| + 1 + (|n| - |n'| - 1)];
  }

  /** The header list the configuration asks for: one authorization header
      when enabled, nothing otherwise. */
  ghost predicate IsAuthHeaderList(headers: seq<Header>, auth: Authorization) {
    && (auth.enabled ==> headers == [Header(auth.headerName, auth.headerValue, auth.headerType)])
    && (!auth.enabled ==> headers == [])
  }

  /** `createHeaders`. */
  method CreateHeaders(properties: Properties) returns (headers: seq<Header>)
    ensures |headers| == if properties.authorization.enabled then 1 else 0
    ensures IsAuthHeaderList(headers, properties.authorization)
  {
    headers := [];
    if properties.authorization.enabled {
      var auth := properties.authorization;
      var authHeader := Header(auth.headerName, auth.headerValue, auth.headerType);
      headers := headers + [authHeader];
    }
  }

  /** `createBody`: a raw body holding the JSON text of the map, with the
      "json" language hint; it fails exactly when serialisation fails. */
  function CreateBody(requestBodyDefaults: Entries, json: Serializer): (r: Result<Body>)
    ensures r.Err? <==> json(requestBodyDefaults).None?
    ensures r.Ok? ==>
      && r.value.mode == "raw"
      && r.value.options.raw.language == "json"
      && json(requestBodyDefaults) == Some(r.value.raw)
  {
    match json(requestBodyDefaults)
    case None => Err(JsonProcessingFailure)
    case Some(text) => Ok(Body("raw", text, Options(Raw("json"))))
  }

  /** `order` lists every key of the set exactly once, in some order. */
  ghost predicate Enumerates(order: seq<string>, keys: set<string>) {
    && (forall k :: k in order <==> k in keys)
    && (forall i, j :: 0 <= i < j < |order| ==> order[i] != order[j])
  }

  /** The "key=value" pair of each key, in the given order, with the value
      as string concatenation renders it and no encoding. */
  function QueryPairs(order: seq<string>, params: Entries): (pairs: seq<string>)
    requires forall k :: k in order ==> k in params
    ensures |pairs| == |order|
    ensures forall i :: 0 <= i < |order| ==> pairs[i] == order[i] + "=" + ValueString(params[order[i]])
  {
    if |order| == 0 then []
    else
      var key := order[|order| - 1];
      QueryPairs(order[..|order| - 1], params) + [key + "=" + ValueString(params[key])]
  }

  /** `url` is what `buildUrl` may produce: base and path, then, when there
      are query parameters, "?" and one "key=value" per entry joined by "&"
      in the map's (unspecified) iteration order. */
  ghost predicate IsUrlFor(url: string, baseUrl: string, path: string, params: Entries) {
    if |params| == 0 then url == baseUrl + path
    else exists order ::
      && Enumerates(order, params.Keys)
      && url == baseUrl + path + "?" + Join("&", QueryPairs(order, params))
  }

  /** `buildUrl`: the map is walked in an order the model leaves open. */
  method BuildUrl(baseUrl: string, path: string, requestParamDefaults: Entries) returns (url: string, ghost order: seq<string>)
    ensures Enumerates(order, requestParamDefaults.Keys)
    ensures |requestParamDefaults| == 0 ==> url == baseUrl + path
    ensures |requestParamDefaults| > 0 ==>
      url == baseUrl + path + "?" + Join("&", QueryPairs(order, requestParamDefaults))
  {
    url := baseUrl + path;
    order := [];
    if |requestParamDefaults| > 0 {
      url := url + "?";
      var queryParams: seq<string> := [];
      var remaining := requestParamDefaults.Keys;
      while remaining != {}
        invariant remaining <= requestParamDefaults.Keys
        invariant forall k :: k in order <==> k in requestParamDefaults && k !in remaining
        invariant forall i, j :: 0 <= i < j < |order| ==> order[i] != order[j]
        invariant queryParams == QueryPairs(order, requestParamDefaults)
        decreases remaining
      {
        var key :| key in remaining;
        queryParams := queryParams + [key + "=" + ValueString(requestParamDefaults[key])];
        ghost var prev := order;
        order := order + [key];
        assert order[..|order| - 1] == prev;
        remaining := remaining - {key};
      }
      url := url + Join("&", queryParams);
    }
  }

  /** Every URL starts with the base URL followed by the path. */
  lemma UrlStartsWithBaseAndPath(url: string, baseUrl: string, path: string, params: Entries)
    requires IsUrlFor(url, baseUrl, path, params)
    ensures |url| >= |baseUrl + path| && url[..|baseUrl + path|] == baseUrl + path
  {
    if |params| == 0 {
      PrefixOfConcat(baseUrl + path, "");
      assert url == baseUrl + path + "";
    } else {
      var order :| Enumerates(order, params.Keys) &&
        url == baseUrl + path + "?" + Join("&", QueryPairs(order, params));
      var query := Join("&", QueryPairs(order, params));
      PrefixOfConcat3(baseUrl + path, "?", query);
    }
  }

  lemma PrefixOfConcat(a: string, b: string)
    ensures |a + b| >= |a| && (a + b)[..|a|] == a
  {
  }

  lemma PrefixOfConcat3(a: string, b: string, c: string)
    ensures |a + b + c| >= |a| && (a + b + c)[..|a|] == a
  {
    assert a + b + c == a + (b + c);
  }

  /** An enumeration has exactly as many elements as the set: the query
      string holds one pair per map entry. */
  lemma {:induction false} EnumeratesLength(order: seq<string>, keys: set<string>)
    requires Enumerates(order, keys)
    ensures |order| == |keys|
  {
    if |order| > 0 {
      var init, last := order[..|order| - 1], order[|order| - 1];
      assert order == init + [last];
      assert last !in init by {
        forall i | 0 <= i < |init|
          ensures init[i] != last
        {
          assert init[i] == order[i];
        }
      }
      assert forall k :: k in init <==> k in keys - {last};
      EnumeratesLength(init, keys - {last});
    }
  }

  /** A single query parameter leaves no choice of order. */
  lemma SingleParamUrl(url: string, baseUrl: string, path: string, key: string, value: Option<Value>)
    requires IsUrlFor(url, baseUrl, path, map[key := value])
    ensures url == baseUrl + path + "?" + key + "=" + ValueString(value)
  {
    var params := map[key := value];
    SingletonMap(key, value);
    var order :| Enumerates(order, params.Keys) &&
      url == baseUrl + path + "?" + Join("&", QueryPairs(order, params));
    SingletonEnumeration(order, key);
    SingletonQueryPairs(key, params);
    var pair := key + "=" + ValueString(value);
    assert Join("&", QueryPairs(order, params)) == pair;
    ConcatPair(baseUrl + path + "?", key, "=", ValueString(value));
  }

  lemma ConcatPair(a: string, b: string, c: string, d: string)
    ensures a + (b + c + d) == a + b + c + d
  {
  }

  lemma SingletonMap(key: string, value: Option<Value>)
    ensures map[key := value].Keys == {key} && |map[key := value]| == 1
  {
    assert map[key := value].Keys == {key};
  }

  /** The only enumeration of a one-element set. */
  lemma SingletonEnumeration(order: seq<string>, key: string)
    requires Enumerates(order, {key})
    ensures order == [key]
  {
    EnumeratesLength(order, {key});
    assert order[0] in order;
  }

  lemma SingletonQueryPairs(key: string, params: Entries)
    requires key in params
    ensures QueryPairs([key], params) == [key + "=" + ValueString(params[key])]
  {
    assert [key][..0] == [];
  }

  /** What an item built for one pattern and method with the handler's
      placeholder maps looks like. */
  ghost predicate IsItemFor(item: Item, pattern: string, m: Method, baseUrl: string,
                            auth: Authorization, d: Defaults, json: Serializer)
  {
    && item.name == pattern + "_" + MethodName(m)
    && item.request.httpMethod == MethodName(m)
    && IsAuthHeaderList(item.request.header, auth)
    && (item.request.body.Some? <==> |d.body| > 0)
    && (item.request.body.Some? ==> CreateBody(d.body, json) == Ok(item.request.body.value))
    && IsUrlFor(item.request.url, baseUrl, pattern, d.query)
  }

  /** `createItem`: fails exactly when there is a body to serialise and
      the serialiser throws. */
  method CreateItem(properties: Properties, pattern: string, m: Method, baseUrl: string,
                    requestBodyDefaults: Entries, requestParamDefaults: Entries, json: Serializer)
    returns (r: Result<Item>)
    ensures r.Err? <==> |requestBodyDefaults| > 0 && json(requestBodyDefaults).None?
    ensures r.Ok? ==> IsItemFor(r.value, pattern, m, baseUrl, properties.authorization,
                                Defaults(requestBodyDefaults, requestParamDefaults), json)
  {
    var name := ItemName(pattern, m);
    ToUpperNoLower(MethodName(m));
    var httpMethod := ToUpper(MethodName(m));
    var header := CreateHeaders(properties);
    var body: Option<Body> := None;
    if |requestBodyDefaults| > 0 {
      var created := CreateBody(requestBodyDefaults, json);
      if created.Err? {
        return Err(created.failure);
      }
      body := Some(created.value);
    }
    var url, order := BuildUrl(baseUrl, pattern, requestParamDefaults);
    r := Ok(Item(name, Request(httpMethod, header, body, url)));
  }
}
