/**
  Assembling the collection (`determineBaseUrl`, `createCollectionInfo`,
  `createCollectionItems`, `buildPostmanCollection`, `generateCollection`
  without the file write). Every route of the handler table is expanded
  into one item per URL pattern and HTTP method, pattern outer, method
  inner; an exception while processing a route is caught and processing
  continues with the next route.
 */
module CollectionAssembly {
  import opened Wrappers
  import opened JavaStrings
  import opened CollectionModel
  import opened CollectionProperties
  import opened ParameterExtraction
  import opened RequestBuilding

  /** `determineBaseUrl`: a non-blank configured base URL wins; otherwise
      the argument is used as it is, even when blank, and a null argument
      becomes "". */
  function DetermineBaseUrl(properties: Properties, apiPostFix: Option<string>): (baseUrl: string)
    ensures !IsBlank(properties.baseUrl) ==> baseUrl == properties.baseUrl
    ensures IsBlank(properties.baseUrl) && apiPostFix.Some? ==> baseUrl == apiPostFix.value
    ensures IsBlank(properties.baseUrl) && apiPostFix.None? ==> baseUrl == ""
  {
    if !IsBlank(properties.baseUrl) then properties.baseUrl
    else match apiPostFix
      case Some(s) => s
      case None => ""
  }

  /** `createCollectionInfo`: the configured collection name and schema. */
  function CreateCollectionInfo(properties: Properties): (info: Info)
    ensures info.name == properties.collection.name && info.schema == properties.collection.schema
  {
    Info(properties.collection.name, properties.collection.schema)
  }

  /** With the default configuration the collection is "API Collection"
      with the v2.0.0 schema, and a blank base URL defers to the argument. */
  lemma DefaultCollectionInfo(apiPostFix: string)
    ensures CreateCollectionInfo(DefaultProperties) == Info("API Collection", DefaultSchema)
    ensures DetermineBaseUrl(DefaultProperties, Some(apiPostFix)) == apiPostFix
  {
  }

  /** The items of one pattern: one per method, in order. */
  function Row(pattern: string, methods: seq<Method>): (row: seq<(string, Method)>)
    ensures |row| == |methods|
    ensures forall j :: 0 <= j < |methods| ==> row[j] == (pattern, methods[j])
  {
    seq(|methods|, j requires 0 <= j < |methods| => (pattern, methods[j]))
  }

  /** The (pattern, method) pairs of a route, pattern outer, method inner. */
  function Expansion(patterns: seq<string>, methods: seq<Method>): (pairs: seq<(string, Method)>)
    ensures forall k :: 0 <= k < |pairs| ==> pairs[k].0 in patterns && pairs[k].1 in methods
  {
    if |patterns| == 0 then []
    else
      var init := patterns[..|patterns| - 1];
      var pairs := Expansion(init, methods) + Row(patterns[|patterns| - 1], methods);
      assert forall k :: 0 <= k < |Expansion(init, methods)| ==> pairs[k] == Expansion(init, methods)[k];
      assert forall p :: p in init ==> p in patterns;
      pairs
  }

  /** The expansion is the full product: |patterns| * |methods| pairs, the
      pair for pattern i and method j at index i * |methods| + j. */
  lemma {:induction false} ExpansionAt(patterns: seq<string>, methods: seq<Method>, i: nat, j: nat)
    requires i < |patterns| && j < |methods|
    ensures |Expansion(patterns, methods)| == |patterns| * |methods|
    ensures i * |methods| + j < |Expansion(patterns, methods)|
    ensures Expansion(patterns, methods)[i * |methods| + j] == (patterns[i], methods[j])
  {
    var n, m := |patterns|, |methods|;
    var init := patterns[..n - 1];
    ExpansionSize(patterns, methods);
    ExpansionSize(init, methods);
    var front, row := Expansion(init, methods), Row(patterns[n - 1], methods);
    assert Expansion(patterns, methods) == front + row;
    if i < n - 1 {
      ExpansionAt(init, methods, i, j);
      IndexBelowRow(i, n - 1, m, j);
      assert init[i] == patterns[i];
    } else {
      assert i * m + j == |front| + j;
    }
  }

  /** Row i of a product with m columns ends before row k starts, i < k. */
  lemma IndexBelowRow(i: nat, k: nat, m: nat, j: nat)
    requires i < k && j < m
    ensures i * m + j < k * m
  {
    assert (i + 1) * m == i * m + m;
    assert (i + 1) * m <= k * m;
  }

  lemma {:induction false} ExpansionSize(patterns: seq<string>, methods: seq<Method>)
    ensures |Expansion(patterns, methods)| == |patterns| * |methods|
  {
    if |patterns| > 0 {
      ExpansionSize(patterns[..|patterns| - 1], methods);
      assert (|patterns| - 1) * |methods| + |methods| == |patterns| * |methods|;
    }
  }

  /** No element occurs twice. */
  predicate Distinct<T(==)>(s: seq<T>) {
    forall a, b :: 0 <= a < b < |s| ==> s[a] != s[b]
  }

  /** Without repeated patterns or methods (the route exposes them as sets),
      no (pattern, method) pair is produced twice. */
  lemma {:induction false} ExpansionDistinct(patterns: seq<string>, methods: seq<Method>)
    requires Distinct(patterns) && Distinct(methods)
    ensures Distinct(Expansion(patterns, methods))
  {
    if |patterns| > 0 {
      var init, last := patterns[..|patterns| - 1], patterns[|patterns| - 1];
      ExpansionDistinct(init, methods);
      var front, row := Expansion(init, methods), Row(last, methods);
      assert last !in init by {
        forall a | 0 <= a < |init|
          ensures init[a] != last
        {
          assert init[a] == patterns[a];
        }
      }
      var pairs := front + row;
      assert pairs == Expansion(patterns, methods);
      forall a, b | 0 <= a < b < |pairs|
        ensures pairs[a] != pairs[b]
      {
        if b < |front| {
          assert pairs[a] == front[a] && pairs[b] == front[b];
          assert front[a] != front[b];
        } else if a < |front| {
          assert pairs[a] == front[a] && front[a].0 in init;
          assert pairs[b] == row[b - |front|] && row[b - |front|].0 == last;
          assert pairs[a].0 != pairs[b].0;
        } else {
          var x, y := a - |front|, b - |front|;
          assert pairs[a] == row[x] && row[x].1 == methods[x];
          assert pairs[b] == row[y] && row[y].1 == methods[y];
          assert methods[x] != methods[y];
        }
      }
    }
  }

  /** `items` are the items for the given (pattern, method) pairs, one each,
      all built from the same placeholder maps. */
  ghost predicate ItemsFor(items: seq<Item>, pairs: seq<(string, Method)>, baseUrl: string,
                           auth: Authorization, d: Defaults, json: Serializer)
  {
    && |items| == |pairs|
    && forall k :: 0 <= k < |items| ==> IsItemFor(items[k], pairs[k].0, pairs[k].1, baseUrl, auth, d, json)
  }

  /** Building any item of the route fails: there is a body to serialise
      and the serialiser throws on it. Everything the failure depends on is
      the same for every item of the route. */
  predicate SerializationFails(d: Defaults, json: Serializer) {
    |d.body| > 0 && json(d.body).None?
  }

  /** What one route contributes to the item list. A route without a
      parsed path-pattern condition throws before anything is appended; a
      route with no pattern or no method adds nothing; otherwise the
      placeholder maps are extracted once and every (pattern, method) pair
      gets an item, unless serialisation fails, which it then does on the
      first item, so that nothing is added. */
  ghost predicate RouteContribution(route: Route, chunk: seq<Item>, baseUrl: string,
                                    properties: Properties, json: Serializer)
  {
    match route.patterns
    case None => chunk == []
    case Some(patterns) =>
      if |patterns| == 0 || |route.methods| == 0 then chunk == []
      else
        var d := Extracted(NoDefaults, route.params);
        if SerializationFails(d, json) then chunk == []
        else ItemsFor(chunk, Expansion(patterns, route.methods), baseUrl, properties.authorization, d, json)
  }

  /** The body of the per-route callback of `createCollectionItems`:
      appends the route's items to `itemList`. An exception returns from
      the callback and keeps what was appended before it. */
  method AppendRouteItems(properties: Properties, route: Route, baseUrl: string, json: Serializer,
                          itemList: seq<Item>)
    returns (result: seq<Item>, ghost chunk: seq<Item>)
    ensures |result| >= |itemList| && result[..|itemList|] == itemList
    ensures route.patterns.None? || |route.patterns.value| == 0 || |route.methods| == 0 ==> result == itemList
    ensures result == itemList + chunk
    ensures RouteContribution(route, chunk, baseUrl, properties, json)
  {
    result, chunk := itemList, [];
    if route.patterns.None? {
      // getPathPatternsCondition() is null: dereferencing it throws, and the exception is caught
      return;
    }
    var urlPatterns := route.patterns.value;
    var httpMethods := route.methods;
    if |urlPatterns| == 0 || |httpMethods| == 0 {
      return;
    }
    var requestBodyDefaults := new ObjectMap();
    var requestParamDefaults := new ObjectMap();
    ExtractParameterDefaults(route.params, requestBodyDefaults, requestParamDefaults);
    var bodyDefaults, paramDefaults := requestBodyDefaults.entries, requestParamDefaults.entries;
    ghost var d := Defaults(bodyDefaults, paramDefaults);
    assert d == Extracted(NoDefaults, route.params);
    for i := 0 to |urlPatterns|
      invariant result == itemList + chunk
      invariant ItemsFor(chunk, Expansion(urlPatterns[..i], httpMethods), baseUrl, properties.authorization, d, json)
      invariant SerializationFails(d, json) ==> chunk == []
    {
      ghost var done := Expansion(urlPatterns[..i], httpMethods);
      for j := 0 to |httpMethods|
        invariant result == itemList + chunk
        invariant done == Expansion(urlPatterns[..i], httpMethods) + Row(urlPatterns[i], httpMethods)[..j]
        invariant ItemsFor(chunk, done, baseUrl, properties.authorization, d, json)
        invariant SerializationFails(d, json) ==> chunk == []
      {
        var item := CreateItem(properties, urlPatterns[i], httpMethods[j], baseUrl, bodyDefaults, paramDefaults, json);
        if item.Err? {
          // JsonProcessingException, caught
          return;
        }
        RowPrefixSnoc(Expansion(urlPatterns[..i], httpMethods), urlPatterns[i], httpMethods, j);
        ItemsForSnoc(chunk, done, item.value, (urlPatterns[i], httpMethods[j]), baseUrl, properties.authorization, d, json);
        done := done + [(urlPatterns[i], httpMethods[j])];
        result := result + [item.value];
        chunk := chunk + [item.value];
      }
      ExpansionSnoc(urlPatterns, httpMethods, i);
    }
    assert urlPatterns[..|urlPatterns|] == urlPatterns;
  }

  /** One more pair of the current row is covered. */
  lemma RowPrefixSnoc(front: seq<(string, Method)>, pattern: string, methods: seq<Method>, j: nat)
    requires j < |methods|
    ensures front + Row(pattern, methods)[..j + 1] == front + Row(pattern, methods)[..j] + [(pattern, methods[j])]
  {
    assert Row(pattern, methods)[..j + 1] == Row(pattern, methods)[..j] + [(pattern, methods[j])];
  }

  /** A completed row extends the expansion by one pattern. */
  lemma ExpansionSnoc(patterns: seq<string>, methods: seq<Method>, i: nat)
    requires i < |patterns|
    ensures Expansion(patterns[..i + 1], methods) ==
      Expansion(patterns[..i], methods) + Row(patterns[i], methods)[..|methods|]
  {
    assert patterns[..i + 1][..i] == patterns[..i];
    assert Row(patterns[i], methods)[..|methods|] == Row(patterns[i], methods);
  }

  /** An item built for the next pair extends the items built so far. */
  lemma ItemsForSnoc(items: seq<Item>, pairs: seq<(string, Method)>, item: Item, pair: (string, Method),
                     baseUrl: string, auth: Authorization, d: Defaults, json: Serializer)
    requires ItemsFor(items, pairs, baseUrl, auth, d, json)
    requires IsItemFor(item, pair.0, pair.1, baseUrl, auth, d, json)
    ensures ItemsFor(items + [item], pairs + [pair], baseUrl, auth, d, json)
  {
    var items', pairs' := items + [item], pairs + [pair];
    forall k | 0 <= k < |items'|
      ensures IsItemFor(items'[k], pairs'[k].0, pairs'[k].1, baseUrl, auth, d, json)
    {
      if k < |items| {
        assert items'[k] == items[k] && pairs'[k] == pairs[k];
      }
    }
  }

  /** The concatenation of the routes' contributions, in route order. */
  function Flatten(chunks: seq<seq<Item>>): seq<Item> {
    if |chunks| == 0 then [] else Flatten(chunks[..|chunks| - 1]) + chunks[|chunks| - 1]
  }

  /** Route by route, `chunks` holds what each route of the table
      contributes. */
  ghost predicate Contributions(handlerMethods: seq<Route>, chunks: seq<seq<Item>>, baseUrl: string,
                                properties: Properties, json: Serializer)
    decreases |chunks|
  {
    && |chunks| == |handlerMethods|
    && (|chunks| > 0 ==>
         && Contributions(handlerMethods[..|chunks| - 1], chunks[..|chunks| - 1], baseUrl, properties, json)
         && RouteContribution(handlerMethods[|chunks| - 1], chunks[|chunks| - 1], baseUrl, properties, json))
  }

  /** The contribution of route r is the r-th chunk. */
  lemma {:induction false} ContributionAt(handlerMethods: seq<Route>, chunks: seq<seq<Item>>, baseUrl: string,
                                          properties: Properties, json: Serializer, r: nat)
    requires Contributions(handlerMethods, chunks, baseUrl, properties, json)
    requires r < |handlerMethods|
    ensures RouteContribution(handlerMethods[r], chunks[r], baseUrl, properties, json)
    decreases |chunks|
  {
    var n := |chunks|;
    if r < n - 1 {
      ContributionAt(handlerMethods[..n - 1], chunks[..n - 1], baseUrl, properties, json, r);
      assert handlerMethods[..n - 1][r] == handlerMethods[r] && chunks[..n - 1][r] == chunks[r];
    }
  }

  /** `createCollectionItems`: walks the handler table in its iteration
      order. The list only grows: each route's items follow all earlier
      routes' items. */
  method CreateCollectionItems(properties: Properties, handlerMethods: seq<Route>, baseUrl: string,
                               json: Serializer)
    returns (itemList: seq<Item>, ghost chunks: seq<seq<Item>>)
    ensures forall item :: item in itemList ==>
      |item.request.url| >= |baseUrl| && item.request.url[..|baseUrl|] == baseUrl
    ensures forall item :: item in itemList ==> IsAuthHeaderList(item.request.header, properties.authorization)
    ensures Contributions(handlerMethods, chunks, baseUrl, properties, json)
    ensures itemList == Flatten(chunks)
  {
    itemList, chunks := [], [];
    for r := 0 to |handlerMethods|
      invariant Contributions(handlerMethods[..r], chunks, baseUrl, properties, json)
      invariant itemList == Flatten(chunks)
    {
      ghost var chunk;
      itemList, chunk := AppendRouteItems(properties, handlerMethods[r], baseUrl, json, itemList);
      ghost var prev := chunks;
      chunks := chunks + [chunk];
      assert chunks[..r] == prev;
      assert handlerMethods[..r + 1][..r] == handlerMethods[..r];
    }
    assert handlerMethods[..|handlerMethods|] == handlerMethods;
    forall item | item in itemList
      ensures |item.request.url| >= |baseUrl| && item.request.url[..|baseUrl|] == baseUrl
      ensures IsAuthHeaderList(item.request.header, properties.authorization)
    {
      EveryUrlStartsWithBaseUrl(handlerMethods, chunks, baseUrl, properties, json, item);
      EveryItemHeaders(handlerMethods, chunks, baseUrl, properties, json, item);
    }
  }

  /** The items appended for the first r routes stay, unchanged and in
      place, at the front of the final list. */
  lemma {:induction false} FlattenPrefix(chunks: seq<seq<Item>>, r: nat)
    requires r <= |chunks|
    ensures |Flatten(chunks[..r])| <= |Flatten(chunks)|
    ensures Flatten(chunks)[..|Flatten(chunks[..r])|] == Flatten(chunks[..r])
  {
    if r < |chunks| {
      var init := chunks[..|chunks| - 1];
      assert init[..r] == chunks[..r];
      FlattenPrefix(init, r);
    } else {
      assert chunks[..r] == chunks;
    }
  }

  /** Each item of the list comes from some route's contribution. */
  lemma {:induction false} FlattenMember(chunks: seq<seq<Item>>, item: Item)
    requires item in Flatten(chunks)
    ensures exists r :: 0 <= r < |chunks| && item in chunks[r]
  {
    var init := chunks[..|chunks| - 1];
    if item in Flatten(init) {
      FlattenMember(init, item);
      var r :| 0 <= r < |init| && item in init[r];
      assert chunks[r] == init[r];
    } else {
      assert item in chunks[|chunks| - 1];
    }
  }

  /** A route with patterns and methods whose items serialise contributes
      exactly |patterns| * |methods| items; a route without patterns or
      without methods contributes none. */
  lemma RouteItemCount(route: Route, chunk: seq<Item>, baseUrl: string, properties: Properties, json: Serializer)
    requires RouteContribution(route, chunk, baseUrl, properties, json)
    requires route.patterns.Some?
    requires !SerializationFails(Extracted(NoDefaults, route.params), json)
    ensures |chunk| == |route.patterns.value| * |route.methods|
  {
    var patterns := route.patterns.value;
    if |patterns| > 0 && |route.methods| > 0 {
      ExpansionSize(patterns, route.methods);
    }
  }

  /** Within one route whose patterns and methods do not repeat, no two
      items share a name. */
  lemma RouteItemNamesDistinct(route: Route, chunk: seq<Item>, baseUrl: string, properties: Properties, json: Serializer)
    requires RouteContribution(route, chunk, baseUrl, properties, json)
    requires route.patterns.Some?
    requires Distinct(route.patterns.value) && Distinct(route.methods)
    ensures forall a, b :: 0 <= a < b < |chunk| ==> chunk[a].name != chunk[b].name
  {
    var patterns := route.patterns.value;
    if |chunk| > 0 {
      var pairs := Expansion(patterns, route.methods);
      var d := Extracted(NoDefaults, route.params);
      assert ItemsFor(chunk, pairs, baseUrl, properties.authorization, d, json);
      ExpansionDistinct(patterns, route.methods);
      forall a, b | 0 <= a < b < |chunk|
        ensures chunk[a].name != chunk[b].name
      {
        assert IsItemFor(chunk[a], pairs[a].0, pairs[a].1, baseUrl, properties.authorization, d, json);
        assert IsItemFor(chunk[b], pairs[b].0, pairs[b].1, baseUrl, properties.authorization, d, json);
        if chunk[a].name == chunk[b].name {
          ItemNameInjective(pairs[a].0, pairs[a].1, pairs[b].0, pairs[b].1);
        }
      }
    }
  }

  /** `buildPostmanCollection`: the collection metadata and the items. */
  method BuildPostmanCollection(properties: Properties, handlerMethods: seq<Route>, baseUrl: string,
                                json: Serializer)
    returns (document: Document, ghost chunks: seq<seq<Item>>)
    ensures document.info == CreateCollectionInfo(properties)
    ensures Contributions(handlerMethods, chunks, baseUrl, properties, json)
    ensures document.item == Flatten(chunks)
  {
    var items;
    items, chunks := CreateCollectionItems(properties, handlerMethods, baseUrl, json);
    document := Document(CreateCollectionInfo(properties), items);
  }

  /** `generateCollection` up to the file write: the document that is
      written and the path it is written to. */
  method GenerateCollection(properties: Properties, handlerMethods: seq<Route>, apiPostFix: Option<string>,
                            json: Serializer)
    returns (document: Document, outputPath: string, ghost chunks: seq<seq<Item>>)
    ensures outputPath == FullPath(properties.output)
    ensures document.info == CreateCollectionInfo(properties)
    ensures Contributions(handlerMethods, chunks, DetermineBaseUrl(properties, apiPostFix), properties, json)
    ensures document.item == Flatten(chunks)
  {
    var baseUrl := DetermineBaseUrl(properties, apiPostFix);
    document, chunks := BuildPostmanCollection(properties, handlerMethods, baseUrl, json);
    outputPath := FullPath(properties.output);
  }

  /** An item of a route's contribution was built for one of the route's
      (pattern, method) pairs from the route's placeholder maps. */
  lemma ChunkItem(route: Route, chunk: seq<Item>, baseUrl: string, properties: Properties,
                  json: Serializer, item: Item)
    returns (pattern: string, m: Method)
    requires RouteContribution(route, chunk, baseUrl, properties, json)
    requires item in chunk
    ensures route.patterns.Some? && pattern in route.patterns.value && m in route.methods
    ensures IsItemFor(item, pattern, m, baseUrl, properties.authorization, Extracted(NoDefaults, route.params), json)
  {
    var patterns := route.patterns.value;
    var d := Extracted(NoDefaults, route.params);
    var pairs := Expansion(patterns, route.methods);
    assert ItemsFor(chunk, pairs, baseUrl, properties.authorization, d, json);
    var k :| 0 <= k < |chunk| && chunk[k] == item;
    pattern, m := pairs[k].0, pairs[k].1;
  }

  /** Every item's URL starts with the base URL the items were built for;
      with a non-blank configured base URL that is the configured one,
      whatever the argument. */
  lemma {:induction false} EveryUrlStartsWithBaseUrl(handlerMethods: seq<Route>, chunks: seq<seq<Item>>,
                                                      baseUrl: string, properties: Properties,
                                                      json: Serializer, item: Item)
    requires Contributions(handlerMethods, chunks, baseUrl, properties, json)
    requires item in Flatten(chunks)
    ensures |item.request.url| >= |baseUrl| && item.request.url[..|baseUrl|] == baseUrl
  {
    FlattenMember(chunks, item);
    var r :| 0 <= r < |chunks| && item in chunks[r];
    var route := handlerMethods[r];
    ContributionAt(handlerMethods, chunks, baseUrl, properties, json, r);
    var pattern, m := ChunkItem(route, chunks[r], baseUrl, properties, json, item);
    UrlStartsWithBaseAndPath(item.request.url, baseUrl, pattern, Extracted(NoDefaults, route.params).query);
    ShorterPrefix(item.request.url, baseUrl, pattern);
  }

  lemma ShorterPrefix(s: string, a: string, b: string)
    requires |s| >= |a + b| && s[..|a + b|] == a + b
    ensures |s| >= |a| && s[..|a|] == a
  {
    assert s[..|a|] == s[..|a + b|][..|a|];
  }

  /** With authorization enabled every item carries exactly the configured
      header; with authorization disabled, none. */
  lemma {:induction false} EveryItemHeaders(handlerMethods: seq<Route>, chunks: seq<seq<Item>>,
                                             baseUrl: string, properties: Properties,
                                             json: Serializer, item: Item)
    requires Contributions(handlerMethods, chunks, baseUrl, properties, json)
    requires item in Flatten(chunks)
    ensures IsAuthHeaderList(item.request.header, properties.authorization)
  {
    FlattenMember(chunks, item);
    var r :| 0 <= r < |chunks| && item in chunks[r];
    ContributionAt(handlerMethods, chunks, baseUrl, properties, json, r);
    var pattern, m := ChunkItem(handlerMethods[r], chunks[r], baseUrl, properties, json, item);
  }

  /** A route with one pattern and one method whose serialisation succeeds
      contributes exactly one item, built for that pattern and method. */
  lemma SingleItemRoute(pattern: string, m: Method, params: seq<Param>, chunk: seq<Item>,
                        baseUrl: string, properties: Properties, json: Serializer)
    requires RouteContribution(Route(Some([pattern]), [m], params), chunk, baseUrl, properties, json)
    requires !SerializationFails(Extracted(NoDefaults, params), json)
    ensures |chunk| == 1
    ensures IsItemFor(chunk[0], pattern, m, baseUrl, properties.authorization, Extracted(NoDefaults, params), json)
  {
    ExpansionAt([pattern], [m], 0, 0);
  }

  /** A route with one pattern, one method and one `@RequestParam int`
      without `value` or `defaultValue` (for instance GET "/users/{id}" with
      `int id`) gives one item, "/users/{id}_GET", without a body, whose URL
      carries the int placeholder under the parameter's name: "?id=0". */
  lemma {:induction false} SingleIntQueryParamRoute(pattern: string, m: Method, p: Param, chunk: seq<Item>,
                                                     baseUrl: string, properties: Properties, json: Serializer)
    requires p.kind == RequestParam && p.annotationValue == "" && p.annotationDefault == DefaultNone
    requires p.paramType == PrimitiveType(Int)
    requires RouteContribution(Route(Some([pattern]), [m], [p]), chunk, baseUrl, properties, json)
    ensures |chunk| == 1
    ensures chunk[0].name == pattern + "_" + MethodName(m) && chunk[0].request.httpMethod == MethodName(m)
    ensures chunk[0].request.body.None?
    ensures chunk[0].request.url == baseUrl + pattern + "?" + p.name + "=0"
  {
    IntParamExtracted(p);
    SingleItemRoute(pattern, m, [p], chunk, baseUrl, properties, json);
    IntParamItem(chunk[0], pattern, m, p.name, baseUrl, properties.authorization, Extracted(NoDefaults, [p]), json);
  }

  /** The item built with no body and the query map {name: 0}. */
  lemma IntParamItem(item: Item, pattern: string, m: Method, name: string, baseUrl: string,
                     auth: Authorization, d: Defaults, json: Serializer)
    requires d == Defaults(map[], map[name := Some(IntZero)])
    requires IsItemFor(item, pattern, m, baseUrl, auth, d, json)
    ensures item.request.body.None?
    ensures item.request.url == baseUrl + pattern + "?" + name + "=0"
  {
    SingleParamUrl(item.request.url, baseUrl, pattern, name, Some(IntZero));
    assert ValueString(Some(IntZero)) == "0";
  }

  /** The maps such a parameter produces: no body, and the int placeholder
      under the parameter's own name, the annotation's `value` being empty. */
  lemma IntParamExtracted(p: Param)
    requires p.kind == RequestParam && p.annotationValue == "" && p.annotationDefault == DefaultNone
    requires p.paramType == PrimitiveType(Int)
    ensures Extracted(NoDefaults, [p]) == Defaults(map[], map[p.name := Some(IntZero)])
  {
    SentinelIsNoDefault(p);
    assert IsBlank(Trim(p.annotationValue));
    assert QueryEntry(p) == (p.name, IntZero);
    assert Extracted(NoDefaults, [p]) == ExtractStep(Extracted(NoDefaults, []), p);
  }

  /** A route with one pattern, one method and a `@RequestBody` whose type
      declares `String name` and `int age` (for instance POST "/users")
      gives, when the serialiser succeeds on the map {name: "", age: 0},
      one item, "/users_POST", carrying that JSON text and a URL without a
      query string. */
  lemma {:induction false} NameAgeBodyRoute(pattern: string, m: Method, p: Param, chunk: seq<Item>,
                                             baseUrl: string, properties: Properties, json: Serializer)
    requires p.kind == RequestBody
    requires p.bodyFields == [Field("name", StringType), Field("age", PrimitiveType(Int))]
    requires RouteContribution(Route(Some([pattern]), [m], [p]), chunk, baseUrl, properties, json)
    requires json(map["name" := Some(Str("")), "age" := Some(IntZero)]).Some?
    ensures |chunk| == 1
    ensures chunk[0].name == pattern + "_" + MethodName(m)
    ensures chunk[0].request.body.Some?
    ensures chunk[0].request.body.value.raw == json(map["name" := Some(Str("")), "age" := Some(IntZero)]).value
    ensures chunk[0].request.url == baseUrl + pattern
  {
    var body := map["name" := Some(Str("")), "age" := Some(IntZero)];
    NameAgeExtracted(p);
    var d := Extracted(NoDefaults, [p]);
    assert d.body == body && |d.query| == 0;
    assert !SerializationFails(d, json);
    SingleItemRoute(pattern, m, [p], chunk, baseUrl, properties, json);
  }

  /** The maps of a body parameter with fields `String name` and `int age`:
      the empty string and zero under the field names, and no query. */
  lemma NameAgeExtracted(p: Param)
    requires p.kind == RequestBody
    requires p.bodyFields == [Field("name", StringType), Field("age", PrimitiveType(Int))]
    ensures Extracted(NoDefaults, [p]) == Defaults(map["name" := Some(Str("")), "age" := Some(IntZero)], map[])
  {
    var fields := p.bodyFields;
    assert fields[..1] == [Field("name", StringType)];
    assert PutFields(map[], fields[..1]) == map["name" := Some(Str(""))];
    assert Extracted(NoDefaults, [p]) == ExtractStep(Extracted(NoDefaults, []), p);
  }
}
