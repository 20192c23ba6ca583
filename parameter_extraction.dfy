/**
  Placeholder extraction for one handler (`extractParameterDefaults`,
  `extractRequestBodyDefaults`, `extractRequestParamDefaults`): the body
  map gets one entry per declared field of every `@RequestBody` parameter,
  the query map one entry per `@RequestParam` parameter. Both maps are
  filled in place; the functions below say what they hold afterwards.
 */
module ParameterExtraction {
  import opened Wrappers
  import opened JavaStrings
  import opened CollectionModel
  import opened TypeDefaults

  /** Spring's `ValueConstants.DEFAULT_NONE`, the `defaultValue` a
      `@RequestParam` reports when none was written. It holds no regex
      metacharacter, so `replaceAll` removes it literally. */
  const DefaultNone: string := "\n\t\t\n\t\t\n\U{E000}\U{E001}\U{E002}\n\t\t\t\t\n"

  /** The contents of a `HashMap<String, Object>`. */
  type Entries = map<string, Option<Value>>

  /** The body-defaults and query-defaults maps of one handler. */
  datatype Defaults = Defaults(body: Entries, query: Entries)

  const NoDefaults: Defaults := Defaults(map[], map[])

  /** `@RequestBody` is looked for first, so a parameter carrying both
      annotations counts as a body parameter. */
  predicate IsBodyParam(p: Param) {
    p.kind == RequestBody || p.kind == BothAnnotations
  }

  predicate IsQueryParam(p: Param) {
    p.kind == RequestParam
  }

  /** The names of a list of fields. */
  function FieldNames(fields: seq<Field>): set<string> {
    set f | f in fields :: f.name
  }

  /** The body map after putting, in order, every field's name with the
      placeholder of its type: each field name becomes a key, and nothing
      else changes. */
  function PutFields(m: Entries, fields: seq<Field>): (r: Entries)
    ensures r.Keys == m.Keys + FieldNames(fields)
    ensures forall k :: k in m && k !in FieldNames(fields) ==> r[k] == m[k]
  {
    if |fields| == 0 then m
    else
      var init, last := fields[..|fields| - 1], fields[|fields| - 1];
      assert fields == init + [last];
      assert FieldNames(fields) == FieldNames(init) + {last.name};
      PutFields(m, init)[last.name := DefaultValue(last.fieldType)]
  }

  /** When a field name repeats, the last field of that name decides. */
  lemma {:induction false} PutFieldsLastWriteWins(m: Entries, fields: seq<Field>, i: nat)
    requires i < |fields|
    requires forall j :: i < j < |fields| ==> fields[j].name != fields[i].name
    ensures PutFields(m, fields)[fields[i].name] == DefaultValue(fields[i].fieldType)
  {
    if i < |fields| - 1 {
      var init := fields[..|fields| - 1];
      PutFieldsLastWriteWins(m, init, i);
    }
  }

  /** The `@RequestParam` default literal counts when something non-blank
      is left of it after removing the sentinel and trimming. */
  predicate HasExplicitDefault(p: Param) {
    !IsBlank(Trim(RemoveAll(p.annotationDefault, DefaultNone)))
  }

  /** An explicit default literal is itself non-blank: removing the
      sentinel and trimming only drop characters. */
  lemma ExplicitDefaultIsNonBlank(p: Param)
    ensures HasExplicitDefault(p) ==> !IsBlank(p.annotationDefault)
  {
    if IsBlank(p.annotationDefault) {
      RemoveAllTrimKeepsBlank(p.annotationDefault, DefaultNone);
    }
  }

  /** The name under which a `@RequestParam` is stored: the annotation's
      `value`, untrimmed, unless it is blank after trimming; then the
      parameter's own name. */
  function QueryName(p: Param): string {
    if !IsBlank(Trim(p.annotationValue)) then p.annotationValue else p.name
  }

  /** The entry `extractRequestParamDefaults` stores for a `@RequestParam`.
      The value is the default literal when there is an explicit one,
      otherwise the placeholder of the declared type; a null or blank
      placeholder (String, boxed wrappers, void, other classes) gives way
      to "{name}". The stored value is therefore never null and never
      blank. */
  function QueryEntry(p: Param): (e: (string, Value))
    ensures e.0 == QueryName(p)
    ensures !IsBlank(ValueString(Some(e.1)))
    ensures HasExplicitDefault(p) ==> e.1 == Str(p.annotationDefault)
    ensures !HasExplicitDefault(p) && DefaultValue(p.paramType).Some? && p.paramType != StringType ==>
      e.1 == DefaultValue(p.paramType).value
    ensures !HasExplicitDefault(p) && (DefaultValue(p.paramType).None? || p.paramType == StringType) ==>
      e.1 == Str("{" + e.0 + "}")
  {
    var data := if HasExplicitDefault(p) then Some(Str(p.annotationDefault)) else DefaultValue(p.paramType);
    var name := QueryName(p);
    ExplicitDefaultIsNonBlank(p);
    DefaultValueBlankOnlyForString(p.paramType);
    PlaceholderNonBlank(name);
    var value := if data.None? || IsBlank(ValueString(data)) then Str("{" + name + "}") else data.value;
    (name, value)
  }

  /** The "{name}" placeholder is never blank. */
  lemma PlaceholderNonBlank(name: string)
    ensures !IsBlank(ValueString(Some(Str("{" + name + "}"))))
  {
    assert ("{" + name + "}")[0] == '{';
  }

  /** Without an explicit `defaultValue`, the annotation reports the
      sentinel, and the type's placeholder is used. */
  lemma SentinelIsNoDefault(p: Param)
    requires p.annotationDefault == DefaultNone
    ensures !HasExplicitDefault(p)
  {
    RemoveAllSelf(DefaultNone);
  }

  /** The effect of one parameter on the two maps. */
  function ExtractStep(d: Defaults, p: Param): Defaults {
    if IsBodyParam(p) then d.(body := PutFields(d.body, p.bodyFields))
    else if IsQueryParam(p) then d.(query := d.query[QueryEntry(p).0 := Some(QueryEntry(p).1)])
    else d
  }

  /** The two maps after processing the parameters in order. */
  function Extracted(d: Defaults, params: seq<Param>): Defaults {
    if |params| == 0 then d
    else ExtractStep(Extracted(d, params[..|params| - 1]), params[|params| - 1])
  }

  /** The keys the body map gains: the field names of the body parameters. */
  function BodyKeys(params: seq<Param>): set<string> {
    set p, f | p in params && IsBodyParam(p) && f in p.bodyFields :: f.name
  }

  /** The keys the query map gains: the effective names of the query parameters. */
  function QueryKeys(params: seq<Param>): set<string> {
    set p | p in params && IsQueryParam(p) :: QueryName(p)
  }

  lemma BodyKeysSnoc(init: seq<Param>, last: Param)
    ensures BodyKeys(init + [last]) ==
      BodyKeys(init) + (if IsBodyParam(last) then FieldNames(last.bodyFields) else {})
  {
    var params := init + [last];
    forall k | k in BodyKeys(params)
      ensures k in BodyKeys(init) + (if IsBodyParam(last) then FieldNames(last.bodyFields) else {})
    {
      var p, f :| p in params && IsBodyParam(p) && f in p.bodyFields && f.name == k;
      if p != last {
        assert p in init;
      }
    }
    forall k | k in BodyKeys(init)
      ensures k in BodyKeys(params)
    {
      var p, f :| p in init && IsBodyParam(p) && f in p.bodyFields && f.name == k;
      assert p in params;
    }
    if IsBodyParam(last) {
      forall k | k in FieldNames(last.bodyFields)
        ensures k in BodyKeys(params)
      {
        var f :| f in last.bodyFields && f.name == k;
        assert last in params;
      }
    }
  }

  lemma QueryKeysSnoc(init: seq<Param>, last: Param)
    ensures QueryKeys(init + [last]) ==
      QueryKeys(init) + (if IsQueryParam(last) then {QueryName(last)} else {})
  {
    var params := init + [last];
    forall k | k in QueryKeys(params)
      ensures k in QueryKeys(init) + (if IsQueryParam(last) then {QueryName(last)} else {})
    {
      var p :| p in params && IsQueryParam(p) && QueryName(p) == k;
      if p != last {
        assert p in init;
      }
    }
    forall k | k in QueryKeys(init)
      ensures k in QueryKeys(params)
    {
      var p :| p in init && IsQueryParam(p) && QueryName(p) == k;
      assert p in params;
    }
    assert last in params;
  }

  /** One step adds the parameter's body keys to the body map. */
  lemma StepBodyKeys(prev: Defaults, p: Param)
    ensures ExtractStep(prev, p).body.Keys ==
      prev.body.Keys + (if IsBodyParam(p) then FieldNames(p.bodyFields) else {})
  {
  }

  /** One step adds the parameter's effective name to the query map when it
      is a query parameter. */
  lemma StepQueryKeys(prev: Defaults, p: Param)
    ensures ExtractStep(prev, p).query.Keys ==
      prev.query.Keys + (if IsQueryParam(p) then {QueryName(p)} else {})
  {
  }

  /** Extraction adds exactly the body parameters' field names to the body
      map. */
  lemma {:induction false} ExtractedBodyKeys(d: Defaults, params: seq<Param>)
    ensures Extracted(d, params).body.Keys == d.body.Keys + BodyKeys(params)
  {
    if |params| > 0 {
      var init, last := params[..|params| - 1], params[|params| - 1];
      assert params == init + [last];
      ExtractedBodyKeys(d, init);
      BodyKeysSnoc(init, last);
      StepBodyKeys(Extracted(d, init), last);
    }
  }

  /** Extraction adds exactly the query parameters' effective names to the
      query map. */
  lemma {:induction false} ExtractedQueryKeys(d: Defaults, params: seq<Param>)
    ensures Extracted(d, params).query.Keys == d.query.Keys + QueryKeys(params)
  {
    if |params| > 0 {
      var init, last := params[..|params| - 1], params[|params| - 1];
      assert params == init + [last];
      ExtractedQueryKeys(d, init);
      QueryKeysSnoc(init, last);
      StepQueryKeys(Extracted(d, init), last);
    }
  }

  /** Every value in the map is present and prints as non-blank text. */
  predicate AllPresentAndNonBlank(m: Entries) {
    forall k :: k in m ==> m[k].Some? && !IsBlank(ValueString(m[k]))
  }

  /** The query map never holds a null or blank value. */
  lemma {:induction false} ExtractedQueryNeverBlank(d: Defaults, params: seq<Param>)
    requires AllPresentAndNonBlank(d.query)
    ensures AllPresentAndNonBlank(Extracted(d, params).query)
  {
    if |params| > 0 {
      ExtractedQueryNeverBlank(d, params[..|params| - 1]);
    }
  }

  /** A query parameter whose effective name no later query parameter
      repeats decides that key's value. */
  lemma {:induction false} QueryLastWriteWins(d: Defaults, params: seq<Param>, i: nat)
    requires i < |params| && IsQueryParam(params[i])
    requires forall j :: i < j < |params| && IsQueryParam(params[j]) ==> QueryName(params[j]) != QueryName(params[i])
    ensures QueryName(params[i]) in Extracted(d, params).query
    ensures Extracted(d, params).query[QueryName(params[i])] == Some(QueryEntry(params[i]).1)
  {
    var init, last := params[..|params| - 1], params[|params| - 1];
    var before := Extracted(d, init);
    assert Extracted(d, params) == ExtractStep(before, last);
    if i < |params| - 1 {
      assert forall j :: i < j < |init| ==> init[j] == params[j];
      QueryLastWriteWins(d, init, i);
      assert before.query[QueryName(params[i])] == Some(QueryEntry(params[i]).1);
      if IsQueryParam(last) {
        assert QueryEntry(last).0 != QueryName(params[i]);
      }
    }
  }

  /** The parameters with neither annotation removed. */
  function Annotated(params: seq<Param>): (r: seq<Param>)
    ensures forall p :: p in r <==> p in params && p.kind != Unannotated
  {
    if |params| == 0 then []
    else
      var init, last := params[..|params| - 1], params[|params| - 1];
      assert params == init + [last];
      if last.kind == Unannotated then Annotated(init) else Annotated(init) + [last]
  }

  /** A parameter with neither annotation changes neither map. */
  lemma {:induction false} UnannotatedIgnored(d: Defaults, params: seq<Param>)
    ensures Extracted(d, params) == Extracted(d, Annotated(params))
  {
    if |params| > 0 {
      var init, last := params[..|params| - 1], params[|params| - 1];
      UnannotatedIgnored(d, init);
      if last.kind != Unannotated {
        var r := Annotated(init) + [last];
        assert r[..|r| - 1] == Annotated(init);
      }
    }
  }

  /** Appending a parameter with neither annotation leaves both maps as
      they were. */
  lemma UnannotatedStep(d: Defaults, params: seq<Param>, p: Param)
    requires p.kind == Unannotated
    ensures Extracted(d, params + [p]) == Extracted(d, params)
  {
    assert (params + [p])[..|params|] == params;
  }

  /** A parameter that carries both annotations acts exactly as if it
      carried `@RequestBody` alone: it never reaches the query map. */
  lemma BothActsAsBody(d: Defaults, p: Param)
    requires p.kind == BothAnnotations
    ensures ExtractStep(d, p) == ExtractStep(d, p.(kind := RequestBody))
    ensures ExtractStep(d, p).query == d.query
  {
  }

  /** `extractRequestBodyDefaults`: puts each declared field of the body
      type into the map, in declaration order. */
  method ExtractRequestBodyDefaults(p: Param, requestBodyDefaults: ObjectMap)
    modifies requestBodyDefaults
    ensures requestBodyDefaults.entries == PutFields(old(requestBodyDefaults.entries), p.bodyFields)
  {
    var fieldList := p.bodyFields;
    for i := 0 to |fieldList|
      invariant requestBodyDefaults.entries == PutFields(old(requestBodyDefaults.entries), fieldList[..i])
    {
      var field := fieldList[i];
      assert fieldList[..i + 1][..i] == fieldList[..i];
      requestBodyDefaults.Put(field.name, DefaultValue(field.fieldType));
    }
    assert fieldList[..|fieldList|] == fieldList;
  }

  /** `extractRequestParamDefaults`: stores one entry for the parameter. */
  method ExtractRequestParamDefaults(p: Param, requestParamDefaults: ObjectMap)
    modifies requestParamDefaults
    ensures requestParamDefaults.entries ==
      old(requestParamDefaults.entries)[QueryEntry(p).0 := Some(QueryEntry(p).1)]
  {
    var data: Option<Value>;
    if !IsBlank(Trim(RemoveAll(p.annotationDefault, DefaultNone))) {
      data := Some(Str(p.annotationDefault));
    } else {
      data := DefaultValue(p.paramType);
    }
    var paramName := if !IsBlank(Trim(p.annotationValue)) then p.annotationValue else p.name;
    if data.None? || IsBlank(ValueString(data)) {
      data := Some(Str("{" + paramName + "}"));
    }
    assert paramName == QueryName(p);
    assert data == Some(QueryEntry(p).1);
    requestParamDefaults.Put(paramName, data);
  }

  /** `extractParameterDefaults`: walks the handler's parameters in order
      and fills the two maps. */
  method ExtractParameterDefaults(params: seq<Param>, requestBodyDefaults: ObjectMap, requestParamDefaults: ObjectMap)
    requires requestBodyDefaults != requestParamDefaults
    modifies requestBodyDefaults, requestParamDefaults
    ensures Defaults(requestBodyDefaults.entries, requestParamDefaults.entries) ==
      Extracted(Defaults(old(requestBodyDefaults.entries), old(requestParamDefaults.entries)), params)
  {
    ghost var start := Defaults(requestBodyDefaults.entries, requestParamDefaults.entries);
    if |params| == 0 {
      return;
    }
    for i := 0 to |params|
      invariant Defaults(requestBodyDefaults.entries, requestParamDefaults.entries) == Extracted(start, params[..i])
    {
      var parameter := params[i];
      assert params[..i + 1][..i] == params[..i];
      if IsBodyParam(parameter) {
        ExtractRequestBodyDefaults(parameter, requestBodyDefaults);
      } else if IsQueryParam(parameter) {
        ExtractRequestParamDefaults(parameter, requestParamDefaults);
      }
    }
    assert params[..|params|] == params;
  }
}
