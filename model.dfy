/**
  The values and records the synthesis works with: placeholder values,
  declared types, the route table as handed over by the web framework, the
  document records that are serialised (`PostmanRequest`, `Item`,
  `Request`, `Header`, `Body`, `Options`, `Raw`, `Info`), and the mutable
  string-keyed map that the extraction steps fill in place.
 */
module CollectionModel {
  import opened Wrappers

  /** A placeholder value. The floating-point zeros are symbolic tags:
      no floating-point arithmetic is involved. */
  datatype Value =
    | IntZero         // (Integer) 0
    | LongZero        // 0L
    | ShortZero       // (short) 0
    | ByteZero        // (byte) 0
    | DoubleZero      // 0.0
    | FloatZero       // 0.0f
    | BoolFalse       // false
    | NulChar         // '\u0000'
    | Str(s: string)  // a String
    | EmptyList       // Collections.emptyList()
    | EmptyMap        // Collections.emptyMap()

  /** `String.valueOf(Object)`: the text a value contributes when it is
      concatenated into a string; a null reference gives "null". */
  function ValueString(v: Option<Value>): (r: string)
    ensures v.Some? && v.value.Str? ==> r == v.value.s
    ensures !(v.Some? && v.value.Str?) ==> |r| > 0
  {
    match v
    case None => "null"
    case Some(IntZero) => "0"
    case Some(LongZero) => "0"
    case Some(ShortZero) => "0"
    case Some(ByteZero) => "0"
    case Some(DoubleZero) => "0.0"
    case Some(FloatZero) => "0.0"
    case Some(BoolFalse) => "false"
    case Some(NulChar) => "\U{0}"
    case Some(Str(s)) => s
    case Some(EmptyList) => "[]"
    case Some(EmptyMap) => "{}"
  }

  /** The eight Java primitive types and `void`. */
  datatype Primitive = Int | Long | Short | Byte | Double | Float | Boolean | Char | Void

  /** A declared Java type, as far as the choice of a placeholder depends on it. */
  datatype TypeKind =
    | PrimitiveType(prim: Primitive)  // int.class, ..., void.class
    | BoxedType(boxed: Primitive)     // Integer.class, ..., Character.class, Short, Byte, Void
    | StringType                      // String.class
      /** any other class; the flags say whether it is assignable to
          `java.util.Collection` and to `java.util.Map` */
    | ReferenceType(isCollection: bool, isMap: bool)

  /** Which of `@RequestBody` and `@RequestParam` a handler parameter carries. */
  datatype ParamKind = RequestBody | RequestParam | BothAnnotations | Unannotated

  /** A declared field of a request-body type (inherited ones included). */
  datatype Field = Field(name: string, fieldType: TypeKind)

  /** A handler parameter: its annotations, its reflected name, the
      `@RequestParam` attributes `value` and `defaultValue` (as the
      annotation reports them, "" and the framework's sentinel when not set),
      its declared type, and the declared fields of that type. */
  datatype Param = Param(
    kind: ParamKind,
    name: string,
    annotationValue: string,
    annotationDefault: string,
    paramType: TypeKind,
    bodyFields: seq<Field>)

  /** `org.springframework.web.bind.annotation.RequestMethod`. */
  datatype Method = GET | HEAD | POST | PUT | PATCH | DELETE | OPTIONS | TRACE

  /** `RequestMethod.name()`: the enum constant's name. */
  function MethodName(m: Method): (name: string)
    ensures |name| > 0
    ensures forall i :: 0 <= i < |name| ==> 'A' <= name[i] <= 'Z'
  {
    match m
    case GET => "GET"
    case HEAD => "HEAD"
    case POST => "POST"
    case PUT => "PUT"
    case PATCH => "PATCH"
    case DELETE => "DELETE"
    case OPTIONS => "OPTIONS"
    case TRACE => "TRACE"
  }

  /** Distinct methods have distinct names. */
  lemma MethodNameInjective(m1: Method, m2: Method)
    requires MethodName(m1) == MethodName(m2)
    ensures m1 == m2
  {
    assert MethodName(m1)[0] == MethodName(m2)[0];
    assert |MethodName(m1)| == |MethodName(m2)|;
  }

  /** One entry of the handler-method table: the parsed URL patterns (`None`
      when the mapping exposes no parsed path-pattern condition), the HTTP
      methods, and the handler's parameters, each in iteration order. */
  datatype Route = Route(patterns: Option<seq<string>>, methods: seq<Method>, params: seq<Param>)

  datatype Header = Header(key: string, value: string, typ: string)

  datatype Raw = Raw(language: string)

  datatype Options = Options(raw: Raw)

  datatype Body = Body(mode: string, raw: string, options: Options)

  datatype Request = Request(httpMethod: string, header: seq<Header>, body: Option<Body>, url: string)

  datatype Item = Item(name: string, request: Request)

  datatype Info = Info(name: string, schema: string)

  /** The whole collection document (`PostmanRequest`). */
  datatype Document = Document(info: Info, item: seq<Item>)

  /** A `HashMap<String, Object>` shared by reference and filled in place;
      a null value is `None`. */
  class ObjectMap {
    var entries: map<string, Option<Value>>

    constructor ()
      ensures entries == map[]
    {
      entries := map[];
    }

    /** `Map.put`: the key now maps to the value, every other key is untouched. */
    method Put(key: string, value: Option<Value>)
      modifies this
      ensures entries == old(entries)[key := value]
    {
      entries := entries[key := value];
    }
  }
}
