/**
  The placeholder chosen for a declared type (`getDefaultValueForType`).
 */
module TypeDefaults {
  import opened Wrappers
  import opened CollectionModel
  import opened JavaStrings

  /** The numeric primitives: the ones whose placeholder is a zero. */
  predicate IsNumeric(p: Primitive) {
    p in {Int, Long, Short, Byte, Double, Float}
  }

  /** The zero values of the numeric primitives. */
  predicate IsZero(v: Value) {
    v in {IntZero, LongZero, ShortZero, ByteZero, DoubleZero, FloatZero}
  }

  /** The zero of a numeric primitive, of that very primitive's type. */
  function ZeroOf(p: Primitive): Value
    requires IsNumeric(p)
  {
    match p
    case Int => IntZero
    case Long => LongZero
    case Short => ShortZero
    case Byte => ByteZero
    case Double => DoubleZero
    case Float => FloatZero
  }

  /** `getDefaultValueForType`: a total classification of the declared type
      into a placeholder, or `None` (Java null) for void, every boxed
      wrapper and every class that is neither a String, a Collection nor a
      Map. The Collection test comes before the Map test. */
  function DefaultValue(t: TypeKind): (r: Option<Value>)
    ensures t.PrimitiveType? && IsNumeric(t.prim) ==> r == Some(ZeroOf(t.prim))
    ensures t == PrimitiveType(Boolean) ==> r == Some(BoolFalse)
    ensures t == PrimitiveType(Char) ==> r == Some(NulChar)
    ensures t == StringType ==> r == Some(Str(""))
    ensures t.ReferenceType? && t.isCollection ==> r == Some(EmptyList)
    ensures t.ReferenceType? && !t.isCollection && t.isMap ==> r == Some(EmptyMap)
    ensures r.None? <==>
      t == PrimitiveType(Void) || t.BoxedType? ||
      (t.ReferenceType? && !t.isCollection && !t.isMap)
  {
    match t
    case PrimitiveType(p) =>
      (match p
       case Int => Some(IntZero)
       case Double => Some(DoubleZero)
       case Float => Some(FloatZero)
       case Long => Some(LongZero)
       case Boolean => Some(BoolFalse)
       case Char => Some(NulChar)
       case Byte => Some(ByteZero)
       case Short => Some(ShortZero)
       case Void => None)
    case StringType => Some(Str(""))
    case BoxedType(_) => None
    case ReferenceType(isCollection, isMap) =>
      if isCollection then Some(EmptyList)
      else if isMap then Some(EmptyMap)
      else None
  }

  /** A placeholder is a zero, false, the null character, the empty string,
      or an empty list or map: never a value that carries information. */
  lemma DefaultValueIsEmpty(t: TypeKind)
    ensures DefaultValue(t).Some? ==>
      var v := DefaultValue(t).value;
      IsZero(v) || v in {BoolFalse, NulChar, Str(""), EmptyList, EmptyMap}
  {
  }

  /** The placeholders whose text form is blank are exactly the empty
      string's; a placeholder for any other type prints as something
      non-blank ("0", "0.0", "false", the null character, "[]", "{}"). */
  lemma {:induction false} DefaultValueBlankOnlyForString(t: TypeKind)
    ensures DefaultValue(t).Some? ==> (IsBlank(ValueString(DefaultValue(t))) <==> t == StringType)
  {
    if DefaultValue(t).Some? && t != StringType {
      var s := ValueString(DefaultValue(t));
      assert !IsWhitespace(s[0]);
    }
  }
}
