/** Value and type marshalling between the C-compatible tagged representation
    (`wasmer_value_t`, `wasmer_value_tag`) and the engine's `Value` and `Type`.
    Payloads are copied verbatim; float payloads are opaque bit patterns. */
module Values {
  import opened Abi

  /** The engine's value types. */
  datatype Type = I32 | I64 | F32 | F64

  /** The engine's typed values. */
  datatype Value = I32(i: int32) | I64(l: int64) | F32(f: bv32) | F64(d: bv64)

  /** `wasmer_value_tag`. */
  datatype ValueTag = WasmI32 | WasmI64 | WasmF32 | WasmF64

  /** The C union `wasmer_value`, identified by the field last written. */
  datatype Payload = I32Field(i32: int32) | I64Field(i64: int64) | F32Field(f32: bv32) | F64Field(f64: bv64)

  /** `wasmer_value_t`: a tag and a union payload. */
  datatype WasmerValue = WasmerValue(tag: ValueTag, value: Payload)

  /** The tag names the union field that holds the payload; reading another
      field is a contract violation of the caller. */
  predicate Agrees(v: WasmerValue) {
    match v.tag
    case WasmI32 => v.value.I32Field?
    case WasmI64 => v.value.I64Field?
    case WasmF32 => v.value.F32Field?
    case WasmF64 => v.value.F64Field?
  }

  predicate AllAgree(vs: seq<WasmerValue>) {
    forall i :: 0 <= i < |vs| ==> Agrees(vs[i])
  }

  function TypeOf(v: Value): Type {
    match v
    case I32(_) => Type.I32
    case I64(_) => Type.I64
    case F32(_) => Type.F32
    case F64(_) => Type.F64
  }

  /** `From<Type> for wasmer_value_tag` (and the same mapping from `&Type`). */
  function TypeToTag(t: Type): (tag: ValueTag)
    ensures tag == WasmI32 <==> t == Type.I32
    ensures tag == WasmI64 <==> t == Type.I64
    ensures tag == WasmF32 <==> t == Type.F32
    ensures tag == WasmF64 <==> t == Type.F64
  {
    match t
    case I32 => WasmI32
    case I64 => WasmI64
    case F32 => WasmF32
    case F64 => WasmF64
  }

  /** `From<wasmer_value_tag> for Type`: the inverse of `TypeToTag`. */
  function TagToType(tag: ValueTag): (t: Type)
    ensures TypeToTag(t) == tag
  {
    match tag
    case WasmI32 => Type.I32
    case WasmI64 => Type.I64
    case WasmF32 => Type.F32
    case WasmF64 => Type.F64
  }

  /** Type to tag to type is the identity. */
  lemma TypeTagRoundTrip(t: Type)
    ensures TagToType(TypeToTag(t)) == t
  {
  }

  /** `From<wasmer_value_t> for Value`. */
  function ToValue(v: WasmerValue): (r: Value)
    requires Agrees(v)
    ensures TypeToTag(TypeOf(r)) == v.tag
    ensures v.value.I32Field? ==> r == Value.I32(v.value.i32)
    ensures v.value.I64Field? ==> r == Value.I64(v.value.i64)
    ensures v.value.F32Field? ==> r == Value.F32(v.value.f32)
    ensures v.value.F64Field? ==> r == Value.F64(v.value.f64)
  {
    match v.value
    case I32Field(x) => Value.I32(x)
    case I64Field(x) => Value.I64(x)
    case F32Field(x) => Value.F32(x)
    case F64Field(x) => Value.F64(x)
  }

  /** `From<Value> for wasmer_value_t`, also written out inline on the call
      paths: the tag is the value's type and the payload is copied verbatim. */
  function FromValue(x: Value): (r: WasmerValue)
    ensures Agrees(r) && r.tag == TypeToTag(TypeOf(x))
    ensures ToValue(r) == x
    ensures x.I32? ==> r.value == I32Field(x.i)
    ensures x.I64? ==> r.value == I64Field(x.l)
    ensures x.F32? ==> r.value == F32Field(x.f)
    ensures x.F64? ==> r.value == F64Field(x.d)
  {
    match x
    case I32(p) => WasmerValue(WasmI32, I32Field(p))
    case I64(p) => WasmerValue(WasmI64, I64Field(p))
    case F32(p) => WasmerValue(WasmF32, F32Field(p))
    case F64(p) => WasmerValue(WasmF64, F64Field(p))
  }

  /** Marshalling a boundary value in and back out yields the same tag and
      the same payload, for all four kinds. */
  lemma MarshalRoundTrip(v: WasmerValue)
    requires Agrees(v)
    ensures FromValue(ToValue(v)) == v
  {
  }

  /** Element-wise `into()` over a parameter array. */
  function ToValues(vs: seq<WasmerValue>): (r: seq<Value>)
    requires AllAgree(vs)
    ensures |r| == |vs|
    ensures forall i :: 0 <= i < |vs| ==> FromValue(r[i]) == vs[i]
  {
    seq(|vs|, i requires 0 <= i < |vs| => ToValue(vs[i]))
  }

  /** Element-wise `into()` over a tag array. */
  function TagsToTypes(tags: seq<ValueTag>): (r: seq<Type>)
    ensures |r| == |tags|
    ensures forall i :: 0 <= i < |tags| ==> TypeToTag(r[i]) == tags[i]
  {
    seq(|tags|, i requires 0 <= i < |tags| => TagToType(tags[i]))
  }

  /** Element-wise `into()` from a signature's types to tags. */
  function TypesToTags(ts: seq<Type>): (r: seq<ValueTag>)
    ensures |r| == |ts|
    ensures forall i :: 0 <= i < |ts| ==> TagToType(r[i]) == ts[i]
  {
    seq(|ts|, i requires 0 <= i < |ts| => TypeToTag(ts[i]))
  }

  /** Tags converted to a signature and read back are the same tags. */
  lemma TagsRoundTrip(tags: seq<ValueTag>)
    ensures TypesToTags(TagsToTypes(tags)) == tags
  {
  }
}
