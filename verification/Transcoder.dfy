/** Type-directed conversion between rclpy-shaped values and canonical JSON values (adapter/messages.py). */
module Transcoder {
  import opened Wrappers
  import opened Values
  import Base64

  /** The basic types of rosidl; anything else passes through both directions unchanged. */
  datatype Basic =
    | Boolean | Octet | Float32 | Float64 | LongDouble
    | Int8 | Int16 | Int32 | Int64 | UInt8 | UInt16 | UInt32 | UInt64
    | Char | WChar
    | Short | Long | LongLong | UShort | ULong | ULongLong
    | OtherBasic(name: string)

  datatype Length = Exactly(n: nat) | AtMost(n: nat) | Unbounded

  datatype Field = Field(name: string, slot: Slot)

  /** A slot type. A message is a Struct; namespaced types are resolved to their struct. */
  datatype Slot =
    | Scalar(basic: Basic)
    | Text(bound: Option<nat>)
    | Struct(fields: seq<Field>)
    | Sequence(elem: Slot, length: Length)
    | Unsupported

  /** rosidl gives empty structs this member; it never crosses the boundary. */
  const EMPTY_STRUCT_MEMBER := "structure_needs_at_least_one_member"

  const JSON_SAFE_INT_MAX := 0x20_0000_0000_0000
  const FLOAT32_MAX: real := 340282346600000000000000000000000000000.0

  function IntRange(b: Basic): (r: Option<(int, int)>) {
    match b
    case Int8 => Some((-0x80, 0x7f))
    case Int16 => Some((-0x8000, 0x7fff))
    case Int32 => Some((-0x8000_0000, 0x7fff_ffff))
    case Int64 => Some((-0x8000_0000_0000_0000, 0x7fff_ffff_ffff_ffff))
    case UInt8 => Some((0, 0xff))
    case UInt16 => Some((0, 0xffff))
    case UInt32 => Some((0, 0xffff_ffff))
    case UInt64 => Some((0, 0xffff_ffff_ffff_ffff))
    case Octet => Some((0, 0xff))
    case Char => Some((0, 0xff))
    case WChar => Some((0, 0xffff))
    case Short => Some((-0x8000, 0x7fff))
    case Long => Some((-0x8000_0000, 0x7fff_ffff))
    case LongLong => Some((-0x8000_0000_0000_0000, 0x7fff_ffff_ffff_ffff))
    case UShort => Some((0, 0xffff))
    case ULong => Some((0, 0xffff_ffff))
    case ULongLong => Some((0, 0xffff_ffff_ffff_ffff))
    case _ => None
  }

  predicate IsFloat(b: Basic) {
    b == Float32 || b == Float64 || b == LongDouble
  }

  predicate Is64Bit(b: Basic) {
    b == Int64 || b == UInt64 || b == LongLong || b == ULongLong
  }

  /** Sequences of these travel as base64. */
  predicate IsByteSlot(s: Slot) {
    s.Scalar? && (s.basic == UInt8 || s.basic == Octet)
  }

  predicate LengthOk(n: nat, length: Length) {
    match length
    case Exactly(m) => n == m
    case AtMost(m) => n <= m
    case Unbounded => true
  }

  /** Position of a field name, |fields| if it is unknown. */
  function IndexOf(fields: seq<Field>, name: string): (i: nat)
    ensures i <= |fields|
    ensures i < |fields| ==> fields[i].name == name
    ensures forall j :: 0 <= j < i ==> fields[j].name != name
  {
    if fields == [] || fields[0].name == name then 0 else 1 + IndexOf(fields[1..], name)
  }

  /* ---- reading: rclpy-shaped value to canonical value; None is TranscodeError ---- */

  function Truthy(v: Value): (b: bool) {
    match v
    case Null => false
    case Bool(b) => b
    case Int(i) => i != 0
    case Flt(f) => f != Finite(0.0)
    case Str(s) => s != ""
    case Bytes(b) => b != []
    case List(items) => items != []
    case Tuple(items) => items != []
    case Dict(d) => d != map[]
  }

  function OctetToInt(v: Value): (r: Option<Value>) {
    if v.Bytes? && |v.bytes| == 1 then Some(Int(v.bytes[0] as int))
    else if v.Str? && |v.s| == 1 && v.s[0] as int <= 255 then Some(Int(v.s[0] as int))
    else if v.Int? then Some(v)
    else None
  }

  function ToFloat(v: Value): (r: Option<Value>) {
    match v
    case Flt(_) => Some(v)
    case Int(i) => Some(Flt(Finite(i as real)))
    case Bool(b) => Some(Flt(Finite(if b then 1.0 else 0.0)))
    case _ => None
  }

  function Truncate(r: real): (i: int) {
    if r >= 0.0 then r.Floor else -((-r).Floor)
  }

  function ToInt(v: Value): (r: Option<int>) {
    match v
    case Int(i) => Some(i)
    case Bool(b) => Some(if b then 1 else 0)
    case Flt(f) => if f.Finite? then Some(Truncate(f.r)) else None
    case Str(s) => if |s| == 1 then Some(s[0] as int) else None
    case _ => None
  }

  function ReadInt(v: Value, b: Basic, i64s: bool): (r: Option<Value>) {
    var i :- ToInt(v);
    if !v.Str? && i64s && Is64Bit(b) && (i > JSON_SAFE_INT_MAX || -i > JSON_SAFE_INT_MAX) then Some(Str(PrintInt(i)))
    else Some(Int(i))
  }

  function ReadBasic(v: Value, b: Basic, i64s: bool): (r: Option<Value>) {
    if b == Boolean then Some(Bool(Truthy(v)))
    else if b == Octet then OctetToInt(v)
    else if IsFloat(b) then ToFloat(v)
    else if IntRange(b).Some? then ReadInt(v, b, i64s)
    else Some(v)
  }

  /** One element of a byte container. */
  function ByteOf(v: Value): (b: Option<Byte>) {
    if v.Bytes? && |v.bytes| == 1 then Some(v.bytes[0])
    else if v.Str? && |v.s| == 1 && v.s[0] as int <= 255 then Some(v.s[0] as int as Byte)
    else if v.Int? && 0 <= v.i <= 255 then Some(v.i as Byte)
    else None
  }

  function BytesOf(items: seq<Value>): (b: Option<seq<Byte>>) {
    if items == [] then Some([])
    else
      var front :- BytesOf(items[..|items| - 1]);
      var last :- ByteOf(items[|items| - 1]);
      Some(front + [last])
  }

  function ContainerToBytes(v: Value): (b: Option<seq<Byte>>) {
    match v
    case Bytes(bytes) => Some(bytes)
    case Str(s) => BytesOf(seq(|s|, i requires 0 <= i < |s| => Str([s[i]])))
    case List(items) => BytesOf(items)
    case Tuple(items) => BytesOf(items)
    case _ => None
  }

  function Read(v: Value, t: Slot, i64s: bool): (r: Option<Value>)
    decreases t, 1, 0
  {
    match t
    case Scalar(b) => ReadBasic(v, b, i64s)
    case Text(_) => if v.Str? then Some(v) else None
    case Struct(fields) =>
      if !v.Dict? then None
      else
        var out :- ReadFields(v.dict, t, |fields|, i64s);
        Some(Dict(out))
    case Sequence(elem, _) =>
      if IsByteSlot(elem) then
        var bytes :- ContainerToBytes(v);
        Some(Str(Base64.Encode(bytes)))
      else if !v.List? && !v.Tuple? then None
      else
        var out :- ReadItems(v.items, elem, i64s);
        Some(List(out))
    case Unsupported => None
  }

  /** The first k fields of the struct t that are present. */
  function ReadFields(d: map<string, Value>, t: Slot, k: nat, i64s: bool): (r: Option<map<string, Value>>)
    requires t.Struct? && k <= |t.fields|
    decreases t, 0, k
  {
    if k == 0 then Some(map[])
    else
      var out :- ReadFields(d, t, k - 1, i64s);
      var f := t.fields[k - 1];
      if f.name == EMPTY_STRUCT_MEMBER || f.name !in d then Some(out)
      else
        var v :- Read(d[f.name], f.slot, i64s);
        Some(out[f.name := v])
  }

  function ReadItems(items: seq<Value>, elem: Slot, i64s: bool): (r: Option<seq<Value>>)
    decreases elem, 2, |items|
  {
    if items == [] then Some([])
    else
      var front :- ReadItems(items[..|items| - 1], elem, i64s);
      var last :- Read(items[|items| - 1], elem, i64s);
      Some(front + [last])
  }

  /* ---- writing: canonical value to the fields of a message; None is TranscodeError ---- */

  function WriteFloat(v: Value, b: Basic): (r: Option<Value>) {
    if !v.Int? && !v.Flt? then None
    else
      var f := if v.Int? then Finite(v.i as real) else v.f;
      if !f.Finite? then None
      else if b == Float32 && (f.r > FLOAT32_MAX || -f.r > FLOAT32_MAX) then None
      else Some(Flt(f))
  }

  function WriteInt(v: Value, b: Basic, i64s: bool): (r: Option<int>)
    requires IntRange(b).Some?
  {
    var i := match v
      case Str(s) => if i64s && Is64Bit(b) then ParseInt(s) else None
      case Flt(f) => if f.Finite? && f.r == f.r.Floor as real then Some(f.r.Floor) else None
      case Int(n) => Some(n)
      case _ => None;
    var (lo, hi) := IntRange(b).value;
    if i.None? || i.value < lo || i.value > hi then None else i
  }

  function WriteBasic(v: Value, b: Basic, i64s: bool): (r: Option<Value>) {
    if b == Boolean then if v.Bool? then Some(v) else None
    else if IsFloat(b) then WriteFloat(v, b)
    else if IntRange(b).Some? then
      var i :- WriteInt(v, b, i64s);
      Some(if b == Octet then Bytes([i as Byte]) else Int(i))
    else Some(v)
  }

  function WriteText(v: Value, bound: Option<nat>): (r: Option<Value>) {
    if !v.Str? || (bound.Some? && |v.s| > bound.value) then None else Some(v)
  }

  function WriteBytes(v: Value, elem: Slot, length: Length): (r: Option<Value>)
    requires IsByteSlot(elem)
  {
    if !v.Str? then None
    else
      var raw :- Base64.Decode(v.s);
      if !LengthOk(|raw|, length) then None
      else if elem.basic == Octet then Some(List(seq(|raw|, i requires 0 <= i < |raw| => Bytes([raw[i]]))))
      else Some(Bytes(raw))
  }

  function Write(v: Value, t: Slot, i64s: bool): (r: Option<Value>)
    decreases t, 1, 0
  {
    match t
    case Scalar(b) => WriteBasic(v, b, i64s)
    case Text(bound) => WriteText(v, bound)
    case Struct(fields) =>
      if v.Dict? && forall k :: k in v.dict ==> WriteMember(v.dict[k], k, t, i64s).Some? then
        Some(Dict(map k | k in v.dict && k != EMPTY_STRUCT_MEMBER :: WriteMember(v.dict[k], k, t, i64s).value))
      else None
    case Sequence(elem, length) =>
      if IsByteSlot(elem) then WriteBytes(v, elem, length)
      else if (!v.List? && !v.Tuple?) || !LengthOk(|v.items|, length) then None
      else
        var out :- WriteItems(v.items, elem, i64s);
        Some(List(out))
    case Unsupported => None
  }

  /** The member `name` of the struct t; an unknown name is an error, the synthetic member is skipped. */
  function WriteMember(v: Value, name: string, t: Slot, i64s: bool): (r: Option<Value>)
    requires t.Struct?
    decreases t, 0, 0
  {
    if name == EMPTY_STRUCT_MEMBER then Some(Null)
    else
      var i := IndexOf(t.fields, name);
      if i == |t.fields| then None else Write(v, t.fields[i].slot, i64s)
  }

  function WriteItems(items: seq<Value>, elem: Slot, i64s: bool): (r: Option<seq<Value>>)
    decreases elem, 2, |items|
  {
    if items == [] then Some([])
    else
      var front :- WriteItems(items[..|items| - 1], elem, i64s);
      var last :- Write(items[|items| - 1], elem, i64s);
      Some(front + [last])
  }
}
