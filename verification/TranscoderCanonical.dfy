/** What canonical form looks like: which values travel as text, and that JSON carries the result exactly. */
module TranscoderCanonical {
  import opened Wrappers
  import opened Values
  import opened Transcoder
  import opened TranscoderRoundTrip
  import Base64

  /* ---- the integer types by their width ---- */

  /** How many values n bytes have. */
  function Values256(n: nat): (p: nat) {
    if n == 0 then 1 else 256 * Values256(n - 1)
  }

  /** Bytes of the integer types, and whether they are signed; None for all others. */
  function Width(b: Basic): (w: Option<(bool, nat)>) {
    match b
    case Int8 => Some((true, 1))
    case Int16 => Some((true, 2))
    case Int32 => Some((true, 4))
    case Int64 => Some((true, 8))
    case UInt8 => Some((false, 1))
    case UInt16 => Some((false, 2))
    case UInt32 => Some((false, 4))
    case UInt64 => Some((false, 8))
    case Octet => Some((false, 1))
    case Char => Some((false, 1))
    case WChar => Some((false, 2))
    case Short => Some((true, 2))
    case Long => Some((true, 4))
    case LongLong => Some((true, 8))
    case UShort => Some((false, 2))
    case ULong => Some((false, 4))
    case ULongLong => Some((false, 8))
    case _ => None
  }

  lemma Sizes()
    ensures Values256(1) == 0x100 && Values256(2) == 0x1_0000 && Values256(4) == 0x1_0000_0000
    ensures Values256(8) == 0x1_0000_0000_0000_0000
  {
    assert Values256(3) == 0x100_0000;
    assert Values256(6) == 0x1_0000_0000_0000;
  }

  /** The declared bounds are those of two's complement, or of plain binary, of the type's width. */
  lemma RangeIsWidth(b: Basic)
    ensures IntRange(b).Some? <==> Width(b).Some?
    ensures Width(b).Some? ==>
              var (signed, n) := Width(b).value;
              var all: int := Values256(n);
              IntRange(b) == Some(if signed then (-(all / 2), all / 2 - 1) else (0, all - 1))
  {
    Sizes();
  }

  /* ---- leaves ---- */

  /**
    Reading an integer that fits: a 64-bit one travels as its decimal text exactly if that is asked for and a
    double cannot hold every integer of its size; any other one as itself.
  */
  lemma IntReads(m: Value, b: Basic, i64s: bool)
    requires IntRange(b).Some? && b != Octet && FitsBasic(m, b)
    ensures Read(m, Scalar(b), i64s)
            == Some(if i64s && b in {Int64, UInt64, LongLong, ULongLong}
                       && (m.i > 9007199254740992 || m.i < -9007199254740992) then Str(PrintInt(m.i)) else m)
  {
  }

  /** Reading any other leaf: a byte as its number, a byte array as text that decodes to it, the rest as it is. */
  lemma OtherReads(m: Value, t: Slot, i64s: bool)
    requires Fits(m, t)
    ensures t == Scalar(Octet) ==> Read(m, t, i64s) == Some(Int(m.bytes[0] as int))
    ensures t.Text? ==> Read(m, t, i64s) == Some(m)
    ensures t.Scalar? && IntRange(t.basic).None? ==> Read(m, t, i64s) == Some(m)
    ensures t.Sequence? && t.elem == Scalar(UInt8) ==>
              Read(m, t, i64s).Some? && Read(m, t, i64s).value.Str?
              && Base64.Decode(Read(m, t, i64s).value.s) == Some(m.bytes)
    ensures t.Sequence? && t.elem == Scalar(Octet) ==>
              Read(m, t, i64s).Some? && Read(m, t, i64s).value.Str?
              && var raw := Base64.Decode(Read(m, t, i64s).value.s);
                 raw.Some? && |raw.value| == |m.items|
                 && forall i :: 0 <= i < |m.items| ==> m.items[i] == Bytes([raw.value[i]])
  {
    if t.Scalar? && IntRange(t.basic).None? {
      PlainReturns(m, t.basic, i64s);
    } else if t.Sequence? && t.elem == Scalar(UInt8) {
      Base64.DecodeEncode(m.bytes);
    } else if t.Sequence? && t.elem == Scalar(Octet) {
      SingleBytes(m.items);
      Base64.DecodeEncode(BytesOf(m.items).value);
    }
  }

  /* ---- whole messages ---- */

  /** No type at any depth whose values pass through unchecked. */
  ghost predicate Plain(t: Slot) {
    match t
    case Scalar(b) => !b.OtherBasic?
    case Struct(fields) => forall i :: 0 <= i < |fields| ==> Plain(fields[i].slot)
    case Sequence(elem, _) => Plain(elem)
    case _ => true
  }

  /** A JSON reader that keeps numbers as doubles reads the value as it is: no bytes, tuples or larger integers. */
  ghost predicate JsonExact(v: Value) {
    match v
    case Int(i) => -9007199254740992 <= i <= 9007199254740992
    case Bytes(_) => false
    case Tuple(_) => false
    case List(items) => forall i :: 0 <= i < |items| ==> JsonExact(items[i])
    case Dict(d) => forall k :: k in d ==> JsonExact(d[k])
    case _ => true
  }

  lemma ScalarIsExact(m: Value, b: Basic)
    requires FitsBasic(m, b) && !b.OtherBasic?
    ensures Read(m, Scalar(b), true).Some? && JsonExact(Read(m, Scalar(b), true).value)
  {
    if IntRange(b).Some? && b != Octet {
      IntReads(m, b, true);
    } else {
      OtherReads(m, Scalar(b), true);
    }
  }

  lemma {:induction false} ItemsRead(items: seq<Value>, elem: Slot, i64s: bool)
    requires ReadItems(items, elem, i64s).Some?
    ensures |ReadItems(items, elem, i64s).value| == |items|
    ensures forall i :: 0 <= i < |items| ==>
              Read(items[i], elem, i64s) == Some(ReadItems(items, elem, i64s).value[i])
  {
    if items == [] {
    } else {
      ItemsRead(items[..|items| - 1], elem, i64s);
    }
  }

  /** With 64-bit integers as text, whatever fits a type has a canonical form that JSON carries exactly. */
  lemma {:induction false} CanonicalIsExact(m: Value, t: Slot)
    requires Distinct(t) && Fits(m, t) && Plain(t)
    ensures Read(m, t, true).Some? && JsonExact(Read(m, t, true).value)
    decreases t
  {
    RoundTrip(m, t, true);
    match t
    case Scalar(b) => ScalarIsExact(m, b);
    case Text(_) =>
    case Struct(fields) => StructIsExact(m.dict, t);
    case Sequence(elem, length) =>
      if IsByteSlot(elem) {
        OtherReads(m, t, true);
      } else {
        var out := ReadItems(m.items, elem, true).value;
        ItemsRead(m.items, elem, true);
        forall i | 0 <= i < |out| ensures JsonExact(out[i]) {
          CanonicalIsExact(m.items[i], elem);
        }
      }
  }

  lemma {:induction false} StructIsExact(d: map<string, Value>, t: Slot)
    requires t.Struct? && Distinct(t) && Fits(Dict(d), t) && Plain(t)
    ensures ReadFields(d, t, |t.fields|, true).Some? && JsonExact(Dict(ReadFields(d, t, |t.fields|, true).value))
    decreases t, 0
  {
    forall k | k in d ensures Returns(d[k], t.fields[IndexOf(t.fields, k)].slot, true) {
      RoundTrip(d[k], t.fields[IndexOf(t.fields, k)].slot, true);
    }
    StructReads(d, t, true);
    forall k | k in d ensures JsonExact(ReadFields(d, t, |t.fields|, true).value[k]) {
      CanonicalIsExact(d[k], t.fields[IndexOf(t.fields, k)].slot);
    }
  }
}
