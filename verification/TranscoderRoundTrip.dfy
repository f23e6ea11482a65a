/** Reading a message and writing it back is the identity on exactly the values that writing can produce. */
module TranscoderRoundTrip {
  import opened Wrappers
  import opened Values
  import opened Transcoder
  import Base64

  /** A struct has one slot per field name, at every depth. */
  ghost predicate Distinct(t: Slot) {
    match t
    case Struct(fields) =>
      && (forall i, j :: 0 <= i < j < |fields| ==> fields[i].name != fields[j].name)
      && (forall i :: 0 <= i < |fields| ==> Distinct(fields[i].slot))
    case Sequence(elem, _) => Distinct(elem)
    case _ => true
  }

  ghost predicate FitsBasic(m: Value, b: Basic) {
    if b == Boolean then m.Bool?
    else if b == Octet then m.Bytes? && |m.bytes| == 1
    else if IsFloat(b) then
      m.Flt? && m.f.Finite? && (b == Float32 ==> -FLOAT32_MAX <= m.f.r <= FLOAT32_MAX)
    else if IntRange(b).Some? then m.Int? && IntRange(b).value.0 <= m.i <= IntRange(b).value.1
    else true
  }

  ghost predicate FitsBytes(m: Value, b: Basic, length: Length) {
    if b == Octet then
      m.List? && LengthOk(|m.items|, length)
      && forall i :: 0 <= i < |m.items| ==> m.items[i].Bytes? && |m.items[i].bytes| == 1
    else m.Bytes? && LengthOk(|m.bytes|, length)
  }

  /**
    m is a value that rclpy accepts for the slot: known fields only (possibly not all of them), finite
    floats, integers, texts and lengths within their declared bounds.
  */
  ghost predicate Fits(m: Value, t: Slot) {
    match t
    case Scalar(b) => FitsBasic(m, b)
    case Text(bound) => m.Str? && (bound.Some? ==> |m.s| <= bound.value)
    case Struct(fields) =>
      m.Dict?
      && forall k :: k in m.dict ==>
           var i := IndexOf(fields, k);
           k != EMPTY_STRUCT_MEMBER && i < |fields| && Fits(m.dict[k], fields[i].slot)
    case Sequence(elem, length) =>
      if IsByteSlot(elem) then FitsBytes(m, elem.basic, length)
      else m.List? && LengthOk(|m.items|, length) && forall i :: 0 <= i < |m.items| ==> Fits(m.items[i], elem)
    case Unsupported => false
  }

  /** c is what reading m gives, and writing c gives m back. */
  ghost predicate Returns(m: Value, t: Slot, i64s: bool) {
    Read(m, t, i64s).Some? && Write(Read(m, t, i64s).value, t, i64s) == Some(m)
  }

  /* ---- leaves ---- */

  /** Every basic slot but the ranged integers. */
  lemma PlainReturns(m: Value, b: Basic, i64s: bool)
    requires FitsBasic(m, b) && (b == Boolean || IsFloat(b) || IntRange(b).None?)
    ensures ReadBasic(m, b, i64s) == Some(m)
    ensures WriteBasic(m, b, i64s) == Some(m)
  {
  }

  lemma OctetReturns(m: Value, i64s: bool)
    requires FitsBasic(m, Octet)
    ensures Returns(m, Scalar(Octet), i64s)
  {
    var i := m.bytes[0] as int;
    assert ReadBasic(m, Octet, i64s) == Some(Int(i));
    assert WriteInt(Int(i), Octet, i64s) == Some(i);
    assert m.bytes == [i as Byte];
  }

  /** A 64-bit value beyond the safe range travels as decimal text, every other integer as itself. */
  lemma IntReturns(m: Value, b: Basic, i64s: bool)
    requires IntRange(b).Some? && b != Octet && FitsBasic(m, b)
    ensures Returns(m, Scalar(b), i64s)
  {
    var c := ReadInt(m, b, i64s).value;
    assert ReadBasic(m, b, i64s) == Some(c);
    if c.Str? {
      ParsePrintInt(m.i);
    }
    assert WriteInt(c, b, i64s) == Some(m.i);
  }

  lemma BasicReturns(m: Value, b: Basic, i64s: bool)
    requires FitsBasic(m, b)
    ensures Returns(m, Scalar(b), i64s)
  {
    if b == Octet {
      OctetReturns(m, i64s);
    } else if b != Boolean && !IsFloat(b) && IntRange(b).Some? {
      IntReturns(m, b, i64s);
    } else {
      PlainReturns(m, b, i64s);
    }
  }

  lemma {:induction false} SingleBytes(items: seq<Value>)
    requires forall i :: 0 <= i < |items| ==> items[i].Bytes? && |items[i].bytes| == 1
    ensures BytesOf(items).Some? && |BytesOf(items).value| == |items|
    ensures forall i :: 0 <= i < |items| ==> items[i] == Bytes([BytesOf(items).value[i]])
  {
    if items == [] {
    } else {
      SingleBytes(items[..|items| - 1]);
    }
  }

  lemma OctetsWrite(items: seq<Value>, length: Length, raw: seq<Byte>)
    requires LengthOk(|items|, length) && |raw| == |items|
    requires forall i :: 0 <= i < |items| ==> items[i] == Bytes([raw[i]])
    ensures WriteBytes(Str(Base64.Encode(raw)), Scalar(Octet), length) == Some(List(items))
  {
    Base64.DecodeEncode(raw);
    var out := seq(|raw|, i requires 0 <= i < |raw| => Bytes([raw[i]]));
    assert items == out;
  }

  lemma OctetsReturn(m: Value, length: Length, i64s: bool)
    requires FitsBytes(m, Octet, length)
    ensures Returns(m, Sequence(Scalar(Octet), length), i64s)
  {
    SingleBytes(m.items);
    var raw := BytesOf(m.items).value;
    OctetsWrite(m.items, length, raw);
    assert ContainerToBytes(m) == Some(raw);
  }

  lemma BytesReturn(m: Value, length: Length, i64s: bool)
    requires FitsBytes(m, UInt8, length)
    ensures Returns(m, Sequence(Scalar(UInt8), length), i64s)
  {
    Base64.DecodeEncode(m.bytes);
    var t := Sequence(Scalar(UInt8), length);
    assert Read(m, t, i64s) == Some(Str(Base64.Encode(m.bytes)));
    assert WriteBytes(Str(Base64.Encode(m.bytes)), Scalar(UInt8), length) == Some(m);
  }

  /* ---- structs and sequences ---- */

  lemma {:induction false} IndexOfField(fields: seq<Field>, i: nat)
    requires i < |fields| && forall j, k :: 0 <= j < k < |fields| ==> fields[j].name != fields[k].name
    ensures IndexOf(fields, fields[i].name) == i
  {
  }

  ghost predicate Reads(d: map<string, Value>, t: Slot, i: nat, i64s: bool)
    requires t.Struct? && i < |t.fields|
  {
    t.fields[i].name in d && t.fields[i].name != EMPTY_STRUCT_MEMBER ==>
      Read(d[t.fields[i].name], t.fields[i].slot, i64s).Some?
  }

  /** Reading keeps exactly the present fields, each read by its own slot. */
  lemma {:induction false} ReadFieldsAre(d: map<string, Value>, t: Slot, k: nat, i64s: bool, name: string)
    requires t.Struct? && Distinct(t) && k <= |t.fields|
    requires forall i :: 0 <= i < k ==> Reads(d, t, i, i64s)
    ensures ReadFields(d, t, k, i64s).Some?
    ensures var out := ReadFields(d, t, k, i64s).value;
            var i := IndexOf(t.fields, name);
            && (name in out <==> name != EMPTY_STRUCT_MEMBER && name in d && i < k)
            && (name in out ==> Read(d[name], t.fields[i].slot, i64s) == Some(out[name]))
  {
    if k == 0 {
    } else {
      ReadFieldsAre(d, t, k - 1, i64s, name);
      IndexOfField(t.fields, k - 1);
      assert Reads(d, t, k - 1, i64s);
    }
  }

  lemma {:induction false} ItemsReturn(items: seq<Value>, elem: Slot, i64s: bool)
    requires forall i :: 0 <= i < |items| ==> Returns(items[i], elem, i64s)
    ensures ReadItems(items, elem, i64s).Some?
    ensures |ReadItems(items, elem, i64s).value| == |items|
    ensures WriteItems(ReadItems(items, elem, i64s).value, elem, i64s) == Some(items)
  {
    if items == [] {
    } else {
      var n := |items| - 1;
      ItemsReturn(items[..n], elem, i64s);
      var out := ReadItems(items, elem, i64s).value;
      assert out[..n] == ReadItems(items[..n], elem, i64s).value;
      assert items == items[..n] + [items[n]];
    }
  }

  /** What is read of a struct all of whose members return: the same names, each read by its slot. */
  lemma StructReads(d: map<string, Value>, t: Slot, i64s: bool)
    requires t.Struct? && Distinct(t) && Fits(Dict(d), t)
    requires forall k :: k in d ==> Returns(d[k], t.fields[IndexOf(t.fields, k)].slot, i64s)
    ensures ReadFields(d, t, |t.fields|, i64s).Some?
    ensures ReadFields(d, t, |t.fields|, i64s).value.Keys == d.Keys
    ensures forall k :: k in d ==>
              Read(d[k], t.fields[IndexOf(t.fields, k)].slot, i64s)
              == Some(ReadFields(d, t, |t.fields|, i64s).value[k])
  {
    var fields := t.fields;
    forall i: nat | i < |fields| ensures Reads(d, t, i, i64s) {
      IndexOfField(fields, i);
      assert fields[i].name in d ==> Returns(d[fields[i].name], fields[i].slot, i64s);
    }
    ReadFieldsAre(d, t, |fields|, i64s, EMPTY_STRUCT_MEMBER);
    var out := ReadFields(d, t, |fields|, i64s).value;
    forall k ensures k in out <==> k in d
             ensures k in out ==> Read(d[k], fields[IndexOf(fields, k)].slot, i64s) == Some(out[k]) {
      ReadFieldsAre(d, t, |fields|, i64s, k);
    }
  }

  /** Writing a dictionary whose members write to those of d gives d. */
  lemma StructWrites(c: map<string, Value>, d: map<string, Value>, t: Slot, i64s: bool)
    requires t.Struct? && c.Keys == d.Keys && EMPTY_STRUCT_MEMBER !in d
    requires forall k :: k in c ==> WriteMember(c[k], k, t, i64s) == Some(d[k])
    ensures Write(Dict(c), t, i64s) == Some(Dict(d))
  {
    var back := Write(Dict(c), t, i64s);
    assert back.Some? && back.value.dict == d;
  }

  lemma StructReturns(m: Value, t: Slot, i64s: bool)
    requires t.Struct? && Distinct(t) && Fits(m, t)
    requires forall k :: k in m.dict ==> Returns(m.dict[k], t.fields[IndexOf(t.fields, k)].slot, i64s)
    ensures Returns(m, t, i64s)
  {
    var d := m.dict;
    StructReads(d, t, i64s);
    var out := ReadFields(d, t, |t.fields|, i64s).value;
    forall k | k in out ensures WriteMember(out[k], k, t, i64s) == Some(d[k]) {
      assert Returns(d[k], t.fields[IndexOf(t.fields, k)].slot, i64s);
    }
    StructWrites(out, d, t, i64s);
  }

  /** from_canonical(to_canonical(m)) == m for every type tree and every value that fits it. */
  lemma {:induction false} RoundTrip(m: Value, t: Slot, i64s: bool)
    requires Distinct(t) && Fits(m, t)
    ensures Returns(m, t, i64s)
    decreases t
  {
    match t
    case Scalar(b) => BasicReturns(m, b, i64s);
    case Text(_) =>
    case Struct(fields) =>
      forall k | k in m.dict ensures Returns(m.dict[k], fields[IndexOf(fields, k)].slot, i64s) {
        RoundTrip(m.dict[k], fields[IndexOf(fields, k)].slot, i64s);
      }
      StructReturns(m, t, i64s);
    case Sequence(elem, length) =>
      if elem == Scalar(Octet) {
        OctetsReturn(m, length, i64s);
      } else if elem == Scalar(UInt8) {
        BytesReturn(m, length, i64s);
      } else {
        forall i | 0 <= i < |m.items| ensures Returns(m.items[i], elem, i64s) {
          RoundTrip(m.items[i], elem, i64s);
        }
        ItemsReturn(m.items, elem, i64s);
      }
  }

  /* ---- what writing accepts ---- */

  lemma BasicFits(c: Value, b: Basic, i64s: bool)
    requires WriteBasic(c, b, i64s).Some?
    ensures FitsBasic(WriteBasic(c, b, i64s).value, b)
  {
  }

  lemma {:induction false} ItemsFit(items: seq<Value>, elem: Slot, i64s: bool)
    requires WriteItems(items, elem, i64s).Some?
    ensures |WriteItems(items, elem, i64s).value| == |items|
    ensures forall i :: 0 <= i < |items| ==>
              Write(items[i], elem, i64s) == Some(WriteItems(items, elem, i64s).value[i])
  {
    if items == [] {
    } else {
      ItemsFit(items[..|items| - 1], elem, i64s);
    }
  }

  /** Whatever from_canonical accepts has every leaf and every length within its declared bounds. */
  lemma {:induction false} AcceptedFits(c: Value, t: Slot, i64s: bool)
    requires Write(c, t, i64s).Some?
    ensures Fits(Write(c, t, i64s).value, t)
    decreases t
  {
    var m := Write(c, t, i64s).value;
    match t
    case Scalar(b) => BasicFits(c, b, i64s);
    case Text(_) =>
    case Struct(fields) =>
      forall k | k in m.dict
        ensures IndexOf(fields, k) < |fields| && Fits(m.dict[k], fields[IndexOf(fields, k)].slot)
      {
        assert WriteMember(c.dict[k], k, t, i64s).Some?;
        AcceptedFits(c.dict[k], fields[IndexOf(fields, k)].slot, i64s);
      }
    case Sequence(elem, length) =>
      if !IsByteSlot(elem) {
        ItemsFit(c.items, elem, i64s);
        forall i | 0 <= i < |c.items| ensures Fits(m.items[i], elem) {
          AcceptedFits(c.items[i], elem, i64s);
        }
      }
  }

  /**
    The values that fit a type are exactly those that from_canonical can produce, so canonical form loses
    nothing: reading an accepted value and writing it again changes nothing.
  */
  lemma FitsIffWritable(m: Value, t: Slot, i64s: bool)
    requires Distinct(t)
    ensures Fits(m, t) <==> exists c :: Write(c, t, i64s) == Some(m)
  {
    if Fits(m, t) {
      RoundTrip(m, t, i64s);
      assert Write(Read(m, t, i64s).value, t, i64s) == Some(m);
    }
    forall c | Write(c, t, i64s) == Some(m) ensures Fits(m, t) {
      AcceptedFits(c, t, i64s);
    }
  }
}
