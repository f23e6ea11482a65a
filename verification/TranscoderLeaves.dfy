/** What reading answers for every value of a leaf, and exactly what writing accepts, in terms of the values. */
module TranscoderLeaves {
  import opened Wrappers
  import opened Values
  import opened Transcoder
  import opened TranscoderRoundTrip
  import Base64

  /* ---- reading ---- */

  /** A boolean slot takes anything: false exactly for what is empty, zero, false or missing. */
  lemma BooleanReads(v: Value, i64s: bool)
    ensures Read(v, Scalar(Boolean), i64s)
            == Some(Bool(v !in {Null, Bool(false), Int(0), Flt(Finite(0.0)), Str(""), Bytes([]), List([]), Tuple([]),
                                Dict(map[])}))
  {
  }

  /** The integer that int(), or ord() of a single character, makes of a value: a float is cut towards zero. */
  predicate Denotes(v: Value, n: int) {
    match v
    case Int(i) => n == i
    case Bool(b) => (b && n == 1) || (!b && n == 0)
    case Flt(f) =>
      f.Finite? && if f.r >= 0.0 then n as real <= f.r < n as real + 1.0 else n as real - 1.0 < f.r <= n as real
    case Str(s) => |s| == 1 && n == s[0] as int
    case _ => false
  }

  lemma CutIs(r: real, n: int)
    ensures r >= 0.0 ==> (Truncate(r) == n <==> n as real <= r < n as real + 1.0)
    ensures r < 0.0 ==> (Truncate(r) == n <==> n as real - 1.0 < r <= n as real)
  {
    if r < 0.0 {
      var m := (-r).Floor;
      assert m as real <= -r < m as real + 1.0;
      assert (-m) as real == -(m as real);
    }
  }

  lemma ToIntDenotes(v: Value, n: int)
    ensures ToInt(v) == Some(n) <==> Denotes(v, n)
  {
    if v.Flt? && v.f.Finite? {
      CutIs(v.f.r, n);
    }
  }

  lemma NumberRead(v: Value, b: Basic, i64s: bool, n: int)
    requires IntRange(b).Some? && b != Octet && Denotes(v, n)
    ensures Read(v, Scalar(b), i64s)
            == Some(if !v.Str? && i64s && b in {Int64, UInt64, LongLong, ULongLong}
                       && (n > 9007199254740992 || n < -9007199254740992) then Str(PrintInt(n)) else Int(n))
  {
    ToIntDenotes(v, n);
  }

  /** An integer slot takes what denotes an integer; only a number, and only one of 64 bits, ever becomes text. */
  lemma NumberReads(v: Value, b: Basic, i64s: bool)
    requires IntRange(b).Some? && b != Octet
    ensures Read(v, Scalar(b), i64s).None? <==> forall n :: !Denotes(v, n)
    ensures forall n :: Denotes(v, n) ==>
              Read(v, Scalar(b), i64s)
              == Some(if !v.Str? && i64s && b in {Int64, UInt64, LongLong, ULongLong}
                         && (n > 9007199254740992 || n < -9007199254740992) then Str(PrintInt(n)) else Int(n))
  {
    if ToInt(v).Some? {
      ToIntDenotes(v, ToInt(v).value);
    }
    forall n | Denotes(v, n) ensures ToInt(v) == Some(n) {
      ToIntDenotes(v, n);
    }
    forall n | Denotes(v, n) {
      NumberRead(v, b, i64s, n);
    }
    assert Read(v, Scalar(b), i64s) == ReadInt(v, b, i64s);
  }

  /** The byte that a value stands for: a byte string of one, a character up to 255, or a number. */
  predicate IsByte(v: Value, n: int) {
    || (v.Bytes? && |v.bytes| == 1 && v.bytes[0] as int == n)
    || (v.Str? && |v.s| == 1 && v.s[0] as int == n && n <= 255)
    || v == Int(n)
  }

  lemma OctetReads(v: Value, i64s: bool)
    ensures forall n :: Read(v, Scalar(Octet), i64s) == Some(Int(n)) <==> IsByte(v, n)
    ensures Read(v, Scalar(Octet), i64s).Some? ==> Read(v, Scalar(Octet), i64s).value.Int?
  {
  }

  lemma FloatReads(v: Value, b: Basic, i64s: bool)
    requires b in {Float32, Float64, LongDouble}
    ensures Read(v, Scalar(b), i64s)
            == match v
               case Flt(f) => Some(v)
               case Int(i) => Some(Flt(Finite(i as real)))
               case Bool(t) => Some(Flt(Finite(if t then 1.0 else 0.0)))
               case _ => None
  {
  }

  predicate NoByte(v: Value) {
    forall n :: 0 <= n < 256 ==> !IsByte(v, n)
  }

  lemma ByteOfIs(v: Value)
    ensures ByteOf(v).Some? ==> IsByte(v, ByteOf(v).value as int)
    ensures ByteOf(v).None? ==> NoByte(v)
  {
  }

  lemma {:induction false} BytesOfAre(items: seq<Value>)
    ensures BytesOf(items).Some? ==>
              |BytesOf(items).value| == |items|
              && forall i :: 0 <= i < |items| ==> IsByte(items[i], BytesOf(items).value[i] as int)
    ensures BytesOf(items).None? ==> exists i :: 0 <= i < |items| && NoByte(items[i])
  {
    if items == [] {
    } else {
      var n := |items| - 1;
      BytesOfAre(items[..n]);
      ByteOfIs(items[n]);
      if BytesOf(items[..n]).None? {
        var i :| 0 <= i < n && NoByte(items[..n][i]);
        assert items[i] == items[..n][i];
      }
    }
  }

  /** The items of what a byte array may come as: a list, a tuple, or the characters of a text. */
  function ByteItems(v: Value): (items: Option<seq<Value>>) {
    match v
    case List(items) => Some(items)
    case Tuple(items) => Some(items)
    case Str(s) => Some(seq(|s|, i requires 0 <= i < |s| => Str([s[i]])))
    case _ => None
  }

  /**
    A byte array is read as base64 of its bytes, whatever it comes as; reading fails exactly on another kind of
    value or on an item that is no byte.
  */
  lemma ByteArrayReads(v: Value, elem: Slot, length: Length, i64s: bool)
    requires elem in {Scalar(UInt8), Scalar(Octet)}
    ensures var r := Read(v, Sequence(elem, length), i64s);
            && (v.Bytes? ==> r == Some(Str(Base64.Encode(v.bytes))))
            && (!v.Bytes? && ByteItems(v).None? ==> r.None?)
            && (ByteItems(v).Some? ==>
                  var items := ByteItems(v).value;
                  if r.None? then exists i :: 0 <= i < |items| && NoByte(items[i])
                  else
                    exists bytes: seq<Byte> ::
                      && r == Some(Str(Base64.Encode(bytes))) && |bytes| == |items|
                      && forall i :: 0 <= i < |items| ==> IsByte(items[i], bytes[i] as int))
  {
    if ByteItems(v).Some? {
      var items := ByteItems(v).value;
      assert ContainerToBytes(v) == BytesOf(items);
      BytesOfAre(items);
      if BytesOf(items).Some? {
        var bytes := BytesOf(items).value;
        assert Read(v, Sequence(elem, length), i64s) == Some(Str(Base64.Encode(bytes)));
      }
    }
  }

  /* ---- writing ---- */

  /** The integer a value gives for a slot: a number, a float without a fraction, or the text of a 64-bit one. */
  function Given(v: Value, b: Basic, i64s: bool): (n: Option<int>) {
    match v
    case Int(i) => Some(i)
    case Flt(f) => if f.Finite? && f.r.Floor as real == f.r then Some(f.r.Floor) else None
    case Str(s) => if i64s && b in {Int64, UInt64, LongLong, ULongLong} then ParseInt(s) else None
    case _ => None
  }

  predicate InFloat32(r: real) {
    -340282346600000000000000000000000000000.0 <= r <= 340282346600000000000000000000000000000.0
  }

  predicate AcceptsBasic(v: Value, b: Basic, i64s: bool) {
    match b
    case Boolean => v.Bool?
    case Float32 =>
      (v.Int? && InFloat32(v.i as real)) || (v.Flt? && v.f.Finite? && InFloat32(v.f.r))
    case Float64 => v.Int? || (v.Flt? && v.f.Finite?)
    case LongDouble => v.Int? || (v.Flt? && v.f.Finite?)
    case OtherBasic(_) => true
    case _ =>
      var n := Given(v, b, i64s);
      n.Some? && IntRange(b).Some? && IntRange(b).value.0 <= n.value <= IntRange(b).value.1
  }

  predicate AcceptsLength(n: nat, length: Length) {
    (length.Exactly? ==> n == length.n) && (length.AtMost? ==> n <= length.n)
  }

  /**
    What from_canonical accepts: every leaf in its domain, every text and sequence within its bound, and no member
    that the message does not have, but for the one that stands for an empty message.
  */
  ghost predicate Accepts(v: Value, t: Slot, i64s: bool)
    decreases t
  {
    match t
    case Scalar(b) => AcceptsBasic(v, b, i64s)
    case Text(bound) => v.Str? && (bound.Some? ==> |v.s| <= bound.value)
    case Struct(fields) =>
      v.Dict?
      && forall k :: k in v.dict && k != "structure_needs_at_least_one_member" ==>
           exists i :: 0 <= i < |fields| && fields[i].name == k && Accepts(v.dict[k], fields[i].slot, i64s)
    case Sequence(elem, length) =>
      if elem in {Scalar(UInt8), Scalar(Octet)} then
        v.Str? && Base64.Decode(v.s).Some? && AcceptsLength(|Base64.Decode(v.s).value|, length)
      else
        && (v.List? || v.Tuple?) && AcceptsLength(|v.items|, length)
        && forall i :: 0 <= i < |v.items| ==> Accepts(v.items[i], elem, i64s)
    case Unsupported => false
  }

  lemma WrittenIsGiven(v: Value, b: Basic, i64s: bool)
    requires IntRange(b).Some?
    ensures var n := Given(v, b, i64s);
            WriteInt(v, b, i64s)
            == if n.Some? && IntRange(b).value.0 <= n.value <= IntRange(b).value.1 then n else None
  {
  }

  lemma IntegerKinds(b: Basic)
    requires IntRange(b).Some?
    ensures b != Boolean && !IsFloat(b) && !b.OtherBasic?
  {
  }

  lemma IntegerAccepted(v: Value, b: Basic, i64s: bool)
    requires IntRange(b).Some?
    ensures WriteBasic(v, b, i64s).Some? <==> AcceptsBasic(v, b, i64s)
  {
    IntegerKinds(b);
    WrittenIsGiven(v, b, i64s);
  }

  lemma BasicAccepted(v: Value, b: Basic, i64s: bool)
    ensures WriteBasic(v, b, i64s).Some? <==> AcceptsBasic(v, b, i64s)
  {
    if IntRange(b).Some? {
      IntegerAccepted(v, b, i64s);
    }
  }

  /** What an accepted leaf is written as: an octet as a byte string of one, a number as one of the slot's kind. */
  lemma BasicWrites(v: Value, b: Basic, i64s: bool)
    requires AcceptsBasic(v, b, i64s)
    ensures Write(v, Scalar(b), i64s)
            == Some(match b
                    case Octet => Bytes([Given(v, b, i64s).value as Byte])
                    case Boolean => v
                    case Float32 => if v.Int? then Flt(Finite(v.i as real)) else v
                    case Float64 => if v.Int? then Flt(Finite(v.i as real)) else v
                    case LongDouble => if v.Int? then Flt(Finite(v.i as real)) else v
                    case OtherBasic(_) => v
                    case _ => Int(Given(v, b, i64s).value))
  {
  }

  lemma {:induction false} ItemsAccepted(items: seq<Value>, elem: Slot, i64s: bool)
    ensures WriteItems(items, elem, i64s).Some? <==>
            forall i :: 0 <= i < |items| ==> Write(items[i], elem, i64s).Some?
  {
    if items == [] {
    } else {
      var n := |items| - 1;
      ItemsAccepted(items[..n], elem, i64s);
      assert forall i :: 0 <= i < n ==> items[..n][i] == items[i];
    }
  }

  /** from_canonical accepts exactly the values described, for every type tree. */
  lemma {:induction false} AcceptedIff(v: Value, t: Slot, i64s: bool)
    requires Distinct(t)
    ensures Write(v, t, i64s).Some? <==> Accepts(v, t, i64s)
    decreases t
  {
    match t
    case Scalar(b) => BasicAccepted(v, b, i64s);
    case Text(_) =>
    case Struct(fields) =>
      if v.Dict? {
        forall k | k in v.dict && k != EMPTY_STRUCT_MEMBER
          ensures WriteMember(v.dict[k], k, t, i64s).Some? <==>
                  exists i :: 0 <= i < |fields| && fields[i].name == k && Accepts(v.dict[k], fields[i].slot, i64s)
        {
          var i := IndexOf(fields, k);
          if i < |fields| {
            AcceptedIff(v.dict[k], fields[i].slot, i64s);
          }
        }
      }
    case Sequence(elem, length) =>
      if !IsByteSlot(elem) && (v.List? || v.Tuple?) {
        ItemsAccepted(v.items, elem, i64s);
        forall i | 0 <= i < |v.items|
          ensures Write(v.items[i], elem, i64s).Some? <==> Accepts(v.items[i], elem, i64s)
        {
          AcceptedIff(v.items[i], elem, i64s);
        }
      }
    case Unsupported =>
  }
}
