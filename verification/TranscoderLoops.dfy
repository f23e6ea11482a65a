/** The conversion as the bridge runs it: loops that fill a local dict or byte array, leaving at the first error. */
module TranscoderLoops {
  import opened Wrappers
  import opened Values
  import opened Transcoder
  import Base64

  method BytesOfItems(items: seq<Value>) returns (r: Option<seq<Byte>>)
    ensures r == BytesOf(items)
  {
    var out: seq<Byte> := [];
    for i := 0 to |items|
      invariant BytesOf(items[..i]) == Some(out)
    {
      assert items[..i + 1][..i] == items[..i];
      var b := ByteOf(items[i]);
      if b.None? {
        FailingPrefix(items, i + 1);
        return None;
      }
      out := out + [b.value];
    }
    assert items[..|items|] == items;
    return Some(out);
  }

  lemma {:induction false} FailingPrefix(items: seq<Value>, n: nat)
    requires n <= |items| && BytesOf(items[..n]).None?
    ensures BytesOf(items).None?
    decreases |items| - n
  {
    if n < |items| {
      assert items[..n + 1][..n] == items[..n];
      FailingPrefix(items, n + 1);
    } else {
      assert items[..n] == items;
    }
  }

  lemma {:induction false} FailingItem(items: seq<Value>, n: nat, elem: Slot, i64s: bool)
    requires n <= |items|
    ensures ReadItems(items[..n], elem, i64s).None? ==> ReadItems(items, elem, i64s).None?
    ensures WriteItems(items[..n], elem, i64s).None? ==> WriteItems(items, elem, i64s).None?
    decreases |items| - n
  {
    if n < |items| {
      assert items[..n + 1][..n] == items[..n];
      FailingItem(items, n + 1, elem, i64s);
    } else {
      assert items[..n] == items;
    }
  }

  lemma {:induction false} FailingField(d: map<string, Value>, t: Slot, k: nat, i64s: bool)
    requires t.Struct? && k <= |t.fields| && ReadFields(d, t, k, i64s).None?
    ensures ReadFields(d, t, |t.fields|, i64s).None?
    decreases |t.fields| - k
  {
    if k == |t.fields| {
    } else {
      FailingField(d, t, k + 1, i64s);
    }
  }

  lemma AllMembers(d: map<string, Value>, out: map<string, Value>, t: Slot, i64s: bool)
    requires t.Struct? && out.Keys == d.Keys - {EMPTY_STRUCT_MEMBER}
    requires forall k :: k in out ==> WriteMember(d[k], k, t, i64s) == Some(out[k])
    ensures Write(Dict(d), t, i64s) == Some(Dict(out))
  {
    forall k | k in d ensures WriteMember(d[k], k, t, i64s).Some? {
      assert k == EMPTY_STRUCT_MEMBER || k in out;
    }
    var back := Write(Dict(d), t, i64s);
    assert back.Some? && back.value.dict == out;
  }

  method ReadValue(v: Value, t: Slot, i64s: bool) returns (r: Option<Value>)
    ensures r == Read(v, t, i64s)
    decreases t, 1
  {
    match t
    case Scalar(b) => r := ReadBasic(v, b, i64s);
    case Text(_) => r := if v.Str? then Some(v) else None;
    case Struct(_) => r := ReadStruct(v, t, i64s);
    case Sequence(_, _) => r := ReadSequence(v, t, i64s);
    case Unsupported => r := None;
  }

  method ReadStruct(v: Value, t: Slot, i64s: bool) returns (r: Option<Value>)
    requires t.Struct?
    ensures r == Read(v, t, i64s)
    decreases t, 0
  {
    if !v.Dict? {
      return None;
    }
    var out: map<string, Value> := map[];
    for k := 0 to |t.fields|
      invariant ReadFields(v.dict, t, k, i64s) == Some(out)
    {
      var f := t.fields[k];
      if f.name == EMPTY_STRUCT_MEMBER || f.name !in v.dict {
        continue;
      }
      var item := ReadValue(v.dict[f.name], f.slot, i64s);
      if item.None? {
        FailingField(v.dict, t, k + 1, i64s);
        return None;
      }
      out := out[f.name := item.value];
    }
    return Some(Dict(out));
  }

  method ReadSequence(v: Value, t: Slot, i64s: bool) returns (r: Option<Value>)
    requires t.Sequence?
    ensures r == Read(v, t, i64s)
    decreases t, 0
  {
    if IsByteSlot(t.elem) {
      var bytes: Option<seq<Byte>>;
      if v.List? || v.Tuple? {
        bytes := BytesOfItems(v.items);
      } else {
        bytes := ContainerToBytes(v);
      }
      return if bytes.None? then None else Some(Str(Base64.Encode(bytes.value)));
    }
    if !v.List? && !v.Tuple? {
      return None;
    }
    var out: seq<Value> := [];
    for i := 0 to |v.items|
      invariant ReadItems(v.items[..i], t.elem, i64s) == Some(out)
    {
      assert v.items[..i + 1][..i] == v.items[..i];
      var item := ReadValue(v.items[i], t.elem, i64s);
      if item.None? {
        FailingItem(v.items, i + 1, t.elem, i64s);
        return None;
      }
      out := out + [item.value];
    }
    assert v.items[..|v.items|] == v.items;
    return Some(List(out));
  }

  method WriteValue(v: Value, t: Slot, i64s: bool) returns (r: Option<Value>)
    ensures r == Write(v, t, i64s)
    decreases t, 1
  {
    match t
    case Scalar(b) => r := WriteBasic(v, b, i64s);
    case Text(bound) => r := WriteText(v, bound);
    case Struct(_) => r := WriteStruct(v, t, i64s);
    case Sequence(_, _) => r := WriteSequence(v, t, i64s);
    case Unsupported => r := None;
  }

  /** Walks the given members in no particular order; one failing member fails the whole struct. */
  method WriteStruct(v: Value, t: Slot, i64s: bool) returns (r: Option<Value>)
    requires t.Struct?
    ensures r == Write(v, t, i64s)
    decreases t, 0
  {
    if !v.Dict? {
      return None;
    }
    var out: map<string, Value> := map[];
    var todo := v.dict.Keys;
    while todo != {}
      invariant todo <= v.dict.Keys
      invariant out.Keys == v.dict.Keys - todo - {EMPTY_STRUCT_MEMBER}
      invariant forall k :: k in out ==> WriteMember(v.dict[k], k, t, i64s) == Some(out[k])
      decreases |todo|
    {
      var key :| key in todo;
      todo := todo - {key};
      if key == EMPTY_STRUCT_MEMBER {
        continue;
      }
      var i := IndexOf(t.fields, key);
      var item: Option<Value> := None;
      if i < |t.fields| {
        item := WriteValue(v.dict[key], t.fields[i].slot, i64s);
      }
      assert WriteMember(v.dict[key], key, t, i64s) == item;
      if item.None? {
        return None;
      }
      out := out[key := item.value];
    }
    AllMembers(v.dict, out, t, i64s);
    return Some(Dict(out));
  }

  method WriteSequence(v: Value, t: Slot, i64s: bool) returns (r: Option<Value>)
    requires t.Sequence?
    ensures r == Write(v, t, i64s)
    decreases t, 0
  {
    if IsByteSlot(t.elem) {
      return WriteBytes(v, t.elem, t.length);
    }
    if (!v.List? && !v.Tuple?) || !LengthOk(|v.items|, t.length) {
      return None;
    }
    var out: seq<Value> := [];
    for i := 0 to |v.items|
      invariant WriteItems(v.items[..i], t.elem, i64s) == Some(out)
    {
      assert v.items[..i + 1][..i] == v.items[..i];
      var item := WriteValue(v.items[i], t.elem, i64s);
      if item.None? {
        FailingItem(v.items, i + 1, t.elem, i64s);
        return None;
      }
      out := out + [item.value];
    }
    assert v.items[..|v.items|] == v.items;
    return Some(List(out));
  }
}
