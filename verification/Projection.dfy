/**
  Projection of an observed message onto selected dotted paths
  (core/payload.py, with get_path and set_path of core/common.py).
*/
module Projection {
  import opened Wrappers
  import opened Values

  type Document = map<string, Value>
  type Path = seq<string>

  /** path.split("."): always at least one part. */
  function Split(path: string): (parts: Path)
    ensures parts != []
  {
    if path == "" then [""]
    else
      var rest := Split(path[1..]);
      if path[0] == '.' then [""] + rest else [[path[0]] + rest[0]] + rest[1..]
  }

  /** ".".join(parts) */
  function Join(parts: Path): (path: string)
    requires parts != []
  {
    if |parts| == 1 then parts[0] else parts[0] + "." + Join(parts[1..])
  }

  /** The parts are what is between the dots: they hold none, and joined by dots they are the path. */
  lemma {:induction false} SplitJoins(path: string)
    ensures Join(Split(path)) == path
    ensures forall i :: 0 <= i < |Split(path)| ==> '.' !in Split(path)[i]
  {
    if path == "" {
    } else {
      SplitJoins(path[1..]);
      var rest, parts := Split(path[1..]), Split(path);
      if path[0] == '.' {
        assert parts[1..] == rest;
      } else {
        assert parts[1..] == rest[1..];
        assert |parts| > 1 ==> Join(rest) == rest[0] + "." + Join(rest[1..]);
      }
    }
  }

  /** The node that a path of keys leads to. */
  function Lookup(v: Value, parts: Path): (r: Option<Value>) {
    if parts == [] then Some(v)
    else if v.Dict? && parts[0] in v.dict then Lookup(v.dict[parts[0]], parts[1..])
    else None
  }

  method GetPath(d: Document, path: string) returns (found: bool, value: Value)
    ensures (if found then Some(value) else None) == Lookup(Dict(d), Split(path))
  {
    var parts := Split(path);
    var cur := Dict(d);
    for i := 0 to |parts|
      invariant Lookup(cur, parts[i..]) == Lookup(Dict(d), parts)
    {
      if !cur.Dict? || parts[i] !in cur.dict {
        return false, Null;
      }
      assert parts[i..][1..] == parts[i + 1..];
      cur := cur.dict[parts[i]];
    }
    return true, cur;
  }

  /** set_path on values: a missing or non-dict intermediate node becomes a new dict. */
  function SetPath(d: Document, parts: Path, value: Value): (r: Document)
    requires parts != []
    decreases |parts|
  {
    if |parts| == 1 then d[parts[0] := value]
    else
      var next := if parts[0] in d && d[parts[0]].Dict? then d[parts[0]].dict else map[];
      d[parts[0] := Dict(SetPath(next, parts[1..], value))]
  }

  /** Non-finite floats become null in place, tuples become lists. */
  function Sanitize(v: Value): (r: Value) {
    match v
    case Flt(f) => if f.Finite? then v else Null
    case List(items) => List(SanitizeAll(items))
    case Tuple(items) => List(SanitizeAll(items))
    case Dict(d) => Dict(map k | k in d :: Sanitize(d[k]))
    case _ => v
  }

  function SanitizeAll(vs: seq<Value>): (r: seq<Value>)
    ensures |r| == |vs|
  {
    if vs == [] then [] else [Sanitize(vs[0])] + SanitizeAll(vs[1..])
  }

  /** What the loop of project_fields has built after the given paths. */
  ghost function Projected(payload: Document, fields: seq<string>): (out: Document) {
    if fields == [] then map[]
    else
      var out := Projected(payload, fields[..|fields| - 1]);
      var parts := Split(fields[|fields| - 1]);
      match Lookup(Dict(payload), parts)
      case None => out
      case Some(v) => SetPath(out, parts, Sanitize(v))
  }

  method ProjectFields(payload: Document, fields: seq<string>) returns (out: Document)
    ensures fields == [] ==> Dict(out) == Sanitize(Dict(payload))
    ensures fields != [] ==> out == Projected(payload, fields)
  {
    if fields == [] {
      return map k | k in payload :: Sanitize(payload[k]);
    }
    out := map[];
    for i := 0 to |fields|
      invariant out == Projected(payload, fields[..i])
    {
      assert fields[..i + 1][..i] == fields[..i];
      var found, value := GetPath(payload, fields[i]);
      if found {
        out := SetPath(out, Split(fields[i]), Sanitize(value));
      }
    }
    assert fields[..|fields|] == fields;
  }

  /* ---- sub-documents ---- */

  /** x is obtained from y by leaving out dict entries, at any depth. */
  ghost predicate SubDocument(x: Value, y: Value) {
    || x == y
    || (x.Dict? && y.Dict?
        && forall k :: k in x.dict ==> k in y.dict && SubDocument(x.dict[k], y.dict[k]))
  }

  /** x and y hold the same node at path p. */
  ghost predicate AgreeAt(x: Value, y: Value, p: Path) {
    Lookup(y, p).Some? && Lookup(x, p) == Lookup(y, p)
  }

  lemma {:induction false} SubDocumentAntisymmetric(x: Value, y: Value)
    requires SubDocument(x, y) && SubDocument(y, x)
    ensures x == y
    decreases x
  {
    if !x.Dict? || !y.Dict? {
    } else {
      forall k | k in x.dict && k in y.dict && SubDocument(x.dict[k], y.dict[k]) && SubDocument(y.dict[k], x.dict[k])
        ensures x.dict[k] == y.dict[k]
      {
        SubDocumentAntisymmetric(x.dict[k], y.dict[k]);
      }
      assert x.dict == y.dict;
    }
  }

  /** Looking up and sanitizing commute. */
  lemma {:induction false} LookupSanitized(v: Value, p: Path)
    ensures Lookup(v, p).None? ==> Lookup(Sanitize(v), p).None?
    ensures Lookup(v, p).Some? ==> Lookup(Sanitize(v), p) == Some(Sanitize(Lookup(v, p).value))
    decreases |p|
  {
    if p == [] || !v.Dict? || p[0] !in v.dict {
    } else {
      LookupSanitized(v.dict[p[0]], p[1..]);
    }
  }

  /**
    What is kept and what is changed, at every place: a float at a path stays if it is finite and becomes null if
    not; every other leaf stays; a list, or a tuple, becomes a list of as many items in the same order.
  */
  lemma LeavesSanitized(v: Value, p: Path)
    requires Lookup(v, p).Some?
    ensures Lookup(Sanitize(v), p).Some?
    ensures var x, y := Lookup(v, p).value, Lookup(Sanitize(v), p).value;
            match x
            case Flt(f) => y == if f == NaN || f == PosInf || f == NegInf then Null else x
            case List(items) => y.List? && |y.items| == |items|
                                && forall i :: 0 <= i < |items| ==> y.items[i] == Sanitize(items[i])
            case Tuple(items) => y.List? && |y.items| == |items|
                                 && forall i :: 0 <= i < |items| ==> y.items[i] == Sanitize(items[i])
            case Dict(d) => y.Dict? && y.dict.Keys == d.Keys
            case _ => y == x
  {
    LookupSanitized(v, p);
    var x := Lookup(v, p).value;
    if x.List? || x.Tuple? {
      forall i | 0 <= i < |x.items| ensures SanitizeAll(x.items)[i] == Sanitize(x.items[i]) {
        SanitizedAt(x.items, i);
      }
    }
  }

  /** Writing back what is already there changes nothing. */
  lemma {:induction false} SetPathIdentity(d: Document, p: Path)
    requires p != [] && Lookup(Dict(d), p).Some?
    ensures SetPath(d, p, Lookup(Dict(d), p).value) == d
    decreases |p|
  {
    if |p| > 1 {
      assert d[p[0]].Dict?;
      SetPathIdentity(d[p[0]].dict, p[1..]);
    } else {
      assert p[1..] == [];
    }
  }

  /** Below a document, every node on the way to an existing path is a dict. */
  lemma {:induction false} IntermediateIsDict(x: Value, y: Value, p: Path, q: Path)
    requires SubDocument(x, y) && Lookup(y, p).Some?
    requires q < p && Lookup(x, q).Some?
    ensures Lookup(x, q).value.Dict?
    decreases |p|
  {
    if q != [] {
      assert q[1..] < p[1..];
      if x == y {
        IntermediateIsDict(x.dict[p[0]], x.dict[p[0]], p[1..], q[1..]);
      } else {
        IntermediateIsDict(x.dict[p[0]], y.dict[p[0]], p[1..], q[1..]);
      }
    } else {
      assert y.Dict?;
    }
  }

  /** One step of the projection loop keeps a sub-document a sub-document. */
  lemma {:induction false} SetPathStaysBelow(out: Document, y: Value, p: Path)
    requires p != [] && SubDocument(Dict(out), y) && Lookup(y, p).Some?
    ensures SubDocument(Dict(SetPath(out, p, Lookup(y, p).value)), y)
    ensures AgreeAt(Dict(SetPath(out, p, Lookup(y, p).value)), y, p)
    decreases |p|
  {
    var v := Lookup(y, p).value;
    var r := SetPath(out, p, v);
    assert forall k :: k in out ==> SubDocument(out[k], y.dict[k]);
    if |p| == 1 {
      assert p[1..] == [];
      assert y.dict[p[0]] == v;
    } else {
      var below := y.dict[p[0]];
      assert below.Dict?;
      var next := if p[0] in out && out[p[0]].Dict? then out[p[0]].dict else map[];
      SetPathStaysBelow(next, below, p[1..]);
    }
    forall k | k in r ensures k in y.dict && SubDocument(r[k], y.dict[k]) {
    }
  }

  /** One step keeps every agreement reached before. */
  lemma {:induction false} SetPathKeepsAgreement(out: Document, y: Value, p: Path, q: Path)
    requires p != [] && q != [] && SubDocument(Dict(out), y) && Lookup(y, p).Some?
    requires AgreeAt(Dict(out), y, q)
    ensures AgreeAt(Dict(SetPath(out, p, Lookup(y, p).value)), y, q)
    decreases |p|
  {
    var v := Lookup(y, p).value;
    if q[0] == p[0] {
      if |p| == 1 {
        assert p[1..] == [];
      } else if |q| == 1 {
        assert q[1..] == [];
        assert Lookup(Dict(out), q) == Lookup(out[q[0]], []);
        assert Lookup(y, q) == Lookup(y.dict[q[0]], []);
        SetPathIdentity(out[p[0]].dict, p[1..]);
      } else {
        assert out[p[0]].Dict?;
        assert SubDocument(out[p[0]], y.dict[p[0]]);
        SetPathKeepsAgreement(out[p[0]].dict, y.dict[p[0]], p[1..], q[1..]);
      }
    }
  }

  /** One step adds no more than any agreeing sub-document already has. */
  lemma {:induction false} SetPathIsLeast(out: Document, d: Value, y: Value, p: Path)
    requires p != [] && SubDocument(Dict(out), d) && SubDocument(d, y) && AgreeAt(d, y, p)
    ensures SubDocument(Dict(SetPath(out, p, Lookup(y, p).value)), d)
    decreases |p|
  {
    SetPathStaysBelow(out, d, p);
  }

  /* ---- the theorems about project_fields ---- */

  /**
    The projection is a sub-document of the sanitized payload and agrees with it on every selected
    path that exists in the payload.
  */
  lemma {:induction false} ProjectionIsSubDocument(payload: Document, fields: seq<string>)
    ensures SubDocument(Dict(Projected(payload, fields)), Sanitize(Dict(payload)))
    ensures forall f :: f in fields && Lookup(Dict(payload), Split(f)).Some? ==>
                          AgreeAt(Dict(Projected(payload, fields)), Sanitize(Dict(payload)), Split(f))
  {
    if fields == [] {
    } else {
      var earlier, last := fields[..|fields| - 1], fields[|fields| - 1];
      ProjectionIsSubDocument(payload, earlier);
      var out, y, p := Projected(payload, earlier), Sanitize(Dict(payload)), Split(last);
      LookupSanitized(Dict(payload), p);
      if Lookup(Dict(payload), p).Some? {
        SetPathStaysBelow(out, y, p);
        forall f | f in earlier && Lookup(Dict(payload), Split(f)).Some?
          ensures AgreeAt(Dict(Projected(payload, fields)), y, Split(f))
        {
          SetPathKeepsAgreement(out, y, p, Split(f));
        }
      }
      assert fields == earlier + [last];
    }
  }

  /** d keeps every selected path of the payload, and nothing that is not in the payload. */
  ghost predicate Keeps(d: Value, payload: Document, fields: seq<string>) {
    && SubDocument(d, Sanitize(Dict(payload)))
    && forall f :: f in fields && Lookup(Dict(payload), Split(f)).Some? ==>
                     AgreeAt(d, Sanitize(Dict(payload)), Split(f))
  }

  /** The projection is the least document that keeps the selected paths. */
  lemma {:induction false} ProjectionIsLeast(payload: Document, fields: seq<string>, d: Value)
    requires d.Dict? && Keeps(d, payload, fields)
    ensures SubDocument(Dict(Projected(payload, fields)), d)
  {
    if fields == [] {
    } else {
      var earlier, last := fields[..|fields| - 1], fields[|fields| - 1];
      assert fields == earlier + [last];
      ProjectionIsLeast(payload, earlier, d);
      if Lookup(Dict(payload), Split(last)).Some? {
        LookupSanitized(Dict(payload), Split(last));
        SetPathIsLeast(Projected(payload, earlier), d, Sanitize(Dict(payload)), Split(last));
      }
    }
  }

  /** Order and repetition of the selected paths do not matter. */
  lemma ProjectionIgnoresOrder(payload: Document, fs: seq<string>, gs: seq<string>)
    requires forall f :: f in fs <==> f in gs
    ensures Projected(payload, fs) == Projected(payload, gs)
  {
    ProjectionIsSubDocument(payload, fs);
    ProjectionIsSubDocument(payload, gs);
    ProjectionIsLeast(payload, fs, Dict(Projected(payload, gs)));
    ProjectionIsLeast(payload, gs, Dict(Projected(payload, fs)));
    SubDocumentAntisymmetric(Dict(Projected(payload, fs)), Dict(Projected(payload, gs)));
  }

  /** set_path never replaces a non-dict node while projecting. */
  lemma ProjectionOverwritesNoLeaf(payload: Document, fields: seq<string>, next: string, q: Path)
    requires Lookup(Dict(payload), Split(next)).Some?
    requires q < Split(next) && Lookup(Dict(Projected(payload, fields)), q).Some?
    ensures Lookup(Dict(Projected(payload, fields)), q).value.Dict?
  {
    ProjectionIsSubDocument(payload, fields);
    LookupSanitized(Dict(payload), Split(next));
    IntermediateIsDict(Dict(Projected(payload, fields)), Sanitize(Dict(payload)), Split(next), q);
  }

  /* ---- what sanitizing guarantees ---- */

  ghost predicate AllFinite(v: Value) {
    match v
    case Flt(f) => f.Finite?
    case List(items) => forall i :: 0 <= i < |items| ==> AllFinite(items[i])
    case Tuple(items) => forall i :: 0 <= i < |items| ==> AllFinite(items[i])
    case Dict(d) => forall k :: k in d ==> AllFinite(d[k])
    case _ => true
  }

  /** Strict JSON can carry the value: no tuple, no bytes, no NaN or infinity. */
  ghost predicate JsonSafe(v: Value) {
    IsJson(v) && AllFinite(v)
  }

  /** Every element keeps its position. */
  lemma {:induction false} SanitizedAt(vs: seq<Value>, i: nat)
    requires i < |vs|
    ensures SanitizeAll(vs)[i] == Sanitize(vs[i])
  {
    if i == 0 {
    } else {
      SanitizedAt(vs[1..], i - 1);
    }
  }

  /**
    Sanitizing makes a value that JSON can carry, exactly if the value holds no bytes: those pass through
    untouched.
  */
  lemma {:induction false} SanitizedIsJsonSafe(v: Value)
    ensures JsonSafe(Sanitize(v)) <==> NoBytes(v)
    decreases v
  {
    match v
    case List(items) => SanitizedItems(items, v);
    case Tuple(items) => SanitizedItems(items, v);
    case Dict(d) =>
      forall k | k in d ensures JsonSafe(Sanitize(d[k])) <==> NoBytes(d[k]) {
        SanitizedIsJsonSafe(d[k]);
      }
      var r := Sanitize(v).dict;
      assert forall k :: k in d ==> r[k] == Sanitize(d[k]);
    case _ =>
  }

  lemma {:induction false} SanitizedItems(items: seq<Value>, v: Value)
    requires v == List(items) || v == Tuple(items)
    ensures JsonSafe(List(SanitizeAll(items))) <==> forall i :: 0 <= i < |items| ==> NoBytes(items[i])
    decreases v, 0
  {
    var r := SanitizeAll(items);
    forall i | 0 <= i < |items| ensures r[i] == Sanitize(items[i]) && (JsonSafe(r[i]) <==> NoBytes(items[i])) {
      SanitizedAt(items, i);
      SanitizedIsJsonSafe(items[i]);
    }
  }

  /** A value that JSON can already carry is left as it is. */
  lemma {:induction false} SanitizeKeepsJsonSafe(v: Value)
    requires JsonSafe(v)
    ensures Sanitize(v) == v
    decreases v
  {
    match v
    case List(items) =>
      forall i | 0 <= i < |items| ensures SanitizeAll(items)[i] == items[i] {
        SanitizedAt(items, i);
        SanitizeKeepsJsonSafe(items[i]);
      }
      assert SanitizeAll(items) == items;
    case Dict(d) =>
      forall k | k in d ensures Sanitize(d[k]) == d[k] { SanitizeKeepsJsonSafe(d[k]); }
      assert (map k | k in d :: Sanitize(d[k])) == d;
    case _ =>
  }
}
