/** oneM2M write operations, their queue keys, and the JSON object a spooled operation is stored as. */
module Operations {
  import opened Wrappers
  import opened Values

  datatype QueueClass = Terminal | Latest | Bulk

  /** Operation kinds; OtherKind is any text but the four known names. */
  datatype Kind = CreateCin | UpdateFcnt | UpdateCnt | UpdateLbl | OtherKind(name: string)

  /** One write. Identity members are None where Python holds None; rn, et and the flags travel untouched. */
  datatype Op = Op(
    kind: Kind,
    path: string,
    content: Value,
    robot: Option<string>,
    iface: Option<string>,
    view: Option<string>,
    queueClass: QueueClass,
    oversized: Value,
    rn: Value,
    anomalous: Value,
    et: Value,
    expiresAt: Option<Float>)

  /* ---- queue keys ---- */

  datatype OrderKey = Global | Interface(robot: string, iface: string)

  datatype LatestKey = Derived(robot: string, iface: string, view: Option<string>) | Explicit(name: string)

  /** The key that serializes deliveries. */
  function OrderKeyOf(op: Op): (k: OrderKey) {
    if op.robot.None? || op.iface.None? then Global else Interface(op.robot.value, op.iface.value)
  }

  /** Two operations are delivered one after the other: they name the same robot and interface, or neither does. */
  predicate SameInterface(a: Op, b: Op) {
    if a.robot.Some? && a.iface.Some? then a.robot == b.robot && a.iface == b.iface
    else b.robot.None? || b.iface.None?
  }

  lemma SameKeyIff(a: Op, b: Op)
    ensures OrderKeyOf(a) == OrderKeyOf(b) <==> SameInterface(a, b)
  {
  }

  /** The key that coalesces observations, None without a robot or an interface. */
  function LatestKeyOf(op: Op): (k: Option<LatestKey>) {
    if op.robot.None? || op.iface.None? then None
    else Some(Derived(op.robot.value, op.iface.value, op.view))
  }

  /** Two observations coalesce exactly if both name a robot and an interface and they agree on these and the view. */
  lemma SameLatestKeyIff(a: Op, b: Op)
    ensures LatestKeyOf(a).Some? && LatestKeyOf(a) == LatestKeyOf(b) <==>
            a.robot.Some? && a.iface.Some? && a.robot == b.robot && a.iface == b.iface && a.view == b.view
  {
  }

  /* ---- storage ---- */

  /** Python's str() of a value and float() of a text, which foreign rows may need. */
  datatype Python = Python(str: Value -> string, float: string -> Option<Float>)

  datatype KindMember = KindName(kind: Kind) | NotText

  /** A parsed spool payload: each member the decoder looks at, None where the object lacks it. */
  datatype Payload =
    | NotObject
    | Object(
        kind: Option<KindMember>,
        path: Option<Value>,
        content: Option<Value>,
        robot: Option<Value>,
        iface: Option<Value>,
        view: Option<Value>,
        oversized: Option<Value>,
        rn: Option<Value>,
        anomalous: Option<Value>,
        et: Option<Value>,
        expiresAt: Option<Value>)

  const LABELS := "labels"

  /** What JSON text makes of a value: tuples become lists, and bytes cannot be written (None). */
  function ThroughJson(v: Value): (r: Option<Value>)
    decreases v
  {
    match v
    case Bytes(_) => None
    case List(items) =>
      if forall i :: 0 <= i < |items| ==> ThroughJson(items[i]).Some? then
        Some(List(seq(|items|, i requires 0 <= i < |items| => ThroughJson(items[i]).value)))
      else None
    case Tuple(items) =>
      if forall i :: 0 <= i < |items| ==> ThroughJson(items[i]).Some? then
        Some(List(seq(|items|, i requires 0 <= i < |items| => ThroughJson(items[i]).value)))
      else None
    case Dict(d) =>
      if forall k :: k in d ==> ThroughJson(d[k]).Some? then
        Some(Dict(map k | k in d :: ThroughJson(d[k]).value))
      else None
    case _ => Some(v)
  }

  function TextOrNull(s: Option<string>): (v: Value) {
    if s.None? then Null else Str(s.value)
  }

  /**
    encode_operation: None where json.dumps raises TypeError. Only the content can hold what JSON cannot: the
    other members are texts, flags or absent, and a number.
  */
  function Encode(op: Op): (p: Option<Payload>) {
    var content :- ThroughJson(op.content);
    Some(Object(
      Some(KindName(op.kind)), Some(Str(op.path)), Some(content),
      Some(TextOrNull(op.robot)), Some(TextOrNull(op.iface)), Some(TextOrNull(op.view)),
      Some(op.oversized), Some(op.rn), Some(op.anomalous), Some(op.et),
      Some(if op.expiresAt.None? then Null else Flt(op.expiresAt.value))))
  }

  /** Position of the first colon, |s| without one. */
  function ColonAt(s: string): (i: nat)
    ensures i <= |s|
    ensures i < |s| ==> s[i] == ':'
    ensures forall j :: 0 <= j < i ==> s[j] != ':'
  {
    if s == [] || s[0] == ':' then 0 else 1 + ColonAt(s[1..])
  }

  /** key.split(":", 2), when that gives three parts. */
  function SplitKey(key: string): (parts: Option<(string, string, string)>) {
    var i := ColonAt(key);
    if i == |key| then None
    else
      var rest := key[i + 1..];
      var j := ColonAt(rest);
      if j == |rest| then None else Some((key[..i], rest[..j], rest[j + 1..]))
  }

  function JoinKey(robot: string, iface: string, view: string): (key: string) {
    robot + ":" + iface + ":" + view
  }

  function ToExpiry(v: Value, py: Python): (r: Option<Option<Float>>) {
    match v
    case Null => Some(None)
    case Flt(f) => if f.Finite? then Some(Some(f)) else None
    case Int(i) => Some(Some(Finite(i as real)))
    case Bool(b) => Some(Some(Finite(if b then 1.0 else 0.0)))
    case Str(s) =>
      var f :- py.float(s);
      if f.Finite? then Some(Some(f)) else None
    case _ => None
  }

  function Member(v: Option<Value>, default: Value): (r: Value) {
    if v.None? then default else v.value
  }

  function Identity(v: Option<Value>, default: string, py: Python): (s: string) {
    if v.None? then default else if v.value.Str? then v.value.s else py.str(v.value)
  }

  /** decode_operation of a row's payload, class and key; None where it raises ValueError or TypeError. */
  function Decode(p: Payload, queueClass: QueueClass, key: Option<string>, py: Python): (op: Option<Op>) {
    if p.NotObject? || p.kind == Some(NotText) then None
    else if p.path.None? || !p.path.value.Str? || p.content.None? || !p.content.value.Dict? then None
    else
      var path, content := p.path.value.s, p.content.value;
      if p.kind == Some(KindName(UpdateLbl)) && !(LABELS in content.dict && content.dict[LABELS].List?) then None
      else
        var split := SplitKey(if key.None? then "" else key.value);
        var (robot, iface, view) := if split.Some? then split.value else ("-", path, "-");
        var expiresAt :- ToExpiry(Member(p.expiresAt, Null), py);
        Some(Op(
          if p.kind.None? then CreateCin else p.kind.value.kind,
          path, content,
          Some(Identity(p.robot, robot, py)), Some(Identity(p.iface, iface, py)), Some(Identity(p.view, view, py)),
          queueClass,
          Member(p.oversized, Bool(false)), Member(p.rn, Null), Member(p.anomalous, Bool(false)),
          Member(p.et, Null), expiresAt))
  }

  /**
    What a caller can check of an operation before handing it over: it names its robot, interface and view,
    its expiry is finite, a label update carries a list of labels, and its content is a JSON object.
  */
  ghost predicate Storable(op: Op) {
    && op.robot.Some? && op.iface.Some? && op.view.Some?
    && (op.expiresAt.Some? ==> op.expiresAt.value.Finite?)
    && op.content.Dict?
    && (op.kind == UpdateLbl ==> LABELS in op.content.dict && op.content.dict[LABELS].List?)
    && IsJson(op.content)
  }

  /** JSON text keeps exactly the values without tuples and bytes. */
  lemma {:induction false} JsonKeepsExactly(v: Value)
    ensures ThroughJson(v) == Some(v) <==> IsJson(v)
    decreases v
  {
    match v
    case List(items) =>
      forall i | 0 <= i < |items| ensures ThroughJson(items[i]) == Some(items[i]) <==> IsJson(items[i]) {
        JsonKeepsExactly(items[i]);
      }
      if ThroughJson(v) == Some(v) {
        forall i | 0 <= i < |items| ensures IsJson(items[i]) {
          assert ThroughJson(v).value.items[i] == ThroughJson(items[i]).value;
        }
      }
      if IsJson(v) {
        assert ThroughJson(v).Some? && ThroughJson(v).value.items == items;
      }
    case Dict(d) =>
      forall k | k in d ensures ThroughJson(d[k]) == Some(d[k]) <==> IsJson(d[k]) {
        JsonKeepsExactly(d[k]);
      }
      if ThroughJson(v) == Some(v) {
        forall k | k in d ensures IsJson(d[k]) {
          assert ThroughJson(v).value.dict[k] == ThroughJson(d[k]).value;
        }
      }
      if IsJson(v) {
        assert ThroughJson(v).Some? && ThroughJson(v).value.dict == d;
      }
    case _ =>
  }

  /** JSON text can be made of exactly the values that hold no bytes. */
  lemma {:induction false} WritableIff(v: Value)
    ensures ThroughJson(v).Some? <==> NoBytes(v)
    decreases v
  {
    match v
    case List(items) =>
      forall i | 0 <= i < |items| ensures ThroughJson(items[i]).Some? <==> NoBytes(items[i]) {
        WritableIff(items[i]);
      }
    case Tuple(items) =>
      forall i | 0 <= i < |items| ensures ThroughJson(items[i]).Some? <==> NoBytes(items[i]) {
        WritableIff(items[i]);
      }
    case Dict(d) =>
      forall k | k in d ensures ThroughJson(d[k]).Some? <==> NoBytes(d[k]) {
        WritableIff(d[k]);
      }
    case _ =>
  }

  /**
    A spooled operation is restored unchanged, so with the same order key, exactly if it is storable. The
    row's key column plays no part: the payload carries the identity.
  */
  lemma RestoredIffStorable(op: Op, key: Option<string>, py: Python)
    ensures (Encode(op).Some? && Decode(Encode(op).value, op.queueClass, key, py) == Some(op)) <==> Storable(op)
  {
    JsonKeepsExactly(op.content);
  }

  /** An operation without a robot comes back under another order key: it is no longer global. */
  lemma NamelessLosesItsKey(op: Op, key: Option<string>, py: Python)
    requires op.robot.None? && Encode(op).Some? && Decode(Encode(op).value, op.queueClass, key, py).Some?
    ensures OrderKeyOf(op) == Global
    ensures OrderKeyOf(Decode(Encode(op).value, op.queueClass, key, py).value).Interface?
  {
  }

  ghost predicate NoColon(s: string) {
    forall i :: 0 <= i < |s| ==> s[i] != ':'
  }

  lemma {:induction false} ColonAtOf(s: string, i: nat)
    requires i < |s| && s[i] == ':' && NoColon(s[..i])
    ensures ColonAt(s) == i
  {
  }

  lemma JoinedParts(robot: string, iface: string, view: string)
    ensures var key, n := JoinKey(robot, iface, view), |robot|;
            && n + 1 + |iface| < |key| && key[n] == ':' && key[..n] == robot
            && key[n + 1..] == iface + ":" + view && key[n + 1 + |iface|] == ':'
    ensures var rest := iface + ":" + view;
            rest[|iface|] == ':' && rest[..|iface|] == iface && rest[|iface| + 1..] == view
  {
  }

  lemma KeySplitsIff(robot: string, iface: string, view: string)
    ensures SplitKey(JoinKey(robot, iface, view)).Some?
    ensures SplitKey(JoinKey(robot, iface, view)) == Some((robot, iface, view)) <==> NoColon(robot) && NoColon(iface)
  {
    var key, n := JoinKey(robot, iface, view), |robot|;
    JoinedParts(robot, iface, view);
    if NoColon(robot) && NoColon(iface) {
      ColonAtOf(key, n);
      ColonAtOf(key[n + 1..], |iface|);
    }
    SecondColon(key, ColonAt(key), n + 1 + |iface|);
  }

  lemma SecondColon(key: string, i: nat, j: nat)
    requires i < j < |key| && key[j] == ':'
    ensures ColonAt(key[i + 1..]) < |key[i + 1..]|
  {
    assert key[i + 1..][j - i - 1] == ':';
  }

  /** An old row carries no identity in its payload. */
  predicate Legacy(p: Payload) {
    p.Object? && p.robot.None? && p.iface.None? && p.view.None?
  }

  /**
    An old row, whose identity is only in its key, is decoded to an operation of the interface and view it was
    stored for exactly if robot and interface have no colon.
  */
  lemma LegacyKeySplitsIff(p: Payload, cls: QueueClass, robot: string, iface: string, view: string, py: Python)
    requires Legacy(p) && Decode(p, cls, Some(JoinKey(robot, iface, view)), py).Some?
    ensures var op := Decode(p, cls, Some(JoinKey(robot, iface, view)), py).value;
            op.robot == Some(robot) && op.iface == Some(iface) && op.view == Some(view)
            <==> NoColon(robot) && NoColon(iface)
  {
    KeySplitsIff(robot, iface, view);
  }

  /* ---- rows that others wrote ---- */

  /** float(expires_at): a finite number, 0 or 1 for a flag, a text that reads as a finite number; none for null. */
  predicate IsExpiry(v: Value, py: Python, e: Option<Float>) {
    match v
    case Null => e.None?
    case Int(i) => e == Some(Finite(i as real))
    case Bool(b) => e == Some(Finite(if b then 1.0 else 0.0))
    case Flt(f) => e == Some(f) && f != NaN && f != PosInf && f != NegInf
    case Str(s) => e.Some? && py.float(s) == e && e.value.Finite?
    case _ => false
  }

  lemma ExpiryIs(v: Value, py: Python)
    ensures ToExpiry(v, py).Some? ==> IsExpiry(v, py, ToExpiry(v, py).value)
    ensures ToExpiry(v, py).None? ==> forall e :: !IsExpiry(v, py, e)
  {
  }

  /** A path and an object as content, labels if the kind needs them, kind and expiry missing or good. */
  predicate Readable(p: Payload, py: Python) {
    && p.Object? && p.kind != Some(NotText)
    && p.path.Some? && p.path.value.Str? && p.content.Some? && p.content.value.Dict?
    && (p.kind == Some(KindName(UpdateLbl)) ==>
          "labels" in p.content.value.dict && p.content.value.dict["labels"].List?)
    && (p.expiresAt.Some? ==>
          match p.expiresAt.value
          case Null => true
          case Int(_) => true
          case Bool(_) => true
          case Flt(f) => f.Finite?
          case Str(s) => py.float(s).Some? && py.float(s).value.Finite?
          case _ => false)
  }

  /** A row is decoded exactly if it is readable. */
  lemma DecodedIff(p: Payload, cls: QueueClass, key: Option<string>, py: Python)
    ensures Decode(p, cls, key, py).Some? <==> Readable(p, py)
  {
  }

  /**
    What a row names is taken as it is; a kind or a flag it lacks is that of a plain creation; an identity it lacks
    is the path, between dashes, where its key has none.
  */
  lemma DecodedFields(p: Payload, cls: QueueClass, key: Option<string>, py: Python)
    requires Decode(p, cls, key, py).Some?
    ensures var op := Decode(p, cls, key, py).value;
            && p.path == Some(Str(op.path)) && p.content == Some(op.content) && op.queueClass == cls
            && (if p.kind.Some? then p.kind == Some(KindName(op.kind)) else op.kind == CreateCin)
            && op.rn == (if p.rn.Some? then p.rn.value else Null)
            && op.et == (if p.et.Some? then p.et.value else Null)
            && op.oversized == (if p.oversized.Some? then p.oversized.value else Bool(false))
            && op.anomalous == (if p.anomalous.Some? then p.anomalous.value else Bool(false))
            && IsExpiry(if p.expiresAt.Some? then p.expiresAt.value else Null, py, op.expiresAt)
    ensures var op := Decode(p, cls, key, py).value;
            && (forall s :: p.robot == Some(Str(s)) ==> op.robot == Some(s))
            && (forall s :: p.iface == Some(Str(s)) ==> op.iface == Some(s))
            && (forall s :: p.view == Some(Str(s)) ==> op.view == Some(s))
            && (key.None? && p.robot.None? ==> op.robot == Some("-"))
            && (key.None? && p.iface.None? ==> op.iface == Some(op.path))
            && (key.None? && p.view.None? ==> op.view == Some("-"))
  {
    if p.kind.Some? {
      assert p.kind.value.KindName? && p.kind.value == KindName(p.kind.value.kind);
    }
    if p.expiresAt.Some? {
      ExpiryIs(p.expiresAt.value, py);
    } else {
      ExpiryIs(Null, py);
    }
  }
}
