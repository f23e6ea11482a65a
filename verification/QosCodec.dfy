/**
  The cf* attributes of a QoS record: the printer of qos/codec.py, the parser of qos/requests.py
  and the echo guard of runtime/inbound.py.
*/
module QosCodec {
  import opened Wrappers
  import opened Values
  import opened QosModel

  /** Attribute names: the cf* short names, and everything else a record may hold. */
  datatype Key = CfRlb | CfDrb | CfHst | CfDpt | CfDdl | CfLsp | CfLiv | CfLse | OtherKey(name: string)

  type Record = map<Key, Value>

  /** Why an update is refused: an attribute out of its domain, or rule B8. */
  datatype Refusal = OutOfDomain(key: Key) | LeaseRequired

  /* ---- text of the policy names ---- */

  function Text(n: Name): (s: string) {
    match n
    case BestEffort => "BEST_EFFORT"
    case Reliable => "RELIABLE"
    case Volatile => "VOLATILE"
    case TransientLocal => "TRANSIENT_LOCAL"
    case Automatic => "AUTOMATIC"
    case ManualByTopic => "MANUAL_BY_TOPIC"
    case Other(text) => text
  }

  function UpperChar(c: char): (u: char) {
    if 'a' <= c <= 'z' then (c as int - 32) as char else c
  }

  /** str.upper() for ASCII text. */
  function Upper(s: string): (u: string)
    ensures |u| == |s|
  {
    seq(|s|, i requires 0 <= i < |s| => UpperChar(s[i]))
  }

  /* ---- printer ---- */

  function InfMs(ms: Option<int>): (v: Value) {
    match ms
    case None => Str("INF")
    case Some(n) => Str(PrintInt(n))
  }

  function Axes(spec: QoSSpec): (rec: Record) {
    map[
      CfRlb := Str(Text(spec.reliability)),
      CfDrb := Str(Text(spec.durability)),
      CfHst := Str(spec.history),
      CfDpt := Int(spec.depth),
      CfDdl := InfMs(spec.deadlineMs),
      CfLsp := InfMs(spec.lifespanMs),
      CfLiv := Str(Text(spec.liveliness)),
      CfLse := InfMs(spec.leaseMs)]
  }

  /* ---- parser ---- */

  datatype Field = RlbField | DrbField | HstField | LivField | DptField | DdlField | LspField | LseField

  datatype Setting = ToName(name: Name) | ToText(text: string) | ToCount(count: int) | ToMs(ms: Option<int>)

  type Updates = map<Field, Setting>

  datatype EnumRow = EnumRow(short: Key, field: Field, first: Name, second: Name)
  datatype DurationRow = DurationRow(short: Key, field: Field)

  const KEEP_LAST := Other("KEEP_LAST")
  const KEEP_ALL := Other("KEEP_ALL")

  const ENUM_ROWS: seq<EnumRow> := [
    EnumRow(CfRlb, RlbField, Reliable, BestEffort),
    EnumRow(CfDrb, DrbField, Volatile, TransientLocal),
    EnumRow(CfHst, HstField, KEEP_LAST, KEEP_ALL),
    EnumRow(CfLiv, LivField, Automatic, ManualByTopic)]

  const DURATION_ROWS: seq<DurationRow> := [
    DurationRow(CfDdl, DdlField),
    DurationRow(CfLsp, LspField),
    DurationRow(CfLse, LseField)]

  /** The allowed name that a value spells; only a string can spell one. */
  function Spelled(v: Value, a: Name, b: Name): (n: Option<Name>) {
    if !v.Str? then None
    else if Upper(v.s) == Text(a) then Some(a)
    else if Upper(v.s) == Text(b) then Some(b)
    else None
  }

  function SettingOf(field: Field, n: Name): (s: Setting) {
    if field == HstField then ToText(Text(n)) else ToName(n)
  }

  function IsDigits(s: string): (b: bool)
    ensures b ==> AllDigits(s)
  {
    s != [] && forall i :: 0 <= i < |s| ==> IsDigit(s[i])
  }

  /** 'INF', a non-negative integer (not a bool), or a string of digits. */
  function ReadMs(v: Value): (ms: Result<Option<int>, ()>) {
    if v.Str? && Upper(v.s) == "INF" then Ok(None)
    else if v.Int? && v.i >= 0 then Ok(Some(v.i))
    else if v.Str? && IsDigits(v.s) then Ok(Some(DigitsValue(v.s)))
    else Err(())
  }

  /** dataclasses.replace with the collected settings. */
  function Replace(base: QoSSpec, u: Updates): (s: QoSSpec) {
    base.(
      reliability := if RlbField in u && u[RlbField].ToName? then u[RlbField].name else base.reliability,
      durability := if DrbField in u && u[DrbField].ToName? then u[DrbField].name else base.durability,
      history := if HstField in u && u[HstField].ToText? then u[HstField].text else base.history,
      liveliness := if LivField in u && u[LivField].ToName? then u[LivField].name else base.liveliness,
      depth := if DptField in u && u[DptField].ToCount? then u[DptField].count else base.depth,
      deadlineMs := if DdlField in u && u[DdlField].ToMs? then u[DdlField].ms else base.deadlineMs,
      lifespanMs := if LspField in u && u[LspField].ToMs? then u[LspField].ms else base.lifespanMs,
      leaseMs := if LseField in u && u[LseField].ToMs? then u[LseField].ms else base.leaseMs)
  }

  /** The enum loop: the settings of the given rows, or the short name that is out of its domain. */
  ghost function ReadEnums(payload: Record, rows: seq<EnumRow>): (r: Result<Updates, Refusal>) {
    if rows == [] then Ok(map[])
    else
      var n := |rows| - 1;
      match ReadEnums(payload, rows[..n])
      case Err(e) => Err(e)
      case Ok(u) =>
        if rows[n].short !in payload then Ok(u)
        else
          match Spelled(payload[rows[n].short], rows[n].first, rows[n].second)
          case None => Err(OutOfDomain(rows[n].short))
          case Some(name) => Ok(u[rows[n].field := SettingOf(rows[n].field, name)])
  }

  ghost function ReadDepth(payload: Record, u: Updates): (r: Result<Updates, Refusal>) {
    if CfDpt !in payload then Ok(u)
    else if payload[CfDpt].Int? && payload[CfDpt].i >= 1 then Ok(u[DptField := ToCount(payload[CfDpt].i)])
    else Err(OutOfDomain(CfDpt))
  }

  /** The duration loop, on top of the settings collected before it. */
  ghost function ReadDurations(payload: Record, u0: Updates, rows: seq<DurationRow>): (r: Result<Updates, Refusal>) {
    if rows == [] then Ok(u0)
    else
      var n := |rows| - 1;
      match ReadDurations(payload, u0, rows[..n])
      case Err(e) => Err(e)
      case Ok(u) =>
        if rows[n].short !in payload then Ok(u)
        else
          match ReadMs(payload[rows[n].short])
          case Err(_) => Err(OutOfDomain(rows[n].short))
          case Ok(ms) => Ok(u[rows[n].field := ToMs(ms)])
  }

  ghost function ReadUpdates(payload: Record): (r: Result<Updates, Refusal>) {
    var u :- ReadEnums(payload, ENUM_ROWS);
    var u' :- ReadDepth(payload, u);
    ReadDurations(payload, u', DURATION_ROWS)
  }

  /** A lease that can expire is required for manual liveliness. */
  predicate LeaseMissing(s: QoSSpec) {
    s.liveliness == ManualByTopic && s.leaseMs.None?
  }

  /** What parse_cf_update returns; an error names the attribute at fault. */
  ghost function Parsed(payload: Record, base: QoSSpec): (r: Result<QoSSpec, Refusal>) {
    var u :- ReadUpdates(payload);
    if LeaseMissing(Replace(base, u)) then Err(LeaseRequired) else Ok(Replace(base, u))
  }

  method ParseCfUpdate(payload: Record, base: QoSSpec) returns (r: Result<QoSSpec, Refusal>)
    ensures r == Parsed(payload, base)
  {
    var updates: Updates := map[];
    for i := 0 to |ENUM_ROWS|
      invariant ReadEnums(payload, ENUM_ROWS[..i]) == Ok(updates)
    {
      assert ENUM_ROWS[..i + 1][..i] == ENUM_ROWS[..i];
      var row := ENUM_ROWS[i];
      if row.short in payload {
        var name := Spelled(payload[row.short], row.first, row.second);
        if name.None? {
          FirstEnumError(payload, ENUM_ROWS, i);
          return Err(OutOfDomain(row.short));
        }
        updates := updates[row.field := SettingOf(row.field, name.value)];
      }
    }
    assert ENUM_ROWS[..|ENUM_ROWS|] == ENUM_ROWS;
    if CfDpt in payload {
      var d := payload[CfDpt];
      if !d.Int? || d.i < 1 {
        return Err(OutOfDomain(CfDpt));
      }
      updates := updates[DptField := ToCount(d.i)];
    }
    ghost var u0 := updates;
    for i := 0 to |DURATION_ROWS|
      invariant ReadDurations(payload, u0, DURATION_ROWS[..i]) == Ok(updates)
    {
      assert DURATION_ROWS[..i + 1][..i] == DURATION_ROWS[..i];
      var row := DURATION_ROWS[i];
      if row.short in payload {
        var ms := ReadMs(payload[row.short]);
        if ms.Err? {
          FirstDurationError(payload, u0, DURATION_ROWS, i);
          return Err(OutOfDomain(row.short));
        }
        updates := updates[row.field := ToMs(ms.value)];
      }
    }
    assert DURATION_ROWS[..|DURATION_ROWS|] == DURATION_ROWS;
    var candidate := Replace(base, updates);
    return if LeaseMissing(candidate) then Err(LeaseRequired) else Ok(candidate);
  }

  lemma {:induction false} FirstEnumError(payload: Record, rows: seq<EnumRow>, i: nat)
    requires i < |rows| && ReadEnums(payload, rows[..i]).Ok?
    requires rows[i].short in payload && Spelled(payload[rows[i].short], rows[i].first, rows[i].second).None?
    ensures ReadEnums(payload, rows) == Err(OutOfDomain(rows[i].short))
  {
    if i == |rows| - 1 {
    } else {
      assert rows[..|rows| - 1][..i] == rows[..i];
      FirstEnumError(payload, rows[..|rows| - 1], i);
    }
  }

  lemma {:induction false} FirstDurationError(payload: Record, u0: Updates, rows: seq<DurationRow>, i: nat)
    requires i < |rows| && ReadDurations(payload, u0, rows[..i]).Ok?
    requires rows[i].short in payload && ReadMs(payload[rows[i].short]).Err?
    ensures ReadDurations(payload, u0, rows) == Err(OutOfDomain(rows[i].short))
  {
    if i == |rows| - 1 {
    } else {
      assert rows[..|rows| - 1][..i] == rows[..i];
      FirstDurationError(payload, u0, rows[..|rows| - 1], i);
    }
  }
}
