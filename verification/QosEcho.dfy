/** The printed cf* attributes parse back, and a partial update touches only what it names. */
module QosEcho {
  import opened Wrappers
  import opened Values
  import opened QosModel
  import opened QosCodec

  /* ---- the parser, field by field ---- */

  ghost predicate SpelledAt(payload: Record, short: Key, a: Name, b: Name) {
    short in payload ==> Spelled(payload[short], a, b).Some?
  }

  ghost predicate MsAt(payload: Record, short: Key) {
    short in payload ==> ReadMs(payload[short]).Ok?
  }

  ghost predicate DepthAt(payload: Record) {
    CfDpt in payload ==> payload[CfDpt].Int? && payload[CfDpt].i >= 1
  }

  /** Every cf* attribute of the payload is in its domain. */
  ghost predicate InDomain(payload: Record) {
    && SpelledAt(payload, CfRlb, Reliable, BestEffort)
    && SpelledAt(payload, CfDrb, Volatile, TransientLocal)
    && SpelledAt(payload, CfHst, KEEP_LAST, KEEP_ALL)
    && SpelledAt(payload, CfLiv, Automatic, ManualByTopic)
    && DepthAt(payload)
    && MsAt(payload, CfDdl) && MsAt(payload, CfLsp) && MsAt(payload, CfLse)
  }

  ghost function NameOr(payload: Record, short: Key, a: Name, b: Name, unset: Name): (n: Name)
    requires SpelledAt(payload, short, a, b)
  {
    if short in payload then Spelled(payload[short], a, b).value else unset
  }

  ghost function MsOr(payload: Record, short: Key, unset: Option<int>): (ms: Option<int>)
    requires MsAt(payload, short)
  {
    if short in payload then ReadMs(payload[short]).value else unset
  }

  /** The base with every attribute that the payload names replaced. */
  ghost function Merged(payload: Record, base: QoSSpec): (s: QoSSpec)
    requires InDomain(payload)
  {
    QoSSpec(
      NameOr(payload, CfRlb, Reliable, BestEffort, base.reliability),
      NameOr(payload, CfDrb, Volatile, TransientLocal, base.durability),
      Text(NameOr(payload, CfHst, KEEP_LAST, KEEP_ALL, Other(base.history))),
      if CfDpt in payload then payload[CfDpt].i else base.depth,
      MsOr(payload, CfDdl, base.deadlineMs),
      MsOr(payload, CfLsp, base.lifespanMs),
      NameOr(payload, CfLiv, Automatic, ManualByTopic, base.liveliness),
      MsOr(payload, CfLse, base.leaseMs),
      base.profile)
  }

  lemma {:induction false} EnumAt(payload: Record, rows: seq<EnumRow>, i: nat)
    requires i < |rows| && forall j, k :: 0 <= j < k < |rows| ==> rows[j].field != rows[k].field
    ensures ReadEnums(payload, rows).Ok? ==>
              var u := ReadEnums(payload, rows).value;
              && SpelledAt(payload, rows[i].short, rows[i].first, rows[i].second)
              && (rows[i].field in u <==> rows[i].short in payload)
              && (rows[i].short in payload ==>
                    u[rows[i].field]
                    == SettingOf(rows[i].field, Spelled(payload[rows[i].short], rows[i].first, rows[i].second).value))
  {
    var n := |rows| - 1;
    if i < n {
      EnumAt(payload, rows[..n], i);
    } else {
      EnumElsewhere(payload, rows[..n], rows[n].field);
    }
  }

  lemma {:induction false} EnumElsewhere(payload: Record, rows: seq<EnumRow>, f: Field)
    requires forall i :: 0 <= i < |rows| ==> rows[i].field != f
    ensures ReadEnums(payload, rows).Ok? ==> f !in ReadEnums(payload, rows).value
  {
    if rows == [] {
    } else {
      EnumElsewhere(payload, rows[..|rows| - 1], f);
    }
  }

  lemma {:induction false} EnumsAccepted(payload: Record, rows: seq<EnumRow>)
    requires forall i :: 0 <= i < |rows| ==> SpelledAt(payload, rows[i].short, rows[i].first, rows[i].second)
    ensures ReadEnums(payload, rows).Ok?
  {
    if rows == [] {
    } else {
      var n := |rows| - 1;
      EnumsAccepted(payload, rows[..n]);
      assert SpelledAt(payload, rows[n].short, rows[n].first, rows[n].second);
    }
  }

  lemma {:induction false} DurationAt(payload: Record, u0: Updates, rows: seq<DurationRow>, i: nat)
    requires i < |rows| && forall j, k :: 0 <= j < k < |rows| ==> rows[j].field != rows[k].field
    requires rows[i].field !in u0
    ensures ReadDurations(payload, u0, rows).Ok? ==>
              var u := ReadDurations(payload, u0, rows).value;
              && MsAt(payload, rows[i].short)
              && (rows[i].field in u <==> rows[i].short in payload)
              && (rows[i].short in payload ==> u[rows[i].field] == ToMs(ReadMs(payload[rows[i].short]).value))
  {
    var n := |rows| - 1;
    if i < n {
      DurationAt(payload, u0, rows[..n], i);
    } else {
      DurationElsewhere(payload, u0, rows[..n], rows[n].field);
    }
  }

  lemma {:induction false} DurationElsewhere(payload: Record, u0: Updates, rows: seq<DurationRow>, f: Field)
    requires forall i :: 0 <= i < |rows| ==> rows[i].field != f
    ensures ReadDurations(payload, u0, rows).Ok? ==>
              var u := ReadDurations(payload, u0, rows).value;
              (f in u <==> f in u0) && (f in u ==> u[f] == u0[f])
  {
    if rows == [] {
    } else {
      DurationElsewhere(payload, u0, rows[..|rows| - 1], f);
    }
  }

  lemma {:induction false} DurationsAccepted(payload: Record, u0: Updates, rows: seq<DurationRow>)
    requires forall i :: 0 <= i < |rows| ==> MsAt(payload, rows[i].short)
    ensures ReadDurations(payload, u0, rows).Ok?
  {
    if rows == [] {
    } else {
      var n := |rows| - 1;
      DurationsAccepted(payload, u0, rows[..n]);
      assert MsAt(payload, rows[n].short);
    }
  }

  lemma EnumTable()
    ensures |ENUM_ROWS| == 4
    ensures ENUM_ROWS[0] == EnumRow(CfRlb, RlbField, Reliable, BestEffort)
    ensures ENUM_ROWS[1] == EnumRow(CfDrb, DrbField, Volatile, TransientLocal)
    ensures ENUM_ROWS[2] == EnumRow(CfHst, HstField, KEEP_LAST, KEEP_ALL)
    ensures ENUM_ROWS[3] == EnumRow(CfLiv, LivField, Automatic, ManualByTopic)
  {
  }

  lemma DurationTable()
    ensures |DURATION_ROWS| == 3
    ensures DURATION_ROWS[0] == DurationRow(CfDdl, DdlField)
    ensures DURATION_ROWS[1] == DurationRow(CfLsp, LspField)
    ensures DURATION_ROWS[2] == DurationRow(CfLse, LseField)
  {
  }

  /** The collected settings are those of the fields the payload names. */
  lemma UpdatesOfDomain(payload: Record)
    ensures ReadUpdates(payload).Ok? <==> InDomain(payload)
  {
    EnumTable();
    DurationTable();
    var enums := ReadEnums(payload, ENUM_ROWS);
    if InDomain(payload) {
      EnumsAccepted(payload, ENUM_ROWS);
      var depth := ReadDepth(payload, enums.value);
      DurationsAccepted(payload, depth.value, DURATION_ROWS);
    }
    if ReadUpdates(payload).Ok? {
      EnumAt(payload, ENUM_ROWS, 0);
      EnumAt(payload, ENUM_ROWS, 1);
      EnumAt(payload, ENUM_ROWS, 2);
      EnumAt(payload, ENUM_ROWS, 3);
      NoDurationYet(payload);
      var u0 := ReadDepth(payload, enums.value).value;
      DurationAt(payload, u0, DURATION_ROWS, 0);
      DurationAt(payload, u0, DURATION_ROWS, 1);
      DurationAt(payload, u0, DURATION_ROWS, 2);
    }
  }

  lemma NoDurationYet(payload: Record)
    ensures ReadEnums(payload, ENUM_ROWS).Ok? ==>
              forall f :: f in {DptField, DdlField, LspField, LseField} ==> f !in ReadEnums(payload, ENUM_ROWS).value
  {
    EnumTable();
    EnumElsewhere(payload, ENUM_ROWS, DptField);
    EnumElsewhere(payload, ENUM_ROWS, DdlField);
    EnumElsewhere(payload, ENUM_ROWS, LspField);
    EnumElsewhere(payload, ENUM_ROWS, LseField);
  }

  lemma UpdatesMerge(payload: Record, base: QoSSpec)
    requires ReadUpdates(payload).Ok? && InDomain(payload)
    ensures Replace(base, ReadUpdates(payload).value) == Merged(payload, base)
  {
    EnumTable();
    DurationTable();
    NoDurationYet(payload);
    var u := ReadUpdates(payload).value;
    var u0 := ReadDepth(payload, ReadEnums(payload, ENUM_ROWS).value).value;
    forall f | f in {RlbField, DrbField, HstField, LivField, DptField}
      ensures (f in u <==> f in u0) && (f in u ==> u[f] == u0[f])
    {
      DurationElsewhere(payload, u0, DURATION_ROWS, f);
    }
    EnumAt(payload, ENUM_ROWS, 0);
    EnumAt(payload, ENUM_ROWS, 1);
    EnumAt(payload, ENUM_ROWS, 2);
    EnumAt(payload, ENUM_ROWS, 3);
    DurationAt(payload, u0, DURATION_ROWS, 0);
    DurationAt(payload, u0, DURATION_ROWS, 1);
    DurationAt(payload, u0, DURATION_ROWS, 2);
  }

  lemma ParsedIsMerged(payload: Record, base: QoSSpec)
    ensures Parsed(payload, base).Ok? <==> InDomain(payload) && !LeaseMissing(Merged(payload, base))
    ensures Parsed(payload, base).Ok? ==> Parsed(payload, base) == Ok(Merged(payload, base))
  {
    UpdatesOfDomain(payload);
    if InDomain(payload) {
      UpdatesMerge(payload, base);
    }
  }

  /* ---- valid specs ---- */

  predicate OneOf(n: Name, a: Name, b: Name) {
    n == a || n == b
  }

  predicate ValidMs(ms: Option<int>) {
    ms.Some? ==> ms.value >= 0
  }

  /** What the configuration schema admits. */
  predicate Valid(s: QoSSpec) {
    && OneOf(s.reliability, Reliable, BestEffort)
    && OneOf(s.durability, Volatile, TransientLocal)
    && OneOf(Other(s.history), KEEP_LAST, KEEP_ALL)
    && OneOf(s.liveliness, Automatic, ManualByTopic)
    && s.depth >= 1
    && ValidMs(s.deadlineMs) && ValidMs(s.lifespanMs) && ValidMs(s.leaseMs)
    && !LeaseMissing(s)
  }

  lemma UpperOfUpper(s: string)
    requires forall i :: 0 <= i < |s| ==> !('a' <= s[i] <= 'z')
    ensures Upper(s) == s
  {
  }

  /** The two names of a policy have texts of their own that are already in upper case. */
  ghost predicate PolicyNames(a: Name, b: Name) {
    a != b && Upper(Text(a)) == Text(a) && Upper(Text(b)) == Text(b) && Text(a) != Text(b)
  }

  lemma AllPolicyNames()
    ensures PolicyNames(Reliable, BestEffort)
    ensures PolicyNames(Volatile, TransientLocal)
    ensures PolicyNames(KEEP_LAST, KEEP_ALL)
    ensures PolicyNames(Automatic, ManualByTopic)
  {
  }

  /** A printed name reads back exactly when the policy allows it. */
  lemma NameReadsBack(a: Name, b: Name, n: Name)
    requires PolicyNames(a, b)
    ensures Spelled(Str(Text(n)), a, b) == Some(n) <==> OneOf(n, a, b)
  {
  }

  /** A printed duration reads back exactly when it is not negative. */
  lemma MsReadsBack(ms: Option<int>)
    ensures ReadMs(InfMs(ms)) == Ok(ms) <==> ValidMs(ms)
  {
    match ms
    case None => UpperOfUpper("INF");
    case Some(n) =>
      var s := PrintInt(n);
      if n >= 0 {
        DigitsOfPrintNat(n);
        assert IsDigit(s[0]) && Upper(s)[0] == s[0];
        assert Upper(s) != "INF";
      } else {
        assert s[0] == '-' && Upper(s)[0] == '-';
        assert Upper(s) != "INF" && !IsDigits(s);
      }
  }

  /** The payload carries all the printed attributes, possibly among others. */
  ghost predicate Carries(payload: Record, spec: QoSSpec) {
    forall k :: k in Axes(spec) ==> k in payload && payload[k] == Axes(spec)[k]
  }

  lemma CarriedAttributes(spec: QoSSpec, payload: Record)
    requires Carries(payload, spec)
    ensures forall k :: k in {CfRlb, CfDrb, CfHst, CfDpt, CfDdl, CfLsp, CfLiv, CfLse} ==> k in payload
    ensures payload[CfRlb] == Str(Text(spec.reliability)) && payload[CfDrb] == Str(Text(spec.durability))
    ensures payload[CfHst] == Str(Text(Other(spec.history))) && payload[CfLiv] == Str(Text(spec.liveliness))
    ensures payload[CfDpt] == Int(spec.depth)
    ensures payload[CfDdl] == InfMs(spec.deadlineMs)
    ensures payload[CfLsp] == InfMs(spec.lifespanMs)
    ensures payload[CfLse] == InfMs(spec.leaseMs)
  {
    forall k | k in {CfRlb, CfDrb, CfHst, CfDpt, CfDdl, CfLsp, CfLiv, CfLse}
      ensures k in payload && payload[k] == Axes(spec)[k]
    {
      assert k in Axes(spec);
    }
  }

  /** Every cf* attribute of the payload reads as the spec has it. */
  ghost predicate ReadsAs(payload: Record, spec: QoSSpec) {
    && CfRlb in payload && Spelled(payload[CfRlb], Reliable, BestEffort) == Some(spec.reliability)
    && CfDrb in payload && Spelled(payload[CfDrb], Volatile, TransientLocal) == Some(spec.durability)
    && CfHst in payload && Spelled(payload[CfHst], KEEP_LAST, KEEP_ALL) == Some(Other(spec.history))
    && CfLiv in payload && Spelled(payload[CfLiv], Automatic, ManualByTopic) == Some(spec.liveliness)
    && CfDpt in payload && payload[CfDpt] == Int(spec.depth) && spec.depth >= 1
    && CfDdl in payload && ReadMs(payload[CfDdl]) == Ok(spec.deadlineMs)
    && CfLsp in payload && ReadMs(payload[CfLsp]) == Ok(spec.lifespanMs)
    && CfLse in payload && ReadMs(payload[CfLse]) == Ok(spec.leaseMs)
  }

  lemma ReadsAsIffValid(spec: QoSSpec, payload: Record)
    requires Carries(payload, spec)
    ensures ReadsAs(payload, spec) && !LeaseMissing(spec) <==> Valid(spec)
  {
    CarriedAttributes(spec, payload);
    AllPolicyNames();
    NameReadsBack(Reliable, BestEffort, spec.reliability);
    NameReadsBack(Volatile, TransientLocal, spec.durability);
    NameReadsBack(KEEP_LAST, KEEP_ALL, Other(spec.history));
    NameReadsBack(Automatic, ManualByTopic, spec.liveliness);
    MsReadsBack(spec.deadlineMs);
    MsReadsBack(spec.lifespanMs);
    MsReadsBack(spec.leaseMs);
  }

  lemma FullRecordMerges(spec: QoSSpec, base: QoSSpec, payload: Record)
    requires forall k :: k in {CfRlb, CfDrb, CfHst, CfDpt, CfDdl, CfLsp, CfLiv, CfLse} ==> k in payload
    ensures InDomain(payload) && Merged(payload, base) == spec.(profile := base.profile)
       <==> ReadsAs(payload, spec)
  {
  }

  /**
    A record that carries the printed attributes of `spec` parses, over any base, to `spec` under the profile
    of the base; and it does so exactly for the valid specs.
  */
  lemma PrintedSpecParsesBack(spec: QoSSpec, base: QoSSpec, payload: Record)
    requires Carries(payload, spec)
    ensures Parsed(payload, base) == Ok(spec.(profile := base.profile)) <==> Valid(spec)
  {
    ParsedIsMerged(payload, base);
    CarriedAttributes(spec, payload);
    ReadsAsIffValid(spec, payload);
    FullRecordMerges(spec, base, payload);
  }

  /* ---- the echo guard ---- */

  datatype Outcome = Rejected | Unchanged | Rebind(candidate: QoSSpec)

  /**
    The decision of _dispatch_qos_update before it touches an endpoint: updates must be allowed, and the
    interface bound (base is its record).
  */
  ghost function Decide(allowed: bool, base: Option<QoSSpec>, payload: Record): (o: Outcome) {
    if !allowed || base.None? then Rejected
    else
      match Parsed(payload, base.value)
      case Err(_) => Rejected
      case Ok(candidate) => if candidate == base.value then Unchanged else Rebind(candidate)
  }

  /**
    The notification of the bridge's own record never rebinds; and it is rejected exactly if updates are not
    allowed.
  */
  lemma OwnRecordIsUnchanged(allowed: bool, base: QoSSpec, payload: Record)
    requires Valid(base) && Carries(payload, base)
    ensures Decide(allowed, Some(base), payload) == if allowed then Unchanged else Rejected
  {
    PrintedSpecParsesBack(base, base, payload);
  }

  /* ---- partial updates ---- */

  function FieldsInUpdate(payload: Record): (fields: set<Field>) {
    (if CfRlb in payload then {RlbField} else {}) + (if CfDrb in payload then {DrbField} else {})
    + (if CfHst in payload then {HstField} else {}) + (if CfLiv in payload then {LivField} else {})
    + (if CfDdl in payload then {DdlField} else {}) + (if CfLsp in payload then {LspField} else {})
    + (if CfLse in payload then {LseField} else {}) + (if CfDpt in payload then {DptField} else {})
  }

  function Get(s: QoSSpec, f: Field): (x: Setting) {
    match f
    case RlbField => ToName(s.reliability)
    case DrbField => ToName(s.durability)
    case HstField => ToText(s.history)
    case LivField => ToName(s.liveliness)
    case DptField => ToCount(s.depth)
    case DdlField => ToMs(s.deadlineMs)
    case LspField => ToMs(s.lifespanMs)
    case LseField => ToMs(s.leaseMs)
  }

  lemma SpelledIsOneOf(v: Value, a: Name, b: Name)
    ensures Spelled(v, a, b).Some? ==> OneOf(Spelled(v, a, b).value, a, b)
  {
  }

  /** An accepted update changes only the fields it names. */
  lemma UpdateIsLocal(payload: Record, base: QoSSpec, f: Field)
    requires Parsed(payload, base).Ok? && f !in FieldsInUpdate(payload)
    ensures Get(Parsed(payload, base).value, f) == Get(base, f)
    ensures Parsed(payload, base).value.profile == base.profile
  {
    ParsedIsMerged(payload, base);
    match f
    case RlbField =>
    case DrbField =>
    case HstField =>
    case LivField =>
    case DptField =>
    case DdlField =>
    case LspField =>
    case LseField =>
  }

  /** An accepted update keeps a valid spec valid. */
  lemma UpdateKeepsValid(payload: Record, base: QoSSpec)
    requires Parsed(payload, base).Ok? && Valid(base)
    ensures Valid(Parsed(payload, base).value)
  {
    ParsedIsMerged(payload, base);
    if CfRlb in payload { SpelledIsOneOf(payload[CfRlb], Reliable, BestEffort); }
    if CfDrb in payload { SpelledIsOneOf(payload[CfDrb], Volatile, TransientLocal); }
    if CfHst in payload { SpelledIsOneOf(payload[CfHst], KEEP_LAST, KEEP_ALL); }
    if CfLiv in payload { SpelledIsOneOf(payload[CfLiv], Automatic, ManualByTopic); }
    var c := Merged(payload, base);
    assert OneOf(c.reliability, Reliable, BestEffort) && OneOf(c.durability, Volatile, TransientLocal);
    assert OneOf(Other(c.history), KEEP_LAST, KEEP_ALL) && OneOf(c.liveliness, Automatic, ManualByTopic);
  }

  /** An accepted update is already in force when it arrives again. */
  lemma UpdateIsIdempotent(payload: Record, base: QoSSpec)
    requires Parsed(payload, base).Ok?
    ensures Decide(true, Some(Parsed(payload, base).value), payload) == Unchanged
  {
  }
}
