/** The cf* attributes as they are written: which texts and numbers an update may hold, and what is printed. */
module QosText {
  import opened Wrappers
  import opened Values
  import opened QosModel
  import opened QosCodec
  import opened QosEcho

  /** The text is the given upper-case one, in letters of either case. */
  predicate Spells(v: Value, text: string) {
    v.Str? && |v.s| == |text|
    && forall i :: 0 <= i < |text| ==>
         var c := if 'a' <= v.s[i] <= 'z' then (v.s[i] as int - 'a' as int + 'A' as int) as char else v.s[i];
         c == text[i]
  }

  lemma UpperSpells(v: Value, text: string)
    ensures Spells(v, text) <==> v.Str? && Upper(v.s) == text
  {
    if v.Str? {
      var u := Upper(v.s);
      if Spells(v, text) {
        assert forall i :: 0 <= i < |u| ==> u[i] == text[i];
      }
    }
  }

  /** A duration: INF in letters of either case, a number that is not negative, or a text of digits. */
  predicate IsDuration(v: Value, ms: Option<int>) {
    match v
    case Int(i) => i >= 0 && ms == Some(i)
    case Str(s) =>
      if Spells(v, "INF") then ms.None?
      else s != [] && (forall i :: 0 <= i < |s| ==> '0' <= s[i] <= '9') && ms == Some(DigitsValue(s))
    case _ => false
  }

  lemma ReadMsIs(v: Value)
    ensures ReadMs(v).Ok? ==> IsDuration(v, ReadMs(v).value)
    ensures ReadMs(v).Err? ==> forall ms :: !IsDuration(v, ms)
    ensures IsDuration(v, None) <==> Spells(v, "INF")
  {
    UpperSpells(v, "INF");
  }

  /* ---- one attribute ---- */

  /** The attribute is missing, or spells one of the two texts. */
  predicate OneOfTexts(payload: Record, key: Key, a: string, b: string) {
    key in payload ==> Spells(payload[key], a) || Spells(payload[key], b)
  }

  ghost predicate IsDurationAt(payload: Record, key: Key) {
    key in payload ==> exists ms :: IsDuration(payload[key], ms)
  }

  lemma SpelledOne(v: Value, a: Name, b: Name, first: string, second: string)
    requires first == Text(a) && second == Text(b)
    ensures Spelled(v, a, b) == if Spells(v, first) then Some(a) else if Spells(v, second) then Some(b) else None
  {
    UpperSpells(v, first);
    UpperSpells(v, second);
  }

  lemma SpelledIs(payload: Record, key: Key, a: Name, b: Name, first: string, second: string)
    requires first == Text(a) && second == Text(b)
    ensures SpelledAt(payload, key, a, b) <==> OneOfTexts(payload, key, first, second)
    ensures key in payload && OneOfTexts(payload, key, first, second) ==>
              Spelled(payload[key], a, b) == Some(if Spells(payload[key], first) then a else b)
  {
    if key in payload {
      SpelledOne(payload[key], a, b, first, second);
    }
  }

  lemma MsIs(payload: Record, key: Key)
    ensures MsAt(payload, key) <==> IsDurationAt(payload, key)
    ensures key in payload && MsAt(payload, key) ==> IsDuration(payload[key], ReadMs(payload[key]).value)
  {
    if key in payload {
      ReadMsIs(payload[key]);
    }
  }

  /* ---- an update ---- */

  /** Every attribute that is there is written as it must be. */
  ghost predicate WellWritten(payload: Record) {
    && OneOfTexts(payload, CfRlb, "RELIABLE", "BEST_EFFORT")
    && OneOfTexts(payload, CfDrb, "VOLATILE", "TRANSIENT_LOCAL")
    && OneOfTexts(payload, CfHst, "KEEP_LAST", "KEEP_ALL")
    && OneOfTexts(payload, CfLiv, "AUTOMATIC", "MANUAL_BY_TOPIC")
    && (CfDpt in payload ==> payload[CfDpt].Int? && payload[CfDpt].i >= 1)
    && IsDurationAt(payload, CfDdl) && IsDurationAt(payload, CfLsp) && IsDurationAt(payload, CfLse)
  }

  /** The update leaves manual liveliness without a lease that can run out. */
  predicate NeedsLease(payload: Record, base: QoSSpec) {
    && (if CfLiv in payload then Spells(payload[CfLiv], "MANUAL_BY_TOPIC") else base.liveliness == ManualByTopic)
    && (if CfLse in payload then Spells(payload[CfLse], "INF") else base.leaseMs.None?)
  }

  lemma DomainIsWellWritten(payload: Record)
    ensures InDomain(payload) <==> WellWritten(payload)
  {
    SpelledIs(payload, CfRlb, Reliable, BestEffort, "RELIABLE", "BEST_EFFORT");
    SpelledIs(payload, CfDrb, Volatile, TransientLocal, "VOLATILE", "TRANSIENT_LOCAL");
    SpelledIs(payload, CfHst, KEEP_LAST, KEEP_ALL, "KEEP_LAST", "KEEP_ALL");
    SpelledIs(payload, CfLiv, Automatic, ManualByTopic, "AUTOMATIC", "MANUAL_BY_TOPIC");
    MsIs(payload, CfDdl);
    MsIs(payload, CfLsp);
    MsIs(payload, CfLse);
  }

  lemma MissingIsNeeded(payload: Record, base: QoSSpec)
    requires InDomain(payload)
    ensures LeaseMissing(Merged(payload, base)) <==> NeedsLease(payload, base)
  {
    SpelledIs(payload, CfLiv, Automatic, ManualByTopic, "AUTOMATIC", "MANUAL_BY_TOPIC");
    MsIs(payload, CfLse);
    if CfLse in payload {
      ReadMsIs(payload[CfLse]);
    }
    if CfLiv in payload {
      OnlyOne(payload[CfLiv], "AUTOMATIC", "MANUAL_BY_TOPIC");
    }
  }

  lemma OnlyOne(v: Value, a: string, b: string)
    requires |a| != |b|
    ensures !(Spells(v, a) && Spells(v, b))
  {
  }

  /** An update is accepted exactly if it is well written and leaves no manual liveliness without a lease. */
  lemma AcceptedUpdate(payload: Record, base: QoSSpec)
    ensures Parsed(payload, base).Ok? <==> WellWritten(payload) && !NeedsLease(payload, base)
  {
    ParsedIsMerged(payload, base);
    DomainIsWellWritten(payload);
    if InDomain(payload) {
      MissingIsNeeded(payload, base);
    }
  }

  /** An accepted update sets each attribute it names to what is written, and leaves the others. */
  lemma UpdateSets(payload: Record, base: QoSSpec)
    requires Parsed(payload, base).Ok?
    ensures var r := Parsed(payload, base).value;
            && r.reliability == (if CfRlb !in payload then base.reliability
                                 else if Spells(payload[CfRlb], "RELIABLE") then Reliable else BestEffort)
            && r.durability == (if CfDrb !in payload then base.durability
                                else if Spells(payload[CfDrb], "VOLATILE") then Volatile else TransientLocal)
            && r.history == (if CfHst !in payload then base.history
                             else if Spells(payload[CfHst], "KEEP_LAST") then "KEEP_LAST" else "KEEP_ALL")
            && r.liveliness == (if CfLiv !in payload then base.liveliness
                                else if Spells(payload[CfLiv], "AUTOMATIC") then Automatic else ManualByTopic)
            && r.depth == (if CfDpt !in payload then base.depth else payload[CfDpt].i)
            && (if CfDdl in payload then IsDuration(payload[CfDdl], r.deadlineMs) else r.deadlineMs == base.deadlineMs)
            && (if CfLsp in payload then IsDuration(payload[CfLsp], r.lifespanMs) else r.lifespanMs == base.lifespanMs)
            && (if CfLse in payload then IsDuration(payload[CfLse], r.leaseMs) else r.leaseMs == base.leaseMs)
            && r.profile == base.profile
  {
    ParsedIsMerged(payload, base);
    SpelledIs(payload, CfRlb, Reliable, BestEffort, "RELIABLE", "BEST_EFFORT");
    SpelledIs(payload, CfDrb, Volatile, TransientLocal, "VOLATILE", "TRANSIENT_LOCAL");
    SpelledIs(payload, CfHst, KEEP_LAST, KEEP_ALL, "KEEP_LAST", "KEEP_ALL");
    SpelledIs(payload, CfLiv, Automatic, ManualByTopic, "AUTOMATIC", "MANUAL_BY_TOPIC");
    MsIs(payload, CfDdl);
    MsIs(payload, CfLsp);
    MsIs(payload, CfLse);
  }

  /** What the bridge prints of a valid spec spells the spec, in capitals, infinite durations as INF. */
  lemma PrintedText(s: QoSSpec)
    requires Valid(s)
    ensures var rec := Axes(s);
            && rec[CfRlb] == Str(if s.reliability == Reliable then "RELIABLE" else "BEST_EFFORT")
            && rec[CfDrb] == Str(if s.durability == Volatile then "VOLATILE" else "TRANSIENT_LOCAL")
            && rec[CfHst] == Str(s.history) && rec[CfDpt] == Int(s.depth)
            && rec[CfLiv] == Str(if s.liveliness == Automatic then "AUTOMATIC" else "MANUAL_BY_TOPIC")
            && (forall key, ms :: (key, ms) in {(CfDdl, s.deadlineMs), (CfLsp, s.lifespanMs), (CfLse, s.leaseMs)} ==>
                  rec[key] == Str(if ms.None? then "INF" else PrintInt(ms.value)))
  {
  }
}
