/** Request-versus-offered negotiation (qos/engine.py with choose_kind and the duration helpers of qos/_shared.py). */
module QosNegotiation {
  import opened Wrappers
  import opened QosModel

  /** The event vocabulary; the code uses these names, starting in lower case. */
  datatype Event =
    | NoPublisherFallback | NoSubscriberFallback | LatchedDowngraded | QosUpgraded
    | TransientLocalLifespanRequired
    | StrictReliability | StrictDurability | StrictLiveliness | StrictDeadline | StrictLease

  /* ---- ordered kinds ---- */

  function KnownKinds(peers: seq<Peer>, p: Policy): (names: seq<Name>)
  {
    if peers == [] then []
    else
      var rest := KnownKinds(peers[1..], p);
      if Known(p, PeerKind(peers[0], p)) then [PeerKind(peers[0], p)] + rest else rest
  }

  function Weakest(p: Policy, pool: seq<Name>): (k: Name)
    requires pool != []
  {
    if |pool| == 1 then pool[0]
    else
      var rest := Weakest(p, pool[1..]);
      if Rank(p, pool[0]) < Rank(p, rest) then pool[0] else rest
  }

  function Strongest(p: Policy, pool: seq<Name>): (k: Name)
    requires pool != []
  {
    if |pool| == 1 then pool[0]
    else
      var rest := Strongest(p, pool[1..]);
      if Rank(p, pool[0]) > Rank(p, rest) then pool[0] else rest
  }

  function Pool(peers: seq<Peer>, p: Policy, configured: Name, explicit: bool): (names: seq<Name>) {
    KnownKinds(peers, p) + if explicit && Known(p, configured) then [configured] else []
  }

  function ChooseKind(peers: seq<Peer>, p: Policy, configured: Name, weakest: bool, explicit: bool): (k: Name) {
    var pool := Pool(peers, p, configured, explicit);
    if pool == [] then configured
    else
      var chosen := if weakest then Weakest(p, pool) else Strongest(p, pool);
      if !weakest && Rank(p, configured) >= Rank(p, chosen) then configured else chosen
  }

  function ObserveKind(peers: seq<Peer>, p: Policy, configured: Name, explicit: bool): (k: Name) {
    ChooseKind(peers, p, configured, true, explicit)
  }

  function CommandKind(peers: seq<Peer>, p: Policy, configured: Name): (k: Name) {
    ChooseKind(peers, p, configured, false, false)
  }

  function GuardKind(peers: seq<Peer>, p: Policy, configured: Name): (r: (Name, bool)) {
    var weakest := ObserveKind(peers, p, configured, false);
    var strict := Known(p, configured) && Rank(p, configured) > Rank(p, weakest);
    (if strict then weakest else configured, strict)
  }

  /* ---- durations ---- */

  /** The longest duration; None, infinite, dominates. */
  function MaxOrNone(peers: seq<Peer>, a: Axis): (ms: Option<int>)
    requires peers != []
  {
    if |peers| == 1 then PeerMs(peers[0], a)
    else
      var rest := MaxOrNone(peers[1..], a);
      if NotShorter(rest, PeerMs(peers[0], a)) then rest else PeerMs(peers[0], a)
  }

  /** The shortest finite duration, None if there is none. */
  function MinFinite(peers: seq<Peer>, a: Axis): (ms: Option<int>)
  {
    if peers == [] then None
    else
      var rest := MinFinite(peers[1..], a);
      if NotShorter(PeerMs(peers[0], a), rest) then rest else PeerMs(peers[0], a)
  }

  function RequestedDuration(offers: seq<Peer>, a: Axis, configured: Option<int>, explicit: bool): (ms: Option<int>)
    requires offers != []
  {
    if explicit then configured else MaxOrNone(offers, a)
  }

  function OfferedDuration(requests: seq<Peer>, a: Axis, configured: Option<int>): (ms: Option<int>) {
    var needed := MinFinite(requests, a);
    if needed.Some? && (configured.None? || configured.value > needed.value) then needed else configured
  }

  function TooStrict(offers: seq<Peer>, a: Axis, configured: Option<int>): (strict: bool) {
    configured.Some? && exists o :: o in offers && (PeerMs(o, a).None? || PeerMs(o, a).value > configured.value)
  }

  function GuardDuration(offers: seq<Peer>, a: Axis, configured: Option<int>): (r: (Option<int>, bool))
    requires offers != []
  {
    var strict := TooStrict(offers, a, configured);
    (if strict then MaxOrNone(offers, a) else configured, strict)
  }

  /* ---- the three operations ---- */

  function Dedupe(events: seq<Event>): (r: seq<Event>) {
    if events == [] then []
    else
      var front := Dedupe(events[..|events| - 1]);
      var last := events[|events| - 1];
      if last in front then front else front + [last]
  }

  lemma {:induction false} DedupeKeepsEvents(events: seq<Event>)
    ensures forall e :: e in Dedupe(events) <==> e in events
  {
    if events == [] {
    } else {
      DedupeKeepsEvents(events[..|events| - 1]);
      assert events == events[..|events| - 1] + [events[|events| - 1]];
    }
  }

  function FieldOf(p: Policy): (f: string) {
    match p
    case Reliability => "reliability"
    case Durability => "durability"
    case Liveliness => "liveliness"
  }

  function FieldOfAxis(a: Axis): (f: string) {
    match a
    case Deadline => "deadline_ms"
    case Lease => "liveliness_lease_duration_ms"
  }

  /** The `explicit` test of the kinds: without a field set the flag speaks for all of them. */
  predicate ExplicitKind(p: Policy, hasExplicit: bool, fields: Option<set<string>>) {
    if fields.None? then hasExplicit else FieldOf(p) in fields.value
  }

  /** The durations ignore the flag. */
  predicate ExplicitDuration(a: Axis, fields: Option<set<string>>) {
    fields.Some? && FieldOfAxis(a) in fields.value
  }

  function ReconcileObserve(offers: seq<Peer>, configured: QoSSpec, hasExplicit: bool, fields: Option<set<string>>)
    : (r: (QoSSpec, seq<Event>))
  {
    if offers == [] then (configured, [NoPublisherFallback])
    else
      var rlb := ObserveKind(offers, Reliability, configured.reliability, ExplicitKind(Reliability, hasExplicit, fields));
      var drb := ObserveKind(offers, Durability, configured.durability, ExplicitKind(Durability, hasExplicit, fields));
      var liv := ObserveKind(offers, Liveliness, configured.liveliness, ExplicitKind(Liveliness, hasExplicit, fields));
      var events := if configured.durability == TransientLocal && drb == Volatile then [LatchedDowngraded] else [];
      var ddl := RequestedDuration(offers, Deadline, configured.deadlineMs, ExplicitDuration(Deadline, fields));
      var lse := RequestedDuration(offers, Lease, configured.leaseMs, ExplicitDuration(Lease, fields));
      (configured.(reliability := rlb, durability := drb, liveliness := liv, deadlineMs := ddl, leaseMs := lse),
       Dedupe(events))
  }

  /** A loop over policies that stores the kind `choose` selects and reports a change. */
  ghost function UpgradeLoop(spec: QoSSpec, policies: seq<Policy>, choose: (Policy, Name) -> Name)
    : (r: (QoSSpec, seq<Event>))
  {
    if policies == [] then (spec, [])
    else
      var n := |policies| - 1;
      var (s, events) := UpgradeLoop(spec, policies[..n], choose);
      var selected := choose(policies[n], Kind(s, policies[n]));
      if Kind(s, policies[n]) != selected then (WithKind(s, policies[n], selected), events + [QosUpgraded])
      else (s, events)
  }

  /** The kind loop of reconcile_command. */
  ghost function UpgradeKinds(requests: seq<Peer>, spec: QoSSpec, policies: seq<Policy>): (r: (QoSSpec, seq<Event>)) {
    UpgradeLoop(spec, policies, (p, name) => CommandKind(requests, p, name))
  }

  /** A loop over policies that stores the kind `guard` selects where it finds the old one strict. */
  ghost function DemoteLoop(spec: QoSSpec, policies: seq<Policy>, guard: (Policy, Name) -> (Name, bool))
    : (r: (QoSSpec, seq<Event>))
  {
    if policies == [] then (spec, [])
    else
      var n := |policies| - 1;
      var (s, events) := DemoteLoop(spec, policies[..n], guard);
      var (selected, strict) := guard(policies[n], Kind(spec, policies[n]));
      if strict then (WithKind(s, policies[n], selected), events + [StrictEvent(policies[n])]) else (s, events)
  }

  /** The kind loop of strictness_guard. */
  ghost function DemoteKinds(offers: seq<Peer>, spec: QoSSpec, policies: seq<Policy>): (r: (QoSSpec, seq<Event>)) {
    DemoteLoop(spec, policies, (p, name) => GuardKind(offers, p, name))
  }

  function StrictEvent(p: Policy): (e: Event) {
    match p
    case Reliability => StrictReliability
    case Durability => StrictDurability
    case Liveliness => StrictLiveliness
  }

  function UpgradeDuration(requests: seq<Peer>, r: (QoSSpec, seq<Event>), a: Axis): (r': (QoSSpec, seq<Event>)) {
    var ms := OfferedDuration(requests, a, Ms(r.0, a));
    if ms != Ms(r.0, a) then (WithMs(r.0, a, ms), r.1 + [QosUpgraded]) else r
  }

  /** What reconcile_command does after its kind loop. */
  function UpgradeRest(requests: seq<Peer>, r: (QoSSpec, seq<Event>)): (r': (QoSSpec, seq<Event>)) {
    var latched := r.0.durability == TransientLocal && r.0.lifespanMs.None?;
    var r1 := (r.0, r.1 + if latched then [TransientLocalLifespanRequired] else []);
    var r2 := UpgradeDuration(requests, UpgradeDuration(requests, r1, Deadline), Lease);
    (r2.0, Dedupe(r2.1))
  }

  ghost function ReconcileCommandSpec(requests: seq<Peer>, configured: QoSSpec): (r: (QoSSpec, seq<Event>)) {
    if requests == [] then (configured, [NoSubscriberFallback])
    else
      UpgradeRest(requests, UpgradeKinds(requests, configured, POLICIES))
  }

  method ReconcileCommand(requests: seq<Peer>, configured: QoSSpec) returns (spec: QoSSpec, events: seq<Event>)
    ensures (spec, events) == ReconcileCommandSpec(requests, configured)
  {
    if requests == [] {
      return configured, [NoSubscriberFallback];
    }
    spec, events := configured, [];
    for i := 0 to |POLICIES|
      invariant (spec, events) == UpgradeKinds(requests, configured, POLICIES[..i])
    {
      assert POLICIES[..i + 1][..i] == POLICIES[..i];
      var policy := POLICIES[i];
      var current := Kind(spec, policy);
      var selected := CommandKind(requests, policy, current);
      if current != selected {
        spec := WithKind(spec, policy, selected);
        events := events + [QosUpgraded];
      }
    }
    assert POLICIES[..|POLICIES|] == POLICIES;
    var r := UpgradeRest(requests, (spec, events));
    return r.0, r.1;
  }

  function DemoteDuration(offers: seq<Peer>, configured: QoSSpec, r: (QoSSpec, seq<Event>), a: Axis)
    : (r': (QoSSpec, seq<Event>))
    requires offers != []
  {
    var (ms, strict) := GuardDuration(offers, a, Ms(configured, a));
    if strict then (WithMs(r.0, a, ms), r.1 + [if a == Deadline then StrictDeadline else StrictLease]) else r
  }

  /** The demoted spec and the events of the guard. */
  ghost function Demote(spec: QoSSpec, offers: seq<Peer>): (r: (QoSSpec, seq<Event>)) {
    if offers == [] then (spec, [])
    else
      var kinds := DemoteKinds(offers, spec, POLICIES);
      DemoteDuration(offers, spec, DemoteDuration(offers, spec, kinds, Deadline), Lease)
  }

  method StrictnessGuard(spec: QoSSpec, offers: seq<Peer>, mode: string)
    returns (r: Result<(QoSSpec, seq<Event>), string>)
    ensures mode !in {"reject", "demote"} ==> r.Err?
    ensures mode == "demote" ==> r == Ok(Demote(spec, offers))
    ensures mode == "reject" ==> r == Ok((spec, Demote(spec, offers).1))
  {
    if mode != "reject" && mode != "demote" {
      return Err("strictness mode must be 'reject' or 'demote'");
    }
    if offers == [] {
      return Ok((spec, []));
    }
    var demoted, events := spec, [];
    for i := 0 to |POLICIES|
      invariant (demoted, events) == DemoteKinds(offers, spec, POLICIES[..i])
    {
      assert POLICIES[..i + 1][..i] == POLICIES[..i];
      var (selected, strict) := GuardKind(offers, POLICIES[i], Kind(spec, POLICIES[i]));
      if strict {
        events := events + [StrictEvent(POLICIES[i])];
        demoted := WithKind(demoted, POLICIES[i], selected);
      }
    }
    assert POLICIES[..|POLICIES|] == POLICIES;
    var (deadline, strictDeadline) := GuardDuration(offers, Deadline, spec.deadlineMs);
    if strictDeadline {
      events := events + [StrictDeadline];
      demoted := demoted.(deadlineMs := deadline);
    }
    var (lease, strictLease) := GuardDuration(offers, Lease, spec.leaseMs);
    if strictLease {
      events := events + [StrictLease];
      demoted := demoted.(leaseMs := lease);
    }
    return Ok((if mode == "demote" then demoted else spec, events));
  }
}
