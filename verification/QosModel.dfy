/** QoS records and the ordered policies (qos/models.py, qos/_shared.py and the policy modules). */
module QosModel {
  import opened Wrappers

  /** The values of the ordered policies; a peer may also report UNKNOWN, SYSTEM_DEFAULT and the like. */
  datatype Name =
    | BestEffort | Reliable
    | Volatile | TransientLocal
    | Automatic | ManualByTopic
    | Other(text: string)

  /** Durations are in whole milliseconds, None is infinite. */
  datatype QoSSpec = QoSSpec(
    reliability: Name,
    durability: Name,
    history: string,
    depth: int,
    deadlineMs: Option<int>,
    lifespanMs: Option<int>,
    liveliness: Name,
    leaseMs: Option<int>,
    profile: Option<string>)

  /** The profile of a remote endpoint. Durations are in nanoseconds, None is unset. */
  datatype Peer = Peer(
    reliability: Name,
    durability: Name,
    liveliness: Name,
    deadlineNs: Option<nat>,
    leaseNs: Option<nat>)

  const INT64_MAX := 0x7fff_ffff_ffff_ffff
  const NS_PER_MS := 1_000_000

  /** Unset, 0 and the infinite sentinel all read as infinite; the rest is cut to milliseconds. */
  function DurationMs(ns: Option<int>): (ms: Option<int>) {
    if ns.None? || ns.value == 0 || ns.value >= INT64_MAX then None
    else Some(ns.value / NS_PER_MS)
  }

  /** The policies whose values are ordered by strength (sections 2.2.3.14, .4 and .11 of OMG DDS 1.4). */
  datatype Policy = Reliability | Durability | Liveliness

  const POLICIES: seq<Policy> := [Reliability, Durability, Liveliness]

  /** Strength of a name under a policy, -1 if the policy does not know it. */
  function Rank(p: Policy, name: Name): (r: int) {
    match (p, name)
    case (Reliability, BestEffort) => 0
    case (Reliability, Reliable) => 1
    case (Durability, Volatile) => 0
    case (Durability, TransientLocal) => 1
    case (Liveliness, Automatic) => 0
    case (Liveliness, ManualByTopic) => 1
    case _ => -1
  }

  predicate Known(p: Policy, name: Name) {
    Rank(p, name) >= 0
  }

  lemma SameRankSameName(p: Policy, a: Name, b: Name)
    requires Known(p, a) && Rank(p, a) == Rank(p, b)
    ensures a == b
  {
  }

  function PeerKind(peer: Peer, p: Policy): (name: Name) {
    match p
    case Reliability => peer.reliability
    case Durability => peer.durability
    case Liveliness => peer.liveliness
  }

  function Kind(spec: QoSSpec, p: Policy): (name: Name) {
    match p
    case Reliability => spec.reliability
    case Durability => spec.durability
    case Liveliness => spec.liveliness
  }

  function WithKind(spec: QoSSpec, p: Policy, name: Name): (s: QoSSpec) {
    match p
    case Reliability => spec.(reliability := name)
    case Durability => spec.(durability := name)
    case Liveliness => spec.(liveliness := name)
  }

  /** The two duration axes of request-versus-offered matching (sections 2.2.3.7 and 2.2.3.11). */
  datatype Axis = Deadline | Lease

  function PeerMs(peer: Peer, a: Axis): (ms: Option<int>) {
    DurationMs(if a == Deadline then peer.deadlineNs else peer.leaseNs)
  }

  function Ms(spec: QoSSpec, a: Axis): (ms: Option<int>) {
    if a == Deadline then spec.deadlineMs else spec.leaseMs
  }

  function WithMs(spec: QoSSpec, a: Axis, ms: Option<int>): (s: QoSSpec) {
    if a == Deadline then spec.(deadlineMs := ms) else spec.(leaseMs := ms)
  }

  /** a is at least as long as b. */
  predicate NotShorter(a: Option<int>, b: Option<int>) {
    a.None? || (b.Some? && b.value <= a.value)
  }

  /* ---- request-versus-offered compatibility ---- */

  /** A request of this kind is met by every known offer. */
  ghost predicate RequestMet(p: Policy, requested: Name, offers: seq<Peer>) {
    forall o :: o in offers && Known(p, requested) && Known(p, PeerKind(o, p)) ==>
                  Rank(p, requested) <= Rank(p, PeerKind(o, p))
  }

  ghost predicate DurationMet(a: Axis, requested: Option<int>, offers: seq<Peer>) {
    forall o :: o in offers ==> NotShorter(requested, PeerMs(o, a))
  }

  /** Reading with this spec is compatible with every known offer. */
  ghost predicate Matches(spec: QoSSpec, offers: seq<Peer>) {
    && (forall p :: RequestMet(p, Kind(spec, p), offers))
    && (forall a :: DurationMet(a, Ms(spec, a), offers))
  }

  /** An offer of this kind meets every known request. */
  ghost predicate OfferMeets(p: Policy, offered: Name, requests: seq<Peer>) {
    forall q :: q in requests && Known(p, PeerKind(q, p)) ==> Rank(p, PeerKind(q, p)) <= Rank(p, offered)
  }

  ghost predicate OfferMeetsDuration(a: Axis, offered: Option<int>, requests: seq<Peer>) {
    forall q :: q in requests ==> NotShorter(PeerMs(q, a), offered)
  }

  /** Writing with this spec is compatible with every known request. */
  ghost predicate Serves(spec: QoSSpec, requests: seq<Peer>) {
    && (forall p :: OfferMeets(p, Kind(spec, p), requests))
    && (forall a :: OfferMeetsDuration(a, Ms(spec, a), requests))
  }

  /* ---- order on specs ---- */

  ghost predicate SomeKnown(p: Policy, peers: seq<Peer>) {
    exists o :: o in peers && Known(p, PeerKind(o, p))
  }

  /** Kind `weak` asks for, or offers, no more than `strong`. */
  predicate KindAtMost(p: Policy, weak: Name, strong: Name) {
    weak == strong || Rank(p, weak) < Rank(p, strong)
  }

  /** `weak` is no stronger than `strong` on any axis. */
  ghost predicate NotStronger(weak: QoSSpec, strong: QoSSpec) {
    && (forall p :: KindAtMost(p, Kind(weak, p), Kind(strong, p)))
    && (forall a :: NotShorter(Ms(weak, a), Ms(strong, a)))
  }

  /** The specs agree outside the negotiated axes. */
  predicate SameElsewhere(s: QoSSpec, t: QoSSpec) {
    s.history == t.history && s.depth == t.depth && s.lifespanMs == t.lifespanMs && s.profile == t.profile
  }
}
