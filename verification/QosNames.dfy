/**
  What the negotiation answers, name by name: the values of the three policies as they are written, the durations
  as the middleware gives them.
*/
module QosNames {
  import opened Wrappers
  import opened QosModel
  import opened QosNegotiation
  import opened QosTheorems

  /* ---- durations ---- */

  /** The nanoseconds read as so many milliseconds: unset, 0 and 2^63 - 1 or more as infinite. */
  predicate ReadsAs(ns: Option<int>, ms: Option<int>) {
    if ns.None? || ns.value == 0 || ns.value >= 9223372036854775807 then ms.None?
    else ms.Some? && ms.value * 1000000 <= ns.value < (ms.value + 1) * 1000000
  }

  lemma DurationReads(ns: Option<int>, ms: Option<int>)
    ensures ReadsAs(ns, ms) <==> ms == DurationMs(ns)
  {
    if ns.Some? {
      assert ns.value == ns.value / NS_PER_MS * NS_PER_MS + ns.value % NS_PER_MS;
    }
  }

  /** The nanoseconds of a peer on an axis. */
  function Ns(peer: Peer, a: Axis): (ns: Option<int>) {
    if a == Deadline then peer.deadlineNs else peer.leaseNs
  }

  /** Infinite if some peer's duration is; else the longest there is. */
  ghost predicate IsLongest(peers: seq<Peer>, a: Axis, ms: Option<int>) {
    && (exists o :: o in peers && ReadsAs(Ns(o, a), ms))
    && (forall o, d :: o in peers && ReadsAs(Ns(o, a), d) && ms.Some? ==> d.Some? && d.value <= ms.value)
  }

  lemma MaxIsLongest(peers: seq<Peer>, a: Axis)
    requires peers != []
    ensures IsLongest(peers, a, MaxOrNone(peers, a))
  {
    MaxOrNoneIs(peers, a);
    forall o: Peer, d ensures ReadsAs(Ns(o, a), d) <==> d == PeerMs(o, a) {
      DurationReads(Ns(o, a), d);
    }
  }

  /** Some peer's duration is longer. */
  ghost predicate SomeLonger(peers: seq<Peer>, a: Axis, ms: Option<int>) {
    exists o, d :: o in peers && ReadsAs(Ns(o, a), d) && ms.Some? && (d.None? || d.value > ms.value)
  }

  lemma StrictIffLonger(peers: seq<Peer>, a: Axis, ms: Option<int>)
    ensures TooStrict(peers, a, ms) <==> SomeLonger(peers, a, ms)
  {
    forall o: Peer, d ensures ReadsAs(Ns(o, a), d) <==> d == PeerMs(o, a) {
      DurationReads(Ns(o, a), d);
    }
    if TooStrict(peers, a, ms) {
      var o :| o in peers && (PeerMs(o, a).None? || PeerMs(o, a).value > ms.value);
      assert ReadsAs(Ns(o, a), PeerMs(o, a));
    }
  }

  /** As configured, or the shortest requested if that is shorter. */
  ghost predicate IsShortest(peers: seq<Peer>, a: Axis, configured: Option<int>, ms: Option<int>) {
    && (ms == configured || exists q :: q in peers && ReadsAs(Ns(q, a), ms))
    && (configured.Some? ==> ms.Some? && ms.value <= configured.value)
    && (forall q, d :: q in peers && ReadsAs(Ns(q, a), d) && d.Some? ==> ms.Some? && ms.value <= d.value)
  }

  lemma OfferedIsShortest(peers: seq<Peer>, a: Axis, configured: Option<int>)
    ensures IsShortest(peers, a, configured, OfferedDuration(peers, a, configured))
  {
    MinFiniteIs(peers, a);
    forall o: Peer, d ensures ReadsAs(Ns(o, a), d) <==> d == PeerMs(o, a) {
      DurationReads(Ns(o, a), d);
    }
  }

  /* ---- kinds ---- */

  predicate TwoKinds(p: Policy, weak: Name, strong: Name) {
    match p
    case Reliability => weak == BestEffort && strong == Reliable
    case Durability => weak == Volatile && strong == TransientLocal
    case Liveliness => weak == Automatic && strong == ManualByTopic
  }

  /** Some peer has this kind. */
  ghost predicate Has(peers: seq<Peer>, p: Policy, name: Name) {
    match p
    case Reliability => exists o :: o in peers && o.reliability == name
    case Durability => exists o :: o in peers && o.durability == name
    case Liveliness => exists o :: o in peers && o.liveliness == name
  }

  /**
    Asked for: the weaker kind if some offer has it, or an explicit configuration; else the stronger one if some
    offer has it, or an explicit configuration; else as configured.
  */
  ghost predicate IsAsked(
    offers: seq<Peer>, p: Policy, weak: Name, strong: Name, configured: Name, explicit: bool, k: Name)
  {
    if Has(offers, p, weak) || (explicit && configured == weak) then k == weak
    else if Has(offers, p, strong) || (explicit && configured == strong) then k == strong
    else k == configured
  }

  lemma KnownAre(peers: seq<Peer>, p: Policy, weak: Name, strong: Name)
    requires TwoKinds(p, weak, strong)
    ensures Known(p, weak) && Known(p, strong) && Rank(p, weak) < Rank(p, strong)
    ensures forall n :: Known(p, n) <==> n == weak || n == strong
    ensures weak in KnownKinds(peers, p) <==> Has(peers, p, weak)
    ensures strong in KnownKinds(peers, p) <==> Has(peers, p, strong)
    ensures forall n :: n in KnownKinds(peers, p) ==> n == weak || n == strong
  {
    KnownKindsAre(peers, p);
  }

  lemma ObservedIsAsked(
    offers: seq<Peer>, p: Policy, weak: Name, strong: Name, configured: Name, explicit: bool)
    requires TwoKinds(p, weak, strong)
    ensures IsAsked(offers, p, weak, strong, configured, explicit, ObserveKind(offers, p, configured, explicit))
  {
    KnownAre(offers, p, weak, strong);
    var pool := Pool(offers, p, configured, explicit);
    assert forall n :: n in pool <==> n in KnownKinds(offers, p) || (explicit && Known(p, n) && n == configured);
    if pool != [] {
      WeakestIs(p, pool);
    }
  }

  /** Offered: the stronger kind if some request has it; the weaker if one has that and configured is unknown. */
  ghost predicate IsOffered(requests: seq<Peer>, p: Policy, weak: Name, strong: Name, configured: Name, k: Name) {
    if Has(requests, p, strong) then k == strong
    else if Has(requests, p, weak) && configured != strong then k == weak
    else k == configured
  }

  lemma CommandedIsOffered(requests: seq<Peer>, p: Policy, weak: Name, strong: Name, configured: Name)
    requires TwoKinds(p, weak, strong)
    ensures IsOffered(requests, p, weak, strong, configured, CommandKind(requests, p, configured))
  {
    KnownAre(requests, p, weak, strong);
    var pool := KnownKinds(requests, p);
    assert pool + [] == pool;
    if pool != [] {
      StrongestIs(p, pool);
    }
  }

  lemma GuardedIs(offers: seq<Peer>, p: Policy, weak: Name, strong: Name, configured: Name)
    requires TwoKinds(p, weak, strong)
    ensures var strict := configured == strong && Has(offers, p, weak);
            GuardKind(offers, p, configured) == (if strict then weak else configured, strict)
  {
    KnownAre(offers, p, weak, strong);
    ObservedIsAsked(offers, p, weak, strong, configured, false);
  }

  /* ---- the three operations ---- */

  /** With nobody to negotiate with, the configuration stands, and the event says which side is missing. */
  lemma NobodyThere(configured: QoSSpec, hasExplicit: bool, fields: Option<set<string>>)
    ensures ReconcileObserve([], configured, hasExplicit, fields) == (configured, [NoPublisherFallback])
    ensures ReconcileCommandSpec([], configured) == (configured, [NoSubscriberFallback])
    ensures Demote(configured, []) == (configured, [])
  {
  }

  /**
    Observing, explicit or not: each kind as asked for, an explicit duration as configured, any other one the
    longest offered. The flag speaks for all kinds where no fields are named, and for no duration.
  */
  lemma ObserveByName(offers: seq<Peer>, configured: QoSSpec, hasExplicit: bool, fields: Option<set<string>>)
    requires offers != []
    ensures var r := ReconcileObserve(offers, configured, hasExplicit, fields).0;
            var explicit := (name: string) => if fields.None? then hasExplicit else name in fields.value;
            && IsAsked(offers, Reliability, BestEffort, Reliable, configured.reliability, explicit("reliability"),
                       r.reliability)
            && IsAsked(offers, Durability, Volatile, TransientLocal, configured.durability, explicit("durability"),
                       r.durability)
            && IsAsked(offers, Liveliness, Automatic, ManualByTopic, configured.liveliness, explicit("liveliness"),
                       r.liveliness)
            && (if fields.Some? && "deadline_ms" in fields.value then r.deadlineMs == configured.deadlineMs
                else IsLongest(offers, Deadline, r.deadlineMs))
            && (if fields.Some? && "liveliness_lease_duration_ms" in fields.value then r.leaseMs == configured.leaseMs
                else IsLongest(offers, Lease, r.leaseMs))
  {
    ObservedIsAsked(offers, Reliability, BestEffort, Reliable, configured.reliability,
                    ExplicitKind(Reliability, hasExplicit, fields));
    ObservedIsAsked(offers, Durability, Volatile, TransientLocal, configured.durability,
                    ExplicitKind(Durability, hasExplicit, fields));
    ObservedIsAsked(offers, Liveliness, Automatic, ManualByTopic, configured.liveliness,
                    ExplicitKind(Liveliness, hasExplicit, fields));
    MaxIsLongest(offers, Deadline);
    MaxIsLongest(offers, Lease);
  }

  /**
    An explicit kind the policy knows is asked for in the strongest value, no stronger than configured, that
    every known offer meets: as configured exactly if the offers meet that.
  */
  lemma ExplicitIsGreatestCompatible(
    offers: seq<Peer>, configured: QoSSpec, hasExplicit: bool, fields: Option<set<string>>, p: Policy, name: string)
    requires offers != [] && Known(p, Kind(configured, p))
    requires (p, name) in {(Reliability, "reliability"), (Durability, "durability"), (Liveliness, "liveliness")}
    requires if fields.None? then hasExplicit else name in fields.value
    ensures var k := Kind(ReconcileObserve(offers, configured, hasExplicit, fields).0, p);
            && Known(p, k) && KindAtMost(p, k, Kind(configured, p)) && RequestMet(p, k, offers)
            && (forall n :: Known(p, n) && KindAtMost(p, n, Kind(configured, p)) && RequestMet(p, n, offers) ==>
                  Rank(p, n) <= Rank(p, k))
            && (k == Kind(configured, p) <==> RequestMet(p, Kind(configured, p), offers))
  {
    ObserveByField(offers, configured, hasExplicit, fields);
    ExplicitKindIsGreatest(p, offers, Kind(configured, p));
  }

  /** Commanding: each kind as offered, each duration as configured or the shortest requested. */
  lemma CommandByName(requests: seq<Peer>, configured: QoSSpec)
    requires requests != []
    ensures var r := ReconcileCommandSpec(requests, configured).0;
            && IsOffered(requests, Reliability, BestEffort, Reliable, configured.reliability, r.reliability)
            && IsOffered(requests, Durability, Volatile, TransientLocal, configured.durability, r.durability)
            && IsOffered(requests, Liveliness, Automatic, ManualByTopic, configured.liveliness, r.liveliness)
            && IsShortest(requests, Deadline, configured.deadlineMs, r.deadlineMs)
            && IsShortest(requests, Lease, configured.leaseMs, r.leaseMs)
  {
    var r := ReconcileCommandSpec(requests, configured).0;
    CommandByField(requests, configured);
    assert Kind(r, Reliability) == r.reliability && Kind(r, Durability) == r.durability;
    assert Kind(r, Liveliness) == r.liveliness && Ms(r, Deadline) == r.deadlineMs && Ms(r, Lease) == r.leaseMs;
    CommandedIsOffered(requests, Reliability, BestEffort, Reliable, configured.reliability);
    CommandedIsOffered(requests, Durability, Volatile, TransientLocal, configured.durability);
    CommandedIsOffered(requests, Liveliness, Automatic, ManualByTopic, configured.liveliness);
    OfferedIsShortest(requests, Deadline, configured.deadlineMs);
    OfferedIsShortest(requests, Lease, configured.leaseMs);
  }

  /**
    Guarding: a kind is strict exactly if it is the stronger one and some offer has the weaker, and becomes that;
    a duration exactly if some offer's is longer, and becomes the longest offered. The rest stays.
  */
  lemma GuardByName(spec: QoSSpec, offers: seq<Peer>)
    requires offers != []
    ensures var (d, events) := Demote(spec, offers);
            var rlb := spec.reliability == Reliable && Has(offers, Reliability, BestEffort);
            var drb := spec.durability == TransientLocal && Has(offers, Durability, Volatile);
            var liv := spec.liveliness == ManualByTopic && Has(offers, Liveliness, Automatic);
            && (StrictReliability in events <==> rlb) && d.reliability == (if rlb then BestEffort else spec.reliability)
            && (StrictDurability in events <==> drb) && d.durability == (if drb then Volatile else spec.durability)
            && (StrictLiveliness in events <==> liv) && d.liveliness == (if liv then Automatic else spec.liveliness)
            && (StrictDeadline in events <==> SomeLonger(offers, Deadline, spec.deadlineMs))
            && (StrictLease in events <==> SomeLonger(offers, Lease, spec.leaseMs))
            && (if StrictDeadline in events then IsLongest(offers, Deadline, d.deadlineMs)
                else d.deadlineMs == spec.deadlineMs)
            && (if StrictLease in events then IsLongest(offers, Lease, d.leaseMs) else d.leaseMs == spec.leaseMs)
  {
    var (d, events) := Demote(spec, offers);
    DemoteByField(spec, offers);
    assert Kind(d, Reliability) == d.reliability && Kind(d, Durability) == d.durability;
    assert Kind(d, Liveliness) == d.liveliness && Ms(d, Deadline) == d.deadlineMs && Ms(d, Lease) == d.leaseMs;
    assert StrictEvent(Reliability) == StrictReliability && StrictEvent(Durability) == StrictDurability;
    assert StrictEvent(Liveliness) == StrictLiveliness;
    GuardedIs(offers, Reliability, BestEffort, Reliable, spec.reliability);
    GuardedIs(offers, Durability, Volatile, TransientLocal, spec.durability);
    GuardedIs(offers, Liveliness, Automatic, ManualByTopic, spec.liveliness);
    StrictIffLonger(offers, Deadline, spec.deadlineMs);
    StrictIffLonger(offers, Lease, spec.leaseMs);
    MaxIsLongest(offers, Deadline);
    MaxIsLongest(offers, Lease);
  }
}
