/** What the negotiation of QosNegotiation achieves. */
module QosTheorems {
  import opened Wrappers
  import opened QosModel
  import opened QosNegotiation

  /* ---- folds over the peers ---- */

  lemma {:induction false} KnownKindsAre(peers: seq<Peer>, p: Policy)
    ensures forall k :: k in KnownKinds(peers, p) ==>
              Known(p, k) && exists o :: o in peers && PeerKind(o, p) == k
    ensures forall o :: o in peers && Known(p, PeerKind(o, p)) ==> PeerKind(o, p) in KnownKinds(peers, p)
  {
    if peers == [] {
    } else {
      KnownKindsAre(peers[1..], p);
      assert peers[0] in peers;
    }
  }

  lemma {:induction false} WeakestIs(p: Policy, pool: seq<Name>)
    requires pool != []
    ensures Weakest(p, pool) in pool && forall n :: n in pool ==> Rank(p, Weakest(p, pool)) <= Rank(p, n)
  {
    if |pool| == 1 {
    } else {
      WeakestIs(p, pool[1..]);
    }
  }

  lemma {:induction false} StrongestIs(p: Policy, pool: seq<Name>)
    requires pool != []
    ensures Strongest(p, pool) in pool && forall n :: n in pool ==> Rank(p, n) <= Rank(p, Strongest(p, pool))
  {
    if |pool| == 1 {
    } else {
      StrongestIs(p, pool[1..]);
    }
  }

  lemma {:induction false} MaxOrNoneIs(peers: seq<Peer>, a: Axis)
    requires peers != []
    ensures forall o :: o in peers ==> NotShorter(MaxOrNone(peers, a), PeerMs(o, a))
    ensures exists o :: o in peers && PeerMs(o, a) == MaxOrNone(peers, a)
  {
    assert peers[0] in peers;
    if |peers| == 1 {
    } else {
      MaxOrNoneIs(peers[1..], a);
    }
  }

  lemma {:induction false} MinFiniteIs(peers: seq<Peer>, a: Axis)
    ensures forall o :: o in peers ==> NotShorter(PeerMs(o, a), MinFinite(peers, a))
    ensures MinFinite(peers, a).Some? ==> exists o :: o in peers && PeerMs(o, a) == MinFinite(peers, a)
  {
    if peers == [] {
    } else {
      MinFiniteIs(peers[1..], a);
      assert peers[0] in peers;
    }
  }

  /* ---- one axis ---- */

  lemma SomeKnownIffPool(p: Policy, peers: seq<Peer>)
    ensures SomeKnown(p, peers) <==> KnownKinds(peers, p) != []
    ensures forall k :: k in KnownKinds(peers, p) ==>
              Known(p, k) && exists o :: o in peers && PeerKind(o, p) == k
    ensures forall o :: o in peers && Known(p, PeerKind(o, p)) ==> PeerKind(o, p) in KnownKinds(peers, p)
  {
  }

  /** Without an explicit value: the strongest request that meets every known offer. */
  lemma ObserveKindIsGreatest(p: Policy, offers: seq<Peer>, configured: Name)
    ensures var k := ObserveKind(offers, p, configured, false);
            && (!SomeKnown(p, offers) ==> k == configured)
            && (SomeKnown(p, offers) ==>
                  && Known(p, k) && RequestMet(p, k, offers)
                  && forall n :: Known(p, n) && RequestMet(p, n, offers) ==> Rank(p, n) <= Rank(p, k))
  {
    SomeKnownIffPool(p, offers);
    var pool := KnownKinds(offers, p);
    assert pool + [] == pool;
    if pool != [] {
      WeakestIs(p, pool);
      var k := Weakest(p, pool);
      var o :| o in offers && PeerKind(o, p) == k;
    }
  }

  /**
    With an explicit value: the strongest kind that is no stronger than the value and meets every known offer, so
    the value itself exactly if that meets them.
  */
  lemma ExplicitKindIsGreatest(p: Policy, offers: seq<Peer>, configured: Name)
    requires Known(p, configured)
    ensures var k := ObserveKind(offers, p, configured, true);
            && Known(p, k) && KindAtMost(p, k, configured) && RequestMet(p, k, offers)
            && (forall n :: Known(p, n) && KindAtMost(p, n, configured) && RequestMet(p, n, offers) ==>
                  Rank(p, n) <= Rank(p, k))
            && (k == configured <==> RequestMet(p, configured, offers))
  {
    SomeKnownIffPool(p, offers);
    var pool := Pool(offers, p, configured, true);
    assert configured in pool && forall n :: n in KnownKinds(offers, p) ==> n in pool;
    WeakestIs(p, pool);
    var k := Weakest(p, pool);
    assert k in KnownKinds(offers, p) || k == configured;
    if Rank(p, k) == Rank(p, configured) {
      SameRankSameName(p, k, configured);
    }
  }

  /** The guard leaves a kind alone exactly when it meets the offers, and demotes it as little as possible. */
  lemma GuardKindIsExact(p: Policy, offers: seq<Peer>, configured: Name)
    ensures var (k, strict) := GuardKind(offers, p, configured);
            && (!strict <==> RequestMet(p, configured, offers))
            && (!strict ==> k == configured)
            && RequestMet(p, k, offers)
            && KindAtMost(p, k, configured)
            && (forall n :: KindAtMost(p, n, configured) && RequestMet(p, n, offers) ==> KindAtMost(p, n, k))
  {
    ObserveKindIsGreatest(p, offers, configured);
    var (k, strict) := GuardKind(offers, p, configured);
    forall n | KindAtMost(p, n, configured) && RequestMet(p, n, offers) ensures KindAtMost(p, n, k) {
      if strict && Known(p, n) && Rank(p, n) == Rank(p, k) {
        SameRankSameName(p, n, k);
      }
    }
  }

  /** An explicit kind can only be lowered, so it never upsets the guard. */
  lemma ObservedKindIsMet(p: Policy, offers: seq<Peer>, configured: Name, explicit: bool)
    ensures RequestMet(p, ObserveKind(offers, p, configured, explicit), offers)
  {
    SomeKnownIffPool(p, offers);
    var pool := Pool(offers, p, configured, explicit);
    if pool != [] {
      WeakestIs(p, pool);
      forall k | k in KnownKinds(offers, p) ensures k in pool {}
    }
  }

  /** The weakest kind at least as strong as configured that meets every known request. */
  lemma CommandKindIsLeast(p: Policy, requests: seq<Peer>, configured: Name)
    ensures var k := CommandKind(requests, p, configured);
            && OfferMeets(p, k, requests)
            && KindAtMost(p, configured, k)
            && (forall n :: OfferMeets(p, n, requests) && KindAtMost(p, configured, n) ==> KindAtMost(p, k, n))
  {
    SomeKnownIffPool(p, requests);
    var pool := KnownKinds(requests, p);
    assert pool + [] == pool;
    var k := CommandKind(requests, p, configured);
    if pool != [] {
      StrongestIs(p, pool);
    }
    if pool != [] && k != configured {
      var q :| q in requests && PeerKind(q, p) == k;
      forall n | OfferMeets(p, n, requests) && KindAtMost(p, configured, n) ensures KindAtMost(p, k, n) {
        if Rank(p, n) == Rank(p, k) {
          SameRankSameName(p, k, n);
        }
      }
    }
  }

  lemma OfferedDurationIsLeast(a: Axis, requests: seq<Peer>, configured: Option<int>)
    ensures var ms := OfferedDuration(requests, a, configured);
            && OfferMeetsDuration(a, ms, requests)
            && NotShorter(configured, ms)
            && (forall d :: OfferMeetsDuration(a, d, requests) && NotShorter(configured, d) ==> NotShorter(ms, d))
  {
    MinFiniteIs(requests, a);
  }

  lemma GuardDurationIsExact(a: Axis, offers: seq<Peer>, configured: Option<int>)
    requires offers != []
    ensures var (ms, strict) := GuardDuration(offers, a, configured);
            && (!strict <==> DurationMet(a, configured, offers))
            && (!strict ==> ms == configured)
            && DurationMet(a, ms, offers)
            && NotShorter(ms, configured)
            && (forall d :: NotShorter(d, configured) && DurationMet(a, d, offers) ==> NotShorter(d, ms))
  {
    MaxOrNoneIs(offers, a);
  }

  /* ---- the loops, field by field ---- */

  predicate Distinct(policies: seq<Policy>) {
    forall i, j :: 0 <= i < j < |policies| ==> policies[i] != policies[j]
  }

  lemma {:induction false} UpgradeLoopAt(spec: QoSSpec, policies: seq<Policy>, choose: (Policy, Name) -> Name,
                                         p: Policy)
    requires Distinct(policies)
    ensures var s := UpgradeLoop(spec, policies, choose).0;
            Kind(s, p) == if p in policies then choose(p, Kind(spec, p)) else Kind(spec, p)
  {
    if policies == [] {
    } else {
      var n := |policies| - 1;
      UpgradeLoopAt(spec, policies[..n], choose, p);
      assert p in policies <==> p in policies[..n] || p == policies[n];
      assert policies[n] !in policies[..n];
    }
  }

  lemma {:induction false} UpgradeLoopEvents(spec: QoSSpec, policies: seq<Policy>, choose: (Policy, Name) -> Name)
    requires Distinct(policies)
    ensures var (s, events) := UpgradeLoop(spec, policies, choose);
            && (forall a :: Ms(s, a) == Ms(spec, a))
            && SameElsewhere(s, spec)
            && (forall e :: e in events ==> e == QosUpgraded)
            && (QosUpgraded in events <==> s != spec)
  {
    if policies == [] {
    } else {
      var n := |policies| - 1;
      UpgradeLoopEvents(spec, policies[..n], choose);
      var (s, events) := UpgradeLoop(spec, policies[..n], choose);
      UpgradeLoopAt(spec, policies[..n], choose, policies[n]);
      assert policies[n] !in policies[..n];
      assert Kind(s, policies[n]) == Kind(spec, policies[n]);
      var selected := choose(policies[n], Kind(s, policies[n]));
      if Kind(s, policies[n]) != selected {
        assert Kind(WithKind(s, policies[n], selected), policies[n]) != Kind(spec, policies[n]);
      }
    }
  }

  lemma DifferInKind(s: QoSSpec, t: QoSSpec)
    requires s != t && SameElsewhere(s, t) && forall a :: Ms(s, a) == Ms(t, a)
    ensures exists p :: Kind(s, p) != Kind(t, p)
  {
    assert Ms(s, Deadline) == Ms(t, Deadline) && Ms(s, Lease) == Ms(t, Lease);
    assert || Kind(s, Reliability) != Kind(t, Reliability)
           || Kind(s, Durability) != Kind(t, Durability)
           || Kind(s, Liveliness) != Kind(t, Liveliness);
  }

  lemma {:induction false} DemoteLoopAt(
    spec: QoSSpec, policies: seq<Policy>, guard: (Policy, Name) -> (Name, bool), p: Policy)
    requires Distinct(policies)
    requires forall q, name :: !guard(q, name).1 ==> guard(q, name).0 == name
    ensures var (s, events) := DemoteLoop(spec, policies, guard);
            && (Kind(s, p) == if p in policies then guard(p, Kind(spec, p)).0 else Kind(spec, p))
            && (StrictEvent(p) in events <==> p in policies && guard(p, Kind(spec, p)).1)
  {
    if policies == [] {
    } else {
      var n := |policies| - 1;
      DemoteLoopAt(spec, policies[..n], guard, p);
      assert p in policies <==> p in policies[..n] || p == policies[n];
      assert policies[n] !in policies[..n];
    }
  }

  lemma {:induction false} DemoteLoopEvents(spec: QoSSpec, policies: seq<Policy>, guard: (Policy, Name) -> (Name, bool))
    ensures var (s, events) := DemoteLoop(spec, policies, guard);
            && (forall a :: Ms(s, a) == Ms(spec, a))
            && SameElsewhere(s, spec)
            && StrictDeadline !in events && StrictLease !in events
            && (forall e :: e in events ==> exists p :: e == StrictEvent(p))
  {
    if policies == [] {
    } else {
      DemoteLoopEvents(spec, policies[..|policies| - 1], guard);
    }
  }

  lemma AllPolicies()
    ensures Distinct(POLICIES) && forall p: Policy :: p in POLICIES
  {
    assert POLICIES[0] == Reliability && POLICIES[1] == Durability && POLICIES[2] == Liveliness;
    forall p: Policy ensures p in POLICIES {
      match p
      case Reliability => assert POLICIES[0] == p;
      case Durability => assert POLICIES[1] == p;
      case Liveliness => assert POLICIES[2] == p;
    }
  }

  lemma DemoteKindsByField(spec: QoSSpec, offers: seq<Peer>)
    ensures var (s, events) := DemoteKinds(offers, spec, POLICIES);
            && (forall p :: Kind(s, p) == GuardKind(offers, p, Kind(spec, p)).0)
            && (forall a :: Ms(s, a) == Ms(spec, a))
            && SameElsewhere(s, spec)
            && (forall p :: StrictEvent(p) in events <==> GuardKind(offers, p, Kind(spec, p)).1)
            && StrictDeadline !in events && StrictLease !in events
            && (events == [] <==> forall p :: !GuardKind(offers, p, Kind(spec, p)).1)
  {
    AllPolicies();
    var guard := (p, name) => GuardKind(offers, p, name);
    DemoteLoopEvents(spec, POLICIES, guard);
    var (kinds, events) := DemoteLoop(spec, POLICIES, guard);
    forall p
      ensures Kind(kinds, p) == GuardKind(offers, p, Kind(spec, p)).0
      ensures StrictEvent(p) in events <==> GuardKind(offers, p, Kind(spec, p)).1
    {
      DemoteLoopAt(spec, POLICIES, guard, p);
    }
    if events != [] {
      assert events[0] in events;
      var p :| events[0] == StrictEvent(p);
      assert StrictEvent(p) in events;
    }
  }

  lemma DemoteByField(spec: QoSSpec, offers: seq<Peer>)
    requires offers != []
    ensures var (s, events) := Demote(spec, offers);
            && (forall p :: Kind(s, p) == GuardKind(offers, p, Kind(spec, p)).0)
            && (forall a :: Ms(s, a) == GuardDuration(offers, a, Ms(spec, a)).0)
            && SameElsewhere(s, spec)
            && (forall p :: StrictEvent(p) in events <==> GuardKind(offers, p, Kind(spec, p)).1)
            && (StrictDeadline in events <==> GuardDuration(offers, Deadline, spec.deadlineMs).1)
            && (StrictLease in events <==> GuardDuration(offers, Lease, spec.leaseMs).1)
            && (events == [] <==>
                  && (forall p :: !GuardKind(offers, p, Kind(spec, p)).1)
                  && (forall a :: !GuardDuration(offers, a, Ms(spec, a)).1))
  {
    DemoteKindsByField(spec, offers);
    var kinds := DemoteKinds(offers, spec, POLICIES);
    var d := DemoteDuration(offers, spec, kinds, Deadline);
    DemoteDurationStep(offers, spec, kinds, Deadline);
    DemoteDurationStep(offers, spec, d, Lease);
  }

  lemma DemoteDurationStep(offers: seq<Peer>, spec: QoSSpec, r: (QoSSpec, seq<Event>), a: Axis)
    requires offers != [] && Ms(r.0, a) == Ms(spec, a)
    ensures var r' := DemoteDuration(offers, spec, r, a);
            var (ms, strict) := GuardDuration(offers, a, Ms(spec, a));
            var e := if a == Deadline then StrictDeadline else StrictLease;
            && (forall p :: Kind(r'.0, p) == Kind(r.0, p))
            && (forall b :: Ms(r'.0, b) == if b == a then ms else Ms(r.0, b))
            && SameElsewhere(r'.0, r.0)
            && r'.1 == r.1 + if strict then [e] else []
  {
  }

  /* ---- observing: the greatest compatible request ---- */

  ghost predicate NothingExplicit(hasExplicit: bool, fields: Option<set<string>>) {
    (forall p :: !ExplicitKind(p, hasExplicit, fields)) && (forall a :: !ExplicitDuration(a, fields))
  }

  lemma ObserveByField(offers: seq<Peer>, configured: QoSSpec, hasExplicit: bool, fields: Option<set<string>>)
    requires offers != []
    ensures var r := ReconcileObserve(offers, configured, hasExplicit, fields).0;
            && (forall p ::
                  Kind(r, p) == ObserveKind(offers, p, Kind(configured, p), ExplicitKind(p, hasExplicit, fields)))
            && (forall a :: Ms(r, a) == RequestedDuration(offers, a, Ms(configured, a), ExplicitDuration(a, fields)))
            && SameElsewhere(r, configured)
  {
    var r := ReconcileObserve(offers, configured, hasExplicit, fields).0;
    forall p
      ensures Kind(r, p) == ObserveKind(offers, p, Kind(configured, p), ExplicitKind(p, hasExplicit, fields))
    {
      match p
      case Reliability =>
      case Durability =>
      case Liveliness =>
    }
    forall a
      ensures Ms(r, a) == RequestedDuration(offers, a, Ms(configured, a), ExplicitDuration(a, fields))
    {
      match a
      case Deadline =>
      case Lease =>
    }
  }

  /**
    With nothing explicit the bridge asks for as much as the offers allow: on every negotiated axis with a
    known offer, the strongest request that every known offer meets; on the other axes what is configured.
  */
  lemma ObserveIsGreatestCompatible(
    offers: seq<Peer>, configured: QoSSpec, hasExplicit: bool, fields: Option<set<string>>)
    requires offers != [] && NothingExplicit(hasExplicit, fields)
    ensures var r := ReconcileObserve(offers, configured, hasExplicit, fields).0;
            && Matches(r, offers)
            && (forall p :: !SomeKnown(p, offers) ==> Kind(r, p) == Kind(configured, p))
            && (forall p :: SomeKnown(p, offers) ==> Known(p, Kind(r, p)))
            && (forall t, p :: Matches(t, offers) && SomeKnown(p, offers) && Known(p, Kind(t, p)) ==>
                                 KindAtMost(p, Kind(t, p), Kind(r, p)))
            && (forall t, a :: Matches(t, offers) ==> NotShorter(Ms(t, a), Ms(r, a)))
            && SameElsewhere(r, configured)
  {
    var r := ReconcileObserve(offers, configured, hasExplicit, fields).0;
    ObserveByField(offers, configured, hasExplicit, fields);
    MaxOrNoneIs(offers, Deadline);
    MaxOrNoneIs(offers, Lease);
    forall p
      ensures RequestMet(p, Kind(r, p), offers)
      ensures !SomeKnown(p, offers) ==> Kind(r, p) == Kind(configured, p)
      ensures SomeKnown(p, offers) ==> Known(p, Kind(r, p))
      ensures SomeKnown(p, offers) ==>
                forall n :: Known(p, n) && RequestMet(p, n, offers) ==> KindAtMost(p, n, Kind(r, p))
    {
      ObserveKindIsGreatest(p, offers, Kind(configured, p));
      ObservedKindIsMet(p, offers, Kind(configured, p), false);
      forall n | SomeKnown(p, offers) && Known(p, n) && RequestMet(p, n, offers)
        ensures KindAtMost(p, n, Kind(r, p))
      {
        if Rank(p, n) == Rank(p, Kind(r, p)) {
          SameRankSameName(p, n, Kind(r, p));
        }
      }
    }
  }

  /** A latched reader that loses its history is always reported. */
  lemma LatchLossIsReported(offers: seq<Peer>, configured: QoSSpec, hasExplicit: bool, fields: Option<set<string>>)
    requires offers != []
    ensures var (r, events) := ReconcileObserve(offers, configured, hasExplicit, fields);
            LatchedDowngraded in events <==>
              configured.durability == TransientLocal && r.durability == Volatile
  {
  }

  /**
    The guard agrees with the negotiation: it can only object to an explicit duration, and it does
    exactly when that duration is tighter than some offer.
  */
  lemma GuardAfterObserve(offers: seq<Peer>, configured: QoSSpec, hasExplicit: bool, fields: Option<set<string>>)
    requires offers != []
    ensures var r := ReconcileObserve(offers, configured, hasExplicit, fields).0;
            var events := Demote(r, offers).1;
            && (forall p :: StrictEvent(p) !in events)
            && (StrictDeadline in events <==>
                  ExplicitDuration(Deadline, fields) && !DurationMet(Deadline, configured.deadlineMs, offers))
            && (StrictLease in events <==>
                  ExplicitDuration(Lease, fields) && !DurationMet(Lease, configured.leaseMs, offers))
            && (NothingExplicit(hasExplicit, fields) ==> events == [])
  {
    var r := ReconcileObserve(offers, configured, hasExplicit, fields).0;
    ObserveByField(offers, configured, hasExplicit, fields);
    DemoteByField(r, offers);
    forall p ensures !GuardKind(offers, p, Kind(r, p)).1 {
      ObservedKindIsMet(p, offers, Kind(configured, p), ExplicitKind(p, hasExplicit, fields));
      GuardKindIsExact(p, offers, Kind(r, p));
    }
    assert Ms(r, Deadline) == r.deadlineMs && Ms(configured, Deadline) == configured.deadlineMs;
    assert Ms(r, Lease) == r.leaseMs && Ms(configured, Lease) == configured.leaseMs;
    GuardDurationIsExact(Deadline, offers, r.deadlineMs);
    GuardDurationIsExact(Lease, offers, r.leaseMs);
  }

  /* ---- the guard ---- */

  /** No event exactly when the spec meets every known offer. */
  lemma GuardIsSilentIffCompatible(spec: QoSSpec, offers: seq<Peer>)
    requires offers != []
    ensures Demote(spec, offers).1 == [] <==> Matches(spec, offers)
  {
    DemoteByField(spec, offers);
    forall p ensures !GuardKind(offers, p, Kind(spec, p)).1 <==> RequestMet(p, Kind(spec, p), offers) {
      GuardKindIsExact(p, offers, Kind(spec, p));
    }
    forall a ensures !GuardDuration(offers, a, Ms(spec, a)).1 <==> DurationMet(a, Ms(spec, a), offers) {
      GuardDurationIsExact(a, offers, Ms(spec, a));
    }
  }

  /** The demoted spec is the strongest compatible one not stronger than the input, and stays as it is. */
  lemma DemotionIsLeast(spec: QoSSpec, offers: seq<Peer>)
    requires offers != []
    ensures var d := Demote(spec, offers).0;
            && Matches(d, offers)
            && NotStronger(d, spec)
            && (forall t :: Matches(t, offers) && NotStronger(t, spec) ==> NotStronger(t, d))
            && SameElsewhere(d, spec)
            && Demote(d, offers) == (d, [])
  {
    var d := Demote(spec, offers).0;
    DemoteByField(spec, offers);
    DemoteByField(d, offers);
    forall p
      ensures RequestMet(p, Kind(d, p), offers) && KindAtMost(p, Kind(d, p), Kind(spec, p))
      ensures forall n :: KindAtMost(p, n, Kind(spec, p)) && RequestMet(p, n, offers) ==> KindAtMost(p, n, Kind(d, p))
      ensures GuardKind(offers, p, Kind(d, p)) == (Kind(d, p), false)
    {
      GuardKindIsExact(p, offers, Kind(spec, p));
      GuardKindIsExact(p, offers, Kind(d, p));
    }
    forall a
      ensures DurationMet(a, Ms(d, a), offers) && NotShorter(Ms(d, a), Ms(spec, a))
      ensures forall ms :: NotShorter(ms, Ms(spec, a)) && DurationMet(a, ms, offers) ==> NotShorter(ms, Ms(d, a))
      ensures GuardDuration(offers, a, Ms(d, a)) == (Ms(d, a), false)
    {
      GuardDurationIsExact(a, offers, Ms(spec, a));
      GuardDurationIsExact(a, offers, Ms(d, a));
    }
    SameFieldsSameSpec(Demote(d, offers).0, d);
  }

  lemma SameFieldsSameSpec(s: QoSSpec, t: QoSSpec)
    requires SameElsewhere(s, t)
    requires forall p :: Kind(s, p) == Kind(t, p)
    requires forall a :: Ms(s, a) == Ms(t, a)
    ensures s == t
  {
    if s != t {
      DifferInKind(s, t);
    }
  }

  /* ---- commanding: the least upgrade ---- */

  lemma UpgradeKindsByField(requests: seq<Peer>, configured: QoSSpec)
    ensures var (s, events) := UpgradeKinds(requests, configured, POLICIES);
            && (forall p :: Kind(s, p) == CommandKind(requests, p, Kind(configured, p)))
            && (forall a :: Ms(s, a) == Ms(configured, a))
            && SameElsewhere(s, configured)
            && (forall e :: e in events ==> e == QosUpgraded)
            && (QosUpgraded in events <==> s != configured)
  {
    AllPolicies();
    var choose := (p, name) => CommandKind(requests, p, name);
    UpgradeLoopEvents(configured, POLICIES, choose);
    forall p
      ensures Kind(UpgradeLoop(configured, POLICIES, choose).0, p) == CommandKind(requests, p, Kind(configured, p))
    {
      UpgradeLoopAt(configured, POLICIES, choose, p);
    }
  }

  lemma CommandByField(requests: seq<Peer>, configured: QoSSpec)
    requires requests != []
    ensures var (r, events) := ReconcileCommandSpec(requests, configured);
            && (forall p :: Kind(r, p) == CommandKind(requests, p, Kind(configured, p)))
            && (forall a :: Ms(r, a) == OfferedDuration(requests, a, Ms(configured, a)))
            && SameElsewhere(r, configured)
            && (QosUpgraded in events <==> r != configured)
            && (TransientLocalLifespanRequired in events <==>
                  r.durability == TransientLocal && r.lifespanMs.None?)
  {
    UpgradeKindsByField(requests, configured);
    UpgradeRestByField(requests, configured, UpgradeKinds(requests, configured, POLICIES));
  }

  lemma UpgradeRestByField(requests: seq<Peer>, configured: QoSSpec, kinds: (QoSSpec, seq<Event>))
    requires forall a :: Ms(kinds.0, a) == Ms(configured, a)
    requires forall e :: e in kinds.1 ==> e == QosUpgraded
    requires QosUpgraded in kinds.1 <==> kinds.0 != configured
    ensures var (r, events) := UpgradeRest(requests, kinds);
            && (forall p :: Kind(r, p) == Kind(kinds.0, p))
            && (forall a :: Ms(r, a) == OfferedDuration(requests, a, Ms(configured, a)))
            && SameElsewhere(r, kinds.0)
            && (QosUpgraded in events <==> r != configured)
            && (TransientLocalLifespanRequired in events <==>
                  r.durability == TransientLocal && r.lifespanMs.None?)
  {
    var latched := kinds.0.durability == TransientLocal && kinds.0.lifespanMs.None?;
    var r1 := (kinds.0, kinds.1 + if latched then [TransientLocalLifespanRequired] else []);
    assert TransientLocalLifespanRequired in r1.1 <==> latched;
    assert QosUpgraded in r1.1 <==> QosUpgraded in kinds.1;
    var r2 := UpgradeDuration(requests, r1, Deadline);
    UpgradeStep(requests, configured, r1, Deadline);
    UpgradeStep(requests, configured, r2, Lease);
    DedupeKeepsEvents(UpgradeDuration(requests, r2, Lease).1);
  }

  lemma UpgradeStep(requests: seq<Peer>, configured: QoSSpec, r: (QoSSpec, seq<Event>), a: Axis)
    requires Ms(r.0, a) == Ms(configured, a)
    ensures var r' := UpgradeDuration(requests, r, a);
            && (forall p :: Kind(r'.0, p) == Kind(r.0, p))
            && (forall b ::
                  Ms(r'.0, b) == if b == a then OfferedDuration(requests, a, Ms(configured, a)) else Ms(r.0, b))
            && SameElsewhere(r'.0, r.0)
            && (forall e :: e in r'.1 <==> e in r.1 || (e == QosUpgraded && r'.0 != r.0))
            && (r'.0 != configured <==> r.0 != configured || r'.0 != r.0)
  {
  }

  /** The result serves every known request, and any stronger offer that does is at least as strong. */
  lemma CommandIsLeastUpgrade(requests: seq<Peer>, configured: QoSSpec)
    requires requests != []
    ensures var (r, events) := ReconcileCommandSpec(requests, configured);
            && Serves(r, requests)
            && NotStronger(configured, r)
            && (forall t :: Serves(t, requests) && NotStronger(configured, t) ==> NotStronger(r, t))
            && SameElsewhere(r, configured)
            && (QosUpgraded in events <==> !Serves(configured, requests))
  {
    var (r, events) := ReconcileCommandSpec(requests, configured);
    CommandByField(requests, configured);
    forall p
      ensures OfferMeets(p, Kind(r, p), requests) && KindAtMost(p, Kind(configured, p), Kind(r, p))
      ensures forall n :: OfferMeets(p, n, requests) && KindAtMost(p, Kind(configured, p), n) ==>
                KindAtMost(p, Kind(r, p), n)
    {
      CommandKindIsLeast(p, requests, Kind(configured, p));
    }
    forall a
      ensures OfferMeetsDuration(a, Ms(r, a), requests) && NotShorter(Ms(configured, a), Ms(r, a))
      ensures forall d :: OfferMeetsDuration(a, d, requests) && NotShorter(Ms(configured, a), d) ==>
                NotShorter(Ms(r, a), d)
    {
      OfferedDurationIsLeast(a, requests, Ms(configured, a));
    }
    if Serves(configured, requests) {
      assert NotStronger(r, configured) by {
        assert NotStronger(configured, configured);
      }
      Antisymmetric(r, configured);
    }
  }

  lemma Antisymmetric(s: QoSSpec, t: QoSSpec)
    requires NotStronger(s, t) && NotStronger(t, s) && SameElsewhere(s, t)
    ensures s == t
  {
    forall p ensures Kind(s, p) == Kind(t, p) {
      assert KindAtMost(p, Kind(s, p), Kind(t, p)) && KindAtMost(p, Kind(t, p), Kind(s, p));
    }
    forall a ensures Ms(s, a) == Ms(t, a) {
      assert NotShorter(Ms(s, a), Ms(t, a)) && NotShorter(Ms(t, a), Ms(s, a));
    }
    SameFieldsSameSpec(s, t);
  }

  /** Negotiating again with the same readers changes nothing and reports no upgrade. */
  lemma CommandIsIdempotent(requests: seq<Peer>, configured: QoSSpec)
    ensures var r := ReconcileCommandSpec(requests, configured).0;
            && ReconcileCommandSpec(requests, r).0 == r
            && QosUpgraded !in ReconcileCommandSpec(requests, r).1
  {
    if requests != [] {
      var r := ReconcileCommandSpec(requests, configured).0;
      CommandIsLeastUpgrade(requests, configured);
      CommandIsLeastUpgrade(requests, r);
      CommandByField(requests, r);
    }
  }

  /* ---- peers form a set ---- */

  ghost predicate SamePeers(ps: seq<Peer>, qs: seq<Peer>) {
    forall x :: x in ps <==> x in qs
  }

  lemma SamePool(ps: seq<Peer>, qs: seq<Peer>, p: Policy, configured: Name, explicit: bool)
    requires SamePeers(ps, qs)
    ensures forall k :: k in Pool(ps, p, configured, explicit) <==> k in Pool(qs, p, configured, explicit)
    ensures forall k :: k in Pool(ps, p, configured, explicit) ==> Known(p, k)
  {
    PoolWithin(ps, qs, p);
    PoolWithin(qs, ps, p);
  }

  lemma PoolWithin(ps: seq<Peer>, qs: seq<Peer>, p: Policy)
    requires SamePeers(ps, qs)
    ensures forall k :: k in KnownKinds(ps, p) ==> k in KnownKinds(qs, p) && Known(p, k)
  {
    KnownKindsAre(ps, p);
    KnownKindsAre(qs, p);
    forall k | k in KnownKinds(ps, p) ensures k in KnownKinds(qs, p) {
      var o :| o in ps && PeerKind(o, p) == k;
      assert o in qs;
    }
  }

  lemma SameExtremes(p: Policy, a: seq<Name>, b: seq<Name>)
    requires a != [] && b != []
    requires forall k :: k in a ==> Known(p, k)
    requires forall k :: k in a <==> k in b
    ensures Weakest(p, a) == Weakest(p, b) && Strongest(p, a) == Strongest(p, b)
  {
    WeakestIs(p, a);
    WeakestIs(p, b);
    StrongestIs(p, a);
    StrongestIs(p, b);
    SameRankSameName(p, Weakest(p, a), Weakest(p, b));
    SameRankSameName(p, Strongest(p, a), Strongest(p, b));
  }

  lemma SameChoice(ps: seq<Peer>, qs: seq<Peer>, p: Policy, configured: Name, weakest: bool, explicit: bool)
    requires SamePeers(ps, qs)
    ensures ChooseKind(ps, p, configured, weakest, explicit) == ChooseKind(qs, p, configured, weakest, explicit)
  {
    SamePool(ps, qs, p, configured, explicit);
    var a, b := Pool(ps, p, configured, explicit), Pool(qs, p, configured, explicit);
    if a != [] {
      assert a[0] in b;
      SameExtremes(p, a, b);
    }
    assert a == [] ==> b == [] by {
      if b != [] { assert b[0] in b; }
    }
  }

  lemma SameLongest(ps: seq<Peer>, qs: seq<Peer>, a: Axis)
    requires SamePeers(ps, qs) && ps != [] && qs != []
    ensures MaxOrNone(ps, a) == MaxOrNone(qs, a)
  {
    MaxOrNoneIs(ps, a);
    MaxOrNoneIs(qs, a);
    var x :| x in ps && PeerMs(x, a) == MaxOrNone(ps, a);
    var y :| y in qs && PeerMs(y, a) == MaxOrNone(qs, a);
    assert x in qs && y in ps;
  }

  lemma SameShortest(ps: seq<Peer>, qs: seq<Peer>, a: Axis)
    requires SamePeers(ps, qs)
    ensures MinFinite(ps, a) == MinFinite(qs, a)
  {
    MinFiniteIs(ps, a);
    MinFiniteIs(qs, a);
    if MinFinite(ps, a).Some? {
      var x :| x in ps && PeerMs(x, a) == MinFinite(ps, a);
      assert x in qs;
    }
    if MinFinite(qs, a).Some? {
      var y :| y in qs && PeerMs(y, a) == MinFinite(qs, a);
      assert y in ps;
    }
  }

  lemma SameDurations(ps: seq<Peer>, qs: seq<Peer>, a: Axis)
    requires SamePeers(ps, qs) && ps != [] && qs != []
    ensures MaxOrNone(ps, a) == MaxOrNone(qs, a)
    ensures MinFinite(ps, a) == MinFinite(qs, a)
    ensures forall c :: TooStrict(ps, a, c) == TooStrict(qs, a, c)
  {
    SameLongest(ps, qs, a);
    SameShortest(ps, qs, a);
  }

  lemma SameEmptiness(ps: seq<Peer>, qs: seq<Peer>)
    requires SamePeers(ps, qs)
    ensures ps == [] <==> qs == []
  {
    if ps != [] { assert ps[0] in ps; }
    if qs != [] { assert qs[0] in qs; }
  }

  /** Neither the order nor the repetition of peers matters to any of the three operations. */
  lemma ObserveIgnoresOrder(
    ps: seq<Peer>, qs: seq<Peer>, spec: QoSSpec, hasExplicit: bool, fields: Option<set<string>>)
    requires SamePeers(ps, qs)
    ensures ReconcileObserve(ps, spec, hasExplicit, fields) == ReconcileObserve(qs, spec, hasExplicit, fields)
  {
    SameEmptiness(ps, qs);
    if ps != [] {
      SameChoice(ps, qs, Reliability, spec.reliability, true, ExplicitKind(Reliability, hasExplicit, fields));
      SameChoice(ps, qs, Durability, spec.durability, true, ExplicitKind(Durability, hasExplicit, fields));
      SameChoice(ps, qs, Liveliness, spec.liveliness, true, ExplicitKind(Liveliness, hasExplicit, fields));
      SameDurations(ps, qs, Deadline);
      SameDurations(ps, qs, Lease);
    }
  }

  lemma CommandIgnoresOrder(ps: seq<Peer>, qs: seq<Peer>, spec: QoSSpec)
    requires SamePeers(ps, qs)
    ensures ReconcileCommandSpec(ps, spec) == ReconcileCommandSpec(qs, spec)
  {
    SameEmptiness(ps, qs);
    if ps != [] {
      SameUpgrades(ps, qs, spec, POLICIES);
      SameDurations(ps, qs, Deadline);
      SameDurations(ps, qs, Lease);
    }
  }

  lemma GuardIgnoresOrder(ps: seq<Peer>, qs: seq<Peer>, spec: QoSSpec)
    requires SamePeers(ps, qs)
    ensures Demote(spec, ps) == Demote(spec, qs)
  {
    SameEmptiness(ps, qs);
    if ps != [] {
      SameDemotions(ps, qs, spec, POLICIES);
      SameDurations(ps, qs, Deadline);
      SameDurations(ps, qs, Lease);
    }
  }

  lemma {:induction false} SameUpgrades(ps: seq<Peer>, qs: seq<Peer>, spec: QoSSpec, policies: seq<Policy>)
    requires SamePeers(ps, qs)
    ensures UpgradeKinds(ps, spec, policies) == UpgradeKinds(qs, spec, policies)
  {
    if policies == [] {
    } else {
      var n := |policies| - 1;
      SameUpgrades(ps, qs, spec, policies[..n]);
      SameChoice(ps, qs, policies[n], Kind(UpgradeKinds(ps, spec, policies[..n]).0, policies[n]), false, false);
    }
  }

  lemma {:induction false} SameDemotions(ps: seq<Peer>, qs: seq<Peer>, spec: QoSSpec, policies: seq<Policy>)
    requires SamePeers(ps, qs)
    ensures DemoteKinds(ps, spec, policies) == DemoteKinds(qs, spec, policies)
  {
    if policies == [] {
    } else {
      var n := |policies| - 1;
      SameDemotions(ps, qs, spec, policies[..n]);
      SameChoice(ps, qs, policies[n], Kind(spec, policies[n]), true, false);
    }
  }
}
