/**
  Negotiation cuts durations to whole milliseconds, and the adapter turns them back into nanoseconds, where 0
  means unset. This says when the negotiated durations still fit the peers as they are.
*/
module QosNanoseconds {
  import opened Wrappers
  import opened QosModel
  import opened QosNegotiation
  import opened QosTheorems

  /** A duration in nanoseconds as the middleware reads it: 0 and the sentinel are infinite. */
  function ReadNs(ns: Option<int>): (r: Option<int>) {
    if ns.None? || ns.value == 0 || ns.value >= INT64_MAX then None else ns
  }

  function PeerNs(peer: Peer, a: Axis): (ns: Option<int>) {
    ReadNs(if a == Deadline then peer.deadlineNs else peer.leaseNs)
  }

  /** What a negotiated duration becomes at an endpoint. */
  function AppliedNs(ms: Option<int>): (ns: Option<int>) {
    if ms.None? then None else ReadNs(Some(ms.value * NS_PER_MS))
  }

  /** A request for this duration is met by the offer. */
  predicate MetAtNs(a: Axis, requested: Option<int>, offer: Peer) {
    NotShorter(AppliedNs(requested), PeerNs(offer, a))
  }

  /** An offer of this duration serves the request. */
  predicate ServedAtNs(a: Axis, offered: Option<int>, request: Peer) {
    NotShorter(PeerNs(request, a), AppliedNs(offered))
  }

  /** No offer is longer, in whole milliseconds. */
  ghost predicate Longest(a: Axis, offers: seq<Peer>, o: Peer) {
    forall q :: q in offers ==> NotShorter(PeerMs(o, a), PeerMs(q, a))
  }

  /** The duration is infinite, a whole number of milliseconds, or shorter than one. */
  predicate SurvivesTheCut(a: Axis, o: Peer) {
    PeerNs(o, a).None? || PeerNs(o, a).value % NS_PER_MS == 0 || PeerNs(o, a).value < NS_PER_MS
  }

  lemma MetByCut(a: Axis, ms: int, o: Peer)
    requires PeerMs(o, a).Some? && PeerMs(o, a).value <= ms && 0 < ms && ms * NS_PER_MS < INT64_MAX
    ensures MetAtNs(a, Some(ms), o) <==> PeerMs(o, a).value < ms || PeerNs(o, a).value % NS_PER_MS == 0
  {
    var ns := PeerNs(o, a).value;
    assert ns == ns / NS_PER_MS * NS_PER_MS + ns % NS_PER_MS;
  }

  /** A duration cut to milliseconds is no longer than it was, so it stays below the sentinel. */
  lemma CutIsShorter(a: Axis, o: Peer)
    requires PeerMs(o, a).Some?
    ensures 0 <= PeerMs(o, a).value * NS_PER_MS <= PeerNs(o, a).value < INT64_MAX
    ensures PeerMs(o, a).value == 0 <==> PeerNs(o, a).value < NS_PER_MS
  {
    var ns := PeerNs(o, a).value;
    assert ns == ns / NS_PER_MS * NS_PER_MS + ns % NS_PER_MS;
  }

  /** A writer offering 1.5 ms is asked for 1 ms, which it does not meet. */
  lemma TruncationBreaksNanoseconds()
    ensures var o := Peer(Reliable, Volatile, Automatic, Some(1_500_000), None);
            && MaxOrNone([o], Deadline) == Some(1)
            && !MetAtNs(Deadline, MaxOrNone([o], Deadline), o)
  {
  }

  lemma LongestMetIff(a: Axis, offers: seq<Peer>)
    requires offers != []
    ensures (forall o :: o in offers ==> MetAtNs(a, MaxOrNone(offers, a), o))
            <==> forall o :: o in offers && Longest(a, offers, o) ==> SurvivesTheCut(a, o)
  {
    var longest := MaxOrNone(offers, a);
    MaxOrNoneIs(offers, a);
    var w :| w in offers && PeerMs(w, a) == longest;
    assert Longest(a, offers, w);
    if longest.Some? {
      CutIsShorter(a, w);
      forall o | o in offers
        ensures PeerMs(o, a).Some? && PeerMs(o, a).value <= longest.value
        ensures Longest(a, offers, o) <==> PeerMs(o, a) == longest
        ensures longest.value > 0 ==>
                  (MetAtNs(a, longest, o)
                   <==> PeerMs(o, a).value < longest.value || PeerNs(o, a).value % NS_PER_MS == 0)
        ensures PeerMs(o, a).value == 0 <==> PeerNs(o, a).value < NS_PER_MS
      {
        assert NotShorter(longest, PeerMs(o, a));
        CutIsShorter(a, o);
        if longest.value > 0 {
          MetByCut(a, longest.value, o);
        }
      }
    }
  }

  /**
    At nanosecond granularity the negotiated request meets every offer on an axis that is not explicit exactly
    if every longest offer is infinite, a whole number of milliseconds, or shorter than one, which is asked for
    as unset.
  */
  lemma ObservedMetAtNsIff(
    offers: seq<Peer>, configured: QoSSpec, hasExplicit: bool, fields: Option<set<string>>, a: Axis)
    requires offers != [] && !ExplicitDuration(a, fields)
    ensures var r := ReconcileObserve(offers, configured, hasExplicit, fields).0;
            (forall o :: o in offers ==> MetAtNs(a, Ms(r, a), o))
            <==> forall o :: o in offers && Longest(a, offers, o) ==> SurvivesTheCut(a, o)
  {
    ObserveByField(offers, configured, hasExplicit, fields);
    LongestMetIff(a, offers);
  }

  lemma ShortestServedIff(a: Axis, requests: seq<Peer>, configured: Option<int>)
    requires configured.Some? ==> configured.value >= 0
    ensures (forall q :: q in requests ==> ServedAtNs(a, OfferedDuration(requests, a, configured), q))
            <==> || (forall q :: q in requests ==> PeerNs(q, a).None?)
                 || (configured != Some(0) && forall q :: q in requests ==> PeerMs(q, a) != Some(0))
  {
    var needed, offered := MinFinite(requests, a), OfferedDuration(requests, a, configured);
    MinFiniteIs(requests, a);
    forall q | q in requests && PeerMs(q, a).Some?
      ensures needed.Some? && 0 <= needed.value <= PeerMs(q, a).value
      ensures ServedAtNs(a, offered, q) <==> offered != Some(0)
    {
      assert NotShorter(PeerMs(q, a), needed);
      var w :| w in requests && PeerMs(w, a) == needed;
      CutIsShorter(a, w);
      CutIsShorter(a, q);
      assert 0 <= offered.value <= needed.value;
    }
  }

  /**
    At nanosecond granularity the negotiated offer serves every request on an axis exactly if all of them are
    infinite, or neither the configured duration is 0 ms nor any finite request is cut to 0 ms: an offer of
    0 ms is applied as unset and serves no finite request.
  */
  lemma CommandServesAtNsIff(requests: seq<Peer>, configured: QoSSpec, a: Axis)
    requires requests != [] && (Ms(configured, a).Some? ==> Ms(configured, a).value >= 0)
    ensures var r := ReconcileCommandSpec(requests, configured).0;
            (forall q :: q in requests ==> ServedAtNs(a, Ms(r, a), q))
            <==> || (forall q :: q in requests ==> PeerNs(q, a).None?)
                 || (Ms(configured, a) != Some(0) && forall q :: q in requests ==> PeerMs(q, a) != Some(0))
  {
    CommandByField(requests, configured);
    ShortestServedIff(a, requests, Ms(configured, a));
  }
}
