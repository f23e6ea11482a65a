/** The catch-up sweep of one container, as it runs: sort the listing, admit from the marker on, move the marker. */
module CatchUp {
  import opened Wrappers
  import opened Inbound

  /** What admission answers. */
  datatype Verdict = Accepted | Duplicate | Invalid | Overflowed | Denied

  predicate Good(v: Verdict) {
    v != Overflowed && v != Denied
  }

  /* ---- sorting a listing ---- */

  ghost predicate Sorted(cins: seq<Cin>) {
    forall i, j :: 0 <= i < j < |cins| ==> NotAfter(cins[i], cins[j])
  }

  /** list.sort is stable: an element goes behind those it does not precede. */
  function InsertSorted(cins: seq<Cin>, x: Cin): (r: seq<Cin>) {
    if cins == [] || NotAfter(cins[|cins| - 1], x) then cins + [x]
    else InsertSorted(cins[..|cins| - 1], x) + [cins[|cins| - 1]]
  }

  function Sort(cins: seq<Cin>): (r: seq<Cin>) {
    if cins == [] then [] else InsertSorted(Sort(cins[..|cins| - 1]), cins[|cins| - 1])
  }

  lemma {:induction false} InsertKeeps(cins: seq<Cin>, x: Cin)
    ensures multiset(InsertSorted(cins, x)) == multiset(cins) + multiset{x}
    ensures Sorted(cins) ==> Sorted(InsertSorted(cins, x))
    ensures forall y :: y in InsertSorted(cins, x) ==> y in cins || y == x
  {
    if cins == [] || NotAfter(cins[|cins| - 1], x) {
    } else {
      var front, last := cins[..|cins| - 1], cins[|cins| - 1];
      InsertKeeps(front, x);
      assert cins == front + [last];
      var r := InsertSorted(front, x);
      if Sorted(cins) {
        forall i | 0 <= i < |r| ensures NotAfter(r[i], last) {
          assert r[i] in front || r[i] == x;
        }
      }
    }
  }

  /** A sorted listing is the same listing in order. */
  lemma {:induction false} SortSorts(cins: seq<Cin>)
    ensures Sorted(Sort(cins)) && multiset(Sort(cins)) == multiset(cins)
  {
    if cins == [] {
    } else {
      var front, last := cins[..|cins| - 1], cins[|cins| - 1];
      SortSorts(front);
      InsertKeeps(Sort(front), last);
      assert cins == front + [last];
    }
  }

  /** The order of the listing in fields: by time, those without one first, and by resource id at the same time. */
  lemma SortedByTime(cins: seq<Cin>, i: nat, j: nat)
    requires i < j < |Sort(cins)|
    ensures var (a, b) := (Sort(cins)[i], Sort(cins)[j]);
            && (a.ct.Some? ==> b.ct.Some? && a.ct.value <= b.ct.value)
            && (a.ct == b.ct ==> a.ri <= b.ri)
  {
    SortSorts(cins);
  }

  /* ---- what a sweep comes to ---- */

  /** Where the scan of a sorted listing stops: at the first refusal, old notifications being passed over. */
  function Stop(cins: seq<Cin>, verdicts: seq<Verdict>, marker: Option<int>, n: nat): (k: nat)
    requires |verdicts| == |cins| && n <= |cins|
    ensures n <= k <= |cins|
    decreases |cins| - n
  {
    if n == |cins| || (!Below(cins[n].ct, marker) && !Good(verdicts[n])) then n else Stop(cins, verdicts, marker, n + 1)
  }

  /** The latest time among the notifications before n that were not passed over, or the time started from. */
  function Advance(cins: seq<Cin>, marker: Option<int>, start: Option<int>, n: nat): (t: Option<int>)
    requires n <= |cins|
  {
    if n == 0 then start
    else
      var t := Advance(cins, marker, start, n - 1);
      if Below(cins[n - 1].ct, marker) then t else Later(t, cins[n - 1].ct)
  }

  function Completed(cins: seq<Cin>, marker: Option<int>, n: nat): (t: Option<int>)
    requires n <= |cins|
  {
    Advance(cins, marker, marker, n)
  }

  function Injected(cins: seq<Cin>, verdicts: seq<Verdict>, marker: Option<int>, n: nat): (count: nat)
    requires |verdicts| == |cins| && n <= |cins|
  {
    if n == 0 then 0
    else
      Injected(cins, verdicts, marker, n - 1)
      + if !Below(cins[n - 1].ct, marker) && verdicts[n - 1] == Accepted then 1 else 0
  }

  /**
    A scan passes over what is older than the marker and whatever admission answers to the rest, but for an
    overflow or a denial: it stops exactly at the first notification, not older than the marker, that gets one.
  */
  lemma {:induction false} StopsAtRefusal(cins: seq<Cin>, verdicts: seq<Verdict>, marker: Option<int>, n: nat)
    requires |verdicts| == |cins| && n <= |cins|
    ensures var k := Stop(cins, verdicts, marker, n);
            && (k < |cins| ==>
                  && verdicts[k] in {Overflowed, Denied}
                  && !(cins[k].ct.Some? && marker.Some? && cins[k].ct.value < marker.value))
            && forall m :: n <= m < k && verdicts[m] in {Overflowed, Denied} ==>
                 cins[m].ct.Some? && marker.Some? && cins[m].ct.value < marker.value
    decreases |cins| - n
  {
    if n == Stop(cins, verdicts, marker, n) {
    } else {
      StopsAtRefusal(cins, verdicts, marker, n + 1);
    }
  }

  /** The completed time is no earlier than the marker, and is the marker's or that of a scanned notification. */
  lemma {:induction false} CompletedFrom(cins: seq<Cin>, marker: Option<int>, n: nat)
    requires n <= |cins|
    ensures var t := Completed(cins, marker, n);
            && (marker.Some? ==> t.Some? && marker.value <= t.value)
            && (t == marker || exists i :: 0 <= i < n && cins[i].ct == t)
  {
    if n == 0 {
    } else {
      CompletedFrom(cins, marker, n - 1);
    }
  }

  /**
    One sweep moves the marker over nothing it did not see: a listed notification older than the new marker is
    older than the old one too, or was admitted in this sweep with a good verdict.
  */
  lemma MarkerPassesOnlySeen(cins: seq<Cin>, verdicts: seq<Verdict>, marker: Option<int>, i: nat)
    requires Sorted(cins) && |verdicts| == |cins| && i < |cins|
    ensures var k := Stop(cins, verdicts, marker, 0);
            Below(cins[i].ct, Completed(cins, marker, k)) ==>
              Below(cins[i].ct, marker) || (i < k && Good(verdicts[i]))
  {
    var k := Stop(cins, verdicts, marker, 0);
    var t := Completed(cins, marker, k);
    CompletedFrom(cins, marker, k);
    if Below(cins[i].ct, t) && !Below(cins[i].ct, marker) {
      var j :| 0 <= j < k && cins[j].ct == t;
      assert i < j || NotAfter(cins[j], cins[i]);
      StopsAtRefusal(cins, verdicts, marker, 0);
    }
  }

  /** The completed time is no earlier than that of any scanned notification. */
  lemma {:induction false} CompletedCovers(cins: seq<Cin>, marker: Option<int>, n: nat, i: nat)
    requires i < n <= |cins|
    ensures cins[i].ct.Some? ==>
              Completed(cins, marker, n).Some? && cins[i].ct.value <= Completed(cins, marker, n).value
  {
    if i == n - 1 {
      CompletedFrom(cins, marker, n - 1);
    } else {
      CompletedCovers(cins, marker, n - 1, i);
    }
  }

  /** The notifications accepted among the first n: those not older than the marker that are answered so. */
  ghost function AcceptedOf(cins: seq<Cin>, verdicts: seq<Verdict>, marker: Option<int>, n: nat): (ks: set<nat>)
    requires |verdicts| == |cins| && n <= |cins|
  {
    set i: nat | i < n && verdicts[i] == Accepted
                 && !(cins[i].ct.Some? && marker.Some? && cins[i].ct.value < marker.value)
  }

  lemma {:induction false} InjectedCounts(cins: seq<Cin>, verdicts: seq<Verdict>, marker: Option<int>, n: nat)
    requires |verdicts| == |cins| && n <= |cins|
    ensures Injected(cins, verdicts, marker, n) == |AcceptedOf(cins, verdicts, marker, n)|
  {
    if n == 0 {
    } else {
      InjectedCounts(cins, verdicts, marker, n - 1);
      var before, now := AcceptedOf(cins, verdicts, marker, n - 1), AcceptedOf(cins, verdicts, marker, n);
      assert now == if n - 1 in now then before + {n - 1} else before;
    }
  }

  /**
    If no listed notification overflows or is denied, the sweep gets through the listing: the marker becomes the
    latest time listed, or stays if that is not later, and the count is that of the accepted ones. Duplicates and
    notifications without a route do not hold it up.
  */
  lemma UnrefusedSweepCompletes(cins: seq<Cin>, verdicts: seq<Verdict>, marker: Option<int>)
    requires |verdicts| == |cins| && forall i :: 0 <= i < |cins| ==> verdicts[i] !in {Overflowed, Denied}
    ensures var k := Stop(cins, verdicts, marker, 0);
            var t := Completed(cins, marker, k);
            && k == |cins|
            && (t == marker || exists i :: 0 <= i < |cins| && cins[i].ct == t)
            && (marker.Some? ==> t.Some? && marker.value <= t.value)
            && (forall i :: 0 <= i < |cins| && cins[i].ct.Some? ==> t.Some? && cins[i].ct.value <= t.value)
            && Injected(cins, verdicts, marker, k) == |AcceptedOf(cins, verdicts, marker, |cins|)|
  {
    StopsAtRefusal(cins, verdicts, marker, 0);
    CompletedFrom(cins, marker, |cins|);
    InjectedCounts(cins, verdicts, marker, |cins|);
    forall i | 0 <= i < |cins|
      ensures cins[i].ct.Some? ==>
                Completed(cins, marker, |cins|).Some? && cins[i].ct.value <= Completed(cins, marker, |cins|).value
    {
      CompletedCovers(cins, marker, |cins|, i);
    }
  }

  /* ---- the sweeper ---- */

  /** The two persisted times of each path: the recovery marker, and the latest accepted notification. */
  class CatchUpSweeper {
    var markers: map<string, Option<int>>
    var latest: map<string, Option<int>>

    constructor ()
      ensures markers == map[] && latest == map[]
    {
      markers, latest := map[], map[];
    }

    function Latest(path: string): (t: Option<int>)
      reads this
    {
      if path in latest then latest[path] else None
    }

    /** A path without a marker takes over the older cursor once. */
    method InitializeMarker(path: string)
      modifies this`markers
      ensures markers == if path in old(markers) then old(markers) else old(markers)[path := Latest(path)]
    {
      if path !in markers {
        markers := markers[path := Latest(path)];
      }
    }

    /** The cursor of accepted notifications only moves forward, and never touches the recovery marker. */
    method MarkProcessed(path: string, ct: Option<int>)
      modifies this`latest
      ensures Latest(path) == Later(old(Latest(path)), ct)
      ensures forall p :: p != path ==> Latest(p) == old(Latest(p))
    {
      if ct.Some? {
        var prev := Latest(path);
        if prev.None? || ct.value > prev.value {
          latest := latest[path := ct];
        }
      }
    }

    /**
      _sweep_one, for the listing read and the verdicts its notifications get in order: the marker, the cursor of
      accepted notifications and the count come from the notifications before the stop.
    */
    method SweepOne(path: string, listing: seq<Cin>, verdicts: seq<Verdict>) returns (count: nat)
      requires path in markers && |verdicts| == |listing|
      modifies this
      ensures var cins := Sort(listing);
              && |cins| == |listing|
              && (var marker := old(markers)[path];
                  var k := Stop(cins, verdicts, marker, 0);
                  markers == old(markers)[path := Completed(cins, marker, k)]
                  && Latest(path) == Advance(cins, marker, old(Latest(path)), k)
                  && count == Injected(cins, verdicts, marker, k))
    {
      SortSorts(listing);
      var cins := Sort(listing);
      assert |cins| == |multiset(cins)| == |multiset(listing)| == |listing|;
      var marker := markers[path];
      var completed := marker;
      count := 0;
      var n := 0;
      while n < |cins|
        invariant n <= |cins| && markers == old(markers)
        invariant Latest(path) == Advance(cins, marker, old(Latest(path)), n)
        invariant completed == Completed(cins, marker, n) && count == Injected(cins, verdicts, marker, n)
        invariant Stop(cins, verdicts, marker, 0) == Stop(cins, verdicts, marker, n)
      {
        var ct := cins[n].ct;
        if !Below(ct, marker) {
          var verdict := verdicts[n];
          if verdict == Overflowed || verdict == Denied {
            break;
          }
          MarkProcessed(path, ct);
          completed := Later(completed, ct);
          if verdict == Accepted {
            count := count + 1;
          }
        }
        n := n + 1;
      }
      CompletedFrom(cins, marker, n);
      if completed.Some? && completed != marker {
        markers := markers[path := completed];
      }
    }
  }
}
