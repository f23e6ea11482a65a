/**
  Suppression of the bridge's own command samples on a bidirectional topic
  (_is_self_echo and the hash recording of publish_command in adapter/ros2.py).
*/
module SelfEcho {

  /** One own publish. The number only names the publish; the code keeps hash and time. */
  datatype Own = Own(hash: string, time: real, number: nat)

  predicate IsFresh(o: Own, now: real, window: real) {
    now - o.time < window
  }

  function Fresh(recent: seq<Own>, now: real, window: real): (r: seq<Own>) {
    if recent == [] then []
    else
      var rest := Fresh(recent[..|recent| - 1], now, window);
      var last := recent[|recent| - 1];
      if IsFresh(last, now, window) then rest + [last] else rest
  }

  /** Position of the oldest entry with the hash, |s| if there is none. */
  function FirstWith(s: seq<Own>, hash: string): (i: nat)
    ensures i <= |s|
    ensures i < |s| ==> s[i].hash == hash
    ensures forall j :: 0 <= j < i ==> s[j].hash != hash
  {
    if s == [] || s[0].hash == hash then 0 else 1 + FirstWith(s[1..], hash)
  }

  function Without(s: seq<Own>, i: nat): (r: seq<Own>)
    requires i < |s|
  {
    s[..i] + s[i + 1..]
  }

  predicate Suppresses(recent: seq<Own>, hash: string, now: real, window: real) {
    var live := Fresh(recent, now, window);
    FirstWith(live, hash) < |live|
  }

  function AfterSample(recent: seq<Own>, hash: string, now: real, window: real): (r: seq<Own>) {
    var live := Fresh(recent, now, window);
    var i := FirstWith(live, hash);
    if i < |live| then Without(live, i) else live
  }

  class CommandState {
    var recentHashes: seq<Own>

    constructor ()
      ensures recentHashes == []
    {
      recentHashes := [];
    }

    /** Only what is published on a topic that is also observed can come back. */
    method RecordPublish(bidirectional: bool, hash: string, now: real, number: nat)
      modifies this
      ensures recentHashes == if bidirectional then old(recentHashes) + [Own(hash, now, number)] else old(recentHashes)
    {
      if bidirectional {
        recentHashes := recentHashes + [Own(hash, now, number)];
      }
    }

    method IsSelfEcho(hash: string, now: real, window: real) returns (echo: bool)
      modifies this
      ensures echo == Suppresses(old(recentHashes), hash, now, window)
      ensures recentHashes == AfterSample(old(recentHashes), hash, now, window)
    {
      var live := [];
      for k := 0 to |recentHashes|
        invariant recentHashes == old(recentHashes)
        invariant live == Fresh(recentHashes[..k], now, window)
      {
        assert recentHashes[..k + 1][..k] == recentHashes[..k];
        if IsFresh(recentHashes[k], now, window) {
          live := live + [recentHashes[k]];
        }
      }
      assert recentHashes[..|recentHashes|] == recentHashes;
      for i := 0 to |live|
        invariant recentHashes == old(recentHashes)
        invariant forall j :: 0 <= j < i ==> live[j].hash != hash
      {
        if live[i].hash == hash {
          recentHashes := Without(live, i);
          return true;
        }
      }
      recentHashes := live;
      return false;
    }
  }

  /* ---- whole runs of publishes and received samples ---- */

  datatype Event =
    | Publish(hash: string, time: real)
    | Sample(hash: string, time: real)

  ghost predicate Monotone(events: seq<Event>) {
    forall i, j :: 0 <= i <= j < |events| ==> events[i].time <= events[j].time
  }

  ghost function Recent(events: seq<Event>, window: real): (r: seq<Own>) {
    if events == [] then []
    else
      var n := |events| - 1;
      var before := Recent(events[..n], window);
      match events[n]
      case Publish(hash, time) => before + [Own(hash, time, n)]
      case Sample(hash, time) => AfterSample(before, hash, time, window)
  }

  ghost predicate SuppressedAt(events: seq<Event>, window: real, i: nat)
    requires i < |events|
  {
    events[i].Sample? && Suppresses(Recent(events[..i], window), events[i].hash, events[i].time, window)
  }

  /** Pairs every suppressed sample with the publish that it consumes. */
  ghost function Matching(events: seq<Event>, window: real): (m: map<nat, nat>) {
    if events == [] then map[]
    else
      var n := |events| - 1;
      var m := Matching(events[..n], window);
      if SuppressedAt(events, window, n) then
        var live := Fresh(Recent(events[..n], window), events[n].time, window);
        m[n := live[FirstWith(live, events[n].hash)].number]
      else m
  }

  ghost predicate Ordered(recent: seq<Own>) {
    forall i, j :: 0 <= i < j < |recent| ==> recent[i].number < recent[j].number
  }

  lemma {:induction false} FreshKeepsOrder(recent: seq<Own>, now: real, window: real)
    requires Ordered(recent)
    ensures Ordered(Fresh(recent, now, window))
    ensures forall o :: o in Fresh(recent, now, window) <==> o in recent && IsFresh(o, now, window)
  {
    if recent == [] {
    } else {
      var front, last := recent[..|recent| - 1], recent[|recent| - 1];
      FreshKeepsOrder(front, now, window);
      assert recent == front + [last];
      forall o | o in Fresh(front, now, window) ensures o.number < last.number {
        assert o in front;
      }
    }
  }

  /** A suppressed sample takes exactly one entry away, and only stale ones go with it. */
  lemma AfterSampleEntries(recent: seq<Own>, hash: string, now: real, window: real)
    requires Ordered(recent)
    ensures Ordered(AfterSample(recent, hash, now, window))
    ensures forall o :: o in AfterSample(recent, hash, now, window) <==>
              && o in recent
              && IsFresh(o, now, window)
              && !(Suppresses(recent, hash, now, window) && o == Taken(recent, hash, now, window))
    ensures Suppresses(recent, hash, now, window) ==>
              && Taken(recent, hash, now, window) in recent
              && Taken(recent, hash, now, window).hash == hash
              && IsFresh(Taken(recent, hash, now, window), now, window)
    ensures !Suppresses(recent, hash, now, window) ==>
              forall o :: o in recent && IsFresh(o, now, window) ==> o.hash != hash
  {
    FreshKeepsOrder(recent, now, window);
    var live := Fresh(recent, now, window);
    var i := FirstWith(live, hash);
    if i < |live| {
      assert live == live[..i] + [live[i]] + live[i + 1..];
      assert live[i] in live;
    }
  }

  /** The entry that a suppressed sample consumes. */
  ghost function Taken(recent: seq<Own>, hash: string, now: real, window: real): (o: Own)
    requires Suppresses(recent, hash, now, window)
  {
    var live := Fresh(recent, now, window);
    live[FirstWith(live, hash)]
  }

  /** Publish j has been consumed by an earlier sample. */
  ghost predicate Consumed(m: map<nat, nat>, j: nat) {
    exists i :: i in m && m[i] == j
  }

  /** Every remembered entry is an unconsumed publish of the run. */
  ghost predicate Remembered(events: seq<Event>, recent: seq<Own>, m: map<nat, nat>) {
    forall o :: o in recent ==>
      && o.number < |events|
      && events[o.number] == Publish(o.hash, o.time)
      && !Consumed(m, o.number)
  }

  /** Every unconsumed publish is remembered, unless it is too old at time `now`. */
  ghost predicate NoneForgotten(events: seq<Event>, recent: seq<Own>, m: map<nat, nat>, now: real, window: real) {
    forall j :: 0 <= j < |events| && events[j].Publish? && !Consumed(m, j) ==>
      || Own(events[j].hash, events[j].time, j) in recent
      || now - events[j].time >= window
  }

  /** i is a sample that took the earlier publish m[i], of the same hash and younger than the window. */
  ghost predicate PairedAt(events: seq<Event>, m: map<nat, nat>, window: real, i: nat) {
    && i in m && m[i] < i < |events|
    && events[m[i]] == Publish(events[i].hash, events[m[i]].time)
    && events[i].time - events[m[i]].time < window
  }

  ghost predicate DomainIsSuppressed(events: seq<Event>, window: real, m: map<nat, nat>) {
    forall i: nat :: i in m <==> i < |events| && SuppressedAt(events, window, i)
  }

  ghost predicate AllPaired(events: seq<Event>, m: map<nat, nat>, window: real) {
    forall i :: i in m ==> PairedAt(events, m, window, i)
  }

  ghost predicate Injective(m: map<nat, nat>) {
    forall i, k :: i in m && k in m && m[i] == m[k] ==> i == k
  }

  /** Every suppressed sample has its own earlier, equal and recent publish. */
  ghost predicate MatchingIsSound(events: seq<Event>, window: real) {
    var m := Matching(events, window);
    DomainIsSuppressed(events, window, m) && AllPaired(events, m, window) && Injective(m)
  }

  ghost predicate RecentIsUnconsumed(events: seq<Event>, window: real, now: real) {
    var recent, m := Recent(events, window), Matching(events, window);
    Ordered(recent) && Remembered(events, recent, m) && NoneForgotten(events, recent, m, now, window)
  }

  lemma DomainStep(events: seq<Event>, window: real)
    requires events != []
    requires DomainIsSuppressed(events[..|events| - 1], window, Matching(events[..|events| - 1], window))
    ensures DomainIsSuppressed(events, window, Matching(events, window))
  {
    var n := |events| - 1;
    var m, m' := Matching(events[..n], window), Matching(events, window);
    assert forall i :: i in m' <==> i in m || (i == n && SuppressedAt(events, window, n));
    forall i: nat ensures i in m' <==> i < |events| && SuppressedAt(events, window, i) {
      if i < n {
        SuppressedInPrefix(events, window, n, i);
      }
    }
  }

  lemma SuppressedInPrefix(events: seq<Event>, window: real, n: nat, i: nat)
    requires i < n <= |events|
    ensures SuppressedAt(events[..n], window, i) == SuppressedAt(events, window, i)
  {
    assert events[..n][..i] == events[..i];
  }

  lemma PairedStep(events: seq<Event>, m: map<nat, nat>, window: real)
    requires events != [] && AllPaired(events[..|events| - 1], m, window)
    ensures AllPaired(events, m, window)
  {
  }

  /** There is an injection from suppressed samples to earlier own publishes within the window. */
  lemma {:induction false} EachEchoConsumesOnePublish(events: seq<Event>, window: real, now: real)
    requires Monotone(events)
    requires events != [] ==> events[|events| - 1].time <= now
    ensures MatchingIsSound(events, window)
    ensures RecentIsUnconsumed(events, window, now)
  {
    if events == [] {
    } else {
      var n := |events| - 1;
      var earlier, e := events[..n], events[n];
      EachEchoConsumesOnePublish(earlier, window, e.time);
      var m, recent := Matching(earlier, window), Recent(earlier, window);
      DomainStep(events, window);
      PairedStep(events, m, window);
      match e
      case Publish(hash, time) =>
        assert AllPaired(earlier, m, window);
        PublishKeeps(events, recent, m, window, now);
      case Sample(hash, time) =>
        SampleKeepsRecent(events, recent, m, window, now);
        SampleKeepsMatching(events, recent, m, window);
    }
  }

  lemma PublishKeeps(events: seq<Event>, recent: seq<Own>, m: map<nat, nat>, window: real, now: real)
    requires events != [] && events[|events| - 1].Publish? && events[|events| - 1].time <= now
    requires AllPaired(events[..|events| - 1], m, window)
    requires Ordered(recent) && Remembered(events[..|events| - 1], recent, m)
    requires NoneForgotten(events[..|events| - 1], recent, m, events[|events| - 1].time, window)
    ensures var own := Own(events[|events| - 1].hash, events[|events| - 1].time, |events| - 1);
            && Ordered(recent + [own])
            && Remembered(events, recent + [own], m)
            && NoneForgotten(events, recent + [own], m, now, window)
  {
  }

  /** The pairs after a sample. */
  ghost function Pair(m: map<nat, nat>, recent: seq<Own>, e: Event, n: nat, window: real): (m': map<nat, nat>) {
    if Suppresses(recent, e.hash, e.time, window) then m[n := Taken(recent, e.hash, e.time, window).number] else m
  }

  lemma SampleKeepsMatching(events: seq<Event>, recent: seq<Own>, m: map<nat, nat>, window: real)
    requires events != [] && events[|events| - 1].Sample?
    requires AllPaired(events, m, window) && Injective(m) && |events| - 1 !in m
    requires Ordered(recent) && Remembered(events[..|events| - 1], recent, m)
    ensures AllPaired(events, Pair(m, recent, events[|events| - 1], |events| - 1, window), window)
    ensures Injective(Pair(m, recent, events[|events| - 1], |events| - 1, window))
  {
    var n := |events| - 1;
    var e := events[n];
    var m' := Pair(m, recent, e, n, window);
    AfterSampleEntries(recent, e.hash, e.time, window);
    if m' != m {
      assert !Consumed(m, m'[n]);
      assert PairedAt(events, m', window, n);
    }
    forall i | i in m' ensures PairedAt(events, m', window, i) {
      if i != n {
        assert PairedAt(events, m, window, i);
      }
    }
  }

  lemma SampleKeepsRecent(events: seq<Event>, recent: seq<Own>, m: map<nat, nat>, window: real, now: real)
    requires events != [] && events[|events| - 1].Sample? && events[|events| - 1].time <= now
    requires |events| - 1 !in m
    requires Ordered(recent) && Remembered(events[..|events| - 1], recent, m)
    requires NoneForgotten(events[..|events| - 1], recent, m, events[|events| - 1].time, window)
    ensures var e := events[|events| - 1];
            var after := AfterSample(recent, e.hash, e.time, window);
            var m' := Pair(m, recent, e, |events| - 1, window);
            && Ordered(after)
            && Remembered(events, after, m')
            && NoneForgotten(events, after, m', now, window)
  {
    var n := |events| - 1;
    var earlier, e := events[..n], events[n];
    var after, m' := AfterSample(recent, e.hash, e.time, window), Pair(m, recent, e, n, window);
    AfterSampleEntries(recent, e.hash, e.time, window);
    forall j: nat | Consumed(m', j) ensures Consumed(m, j) || (n in m' && j == m'[n]) {
      var i :| i in m' && m'[i] == j;
    }
    forall j: nat | Consumed(m, j) ensures Consumed(m', j) {
      var i :| i in m && m[i] == j;
      assert i in m' && m'[i] == j;
    }
    if n in m' {
      assert Consumed(m', m'[n]);
    }
    forall o | o in after
      ensures o.number < |events| && events[o.number] == Publish(o.hash, o.time) && !Consumed(m', o.number)
    {
      if n in m' {
        NumbersDiffer(recent, o, Taken(recent, e.hash, e.time, window));
      }
    }
    forall j | 0 <= j < |events| && events[j].Publish? && !Consumed(m', j)
      ensures Own(events[j].hash, events[j].time, j) in after || now - events[j].time >= window
    {
      assert earlier[j] == events[j];
    }
  }

  lemma NumbersDiffer(recent: seq<Own>, o: Own, p: Own)
    requires Ordered(recent) && o in recent && p in recent && o != p
    ensures o.number != p.number
  {
  }

  /** A sample is suppressed exactly when an equal publish of the window is still unconsumed. */
  lemma SuppressedExactly(events: seq<Event>, window: real, i: nat)
    requires Monotone(events) && i < |events| && events[i].Sample?
    ensures SuppressedAt(events, window, i)
       <==> exists j: nat :: j < i
              && events[j] == Publish(events[i].hash, events[j].time)
              && events[i].time - events[j].time < window
              && !Consumed(Matching(events[..i], window), j)
  {
    var earlier, e := events[..i], events[i];
    EachEchoConsumesOnePublish(earlier, window, e.time);
    var before := Recent(earlier, window);
    AfterSampleEntries(before, e.hash, e.time, window);
    forall j: nat | j < i && events[j] == Publish(events[i].hash, events[j].time)
                    && events[i].time - events[j].time < window
      ensures Consumed(Matching(earlier, window), j) || Own(events[j].hash, events[j].time, j) in before
    {
      assert earlier[j] == events[j];
    }
    if SuppressedAt(events, window, i) {
      var o := Taken(before, e.hash, e.time, window);
      assert events[o.number] == Publish(events[i].hash, events[o.number].time);
    }
  }
}
