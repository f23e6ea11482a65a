/**
  The catch-up marker is a watermark: nothing below it is unseen, whatever notifications come in between, and
  without a crash nothing refused is below it.
*/
module InboundWatermark {
  import opened Wrappers
  import opened Ledgers
  import opened InboundQueues
  import opened Inbound

  /* ---- what is below a time is seen ---- */

  /** Every notification older than the given time has had a good verdict. */
  ghost predicate Seen(s: State, time: Option<int>) {
    forall i: nat :: i < |s.container| && Below(s.container[i].ct, time) ==> i in s.good
  }

  /** The time is that of a stored notification, so what is appended later is no older. */
  ghost predicate Stored(s: State, time: Option<int>) {
    time.Some? ==> exists i :: 0 <= i < |s.container| && s.container[i].ct == time
  }

  predicate AtMost(a: Option<int>, b: Option<int>) {
    a.None? || (b.Some? && a.value <= b.value)
  }

  /** What a sweep has passed is seen; what it will not meet is no older than anything it lists. */
  ghost predicate SweepOk(s: State, w: Sweep) {
    && w.base == s.marker && AtMost(w.base, w.completed) && w.pos <= |w.order|
    && Stored(s, w.completed) && Seen(s, w.completed)
    && (forall a :: 0 <= a < |w.order| ==> w.order[a] < |s.container|)
    && (forall a, b :: 0 <= a < b < |w.order| ==> NotAfter(s.container[w.order[a]], s.container[w.order[b]]))
    && (forall a :: 0 <= a < w.pos ==> w.order[a] in s.good)
    && (forall i: nat, a :: i < |s.container| && i !in w.order && 0 <= a < |w.order| ==>
          !Below(s.container[i].ct, s.container[w.order[a]].ct))
  }

  /** An admission for the sweep is about its next notification. */
  ghost predicate LockOk(c: Config, s: State) {
    s.lock.Some? ==>
      var a := s.lock.value;
      && (a.cin.Some? ==> a.cin.value < |s.container| && s.container[a.cin.value].event == Some(a.event))
      && (a.cin.None? ==> !Mine(c, a.event.key))
      && (a.bySweep ==> a.cin.Some? && s.sweep.Some? && !s.sweep.value.broken
                        && s.sweep.value.pos < |s.sweep.value.order|
                        && s.sweep.value.order[s.sweep.value.pos] == a.cin.value)
  }

  ghost predicate Watermark(c: Config, s: State) {
    && Stored(s, s.marker) && Seen(s, s.marker)
    && LockOk(c, s)
    && (s.sweep.Some? ==> SweepOk(s, s.sweep.value))
  }

  /* ---- the container grows ---- */

  lemma AppendSeen(s: State, item: Cin, time: Option<int>)
    requires Stored(s, time) && Seen(s, time) && Appends(s.container, item)
    ensures Stored(s.(container := s.container + [item]), time) && Seen(s.(container := s.container + [item]), time)
  {
    var t := s.(container := s.container + [item]);
    if time.Some? {
      var j :| 0 <= j < |s.container| && s.container[j].ct == time;
      assert t.container[j].ct == time;
    }
  }

  lemma AppendSweep(s: State, item: Cin, w: Sweep)
    requires SweepOk(s, w) && Appends(s.container, item)
    ensures SweepOk(s.(container := s.container + [item]), w)
  {
    AppendSeen(s, item, w.completed);
  }

  lemma AppendKeeps(c: Config, s: State, item: Cin)
    requires Watermark(c, s) && Appends(s.container, item)
    ensures Watermark(c, s.(container := s.container + [item]))
  {
    AppendSeen(s, item, s.marker);
    if s.sweep.Some? {
      AppendSweep(s, item, s.sweep.value);
    }
  }

  /* ---- a sweep moves on ---- */

  /** Everything older than the notification a sweep has reached is seen: it came earlier, or is below the base. */
  lemma ReachedSeen(s: State, w: Sweep)
    requires SweepOk(s, w) && w.pos < |w.order|
    ensures Seen(s, s.container[w.order[w.pos]].ct)
  {
  }

  /** A good verdict for the notification a sweep has reached. */
  lemma AdvanceKeeps(s: State, w: Sweep, good: set<nat>)
    requires SweepOk(s, w) && w.pos < |w.order| && good == s.good + {w.order[w.pos]}
    ensures SweepOk(s.(good := good), Advanced(w, s.container[w.order[w.pos]].ct, true))
  {
  }

  lemma MoreGood(s: State, w: Sweep, good: set<nat>)
    requires SweepOk(s, w) && s.good <= good
    ensures SweepOk(s.(good := good), w)
  {
  }

  lemma SkipKeeps(s: State, w: Sweep)
    requires SweepOk(s, w) && w.pos < |w.order| && Seen(s, s.marker)
    requires Below(s.container[w.order[w.pos]].ct, w.base)
    ensures SweepOk(s, w.(pos := w.pos + 1))
  {
  }

  lemma StartKeeps(s: State, order: seq<nat>)
    requires Stored(s, s.marker) && Seen(s, s.marker) && Listing(s.container, order)
    ensures SweepOk(s, Sweep(order, 0, s.marker, s.marker, false))
  {
  }

  /** The state the invariant looks at, apart from tables and queue. */
  ghost predicate SameWatch(s: State, t: State) {
    t.container == s.container && t.marker == s.marker && t.good == s.good && t.sweep == s.sweep
  }

  lemma WatchKeeps(c: Config, s: State, t: State)
    requires Watermark(c, s) && SameWatch(s, t) && LockOk(c, t)
    ensures Watermark(c, t)
  {
  }

  lemma ReturnGood(c: Config, s: State)
    requires Watermark(c, s) && s.lock.Some?
    ensures Watermark(c, Return(s, true))
  {
    var a, t := s.lock.value, Return(s, true);
    if s.sweep.Some? {
      if a.bySweep {
        AdvanceKeeps(s, s.sweep.value, t.good);
        assert SweepOk(t, t.sweep.value);
      } else {
        MoreGood(s, s.sweep.value, t.good);
        assert SweepOk(t, t.sweep.value);
      }
    }
  }

  lemma ReturnBad(c: Config, s: State)
    requires Watermark(c, s) && s.lock.Some?
    ensures Watermark(c, Return(s, false))
  {
  }

  lemma LockedKeeps(c: Config, s: State, a: Action)
    requires Watermark(c, s) && Enabled(c, s, a) && (a.InsertRow? || a.ReacceptRow? || a.PutEvent? || a.MarkRow?)
    ensures Watermark(c, Apply(c, s, a))
  {
    var k := s.lock.value.event.key;
    if a.MarkRow? {
      var u := s.(table := Mark(s.table, k));
      WatchKeeps(c, s, u);
      ReturnBad(c, u);
    } else if a.ReacceptRow? && !Is(s.table, k, Overflow) {
      ReturnGood(c, s);
    } else if a.PutEvent? && Put(s.lanes, c.bounds, s.lock.value.event, s.lock.value.event.kind == Cancel).Some? {
      var u := s.(lanes := Put(s.lanes, c.bounds, s.lock.value.event, s.lock.value.event.kind == Cancel).value);
      WatchKeeps(c, s, u);
      ReturnGood(c, u);
    } else {
      WatchKeeps(c, s, Apply(c, s, a));
    }
  }

  lemma SweepUnroutedKeeps(c: Config, s: State, denied: bool)
    requires Watermark(c, s) && Enabled(c, s, SweepUnrouted(denied))
    ensures Watermark(c, Apply(c, s, SweepUnrouted(denied)))
  {
    var w, t := s.sweep.value, Apply(c, s, SweepUnrouted(denied));
    if !denied {
      AdvanceKeeps(s, w, t.good);
    }
    assert SweepOk(t, t.sweep.value);
  }

  lemma UnroutedKeeps(c: Config, s: State, i: nat)
    requires Watermark(c, s)
    ensures Watermark(c, s.(good := s.good + {i}))
  {
  }

  lemma EndKeeps(c: Config, s: State)
    requires Watermark(c, s) && Enabled(c, s, EndSweep)
    ensures Watermark(c, AfterEndSweep(s))
    ensures AtMost(s.marker, AfterEndSweep(s).marker)
  {
  }

  predicate SweepStep(a: Action) {
    a.StartSweep? || a.SkipOld? || a.SweepUnrouted? || a.EndSweep?
  }

  lemma SweepKeeps(c: Config, s: State, a: Action)
    requires Watermark(c, s) && Enabled(c, s, a) && SweepStep(a)
    ensures Watermark(c, Apply(c, s, a))
  {
    if a.StartSweep? {
      StartKeeps(s, a.order);
      assert SweepOk(Apply(c, s, a), Apply(c, s, a).sweep.value);
    } else if a.SkipOld? {
      SkipKeeps(s, s.sweep.value);
      assert SweepOk(Apply(c, s, a), Apply(c, s, a).sweep.value);
    } else if a.SweepUnrouted? {
      SweepUnroutedKeeps(c, s, a.denied);
    } else {
      EndKeeps(c, s);
    }
  }

  /** Steps after which there is no sweep. */
  lemma DropKeeps(c: Config, s: State, a: Action)
    requires Watermark(c, s) && Enabled(c, s, a) && (a.AbortSweep? || a.Crash?)
    ensures Watermark(c, Apply(c, s, a))
  {
    assert Seen(Apply(c, s, a), s.marker) && Stored(Apply(c, s, a), s.marker);
  }

  /** Steps that only move rows, or the queue, or begin an admission. */
  lemma RestKeeps(c: Config, s: State, a: Action)
    requires Watermark(c, s) && Enabled(c, s, a) && !SweepStep(a) && !a.Append? && !a.Unrouted?
    requires !a.InsertRow? && !a.ReacceptRow? && !a.PutEvent? && !a.MarkRow? && !a.AbortSweep? && !a.Crash?
    ensures Watermark(c, Apply(c, s, a))
  {
    WatchKeeps(c, s, Apply(c, s, a));
  }

  lemma ActionKeeps(c: Config, s: State, a: Action)
    requires Watermark(c, s) && Enabled(c, s, a)
    ensures Watermark(c, Apply(c, s, a))
  {
    if a.Append? {
      AppendKeeps(c, s, a.item);
    } else if a.Unrouted? {
      UnroutedKeeps(c, s, a.i);
    } else if SweepStep(a) {
      SweepKeeps(c, s, a);
    } else if a.InsertRow? || a.ReacceptRow? || a.PutEvent? || a.MarkRow? {
      LockedKeeps(c, s, a);
    } else if a.AbortSweep? || a.Crash? {
      DropKeeps(c, s, a);
    } else {
      RestKeeps(c, s, a);
    }
  }

  lemma MarkerStep(c: Config, s: State, a: Action)
    requires Watermark(c, s) && Enabled(c, s, a)
    ensures AtMost(s.marker, Apply(c, s, a).marker)
  {
    if a.EndSweep? {
      EndKeeps(c, s);
    }
  }

  lemma {:induction false} RunKeeps(c: Config, s: State, acts: seq<Action>)
    requires Watermark(c, s) && Legal(c, s, acts)
    ensures Watermark(c, End(c, s, acts)) && AtMost(s.marker, End(c, s, acts).marker)
    decreases |acts|
  {
    if acts == [] {
    } else {
      ActionKeeps(c, s, acts[0]);
      MarkerStep(c, s, acts[0]);
      RunKeeps(c, Apply(c, s, acts[0]), acts[1..]);
    }
  }

  /**
    A sweep that is not refused is never stuck: past an older notification it goes on, any other one it admits, or
    has answered without a route; and past the last one it ends.
  */
  lemma SweepNeverStuck(c: Config, s: State)
    requires Watermark(c, s) && s.sweep.Some? && !s.sweep.value.broken && s.lock.None?
    ensures var w := s.sweep.value;
            if w.pos == |w.order| then Enabled(c, s, EndSweep)
            else
              var i := w.order[w.pos];
              var cin := s.container[i];
              if cin.ct.Some? && w.base.Some? && cin.ct.value < w.base.value then Enabled(c, s, SkipOld)
              else
                && Enabled(c, s, SweepUnrouted(true)) && Enabled(c, s, SweepUnrouted(false))
                && (cin.event.Some? && cin.event.value.kind != Internal ==>
                      Enabled(c, s, Begin(cin.event.value, Some(i), true)))
  {
  }

  /* ---- a refusal ends a sweep ---- */

  /** The step refuses the notification the sweep is at: it overflows, or is denied. */
  ghost predicate Refuses(s: State, a: Action) {
    a == SweepUnrouted(true) || (a.MarkRow? && s.lock.Some? && s.lock.value.bySweep)
  }

  predicate LeavesSweep(a: Action) {
    !a.EndSweep? && !a.AbortSweep? && !a.Crash?
  }

  lemma BrokenLocked(c: Config, s: State, a: Action)
    requires s.lock.Some? && !s.lock.value.bySweep && Enabled(c, s, a)
    requires a.InsertRow? || a.ReacceptRow? || a.PutEvent? || a.MarkRow?
    ensures var t := Apply(c, s, a);
            && t.sweep == s.sweep && t.container == s.container
            && (t.lock.Some? ==> t.lock.value.event == s.lock.value.event && t.lock.value.cin == s.lock.value.cin
                                 && !t.lock.value.bySweep)
  {
  }

  lemma BrokenStep(c: Config, s: State, a: Action)
    requires LockOk(c, s) && s.sweep.Some? && s.sweep.value.broken && Enabled(c, s, a) && LeavesSweep(a)
    ensures Apply(c, s, a).sweep == s.sweep && LockOk(c, Apply(c, s, a))
  {
    assert s.lock.Some? ==> !s.lock.value.bySweep;
    if a.InsertRow? || a.ReacceptRow? || a.PutEvent? || a.MarkRow? {
      BrokenLocked(c, s, a);
    }
  }

  lemma {:induction false} BrokenStands(c: Config, s: State, acts: seq<Action>)
    requires LockOk(c, s) && s.sweep.Some? && s.sweep.value.broken
    requires Legal(c, s, acts) && forall j :: 0 <= j < |acts| ==> LeavesSweep(acts[j])
    ensures End(c, s, acts).sweep == s.sweep && LockOk(c, End(c, s, acts))
    decreases |acts|
  {
    if acts == [] {
    } else {
      BrokenStep(c, s, acts[0]);
      BrokenStands(c, Apply(c, s, acts[0]), acts[1..]);
    }
  }

  lemma RefusalBreaks(c: Config, s: State, a: Action)
    requires LockOk(c, s) && s.sweep.Some? && Enabled(c, s, a) && Refuses(s, a)
    ensures LockOk(c, Apply(c, s, a)) && Apply(c, s, a).sweep == Some(s.sweep.value.(broken := true))
  {
  }

  /**
    Once a notification of a sweep is refused the sweep goes no further, whatever else happens: when it ends, the
    marker is what it had completed before the refusal.
  */
  lemma RefusalEndsSweep(c: Config, s: State, a: Action, acts: seq<Action>)
    requires LockOk(c, s) && s.sweep.Some? && Enabled(c, s, a) && Refuses(s, a) && Legal(c, Apply(c, s, a), acts)
    requires forall j :: 0 <= j < |acts| ==> LeavesSweep(acts[j])
    ensures var w, t := s.sweep.value, End(c, Apply(c, s, a), acts);
            && t.sweep.Some? && t.sweep.value.pos == w.pos && t.sweep.value.completed == w.completed
            && Enabled(c, t, EndSweep)
            && Apply(c, t, EndSweep).marker
               == if w.completed.Some? && w.completed != w.base then w.completed else t.marker
  {
    var u := Apply(c, s, a);
    RefusalBreaks(c, s, a);
    BrokenStands(c, u, acts);
  }

  /**
    The marker never goes back, and at every moment of every run, crashes included, each notification older
    than the marker has had a verdict other than overflow or denied.
  */
  lemma MarkerIsWatermark(c: Config, s: State, first: seq<Action>, more: seq<Action>, i: nat)
    requires Fresh(s) && Legal(c, s, first) && Legal(c, End(c, s, first), more)
    ensures var t := End(c, End(c, s, first), more);
            && AtMost(End(c, s, first).marker, t.marker)
            && (i < |t.container| && Below(t.container[i].ct, t.marker) ==> i in t.good)
  {
    RunKeeps(c, s, first);
    RunKeeps(c, End(c, s, first), more);
  }
}
