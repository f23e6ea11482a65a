/**
  What a crash left queued: sweep_boot marks it overflowed, and a complete sweep takes it out of overflow exactly
  if one of its notifications is not below the marker. A request that has none such stays overflowed.
*/
module InboundRecovery {
  import opened Wrappers
  import opened Ledgers
  import opened InboundQueues
  import opened Inbound
  import opened InboundWatermark
  import opened InboundOverflow

  /* ---- ahead of the marker: a complete sweep queues the request again ---- */

  /** A step while a sweep goes on: no crash, nothing forgotten, and the sweep neither ends nor is given up. */
  predicate InSweep(a: Action) {
    Calm(a) && !a.EndSweep? && !a.AbortSweep?
  }

  lemma LockedKept(c: Config, s: State, a: Action)
    requires s.lock.Some? && Enabled(c, s, a) && Locked(a)
    ensures var t := Apply(c, s, a);
            t.lock.None? || (t.lock == Some(s.lock.value.(stage := t.lock.value.stage))
                             && t.container == s.container && t.sweep == s.sweep)
  {
  }

  lemma ActionLock(c: Config, s: State, a: Action)
    requires LockOk(c, s) && Enabled(c, s, a)
    ensures LockOk(c, Apply(c, s, a))
  {
    if Locked(a) {
      LockedKept(c, s, a);
    } else {
      ContainerGrows(c, s, a);
    }
  }

  /** There is a sweep exactly from its start to its end: until it ends, is given up, or the process crashes. */
  lemma SweepLasts(c: Config, s: State, a: Action)
    requires Enabled(c, s, a)
    ensures Apply(c, s, a).sweep.Some? <==> a.StartSweep? || (s.sweep.Some? && LeavesSweep(a))
  {
  }

  /** The step passes the notification the sweep is at: it is old, or the sweep gets a good verdict for it. */
  ghost predicate Passes(c: Config, s: State, a: Action)
    requires s.sweep.Some?
  {
    var w := s.sweep.value;
    || a.SkipOld? || a == SweepUnrouted(false)
    || (s.lock.Some? && s.lock.value.bySweep && w.pos < |w.order| && (a.ReacceptRow? || a.PutEvent?)
        && GivesGood(c, s, a, w.order[w.pos]))
  }

  /** The sweep moves on by one if the step passes its notification, and stays where it is if not. */
  ghost predicate MovesOn(c: Config, s: State, a: Action)
    requires s.sweep.Some? && Enabled(c, s, a)
  {
    var w, t := s.sweep.value, Apply(c, s, a).sweep;
    && t.Some? && t.value.order == w.order && t.value.base == w.base
    && t.value.pos == if Passes(c, s, a) then w.pos + 1 else w.pos
  }

  lemma LockedMoves(c: Config, s: State, a: Action)
    requires LockOk(c, s) && s.sweep.Some? && Enabled(c, s, a) && Locked(a)
    ensures MovesOn(c, s, a)
  {
  }

  /** A sweep moves on exactly over an old notification, or with a good verdict for the one it is at. */
  lemma SweepMoves(c: Config, s: State, a: Action)
    requires LockOk(c, s) && s.sweep.Some? && Enabled(c, s, a) && LeavesSweep(a)
    ensures MovesOn(c, s, a)
  {
    if Locked(a) {
      LockedMoves(c, s, a);
    }
  }

  /** If the sweep is past place n of its listing, the notification there is old or its row is fine. */
  ghost predicate Passed(s: State, order: seq<nat>, base: Option<int>, n: nat) {
    && s.sweep.Some? && s.sweep.value.order == order && s.sweep.value.base == base
    && n < |order| && order[n] < |s.container|
    && (n < s.sweep.value.pos ==> Below(s.container[order[n]].ct, base) || Fine(s, order[n]))
  }

  lemma ActionPassed(c: Config, s: State, a: Action, order: seq<nat>, base: Option<int>, n: nat)
    requires LockOk(c, s) && HandOk(s) && Passed(s, order, base, n)
    requires Enabled(c, s, a) && InSweep(a) && Steady(s, a)
    ensures Passed(Apply(c, s, a), order, base, n)
  {
    SweepMoves(c, s, a);
    ContainerGrows(c, s, a);
    if Fine(s, order[n]) {
      ActionFine(c, s, a, order[n]);
    } else if n == s.sweep.value.pos && GivesGood(c, s, a, order[n]) {
      VerdictFine(c, s, a, order[n]);
    }
  }

  lemma {:induction false} RunPassed(c: Config, s: State, acts: seq<Action>, order: seq<nat>, base: Option<int>, n: nat)
    requires LockOk(c, s) && HandOk(s) && Passed(s, order, base, n)
    requires Legal(c, s, acts) && SteadyRun(c, s, acts) && forall j :: 0 <= j < |acts| ==> InSweep(acts[j])
    ensures Passed(End(c, s, acts), order, base, n) && s.container <= End(c, s, acts).container
    decreases |acts|
  {
    if acts == [] {
    } else {
      ActionPassed(c, s, acts[0], order, base, n);
      ActionLock(c, s, acts[0]);
      ActionHand(c, s, acts[0]);
      ContainerGrows(c, s, acts[0]);
      RunPassed(c, Apply(c, s, acts[0]), acts[1..], order, base, n);
    }
  }

  /** The steps take a sweep that starts in this state through its whole listing. */
  ghost predicate Sweeps(c: Config, s: State, order: seq<nat>, acts: seq<Action>) {
    && s.lock.None? && Enabled(c, s, StartSweep(order))
    && var u := Apply(c, s, StartSweep(order));
    && Legal(c, u, acts) && SteadyRun(c, u, acts) && (forall j :: 0 <= j < |acts| ==> InSweep(acts[j]))
    && End(c, u, acts).sweep.Some? && End(c, u, acts).sweep.value.pos >= |order|
  }

  ghost function Swept(c: Config, s: State, order: seq<nat>, acts: seq<Action>): (t: State)
    requires Sweeps(c, s, order, acts)
  {
    End(c, Apply(c, s, StartSweep(order)), acts)
  }

  /** A sweep that completes leaves no stored notification that is not below the marker with an overflowed row. */
  lemma SweepReaccepts(c: Config, s: State, order: seq<nat>, acts: seq<Action>, i: nat, k: Key)
    requires Sweeps(c, s, order, acts) && From(s, i, k) && !Below(s.container[i].ct, s.marker)
    ensures k in Swept(c, s, order, acts).table && !Is(Swept(c, s, order, acts).table, k, Overflow)
  {
    var u := Apply(c, s, StartSweep(order));
    assert i in order;
    var n: nat :| n < |order| && order[n] == i;
    RunPassed(c, u, acts, order, s.marker, n);
  }

  /* ---- behind the marker: nothing but the request itself brings it back ---- */

  predicate Absent(events: seq<Event>, k: Key) {
    forall e :: e in events ==> e.kind == Internal || e.key != k
  }

  /** No entry in the queue stands for the key, and no admission is under way for it. */
  ghost predicate Unheld(s: State, k: Key) {
    && Absent(s.lanes.control, k) && Absent(s.lanes.normal, k) && Absent(s.batch, k)
    && (s.lock.Some? ==> s.lock.value.event.key != k)
  }

  /** Every notification for the key is below the marker, and below what a sweep has started from. */
  ghost predicate Behind(s: State, k: Key) {
    && (forall i: nat :: From(s, i, k) ==> Below(s.container[i].ct, s.marker))
    && (s.sweep.Some? ==> s.sweep.value.base == s.marker && AtMost(s.marker, s.sweep.value.completed))
  }

  ghost predicate Stranded(s: State, k: Key) {
    Is(s.table, k, Overflow) && Unheld(s, k) && Behind(s, k)
  }

  /** Nobody notifies the request again, stores it again, or ends its row; a sweep may still admit it. */
  predicate LeavesAlone(a: Action, k: Key) {
    match a
    case Append(item) => item.event.Some? ==> item.event.value.key != k
    case Begin(e, _, bySweep) => !bySweep ==> e.key != k
    case FinishRow(key, _) => key != k
    case _ => true
  }

  lemma SlicesAbsent(events: seq<Event>, n: nat, k: Key)
    requires Absent(events, k) && n <= |events|
    ensures Absent(events[..n], k) && Absent(events[n..], k)
  {
  }

  lemma DrainUnheld(s: State, budget: nat, k: Key)
    requires Unheld(s, k)
    ensures Unheld(s.(lanes := Rest(s.lanes, budget), batch := Batch(s.lanes, budget)), k)
  {
    SlicesAbsent(s.lanes.control, FromControl(s.lanes, budget), k);
    SlicesAbsent(s.lanes.normal, FromNormal(s.lanes, budget), k);
  }

  lemma PutAbsent(q: Lanes, b: InboundQueues.Bounds, e: Event, control: bool, k: Key)
    requires Absent(q.control, k) && Absent(q.normal, k) && Put(q, b, e, control).Some?
    requires e.kind == Internal || e.key != k
    ensures Absent(Put(q, b, e, control).value.control, k) && Absent(Put(q, b, e, control).value.normal, k)
  {
  }

  /** The row of a request that nothing stands for is left as it is. */
  lemma LockedUnheld(c: Config, s: State, a: Action, k: Key)
    requires Unheld(s, k) && Enabled(c, s, a) && Locked(a)
    ensures Unheld(Apply(c, s, a), k)
    ensures Is(s.table, k, Overflow) ==> Is(Apply(c, s, a).table, k, Overflow)
  {
    var e := s.lock.value.event;
    if a.PutEvent? && Put(s.lanes, c.bounds, e, e.kind == Cancel).Some? {
      PutAbsent(s.lanes, c.bounds, e, e.kind == Cancel, k);
    }
  }

  lemma LockedBehind(c: Config, s: State, a: Action, k: Key)
    requires Behind(s, k) && Enabled(c, s, a) && Locked(a)
    ensures Behind(Apply(c, s, a), k)
  {
    var t := Apply(c, s, a);
    assert t.container == s.container && t.marker == s.marker;
    forall i: nat | From(t, i, k) ensures Below(t.container[i].ct, t.marker) {
      assert From(s, i, k);
    }
  }

  predicate MovesQueue(a: Action) {
    a.PutInternal? || a.Drain? || a.DispatchNext? || a.RejectNext?
  }

  lemma QueueUnheld(c: Config, s: State, a: Action, k: Key)
    requires Unheld(s, k) && Enabled(c, s, a) && MovesQueue(a)
    ensures Unheld(Apply(c, s, a), k)
    ensures Is(s.table, k, Overflow) ==> Is(Apply(c, s, a).table, k, Overflow)
  {
    if a.PutInternal? {
      PutAbsent(s.lanes, c.bounds, a.event, a.control, k);
    } else if a.Drain? {
      DrainUnheld(s, a.budget, k);
    } else {
      SlicesAbsent(s.batch, 1, k);
      assert s.batch[0] in s.batch;
    }
  }

  lemma QueueBehind(c: Config, s: State, a: Action, k: Key)
    requires Behind(s, k) && Enabled(c, s, a) && MovesQueue(a)
    ensures Behind(Apply(c, s, a), k)
  {
    var t := Apply(c, s, a);
    assert t.container == s.container && t.marker == s.marker && t.sweep == s.sweep;
    forall i: nat | From(t, i, k) ensures Below(t.container[i].ct, t.marker) {
      assert From(s, i, k);
    }
  }

  /** A sweep begins no admission of a request that is behind it. */
  lemma OtherUnheld(c: Config, s: State, a: Action, k: Key)
    requires Stranded(s, k) && Enabled(c, s, a) && LeavesAlone(a, k) && !Locked(a) && !MovesQueue(a)
    ensures Unheld(Apply(c, s, a), k) && Is(Apply(c, s, a).table, k, Overflow)
  {
    if a.Begin? && a.bySweep {
      assert From(s, a.cin.value, a.event.key);
    }
  }

  lemma OtherBehind(c: Config, s: State, a: Action, k: Key)
    requires Behind(s, k) && Enabled(c, s, a) && LeavesAlone(a, k) && !Locked(a) && !MovesQueue(a)
    ensures Behind(Apply(c, s, a), k)
  {
    var t := Apply(c, s, a);
    forall i: nat | From(t, i, k) ensures Below(t.container[i].ct, t.marker) {
      assert From(s, i, k);
    }
  }

  lemma ActionStranded(c: Config, s: State, a: Action, k: Key)
    requires Stranded(s, k) && Enabled(c, s, a) && LeavesAlone(a, k)
    ensures Stranded(Apply(c, s, a), k)
  {
    if Locked(a) {
      LockedUnheld(c, s, a, k);
      LockedBehind(c, s, a, k);
    } else if MovesQueue(a) {
      QueueUnheld(c, s, a, k);
      QueueBehind(c, s, a, k);
    } else {
      OtherUnheld(c, s, a, k);
      OtherBehind(c, s, a, k);
    }
  }

  lemma {:induction false} StaysStranded(c: Config, s: State, acts: seq<Action>, k: Key)
    requires Stranded(s, k) && Legal(c, s, acts) && forall j :: 0 <= j < |acts| ==> LeavesAlone(acts[j], k)
    ensures Stranded(End(c, s, acts), k)
    decreases |acts|
  {
    if acts == [] {
    } else {
      ActionStranded(c, s, acts[0], k);
      StaysStranded(c, Apply(c, s, acts[0]), acts[1..], k);
    }
  }

  /* ---- after a crash ---- */

  /** The process crashed in state u, and the next one has run sweep_boot. */
  function Restarted(u: State): (s: State) {
    AfterBoot(AfterCrash(u))
  }

  /** Some notification of the request is not below the marker. */
  ghost predicate Ahead(s: State, k: Key) {
    exists i: nat :: From(s, i, k) && !Below(s.container[i].ct, s.marker)
  }

  lemma RestartStrands(u: State, k: Key)
    requires Is(u.table, k, Queued) || Is(u.table, k, Overflow)
    ensures Is(Restarted(u).table, k, Overflow)
    ensures !Ahead(u, k) ==> Stranded(Restarted(u), k)
  {
    forall i: nat | !Ahead(u, k) && From(Restarted(u), i, k) ensures Below(u.container[i].ct, u.marker) {
      assert From(u, i, k);
    }
  }

  /**
    A request that was queued when the process crashed is overflowed after sweep_boot, and a complete sweep takes
    it out of overflow exactly if one of its notifications was not below the marker when the process crashed.
  */
  lemma ReacceptedIffAhead(c: Config, u: State, order: seq<nat>, acts: seq<Action>, k: Key)
    requires Is(u.table, k, Queued) || Is(u.table, k, Overflow)
    requires Sweeps(c, Restarted(u), order, acts) && forall j :: 0 <= j < |acts| ==> LeavesAlone(acts[j], k)
    ensures Is(Restarted(u).table, k, Overflow)
    ensures !Is(Swept(c, Restarted(u), order, acts).table, k, Overflow) <==> Ahead(u, k)
  {
    var s := Restarted(u);
    RestartStrands(u, k);
    if Ahead(u, k) {
      var i: nat :| From(u, i, k) && !Below(u.container[i].ct, u.marker);
      assert From(s, i, k);
      SweepReaccepts(c, s, order, acts, i, k);
    } else {
      ActionStranded(c, s, StartSweep(order), k);
      StaysStranded(c, Apply(c, s, StartSweep(order)), acts, k);
    }
  }

  /**
    If all its notifications were below the marker when the process crashed, the request stays overflowed through
    every later run of sweeps, crashes and admissions of other requests.
  */
  lemma BehindStaysOverflowed(c: Config, u: State, acts: seq<Action>, k: Key)
    requires (Is(u.table, k, Queued) || Is(u.table, k, Overflow)) && !Ahead(u, k)
    requires Legal(c, Restarted(u), acts) && forall j :: 0 <= j < |acts| ==> LeavesAlone(acts[j], k)
    ensures Is(End(c, Restarted(u), acts).table, k, Overflow)
  {
    RestartStrands(u, k);
    StaysStranded(c, Restarted(u), acts, k);
  }
}
