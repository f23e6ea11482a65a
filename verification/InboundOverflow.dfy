/**
  What overflowed is still ahead of the catch-up marker, so a later sweep meets it again; but a crash can strand
  a queued request behind the marker.
*/
module InboundOverflow {
  import opened Wrappers
  import opened Ledgers
  import opened InboundQueues
  import opened Inbound
  import opened InboundWatermark
  import opened InboundRuns

  /** The row of a key is being queued again, or marked. */
  predicate InHand(s: State, k: Key) {
    s.lock.Some? && (s.lock.value.stage == Putting || s.lock.value.stage == Marking) && s.lock.value.event.key == k
  }

  /** The notification's row is there, and neither overflowed nor about to be. */
  ghost predicate Fine(s: State, i: nat) {
    && i < |s.container|
    && (s.container[i].event.Some? ==>
          var k := s.container[i].event.value.key;
          k in s.table && s.table[k] != Overflow && !InHand(s, k))
  }

  /** Under the lock, a row that was found or queued stays in the table, and one in hand has not overflowed. */
  ghost predicate HandOk(s: State) {
    s.lock.Some? && s.lock.value.stage != Inserting ==>
      var k := s.lock.value.event.key;
      k in s.table && (InHand(s, k) ==> s.table[k] != Overflow)
  }

  ghost predicate From(s: State, i: nat, k: Key) {
    i < |s.container| && s.container[i].event.Some? && s.container[i].event.value.key == k
  }

  /** Rows of this interface come from this container. */
  ghost predicate Owned(c: Config, s: State, k: Key) {
    Mine(c, k) && k in s.table ==> exists i :: From(s, i, k)
  }

  /** No crash, no boot sweep, and no row forgotten. */
  predicate Calm(a: Action) {
    !a.Crash? && !a.BootSweep? && !a.Cleanup?
  }

  /** The action gives a notification a good verdict. */
  ghost predicate GivesGood(c: Config, s: State, a: Action, i: nat) {
    match a
    case Unrouted(j, denied) => i == j && !denied
    case SweepUnrouted(denied) =>
      !denied && s.sweep.Some? && s.sweep.value.pos < |s.sweep.value.order|
      && s.sweep.value.order[s.sweep.value.pos] == i
    case ReacceptRow =>
      s.lock.Some? && s.lock.value.cin == Some(i) && !Is(s.table, s.lock.value.event.key, Overflow)
    case PutEvent =>
      s.lock.Some? && s.lock.value.cin == Some(i)
      && Put(s.lanes, c.bounds, s.lock.value.event, s.lock.value.event.kind == Cancel).Some?
    case _ => false
  }

  /** No notification that has an event is answered invalid: its route is there whenever it is asked for. */
  ghost predicate Steady(s: State, a: Action) {
    match a
    case Unrouted(i, denied) => !denied && i < |s.container| ==> s.container[i].event.None?
    case SweepUnrouted(denied) =>
      !denied && s.sweep.Some? && s.sweep.value.pos < |s.sweep.value.order|
      && s.sweep.value.order[s.sweep.value.pos] < |s.container| ==>
        s.container[s.sweep.value.order[s.sweep.value.pos]].event.None?
    case _ => true
  }

  ghost predicate SteadyRun(c: Config, s: State, acts: seq<Action>)
    requires Legal(c, s, acts)
    decreases |acts|
  {
    acts == [] || (Steady(s, acts[0]) && SteadyRun(c, Apply(c, s, acts[0]), acts[1..]))
  }

  predicate Locked(a: Action) {
    a.InsertRow? || a.ReacceptRow? || a.PutEvent? || a.MarkRow?
  }

  predicate MovesRows(a: Action) {
    a.DispatchNext? || a.RejectNext? || a.FinishRow?
  }

  lemma LockedHand(c: Config, s: State, a: Action)
    requires HandOk(s) && Enabled(c, s, a) && Locked(a)
    ensures HandOk(Apply(c, s, a))
  {
  }

  lemma RowsOnly(c: Config, s: State, a: Action, k: Key)
    requires Enabled(c, s, a) && MovesRows(a)
    ensures var t := Apply(c, s, a);
            && t.lock == s.lock && t.good == s.good && t.container == s.container && t.sweep == s.sweep
            && (k in s.table ==> k in t.table && (s.table[k] != Overflow ==> t.table[k] != Overflow))
  {
  }

  lemma AsideOnly(c: Config, s: State, a: Action)
    requires Enabled(c, s, a) && Calm(a) && !Locked(a) && !MovesRows(a)
    ensures var t := Apply(c, s, a);
            && t.table == s.table && s.container <= t.container
            && (t.lock == s.lock || (t.lock.Some? && t.lock.value.stage == Inserting))
  {
  }

  lemma ActionHand(c: Config, s: State, a: Action)
    requires HandOk(s) && Enabled(c, s, a) && Calm(a)
    ensures HandOk(Apply(c, s, a))
  {
    if Locked(a) {
      LockedHand(c, s, a);
    } else if MovesRows(a) {
      if s.lock.Some? {
        RowsOnly(c, s, a, s.lock.value.event.key);
      } else {
        RowsOnly(c, s, a, Key("", "", ""));
      }
    } else {
      AsideOnly(c, s, a);
    }
  }

  lemma LockedFine(c: Config, s: State, a: Action, i: nat)
    requires HandOk(s) && Fine(s, i) && Enabled(c, s, a) && Locked(a)
    ensures Fine(Apply(c, s, a), i)
  {
  }

  /** Once a notification's row is fine, no calm step undoes that. */
  lemma ActionFine(c: Config, s: State, a: Action, i: nat)
    requires HandOk(s) && Fine(s, i) && Enabled(c, s, a) && Calm(a)
    ensures Fine(Apply(c, s, a), i)
  {
    if Locked(a) {
      LockedFine(c, s, a, i);
    } else if MovesRows(a) {
      RowsOnly(c, s, a, if s.container[i].event.Some? then s.container[i].event.value.key else Key("", "", ""));
    } else {
      AsideOnly(c, s, a);
    }
  }

  /** A good verdict, given while routes are steady, leaves the notification's row fine. */
  lemma VerdictFine(c: Config, s: State, a: Action, i: nat)
    requires LockOk(c, s) && HandOk(s) && Enabled(c, s, a) && Steady(s, a) && GivesGood(c, s, a, i)
    ensures Fine(Apply(c, s, a), i)
  {
  }

  lemma GoodComesFrom(c: Config, s: State, a: Action, i: nat)
    requires Enabled(c, s, a)
    ensures i in Apply(c, s, a).good <==> i in s.good || GivesGood(c, s, a, i)
  {
  }

  lemma FromStays(s: State, t: State, i: nat, k: Key)
    requires From(s, i, k) && s.container <= t.container
    ensures From(t, i, k)
  {
  }

  lemma ContainerGrows(c: Config, s: State, a: Action)
    requires Enabled(c, s, a)
    ensures s.container <= Apply(c, s, a).container
    ensures !a.InsertRow? ==> Apply(c, s, a).table.Keys <= s.table.Keys
  {
  }

  lemma ActionOwned(c: Config, s: State, a: Action, k: Key)
    requires LockOk(c, s) && Owned(c, s, k) && Enabled(c, s, a)
    ensures Owned(c, Apply(c, s, a), k)
  {
    var t := Apply(c, s, a);
    ContainerGrows(c, s, a);
    if Mine(c, k) && k in t.table {
      if k in s.table {
        var i: nat :| From(s, i, k);
        FromStays(s, t, i, k);
      } else {
        assert a.InsertRow? && k == s.lock.value.event.key;
        assert From(s, s.lock.value.cin.value, k);
        FromStays(s, t, s.lock.value.cin.value, k);
      }
    }
  }

  lemma {:induction false} RunFine(c: Config, s: State, acts: seq<Action>, i: nat)
    requires Watermark(c, s) && HandOk(s) && (i in s.good ==> Fine(s, i))
    requires Legal(c, s, acts) && SteadyRun(c, s, acts) && forall j :: 0 <= j < |acts| ==> Calm(acts[j])
    ensures i in End(c, s, acts).good ==> Fine(End(c, s, acts), i)
    decreases |acts|
  {
    if acts == [] {
    } else {
      var t := Apply(c, s, acts[0]);
      if i in s.good {
        ActionFine(c, s, acts[0], i);
      } else if i in t.good {
        GoodComesFrom(c, s, acts[0], i);
        VerdictFine(c, s, acts[0], i);
      }
      ActionHand(c, s, acts[0]);
      ActionKeeps(c, s, acts[0]);
      RunFine(c, t, acts[1..], i);
    }
  }

  lemma {:induction false} RunOwned(c: Config, s: State, acts: seq<Action>, k: Key)
    requires Watermark(c, s) && Owned(c, s, k) && Legal(c, s, acts)
    ensures Owned(c, End(c, s, acts), k)
    decreases |acts|
  {
    if acts == [] {
    } else {
      ActionOwned(c, s, acts[0], k);
      ActionKeeps(c, s, acts[0]);
      RunOwned(c, Apply(c, s, acts[0]), acts[1..], k);
    }
  }

  /**
    In a run without crash and cleanup, and with steady routes, every overflowed row of the interface comes from
    a stored notification, and none of the notifications for it is below the marker: the next sweep meets them.
  */
  lemma OverflowStaysAhead(c: Config, s: State, acts: seq<Action>, k: Key)
    requires Fresh(s) && Legal(c, s, acts) && SteadyRun(c, s, acts) && forall j :: 0 <= j < |acts| ==> Calm(acts[j])
    requires Mine(c, k) && Is(End(c, s, acts).table, k, Overflow)
    ensures exists i :: From(End(c, s, acts), i, k)
    ensures forall i: nat :: From(End(c, s, acts), i, k) ==>
              !Below(End(c, s, acts).container[i].ct, End(c, s, acts).marker)
  {
    var t := End(c, s, acts);
    RunOwned(c, s, acts, k);
    RunKeeps(c, s, acts);
    forall i: nat | From(t, i, k) ensures !Below(t.container[i].ct, t.marker) {
      RunFine(c, s, acts, i);
    }
  }

  /* ---- a crash can strand a request ---- */

  const FIRST_START := State(map[], Lanes([], []), [], None, [], None, None, true, true, {}, multiset{}, multiset{})

  /** The machine between a notification and the crash, with two notifications stored. */
  function Between(
    container: seq<Cin>, table: Table, normal: seq<Event>, sweep: Option<Sweep>, good: set<nat>): (s: State)
  {
    FIRST_START.(container := container, table := table, lanes := Lanes([], normal), sweep := sweep, good := good)
  }

  /** The sweep ends, the process crashes, and the next one runs sweep_boot. */
  function Restart(): (acts: seq<Action>) {
    [EndSweep] + ([Crash] + ([BootSweep] + []))
  }

  lemma RestartLeads(c: Config, s: State)
    requires s.sweep.Some? && s.lock.None? && s.sweep.value.pos >= |s.sweep.value.order|
    ensures Legal(c, s, Restart())
    ensures End(c, s, Restart()) == AfterBoot(AfterCrash(AfterEndSweep(s)))
  {
    StepThen(c, AfterCrash(AfterEndSweep(s)), BootSweep, AfterBoot(AfterCrash(AfterEndSweep(s))), []);
    StepThen(c, AfterEndSweep(s), Crash, AfterCrash(AfterEndSweep(s)), [BootSweep] + []);
    StepThen(c, s, EndSweep, AfterEndSweep(s), [Crash] + ([BootSweep] + []));
  }

  /** The sweep meets the older notification again, then accepts the younger one. */
  function Sweeping(ex: Event, ey: Event): (acts: seq<Action>) {
    AdmitAgain(ex, Some(0), true, Admit(ey, Some(1), true, Restart()))
  }

  /** Two notifications one time unit apart, for different requests. */
  ghost predicate Example(c: Config, x: Cin, y: Cin, ex: Event, ey: Event) {
    && x == Cin(Some(1), 1, Some(ex)) && y == Cin(Some(2), 2, Some(ey))
    && ex.kind == Command && ey.kind == Command && ex.key != ey.key && c.bounds.normal >= 2
  }

  lemma SweepLeads(c: Config, x: Cin, y: Cin, ex: Event, ey: Event)
    requires Example(c, x, y, ex, ey)
    ensures var s := Between([x, y], map[ex.key := Queued], [ex], Some(Sweep([0, 1], 0, None, None, false)), {0});
            && Legal(c, s, Sweeping(ex, ey))
            && Is(End(c, s, Sweeping(ex, ey)).table, ex.key, Overflow)
            && End(c, s, Sweeping(ex, ey)).marker == Some(2) && End(c, s, Sweeping(ex, ey)).container == [x, y]
  {
    var table := map[ex.key := Queued];
    var s0 := Between([x, y], table, [ex], Some(Sweep([0, 1], 0, None, None, false)), {0});
    var s1 := Between([x, y], table, [ex], Some(Sweep([0, 1], 1, None, Some(1), false)), {0});
    var s2 := Between([x, y], table[ey.key := Queued], [ex] + [ey],
                      Some(Sweep([0, 1], 2, None, Some(2), false)), {0} + {1});
    assert {0} + {0} == {0};
    assert Repeated(s0, ex, Some(0), true) == s1;
    assert Admitted(s1, ey, Some(1), true) == s2;
    RestartLeads(c, s2);
    AdmitNew(c, s1, ey, Some(1), true, Restart());
    AdmitKnown(c, s0, ex, Some(0), true, Admit(ey, Some(1), true, Restart()));
  }

  ghost predicate Strands(c: Config, s: State, acts: seq<Action>, k: Key) {
    && Legal(c, s, acts)
    && Is(End(c, s, acts).table, k, Overflow) && From(End(c, s, acts), 0, k)
    && Below(End(c, s, acts).container[0].ct, End(c, s, acts).marker)
  }

  /** Both notifications stored, the older one is notified and the sweep starts. */
  function Notified(ex: Event, ey: Event): (acts: seq<Action>) {
    Admit(ex, Some(0), false, [StartSweep([0, 1])] + Sweeping(ex, ey))
  }

  lemma StartLeads(c: Config, x: Cin, y: Cin, ex: Event, ey: Event)
    requires Example(c, x, y, ex, ey)
    ensures Strands(c, Between([x, y], map[ex.key := Queued], [ex], None, {0}),
                    [StartSweep([0, 1])] + Sweeping(ex, ey), ex.key)
  {
    var s3 := Between([x, y], map[ex.key := Queued], [ex], None, {0});
    var s4 := Between([x, y], map[ex.key := Queued], [ex], Some(Sweep([0, 1], 0, None, None, false)), {0});
    SweepLeads(c, x, y, ex, ey);
    assert Listing(s3.container, [0, 1]);
    StepThen(c, s3, StartSweep([0, 1]), s4, Sweeping(ex, ey));
  }

  lemma NotifiedLeads(c: Config, x: Cin, y: Cin, ex: Event, ey: Event)
    requires Example(c, x, y, ex, ey)
    ensures Strands(c, Between([x, y], map[], [], None, {}), Notified(ex, ey), ex.key)
  {
    var s2 := Between([x, y], map[], [], None, {});
    var rest := [StartSweep([0, 1])] + Sweeping(ex, ey);
    assert [] + [ex] == [ex] && {} + {0} == {0};
    StartLeads(c, x, y, ex, ey);
    assert Admitted(s2, ex, Some(0), false) == Between([x, y], map[ex.key := Queued], [ex], None, {0});
    AdmitNew(c, s2, ex, Some(0), false, rest);
  }

  lemma AppendLeads(c: Config, before: seq<Cin>, item: Cin, e: Event, rest: seq<Action>, k: Key)
    requires Appends(before, item) && item.event == Some(e) && e.kind != Internal && Mine(c, e.key)
    requires Strands(c, Between(before + [item], map[], [], None, {}), rest, k)
    ensures Strands(c, Between(before, map[], [], None, {}), [Append(item)] + rest, k)
  {
  }

  /**
    A request that was queued when the process crashed is turned to overflowed by sweep_boot, but the marker has
    gone past it: it is below the marker, and no later sweep will meet it again.
  */
  lemma CrashStrands(c: Config, x: Cin, y: Cin, ex: Event, ey: Event)
    requires Example(c, x, y, ex, ey) && Mine(c, ex.key) && Mine(c, ey.key)
    ensures Fresh(FIRST_START)
    ensures Strands(c, FIRST_START, [Append(x)] + ([Append(y)] + Notified(ex, ey)), ex.key)
  {
    NotifiedLeads(c, x, y, ex, ey);
    assert [] + [x] == [x] && [x] + [y] == [x, y];
    AppendLeads(c, [x], y, ey, Notified(ex, ey), ex.key);
    AppendLeads(c, [], x, ex, [Append(y)] + Notified(ex, ey), ex.key);
    assert Between([], map[], [], None, {}) == FIRST_START;
  }
}
