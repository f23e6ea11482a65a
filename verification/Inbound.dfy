/**
  Inbound admission as a state machine: notifications and the catch-up sweep of one container feed one ledger
  and one queue; the executor drains and dispatches; a crash loses everything but the tables. One action is one
  statement, one queue call, or one test of one thread.
*/
module Inbound {
  import opened Wrappers
  import opened Ledgers
  import opened InboundQueues

  /**
    A stored notification: creation time, resource id, and the event its route makes of it, if any. The route may
    be missing at times, whatever the notification: then it is answered invalid, or denied while routes change.
  */
  datatype Cin = Cin(ct: Option<int>, ri: int, event: Option<Event>)

  /** The container swept here belongs to one interface; all other admissions are for other interfaces. */
  datatype Config = Config(bounds: Bounds, robot: string, iface: string)

  datatype Stage = Inserting | Reaccepting | Putting | Marking

  /** The admission in progress; the admission lock lets only one be. */
  datatype Admission = Admission(event: Event, cin: Option<nat>, bySweep: bool, stage: Stage)

  /** A sweep: the listing in order, how far it is, the marker it started from, and the time it has completed. */
  datatype Sweep = Sweep(order: seq<nat>, pos: nat, base: Option<int>, completed: Option<int>, broken: bool)

  /**
    swept says that sweep_boot has run since the last crash, clean that it found no event queued or being
    admitted. good, wins and forgotten are history: the notifications that had a verdict other than overflow or
    denied, the dispatches won, and the rows cleaned up.
  */
  datatype State = State(
    table: Table,
    lanes: Lanes,
    batch: seq<Event>,
    lock: Option<Admission>,
    container: seq<Cin>,
    marker: Option<int>,
    sweep: Option<Sweep>,
    swept: bool,
    clean: bool,
    good: set<nat>,
    wins: multiset<Key>,
    forgotten: multiset<Key>)

  datatype Action =
    | Append(item: Cin)
    | Unrouted(i: nat, denied: bool)
    | Begin(event: Event, cin: Option<nat>, bySweep: bool)
    | InsertRow
    | ReacceptRow
    | PutEvent
    | MarkRow
    | PutInternal(event: Event, control: bool)
    | Drain(budget: nat)
    | DispatchNext
    | RejectNext(how: Final)
    | FinishRow(key: Key, how: Final)
    | StartSweep(order: seq<nat>)
    | SkipOld
    | SweepUnrouted(denied: bool)
    | EndSweep
    | AbortSweep
    | BootSweep
    | Crash
    | Cleanup(keys: set<Key>)

  predicate Mine(c: Config, k: Key) {
    k.robot == c.robot && k.iface == c.iface
  }

  /* ---- times ---- */

  /** ct < marker, the test that makes a sweep pass a notification over. */
  predicate Below(ct: Option<int>, marker: Option<int>) {
    ct.Some? && marker.Some? && ct.value < marker.value
  }

  function Later(completed: Option<int>, ct: Option<int>): (r: Option<int>) {
    if ct.Some? && (completed.None? || ct.value > completed.value) then ct else completed
  }

  /** The order of a listing: by time, a missing time first, then by resource id. */
  predicate NotAfter(a: Cin, b: Cin) {
    if a.ct == b.ct then a.ri <= b.ri
    else a.ct.None? || (b.ct.Some? && a.ct.value < b.ct.value)
  }

  ghost predicate Listing(container: seq<Cin>, order: seq<nat>) {
    && (forall a :: 0 <= a < |order| ==> order[a] < |container|)
    && (forall i: nat :: i < |container| ==> i in order)
    && (forall a, b :: 0 <= a < b < |order| ==> NotAfter(container[order[a]], container[order[b]]))
  }

  /** New notifications are never older than stored ones. */
  ghost predicate Appends(container: seq<Cin>, cin: Cin) {
    cin.ct.Some? ==> forall i :: 0 <= i < |container| && container[i].ct.Some? ==> container[i].ct.value <= cin.ct.value
  }

  /* ---- steps ---- */

  function Advanced(w: Sweep, ct: Option<int>, good: bool): (r: Sweep) {
    if good then w.(pos := w.pos + 1, completed := Later(w.completed, ct)) else w.(broken := true)
  }

  /** The end of an admission: its verdict goes to the caller, which may be the sweep. */
  function Return(s: State, good: bool): (r: State)
    requires s.lock.Some?
  {
    var a := s.lock.value;
    var ct := if a.cin.Some? && a.cin.value < |s.container| then s.container[a.cin.value].ct else None;
    s.(lock := None,
    good := if good && a.cin.Some? then s.good + {a.cin.value} else s.good,
    sweep := if a.bySweep && s.sweep.Some? then Some(Advanced(s.sweep.value, ct, good)) else s.sweep)
  }

  function At(s: State, stage: Stage): (r: State)
    requires s.lock.Some?
  {
    s.(lock := Some(s.lock.value.(stage := stage)))
  }

  function AfterInsert(s: State): (r: State)
    requires s.lock.Some?
  {
    var k := s.lock.value.event.key;
    if k in s.table then At(s, Reaccepting) else At(s.(table := Insert(s.table, k)), Putting)
  }

  function AfterReaccept(s: State): (r: State)
    requires s.lock.Some?
  {
    var k := s.lock.value.event.key;
    if Is(s.table, k, Overflow) then At(s.(table := Reaccept(s.table, k)), Putting) else Return(s, true)
  }

  function AfterPut(c: Config, s: State): (r: State)
    requires s.lock.Some?
  {
    var e := s.lock.value.event;
    match Put(s.lanes, c.bounds, e, e.kind == Cancel)
    case None => At(s, Marking)
    case Some(lanes) => Return(s.(lanes := lanes), true)
  }

  function AfterMark(s: State): (r: State)
    requires s.lock.Some?
  {
    Return(s.(table := Mark(s.table, s.lock.value.event.key)), false)
  }

  /** The head of the batch: internal events have no row; others are executed only if the row is won. */
  function AfterDispatch(s: State): (r: State)
    requires s.batch != []
  {
    var e := s.batch[0];
    if e.kind == Internal || !Is(s.table, e.key, Queued) then s.(batch := s.batch[1..])
    else s.(batch := s.batch[1..], table := Dispatch(s.table, e.key), wins := s.wins + multiset{e.key})
  }

  /** At shutdown an event is taken out of the queue and its row ended, without dispatch. */
  function AfterReject(s: State, how: Final): (r: State)
    requires s.batch != []
  {
    var e := s.batch[0];
    if e.kind == Internal then s.(batch := s.batch[1..])
    else s.(batch := s.batch[1..], table := Finish(s.table, e.key, how))
  }

  function AfterEndSweep(s: State): (r: State)
    requires s.sweep.Some?
  {
    var w := s.sweep.value;
    s.(sweep := None, marker := if w.completed.Some? && w.completed != w.base then w.completed else s.marker)
  }

  function AfterBoot(s: State): (r: State) {
    s.(table := SweepBoot(s.table), swept := true,
    clean := s.lanes == Lanes([], []) && s.batch == [] && s.lock.None?)
  }

  function AfterCrash(s: State): (r: State) {
    s.(lanes := Lanes([], []), batch := [], lock := None, sweep := None, swept := false, clean := false)
  }

  function Gone(t: Table, keys: set<Key>): (ks: set<Key>) {
    set k | k in keys && k in t && t[k].Ended?
  }

  function AfterCleanup(s: State, keys: set<Key>): (r: State) {
    s.(table := Forget(s.table, keys), forgotten := s.forgotten + multiset(Gone(s.table, keys)))
  }

  /* ---- the machine ---- */

  /** The next notification of a sweep under way. */
  predicate AtItem(s: State, i: nat) {
    && s.sweep.Some? && !s.sweep.value.broken && s.sweep.value.pos < |s.sweep.value.order|
    && s.sweep.value.order[s.sweep.value.pos] == i && i < |s.container|
    && !(s.lock.Some? && s.lock.value.bySweep)
  }

  ghost predicate CanBegin(c: Config, s: State, a: Action)
    requires a.Begin?
  {
    && s.lock.None? && a.event.kind != Internal
    && (match a.cin
        case Some(i) => i < |s.container| && s.container[i].event == Some(a.event)
        case None => !Mine(c, a.event.key))
    && (a.bySweep ==> a.cin.Some? && AtItem(s, a.cin.value) && !Below(s.container[a.cin.value].ct, s.sweep.value.base))
  }

  ghost predicate Enabled(c: Config, s: State, a: Action) {
    match a
    case Append(item) =>
      && Appends(s.container, item)
      && (item.event.Some? ==> item.event.value.kind != Internal && Mine(c, item.event.value.key))
    case Unrouted(i, _) => i < |s.container|
    case Begin(_, _, _) => CanBegin(c, s, a)
    case InsertRow => s.lock.Some? && s.lock.value.stage == Inserting
    case ReacceptRow => s.lock.Some? && s.lock.value.stage == Reaccepting
    case PutEvent => s.lock.Some? && s.lock.value.stage == Putting
    case MarkRow => s.lock.Some? && s.lock.value.stage == Marking
    case PutInternal(e, control) => e.kind == Internal && Put(s.lanes, c.bounds, e, control).Some?
    case Drain(_) => s.batch == []
    case DispatchNext => s.batch != []
    case RejectNext(_) => s.batch != []
    case FinishRow(_, _) => true
    case StartSweep(order) => s.sweep.None? && Listing(s.container, order)
    case SkipOld =>
      && s.sweep.Some? && s.sweep.value.pos < |s.sweep.value.order|
      && AtItem(s, s.sweep.value.order[s.sweep.value.pos])
      && Below(s.container[s.sweep.value.order[s.sweep.value.pos]].ct, s.sweep.value.base)
    case SweepUnrouted(_) =>
      && s.sweep.Some? && s.sweep.value.pos < |s.sweep.value.order|
      && AtItem(s, s.sweep.value.order[s.sweep.value.pos])
      && !Below(s.container[s.sweep.value.order[s.sweep.value.pos]].ct, s.sweep.value.base)
    case EndSweep =>
      && s.sweep.Some? && !(s.lock.Some? && s.lock.value.bySweep)
      && (s.sweep.value.broken || s.sweep.value.pos >= |s.sweep.value.order|)
    case AbortSweep => s.sweep.Some? && !(s.lock.Some? && s.lock.value.bySweep)
    case BootSweep => !s.swept
    case Crash => true
    case Cleanup(_) => true
  }

  ghost function Apply(c: Config, s: State, a: Action): (r: State)
    requires Enabled(c, s, a)
  {
    match a
    case Append(item) => s.(container := s.container + [item])
    case Unrouted(i, denied) => if denied then s else s.(good := s.good + {i})
    case Begin(e, cin, bySweep) => s.(lock := Some(Admission(e, cin, bySweep, Inserting)))
    case InsertRow => AfterInsert(s)
    case ReacceptRow => AfterReaccept(s)
    case PutEvent => AfterPut(c, s)
    case MarkRow => AfterMark(s)
    case PutInternal(e, control) => s.(lanes := Put(s.lanes, c.bounds, e, control).value)
    case Drain(budget) => s.(lanes := Rest(s.lanes, budget), batch := Batch(s.lanes, budget))
    case DispatchNext => AfterDispatch(s)
    case RejectNext(how) => AfterReject(s, how)
    case FinishRow(key, how) => s.(table := Finish(s.table, key, how))
    case StartSweep(order) => s.(sweep := Some(Sweep(order, 0, s.marker, s.marker, false)))
    case SkipOld => s.(sweep := Some(s.sweep.value.(pos := s.sweep.value.pos + 1)))
    case SweepUnrouted(denied) =>
      var i := s.sweep.value.order[s.sweep.value.pos];
      s.(sweep := Some(Advanced(s.sweep.value, s.container[i].ct, !denied)),
      good := if denied then s.good else s.good + {i})
    case EndSweep => AfterEndSweep(s)
    case AbortSweep => s.(sweep := None)
    case BootSweep => AfterBoot(s)
    case Crash => AfterCrash(s)
    case Cleanup(keys) => AfterCleanup(s, keys)
  }

  ghost predicate Legal(c: Config, s: State, acts: seq<Action>)
    decreases |acts|
  {
    acts == [] || (Enabled(c, s, acts[0]) && Legal(c, Apply(c, s, acts[0]), acts[1..]))
  }

  ghost function End(c: Config, s: State, acts: seq<Action>): (r: State)
    requires Legal(c, s, acts)
    decreases |acts|
  {
    if acts == [] then s else End(c, Apply(c, s, acts[0]), acts[1..])
  }

  /** A first start: empty tables, no marker. */
  ghost predicate Fresh(s: State) {
    && s.table == map[] && s.lanes == Lanes([], []) && s.batch == [] && s.lock.None? && s.container == []
    && s.marker.None? && s.sweep.None? && s.swept && s.clean && s.good == {}
    && s.wins == multiset{} && s.forgotten == multiset{}
  }
}
