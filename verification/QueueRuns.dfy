/** What holds of the outbound queue over every sequence of calls: order, last values, bounds and counts. */
module QueueRuns {
  import opened Wrappers
  import opened Operations
  import opened OutboundQueues

  datatype Action =
    | DoPut(op: Op, cls: QueueClass, key: Option<LatestKey>)
    | DoGet
    | DoClaim
    | DoTryClaim(op: Op)
    | DoRelease(op: Op)

  /** A put into the latest lane, or a departure from it: taken, or pushed out by the bound. */
  datatype Event = Came(key: LatestKey, op: Op) | Took(key: LatestKey, op: Op) | Dropped(key: LatestKey, op: Op)

  /** The queue with what has gone in and out of its lanes, in order. */
  datatype History = History(
    q: Queue,
    terminalIn: seq<Op>,
    terminalOut: seq<Op>,
    bulkIn: seq<Op>,
    bulkOut: seq<Op>,
    bulkTaken: nat,
    log: seq<Event>)

  const START := History(EMPTY, [], [], [], [], 0, [])

  function AfterPut(h: History, lim: Limits, op: Op, cls: QueueClass, key: Option<LatestKey>): (r: History) {
    var q := h.q;
    var next := PutOp(q, lim, op, cls, key).1;
    match cls
    case Terminal =>
      if PutOp(q, lim, op, cls, key).0 == Full then h else h.(q := next, terminalIn := h.terminalIn + [op])
    case Bulk =>
      h.(q := next, bulkIn := h.bulkIn + [op],
      bulkOut := if next.droppedBulk > q.droppedBulk && q.bulk != [] then h.bulkOut + [q.bulk[0]] else h.bulkOut)
    case Latest =>
      var k := if key.Some? then key else LatestKeyOf(op);
      if k.None? then h
      else
        var gone := if next.droppedLatest > q.droppedLatest && q.latest != []
                    then [Dropped(q.latest[0].key, q.latest[0].op)] else [];
        h.(q := next, log := h.log + gone + [Came(k.value, op)])
  }

  function AfterTake(h: History, t: Taken, next: Queue): (r: History) {
    match t.lane
    case Terminal => h.(q := next, terminalOut := h.terminalOut + [t.op])
    case Bulk => h.(q := next, bulkOut := h.bulkOut + [t.op], bulkTaken := h.bulkTaken + 1)
    case Latest =>
      if t.index < |h.q.latest| then h.(q := next, log := h.log + [Took(h.q.latest[t.index].key, t.op)]) else h
  }

  function After(h: History, lim: Limits, a: Action): (r: History) {
    match a
    case DoPut(op, cls, key) => AfterPut(h, lim, op, cls, key)
    case DoGet =>
      var t := Head(h.q);
      if t.None? then h else AfterTake(h, t.value, t.value.rest)
    case DoClaim =>
      var t := Pop(h.q);
      if t.None? then h else AfterTake(h, t.value, Lock(t.value.rest, t.value.op))
    case DoTryClaim(op) => if OrderKeyOf(op) in h.q.active then h else h.(q := Lock(h.q, op))
    case DoRelease(op) => h.(q := Unlock(h.q, op))
  }

  /** The history after any sequence of calls on a new queue. */
  function Run(lim: Limits, acts: seq<Action>): (h: History) {
    if acts == [] then START else After(Run(lim, acts[..|acts| - 1]), lim, acts[|acts| - 1])
  }

  ghost predicate Usable(lim: Limits) {
    lim.terminal >= 1 && lim.latest >= 1 && lim.bulk >= 1
  }

  /* ---- order ---- */

  function Only(op: Op, k: OrderKey): (r: seq<Op>) {
    if OrderKeyOf(op) == k then [op] else []
  }

  /** The operations of one interface, in order. */
  function For(ops: seq<Op>, k: OrderKey): (r: seq<Op>) {
    if ops == [] then [] else Only(ops[0], k) + For(ops[1..], k)
  }

  lemma {:induction false} ForAppend(a: seq<Op>, b: seq<Op>, k: OrderKey)
    ensures For(a + b, k) == For(a, k) + For(b, k)
  {
    if a == [] {
      assert a + b == b;
    } else {
      ForAppend(a[1..], b, k);
      assert (a + b)[1..] == a[1..] + b && (a + b)[0] == a[0];
      var first, x, y := Only(a[0], k), For(a[1..], k), For(b, k);
      assert first + (x + y) == (first + x) + y;
    }
  }

  lemma {:induction false} ForNone(ops: seq<Op>, k: OrderKey)
    requires forall j :: 0 <= j < |ops| ==> OrderKeyOf(ops[j]) != k
    ensures For(ops, k) == []
  {
    if ops == [] {
    } else {
      ForNone(ops[1..], k);
    }
  }

  /** Taking the first operation of its interface out of a lane takes the head of that interface's order. */
  lemma {:induction false} ForRemove(ops: seq<Op>, i: nat, k: OrderKey)
    requires i < |ops|
    requires forall j :: 0 <= j < i ==> OrderKeyOf(ops[j]) != OrderKeyOf(ops[i])
    ensures For(ops, k) == Only(ops[i], k) + For(Remove(ops, i), k)
  {
    if i == 0 {
      assert Remove(ops, 0) == ops[1..];
    } else {
      ForRemove(ops[1..], i - 1, k);
      assert Remove(ops, i)[1..] == Remove(ops[1..], i - 1);
      assert Only(ops[0], k) == [] || Only(ops[i], k) == [];
    }
  }

  lemma ForOne(op: Op, k: OrderKey)
    ensures For([op], k) == Only(op, k)
  {
  }

  ghost predicate InOrder(ins: seq<Op>, outs: seq<Op>, lane: seq<Op>, k: OrderKey) {
    For(ins, k) == For(outs, k) + For(lane, k)
  }

  lemma PutKeepsOrder(ins: seq<Op>, outs: seq<Op>, lane: seq<Op>, op: Op, k: OrderKey)
    requires InOrder(ins, outs, lane, k)
    ensures InOrder(ins + [op], outs, lane + [op], k)
  {
    ForAppend(ins, [op], k);
    ForAppend(lane, [op], k);
  }

  lemma TakeKeepsOrder(ins: seq<Op>, outs: seq<Op>, lane: seq<Op>, i: nat, k: OrderKey)
    requires i < |lane| && InOrder(ins, outs, lane, k)
    requires forall j :: 0 <= j < i ==> OrderKeyOf(lane[j]) != OrderKeyOf(lane[i])
    ensures InOrder(ins, outs + [lane[i]], Remove(lane, i), k)
  {
    ForAppend(outs, [lane[i]], k);
    ForOne(lane[i], k);
    ForRemove(lane, i, k);
  }

  /** t takes, from its lane, the first operation of its interface. */
  ghost predicate TakesFirst(q: Queue, t: Taken) {
    match t.lane
    case Terminal =>
      t.index < |q.terminal| && t == TakeTerminal(q, t.index)
      && forall j :: 0 <= j < t.index ==> OrderKeyOf(q.terminal[j]) != OrderKeyOf(t.op)
    case Latest => t.index < |q.latest| && t == TakeLatest(q, t.index)
    case Bulk =>
      t.index < |q.bulk| && t == TakeBulk(q, t.index)
      && forall j :: 0 <= j < t.index ==> OrderKeyOf(q.bulk[j]) != OrderKeyOf(t.op)
  }

  lemma BothTakeFirst(q: Queue)
    ensures Head(q).Some? ==> TakesFirst(q, Head(q).value)
    ensures Pop(q).Some? ==> TakesFirst(q, Pop(q).value)
  {
  }

  ghost predicate Ordered(h: History, k: OrderKey) {
    InOrder(h.terminalIn, h.terminalOut, h.q.terminal, k) && InOrder(h.bulkIn, h.bulkOut, h.q.bulk, k)
  }

  lemma TakeOrdered(h: History, t: Taken, next: Queue, k: OrderKey)
    requires Ordered(h, k) && TakesFirst(h.q, t)
    requires next.terminal == t.rest.terminal && next.bulk == t.rest.bulk
    ensures Ordered(AfterTake(h, t, next), k)
  {
    match t.lane
    case Terminal => TakeKeepsOrder(h.terminalIn, h.terminalOut, h.q.terminal, t.index, k);
    case Bulk => TakeKeepsOrder(h.bulkIn, h.bulkOut, h.q.bulk, t.index, k);
    case Latest =>
  }

  lemma PutOrdered(h: History, lim: Limits, op: Op, cls: QueueClass, key: Option<LatestKey>, k: OrderKey)
    requires Ordered(h, k)
    ensures Ordered(AfterPut(h, lim, op, cls, key), k)
  {
    var bulk := h.q.bulk;
    match cls
    case Terminal => PutKeepsOrder(h.terminalIn, h.terminalOut, h.q.terminal, op, k);
    case Bulk =>
      if |bulk| >= lim.bulk && bulk != [] {
        TakeKeepsOrder(h.bulkIn, h.bulkOut, bulk, 0, k);
        assert Remove(bulk, 0) == bulk[1..];
        PutKeepsOrder(h.bulkIn, h.bulkOut + [bulk[0]], bulk[1..], op, k);
      } else {
        PutKeepsOrder(h.bulkIn, h.bulkOut, bulk, op, k);
      }
    case Latest =>
  }

  lemma OrderStep(h: History, lim: Limits, a: Action, k: OrderKey)
    requires Ordered(h, k)
    ensures Ordered(After(h, lim, a), k)
  {
    BothTakeFirst(h.q);
    match a
    case DoPut(op, cls, key) => PutOrdered(h, lim, op, cls, key, k);
    case DoGet =>
      if Head(h.q).Some? {
        TakeOrdered(h, Head(h.q).value, Head(h.q).value.rest, k);
      }
    case DoClaim =>
      if Pop(h.q).Some? {
        TakeOrdered(h, Pop(h.q).value, Lock(Pop(h.q).value.rest, Pop(h.q).value.op), k);
      }
    case _ =>
  }

  /**
    First in, first out for every interface, over every run: what was put into the terminal or the bulk lane
    is what left it, claimed or dropped, followed by what is still queued, in the order of the puts.
  */
  lemma {:induction false} InterfaceOrder(lim: Limits, acts: seq<Action>, k: OrderKey)
    ensures var h := Run(lim, acts);
            && For(h.terminalIn, k) == For(h.terminalOut, k) + For(h.q.terminal, k)
            && For(h.bulkIn, k) == For(h.bulkOut, k) + For(h.q.bulk, k)
  {
    if acts == [] {
    } else {
      InterfaceOrder(lim, acts[..|acts| - 1], k);
      OrderStep(Run(lim, acts[..|acts| - 1]), lim, acts[|acts| - 1], k);
    }
  }

  /* ---- last values ---- */

  /** The operation last put for a key, if the key has not left since. */
  function Current(log: seq<Event>, key: LatestKey): (op: Option<Op>) {
    if log == [] then None
    else
      var e := log[|log| - 1];
      if e.key != key then Current(log[..|log| - 1], key) else if e.Came? then Some(e.op) else None
  }

  /** When the key last entered: the position of its oldest put since it last left. */
  function Entered(log: seq<Event>, key: LatestKey): (i: nat) {
    if log == [] then 0
    else
      var front := log[..|log| - 1];
      if log[|log| - 1].key != key || Current(front, key).Some? then Entered(front, key) else |front|
  }

  function Find(latest: seq<Entry>, key: LatestKey): (op: Option<Op>) {
    var i := Position(latest, key);
    if i < |latest| then Some(latest[i].op) else None
  }

  ghost predicate KeysDiffer(latest: seq<Entry>) {
    forall i, j :: 0 <= i < j < |latest| ==> latest[i].key != latest[j].key
  }

  /** The lane is the last-value map of its log, in the order in which the keys entered. */
  ghost predicate Refines(latest: seq<Entry>, log: seq<Event>) {
    && KeysDiffer(latest)
    && (forall key :: Find(latest, key) == Current(log, key))
    && (forall i, j :: 0 <= i < j < |latest| ==> Entered(log, latest[i].key) < Entered(log, latest[j].key))
  }

  lemma {:induction false} EnteredBefore(log: seq<Event>, key: LatestKey)
    requires Current(log, key).Some?
    ensures Entered(log, key) < |log|
  {
    var front := log[..|log| - 1];
    if log[|log| - 1].key == key && Current(front, key).None? {
    } else {
      EnteredBefore(front, key);
    }
  }

  lemma FindAt(latest: seq<Entry>, i: nat)
    requires KeysDiffer(latest) && i < |latest|
    ensures Find(latest, latest[i].key) == Some(latest[i].op)
  {
  }

  lemma FindAbsent(latest: seq<Entry>, key: LatestKey)
    requires forall i :: 0 <= i < |latest| ==> latest[i].key != key
    ensures Find(latest, key).None?
  {
  }

  /** One more event leaves every other key as it was. */
  lemma OtherKeys(log: seq<Event>, e: Event, key: LatestKey)
    requires e.key != key
    ensures Current(log + [e], key) == Current(log, key) && Entered(log + [e], key) == Entered(log, key)
  {
  }

  lemma OwnKey(log: seq<Event>, e: Event)
    ensures Current(log + [e], e.key) == if e.Came? then Some(e.op) else None
    ensures Entered(log + [e], e.key) == if Current(log, e.key).Some? then Entered(log, e.key) else |log|
  {
  }

  /** A key leaves the lane. */
  lemma LeaveRefines(latest: seq<Entry>, log: seq<Event>, i: nat, e: Event)
    requires Refines(latest, log) && i < |latest| && !e.Came? && e.key == latest[i].key
    ensures Refines(Remove(latest, i), log + [e])
  {
    var rest := Remove(latest, i);
    OwnKey(log, e);
    forall j | 0 <= j < |rest| ensures rest[j].key != e.key && rest[j] == latest[if j < i then j else j + 1] {
    }
    forall key ensures Find(rest, key) == Current(log + [e], key) {
      if key == e.key {
        FindAbsent(rest, key);
      } else {
        OtherKeys(log, e, key);
        FindAfterRemove(latest, i, key);
      }
    }
    forall a, b | 0 <= a < b < |rest|
      ensures Entered(log + [e], rest[a].key) < Entered(log + [e], rest[b].key)
    {
      OtherKeys(log, e, rest[a].key);
      OtherKeys(log, e, rest[b].key);
    }
  }

  lemma FindAfterRemove(latest: seq<Entry>, i: nat, key: LatestKey)
    requires KeysDiffer(latest) && i < |latest| && key != latest[i].key
    ensures Find(Remove(latest, i), key) == Find(latest, key)
  {
    var rest, p := Remove(latest, i), Position(latest, key);
    if p < |latest| {
      var q := if p < i then p else p - 1;
      assert rest[q] == latest[p];
      assert KeysDiffer(rest);
      FindAt(rest, q);
    } else {
      FindAbsent(rest, key);
    }
  }

  /** A new key enters at the end. */
  lemma EnterRefines(latest: seq<Entry>, log: seq<Event>, key: LatestKey, op: Op)
    requires Refines(latest, log) && Find(latest, key).None?
    ensures Refines(latest + [Entry(key, op)], log + [Came(key, op)])
  {
    var more, e := latest + [Entry(key, op)], Came(key, op);
    OwnKey(log, e);
    assert Current(log, key).None?;
    assert KeysDiffer(more);
    FindAt(more, |latest|);
    forall k ensures Find(more, k) == Current(log + [e], k) {
      if k != key {
        OtherKeys(log, e, k);
        if Position(latest, k) < |latest| {
          FindAt(more, Position(latest, k));
        } else {
          FindAbsent(more, k);
        }
      }
    }
    forall a, b | 0 <= a < b < |more|
      ensures Entered(log + [e], more[a].key) < Entered(log + [e], more[b].key)
    {
      OtherKeys(log, e, more[a].key);
      FindAt(latest, a);
      EnteredBefore(log, latest[a].key);
      if b < |latest| {
        OtherKeys(log, e, more[b].key);
      }
    }
  }

  /** A present key takes the new value in its place. */
  lemma OverwriteRefines(latest: seq<Entry>, log: seq<Event>, i: nat, op: Op)
    requires Refines(latest, log) && i < |latest|
    ensures Refines(latest[i := Entry(latest[i].key, op)], log + [Came(latest[i].key, op)])
  {
    var key := latest[i].key;
    var same, e := latest[i := Entry(key, op)], Came(key, op);
    OwnKey(log, e);
    FindAt(latest, i);
    forall j | 0 <= j < |same| ensures same[j].key == latest[j].key {
    }
    assert KeysDiffer(same);
    forall k ensures Find(same, k) == Current(log + [e], k) {
      if k == key {
        FindAt(same, i);
      } else {
        OtherKeys(log, e, k);
        if Position(latest, k) < |latest| {
          FindAt(same, Position(latest, k));
        } else {
          FindAbsent(same, k);
        }
      }
    }
    forall a, b | 0 <= a < b < |same|
      ensures Entered(log + [e], same[a].key) < Entered(log + [e], same[b].key)
    {
      if a != i {
        OtherKeys(log, e, same[a].key);
      }
      if b != i {
        OtherKeys(log, e, same[b].key);
      }
    }
  }

  lemma PutRefines(h: History, lim: Limits, op: Op, key: Option<LatestKey>)
    requires Refines(h.q.latest, h.log)
    ensures var n := AfterPut(h, lim, op, Latest, key); Refines(n.q.latest, n.log)
  {
    var k := if key.Some? then key else LatestKeyOf(op);
    var latest, log := h.q.latest, h.log;
    if k.Some? {
      var i := Position(latest, k.value);
      if i < |latest| {
        OverwriteRefines(latest, log, i, op);
        assert log + [] == log;
      } else if |latest| >= lim.latest && latest != [] {
        var gone := Dropped(latest[0].key, latest[0].op);
        LeaveRefines(latest, log, 0, gone);
        assert Remove(latest, 0) == latest[1..];
        FindAbsent(latest[1..], k.value);
        EnterRefines(latest[1..], log + [gone], k.value, op);
      } else {
        EnterRefines(latest, log, k.value, op);
        assert log + [] == log;
      }
    }
  }

  lemma TakeRefines(h: History, t: Taken, next: Queue)
    requires Refines(h.q.latest, h.log) && TakesFirst(h.q, t) && next.latest == t.rest.latest
    ensures var n := AfterTake(h, t, next); Refines(n.q.latest, n.log)
  {
    if t.lane == Latest {
      LeaveRefines(h.q.latest, h.log, t.index, Took(h.q.latest[t.index].key, t.op));
    }
  }

  lemma LatestStep(h: History, lim: Limits, a: Action)
    requires Refines(h.q.latest, h.log)
    ensures Refines(After(h, lim, a).q.latest, After(h, lim, a).log)
  {
    BothTakeFirst(h.q);
    match a
    case DoPut(op, cls, key) =>
      if cls == Latest {
        PutRefines(h, lim, op, key);
      }
    case DoGet =>
      if Head(h.q).Some? {
        TakeRefines(h, Head(h.q).value, Head(h.q).value.rest);
      }
    case DoClaim =>
      if Pop(h.q).Some? {
        TakeRefines(h, Pop(h.q).value, Lock(Pop(h.q).value.rest, Pop(h.q).value.op));
      }
    case _ =>
  }

  /**
    Over every run the latest lane is a last-value map: it holds for each key the newest put since the key last
    left, and nothing for a key that has left; its keys stand in the order in which they entered, so an
    overwriting put never costs a key its rank.
  */
  lemma {:induction false} LatestIsLastValue(lim: Limits, acts: seq<Action>)
    ensures Refines(Run(lim, acts).q.latest, Run(lim, acts).log)
  {
    if acts == [] {
    } else {
      LatestIsLastValue(lim, acts[..|acts| - 1]);
      LatestStep(Run(lim, acts[..|acts| - 1]), lim, acts[|acts| - 1]);
    }
  }

  /** So a claim from the latest lane hands out the newest put for its key since that key last left. */
  lemma ClaimIsNewest(lim: Limits, acts: seq<Action>)
    ensures var h := Run(lim, acts);
            Pop(h.q).Some? && Pop(h.q).value.lane == Latest && Pop(h.q).value.index < |h.q.latest| ==>
              Current(h.log, h.q.latest[Pop(h.q).value.index].key) == Some(Pop(h.q).value.op)
  {
    LatestIsLastValue(lim, acts);
    var h := Run(lim, acts);
    ClaimOrder(h.q);
    if Pop(h.q).Some? && Pop(h.q).value.lane == Latest {
      FindAt(h.q.latest, Pop(h.q).value.index);
    }
  }

  /* ---- bounds and counts ---- */

  datatype Tally = Tally(puts: nat, overwrites: nat, took: nat, dropped: nat)

  function Counted(t: Tally, before: seq<Event>, e: Event): (r: Tally) {
    match e
    case Came(_, _) =>
      if Current(before, e.key).Some? then t.(puts := t.puts + 1, overwrites := t.overwrites + 1)
      else t.(puts := t.puts + 1)
    case Took(_, _) => t.(took := t.took + 1)
    case Dropped(_, _) => t.(dropped := t.dropped + 1)
  }

  function Count(log: seq<Event>): (t: Tally) {
    if log == [] then Tally(0, 0, 0, 0)
    else
      var front := log[..|log| - 1];
      Counted(Count(front), front, log[|log| - 1])
  }

  /** Every accepted put is taken, overwritten, counted as dropped, or still queued. */
  ghost predicate Accounted(h: History, lim: Limits) {
    && |h.q.terminal| <= lim.terminal && |h.q.latest| <= lim.latest && |h.q.bulk| <= lim.bulk
    && |h.terminalIn| == |h.terminalOut| + |h.q.terminal|
    && |h.bulkIn| == h.bulkTaken + h.q.droppedBulk + |h.q.bulk|
    && Count(h.log).puts == Count(h.log).took + Count(h.log).overwrites + Count(h.log).dropped + |h.q.latest|
    && Count(h.log).dropped == h.q.droppedLatest
  }

  lemma CountOne(log: seq<Event>, e: Event)
    ensures Count(log + [e]) == Counted(Count(log), log, e)
  {
  }

  lemma AccountPut(h: History, lim: Limits, op: Op, key: Option<LatestKey>)
    requires Usable(lim) && Accounted(h, lim) && Refines(h.q.latest, h.log)
    ensures Accounted(AfterPut(h, lim, op, Latest, key), lim)
  {
    var k := if key.Some? then key else LatestKeyOf(op);
    var latest, log := h.q.latest, h.log;
    if k.Some? {
      assert Find(latest, k.value) == Current(log, k.value);
      if Position(latest, k.value) == |latest| && |latest| >= lim.latest {
        var gone := Dropped(latest[0].key, latest[0].op);
        assert latest[0].key != k.value;
        OtherKeys(log, gone, k.value);
        CountOne(log, gone);
        CountOne(log + [gone], Came(k.value, op));
      } else {
        CountOne(log, Came(k.value, op));
        assert log + [] == log;
      }
    }
  }

  lemma AccountTake(h: History, lim: Limits, t: Taken, next: Queue)
    requires Accounted(h, lim) && TakesFirst(h.q, t)
    requires next.(active := {}) == t.rest.(active := {})
    ensures Accounted(AfterTake(h, t, next), lim)
  {
  }

  lemma AccountStep(h: History, lim: Limits, a: Action)
    requires Usable(lim) && Accounted(h, lim) && Refines(h.q.latest, h.log)
    ensures Accounted(After(h, lim, a), lim)
  {
    BothTakeFirst(h.q);
    match a
    case DoPut(op, cls, key) =>
      if cls == Latest {
        AccountPut(h, lim, op, key);
      }
    case DoGet =>
      if Head(h.q).Some? {
        AccountTake(h, lim, Head(h.q).value, Head(h.q).value.rest);
      }
    case DoClaim =>
      if Pop(h.q).Some? {
        AccountTake(h, lim, Pop(h.q).value, Lock(Pop(h.q).value.rest, Pop(h.q).value.op));
      }
    case _ =>
  }

  /** Over every run the lanes stay within their bounds and no put goes unaccounted for. */
  lemma {:induction false} BoundedAndCounted(lim: Limits, acts: seq<Action>)
    requires Usable(lim)
    ensures Accounted(Run(lim, acts), lim)
  {
    if acts == [] {
    } else {
      BoundedAndCounted(lim, acts[..|acts| - 1]);
      LatestIsLastValue(lim, acts[..|acts| - 1]);
      AccountStep(Run(lim, acts[..|acts| - 1]), lim, acts[|acts| - 1]);
    }
  }
}
