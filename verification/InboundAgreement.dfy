/** Ledger and queue agree: a queued row has its entry, and after a clean start the entry is the only one. */
module InboundAgreement {
  import opened Wrappers
  import opened Bags
  import opened Ledgers
  import opened InboundQueues
  import opened Inbound
  import opened InboundOnce

  /** The row an event stands for. */
  function RowKey(e: Event): (m: multiset<Key>) {
    if e.kind == Internal then multiset{} else multiset{e.key}
  }

  /** How many entries for a key are in the lanes or in the batch being dispatched. */
  function Entries(s: State, k: Key): (n: nat) {
    Bag(RowKey, s.lanes.control)[k] + Bag(RowKey, s.lanes.normal)[k] + Bag(RowKey, s.batch)[k]
  }

  /** An admission has queued the row and has yet to put the event, or to mark the row. */
  predicate InHand(s: State, k: Key) {
    s.lock.Some? && (s.lock.value.stage == Putting || s.lock.value.stage == Marking) && s.lock.value.event.key == k
  }

  /** Events under admission are never internal. */
  ghost predicate LockOk(s: State) {
    s.lock.Some? ==> s.lock.value.event.kind != Internal
  }

  /** What stands for the row of a key: its entries, and an admission that has it in hand. */
  function Weight(s: State, k: Key): (n: nat) {
    Entries(s, k) + if InHand(s, k) then 1 else 0
  }

  /** After sweep_boot no row is queued without an entry for it. */
  ghost predicate Backed(s: State, k: Key) {
    s.swept && Is(s.table, k, Queued) ==> Weight(s, k) >= 1
  }

  /** After a clean sweep_boot no key has two entries, and every entry's row is queued. */
  ghost predicate Single(s: State, k: Key) {
    s.clean ==> Weight(s, k) <= 1 && (Weight(s, k) == 1 ==> Is(s.table, k, Queued))
  }

  ghost predicate Agrees(s: State, k: Key) {
    LockOk(s) && Backed(s, k)
  }

  /** The step keeps both halves of the agreement, the second as long as it held. */
  ghost predicate Keeps(s: State, t: State, k: Key) {
    Agrees(t, k) && (Single(s, k) ==> Single(t, k))
  }

  /** A finish only ever hits a row that is not waiting: what was dispatched, or is gone. */
  ghost predicate Tame(s: State, a: Action) {
    a.FinishRow? ==> !Is(s.table, a.key, Queued) && !Is(s.table, a.key, Overflow)
  }

  /* ---- counting entries ---- */

  lemma PutCounts(q: Lanes, b: InboundQueues.Bounds, e: Event, control: bool, k: Key)
    requires Put(q, b, e, control).Some?
    ensures var r := Put(q, b, e, control).value;
            Bag(RowKey, r.control)[k] + Bag(RowKey, r.normal)[k]
            == Bag(RowKey, q.control)[k] + Bag(RowKey, q.normal)[k] + RowKey(e)[k]
  {
    BagOne(RowKey, e, k);
    if control {
      BagAppend(RowKey, q.control, [e], k);
    } else {
      BagAppend(RowKey, q.normal, [e], k);
    }
  }

  lemma DrainCounts(q: Lanes, budget: nat, k: Key)
    ensures Bag(RowKey, Rest(q, budget).control)[k] + Bag(RowKey, Rest(q, budget).normal)[k]
            + Bag(RowKey, Batch(q, budget))[k]
            == Bag(RowKey, q.control)[k] + Bag(RowKey, q.normal)[k]
  {
    var i, j := FromControl(q, budget), FromNormal(q, budget);
    assert q.control == q.control[..i] + q.control[i..];
    assert q.normal == q.normal[..j] + q.normal[j..];
    BagAppend(RowKey, q.control[..i], q.control[i..], k);
    BagAppend(RowKey, q.normal[..j], q.normal[j..], k);
    BagAppend(RowKey, q.control[..i], q.normal[..j], k);
  }

  lemma PopCounts(batch: seq<Event>, k: Key)
    requires batch != []
    ensures Bag(RowKey, batch)[k] == RowKey(batch[0])[k] + Bag(RowKey, batch[1..])[k]
  {
  }

  /* ---- steps ---- */

  lemma SameWeight(s: State, t: State, k: Key)
    requires Agrees(s, k) && LockOk(t) && t.swept == s.swept && t.clean == s.clean
    requires Weight(t, k) == Weight(s, k) && (Is(t.table, k, Queued) <==> Is(s.table, k, Queued))
    ensures Keeps(s, t, k)
  {
  }

  /** The row stops being queued and loses what stood for it. */
  lemma Settled(s: State, t: State, k: Key)
    requires Agrees(s, k) && LockOk(t) && t.swept == s.swept && t.clean == s.clean
    requires Weight(t, k) + 1 == Weight(s, k) && !Is(t.table, k, Queued)
    ensures Keeps(s, t, k)
  {
  }

  lemma InsertAgrees(s: State, k: Key)
    requires Agrees(s, k) && s.lock.Some? && s.lock.value.stage == Inserting
    ensures Keeps(s, AfterInsert(s), k)
  {
    var t := AfterInsert(s);
    assert Entries(t, k) == Entries(s, k) && !InHand(s, k);
    if k != s.lock.value.event.key || k in s.table {
      SameWeight(s, t, k);
    }
  }

  lemma ReacceptAgrees(s: State, k: Key)
    requires Agrees(s, k) && s.lock.Some? && s.lock.value.stage == Reaccepting
    ensures Keeps(s, AfterReaccept(s), k)
  {
    var t := AfterReaccept(s);
    assert Entries(t, k) == Entries(s, k) && !InHand(s, k);
    if k != s.lock.value.event.key || !Is(s.table, k, Overflow) {
      SameWeight(s, t, k);
    }
  }

  lemma PutAgrees(c: Config, s: State, k: Key)
    requires Agrees(s, k) && s.lock.Some? && s.lock.value.stage == Putting
    ensures Keeps(s, AfterPut(c, s), k)
  {
    var e, t := s.lock.value.event, AfterPut(c, s);
    if Put(s.lanes, c.bounds, e, e.kind == Cancel).Some? {
      PutCounts(s.lanes, c.bounds, e, e.kind == Cancel, k);
      assert Entries(t, k) == Entries(s, k) + RowKey(e)[k];
    }
    SameWeight(s, t, k);
  }

  lemma MarkAgrees(s: State, k: Key)
    requires Agrees(s, k) && s.lock.Some? && s.lock.value.stage == Marking
    ensures Keeps(s, AfterMark(s), k)
    ensures !Is(AfterMark(s).table, s.lock.value.event.key, Queued)
  {
  }

  lemma PutInternalAgrees(c: Config, s: State, e: Event, control: bool, k: Key)
    requires Agrees(s, k) && e.kind == Internal && Put(s.lanes, c.bounds, e, control).Some?
    ensures Keeps(s, s.(lanes := Put(s.lanes, c.bounds, e, control).value), k)
  {
    PutCounts(s.lanes, c.bounds, e, control, k);
    SameWeight(s, s.(lanes := Put(s.lanes, c.bounds, e, control).value), k);
  }

  lemma DrainAgrees(s: State, budget: nat, k: Key)
    requires Agrees(s, k) && s.batch == []
    ensures Keeps(s, s.(lanes := Rest(s.lanes, budget), batch := Batch(s.lanes, budget)), k)
  {
    DrainCounts(s.lanes, budget, k);
    SameWeight(s, s.(lanes := Rest(s.lanes, budget), batch := Batch(s.lanes, budget)), k);
  }

  /** Taking the head of the batch out, with its row moved on from queued if it was. */
  lemma PopAgrees(s: State, t: State, k: Key)
    requires Agrees(s, k) && s.batch != [] && t.batch == s.batch[1..] && t.lanes == s.lanes && t.lock == s.lock
    requires t.swept == s.swept && t.clean == s.clean
    requires RowKey(s.batch[0])[k] == 0 ==> (Is(t.table, k, Queued) <==> Is(s.table, k, Queued))
    requires RowKey(s.batch[0])[k] > 0 ==> !Is(t.table, k, Queued)
    ensures Keeps(s, t, k)
  {
    PopCounts(s.batch, k);
    assert Entries(s, k) == Entries(t, k) + RowKey(s.batch[0])[k] && InHand(t, k) == InHand(s, k);
    if RowKey(s.batch[0])[k] == 0 {
      SameWeight(s, t, k);
    } else {
      Settled(s, t, k);
    }
  }

  lemma DispatchAgrees(s: State, k: Key)
    requires Agrees(s, k) && s.batch != []
    ensures Keeps(s, AfterDispatch(s), k)
  {
    PopAgrees(s, AfterDispatch(s), k);
  }

  lemma RejectAgrees(s: State, how: Final, k: Key)
    requires Agrees(s, k) && s.batch != []
    ensures Keeps(s, AfterReject(s, how), k)
  {
    PopAgrees(s, AfterReject(s, how), k);
  }

  lemma CrashAgrees(s: State, k: Key)
    ensures Keeps(s, AfterCrash(s), k)
  {
  }

  lemma BootAgrees(s: State, k: Key)
    requires LockOk(s)
    ensures Keeps(s, AfterBoot(s), k)
  {
  }

  lemma CleanupAgrees(s: State, keys: set<Key>, k: Key)
    requires Agrees(s, k)
    ensures Keeps(s, AfterCleanup(s, keys), k)
  {
  }

  lemma FinishAgrees(c: Config, s: State, key: Key, how: Final, k: Key)
    requires Agrees(s, k)
    ensures Agrees(s.(table := Finish(s.table, key, how)), k)
    ensures Tame(s, FinishRow(key, how)) && Single(s, k) ==> Single(s.(table := Finish(s.table, key, how)), k)
  {
  }

  /** Steps that touch neither the table nor the queue, nor what an admission has in hand. */
  predicate Aside(a: Action) {
    || a.Append? || a.Unrouted? || a.Begin? || a.StartSweep? || a.SkipOld? || a.SweepUnrouted? || a.EndSweep?
    || a.AbortSweep?
  }

  lemma AsideAgrees(c: Config, s: State, a: Action, k: Key)
    requires Agrees(s, k) && Enabled(c, s, a) && Aside(a)
    ensures Keeps(s, Apply(c, s, a), k)
  {
    var t := Apply(c, s, a);
    assert t.table == s.table && t.lanes == s.lanes && t.batch == s.batch && t.swept == s.swept && t.clean == s.clean;
    assert InHand(t, k) == InHand(s, k);
  }

  lemma ActionAgrees(c: Config, s: State, a: Action, k: Key)
    requires Agrees(s, k) && Enabled(c, s, a)
    ensures Agrees(Apply(c, s, a), k)
    ensures Tame(s, a) && Single(s, k) ==> Single(Apply(c, s, a), k)
  {
    if Aside(a) {
      AsideAgrees(c, s, a, k);
    } else if a.InsertRow? {
      InsertAgrees(s, k);
    } else if a.ReacceptRow? {
      ReacceptAgrees(s, k);
    } else if a.PutEvent? {
      PutAgrees(c, s, k);
    } else if a.MarkRow? {
      MarkAgrees(s, k);
    } else if a.PutInternal? {
      PutInternalAgrees(c, s, a.event, a.control, k);
    } else if a.Drain? {
      DrainAgrees(s, a.budget, k);
    } else if a.DispatchNext? {
      DispatchAgrees(s, k);
    } else if a.RejectNext? {
      RejectAgrees(s, a.how, k);
    } else if a.FinishRow? {
      FinishAgrees(c, s, a.key, a.how, k);
    } else if a.BootSweep? {
      BootAgrees(s, k);
    } else if a.Crash? {
      CrashAgrees(s, k);
    } else {
      CleanupAgrees(s, a.keys, k);
    }
  }

  ghost predicate TameRun(c: Config, s: State, acts: seq<Action>)
    requires Legal(c, s, acts)
    decreases |acts|
  {
    acts == [] || (Tame(s, acts[0]) && TameRun(c, Apply(c, s, acts[0]), acts[1..]))
  }

  lemma {:induction false} RunAgrees(c: Config, s: State, acts: seq<Action>, k: Key)
    requires Agrees(s, k) && Legal(c, s, acts)
    ensures Agrees(End(c, s, acts), k)
    ensures TameRun(c, s, acts) && Single(s, k) ==> Single(End(c, s, acts), k)
    decreases |acts|
  {
    if acts == [] {
    } else {
      ActionAgrees(c, s, acts[0], k);
      RunAgrees(c, Apply(c, s, acts[0]), acts[1..], k);
    }
  }

  /** A finish ends a row that has been won since it was last cleaned up; without a cleanup, one won at all. */
  ghost predicate FinishesWins(c: Config, s: State, acts: seq<Action>)
    requires Legal(c, s, acts)
    decreases |acts|
  {
    acts == []
    || ((acts[0].FinishRow? ==> s.wins[acts[0].key] > s.forgotten[acts[0].key])
        && FinishesWins(c, Apply(c, s, acts[0]), acts[1..]))
  }

  /** What has been won is never waiting, as a row is won at most once until it is cleaned up. */
  lemma {:induction false} WinsAreTame(c: Config, s: State, acts: seq<Action>)
    requires Legal(c, s, acts) && FinishesWins(c, s, acts) && forall k :: OnceAt(s, k)
    ensures TameRun(c, s, acts)
    decreases |acts|
  {
    if acts == [] {
    } else {
      if acts[0].FinishRow? {
        assert OnceAt(s, acts[0].key);
      }
      forall k ensures OnceAt(Apply(c, s, acts[0]), k) {
        ActionOnce(c, s, acts[0], k);
      }
      WinsAreTame(c, Apply(c, s, acts[0]), acts[1..]);
    }
  }

  /** sweep_boot has run since the last crash of these steps, or since before them. */
  ghost predicate BootedSince(s: State, acts: seq<Action>) {
    || (s.swept && forall j :: 0 <= j < |acts| ==> !acts[j].Crash?)
    || exists j :: 0 <= j < |acts| && acts[j].BootSweep? && forall m :: j < m < |acts| ==> !acts[m].Crash?
  }

  lemma BootedLater(s: State, t: State, acts: seq<Action>)
    requires acts != []
    requires t.swept == if acts[0].BootSweep? then true else if acts[0].Crash? then false else s.swept
    ensures BootedSince(s, acts) <==> BootedSince(t, acts[1..])
  {
    var rest := acts[1..];
    assert forall j :: 0 <= j < |rest| ==> rest[j] == acts[j + 1];
    if BootedSince(s, acts) {
      if exists j :: 0 < j < |acts| && acts[j].BootSweep? && forall m :: j < m < |acts| ==> !acts[m].Crash? {
        var j :| 0 < j < |acts| && acts[j].BootSweep? && forall m :: j < m < |acts| ==> !acts[m].Crash?;
        assert rest[j - 1].BootSweep?;
      } else {
        assert t.swept && forall j :: 0 <= j < |rest| ==> !rest[j].Crash?;
      }
    }
    if BootedSince(t, rest) && exists j :: 0 <= j < |rest| && rest[j].BootSweep?
                                           && forall m :: j < m < |rest| ==> !rest[m].Crash? {
      var j :| 0 <= j < |rest| && rest[j].BootSweep? && forall m :: j < m < |rest| ==> !rest[m].Crash?;
      assert acts[j + 1].BootSweep?;
      assert forall m :: j + 1 < m < |acts| ==> !acts[m].Crash? by {
        forall m | j + 1 < m < |acts| ensures !acts[m].Crash? {
          assert acts[m] == rest[m - 1];
        }
      }
    }
  }

  /** What the flags say: swept that sweep_boot has run since the last crash, clean that it found no event then. */
  lemma {:induction false} FlagsMean(c: Config, s: State, acts: seq<Action>)
    requires Legal(c, s, acts) && (s.clean ==> s.swept)
    ensures End(c, s, acts).swept <==> BootedSince(s, acts)
    ensures End(c, s, acts).clean ==> End(c, s, acts).swept
    decreases |acts|
  {
    if acts == [] {
    } else {
      FlagStep(c, s, acts[0]);
      BootedLater(s, Apply(c, s, acts[0]), acts);
      FlagsMean(c, Apply(c, s, acts[0]), acts[1..]);
    }
  }

  lemma FlagStep(c: Config, s: State, a: Action)
    requires Enabled(c, s, a) && (s.clean ==> s.swept)
    ensures var t := Apply(c, s, a);
            && t.swept == (if a.BootSweep? then true else if a.Crash? then false else s.swept)
            && (t.clean ==> t.swept)
            && (a.BootSweep? ==>
                  (t.clean <==> s.lanes.control == [] && s.lanes.normal == [] && s.batch == [] && s.lock.None?))
  {
  }

  /** Where a process starts: a first start, or any tables and queue before sweep_boot. Wins count from here. */
  ghost predicate Starts(s: State) {
    Fresh(s) || (!s.swept && !s.clean && LockOk(s) && s.wins == multiset{} && s.forgotten == multiset{})
  }

  /**
    Once sweep_boot has run, every queued row has an entry in a lane or in the batch, but for the one row an
    admission is just putting. If sweep_boot found the queue empty, that entry is the only one for its key, and
    every entry's row is queued, until it is taken out; for that, the executor must end only what it has won.
  */
  lemma LedgerAndQueueAgree(c: Config, s: State, acts: seq<Action>, k: Key)
    requires Starts(s) && Legal(c, s, acts) && FinishesWins(c, s, acts)
    ensures var t := End(c, s, acts);
            && (t.swept && Is(t.table, k, Queued) ==> Entries(t, k) >= 1 || InHand(t, k))
            && (t.clean ==> Entries(t, k) <= 1 && (Entries(t, k) == 1 ==> Is(t.table, k, Queued) && !InHand(t, k)))
  {
    WinsAreTame(c, s, acts);
    RunAgrees(c, s, acts, k);
  }

  /** No finish, late or repeated, can orphan a queued row: the first half holds of every run. */
  lemma NoOrphans(c: Config, s: State, acts: seq<Action>, k: Key)
    requires Starts(s) && Legal(c, s, acts)
    ensures var t := End(c, s, acts);
            t.swept && Is(t.table, k, Queued) ==> Entries(t, k) >= 1 || InHand(t, k)
  {
    RunAgrees(c, s, acts, k);
  }
}
