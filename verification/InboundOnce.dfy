/** At most one dispatch per request, across notifications, catch-up, overflows and crashes. */
module InboundOnce {
  import opened Wrappers
  import opened Ledgers
  import opened InboundQueues
  import opened Inbound
  import opened InboundRuns

  /** The row has been won, or ended some other way. */
  predicate Past(t: Table, k: Key) {
    k in t && (t[k] == Dispatched || t[k].Ended?)
  }

  ghost predicate OnceAt(s: State, k: Key) {
    s.wins[k] <= s.forgotten[k] + if Past(s.table, k) then 1 else 0
  }

  lemma DispatchOnce(s: State, k: Key)
    requires OnceAt(s, k) && s.batch != []
    ensures OnceAt(AfterDispatch(s), k)
  {
  }

  lemma CleanupOnce(s: State, keys: set<Key>, k: Key)
    requires OnceAt(s, k)
    ensures OnceAt(AfterCleanup(s, keys), k)
  {
  }

  /** Nothing is won or forgotten, and a row past its dispatch stays past it. */
  ghost predicate Quiet(s: State, t: State, k: Key) {
    t.wins == s.wins && t.forgotten == s.forgotten && (Past(s.table, k) ==> Past(t.table, k))
  }

  lemma LockedSteps(c: Config, s: State, a: Action, k: Key)
    requires Enabled(c, s, a) && (a.InsertRow? || a.ReacceptRow? || a.PutEvent? || a.MarkRow?)
    ensures Quiet(s, Apply(c, s, a), k)
  {
  }

  lemma RejectStep(s: State, how: Final, k: Key)
    requires s.batch != []
    ensures Quiet(s, AfterReject(s, how), k)
  {
  }

  predicate KeepsTable(a: Action) {
    || a.Append? || a.Unrouted? || a.Begin? || a.PutInternal? || a.Drain? || a.StartSweep? || a.SkipOld?
    || a.SweepUnrouted? || a.EndSweep? || a.AbortSweep? || a.Crash?
  }

  lemma TableKept(c: Config, s: State, a: Action)
    requires Enabled(c, s, a) && KeepsTable(a)
    ensures Apply(c, s, a).table == s.table
    ensures Apply(c, s, a).wins == s.wins && Apply(c, s, a).forgotten == s.forgotten
  {
  }

  lemma OtherSteps(c: Config, s: State, a: Action, k: Key)
    requires Enabled(c, s, a) && !a.DispatchNext? && !a.Cleanup?
    ensures Quiet(s, Apply(c, s, a), k)
  {
    if KeepsTable(a) {
      TableKept(c, s, a);
    } else if a.RejectNext? {
      RejectStep(s, a.how, k);
    } else if a.FinishRow? || a.BootSweep? {
      assert Past(s.table, k) ==> Past(Apply(c, s, a).table, k);
    } else {
      LockedSteps(c, s, a, k);
    }
  }

  /** The history counts what happens to the row: a win when it goes from queued to dispatched, a loss when it goes. */
  lemma HistoryCounts(c: Config, s: State, a: Action, k: Key)
    requires Enabled(c, s, a)
    ensures var t := Apply(c, s, a);
            && t.wins[k] == s.wins[k] + (if Is(s.table, k, Queued) && Is(t.table, k, Dispatched) then 1 else 0)
            && t.forgotten[k] == s.forgotten[k] + (if k in s.table && k !in t.table then 1 else 0)
  {
    if KeepsTable(a) {
      TableKept(c, s, a);
    } else if a.Cleanup? {
      assert k in Gone(s.table, a.keys) <==> k in s.table && k !in Forget(s.table, a.keys);
    } else if a.DispatchNext? || a.RejectNext? {
      BatchCounts(c, s, a, k);
    }
  }

  lemma BatchCounts(c: Config, s: State, a: Action, k: Key)
    requires Enabled(c, s, a) && (a.DispatchNext? || a.RejectNext?)
    ensures var t := Apply(c, s, a);
            && t.wins[k] == s.wins[k] + (if Is(s.table, k, Queued) && Is(t.table, k, Dispatched) then 1 else 0)
            && t.forgotten == s.forgotten && t.table.Keys == s.table.Keys
  {
  }

  lemma ActionOnce(c: Config, s: State, a: Action, k: Key)
    requires Enabled(c, s, a) && OnceAt(s, k)
    ensures OnceAt(Apply(c, s, a), k)
  {
    if a.DispatchNext? {
      DispatchOnce(s, k);
    } else if a.Cleanup? {
      CleanupOnce(s, a.keys, k);
    } else {
      OtherSteps(c, s, a, k);
    }
  }

  lemma {:induction false} RunOnce(c: Config, s: State, acts: seq<Action>, k: Key)
    requires Legal(c, s, acts) && OnceAt(s, k)
    ensures OnceAt(End(c, s, acts), k)
    decreases |acts|
  {
    if acts == [] {
    } else {
      ActionOnce(c, s, acts[0], k);
      RunOnce(c, Apply(c, s, acts[0]), acts[1..], k);
    }
  }

  /**
    Whatever the tables hold at the start and however notifications, sweeps, overflows, finishes, crashes and
    boot sweeps interleave, a request is dispatched at most once more than its row was cleaned up; never twice
    as long as the row is kept.
  */
  lemma AtMostOnce(c: Config, s: State, acts: seq<Action>, k: Key)
    requires s.wins == multiset{} && s.forgotten == multiset{} && Legal(c, s, acts)
    ensures End(c, s, acts).wins[k] <= End(c, s, acts).forgotten[k] + 1
    ensures End(c, s, acts).forgotten[k] == 0 ==> End(c, s, acts).wins[k] <= 1
  {
    RunOnce(c, s, acts, k);
  }

  /* ---- the bound is reached ---- */

  /** A queued request is dispatched, ends, and is cleaned up. */
  function Serve(e: Event): (acts: seq<Action>) {
    [Drain(1)] + ([DispatchNext] + ([FinishRow(e.key, Succeeded)] + ([Cleanup({e.key})] + [])))
  }

  lemma DrainLeads(c: Config, s: State, e: Event)
    requires s.lanes == Lanes([], [e]) && s.batch == []
    ensures Leads(c, s, Drain(1), s.(lanes := Lanes([], []), batch := [e]))
  {
  }

  lemma DispatchLeads(c: Config, s: State, e: Event)
    requires s.batch == [e] && e.kind != Internal && Is(s.table, e.key, Queued)
    ensures Leads(c, s, DispatchNext,
                  s.(batch := [], table := s.table[e.key := Dispatched], wins := s.wins + multiset{e.key}))
  {
  }

  lemma CleanupLeads(c: Config, s: State, t: Table, k: Key)
    requires k !in t && s.table == t[k := Ended(Succeeded)]
    ensures Leads(c, s, Cleanup({k}), s.(table := t, forgotten := s.forgotten + multiset{k}))
  {
  }

  lemma ServeLeads(c: Config, s: State, t: Table, e: Event)
    requires s.lanes == Lanes([], [e]) && s.batch == [] && e.kind == Command
    requires e.key !in t && s.table == t[e.key := Queued]
    ensures Legal(c, s, Serve(e))
    ensures End(c, s, Serve(e)) == s.(lanes := Lanes([], []), table := t, wins := s.wins + multiset{e.key},
                                      forgotten := s.forgotten + multiset{e.key})
  {
    var k, won := e.key, s.wins + multiset{e.key};
    var s4 := s.(lanes := Lanes([], []), batch := [e]);
    var s5 := s4.(batch := [], table := t[k := Dispatched], wins := won);
    var s6 := s5.(table := t[k := Ended(Succeeded)]);
    DrainLeads(c, s, e);
    DispatchLeads(c, s4, e);
    CleanupLeads(c, s6, t, k);
    StepThen(c, s6, Cleanup({k}), s6.(table := t, forgotten := s6.forgotten + multiset{k}), []);
    StepThen(c, s5, FinishRow(k, Succeeded), s6, [Cleanup({k})] + []);
    StepThen(c, s4, DispatchNext, s5, [FinishRow(k, Succeeded)] + ([Cleanup({k})] + []));
    StepThen(c, s, Drain(1), s4, [DispatchNext] + ([FinishRow(k, Succeeded)] + ([Cleanup({k})] + [])));
  }

  /**
    Once its row is cleaned up a request that arrives again is dispatched again: a whole cycle leaves the
    machine as it was, with one more dispatch of the same request. So the bound above is reached.
  */
  lemma CleanupAllowsAgain(c: Config, s: State, e: Event)
    requires s.lanes == Lanes([], []) && s.batch == [] && s.lock.None? && e.key !in s.table
    requires e.kind == Command && !Mine(c, e.key) && c.bounds.normal >= 1
    ensures var cycle := Admit(e, None, false, Serve(e));
            && Legal(c, s, cycle)
            && End(c, s, cycle) == s.(wins := s.wins + multiset{e.key}, forgotten := s.forgotten + multiset{e.key})
  {
    assert [] + [e] == [e];
    ServeLeads(c, Admitted(s, e, None, false), s.table, e);
    AdmitNew(c, s, e, None, false, Serve(e));
  }
}
