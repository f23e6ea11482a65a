/** What every step of delivery keeps: the lanes' classes, the workers' stages, the rows' ids, and the wakeup. */
module DeliveryInvariants {
  import opened Wrappers
  import opened Operations
  import opened Client
  import opened OutboundQueues
  import opened Spool
  import opened Delivery
  import opened DeliveryLedger

  /* ---- lanes ---- */

  lemma InRemove<T>(s: seq<T>, i: nat, x: T)
    requires i < |s| && x in Remove(s, i)
    ensures x in s
  {
  }

  lemma LanesShrink(s: State, t: State)
    requires Lanes(s)
    requires forall op :: op in t.queue.terminal ==> op in s.queue.terminal
    requires forall op :: op in t.refused ==> op in s.refused
    requires forall e :: e in t.queue.latest ==> e in s.queue.latest
    requires forall op :: op in t.queue.bulk ==> op in s.queue.bulk
    ensures Lanes(t)
  {
  }

  lemma TakenShrinks(s: State, taken: Taken, t: State)
    requires Lanes(s) && (Pop(s.queue) == Some(taken) || Head(s.queue) == Some(taken))
    requires t.queue.(active := {}) == taken.rest.(active := {}) && t.refused == s.refused
    ensures Lanes(t)
  {
    forall op | op in t.queue.terminal ensures op in s.queue.terminal {
      if taken.lane == Terminal {
        InRemove(s.queue.terminal, taken.index, op);
      }
    }
    forall e | e in t.queue.latest ensures e in s.queue.latest {
      if taken.lane == Latest {
        InRemove(s.queue.latest, taken.index, e);
      }
    }
    forall op | op in t.queue.bulk ensures op in s.queue.bulk {
      if taken.lane == Bulk {
        InRemove(s.queue.bulk, taken.index, op);
      }
    }
    LanesShrink(s, t);
  }

  lemma CoalesceAdds(q: Queue, lim: Limits, op: Op, key: LatestKey, e: Entry)
    requires e in Coalesce(q, lim, op, key).latest
    ensures e in q.latest || e == Entry(key, op)
  {
  }

  lemma ObservationLanes(c: Config, s: State, op: Op, key: Option<LatestKey>)
    requires Lanes(s) && op.queueClass != Terminal
    ensures Lanes(s.(queue := PutOp(s.queue, c.limits, op, op.queueClass, key).1))
  {
    var t := s.(queue := PutOp(s.queue, c.limits, op, op.queueClass, key).1);
    var k := if key.Some? then key else LatestKeyOf(op);
    forall e | e in t.queue.latest ensures e.op.queueClass != Terminal {
      if op.queueClass == Latest && k.Some? {
        CoalesceAdds(s.queue, c.limits, op, k.value, e);
      }
    }
  }

  lemma PutTerminalLanes(c: Config, s: State, op: Op)
    requires Lanes(s) && op.queueClass == Terminal && Storable(op)
    ensures Lanes(AfterPutTerminal(c, s, op))
  {
  }

  /** The lanes are untouched, and nothing new is refused. */
  ghost predicate SameLanes(s: State, t: State) {
    && t.queue.terminal == s.queue.terminal && t.queue.latest == s.queue.latest && t.queue.bulk == s.queue.bulk
    && t.refused <= s.refused
  }

  lemma SameLanesStay(s: State, t: State)
    requires Lanes(s) && SameLanes(s, t)
    ensures Lanes(t)
  {
  }

  lemma ConcludeKeepsLanes(c: Config, s: State, a: Action)
    requires a.Conclude? && Enabled(c, s, a)
    ensures SameLanes(s, AfterConclude(c, s, a.w, a.nbytes, a.ts))
  {
  }

  lemma NextRowKeepsLanes(c: Config, s: State)
    requires At(s, 0).Sweeping?
    ensures SameLanes(s, AfterNextRow(c, s))
  {
  }

  lemma StepKeepsLanes(c: Config, s: State, w: nat, move: Move)
    requires w < |s.workers| && CanMove(s, w, move)
    ensures SameLanes(s, AfterStep(c, s, w, move))
  {
  }

  lemma OthersKeepLanes(c: Config, s: State, a: Action)
    requires Enabled(c, s, a) && !a.PutTerminal? && !a.PutObservation? && !a.Claim? && !a.Persist?
    ensures SameLanes(s, Apply(c, s, a))
  {
    if a.Conclude? {
      ConcludeKeepsLanes(c, s, a);
    } else if a.NextRow? {
      NextRowKeepsLanes(c, s);
    } else if a.Step? {
      StepKeepsLanes(c, s, a.w, a.move);
    }
  }

  lemma ActionLanes(c: Config, s: State, a: Action)
    requires Lanes(s) && Enabled(c, s, a)
    ensures Lanes(Apply(c, s, a))
  {
    if a.PutTerminal? {
      PutTerminalLanes(c, s, a.op);
    } else if a.PutObservation? {
      ObservationLanes(c, s, a.op, a.key);
    } else if a.Claim? {
      TakenShrinks(s, Pop(s.queue).value, AfterClaim(s, a.w));
    } else if a.Persist? {
      TakenShrinks(s, Head(s.queue).value, AfterPersist(c, s, a.nbytes, a.ts));
    } else {
      OthersKeepLanes(c, s, a);
      SameLanesStay(s, Apply(c, s, a));
    }
  }

  /* ---- workers ---- */

  lemma WorkerChange(c: Config, s: State, t: State, w: nat, y: Worker)
    requires WorkersOk(c, s) && w < |s.workers| && t.workers == s.workers[w := y] && WorkerOk(c, y, w)
    ensures WorkersOk(c, t)
  {
  }

  lemma MoveWorkers(c: Config, s: State, w: nat, move: Move)
    requires WorkersOk(c, s) && w < |s.workers| && CanMove(s, w, move)
    ensures WorkersOk(c, AfterStep(c, s, w, move))
  {
  }

  lemma ClaimWorkers(c: Config, s: State, w: nat)
    requires WorkersOk(c, s) && Lanes(s) && w < |s.workers| && Pop(s.queue).Some?
    ensures WorkersOk(c, AfterClaim(s, w))
  {
  }

  lemma NextRowWorkers(c: Config, s: State)
    requires WorkersOk(c, s) && At(s, 0).Sweeping?
    ensures WorkersOk(c, AfterNextRow(c, s))
  {
  }

  lemma ConcludeWorkers(c: Config, s: State, a: Action)
    requires WorkersOk(c, s) && a.Conclude? && Enabled(c, s, a)
    ensures WorkersOk(c, AfterConclude(c, s, a.w, a.nbytes, a.ts))
  {
    assert WorkerOk(c, s.workers[a.w], a.w);
    var t := AfterConclude(c, s, a.w, a.nbytes, a.ts);
    WorkerChange(c, s, t, a.w, t.workers[a.w]);
  }

  lemma ActionWorkers(c: Config, s: State, a: Action)
    requires WorkersOk(c, s) && Lanes(s) && Enabled(c, s, a)
    ensures WorkersOk(c, Apply(c, s, a))
  {
    match a
    case Claim(w) => ClaimWorkers(c, s, w);
    case Step(w, move) => MoveWorkers(c, s, w, move);
    case Conclude(_, _, _) => ConcludeWorkers(c, s, a);
    case NextRow => NextRowWorkers(c, s);
    case _ => assert Apply(c, s, a).workers == s.workers;
  }

  /* ---- rows ---- */

  lemma RowsChange(s: State, t: State)
    requires RowsOk(s) && t.nextId == s.nextId && t.workers != [] && Within(t.rows, 0, t.nextId)
    requires forall r :: r in t.rows ==> r in s.rows
    requires forall row :: row in Snapshot(t.workers[0]) ==> row in Snapshot(s.workers[0])
    ensures RowsOk(t)
  {
  }

  lemma DeleteRows(s: State, t: State, id: nat)
    requires RowsOk(s) && t.nextId == s.nextId && t.workers != [] && t.rows == WithoutIds(s.rows, {id})
    requires forall row :: row in Snapshot(t.workers[0]) ==> row in Snapshot(s.workers[0])
    ensures RowsOk(t)
  {
    WithoutIdsKeeps(s.rows, {id}, 0, s.nextId);
    forall r | r in t.rows ensures r in s.rows {
      WithoutIdsHas(s.rows, {id}, r);
    }
    RowsChange(s, t);
  }

  lemma ListedAreKnown(s: State)
    requires Within(s.rows, 0, s.nextId)
    ensures forall row :: row in s.rows ==> Known(s, row)
  {
  }

  lemma MoveRows(c: Config, s: State, w: nat, move: Move)
    requires RowsOk(s) && w < |s.workers| && CanMove(s, w, move)
    ensures RowsOk(AfterStep(c, s, w, move))
  {
    var t := AfterStep(c, s, w, move);
    var x, y := s.workers[w], Moved(c, s, w, move);
    if move.ListRows? && w == 0 {
      ListedAreKnown(s);
      assert forall row :: row in Snapshot(y) ==> row in s.rows;
    } else {
      assert w == 0 ==> forall row :: row in Snapshot(y) ==> row in Snapshot(x);
      RowsChange(s, t);
    }
  }

  lemma SpoolRows(c: Config, s: State, op: Op, nbytes: nat, ts: real, t: State)
    requires RowsOk(s) && op.queueClass == Terminal && Encode(op).Some?
    requires t.rows == Spooled(c, s, op, nbytes, ts).rows && t.nextId == s.nextId + 1 && t.workers != []
    requires t.workers[0] == s.workers[0] || Snapshot(t.workers[0]) == []
    ensures RowsOk(t) && t.rows != []
  {
  }

  lemma ConcludeRows(c: Config, s: State, a: Action)
    requires RowsOk(s) && WorkersOk(c, s) && a.Conclude? && Enabled(c, s, a)
    ensures RowsOk(AfterConclude(c, s, a.w, a.nbytes, a.ts))
  {
    var x, t := s.workers[a.w], AfterConclude(c, s, a.w, a.nbytes, a.ts);
    assert WorkerOk(c, x, a.w);
    if Respools(x) {
      SpoolRows(c, s, x.op, a.nbytes, a.ts, t);
    } else if x.source.Replay? && x.outcome == Finished {
      DeleteRows(s, t, x.source.row.id);
    } else {
      RowsChange(s, t);
    }
  }

  lemma NextRowRows(c: Config, s: State)
    requires RowsOk(s) && At(s, 0).Sweeping?
    ensures RowsOk(AfterNextRow(c, s))
  {
    var rows, t := s.workers[0].rows, AfterNextRow(c, s);
    assert forall row :: rows != [] && row in rows[1..] ==> row in rows;
    assert forall row :: rows != [] && row in [rows[0]] + rows[1..] ==> row in rows;
    if rows != [] && c.restore(rows[0]).None? {
      DeleteRows(s, t, rows[0].id);
    } else {
      RowsChange(s, t);
    }
  }

  lemma PersistRows(c: Config, s: State, nbytes: nat, ts: real)
    requires RowsOk(s) && Head(s.queue).Some?
    requires Head(s.queue).value.op.queueClass == Terminal ==> Encode(Head(s.queue).value.op).Some?
    ensures RowsOk(AfterPersist(c, s, nbytes, ts))
  {
    var op := Head(s.queue).value.op;
    if op.queueClass == Terminal {
      SpoolRows(c, s, op, nbytes, ts, AfterPersist(c, s, nbytes, ts));
    }
  }

  predicate LeavesRows(a: Action) {
    a.PutTerminal? || a.PutObservation? || a.SetPending? || a.RequestStop? || a.Join? || a.FinishPersist?
  }

  lemma OthersKeepRows(c: Config, s: State, a: Action)
    requires RowsOk(s) && Enabled(c, s, a) && LeavesRows(a)
    ensures RowsOk(Apply(c, s, a))
  {
  }

  lemma ActionRows(c: Config, s: State, a: Action)
    requires RowsOk(s) && WorkersOk(c, s) && Lanes(s) && Enabled(c, s, a)
    ensures RowsOk(Apply(c, s, a))
  {
    if a.SpoolRefused? {
      SpoolRows(c, s, a.op, a.nbytes, a.ts, AfterSpoolRefused(c, s, a.op, a.nbytes, a.ts));
    } else if a.Claim? {
      RowsChange(s, AfterClaim(s, a.w));
    } else if a.Step? {
      MoveRows(c, s, a.w, a.move);
    } else if a.Conclude? {
      ConcludeRows(c, s, a);
    } else if a.NextRow? {
      NextRowRows(c, s);
    } else if a.Persist? {
      PersistRows(c, s, a.nbytes, a.ts);
    } else {
      OthersKeepRows(c, s, a);
    }
  }

  /* ---- the wakeup ---- */

  ghost predicate SomeWaking(ws: seq<Worker>) {
    exists i :: 0 <= i < |ws| && ws[i].Waking?
  }

  /** If rows are stored, someone is looking at them, is about to raise the flag, or has raised it. */
  ghost predicate Wakes(s: State) {
    s.rows != [] ==> s.pending || s.owed > 0 || SomeWaking(s.workers) || (s.workers != [] && Replaying(s.workers[0]))
  }

  lemma MoveWakes(c: Config, s: State, w: nat, move: Move)
    requires Wakes(s) && WorkersOk(c, s) && w < |s.workers| && CanMove(s, w, move)
    ensures Wakes(AfterStep(c, s, w, move))
  {
    var t := AfterStep(c, s, w, move);
    assert WorkerOk(c, s.workers[w], w);
    if SomeWaking(s.workers) && !move.SetAfterSpool? {
      var i :| 0 <= i < |s.workers| && s.workers[i].Waking?;
      assert t.workers[i].Waking?;
    }
  }

  lemma OthersWake(s: State, t: State, w: nat)
    requires Wakes(s) && w < |s.workers| && |t.workers| == |s.workers| && t.workers == s.workers[w := t.workers[w]]
    requires !s.workers[w].Waking? && (t.rows != [] ==> s.rows != [])
    requires t.pending == s.pending && t.owed == s.owed
    requires w == 0 && Replaying(s.workers[0]) ==> Replaying(t.workers[0])
    ensures Wakes(t)
  {
    if SomeWaking(s.workers) {
      var i :| 0 <= i < |s.workers| && s.workers[i].Waking?;
      assert t.workers[i].Waking?;
    }
  }

  lemma ConcludeWakes(c: Config, s: State, a: Action)
    requires Wakes(s) && WorkersOk(c, s) && a.Conclude? && Enabled(c, s, a)
    ensures Wakes(AfterConclude(c, s, a.w, a.nbytes, a.ts))
  {
    var x, t := s.workers[a.w], AfterConclude(c, s, a.w, a.nbytes, a.ts);
    assert WorkerOk(c, x, a.w);
    if Respools(x) {
      assert t.workers[a.w].Waking?;
    } else {
      OthersWake(s, t, a.w);
    }
  }

  lemma ActionWakes(c: Config, s: State, a: Action)
    requires Wakes(s) && WorkersOk(c, s) && Enabled(c, s, a)
    ensures Wakes(Apply(c, s, a))
  {
    match a
    case Claim(w) => OthersWake(s, AfterClaim(s, w), w);
    case Step(w, move) => MoveWakes(c, s, w, move);
    case Conclude(_, _, _) => ConcludeWakes(c, s, a);
    case NextRow => OthersWake(s, AfterNextRow(c, s), 0);
    case _ => assert Apply(c, s, a).workers == s.workers;
  }

  /* ---- the stop ---- */

  /** Once joined no thread holds anything; once persisted the queue is empty too. */
  ghost predicate Stops(s: State) {
    && (!Up(s) ==> s.refused == multiset{} && s.owed == 0
                   && forall i :: 0 <= i < |s.workers| ==> s.workers[i] == Exited)
    && (s.phase == Persisted ==> Empty(s.queue))
  }

  lemma AwakeMeansUp(s: State, w: nat)
    requires Stops(s) && w < |s.workers| && s.workers[w] != Exited
    ensures Up(s)
  {
  }

  lemma ActionStops(c: Config, s: State, a: Action)
    requires Stops(s) && Enabled(c, s, a)
    ensures Stops(Apply(c, s, a))
  {
    match a
    case Step(w, _) => AwakeMeansUp(s, w);
    case Claim(w) => AwakeMeansUp(s, w);
    case Conclude(w, _, _) => AwakeMeansUp(s, w);
    case NextRow => AwakeMeansUp(s, 0);
    case _ =>
  }

  /* ---- together ---- */

  ghost predicate Sound(c: Config, s: State) {
    ReadsByDecode(c) && Lanes(s) && WorkersOk(c, s) && RowsOk(s) && Wakes(s) && Stops(s)
  }

  lemma InitiallySound(c: Config, s: State)
    requires Initial(c, s)
    ensures Sound(c, s)
  {
  }

  lemma ActionSound(c: Config, s: State, a: Action)
    requires Sound(c, s) && Enabled(c, s, a)
    ensures Sound(c, Apply(c, s, a))
  {
    ActionLanes(c, s, a);
    ActionWorkers(c, s, a);
    ActionRows(c, s, a);
    ActionWakes(c, s, a);
    ActionStops(c, s, a);
  }
}
