/** Every step of delivery keeps the balance of terminal operations. */
module DeliveryBalance {
  import opened Wrappers
  import opened Operations
  import opened Client
  import opened OutboundQueues
  import opened Spool
  import opened Bags
  import opened Delivery
  import opened DeliveryLedger

  /** The balance, for the copies of one operation. */
  ghost predicate BalancedAt(c: Config, s: State, op: Op) {
    s.given[op] == multiset(s.queue.terminal)[op] + s.refused[op] + Held(s.workers)[op] + Contents(c, s.rows)[op]
                   + s.consumed[op] + s.evicted[op] + s.lost[op]
  }

  lemma RemoveOne(ops: seq<Op>, i: nat, op: Op)
    requires i < |ops|
    ensures multiset(Remove(ops, i))[op] + multiset{ops[i]}[op] == multiset(ops)[op]
  {
    assert ops == ops[..i] + [ops[i]] + ops[i + 1..];
  }

  /** How many copies of an operation a step moves into each place. */
  datatype Shift = Shift(queued: int, carried: int, stored: int, gone: int)

  ghost function ShiftOf(c: Config, s: State, t: State, x: Worker, y: Worker, op: Op): (d: Shift) {
    Shift(
      multiset(t.queue.terminal)[op] as int - multiset(s.queue.terminal)[op] as int,
      Carried(y)[op] as int - Carried(x)[op] as int,
      Contents(c, t.rows)[op] as int - Contents(c, s.rows)[op] as int,
      t.consumed[op] + t.evicted[op] + t.lost[op] - (s.consumed[op] + s.evicted[op] + s.lost[op]) as int)
  }

  /** One worker moves from x to y, and what it takes from one place it puts into another. */
  lemma MoveBalances(c: Config, s: State, t: State, w: nat, x: Worker, y: Worker, op: Op)
    requires BalancedAt(c, s, op) && w < |s.workers| && s.workers[w] == x && t.workers == s.workers[w := y]
    requires t.given == s.given && t.refused == s.refused
    requires var d := ShiftOf(c, s, t, x, y, op); d.queued + d.carried + d.stored + d.gone == 0
    ensures BalancedAt(c, t, op)
  {
    BagUpdate(Carried, s.workers, w, y, op);
  }

  lemma PutTerminalBalances(c: Config, s: State, x: Op, op: Op)
    requires BalancedAt(c, s, op)
    ensures BalancedAt(c, AfterPutTerminal(c, s, x), op)
  {
  }

  lemma SpoolRefusedBalances(c: Config, s: State, a: Action, op: Op)
    requires ReadsByDecode(c) && Lanes(s) && BalancedAt(c, s, op) && a.SpoolRefused? && Enabled(c, s, a)
    ensures BalancedAt(c, AfterSpoolRefused(c, s, a.op, a.nbytes, a.ts), op)
  {
    SpooledBalances(c, s, a.op, a.nbytes, a.ts, op);
  }

  lemma TakenShifts(s: State, t: Taken, op: Op)
    requires Lanes(s) && (Pop(s.queue) == Some(t) || Head(s.queue) == Some(t))
    ensures multiset(t.rest.terminal)[op] + One(t.op)[op] == multiset(s.queue.terminal)[op]
    ensures t.op.queueClass == Terminal ==> Storable(t.op)
  {
    match t.lane
    case Terminal =>
      RemoveOne(s.queue.terminal, t.index, op);
      assert t.op in s.queue.terminal;
    case Latest => assert s.queue.latest[t.index] in s.queue.latest;
    case Bulk => assert s.queue.bulk[t.index] in s.queue.bulk;
  }

  lemma HandedOver(c: Config, s: State, t: Taken, w: nat, op: Op)
    requires BalancedAt(c, s, op) && w < |s.workers| && s.workers[w] == Idle
    requires multiset(t.rest.terminal)[op] + One(t.op)[op] == multiset(s.queue.terminal)[op]
    ensures BalancedAt(c, s.(workers := s.workers[w := Sending(t.op, Live, 0)], queue := Lock(t.rest, t.op)), op)
  {
    var u := s.(workers := s.workers[w := Sending(t.op, Live, 0)], queue := Lock(t.rest, t.op));
    MoveBalances(c, s, u, w, Idle, Sending(t.op, Live, 0), op);
  }

  lemma ClaimBalances(c: Config, s: State, w: nat, op: Op)
    requires Lanes(s) && BalancedAt(c, s, op)
    requires w < |s.workers| && s.workers[w] == Idle && Pop(s.queue).Some?
    ensures BalancedAt(c, AfterClaim(s, w), op)
  {
    var t := Pop(s.queue).value;
    TakenShifts(s, t, op);
    HandedOver(c, s, t, w, op);
  }

  lemma DeleteKnown(c: Config, s: State, row: Row, op: Op)
    requires RowsOk(s) && Known(s, row)
    ensures Contents(c, s.rows)[op]
            == Contents(c, WithoutIds(s.rows, {row.id}))[op] + if row in s.rows then Content(c, row)[op] else 0
  {
    if row in s.rows {
      var i :| 0 <= i < |s.rows| && s.rows[i] == row;
      BagWithout(Reader(c), s.rows, i, op);
      assert Reader(c)(row) == Content(c, row);
    } else {
      WithoutNone(s.rows, row.id);
    }
  }

  lemma BadRowBalances(c: Config, s: State, row: Row, rest: seq<Row>, op: Op)
    requires RowsOk(s) && BalancedAt(c, s, op) && Known(s, row) && c.restore(row).None?
    requires Carried(s.workers[0]) == multiset{}
    ensures BalancedAt(c, AfterBadRow(s, row, rest), op)
  {
    DeleteKnown(c, s, row, op);
    MoveBalances(c, s, AfterBadRow(s, row, rest), 0, s.workers[0], Sweeping(rest), op);
  }

  lemma GoodRowBalances(c: Config, s: State, x: Op, row: Row, rest: seq<Row>, op: Op)
    requires BalancedAt(c, s, op) && s.workers != [] && Carried(s.workers[0]) == multiset{}
    ensures BalancedAt(c, AfterGoodRow(s, x, row, rest), op)
  {
  }

  lemma NextRowBalances(c: Config, s: State, op: Op)
    requires RowsOk(s) && BalancedAt(c, s, op) && At(s, 0).Sweeping?
    ensures BalancedAt(c, AfterNextRow(c, s), op)
  {
    var x := s.workers[0];
    if x.rows == [] {
      MoveBalances(c, s, AfterNextRow(c, s), 0, x, Closing, op);
    } else {
      assert x.rows[0] in Snapshot(x);
      match c.restore(x.rows[0])
      case None => BadRowBalances(c, s, x.rows[0], x.rows[1..], op);
      case Some(y) => GoodRowBalances(c, s, y, x.rows[0], x.rows[1..], op);
    }
  }

  lemma ReplayBalances(c: Config, s: State, op: Op)
    requires RowsOk(s) && BalancedAt(c, s, op) && s.workers[0].Settled? && s.workers[0].source.Replay?
    ensures BalancedAt(c, AfterReplay(c, s, 0), op)
  {
    var x, t := s.workers[0], AfterReplay(c, s, 0);
    if x.outcome == Finished {
      assert x.source.row in Snapshot(x);
      DeleteKnown(c, s, x.source.row, op);
    }
    MoveBalances(c, s, t, 0, x, t.workers[0], op);
  }

  lemma RespoolBalances(c: Config, s: State, w: nat, nbytes: nat, ts: real, op: Op)
    requires ReadsByDecode(c) && BalancedAt(c, s, op) && w < |s.workers|
    requires Respools(s.workers[w]) && Storable(s.workers[w].op) && Encode(s.workers[w].op).Some?
    ensures BalancedAt(c, AfterRespool(c, s, w, nbytes, ts), op)
  {
    var x := s.workers[w];
    SpooledBalances(c, s, x.op, nbytes, ts, op);
    MoveBalances(c, s, AfterRespool(c, s, w, nbytes, ts), w, x, Waking(x.op), op);
  }

  lemma LiveBalances(c: Config, s: State, w: nat, op: Op)
    requires BalancedAt(c, s, op) && w < |s.workers|
    requires s.workers[w].Settled? && s.workers[w].source == Live && !Respools(s.workers[w])
    ensures BalancedAt(c, AfterLive(s, w), op)
  {
    var x := s.workers[w];
    MoveBalances(c, s, AfterLive(s, w), w, x, Leaving(x.op, Live, true), op);
  }

  lemma ConcludeBalances(c: Config, s: State, a: Action, op: Op)
    requires ReadsByDecode(c) && WorkersOk(c, s) && RowsOk(s)
    requires BalancedAt(c, s, op) && a.Conclude? && Enabled(c, s, a)
    ensures BalancedAt(c, AfterConclude(c, s, a.w, a.nbytes, a.ts), op)
  {
    var w := a.w;
    assert WorkerOk(c, s.workers[w], w);
    if Respools(s.workers[w]) {
      RespoolBalances(c, s, w, a.nbytes, a.ts, op);
    } else if s.workers[w].source == Live {
      LiveBalances(c, s, w, op);
    } else {
      ReplayBalances(c, s, op);
    }
  }

  lemma PersistBalances(c: Config, s: State, a: Action, op: Op)
    requires ReadsByDecode(c) && Lanes(s) && BalancedAt(c, s, op) && a.Persist? && Enabled(c, s, a)
    ensures BalancedAt(c, AfterPersist(c, s, a.nbytes, a.ts), op)
  {
    var t := Head(s.queue).value;
    TakenShifts(s, t, op);
    if t.op.queueClass == Terminal {
      SpooledBalances(c, s, t.op, a.nbytes, a.ts, op);
    }
  }

  lemma CarriesOn(c: Config, s: State, w: nat, move: Move)
    requires w < |s.workers| && CanMove(s, w, move)
    ensures Carried(Moved(c, s, w, move)) == Carried(s.workers[w])
  {
  }

  lemma StepBalances(c: Config, s: State, w: nat, move: Move, op: Op)
    requires BalancedAt(c, s, op) && w < |s.workers| && CanMove(s, w, move)
    ensures BalancedAt(c, AfterStep(c, s, w, move), op)
  {
    CarriesOn(c, s, w, move);
    MoveBalances(c, s, AfterStep(c, s, w, move), w, s.workers[w], Moved(c, s, w, move), op);
  }

  lemma ObservationKeepsTerminal(c: Config, s: State, x: Op, key: Option<LatestKey>)
    requires x.queueClass != Terminal
    ensures PutOp(s.queue, c.limits, x, x.queueClass, key).1.terminal == s.queue.terminal
  {
  }

  lemma ActionBalances(c: Config, s: State, a: Action, op: Op)
    requires ReadsByDecode(c) && Lanes(s) && WorkersOk(c, s) && RowsOk(s)
    requires BalancedAt(c, s, op) && Enabled(c, s, a)
    ensures BalancedAt(c, Apply(c, s, a), op)
  {
    match a
    case PutTerminal(x) => PutTerminalBalances(c, s, x, op);
    case PutObservation(x, key) => ObservationKeepsTerminal(c, s, x, key);
    case SpoolRefused(_, _, _) => SpoolRefusedBalances(c, s, a, op);
    case Claim(w) => ClaimBalances(c, s, w, op);
    case Step(w, move) => StepBalances(c, s, w, move, op);
    case Conclude(w, _, _) => ConcludeBalances(c, s, a, op);
    case NextRow => NextRowBalances(c, s, op);
    case Persist(_, _) => PersistBalances(c, s, a, op);
    case _ =>
  }
}
