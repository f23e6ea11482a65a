/** What one worker does alone, as steps of the delivery machine in a row: one claim, and one replay. */
module OutboundRuns {
  import opened Wrappers
  import opened Operations
  import opened Client
  import opened OutboundQueues
  import opened Spool
  import opened Delivery
  import opened Outbound

  lemma StepThen(c: Config, s: State, a: Action, t: State, rest: seq<Action>)
    requires Delivery.Enabled(c, s, a) && Delivery.Apply(c, s, a) == t && Legal(c, t, rest)
    ensures Legal(c, s, [a] + rest) && End(c, s, [a] + rest) == End(c, t, rest)
  {
    assert ([a] + rest)[1..] == rest;
  }

  /** The steps lead from one state to the other. */
  ghost predicate Leads(c: Config, s: State, acts: seq<Action>, t: State) {
    Legal(c, s, acts) && End(c, s, acts) == t
  }

  lemma StepLeads(c: Config, s: State, a: Action, t: State, rest: seq<Action>, u: State)
    requires Delivery.Enabled(c, s, a) && Delivery.Apply(c, s, a) == t && Leads(c, t, rest, u)
    ensures Leads(c, s, [a] + rest, u)
  {
    StepThen(c, s, a, t, rest);
  }

  /** The machine with another worker at a place. */
  function With(s: State, w: nat, x: Worker): (r: State)
    requires w < |s.workers|
  {
    s.(workers := s.workers[w := x])
  }

  /* ---- the passes of one delivery ---- */

  /** Expiry or a send for each pass from the i-th on, until one settles the operation, and what follows. */
  function Passes(op: Op, w: nat, retries: nat, rounds: seq<Round>, i: nat, rest: seq<Action>): (acts: seq<Action>)
    requires |rounds| == retries + 1 && i <= |rounds|
    decreases |rounds| - i
  {
    if i == |rounds| then rest
    else if Expired(op, rounds[i].now) then [Step(w, Expire(rounds[i].now))] + rest
    else if Judge(op, rounds[i].wire) == Again && i < retries then
      [Step(w, Attempt(rounds[i].wire))] + Passes(op, w, retries, rounds, i + 1, rest)
    else [Step(w, Attempt(rounds[i].wire))] + rest
  }

  ghost predicate Undisturbed(rounds: seq<Round>) {
    forall i :: 0 <= i < |rounds| ==> !rounds[i].stopped && !rounds[i].stoppedWaiting
  }

  lemma {:induction false} PassesSettle(c: Config, s: State, w: nat, rounds: seq<Round>, i: nat, rest: seq<Action>,
                                        u: State)
    requires w < |s.workers| && s.workers[w].Sending? && s.workers[w].attempt == i < |rounds| && Undisturbed(rounds)
    requires |rounds| == (if s.workers[w].source == Live then c.retries else 0) + 1
    requires var x := s.workers[w];
             Leads(c, With(s, w, Settled(x.op, x.source, Deliver(x.op, |rounds| - 1, rounds, i))), rest, u)
    ensures Leads(c, s, Passes(s.workers[w].op, w, |rounds| - 1, rounds, i, rest), u)
    decreases |rounds| - i
  {
    var x := s.workers[w];
    if Expired(x.op, rounds[i].now) {
      StepLeads(c, s, Step(w, Expire(rounds[i].now)), With(s, w, Settled(x.op, x.source, Finished)), rest, u);
    } else {
      var t := With(s, w, AfterVerdict(c, x, Judge(x.op, rounds[i].wire)));
      assert Delivery.Apply(c, s, Step(w, Attempt(rounds[i].wire))) == t;
      if Judge(x.op, rounds[i].wire) == Again && i < |rounds| - 1 {
        var outcome := Deliver(x.op, |rounds| - 1, rounds, i + 1);
        assert With(t, w, Settled(x.op, x.source, outcome)) == With(s, w, Settled(x.op, x.source, outcome));
        PassesSettle(c, t, w, rounds, i + 1, rest, u);
        StepLeads(c, s, Step(w, Attempt(rounds[i].wire)), t, Passes(x.op, w, |rounds| - 1, rounds, i + 1, rest), u);
      } else {
        StepLeads(c, s, Step(w, Attempt(rounds[i].wire)), t, rest, u);
      }
    }
  }

  /* ---- one claim ---- */

  /** Concluding a delivery from the queue: the spool first if the operation is to be kept, then the claim goes back. */
  function Ending(w: nat, respools: bool, nbytes: nat, ts: real): (acts: seq<Action>) {
    [Conclude(w, nbytes, ts)]
    + if respools then [Step(w, SetAfterSpool)] + ([Step(w, Release)] + []) else [Step(w, Release)] + []
  }

  /** The machine once a live operation is settled, spooled if it is terminal and kept, and its claim given back. */
  function Ended(c: Config, s: State, w: nat, op: Op, outcome: Outcome, nbytes: nat, ts: real): (r: State)
    requires w < |s.workers| && (outcome == Retained && op.queueClass == Terminal ==> Encode(op).Some?)
  {
    var free := With(s, w, Idle).(queue := Unlock(s.queue, op));
    if outcome == Retained && op.queueClass == Terminal then
      Spooled(c, s, op, nbytes, ts).(workers := free.workers, queue := free.queue, pending := true)
    else
      free.(consumed := if outcome == Finished then s.consumed + One(op) else s.consumed,
      lost := if outcome == Raised then s.lost + One(op) else s.lost)
  }

  /** Only the claim is left to give back. */
  lemma ReleaseLeads(c: Config, s: State, w: nat, op: Op, u: State)
    requires w < |s.workers| && s.workers[w] == Leaving(op, Live, true)
    requires u == With(s, w, Idle).(queue := Unlock(s.queue, op))
    ensures Leads(c, s, [Step(w, Release)] + [], u)
  {
    StepLeads(c, s, Step(w, Release), u, [], u);
  }

  lemma WakeLeads(c: Config, s: State, w: nat, op: Op, t: State, rest: seq<Action>, u: State)
    requires w < |s.workers| && s.workers[w] == Waking(op)
    requires t == With(s, w, Leaving(op, Live, true)).(pending := true) && Leads(c, t, rest, u)
    ensures Leads(c, s, [Step(w, SetAfterSpool)] + rest, u)
  {
    StepLeads(c, s, Step(w, SetAfterSpool), t, rest, u);
  }

  lemma ConcludeLeads(c: Config, s: State, w: nat, nbytes: nat, ts: real, t: State, rest: seq<Action>, u: State)
    requires w < |s.workers| && s.workers[w].Settled?
    requires Respools(s.workers[w]) ==> Encode(s.workers[w].op).Some?
    requires t == AfterConclude(c, s, w, nbytes, ts) && Leads(c, t, rest, u)
    ensures Leads(c, s, [Conclude(w, nbytes, ts)] + rest, u)
  {
    StepLeads(c, s, Conclude(w, nbytes, ts), t, rest, u);
  }

  lemma SpoolLeads(c: Config, s: State, w: nat, op: Op, nbytes: nat, ts: real)
    requires w < |s.workers| && s.workers[w] == Settled(op, Live, Retained)
    requires op.queueClass == Terminal && Encode(op).Some?
    ensures Leads(c, s, Ending(w, true, nbytes, ts), Ended(c, s, w, op, Retained, nbytes, ts))
  {
    var u := Ended(c, s, w, op, Retained, nbytes, ts);
    var s1 := AfterRespool(c, s, w, nbytes, ts);
    var s2 := With(s1, w, Leaving(op, Live, true)).(pending := true);
    assert u.workers == s2.workers[w := Idle];
    ReleaseLeads(c, s2, w, op, u);
    WakeLeads(c, s1, w, op, s2, [Step(w, Release)] + [], u);
    ConcludeLeads(c, s, w, nbytes, ts, s1, [Step(w, SetAfterSpool)] + ([Step(w, Release)] + []), u);
  }

  lemma DropLeads(c: Config, s: State, w: nat, op: Op, outcome: Outcome, nbytes: nat, ts: real)
    requires w < |s.workers| && s.workers[w] == Settled(op, Live, outcome)
    requires !(outcome == Retained && op.queueClass == Terminal)
    ensures Leads(c, s, Ending(w, false, nbytes, ts), Ended(c, s, w, op, outcome, nbytes, ts))
  {
    var u := Ended(c, s, w, op, outcome, nbytes, ts);
    var s1 := AfterLive(s, w);
    assert u.workers == s1.workers[w := Idle];
    ReleaseLeads(c, s1, w, op, u);
    ConcludeLeads(c, s, w, nbytes, ts, s1, [Step(w, Release)] + [], u);
  }

  lemma EndingLeads(c: Config, s: State, w: nat, op: Op, outcome: Outcome, nbytes: nat, ts: real, kept: bool)
    requires w < |s.workers| && s.workers[w] == Settled(op, Live, outcome)
    requires kept == (outcome == Retained && op.queueClass == Terminal) && (kept ==> Encode(op).Some?)
    ensures Leads(c, s, Ending(w, kept, nbytes, ts), Ended(c, s, w, op, outcome, nbytes, ts))
  {
    if kept {
      SpoolLeads(c, s, w, op, nbytes, ts);
    } else {
      DropLeads(c, s, w, op, outcome, nbytes, ts);
    }
  }

  lemma ClaimLeads(c: Config, s: State, w: nat, t: State, rest: seq<Action>, u: State)
    requires w < |s.workers| && s.workers[w] == Idle && Pop(s.queue).Some? && t == AfterClaim(s, w)
    requires Leads(c, t, rest, u)
    ensures Leads(c, s, [Claim(w)] + rest, u)
  {
    StepLeads(c, s, Claim(w), t, rest, u);
  }

  /** Taking a claim that nobody holds and giving it back leaves the active keys and the workers as they were. */
  lemma FreeAgain(s: State, w: nat, op: Op, u: State)
    requires w < |s.workers| && s.workers[w] == Idle && Pop(s.queue).Some? && Pop(s.queue).value.op == op
    requires u.queue == Unlock(Lock(Pop(s.queue).value.rest, op), op)
    requires |u.workers| == |s.workers| && u.workers[w] == Idle
    requires forall i :: 0 <= i < |s.workers| && i != w ==> u.workers[i] == s.workers[i]
    ensures u.queue == Pop(s.queue).value.rest && u.workers == s.workers
  {
    ClaimOrder(s.queue);
    assert s.queue.active + {OrderKeyOf(op)} - {OrderKeyOf(op)} == s.queue.active;
  }

  lemma SendLeads(c: Config, s: State, w: nat, op: Op, rounds: seq<Round>, rest: seq<Action>, u: State)
    requires w < |s.workers| && s.workers[w] == Idle && Pop(s.queue).Some? && Pop(s.queue).value.op == op
    requires |rounds| == c.retries + 1 && Undisturbed(rounds)
    requires Leads(c, With(AfterClaim(s, w), w, Settled(op, Live, Deliver(op, c.retries, rounds, 0))), rest, u)
    ensures Leads(c, s, [Claim(w)] + Passes(op, w, c.retries, rounds, 0, rest), u)
  {
    PassesSettle(c, AfterClaim(s, w), w, rounds, 0, rest, u);
    ClaimLeads(c, s, w, AfterClaim(s, w), Passes(op, w, c.retries, rounds, 0, rest), u);
  }

  /** One claim of a worker, undisturbed: the steps from the claim to its release. */
  function Work(op: Op, w: nat, retries: nat, rounds: seq<Round>, kept: bool, nbytes: nat, ts: real)
    : (acts: seq<Action>)
    requires |rounds| == retries + 1
  {
    [Claim(w)] + Passes(op, w, retries, rounds, 0, Ending(w, kept, nbytes, ts))
  }

  /** The machine after that, in terms of the one before. */
  function Worked(c: Config, s: State, outcome: Outcome, nbytes: nat, ts: real): (r: State)
    requires Pop(s.queue).Some?
    requires outcome == Retained && Pop(s.queue).value.op.queueClass == Terminal ==> Encode(Pop(s.queue).value.op).Some?
  {
    var t := Pop(s.queue).value;
    var kept := outcome == Retained && t.op.queueClass == Terminal;
    (if kept then Spooled(c, s, t.op, nbytes, ts) else s).(
      queue := t.rest, pending := s.pending || kept,
      consumed := if outcome == Finished then s.consumed + One(t.op) else s.consumed,
      lost := if outcome == Raised then s.lost + One(t.op) else s.lost)
  }

  lemma EndedIsWorked(c: Config, s: State, w: nat, op: Op, outcome: Outcome, nbytes: nat, ts: real)
    requires w < |s.workers| && s.workers[w] == Idle && Pop(s.queue).Some? && Pop(s.queue).value.op == op
    requires outcome == Retained && op.queueClass == Terminal ==> Encode(op).Some?
    ensures Ended(c, With(AfterClaim(s, w), w, Settled(op, Live, outcome)), w, op, outcome, nbytes, ts)
            == Worked(c, s, outcome, nbytes, ts)
  {
    var s2 := With(AfterClaim(s, w), w, Settled(op, Live, outcome));
    var u := Ended(c, s2, w, op, outcome, nbytes, ts);
    assert u.queue == Pop(s.queue).value.rest && u.workers == s.workers by {
      FreeAgain(s, w, op, u);
    }
    assert s2.consumed == s.consumed && s2.lost == s.lost && s2.rows == s.rows && s2.pending == s.pending;
  }

  /**
    A worker that claims an operation and is not disturbed leaves the queue without it and nothing claimed; a
    terminal operation it keeps is in the spool and the replay is woken; the outcome is that of the retry loop.
  */
  lemma WorkIsARun(c: Config, s: State, w: nat, rounds: seq<Round>, nbytes: nat, ts: real, op: Op, outcome: Outcome,
                   kept: bool)
    requires w < |s.workers| && s.workers[w] == Idle && Pop(s.queue).Some? && Pop(s.queue).value.op == op
    requires |rounds| == c.retries + 1 && Undisturbed(rounds) && outcome == Deliver(op, c.retries, rounds, 0)
    requires kept == (outcome == Retained && op.queueClass == Terminal) && (kept ==> Encode(op).Some?)
    ensures Leads(c, s, Work(op, w, c.retries, rounds, kept, nbytes, ts), Worked(c, s, outcome, nbytes, ts))
  {
    EndedIsWorked(c, s, w, op, outcome, nbytes, ts);
    EndingLeads(c, With(AfterClaim(s, w), w, Settled(op, Live, outcome)), w, op, outcome, nbytes, ts, kept);
    SendLeads(c, s, w, op, rounds, Ending(w, kept, nbytes, ts), Worked(c, s, outcome, nbytes, ts));
  }

  /* ---- one row of a replay ---- */

  lemma NextRowLeads(c: Config, s: State, t: State, rest: seq<Action>, u: State)
    requires At(s, 0).Sweeping? && t == AfterNextRow(c, s) && Leads(c, t, rest, u)
    ensures Leads(c, s, [NextRow] + rest, u)
  {
    StepLeads(c, s, NextRow, t, rest, u);
  }

  lemma GiveBackLeads(c: Config, s: State, op: Op, row: Row, left: seq<Row>, goOn: bool, rest: seq<Action>, u: State)
    requires s.workers != [] && s.workers[0] == Leaving(op, Replay(row, left), goOn)
    requires Leads(c, With(s, 0, if goOn then Sweeping(left) else Closing).(queue := Unlock(s.queue, op)), rest, u)
    ensures Leads(c, s, [Step(0, Release)] + rest, u)
  {
    StepLeads(c, s, Step(0, Release),
              With(s, 0, if goOn then Sweeping(left) else Closing).(queue := Unlock(s.queue, op)), rest, u);
  }

  /** What a row that is dealt with adds to what was consumed: its operation, if the row was still there. */
  function Eaten(c: Config, rows: seq<Row>, row: Row): (ops: multiset<Op>) {
    if row in rows then Content(c, row) else multiset{}
  }

  /** The machine after the delivery of a row: the row goes and the replay goes on, or it stays and the replay ends. */
  function RowDone(c: Config, s: State, row: Row, left: seq<Row>, outcome: Outcome): (r: State)
    requires s.workers != []
  {
    if outcome == Finished then
      With(s, 0, Sweeping(left)).(rows := WithoutIds(s.rows, {row.id}),
                                  consumed := s.consumed + Eaten(c, s.rows, row))
    else With(s, 0, Closing)
  }

  lemma ReplayEnds(c: Config, s: State, op: Op, row: Row, left: seq<Row>, outcome: Outcome)
    requires s.workers != [] && s.workers[0] == Settled(op, Replay(row, left), outcome)
    ensures var t := AfterReplay(c, s, 0);
            && t.workers[0] == Leaving(op, Replay(row, left), outcome == Finished)
            && With(t, 0, if outcome == Finished then Sweeping(left) else Closing).(queue := Unlock(t.queue, op))
               == RowDone(c, s, row, left, outcome).(queue := Unlock(s.queue, op))
  {
    assert s.consumed + multiset{} == s.consumed;
  }

  lemma ConcludeRow(c: Config, s: State, op: Op, row: Row, left: seq<Row>, outcome: Outcome, rest: seq<Action>,
                    u: State)
    requires s.workers != [] && s.workers[0] == Settled(op, Replay(row, left), outcome)
    requires Leads(c, RowDone(c, s, row, left, outcome).(queue := Unlock(s.queue, op)), rest, u)
    ensures Leads(c, s, [Conclude(0, 0, 0.0)] + ([Step(0, Release)] + rest), u)
  {
    ReplayEnds(c, s, op, row, left, outcome);
    GiveBackLeads(c, AfterReplay(c, s, 0), op, row, left, outcome == Finished, rest, u);
    ConcludeLeads(c, s, 0, 0, 0.0, AfterReplay(c, s, 0), [Step(0, Release)] + rest, u);
  }

  /** The row is claimed and its operation is being sent. */
  function RowClaimed(s: State, op: Op, row: Row, left: seq<Row>): (r: State)
    requires s.workers != []
  {
    With(s, 0, Sending(op, Replay(row, left), 0)).(queue := Lock(s.queue, op))
  }

  function RowSettled(s: State, op: Op, row: Row, left: seq<Row>, outcome: Outcome): (r: State)
    requires s.workers != []
  {
    With(s, 0, Settled(op, Replay(row, left), outcome)).(queue := Lock(s.queue, op))
  }

  lemma RowBack(c: Config, s: State, op: Op, row: Row, left: seq<Row>, outcome: Outcome)
    requires s.workers != [] && OrderKeyOf(op) !in s.queue.active
    ensures var t := RowSettled(s, op, row, left, outcome);
            RowDone(c, t, row, left, outcome).(queue := Unlock(t.queue, op)) == RowDone(c, s, row, left, outcome)
  {
    assert s.queue.active + {OrderKeyOf(op)} - {OrderKeyOf(op)} == s.queue.active;
  }

  lemma SendRow(c: Config, s: State, op: Op, row: Row, left: seq<Row>, round: Round, rest: seq<Action>, u: State)
    requires s.workers != [] && Undisturbed([round])
    requires Leads(c, RowSettled(s, op, row, left, Deliver(op, 0, [round], 0)), rest, u)
    ensures Leads(c, RowClaimed(s, op, row, left), Passes(op, 0, 0, [round], 0, rest), u)
  {
    var t := RowClaimed(s, op, row, left);
    assert With(t, 0, Settled(op, Replay(row, left), Deliver(op, 0, [round], 0)))
        == RowSettled(s, op, row, left, Deliver(op, 0, [round], 0));
    PassesSettle(c, t, 0, [round], 0, rest, u);
  }

  /** A row whose interface is free: claimed, sent or expired, dealt with or kept, and its claim given back. */
  lemma DeliverRow(c: Config, s: State, op: Op, row: Row, left: seq<Row>, round: Round, ending: seq<Action>,
                   rest: seq<Action>, u: State)
    requires s.workers != [] && s.workers[0] == Sweeping([row] + left) && c.restore(row) == Some(op)
    requires OrderKeyOf(op) !in s.queue.active && Undisturbed([round])
    requires ending == [Conclude(0, 0, 0.0)] + ([Step(0, Release)] + rest)
    requires Leads(c, RowDone(c, s, row, left, Deliver(op, 0, [round], 0)), rest, u)
    ensures Leads(c, s, [NextRow] + Passes(op, 0, 0, [round], 0, ending), u)
  {
    var outcome := Deliver(op, 0, [round], 0);
    RowBack(c, s, op, row, left, outcome);
    ConcludeRow(c, RowSettled(s, op, row, left, outcome), op, row, left, outcome, rest, u);
    SendRow(c, s, op, row, left, round, ending, u);
    assert ([row] + left)[1..] == left;
    NextRowLeads(c, s, RowClaimed(s, op, row, left), Passes(op, 0, 0, [round], 0, ending), u);
  }

  /* ---- one replay ---- */

  /** The steps for the listed rows: up to a busy interface, or a row to keep, or the end; and what follows. */
  function RowSteps(c: Config, listed: seq<Row>, rounds: seq<Round>, active: set<OrderKey>, rest: seq<Action>)
    : (acts: seq<Action>)
    requires |rounds| == |listed|
    decreases |listed|
  {
    if listed == [] then [NextRow] + rest
    else
      match c.restore(listed[0])
      case None => [NextRow] + RowSteps(c, listed[1..], rounds[1..], active, rest)
      case Some(op) =>
        if OrderKeyOf(op) in active then [NextRow] + rest
        else
          var more := if Deliver(op, 0, [rounds[0]], 0) == Finished then
                        RowSteps(c, listed[1..], rounds[1..], active, rest)
                      else rest;
          [NextRow] + Passes(op, 0, 0, [rounds[0]], 0, [Conclude(0, 0, 0.0)] + ([Step(0, Release)] + more))
  }

  /** The machine at the end of the listed rows. */
  function RowsDone(c: Config, s: State, listed: seq<Row>, rounds: seq<Round>): (r: State)
    requires |rounds| == |listed| && s.workers != []
    decreases |listed|
  {
    if listed == [] then With(s, 0, Closing)
    else
      match c.restore(listed[0])
      case None =>
        RowsDone(c, s.(rows := WithoutIds(s.rows, {listed[0].id})), listed[1..], rounds[1..])
      case Some(op) =>
        if OrderKeyOf(op) in s.queue.active then With(s, 0, Closing)
        else
          var t := RowDone(c, s, listed[0], listed[1..], Deliver(op, 0, [rounds[0]], 0));
          if Deliver(op, 0, [rounds[0]], 0) == Finished then RowsDone(c, t, listed[1..], rounds[1..]) else t
  }

  lemma {:induction false} RowsLead(c: Config, s: State, listed: seq<Row>, rounds: seq<Round>, rest: seq<Action>,
                                    u: State)
    requires s.workers != [] && s.workers[0] == Sweeping(listed) && |rounds| == |listed| && Undisturbed(rounds)
    requires Leads(c, RowsDone(c, s, listed, rounds), rest, u)
    ensures Leads(c, s, RowSteps(c, listed, rounds, s.queue.active, rest), u)
    decreases |listed|
  {
    if listed == [] {
      NextRowLeads(c, s, With(s, 0, Closing), rest, u);
    } else {
      var row, left := listed[0], listed[1..];
      assert listed == [row] + left && Undisturbed(rounds[1..]) && Undisturbed([rounds[0]]);
      match c.restore(row) {
        case None =>
          var t := AfterBadRow(s, row, left);
          DoneElsewhere(c, s.(rows := t.rows), t, left, rounds[1..]);
          RowsLead(c, t, left, rounds[1..], rest, u);
          NextRowLeads(c, s, t, RowSteps(c, left, rounds[1..], s.queue.active, rest), u);
        case Some(op) =>
          if OrderKeyOf(op) in s.queue.active {
            NextRowLeads(c, s, With(s, 0, Closing), rest, u);
          } else {
            var t := RowDone(c, s, row, left, Deliver(op, 0, [rounds[0]], 0));
            var more := rest;
            if Deliver(op, 0, [rounds[0]], 0) == Finished {
              RowsLead(c, t, left, rounds[1..], rest, u);
              more := RowSteps(c, left, rounds[1..], s.queue.active, rest);
            }
            DeliverRow(c, s, op, row, left, rounds[0], [Conclude(0, 0, 0.0)] + ([Step(0, Release)] + more), more, u);
          }
      }
    }
  }

  /** Where the first worker is does not matter to what the rows come to. */
  lemma {:induction false} DoneElsewhere(c: Config, s: State, t: State, listed: seq<Row>, rounds: seq<Round>)
    requires s.workers != [] && t.workers != [] && |rounds| == |listed| && t == s.(workers := t.workers)
    requires s.workers[0 := Idle] == t.workers[0 := Idle]
    ensures RowsDone(c, s, listed, rounds) == RowsDone(c, t, listed, rounds)
    decreases |listed|
  {
    assert s.workers[0 := Closing] == s.workers[0 := Idle][0 := Closing];
    assert t.workers[0 := Closing] == t.workers[0 := Idle][0 := Closing];
    if listed == [] {
    } else {
      var op := c.restore(listed[0]);
      var fewer := WithoutIds(s.rows, {listed[0].id});
      if op.None? {
        DoneElsewhere(c, s.(rows := fewer), t.(rows := fewer), listed[1..], rounds[1..]);
      } else {
        assert s.workers[0 := Sweeping(listed[1..])] == s.workers[0 := Idle][0 := Sweeping(listed[1..])];
        assert t.workers[0 := Sweeping(listed[1..])] == t.workers[0 := Idle][0 := Sweeping(listed[1..])];
      }
    }
  }

  function NoStops(n: nat): (stops: seq<bool>)
    ensures |stops| == n
  {
    seq(n, i => false)
  }

  /** What the replay leaves of the rows, from the i-th listed one on. */
  function RowsLeft(c: Config, rows: seq<Row>, listed: seq<Row>, rounds: seq<Round>, active: set<OrderKey>, i: nat)
    : (r: seq<Row>)
    requires |rounds| == |listed| && i <= |listed|
  {
    Replayed(rows, Link(false, [], []), listed, rounds, NoStops(|listed|), active, c.python, i).0
  }

  lemma {:induction false} LinkIsAside(c: Config, rows: seq<Row>, a: Link, b: Link, listed: seq<Row>,
                                       rounds: seq<Round>, stops: seq<bool>, active: set<OrderKey>, i: nat)
    requires |rounds| == |stops| == |listed| && i <= |listed|
    ensures Replayed(rows, a, listed, rounds, stops, active, c.python, i).0
            == Replayed(rows, b, listed, rounds, stops, active, c.python, i).0
    decreases |listed| - i
  {
    if i == |listed| || stops[i] {
    } else {
      var op := Decode(listed[i].payload, listed[i].cls, listed[i].key, c.python);
      var fewer := WithoutIds(rows, {listed[i].id});
      if op.None? {
        LinkIsAside(c, fewer, a, b, listed, rounds, stops, active, i + 1);
      } else if OrderKeyOf(op.value) !in active {
        LinkIsAside(c, fewer, LinkAfter(a, op.value, 0, [rounds[i]], 0), LinkAfter(b, op.value, 0, [rounds[i]], 0),
                    listed, rounds, stops, active, i + 1);
      }
    }
  }

  lemma RowsLeftStep(c: Config, rows: seq<Row>, listed: seq<Row>, rounds: seq<Round>, active: set<OrderKey>, i: nat)
    requires |rounds| == |listed| && i < |listed| && ReadsByDecode(c)
    ensures RowsLeft(c, rows, listed, rounds, active, i)
            == match c.restore(listed[i])
               case None => RowsLeft(c, WithoutIds(rows, {listed[i].id}), listed, rounds, active, i + 1)
               case Some(op) =>
                 if OrderKeyOf(op) in active || Deliver(op, 0, [rounds[i]], 0) != Finished then rows
                 else RowsLeft(c, WithoutIds(rows, {listed[i].id}), listed, rounds, active, i + 1)
  {
    var op := c.restore(listed[i]);
    assert op == Decode(listed[i].payload, listed[i].cls, listed[i].key, c.python);
    if op.Some? {
      LinkIsAside(c, WithoutIds(rows, {listed[i].id}), Link(false, [], []),
                  LinkAfter(Link(false, [], []), op.value, 0, [rounds[i]], 0), listed, rounds, NoStops(|listed|),
                  active, i + 1);
    }
  }

  /** At the end the rows are what the loop over the listing leaves, and only they and what was consumed changed. */
  lemma {:induction false} RowsAreReplayed(c: Config, s: State, listed: seq<Row>, rounds: seq<Round>, i: nat)
    requires s.workers != [] && |rounds| == |listed| && i <= |listed| && ReadsByDecode(c)
    ensures var t := RowsDone(c, s, listed[i..], rounds[i..]);
            t == s.(workers := s.workers[0 := Closing], consumed := t.consumed,
                    rows := RowsLeft(c, s.rows, listed, rounds, s.queue.active, i))
    decreases |listed| - i
  {
    if i == |listed| {
    } else {
      assert listed[i..][0] == listed[i] && listed[i..][1..] == listed[i + 1..];
      assert rounds[i..][0] == rounds[i] && rounds[i..][1..] == rounds[i + 1..];
      RowsLeftStep(c, s.rows, listed, rounds, s.queue.active, i);
      var op := c.restore(listed[i]);
      if op.None? {
        RowsAreReplayed(c, s.(rows := WithoutIds(s.rows, {listed[i].id})), listed, rounds, i + 1);
      } else if OrderKeyOf(op.value) !in s.queue.active && Deliver(op.value, 0, [rounds[i]], 0) == Finished {
        var t := RowDone(c, s, listed[i], listed[i + 1..], Finished);
        RowsAreReplayed(c, t, listed, rounds, i + 1);
        assert t.workers[0 := Closing] == s.workers[0 := Closing];
      }
    }
  }

  lemma {:induction false} EatenAlike(c: Config, s: State, t: State, listed: seq<Row>, rounds: seq<Round>)
    requires s.workers != [] && t.workers != [] && |rounds| == |listed|
    requires t.rows == s.rows && t.consumed == s.consumed && t.queue == s.queue
    ensures RowsDone(c, s, listed, rounds).consumed == RowsDone(c, t, listed, rounds).consumed
    decreases |listed|
  {
    if listed == [] {
    } else {
      var op, fewer := c.restore(listed[0]), WithoutIds(s.rows, {listed[0].id});
      if op.None? {
        EatenAlike(c, s.(rows := fewer), t.(rows := fewer), listed[1..], rounds[1..]);
      } else if OrderKeyOf(op.value) !in s.queue.active && Deliver(op.value, 0, [rounds[0]], 0) == Finished {
        EatenAlike(c, RowDone(c, s, listed[0], listed[1..], Finished), RowDone(c, t, listed[0], listed[1..], Finished),
                   listed[1..], rounds[1..]);
      }
    }
  }

  /** The steps of one replay, from the first to the last. */
  function ReplaySteps(c: Config, listed: seq<Row>, rounds: seq<Round>, active: set<OrderKey>, left: bool)
    : (acts: seq<Action>)
    requires |rounds| == |listed|
  {
    var closing := [Step(0, CloseReplay)] + if left then [Step(0, Alarm)] + [] else [];
    [Step(0, StartReplay)] + ([Step(0, ListRows)] + RowSteps(c, listed, rounds, active, closing))
  }

  lemma CloseLeads(c: Config, s: State, u: State)
    requires s.workers != [] && s.workers[0] == Closing
    requires u == With(s, 0, Idle).(pending := s.pending || s.rows != [])
    ensures Leads(c, s, [Step(0, CloseReplay)] + if s.rows != [] then [Step(0, Alarm)] + [] else [], u)
  {
    if s.rows == [] {
      StepLeads(c, s, Step(0, CloseReplay), u, [], u);
    } else {
      var t := With(s, 0, Alarming);
      assert t.workers[0 := Idle] == u.workers;
      StepLeads(c, t, Step(0, Alarm), u, [], u);
      StepLeads(c, s, Step(0, CloseReplay), t, [Step(0, Alarm)] + [], u);
    }
  }

  lemma OpenLeads(c: Config, s: State, listed: seq<Row>, rest: seq<Action>, u: State)
    requires s.workers != [] && s.workers[0] == Idle && s.pending
    requires listed == if |s.rows| <= 20 then s.rows else s.rows[..20]
    requires Leads(c, With(s, 0, Sweeping(listed)).(pending := false), rest, u)
    ensures Leads(c, s, [Step(0, StartReplay)] + ([Step(0, ListRows)] + rest), u)
  {
    var s1 := With(s, 0, Listing).(pending := false);
    var s2 := With(s, 0, Sweeping(listed)).(pending := false);
    assert s1.workers[0 := Sweeping(listed)] == s2.workers;
    StepLeads(c, s1, Step(0, ListRows), s2, rest, u);
    StepLeads(c, s, Step(0, StartReplay), s1, [Step(0, ListRows)] + rest, u);
  }

  /**
    A replay run alone is the machine's steps in a row: it takes up the twenty oldest rows, leaves of them exactly
    what the loop over the listing leaves, gives every claim back, and is to come again exactly if rows remain.
  */
  lemma ReplayIsARun(c: Config, s: State, listed: seq<Row>, rounds: seq<Round>, left: seq<Row>)
    requires s.workers != [] && s.workers[0] == Idle && s.pending && ReadsByDecode(c)
    requires listed == (if |s.rows| <= 20 then s.rows else s.rows[..20])
    requires |rounds| == |listed| && Undisturbed(rounds)
    requires left == RowsLeft(c, s.rows, listed, rounds, s.queue.active, 0)
    ensures Leads(c, s, ReplaySteps(c, listed, rounds, s.queue.active, left != []),
                  s.(rows := left, pending := left != [],
                     consumed := RowsDone(c, With(s, 0, Idle), listed, rounds).consumed))
  {
    var s2 := With(s, 0, Sweeping(listed)).(pending := false);
    var s3 := RowsDone(c, s2, listed, rounds);
    var u := s.(rows := left, pending := left != [], consumed := s3.consumed);
    EatenAlike(c, With(s, 0, Idle), s2, listed, rounds);
    assert listed[0..] == listed && rounds[0..] == rounds;
    RowsAreReplayed(c, s2, listed, rounds, 0);
    assert s3.workers[0 := Idle] == s.workers;
    var closing := [Step(0, CloseReplay)] + if left != [] then [Step(0, Alarm)] + [] else [];
    CloseLeads(c, s3, u);
    RowsLead(c, s2, listed, rounds, closing, u);
    OpenLeads(c, s, listed, RowSteps(c, listed, rounds, s.queue.active, closing), u);
  }

  /* ---- giving up ---- */

  /**
    A delivery under way is kept for later exactly at a stop, on an answer that leaves it to the reconciler, or when
    the last pass allowed (the only one of a replay) fails in a way that may pass; and a stop can always be noticed.
  */
  lemma RetainedIff(c: Config, s: State, w: nat, move: Move)
    requires w < |s.workers| && s.workers[w].Sending? && CanMove(s, w, move)
    ensures var x := s.workers[w];
            AfterStep(c, s, w, move).workers[w] == Settled(x.op, x.source, Retained) <==>
            || move == NoticeStop
            || (move.Attempt? && Judge(x.op, move.wire) == Keep)
            || (move.Attempt? && Judge(x.op, move.wire) == Again
                && x.attempt >= if x.source == Live then c.retries else 0)
    ensures CanMove(s, w, NoticeStop) <==> s.phase == Stopping
  {
  }

  /** A replay begins exactly if the first worker is idle and it has been woken, and a stop ends it between two rows. */
  lemma ReplayBeginsAndStops(c: Config, s: State, w: nat)
    requires w < |s.workers|
    ensures CanMove(s, w, StartReplay) <==> w == 0 && s.workers[0] == Idle && s.pending
    ensures CanMove(s, w, StartReplay) ==> AfterStep(c, s, w, StartReplay) == With(s, 0, Listing).(pending := false)
    ensures s.workers[w].Sweeping? ==> (CanMove(s, w, NoticeStop) <==> s.phase == Stopping)
    ensures s.workers[w].Sweeping? && s.phase == Stopping ==> AfterStep(c, s, w, NoticeStop) == With(s, w, Closing)
  {
  }

  /* ---- an operation that finds the queue full ---- */

  /** Put on a full queue, spooled by its producer, and the replay woken: nothing is left under way. */
  lemma RefusedIsSpooled(c: Config, s: State, op: Op, nbytes: nat, ts: real)
    requires Up(s) && op.queueClass == Terminal && Storable(op) && Encode(op).Some?
    requires |s.queue.terminal| >= c.limits.terminal
    ensures Leads(c, s, [PutTerminal(op)] + ([SpoolRefused(op, nbytes, ts)] + ([SetPending] + [])),
                  Spooled(c, s, op, nbytes, ts).(given := s.given + multiset{op}, pending := true))
  {
    var u := Spooled(c, s, op, nbytes, ts).(given := s.given + multiset{op}, pending := true);
    var s1 := s.(given := s.given + multiset{op}, refused := s.refused + multiset{op});
    var s2 := u.(pending := s.pending, owed := s.owed + 1);
    assert s.refused + multiset{op} - multiset{op} == s.refused;
    StepLeads(c, s2, SetPending, u, [], u);
    StepLeads(c, s1, SpoolRefused(op, nbytes, ts), s2, [SetPending] + [], u);
    StepLeads(c, s, PutTerminal(op), s1, [SpoolRefused(op, nbytes, ts)] + ([SetPending] + []), u);
  }

  /* ---- the orderly stop ---- */

  /** The first n workers leave, the last of them first. */
  function Exits(n: nat, rest: seq<Action>): (acts: seq<Action>) {
    if n == 0 then rest else [Step(n - 1, Exit)] + Exits(n - 1, rest)
  }

  function Out(ws: seq<Worker>, n: nat): (r: seq<Worker>)
    ensures |r| == |ws|
  {
    seq(|ws|, i requires 0 <= i < |ws| => if i < n then Exited else ws[i])
  }

  lemma {:induction false} ExitsLead(c: Config, s: State, n: nat, rest: seq<Action>, u: State)
    requires n <= |s.workers| && s.phase == Stopping && forall i :: 0 <= i < n ==> s.workers[i] == Idle
    requires Leads(c, s.(workers := Out(s.workers, n)), rest, u)
    ensures Leads(c, s, Exits(n, rest), u)
    decreases n
  {
    if n == 0 {
      assert Out(s.workers, 0) == s.workers;
    } else {
      var t := With(s, n - 1, Exited);
      assert Out(t.workers, n - 1) == Out(s.workers, n);
      ExitsLead(c, t, n - 1, rest, u);
      StepLeads(c, s, Step(n - 1, Exit), t, Exits(n - 1, rest), u);
    }
  }

  function Length(q: Queue): (n: nat) {
    |q.terminal| + |q.latest| + |q.bulk|
  }

  ghost predicate Encodable(q: Queue) {
    forall i :: 0 <= i < |Waiting(q)| ==> !Unstorable(Waiting(q)[i])
  }

  /** The queue is taken empty, and the stop is complete. */
  function Persists(q: Queue, size: Op -> nat, ts: real): (acts: seq<Action>)
    decreases Length(q)
  {
    match Head(q)
    case None => [FinishPersist] + []
    case Some(t) => [Persist(size(t.op), ts)] + Persists(t.rest, size, ts)
  }

  lemma OnePersisted(c: Config, s: State, size: Op -> nat, ts: real)
    requires Encodable(s.queue) && Head(s.queue).Some?
    ensures var t := Head(s.queue).value;
            && (t.op.queueClass == Terminal ==> Encode(t.op).Some?)
            && Encodable(t.rest) && AfterPersist(c, s, size(t.op), ts).queue == t.rest
  {
    HeadIsFirst(s.queue);
    var t := Head(s.queue).value;
    assert !Unstorable(Waiting(s.queue)[0]);
    forall i | 0 <= i < |Waiting(t.rest)| ensures !Unstorable(Waiting(t.rest)[i]) {
      assert Waiting(t.rest)[i] == Waiting(s.queue)[i + 1];
    }
  }

  /** The machine once the queue is taken empty. */
  ghost function PersistedAll(c: Config, s: State, size: Op -> nat, ts: real): (r: State)
    requires Encodable(s.queue)
    decreases Length(s.queue)
  {
    match Head(s.queue)
    case None => s.(phase := Persisted)
    case Some(t) =>
      OnePersisted(c, s, size, ts);
      PersistedAll(c, AfterPersist(c, s, size(t.op), ts), size, ts)
  }

  lemma {:induction false} PersistsLead(c: Config, s: State, size: Op -> nat, ts: real)
    requires s.phase == Joined && Encodable(s.queue)
    ensures Leads(c, s, Persists(s.queue, size, ts), PersistedAll(c, s, size, ts))
    decreases Length(s.queue)
  {
    if Head(s.queue).None? {
      StepLeads(c, s, FinishPersist, s.(phase := Persisted), [], s.(phase := Persisted));
    } else {
      var t := Head(s.queue).value;
      OnePersisted(c, s, size, ts);
      var next := AfterPersist(c, s, size(t.op), ts);
      PersistsLead(c, next, size, ts);
      StepLeads(c, s, Persist(size(t.op), ts), next, Persists(t.rest, size, ts), PersistedAll(c, s, size, ts));
    }
  }

  /** What is stored is what the loop over the queue stores. */
  lemma {:induction false} PersistedIsSpooled(c: Config, s: State, size: Op -> nat, ts: real)
    requires Encodable(s.queue)
    ensures PersistedAll(c, s, size, ts).rows == AllSpooled(s.rows, s.nextId, c.bounds, Waiting(s.queue), size, ts)
    ensures Head(PersistedAll(c, s, size, ts).queue).None? && PersistedAll(c, s, size, ts).phase == Persisted
    decreases Length(s.queue)
  {
    HeadIsFirst(s.queue);
    if Head(s.queue).Some? {
      var t := Head(s.queue).value;
      OnePersisted(c, s, size, ts);
      assert Waiting(s.queue)[1..] == Waiting(t.rest);
      PersistedIsSpooled(c, AfterPersist(c, s, size(t.op), ts), size, ts);
    }
  }

  /**
    An orderly stop of idle workers: they leave, are joined, and what waits is stored in the order of the queue,
    exactly as the loop over the queue stores it.
  */
  lemma StopIsARun(c: Config, s: State, size: Op -> nat, ts: real, n: nat)
    requires s.phase == Running && s.refused == multiset{} && s.owed == 0 && Encodable(s.queue)
    requires n == |s.workers| && forall i :: 0 <= i < n ==> s.workers[i] == Idle
    ensures var acts := [RequestStop] + Exits(n, [Join] + Persists(s.queue, size, ts));
            && Legal(c, s, acts)
            && End(c, s, acts).phase == Persisted && Head(End(c, s, acts).queue).None?
            && End(c, s, acts).rows == AllSpooled(s.rows, s.nextId, c.bounds, Waiting(s.queue), size, ts)
  {
    var s1 := s.(phase := Stopping);
    var s2 := s1.(workers := Out(s.workers, n));
    var s3 := s2.(phase := Joined);
    var u := PersistedAll(c, s3, size, ts);
    PersistedIsSpooled(c, s3, size, ts);
    PersistsLead(c, s3, size, ts);
    StepLeads(c, s2, Join, s3, Persists(s.queue, size, ts), u);
    ExitsLead(c, s1, n, [Join] + Persists(s.queue, size, ts), u);
    StepLeads(c, s, RequestStop, s1, Exits(n, [Join] + Persists(s.queue, size, ts)), u);
  }
}
