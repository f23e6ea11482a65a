/** The delivery promises, over every run of producers, workers, replay and stop. */
module DeliveryTheorems {
  import opened Wrappers
  import opened Values
  import opened Operations
  import opened Client
  import opened OutboundQueues
  import opened Spool
  import opened Bags
  import opened Delivery
  import opened DeliveryLedger
  import opened DeliveryBalance
  import opened DeliveryInvariants

  /* ---- conservation ---- */

  lemma {:induction false} RunBalances(c: Config, s: State, acts: seq<Action>, op: Op)
    requires Sound(c, s) && BalancedAt(c, s, op) && Legal(c, s, acts)
    ensures Sound(c, End(c, s, acts)) && BalancedAt(c, End(c, s, acts), op)
    decreases |acts|
  {
    if acts == [] {
    } else {
      ActionBalances(c, s, acts[0], op);
      ActionSound(c, s, acts[0]);
      RunBalances(c, Apply(c, s, acts[0]), acts[1..], op);
    }
  }

  lemma InitiallyBalanced(c: Config, s: State, op: Op)
    requires Initial(c, s)
    ensures BalancedAt(c, s, op)
  {
    BagNone(Carried, s.workers);
  }

  lemma {:induction false} RunKeepsSound(c: Config, s: State, acts: seq<Action>)
    requires Sound(c, s) && Legal(c, s, acts)
    ensures Sound(c, End(c, s, acts))
    decreases |acts|
  {
    if acts == [] {
    } else {
      ActionSound(c, s, acts[0]);
      RunKeepsSound(c, Apply(c, s, acts[0]), acts[1..]);
    }
  }

  lemma RunSound(c: Config, s: State, acts: seq<Action>)
    requires Initial(c, s) && Legal(c, s, acts)
    ensures Sound(c, End(c, s, acts))
  {
    InitiallySound(c, s);
    RunKeepsSound(c, s, acts);
  }

  lemma AllBalanced(c: Config, t: State)
    requires forall op :: BalancedAt(c, t, op)
    ensures Balanced(c, t)
  {
    var sum := multiset(t.queue.terminal) + t.refused + Held(t.workers) + Contents(c, t.rows)
               + t.consumed + t.evicted + t.lost;
    forall op ensures t.given[op] == sum[op] {
      assert BalancedAt(c, t, op);
    }
  }

  lemma RunBalanced(c: Config, s: State, acts: seq<Action>)
    requires Initial(c, s) && Legal(c, s, acts)
    ensures Balanced(c, End(c, s, acts))
  {
    InitiallySound(c, s);
    forall op ensures BalancedAt(c, End(c, s, acts), op) {
      InitiallyBalanced(c, s, op);
      RunBalances(c, s, acts, op);
    }
    AllBalanced(c, End(c, s, acts));
  }

  /** All terminal operations handed over in a run. */
  function Submitted(acts: seq<Action>): (ops: multiset<Op>) {
    if acts == [] then multiset{}
    else (if acts[0].PutTerminal? then multiset{acts[0].op} else multiset{}) + Submitted(acts[1..])
  }

  lemma GivenStep(c: Config, s: State, a: Action)
    requires Enabled(c, s, a)
    ensures Apply(c, s, a).given == s.given + if a.PutTerminal? then multiset{a.op} else multiset{}
  {
  }

  lemma {:induction false} GivenIsSubmitted(c: Config, s: State, acts: seq<Action>, op: Op)
    requires Legal(c, s, acts)
    ensures End(c, s, acts).given[op] == s.given[op] + Submitted(acts)[op]
    decreases |acts|
  {
    if acts == [] {
    } else {
      GivenStep(c, s, acts[0]);
      GivenIsSubmitted(c, Apply(c, s, acts[0]), acts[1..], op);
    }
  }

  /**
    No terminal operation vanishes and none is doubled. What the spool held at the start and all that was ever
    handed to put_terminal is, at every moment of every run, exactly: queued, refused by a full queue and on
    its way to the spool, in a worker's hands, in a spool row that decodes to the very same operation,
    consumed, evicted by the spool's bounds, or lost to an unexplained answer.
  */
  lemma NothingVanishes(c: Config, s: State, acts: seq<Action>)
    requires Initial(c, s) && Legal(c, s, acts)
    ensures var t := End(c, s, acts);
            Contents(c, s.rows) + Submitted(acts)
            == multiset(t.queue.terminal) + t.refused + Held(t.workers) + Contents(c, t.rows)
               + t.consumed + t.evicted + t.lost
  {
    RunBalanced(c, s, acts);
    var t := End(c, s, acts);
    forall op ensures t.given[op] == (Contents(c, s.rows) + Submitted(acts))[op] {
      GivenIsSubmitted(c, s, acts, op);
    }
    assert t.given == Contents(c, s.rows) + Submitted(acts);
  }

  /** After an orderly stop nothing is queued, refused or held: what is neither gone nor lost is in the spool. */
  lemma StopPersistsAll(c: Config, s: State, acts: seq<Action>)
    requires Initial(c, s) && Legal(c, s, acts) && End(c, s, acts).phase == Persisted
    ensures var t := End(c, s, acts);
            && t.queue.terminal == [] && t.queue.latest == [] && t.queue.bulk == []
            && t.refused == multiset{} && Held(t.workers) == multiset{}
            && Contents(c, s.rows) + Submitted(acts) == Contents(c, t.rows) + t.consumed + t.evicted + t.lost
  {
    RunSound(c, s, acts);
    NothingVanishes(c, s, acts);
    var t := End(c, s, acts);
    forall i | 0 <= i < |t.workers| ensures Carried(t.workers[i]) == multiset{} {
      assert t.workers[i] == Exited;
    }
    BagNone(Carried, t.workers);
  }

  /**
    No operation gets stuck on its way to the spool: whatever is refused, queued as terminal, or to be spooled by
    a worker can always be encoded.
  */
  lemma SpoolingNeverBlocks(c: Config, s: State, acts: seq<Action>, w: nat, op: Op)
    requires Initial(c, s) && Legal(c, s, acts)
    ensures var t := End(c, s, acts);
            && (op in t.refused || op in t.queue.terminal ==> Encode(op).Some?)
            && (w < |t.workers| && Respools(t.workers[w]) ==> Encode(t.workers[w].op).Some?)
  {
    RunSound(c, s, acts);
    var t := End(c, s, acts);
    if op in t.refused || op in t.queue.terminal {
      StorableEncodes(op);
    }
    if w < |t.workers| && Respools(t.workers[w]) {
      assert WorkerOk(c, t.workers[w], w);
      StorableEncodes(t.workers[w].op);
    }
  }

  /* ---- what is lost ---- */

  /** A live terminal operation whose delivery has raised. */
  function Failing(x: Worker): (m: multiset<Op>) {
    if x.Settled? && x.source == Live && x.outcome == Raised then One(x.op) else multiset{}
  }

  /** What an action makes fail: a send of a live terminal operation that raises. */
  ghost function Fails(s: State, a: Action): (m: multiset<Op>) {
    if a.Step? && a.move.Attempt? && At(s, a.w).Sending? && At(s, a.w).source == Live
       && Judge(At(s, a.w).op, a.move.wire) == Raises
    then One(At(s, a.w).op) else multiset{}
  }

  ghost function Failed(c: Config, s: State, acts: seq<Action>): (m: multiset<Op>)
    requires Legal(c, s, acts)
    decreases |acts|
  {
    if acts == [] then multiset{} else Fails(s, acts[0]) + Failed(c, Apply(c, s, acts[0]), acts[1..])
  }

  ghost predicate LossAt(s: State, t: State, failed: nat, op: Op) {
    t.lost[op] + Bag(Failing, t.workers)[op] == s.lost[op] + Bag(Failing, s.workers)[op] + failed
  }

  lemma LossMoves(s: State, t: State, w: nat, failed: nat, op: Op)
    requires w < |s.workers| && |t.workers| == |s.workers| && t.workers == s.workers[w := t.workers[w]]
    requires t.lost[op] + Failing(t.workers[w])[op] == s.lost[op] + Failing(s.workers[w])[op] + failed
    ensures LossAt(s, t, failed, op)
  {
    BagUpdate(Failing, s.workers, w, t.workers[w], op);
  }

  lemma StepFails(c: Config, s: State, w: nat, move: Move)
    requires w < |s.workers| && CanMove(s, w, move)
    ensures Failing(Moved(c, s, w, move)) == Fails(s, Step(w, move))
    ensures Failing(s.workers[w]) == multiset{}
  {
  }

  lemma ConcludeLoses(c: Config, s: State, a: Action, op: Op)
    requires a.Conclude? && Enabled(c, s, a)
    ensures LossAt(s, AfterConclude(c, s, a.w, a.nbytes, a.ts), 0, op)
  {
    var t := AfterConclude(c, s, a.w, a.nbytes, a.ts);
    assert Failing(t.workers[a.w]) == multiset{};
    LossMoves(s, t, a.w, 0, op);
  }

  lemma ActionLoses(c: Config, s: State, a: Action, op: Op)
    requires Enabled(c, s, a)
    ensures LossAt(s, Apply(c, s, a), Fails(s, a)[op], op)
  {
    if a.Step? {
      StepFails(c, s, a.w, a.move);
      LossMoves(s, AfterStep(c, s, a.w, a.move), a.w, Fails(s, a)[op], op);
    } else if a.Conclude? {
      ConcludeLoses(c, s, a, op);
    } else if a.Claim? {
      LossMoves(s, AfterClaim(s, a.w), a.w, 0, op);
    } else if a.NextRow? {
      LossMoves(s, AfterNextRow(c, s), 0, 0, op);
    } else {
      assert Apply(c, s, a).workers == s.workers && Apply(c, s, a).lost == s.lost;
    }
  }

  lemma {:induction false} RunLoses(c: Config, s: State, acts: seq<Action>, op: Op)
    requires Legal(c, s, acts)
    ensures LossAt(s, End(c, s, acts), Failed(c, s, acts)[op], op)
    decreases |acts|
  {
    if acts == [] {
    } else {
      ActionLoses(c, s, acts[0], op);
      RunLoses(c, Apply(c, s, acts[0]), acts[1..], op);
    }
  }

  /**
    The only way to lose a terminal operation is a raising send: what is lost, or about to be, is exactly what
    raised. Answers that explain their failures, and no foreign errors, therefore lose nothing.
  */
  lemma LostIsWhatRaised(c: Config, s: State, acts: seq<Action>)
    requires Initial(c, s) && Legal(c, s, acts)
    ensures var t := End(c, s, acts); t.lost + Bag(Failing, t.workers) == Failed(c, s, acts)
  {
    var t := End(c, s, acts);
    BagNone(Failing, s.workers);
    forall op ensures (t.lost + Bag(Failing, t.workers))[op] == Failed(c, s, acts)[op] {
      RunLoses(c, s, acts, op);
    }
  }

  /** Every answer of a run either is accepted or explains its failure, and no error is of a foreign kind. */
  ghost predicate Explained(c: Config, s: State, acts: seq<Action>)
    requires Legal(c, s, acts)
    decreases |acts|
  {
    acts == []
    || ((acts[0].Step? && acts[0].move.Attempt? ==>
           match acts[0].move.wire
           case Throws(e) => !e.Foreign?
           case Answers(r) => Accepted(At(s, acts[0].w).op, r) || Explains(r))
        && Explained(c, Apply(c, s, acts[0]), acts[1..]))
  }

  lemma {:induction false} ExplainedNeverFails(c: Config, s: State, acts: seq<Action>)
    requires Legal(c, s, acts) && Explained(c, s, acts)
    ensures Failed(c, s, acts) == multiset{}
    decreases |acts|
  {
    if acts == [] {
    } else {
      if acts[0].Step? && acts[0].move.Attempt? {
        RaisesIff(At(s, acts[0].w).op, acts[0].move.wire);
      }
      ExplainedNeverFails(c, Apply(c, s, acts[0]), acts[1..]);
    }
  }

  /** With explained answers nothing is lost at any moment. */
  lemma NoLoss(c: Config, s: State, acts: seq<Action>)
    requires Initial(c, s) && Legal(c, s, acts) && Explained(c, s, acts)
    ensures End(c, s, acts).lost == multiset{}
  {
    LostIsWhatRaised(c, s, acts);
    ExplainedNeverFails(c, s, acts);
  }

  /* ---- what is consumed ---- */

  function Mine(x: Worker): (m: multiset<Op>)
    requires x.Sending? || x.Settled?
  {
    if x.source == Live then One(x.op) else multiset{x.op}
  }

  /** A delivery that is over, its operation not yet struck off. */
  function Finishing(x: Worker): (m: multiset<Op>) {
    if x.Settled? && x.outcome == Finished then Mine(x) else multiset{}
  }

  /** What an action settles: a send that is accepted or rejected for good, or an operation past its expiry. */
  ghost function Settles(s: State, a: Action): (m: multiset<Op>) {
    if a.Step? && At(s, a.w).Sending?
       && ((a.move.Attempt? && Judge(At(s, a.w).op, a.move.wire) in {Delivered, Rejected})
           || (a.move.Expire? && Expired(At(s, a.w).op, a.move.now)))
    then Mine(At(s, a.w)) else multiset{}
  }

  ghost function SettledIn(c: Config, s: State, acts: seq<Action>): (m: multiset<Op>)
    requires Legal(c, s, acts)
    decreases |acts|
  {
    if acts == [] then multiset{} else Settles(s, acts[0]) + SettledIn(c, Apply(c, s, acts[0]), acts[1..])
  }

  ghost predicate ConsumedAt(s: State, t: State, settled: nat, op: Op) {
    t.consumed[op] + Bag(Finishing, t.workers)[op] <= s.consumed[op] + Bag(Finishing, s.workers)[op] + settled
  }

  lemma ConsumedMoves(s: State, t: State, w: nat, settled: nat, op: Op)
    requires w < |s.workers| && |t.workers| == |s.workers| && t.workers == s.workers[w := t.workers[w]]
    requires t.consumed[op] + Finishing(t.workers[w])[op] <= s.consumed[op] + Finishing(s.workers[w])[op] + settled
    ensures ConsumedAt(s, t, settled, op)
  {
    BagUpdate(Finishing, s.workers, w, t.workers[w], op);
  }

  lemma StepSettles(c: Config, s: State, w: nat, move: Move)
    requires w < |s.workers| && CanMove(s, w, move)
    ensures Finishing(Moved(c, s, w, move)) == Settles(s, Step(w, move))
    ensures Finishing(s.workers[w]) == multiset{}
  {
  }

  lemma ConcludeConsumes(c: Config, s: State, a: Action, op: Op)
    requires a.Conclude? && Enabled(c, s, a) && WorkerOk(c, s.workers[a.w], a.w)
    ensures ConsumedAt(s, AfterConclude(c, s, a.w, a.nbytes, a.ts), 0, op)
  {
    var t := AfterConclude(c, s, a.w, a.nbytes, a.ts);
    assert Finishing(t.workers[a.w]) == multiset{};
    ConsumedMoves(s, t, a.w, 0, op);
  }

  lemma ActionConsumes(c: Config, s: State, a: Action, op: Op)
    requires Enabled(c, s, a) && WorkersOk(c, s)
    ensures ConsumedAt(s, Apply(c, s, a), Settles(s, a)[op], op)
  {
    if a.Step? {
      StepSettles(c, s, a.w, a.move);
      ConsumedMoves(s, AfterStep(c, s, a.w, a.move), a.w, Settles(s, a)[op], op);
    } else if a.Conclude? {
      ConcludeConsumes(c, s, a, op);
    } else if a.Claim? {
      ConsumedMoves(s, AfterClaim(s, a.w), a.w, 0, op);
    } else if a.NextRow? {
      ConsumedMoves(s, AfterNextRow(c, s), 0, 0, op);
    } else {
      assert Apply(c, s, a).workers == s.workers && Apply(c, s, a).consumed == s.consumed;
    }
  }

  lemma {:induction false} RunConsumes(c: Config, s: State, acts: seq<Action>, op: Op)
    requires Legal(c, s, acts) && Sound(c, s)
    ensures ConsumedAt(s, End(c, s, acts), SettledIn(c, s, acts)[op], op)
    decreases |acts|
  {
    if acts == [] {
    } else {
      ActionConsumes(c, s, acts[0], op);
      ActionSound(c, s, acts[0]);
      RunConsumes(c, Apply(c, s, acts[0]), acts[1..], op);
    }
  }

  /**
    Nothing counts as consumed without a cause of its own: each consumed operation was accepted by the remote
    side, rejected for good, or past its expiry, once per time it was consumed.
  */
  lemma ConsumedWasSettled(c: Config, s: State, acts: seq<Action>)
    requires Initial(c, s) && Legal(c, s, acts)
    ensures End(c, s, acts).consumed <= SettledIn(c, s, acts)
  {
    InitiallySound(c, s);
    BagNone(Finishing, s.workers);
    forall op ensures End(c, s, acts).consumed[op] <= SettledIn(c, s, acts)[op] {
      RunConsumes(c, s, acts, op);
    }
  }

  /* ---- the wakeup ---- */

  /** No stored operation is forgotten: whenever rows exist, the replay is running or will be woken. */
  lemma NoLostWakeup(c: Config, s: State, acts: seq<Action>)
    requires Initial(c, s) && Legal(c, s, acts)
    ensures var t := End(c, s, acts);
            t.rows != [] ==>
              t.pending || t.owed > 0 || (t.workers != [] && Replaying(t.workers[0]))
              || exists i :: 0 <= i < |t.workers| && t.workers[i].Waking?
  {
    RunSound(c, s, acts);
    var t := End(c, s, acts);
    assert SomeWaking(t.workers) ==> exists i :: 0 <= i < |t.workers| && t.workers[i].Waking?;
  }

  /* ---- the loss that answers without an error code cause ---- */

  const UNEXPLAINED := Answers(Response(200, Some(2000)))

  function LosingRun(op: Op): (acts: seq<Action>) {
    [PutTerminal(op), Claim(0), Step(0, Attempt(UNEXPLAINED)), Conclude(0, 0, 0.0)]
  }

  /** One worker, with the queue, the claim and the losses given. */
  function OneWorker(
    x: Worker, queued: seq<Op>, active: set<OrderKey>, given: multiset<Op>, lost: multiset<Op>): (s: State)
  {
    State(Queue(queued, [], [], active, 0, 0), [], 1, [x], multiset{}, 0, false, Running,
          given, multiset{}, multiset{}, lost)
  }

  ghost predicate Leads(c: Config, s: State, a: Action, t: State) {
    Enabled(c, s, a) && Apply(c, s, a) == t
  }

  lemma StepThen(c: Config, s: State, a: Action, t: State, rest: seq<Action>)
    requires Leads(c, s, a, t) && Legal(c, t, rest)
    ensures Legal(c, s, [a] + rest) && End(c, s, [a] + rest) == End(c, t, rest)
  {
  }

  lemma LosingPut(c: Config, op: Op)
    requires c.limits.terminal >= 1 && op.queueClass == Terminal && Storable(op)
    ensures Leads(c, OneWorker(Idle, [], {}, multiset{}, multiset{}), PutTerminal(op),
                  OneWorker(Idle, [op], {}, multiset{op}, multiset{}))
  {
  }

  lemma LosingClaim(c: Config, op: Op)
    ensures Leads(c, OneWorker(Idle, [op], {}, multiset{op}, multiset{}), Claim(0),
                  OneWorker(Sending(op, Live, 0), [], {OrderKeyOf(op)}, multiset{op}, multiset{}))
  {
  }

  lemma LosingAttempt(c: Config, op: Op)
    requires op.kind == CreateCin && Storable(op)
    ensures Leads(c, OneWorker(Sending(op, Live, 0), [], {OrderKeyOf(op)}, multiset{op}, multiset{}),
                  Step(0, Attempt(UNEXPLAINED)),
                  OneWorker(Settled(op, Live, Raised), [], {OrderKeyOf(op)}, multiset{op}, multiset{}))
  {
    JsonKeepsExactly(op.content);
    assert Judge(op, UNEXPLAINED) == Raises;
  }

  lemma LosingConclude(c: Config, op: Op)
    requires op.queueClass == Terminal
    ensures Leads(c, OneWorker(Settled(op, Live, Raised), [], {OrderKeyOf(op)}, multiset{op}, multiset{}),
                  Conclude(0, 0, 0.0),
                  OneWorker(Leaving(op, Live, true), [], {OrderKeyOf(op)}, multiset{op}, multiset{op}))
  {
  }

  /**
    A creation answered 200 with code 2000 is neither a success nor a failure the client can classify: the
    worker swallows the exception, and the operation is neither sent again nor spooled.
  */
  lemma UnexplainedAnswerLoses(c: Config, op: Op)
    requires ReadsByDecode(c) && c.limits.terminal >= 1
    requires op.kind == CreateCin && op.queueClass == Terminal && Storable(op)
    ensures var s := OneWorker(Idle, [], {}, multiset{}, multiset{});
            && Initial(c, s) && Legal(c, s, LosingRun(op))
            && End(c, s, LosingRun(op)).lost == multiset{op} && End(c, s, LosingRun(op)).rows == []
  {
    LosingPut(c, op);
    LosingClaim(c, op);
    LosingAttempt(c, op);
    LosingConclude(c, op);
    var one, key, none := multiset{op}, {OrderKeyOf(op)}, multiset{};
    var s4 := OneWorker(Leaving(op, Live, true), [], key, one, one);
    var s3 := OneWorker(Settled(op, Live, Raised), [], key, one, none);
    var s2 := OneWorker(Sending(op, Live, 0), [], key, one, none);
    var a1, a2, a3 := Claim(0), Step(0, Attempt(UNEXPLAINED)), Conclude(0, 0, 0.0);
    StepThen(c, s3, a3, s4, []);
    StepThen(c, s2, a2, s3, [a3] + []);
    StepThen(c, OneWorker(Idle, [op], {}, one, none), a1, s2, [a2] + ([a3] + []));
    StepThen(c, OneWorker(Idle, [], {}, none, none), PutTerminal(op), OneWorker(Idle, [op], {}, one, none),
             [a1] + ([a2] + ([a3] + [])));
    assert [PutTerminal(op)] + ([a1] + ([a2] + ([a3] + []))) == LosingRun(op);
  }
}
