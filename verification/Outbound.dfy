/** The outbound processor as it runs in one thread: spooling, the retry loop, the replay and the final persist. */
module Outbound {
  import opened Wrappers
  import opened Values
  import opened Operations
  import opened Client
  import opened OutboundQueues
  import opened Spool
  import Delivery

  datatype Recovery = Recover | Reconcile

  /** The remote side as the workers see it: down or not, what was requested, which operations were reported. */
  datatype Link = Link(down: bool, requests: seq<Recovery>, reports: seq<Op>)

  /** What one pass of the retry loop meets: the stop flag, the clock, the answer, the stop flag during the wait. */
  datatype Round = Round(stopped: bool, now: real, wire: Wire, stoppedWaiting: bool)

  /* ---- the retry loop ---- */

  function Available(l: Link): (r: Link) {
    if l.down then l.(down := false, requests := l.requests + [Recover]) else l
  }

  function AfterAnswer(l: Link, op: Op, wire: Wire, last: bool): (r: Link) {
    match Judge(op, wire)
    case Delivered => Available(l)
    case Rejected =>
      var seen := if !Unsendable(op) && wire.Answers? then Available(l) else l;
      seen.(reports := seen.reports + [op])
    case Keep => if l.down then Available(l) else l.(requests := l.requests + [Reconcile])
    case Again => if last then l.(down := true) else l
    case Raises => l
  }

  /** How _deliver ends from its i-th pass on. */
  function Deliver(op: Op, retries: nat, rounds: seq<Round>, i: nat): (r: Delivery.Outcome)
    requires |rounds| == retries + 1 && i <= |rounds|
    decreases |rounds| - i
  {
    if i == |rounds| || rounds[i].stopped then Delivery.Retained
    else if Delivery.Expired(op, rounds[i].now) then Delivery.Finished
    else
      match Judge(op, rounds[i].wire)
      case Delivered => Delivery.Finished
      case Rejected => Delivery.Finished
      case Keep => Delivery.Retained
      case Raises => Delivery.Raised
      case Again =>
        if i == retries || rounds[i].stoppedWaiting then Delivery.Retained else Deliver(op, retries, rounds, i + 1)
  }

  function LinkAfter(l: Link, op: Op, retries: nat, rounds: seq<Round>, i: nat): (r: Link)
    requires |rounds| == retries + 1 && i <= |rounds|
    decreases |rounds| - i
  {
    if i == |rounds| || rounds[i].stopped || Delivery.Expired(op, rounds[i].now) then l
    else
      var next := AfterAnswer(l, op, rounds[i].wire, i == retries);
      if Judge(op, rounds[i].wire) == Again && i < retries && !rounds[i].stoppedWaiting then
        LinkAfter(next, op, retries, rounds, i + 1)
      else next
  }

  /** A pass that neither ends the delivery nor is the last. */
  ghost predicate GoesOn(op: Op, retries: nat, rounds: seq<Round>, j: nat)
    requires j < |rounds|
  {
    && j < retries && !rounds[j].stopped && !Delivery.Expired(op, rounds[j].now)
    && Judge(op, rounds[j].wire) == Again && !rounds[j].stoppedWaiting
  }

  /**
    An operation is finished exactly if some pass, all earlier ones being answered by a recoverable failure and
    not interrupted, finds it expired or gets it accepted or rejected for good. It is never sent more than
    retries + 1 times.
  */
  lemma {:induction false} FinishedIffReached(op: Op, retries: nat, rounds: seq<Round>, i: nat)
    requires |rounds| == retries + 1 && i <= |rounds|
    ensures Deliver(op, retries, rounds, i) == Delivery.Finished <==>
            exists j :: i <= j < |rounds| && (forall m :: i <= m < j ==> GoesOn(op, retries, rounds, m))
                        && !rounds[j].stopped
                        && (Delivery.Expired(op, rounds[j].now)
                            || Judge(op, rounds[j].wire) == Delivered || Judge(op, rounds[j].wire) == Rejected)
    decreases |rounds| - i
  {
    if i == |rounds| || !GoesOn(op, retries, rounds, i) {
    } else {
      FinishedIffReached(op, retries, rounds, i + 1);
    }
  }

  /* ---- what a delivery tells of the remote side ---- */

  /** The pass is made: all earlier ones go on, it is not stopped, and the operation has not expired. */
  ghost predicate Reached(op: Op, retries: nat, rounds: seq<Round>, i: nat, j: nat)
    requires |rounds| == retries + 1
  {
    && i <= j < |rounds| && (forall m :: i <= m < j ==> GoesOn(op, retries, rounds, m))
    && !rounds[j].stopped && !Delivery.Expired(op, rounds[j].now)
  }

  /** Some pass is made and judged so. */
  ghost predicate Comes(op: Op, retries: nat, rounds: seq<Round>, i: nat, v: Verdict)
    requires |rounds| == retries + 1
  {
    exists j: nat :: Reached(op, retries, rounds, i, j) && Judge(op, rounds[j].wire) == v
  }

  /** The remote side has answered a request, and not with a failure that may pass or that nothing explains. */
  predicate Answered(op: Op, wire: Wire) {
    !Unsendable(op) && wire.Answers? && Judge(op, wire) != Again && Judge(op, wire) != Raises
  }

  ghost predicate IsAnswered(op: Op, retries: nat, rounds: seq<Round>, i: nat)
    requires |rounds| == retries + 1
  {
    exists j: nat :: Reached(op, retries, rounds, i, j) && Answered(op, rounds[j].wire)
  }

  lemma ReachedLater(op: Op, retries: nat, rounds: seq<Round>, i: nat, j: nat)
    requires |rounds| == retries + 1 && i < |rounds|
    ensures GoesOn(op, retries, rounds, i) && i < j ==>
              (Reached(op, retries, rounds, i, j) <==> Reached(op, retries, rounds, i + 1, j))
    ensures !GoesOn(op, retries, rounds, i) && i != j ==> !Reached(op, retries, rounds, i, j)
  {
  }

  /** A pass that does not go on is the last one made. */
  lemma LastReached(op: Op, retries: nat, rounds: seq<Round>, i: nat, j: nat, k: nat)
    requires |rounds| == retries + 1 && Reached(op, retries, rounds, i, j) && Reached(op, retries, rounds, i, k)
    requires j < |rounds| && !GoesOn(op, retries, rounds, j)
    ensures k <= j
  {
  }

  /**
    What a whole delivery tells of the remote side. The operation is reported, once, exactly if a pass rejects it
    for good. The link goes down exactly if the last pass allowed fails in a way that may pass; it comes up
    exactly if a pass is answered otherwise, and a recovery is requested if it was down before. A reconciliation
    is requested exactly if it was up and a pass leaves the operation to the reconciler.
  */
  lemma {:induction false} DeliveryTellsLink(l: Link, op: Op, retries: nat, rounds: seq<Round>, i: nat)
    requires |rounds| == retries + 1 && i <= |rounds|
    ensures var r := LinkAfter(l, op, retries, rounds, i);
            && r.reports == (if Comes(op, retries, rounds, i, Rejected) then l.reports + [op] else l.reports)
            && (!l.down ==>
                  (r.down <==> Reached(op, retries, rounds, i, retries) && Judge(op, rounds[retries].wire) == Again))
            && (l.down ==> (!r.down <==> IsAnswered(op, retries, rounds, i)))
            && r.requests == l.requests
                             + if l.down && IsAnswered(op, retries, rounds, i) then [Recover]
                               else if !l.down && Comes(op, retries, rounds, i, Keep) then [Reconcile] else []
    decreases |rounds| - i
  {
    if i == |rounds| {
    } else {
      forall j: nat
        ensures GoesOn(op, retries, rounds, i) && i < j ==>
                  (Reached(op, retries, rounds, i, j) <==> Reached(op, retries, rounds, i + 1, j))
        ensures !GoesOn(op, retries, rounds, i) && i != j ==> !Reached(op, retries, rounds, i, j)
      {
        ReachedLater(op, retries, rounds, i, j);
      }
      if GoesOn(op, retries, rounds, i) {
        DeliveryTellsLink(l, op, retries, rounds, i + 1);
      }
    }
  }

  /** An accepted delivery leaves the link up and reports nothing. */
  lemma AcceptedIsSilent(l: Link, op: Op, retries: nat, rounds: seq<Round>)
    requires |rounds| == retries + 1 && Comes(op, retries, rounds, 0, Delivered)
    ensures LinkAfter(l, op, retries, rounds, 0)
            == Link(false, if l.down then l.requests + [Recover] else l.requests, l.reports)
  {
    DeliveryTellsLink(l, op, retries, rounds, 0);
    var j: nat :| Reached(op, retries, rounds, 0, j) && Judge(op, rounds[j].wire) == Delivered;
    assert Answered(op, rounds[j].wire);
    forall k: nat | Reached(op, retries, rounds, 0, k)
      ensures k <= j && (k == j || Judge(op, rounds[k].wire) == Again)
    {
      LastReached(op, retries, rounds, 0, j, k);
      if k < j {
        assert GoesOn(op, retries, rounds, k);
      }
    }
  }

  /** The worker of the delivery machine, taken through the passes of the loop. */
  function Through(c: Delivery.Config, x: Delivery.Worker, rounds: seq<Round>): (r: Delivery.Worker)
    requires x.Sending?
    decreases |rounds|
  {
    if rounds == [] || rounds[0].stopped then Delivery.Settled(x.op, x.source, Delivery.Retained)
    else if Delivery.Expired(x.op, rounds[0].now) then Delivery.Settled(x.op, x.source, Delivery.Finished)
    else
      var y := Delivery.AfterVerdict(c, x, Judge(x.op, rounds[0].wire));
      if !y.Sending? then y
      else if rounds[0].stoppedWaiting then Delivery.Settled(x.op, x.source, Delivery.Retained)
      else Through(c, y, rounds[1..])
  }

  /** The loop is the machine's single steps in a row: both end in the same outcome. */
  lemma {:induction false} LoopRefinesSteps(c: Delivery.Config, x: Delivery.Worker, rounds: seq<Round>, i: nat)
    requires x.Sending? && i < |rounds| && x.attempt == i
    requires |rounds| == (if x.source == Delivery.Live then c.retries else 0) + 1
    ensures Through(c, x, rounds[i..]) == Delivery.Settled(x.op, x.source, Deliver(x.op, |rounds| - 1, rounds, i))
    decreases |rounds| - i
  {
    var y := Delivery.AfterVerdict(c, x, Judge(x.op, rounds[i].wire));
    assert rounds[i..][0] == rounds[i] && rounds[i..][1..] == rounds[i + 1..];
    if y.Sending? {
      LoopRefinesSteps(c, y, rounds, i + 1);
    }
  }

  /* ---- what is requested of the provisioner ---- */

  function Outages(requests: seq<Recovery>): (n: nat) {
    if requests == [] then 0 else (if requests[0] == Recover then 1 else 0) + Outages(requests[1..])
  }

  lemma {:induction false} OutagesAppend(a: seq<Recovery>, r: Recovery)
    ensures Outages(a + [r]) == Outages(a) + if r == Recover then 1 else 0
  {
    if a == [] {
      assert a + [r] == [r];
    } else {
      OutagesAppend(a[1..], r);
      assert (a + [r])[1..] == a[1..] + [r];
    }
  }

  /** A recovery is requested only when an outage ends, so at most once per delivery and never while up. */
  lemma {:induction false} RecoverOncePerOutage(l: Link, op: Op, retries: nat, rounds: seq<Round>, i: nat)
    requires |rounds| == retries + 1 && i <= |rounds|
    ensures var r := LinkAfter(l, op, retries, rounds, i);
            Outages(r.requests) == Outages(l.requests) + if l.down && !r.down then 1 else 0
    decreases |rounds| - i
  {
    if i == |rounds| {
    } else {
      OutagesAppend(l.requests, Recover);
      OutagesAppend(l.requests, Reconcile);
      var next := AfterAnswer(l, op, rounds[i].wire, i == retries);
      if GoesOn(op, retries, rounds, i) {
        RecoverOncePerOutage(next, op, retries, rounds, i + 1);
      }
    }
  }

  /* ---- the replay ---- */

  /** What a replay of the listed rows leaves, from the i-th on: the spool, and the link to the remote side. */
  function Replayed(rows: seq<Row>, link: Link, listed: seq<Row>, rounds: seq<Round>, stops: seq<bool>,
                    active: set<OrderKey>, py: Python, i: nat): (r: (seq<Row>, Link))
    requires |rounds| == |stops| == |listed| && i <= |listed|
    decreases |listed| - i
  {
    if i == |listed| || stops[i] then (rows, link)
    else
      var row := listed[i];
      match Decode(row.payload, row.cls, row.key, py)
      case None => Replayed(WithoutIds(rows, {row.id}), link, listed, rounds, stops, active, py, i + 1)
      case Some(op) =>
        if OrderKeyOf(op) in active then (rows, link)
        else
          var next := LinkAfter(link, op, 0, [rounds[i]], 0);
          if Deliver(op, 0, [rounds[i]], 0) != Delivery.Finished then (rows, next)
          else Replayed(WithoutIds(rows, {row.id}), next, listed, rounds, stops, active, py, i + 1)
  }

  /** The row is dealt with: it cannot be read, or its operation is sent, rejected or expired. */
  predicate RowSettled(row: Row, round: Round, py: Python) {
    match Decode(row.payload, row.cls, row.key, py)
    case None => true
    case Some(op) => Deliver(op, 0, [round], 0) == Delivery.Finished
  }

  predicate RowBusy(row: Row, active: set<OrderKey>, py: Python) {
    match Decode(row.payload, row.cls, row.key, py)
    case None => false
    case Some(op) => OrderKeyOf(op) in active
  }

  /** Where a replay ends: at a stop, a busy interface, or the first row that has to be kept. */
  function ReplayEnd(listed: seq<Row>, rounds: seq<Round>, stops: seq<bool>, active: set<OrderKey>, py: Python, i: nat)
    : (k: nat)
    requires |rounds| == |stops| == |listed| && i <= |listed|
    ensures i <= k <= |listed|
    decreases |listed| - i
  {
    if i == |listed| || stops[i] || RowBusy(listed[i], active, py) || !RowSettled(listed[i], rounds[i], py) then i
    else ReplayEnd(listed, rounds, stops, active, py, i + 1)
  }

  lemma {:induction false} BeforeEndSettled(listed: seq<Row>, rounds: seq<Round>, stops: seq<bool>,
                                            active: set<OrderKey>, py: Python, i: nat, j: nat)
    requires |rounds| == |stops| == |listed| && i <= |listed|
    requires i <= j < ReplayEnd(listed, rounds, stops, active, py, i)
    ensures RowSettled(listed[j], rounds[j], py) && !stops[j]
    decreases |listed| - i
  {
    if j == i {
    } else {
      BeforeEndSettled(listed, rounds, stops, active, py, i + 1, j);
    }
  }

  /**
    A replay deletes a prefix of what it listed and nothing else: a row leaves the spool exactly if it is among
    the rows before the end, and each of those could not be read, or was sent, rejected or expired.
  */
  lemma {:induction false} ReplayDeletesSettledPrefix(rows: seq<Row>, link: Link, listed: seq<Row>, rounds: seq<Round>,
                                                      stops: seq<bool>, active: set<OrderKey>, py: Python, i: nat, row: Row)
    requires |rounds| == |stops| == |listed| && i <= |listed|
    ensures var k := ReplayEnd(listed, rounds, stops, active, py, i);
            row in Replayed(rows, link, listed, rounds, stops, active, py, i).0 <==>
            row in rows && forall j :: i <= j < k ==> listed[j].id != row.id
    decreases |listed| - i
  {
    if i == |listed| || stops[i] || RowBusy(listed[i], active, py) || !RowSettled(listed[i], rounds[i], py) {
    } else {
      var fewer := WithoutIds(rows, {listed[i].id});
      var op := Decode(listed[i].payload, listed[i].cls, listed[i].key, py);
      var next := if op.None? then link else LinkAfter(link, op.value, 0, [rounds[i]], 0);
      ReplayDeletesSettledPrefix(fewer, next, listed, rounds, stops, active, py, i + 1, row);
      WithoutIdsHas(rows, {listed[i].id}, row);
    }
  }

  /**
    The spool after the terminal ones of the given operations are stored one after the other, each with its
    size in bytes, up to the first that cannot be encoded.
  */
  function AllSpooled(rows: seq<Row>, nextId: nat, b: Bounds, ops: seq<Op>, size: Op -> nat, ts: real): (r: seq<Row>)
    decreases |ops|
  {
    if ops == [] then rows
    else if ops[0].queueClass != Terminal then AllSpooled(rows, nextId, b, ops[1..], size, ts)
    else if Encode(ops[0]).None? then rows
    else
      var row := Delivery.RowOf(ops[0], nextId, size(ops[0]), ts);
      AllSpooled(Inserted(rows, row, b), nextId + 1, b, ops[1..], size, ts)
  }

  predicate Unstorable(op: Op) {
    op.queueClass == Terminal && Encode(op).None?
  }

  /** The first operation on which the final persist raises, the length if there is none. */
  function FirstUnstorable(ops: seq<Op>): (n: nat)
    ensures n <= |ops| && (n < |ops| ==> Unstorable(ops[n]))
  {
    if ops == [] || Unstorable(ops[0]) then 0 else 1 + FirstUnstorable(ops[1..])
  }

  lemma {:induction false} BeforeUnstorable(ops: seq<Op>, i: nat)
    requires i < FirstUnstorable(ops)
    ensures !Unstorable(ops[i])
  {
    if i == 0 {
    } else {
      BeforeUnstorable(ops[1..], i - 1);
    }
  }

  lemma SpoolFirst(rows: seq<Row>, nextId: nat, b: Bounds, ops: seq<Op>, size: Op -> nat, ts: real)
    requires ops != [] && ops[0].queueClass == Terminal && Encode(ops[0]).Some?
    ensures AllSpooled(rows, nextId, b, ops, size, ts)
            == AllSpooled(Inserted(rows, Delivery.RowOf(ops[0], nextId, size(ops[0]), ts), b), nextId + 1, b, ops[1..],
                          size, ts)
  {
  }

  function RowsOf(nextId: nat, ops: seq<Op>, size: Op -> nat, ts: real): (rows: seq<Row>)
    requires forall i :: 0 <= i < |ops| ==> !Unstorable(ops[i])
    decreases |ops|
  {
    if ops == [] then []
    else if ops[0].queueClass != Terminal then RowsOf(nextId, ops[1..], size, ts)
    else
      assert !Unstorable(ops[0]);
      [Delivery.RowOf(ops[0], nextId, size(ops[0]), ts)] + RowsOf(nextId + 1, ops[1..], size, ts)
  }

  /** If the bounds allow it, persisting adds one row per terminal operation, in their order, and evicts none. */
  lemma {:induction false} PersistKeepsOrder(rows: seq<Row>, nextId: nat, b: Bounds, ops: seq<Op>, size: Op -> nat,
                                             ts: real)
    requires forall i :: 0 <= i < |ops| ==> !Unstorable(ops[i])
    requires Fits(rows + RowsOf(nextId, ops, size, ts), b)
    ensures AllSpooled(rows, nextId, b, ops, size, ts) == rows + RowsOf(nextId, ops, size, ts)
    decreases |ops|
  {
    var added := RowsOf(nextId, ops, size, ts);
    if ops == [] {
      assert rows + added == rows;
    } else if ops[0].queueClass != Terminal {
      PersistKeepsOrder(rows, nextId, b, ops[1..], size, ts);
    } else {
      var row, rest := added[0], RowsOf(nextId + 1, ops[1..], size, ts);
      assert rows + added == (rows + [row]) + rest;
      BytesAppend(rows + [row], rest);
      assert Fits(rows + [row], b);
      assert Inserted(rows, row, b) == rows + [row];
      SpoolFirst(rows, nextId, b, ops, size, ts);
      PersistKeepsOrder(rows + [row], nextId + 1, b, ops[1..], size, ts);
    }
  }

  /** The queued operations in the order in which get hands them out. */
  function Waiting(q: Queue): (ops: seq<Op>) {
    q.terminal + seq(|q.latest|, i requires 0 <= i < |q.latest| => q.latest[i].op) + q.bulk
  }

  lemma HeadIsFirst(q: Queue)
    ensures Head(q).None? <==> Waiting(q) == []
    ensures Head(q).Some? ==>
              Waiting(q) == [Head(q).value.op] + Waiting(Head(q).value.rest) && Head(q).value.rest.active == q.active
  {
    if Head(q).Some? {
      var t := Head(q).value;
      assert Waiting(q)[0] == t.op;
      assert Waiting(q)[1..] == Waiting(t.rest);
    }
  }

  /* ---- the processor ---- */

  class OutboundProcessor {
    const queue: OutboundQueue
    const spool: SpoolStore
    const python: Python
    var spoolPending: bool
    var link: Link

    ghost predicate Valid()
      reads this, queue, spool
    {
      queue.Valid() && spool.Valid()
    }

    constructor (queue: OutboundQueue, spool: SpoolStore, python: Python)
      requires queue.Valid() && spool.Valid()
      ensures Valid() && this.queue == queue && this.spool == spool && this.python == python
      ensures spoolPending == (spool.rows != []) && link == Link(false, [], [])
    {
      this.queue, this.spool, this.python := queue, spool, python;
      spoolPending, link := spool.rows != [], Link(false, [], []);
    }

    /** _spool_op: false where the operation cannot be written as JSON, which raises before anything is stored. */
    method SpoolOp(op: Op, nbytes: nat, ts: real) returns (ok: bool)
      requires Valid()
      modifies this`spoolPending, spool
      ensures Valid() && ok == Encode(op).Some?
      ensures ok ==> spoolPending && spool.nextId == old(spool.nextId) + 1
      ensures ok ==>
                spool.rows == Inserted(old(spool.rows), Delivery.RowOf(op, old(spool.nextId), nbytes, ts), spool.bounds)
      ensures !ok ==>
                spool.rows == old(spool.rows) && spool.nextId == old(spool.nextId) && spoolPending == old(spoolPending)
    {
      var payload := Encode(op);
      if payload.None? {
        return false;
      }
      var key := JoinKey(Delivery.NameOf(op.robot), Delivery.NameOf(op.iface), Delivery.NameOf(op.view));
      var dropped := spool.Put(op.queueClass, Some(key), payload.value, nbytes, ts);
      spoolPending := true;
      return true;
    }

    /** put_terminal: the queue, or the spool when the terminal lane is full. */
    method PutTerminal(op: Op, nbytes: nat, ts: real) returns (ok: bool)
      requires Valid()
      modifies this`spoolPending, queue, spool
      ensures Valid() && queue.State() == OutboundQueues.PutTerminal(old(queue.State()), queue.limits, op).1
      ensures |old(queue.terminal)| < queue.limits.terminal ==>
                ok && spool.rows == old(spool.rows) && queue.terminal == old(queue.terminal) + [op]
      ensures |old(queue.terminal)| >= queue.limits.terminal ==> ok == Encode(op).Some?
      ensures |old(queue.terminal)| >= queue.limits.terminal && ok ==>
                spoolPending
                && spool.rows
                   == Inserted(old(spool.rows), Delivery.RowOf(op, old(spool.nextId), nbytes, ts), spool.bounds)
    {
      var put := queue.Enqueue(op, Terminal, None);
      if put == Stored {
        return true;
      }
      ok := SpoolOp(op, nbytes, ts);
    }

    /** _deliver: the retry loop against the answers that come. */
    method DeliverOp(op: Op, retries: nat, rounds: seq<Round>) returns (r: Delivery.Outcome)
      requires |rounds| == retries + 1
      modifies this`link
      ensures r == Deliver(op, retries, rounds, 0)
      ensures link == LinkAfter(old(link), op, retries, rounds, 0)
    {
      for attempt := 0 to retries + 1
        invariant Deliver(op, retries, rounds, 0) == Deliver(op, retries, rounds, attempt)
        invariant LinkAfter(old(link), op, retries, rounds, 0) == LinkAfter(link, op, retries, rounds, attempt)
      {
        var round := rounds[attempt];
        if round.stopped {
          return Delivery.Retained;
        }
        if Delivery.Expired(op, round.now) {
          return Delivery.Finished;
        }
        var verdict := Judge(op, round.wire);
        link := AfterAnswer(link, op, round.wire, attempt == retries);
        match verdict {
          case Delivered => return Delivery.Finished;
          case Rejected => return Delivery.Finished;
          case Keep => return Delivery.Retained;
          case Raises => return Delivery.Raised;
          case Again =>
        }
        if attempt == retries || round.stoppedWaiting {
          return Delivery.Retained;
        }
      }
      return Delivery.Retained;
    }

    /**
      One claim of a worker: a retained terminal operation is back in the spool, unless it cannot be encoded, and
      the claim is given back whatever happened.
    */
    method WorkOnce(retries: nat, rounds: seq<Round>, nbytes: nat, ts: real) returns (done: bool)
      requires Valid() && |rounds| == retries + 1
      modifies this, queue, spool
      ensures Valid() && queue.activeKeys == old(queue.activeKeys)
      ensures match Pop(old(queue.State()))
              case None =>
                !done && queue.State() == old(queue.State()) && spool.rows == old(spool.rows) && link == old(link)
              case Some(t) =>
                && done && queue.State() == t.rest && link == LinkAfter(old(link), t.op, retries, rounds, 0)
                && (if Deliver(t.op, retries, rounds, 0) == Delivery.Retained && t.op.queueClass == Terminal
                       && Encode(t.op).Some? then
                      spoolPending && spool.rows
                      == Inserted(old(spool.rows), Delivery.RowOf(t.op, old(spool.nextId), nbytes, ts), spool.bounds)
                    else spool.rows == old(spool.rows) && spoolPending == old(spoolPending))
    {
      ClaimOrder(queue.State());
      var op := queue.Claim();
      if op.None? {
        return false;
      }
      var outcome := DeliverOp(op.value, retries, rounds);
      if outcome == Delivery.Retained && op.value.queueClass == Terminal {
        var ok := SpoolOp(op.value, nbytes, ts);
      }
      queue.Release(op.value);
      return true;
    }

    method ListForReplay() returns (listed: seq<Row>)
      requires Valid()
      ensures listed == Limited(spool.rows, Delivery.SWEEP)
    {
      listed := spool.Oldest(Delivery.SWEEP, None);
    }

    /** _drain_spool: at most 20 rows, oldest first, until one cannot be claimed or delivered. */
    method DrainSpool(rounds: seq<Round>, stops: seq<bool>)
      requires Valid()
      requires |rounds| == |stops| == |Limited(spool.rows, Delivery.SWEEP)|
      modifies this, queue, spool`rows
      ensures Valid() && queue.State() == old(queue.State())
      ensures (spool.rows, link) == Replayed(old(spool.rows), old(link), Limited(old(spool.rows), Delivery.SWEEP),
                                             rounds, stops, old(queue.activeKeys), python, 0)
      ensures spoolPending == (old(spoolPending) || spool.rows != [])
    {
      var listed := ListForReplay();
      var i := 0;
      while i < |listed|
        invariant i <= |listed| && Valid() && queue.State() == old(queue.State())
        invariant spoolPending == old(spoolPending)
        invariant Replayed(old(spool.rows), old(link), listed, rounds, stops, old(queue.activeKeys), python, 0)
               == Replayed(spool.rows, link, listed, rounds, stops, old(queue.activeKeys), python, i)
      {
        if stops[i] {
          break;
        }
        var row := listed[i];
        var op := Decode(row.payload, row.cls, row.key, python);
        if op.None? {
          var n := spool.Delete({row.id});
        } else {
          var claimed := queue.TryClaim(op.value);
          if !claimed {
            break;
          }
          var outcome := DeliverOp(op.value, 0, [rounds[i]]);
          queue.Release(op.value);
          if outcome != Delivery.Finished {
            break;
          }
          var n := spool.Delete({row.id});
        }
        i := i + 1;
      }
      if spool.rows != [] {
        spoolPending := true;
      }
    }

    /** What the spool will hold once what waits is stored. */
    function Goal(size: Op -> nat, ts: real): (rows: seq<Row>)
      reads this, queue, spool
    {
      AllSpooled(spool.rows, spool.nextId, spool.bounds, Waiting(queue.State()), size, ts)
    }

    /**
      One turn of persist_pending: the head of the queue goes to the spool if it is terminal, else nowhere. An
      operation that cannot be encoded raises (ok is false), and is gone from the queue.
    */
    method PersistOne(size: Op -> nat, ts: real) returns (more: bool, ok: bool)
      requires Valid()
      modifies this, queue, spool
      ensures Valid() && queue.activeKeys == old(queue.activeKeys)
      ensures var ops := Waiting(old(queue.State()));
              && more == (ops != [])
              && Waiting(queue.State()) == (if more then ops[1..] else [])
              && ok == !(more && Unstorable(ops[0]))
      ensures if ok then Goal(size, ts) == old(Goal(size, ts)) else spool.rows == old(Goal(size, ts))
    {
      ghost var q, rows, id := queue.State(), spool.rows, spool.nextId;
      ghost var ops := Waiting(q);
      var op := queue.GetNowait();
      if op.None? {
        assert ops == [] && Waiting(queue.State()) == [] by { HeadIsFirst(q); }
        return false, true;
      }
      assert ops != [] && op.value == ops[0] && Waiting(queue.State()) == ops[1..] && queue.activeKeys == q.active by {
        HeadIsFirst(q);
      }
      ok := true;
      if op.value.queueClass == Terminal {
        ok := SpoolOp(op.value, size(op.value), ts);
        if ok {
          SpoolFirst(rows, id, spool.bounds, ops, size, ts);
        }
      }
      return true, ok;
    }

    /**
      persist_pending, after every other thread has ended: what is terminal goes to the spool, in the order of
      the queue, and the queue is empty; an operation that cannot be encoded raises and leaves those behind it.
    */
    method PersistPending(size: Op -> nat, ts: real) returns (ok: bool)
      requires Valid()
      modifies this, queue, spool
      ensures Valid() && queue.activeKeys == old(queue.activeKeys)
      ensures var ops := Waiting(old(queue.State()));
              && ok == (FirstUnstorable(ops) == |ops|)
              && Waiting(queue.State()) == (if ok then [] else ops[FirstUnstorable(ops) + 1..])
              && spool.rows == AllSpooled(old(spool.rows), old(spool.nextId), spool.bounds, ops, size, ts)
    {
      ghost var ops, n := Waiting(queue.State()), 0;
      assert ops[0..] == ops;
      var more := true;
      while more
        invariant Valid() && queue.activeKeys == old(queue.activeKeys)
        invariant n <= |ops| && Waiting(queue.State()) == ops[n..]
        invariant FirstUnstorable(ops) == n + FirstUnstorable(ops[n..])
        invariant !more ==> n == |ops|
        invariant Goal(size, ts) == old(Goal(size, ts))
        decreases more, |ops| - n
      {
        assert n < |ops| ==> ops[n..][0] == ops[n] && ops[n..][1..] == ops[n + 1..];
        more, ok := PersistOne(size, ts);
        if !ok {
          return false;
        }
        if more {
          n := n + 1;
        }
      }
      return true;
    }
  }
}
