/**
  The bounded outbound queue: three classes, coalescing of observations, and claims that keep two
  operations of one interface from being in flight together.
*/
module OutboundQueues {
  import opened Wrappers
  import opened Operations

  datatype Limits = Limits(terminal: nat, latest: nat, bulk: nat)

  datatype Entry = Entry(key: LatestKey, op: Op)

  /** The latest lane is in insertion order and holds a key once. */
  datatype Queue = Queue(
    terminal: seq<Op>,
    latest: seq<Entry>,
    bulk: seq<Op>,
    active: set<OrderKey>,
    droppedLatest: nat,
    droppedBulk: nat)

  const EMPTY := Queue([], [], [], {}, 0, 0)

  datatype Put = Stored | Full | NoKey

  function Remove<T>(s: seq<T>, i: nat): (r: seq<T>)
    requires i < |s|
    ensures |r| == |s| - 1
  {
    s[..i] + s[i + 1..]
  }

  /** Position of a key in the latest lane, its length if the key is not there. */
  function Position(latest: seq<Entry>, key: LatestKey): (i: nat)
    ensures i <= |latest|
    ensures i < |latest| ==> latest[i].key == key
    ensures forall j :: 0 <= j < i ==> latest[j].key != key
  {
    if latest == [] || latest[0].key == key then 0 else 1 + Position(latest[1..], key)
  }

  function PutTerminal(q: Queue, lim: Limits, op: Op): (r: (Put, Queue)) {
    if |q.terminal| >= lim.terminal then (Full, q) else (Stored, q.(terminal := q.terminal + [op]))
  }

  function PutLatest(q: Queue, lim: Limits, op: Op, key: Option<LatestKey>): (r: (Put, Queue)) {
    var k := if key.Some? then key else LatestKeyOf(op);
    if k.None? then (NoKey, q) else (Stored, Coalesce(q, lim, op, k.value))
  }

  /** A present key keeps its place and takes the new operation; a new key may push the oldest one out. */
  function Coalesce(q: Queue, lim: Limits, op: Op, key: LatestKey): (r: Queue) {
    var i := Position(q.latest, key);
    if i < |q.latest| then q.(latest := q.latest[i := Entry(key, op)])
    else if |q.latest| >= lim.latest && q.latest != [] then
      q.(latest := q.latest[1..] + [Entry(key, op)], droppedLatest := q.droppedLatest + 1)
    else q.(latest := q.latest + [Entry(key, op)])
  }

  function PutBulk(q: Queue, lim: Limits, op: Op): (r: (Put, Queue)) {
    if |q.bulk| >= lim.bulk && q.bulk != [] then
      (Stored, q.(bulk := q.bulk[1..] + [op], droppedBulk := q.droppedBulk + 1))
    else (Stored, q.(bulk := q.bulk + [op]))
  }

  function PutOp(q: Queue, lim: Limits, op: Op, cls: QueueClass, key: Option<LatestKey>): (r: (Put, Queue)) {
    match cls
    case Terminal => PutTerminal(q, lim, op)
    case Latest => PutLatest(q, lim, op, key)
    case Bulk => PutBulk(q, lim, op)
  }

  /** First operation whose interface is not in flight, the length if all are. */
  function FirstFree(ops: seq<Op>, active: set<OrderKey>): (i: nat)
    ensures i <= |ops|
    ensures i < |ops| ==> OrderKeyOf(ops[i]) !in active
    ensures forall j :: 0 <= j < i ==> OrderKeyOf(ops[j]) in active
  {
    if ops == [] || OrderKeyOf(ops[0]) !in active then 0 else 1 + FirstFree(ops[1..], active)
  }

  function FirstFreeEntry(latest: seq<Entry>, active: set<OrderKey>): (i: nat)
    ensures i <= |latest|
    ensures i < |latest| ==> OrderKeyOf(latest[i].op) !in active
    ensures forall j :: 0 <= j < i ==> OrderKeyOf(latest[j].op) in active
  {
    if latest == [] || OrderKeyOf(latest[0].op) !in active then 0 else 1 + FirstFreeEntry(latest[1..], active)
  }

  /** What leaves the queue: from which lane, from which place in it. */
  datatype Taken = Taken(op: Op, lane: QueueClass, index: nat, rest: Queue)

  function TakeTerminal(q: Queue, i: nat): (t: Taken)
    requires i < |q.terminal|
  {
    Taken(q.terminal[i], Terminal, i, q.(terminal := Remove(q.terminal, i)))
  }

  function TakeLatest(q: Queue, i: nat): (t: Taken)
    requires i < |q.latest|
  {
    Taken(q.latest[i].op, Latest, i, q.(latest := Remove(q.latest, i)))
  }

  function TakeBulk(q: Queue, i: nat): (t: Taken)
    requires i < |q.bulk|
  {
    Taken(q.bulk[i], Bulk, i, q.(bulk := Remove(q.bulk, i)))
  }

  /** _pop_claimable. */
  function Pop(q: Queue): (t: Option<Taken>) {
    var i := FirstFree(q.terminal, q.active);
    if i < |q.terminal| then Some(TakeTerminal(q, i))
    else
      var j := FirstFreeEntry(q.latest, q.active);
      if j < |q.latest| then Some(TakeLatest(q, j))
      else
        var k := FirstFree(q.bulk, q.active);
        if k < |q.bulk| then Some(TakeBulk(q, k)) else None
  }

  /** get: the oldest of the highest class, whatever is in flight. */
  function Head(q: Queue): (t: Option<Taken>) {
    if q.terminal != [] then Some(TakeTerminal(q, 0))
    else if q.latest != [] then Some(TakeLatest(q, 0))
    else if q.bulk != [] then Some(TakeBulk(q, 0))
    else None
  }

  function Lock(q: Queue, op: Op): (r: Queue) {
    q.(active := q.active + {OrderKeyOf(op)})
  }

  function Unlock(q: Queue, op: Op): (r: Queue) {
    q.(active := q.active - {OrderKeyOf(op)})
  }

  /**
    A claim takes the first unblocked operation of the highest class that has one, and nothing is taken
    exactly when the interface of every queued operation is in flight.
  */
  lemma ClaimOrder(q: Queue)
    ensures Pop(q).None? <==>
            && (forall op :: op in q.terminal || op in q.bulk ==> OrderKeyOf(op) in q.active)
            && (forall e :: e in q.latest ==> OrderKeyOf(e.op) in q.active)
    ensures Pop(q).Some? ==>
              var t := Pop(q).value;
              && OrderKeyOf(t.op) !in q.active && t.rest.active == q.active
              && (t.lane != Terminal ==> forall op :: op in q.terminal ==> OrderKeyOf(op) in q.active)
              && (t.lane == Bulk ==> forall e :: e in q.latest ==> OrderKeyOf(e.op) in q.active)
    ensures Pop(q).Some? ==>
              var t := Pop(q).value;
              match t.lane
              case Terminal =>
                t.index < |q.terminal| && t.op == q.terminal[t.index]
                && forall j :: 0 <= j < t.index ==> OrderKeyOf(q.terminal[j]) in q.active
              case Latest =>
                t.index < |q.latest| && t.op == q.latest[t.index].op
                && forall j :: 0 <= j < t.index ==> OrderKeyOf(q.latest[j].op) in q.active
              case Bulk =>
                t.index < |q.bulk| && t.op == q.bulk[t.index]
                && forall j :: 0 <= j < t.index ==> OrderKeyOf(q.bulk[j]) in q.active
  {
  }

  predicate Queued(q: Queue, op: Op) {
    op in q.terminal || op in q.bulk || exists e :: e in q.latest && e.op == op
  }

  /** A claim finds an operation exactly if some queued one is not blocked, and answers such a one. */
  lemma PopFindsOpen(q: Queue)
    ensures Pop(q).Some? <==> exists op :: Queued(q, op) && OrderKeyOf(op) !in q.active
    ensures Pop(q).Some? ==> Queued(q, Pop(q).value.op) && OrderKeyOf(Pop(q).value.op) !in q.active
  {
    ClaimOrder(q);
    if Pop(q).Some? && Pop(q).value.lane == Latest {
      assert q.latest[Pop(q).value.index] in q.latest;
    }
  }

  /* ---- the queue as the bridge keeps it ---- */

  class OutboundQueue {
    const limits: Limits
    var terminal: seq<Op>
    var latest: seq<Entry>
    var bulk: seq<Op>
    var activeKeys: set<OrderKey>
    var droppedLatest: nat
    var droppedBulk: nat

    function State(): (q: Queue)
      reads this
    {
      Queue(terminal, latest, bulk, activeKeys, droppedLatest, droppedBulk)
    }

    ghost predicate Valid() {
      limits.terminal >= 1 && limits.latest >= 1 && limits.bulk >= 1
    }

    constructor (maxsize: nat, terminalMax: Option<nat>, bulkMax: Option<nat>)
      requires maxsize >= 1 && terminalMax != Some(0) && bulkMax != Some(0)
      ensures Valid() && State() == EMPTY
      ensures limits == Limits(if terminalMax.Some? then terminalMax.value else maxsize, maxsize,
                               if bulkMax.Some? then bulkMax.value else maxsize)
    {
      limits := Limits(if terminalMax.Some? then terminalMax.value else maxsize, maxsize,
                       if bulkMax.Some? then bulkMax.value else maxsize);
      terminal, latest, bulk, activeKeys, droppedLatest, droppedBulk := [], [], [], {}, 0, 0;
    }

    method Enqueue(op: Op, cls: QueueClass, key: Option<LatestKey>) returns (r: Put)
      requires Valid()
      modifies this
      ensures (r, State()) == PutOp(old(State()), limits, op, cls, key)
    {
      match cls {
        case Terminal =>
          if |terminal| >= limits.terminal {
            return Full;
          }
          terminal := terminal + [op];
        case Latest =>
          var k := if key.Some? then key else LatestKeyOf(op);
          if k.None? {
            return NoKey;
          }
          var i := Position(latest, k.value);
          if i < |latest| {
            latest := latest[i := Entry(k.value, op)];
          } else {
            if |latest| >= limits.latest {
              latest := latest[1..];
              droppedLatest := droppedLatest + 1;
            }
            latest := latest + [Entry(k.value, op)];
          }
        case Bulk =>
          if |bulk| >= limits.bulk {
            bulk := bulk[1..];
            droppedBulk := droppedBulk + 1;
          }
          bulk := bulk + [op];
      }
      return Stored;
    }

    /** get with no time left: None is queue.Empty. */
    method GetNowait() returns (r: Option<Op>)
      modifies this
      ensures match Head(old(State()))
              case None => r == None && State() == old(State())
              case Some(t) => r == Some(t.op) && State() == t.rest
    {
      r := None;
      if terminal != [] {
        r := Some(terminal[0]);
        terminal := Remove(terminal, 0);
      } else if latest != [] {
        r := Some(latest[0].op);
        latest := Remove(latest, 0);
      } else if bulk != [] {
        r := Some(bulk[0]);
        bulk := Remove(bulk, 0);
      }
    }

    method PopClaimable() returns (r: Option<Op>)
      modifies this
      ensures match Pop(old(State()))
              case None => r == None && State() == old(State())
              case Some(t) => r == Some(t.op) && State() == t.rest
    {
      var n := 0;
      while n < |terminal|
        invariant n <= |terminal| && State() == old(State())
        invariant forall j :: 0 <= j < n ==> OrderKeyOf(terminal[j]) in activeKeys
      {
        if OrderKeyOf(terminal[n]) !in activeKeys {
          var op := terminal[n];
          terminal := Remove(terminal, n);
          return Some(op);
        }
        n := n + 1;
      }
      n := 0;
      while n < |latest|
        invariant n <= |latest| && State() == old(State())
        invariant forall j :: 0 <= j < n ==> OrderKeyOf(latest[j].op) in activeKeys
      {
        if OrderKeyOf(latest[n].op) !in activeKeys {
          var op := latest[n].op;
          latest := Remove(latest, n);
          return Some(op);
        }
        n := n + 1;
      }
      n := 0;
      while n < |bulk|
        invariant n <= |bulk| && State() == old(State())
        invariant forall j :: 0 <= j < n ==> OrderKeyOf(bulk[j]) in activeKeys
      {
        if OrderKeyOf(bulk[n]) !in activeKeys {
          var op := bulk[n];
          bulk := Remove(bulk, n);
          return Some(op);
        }
        n := n + 1;
      }
      return None;
    }

    /** One try of claim: None is what it answers once its time is up. */
    method Claim() returns (r: Option<Op>)
      modifies this
      ensures match Pop(old(State()))
              case None => r == None && State() == old(State())
              case Some(t) => r == Some(t.op) && State() == Lock(t.rest, t.op)
    {
      r := PopClaimable();
      if r.Some? {
        activeKeys := activeKeys + {OrderKeyOf(r.value)};
      }
    }

    method TryClaim(op: Op) returns (ok: bool)
      modifies this
      ensures ok <==> OrderKeyOf(op) !in old(activeKeys)
      ensures State() == if ok then Lock(old(State()), op) else old(State())
    {
      var key := OrderKeyOf(op);
      if key in activeKeys {
        return false;
      }
      activeKeys := activeKeys + {key};
      return true;
    }

    method Release(op: Op)
      modifies this
      ensures State() == Unlock(old(State()), op)
    {
      activeKeys := activeKeys - {OrderKeyOf(op)};
    }
  }
}
