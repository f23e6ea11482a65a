/** Two operations of one interface are never in flight together: the active keys are the claims held. */
module DeliveryLocks {
  import opened Wrappers
  import opened Operations
  import opened Client
  import opened OutboundQueues
  import opened Delivery

  /** The claim a worker holds. */
  function Key(x: Worker): (k: Option<OrderKey>) {
    if x.Sending? || x.Settled? || x.Waking? || x.Leaving? then Some(OrderKeyOf(x.op)) else None
  }

  ghost predicate Holds(ws: seq<Worker>, k: OrderKey) {
    exists i :: 0 <= i < |ws| && Key(ws[i]) == Some(k)
  }

  ghost predicate Apart(ws: seq<Worker>) {
    forall i, j :: 0 <= i < j < |ws| && Key(ws[i]).Some? ==> Key(ws[i]) != Key(ws[j])
  }

  /** The active keys are the image, without repetition, of the operations held. */
  ghost predicate Locked(s: State) {
    && Apart(s.workers)
    && forall k :: k in s.queue.active <==> Holds(s.workers, k)
  }

  /** A step that keeps the worker's claim. */
  lemma Same(s: State, w: nat, x: Worker, k: OrderKey)
    requires Locked(s) && w < |s.workers| && Key(x) == Key(s.workers[w])
    ensures Apart(s.workers[w := x])
    ensures k in s.queue.active <==> Holds(s.workers[w := x], k)
  {
    var ws, next := s.workers, s.workers[w := x];
    assert forall i :: 0 <= i < |ws| ==> Key(next[i]) == Key(ws[i]);
    if Holds(ws, k) {
      var i :| 0 <= i < |ws| && Key(ws[i]) == Some(k);
      assert Key(next[i]) == Some(k);
    }
    if Holds(next, k) {
      var i :| 0 <= i < |ws| && Key(next[i]) == Some(k);
      assert Key(ws[i]) == Some(k);
    }
  }

  /** A step that takes a claim nobody holds. */
  lemma Taken(s: State, w: nat, x: Worker, k: OrderKey)
    requires Locked(s) && w < |s.workers| && Key(s.workers[w]).None?
    requires Key(x).Some? && Key(x).value !in s.queue.active
    ensures Apart(s.workers[w := x])
    ensures k in s.queue.active + {Key(x).value} <==> Holds(s.workers[w := x], k)
  {
    var ws, next := s.workers, s.workers[w := x];
    assert !Holds(ws, Key(x).value);
    assert forall i :: 0 <= i < |ws| ==> Key(next[i]) == if i == w then Key(x) else Key(ws[i]);
    assert Key(next[w]) == Key(x);
    if Holds(ws, k) {
      var i :| 0 <= i < |ws| && Key(ws[i]) == Some(k);
      assert Key(next[i]) == Some(k);
    }
    if Holds(next, k) && k != Key(x).value {
      var i :| 0 <= i < |ws| && Key(next[i]) == Some(k);
      assert Key(ws[i]) == Some(k);
    }
  }

  /** A step that gives a claim back. */
  lemma Given(s: State, w: nat, x: Worker, k: OrderKey)
    requires Locked(s) && w < |s.workers| && Key(s.workers[w]).Some? && Key(x).None?
    ensures Apart(s.workers[w := x])
    ensures k in s.queue.active - {Key(s.workers[w]).value} <==> Holds(s.workers[w := x], k)
  {
    var ws, next := s.workers, s.workers[w := x];
    assert forall i :: 0 <= i < |ws| ==> Key(next[i]) == if i == w then None else Key(ws[i]);
    if Holds(ws, k) && k != Key(ws[w]).value {
      var i :| 0 <= i < |ws| && Key(ws[i]) == Some(k);
      assert Key(next[i]) == Some(k);
    }
    if Holds(next, k) {
      var i :| 0 <= i < |ws| && Key(next[i]) == Some(k);
      assert Key(ws[i]) == Some(k) && i != w;
      assert Holds(ws, k);
    }
  }

  /** The worker an action moves, and where it leaves it. */
  ghost predicate Moves(s: State, t: State, w: nat) {
    && w < |s.workers| && |t.workers| == |s.workers|
    && t.workers == s.workers[w := t.workers[w]]
  }

  lemma LockedSame(s: State, t: State, w: nat)
    requires Locked(s) && Moves(s, t, w) && t.queue.active == s.queue.active
    requires Key(t.workers[w]) == Key(s.workers[w])
    ensures Locked(t)
  {
    Same(s, w, t.workers[w], Global);
    forall k ensures k in t.queue.active <==> Holds(t.workers, k) {
      Same(s, w, t.workers[w], k);
    }
  }

  lemma LockedTaken(s: State, t: State, w: nat, key: OrderKey)
    requires Locked(s) && Moves(s, t, w) && t.queue.active == s.queue.active + {key} && key !in s.queue.active
    requires Key(s.workers[w]).None? && Key(t.workers[w]) == Some(key)
    ensures Locked(t)
  {
    Taken(s, w, t.workers[w], Global);
    forall k ensures k in t.queue.active <==> Holds(t.workers, k) {
      Taken(s, w, t.workers[w], k);
    }
  }

  lemma LockedGiven(s: State, t: State, w: nat)
    requires Locked(s) && Moves(s, t, w) && Key(s.workers[w]).Some? && Key(t.workers[w]).None?
    requires t.queue.active == s.queue.active - {Key(s.workers[w]).value}
    ensures Locked(t)
  {
    Given(s, w, t.workers[w], Global);
    forall k ensures k in t.queue.active <==> Holds(t.workers, k) {
      Given(s, w, t.workers[w], k);
    }
  }

  lemma ClaimLocks(s: State, w: nat)
    requires Locked(s) && w < |s.workers| && s.workers[w] == Idle && Pop(s.queue).Some?
    ensures Locked(AfterClaim(s, w))
  {
    ClaimOrder(s.queue);
    LockedTaken(s, AfterClaim(s, w), w, OrderKeyOf(Pop(s.queue).value.op));
  }

  lemma NextRowLocks(c: Config, s: State)
    requires Locked(s) && At(s, 0).Sweeping?
    ensures Locked(AfterNextRow(c, s))
  {
    var t := AfterNextRow(c, s);
    if t.workers[0].Sending? {
      LockedTaken(s, t, 0, OrderKeyOf(t.workers[0].op));
    } else {
      LockedSame(s, t, 0);
    }
  }

  /** No step of a worker changes its claim, but a release. */
  lemma KeyMoves(c: Config, s: State, w: nat, move: Move)
    requires w < |s.workers| && CanMove(s, w, move)
    ensures Key(Moved(c, s, w, move)) == if move.Release? then None else Key(s.workers[w])
    ensures move.Release? ==> Key(s.workers[w]) == Some(OrderKeyOf(s.workers[w].op))
  {
  }

  lemma MoveLocks(c: Config, s: State, w: nat, move: Move)
    requires Locked(s) && w < |s.workers| && CanMove(s, w, move)
    ensures Locked(AfterStep(c, s, w, move))
  {
    KeyMoves(c, s, w, move);
    if move.Release? {
      LockedGiven(s, AfterStep(c, s, w, move), w);
    } else {
      LockedSame(s, AfterStep(c, s, w, move), w);
    }
  }

  lemma ConcludeLocks(c: Config, s: State, w: nat, nbytes: nat, ts: real)
    requires Locked(s) && Enabled(c, s, Conclude(w, nbytes, ts))
    ensures Locked(AfterConclude(c, s, w, nbytes, ts))
  {
    LockedSame(s, AfterConclude(c, s, w, nbytes, ts), w);
  }

  lemma LockedQueue(s: State, t: State)
    requires Locked(s) && t.queue.active == s.queue.active && t.workers == s.workers
    ensures Locked(t)
  {
  }

  lemma StepLocks(c: Config, s: State, a: Action)
    requires Locked(s) && Enabled(c, s, a)
    ensures Locked(Apply(c, s, a))
  {
    match a
    case Claim(w) => ClaimLocks(s, w);
    case NextRow => NextRowLocks(c, s);
    case Conclude(w, nbytes, ts) => ConcludeLocks(c, s, w, nbytes, ts);
    case Step(w, move) => MoveLocks(c, s, w, move);
    case _ => LockedQueue(s, Apply(c, s, a));
  }

  lemma {:induction false} RunLocks(c: Config, s: State, acts: seq<Action>)
    requires Legal(c, s, acts) && Locked(s)
    ensures Locked(End(c, s, acts))
    decreases |acts|
  {
    if acts == [] {
    } else {
      StepLocks(c, s, acts[0]);
      RunLocks(c, Apply(c, s, acts[0]), acts[1..]);
    }
  }

  /* ---- in terms of robots and interfaces ---- */

  /** The operation a worker has in flight, claimed from the queue or from the spool. */
  function InFlight(x: Worker): (op: Option<Op>) {
    if x.Sending? || x.Settled? || x.Waking? || x.Leaving? then Some(x.op) else None
  }

  /** No worker has an operation of the same robot and interface in flight. */
  ghost predicate Free(ws: seq<Worker>, op: Op) {
    forall w :: 0 <= w < |ws| && InFlight(ws[w]).Some? ==> !SameInterface(op, InFlight(ws[w]).value)
  }

  lemma ActiveIffNotFree(s: State, op: Op)
    requires Locked(s)
    ensures OrderKeyOf(op) in s.queue.active <==> !Free(s.workers, op)
  {
    var ws := s.workers;
    forall w | 0 <= w < |ws| && InFlight(ws[w]).Some?
      ensures Key(ws[w]) == Some(OrderKeyOf(op)) <==> SameInterface(op, InFlight(ws[w]).value)
    {
      SameKeyIff(op, InFlight(ws[w]).value);
    }
    if Holds(ws, OrderKeyOf(op)) {
      var w :| 0 <= w < |ws| && Key(ws[w]) == Some(OrderKeyOf(op));
      assert SameInterface(op, InFlight(ws[w]).value);
    }
    if !Free(ws, op) {
      var w :| 0 <= w < |ws| && InFlight(ws[w]).Some? && SameInterface(op, InFlight(ws[w]).value);
      assert Key(ws[w]) == Some(OrderKeyOf(op));
    }
  }

  lemma PopIffFree(s: State)
    requires Locked(s)
    ensures Pop(s.queue).Some? <==> exists op :: Queued(s.queue, op) && Free(s.workers, op)
    ensures Pop(s.queue).Some? ==>
              Queued(s.queue, Pop(s.queue).value.op) && Free(s.workers, Pop(s.queue).value.op)
  {
    forall op ensures OrderKeyOf(op) in s.queue.active <==> !Free(s.workers, op) {
      ActiveIffNotFree(s, op);
    }
    PopFindsOpen(s.queue);
  }

  /** No two operations in flight are of one robot and interface. */
  ghost predicate HeldApart(ws: seq<Worker>) {
    forall i, j :: 0 <= i < j < |ws| && InFlight(ws[i]).Some? && InFlight(ws[j]).Some? ==>
                     !SameInterface(InFlight(ws[i]).value, InFlight(ws[j]).value)
  }

  lemma ApartIsHeldApart(s: State)
    requires Locked(s)
    ensures HeldApart(s.workers)
  {
    var ws := s.workers;
    forall i, j | 0 <= i < j < |ws| && InFlight(ws[i]).Some? && InFlight(ws[j]).Some?
      ensures !SameInterface(InFlight(ws[i]).value, InFlight(ws[j]).value)
    {
      SameKeyIff(InFlight(ws[i]).value, InFlight(ws[j]).value);
    }
  }

  /**
    In every reachable state no two operations in flight are of one robot and interface; a claim answers an
    operation exactly if some queued one has a robot and interface that no operation in flight has, and then
    such a one.
  */
  lemma ClaimsWhatIsFree(c: Config, s: State, acts: seq<Action>)
    requires Initial(c, s) && Legal(c, s, acts)
    ensures var t := End(c, s, acts);
            && HeldApart(t.workers)
            && (Pop(t.queue).Some? <==> exists op :: Queued(t.queue, op) && Free(t.workers, op))
            && (Pop(t.queue).Some? ==>
                  Queued(t.queue, Pop(t.queue).value.op) && Free(t.workers, Pop(t.queue).value.op))
  {
    assert Locked(s);
    RunLocks(c, s, acts);
    ApartIsHeldApart(End(c, s, acts));
    PopIffFree(End(c, s, acts));
  }

  /**
    Mutual exclusion, over every run: an interface is active exactly when one worker holds an operation of it,
    claimed from the queue or from the spool, and no second worker does.
  */
  lemma MutualExclusion(c: Config, s: State, acts: seq<Action>, i: nat, j: nat)
    requires Initial(c, s) && Legal(c, s, acts)
    ensures var t := End(c, s, acts);
            && (forall k :: k in t.queue.active <==> exists w :: 0 <= w < |t.workers| && Key(t.workers[w]) == Some(k))
            && (i < |t.workers| && j < |t.workers| && Key(t.workers[i]).Some? && Key(t.workers[i]) == Key(t.workers[j])
                ==> i == j)
  {
    assert Locked(s);
    RunLocks(c, s, acts);
    var t := End(c, s, acts);
    assert forall k :: Holds(t.workers, k) <==> exists w :: 0 <= w < |t.workers| && Key(t.workers[w]) == Some(k);
  }
}
