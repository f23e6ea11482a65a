/** The inbound processor as it runs in one thread: admission, drain, the answering callbacks, and the endings. */
module InboundProcessing {
  import opened Wrappers
  import opened Ledgers
  import opened InboundQueues
  import CatchUp
  import M = Inbound
  import R = InboundRuns
  import T = Transactions

  datatype Verdict = Admitted | Known | Overflowed | NoRoute | Refused

  /* ---- one admission ---- */

  /** What admitting a routed event comes to when nothing interferes. */
  function AdmitAlone(t: Table, q: Lanes, b: InboundQueues.Bounds, e: Event): (r: (Verdict, Table, Lanes)) {
    if e.key in t && t[e.key] != Overflow then (Known, t, q)
    else
      match Put(q, b, e, e.kind == Cancel)
      case None => (Overflowed, t[e.key := Overflow], q)
      case Some(lanes) => (Admitted, t[e.key := Queued], lanes)
  }

  /** The verdict and the lanes in fields: a cancellation goes to the control lane, anything else to the normal one. */
  lemma AdmitsIff(t: Table, q: Lanes, b: InboundQueues.Bounds, e: Event)
    ensures var (v, rows, lanes) := AdmitAlone(t, q, b, e);
            var room := if e.kind == Cancel then |q.control| < b.control else |q.normal| < b.normal;
            && (v == Known <==> e.key in t && t[e.key] != Overflow)
            && (v == Admitted <==> v != Known && room)
            && (v == Overflowed <==> v != Known && !room)
            && lanes.control == (if v == Admitted && e.kind == Cancel then q.control + [e] else q.control)
            && lanes.normal == (if v == Admitted && e.kind != Cancel then q.normal + [e] else q.normal)
  {
  }

  /** The put of an event whose row is queued, and the mark where its lane is full. */
  function Puts(t: Table, q: Lanes, b: InboundQueues.Bounds, e: Event): (acts: seq<M.Action>) {
    if e.key in t && t[e.key] != Overflow then []
    else if Put(q, b, e, e.kind == Cancel).Some? then [M.PutEvent] + []
    else [M.PutEvent] + ([M.MarkRow] + [])
  }

  /** The steps of the admission machine that make up one admission. */
  function AdmitSteps(t: Table, q: Lanes, b: InboundQueues.Bounds, e: Event, cin: Option<nat>): (acts: seq<M.Action>) {
    var puts := Puts(t, q, b, e);
    [M.Begin(e, cin, false)] + ([M.InsertRow] + if e.key in t then [M.ReacceptRow] + puts else puts)
  }

  ghost predicate LeavesAdmitted(c: M.Config, s: M.State, acts: seq<M.Action>, t: Table, q: Lanes) {
    && M.Legal(c, s, acts)
    && M.End(c, s, acts).table == t && M.End(c, s, acts).lanes == q && M.End(c, s, acts).lock.None?
  }

  /** From the put on: the event is in its lane, or the row is marked. */
  lemma PutSteps(c: M.Config, s: M.State, e: Event, cin: Option<nat>)
    requires s.lock == Some(M.Admission(e, cin, false, M.Putting)) && Is(s.table, e.key, Queued)
    ensures match Put(s.lanes, c.bounds, e, e.kind == Cancel)
            case Some(lanes) => LeavesAdmitted(c, s, [M.PutEvent] + [], s.table, lanes)
            case None => LeavesAdmitted(c, s, [M.PutEvent] + ([M.MarkRow] + []), s.table[e.key := Overflow], s.lanes)
  {
    match Put(s.lanes, c.bounds, e, e.kind == Cancel)
    case Some(_) => R.StepThen(c, s, M.PutEvent, M.AfterPut(c, s), []);
    case None =>
      var s1 := M.AfterPut(c, s);
      R.StepThen(c, s1, M.MarkRow, M.AfterMark(s1), []);
      R.StepThen(c, s, M.PutEvent, s1, [M.MarkRow] + []);
  }

  lemma KnownSteps(c: M.Config, s: M.State, e: Event, cin: Option<nat>)
    requires s.lock == Some(M.Admission(e, cin, false, M.Inserting)) && e.key in s.table
    ensures var r := AdmitAlone(s.table, s.lanes, c.bounds, e);
            LeavesAdmitted(c, s, [M.InsertRow] + ([M.ReacceptRow] + Puts(s.table, s.lanes, c.bounds, e)), r.1, r.2)
  {
    var puts := Puts(s.table, s.lanes, c.bounds, e);
    var s2 := M.AfterInsert(s);
    var s3 := M.AfterReaccept(s2);
    if s.table[e.key] == Overflow {
      PutSteps(c, s3, e, cin);
      assert s.table[e.key := Queued][e.key := Overflow] == s.table[e.key := Overflow];
    }
    R.StepThen(c, s2, M.ReacceptRow, s3, puts);
    R.StepThen(c, s, M.InsertRow, s2, [M.ReacceptRow] + puts);
  }

  lemma UnknownSteps(c: M.Config, s: M.State, e: Event, cin: Option<nat>)
    requires s.lock == Some(M.Admission(e, cin, false, M.Inserting)) && e.key !in s.table
    ensures var r := AdmitAlone(s.table, s.lanes, c.bounds, e);
            LeavesAdmitted(c, s, [M.InsertRow] + Puts(s.table, s.lanes, c.bounds, e), r.1, r.2)
  {
    PutSteps(c, M.AfterInsert(s), e, cin);
    assert s.table[e.key := Queued][e.key := Overflow] == s.table[e.key := Overflow];
    R.StepThen(c, s, M.InsertRow, M.AfterInsert(s), Puts(s.table, s.lanes, c.bounds, e));
  }

  /** An admission run alone is the machine's steps in a row. */
  lemma AdmitIsARun(c: M.Config, s: M.State, e: Event, cin: Option<nat>)
    requires M.CanBegin(c, s, M.Begin(e, cin, false))
    ensures var r := AdmitAlone(s.table, s.lanes, c.bounds, e);
            LeavesAdmitted(c, s, AdmitSteps(s.table, s.lanes, c.bounds, e, cin), r.1, r.2)
  {
    var s1 := s.(lock := Some(M.Admission(e, cin, false, M.Inserting)));
    var puts := Puts(s.table, s.lanes, c.bounds, e);
    if e.key in s.table {
      KnownSteps(c, s1, e, cin);
      R.StepThen(c, s, M.Begin(e, cin, false), s1, [M.InsertRow] + ([M.ReacceptRow] + puts));
    } else {
      UnknownSteps(c, s1, e, cin);
      R.StepThen(c, s, M.Begin(e, cin, false), s1, [M.InsertRow] + puts);
    }
  }

  /* ---- one drain ---- */

  /** The event is handled: an internal one always, another one if it wins its row. */
  predicate Handled(t: Table, e: Event) {
    e.kind == Internal || Is(t, e.key, Queued)
  }

  /** The table once the event is out of the batch; a handler that raises ends the row as failed. */
  function Handle(t: Table, e: Event, raises: Event -> bool): (r: Table) {
    var won := if e.kind == Internal then t else Dispatch(t, e.key);
    if Handled(t, e) && raises(e) then Ledgers.Finish(won, e.key, Failed) else won
  }

  function Drained(t: Table, batch: seq<Event>, raises: Event -> bool): (r: Table) {
    if batch == [] then t else Drained(Handle(t, batch[0], raises), batch[1..], raises)
  }

  /** The events of a batch whose rows the drain wins, in order. */
  function Wins(t: Table, batch: seq<Event>, raises: Event -> bool): (won: seq<Event>) {
    if batch == [] then []
    else
      var e, rest := batch[0], Wins(Handle(t, batch[0], raises), batch[1..], raises);
      if e.kind != Internal && Is(t, e.key, Queued) then [e] + rest else rest
  }

  /** The requests finished because their handler raised. */
  function Failures(t: Table, batch: seq<Event>, raises: Event -> bool): (keys: set<Key>) {
    if batch == [] then {}
    else
      var rest := Failures(Handle(t, batch[0], raises), batch[1..], raises);
      if Handled(t, batch[0]) && raises(batch[0]) then rest + {batch[0].key} else rest
  }

  lemma HandledOnce(t: Table, e: Event, raises: Event -> bool, k: Key)
    ensures !Is(t, k, Queued) ==> !Is(Handle(t, e, raises), k, Queued)
    ensures e.kind != Internal ==> !Is(Handle(t, e, raises), e.key, Queued)
    ensures e.key != k ==> (Is(Handle(t, e, raises), k, Queued) <==> Is(t, k, Queued))
  {
  }

  /** A request that is not waiting wins nothing, whatever the batch holds. */
  lemma {:induction false} NotWaitingNeverWins(t: Table, batch: seq<Event>, raises: Event -> bool, k: Key, i: nat)
    requires !Is(t, k, Queued) && i < |Wins(t, batch, raises)|
    ensures Wins(t, batch, raises)[i].key != k
  {
    if batch == [] {
    } else {
      var e, next := batch[0], Handle(t, batch[0], raises);
      HandledOnce(t, e, raises, k);
      if e.kind == Internal || !Is(t, e.key, Queued) {
        NotWaitingNeverWins(next, batch[1..], raises, k, i);
      } else if i > 0 {
        NotWaitingNeverWins(next, batch[1..], raises, k, i - 1);
      }
    }
  }

  /** One drain dispatches a request once, even if the batch holds two entries for it. */
  lemma {:induction false} WinsAreDistinct(t: Table, batch: seq<Event>, raises: Event -> bool, i: nat, j: nat)
    requires i < j < |Wins(t, batch, raises)|
    ensures Wins(t, batch, raises)[i].key != Wins(t, batch, raises)[j].key
  {
    var e, next := batch[0], Handle(t, batch[0], raises);
    if e.kind == Internal || !Is(t, e.key, Queued) {
      WinsAreDistinct(next, batch[1..], raises, i, j);
    } else if i > 0 {
      WinsAreDistinct(next, batch[1..], raises, i - 1, j - 1);
    } else {
      HandledOnce(t, e, raises, e.key);
      NotWaitingNeverWins(next, batch[1..], raises, e.key, j - 1);
    }
  }

  /** A waiting request with an entry in the batch is dispatched by the drain; internal events have other keys. */
  lemma {:induction false} WaitingEntryWins(t: Table, batch: seq<Event>, raises: Event -> bool, n: nat)
    requires n < |batch| && batch[n].kind != Internal && Is(t, batch[n].key, Queued)
    requires forall m :: 0 <= m < n && batch[m].kind == Internal ==> batch[m].key != batch[n].key
    ensures exists i :: 0 <= i < |Wins(t, batch, raises)| && Wins(t, batch, raises)[i].key == batch[n].key
  {
    var e, k, won := batch[0], batch[n].key, Wins(t, batch, raises);
    if e.kind != Internal && e.key == k {
      assert won[0] == e;
    } else {
      var next := Handle(t, e, raises);
      HandledOnce(t, e, raises, k);
      WaitingEntryWins(next, batch[1..], raises, n - 1);
      var rest := Wins(next, batch[1..], raises);
      var i :| 0 <= i < |rest| && rest[i].key == k;
      assert won == rest || (won[0] == e && won[i + 1] == rest[i]);
    }
  }

  /** Where the first entry for a key is, the length if there is none. */
  function First(batch: seq<Event>, k: Key): (i: nat)
    ensures i <= |batch|
    ensures i < |batch| ==> batch[i].key == k
    ensures forall j :: 0 <= j < i ==> batch[j].key != k
  {
    if batch == [] || batch[0].key == k then 0 else 1 + First(batch[1..], k)
  }

  /**
    What a drain does to a request, internal events having other keys. A request that is waiting and has an entry
    in the batch is dispatched; it ends as failed exactly if the handler of its first entry raises, and else stays
    dispatched. Any other request is left alone.
  */
  lemma {:induction false} DrainTells(t: Table, batch: seq<Event>, raises: Event -> bool, k: Key)
    requires forall i :: 0 <= i < |batch| && batch[i].kind == Internal ==> batch[i].key != k
    ensures var i := First(batch, k);
            var waiting := k in t && t[k] == Queued && i < |batch|;
            && (k in Failures(t, batch, raises) <==> waiting && raises(batch[i]))
            && (k in Drained(t, batch, raises) <==> k in t)
            && (k in t ==>
                  Drained(t, batch, raises)[k]
                  == if !waiting then t[k] else if raises(batch[i]) then Ended(Failed) else Dispatched)
  {
    if batch == [] {
    } else {
      var e, next := batch[0], Handle(t, batch[0], raises);
      DrainTells(next, batch[1..], raises, k);
      if e.key == k {
        assert k in t ==> next[k] != Queued;
      } else {
        assert (k in next <==> k in t) && (k in t ==> next[k] == t[k]);
      }
    }
  }

  function KeysOf(events: seq<Event>): (keys: multiset<Key>) {
    if events == [] then multiset{} else multiset{events[0].key} + KeysOf(events[1..])
  }

  /** The steps of the admission machine for a whole batch. */
  function DispatchSteps(t: Table, batch: seq<Event>, raises: Event -> bool): (acts: seq<M.Action>) {
    if batch == [] then []
    else
      var rest := DispatchSteps(Handle(t, batch[0], raises), batch[1..], raises);
      if Handled(t, batch[0]) && raises(batch[0]) then
        [M.DispatchNext] + ([M.FinishRow(batch[0].key, Failed)] + rest)
      else [M.DispatchNext] + rest
  }

  /** The machine once the head of its batch is handled. */
  function Next(s: M.State, raises: Event -> bool): (r: M.State)
    requires s.batch != []
  {
    M.AfterDispatch(s).(table := Handle(s.table, s.batch[0], raises))
  }

  lemma NextSteps(c: M.Config, s: M.State, raises: Event -> bool, rest: seq<M.Action>)
    requires s.batch != [] && M.Legal(c, Next(s, raises), rest)
    ensures var e := s.batch[0];
            var acts := if Handled(s.table, e) && raises(e) then
                          [M.DispatchNext] + ([M.FinishRow(e.key, Failed)] + rest)
                        else [M.DispatchNext] + rest;
            M.Legal(c, s, acts) && M.End(c, s, acts) == M.End(c, Next(s, raises), rest)
  {
    var e, s1 := s.batch[0], M.AfterDispatch(s);
    if Handled(s.table, e) && raises(e) {
      R.StepThen(c, s1, M.FinishRow(e.key, Failed), Next(s, raises), rest);
      R.StepThen(c, s, M.DispatchNext, s1, [M.FinishRow(e.key, Failed)] + rest);
    } else {
      assert s1 == Next(s, raises);
      R.StepThen(c, s, M.DispatchNext, s1, rest);
    }
  }

  lemma KeysOfWins(t: Table, batch: seq<Event>, raises: Event -> bool)
    requires batch != []
    ensures var e, rest := batch[0], Wins(Handle(t, batch[0], raises), batch[1..], raises);
            KeysOf(Wins(t, batch, raises))
            == if e.kind != Internal && Is(t, e.key, Queued) then multiset{e.key} + KeysOf(rest) else KeysOf(rest)
  {
    var e, rest := batch[0], Wins(Handle(t, batch[0], raises), batch[1..], raises);
    assert ([e] + rest)[1..] == rest;
  }

  /** The machine once the whole batch is handled. */
  function Done(s: M.State, batch: seq<Event>, raises: Event -> bool): (r: M.State) {
    s.(batch := [], table := Drained(s.table, batch, raises), wins := s.wins + KeysOf(Wins(s.table, batch, raises)))
  }

  lemma NextIsDone(s: M.State, raises: Event -> bool)
    requires s.batch != []
    ensures Done(Next(s, raises), s.batch[1..], raises) == Done(s, s.batch, raises)
  {
    KeysOfWins(s.table, s.batch, raises);
  }

  lemma {:induction false} BatchIsARun(c: M.Config, s: M.State, raises: Event -> bool)
    ensures M.Legal(c, s, DispatchSteps(s.table, s.batch, raises))
    ensures M.End(c, s, DispatchSteps(s.table, s.batch, raises)) == Done(s, s.batch, raises)
    decreases |s.batch|
  {
    if s.batch == [] {
      assert s.wins + KeysOf([]) == s.wins;
    } else {
      var next := Next(s, raises);
      BatchIsARun(c, next, raises);
      NextSteps(c, s, raises, DispatchSteps(next.table, next.batch, raises));
      NextIsDone(s, raises);
    }
  }

  /** A drain run alone is the machine's drain followed by its dispatches: it wins exactly what they win. */
  lemma DrainIsARun(c: M.Config, s: M.State, budget: nat, raises: Event -> bool)
    requires s.batch == []
    ensures var batch := Batch(s.lanes, budget);
            var acts := [M.Drain(budget)] + DispatchSteps(s.table, batch, raises);
            && M.Legal(c, s, acts)
            && M.End(c, s, acts).lanes == Rest(s.lanes, budget) && M.End(c, s, acts).batch == []
            && M.End(c, s, acts).table == Drained(s.table, batch, raises)
            && M.End(c, s, acts).wins == s.wins + KeysOf(Wins(s.table, batch, raises))
  {
    var s1 := s.(lanes := Rest(s.lanes, budget), batch := Batch(s.lanes, budget));
    BatchIsARun(c, s1, raises);
    R.StepThen(c, s, M.Drain(budget), s1, DispatchSteps(s.table, s1.batch, raises));
  }

  /** The bridge's own events wait in their lane like any other: put on an empty queue, one is the next batch. */
  lemma InternalIsNext(c: M.Config, s: M.State, e: Event, control: bool, budget: nat)
    requires e.kind == Internal && s.lanes == Lanes([], []) && s.batch == []
    requires budget >= 1 && c.bounds.control >= 1 && c.bounds.normal >= 1
    ensures var acts := [M.PutInternal(e, control)] + ([M.Drain(budget)] + []);
            && M.Legal(c, s, acts)
            && M.End(c, s, acts) == s.(lanes := Lanes([], []), batch := [e])
  {
    var s1 := s.(lanes := if control then Lanes([e], []) else Lanes([], [e]));
    var s2 := s.(lanes := Lanes([], []), batch := [e]);
    assert [] + [e] == [e];
    assert M.Apply(c, s1, M.Drain(budget)) == s2 by {
      assert Batch(s1.lanes, budget) == [e] && Rest(s1.lanes, budget) == Lanes([], []);
    }
    assert M.Apply(c, s, M.PutInternal(e, control)) == s1;
    R.StepThen(c, s1, M.Drain(budget), s2, []);
    R.StepThen(c, s, M.PutInternal(e, control), s1, [M.Drain(budget)] + []);
  }

  /** A row while the requests of an interface are terminated: unchanged, or tracked and no longer active. */
  predicate TerminatedOr(before: T.Tx, now: T.Tx, tracked: bool, todo: bool) {
    && (tracked && !todo ==> !T.Active(now))
    && (!tracked || todo || !T.Active(before) ==> now == before)
  }

  /* ---- the processor ---- */

  class InboundProcessor {
    const ledger: Ledger
    const queue: InboundQueue
    const store: T.TransactionStore
    const catchup: CatchUp.CatchUpSweeper
    /** Requests sent and not yet finished, by interface. */
    var inflight: map<(string, string), set<string>>
    /** Correlation ids whose response or result was enqueued, and the numbered feedback enqueued. */
    var replies: seq<string>
    var feedback: seq<(string, nat)>
    /** When the last sampled feedback of a goal was taken. */
    var sampled: map<string, real>

    ghost predicate Valid()
      reads this, store
    {
      store.Valid() && forall i :: i in inflight ==> inflight[i] != {}
    }

    constructor (ledger: Ledger, queue: InboundQueue, store: T.TransactionStore, catchup: CatchUp.CatchUpSweeper)
      requires store.Valid()
      ensures Valid() && inflight == map[] && replies == [] && feedback == [] && sampled == map[]
      ensures this.ledger == ledger && this.queue == queue && this.store == store && this.catchup == catchup
    {
      this.ledger, this.queue, this.store, this.catchup := ledger, queue, store, catchup;
      inflight, replies, feedback, sampled := map[], [], [], map[];
    }

    function Requests(robot: string, iface: string): (corrs: set<string>)
      reads this
    {
      if (robot, iface) in inflight then inflight[(robot, iface)] else {}
    }

    /** The admission of a routed event of another sender: the ledger, then the lane, then the mark or the cursor. */
    method AdmitRouted(path: string, e: Event, ct: Option<int>, eventId: string, ts: real) returns (v: Verdict)
      modifies ledger, queue, catchup`latest
      ensures var r := AdmitAlone(old(ledger.Statuses()), old(queue.State()), queue.bounds, e);
              v == r.0 && ledger.Statuses() == r.1 && queue.State() == r.2
      ensures ledger.rows == match v
                             case Admitted => old(ledger.rows)[e.key := Row(Queued, eventId, ts)]
                             case Overflowed => old(ledger.rows)[e.key := Row(Overflow, eventId, ts)]
                             case _ => old(ledger.rows)
      ensures catchup.Latest(path)
              == if v == Admitted then M.Later(old(catchup.Latest(path)), ct) else old(catchup.Latest(path))
      ensures forall p :: p != path ==> catchup.Latest(p) == old(catchup.Latest(p))
    {
      var verdict := ledger.Admit(e.key, eventId, ts);
      if verdict == AlreadyKnown {
        return Known;
      }
      var ok := PutOrMark(e, ts);
      if !ok {
        return Overflowed;
      }
      catchup.MarkProcessed(path, ct);
      return Admitted;
    }

    /** The put of an event whose row has just been queued; a full lane leaves the row overflowed. */
    method PutOrMark(e: Event, ts: real) returns (ok: bool)
      requires e.key in ledger.rows && ledger.rows[e.key].status == Queued
      modifies ledger, queue
      ensures match Put(old(queue.State()), queue.bounds, e, e.kind == Cancel)
              case Some(lanes) => ok && queue.State() == lanes && ledger.rows == old(ledger.rows)
              case None =>
                && !ok && queue.State() == old(queue.State())
                && ledger.rows == old(ledger.rows)[e.key := old(ledger.rows)[e.key].(status := Overflow, ts := ts)]
    {
      if e.kind == Cancel {
        ok := queue.PutControl(e);
      } else {
        ok := queue.PutNormal(e);
      }
      if !ok {
        var marked := ledger.MarkOverflow(e.key, ts);
      }
    }

    /**
      _admit under the admission lock: a routed event of another sender is known unless its row is missing or
      overflowed; else it is queued if its lane has room, and its row overflows if not. Only an accepted event
      moves the cursor of its path; no other verdict but an overflow changes anything.
    */
    method Admit(path: string, route: Option<Event>, ct: Option<int>, staging: bool, own: bool, eventId: string,
                 ts: real)
      returns (v: Verdict)
      requires route.Some? ==> route.value.kind != Internal
      modifies ledger, queue, catchup`latest
      ensures v == NoRoute <==> route.None? && !staging
      ensures v == Refused <==> (route.None? && staging) || (route.Some? && own)
      ensures v == Known <==>
                route.Some? && !own && route.value.key in old(ledger.rows)
                && old(ledger.rows)[route.value.key].status != Overflow
      ensures v in {Admitted, Overflowed} ==>
                (v == Admitted <==> if route.value.kind == Cancel then |old(queue.control)| < queue.bounds.control
                                    else |old(queue.normal)| < queue.bounds.normal)
      ensures route.Some? && !own ==>
                var r := AdmitAlone(old(ledger.Statuses()), old(queue.State()), queue.bounds, route.value);
                v == r.0 && ledger.Statuses() == r.1 && queue.State() == r.2
      ensures v !in {Admitted, Overflowed} ==> ledger.rows == old(ledger.rows)
      ensures v in {Admitted, Overflowed} ==>
                ledger.rows
                == old(ledger.rows)[route.value.key := Row(if v == Admitted then Queued else Overflow, eventId, ts)]
      ensures queue.control
              == if v == Admitted && route.value.kind == Cancel then old(queue.control) + [route.value]
                 else old(queue.control)
      ensures queue.normal
              == if v == Admitted && route.value.kind != Cancel then old(queue.normal) + [route.value]
                 else old(queue.normal)
      ensures catchup.Latest(path)
              == if v == Admitted then M.Later(old(catchup.Latest(path)), ct) else old(catchup.Latest(path))
      ensures forall p :: p != path ==> catchup.Latest(p) == old(catchup.Latest(p))
    {
      if route.None? {
        return if staging then Refused else NoRoute;
      }
      if own {
        return Refused;
      }
      AdmitsIff(ledger.Statuses(), queue.State(), queue.bounds, route.value);
      v := AdmitRouted(path, route.value, ct, eventId, ts);
    }

    /**
      drain, for handlers of which it is given which ones raise: which events of the batch are dispatched, and
      which requests end as failed.
    */
    method Drain(budget: nat, raises: Event -> bool, ts: real) returns (won: seq<Event>)
      requires Valid() && budget >= 1
      modifies this`inflight, ledger, queue
      ensures Valid() && queue.State() == Rest(old(queue.State()), budget)
      ensures var batch := Batch(old(queue.State()), budget);
              && won == Wins(old(ledger.Statuses()), batch, raises)
              && ledger.Statuses() == Drained(old(ledger.Statuses()), batch, raises)
              && forall r, i, c :: c in Requests(r, i) <==>
                   c in old(Requests(r, i)) && Key(r, i, c) !in Failures(old(ledger.Statuses()), batch, raises)
    {
      var batch := queue.GetBatch(budget);
      ghost var start, failed := ledger.Statuses(), {};
      won := [];
      for n := 0 to |batch|
        invariant Valid() && queue.State() == Rest(old(queue.State()), budget)
        invariant Wins(start, batch, raises) == won + Wins(ledger.Statuses(), batch[n..], raises)
        invariant Drained(start, batch, raises) == Drained(ledger.Statuses(), batch[n..], raises)
        invariant Failures(start, batch, raises) == failed + Failures(ledger.Statuses(), batch[n..], raises)
        invariant forall r, i, c :: c in Requests(r, i) <==> c in old(Requests(r, i)) && Key(r, i, c) !in failed
      {
        ghost var gone;
        won, gone := HandleOne(batch, n, won, raises, ts);
        failed := if gone then failed + {batch[n].key} else failed;
      }
    }

    /** One turn of the drain; gone says that the request was finished because its handler raised. */
    method HandleOne(batch: seq<Event>, n: nat, won0: seq<Event>, raises: Event -> bool, ts: real)
      returns (won: seq<Event>, ghost gone: bool)
      requires Valid() && n < |batch|
      modifies this`inflight, ledger
      ensures Valid() && ledger.Statuses() == Handle(old(ledger.Statuses()), batch[n], raises)
      ensures won + Wins(ledger.Statuses(), batch[n + 1..], raises)
              == won0 + Wins(old(ledger.Statuses()), batch[n..], raises)
      ensures gone == (Handled(old(ledger.Statuses()), batch[n]) && raises(batch[n]))
      ensures batch[n..][0] == batch[n] && batch[n..][1..] == batch[n + 1..]
      ensures forall r, i, c :: c in Requests(r, i) <==>
                c in old(Requests(r, i)) && !(gone && Key(r, i, c) == batch[n].key)
    {
      var e := batch[n];
      won := won0;
      var handled := true;
      if e.kind != Internal {
        handled := ledger.CasDispatch(e.key, ts);
        if handled {
          won := won + [e];
        }
      }
      gone := handled && raises(e);
      if handled && raises(e) {
        Finish(e.key.robot, e.key.iface, e.key.corr, Failed, ts);
      }
    }

    /** _finish: the request is no longer tracked for its interface, and its row ends if it was active. */
    method Finish(robot: string, iface: string, corr: string, how: Final, ts: real)
      requires Valid()
      modifies this`inflight, ledger
      ensures Valid() && Requests(robot, iface) == old(Requests(robot, iface)) - {corr}
      ensures forall r, i :: (r, i) != (robot, iface) ==> Requests(r, i) == old(Requests(r, i))
      ensures ledger.Statuses() == Ledgers.Finish(old(ledger.Statuses()), Key(robot, iface, corr), how)
    {
      if (robot, iface) in inflight {
        var requests := inflight[(robot, iface)] - {corr};
        inflight := if requests == {} then inflight - {(robot, iface)} else inflight[(robot, iface) := requests];
      }
      var ok := ledger.FinishRow(Key(robot, iface, corr), how, ts);
    }

    /**
      The callback of a service call: whoever loses the race for the state, or finds no transaction, changes
      nothing else.
    */
    method ServiceDone(robot: string, iface: string, corr: string, failed: bool, path: bool, ts: real)
      requires Valid()
      modifies this`inflight, this`replies, ledger, store
      ensures Valid()
      ensures var step := if failed then T.Failed else T.Responded;
              && store.rows == T.Updated(old(store.rows), corr, step, ts)
              && (if T.Moves(old(store.rows), corr, step) then
                    && replies == (if !failed && path then old(replies) + [corr] else old(replies))
                    && Requests(robot, iface) == old(Requests(robot, iface)) - {corr}
                    && ledger.Statuses() == Ledgers.Finish(old(ledger.Statuses()), Key(robot, iface, corr),
                                                           if failed then Failed else Succeeded)
                  else replies == old(replies) && inflight == old(inflight) && ledger.rows == old(ledger.rows))
    {
      var moved := store.Update(corr, if failed then T.Failed else T.Responded, ts);
      if moved != Ok(true) {
        return;
      }
      if !failed && path {
        replies := replies + [corr];
      }
      Finish(robot, iface, corr, if failed then Failed else Succeeded, ts);
    }

    /** The result callback of a goal. */
    method GoalResult(robot: string, iface: string, goal: string, path: bool, ts: real)
      requires Valid()
      modifies this`inflight, this`replies, ledger, store
      ensures Valid() && store.rows == T.Updated(old(store.rows), goal, T.ResultReceived, ts)
      ensures if T.Moves(old(store.rows), goal, T.ResultReceived) then
                && replies == (if path then old(replies) + [goal] else old(replies))
                && Requests(robot, iface) == old(Requests(robot, iface)) - {goal}
                && ledger.Statuses() == Ledgers.Finish(old(ledger.Statuses()), Key(robot, iface, goal), Succeeded)
              else replies == old(replies) && inflight == old(inflight) && ledger.rows == old(ledger.rows)
    {
      var moved := store.Update(goal, T.ResultReceived, ts);
      if moved != Ok(true) {
        return;
      }
      if path {
        replies := replies + [goal];
      }
      Finish(robot, iface, goal, Succeeded, ts);
    }

    /**
      The feedback callback: nothing for a goal that is no longer tracked, or between samples; else the next
      number of its transaction (0 without one) is drawn, path or not.
    */
    method GoalFeedback(robot: string, iface: string, goal: string, logged: bool, interval: real, now: real,
                        path: bool, ts: real)
      requires Valid()
      modifies this`feedback, this`sampled, store
      ensures Valid()
      ensures var last := if goal in old(sampled) then old(sampled)[goal] else 0.0;
              if goal in Requests(robot, iface) && (logged || interval == 0.0 || now - last >= interval) then
                && store.rows == T.Numbered(old(store.rows), goal, ts)
                && (var n := if goal in old(store.rows) then old(store.rows)[goal].number + 1 else 0;
                    feedback == if path then old(feedback) + [(goal, n)] else old(feedback))
                && sampled == (if !logged && interval != 0.0 then old(sampled)[goal := now] else old(sampled))
              else store.rows == old(store.rows) && feedback == old(feedback) && sampled == old(sampled)
    {
      if goal !in Requests(robot, iface) {
        return;
      }
      if !logged && interval != 0.0 {
        if now - (if goal in sampled then sampled[goal] else 0.0) < interval {
          return;
        }
        sampled := sampled[goal := now];
      }
      var n := store.NextSeq(goal, ts);
      if path {
        feedback := feedback + [(goal, n)];
      }
    }

    /** One request of a vanished interface: without a transaction it is left as it is. */
    method TerminateOne(robot: string, iface: string, corr: string, ts: real)
      requires Valid()
      modifies this`inflight, ledger, store
      ensures Valid() && store.rows.Keys == old(store.rows).Keys
      ensures corr in store.rows ==> !T.Active(store.rows[corr])
      ensures forall c :: c in store.rows && (c != corr || !T.Active(old(store.rows)[c])) ==>
                store.rows[c] == old(store.rows)[c]
      ensures Requests(robot, iface) == old(Requests(robot, iface)) - if corr in store.rows then {corr} else {}
      ensures forall r, i :: (r, i) != (robot, iface) ==> Requests(r, i) == old(Requests(r, i))
    {
      if corr !in store.rows {
        return;
      }
      var tx := store.rows[corr];
      if !T.Terminal(tx.kind, tx.state) {
        var moved := store.Update(corr, if tx.kind == T.Action then T.ServerUnavailable else T.Failed, ts);
      }
      Finish(robot, iface, corr, Failed, ts);
    }

    /**
      terminate_inflight: every tracked request of a vanished interface that has a transaction is ended and no
      longer tracked; one without stays tracked; no transaction that had its outcome is touched.
    */
    method TerminateInflight(robot: string, iface: string, ts: real)
      requires Valid()
      modifies this`inflight, ledger, store
      ensures Valid() && store.rows.Keys == old(store.rows).Keys
      ensures Requests(robot, iface) == old(Requests(robot, iface)) - store.rows.Keys
      ensures forall c :: c in old(Requests(robot, iface)) && c in store.rows ==> !T.Active(store.rows[c])
      ensures forall c :: c in store.rows && (c !in old(Requests(robot, iface)) || !T.Active(old(store.rows)[c])) ==>
                store.rows[c] == old(store.rows)[c]
      ensures forall r, i :: (r, i) != (robot, iface) ==> Requests(r, i) == old(Requests(r, i))
    {
      var todo := Requests(robot, iface);
      ghost var all, start := todo, store.rows;
      while todo != {}
        invariant Valid() && todo <= all && store.rows.Keys == start.Keys
        invariant forall c :: c in Requests(robot, iface) <==> c in all && (c in todo || c !in start)
        invariant forall c :: c in start ==> TerminatedOr(start[c], store.rows[c], c in all, c in todo)
        invariant forall r, i :: (r, i) != (robot, iface) ==> Requests(r, i) == old(Requests(r, i))
        decreases |todo|
      {
        var corr :| corr in todo;
        TerminateOne(robot, iface, corr, ts);
        todo := todo - {corr};
      }
      assert forall c :: c in start ==> TerminatedOr(start[c], store.rows[c], c in all, false);
    }
  }
}
