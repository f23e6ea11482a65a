/**
  Outbound delivery as a state machine: producers, workers that claim and send, the durable spool that one
  worker replays, and the orderly stop. One action is one atomic step of one thread.
*/
module Delivery {
  import opened Wrappers
  import opened Values
  import opened Operations
  import opened Client
  import opened OutboundQueues
  import opened Spool
  import opened Bags

  /** restore reads a spool row back; the bridge's reader is decode_operation. */
  datatype Config = Config(
    limits: Limits,
    bounds: Bounds,
    retries: nat,
    python: Python,
    restore: Row -> Option<Op>)

  ghost predicate ReadsByDecode(c: Config) {
    forall row :: c.restore(row) == Decode(row.payload, row.cls, row.key, c.python)
  }

  /** Rows read by one replay. */
  const SWEEP := 20

  /** A live operation left the queue; a replayed one is still a spool row. */
  datatype Source = Live | Replay(row: Row, rest: seq<Row>)

  datatype Outcome = Finished | Retained | Raised

  /**
    What a worker is doing. Listing to Alarming are the stages of a replay; Waking has spooled its operation
    but not yet set the pending flag; Leaving has only its claim left to give back.
  */
  datatype Worker =
    | Idle
    | Listing
    | Sweeping(rows: seq<Row>)
    | Sending(op: Op, source: Source, attempt: nat)
    | Settled(op: Op, source: Source, outcome: Outcome)
    | Waking(op: Op)
    | Leaving(op: Op, source: Source, goOn: bool)
    | Closing
    | Alarming
    | Exited

  datatype Phase = Running | Stopping | Joined | Persisted

  /** The last four fields are history: all terminal operations handed over, and how those that are gone left. */
  datatype State = State(
    queue: Queue,
    rows: seq<Row>,
    nextId: nat,
    workers: seq<Worker>,
    refused: multiset<Op>,
    owed: nat,
    pending: bool,
    phase: Phase,
    given: multiset<Op>,
    consumed: multiset<Op>,
    evicted: multiset<Op>,
    lost: multiset<Op>)

  /** Steps that change one worker, and at most the pending flag and that worker's claim besides. */
  datatype Move =
    | Attempt(wire: Wire)
    | Expire(now: real)
    | NoticeStop
    | SetAfterSpool
    | Release
    | StartReplay
    | ListRows
    | CloseReplay
    | Alarm
    | Exit

  datatype Action =
    | PutTerminal(op: Op)
    | PutObservation(op: Op, key: Option<LatestKey>)
    | SpoolRefused(op: Op, nbytes: nat, ts: real)
    | SetPending
    | Claim(w: nat)
    | Step(w: nat, move: Move)
    | Conclude(w: nat, nbytes: nat, ts: real)
    | NextRow
    | RequestStop
    | Join
    | Persist(nbytes: nat, ts: real)
    | FinishPersist

  predicate Expired(op: Op, now: real) {
    op.expiresAt.Some? && (op.expiresAt.value == NegInf || (op.expiresAt.value.Finite? && now >= op.expiresAt.value.r))
  }

  /** An operation expires at its time, at once if that is minus infinity, never without one or at infinity or NaN. */
  lemma ExpiredIff(op: Op, now: real)
    ensures Expired(op, now) <==>
            match op.expiresAt
            case None => false
            case Some(Finite(r)) => r <= now
            case Some(NegInf) => true
            case Some(_) => false
  {
  }

  /** The operation a row decodes to, if it does. */
  function Content(c: Config, row: Row): (ops: multiset<Op>) {
    if c.restore(row).Some? then multiset{c.restore(row).value} else multiset{}
  }

  function Reader(c: Config): (f: Row -> multiset<Op>) {
    row => Content(c, row)
  }

  function Contents(c: Config, rows: seq<Row>): (ops: multiset<Op>) {
    Bag(Reader(c), rows)
  }

  function NameOf(s: Option<string>): (r: string) {
    if s.None? then "None" else s.value
  }

  /** The row that _spool_op inserts; only called on operations that can be encoded. */
  function RowOf(op: Op, id: nat, nbytes: nat, ts: real): (r: Row)
    requires Encode(op).Some?
  {
    Row(id, op.queueClass, Some(JoinKey(NameOf(op.robot), NameOf(op.iface), NameOf(op.view))), Encode(op).value,
        nbytes, ts)
  }

  /** spool_put of one terminal operation: nothing coalesces, the oldest rows may be evicted. */
  function Spooled(c: Config, s: State, op: Op, nbytes: nat, ts: real): (r: State)
    requires Encode(op).Some?
  {
    var row := RowOf(op, s.nextId, nbytes, ts);
    var all := Coalesced(s.rows, row) + [row];
    s.(rows := Inserted(s.rows, row, c.bounds), nextId := s.nextId + 1,
    evicted := s.evicted + Contents(c, all[..Excess(all, c.bounds)]))
  }

  ghost predicate Initial(c: Config, s: State) {
    && ReadsByDecode(c)
    && s.queue == EMPTY && s.nextId >= 1 && Within(s.rows, 0, s.nextId)
    && |s.workers| >= 1 && (forall i :: 0 <= i < |s.workers| ==> s.workers[i] == Idle)
    && s.refused == multiset{} && s.owed == 0 && s.pending == (s.rows != []) && s.phase == Running
    && s.given == Contents(c, s.rows)
    && s.consumed == multiset{} && s.evicted == multiset{} && s.lost == multiset{}
  }

  function At(s: State, w: nat): (x: Worker) {
    if w < |s.workers| then s.workers[w] else Exited
  }

  predicate Up(s: State) {
    s.phase == Running || s.phase == Stopping
  }

  predicate Empty(q: Queue) {
    q.terminal == [] && q.latest == [] && q.bulk == []
  }

  function Retries(c: Config, source: Source): (n: nat) {
    if source == Live then c.retries else 0
  }

  /** A live terminal operation that could not be delivered goes to the spool. */
  predicate Respools(x: Worker) {
    x.Settled? && x.source == Live && x.outcome == Retained && x.op.queueClass == Terminal
  }

  /* ---- one worker's own steps ---- */

  predicate CanMove(s: State, w: nat, move: Move) {
    var x := At(s, w);
    match move
    case Attempt(_) => x.Sending?
    case Expire(now) => x.Sending? && Expired(x.op, now)
    case NoticeStop => s.phase == Stopping && (x.Sending? || x.Sweeping?)
    case SetAfterSpool => x.Waking?
    case Release => x.Leaving?
    case StartReplay => w == 0 && x == Idle && s.pending
    case ListRows => x == Listing
    case CloseReplay => x == Closing
    case Alarm => x == Alarming
    case Exit => s.phase == Stopping && x == Idle
  }

  function AfterVerdict(c: Config, x: Worker, verdict: Verdict): (r: Worker)
    requires x.Sending?
    ensures (r.Sending? || r.Settled?) && r.op == x.op && r.source == x.source
  {
    match verdict
    case Delivered => Settled(x.op, x.source, Finished)
    case Rejected => Settled(x.op, x.source, Finished)
    case Keep => Settled(x.op, x.source, Retained)
    case Raises => Settled(x.op, x.source, Raised)
    case Again =>
      if x.attempt >= Retries(c, x.source) then Settled(x.op, x.source, Retained)
      else Sending(x.op, x.source, x.attempt + 1)
  }

  function Moved(c: Config, s: State, w: nat, move: Move): (r: Worker)
    requires CanMove(s, w, move)
  {
    var x := At(s, w);
    match move
    case Attempt(wire) => AfterVerdict(c, x, Judge(x.op, wire))
    case Expire(_) => Settled(x.op, x.source, Finished)
    case NoticeStop => if x.Sending? then Settled(x.op, x.source, Retained) else Closing
    case SetAfterSpool => Leaving(x.op, Live, true)
    case Release => if x.source == Live then Idle else if x.goOn then Sweeping(x.source.rest) else Closing
    case StartReplay => Listing
    case ListRows => Sweeping(Limited(s.rows, SWEEP))
    case CloseReplay => if s.rows == [] then Idle else Alarming
    case Alarm => Idle
    case Exit => Exited
  }

  function PendingAfter(s: State, move: Move): (p: bool) {
    match move
    case SetAfterSpool => true
    case Alarm => true
    case StartReplay => false
    case _ => s.pending
  }

  function AfterStep(c: Config, s: State, w: nat, move: Move): (r: State)
    requires CanMove(s, w, move) && w < |s.workers|
  {
    s.(workers := s.workers[w := Moved(c, s, w, move)],
    pending := PendingAfter(s, move),
    queue := if move.Release? then Unlock(s.queue, s.workers[w].op) else s.queue)
  }

  /* ---- steps that move operations ---- */

  function AfterPutTerminal(c: Config, s: State, op: Op): (r: State) {
    var put := OutboundQueues.PutTerminal(s.queue, c.limits, op);
    s.(queue := put.1, given := s.given + multiset{op},
    refused := if put.0 == Full then s.refused + multiset{op} else s.refused)
  }

  function AfterClaim(s: State, w: nat): (r: State)
    requires w < |s.workers| && Pop(s.queue).Some?
  {
    var t := Pop(s.queue).value;
    s.(workers := s.workers[w := Sending(t.op, Live, 0)], queue := Lock(t.rest, t.op))
  }

  function One(op: Op): (m: multiset<Op>) {
    if op.queueClass == Terminal then multiset{op} else multiset{}
  }

  /** The end of a delivery from the queue; an operation that is not terminal is simply dropped. */
  function AfterLive(s: State, w: nat): (r: State)
    requires w < |s.workers| && s.workers[w].Settled?
  {
    var x := s.workers[w];
    s.(workers := s.workers[w := Leaving(x.op, Live, true)],
    consumed := if x.outcome == Finished then s.consumed + One(x.op) else s.consumed,
    lost := if x.outcome == Raised then s.lost + One(x.op) else s.lost)
  }

  function AfterRespool(c: Config, s: State, w: nat, nbytes: nat, ts: real): (r: State)
    requires w < |s.workers| && s.workers[w].Settled? && Encode(s.workers[w].op).Some?
  {
    var x := s.workers[w];
    Spooled(c, s, x.op, nbytes, ts).(workers := s.workers[w := Waking(x.op)])
  }

  /** The end of a delivery from the spool: its row goes, if it was not evicted meanwhile, or it stays. */
  function AfterReplay(c: Config, s: State, w: nat): (r: State)
    requires w < |s.workers| && s.workers[w].Settled? && s.workers[w].source.Replay?
  {
    var x := s.workers[w];
    if x.outcome == Finished then
      s.(workers := s.workers[w := Leaving(x.op, x.source, true)],
      rows := WithoutIds(s.rows, {x.source.row.id}),
      consumed := if x.source.row in s.rows then s.consumed + Content(c, x.source.row) else s.consumed)
    else s.(workers := s.workers[w := Leaving(x.op, x.source, false)])
  }

  function AfterConclude(c: Config, s: State, w: nat, nbytes: nat, ts: real): (r: State)
    requires w < |s.workers| && s.workers[w].Settled?
    requires Respools(s.workers[w]) ==> Encode(s.workers[w].op).Some?
  {
    if Respools(s.workers[w]) then AfterRespool(c, s, w, nbytes, ts)
    else if s.workers[w].source == Live then AfterLive(s, w)
    else AfterReplay(c, s, w)
  }

  /** A row that cannot be read is deleted. */
  function AfterBadRow(s: State, row: Row, rest: seq<Row>): (r: State)
    requires s.workers != []
  {
    s.(workers := s.workers[0 := Sweeping(rest)], rows := WithoutIds(s.rows, {row.id}))
  }

  /** A readable row is claimed for its interface, or the replay ends because that interface is busy. */
  function AfterGoodRow(s: State, op: Op, row: Row, rest: seq<Row>): (r: State)
    requires s.workers != []
  {
    if OrderKeyOf(op) in s.queue.active then s.(workers := s.workers[0 := Closing])
    else s.(workers := s.workers[0 := Sending(op, Replay(row, rest), 0)], queue := Lock(s.queue, op))
  }

  function AfterNextRow(c: Config, s: State): (r: State)
    requires At(s, 0).Sweeping?
  {
    var rows := s.workers[0].rows;
    if rows == [] then s.(workers := s.workers[0 := Closing])
    else
      match c.restore(rows[0])
      case None => AfterBadRow(s, rows[0], rows[1..])
      case Some(op) => AfterGoodRow(s, op, rows[0], rows[1..])
  }

  function AfterPersist(c: Config, s: State, nbytes: nat, ts: real): (r: State)
    requires Head(s.queue).Some?
    requires Head(s.queue).value.op.queueClass == Terminal ==> Encode(Head(s.queue).value.op).Some?
  {
    var t := Head(s.queue).value;
    if t.op.queueClass == Terminal then Spooled(c, s, t.op, nbytes, ts).(queue := t.rest, pending := true)
    else s.(queue := t.rest)
  }

  function AfterSpoolRefused(c: Config, s: State, op: Op, nbytes: nat, ts: real): (r: State)
    requires Encode(op).Some?
  {
    Spooled(c, s, op, nbytes, ts).(refused := s.refused - multiset{op}, owed := s.owed + 1)
  }

  /* ---- the machine ---- */

  ghost predicate Enabled(c: Config, s: State, a: Action) {
    match a
    case PutTerminal(op) => Up(s) && op.queueClass == Terminal && Storable(op)
    case PutObservation(op, _) => Up(s) && op.queueClass != Terminal
    case SpoolRefused(op, _, _) => Up(s) && op in s.refused && Encode(op).Some?
    case SetPending => Up(s) && s.owed > 0
    case Claim(w) => w < |s.workers| && s.workers[w] == Idle && Pop(s.queue).Some?
    case Step(w, move) => w < |s.workers| && CanMove(s, w, move)
    case Conclude(w, _, _) =>
      w < |s.workers| && s.workers[w].Settled? && (Respools(s.workers[w]) ==> Encode(s.workers[w].op).Some?)
    case NextRow => At(s, 0).Sweeping?
    case RequestStop => s.phase == Running
    case Join =>
      && s.phase == Stopping && s.refused == multiset{} && s.owed == 0
      && forall i :: 0 <= i < |s.workers| ==> s.workers[i] == Exited
    case Persist(_, _) =>
      && s.phase == Joined && Head(s.queue).Some?
      && (Head(s.queue).value.op.queueClass == Terminal ==> Encode(Head(s.queue).value.op).Some?)
    case FinishPersist => s.phase == Joined && Empty(s.queue)
  }

  ghost function Apply(c: Config, s: State, a: Action): (r: State)
    requires Enabled(c, s, a)
  {
    match a
    case PutTerminal(op) => AfterPutTerminal(c, s, op)
    case PutObservation(op, key) => s.(queue := PutOp(s.queue, c.limits, op, op.queueClass, key).1)
    case SpoolRefused(op, nbytes, ts) => AfterSpoolRefused(c, s, op, nbytes, ts)
    case SetPending => s.(owed := s.owed - 1, pending := true)
    case Claim(w) => AfterClaim(s, w)
    case Step(w, move) => AfterStep(c, s, w, move)
    case Conclude(w, nbytes, ts) => AfterConclude(c, s, w, nbytes, ts)
    case NextRow => AfterNextRow(c, s)
    case RequestStop => s.(phase := Stopping)
    case Join => s.(phase := Joined)
    case Persist(nbytes, ts) => AfterPersist(c, s, nbytes, ts)
    case FinishPersist => s.(phase := Persisted)
  }

  /* ---- runs ---- */

  ghost predicate Legal(c: Config, s: State, acts: seq<Action>)
    decreases |acts|
  {
    acts == [] || (Enabled(c, s, acts[0]) && Legal(c, Apply(c, s, acts[0]), acts[1..]))
  }

  ghost function End(c: Config, s: State, acts: seq<Action>): (r: State)
    requires Legal(c, s, acts)
    decreases |acts|
  {
    if acts == [] then s else End(c, Apply(c, s, acts[0]), acts[1..])
  }
}
