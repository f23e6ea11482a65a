/** No terminal operation is lost: at every moment each one is queued, held, stored, or accounted for. */
module DeliveryLedger {
  import opened Wrappers
  import opened Values
  import opened Operations
  import opened Client
  import opened OutboundQueues
  import opened Spool
  import opened Bags
  import opened Delivery

  /* ---- where operations are ---- */

  /** A live terminal operation in a worker's hands. A replayed one is counted by its row. */
  function Carried(x: Worker): (m: multiset<Op>) {
    if (x.Sending? || x.Settled?) && x.source == Live then One(x.op) else multiset{}
  }

  function Held(ws: seq<Worker>): (m: multiset<Op>) {
    Bag(Carried, ws)
  }

  /** Everything handed over is somewhere, and nothing is in two places. */
  ghost predicate Balanced(c: Config, s: State) {
    s.given == multiset(s.queue.terminal) + s.refused + Held(s.workers) + Contents(c, s.rows)
               + s.consumed + s.evicted + s.lost
  }

  /* ---- what the lanes, the workers and the spool hold ---- */

  ghost predicate Lanes(s: State) {
    && (forall op :: op in s.queue.terminal || op in s.refused ==> op.queueClass == Terminal && Storable(op))
    && (forall e :: e in s.queue.latest ==> e.op.queueClass != Terminal)
    && (forall op :: op in s.queue.bulk ==> op.queueClass != Terminal)
  }

  predicate Replaying(x: Worker) {
    x.Listing? || x.Sweeping? || x.Closing? || x.Alarming?
    || ((x.Sending? || x.Settled? || x.Leaving?) && x.source.Replay?)
  }

  ghost predicate WorkerOk(c: Config, x: Worker, i: nat) {
    && (Replaying(x) ==> i == 0)
    && ((x.Sending? || x.Settled?) && x.source == Live && x.op.queueClass == Terminal ==> Storable(x.op))
    && ((x.Sending? || x.Settled?) && x.source.Replay? ==> c.restore(x.source.row) == Some(x.op))
  }

  ghost predicate WorkersOk(c: Config, s: State) {
    |s.workers| >= 1 && forall i: nat :: i < |s.workers| ==> WorkerOk(c, s.workers[i], i)
  }

  /** The rows a replay has read and not dealt with. */
  function Snapshot(x: Worker): (rows: seq<Row>) {
    if x.Sweeping? then x.rows
    else if (x.Sending? || x.Settled? || x.Leaving?) && x.source.Replay? then [x.source.row] + x.source.rest
    else []
  }

  /** A row read earlier is still the only one with its id, if it is still there. */
  ghost predicate Known(s: State, row: Row) {
    row.id < s.nextId && forall r :: r in s.rows && r.id == row.id ==> r == row
  }

  ghost predicate RowsOk(s: State) {
    && s.nextId >= 1 && Within(s.rows, 0, s.nextId)
    && |s.workers| >= 1 && forall row :: row in Snapshot(s.workers[0]) ==> Known(s, row)
  }

  /* ---- sums, one operation at a time ---- */

  lemma {:induction false} WithoutNone(rows: seq<Row>, id: nat)
    requires forall r :: r in rows ==> r.id != id
    ensures WithoutIds(rows, {id}) == rows
  {
    if rows == [] {
    } else {
      assert rows[0] in rows;
      WithoutNone(rows[1..], id);
    }
  }

  /** Deleting a row takes out its contribution and no other. */
  lemma {:induction false} BagWithout(f: Row -> multiset<Op>, rows: seq<Row>, i: nat, op: Op)
    requires Sorted(rows) && i < |rows|
    ensures Bag(f, rows)[op] == Bag(f, WithoutIds(rows, {rows[i].id}))[op] + f(rows[i])[op]
  {
    if i == 0 {
      forall r | r in rows[1..] ensures r.id != rows[0].id {
        var j :| 0 <= j < |rows[1..]| && rows[1..][j] == r;
        assert rows[j + 1] == r;
      }
      WithoutNone(rows[1..], rows[0].id);
    } else {
      assert rows[0].id < rows[i].id;
      BagWithout(f, rows[1..], i - 1, op);
      var rest := WithoutIds(rows[1..], {rows[i].id});
      assert WithoutIds(rows, {rows[i].id}) == [rows[0]] + rest;
      assert ([rows[0]] + rest)[1..] == rest;
    }
  }

  /** Spooling moves one operation into the store, or past it, and drops none. */
  lemma SpooledBalances(c: Config, s: State, x: Op, nbytes: nat, ts: real, op: Op)
    requires ReadsByDecode(c) && Storable(x) && x.queueClass == Terminal && Encode(x).Some?
    ensures var t := Spooled(c, s, x, nbytes, ts);
            Contents(c, t.rows)[op] + t.evicted[op]
            == Contents(c, s.rows)[op] + s.evicted[op] + multiset{x}[op]
  {
    var f, row := Reader(c), RowOf(x, s.nextId, nbytes, ts);
    var all := s.rows + [row];
    var n := Excess(all, c.bounds);
    RestoredIffStorable(x, row.key, c.python);
    assert f(row) == multiset{x};
    BagAppend(f, s.rows, [row], op);
    BagOne(f, row, op);
    assert all == all[..n] + all[n..];
    BagAppend(f, all[..n], all[n..], op);
  }

  lemma StorableEncodes(op: Op)
    requires Storable(op)
    ensures Encode(op).Some?
  {
    RestoredIffStorable(op, None, Python(_ => "", _ => None));
  }
}
