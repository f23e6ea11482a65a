/** The durable spool: rows in id order, bounded in number and in bytes by dropping the oldest. */
module Spool {
  import opened Wrappers
  import opened Operations

  datatype Row = Row(id: nat, cls: QueueClass, key: Option<string>, payload: Payload, nbytes: nat, ts: real)

  datatype Bounds = Bounds(entries: nat, bytes: nat)

  const BATCH := 256

  function Bytes(rows: seq<Row>): (n: nat) {
    if rows == [] then 0 else rows[0].nbytes + Bytes(rows[1..])
  }

  predicate Fits(rows: seq<Row>, b: Bounds) {
    |rows| <= b.entries && Bytes(rows) <= b.bytes
  }

  ghost predicate Sorted(rows: seq<Row>) {
    && (forall i :: 0 <= i < |rows| ==> rows[i].id >= 1)
    && (forall i, j :: 0 <= i < j < |rows| ==> rows[i].id < rows[j].id)
  }

  /** How many rows go when the oldest is dropped, one at a time, until the rest fits or is the newest alone. */
  function Excess(rows: seq<Row>, b: Bounds): (n: nat)
    ensures n <= |rows|
    ensures rows != [] ==> n < |rows|
  {
    if |rows| <= 1 || Fits(rows, b) then 0 else 1 + Excess(rows[1..], b)
  }

  function Trimmed(rows: seq<Row>, b: Bounds): (r: seq<Row>) {
    rows[Excess(rows, b)..]
  }

  /**
    Trimming leaves the longest suffix that fits both bounds; the newest row alone if none fits. Every longer
    suffix is too large.
  */
  lemma {:induction false} TrimmedIsLongestFit(rows: seq<Row>, b: Bounds, m: nat)
    ensures rows != [] ==> Trimmed(rows, b) != [] && Trimmed(rows, b)[|Trimmed(rows, b)| - 1] == rows[|rows| - 1]
    ensures |Trimmed(rows, b)| > 1 ==> Fits(Trimmed(rows, b), b)
    ensures m < |rows| && Fits(rows[m..], b) ==> Excess(rows, b) <= m && Fits(Trimmed(rows, b), b)
  {
    if |rows| <= 1 || Fits(rows, b) {
      assert rows[0..] == rows;
      assert m < |rows| ==> m == 0 || Fits(rows, b);
    } else {
      TrimmedIsLongestFit(rows[1..], b, if m == 0 then 0 else m - 1);
      assert rows[0..] == rows;
      assert 0 < m < |rows| ==> rows[1..][m - 1..] == rows[m..];
      assert rows[1..][Excess(rows[1..], b)..] == rows[Excess(rows, b)..];
    }
  }

  /** SELECT ... WHERE id > last ORDER BY id. */
  function Above(rows: seq<Row>, last: nat): (r: seq<Row>) {
    if rows == [] then []
    else if rows[0].id > last then [rows[0]] + Above(rows[1..], last) else Above(rows[1..], last)
  }

  function Limited(rows: seq<Row>, limit: nat): (r: seq<Row>) {
    if |rows| <= limit then rows else rows[..limit]
  }

  function WithoutIds(rows: seq<Row>, ids: set<nat>): (r: seq<Row>)
    ensures |r| <= |rows|
  {
    if rows == [] then []
    else if rows[0].id in ids then WithoutIds(rows[1..], ids) else [rows[0]] + WithoutIds(rows[1..], ids)
  }

  function WithoutKey(rows: seq<Row>, cls: QueueClass, key: Option<string>): (r: seq<Row>) {
    if rows == [] then []
    else if rows[0].cls == cls && rows[0].key == key then WithoutKey(rows[1..], cls, key)
    else [rows[0]] + WithoutKey(rows[1..], cls, key)
  }

  function OfClass(rows: seq<Row>, cls: QueueClass): (r: seq<Row>) {
    if rows == [] then []
    else if rows[0].cls == cls then [rows[0]] + OfClass(rows[1..], cls) else OfClass(rows[1..], cls)
  }

  /** The rows an insertion starts from: a new observation replaces the stored ones of its key. */
  function Coalesced(rows: seq<Row>, row: Row): (r: seq<Row>) {
    if row.cls == Latest && row.key.Some? then WithoutKey(rows, row.cls, row.key) else rows
  }

  /** What an insertion keeps: all rows, but for the observations of the same key when it is one with a key. */
  lemma CoalescedHas(rows: seq<Row>, row: Row, x: Row)
    ensures x in Coalesced(rows, row) <==>
            x in rows && !(row.cls == Latest && row.key.Some? && x.cls == Latest && x.key == row.key)
  {
    WithoutKeyHas(rows, row.cls, row.key, x);
  }

  function Inserted(rows: seq<Row>, row: Row, b: Bounds): (r: seq<Row>) {
    Trimmed(Coalesced(rows, row) + [row], b)
  }

  lemma {:induction false} BytesAppend(a: seq<Row>, b: seq<Row>)
    ensures Bytes(a + b) == Bytes(a) + Bytes(b)
  {
    if a == [] {
      assert a + b == b;
    } else {
      BytesAppend(a[1..], b);
      assert (a + b)[0] == a[0] && (a + b)[1..] == a[1..] + b;
    }
  }

  /* ---- filters keep the order ---- */

  lemma {:induction false} AboveAll(rows: seq<Row>, last: nat)
    requires forall i :: 0 <= i < |rows| ==> rows[i].id > last
    ensures Above(rows, last) == rows
  {
    if rows == [] {
    } else {
      AboveAll(rows[1..], last);
    }
  }

  /** Above the id of a row stand exactly the rows after it. */
  lemma {:induction false} AboveSuffix(rows: seq<Row>, d: nat, last: nat)
    requires Sorted(rows) && d <= |rows|
    requires last == if d == 0 then 0 else rows[d - 1].id
    ensures Above(rows, last) == rows[d..]
  {
    if d == 0 {
      AboveAll(rows, 0);
    } else if d == 1 {
      AboveAll(rows[1..], last);
    } else {
      AboveSuffix(rows[1..], d - 1, last);
    }
  }

  ghost predicate Within(rows: seq<Row>, low: nat, high: nat) {
    Sorted(rows) && forall i :: 0 <= i < |rows| ==> low < rows[i].id < high
  }

  lemma Prepend(row: Row, rest: seq<Row>, low: nat, high: nat)
    requires low < row.id < high && Within(rest, row.id, high)
    ensures Within([row] + rest, low, high)
  {
  }

  lemma {:induction false} WithoutKeyKeeps(rows: seq<Row>, cls: QueueClass, key: Option<string>, low: nat, high: nat)
    requires Within(rows, low, high)
    ensures Within(WithoutKey(rows, cls, key), low, high)
  {
    if rows == [] {
    } else {
      var rest := WithoutKey(rows[1..], cls, key);
      WithoutKeyKeeps(rows[1..], cls, key, rows[0].id, high);
      Prepend(rows[0], rest, low, high);
      assert Within(rest, low, high);
    }
  }

  lemma {:induction false} WithoutIdsKeeps(rows: seq<Row>, ids: set<nat>, low: nat, high: nat)
    requires Within(rows, low, high)
    ensures Within(WithoutIds(rows, ids), low, high)
  {
    if rows == [] {
    } else {
      var rest := WithoutIds(rows[1..], ids);
      WithoutIdsKeeps(rows[1..], ids, rows[0].id, high);
      Prepend(rows[0], rest, low, high);
      assert Within(rest, low, high);
    }
  }

  lemma {:induction false} WithoutKeyHas(rows: seq<Row>, cls: QueueClass, key: Option<string>, r: Row)
    ensures r in WithoutKey(rows, cls, key) <==> r in rows && !(r.cls == cls && r.key == key)
  {
    if rows == [] {
    } else {
      WithoutKeyHas(rows[1..], cls, key, r);
      assert rows == [rows[0]] + rows[1..];
    }
  }

  lemma {:induction false} WithoutIdsHas(rows: seq<Row>, ids: set<nat>, r: Row)
    ensures r in WithoutIds(rows, ids) <==> r in rows && r.id !in ids
  {
    if rows == [] {
    } else {
      WithoutIdsHas(rows[1..], ids, r);
      assert rows == [rows[0]] + rows[1..];
    }
  }

  lemma {:induction false} OfClassKeeps(rows: seq<Row>, cls: QueueClass, low: nat, high: nat)
    requires Within(rows, low, high)
    ensures Within(OfClass(rows, cls), low, high)
  {
    if rows == [] {
    } else {
      OfClassKeeps(rows[1..], cls, rows[0].id, high);
      Prepend(rows[0], OfClass(rows[1..], cls), low, high);
      assert Within(OfClass(rows[1..], cls), low, high);
    }
  }

  lemma {:induction false} OfClassHas(rows: seq<Row>, cls: QueueClass, r: Row)
    ensures r in OfClass(rows, cls) <==> r in rows && r.cls == cls
  {
    if rows == [] {
    } else {
      OfClassHas(rows[1..], cls, r);
      assert rows == [rows[0]] + rows[1..];
    }
  }

  /** What the limit leaves out is younger than what it keeps. */
  lemma LimitedIsOldest(rows: seq<Row>, limit: nat)
    requires Sorted(rows)
    ensures Limited(rows, limit) <= rows && |Limited(rows, limit)| <= limit && Sorted(Limited(rows, limit))
    ensures forall x :: x in rows && x !in Limited(rows, limit) ==>
              |Limited(rows, limit)| == limit && forall y :: y in Limited(rows, limit) ==> y.id < x.id
  {
  }

  /** The scan of a trim has passed the first `dropped` rows, all of them in excess. */
  ghost predicate Scanned(rows: seq<Row>, b: Bounds, count: int, total: int, dropped: nat, lastId: nat) {
    && dropped <= |rows|
    && count == |rows| - dropped
    && total == Bytes(rows[dropped..])
    && lastId == (if dropped == 0 then 0 else rows[dropped - 1].id)
    && Excess(rows, b) == dropped + Excess(rows[dropped..], b)
  }

  predicate Over(count: int, total: int, b: Bounds) {
    count > 1 && (count > b.entries || total > b.bytes)
  }

  lemma ScanOne(rows: seq<Row>, b: Bounds, count: int, total: int, dropped: nat, lastId: nat)
    requires Scanned(rows, b, count, total, dropped, lastId) && Over(count, total, b)
    ensures dropped < |rows|
    ensures Scanned(rows, b, count - 1, total - rows[dropped].nbytes, dropped + 1, rows[dropped].id)
  {
  }

  lemma ScanEnds(rows: seq<Row>, b: Bounds, count: int, total: int, dropped: nat, lastId: nat)
    requires Scanned(rows, b, count, total, dropped, lastId) && !Over(count, total, b)
    ensures dropped == Excess(rows, b)
  {
  }

  lemma NextBatch(rows: seq<Row>, d: nat, last: nat)
    requires Sorted(rows) && d < |rows| && last == if d == 0 then 0 else rows[d - 1].id
    ensures var batch := Limited(Above(rows, last), BATCH);
            0 < |batch| <= |rows| - d && batch == rows[d..d + |batch|]
  {
    AboveSuffix(rows, d, last);
  }

  lemma SuffixWithin(rows: seq<Row>, d: nat, low: nat, high: nat)
    requires Within(rows, low, high) && d <= |rows|
    ensures Within(rows[d..], low, high)
  {
  }

  /** One fetched batch: stops in the middle as soon as the rest fits. */
  method ScanBatch(ghost rows: seq<Row>, b: Bounds, batch: seq<Row>, count0: int, total0: int, dropped0: nat, lastId0: nat)
    returns (count: int, total: int, dropped: nat, lastId: nat)
    requires Scanned(rows, b, count0, total0, dropped0, lastId0) && Over(count0, total0, b)
    requires 0 < |batch| <= |rows| - dropped0 && batch == rows[dropped0..dropped0 + |batch|]
    ensures Scanned(rows, b, count, total, dropped, lastId) && count < count0
  {
    count, total, dropped, lastId := count0, total0, dropped0, lastId0;
    for i := 0 to |batch|
      invariant dropped == dropped0 + i && count == count0 - i
      invariant Scanned(rows, b, count, total, dropped, lastId)
      invariant i == 0 ==> Over(count, total, b)
    {
      if !Over(count, total, b) {
        return;
      }
      ScanOne(rows, b, count, total, dropped, lastId);
      lastId := batch[i].id;
      count := count - 1;
      total := total - batch[i].nbytes;
      dropped := dropped + 1;
    }
  }

  /* ---- the store ---- */

  class SpoolStore {
    const bounds: Bounds
    var rows: seq<Row>
    var nextId: nat

    ghost predicate Valid()
      reads this
    {
      bounds.entries >= 1 && nextId >= 1 && Within(rows, 0, nextId)
    }

    constructor (bounds: Bounds)
      requires bounds.entries >= 1
      ensures Valid() && rows == [] && this.bounds == bounds && nextId == 1
    {
      this.bounds := bounds;
      rows, nextId := [], 1;
    }

    /** spool_put: answers how many rows the bounds cost; a replaced observation is not counted. */
    method Put(cls: QueueClass, key: Option<string>, payload: Payload, nbytes: nat, ts: real) returns (dropped: nat)
      requires Valid()
      modifies this
      ensures Valid() && nextId == old(nextId) + 1
      ensures var row := Row(old(nextId), cls, key, payload, nbytes, ts);
              && rows == Inserted(old(rows), row, bounds)
              && dropped == Excess(Coalesced(old(rows), row) + [row], bounds)
    {
      if cls == Latest && key.Some? {
        WithoutKeyKeeps(rows, cls, key, 0, nextId);
        rows := WithoutKey(rows, cls, key);
      }
      rows := rows + [Row(nextId, cls, key, payload, nbytes, ts)];
      nextId := nextId + 1;
      dropped := TrimSpool();
    }

    /**
      _trim_spool: scans evictions in batches of 256 ids above the last one seen, then deletes that prefix.
      It drops exactly what the one-row-at-a-time rule drops.
    */
    method TrimSpool() returns (dropped: nat)
      requires Valid()
      modifies this`rows
      ensures Valid()
      ensures rows == Trimmed(old(rows), bounds) && dropped == Excess(old(rows), bounds)
    {
      var count, total := |rows|, Bytes(rows);
      var lastId := 0;
      dropped := 0;
      assert rows[0..] == rows;
      while Over(count, total, bounds)
        invariant rows == old(rows) && Scanned(rows, bounds, count, total, dropped, lastId)
        decreases count
      {
        NextBatch(rows, dropped, lastId);
        var batch := Limited(Above(rows, lastId), BATCH);
        count, total, dropped, lastId := ScanBatch(rows, bounds, batch, count, total, dropped, lastId);
      }
      ScanEnds(rows, bounds, count, total, dropped, lastId);
      if dropped > 0 {
        AboveSuffix(rows, dropped, lastId);
        SuffixWithin(rows, dropped, 0, nextId);
        rows := Above(rows, lastId);
      }
    }

    /**
      spool_list: rows of the class, or of any, in the order of their ids; a row of the class is left out only
      when the limit is reached and every row answered is older.
    */
    method Oldest(limit: nat, cls: Option<QueueClass>) returns (r: seq<Row>)
      requires Valid()
      ensures |r| <= limit && Sorted(r)
      ensures forall x :: x in r ==> x in rows && (cls.Some? ==> x.cls == cls.value)
      ensures forall x :: x in rows && x !in r && (cls.Some? ==> x.cls == cls.value) ==>
                |r| == limit && forall y :: y in r ==> y.id < x.id
      ensures cls.None? ==> r <= rows && |r| == if |rows| <= limit then |rows| else limit
    {
      var all := rows;
      if cls.Some? {
        OfClassKeeps(rows, cls.value, 0, nextId);
        all := OfClass(rows, cls.value);
      }
      forall x ensures x in all <==> x in rows && (cls.Some? ==> x.cls == cls.value) {
        if cls.Some? {
          OfClassHas(rows, cls.value, x);
        }
      }
      LimitedIsOldest(all, limit);
      r := Limited(all, limit);
    }

    method Delete(ids: set<nat>) returns (n: nat)
      requires Valid()
      modifies this`rows
      ensures Valid()
      ensures rows == WithoutIds(old(rows), ids) && n == |old(rows)| - |rows|
    {
      WithoutIdsKeeps(rows, ids, 0, nextId);
      var kept := WithoutIds(rows, ids);
      n := |rows| - |kept|;
      rows := kept;
    }
  }
}
