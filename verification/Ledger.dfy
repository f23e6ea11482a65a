/** The admission ledger: which inbound request has been seen, and how far it has come. */
module Ledgers {
  import opened Wrappers

  datatype Key = Key(robot: string, iface: string, corr: string)

  datatype Final =
    | Succeeded | Failed | Expired | Rejected | Duplicate | Invalid | AccessDenied
    | Canceled | Unknown | ShuttingDown | ShutdownAbandoned

  datatype Status = Queued | Dispatched | Overflow | Ended(how: Final)

  /** The states of the rows; a missing key is a request never seen, or forgotten. */
  type Table = map<Key, Status>

  /* ---- one statement each ---- */

  function Insert(t: Table, k: Key): (r: Table) {
    if k in t then t else t[k := Queued]
  }

  predicate Is(t: Table, k: Key, s: Status) {
    k in t && t[k] == s
  }

  function Reaccept(t: Table, k: Key): (r: Table) {
    if Is(t, k, Overflow) then t[k := Queued] else t
  }

  function Mark(t: Table, k: Key): (r: Table) {
    if Is(t, k, Queued) then t[k := Overflow] else t
  }

  function Dispatch(t: Table, k: Key): (r: Table) {
    if Is(t, k, Queued) then t[k := Dispatched] else t
  }

  function Finish(t: Table, k: Key, how: Final): (r: Table) {
    if k in t && !t[k].Ended? then t[k := Ended(how)] else t
  }

  function Booted(s: Status): (r: Status) {
    match s
    case Queued => Overflow
    case Dispatched => Ended(Unknown)
    case _ => s
  }

  function SweepBoot(t: Table): (r: Table) {
    map k | k in t :: Booted(t[k])
  }

  /** Deletes the ended rows among the given keys. */
  function Forget(t: Table, keys: set<Key>): (r: Table) {
    map k | k in t && !(k in keys && t[k].Ended?) :: t[k]
  }

  /* ---- the ledger as the bridge keeps it ---- */

  datatype Row = Row(status: Status, eventId: string, ts: real)

  datatype Verdict = NewlyQueued | Reaccepted | AlreadyKnown

  class Ledger {
    var rows: map<Key, Row>

    function Statuses(): (t: Table)
      reads this
    {
      map k | k in rows :: rows[k].status
    }

    constructor ()
      ensures rows == map[]
    {
      rows := map[];
    }

    /** The first statement of admit: an insertion that fails on a known key. */
    method TryInsert(k: Key, eventId: string, ts: real) returns (isNew: bool)
      modifies this
      ensures isNew <==> k !in old(rows)
      ensures Statuses() == Insert(old(Statuses()), k)
      ensures rows == if isNew then old(rows)[k := Row(Queued, eventId, ts)] else old(rows)
    {
      if k in rows {
        return false;
      }
      rows := rows[k := Row(Queued, eventId, ts)];
      return true;
    }

    /** The second: a conditional update that takes an overflowed row back. */
    method TryReaccept(k: Key, eventId: string, ts: real) returns (ok: bool)
      modifies this
      ensures ok <==> Is(old(Statuses()), k, Overflow)
      ensures Statuses() == Reaccept(old(Statuses()), k)
      ensures rows == if ok then old(rows)[k := Row(Queued, eventId, ts)] else old(rows)
    {
      if k !in rows || rows[k].status != Overflow {
        return false;
      }
      rows := rows[k := Row(Queued, eventId, ts)];
      return true;
    }

    /** admit, with nothing between its two statements: a request is queued exactly if it was unknown or overflowed. */
    method Admit(k: Key, eventId: string, ts: real) returns (v: Verdict)
      modifies this
      ensures v == if k !in old(rows) then NewlyQueued
                   else if old(rows)[k].status == Overflow then Reaccepted else AlreadyKnown
      ensures rows == if v == AlreadyKnown then old(rows) else old(rows)[k := Row(Queued, eventId, ts)]
    {
      var inserted := TryInsert(k, eventId, ts);
      if inserted {
        return NewlyQueued;
      }
      var again := TryReaccept(k, eventId, ts);
      return if again then Reaccepted else AlreadyKnown;
    }

    method MarkOverflow(k: Key, ts: real) returns (ok: bool)
      modifies this
      ensures ok <==> Is(old(Statuses()), k, Queued)
      ensures Statuses() == Mark(old(Statuses()), k)
      ensures rows == if ok then old(rows)[k := old(rows)[k].(status := Overflow, ts := ts)] else old(rows)
    {
      if k !in rows || rows[k].status != Queued {
        return false;
      }
      rows := rows[k := rows[k].(status := Overflow, ts := ts)];
      return true;
    }

    /** Only the caller that moves the row from queued wins the dispatch. */
    method CasDispatch(k: Key, ts: real) returns (won: bool)
      modifies this
      ensures won <==> Is(old(Statuses()), k, Queued)
      ensures Statuses() == Dispatch(old(Statuses()), k)
      ensures rows == if won then old(rows)[k := old(rows)[k].(status := Dispatched, ts := ts)] else old(rows)
    {
      if k !in rows || rows[k].status != Queued {
        return false;
      }
      rows := rows[k := rows[k].(status := Dispatched, ts := ts)];
      return true;
    }

    /** An ended row never changes again. */
    method FinishRow(k: Key, how: Final, ts: real) returns (ok: bool)
      modifies this
      ensures ok <==> k in old(rows) && !old(rows)[k].status.Ended?
      ensures Statuses() == Finish(old(Statuses()), k, how)
      ensures rows == if ok then old(rows)[k := old(rows)[k].(status := Ended(how), ts := ts)] else old(rows)
    {
      if k !in rows || rows[k].status.Ended? {
        return false;
      }
      rows := rows[k := rows[k].(status := Ended(how), ts := ts)];
      return true;
    }

    /** sweep_boot answers the rows it found queued and dispatched, and moves them on in one transaction. */
    method Boot(ts: real) returns (queued: set<Key>, dispatched: set<Key>)
      modifies this
      ensures queued == (set k | k in old(rows) && old(rows)[k].status == Queued)
      ensures dispatched == (set k | k in old(rows) && old(rows)[k].status == Dispatched)
      ensures Statuses() == SweepBoot(old(Statuses()))
      ensures rows.Keys == old(rows).Keys
      ensures forall k :: k in rows ==>
                rows[k] == match old(rows)[k].status
                           case Queued => old(rows)[k].(status := Overflow, ts := ts)
                           case Dispatched => old(rows)[k].(status := Ended(Unknown), ts := ts)
                           case _ => old(rows)[k]
    {
      queued := set k | k in rows && rows[k].status == Queued;
      dispatched := set k | k in rows && rows[k].status == Dispatched;
      rows := map k | k in rows ::
        if k in queued then rows[k].(status := Overflow, ts := ts)
        else if k in dispatched then rows[k].(status := Ended(Unknown), ts := ts)
        else rows[k];
    }

    /** cleanup of admissions: the ended rows whose last change is old enough are gone, and no other. */
    method Cleanup(cutoff: real) returns (n: nat)
      modifies this
      ensures forall k :: k in rows <==> k in old(rows) && !(old(rows)[k].status.Ended? && old(rows)[k].ts <= cutoff)
      ensures forall k :: k in rows ==> rows[k] == old(rows)[k]
      ensures n == |old(rows)| - |rows|
      ensures exists keys :: Statuses() == Forget(old(Statuses()), keys)
    {
      var gone := set k | k in rows && rows[k].status.Ended? && rows[k].ts <= cutoff;
      var kept := rows - gone;
      assert |kept| <= |rows| by {
        assert kept.Keys <= rows.Keys;
        SubsetSize(kept.Keys, rows.Keys);
      }
      n := |rows| - |kept|;
      rows := kept;
      assert Statuses() == Forget(old(Statuses()), gone);
    }
  }

  lemma {:induction false} SubsetSize(a: set<Key>, b: set<Key>)
    requires a <= b
    ensures |a| <= |b|
  {
    if a == {} {
    } else {
      var x :| x in a;
      SubsetSize(a - {x}, b - {x});
    }
  }
}
