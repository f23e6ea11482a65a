/** Service and action transactions: a closed vocabulary, and terminal states that never change. */
module Transactions {
  import opened Wrappers

  datatype Kind = Service | Action

  datatype Step =
    | Pending | Accepted | Invoked | Responded | Timeout | Rejected | Failed | Duplicate
    | GoalPending | GoalSent | GoalAccepted | Executing | Canceling
    | Succeeded | Aborted | Canceled | GoalRejected | ServerUnavailable | Expired | DuplicateGoal
    | CancelAccepted | CancelRejected | OrphanedAtRestart | ShutdownAbandoned | ResultReceived

  datatype Tx = Tx(kind: Kind, state: Step, number: nat, timeoutMs: nat, started: real, updated: real)

  predicate ServiceTerminal(s: Step) {
    s == Responded || s == Timeout || s == Rejected || s == Failed || s == Duplicate
  }

  predicate ActionTerminal(s: Step) {
    || s == Succeeded || s == Aborted || s == Canceled || s == GoalRejected || s == Timeout || s == Failed
    || s == ServerUnavailable || s == Expired || s == DuplicateGoal || s == CancelAccepted || s == CancelRejected
    || s == OrphanedAtRestart || s == ShutdownAbandoned || s == ResultReceived
  }

  predicate Terminal(k: Kind, s: Step) {
    if k == Service then ServiceTerminal(s) else ActionTerminal(s)
  }

  /** The closed vocabulary of a kind. */
  predicate Known(k: Kind, s: Step) {
    if k == Service then ServiceTerminal(s) || s == Pending || s == Accepted || s == Invoked
    else
      || ActionTerminal(s) || s == Pending || s == GoalPending || s == GoalSent || s == GoalAccepted
      || s == Executing || s == Canceling || s == Duplicate
  }

  predicate Active(t: Tx) {
    Known(t.kind, t.state) && !Terminal(t.kind, t.state)
  }

  /** The vocabulary of services by name: what a transaction goes through, and how it ends. */
  lemma ServiceVocabulary(s: Step)
    ensures Known(Service, s) && !Terminal(Service, s) <==> s in {Pending, Accepted, Invoked}
    ensures Terminal(Service, s) <==> s in {Responded, Timeout, Rejected, Failed, Duplicate}
    ensures Terminal(Service, s) ==> Known(Service, s)
  {
  }

  /** The vocabulary of actions by name. */
  lemma ActionVocabulary(s: Step)
    ensures Known(Action, s) && !Terminal(Action, s) <==>
            s in {Pending, GoalPending, GoalSent, GoalAccepted, Executing, Canceling, Duplicate}
    ensures Terminal(Action, s) <==>
            s in {Succeeded, Aborted, Canceled, GoalRejected, Timeout, Failed, ServerUnavailable, Expired,
                  DuplicateGoal, CancelAccepted, CancelRejected, OrphanedAtRestart, ShutdownAbandoned, ResultReceived}
    ensures Terminal(Action, s) ==> Known(Action, s)
  {
  }

  type Table = map<string, Tx>

  /* ---- one transaction block each ---- */

  function Initially(k: Kind): (s: Step) {
    if k == Service then Pending else GoalPending
  }

  function Begun(t: Table, corr: string, k: Kind, timeoutMs: nat, ts: real): (r: Table) {
    if corr in t then t else t[corr := Tx(k, Initially(k), 0, timeoutMs, ts, ts)]
  }

  /** The row moves if it is there, active, and the state is one of its kind. */
  predicate Moves(t: Table, corr: string, s: Step) {
    corr in t && Known(t[corr].kind, s) && Active(t[corr])
  }

  function Updated(t: Table, corr: string, s: Step, ts: real): (r: Table) {
    if Moves(t, corr, s) then t[corr := t[corr].(state := s, updated := ts)] else t
  }

  function Numbered(t: Table, corr: string, ts: real): (r: Table) {
    if corr in t then t[corr := t[corr].(number := t[corr].number + 1, updated := ts)] else t
  }

  predicate TimedOut(t: Tx, now: real) {
    t.timeoutMs > 0 && Active(t) && (now - t.started) * 1000.0 >= t.timeoutMs as real
  }

  /** All expired transactions among the given ones move to timeout. */
  function Swept(t: Table, among: set<string>, now: real): (r: Table) {
    map c | c in t :: if c in among && TimedOut(t[c], now) then t[c].(state := Timeout, updated := now) else t[c]
  }

  ghost predicate Vocabulary(t: Table) {
    forall c :: c in t ==> Known(t[c].kind, t[c].state)
  }

  lemma {:induction false} SubsetSize(a: set<string>, b: set<string>)
    requires a <= b
    ensures |a| <= |b|
  {
    if a == {} {
    } else {
      var x :| x in a;
      SubsetSize(a - {x}, b - {x});
    }
  }

  datatype VocabularyError = NotInVocabulary | NegativeTimeout

  /** Part of a kind's sweep: what is timed out had expired, and what had expired is timed out or still to do. */
  ghost predicate SweepSoFar(t: Table, k: Kind, todo: set<string>, timedOut: set<string>, now: real) {
    && (forall c :: c in todo ==> c in t && t[c].kind == k && Active(t[c]) && c !in timedOut)
    && (forall c :: c in timedOut ==> c in t && t[c].kind == k && TimedOut(t[c], now))
    && (forall c :: c in t && t[c].kind == k && TimedOut(t[c], now) ==> c in todo || c in timedOut)
  }

  lemma SweepDone(t: Table, k: Kind, timedOut: set<string>, now: real)
    requires SweepSoFar(t, k, {}, timedOut, now)
    ensures timedOut == set c | c in t && t[c].kind == k && TimedOut(t[c], now)
  {
  }

  lemma SweepOne(t: Table, k: Kind, todo: set<string>, timedOut: set<string>, now: real, corr: string)
    requires SweepSoFar(t, k, todo + {corr}, timedOut, now) && corr !in todo && TimedOut(t[corr], now)
    ensures Updated(Swept(t, timedOut, now), corr, Timeout, now) == Swept(t, timedOut + {corr}, now)
    ensures SweepSoFar(t, k, todo, timedOut + {corr}, now)
  {
  }

  /* ---- the store and the two managers ---- */

  class TransactionStore {
    var rows: Table

    ghost predicate Valid()
      reads this
    {
      Vocabulary(rows)
    }

    constructor ()
      ensures Valid() && rows == map[]
    {
      rows := map[];
    }

    /** begin: false for a correlation id that is already there, whatever its kind. */
    method Begin(corr: string, kind: Kind, timeoutMs: int, ts: real) returns (r: Result<bool, VocabularyError>)
      requires Valid()
      modifies this
      ensures Valid() && (r.Err? <==> timeoutMs < 0)
      ensures r.Ok? ==> (r.value <==> corr !in old(rows)) && rows == Begun(old(rows), corr, kind, timeoutMs, ts)
      ensures r == Ok(true) ==>
                rows == old(rows)[corr := Tx(kind, if kind == Service then Pending else GoalPending, 0, timeoutMs, ts,
                                             ts)]
      ensures r.Err? ==> rows == old(rows)
    {
      if timeoutMs < 0 {
        return Err(NegativeTimeout);
      }
      if corr in rows {
        return Ok(false);
      }
      rows := rows[corr := Tx(kind, Initially(kind), 0, timeoutMs, ts, ts)];
      return Ok(true);
    }

    /** update_transaction: an active row takes any state of its vocabulary, a terminal one takes none. */
    method Update(corr: string, state: Step, ts: real) returns (r: Result<bool, VocabularyError>)
      requires Valid()
      modifies this
      ensures Valid() && rows == Updated(old(rows), corr, state, ts)
      ensures r.Err? <==> corr in old(rows) && !Known(old(rows)[corr].kind, state)
      ensures r.Ok? ==> (r.value <==> Moves(old(rows), corr, state))
      ensures rows == if r == Ok(true) then old(rows)[corr := old(rows)[corr].(state := state, updated := ts)]
                      else old(rows)
      ensures r == Ok(true) <==> corr in old(rows) && Active(old(rows)[corr]) && Known(old(rows)[corr].kind, state)
    {
      if corr !in rows {
        return Ok(false);
      }
      var row := rows[corr];
      if !Known(row.kind, state) {
        return Err(NotInVocabulary);
      }
      if !Active(row) {
        return Ok(false);
      }
      rows := rows[corr := row.(state := state, updated := ts)];
      return Ok(true);
    }

    method NextSeq(corr: string, ts: real) returns (n: nat)
      requires Valid()
      modifies this
      ensures Valid() && rows == Numbered(old(rows), corr, ts)
      ensures corr in old(rows) ==> rows == old(rows)[corr := old(rows)[corr].(number := n, updated := ts)]
      ensures n == if corr in old(rows) then old(rows)[corr].number + 1 else 0
    {
      if corr !in rows {
        return 0;
      }
      rows := rows[corr := rows[corr].(number := rows[corr].number + 1, updated := ts)];
      return rows[corr].number;
    }

    /** cleanup of transactions: the terminal rows unchanged for long enough are gone, and no other. */
    method Cleanup(cutoff: real) returns (n: nat)
      requires Valid()
      modifies this
      ensures Valid()
      ensures forall c :: c in rows <==> c in old(rows) && (Active(old(rows)[c]) || old(rows)[c].updated > cutoff)
      ensures forall c :: c in rows ==> rows[c] == old(rows)[c]
      ensures n == |old(rows)| - |rows|
    {
      var gone := set c | c in rows && !Active(rows[c]) && rows[c].updated <= cutoff;
      var kept := rows - gone;
      SubsetSize(kept.Keys, rows.Keys);
      n := |rows| - |kept|;
      rows := kept;
    }

    /** The active transactions of a kind. */
    method ActiveOf(kind: Kind) returns (ids: set<string>)
      ensures ids == set c | c in rows && rows[c].kind == kind && Active(rows[c])
    {
      ids := set c | c in rows && rows[c].kind == kind && Active(rows[c]);
    }

    /**
      The managers' sweep: walks the active transactions of one kind and answers those it timed out. Every one
      that has a timeout, and whose start is that long ago, is moved, once, and no other row changes.
    */
    method SweepTimeouts(kind: Kind, now: real) returns (timedOut: set<string>)
      requires Valid()
      modifies this
      ensures Valid()
      ensures timedOut == set c | c in old(rows) && old(rows)[c].kind == kind && TimedOut(old(rows)[c], now)
      ensures rows == Swept(old(rows), timedOut, now)
      ensures forall c :: c in timedOut <==>
                && c in old(rows) && old(rows)[c].kind == kind && Active(old(rows)[c])
                && old(rows)[c].timeoutMs != 0
                && now - old(rows)[c].started >= old(rows)[c].timeoutMs as real / 1000.0
      ensures forall c :: c in old(rows) ==>
                c in rows
                && rows[c] == if c in timedOut then old(rows)[c].(state := Timeout, updated := now) else old(rows)[c]
    {
      timedOut := {};
      var todo := ActiveOf(kind);
      ghost var start := rows;
      while todo != {}
        invariant Valid() && SweepSoFar(start, kind, todo, timedOut, now) && rows == Swept(start, timedOut, now)
        decreases |todo|
      {
        var corr :| corr in todo;
        assert todo == (todo - {corr}) + {corr};
        todo := todo - {corr};
        var row := rows[corr];
        assert row == start[corr];
        if row.timeoutMs != 0 && (now - row.started) * 1000.0 >= row.timeoutMs as real {
          var moved := Update(corr, Timeout, now);
          SweepOne(start, kind, todo, timedOut, now, corr);
          timedOut := timedOut + {corr};
        } else {
          assert !TimedOut(row, now);
        }
      }
      SweepDone(start, kind, timedOut, now);
    }
  }

  /** A terminal row never changes its state again, whatever is asked of it. */
  lemma TerminalStays(t: Table, corr: string, other: string, s: Step, k: Kind, among: set<string>, ms: nat, ts: real)
    requires corr in t && !Active(t[corr])
    ensures corr in Begun(t, other, k, ms, ts) && Begun(t, other, k, ms, ts)[corr].state == t[corr].state
    ensures corr in Updated(t, other, s, ts) && Updated(t, other, s, ts)[corr].state == t[corr].state
    ensures corr in Numbered(t, other, ts) && Numbered(t, other, ts)[corr].state == t[corr].state
    ensures corr in Swept(t, among, ts) && Swept(t, among, ts)[corr].state == t[corr].state
  {
  }
}
