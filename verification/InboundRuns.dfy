/** Runs of the admission machine put together from pieces. */
module InboundRuns {
  import opened Wrappers
  import opened Ledgers
  import opened InboundQueues
  import opened Inbound

  ghost predicate Leads(c: Config, s: State, a: Action, t: State) {
    Enabled(c, s, a) && Apply(c, s, a) == t
  }

  lemma StepThen(c: Config, s: State, a: Action, t: State, rest: seq<Action>)
    requires Leads(c, s, a, t) && Legal(c, t, rest)
    ensures Legal(c, s, [a] + rest) && End(c, s, [a] + rest) == End(c, t, rest)
  {
  }

  /** An admission of an unknown request, with room in the queue, and what follows it. */
  function Admit(e: Event, cin: Option<nat>, bySweep: bool, rest: seq<Action>): (acts: seq<Action>) {
    [Begin(e, cin, bySweep)] + ([InsertRow] + ([PutEvent] + rest))
  }

  function Admitted(s: State, e: Event, cin: Option<nat>, bySweep: bool): (t: State) {
    Return(s.(lock := Some(Admission(e, cin, bySweep, Putting)), table := s.table[e.key := Queued],
           lanes := s.lanes.(normal := s.lanes.normal + [e])), true)
  }

  lemma AdmitNew(c: Config, s: State, e: Event, cin: Option<nat>, bySweep: bool, rest: seq<Action>)
    requires CanBegin(c, s, Begin(e, cin, bySweep)) && e.key !in s.table
    requires e.kind != Cancel && |s.lanes.normal| < c.bounds.normal
    requires Legal(c, Admitted(s, e, cin, bySweep), rest)
    ensures Legal(c, s, Admit(e, cin, bySweep, rest))
    ensures End(c, s, Admit(e, cin, bySweep, rest)) == End(c, Admitted(s, e, cin, bySweep), rest)
  {
    var s1 := s.(lock := Some(Admission(e, cin, bySweep, Inserting)));
    var s2 := s.(lock := Some(Admission(e, cin, bySweep, Putting)), table := s.table[e.key := Queued]);
    StepThen(c, s2, PutEvent, Admitted(s, e, cin, bySweep), rest);
    StepThen(c, s1, InsertRow, s2, [PutEvent] + rest);
    StepThen(c, s, Begin(e, cin, bySweep), s1, [InsertRow] + ([PutEvent] + rest));
  }

  /** An admission of a request that is already known, a duplicate, and what follows it. */
  function AdmitAgain(e: Event, cin: Option<nat>, bySweep: bool, rest: seq<Action>): (acts: seq<Action>) {
    [Begin(e, cin, bySweep)] + ([InsertRow] + ([ReacceptRow] + rest))
  }

  function Repeated(s: State, e: Event, cin: Option<nat>, bySweep: bool): (t: State) {
    Return(s.(lock := Some(Admission(e, cin, bySweep, Reaccepting))), true)
  }

  lemma AdmitKnown(c: Config, s: State, e: Event, cin: Option<nat>, bySweep: bool, rest: seq<Action>)
    requires CanBegin(c, s, Begin(e, cin, bySweep)) && e.key in s.table && s.table[e.key] != Overflow
    requires Legal(c, Repeated(s, e, cin, bySweep), rest)
    ensures Legal(c, s, AdmitAgain(e, cin, bySweep, rest))
    ensures End(c, s, AdmitAgain(e, cin, bySweep, rest)) == End(c, Repeated(s, e, cin, bySweep), rest)
  {
    var s1 := s.(lock := Some(Admission(e, cin, bySweep, Inserting)));
    var s2 := s.(lock := Some(Admission(e, cin, bySweep, Reaccepting)));
    StepThen(c, s2, ReacceptRow, Return(s2, true), rest);
    StepThen(c, s1, InsertRow, s2, [ReacceptRow] + rest);
    StepThen(c, s, Begin(e, cin, bySweep), s1, [InsertRow] + ([ReacceptRow] + rest));
  }
}
