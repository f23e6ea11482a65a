/**
  One outcome per request: callbacks, timeouts, disappearing servers, shutdown and restart race for the state of
  a transaction; whoever moves it to its answer, and only they, enqueue the answer.
*/
module TransactionRuns {
  import opened Wrappers
  import opened Transactions

  /** reply says whether a response or result path is known, feedbackPath whether a feedback path is. */
  datatype Config = Config(reply: bool, feedbackPath: bool)

  /**
    inflight is the tracking of requests sent; owed are answers taken but not yet enqueued; replies and feedback
    are the operations enqueued; closed are the requests whose tracking a finish removed.
  */
  datatype State = State(
    rows: Table,
    inflight: set<string>,
    owed: multiset<string>,
    replies: multiset<string>,
    feedback: seq<(string, nat)>,
    closed: set<string>)

  const START := State(map[], {}, multiset{}, multiset{}, [], {})

  datatype Action =
    | Start(corr: string, kind: Kind, timeoutMs: nat, ts: real)
    | SetState(corr: string, step: Step, ts: real)
    | Answer(corr: string, ts: real)
    | Reply(corr: string)
    | Feedback(corr: string, ts: real)
    | FinishTracking(corr: string)
    | Crash

  /** The state that carries the answer of a request. */
  function AnswerOf(k: Kind): (s: Step) {
    if k == Service then Responded else ResultReceived
  }

  predicate Answered(t: Table, corr: string) {
    corr in t && t[corr].state == AnswerOf(t[corr].kind)
  }

  /** The dispatch of a request: a known correlation id is a duplicate and starts nothing. */
  function AfterStart(s: State, corr: string, kind: Kind, timeoutMs: nat, ts: real): (r: State) {
    if corr in s.rows then s
    else s.(rows := Begun(s.rows, corr, kind, timeoutMs, ts), inflight := s.inflight + {corr})
  }

  /** The first half of an answering callback: the state is moved if the transaction is still active. */
  function AfterAnswer(s: State, corr: string, ts: real): (r: State)
    requires corr in s.rows
  {
    var step := AnswerOf(s.rows[corr].kind);
    if Moves(s.rows, corr, step) then
      s.(rows := Updated(s.rows, corr, step, ts), owed := s.owed + multiset{corr})
    else s
  }

  /** The second half: the response or result is enqueued if there is a path for it. */
  function AfterReply(c: Config, s: State, corr: string): (r: State)
    requires corr in s.owed
  {
    s.(owed := s.owed - multiset{corr}, replies := if c.reply then s.replies + multiset{corr} else s.replies)
  }

  /** on_feedback: only for a request still tracked; the number is drawn even if there is no path. */
  function AfterFeedback(c: Config, s: State, corr: string, ts: real): (r: State) {
    if corr !in s.inflight || corr !in s.rows then s
    else
      s.(rows := Numbered(s.rows, corr, ts),
      feedback := if c.feedbackPath then s.feedback + [(corr, s.rows[corr].number + 1)] else s.feedback)
  }

  predicate Enabled(s: State, a: Action) {
    match a
    case SetState(corr, step, _) => corr in s.rows ==> step != AnswerOf(s.rows[corr].kind)
    case Answer(corr, _) => corr in s.rows
    case Reply(corr) => corr in s.owed
    case _ => true
  }

  function Apply(c: Config, s: State, a: Action): (r: State)
    requires Enabled(s, a)
  {
    match a
    case Start(corr, kind, timeoutMs, ts) => AfterStart(s, corr, kind, timeoutMs, ts)
    case SetState(corr, step, ts) => s.(rows := Updated(s.rows, corr, step, ts))
    case Answer(corr, ts) => AfterAnswer(s, corr, ts)
    case Reply(corr) => AfterReply(c, s, corr)
    case Feedback(corr, ts) => AfterFeedback(c, s, corr, ts)
    case FinishTracking(corr) =>
      if corr in s.inflight then s.(inflight := s.inflight - {corr}, closed := s.closed + {corr}) else s
    case Crash => s.(inflight := {}, owed := multiset{})
  }

  ghost predicate Legal(c: Config, s: State, acts: seq<Action>)
    decreases |acts|
  {
    acts == [] || (Enabled(s, acts[0]) && Legal(c, Apply(c, s, acts[0]), acts[1..]))
  }

  function End(c: Config, s: State, acts: seq<Action>): (r: State)
    requires Legal(c, s, acts)
    decreases |acts|
  {
    if acts == [] then s else End(c, Apply(c, s, acts[0]), acts[1..])
  }

  /* ---- terminal states ---- */

  /** The rows of every step come from one transaction block. */
  lemma ActionKeepsTerminal(c: Config, s: State, a: Action, corr: string)
    requires Enabled(s, a) && corr in s.rows && !Active(s.rows[corr])
    ensures corr in Apply(c, s, a).rows && Apply(c, s, a).rows[corr].state == s.rows[corr].state
    ensures Apply(c, s, a).rows[corr].kind == s.rows[corr].kind
  {
  }

  lemma {:induction false} TerminalForever(c: Config, s: State, acts: seq<Action>, corr: string)
    requires Legal(c, s, acts) && corr in s.rows && !Active(s.rows[corr])
    ensures corr in End(c, s, acts).rows && End(c, s, acts).rows[corr].state == s.rows[corr].state
    decreases |acts|
  {
    if acts == [] {
    } else {
      ActionKeepsTerminal(c, s, acts[0], corr);
      TerminalForever(c, Apply(c, s, acts[0]), acts[1..], corr);
    }
  }

  lemma {:induction false} RunVocabulary(c: Config, s: State, acts: seq<Action>)
    requires Legal(c, s, acts) && Vocabulary(s.rows)
    ensures Vocabulary(End(c, s, acts).rows)
    decreases |acts|
  {
    if acts == [] {
    } else {
      assert Vocabulary(Apply(c, s, acts[0]).rows);
      RunVocabulary(c, Apply(c, s, acts[0]), acts[1..]);
    }
  }

  /**
    After any run, a transaction in a terminal state of its kind keeps that state through whatever comes after:
    late callbacks, timeouts, disappearing servers, shutdown, a crash and a restart.
  */
  lemma OutcomeIsFinal(c: Config, first: seq<Action>, more: seq<Action>, corr: string)
    requires Legal(c, START, first) && Legal(c, End(c, START, first), more)
    requires corr in End(c, START, first).rows
    requires Terminal(End(c, START, first).rows[corr].kind, End(c, START, first).rows[corr].state)
    ensures corr in End(c, End(c, START, first), more).rows
    ensures End(c, End(c, START, first), more).rows[corr].state == End(c, START, first).rows[corr].state
  {
    TerminalForever(c, End(c, START, first), more, corr);
  }

  /* ---- answers ---- */

  /** An answer owed or enqueued is the one of an answered transaction, and there is only one. */
  ghost predicate OneReply(s: State, corr: string) {
    s.owed[corr] + s.replies[corr] <= if Answered(s.rows, corr) then 1 else 0
  }

  lemma ActionOneReply(c: Config, s: State, a: Action, corr: string)
    requires Enabled(s, a) && OneReply(s, corr)
    ensures OneReply(Apply(c, s, a), corr)
  {
  }

  lemma {:induction false} RunOneReply(c: Config, s: State, acts: seq<Action>, corr: string)
    requires Legal(c, s, acts) && OneReply(s, corr)
    ensures OneReply(End(c, s, acts), corr)
    decreases |acts|
  {
    if acts == [] {
    } else {
      ActionOneReply(c, s, acts[0], corr);
      RunOneReply(c, Apply(c, s, acts[0]), acts[1..], corr);
    }
  }

  /** Without a crash, and with a path, the answer of an answered transaction is owed or enqueued. */
  ghost predicate ReplyDue(s: State, corr: string) {
    Answered(s.rows, corr) ==> s.owed[corr] + s.replies[corr] == 1
  }

  lemma ActionReplyDue(c: Config, s: State, a: Action, corr: string)
    requires c.reply && !a.Crash? && Enabled(s, a) && OneReply(s, corr) && ReplyDue(s, corr)
    ensures ReplyDue(Apply(c, s, a), corr)
  {
  }

  lemma {:induction false} RunReplyDue(c: Config, s: State, acts: seq<Action>, corr: string)
    requires c.reply && forall j :: 0 <= j < |acts| ==> !acts[j].Crash?
    requires Legal(c, s, acts) && OneReply(s, corr) && ReplyDue(s, corr)
    ensures ReplyDue(End(c, s, acts), corr)
    decreases |acts|
  {
    if acts == [] {
    } else {
      ActionReplyDue(c, s, acts[0], corr);
      ActionOneReply(c, s, acts[0], corr);
      RunReplyDue(c, Apply(c, s, acts[0]), acts[1..], corr);
    }
  }

  /**
    At most one response or result is enqueued per request, over every run, and only for a transaction that was
    moved to its answer; once nothing is owed, and without a crash and with a path, it is enqueued exactly if
    the transaction was answered.
  */
  lemma AtMostOneReply(c: Config, acts: seq<Action>, corr: string)
    requires Legal(c, START, acts)
    ensures var t := End(c, START, acts);
            && (Answered(t.rows, corr) <==>
                  corr in t.rows
                  && t.rows[corr].state == if t.rows[corr].kind == Service then Responded else ResultReceived)
            && t.replies[corr] <= 1
            && (t.replies[corr] == 1 ==> Answered(t.rows, corr))
            && (c.reply && (forall j :: 0 <= j < |acts| ==> !acts[j].Crash?) && t.owed[corr] == 0 ==>
                  (t.replies[corr] == 1 <==> Answered(t.rows, corr)))
  {
    RunOneReply(c, START, acts, corr);
    if c.reply && forall j :: 0 <= j < |acts| ==> !acts[j].Crash? {
      RunReplyDue(c, START, acts, corr);
    }
  }

  /* ---- feedback ---- */

  /** The numbers of a request's feedback operations, in the order in which they were enqueued. */
  function NumbersOf(feedback: seq<(string, nat)>, corr: string): (ns: seq<nat>) {
    if feedback == [] then []
    else
      var front, last := feedback[..|feedback| - 1], feedback[|feedback| - 1];
      if last.0 == corr then NumbersOf(front, corr) + [last.1] else NumbersOf(front, corr)
  }

  lemma AppendNumber(feedback: seq<(string, nat)>, item: (string, nat), corr: string)
    ensures NumbersOf(feedback + [item], corr)
            == NumbersOf(feedback, corr) + if item.0 == corr then [item.1] else []
  {
  }

  ghost predicate CountsUp(ns: seq<nat>) {
    forall i :: 0 <= i < |ns| ==> ns[i] == i + 1
  }

  /** Tracking is for known requests, and ends once. */
  ghost predicate Tracked(s: State) {
    && (forall x :: x in s.inflight || x in s.closed ==> x in s.rows)
    && s.inflight * s.closed == {}
  }

  ghost predicate NumberedSoFar(s: State, corr: string) {
    var ns := NumbersOf(s.feedback, corr);
    CountsUp(ns) && |ns| == if corr in s.rows then s.rows[corr].number else 0
  }

  lemma ActionTracked(c: Config, s: State, a: Action)
    requires Enabled(s, a) && Tracked(s)
    ensures Tracked(Apply(c, s, a))
  {
  }

  lemma ActionNumbers(c: Config, s: State, a: Action, corr: string)
    requires c.feedbackPath && Enabled(s, a) && NumberedSoFar(s, corr)
    ensures NumberedSoFar(Apply(c, s, a), corr)
  {
  }

  lemma {:induction false} RunNumbers(c: Config, s: State, acts: seq<Action>, corr: string)
    requires c.feedbackPath && Legal(c, s, acts) && NumberedSoFar(s, corr)
    ensures NumberedSoFar(End(c, s, acts), corr)
    decreases |acts|
  {
    if acts == [] {
    } else {
      ActionNumbers(c, s, acts[0], corr);
      RunNumbers(c, Apply(c, s, acts[0]), acts[1..], corr);
    }
  }

  lemma {:induction false} RunTracked(c: Config, s: State, acts: seq<Action>)
    requires Legal(c, s, acts) && Tracked(s)
    ensures Tracked(End(c, s, acts))
    decreases |acts|
  {
    if acts == [] {
    } else {
      ActionTracked(c, s, acts[0]);
      RunTracked(c, Apply(c, s, acts[0]), acts[1..]);
    }
  }

  /** A closed request stays closed, and gets no further feedback. */
  lemma ClosedStep(c: Config, s: State, a: Action, corr: string)
    requires Enabled(s, a) && Tracked(s) && corr in s.closed
    ensures corr in Apply(c, s, a).closed
    ensures NumbersOf(Apply(c, s, a).feedback, corr) == NumbersOf(s.feedback, corr)
  {
    if a.Feedback? && a.corr in s.inflight && a.corr in s.rows {
      assert a.corr !in s.inflight * s.closed;
      AppendNumber(s.feedback, (a.corr, s.rows[a.corr].number + 1), corr);
    }
  }

  lemma {:induction false} ClosedForever(c: Config, s: State, acts: seq<Action>, corr: string)
    requires Legal(c, s, acts) && Tracked(s) && corr in s.closed
    ensures NumbersOf(End(c, s, acts).feedback, corr) == NumbersOf(s.feedback, corr)
    decreases |acts|
  {
    if acts == [] {
    } else {
      ClosedStep(c, s, acts[0], corr);
      ActionTracked(c, s, acts[0]);
      ClosedForever(c, Apply(c, s, acts[0]), acts[1..], corr);
    }
  }

  /**
    A goal's feedback operations are numbered 1, 2, 3 and so on in the order in which they are enqueued, over
    every run; and after the finish that ended its tracking there are no more.
  */
  lemma FeedbackCountsUp(c: Config, first: seq<Action>, more: seq<Action>, corr: string)
    requires c.feedbackPath && Legal(c, START, first) && Legal(c, End(c, START, first), more)
    ensures CountsUp(NumbersOf(End(c, START, first).feedback, corr))
    ensures corr in End(c, START, first).closed ==>
              NumbersOf(End(c, End(c, START, first), more).feedback, corr)
              == NumbersOf(End(c, START, first).feedback, corr)
  {
    RunNumbers(c, START, first, corr);
    RunTracked(c, START, first);
    if corr in End(c, START, first).closed {
      ClosedForever(c, End(c, START, first), more, corr);
    }
  }

  /* ---- tracking ---- */

  lemma ActionTracks(c: Config, s: State, a: Action)
    requires !a.Crash? && Enabled(s, a) && Tracked(s) && s.inflight + s.closed == s.rows.Keys
    ensures Apply(c, s, a).inflight + Apply(c, s, a).closed == Apply(c, s, a).rows.Keys
  {
    var r := Apply(c, s, a);
    if a.FinishTracking? && a.corr in s.inflight {
      assert r.rows == s.rows && r.inflight == s.inflight - {a.corr} && r.closed == s.closed + {a.corr};
      assert r.inflight + r.closed == s.inflight + s.closed;
    } else if a.Start? && a.corr !in s.rows {
      assert r.rows.Keys == s.rows.Keys + {a.corr};
      assert r.inflight + r.closed == (s.inflight + s.closed) + {a.corr};
    } else {
      assert r.rows.Keys == s.rows.Keys && r.inflight == s.inflight && r.closed == s.closed;
    }
  }

  /** Until a crash, the tracked requests are exactly those that were started and not finished. */
  lemma {:induction false} TrackedExactly(c: Config, s: State, acts: seq<Action>)
    requires Legal(c, s, acts) && Tracked(s) && s.inflight + s.closed == s.rows.Keys
    requires forall j :: 0 <= j < |acts| ==> !acts[j].Crash?
    ensures End(c, s, acts).inflight == End(c, s, acts).rows.Keys - End(c, s, acts).closed
    decreases |acts|
  {
    if acts == [] {
      forall x | x in s.inflight ensures x !in s.closed {
        assert x in s.closed ==> x in s.inflight * s.closed;
      }
    } else {
      ActionTracks(c, s, acts[0]);
      ActionTracked(c, s, acts[0]);
      TrackedExactly(c, Apply(c, s, acts[0]), acts[1..]);
    }
  }

  /* ---- a request from its start to its end ---- */

  lemma StepThen(c: Config, s: State, a: Action, rest: seq<Action>)
    requires Enabled(s, a) && Legal(c, Apply(c, s, a), rest)
    ensures Legal(c, s, [a] + rest) && End(c, s, [a] + rest) == End(c, Apply(c, s, a), rest)
  {
    assert ([a] + rest)[1..] == rest;
  }

  /** A request that nobody knew, started and no more. */
  function Started(s: State, corr: string, kind: Kind, ms: nat, ts: real): (r: State) {
    s.(rows := s.rows[corr := Tx(kind, if kind == Service then Pending else GoalPending, 0, ms, ts, ts)],
    inflight := s.inflight + {corr})
  }

  lemma StartThen(c: Config, s: State, corr: string, kind: Kind, ms: nat, ts: real, rest: seq<Action>)
    requires corr !in s.rows && Legal(c, Started(s, corr, kind, ms, ts), rest)
    ensures Legal(c, s, [Start(corr, kind, ms, ts)] + rest)
    ensures End(c, s, [Start(corr, kind, ms, ts)] + rest) == End(c, Started(s, corr, kind, ms, ts), rest)
  {
    assert Apply(c, s, Start(corr, kind, ms, ts)) == Started(s, corr, kind, ms, ts);
    StepThen(c, s, Start(corr, kind, ms, ts), rest);
  }

  /** The state in which a request is answered. */
  function Final(kind: Kind): (s: Step) {
    if kind == Service then Responded else ResultReceived
  }

  lemma AnswerThen(c: Config, s: State, corr: string, ts: real, rest: seq<Action>)
    requires corr in s.rows && s.rows[corr].state in {Pending, GoalPending} && Active(s.rows[corr])
    requires var r := s.(rows := s.rows[corr := s.rows[corr].(state := Final(s.rows[corr].kind), updated := ts)],
                         owed := s.owed + multiset{corr});
             Legal(c, r, rest)
    ensures var r := s.(rows := s.rows[corr := s.rows[corr].(state := Final(s.rows[corr].kind), updated := ts)],
                        owed := s.owed + multiset{corr});
            Legal(c, s, [Answer(corr, ts)] + rest) && End(c, s, [Answer(corr, ts)] + rest) == End(c, r, rest)
  {
    StepThen(c, s, Answer(corr, ts), rest);
  }

  lemma ReplyThenFinish(c: Config, s: State, corr: string)
    requires corr in s.owed && corr in s.inflight
    ensures var acts := [Reply(corr)] + ([FinishTracking(corr)] + []);
            && Legal(c, s, acts)
            && End(c, s, acts) == s.(owed := s.owed - multiset{corr},
                                     replies := if c.reply then s.replies + multiset{corr} else s.replies,
                                     inflight := s.inflight - {corr}, closed := s.closed + {corr})
  {
    var s1 := AfterReply(c, s, corr);
    StepThen(c, s1, FinishTracking(corr), []);
    StepThen(c, s, Reply(corr), [FinishTracking(corr)] + []);
  }

  lemma AnswerReplyFinish(c: Config, s: State, corr: string, ts: real)
    requires corr in s.inflight && corr in s.rows
    requires s.rows[corr].state in {Pending, GoalPending} && Active(s.rows[corr])
    ensures var acts := [Answer(corr, ts)] + ([Reply(corr)] + ([FinishTracking(corr)] + []));
            && Legal(c, s, acts)
            && End(c, s, acts)
               == s.(rows := s.rows[corr := s.rows[corr].(state := Final(s.rows[corr].kind), updated := ts)],
                     replies := if c.reply then s.replies + multiset{corr} else s.replies,
                     inflight := s.inflight - {corr}, closed := s.closed + {corr})
  {
    var s1 := s.(rows := s.rows[corr := s.rows[corr].(state := Final(s.rows[corr].kind), updated := ts)],
    owed := s.owed + multiset{corr});
    ReplyThenFinish(c, s1, corr);
    AnswerThen(c, s, corr, ts, [Reply(corr)] + ([FinishTracking(corr)] + []));
    assert s.owed + multiset{corr} - multiset{corr} == s.owed;
  }

  /** Started, answered, replied to and finished: one reply if there is a path, and nothing else is touched. */
  lemma AnsweredIsReplied(c: Config, s: State, corr: string, kind: Kind, ms: nat, ts: real)
    requires corr !in s.rows && corr !in s.inflight
    ensures var acts := [Start(corr, kind, ms, ts)]
                        + ([Answer(corr, ts)] + ([Reply(corr)] + ([FinishTracking(corr)] + [])));
            && Legal(c, s, acts)
            && End(c, s, acts) == s.(rows := s.rows[corr := Tx(kind, Final(kind), 0, ms, ts, ts)],
                                     replies := if c.reply then s.replies + multiset{corr} else s.replies,
                                     closed := s.closed + {corr})
  {
    var s1 := Started(s, corr, kind, ms, ts);
    AnswerReplyFinish(c, s1, corr, ts);
    StartThen(c, s, corr, kind, ms, ts, [Answer(corr, ts)] + ([Reply(corr)] + ([FinishTracking(corr)] + [])));
    assert s.inflight + {corr} - {corr} == s.inflight;
    assert s1.rows[corr := s1.rows[corr].(state := Final(kind), updated := ts)]
        == s.rows[corr := Tx(kind, Final(kind), 0, ms, ts, ts)];
  }

  lemma TimeoutThenAnswer(c: Config, s: State, corr: string, late: real)
    requires corr in s.rows && s.rows[corr].state in {Pending, GoalPending} && Active(s.rows[corr])
    ensures var acts := [SetState(corr, Timeout, late)] + ([Answer(corr, late)] + []);
            && Legal(c, s, acts)
            && End(c, s, acts) == s.(rows := s.rows[corr := s.rows[corr].(state := Timeout, updated := late)])
  {
    var s1 := s.(rows := s.rows[corr := s.rows[corr].(state := Timeout, updated := late)]);
    assert Apply(c, s, SetState(corr, Timeout, late)) == s1;
    StepThen(c, s1, Answer(corr, late), []);
    StepThen(c, s, SetState(corr, Timeout, late), [Answer(corr, late)] + []);
  }

  /** Once a request has timed out, a late callback changes nothing: no reply, and the outcome stays. */
  lemma TimeoutSilencesCallback(c: Config, s: State, corr: string, kind: Kind, ms: nat, ts: real, late: real)
    requires corr !in s.rows
    ensures var acts := [Start(corr, kind, ms, ts)] + ([SetState(corr, Timeout, late)] + ([Answer(corr, late)] + []));
            && Legal(c, s, acts)
            && End(c, s, acts) == s.(rows := s.rows[corr := Tx(kind, Timeout, 0, ms, ts, late)],
                                     inflight := s.inflight + {corr})
  {
    var s1 := Started(s, corr, kind, ms, ts);
    TimeoutThenAnswer(c, s1, corr, late);
    StartThen(c, s, corr, kind, ms, ts, [SetState(corr, Timeout, late)] + ([Answer(corr, late)] + []));
    assert s1.rows[corr := s1.rows[corr].(state := Timeout, updated := late)]
        == s.rows[corr := Tx(kind, Timeout, 0, ms, ts, late)];
  }

  /** A crash between taking an answer and enqueuing it loses the reply for good, though the request is answered. */
  lemma CrashLosesReply(c: Config, corr: string, kind: Kind, ms: nat, ts: real, more: seq<Action>)
    requires Legal(c, START.(rows := map[corr := Tx(kind, Final(kind), 0, ms, ts, ts)]), more)
    ensures var acts := [Start(corr, kind, ms, ts)] + ([Answer(corr, ts)] + ([Crash] + more));
            && Legal(c, START, acts)
            && Answered(End(c, START, acts).rows, corr) && End(c, START, acts).replies[corr] == 0
  {
    var s1 := Started(START, corr, kind, ms, ts);
    var s3 := START.(rows := map[corr := Tx(kind, Final(kind), 0, ms, ts, ts)]);
    var s2 := s3.(inflight := {corr}, owed := multiset{corr});
    assert s1.rows[corr := s1.rows[corr].(state := Final(kind), updated := ts)] == s2.rows;
    assert s1.(rows := s2.rows, owed := s1.owed + multiset{corr}) == s2;
    StepThen(c, s2, Crash, more);
    AnswerThen(c, s1, corr, ts, [Crash] + more);
    StartThen(c, START, corr, kind, ms, ts, [Answer(corr, ts)] + ([Crash] + more));
    NoLaterReply(c, s3, more, corr);
  }

  /** What has been answered and is not owed is never replied to. */
  lemma {:induction false} NoLaterReply(c: Config, s: State, acts: seq<Action>, corr: string)
    requires Legal(c, s, acts) && Answered(s.rows, corr) && s.owed[corr] == 0
    ensures Answered(End(c, s, acts).rows, corr) && End(c, s, acts).replies[corr] == s.replies[corr]
    decreases |acts|
  {
    if acts == [] {
    } else {
      ActionKeepsTerminal(c, s, acts[0], corr);
      NoLaterReply(c, Apply(c, s, acts[0]), acts[1..], corr);
    }
  }
}
