/** How an answer or an error of one send is judged, and how long a worker waits between sends. */
module Client {
  import opened Wrappers
  import opened Values
  import opened Operations

  /** An HTTP status, real or synthesized, and the oneM2M response status code if one was given. */
  datatype Response = Response(status: int, rsc: Option<int>) {
    predicate Ok() {
      200 <= status < 300 && (rsc.None? || rsc.value < 4000)
    }
  }

  /** Argument stands for ValueError, TypeError and KeyError; Foreign for every other exception. */
  datatype Error = Oversize | Transport(recoverable: bool) | Argument | Foreign

  /** What the wire gives back for one request. */
  datatype Wire = Answers(response: Response) | Throws(error: Error)

  datatype Failure = Refused(response: Response) | Broken(error: Error)

  datatype Classification = Recoverable | NonRecoverable | PolicyDependent

  function ClassifyRsc(rsc: int): (c: Option<Classification>) {
    if rsc < 4000 then None
    else if rsc in {4004, 4103, 4105} then Some(PolicyDependent)
    else if rsc == 5207 then Some(NonRecoverable)
    else if rsc >= 5000 then Some(Recoverable)
    else Some(NonRecoverable)
  }

  function ClassifyStatus(status: int): (c: Option<Classification>) {
    if status < 400 then None
    else if status in {403, 404, 409} then Some(PolicyDependent)
    else if status >= 500 then Some(Recoverable)
    else Some(NonRecoverable)
  }

  /** classify: None where it raises ValueError, that is on an answer that looks like a success. */
  function Classify(f: Failure): (c: Option<Classification>) {
    match f
    case Broken(e) => Some(if e.Transport? && e.recoverable then Recoverable else NonRecoverable)
    case Refused(r) => if r.rsc.Some? then ClassifyRsc(r.rsc.value) else ClassifyStatus(r.status)
  }

  /* ---- one send ---- */

  datatype Sending = Sent | Failed(failure: Failure) | Escaped

  const MNI := "mni"
  const MBS := "mbs"
  const MIA := "mia"

  /** The request cannot even be built: the error is caught where it arises. */
  predicate Unsendable(op: Op) {
    match op.kind
    case CreateCin => ThroughJson(op.content).None?
    case UpdateFcnt => false
    case UpdateCnt => !(op.content.Dict? && (MNI in op.content.dict || MBS in op.content.dict || MIA in op.content.dict))
    case UpdateLbl => !(op.content.Dict? && LABELS in op.content.dict)
    case OtherKind(_) => true
  }

  /** A resource with this deterministic name is already there. */
  predicate AlreadyThere(op: Op, r: Response) {
    op.rn != Null && (r.status == 409 || r.rsc == Some(4105))
  }

  predicate Accepted(op: Op, r: Response) {
    if op.kind.CreateCin? then r.status == 201 || AlreadyThere(op, r) else r.Ok()
  }

  /** send_operation. */
  function Send(op: Op, wire: Wire): (s: Sending) {
    if Unsendable(op) then Failed(Broken(Argument))
    else
      match wire
      case Throws(e) => if e.Foreign? then Escaped else Failed(Broken(e))
      case Answers(r) => if Accepted(op, r) then Sent else Failed(Refused(r))
  }

  /** What a worker makes of one send. */
  datatype Verdict = Delivered | Rejected | Keep | Again | Raises

  function Judge(op: Op, wire: Wire): (v: Verdict) {
    match Send(op, wire)
    case Sent => Delivered
    case Escaped => Raises
    case Failed(f) =>
      match Classify(f)
      case None => Raises
      case Some(NonRecoverable) => Rejected
      case Some(PolicyDependent) => Keep
      case Some(Recoverable) => Again
  }

  /** A failing answer is one the client can classify: an error code, or no code and an error status. */
  predicate Explains(r: Response) {
    if r.rsc.Some? then r.rsc.value >= 4000 else r.status >= 400
  }

  /**
    A send raises exactly if the error is of a foreign kind, or the answer is neither accepted nor explained
    by an error code. It is repeated exactly on a failure that may pass, and kept for the reconciler exactly on
    a missing parent, a duplicate or a denied access.
  */
  lemma RaisesIff(op: Op, wire: Wire)
    ensures Judge(op, wire) == Raises <==>
            !Unsendable(op) && (wire == Throws(Foreign)
                                || (wire.Answers? && !Accepted(op, wire.response) && !Explains(wire.response)))
    ensures Judge(op, wire) == Again <==>
            !Unsendable(op)
            && match wire
               case Throws(e) => e.Transport? && e.recoverable
               case Answers(r) =>
                 !Accepted(op, r) && if r.rsc.Some? then r.rsc.value >= 5000 && r.rsc.value != 5207 else r.status >= 500
    ensures Judge(op, wire) == Keep <==>
            !Unsendable(op) && wire.Answers? && !Accepted(op, wire.response)
            && if wire.response.rsc.Some? then wire.response.rsc.value in {4004, 4103, 4105}
               else wire.response.status in {403, 404, 409}
  {
  }

  /**
    A send is delivered exactly if the request can be built and is answered: for a creation with 201, or for one
    with a name that is already there; for an update with a 2xx status and no error code.
  */
  lemma DeliveredIff(op: Op, wire: Wire)
    ensures Judge(op, wire) == Delivered <==>
            wire.Answers?
            && var r := wire.response;
               match op.kind
               case CreateCin =>
                 NoBytes(op.content) && (r.status == 201 || (op.rn != Null && (r.status == 409 || r.rsc == Some(4105))))
               case UpdateFcnt => 200 <= r.status <= 299 && (r.rsc.Some? ==> r.rsc.value < 4000)
               case UpdateCnt =>
                 op.content.Dict? && !({"mni", "mbs", "mia"} !! op.content.dict.Keys)
                 && 200 <= r.status <= 299 && (r.rsc.Some? ==> r.rsc.value < 4000)
               case UpdateLbl =>
                 op.content.Dict? && "labels" in op.content.dict
                 && 200 <= r.status <= 299 && (r.rsc.Some? ==> r.rsc.value < 4000)
               case OtherKind(_) => false
  {
    WritableIff(op.content);
  }

  /**
    A send is rejected for good exactly if the request cannot be built, if it fails before or on the wire with an
    error that is known and will not pass, or if the answer does not mean that the resource is there and its
    code, or its status where it has no code, is that of a lasting error.
  */
  lemma RejectedIff(op: Op, wire: Wire)
    ensures Judge(op, wire) == Rejected <==>
            || (op.kind.CreateCin? && !NoBytes(op.content))
            || (op.kind == UpdateCnt && !(op.content.Dict? && !({"mni", "mbs", "mia"} !! op.content.dict.Keys)))
            || (op.kind == UpdateLbl && !(op.content.Dict? && "labels" in op.content.dict))
            || op.kind.OtherKind?
            || wire in {Throws(Oversize), Throws(Argument), Throws(Transport(false))}
            || (wire.Answers?
                && var r := wire.response;
                   && (op.kind.CreateCin? ==> r.status != 201 && !(r.status == 409 && op.rn != Null))
                   && match r.rsc
                      case Some(code) => code == 5207 || (4000 <= code <= 4999 && code !in {4004, 4103, 4105})
                      case None => 400 <= r.status <= 499 && r.status !in {403, 404, 409})
  {
    WritableIff(op.content);
  }

  /**
    The unexplained answers, exactly: no error code, or no error status where there is no code; and for a
    creation any status but 201 that does not mean the resource is there, for an update any off the 2xx range.
  */
  lemma UnexplainedAnswers(op: Op, r: Response)
    requires !Unsendable(op)
    ensures Judge(op, Answers(r)) == Raises <==>
            (if r.rsc.Some? then r.rsc.value < 4000 else r.status < 400)
            && if op.kind.CreateCin? then r.status != 201 && !AlreadyThere(op, r) else !(200 <= r.status < 300)
  {
    RaisesIff(op, Answers(r));
  }

  /* ---- the delays between sends ---- */

  function Min(a: real, b: real): (m: real) {
    if a <= b then a else b
  }

  function Power(f: real, i: nat): (p: real) {
    if i == 0 then 1.0 else Power(f, i - 1) * f
  }

  /** The i-th delay without jitter. */
  function Ceiling(base: real, factor: real, max: real, i: nat): (d: real) {
    Min(base * Power(factor, i), max)
  }

  lemma Grows(x: real, factor: real)
    requires x >= 0.0 && factor >= 1.0
    ensures x * factor >= x
  {
  }

  lemma Reorder(a: real, b: real, c: real)
    ensures a * (b * c) == (a * b) * c
  {
  }

  lemma {:induction false} PowerIsPositive(f: real, i: nat)
    requires f >= 1.0
    ensures Power(f, i) >= 1.0
  {
    if i == 0 {
    } else {
      PowerIsPositive(f, i - 1);
      Grows(Power(f, i - 1), f);
    }
  }

  /** Capping at every step is capping once: the running delay never drifts from its closed form. */
  lemma NextCeiling(base: real, factor: real, max: real, i: nat)
    requires base >= 0.0 && factor >= 1.0 && max >= 0.0
    ensures Min(Ceiling(base, factor, max, i) * factor, max) == Ceiling(base, factor, max, i + 1)
    ensures 0.0 <= Ceiling(base, factor, max, i) <= max
    ensures Ceiling(base, factor, max, 0) == if base <= max then base else max
  {
    assert base * Power(factor, 0) == base;
    PowerIsPositive(factor, i);
    var p := base * Power(factor, i);
    assert p >= 0.0;
    Reorder(base, Power(factor, i), factor);
    assert base * Power(factor, i + 1) == p * factor;
    Grows(p, factor);
    Grows(max, factor);
  }

  lemma Scales(x: real, t: real)
    requires x >= 0.0 && -1.0 <= t <= 1.0
    ensures -x <= x * t <= x
    ensures t >= 0.0 ==> x * t >= 0.0
  {
  }

  lemma Sways(d: real, span: real, t: real)
    requires 0.0 <= span <= d && -1.0 <= t <= 1.0
    ensures d - span <= d + span * t <= d + span
    ensures 0.0 <= d + span * t
  {
  }

  /** A delay with its uniformly drawn jitter. */
  function Jittered(d: real, jitter: real, draw: real): (r: real) {
    if jitter == 0.0 then d else d + d * jitter * (2.0 * draw - 1.0)
  }

  /** r lies within span of c, and no lower than zero. */
  ghost predicate Near(r: real, c: real, span: real) {
    0.0 <= c - span <= r <= c + span
  }

  /** The draw moves a delay by at most the jitter share of it, so the final cut at zero never bites. */
  lemma JitterStays(d: real, jitter: real, draw: real)
    requires d >= 0.0 && 0.0 <= jitter <= 1.0 && 0.0 <= draw < 1.0
    ensures Near(Jittered(d, jitter, draw), d, d * jitter)
  {
    if jitter == 0.0 {
      assert d * jitter == 0.0;
    } else {
      Scales(d, jitter);
      Sways(d, d * jitter, 2.0 * draw - 1.0);
    }
  }

  /** The i-th delay of a schedule, for the number its generator drew. */
  function Delay(base: real, jitter: real, factor: real, max: real, i: nat, draw: real): (d: real) {
    NonNegative(Jittered(Ceiling(base, factor, max, i), jitter, draw))
  }

  function NonNegative(d: real): (r: real) {
    if d < 0.0 then 0.0 else d
  }

  /**
    Every delay is within the jitter share of min(base * factor^i, max), and exactly that without jitter; where in
    that band is decided by the draw, in proportion.
  */
  lemma DelayIsNear(base: real, jitter: real, factor: real, max: real, i: nat, draw: real)
    requires 0.0 <= jitter <= 1.0 && base >= 0.0 && factor >= 1.0 && max >= 0.0 && 0.0 <= draw < 1.0
    ensures var c := Ceiling(base, factor, max, i);
            Near(Delay(base, jitter, factor, max, i, draw), c, c * jitter)
    ensures jitter == 0.0 ==> Delay(base, jitter, factor, max, i, draw) == Ceiling(base, factor, max, i)
    ensures var c := Ceiling(base, factor, max, i);
            Delay(base, jitter, factor, max, i, draw) == c + c * jitter * (2.0 * draw - 1.0)
  {
    NextCeiling(base, factor, max, i);
    JitterStays(Ceiling(base, factor, max, i), jitter, draw);
  }

  datatype BackoffError = BadJitter | BadBase | BadFactor

  /** backoff_delays over reals, the random draws given. */
  method BackoffDelays(retryCount: int, base: real, jitter: real, factor: real, max: real, draws: seq<real>)
    returns (r: Result<seq<real>, BackoffError>)
    requires |draws| >= retryCount
    ensures retryCount <= 0 ==> r == Ok([])
    ensures retryCount > 0 ==>
              (r.Err? <==> !(0.0 <= jitter <= 1.0) || base < 0.0 || factor < 1.0 || max < 0.0)
    ensures r.Ok? && retryCount > 0 ==> |r.value| == retryCount
    ensures r.Ok? ==> forall i: nat :: i < |r.value| ==> r.value[i] == Delay(base, jitter, factor, max, i, draws[i])
  {
    if retryCount <= 0 {
      return Ok([]);
    }
    if !(0.0 <= jitter <= 1.0) {
      return Err(BadJitter);
    }
    if base < 0.0 {
      return Err(BadBase);
    }
    if factor < 1.0 || max < 0.0 {
      return Err(BadFactor);
    }
    var delays: seq<real> := [];
    var delay := Min(base, max);
    for n := 0 to retryCount
      invariant |delays| == n
      invariant delay == Ceiling(base, factor, max, n)
      invariant forall i: nat :: i < n ==> delays[i] == Delay(base, jitter, factor, max, i, draws[i])
    {
      NextCeiling(base, factor, max, n);
      delays := delays + [NonNegative(Jittered(delay, jitter, draws[n]))];
      delay := Min(delay * factor, max);
    }
    return Ok(delays);
  }
}
