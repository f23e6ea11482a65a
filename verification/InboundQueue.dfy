/** The bounded inbound queue: cancellations in a control lane that drains before the normal one. */
module InboundQueues {
  import opened Wrappers
  import opened Ledgers

  /** Kinds of inbound events; internal ones come from the bridge itself and have no ledger row. */
  datatype Kind = Command | Service | Goal | Cancel | Decision | QosUpdate | QosPolicy | Internal | Other

  /** key is the deduplication key under which the event was admitted. */
  datatype Event = Event(kind: Kind, key: Key)

  datatype Lanes = Lanes(control: seq<Event>, normal: seq<Event>)

  datatype Bounds = Bounds(control: nat, normal: nat)

  function Least(a: nat, b: nat): (m: nat) {
    if a <= b then a else b
  }

  /** put_control or put_normal: None when the lane is full. */
  function Put(q: Lanes, b: Bounds, e: Event, control: bool): (r: Option<Lanes>) {
    if control then if |q.control| >= b.control then None else Some(q.(control := q.control + [e]))
    else if |q.normal| >= b.normal then None
    else Some(q.(normal := q.normal + [e]))
  }

  function FromControl(q: Lanes, budget: nat): (n: nat)
    ensures n <= |q.control|
  {
    Least(|q.control|, budget)
  }

  function FromNormal(q: Lanes, budget: nat): (n: nat)
    ensures n <= |q.normal|
  {
    Least(|q.normal|, budget - FromControl(q, budget))
  }

  /** get_batch: the control lane first, then the normal one, as far as the budget goes. */
  function Batch(q: Lanes, budget: nat): (events: seq<Event>) {
    q.control[..FromControl(q, budget)] + q.normal[..FromNormal(q, budget)]
  }

  function Rest(q: Lanes, budget: nat): (r: Lanes) {
    Lanes(q.control[FromControl(q, budget)..], q.normal[FromNormal(q, budget)..])
  }

  lemma BatchLosesNothing(q: Lanes, budget: nat)
    ensures q.control == Batch(q, budget)[..FromControl(q, budget)] + Rest(q, budget).control
    ensures q.normal == Batch(q, budget)[FromControl(q, budget)..] + Rest(q, budget).normal
  {
    var i, j := FromControl(q, budget), FromNormal(q, budget);
    assert Batch(q, budget)[..i] == q.control[..i];
    assert Batch(q, budget)[i..] == q.normal[..j];
  }

  /** A batch is as long as the budget allows, and the normal lane moves only once the control lane is empty. */
  lemma BatchIsFull(q: Lanes, budget: nat)
    ensures |Batch(q, budget)| == if |q.control| + |q.normal| <= budget then |q.control| + |q.normal| else budget
    ensures Rest(q, budget).control != [] ==> Rest(q, budget).normal == q.normal
    ensures q.control == Batch(q, budget)[..FromControl(q, budget)] + Rest(q, budget).control
    ensures q.normal == Batch(q, budget)[FromControl(q, budget)..] + Rest(q, budget).normal
  {
    BatchLosesNothing(q, budget);
  }

  class InboundQueue {
    const bounds: Bounds
    var control: seq<Event>
    var normal: seq<Event>

    function State(): (q: Lanes)
      reads this
    {
      Lanes(control, normal)
    }

    constructor (maxsize: nat, controlMaxsize: nat)
      requires maxsize >= 1 && controlMaxsize >= 1
      ensures State() == Lanes([], []) && bounds == Bounds(controlMaxsize, maxsize)
    {
      bounds := Bounds(controlMaxsize, maxsize);
      control, normal := [], [];
    }

    method PutNormal(e: Event) returns (ok: bool)
      modifies this
      ensures ok <==> Put(old(State()), bounds, e, false).Some?
      ensures State() == if ok then Put(old(State()), bounds, e, false).value else old(State())
      ensures ok <==> |old(normal)| < bounds.normal
      ensures control == old(control) && normal == if ok then old(normal) + [e] else old(normal)
    {
      if |normal| >= bounds.normal {
        return false;
      }
      normal := normal + [e];
      return true;
    }

    method PutControl(e: Event) returns (ok: bool)
      modifies this
      ensures ok <==> Put(old(State()), bounds, e, true).Some?
      ensures State() == if ok then Put(old(State()), bounds, e, true).value else old(State())
      ensures ok <==> |old(control)| < bounds.control
      ensures normal == old(normal) && control == if ok then old(control) + [e] else old(control)
    {
      if |control| >= bounds.control {
        return false;
      }
      control := control + [e];
      return true;
    }

    method GetBatch(budget: int) returns (out: seq<Event>)
      modifies this
      ensures budget < 1 ==> out == [] && State() == old(State())
      ensures budget >= 1 ==> out == Batch(old(State()), budget) && State() == Rest(old(State()), budget)
    {
      out := [];
      if budget < 1 {
        return;
      }
      ghost var q, i, j := State(), 0, 0;
      while control != [] && |out| < budget
        invariant i <= FromControl(q, budget) && normal == q.normal
        invariant out == q.control[..i] && control == q.control[i..]
        decreases |control|
      {
        TakeOne(q.control, i);
        out := out + [control[0]];
        control := control[1..];
        i := i + 1;
      }
      assert i == FromControl(q, budget);
      ghost var first := out;
      while normal != [] && |out| < budget
        invariant j <= FromNormal(q, budget) && control == q.control[i..]
        invariant out == first + q.normal[..j] && normal == q.normal[j..]
        decreases |normal|
      {
        TakeOne(q.normal, j);
        out := out + [normal[0]];
        normal := normal[1..];
        j := j + 1;
      }
    }
  }

  lemma TakeOne(s: seq<Event>, i: nat)
    requires i < |s|
    ensures s[..i] + [s[i]] == s[..i + 1]
    ensures s[i..][0] == s[i] && s[i..][1..] == s[i + 1..]
  {
  }
}
