/**
 One RabbitMQ subscription: the main queue, the deliveries in flight, the delayed retry queue and the dead-letter
 queue.  A message may have several copies; copies are never removed from the list, only marked gone, so an index
 names a copy for ever.  A crash of the consumer and a failed publisher confirm both return a delivery to the main
 queue, at any await point of the callback.
 */
module Broker {

  /** How far the callback for a delivery has come. */
  datatype Stage = Running | Handled | Failing | Routed

  datatype Place = Main | InFlight(tag: nat, stage: Stage) | Retry | DeadLetter | Gone

  /** `origin` is the message this is a copy of; `retries` is its x-retry-count header. */
  datatype Copy<+M> = Copy(origin: nat, content: M, retries: nat, place: Place)

  datatype Queues<+M> = Queues(copies: seq<Copy<M>>, arrived: seq<M>, done: set<nat>, runs: seq<nat>, faults: seq<nat>)

  datatype Step<+M> =
    | Arrive(m: M)
    | Consume(i: nat)
    | Succeed(i: nat)
    | Fail(i: nat)
    | Route(i: nat)
    | Settle(i: nat)
    | Expire(i: nat)
    | Fault(i: nat)

  function Empty<M>(): Queues<M> { Queues([], [], {}, [], []) }

  predicate AtStage<M>(q: Queues<M>, i: nat, stage: Stage) {
    i < |q.copies| && q.copies[i].place.InFlight? && q.copies[i].place.stage == stage
  }

  predicate Enabled<M>(q: Queues<M>, s: Step<M>) {
    match s
    case Arrive(_) => true
    case Consume(i) => i < |q.copies| && q.copies[i].place.Main?
    case Succeed(i) => AtStage(q, i, Running)
    case Fail(i) => AtStage(q, i, Running)
    case Route(i) => AtStage(q, i, Failing)
    case Settle(i) => AtStage(q, i, Handled) || AtStage(q, i, Routed)
    case Expire(i) => i < |q.copies| && q.copies[i].place.Retry?
    case Fault(i) => i < |q.copies| && q.copies[i].place.InFlight?
  }

  function MoveTo<M>(q: Queues<M>, i: nat, place: Place): Queues<M>
    requires i < |q.copies|
  {
    q.(copies := q.copies[i := q.copies[i].(place := place)])
  }

  function Advance<M>(q: Queues<M>, i: nat, stage: Stage): Queues<M>
    requires i < |q.copies| && q.copies[i].place.InFlight?
  {
    MoveTo(q, i, InFlight(q.copies[i].place.tag, stage))
  }

  /** The copy that retryOrDeadLetter publishes: same content, one more retry. */
  function Rerouted<M>(maxRetries: nat, c: Copy<M>): Copy<M> {
    Copy(c.origin, c.content, c.retries + 1, if c.retries < maxRetries then Retry else DeadLetter)
  }

  function Next<M>(maxRetries: nat, q: Queues<M>, s: Step<M>): Queues<M>
    requires Enabled(q, s)
  {
    match s
    case Arrive(m) =>
      q.(copies := q.copies + [Copy(|q.arrived|, m, 0, Main)], arrived := q.arrived + [m])
    case Consume(i) =>
      MoveTo(q, i, InFlight(|q.runs|, Running)).(runs := q.runs + [q.copies[i].origin])
    case Succeed(i) =>
      Advance(q, i, Handled).(done := q.done + {q.copies[i].origin})
    case Fail(i) => Advance(q, i, Failing)
    case Route(i) =>
      var r := Advance(q, i, Routed);
      r.(copies := r.copies + [Rerouted(maxRetries, q.copies[i])])
    case Settle(i) => MoveTo(q, i, Gone)
    case Expire(i) => MoveTo(q, i, Main)
    case Fault(i) => MoveTo(q, i, Main).(faults := q.faults + [q.copies[i].origin])
  }

  predicate Legal<M>(maxRetries: nat, q: Queues<M>, steps: seq<Step<M>>)
    decreases |steps|
  {
    steps == [] || (Enabled(q, steps[0]) && Legal(maxRetries, Next(maxRetries, q, steps[0]), steps[1..]))
  }

  function Run<M>(maxRetries: nat, q: Queues<M>, steps: seq<Step<M>>): Queues<M>
    requires Legal(maxRetries, q, steps)
    decreases |steps|
  {
    if steps == [] then q else Run(maxRetries, Next(maxRetries, q, steps[0]), steps[1..])
  }

  // ----- the consumer callback

  /** How publishing the rejected message ends: confirmed, or lost before or after the broker enqueued it. */
  datatype Routing = Confirmed | LostBefore | LostAfter

  /** How one run of the callback ends: the handler returns and the ack is or is not sent; it (or the payload
      schema) throws; or the process dies in it. */
  datatype Callback = Returns(acked: bool) | Throws(routing: Routing) | Dies

  function RoutingSteps<M>(i: nat, routing: Routing): seq<Step<M>> {
    match routing
    case LostBefore => [Fault(i)]
    case Confirmed => [Route(i), Settle(i)]
    case LostAfter => [Route(i), Fault(i)]
  }

  function CallbackSteps<M>(i: nat, end: Callback): seq<Step<M>> {
    match end
    case Dies => [Fault(i)]
    case Returns(acked) => [Succeed(i), if acked then Settle(i) else Fault(i)]
    case Throws(routing) => [Fail(i)] + RoutingSteps(i, routing)
  }

  /** Prefixing a run with one enabled step. */
  lemma Prefix<M>(maxRetries: nat, q: Queues<M>, a: Step<M>, rest: seq<Step<M>>)
    requires Enabled(q, a) && Legal(maxRetries, Next(maxRetries, q, a), rest)
    ensures Legal(maxRetries, q, [a] + rest)
    ensures Run(maxRetries, q, [a] + rest) == Run(maxRetries, Next(maxRetries, q, a), rest)
  {
    assert ([a] + rest)[1..] == rest;
  }

  lemma Two<M>(maxRetries: nat, q: Queues<M>, a: Step<M>, b: Step<M>)
    requires Enabled(q, a) && Enabled(Next(maxRetries, q, a), b)
    ensures Legal(maxRetries, q, [a, b]) && Run(maxRetries, q, [a, b]) == Next(maxRetries, Next(maxRetries, q, a), b)
  {
    Prefix(maxRetries, Next(maxRetries, q, a), b, []);
    Prefix(maxRetries, q, a, [b]);
    assert [b] + [] == [b] && [a] + [b] == [a, b];
  }

  class Subscription<M> {
    const maxRetries: nat
    var copies: seq<Copy<M>>
    var arrived: seq<M>
    var done: set<nat>
    var runs: seq<nat>
    var faults: seq<nat>

    function State(): Queues<M>
      reads this
    {
      Queues(copies, arrived, done, runs, faults)
    }

    constructor (maxRetries: nat)
      ensures this.maxRetries == maxRetries && State() == Empty()
    {
      this.maxRetries := maxRetries;
      copies, arrived, done, runs, faults := [], [], {}, [], [];
    }

    method Publish(m: M)
      modifies this
      ensures State() == Next(maxRetries, old(State()), Arrive(m))
      ensures copies == old(copies) + [Copy(|old(arrived)|, m, 0, Main)] && arrived == old(arrived) + [m]
      ensures done == old(done) && runs == old(runs) && faults == old(faults)
    {
      copies := copies + [Copy(|arrived|, m, 0, Main)];
      arrived := arrived + [m];
    }

    method Deliver(i: nat)
      requires Enabled(State(), Consume(i))
      modifies this
      ensures State() == Next(maxRetries, old(State()), Consume(i))
      ensures copies == old(copies)[i := old(copies[i]).(place := InFlight(|old(runs)|, Running))]
      ensures runs == old(runs) + [old(copies[i]).origin]
      ensures arrived == old(arrived) && done == old(done) && faults == old(faults)
    {
      copies := copies[i := copies[i].(place := InFlight(|runs|, Running))];
      runs := runs + [copies[i].origin];
    }

    method Expired(i: nat)
      requires Enabled(State(), Expire(i))
      modifies this
      ensures State() == Next(maxRetries, old(State()), Expire(i))
      ensures copies == old(copies)[i := old(copies[i]).(place := Main)]
      ensures arrived == old(arrived) && done == old(done) && runs == old(runs) && faults == old(faults)
    {
      copies := copies[i := copies[i].(place := Main)];
    }

    method Ack(i: nat)
      requires Enabled(State(), Settle(i))
      modifies this
      ensures State() == Next(maxRetries, old(State()), Settle(i))
      ensures copies == old(copies)[i := old(copies[i]).(place := Gone)]
      ensures arrived == old(arrived) && done == old(done) && runs == old(runs) && faults == old(faults)
    {
      copies := copies[i := copies[i].(place := Gone)];
    }

    method Requeue(i: nat)
      requires Enabled(State(), Fault(i))
      modifies this
      ensures State() == Next(maxRetries, old(State()), Fault(i))
      ensures copies == old(copies)[i := old(copies[i]).(place := Main)]
      ensures faults == old(faults) + [old(copies[i]).origin]
      ensures arrived == old(arrived) && done == old(done) && runs == old(runs)
    {
      faults := faults + [copies[i].origin];
      copies := copies[i := copies[i].(place := Main)];
    }

    /** The rejected message goes out again as a copy with one more retry, to the retry queue while retries are left and
        to the dead-letter queue after that, and is acknowledged once that is confirmed.  A lost confirm requeues it,
        whether or not the copy got through. */
    method RetryOrDeadLetter(i: nat, routing: Routing)
      requires AtStage(State(), i, Failing)
      modifies this
      ensures var c := old(copies[i]);
        var again := Copy(c.origin, c.content, c.retries + 1, if c.retries < maxRetries then Retry else DeadLetter);
        match routing
        case Confirmed =>
          copies == old(copies)[i := c.(place := Gone)] + [again] && faults == old(faults)
        case LostBefore =>
          copies == old(copies)[i := c.(place := Main)] && faults == old(faults) + [c.origin]
        case LostAfter =>
          copies == old(copies)[i := c.(place := Main)] + [again] && faults == old(faults) + [c.origin]
      ensures arrived == old(arrived) && done == old(done) && runs == old(runs)
      ensures Legal(maxRetries, old(State()), RoutingSteps(i, routing))
      ensures State() == Run(maxRetries, old(State()), RoutingSteps(i, routing))
    {
      if routing == LostBefore {
        Requeue(i);
        return;
      }
      var msg := copies[i];
      var target := if msg.retries < maxRetries then Retry else DeadLetter;
      copies := copies[i := msg.(place := InFlight(msg.place.tag, Routed))];
      copies := copies + [Copy(msg.origin, msg.content, msg.retries + 1, target)];
      ghost var routed := State();
      assert routed == Next(maxRetries, old(State()), Route(i));
      if routing == Confirmed {
        Ack(i);
        Two(maxRetries, old(State()), Route(i), Settle(i));
      } else {
        Requeue(i);
        Two(maxRetries, old(State()), Route(i), Fault(i));
      }
    }

    /** The callback of subscribe, for a delivery it has just been given. */
    method OnMessage(i: nat, end: Callback)
      requires AtStage(State(), i, Running)
      modifies this
      ensures var c := old(copies[i]);
        var again := Copy(c.origin, c.content, c.retries + 1, if c.retries < maxRetries then Retry else DeadLetter);
        match end
        case Returns(true) =>
          copies == old(copies)[i := c.(place := Gone)] && done == old(done) + {c.origin} && faults == old(faults)
        case Returns(false) =>
          && copies == old(copies)[i := c.(place := Main)]
          && done == old(done) + {c.origin} && faults == old(faults) + [c.origin]
        case Throws(Confirmed) =>
          copies == old(copies)[i := c.(place := Gone)] + [again] && done == old(done) && faults == old(faults)
        case Throws(LostBefore) =>
          copies == old(copies)[i := c.(place := Main)] && done == old(done) && faults == old(faults) + [c.origin]
        case Throws(LostAfter) =>
          && copies == old(copies)[i := c.(place := Main)] + [again]
          && done == old(done) && faults == old(faults) + [c.origin]
        case Dies =>
          copies == old(copies)[i := c.(place := Main)] && done == old(done) && faults == old(faults) + [c.origin]
      ensures arrived == old(arrived) && runs == old(runs)
      ensures Legal(maxRetries, old(State()), CallbackSteps(i, end))
      ensures State() == Run(maxRetries, old(State()), CallbackSteps(i, end))
    {
      var msg := copies[i];
      match end
      case Dies =>
        Requeue(i);
      case Returns(acked) =>
        copies := copies[i := msg.(place := InFlight(msg.place.tag, Handled))];
        done := done + {msg.origin};
        assert State() == Next(maxRetries, old(State()), Succeed(i));
        if acked {
          Ack(i);
          Two(maxRetries, old(State()), Succeed(i), Settle(i));
        } else {
          Requeue(i);
          Two(maxRetries, old(State()), Succeed(i), Fault(i));
        }
      case Throws(routing) =>
        copies := copies[i := msg.(place := InFlight(msg.place.tag, Failing))];
        assert State() == Next(maxRetries, old(State()), Fail(i));
        RetryOrDeadLetter(i, routing);
        Prefix(maxRetries, old(State()), Fail(i), RoutingSteps(i, routing));
    }
  }
}
