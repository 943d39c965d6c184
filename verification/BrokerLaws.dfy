/** Conservation of messages, the bound on handler runs, and the bound on the length of a run. */
module BrokerLaws {
  import opened Seqs
  import opened Broker

  // ----- sums over copies and counts over logs

  function Total<M>(w: Copy<M> -> nat, copies: seq<Copy<M>>): nat {
    if copies == [] then 0 else w(copies[0]) + Total(w, copies[1..])
  }

  lemma {:induction false} TotalAppend<M>(w: Copy<M> -> nat, copies: seq<Copy<M>>, c: Copy<M>)
    ensures Total(w, copies + [c]) == Total(w, copies) + w(c)
  {
    if copies == [] {
      assert [] + [c] == [c] && [c][1..] == [];
    } else {
      assert (copies + [c])[1..] == copies[1..] + [c];
      TotalAppend(w, copies[1..], c);
    }
  }

  lemma {:induction false} TotalUpdate<M>(w: Copy<M> -> nat, copies: seq<Copy<M>>, i: nat, c: Copy<M>)
    requires i < |copies|
    ensures Total(w, copies[i := c]) + w(copies[i]) == Total(w, copies) + w(c)
  {
    if i == 0 {
      assert copies[0 := c][1..] == copies[1..];
    } else {
      assert copies[i := c][1..] == copies[1..][i - 1 := c];
      TotalUpdate(w, copies[1..], i - 1, c);
    }
  }

  lemma {:induction false} TotalWitness<M>(w: Copy<M> -> nat, copies: seq<Copy<M>>)
    requires Total(w, copies) > 0
    ensures exists i :: 0 <= i < |copies| && w(copies[i]) > 0
  {
    if w(copies[0]) == 0 {
      TotalWitness(w, copies[1..]);
      var i :| 0 <= i < |copies[1..]| && w(copies[1..][i]) > 0;
      assert w(copies[i + 1]) > 0;
    }
  }

  /** A selection of messages: all of them, or one. */
  predicate In(which: Option<nat>, origin: nat) { which.None? || which.value == origin }

  function Count(log: seq<nat>, which: Option<nat>): nat {
    if log == [] then 0 else (if In(which, log[|log| - 1]) then 1 else 0) + Count(log[..|log| - 1], which)
  }

  lemma CountAppend(log: seq<nat>, which: Option<nat>, o: nat)
    ensures Count(log + [o], which) == Count(log, which) + if In(which, o) then 1 else 0
  {
    assert (log + [o])[..|log|] == log;
  }

  lemma {:induction false} CountAll(log: seq<nat>)
    ensures Count(log, None) == |log|
  {
    if log != [] { CountAll(log[..|log| - 1]); }
  }

  /** How many of the arrived messages are selected. */
  function Arrivals<M>(q: Queues<M>, which: Option<nat>): nat {
    match which case None => |q.arrived| case Some(o) => if o < |q.arrived| then 1 else 0
  }

  // ----- weights

  /** The copy the broker is still responsible for: neither gone nor superseded by the copy routed from it. */
  predicate Live(p: Place) { !p.Gone? && !(p.InFlight? && p.stage.Routed?) }

  function LiveOf<M>(which: Option<nat>): Copy<M> -> nat {
    (c: Copy<M>) => if In(which, c.origin) && Live(c.place) then 1 else 0
  }

  /** The copies of a message that are not gone. */
  function HeldOf<M>(which: Option<nat>): Copy<M> -> nat {
    (c: Copy<M>) => if In(which, c.origin) && !c.place.Gone? then 1 else 0
  }

  /** The deliveries of a message whose copy was published and confirmed but which are not acknowledged yet. */
  function RoutedOf<M>(which: Option<nat>): Copy<M> -> nat {
    (c: Copy<M>) => if In(which, c.origin) && c.place.InFlight? && c.place.stage.Routed? then 1 else 0
  }

  lemma {:induction false} HeldSplits<M>(which: Option<nat>, copies: seq<Copy<M>>)
    ensures Total(HeldOf(which), copies) == Total(LiveOf(which), copies) + Total(RoutedOf(which), copies)
  {
    if copies != [] { HeldSplits(which, copies[1..]); }
  }

  /** Handler runs a copy can still cause without a further fault. */
  function Potential<M>(maxRetries: nat, c: Copy<M>): nat {
    var left := if c.retries <= maxRetries then maxRetries + 1 - c.retries else 0;
    match c.place
    case Main => left
    case Retry => left
    case InFlight(_, stage) => if (stage.Running? || stage.Failing?) && left > 0 then left - 1 else 0
    case _ => 0
  }

  function PotentialOf<M>(maxRetries: nat, which: Option<nat>): Copy<M> -> nat {
    (c: Copy<M>) => if In(which, c.origin) then Potential(maxRetries, c) else 0
  }

  /** Steps a copy can still take without a further fault. */
  function Work<M>(maxRetries: nat): Copy<M> -> nat {
    (c: Copy<M>) =>
      var left := if c.retries <= maxRetries then 5 * (maxRetries + 1 - c.retries) else 0;
      match c.place
      case Main => left
      case Retry => left + 1
      case InFlight(_, Running) => if left > 0 then left - 1 else 0
      case InFlight(_, Failing) => if left > 0 then left - 2 else 0
      case InFlight(_, _) => 1
      case _ => 0
  }

  // ----- the invariant

  ghost predicate CopySound<M>(maxRetries: nat, q: Queues<M>, c: Copy<M>) {
    && c.origin < |q.arrived| && c.content == q.arrived[c.origin]
    && (if c.place.DeadLetter? then c.retries == maxRetries + 1 else c.retries <= maxRetries)
    && (c.place.InFlight? && c.place.stage.Handled? ==> c.origin in q.done)
  }

  ghost predicate Sound<M>(maxRetries: nat, q: Queues<M>) {
    && (forall i :: 0 <= i < |q.copies| ==> CopySound(maxRetries, q, q.copies[i]))
    && (forall o :: o in q.done ==> o < |q.arrived|)
    && (forall o :: Conserved(q, o))
    && (forall which :: Bounded(maxRetries, q, which))
    && (forall o :: Accounted(maxRetries, q, o))
  }

  /** Until a handler run for it succeeds a message has a live copy, and each fault adds at most one. */
  ghost predicate Conserved<M>(q: Queues<M>, o: nat) {
    && (o < |q.arrived| && o !in q.done ==> Total(LiveOf(Some(o)), q.copies) >= 1)
    && Total(LiveOf(Some(o)), q.copies) <= Arrivals(q, Some(o)) + Count(q.faults, Some(o))
  }

  /** Handler runs so far, plus those still possible, stay within (maxRetries + 1) for each arrival and fault. */
  ghost predicate Bounded<M>(maxRetries: nat, q: Queues<M>, which: Option<nat>) {
    Count(q.runs, which) + Total(PotentialOf(maxRetries, which), q.copies)
    <= (maxRetries + 1) * (Arrivals(q, which) + Count(q.faults, which))
  }

  /** No run is lost either: a message not yet handled has used or still owns its maxRetries + 1 runs. */
  ghost predicate Accounted<M>(maxRetries: nat, q: Queues<M>, o: nat) {
    o < |q.arrived| && o !in q.done ==>
      Count(q.runs, Some(o)) + Total(PotentialOf(maxRetries, Some(o)), q.copies) >= maxRetries + 1
  }

  /** Every copy carries the content that was published. */
  lemma CopyContent<M>(maxRetries: nat, q: Queues<M>, i: nat)
    requires Sound(maxRetries, q) && i < |q.copies|
    ensures q.copies[i].origin < |q.arrived| && q.copies[i].content == q.arrived[q.copies[i].origin]
  {
    assert CopySound(maxRetries, q, q.copies[i]);
  }

  lemma EmptySound<M>(maxRetries: nat)
    ensures Sound(maxRetries, Empty<M>())
  {}

  /** What a step does to any weighted sum of the copies. */
  lemma TotalStep<M>(maxRetries: nat, q: Queues<M>, s: Step<M>, w: Copy<M> -> nat)
    requires Enabled(q, s)
    ensures var t := Next(maxRetries, q, s);
      match s
      case Arrive(m) => Total(w, t.copies) == Total(w, q.copies) + w(Copy(|q.arrived|, m, 0, Main))
      case Route(i) =>
        Total(w, t.copies) + w(q.copies[i])
        == Total(w, q.copies) + w(t.copies[i]) + w(Rerouted(maxRetries, q.copies[i]))
      case Consume(i) => Total(w, t.copies) + w(q.copies[i]) == Total(w, q.copies) + w(t.copies[i])
      case Succeed(i) => Total(w, t.copies) + w(q.copies[i]) == Total(w, q.copies) + w(t.copies[i])
      case Fail(i) => Total(w, t.copies) + w(q.copies[i]) == Total(w, q.copies) + w(t.copies[i])
      case Settle(i) => Total(w, t.copies) + w(q.copies[i]) == Total(w, q.copies) + w(t.copies[i])
      case Expire(i) => Total(w, t.copies) + w(q.copies[i]) == Total(w, q.copies) + w(t.copies[i])
      case Fault(i) => Total(w, t.copies) + w(q.copies[i]) == Total(w, q.copies) + w(t.copies[i])
  {
    var t := Next(maxRetries, q, s);
    match s
    case Arrive(m) => TotalAppend(w, q.copies, Copy(|q.arrived|, m, 0, Main));
    case Route(i) =>
      var moved := q.copies[i := q.copies[i].(place := InFlight(q.copies[i].place.tag, Routed))];
      TotalUpdate(w, q.copies, i, moved[i]);
      TotalAppend(w, moved, Rerouted(maxRetries, q.copies[i]));
    case Consume(i) => TotalUpdate(w, q.copies, i, t.copies[i]);
    case Succeed(i) => TotalUpdate(w, q.copies, i, t.copies[i]);
    case Fail(i) => TotalUpdate(w, q.copies, i, t.copies[i]);
    case Settle(i) => TotalUpdate(w, q.copies, i, t.copies[i]);
    case Expire(i) => TotalUpdate(w, q.copies, i, t.copies[i]);
    case Fault(i) => TotalUpdate(w, q.copies, i, t.copies[i]);
  }

  lemma CopiesStep<M>(maxRetries: nat, q: Queues<M>, s: Step<M>)
    requires Sound(maxRetries, q) && Enabled(q, s)
    ensures var t := Next(maxRetries, q, s);
      && (forall i :: 0 <= i < |t.copies| ==> CopySound(maxRetries, t, t.copies[i]))
      && (forall o :: o in t.done ==> o < |t.arrived|)
  {
    hide Total, Count;
    var t := Next(maxRetries, q, s);
    forall i | 0 <= i < |t.copies| ensures CopySound(maxRetries, t, t.copies[i]) {
      if i < |q.copies| { assert CopySound(maxRetries, q, q.copies[i]); }
      if s.Route? { assert CopySound(maxRetries, q, q.copies[s.i]); }
    }
    if s.Succeed? { assert CopySound(maxRetries, q, q.copies[s.i]); }
  }

  lemma LogsStep<M>(maxRetries: nat, q: Queues<M>, s: Step<M>, which: Option<nat>)
    requires Enabled(q, s)
    ensures var t := Next(maxRetries, q, s);
      && Count(t.runs, which) == Count(q.runs, which) + (if s.Consume? && In(which, q.copies[s.i].origin) then 1 else 0)
      && Count(t.faults, which) == Count(q.faults, which)
         + (if s.Fault? && In(which, q.copies[s.i].origin) then 1 else 0)
  {
    if s.Consume? { CountAppend(q.runs, which, q.copies[s.i].origin); }
    if s.Fault? { CountAppend(q.faults, which, q.copies[s.i].origin); }
  }

  lemma ConservedStep<M>(maxRetries: nat, q: Queues<M>, s: Step<M>, o: nat)
    requires Sound(maxRetries, q) && Enabled(q, s)
    ensures Conserved(Next(maxRetries, q, s), o)
  {
    hide Total, Count;
    assert Conserved(q, o);
    TotalStep(maxRetries, q, s, LiveOf(Some(o)));
    LogsStep(maxRetries, q, s, Some(o));
    if !s.Arrive? { assert CopySound(maxRetries, q, q.copies[s.i]); }
  }

  lemma Distribute(k: nat, n: nat, m: nat)
    ensures k * (n + m) == k * n + k * m
  {}

  /** A step uses up what it owes: runs so far and runs still possible grow only with an arrival or a fault. */
  lemma PotentialStep<M>(maxRetries: nat, q: Queues<M>, s: Step<M>, which: Option<nat>)
    requires Sound(maxRetries, q) && Enabled(q, s)
    ensures var t := Next(maxRetries, q, s);
      var more := Arrivals(t, which) + Count(t.faults, which) - Arrivals(q, which) - Count(q.faults, which);
      && 0 <= more <= 1
      && Count(t.runs, which) + Total(PotentialOf(maxRetries, which), t.copies)
         <= Count(q.runs, which) + Total(PotentialOf(maxRetries, which), q.copies)
            + if more == 1 then maxRetries + 1 else 0
  {
    hide Total, Count, Conserved, Bounded, Accounted;
    TotalStep(maxRetries, q, s, PotentialOf(maxRetries, which));
    LogsStep(maxRetries, q, s, which);
    if !s.Arrive? { assert CopySound(maxRetries, q, q.copies[s.i]); }
  }

  lemma BoundedStep<M>(maxRetries: nat, q: Queues<M>, s: Step<M>, which: Option<nat>)
    requires Sound(maxRetries, q) && Enabled(q, s)
    ensures Bounded(maxRetries, Next(maxRetries, q, s), which)
  {
    hide Total, Count, Next, CopySound, Conserved, Accounted, Arrivals;
    var t := Next(maxRetries, q, s);
    assert Bounded(maxRetries, q, which);
    PotentialStep(maxRetries, q, s, which);
    var n := Arrivals(q, which) + Count(q.faults, which);
    Distribute(maxRetries + 1, n, Arrivals(t, which) + Count(t.faults, which) - n);
  }

  lemma AccountedStep<M>(maxRetries: nat, q: Queues<M>, s: Step<M>, o: nat)
    requires Sound(maxRetries, q) && Enabled(q, s)
    ensures Accounted(maxRetries, Next(maxRetries, q, s), o)
  {
    hide Total, Count;
    assert Accounted(maxRetries, q, o);
    TotalStep(maxRetries, q, s, PotentialOf(maxRetries, Some(o)));
    LogsStep(maxRetries, q, s, Some(o));
    if !s.Arrive? { assert CopySound(maxRetries, q, q.copies[s.i]); }
  }

  /** Every step keeps all of it. */
  lemma SoundStep<M>(maxRetries: nat, q: Queues<M>, s: Step<M>)
    requires Sound(maxRetries, q) && Enabled(q, s)
    ensures Sound(maxRetries, Next(maxRetries, q, s))
  {
    hide Total, Count, CopySound, Conserved, Bounded, Accounted, Next;
    var t := Next(maxRetries, q, s);
    CopiesStep(maxRetries, q, s);
    forall o: nat ensures Conserved(t, o) && Accounted(maxRetries, t, o) {
      ConservedStep(maxRetries, q, s, o);
      AccountedStep(maxRetries, q, s, o);
    }
    forall which ensures Bounded(maxRetries, t, which) { BoundedStep(maxRetries, q, s, which); }
  }

  lemma {:induction false} SoundRun<M>(maxRetries: nat, q: Queues<M>, steps: seq<Step<M>>)
    requires Sound(maxRetries, q) && Legal(maxRetries, q, steps)
    ensures Sound(maxRetries, Run(maxRetries, q, steps))
    decreases |steps|
  {
    hide Sound;
    if steps != [] {
      SoundStep(maxRetries, q, steps[0]);
      SoundRun(maxRetries, Next(maxRetries, q, steps[0]), steps[1..]);
    }
  }

  // ----- the promises, for every run from empty queues

  /** Conservation: a message whose handling has not succeeded has a live copy in the main queue, in flight, in the
      retry queue or dead-lettered, and at most one more for each fault.  Between the confirm and the acknowledgement
      a rerouted delivery exists beside the copy that supersedes it: with no fault the copies that are not gone number
      one plus these deliveries.  Retry counts bound where a copy can be, and every copy carries the content that was
      published. */
  lemma Conservation<M>(maxRetries: nat, steps: seq<Step<M>>, o: nat)
    requires Legal(maxRetries, Empty(), steps)
    ensures var q := Run(maxRetries, Empty(), steps);
      o < |q.arrived| && o !in q.done ==>
        && (exists i :: 0 <= i < |q.copies| && q.copies[i].origin == o && Live(q.copies[i].place))
        && 1 <= Total(LiveOf(Some(o)), q.copies) <= 1 + Count(q.faults, Some(o))
        && (Count(q.faults, Some(o)) == 0 ==>
              Total(HeldOf(Some(o)), q.copies) == 1 + Total(RoutedOf(Some(o)), q.copies))
    ensures var q := Run(maxRetries, Empty(), steps);
      forall i :: 0 <= i < |q.copies| ==>
        var c := q.copies[i];
        && c.origin < |q.arrived| && c.content == q.arrived[c.origin]
        && (c.place.DeadLetter? ==> c.retries == maxRetries + 1)
        && (c.place.Main? || c.place.Retry? || c.place.InFlight? ==> c.retries <= maxRetries)
  {
    hide Total, Count;
    EmptySound<M>(maxRetries);
    SoundRun(maxRetries, Empty(), steps);
    var q := Run(maxRetries, Empty(), steps);
    assert Conserved(q, o);
    HeldSplits(Some(o), q.copies);
    if o < |q.arrived| && o !in q.done {
      TotalWitness(LiveOf(Some(o)), q.copies);
    }
    forall i | 0 <= i < |q.copies| ensures CopySound(maxRetries, q, q.copies[i]) {}
  }

  /** Both are there without any fault after a delivery was rejected and its copy confirmed. */
  lemma RoutedBesideCopy<M>(maxRetries: nat, m: M)
    ensures var steps: seq<Step<M>> := [Arrive(m), Consume(0), Fail(0), Route(0)];
      Legal(maxRetries, Empty(), steps)
      && var q := Run(maxRetries, Empty(), steps);
         |q.faults| == 0 && 0 !in q.done && |q.copies| == 2
         && AtStage(q, 0, Routed) && q.copies[1] == Rerouted(maxRetries, Copy(0, m, 0, Main))
  {
    var arrived: Queues<M> := Next(maxRetries, Empty(), Arrive(m));
    var consumed := Next(maxRetries, arrived, Consume(0));
    var rejected: seq<Step<M>> := [Fail(0), Route(0)];
    Two(maxRetries, consumed, Fail(0), Route(0));
    Prefix(maxRetries, arrived, Consume(0), rejected);
    Prefix(maxRetries, Empty(), Arrive(m), [Consume(0)] + rejected);
    assert [Arrive(m)] + ([Consume(0)] + rejected) == [Arrive(m), Consume(0), Fail(0), Route(0)];
  }

  /** With n messages delivered and f faults the handler runs at most (maxRetries + 1) * (n + f) times, and the bound
      holds for every message by itself. */
  lemma RetryBound<M>(maxRetries: nat, steps: seq<Step<M>>)
    requires Legal(maxRetries, Empty(), steps)
    ensures var q := Run(maxRetries, Empty(), steps);
      && |q.runs| <= (maxRetries + 1) * (|q.arrived| + |q.faults|)
      && forall o: nat :: o < |q.arrived| ==>
           Count(q.runs, Some(o)) <= (maxRetries + 1) * (1 + Count(q.faults, Some(o)))
  {
    hide Total, Count;
    EmptySound<M>(maxRetries);
    SoundRun(maxRetries, Empty(), steps);
    var q := Run(maxRetries, Empty(), steps);
    assert Bounded(maxRetries, q, None);
    CountAll(q.runs);
    CountAll(q.faults);
    forall o: nat | o < |q.arrived|
      ensures Count(q.runs, Some(o)) <= (maxRetries + 1) * (1 + Count(q.faults, Some(o)))
    {
      assert Bounded(maxRetries, q, Some(o));
    }
  }

  lemma {:induction false} TotalZero<M>(w: Copy<M> -> nat, copies: seq<Copy<M>>)
    requires forall i :: 0 <= i < |copies| ==> w(copies[i]) == 0
    ensures Total(w, copies) == 0
  {
    if copies != [] { TotalZero(w, copies[1..]); }
  }

  /** When nothing is left to do, every message was handled or lies in the dead-letter queue, and one that never saw a
      fault got there after exactly maxRetries + 1 handler runs. */
  lemma Quiescent<M>(maxRetries: nat, steps: seq<Step<M>>, o: nat)
    requires Legal(maxRetries, Empty(), steps)
    requires var q := Run(maxRetries, Empty(), steps);
      o < |q.arrived| && o !in q.done && forall s :: Enabled(q, s) ==> s.Arrive?
    ensures var q := Run(maxRetries, Empty(), steps);
      && (exists i :: 0 <= i < |q.copies| && q.copies[i].origin == o && q.copies[i].place.DeadLetter?)
      && Count(q.runs, Some(o)) >= maxRetries + 1
      && (Count(q.faults, Some(o)) == 0 ==> Count(q.runs, Some(o)) == maxRetries + 1)
  {
    hide Total, Count;
    var q := Run(maxRetries, Empty(), steps);
    forall i | 0 <= i < |q.copies| ensures q.copies[i].place.DeadLetter? || q.copies[i].place.Gone? {
      assert !Enabled(q, Consume(i)) && !Enabled(q, Expire(i)) && !Enabled(q, Fault(i));
    }
    Conservation(maxRetries, steps, o);
    EmptySound<M>(maxRetries);
    SoundRun(maxRetries, Empty(), steps);
    assert Accounted(maxRetries, q, o);
    assert Bounded(maxRetries, q, Some(o));
    TotalZero(PotentialOf(maxRetries, Some(o)), q.copies);
  }

  predicate Progress<M>(s: Step<M>) { !s.Arrive? && !s.Fault? }

  function ProgressSteps<M>(steps: seq<Step<M>>): nat {
    if steps == [] then 0 else (if Progress(steps[0]) then 1 else 0) + ProgressSteps(steps[1..])
  }

  lemma WorkStep<M>(maxRetries: nat, q: Queues<M>, s: Step<M>)
    requires Sound(maxRetries, q) && Enabled(q, s)
    ensures var t := Next(maxRetries, q, s);
      && (Progress(s) ==> Total(Work(maxRetries), t.copies) < Total(Work(maxRetries), q.copies))
      && (!Progress(s) ==>
            Total(Work(maxRetries), t.copies) <= Total(Work(maxRetries), q.copies) + 5 * (maxRetries + 1))
      && (!Progress(s) ==> |t.arrived| + |t.faults| == |q.arrived| + |q.faults| + 1)
    ensures Progress(s) ==> Next(maxRetries, q, s).arrived == q.arrived && Next(maxRetries, q, s).faults == q.faults
  {
    hide Total, Count;
    TotalStep(maxRetries, q, s, Work(maxRetries));
    if !s.Arrive? { assert CopySound(maxRetries, q, q.copies[s.i]); }
  }

  lemma {:induction false} WorkRun<M>(maxRetries: nat, q: Queues<M>, steps: seq<Step<M>>)
    requires Sound(maxRetries, q) && Legal(maxRetries, q, steps)
    ensures var t := Run(maxRetries, q, steps);
      && |t.arrived| + |t.faults| >= |q.arrived| + |q.faults|
      && ProgressSteps(steps) + Total(Work(maxRetries), t.copies)
         <= Total(Work(maxRetries), q.copies)
            + 5 * (maxRetries + 1) * (|t.arrived| + |t.faults| - |q.arrived| - |q.faults|)
    decreases |steps|
  {
    hide Total, Count, Sound;
    if steps != [] {
      var u := Next(maxRetries, q, steps[0]);
      SoundStep(maxRetries, q, steps[0]);
      WorkStep(maxRetries, q, steps[0]);
      WorkRun(maxRetries, u, steps[1..]);
      var t := Run(maxRetries, q, steps);
      var more := |t.arrived| + |t.faults| - |u.arrived| - |u.faults|;
      Distribute(5 * (maxRetries + 1), more, |u.arrived| + |u.faults| - |q.arrived| - |q.faults|);
    }
  }

  /** A run has at most 5 * (maxRetries + 1) progress steps for each message and each fault: retrying ends. */
  lemma RunTerminates<M>(maxRetries: nat, steps: seq<Step<M>>)
    requires Legal(maxRetries, Empty(), steps)
    ensures var q := Run(maxRetries, Empty(), steps);
      ProgressSteps(steps) <= 5 * (maxRetries + 1) * (|q.arrived| + |q.faults|)
  {
    EmptySound<M>(maxRetries);
    WorkRun(maxRetries, Empty<M>(), steps);
  }
}
