/**
 What happens when nothing crashes or fails: a waiting message is handled, its handler creates a flow, the flow becomes
 runnable, and an attempt of it ends, with the row terminal and its result announced.  Disturbed or not, every attempt
 ends within six of its own steps.
 */
module Progress {
  import opened Seqs
  import opened Schema
  import opened Contracts
  import opened ContractLaws
  import Aggregation
  import opened Events
  import opened Rows
  import Broker
  import BrokerLaws
  import opened Jobs
  import opened Pipeline
  import opened PipelineLaws
  import opened Guarantees

  // ----- runs

  /** These events lead from s to t. */
  ghost predicate Leads(c: Config, s: System, events: seq<Event>, t: System) {
    Pipeline.Legal(c, s, events) && Pipeline.Run(c, s, events) == t
  }

  /** Nothing arrives, crashes or fails in this event. */
  predicate Calm(e: Event) {
    && !e.Upload? && !e.HandlerFails? && !e.HandlerStops? && !e.ChildFails? && !e.Stop?
    && !(e.Queue? && e.step.Fault?)
  }

  predicate AllCalm(events: seq<Event>) { forall i :: 0 <= i < |events| ==> Calm(events[i]) }

  /** Calm events lead from s to t. */
  ghost predicate GoesTo(c: Config, s: System, events: seq<Event>, t: System) {
    Leads(c, s, events, t) && AllCalm(events)
  }

  lemma Stay(c: Config, s: System)
    ensures GoesTo(c, s, [], s)
  {}

  lemma Prepend(c: Config, s: System, e: Event, rest: seq<Event>, t: System)
    requires Enabled(c, s, e) && Leads(c, Next(c, s, e), rest, t)
    ensures Leads(c, s, [e] + rest, t)
  {
    hide Enabled, Next;
    assert ([e] + rest)[0] == e && ([e] + rest)[1..] == rest;
  }

  lemma First(c: Config, s: System, e: Event, rest: seq<Event>, t: System)
    requires Enabled(c, s, e) && Calm(e) && GoesTo(c, Next(c, s, e), rest, t)
    ensures GoesTo(c, s, [e] + rest, t)
  {
    hide Enabled, Next, Calm, Leads;
    Prepend(c, s, e, rest, t);
  }

  lemma {:induction false} Append(c: Config, s: System, a: seq<Event>, t: System, b: seq<Event>, u: System)
    requires Leads(c, s, a, t) && Leads(c, t, b, u)
    ensures Leads(c, s, a + b, u)
    decreases |a|
  {
    hide Enabled, Next;
    if a == [] {
      assert a + b == b;
    } else {
      Append(c, Next(c, s, a[0]), a[1..], t, b, u);
      Prepend(c, s, a[0], a[1..] + b, u);
      assert [a[0]] + (a[1..] + b) == a + b;
    }
  }

  lemma Then(c: Config, s: System, a: seq<Event>, t: System, b: seq<Event>, u: System)
    requires GoesTo(c, s, a, t) && GoesTo(c, t, b, u)
    ensures GoesTo(c, s, a + b, u)
  {
    hide Leads, Calm;
    Append(c, s, a, t, b, u);
  }

  // ----- flows stay whole

  ghost predicate Whole(heights: seq<nat>, jobs: Store, v: string) {
    forall kind :: kind in ChildKinds(heights) ==> KeyOf(kind, v) in jobs
  }

  /** A flow misses a child only after one of its children used up its attempts. */
  ghost predicate FlowsWhole(heights: seq<nat>, jobs: Store) {
    forall v :: HasFlow(jobs, v) ==> Whole(heights, jobs, v) || SomeExhausted(heights, jobs, v)
  }

  lemma WholeAfterAdding(c: Config, s: System, v: string)
    requires Filed(s.jobs) && FlowsWhole(c.heights, s.jobs)
    ensures FlowsWhole(c.heights, AddFlow(c.heights, s.jobs, v))
  {
    hide KeyOf, AddFlow, ChildKinds;
    var after := AddFlow(c.heights, s.jobs, v);
    FlowAdded(c.heights, s.jobs, v);
    forall w | HasFlow(after, w) && w != v
      ensures Whole(c.heights, after, w) || SomeExhausted(c.heights, after, w)
    {
      var k := KeyOf(Orchestrator, w);
      KeysDistinct(Orchestrator, w, after[k].kind, after[k].videoId);
      assert HasFlow(s.jobs, w);
      if SomeExhausted(c.heights, s.jobs, w) {
        var kind :| kind in ChildKinds(c.heights) && InState(s.jobs, kind, w, false);
        assert InState(after, kind, w, false);
      }
    }
  }

  lemma WholeAfterRemoving(c: Config, s: System, removed: set<Key>, v: string)
    requires Filed(s.jobs) && FlowsWhole(c.heights, s.jobs) && SomeExhausted(c.heights, s.jobs, v)
    requires forall k :: k in removed ==> k in s.jobs && s.jobs[k].videoId == v && s.jobs[k].state.Open?
    ensures FlowsWhole(c.heights, s.jobs - removed)
  {
    hide KeyOf, ChildKinds;
    var after := s.jobs - removed;
    forall w, kind | KeyOf(kind, w) in s.jobs && w != v ensures KeyOf(kind, w) in after {
      var k := KeyOf(kind, w);
      KeysDistinct(kind, w, s.jobs[k].kind, s.jobs[k].videoId);
    }
    forall w | HasFlow(after, w) ensures Whole(c.heights, after, w) || SomeExhausted(c.heights, after, w) {
      assert HasFlow(s.jobs, w);
      if SomeExhausted(c.heights, s.jobs, w) {
        var kind :| kind in ChildKinds(c.heights) && InState(s.jobs, kind, w, false);
        assert InState(after, kind, w, false);
      }
    }
  }

  lemma WholeAfterChange(c: Config, s: System, k: Key, job: Job)
    requires FlowsWhole(c.heights, s.jobs) && k in s.jobs && s.jobs[k].state.Open?
    ensures FlowsWhole(c.heights, s.jobs[k := job])
  {
    hide KeyOf, ChildKinds;
    var after := s.jobs[k := job];
    forall w | HasFlow(after, w) ensures Whole(c.heights, after, w) || SomeExhausted(c.heights, after, w) {
      assert HasFlow(s.jobs, w);
      if SomeExhausted(c.heights, s.jobs, w) {
        var kind :| kind in ChildKinds(c.heights) && InState(s.jobs, kind, w, false);
        assert InState(after, kind, w, false);
      }
    }
  }

  /** The jobs after a step. */
  lemma JobsOfStep(c: Config, s: System, e: Event)
    requires Enabled(c, s, e)
    ensures var jobs := Next(c, s, e).jobs;
      match e
      case CreateFlow(h) => AtHandler(s, h, Active) && jobs == AddFlow(c.heights, s.jobs, s.handlers[h].videoId)
      case ChildFails(kind, v, _) =>
        ChildOpen(s.jobs, kind, v) && KeyOf(kind, v) in jobs && jobs == s.jobs[KeyOf(kind, v) := jobs[KeyOf(kind, v)]]
      case ChildSucceeds(kind, v, _) =>
        ChildOpen(s.jobs, kind, v) && KeyOf(kind, v) in jobs && jobs == s.jobs[KeyOf(kind, v) := jobs[KeyOf(kind, v)]]
      case StartAttempt(v) =>
        && HasFlow(s.jobs, v) && s.jobs[KeyOf(Orchestrator, v)].tries < ATTEMPTS
        && jobs == s.jobs[KeyOf(Orchestrator, v) := Tried(s.jobs[KeyOf(Orchestrator, v)], Open)]
      case Purge(a, removed) =>
        a < |s.attempts| && s.attempts[a].pc.Purging? && jobs == s.jobs - removed
        && forall k :: k in removed ==>
             && k in s.jobs && s.jobs[k].videoId == s.attempts[a].videoId && s.jobs[k].kind != Orchestrator
             && s.jobs[k].state.Open?
      case _ => jobs == s.jobs
  {
    hide AddFlow, Broker.Next, Broker.Enabled, Exec, Writes, Runnable, ChildrenValues, ChildrenFailures, Parse;
    hide ReadBack, TerminalPayload, ChildValue, KeyOf, Aggregation.Aggregate;
    if e.StartAttempt? { RunnableHasFlow(c.heights, s.jobs, e.videoId); }
  }

  lemma RunnableHasFlow(heights: seq<nat>, jobs: Store, v: string)
    requires Runnable(heights, jobs, v)
    ensures HasFlow(jobs, v)
  {
    hide KeyOf, AllSucceeded, SomeExhausted;
  }

  ghost predicate Good(c: Config, s: System) {
    Inv(c, s) && FlowsWhole(c.heights, s.jobs) && Distinct(c.heights)
  }

  lemma PurgingExhausted(c: Config, s: System, a: nat)
    requires Inv(c, s) && a < |s.attempts| && s.attempts[a].pc.Purging?
    ensures SomeExhausted(c.heights, s.jobs, s.attempts[a].videoId)
  {
    hide QueuesOk, RowOk, JobOk, HandlerOk, AnnouncementOk, Filed, KeyOf, SomeExhausted, FromChild;
    assert AttemptOk(c, s, s.attempts[a]);
  }

  /** The orchestrator job of a flow: open, and charged with at most as many attempts as it has. */
  lemma OrchestratorOpen(c: Config, s: System, v: string)
    requires Inv(c, s) && HasFlow(s.jobs, v)
    ensures var job := s.jobs[KeyOf(Orchestrator, v)];
      job.kind == Orchestrator && job.videoId == v && job.state.Open? && job.tries <= ATTEMPTS
  {
    hide Inv, KeyOf, IsUuid, Started, ChildResultOk, ChildKinds;
    JobOfKind(c, s, Orchestrator, v);
  }

  lemma GoodStep(c: Config, s: System, e: Event)
    requires Good(c, s) && Enabled(c, s, e)
    ensures Good(c, Next(c, s, e))
  {
    hide Enabled, Next, FlowsWhole, QueuesOk, RowOk, JobOk, HandlerOk, AttemptOk, AnnouncementOk, KeyOf, AddFlow;
    hide Grows;
    Step(c, s, e);
    JobsOfStep(c, s, e);
    match e
    case CreateFlow(h) => WholeAfterAdding(c, s, s.handlers[h].videoId);
    case ChildFails(kind, v, _) => WholeAfterChange(c, s, KeyOf(kind, v), Next(c, s, e).jobs[KeyOf(kind, v)]);
    case ChildSucceeds(kind, v, _) => WholeAfterChange(c, s, KeyOf(kind, v), Next(c, s, e).jobs[KeyOf(kind, v)]);
    case StartAttempt(v) =>
      OrchestratorOpen(c, s, v);
      WholeAfterChange(c, s, KeyOf(Orchestrator, v), Next(c, s, e).jobs[KeyOf(Orchestrator, v)]);
    case Purge(a, removed) =>
      PurgingExhausted(c, s, a);
      WholeAfterRemoving(c, s, removed, s.attempts[a].videoId);
    case _ =>
  }

  lemma {:induction false} GoodRun(c: Config, s: System, events: seq<Event>)
    requires Good(c, s) && Pipeline.Legal(c, s, events)
    ensures Good(c, Pipeline.Run(c, s, events))
    decreases |events|
  {
    hide Good, Enabled, Next;
    if events != [] {
      GoodStep(c, s, events[0]);
      GoodRun(c, Next(c, s, events[0]), events[1..]);
    }
  }

  lemma ReachableGood(c: Config, s: System)
    requires Reachable(c, s)
    ensures Good(c, s)
  {
    hide Inv, Enabled, Next;
    var events :| Pipeline.Legal(c, Initial(), events) && Pipeline.Run(c, Initial(), events) == s;
    InitialInv(c);
    assert FlowsWhole(c.heights, Initial().jobs);
    GoodRun(c, Initial(), events);
  }

  // ----- an attempt ends

  /** How many steps of its own an attempt can still make. */
  function Rank(pc: AttemptPc): nat {
    match pc
    case Reading => 6
    case Purging(_) => 5
    case Collecting => 5
    case Storing(_) => 4
    case Looking(_) => 3
    case Announcing(_) => 2
    case Announced(_) => 1
    case Returned(_) => 0
    case Threw => 0
    case Stopped => 0
  }

  /** The event is a step of attempt a. */
  predicate StepOf(e: Event, a: nat) {
    match e
    case ReadFailures(i, _) => i == a
    case Purge(i, _) => i == a
    case Collect(i, _) => i == a
    case Record(i, _) => i == a
    case LookUp(i) => i == a
    case Announce(i) => i == a
    case Return(i) => i == a
    case Stop(i) => i == a
    case _ => false
  }

  /** The attempts after a step: one event starts an attempt, an attempt's own events lower its rank, and no other event
      changes it. */
  ghost predicate AttemptChange(s: System, e: Event, t: System, a: nat)
    requires a < |s.attempts|
  {
    && |t.attempts| == |s.attempts| + (if e.StartAttempt? then 1 else 0)
    && t.attempts[a].videoId == s.attempts[a].videoId
    && if StepOf(e, a) then Rank(t.attempts[a].pc) < Rank(s.attempts[a].pc) else t.attempts[a] == s.attempts[a]
  }

  lemma AttemptAfterUpload(c: Config, s: System, e: Event, a: nat)
    requires Enabled(c, s, e) && OfUpload(e) && a < |s.attempts|
    ensures AttemptChange(s, e, NextOfUpload(c, s, e), a)
  {
    hide AddFlow, Broker.Next, Broker.Enabled, Exec, Writes, Runnable, ChildrenValues, ChildrenFailures, Parse;
    hide ChildOpen, KeyOf, Rank;
  }

  lemma AttemptAfterFlow(c: Config, s: System, e: Event, a: nat)
    requires Enabled(c, s, e) && !OfUpload(e) && a < |s.attempts|
    ensures AttemptChange(s, e, NextOfFlow(c, s, e), a)
  {
    hide AddFlow, Broker.Enabled, Exec, Writes, Runnable, ChildrenValues, ChildrenFailures, Parse;
    hide ReadBack, TerminalPayload, ChildValue, KeyOf, Aggregation.Aggregate, HasDelivery, AtHandler;
  }

  lemma AttemptAfter(c: Config, s: System, e: Event, a: nat)
    requires Enabled(c, s, e) && a < |s.attempts|
    ensures AttemptChange(s, e, Next(c, s, e), a)
  {
    hide Enabled, NextOfUpload, NextOfFlow, AttemptChange;
    if OfUpload(e) {
      AttemptAfterUpload(c, s, e, a);
    } else {
      AttemptAfterFlow(c, s, e, a);
    }
  }

  function OwnSteps(events: seq<Event>, a: nat): nat {
    if events == [] then 0 else (if StepOf(events[0], a) then 1 else 0) + OwnSteps(events[1..], a)
  }

  /** Along any run an attempt makes at most as many steps as its rank says, six from its start, its stopping
      included. */
  lemma {:induction false} AttemptEnds(c: Config, s: System, events: seq<Event>, a: nat)
    requires Pipeline.Legal(c, s, events) && a < |s.attempts|
    ensures var t := Pipeline.Run(c, s, events);
      a < |t.attempts| && OwnSteps(events, a) + Rank(t.attempts[a].pc) <= Rank(s.attempts[a].pc) <= 6
    decreases |events|
  {
    hide Enabled, Next, StepOf, Rank;
    RankBounded(s.attempts[a].pc);
    if events != [] {
      AttemptAfter(c, s, events[0], a);
      AttemptEnds(c, Next(c, s, events[0]), events[1..], a);
    }
  }

  lemma RankBounded(pc: AttemptPc)
    ensures Rank(pc) <= 6
  {}

  /** The next step of an attempt that has not ended. */
  function NextOf(c: Config, s: System, a: nat): Event
    requires a < |s.attempts| && Rank(s.attempts[a].pc) > 0
  {
    var v := s.attempts[a].videoId;
    match s.attempts[a].pc
    case Reading => ReadFailures(a, ChildrenFailures(c.heights, s.jobs, v))
    case Purging(_) => Purge(a, {})
    case Collecting => Collect(a, ChildrenValues(c.heights, s.jobs, v))
    case Storing(_) => Record(a, 0)
    case Looking(_) => LookUp(a)
    case Announcing(_) => Announce(a)
    case _ => Return(a)
  }

  /** An attempt that has not ended can go on, whatever the state. */
  lemma CanGoOn(c: Config, s: System, a: nat)
    requires a < |s.attempts| && Rank(s.attempts[a].pc) > 0
    ensures Enabled(c, s, NextOf(c, s, a)) && StepOf(NextOf(c, s, a), a)
  {
    hide ChildrenValues, ChildrenFailures;
  }

  // ----- an attempt returns

  /** What a step of an undisturbed attempt leaves alone. */
  lemma OwnFrame(c: Config, s: System, a: nat)
    requires a < |s.attempts| && Rank(s.attempts[a].pc) > 0 && Enabled(c, s, NextOf(c, s, a))
    ensures Calm(NextOf(c, s, a))
    ensures var t := Next(c, s, NextOf(c, s, a));
      && t.jobs == s.jobs && |t.attempts| == |s.attempts|
      && (forall b :: 0 <= b < |s.attempts| && b != a ==> t.attempts[b] == s.attempts[b])
      && t.attempts[a].videoId == s.attempts[a].videoId
  {
    hide ChildrenValues, ChildrenFailures, Exec, Writes, ReadBack, TerminalPayload, Aggregation.Aggregate, RoutingKey;
    hide NextOfUpload, Enabled;
    assert s.jobs - {} == s.jobs;
  }

  lemma OwnRank(c: Config, s: System, a: nat)
    requires a < |s.attempts| && Rank(s.attempts[a].pc) > 0 && Enabled(c, s, NextOf(c, s, a))
    ensures var t := Next(c, s, NextOf(c, s, a));
      && a < |t.attempts| && !t.attempts[a].pc.Stopped?
      && (Rank(s.attempts[a].pc) > 2 ==> Rank(t.attempts[a].pc) >= 2 || t.attempts[a].pc.Threw?)
  {
    hide ChildrenValues, ChildrenFailures, Exec, Writes, ReadBack, TerminalPayload, Aggregation.Aggregate, RoutingKey;
    hide NextOfUpload, Enabled, KeyOf;
  }

  lemma NothingPublished(c: Config, s: System, a: nat)
    requires a < |s.attempts| && Rank(s.attempts[a].pc) > 2 && Enabled(c, s, NextOf(c, s, a))
    ensures Next(c, s, NextOf(c, s, a)).published == s.published
  {
    hide ChildrenValues, ChildrenFailures, Exec, Writes, ReadBack, TerminalPayload, Aggregation.Aggregate, RoutingKey;
    hide NextOfUpload, Enabled, KeyOf;
  }

  /** Undisturbed, an attempt that can go on comes to an end, or to announcing its result (`until` is 0 or 2). */
  lemma {:induction false} AttemptReaches(c: Config, s: System, a: nat, until: nat)
    returns (events: seq<Event>, t: System)
    requires Good(c, s) && a < |s.attempts| && (until == 0 || until == 2)
    requires Rank(s.attempts[a].pc) >= until && !s.attempts[a].pc.Stopped?
    ensures GoesTo(c, s, events, t) && Good(c, t)
    ensures t.jobs == s.jobs && |t.attempts| == |s.attempts| && t.attempts[a].videoId == s.attempts[a].videoId
    ensures forall b :: 0 <= b < |s.attempts| && b != a ==> t.attempts[b] == s.attempts[b]
    ensures if until == 0 then t.attempts[a].pc.Returned?
            else t.attempts[a].pc.Announcing? && t.published == s.published
    decreases Rank(s.attempts[a].pc)
  {
    hide Good, Enabled, Next, GoesTo, NextOf, Calm;
    if Rank(s.attempts[a].pc) == until {
      NotThrown(c, s, a);
      Stay(c, s);
      events, t := [], s;
    } else {
      var e := NextOf(c, s, a);
      CanGoOn(c, s, a);
      OwnFrame(c, s, a);
      OwnRank(c, s, a);
      AttemptAfter(c, s, e, a);
      if Rank(s.attempts[a].pc) > 2 { NothingPublished(c, s, a); }
      GoodStep(c, s, e);
      NotThrown(c, Next(c, s, e), a);
      var rest;
      rest, t := AttemptReaches(c, Next(c, s, e), a, until);
      First(c, s, e, rest, t);
      events := [e] + rest;
    }
  }

  lemma NotThrown(c: Config, s: System, a: nat)
    requires Good(c, s) && a < |s.attempts|
    ensures !s.attempts[a].pc.Threw?
  {
    hide QueuesOk, RowOk, JobOk, HandlerOk, AnnouncementOk, Filed, KeyOf, FlowsWhole;
    assert AttemptOk(c, s, s.attempts[a]);
  }

  // ----- a runnable flow settles

  /** The row of v is terminal and what it holds was announced. */
  ghost predicate Settled(s: System, v: string) {
    Ended(s.table, v) && s.table[v].result.Some? && WasPublished(s, v, s.table[v].result.value)
  }

  /** The attempts the orchestrator job of v was charged with. */
  function Tries(s: System, v: string): nat {
    if HasFlow(s.jobs, v) then s.jobs[KeyOf(Orchestrator, v)].tries else 0
  }

  lemma ReturnedIsSettled(c: Config, s: System, a: nat)
    requires Good(c, s) && a < |s.attempts| && s.attempts[a].pc.Returned?
    ensures Settled(s, s.attempts[a].videoId)
  {
    hide QueuesOk, RowOk, JobOk, HandlerOk, AnnouncementOk, Filed, KeyOf, FlowsWhole, WasPublished;
    assert AttemptOk(c, s, s.attempts[a]);
  }

  lemma AttemptStarts(c: Config, s: System, v: string)
    requires Good(c, s) && Runnable(c.heights, s.jobs, v) && Tries(s, v) < ATTEMPTS
    ensures HasFlow(s.jobs, v) && Enabled(c, s, StartAttempt(v)) && Calm(StartAttempt(v))
    ensures Next(c, s, StartAttempt(v))
            == s.(attempts := s.attempts + [Attempt(v, Reading)],
                  jobs := s.jobs[KeyOf(Orchestrator, v) := Tried(s.jobs[KeyOf(Orchestrator, v)], Open)])
  {
    hide Runnable, Good;
    RunnableHasFlow(c.heights, s.jobs, v);
  }

  /** An attempt that can go on settles its video. */
  lemma AttemptSettles(c: Config, s: System, a: nat) returns (events: seq<Event>, t: System)
    requires Good(c, s) && a < |s.attempts| && Rank(s.attempts[a].pc) > 0
    ensures GoesTo(c, s, events, t) && Settled(t, s.attempts[a].videoId) && |t.attempts| == |s.attempts|
  {
    hide Good, Enabled, Next, GoesTo, Settled;
    events, t := AttemptReaches(c, s, a, 0);
    ReturnedIsSettled(c, t, a);
  }

  /** One attempt settles a runnable flow that has one left. */
  lemma RunnableSettles(c: Config, s: System, v: string) returns (events: seq<Event>, t: System)
    requires Good(c, s) && Runnable(c.heights, s.jobs, v) && Tries(s, v) < ATTEMPTS
    ensures GoesTo(c, s, events, t) && Settled(t, v) && |t.attempts| == |s.attempts| + 1
  {
    hide Good, Enabled, Next, GoesTo, Runnable, Settled, KeyOf, HasFlow, Tries;
    AttemptStarts(c, s, v);
    GoodStep(c, s, StartAttempt(v));
    var rest;
    rest, t := AttemptSettles(c, Next(c, s, StartAttempt(v)), |s.attempts|);
    First(c, s, StartAttempt(v), rest, t);
    events := [StartAttempt(v)] + rest;
  }

  // ----- a flow becomes runnable

  lemma ChildCanSucceed(c: Config, s: System, kind: JobKind, v: string)
    requires ChildOpen(s.jobs, kind, v)
    ensures var e := ChildSucceeds(kind, v, JObject(map[]));
      && Enabled(c, s, e) && Calm(e)
      && var t := Next(c, s, e);
         && t == s.(jobs := t.jobs) && KeyOf(kind, v) in t.jobs && t.jobs[KeyOf(kind, v)].state.Succeeded?
         && t.jobs == s.jobs[KeyOf(kind, v) := t.jobs[KeyOf(kind, v)]]
  {
    hide KeyOf, Parse, VideoMetadataShape, ChildValue;
    EmptyMetadataParses(c.z);
  }

  /** The children of v that come before n in the flow have succeeded, and all of them are there. */
  ghost predicate DoneUpTo(c: Config, jobs: Store, v: string, n: nat) {
    && n <= |ChildKinds(c.heights)| && Whole(c.heights, jobs, v)
    && forall i :: 0 <= i < n ==> InState(jobs, ChildKinds(c.heights)[i], v, true)
  }

  lemma SucceededToo(c: Config, s: System, v: string, n: nat, job: Job)
    requires DoneUpTo(c, s.jobs, v, n) && n < |ChildKinds(c.heights)| && job.state.Succeeded?
    ensures DoneUpTo(c, s.jobs[KeyOf(ChildKinds(c.heights)[n], v) := job], v, n + 1)
  {
    hide KeyOf, ChildKinds;
  }

  lemma AllDone(c: Config, jobs: Store, v: string)
    requires DoneUpTo(c, jobs, v, |ChildKinds(c.heights)|)
    ensures AllSucceeded(c.heights, jobs, v)
  {
    hide InState, ChildKinds, Whole;
    var kinds := ChildKinds(c.heights);
    forall kind | kind in kinds ensures InState(jobs, kind, v, true) {
      var i :| 0 <= i < |kinds| && kinds[i] == kind;
    }
  }

  lemma AllSucceedOrExhaust(c: Config, s: System, v: string, n: nat)
    returns (events: seq<Event>, t: System)
    requires Good(c, s) && HasFlow(s.jobs, v) && DoneUpTo(c, s.jobs, v, n)
    ensures GoesTo(c, s, events, t) && Good(c, t) && Runnable(c.heights, t.jobs, v)
    ensures t == s.(jobs := t.jobs) && Tries(t, v) == Tries(s, v)
    decreases |ChildKinds(c.heights)| - n
  {
    hide Good, Enabled, Next, GoesTo, KeyOf, ChildKinds, DoneUpTo, AllSucceeded, SomeExhausted;
    var kinds := ChildKinds(c.heights);
    Bounds(c, s.jobs, v, n);
    if n == |kinds| {
      AllDone(c, s.jobs, v);
      Stay(c, s);
      events, t := [], s;
    } else {
      var kind := kinds[n];
      assert kind in kinds;
      IsChild(c.heights, kind);
      if s.jobs[KeyOf(kind, v)].state.Open? {
        var e := ChildSucceeds(kind, v, JObject(map[]));
        ChildCanSucceed(c, s, kind, v);
        GoodStep(c, s, e);
        var u := Next(c, s, e);
        SucceededToo(c, s, v, n, u.jobs[KeyOf(kind, v)]);
        assert u.jobs[KeyOf(Orchestrator, v)] == s.jobs[KeyOf(Orchestrator, v)] by {
          KeysDistinct(Orchestrator, v, kind, v);
        }
        var rest;
        rest, t := AllSucceedOrExhaust(c, u, v, n + 1);
        First(c, s, e, rest, t);
        events := [e] + rest;
      } else if s.jobs[KeyOf(kind, v)].state.Succeeded? {
        SucceededToo(c, s, v, n, s.jobs[KeyOf(kind, v)]);
        assert s.jobs[KeyOf(kind, v) := s.jobs[KeyOf(kind, v)]] == s.jobs;
        events, t := AllSucceedOrExhaust(c, s, v, n + 1);
      } else {
        ExhaustedRunnable(c, s, kind, v);
        Stay(c, s);
        events, t := [], s;
      }
    }
  }

  lemma ExhaustedRunnable(c: Config, s: System, kind: JobKind, v: string)
    requires HasFlow(s.jobs, v) && kind in ChildKinds(c.heights) && InState(s.jobs, kind, v, false)
    ensures Runnable(c.heights, s.jobs, v)
  {
    hide KeyOf, ChildKinds, InState, AllSucceeded;
  }

  lemma Bounds(c: Config, jobs: Store, v: string, n: nat)
    requires DoneUpTo(c, jobs, v, n)
    ensures n <= |ChildKinds(c.heights)| && forall kind :: kind in ChildKinds(c.heights) ==> KeyOf(kind, v) in jobs
  {
    hide KeyOf, ChildKinds, InState;
  }

  lemma IsChild(heights: seq<nat>, kind: JobKind)
    requires kind in ChildKinds(heights)
    ensures kind != Orchestrator
  {}

  /** Undisturbed, a flow that has an attempt left settles its video with one attempt. */
  lemma FlowSettles(c: Config, s: System, v: string) returns (events: seq<Event>, t: System)
    requires Good(c, s) && HasFlow(s.jobs, v) && Tries(s, v) < ATTEMPTS
    ensures GoesTo(c, s, events, t) && Settled(t, v) && |t.attempts| == |s.attempts| + 1
  {
    hide Good, Enabled, Next, GoesTo, Settled, Runnable, Tries;
    var before, u := FlowRunnable(c, s, v);
    var rest;
    rest, t := RunnableSettles(c, u, v);
    Then(c, s, before, u, rest, t);
    events := before + rest;
  }

  /** Undisturbed, a flow becomes runnable. */
  lemma FlowRunnable(c: Config, s: System, v: string) returns (events: seq<Event>, t: System)
    requires Good(c, s) && HasFlow(s.jobs, v)
    ensures GoesTo(c, s, events, t) && Good(c, t) && Runnable(c.heights, t.jobs, v)
    ensures t == s.(jobs := t.jobs) && Tries(t, v) == Tries(s, v)
  {
    hide Inv, Enabled, Next, GoesTo, KeyOf, ChildKinds, AllSucceeded, SomeExhausted, Tries;
    if SomeExhausted(c.heights, s.jobs, v) {
      Stay(c, s);
      events, t := [], s;
    } else {
      events, t := AllSucceedOrExhaust(c, s, v, 0);
    }
  }

  // ----- an upload is taken up

  /** How many steps an upload handler can still make before it returns. */
  function HandlerRank(pc: HandlerPc): nat {
    match pc
    case Begin => 4
    case Inserted => 3
    case Missed => 2
    case Active => 1
    case _ => 0
  }

  function NextOfHandler(s: System, h: nat): Event
    requires h < |s.handlers| && HandlerRank(s.handlers[h].pc) > 0
  {
    match s.handlers[h].pc
    case Begin => Insert(h, 0)
    case Inserted => Update(h, 0)
    case Missed => Check(h)
    case _ => CreateFlow(h)
  }

  lemma HandlerGoesOn(c: Config, s: System, h: nat)
    requires h < |s.handlers| && HandlerRank(s.handlers[h].pc) > 0
    ensures Enabled(c, s, NextOfHandler(s, h)) && Calm(NextOfHandler(s, h))
  {
    hide Broker.Enabled, Runnable, ChildOpen, Parse, ChildrenValues, ChildrenFailures, HasDelivery;
  }

  lemma HandlerAfter(c: Config, s: System, h: nat)
    requires h < |s.handlers| && HandlerRank(s.handlers[h].pc) > 0 && Enabled(c, s, NextOfHandler(s, h))
    ensures var t := Next(c, s, NextOfHandler(s, h));
      && |t.handlers| == |s.handlers| && t.handlers[h].videoId == s.handlers[h].videoId
      && HandlerRank(t.handlers[h].pc) < HandlerRank(s.handlers[h].pc) && !t.handlers[h].pc.Halted?
      && t.attempts == s.attempts && t.published == s.published
      && t.jobs == if s.handlers[h].pc.Active? then AddFlow(c.heights, s.jobs, s.handlers[h].videoId) else s.jobs
  {
    hide AddFlow, Exec, Writes, KeyOf, NextOfFlow, Broker.Next, Enabled;
  }

  lemma HandlerEndsNoRow(c: Config, s: System, h: nat)
    requires h < |s.handlers| && HandlerRank(s.handlers[h].pc) > 0 && Enabled(c, s, NextOfHandler(s, h))
    ensures forall v :: Ended(Next(c, s, NextOfHandler(s, h)).table, v) ==> Ended(s.table, v)
  {
    hide AddFlow, KeyOf, NextOfFlow, Broker.Next, Enabled;
  }

  lemma FreshFlow(c: Config, s: System, t: System, v: string)
    requires Inv(c, s) && !HasFlow(s.jobs, v) && t.jobs == AddFlow(c.heights, s.jobs, v)
    ensures HasFlow(t.jobs, v) && Tries(t, v) == 0
  {
    hide Inv, KeyOf, AddFlow, ChildKinds;
    StoreFiled(c, s);
    FlowAdded(c.heights, s.jobs, v);
  }

  /** Undisturbed, a handler for a video without a flow creates one, with all its attempts. */
  lemma {:induction false} HandlerCreatesFlow(c: Config, s: System, h: nat) returns (events: seq<Event>, t: System)
    requires Good(c, s) && h < |s.handlers| && HandlerRank(s.handlers[h].pc) > 0
    requires !HasFlow(s.jobs, s.handlers[h].videoId)
    ensures GoesTo(c, s, events, t) && Good(c, t) && t.attempts == s.attempts && t.published == s.published
    ensures HasFlow(t.jobs, s.handlers[h].videoId) && Tries(t, s.handlers[h].videoId) == 0
    ensures forall v :: Ended(t.table, v) ==> Ended(s.table, v)
    decreases HandlerRank(s.handlers[h].pc)
  {
    hide Good, Enabled, Next, GoesTo, NextOfHandler, HasFlow, Tries, Calm, Ended, AddFlow;
    var e, v := NextOfHandler(s, h), s.handlers[h].videoId;
    HandlerGoesOn(c, s, h);
    HandlerAfter(c, s, h);
    HandlerEndsNoRow(c, s, h);
    GoodStep(c, s, e);
    var u := Next(c, s, e);
    GoodInv(c, s);
    GoodInv(c, u);
    var rest;
    if s.handlers[h].pc.Active? {
      FreshFlow(c, s, u, v);
      Stay(c, u);
      rest, t := [], u;
    } else {
      if HandlerRank(u.handlers[h].pc) == 0 {
        HandlerTookUp(c, u, h);
        TakenUpHasFlow(c, u, v);
        assert false;
      }
      rest, t := HandlerCreatesFlow(c, u, h);
    }
    First(c, s, e, rest, t);
    events := [e] + rest;
  }

  /** A video that was taken up has a flow: a terminal row owes its result to the children of one. */
  lemma TakenUpHasFlow(c: Config, s: System, v: string)
    requires Inv(c, s) && TakenUp(s, v)
    ensures HasFlow(s.jobs, v)
  {
    hide QueuesOk, JobOk, HandlerOk, AttemptOk, AnnouncementOk, ValidResult, Tidy, KeyOf, Names, Renditions, Filed;
    if Ended(s.table, v) {
      assert RowOk(c, s, v);
      var kinds := ChildKinds(c.heights);
      assert kinds[0] == MetadataJob;
      if s.table[v].result.value.Completed? {
        AllSucceededAt(c.heights, s.jobs, v, MetadataJob);
        ChildHasFlow(c, s, MetadataJob, v);
      } else {
        var kind :| kind in kinds && InState(s.jobs, kind, v, false);
        ChildHasFlow(c, s, kind, v);
      }
    }
  }

  lemma ChildHasFlow(c: Config, s: System, kind: JobKind, v: string)
    requires Inv(c, s) && KeyOf(kind, v) in s.jobs
    ensures HasFlow(s.jobs, v)
  {
    hide Inv, KeyOf, IsUuid, Started, ChildResultOk, ChildKinds;
    JobOfKind(c, s, kind, v);
  }

  lemma GoodInv(c: Config, s: System)
    requires Good(c, s)
    ensures Inv(c, s)
  {
    hide Inv, FlowsWhole;
  }

  lemma DeliveryStarts(c: Config, s: System, i: nat)
    requires i < |s.queues.copies| && s.queues.copies[i].place.Main?
    ensures Enabled(c, s, Deliver(i)) && Calm(Deliver(i))
    ensures var t := Next(c, s, Deliver(i));
      && |t.handlers| == |s.handlers| + 1
      && t.handlers[|s.handlers|].videoId == s.queues.copies[i].content && t.handlers[|s.handlers|].pc == Begin
      && t == s.(handlers := t.handlers, queues := t.queues)
  {}

  lemma BackToMain(c: Config, s: System, i: nat, step: Broker.Step<string>)
    requires i < |s.queues.copies|
    requires if step.Expire? then s.queues.copies[i].place.Retry? else step.Fault? && s.queues.copies[i].place.InFlight?
    requires step.i == i
    ensures Enabled(c, s, Queue(step))
    ensures var t := Next(c, s, Queue(step));
      && |t.queues.copies| == |s.queues.copies| && t.queues.copies[i].content == s.queues.copies[i].content
      && t.queues.copies[i].place.Main? && t == s.(queues := t.queues)
  {}

  /** Undisturbed, a waiting message of a video without a flow is delivered and its handler creates the flow. */
  lemma MainCreatesFlow(c: Config, s: System, i: nat) returns (events: seq<Event>, t: System)
    requires Good(c, s) && i < |s.queues.copies| && s.queues.copies[i].place.Main?
    requires !HasFlow(s.jobs, s.queues.copies[i].content)
    ensures GoesTo(c, s, events, t) && Good(c, t) && t.attempts == s.attempts && t.published == s.published
    ensures HasFlow(t.jobs, s.queues.copies[i].content) && Tries(t, s.queues.copies[i].content) == 0
    ensures forall v :: Ended(t.table, v) ==> Ended(s.table, v)
  {
    hide Good, Enabled, Next, GoesTo, HasFlow, Tries, Ended;
    DeliveryStarts(c, s, i);
    GoodStep(c, s, Deliver(i));
    var rest;
    rest, t := HandlerCreatesFlow(c, Next(c, s, Deliver(i)), |s.handlers|);
    First(c, s, Deliver(i), rest, t);
    events := [Deliver(i)] + rest;
  }
}
