/**
 Which videos can still settle.  From a reachable state, without a further upload of it, a video can still settle
 exactly when it has no flow but a waiting message or a running handler, or it has a flow and settled already, has an
 attempt that can go on, or has one of its three attempts left.  A flow whose attempts all stopped is stuck for good,
 whatever is uploaded again.
 */
module Settling {
  import opened Seqs
  import opened Schema
  import opened Events
  import opened Rows
  import Broker
  import BrokerLaws
  import opened Jobs
  import opened Pipeline
  import opened PipelineLaws
  import opened Guarantees
  import opened Progress

  // ----- who can still act for a video

  predicate Waits(p: Broker.Place) { p.Main? || p.InFlight? || p.Retry? }

  ghost predicate HandlerRuns(s: System, v: string) {
    exists h :: 0 <= h < |s.handlers| && s.handlers[h].videoId == v && HandlerRank(s.handlers[h].pc) > 0
  }

  ghost predicate MessageWaits(s: System, v: string) {
    exists i :: 0 <= i < |s.queues.copies| && s.queues.copies[i].content == v && Waits(s.queues.copies[i].place)
  }

  ghost predicate AttemptRuns(s: System, v: string) {
    exists a :: 0 <= a < |s.attempts| && s.attempts[a].videoId == v && Rank(s.attempts[a].pc) > 0
  }

  ghost predicate CanSettle(s: System, v: string) {
    if HasFlow(s.jobs, v) then Settled(s, v) || AttemptRuns(s, v) || Tries(s, v) < ATTEMPTS
    else HandlerRuns(s, v) || MessageWaits(s, v)
  }

  predicate NotUploaded(events: seq<Event>, v: string) {
    forall i :: 0 <= i < |events| ==> events[i] != Upload(v)
  }

  // ----- it can

  /** A redelivery: the broker takes a delivery back, as it does when the consumer's connection is lost. */
  predicate Redelivery(e: Event) { e.Queue? && e.step.Fault? }

  /** Undisturbed, or after one redelivery. */
  ghost predicate NearlyCalm(events: seq<Event>) {
    AllCalm(events) || (events != [] && Redelivery(events[0]) && AllCalm(events[1..]))
  }

  lemma CalmIsNotUpload(events: seq<Event>, v: string)
    requires NearlyCalm(events)
    ensures NotUploaded(events, v)
  {
    forall i | 0 <= i < |events| ensures events[i] != Upload(v) {
      if !AllCalm(events) && i > 0 { assert events[1..][i - 1] == events[i]; }
    }
  }

  lemma NewFlowSettles(c: Config, s: System, before: seq<Event>, u: System, v: string)
    returns (events: seq<Event>, t: System)
    requires GoesTo(c, s, before, u) && Good(c, u) && HasFlow(u.jobs, v) && Tries(u, v) == 0 && u.attempts == s.attempts
    ensures GoesTo(c, s, events, t) && Settled(t, v) && |t.attempts| == |s.attempts| + 1
  {
    hide Good, GoesTo, HasFlow, Tries, Settled;
    var rest;
    rest, t := FlowSettles(c, u, v);
    Then(c, s, before, u, rest, t);
    events := before + rest;
  }

  lemma MainSettles(c: Config, s: System, i: nat) returns (events: seq<Event>, t: System)
    requires Good(c, s) && i < |s.queues.copies| && s.queues.copies[i].place.Main?
    requires !HasFlow(s.jobs, s.queues.copies[i].content)
    ensures GoesTo(c, s, events, t) && Settled(t, s.queues.copies[i].content) && |t.attempts| == |s.attempts| + 1
  {
    hide Good, GoesTo, HasFlow, Tries, Settled;
    var before, u := MainCreatesFlow(c, s, i);
    events, t := NewFlowSettles(c, s, before, u, s.queues.copies[i].content);
  }

  /** A waiting message of a video without a flow settles it; one in flight is taken back first. */
  lemma MessageSettles(c: Config, s: System, i: nat) returns (events: seq<Event>, t: System)
    requires Good(c, s) && i < |s.queues.copies| && Waits(s.queues.copies[i].place)
    requires !HasFlow(s.jobs, s.queues.copies[i].content)
    ensures Leads(c, s, events, t) && Settled(t, s.queues.copies[i].content) && |t.attempts| == |s.attempts| + 1
    ensures NearlyCalm(events) && (!s.queues.copies[i].place.InFlight? ==> AllCalm(events))
  {
    hide Good, Leads, Enabled, Next, HasFlow, Tries, Settled;
    if s.queues.copies[i].place.Main? {
      events, t := MainSettles(c, s, i);
    } else {
      var step: Broker.Step<string> := if s.queues.copies[i].place.Retry? then Broker.Expire(i) else Broker.Fault(i);
      BackToMain(c, s, i, step);
      GoodStep(c, s, Queue(step));
      var rest;
      rest, t := MainSettles(c, Next(c, s, Queue(step)), i);
      Prepend(c, s, Queue(step), rest, t);
      events := [Queue(step)] + rest;
      assert events[1..] == rest;
    }
  }

  /** Whenever the condition holds the video settles with at most one more attempt, undisturbed unless the only way is
      to take back a delivery nobody handles any more. */
  lemma Settles(c: Config, s: System, v: string) returns (events: seq<Event>, t: System)
    requires Good(c, s) && CanSettle(s, v)
    ensures Leads(c, s, events, t) && Settled(t, v) && |t.attempts| <= |s.attempts| + 1
    ensures NearlyCalm(events) && (HasFlow(s.jobs, v) || HandlerRuns(s, v) ==> AllCalm(events))
  {
    hide Good, Leads, HasFlow, Tries, Settled, Rank, HandlerRank, Waits;
    if HasFlow(s.jobs, v) {
      if Settled(s, v) {
        Stay(c, s);
        events, t := [], s;
      } else if AttemptRuns(s, v) {
        var a :| 0 <= a < |s.attempts| && s.attempts[a].videoId == v && Rank(s.attempts[a].pc) > 0;
        events, t := AttemptSettles(c, s, a);
      } else {
        events, t := FlowSettles(c, s, v);
      }
    } else if HandlerRuns(s, v) {
      var h :| 0 <= h < |s.handlers| && s.handlers[h].videoId == v && HandlerRank(s.handlers[h].pc) > 0;
      var before, u := HandlerCreatesFlow(c, s, h);
      events, t := NewFlowSettles(c, s, before, u, v);
    } else {
      var i :| 0 <= i < |s.queues.copies| && s.queues.copies[i].content == v && Waits(s.queues.copies[i].place);
      events, t := MessageSettles(c, s, i);
    }
  }

  // ----- a flow whose attempts are used up

  /** Every attempt of v that was started has stopped, and none announced a result. */
  ghost predicate AllStopped(s: System, v: string) {
    && (forall a :: 0 <= a < |s.attempts| && s.attempts[a].videoId == v ==> s.attempts[a].pc.Stopped?)
    && (forall i :: 0 <= i < |s.published| ==> s.published[i].videoId != v)
  }

  /** The three attempts of v were started, and all stopped before they announced a result. */
  ghost predicate Stuck(s: System, v: string) {
    HasFlow(s.jobs, v) && Tries(s, v) >= ATTEMPTS && AllStopped(s, v)
  }

  lemma AnnouncedIsSettled(c: Config, s: System, i: nat)
    requires Inv(c, s) && i < |s.published|
    ensures Settled(s, s.published[i].videoId)
  {
    hide QueuesOk, RowOk, JobOk, HandlerOk, AttemptOk, Filed;
    assert AnnouncementOk(s, s.published[i]);
  }

  lemma NotSettledIsStuck(c: Config, s: System, v: string)
    requires Good(c, s) && HasFlow(s.jobs, v) && !CanSettle(s, v)
    ensures Stuck(s, v)
  {
    hide Good, HasFlow, Settled;
    GoodInv(c, s);
    forall a | 0 <= a < |s.attempts| && s.attempts[a].videoId == v ensures s.attempts[a].pc.Stopped? {
      NotThrown(c, s, a);
      if s.attempts[a].pc.Returned? { ReturnedIsSettled(c, s, a); }
      assert Rank(s.attempts[a].pc) == 0;
    }
    forall i | 0 <= i < |s.published| ensures s.published[i].videoId != v {
      AnnouncedIsSettled(c, s, i);
    }
  }

  /** A step charges the orchestrator job of v exactly when it starts an attempt of v. */
  lemma TriesOfStep(c: Config, s: System, e: Event, v: string)
    requires Inv(c, s) && Enabled(c, s, e) && HasFlow(s.jobs, v)
    ensures var t := Next(c, s, e);
      HasFlow(t.jobs, v) && Tries(t, v) == Tries(s, v) + (if e == StartAttempt(v) then 1 else 0)
    ensures e == StartAttempt(v) ==> Tries(s, v) < ATTEMPTS
  {
    hide Inv, Enabled, Next, KeyOf, AddFlow, ChildKinds;
    JobsOfStep(c, s, e);
    OrchestratorOpen(c, s, v);
    match e
    case CreateFlow(h) =>
      StoreFiled(c, s);
      FlowAdded(c.heights, s.jobs, s.handlers[h].videoId);
    case ChildFails(kind, w, _) => KeysDistinct(kind, w, Orchestrator, v);
    case ChildSucceeds(kind, w, _) => KeysDistinct(kind, w, Orchestrator, v);
    case StartAttempt(w) => KeysDistinct(Orchestrator, w, Orchestrator, v);
    case _ =>
  }

  /** What a step publishes: nothing, or the announcement of an attempt that was announcing. */
  lemma PublishedByStep(c: Config, s: System, e: Event)
    requires Enabled(c, s, e)
    ensures var t := Next(c, s, e);
      || t.published == s.published
      || (e.Announce? && e.a < |s.attempts| && s.attempts[e.a].pc.Announcing?
          && |t.published| == |s.published| + 1 && t.published[..|s.published|] == s.published
          && t.published[|s.published|].videoId == s.attempts[e.a].videoId)
  {
    hide AddFlow, Broker.Next, Broker.Enabled, Exec, Writes, Runnable, ChildrenValues, ChildrenFailures, Parse;
    hide ReadBack, TerminalPayload, ChildValue, KeyOf, Aggregation.Aggregate, HasDelivery, RoutingKey;
  }

  lemma StartedAttempt(c: Config, s: System, e: Event)
    requires Enabled(c, s, e) && e.StartAttempt?
    ensures Next(c, s, e).attempts == s.attempts + [Attempt(e.videoId, Reading)]
  {
    hide Runnable, KeyOf;
  }

  lemma StuckStep(c: Config, s: System, e: Event, v: string)
    requires Good(c, s) && Enabled(c, s, e) && Stuck(s, v)
    ensures Stuck(Next(c, s, e), v)
  {
    hide Good, Enabled, Next, HasFlow, Tries;
    var t := Next(c, s, e);
    GoodInv(c, s);
    TriesOfStep(c, s, e, v);
    PublishedByStep(c, s, e);
    if e.StartAttempt? { StartedAttempt(c, s, e); }
    SameCount(c, s, e);
    forall a | 0 <= a < |t.attempts| && t.attempts[a].videoId == v ensures t.attempts[a].pc.Stopped? {
      if a < |s.attempts| { AttemptAfter(c, s, e, a); }
    }
    forall i | 0 <= i < |t.published| ensures t.published[i].videoId != v {
      if i < |s.published| { assert t.published[i] == s.published[i]; }
    }
  }

  lemma SameCount(c: Config, s: System, e: Event)
    requires Enabled(c, s, e)
    ensures |Next(c, s, e).attempts| == |s.attempts| + (if e.StartAttempt? then 1 else 0)
  {
    hide AddFlow, Broker.Next, Broker.Enabled, Exec, Writes, Runnable, ChildrenValues, ChildrenFailures, Parse;
    hide ReadBack, TerminalPayload, ChildValue, KeyOf, Aggregation.Aggregate, HasDelivery, RoutingKey;
  }

  /** Nothing that happens later settles a stuck flow. */
  lemma {:induction false} StuckForGood(c: Config, s: System, events: seq<Event>, v: string)
    requires Good(c, s) && Pipeline.Legal(c, s, events) && Stuck(s, v)
    ensures Stuck(Pipeline.Run(c, s, events), v) && !Settled(Pipeline.Run(c, s, events), v)
    decreases |events|
  {
    hide Good, Enabled, Next;
    if events != [] {
      StuckStep(c, s, events[0], v);
      GoodStep(c, s, events[0]);
      StuckForGood(c, Next(c, s, events[0]), events[1..], v);
    }
  }

  // ----- a video without a flow that nobody acts for

  ghost predicate Lost(s: System, v: string) {
    !HasFlow(s.jobs, v) && !HandlerRuns(s, v) && !MessageWaits(s, v)
  }

  lemma NewFlowOfStep(c: Config, s: System, e: Event, v: string)
    requires Inv(c, s) && Enabled(c, s, e) && !HasFlow(s.jobs, v) && HasFlow(Next(c, s, e).jobs, v)
    ensures HandlerRuns(s, v)
  {
    hide Inv, Enabled, Next, KeyOf, AddFlow, ChildKinds;
    JobsOfStep(c, s, e);
    if e.CreateFlow? {
      var w := s.handlers[e.h].videoId;
      var after := AddFlow(c.heights, s.jobs, w);
      StoreFiled(c, s);
      FlowAdded(c.heights, s.jobs, w);
      var k := KeyOf(Orchestrator, v);
      KeysDistinct(Orchestrator, v, after[k].kind, after[k].videoId);
      assert s.handlers[e.h].videoId == v && HandlerRank(s.handlers[e.h].pc) > 0;
    }
  }

  /** A handler that runs after a step ran before, or was just given a message from the main queue. */
  lemma HandlersOfStep(c: Config, s: System, e: Event, h: nat)
    requires Enabled(c, s, e) && h < |Next(c, s, e).handlers| && HandlerRank(Next(c, s, e).handlers[h].pc) > 0
    ensures var g := Next(c, s, e).handlers[h];
      || (h < |s.handlers| && s.handlers[h].videoId == g.videoId && HandlerRank(s.handlers[h].pc) > 0)
      || (e.Deliver? && e.copy < |s.queues.copies| && s.queues.copies[e.copy].content == g.videoId
          && s.queues.copies[e.copy].place.Main?)
  {
    hide AddFlow, Broker.Next, Exec, Writes, Runnable, ChildrenValues, ChildrenFailures, Parse;
    hide ReadBack, TerminalPayload, ChildValue, KeyOf, Aggregation.Aggregate, RoutingKey;
  }

  lemma CopiesOfBroker(maxRetries: nat, q: Broker.Queues<string>, step: Broker.Step<string>, i: nat) returns (j: nat)
    requires Broker.Enabled(q, step) && !step.Arrive?
    requires i < |Broker.Next(maxRetries, q, step).copies| && Waits(Broker.Next(maxRetries, q, step).copies[i].place)
    ensures j < |q.copies| && Waits(q.copies[j].place)
    ensures q.copies[j].content == Broker.Next(maxRetries, q, step).copies[i].content
  {
    j := if i < |q.copies| then i else step.i;
  }

  /** The queues after a step: unchanged, or moved by one step of the broker. */
  lemma QueuesOfStep(c: Config, s: System, e: Event) returns (step: Option<Broker.Step<string>>)
    requires Enabled(c, s, e)
    ensures match step
            case None => Next(c, s, e).queues == s.queues
            case Some(b) =>
              && Broker.Enabled(s.queues, b) && Next(c, s, e).queues == Broker.Next(c.maxRetries, s.queues, b)
              && (b.Arrive? ==> e == Upload(b.m))
  {
    hide AddFlow, Broker.Next, Exec, Writes, Runnable, ChildrenValues, ChildrenFailures, Parse;
    hide ReadBack, TerminalPayload, ChildValue, KeyOf, Aggregation.Aggregate, RoutingKey;
    step := match e
      case Upload(v) => Some(Broker.Arrive(v))
      case Deliver(i) => Some(Broker.Consume(i))
      case Queue(b) => Some(b)
      case HandlerReturns(h) => Some(Broker.Succeed(s.handlers[h].copy))
      case HandlerFails(h) => Some(Broker.Fail(s.handlers[h].copy))
      case _ => None;
  }

  lemma CopiesOfStep(c: Config, s: System, e: Event, v: string)
    requires Enabled(c, s, e) && e != Upload(v) && MessageWaits(Next(c, s, e), v)
    ensures MessageWaits(s, v)
  {
    hide Enabled, Next, Broker.Enabled, Waits;
    var t := Next(c, s, e);
    var step := QueuesOfStep(c, s, e);
    var i :| 0 <= i < |t.queues.copies| && t.queues.copies[i].content == v && Waits(t.queues.copies[i].place);
    if step.Some? {
      if step.value.Arrive? {
        assert t.queues.copies[i] == s.queues.copies[i];
      } else {
        var j := CopiesOfBroker(c.maxRetries, s.queues, step.value, i);
      }
    }
  }

  lemma LostStep(c: Config, s: System, e: Event, v: string)
    requires Good(c, s) && Enabled(c, s, e) && e != Upload(v) && Lost(s, v)
    ensures Lost(Next(c, s, e), v)
  {
    hide Good, Enabled, Next, HasFlow, MessageWaits, HandlerRank;
    var t := Next(c, s, e);
    GoodInv(c, s);
    if HasFlow(t.jobs, v) { NewFlowOfStep(c, s, e, v); }
    if MessageWaits(t, v) { CopiesOfStep(c, s, e, v); }
    if HandlerRuns(t, v) {
      var h :| 0 <= h < |t.handlers| && t.handlers[h].videoId == v && HandlerRank(t.handlers[h].pc) > 0;
      HandlersOfStep(c, s, e, h);
      if e.Deliver? { MainWaits(s, e.copy); }
    }
  }

  lemma MainWaits(s: System, i: nat)
    ensures i < |s.queues.copies| && s.queues.copies[i].place.Main? ==> MessageWaits(s, s.queues.copies[i].content)
  {}

  lemma SettledHasFlow(c: Config, s: System, v: string)
    requires Good(c, s) && Settled(s, v)
    ensures HasFlow(s.jobs, v)
  {
    hide Inv, HasFlow, WasPublished;
    TakenUpHasFlow(c, s, v);
  }

  /** Without another upload nothing that happens later settles a lost video. */
  lemma {:induction false} LostForGood(c: Config, s: System, events: seq<Event>, v: string)
    requires Good(c, s) && Pipeline.Legal(c, s, events) && NotUploaded(events, v) && Lost(s, v)
    ensures Lost(Pipeline.Run(c, s, events), v) && !Settled(Pipeline.Run(c, s, events), v)
    decreases |events|
  {
    hide Good, Enabled, Next, Lost, Settled, HasFlow;
    if events == [] {
      if Settled(s, v) { SettledHasFlow(c, s, v); }
      assert !HasFlow(s.jobs, v) by { LostHasNoFlow(s, v); }
    } else {
      LostStep(c, s, events[0], v);
      GoodStep(c, s, events[0]);
      assert forall i :: 0 <= i < |events[1..]| ==> events[1..][i] == events[i + 1];
      LostForGood(c, Next(c, s, events[0]), events[1..], v);
    }
  }

  lemma LostHasNoFlow(s: System, v: string)
    requires Lost(s, v)
    ensures !HasFlow(s.jobs, v)
  {}

  // ----- exactly when

  /** From every reachable state and for every video, without a further upload of it: some continuation settles it if
      and only if the condition holds. */
  lemma SettlesIff(c: Config, s: System, v: string)
    requires Reachable(c, s)
    ensures (exists events, t :: Leads(c, s, events, t) && NotUploaded(events, v) && Settled(t, v)) <==> CanSettle(s, v)
  {
    hide Good, Settled, HasFlow, Reachable, Tries, Enabled, Next, CanSettle, Stuck, Lost, NotUploaded;
    ReachableGood(c, s);
    if CanSettle(s, v) {
      var events, t := Settles(c, s, v);
      CalmIsNotUpload(events, v);
    } else {
      forall events, t | Leads(c, s, events, t) && NotUploaded(events, v) ensures !Settled(t, v) {
        CannotSettle(c, s, events, v);
      }
    }
  }

  lemma CannotSettle(c: Config, s: System, events: seq<Event>, v: string)
    requires Good(c, s) && !CanSettle(s, v) && Pipeline.Legal(c, s, events) && NotUploaded(events, v)
    ensures !Settled(Pipeline.Run(c, s, events), v)
  {
    hide Good, Settled, HasFlow, Tries, Enabled, Next, NotUploaded;
    if HasFlow(s.jobs, v) {
      NotSettledIsStuck(c, s, v);
      StuckForGood(c, s, events, v);
    } else {
      LostForGood(c, s, events, v);
    }
  }

  /** With a flow the answer is the same whatever is uploaded again: a duplicate upload adds no attempts. */
  lemma FlowSettlesIff(c: Config, s: System, v: string)
    requires Reachable(c, s) && HasFlow(s.jobs, v)
    ensures (exists events, t :: Leads(c, s, events, t) && Settled(t, v))
            <==> Settled(s, v) || AttemptRuns(s, v) || Tries(s, v) < ATTEMPTS
  {
    hide Good, Settled, HasFlow, Reachable, Tries, Enabled, Next, Stuck, AttemptRuns;
    ReachableGood(c, s);
    if CanSettle(s, v) {
      var events, t := Settles(c, s, v);
    } else {
      NotSettledIsStuck(c, s, v);
      forall events, t | Leads(c, s, events, t) ensures !Settled(t, v) {
        StuckForGood(c, s, events, v);
      }
    }
  }

  /** The upload message of v lies in the dead-letter queue. */
  ghost predicate DeadLettered(s: System, v: string) {
    exists i :: 0 <= i < |s.queues.copies| && s.queues.copies[i].content == v && s.queues.copies[i].place.DeadLetter?
  }

  /** For every upload message ever accepted: some continuation settles its video, or its flow used up its attempts, or
      it has no flow, nobody handles it, and its message lies in the dead-letter queue. */
  lemma UploadSettles(c: Config, s: System, o: nat)
    requires Reachable(c, s) && o < |s.queues.arrived|
    ensures var v := s.queues.arrived[o];
      || (exists events, t :: Leads(c, s, events, t) && NearlyCalm(events) && Settled(t, v)
                              && |t.attempts| <= |s.attempts| + 1)
      || (HasFlow(s.jobs, v) && !Settled(s, v) && !AttemptRuns(s, v) && Tries(s, v) == ATTEMPTS)
      || (!HasFlow(s.jobs, v) && !HandlerRuns(s, v) && !MessageWaits(s, v) && DeadLettered(s, v))
  {
    hide Good, Settled, Reachable, Leads, NearlyCalm, AttemptRuns, HandlerRuns, KeyOf, Inv;
    var v := s.queues.arrived[o];
    ReachableGood(c, s);
    GoodInv(c, s);
    if CanSettle(s, v) {
      var events, t := Settles(c, s, v);
    } else if HasFlow(s.jobs, v) {
      OrchestratorOpen(c, s, v);
    } else {
      NoLostUpload(c, s, o);
      if TakenUp(s, v) { TakenUpHasFlow(c, s, v); }
      var i :| 0 <= i < |s.queues.copies| && s.queues.copies[i].content == v
               && BrokerLaws.Live(s.queues.copies[i].place);
      assert !Waits(s.queues.copies[i].place);
    }
  }

  // ----- attempts are charged

  /** How many of the attempts are for v. */
  function Starts(attempts: seq<Attempt>, v: string): nat {
    if attempts == [] then 0
    else (if attempts[|attempts| - 1].videoId == v then 1 else 0) + Starts(attempts[..|attempts| - 1], v)
  }

  lemma {:induction false} SameStarts(a: seq<Attempt>, b: seq<Attempt>, v: string)
    requires |a| == |b| && forall i :: 0 <= i < |a| ==> a[i].videoId == b[i].videoId
    ensures Starts(a, v) == Starts(b, v)
  {
    if a != [] { SameStarts(a[..|a| - 1], b[..|b| - 1], v); }
  }

  lemma {:induction false} NoStarts(a: seq<Attempt>, v: string)
    requires forall i :: 0 <= i < |a| ==> a[i].videoId != v
    ensures Starts(a, v) == 0
  {
    if a != [] { NoStarts(a[..|a| - 1], v); }
  }

  lemma StartsOfStep(c: Config, s: System, e: Event, v: string)
    requires Enabled(c, s, e)
    ensures Starts(Next(c, s, e).attempts, v) == Starts(s.attempts, v) + (if e == StartAttempt(v) then 1 else 0)
  {
    hide Enabled, Next;
    var t := Next(c, s, e);
    SameCount(c, s, e);
    if e.StartAttempt? {
      StartedAttempt(c, s, e);
      assert t.attempts[..|s.attempts|] == s.attempts;
    } else {
      forall a | 0 <= a < |s.attempts| ensures t.attempts[a].videoId == s.attempts[a].videoId {
        AttemptAfter(c, s, e, a);
      }
      SameStarts(s.attempts, t.attempts, v);
    }
  }

  ghost predicate Charged(s: System) { forall v :: Starts(s.attempts, v) == Tries(s, v) }

  lemma ChargedFor(c: Config, s: System, e: Event, v: string)
    requires Inv(c, s) && Enabled(c, s, e) && Starts(s.attempts, v) == Tries(s, v)
    ensures Starts(Next(c, s, e).attempts, v) == Tries(Next(c, s, e), v)
  {
    hide Inv, Enabled, Next, Starts, HasFlow;
    StartsOfStep(c, s, e, v);
    if HasFlow(s.jobs, v) {
      TriesOfStep(c, s, e, v);
    } else {
      if e.StartAttempt? { JobsOfStep(c, s, e); }
      if HasFlow(Next(c, s, e).jobs, v) {
        CreatedByStep(c, s, e, v);
        FreshFlow(c, s, Next(c, s, e), v);
      }
    }
  }

  lemma ChargedStep(c: Config, s: System, e: Event)
    requires Good(c, s) && Enabled(c, s, e) && Charged(s)
    ensures Charged(Next(c, s, e))
  {
    hide Good, Enabled, Next, Tries, Starts;
    GoodInv(c, s);
    forall v ensures Starts(Next(c, s, e).attempts, v) == Tries(Next(c, s, e), v) {
      assert Starts(s.attempts, v) == Tries(s, v);
      ChargedFor(c, s, e, v);
    }
  }

  lemma CreatedByStep(c: Config, s: System, e: Event, v: string)
    requires Inv(c, s) && Enabled(c, s, e) && !HasFlow(s.jobs, v) && HasFlow(Next(c, s, e).jobs, v)
    ensures e.CreateFlow? && Next(c, s, e).jobs == AddFlow(c.heights, s.jobs, v)
  {
    hide Inv, Enabled, Next, KeyOf, AddFlow, ChildKinds;
    JobsOfStep(c, s, e);
    if e.CreateFlow? {
      var w := s.handlers[e.h].videoId;
      var after := AddFlow(c.heights, s.jobs, w);
      StoreFiled(c, s);
      FlowAdded(c.heights, s.jobs, w);
      var k := KeyOf(Orchestrator, v);
      KeysDistinct(Orchestrator, v, after[k].kind, after[k].videoId);
    }
  }

  lemma {:induction false} ChargedRun(c: Config, s: System, events: seq<Event>)
    requires Good(c, s) && Charged(s) && Pipeline.Legal(c, s, events)
    ensures Charged(Pipeline.Run(c, s, events))
    decreases |events|
  {
    hide Good, Enabled, Next, Charged;
    if events != [] {
      ChargedStep(c, s, events[0]);
      GoodStep(c, s, events[0]);
      ChargedRun(c, Next(c, s, events[0]), events[1..]);
    }
  }

  lemma InitialGood(c: Config)
    requires Distinct(c.heights)
    ensures Good(c, Initial()) && Charged(Initial())
  {
    hide Inv;
    InitialInv(c);
  }

  /** In every reachable state each attempt was charged to its orchestrator job, so there are at most three of a
      video. */
  lemma AttemptsCharged(c: Config, s: System, v: string)
    requires Reachable(c, s)
    ensures Starts(s.attempts, v) == Tries(s, v) <= 3
  {
    hide Good, Enabled, Next, Starts, KeyOf, Inv;
    ReachableGood(c, s);
    GoodInv(c, s);
    if HasFlow(s.jobs, v) { OrchestratorOpen(c, s, v); }
    var events :| Pipeline.Legal(c, Initial(), events) && Pipeline.Run(c, Initial(), events) == s;
    InitialGood(c);
    ChargedRun(c, Initial(), events);
  }

  // ----- a flow does get stuck

  /** No attempt of v was announced, none can go on, and its row is not terminal. */
  ghost predicate Untouched(c: Config, s: System, v: string) {
    && Good(c, s) && Runnable(c.heights, s.jobs, v) && HasFlow(s.jobs, v) && !Ended(s.table, v) && AllStopped(s, v)
  }

  lemma StopIsEnabled(c: Config, s: System, a: nat)
    requires a < |s.attempts| && Rank(s.attempts[a].pc) > 0
    ensures Enabled(c, s, Stop(a)) && Next(c, s, Stop(a)) == AttemptAt(s, a, Stopped)
  {}

  /** An attempt of v was started after s and still runs; the job store charged it, nothing was announced. */
  ghost predicate Underway(s: System, u: System, v: string, recorded: bool)
    requires HasFlow(s.jobs, v)
  {
    var a := |s.attempts|;
    && |u.attempts| == a + 1 && u.attempts[a].videoId == v
    && (forall b :: 0 <= b < a ==> u.attempts[b] == s.attempts[b])
    && u.published == s.published
    && u.jobs == s.jobs[KeyOf(Orchestrator, v) := Tried(s.jobs[KeyOf(Orchestrator, v)], Open)]
    && (if recorded then u.attempts[a].pc.Announcing? else u.attempts[a].pc.Reading? && u.table == s.table)
  }

  /** An attempt of v starts and, if `recorded`, goes on until it stored its result. */
  lemma StartsOne(c: Config, s: System, v: string, recorded: bool) returns (events: seq<Event>, u: System)
    requires Untouched(c, s, v) && Tries(s, v) < ATTEMPTS
    ensures Leads(c, s, events, u) && Good(c, u) && Underway(s, u, v, recorded)
  {
    hide Good, Enabled, Next, Leads, KeyOf, Rank, Runnable, Calm, Tries, Ended, HasFlow;
    AttemptStarts(c, s, v);
    GoodStep(c, s, StartAttempt(v));
    var started := Next(c, s, StartAttempt(v));
    var rest;
    if recorded {
      ReadingRank();
      rest, u := AttemptReaches(c, started, |s.attempts|, 2);
    } else {
      Stay(c, started);
      rest, u := [], started;
    }
    Prepend(c, s, StartAttempt(v), rest, u);
    events := [StartAttempt(v)] + rest;
  }

  lemma StopsUncharged(s: System, u: System, v: string, recorded: bool)
    requires AllStopped(s, v) && HasFlow(s.jobs, v) && Underway(s, u, v, recorded)
    ensures AllStopped(AttemptAt(u, |s.attempts|, Stopped), v)
  {
    hide HasFlow, KeyOf, Tried;
  }

  lemma ChargedOnce(c: Config, s: System, u: System, v: string)
    requires Good(c, s) && Runnable(c.heights, s.jobs, v) && HasFlow(s.jobs, v)
    requires u.jobs == s.jobs[KeyOf(Orchestrator, v) := Tried(s.jobs[KeyOf(Orchestrator, v)], Open)]
    ensures HasFlow(u.jobs, v) && Tries(u, v) == Tries(s, v) + 1 && Runnable(c.heights, u.jobs, v)
  {
    hide Good, KeyOf, Runnable;
    GoodInv(c, s);
    StillRunnable(c, s, u, v);
  }

  /** An attempt of v starts and stops; if `recorded`, only after it stored its result. */
  lemma StartAndStop(c: Config, s: System, v: string, recorded: bool) returns (events: seq<Event>, t: System)
    requires Untouched(c, s, v) && Tries(s, v) < ATTEMPTS
    ensures Leads(c, s, events, t) && Good(c, t) && HasFlow(t.jobs, v) && Tries(t, v) == Tries(s, v) + 1
    ensures AllStopped(t, v) && if recorded then Ended(t.table, v) else Untouched(c, t, v)
  {
    hide Good, Enabled, Next, Leads, Tries, HasFlow, Rank, Runnable, Ended, Tried;
    var a := |s.attempts|;
    var before, u := StartsOne(c, s, v, recorded);
    RankOfUnstopped(u.attempts[a].pc);
    StopIsEnabled(c, u, a);
    GoodStep(c, u, Stop(a));
    t := AttemptAt(u, a, Stopped);
    Stay(c, t);
    Prepend(c, u, Stop(a), [], t);
    Append(c, s, before, u, [Stop(a)] + [], t);
    events := before + ([Stop(a)] + []);
    ChargedOnce(c, s, u, v);
    StopsUncharged(s, u, v, recorded);
    SameTries(u, t, v);
    if recorded { AnnouncingEnded(c, u, a); }
  }

  lemma SameTries(s: System, t: System, v: string)
    requires s.jobs == t.jobs
    ensures Tries(s, v) == Tries(t, v)
  {}

  lemma ReadingRank()
    ensures Rank(Reading) == 6
  {}

  lemma RankOfUnstopped(pc: AttemptPc)
    requires pc.Reading? || pc.Announcing?
    ensures Rank(pc) > 0
  {}

  lemma AnnouncingEnded(c: Config, s: System, a: nat)
    requires Good(c, s) && a < |s.attempts| && s.attempts[a].pc.Announcing?
    ensures Ended(s.table, s.attempts[a].videoId)
  {
    hide QueuesOk, RowOk, JobOk, HandlerOk, AnnouncementOk, Filed, KeyOf, FlowsWhole;
    assert AttemptOk(c, s, s.attempts[a]);
  }

  lemma StillRunnable(c: Config, s: System, t: System, v: string)
    requires Inv(c, s) && Runnable(c.heights, s.jobs, v) && HasFlow(s.jobs, v)
    requires t.jobs == s.jobs[KeyOf(Orchestrator, v) := Tried(s.jobs[KeyOf(Orchestrator, v)], Open)]
    ensures Runnable(c.heights, t.jobs, v)
  {
    hide Inv, KeyOf, ChildKinds, AllSucceeded, SomeExhausted;
    StoreFiled(c, s);
    OrchestratorOpen(c, s, v);
    OpenJobChanged(s.jobs, KeyOf(Orchestrator, v), t.jobs[KeyOf(Orchestrator, v)]);
    StoreFactsStay(c.heights, s.jobs, t.jobs, v);
  }

  /** All attempts that are left start and stop; if `recorded`, the last one only after it stored its result. */
  lemma {:induction false} UseUp(c: Config, s: System, v: string, recorded: bool)
    returns (events: seq<Event>, t: System)
    requires Untouched(c, s, v) && Tries(s, v) < ATTEMPTS
    ensures Leads(c, s, events, t) && Good(c, t) && Stuck(t, v) && (Ended(t.table, v) <==> recorded)
    decreases ATTEMPTS - Tries(s, v)
  {
    hide Good, Leads, Tries, HasFlow, Runnable, Ended;
    if Tries(s, v) + 1 == ATTEMPTS {
      events, t := StartAndStop(c, s, v, recorded);
    } else {
      var first, u := StartAndStop(c, s, v, false);
      var rest;
      rest, t := UseUp(c, u, v, recorded);
      Append(c, s, first, u, rest, t);
      events := first + rest;
    }
  }

  lemma UploadArrives(c: Config, v: string)
    requires IsUuid(v)
    ensures Enabled(c, Initial(), Upload(v))
    ensures var t := Next(c, Initial(), Upload(v));
      && t == Initial().(queues := t.queues) && |t.queues.copies| == 1
      && t.queues.copies[0].content == v && t.queues.copies[0].place.Main?
  {}

  lemma SampleIsUuid(head: char)
    requires IsHex(head)
    ensures IsUuid(SampleUuid(head))
  {}

  /** The witness runs: after an upload, three attempts that stop leave a claimed row that is never finished, or, when
      the last one stops after storing its result, a terminal row that is never announced. */
  lemma GetsStuck(c: Config, recorded: bool) returns (s: System)
    requires Distinct(c.heights)
    ensures var v := SampleUuid('a');
      && Reachable(c, s) && v in s.queues.arrived
      && Started(s.table, v) && (Ended(s.table, v) <==> recorded)
      && HasFlow(s.jobs, v) && !Settled(s, v) && !AttemptRuns(s, v) && Tries(s, v) == ATTEMPTS
      && forall events, t :: Leads(c, s, events, t) ==> !Settled(t, v)
  {
    hide Good, Enabled, Next, Tries, HasFlow, KeyOf, Runnable, Ended, IsUuid, SampleUuid;
    var v := SampleUuid('a');
    SampleIsUuid('a');
    InitialGood(c);
    UploadArrives(c, v);
    GoodStep(c, Initial(), Upload(v));
    var uploaded := Next(c, Initial(), Upload(v));
    NoFlowYet(uploaded, v);
    var e1, flowing := MainCreatesFlow(c, uploaded, 0);
    var e2, runnable := FlowRunnable(c, flowing, v);
    RunnableHasFlow(c.heights, runnable.jobs, v);
    assert Untouched(c, runnable, v) by { NotEnded(uploaded, flowing, v); }
    var e3, stuck := UseUp(c, runnable, v, recorded);
    s := stuck;
    Append(c, flowing, e2, runnable, e3, s);
    Append(c, uploaded, e1, flowing, e2 + e3, s);
    Prepend(c, Initial(), Upload(v), e1 + (e2 + e3), s);
    StuckFacts(c, s, v);
    UploadRemembered(c, s, [Upload(v)] + (e1 + (e2 + e3)), v);
    forall events, t | Leads(c, s, events, t) ensures !Settled(t, v) { StuckForGood(c, s, events, v); }
  }

  lemma NoFlowYet(s: System, v: string)
    requires s.jobs == map[]
    ensures !HasFlow(s.jobs, v)
  {}

  lemma NotEnded(s: System, t: System, v: string)
    requires s.table == map[] && (Ended(t.table, v) ==> Ended(s.table, v))
    ensures !Ended(t.table, v)
  {}

  lemma StuckFacts(c: Config, s: System, v: string)
    requires Good(c, s) && Stuck(s, v)
    ensures Started(s.table, v) && !Settled(s, v) && !AttemptRuns(s, v) && Tries(s, v) == ATTEMPTS
  {
    hide Inv, KeyOf, Ended;
    GoodInv(c, s);
    FlowOwner(c, s, v);
    OrchestratorOpen(c, s, v);
  }

  lemma ArrivedStays(c: Config, s: System, e: Event)
    requires Good(c, s) && Enabled(c, s, e)
    ensures s.queues.arrived <= Next(c, s, e).queues.arrived
  {
    hide Inv, Enabled, Next, FlowsWhole, Advances, JobsGrow;
    Step(c, s, e);
  }

  lemma {:induction false} ArrivedForGood(c: Config, s: System, events: seq<Event>)
    requires Good(c, s) && Pipeline.Legal(c, s, events)
    ensures s.queues.arrived <= Pipeline.Run(c, s, events).queues.arrived
    decreases |events|
  {
    hide Good, Enabled, Next;
    if events != [] {
      ArrivedStays(c, s, events[0]);
      GoodStep(c, s, events[0]);
      ArrivedForGood(c, Next(c, s, events[0]), events[1..]);
    }
  }

  lemma UploadRemembered(c: Config, s: System, events: seq<Event>, v: string)
    requires Distinct(c.heights) && Leads(c, Initial(), events, s) && events != [] && events[0] == Upload(v)
    ensures v in s.queues.arrived
  {
    hide Good, Enabled;
    InitialGood(c);
    GoodStep(c, Initial(), events[0]);
    var u := Next(c, Initial(), events[0]);
    assert u.queues.arrived == [v];
    ArrivedForGood(c, u, events[1..]);
    assert s.queues.arrived[0] == v;
  }
}
