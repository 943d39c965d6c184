/** What every step of the processing service keeps. */
module PipelineLaws {
  import opened Seqs
  import opened Text
  import opened Schema
  import opened Contracts
  import opened ContractLaws
  import opened S3Keys
  import opened Events
  import Aggregation
  import AggregationLaws
  import opened Rows
  import Broker
  import BrokerLaws
  import opened Jobs
  import opened Pipeline

  // ----- facts that, once true, stay true

  predicate HasFlow(jobs: Store, v: string) { KeyOf(Orchestrator, v) in jobs }

  /** The renditions of a completed video: one for each height, at its own key. */
  function Renditions(heights: seq<nat>, v: string): seq<TranscodeChild> {
    seq(|heights|, i requires 0 <= i < |heights| => TranscodeChild(v, heights[i], RenditionKey(v, heights[i])))
  }

  /** The key and the reason under which an exhausted child is reported to its parent. */
  function FailureOf(jobs: Store, v: string, kind: JobKind): (string, string)
    requires InState(jobs, kind, v, false)
  {
    (ChildKey(kind, v), jobs[KeyOf(kind, v)].state.reason)
  }

  ghost predicate FromChild(heights: seq<nat>, jobs: Store, v: string, e: (string, string)) {
    exists kind :: kind in ChildKinds(heights) && InState(jobs, kind, v, false) && e == FailureOf(jobs, v, kind)
  }

  /** The failure names a child of v that used up its attempts, and gives that child's reason. */
  ghost predicate Names(heights: seq<nat>, jobs: Store, v: string, f: Failure) {
    exists kind :: kind in ChildKinds(heights) && InState(jobs, kind, v, false)
                   && Aggregation.Reports(f, ChildKey(kind, v), jobs[KeyOf(kind, v)].state.reason)
  }

  /** A result of v that the job store justifies; it is valid and in normal form. */
  ghost predicate Justified(c: Config, jobs: Store, v: string, r: PipelineResult) {
    && ValidResult(c.z, c.heights, r) && Tidy(r) == r && r.videoId == v
    && (r.Completed? ==> AllSucceeded(c.heights, jobs, v) && r.renditions == Renditions(c.heights, v))
    && (r.Failed? ==> SomeExhausted(c.heights, jobs, v) && forall f :: f in r.failures ==> Names(c.heights, jobs, v, f))
  }

  lemma JustifiedFacts(c: Config, jobs: Store, v: string, r: PipelineResult)
    requires Justified(c, jobs, v, r)
    ensures ValidResult(c.z, c.heights, r) && Tidy(r) == r && r.videoId == v
  {}

  /** The upload of v has had its effect: the flow was created, or the row is terminal. */
  ghost predicate TakenUp(s: System, v: string) { HasFlow(s.jobs, v) || Ended(s.table, v) }

  /** The row of v is terminal and holds this result. */
  ghost predicate Holds(t: Table, v: string, r: PipelineResult) { Ended(t, v) && t[v].result == Some(r) }

  ghost predicate WasPublished(s: System, v: string, payload: PipelineResult) {
    exists i :: 0 <= i < |s.published| && s.published[i].videoId == v && s.published[i].payload == payload
  }

  // ----- the invariant, part by part

  ghost predicate RowOk(c: Config, s: System, v: string)
    requires v in s.table
  {
    && RowSound(v, s.table[v])
    && (s.table[v].result.Some? ==> Justified(c, s.jobs, v, s.table[v].result.value))
    && v in s.queues.arrived
  }

  ghost predicate ChildResultOk(c: Config, job: Job) {
    match job.state
    case Open => job.tries < ATTEMPTS
    case Exhausted(_) => job.tries == ATTEMPTS
    case Succeeded(value) =>
      job.tries <= ATTEMPTS
      && exists m ::
           && value == ChildValue(job.kind, job.videoId, m)
           && (job.kind.MetadataJob? ==> Parse(c.z, VideoMetadataShape, m) == Some(m))
  }

  ghost predicate JobOk(c: Config, s: System, k: Key)
    requires k in s.jobs
  {
    var job := s.jobs[k];
    && (job.kind == Orchestrator || job.kind in ChildKinds(c.heights))
    && (if job.kind == Orchestrator then job.state == Open && job.tries <= ATTEMPTS else ChildResultOk(c, job))
    && IsUuid(job.videoId) && HasFlow(s.jobs, job.videoId) && Started(s.table, job.videoId)
  }

  ghost predicate HandlerOk(s: System, h: Handler) {
    && h.copy < |s.queues.copies| && s.queues.copies[h.copy].content == h.videoId
    && h.videoId in s.queues.arrived && IsUuid(h.videoId)
    && match h.pc
       case Begin => true
       case Inserted => h.videoId in s.table
       case Missed => Started(s.table, h.videoId)
       case Active => Started(s.table, h.videoId)
       case Skipped => Ended(s.table, h.videoId)
       case FlowRequested => HasFlow(s.jobs, h.videoId)
       case Halted => true
  }

  ghost predicate AttemptOk(c: Config, s: System, a: Attempt) {
    var v := a.videoId;
    && IsUuid(v) && HasFlow(s.jobs, v) && Started(s.table, v)
    && (AllSucceeded(c.heights, s.jobs, v) || SomeExhausted(c.heights, s.jobs, v))
    && match a.pc
       case Reading => true
       case Purging(failures) =>
         && failures != [] && SomeExhausted(c.heights, s.jobs, v)
         && forall i :: 0 <= i < |failures| ==> FromChild(c.heights, s.jobs, v, failures[i])
       case Collecting => AllSucceeded(c.heights, s.jobs, v)
       case Storing(r) => Justified(c, s.jobs, v, r)
       case Looking(r) => r.videoId == v && Ended(s.table, v)
       case Announcing(r) => Holds(s.table, v, r)
       case Announced(r) => Holds(s.table, v, r) && WasPublished(s, v, r)
       case Returned(r) => Holds(s.table, v, r) && WasPublished(s, v, r)
       case Threw => false
       case Stopped => true
  }

  ghost predicate AnnouncementOk(s: System, e: Announcement) {
    Holds(s.table, e.videoId, e.payload) && e.routingKey == RoutingKey(e.payload)
  }

  ghost predicate QueuesOk(c: Config, s: System) {
    && BrokerLaws.Sound(c.maxRetries, s.queues)
    && (forall v :: v in s.queues.arrived ==> IsUuid(v))
    && (forall o :: o in s.queues.done ==> o < |s.queues.arrived| && TakenUp(s, s.queues.arrived[o]))
  }

  ghost predicate Inv(c: Config, s: System) {
    && QueuesOk(c, s)
    && (forall v :: v in s.table ==> RowOk(c, s, v))
    && Filed(s.jobs)
    && (forall k :: k in s.jobs ==> JobOk(c, s, k))
    && (forall i :: 0 <= i < |s.handlers| ==> HandlerOk(s, s.handlers[i]))
    && (forall i :: 0 <= i < |s.attempts| ==> AttemptOk(c, s, s.attempts[i]))
    && (forall i :: 0 <= i < |s.published| ==> AnnouncementOk(s, s.published[i]))
  }

  // ----- what only grows

  ghost predicate JobsGrow(j: Store, k: Store) {
    && (forall v :: HasFlow(j, v) ==> HasFlow(k, v))
    && (forall key :: key in j && !j[key].state.Open? ==> key in k && k[key] == j[key])
  }

  ghost predicate QueuesGrow(q: Broker.Queues<string>, r: Broker.Queues<string>) {
    && q.arrived <= r.arrived && |q.copies| <= |r.copies|
    && (forall i :: 0 <= i < |q.copies| ==> r.copies[i].content == q.copies[i].content)
  }

  ghost predicate Grows(s: System, t: System) {
    && QueuesGrow(s.queues, t.queues) && Advances(s.table, t.table) && JobsGrow(s.jobs, t.jobs)
    && s.published <= t.published
  }

  lemma StoreFactsStay(heights: seq<nat>, j: Store, k: Store, v: string)
    requires JobsGrow(j, k)
    ensures HasFlow(j, v) ==> HasFlow(k, v)
    ensures AllSucceeded(heights, j, v) ==> AllSucceeded(heights, k, v)
    ensures SomeExhausted(heights, j, v) ==> SomeExhausted(heights, k, v)
  {
    hide KeyOf, ChildKinds;
    if SomeExhausted(heights, j, v) {
      var kind :| kind in ChildKinds(heights) && InState(j, kind, v, false);
      assert InState(k, kind, v, false);
    }
    if AllSucceeded(heights, j, v) {
      forall kind | kind in ChildKinds(heights) ensures InState(k, kind, v, true) {
        assert InState(j, kind, v, true);
      }
    }
  }

  lemma RowFactsStay(t: Table, u: Table, v: string)
    requires Advances(t, u)
    ensures v in t ==> v in u
    ensures Started(t, v) ==> Started(u, v)
    ensures Ended(t, v) ==> Ended(u, v) && u[v] == t[v]
  {
    if v in t { assert Forward(t[v], u[v]); }
  }

  lemma JustifiedStays(c: Config, j: Store, k: Store, v: string, r: PipelineResult)
    requires JobsGrow(j, k) && Justified(c, j, v, r)
    ensures Justified(c, k, v, r)
  {
    hide ValidResult, Tidy, AllSucceeded, SomeExhausted, Renditions, Names;
    StoreFactsStay(c.heights, j, k, v);
    if r.Failed? {
      forall f | f in r.failures ensures Names(c.heights, k, v, f) { NamesStay(c.heights, j, k, v, f); }
    }
  }

  lemma NamesStay(heights: seq<nat>, j: Store, k: Store, v: string, f: Failure)
    requires JobsGrow(j, k) && Names(heights, j, v, f)
    ensures Names(heights, k, v, f)
  {
    hide KeyOf, ChildKey, ChildKinds, Aggregation.Reports;
    var kind :| kind in ChildKinds(heights) && InState(j, kind, v, false)
                && Aggregation.Reports(f, ChildKey(kind, v), j[KeyOf(kind, v)].state.reason);
    assert InState(k, kind, v, false);
  }

  lemma FromChildStays(heights: seq<nat>, j: Store, k: Store, v: string, e: (string, string))
    requires JobsGrow(j, k) && FromChild(heights, j, v, e)
    ensures FromChild(heights, k, v, e)
  {
    hide KeyOf, ChildKey, ChildKinds;
    var kind :| kind in ChildKinds(heights) && InState(j, kind, v, false) && e == FailureOf(j, v, kind);
    assert InState(k, kind, v, false);
  }

  lemma HandlerStays(s: System, t: System, h: Handler)
    requires Grows(s, t) && HandlerOk(s, h)
    ensures HandlerOk(t, h)
  {
    hide IsUuid, AllSucceeded, SomeExhausted;
    StoreFactsStay([], s.jobs, t.jobs, h.videoId);
    RowFactsStay(s.table, t.table, h.videoId);
  }

  lemma AttemptStays(c: Config, s: System, t: System, a: Attempt)
    requires Grows(s, t) && AttemptOk(c, s, a)
    ensures AttemptOk(c, t, a)
  {
    hide IsUuid, AllSucceeded, SomeExhausted, FromChild, Justified;
    StoreFactsStay(c.heights, s.jobs, t.jobs, a.videoId);
    RowFactsStay(s.table, t.table, a.videoId);
    match a.pc
    case Purging(failures) =>
      forall i | 0 <= i < |failures| ensures FromChild(c.heights, t.jobs, a.videoId, failures[i]) {
        FromChildStays(c.heights, s.jobs, t.jobs, a.videoId, failures[i]);
      }
    case Storing(r) => JustifiedStays(c, s.jobs, t.jobs, a.videoId, r);
    case Announced(r) => PublishedStays(s, t, a.videoId, r);
    case Returned(r) => PublishedStays(s, t, a.videoId, r);
    case _ =>
  }

  lemma PublishedStays(s: System, t: System, v: string, p: PipelineResult)
    requires s.published <= t.published && WasPublished(s, v, p)
    ensures WasPublished(t, v, p)
  {
    var i :| 0 <= i < |s.published| && s.published[i].videoId == v && s.published[i].payload == p;
    assert t.published[i] == s.published[i];
  }

  lemma AnnouncementStays(s: System, t: System, e: Announcement)
    requires Grows(s, t) && AnnouncementOk(s, e)
    ensures AnnouncementOk(t, e)
  {
    RowFactsStay(s.table, t.table, e.videoId);
  }

  /** A row that did not change is still in order. */
  lemma RowStays(c: Config, s: System, t: System, v: string)
    requires Grows(s, t) && v in s.table && RowOk(c, s, v) && v in t.table && t.table[v] == s.table[v]
    ensures RowOk(c, t, v)
  {
    hide Justified;
    if s.table[v].result.Some? {
      JustifiedStays(c, s.jobs, t.jobs, v, s.table[v].result.value);
    }
  }

  lemma JobStays(c: Config, s: System, t: System, k: Key)
    requires Grows(s, t) && k in s.jobs && JobOk(c, s, k) && k in t.jobs && t.jobs[k] == s.jobs[k]
    ensures JobOk(c, t, k)
  {
    hide IsUuid, ChildResultOk, ChildKinds;
    RowFactsStay(s.table, t.table, s.jobs[k].videoId);
  }

  lemma TakenUpStays(s: System, t: System, v: string)
    requires Grows(s, t) && TakenUp(s, v)
    ensures TakenUp(t, v)
  {
    if Ended(s.table, v) { assert Forward(s.table[v], t.table[v]); }
  }

  /** What a step leaves alone stays in order; only what it changed remains to be checked. */
  lemma Carry(c: Config, s: System, t: System)
    requires Inv(c, s) && Grows(s, t)
    requires BrokerLaws.Sound(c.maxRetries, t.queues)
    requires forall v :: v in t.queues.arrived ==> IsUuid(v)
    requires forall o :: o in t.queues.done && o !in s.queues.done ==>
      o < |t.queues.arrived| && TakenUp(t, t.queues.arrived[o])
    requires forall v :: v in t.table && (v !in s.table || t.table[v] != s.table[v]) ==> RowOk(c, t, v)
    requires Filed(t.jobs)
    requires forall k :: k in t.jobs && (k !in s.jobs || t.jobs[k] != s.jobs[k]) ==> JobOk(c, t, k)
    requires forall i :: 0 <= i < |t.handlers| ==>
      (i < |s.handlers| && t.handlers[i] == s.handlers[i]) || HandlerOk(t, t.handlers[i])
    requires forall i :: 0 <= i < |t.attempts| ==>
      (i < |s.attempts| && t.attempts[i] == s.attempts[i]) || AttemptOk(c, t, t.attempts[i])
    requires forall i :: |s.published| <= i < |t.published| ==> AnnouncementOk(t, t.published[i])
    ensures Inv(c, t)
  {
    hide BrokerLaws.Sound, RowOk, JobOk, HandlerOk, AttemptOk, AnnouncementOk, Filed, IsUuid, TakenUp, KeyOf;
    forall o | o in t.queues.done ensures o < |t.queues.arrived| && TakenUp(t, t.queues.arrived[o]) {
      if o in s.queues.done { TakenUpStays(s, t, s.queues.arrived[o]); }
    }
    forall v | v in t.table ensures RowOk(c, t, v) {
      if v in s.table && t.table[v] == s.table[v] { RowStays(c, s, t, v); }
    }
    forall k | k in t.jobs ensures JobOk(c, t, k) {
      if k in s.jobs && t.jobs[k] == s.jobs[k] { JobStays(c, s, t, k); }
    }
    forall i | 0 <= i < |t.handlers| ensures HandlerOk(t, t.handlers[i]) {
      if i < |s.handlers| && t.handlers[i] == s.handlers[i] { HandlerStays(s, t, s.handlers[i]); }
    }
    forall i | 0 <= i < |t.attempts| ensures AttemptOk(c, t, t.attempts[i]) {
      if i < |s.attempts| && t.attempts[i] == s.attempts[i] { AttemptStays(c, s, t, s.attempts[i]); }
    }
    forall i | 0 <= i < |t.published| ensures AnnouncementOk(t, t.published[i]) {
      if i < |s.published| { AnnouncementStays(s, t, s.published[i]); }
    }
  }

  // ----- steps of the queues

  lemma BrokerStepGrows(maxRetries: nat, q: Broker.Queues<string>, step: Broker.Step<string>)
    requires Broker.Enabled(q, step)
    ensures QueuesGrow(q, Broker.Next(maxRetries, q, step))
    ensures Broker.Next(maxRetries, q, step).arrived == if step.Arrive? then q.arrived + [step.m] else q.arrived
    ensures Broker.Next(maxRetries, q, step).done
            == if step.Succeed? then q.done + {q.copies[step.i].origin} else q.done
  {}

  /** A step of the subscription: a message that arrives names a UUID, and a handler succeeds only once its video was
      taken up. */
  lemma QueueStep(c: Config, s: System, t: System, step: Broker.Step<string>)
    requires Inv(c, s) && Broker.Enabled(s.queues, step) && (step.Arrive? ==> IsUuid(step.m))
    requires step.Succeed? ==> TakenUp(s, s.queues.copies[step.i].content)
    requires t == s.(queues := Broker.Next(c.maxRetries, s.queues, step))
    ensures Inv(c, t) && Grows(s, t)
  {
    hide BrokerLaws.Sound, RowOk, JobOk, HandlerOk, AttemptOk, AnnouncementOk, Filed, IsUuid, KeyOf, Broker.Next;
    BrokerLaws.SoundStep(c.maxRetries, s.queues, step);
    BrokerStepGrows(c.maxRetries, s.queues, step);
    if step.Succeed? { BrokerLaws.CopyContent(c.maxRetries, s.queues, step.i); }
    Carry(c, s, t);
  }

  lemma DeliverStep(c: Config, s: System, t: System, i: nat)
    requires Inv(c, s) && Broker.Enabled(s.queues, Broker.Consume(i))
    requires t == s.(queues := Broker.Next(c.maxRetries, s.queues, Broker.Consume(i)),
                     handlers := s.handlers + [Handler(i, |s.queues.runs|, s.queues.copies[i].content, Begin)])
    ensures Inv(c, t) && Grows(s, t)
  {
    hide BrokerLaws.Sound, RowOk, JobOk, AttemptOk, AnnouncementOk, Filed, IsUuid, KeyOf, TakenUp, Broker.Next;
    BrokerLaws.SoundStep(c.maxRetries, s.queues, Broker.Consume(i));
    BrokerStepGrows(c.maxRetries, s.queues, Broker.Consume(i));
    BrokerLaws.CopyContent(c.maxRetries, s.queues, i);
    assert HandlerOk(t, t.handlers[|s.handlers|]);
    Carry(c, s, t);
  }

  // ----- steps of an upload handler

  lemma TableInOrder(c: Config, s: System)
    requires Inv(c, s)
    ensures TableSound(s.table)
  {
    hide QueuesOk, JobOk, HandlerOk, AttemptOk, AnnouncementOk, Filed, Justified;
    forall v | v in s.table ensures RowSound(v, s.table[v]) { assert RowOk(c, s, v); }
  }

  lemma InsertStep(c: Config, s: System, t: System, h: nat, now: int)
    requires Inv(c, s) && AtHandler(s, h, Begin)
    requires t == HandlerAt(s, h, Inserted).(table := Exec(s.table, InsertPending(s.handlers[h].videoId, now)))
    ensures Inv(c, t) && Grows(s, t)
  {
    hide BrokerLaws.Sound, JobOk, AttemptOk, AnnouncementOk, Filed, IsUuid, KeyOf, TakenUp, Justified;
    assert HandlerOk(s, s.handlers[h]);
    TableInOrder(c, s);
    StatementStep(s.table, InsertPending(s.handlers[h].videoId, now));
    Carry(c, s, t);
  }

  lemma UpdateStep(c: Config, s: System, t: System, h: nat, now: int)
    requires Inv(c, s) && AtHandler(s, h, Inserted)
    requires var st := SetInProgress(s.handlers[h].videoId, now);
      t == HandlerAt(s, h, if Writes(s.table, st) then Active else Missed).(table := Exec(s.table, st))
    ensures Inv(c, t) && Grows(s, t)
  {
    hide BrokerLaws.Sound, JobOk, AttemptOk, AnnouncementOk, Filed, IsUuid, KeyOf, TakenUp, Justified;
    assert HandlerOk(s, s.handlers[h]);
    TableInOrder(c, s);
    StatementStep(s.table, SetInProgress(s.handlers[h].videoId, now));
    assert RowOk(c, s, s.handlers[h].videoId);
    Carry(c, s, t);
  }

  lemma CheckStep(c: Config, s: System, t: System, h: nat)
    requires Inv(c, s) && AtHandler(s, h, Missed)
    requires var v := s.handlers[h].videoId;
      t == HandlerAt(s, h, if v in s.table && s.table[v].status == InProgress then Active else Skipped)
    ensures Inv(c, t) && Grows(s, t)
  {
    hide BrokerLaws.Sound, RowOk, JobOk, AttemptOk, AnnouncementOk, Filed, IsUuid, KeyOf, TakenUp;
    assert HandlerOk(s, s.handlers[h]);
    Carry(c, s, t);
  }

  /** What the store gains and keeps when the flow of a claimed video is added. */
  lemma FlowInOrder(c: Config, s: System, t: System, v: string)
    requires Inv(c, s) && IsUuid(v) && Started(s.table, v)
    requires t.jobs == AddFlow(c.heights, s.jobs, v) && t.table == s.table
    ensures Filed(t.jobs) && JobsGrow(s.jobs, t.jobs) && HasFlow(t.jobs, v)
    ensures forall k :: k in s.jobs ==> k in t.jobs && t.jobs[k] == s.jobs[k]
    ensures forall k :: k in t.jobs && k !in s.jobs ==> JobOk(c, t, k)
  {
    hide QueuesOk, RowOk, JobOk, HandlerOk, AttemptOk, AnnouncementOk, IsUuid, KeyOf, AddFlow, ChildKinds, Started;
    Jobs.FlowAdded(c.heights, s.jobs, v);
    forall k | k in t.jobs && k !in s.jobs ensures JobOk(c, t, k) {
      NewJobOk(c, t, k);
    }
  }

  lemma NewJobOk(c: Config, t: System, k: Key)
    requires k in t.jobs && t.jobs[k].state == Open && t.jobs[k].tries == 0
    requires t.jobs[k].kind == Orchestrator || t.jobs[k].kind in ChildKinds(c.heights)
    requires IsUuid(t.jobs[k].videoId) && HasFlow(t.jobs, t.jobs[k].videoId) && Started(t.table, t.jobs[k].videoId)
    ensures JobOk(c, t, k)
  {
    hide IsUuid, HasFlow, Started, ChildKinds;
  }

  lemma CreateFlowStep(c: Config, s: System, t: System, h: nat)
    requires Inv(c, s) && AtHandler(s, h, Active)
    requires t == HandlerAt(s, h, FlowRequested).(jobs := AddFlow(c.heights, s.jobs, s.handlers[h].videoId))
    ensures Inv(c, t) && Grows(s, t)
  {
    hide BrokerLaws.Sound, RowOk, JobOk, AttemptOk, AnnouncementOk, Filed, IsUuid, KeyOf, TakenUp, AddFlow, JobsGrow;
    assert HandlerOk(s, s.handlers[h]);
    FlowInOrder(c, s, t, s.handlers[h].videoId);
    assert HandlerOk(t, t.handlers[h]);
    Carry(c, s, t);
  }

  lemma HandlerStopsStep(c: Config, s: System, t: System, h: nat)
    requires Inv(c, s) && h < |s.handlers| && t == HandlerAt(s, h, Halted)
    ensures Inv(c, t) && Grows(s, t)
  {
    hide BrokerLaws.Sound, RowOk, JobOk, AttemptOk, AnnouncementOk, Filed, IsUuid, KeyOf, TakenUp;
    assert HandlerOk(s, s.handlers[h]);
    Carry(c, s, t);
  }

  lemma HandlerFailsStep(c: Config, s: System, t: System, h: nat)
    requires Inv(c, s) && h < |s.handlers| && HasDelivery(s, s.handlers[h])
    requires t == HandlerAt(s, h, Halted)
                    .(queues := Broker.Next(c.maxRetries, s.queues, Broker.Fail(s.handlers[h].copy)))
    ensures Inv(c, t) && Grows(s, t)
  {
    hide Inv, QueuesGrow, Advances, JobsGrow, Broker.Next, TakenUp;
    var rejected := s.(queues := t.queues);
    QueueStep(c, s, rejected, Broker.Fail(s.handlers[h].copy));
    HandlerStopsStep(c, rejected, t, h);
  }

  // ----- steps of the children

  lemma OpenJobChanged(j: Store, k: Key, job: Job)
    requires Filed(j) && k in j && j[k].state.Open? && job.kind == j[k].kind && job.videoId == j[k].videoId
    ensures Filed(j[k := job]) && JobsGrow(j, j[k := job])
  {
    hide KeyOf;
  }

  lemma OpenJobsRemoved(j: Store, removed: set<Key>)
    requires Filed(j) && forall k :: k in removed ==> k in j && j[k].kind != Orchestrator && j[k].state.Open?
    ensures Filed(j - removed) && JobsGrow(j, j - removed)
  {
    forall v | HasFlow(j, v) ensures HasFlow(j - removed, v) {
      var k := KeyOf(Orchestrator, v);
      KeysDistinct(Orchestrator, v, j[k].kind, j[k].videoId);
    }
  }

  lemma OneJobChanged(c: Config, s: System, t: System, k: Key, state: JobState)
    requires Inv(c, s) && k in s.jobs && s.jobs[k].state.Open? && s.jobs[k].kind != Orchestrator
    requires t == s.(jobs := s.jobs[k := Tried(s.jobs[k], state)]) && ChildResultOk(c, t.jobs[k])
    ensures Inv(c, t) && Grows(s, t)
  {
    hide BrokerLaws.Sound, RowOk, HandlerOk, AttemptOk, AnnouncementOk, IsUuid, TakenUp, ChildResultOk, KeyOf;
    hide ChildKinds, QueuesOk, JobsGrow, Filed;
    assert JobOk(c, s, k);
    OpenJobChanged(s.jobs, k, t.jobs[k]);
    assert JobOk(c, t, k) by { StoreFactsStay([], s.jobs, t.jobs, s.jobs[k].videoId); }
    assert Grows(s, t);
    JobChangedCarry(c, s, t, k);
  }

  lemma JobChangedCarry(c: Config, s: System, t: System, k: Key)
    requires Inv(c, s) && Grows(s, t) && Filed(t.jobs) && k in s.jobs && k in t.jobs && JobOk(c, t, k)
    requires t == s.(jobs := s.jobs[k := t.jobs[k]])
    ensures Inv(c, t)
  {
    hide BrokerLaws.Sound, RowOk, HandlerOk, AttemptOk, AnnouncementOk, IsUuid, TakenUp, JobOk, KeyOf, Filed, Grows;
    Carry(c, s, t);
  }

  lemma JobOfKind(c: Config, s: System, kind: JobKind, v: string)
    requires Inv(c, s) && KeyOf(kind, v) in s.jobs
    ensures s.jobs[KeyOf(kind, v)].kind == kind && s.jobs[KeyOf(kind, v)].videoId == v && JobOk(c, s, KeyOf(kind, v))
  {
    hide BrokerLaws.Sound, QueuesOk, RowOk, HandlerOk, AttemptOk, AnnouncementOk, JobOk, KeyOf;
    var k := KeyOf(kind, v);
    assert k == KeyOf(s.jobs[k].kind, s.jobs[k].videoId);
    KeysDistinct(kind, v, s.jobs[k].kind, s.jobs[k].videoId);
  }

  lemma ChildFailsStep(c: Config, s: System, t: System, kind: JobKind, v: string, reason: string)
    requires Inv(c, s) && ChildOpen(s.jobs, kind, v)
    requires var job := s.jobs[KeyOf(kind, v)];
      var state := if job.tries + 1 >= ATTEMPTS then Exhausted(reason) else Open;
      t == s.(jobs := s.jobs[KeyOf(kind, v) := Tried(job, state)])
    ensures Inv(c, t) && Grows(s, t)
  {
    hide Inv, KeyOf, ChildKinds, Grows, IsUuid, HasFlow, Started;
    JobOfKind(c, s, kind, v);
    var k := KeyOf(kind, v);
    OneJobChanged(c, s, t, k, if s.jobs[k].tries + 1 >= ATTEMPTS then Exhausted(reason) else Open);
  }

  lemma MetadataParsesAgain(z: Zod, candidate: Json)
    requires Parse(z, VideoMetadataShape, candidate).Some?
    ensures var m := Parse(z, VideoMetadataShape, candidate).value; Parse(z, VideoMetadataShape, m) == Some(m)
  {
    hide Parse, VideoMetadataShape;
    MetadataWellFormed();
    ParseIdempotent(z, VideoMetadataShape, candidate);
  }

  lemma ChildSucceedsStep(c: Config, s: System, t: System, kind: JobKind, v: string, m: Json)
    requires Inv(c, s) && ChildOpen(s.jobs, kind, v)
    requires kind.MetadataJob? ==> Parse(c.z, VideoMetadataShape, m) == Some(m)
    requires t == s.(jobs := s.jobs[KeyOf(kind, v) := Tried(s.jobs[KeyOf(kind, v)], Succeeded(ChildValue(kind, v, m)))])
    ensures Inv(c, t) && Grows(s, t)
  {
    hide Inv, KeyOf, ChildKinds, Grows, IsUuid, HasFlow, Started, Parse, VideoMetadataShape, ChildValue;
    JobOfKind(c, s, kind, v);
    OneJobChanged(c, s, t, KeyOf(kind, v), Succeeded(ChildValue(kind, v, m)));
  }

  // ----- steps of an orchestrator attempt

  /** An attempt moved on and nothing else changed. */
  lemma AttemptMoved(c: Config, s: System, t: System, a: nat, pc: AttemptPc)
    requires Inv(c, s) && a < |s.attempts| && t == AttemptAt(s, a, pc) && AttemptOk(c, t, t.attempts[a])
    ensures Inv(c, t) && Grows(s, t)
  {
    hide BrokerLaws.Sound, RowOk, JobOk, HandlerOk, AttemptOk, AnnouncementOk, Filed, IsUuid, TakenUp, KeyOf;
    Carry(c, s, t);
  }

  /** A video with a flow was claimed. */
  lemma FlowOwner(c: Config, s: System, v: string)
    requires Inv(c, s) && HasFlow(s.jobs, v)
    ensures IsUuid(v) && Started(s.table, v)
  {
    hide Inv, KeyOf, IsUuid, Started, ChildResultOk, ChildKinds;
    JobOfKind(c, s, Orchestrator, v);
  }

  /** Starting an attempt charges the orchestrator job and nothing else. */
  lemma AttemptCharged(c: Config, s: System, t: System, v: string)
    requires Inv(c, s) && Runnable(c.heights, s.jobs, v) && s.jobs[KeyOf(Orchestrator, v)].tries < ATTEMPTS
    requires t == s.(jobs := s.jobs[KeyOf(Orchestrator, v) := Tried(s.jobs[KeyOf(Orchestrator, v)], Open)])
    ensures Inv(c, t) && Grows(s, t) && Runnable(c.heights, t.jobs, v)
  {
    hide BrokerLaws.Sound, RowOk, HandlerOk, AttemptOk, AnnouncementOk, IsUuid, TakenUp, ChildResultOk, KeyOf;
    hide ChildKinds, QueuesOk, JobsGrow, Filed, AllSucceeded, SomeExhausted, Inv;
    var k := KeyOf(Orchestrator, v);
    JobOfKind(c, s, Orchestrator, v);
    StoreFiled(c, s);
    OpenJobChanged(s.jobs, k, t.jobs[k]);
    StoreFactsStay(c.heights, s.jobs, t.jobs, v);
    assert JobOk(c, t, k);
    assert Grows(s, t);
    JobChangedCarry(c, s, t, k);
  }

  lemma StoreFiled(c: Config, s: System)
    requires Inv(c, s)
    ensures Filed(s.jobs)
  {
    hide QueuesOk, RowOk, JobOk, HandlerOk, AttemptOk, AnnouncementOk, Filed;
  }

  lemma AttemptAdded(c: Config, s: System, t: System, v: string)
    requires Inv(c, s) && Runnable(c.heights, s.jobs, v)
    requires t == s.(attempts := s.attempts + [Attempt(v, Reading)])
    ensures Inv(c, t) && Grows(s, t)
  {
    hide BrokerLaws.Sound, RowOk, JobOk, HandlerOk, AnnouncementOk, Filed, IsUuid, TakenUp, AllSucceeded;
    hide SomeExhausted;
    hide ChildKinds, KeyOf, Started;
    FlowOwner(c, s, v);
    assert AttemptOk(c, t, t.attempts[|s.attempts|]);
    Carry(c, s, t);
  }

  /** Child keys are visible text without white space at their ends. */
  lemma ChildKeyTrimmed(kind: JobKind, v: string)
    requires IsUuid(v)
    ensures Trimmed(ChildKey(kind, v)) && Trim(ChildKey(kind, v)) == ChildKey(kind, v) && ChildKey(kind, v) != ""
  {
    hide Decimal, Trim;
    var key := ChildKey(kind, v);
    assert key[0] == 'b';
    if kind.EncodeJob? {
      var digits := Decimal(kind.height);
      assert key[|key| - 1] == digits[|digits| - 1];
    } else {
      assert key[|key| - 1] == v[35] && IsHex(v[35]);
    }
  }

  lemma FailuresListed(heights: seq<nat>, jobs: Store, v: string, failures: seq<(string, string)>)
    requires multiset(failures) == multiset(ChildrenFailures(heights, jobs, v))
    ensures failures != [] <==> SomeExhausted(heights, jobs, v)
    ensures forall i :: 0 <= i < |failures| ==> FromChild(heights, jobs, v, failures[i])
  {
    hide ChildKinds, KeyOf, ChildKey, FlatMap, FromChild;
    var f, kinds := FailureEntry(jobs, v), ChildKinds(heights);
    FlatMapEmpty(f, kinds);
    AggregationLaws.SameLength(failures, FlatMap(f, kinds));
    if SomeExhausted(heights, jobs, v) {
      var kind :| kind in kinds && InState(jobs, kind, v, false);
      assert f(kind) != [];
    }
    forall i | 0 <= i < |failures| ensures FromChild(heights, jobs, v, failures[i]) && SomeExhausted(heights, jobs, v) {
      assert failures[i] in multiset(FlatMap(f, kinds));
      ListedFromChild(heights, jobs, v, failures[i]);
    }
  }

  lemma ListedFromChild(heights: seq<nat>, jobs: Store, v: string, e: (string, string))
    requires e in ChildrenFailures(heights, jobs, v)
    ensures FromChild(heights, jobs, v, e) && SomeExhausted(heights, jobs, v)
  {
    hide ChildKinds, KeyOf, ChildKey, FlatMap;
    var f, kinds := FailureEntry(jobs, v), ChildKinds(heights);
    FlatMapSource(f, kinds, e);
    var j :| 0 <= j < |kinds| && e in f(kinds[j]);
    assert kinds[j] in kinds;
  }

  lemma StartAttemptStep(c: Config, s: System, t: System, v: string)
    requires Inv(c, s) && Runnable(c.heights, s.jobs, v) && s.jobs[KeyOf(Orchestrator, v)].tries < ATTEMPTS
    requires t == s.(attempts := s.attempts + [Attempt(v, Reading)],
                     jobs := s.jobs[KeyOf(Orchestrator, v) := Tried(s.jobs[KeyOf(Orchestrator, v)], Open)])
    ensures Inv(c, t) && Grows(s, t)
  {
    hide Inv, QueuesGrow, Advances, JobsGrow, KeyOf, AllSucceeded, SomeExhausted;
    var charged := s.(jobs := t.jobs);
    AttemptCharged(c, s, charged, v);
    AttemptAdded(c, charged, t, v);
  }

  lemma StopStep(c: Config, s: System, t: System, a: nat)
    requires Inv(c, s) && a < |s.attempts| && t == AttemptAt(s, a, Stopped)
    ensures Inv(c, t) && Grows(s, t)
  {
    hide QueuesOk, RowOk, JobOk, HandlerOk, AnnouncementOk, Filed, IsUuid, KeyOf, AllSucceeded, SomeExhausted, Grows;
    assert AttemptOk(c, s, s.attempts[a]);
    AttemptMoved(c, s, t, a, Stopped);
  }

  lemma ReadFailuresStep(c: Config, s: System, t: System, a: nat, failures: seq<(string, string)>)
    requires Inv(c, s) && a < |s.attempts| && s.attempts[a].pc.Reading?
    requires multiset(failures) == multiset(ChildrenFailures(c.heights, s.jobs, s.attempts[a].videoId))
    requires t == AttemptAt(s, a, if |failures| > 0 then Purging(failures) else Collecting)
    ensures Inv(c, t) && Grows(s, t)
  {
    hide QueuesOk, RowOk, JobOk, HandlerOk, AnnouncementOk, Filed, IsUuid, KeyOf, AllSucceeded, SomeExhausted;
    hide FromChild;
    hide ChildrenFailures, Grows;
    assert AttemptOk(c, s, s.attempts[a]);
    FailuresListed(c.heights, s.jobs, s.attempts[a].videoId, failures);
    AttemptMoved(c, s, t, a, if |failures| > 0 then Purging(failures) else Collecting);
  }

  /** Aggregating failed children gives a valid failed result in normal form that names exactly those children. */
  lemma PurgedVerdict(c: Config, s: System, v: string, failures: seq<(string, string)>)
    requires Distinct(c.heights) && IsUuid(v) && failures != [] && SomeExhausted(c.heights, s.jobs, v)
    requires forall i :: 0 <= i < |failures| ==> FromChild(c.heights, s.jobs, v, failures[i])
    ensures var o := Aggregation.Aggregate(c.z, c.heights, v, [], failures);
      && o.Returned? && Justified(c, s.jobs, v, o.result)
      && o.result.Failed? && |o.result.failures| == |failures|
      && forall i :: 0 <= i < |failures| ==> Aggregation.Reports(o.result.failures[i], failures[i].0, failures[i].1)
  {
    hide Aggregation.Aggregate, SomeExhausted, IsUuid, ValidResult, Tidy, Trim, FromChild, Names;
    AggregationLaws.FailuresReported(c.z, c.heights, v, [], failures);
    AggregationLaws.OutputValid(c.z, c.heights, v, [], failures);
    var fs := Aggregation.Aggregate(c.z, c.heights, v, [], failures).result.failures;
    forall i | 0 <= i < |failures|
      ensures Trimmed(failures[i].0) && Trim(failures[i].0) != "" && Names(c.heights, s.jobs, v, fs[i])
    {
      ReportedChild(c.heights, s.jobs, v, failures[i], fs[i]);
    }
  }

  lemma ReportedChild(heights: seq<nat>, jobs: Store, v: string, e: (string, string), f: Failure)
    requires IsUuid(v) && FromChild(heights, jobs, v, e) && Aggregation.Reports(f, e.0, e.1)
    ensures Trimmed(e.0) && Trim(e.0) != "" && Names(heights, jobs, v, f)
  {
    hide ChildKey, ChildKinds, KeyOf, IsUuid, Trim, Aggregation.Reports;
    var kind :| kind in ChildKinds(heights) && InState(jobs, kind, v, false) && e == FailureOf(jobs, v, kind);
    ChildKeyTrimmed(kind, v);
  }

  lemma PurgeStep(c: Config, s: System, t: System, a: nat, removed: set<Key>)
    requires Inv(c, s) && Distinct(c.heights) && a < |s.attempts| && s.attempts[a].pc.Purging?
    requires forall k :: k in removed ==> k in s.jobs && s.jobs[k].kind != Orchestrator && s.jobs[k].state.Open?
    requires var at := s.attempts[a];
      t == AttemptAt(s, a, Aggregated(Aggregation.Aggregate(c.z, c.heights, at.videoId, [], at.pc.failures)))
           .(jobs := s.jobs - removed)
    ensures Inv(c, t) && Grows(s, t)
  {
    hide BrokerLaws.Sound, RowOk, JobOk, HandlerOk, AnnouncementOk, IsUuid, TakenUp, AllSucceeded, SomeExhausted;
    hide Aggregation.Aggregate, JobsGrow, Filed, KeyOf, Justified, FromChild;
    var at := s.attempts[a];
    assert AttemptOk(c, s, at);
    PurgedVerdict(c, s, at.videoId, at.pc.failures);
    OpenJobsRemoved(s.jobs, removed);
    JustifiedStays(c, s.jobs, t.jobs, at.videoId, t.attempts[a].pc.result);
    StoreFactsStay(c.heights, s.jobs, t.jobs, at.videoId);
    Carry(c, s, t);
  }

  // ----- collecting the children's results

  lemma RenditionKeyTrimmed(v: string, h: nat)
    ensures Trimmed(RenditionKey(v, h)) && RenditionKey(v, h) != ""
  {
    hide Decimal;
    var k := RenditionKey(v, h);
    assert k[0] == 'v' && k[|k| - 1] == '4';
  }

  function ChildOf(kind: JobKind, v: string, m: Json): ChildResult {
    match kind
    case EncodeJob(h) => Transcode(TranscodeChild(v, h, RenditionKey(v, h)))
    case _ => Metadata(MetadataChild(v, m))
  }

  /** What a worker returned reads back as it was. */
  lemma ChildValueReadsBack(z: Zod, heights: seq<nat>, kind: JobKind, v: string, m: Json)
    requires IsUuid(v) && (kind.MetadataJob? ==> Parse(z, VideoMetadataShape, m) == Some(m))
    requires kind == MetadataJob || (kind.EncodeJob? && kind.height in heights)
    ensures ReadChild(z, heights, ChildValue(kind, v, m)) == Some(ChildOf(kind, v, m))
  {
    hide Parse, ReadChild, RenditionKey, IsUuid, VideoMetadataShape, IsMetadata, TrimLabels;
    MetadataAccepted(z, m);
    ChildReadsBack(z, heights, ChildOf(kind, v, m));
    if kind.EncodeJob? { RenditionKeyTrimmed(v, kind.height); }
  }

  /** Each succeeded child holds a value of its own kind and video; `m` is the metadata for the metadata job. */
  lemma SucceededValue(c: Config, s: System, kind: JobKind, v: string) returns (m: Json)
    requires Inv(c, s) && kind != Orchestrator && InState(s.jobs, kind, v, true)
    ensures s.jobs[KeyOf(kind, v)].state.value == ChildValue(kind, v, m)
    ensures kind.MetadataJob? ==> Parse(c.z, VideoMetadataShape, m) == Some(m)
  {
    hide BrokerLaws.Sound, QueuesOk, RowOk, HandlerOk, AttemptOk, AnnouncementOk, KeyOf, Parse, ChildValue, Inv;
    hide ChildKinds;
    JobOfKind(c, s, kind, v);
    var job := s.jobs[KeyOf(kind, v)];
    m :| job.state.value == ChildValue(kind, v, m)
         && (kind.MetadataJob? ==> Parse(c.z, VideoMetadataShape, m) == Some(m));
  }

  ghost function ValueEntry(jobs: Store, v: string, kind: JobKind): (string, Json) {
    (ChildKey(kind, v), if InState(jobs, kind, v, true) then jobs[KeyOf(kind, v)].state.value else JNull)
  }

  lemma ValuesListed(heights: seq<nat>, jobs: Store, v: string)
    requires AllSucceeded(heights, jobs, v)
    ensures var kinds := ChildKinds(heights);
      ChildrenValues(heights, jobs, v) == seq(|kinds|, i requires 0 <= i < |kinds| => ValueEntry(jobs, v, kinds[i]))
  {
    hide ChildKey, KeyOf, ChildKinds;
    var kinds := ChildKinds(heights);
    forall i | 0 <= i < |kinds| ensures SuccessEntry(jobs, v)(kinds[i]) == [ValueEntry(jobs, v, kinds[i])] {
      assert InState(jobs, kinds[i], v, true);
    }
    FlatMapSingle(SuccessEntry(jobs, v), kinds,
                  seq(|kinds|, i requires 0 <= i < |kinds| => ValueEntry(jobs, v, kinds[i])));
  }

  lemma EntryReadsBack(c: Config, s: System, kind: JobKind, v: string, m: Json)
    requires Inv(c, s) && IsUuid(v) && AllSucceeded(c.heights, s.jobs, v) && kind in ChildKinds(c.heights)
    requires kind.MetadataJob? ==> ValueEntry(s.jobs, v, kind).1 == ChildValue(kind, v, m)
                                   && Parse(c.z, VideoMetadataShape, m) == Some(m)
    ensures ReadChild(c.z, c.heights, ValueEntry(s.jobs, v, kind).1) == Some(ChildOf(kind, v, m))
  {
    hide Parse, ReadChild, Inv, IsUuid, KeyOf, ChildKey;
    assert InState(s.jobs, kind, v, true);
    if kind.EncodeJob? {
      var m' := SucceededValue(c, s, kind, v);
    }
    ChildValueReadsBack(c.z, c.heights, kind, v, m);
  }

  lemma CollectedVerdict(c: Config, s: System, v: string, entries: seq<(string, Json)>)
    requires Inv(c, s) && Distinct(c.heights) && IsUuid(v) && AllSucceeded(c.heights, s.jobs, v)
    requires multiset(entries) == multiset(ChildrenValues(c.heights, s.jobs, v))
    ensures var o := Aggregation.Aggregate(c.z, c.heights, v, entries, []);
      o.Returned? && o.result.Completed? && Justified(c, s.jobs, v, o.result)
  {
    hide Parse, ReadChild, Inv, IsUuid, KeyOf, ChildKey, Aggregation.Aggregate, ValidResult, ValueEntry;
    hide AllSucceeded, FlatMap;
    var kinds, rs := ChildKinds(c.heights), Renditions(c.heights, v);
    assert kinds[0] == MetadataJob && MetadataJob in kinds;
    assert InState(s.jobs, MetadataJob, v, true) by { AllSucceededAt(c.heights, s.jobs, v, MetadataJob); }
    var m := SucceededValue(c, s, MetadataJob, v);
    assert ValueEntry(s.jobs, v, MetadataJob).1 == ChildValue(MetadataJob, v, m) by {
      EntryValue(s.jobs, v, MetadataJob);
    }
    var list := ChildrenValues(c.heights, s.jobs, v);
    ValuesListed(c.heights, s.jobs, v);
    forall i | 0 <= i < |kinds| ensures ReadChild(c.z, c.heights, list[i].1) == Some(ChildOf(kinds[i], v, m)) {
      assert kinds[i] in kinds;
      EntryReadsBack(c, s, kinds[i], v, m);
    }
    var meta := MetadataChild(v, m);
    assert Aggregation.Values(c.z, c.heights, list) == Aggregation.Expected(meta, rs);
    assert Aggregation.Assembles(c.z, c.heights, v, list, meta, rs);
    AggregationLaws.AssemblesReorder(c.z, c.heights, v, list, entries, meta, rs);
    AggregationLaws.CompletesWhenAssembled(c.z, c.heights, v, entries, meta, rs);
    AggregationLaws.OutputValid(c.z, c.heights, v, entries, []);
  }

  lemma AllSucceededAt(heights: seq<nat>, jobs: Store, v: string, kind: JobKind)
    requires AllSucceeded(heights, jobs, v) && kind in ChildKinds(heights)
    ensures InState(jobs, kind, v, true)
  {}

  lemma EntryValue(jobs: Store, v: string, kind: JobKind)
    requires InState(jobs, kind, v, true)
    ensures ValueEntry(jobs, v, kind).1 == jobs[KeyOf(kind, v)].state.value
  {}

  lemma CollectStep(c: Config, s: System, t: System, a: nat, entries: seq<(string, Json)>)
    requires Inv(c, s) && Distinct(c.heights) && a < |s.attempts| && s.attempts[a].pc.Collecting?
    requires multiset(entries) == multiset(ChildrenValues(c.heights, s.jobs, s.attempts[a].videoId))
    requires t == AttemptAt(s, a, Aggregated(Aggregation.Aggregate(c.z, c.heights, s.attempts[a].videoId, entries, [])))
    ensures Inv(c, t) && Grows(s, t)
  {
    hide QueuesOk, RowOk, JobOk, HandlerOk, AnnouncementOk, Filed, IsUuid, KeyOf, AllSucceeded, SomeExhausted;
    hide ChildrenValues, Grows, Aggregation.Aggregate, Justified;
    var at := s.attempts[a];
    assert AttemptOk(c, s, at);
    CollectedVerdict(c, s, at.videoId, entries);
    AttemptMoved(c, s, t, a, t.attempts[a].pc);
  }

  /** The row after an attempt's update, whether or not it wrote. */
  lemma RecordedRow(c: Config, s: System, t: System, v: string, r: PipelineResult, now: int)
    requires Inv(c, s) && Justified(c, s.jobs, v, r) && Started(s.table, v)
    requires t.table == Exec(s.table, SetResult(r, now)) && t.jobs == s.jobs && t.queues == s.queues
    ensures Advances(s.table, t.table) && Ended(t.table, v)
    ensures Writes(s.table, SetResult(r, now)) ==> Holds(t.table, v, r)
    ensures forall w :: w in t.table && (w !in s.table || t.table[w] != s.table[w]) ==> RowOk(c, t, w)
  {
    hide QueuesOk, JobOk, HandlerOk, AttemptOk, AnnouncementOk, Filed, Justified;
    TableInOrder(c, s);
    JustifiedFacts(c, s.jobs, v, r);
    StatementStep(s.table, SetResult(r, now));
    assert RowOk(c, s, v);
  }

  lemma RecordStep(c: Config, s: System, t: System, a: nat, now: int)
    requires Inv(c, s) && a < |s.attempts| && s.attempts[a].pc.Storing?
    requires var r := s.attempts[a].pc.result;
      t == AttemptAt(s, a, if Writes(s.table, SetResult(r, now)) then Announcing(r) else Looking(r))
           .(table := Exec(s.table, SetResult(r, now)))
    ensures Inv(c, t) && Grows(s, t)
  {
    hide BrokerLaws.Sound, RowOk, JobOk, HandlerOk, AnnouncementOk, Filed, IsUuid, TakenUp, KeyOf, AllSucceeded;
    hide SomeExhausted, Justified, Exec, Writes, Advances;
    var at := s.attempts[a];
    assert AttemptOk(c, s, at);
    JustifiedFacts(c, s.jobs, at.videoId, at.pc.result);
    RecordedRow(c, s, t, at.videoId, at.pc.result, now);
    RowFactsStay(s.table, t.table, at.videoId);
    Carry(c, s, t);
  }

  /** A terminal row reads back as the very result it holds. */
  lemma StoredReadsBack(c: Config, s: System, v: string)
    requires Inv(c, s) && Ended(s.table, v)
    ensures s.table[v].result.Some? && Holds(s.table, v, s.table[v].result.value)
    ensures ReadBack(c.z, c.heights, s.table, v) == Finished(s.table[v].result.value)
    ensures TerminalPayload(c.z, c.heights, s.table[v].result.value) == Some(s.table[v].result.value)
  {
    hide QueuesOk, JobOk, HandlerOk, AttemptOk, AnnouncementOk, Filed, Justified, ReadResult, ResultJson;
    hide ValidResult, Tidy;
    hide TerminalPayload;
    assert RowOk(c, s, v);
    var stored := s.table[v].result.value;
    JustifiedFacts(c, s.jobs, v, stored);
    StoredResultReadsBack(c.z, c.heights, stored);
    TerminalPayloadIsTidy(c.z, c.heights, stored);
  }

  lemma LookUpStep(c: Config, s: System, t: System, a: nat)
    requires Inv(c, s) && a < |s.attempts| && s.attempts[a].pc.Looking?
    requires t == AttemptAt(s, a, match ReadBack(c.z, c.heights, s.table, s.attempts[a].pc.result.videoId)
                                  case Finished(p) => Announcing(p) case _ => Threw)
    ensures Inv(c, t) && Grows(s, t)
  {
    hide QueuesOk, RowOk, JobOk, HandlerOk, AnnouncementOk, Filed, IsUuid, KeyOf, AllSucceeded, SomeExhausted;
    hide ReadBack;
    hide TerminalPayload, Grows;
    assert AttemptOk(c, s, s.attempts[a]);
    StoredReadsBack(c, s, s.attempts[a].videoId);
    AttemptMoved(c, s, t, a, t.attempts[a].pc);
  }

  lemma AnnounceStep(c: Config, s: System, t: System, a: nat)
    requires Inv(c, s) && a < |s.attempts| && s.attempts[a].pc.Announcing?
    requires var r := s.attempts[a].pc.result;
      t == match TerminalPayload(c.z, c.heights, r)
           case None => AttemptAt(s, a, Threw)
           case Some(p) =>
             AttemptAt(s, a, Announced(r))
               .(published := s.published + [Announcement(s.attempts[a].videoId, RoutingKey(r), p)])
    ensures Inv(c, t) && Grows(s, t)
  {
    hide BrokerLaws.Sound, RowOk, JobOk, HandlerOk, Filed, IsUuid, TakenUp, KeyOf, AllSucceeded, SomeExhausted;
    hide ReadBack, TerminalPayload, RoutingKey;
    var at := s.attempts[a];
    assert AttemptOk(c, s, at);
    StoredReadsBack(c, s, at.videoId);
    assert t.published[|s.published|] == Announcement(at.videoId, RoutingKey(at.pc.result), at.pc.result);
    assert WasPublished(t, at.videoId, at.pc.result);
    Carry(c, s, t);
  }

  lemma ReturnStep(c: Config, s: System, t: System, a: nat)
    requires Inv(c, s) && a < |s.attempts| && s.attempts[a].pc.Announced?
    requires t == AttemptAt(s, a, Returned(s.attempts[a].pc.result))
    ensures Inv(c, t) && Grows(s, t)
  {
    hide QueuesOk, RowOk, JobOk, HandlerOk, AnnouncementOk, Filed, IsUuid, KeyOf, AllSucceeded, SomeExhausted, Grows;
    assert AttemptOk(c, s, s.attempts[a]);
    AttemptMoved(c, s, t, a, Returned(s.attempts[a].pc.result));
  }

  // ----- every step

  lemma HandlerTookUp(c: Config, s: System, h: nat)
    requires Inv(c, s) && (AtHandler(s, h, Skipped) || AtHandler(s, h, FlowRequested))
    ensures var g := s.handlers[h];
      g.copy < |s.queues.copies| && s.queues.copies[g.copy].content == g.videoId && TakenUp(s, g.videoId)
  {
    hide QueuesOk, RowOk, JobOk, AttemptOk, AnnouncementOk, Filed, IsUuid, KeyOf;
    assert HandlerOk(s, s.handlers[h]);
  }

  lemma StepOfHandler(c: Config, s: System, e: Event)
    requires Inv(c, s) && Enabled(c, s, e)
    requires OfUpload(e) && !e.Upload? && !e.Queue?
    ensures Inv(c, Next(c, s, e)) && Grows(s, Next(c, s, e))
  {
    hide Inv, Grows, TakenUp, Exec, Writes, AddFlow, Broker.Next, Runnable, ChildOpen, ChildrenValues;
    hide ChildrenFailures;
    hide Parse, Aggregation.Aggregate, ReadBack, TerminalPayload, ChildValue, KeyOf, IsUuid;
    var t := Next(c, s, e);
    match e
    case Deliver(i) => DeliverStep(c, s, t, i);
    case Insert(h, now) => InsertStep(c, s, t, h, now);
    case Update(h, now) => UpdateStep(c, s, t, h, now);
    case Check(h) => CheckStep(c, s, t, h);
    case CreateFlow(h) => CreateFlowStep(c, s, t, h);
    case HandlerReturns(h) =>
      HandlerTookUp(c, s, h);
      QueueStep(c, s, t, Broker.Succeed(s.handlers[h].copy));
    case HandlerFails(h) => HandlerFailsStep(c, s, t, h);
    case HandlerStops(h) => HandlerStopsStep(c, s, t, h);
  }

  lemma StepOfChild(c: Config, s: System, e: Event)
    requires Inv(c, s) && Enabled(c, s, e) && (e.ChildFails? || e.ChildSucceeds?)
    ensures Inv(c, Next(c, s, e)) && Grows(s, Next(c, s, e))
  {
    hide Inv, Grows, Exec, Writes, AddFlow, Broker.Next, Broker.Enabled, Runnable, ChildrenValues, ChildrenFailures;
    hide Parse, VideoMetadataShape, Aggregation.Aggregate, ReadBack, TerminalPayload, ChildValue, KeyOf, IsUuid;
    var t := Next(c, s, e);
    match e
    case ChildFails(kind, v, reason) => ChildFailsStep(c, s, t, kind, v, reason);
    case ChildSucceeds(kind, v, candidate) =>
      if kind.MetadataJob? { MetadataParsesAgain(c.z, candidate); }
      ChildSucceedsStep(c, s, t, kind, v,
        if kind.MetadataJob? then Parse(c.z, VideoMetadataShape, candidate).value else JNull);
  }

  lemma StepOfAttempt(c: Config, s: System, e: Event)
    requires Inv(c, s) && Distinct(c.heights) && Enabled(c, s, e)
    requires !OfUpload(e) && !e.ChildFails? && !e.ChildSucceeds?
    ensures Inv(c, Next(c, s, e)) && Grows(s, Next(c, s, e))
  {
    hide Inv, Grows, Exec, Writes, AddFlow, Broker.Next, Broker.Enabled, Runnable, ChildrenValues, ChildrenFailures;
    hide Parse, VideoMetadataShape, Aggregation.Aggregate, ReadBack, TerminalPayload, ChildValue, KeyOf, IsUuid;
    hide Distinct;
    var t := Next(c, s, e);
    match e
    case StartAttempt(v) => StartAttemptStep(c, s, t, v);
    case ReadFailures(a, failures) => ReadFailuresStep(c, s, t, a, failures);
    case Purge(a, removed) => PurgeStep(c, s, t, a, removed);
    case Collect(a, entries) => CollectStep(c, s, t, a, entries);
    case Record(a, now) => RecordStep(c, s, t, a, now);
    case LookUp(a) => LookUpStep(c, s, t, a);
    case Announce(a) => AnnounceStep(c, s, t, a);
    case Return(a) => ReturnStep(c, s, t, a);
    case Stop(a) => StopStep(c, s, t, a);
  }

  lemma StepOfQueue(c: Config, s: System, e: Event)
    requires Inv(c, s) && Enabled(c, s, e) && (e.Upload? || e.Queue?)
    ensures Inv(c, Next(c, s, e)) && Grows(s, Next(c, s, e))
  {
    hide Inv, Grows, TakenUp, Exec, Writes, AddFlow, Broker.Next, Runnable, ChildOpen, ChildrenValues;
    hide ChildrenFailures;
    hide Parse, Aggregation.Aggregate, ReadBack, TerminalPayload, ChildValue, KeyOf, IsUuid;
    QueueStep(c, s, Next(c, s, e), if e.Upload? then Broker.Arrive(e.videoId) else e.step);
  }

  /** Every step keeps the invariant, and undoes nothing that only grows. */
  lemma Step(c: Config, s: System, e: Event)
    requires Inv(c, s) && Distinct(c.heights) && Enabled(c, s, e)
    ensures Inv(c, Next(c, s, e)) && Grows(s, Next(c, s, e))
  {
    hide Inv, Grows, Next, Enabled;
    if e.Upload? || e.Queue? {
      StepOfQueue(c, s, e);
    } else if e.ChildFails? || e.ChildSucceeds? {
      StepOfChild(c, s, e);
    } else if OfUpload(e) {
      StepOfHandler(c, s, e);
    } else {
      StepOfAttempt(c, s, e);
    }
  }

  lemma InitialInv(c: Config)
    ensures Inv(c, Initial())
  {
    BrokerLaws.EmptySound<string>(c.maxRetries);
  }

  lemma {:induction false} RunInv(c: Config, s: System, events: seq<Event>)
    requires Inv(c, s) && Distinct(c.heights) && Pipeline.Legal(c, s, events)
    ensures Inv(c, Pipeline.Run(c, s, events))
    decreases |events|
  {
    hide Inv, Grows, Next, Enabled;
    if events != [] {
      Step(c, s, events[0]);
      RunInv(c, Next(c, s, events[0]), events[1..]);
    }
  }
}
