/**
 The processing service as one system: the upload subscription, the processing table, the job store, any number of
 replicas handling uploads and orchestrating flows, and the terminal events published.

 Each step is one atomic effect.  A handler or an attempt can stop between any two of its effects, because its process
 died, a statement failed, or a confirm was lost; a delivery can return to its queue at any time while the handler
 that had it goes on.  Assumed of the job store: a parent becomes runnable once all its children succeeded or some
 child exhausted its attempts, children succeed or fail for good, and every start of an orchestrator attempt uses up
 one of the attempts its job was created with.
 */
module Pipeline {
  import opened Seqs
  import opened Schema
  import opened Contracts
  import opened Events
  import Aggregation
  import opened Rows
  import Broker
  import opened Jobs

  datatype Config = Config(z: Zod, heights: seq<nat>, maxRetries: nat)

  /** handleVideoUploaded: insert, update, perhaps select, perhaps add the flow; or it threw or died before its end. */
  datatype HandlerPc = Begin | Inserted | Missed | Active | Skipped | FlowRequested | Halted
  datatype Handler = Handler(copy: nat, tag: nat, videoId: string, pc: HandlerPc)

  /** One attempt of the orchestrator processor.  Threw: its own code threw; Stopped: it died or an effect failed. */
  datatype AttemptPc =
    | Reading
    | Purging(failures: seq<(string, string)>)
    | Collecting
    | Storing(result: PipelineResult)
    | Looking(result: PipelineResult)
    | Announcing(result: PipelineResult)
    | Announced(result: PipelineResult)
    | Returned(result: PipelineResult)
    | Threw
    | Stopped
  datatype Attempt = Attempt(videoId: string, pc: AttemptPc)

  datatype Announcement = Announcement(videoId: string, routingKey: string, payload: PipelineResult)

  datatype System = System(
    queues: Broker.Queues<string>, table: Table, jobs: Store,
    handlers: seq<Handler>, attempts: seq<Attempt>, published: seq<Announcement>)

  function Initial(): System { System(Broker.Empty(), map[], map[], [], [], []) }

  datatype Event =
    | Upload(videoId: string)
    | Deliver(copy: nat)
    | Queue(step: Broker.Step<string>)
    | Insert(h: nat, now: int)
    | Update(h: nat, now: int)
    | Check(h: nat)
    | CreateFlow(h: nat)
    | HandlerReturns(h: nat)
    | HandlerFails(h: nat)
    | HandlerStops(h: nat)
    | ChildFails(kind: JobKind, videoId: string, reason: string)
    | ChildSucceeds(kind: JobKind, videoId: string, candidate: Json)
    | StartAttempt(videoId: string)
    | ReadFailures(a: nat, failures: seq<(string, string)>)
    | Purge(a: nat, removed: set<Key>)
    | Collect(a: nat, entries: seq<(string, Json)>)
    | Record(a: nat, now: int)
    | LookUp(a: nat)
    | Announce(a: nat)
    | Return(a: nat)
    | Stop(a: nat)

  // ----- the job store as an attempt sees it

  predicate InState(jobs: Store, kind: JobKind, v: string, succeeded: bool) {
    KeyOf(kind, v) in jobs
    && (if succeeded then jobs[KeyOf(kind, v)].state.Succeeded? else jobs[KeyOf(kind, v)].state.Exhausted?)
  }

  predicate AllSucceeded(heights: seq<nat>, jobs: Store, v: string) {
    forall kind :: kind in ChildKinds(heights) ==> InState(jobs, kind, v, true)
  }

  predicate SomeExhausted(heights: seq<nat>, jobs: Store, v: string) {
    exists kind :: kind in ChildKinds(heights) && InState(jobs, kind, v, false)
  }

  predicate Runnable(heights: seq<nat>, jobs: Store, v: string) {
    KeyOf(Orchestrator, v) in jobs && (AllSucceeded(heights, jobs, v) || SomeExhausted(heights, jobs, v))
  }

  function SuccessEntry(jobs: Store, v: string): JobKind -> seq<(string, Json)> {
    (kind: JobKind) =>
      if InState(jobs, kind, v, true) then [(ChildKey(kind, v), jobs[KeyOf(kind, v)].state.value)] else []
  }

  function FailureEntry(jobs: Store, v: string): JobKind -> seq<(string, string)> {
    (kind: JobKind) =>
      if InState(jobs, kind, v, false) then [(ChildKey(kind, v), jobs[KeyOf(kind, v)].state.reason)] else []
  }

  /** getChildrenValues, up to the order of its entries. */
  function ChildrenValues(heights: seq<nat>, jobs: Store, v: string): seq<(string, Json)> {
    FlatMap(SuccessEntry(jobs, v), ChildKinds(heights))
  }

  /** getIgnoredChildrenFailures, up to the order of its entries. */
  function ChildrenFailures(heights: seq<nat>, jobs: Store, v: string): seq<(string, string)> {
    FlatMap(FailureEntry(jobs, v), ChildKinds(heights))
  }

  // ----- steps

  predicate AtHandler(s: System, h: nat, pc: HandlerPc) { h < |s.handlers| && s.handlers[h].pc == pc }

  /** The delivery given to this handler is still its own. */
  predicate HasDelivery(s: System, g: Handler) {
    g.copy < |s.queues.copies| && s.queues.copies[g.copy].place == Broker.InFlight(g.tag, Broker.Running)
  }

  predicate ChildOpen(jobs: Store, kind: JobKind, v: string) {
    kind != Orchestrator && KeyOf(kind, v) in jobs && jobs[KeyOf(kind, v)].state.Open?
  }

  predicate Enabled(c: Config, s: System, e: Event) {
    match e
    case Upload(v) => IsUuid(v)
    case Deliver(i) => Broker.Enabled(s.queues, Broker.Consume(i))
    case Queue(step) =>
      (step.Route? || step.Settle? || step.Expire? || step.Fault?) && Broker.Enabled(s.queues, step)
    case Insert(h, _) => AtHandler(s, h, Begin)
    case Update(h, _) => AtHandler(s, h, Inserted)
    case Check(h) => AtHandler(s, h, Missed)
    case CreateFlow(h) => AtHandler(s, h, Active)
    case HandlerReturns(h) =>
      (AtHandler(s, h, Skipped) || AtHandler(s, h, FlowRequested)) && HasDelivery(s, s.handlers[h])
    case HandlerFails(h) => h < |s.handlers| && !s.handlers[h].pc.Halted? && HasDelivery(s, s.handlers[h])
    case HandlerStops(h) => h < |s.handlers| && !s.handlers[h].pc.Halted?
    case ChildFails(kind, v, _) => ChildOpen(s.jobs, kind, v)
    case ChildSucceeds(kind, v, candidate) =>
      ChildOpen(s.jobs, kind, v) && (kind.MetadataJob? ==> Parse(c.z, VideoMetadataShape, candidate).Some?)
    case StartAttempt(v) => Runnable(c.heights, s.jobs, v) && s.jobs[KeyOf(Orchestrator, v)].tries < ATTEMPTS
    case ReadFailures(a, failures) =>
      a < |s.attempts| && s.attempts[a].pc.Reading?
      && multiset(failures) == multiset(ChildrenFailures(c.heights, s.jobs, s.attempts[a].videoId))
    case Purge(a, removed) =>
      a < |s.attempts| && s.attempts[a].pc.Purging?
      && forall k :: k in removed ==>
           && k in s.jobs && s.jobs[k].videoId == s.attempts[a].videoId && s.jobs[k].kind != Orchestrator
           && s.jobs[k].state.Open?
    case Collect(a, entries) =>
      a < |s.attempts| && s.attempts[a].pc.Collecting?
      && multiset(entries) == multiset(ChildrenValues(c.heights, s.jobs, s.attempts[a].videoId))
    case Record(a, _) => a < |s.attempts| && s.attempts[a].pc.Storing?
    case LookUp(a) => a < |s.attempts| && s.attempts[a].pc.Looking?
    case Announce(a) => a < |s.attempts| && s.attempts[a].pc.Announcing?
    case Return(a) => a < |s.attempts| && s.attempts[a].pc.Announced?
    case Stop(a) =>
      a < |s.attempts| && !s.attempts[a].pc.Returned? && !s.attempts[a].pc.Threw? && !s.attempts[a].pc.Stopped?
  }

  function HandlerAt(s: System, h: nat, pc: HandlerPc): System
    requires h < |s.handlers|
  {
    s.(handlers := s.handlers[h := s.handlers[h].(pc := pc)])
  }

  function AttemptAt(s: System, a: nat, pc: AttemptPc): System
    requires a < |s.attempts|
  {
    s.(attempts := s.attempts[a := s.attempts[a].(pc := pc)])
  }

  function Aggregated(o: Aggregation.Outcome): AttemptPc {
    match o case Returned(r) => Storing(r) case Threw(_) => Threw
  }

  function Tried(job: Job, state: JobState): Job { job.(tries := job.tries + 1, state := state) }

  predicate OfUpload(e: Event) {
    || e.Upload? || e.Queue? || e.Deliver? || e.Insert? || e.Update? || e.Check? || e.CreateFlow?
    || e.HandlerReturns? || e.HandlerFails? || e.HandlerStops?
  }

  /** A step of the subscription or of an upload handler. */
  function NextOfUpload(c: Config, s: System, e: Event): System
    requires Enabled(c, s, e)
    requires OfUpload(e)
  {
    match e
    case Upload(v) => s.(queues := Broker.Next(c.maxRetries, s.queues, Broker.Arrive(v)))
    case Queue(step) => s.(queues := Broker.Next(c.maxRetries, s.queues, step))
    case Deliver(i) =>
      s.(queues := Broker.Next(c.maxRetries, s.queues, Broker.Consume(i)),
         handlers := s.handlers + [Handler(i, |s.queues.runs|, s.queues.copies[i].content, Begin)])
    case Insert(h, now) =>
      HandlerAt(s, h, Inserted).(table := Exec(s.table, InsertPending(s.handlers[h].videoId, now)))
    case Update(h, now) =>
      var st := SetInProgress(s.handlers[h].videoId, now);
      HandlerAt(s, h, if Writes(s.table, st) then Active else Missed).(table := Exec(s.table, st))
    case Check(h) =>
      var v := s.handlers[h].videoId;
      HandlerAt(s, h, if v in s.table && s.table[v].status == InProgress then Active else Skipped)
    case CreateFlow(h) =>
      HandlerAt(s, h, FlowRequested).(jobs := AddFlow(c.heights, s.jobs, s.handlers[h].videoId))
    case HandlerReturns(h) =>
      s.(queues := Broker.Next(c.maxRetries, s.queues, Broker.Succeed(s.handlers[h].copy)))
    case HandlerFails(h) =>
      HandlerAt(s, h, Halted).(queues := Broker.Next(c.maxRetries, s.queues, Broker.Fail(s.handlers[h].copy)))
    case HandlerStops(h) => HandlerAt(s, h, Halted)
  }

  /** A step of a child job or of an orchestrator attempt. */
  function NextOfFlow(c: Config, s: System, e: Event): System
    requires Enabled(c, s, e)
    requires !OfUpload(e)
  {
    match e
    case ChildFails(kind, v, reason) =>
      var job := s.jobs[KeyOf(kind, v)];
      s.(jobs := s.jobs[KeyOf(kind, v) := Tried(job, if job.tries + 1 >= ATTEMPTS then Exhausted(reason) else Open)])
    case ChildSucceeds(kind, v, candidate) =>
      var job := s.jobs[KeyOf(kind, v)];
      var metadata := if kind.MetadataJob? then Parse(c.z, VideoMetadataShape, candidate).value else JNull;
      s.(jobs := s.jobs[KeyOf(kind, v) := Tried(job, Succeeded(ChildValue(kind, v, metadata)))])
    case StartAttempt(v) =>
      s.(attempts := s.attempts + [Attempt(v, Reading)],
         jobs := s.jobs[KeyOf(Orchestrator, v) := Tried(s.jobs[KeyOf(Orchestrator, v)], Open)])
    case ReadFailures(a, failures) => AttemptAt(s, a, if |failures| > 0 then Purging(failures) else Collecting)
    case Purge(a, removed) =>
      var v := s.attempts[a].videoId;
      AttemptAt(s, a, Aggregated(Aggregation.Aggregate(c.z, c.heights, v, [], s.attempts[a].pc.failures)))
        .(jobs := s.jobs - removed)
    case Collect(a, entries) =>
      AttemptAt(s, a, Aggregated(Aggregation.Aggregate(c.z, c.heights, s.attempts[a].videoId, entries, [])))
    case Record(a, now) =>
      var r := s.attempts[a].pc.result;
      AttemptAt(s, a, if Writes(s.table, SetResult(r, now)) then Announcing(r) else Looking(r))
        .(table := Exec(s.table, SetResult(r, now)))
    case LookUp(a) =>
      var r := s.attempts[a].pc.result;
      AttemptAt(s, a, match ReadBack(c.z, c.heights, s.table, r.videoId)
                      case Finished(p) => Announcing(p) case _ => Threw)
    case Announce(a) =>
      var r := s.attempts[a].pc.result;
      (match TerminalPayload(c.z, c.heights, r)
       case None => AttemptAt(s, a, Threw)
       case Some(p) =>
         AttemptAt(s, a, Announced(r))
           .(published := s.published + [Announcement(s.attempts[a].videoId, RoutingKey(r), p)]))
    case Return(a) => AttemptAt(s, a, Returned(s.attempts[a].pc.result))
    case Stop(a) => AttemptAt(s, a, Stopped)
  }

  function Next(c: Config, s: System, e: Event): System
    requires Enabled(c, s, e)
  {
    if OfUpload(e) then NextOfUpload(c, s, e) else NextOfFlow(c, s, e)
  }

  predicate Legal(c: Config, s: System, events: seq<Event>)
    decreases |events|
  {
    events == [] || (Enabled(c, s, events[0]) && Legal(c, Next(c, s, events[0]), events[1..]))
  }

  function Run(c: Config, s: System, events: seq<Event>): System
    requires Legal(c, s, events)
    decreases |events|
  {
    if events == [] then s else Run(c, Next(c, s, events[0]), events[1..])
  }
}
