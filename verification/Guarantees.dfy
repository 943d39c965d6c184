/** What holds in every reachable state of the processing service, whatever crashes and however messages repeat. */
module Guarantees {
  import opened Seqs
  import opened Text
  import opened Schema
  import opened Contracts
  import opened ContractLaws
  import opened S3Keys
  import opened Events
  import Aggregation
  import opened Rows
  import Broker
  import BrokerLaws
  import opened Jobs
  import opened Pipeline
  import opened PipelineLaws
  import opened ResultView

  ghost predicate Reachable(c: Config, s: System) {
    && Distinct(c.heights)
    && exists events :: Pipeline.Legal(c, Initial(), events) && Pipeline.Run(c, Initial(), events) == s
  }

  lemma ReachableInv(c: Config, s: System)
    requires Reachable(c, s)
    ensures Inv(c, s)
  {
    hide Inv;
    var events :| Pipeline.Legal(c, Initial(), events) && Pipeline.Run(c, Initial(), events) == s;
    InitialInv(c);
    RunInv(c, Initial(), events);
  }

  /** The upload message of v still lies in the main queue, in flight, in the retry queue or in the dead-letter
      queue. */
  ghost predicate Queued(s: System, v: string) {
    exists i ::
      0 <= i < |s.queues.copies| && s.queues.copies[i].content == v && BrokerLaws.Live(s.queues.copies[i].place)
  }

  // ----- no lost video

  /** Every upload message ever accepted is still queued unless its video was taken up: its flow exists or its row is
      terminal. */
  lemma NoLostUpload(c: Config, s: System, o: nat)
    requires Reachable(c, s) && o < |s.queues.arrived|
    ensures TakenUp(s, s.queues.arrived[o]) || Queued(s, s.queues.arrived[o])
  {
    hide RowOk, JobOk, HandlerOk, AttemptOk, AnnouncementOk, BrokerLaws.Total, TakenUp, KeyOf, BrokerLaws.Bounded;
    hide BrokerLaws.Accounted;
    ReachableInv(c, s);
    if o !in s.queues.done {
      assert BrokerLaws.Conserved(s.queues, o);
      BrokerLaws.TotalWitness(BrokerLaws.LiveOf(Some(o)), s.queues.copies);
      var i :| 0 <= i < |s.queues.copies| && BrokerLaws.LiveOf(Some(o))(s.queues.copies[i]) > 0;
      BrokerLaws.CopyContent(c.maxRetries, s.queues, i);
    }
  }

  /** A row that is pending or in progress has its orchestrator job, or a queued upload message. */
  lemma NoLostVideo(c: Config, s: System, v: string)
    requires Reachable(c, s) && v in s.table && !s.table[v].status.Terminal()
    ensures KeyOf(Orchestrator, v) in s.jobs || Queued(s, v)
  {
    hide JobOk, HandlerOk, AttemptOk, AnnouncementOk, BrokerLaws.Sound, KeyOf, Justified, Queued;
    ReachableInv(c, s);
    assert RowOk(c, s, v);
    var o :| 0 <= o < |s.queues.arrived| && s.queues.arrived[o] == v;
    NoLostUpload(c, s, o);
  }

  // ----- agreement

  lemma TerminalNamesDiffer()
    ensures "processing.completed" != "processing.failed"
  {
    assert "processing.completed"[11] != "processing.failed"[11];
  }

  /** All terminal events of a video carry one payload, exactly its stored result, under the name of its
      status. */
  lemma Agreement(c: Config, s: System, i: nat, j: nat)
    requires Reachable(c, s) && i < |s.published| && j < |s.published|
    requires s.published[i].videoId == s.published[j].videoId
    ensures s.published[i] == s.published[j]
    ensures var e := s.published[i];
      && Holds(s.table, e.videoId, e.payload)
      && (e.routingKey == "processing.completed" <==> s.table[e.videoId].status == RowCompleted)
      && (e.routingKey == "processing.completed" <==> e.payload.Completed?)
      && (e.routingKey == "processing.failed" <==> s.table[e.videoId].status == RowFailed)
      && (e.routingKey == "processing.failed" <==> e.payload.Failed?)
  {
    hide QueuesOk, JobOk, HandlerOk, AttemptOk, Justified;
    ReachableInv(c, s);
    assert AnnouncementOk(s, s.published[i]) && AnnouncementOk(s, s.published[j]);
    assert RowOk(c, s, s.published[i].videoId);
    TerminalNamesDiffer();
  }

  /** An attempt that returned has published the stored result and returns exactly that result. */
  lemma ReturnedWasPublished(c: Config, s: System, a: nat)
    requires Reachable(c, s) && a < |s.attempts| && s.attempts[a].pc.Returned?
    ensures var (v, r) := (s.attempts[a].videoId, s.attempts[a].pc.result);
      Holds(s.table, v, r) && WasPublished(s, v, r)
  {
    hide QueuesOk, RowOk, JobOk, HandlerOk, AnnouncementOk, WasPublished;
    ReachableInv(c, s);
    assert AttemptOk(c, s, s.attempts[a]);
  }

  /** A stored result is valid and is its own normal form: reading it back and validating it change nothing. */
  lemma StoredIsNormal(c: Config, s: System, v: string)
    requires Reachable(c, s) && v in s.table && s.table[v].result.Some?
    ensures var r := s.table[v].result.value; ValidResult(c.z, c.heights, r) && Tidy(r) == r && r.videoId == v
  {
    hide QueuesOk, JobOk, HandlerOk, AttemptOk, AnnouncementOk, ValidResult, Tidy, Justified;
    ReachableInv(c, s);
    assert RowOk(c, s, v);
    JustifiedFacts(c, s.jobs, v, s.table[v].result.value);
  }

  /** No attempt ever throws: aggregation is total, the read-back finds a valid result, and the event schema accepts
      it. */
  lemma AttemptsNeverThrow(c: Config, s: System, a: nat)
    requires Reachable(c, s) && a < |s.attempts|
    ensures !s.attempts[a].pc.Threw?
  {
    hide QueuesOk, RowOk, JobOk, HandlerOk, AnnouncementOk;
    ReachableInv(c, s);
    assert AttemptOk(c, s, s.attempts[a]);
  }

  // ----- verdicts

  lemma StoredIsJustified(c: Config, s: System, v: string)
    requires Reachable(c, s) && v in s.table && s.table[v].status.Terminal()
    ensures s.table[v].result.Some? && StatusOf(s.table[v].result.value) == s.table[v].status
    ensures Justified(c, s.jobs, v, s.table[v].result.value)
  {
    hide QueuesOk, JobOk, HandlerOk, AttemptOk, AnnouncementOk, Justified;
    ReachableInv(c, s);
    assert RowOk(c, s, v);
  }

  lemma ExhaustedTries(c: Config, s: System, kind: JobKind, v: string)
    requires Reachable(c, s) && kind in ChildKinds(c.heights) && InState(s.jobs, kind, v, false)
    ensures s.jobs[KeyOf(kind, v)].tries == 3
  {
    hide Inv, KeyOf;
    ReachableInv(c, s);
    JobOfKind(c, s, kind, v);
  }

  /** Completed only when the metadata job and the encode job of every height succeeded for this video. */
  lemma CompletedVerdictSound(c: Config, s: System, v: string)
    requires Reachable(c, s) && v in s.table && s.table[v].status == RowCompleted
    ensures InState(s.jobs, MetadataJob, v, true)
    ensures forall i :: 0 <= i < |c.heights| ==> InState(s.jobs, EncodeJob(c.heights[i]), v, true)
  {
    hide InState, AllSucceeded, Reachable, KeyOf, ValidResult, Tidy, Renditions;
    StoredIsJustified(c, s, v);
    var kinds := ChildKinds(c.heights);
    assert kinds[0] == MetadataJob;
    AllSucceededAt(c.heights, s.jobs, v, MetadataJob);
    forall i | 0 <= i < |c.heights| ensures InState(s.jobs, EncodeJob(c.heights[i]), v, true) {
      assert kinds[i + 1] == EncodeJob(c.heights[i]);
      AllSucceededAt(c.heights, s.jobs, v, kinds[i + 1]);
    }
  }

  /** Failed only when children of this video used up their attempts: each entry of the failure list names such a
      child by its key and gives the reason it failed with, and there is at least one entry. */
  lemma FailedVerdictSound(c: Config, s: System, v: string)
    requires Reachable(c, s) && v in s.table && s.table[v].status == RowFailed
    ensures s.table[v].result.Some? && s.table[v].result.value.Failed? && s.table[v].result.value.failures != []
    ensures forall f :: f in s.table[v].result.value.failures ==>
      exists kind :: kind in ChildKinds(c.heights) && InState(s.jobs, kind, v, false)
                     && s.jobs[KeyOf(kind, v)].tries == 3
                     && f.childKey == ChildKey(kind, v)
                     && var reason := s.jobs[KeyOf(kind, v)].state.reason;
                        f.error == if Trim(reason) != "" then Trim(reason) else "Child failed without an error message"
  {
    hide KeyOf, ChildKinds, ChildKey, Trim;
    StoredIsJustified(c, s, v);
    forall f | f in s.table[v].result.value.failures
      ensures exists kind :: kind in ChildKinds(c.heights) && InState(s.jobs, kind, v, false)
                             && s.jobs[KeyOf(kind, v)].tries == 3
                             && Aggregation.Reports(f, ChildKey(kind, v), s.jobs[KeyOf(kind, v)].state.reason)
    {
      assert Names(c.heights, s.jobs, v, f);
      var kind :| kind in ChildKinds(c.heights) && InState(s.jobs, kind, v, false)
                  && Aggregation.Reports(f, ChildKey(kind, v), s.jobs[KeyOf(kind, v)].state.reason);
      ExhaustedTries(c, s, kind, v);
    }
  }

  /** At most one job of each kind for a video, under the id of that kind and that video, and only for claimed rows:
      whatever is found under the id of a kind and a video is that job. */
  lemma FlowUnique(c: Config, s: System, a: Key, b: Key)
    requires Reachable(c, s) && a in s.jobs && b in s.jobs
    ensures s.jobs[a].kind == s.jobs[b].kind && s.jobs[a].videoId == s.jobs[b].videoId ==> a == b
    ensures a == KeyOf(s.jobs[a].kind, s.jobs[a].videoId) && Started(s.table, s.jobs[a].videoId)
    ensures forall kind, v :: a == KeyOf(kind, v) ==> s.jobs[a].kind == kind && s.jobs[a].videoId == v
  {
    hide QueuesOk, RowOk, HandlerOk, AttemptOk, AnnouncementOk, KeyOf;
    ReachableInv(c, s);
    assert JobOk(c, s, a);
    OneJobEach(s.jobs, a, b);
    forall kind, v | a == KeyOf(kind, v) ensures s.jobs[a].kind == kind && s.jobs[a].videoId == v {
      JobOfKind(c, s, kind, v);
    }
  }

  // ----- rows

  /** In every reachable state a row is terminal exactly when it has a result and a finish time that agree with it. */
  lemma RowsSound(c: Config, s: System)
    requires Reachable(c, s)
    ensures TableSound(s.table)
  {
    hide QueuesOk, JobOk, HandlerOk, AttemptOk, AnnouncementOk, Justified;
    ReachableInv(c, s);
    forall v | v in s.table ensures RowSound(v, s.table[v]) { assert RowOk(c, s, v); }
  }

  /** The statements a run executes on the table, in order. */
  function Statements(c: Config, s: System, events: seq<Event>): seq<Statement>
    requires Pipeline.Legal(c, s, events)
    decreases |events|
  {
    if events == [] then [] else
    var rest := Statements(c, Next(c, s, events[0]), events[1..]);
    match events[0]
    case Insert(h, now) => [InsertPending(s.handlers[h].videoId, now)] + rest
    case Update(h, now) => [SetInProgress(s.handlers[h].videoId, now)] + rest
    case Record(a, now) => [SetResult(s.attempts[a].pc.result, now)] + rest
    case _ => rest
  }

  lemma TableOfStep(c: Config, s: System, e: Event)
    requires Enabled(c, s, e)
    ensures Next(c, s, e).table ==
      match e
      case Insert(h, now) => Exec(s.table, InsertPending(s.handlers[h].videoId, now))
      case Update(h, now) => Exec(s.table, SetInProgress(s.handlers[h].videoId, now))
      case Record(a, now) => Exec(s.table, SetResult(s.attempts[a].pc.result, now))
      case _ => s.table
  {
    hide AddFlow, Broker.Next, ReadBack, TerminalPayload, Parse, ChildValue, Writes, Exec, Broker.Enabled, Runnable;
  }

  lemma {:induction false} TableOfRun(c: Config, s: System, events: seq<Event>)
    requires Pipeline.Legal(c, s, events)
    ensures Pipeline.Run(c, s, events).table == ExecAll(s.table, Statements(c, s, events))
    decreases |events|
  {
    hide Next, Enabled, Exec, Writes;
    if events != [] {
      var t := Next(c, s, events[0]);
      TableOfStep(c, s, events[0]);
      TableOfRun(c, t, events[1..]);
      var all, rest := Statements(c, s, events), Statements(c, t, events[1..]);
      if events[0].Insert? || events[0].Update? || events[0].Record? {
        assert all[1..] == rest;
      }
    }
  }

  /** Over any run of the whole service at most one handler's update claims a video; exactly one does when its row has
      left the pending status. */
  lemma OneClaimPerVideo(c: Config, events: seq<Event>, v: string)
    requires Pipeline.Legal(c, Initial(), events)
    ensures ClaimsOf(map[], Statements(c, Initial(), events), v)
            == if Started(Pipeline.Run(c, Initial(), events).table, v) then 1 else 0
  {
    TableOfRun(c, Initial(), events);
    OneClaim(map[], Statements(c, Initial(), events), v);
  }

  /** Rows only move forward, and a terminal row is never touched again. */
  lemma TerminalForGood(c: Config, s: System, events: seq<Event>)
    requires Reachable(c, s) && Pipeline.Legal(c, s, events)
    ensures var t := Pipeline.Run(c, s, events); Advances(s.table, t.table)
  {
    RowsSound(c, s);
    TableOfRun(c, s, events);
    StatementRuns(s.table, Statements(c, s, events));
  }

  // ----- the result view

  lemma {:induction false} FoundInOrder(heights: seq<nat>, v: string, rs: seq<TranscodeChild>, i: nat)
    requires Distinct(heights) && rs == Renditions(heights, v) && i < |heights|
    ensures Find(rs, heights[i]) == Some(TranscodeChild(v, heights[i], RenditionKey(v, heights[i])))
  {
    hide RenditionKey;
    if i > 0 {
      assert rs[0].resolution != heights[i];
      assert heights[1..][i - 1] == heights[i];
      assert rs[1..] == Renditions(heights[1..], v);
      FoundInOrder(heights[1..], v, rs[1..], i - 1);
    }
  }

  /** The view is ready exactly for completed rows; then every height shows the public address of its own object, and
      otherwise every rendition is pending without an address. */
  lemma ViewRefines(c: Config, s: System, publicUrl: string -> string, v: string)
    requires Reachable(c, s)
    ensures var record := if v in s.table then Some(s.table[v]) else None;
      var view := BuildVideoResult(c.z, c.heights, publicUrl, v, record);
      && (view.ready <==> v in s.table && s.table[v].status == RowCompleted)
      && view.videoId == v && view.status == (if v in s.table then s.table[v].status else Pending)
      && (view.finishedAt.Some? <==> Ended(s.table, v))
      && (v in s.table ==> view.finishedAt == s.table[v].finishedAt)
      && (view.metadata.Some? <==> view.ready)
      && (view.ready ==>
            && s.table[v].result.Some? && s.table[v].result.value.Completed?
            && view.metadata == Some(s.table[v].result.value.metadata.metadata))
      && |view.renditions| == |c.heights|
      && forall i :: 0 <= i < |c.heights| ==>
           && view.renditions[i].height == c.heights[i]
           && view.renditions[i].completed == view.ready
           && view.renditions[i].url == if view.ready then Some(publicUrl(RenditionKey(v, c.heights[i]))) else None
  {
    hide QueuesOk, JobOk, HandlerOk, AttemptOk, AnnouncementOk, ValidResult, Tidy, KeyOf;
    hide ReadResult, ResultJson, RenditionKey, Decimal, AllSucceeded, SomeExhausted, Names;
    ReachableInv(c, s);
    if v in s.table && s.table[v].result.Some? {
      assert RowOk(c, s, v);
      var stored := s.table[v].result.value;
      StoredResultReadsBack(c.z, c.heights, stored);
      if stored.Completed? {
        forall i | 0 <= i < |c.heights|
          ensures Find(stored.renditions, c.heights[i])
                  == Some(TranscodeChild(v, c.heights[i], RenditionKey(v, c.heights[i])))
        {
          FoundInOrder(c.heights, v, stored.renditions, i);
        }
      }
    } else if v in s.table {
      assert RowOk(c, s, v);
    }
  }

  lemma {:induction false} NotFound(rs: seq<TranscodeChild>, h: nat)
    requires forall i :: 0 <= i < |rs| ==> rs[i].resolution != h
    ensures Find(rs, h) == None
  {
    if rs != [] { NotFound(rs[1..], h); }
  }

  /** The heights the service uses meet the one condition on heights that the guarantees make. */
  lemma ServiceHeights()
    ensures RENDITION_HEIGHTS == [1080, 720, 480] && Distinct(RENDITION_HEIGHTS)
  {}

  lemma SampleValid()
    ensures IsUuid(SampleUuid('a'))
  {}

  lemma ThreeTimes(z: Zod, v: string)
    ensures var t := TranscodeChild(v, 1080, "k");
      var r := Completed(v, MetadataChild(v, JObject(map[])), [t, t, t]);
      (IsUuid(v) ==> ValidResult(z, RENDITION_HEIGHTS, r)) && Tidy(r) == r
  {
    hide IsUuid;
    var t := TranscodeChild(v, 1080, "k");
    assert RENDITION_HEIGHTS[0] == 1080;
    assert Trim("k") == "k";
    assert TidyTranscode(t) == t && (IsUuid(v) ==> ValidTranscode(RENDITION_HEIGHTS, t));
  }

  /** The schema alone does not give this: it accepts a completed result with one height three times, whose view would
      be ready and still show a pending rendition. */
  lemma SchemaAloneIsNotEnough(z: Zod, publicUrl: string -> string)
    ensures var v := SampleUuid('a');
      var t := TranscodeChild(v, 1080, "k");
      var r := Completed(v, MetadataChild(v, JObject(map[])), [t, t, t]);
      var view := BuildVideoResult(z, RENDITION_HEIGHTS, publicUrl, v, Some(Row(RowCompleted, Some(r), 0, Some(0))));
      ValidResult(z, RENDITION_HEIGHTS, r) && view.ready && view.renditions[1].url == None
  {
    hide Parse, Decimal, ReadResult, ResultJson, ValidResult, Tidy, SampleUuid;
    var v := SampleUuid('a');
    var t := TranscodeChild(v, 1080, "k");
    ThreeTimes(z, v);
    StoredResultReadsBack(z, RENDITION_HEIGHTS, Completed(v, MetadataChild(v, JObject(map[])), [t, t, t]));
    NotFound([t, t, t], 720);
    SampleValid();
  }
}
