/**
 The two entry points of the processing service as code: the upload handler and the orchestrator processor, each run
 against the repository while other replicas execute statements between its own.
 */
module Service {
  import opened Seqs
  import opened Text
  import opened Schema
  import opened Contracts
  import opened Events
  import opened Aggregation
  import AggregationLaws
  import opened Rows
  import opened Jobs
  import opened Pipeline

  datatype AttemptEnd = Succeeds(result: PipelineResult) | Throws

  class ProcessingService {
    const z: Zod
    const heights: seq<nat>
    const repository: ProcessingRepository
    var jobs: Store
    var published: seq<Announcement>

    constructor (z: Zod, heights: seq<nat>)
      ensures this.heights == heights && fresh(repository)
      ensures repository.rows == map[] && jobs == map[] && published == []
    {
      this.z, this.heights := z, heights;
      repository := new ProcessingRepository();
      jobs, published := map[], [];
    }

    /** handleVideoUploaded.  When it returns, the video was taken up: its flow exists, or its row is terminal. */
    method HandleVideoUploaded(videoId: string, now: int, first: seq<Statement>, second: seq<Statement>)
      requires TableSound(repository.rows) && Filed(jobs)
      modifies this, repository
      ensures var call := Claim(old(repository.rows), videoId, now, first, second);
        && repository.rows == call.atEnd
        && jobs == if call.active then AddFlow(heights, old(jobs), videoId) else old(jobs)
      ensures KeyOf(Orchestrator, videoId) in jobs || Ended(repository.rows, videoId)
      ensures forall k :: k in old(jobs) ==> k in jobs && jobs[k] == old(jobs)[k]
      ensures published == old(published)
    {
      ClaimLinearizable(repository.rows, videoId, now, first, second);
      var active := repository.ClaimPending(videoId, now, first, second);
      if !active {
        return;
      }
      FlowAdded(heights, jobs, videoId);
      jobs := AddFlow(heights, jobs, videoId);
    }

    /** broker.publish of a terminal result; false when validation throws. */
    method PublishResult(videoId: string, result: PipelineResult) returns (sent: bool)
      modifies this`published
      ensures sent <==> ValidResult(z, heights, result)
      ensures published == if !sent then old(published)
        else old(published)
             + [Announcement(videoId, if result.Completed? then "processing.completed" else "processing.failed",
                             Tidy(result))]
    {
      TerminalPayloadIsTidy(z, heights, result);
      var payload := TerminalPayload(z, heights, result);
      if payload.None? {
        return false;
      }
      published := published + [Announcement(videoId, RoutingKey(result), payload.value)];
      sent := true;
    }

    /** The result says what the children gave. */
    ghost predicate Reflects(
      videoId: string, failures: seq<(string, string)>, entries: seq<(string, Json)>, stored: PipelineResult
    ) {
      if failures != [] then
        && stored.Failed? && |stored.failures| == |failures|
        && forall i :: 0 <= i < |failures| ==>
             && stored.failures[i].childKey == failures[i].0
             && stored.failures[i].error
                == if Trim(failures[i].1) != "" then Trim(failures[i].1) else "Child failed without an error message"
      else
        && (forall m, rs :: Assembles(z, heights, videoId, entries, m, rs) ==> stored == Completed(videoId, m, rs))
        && ((forall m, rs :: !Assembles(z, heights, videoId, entries, m, rs)) ==> stored.Failed?)
    }

    /** One orchestrator attempt for children that failed as `failures` or else returned `entries`.  Whatever runs in
        between, it succeeds exactly when the row is terminal at its end; then it has published the normal form of the
        stored result, once, and returns that result up to normalisation: the stored result itself exactly when this
        attempt stored it or it is in normal form.  An attempt that found the row in progress stored what the children
        gave: the failures reported to it, else the assembled children, else some failure. */
    method Orchestrate(
      videoId: string, failures: seq<(string, string)>, entries: seq<(string, Json)>, removed: set<Key>,
      now: int, meanwhile: seq<Statement>
    ) returns (end: AttemptEnd)
      requires Distinct(heights) && IsUuid(videoId)
      requires KeysVisible(z, heights, if failures != [] then [] else entries, failures)
      requires TableSound(repository.rows) && Readable(z, heights, repository.rows)
      requires WritesValid(z, heights, meanwhile)
      modifies this, repository
      ensures end.Succeeds? <==> Ended(repository.rows, videoId)
      ensures old(Started(repository.rows, videoId)) ==> end.Succeeds?
      ensures end.Succeeds? ==>
        && repository.rows[videoId].result.Some?
        && var stored := repository.rows[videoId].result.value;
           && Tidy(end.result) == Tidy(stored)
           && (end.result == stored
               <==> || old(videoId in repository.rows && repository.rows[videoId].status == InProgress)
                    || Tidy(stored) == stored)
           && published
              == old(published)
                 + [Announcement(videoId, if stored.Completed? then "processing.completed" else "processing.failed",
                                 Tidy(stored))]
      ensures old(videoId in repository.rows && repository.rows[videoId].status == InProgress) ==>
        && repository.rows[videoId].result.Some?
        && Reflects(videoId, failures, entries, repository.rows[videoId].result.value)
      ensures end.Throws? ==> published == old(published)
      ensures jobs == if failures != [] then old(jobs) - removed else old(jobs)
    {
      hide ValidResult, Tidy, ReadResult, ResultJson, Aggregate, KeysVisible, IsUuid, Parse, Assembles, Trim;
      var children := if failures != [] then [] else entries;
      AggregationLaws.OutputValid(z, heights, videoId, children, failures);
      AggregationLaws.NeverThrows(z, heights, videoId, children, failures);
      var outcome: Outcome;
      if |failures| > 0 {
        jobs := jobs - removed;
        outcome := Aggregate(z, heights, videoId, [], failures);
      } else {
        outcome := Aggregate(z, heights, videoId, entries, []);
      }
      assert outcome == Aggregate(z, heights, videoId, children, failures);
      var result := outcome.result;
      if failures != [] {
        AggregationLaws.FailuresReported(z, heights, videoId, [], failures);
      } else {
        AggregationLaws.Verdict(z, heights, videoId, entries);
      }
      assert Reflects(videoId, failures, entries, result);
      FinishSettles(z, heights, repository.rows, result, now, meanwhile);
      ghost var before := repository.rows;
      var finished := repository.FinishProcessing(z, heights, result, now, meanwhile);
      match finished
      case Finished(persisted) =>
        SameKind(z, heights, before, result, now, meanwhile);
        var sent := PublishResult(videoId, persisted);
        end := Succeeds(persisted);
      case _ =>
        end := Throws;
    }
  }

  /** Normalisation does not turn one kind of result into the other. */
  lemma SameKind(z: Zod, heights: seq<nat>, t: Table, r: PipelineResult, now: int, meanwhile: seq<Statement>)
    requires TableSound(t) && Readable(z, heights, t)
    requires ValidResult(z, heights, r) && WritesValid(z, heights, meanwhile)
    ensures var (atEnd, outcome) := Finish(z, heights, t, r, now, meanwhile);
      outcome.Finished? ==>
        r.videoId in atEnd && atEnd[r.videoId].result.Some?
        && RoutingKey(outcome.result) == RoutingKey(atEnd[r.videoId].result.value)
  {
    hide ValidResult, ReadResult, ResultJson;
    FinishSettles(z, heights, t, r, now, meanwhile);
    var (atEnd, outcome) := Finish(z, heights, t, r, now, meanwhile);
    if outcome.Finished? {
      assert Tidy(outcome.result).Completed? == outcome.result.Completed?;
    }
  }
}
