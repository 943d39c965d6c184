/**
 The processing table.  Every SQL statement is one atomic step; claimPending and finishProcessing are several
 statements, and any statements of other replicas may run between them.
 */
module Rows {
  import opened Seqs
  import opened Text
  import opened Schema
  import opened Contracts
  import opened ContractLaws

  datatype Status = Pending | InProgress | RowCompleted | RowFailed {
    predicate Terminal() { RowCompleted? || RowFailed? }
  }

  /** The result column is JSON; it always holds ResultJson of a pipeline result. */
  datatype Row = Row(status: Status, result: Option<PipelineResult>, updatedAt: int, finishedAt: Option<int>)
  type Table = map<string, Row>

  function StatusOf(r: PipelineResult): Status { if r.Completed? then RowCompleted else RowFailed }

  /** The statements that write: insert on conflict do nothing, and the two guarded updates. */
  datatype Statement =
    | InsertPending(videoId: string, now: int)
    | SetInProgress(videoId: string, now: int)
    | SetResult(result: PipelineResult, now: int)

  /** Whether the statement changes a row, which is what its RETURNING clause reports. */
  predicate Writes(t: Table, st: Statement) {
    match st
    case InsertPending(v, _) => v !in t
    case SetInProgress(v, _) => v in t && t[v].status == Pending
    case SetResult(r, _) => r.videoId in t && t[r.videoId].status == InProgress
  }

  function Exec(t: Table, st: Statement): Table {
    if !Writes(t, st) then t else
    match st
    case InsertPending(v, now) => t[v := Row(Pending, None, now, None)]
    case SetInProgress(v, now) => t[v := t[v].(status := InProgress, updatedAt := now)]
    case SetResult(r, now) =>
      t[r.videoId := t[r.videoId].(status := StatusOf(r), result := Some(r), finishedAt := Some(now), updatedAt := now)]
  }

  function ExecAll(t: Table, sts: seq<Statement>): Table
    decreases |sts|
  {
    if sts == [] then t else ExecAll(Exec(t, sts[0]), sts[1..])
  }

  predicate Started(t: Table, v: string) { v in t && t[v].status != Pending }

  predicate Ended(t: Table, v: string) { v in t && t[v].status.Terminal() }

  // ----- the two calls

  datatype ClaimCall = ClaimCall(afterUpdate: Table, atEnd: Table, active: bool)

  /** claimPending(v) when other replicas run `first` before its update and `second` before its select. */
  function Claim(t: Table, v: string, now: int, first: seq<Statement>, second: seq<Statement>): ClaimCall {
    var beforeUpdate := ExecAll(Exec(t, InsertPending(v, now)), first);
    var afterUpdate := Exec(beforeUpdate, SetInProgress(v, now));
    if Writes(beforeUpdate, SetInProgress(v, now)) then ClaimCall(afterUpdate, afterUpdate, true) else
    var atEnd := ExecAll(afterUpdate, second);
    ClaimCall(afterUpdate, atEnd, v in atEnd && atEnd[v].status == InProgress)
  }

  datatype FinishOutcome = Finished(result: PipelineResult) | NotFound | Unreadable

  function ReadBack(z: Zod, heights: seq<nat>, t: Table, v: string): FinishOutcome {
    if v !in t then NotFound else
    match t[v].result
    case None => Unreadable
    case Some(stored) =>
      match ReadResult(z, heights, ResultJson(stored))
      case Some(p) => Finished(p)
      case None => Unreadable
  }

  /** finishProcessing(r) when other replicas run `meanwhile` between its update and its select. */
  function Finish(z: Zod, heights: seq<nat>, t: Table, r: PipelineResult, now: int, meanwhile: seq<Statement>)
    : (Table, FinishOutcome)
  {
    var updated := Exec(t, SetResult(r, now));
    if Writes(t, SetResult(r, now)) then (updated, Finished(r)) else
    var atEnd := ExecAll(updated, meanwhile);
    (atEnd, ReadBack(z, heights, atEnd, r.videoId))
  }

  /** The repository object; its methods run their statements one at a time. */
  class ProcessingRepository {
    var rows: Table

    constructor ()
      ensures rows == map[]
    {
      rows := map[];
    }

    method Execute(st: Statement) returns (wrote: bool)
      modifies this
      ensures rows == Exec(old(rows), st) && wrote == Writes(old(rows), st)
      ensures match st
              case InsertPending(v, now) =>
                && wrote == (v !in old(rows))
                && rows == if v in old(rows) then old(rows) else old(rows)[v := Row(Pending, None, now, None)]
              case SetInProgress(v, now) =>
                && wrote == (v in old(rows) && old(rows)[v].status == Pending)
                && (!wrote ==> rows == old(rows))
                && (wrote ==>
                      rows == old(rows)[v := Row(InProgress, old(rows)[v].result, now, old(rows)[v].finishedAt)])
              case SetResult(r, now) =>
                && wrote == (r.videoId in old(rows) && old(rows)[r.videoId].status == InProgress)
                && (!wrote ==> rows == old(rows))
                && (wrote ==> rows == old(rows)[r.videoId := Row(if r.Completed? then RowCompleted else RowFailed,
                                                                 Some(r), now, Some(now))])
    {
      wrote := Writes(rows, st);
      match st
      case InsertPending(v, now) =>
        if v !in rows { rows := rows[v := Row(Pending, None, now, None)]; }
      case SetInProgress(v, now) =>
        if v in rows && rows[v].status == Pending {
          rows := rows[v := rows[v].(status := InProgress, updatedAt := now)];
        }
      case SetResult(r, now) =>
        if r.videoId in rows && rows[r.videoId].status == InProgress {
          var row := rows[r.videoId];
          rows := rows[r.videoId := Row(StatusOf(r), Some(r), now, Some(now))];
        }
    }

    /** The statements of other replicas. */
    method Interfere(sts: seq<Statement>)
      modifies this
      ensures rows == ExecAll(old(rows), sts)
    {
      var i := 0;
      while i < |sts|
        invariant 0 <= i <= |sts|
        invariant ExecAll(rows, sts[i..]) == ExecAll(old(rows), sts)
      {
        var _ := Execute(sts[i]);
        assert sts[i..][0] == sts[i] && sts[i..][1..] == sts[i + 1..];
        i := i + 1;
      }
      assert sts[i..] == [];
    }

    method ClaimPending(videoId: string, now: int, first: seq<Statement>, second: seq<Statement>) returns (active: bool)
      modifies this
      ensures var call := Claim(old(rows), videoId, now, first, second); rows == call.atEnd && active == call.active
    {
      var _ := Execute(InsertPending(videoId, now));
      Interfere(first);
      var claimed := Execute(SetInProgress(videoId, now));
      if claimed {
        return true;
      }
      Interfere(second);
      active := videoId in rows && rows[videoId].status == InProgress;
    }

    method FinishProcessing(z: Zod, heights: seq<nat>, result: PipelineResult, now: int, meanwhile: seq<Statement>)
      returns (outcome: FinishOutcome)
      modifies this
      ensures (rows, outcome) == Finish(z, heights, old(rows), result, now, meanwhile)
    {
      var updated := Execute(SetResult(result, now));
      if updated {
        return Finished(result);
      }
      Interfere(meanwhile);
      if result.videoId !in rows {
        return NotFound;
      }
      match rows[result.videoId].result
      case None => outcome := Unreadable;
      case Some(stored) =>
        var parsed := ReadResult(z, heights, ResultJson(stored));
        outcome := if parsed.Some? then Finished(parsed.value) else Unreadable;
    }
  }

  // ----- what every statement keeps

  /** Terminal exactly when it has a result and a finish time, and then both agree with the row. */
  ghost predicate RowSound(v: string, row: Row) {
    && (row.status.Terminal() <==> row.result.Some?)
    && (row.status.Terminal() <==> row.finishedAt.Some?)
    && (row.result.Some? ==> StatusOf(row.result.value) == row.status && row.result.value.videoId == v)
  }

  ghost predicate TableSound(t: Table) { forall v :: v in t ==> RowSound(v, t[v]) }

  /** Along pending, in_progress, completed or failed; never back, and a terminal row never changes. */
  ghost predicate Forward(a: Row, b: Row) {
    || a == b
    || (a.status == Pending && b.status == InProgress)
    || (!a.status.Terminal() && b.status.Terminal())
  }

  ghost predicate Advances(t: Table, u: Table) { forall v :: v in t ==> v in u && Forward(t[v], u[v]) }

  /** One statement moves a row at most one status onward, and only creates pending rows. */
  lemma StatementStep(t: Table, st: Statement)
    requires TableSound(t)
    ensures TableSound(Exec(t, st)) && Advances(t, Exec(t, st))
    ensures forall v :: v in Exec(t, st) && v !in t ==> Exec(t, st)[v].status == Pending
    ensures forall v :: v in t && Exec(t, st)[v].status.Terminal() ==> t[v].status != Pending
  {}

  /** Over every interleaving of statements. */
  lemma {:induction false} StatementRuns(t: Table, sts: seq<Statement>)
    requires TableSound(t)
    ensures TableSound(ExecAll(t, sts)) && Advances(t, ExecAll(t, sts))
    decreases |sts|
  {
    if sts != [] {
      StatementStep(t, sts[0]);
      StatementRuns(Exec(t, sts[0]), sts[1..]);
    }
  }

  // ----- claimPending

  /** True: the row was in progress right after the update or at the end of the call.  False: the row is terminal
      at the end of the call and no later statement ever changes it. */
  lemma ClaimLinearizable(t: Table, v: string, now: int, first: seq<Statement>, second: seq<Statement>)
    requires TableSound(t)
    ensures var call := Claim(t, v, now, first, second);
      if call.active then
        || (v in call.afterUpdate && call.afterUpdate[v].status == InProgress)
        || (v in call.atEnd && call.atEnd[v].status == InProgress)
      else
        Ended(call.atEnd, v)
        && forall later :: v in ExecAll(call.atEnd, later) && ExecAll(call.atEnd, later)[v] == call.atEnd[v]
  {
    var call := Claim(t, v, now, first, second);
    var inserted := Exec(t, InsertPending(v, now));
    StatementStep(t, InsertPending(v, now));
    StatementRuns(inserted, first);
    StatementStep(ExecAll(inserted, first), SetInProgress(v, now));
    if !call.active {
      StatementRuns(call.afterUpdate, second);
      forall later ensures v in ExecAll(call.atEnd, later) && ExecAll(call.atEnd, later)[v] == call.atEnd[v] {
        StatementRuns(call.atEnd, later);
      }
    }
  }

  /** A call that runs alone leaves every other row, and starts the row unless it was started before. */
  lemma ClaimAlone(t: Table, v: string, now: int)
    ensures var call := Claim(t, v, now, [], []);
      && (call.active <==> !Ended(t, v))
      && (forall w :: w != v ==> (w in call.atEnd <==> w in t) && (w in t ==> call.atEnd[w] == t[w]))
      && v in call.atEnd
      && (if v !in t then call.atEnd[v] == Row(InProgress, None, now, None)
          else if t[v].status == Pending then call.atEnd[v] == Row(InProgress, t[v].result, now, t[v].finishedAt)
          else call.atEnd[v] == t[v])
  {}

  /** How many of the statements claim the video. */
  function ClaimsOf(t: Table, sts: seq<Statement>, v: string): nat
    decreases |sts|
  {
    if sts == [] then 0
    else
      (if sts[0].SetInProgress? && sts[0].videoId == v && Writes(t, sts[0]) then 1 else 0)
      + ClaimsOf(Exec(t, sts[0]), sts[1..], v)
  }

  /** Over any run at most one update claims a video, and one does exactly when the run starts it. */
  lemma {:induction false} OneClaim(t: Table, sts: seq<Statement>, v: string)
    requires TableSound(t)
    ensures ClaimsOf(t, sts, v) == if !Started(t, v) && Started(ExecAll(t, sts), v) then 1 else 0
    decreases |sts|
  {
    if sts != [] {
      var u := Exec(t, sts[0]);
      StatementStep(t, sts[0]);
      StatementRuns(u, sts[1..]);
      OneClaim(u, sts[1..], v);
    }
  }

  // ----- finishProcessing

  ghost predicate Readable(z: Zod, heights: seq<nat>, t: Table) {
    forall v :: v in t && t[v].result.Some? ==> ValidResult(z, heights, t[v].result.value)
  }

  ghost predicate WritesValid(z: Zod, heights: seq<nat>, sts: seq<Statement>) {
    forall i :: 0 <= i < |sts| && sts[i].SetResult? ==> ValidResult(z, heights, sts[i].result)
  }

  lemma {:induction false} StaysReadable(z: Zod, heights: seq<nat>, t: Table, sts: seq<Statement>)
    requires Readable(z, heights, t) && WritesValid(z, heights, sts)
    ensures Readable(z, heights, ExecAll(t, sts))
    decreases |sts|
  {
    hide ValidResult;
    if sts != [] {
      StaysReadable(z, heights, Exec(t, sts[0]), sts[1..]);
    }
  }

  /** Whatever runs in between: the call returns exactly when the row is terminal at its end, and it does so for every
      video that was claimed before.  What it returns is the stored result up to normalisation, and the stored result
      itself exactly when its own update stored it or the stored result is in normal form. */
  lemma FinishSettles(z: Zod, heights: seq<nat>, t: Table, r: PipelineResult, now: int, meanwhile: seq<Statement>)
    requires TableSound(t) && Readable(z, heights, t)
    requires ValidResult(z, heights, r) && WritesValid(z, heights, meanwhile)
    ensures var (atEnd, outcome) := Finish(z, heights, t, r, now, meanwhile);
      && (outcome.Finished? <==> Ended(atEnd, r.videoId))
      && (Started(t, r.videoId) ==> outcome.Finished?)
      && (outcome.Finished? ==>
            && atEnd[r.videoId].result.Some?
            && Tidy(outcome.result) == Tidy(atEnd[r.videoId].result.value)
            && (outcome.result == atEnd[r.videoId].result.value
                <==> || Writes(t, SetResult(r, now))
                     || Tidy(atEnd[r.videoId].result.value) == atEnd[r.videoId].result.value)
            && ValidResult(z, heights, outcome.result))
  {
    hide ValidResult, Tidy, ReadResult, ResultJson;
    StatementStep(t, SetResult(r, now));
    if !Writes(t, SetResult(r, now)) {
      StatementRuns(t, meanwhile);
      StaysReadable(z, heights, t, meanwhile);
      var atEnd := ExecAll(t, meanwhile);
      if r.videoId in atEnd && atEnd[r.videoId].result.Some? {
        var stored := atEnd[r.videoId].result.value;
        StoredResultReadsBack(z, heights, stored);
        TidyTwice(z, heights, stored);
      }
    }
  }

  /** A call that runs alone finishes a row in progress with its argument, and changes nothing else. */
  lemma FinishAlone(z: Zod, heights: seq<nat>, t: Table, r: PipelineResult, now: int)
    ensures var (atEnd, outcome) := Finish(z, heights, t, r, now, []);
      if r.videoId in t && t[r.videoId].status == InProgress then
        && outcome == Finished(r)
        && atEnd == t[r.videoId := Row(if r.Completed? then RowCompleted else RowFailed, Some(r), now, Some(now))]
      else
        && atEnd == t
        && (outcome == NotFound <==> r.videoId !in t)
        && (r.videoId in t && t[r.videoId].result.None? ==> outcome == Unreadable)
  {
    hide ReadResult, ResultJson;
  }

  /** A call that stored its argument returned it as it was; every later call for that video returns it in normal form.
      So finishProcessing answers all callers alike exactly when the argument it stored is in normal form. */
  lemma FinishAgain(
    z: Zod, heights: seq<nat>, t: Table, r: PipelineResult, now: int,
    between: seq<Statement>, again: PipelineResult, later: int, meanwhile: seq<Statement>
  )
    requires TableSound(t) && Readable(z, heights, t) && Writes(t, SetResult(r, now))
    requires ValidResult(z, heights, r) && ValidResult(z, heights, again) && again.videoId == r.videoId
    requires WritesValid(z, heights, between) && WritesValid(z, heights, meanwhile)
    ensures var (stored, first) := Finish(z, heights, t, r, now, []);
      var (_, second) := Finish(z, heights, ExecAll(stored, between), again, later, meanwhile);
      && first == Finished(r) && second == Finished(Tidy(r))
      && (second == first <==> Tidy(r) == r)
  {
    hide ValidResult, Tidy, ReadResult, ResultJson;
    var stored := Exec(t, SetResult(r, now));
    StatementStep(t, SetResult(r, now));
    StatementRuns(stored, between);
    var u := ExecAll(stored, between);
    assert u[r.videoId] == stored[r.videoId];
    StatementRuns(u, meanwhile);
    assert ExecAll(u, meanwhile)[r.videoId] == stored[r.videoId];
    StoredResultReadsBack(z, heights, r);
  }

  /** An argument for which the answers differ: one failure whose key ends in a space. */
  lemma FinishCanDiffer(z: Zod, heights: seq<nat>, now: int)
    ensures var v := SampleUuid('a');
      var r := Failed(v, [Failure("child ", "error")]);
      var t := map[v := Row(InProgress, None, now, None)];
      var (stored, first) := Finish(z, heights, t, r, now, []);
      && ValidResult(z, heights, r) && TableSound(t)
      && first == Finished(r) && Finish(z, heights, stored, r, now, []).1 != first
  {
    hide Trim, ReadResult, ResultJson;
    var v := SampleUuid('a');
    var r := Failed(v, [Failure("child ", "error")]);
    VisibleHead("child ");
    VisibleHead("error");
    assert Trim("child ") != "child ";
    assert Tidy(r).failures[0] != r.failures[0];
    assert ValidResult(z, heights, r);
    FinishAgain(z, heights, map[v := Row(InProgress, None, now, None)], r, now, [], r, now, []);
  }
}
