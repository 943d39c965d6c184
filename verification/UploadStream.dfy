/**
 withS3UploadStream around an ffmpeg writer: the writer's promise and the upload's promise settle in any order, and the
 first error aborts the upload, which errors the stream the writer writes to.
 */
module UploadStream {
  import opened Seqs
  import FfmpegTask

  datatype Upload = Pending | Done | Broken(reason: string)
  datatype Abort = NotNeeded | Running | Finished
  datatype Outcome = Open | Resolved | Rejected(reason: string)

  /** `error` is what Promise.all was rejected with. */
  datatype Stream = Stream(
    writer: FfmpegTask.Task, upload: Upload, error: Option<string>, abort: Abort, outcome: Outcome)

  datatype Event = Writer(e: FfmpegTask.Event) | UploadDone | UploadFails(reason: string) | AbortDone

  const ABORTED := "Upload aborted"

  function Fresh(): Stream { Stream(FfmpegTask.Fresh(), Pending, None, NotNeeded, Open) }

  predicate Allowed(s: Stream, e: Event) {
    match e
    case Writer(w) => FfmpegTask.Allowed(s.writer, w)
    case UploadDone => s.upload == Pending
    case UploadFails(_) => s.upload == Pending
    case AbortDone => s.abort == Running
  }

  /** The first rejection starts the abort: the stream is destroyed with an error, and the upload is told to stop. */
  function Catch(s: Stream, reason: string): Stream {
    if s.error.Some? then s
    else s.(error := Some(reason), abort := Running,
            writer := FfmpegTask.React(s.writer, FfmpegTask.WritableError(ABORTED)))
  }

  /** The awaits that follow: both promises fulfilled, or after an error the abort and then both promises settled. */
  function Continue(s: Stream): Stream {
    if s.outcome != Open then s
    else if s.error.None? then
      if s.writer.promise.Resolved? && s.upload == Done then s.(outcome := Resolved) else s
    else if s.abort == Finished && !s.writer.promise.Unsettled? && s.upload != Pending then
      s.(outcome := Rejected(s.error.value))
    else s
  }

  function React(s: Stream, e: Event): Stream {
    match e
    case Writer(w) =>
      var t := s.(writer := FfmpegTask.React(s.writer, w));
      Continue(if t.writer.promise.Rejected? && s.outcome == Open then Catch(t, t.writer.promise.reason) else t)
    case UploadDone => Continue(s.(upload := Done))
    case UploadFails(reason) => Continue(Catch(s.(upload := Broken(reason)), reason))
    case AbortDone => Continue(s.(abort := Finished))
  }

  function After(events: seq<Event>): Stream {
    if events == [] then Fresh() else React(After(events[..|events| - 1]), events[|events| - 1])
  }

  predicate Orderly(events: seq<Event>) {
    events == [] ||
    (Orderly(events[..|events| - 1]) && Allowed(After(events[..|events| - 1]), events[|events| - 1]))
  }

  /** The events of the writer among these. */
  function OfWriter(events: seq<Event>): seq<FfmpegTask.Event> {
    if events == [] then [] else
    var before, last := OfWriter(events[..|events| - 1]), events[|events| - 1];
    if last.Writer? then before + [last.e] else before
  }

  /** The reason of whatever failed first: the upload, or the writer left to itself. */
  function FirstError(events: seq<Event>): Option<string> {
    if events == [] then None else
    match FirstError(events[..|events| - 1])
    case Some(reason) => Some(reason)
    case None =>
      match events[|events| - 1]
      case UploadFails(reason) => Some(reason)
      case Writer(_) =>
        (match FfmpegTask.After(OfWriter(events)).promise case Rejected(reason) => Some(reason) case _ => None)
      case _ => None
  }

  /** The writer has seen some decisive event, as FfmpegTask.Inv records it. */
  ghost predicate WriterOk(t: FfmpegTask.Task) { exists first :: FfmpegTask.Inv(t, first) }

  ghost predicate Inv(s: Stream) {
    && WriterOk(s.writer)
    && (s.error.None? <==> s.abort == NotNeeded)
    && (s.error.None? ==> !s.writer.promise.Rejected? && !s.upload.Broken?)
    && (s.error.Some? ==> s.writer.done && (s.writer.promise.Rejected? || s.upload.Broken?))
    && match s.outcome
       case Open =>
         !(s.error.None? && s.writer.promise.Resolved? && s.upload == Done)
         && !(s.error.Some? && s.abort == Finished && !s.writer.promise.Unsettled? && s.upload != Pending)
       case Resolved => s.error.None? && s.writer.promise.Resolved? && s.upload == Done
       case Rejected(reason) =>
         s.error == Some(reason) && s.abort == Finished && !s.writer.promise.Unsettled? && s.upload != Pending
  }

  lemma WriterStep(t: FfmpegTask.Task, e: FfmpegTask.Event)
    requires WriterOk(t) && FfmpegTask.Allowed(t, e)
    ensures WriterOk(FfmpegTask.React(t, e))
    ensures !t.promise.Unsettled? ==> FfmpegTask.React(t, e).promise == t.promise
    ensures t.done ==> FfmpegTask.React(t, e).done
    ensures e.WritableError? ==> FfmpegTask.React(t, e).done
    ensures FfmpegTask.React(t, e).promise.Rejected? ==> FfmpegTask.React(t, e).process != FfmpegTask.Alive
  {
    hide FfmpegTask.Inv;
    var first :| FfmpegTask.Inv(t, first);
    FfmpegTask.ReactKeepsInv(t, first, e);
    if !t.promise.Unsettled? { FfmpegTask.ReactKeepsSettlement(t, first, e); }
    DeadWhenRejected(FfmpegTask.React(t, e), if first.None? && FfmpegTask.Decisive(e) then Some(e) else first);
  }

  lemma DeadWhenRejected(t: FfmpegTask.Task, first: Option<FfmpegTask.Event>)
    requires FfmpegTask.Inv(t, first)
    ensures t.promise.Rejected? ==> t.process != FfmpegTask.Alive && t.done
    ensures t.promise.Resolved? ==> t.done
  {}

  lemma CatchKeeps(s: Stream, reason: string)
    requires WriterOk(s.writer)
    ensures var t := Catch(s, reason);
      && WriterOk(t.writer) && (s.error.None? ==> t.writer.done)
      && (!s.writer.promise.Unsettled? ==> t.writer.promise == s.writer.promise)
  {
    hide FfmpegTask.React, WriterOk;
    WriterStep(s.writer, FfmpegTask.WritableError(ABORTED));
  }

  lemma Step(s: Stream, e: Event)
    requires Inv(s) && Allowed(s, e)
    ensures Inv(React(s, e))
    ensures s.outcome != Open ==> React(s, e).outcome == s.outcome
  {
    hide FfmpegTask.React, WriterOk, FfmpegTask.Allowed;
    match e
    case Writer(w) =>
      WriterStep(s.writer, w);
      var t := s.(writer := FfmpegTask.React(s.writer, w));
      CatchKeeps(t, if t.writer.promise.Rejected? then t.writer.promise.reason else "");
    case UploadFails(reason) =>
      CatchKeeps(s.(upload := Broken(reason)), reason);
    case _ =>
  }

  lemma {:induction false} InvHolds(events: seq<Event>)
    requires Orderly(events)
    ensures Inv(After(events))
  {
    if events != [] {
      hide Inv, React, Allowed;
      InvHolds(events[..|events| - 1]);
      Step(After(events[..|events| - 1]), events[|events| - 1]);
    } else {
      assert FfmpegTask.Inv(FfmpegTask.Fresh(), None);
    }
  }

  lemma ErrorOfStep(s: Stream, e: Event)
    requires Inv(s) && Allowed(s, e)
    ensures var t := React(s, e);
      && (s.error.Some? ==> t.error == s.error)
      && (s.error.None? ==>
            match e
            case UploadFails(reason) => t.error == Some(reason)
            case Writer(w) =>
              var alone := FfmpegTask.React(s.writer, w);
              if alone.promise.Rejected? then t.error == Some(alone.promise.reason)
              else t.error == None && t.writer == alone
            case _ => t.error == None && t.writer == s.writer)
  {
    hide FfmpegTask.React, WriterOk, FfmpegTask.Allowed;
    if e.Writer? { WriterStep(s.writer, e.e); }
  }

  /** Until something fails the writer is left to itself; then the call keeps the first error. */
  lemma {:induction false} ErrorIsFirst(events: seq<Event>)
    requires Orderly(events)
    ensures After(events).error == FirstError(events)
    ensures After(events).error.None? ==> After(events).writer == FfmpegTask.After(OfWriter(events))
  {
    if events != [] {
      hide FfmpegTask.React, Allowed, React, Inv;
      var before, last := events[..|events| - 1], events[|events| - 1];
      ErrorIsFirst(before);
      InvHolds(before);
      ErrorOfStep(After(before), last);
      if last.Writer? {
        var ws := OfWriter(events);
        assert ws[..|ws| - 1] == OfWriter(before);
      }
    }
  }

  /** The call returns only when ffmpeg ended and the object is stored; it throws only after the abort, with the upload
      settled, the writer settled, and no ffmpeg process of a failed writer left alive; and it throws the first
      error. */
  lemma NothingLeftBehind(events: seq<Event>)
    requires Orderly(events)
    ensures var s := After(events);
      && (s.outcome == Resolved <==> s.error.None? && s.writer.promise.Resolved? && s.upload == Done)
      && (s.outcome.Rejected? <==>
            s.error.Some? && s.abort == Finished && !s.writer.promise.Unsettled? && s.upload != Pending)
      && (s.outcome.Rejected? ==> s.writer.promise.Resolved? || s.writer.process != FfmpegTask.Alive)
      && (s.outcome.Rejected? ==> FirstError(events) == Some(s.outcome.reason))
  {
    InvHolds(events);
    ErrorIsFirst(events);
    var s := After(events);
    var first :| FfmpegTask.Inv(s.writer, first);
    DeadWhenRejected(s.writer, first);
  }

  /** An error from either side always reaches the writer: from then on it never resolves unless it already had. */
  lemma ErrorStopsWriter(events: seq<Event>)
    requires Orderly(events)
    ensures After(events).error.Some? ==> After(events).writer.done
  {
    InvHolds(events);
  }
}
