/**
 pipeFfmpegToWritable: one ffmpeg run piped into a writable, whose promise settles after events that may come in any
 order.  Assumed of the command: `start` comes with the process, an `error` without a process means that none will be
 started, and a process exits before it closes.  The path where `pipe` itself throws is not part of this model.
 */
module FfmpegTask {
  import opened Seqs

  datatype Event = Start | End | Error(reason: string) | Exit | Close | WritableError(reason: string)

  datatype Process = NotStarted | Alive | Exited | Closed

  /** What rejectAfterProcessExit is waiting for. */
  datatype Wait = Nothing | ForStart(reason: string) | ForClose(reason: string)

  datatype Promise = Unsettled | Resolved | Rejected(reason: string)

  datatype Task = Task(
    done: bool, process: Process, spawnFailed: bool, wait: Wait, promise: Promise,
    listening: bool, killed: bool, ended: bool, destroyed: bool)

  function Fresh(): Task { Task(false, NotStarted, false, Nothing, Unsettled, true, false, false, false) }

  function Reject(t: Task, reason: string): Task {
    t.(wait := Nothing, promise := Rejected(reason), listening := false)
  }

  /** The part of rejectAfterProcessExit after the process is known. */
  function RejectAfterExit(t: Task, reason: string): Task {
    if t.process == Alive then t.(wait := ForClose(reason)) else Reject(t, reason)
  }

  function React(t: Task, e: Event): Task {
    match e
    case Start =>
      var u := t.(process := Alive);
      if t.wait.ForStart? then RejectAfterExit(u.(killed := true), t.wait.reason) else u
    case End =>
      if t.done then t else t.(done := true, listening := false, ended := true, promise := Resolved)
    case Error(reason) =>
      var u := if t.process == NotStarted then t.(spawnFailed := true) else t;
      if t.wait.ForStart? then RejectAfterExit(u, t.wait.reason)
      else if t.done then u
      else RejectAfterExit(u.(done := true, destroyed := true), reason)
    case Exit => t.(process := Exited)
    case Close =>
      var u := t.(process := Closed);
      if t.wait.ForClose? then Reject(u, t.wait.reason) else u
    case WritableError(reason) =>
      if t.done then t else
      var u := t.(done := true, killed := t.killed || t.process == Alive);
      if t.process == NotStarted then u.(wait := ForStart(reason)) else RejectAfterExit(u, reason)
  }

  /** The order the command and its process keep. */
  predicate Allowed(t: Task, e: Event) {
    match e
    case Start => t.process == NotStarted && !t.spawnFailed
    case Exit => t.process == Alive
    case Close => t.process == Exited
    case _ => true
  }

  /** The promise executor, with one method for each listener. */
  class PipeTask {
    var done: bool
    var process: Process
    var spawnFailed: bool
    var wait: Wait
    var promise: Promise
    var listening: bool
    var killed: bool
    var ended: bool
    var destroyed: bool

    function State(): Task
      reads this
    {
      Task(done, process, spawnFailed, wait, promise, listening, killed, ended, destroyed)
    }

    constructor ()
      ensures State() == Fresh()
    {
      done, process, spawnFailed, wait, promise := false, NotStarted, false, Nothing, Unsettled;
      listening, killed, ended, destroyed := true, false, false, false;
    }

    method Kill()
      modifies this`killed
      ensures killed == (old(killed) || process == Alive)
    {
      if process == Alive { killed := true; }
    }

    method Settle(reason: string)
      modifies this
      ensures State() == Reject(old(State()), reason)
    {
      wait := Nothing;
      listening := false;
      promise := Rejected(reason);
    }

    method RejectAfterProcessExit(reason: string, waitForStart: bool)
      modifies this
      ensures State() == if waitForStart && process == NotStarted then old(State()).(wait := ForStart(reason))
                         else RejectAfterExit(old(State()), reason)
    {
      if waitForStart && process == NotStarted {
        wait := ForStart(reason);
      } else if process == Alive {
        wait := ForClose(reason);
      } else {
        Settle(reason);
      }
    }

    method OnStart()
      modifies this
      ensures State() == React(old(State()), Start)
    {
      process := Alive;
      if wait.ForStart? {
        Kill();
        RejectAfterProcessExit(wait.reason, false);
      }
    }

    method OnEnd()
      modifies this
      ensures State() == React(old(State()), End)
    {
      if done { return; }
      done := true;
      listening := false;
      ended := true;
      promise := Resolved;
    }

    method OnError(reason: string)
      modifies this
      ensures State() == React(old(State()), Error(reason))
    {
      if process == NotStarted { spawnFailed := true; }
      if wait.ForStart? {
        RejectAfterProcessExit(wait.reason, false);
        return;
      }
      if done { return; }
      done := true;
      destroyed := true;
      RejectAfterProcessExit(reason, false);
    }

    method OnExit()
      modifies this
      ensures State() == React(old(State()), Exit)
    {
      process := Exited;
    }

    method OnClose()
      modifies this
      ensures State() == React(old(State()), Close)
    {
      process := Closed;
      if wait.ForClose? { Settle(wait.reason); }
    }

    method OnWritableError(reason: string)
      modifies this
      ensures State() == React(old(State()), WritableError(reason))
    {
      if done { return; }
      done := true;
      Kill();
      RejectAfterProcessExit(reason, true);
    }
  }

  // ----- whole runs

  function After(events: seq<Event>): Task {
    if events == [] then Fresh() else React(After(events[..|events| - 1]), events[|events| - 1])
  }

  predicate Orderly(events: seq<Event>) {
    events == [] ||
    (Orderly(events[..|events| - 1]) && Allowed(After(events[..|events| - 1]), events[|events| - 1]))
  }

  predicate Decisive(e: Event) { e.End? || e.Error? || e.WritableError? }

  /** The first end, error or writable error of the run. */
  function First(events: seq<Event>): Option<Event> {
    if events == [] then None else
    match First(events[..|events| - 1])
    case Some(e) => Some(e)
    case None => if Decisive(events[|events| - 1]) then Some(events[|events| - 1]) else None
  }

  ghost predicate Inv(t: Task, first: Option<Event>) {
    && (t.spawnFailed ==> t.process == NotStarted)
    && match first
       case None =>
         && t.promise == Unsettled && !t.done && t.wait == Nothing && t.listening && !t.ended && !t.destroyed
         && !t.killed && !t.spawnFailed
       case Some(End) =>
         t.promise == Resolved && t.done && t.wait == Nothing && !t.listening && t.ended && !t.destroyed && !t.killed
       case Some(e) =>
         && (e.Error? || e.WritableError?) && t.done && !t.ended && (t.destroyed <==> e.Error?)
         && (t.killed ==> e.WritableError?) && (t.promise.Unsettled? ==> t.listening)
         && match t.promise
            case Resolved => false
            case Rejected(reason) =>
              reason == e.reason && t.wait == Nothing && !t.listening && t.process != Alive
              && (t.process == NotStarted ==> t.spawnFailed)
            case Unsettled =>
              || (t.wait == ForStart(e.reason) && e.WritableError? && t.process == NotStarted && !t.spawnFailed)
              || (t.wait == ForClose(e.reason) && (t.process == Alive || t.process == Exited)
                  && (e.WritableError? ==> t.killed))
  }

  lemma ReactKeepsInv(t: Task, first: Option<Event>, e: Event)
    requires Inv(t, first) && Allowed(t, e)
    ensures Inv(React(t, e), if first.None? && Decisive(e) then Some(e) else first)
  {}

  lemma {:induction false} InvHolds(events: seq<Event>)
    requires Orderly(events)
    ensures Inv(After(events), First(events))
  {
    if events != [] {
      hide Inv, React, Allowed;
      InvHolds(events[..|events| - 1]);
      ReactKeepsInv(After(events[..|events| - 1]), First(events[..|events| - 1]), events[|events| - 1]);
    } else {
      assert After(events) == Fresh() && First(events) == None;
    }
  }

  /** Resolves exactly when `end` comes before any error; rejects only with the first error. */
  lemma SettledByFirst(events: seq<Event>)
    requires Orderly(events)
    ensures After(events).promise.Resolved? <==> First(events) == Some(End)
    ensures After(events).promise.Rejected? ==>
      First(events).Some? && (First(events).value.Error? || First(events).value.WritableError?)
      && After(events).promise.reason == First(events).value.reason
  {
    InvHolds(events);
  }

  /** What happened to the writable, the listener and the process: the writable is ended exactly when `end` came first
      and destroyed exactly when an ffmpeg error came first, the listener is off exactly when the promise is settled,
      and only an error of the writable has the process killed. */
  lemma SideEffects(events: seq<Event>)
    requires Orderly(events)
    ensures After(events).ended <==> First(events) == Some(End)
    ensures After(events).destroyed <==> First(events).Some? && First(events).value.Error?
    ensures After(events).listening <==> After(events).promise == Unsettled
    ensures After(events).killed ==> First(events).Some? && First(events).value.WritableError?
  {
    hide After, First, Orderly;
    InvHolds(events);
  }

  /** After an error decided the run, the promise is rejected only once no process is alive and none will be started,
      it is rejected by the time the process has closed or failed to start, and until then a process that the writable
      left behind has been killed. */
  lemma RejectsOnceDead(events: seq<Event>)
    requires Orderly(events) && First(events).Some? && !First(events).value.End?
    ensures var t := After(events);
      && (t.promise.Rejected? ==> t.process != Alive && (t.process == NotStarted ==> t.spawnFailed))
      && (t.process == Closed || t.spawnFailed ==> t.promise.Rejected?)
      && (t.promise.Unsettled? && First(events).value.WritableError? && t.process != NotStarted ==> t.killed)
  {
    hide After, First, Orderly;
    InvHolds(events);
  }

  lemma ReactKeepsSettlement(t: Task, first: Option<Event>, e: Event)
    requires Inv(t, first) && Allowed(t, e) && !t.promise.Unsettled?
    ensures React(t, e).promise == t.promise
    ensures t.promise.Rejected? ==> React(t, e).process != Alive
  {}

  /** Once settled it stays settled, and after a rejection no process is ever alive again. */
  lemma {:induction false} SettledForGood(events: seq<Event>, more: seq<Event>)
    requires Orderly(events) && Orderly(events + more) && !After(events).promise.Unsettled?
    ensures After(events + more).promise == After(events).promise
    ensures After(events).promise.Rejected? ==> After(events + more).process != Alive
    decreases |more|
  {
    hide React, Allowed, Inv;
    if more == [] {
      assert events + more == events;
      RejectedNotAlive(events);
    } else {
      var all, less := events + more, more[..|more| - 1];
      assert all[..|all| - 1] == events + less && all[|all| - 1] == more[|more| - 1];
      SettledForGood(events, less);
      InvHolds(events + less);
      ReactKeepsSettlement(After(events + less), First(events + less), more[|more| - 1]);
    }
  }

  lemma RejectedNotAlive(events: seq<Event>)
    requires Orderly(events)
    ensures After(events).promise.Rejected? ==> After(events).process != Alive
  {
    InvHolds(events);
  }
}
