/**
 The audit consumer: each processing-step event is inserted into the log table unless a row with its event id exists.
 The subscription may deliver an event any number of times; a handler may die after its insert, or go on after its
 delivery was taken back.
 */
module AuditLog {
  import opened Seqs
  import opened Schema
  import Broker
  import BrokerLaws

  datatype StepEvent = StepEvent(
    messageId: string, occurredAt: string, videoId: string, step: string, status: string,
    message: Option<string>, resolution: Option<nat>, data: Option<Json>, error: Option<string>)

  datatype LogRow = LogRow(
    eventId: string, videoId: string, step: string, status: string,
    message: Option<string>, resolution: Option<nat>, data: Option<Json>, error: Option<string>, timestamp: string)

  function RowOf(e: StepEvent): LogRow {
    LogRow(e.messageId, e.videoId, e.step, e.status, e.message, e.resolution, e.data, e.error, e.occurredAt)
  }

  predicate Logged(rows: seq<LogRow>, id: string) { exists i :: 0 <= i < |rows| && rows[i].eventId == id }

  /** Insert on conflict of the event id do nothing. */
  function Append(rows: seq<LogRow>, e: StepEvent): seq<LogRow> {
    if Logged(rows, e.messageId) then rows else rows + [RowOf(e)]
  }

  function AppendAll(rows: seq<LogRow>, events: seq<StepEvent>): seq<LogRow> {
    if events == [] then rows
    else Append(AppendAll(rows, events[..|events| - 1]), events[|events| - 1])
  }

  class LogTable {
    var rows: seq<LogRow>

    constructor ()
      ensures rows == []
    {
      rows := [];
    }

    /** appendProcessingStepLog */
    method AppendProcessingStepLog(e: StepEvent)
      modifies this
      ensures rows == Append(old(rows), e)
      ensures (exists i :: 0 <= i < |old(rows)| && old(rows)[i].eventId == e.messageId) ==> rows == old(rows)
      ensures (forall i :: 0 <= i < |old(rows)| ==> old(rows)[i].eventId != e.messageId) ==>
        && |rows| == |old(rows)| + 1 && rows[..|old(rows)|] == old(rows)
        && var row := rows[|old(rows)|];
           && row.eventId == e.messageId && row.videoId == e.videoId && row.step == e.step && row.status == e.status
           && row.message == e.message && row.resolution == e.resolution && row.data == e.data && row.error == e.error
           && row.timestamp == e.occurredAt
    {
      if !Logged(rows, e.messageId) {
        rows := rows + [LogRow(e.messageId, e.videoId, e.step, e.status,
                               e.message, e.resolution, e.data, e.error, e.occurredAt)];
      }
    }
  }

  // ----- the consumer as a system

  /** `delivered` names the deliveries (copy and tag) there were, `inserted` those whose handler has inserted; `handled`
      is every insert ever tried, in order. */
  datatype Audit = Audit(
    queues: Broker.Queues<StepEvent>, log: seq<LogRow>, delivered: set<(nat, nat)>, inserted: set<(nat, nat)>,
    handled: seq<StepEvent>)

  /** InsertRow(i, tag) is the insert of the handler that was given copy i under this tag, whether or not it still has
      the delivery. */
  datatype Event = Queue(step: Broker.Step<StepEvent>) | InsertRow(i: nat, tag: nat) | HandlerReturns(i: nat)

  predicate Enabled(a: Audit, e: Event) {
    match e
    case Queue(step) => !step.Succeed? && Broker.Enabled(a.queues, step)
    case InsertRow(i, tag) => i < |a.queues.copies| && (i, tag) in a.delivered
    case HandlerReturns(i) =>
      Broker.AtStage(a.queues, i, Broker.Running) && (i, a.queues.copies[i].place.tag) in a.inserted
  }

  function AfterBroker(maxRetries: nat, a: Audit, step: Broker.Step<StepEvent>): Audit
    requires Broker.Enabled(a.queues, step)
  {
    a.(queues := Broker.Next(maxRetries, a.queues, step),
       delivered := if step.Consume? then a.delivered + {(step.i, |a.queues.runs|)} else a.delivered)
  }

  function Next(maxRetries: nat, a: Audit, e: Event): Audit
    requires Enabled(a, e)
  {
    match e
    case Queue(step) => AfterBroker(maxRetries, a, step)
    case InsertRow(i, tag) =>
      var c := a.queues.copies[i];
      a.(log := Append(a.log, c.content), handled := a.handled + [c.content], inserted := a.inserted + {(i, tag)})
    case HandlerReturns(i) => AfterBroker(maxRetries, a, Broker.Succeed(i))
  }

  predicate Legal(maxRetries: nat, a: Audit, events: seq<Event>)
    decreases |events|
  {
    events == [] || (Enabled(a, events[0]) && Legal(maxRetries, Next(maxRetries, a, events[0]), events[1..]))
  }

  function Run(maxRetries: nat, a: Audit, events: seq<Event>): Audit
    requires Legal(maxRetries, a, events)
    decreases |events|
  {
    if events == [] then a else Run(maxRetries, Next(maxRetries, a, events[0]), events[1..])
  }

  function Initial(): Audit { Audit(Broker.Empty(), [], {}, {}, []) }

  // ----- inserting again changes nothing

  ghost predicate OneRowEach(rows: seq<LogRow>) {
    forall i, j :: 0 <= i < j < |rows| ==> rows[i].eventId != rows[j].eventId
  }

  /** The first event with each id, in order. */
  function Firsts(events: seq<StepEvent>): seq<StepEvent> {
    if events == [] then [] else
    var before, last := events[..|events| - 1], events[|events| - 1];
    if exists i :: 0 <= i < |before| && before[i].messageId == last.messageId then Firsts(before)
    else Firsts(before) + [last]
  }

  function Rows(events: seq<StepEvent>): seq<LogRow> {
    seq(|events|, i requires 0 <= i < |events| => RowOf(events[i]))
  }

  lemma {:induction false} FirstsIds(events: seq<StepEvent>, id: string)
    ensures (exists i :: 0 <= i < |Firsts(events)| && Firsts(events)[i].messageId == id)
            <==> exists i :: 0 <= i < |events| && events[i].messageId == id
  {
    if events != [] {
      var before, last := events[..|events| - 1], events[|events| - 1];
      FirstsIds(before, id);
      FirstsIds(before, last.messageId);
      var fs, gs := Firsts(before), Firsts(events);
      if i :| 0 <= i < |fs| && fs[i].messageId == id { assert gs[i].messageId == id; }
      if i :| 0 <= i < |before| && before[i].messageId == id { assert events[i].messageId == id; }
      if last.messageId == id && !(exists i :: 0 <= i < |before| && before[i].messageId == id) {
        assert gs[|fs|].messageId == id;
      }
    }
  }

  /** Any sequence of inserts, with any repetition, leaves one row for the first event with each id. */
  lemma {:induction false} AppendsOnce(events: seq<StepEvent>)
    ensures AppendAll([], events) == Rows(Firsts(events)) && OneRowEach(AppendAll([], events))
  {
    if events != [] {
      var before, last := events[..|events| - 1], events[|events| - 1];
      AppendsOnce(before);
      FirstsIds(before, last.messageId);
      var fs := Firsts(before);
      var log := AppendAll([], before);
      assert forall i :: 0 <= i < |fs| ==> log[i].eventId == fs[i].messageId;
      assert Rows(fs + [last]) == Rows(fs) + [RowOf(last)];
    }
  }

  // ----- the invariant

  /** Events are told apart by their message id, which buildEvent draws fresh. */
  ghost predicate Identified(events: seq<StepEvent>) {
    forall i, j :: 0 <= i < |events| && 0 <= j < |events| && events[i].messageId == events[j].messageId ==>
      events[i] == events[j]
  }

  /** A delivery whose handler has inserted has its row. */
  ghost predicate DeliveryOk(a: Audit, i: nat)
    requires i < |a.queues.copies|
  {
    var c := a.queues.copies[i];
    c.place.InFlight? ==>
      c.place.tag < |a.queues.runs| && ((i, c.place.tag) in a.inserted ==> Logged(a.log, c.content.messageId))
  }

  ghost predicate Inv(maxRetries: nat, a: Audit) {
    && BrokerLaws.Sound(maxRetries, a.queues)
    && a.log == AppendAll([], a.handled)
    && (forall e :: e in a.handled ==> e in a.queues.arrived)
    && (forall i :: 0 <= i < |a.queues.copies| ==> DeliveryOk(a, i))
    && (forall d :: d in a.inserted ==> d in a.delivered)
    && (forall d :: d in a.delivered ==> d.0 < |a.queues.copies| && d.1 < |a.queues.runs|)
    && (forall o :: o in a.queues.done ==> o < |a.queues.arrived| && Logged(a.log, a.queues.arrived[o].messageId))
  }

  lemma LoggedStays(rows: seq<LogRow>, e: StepEvent, id: string)
    ensures Logged(rows, id) || id == e.messageId ==> Logged(Append(rows, e), id)
  {
    var after := Append(rows, e);
    if i :| 0 <= i < |rows| && rows[i].eventId == id { assert after[i].eventId == id; }
    if id == e.messageId && !Logged(rows, id) { assert after[|rows|].eventId == id; }
  }

  lemma InsertStep(maxRetries: nat, a: Audit, i: nat, tag: nat)
    requires Inv(maxRetries, a) && Enabled(a, InsertRow(i, tag))
    ensures Inv(maxRetries, Next(maxRetries, a, InsertRow(i, tag)))
  {
    hide BrokerLaws.Sound, Logged, Append;
    var e := a.queues.copies[i].content;
    var t := Next(maxRetries, a, InsertRow(i, tag));
    BrokerLaws.CopyContent(maxRetries, a.queues, i);
    assert t.handled[..|a.handled|] == a.handled;
    forall id | Logged(a.log, id) || id == e.messageId ensures Logged(t.log, id) { LoggedStays(a.log, e, id); }
    assert DeliveryOk(a, i);
    forall j | 0 <= j < |t.queues.copies| ensures DeliveryOk(t, j) { assert DeliveryOk(a, j); }
  }

  lemma QueueStep(maxRetries: nat, a: Audit, step: Broker.Step<StepEvent>)
    requires BrokerLaws.Sound(maxRetries, a.queues) && Broker.Enabled(a.queues, step)
    ensures var q := Broker.Next(maxRetries, a.queues, step);
      && |q.copies| >= |a.queues.copies| && a.queues.arrived <= q.arrived
      && |q.runs| == |a.queues.runs| + (if step.Consume? then 1 else 0)
      && (forall j :: 0 <= j < |q.copies| && q.copies[j].place.InFlight? ==>
            || (j < |a.queues.copies| && a.queues.copies[j].place.InFlight?
                && a.queues.copies[j].place.tag == q.copies[j].place.tag
                && a.queues.copies[j].content == q.copies[j].content)
            || (q.copies[j].place.tag == |a.queues.runs| && |q.runs| == |a.queues.runs| + 1))
      && q.done == if step.Succeed? then a.queues.done + {a.queues.copies[step.i].origin} else a.queues.done
  {
    hide BrokerLaws.Sound;
  }

  lemma BrokerStep(maxRetries: nat, a: Audit, step: Broker.Step<StepEvent>)
    requires Inv(maxRetries, a) && Broker.Enabled(a.queues, step)
    requires step.Succeed? ==> Logged(a.log, a.queues.copies[step.i].content.messageId)
    ensures Inv(maxRetries, AfterBroker(maxRetries, a, step))
  {
    hide BrokerLaws.Sound, Logged, Broker.Next, AppendAll;
    var t := AfterBroker(maxRetries, a, step);
    BrokerLaws.SoundStep(maxRetries, a.queues, step);
    QueueStep(maxRetries, a, step);
    if step.Succeed? { BrokerLaws.CopyContent(maxRetries, a.queues, step.i); }
    forall j | 0 <= j < |t.queues.copies| ensures DeliveryOk(t, j) {
      if j < |a.queues.copies| { assert DeliveryOk(a, j); }
    }
  }

  lemma Step(maxRetries: nat, a: Audit, e: Event)
    requires Inv(maxRetries, a) && Enabled(a, e)
    ensures Inv(maxRetries, Next(maxRetries, a, e))
  {
    hide Inv, BrokerLaws.Sound;
    match e
    case Queue(step) => BrokerStep(maxRetries, a, step);
    case InsertRow(i, tag) => InsertStep(maxRetries, a, i, tag);
    case HandlerReturns(i) =>
      ReturningIsLogged(maxRetries, a, i);
      BrokerStep(maxRetries, a, Broker.Succeed(i));
  }

  lemma ReturningIsLogged(maxRetries: nat, a: Audit, i: nat)
    requires Inv(maxRetries, a) && Enabled(a, HandlerReturns(i))
    ensures Logged(a.log, a.queues.copies[i].content.messageId)
  {
    hide BrokerLaws.Sound, Logged;
    assert DeliveryOk(a, i);
  }

  lemma {:induction false} RunInv(maxRetries: nat, a: Audit, events: seq<Event>)
    requires Inv(maxRetries, a) && Legal(maxRetries, a, events)
    ensures Inv(maxRetries, Run(maxRetries, a, events))
    decreases |events|
  {
    hide Inv;
    if events != [] {
      Step(maxRetries, a, events[0]);
      RunInv(maxRetries, Next(maxRetries, a, events[0]), events[1..]);
    }
  }

  /** For every run, with any redelivery, crash after the insert, or handler that outlives its delivery: one row per
      event id, the log is one insert of the first of each handled event, and the id of every event whose handling
      succeeded is in it. */
  lemma AuditedOnce(maxRetries: nat, events: seq<Event>)
    requires Legal(maxRetries, Initial(), events)
    ensures var a := Run(maxRetries, Initial(), events);
      && OneRowEach(a.log)
      && a.log == Rows(Firsts(a.handled))
      && (forall e :: e in a.handled ==> e in a.queues.arrived)
      && (forall o :: o in a.queues.done ==> o < |a.queues.arrived| && Logged(a.log, a.queues.arrived[o].messageId))
  {
    hide BrokerLaws.Sound;
    BrokerLaws.EmptySound<StepEvent>(maxRetries);
    RunInv(maxRetries, Initial(), events);
    AppendsOnce(Run(maxRetries, Initial(), events).handled);
  }

  lemma {:induction false} FirstsAreHandled(events: seq<StepEvent>)
    ensures forall e :: e in Firsts(events) ==> e in events
  {
    if events != [] { FirstsAreHandled(events[..|events| - 1]); }
  }

  /** When message ids identify events, the row of a successfully handled event is exactly that event's. */
  lemma OwnRow(maxRetries: nat, events: seq<Event>, o: nat)
    requires Legal(maxRetries, Initial(), events)
    requires var a := Run(maxRetries, Initial(), events); Identified(a.queues.arrived) && o in a.queues.done
    ensures var a := Run(maxRetries, Initial(), events);
      o < |a.queues.arrived| && RowOf(a.queues.arrived[o]) in a.log
  {
    var a := Run(maxRetries, Initial(), events);
    AuditedOnce(maxRetries, events);
    FirstsAreHandled(a.handled);
    var i :| 0 <= i < |a.log| && a.log[i].eventId == a.queues.arrived[o].messageId;
    var e := Firsts(a.handled)[i];
    assert a.log[i] == RowOf(e) && e in a.queues.arrived;
    var p :| 0 <= p < |a.queues.arrived| && a.queues.arrived[p] == e;
    assert a.queues.arrived[p].messageId == a.queues.arrived[o].messageId;
  }
}
