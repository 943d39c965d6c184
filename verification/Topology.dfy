/** Queue and exchange names, their bindings, and why a retried message can only return to the queue that failed it. */
module Topology {
  import opened Text
  import opened Events

  datatype Subscription = Subscription(consumer: string, event: string)

  datatype Part = MainQueue | RetryQueue | DeadLetterQueue | RetryExchange | ReturnExchange | DeadLetterExchange

  function Suffix(part: Part): string {
    match part
    case MainQueue => ""
    case RetryQueue => ".retry"
    case DeadLetterQueue => ".dead-letter"
    case RetryExchange => ".retry.exchange"
    case ReturnExchange => ".retry-return.exchange"
    case DeadLetterExchange => ".dead-letter.exchange"
  }

  function QueueName(prefix: string, s: Subscription): string { prefix + "." + s.consumer + "." + s.event }

  function Name(prefix: string, s: Subscription, part: Part): string { QueueName(prefix, s) + Suffix(part) }

  const EVENT_NAMES: set<string> := {
    VIDEO_UPLOADED, PROCESSING_STEP_STARTED, PROCESSING_STEP_COMPLETED, PROCESSING_STEP_FAILED,
    PROCESSING_COMPLETED, PROCESSING_FAILED}

  /** The queues and exchanges of a subscription, spelled out. */
  lemma NameFormats(prefix: string, s: Subscription)
    ensures var queue := prefix + "." + s.consumer + "." + s.event;
      && Name(prefix, s, MainQueue) == queue
      && Name(prefix, s, RetryQueue) == queue + ".retry"
      && Name(prefix, s, DeadLetterQueue) == queue + ".dead-letter"
      && Name(prefix, s, RetryExchange) == queue + ".retry.exchange"
      && Name(prefix, s, ReturnExchange) == queue + ".retry-return.exchange"
      && Name(prefix, s, DeadLetterExchange) == queue + ".dead-letter.exchange"
    ensures EVENT_NAMES == {"video.uploaded", "processing.step.started", "processing.step.completed",
                            "processing.step.failed", "processing.completed", "processing.failed"}
  {}

  // ----- reading a name from its last dot

  function LastDot(s: string): (i: int)
    ensures -1 <= i < |s|
    ensures i >= 0 ==> s[i] == '.'
    ensures forall j :: i < j < |s| ==> s[j] != '.'
  {
    if s == "" then -1 else if s[|s| - 1] == '.' then |s| - 1 else LastDot(s[..|s| - 1])
  }

  /** The text after the last dot, and the text before it. */
  function Last(s: string): string { s[LastDot(s) + 1..] }

  function Parent(s: string): string { if LastDot(s) >= 0 then s[..LastDot(s)] else "" }

  lemma SplitName(a: string, x: string)
    requires Lacks(x, '.')
    ensures Last(a + "." + x) == x && Parent(a + "." + x) == a
  {
    var s := a + "." + x;
    assert s[|a|] == '.';
    assert forall j :: |a| < j < |s| ==> s[j] == x[j - |a| - 1];
    assert LastDot(s) == |a|;
    assert s[|a| + 1..] == x && s[..|a|] == a;
  }

  function PartOf(name: string): Part {
    if Last(name) == "retry" then RetryQueue
    else if Last(name) == "dead-letter" then DeadLetterQueue
    else if Last(name) == "exchange" then
      if Last(Parent(name)) == "retry" then RetryExchange
      else if Last(Parent(name)) == "retry-return" then ReturnExchange
      else DeadLetterExchange
    else MainQueue
  }

  function QueueOfName(name: string): string {
    match PartOf(name)
    case MainQueue => name
    case RetryQueue => Parent(name)
    case DeadLetterQueue => Parent(name)
    case _ => Parent(Parent(name))
  }

  function EventOfQueue(queue: string): string {
    if Last(queue) == "uploaded" then VIDEO_UPLOADED
    else if Last(queue) == "started" then PROCESSING_STEP_STARTED
    else if Last(queue) == "completed" then
      if Last(Parent(queue)) == "step" then PROCESSING_STEP_COMPLETED else PROCESSING_COMPLETED
    else if Last(Parent(queue)) == "step" then PROCESSING_STEP_FAILED else PROCESSING_FAILED
  }

  // ----- reading undoes naming

  /** The last two segments of each event name, below any text. */
  lemma EventSegments(base: string, e: string)
    requires e in EVENT_NAMES
    ensures Last(base + "." + e) in {"uploaded", "started", "completed", "failed"}
    ensures EventOfQueue(base + "." + e) == e
  {
    hide Last, Parent;
    var q := base + "." + e;
    if e == VIDEO_UPLOADED {
      assert q == base + "." + "video" + "." + "uploaded";
      SplitName(base + "." + "video", "uploaded");
    } else if e == PROCESSING_STEP_STARTED {
      assert q == base + "." + "processing" + "." + "step" + "." + "started";
      SplitName(base + "." + "processing" + "." + "step", "started");
    } else if e == PROCESSING_STEP_COMPLETED {
      assert q == base + "." + "processing" + "." + "step" + "." + "completed";
      SplitName(base + "." + "processing" + "." + "step", "completed");
      SplitName(base + "." + "processing", "step");
    } else if e == PROCESSING_STEP_FAILED {
      assert q == base + "." + "processing" + "." + "step" + "." + "failed";
      SplitName(base + "." + "processing" + "." + "step", "failed");
      SplitName(base + "." + "processing", "step");
    } else if e == PROCESSING_COMPLETED {
      assert q == base + "." + "processing" + "." + "completed";
      SplitName(base + "." + "processing", "completed");
      SplitName(base, "processing");
    } else {
      assert q == base + "." + "processing" + "." + "failed";
      SplitName(base + "." + "processing", "failed");
      SplitName(base, "processing");
    }
  }

  lemma OneSegment(q: string, x: string)
    requires Lacks(x, '.') && (x == "retry" || x == "dead-letter")
    ensures var n := q + "." + x;
      PartOf(n) == (if x == "retry" then RetryQueue else DeadLetterQueue) && QueueOfName(n) == q
  {
    hide Last, Parent;
    SplitName(q, x);
  }

  lemma TwoSegments(q: string, x: string)
    requires Lacks(x, '.') && (x == "retry" || x == "retry-return" || x == "dead-letter")
    ensures var n := q + "." + x + "." + "exchange";
      && PartOf(n) == (if x == "retry" then RetryExchange
                       else if x == "retry-return" then ReturnExchange else DeadLetterExchange)
      && QueueOfName(n) == q
  {
    hide Last, Parent;
    SplitName(q + "." + x, "exchange");
    SplitName(q, x);
  }

  lemma SuffixSegments(q: string)
    ensures q + Suffix(RetryQueue) == q + "." + "retry" && q + Suffix(DeadLetterQueue) == q + "." + "dead-letter"
    ensures q + Suffix(RetryExchange) == q + "." + "retry" + "." + "exchange"
    ensures q + Suffix(ReturnExchange) == q + "." + "retry-return" + "." + "exchange"
    ensures q + Suffix(DeadLetterExchange) == q + "." + "dead-letter" + "." + "exchange"
    ensures q + Suffix(MainQueue) == q
  {}

  lemma NameReads(prefix: string, s: Subscription, part: Part)
    requires s.event in EVENT_NAMES
    ensures PartOf(Name(prefix, s, part)) == part && QueueOfName(Name(prefix, s, part)) == QueueName(prefix, s)
    ensures EventOfQueue(QueueName(prefix, s)) == s.event
  {
    hide Last, Parent, EventOfQueue, EVENT_NAMES, Suffix;
    var q := QueueName(prefix, s);
    EventSegments(prefix + "." + s.consumer, s.event);
    SuffixSegments(q);
    match part
    case MainQueue =>
    case RetryQueue => OneSegment(q, "retry");
    case DeadLetterQueue => OneSegment(q, "dead-letter");
    case RetryExchange => TwoSegments(q, "retry");
    case ReturnExchange => TwoSegments(q, "retry-return");
    case DeadLetterExchange => TwoSegments(q, "dead-letter");
  }

  /** All names derived for all subscriptions are different, whatever the consumers are called. */
  lemma NamesDistinct(prefix: string, s: Subscription, p: Part, t: Subscription, r: Part)
    requires s.event in EVENT_NAMES && t.event in EVENT_NAMES
    requires Name(prefix, s, p) == Name(prefix, t, r)
    ensures s == t && p == r
  {
    hide QueueName, Name, PartOf, QueueOfName, EventOfQueue;
    NameReads(prefix, s, p);
    NameReads(prefix, t, r);
    SameConsumer(prefix, s, t);
  }

  lemma SameConsumer(prefix: string, s: Subscription, t: Subscription)
    requires QueueName(prefix, s) == QueueName(prefix, t) && s.event == t.event
    ensures s == t
  {
    SplitAt(prefix + "." + s.consumer, "." + s.event, prefix + "." + t.consumer, "." + t.event) by {
      assert QueueName(prefix, s) == prefix + "." + s.consumer + ("." + s.event);
      assert QueueName(prefix, t) == prefix + "." + t.consumer + ("." + t.event);
    }
    SplitAt(prefix + ".", s.consumer, prefix + ".", t.consumer);
  }

  // ----- routing

  datatype Binding = Binding(exchange: string, key: string, queue: string)

  /** The four bindings subscribe makes. */
  function BindingsOf(prefix: string, exchange: string, s: Subscription): set<Binding> {
    {Binding(exchange, s.event, Name(prefix, s, MainQueue)),
     Binding(Name(prefix, s, ReturnExchange), s.event, Name(prefix, s, MainQueue)),
     Binding(Name(prefix, s, RetryExchange), s.event, Name(prefix, s, RetryQueue)),
     Binding(Name(prefix, s, DeadLetterExchange), s.event, Name(prefix, s, DeadLetterQueue))}
  }

  function Bindings(prefix: string, exchange: string, subs: set<Subscription>): set<Binding> {
    set s, b | s in subs && b in BindingsOf(prefix, exchange, s) :: b
  }

  /** The queues a message published to an exchange with a routing key reaches; event names hold no wildcards, so a
      topic exchange compares keys as a direct one does. */
  function Route(bindings: set<Binding>, exchange: string, key: string): set<string> {
    set b | b in bindings && b.exchange == exchange && b.key == key :: b.queue
  }

  /** The dead-letter arguments of a queue: where, and under which key, a message goes whose time in it is over. */
  datatype Forward = Forward(queue: string, exchange: string, key: string)

  /** Only the retry queue has such arguments: it sends expired messages to the retry-return exchange. */
  function ForwardOf(prefix: string, s: Subscription): Forward {
    Forward(Name(prefix, s, RetryQueue), Name(prefix, s, ReturnExchange), s.event)
  }

  function Forwards(prefix: string, subs: set<Subscription>): set<Forward> { set s | s in subs :: ForwardOf(prefix, s) }

  /** The queues a message reaches when its time in a queue is over. */
  function Expired(bindings: set<Binding>, forwards: set<Forward>, queue: string): set<string> {
    set f, q | f in forwards && f.queue == queue && q in Route(bindings, f.exchange, f.key) :: q
  }

  /** The queue each of the three exchanges of a subscription is meant to feed. */
  function Target(exchange: Part): Part {
    match exchange
    case RetryExchange => RetryQueue
    case ReturnExchange => MainQueue
    case _ => DeadLetterQueue
  }

  predicate IsExchange(p: Part) { p == RetryExchange || p == ReturnExchange || p == DeadLetterExchange }

  lemma OnlyOwnBinding(prefix: string, exchange: string, s: Subscription, t: Subscription, b: Binding, part: Part)
    requires s.event in EVENT_NAMES && t.event in EVENT_NAMES && b in BindingsOf(prefix, exchange, t)
    requires IsExchange(part) && b.exchange == Name(prefix, s, part) && Name(prefix, s, part) != exchange
    ensures b == Binding(Name(prefix, s, part), s.event, Name(prefix, s, Target(part)))
  {
    hide Name, EVENT_NAMES;
    var r := if b.exchange == Name(prefix, t, RetryExchange) then RetryExchange
             else if b.exchange == Name(prefix, t, ReturnExchange) then ReturnExchange else DeadLetterExchange;
    assert b.exchange == Name(prefix, t, r);
    NamesDistinct(prefix, s, part, t, r);
    forall p | IsExchange(p) && b.exchange == Name(prefix, t, p) ensures p == part {
      NamesDistinct(prefix, s, part, t, p);
    }
  }

  /** Each exchange of a subscription feeds its own queue and no other. */
  lemma OwnQueueOnly(prefix: string, exchange: string, subs: set<Subscription>, s: Subscription, part: Part)
    requires s in subs && (forall t :: t in subs ==> t.event in EVENT_NAMES)
    requires IsExchange(part) && Name(prefix, s, part) != exchange
    ensures Route(Bindings(prefix, exchange, subs), Name(prefix, s, part), s.event) == {Name(prefix, s, Target(part))}
  {
    hide Name, EVENT_NAMES, BindingsOf;
    var bindings := Bindings(prefix, exchange, subs);
    var own := Binding(Name(prefix, s, part), s.event, Name(prefix, s, Target(part)));
    OwnBinding(prefix, exchange, s, part);
    assert own in bindings;
    forall b | b in bindings && b.exchange == Name(prefix, s, part) ensures b == own {
      var t :| t in subs && b in BindingsOf(prefix, exchange, t);
      OnlyOwnBinding(prefix, exchange, s, t, b, part);
    }
  }

  lemma OwnBinding(prefix: string, exchange: string, s: Subscription, part: Part)
    requires IsExchange(part)
    ensures Binding(Name(prefix, s, part), s.event, Name(prefix, s, Target(part))) in BindingsOf(prefix, exchange, s)
  {
    hide Name;
  }

  /** A queue of a subscription forwards expired messages only if it is the retry queue, and then as that one does. */
  lemma OnlyOwnForward(prefix: string, subs: set<Subscription>, s: Subscription, part: Part, f: Forward)
    requires s in subs && (forall t :: t in subs ==> t.event in EVENT_NAMES)
    ensures f in Forwards(prefix, subs) && f.queue == Name(prefix, s, part)
            <==> part == RetryQueue && f == ForwardOf(prefix, s)
  {
    hide Name, EVENT_NAMES;
    if f in Forwards(prefix, subs) && f.queue == Name(prefix, s, part) {
      var t :| t in subs && f == ForwardOf(prefix, t);
      NamesDistinct(prefix, s, part, t, RetryQueue);
    }
  }

  /** A message a consumer rejected, along all its hops and for any set of subscriptions: from the retry exchange it
      reaches only this subscription's retry queue, when its time there is over only this subscription's main queue,
      and from the dead-letter exchange only this subscription's dead-letter queue, where it stays. */
  lemma RetryIsolated(prefix: string, exchange: string, subs: set<Subscription>, s: Subscription)
    requires s in subs && (forall t :: t in subs ==> t.event in EVENT_NAMES)
    requires forall p :: IsExchange(p) ==> Name(prefix, s, p) != exchange
    ensures var (bindings, forwards) := (Bindings(prefix, exchange, subs), Forwards(prefix, subs));
      && Route(bindings, Name(prefix, s, RetryExchange), s.event) == {Name(prefix, s, RetryQueue)}
      && Expired(bindings, forwards, Name(prefix, s, RetryQueue)) == {Name(prefix, s, MainQueue)}
      && Route(bindings, Name(prefix, s, DeadLetterExchange), s.event) == {Name(prefix, s, DeadLetterQueue)}
      && Expired(bindings, forwards, Name(prefix, s, DeadLetterQueue)) == {}
      && Expired(bindings, forwards, Name(prefix, s, MainQueue)) == {}
  {
    hide Name, EVENT_NAMES, Bindings, Forwards, Route;
    var bindings, forwards := Bindings(prefix, exchange, subs), Forwards(prefix, subs);
    OwnQueueOnly(prefix, exchange, subs, s, RetryExchange);
    OwnQueueOnly(prefix, exchange, subs, s, ReturnExchange);
    OwnQueueOnly(prefix, exchange, subs, s, DeadLetterExchange);
    forall part, f
      ensures f in forwards && f.queue == Name(prefix, s, part) <==> part == RetryQueue && f == ForwardOf(prefix, s)
    {
      OnlyOwnForward(prefix, subs, s, part, f);
    }
    assert ForwardOf(prefix, s) in forwards;
  }

  lemma MainBindings(prefix: string, exchange: string, subs: set<Subscription>, b: Binding)
    requires forall t, p :: t in subs ==> Name(prefix, t, p) != exchange
    ensures b in Bindings(prefix, exchange, subs) && b.exchange == exchange
            <==> exists t :: t in subs && b == Binding(exchange, t.event, Name(prefix, t, MainQueue))
  {
    hide Name;
    if b in Bindings(prefix, exchange, subs) && b.exchange == exchange {
      var t :| t in subs && b in BindingsOf(prefix, exchange, t);
      assert b == Binding(exchange, t.event, Name(prefix, t, MainQueue));
    }
    if t :| t in subs && b == Binding(exchange, t.event, Name(prefix, t, MainQueue)) {
      assert b in BindingsOf(prefix, exchange, t);
    }
  }

  /** An event published on the main exchange reaches the main queue of every subscription to it, and no other queue. */
  lemma PublishReaches(prefix: string, exchange: string, subs: set<Subscription>, event: string, queue: string)
    requires forall t, p :: t in subs ==> Name(prefix, t, p) != exchange
    ensures queue in Route(Bindings(prefix, exchange, subs), exchange, event)
            <==> exists t :: t in subs && t.event == event && Name(prefix, t, MainQueue) == queue
  {
    hide Name, Bindings;
    MainBindings(prefix, exchange, subs, Binding(exchange, event, queue));
    assert queue in Route(Bindings(prefix, exchange, subs), exchange, event)
           <==> Binding(exchange, event, queue) in Bindings(prefix, exchange, subs);
  }
}
