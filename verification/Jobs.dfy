/**
 The jobs of a video: their ids, the flow that creates them, and the job store they live in.  The store is BullMQ;
 assumed of it: adding a flow is atomic, and adding a job whose id exists in its queue changes nothing.
 */
module Jobs {
  import opened Text
  import opened Schema
  import opened Contracts
  import opened S3Keys

  const ATTEMPTS: nat := 3

  datatype JobKind = Orchestrator | MetadataJob | EncodeJob(height: nat)
  datatype JobState = Open | Succeeded(value: Json) | Exhausted(reason: string)
  datatype Job = Job(kind: JobKind, videoId: string, tries: nat, state: JobState)

  type Key = (string, string)
  type Store = map<Key, Job>

  function QueueOf(kind: JobKind): string {
    match kind
    case Orchestrator => "processing.orchestrator.queue"
    case MetadataJob => "processing.metadata.queue"
    case EncodeJob(_) => "processing.encode.queue"
  }

  function JobId(kind: JobKind, videoId: string): string {
    match kind
    case Orchestrator => "processing-" + videoId
    case MetadataJob => "metadata-" + videoId
    case EncodeJob(h) => "encode-" + videoId + "-" + Decimal(h)
  }

  function KeyOf(kind: JobKind, videoId: string): Key { (QueueOf(kind), JobId(kind, videoId)) }

  /** The name under which a child's result or failure is reported to its parent. */
  function ChildKey(kind: JobKind, videoId: string): string { "bull:" + QueueOf(kind) + ":" + JobId(kind, videoId) }

  function EncodeJobs(heights: seq<nat>): seq<JobKind> {
    seq(|heights|, i requires 0 <= i < |heights| => EncodeJob(heights[i]))
  }

  function ChildKinds(heights: seq<nat>): seq<JobKind> { [MetadataJob] + EncodeJobs(heights) }

  function AddJob(store: Store, kind: JobKind, videoId: string): Store {
    if KeyOf(kind, videoId) in store then store
    else store[KeyOf(kind, videoId) := Job(kind, videoId, 0, Open)]
  }

  function AddJobs(store: Store, kinds: seq<JobKind>, videoId: string): Store
    decreases |kinds|
  {
    if kinds == [] then store else AddJobs(AddJob(store, kinds[0], videoId), kinds[1..], videoId)
  }

  /** createProcessingFlow: the orchestrator job with one metadata child and one encode child for each height. */
  function AddFlow(heights: seq<nat>, store: Store, videoId: string): Store {
    AddJobs(store, [Orchestrator] + ChildKinds(heights), videoId)
  }

  /** What the workers return: the metadata job its parsed metadata, an encode job the key it wrote. */
  function ChildValue(kind: JobKind, videoId: string, metadata: Json): Json {
    match kind
    case EncodeJob(h) => TranscodeJson(TranscodeChild(videoId, h, RenditionKey(videoId, h)))
    case _ => MetadataJson(MetadataChild(videoId, metadata))
  }

  // ----- ids

  /** The queues, job ids and child keys, spelled out. */
  lemma KeyFormats(v: string, h: nat)
    ensures KeyOf(Orchestrator, v) == ("processing.orchestrator.queue", "processing-" + v)
    ensures KeyOf(MetadataJob, v) == ("processing.metadata.queue", "metadata-" + v)
    ensures KeyOf(EncodeJob(h), v) == ("processing.encode.queue", "encode-" + v + "-" + Decimal(h))
    ensures ChildKey(MetadataJob, v) == "bull:" + "processing.metadata.queue" + ":" + ("metadata-" + v)
    ensures ChildKey(EncodeJob(h), v) == "bull:" + "processing.encode.queue" + ":" + ("encode-" + v + "-" + Decimal(h))
  {
    hide Decimal;
  }

  /** The three id formats are injective and never meet: an id names one kind, one video and one height. */
  lemma JobIdsDistinct(k1: JobKind, v1: string, k2: JobKind, v2: string)
    requires JobId(k1, v1) == JobId(k2, v2)
    ensures k1 == k2 && v1 == v2
  {
    var id1, id2 := JobId(k1, v1), JobId(k2, v2);
    HeadOf(k1, v1);
    HeadOf(k2, v2);
    match k1
    case Orchestrator => SplitAt("processing-", v1, "processing-", v2);
    case MetadataJob => SplitAt("metadata-", v1, "metadata-", v2);
    case EncodeJob(h) => EncodeIds(v1, h, v2, k2.height);
  }

  lemma HeadOf(kind: JobKind, v: string)
    ensures JobId(kind, v) != ""
    ensures JobId(kind, v)[0] == match kind case Orchestrator => 'p' case MetadataJob => 'm' case EncodeJob(_) => 'e'
  {
    hide Decimal;
  }

  lemma EncodeIds(v1: string, h1: nat, v2: string, h2: nat)
    requires "encode-" + v1 + "-" + Decimal(h1) == "encode-" + v2 + "-" + Decimal(h2)
    ensures v1 == v2 && h1 == h2
  {
    hide Decimal;
    SplitLast("encode-" + v1, Decimal(h1), "encode-" + v2, Decimal(h2), '-');
    SplitAt("encode-", v1, "encode-", v2);
    DecimalInjective(h1, h2);
  }

  lemma KeysDistinct(k1: JobKind, v1: string, k2: JobKind, v2: string)
    ensures KeyOf(k1, v1) == KeyOf(k2, v2) <==> k1 == k2 && v1 == v2
  {
    if KeyOf(k1, v1) == KeyOf(k2, v2) {
      JobIdsDistinct(k1, v1, k2, v2);
    }
  }

  /** The database compares video ids as UUIDs, the job store as text: two spellings of one UUID share a row and get
      separate flows.  Ids therefore have to be in one canonical spelling, as randomUUID issues them. */
  lemma SpellingMatters()
    ensures IsVersionedUuid(SampleUuid('a')) && IsVersionedUuid(SampleUuid('A'))
    ensures SameIgnoringCase(SampleUuid('a'), SampleUuid('A'))
    ensures KeyOf(Orchestrator, SampleUuid('a')) != KeyOf(Orchestrator, SampleUuid('A'))
  {
    assert SampleUuid('a')[0] == 'a' && SampleUuid('A')[0] == 'A';
    KeysDistinct(Orchestrator, SampleUuid('a'), Orchestrator, SampleUuid('A'));
  }

  // ----- the flow

  ghost predicate Filed(store: Store) { forall k :: k in store ==> k == KeyOf(store[k].kind, store[k].videoId) }

  lemma {:induction false} JobsAdded(store: Store, kinds: seq<JobKind>, v: string)
    requires Filed(store)
    ensures var after := AddJobs(store, kinds, v);
      && Filed(after)
      && (forall k :: k in store ==> k in after && after[k] == store[k])
      && (forall k :: k in after && k !in store ==>
            after[k].kind in kinds && after[k] == Job(after[k].kind, v, 0, Open))
      && (forall kind :: kind in kinds ==>
            KeyOf(kind, v) in after && after[KeyOf(kind, v)].kind == kind && after[KeyOf(kind, v)].videoId == v)
    decreases |kinds|
  {
    hide KeyOf;
    if kinds != [] {
      var next := AddJob(store, kinds[0], v);
      if KeyOf(kinds[0], v) in store {
        var job := store[KeyOf(kinds[0], v)];
        KeysDistinct(kinds[0], v, job.kind, job.videoId);
      }
      JobsAdded(next, kinds[1..], v);
      assert forall kind :: kind in kinds <==> kind == kinds[0] || kind in kinds[1..];
    }
  }

  /** Adding the flow again, or in a store with other videos, leaves every existing job alone, and afterwards each job
      of the flow exists and is this video's. */
  lemma FlowAdded(heights: seq<nat>, store: Store, v: string)
    requires Filed(store)
    ensures var after := AddFlow(heights, store, v);
      && Filed(after)
      && (forall k :: k in store ==> k in after && after[k] == store[k])
      && (forall k :: k in after && k !in store ==>
            && (after[k].kind == Orchestrator || after[k].kind in ChildKinds(heights))
            && after[k] == Job(after[k].kind, v, 0, Open))
      && (forall kind :: kind == Orchestrator || kind in ChildKinds(heights) ==>
            KeyOf(kind, v) in after && after[KeyOf(kind, v)].kind == kind && after[KeyOf(kind, v)].videoId == v)
  {
    JobsAdded(store, [Orchestrator] + ChildKinds(heights), v);
  }

  /** At most one job of each kind for a video. */
  lemma OneJobEach(store: Store, a: Key, b: Key)
    requires Filed(store) && a in store && b in store
    ensures store[a].kind == store[b].kind && store[a].videoId == store[b].videoId ==> a == b
  {}
}
