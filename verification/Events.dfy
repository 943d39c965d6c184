/** Domain events: their names, the envelope built around a payload, and the validation that publish performs. */
module Events {
  import opened Seqs
  import opened Text
  import opened Schema
  import opened Contracts
  import opened ContractLaws

  const VIDEO_UPLOADED := "video.uploaded"
  const PROCESSING_STEP_STARTED := "processing.step.started"
  const PROCESSING_STEP_COMPLETED := "processing.step.completed"
  const PROCESSING_STEP_FAILED := "processing.step.failed"
  const PROCESSING_COMPLETED := "processing.completed"
  const PROCESSING_FAILED := "processing.failed"

  const EventMetadataShape := Strict(map[
    "messageId" := Field(true, Text(UuidText)),
    "correlationId" := Field(false, Text(MinOne)),
    "causationId" := Field(false, Text(MinOne)),
    "occurredAt" := Field(true, Text(DateTimeText)),
    "producer" := Field(true, Text(NonBlank)),
    "version" := Field(true, Number(true, Positive))])

  function EventShape(name: string, payload: Shape): Shape {
    Strict(map[
      "name" := Field(true, Literal(name)),
      "payload" := Field(true, payload),
      "metadata" := Field(true, EventMetadataShape)])
  }

  const VideoUploadedShape := Strict(map[
    "bucket" := Field(true, Text(NonBlank)),
    "key" := Field(true, Text(NonBlank)),
    "videoId" := Field(true, Text(UuidText))])

  /** The metadata buildEvent writes when the caller gives no correlation or causation id. */
  datatype EventMetadata = EventMetadata(messageId: string, occurredAt: string, producer: string, version: nat)

  function MetadataMembers(m: EventMetadata): Json {
    JObject(map["messageId" := JString(m.messageId), "occurredAt" := JString(m.occurredAt),
                "producer" := JString(m.producer), "version" := JNumber(m.version as real)])
  }

  function Envelope(name: string, payload: Json, metadata: Json): map<string, Json> {
    map["name" := JString(name), "payload" := payload, "metadata" := metadata]
  }

  function BuildEvent(name: string, payload: Json, m: EventMetadata): Json {
    JObject(Envelope(name, payload, MetadataMembers(m)))
  }

  ghost predicate ValidEnvelope(z: Zod, m: EventMetadata) {
    IsUuid(m.messageId) && z.isDateTime(m.occurredAt) && Trim(m.producer) != "" && m.version > 0
  }

  /** What publish sends, or nothing when the schema rejects the event and publish throws. */
  function Validated(z: Zod, name: string, shape: Shape, payload: Json, m: EventMetadata): Option<Json> {
    Parse(z, EventShape(name, shape), BuildEvent(name, payload, m))
  }

  lemma VersionParses(z: Zod, v: nat)
    requires v > 0
    ensures Parse(z, Number(true, Positive), JNumber(v as real)) == Some(JNumber(v as real))
  {}

  lemma EnvelopeParses(z: Zod, m: EventMetadata)
    requires ValidEnvelope(z, m)
    ensures Parse(z, EventMetadataShape, MetadataMembers(m)) == Some(MetadataMembers(m.(producer := Trim(m.producer))))
  {
    hide Parse;
    LeafParses(z, UuidText, m.messageId);
    LeafParses(z, DateTimeText, m.occurredAt);
    LeafParses(z, NonBlank, m.producer);
    VersionParses(z, m.version);
    StrictParses(z, EventMetadataShape.fields, MetadataMembers(m).members,
                 MetadataMembers(m.(producer := Trim(m.producer))).members);
  }

  lemma EventAccepted(z: Zod, name: string, shape: Shape, payload: Json, p: Json, metadata: Json, m: Json)
    requires Parse(z, shape, payload) == Some(p) && Parse(z, EventMetadataShape, metadata) == Some(m)
    ensures Parse(z, EventShape(name, shape), JObject(Envelope(name, payload, metadata)))
            == Some(JObject(Envelope(name, p, m)))
  {
    hide Parse, EventMetadataShape;
    LeafParses(z, AnyText, name);
    StrictParses(z, EventShape(name, shape).fields, Envelope(name, payload, metadata), Envelope(name, p, m));
  }

  lemma EventRejected(z: Zod, name: string, shape: Shape, payload: Json, metadata: Json)
    requires Parse(z, shape, payload) == None
    ensures Parse(z, EventShape(name, shape), JObject(Envelope(name, payload, metadata))) == None
  {
    hide Parse, EventMetadataShape;
    StrictRejects(z, EventShape(name, shape).fields, Envelope(name, payload, metadata), "payload");
  }

  lemma EnvelopeRejected(z: Zod, m: EventMetadata)
    requires !ValidEnvelope(z, m)
    ensures Parse(z, EventMetadataShape, MetadataMembers(m)) == None
  {
    hide Parse, IsUuid, Trim;
    var fields, members := EventMetadataShape.fields, MetadataMembers(m).members;
    LeafParses(z, UuidText, m.messageId);
    LeafParses(z, DateTimeText, m.occurredAt);
    LeafParses(z, NonBlank, m.producer);
    NumberParses(z, true, Positive, members["version"]);
    if !IsUuid(m.messageId) {
      StrictRejects(z, fields, members, "messageId");
    } else if !z.isDateTime(m.occurredAt) {
      StrictRejects(z, fields, members, "occurredAt");
    } else if Trim(m.producer) == "" {
      StrictRejects(z, fields, members, "producer");
    } else {
      StrictRejects(z, fields, members, "version");
    }
  }

  lemma BadEnvelope(z: Zod, name: string, shape: Shape, payload: Json, metadata: Json)
    requires Parse(z, EventMetadataShape, metadata) == None
    ensures Parse(z, EventShape(name, shape), JObject(Envelope(name, payload, metadata))) == None
  {
    hide Parse, EventMetadataShape;
    StrictRejects(z, EventShape(name, shape).fields, Envelope(name, payload, metadata), "metadata");
  }

  /** Publish sends exactly when the payload schema accepts the payload and the envelope is well formed: a UUID, a
      date-time, a visible producer and a positive version.  It sends the normalised payload, not the one it was given,
      under the name it was given. */
  lemma PublishSendsParsedPayload(z: Zod, name: string, shape: Shape, payload: Json, m: EventMetadata)
    ensures Validated(z, name, shape, payload, m).Some?
            <==> && Parse(z, shape, payload).Some?
                 && IsUuid(m.messageId) && z.isDateTime(m.occurredAt) && Trim(m.producer) != "" && m.version > 0
    ensures Validated(z, name, shape, payload, m).Some? ==>
      Validated(z, name, shape, payload, m).value
      == JObject(map["name" := JString(name), "payload" := Parse(z, shape, payload).value,
                     "metadata" := JObject(map["messageId" := JString(m.messageId),
                                               "occurredAt" := JString(m.occurredAt),
                                               "producer" := JString(Trim(m.producer)),
                                               "version" := JNumber(m.version as real)])])
  {
    hide Parse, EventMetadataShape, EventShape, IsUuid, Trim;
    var metadata := MetadataMembers(m);
    if !ValidEnvelope(z, m) {
      EnvelopeRejected(z, m);
      BadEnvelope(z, name, shape, payload, metadata);
    } else {
      EnvelopeParses(z, m);
      match Parse(z, shape, payload)
      case None => EventRejected(z, name, shape, payload, metadata);
      case Some(p) =>
        EventAccepted(z, name, shape, payload, p, metadata, MetadataMembers(m.(producer := Trim(m.producer))));
    }
  }

  // ----- the terminal event of a video

  function RoutingKey(r: PipelineResult): string {
    if r.Completed? then PROCESSING_COMPLETED else PROCESSING_FAILED
  }

  function TerminalShape(heights: seq<nat>, r: PipelineResult): Shape {
    if r.Completed? then CompletedShape(heights) else FailedShape
  }

  /** The payload publishResult gets onto the exchange for r, if any. */
  function TerminalPayload(z: Zod, heights: seq<nat>, r: PipelineResult): Option<PipelineResult> {
    match Parse(z, TerminalShape(heights, r), ResultJson(r)) case Some(p) => Some(ToResult(p)) case None => None
  }

  lemma TerminalPayloadIsTidy(z: Zod, heights: seq<nat>, r: PipelineResult)
    ensures TerminalPayload(z, heights, r) == if ValidResult(z, heights, r) then Some(Tidy(r)) else None
  {
    hide Parse;
    if r.Completed? {
      CompletedParses(z, heights, r);
    } else {
      FailedParses(z, heights, r);
    }
    ResultFromJson(Tidy(r));
  }
}
