/** The shared contracts: result types, their schemas, and how a value of each type reads back from JSON. */
module Contracts {
  import opened Seqs
  import opened Text
  import opened Schema

  const RENDITION_HEIGHTS: seq<nat> := [1080, 720, 480]

  datatype MetadataChild = MetadataChild(videoId: string, metadata: Json)
  datatype TranscodeChild = TranscodeChild(videoId: string, resolution: nat, outputKey: string)
  datatype ChildResult = Metadata(metadata: MetadataChild) | Transcode(transcode: TranscodeChild) {
    function VideoId(): string { if Metadata? then metadata.videoId else transcode.videoId }
  }
  datatype Failure = Failure(childKey: string, error: string)
  datatype PipelineResult =
    | Completed(videoId: string, metadata: MetadataChild, renditions: seq<TranscodeChild>)
    | Failed(videoId: string, failures: seq<Failure>)

  // ----- schemas

  const ThumbnailShape := Strict(map[
    "timestamp" := Field(true, Number(false, NonNegative)),
    "url" := Field(true, Text(UrlText))])

  const AudioTrackShape := Strict(map[
    "index" := Field(true, Number(true, NonNegative)),
    "trackIndex" := Field(true, Number(true, NonNegative)),
    "codec" := Field(true, Nullable(Text(AnyText))),
    "channels" := Field(true, Nullable(Number(true, Positive))),
    "sampleRate" := Field(true, Nullable(Number(false, Positive))),
    "language" := Field(true, Nullable(Text(AnyText))),
    "title" := Field(true, Nullable(Text(AnyText))),
    "label" := Field(true, Text(NonBlank)),
    "url" := Field(false, Text(UrlText))])

  const VideoMetadataShape := Strict(map[
    "fileName" := Field(false, Text(AnyText)),
    "duration" := Field(false, Number(false, NonNegative)),
    "format" := Field(false, Text(AnyText)),
    "size" := Field(false, Number(false, NonNegative)),
    "width" := Field(false, Number(true, Positive)),
    "height" := Field(false, Number(true, Positive)),
    "bitrate" := Field(false, Number(false, NonNegative)),
    "fps" := Field(false, Text(AnyText)),
    "codec" := Field(false, Text(AnyText)),
    "thumbnails" := Field(false, ArrayOf(ThumbnailShape, 0, None)),
    "audioTracks" := Field(false, ArrayOf(AudioTrackShape, 0, None))])

  const MetadataChildShape := Strict(map[
    "kind" := Field(true, Literal("metadata")),
    "status" := Field(true, Literal("completed")),
    "videoId" := Field(true, Text(UuidText)),
    "metadata" := Field(true, VideoMetadataShape)])

  function TranscodeChildShape(heights: seq<nat>): Shape {
    Strict(map[
      "kind" := Field(true, Literal("transcode")),
      "status" := Field(true, Literal("completed")),
      "videoId" := Field(true, Text(UuidText)),
      "resolution" := Field(true, OneOf(heights)),
      "outputKey" := Field(true, Text(NonBlank))])
  }

  function ChildShape(heights: seq<nat>): Shape {
    Union("kind", map["metadata" := MetadataChildShape, "transcode" := TranscodeChildShape(heights)])
  }

  const FailureShape := Strict(map[
    "childKey" := Field(true, Text(NonBlank)),
    "error" := Field(true, Text(NonBlank))])

  function CompletedShape(heights: seq<nat>): Shape {
    Strict(map[
      "status" := Field(true, Literal("completed")),
      "videoId" := Field(true, Text(UuidText)),
      "metadata" := Field(true, MetadataChildShape),
      "renditions" := Field(true, ArrayOf(TranscodeChildShape(heights), 0, Some(|heights|)))])
  }

  const FailedShape := Strict(map[
    "status" := Field(true, Literal("failed")),
    "videoId" := Field(true, Text(UuidText)),
    "failures" := Field(true, ArrayOf(FailureShape, 1, None))])

  function PipelineShape(heights: seq<nat>): Shape {
    Union("status", map["completed" := CompletedShape(heights), "failed" := FailedShape])
  }

  // ----- values as JSON

  function MetadataJson(m: MetadataChild): Json {
    JObject(map["kind" := JString("metadata"), "status" := JString("completed"),
                "videoId" := JString(m.videoId), "metadata" := m.metadata])
  }

  function TranscodeJson(t: TranscodeChild): Json {
    JObject(map["kind" := JString("transcode"), "status" := JString("completed"), "videoId" := JString(t.videoId),
                "resolution" := JNumber(t.resolution as real), "outputKey" := JString(t.outputKey)])
  }

  function ChildJson(c: ChildResult): Json {
    match c case Metadata(m) => MetadataJson(m) case Transcode(t) => TranscodeJson(t)
  }

  function FailureJson(f: Failure): Json {
    JObject(map["childKey" := JString(f.childKey), "error" := JString(f.error)])
  }

  function TranscodeArray(rs: seq<TranscodeChild>): Json {
    JArray(seq(|rs|, i requires 0 <= i < |rs| => TranscodeJson(rs[i])))
  }

  function FailureArray(fs: seq<Failure>): Json {
    JArray(seq(|fs|, i requires 0 <= i < |fs| => FailureJson(fs[i])))
  }

  function ResultJson(r: PipelineResult): Json {
    match r
    case Completed(v, m, rs) =>
      JObject(map["status" := JString("completed"), "videoId" := JString(v), "metadata" := MetadataJson(m),
                  "renditions" := TranscodeArray(rs)])
    case Failed(v, fs) =>
      JObject(map["status" := JString("failed"), "videoId" := JString(v), "failures" := FailureArray(fs)])
  }

  // ----- JSON as values; only ever applied to what a schema accepted

  function Member(j: Json, k: string): Json {
    if j.JObject? && k in j.members then j.members[k] else JNull
  }

  function TextOf(j: Json): string { if j.JString? then j.s else "" }

  function NatOf(j: Json): nat { if j.JNumber? && j.n >= 0.0 then j.n.Floor else 0 }

  function ItemsOf(j: Json): seq<Json> { if j.JArray? then j.items else [] }

  function ToMetadata(j: Json): MetadataChild {
    MetadataChild(TextOf(Member(j, "videoId")), Member(j, "metadata"))
  }

  function ToTranscode(j: Json): TranscodeChild {
    TranscodeChild(TextOf(Member(j, "videoId")), NatOf(Member(j, "resolution")), TextOf(Member(j, "outputKey")))
  }

  function ToChild(j: Json): ChildResult {
    if Member(j, "kind") == JString("metadata") then Metadata(ToMetadata(j)) else Transcode(ToTranscode(j))
  }

  function ToFailure(j: Json): Failure {
    Failure(TextOf(Member(j, "childKey")), TextOf(Member(j, "error")))
  }

  function ToResult(j: Json): PipelineResult {
    var v := TextOf(Member(j, "videoId"));
    if Member(j, "status") == JString("completed") then
      var items := ItemsOf(Member(j, "renditions"));
      Completed(v, ToMetadata(Member(j, "metadata")),
                seq(|items|, i requires 0 <= i < |items| => ToTranscode(items[i])))
    else
      var items := ItemsOf(Member(j, "failures"));
      Failed(v, seq(|items|, i requires 0 <= i < |items| => ToFailure(items[i])))
  }

  /** processingChildResultSchema.safeParse */
  function ReadChild(z: Zod, heights: seq<nat>, j: Json): Option<ChildResult> {
    match Parse(z, ChildShape(heights), j) case Some(p) => Some(ToChild(p)) case None => None
  }

  /** processingPipelineResultSchema.safeParse */
  function ReadResult(z: Zod, heights: seq<nat>, j: Json): Option<PipelineResult> {
    match Parse(z, PipelineShape(heights), j) case Some(p) => Some(ToResult(p)) case None => None
  }

  // ----- what the schemas accept, said without them

  predicate NotNegative(j: Json) { j.JNumber? && j.n >= 0.0 }

  predicate IsPositive(j: Json) { j.JNumber? && j.n > 0.0 }

  predicate IsInteger(j: Json) { j.JNumber? && j.n == j.n.Floor as real }

  predicate IsUrl(z: Zod, j: Json) { j.JString? && z.isUrl(j.s) }

  /** The seconds into the video and the address of a thumbnail. */
  predicate IsThumbnail(z: Zod, j: Json) {
    && j.JObject? && j.members.Keys == {"timestamp", "url"}
    && NotNegative(j.members["timestamp"]) && IsUrl(z, j.members["url"])
  }

  predicate TrackField(z: Zod, name: string, j: Json) {
    if name == "index" || name == "trackIndex" then IsInteger(j) && NotNegative(j)
    else if name == "codec" || name == "language" || name == "title" then j.JNull? || j.JString?
    else if name == "channels" then j.JNull? || (IsInteger(j) && IsPositive(j))
    else if name == "sampleRate" then j.JNull? || IsPositive(j)
    else if name == "label" then j.JString? && Trim(j.s) != ""
    else name == "url" && IsUrl(z, j)
  }

  /** An audio track has every field but its url, which it may leave out. */
  predicate IsTrack(z: Zod, j: Json) {
    && j.JObject?
    && {"index", "trackIndex", "codec", "channels", "sampleRate", "language", "title", "label"} <= j.members.Keys
    && forall k :: k in j.members ==> TrackField(z, k, j.members[k])
  }

  predicate MetadataField(z: Zod, name: string, j: Json) {
    if name == "fileName" || name == "format" || name == "fps" || name == "codec" then j.JString?
    else if name == "duration" || name == "size" || name == "bitrate" then NotNegative(j)
    else if name == "width" || name == "height" then IsInteger(j) && IsPositive(j)
    else if name == "thumbnails" then j.JArray? && forall i :: 0 <= i < |j.items| ==> IsThumbnail(z, j.items[i])
    else name == "audioTracks" && j.JArray? && forall i :: 0 <= i < |j.items| ==> IsTrack(z, j.items[i])
  }

  /** Video metadata: any of the known fields, each as it should be, and no other. */
  predicate IsMetadata(z: Zod, j: Json) {
    j.JObject? && forall k :: k in j.members ==> MetadataField(z, k, j.members[k])
  }

  function TrimLabel(track: Json): Json {
    if track.JObject? && "label" in track.members then
      JObject(track.members["label" := JString(Trim(TextOf(track.members["label"])))])
    else track
  }

  function TrimTracks(tracks: Json): Json {
    if tracks.JArray? then JArray(seq(|tracks.items|, i requires 0 <= i < |tracks.items| => TrimLabel(tracks.items[i])))
    else tracks
  }

  /** The labels of the audio tracks trimmed, and nothing else changed. */
  function TrimLabels(metadata: Json): Json {
    if metadata.JObject? && "audioTracks" in metadata.members then
      JObject(metadata.members["audioTracks" := TrimTracks(metadata.members["audioTracks"])])
    else metadata
  }

  /** JSON of a child result, member by member. */
  predicate IsMetadataResult(z: Zod, j: Json) {
    && j.JObject? && j.members.Keys == {"kind", "status", "videoId", "metadata"}
    && j.members["kind"] == JString("metadata") && j.members["status"] == JString("completed")
    && j.members["videoId"].JString? && IsUuid(j.members["videoId"].s)
    && IsMetadata(z, j.members["metadata"])
  }

  predicate IsTranscodeResult(heights: seq<nat>, j: Json) {
    && j.JObject? && j.members.Keys == {"kind", "status", "videoId", "resolution", "outputKey"}
    && j.members["kind"] == JString("transcode") && j.members["status"] == JString("completed")
    && j.members["videoId"].JString? && IsUuid(j.members["videoId"].s)
    && j.members["resolution"].JNumber?
    && (exists i :: 0 <= i < |heights| && heights[i] as real == j.members["resolution"].n)
    && j.members["outputKey"].JString? && Trim(j.members["outputKey"].s) != ""
  }

  predicate IsFailure(j: Json) {
    && j.JObject? && j.members.Keys == {"childKey", "error"}
    && j.members["childKey"].JString? && Trim(j.members["childKey"].s) != ""
    && j.members["error"].JString? && Trim(j.members["error"].s) != ""
  }

  predicate IsCompletedResult(z: Zod, heights: seq<nat>, j: Json) {
    && j.JObject? && j.members.Keys == {"status", "videoId", "metadata", "renditions"}
    && j.members["status"] == JString("completed")
    && j.members["videoId"].JString? && IsUuid(j.members["videoId"].s)
    && IsMetadataResult(z, j.members["metadata"])
    && j.members["renditions"].JArray? && |j.members["renditions"].items| == |heights|
    && forall i :: 0 <= i < |heights| ==> IsTranscodeResult(heights, j.members["renditions"].items[i])
  }

  predicate IsFailedResult(j: Json) {
    && j.JObject? && j.members.Keys == {"status", "videoId", "failures"}
    && j.members["status"] == JString("failed")
    && j.members["videoId"].JString? && IsUuid(j.members["videoId"].s)
    && j.members["failures"].JArray? && |j.members["failures"].items| >= 1
    && forall i :: 0 <= i < |j.members["failures"].items| ==> IsFailure(j.members["failures"].items[i])
  }

  ghost predicate ValidMetadata(z: Zod, m: MetadataChild) { IsUuid(m.videoId) && IsMetadata(z, m.metadata) }

  ghost predicate ValidTranscode(heights: seq<nat>, t: TranscodeChild) {
    IsUuid(t.videoId) && t.resolution in heights && Trim(t.outputKey) != ""
  }

  ghost predicate ValidChild(z: Zod, heights: seq<nat>, c: ChildResult) {
    match c case Metadata(m) => ValidMetadata(z, m) case Transcode(t) => ValidTranscode(heights, t)
  }

  ghost predicate ValidFailure(f: Failure) { Trim(f.childKey) != "" && Trim(f.error) != "" }

  ghost predicate ValidResult(z: Zod, heights: seq<nat>, r: PipelineResult) {
    && IsUuid(r.videoId)
    && match r
       case Completed(_, m, rs) =>
         && ValidMetadata(z, m) && |rs| == |heights|
         && forall i :: 0 <= i < |rs| ==> ValidTranscode(heights, rs[i])
       case Failed(_, fs) => |fs| >= 1 && forall i :: 0 <= i < |fs| ==> ValidFailure(fs[i])
  }

  function TidyMetadata(m: MetadataChild): MetadataChild { m.(metadata := TrimLabels(m.metadata)) }

  function TidyTranscode(t: TranscodeChild): TranscodeChild { t.(outputKey := Trim(t.outputKey)) }

  function TidyChild(c: ChildResult): ChildResult {
    match c case Metadata(m) => Metadata(TidyMetadata(m)) case Transcode(t) => Transcode(TidyTranscode(t))
  }

  function TidyFailure(f: Failure): Failure { Failure(Trim(f.childKey), Trim(f.error)) }

  /** A result with its free texts trimmed and its metadata normalised. */
  function Tidy(r: PipelineResult): PipelineResult {
    match r
    case Completed(v, m, rs) =>
      Completed(v, TidyMetadata(m), seq(|rs|, i requires 0 <= i < |rs| => TidyTranscode(rs[i])))
    case Failed(v, fs) => Failed(v, seq(|fs|, i requires 0 <= i < |fs| => TidyFailure(fs[i])))
  }
}
