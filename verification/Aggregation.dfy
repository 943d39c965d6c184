/** aggregateProcessingResults: one pipeline result from whatever the child jobs returned. */
module Aggregation {
  import opened Seqs
  import opened Text
  import opened Schema
  import opened Contracts

  type Entry = (string, Json)
  datatype Outcome = Returned(result: PipelineResult) | Threw(height: nat)
  datatype Selection = Selected(renditions: seq<TranscodeChild>) | Absent(height: nat)

  /** How a failed child, given by its key and its failure reason, is listed in the result. */
  function Reported(e: (string, string)): Failure {
    Failure(e.0, if Trim(e.1) != "" then Trim(e.1) else "Child failed without an error message")
  }

  function ChildFailure(): ((string, string)) -> seq<Failure> { (e: (string, string)) => [Reported(e)] }

  function Rejection(z: Zod, e: Entry): Failure { Failure(e.0, "Invalid child result: " + z.explain(e.1)) }

  function Rejected(z: Zod, heights: seq<nat>): Entry -> seq<Failure> {
    (e: Entry) =>
      if ReadChild(z, heights, e.1).Some? then [] else [Rejection(z, e)]
  }

  function Accepted(z: Zod, heights: seq<nat>): Entry -> seq<ChildResult> {
    (e: Entry) => match ReadChild(z, heights, e.1) case Some(c) => [c] case None => []
  }

  function OtherVideo(videoId: string): ChildResult -> seq<ChildResult> {
    (c: ChildResult) => if c.VideoId() != videoId then [c] else []
  }

  function MetadataOnly(): ChildResult -> seq<MetadataChild> {
    (c: ChildResult) => if c.Metadata? then [c.metadata] else []
  }

  function TranscodeOnly(): ChildResult -> seq<TranscodeChild> {
    (c: ChildResult) => if c.Transcode? then [c.transcode] else []
  }

  function AtHeight(h: nat): TranscodeChild -> seq<TranscodeChild> {
    (t: TranscodeChild) => if t.resolution == h then [t] else []
  }

  function WrongCount(transcodes: seq<TranscodeChild>): nat -> seq<Failure> {
    (h: nat) =>
      var count := |FlatMap(AtHeight(h), transcodes)|;
      if count == 1 then []
      else
        [Failure("transcode-" + Decimal(h),
                 "Expected exactly one " + Decimal(h) + "p result, received " + Decimal(count))]
  }

  function First<T>(s: seq<T>): Option<T> { if s == [] then None else Some(s[0]) }

  function Select(heights: seq<nat>, transcodes: seq<TranscodeChild>): Selection {
    if heights == [] then Selected([])
    else
      match First(FlatMap(AtHeight(heights[0]), transcodes))
      case None => Absent(heights[0])
      case Some(t) =>
        match Select(heights[1..], transcodes)
        case Absent(h) => Absent(h)
        case Selected(rest) => Selected([t] + rest)
  }

  function Blame(videoId: string, error: string): Outcome {
    Returned(Failed(videoId, [Failure("orchestrator", error)]))
  }

  function Aggregate(
    z: Zod, heights: seq<nat>, videoId: string, children: seq<Entry>, failed: seq<(string, string)>
  ): Outcome {
    var childFailures := FlatMap(ChildFailure(), failed);
    if childFailures != [] then Returned(Failed(videoId, childFailures)) else
    var rejected := FlatMap(Rejected(z, heights), children);
    if rejected != [] then Returned(Failed(videoId, rejected)) else
    Combine(heights, videoId, FlatMap(Accepted(z, heights), children))
  }

  function Combine(heights: seq<nat>, videoId: string, results: seq<ChildResult>): Outcome {
    var mismatched := FlatMap(OtherVideo(videoId), results);
    if mismatched != [] then Blame(videoId, "Received " + Decimal(|mismatched|) + " result(s) for another video") else
    var metadata := FlatMap(MetadataOnly(), results);
    var transcodes := FlatMap(TranscodeOnly(), results);
    if |metadata| != 1 then
      Blame(videoId, "Expected exactly one " + "metadata result, received " + Decimal(|metadata|))
    else
    var wrong := FlatMap(WrongCount(transcodes), heights);
    if wrong != [] then Returned(Failed(videoId, wrong))
    else if |transcodes| != |heights| then
      Blame(videoId, "Expected " + Decimal(|heights|) + " rendition results, received " + Decimal(|transcodes|))
    else
      match First(metadata)
      case None => Blame(videoId, "Metadata result is missing")
      case Some(m) =>
        match Select(heights, transcodes)
        case Absent(h) => Threw(h)
        case Selected(renditions) => Returned(Completed(videoId, m, renditions))
  }

  // ----- what the result means, said without the steps above

  ghost predicate AllRead(z: Zod, heights: seq<nat>, children: seq<Entry>) {
    forall i :: 0 <= i < |children| ==> ReadChild(z, heights, children[i].1).Some?
  }

  ghost function Values(z: Zod, heights: seq<nat>, children: seq<Entry>): (vs: seq<ChildResult>)
    requires AllRead(z, heights, children)
    ensures |vs| == |children| && forall i :: 0 <= i < |vs| ==> ReadChild(z, heights, children[i].1) == Some(vs[i])
  {
    seq(|children|, i requires 0 <= i < |children| => ReadChild(z, heights, children[i].1).value)
  }

  /** One metadata result and one rendition for each height, in the order of the heights. */
  ghost function Expected(m: MetadataChild, renditions: seq<TranscodeChild>): seq<ChildResult> {
    [Metadata(m)] + seq(|renditions|, i requires 0 <= i < |renditions| => Transcode(renditions[i]))
  }

  ghost predicate FitsHeights(heights: seq<nat>, renditions: seq<TranscodeChild>) {
    |renditions| == |heights| && forall i :: 0 <= i < |heights| ==> renditions[i].resolution == heights[i]
  }

  /** The children, in any order, are exactly the metadata m and these renditions, all of this video. */
  ghost predicate Assembles(
    z: Zod, heights: seq<nat>, videoId: string, children: seq<Entry>, m: MetadataChild, renditions: seq<TranscodeChild>
  ) {
    && AllRead(z, heights, children)
    && FitsHeights(heights, renditions)
    && multiset(Values(z, heights, children)) == multiset(Expected(m, renditions))
    && m.videoId == videoId && forall i :: 0 <= i < |renditions| ==> renditions[i].videoId == videoId
  }

  /** The entry reports this reason under this key: trimmed, or a fixed text when nothing is left of it. */
  ghost predicate Reports(f: Failure, key: string, reason: string) {
    && f.childKey == key
    && f.error == if Trim(reason) != "" then Trim(reason) else "Child failed without an error message"
  }

  /** A failure list is acceptable exactly when the child keys it reports are not blank. */
  ghost predicate KeysVisible(z: Zod, heights: seq<nat>, children: seq<Entry>, failed: seq<(string, string)>) {
    if failed != [] then forall i :: 0 <= i < |failed| ==> Trim(failed[i].0) != ""
    else forall i :: 0 <= i < |children| && ReadChild(z, heights, children[i].1).None? ==> Trim(children[i].0) != ""
  }

  /** Equal, or both failures that list the same entries in some order. */
  ghost predicate SameVerdict(a: Outcome, b: Outcome) {
    || a == b
    || (a.Returned? && b.Returned? && a.result.Failed? && b.result.Failed?
        && a.result.videoId == b.result.videoId && multiset(a.result.failures) == multiset(b.result.failures))
  }

  /** The texts a failure list takes from the outside have no white space at their ends. */
  ghost predicate KeysTidy(z: Zod, heights: seq<nat>, children: seq<Entry>, failed: seq<(string, string)>) {
    if failed != [] then forall i :: 0 <= i < |failed| ==> Trimmed(failed[i].0)
    else forall i :: 0 <= i < |children| && ReadChild(z, heights, children[i].1).None? ==>
      Trimmed(children[i].0) && Trimmed(Rejection(z, children[i]).error)
  }
}
