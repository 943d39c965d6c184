/** buildVideoResult: what the HTTP API shows of a processing row. */
module ResultView {
  import opened Seqs
  import opened Text
  import opened Schema
  import opened Contracts
  import opened ContractLaws
  import opened S3Keys
  import opened Rows

  datatype RenditionView = RenditionView(height: nat, tag: string, url: Option<string>, completed: bool)
  datatype View = View(
    videoId: string, status: Status, ready: bool, metadata: Option<Json>,
    renditions: seq<RenditionView>, finishedAt: Option<int>)

  function Find(renditions: seq<TranscodeChild>, h: nat): Option<TranscodeChild> {
    if renditions == [] then None
    else if renditions[0].resolution == h then Some(renditions[0])
    else Find(renditions[1..], h)
  }

  function ShowRendition(publicUrl: string -> string, completed: Option<PipelineResult>, h: nat): RenditionView {
    var found := if completed.Some? && completed.value.Completed? then Find(completed.value.renditions, h) else None;
    var url := if found.Some? then Some(publicUrl(found.value.outputKey)) else None;
    RenditionView(h, Decimal(h) + "p", url, found.Some?)
  }

  function ReadCompleted(z: Zod, heights: seq<nat>, record: Option<Row>): Option<PipelineResult> {
    if record.None? || record.value.result.None? then None else
    match ReadResult(z, heights, ResultJson(record.value.result.value))
    case Some(p) => if p.Completed? then Some(p) else None
    case None => None
  }

  function BuildVideoResult(
    z: Zod, heights: seq<nat>, publicUrl: string -> string, videoId: string, record: Option<Row>
  ): View {
    var status := if record.Some? then record.value.status else Pending;
    var completed := ReadCompleted(z, heights, record);
    View(
      videoId, status, status == RowCompleted && completed.Some?,
      if completed.Some? && completed.value.Completed? then Some(completed.value.metadata.metadata) else None,
      seq(|heights|, i requires 0 <= i < |heights| => ShowRendition(publicUrl, completed, heights[i])),
      if record.Some? then record.value.finishedAt else None)
  }

  // ----- when the view is ready

  /** The row is completed and holds a completed result the schema accepts. */
  ghost predicate ReadyRow(z: Zod, heights: seq<nat>, record: Option<Row>) {
    && record.Some? && record.value.status == RowCompleted && record.value.result.Some?
    && record.value.result.value.Completed? && ValidResult(z, heights, record.value.result.value)
  }

  /** The row holds a completed result the schema accepts. */
  ghost predicate HoldsCompleted(z: Zod, heights: seq<nat>, record: Option<Row>) {
    && record.Some? && record.value.result.Some?
    && record.value.result.value.Completed? && ValidResult(z, heights, record.value.result.value)
  }

  /** What every view says, for any row or none. */
  lemma ViewOfRow(z: Zod, heights: seq<nat>, publicUrl: string -> string, v: string, record: Option<Row>)
    ensures var view := BuildVideoResult(z, heights, publicUrl, v, record);
      && view.videoId == v
      && view.status == (if record.Some? then record.value.status else Pending)
      && view.finishedAt == (if record.Some? then record.value.finishedAt else None)
      && (view.ready <==> ReadyRow(z, heights, record))
      && (if HoldsCompleted(z, heights, record)
          then view.metadata == Some(TrimLabels(record.value.result.value.metadata.metadata))
          else view.metadata == None)
      && |view.renditions| == |heights|
      && forall i :: 0 <= i < |heights| ==>
           && view.renditions[i].height == heights[i] && view.renditions[i].tag == Decimal(heights[i]) + "p"
           && (!HoldsCompleted(z, heights, record) ==> !view.renditions[i].completed && view.renditions[i].url == None)
  {
    hide ReadResult, ResultJson, ValidResult, Decimal, Find;
    if record.Some? && record.value.result.Some? {
      StoredResultReadsBack(z, heights, record.value.result.value);
    }
  }

  // ----- when a ready view shows every height

  lemma {:induction false} FindTidy(rs: seq<TranscodeChild>, ts: seq<TranscodeChild>, h: nat)
    requires |ts| == |rs| && forall i :: 0 <= i < |rs| ==> ts[i] == TidyTranscode(rs[i])
    ensures Find(ts, h) == match Find(rs, h) case Some(t) => Some(TidyTranscode(t)) case None => None
  {
    hide Trim;
    if rs != [] { FindTidy(rs[1..], ts[1..], h); }
  }

  lemma {:induction false} FindIff(rs: seq<TranscodeChild>, h: nat)
    ensures Find(rs, h).Some? <==> exists i :: 0 <= i < |rs| && rs[i].resolution == h
  {
    if rs != [] {
      FindIff(rs[1..], h);
      if i :| 0 <= i < |rs[1..]| && rs[1..][i].resolution == h { assert rs[i + 1].resolution == h; }
      if i :| 0 < i < |rs| && rs[i].resolution == h { assert rs[1..][i - 1].resolution == h; }
    }
  }

  /** What a ready view shows at a height: the address of the first rendition of that height, or none. */
  lemma ShownAt(z: Zod, heights: seq<nat>, publicUrl: string -> string, v: string, record: Option<Row>, i: nat)
    requires ReadyRow(z, heights, record) && i < |heights|
    ensures var view := BuildVideoResult(z, heights, publicUrl, v, record);
      && |view.renditions| == |heights| && view.renditions[i].height == heights[i]
      && match Find(record.value.result.value.renditions, heights[i])
         case Some(t) => view.renditions[i].completed && view.renditions[i].url == Some(publicUrl(Trim(t.outputKey)))
         case None => !view.renditions[i].completed && view.renditions[i].url == None
  {
    hide ReadResult, ResultJson, ValidResult, Decimal, Trim;
    var r := record.value.result.value;
    StoredResultReadsBack(z, heights, r);
    FindTidy(r.renditions, Tidy(r).renditions, heights[i]);
  }

  function Resolutions(rs: seq<TranscodeChild>): seq<nat> {
    seq(|rs|, i requires 0 <= i < |rs| => rs[i].resolution)
  }

  /** Every height has an address. */
  ghost predicate Complete(view: View) {
    forall i :: 0 <= i < |view.renditions| ==> view.renditions[i].completed && view.renditions[i].url.Some?
  }

  /** A ready view shows every height exactly when no height occurs twice among the stored renditions. */
  lemma CompleteIff(z: Zod, heights: seq<nat>, publicUrl: string -> string, v: string, record: Option<Row>)
    requires ReadyRow(z, heights, record) && Distinct(heights)
    ensures Complete(BuildVideoResult(z, heights, publicUrl, v, record))
            <==> Distinct(Resolutions(record.value.result.value.renditions))
  {
    hide BuildVideoResult, Decimal, Trim, Find;
    var view := BuildVideoResult(z, heights, publicUrl, v, record);
    var rs := record.value.result.value.renditions;
    var found := Resolutions(rs);
    SameSize(z, heights, publicUrl, v, record);
    forall i | 0 <= i < |heights|
      ensures view.renditions[i].completed && view.renditions[i].url.Some? <==> heights[i] in found
    {
      ShownAt(z, heights, publicUrl, v, record, i);
      FindIff(rs, heights[i]);
      if heights[i] in found {
        var k :| 0 <= k < |found| && found[k] == heights[i];
        assert rs[k].resolution == heights[i];
      }
      if k :| 0 <= k < |rs| && rs[k].resolution == heights[i] { assert found[k] == heights[i]; }
    }
    ResolutionsAllowed(z, heights, record.value.result.value);
    CoversIff(heights, found);
    assert Complete(view) <==> forall i :: 0 <= i < |heights| ==> heights[i] in found;
  }

  lemma SameSize(z: Zod, heights: seq<nat>, publicUrl: string -> string, v: string, record: Option<Row>)
    ensures |BuildVideoResult(z, heights, publicUrl, v, record).renditions| == |heights|
  {
    hide ReadCompleted, ShowRendition;
  }

  lemma ResolutionsAllowed(z: Zod, heights: seq<nat>, r: PipelineResult)
    requires r.Completed? && ValidResult(z, heights, r)
    ensures |Resolutions(r.renditions)| == |heights|
    ensures forall h :: h in Resolutions(r.renditions) ==> h in heights
  {
    hide ValidMetadata, IsUuid, Trim;
    assert forall i :: 0 <= i < |r.renditions| ==> ValidTranscode(heights, r.renditions[i]);
  }

  // ----- counting

  ghost function Elements(s: seq<nat>): set<nat> { set x | x in s }

  lemma {:induction false} ElementCount(s: seq<nat>)
    ensures |Elements(s)| <= |s| && (|Elements(s)| == |s| <==> Distinct(s))
  {
    if s == [] {
      assert Elements(s) == {};
    } else {
      var rest := s[1..];
      ElementCount(rest);
      assert forall i :: 0 < i < |s| ==> s[i] == rest[i - 1];
      assert Elements(s) == Elements(rest) + {s[0]};
      if s[0] in rest {
        assert Elements(s) == Elements(rest);
        var k :| 0 <= k < |rest| && rest[k] == s[0];
        assert s[0] == s[k + 1];
      } else if Distinct(rest) {
        assert Distinct(s);
      } else {
        var i, j :| 0 <= i < j < |rest| && rest[i] == rest[j];
        assert s[i + 1] == s[j + 1];
      }
    }
  }

  lemma SubsetCount(a: set<nat>, b: set<nat>)
    requires a <= b
    ensures |a| <= |b| && (|a| == |b| ==> a == b)
  {
    assert b == a + (b - a);
    assert |b| == |a| + |b - a|;
  }

  /** As many picks as there are distinct heights cover every height exactly when no pick occurs twice. */
  lemma CoversIff(heights: seq<nat>, picks: seq<nat>)
    requires Distinct(heights) && |picks| == |heights| && forall h :: h in picks ==> h in heights
    ensures (forall i :: 0 <= i < |heights| ==> heights[i] in picks) <==> Distinct(picks)
  {
    ElementCount(heights);
    ElementCount(picks);
    assert Elements(picks) <= Elements(heights);
    SubsetCount(Elements(picks), Elements(heights));
    if forall i :: 0 <= i < |heights| ==> heights[i] in picks {
      assert Elements(heights) == Elements(picks);
    }
    if Distinct(picks) {
      forall i | 0 <= i < |heights| ensures heights[i] in picks {
        assert heights[i] in Elements(heights) && Elements(heights) == Elements(picks);
      }
    }
  }

  // ----- whose addresses a ready view shows

  /** The first stored rendition of the height has the key of this video's own object, up to white space around it. */
  ghost predicate OwnKey(v: string, h: nat, rs: seq<TranscodeChild>) {
    Find(rs, h).Some? && Trim(Find(rs, h).value.outputKey) == RenditionKey(v, h)
  }

  /** Whatever form addresses have, a ready view shows at a height the address of the video's own object exactly when
      the stored rendition of that height has its key. */
  lemma OwnAddressIff(z: Zod, heights: seq<nat>, v: string, record: Option<Row>, i: nat)
    requires ReadyRow(z, heights, record) && i < |heights|
    ensures (forall publicUrl: string -> string ::
               BuildVideoResult(z, heights, publicUrl, v, record).renditions[i].url
               == Some(publicUrl(RenditionKey(v, heights[i]))))
            <==> OwnKey(v, heights[i], record.value.result.value.renditions)
  {
    hide ReadResult, ResultJson, ValidResult, Decimal, Trim, Find, RenditionKey;
    forall publicUrl: string -> string
      ensures var shown := BuildVideoResult(z, heights, publicUrl, v, record).renditions[i].url;
        match Find(record.value.result.value.renditions, heights[i])
        case Some(t) => shown == Some(publicUrl(Trim(t.outputKey)))
        case None => shown == None
    {
      ShownAt(z, heights, publicUrl, v, record, i);
    }
    var same: string -> string := (key: string) => key;
    assert same(RenditionKey(v, heights[i])) == RenditionKey(v, heights[i]);
  }
}
