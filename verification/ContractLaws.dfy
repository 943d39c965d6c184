/** What the result schemas accept, and that reading back what was written normalises it once and for all. */
module ContractLaws {
  import opened Seqs
  import opened Text
  import opened Schema
  import opened Contracts

  // ----- one parsing step for each kind of schema

  lemma StrictParses(z: Zod, fields: map<string, Field>, members: map<string, Json>, parsed: map<string, Json>)
    requires members.Keys <= fields.Keys && parsed.Keys == members.Keys
    requires forall k :: k in fields && fields[k].required ==> k in members
    requires forall k :: k in members ==> Parse(z, fields[k].schema, members[k]) == Some(parsed[k])
    ensures Parse(z, Strict(fields), JObject(members)) == Some(JObject(parsed))
  {
    assert Parse(z, Strict(fields), JObject(members)).value.members == parsed;
  }

  lemma StrictRejects(z: Zod, fields: map<string, Field>, members: map<string, Json>, k: string)
    requires k in fields && k in members && Parse(z, fields[k].schema, members[k]).None?
    ensures Parse(z, Strict(fields), JObject(members)) == None
  {}

  lemma ArrayParses(z: Zod, list: Shape, items: seq<Json>, parsed: seq<Json>)
    requires list.ArrayOf? && |items| == |parsed| >= list.min && (list.exact.Some? ==> |items| == list.exact.value)
    requires forall i :: 0 <= i < |items| ==> Parse(z, list.element, items[i]) == Some(parsed[i])
    ensures Parse(z, list, JArray(items)) == Some(JArray(parsed))
  {
    assert Parse(z, list, JArray(items)).value.items == parsed;
  }

  lemma ArrayRejects(z: Zod, list: Shape, items: seq<Json>)
    requires list.ArrayOf?
    requires
      || |items| < list.min || (list.exact.Some? && |items| != list.exact.value)
      || exists i :: 0 <= i < |items| && Parse(z, list.element, items[i]).None?
    ensures Parse(z, list, JArray(items)) == None
  {}

  lemma StrictForeign(z: Zod, fields: map<string, Field>, members: map<string, Json>, k: string)
    requires k in members && k !in fields
    ensures Parse(z, Strict(fields), JObject(members)) == None
  {
    assert !(members.Keys <= fields.Keys);
  }

  lemma StrictMissing(z: Zod, fields: map<string, Field>, members: map<string, Json>, k: string)
    requires k in fields && fields[k].required && k !in members
    ensures Parse(z, Strict(fields), JObject(members)) == None
  {}

  lemma WrongKind(z: Zod, shape: Shape, j: Json)
    ensures shape.Strict? && !j.JObject? ==> Parse(z, shape, j) == None
    ensures shape.ArrayOf? && !j.JArray? ==> Parse(z, shape, j) == None
  {}

  lemma AnyTextParses(z: Zod, j: Json)
    ensures Parse(z, Text(AnyText), j) == if j.JString? then Some(j) else None
    ensures Parse(z, Nullable(Text(AnyText)), j) == if j.JNull? || j.JString? then Some(j) else None
    ensures Parse(z, Text(UrlText), j) == if IsUrl(z, j) then Some(j) else None
    ensures Parse(z, Text(NonBlank), j)
            == if j.JString? && Trim(j.s) != "" then Some(JString(Trim(j.s))) else None
  {}

  lemma NumberParses(z: Zod, integral: bool, sign: Sign, j: Json)
    requires !sign.AnySign?
    ensures var fits := (if sign.Positive? then IsPositive(j) else NotNegative(j)) && (integral ==> IsInteger(j));
      && Parse(z, Number(integral, sign), j) == (if fits then Some(j) else None)
      && Parse(z, Nullable(Number(integral, sign)), j) == (if j.JNull? || fits then Some(j) else None)
  {}

  lemma UnionParses(z: Zod, union: Shape, members: map<string, Json>, x: string)
    requires union.Union? && union.tag in members && members[union.tag] == JString(x) && x in union.arms
    ensures Parse(z, union, JObject(members)) == Parse(z, union.arms[x], JObject(members))
  {}

  lemma LeafParses(z: Zod, rule: TextRule, s: string)
    ensures Parse(z, Literal(s), JString(s)) == Some(JString(s))
    ensures Parse(z, Text(rule), JString(s))
            == match ParseText(z, rule, s) case Some(t) => Some(JString(t)) case None => None
  {}

  lemma HeightParses(z: Zod, heights: seq<nat>, h: nat)
    ensures Parse(z, OneOf(heights), JNumber(h as real)) == if h in heights then Some(JNumber(h as real)) else None
  {}

  // ----- the schemas are well formed

  lemma StrictWellFormed(fields: map<string, Field>)
    requires forall k :: k in fields ==> WellFormed(fields[k].schema)
    ensures WellFormed(Strict(fields))
  {}

  lemma ArrayWellFormed(element: Shape, min: nat, exact: Option<nat>)
    requires WellFormed(element)
    ensures WellFormed(ArrayOf(element, min, exact))
  {}

  lemma UnionWellFormed(tag: string, arms: map<string, Shape>)
    requires forall x :: x in arms ==>
      && WellFormed(arms[x])
      && arms[x].Strict? && tag in arms[x].fields && arms[x].fields[tag] == Field(true, Literal(x))
    ensures WellFormed(Union(tag, arms))
  {}

  lemma LeavesWellFormed()
    ensures forall r :: WellFormed(Text(r)) && WellFormed(Nullable(Text(r)))
    ensures forall s :: WellFormed(Literal(s))
    ensures forall i, g :: WellFormed(Number(i, g)) && WellFormed(Nullable(Number(i, g)))
    ensures forall hs :: WellFormed(OneOf(hs))
  {}

  lemma MetadataWellFormed()
    ensures WellFormed(VideoMetadataShape) && WellFormed(MetadataChildShape)
  {
    hide WellFormed;
    LeavesWellFormed();
    StrictWellFormed(ThumbnailShape.fields);
    StrictWellFormed(AudioTrackShape.fields);
    ArrayWellFormed(ThumbnailShape, 0, None);
    ArrayWellFormed(AudioTrackShape, 0, None);
    StrictWellFormed(VideoMetadataShape.fields);
    StrictWellFormed(MetadataChildShape.fields);
  }

  lemma ChildWellFormed(heights: seq<nat>)
    ensures WellFormed(ChildShape(heights)) && WellFormed(TranscodeChildShape(heights))
  {
    hide WellFormed;
    hide VideoMetadataShape;
    LeavesWellFormed();
    MetadataWellFormed();
    StrictWellFormed(TranscodeChildShape(heights).fields);
    UnionWellFormed("kind", ChildShape(heights).arms);
  }

  lemma FailedWellFormed()
    ensures WellFormed(FailedShape)
  {
    hide WellFormed;
    LeavesWellFormed();
    StrictWellFormed(FailureShape.fields);
    ArrayWellFormed(FailureShape, 1, None);
    StrictWellFormed(FailedShape.fields);
  }

  lemma CompletedWellFormed(heights: seq<nat>)
    ensures WellFormed(CompletedShape(heights))
  {
    hide WellFormed;
    hide MetadataChildShape;
    hide TranscodeChildShape;
    LeavesWellFormed();
    MetadataWellFormed();
    ChildWellFormed(heights);
    ArrayWellFormed(TranscodeChildShape(heights), 0, Some(|heights|));
    StrictWellFormed(CompletedShape(heights).fields);
  }

  lemma PipelineWellFormed(heights: seq<nat>)
    ensures WellFormed(PipelineShape(heights))
  {
    hide WellFormed;
    hide MetadataChildShape;
    hide TranscodeChildShape;
    CompletedWellFormed(heights);
    FailedWellFormed();
    UnionWellFormed("status", PipelineShape(heights).arms);
  }

  // ----- exactly what each schema accepts, and what it returns

  lemma ThumbnailParses(z: Zod, j: Json)
    ensures Parse(z, ThumbnailShape, j) == if IsThumbnail(z, j) then Some(j) else None
  {
    hide Parse;
    WrongKind(z, ThumbnailShape, j);
    if j.JObject? {
      var fields, m := ThumbnailShape.fields, j.members;
      assert fields.Keys == {"timestamp", "url"};
      if k :| k in m && k !in fields { StrictForeign(z, fields, m, k); }
      else if k :| k in fields && k !in m { StrictMissing(z, fields, m, k); }
      else {
        NumberParses(z, false, NonNegative, m["timestamp"]);
        AnyTextParses(z, m["url"]);
        if !NotNegative(m["timestamp"]) { StrictRejects(z, fields, m, "timestamp"); }
        else if !IsUrl(z, m["url"]) { StrictRejects(z, fields, m, "url"); }
        else { StrictParses(z, fields, m, m); }
      }
    }
  }

  /** A strict object is accepted when its required members are there and each member is one the schema knows and
      accepts; what it becomes is decided member by member. */
  lemma ObjectParses(
    z: Zod, fields: map<string, Field>, j: Json, ok: (string, Json) -> bool, tidy: (string, Json) -> Json
  )
    requires forall k, x :: k in fields ==> Parse(z, fields[k].schema, x) == if ok(k, x) then Some(tidy(k, x)) else None
    requires forall k, x :: k !in fields ==> !ok(k, x)
    ensures Parse(z, Strict(fields), j).Some?
            <==> && j.JObject? && (forall k :: k in fields && fields[k].required ==> k in j.members)
                 && forall k :: k in j.members ==> ok(k, j.members[k])
    ensures Parse(z, Strict(fields), j).Some? ==>
      var p := Parse(z, Strict(fields), j).value;
      && p.JObject? && p.members.Keys == j.members.Keys
      && forall k :: k in j.members ==> p.members[k] == tidy(k, j.members[k])
  {
    hide Parse;
    WrongKind(z, Strict(fields), j);
    if j.JObject? {
      var m := j.members;
      if k :| k in m && k !in fields {
        StrictForeign(z, fields, m, k);
      } else if k :| k in fields && fields[k].required && k !in m {
        StrictMissing(z, fields, m, k);
      } else if k :| k in m && !ok(k, m[k]) {
        StrictRejects(z, fields, m, k);
      } else {
        StrictParses(z, fields, m, map k | k in m :: tidy(k, m[k]));
      }
    }
  }

  function TrackMember(name: string, j: Json): Json { if name == "label" then JString(Trim(TextOf(j))) else j }

  lemma TrackFieldParses(z: Zod, k: string, j: Json)
    ensures k in AudioTrackShape.fields ==>
      Parse(z, AudioTrackShape.fields[k].schema, j) == if TrackField(z, k, j) then Some(TrackMember(k, j)) else None
    ensures k !in AudioTrackShape.fields ==> !TrackField(z, k, j)
  {
    hide Parse, Trim;
    AnyTextParses(z, j);
    NumberParses(z, true, NonNegative, j);
    NumberParses(z, true, Positive, j);
    NumberParses(z, false, Positive, j);
  }

  lemma TrackNames(members: map<string, Json>)
    ensures AudioTrackShape.Strict?
    ensures (forall k :: k in AudioTrackShape.fields && AudioTrackShape.fields[k].required ==> k in members)
            <==> {"index", "trackIndex", "codec", "channels", "sampleRate", "language", "title", "label"}
                 <= members.Keys
  {
    var names := {"index", "trackIndex", "codec", "channels", "sampleRate", "language", "title", "label"};
    assert forall k :: k in AudioTrackShape.fields && AudioTrackShape.fields[k].required <==> k in names;
  }

  lemma TrackAccepted(z: Zod, j: Json)
    requires j.JObject?
    ensures Parse(z, AudioTrackShape, j).Some? <==> IsTrack(z, j)
    ensures Parse(z, AudioTrackShape, j).Some? ==>
      var p := Parse(z, AudioTrackShape, j).value;
      && p.JObject? && p.members.Keys == j.members.Keys
      && forall k :: k in j.members ==> p.members[k] == TrackMember(k, j.members[k])
  {
    hide Parse, Trim, AudioTrackShape, TrackField, TrackMember;
    TrackNames(j.members);
    var fields := AudioTrackShape.fields;
    forall k, x
      ensures k in fields ==>
        Parse(z, fields[k].schema, x) == if TrackField(z, k, x) then Some(TrackMember(k, x)) else None
      ensures k !in fields ==> !TrackField(z, k, x)
    {
      TrackFieldParses(z, k, x);
    }
    ObjectParses(z, fields, j, (k, x) => TrackField(z, k, x), TrackMember);
  }

  lemma TrackParses(z: Zod, j: Json)
    ensures Parse(z, AudioTrackShape, j) == if IsTrack(z, j) then Some(TrimLabel(j)) else None
  {
    hide Parse, Trim, AudioTrackShape, TrackField;
    if j.JObject? {
      TrackAccepted(z, j);
      if Parse(z, AudioTrackShape, j).Some? {
        assert Parse(z, AudioTrackShape, j).value.members == TrimLabel(j).members;
      }
    } else {
      TrackNames(map[]);
      WrongKind(z, AudioTrackShape, j);
    }
  }

  lemma TracksParse(z: Zod, j: Json)
    ensures Parse(z, ArrayOf(AudioTrackShape, 0, None), j)
            == if MetadataField(z, "audioTracks", j) then Some(TrimTracks(j)) else None
  {
    hide Parse, AudioTrackShape, IsTrack, TrimLabel;
    var list := ArrayOf(AudioTrackShape, 0, None);
    WrongKind(z, list, j);
    if j.JArray? {
      forall i | 0 <= i < |j.items|
        ensures Parse(z, list.element, j.items[i])
                == if IsTrack(z, j.items[i]) then Some(TrimLabel(j.items[i])) else None
      {
        TrackParses(z, j.items[i]);
      }
      if forall i :: 0 <= i < |j.items| ==> IsTrack(z, j.items[i]) {
        ArrayParses(z, list, j.items, TrimTracks(j).items);
      } else {
        ArrayRejects(z, list, j.items);
      }
    }
  }

  lemma ThumbnailsParse(z: Zod, j: Json)
    ensures Parse(z, ArrayOf(ThumbnailShape, 0, None), j) == if MetadataField(z, "thumbnails", j) then Some(j) else None
  {
    hide Parse, ThumbnailShape, IsThumbnail;
    var list := ArrayOf(ThumbnailShape, 0, None);
    WrongKind(z, list, j);
    if j.JArray? {
      forall i | 0 <= i < |j.items|
        ensures Parse(z, list.element, j.items[i]) == if IsThumbnail(z, j.items[i]) then Some(j.items[i]) else None
      {
        ThumbnailParses(z, j.items[i]);
      }
      if forall i :: 0 <= i < |j.items| ==> IsThumbnail(z, j.items[i]) {
        ArrayParses(z, list, j.items, j.items);
      } else {
        ArrayRejects(z, list, j.items);
      }
    }
  }

  function MetadataMember(name: string, j: Json): Json { if name == "audioTracks" then TrimTracks(j) else j }

  lemma MetadataFieldParses(z: Zod, k: string, j: Json)
    ensures k in VideoMetadataShape.fields ==>
      Parse(z, VideoMetadataShape.fields[k].schema, j)
      == if MetadataField(z, k, j) then Some(MetadataMember(k, j)) else None
    ensures k !in VideoMetadataShape.fields ==> !MetadataField(z, k, j)
  {
    hide Parse, TrimTracks, IsTrack, IsThumbnail, AudioTrackShape, ThumbnailShape;
    AnyTextParses(z, j);
    NumberParses(z, false, NonNegative, j);
    NumberParses(z, true, Positive, j);
    TracksParse(z, j);
    ThumbnailsParse(z, j);
  }

  lemma MetadataNames()
    ensures VideoMetadataShape.Strict?
    ensures forall k :: k in VideoMetadataShape.fields ==> !VideoMetadataShape.fields[k].required
  {}

  /** The metadata schema accepts exactly objects of known fields, each of its kind, and changes only the labels of the
      audio tracks, by trimming them. */
  lemma MetadataAccepted(z: Zod, j: Json)
    ensures Parse(z, VideoMetadataShape, j) == if IsMetadata(z, j) then Some(TrimLabels(j)) else None
  {
    hide Parse, VideoMetadataShape, MetadataField, TrimTracks;
    MetadataNames();
    var fields := VideoMetadataShape.fields;
    forall k, x
      ensures k in fields ==>
        Parse(z, fields[k].schema, x) == if MetadataField(z, k, x) then Some(MetadataMember(k, x)) else None
      ensures k !in fields ==> !MetadataField(z, k, x)
    {
      MetadataFieldParses(z, k, x);
    }
    ObjectParses(z, fields, j, (k, x) => MetadataField(z, k, x), MetadataMember);
    if IsMetadata(z, j) {
      assert Parse(z, VideoMetadataShape, j).value.members == TrimLabels(j).members;
    }
  }

  lemma MetadataParses(z: Zod, m: MetadataChild)
    ensures Parse(z, MetadataChildShape, MetadataJson(m))
            == if ValidMetadata(z, m) then Some(MetadataJson(TidyMetadata(m))) else None
  {
    hide Parse, IsMetadata, TrimLabels;
    MetadataAccepted(z, m.metadata);
    var fields, members := MetadataChildShape.fields, MetadataJson(m).members;
    LeafParses(z, AnyText, "metadata");
    LeafParses(z, AnyText, "completed");
    LeafParses(z, UuidText, m.videoId);
    if !IsUuid(m.videoId) {
      StrictRejects(z, fields, members, "videoId");
    } else if !IsMetadata(z, m.metadata) {
      StrictRejects(z, fields, members, "metadata");
    } else {
      StrictParses(z, fields, members, MetadataJson(TidyMetadata(m)).members);
    }
  }

  /** Metadata may leave every field out. */
  lemma EmptyMetadataParses(z: Zod)
    ensures Parse(z, VideoMetadataShape, JObject(map[])) == Some(JObject(map[]))
  {
    hide Parse;
    StrictParses(z, VideoMetadataShape.fields, map[], map[]);
  }

  lemma TranscodeParses(z: Zod, heights: seq<nat>, t: TranscodeChild)
    ensures Parse(z, TranscodeChildShape(heights), TranscodeJson(t))
            == if ValidTranscode(heights, t) then Some(TranscodeJson(TidyTranscode(t))) else None
  {
    hide Parse;
    var fields, members := TranscodeChildShape(heights).fields, TranscodeJson(t).members;
    LeafParses(z, AnyText, "transcode");
    LeafParses(z, AnyText, "completed");
    LeafParses(z, UuidText, t.videoId);
    LeafParses(z, NonBlank, t.outputKey);
    HeightParses(z, heights, t.resolution);
    if !IsUuid(t.videoId) {
      StrictRejects(z, fields, members, "videoId");
    } else if t.resolution !in heights {
      StrictRejects(z, fields, members, "resolution");
    } else if Trim(t.outputKey) == "" {
      StrictRejects(z, fields, members, "outputKey");
    } else {
      StrictParses(z, fields, members, TranscodeJson(TidyTranscode(t)).members);
    }
  }

  lemma FailureParses(z: Zod, f: Failure)
    ensures Parse(z, FailureShape, FailureJson(f))
            == if ValidFailure(f) then Some(FailureJson(TidyFailure(f))) else None
  {
    hide Parse;
    var fields, members := FailureShape.fields, FailureJson(f).members;
    LeafParses(z, NonBlank, f.childKey);
    LeafParses(z, NonBlank, f.error);
    if Trim(f.childKey) == "" {
      StrictRejects(z, fields, members, "childKey");
    } else if Trim(f.error) == "" {
      StrictRejects(z, fields, members, "error");
    } else {
      StrictParses(z, fields, members, FailureJson(TidyFailure(f)).members);
    }
  }

  lemma ChildParses(z: Zod, heights: seq<nat>, c: ChildResult)
    ensures Parse(z, ChildShape(heights), ChildJson(c))
            == if ValidChild(z, heights, c) then Some(ChildJson(TidyChild(c))) else None
  {
    hide Parse;
    match c
    case Metadata(m) =>
      UnionParses(z, ChildShape(heights), MetadataJson(m).members, "metadata");
      MetadataParses(z, m);
    case Transcode(t) =>
      UnionParses(z, ChildShape(heights), TranscodeJson(t).members, "transcode");
      TranscodeParses(z, heights, t);
  }

  lemma RenditionsParse(z: Zod, heights: seq<nat>, rs: seq<TranscodeChild>)
    ensures Parse(z, ArrayOf(TranscodeChildShape(heights), 0, Some(|heights|)), TranscodeArray(rs))
            == if |rs| == |heights| && forall i :: 0 <= i < |rs| ==> ValidTranscode(heights, rs[i])
               then Some(TranscodeArray(seq(|rs|, i requires 0 <= i < |rs| => TidyTranscode(rs[i])))) else None
  {
    hide Parse;
    var list, items := ArrayOf(TranscodeChildShape(heights), 0, Some(|heights|)), TranscodeArray(rs).items;
    forall i | 0 <= i < |rs|
      ensures Parse(z, list.element, items[i])
              == if ValidTranscode(heights, rs[i]) then Some(TranscodeJson(TidyTranscode(rs[i]))) else None
    {
      TranscodeParses(z, heights, rs[i]);
    }
    if |rs| == |heights| && forall i :: 0 <= i < |rs| ==> ValidTranscode(heights, rs[i]) {
      ArrayParses(z, list, items, TranscodeArray(seq(|rs|, i requires 0 <= i < |rs| => TidyTranscode(rs[i]))).items);
    } else {
      assert |rs| == |heights| ==> exists i :: 0 <= i < |rs| && Parse(z, list.element, items[i]).None?;
      ArrayRejects(z, list, items);
    }
  }

  lemma FailuresParse(z: Zod, fs: seq<Failure>)
    ensures Parse(z, ArrayOf(FailureShape, 1, None), FailureArray(fs))
            == if |fs| >= 1 && forall i :: 0 <= i < |fs| ==> ValidFailure(fs[i])
               then Some(FailureArray(seq(|fs|, i requires 0 <= i < |fs| => TidyFailure(fs[i])))) else None
  {
    hide Parse;
    var list, items := ArrayOf(FailureShape, 1, None), FailureArray(fs).items;
    forall i | 0 <= i < |fs|
      ensures Parse(z, list.element, items[i])
              == if ValidFailure(fs[i]) then Some(FailureJson(TidyFailure(fs[i]))) else None
    {
      FailureParses(z, fs[i]);
    }
    if |fs| >= 1 && forall i :: 0 <= i < |fs| ==> ValidFailure(fs[i]) {
      ArrayParses(z, list, items, FailureArray(seq(|fs|, i requires 0 <= i < |fs| => TidyFailure(fs[i]))).items);
    } else {
      assert |fs| >= 1 ==> exists i :: 0 <= i < |fs| && Parse(z, list.element, items[i]).None?;
      ArrayRejects(z, list, items);
    }
  }

  lemma CompletedParses(z: Zod, heights: seq<nat>, r: PipelineResult)
    requires r.Completed?
    ensures Parse(z, CompletedShape(heights), ResultJson(r))
            == if ValidResult(z, heights, r) then Some(ResultJson(Tidy(r))) else None
  {
    hide Parse;
    hide MetadataChildShape;
    hide TranscodeChildShape;
    var fields, members := CompletedShape(heights).fields, ResultJson(r).members;
    LeafParses(z, AnyText, "completed");
    LeafParses(z, UuidText, r.videoId);
    MetadataParses(z, r.metadata);
    RenditionsParse(z, heights, r.renditions);
    if !IsUuid(r.videoId) {
      StrictRejects(z, fields, members, "videoId");
    } else if !ValidMetadata(z, r.metadata) {
      StrictRejects(z, fields, members, "metadata");
    } else if !ValidResult(z, heights, r) {
      StrictRejects(z, fields, members, "renditions");
    } else {
      StrictParses(z, fields, members, ResultJson(Tidy(r)).members);
    }
  }

  lemma FailedParses(z: Zod, heights: seq<nat>, r: PipelineResult)
    requires r.Failed?
    ensures Parse(z, FailedShape, ResultJson(r))
            == if ValidResult(z, heights, r) then Some(ResultJson(Tidy(r))) else None
  {
    hide Parse;
    hide FailureShape;
    var fields, members := FailedShape.fields, ResultJson(r).members;
    LeafParses(z, AnyText, "failed");
    LeafParses(z, UuidText, r.videoId);
    FailuresParse(z, r.failures);
    if !IsUuid(r.videoId) {
      StrictRejects(z, fields, members, "videoId");
    } else if !ValidResult(z, heights, r) {
      StrictRejects(z, fields, members, "failures");
    } else {
      StrictParses(z, fields, members, ResultJson(Tidy(r)).members);
    }
  }

  lemma ResultParses(z: Zod, heights: seq<nat>, r: PipelineResult)
    ensures Parse(z, PipelineShape(heights), ResultJson(r))
            == if ValidResult(z, heights, r) then Some(ResultJson(Tidy(r))) else None
  {
    hide Parse;
    if r.Completed? {
      UnionParses(z, PipelineShape(heights), ResultJson(r).members, "completed");
      CompletedParses(z, heights, r);
    } else {
      UnionParses(z, PipelineShape(heights), ResultJson(r).members, "failed");
      FailedParses(z, heights, r);
    }
  }

  // ----- reading back

  lemma ChildFromJson(c: ChildResult)
    ensures ToChild(ChildJson(c)) == c
  {}

  lemma ResultFromJson(r: PipelineResult)
    ensures ToResult(ResultJson(r)) == r
  {
    match r
    case Completed(_, m, rs) =>
      var items := ItemsOf(Member(ResultJson(r), "renditions"));
      assert forall i :: 0 <= i < |rs| ==> ToTranscode(items[i]) == rs[i];
      assert ToResult(ResultJson(r)).renditions == rs;
    case Failed(_, fs) =>
      var items := ItemsOf(Member(ResultJson(r), "failures"));
      assert forall i :: 0 <= i < |fs| ==> ToFailure(items[i]) == fs[i];
      assert ToResult(ResultJson(r)).failures == fs;
  }

  /** A stored result reads back exactly when it is valid, and reads back tidied. */
  lemma StoredResultReadsBack(z: Zod, heights: seq<nat>, r: PipelineResult)
    ensures ReadResult(z, heights, ResultJson(r)) == if ValidResult(z, heights, r) then Some(Tidy(r)) else None
  {
    hide Parse;
    ResultParses(z, heights, r);
    ResultFromJson(Tidy(r));
  }

  lemma ChildReadsBack(z: Zod, heights: seq<nat>, c: ChildResult)
    ensures ReadChild(z, heights, ChildJson(c)) == if ValidChild(z, heights, c) then Some(TidyChild(c)) else None
  {
    hide Parse;
    ChildParses(z, heights, c);
    ChildFromJson(TidyChild(c));
  }

  /** Reading back what was read back changes nothing more, and stays valid. */
  lemma TidyTwice(z: Zod, heights: seq<nat>, r: PipelineResult)
    requires ValidResult(z, heights, r)
    ensures ValidResult(z, heights, Tidy(r)) && Tidy(Tidy(r)) == Tidy(r)
  {
    hide Parse;
    PipelineWellFormed(heights);
    ResultParses(z, heights, r);
    ParseIdempotent(z, PipelineShape(heights), ResultJson(r));
    ResultParses(z, heights, Tidy(r));
    ResultFromJson(Tidy(r));
    ResultFromJson(Tidy(Tidy(r)));
  }

  lemma ParsedMembers(z: Zod, fields: map<string, Field>, j: Json)
    requires Parse(z, Strict(fields), j).Some?
    requires forall k :: k in fields ==> fields[k].required
    ensures j.JObject? && j.members.Keys == fields.Keys
    ensures var p := Parse(z, Strict(fields), j).value;
      p.JObject? && p.members.Keys == fields.Keys
      && forall k :: k in fields ==> Parse(z, fields[k].schema, j.members[k]) == Some(p.members[k])
  {}

  lemma ParsedUnion(z: Zod, union: Shape, j: Json)
    requires union.Union? && Parse(z, union, j).Some?
    ensures j.JObject? && union.tag in j.members && j.members[union.tag].JString?
    ensures var x := j.members[union.tag].s; x in union.arms && Parse(z, union.arms[x], j) == Parse(z, union, j)
  {}

  // ----- which JSON is accepted at all

  lemma LeafAccepted(z: Zod, heights: seq<nat>, j: Json)
    ensures forall s :: Parse(z, Literal(s), j).Some? <==> j == JString(s)
    ensures Parse(z, Text(UuidText), j).Some? <==> j.JString? && IsUuid(j.s)
    ensures Parse(z, Text(NonBlank), j).Some? <==> j.JString? && Trim(j.s) != ""
    ensures Parse(z, OneOf(heights), j).Some?
            <==> j.JNumber? && exists i :: 0 <= i < |heights| && heights[i] as real == j.n
  {
    hide Trim, IsUuid;
  }

  lemma MetadataResultParses(z: Zod, j: Json)
    ensures Parse(z, MetadataChildShape, j).Some? <==> IsMetadataResult(z, j)
  {
    hide Parse, VideoMetadataShape, IsUuid, IsMetadata, Trim;
    WrongKind(z, MetadataChildShape, j);
    if Parse(z, MetadataChildShape, j).Some? {
      ParsedMembers(z, MetadataChildShape.fields, j);
      LeafAccepted(z, [], j.members["kind"]);
      LeafAccepted(z, [], j.members["status"]);
      LeafAccepted(z, [], j.members["videoId"]);
      MetadataAccepted(z, j.members["metadata"]);
    }
    if IsMetadataResult(z, j) {
      var m := MetadataChild(j.members["videoId"].s, j.members["metadata"]);
      assert MetadataJson(m).members == j.members;
      MetadataParses(z, m);
    }
  }

  lemma TranscodeResultParses(z: Zod, heights: seq<nat>, j: Json)
    ensures Parse(z, TranscodeChildShape(heights), j).Some? <==> IsTranscodeResult(heights, j)
    ensures IsTranscodeResult(heights, j) ==> exists t :: j == TranscodeJson(t) && ValidTranscode(heights, t)
  {
    hide Parse, IsUuid, Trim;
    WrongKind(z, TranscodeChildShape(heights), j);
    if Parse(z, TranscodeChildShape(heights), j).Some? {
      ParsedMembers(z, TranscodeChildShape(heights).fields, j);
      LeafAccepted(z, [], j.members["kind"]);
      LeafAccepted(z, [], j.members["status"]);
      LeafAccepted(z, [], j.members["videoId"]);
      LeafAccepted(z, heights, j.members["resolution"]);
      LeafAccepted(z, [], j.members["outputKey"]);
    }
    if IsTranscodeResult(heights, j) {
      var i :| 0 <= i < |heights| && heights[i] as real == j.members["resolution"].n;
      var t := TranscodeChild(j.members["videoId"].s, heights[i], j.members["outputKey"].s);
      assert TranscodeJson(t).members == j.members;
      TranscodeParses(z, heights, t);
    }
  }

  lemma FailureResultParses(z: Zod, j: Json)
    ensures Parse(z, FailureShape, j).Some? <==> IsFailure(j)
    ensures IsFailure(j) ==> exists f :: j == FailureJson(f) && ValidFailure(f)
  {
    hide Parse, Trim;
    WrongKind(z, FailureShape, j);
    if Parse(z, FailureShape, j).Some? {
      ParsedMembers(z, FailureShape.fields, j);
      LeafAccepted(z, [], j.members["childKey"]);
      LeafAccepted(z, [], j.members["error"]);
    }
    if IsFailure(j) {
      var f := Failure(j.members["childKey"].s, j.members["error"].s);
      assert FailureJson(f).members == j.members;
      FailureParses(z, f);
    }
  }

  lemma MetadataFromJson(z: Zod, heights: seq<nat>, j: Json)
    requires IsMetadataResult(z, j)
    ensures ReadChild(z, heights, j)
            == Some(Metadata(MetadataChild(j.members["videoId"].s, TrimLabels(j.members["metadata"]))))
  {
    hide ReadChild, IsUuid, IsMetadata, TrimLabels;
    var m := MetadataChild(j.members["videoId"].s, j.members["metadata"]);
    assert MetadataJson(m).members == j.members;
    ChildReadsBack(z, heights, Metadata(m));
  }

  lemma TranscodeFromJson(z: Zod, heights: seq<nat>, j: Json)
    requires IsTranscodeResult(heights, j)
    ensures j.members["resolution"].n.Floor >= 0
    ensures ReadChild(z, heights, j)
            == Some(Transcode(TranscodeChild(
                 j.members["videoId"].s, j.members["resolution"].n.Floor, Trim(j.members["outputKey"].s))))
  {
    hide ReadChild, IsUuid, Trim;
    var i :| 0 <= i < |heights| && heights[i] as real == j.members["resolution"].n;
    var t := TranscodeChild(j.members["videoId"].s, heights[i], j.members["outputKey"].s);
    assert TranscodeJson(t).members == j.members;
    ChildReadsBack(z, heights, Transcode(t));
  }

  /** The child schema accepts exactly the JSON of a metadata or a transcode result, and what is read is its content
      with labels and key trimmed. */
  lemma ChildAccepted(z: Zod, heights: seq<nat>, j: Json)
    ensures ReadChild(z, heights, j).Some? <==> IsMetadataResult(z, j) || IsTranscodeResult(heights, j)
    ensures IsMetadataResult(z, j) ==>
      ReadChild(z, heights, j)
      == Some(Metadata(MetadataChild(j.members["videoId"].s, TrimLabels(j.members["metadata"]))))
    ensures IsTranscodeResult(heights, j) ==>
      && j.members["resolution"].n.Floor >= 0
      && ReadChild(z, heights, j)
         == Some(Transcode(TranscodeChild(
              j.members["videoId"].s, j.members["resolution"].n.Floor, Trim(j.members["outputKey"].s))))
  {
    hide Parse, IsMetadataResult, IsTranscodeResult, TrimLabels, Trim, MetadataChildShape, TranscodeChildShape;
    if Parse(z, ChildShape(heights), j).Some? {
      ParsedUnion(z, ChildShape(heights), j);
      MetadataResultParses(z, j);
      TranscodeResultParses(z, heights, j);
    }
    if IsMetadataResult(z, j) { MetadataFromJson(z, heights, j); }
    if IsTranscodeResult(heights, j) { TranscodeFromJson(z, heights, j); }
  }

  /** Accepted JSON is the JSON of a valid child result. */
  lemma ChildFromAccepted(z: Zod, heights: seq<nat>, j: Json) returns (c: ChildResult)
    requires IsMetadataResult(z, j) || IsTranscodeResult(heights, j)
    ensures j == ChildJson(c) && ValidChild(z, heights, c)
  {
    hide IsUuid, IsMetadata, IsTranscodeResult;
    if IsMetadataResult(z, j) {
      var m := MetadataChild(j.members["videoId"].s, j.members["metadata"]);
      assert MetadataJson(m).members == j.members;
      c := Metadata(m);
    } else {
      TranscodeResultParses(z, heights, j);
      var t :| j == TranscodeJson(t) && ValidTranscode(heights, t);
      c := Transcode(t);
    }
  }

  /** Whatever the child schema accepts, from any JSON, is a valid child result that needs no further tidying. */
  lemma ReadChildIsValid(z: Zod, heights: seq<nat>, j: Json)
    requires ReadChild(z, heights, j).Some?
    ensures var c := ReadChild(z, heights, j).value; ValidChild(z, heights, c) && TidyChild(c) == c
  {
    hide Parse, ToChild, ChildShape, IsMetadataResult, IsTranscodeResult, ValidChild, TidyChild;
    ChildWellFormed(heights);
    ParseIdempotent(z, ChildShape(heights), j);
    var p := Parse(z, ChildShape(heights), j).value;
    ChildAccepted(z, heights, p);
    var c := ChildFromAccepted(z, heights, p);
    ChildFromJson(c);
    ChildReadsBack(z, heights, c);
  }

  lemma RenditionsFromJson(z: Zod, heights: seq<nat>, items: seq<Json>) returns (rs: seq<TranscodeChild>)
    requires forall i :: 0 <= i < |items| ==> IsTranscodeResult(heights, items[i])
    ensures |rs| == |items| && TranscodeArray(rs) == JArray(items)
    ensures forall i :: 0 <= i < |rs| ==> ValidTranscode(heights, rs[i])
  {
    hide IsTranscodeResult, TranscodeJson, ValidTranscode;
    if items == [] {
      rs := [];
    } else {
      TranscodeResultParses(z, heights, items[0]);
      var t :| items[0] == TranscodeJson(t) && ValidTranscode(heights, t);
      var rest := RenditionsFromJson(z, heights, items[1..]);
      rs := [t] + rest;
      assert forall i :: 0 < i < |items| ==> items[i] == TranscodeArray(rest).items[i - 1];
    }
  }

  lemma FailuresFromJson(z: Zod, items: seq<Json>) returns (fs: seq<Failure>)
    requires forall i :: 0 <= i < |items| ==> IsFailure(items[i])
    ensures |fs| == |items| && FailureArray(fs) == JArray(items)
    ensures forall i :: 0 <= i < |fs| ==> ValidFailure(fs[i])
  {
    hide IsFailure, FailureJson, ValidFailure;
    if items == [] {
      fs := [];
    } else {
      FailureResultParses(z, items[0]);
      var f :| items[0] == FailureJson(f) && ValidFailure(f);
      var rest := FailuresFromJson(z, items[1..]);
      fs := [f] + rest;
      assert forall i :: 0 < i < |items| ==> items[i] == FailureArray(rest).items[i - 1];
    }
  }

  lemma CompletedFromJson(z: Zod, heights: seq<nat>, j: Json) returns (r: PipelineResult)
    requires IsCompletedResult(z, heights, j)
    ensures r.Completed? && j == ResultJson(r) && ValidResult(z, heights, r)
  {
    hide IsTranscodeResult, IsMetadata, IsUuid;
    var metadata := j.members["metadata"];
    var m := MetadataChild(metadata.members["videoId"].s, metadata.members["metadata"]);
    assert MetadataJson(m).members == metadata.members;
    var rs := RenditionsFromJson(z, heights, j.members["renditions"].items);
    r := Completed(j.members["videoId"].s, m, rs);
    assert ResultJson(r).members == j.members;
  }

  lemma FailedFromJson(z: Zod, heights: seq<nat>, j: Json) returns (r: PipelineResult)
    requires IsFailedResult(j)
    ensures r.Failed? && j == ResultJson(r) && ValidResult(z, heights, r)
  {
    hide IsFailure, IsUuid;
    var fs := FailuresFromJson(z, j.members["failures"].items);
    r := Failed(j.members["videoId"].s, fs);
    assert ResultJson(r).members == j.members;
  }

  lemma RenditionsOnly(z: Zod, heights: seq<nat>, j: Json)
    requires Parse(z, ArrayOf(TranscodeChildShape(heights), 0, Some(|heights|)), j).Some?
    ensures j.JArray? && |j.items| == |heights|
    ensures forall i :: 0 <= i < |heights| ==> IsTranscodeResult(heights, j.items[i])
  {
    hide Parse, TranscodeChildShape, IsTranscodeResult;
    var list := ArrayOf(TranscodeChildShape(heights), 0, Some(|heights|));
    WrongKind(z, list, j);
    if |j.items| != |heights| { ArrayRejects(z, list, j.items); }
    forall i | 0 <= i < |j.items| ensures IsTranscodeResult(heights, j.items[i]) {
      TranscodeResultParses(z, heights, j.items[i]);
      if Parse(z, list.element, j.items[i]).None? { ArrayRejects(z, list, j.items); }
    }
  }

  lemma CompletedOnly(z: Zod, heights: seq<nat>, j: Json)
    requires Parse(z, CompletedShape(heights), j).Some?
    ensures IsCompletedResult(z, heights, j)
  {
    hide Parse, MetadataChildShape, TranscodeChildShape, IsMetadataResult, IsTranscodeResult, IsUuid;
    ParsedMembers(z, CompletedShape(heights).fields, j);
    LeafAccepted(z, [], j.members["status"]);
    LeafAccepted(z, [], j.members["videoId"]);
    MetadataResultParses(z, j.members["metadata"]);
    RenditionsOnly(z, heights, j.members["renditions"]);
  }

  lemma FailedOnly(z: Zod, j: Json)
    requires Parse(z, FailedShape, j).Some?
    ensures IsFailedResult(j)
  {
    hide Parse, FailureShape, IsFailure, IsUuid;
    ParsedMembers(z, FailedShape.fields, j);
    LeafAccepted(z, [], j.members["status"]);
    LeafAccepted(z, [], j.members["videoId"]);
    var list, items := ArrayOf(FailureShape, 1, None), j.members["failures"];
    WrongKind(z, list, items);
    if |items.items| < 1 { ArrayRejects(z, list, items.items); }
    forall i | 0 <= i < |items.items| ensures IsFailure(items.items[i]) {
      FailureResultParses(z, items.items[i]);
      if Parse(z, list.element, items.items[i]).None? { ArrayRejects(z, list, items.items); }
    }
  }

  /** The pipeline schema accepts exactly the JSON of a completed or a failed result, and what is read is that result in
      normal form. */
  lemma ResultAccepted(z: Zod, heights: seq<nat>, j: Json)
    ensures ReadResult(z, heights, j).Some? <==> IsCompletedResult(z, heights, j) || IsFailedResult(j)
    ensures ReadResult(z, heights, j).Some? ==>
      exists r :: j == ResultJson(r) && ValidResult(z, heights, r) && ReadResult(z, heights, j) == Some(Tidy(r))
  {
    hide Parse, IsCompletedResult, IsFailedResult, ResultJson, ValidResult, Tidy, CompletedShape, FailedShape;
    if Parse(z, PipelineShape(heights), j).Some? {
      ParsedUnion(z, PipelineShape(heights), j);
      if Parse(z, CompletedShape(heights), j).Some? { CompletedOnly(z, heights, j); }
      if Parse(z, FailedShape, j).Some? { FailedOnly(z, j); }
    }
    if IsCompletedResult(z, heights, j) {
      var r := CompletedFromJson(z, heights, j);
      StoredResultReadsBack(z, heights, r);
    } else if IsFailedResult(j) {
      var r := FailedFromJson(z, heights, j);
      StoredResultReadsBack(z, heights, r);
    }
  }
}
