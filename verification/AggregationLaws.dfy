/** When aggregation completes, that it never throws, that order does not matter, and that its output is valid. */
module AggregationLaws {
  import opened Seqs
  import opened Text
  import opened Schema
  import opened Contracts
  import opened ContractLaws
  import opened Aggregation

  // ----- counting

  lemma SameLength<T>(a: seq<T>, b: seq<T>)
    requires multiset(a) == multiset(b)
    ensures |a| == |b|
  {
    assert |multiset(a)| == |a| && |multiset(b)| == |b|;
  }

  lemma {:induction false} CountMetadata(s: seq<ChildResult>, m: MetadataChild)
    ensures multiset(s)[Metadata(m)] == multiset(FlatMap(MetadataOnly(), s))[m]
  {
    if s != [] {
      hide FlatMap;
      CountMetadata(s[1..], m);
      FlatMapHead(MetadataOnly(), s, Metadata(m), m);
    }
  }

  lemma {:induction false} CountTranscode(s: seq<ChildResult>, t: TranscodeChild)
    ensures multiset(s)[Transcode(t)] == multiset(FlatMap(TranscodeOnly(), s))[t]
  {
    if s != [] {
      hide FlatMap;
      CountTranscode(s[1..], t);
      FlatMapHead(TranscodeOnly(), s, Transcode(t), t);
    }
  }

  lemma {:induction false} CountAtHeight(ts: seq<TranscodeChild>, h: nat, t: TranscodeChild)
    ensures multiset(FlatMap(AtHeight(h), ts))[t] == if t.resolution == h then multiset(ts)[t] else 0
  {
    if ts != [] {
      hide FlatMap;
      CountAtHeight(ts[1..], h, t);
      FlatMapHead(AtHeight(h), ts, t, t);
    }
  }

  lemma SelectedExactly(heights: seq<nat>, ts: seq<TranscodeChild>)
    requires forall i :: 0 <= i < |heights| ==> |FlatMap(AtHeight(heights[i]), ts)| == 1
    ensures Select(heights, ts).Selected?
    ensures var rs := Select(heights, ts).renditions;
      |rs| == |heights| && forall i :: 0 <= i < |heights| ==> FlatMap(AtHeight(heights[i]), ts) == [rs[i]]
  {
    if heights != [] {
      forall i | 0 <= i < |heights[1..]| ensures |FlatMap(AtHeight(heights[1..][i]), ts)| == 1 {
        assert heights[1..][i] == heights[i + 1];
      }
      SelectedExactly(heights[1..], ts);
      var rs := Select(heights, ts).renditions;
      forall i | 0 <= i < |heights| ensures FlatMap(AtHeight(heights[i]), ts) == [rs[i]] {
        if i > 0 { assert heights[i] == heights[1..][i - 1]; }
      }
    }
  }

  lemma AtHeightFits(ts: seq<TranscodeChild>, h: nat)
    ensures forall i :: 0 <= i < |FlatMap(AtHeight(h), ts)| ==> FlatMap(AtHeight(h), ts)[i].resolution == h
  {
    forall i | 0 <= i < |FlatMap(AtHeight(h), ts)| ensures FlatMap(AtHeight(h), ts)[i].resolution == h {
      FlatMapSource(AtHeight(h), ts, FlatMap(AtHeight(h), ts)[i]);
    }
  }

  lemma SameCount(heights: seq<nat>, ts: seq<TranscodeChild>, rs: seq<TranscodeChild>, t: TranscodeChild)
    requires Distinct(heights) && FitsHeights(heights, rs)
    requires forall i :: 0 <= i < |heights| ==> FlatMap(AtHeight(heights[i]), ts) == [rs[i]]
    requires forall t :: t in ts ==> t.resolution in heights
    ensures multiset(ts)[t] == multiset(rs)[t]
  {
    hide FlatMap;
    if t.resolution in heights {
      var i :| 0 <= i < |heights| && heights[i] == t.resolution;
      CountAtHeight(ts, heights[i], t);
      CountAtHeight(rs, heights[i], t);
      OnlyOneFits(heights, rs, i);
    } else {
      assert t !in ts && t !in rs;
    }
  }

  /** Sum of counts: when every height has exactly one transcode and no other height occurs, the selection is the
      whole list up to order, so the lists have the same length and nothing is missing. */
  lemma OnePerHeight(heights: seq<nat>, ts: seq<TranscodeChild>)
    requires forall i :: 0 <= i < |heights| ==> |FlatMap(AtHeight(heights[i]), ts)| == 1
    requires forall t :: t in ts ==> t.resolution in heights
    requires Distinct(heights)
    ensures Select(heights, ts).Selected?
    ensures FitsHeights(heights, Select(heights, ts).renditions)
    ensures multiset(ts) == multiset(Select(heights, ts).renditions) && |ts| == |heights|
  {
    hide FlatMap;
    hide Select;
    SelectedExactly(heights, ts);
    var rs := Select(heights, ts).renditions;
    forall i | 0 <= i < |heights| ensures rs[i].resolution == heights[i] {
      AtHeightFits(ts, heights[i]);
      assert FlatMap(AtHeight(heights[i]), ts)[0] == rs[i];
    }
    forall t ensures multiset(ts)[t] == multiset(rs)[t] {
      SameCount(heights, ts, rs, t);
    }
    assert multiset(ts) == multiset(rs);
    SameLength(ts, rs);
  }

  lemma OnlyOneFits(heights: seq<nat>, rs: seq<TranscodeChild>, i: nat)
    requires Distinct(heights) && FitsHeights(heights, rs) && i < |heights|
    ensures FlatMap(AtHeight(heights[i]), rs) == [rs[i]]
  {
    var f := AtHeight(heights[i]);
    assert rs == rs[..i] + ([rs[i]] + rs[i + 1..]);
    FlatMapEmpty(f, rs[..i]);
    FlatMapEmpty(f, rs[i + 1..]);
    FlatMapConcat(f, rs[..i], [rs[i]] + rs[i + 1..]);
    FlatMapConcat(f, [rs[i]], rs[i + 1..]);
    assert FlatMap(f, [rs[i]]) == [rs[i]];
  }

  lemma ExpectedByKind(m: MetadataChild, rs: seq<TranscodeChild>)
    ensures FlatMap(MetadataOnly(), Expected(m, rs)) == [m]
    ensures FlatMap(TranscodeOnly(), Expected(m, rs)) == rs
  {
    var tail := seq(|rs|, i requires 0 <= i < |rs| => Transcode(rs[i]));
    assert Expected(m, rs)[1..] == tail;
    FlatMapEmpty(MetadataOnly(), tail);
    FlatMapSingle(TranscodeOnly(), tail, rs);
  }

  // ----- characterisation

  lemma ReadValues(z: Zod, heights: seq<nat>, children: seq<Entry>)
    ensures FlatMap(Rejected(z, heights), children) == [] <==> AllRead(z, heights, children)
    ensures AllRead(z, heights, children) ==> FlatMap(Accepted(z, heights), children) == Values(z, heights, children)
  {
    FlatMapEmpty(Rejected(z, heights), children);
    if FlatMap(Rejected(z, heights), children) == [] {
      forall i | 0 <= i < |children| ensures ReadChild(z, heights, children[i].1).Some? {
        assert Rejected(z, heights)(children[i]) == [];
      }
    }
    if AllRead(z, heights, children) {
      FlatMapSingle(Accepted(z, heights), children, Values(z, heights, children));
    }
  }

  lemma AllOfVideo(videoId: string, results: seq<ChildResult>)
    ensures FlatMap(OtherVideo(videoId), results) == []
            <==> forall i :: 0 <= i < |results| ==> results[i].VideoId() == videoId
  {
    FlatMapEmpty(OtherVideo(videoId), results);
    if FlatMap(OtherVideo(videoId), results) == [] {
      forall i | 0 <= i < |results| ensures results[i].VideoId() == videoId {
        assert OtherVideo(videoId)(results[i]) == [];
      }
    }
  }

  lemma CountsRight(heights: seq<nat>, ts: seq<TranscodeChild>)
    ensures FlatMap(WrongCount(ts), heights) == []
            <==> forall i :: 0 <= i < |heights| ==> |FlatMap(AtHeight(heights[i]), ts)| == 1
  {
    FlatMapEmpty(WrongCount(ts), heights);
    if FlatMap(WrongCount(ts), heights) == [] {
      forall i | 0 <= i < |heights| ensures |FlatMap(AtHeight(heights[i]), ts)| == 1 {
        assert WrongCount(ts)(heights[i]) == [];
      }
    }
  }

  lemma HeightsAllowed(z: Zod, heights: seq<nat>, children: seq<Entry>)
    ensures forall t :: t in FlatMap(TranscodeOnly(), FlatMap(Accepted(z, heights), children)) ==>
      t.resolution in heights
  {
    var results := FlatMap(Accepted(z, heights), children);
    var ts := FlatMap(TranscodeOnly(), results);
    forall t | t in ts ensures t.resolution in heights {
      FlatMapSource(TranscodeOnly(), results, t);
      var k :| 0 <= k < |results| && t in TranscodeOnly()(results[k]);
      FlatMapSource(Accepted(z, heights), children, results[k]);
      var e :| 0 <= e < |children| && results[k] in Accepted(z, heights)(children[e]);
      ReadChildIsValid(z, heights, children[e].1);
    }
  }

  lemma MetadataNeverMissing(heights: seq<nat>, videoId: string, results: seq<ChildResult>)
    ensures Combine(heights, videoId, results) != Blame(videoId, "Metadata result is missing")
  {
    hide FlatMap, Select, Decimal, WrongCount;
    var other, ts := FlatMap(OtherVideo(videoId), results), FlatMap(TranscodeOnly(), results);
    var metadata, wrong := FlatMap(MetadataOnly(), results), FlatMap(WrongCount(ts), heights);
    assert "Metadata result is missing"[0] == 'M';
    assert ("Received " + Decimal(|other|) + " result(s) for another video")[0] == 'R';
    assert ("Expected exactly one " + "metadata result, received " + Decimal(|metadata|))[0] == 'E';
    assert ("Expected " + Decimal(|heights|) + " rendition results, received " + Decimal(|ts|))[0] == 'E';
    if wrong != [] { WrongCountKey(heights, ts, wrong[0]); }
  }

  lemma WrongCountKey(heights: seq<nat>, ts: seq<TranscodeChild>, f: Failure)
    requires f in FlatMap(WrongCount(ts), heights)
    ensures f.childKey != "orchestrator"
  {
    hide FlatMap, Decimal;
    FlatMapSource(WrongCount(ts), heights, f);
    assert f.childKey[0] == 't' && "orchestrator"[0] == 'o';
  }

  /** The count-mismatch answer, the missing-metadata answer and the throw are never reached. */
  lemma DeadBranches(z: Zod, heights: seq<nat>, children: seq<Entry>)
    requires Distinct(heights)
    ensures var results := FlatMap(Accepted(z, heights), children);
      var ts := FlatMap(TranscodeOnly(), results);
      FlatMap(WrongCount(ts), heights) == [] ==>
        |ts| == |heights| && Select(heights, ts).Selected? && FitsHeights(heights, Select(heights, ts).renditions)
        && multiset(ts) == multiset(Select(heights, ts).renditions)
    ensures forall videoId ::
      Combine(heights, videoId, FlatMap(Accepted(z, heights), children)) != Blame(videoId, "Metadata result is missing")
  {
    hide FlatMap, Select, ReadChild, Combine;
    forall videoId
      ensures Combine(heights, videoId, FlatMap(Accepted(z, heights), children))
              != Blame(videoId, "Metadata result is missing")
    {
      MetadataNeverMissing(heights, videoId, FlatMap(Accepted(z, heights), children));
    }
    var ts := FlatMap(TranscodeOnly(), FlatMap(Accepted(z, heights), children));
    HeightsAllowed(z, heights, children);
    CountsRight(heights, ts);
    if FlatMap(WrongCount(ts), heights) == [] {
      OnePerHeight(heights, ts);
    }
  }

  lemma NeverThrows(z: Zod, heights: seq<nat>, videoId: string, children: seq<Entry>, failed: seq<(string, string)>)
    requires Distinct(heights)
    ensures Aggregate(z, heights, videoId, children, failed).Returned?
    ensures Aggregate(z, heights, videoId, children, failed).result.videoId == videoId
  {
    hide FlatMap, Select, ReadChild, Decimal;
    DeadBranches(z, heights, children);
  }

  /** Exactly the expected children give a completed result, which is determined by them. */
  lemma CompletesWhenAssembled(
    z: Zod, heights: seq<nat>, videoId: string, children: seq<Entry>, m: MetadataChild, rs: seq<TranscodeChild>
  )
    requires Distinct(heights) && Assembles(z, heights, videoId, children, m, rs)
    ensures Aggregate(z, heights, videoId, children, []) == Returned(Completed(videoId, m, rs))
  {
    hide FlatMap, ReadChild, Decimal, Select;
    FlatMapEmpty(ChildFailure(), []);
    var results := Values(z, heights, children);
    ReadValues(z, heights, children);
    forall i | 0 <= i < |results| ensures results[i].VideoId() == videoId {
      assert results[i] in multiset(Expected(m, rs));
    }
    AllOfVideo(videoId, results);
    ExpectedByKind(m, rs);
    FlatMapReorder(MetadataOnly(), results, Expected(m, rs));
    FlatMapReorder(TranscodeOnly(), results, Expected(m, rs));
    var ms, ts := FlatMap(MetadataOnly(), results), FlatMap(TranscodeOnly(), results);
    Singleton(ms, m);
    forall i | 0 <= i < |heights| ensures FlatMap(AtHeight(heights[i]), ts) == [rs[i]] {
      FlatMapReorder(AtHeight(heights[i]), ts, rs);
      OnlyOneFits(heights, rs, i);
      Singleton(FlatMap(AtHeight(heights[i]), ts), rs[i]);
    }
    CountsRight(heights, ts);
    assert |multiset(ts)| == |multiset(rs)|;
    SelectedExactly(heights, ts);
    assert Select(heights, ts).renditions == rs;
  }

  lemma Singleton<T>(s: seq<T>, x: T)
    requires multiset(s) == multiset([x])
    ensures s == [x]
  {
    assert |multiset(s)| == 1;
    assert s[0] in multiset([x]);
  }

  lemma SameContents(a: seq<ChildResult>, b: seq<ChildResult>)
    requires multiset(FlatMap(MetadataOnly(), a)) == multiset(FlatMap(MetadataOnly(), b))
    requires multiset(FlatMap(TranscodeOnly(), a)) == multiset(FlatMap(TranscodeOnly(), b))
    ensures multiset(a) == multiset(b)
  {
    hide FlatMap;
    forall c ensures multiset(a)[c] == multiset(b)[c] {
      match c
      case Metadata(m) => CountMetadata(a, m); CountMetadata(b, m);
      case Transcode(t) => CountTranscode(a, t); CountTranscode(b, t);
    }
  }

  /** A completed result comes only from exactly the expected children and no failed child. */
  lemma AssembledWhenCompletes(
    z: Zod, heights: seq<nat>, videoId: string, children: seq<Entry>, failed: seq<(string, string)>
  )
    requires Distinct(heights)
    requires Aggregate(z, heights, videoId, children, failed).Returned?
    requires Aggregate(z, heights, videoId, children, failed).result.Completed?
    ensures failed == []
    ensures var r := Aggregate(z, heights, videoId, children, failed).result;
      Assembles(z, heights, videoId, children, r.metadata, r.renditions)
  {
    hide FlatMap, ReadChild, Decimal, Select;
    var r := Aggregate(z, heights, videoId, children, failed).result;
    assert failed != [] ==> ChildFailure()(failed[0]) != [];
    FlatMapEmpty(ChildFailure(), failed);
    ReadValues(z, heights, children);
    var results := Values(z, heights, children);
    AllOfVideo(videoId, results);
    DeadBranches(z, heights, children);
    var ms, ts := FlatMap(MetadataOnly(), results), FlatMap(TranscodeOnly(), results);
    assert ms == [r.metadata];
    ExpectedByKind(r.metadata, r.renditions);
    SameContents(results, Expected(r.metadata, r.renditions));
    assert Metadata(r.metadata) in multiset(results);
    forall i | 0 <= i < |r.renditions| ensures r.renditions[i].videoId == videoId {
      assert Expected(r.metadata, r.renditions)[i + 1] == Transcode(r.renditions[i]);
      assert Transcode(r.renditions[i]) in multiset(results);
    }
  }

  /** Completed if and only if no child failed and the children are exactly one metadata result and one rendition
      for each height, all of this video. */
  lemma CompletedIff(z: Zod, heights: seq<nat>, videoId: string, children: seq<Entry>, failed: seq<(string, string)>)
    requires Distinct(heights)
    ensures var o := Aggregate(z, heights, videoId, children, failed);
      && o.Returned?
      && (o.result.Completed?
          <==> failed == [] && exists m, rs :: Assembles(z, heights, videoId, children, m, rs))
  {
    NeverThrows(z, heights, videoId, children, failed);
    if Aggregate(z, heights, videoId, children, failed).result.Completed? {
      AssembledWhenCompletes(z, heights, videoId, children, failed);
    } else if failed == [] {
      if m, rs :| Assembles(z, heights, videoId, children, m, rs) {
        CompletesWhenAssembled(z, heights, videoId, children, m, rs);
        assert false;
      }
    }
  }

  // ----- order

  lemma FlatMapSame<A, B>(f: A -> seq<B>, g: A -> seq<B>, s: seq<A>)
    requires forall i :: 0 <= i < |s| ==> f(s[i]) == g(s[i])
    ensures FlatMap(f, s) == FlatMap(g, s)
  {}

  lemma CombineReorder(heights: seq<nat>, videoId: string, r1: seq<ChildResult>, r2: seq<ChildResult>)
    requires multiset(r1) == multiset(r2)
    requires Combine(heights, videoId, r1).Returned? && Combine(heights, videoId, r1).result.Failed?
    ensures Combine(heights, videoId, r2) == Combine(heights, videoId, r1)
            || (Combine(heights, videoId, r2).Returned? ==> Combine(heights, videoId, r2).result.Completed?)
  {
    hide FlatMap, Decimal, Select;
    FlatMapReorder(OtherVideo(videoId), r1, r2);
    FlatMapReorder(MetadataOnly(), r1, r2);
    FlatMapReorder(TranscodeOnly(), r1, r2);
    SameLength(FlatMap(OtherVideo(videoId), r1), FlatMap(OtherVideo(videoId), r2));
    SameLength(FlatMap(MetadataOnly(), r1), FlatMap(MetadataOnly(), r2));
    var t1, t2 := FlatMap(TranscodeOnly(), r1), FlatMap(TranscodeOnly(), r2);
    SameLength(t1, t2);
    forall i | 0 <= i < |heights| ensures WrongCount(t1)(heights[i]) == WrongCount(t2)(heights[i]) {
      FlatMapReorder(AtHeight(heights[i]), t1, t2);
      SameLength(FlatMap(AtHeight(heights[i]), t1), FlatMap(AtHeight(heights[i]), t2));
    }
    FlatMapSame(WrongCount(t1), WrongCount(t2), heights);
  }

  lemma AssemblesReorder(
    z: Zod, heights: seq<nat>, videoId: string, c1: seq<Entry>, c2: seq<Entry>,
    m: MetadataChild, rs: seq<TranscodeChild>
  )
    requires multiset(c1) == multiset(c2) && Assembles(z, heights, videoId, c1, m, rs)
    ensures Assembles(z, heights, videoId, c2, m, rs)
  {
    forall i | 0 <= i < |c2| ensures ReadChild(z, heights, c2[i].1).Some? {
      assert c2[i] in multiset(c1);
    }
    ReadValues(z, heights, c1);
    ReadValues(z, heights, c2);
    FlatMapReorder(Accepted(z, heights), c1, c2);
  }

  /** The order in which the child store lists its entries never matters: a completed result is identical, and a
      failure lists the same entries. */
  lemma OrderIndependent(
    z: Zod, heights: seq<nat>, videoId: string,
    c1: seq<Entry>, c2: seq<Entry>, f1: seq<(string, string)>, f2: seq<(string, string)>
  )
    requires Distinct(heights) && multiset(c1) == multiset(c2) && multiset(f1) == multiset(f2)
    ensures SameVerdict(Aggregate(z, heights, videoId, c1, f1), Aggregate(z, heights, videoId, c2, f2))
  {
    var o1, o2 := Aggregate(z, heights, videoId, c1, f1), Aggregate(z, heights, videoId, c2, f2);
    NeverThrows(z, heights, videoId, c1, f1);
    NeverThrows(z, heights, videoId, c2, f2);
    FlatMapReorder(ChildFailure(), f1, f2);
    SameLength(f1, f2);
    FlatMapReorder(Rejected(z, heights), c1, c2);
    FlatMapReorder(Accepted(z, heights), c1, c2);
    SameLength(FlatMap(ChildFailure(), f1), FlatMap(ChildFailure(), f2));
    SameLength(FlatMap(Rejected(z, heights), c1), FlatMap(Rejected(z, heights), c2));
    if o1.result.Completed? {
      AssembledWhenCompletes(z, heights, videoId, c1, f1);
      AssemblesReorder(z, heights, videoId, c1, c2, o1.result.metadata, o1.result.renditions);
      CompletesWhenAssembled(z, heights, videoId, c1, o1.result.metadata, o1.result.renditions);
      CompletesWhenAssembled(z, heights, videoId, c2, o1.result.metadata, o1.result.renditions);
    } else if o2.result.Completed? {
      AssembledWhenCompletes(z, heights, videoId, c2, f2);
      AssemblesReorder(z, heights, videoId, c2, c1, o2.result.metadata, o2.result.renditions);
      CompletesWhenAssembled(z, heights, videoId, c1, o2.result.metadata, o2.result.renditions);
    } else if FlatMap(ChildFailure(), f1) == [] && FlatMap(Rejected(z, heights), c1) == [] {
      CombineReorder(heights, videoId, FlatMap(Accepted(z, heights), c1), FlatMap(Accepted(z, heights), c2));
    }
  }

  // ----- validity

  /** An entry of a failure list that the schema accepts and leaves as it is. */
  ghost predicate Clean(f: Failure) { ValidFailure(f) && TidyFailure(f) == f }

  lemma CleanFailure(f: Failure, key: string, middle: string, end: string)
    requires f.childKey != "" && Trimmed(f.childKey)
    requires f.error == key + middle + end && key != "" && !IsSpace(key[0])
    requires if end != "" then !IsSpace(end[|end| - 1]) else middle != "" && !IsSpace(middle[|middle| - 1])
    ensures Clean(f)
  {
    assert f.error[0] == key[0];
    assert f.error[|f.error| - 1] == if end != "" then end[|end| - 1] else middle[|middle| - 1];
    VisibleHead(f.childKey);
    VisibleHead(f.error);
  }

  lemma WrongCountsClean(heights: seq<nat>, ts: seq<TranscodeChild>)
    ensures forall f :: f in FlatMap(WrongCount(ts), heights) ==> Clean(f)
  {
    hide FlatMap, Trim, Decimal, Clean;
    forall f | f in FlatMap(WrongCount(ts), heights) ensures Clean(f) {
      FlatMapSource(WrongCount(ts), heights, f);
      var i :| 0 <= i < |heights| && f in WrongCount(ts)(heights[i]);
      var h, count := heights[i], |FlatMap(AtHeight(heights[i]), ts)|;
      assert Decimal(h)[|Decimal(h)| - 1] != ' ';
      CleanFailure(f, "Expected exactly one ", Decimal(h) + "p result, received ", Decimal(count)) by {
        assert f.error == "Expected exactly one " + (Decimal(h) + "p result, received ") + Decimal(count);
      }
    }
  }

  lemma CombineClean(heights: seq<nat>, videoId: string, results: seq<ChildResult>)
    requires Combine(heights, videoId, results).Returned? && Combine(heights, videoId, results).result.Failed?
    ensures var fs := Combine(heights, videoId, results).result.failures;
      |fs| >= 1 && forall f :: f in fs ==> Clean(f)
  {
    hide FlatMap, Decimal, Select, Trim, Clean;
    var fs := Combine(heights, videoId, results).result.failures;
    var other, ts := FlatMap(OtherVideo(videoId), results), FlatMap(TranscodeOnly(), results);
    var metadata := FlatMap(MetadataOnly(), results);
    WrongCountsClean(heights, ts);
    if other != [] {
      CleanFailure(fs[0], "Received ", Decimal(|other|), " result(s) for another video");
    } else if |metadata| != 1 {
      CleanFailure(fs[0], "Expected exactly one ", "metadata result, received ", Decimal(|metadata|));
    } else if FlatMap(WrongCount(ts), heights) == [] {
      CleanFailure(fs[0], "Expected ", Decimal(|heights|) + " rendition results, received ", Decimal(|ts|)) by {
        assert fs[0].error == "Expected " + (Decimal(|heights|) + " rendition results, received ") + Decimal(|ts|);
      }
    }
  }

  /** Failed children are listed one by one, under their keys. */
  lemma ChildFailuresListed(failed: seq<(string, string)>)
    ensures FlatMap(ChildFailure(), failed) == seq(|failed|, i requires 0 <= i < |failed| => Reported(failed[i]))
  {
    FlatMapSingle(ChildFailure(), failed, seq(|failed|, i requires 0 <= i < |failed| => Reported(failed[i])));
  }

  lemma ReportedError(e: (string, string))
    ensures Trimmed(Reported(e).error) && Trim(Reported(e).error) != ""
  {
    VisibleHead("Child failed without an error message");
  }

  lemma RejectionsListed(z: Zod, heights: seq<nat>, children: seq<Entry>, f: Failure)
    ensures f in FlatMap(Rejected(z, heights), children)
            <==> exists k ::
                   0 <= k < |children| && ReadChild(z, heights, children[k].1).None? && f == Rejection(z, children[k])
  {
    hide FlatMap, ReadChild;
    FlatMapSource(Rejected(z, heights), children, f);
    if k :| 0 <= k < |children| && ReadChild(z, heights, children[k].1).None? && f == Rejection(z, children[k]) {
      assert f in Rejected(z, heights)(children[k]);
    }
  }

  lemma RejectionError(z: Zod, e: Entry)
    ensures Trim(Rejection(z, e).error) != ""
  {
    VisibleHead(Rejection(z, e).error);
  }

  /** The failures reported for failed children, or for results the schema rejects: valid exactly when no key is
      blank, in normal form exactly when no text has white space at its ends. */
  lemma ReportsAsGiven(z: Zod, heights: seq<nat>, children: seq<Entry>, failed: seq<(string, string)>)
    ensures var fs := if failed != [] then FlatMap(ChildFailure(), failed) else FlatMap(Rejected(z, heights), children);
      && ((forall f :: f in fs ==> ValidFailure(f)) <==> KeysVisible(z, heights, children, failed))
      && ((forall f :: f in fs ==> TidyFailure(f) == f) <==> KeysTidy(z, heights, children, failed))
  {
    hide FlatMap, ReadChild, Trim, Rejected, ChildFailure, Rejection, Reported;
    if failed != [] {
      var fs := FlatMap(ChildFailure(), failed);
      ChildFailuresListed(failed);
      forall i | 0 <= i < |failed|
        ensures fs[i] in fs
        ensures ValidFailure(fs[i]) <==> Trim(failed[i].0) != ""
        ensures TidyFailure(fs[i]) == fs[i] <==> Trimmed(failed[i].0)
      {
        assert fs[i] == Reported(failed[i]);
        ReportedError(failed[i]);
        ReportedKey(failed[i]);
      }
      assert (forall i :: 0 <= i < |fs| ==> ValidFailure(fs[i])) <==> KeysVisible(z, heights, children, failed);
      assert (forall i :: 0 <= i < |fs| ==> TidyFailure(fs[i]) == fs[i]) <==> KeysTidy(z, heights, children, failed);
    } else {
      var fs := FlatMap(Rejected(z, heights), children);
      forall f ensures f in fs <==> exists k ::
        0 <= k < |children| && ReadChild(z, heights, children[k].1).None? && f == Rejection(z, children[k])
      {
        RejectionsListed(z, heights, children, f);
      }
      forall k | 0 <= k < |children| && ReadChild(z, heights, children[k].1).None?
        ensures Rejection(z, children[k]) in fs
        ensures ValidFailure(Rejection(z, children[k])) <==> Trim(children[k].0) != ""
        ensures TidyFailure(Rejection(z, children[k])) == Rejection(z, children[k])
                <==> Trimmed(children[k].0) && Trimmed(Rejection(z, children[k]).error)
      {
        RejectionError(z, children[k]);
        RejectionKey(z, children[k]);
      }
    }
  }

  lemma ReportedKey(e: (string, string))
    ensures Reported(e).childKey == e.0
  {}

  lemma RejectionKey(z: Zod, e: Entry)
    ensures Rejection(z, e).childKey == e.0
  {}

  /** Aggregation of failed children lists exactly those, in order: each under its key and with its trimmed reason, or
      with a fixed text when the reason is blank. */
  lemma FailuresReported(
    z: Zod, heights: seq<nat>, videoId: string, children: seq<Entry>, failed: seq<(string, string)>
  )
    requires failed != []
    ensures var o := Aggregate(z, heights, videoId, children, failed);
      && o.Returned? && o.result.Failed? && o.result.videoId == videoId && |o.result.failures| == |failed|
      && forall i :: 0 <= i < |failed| ==>
           && o.result.failures[i].childKey == failed[i].0
           && o.result.failures[i].error
              == if Trim(failed[i].1) != "" then Trim(failed[i].1) else "Child failed without an error message"
  {
    hide FlatMap, Combine, Trim;
    ChildFailuresListed(failed);
  }

  /** What aggregation returns for children none of which failed: exactly the assembled result, or a failure. */
  lemma Verdict(z: Zod, heights: seq<nat>, videoId: string, children: seq<Entry>)
    requires Distinct(heights)
    ensures var o := Aggregate(z, heights, videoId, children, []);
      && o.Returned?
      && (forall m, rs :: Assembles(z, heights, videoId, children, m, rs) ==> o.result == Completed(videoId, m, rs))
      && ((forall m, rs :: !Assembles(z, heights, videoId, children, m, rs)) ==> o.result.Failed?)
  {
    hide Aggregate, Assembles;
    CompletedIff(z, heights, videoId, children, []);
    forall m, rs | Assembles(z, heights, videoId, children, m, rs)
      ensures Aggregate(z, heights, videoId, children, []).result == Completed(videoId, m, rs)
    {
      CompletesWhenAssembled(z, heights, videoId, children, m, rs);
    }
  }

  // ----- what a failure says

  /** How many of the values are of this sort. */
  ghost function Number(vs: seq<ChildResult>, of: ChildResult -> bool): nat { |set k: nat | k < |vs| && of(vs[k])| }

  lemma {:induction false} PickCount<B>(f: ChildResult -> seq<B>, vs: seq<ChildResult>, of: ChildResult -> bool)
    requires forall v :: |f(v)| == if of(v) then 1 else 0
    ensures |FlatMap(f, vs)| == Number(vs, of)
  {
    if vs == [] {
      assert (set k: nat | k < |vs| && of(vs[k])) == {};
    } else {
      var n := |vs| - 1;
      var before, last := vs[..n], vs[n];
      PickCount(f, before, of);
      FlatMapConcat(f, before, [last]);
      FlatMapOne(f, last);
      assert vs == before + [last];
      var all, some := (set k: nat | k < |vs| && of(vs[k])), (set k: nat | k < n && of(before[k]));
      assert all == some + if of(last) then {n} else {};
    }
  }

  lemma {:induction false} FlatMapCompose<A, B, C>(f: A -> seq<B>, g: B -> seq<C>, h: A -> seq<C>, s: seq<A>)
    requires forall x :: FlatMap(g, f(x)) == h(x)
    ensures FlatMap(g, FlatMap(f, s)) == FlatMap(h, s)
  {
    if s != [] {
      FlatMapCompose(f, g, h, s[1..]);
      FlatMapConcat(g, f(s[0]), FlatMap(f, s[1..]));
    }
  }

  /** The transcodes of one height, picked in one pass. */
  function OfHeight(h: nat): ChildResult -> seq<TranscodeChild> {
    (c: ChildResult) => if c.Transcode? && c.transcode.resolution == h then [c.transcode] else []
  }

  lemma CountAt(vs: seq<ChildResult>, h: nat)
    ensures |FlatMap(AtHeight(h), FlatMap(TranscodeOnly(), vs))|
            == Number(vs, (c: ChildResult) => c.Transcode? && c.transcode.resolution == h)
  {
    forall c: ChildResult ensures FlatMap(AtHeight(h), TranscodeOnly()(c)) == OfHeight(h)(c) {
      if c.Transcode? { FlatMapOne(AtHeight(h), c.transcode); }
    }
    FlatMapCompose(TranscodeOnly(), AtHeight(h), OfHeight(h), vs);
    PickCount(OfHeight(h), vs, (c: ChildResult) => c.Transcode? && c.transcode.resolution == h);
  }

  /** Children whose values the schema rejects are reported, each under its key and with the schema's explanation, and
      nothing else is. */
  lemma RejectionsReported(z: Zod, heights: seq<nat>, videoId: string, children: seq<Entry>)
    requires !AllRead(z, heights, children)
    ensures var o := Aggregate(z, heights, videoId, children, []);
      && o.Returned? && o.result.Failed? && o.result.videoId == videoId
      && forall f :: f in o.result.failures <==>
           exists k :: 0 <= k < |children| && ReadChild(z, heights, children[k].1).None?
                       && f == Failure(children[k].0, "Invalid child result: " + z.explain(children[k].1))
  {
    hide FlatMap, ReadChild, Combine;
    FlatMapEmpty(ChildFailure(), []);
    ReadValues(z, heights, children);
    var fs := FlatMap(Rejected(z, heights), children);
    forall f ensures f in fs <==>
      exists k :: 0 <= k < |children| && ReadChild(z, heights, children[k].1).None?
                  && f == Failure(children[k].0, "Invalid child result: " + z.explain(children[k].1))
    {
      RejectionsListed(z, heights, children, f);
    }
  }

  /** When every value is readable and some are of another video, or the metadata results are not one, that is
      reported with its count. */
  lemma MismatchReported(z: Zod, heights: seq<nat>, videoId: string, children: seq<Entry>)
    requires Distinct(heights) && AllRead(z, heights, children)
    ensures var vs, o := Values(z, heights, children), Aggregate(z, heights, videoId, children, []);
      var others := Number(vs, (c: ChildResult) => c.VideoId() != videoId);
      var metadata := Number(vs, (c: ChildResult) => c.Metadata?);
      && o.Returned?
      && (others > 0 ==>
            o.result == Failed(videoId, [Failure("orchestrator",
                          "Received " + Decimal(others) + " result(s) for another video")]))
      && (others == 0 && metadata != 1 ==>
            o.result == Failed(videoId, [Failure("orchestrator",
                          "Expected exactly one metadata result, received " + Decimal(metadata))]))
  {
    hide FlatMap, ReadChild, Decimal, Select, WrongCount;
    FlatMapEmpty(ChildFailure(), []);
    ReadValues(z, heights, children);
    NeverThrows(z, heights, videoId, children, []);
    var vs := Values(z, heights, children);
    PickCount(OtherVideo(videoId), vs, (c: ChildResult) => c.VideoId() != videoId);
    PickCount(MetadataOnly(), vs, (c: ChildResult) => c.Metadata?);
    assert "Expected exactly one " + "metadata result, received " == "Expected exactly one metadata result, received ";
  }

  /** How many renditions of this height the values hold. */
  ghost function AtThisHeight(vs: seq<ChildResult>, h: nat): nat {
    Number(vs, (c: ChildResult) => c.Transcode? && c.transcode.resolution == h)
  }

  /** When all else is in order, a failure reports exactly the heights that do not have one rendition. */
  lemma HeightsReported(z: Zod, heights: seq<nat>, videoId: string, children: seq<Entry>)
    requires Distinct(heights) && AllRead(z, heights, children)
    requires Aggregate(z, heights, videoId, children, []).Returned?
    requires Aggregate(z, heights, videoId, children, []).result.Failed?
    requires Number(Values(z, heights, children), (c: ChildResult) => c.VideoId() != videoId) == 0
    requires Number(Values(z, heights, children), (c: ChildResult) => c.Metadata?) == 1
    ensures forall f :: f in Aggregate(z, heights, videoId, children, []).result.failures <==>
      exists i :: 0 <= i < |heights| && var n := AtThisHeight(Values(z, heights, children), heights[i]);
        n != 1 && f == Failure("transcode-" + Decimal(heights[i]),
                         "Expected exactly one " + Decimal(heights[i]) + "p result, received " + Decimal(n))
  {
    hide FlatMap, ReadChild, Decimal, Select, WrongCount, AtThisHeight;
    FlatMapEmpty(ChildFailure(), []);
    ReadValues(z, heights, children);
    DeadBranches(z, heights, children);
    var vs := Values(z, heights, children);
    PickCount(OtherVideo(videoId), vs, (c: ChildResult) => c.VideoId() != videoId);
    PickCount(MetadataOnly(), vs, (c: ChildResult) => c.Metadata?);
    var wrong := FlatMap(WrongCount(FlatMap(TranscodeOnly(), vs)), heights);
    forall f ensures f in wrong <==>
      exists i :: 0 <= i < |heights| && var n := AtThisHeight(vs, heights[i]);
        n != 1 && f == Failure("transcode-" + Decimal(heights[i]),
                         "Expected exactly one " + Decimal(heights[i]) + "p result, received " + Decimal(n))
    {
      WrongCountsListed(heights, vs, f);
    }
    assert Aggregate(z, heights, videoId, children, []).result.failures == wrong;
  }

  lemma WrongCountsListed(heights: seq<nat>, vs: seq<ChildResult>, f: Failure)
    ensures f in FlatMap(WrongCount(FlatMap(TranscodeOnly(), vs)), heights) <==>
      exists i :: 0 <= i < |heights| && var n := AtThisHeight(vs, heights[i]);
        n != 1 && f == Failure("transcode-" + Decimal(heights[i]),
                         "Expected exactly one " + Decimal(heights[i]) + "p result, received " + Decimal(n))
  {
    hide FlatMap, Decimal;
    FlatMapSource(WrongCount(FlatMap(TranscodeOnly(), vs)), heights, f);
    forall i | 0 <= i < |heights|
      ensures |FlatMap(AtHeight(heights[i]), FlatMap(TranscodeOnly(), vs))| == AtThisHeight(vs, heights[i])
    {
      CountAt(vs, heights[i]);
    }
  }

  lemma CompletedParts(z: Zod, heights: seq<nat>, videoId: string, children: seq<Entry>, r: PipelineResult)
    requires r.Completed? && Assembles(z, heights, videoId, children, r.metadata, r.renditions)
    ensures ValidMetadata(z, r.metadata) && TidyMetadata(r.metadata) == r.metadata
    ensures forall i :: 0 <= i < |r.renditions| ==>
      ValidTranscode(heights, r.renditions[i]) && TidyTranscode(r.renditions[i]) == r.renditions[i]
  {
    hide ReadChild, Trim, Parse;
    var expected := Expected(r.metadata, r.renditions);
    forall c | c in expected ensures ValidChild(z, heights, c) && TidyChild(c) == c {
      assert c in multiset(Values(z, heights, children));
      var k :| 0 <= k < |children| && Values(z, heights, children)[k] == c;
      ReadChildIsValid(z, heights, children[k].1);
      assert ReadChild(z, heights, children[k].1) == Some(c);
    }
    assert expected[0] == Metadata(r.metadata) && Metadata(r.metadata) in expected;
    forall i | 0 <= i < |r.renditions|
      ensures ValidTranscode(heights, r.renditions[i]) && TidyTranscode(r.renditions[i]) == r.renditions[i]
    {
      assert expected[i + 1] == Transcode(r.renditions[i]) && Transcode(r.renditions[i]) in expected;
    }
  }

  /** The schema accepts what aggregation returns exactly when the video id is a UUID and no reported key is blank, and
      leaves it unchanged exactly when no reported text has white space at its ends. */
  lemma OutputValid(z: Zod, heights: seq<nat>, videoId: string, children: seq<Entry>, failed: seq<(string, string)>)
    requires Distinct(heights)
    ensures Aggregate(z, heights, videoId, children, failed).Returned?
    ensures ValidResult(z, heights, Aggregate(z, heights, videoId, children, failed).result)
            <==> IsUuid(videoId) && KeysVisible(z, heights, children, failed)
    ensures var r := Aggregate(z, heights, videoId, children, failed).result;
      Tidy(r) == r <==> KeysTidy(z, heights, children, failed)
  {
    hide FlatMap, ReadChild, Combine, Trim, Parse, Rejected, ChildFailure, Rejection, Reported;
    NeverThrows(z, heights, videoId, children, failed);
    var r := Aggregate(z, heights, videoId, children, failed).result;
    ReportsAsGiven(z, heights, children, failed);
    ReadValues(z, heights, children);
    if r.Completed? {
      AssembledWhenCompletes(z, heights, videoId, children, failed);
      CompletedParts(z, heights, videoId, children, r);
    } else {
      FailedParts(z, heights, r);
      if failed != [] {
        ChildFailuresListed(failed);
      } else {
        FlatMapEmpty(ChildFailure(), []);
        if AllRead(z, heights, children) {
          CombineClean(heights, videoId, FlatMap(Accepted(z, heights), children));
        }
      }
    }
  }

  lemma FailedParts(z: Zod, heights: seq<nat>, r: PipelineResult)
    requires r.Failed?
    ensures ValidResult(z, heights, r)
            <==> IsUuid(r.videoId) && |r.failures| >= 1 && forall f :: f in r.failures ==> ValidFailure(f)
    ensures Tidy(r) == r <==> forall f :: f in r.failures ==> TidyFailure(f) == f
  {
    hide Trim;
    var tidied := Tidy(r).failures;
    assert forall i :: 0 <= i < |r.failures| ==> tidied[i] == TidyFailure(r.failures[i]);
    if Tidy(r) == r {
      forall i | 0 <= i < |r.failures| ensures TidyFailure(r.failures[i]) == r.failures[i] {
        assert tidied[i] == r.failures[i];
      }
    }
  }
}
