/** From an object in the bucket to the video.uploaded event: the notifier lambda and the upload webhook. */
module UploadGate {
  import opened Seqs
  import opened Text
  import opened Schema
  import opened ContractLaws
  import opened S3Keys
  import Utf8
  import opened Events

  datatype Record = Record(bucket: string, key: string)
  datatype Body = Body(bucket: string, key: string, videoId: string)

  function UploadJson(u: Body): Json {
    JObject(map["bucket" := JString(u.bucket), "key" := JString(u.key), "videoId" := JString(u.videoId)])
  }

  datatype Reply = Ignored | Published(payload: Json) | ServerError

  /** POST /upload/webhook: the key is parsed again and must name the same video; the bucket is the service's own. */
  function Webhook(z: Zod, defaultBucket: string, body: Body): Reply {
    match ParseOriginalUploadKey(body.key)
    case BadEncoding => ServerError
    case NotOriginal => Ignored
    case Original(videoId, _) =>
      if videoId != body.videoId then Ignored else
      match Parse(z, VideoUploadedShape, UploadJson(Body(defaultBucket, body.key, body.videoId)))
      case Some(p) => Published(p)
      case None => ServerError
  }

  /** What the lambda posts for a record, if anything. */
  function Notice(r: Record): Option<Body> {
    match ParseOriginalUploadKey(r.key)
    case Original(videoId, key) => Some(Body(r.bucket, key, videoId))
    case _ => None
  }

  /** The posts of the lambda for the records it gets to, when `ok` says for each record whether a request for it is
      answered ok: a record that is not an upload is skipped, an undecodable key or a refused post ends the run. */
  function Posts(records: seq<Record>, ok: seq<bool>): seq<Body>
    requires |ok| == |records|
  {
    if records == [] then [] else
    match ParseOriginalUploadKey(records[0].key)
    case BadEncoding => []
    case NotOriginal => Posts(records[1..], ok[1..])
    case Original(videoId, key) =>
      [Body(records[0].bucket, key, videoId)] + if ok[0] then Posts(records[1..], ok[1..]) else []
  }

  /** The run gets past this record. */
  predicate Goes(r: Record, ok: bool) {
    match ParseOriginalUploadKey(r.key)
    case BadEncoding => false
    case NotOriginal => true
    case Original(_, _) => ok
  }

  method Handler(records: seq<Record>, ok: seq<bool>) returns (posted: seq<Body>, threw: bool)
    requires |ok| == |records|
    ensures posted == Posts(records, ok)
    ensures threw <==> exists i :: 0 <= i < |records| && !Goes(records[i], ok[i])
  {
    hide ParseOriginalUploadKey;
    posted, threw := [], false;
    var i := 0;
    while i < |records|
      invariant 0 <= i <= |records|
      invariant posted + Posts(records[i..], ok[i..]) == Posts(records, ok)
      invariant forall j :: 0 <= j < i ==> Goes(records[j], ok[j])
    {
      var record := records[i];
      assert records[i..][0] == record && records[i..][1..] == records[i + 1..];
      assert ok[i..][0] == ok[i] && ok[i..][1..] == ok[i + 1..];
      match ParseOriginalUploadKey(record.key)
      case BadEncoding =>
        assert !Goes(records[i], ok[i]);
        return posted, true;
      case NotOriginal =>
        i := i + 1;
      case Original(videoId, key) =>
        posted := posted + [Body(record.bucket, key, videoId)];
        if !ok[i] {
          assert !Goes(records[i], ok[i]);
          return posted, true;
        }
        i := i + 1;
    }
    assert records[i..] == [];
  }

  function Noticed(): Record -> seq<Body> {
    (r: Record) => match Notice(r) case Some(b) => [b] case None => []
  }

  /** The posts are the uploads in order, from the first on; all of them when nothing ends the run. */
  lemma {:induction false} PostsAreNotices(records: seq<Record>, ok: seq<bool>)
    requires |ok| == |records|
    ensures Posts(records, ok) <= FlatMap(Noticed(), records)
    ensures (forall i :: 0 <= i < |records| ==> Goes(records[i], ok[i])) ==>
      Posts(records, ok) == FlatMap(Noticed(), records)
  {
    if records != [] {
      PostsAreNotices(records[1..], ok[1..]);
      if forall i :: 0 <= i < |records| ==> Goes(records[i], ok[i]) {
        forall i | 0 <= i < |records[1..]| ensures Goes(records[1..][i], ok[1..][i]) {
          assert records[1..][i] == records[i + 1] && ok[1..][i] == ok[i + 1];
        }
        assert Goes(records[0], ok[0]);
      }
    }
  }

  /** When a record ends the run, the uploads up to it are posted, and its own post is the last. */
  lemma {:induction false} PostsUpTo(records: seq<Record>, ok: seq<bool>, i: nat)
    requires |ok| == |records| && i < |records| && !Goes(records[i], ok[i])
    requires forall j :: 0 <= j < i ==> Goes(records[j], ok[j])
    ensures Posts(records, ok) == FlatMap(Noticed(), records[..i + 1])
  {
    assert records[..i + 1][1..] == records[1..][..i];
    if i > 0 {
      assert Goes(records[0], ok[0]);
      forall j | 0 <= j < i - 1 ensures Goes(records[1..][j], ok[1..][j]) {
        assert Goes(records[j + 1], ok[j + 1]);
      }
      PostsUpTo(records[1..], ok[1..], i - 1);
    }
  }

  lemma OriginalKeyTrimmed(key: string)
    requires IsOriginalKey(key)
    ensures Trimmed(key) && IsUuid(key[10..46])
  {
    assert key[..10][0] == key[0] && Lower(key[0]) == Lower("originals/"[0]);
    assert key[46..][3] == key[49] && Lower(key[49]) == Lower(".mp4"[3]);
  }

  /** The upload event's schema accepts visible names and keys of a UUID, and trims them. */
  lemma UploadParses(z: Zod, u: Body)
    ensures Parse(z, VideoUploadedShape, UploadJson(u))
            == if Trim(u.bucket) != "" && Trim(u.key) != "" && IsUuid(u.videoId)
               then Some(UploadJson(Body(Trim(u.bucket), Trim(u.key), u.videoId))) else None
  {
    hide Parse, Trim, IsUuid;
    var fields, members := VideoUploadedShape.fields, UploadJson(u).members;
    LeafParses(z, NonBlank, u.bucket);
    LeafParses(z, NonBlank, u.key);
    LeafParses(z, UuidText, u.videoId);
    if Trim(u.bucket) == "" {
      StrictRejects(z, fields, members, "bucket");
    } else if Trim(u.key) == "" {
      StrictRejects(z, fields, members, "key");
    } else if !IsUuid(u.videoId) {
      StrictRejects(z, fields, members, "videoId");
    } else {
      StrictParses(z, fields, members, UploadJson(Body(Trim(u.bucket), Trim(u.key), u.videoId)).members);
    }
  }

  /** A recognised key has no white space at its ends. */
  lemma RecognisedTrimmed(key: string)
    requires ParseOriginalUploadKey(key).Original?
    ensures key != "" && Trimmed(key) && IsUuid(ParseOriginalUploadKey(key).videoId)
  {
    var decoded := DecodeKey(key).value;
    OriginalKeyTrimmed(decoded);
    var s := PlusToSpace(key);
    Utf8.DecodeIff(s, decoded);
    if IsSpace(s[|s| - 1]) { Utf8.LastPlain(s, decoded); }
  }

  /** The webhook publishes exactly the requests whose key is recognised as one of the video they name, unless the
      service's own bucket name is blank: with that bucket, the key as it was sent, and the video. */
  lemma WebhookPublishes(z: Zod, defaultBucket: string, body: Body)
    ensures var reply, p := Webhook(z, defaultBucket, body), ParseOriginalUploadKey(body.key);
      && (reply.Published? <==> p.Original? && p.videoId == body.videoId && Trim(defaultBucket) != "")
      && (reply.Published? ==>
            reply.payload == JObject(map["bucket" := JString(Trim(defaultBucket)), "key" := JString(body.key),
                                         "videoId" := JString(body.videoId)]))
      && (reply.Ignored? <==> p.NotOriginal? || (p.Original? && p.videoId != body.videoId))
  {
    hide Parse, ParseOriginalUploadKey, IsUuid, Trim;
    if ParseOriginalUploadKey(body.key).Original? {
      RecognisedTrimmed(body.key);
      UploadParses(z, Body(defaultBucket, body.key, body.videoId));
    }
  }

  /** Every key the lambda posts the webhook recognises as the same key and video; it publishes exactly these unless
      the service's own bucket name is blank. */
  lemma PostedIsPublished(z: Zod, defaultBucket: string, r: Record)
    requires Notice(r).Some?
    ensures var b := Notice(r).value;
      Webhook(z, defaultBucket, b)
      == if Trim(defaultBucket) == "" then ServerError
         else Published(UploadJson(Body(Trim(defaultBucket), b.key, b.videoId)))
  {
    hide Parse, ParseOriginalUploadKey;
    var b := Notice(r).value;
    RecognisedTwice(r.key);
    Recognised(r.key);
    OriginalKeyTrimmed(b.key);
    UploadParses(z, Body(defaultBucket, b.key, b.videoId));
  }

  lemma Recognised(key: string)
    requires ParseOriginalUploadKey(key).Original?
    ensures var p := ParseOriginalUploadKey(key); IsOriginalKey(p.key) && p.videoId == p.key[10..46]
  {}

  /** End to end: any percent-encoding of the key issued for a video becomes an event with that key and that video. */
  lemma UploadArrives(z: Zod, defaultBucket: string, bucket: string, videoId: string, how: seq<Spelling>)
    requires IsUuid(videoId) && videoId[14] in "12345678" && videoId[19] in "89abAB"
    requires |how| == 50 && Trim(defaultBucket) != ""
    ensures PlainAscii(OriginalUpload(videoId)) && |OriginalUpload(videoId)| == 50
    ensures var notice := Notice(Record(bucket, Spell(OriginalUpload(videoId), how)));
      && notice == Some(Body(bucket, OriginalUpload(videoId), videoId))
      && Webhook(z, defaultBucket, notice.value)
         == Published(UploadJson(Body(Trim(defaultBucket), OriginalUpload(videoId), videoId)))
  {
    hide Parse, ParseOriginalUploadKey, Webhook;
    IssuedKeyRecognised(videoId, how);
    PostedIsPublished(z, defaultBucket, Record(bucket, Spell(OriginalUpload(videoId), how)));
  }

  /** The workers' own objects never reach the webhook, in any percent-encoding. */
  lemma DerivedIsSkipped(d: Derived, bucket: string, how: seq<Spelling>)
    requires Proper(d) && |how| == |d.Key()|
    ensures PlainAscii(d.Key()) && Notice(Record(bucket, Spell(d.Key(), how))) == None
  {
    NoFeedbackLoop(d, how);
  }
}
