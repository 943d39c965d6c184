/** Object keys in the bucket, and how an uploaded key is decoded and recognised. */
module S3Keys {
  import opened Seqs
  import opened Text
  import opened Schema

  function OriginalUpload(videoId: string): string { "originals/" + videoId + ".mp4" }

  /** The objects the workers write; `stamp` is the thumbnail time rendered with two decimals. */
  datatype Derived =
    | Rendition(videoId: string, height: nat)
    | Thumbnail(videoId: string, index: nat, stamp: string)
    | AudioTrack(videoId: string, track: nat)
  {
    function Folder(): string {
      match this
      case Rendition(_, _) => "/renditions/"
      case Thumbnail(_, _, _) => "/thumbnails/"
      case AudioTrack(_, _) => "/audio/"
    }

    function File(): string {
      match this
      case Rendition(_, h) => Decimal(h) + "p.mp4"
      case Thumbnail(_, i, stamp) => Decimal(i) + "_" + stamp + "s.jpg"
      case AudioTrack(_, t) => Decimal(t) + ".m4a"
    }

    function Key(): string { "videos/" + videoId + Folder() + File() }
  }

  function RenditionKey(videoId: string, height: nat): string { Rendition(videoId, height).Key() }

  /** The keys, spelled out. */
  lemma KeyFormats(v: string, h: nat, i: nat, stamp: string, t: nat)
    ensures OriginalUpload(v) == "originals/" + v + ".mp4"
    ensures RenditionKey(v, h) == "videos/" + v + "/renditions/" + (Decimal(h) + "p.mp4")
    ensures Thumbnail(v, i, stamp).Key() == "videos/" + v + "/thumbnails/" + (Decimal(i) + "_" + stamp + "s.jpg")
    ensures AudioTrack(v, t).Key() == "videos/" + v + "/audio/" + (Decimal(t) + ".m4a")
  {
    hide Decimal;
  }

  // ----- decodeURIComponent

  function HexValue(c: char): Option<nat> {
    if '0' <= c <= '9' then Some(c as int - '0' as int)
    else if 'a' <= c <= 'f' then Some(c as int - 'a' as int + 10)
    else if 'A' <= c <= 'F' then Some(c as int - 'A' as int + 10)
    else None
  }

  /** The byte written as %XX at position i. */
  function EscapedByte(s: string, i: nat): Option<nat> {
    if i + 2 < |s| && s[i] == '%' && HexValue(s[i + 1]).Some? && HexValue(s[i + 2]).Some?
    then Some(16 * HexValue(s[i + 1]).value + HexValue(s[i + 2]).value)
    else None
  }

  function SequenceLength(lead: nat): nat {
    if 0xC0 <= lead < 0xE0 then 2 else if 0xE0 <= lead < 0xF0 then 3 else if 0xF0 <= lead < 0xF8 then 4 else 0
  }

  /** The bits of the continuation bytes %80 to %BF from number k up to number n, appended to `high`. */
  function Continuation(s: string, k: nat, n: nat, high: nat): Option<nat>
    decreases n - k
  {
    if k >= n then Some(high) else
    match EscapedByte(s, 3 * k)
    case None => None
    case Some(b) => if 0x80 <= b < 0xC0 then Continuation(s, k + 1, n, 64 * high + (b - 0x80)) else None
  }

  /** The code point that starts at the head of s, with the number of characters it takes. */
  function HeadPoint(s: string): Option<(nat, nat)> {
    match EscapedByte(s, 0)
    case None => None
    case Some(b) =>
      if b < 0x80 then Some((b, 3)) else
      var n := SequenceLength(b);
      if n == 0 then None else
      match Continuation(s, 1, n, if n == 2 then b - 0xC0 else if n == 3 then b - 0xE0 else b - 0xF0)
      case None => None
      case Some(p) =>
        var least := if n == 2 then 0x80 else if n == 3 then 0x800 else 0x10000;
        if least <= p < 0xD800 || (least <= p && 0xE000 <= p < 0x11_0000) then Some((p, 3 * n)) else None
  }

  /** None where the language throws a URIError. */
  function DecodeComponent(s: string): Option<string>
    decreases |s|
  {
    if s == "" then Some("")
    else if s[0] != '%' then
      match DecodeComponent(s[1..]) case Some(rest) => Some([s[0]] + rest) case None => None
    else
      match HeadPoint(s)
      case Some((p, n)) =>
        if (p < 0xD800 || 0xE000 <= p < 0x11_0000) && 0 < n <= |s| then
          match DecodeComponent(s[n..]) case Some(rest) => Some([p as char] + rest) case None => None
        else None
      case None => None
  }

  function PlusToSpace(s: string): string {
    seq(|s|, i requires 0 <= i < |s| => if s[i] == '+' then ' ' else s[i])
  }

  function DecodeKey(key: string): Option<string> { DecodeComponent(PlusToSpace(key)) }

  // ----- parseOriginalUploadKey

  function Lower(c: char): char {
    if 'A' <= c <= 'Z' then (c as int - 'A' as int + 'a' as int) as char else c
  }

  predicate SameIgnoringCase(a: string, b: string) {
    |a| == |b| && forall i :: 0 <= i < |a| ==> Lower(a[i]) == Lower(b[i])
  }

  /** A UUID whose version and variant digits the key pattern allows. */
  predicate IsVersionedUuid(s: string) {
    IsUuid(s) && '1' <= s[14] <= '8' && s[19] in "89abAB"
  }

  predicate IsOriginalKey(s: string) {
    && |s| == 50
    && SameIgnoringCase(s[..10], "originals/") && IsVersionedUuid(s[10..46]) && SameIgnoringCase(s[46..], ".mp4")
  }

  datatype Parsed = Original(videoId: string, key: string) | NotOriginal | BadEncoding

  function ParseOriginalUploadKey(key: string): Parsed {
    match DecodeKey(key)
    case None => BadEncoding
    case Some(decoded) => if IsOriginalKey(decoded) then Original(decoded[10..46], decoded) else NotOriginal
  }

  // ----- percent-encoding, section 2.1 of RFC 3986: any character may be written plainly or as two hex digits

  datatype Spelling = Plain | Escaped(upperHigh: bool, upperLow: bool)

  function HexChar(d: nat, upper: bool): (c: char)
    requires d < 16
    ensures HexValue(c) == Some(d) && c != '+'
  {
    if upper then "0123456789ABCDEF"[d] else "0123456789abcdef"[d]
  }

  predicate PlainAscii(s: string) {
    forall i :: 0 <= i < |s| ==> s[i] as int < 0x80 && s[i] != '%' && s[i] != '+'
  }

  function SpellChar(c: char, how: Spelling): string
    requires c as int < 0x80
  {
    match how
    case Plain => [c]
    case Escaped(high, low) => ['%', HexChar(c as int / 16, high), HexChar(c as int % 16, low)]
  }

  function Spell(s: string, how: seq<Spelling>): string
    requires |s| == |how| && PlainAscii(s)
  {
    if s == "" then "" else SpellChar(s[0], how[0]) + Spell(s[1..], how[1..])
  }

  // ----- decoding undoes every encoding

  lemma EscapedHead(c: char, how: Spelling, rest: string)
    requires c as int < 0x80 && how.Escaped?
    ensures var all := SpellChar(c, how) + rest;
      |all| >= 3 && all[0] == '%' && all[3..] == rest && HeadPoint(all) == Some((c as int, 3))
  {
    var all := SpellChar(c, how) + rest;
    assert EscapedByte(all, 0) == Some(c as int);
  }

  lemma {:induction false} SpellDecodes(s: string, how: seq<Spelling>)
    requires |s| == |how| && PlainAscii(s)
    ensures DecodeComponent(Spell(s, how)) == Some(s) && Lacks(Spell(s, how), '+')
  {
    hide HeadPoint;
    if s != "" {
      SpellDecodes(s[1..], how[1..]);
      var head, rest := SpellChar(s[0], how[0]), Spell(s[1..], how[1..]);
      assert (head + rest)[|head|..] == rest;
      assert s == [s[0]] + s[1..];
      if how[0].Escaped? {
        EscapedHead(s[0], how[0], rest);
      }
    }
  }

  lemma PlusFree(s: string)
    requires Lacks(s, '+')
    ensures PlusToSpace(s) == s
  {}

  lemma EveryEncodingDecodes(s: string, how: seq<Spelling>)
    requires |s| == |how| && PlainAscii(s)
    ensures DecodeKey(Spell(s, how)) == Some(s)
  {
    SpellDecodes(s, how);
    PlusFree(Spell(s, how));
  }

  lemma {:induction false} DecodeUnescaped(s: string)
    requires Lacks(s, '%')
    ensures DecodeComponent(s) == Some(s)
  {
    if s != "" {
      DecodeUnescaped(s[1..]);
      assert s == [s[0]] + s[1..];
    }
  }

  lemma UnescapedDecodesToItself(s: string)
    requires PlainAscii(s)
    ensures DecodeKey(s) == Some(s)
  {
    PlusFree(s);
    DecodeUnescaped(s);
  }

  lemma OriginalKeyPlain(s: string)
    requires IsOriginalKey(s)
    ensures PlainAscii(s)
  {
    forall i | 0 <= i < 50 ensures s[i] as int < 0x80 && s[i] != '%' && s[i] != '+' {
      if i < 10 {
        assert s[..10][i] == s[i] && Lower("originals/"[i]) == Lower(s[i]);
      } else if i < 46 {
        assert s[10..46][i - 10] == s[i];
      } else {
        assert s[46..][i - 46] == s[i] && Lower(".mp4"[i - 46]) == Lower(s[i]);
      }
    }
  }

  lemma OriginalUploadIsOriginal(videoId: string)
    requires IsVersionedUuid(videoId)
    ensures IsOriginalKey(OriginalUpload(videoId)) && OriginalUpload(videoId)[10..46] == videoId
  {
    var k := OriginalUpload(videoId);
    assert k[..10] == "originals/" && k[10..46] == videoId && k[46..] == ".mp4";
  }

  /** Every percent-encoding of the key issued for a video is recognised as that key of that video, for UUIDs of the
      versions 1 to 8 and the usual variant. */
  lemma IssuedKeyRecognised(videoId: string, how: seq<Spelling>)
    requires IsUuid(videoId) && videoId[14] in "12345678" && videoId[19] in "89abAB" && |how| == 50
    ensures PlainAscii(OriginalUpload(videoId)) && |OriginalUpload(videoId)| == 50
    ensures ParseOriginalUploadKey(Spell(OriginalUpload(videoId), how)) == Original(videoId, OriginalUpload(videoId))
  {
    OriginalUploadIsOriginal(videoId);
    OriginalKeyPlain(OriginalUpload(videoId));
    EveryEncodingDecodes(OriginalUpload(videoId), how);
  }

  /** A key is recognised exactly when it decodes to what would be issued for such a UUID, in any letter case. */
  lemma RecognisedIff(key: string, v: string, k: string)
    ensures ParseOriginalUploadKey(key) == Original(v, k)
            <==> && DecodeKey(key) == Some(k) && IsUuid(v) && v[14] in "12345678" && v[19] in "89abAB"
                 && SameIgnoringCase(k, "originals/" + v + ".mp4") && k[10..46] == v
  {
    hide DecodeKey;
    if |k| == 50 {
      SameInParts(k, v);
    } else if IsUuid(v) {
      assert |"originals/" + v + ".mp4"| == 50;
    }
  }

  lemma SameInParts(k: string, v: string)
    requires |k| == 50
    ensures IsUuid(v) && SameIgnoringCase(k, "originals/" + v + ".mp4") ==>
      SameIgnoringCase(k[..10], "originals/") && SameIgnoringCase(k[46..], ".mp4")
    ensures IsUuid(v) && k[10..46] == v
            && SameIgnoringCase(k[..10], "originals/") && SameIgnoringCase(k[46..], ".mp4") ==>
      SameIgnoringCase(k, "originals/" + v + ".mp4")
  {
    var whole := "originals/" + v + ".mp4";
    if IsUuid(v) {
      assert forall i :: 0 <= i < 10 ==> whole[i] == "originals/"[i] && k[..10][i] == k[i];
      assert forall i :: 0 <= i < 36 ==> whole[i + 10] == v[i];
      assert forall i :: 0 <= i < 4 ==> whole[i + 46] == ".mp4"[i] && k[46..][i] == k[i + 46];
      if k[10..46] == v && SameIgnoringCase(k[..10], "originals/") && SameIgnoringCase(k[46..], ".mp4") {
        forall i | 0 <= i < 50 ensures Lower(k[i]) == Lower(whole[i]) {
          if i < 10 {
            assert Lower(k[..10][i]) == Lower("originals/"[i]);
          } else if i < 46 {
            assert k[10..46][i - 10] == k[i] && whole[(i - 10) + 10] == v[i - 10];
          } else {
            assert Lower(k[46..][i - 46]) == Lower(".mp4"[i - 46]) && whole[(i - 46) + 46] == ".mp4"[i - 46];
          }
        }
      }
    }
  }

  /** A recognised key is recognised again, as itself: the second decoding changes nothing. */
  lemma RecognisedTwice(key: string)
    requires ParseOriginalUploadKey(key).Original?
    ensures var p := ParseOriginalUploadKey(key); ParseOriginalUploadKey(p.key) == p
  {
    var p := ParseOriginalUploadKey(key);
    OriginalKeyPlain(p.key);
    UnescapedDecodesToItself(p.key);
  }

  // ----- derived keys

  predicate IsStamp(s: string) { forall i :: 0 <= i < |s| ==> IsDigit(s[i]) || s[i] == '.' }

  predicate Proper(d: Derived) { IsUuid(d.videoId) && (d.Thumbnail? ==> IsStamp(d.stamp)) }

  lemma KindByFolder(a: Derived, b: Derived)
    requires a.Folder() + a.File() == b.Folder() + b.File()
    ensures a.Rendition? == b.Rendition? && a.Thumbnail? == b.Thumbnail? && a.File() == b.File()
  {
    assert (a.Folder() + a.File())[1] == a.Folder()[1] && (b.Folder() + b.File())[1] == b.Folder()[1];
    assert a.Rendition? == b.Rendition? && a.Thumbnail? == b.Thumbnail?;
    SplitAt(a.Folder(), a.File(), b.Folder(), b.File());
  }

  lemma RenditionFiles(h: nat, k: nat)
    requires Decimal(h) + "p.mp4" == Decimal(k) + "p.mp4"
    ensures h == k
  {
    SplitAt(Decimal(h), "p.mp4", Decimal(k), "p.mp4");
    DecimalInjective(h, k);
  }

  lemma AudioFiles(h: nat, k: nat)
    requires Decimal(h) + ".m4a" == Decimal(k) + ".m4a"
    ensures h == k
  {
    SplitAt(Decimal(h), ".m4a", Decimal(k), ".m4a");
    DecimalInjective(h, k);
  }

  lemma ThumbnailFiles(h: nat, x: string, k: nat, y: string)
    requires Decimal(h) + "_" + x + "s.jpg" == Decimal(k) + "_" + y + "s.jpg"
    ensures h == k && x == y
  {
    hide Decimal;
    SplitAt(Decimal(h) + "_" + x, "s.jpg", Decimal(k) + "_" + y, "s.jpg");
    SplitFirst(Decimal(h), x, Decimal(k), y, '_');
    DecimalInjective(h, k);
  }

  lemma FilesDistinct(a: Derived, b: Derived)
    requires a.Rendition? == b.Rendition? && a.Thumbnail? == b.Thumbnail?
    requires a.videoId == b.videoId && a.File() == b.File()
    ensures a == b
  {
    hide Decimal;
    match a
    case Rendition(_, h) => RenditionFiles(h, b.height);
    case Thumbnail(_, i, stamp) => ThumbnailFiles(i, stamp, b.index, b.stamp);
    case AudioTrack(_, t) => AudioFiles(t, b.track);
  }

  lemma KeyParts(d: Derived)
    ensures d.Key() == "videos/" + (d.videoId + (d.Folder() + d.File()))
  {
    hide Decimal;
    assert "videos/" + d.videoId + d.Folder() + d.File() == "videos/" + (d.videoId + (d.Folder() + d.File()));
  }

  /** Keys of different kind, video, index or height are different. */
  lemma DerivedKeysDistinct(a: Derived, b: Derived)
    requires Proper(a) && Proper(b) && a.Key() == b.Key()
    ensures a == b
  {
    hide *;
    KeyParts(a);
    KeyParts(b);
    SplitAt("videos/", a.videoId + (a.Folder() + a.File()), "videos/", b.videoId + (b.Folder() + b.File()));
    SameLengthIds(a, b);
    SplitAt(a.videoId, a.Folder() + a.File(), b.videoId, b.Folder() + b.File());
    KindByFolder(a, b);
    FilesDistinct(a, b);
  }

  lemma SameLengthIds(a: Derived, b: Derived)
    requires Proper(a) && Proper(b)
    ensures |a.videoId| == |b.videoId|
  {}

  lemma PlainConcat(a: string, b: string)
    requires PlainAscii(a) && PlainAscii(b)
    ensures PlainAscii(a + b)
  {}

  lemma FilePlain(d: Derived)
    requires Proper(d)
    ensures PlainAscii(d.File())
  {
    match d
    case Rendition(_, h) =>
      PlainConcat(Decimal(h), "p.mp4");
    case Thumbnail(_, i, stamp) =>
      PlainConcat(Decimal(i), "_");
      PlainConcat(Decimal(i) + "_", stamp);
      PlainConcat(Decimal(i) + "_" + stamp, "s.jpg");
    case AudioTrack(_, t) =>
      PlainConcat(Decimal(t), ".m4a");
  }

  lemma DerivedKeyPlain(d: Derived)
    requires Proper(d)
    ensures PlainAscii(d.Key())
  {
    FilePlain(d);
    assert PlainAscii("videos/") && PlainAscii(d.videoId) && PlainAscii(d.Folder());
    PlainConcat("videos/", d.videoId);
    PlainConcat("videos/" + d.videoId, d.Folder());
    PlainConcat("videos/" + d.videoId + d.Folder(), d.File());
  }

  /** No percent-encoding of a derived key is ever taken for an upload. */
  lemma NoFeedbackLoop(d: Derived, how: seq<Spelling>)
    requires Proper(d) && |how| == |d.Key()|
    ensures PlainAscii(d.Key()) && ParseOriginalUploadKey(Spell(d.Key(), how)) == NotOriginal
  {
    DerivedKeyPlain(d);
    EveryEncodingDecodes(d.Key(), how);
    assert d.Key()[..10][0] == 'v';
    assert !SameIgnoringCase(d.Key()[..10], "originals/") by { assert Lower("originals/"[0]) == 'o'; }
  }
}
