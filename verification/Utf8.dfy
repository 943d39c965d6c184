/**
 decodeURIComponent, checked against UTF-8 (section 3 of RFC 3629): it gives exactly the text whose characters are
 written plainly or as their percent-escaped UTF-8 bytes, and fails on anything else.
 */
module Utf8 {
  import opened Seqs
  import opened Text
  import opened S3Keys

  /** The bytes of a code point. */
  function Bytes(p: nat): seq<nat>
    requires p < 0x11_0000
  {
    if p < 0x80 then [p]
    else if p < 0x800 then [0xC0 + p / 0x40, 0x80 + p % 0x40]
    else if p < 0x1_0000 then [0xE0 + p / 0x1000, 0x80 + p / 0x40 % 0x40, 0x80 + p % 0x40]
    else [0xF0 + p / 0x4_0000, 0x80 + p / 0x1000 % 0x40, 0x80 + p / 0x40 % 0x40, 0x80 + p % 0x40]
  }

  /** The value of a hexadecimal digit. */
  ghost predicate IsHexDigit(c: char, d: nat) {
    d < 16 && (c == "0123456789abcdef"[d] || c == "0123456789ABCDEF"[d])
  }

  lemma HexValueIff(c: char, d: nat)
    ensures HexValue(c) == Some(d) <==> IsHexDigit(c, d)
  {}

  /** The text is these bytes, each as a percent sign and two hexadecimal digits. */
  ghost predicate Escapes(x: string, bytes: seq<nat>) {
    && |x| == 3 * |bytes|
    && forall k :: 0 <= k < |bytes| ==>
         && x[3 * k] == '%' && bytes[k] < 256
         && IsHexDigit(x[3 * k + 1], bytes[k] / 16) && IsHexDigit(x[3 * k + 2], bytes[k] % 16)
  }

  ghost predicate Spells(x: string, c: char) {
    (x == [c] && c != '%') || Escapes(x, Bytes(c as int))
  }

  /** The text s spells t character by character. */
  ghost predicate SpellsAll(s: string, t: string)
    decreases |t|
  {
    if t == "" then s == "" else exists n :: 0 < n <= |s| && Spells(s[..n], t[0]) && SpellsAll(s[n..], t[1..])
  }

  lemma HexValueSmall(c: char)
    ensures HexValue(c).Some? ==> HexValue(c).value < 16
  {}

  lemma SplitByte(b: nat, high: nat, low: nat)
    requires low < 16
    ensures b == 16 * high + low <==> high == b / 16 && low == b % 16
  {}

  lemma EscapedByteIff(s: string, i: nat, b: nat)
    ensures EscapedByte(s, i) == Some(b)
            <==> && i + 2 < |s| && s[i] == '%' && b < 256
                 && IsHexDigit(s[i + 1], b / 16) && IsHexDigit(s[i + 2], b % 16)
  {
    hide HexValue, IsHexDigit;
    if i + 2 < |s| {
      HexValueIff(s[i + 1], b / 16);
      HexValueIff(s[i + 2], b % 16);
      HexValueSmall(s[i + 1]);
      HexValueSmall(s[i + 2]);
      if HexValue(s[i + 1]).Some? && HexValue(s[i + 2]).Some? {
        SplitByte(b, HexValue(s[i + 1]).value, HexValue(s[i + 2]).value);
      }
    }
  }

  /** A prefix of s escapes these bytes exactly when the decoder reads them one by one. */
  lemma EscapesIff(s: string, bytes: seq<nat>)
    requires 3 * |bytes| <= |s|
    ensures Escapes(s[..3 * |bytes|], bytes)
            <==> forall k :: 0 <= k < |bytes| ==> EscapedByte(s, 3 * k) == Some(bytes[k])
  {
    forall k | 0 <= k < |bytes|
      ensures EscapedByte(s, 3 * k) == Some(bytes[k])
              <==> && s[..3 * |bytes|][3 * k] == '%' && bytes[k] < 256
                   && IsHexDigit(s[..3 * |bytes|][3 * k + 1], bytes[k] / 16)
                   && IsHexDigit(s[..3 * |bytes|][3 * k + 2], bytes[k] % 16)
    {
      EscapedByteIff(s, 3 * k, bytes[k]);
    }
  }

  predicate IsScalar(p: nat) { p < 0xD800 || 0xE000 <= p < 0x11_0000 }

  /** The decoder finds these bytes escaped at the head of s. */
  ghost predicate Reads(s: string, bytes: seq<nat>) {
    forall k :: 0 <= k < |bytes| ==> EscapedByte(s, 3 * k) == Some(bytes[k])
  }

  lemma ReadsIff(s: string, bytes: seq<nat>)
    requires bytes != []
    ensures Reads(s, bytes) <==> 3 * |bytes| <= |s| && Escapes(s[..3 * |bytes|], bytes)
  {
    if Reads(s, bytes) { assert EscapedByte(s, 3 * (|bytes| - 1)) == Some(bytes[|bytes| - 1]); }
    if 3 * |bytes| <= |s| { EscapesIff(s, bytes); }
  }

  lemma Split(p: nat, high: nat, low: nat)
    requires low < 0x40
    ensures p == 0x40 * high + low <==> high == p / 0x40 && low == p % 0x40
  {}

  lemma OneByte(s: string, p: nat)
    requires p < 0x80
    ensures HeadPoint(s) == Some((p, 3)) <==> Reads(s, [p])
  {
    hide EscapedByte;
    assert Reads(s, [p]) <==> EscapedByte(s, 0) == Some([p][0]);
  }

  lemma Two(s: string, b0: nat, b1: nat)
    ensures Reads(s, [b0, b1]) <==> EscapedByte(s, 0) == Some(b0) && EscapedByte(s, 3) == Some(b1)
  {
    hide EscapedByte;
    assert [b0, b1][0] == b0 && [b0, b1][1] == b1;
    if Reads(s, [b0, b1]) {
      assert EscapedByte(s, 3 * 0) == Some([b0, b1][0]) && EscapedByte(s, 3 * 1) == Some([b0, b1][1]);
    }
  }

  lemma Three(s: string, b0: nat, b1: nat, b2: nat)
    ensures Reads(s, [b0, b1, b2])
            <==> EscapedByte(s, 0) == Some(b0) && EscapedByte(s, 3) == Some(b1) && EscapedByte(s, 6) == Some(b2)
  {
    hide EscapedByte;
    var bs := [b0, b1, b2];
    if Reads(s, bs) {
      assert EscapedByte(s, 3 * 0) == Some(bs[0]) && EscapedByte(s, 3 * 1) == Some(bs[1])
             && EscapedByte(s, 3 * 2) == Some(bs[2]);
    }
  }

  lemma Four(s: string, b0: nat, b1: nat, b2: nat, b3: nat)
    ensures Reads(s, [b0, b1, b2, b3])
            <==> && EscapedByte(s, 0) == Some(b0) && EscapedByte(s, 3) == Some(b1)
                 && EscapedByte(s, 6) == Some(b2) && EscapedByte(s, 9) == Some(b3)
  {
    hide EscapedByte;
    var bs := [b0, b1, b2, b3];
    if Reads(s, bs) {
      assert EscapedByte(s, 3 * 0) == Some(bs[0]) && EscapedByte(s, 3 * 1) == Some(bs[1])
             && EscapedByte(s, 3 * 2) == Some(bs[2]) && EscapedByte(s, 3 * 3) == Some(bs[3]);
    }
  }

  lemma OneMore(s: string, k: nat, high: nat, q: nat)
    ensures Continuation(s, k, k + 1, high) == Some(q)
            <==> high == q / 0x40 && EscapedByte(s, 3 * k) == Some(0x80 + q % 0x40)
  {
    hide EscapedByte;
    Split(q, high, q % 0x40);
  }

  lemma TwoMore(s: string, k: nat, high: nat, q: nat)
    ensures Continuation(s, k, k + 2, high) == Some(q)
            <==> && high == q / 0x40 / 0x40 && EscapedByte(s, 3 * k) == Some(0x80 + q / 0x40 % 0x40)
                 && EscapedByte(s, 3 * (k + 1)) == Some(0x80 + q % 0x40)
  {
    hide EscapedByte;
    var b := EscapedByte(s, 3 * k);
    if b.Some? && 0x80 <= b.value < 0xC0 {
      var low := b.value - 0x80;
      OneMore(s, k + 1, 0x40 * high + low, q);
      Split(q / 0x40, high, low);
    }
  }

  lemma ThreeMore(s: string, k: nat, high: nat, q: nat)
    ensures Continuation(s, k, k + 3, high) == Some(q)
            <==> && high == q / 0x40 / 0x40 / 0x40 && EscapedByte(s, 3 * k) == Some(0x80 + q / 0x40 / 0x40 % 0x40)
                 && EscapedByte(s, 3 * (k + 1)) == Some(0x80 + q / 0x40 % 0x40)
                 && EscapedByte(s, 3 * (k + 2)) == Some(0x80 + q % 0x40)
  {
    hide EscapedByte;
    var b := EscapedByte(s, 3 * k);
    if b.Some? && 0x80 <= b.value < 0xC0 {
      var low := b.value - 0x80;
      TwoMore(s, k + 1, 0x40 * high + low, q);
      Split(q / 0x40 / 0x40, high, low);
    }
  }

  lemma Shifts(p: nat)
    ensures p / 0x1000 == p / 0x40 / 0x40 && p / 0x4_0000 == p / 0x40 / 0x40 / 0x40
  {}

  /** The decoder reads a code point at the head exactly when its UTF-8 bytes are there. */
  lemma HeadPointIff(s: string, p: nat)
    requires IsScalar(p)
    ensures HeadPoint(s) == Some((p, 3 * |Bytes(p)|)) <==> Reads(s, Bytes(p))
  {
    hide EscapedByte, Continuation;
    Shifts(p);
    if p < 0x80 {
      OneByte(s, p);
    } else if p < 0x800 {
      Two(s, 0xC0 + p / 0x40, 0x80 + p % 0x40);
      forall high ensures Continuation(s, 1, 2, high) == Some(p)
                          <==> high == p / 0x40 && EscapedByte(s, 3) == Some(0x80 + p % 0x40)
      {
        OneMore(s, 1, high, p);
      }
    } else if p < 0x1_0000 {
      Three(s, 0xE0 + p / 0x1000, 0x80 + p / 0x40 % 0x40, 0x80 + p % 0x40);
      forall high: nat
        ensures Continuation(s, 1, 3, high) == Some(p)
                <==> && high == p / 0x1000 && EscapedByte(s, 3) == Some(0x80 + p / 0x40 % 0x40)
                     && EscapedByte(s, 6) == Some(0x80 + p % 0x40)
      {
        TwoMore(s, 1, high, p);
      }
    } else {
      Four(s, 0xF0 + p / 0x4_0000, 0x80 + p / 0x1000 % 0x40, 0x80 + p / 0x40 % 0x40, 0x80 + p % 0x40);
      forall high: nat
        ensures Continuation(s, 1, 4, high) == Some(p)
                <==> && high == p / 0x4_0000 && EscapedByte(s, 3) == Some(0x80 + p / 0x1000 % 0x40)
                     && EscapedByte(s, 6) == Some(0x80 + p / 0x40 % 0x40) && EscapedByte(s, 9) == Some(0x80 + p % 0x40)
      {
        ThreeMore(s, 1, high, p);
      }
    }
  }

  /** What the decoder reads is a code point with the length its bytes have. */
  lemma HeadPointShape(s: string)
    ensures HeadPoint(s).Some? ==> IsScalar(HeadPoint(s).value.0)
    ensures HeadPoint(s).Some? ==> HeadPoint(s).value.1 == 3 * |Bytes(HeadPoint(s).value.0)|
  {
    hide EscapedByte, Continuation;
    if HeadPoint(s).Some? {
      var b := EscapedByte(s, 0).value;
      var p := HeadPoint(s).value.0;
      if 0xC0 <= b < 0xE0 { OneMore(s, 1, b - 0xC0, p); }
      if 0xE0 <= b < 0xF0 { TwoMore(s, 1, b - 0xE0, p); }
    }
  }

  lemma SpellsIff(s: string, c: char)
    ensures HeadPoint(s) == Some((c as int, 3 * |Bytes(c as int)|))
            <==> 3 * |Bytes(c as int)| <= |s| && Escapes(s[..3 * |Bytes(c as int)|], Bytes(c as int))
  {
    HeadPointIff(s, c as int);
    ReadsIff(s, Bytes(c as int));
  }

  /** decodeURIComponent gives a text exactly when it was given a spelling of it: each character plain, unless it is a
      percent sign, or as its escaped UTF-8 bytes.  On anything else it throws. */
  lemma {:induction false} DecodeIff(s: string, t: string)
    ensures DecodeComponent(s) == Some(t) <==> SpellsAll(s, t)
    decreases |s|
  {
    hide HeadPoint, Bytes, Escapes;
    HeadPointShape(s);
    if DecodeComponent(s) == Some(t) && s != "" {
      var n := if s[0] != '%' then 1 else HeadPoint(s).value.1;
      assert t != "" && DecodeComponent(s[n..]) == Some(t[1..]);
      if s[0] == '%' { SpellsIff(s, t[0]); }
      DecodeIff(s[n..], t[1..]);
      assert Spells(s[..n], t[0]);
    }
    if SpellsAll(s, t) && t != "" {
      var n :| 0 < n <= |s| && Spells(s[..n], t[0]) && SpellsAll(s[n..], t[1..]);
      DecodeIff(s[n..], t[1..]);
      assert t == [t[0]] + t[1..];
      if s[..n] == [t[0]] && t[0] != '%' {
        assert s[0] == s[..n][0];
      } else {
        SpellsIff(s, t[0]);
        EscapesStart(s[..n], t[0]);
        assert s[0] == s[..n][0];
      }
    }
  }

  /** Object keys are decoded like that after every plus sign was read as a space. */
  lemma KeyDecodeIff(key: string, t: string)
    ensures DecodeKey(key) == Some(t)
            <==> exists s :: |s| == |key| && SpellsAll(s, t)
                             && forall i :: 0 <= i < |s| ==> s[i] == if key[i] == '+' then ' ' else key[i]
  {
    hide DecodeComponent, SpellsAll;
    DecodeIff(PlusToSpace(key), t);
    if s :| |s| == |key| && SpellsAll(s, t)
            && forall i :: 0 <= i < |s| ==> s[i] == if key[i] == '+' then ' ' else key[i]
    {
      assert s == PlusToSpace(key);
    }
  }

  lemma EscapesStart(x: string, c: char)
    requires Escapes(x, Bytes(c as int))
    ensures |x| == 3 * |Bytes(c as int)| && |x| > 0 && x[0] == '%'
  {
    assert |Bytes(c as int)| > 0 && x[3 * 0] == '%';
  }

  /** White space at the end of a spelling is white space at the end of the text. */
  lemma {:induction false} LastPlain(s: string, t: string)
    requires SpellsAll(s, t) && s != "" && IsSpace(s[|s| - 1])
    ensures t != "" && t[|t| - 1] == s[|s| - 1]
    decreases |s|
  {
    hide Bytes, Escapes;
    var n :| 0 < n <= |s| && Spells(s[..n], t[0]) && SpellsAll(s[n..], t[1..]);
    if n < |s| {
      LastPlain(s[n..], t[1..]);
    } else {
      assert s[..n] == s;
      if !(s == [t[0]]) { EscapesEnd(s, t[0]); }
    }
  }

  lemma EscapesEnd(x: string, c: char)
    requires Escapes(x, Bytes(c as int))
    ensures |x| > 0 && !IsSpace(x[|x| - 1])
  {
    hide Bytes;
    EscapesStart(x, c);
    var k := |Bytes(c as int)| - 1;
    assert IsHexDigit(x[3 * k + 2], Bytes(c as int)[k] % 16);
    HexDigitVisible(x[3 * k + 2], Bytes(c as int)[k] % 16);
  }

  lemma HexDigitVisible(c: char, d: nat)
    requires IsHexDigit(c, d)
    ensures !IsSpace(c)
  {}
}
