/**
 * Base64 with the standard alphabet and `=` padding (section 4 of RFC 4648),
 * as Go's `base64.StdEncoding` implements it: the decoder skips carriage
 * returns and line feeds anywhere in the input, requires the padded length to
 * be a multiple of four, accepts padding only at the end, and (not being in
 * strict mode) ignores the unused low bits of a padded final quantum.
 * Text is handled as bytes (ASCII codes), as Go handles it.
 */
module Base64 {
  import opened Basics

  const Pad: byte := 61  // '='
  const CarriageReturn: byte := 13
  const LineFeed: byte := 10

  /** The character that encodes the 6-bit value `v`: A-Z, a-z, 0-9, '+', '/'. */
  function SextetChar(v: nat): (c: byte)
    requires v < 64
    ensures c != Pad && c != CarriageReturn && c != LineFeed
  {
    if v < 26 then 65 + v
    else if v < 52 then 97 + (v - 26)
    else if v < 62 then 48 + (v - 52)
    else if v == 62 then 43
    else 47
  }

  /** The 6-bit value a character of the alphabet stands for; `None` outside it. */
  function SextetValue(c: byte): (r: Option<nat>)
    ensures r.Some? ==> r.value < 64 && SextetChar(r.value) == c
  {
    if 65 <= c <= 90 then Some(c - 65)
    else if 97 <= c <= 122 then Some(c - 97 + 26)
    else if 48 <= c <= 57 then Some(c - 48 + 52)
    else if c == 43 then Some(62)
    else if c == 47 then Some(63)
    else None
  }

  lemma SextetRoundTrip(v: nat)
    requires v < 64
    ensures SextetValue(SextetChar(v)) == Some(v)
  {
  }

  /** True of every byte of an encoder's output. */
  predicate IsEncodingChar(c: byte) {
    SextetValue(c).Some? || c == Pad
  }

  /** Three bytes become four characters. */
  function EncodeTriple(b0: byte, b1: byte, b2: byte): seq<byte>
  {
    [SextetChar(b0 / 4), SextetChar((b0 % 4) * 16 + b1 / 16),
     SextetChar((b1 % 16) * 4 + b2 / 64), SextetChar(b2 % 64)]
  }

  /** Base64 encoding with padding (Go's `StdEncoding.EncodeToString`). */
  function Encode(data: Bytes): (r: Bytes)
    ensures |r| % 4 == 0 && (|r| == 0 <==> |data| == 0)
    decreases |data|
  {
    if |data| == 0 then []
    else if |data| == 1 then
      [SextetChar(data[0] / 4), SextetChar((data[0] % 4) * 16), Pad, Pad]
    else if |data| == 2 then
      [SextetChar(data[0] / 4), SextetChar((data[0] % 4) * 16 + data[1] / 16),
       SextetChar((data[1] % 16) * 4), Pad]
    else
      EncodeTriple(data[0], data[1], data[2]) + Encode(data[3..])
  }

  /** Every started group of three bytes becomes four characters. */
  lemma {:induction false} EncodeLength(data: Bytes)
    ensures |Encode(data)| == 4 * ((|data| + 2) / 3)
    decreases |data|
  {
    if |data| > 3 {
      EncodeLength(data[3..]);
    }
  }

  /** The encoder writes only alphabet characters and padding, never a line break. */
  lemma {:induction false} EncodeAlphabet(data: Bytes)
    ensures forall k :: 0 <= k < |Encode(data)| ==>
              IsEncodingChar(Encode(data)[k]) && Encode(data)[k] != CarriageReturn && Encode(data)[k] != LineFeed
    decreases |data|
  {
    if |data| > 3 {
      EncodeAlphabet(data[3..]);
      var q := EncodeTriple(data[0], data[1], data[2]);
      assert Encode(data) == q + Encode(data[3..]);
    }
  }

  /** Four characters without padding become three bytes. */
  function DecodeFull(c0: byte, c1: byte, c2: byte, c3: byte): Option<Bytes>
  {
    match (SextetValue(c0), SextetValue(c1), SextetValue(c2), SextetValue(c3))
    case (Some(v0), Some(v1), Some(v2), Some(v3)) =>
      Some([v0 * 4 + v1 / 16, (v1 % 16) * 16 + v2 / 4, (v2 % 4) * 64 + v3])
    case _ => None
  }

  /** The last quantum, which may end in one or two padding characters. */
  function DecodeLast(c0: byte, c1: byte, c2: byte, c3: byte): Option<Bytes>
  {
    if c2 == Pad && c3 == Pad then
      match (SextetValue(c0), SextetValue(c1))
      case (Some(v0), Some(v1)) => Some([v0 * 4 + v1 / 16])
      case _ => None
    else if c3 == Pad then
      match (SextetValue(c0), SextetValue(c1), SextetValue(c2))
      case (Some(v0), Some(v1), Some(v2)) => Some([v0 * 4 + v1 / 16, (v1 % 16) * 16 + v2 / 4])
      case _ => None
    else
      DecodeFull(c0, c1, c2, c3)
  }

  /** Decodes whole quanta; padding is only accepted in the last one. */
  function DecodeQuanta(s: Bytes): Option<Bytes>
    requires |s| % 4 == 0
    decreases |s|
  {
    if |s| == 0 then Some([])
    else if |s| == 4 then DecodeLast(s[0], s[1], s[2], s[3])
    else
      match DecodeFull(s[0], s[1], s[2], s[3])
      case None => None
      case Some(head) =>
        match DecodeQuanta(s[4..])
        case None => None
        case Some(tail) => Some(head + tail)
  }

  /** Every four characters decode to at most three bytes. */
  lemma {:induction false} DecodeQuantaLength(s: Bytes)
    requires |s| % 4 == 0
    ensures DecodeQuanta(s).Some? ==> 4 * |DecodeQuanta(s).value| <= 3 * |s|
    decreases |s|
  {
    if |s| > 4 {
      DecodeQuantaLength(s[4..]);
    }
  }

  /** The input with every carriage return and line feed removed. */
  function StripLineBreaks(s: Bytes): (r: Bytes)
    ensures |r| <= |s|
    ensures forall k :: 0 <= k < |r| ==> r[k] != CarriageReturn && r[k] != LineFeed
  {
    if s == [] then []
    else if s[0] == CarriageReturn || s[0] == LineFeed then StripLineBreaks(s[1..])
    else [s[0]] + StripLineBreaks(s[1..])
  }

  /**
   * Go's `base64.StdEncoding.DecodeString`: `None` where Go reports an error.
   * Decoding succeeds only on whole quanta once line breaks are dropped, and
   * yields at most three bytes for every four characters.
   */
  function Decode(s: Bytes): (r: Option<Bytes>)
    ensures r.Some? ==> |StripLineBreaks(s)| % 4 == 0
    ensures r.Some? ==> 4 * |r.value| <= 3 * |s|
  {
    var t := StripLineBreaks(s);
    if |t| % 4 != 0 then None
    else
      DecodeQuantaLength(t);
      DecodeQuanta(t)
  }

  lemma StripLineBreaksNone(s: Bytes)
    requires forall k :: 0 <= k < |s| ==> s[k] != CarriageReturn && s[k] != LineFeed
    ensures StripLineBreaks(s) == s
  {
    if s != [] {
      StripLineBreaksNone(s[1..]);
      assert [s[0]] + s[1..] == s;
    }
  }

  /** `hi * 16 + lo` with `lo < 16` splits back into `hi` and `lo`. */
  lemma Combine16(hi: nat, lo: nat)
    requires lo < 16
    ensures (hi * 16 + lo) / 16 == hi && (hi * 16 + lo) % 16 == lo
  {
  }

  /** `hi * 4 + lo` with `lo < 4` splits back into `hi` and `lo`. */
  lemma Combine4(hi: nat, lo: nat)
    requires lo < 4
    ensures (hi * 4 + lo) / 4 == hi && (hi * 4 + lo) % 4 == lo
  {
  }

  lemma DecodeEncodeTriple(b0: byte, b1: byte, b2: byte)
    ensures var q := EncodeTriple(b0, b1, b2);
            DecodeFull(q[0], q[1], q[2], q[3]) == Some([b0, b1, b2])
  {
    var v0, v1, v2, v3 := b0 / 4, (b0 % 4) * 16 + b1 / 16, (b1 % 16) * 4 + b2 / 64, b2 % 64;
    SextetRoundTrip(v0);
    SextetRoundTrip(v1);
    SextetRoundTrip(v2);
    SextetRoundTrip(v3);
    Combine16(b0 % 4, b1 / 16);
    Combine4(b1 % 16, b2 / 64);
    assert v0 * 4 + v1 / 16 == b0;
    assert (v1 % 16) * 16 + v2 / 4 == b1;
    assert (v2 % 4) * 64 + v3 == b2;
  }

  lemma DecodeEncodeSingle(b0: byte)
    ensures DecodeLast(SextetChar(b0 / 4), SextetChar((b0 % 4) * 16), Pad, Pad) == Some([b0])
  {
    SextetRoundTrip(b0 / 4);
    SextetRoundTrip((b0 % 4) * 16);
    Combine16(b0 % 4, 0);
  }

  lemma DecodeEncodePair(b0: byte, b1: byte)
    ensures DecodeLast(SextetChar(b0 / 4), SextetChar((b0 % 4) * 16 + b1 / 16),
                       SextetChar((b1 % 16) * 4), Pad) == Some([b0, b1])
  {
    var v0, v1, v2 := b0 / 4, (b0 % 4) * 16 + b1 / 16, (b1 % 16) * 4;
    SextetRoundTrip(v0);
    SextetRoundTrip(v1);
    SextetRoundTrip(v2);
    Combine16(b0 % 4, b1 / 16);
    Combine4(b1 % 16, 0);
    assert v0 * 4 + v1 / 16 == b0;
    assert (v1 % 16) * 16 + v2 / 4 == b1;
  }

  /** A last quantum without padding decodes like any full quantum. */
  lemma DecodeQuantaLastFull(q: Bytes, head: Bytes)
    requires |q| == 4 && q[3] != Pad
    requires DecodeFull(q[0], q[1], q[2], q[3]) == Some(head)
    ensures DecodeQuanta(q) == Some(head)
  {
  }

  lemma ExactlyThree(data: Bytes)
    requires |data| == 3
    ensures data == [data[0], data[1], data[2]]
  {
  }

  /** Three bytes alone encode to one full quantum, which decodes back. */
  lemma DecodeQuantaEncodeTriple(data: Bytes)
    requires |data| == 3
    ensures DecodeQuanta(Encode(data)) == Some(data)
  {
    var q := EncodeTriple(data[0], data[1], data[2]);
    assert Encode(data) == q by {
      assert Encode(data[3..]) == [];
    }
    DecodeEncodeTriple(data[0], data[1], data[2]);
    DecodeQuantaLastFull(q, [data[0], data[1], data[2]]);
    ExactlyThree(data);
  }

  /** A full quantum in front of more quanta decodes to its bytes, then theirs. */
  lemma DecodeQuantaCons(q: Bytes, rest: Bytes, head: Bytes, tail: Bytes)
    requires |q| == 4 && |rest| % 4 == 0 && |rest| >= 4
    requires DecodeFull(q[0], q[1], q[2], q[3]) == Some(head)
    requires DecodeQuanta(rest) == Some(tail)
    ensures DecodeQuanta(q + rest) == Some(head + tail)
  {
    var s := q + rest;
    assert s[4..] == rest;
    assert s[0] == q[0] && s[1] == q[1] && s[2] == q[2] && s[3] == q[3];
  }

  /** Encoding three bytes or more starts with the full quantum of the first three. */
  lemma EncodeCons(data: Bytes)
    requires |data| > 3
    ensures Encode(data) == EncodeTriple(data[0], data[1], data[2]) + Encode(data[3..])
  {
  }

  lemma FirstThree(data: Bytes)
    requires |data| >= 3
    ensures [data[0], data[1], data[2]] + data[3..] == data
  {
  }

  /** Three bytes in front of more bytes: one full quantum, then the rest. */
  lemma DecodeQuantaEncodeStep(data: Bytes)
    requires |data| > 3
    requires DecodeQuanta(Encode(data[3..])) == Some(data[3..])
    ensures DecodeQuanta(Encode(data)) == Some(data)
  {
    var q := EncodeTriple(data[0], data[1], data[2]);
    var rest := Encode(data[3..]);
    var head := [data[0], data[1], data[2]];
    EncodeCons(data);
    DecodeEncodeTriple(data[0], data[1], data[2]);
    DecodeQuantaCons(q, rest, head, data[3..]);
    FirstThree(data);
  }

  /** Decoding the encoder's output gives back the input bytes. */
  lemma {:induction false} DecodeQuantaEncode(data: Bytes)
    ensures DecodeQuanta(Encode(data)) == Some(data)
    decreases |data|
  {
    if |data| == 0 {
    } else if |data| == 1 {
      DecodeEncodeSingle(data[0]);
      assert data == [data[0]];
    } else if |data| == 2 {
      DecodeEncodePair(data[0], data[1]);
      assert data == [data[0], data[1]];
    } else if |data| == 3 {
      DecodeQuantaEncodeTriple(data);
    } else {
      DecodeQuantaEncode(data[3..]);
      DecodeQuantaEncodeStep(data);
    }
  }

  /** Round trip: `Decode(Encode(x)) == x` for every byte string. */
  lemma DecodeEncode(data: Bytes)
    ensures Decode(Encode(data)) == Some(data)
  {
    var e := Encode(data);
    EncodeAlphabet(data);
    StripLineBreaksNone(e);
    DecodeQuantaEncode(data);
  }
}
