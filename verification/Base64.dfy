/** base64url without padding (RFC 4648, section 5): an encoder that goes three bytes
  at a time, and a decoder that shifts six bits at a time into 32 bits. */
module Base64 {

  type Octet = bv8

  const PADDING: Octet := 61
  const DOT: Octet := 46

  // ─── The alphabet ──────────────────────────────────────────────────────────

  /** The letter for six bits. */
  function Letter(v: bv32): Octet {
    if v < 26 then 65 + (v as bv8)
    else if v < 52 then 71 + (v as bv8)
    else if v < 62 then (v as bv8) - 4
    else if v == 62 then 45
    else 95
  }

  datatype Sextet = Six(value: bv32) | NotALetter

  /** The six bits for a letter. */
  function DecodeChar(c: Octet): Sextet {
    if 65 <= c <= 90 then Six((c - 65) as bv32)
    else if 97 <= c <= 122 then Six((c - 71) as bv32)
    else if 48 <= c <= 57 then Six((c + 4) as bv32)
    else if c == 45 then Six(62)
    else if c == 95 then Six(63)
    else NotALetter
  }

  /** Letters can be read back, and are neither padding nor a dot. */
  lemma LetterRoundTrip(v: bv32)
    requires v < 64
    ensures DecodeChar(Letter(v)) == Six(v) && Letter(v) != PADDING && Letter(v) != DOT
  {
  }

  // ─── Encoding ──────────────────────────────────────────────────────────────

  function Triple(a: Octet, b: Octet, c: Octet): bv32 {
    ((a as bv32) << 16) | ((b as bv32) << 8) | (c as bv32)
  }

  function Bits18(v: bv32): bv32 { (v >> 18) & 0x3F }

  function Bits12(v: bv32): bv32 { (v >> 12) & 0x3F }

  function Bits6(v: bv32): bv32 { (v >> 6) & 0x3F }

  function Bits0(v: bv32): bv32 { v & 0x3F }

  /** The four letters of 24 bits. */
  function Letters(v: bv32): (r: seq<Octet>)
    ensures |r| == 4
  {
    [Letter(Bits18(v)), Letter(Bits12(v)), Letter(Bits6(v)), Letter(Bits0(v))]
  }

  /** One byte left over takes two letters, and two take three. */
  function Encoded(raw: seq<Octet>): (r: seq<Octet>)
  {
    if raw == [] then []
    else if |raw| == 1 then Letters(Triple(raw[0], 0, 0))[..2]
    else if |raw| == 2 then Letters(Triple(raw[0], raw[1], 0))[..3]
    else Letters(Triple(raw[0], raw[1], raw[2])) + Encoded(raw[3..])
  }

  lemma SixBits(v: bv32)
    ensures Bits18(v) < 64 && Bits12(v) < 64 && Bits6(v) < 64 && Bits0(v) < 64
  {
  }

  lemma {:induction false} EncodedIsPlain(raw: seq<Octet>)
    ensures DOT !in Encoded(raw) && PADDING !in Encoded(raw)
  {
    if |raw| >= 3 {
      LettersArePlain(Triple(raw[0], raw[1], raw[2]));
      EncodedIsPlain(raw[3..]);
    } else if |raw| == 2 {
      LettersArePlain(Triple(raw[0], raw[1], 0));
    } else if |raw| == 1 {
      LettersArePlain(Triple(raw[0], 0, 0));
    }
  }

  lemma LettersArePlain(v: bv32)
    ensures DOT !in Letters(v) && PADDING !in Letters(v)
  {
    hide Letter, Bits18, Bits12, Bits6, Bits0;
    SixBits(v);
    LetterRoundTrip(Bits18(v));
    LetterRoundTrip(Bits12(v));
    LetterRoundTrip(Bits6(v));
    LetterRoundTrip(Bits0(v));
  }

  /** The encoder: whole groups of three in a loop, then what is left. */
  method Encode(raw: seq<Octet>) returns (text: seq<Octet>)
    ensures text == Encoded(raw)
  {
    hide Letters, Triple;
    text := [];
    var i := 0;
    assert raw[0..] == raw;
    while i + 2 < |raw|
      invariant 0 <= i <= |raw| && text + Encoded(raw[i..]) == Encoded(raw)
    {
      assert raw[i..][3..] == raw[i + 3..];
      text := text + Letters(Triple(raw[i], raw[i + 1], raw[i + 2]));
      i := i + 3;
    }
    if i + 1 == |raw| {
      text := text + Letters(Triple(raw[i], 0, 0))[..2];
    } else if i + 2 == |raw| {
      text := text + Letters(Triple(raw[i], raw[i + 1], 0))[..3];
    }
  }

  // ─── Decoding ──────────────────────────────────────────────────────────────

  datatype Decoded = Bytes(bytes: seq<Octet>) | Malformed

  /** The byte above the `bits` lowest bits of the accumulator, which keeps 32 bits and
    loses the older ones. */
  function ByteAbove(acc: bv32, bits: nat): Octet
    requires bits < 8
  {
    ((acc >> bits) & 0xFF) as bv8
  }

  function Pushed(acc: bv32, d: bv32): bv32 { (acc << 6) | d }

  function DecodedFrom(text: seq<Octet>, acc: bv32, bits: nat, out: seq<Octet>): Decoded
    requires bits < 8
  {
    if text == [] || text[0] == PADDING then Bytes(out)
    else
      match DecodeChar(text[0])
      case NotALetter => Malformed
      case Six(d) =>
        var acc1 := Pushed(acc, d);
        if bits >= 2 then DecodedFrom(text[1..], acc1, bits - 2, out + [ByteAbove(acc1, bits - 2)])
        else DecodedFrom(text[1..], acc1, bits + 6, out)
  }

  function DecodedText(text: seq<Octet>): Decoded { DecodedFrom(text, 0, 0, []) }

  method Decode(text: seq<Octet>) returns (result: Decoded)
    ensures result == DecodedText(text)
  {
    hide DecodeChar, ByteAbove, Pushed;
    var out: seq<Octet> := [];
    var acc: bv32 := 0;
    var bits := 0;
    var i := 0;
    assert text[0..] == text;
    while i < |text|
      invariant 0 <= i <= |text| && 0 <= bits < 8
      invariant DecodedFrom(text[i..], acc, bits, out) == DecodedText(text)
    {
      if text[i] == PADDING {
        break;
      }
      match DecodeChar(text[i]) {
        case NotALetter => return Malformed;
        case Six(d) => acc := Pushed(acc, d);
      }
      bits := bits + 6;
      if bits >= 8 {
        bits := bits - 8;
        out := out + [ByteAbove(acc, bits)];
      }
      i := i + 1;
    }
    result := Bytes(out);
  }

  // ─── Round trip ────────────────────────────────────────────────────────────

  /** The bytes of a group come out of the accumulator, whatever it held before. */
  lemma GroupBits(acc: bv32, a: Octet, b: Octet, c: Octet)
    ensures var v := Triple(a, b, c);
            var x1 := Pushed(acc, Bits18(v));
            var x2 := Pushed(x1, Bits12(v));
            var x3 := Pushed(x2, Bits6(v));
            var x4 := Pushed(x3, Bits0(v));
            ByteAbove(x2, 4) == a && ByteAbove(x3, 2) == b && ByteAbove(x4, 0) == c
  {
  }

  /** One letter is one turn of the decoder. */
  lemma OneLetter(text: seq<Octet>, v: bv32, acc: bv32, bits: nat, out: seq<Octet>, rest: seq<Octet>)
    requires v < 64 && bits < 8 && text == [Letter(v)] + rest
    ensures var acc1 := Pushed(acc, v);
            DecodedFrom(text, acc, bits, out)
            == if bits >= 2 then DecodedFrom(rest, acc1, bits - 2, out + [ByteAbove(acc1, bits - 2)])
               else DecodedFrom(rest, acc1, bits + 6, out)
  {
    hide Letter, DecodeChar, Pushed, ByteAbove;
    LetterRoundTrip(v);
    assert text[1..] == rest;
  }

  lemma TwoLetters(text: seq<Octet>, u: bv32, v: bv32, acc: bv32, out: seq<Octet>, rest: seq<Octet>)
    requires u < 64 && v < 64 && text == [Letter(u), Letter(v)] + rest
    ensures var x := Pushed(Pushed(acc, u), v);
            DecodedFrom(text, acc, 0, out) == DecodedFrom(rest, x, 4, out + [ByteAbove(x, 4)])
  {
    hide Letter, DecodedFrom, Pushed, ByteAbove;
    assert text == [Letter(u)] + text[1..];
    OneLetter(text, u, acc, 0, out, text[1..]);
    assert text[1..] == [Letter(v)] + rest;
    OneLetter(text[1..], v, Pushed(acc, u), 6, out, rest);
  }

  lemma GroupOfOne(a: Octet, text: seq<Octet>, acc: bv32, out: seq<Octet>)
    requires text == Letters(Triple(a, 0, 0))[..2]
    ensures DecodedFrom(text, acc, 0, out) == Bytes(out + [a])
  {
    hide Letter, Triple, Pushed, ByteAbove, DecodedFrom, Bits18, Bits12, Bits6, Bits0;
    var v := Triple(a, 0, 0);
    SixBits(v);
    GroupBits(acc, a, 0, 0);
    assert text == [Letter(Bits18(v)), Letter(Bits12(v))] + [];
    TwoLetters(text, Bits18(v), Bits12(v), acc, out, []);
    NothingLeft(Pushed(Pushed(acc, Bits18(v)), Bits12(v)), 4, out + [a]);
  }

  lemma NothingLeft(acc: bv32, bits: nat, out: seq<Octet>)
    requires bits < 8
    ensures DecodedFrom([], acc, bits, out) == Bytes(out)
  {
  }

  lemma GroupOfTwo(a: Octet, b: Octet, text: seq<Octet>, acc: bv32, out: seq<Octet>)
    requires text == Letters(Triple(a, b, 0))[..3]
    ensures DecodedFrom(text, acc, 0, out) == Bytes(out + [a] + [b])
  {
    hide Letter, Triple, Pushed, ByteAbove, DecodedFrom, Bits18, Bits12, Bits6, Bits0;
    var v := Triple(a, b, 0);
    var s1, s2, s3 := Bits18(v), Bits12(v), Bits6(v);
    SixBits(v);
    GroupBits(acc, a, b, 0);
    var x2 := Pushed(Pushed(acc, s1), s2);
    assert text == [Letter(s1), Letter(s2)] + [Letter(s3)] && [Letter(s3)] == [Letter(s3)] + [];
    TwoLetters(text, s1, s2, acc, out, [Letter(s3)]);
    OneLetter([Letter(s3)], s3, x2, 4, out + [a], []);
    NothingLeft(Pushed(x2, s3), 2, out + [a] + [b]);
  }

  lemma GroupOfThree(a: Octet, b: Octet, c: Octet, text: seq<Octet>, rest: seq<Octet>, acc: bv32, out: seq<Octet>)
    returns (acc1: bv32)
    requires text == Letters(Triple(a, b, c)) + rest
    ensures DecodedFrom(text, acc, 0, out) == DecodedFrom(rest, acc1, 0, out + [a] + [b] + [c])
  {
    hide Letter, Triple, Pushed, ByteAbove, DecodedFrom, Bits18, Bits12, Bits6, Bits0;
    var v := Triple(a, b, c);
    var s1, s2, s3, s4 := Bits18(v), Bits12(v), Bits6(v), Bits0(v);
    SixBits(v);
    GroupBits(acc, a, b, c);
    var x2 := Pushed(Pushed(acc, s1), s2);
    var x3 := Pushed(x2, s3);
    acc1 := Pushed(x3, s4);
    var last := [Letter(s4)] + rest;
    assert text == [Letter(s1), Letter(s2)] + ([Letter(s3)] + last);
    TwoLetters(text, s1, s2, acc, out, [Letter(s3)] + last);
    OneLetter([Letter(s3)] + last, s3, x2, 4, out + [a], last);
    OneLetter(last, s4, x3, 2, out + [a] + [b], rest);
  }

  lemma {:induction false} EncodedIsDecoded(raw: seq<Octet>, acc: bv32, out: seq<Octet>)
    ensures DecodedFrom(Encoded(raw), acc, 0, out) == Bytes(out + raw)
  {
    hide Letters, Triple, DecodedFrom;
    if raw == [] {
      NothingLeft(acc, 0, out);
      assert out + raw == out;
    } else if |raw| == 1 {
      GroupOfOne(raw[0], Encoded(raw), acc, out);
      assert out + raw == out + [raw[0]];
    } else if |raw| == 2 {
      GroupOfTwo(raw[0], raw[1], Encoded(raw), acc, out);
      assert out + raw == out + [raw[0]] + [raw[1]];
    } else {
      var acc1 := GroupOfThree(raw[0], raw[1], raw[2], Encoded(raw), Encoded(raw[3..]), acc, out);
      var out1 := out + [raw[0]] + [raw[1]] + [raw[2]];
      EncodedIsDecoded(raw[3..], acc1, out1);
      assert out1 + raw[3..] == out + raw;
    }
  }

  /** Decoding gives back what was encoded, for every string of bytes. */
  lemma RoundTrip(raw: seq<Octet>)
    ensures DecodedText(Encoded(raw)) == Bytes(raw)
  {
    EncodedIsDecoded(raw, 0, []);
    assert [] + raw == raw;
  }

  // ─── The alphabet of RFC 4648 ──────────────────────────────────────────────

  /** Capitals, small letters, digits, and then `-` and `_` (section 5, table 2). */
  predicate StandsFor(c: Octet, v: bv32) {
    || (v < 26 && 0x41 <= c <= 0x5A && (c - 0x41) as bv32 == v)
    || (26 <= v < 52 && 0x61 <= c <= 0x7A && (c - 0x61) as bv32 == v - 26)
    || (52 <= v < 62 && 0x30 <= c <= 0x39 && (c - 0x30) as bv32 == v - 52)
    || (v == 62 && c == 0x2D)
    || (v == 63 && c == 0x5F)
  }

  predicate InAlphabet(c: Octet) {
    0x41 <= c <= 0x5A || 0x61 <= c <= 0x7A || 0x30 <= c <= 0x39 || c == 0x2D || c == 0x5F
  }

  lemma LettersMean(c: Octet, v: bv32)
    requires v < 64
    ensures (Letter(v) == c <==> StandsFor(c, v)) && (DecodeChar(c) == Six(v) <==> StandsFor(c, v))
    ensures DecodeChar(c) != NotALetter <==> InAlphabet(c)
  {
  }

  /** `text` are the letters of the bits of `a`, `b` and `c`, six at a time. */
  predicate AreLetters(text: seq<Octet>, a: Octet, b: Octet, c: Octet)
    requires |text| == 4
  {
    var n := (a as bv32) * 0x10000 + (b as bv32) * 0x100 + (c as bv32);
    && StandsFor(text[0], n / 0x40000) && StandsFor(text[1], n / 0x1000 % 64) && StandsFor(text[2], n / 64 % 64)
    && StandsFor(text[3], n % 64)
  }

  lemma BitsMean(a: Octet, b: Octet, c: Octet)
    ensures var v := Triple(a, b, c);
            var n := (a as bv32) * 0x10000 + (b as bv32) * 0x100 + (c as bv32);
            && Bits18(v) == n / 0x40000 < 64 && Bits12(v) == n / 0x1000 % 64 < 64 && Bits6(v) == n / 64 % 64 < 64
            && Bits0(v) == n % 64 < 64
  {
  }

  lemma GroupMeans(a: Octet, b: Octet, c: Octet)
    ensures AreLetters(Letters(Triple(a, b, c)), a, b, c)
  {
    hide Letter, Triple, Bits18, Bits12, Bits6, Bits0, StandsFor;
    var v := Triple(a, b, c);
    BitsMean(a, b, c);
    LettersMean(Letter(Bits18(v)), Bits18(v));
    LettersMean(Letter(Bits12(v)), Bits12(v));
    LettersMean(Letter(Bits6(v)), Bits6(v));
    LettersMean(Letter(Bits0(v)), Bits0(v));
  }

  /** Four letters for three bytes; of what is left over the missing bytes are zero and their letters are
    not written. */
  lemma EncodedMeans(raw: seq<Octet>)
    ensures |Encoded(raw)| == (4 * |raw| + 2) / 3
    ensures |raw| >= 3 ==>
              Encoded(raw)[4..] == Encoded(raw[3..]) && AreLetters(Encoded(raw)[..4], raw[0], raw[1], raw[2])
    ensures |raw| == 2 ==> exists w | |w| == 4 :: AreLetters(w, raw[0], raw[1], 0) && Encoded(raw) == w[..3]
    ensures |raw| == 1 ==> exists w | |w| == 4 :: AreLetters(w, raw[0], 0, 0) && Encoded(raw) == w[..2]
  {
    hide Letters, Triple, AreLetters;
    if |raw| >= 3 {
      var w := Letters(Triple(raw[0], raw[1], raw[2]));
      GroupMeans(raw[0], raw[1], raw[2]);
      EncodedMeans(raw[3..]);
      assert Encoded(raw)[..4] == w && Encoded(raw)[4..] == Encoded(raw[3..]);
    } else if |raw| == 2 {
      var w := Letters(Triple(raw[0], raw[1], 0));
      GroupMeans(raw[0], raw[1], 0);
    } else if |raw| == 1 {
      var w := Letters(Triple(raw[0], 0, 0));
      GroupMeans(raw[0], 0, 0);
    }
  }

  /** A byte that is no letter is refused, unless an equals sign comes before it. */
  lemma {:induction false} StrangeIsMalformed(text: seq<Octet>, i: nat, acc: bv32, bits: nat, out: seq<Octet>)
    requires i < |text| && !InAlphabet(text[i]) && (forall j :: 0 <= j <= i ==> text[j] != 0x3D) && bits < 8
    ensures DecodedFrom(text, acc, bits, out) == Malformed
    decreases i
  {
    hide DecodeChar, Pushed, ByteAbove, InAlphabet;
    LettersMean(text[0], 0);
    if i > 0 && DecodeChar(text[0]).Six? {
      var acc1 := Pushed(acc, DecodeChar(text[0]).value);
      var rest := text[1..];
      assert rest[i - 1] == text[i] && forall j :: 0 <= j <= i - 1 ==> rest[j] == text[j + 1];
      if bits >= 2 {
        StrangeIsMalformed(rest, i - 1, acc1, bits - 2, out + [ByteAbove(acc1, bits - 2)]);
      } else {
        StrangeIsMalformed(rest, i - 1, acc1, bits + 6, out);
      }
    }
  }

  /** What comes behind an equals sign is not looked at. */
  lemma {:induction false} PaddingEnds(text: seq<Octet>, rest: seq<Octet>, acc: bv32, bits: nat, out: seq<Octet>)
    requires bits < 8
    ensures DecodedFrom(text + ([0x3D] + rest), acc, bits, out) == DecodedFrom(text, acc, bits, out)
    decreases |text|
  {
    hide DecodeChar, Pushed, ByteAbove;
    var all := text + ([0x3D] + rest);
    if text != [] && text[0] != 0x3D && DecodeChar(text[0]).Six? {
      var acc1 := Pushed(acc, DecodeChar(text[0]).value);
      assert all[1..] == text[1..] + ([0x3D] + rest);
      if bits >= 2 {
        PaddingEnds(text[1..], rest, acc1, bits - 2, out + [ByteAbove(acc1, bits - 2)]);
      } else {
        PaddingEnds(text[1..], rest, acc1, bits + 6, out);
      }
    }
  }
}
