/** What the strings and numbers of a JSON text stand for (sections 6 and 7 of RFC 8259): texts are
  built here from what they mean, and the parser has to find that again. */
module JsonMeaning {
  import opened Text
  import opened Json
  import opened JsonSpaces

  // ─── Characters ────────────────────────────────────────────────────────────

  /** A piece of a string: a byte as it is, a backslash and a letter, a backslash with `u` and the code
    of a character, or two of them for a character beyond the first 65536.  `upper` says which
    hexadecimal digits are capitals. */
  datatype Unit = Plain(c: Octet) | Short(letter: Octet) | Coded(cp: bv32, upper: seq<bool>)

  /** In ASCII: the quotation mark, the backslash, the slash, b, f, n, r and t. */
  predicate IsLetter(c: Octet) {
    c == 0x22 || c == 0x5C || c == 0x2F || c == 0x62 || c == 0x66 || c == 0x6E || c == 0x72 || c == 0x74
  }

  /** Backspace, form feed, line feed, carriage return and tab; the other three are themselves. */
  function LetterValue(c: Octet): Octet {
    if c == 0x62 then 0x08
    else if c == 0x66 then 0x0C
    else if c == 0x6E then 0x0A
    else if c == 0x72 then 0x0D
    else if c == 0x74 then 0x09
    else c
  }

  predicate Proper(u: Unit) {
    match u
    case Plain(c) => c >= 0x20 && c != 0x22 && c != 0x5C
    case Short(letter) => IsLetter(letter)
    case Coded(cp, upper) => |upper| == 8 && (cp < 0xD800 || 0xE000 <= cp <= 0x10FFFF)
  }

  function HexByte(v: bv32, upper: bool): Octet
    requires v < 16
  {
    if v < 10 then 0x30 + v as Octet else if upper then 0x41 + (v - 10) as Octet else 0x61 + (v - 10) as Octet
  }

  /** Four digits, the highest first. */
  function HexText(n: bv32, upper: seq<bool>): seq<Octet>
    requires |upper| == 4
  {
    [HexByte(n / 0x1000 % 16, upper[0]), HexByte(n / 0x100 % 16, upper[1]), HexByte(n / 16 % 16, upper[2]),
     HexByte(n % 16, upper[3])]
  }

  function High(cp: bv32): bv32
    requires cp >= 0x10000
  {
    0xD800 + (cp - 0x10000) / 0x400
  }

  function Low(cp: bv32): bv32
    requires cp >= 0x10000
  {
    0xDC00 + (cp - 0x10000) % 0x400
  }

  function UnitText(u: Unit): seq<Octet>
    requires Proper(u)
  {
    match u
    case Plain(c) => [c]
    case Short(letter) => [0x5C, letter]
    case Coded(cp, upper) =>
      if cp < 0x10000 then [0x5C, 0x75] + HexText(cp, upper[..4])
      else [0x5C, 0x75] + (HexText(High(cp), upper[..4]) + ([0x5C, 0x75] + HexText(Low(cp), upper[4..])))
  }

  /** UTF-8, by division (section 3 of RFC 3629). */
  function Char(cp: bv32): seq<Octet>
    requires cp <= 0x10FFFF
  {
    if cp < 0x80 then [cp as Octet]
    else if cp < 0x800 then [(0xC0 + cp / 0x40) as Octet, (0x80 + cp % 0x40) as Octet]
    else if cp < 0x10000 then
      [(0xE0 + cp / 0x1000) as Octet, (0x80 + cp / 0x40 % 0x40) as Octet, (0x80 + cp % 0x40) as Octet]
    else
      [(0xF0 + cp / 0x40000) as Octet, (0x80 + cp / 0x1000 % 0x40) as Octet, (0x80 + cp / 0x40 % 0x40) as Octet,
       (0x80 + cp % 0x40) as Octet]
  }

  function UnitValue(u: Unit): seq<Octet>
    requires Proper(u)
  {
    match u
    case Plain(c) => [c]
    case Short(letter) => [LetterValue(letter)]
    case Coded(cp, _) => Char(cp)
  }

  lemma Utf8IsChar(cp: bv32)
    requires cp <= 0x10FFFF
    ensures Utf8(cp) == Char(cp)
  {
  }

  lemma HexIsRead(v: bv32, upper: bool)
    requires v < 16
    ensures HexValue(HexByte(v, upper)) == Hex(v)
  {
  }

  lemma FourDigits(n: bv32)
    requires n < 0x10000
    ensures Shifted(Shifted(Shifted(Shifted(0, n / 0x1000 % 16), n / 0x100 % 16), n / 16 % 16), n % 16) == n
  {
  }

  lemma CodeIsRead(t: seq<Octet>, i: nat, n: bv32, upper: seq<bool>)
    requires n < 0x10000 && |upper| == 4 && HasAt(t, i, HexText(n, upper))
    ensures Hex4(t, i) == Ok(n, i + 4)
  {
    hide HexByte, HexValue, Shifted;
    var w := t[i..i + 4];
    assert w[0] == t[i] && w[1] == t[i + 1] && w[2] == t[i + 2] && w[3] == t[i + 3];
    HexIsRead(n / 0x1000 % 16, upper[0]);
    HexIsRead(n / 0x100 % 16, upper[1]);
    HexIsRead(n / 16 % 16, upper[2]);
    HexIsRead(n % 16, upper[3]);
    FourDigits(n);
  }

  lemma ShiftIsDivision(d: bv32)
    requires d <= 0xFFFFF
    ensures d / 0x400 == d >> 10 && d % 0x400 == d & 0x3FF && d >> 10 <= 0x3FF
    ensures ((d >> 10) << 10) + (d & 0x3FF) == d
  {
  }

  lemma OffsetsStay(h: bv32, l: bv32)
    requires h <= 0x3FF && l <= 0x3FF
    ensures 0xD800 <= 0xD800 + h <= 0xDBFF && 0xDC00 <= 0xDC00 + l <= 0xDFFF
    ensures 0xD800 + h - 0xD800 == h && 0xDC00 + l - 0xDC00 == l
  {
  }

  predicate Surrogates(high: bv32, low: bv32, cp: bv32) {
    0xD800 <= high <= 0xDBFF && 0xDC00 <= low <= 0xDFFF && 0x10000 + ((high - 0xD800) << 10) + (low - 0xDC00) == cp
  }

  lemma SurrogatesJoin(cp: bv32)
    requires 0x10000 <= cp <= 0x10FFFF
    ensures Surrogates(High(cp), Low(cp), cp)
  {
    var d := cp - 0x10000;
    ShiftIsDivision(d);
    assert d & 0x3FF <= 0x3FF;
    OffsetsStay(d >> 10, d & 0x3FF);
  }

  /** The code of a character that is no surrogate. */
  lemma SingleIsRead(t: seq<Octet>, i: nat, cp: bv32, upper: seq<bool>)
    requires |upper| == 4 && (cp < 0xD800 || 0xE000 <= cp < 0x10000) && HasAt(t, i, HexText(cp, upper))
    ensures CodePoint(t, i) == Ok(cp, i + 4)
  {
    hide HexText, Hex4, HasAt;
    CodeIsRead(t, i, cp, upper);
  }

  lemma PairCode(t: seq<Octet>, i: nat, high: bv32, low: bv32, cp: bv32)
    requires Surrogates(high, low, cp)
    requires Hex4(t, i) == Ok(high, i + 4) && Hex4(t, i + 6) == Ok(low, i + 10)
    requires i + 6 <= |t| && t[i + 4] == BACKSLASH && t[i + 5] == 117
    ensures CodePoint(t, i) == Ok(cp, i + 10)
  {
    hide Hex4;
  }

  lemma PairText(cp: bv32, upper: seq<bool>)
    requires Proper(Coded(cp, upper)) && cp >= 0x10000
    ensures UnitText(Coded(cp, upper))
            == [0x5C, 0x75] + (HexText(High(cp), upper[..4]) + ([0x5C, 0x75] + HexText(Low(cp), upper[4..])))
    ensures |UnitText(Coded(cp, upper))| == 12
  {
    hide HexText, High, Low;
    FourLong(High(cp), upper[..4]);
    FourLong(Low(cp), upper[4..]);
  }

  lemma TwoCodes(t: seq<Octet>, i: nat, high: bv32, low: bv32, upper1: seq<bool>, upper2: seq<bool>)
    requires high < 0x10000 && low < 0x10000 && |upper1| == 4 && |upper2| == 4
    requires HasAt(t, i, [0x5C, 0x75] + (HexText(high, upper1) + ([0x5C, 0x75] + HexText(low, upper2))))
    ensures i + 8 <= |t| && t[i] == BACKSLASH && t[i + 1] == 117 && t[i + 6] == BACKSLASH && t[i + 7] == 117
    ensures Hex4(t, i + 2) == Ok(high, i + 6) && Hex4(t, i + 8) == Ok(low, i + 12)
  {
    hide *;
    var a, b := HexText(high, upper1), HexText(low, upper2);
    FourLong(high, upper1);
    HasParts(t, i, [0x5C, 0x75], a + ([0x5C, 0x75] + b));
    EscapeStart(t, i);
    HasParts(t, i + 2, a, [0x5C, 0x75] + b);
    HasParts(t, i + 6, [0x5C, 0x75], b);
    EscapeStart(t, i + 6);
    CodeIsRead(t, i + 2, high, upper1);
    CodeIsRead(t, i + 8, low, upper2);
  }

  lemma PairIsRead(t: seq<Octet>, i: nat, cp: bv32, upper: seq<bool>)
    requires Proper(Coded(cp, upper)) && cp >= 0x10000 && HasAt(t, i, UnitText(Coded(cp, upper)))
    ensures i + 2 <= |t| && t[i] == BACKSLASH && t[i + 1] == 117 && CodePoint(t, i + 2) == Ok(cp, i + 12)
  {
    PairParts(cp, upper);
    hide *;
    PairText(cp, upper);
    SurrogatesJoin(cp);
    PairAt(t, i, cp, High(cp), Low(cp), upper[..4], upper[4..]);
  }

  lemma PairParts(cp: bv32, upper: seq<bool>)
    requires Proper(Coded(cp, upper)) && cp >= 0x10000
    ensures 0x10000 <= cp <= 0x10FFFF && |upper| == 8
  {
  }

  lemma PairAt(t: seq<Octet>, i: nat, cp: bv32, high: bv32, low: bv32, upper1: seq<bool>, upper2: seq<bool>)
    requires Surrogates(high, low, cp) && |upper1| == 4 && |upper2| == 4
    requires HasAt(t, i, [0x5C, 0x75] + (HexText(high, upper1) + ([0x5C, 0x75] + HexText(low, upper2))))
    ensures i + 2 <= |t| && t[i] == BACKSLASH && t[i + 1] == 117 && CodePoint(t, i + 2) == Ok(cp, i + 12)
  {
    hide *;
    BothAreSmall(high, low, cp);
    TwoCodes(t, i, high, low, upper1, upper2);
    PairCode(t, i + 2, high, low, cp);
  }

  lemma BothAreSmall(high: bv32, low: bv32, cp: bv32)
    requires Surrogates(high, low, cp)
    ensures high < 0x10000 && low < 0x10000
  {
  }

  lemma CodePointIsRead(t: seq<Octet>, i: nat, cp: bv32, upper: seq<bool>)
    requires Proper(Coded(cp, upper)) && HasAt(t, i, UnitText(Coded(cp, upper)))
    ensures i + 2 <= |t| && t[i] == BACKSLASH && t[i + 1] == 117
    ensures CodePoint(t, i + 2) == Ok(cp, i + |UnitText(Coded(cp, upper))|)
  {
    hide HexText, Hex4, HasAt, High, Low, CodePoint;
    if cp < 0x10000 {
      HasParts(t, i, [0x5C, 0x75], HexText(cp, upper[..4]));
      EscapeStart(t, i);
      SingleIsRead(t, i + 2, cp, upper[..4]);
      FourLong(cp, upper[..4]);
    } else {
      PairText(cp, upper);
      PairIsRead(t, i, cp, upper);
    }
  }

  lemma FourLong(n: bv32, upper: seq<bool>)
    requires |upper| == 4
    ensures |HexText(n, upper)| == 4
  {
  }

  lemma EscapeStart(t: seq<Octet>, i: nat)
    requires HasAt(t, i, [0x5C, 0x75])
    ensures i + 2 <= |t| && t[i] == BACKSLASH && t[i + 1] == 117
  {
    assert t[i..i + 2][0] == t[i] && t[i..i + 2][1] == t[i + 1];
  }

  lemma EscapeTurn(t: seq<Octet>, i: nat, out: seq<Octet>)
    requires i < |t| && t[i] == BACKSLASH
    ensures Chars(t, i, out)
            == var e := Escape1(t, i + 1); if e.Fail? then Fail else Chars(t, e.next, out + e.value)
  {
    hide Escape1;
  }

  lemma LetterTurn(t: seq<Octet>, i: nat, letter: Octet)
    requires IsLetter(letter) && i < |t| && t[i] == letter
    ensures Escape1(t, i) == Ok([LetterValue(letter)], i + 1)
  {
    hide CodePoint, Utf8;
  }

  lemma CodeTurn(t: seq<Octet>, i: nat)
    requires i < |t| && t[i] == 117 && CodePoint(t, i + 1).Ok?
    ensures Escape1(t, i) == Ok(Utf8(CodePoint(t, i + 1).value), CodePoint(t, i + 1).next)
  {
    hide CodePoint, Utf8;
  }

  lemma PlainTurn(t: seq<Octet>, i: nat, c: Octet, out: seq<Octet>)
    requires Proper(Plain(c)) && i < |t| && t[i] == c
    ensures Chars(t, i, out) == Chars(t, i + 1, out + [c])
  {
    hide Escape1;
  }

  lemma UnitIsRead(t: seq<Octet>, i: nat, u: Unit, out: seq<Octet>)
    requires Proper(u) && HasAt(t, i, UnitText(u))
    ensures i + |UnitText(u)| <= |t| && Chars(t, i, out) == Chars(t, i + |UnitText(u)|, out + UnitValue(u))
  {
    hide Chars, Escape1, CodePoint, Utf8, HexText, Char, HasAt;
    HasAtFits(t, i, UnitText(u));
    match u
    case Plain(c) =>
      HasByte(t, i, c);
      PlainTurn(t, i, c, out);
    case Short(letter) =>
      assert UnitText(u) == [0x5C] + [letter];
      HasParts(t, i, [0x5C], [letter]);
      HasByte(t, i, 0x5C);
      HasByte(t, i + 1, letter);
      EscapeTurn(t, i, out);
      LetterTurn(t, i + 1, letter);
    case Coded(cp, upper) =>
      hide UnitText;
      CodePointIsRead(t, i, cp, upper);
      Utf8IsChar(cp);
      EscapeTurn(t, i, out);
      CodeTurn(t, i + 1);
  }

  // ─── Strings ───────────────────────────────────────────────────────────────

  predicate AllProper(us: seq<Unit>) { forall i :: 0 <= i < |us| ==> Proper(us[i]) }

  function Texts(us: seq<Unit>): seq<Octet>
    requires AllProper(us)
  {
    if us == [] then [] else UnitText(us[0]) + Texts(us[1..])
  }

  function Values(us: seq<Unit>): seq<Octet>
    requires AllProper(us)
  {
    if us == [] then [] else UnitValue(us[0]) + Values(us[1..])
  }

  lemma {:induction false} UnitsAreRead(t: seq<Octet>, i: nat, us: seq<Unit>, out: seq<Octet>)
    requires AllProper(us) && HasAt(t, i, Texts(us))
    ensures i + |Texts(us)| <= |t| && Chars(t, i, out) == Chars(t, i + |Texts(us)|, out + Values(us))
    decreases |us|
  {
    hide *;
    HasAtFits(t, i, Texts(us));
    FirstUnit(us);
    if us == [] {
      assert out + [] == out;
    } else {
      var w := UnitText(us[0]);
      HasParts(t, i, w, Texts(us[1..]));
      UnitIsRead(t, i, us[0], out);
      UnitsAreRead(t, i + |w|, us[1..], out + UnitValue(us[0]));
      assert out + UnitValue(us[0]) + Values(us[1..]) == out + Values(us);
    }
  }

  lemma FirstUnit(us: seq<Unit>)
    requires AllProper(us)
    ensures us == [] ==> Texts(us) == [] && Values(us) == []
    ensures us != [] ==>
              && Proper(us[0]) && AllProper(us[1..]) && Texts(us) == UnitText(us[0]) + Texts(us[1..])
              && Values(us) == UnitValue(us[0]) + Values(us[1..])
  {
    hide UnitText, UnitValue, Proper;
  }

  /** A text that starts with a quotation mark. */
  lemma StringDocument(t: seq<Octet>, fl: Floats)
    requires t != [] && t[0] == 0x22
    ensures var r := Chars(t, 1, []);
            ParseDocument(t, fl)
            == if r.Ok? && SkipSpaces(t, r.next) == |t| then Accepted(JStr(r.value)) else Rejected
  {
    hide Chars, ParseValue, ParseDocument;
    assert SkipSpaces(t, 0) == 0;
    DocumentOf(t, fl);
    StringDispatch(t, 0, 0, fl);
  }

  /** A string stands for what its pieces stand for. */
  lemma StringIsMeant(us: seq<Unit>, fl: Floats)
    requires AllProper(us)
    ensures ParseDocument([0x22] + Texts(us) + [0x22], fl) == Accepted(JStr(Values(us)))
  {
    hide *;
    var w := Texts(us);
    var t := [0x22] + w + [0x22];
    assert t == [0x22] + (w + [0x22]) && t[0] == 0x22;
    SpreadIsAt([0x22], w + [0x22]);
    HasParts(t, 1, w, [0x22]);
    HasByte(t, 1 + |w|, 0x22);
    StringDocument(t, fl);
    UnitsAreRead(t, 1, us, []);
    assert [] + Values(us) == Values(us);
    QuoteIs();
    CharsEnd(t, 1 + |w|, Values(us));
    NothingBehind(t);
  }

  lemma QuoteIs()
    ensures QUOTE == 0x22 && BACKSLASH == 0x5C
  {
  }

  lemma NothingBehind(t: seq<Octet>)
    ensures SkipSpaces(t, |t|) == |t|
  {
  }

  // ─── Texts that are no strings ─────────────────────────────────────────────

  /** A string stops, or goes on with a control character, with a letter that no backslash has, with
    digits that are not hexadecimal, with a low surrogate alone, or with a high one that no low one
    follows. */
  datatype Flaw =
    | Stops
    | Control(c: Octet)
    | NoLetter(c: Octet)
    | NoDigits(digits: seq<Octet>)
    | LowAlone(n: bv32, upper: seq<bool>)
    | HighAlone(n: bv32, upper: seq<bool>, c: Octet, d: Octet)
    | TwoHigh(n: bv32, upper: seq<bool>, m: bv32, upper2: seq<bool>)

  predicate IsHexByte(c: Octet) { 0x30 <= c <= 0x39 || 0x41 <= c <= 0x46 || 0x61 <= c <= 0x66 }

  predicate Flawed(f: Flaw) {
    match f
    case Stops => true
    case Control(c) => c < 0x20
    case NoLetter(c) => c != 0x75 && !IsLetter(c)
    case NoDigits(digits) => |digits| == 4 && exists k :: 0 <= k < 4 && !IsHexByte(digits[k])
    case LowAlone(n, upper) => |upper| == 4 && 0xDC00 <= n <= 0xDFFF
    case HighAlone(n, upper, c, d) => |upper| == 4 && 0xD800 <= n <= 0xDBFF && !(c == 0x5C && d == 0x75)
    case TwoHigh(n, upper, m, upper2) =>
      |upper| == 4 && |upper2| == 4 && 0xD800 <= n <= 0xDBFF && m < 0x10000 && (m < 0xDC00 || m > 0xDFFF)
  }

  function FlawText(f: Flaw): seq<Octet>
    requires Flawed(f)
  {
    match f
    case Stops => []
    case Control(c) => [c]
    case NoLetter(c) => [0x5C, c]
    case NoDigits(digits) => [0x5C, 0x75] + digits
    case LowAlone(n, upper) => [0x5C, 0x75] + HexText(n, upper)
    case HighAlone(n, upper, c, d) => [0x5C, 0x75] + (HexText(n, upper) + [c, d])
    case TwoHigh(n, upper, m, upper2) =>
      [0x5C, 0x75] + (HexText(n, upper) + ([0x5C, 0x75] + HexText(m, upper2)))
  }

  lemma NoCode(t: seq<Octet>, i: nat, out: seq<Octet>)
    requires i + 2 <= |t| && t[i] == BACKSLASH && t[i + 1] == 117 && CodePoint(t, i + 2).Fail?
    ensures Chars(t, i, out) == Fail
  {
    hide CodePoint;
  }

  lemma NotALetter(t: seq<Octet>, i: nat, c: Octet, out: seq<Octet>)
    requires Flawed(NoLetter(c)) && i + 2 <= |t| && t[i] == BACKSLASH && t[i + 1] == c
    ensures Chars(t, i, out) == Fail
  {
    hide CodePoint;
  }

  lemma NotHexDigits(t: seq<Octet>, i: nat, digits: seq<Octet>)
    requires Flawed(NoDigits(digits)) && HasAt(t, i, digits)
    ensures CodePoint(t, i) == Fail
  {
    var k :| 0 <= k < 4 && !IsHexByte(digits[k]);
    assert t[i..i + 4][k] == t[i + k] && HexValue(t[i + k]) == NotHex;
  }

  lemma LowIsNoChar(t: seq<Octet>, i: nat, n: bv32, upper: seq<bool>)
    requires Flawed(LowAlone(n, upper)) && HasAt(t, i, HexText(n, upper))
    ensures CodePoint(t, i) == Fail
  {
    hide HexText, Hex4, HasAt;
    CodeIsRead(t, i, n, upper);
  }

  lemma HighIsNoChar(t: seq<Octet>, i: nat, n: bv32, upper: seq<bool>, c: Octet, d: Octet)
    requires Flawed(HighAlone(n, upper, c, d)) && HasAt(t, i, HexText(n, upper) + [c, d])
    ensures CodePoint(t, i) == Fail
  {
    hide HexText, Hex4, HasAt;
    FourLong(n, upper);
    HasParts(t, i, HexText(n, upper), [c, d]);
    CodeIsRead(t, i, n, upper);
    PairOfBytes(t, i + 4, c, d);
  }

  lemma PairOfBytes(t: seq<Octet>, i: nat, c: Octet, d: Octet)
    requires HasAt(t, i, [c, d])
    ensures i + 2 <= |t| && t[i] == c && t[i + 1] == d
  {
    assert t[i..i + 2][0] == t[i] && t[i..i + 2][1] == t[i + 1];
  }

  lemma TwoHighFail(t: seq<Octet>, i: nat, n: bv32, m: bv32)
    requires 0xD800 <= n <= 0xDBFF && (m < 0xDC00 || m > 0xDFFF)
    requires Hex4(t, i) == Ok(n, i + 4) && Hex4(t, i + 6) == Ok(m, i + 10)
    ensures CodePoint(t, i) == Fail
  {
    hide Hex4;
  }

  lemma SmallCode(n: bv32)
    requires n <= 0xDFFF
    ensures n < 0x10000
  {
  }

  lemma FlawIsFound(t: seq<Octet>, i: nat, f: Flaw, out: seq<Octet>)
    requires Flawed(f) && HasAt(t, i, FlawText(f)) && (f.Stops? ==> i == |t|)
    ensures Chars(t, i, out) == Fail
  {
    hide HexText, Hex4, HasAt, CodePoint, IsHexByte, IsLetter;
    match f
    case Stops =>
    case Control(c) => HasByte(t, i, c);
    case NoLetter(c) =>
      PairOfBytes(t, i, 0x5C, c);
      NotALetter(t, i, c, out);
    case NoDigits(digits) =>
      HasParts(t, i, [0x5C, 0x75], digits);
      PairOfBytes(t, i, 0x5C, 0x75);
      NotHexDigits(t, i + 2, digits);
      NoCode(t, i, out);
    case LowAlone(n, upper) =>
      HasParts(t, i, [0x5C, 0x75], HexText(n, upper));
      PairOfBytes(t, i, 0x5C, 0x75);
      LowIsNoChar(t, i + 2, n, upper);
      NoCode(t, i, out);
    case HighAlone(n, upper, c, d) =>
      HasParts(t, i, [0x5C, 0x75], HexText(n, upper) + [c, d]);
      PairOfBytes(t, i, 0x5C, 0x75);
      HighIsNoChar(t, i + 2, n, upper, c, d);
      NoCode(t, i, out);
    case TwoHigh(n, upper, m, upper2) =>
      SmallCode(n);
      TwoCodes(t, i, n, m, upper, upper2);
      TwoHighFail(t, i + 2, n, m);
      NoCode(t, i, out);
  }

  /** A string with a flaw is no document, whatever comes behind the flaw. */
  lemma FlawIsRejected(us: seq<Unit>, f: Flaw, rest: seq<Octet>, fl: Floats)
    requires AllProper(us) && Flawed(f) && (f.Stops? ==> rest == [])
    ensures ParseDocument([0x22] + Texts(us) + FlawText(f) + rest, fl) == Rejected
  {
    hide *;
    StopsIsEmpty(f);
    var w, flaw := Texts(us), FlawText(f);
    var t := [0x22] + (w + (flaw + rest));
    FourInOrder([0x22], w, flaw, rest);
    SpreadIsAt([0x22], w + (flaw + rest));
    HasParts(t, 1, w, flaw + rest);
    HasParts(t, 1 + |w|, flaw, rest);
    FlawAt(t, us, f, fl);
  }

  lemma FourInOrder(a: seq<Octet>, b: seq<Octet>, c: seq<Octet>, d: seq<Octet>)
    ensures a + b + c + d == a + (b + (c + d)) && |a + b + c + d| == |a| + |b| + |c| + |d|
    ensures a != [] ==> (a + b + c + d)[0] == a[0]
  {
  }

  lemma FlawAt(t: seq<Octet>, us: seq<Unit>, f: Flaw, fl: Floats)
    requires AllProper(us) && Flawed(f) && t != [] && t[0] == 0x22 && HasAt(t, 1, Texts(us))
    requires HasAt(t, 1 + |Texts(us)|, FlawText(f)) && (f.Stops? ==> |t| == 1 + |Texts(us)|)
    ensures ParseDocument(t, fl) == Rejected
  {
    hide *;
    StringDocument(t, fl);
    UnitsAreRead(t, 1, us, []);
    FlawIsFound(t, 1 + |Texts(us)|, f, [] + Values(us));
  }

  lemma StopsIsEmpty(f: Flaw)
    requires Flawed(f)
    ensures f.Stops? ==> FlawText(f) == []
  {
  }

  // ─── The strings that are written ──────────────────────────────────────────

  /** How a byte is written. */
  function UnitOf(c: Octet): Unit {
    if c == 0x22 then Short(0x22)
    else if c == 0x5C then Short(0x5C)
    else if c == 0x08 then Short(0x62)
    else if c == 0x09 then Short(0x74)
    else if c == 0x0A then Short(0x6E)
    else if c == 0x0C then Short(0x66)
    else if c == 0x0D then Short(0x72)
    else if c < 0x20 then Coded(c as bv32, seq(8, _ => false))
    else Plain(c)
  }

  lemma ByteIsUnit(c: Octet)
    ensures Proper(UnitOf(c)) && EscapeByte(c) == UnitText(UnitOf(c)) && UnitValue(UnitOf(c)) == [c]
  {
    hide HexText, Char;
    if c < 0x20 && c != 0x08 && c != 0x09 && c != 0x0A && c != 0x0C && c != 0x0D {
      ControlDigits(c);
      assert seq(8, _ => false)[..4] == [false, false, false, false];
    }
  }

  lemma ControlDigits(c: Octet)
    requires c < 0x20
    ensures HexText(c as bv32, [false, false, false, false]) == [48, 48, HexDigit(c >> 4), HexDigit(c & 0xF)]
    ensures Char(c as bv32) == [c]
  {
  }

  function UnitsOf(s: seq<Octet>): seq<Unit> {
    if s == [] then [] else [UnitOf(s[0])] + UnitsOf(s[1..])
  }

  /** What is written between the quotation marks are pieces that stand for the bytes. */
  lemma {:induction false} EscapedIsMeant(s: seq<Octet>)
    ensures AllProper(UnitsOf(s)) && EscapedBytes(s) == Texts(UnitsOf(s)) && Values(UnitsOf(s)) == s
    decreases |s|
  {
    hide UnitOf, UnitText, UnitValue, EscapeByte, Proper;
    if s != [] {
      ByteIsUnit(s[0]);
      EscapedIsMeant(s[1..]);
      assert UnitsOf(s)[1..] == UnitsOf(s[1..]);
    }
  }

  // ─── Numbers ───────────────────────────────────────────────────────────────

  datatype Exponent = NoExponent | Exponent(capital: bool, sign: Sign, digits: seq<Octet>)

  datatype Sign = NoSign | PlusSign | MinusSign

  datatype Numeral = Numeral(negative: bool, whole: seq<Octet>, fraction: seq<Octet>, exponent: Exponent)

  predicate Decimals(ds: seq<Octet>) { forall i :: 0 <= i < |ds| ==> 0x30 <= ds[i] <= 0x39 }

  /** No number but zero itself starts with a zero. */
  predicate ProperNumeral(n: Numeral) {
    && Decimals(n.whole) && n.whole != [] && (|n.whole| > 1 ==> n.whole[0] != 0x30) && Decimals(n.fraction)
    && (n.exponent.Exponent? ==> Decimals(n.exponent.digits) && n.exponent.digits != [])
  }

  function SignText(negative: bool): seq<Octet> { if negative then [0x2D] else [] }

  function FractionText(fraction: seq<Octet>): seq<Octet> { if fraction == [] then [] else [0x2E] + fraction }

  function ExponentSign(sign: Sign): seq<Octet> {
    match sign
    case NoSign => []
    case PlusSign => [0x2B]
    case MinusSign => [0x2D]
  }

  function ExponentText(e: Exponent): seq<Octet> {
    match e
    case NoExponent => []
    case Exponent(capital, sign, digits) => [if capital then 0x45 else 0x65] + (ExponentSign(sign) + digits)
  }

  function NumeralText(n: Numeral): seq<Octet> {
    SignText(n.negative) + (n.whole + (FractionText(n.fraction) + ExponentText(n.exponent)))
  }

  function Worth(c: Octet): nat {
    if c == 0x31 then 1
    else if c == 0x32 then 2
    else if c == 0x33 then 3
    else if c == 0x34 then 4
    else if c == 0x35 then 5
    else if c == 0x36 then 6
    else if c == 0x37 then 7
    else if c == 0x38 then 8
    else if c == 0x39 then 9
    else 0
  }

  /** The number that the digits so far and those in `ds` make. */
  function Number(soFar: nat, ds: seq<Octet>): nat
    decreases |ds|
  {
    if ds == [] then soFar else Number(10 * soFar + Worth(ds[0]), ds[1..])
  }

  lemma WorthIs(c: Octet)
    requires 0x30 <= c <= 0x39
    ensures DigitValue(c) == Worth(c)
  {
    assert 0x30 as Octet as int == 48 && 0x31 as Octet as int == 49 && 0x32 as Octet as int == 50;
    assert 0x33 as Octet as int == 51 && 0x34 as Octet as int == 52 && 0x35 as Octet as int == 53;
    assert 0x36 as Octet as int == 54 && 0x37 as Octet as int == 55;
    assert 0x38 as Octet as int == 56 && 0x39 as Octet as int == 57;
  }

  lemma {:induction false} NumberIs(a: seq<Octet>, ds: seq<Octet>)
    requires Decimals(ds) && NumberOf(a) >= 0
    ensures NumberOf(a + ds) == Number(NumberOf(a), ds)
    decreases |ds|
  {
    hide DigitValue, Worth;
    if ds == [] {
      assert a + ds == a;
    } else {
      WorthIs(ds[0]);
      assert (a + [ds[0]])[..|a|] == a;
      NumberIs(a + [ds[0]], ds[1..]);
      assert a + [ds[0]] + ds[1..] == a + ds;
    }
  }

  lemma NumberOfDigits(ds: seq<Octet>)
    requires Decimals(ds)
    ensures NumberOf(ds) == Number(0, ds)
  {
    NumberIs([], ds);
    assert [] + ds == ds;
  }

  /** Behind digits comes none. */
  predicate NoDigitAt(t: seq<Octet>, i: nat) { i < |t| ==> !(0x30 <= t[i] <= 0x39) }

  lemma DecimalsEnd(t: seq<Octet>, i: nat, ds: seq<Octet>)
    requires Decimals(ds) && HasAt(t, i, ds) && NoDigitAt(t, i + |ds|)
    ensures i + |ds| <= |t| && SkipDigits(t, i) == i + |ds|
  {
    assert t[i..i + |ds|] == ds;
    DigitsAreSkipped(t, i, i + |ds|);
  }

  lemma SignEnd(t: seq<Octet>, i: nat, negative: bool, rest: seq<Octet>)
    requires HasAt(t, i, SignText(negative) + rest) && rest != [] && rest[0] != 0x2D
    ensures var j := if i < |t| && t[i] == MINUS then i + 1 else i;
            j == i + |SignText(negative)| < |t| && t[j] == rest[0] && HasAt(t, j, rest)
  {
    HasParts(t, i, SignText(negative), rest);
    HasStart(t, i + |SignText(negative)|, rest);
    if negative {
      HasByte(t, i, 0x2D);
    }
  }

  lemma WholeEnd(t: seq<Octet>, i: nat, negative: bool, whole: seq<Octet>, rest: seq<Octet>)
    requires Decimals(whole) && whole != [] && HasAt(t, i, SignText(negative) + (whole + rest))
    requires (|whole| > 1 ==> whole[0] != 0x30) && (whole == [0x30] || NoDigitAt(t, i + |SignText(negative)| + |whole|))
    ensures IntegerEnd(t, i) == Ok((), i + |SignText(negative)| + |whole|)
  {
    hide SkipDigits;
    SignEnd(t, i, negative, whole + rest);
    var j := i + |SignText(negative)|;
    HasParts(t, j, whole, rest);
    if whole[0] != 0x30 {
      DecimalsEnd(t, j, whole);
    }
  }

  lemma FractionIs(t: seq<Octet>, i: nat, fraction: seq<Octet>)
    requires Decimals(fraction) && HasAt(t, i, FractionText(fraction))
    requires var e := i + |FractionText(fraction)|; NoDigitAt(t, e) && (e < |t| ==> t[e] != 0x2E)
    ensures i <= |t| && FractionEnd(t, i) == Ok(fraction != [], i + |FractionText(fraction)|)
  {
    HasAtFits(t, i, FractionText(fraction));
    hide SkipDigits, HasAt, FractionEnd, IsDigit;
    if fraction == [] {
      FractionTurn(t, i);
    } else {
      HasParts(t, i, [0x2E], fraction);
      HasByte(t, i, 0x2E);
      HasStart(t, i + 1, fraction);
      DecimalsEnd(t, i + 1, fraction);
      DigitIs(fraction[0]);
      FractionTurn(t, i);
    }
  }

  lemma FractionTurn(t: seq<Octet>, i: nat)
    requires i <= |t|
    ensures FractionEnd(t, i)
            == if i >= |t| || t[i] != 0x2E then Ok(false, i)
               else if i + 1 >= |t| || !IsDigit(t[i + 1]) then Fail
               else Ok(true, SkipDigits(t, i + 1))
  {
    hide SkipDigits, IsDigit;
  }

  lemma DigitIs(c: Octet)
    requires 0x30 <= c <= 0x39
    ensures IsDigit(c)
  {
  }

  /** Where the digits of an exponent start. */
  lemma ExponentDigits(t: seq<Octet>, i: nat, capital: bool, sign: Sign, digits: seq<Octet>)
    requires HasAt(t, i, [if capital then 0x45 else 0x65] + (ExponentSign(sign) + digits))
    ensures var j := i + 1 + |ExponentSign(sign)|;
            && i < |t| && (t[i] == 101 || t[i] == 69) && HasAt(t, j, digits) && j <= |t|
            && (sign == NoSign <==> j == i + 1)
            && (sign != NoSign ==> i + 1 < |t| && (t[i + 1] == 43 || t[i + 1] == 45) && j == i + 2)
  {
    hide HasAt;
    var letter: Octet := if capital then 0x45 else 0x65;
    HasParts(t, i, [letter], ExponentSign(sign) + digits);
    HasByte(t, i, letter);
    HasParts(t, i + 1, ExponentSign(sign), digits);
    HasAtFits(t, i + 1 + |ExponentSign(sign)|, digits);
    if sign != NoSign {
      HasByte(t, i + 1, ExponentSign(sign)[0]);
    }
  }

  lemma ExponentTurn(t: seq<Octet>, i: nat, signed: bool)
    requires i < |t| && (t[i] == 101 || t[i] == 69)
    requires signed <==> i + 1 < |t| && (t[i + 1] == 43 || t[i + 1] == 45)
    ensures var j := if signed then i + 2 else i + 1;
            ExponentEnd(t, i) == if j >= |t| || !IsDigit(t[j]) then Fail else Ok(true, SkipDigits(t, j))
  {
    hide SkipDigits, IsDigit;
  }

  lemma ExponentIs(t: seq<Octet>, i: nat, e: Exponent)
    requires HasAt(t, i, ExponentText(e)) && Ends(t, i + |ExponentText(e)|)
    requires e.Exponent? ==> Decimals(e.digits) && e.digits != []
    ensures i <= |t| && ExponentEnd(t, i) == Ok(e.Exponent?, i + |ExponentText(e)|)
  {
    HasAtFits(t, i, ExponentText(e));
    hide SkipDigits, HasAt, ExponentSign;
    if e.Exponent? {
      hide ExponentEnd;
      ExponentDigits(t, i, e.capital, e.sign, e.digits);
      var j := i + 1 + |ExponentSign(e.sign)|;
      HasStart(t, j, e.digits);
      DecimalsEnd(t, j, e.digits);
      ExponentTurn(t, i, e.sign != NoSign);
    }
  }

  /** How a text with these parts is read. */
  lemma NumberTurn(t: seq<Octet>, i: nat, a: nat, fraction: bool, b: nat, exponent: bool, c: nat, fl: Floats)
    requires i < a <= b <= c <= |t|
    requires IntegerEnd(t, i) == Ok((), a) && FractionEnd(t, a) == Ok(fraction, b)
    requires ExponentEnd(t, b) == Ok(exponent, c)
    ensures var n := IntegerOf(t[i..c]);
            ParseNumber(t, i, fl)
            == if !fraction && !exponent && -0x8000_0000_0000_0000 <= n <= 0x7FFF_FFFF_FFFF_FFFF then Ok(JInt(n), c)
               else if fl.read(t[i..c]).IsReal? then Ok(JReal(fl.read(t[i..c]).bits), c)
               else Fail
  {
    hide IntegerEnd, FractionEnd, ExponentEnd, IntegerOf;
  }

  predicate IsInteger(n: Numeral) {
    && n.fraction == [] && n.exponent.NoExponent?
    && (if n.negative then Number(0, n.whole) <= 0x8000_0000_0000_0000 else Number(0, n.whole) < 0x8000_0000_0000_0000)
  }

  function IntegerValue(n: Numeral): int {
    var m: int := Number(0, n.whole);
    if n.negative then -m else m
  }

  lemma IntegerText(n: Numeral)
    requires ProperNumeral(n) && n.fraction == [] && n.exponent.NoExponent?
    ensures IntegerOf(NumeralText(n)) == IntegerValue(n)
  {
    hide Number, NumberOf;
    NumberOfDigits(n.whole);
    assert n.whole + ([] + []) == n.whole;
    if n.negative {
      assert NumeralText(n)[1..] == n.whole;
    } else {
      assert NumeralText(n) == n.whole && n.whole[0] != MINUS;
    }
  }

  lemma PartsEnd(n: Numeral)
    requires ProperNumeral(n)
    ensures var f, e := FractionText(n.fraction), ExponentText(n.exponent);
            && (f != [] ==> f[0] == 0x2E) && (e != [] ==> e[0] == 0x65 || e[0] == 0x45)
            && |NumeralText(n)| == |SignText(n.negative)| + |n.whole| + |f| + |e|
  {
  }

  /** Where the fraction, the exponent and the end are. */
  function WholeAt(i: nat, n: Numeral): nat { i + |SignText(n.negative)| + |n.whole| }

  function FractionAt(i: nat, n: Numeral): nat { WholeAt(i, n) + |FractionText(n.fraction)| }

  function ExponentAt(i: nat, n: Numeral): nat { FractionAt(i, n) + |ExponentText(n.exponent)| }

  predicate IsNumeralAt(t: seq<Octet>, i: nat, n: Numeral) {
    HasAt(t, i, NumeralText(n)) && Ends(t, i + |NumeralText(n)|)
  }

  lemma PartsAt(t: seq<Octet>, i: nat, n: Numeral)
    requires IsNumeralAt(t, i, n)
    ensures var f, e := FractionText(n.fraction), ExponentText(n.exponent);
            && HasAt(t, i, SignText(n.negative) + (n.whole + (f + e))) && HasAt(t, WholeAt(i, n), f + e)
            && HasAt(t, WholeAt(i, n), f) && HasAt(t, FractionAt(i, n), e) && Ends(t, ExponentAt(i, n))
            && ExponentAt(i, n) == i + |NumeralText(n)| <= |t|
  {
    hide HasAt, Ends, SignText, FractionText, ExponentText;
    var s, f, e := SignText(n.negative), FractionText(n.fraction), ExponentText(n.exponent);
    HasAtFits(t, i, NumeralText(n));
    HasParts(t, i, s, n.whole + (f + e));
    HasParts(t, i + |s|, n.whole, f + e);
    HasParts(t, WholeAt(i, n), f, e);
  }

  lemma PartsGoOn(t: seq<Octet>, i: nat, n: Numeral)
    requires ProperNumeral(n) && IsNumeralAt(t, i, n)
    ensures NoDigitAt(t, WholeAt(i, n))
    ensures var b := FractionAt(i, n); NoDigitAt(t, b) && (b < |t| ==> t[b] != 0x2E)
  {
    hide HasAt, Ends, IsNumeralAt, ProperNumeral, FractionText, ExponentText, NoDigitAt, NumeralText;
    PartsAt(t, i, n);
    PartsEnd(n);
    var f, e := FractionText(n.fraction), ExponentText(n.exponent);
    NothingGoesOn(t, FractionAt(i, n), e);
    NothingGoesOn(t, WholeAt(i, n), f + e);
  }

  lemma WholeAtIs(i: nat, n: Numeral)
    ensures WholeAt(i, n) == i + |SignText(n.negative)| + |n.whole|
  {
  }

  lemma FractionAtIs(i: nat, n: Numeral)
    ensures FractionAt(i, n) == WholeAt(i, n) + |FractionText(n.fraction)|
  {
  }

  lemma ExponentAtIs(i: nat, n: Numeral)
    ensures ExponentAt(i, n) == FractionAt(i, n) + |ExponentText(n.exponent)|
  {
  }

  lemma WholePart(t: seq<Octet>, i: nat, n: Numeral)
    requires ProperNumeral(n) && IsNumeralAt(t, i, n)
    ensures IntegerEnd(t, i) == Ok((), WholeAt(i, n)) && i < WholeAt(i, n)
  {
    hide *;
    ProperParts(n);
    PartsAt(t, i, n);
    PartsGoOn(t, i, n);
    WholeAtIs(i, n);
    WholeEnd(t, i, n.negative, n.whole, FractionText(n.fraction) + ExponentText(n.exponent));
  }

  lemma FractionPart(t: seq<Octet>, i: nat, n: Numeral)
    requires ProperNumeral(n) && IsNumeralAt(t, i, n)
    ensures WholeAt(i, n) <= |t| && FractionEnd(t, WholeAt(i, n)) == Ok(n.fraction != [], FractionAt(i, n))
  {
    hide *;
    ProperParts(n);
    PartsAt(t, i, n);
    PartsGoOn(t, i, n);
    FractionAtIs(i, n);
    FractionIs(t, WholeAt(i, n), n.fraction);
  }

  lemma ExponentPart(t: seq<Octet>, i: nat, n: Numeral)
    requires ProperNumeral(n) && IsNumeralAt(t, i, n)
    ensures FractionAt(i, n) <= |t|
            && ExponentEnd(t, FractionAt(i, n)) == Ok(n.exponent.Exponent?, ExponentAt(i, n))
  {
    hide *;
    ProperParts(n);
    PartsAt(t, i, n);
    ExponentAtIs(i, n);
    ExponentIs(t, FractionAt(i, n), n.exponent);
  }

  lemma ProperParts(n: Numeral)
    requires ProperNumeral(n)
    ensures Decimals(n.whole) && n.whole != [] && (|n.whole| > 1 ==> n.whole[0] != 0x30) && Decimals(n.fraction)
    ensures n.exponent.Exponent? ==> Decimals(n.exponent.digits) && n.exponent.digits != []
    ensures NumeralText(n)
            == SignText(n.negative) + (n.whole + (FractionText(n.fraction) + ExponentText(n.exponent)))
  {
    hide Decimals, SignText, FractionText, ExponentText;
  }

  lemma NothingGoesOn(t: seq<Octet>, i: nat, w: seq<Octet>)
    requires HasAt(t, i, w) && Ends(t, i + |w|) && (w != [] ==> w[0] == 0x2E || w[0] == 0x65 || w[0] == 0x45)
    ensures NoDigitAt(t, i) && (i < |t| && t[i] == 0x2E ==> w != [] && w[0] == 0x2E)
  {
    if w != [] {
      HasStart(t, i, w);
    }
  }

  /** Digits alone are the integer they make, when it has 64 bits; any other number is the floating point
    number that the host makes of the text. */
  lemma NumberIsMeant(t: seq<Octet>, i: nat, n: Numeral, fl: Floats)
    requires ProperNumeral(n) && IsNumeralAt(t, i, n)
    ensures var c := i + |NumeralText(n)|;
            ParseNumber(t, i, fl)
            == if IsInteger(n) then Ok(JInt(IntegerValue(n)), c)
               else if fl.read(NumeralText(n)).IsReal? then Ok(JReal(fl.read(NumeralText(n)).bits), c)
               else Fail
  {
    hide *;
    IntegerFits(n);
    PartsAt(t, i, n);
    WholePart(t, i, n);
    FractionPart(t, i, n);
    ExponentPart(t, i, n);
    NumeralCut(t, i, n);
    PlacesRise(i, n);
    NumberTurn(t, i, WholeAt(i, n), n.fraction != [], FractionAt(i, n), n.exponent.Exponent?, ExponentAt(i, n), fl);
  }

  lemma NumeralCut(t: seq<Octet>, i: nat, n: Numeral)
    requires IsNumeralAt(t, i, n)
    ensures i + |NumeralText(n)| <= |t| && t[i..i + |NumeralText(n)|] == NumeralText(n)
  {
    hide NumeralText;
  }

  lemma PlacesRise(i: nat, n: Numeral)
    ensures WholeAt(i, n) <= FractionAt(i, n) <= ExponentAt(i, n)
  {
    hide FractionText, ExponentText, SignText;
  }

  lemma IntegerFits(n: Numeral)
    requires ProperNumeral(n)
    ensures IsInteger(n)
            <==> n.fraction == [] && n.exponent.NoExponent?
                 && -0x8000_0000_0000_0000 <= IntegerOf(NumeralText(n)) <= 0x7FFF_FFFF_FFFF_FFFF
    ensures IsInteger(n) ==> IntegerOf(NumeralText(n)) == IntegerValue(n)
  {
    hide NumeralText, Number, ProperNumeral, IntegerOf;
    if n.fraction == [] && n.exponent.NoExponent? {
      IntegerText(n);
    }
  }

  lemma NumeralStart(n: Numeral)
    requires ProperNumeral(n)
    ensures NumeralText(n) != [] && (NumeralText(n)[0] == 0x2D || 0x30 <= NumeralText(n)[0] <= 0x39)
  {
    hide FractionText, ExponentText;
  }

  /** A text that starts with a digit or a minus sign. */
  lemma NumberDocument(t: seq<Octet>, fl: Floats)
    requires t != [] && (t[0] == 0x2D || 0x30 <= t[0] <= 0x39)
    ensures var r := ParseNumber(t, 0, fl);
            ParseDocument(t, fl)
            == if r.Ok? && SkipSpaces(t, r.next) == |t| then Accepted(r.value) else Rejected
  {
    hide ParseNumber, ParseValue, ParseDocument;
    assert SkipSpaces(t, 0) == 0;
    DocumentOf(t, fl);
    NumberDispatch(t, 0, 0, fl);
  }

  lemma NumeralIsMeant(n: Numeral, fl: Floats)
    requires ProperNumeral(n)
    ensures ParseDocument(NumeralText(n), fl)
            == if IsInteger(n) then Accepted(JInt(IntegerValue(n)))
               else if fl.read(NumeralText(n)).IsReal? then Accepted(JReal(fl.read(NumeralText(n)).bits))
               else Rejected
  {
    hide *;
    var t := NumeralText(n);
    NumeralStart(n);
    NumberDocument(t, fl);
    AllOfIt(n);
    NumberIsMeant(t, 0, n, fl);
    NothingBehind(t);
  }

  lemma AllOfIt(n: Numeral)
    ensures IsNumeralAt(NumeralText(n), 0, n)
  {
    hide NumeralText;
    assert NumeralText(n)[0..|NumeralText(n)|] == NumeralText(n);
  }

  // ─── Texts that are no numbers ─────────────────────────────────────────────

  predicate StartsWithDigit(rest: seq<Octet>) { rest != [] && 0x30 <= rest[0] <= 0x39 }

  predicate WholeNumber(whole: seq<Octet>) { Decimals(whole) && whole != [] && (|whole| > 1 ==> whole[0] != 0x30) }

  lemma NumberRejected(t: seq<Octet>, fl: Floats)
    requires t != [] && (t[0] == 0x2D || 0x30 <= t[0] <= 0x39) && ParseNumber(t, 0, fl).Fail?
    ensures ParseDocument(t, fl) == Rejected
  {
    hide ParseNumber, ParseDocument;
    NumberDocument(t, fl);
  }

  /** A minus sign needs a digit. */
  lemma SignAloneIsRejected(rest: seq<Octet>, fl: Floats)
    requires !StartsWithDigit(rest)
    ensures ParseDocument([0x2D] + rest, fl) == Rejected
  {
    var t := [0x2D] + rest;
    assert rest != [] ==> t[1] == rest[0];
    assert IntegerEnd(t, 0) == Fail;
    hide ParseDocument;
    NumberRejected(t, fl);
  }

  /** Behind a zero at the front comes no digit. */
  lemma LeadingZeroIsRejected(negative: bool, rest: seq<Octet>, fl: Floats)
    requires StartsWithDigit(rest)
    ensures ParseDocument(SignText(negative) + ([0x30] + rest), fl) == Rejected
  {
    hide ParseDocument, ParseNumber;
    var t := SignText(negative) + ([0x30] + rest);
    var j := |SignText(negative)|;
    assert t[j] == 0x30 && t[j + 1] == rest[0];
    NumberDocument(t, fl);
    ZeroAlone(t, negative, fl);
  }

  lemma ZeroAlone(t: seq<Octet>, negative: bool, fl: Floats)
    requires var j := |SignText(negative)|;
             j + 1 < |t| && t[j] == 0x30 && (negative ==> t[0] == 0x2D) && 0x30 <= t[j + 1] <= 0x39
    ensures var r := ParseNumber(t, 0, fl); r.Ok? ==> r.next < |t| && SkipSpaces(t, r.next) != |t|
  {
    var j := |SignText(negative)|;
    assert IntegerEnd(t, 0) == Ok((), j + 1);
    assert FractionEnd(t, j + 1) == Ok(false, j + 1) && ExponentEnd(t, j + 1) == Ok(false, j + 1);
    hide IntegerOf, IntegerEnd;
  }

  lemma WholeAlone(negative: bool, whole: seq<Octet>, rest: seq<Octet>)
    requires WholeNumber(whole) && !StartsWithDigit(rest)
    ensures var t := SignText(negative) + (whole + rest);
            var a := |SignText(negative)| + |whole|;
            && IntegerEnd(t, 0) == Ok((), a) && a <= |t| && HasAt(t, a, rest) && t[a..] == rest
            && |t| == a + |rest|
            && t != [] && (t[0] == 0x2D || 0x30 <= t[0] <= 0x39)
  {
    var t := SignText(negative) + (whole + rest);
    var a := |SignText(negative)| + |whole|;
    assert t[0..|t|] == t && t[a..] == rest && t[a..a + |rest|] == rest;
    assert rest != [] ==> t[a] == rest[0];
    WholeEnd(t, 0, negative, whole, rest);
  }

  /** A period needs a digit. */
  lemma PeriodAloneIsRejected(negative: bool, whole: seq<Octet>, rest: seq<Octet>, fl: Floats)
    requires WholeNumber(whole) && !StartsWithDigit(rest)
    ensures ParseDocument(SignText(negative) + (whole + ([0x2E] + rest)), fl) == Rejected
  {
    hide ParseDocument, IntegerEnd, SignText, WholeNumber;
    var t := SignText(negative) + (whole + ([0x2E] + rest));
    WholeAlone(negative, whole, [0x2E] + rest);
    var a := |SignText(negative)| + |whole|;
    assert t[a] == t[a..][0] == 0x2E;
    assert rest != [] ==> t[a + 1] == t[a..][1] == rest[0];
    assert FractionEnd(t, a) == Fail;
    hide FractionEnd;
    NumberRejected(t, fl);
  }

  /** An exponent needs a digit, behind its sign when it has one. */
  lemma ExponentAloneIsRejected(negative: bool, whole: seq<Octet>, fraction: seq<Octet>, capital: bool, sign: Sign,
                                rest: seq<Octet>, fl: Floats)
    requires WholeNumber(whole) && Decimals(fraction) && !StartsWithDigit(rest)
    requires sign == NoSign && rest != [] ==> rest[0] != 0x2B && rest[0] != 0x2D
    ensures ParseDocument(SignText(negative)
                          + (whole + (FractionText(fraction)
                                      + ([if capital then 0x45 else 0x65] + (ExponentSign(sign) + rest)))), fl)
            == Rejected
  {
    hide *;
    var e := [if capital then 0x45 else 0x65] + (ExponentSign(sign) + rest);
    var behind := FractionText(fraction) + e;
    FractionStart(fraction, e);
    var t := SignText(negative) + (whole + behind);
    WholeAlone(negative, whole, behind);
    ExponentStops(t, |SignText(negative)| + |whole|, fraction, capital, sign, rest, fl);
    NumberRejected(t, fl);
  }

  lemma ExponentStops(t: seq<Octet>, a: nat, fraction: seq<Octet>, capital: bool, sign: Sign, rest: seq<Octet>,
                      fl: Floats)
    requires a <= |t| && IntegerEnd(t, 0) == Ok((), a) && Decimals(fraction) && !StartsWithDigit(rest)
    requires sign == NoSign && rest != [] ==> rest[0] != 0x2B && rest[0] != 0x2D
    requires var e := [if capital then 0x45 else 0x65] + (ExponentSign(sign) + rest);
             HasAt(t, a, FractionText(fraction) + e) && |t| == a + |FractionText(fraction) + e|
    ensures ParseNumber(t, 0, fl) == Fail
  {
    hide *;
    var e := [if capital then 0x45 else 0x65] + (ExponentSign(sign) + rest);
    var b := a + |FractionText(fraction)|;
    HasParts(t, a, FractionText(fraction), e);
    ExponentDigits(t, b, capital, sign, rest);
    NoMoreFraction(t, b);
    FractionIs(t, a, fraction);
    AtTheEnd(t, b + 1 + |ExponentSign(sign)|, rest);
    ExponentFails(t, b, sign, rest);
    NumberStops(t, a, fraction != [], b, fl);
  }

  lemma NoMoreFraction(t: seq<Octet>, b: nat)
    requires b < |t| && (t[b] == 101 || t[b] == 69)
    ensures NoDigitAt(t, b) && t[b] != 0x2E
  {
  }

  lemma ExponentFails(t: seq<Octet>, b: nat, sign: Sign, rest: seq<Octet>)
    requires b < |t| && (t[b] == 101 || t[b] == 69) && !StartsWithDigit(rest)
    requires sign != NoSign ==> b + 1 < |t| && (t[b + 1] == 43 || t[b + 1] == 45)
    requires sign == NoSign && rest != [] ==> rest[0] != 0x2B && rest[0] != 0x2D
    requires var j := if sign == NoSign then b + 1 else b + 2;
             (rest != [] ==> j < |t| && t[j] == rest[0]) && (rest == [] ==> j == |t|)
    ensures ExponentEnd(t, b) == Fail
  {
    hide ExponentEnd;
    ExponentTurn(t, b, sign != NoSign);
  }

  lemma FractionStart(fraction: seq<Octet>, e: seq<Octet>)
    requires e != [] && (e[0] == 0x45 || e[0] == 0x65)
    ensures !StartsWithDigit(FractionText(fraction) + e)
  {
  }

  lemma AtTheEnd(t: seq<Octet>, j: nat, rest: seq<Octet>)
    requires HasAt(t, j, rest) && |t| == j + |rest|
    ensures (rest != [] ==> j < |t| && t[j] == rest[0]) && (rest == [] ==> j == |t|)
  {
    if rest != [] {
      HasStart(t, j, rest);
    }
  }

  lemma NumberStops(t: seq<Octet>, a: nat, fraction: bool, b: nat, fl: Floats)
    requires a <= b <= |t| && IntegerEnd(t, 0) == Ok((), a) && FractionEnd(t, a) == Ok(fraction, b)
    requires ExponentEnd(t, b).Fail?
    ensures ParseNumber(t, 0, fl) == Fail
  {
    hide IntegerEnd, FractionEnd, ExponentEnd;
  }

  // ─── Limits and keys ───────────────────────────────────────────────────────

  lemma {:induction false} TooDeep(t: seq<Octet>, i: nat, depth: nat, fl: Floats)
    requires depth <= 201 && i + (201 - depth) < |t|
    requires forall k :: i <= k <= i + (201 - depth) ==> t[k] == 0x5B
    ensures ParseValue(t, i, depth, fl) == Fail
    decreases 201 - depth
  {
    if depth <= 200 {
      TooDeep(t, i + 1, depth + 1, fl);
      assert t[i] == 0x5B && t[i + 1] == 0x5B;
      OneMoreList(t, i, depth, fl);
    }
  }

  lemma OneMoreList(t: seq<Octet>, i: nat, depth: nat, fl: Floats)
    requires depth <= 200 && i + 1 < |t| && t[i] == 0x5B && t[i + 1] == 0x5B
    requires ParseValue(t, i + 1, depth + 1, fl) == Fail
    ensures ParseValue(t, i, depth, fl) == Fail
  {
    assert SkipSpaces(t, i + 1) == i + 1;
    hide ParseValue, SkipSpaces;
    ListDispatch(t, i, depth, fl);
    ItemsOnce(t, i + 1, depth, [], fl);
  }

  /** 202 brackets are too many, whatever comes behind them. */
  lemma DeepIsRejected(rest: seq<Octet>, fl: Floats)
    ensures ParseDocument(seq(202, _ => 0x5B) + rest, fl) == Rejected
  {
    hide ParseValue, ParseDocument;
    var t := seq(202, _ => 0x5B) + rest;
    assert SkipSpaces(t, 0) == 0;
    TooDeep(t, 0, 0, fl);
    DocumentOf(t, fl);
  }

  /** Internal keys start with two underscores. */
  lemma InternalMeans(key: seq<Octet>)
    ensures Internal(key) <==> Ascii("__") <= key
  {
    assert Code('_') == 95;
    hide Code;
    assert Ascii("__") == [95, 95];
  }

  // ─── Text that is not UTF-8 ────────────────────────────────────────────────

  /** A character is kept, and a byte where none starts becomes U+FFFD. */
  lemma SanitisedMeans(s: seq<Octet>, n: nat)
    requires s != [] && n >= 1
    ensures StartsWithChar(s, n) ==> Sanitised(s) == s[..n] + Sanitised(s[n..])
    ensures (forall l: nat :: !StartsWithChar(s, l)) ==> Sanitised(s) == Char(0xFFFD) + Sanitised(s[1..])
  {
    hide CharLength, StartsWithChar;
    assert s[0..] == s;
    CharLengthIsExact(s, 0, n);
    var l := CharLength(s, 0);
    if l > 0 {
      CharLengthIsExact(s, 0, l);
    }
    assert Char(0xFFFD) == REPLACEMENT;
  }
}
