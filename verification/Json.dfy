/** JSON (RFC 8259): the writer, the strict recursive-descent parser, and what they do
  to each other. */
module Json {
  import opened Text

  datatype Json =
    | JNull
    | JBool(b: bool)
    | JInt(i: int)
    | JReal(bits: int)
    | JStr(s: seq<Octet>)
    | JList(items: seq<Json>)
    | JDict(pairs: seq<JPair>)

  datatype JPair = JPair(key: seq<Octet>, value: Json)

  datatype Real = NotReal | IsReal(bits: int)

  /** How floating point numbers are written and read is not part of this model. */
  datatype Floats = Floats(write: int -> seq<Octet>, read: seq<Octet> -> Real)

  const MAX_DEPTH: nat := 200
  const MIN_INT: int := -0x8000_0000_0000_0000
  const MAX_INT: int := 0x7FFF_FFFF_FFFF_FFFF

  const NULL_TEXT: seq<Octet> := [110, 117, 108, 108]
  const TRUE_TEXT: seq<Octet> := [116, 114, 117, 101]
  const FALSE_TEXT: seq<Octet> := [102, 97, 108, 115, 101]

  const COMMA: Octet := 44
  const MINUS: Octet := 45
  const PERIOD: Octet := 46
  const COLON: Octet := 58
  const OPEN_LIST: Octet := 91
  const CLOSE_LIST: Octet := 93
  const OPEN_DICT: Octet := 123
  const CLOSE_DICT: Octet := 125

  // ─── Writing ───────────────────────────────────────────────────────────────

  function Digit(d: nat): Octet
    requires d < 10
  {
    (48 + d) as Octet
  }

  function Digits(n: nat): (r: seq<Octet>)
    ensures r != []
  {
    if n < 10 then [Digit(n)] else Digits(n / 10) + [Digit(n % 10)]
  }

  function Decimal(i: int): seq<Octet> { if i < 0 then [MINUS] + Digits(-i) else Digits(i) }

  /** Keys that start with two underscores are internal, and are never written. */
  predicate Internal(key: seq<Octet>) { |key| >= 2 && key[0] == 95 && key[1] == 95 }

  function Written(v: Json, fl: Floats): seq<Octet> {
    match v
    case JNull => NULL_TEXT
    case JBool(b) => if b then TRUE_TEXT else FALSE_TEXT
    case JInt(i) => Decimal(i)
    case JReal(d) => fl.write(d)
    case JStr(s) => Quoted(s)
    case JList(items) => [OPEN_LIST] + WrittenItems(items, true, fl) + [CLOSE_LIST]
    case JDict(pairs) => [OPEN_DICT] + WrittenPairs(pairs, true, fl) + [CLOSE_DICT]
  }

  function WrittenItems(items: seq<Json>, first: bool, fl: Floats): seq<Octet> {
    if items == [] then []
    else (if first then [] else [COMMA]) + Written(items[0], fl) + WrittenItems(items[1..], false, fl)
  }

  function WrittenPairs(pairs: seq<JPair>, first: bool, fl: Floats): seq<Octet> {
    if pairs == [] then []
    else if Internal(pairs[0].key) then WrittenPairs(pairs[1..], first, fl)
    else
      (if first then [] else [COMMA]) + Quoted(pairs[0].key) + [COLON] + Written(pairs[0].value, fl)
      + WrittenPairs(pairs[1..], false, fl)
  }

  // ─── Reading: strings ──────────────────────────────────────────────────────

  /** What was read, and where reading goes on. */
  datatype Parsed<T> = Fail | Ok(value: T, next: nat)

  predicate IsSpace(c: Octet) { c == 32 || c == 9 || c == 10 || c == 13 }

  function SkipSpaces(t: seq<Octet>, i: nat): (j: nat)
    requires i <= |t|
    ensures i <= j <= |t|
    decreases |t| - i
  {
    if i < |t| && IsSpace(t[i]) then SkipSpaces(t, i + 1) else i
  }

  predicate HasAt(t: seq<Octet>, i: nat, w: seq<Octet>) { i + |w| <= |t| && t[i..i + |w|] == w }

  datatype Nibble = Hex(v: bv32) | NotHex

  function HexValue(c: Octet): Nibble {
    if 48 <= c <= 57 then Hex((c - 48) as bv32)
    else if 97 <= c <= 102 then Hex((c - 87) as bv32)
    else if 65 <= c <= 70 then Hex((c - 55) as bv32)
    else NotHex
  }

  /** One more hexadecimal digit. */
  function Shifted(n: bv32, v: bv32): bv32 { (n << 4) | v }

  function Hex4(t: seq<Octet>, i: nat): Parsed<bv32> {
    if i + 4 > |t| then Fail
    else
      match (HexValue(t[i]), HexValue(t[i + 1]), HexValue(t[i + 2]), HexValue(t[i + 3]))
      case (Hex(a), Hex(b), Hex(c), Hex(d)) => Ok(Shifted(Shifted(Shifted(Shifted(0, a), b), c), d), i + 4)
      case _ => Fail
  }

  function Lead2(cp: bv32): Octet { ((0xC0 | (cp >> 6)) & 0xFF) as Octet }
  function Lead3(cp: bv32): Octet { ((0xE0 | (cp >> 12)) & 0xFF) as Octet }
  function Lead4(cp: bv32): Octet { ((0xF0 | (cp >> 18)) & 0xFF) as Octet }

  /** A continuation byte: six bits. */
  function Tail(bits: bv32): Octet { (0x80 | (bits & 0x3F)) as Octet }

  /** A code point in UTF-8. */
  function Utf8(cp: bv32): seq<Octet> {
    if cp < 0x80 then [(cp & 0xFF) as Octet]
    else if cp < 0x800 then [Lead2(cp), Tail(cp)]
    else if cp < 0x10000 then [Lead3(cp), Tail(cp >> 6), Tail(cp)]
    else [Lead4(cp), Tail(cp >> 12), Tail(cp >> 6), Tail(cp)]
  }

  /** A high surrogate has to be followed by a low one; alone they mean nothing. */
  function CodePoint(t: seq<Octet>, i: nat): Parsed<bv32> {
    match Hex4(t, i)
    case Fail => Fail
    case Ok(cp, j) =>
      if 0xD800 <= cp <= 0xDBFF then
        if j + 1 >= |t| || t[j] != BACKSLASH || t[j + 1] != 117 then Fail
        else
          match Hex4(t, j + 2)
          case Fail => Fail
          case Ok(low, k) =>
            if low < 0xDC00 || low > 0xDFFF then Fail
            else Ok(0x10000 + ((cp - 0xD800) << 10) + (low - 0xDC00), k)
      else if 0xDC00 <= cp <= 0xDFFF then Fail
      else Ok(cp, j)
  }

  /** What follows a backslash. */
  function Escape1(t: seq<Octet>, i: nat): Parsed<seq<Octet>> {
    if i >= |t| then Fail
    else
      var e := t[i];
      if e == QUOTE || e == BACKSLASH || e == 47 then Ok([e], i + 1)
      else if e == 98 then Ok([0x08], i + 1)
      else if e == 102 then Ok([0x0C], i + 1)
      else if e == 110 then Ok([0x0A], i + 1)
      else if e == 114 then Ok([0x0D], i + 1)
      else if e == 116 then Ok([0x09], i + 1)
      else if e == 117 then
        match CodePoint(t, i + 1)
        case Fail => Fail
        case Ok(cp, j) => Ok(Utf8(cp), j)
      else Fail
  }

  lemma EscapeAdvances(t: seq<Octet>, i: nat)
    ensures Escape1(t, i).Ok? ==> i < Escape1(t, i).next <= |t|
  {
  }

  /** The characters of a string up to its closing quote. */
  function Chars(t: seq<Octet>, i: nat, out: seq<Octet>): (r: Parsed<seq<Octet>>)
    ensures r.Ok? ==> i < r.next <= |t|
    decreases |t| - i
  {
    if i >= |t| then Fail
    else if t[i] == QUOTE then Ok(out, i + 1)
    else if t[i] < 0x20 then Fail
    else if t[i] != BACKSLASH then Chars(t, i + 1, out + [t[i]])
    else
      EscapeAdvances(t, i + 1);
      match Escape1(t, i + 1)
      case Fail => Fail
      case Ok(bytes, j) => Chars(t, j, out + bytes)
  }

  // ─── Reading: numbers ──────────────────────────────────────────────────────

  predicate IsDigit(c: Octet) { 48 <= c <= 57 }

  function SkipDigits(t: seq<Octet>, i: nat): (j: nat)
    requires i <= |t|
    ensures i <= j <= |t|
    decreases |t| - i
  {
    if i < |t| && IsDigit(t[i]) then SkipDigits(t, i + 1) else i
  }

  function DigitValue(c: Octet): int { (c as int) - 48 }

  function NumberOf(ds: seq<Octet>): int {
    if ds == [] then 0 else NumberOf(ds[..|ds| - 1]) * 10 + DigitValue(ds[|ds| - 1])
  }

  function IntegerOf(text: seq<Octet>): int {
    if text != [] && text[0] == MINUS then -NumberOf(text[1..]) else NumberOf(text)
  }

  /** Where the integer part that starts at `i` ends. */
  function IntegerEnd(t: seq<Octet>, i: nat): Parsed<()> {
    var j := if i < |t| && t[i] == MINUS then i + 1 else i;
    if j >= |t| then Fail
    else if t[j] == 48 then Ok((), j + 1)
    else if 49 <= t[j] <= 57 then Ok((), SkipDigits(t, j))
    else Fail
  }

  /** The fraction, if there is one. */
  function FractionEnd(t: seq<Octet>, i: nat): Parsed<bool>
    requires i <= |t|
  {
    if i < |t| && t[i] == PERIOD then
      if i + 1 >= |t| || !IsDigit(t[i + 1]) then Fail else Ok(true, SkipDigits(t, i + 1))
    else Ok(false, i)
  }

  function ExponentEnd(t: seq<Octet>, i: nat): Parsed<bool>
    requires i <= |t|
  {
    if i < |t| && (t[i] == 101 || t[i] == 69) then
      var j := if i + 1 < |t| && (t[i + 1] == 43 || t[i + 1] == 45) then i + 2 else i + 1;
      if j >= |t| || !IsDigit(t[j]) then Fail else Ok(true, SkipDigits(t, j))
    else Ok(false, i)
  }

  lemma NumberAdvances(t: seq<Octet>, i: nat)
    ensures IntegerEnd(t, i).Ok? ==> i < IntegerEnd(t, i).next <= |t|
  {
    var j := if i < |t| && t[i] == MINUS then i + 1 else i;
    if j < |t| && 49 <= t[j] <= 57 {
      assert IsDigit(t[j]);
    }
  }

  /** Integers that do not fit in 64 bits are read as floating point numbers. */
  function ParseNumber(t: seq<Octet>, i: nat, fl: Floats): (r: Parsed<Json>)
    ensures r.Ok? ==> i < r.next <= |t|
  {
    NumberAdvances(t, i);
    match IntegerEnd(t, i)
    case Fail => Fail
    case Ok(_, a) =>
      match FractionEnd(t, a)
      case Fail => Fail
      case Ok(fraction, b) =>
        match ExponentEnd(t, b)
        case Fail => Fail
        case Ok(exponent, c) =>
          var n := IntegerOf(t[i..c]);
          if !fraction && !exponent && MIN_INT <= n <= MAX_INT then Ok(JInt(n), c)
          else
            match fl.read(t[i..c])
            case NotReal => Fail
            case IsReal(d) => Ok(JReal(d), c)
  }

  // ─── Reading: values ───────────────────────────────────────────────────────

  /** A repeated key keeps its place and takes the new value. */
  function Store(pairs: seq<JPair>, key: seq<Octet>, v: Json): seq<JPair> {
    if pairs == [] then [JPair(key, v)]
    else if pairs[0].key == key then [JPair(key, v)] + pairs[1..]
    else [pairs[0]] + Store(pairs[1..], key, v)
  }

  function ParseLiteral(t: seq<Octet>, i: nat, word: seq<Octet>, v: Json): Parsed<Json> {
    if HasAt(t, i, word) then Ok(v, i + |word|) else Fail
  }

  function ParseValue(t: seq<Octet>, i: nat, depth: nat, fl: Floats): (r: Parsed<Json>)
    ensures r.Ok? ==> i < r.next <= |t|
    decreases if i <= |t| then |t| - i else 0, 1
  {
    if depth > MAX_DEPTH || i >= |t| then Fail
    else if t[i] == 110 then ParseLiteral(t, i, NULL_TEXT, JNull)
    else if t[i] == 116 then ParseLiteral(t, i, TRUE_TEXT, JBool(true))
    else if t[i] == 102 then ParseLiteral(t, i, FALSE_TEXT, JBool(false))
    else if t[i] == QUOTE then
      match Chars(t, i + 1, [])
      case Fail => Fail
      case Ok(s, j) => Ok(JStr(s), j)
    else if t[i] == OPEN_LIST then
      var j := SkipSpaces(t, i + 1);
      if j < |t| && t[j] == CLOSE_LIST then Ok(JList([]), j + 1) else ParseItems(t, j, depth, [], fl)
    else if t[i] == OPEN_DICT then
      var j := SkipSpaces(t, i + 1);
      if j < |t| && t[j] == CLOSE_DICT then Ok(JDict([]), j + 1) else ParsePairs(t, j, depth, [], fl)
    else ParseNumber(t, i, fl)
  }

  /** The items from `i` on, after those in `done`. */
  function ParseItems(t: seq<Octet>, i: nat, depth: nat, done: seq<Json>, fl: Floats): (r: Parsed<Json>)
    requires i <= |t|
    ensures r.Ok? ==> i < r.next <= |t|
    decreases |t| - i, 2
  {
    var a := SkipSpaces(t, i);
    match ParseValue(t, a, depth + 1, fl)
    case Fail => Fail
    case Ok(v, b) =>
      var c := SkipSpaces(t, b);
      if c >= |t| then Fail
      else if t[c] == COMMA then ParseItems(t, c + 1, depth, done + [v], fl)
      else if t[c] == CLOSE_LIST then Ok(JList(done + [v]), c + 1)
      else Fail
  }

  function ParsePairs(t: seq<Octet>, i: nat, depth: nat, done: seq<JPair>, fl: Floats): (r: Parsed<Json>)
    requires i <= |t|
    ensures r.Ok? ==> i < r.next <= |t|
    decreases |t| - i, 2
  {
    var a := SkipSpaces(t, i);
    if a >= |t| || t[a] != QUOTE then Fail
    else
      match Chars(t, a + 1, [])
      case Fail => Fail
      case Ok(key, b) =>
        var c := SkipSpaces(t, b);
        if c >= |t| || t[c] != COLON then Fail
        else
          match ParseValue(t, SkipSpaces(t, c + 1), depth + 1, fl)
          case Fail => Fail
          case Ok(v, d) =>
            var e := SkipSpaces(t, d);
            if e >= |t| then Fail
            else if t[e] == COMMA then ParsePairs(t, e + 1, depth, Store(done, key, v), fl)
            else if t[e] == CLOSE_DICT then Ok(JDict(Store(done, key, v)), e + 1)
            else Fail
  }

  datatype Document = Rejected | Accepted(value: Json)

  /** One value, and nothing behind it. */
  function ParseDocument(t: seq<Octet>, fl: Floats): Document {
    match ParseValue(t, SkipSpaces(t, 0), 0, fl)
    case Fail => Rejected
    case Ok(v, j) => if SkipSpaces(t, j) == |t| then Accepted(v) else Rejected
  }

  // ─── Round trip ────────────────────────────────────────────────────────────

  function Depth(v: Json): nat {
    match v
    case JList(items) => DepthOfItems(items)
    case JDict(pairs) => DepthOfPairs(pairs)
    case _ => 0
  }

  function DepthOfItems(items: seq<Json>): nat {
    if items == [] then 0 else Max(Depth(items[0]) + 1, DepthOfItems(items[1..]))
  }

  function DepthOfPairs(pairs: seq<JPair>): nat {
    if pairs == [] then 0 else Max(Depth(pairs[0].value) + 1, DepthOfPairs(pairs[1..]))
  }

  function Max(a: nat, b: nat): nat { if a < b then b else a }

  /** Values that can be written and read back: no floating point numbers, integers of
    64 bits, valid UTF-8, and dictionaries with distinct keys that are not internal. */
  predicate Good(v: Json) {
    match v
    case JNull => true
    case JBool(_) => true
    case JInt(i) => MIN_INT <= i <= MAX_INT
    case JReal(_) => false
    case JStr(s) => ValidUtf8(s)
    case JList(items) => forall i :: 0 <= i < |items| ==> Good(items[i])
    case JDict(pairs) =>
      && (forall i :: 0 <= i < |pairs| ==> ValidUtf8(pairs[i].key) && !Internal(pairs[i].key) && Good(pairs[i].value))
      && (forall i, j :: 0 <= i < j < |pairs| ==> pairs[i].key != pairs[j].key)
  }

  /** Good but for keys, which can be repeated. */
  predicate Readable(v: Json) {
    match v
    case JNull => true
    case JBool(_) => true
    case JInt(i) => MIN_INT <= i <= MAX_INT
    case JReal(_) => false
    case JStr(s) => ValidUtf8(s)
    case JList(items) => forall i :: 0 <= i < |items| ==> Readable(items[i])
    case JDict(pairs) =>
      forall i :: 0 <= i < |pairs| ==> ValidUtf8(pairs[i].key) && !Internal(pairs[i].key) && Readable(pairs[i].value)
  }

  /** What is read back of a value: of a repeated key the first place and the last value. */
  function Kept(v: Json): Json
    decreases v, 1
  {
    match v
    case JList(items) => JList(KeptItems(items))
    case JDict(pairs) => JDict(Stored([], pairs))
    case _ => v
  }

  function KeptItems(items: seq<Json>): seq<Json>
    decreases items, 0
  {
    if items == [] then [] else [Kept(items[0])] + KeptItems(items[1..])
  }

  function Stored(done: seq<JPair>, pairs: seq<JPair>): seq<JPair>
    decreases pairs, 0
  {
    if pairs == [] then done else Stored(Store(done, pairs[0].key, Kept(pairs[0].value)), pairs[1..])
  }

  /** A value ends where a number cannot go on. */
  predicate Ends(t: seq<Octet>, i: nat) {
    i >= |t| || !(IsDigit(t[i]) || t[i] == PERIOD || t[i] == 101 || t[i] == 69)
  }

  lemma HasParts(t: seq<Octet>, i: nat, a: seq<Octet>, b: seq<Octet>)
    requires HasAt(t, i, a + b)
    ensures HasAt(t, i, a) && HasAt(t, i + |a|, b)
  {
    assert t[i..i + |a|] == (a + b)[..|a|];
    assert t[i + |a|..i + |a| + |b|] == (a + b)[|a|..];
  }

  lemma HasByte(t: seq<Octet>, i: nat, c: Octet)
    requires HasAt(t, i, [c])
    ensures i < |t| && t[i] == c
  {
    assert t[i..i + 1][0] == c;
  }

  lemma NoSpace(t: seq<Octet>, i: nat)
    requires i < |t| && !IsSpace(t[i])
    ensures SkipSpaces(t, i) == i
  {
  }

  // ─── Strings ───────────────────────────────────────────────────────────────

  lemma HexRoundTrip(v: Octet)
    requires v < 16
    ensures HexValue(HexDigit(v)) == Hex(v as bv32)
  {
  }

  lemma ControlCode(c: Octet)
    requires c < 0x20
    ensures c >> 4 < 16 && c & 0xF < 16
    ensures Shifted(Shifted(Shifted(Shifted(0, 0), 0), (c >> 4) as bv32), (c & 0xF) as bv32) == c as bv32
    ensures (c as bv32) < 0x80 && ((c as bv32) & 0xFF) as Octet == c
  {
  }

  /** An escaped control character is read back. */
  lemma ControlIsRead(t: seq<Octet>, i: nat, c: Octet)
    requires c < 0x20 && HasAt(t, i, [48, 48, HexDigit(c >> 4), HexDigit(c & 0xF)])
    ensures CodePoint(t, i) == Ok(c as bv32, i + 4) && Utf8(c as bv32) == [c]
  {
    hide HexDigit;
    ControlCode(c);
    HexRoundTrip(c >> 4);
    HexRoundTrip(c & 0xF);
    var w := t[i..i + 4];
    assert w[0] == t[i] && w[1] == t[i + 1] && w[2] == t[i + 2] && w[3] == t[i + 3];
    assert HexValue(48) == Hex(0);
  }

  /** One byte, escaped or not, is one turn of the reader. */
  lemma ByteIsRead(t: seq<Octet>, i: nat, c: Octet, out: seq<Octet>)
    requires HasAt(t, i, EscapeByte(c))
    ensures Chars(t, i, out) == Chars(t, i + |EscapeByte(c)|, out + [c])
  {
    hide CodePoint, Utf8, HexDigit;
    var w := t[i..i + |EscapeByte(c)|];
    assert w[0] == t[i];
    if |w| > 1 {
      assert w[1] == t[i + 1];
    }
    if |w| == 6 {
      assert t[i + 2..i + 6] == w[2..];
      assert w[2..] == [48, 48, HexDigit(c >> 4), HexDigit(c & 0xF)];
      ControlIsRead(t, i + 2, c);
    }
  }

  lemma {:induction false} BytesAreRead(t: seq<Octet>, i: nat, s: seq<Octet>, out: seq<Octet>)
    requires HasAt(t, i, EscapedBytes(s))
    ensures Chars(t, i, out) == Chars(t, i + |EscapedBytes(s)|, out + s)
    decreases |s|
  {
    hide EscapeByte, Chars;
    if s == [] {
      assert out + s == out;
    } else {
      HasParts(t, i, EscapeByte(s[0]), EscapedBytes(s[1..]));
      ByteIsRead(t, i, s[0], out);
      BytesAreRead(t, i + |EscapeByte(s[0])|, s[1..], out + [s[0]]);
      assert out + [s[0]] + s[1..] == out + s;
    }
  }

  lemma QuotedParts(s: seq<Octet>)
    requires ValidUtf8(s)
    ensures Quoted(s) == [QUOTE] + (EscapedBytes(s) + [QUOTE])
  {
    hide EscapedBytes, ValidUtf8, Sanitised;
  }

  lemma CharsEnd(t: seq<Octet>, i: nat, out: seq<Octet>)
    requires i < |t| && t[i] == QUOTE
    ensures Chars(t, i, out) == Ok(out, i + 1)
  {
  }

  lemma StringIsRead(t: seq<Octet>, i: nat, s: seq<Octet>)
    requires ValidUtf8(s) && HasAt(t, i, Quoted(s))
    ensures i < |t| && t[i] == QUOTE && Chars(t, i + 1, []) == Ok(s, i + |Quoted(s)|)
  {
    hide EscapedBytes, ValidUtf8, Quoted, Chars, HasAt;
    QuotedParts(s);
    HasParts(t, i, [QUOTE], EscapedBytes(s) + [QUOTE]);
    HasByte(t, i, QUOTE);
    HasParts(t, i + 1, EscapedBytes(s), [QUOTE]);
    var end := i + 1 + |EscapedBytes(s)|;
    HasByte(t, end, QUOTE);
    BytesAreRead(t, i + 1, s, []);
    assert [] + s == s;
    CharsEnd(t, end, s);
  }

  // ─── Integers ──────────────────────────────────────────────────────────────

  lemma DigitRoundTrip(d: nat)
    requires d < 10
    ensures IsDigit(Digit(d)) && DigitValue(Digit(d)) == d && (Digit(d) == 48 <==> d == 0)
  {
    assert d == 0 || d == 1 || d == 2 || d == 3 || d == 4 || d == 5 || d == 6 || d == 7 || d == 8 || d == 9;
  }

  predicate AllDigits(ds: seq<Octet>) { forall i :: 0 <= i < |ds| ==> IsDigit(ds[i]) }

  lemma {:induction false} DigitsRoundTrip(n: nat)
    ensures AllDigits(Digits(n)) && NumberOf(Digits(n)) == n
    ensures Digits(n)[0] == 48 <==> n == 0
  {
    hide Digit, DigitValue, IsDigit;
    DigitRoundTrip(n % 10);
    if n >= 10 {
      DigitsRoundTrip(n / 10);
      assert Digits(n)[..|Digits(n)| - 1] == Digits(n / 10);
      assert Digits(n)[0] == Digits(n / 10)[0];
    } else {
      assert Digits(n)[..0] == [];
    }
  }

  lemma {:induction false} DigitsAreSkipped(t: seq<Octet>, i: nat, j: nat)
    requires i <= j <= |t| && AllDigits(t[i..j]) && (j < |t| ==> !IsDigit(t[j]))
    ensures SkipDigits(t, i) == j
    decreases j - i
  {
    hide IsDigit;
    if i < j {
      assert t[i..j][0] == t[i] && t[i..j][1..] == t[i + 1..j];
      DigitsAreSkipped(t, i + 1, j);
    }
  }

  lemma EndIsNoDigit(t: seq<Octet>, i: nat)
    requires i <= |t| && Ends(t, i)
    ensures i < |t| ==> !IsDigit(t[i]) && t[i] != PERIOD && t[i] != 101 && t[i] != 69
  {
  }

  /** The digits of a number without its sign. */
  lemma DigitsAreRead(t: seq<Octet>, j: nat, n: nat)
    requires HasAt(t, j, Digits(n)) && Ends(t, j + |Digits(n)|)
    ensures j < |t| && (t[j] == 48 || 49 <= t[j] <= 57)
    ensures if t[j] == 48 then |Digits(n)| == 1 else SkipDigits(t, j) == j + |Digits(n)|
  {
    hide Ends, Digits, NumberOf;
    DigitsRoundTrip(n);
    EndIsNoDigit(t, j + |Digits(n)|);
    var ds := t[j..j + |Digits(n)|];
    assert ds[0] == t[j];
    if t[j] == 48 {
      ZeroDigits();
    } else {
      assert IsDigit(t[j]);
      DigitsAreSkipped(t, j, j + |Digits(n)|);
    }
  }

  lemma ZeroDigits()
    ensures |Digits(0)| == 1
  {
  }

  lemma IntegerIsRead(t: seq<Octet>, i: nat, n: int, fl: Floats)
    requires MIN_INT <= n <= MAX_INT && HasAt(t, i, Decimal(n)) && Ends(t, i + |Decimal(n)|)
    ensures ParseNumber(t, i, fl) == Ok(JInt(n), i + |Decimal(n)|)
    ensures i < |t| && (t[i] == MINUS || IsDigit(t[i]))
  {
    hide Ends, Digits, NumberOf, SkipDigits;
    var end := i + |Decimal(n)|;
    EndIsNoDigit(t, end);
    var m: nat := if n < 0 then -n else n;
    DigitsRoundTrip(m);
    if n < 0 {
      HasParts(t, i, [MINUS], Digits(m));
      HasByte(t, i, MINUS);
      DigitsAreRead(t, i + 1, m);
      assert t[i..end][0] == MINUS && t[i..end][1..] == Digits(m);
    } else {
      DigitsAreRead(t, i, m);
      assert t[i..end] == Digits(m) && t[i..end][0] == t[i];
    }
  }

  // ─── Lists and dictionaries ────────────────────────────────────────────────

  lemma LaterItems(items: seq<Json>, fl: Floats)
    requires items != []
    ensures WrittenItems(items, false, fl) == [COMMA] + WrittenItems(items, true, fl)
    ensures WrittenItems(items, true, fl) == Written(items[0], fl) + WrittenItems(items[1..], false, fl)
  {
    hide Written;
    assert [COMMA] + Written(items[0], fl) + WrittenItems(items[1..], false, fl)
        == [COMMA] + ([] + Written(items[0], fl) + WrittenItems(items[1..], false, fl));
  }

  lemma LaterPairs(pairs: seq<JPair>, fl: Floats)
    requires pairs != [] && !Internal(pairs[0].key)
    ensures WrittenPairs(pairs, false, fl) == [COMMA] + WrittenPairs(pairs, true, fl)
    ensures WrittenPairs(pairs, true, fl)
            == Quoted(pairs[0].key) + ([COLON] + (Written(pairs[0].value, fl) + WrittenPairs(pairs[1..], false, fl)))
  {
    hide Written, Quoted, Internal;
  }

  lemma WrittenStart(v: Json, fl: Floats)
    requires Readable(v)
    ensures Written(v, fl) != [] && !IsSpace(Written(v, fl)[0])
    ensures Written(v, fl)[0] != CLOSE_LIST && Written(v, fl)[0] != CLOSE_DICT
  {
    hide WrittenItems, WrittenPairs, ValidUtf8, Sanitised, EscapedBytes, Digits, NumberOf, Readable;
    if v.JInt? {
      DigitsRoundTrip(if v.i < 0 then -v.i else v.i);
    }
    assert !v.JReal? by { ReadableIsNotReal(v); }
  }

  lemma ReadableIsNotReal(v: Json)
    requires Readable(v)
    ensures !v.JReal?
  {
  }

  /** What is written is read as what is kept of it, wherever it is in a text. */
  lemma {:induction false} ReadableIsRead(t: seq<Octet>, i: nat, v: Json, depth: nat, fl: Floats)
    requires Readable(v) && depth + Depth(v) <= MAX_DEPTH
    requires HasAt(t, i, Written(v, fl)) && Ends(t, i + |Written(v, fl)|)
    ensures ParseValue(t, i, depth, fl) == Ok(Kept(v), i + |Written(v, fl)|)
    decreases v, 1
  {
    hide Written, ParseValue, Readable, Depth, Ends;
    match v
    case JNull => LiteralIsRead(t, i, v, depth, fl);
    case JBool(_) => LiteralIsRead(t, i, v, depth, fl);
    case JInt(n) =>
      IntegerParts(v, fl);
      IntegerIsRead(t, i, n, fl);
      NumberDispatch(t, i, depth, fl);
    case JReal(_) => ReadableIsNotReal(v);
    case JStr(s) =>
      StringParts(v, fl);
      StringIsRead(t, i, s);
      StringDispatch(t, i, depth, fl);
    case JList(items) => ListIsRead(t, i, items, depth, fl);
    case JDict(pairs) => DictIsRead(t, i, pairs, depth, fl);
  }

  lemma LiteralIsRead(t: seq<Octet>, i: nat, v: Json, depth: nat, fl: Floats)
    requires v.JNull? || v.JBool?
    requires depth <= MAX_DEPTH && HasAt(t, i, Written(v, fl))
    ensures ParseValue(t, i, depth, fl) == Ok(v, i + |Written(v, fl)|)
  {
    var w := Written(v, fl);
    assert t[i..i + |w|][0] == t[i];
  }

  lemma IntegerParts(v: Json, fl: Floats)
    requires Readable(v) && v.JInt?
    ensures Written(v, fl) == Decimal(v.i) && MIN_INT <= v.i <= MAX_INT && Depth(v) == 0
  {
  }

  lemma StringParts(v: Json, fl: Floats)
    requires Readable(v) && v.JStr?
    ensures Written(v, fl) == Quoted(v.s) && ValidUtf8(v.s) && Depth(v) == 0
  {
    hide Quoted;
  }

  lemma NumberDispatch(t: seq<Octet>, i: nat, depth: nat, fl: Floats)
    requires depth <= MAX_DEPTH && i < |t| && (t[i] == MINUS || IsDigit(t[i]))
    ensures ParseValue(t, i, depth, fl) == ParseNumber(t, i, fl)
  {
    hide ParseNumber, Chars, ParseItems, ParsePairs;
  }

  lemma StringDispatch(t: seq<Octet>, i: nat, depth: nat, fl: Floats)
    requires depth <= MAX_DEPTH && i < |t| && t[i] == QUOTE
    ensures ParseValue(t, i, depth, fl)
            == match Chars(t, i + 1, []) case Fail => Fail case Ok(s, j) => Ok(JStr(s), j)
  {
    hide ParseNumber, Chars, ParseItems, ParsePairs;
  }

  predicate ReadableItems(items: seq<Json>) { forall i :: 0 <= i < |items| ==> Readable(items[i]) }

  lemma {:induction false} ListIsRead(t: seq<Octet>, i: nat, items: seq<Json>, depth: nat, fl: Floats)
    requires Readable(JList(items)) && depth + Depth(JList(items)) <= MAX_DEPTH
    requires HasAt(t, i, Written(JList(items), fl))
    ensures ParseValue(t, i, depth, fl) == Ok(Kept(JList(items)), i + |Written(JList(items), fl)|)
    decreases items, 3
  {
    hide Written, Readable, Depth, ParseItems, Chars, ParseNumber, ParsePairs, WrittenItems;
    ListParts(items, fl);
    var body := WrittenItems(items, true, fl) + [CLOSE_LIST];
    assert Written(JList(items), fl) == [OPEN_LIST] + body;
    HasParts(t, i, [OPEN_LIST], body);
    HasByte(t, i, OPEN_LIST);
    HasStart(t, i + 1, body);
    if items == [] {
      assert body == [CLOSE_LIST] by { NoItems(fl); }
      NoSpace(t, i + 1);
    } else {
      LaterItems(items, fl);
      WrittenStart(items[0], fl);
      assert body[0] == Written(items[0], fl)[0];
      NoSpace(t, i + 1);
      ItemsAreRead(t, i + 1, items, depth, [], fl);
      assert [] + KeptItems(items) == KeptItems(items);
    }
  }

  lemma HasStart(t: seq<Octet>, i: nat, w: seq<Octet>)
    requires HasAt(t, i, w) && w != []
    ensures i < |t| && t[i] == w[0]
  {
    assert t[i..i + |w|][0] == t[i];
  }

  lemma NoItems(fl: Floats)
    ensures WrittenItems([], true, fl) + [CLOSE_LIST] == [CLOSE_LIST]
            && WrittenPairs([], true, fl) + [CLOSE_DICT] == [CLOSE_DICT]
  {
  }

  lemma ListParts(items: seq<Json>, fl: Floats)
    requires Readable(JList(items))
    ensures Written(JList(items), fl) == [OPEN_LIST] + WrittenItems(items, true, fl) + [CLOSE_LIST]
    ensures ReadableItems(items) && Depth(JList(items)) == DepthOfItems(items)
  {
    hide WrittenItems, DepthOfItems;
  }

  lemma ItemsParts(items: seq<Json>)
    requires items != [] && ReadableItems(items)
    ensures Readable(items[0]) && ReadableItems(items[1..])
    ensures Depth(items[0]) + 1 <= DepthOfItems(items) && DepthOfItems(items[1..]) <= DepthOfItems(items)
  {
    hide Readable, Depth;
  }

  /** An item is read, and what comes after it decides. */
  lemma ItemIsRead(t: seq<Octet>, i: nat, v: Json, depth: nat, done: seq<Json>, fl: Floats, b: nat)
    requires i < |t| && !IsSpace(t[i]) && ParseValue(t, i, depth + 1, fl) == Ok(v, b)
    requires b < |t| && (t[b] == COMMA || t[b] == CLOSE_LIST)
    ensures t[b] == COMMA ==> ParseItems(t, i, depth, done, fl) == ParseItems(t, b + 1, depth, done + [v], fl)
    ensures t[b] == CLOSE_LIST ==> ParseItems(t, i, depth, done, fl) == Ok(JList(done + [v]), b + 1)
  {
    hide ParseValue;
    NoSpace(t, i);
    NoSpace(t, b);
  }

  /** Items from the first on, up to the bracket. */
  lemma {:induction false} ItemsAreRead(t: seq<Octet>, i: nat, items: seq<Json>, depth: nat, done: seq<Json>,
                                        fl: Floats)
    requires items != [] && ReadableItems(items) && depth + DepthOfItems(items) <= MAX_DEPTH
    requires HasAt(t, i, WrittenItems(items, true, fl) + [CLOSE_LIST])
    ensures ParseItems(t, i, depth, done, fl)
            == Ok(JList(done + KeptItems(items)), i + |WrittenItems(items, true, fl)| + 1)
    decreases items, 2
  {
    hide Written, Readable, Depth, DepthOfItems, WrittenItems, ParseValue, ReadableItems, ParseItems, HasAt, IsSpace;
    var w := Written(items[0], fl);
    var rest := WrittenItems(items[1..], false, fl) + [CLOSE_LIST];
    var b := i + |w|;
    ItemsParts(items);
    LaterItems(items, fl);
    WrittenStart(items[0], fl);
    assert WrittenItems(items, true, fl) + [CLOSE_LIST] == w + rest;
    HasParts(t, i, w, rest);
    HasStart(t, i, w);
    HasStart(t, b, rest);
    if items[1..] == [] {
      assert rest == [CLOSE_LIST] by { NoLaterItems(fl); }
      ReadableIsRead(t, i, items[0], depth + 1, fl);
      ItemIsRead(t, i, Kept(items[0]), depth, done, fl, b);
      assert KeptItems(items) == [Kept(items[0])] + KeptItems(items[1..]);
      assert KeptItems(items) == [Kept(items[0])];
    } else {
      LaterItems(items[1..], fl);
      var tail := WrittenItems(items[1..], true, fl) + [CLOSE_LIST];
      assert rest == [COMMA] + tail;
      HasParts(t, b, [COMMA], tail);
      ReadableIsRead(t, i, items[0], depth + 1, fl);
      ItemIsRead(t, i, Kept(items[0]), depth, done, fl, b);
      ItemsAreRead(t, b + 1, items[1..], depth, done + [Kept(items[0])], fl);
      assert done + KeptItems(items) == done + [Kept(items[0])] + KeptItems(items[1..]);
    }
  }

  lemma NoLaterItems(fl: Floats)
    ensures WrittenItems([], false, fl) + [CLOSE_LIST] == [CLOSE_LIST]
    ensures WrittenPairs([], false, fl) + [CLOSE_DICT] == [CLOSE_DICT]
  {
  }

  predicate ReadablePairs(pairs: seq<JPair>) {
    forall i :: 0 <= i < |pairs| ==> ValidUtf8(pairs[i].key) && !Internal(pairs[i].key) && Readable(pairs[i].value)
  }

  lemma DictParts(pairs: seq<JPair>, fl: Floats)
    requires Readable(JDict(pairs))
    ensures Written(JDict(pairs), fl) == [OPEN_DICT] + WrittenPairs(pairs, true, fl) + [CLOSE_DICT]
    ensures ReadablePairs(pairs) && Depth(JDict(pairs)) == DepthOfPairs(pairs)
  {
    hide WrittenPairs, DepthOfPairs, ValidUtf8;
  }

  lemma PairsParts(pairs: seq<JPair>)
    requires pairs != [] && ReadablePairs(pairs)
    ensures ValidUtf8(pairs[0].key) && !Internal(pairs[0].key) && Readable(pairs[0].value) && ReadablePairs(pairs[1..])
    ensures Depth(pairs[0].value) + 1 <= DepthOfPairs(pairs) && DepthOfPairs(pairs[1..]) <= DepthOfPairs(pairs)
  {
    hide Readable, Depth, ValidUtf8, Internal;
  }

  lemma {:induction false} DictIsRead(t: seq<Octet>, i: nat, pairs: seq<JPair>, depth: nat, fl: Floats)
    requires Readable(JDict(pairs)) && depth + Depth(JDict(pairs)) <= MAX_DEPTH
    requires HasAt(t, i, Written(JDict(pairs), fl))
    ensures ParseValue(t, i, depth, fl) == Ok(Kept(JDict(pairs)), i + |Written(JDict(pairs), fl)|)
    decreases pairs, 3
  {
    hide Written, Readable, Depth, ParseItems, Chars, ParseNumber, ParsePairs, WrittenPairs, Quoted, ReadablePairs;
    DictParts(pairs, fl);
    var body := WrittenPairs(pairs, true, fl) + [CLOSE_DICT];
    assert Written(JDict(pairs), fl) == [OPEN_DICT] + body;
    HasParts(t, i, [OPEN_DICT], body);
    HasByte(t, i, OPEN_DICT);
    HasStart(t, i + 1, body);
    if pairs == [] {
      assert body == [CLOSE_DICT] by { NoItems(fl); }
      NoSpace(t, i + 1);
    } else {
      PairsParts(pairs);
      LaterPairs(pairs, fl);
      QuotedStart(pairs[0].key);
      assert body[0] == QUOTE;
      NoSpace(t, i + 1);
      PairsAreRead(t, i + 1, pairs, depth, [], fl);
    }
  }

  lemma QuotedStart(s: seq<Octet>)
    ensures Quoted(s) != [] && Quoted(s)[0] == QUOTE
  {
    hide EscapedBytes, ValidUtf8;
  }

  /** A key and its value are read, and what comes after them decides. */
  lemma PairIsRead(t: seq<Octet>, i: nat, p: JPair, depth: nat, done: seq<JPair>, fl: Floats, c: nat, d: nat)
    requires i < |t| && t[i] == QUOTE && Chars(t, i + 1, []) == Ok(p.key, c) && c < |t| && t[c] == COLON
    requires c + 1 < |t| && !IsSpace(t[c + 1]) && ParseValue(t, c + 1, depth + 1, fl) == Ok(p.value, d)
    requires d < |t| && (t[d] == COMMA || t[d] == CLOSE_DICT)
    ensures var done1 := Store(done, p.key, p.value);
            && (t[d] == COMMA ==> ParsePairs(t, i, depth, done, fl) == ParsePairs(t, d + 1, depth, done1, fl))
            && (t[d] == CLOSE_DICT ==> ParsePairs(t, i, depth, done, fl) == Ok(JDict(done1), d + 1))
  {
    hide ParseValue, Chars, Store;
    NoSpace(t, i);
    NoSpace(t, c);
    NoSpace(t, c + 1);
    NoSpace(t, d);
  }

  /** Where the parts of a pair are. */
  lemma PairStarts(t: seq<Octet>, i: nat, p: JPair, rest: seq<Octet>, fl: Floats)
    requires ValidUtf8(p.key) && Readable(p.value) && rest != []
    requires HasAt(t, i, Quoted(p.key) + ([COLON] + (Written(p.value, fl) + rest)))
    ensures var c := i + |Quoted(p.key)|;
            var d := c + 1 + |Written(p.value, fl)|;
            && i < |t| && t[i] == QUOTE && Chars(t, i + 1, []) == Ok(p.key, c) && c < |t| && t[c] == COLON
            && c + 1 < |t| && !IsSpace(t[c + 1]) && HasAt(t, c + 1, Written(p.value, fl)) && HasAt(t, d, rest)
            && d < |t| && t[d] == rest[0]
  {
    hide Written, Readable, Quoted, Chars, ValidUtf8, HasAt, IsSpace;
    var q, w := Quoted(p.key), Written(p.value, fl);
    QuotedStart(p.key);
    WrittenStart(p.value, fl);
    HasParts(t, i, q, [COLON] + (w + rest));
    StringIsRead(t, i, p.key);
    var c := i + |q|;
    HasParts(t, c, [COLON], w + rest);
    HasByte(t, c, COLON);
    HasParts(t, c + 1, w, rest);
    HasStart(t, c + 1, w);
    HasStart(t, c + 1 + |w|, rest);
  }

  /** Pairs from the first on, up to the brace. */
  lemma {:induction false} PairsAreRead(t: seq<Octet>, i: nat, pairs: seq<JPair>, depth: nat, done: seq<JPair>,
                                        fl: Floats)
    requires pairs != [] && ReadablePairs(pairs) && depth + DepthOfPairs(pairs) <= MAX_DEPTH
    requires HasAt(t, i, WrittenPairs(pairs, true, fl) + [CLOSE_DICT])
    ensures ParsePairs(t, i, depth, done, fl) == Ok(JDict(Stored(done, pairs)), i + |WrittenPairs(pairs, true, fl)| + 1)
    decreases pairs, 2
  {
    hide Written, Readable, Depth, DepthOfPairs, WrittenPairs, ParseValue, Quoted, Chars, ReadablePairs, Store,
         ValidUtf8,
         ParsePairs, HasAt, IsSpace, Internal;
    var q, w := Quoted(pairs[0].key), Written(pairs[0].value, fl);
    var rest := WrittenPairs(pairs[1..], false, fl) + [CLOSE_DICT];
    PairsParts(pairs);
    LaterPairs(pairs, fl);
    var done1 := Store(done, pairs[0].key, Kept(pairs[0].value));
    var kept := JPair(pairs[0].key, Kept(pairs[0].value));
    assert WrittenPairs(pairs, true, fl) + [CLOSE_DICT] == q + ([COLON] + (w + rest));
    PairStarts(t, i, pairs[0], rest, fl);
    var c := i + |q|;
    var d := c + 1 + |w|;
    if pairs[1..] == [] {
      assert rest == [CLOSE_DICT] by { NoLaterItems(fl); }
      ReadableIsRead(t, c + 1, pairs[0].value, depth + 1, fl);
      PairIsRead(t, i, kept, depth, done, fl, c, d);
      assert Stored(done, pairs) == Stored(done1, []) == done1;
    } else {
      PairsParts(pairs[1..]);
      LaterPairs(pairs[1..], fl);
      var tail := WrittenPairs(pairs[1..], true, fl) + [CLOSE_DICT];
      assert rest == [COMMA] + tail;
      HasParts(t, d, [COMMA], tail);
      ReadableIsRead(t, c + 1, pairs[0].value, depth + 1, fl);
      PairIsRead(t, i, kept, depth, done, fl, c, d);
      PairsAreRead(t, d + 1, pairs[1..], depth, done1, fl);
    }
  }

  // ─── Good values ───────────────────────────────────────────────────────────

  /** A new key goes to the end. */
  lemma {:induction false} StoreNew(done: seq<JPair>, key: seq<Octet>, v: Json)
    requires forall i :: 0 <= i < |done| ==> done[i].key != key
    ensures Store(done, key, v) == done + [JPair(key, v)]
  {
    if done != [] {
      StoreNew(done[1..], key, v);
      assert done[..1] + done[1..] == done;
    }
  }

  predicate NoKeyOf(pairs: seq<JPair>, done: seq<JPair>) {
    forall i, j :: 0 <= i < |pairs| && 0 <= j < |done| ==> done[j].key != pairs[i].key
  }

  lemma NoKeyOfRest(pairs: seq<JPair>, done: seq<JPair>)
    requires pairs != [] && GoodPairs(pairs) && NoKeyOf(pairs, done)
    ensures Store(done, pairs[0].key, pairs[0].value) == done + [pairs[0]]
    ensures NoKeyOf(pairs[1..], done + [pairs[0]])
  {
    hide ValidUtf8, Internal, Good;
    StoreNew(done, pairs[0].key, pairs[0].value);
  }

  predicate GoodPairs(pairs: seq<JPair>) {
    && (forall i :: 0 <= i < |pairs| ==> ValidUtf8(pairs[i].key) && !Internal(pairs[i].key) && Good(pairs[i].value))
    && (forall i, j :: 0 <= i < j < |pairs| ==> pairs[i].key != pairs[j].key)
  }

  /** Of a good value all is kept. */
  lemma {:induction false} GoodIsKept(v: Json)
    requires Good(v)
    ensures Readable(v) && Kept(v) == v
    decreases v, 1
  {
    hide ValidUtf8, Internal, Store;
    match v
    case JList(items) => GoodItemsAreKept(items);
    case JDict(pairs) =>
      GoodPairsAreKept([], pairs);
      assert [] + pairs == pairs;
    case _ =>
  }

  lemma {:induction false} GoodItemsAreKept(items: seq<Json>)
    requires forall i :: 0 <= i < |items| ==> Good(items[i])
    ensures (forall i :: 0 <= i < |items| ==> Readable(items[i])) && KeptItems(items) == items
    decreases items, 0
  {
    hide Good, Readable;
    if items != [] {
      GoodIsKept(items[0]);
      GoodItemsAreKept(items[1..]);
    }
  }

  lemma {:induction false} GoodPairsAreKept(done: seq<JPair>, pairs: seq<JPair>)
    requires GoodPairs(pairs) && NoKeyOf(pairs, done)
    ensures (forall i :: 0 <= i < |pairs| ==> Readable(pairs[i].value)) && Stored(done, pairs) == done + pairs
    decreases pairs, 0
  {
    hide Good, Readable, ValidUtf8, Internal;
    if pairs != [] {
      GoodIsKept(pairs[0].value);
      NoKeyOfRest(pairs, done);
      GoodPairsAreKept(done + [pairs[0]], pairs[1..]);
      assert done + pairs == done + [pairs[0]] + pairs[1..];
    }
  }

  /** Whatever can be written is read back, wherever it is in a text. */
  lemma ValueIsRead(t: seq<Octet>, i: nat, v: Json, depth: nat, fl: Floats)
    requires Good(v) && depth + Depth(v) <= MAX_DEPTH
    requires HasAt(t, i, Written(v, fl)) && Ends(t, i + |Written(v, fl)|)
    ensures ParseValue(t, i, depth, fl) == Ok(v, i + |Written(v, fl)|)
  {
    hide Written, ParseValue, Good, Readable, Depth, Ends, HasAt;
    GoodIsKept(v);
    ReadableIsRead(t, i, v, depth, fl);
  }

  /** What is written is a document, which is what is kept of the value. */
  lemma ReadableRoundTrip(v: Json, fl: Floats)
    requires Readable(v) && Depth(v) <= MAX_DEPTH
    ensures ParseDocument(Written(v, fl), fl) == Accepted(Kept(v))
  {
    hide Written, Readable, Depth, ParseValue, Kept;
    var t := Written(v, fl);
    WrittenStart(v, fl);
    NoSpace(t, 0);
    assert t[0..0 + |t|] == t;
    ReadableIsRead(t, 0, v, 0, fl);
  }

  /** Writing a value and parsing the text gives the value back, keys in the same order. */
  lemma RoundTrip(v: Json, fl: Floats)
    requires Good(v) && Depth(v) <= MAX_DEPTH
    ensures ParseDocument(Written(v, fl), fl) == Accepted(v)
  {
    hide Written, Good, Readable, Depth, ParseDocument;
    GoodIsKept(v);
    ReadableRoundTrip(v, fl);
  }
}
