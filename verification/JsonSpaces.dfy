/** JSON texts as other programs write them (RFC 8259): tokens, with white space before and behind
  each of them.  Tokens and white space are spelled out here, and not taken from the parser. */
module JsonSpaces {
  import opened Text
  import opened Json

  function Code(c: char): Octet { if c as int < 256 then (c as int) as Octet else 0 }

  /** ASCII text. */
  function Ascii(s: string): (r: seq<Octet>)
    ensures |r| == |s| && forall i :: 0 <= i < |s| ==> r[i] == Code(s[i])
  {
    seq(|s|, i requires 0 <= i < |s| => Code(s[i]))
  }

  /** White space (section 2): blank, tab, line feed and carriage return. */
  predicate Blank(c: Octet) { c == 0x20 || c == 0x09 || c == 0x0A || c == 0x0D }

  predicate Blanks(s: seq<Octet>) { forall i :: 0 <= i < |s| ==> Blank(s[i]) }

  predicate AllBlanks(gaps: seq<seq<Octet>>) { forall i :: 0 <= i < |gaps| ==> Blanks(gaps[i]) }

  // ─── Tokens ────────────────────────────────────────────────────────────────

  function Tokens(v: Json): (r: seq<seq<Octet>>)
    ensures r != []
    decreases v, 1
  {
    match v
    case JNull => [Ascii("null")]
    case JBool(b) => [Ascii(if b then "true" else "false")]
    case JInt(i) => [Decimal(i)]
    case JReal(_) => [[]]
    case JStr(s) => [Quoted(s)]
    case JList(items) => [Ascii("[")] + (if items == [] then [Ascii("]")] else ItemTokens(items))
    case JDict(pairs) => [Ascii("{")] + (if pairs == [] then [Ascii("}")] else PairTokens(pairs))
  }

  /** From an item up to the bracket. */
  function ItemTokens(items: seq<Json>): seq<seq<Octet>>
    requires items != []
    decreases items, 0
  {
    Tokens(items[0]) + (if |items| == 1 then [Ascii("]")] else [Ascii(",")] + ItemTokens(items[1..]))
  }

  /** From a key up to the brace. */
  function PairTokens(pairs: seq<JPair>): seq<seq<Octet>>
    requires pairs != []
    decreases pairs, 0
  {
    [Quoted(pairs[0].key), Ascii(":")]
    + (Tokens(pairs[0].value) + (if |pairs| == 1 then [Ascii("}")] else [Ascii(",")] + PairTokens(pairs[1..])))
  }

  /** Tokens, each behind its white space. */
  function Spread(toks: seq<seq<Octet>>, gaps: seq<seq<Octet>>): seq<Octet>
    requires |toks| == |gaps|
  {
    if toks == [] then [] else gaps[0] + toks[0] + Spread(toks[1..], gaps[1..])
  }

  lemma {:induction false} SpreadJoin(a: seq<seq<Octet>>, b: seq<seq<Octet>>, gaps: seq<seq<Octet>>)
    requires |gaps| == |a| + |b|
    ensures Spread(a + b, gaps) == Spread(a, gaps[..|a|]) + Spread(b, gaps[|a|..])
    decreases |a|
  {
    if a == [] {
      assert a + b == b && gaps[0..] == gaps;
    } else {
      assert (a + b)[1..] == a[1..] + b && gaps[1..][..|a| - 1] == gaps[..|a|][1..]
          && gaps[1..][|a| - 1..] == gaps[|a|..];
      SpreadJoin(a[1..], b, gaps[1..]);
    }
  }

  lemma Marks()
    ensures Ascii("[") == [OPEN_LIST] && Ascii("]") == [CLOSE_LIST] && Ascii("{") == [OPEN_DICT]
    ensures Ascii("}") == [CLOSE_DICT] && Ascii(",") == [COMMA] && Ascii(":") == [COLON]
    ensures !Blank(OPEN_LIST) && !Blank(CLOSE_LIST) && !Blank(OPEN_DICT) && !Blank(CLOSE_DICT)
    ensures !Blank(COMMA) && !Blank(COLON) && !Blank(QUOTE)
    ensures QUOTE == 0x22 && COMMA == 0x2C && COLON == 0x3A && OPEN_LIST == 0x5B && CLOSE_LIST == 0x5D
    ensures OPEN_DICT == 0x7B && CLOSE_DICT == 0x7D
  {
    assert Code('[') == 91;
    assert Code(']') == 93;
    assert Code('{') == 123;
    assert Code('}') == 125;
    assert Code(',') == 44;
    assert Code(':') == 58;
  }

  lemma NullWord()
    ensures Ascii("null") == NULL_TEXT
  {
    assert Code('n') == 110 && Code('u') == 117 && Code('l') == 108;
    hide Code;
    var n := Ascii("null");
    assert n[0] == 110 && n[1] == 117 && n[2] == 108 && n[3] == 108;
  }

  lemma TrueWord()
    ensures Ascii("true") == TRUE_TEXT
  {
    assert Code('t') == 116 && Code('r') == 114;
    assert Code('u') == 117 && Code('e') == 101;
    hide Code;
    var t := Ascii("true");
    assert t[0] == 116 && t[1] == 114 && t[2] == 117 && t[3] == 101;
  }

  lemma FalseWord()
    ensures Ascii("false") == FALSE_TEXT
  {
    assert Code('f') == 102 && Code('a') == 97;
    assert Code('l') == 108 && Code('s') == 115;
    assert Code('e') == 101;
    hide Code;
    var f := Ascii("false");
    assert f[0] == 102 && f[1] == 97 && f[2] == 108 && f[3] == 115 && f[4] == 101;
  }

  lemma Words()
    ensures Ascii("null") == NULL_TEXT && Ascii("true") == TRUE_TEXT && Ascii("false") == FALSE_TEXT
  {
    hide *;
    NullWord();
    TrueWord();
    FalseWord();
  }

  // ─── White space ───────────────────────────────────────────────────────────

  lemma {:induction false} GapIsSkipped(t: seq<Octet>, i: nat, gap: seq<Octet>)
    requires Blanks(gap) && HasAt(t, i, gap) && (i + |gap| < |t| ==> !Blank(t[i + |gap|]))
    ensures SkipSpaces(t, i) == i + |gap|
    decreases |gap|
  {
    if gap != [] {
      assert t[i..i + |gap|][0] == t[i] && Blank(gap[0]);
      assert t[i + 1..i + |gap|] == gap[1..];
      GapIsSkipped(t, i + 1, gap[1..]);
    }
  }

  lemma {:induction false} SkipTwice(t: seq<Octet>, i: nat)
    requires i <= |t|
    ensures SkipSpaces(t, SkipSpaces(t, i)) == SkipSpaces(t, i)
    ensures SkipSpaces(t, i) < |t| ==> !Blank(t[SkipSpaces(t, i)])
    decreases |t| - i
  {
    if i < |t| && IsSpace(t[i]) {
      SkipTwice(t, i + 1);
    }
  }

  /** A token behind its white space. */
  lemma TokenIsNext(t: seq<Octet>, i: nat, toks: seq<seq<Octet>>, gaps: seq<seq<Octet>>)
    requires |toks| == |gaps| && toks != [] && AllBlanks(gaps) && HasAt(t, i, Spread(toks, gaps))
    requires toks[0] != [] && !Blank(toks[0][0])
    ensures var a := i + |gaps[0]|;
            && SkipSpaces(t, i) == a && HasAt(t, a, toks[0]) && a < |t| && t[a] == toks[0][0]
            && HasAt(t, a + |toks[0]|, Spread(toks[1..], gaps[1..])) && AllBlanks(gaps[1..])
            && i + |Spread(toks, gaps)| == a + |toks[0]| + |Spread(toks[1..], gaps[1..])|
  {
    hide SkipSpaces, HasAt;
    var rest := Spread(toks[1..], gaps[1..]);
    assert Spread(toks, gaps) == gaps[0] + (toks[0] + rest);
    HasParts(t, i, gaps[0], toks[0] + rest);
    HasParts(t, i + |gaps[0]|, toks[0], rest);
    HasStart(t, i + |gaps[0]|, toks[0]);
    GapIsSkipped(t, i, gaps[0]);
  }

  // ─── Bytes that cannot stand there ─────────────────────────────────────────

  predicate BeginsValue(c: Octet) {
    c == 0x22 || c == 0x5B || c == 0x7B || c == 0x2D || 0x30 <= c <= 0x39 || c == 0x74 || c == 0x66 || c == 0x6E
  }

  predicate GoesOnNumber(c: Octet) { 0x30 <= c <= 0x39 || c == 0x2E || c == 0x45 || c == 0x65 }

  /** Where a text can break off: before a value; behind a bracket, before an item or the other bracket,
    or, 200 deep, before that only; behind a brace, before a key or the other brace, or that only; before
    another key; behind a key; behind an item or the value of a pair; and behind everything. */
  datatype Place =
    | AtValue | AtItem | AtClosing | AtFirstKey | AtClosingBrace | AtKey | AtColon | BehindItem | BehindPair | AtEnd

  /** The place behind the first `n` tokens of a value, which is `depth` deep. */
  function PlaceIn(v: Json, n: nat, depth: nat): Place
    decreases v, 3
  {
    if n == 0 then AtValue
    else
      match v
      case JList(items) =>
        if n > 1 && items != [] then PlaceInItems(items, n - 1, depth)
        else if items == [] && depth >= 200 then AtClosing
        else AtItem
      case JDict(pairs) =>
        if n > 1 && pairs != [] then PlaceInPairs(pairs, n - 1, depth)
        else if pairs == [] && depth >= 200 then AtClosingBrace
        else AtFirstKey
      case _ => AtEnd
  }

  function PlaceInItems(items: seq<Json>, m: nat, depth: nat): Place
    requires items != []
    decreases items, 2
  {
    var k := |Tokens(items[0])|;
    if m < k then PlaceIn(items[0], m, depth + 1)
    else if m == k then BehindItem
    else if |items| == 1 then AtEnd
    else PlaceInItems(items[1..], m - k - 1, depth)
  }

  function PlaceInPairs(pairs: seq<JPair>, m: nat, depth: nat): Place
    requires pairs != []
    decreases pairs, 2
  {
    if m == 0 then AtKey else if m == 1 then AtColon else PlaceBehindColon(pairs, m - 2, depth)
  }

  function PlaceBehindColon(pairs: seq<JPair>, m: nat, depth: nat): Place
    requires pairs != []
    decreases pairs, 1
  {
    var k := |Tokens(pairs[0].value)|;
    if m < k then PlaceIn(pairs[0].value, m, depth + 1)
    else if m == k then BehindPair
    else if |pairs| == 1 then AtEnd
    else PlaceInPairs(pairs[1..], m - k - 1, depth)
  }

  /** What can come there. */
  predicate Comes(place: Place, c: Octet) {
    match place
    case AtValue => BeginsValue(c)
    case AtItem => BeginsValue(c) || c == 0x5D
    case AtClosing => c == 0x5D
    case AtFirstKey => c == 0x22 || c == 0x7D
    case AtClosingBrace => c == 0x7D
    case AtKey => c == 0x22
    case AtColon => c == 0x3A
    case BehindItem => c == 0x2C || c == 0x5D
    case BehindPair => c == 0x2C || c == 0x7D
    case AtEnd => false
  }

  /** `c` is no white space, cannot come at `place`, and, `joined` to a number, does not go on with it;
    `last` is the byte before. */
  predicate Stray(place: Place, last: Octet, joined: bool, c: Octet) {
    !Blank(c) && !Comes(place, c) && (joined && 0x30 <= last <= 0x39 ==> !GoesOnNumber(c))
  }

  /** The last byte of tokens; at the beginning of a text as behind a comma. */
  function LastByte(toks: seq<seq<Octet>>): Octet {
    if toks == [] || toks[|toks| - 1] == [] then 0x2C else toks[|toks| - 1][|toks[|toks| - 1]| - 1]
  }

  /** Behind the white space at `i` there is a stray byte, or nothing. */
  predicate BreaksOff(t: seq<Octet>, i: nat, place: Place, last: Octet)
    requires i <= |t|
  {
    var j := SkipSpaces(t, i);
    j < |t| ==> Stray(place, last, j == i, t[j])
  }

  // ─── What tokens look like ─────────────────────────────────────────────────

  lemma DecimalEnd(n: int)
    ensures Decimal(n) != [] && !Blank(Decimal(n)[0]) && Decimal(n)[0] != CLOSE_LIST && Decimal(n)[0] != CLOSE_DICT
    ensures IsDigit(Decimal(n)[|Decimal(n)| - 1])
  {
    hide Digits, NumberOf;
    var m: nat := if n < 0 then -n else n;
    DigitsRoundTrip(m);
    assert Decimal(n)[|Decimal(n)| - 1] == Digits(m)[|Digits(m)| - 1];
  }

  lemma QuotedEnd(s: seq<Octet>)
    ensures Quoted(s) != [] && Quoted(s)[0] == QUOTE && Quoted(s)[|Quoted(s)| - 1] == QUOTE
  {
    hide EscapedBytes, ValidUtf8, Sanitised;
  }

  /** The first token begins a value, and the last one ends it, a number with a digit. */
  lemma ValueTokens(v: Json)
    requires Readable(v)
    ensures var w := Tokens(v)[0]; w != [] && !Blank(w[0]) && w[0] != CLOSE_LIST && w[0] != CLOSE_DICT
    ensures IsDigit(LastByte(Tokens(v))) <==> v.JInt?
  {
    hide Quoted, Decimal, ItemTokens, PairTokens, ValidUtf8, Readable, Ascii;
    ReadableIsNotReal(v);
    Marks();
    match v
    case JInt(i) => DecimalEnd(i);
    case JStr(s) => QuotedEnd(s);
    case JList(items) =>
      if items != [] {
        ItemsEnd(items);
        EndOfBoth([Ascii("[")], ItemTokens(items));
      }
    case JDict(pairs) =>
      if pairs != [] {
        PairsEnd(pairs);
        EndOfBoth([Ascii("{")], PairTokens(pairs));
      }
    case _ => Words();
  }

  lemma EndOfBoth(a: seq<seq<Octet>>, b: seq<seq<Octet>>)
    requires b != []
    ensures (a + b)[|a + b| - 1] == b[|b| - 1] && LastByte(a + b) == LastByte(b)
  {
  }

  lemma {:induction false} ItemsEnd(items: seq<Json>)
    requires items != []
    ensures |ItemTokens(items)| > 0 && ItemTokens(items)[|ItemTokens(items)| - 1] == Ascii("]")
    decreases |items|
  {
    hide Tokens;
    if |items| > 1 {
      ItemsEnd(items[1..]);
    }
  }

  lemma {:induction false} PairsEnd(pairs: seq<JPair>)
    requires pairs != []
    ensures |PairTokens(pairs)| > 0 && PairTokens(pairs)[|PairTokens(pairs)| - 1] == Ascii("}")
    decreases |pairs|
  {
    hide Tokens;
    if |pairs| > 1 {
      PairsEnd(pairs[1..]);
    }
  }

  // ─── One turn of the parser ────────────────────────────────────────────────

  lemma NoValue(t: seq<Octet>, i: nat, depth: nat, fl: Floats)
    requires i < |t| ==> !BeginsValue(t[i])
    ensures ParseValue(t, i, depth, fl) == Fail
  {
  }

  lemma ItemsOnce(t: seq<Octet>, i: nat, depth: nat, done: seq<Json>, fl: Floats)
    requires i <= |t|
    ensures var r := ParseValue(t, SkipSpaces(t, i), depth + 1, fl);
            ParseItems(t, i, depth, done, fl)
            == if r.Fail? then Fail
               else
                 var c := SkipSpaces(t, r.next);
                 if c < |t| && t[c] == COMMA then ParseItems(t, c + 1, depth, done + [r.value], fl)
                 else if c < |t| && t[c] == CLOSE_LIST then Ok(JList(done + [r.value]), c + 1)
                 else Fail
  {
    hide ParseValue, SkipSpaces;
  }

  lemma ItemsSkip(t: seq<Octet>, i: nat, depth: nat, done: seq<Json>, fl: Floats)
    requires i <= |t|
    ensures ParseItems(t, SkipSpaces(t, i), depth, done, fl) == ParseItems(t, i, depth, done, fl)
  {
    hide ParseValue, ParseItems, SkipSpaces;
    SkipTwice(t, i);
    ItemsOnce(t, i, depth, done, fl);
    ItemsOnce(t, SkipSpaces(t, i), depth, done, fl);
  }

  lemma ListDispatch(t: seq<Octet>, i: nat, depth: nat, fl: Floats)
    requires depth <= MAX_DEPTH && i < |t| && t[i] == OPEN_LIST
    ensures var j := SkipSpaces(t, i + 1);
            ParseValue(t, i, depth, fl)
            == if j < |t| && t[j] == CLOSE_LIST then Ok(JList([]), j + 1) else ParseItems(t, i + 1, depth, [], fl)
  {
    hide ParseItems, ParsePairs, SkipSpaces, Chars, ParseNumber;
    ItemsSkip(t, i + 1, depth, [], fl);
  }

  lemma PairsOnce(t: seq<Octet>, i: nat, depth: nat, done: seq<JPair>, fl: Floats)
    requires i <= |t|
    ensures var a := SkipSpaces(t, i);
            ParsePairs(t, i, depth, done, fl)
            == if a >= |t| || t[a] != QUOTE then Fail
               else
                 var k := Chars(t, a + 1, []);
                 if k.Fail? then Fail
                 else
                   var c := SkipSpaces(t, k.next);
                   if c >= |t| || t[c] != COLON then Fail
                   else
                     var r := ParseValue(t, SkipSpaces(t, c + 1), depth + 1, fl);
                     if r.Fail? then Fail
                     else
                       var e := SkipSpaces(t, r.next);
                       if e < |t| && t[e] == COMMA then
                         ParsePairs(t, e + 1, depth, Store(done, k.value, r.value), fl)
                       else if e < |t| && t[e] == CLOSE_DICT then Ok(JDict(Store(done, k.value, r.value)), e + 1)
                       else Fail
  {
    hide ParseValue, SkipSpaces, Chars, Store;
  }

  lemma PairsSkip(t: seq<Octet>, i: nat, depth: nat, done: seq<JPair>, fl: Floats)
    requires i <= |t|
    ensures ParsePairs(t, SkipSpaces(t, i), depth, done, fl) == ParsePairs(t, i, depth, done, fl)
  {
    hide ParseValue, ParsePairs, SkipSpaces, Chars, Store;
    SkipTwice(t, i);
    PairsOnce(t, i, depth, done, fl);
    PairsOnce(t, SkipSpaces(t, i), depth, done, fl);
  }

  lemma DictDispatch(t: seq<Octet>, i: nat, depth: nat, fl: Floats)
    requires depth <= MAX_DEPTH && i < |t| && t[i] == OPEN_DICT
    ensures var j := SkipSpaces(t, i + 1);
            ParseValue(t, i, depth, fl)
            == if j < |t| && t[j] == CLOSE_DICT then Ok(JDict([]), j + 1) else ParsePairs(t, i + 1, depth, [], fl)
  {
    hide ParseItems, ParsePairs, SkipSpaces, Chars, ParseNumber;
    PairsSkip(t, i + 1, depth, [], fl);
  }

  // ─── Reading tokens ────────────────────────────────────────────────────────

  /** `toks` are the first tokens of `all`, and `t` has them from `i` on, each behind white space. */
  predicate Begun(t: seq<Octet>, i: nat, toks: seq<seq<Octet>>, all: seq<seq<Octet>>, gaps: seq<seq<Octet>>) {
    i <= |t| && toks <= all && |gaps| == |toks| && AllBlanks(gaps) && HasAt(t, i, Spread(toks, gaps))
  }

  /** The first tokens, and those behind them. */
  lemma BegunParts(t: seq<Octet>, i: nat, toks: seq<seq<Octet>>, a: seq<seq<Octet>>, b: seq<seq<Octet>>,
                   gaps: seq<seq<Octet>>)
    requires Begun(t, i, toks, a + b, gaps) && |toks| >= |a|
    ensures toks[..|a|] == a && Begun(t, i, a, a, gaps[..|a|])
    ensures Begun(t, i + |Spread(a, gaps[..|a|])|, toks[|a|..], b, gaps[|a|..])
    ensures |Spread(toks, gaps)| == |Spread(a, gaps[..|a|])| + |Spread(toks[|a|..], gaps[|a|..])|
    ensures toks == a + b <==> toks[|a|..] == b
    ensures |toks| > |a| ==> LastByte(toks) == LastByte(toks[|a|..])
  {
    hide HasAt, LastByte;
    var rest := toks[|a|..];
    assert toks == a + rest;
    SpreadJoin(a, rest, gaps);
    HasParts(t, i, Spread(a, gaps[..|a|]), Spread(rest, gaps[|a|..]));
    HasAtFits(t, i, Spread(a, gaps[..|a|]));
    if rest != [] {
      EndOfBoth(a, rest);
    }
  }

  lemma HasAtFits(t: seq<Octet>, i: nat, w: seq<Octet>)
    requires HasAt(t, i, w)
    ensures i + |w| <= |t|
  {
  }

  /** Part of the first tokens. */
  lemma BegunBefore(t: seq<Octet>, i: nat, toks: seq<seq<Octet>>, a: seq<seq<Octet>>, b: seq<seq<Octet>>,
                    gaps: seq<seq<Octet>>)
    requires Begun(t, i, toks, a + b, gaps) && |toks| < |a|
    ensures Begun(t, i, toks, a, gaps) && toks != a && toks != a + b
  {
    hide HasAt;
    assert forall k :: 0 <= k < |toks| ==> toks[k] == (a + b)[k] == a[k];
  }

  lemma PrefixTail(toks: seq<seq<Octet>>, all: seq<seq<Octet>>)
    requires toks != [] && toks <= all
    ensures toks[0] == all[0] && toks[1..] <= all[1..] && (toks == all <==> toks[1..] == all[1..])
  {
    assert toks == [toks[0]] + toks[1..] && all == [all[0]] + all[1..];
  }

  lemma LastOfTail(toks: seq<seq<Octet>>)
    requires |toks| > 1
    ensures LastByte(toks) == LastByte(toks[1..])
  {
    assert toks[1..][|toks| - 2] == toks[|toks| - 1];
  }

  lemma LastOfOne(toks: seq<seq<Octet>>)
    requires |toks| == 1 && toks[0] != []
    ensures LastByte(toks) == toks[0][|toks[0]| - 1] && toks[1..] == []
  {
  }

  lemma BegunFits(t: seq<Octet>, i: nat, toks: seq<seq<Octet>>, all: seq<seq<Octet>>, gaps: seq<seq<Octet>>)
    requires Begun(t, i, toks, all, gaps)
    ensures |gaps| == |toks| && toks <= all && i + |Spread(toks, gaps)| <= |t|
  {
  }

  /** The next token, behind its white space. */
  lemma NextToken(t: seq<Octet>, i: nat, toks: seq<seq<Octet>>, all: seq<seq<Octet>>, gaps: seq<seq<Octet>>)
    requires Begun(t, i, toks, all, gaps) && toks != [] && toks[0] != [] && !Blank(toks[0][0])
    ensures var a := SkipSpaces(t, i);
            && all != [] && toks[0] == all[0] && i <= a < |t| && t[a] == toks[0][0] && HasAt(t, a, toks[0])
            && Begun(t, a + |toks[0]|, toks[1..], all[1..], gaps[1..])
            && i + |Spread(toks, gaps)| == a + |toks[0]| + |Spread(toks[1..], gaps[1..])|
            && (toks == all <==> toks[1..] == all[1..])
    ensures |toks| > 1 ==> LastByte(toks) == LastByte(toks[1..])
    ensures |toks| == 1 ==>
              LastByte(toks) == toks[0][|toks[0]| - 1] && toks[1..] == [] && |Spread(toks[1..], gaps[1..])| == 0
  {
    hide HasAt, SkipSpaces, Blank, LastByte, AllBlanks, Spread;
    TokenIsNext(t, i, toks, gaps);
    PrefixTail(toks, all);
    var a := SkipSpaces(t, i);
    HasAtFits(t, a, toks[0]);
    if |toks| > 1 {
      LastOfTail(toks);
    } else {
      LastOfOne(toks);
      NoTokens(gaps[1..]);
    }
  }

  /** Where the white space in front of a token starts, no number goes on. */
  lemma GapEnds(t: seq<Octet>, i: nat, toks: seq<seq<Octet>>, all: seq<seq<Octet>>, gaps: seq<seq<Octet>>)
    requires Begun(t, i, toks, all, gaps) && toks != []
    requires toks[0] == Ascii(",") || toks[0] == Ascii("]") || toks[0] == Ascii("}")
    ensures Ends(t, i)
  {
    Marks();
    hide Ascii;
    TokenIsNext(t, i, toks, gaps);
    if i < SkipSpaces(t, i) {
      BlankFirst(t, i);
    }
  }

  lemma BlankFirst(t: seq<Octet>, i: nat)
    requires i <= |t| && i < SkipSpaces(t, i)
    ensures i < |t| && Blank(t[i])
  {
  }

  lemma StrayEnds(t: seq<Octet>, i: nat, place: Place, last: Octet)
    requires i <= |t| && BreaksOff(t, i, place, last) && IsDigit(last)
    ensures Ends(t, i)
  {
    if i < SkipSpaces(t, i) {
      BlankFirst(t, i);
    }
  }

  /** A whole value is read, and a value that breaks off at a stray byte is not. */
  lemma {:induction false} ValueText(t: seq<Octet>, i: nat, v: Json, toks: seq<seq<Octet>>, gaps: seq<seq<Octet>>,
                                     depth: nat, fl: Floats)
    requires Readable(v) && depth + Depth(v) <= MAX_DEPTH
    requires Begun(t, i, toks, Tokens(v), gaps) && toks != []
    requires toks == Tokens(v) && v.JInt? ==> Ends(t, i + |Spread(toks, gaps)|)
    requires toks != Tokens(v) ==>
               BreaksOff(t, i + |Spread(toks, gaps)|, PlaceIn(v, |toks|, depth), LastByte(toks))
    ensures ParseValue(t, SkipSpaces(t, i), depth, fl)
            == if toks == Tokens(v) then Ok(Kept(v), i + |Spread(toks, gaps)|) else Fail
    decreases v, 3
  {
    hide *;
    ValueTokens(v);
    BegunFits(t, i, toks, Tokens(v), gaps);
    match v
    case JList(items) => ListText(t, i, items, toks, gaps, depth, fl);
    case JDict(pairs) => DictText(t, i, pairs, toks, gaps, depth, fl);
    case _ =>
      LeafTokens(v, fl);
      PrefixTail(toks, Tokens(v));
      NextToken(t, i, toks, Tokens(v), gaps);
      LeafText(t, SkipSpaces(t, i), v, depth, fl);
  }

  /** Values of one token. */
  lemma LeafTokens(v: Json, fl: Floats)
    requires Readable(v) && !v.JList? && !v.JDict?
    ensures Tokens(v) == [Written(v, fl)] && Tokens(v)[1..] == [] && Kept(v) == v && Depth(v) == 0
  {
    hide Quoted, Decimal, ValidUtf8, Readable, Ascii;
    ReadableIsNotReal(v);
    Words();
  }

  lemma LeafText(t: seq<Octet>, i: nat, v: Json, depth: nat, fl: Floats)
    requires Readable(v) && !v.JList? && !v.JDict? && depth <= MAX_DEPTH && HasAt(t, i, Written(v, fl))
    requires v.JInt? ==> Ends(t, i + |Written(v, fl)|)
    ensures ParseValue(t, i, depth, fl) == Ok(v, i + |Written(v, fl)|)
  {
    hide *;
    match v
    case JInt(n) =>
      IntegerParts(v, fl);
      IntegerIsRead(t, i, n, fl);
      NumberDispatch(t, i, depth, fl);
    case JStr(s) =>
      StringParts(v, fl);
      StringIsRead(t, i, s);
      StringDispatch(t, i, depth, fl);
    case JReal(_) => ReadableIsNotReal(v);
    case _ => LiteralIsRead(t, i, v, depth, fl);
  }

  lemma {:induction false} ListText(t: seq<Octet>, i: nat, items: seq<Json>, toks: seq<seq<Octet>>,
                                    gaps: seq<seq<Octet>>, depth: nat, fl: Floats)
    requires Readable(JList(items)) && depth + Depth(JList(items)) <= MAX_DEPTH
    requires Begun(t, i, toks, Tokens(JList(items)), gaps) && toks != []
    requires toks != Tokens(JList(items)) ==>
               BreaksOff(t, i + |Spread(toks, gaps)|, PlaceIn(JList(items), |toks|, depth), LastByte(toks))
    ensures ParseValue(t, SkipSpaces(t, i), depth, fl)
            == if toks == Tokens(JList(items)) then Ok(Kept(JList(items)), i + |Spread(toks, gaps)|) else Fail
    decreases items, 2
  {
    hide *;
    ListTokens(items);
    KeptList(items);
    ListParts(items, fl);
    Marks();
    BegunFits(t, i, toks, Tokens(JList(items)), gaps);
    PrefixTail(toks, Tokens(JList(items)));
    NextToken(t, i, toks, Tokens(JList(items)), gaps);
    var a := SkipSpaces(t, i);
    var all, more, gaps1 := Tokens(JList(items))[1..], toks[1..], gaps[1..];
    var place, last := PlaceIn(JList(items), |toks|, depth), LastByte(toks);
    PlaceInList(items, |toks|, depth);
    ListDispatch(t, a, depth, fl);
    BegunFits(t, a + 1, more, all, gaps1);
    if items == [] {
      if more == [] {
        NoItemsBreak(t, a + 1, depth, fl, place, last);
      } else {
        NextToken(t, a + 1, more, all, gaps1);
      }
    } else {
      ItemsText(t, a + 1, items, more, gaps1, depth, [], fl, place, last);
      assert [] + KeptItems(items) == KeptItems(items);
      if more == [] {
        OpenStray(t, a + 1, place, last);
      } else {
        FirstItemToken(items);
        PrefixTail(more, all);
        NextToken(t, a + 1, more, all, gaps1);
      }
    }
  }

  lemma KeptList(items: seq<Json>)
    ensures Kept(JList(items)) == JList(KeptItems(items)) && KeptItems([]) == []
    ensures items != [] ==> KeptItems(items) == [Kept(items[0])] + KeptItems(items[1..])
  {
  }

  lemma KeptDict(done: seq<JPair>, pairs: seq<JPair>)
    ensures Kept(JDict(pairs)) == JDict(Stored([], pairs)) && Stored(done, []) == done
    ensures pairs != [] ==> Stored(done, pairs) == Stored(Store(done, pairs[0].key, Kept(pairs[0].value)), pairs[1..])
  {
    hide Store;
  }

  lemma NoTokens(gaps: seq<seq<Octet>>)
    requires gaps == []
    ensures Spread([], gaps) == []
  {
  }

  lemma ListTokens(items: seq<Json>)
    ensures Tokens(JList(items)) == [Ascii("[")] + (if items == [] then [Ascii("]")] else ItemTokens(items))
    ensures Tokens(JList(items))[1..] == if items == [] then [Ascii("]")] else ItemTokens(items)
  {
    hide ItemTokens, Ascii;
  }

  lemma FirstItemToken(items: seq<Json>)
    requires items != [] && ReadableItems(items)
    ensures ItemTokens(items) != []
    ensures var w := ItemTokens(items)[0]; w != [] && !Blank(w[0]) && w[0] != CLOSE_LIST
  {
    hide Readable;
    ItemsParts(items);
    ValueTokens(items[0]);
    assert ItemTokens(items)[0] == Tokens(items[0])[0];
  }

  lemma OpenStray(t: seq<Octet>, i: nat, place: Place, last: Octet)
    requires i <= |t| && BreaksOff(t, i, place, last)
    ensures var j := SkipSpaces(t, i);
            j < |t| ==>
              && (place.AtItem? || place.AtClosing? ==> t[j] != CLOSE_LIST)
              && (place.AtFirstKey? || place.AtClosingBrace? ==> t[j] != CLOSE_DICT)
              && (place.AtFirstKey? || place.AtKey? ==> t[j] != QUOTE)
    ensures place.AtItem? || place.AtValue? ==>
              forall d: nat, fl: Floats :: ParseValue(t, SkipSpaces(t, i), d, fl) == Fail
  {
    hide ParseValue, SkipSpaces;
    if place.AtItem? || place.AtValue? {
      forall d: nat, fl: Floats
        ensures ParseValue(t, SkipSpaces(t, i), d, fl) == Fail
      {
        NoValue(t, SkipSpaces(t, i), d, fl);
      }
    }
  }

  lemma ItemsBreak(t: seq<Octet>, i: nat, depth: nat, done: seq<Json>, fl: Floats, place: Place, last: Octet)
    requires i <= |t| && BreaksOff(t, i, place, last) && (place.AtItem? || place.AtValue?)
    ensures ParseItems(t, i, depth, done, fl) == Fail
  {
    hide ParseValue, SkipSpaces, ParseItems, BreaksOff;
    OpenStray(t, i, place, last);
    ItemsOnce(t, i, depth, done, fl);
  }

  lemma NoRoom(t: seq<Octet>, i: nat, depth: nat, fl: Floats)
    requires depth > MAX_DEPTH
    ensures ParseValue(t, i, depth, fl) == Fail
  {
  }

  /** Behind the bracket of a list without items; 200 deep there is no room for an item. */
  lemma NoItemsBreak(t: seq<Octet>, i: nat, depth: nat, fl: Floats, place: Place, last: Octet)
    requires i <= |t| && BreaksOff(t, i, place, last)
    requires place == if depth >= MAX_DEPTH then AtClosing else AtItem
    ensures SkipSpaces(t, i) < |t| ==> t[SkipSpaces(t, i)] != CLOSE_LIST
    ensures ParseItems(t, i, depth, [], fl) == Fail
  {
    hide *;
    OpenStray(t, i, place, last);
    if place.AtItem? {
      ItemsBreak(t, i, depth, [], fl, place, last);
    } else {
      ItemsOnce(t, i, depth, [], fl);
      NoRoom(t, SkipSpaces(t, i), depth + 1, fl);
    }
  }

  lemma NoPairsBreak(t: seq<Octet>, i: nat, depth: nat, fl: Floats, place: Place, last: Octet)
    requires i <= |t| && BreaksOff(t, i, place, last)
    requires place == if depth >= MAX_DEPTH then AtClosingBrace else AtFirstKey
    ensures SkipSpaces(t, i) < |t| ==> t[SkipSpaces(t, i)] != CLOSE_DICT
    ensures ParsePairs(t, i, depth, [], fl) == Fail
  {
    hide *;
    OpenStray(t, i, place, last);
    if place.AtFirstKey? {
      PairsBreak(t, i, depth, [], fl, place, last);
    } else {
      PairsOnce(t, i, depth, [], fl);
      var k := SkipSpaces(t, i);
      if k < |t| {
        var c := Chars(t, k + 1, []);
        if c.Ok? && SkipSpaces(t, c.next) < |t| {
          NoRoom(t, SkipSpaces(t, SkipSpaces(t, c.next) + 1), depth + 1, fl);
        }
      }
    }
  }

  /** A stray byte behind a key or a value. */
  lemma StrayBehind(t: seq<Octet>, i: nat, place: Place, last: Octet)
    requires i <= |t| && BreaksOff(t, i, place, last)
    ensures var c := SkipSpaces(t, i);
            c < |t| ==>
              && (place.AtColon? ==> t[c] != COLON)
              && (place.BehindItem? ==> t[c] != COMMA && t[c] != CLOSE_LIST)
              && (place.BehindPair? ==> t[c] != COMMA && t[c] != CLOSE_DICT)
  {
    hide SkipSpaces;
  }

  lemma PlaceInList(items: seq<Json>, n: nat, depth: nat)
    requires n > 0
    ensures var place := PlaceIn(JList(items), n, depth);
            && (items == [] ==> place == if depth >= MAX_DEPTH then AtClosing else AtItem)
            && (items != [] ==> place == if n == 1 then AtItem else PlaceInItems(items, n - 1, depth))
  {
    hide PlaceInItems;
  }

  lemma PlaceInDict(pairs: seq<JPair>, n: nat, depth: nat)
    requires n > 0
    ensures var place := PlaceIn(JDict(pairs), n, depth);
            && (pairs == [] ==> place == if depth >= MAX_DEPTH then AtClosingBrace else AtFirstKey)
            && (pairs != [] ==> place == if n == 1 then AtFirstKey else PlaceInPairs(pairs, n - 1, depth))
  {
    hide PlaceInPairs;
  }

  /** Behind an item, and behind the comma. */
  lemma PlaceOfItems(items: seq<Json>, m: nat, depth: nat)
    requires items != []
    ensures var k, place := |Tokens(items[0])|, PlaceInItems(items, m, depth);
            && (m < k ==> place == PlaceIn(items[0], m, depth + 1)) && (m == k ==> place == BehindItem)
            && (m > k && |items| > 1 ==> place == PlaceInItems(items[1..], m - k - 1, depth))
    ensures |items| > 1 ==> PlaceInItems(items[1..], 0, depth) == AtValue
  {
    hide Tokens;
  }

  lemma PlaceOfPairs(pairs: seq<JPair>, m: nat, depth: nat)
    requires pairs != []
    ensures var place := PlaceInPairs(pairs, m, depth);
            place == if m == 0 then AtKey else if m == 1 then AtColon else PlaceBehindColon(pairs, m - 2, depth)
    ensures PlaceBehindColon(pairs, 0, depth) == AtValue
  {
    hide Tokens;
  }

  lemma PlaceOfValue(pairs: seq<JPair>, m: nat, depth: nat)
    requires pairs != []
    ensures var k, place := |Tokens(pairs[0].value)|, PlaceBehindColon(pairs, m, depth);
            && (m < k ==> place == PlaceIn(pairs[0].value, m, depth + 1)) && (m == k ==> place == BehindPair)
            && (m > k && |pairs| > 1 ==> place == PlaceInPairs(pairs[1..], m - k - 1, depth))
    ensures |pairs| > 1 ==> PlaceInPairs(pairs[1..], 0, depth) == AtKey
  {
    hide Tokens, PlaceIn;
  }

  /** Items up to the bracket, from the first one on; `last` is the last byte of the tokens. */
  lemma {:induction false} ItemsText(t: seq<Octet>, i: nat, items: seq<Json>, toks: seq<seq<Octet>>,
                                     gaps: seq<seq<Octet>>, depth: nat, done: seq<Json>, fl: Floats, place: Place,
                                     last: Octet)
    requires items != [] && ReadableItems(items) && depth + DepthOfItems(items) <= MAX_DEPTH
    requires Begun(t, i, toks, ItemTokens(items), gaps)
    requires if toks == [] then place.AtItem? || place.AtValue?
             else place == PlaceInItems(items, |toks|, depth) && last == LastByte(toks)
    requires toks != ItemTokens(items) ==>
               BreaksOff(t, i + |Spread(toks, gaps)|, place, last)
    ensures ParseItems(t, i, depth, done, fl)
            == if toks == ItemTokens(items) then Ok(JList(done + KeptItems(items)), i + |Spread(toks, gaps)|) else Fail
    decreases items, 1
  {
    hide *;
    ItemsParts(items);
    ItemSplits(items);
    ValueTokens(items[0]);
    KeptList(items);
    KeptList(items[1..]);
    Marks();
    PlaceOfItems(items, |toks|, depth);
    var first, tail := Tokens(items[0]), ItemTail(items);
    BegunFits(t, i, toks, first + tail, gaps);
    ItemsOnce(t, i, depth, done, fl);
    if toks == [] {
      NoTokens(gaps);
      ItemsBreak(t, i, depth, done, fl, place, last);
    } else if |toks| < |first| {
      BegunBefore(t, i, toks, first, tail, gaps);
      ValueText(t, i, items[0], toks, gaps, depth + 1, fl);
    } else {
      BegunParts(t, i, toks, first, tail, gaps);
      var g0, rest, gaps1 := gaps[..|first|], toks[|first|..], gaps[|first|..];
      var b := i + |Spread(first, g0)|;
      BegunFits(t, b, rest, tail, gaps1);
      if rest == [] {
        NoTokens(gaps1);
        LastOfFirst(toks, first);
        if items[0].JInt? {
          StrayEnds(t, b, place, last);
        }
        ValueText(t, i, items[0], first, g0, depth + 1, fl);
        StrayBehind(t, b, place, last);
      } else {
        PrefixTail(rest, tail);
        GapEnds(t, b, rest, tail, gaps1);
        ValueText(t, i, items[0], first, g0, depth + 1, fl);
        NextToken(t, b, rest, tail, gaps1);
        var c := SkipSpaces(t, b);
        BegunFits(t, c + 1, rest[1..], tail[1..], gaps1[1..]);
        assert done + [Kept(items[0])] + KeptItems(items[1..]) == done + KeptItems(items);
        if |items| > 1 {
          ItemsText(t, c + 1, items[1..], rest[1..], gaps1[1..], depth, done + [Kept(items[0])], fl, place, last);
        } else {
          assert items[1..] == [] && done + [Kept(items[0])] == done + KeptItems(items);
        }
      }
    }
  }

  lemma LastOfFirst(toks: seq<seq<Octet>>, first: seq<seq<Octet>>)
    requires |toks| >= |first| && toks[..|first|] == first && toks[|first|..] == []
    ensures toks == first
  {
  }

  /** What comes behind the first item. */
  function ItemTail(items: seq<Json>): seq<seq<Octet>>
    requires items != []
  {
    if |items| == 1 then [Ascii("]")] else [Ascii(",")] + ItemTokens(items[1..])
  }

  lemma ItemSplits(items: seq<Json>)
    requires items != []
    ensures ItemTokens(items) == Tokens(items[0]) + ItemTail(items) && ItemTail(items) != []
    ensures |items| > 1 ==> ItemTail(items)[0] == Ascii(",") && ItemTail(items)[1..] == ItemTokens(items[1..])
    ensures |items| == 1 ==> ItemTail(items)[0] == Ascii("]") && ItemTail(items)[1..] == []
  {
    hide Tokens, Ascii;
  }

  lemma {:induction false} DictText(t: seq<Octet>, i: nat, pairs: seq<JPair>, toks: seq<seq<Octet>>,
                                    gaps: seq<seq<Octet>>, depth: nat, fl: Floats)
    requires Readable(JDict(pairs)) && depth + Depth(JDict(pairs)) <= MAX_DEPTH
    requires Begun(t, i, toks, Tokens(JDict(pairs)), gaps) && toks != []
    requires toks != Tokens(JDict(pairs)) ==>
               BreaksOff(t, i + |Spread(toks, gaps)|, PlaceIn(JDict(pairs), |toks|, depth), LastByte(toks))
    ensures ParseValue(t, SkipSpaces(t, i), depth, fl)
            == if toks == Tokens(JDict(pairs)) then Ok(Kept(JDict(pairs)), i + |Spread(toks, gaps)|) else Fail
    decreases pairs, 3
  {
    hide *;
    DictTokens(pairs);
    Marks();
    BegunFits(t, i, toks, Tokens(JDict(pairs)), gaps);
    PrefixTail(toks, Tokens(JDict(pairs)));
    NextToken(t, i, toks, Tokens(JDict(pairs)), gaps);
    var a := SkipSpaces(t, i);
    DictParts(pairs, fl);
    DictDispatch(t, a, depth, fl);
    PlaceInDict(pairs, |toks|, depth);
    InsideDict(t, a + 1, pairs, toks[1..], gaps[1..], depth, fl, PlaceIn(JDict(pairs), |toks|, depth), LastByte(toks));
  }

  /** Behind the brace. */
  lemma {:induction false} InsideDict(t: seq<Octet>, i: nat, pairs: seq<JPair>, toks: seq<seq<Octet>>,
                                      gaps: seq<seq<Octet>>, depth: nat, fl: Floats, place: Place, last: Octet)
    requires ReadablePairs(pairs) && depth + DepthOfPairs(pairs) <= MAX_DEPTH
    requires Begun(t, i, toks, if pairs == [] then [Ascii("}")] else PairTokens(pairs), gaps)
    requires if pairs == [] then toks == [] ==> place == if depth >= MAX_DEPTH then AtClosingBrace else AtFirstKey
             else place == if toks == [] then AtFirstKey else PlaceInPairs(pairs, |toks|, depth)
    requires toks != [] ==> last == LastByte(toks)
    requires toks != (if pairs == [] then [Ascii("}")] else PairTokens(pairs)) ==>
               BreaksOff(t, i + |Spread(toks, gaps)|, place, last)
    ensures i <= |t|
    ensures var j := SkipSpaces(t, i);
            (if j < |t| && t[j] == CLOSE_DICT then Ok(JDict([]), j + 1) else ParsePairs(t, i, depth, [], fl))
            == if toks == (if pairs == [] then [Ascii("}")] else PairTokens(pairs)) then
                 Ok(Kept(JDict(pairs)), i + |Spread(toks, gaps)|)
               else Fail
    decreases pairs, 2
  {
    hide *;
    Marks();
    KeptDict([], pairs);
    var all := if pairs == [] then [Ascii("}")] else PairTokens(pairs);
    BegunFits(t, i, toks, all, gaps);
    if pairs == [] {
      if toks == [] {
        NoTokens(gaps);
        NoPairsBreak(t, i, depth, fl, place, last);
      } else {
        PrefixTail(toks, all);
        NextToken(t, i, toks, all, gaps);
      }
    } else {
      PairsText(t, i, pairs, toks, gaps, depth, [], fl, place, last);
      if toks == [] {
        NoTokens(gaps);
        OpenStray(t, i, place, last);
      } else {
        PairSplits(pairs);
        QuotedEnd(pairs[0].key);
        PrefixTail(toks, all);
        NextToken(t, i, toks, all, gaps);
      }
    }
  }

  lemma DictTokens(pairs: seq<JPair>)
    ensures Tokens(JDict(pairs)) == [Ascii("{")] + (if pairs == [] then [Ascii("}")] else PairTokens(pairs))
    ensures Tokens(JDict(pairs))[1..] == if pairs == [] then [Ascii("}")] else PairTokens(pairs)
  {
    hide PairTokens, Ascii;
  }

  lemma PairsBreak(t: seq<Octet>, i: nat, depth: nat, done: seq<JPair>, fl: Floats, place: Place, last: Octet)
    requires i <= |t| && BreaksOff(t, i, place, last) && (place.AtFirstKey? || place.AtKey?)
    ensures ParsePairs(t, i, depth, done, fl) == Fail
  {
    hide ParseValue, SkipSpaces, ParsePairs, BreaksOff, Chars, Store;
    OpenStray(t, i, place, last);
    PairsOnce(t, i, depth, done, fl);
  }

  /** What comes behind the first colon. */
  function PairRest(pairs: seq<JPair>): seq<seq<Octet>>
    requires pairs != []
  {
    Tokens(pairs[0].value) + PairTail(pairs)
  }

  function PairTail(pairs: seq<JPair>): seq<seq<Octet>>
    requires pairs != []
  {
    if |pairs| == 1 then [Ascii("}")] else [Ascii(",")] + PairTokens(pairs[1..])
  }

  lemma PairSplits(pairs: seq<JPair>)
    requires pairs != []
    ensures PairTokens(pairs) == [Quoted(pairs[0].key)] + ([Ascii(":")] + PairRest(pairs))
    ensures PairTokens(pairs)[0] == Quoted(pairs[0].key) && PairTokens(pairs)[1..] == [Ascii(":")] + PairRest(pairs)
    ensures PairTokens(pairs)[1..][0] == Ascii(":") && PairTokens(pairs)[1..][1..] == PairRest(pairs)
  {
    hide Tokens, Ascii, Quoted, PairTail;
    var rest := PairRest(pairs);
    PairRestIs(pairs);
    assert [Ascii(":")] + rest == [Ascii(":")] + rest;
    TwoHeads(Quoted(pairs[0].key), Ascii(":"), rest);
  }

  lemma PairRestIs(pairs: seq<JPair>)
    requires pairs != []
    ensures PairTokens(pairs) == [Quoted(pairs[0].key), Ascii(":")] + PairRest(pairs)
  {
    hide Tokens, Ascii, Quoted;
  }

  lemma TwoHeads(a: seq<Octet>, b: seq<Octet>, rest: seq<seq<Octet>>)
    ensures var s := [a, b] + rest;
            s == [a] + ([b] + rest) && s[0] == a && s[1..] == [b] + rest && s[1..][0] == b && s[1..][1..] == rest
  {
  }

  lemma PairTailIs(pairs: seq<JPair>)
    requires pairs != []
    ensures PairTail(pairs) != []
    ensures |pairs| > 1 ==> PairTail(pairs)[0] == Ascii(",") && PairTail(pairs)[1..] == PairTokens(pairs[1..])
    ensures |pairs| == 1 ==> PairTail(pairs)[0] == Ascii("}") && PairTail(pairs)[1..] == []
  {
    hide Tokens, Ascii, Quoted, PairTokens;
  }

  /** Pairs up to the brace, from the first key on; `last` is the last byte of the tokens. */
  lemma {:induction false} PairsText(t: seq<Octet>, i: nat, pairs: seq<JPair>, toks: seq<seq<Octet>>,
                                     gaps: seq<seq<Octet>>, depth: nat, done: seq<JPair>, fl: Floats, place: Place,
                                     last: Octet)
    requires pairs != [] && ReadablePairs(pairs) && depth + DepthOfPairs(pairs) <= MAX_DEPTH
    requires Begun(t, i, toks, PairTokens(pairs), gaps)
    requires if toks == [] then place.AtFirstKey? || place.AtKey?
             else place == PlaceInPairs(pairs, |toks|, depth) && last == LastByte(toks)
    requires toks != PairTokens(pairs) ==>
               BreaksOff(t, i + |Spread(toks, gaps)|, place, last)
    ensures ParsePairs(t, i, depth, done, fl)
            == if toks == PairTokens(pairs) then Ok(JDict(Stored(done, pairs)), i + |Spread(toks, gaps)|) else Fail
    decreases pairs, 1
  {
    hide *;
    PairsParts(pairs);
    PairSplits(pairs);
    QuotedEnd(pairs[0].key);
    Marks();
    var all := PairTokens(pairs);
    PlaceOfPairs(pairs, |toks|, depth);
    BegunFits(t, i, toks, all, gaps);
    PairsOnce(t, i, depth, done, fl);
    if toks == [] {
      NoTokens(gaps);
      PairsBreak(t, i, depth, done, fl, place, last);
    } else {
      PrefixTail(toks, all);
      NextToken(t, i, toks, all, gaps);
      var a := SkipSpaces(t, i);
      StringIsRead(t, a, pairs[0].key);
      var k := a + |Quoted(pairs[0].key)|;
      BegunFits(t, k, toks[1..], all[1..], gaps[1..]);
      if toks[1..] == [] {
        StrayBehind(t, k, place, last);
      } else {
        PrefixTail(toks[1..], all[1..]);
        NextToken(t, k, toks[1..], all[1..], gaps[1..]);
        var c := SkipSpaces(t, k);
        BegunFits(t, c + 1, toks[1..][1..], all[1..][1..], gaps[1..][1..]);
        PairValueText(t, c + 1, pairs, toks[1..][1..], gaps[1..][1..], depth, done, fl, place,
                      last);
      }
    }
  }

  /** The same from behind the first colon on. */
  lemma {:induction false} PairValueText(t: seq<Octet>, i: nat, pairs: seq<JPair>, toks: seq<seq<Octet>>,
                                         gaps: seq<seq<Octet>>, depth: nat, done: seq<JPair>, fl: Floats,
                                         place: Place, last: Octet)
    requires pairs != [] && ReadablePairs(pairs) && depth + DepthOfPairs(pairs) <= MAX_DEPTH
    requires Begun(t, i, toks, PairRest(pairs), gaps)
    requires place == PlaceBehindColon(pairs, |toks|, depth) && (toks != [] ==> last == LastByte(toks))
    requires toks != PairRest(pairs) ==>
               BreaksOff(t, i + |Spread(toks, gaps)|, place, last)
    ensures var r := ParseValue(t, SkipSpaces(t, i), depth + 1, fl);
            && (r.Fail? ==> toks != PairRest(pairs))
            && (r.Ok? ==>
                  var e := SkipSpaces(t, r.next);
                  var done1 := Store(done, pairs[0].key, r.value);
                  && (e < |t| && t[e] == COMMA ==>
                        ParsePairs(t, e + 1, depth, done1, fl)
                        == if toks == PairRest(pairs) then Ok(JDict(Stored(done, pairs)), i + |Spread(toks, gaps)|)
                           else Fail)
                  && (e < |t| && t[e] == CLOSE_DICT ==>
                        && toks == PairRest(pairs) && done1 == Stored(done, pairs)
                        && e + 1 == i + |Spread(toks, gaps)|)
                  && (e >= |t| || (t[e] != COMMA && t[e] != CLOSE_DICT) ==> toks != PairRest(pairs)))
    decreases pairs, 0
  {
    hide *;
    PairsParts(pairs);
    PairTailIs(pairs);
    PairRestParts(pairs);
    ValueTokens(pairs[0].value);
    Marks();
    var v := pairs[0].value;
    PlaceOfPairs(pairs, |toks| + 2, depth);
    PlaceOfValue(pairs, |toks|, depth);
    var first, tail := Tokens(v), PairTail(pairs);
    BegunFits(t, i, toks, first + tail, gaps);
    if toks == [] {
      NoTokens(gaps);
      OpenStray(t, i, place, last);
    } else if |toks| < |first| {
      BegunBefore(t, i, toks, first, tail, gaps);
      ValueText(t, i, v, toks, gaps, depth + 1, fl);
    } else {
      BegunParts(t, i, toks, first, tail, gaps);
      var g0, rest, gaps1 := gaps[..|first|], toks[|first|..], gaps[|first|..];
      var b := i + |Spread(first, g0)|;
      BegunFits(t, b, rest, tail, gaps1);
      if rest == [] {
        NoTokens(gaps1);
        LastOfFirst(toks, first);
        if v.JInt? {
          StrayEnds(t, b, place, last);
        }
        ValueText(t, i, v, first, g0, depth + 1, fl);
        StrayBehind(t, b, place, last);
      } else {
        PrefixTail(rest, tail);
        GapEnds(t, b, rest, tail, gaps1);
        ValueText(t, i, v, first, g0, depth + 1, fl);
        NextToken(t, b, rest, tail, gaps1);
        var c := SkipSpaces(t, b);
        BegunFits(t, c + 1, rest[1..], tail[1..], gaps1[1..]);
        var done1 := Store(done, pairs[0].key, Kept(v));
        KeptDict(done, pairs);
        KeptDict(done1, pairs[1..]);
        if |pairs| > 1 {
          PairsText(t, c + 1, pairs[1..], rest[1..], gaps1[1..], depth, done1, fl, place, last);
        }
      }
    }
  }

  lemma PairRestParts(pairs: seq<JPair>)
    requires pairs != []
    ensures PairRest(pairs) == Tokens(pairs[0].value) + PairTail(pairs)
  {
    hide Tokens, PairTail;
  }

  // ─── Documents ─────────────────────────────────────────────────────────────

  lemma SpreadIsAt(a: seq<Octet>, b: seq<Octet>)
    ensures HasAt(a + b, 0, a) && HasAt(a + b, |a|, b)
  {
    assert (a + b)[0..0 + |a|] == a && (a + b)[|a|..|a| + |b|] == b;
  }

  /** White space before and behind tokens changes nothing. */
  lemma SpacedIsRead(v: Json, gaps: seq<seq<Octet>>, last: seq<Octet>, fl: Floats)
    requires Readable(v) && Depth(v) <= 200
    requires |gaps| == |Tokens(v)| && AllBlanks(gaps) && Blanks(last)
    ensures ParseDocument(Spread(Tokens(v), gaps) + last, fl) == ParseDocument(Written(v, fl), fl) == Accepted(Kept(v))
  {
    var text := Spread(Tokens(v), gaps);
    var t := text + last;
    BehindIsSpace(t, |text|, last);
    assert MAX_DEPTH == 200;
    hide *;
    SpreadIsAt(text, last);
    WholeIsBegun(t, Tokens(v), gaps);
    ReadableRoundTrip(v, fl);
    ValueText(t, 0, v, Tokens(v), gaps, 0, fl);
    DocumentOf(t, fl);
  }

  lemma BehindIsSpace(t: seq<Octet>, i: nat, last: seq<Octet>)
    requires Blanks(last) && i <= |t| && t[i..] == last
    ensures SkipSpaces(t, i) == |t| && Ends(t, i)
  {
    assert t[i..i + |last|] == last;
    GapIsSkipped(t, i, last);
    if last != [] {
      assert t[i..][0] == t[i] && Blank(last[0]);
    }
  }

  lemma WholeIsBegun(t: seq<Octet>, toks: seq<seq<Octet>>, gaps: seq<seq<Octet>>)
    requires |toks| == |gaps| && AllBlanks(gaps) && HasAt(t, 0, Spread(toks, gaps))
    ensures Begun(t, 0, toks, toks, gaps)
  {
  }

  lemma DocumentOf(t: seq<Octet>, fl: Floats)
    ensures var r := ParseValue(t, SkipSpaces(t, 0), 0, fl);
            ParseDocument(t, fl)
            == if r.Ok? && SkipSpaces(t, r.next) == |t| then Accepted(r.value) else Rejected
  {
    hide ParseValue, SkipSpaces;
  }

  /** White space, and then something else. */
  lemma GapAndRest(t: seq<Octet>, i: nat, gap: seq<Octet>, rest: seq<Octet>)
    requires Blanks(gap) && i <= |t| && t[i..] == gap + rest && (rest != [] ==> !Blank(rest[0]))
    ensures SkipSpaces(t, i) == i + |gap| && (rest != [] ==> i + |gap| < |t| && t[i + |gap|] == rest[0])
    ensures gap != [] ==> Ends(t, i)
  {
    assert t[i..i + |gap|] == gap by { assert t[i..i + |gap|] == t[i..][..|gap|]; }
    if rest != [] {
      assert t[i..][|gap|] == t[i + |gap|];
    }
    GapIsSkipped(t, i, gap);
    if gap != [] {
      assert t[i..][0] == t[i] && Blank(gap[0]);
    }
  }

  /** A text that breaks off before the last token, at its end or at a stray byte, is no document. */
  lemma BrokenIsRejected(v: Json, toks: seq<seq<Octet>>, gaps: seq<seq<Octet>>, gap: seq<Octet>, rest: seq<Octet>,
                         fl: Floats)
    requires Readable(v) && Depth(v) <= 200
    requires toks < Tokens(v) && |gaps| == |toks| && AllBlanks(gaps) && Blanks(gap)
    requires rest != [] ==> Stray(PlaceIn(v, |toks|, 0), LastByte(toks), gap == [], rest[0])
    ensures ParseDocument(Spread(toks, gaps) + gap + rest, fl) == Rejected
  {
    hide *;
    var text, behind := Spread(toks, gaps), gap + rest;
    assert text + gap + rest == text + behind;
    AtStrayByte(text, gap, rest, PlaceIn(v, |toks|, 0), LastByte(toks));
    if toks == [] {
      NoTokens(gaps);
      AtTheStart();
      DocumentOf(text + behind, fl);
      AtFirst(v);
      OpenStray(text + behind, 0, AtValue, LastByte(toks));
    } else {
      PartIsRejected(v, toks, gaps, behind, fl);
    }
  }

  lemma PartIsRejected(v: Json, toks: seq<seq<Octet>>, gaps: seq<seq<Octet>>, behind: seq<Octet>, fl: Floats)
    requires Readable(v) && Depth(v) <= 200 && [] < toks < Tokens(v) && |gaps| == |toks| && AllBlanks(gaps)
    requires var text := Spread(toks, gaps); BreaksOff(text + behind, |text|, PlaceIn(v, |toks|, 0), LastByte(toks))
    ensures ParseDocument(Spread(toks, gaps) + behind, fl) == Rejected
  {
    hide *;
    var text := Spread(toks, gaps);
    AtTheStart();
    SpreadIsAt(text, behind);
    PartIsBegun(text + behind, toks, Tokens(v), gaps);
    ValueText(text + behind, 0, v, toks, gaps, 0, fl);
    DocumentOf(text + behind, fl);
  }

  lemma AtFirst(v: Json)
    ensures PlaceIn(v, 0, 0) == AtValue
  {
  }

  lemma AtStrayByte(text: seq<Octet>, gap: seq<Octet>, rest: seq<Octet>, place: Place, last: Octet)
    requires Blanks(gap) && (rest != [] ==> Stray(place, last, gap == [], rest[0]))
    ensures BreaksOff(text + (gap + rest), |text|, place, last)
  {
    hide SkipSpaces, Comes, GoesOnNumber;
    var t := text + (gap + rest);
    assert t[|text|..] == gap + rest;
    GapAndRest(t, |text|, gap, rest);
  }

  lemma AtTheStart()
    ensures MAX_DEPTH == 200
  {
  }

  lemma PartIsBegun(t: seq<Octet>, toks: seq<seq<Octet>>, all: seq<seq<Octet>>, gaps: seq<seq<Octet>>)
    requires |toks| == |gaps| && AllBlanks(gaps) && HasAt(t, 0, Spread(toks, gaps)) && toks < all
    ensures Begun(t, 0, toks, all, gaps)
  {
  }

  /** Behind the value there is nothing but white space. */
  lemma BehindIsRejected(v: Json, gaps: seq<seq<Octet>>, gap: seq<Octet>, rest: seq<Octet>, fl: Floats)
    requires Readable(v) && Depth(v) <= 200
    requires |gaps| == |Tokens(v)| && AllBlanks(gaps) && Blanks(gap)
    requires rest != [] && !Blank(rest[0]) && (v.JInt? && gap == [] ==> !GoesOnNumber(rest[0]))
    ensures ParseDocument(Spread(Tokens(v), gaps) + gap + rest, fl) == Rejected
  {
    hide *;
    var text, behind := Spread(Tokens(v), gaps), gap + rest;
    assert text + gap + rest == text + behind;
    AtTheStart();
    GapAndByte(text, gap, rest, v.JInt?);
    SpreadIsAt(text, behind);
    WholeIsBegun(text + behind, Tokens(v), gaps);
    ValueText(text + behind, 0, v, Tokens(v), gaps, 0, fl);
    DocumentOf(text + behind, fl);
  }

  lemma GapAndByte(text: seq<Octet>, gap: seq<Octet>, rest: seq<Octet>, number: bool)
    requires Blanks(gap) && rest != [] && !Blank(rest[0]) && (number && gap == [] ==> !GoesOnNumber(rest[0]))
    ensures var t := text + (gap + rest);
            SkipSpaces(t, |text|) != |t| && (number ==> Ends(t, |text|))
  {
    hide SkipSpaces;
    var t := text + (gap + rest);
    assert t[|text|..] == gap + rest;
    GapAndRest(t, |text|, gap, rest);
  }

  // ─── What can come ─────────────────────────────────────────────────────────

  /** A value whose first token begins with `c`. */
  function Starter(c: Octet): Json {
    if c == 0x22 then JStr([])
    else if c == 0x5B then JList([])
    else if c == 0x7B then JDict([])
    else if c == 0x74 then JBool(true)
    else if c == 0x66 then JBool(false)
    else if c == 0x6E then JNull
    else if c == 0x2D then JInt(-1)
    else if c == 0x30 then JInt(0)
    else if c == 0x31 then JInt(1)
    else if c == 0x32 then JInt(2)
    else if c == 0x33 then JInt(3)
    else if c == 0x34 then JInt(4)
    else if c == 0x35 then JInt(5)
    else if c == 0x36 then JInt(6)
    else if c == 0x37 then JInt(7)
    else if c == 0x38 then JInt(8)
    else JInt(9)
  }

  const EMPTY_PAIR: JPair := JPair([], JNull)

  /** A value with the first `n` tokens of `v`, and then one that begins with `c`. */
  function With(v: Json, n: nat, c: Octet): Json
    decreases v, 3
  {
    if n == 0 then Starter(c)
    else
      match v
      case JList(items) =>
        if c == 0x5D && n == 1 then JList([])
        else if items == [] then JList([Starter(c)])
        else JList(WithItems(items, n - 1, c))
      case JDict(pairs) =>
        if c == 0x7D && n == 1 then JDict([])
        else if pairs == [] then JDict([EMPTY_PAIR])
        else JDict(WithPairs(pairs, n - 1, c))
      case _ => v
  }

  function WithItems(items: seq<Json>, m: nat, c: Octet): seq<Json>
    requires items != []
    decreases items, 2
  {
    var k := |Tokens(items[0])|;
    if m < k then [With(items[0], m, c)]
    else if m == k then if c == 0x2C then [items[0], JNull] else [items[0]]
    else if |items| == 1 then items
    else [items[0]] + WithItems(items[1..], m - k - 1, c)
  }

  function WithPairs(pairs: seq<JPair>, m: nat, c: Octet): seq<JPair>
    requires pairs != []
    decreases pairs, 2
  {
    var p, k := pairs[0], |Tokens(pairs[0].value)|;
    if m < 2 then [p]
    else if m - 2 < k then [JPair(p.key, With(p.value, m - 2, c))]
    else if m - 2 == k then if c == 0x2C then [p, EMPTY_PAIR] else [p]
    else if |pairs| == 1 then pairs
    else [p] + WithPairs(pairs[1..], m - 3 - k, c)
  }

  /** The first `n` tokens are those of `all`, and the next one begins with `c`. */
  predicate Goes(toks: seq<seq<Octet>>, all: seq<seq<Octet>>, n: nat, c: Octet) {
    n < |toks| && n <= |all| && toks[..n] == all[..n] && toks[n] != [] && toks[n][0] == c
  }

  lemma GoesBehind(a: seq<seq<Octet>>, toks: seq<seq<Octet>>, all: seq<seq<Octet>>, n: nat, c: Octet)
    requires Goes(toks, all, n, c)
    ensures Goes(a + toks, a + all, |a| + n, c)
  {
    assert (a + toks)[..|a| + n] == a + toks[..n] && (a + all)[..|a| + n] == a + all[..n];
  }

  lemma GoesBefore(toks: seq<seq<Octet>>, all: seq<seq<Octet>>, n: nat, c: Octet, x: seq<seq<Octet>>,
                   y: seq<seq<Octet>>)
    requires Goes(toks, all, n, c)
    ensures Goes(toks + x, all + y, n, c)
  {
    assert (toks + x)[..n] == toks[..n] && (all + y)[..n] == all[..n] && (toks + x)[n] == toks[n];
  }

  lemma GoesHere(toks: seq<seq<Octet>>, all: seq<seq<Octet>>, c: Octet)
    requires toks != [] && toks[0] != [] && toks[0][0] == c
    ensures Goes(toks, all, 0, c)
  {
  }

  lemma DigitStarts(d: nat)
    requires d < 10
    ensures Tokens(JInt(d)) == [[Digit(d)]]
  {
  }

  lemma StarterIs(c: Octet)
    requires BeginsValue(c)
    ensures Readable(Starter(c)) && Depth(Starter(c)) == 0 && Goes(Tokens(Starter(c)), [], 0, c)
  {
    Words();
    Marks();
    hide Ascii;
    assert ValidUtf8([]);
    hide ValidUtf8;
    if 0x30 <= c <= 0x39 {
      DigitBytes();
      DigitStarts(Starter(c).i);
    } else if c == 0x2D {
      assert Decimal(-1)[0] == MINUS;
    } else if c == 0x22 {
      QuotedEnd([]);
    }
  }

  lemma DigitBytes()
    ensures Digit(0) == 0x30 && Digit(1) == 0x31 && Digit(2) == 0x32 && Digit(3) == 0x33 && Digit(4) == 0x34
    ensures Digit(5) == 0x35 && Digit(6) == 0x36 && Digit(7) == 0x37 && Digit(8) == 0x38 && Digit(9) == 0x39
  {
  }

  function Opens(rest: seq<seq<Octet>>, closing: seq<Octet>): seq<seq<Octet>> {
    if rest == [] then [closing] else [Ascii(",")] + rest
  }

  lemma ConsItems(x: Json, rest: seq<Json>)
    ensures var items := [x] + rest;
            && ItemTokens(items) == Tokens(x) + Opens(if rest == [] then [] else ItemTokens(rest), Ascii("]"))
            && DepthOfItems(items) == Max(Depth(x) + 1, DepthOfItems(rest)) && DepthOfItems([]) == 0
            && (ReadableItems(items) <==> Readable(x) && ReadableItems(rest))
  {
    hide Tokens, Ascii, Readable, Depth;
    var items := [x] + rest;
    assert items[0] == x && items[1..] == rest;
    if rest != [] {
      assert |ItemTokens(rest)| > 0 by { ItemsEnd(rest); }
    }
  }

  lemma ConsPairs(q: JPair, rest: seq<JPair>)
    ensures var pairs := [q] + rest;
            && PairTokens(pairs)
               == [Quoted(q.key)]
                  + ([Ascii(":")]
                     + (Tokens(q.value) + Opens(if rest == [] then [] else PairTokens(rest), Ascii("}"))))
            && DepthOfPairs(pairs) == Max(Depth(q.value) + 1, DepthOfPairs(rest)) && DepthOfPairs([]) == 0
            && (ReadablePairs(pairs)
                <==> ValidUtf8(q.key) && !Internal(q.key) && Readable(q.value) && ReadablePairs(rest))
  {
    hide Tokens, Ascii, Readable, Depth, Quoted, ValidUtf8, Internal;
    var pairs := [q] + rest;
    assert pairs[0] == q && pairs[1..] == rest;
    if rest != [] {
      assert |PairTokens(rest)| > 0 by { PairsEnd(rest); }
    }
    PairSplits(pairs);
  }

  lemma ListIs(items: seq<Json>)
    ensures Depth(JList(items)) == DepthOfItems(items) && (Readable(JList(items)) <==> ReadableItems(items))
    ensures Tokens(JList(items)) == [Ascii("[")] + (if items == [] then [Ascii("]")] else ItemTokens(items))
  {
    hide ItemTokens, Ascii, DepthOfItems;
  }

  lemma DictIs(pairs: seq<JPair>)
    ensures Depth(JDict(pairs)) == DepthOfPairs(pairs) && (Readable(JDict(pairs)) <==> ReadablePairs(pairs))
    ensures Tokens(JDict(pairs)) == [Ascii("{")] + (if pairs == [] then [Ascii("}")] else PairTokens(pairs))
  {
    hide PairTokens, Ascii, DepthOfPairs, ValidUtf8, Internal;
  }

  lemma NothingIs()
    ensures ReadableItems([]) && ReadablePairs([]) && DepthOfItems([]) == 0 && DepthOfPairs([]) == 0
    ensures Readable(JNull) && Depth(JNull) == 0 && ValidUtf8([]) && !Internal([])
  {
  }

  /** Whatever can come behind the first tokens of a value comes in another one, not deeper than 200. */
  lemma {:induction false} WithIs(v: Json, n: nat, c: Octet, depth: nat)
    requires Readable(v) && depth + Depth(v) <= 200 && n < |Tokens(v)| && Comes(PlaceIn(v, n, depth), c)
    ensures var w := With(v, n, c);
            Readable(w) && depth + Depth(w) <= 200 && Goes(Tokens(w), Tokens(v), n, c)
    decreases v, 3
  {
    hide *;
    AtStart(v, depth, c);
    if n == 0 {
      StarterIs(c);
    } else {
      match v
      case JList(items) =>
        ListIs(items);
        PlaceInList(items, n, depth);
        WithListIs(items, n, c, depth);
      case JDict(pairs) =>
        DictIs(pairs);
        PlaceInDict(pairs, n, depth);
        WithDictIs(pairs, n, c, depth);
      case _ => OneToken(v);
    }
  }

  lemma AtStart(v: Json, depth: nat, c: Octet)
    ensures With(v, 0, c) == Starter(c) && PlaceIn(v, 0, depth) == AtValue && (Comes(AtValue, c) <==> BeginsValue(c))
    ensures forall toks :: Goes(toks, [], 0, c) ==> Goes(toks, Tokens(v), 0, c)
  {
  }

  lemma OneToken(v: Json)
    requires !v.JList? && !v.JDict?
    ensures |Tokens(v)| == 1
  {
  }

  lemma {:induction false} WithListIs(items: seq<Json>, n: nat, c: Octet, depth: nat)
    requires Readable(JList(items)) && depth + Depth(JList(items)) <= 200 && 0 < n < |Tokens(JList(items))|
    requires Comes(PlaceIn(JList(items), n, depth), c)
    ensures var w := With(JList(items), n, c);
            Readable(w) && depth + Depth(w) <= 200 && Goes(Tokens(w), Tokens(JList(items)), n, c)
    decreases items, 3
  {
    hide *;
    ListIs(items);
    WithList(items, n, c, depth);
    NothingIs();
    Marks();
    var open, all := [Ascii("[")], if items == [] then [Ascii("]")] else ItemTokens(items);
    if c == 0x5D && n == 1 {
      ListIs([]);
      GoesHere([Ascii("]")], all, c);
      GoesBehind(open, [Ascii("]")], all, 0, c);
    } else if items == [] {
      var x := Starter(c);
      StarterIs(c);
      ListIs([x]);
      ConsItems(x, []);
      MaxIs(Depth(x) + 1, 0);
      assert [x] + [] == [x];
      GoesBefore(Tokens(x), [], 0, c, Opens([], Ascii("]")), all);
      assert [] + all == all;
      GoesBehind(open, ItemTokens([x]), all, 0, c);
    } else {
      WithItemsIs(items, n - 1, c, depth);
      var w := WithItems(items, n - 1, c);
      ListIs(w);
      GoesBehind(open, ItemTokens(w), all, n - 1, c);
    }
  }

  lemma WithList(items: seq<Json>, n: nat, c: Octet, depth: nat)
    requires n > 0 && (items == [] ==> n == 1) && Comes(PlaceIn(JList(items), n, depth), c)
    ensures var w := With(JList(items), n, c);
            if c == 0x5D && n == 1 then w == JList([])
            else if items == [] then w == JList([Starter(c)]) && BeginsValue(c) && depth < 200
            else w == JList(WithItems(items, n - 1, c)) && Comes(PlaceInItems(items, n - 1, depth), c)
  {
    hide WithItems, Starter, PlaceInItems;
    if items != [] && n == 1 {
      PlaceOfItems(items, 0, depth);
      ValueIsSomething(items[0]);
      AtStart(items[0], depth + 1, c);
    }
  }

  lemma ValueIsSomething(v: Json)
    ensures |Tokens(v)| > 0
  {
  }

  lemma {:induction false} WithItemsIs(items: seq<Json>, m: nat, c: Octet, depth: nat)
    requires items != [] && ReadableItems(items) && depth + DepthOfItems(items) <= 200 && m < |ItemTokens(items)|
    requires Comes(PlaceInItems(items, m, depth), c)
    ensures var w := WithItems(items, m, c);
            && w != [] && ReadableItems(w) && depth + DepthOfItems(w) <= 200
            && Goes(ItemTokens(w), ItemTokens(items), m, c)
    decreases items, 2
  {
    hide *;
    var x, rest := items[0], items[1..];
    var first, k := Tokens(x), |Tokens(x)|;
    assert items == [x] + rest;
    ConsItems(x, rest);
    MaxIs(Depth(x) + 1, DepthOfItems(rest));
    PlaceOfItems(items, m, depth);
    NothingIs();
    Marks();
    NextItem(items, m, c);
    var tail := Opens(if rest == [] then [] else ItemTokens(rest), Ascii("]"));
    if m < k {
      WithIs(x, m, c, depth + 1);
      var y := With(x, m, c);
      ConsItems(y, []);
      MaxIs(Depth(y) + 1, 0);
      assert [y] + [] == [y];
      GoesBefore(Tokens(y), first, m, c, Opens([], Ascii("]")), tail);
    } else if m == k {
      BehindIs(c);
      if c == 0x2C {
        ConsItems(JNull, []);
        MaxIs(1, 0);
        assert [JNull] + [] == [JNull] && [x] + [JNull] == [x, JNull];
        ConsItems(x, [JNull]);
        MaxIs(Depth(x) + 1, 1);
        ItemsEnd([JNull]);
        OpensWith(ItemTokens([JNull]), Ascii("]"), tail);
        GoesBehind(first, Opens(ItemTokens([JNull]), Ascii("]")), tail, 0, c);
      } else {
        ConsItems(x, []);
        MaxIs(Depth(x) + 1, 0);
        assert [x] + [] == [x];
        OpensWith([], Ascii("]"), tail);
        GoesBehind(first, Opens([], Ascii("]")), tail, 0, c);
      }
    } else {
      OpensSize(if rest == [] then [] else ItemTokens(rest), Ascii("]"));
      WithItemsIs(rest, m - k - 1, c, depth);
      var w := WithItems(rest, m - k - 1, c);
      ConsItems(x, w);
      MaxIs(Depth(x) + 1, DepthOfItems(w));
      GoesOpen(ItemTokens(w), ItemTokens(rest), m - k - 1, c, Ascii("]"));
      GoesBehind(first, Opens(ItemTokens(w), Ascii("]")), tail, m - k, c);
    }
  }

  lemma NextItem(items: seq<Json>, m: nat, c: Octet)
    requires items != []
    ensures var k, w := |Tokens(items[0])|, WithItems(items, m, c);
            if m < k then w == [With(items[0], m, c)]
            else if m == k then w == if c == 0x2C then [items[0], JNull] else [items[0]]
            else |items| > 1 ==> w == [items[0]] + WithItems(items[1..], m - k - 1, c)
  {
    hide Tokens, With;
  }

  lemma MaxIs(a: nat, b: nat)
    ensures a <= Max(a, b) && b <= Max(a, b) && (Max(a, b) == a || Max(a, b) == b)
  {
  }

  lemma BehindIs(c: Octet)
    ensures Comes(BehindItem, c) <==> c == 0x2C || c == 0x5D
    ensures Comes(BehindPair, c) <==> c == 0x2C || c == 0x7D
    ensures Comes(AtKey, c) <==> c == 0x22
    ensures Comes(AtColon, c) <==> c == 0x3A
  {
  }

  lemma OpensWith(rest: seq<seq<Octet>>, closing: seq<Octet>, all: seq<seq<Octet>>)
    requires closing != []
    ensures Goes(Opens(rest, closing), all, 0, if rest == [] then closing[0] else 0x2C)
  {
    Marks();
    hide Ascii;
  }

  lemma OpensSize(rest: seq<seq<Octet>>, closing: seq<Octet>)
    ensures |Opens(rest, closing)| == |rest| + 1
  {
  }

  lemma GoesOpen(toks: seq<seq<Octet>>, all: seq<seq<Octet>>, n: nat, c: Octet, closing: seq<Octet>)
    requires Goes(toks, all, n, c) && all != []
    ensures Goes(Opens(toks, closing), Opens(all, closing), n + 1, c)
  {
    hide Ascii;
    GoesBehind([Ascii(",")], toks, all, n, c);
  }

  lemma {:induction false} WithDictIs(pairs: seq<JPair>, n: nat, c: Octet, depth: nat)
    requires Readable(JDict(pairs)) && depth + Depth(JDict(pairs)) <= 200 && 0 < n < |Tokens(JDict(pairs))|
    requires Comes(PlaceIn(JDict(pairs), n, depth), c)
    ensures var w := With(JDict(pairs), n, c);
            Readable(w) && depth + Depth(w) <= 200 && Goes(Tokens(w), Tokens(JDict(pairs)), n, c)
    decreases pairs, 3
  {
    hide *;
    DictIs(pairs);
    WithDict(pairs, n, c, depth);
    NothingIs();
    Marks();
    var open, all := [Ascii("{")], if pairs == [] then [Ascii("}")] else PairTokens(pairs);
    if c == 0x7D && n == 1 {
      DictIs([]);
      GoesHere([Ascii("}")], all, c);
      GoesBehind(open, [Ascii("}")], all, 0, c);
    } else if pairs == [] {
      DictIs([EMPTY_PAIR]);
      ConsPairs(EMPTY_PAIR, []);
      EmptyPairIs();
      MaxIs(1, 0);
      assert [EMPTY_PAIR] + [] == [EMPTY_PAIR];
      QuotedEnd([]);
      GoesHere(PairTokens([EMPTY_PAIR]), all, c);
      GoesBehind(open, PairTokens([EMPTY_PAIR]), all, 0, c);
    } else {
      WithPairsIs(pairs, n - 1, c, depth);
      var w := WithPairs(pairs, n - 1, c);
      DictIs(w);
      GoesBehind(open, PairTokens(w), all, n - 1, c);
    }
  }

  lemma EmptyPairIs()
    ensures EMPTY_PAIR.key == [] && EMPTY_PAIR.value == JNull
  {
  }

  lemma WithDict(pairs: seq<JPair>, n: nat, c: Octet, depth: nat)
    requires n > 0 && (pairs == [] ==> n == 1) && Comes(PlaceIn(JDict(pairs), n, depth), c)
    ensures var w := With(JDict(pairs), n, c);
            if c == 0x7D && n == 1 then w == JDict([])
            else if pairs == [] then w == JDict([EMPTY_PAIR]) && c == 0x22 && depth < 200
            else w == JDict(WithPairs(pairs, n - 1, c)) && Comes(PlaceInPairs(pairs, n - 1, depth), c)
  {
    hide WithPairs, PlaceInPairs;
    if pairs != [] && n == 1 {
      PlaceOfPairs(pairs, 0, depth);
    }
  }

  lemma {:induction false} WithPairsIs(pairs: seq<JPair>, m: nat, c: Octet, depth: nat)
    requires pairs != [] && ReadablePairs(pairs) && depth + DepthOfPairs(pairs) <= 200 && m < |PairTokens(pairs)|
    requires Comes(PlaceInPairs(pairs, m, depth), c)
    ensures var w := WithPairs(pairs, m, c);
            && w != [] && ReadablePairs(w) && depth + DepthOfPairs(w) <= 200
            && Goes(PairTokens(w), PairTokens(pairs), m, c)
    decreases pairs, 2
  {
    hide *;
    var q, rest := pairs[0], pairs[1..];
    assert pairs == [q] + rest;
    PairsLeftIs(q, rest);
    PlaceOfPairs(pairs, m, depth);
    NextPair(pairs, m, c);
    var key, colon, tail := [Quoted(q.key)], [Ascii(":")], Tokens(q.value) + PairsLeft(rest);
    if m < 2 {
      var one := Tokens(q.value) + PairsLeft([]);
      PairsLeftIs(q, []);
      NothingIs();
      BehindIs(c);
      Marks();
      QuotedEnd(q.key);
      if m == 0 {
        GoesHere(key + (colon + one), key + (colon + tail), c);
      } else {
        GoesHere(colon + one, colon + tail, c);
        GoesBehind(key, colon + one, colon + tail, 0, c);
      }
    } else {
      WithValueIs(pairs, m - 2, c, depth);
      var w := WithPairs(pairs, m, c);
      var made := Tokens(w[0].value) + PairsLeft(w[1..]);
      assert w == [w[0]] + w[1..];
      PairsLeftIs(w[0], w[1..]);
      GoesBehind(colon, made, tail, m - 2, c);
      GoesBehind(key, colon + made, colon + tail, m - 1, c);
    }
  }

  lemma NextPair(pairs: seq<JPair>, m: nat, c: Octet)
    requires pairs != []
    ensures var q, k, w := pairs[0], |Tokens(pairs[0].value)|, WithPairs(pairs, m, c);
            if m < 2 then w == [q]
            else if m - 2 < k then w == [JPair(q.key, With(q.value, m - 2, c))]
            else if m - 2 == k then w == if c == 0x2C then [q, EMPTY_PAIR] else [q]
            else |pairs| > 1 ==> w == [q] + WithPairs(pairs[1..], m - 3 - k, c)
  {
    hide Tokens, With;
  }

  /** What comes behind the pairs in `rest`, or behind none. */
  function PairsLeft(rest: seq<JPair>): seq<seq<Octet>> {
    Opens(if rest == [] then [] else PairTokens(rest), Ascii("}"))
  }

  lemma PairsLeftIs(q: JPair, rest: seq<JPair>)
    ensures [q][1..] == [] && ([q] + rest)[0] == q && ([q] + rest)[1..] == rest && [q] + [] == [q]
    ensures var pairs := [q] + rest;
            && PairTokens(pairs) == [Quoted(q.key)] + ([Ascii(":")] + (Tokens(q.value) + PairsLeft(rest)))
            && PairsLeft(pairs) == [Ascii(",")] + PairTokens(pairs) && PairsLeft([]) == [Ascii("}")]
            && Depth(q.value) + 1 <= DepthOfPairs(pairs) && DepthOfPairs(rest) <= DepthOfPairs(pairs)
            && (DepthOfPairs(pairs) == Depth(q.value) + 1 || DepthOfPairs(pairs) == DepthOfPairs(rest))
            && (ReadablePairs(pairs)
                <==> ValidUtf8(q.key) && !Internal(q.key) && Readable(q.value) && ReadablePairs(rest))
  {
    ConsPairs(q, rest);
    MaxIs(Depth(q.value) + 1, DepthOfPairs(rest));
    hide Tokens, Ascii, Readable, Depth, Quoted, ValidUtf8, Internal, DepthOfPairs, ReadablePairs, PairTokens, Max;
  }

  /** The same from behind the first colon on. */
  lemma {:induction false} WithValueIs(pairs: seq<JPair>, m: nat, c: Octet, depth: nat)
    requires pairs != [] && ReadablePairs(pairs) && depth + DepthOfPairs(pairs) <= 200
    requires m < |Tokens(pairs[0].value)| + |PairsLeft(pairs[1..])|
    requires Comes(PlaceBehindColon(pairs, m, depth), c)
    ensures var w := WithPairs(pairs, m + 2, c);
            && w != [] && ReadablePairs(w) && depth + DepthOfPairs(w) <= 200 && w[0].key == pairs[0].key
            && Goes(Tokens(w[0].value) + PairsLeft(w[1..]), Tokens(pairs[0].value) + PairsLeft(pairs[1..]), m, c)
    decreases pairs, 1
  {
    hide *;
    var q, rest := pairs[0], pairs[1..];
    var first, k := Tokens(q.value), |Tokens(q.value)|;
    assert pairs == [q] + rest;
    PairsLeftIs(q, rest);
    PlaceOfValue(pairs, m, depth);
    NothingIs();
    NextPair(pairs, m + 2, c);
    if m < k {
      WithIs(q.value, m, c, depth + 1);
      var y := JPair(q.key, With(q.value, m, c));
      PairsLeftIs(y, []);
      GoesBefore(Tokens(y.value), first, m, c, PairsLeft([]), PairsLeft(rest));
    } else if m == k {
      BehindIs(c);
      BehindValueIs(pairs, c, depth);
    } else {
      PairsLeftSize(rest);
      WithPairsIs(rest, m - k - 1, c, depth);
      var w := WithPairs(rest, m - k - 1, c);
      PairsLeftIs(q, w);
      PairsLeftGo(w, rest, m - k - 1, c);
      GoesBehind(first, PairsLeft(w), PairsLeft(rest), m - k, c);
    }
  }

  lemma PairsLeftSize(rest: seq<JPair>)
    ensures |PairsLeft(rest)| == if rest == [] then 1 else |PairTokens(rest)| + 1
  {
    hide Ascii, PairTokens;
    if rest != [] {
      PairsEnd(rest);
    }
  }

  lemma PairsLeftGo(w: seq<JPair>, rest: seq<JPair>, n: nat, c: Octet)
    requires w != [] && rest != [] && Goes(PairTokens(w), PairTokens(rest), n, c)
    ensures Goes(PairsLeft(w), PairsLeft(rest), n + 1, c)
  {
    hide Ascii, PairTokens, Opens;
    PairsEnd(rest);
    GoesOpen(PairTokens(w), PairTokens(rest), n, c, Ascii("}"));
  }

  lemma BehindValueIs(pairs: seq<JPair>, c: Octet, depth: nat)
    requires pairs != [] && ReadablePairs(pairs) && depth + DepthOfPairs(pairs) <= 200 && (c == 0x2C || c == 0x7D)
    ensures var w, k := if c == 0x2C then [pairs[0], EMPTY_PAIR] else [pairs[0]], |Tokens(pairs[0].value)|;
            && ReadablePairs(w) && depth + DepthOfPairs(w) <= 200
            && Goes(Tokens(w[0].value) + PairsLeft(w[1..]), Tokens(pairs[0].value) + PairsLeft(pairs[1..]), k, c)
  {
    hide *;
    var q, rest := pairs[0], pairs[1..];
    assert pairs == [q] + rest;
    PairsLeftIs(q, rest);
    PairsLeftIs(q, []);
    NothingIs();
    EmptyPairIs();
    Marks();
    if c == 0x2C {
      PairsLeftIs(EMPTY_PAIR, []);
      PairsLeftIs(q, [EMPTY_PAIR]);
      assert [q] + [EMPTY_PAIR] == [q, EMPTY_PAIR];
      GoesHere(PairsLeft([EMPTY_PAIR]), PairsLeft(rest), c);
      GoesBehind(Tokens(q.value), PairsLeft([EMPTY_PAIR]), PairsLeft(rest), 0, c);
    } else {
      GoesHere(PairsLeft([]), PairsLeft(rest), c);
      GoesBehind(Tokens(q.value), PairsLeft([]), PairsLeft(rest), 0, c);
    }
  }

  /** The whole text, with white space up to its next token and none behind. */
  lemma TextGoesOn(toks: seq<seq<Octet>>, gaps: seq<seq<Octet>>, gap: seq<Octet>, all: seq<seq<Octet>>)
    returns (gaps1: seq<seq<Octet>>, rest: seq<Octet>)
    requires |gaps| == |toks| < |all| && all[..|toks|] == toks && all[|toks|] != [] && AllBlanks(gaps) && Blanks(gap)
    ensures |gaps1| == |all| && AllBlanks(gaps1)
    ensures Spread(all, gaps1) == Spread(toks, gaps) + gap + [all[|toks|][0]] + rest
  {
    var n := |toks|;
    var next, more := all[n], all[n + 1..];
    var none: seq<seq<Octet>> := seq(|more|, _ => []);
    gaps1 := gaps + ([gap] + none);
    rest := next[1..] + Spread(more, none);
    hide Spread;
    assert all == toks + ([next] + more) && gaps1[..n] == gaps && gaps1[n..] == [gap] + none;
    SpreadJoin(toks, [next] + more, gaps1);
    assert ([next] + more)[1..] == more && ([gap] + none)[1..] == none;
    FirstSpread([next] + more, [gap] + none);
    assert next == [next[0]] + next[1..];
  }

  lemma FirstSpread(toks: seq<seq<Octet>>, gaps: seq<seq<Octet>>)
    requires |toks| == |gaps| && toks != []
    ensures Spread(toks, gaps) == gaps[0] + toks[0] + Spread(toks[1..], gaps[1..])
  {
  }

  lemma SomethingComes(v: Json, toks: seq<seq<Octet>>, gaps: seq<seq<Octet>>, gap: seq<Octet>, c: Octet, fl: Floats)
    returns (rest: seq<Octet>)
    requires Readable(v) && Depth(v) <= 200
    requires toks < Tokens(v) && |gaps| == |toks| && AllBlanks(gaps) && Blanks(gap)
    requires Comes(PlaceIn(v, |toks|, 0), c)
    ensures ParseDocument(Spread(toks, gaps) + gap + [c] + rest, fl).Accepted?
  {
    hide *;
    WithIs(v, |toks|, c, 0);
    var w := With(v, |toks|, c);
    GoesOn(toks, Tokens(v), Tokens(w), c);
    NoBlanks();
    var gaps1, more := TextGoesOn(toks, gaps, gap, Tokens(w));
    rest := more;
    SpacedIsRead(w, gaps1, [], fl);
    assert Spread(Tokens(w), gaps1) + [] == Spread(Tokens(w), gaps1);
  }

  lemma GoesOn(toks: seq<seq<Octet>>, all: seq<seq<Octet>>, other: seq<seq<Octet>>, c: Octet)
    requires toks < all && Goes(other, all, |toks|, c)
    ensures |toks| < |other| && other[..|toks|] == toks && other[|toks|] != [] && other[|toks|][0] == c
  {
  }

  lemma NoBlanks()
    ensures Blanks([])
  {
  }

  lemma NothingComes(v: Json, toks: seq<seq<Octet>>, gaps: seq<seq<Octet>>, gap: seq<Octet>, c: Octet,
                     rest: seq<Octet>, fl: Floats)
    requires Readable(v) && Depth(v) <= 200
    requires toks < Tokens(v) && |gaps| == |toks| && AllBlanks(gaps) && Blanks(gap) && !Blank(c)
    requires gap == [] && 0x30 <= LastByte(toks) <= 0x39 ==> !GoesOnNumber(c)
    requires !Comes(PlaceIn(v, |toks|, 0), c)
    ensures ParseDocument(Spread(toks, gaps) + gap + [c] + rest, fl) == Rejected
  {
    var text := Spread(toks, gaps) + gap;
    assert Stray(PlaceIn(v, |toks|, 0), LastByte(toks), gap == [], ([c] + rest)[0]);
    hide *;
    BrokenIsRejected(v, toks, gaps, gap, [c] + rest, fl);
    assert text + [c] + rest == text + ([c] + rest);
  }

  /** Exactly the bytes that can come behind the first tokens of a value have texts behind them that make a
    document; bytes that go on with a number that they join are not looked at. */
  lemma ComesIff(v: Json, toks: seq<seq<Octet>>, gaps: seq<seq<Octet>>, gap: seq<Octet>, c: Octet, fl: Floats)
    requires Readable(v) && Depth(v) <= 200
    requires toks < Tokens(v) && |gaps| == |toks| && AllBlanks(gaps) && Blanks(gap) && !Blank(c)
    requires gap == [] && 0x30 <= LastByte(toks) <= 0x39 ==> !GoesOnNumber(c)
    ensures (exists rest :: ParseDocument(Spread(toks, gaps) + gap + [c] + rest, fl).Accepted?)
            <==> Comes(PlaceIn(v, |toks|, 0), c)
  {
    hide *;
    if Comes(PlaceIn(v, |toks|, 0), c) {
      var rest := SomethingComes(v, toks, gaps, gap, c, fl);
      assert ParseDocument(Spread(toks, gaps) + gap + [c] + rest, fl).Accepted?;
    } else {
      forall rest
        ensures ParseDocument(Spread(toks, gaps) + gap + [c] + rest, fl) == Rejected
      {
        NothingComes(v, toks, gaps, gap, c, rest, fl);
      }
    }
  }

  // ─── The text that is written ──────────────────────────────────────────────

  predicate NoGaps(gaps: seq<seq<Octet>>) { forall i :: 0 <= i < |gaps| ==> gaps[i] == [] }

  lemma FirstOfAll(toks: seq<seq<Octet>>, gaps: seq<seq<Octet>>)
    requires |toks| == |gaps| && toks != [] && NoGaps(gaps)
    ensures Spread(toks, gaps) == toks[0] + Spread(toks[1..], gaps[1..]) && NoGaps(gaps[1..])
  {
    assert [] + toks[0] == toks[0];
  }

  lemma FirstsOfAll(a: seq<seq<Octet>>, b: seq<seq<Octet>>, gaps: seq<seq<Octet>>)
    requires |gaps| == |a| + |b| && NoGaps(gaps)
    ensures Spread(a + b, gaps) == Spread(a, gaps[..|a|]) + Spread(b, gaps[|a|..])
    ensures NoGaps(gaps[..|a|]) && NoGaps(gaps[|a|..])
  {
    hide Spread;
    SpreadJoin(a, b, gaps);
  }

  /** What is written is the tokens, and nothing between them. */
  lemma {:induction false} WrittenIsTokens(v: Json, gaps: seq<seq<Octet>>, fl: Floats)
    requires Readable(v) && |gaps| == |Tokens(v)| && NoGaps(gaps)
    ensures Written(v, fl) == Spread(Tokens(v), gaps)
    decreases v, 3
  {
    hide *;
    NoTokens([]);
    match v
    case JList(items) =>
      ListTokens(items);
      ListParts(items, fl);
      NoItems(fl);
      Marks();
      FirstOfAll(Tokens(v), gaps);
      if items == [] {
        FirstOfAll(Tokens(v)[1..], gaps[1..]);
        NoTokens(gaps[1..][1..]);
        assert Tokens(v)[1..][1..] == [] && [CLOSE_LIST] + [] == [CLOSE_LIST];
      } else {
        WrittenItemTokens(items, gaps[1..], fl);
      }
    case JDict(pairs) =>
      DictTokens(pairs);
      DictParts(pairs, fl);
      NoItems(fl);
      Marks();
      FirstOfAll(Tokens(v), gaps);
      if pairs == [] {
        FirstOfAll(Tokens(v)[1..], gaps[1..]);
        NoTokens(gaps[1..][1..]);
        assert Tokens(v)[1..][1..] == [] && [CLOSE_DICT] + [] == [CLOSE_DICT];
      } else {
        WrittenPairTokens(pairs, gaps[1..], fl);
      }
    case _ =>
      LeafTokens(v, fl);
      FirstOfAll(Tokens(v), gaps);
      NoTokens(gaps[1..]);
      assert Tokens(v)[0] + [] == Written(v, fl);
  }

  lemma {:induction false} WrittenItemTokens(items: seq<Json>, gaps: seq<seq<Octet>>, fl: Floats)
    requires items != [] && ReadableItems(items) && |gaps| == |ItemTokens(items)| && NoGaps(gaps)
    ensures WrittenItems(items, true, fl) + [CLOSE_LIST] == Spread(ItemTokens(items), gaps)
    decreases items, 2
  {
    hide *;
    ItemsParts(items);
    ItemSplits(items);
    LaterItems(items, fl);
    NoLaterItems(fl);
    Marks();
    NoTokens([]);
    var first, tail := Tokens(items[0]), ItemTail(items);
    var g0, g1 := gaps[..|first|], gaps[|first|..];
    FirstsOfAll(first, tail, gaps);
    FirstOfAll(tail, g1);
    WrittenIsTokens(items[0], g0, fl);
    if |items| == 1 {
      assert items[1..] == [];
      NoTokens(g1[1..]);
      assert Spread(tail, g1) == [CLOSE_LIST] + [] == [CLOSE_LIST];
    } else {
      LaterItems(items[1..], fl);
      WrittenItemTokens(items[1..], g1[1..], fl);
    }
  }

  lemma {:induction false} WrittenPairTokens(pairs: seq<JPair>, gaps: seq<seq<Octet>>, fl: Floats)
    requires pairs != [] && ReadablePairs(pairs) && |gaps| == |PairTokens(pairs)| && NoGaps(gaps)
    ensures WrittenPairs(pairs, true, fl) + [CLOSE_DICT] == Spread(PairTokens(pairs), gaps)
    decreases pairs, 2
  {
    hide *;
    PairsParts(pairs);
    PairSplits(pairs);
    PairRestParts(pairs);
    PairTailIs(pairs);
    LaterPairs(pairs, fl);
    NoLaterItems(fl);
    Marks();
    NoTokens([]);
    var first, tail := Tokens(pairs[0].value), PairTail(pairs);
    FirstOfAll(PairTokens(pairs), gaps);
    FirstOfAll(PairTokens(pairs)[1..], gaps[1..]);
    var rest := gaps[1..][1..];
    var g0, g1 := rest[..|first|], rest[|first|..];
    FirstsOfAll(first, tail, rest);
    FirstOfAll(tail, g1);
    WrittenIsTokens(pairs[0].value, g0, fl);
    if |pairs| == 1 {
      assert pairs[1..] == [];
      NoTokens(g1[1..]);
      assert Spread(tail, g1) == [CLOSE_DICT] + [] == [CLOSE_DICT];
    } else {
      PairsParts(pairs[1..]);
      LaterPairs(pairs[1..], fl);
      WrittenPairTokens(pairs[1..], g1[1..], fl);
    }
  }
}
