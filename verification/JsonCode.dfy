/** The JSON parser and writer as they run: a position that moves over the text, and an
  output that grows. Both do what the functions of `Json` say. */
module JsonCode {
  import opened Text
  import opened Json

  /** What a reading method leaves behind, against what should have been read. */
  predicate Agrees<T(==)>(p: Parsed<T>, ok: bool, v: T, at: nat) {
    (ok <==> p.Ok?) && (ok ==> v == p.value && at == p.next)
  }

  class Parser {
    const t: seq<Octet>
    const fl: Floats
    var i: nat

    constructor (text: seq<Octet>, floats: Floats)
      ensures t == text && fl == floats && i == 0
    {
      t, fl, i := text, floats, 0;
    }

    /** A whole document: one value, and nothing behind it. */
    method Document() returns (doc: Document)
      requires i == 0
      modifies this
      ensures doc == ParseDocument(t, fl)
    {
      hide ParseValue, SkipSpaces;
      Spaces();
      var ok, v := ReadValue(0);
      if !ok {
        return Rejected;
      }
      Spaces();
      return if i == |t| then Accepted(v) else Rejected;
    }

    method Spaces()
      requires i <= |t|
      modifies this
      ensures i == SkipSpaces(t, old(i)) <= |t|
    {
      while i < |t| && IsSpace(t[i])
        invariant i <= |t| && SkipSpaces(t, i) == SkipSpaces(t, old(i))
      {
        i := i + 1;
      }
    }

    method PassDigits()
      requires i <= |t|
      modifies this
      ensures i == SkipDigits(t, old(i)) <= |t|
    {
      while i < |t| && IsDigit(t[i])
        invariant i <= |t| && SkipDigits(t, i) == SkipDigits(t, old(i))
      {
        i := i + 1;
      }
    }

    method Literal(word: seq<Octet>) returns (ok: bool)
      requires i <= |t|
      modifies this
      ensures ok <==> HasAt(t, old(i), word)
      ensures i == if ok then old(i) + |word| else old(i)
    {
      if |t| - i < |word| || t[i..i + |word|] != word {
        return false;
      }
      i := i + |word|;
      return true;
    }

    method ReadValue(depth: nat) returns (ok: bool, v: Json)
      requires i <= |t|
      modifies this
      ensures Agrees(ParseValue(t, old(i), depth, fl), ok, v, i)
      decreases |t| - i, 1
    {
      hide ParseItems, ParsePairs, Chars, ParseNumber, HasAt, SkipSpaces;
      ok, v := false, JNull;
      if depth > MAX_DEPTH || i >= |t| {
        return;
      }
      var c := t[i];
      if c == 110 {
        ok := Literal(NULL_TEXT);
      } else if c == 116 {
        ok := Literal(TRUE_TEXT);
        v := JBool(true);
      } else if c == 102 {
        ok := Literal(FALSE_TEXT);
        v := JBool(false);
      } else if c == QUOTE {
        var s;
        ok, s := ReadString();
        v := JStr(s);
      } else if c == OPEN_LIST {
        ok, v := ReadList(depth);
      } else if c == OPEN_DICT {
        ok, v := ReadDict(depth);
      } else {
        ok, v := ReadNumber();
      }
    }

    method ReadList(depth: nat) returns (ok: bool, v: Json)
      requires i < |t| && t[i] == OPEN_LIST && depth <= MAX_DEPTH
      modifies this
      ensures Agrees(ParseValue(t, old(i), depth, fl), ok, v, i)
      decreases |t| - i, 0
    {
      hide ParseItems, ParsePairs, Chars, ParseNumber, HasAt, SkipSpaces;
      ghost var all := ParseValue(t, i, depth, fl);
      i := i + 1;
      var items: seq<Json> := [];
      Spaces();
      if i < |t| && t[i] == CLOSE_LIST {
        i := i + 1;
        return true, JList(items);
      }
      hide ParseValue;
      while true
        invariant old(i) < i <= |t| && ParseItems(t, i, depth, items, fl) == all
        decreases |t| - i
      {
        ItemStep(t, i, depth, items, fl);
        Spaces();
        var x;
        ok, x := ReadValue(depth + 1);
        if !ok {
          return false, JNull;
        }
        items := items + [x];
        Spaces();
        if i >= |t| {
          return false, JNull;
        }
        if t[i] == COMMA {
          i := i + 1;
        } else if t[i] == CLOSE_LIST {
          i := i + 1;
          return true, JList(items);
        } else {
          return false, JNull;
        }
      }
    }

    method ReadDict(depth: nat) returns (ok: bool, v: Json)
      requires i < |t| && t[i] == OPEN_DICT && depth <= MAX_DEPTH
      modifies this
      ensures Agrees(ParseValue(t, old(i), depth, fl), ok, v, i)
      decreases |t| - i, 0
    {
      hide ParseItems, ParsePairs, Chars, ParseNumber, HasAt, SkipSpaces, Store, PairAt;
      ghost var all := ParseValue(t, i, depth, fl);
      i := i + 1;
      var pairs: seq<JPair> := [];
      Spaces();
      if i < |t| && t[i] == CLOSE_DICT {
        i := i + 1;
        return true, JDict(pairs);
      }
      hide ParseValue;
      while true
        invariant old(i) < i <= |t| && ParsePairs(t, i, depth, pairs, fl) == all
        decreases |t| - i
      {
        PairStep(t, i, depth, pairs, fl);
        var p;
        ok, p := ReadPair(depth);
        if !ok {
          return false, JNull;
        }
        pairs := Store(pairs, p.key, p.value);
        Spaces();
        if i >= |t| {
          return false, JNull;
        }
        if t[i] == COMMA {
          i := i + 1;
        } else if t[i] == CLOSE_DICT {
          i := i + 1;
          return true, JDict(pairs);
        } else {
          return false, JNull;
        }
      }
    }

    /** A key, a colon and a value. */
    method ReadPair(depth: nat) returns (ok: bool, p: JPair)
      requires i <= |t|
      modifies this
      ensures Agrees(PairAt(t, old(i), depth, fl), ok, p, i)
      decreases |t| - i, 2
    {
      hide Chars, ParseValue, SkipSpaces;
      p := JPair([], JNull);
      Spaces();
      if i >= |t| || t[i] != QUOTE {
        return false, p;
      }
      var key, x;
      ok, key := ReadString();
      if !ok {
        return false, p;
      }
      Spaces();
      if i >= |t| || t[i] != COLON {
        return false, p;
      }
      i := i + 1;
      Spaces();
      ok, x := ReadValue(depth + 1);
      return ok, JPair(key, x);
    }

    /** A string without escapes is copied in one go; the general loop takes over at the
      first backslash. */
    method ReadString() returns (ok: bool, out: seq<Octet>)
      requires i < |t| && t[i] == QUOTE
      modifies this
      ensures Agrees(Chars(t, old(i) + 1, []), ok, out, i)
    {
      hide Escape1;
      out := [];
      i := i + 1;
      var start := i;
      ghost var all := Chars(t, start, []);
      assert t[start..i] == [];
      while i < |t| && t[i] != QUOTE && t[i] != BACKSLASH
        invariant start <= i <= |t| && Chars(t, i, t[start..i]) == all
      {
        if t[i] < 0x20 {
          return false, [];
        }
        assert t[start..i] + [t[i]] == t[start..i + 1];
        i := i + 1;
      }
      out := t[start..i];
      if i >= |t| {
        return false, [];
      }
      if t[i] == QUOTE {
        i := i + 1;
        return true, out;
      }
      while true
        invariant i <= |t| && Chars(t, i, out) == all
        decreases |t| - i
      {
        if i >= |t| {
          return false, [];
        }
        var c := t[i];
        if c == QUOTE {
          i := i + 1;
          return true, out;
        }
        if c < 0x20 {
          return false, [];
        }
        if c != BACKSLASH {
          out := out + [c];
          i := i + 1;
        } else {
          i := i + 1;
          EscapeAdvances(t, i);
          var bytes;
          ok, bytes := ReadEscape();
          if !ok {
            return false, [];
          }
          out := out + bytes;
        }
      }
    }

    /** What follows a backslash. */
    method ReadEscape() returns (ok: bool, bytes: seq<Octet>)
      requires i <= |t|
      modifies this
      ensures Agrees(Escape1(t, old(i)), ok, bytes, i)
    {
      hide CodePoint, Utf8;
      if i >= |t| {
        return false, [];
      }
      var e := t[i];
      i := i + 1;
      if e == QUOTE || e == BACKSLASH || e == 47 {
        return true, [e];
      } else if e == 98 {
        return true, [0x08];
      } else if e == 102 {
        return true, [0x0C];
      } else if e == 110 {
        return true, [0x0A];
      } else if e == 114 {
        return true, [0x0D];
      } else if e == 116 {
        return true, [0x09];
      } else if e == 117 {
        var cp;
        ok, cp := ReadCodePoint();
        return ok, if ok then Utf8(cp) else [];
      } else {
        return false, [];
      }
    }

    method ReadCodePoint() returns (ok: bool, cp: bv32)
      requires i <= |t|
      modifies this
      ensures Agrees(CodePoint(t, old(i)), ok, cp, i)
    {
      hide Hex4;
      ok, cp := ReadHex4();
      if !ok {
        return false, 0;
      }
      if 0xD800 <= cp <= 0xDBFF {
        if i + 1 >= |t| || t[i] != BACKSLASH || t[i + 1] != 117 {
          return false, 0;
        }
        i := i + 2;
        var low;
        ok, low := ReadHex4();
        if !ok || low < 0xDC00 || low > 0xDFFF {
          return false, 0;
        }
        cp := 0x10000 + ((cp - 0xD800) << 10) + (low - 0xDC00);
      } else if 0xDC00 <= cp <= 0xDFFF {
        return false, 0;
      }
    }

    method ReadHex4() returns (ok: bool, cp: bv32)
      modifies this
      ensures Agrees(Hex4(t, old(i)), ok, cp, i)
      ensures ok ==> i <= |t|
    {
      hide HexValue, Hex4, Shifted;
      cp := 0;
      TooShort(t, i);
      if i + 4 > |t| {
        return false, 0;
      }
      var k := 0;
      while k < 4
        invariant 0 <= k <= 4 && i == old(i) && HexesUpTo(t, i, k) == Ok(cp, i + k)
      {
        hide Hex4;
        match HexValue(t[i + k]) {
          case Hex(v) =>
            cp := Shifted(cp, v);
            k := k + 1;
          case NotHex =>
            BadHex(t, i, k);
            return false, 0;
        }
      }
      AllHexes(t, i);
      i := i + 4;
      return true, cp;
    }

    method ReadNumber() returns (ok: bool, v: Json)
      requires i < |t|
      modifies this
      ensures Agrees(ParseNumber(t, old(i), fl), ok, v, i)
    {
      hide SkipDigits, IntegerOf, IntegerEnd, FractionEnd, ExponentEnd;
      var start := i;
      v := JNull;
      ok := PassInteger();
      if !ok {
        return;
      }
      var fraction, exponent;
      ok, fraction := PassFraction();
      if !ok {
        return;
      }
      ok, exponent := PassExponent();
      if !ok {
        return;
      }
      var n := IntegerOf(t[start..i]);
      if !fraction && !exponent && MIN_INT <= n <= MAX_INT {
        return true, JInt(n);
      }
      match fl.read(t[start..i]) {
        case NotReal => return false, JNull;
        case IsReal(d) => return true, JReal(d);
      }
    }

    method PassInteger() returns (ok: bool)
      requires i < |t|
      modifies this
      ensures Agrees(IntegerEnd(t, old(i)), ok, (), i)
      ensures ok ==> old(i) < i <= |t|
    {
      hide SkipDigits;
      NumberAdvances(t, i);
      if t[i] == MINUS {
        i := i + 1;
      }
      if i >= |t| {
        return false;
      }
      if t[i] == 48 {
        i := i + 1;
      } else if 49 <= t[i] <= 57 {
        PassDigits();
      } else {
        return false;
      }
      return true;
    }

    /** Whether there is a fraction, passing over it. */
    method PassFraction() returns (ok: bool, fraction: bool)
      requires i <= |t|
      modifies this
      ensures Agrees(FractionEnd(t, old(i)), ok, fraction, i)
      ensures ok ==> old(i) <= i <= |t|
    {
      hide SkipDigits;
      fraction := false;
      if i < |t| && t[i] == PERIOD {
        fraction := true;
        i := i + 1;
        if i >= |t| || !IsDigit(t[i]) {
          return false, true;
        }
        PassDigits();
      }
      ok := true;
    }

    method PassExponent() returns (ok: bool, exponent: bool)
      requires i <= |t|
      modifies this
      ensures Agrees(ExponentEnd(t, old(i)), ok, exponent, i)
      ensures ok ==> old(i) <= i <= |t|
    {
      hide SkipDigits;
      exponent := false;
      if i < |t| && (t[i] == 101 || t[i] == 69) {
        exponent := true;
        i := i + 1;
        if i < |t| && (t[i] == 43 || t[i] == 45) {
          i := i + 1;
        }
        if i >= |t| || !IsDigit(t[i]) {
          return false, true;
        }
        PassDigits();
      }
      ok := true;
    }
  }

  /** The value of the first `k` hexadecimal digits. */
  function HexesUpTo(t: seq<Octet>, i: nat, k: nat): Parsed<bv32>
    requires i + k <= |t|
  {
    if k == 0 then Ok(0, i)
    else
      match (HexesUpTo(t, i, k - 1), HexValue(t[i + k - 1]))
      case (Ok(n, j), Hex(v)) => Ok(Shifted(n, v), j + 1)
      case _ => Fail
  }

  lemma TooShort(t: seq<Octet>, i: nat)
    ensures i + 4 > |t| ==> Hex4(t, i).Fail?
  {
  }

  lemma AllHexes(t: seq<Octet>, i: nat)
    requires i + 4 <= |t|
    ensures HexesUpTo(t, i, 4) == Hex4(t, i)
  {
    hide HexValue, Shifted;
    var h0, h1, h2, h3 := HexValue(t[i]), HexValue(t[i + 1]), HexValue(t[i + 2]), HexValue(t[i + 3]);
    assert HexesUpTo(t, i, 0) == Ok(0, i);
    assert HexesUpTo(t, i, 1) == match h0 case Hex(a) => Ok(Shifted(0, a), i + 1) case NotHex => Fail;
    assert h0.Hex? && h1.Hex? ==> HexesUpTo(t, i, 2) == Ok(Shifted(Shifted(0, h0.v), h1.v), i + 2);
    assert h0.NotHex? || h1.NotHex? ==> HexesUpTo(t, i, 2) == Fail;
  }

  lemma BadHex(t: seq<Octet>, i: nat, k: nat)
    requires i + 4 <= |t| && k < 4 && HexValue(t[i + k]).NotHex?
    ensures Hex4(t, i).Fail?
  {
  }

  /** One turn of the loop over the items. */
  lemma ItemStep(t: seq<Octet>, i: nat, depth: nat, done: seq<Json>, fl: Floats)
    requires i <= |t|
    ensures ParseItems(t, i, depth, done, fl)
            == match ParseValue(t, SkipSpaces(t, i), depth + 1, fl)
               case Fail => Fail
               case Ok(v, b) =>
                 var c := SkipSpaces(t, b);
                 if c >= |t| then Fail
                 else if t[c] == COMMA then ParseItems(t, c + 1, depth, done + [v], fl)
                 else if t[c] == CLOSE_LIST then Ok(JList(done + [v]), c + 1)
                 else Fail
  {
    hide ParseValue, SkipSpaces;
  }

  /** A key and its value. */
  function PairAt(t: seq<Octet>, i: nat, depth: nat, fl: Floats): (r: Parsed<JPair>)
    requires i <= |t|
    ensures r.Ok? ==> i < r.next <= |t|
  {
    var a := SkipSpaces(t, i);
    if a >= |t| || t[a] != QUOTE then Fail
    else
      match Chars(t, a + 1, [])
      case Fail => Fail
      case Ok(key, b) =>
        var c := SkipSpaces(t, b);
        if c >= |t| || t[c] != COLON then Fail
        else
          match ParseValue(t, SkipSpaces(t, c + 1), depth + 1, fl)
          case Fail => Fail
          case Ok(v, d) => Ok(JPair(key, v), d)
  }

  lemma PairStep(t: seq<Octet>, i: nat, depth: nat, done: seq<JPair>, fl: Floats)
    requires i <= |t|
    ensures ParsePairs(t, i, depth, done, fl)
            == match PairAt(t, i, depth, fl)
               case Fail => Fail
               case Ok(p, d) =>
                 var e := SkipSpaces(t, d);
                 if e >= |t| then Fail
                 else if t[e] == COMMA then ParsePairs(t, e + 1, depth, Store(done, p.key, p.value), fl)
                 else if t[e] == CLOSE_DICT then Ok(JDict(Store(done, p.key, p.value)), e + 1)
                 else Fail
  {
    hide ParseValue, SkipSpaces, Chars, Store;
  }

  // ─── Writing ───────────────────────────────────────────────────────────────

  /** Adds the text of a value to what is already there. */
  method Write(v: Json, before: seq<Octet>, fl: Floats) returns (out: seq<Octet>)
    ensures out == before + Written(v, fl)
    decreases v
  {
    hide Quoted, Digits, Internal;
    match v {
      case JNull => out := before + NULL_TEXT;
      case JBool(b) => out := before + if b then TRUE_TEXT else FALSE_TEXT;
      case JInt(i) => out := before + Decimal(i);
      case JReal(d) => out := before + fl.write(d);
      case JStr(s) =>
        var w := WriteString(s);
        out := before + w;
      case JList(items) => out := WriteList(items, before, fl);
      case JDict(pairs) => out := WriteDict(pairs, before, fl);
    }
  }

  method WriteList(items: seq<Json>, before: seq<Octet>, fl: Floats) returns (out: seq<Octet>)
    ensures out == before + ([OPEN_LIST] + WrittenItems(items, true, fl) + [CLOSE_LIST])
    decreases items
  {
    hide Written;
    out := before + [OPEN_LIST];
    var first := true;
    assert items[0..] == items;
    for k := 0 to |items|
      invariant out + WrittenItems(items[k..], first, fl) == before + [OPEN_LIST] + WrittenItems(items, true, fl)
    {
      assert items[k..][0] == items[k] && items[k..][1..] == items[k + 1..];
      if !first {
        out := out + [COMMA];
      }
      first := false;
      out := Write(items[k], out, fl);
    }
    assert items[|items|..] == [];
    assert out == before + [OPEN_LIST] + WrittenItems(items, true, fl);
    out := out + [CLOSE_LIST];
  }

  /** Internal keys are passed over, and take no comma. */
  method WriteDict(pairs: seq<JPair>, before: seq<Octet>, fl: Floats) returns (out: seq<Octet>)
    ensures out == before + ([OPEN_DICT] + WrittenPairs(pairs, true, fl) + [CLOSE_DICT])
    decreases pairs
  {
    hide Written, Quoted, Internal;
    out := before + [OPEN_DICT];
    var first := true;
    assert pairs[0..] == pairs;
    for k := 0 to |pairs|
      invariant out + WrittenPairs(pairs[k..], first, fl) == before + [OPEN_DICT] + WrittenPairs(pairs, true, fl)
    {
      assert pairs[k..][0] == pairs[k] && pairs[k..][1..] == pairs[k + 1..];
      if !Internal(pairs[k].key) {
        if !first {
          out := out + [COMMA];
        }
        first := false;
        var key := WriteString(pairs[k].key);
        out := out + key + [COLON];
        out := Write(pairs[k].value, out, fl);
      }
    }
    assert pairs[|pairs|..] == [];
    assert out == before + [OPEN_DICT] + WrittenPairs(pairs, true, fl);
    out := out + [CLOSE_DICT];
  }

  // ─── What is accepted ──────────────────────────────────────────────────────

  /** The limits that hold of every value the parser builds. */
  predicate Tame(v: Json) {
    match v
    case JInt(i) => MIN_INT <= i <= MAX_INT
    case JList(items) => forall k :: 0 <= k < |items| ==> Tame(items[k])
    case JDict(pairs) => TamePairs(pairs)
    case _ => true
  }

  predicate TamePairs(pairs: seq<JPair>) {
    && (forall k :: 0 <= k < |pairs| ==> Tame(pairs[k].value))
    && (forall j, k :: 0 <= j < k < |pairs| ==> pairs[j].key != pairs[k].key)
  }

  predicate HasKey(pairs: seq<JPair>, key: seq<Octet>) { exists k :: 0 <= k < |pairs| && pairs[k].key == key }

  /** Storing brings in no other key. */
  lemma {:induction false} StoreKeys(pairs: seq<JPair>, key: seq<Octet>, v: Json, other: seq<Octet>)
    requires HasKey(Store(pairs, key, v), other)
    ensures other == key || HasKey(pairs, other)
  {
    if pairs != [] {
      var r := Store(pairs, key, v);
      var k :| 0 <= k < |r| && r[k].key == other;
      if k == 0 {
        assert pairs[0].key == r[0].key;
      } else if pairs[0].key != key {
        assert Store(pairs[1..], key, v)[k - 1].key == other;
        StoreKeys(pairs[1..], key, v, other);
        if other != key {
          var m :| 0 <= m < |pairs[1..]| && pairs[1..][m].key == other;
          assert pairs[m + 1].key == other;
        }
      } else {
        assert pairs[k].key == other;
      }
    }
  }

  lemma {:induction false} StoreIsTame(pairs: seq<JPair>, key: seq<Octet>, v: Json)
    requires TamePairs(pairs) && Tame(v)
    ensures TamePairs(Store(pairs, key, v))
  {
    hide Tame;
    if pairs != [] && pairs[0].key != key {
      StoreIsTame(pairs[1..], key, v);
      var r := Store(pairs[1..], key, v);
      forall k | 0 <= k < |r|
        ensures r[k].key != pairs[0].key
      {
        StoreKeys(pairs[1..], key, v, r[k].key);
      }
    }
  }

  lemma {:induction false} StoreDepth(pairs: seq<JPair>, key: seq<Octet>, v: Json)
    ensures DepthOfPairs(Store(pairs, key, v)) <= Max(DepthOfPairs(pairs), Depth(v) + 1)
  {
    hide Depth;
    if pairs != [] {
      assert ([JPair(key, v)] + pairs[1..])[1..] == pairs[1..];
      assert ([pairs[0]] + Store(pairs[1..], key, v))[1..] == Store(pairs[1..], key, v);
      if pairs[0].key != key {
        StoreDepth(pairs[1..], key, v);
      }
    }
  }

  lemma {:induction false} OneMoreItem(items: seq<Json>, v: Json)
    ensures DepthOfItems(items + [v]) == Max(DepthOfItems(items), Depth(v) + 1)
  {
    hide Depth;
    if items != [] {
      assert (items + [v])[1..] == items[1..] + [v];
      OneMoreItem(items[1..], v);
    } else {
      assert [v][1..] == [];
      assert items + [v] == [v];
    }
  }

  /** Every accepted document is nested 200 deep at most, has integers of 64 bits and no
    repeated key. */
  lemma AcceptedIsTame(t: seq<Octet>, fl: Floats)
    requires ParseDocument(t, fl).Accepted?
    ensures Tame(ParseDocument(t, fl).value) && Depth(ParseDocument(t, fl).value) <= MAX_DEPTH
  {
    ValueIsTame(t, SkipSpaces(t, 0), 0, fl);
  }

  lemma {:induction false} ValueIsTame(t: seq<Octet>, i: nat, depth: nat, fl: Floats)
    ensures var r := ParseValue(t, i, depth, fl);
            r.Ok? ==> Tame(r.value) && depth + Depth(r.value) <= MAX_DEPTH
    decreases if i <= |t| then |t| - i else 0, 1
  {
    hide ParseItems, ParsePairs, Chars, ParseNumber, HasAt, SkipSpaces;
    if depth <= MAX_DEPTH && i < |t| {
      NumberIsTame(t, i, fl);
      if t[i] == OPEN_LIST {
        ItemsAreTame(t, SkipSpaces(t, i + 1), depth, [], fl);
      } else if t[i] == OPEN_DICT {
        PairsAreTame(t, SkipSpaces(t, i + 1), depth, [], fl);
      }
    }
  }

  lemma NumberIsTame(t: seq<Octet>, i: nat, fl: Floats)
    ensures var r := ParseNumber(t, i, fl);
            r.Ok? ==> Tame(r.value) && Depth(r.value) == 0
  {
    hide IntegerEnd, FractionEnd, ExponentEnd, IntegerOf;
  }

  lemma {:induction false} ItemsAreTame(t: seq<Octet>, i: nat, depth: nat, done: seq<Json>, fl: Floats)
    requires i <= |t| && depth <= MAX_DEPTH
    requires (forall k :: 0 <= k < |done| ==> Tame(done[k])) && depth + DepthOfItems(done) <= MAX_DEPTH
    ensures var r := ParseItems(t, i, depth, done, fl);
            r.Ok? ==> Tame(r.value) && depth + Depth(r.value) <= MAX_DEPTH
    decreases |t| - i, 2
  {
    hide ParseItems, ParseValue, SkipSpaces, DepthOfItems;
    ItemStep(t, i, depth, done, fl);
    var a := SkipSpaces(t, i);
    ValueIsTame(t, a, depth + 1, fl);
    match ParseValue(t, a, depth + 1, fl)
    case Fail =>
    case Ok(v, b) =>
      OneMoreItem(done, v);
      var c := SkipSpaces(t, b);
      if c < |t| && t[c] == COMMA {
        ItemsAreTame(t, c + 1, depth, done + [v], fl);
      }
  }

  lemma {:induction false} PairsAreTame(t: seq<Octet>, i: nat, depth: nat, done: seq<JPair>, fl: Floats)
    requires i <= |t| && depth <= MAX_DEPTH && TamePairs(done) && depth + DepthOfPairs(done) <= MAX_DEPTH
    ensures var r := ParsePairs(t, i, depth, done, fl);
            r.Ok? ==> Tame(r.value) && depth + Depth(r.value) <= MAX_DEPTH
    decreases |t| - i, 2
  {
    hide ParsePairs, ParseValue, SkipSpaces, DepthOfPairs, Chars, Store, TamePairs, PairAt;
    PairStep(t, i, depth, done, fl);
    PairIsTame(t, i, depth, fl);
    match PairAt(t, i, depth, fl)
    case Fail =>
    case Ok(p, b) =>
      StoreIsTame(done, p.key, p.value);
      StoreDepth(done, p.key, p.value);
      var c := SkipSpaces(t, b);
      if c < |t| && t[c] == COMMA {
        PairsAreTame(t, c + 1, depth, Store(done, p.key, p.value), fl);
      }
  }

  lemma {:induction false} PairIsTame(t: seq<Octet>, i: nat, depth: nat, fl: Floats)
    requires i <= |t|
    ensures var r := PairAt(t, i, depth, fl);
            r.Ok? ==> Tame(r.value.value) && depth + 1 + Depth(r.value.value) <= MAX_DEPTH
    decreases |t| - i, 0
  {
    hide ParseValue, SkipSpaces, Chars, Tame, Depth;
    var a := SkipSpaces(t, i);
    if a < |t| && t[a] == QUOTE && Chars(t, a + 1, []).Ok? {
      var c := SkipSpaces(t, Chars(t, a + 1, []).next);
      if c < |t| {
        ValueIsTame(t, SkipSpaces(t, c + 1), depth + 1, fl);
      }
    }
  }

  // ─── Escapes make characters ───────────────────────────────────────────────

  /** The code points that are characters: no surrogates, none above U+10FFFF. */
  predicate IsScalar(cp: bv32) { cp < 0xD800 || 0xE000 <= cp <= 0x10FFFF }

  function Join2(a: Octet, b: Octet): bv32 { (((a & 0x1F) as bv32) << 6) | ((b & 0x3F) as bv32) }

  function Join3(a: Octet, b: Octet, c: Octet): bv32 {
    (((a & 0x0F) as bv32) << 12) | (((b & 0x3F) as bv32) << 6) | ((c & 0x3F) as bv32)
  }

  function Join4(a: Octet, b: Octet, c: Octet, d: Octet): bv32 {
    (((a & 0x07) as bv32) << 18) | (((b & 0x3F) as bv32) << 12) | (((c & 0x3F) as bv32) << 6) | ((d & 0x3F) as bv32)
  }

  /** The code point that the bytes of a character stand for (RFC 3629, section 3). */
  function CodePointOf(c: seq<Octet>): bv32
    requires 1 <= |c| <= 4
  {
    if |c| == 1 then c[0] as bv32
    else if |c| == 2 then Join2(c[0], c[1])
    else if |c| == 3 then Join3(c[0], c[1], c[2])
    else Join4(c[0], c[1], c[2], c[3])
  }

  lemma OneByte(cp: bv32)
    requires cp < 0x80
    ensures ((cp & 0xFF) as Octet) <= 0x7F && ((cp & 0xFF) as Octet) as bv32 == cp
  {
  }

  lemma TailBits(bits: bv32)
    ensures IsTail(Tail(bits)) && ((Tail(bits) & 0x3F) as bv32) == bits & 0x3F
  {
  }

  lemma TwoBytes(cp: bv32)
    requires 0x80 <= cp < 0x800
    ensures 0xC2 <= Lead2(cp) <= 0xDF && Join2(Lead2(cp), Tail(cp)) == cp
  {
  }

  lemma ThreeBytesInRange(cp: bv32)
    requires 0x800 <= cp < 0x10000 && IsScalar(cp)
    ensures var a, b := Lead3(cp), Tail(cp >> 6);
            0xE0 <= a <= 0xEF && (a == 0xE0 ==> 0xA0 <= b) && (a == 0xED ==> b <= 0x9F)
  {
  }

  lemma Lead3Bits(cp: bv32)
    requires 0x800 <= cp < 0x10000
    ensures ((Lead3(cp) & 0x0F) as bv32) == cp >> 12
  {
  }

  lemma ThreeFields(cp: bv32)
    requires cp < 0x10000
    ensures ((cp >> 12) << 12) | (((cp >> 6) & 0x3F) << 6) | (cp & 0x3F) == cp
  {
  }

  lemma ThreeBytesJoin(cp: bv32)
    requires 0x800 <= cp < 0x10000
    ensures Join3(Lead3(cp), Tail(cp >> 6), Tail(cp)) == cp
  {
    hide Lead3, Tail;
    Lead3Bits(cp);
    TailBits(cp >> 6);
    TailBits(cp);
    ThreeFields(cp);
  }

  lemma FourBytesInRange(cp: bv32)
    requires 0x10000 <= cp <= 0x10FFFF
    ensures var a, b := Lead4(cp), Tail(cp >> 12);
            0xF0 <= a <= 0xF4 && (a == 0xF0 ==> 0x90 <= b) && (a == 0xF4 ==> b <= 0x8F)
  {
  }

  lemma Lead4Bits(cp: bv32)
    requires 0x10000 <= cp <= 0x10FFFF
    ensures ((Lead4(cp) & 0x07) as bv32) == cp >> 18
  {
  }

  lemma FourFields(cp: bv32)
    requires cp <= 0x10FFFF
    ensures ((cp >> 18) << 18) | (((cp >> 12) & 0x3F) << 12) | (((cp >> 6) & 0x3F) << 6) | (cp & 0x3F) == cp
  {
  }

  lemma FourBytesJoin(cp: bv32)
    requires 0x10000 <= cp <= 0x10FFFF
    ensures Join4(Lead4(cp), Tail(cp >> 12), Tail(cp >> 6), Tail(cp)) == cp
  {
    hide Lead4, Tail;
    Lead4Bits(cp);
    TailBits(cp >> 12);
    TailBits(cp >> 6);
    TailBits(cp);
    FourFields(cp);
  }

  /** The encoder writes the one character of a code point. */
  lemma Utf8IsExact(cp: bv32)
    requires IsScalar(cp)
    ensures IsChar(Utf8(cp)) && 1 <= |Utf8(cp)| <= 4 && CodePointOf(Utf8(cp)) == cp
  {
    hide Lead2, Lead3, Lead4, Tail, Join2, Join3, Join4, IsTail;
    if cp < 0x80 {
      OneByte(cp);
    } else if cp < 0x800 {
      TwoBytes(cp);
      TailBits(cp);
    } else if cp < 0x10000 {
      ThreeBytesInRange(cp);
      ThreeBytesJoin(cp);
      TailBits(cp >> 6);
      TailBits(cp);
      ThreeIsChar(Utf8(cp));
    } else {
      FourBytesInRange(cp);
      FourBytesJoin(cp);
      TailBits(cp >> 12);
      TailBits(cp >> 6);
      TailBits(cp);
      FourIsChar(Utf8(cp));
    }
  }

  lemma ThreeIsChar(u: seq<Octet>)
    requires |u| == 3 && 0xE0 <= u[0] <= 0xEF && IsTail(u[1]) && IsTail(u[2])
    requires (u[0] == 0xE0 ==> 0xA0 <= u[1]) && (u[0] == 0xED ==> u[1] <= 0x9F)
    ensures IsChar(u)
  {
  }

  lemma FourIsChar(u: seq<Octet>)
    requires |u| == 4 && 0xF0 <= u[0] <= 0xF4 && IsTail(u[1]) && IsTail(u[2]) && IsTail(u[3])
    requires (u[0] == 0xF0 ==> 0x90 <= u[1]) && (u[0] == 0xF4 ==> u[1] <= 0x8F)
    ensures IsChar(u)
  {
  }

  lemma HexIsSmall(c: Octet)
    ensures HexValue(c).Hex? ==> HexValue(c).v < 16
  {
  }

  lemma FourHexes(a: bv32, b: bv32, c: bv32, d: bv32)
    requires a < 16 && b < 16 && c < 16 && d < 16
    ensures Shifted(Shifted(Shifted(Shifted(0, a), b), c), d) <= 0xFFFF
  {
  }

  lemma Hex4IsSmall(t: seq<Octet>, i: nat)
    ensures Hex4(t, i).Ok? ==> Hex4(t, i).value <= 0xFFFF
  {
    hide HexValue, Shifted;
    if Hex4(t, i).Ok? {
      HexIsSmall(t[i]);
      HexIsSmall(t[i + 1]);
      HexIsSmall(t[i + 2]);
      HexIsSmall(t[i + 3]);
      FourHexes(HexValue(t[i]).v, HexValue(t[i + 1]).v, HexValue(t[i + 2]).v, HexValue(t[i + 3]).v);
    }
  }

  lemma PairIsScalar(high: bv32, low: bv32)
    requires 0xD800 <= high <= 0xDBFF && 0xDC00 <= low <= 0xDFFF
    ensures IsScalar(0x10000 + ((high - 0xD800) << 10) + (low - 0xDC00))
  {
  }

  /** An escape that is accepted always stands for one character, surrogate pairs included. */
  lemma EscapesAreChars(t: seq<Octet>, i: nat)
    ensures Escape1(t, i).Ok? ==> IsChar(Escape1(t, i).value)
  {
    hide Hex4, Utf8;
    if Escape1(t, i).Ok? && t[i] == 117 {
      hide Escape1;
      Hex4IsSmall(t, i + 1);
      var high := Hex4(t, i + 1).value;
      if 0xD800 <= high <= 0xDBFF {
        PairIsScalar(high, Hex4(t, Hex4(t, i + 1).next + 2).value);
      }
      assert CodePoint(t, i + 1).Ok? && IsScalar(CodePoint(t, i + 1).value);
      Utf8IsExact(CodePoint(t, i + 1).value);
      UnicodeEscape(t, i);
    }
  }

  lemma UnicodeEscape(t: seq<Octet>, i: nat)
    requires i < |t| && t[i] == 117 && CodePoint(t, i + 1).Ok?
    ensures Escape1(t, i) == Ok(Utf8(CodePoint(t, i + 1).value), CodePoint(t, i + 1).next)
  {
    hide CodePoint, Utf8;
  }
}
