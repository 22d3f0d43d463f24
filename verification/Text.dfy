/** Text as JSON needs it: escaped (RFC 8259, section 7) and valid UTF-8 (RFC 3629,
  section 4), with the fast paths that look at eight bytes at a time. */
module Text {

  type Octet = bv8

  const QUOTE: Octet := 0x22
  const BACKSLASH: Octet := 0x5C

  // ─── Eight bytes at a time ─────────────────────────────────────────────────

  const ONES: bv64 := 0x0101010101010101
  const HIGHS: bv64 := 0x8080808080808080

  /** Eight bytes as a word, the first in the lowest place. */
  function Word(b0: Octet, b1: Octet, b2: Octet, b3: Octet, b4: Octet, b5: Octet, b6: Octet, b7: Octet): bv64 {
    (b0 as bv64) | ((b1 as bv64) << 8) | ((b2 as bv64) << 16) | ((b3 as bv64) << 24)
    | ((b4 as bv64) << 32) | ((b5 as bv64) << 40) | ((b6 as bv64) << 48) | ((b7 as bv64) << 56)
  }

  function WordAt(s: seq<Octet>, i: nat): bv64
    requires i + 8 <= |s|
  {
    Word(s[i], s[i + 1], s[i + 2], s[i + 3], s[i + 4], s[i + 5], s[i + 6], s[i + 7])
  }

  predicate NeedsEscape(c: Octet) { c < 0x20 || c == QUOTE || c == BACKSLASH }

  /** Three tests on the whole word: the borrow of a subtraction reaches a higher byte
    only from a byte that has to be escaped itself. */
  predicate DirtyWord(w: bv64) {
    var below := (w - 0x2020202020202020) & !w & HIGHS;
    var quotes := w ^ 0x2222222222222222;
    var slashes := w ^ 0x5C5C5C5C5C5C5C5C;
    (below | ((quotes - ONES) & !quotes & HIGHS) | ((slashes - ONES) & !slashes & HIGHS)) != 0
  }

  lemma DirtyWordIsExact(b0: Octet, b1: Octet, b2: Octet, b3: Octet, b4: Octet, b5: Octet, b6: Octet, b7: Octet)
    ensures DirtyWord(Word(b0, b1, b2, b3, b4, b5, b6, b7))
            <==> NeedsEscape(b0) || NeedsEscape(b1) || NeedsEscape(b2) || NeedsEscape(b3)
                 || NeedsEscape(b4) || NeedsEscape(b5) || NeedsEscape(b6) || NeedsEscape(b7)
  {
  }

  predicate AsciiWord(w: bv64) { w & HIGHS == 0 }

  lemma AsciiWordIsExact(b0: Octet, b1: Octet, b2: Octet, b3: Octet, b4: Octet, b5: Octet, b6: Octet, b7: Octet)
    ensures AsciiWord(Word(b0, b1, b2, b3, b4, b5, b6, b7))
            <==> b0 < 0x80 && b1 < 0x80 && b2 < 0x80 && b3 < 0x80 && b4 < 0x80 && b5 < 0x80 && b6 < 0x80 && b7 < 0x80
  {
  }

  lemma DirtyWordAt(s: seq<Octet>, i: nat)
    requires i + 8 <= |s|
    ensures DirtyWord(WordAt(s, i)) <==> exists j :: i <= j < i + 8 && NeedsEscape(s[j])
  {
    hide NeedsEscape, DirtyWord, Word;
    DirtyWordIsExact(s[i], s[i + 1], s[i + 2], s[i + 3], s[i + 4], s[i + 5], s[i + 6], s[i + 7]);
  }

  lemma AsciiWordAt(s: seq<Octet>, i: nat)
    requires i + 8 <= |s|
    ensures AsciiWord(WordAt(s, i)) <==> forall j :: i <= j < i + 8 ==> s[j] < 0x80
  {
    hide AsciiWord, Word;
    AsciiWordIsExact(s[i], s[i + 1], s[i + 2], s[i + 3], s[i + 4], s[i + 5], s[i + 6], s[i + 7]);
  }

  // ─── Escaping ──────────────────────────────────────────────────────────────

  function HexDigit(v: Octet): Octet { if v < 10 then 48 + v else 87 + v }

  function EscapeByte(c: Octet): seq<Octet> {
    if c == QUOTE then [BACKSLASH, QUOTE]
    else if c == BACKSLASH then [BACKSLASH, BACKSLASH]
    else if c == 0x08 then [BACKSLASH, 98]
    else if c == 0x0C then [BACKSLASH, 102]
    else if c == 0x0A then [BACKSLASH, 110]
    else if c == 0x0D then [BACKSLASH, 114]
    else if c == 0x09 then [BACKSLASH, 116]
    else if c < 0x20 then [BACKSLASH, 117, 48, 48, HexDigit(c >> 4), HexDigit(c & 0xF)]
    else [c]
  }

  function EscapedBytes(s: seq<Octet>): seq<Octet> {
    if s == [] then [] else EscapeByte(s[0]) + EscapedBytes(s[1..])
  }

  /** Byte by byte, between quotes. */
  function Escaped(s: seq<Octet>): seq<Octet> { [QUOTE] + EscapedBytes(s) + [QUOTE] }

  lemma {:induction false} EscapedJoin(a: seq<Octet>, b: seq<Octet>)
    ensures EscapedBytes(a + b) == EscapedBytes(a) + EscapedBytes(b)
  {
    hide EscapeByte;
    if a == [] {
      assert a + b == b;
    } else {
      assert (a + b)[1..] == a[1..] + b;
      EscapedJoin(a[1..], b);
    }
  }

  predicate Clean(s: seq<Octet>) { forall i :: 0 <= i < |s| ==> !NeedsEscape(s[i]) }

  lemma {:induction false} CleanIsItself(s: seq<Octet>)
    requires Clean(s)
    ensures EscapedBytes(s) == s
  {
    if s != [] {
      CleanIsItself(s[1..]);
    }
  }

  /** Goes on over clean bytes, eight at a time while it can. */
  method SkipClean(s: seq<Octet>, start: nat) returns (i: nat)
    requires start <= |s|
    ensures start <= i <= |s| && Clean(s[start..i]) && (i < |s| ==> NeedsEscape(s[i]))
  {
    hide NeedsEscape, DirtyWord, WordAt;
    i := start;
    while i + 8 <= |s|
      invariant start <= i <= |s| && forall j :: start <= j < i ==> !NeedsEscape(s[j])
    {
      DirtyWordAt(s, i);
      if DirtyWord(WordAt(s, i)) {
        break;
      }
      i := i + 8;
    }
    while i < |s| && !NeedsEscape(s[i])
      invariant start <= i <= |s| && forall j :: start <= j < i ==> !NeedsEscape(s[j])
    {
      i := i + 1;
    }
  }

  /** The fast escaper writes what the byte by byte one does. */
  method Escape(s: seq<Octet>) returns (out: seq<Octet>)
    ensures out == Escaped(s)
  {
    hide EscapeByte, NeedsEscape, Clean;
    out := [QUOTE];
    var i, clean := 0, 0;
    assert s[..0] == [];
    while i < |s|
      invariant 0 <= clean == i <= |s| && out == [QUOTE] + EscapedBytes(s[..clean])
    {
      i := SkipClean(s, i);
      CleanIsItself(s[clean..i]);
      EscapedJoin(s[..clean], s[clean..i]);
      assert s[..clean] + s[clean..i] == s[..i];
      out := out + s[clean..i];
      clean := i;
      if i < |s| {
        EscapedJoin(s[..i], [s[i]]);
        OneEscaped(s[i]);
        assert s[..i] + [s[i]] == s[..i + 1];
        out := out + EscapeByte(s[i]);
        i := i + 1;
        clean := i;
      }
    }
    assert s[..i] == s;
    out := out + [QUOTE];
  }

  lemma OneEscaped(c: Octet)
    ensures EscapedBytes([c]) == EscapeByte(c)
  {
    assert [c][1..] == [];
    assert EscapeByte(c) + [] == EscapeByte(c);
  }

  // ─── UTF-8 ─────────────────────────────────────────────────────────────────

  predicate IsTail(c: Octet) { 0x80 <= c <= 0xBF }

  /** The grammar of a character: UTF8-char in section 4 of RFC 3629. */
  predicate IsChar(s: seq<Octet>) {
    if |s| == 1 then s[0] <= 0x7F
    else if |s| == 2 then 0xC2 <= s[0] <= 0xDF && IsTail(s[1])
    else if |s| == 3 then
      && IsTail(s[2])
      && (|| (s[0] == 0xE0 && 0xA0 <= s[1] <= 0xBF)
          || (0xE1 <= s[0] <= 0xEC && IsTail(s[1]))
          || (s[0] == 0xED && 0x80 <= s[1] <= 0x9F)
          || (0xEE <= s[0] <= 0xEF && IsTail(s[1])))
    else if |s| == 4 then
      && IsTail(s[2]) && IsTail(s[3])
      && (|| (s[0] == 0xF0 && 0x90 <= s[1] <= 0xBF)
          || (0xF1 <= s[0] <= 0xF3 && IsTail(s[1]))
          || (s[0] == 0xF4 && 0x80 <= s[1] <= 0x8F))
    else false
  }

  predicate StartsWithChar(s: seq<Octet>, n: nat) { n <= |s| && IsChar(s[..n]) }

  /** A string of characters. */
  predicate ValidUtf8(s: seq<Octet>) {
    s == [] || exists n :: 1 <= n <= |s| && StartsWithChar(s, n) && ValidUtf8(s[n..])
  }

  predicate Continues(s: seq<Octet>, i: nat) { i < |s| && s[i] & 0xC0 == 0x80 }

  /** How long the character at `i` is, or 0 when there is none. */
  function CharLength(s: seq<Octet>, i: nat): nat
    requires i < |s|
  {
    var c := s[i];
    if c < 0x80 then 1
    else if c < 0xC2 then 0
    else if c < 0xE0 then if Continues(s, i + 1) then 2 else 0
    else if c < 0xF0 then
      if !Continues(s, i + 1) || !Continues(s, i + 2) then 0
      else if c == 0xE0 && s[i + 1] < 0xA0 then 0
      else if c == 0xED && s[i + 1] >= 0xA0 then 0
      else 3
    else if c < 0xF5 then
      if !Continues(s, i + 1) || !Continues(s, i + 2) || !Continues(s, i + 3) then 0
      else if c == 0xF0 && s[i + 1] < 0x90 then 0
      else if c == 0xF4 && s[i + 1] >= 0x90 then 0
      else 4
    else 0
  }

  lemma ContinuesIsTail(c: Octet)
    ensures c & 0xC0 == 0x80 <==> IsTail(c)
  {
  }

  /** The length is exactly that of the one character that can start there. */
  lemma CharLengthIsExact(s: seq<Octet>, i: nat, n: nat)
    requires i < |s| && 1 <= n
    ensures CharLength(s, i) == n <==> StartsWithChar(s[i..], n)
    ensures CharLength(s, i) <= |s| - i
  {
    forall c: Octet
      ensures c & 0xC0 == 0x80 <==> IsTail(c)
    {
      ContinuesIsTail(c);
    }
    hide IsTail;
    var r := s[i..];
    assert r[0] == s[i];
    assert |r| > 1 ==> r[1] == s[i + 1];
    assert |r| > 2 ==> r[2] == s[i + 2];
    assert |r| > 3 ==> r[3] == s[i + 3];
    if n <= |r| {
      var h := r[..n];
      assert h[0] == r[0];
      assert n > 1 ==> h[1] == r[1];
      assert n > 2 ==> h[2] == r[2];
      assert n > 3 ==> h[3] == r[3];
    }
  }
  // ─── Whole strings ─────────────────────────────────────────────────────────

  /** One character at a time: there is only one way to go on. */
  lemma ValidStep(s: seq<Octet>)
    requires s != []
    ensures CharLength(s, 0) <= |s|
    ensures ValidUtf8(s) <==> CharLength(s, 0) > 0 && ValidUtf8(s[CharLength(s, 0)..])
  {
    hide IsChar, Continues;
    var l := CharLength(s, 0);
    assert s[0..] == s;
    CharLengthIsExact(s, 0, 1);
    if l > 0 {
      CharLengthIsExact(s, 0, l);
    }
    forall n | 1 <= n <= |s| && StartsWithChar(s, n)
      ensures n == l
    {
      CharLengthIsExact(s, 0, n);
    }
  }

  lemma ValidSkip(s: seq<Octet>, i: nat)
    requires i < |s| && s[i] < 0x80
    ensures ValidUtf8(s[i..]) <==> ValidUtf8(s[i + 1..])
  {
    hide IsChar, Continues, ValidUtf8;
    ValidStep(s[i..]);
    assert s[i..][1..] == s[i + 1..];
  }

  /** Skipping ASCII, eight bytes at a time, changes nothing. */
  method IsValidUtf8(s: seq<Octet>) returns (ok: bool)
    ensures ok <==> ValidUtf8(s)
  {
    hide ValidUtf8, CharLength, AsciiWord, WordAt, Continues;
    var i := 0;
    assert s[0..] == s;
    while i < |s|
      invariant 0 <= i <= |s| && (ValidUtf8(s[i..]) <==> ValidUtf8(s))
    {
      while i + 8 <= |s|
        invariant 0 <= i <= |s| && (ValidUtf8(s[i..]) <==> ValidUtf8(s))
      {
        AsciiWordAt(s, i);
        if !AsciiWord(WordAt(s, i)) {
          break;
        }
        SkipEight(s, i);
        i := i + 8;
      }
      if i >= |s| {
        break;
      }
      ValidStep(s[i..]);
      SameLength(s, i);
      if s[i] < 0x80 {
        ValidSkip(s, i);
        i := i + 1;
      } else {
        var l := CharLength(s, i);
        if l == 0 {
          return false;
        }
        assert s[i..][l..] == s[i + l..];
        i := i + l;
      }
    }
    assert s[i..] == [];
    NothingIsValid();
    return true;
  }

  lemma NothingIsValid()
    ensures ValidUtf8([])
  {
  }

  lemma SkipEight(s: seq<Octet>, i: nat)
    requires i + 8 <= |s| && forall j :: i <= j < i + 8 ==> s[j] < 0x80
    ensures ValidUtf8(s[i..]) <==> ValidUtf8(s[i + 8..])
  {
    hide ValidUtf8;
    ValidSkip(s, i);
    ValidSkip(s, i + 1);
    ValidSkip(s, i + 2);
    ValidSkip(s, i + 3);
    ValidSkip(s, i + 4);
    ValidSkip(s, i + 5);
    ValidSkip(s, i + 6);
    ValidSkip(s, i + 7);
  }

  lemma SameLength(s: seq<Octet>, i: nat)
    requires i < |s|
    ensures CharLength(s[i..], 0) == CharLength(s, i) <= |s| - i
  {
    CharLengthIsExact(s, i, 1);
    var r := s[i..];
    assert forall k :: 0 <= k < |r| ==> r[k] == s[i + k];
    assert forall k: nat :: Continues(r, k) == Continues(s, i + k);
  }

  /** U+FFFD, in UTF-8. */
  const REPLACEMENT: seq<Octet> := [0xEF, 0xBF, 0xBD]

  /** Every byte that starts no character is replaced. */
  function Sanitised(s: seq<Octet>): seq<Octet>
    decreases |s|
  {
    if s == [] then []
    else
      var l := CharLength(s, 0);
      if l == 0 || l > |s| then REPLACEMENT + Sanitised(s[1..]) else s[..l] + Sanitised(s[l..])
  }

  lemma ValidCons(c: seq<Octet>, s: seq<Octet>)
    requires IsChar(c) && ValidUtf8(s)
    ensures ValidUtf8(c + s)
  {
    hide IsChar;
    assert |c| >= 1 by { CharsAreSomething(c); }
    assert (c + s)[..|c|] == c && (c + s)[|c|..] == s;
    assert StartsWithChar(c + s, |c|);
  }

  lemma CharsAreSomething(c: seq<Octet>)
    requires IsChar(c)
    ensures 1 <= |c| <= 4
  {
  }

  /** What comes out is always valid, and what was valid comes out as it was. */
  lemma {:induction false} SanitisedIsValid(s: seq<Octet>)
    ensures ValidUtf8(Sanitised(s))
    ensures ValidUtf8(s) ==> Sanitised(s) == s
    decreases |s|
  {
    hide IsChar, CharLength, Continues, ValidUtf8;
    NothingIsValid();
    if s != [] {
      var l := CharLength(s, 0);
      ValidStep(s);
      if l == 0 {
        SanitisedIsValid(s[1..]);
        assert IsChar(REPLACEMENT) by { ReplacementIsChar(); }
        ValidCons(REPLACEMENT, Sanitised(s[1..]));
      } else {
        CharLengthIsExact(s, 0, l);
        assert s[0..] == s;
        SanitisedIsValid(s[l..]);
        ValidCons(s[..l], Sanitised(s[l..]));
        assert s[..l] + s[l..] == s;
      }
    }
  }

  lemma ReplacementIsChar()
    ensures IsChar(REPLACEMENT)
  {
  }

  method Sanitise(s: seq<Octet>) returns (out: seq<Octet>)
    ensures out == Sanitised(s)
  {
    hide CharLength;
    out := [];
    var i := 0;
    assert s[0..] == s;
    while i < |s|
      invariant 0 <= i <= |s| && out + Sanitised(s[i..]) == Sanitised(s)
    {
      SameLength(s, i);
      var l := CharLength(s, i);
      if l == 0 {
        assert s[i..][1..] == s[i + 1..];
        out := out + REPLACEMENT;
        i := i + 1;
      } else {
        assert s[i..][l..] == s[i + l..] && s[i..][..l] == s[i..i + l];
        out := out + s[i..i + l];
        i := i + l;
      }
    }
  }

  /** A string in a JSON text. */
  function Quoted(s: seq<Octet>): seq<Octet> { Escaped(if ValidUtf8(s) then s else Sanitised(s)) }

  method WriteString(s: seq<Octet>) returns (out: seq<Octet>)
    ensures out == Quoted(s)
  {
    hide ValidUtf8, Escaped;
    var ok := IsValidUtf8(s);
    if ok {
      out := Escape(s);
    } else {
      var clean := Sanitise(s);
      out := Escape(clean);
    }
  }
}
