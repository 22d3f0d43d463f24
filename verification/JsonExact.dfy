/** What becomes of any value that is written as JSON and parsed again, and so which values
  come back. */
module JsonExact {
  import opened Text
  import opened Json
  import opened JsonCode

  predicate NoReals(v: Json) {
    match v
    case JReal(_) => false
    case JList(items) => forall i :: 0 <= i < |items| ==> NoReals(items[i])
    case JDict(pairs) => forall i :: 0 <= i < |pairs| ==> NoReals(pairs[i].value)
    case _ => true
  }

  /** Integers have 64 bits, also where nobody writes them. */
  predicate Fits64(v: Json) {
    match v
    case JInt(i) => MIN_INT <= i <= MAX_INT
    case JList(items) => forall i :: 0 <= i < |items| ==> Fits64(items[i])
    case JDict(pairs) => forall i :: 0 <= i < |pairs| ==> Fits64(pairs[i].value)
    case _ => true
  }

  /** What the text shows of a value: strings sanitised, and no internal keys. */
  function Shown(v: Json): Json
    decreases v, 1
  {
    match v
    case JStr(s) => JStr(Sanitised(s))
    case JList(items) => JList(ShownItems(items))
    case JDict(pairs) => JDict(ShownPairs(pairs))
    case _ => v
  }

  function ShownItems(items: seq<Json>): (r: seq<Json>)
    ensures |r| == |items|
    decreases items, 0
  {
    if items == [] then [] else [Shown(items[0])] + ShownItems(items[1..])
  }

  function ShownPairs(pairs: seq<JPair>): (r: seq<JPair>)
    ensures |r| <= |pairs|
    decreases pairs, 0
  {
    if pairs == [] then []
    else if Internal(pairs[0].key) then ShownPairs(pairs[1..])
    else [JPair(Sanitised(pairs[0].key), Shown(pairs[0].value))] + ShownPairs(pairs[1..])
  }

  // ─── The text shows no more ────────────────────────────────────────────────

  lemma SanitisedIsQuoted(s: seq<Octet>)
    ensures Quoted(Sanitised(s)) == Quoted(s) && ValidUtf8(Sanitised(s))
  {
    hide ValidUtf8, Sanitised, Escaped;
    SanitisedIsValid(s);
    SanitisedIsValid(Sanitised(s));
  }

  lemma UnderscoreIsChar(s: seq<Octet>)
    ensures s != [] && s[0] == 95 ==> Sanitised(s) == [s[0]] + Sanitised(s[1..])
    ensures s != [] && s[0] != 95 ==> Sanitised(s) != [] && Sanitised(s)[0] != 95
  {
    if s != [] && s[0] == 95 {
      assert s[..1] == [s[0]];
    }
  }

  /** Sanitising makes no key internal. */
  lemma SanitisedKey(key: seq<Octet>)
    ensures Internal(Sanitised(key)) <==> Internal(key)
  {
    hide Sanitised;
    UnderscoreIsChar(key);
    if key == [] {
      NothingSanitised();
    } else {
      UnderscoreIsChar(key[1..]);
      if key[1..] == [] {
        NothingSanitised();
      }
    }
  }

  lemma NothingSanitised()
    ensures Sanitised([]) == []
  {
  }

  /** A value is written as what is shown of it. */
  lemma {:induction false} ShownIsWritten(v: Json, fl: Floats)
    ensures Written(Shown(v), fl) == Written(v, fl)
    decreases v, 1
  {
    hide Quoted, Sanitised, Decimal, WrittenItems, WrittenPairs, ShownItems, ShownPairs;
    match v
    case JStr(s) => SanitisedIsQuoted(s);
    case JList(items) => ShownItemsAreWritten(items, true, fl);
    case JDict(pairs) => ShownPairsAreWritten(pairs, true, fl);
    case _ =>
  }

  lemma {:induction false} ShownItemsAreWritten(items: seq<Json>, first: bool, fl: Floats)
    ensures WrittenItems(ShownItems(items), first, fl) == WrittenItems(items, first, fl)
    decreases items, 0
  {
    hide Written, Shown;
    if items != [] {
      ShownIsWritten(items[0], fl);
      ShownItemsAreWritten(items[1..], false, fl);
      assert ShownItems(items)[1..] == ShownItems(items[1..]);
    }
  }

  lemma {:induction false} ShownPairsAreWritten(pairs: seq<JPair>, first: bool, fl: Floats)
    ensures WrittenPairs(ShownPairs(pairs), first, fl) == WrittenPairs(pairs, first, fl)
    decreases pairs, 0
  {
    hide Written, Shown, Quoted, Sanitised, Internal;
    if pairs != [] {
      if Internal(pairs[0].key) {
        ShownPairsAreWritten(pairs[1..], first, fl);
      } else {
        ShownIsWritten(pairs[0].value, fl);
        ShownPairsAreWritten(pairs[1..], false, fl);
        SanitisedIsQuoted(pairs[0].key);
        SanitisedKey(pairs[0].key);
        assert ShownPairs(pairs)[1..] == ShownPairs(pairs[1..]);
      }
    }
  }

  // ─── What is shown can be read ─────────────────────────────────────────────

  lemma {:induction false} ShownIsReadable(v: Json)
    requires NoReals(v) && Fits64(v)
    ensures Readable(Shown(v)) && Depth(Shown(v)) <= Depth(v)
    decreases v, 1
  {
    hide ValidUtf8, Sanitised, Internal, DepthOfItems, DepthOfPairs, ShownItems, ShownPairs;
    match v
    case JStr(s) => SanitisedIsQuoted(s);
    case JList(items) => ShownItemsAreReadable(items);
    case JDict(pairs) => ShownPairsAreReadable(pairs);
    case _ =>
  }

  lemma {:induction false} ShownItemsAreReadable(items: seq<Json>)
    requires forall i :: 0 <= i < |items| ==> NoReals(items[i]) && Fits64(items[i])
    ensures ReadableItems(ShownItems(items)) && DepthOfItems(ShownItems(items)) <= DepthOfItems(items)
    decreases items, 0
  {
    hide Readable, Shown, Depth, NoReals, Fits64;
    if items != [] {
      ShownIsReadable(items[0]);
      ShownItemsAreReadable(items[1..]);
      assert ShownItems(items)[1..] == ShownItems(items[1..]);
    }
  }

  lemma {:induction false} ShownPairsAreReadable(pairs: seq<JPair>)
    requires forall i :: 0 <= i < |pairs| ==> NoReals(pairs[i].value) && Fits64(pairs[i].value)
    ensures ReadablePairs(ShownPairs(pairs)) && DepthOfPairs(ShownPairs(pairs)) <= DepthOfPairs(pairs)
    decreases pairs, 0
  {
    hide Readable, Shown, Depth, NoReals, Fits64, ValidUtf8, Internal, Sanitised;
    if pairs != [] {
      ShownIsReadable(pairs[0].value);
      ShownPairsAreReadable(pairs[1..]);
      if !Internal(pairs[0].key) {
        SanitisedIsQuoted(pairs[0].key);
        SanitisedKey(pairs[0].key);
        assert ShownPairs(pairs)[1..] == ShownPairs(pairs[1..]);
      }
    }
  }

  /** For every value without floating point numbers, with integers of 64 bits and nested
    200 deep at most: what is written is a document, and this is its value. */
  lemma WrittenIsRead(v: Json, fl: Floats)
    requires NoReals(v) && Fits64(v) && Depth(Shown(v)) <= MAX_DEPTH
    ensures ParseDocument(Written(v, fl), fl) == Accepted(Kept(Shown(v)))
  {
    hide Written, ParseDocument, Shown, Kept, Depth, Readable;
    ShownIsWritten(v, fl);
    ShownIsReadable(v);
    ReadableRoundTrip(Shown(v), fl);
  }

  // ─── What is kept is good ──────────────────────────────────────────────────

  lemma {:induction false} KeptIsGood(v: Json)
    requires Readable(v)
    ensures Good(Kept(v))
    decreases v, 1
  {
    hide ValidUtf8, Internal;
    match v
    case JList(items) => KeptItemsAreGood(items);
    case JDict(pairs) => StoredIsGood([], pairs);
    case _ =>
  }

  lemma {:induction false} KeptItemsAreGood(items: seq<Json>)
    requires ReadableItems(items)
    ensures forall i :: 0 <= i < |KeptItems(items)| ==> Good(KeptItems(items)[i])
    decreases items, 0
  {
    hide Readable, Good, Kept;
    if items != [] {
      KeptIsGood(items[0]);
      KeptItemsAreGood(items[1..]);
    }
  }

  lemma {:induction false} StoredIsGood(done: seq<JPair>, pairs: seq<JPair>)
    requires GoodPairs(done) && ReadablePairs(pairs)
    ensures GoodPairs(Stored(done, pairs))
    decreases pairs, 0
  {
    hide Readable, Good, Kept, GoodPairs;
    if pairs != [] {
      KeptIsGood(pairs[0].value);
      StoreIsGood(done, pairs[0].key, Kept(pairs[0].value));
      StoredIsGood(Store(done, pairs[0].key, Kept(pairs[0].value)), pairs[1..]);
    }
  }

  lemma {:induction false} StoreIsGood(pairs: seq<JPair>, key: seq<Octet>, v: Json)
    requires GoodPairs(pairs) && ValidUtf8(key) && !Internal(key) && Good(v)
    ensures GoodPairs(Store(pairs, key, v))
  {
    hide Good, ValidUtf8, Internal;
    if pairs != [] && pairs[0].key != key {
      StoreIsGood(pairs[1..], key, v);
      var r := Store(pairs[1..], key, v);
      forall k | 0 <= k < |r|
        ensures r[k].key != pairs[0].key
      {
        StoreKeys(pairs[1..], key, v, r[k].key);
      }
    }
  }

  // ─── Which values come back ────────────────────────────────────────────────

  lemma {:induction false} TameFits(v: Json)
    requires Tame(v)
    ensures Fits64(v)
  {
    match v
    case JList(items) =>
      forall i | 0 <= i < |items|
        ensures Fits64(items[i])
      {
        TameFits(items[i]);
      }
    case JDict(pairs) =>
      forall i | 0 <= i < |pairs|
        ensures Fits64(pairs[i].value)
      {
        TameFits(pairs[i].value);
      }
    case _ =>
  }

  /** A value without floating point numbers comes back if and only if it is good and
    nested 200 deep at most. */
  lemma RoundTripIff(v: Json, fl: Floats)
    requires NoReals(v)
    ensures ParseDocument(Written(v, fl), fl) == Accepted(v) <==> Good(v) && Depth(v) <= MAX_DEPTH
  {
    hide Written, ParseDocument, Shown, Kept, Depth, Readable, Good, Tame, Fits64, NoReals;
    if Good(v) && Depth(v) <= MAX_DEPTH {
      RoundTrip(v, fl);
    }
    if ParseDocument(Written(v, fl), fl) == Accepted(v) {
      AcceptedIsTame(Written(v, fl), fl);
      TameFits(v);
      ShownIsReadable(v);
      WrittenIsRead(v, fl);
      KeptIsGood(Shown(v));
    }
  }
}
