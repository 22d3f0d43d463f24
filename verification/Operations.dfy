/** What the value operations mean: both the machine and the reference semantics use them. */
module Operations {
  import opened Values
  import D = Dictionary
  import J = Json
  import Text

  // ─── Integers ──────────────────────────────────────────────────────────────

  const TWO_64: int := 0x1_0000_0000_0000_0000

  /** Integer results are the 64-bit number congruent to the true one. */
  lemma WrapIsCongruent(n: int) returns (k: int)
    ensures MIN_INT <= Wrap(n) <= MAX_INT && Wrap(n) == n + k * TWO_64
  {
    k := -((n - MIN_INT) / TWO_64);
  }

  function Magnitude(a: int): nat { if a < 0 then -a else a }

  lemma {:induction false} NegativeFactor(y: int, q: int)
    ensures -y * q == -(y * q) && y * -q == -(y * q) && -y * -q == y * q
  {
  }

  lemma Divided(x: nat, y: nat)
    requires y > 0
    ensures x == y * (x / y) + x % y && 0 <= x % y < y && x / y >= 0
  {
  }

  /** Division truncates toward zero, and the remainder has the sign of the dividend. */
  lemma DivisionTruncates(a: int, b: int)
    requires b != 0
    ensures a == b * Quotient(a, b) + Remainder(a, b)
    ensures Magnitude(Remainder(a, b)) < Magnitude(b)
    ensures Remainder(a, b) != 0 ==> (Remainder(a, b) < 0 <==> a < 0)
  {
    var x, y := Magnitude(a), Magnitude(b);
    Divided(x, y);
    var q: int := x / y;
    var p: int := y * q;
    NegativeFactor(y, q);
    assert Quotient(a, b) == if (a < 0) == (b < 0) then q else -q;
    assert b * Quotient(a, b) == if a < 0 then -p else p;
  }

  // ─── Strings ───────────────────────────────────────────────────────────────

  /** Comparing strings is a total order. */
  lemma {:induction false} CompareStrIsOrder(a: string, b: string)
    ensures CompareStr(a, b) == 0 <==> a == b
    ensures CompareStr(b, a) == -CompareStr(a, b)
  {
    if a != [] && b != [] && a[0] == b[0] {
      CompareStrIsOrder(a[1..], b[1..]);
      assert a == [a[0]] + a[1..] && b == [b[0]] + b[1..];
    }
  }

  lemma {:induction false} CompareStrIsTransitive(a: string, b: string, c: string)
    requires CompareStr(a, b) <= 0 && CompareStr(b, c) <= 0
    ensures CompareStr(a, c) <= 0
  {
    if a != [] && b != [] && c != [] && a[0] == b[0] && b[0] == c[0] {
      CompareStrIsTransitive(a[1..], b[1..], c[1..]);
    }
  }

  // ─── Dictionaries and lists ────────────────────────────────────────────────

  /** A written key is read back, and the others are as they were. */
  lemma {:induction false} FetchStored(pairs: seq<Pair>, key: string, v: Value, other: string)
    ensures Fetch(Store(pairs, key, v), other) == if other == key then v else Fetch(pairs, other)
  {
    if pairs != [] && pairs[0].key != key {
      FetchStored(pairs[1..], key, v, other);
    }
  }

  function Entries(pairs: seq<Pair>): seq<D.Entry<string, Value>> {
    if pairs == [] then [] else [D.Entry(pairs[0].key, pairs[0].value)] + Entries(pairs[1..])
  }

  /** The dictionaries of the language are written like those of `Dictionary`. */
  lemma {:induction false} StoreIsPut(pairs: seq<Pair>, key: string, v: Value)
    ensures Entries(Store(pairs, key, v)) == D.Put(Entries(pairs), key, v)
  {
    if pairs != [] {
      hide D.Put;
      var e := D.Entry(pairs[0].key, pairs[0].value);
      if pairs[0].key == key {
        D.PutFirst(e, Entries(pairs[1..]), v);
        assert Store(pairs, key, v)[1..] == pairs[1..];
      } else {
        StoreIsPut(pairs[1..], key, v);
        D.PutBehind(e, Entries(pairs[1..]), key, v);
        assert Store(pairs, key, v)[1..] == Store(pairs[1..], key, v);
      }
    }
  }

  function JsonEntries(pairs: seq<J.JPair>): seq<D.Entry<seq<Text.Octet>, J.Json>> {
    if pairs == [] then [] else [D.Entry(pairs[0].key, pairs[0].value)] + JsonEntries(pairs[1..])
  }

  /** And so are those that the JSON parser fills. */
  lemma {:induction false} JsonStoreIsPut(pairs: seq<J.JPair>, key: seq<Text.Octet>, v: J.Json)
    ensures JsonEntries(J.Store(pairs, key, v)) == D.Put(JsonEntries(pairs), key, v)
  {
    if pairs != [] {
      hide D.Put;
      var e := D.Entry(pairs[0].key, pairs[0].value);
      if pairs[0].key == key {
        D.PutFirst(e, JsonEntries(pairs[1..]), v);
        assert J.Store(pairs, key, v)[1..] == pairs[1..];
      } else {
        JsonStoreIsPut(pairs[1..], key, v);
        D.PutBehind(e, JsonEntries(pairs[1..]), key, v);
        assert J.Store(pairs, key, v)[1..] == J.Store(pairs[1..], key, v);
      }
    }
  }

  /** `v` names a list or a dictionary of the store. */
  predicate IsReference(v: Value, w: World) {
    || (v.List? && v.at < |w.heap| && w.heap[v.at].ListBox?)
    || (v.Dict? && v.at < |w.heap| && w.heap[v.at].DictBox?)
  }

  /** An element that is written is read back; elements of other containers, and other
    elements of the same one, are as they were. Whoever has the same reference sees it. */
  lemma ElementIsWritten(obj: Value, idx: Value, v: Value, w: World, obj1: Value, idx1: Value)
    requires IsReference(obj, w) && SetIndex(obj, idx, v, w).Good?
    requires IsReference(obj1, w) && GetIndex(obj1, idx1, w).Good?
    ensures var w1 := SetIndex(obj, idx, v, w).world;
            GetIndex(obj1, idx1, w1)
            == if obj1 == obj && idx1 == idx then Good(v, w1) else Good(GetIndex(obj1, idx1, w).value, w1)
  {
    if obj.Dict? && obj1.Dict? {
      FetchStored(Pairs(w.heap, obj.at), idx.s, v, idx1.s);
    }
  }

  /** A field is an element of a dictionary. */
  lemma FieldIsElement(obj: Value, name: string, v: Value, w: World)
    requires obj.Dict?
    ensures GetMember(name, obj, w) == GetIndex(obj, Str(name), w)
    ensures SetMember(name, obj, v, w) == SetIndex(obj, Str(name), v, w)
  {
  }

  /** A dictionary literal has the keys as they come first, with the values that come last. */
  lemma {:induction false} LiteralHolds(flat: seq<Value>, done: seq<Pair>, w: World, key: string)
    requires |flat| % 2 == 0 && MakeDict(flat, done, w).Good?
    ensures var o := MakeDict(flat, done, w);
            o.value.Dict? && Fetch(Pairs(o.world.heap, o.value.at), key) == LastValue(flat, Fetch(done, key), key)
    decreases |flat|
  {
    if |flat| >= 2 {
      FetchStored(done, flat[0].s, flat[1], key);
      LiteralHolds(flat[2..], Store(done, flat[0].s, flat[1]), w, key);
    }
  }

  /** The last value that comes with a key. */
  function LastValue(flat: seq<Value>, before: Value, key: string): Value
    decreases |flat|
  {
    if |flat| < 2 then before
    else LastValue(flat[2..], if flat[0] == Str(key) then flat[1] else before, key)
  }

  /** A `for` over a dictionary goes over its keys, in order. */
  lemma {:induction false} KeysInOrder(pairs: seq<Pair>, i: nat)
    requires i < |pairs|
    ensures |KeysOf(pairs)| == |pairs| && KeysOf(pairs)[i] == Str(pairs[i].key)
  {
    if i > 0 {
      KeysInOrder(pairs[1..], i - 1);
    } else if |pairs| > 1 {
      KeysInOrder(pairs[1..], 0);
    }
  }

  // ─── Truth ─────────────────────────────────────────────────────────────────

  /** How many characters, elements or entries. */
  function Count(v: Value, w: World): nat {
    match v
    case Str(s) => |s|
    case List(at) => |Items(w.heap, at)|
    case Dict(at) => |Pairs(w.heap, at)|
    case _ => 0
  }

  /** A condition fails for null, for `false`, for a number that is zero, and for whatever `len`
    finds empty. */
  lemma TruthMeans(h: Host, v: Value, w: World)
    requires Count(v, w) <= 0x7FFF_FFFF_FFFF_FFFF
    ensures v == Null ==> !Truthy(h, v, w)
    ensures v.Bool? ==> (Truthy(h, v, w) <==> v == Bool(true))
    ensures v.Int? ==> (!Truthy(h, v, w) <==> Equal(h, v, Int(0), w))
    ensures v.Float? ==> (!Truthy(h, v, w) <==> h.isZero(v.bits))
    ensures v.Str? || v.List? || v.Dict? ==> (!Truthy(h, v, w) <==> Len(v, w) == Good(Int(0), w))
  {
  }

  // ─── Numbers and strings ───────────────────────────────────────────────────

  /** `c` is what 64 bits keep of `n`. */
  predicate Kept(c: int, n: int) {
    -0x8000_0000_0000_0000 <= c <= 0x7FFF_FFFF_FFFF_FFFF && (c - n) % TWO_64 == 0
  }

  lemma WrapKeeps(n: int)
    ensures Kept(Wrap(n), n)
  {
    var k := WrapIsCongruent(n);
    assert Wrap(n) - n == k * TWO_64;
    assert (k * TWO_64) % TWO_64 == 0;
  }

  /** Which operands can be added. */
  predicate Addable(a: Value, b: Value) { (a.Str? && b.Str?) || (a.IsNum() && b.IsNum()) || (a.List? && b.List?) }

  /** Strings are put one behind the other, integers wrap around, and of lists a new one is made. */
  lemma AddMeans(h: Host, a: Value, b: Value, w: World)
    ensures Add(h, a, b, w).Good? <==> Addable(a, b)
    ensures a.Str? && b.Str? ==>
              var r := Add(h, a, b, w).value;
              r.Str? && |r.s| == |a.s| + |b.s| && a.s <= r.s && r.s[|a.s|..] == b.s
    ensures a.Int? && b.Int? ==> var r := Add(h, a, b, w).value; r.Int? && Kept(r.i, a.i + b.i)
  {
    if a.Int? && b.Int? {
      WrapKeeps(a.i + b.i);
    }
    if a.Str? && b.Str? {
      assert (a.s + b.s)[|a.s|..] == b.s;
    }
  }

  /** The elements of a sum of lists, which is a list of its own. */
  lemma ListsAdd(h: Host, a: Value, b: Value, w: World, i: nat)
    requires IsReference(a, w) && IsReference(b, w) && a.List? && b.List? && i < Count(a, w) + Count(b, w)
    ensures var o := Add(h, a, b, w);
            && o.Good? && !IsReference(o.value, w) && Count(o.value, o.world) == Count(a, w) + Count(b, w)
            && GetIndex(o.value, Int(i), o.world).Good?
            && GetIndex(o.value, Int(i), o.world).value
               == if i < Count(a, w) then GetIndex(a, Int(i), w).value else GetIndex(b, Int(i - Count(a, w)), w).value
  {
  }

  /** The other operations on numbers: which operands they take, and what they give. */
  lemma ArithmeticMeans(h: Host, op: Arith, a: Value, b: Value, w: World)
    ensures Arithmetic(h, op, a, b, w).Good?
            <==> && a.IsNum() && b.IsNum() && (op == MOD ==> a.Int? && b.Int?)
                 && (op == MOD || op == DIV ==> !(if b.Int? then b == Int(0) else h.isZero(b.bits)))
    ensures a.Int? && b.Int? && op == SUB ==> var r := Arithmetic(h, op, a, b, w).value; r.Int? && Kept(r.i, a.i - b.i)
    ensures a.Int? && b.Int? && op == MUL ==> var r := Arithmetic(h, op, a, b, w).value; r.Int? && Kept(r.i, a.i * b.i)
    ensures a.Int? && b.Int? && b.i != 0 && op == MOD ==>
              var r := Arithmetic(h, op, a, b, w).value;
              r.Int? && Magnitude(r.i) < Magnitude(b.i) && (r.i != 0 ==> (r.i < 0 <==> a.i < 0))
              && a.i == b.i * Quotient(a.i, b.i) + r.i
    ensures a.Int? && b.Int? && b.i != 0 && op == DIV ==>
              var r := Arithmetic(h, op, a, b, w).value;
              if Remainder(a.i, b.i) == 0 then r.Int? && Kept(r.i, Quotient(a.i, b.i))
              else r == Float(h.arith('/', h.ofInt(a.i), h.ofInt(b.i)))
  {
    hide Quotient, Remainder;
    if a.Int? && b.Int? {
      WrapKeeps(a.i - b.i);
      WrapKeeps(a.i * b.i);
      if b.i != 0 {
        DivisionTruncates(a.i, b.i);
        WrapKeeps(Quotient(a.i, b.i));
      }
    }
  }

  /** An integer and its negation add up to zero. */
  lemma NegateMeans(h: Host, a: Value, w: World)
    ensures Negate(h, a, w).Good? <==> a.IsNum()
    ensures a.Int? ==> Negate(h, a, w).value.Int? && Add(h, a, Negate(h, a, w).value, w) == Good(Int(0), w)
    ensures a.Float? ==> Negate(h, a, w) == Good(Float(h.negate(a.bits)), w)
  {
    if a.Int? {
      WrapKeeps(-a.i);
      var c := Wrap(-a.i);
      assert (c + a.i) % TWO_64 == 0;
      WrapKeeps(a.i + c);
      assert (Wrap(a.i + c) - (a.i + c)) % TWO_64 == 0;
      ZeroIsKept(Wrap(a.i + c), a.i + c);
    }
  }

  lemma ZeroIsKept(c: int, n: int)
    requires Kept(c, n) && n % TWO_64 == 0
    ensures c == 0
  {
    assert c % TWO_64 == 0 by {
      var j, k := (c - n) / TWO_64, n / TWO_64;
      assert c == (j + k) * TWO_64;
    }
  }

  /** `a` comes before `b` when they differ first at `k`, where `a` has ended or has the smaller character. */
  ghost predicate FirstDiffersAt(a: string, b: string, k: nat) {
    k <= |a| && k < |b| && a[..k] == b[..k] && (k == |a| || a[k] < b[k])
  }

  /** Strings are ordered as in a dictionary. */
  lemma {:induction false} CompareStrMeans(a: string, b: string)
    ensures CompareStr(a, b) < 0 <==> exists k: nat :: FirstDiffersAt(a, b, k)
  {
    if a == [] {
      if b != [] {
        assert FirstDiffersAt(a, b, 0);
      }
    } else if b != [] && a[0] == b[0] {
      CompareStrMeans(a[1..], b[1..]);
      if k: nat :| FirstDiffersAt(a[1..], b[1..], k) {
        assert a[..k + 1] == [a[0]] + a[1..][..k] && b[..k + 1] == [b[0]] + b[1..][..k];
        assert FirstDiffersAt(a, b, k + 1);
      }
      if k: nat :| FirstDiffersAt(a, b, k) {
        assert k > 0;
        assert a[1..][..k - 1] == a[..k][1..] && b[1..][..k - 1] == b[..k][1..];
        assert FirstDiffersAt(a[1..], b[1..], k - 1);
      }
    } else if b != [] {
      if a[0] < b[0] {
        assert FirstDiffersAt(a, b, 0);
      }
      if k: nat :| FirstDiffersAt(a, b, k) {
        assert k > 0 ==> a[..k][0] == b[..k][0];
      }
    }
  }

  /** Two integers are compared as numbers, two strings as in a dictionary, and nothing else but
    numbers can be compared. */
  lemma CompareMeans(h: Host, a: Value, b: Value, w: World)
    ensures a.Int? && b.Int? ==>
              && Compare(h, LT, a, b, w) == Good(Bool(a.i < b.i), w)
              && Compare(h, LE, a, b, w) == Good(Bool(a.i <= b.i), w)
              && Compare(h, GT, a, b, w) == Good(Bool(a.i > b.i), w)
              && Compare(h, GE, a, b, w) == Good(Bool(a.i >= b.i), w)
    ensures a.Str? && b.Str? ==>
              && (Compare(h, LT, a, b, w) == Good(Bool(true), w) <==> exists k: nat :: FirstDiffersAt(a.s, b.s, k))
              && (Compare(h, LE, a, b, w) == Good(Bool(true), w)
                  <==> a == b || exists k: nat :: FirstDiffersAt(a.s, b.s, k))
              && Compare(h, GT, a, b, w) == Compare(h, LT, b, a, w)
              && Compare(h, GE, a, b, w) == Compare(h, LE, b, a, w)
    ensures forall op :: Compare(h, op, a, b, w).Good? <==> (a.IsNum() && b.IsNum()) || (a.Str? && b.Str?)
  {
    hide CompareStr, FirstDiffersAt;
    if a.Str? && b.Str? {
      CompareStrMeans(a.s, b.s);
      CompareStrIsOrder(a.s, b.s);
    }
  }

  /** Null, truth values, integers and strings are equal to themselves only. */
  lemma EqualMeans(h: Host, a: Value, b: Value, w: World)
    ensures !a.Float? && !b.Float? && !a.List? && !a.Dict? ==> (Equal(h, a, b, w) <==> a == b)
    ensures a.TypeName() != b.TypeName() && !(a.IsNum() && b.IsNum()) ==> !Equal(h, a, b, w)
    ensures Equal(h, a, b, w) && a.Str? ==> b.Str? && a.s == b.s
  {
  }

  /** With a floating point number on either side the host computes, and is told which operator. */
  lemma FloatsMean(h: Host, a: Value, b: Value, w: World)
    requires a.IsNum() && b.IsNum() && (a.Float? || b.Float?)
    ensures var x, y := if a.Int? then h.ofInt(a.i) else a.bits, if b.Int? then h.ofInt(b.i) else b.bits;
            && Add(h, a, b, w) == Good(Float(h.arith('+', x, y)), w)
            && Arithmetic(h, SUB, a, b, w) == Good(Float(h.arith('-', x, y)), w)
            && Arithmetic(h, MUL, a, b, w) == Good(Float(h.arith('*', x, y)), w)
            && (Arithmetic(h, DIV, a, b, w).Good? ==> Arithmetic(h, DIV, a, b, w) == Good(Float(h.arith('/', x, y)), w))
            && Compare(h, LT, a, b, w) == Good(Bool(h.order('<', x, y)), w)
            && Compare(h, GT, a, b, w) == Good(Bool(h.order('>', x, y)), w)
            && (Equal(h, a, b, w) <==> h.sameFloat(x, y))
  {
  }

  // ─── Making containers ─────────────────────────────────────────────────────

  /** A new list has the values it was made of, in order, and no other container changes. */
  lemma ListIsMade(items: seq<Value>, w: World, i: int, obj: Value, idx: Value)
    ensures var o := NewList(items, w);
            && o.Good? && o.value.List? && !IsReference(o.value, w) && IsReference(o.value, o.world)
            && Len(o.value, o.world) == Good(Int(Wrap(|items|)), o.world) && o.world.trace == w.trace
            && (GetIndex(o.value, Int(i), o.world).Good? <==> 0 <= i < |items|)
            && (0 <= i < |items| ==> GetIndex(o.value, Int(i), o.world).value == items[i])
            && (IsReference(obj, w) && GetIndex(obj, idx, w).Good? ==>
                  GetIndex(obj, idx, o.world).Good? && GetIndex(obj, idx, o.world).value == GetIndex(obj, idx, w).value)
  {
  }

  /** What can be written can be read, and the other way round; in a dictionary any string can. */
  lemma WritableIffReadable(obj: Value, idx: Value, v: Value, w: World)
    ensures SetIndex(obj, idx, v, w).Good? <==> GetIndex(obj, idx, w).Good?
    ensures obj.Dict? ==> (GetIndex(obj, idx, w).Good? <==> idx.Str?)
    ensures obj.List? ==> (GetIndex(obj, idx, w).Good? <==> idx.Int? && 0 <= idx.i < Count(obj, w))
    ensures !obj.List? && !obj.Dict? ==> GetIndex(obj, idx, w).Bad?
    ensures SetIndex(obj, idx, v, w).Good? ==> SetIndex(obj, idx, v, w).value == v
  {
  }

  /** A dictionary literal is what assigning its pairs, one by one, to an empty dictionary gives. */
  lemma LiteralIsAssigned(flat: seq<Value>, key: string, v: Value, w: World)
    requires |flat| % 2 == 0 && MakeDict(flat, [], w).Good?
    ensures var before, o := MakeDict(flat, [], w), MakeDict(flat + [Str(key), v], [], w);
            && before.value.Dict? && o.Good? && o.value == before.value
            && o.world == SetIndex(before.value, Str(key), v, before.world).world
  {
    LiteralGrows(flat, [], key, v, w);
  }

  lemma {:induction false} LiteralGrows(flat: seq<Value>, done: seq<Pair>, key: string, v: Value, w: World)
    requires |flat| % 2 == 0 && MakeDict(flat, done, w).Good?
    ensures MakeDict(flat, done, w).value.Dict? && MakeDict(flat, done, w).value.at == |w.heap|
    ensures |MakeDict(flat, done, w).world.heap| == |w.heap| + 1
    ensures MakeDict(flat + [Str(key), v], done, w).Good?
    ensures var b, o := MakeDict(flat, done, w), MakeDict(flat + [Str(key), v], done, w);
            o.value == b.value && o.world == SetIndex(b.value, Str(key), v, b.world).world
    decreases |flat|
  {
    hide Store;
    var more := flat + [Str(key), v];
    if flat == [] {
      assert more[2..] == [];
      var w1 := MakeDict(flat, done, w).world;
      var w2 := SetIndex(Dict(|w.heap|), Str(key), v, w1).world;
      assert w2.heap == w.heap + [DictBox(Store(done, key, v))];
    } else {
      assert more[2..] == flat[2..] + [Str(key), v] && more[0] == flat[0] && more[1] == flat[1];
      LiteralGrows(flat[2..], Store(done, flat[0].s, flat[1]), key, v, w);
    }
  }

  /** Without pairs it is empty: every key gives null. */
  lemma NoPairs(w: World, key: string)
    ensures var o := MakeDict([], [], w);
            o.Good? && o.value.Dict? && !IsReference(o.value, w) && o.world.trace == w.trace
            && Len(o.value, o.world) == Good(Int(0), o.world)
            && GetIndex(o.value, Str(key), o.world) == Good(Null, o.world)
  {
  }

  /** What a `for` goes over: a list itself, the keys of a dictionary, and nothing else. */
  lemma IterMeans(v: Value, w: World, i: nat)
    ensures v.List? ==> IterList(v, w) == Good(v, w)
    ensures v.Dict? ==>
              var o := IterList(v, w);
              && o.Good? && o.value.List? && Len(o.value, o.world) == Good(Len(v, w).value, o.world)
              && (i < Count(v, w) ==> GetIndex(o.value, Int(i), o.world)
                                      == Good(Str(Pairs(w.heap, v.at)[i].key), o.world))
    ensures !v.List? && !v.Dict? ==> IterList(v, w).Bad?
  {
    if v.Dict? && i < Count(v, w) {
      KeysInOrder(Pairs(w.heap, v.at), i);
    } else if v.Dict? && Pairs(w.heap, v.at) != [] {
      KeysInOrder(Pairs(w.heap, v.at), 0);
    }
  }

  // ─── Errors and calls ──────────────────────────────────────────────────────

  /** What a `catch` gets: a dictionary of its own, whose only key is `message`. */
  lemma ErrorMeans(message: string, w: World, name: string)
    ensures var (v, w1) := ErrorValue(message, w);
            && v.Dict? && !IsReference(v, w) && Count(v, w1) == 1 && w1.trace == w.trace
            && GetMember(name, v, w1) == Good(if name == "message" then Str(message) else Null, w1)
  {
    var pairs := [Pair("message", Str(message))];
    assert pairs[1..] == [];
    assert Fetch(pairs, name) == if name == "message" then Str(message) else Null;
  }

  /** A builtin other than `len` is the host's: one event, and its answer. */
  lemma NativeMeans(h: Host, lenId: nat, id: nat, args: seq<Value>, w: World)
    ensures id == lenId && |args| == 1 ==> CallNative(h, lenId, id, args, w) == Len(args[0], w)
    ensures id != lenId ==>
              var reply := h.native(id, args, w);
              var w1 := World(reply.heap, w.trace + [NativeCall(id, args)]);
              CallNative(h, lenId, id, args, w)
              == if reply.error == "" then Good(reply.value, w1) else Bad(reply.error, w1)
  {
  }

  /** The number that a text with a sign and decimal digits stands for. */
  function NumberIn(s: string): int {
    if s == "" then 0
    else if s[0] == '-' then -NumberIn(s[1..])
    else if |s| == 1 then s[0] as int - '0' as int
    else 10 * NumberIn(s[..|s| - 1]) + (s[|s| - 1] as int - '0' as int)
  }

  /** The numbers in a message are decimal. */
  lemma {:induction false} DigitsMean(n: nat)
    ensures Digits(n) != "" && NumberIn(Digits(n)) == n
    ensures forall i :: 0 <= i < |Digits(n)| ==> '0' <= Digits(n)[i] <= '9'
    decreases n
  {
    if n >= 10 {
      DigitsMean(n / 10);
      var s := Digits(n);
      assert |Digits(n % 10)| == 1;
      assert s[..|s| - 1] == Digits(n / 10);
    }
  }

  lemma DecimalMeans(n: int)
    ensures NumberIn(Decimal(n)) == n
  {
    hide Digits;
    DigitsMean(if n < 0 then -n else n);
    if n < 0 {
      assert Decimal(n)[1..] == Digits(-n);
    }
  }
}
