/** The dictionary of a value: a vector of pairs in the order they came in, with a hash
  index that is only built once there are more than sixteen. */
module Dictionary {
  import opened Wrappers

  const THRESHOLD: nat := 16

  datatype Entry<K, V> = Entry(key: K, value: V)

  // ─── The map it stands for ─────────────────────────────────────────────────

  predicate Distinct<K(==), V>(es: seq<Entry<K, V>>) {
    forall i, j :: 0 <= i < j < |es| ==> es[i].key != es[j].key
  }

  /** Where a key is, or the length when it is nowhere. */
  function Position<K(==), V>(es: seq<Entry<K, V>>, key: K): (i: nat)
    ensures i <= |es| && (i < |es| ==> es[i].key == key) && forall j :: 0 <= j < i ==> es[j].key != key
  {
    if es == [] || es[0].key == key then 0
    else
      var i := Position(es[1..], key) + 1;
      assert forall j :: 1 <= j < i ==> es[j] == es[1..][j - 1];
      i
  }

  /** A key that is there keeps its place; a new one goes to the end. */
  function Put<K(==), V>(es: seq<Entry<K, V>>, key: K, v: V): seq<Entry<K, V>> {
    var i := Position(es, key);
    if i < |es| then es[i := Entry(key, v)] else es + [Entry(key, v)]
  }

  lemma PutIsDistinct<K, V>(es: seq<Entry<K, V>>, key: K, v: V)
    requires Distinct(es)
    ensures Distinct(Put(es, key, v))
  {
  }

  lemma PutFirst<K, V>(e: Entry<K, V>, es: seq<Entry<K, V>>, v: V)
    ensures Put([e] + es, e.key, v) == [Entry(e.key, v)] + es
  {
    assert ([e] + es)[0 := Entry(e.key, v)] == [Entry(e.key, v)] + es;
  }

  lemma PutBehind<K, V>(e: Entry<K, V>, es: seq<Entry<K, V>>, key: K, v: V)
    requires e.key != key
    ensures Put([e] + es, key, v) == [e] + Put(es, key, v)
  {
    var i := Position(es, key);
    assert ([e] + es)[1..] == es && Position([e] + es, key) == i + 1;
    if i < |es| {
      assert ([e] + es)[i + 1 := Entry(key, v)] == [e] + es[i := Entry(key, v)];
    } else {
      assert [e] + es + [Entry(key, v)] == [e] + (es + [Entry(key, v)]);
    }
  }

  // ─── The index ─────────────────────────────────────────────────────────────

  /** Empty up to the threshold, and exact above it. */
  predicate Exact<K(==), V>(es: seq<Entry<K, V>>, idx: map<K, nat>) {
    if |es| <= THRESHOLD then idx == map[]
    else
      && (forall i :: 0 <= i < |es| ==> es[i].key in idx && idx[es[i].key] == i)
      && (forall k :: k in idx ==> idx[k] < |es| && es[idx[k]].key == k)
  }

  class Dict<K(==), V> {
    var entries: seq<Entry<K, V>>
    var idx: map<K, nat>

    ghost predicate Valid()
      reads this
    {
      Distinct(entries) && Exact(entries, idx)
    }

    constructor ()
      ensures Valid() && entries == []
    {
      entries, idx := [], map[];
    }

    /** The index is only asked when it is there; both ways find the same place. */
    method Find(key: K) returns (at: nat)
      requires Valid()
      ensures at == Position(entries, key)
    {
      if idx != map[] {
        if key !in idx {
          NotIndexed(entries, idx, key);
          return |entries|;
        }
        OnlyPosition(entries, key, idx[key]);
        return idx[key];
      }
      at := 0;
      while at < |entries|
        invariant at <= |entries| && forall j :: 0 <= j < at ==> entries[j].key != key
      {
        if entries[at].key == key {
          OnlyPosition(entries, key, at);
          return;
        }
        at := at + 1;
      }
    }

    /** `d[key] = v`: the place is looked for, made if need be, and written. */
    method Set(key: K, v: V)
      requires Valid()
      modifies this
      ensures Valid() && entries == Put(old(entries), key, v)
    {
      PutIsDistinct(entries, key, v);
      var at := Find(key);
      if at == |entries| {
        entries := entries + [Entry(key, v)];
        if idx != map[] {
          idx := idx[key := |entries| - 1];
        } else if |entries| > THRESHOLD {
          BuildIndex();
        }
      } else {
        entries := entries[at := Entry(key, v)];
      }
    }

    method BuildIndex()
      requires Distinct(entries) && |entries| > THRESHOLD
      modifies this
      ensures Valid() && entries == old(entries)
    {
      idx := map[];
      for i := 0 to |entries|
        invariant entries == old(entries)
        invariant forall j :: 0 <= j < i ==> entries[j].key in idx && idx[entries[j].key] == j
        invariant forall k :: k in idx ==> idx[k] < i && entries[idx[k]].key == k
      {
        if entries[i].key !in idx {
          idx := idx[entries[i].key := i];
        }
      }
    }

    method Clear()
      modifies this
      ensures Valid() && entries == []
    {
      entries, idx := [], map[];
    }

    /** Any run of operations: the dictionary holds what the operations say, and every
      lookup answers it. */
    method Run(ops: seq<Op<K, V>>) returns (found: seq<nat>)
      requires Valid() && entries == []
      modifies this
      ensures Valid() && entries == After(ops) && found == Answers(ops)
    {
      found := [];
      for n := 0 to |ops|
        invariant Valid() && entries == After(ops[..n]) && found == Answers(ops[..n])
      {
        assert ops[..n + 1][..n] == ops[..n] && ops[..n + 1][n] == ops[n];
        match ops[n] {
          case Insert(key, v) => Set(key, v);
          case Erase => Clear();
          case Look(key) =>
            var at := Find(key);
            found := found + [at];
        }
      }
      assert ops[..|ops|] == ops;
    }
  }

  lemma OnlyPosition<K, V>(es: seq<Entry<K, V>>, key: K, at: nat)
    requires Distinct(es) && at < |es| && es[at].key == key
    ensures Position(es, key) == at
  {
  }

  lemma NotIndexed<K, V>(es: seq<Entry<K, V>>, idx: map<K, nat>, key: K)
    requires Exact(es, idx) && idx != map[] && key !in idx
    ensures Position(es, key) == |es|
  {
  }

  // ─── Whole runs ────────────────────────────────────────────────────────────

  datatype Op<K, V> = Insert(key: K, value: V) | Look(key: K) | Erase

  function After<K(==), V>(ops: seq<Op<K, V>>): seq<Entry<K, V>> {
    if ops == [] then []
    else
      var before := After(ops[..|ops| - 1]);
      match ops[|ops| - 1]
      case Insert(key, v) => Put(before, key, v)
      case Look(_) => before
      case Erase => []
  }

  function Answers<K(==), V>(ops: seq<Op<K, V>>): seq<nat> {
    if ops == [] then []
    else
      var last := |ops| - 1;
      match ops[last]
      case Look(key) => Answers(ops[..last]) + [Position(After(ops[..last]), key)]
      case _ => Answers(ops[..last])
  }

  /** The value of the last insertion of a key since the last erasure. */
  function LastInserted<K(==), V>(ops: seq<Op<K, V>>, key: K): Option<V> {
    if ops == [] then None
    else
      match ops[|ops| - 1]
      case Insert(k, v) => if k == key then Some(v) else LastInserted(ops[..|ops| - 1], key)
      case Look(_) => LastInserted(ops[..|ops| - 1], key)
      case Erase => None
  }

  function Value<K(==), V>(es: seq<Entry<K, V>>, key: K): Option<V> {
    var i := Position(es, key);
    if i < |es| then Some(es[i].value) else None
  }

  /** Keys in the order in which they first came in since the last erasure. */
  function FirstSeen<K(==), V>(ops: seq<Op<K, V>>): seq<K> {
    if ops == [] then []
    else
      var before := FirstSeen(ops[..|ops| - 1]);
      match ops[|ops| - 1]
      case Insert(k, _) => if k in before then before else before + [k]
      case Look(_) => before
      case Erase => []
  }

  function Keys<K, V>(es: seq<Entry<K, V>>): (ks: seq<K>)
    ensures |ks| == |es| && forall i :: 0 <= i < |es| ==> ks[i] == es[i].key
  {
    seq(|es|, i requires 0 <= i < |es| => es[i].key)
  }

  lemma PutValue<K, V>(es: seq<Entry<K, V>>, key: K, v: V, other: K)
    requires Distinct(es)
    ensures Value(Put(es, key, v), other) == if other == key then Some(v) else Value(es, other)
  {
    var i, j, p := Position(es, key), Position(es, other), Put(es, key, v);
    PutIsDistinct(es, key, v);
    assert p[i] == Entry(key, v);
    if other == key {
      OnlyPosition(p, key, i);
    } else if j < |es| {
      assert p[j] == es[j];
      OnlyPosition(p, other, j);
    } else {
      assert forall q :: 0 <= q < |p| ==> p[q].key != other;
    }
  }

  lemma PutKeys<K, V>(es: seq<Entry<K, V>>, key: K, v: V)
    requires Distinct(es)
    ensures Keys(Put(es, key, v)) == if key in Keys(es) then Keys(es) else Keys(es) + [key]
  {
    var i := Position(es, key);
    if i < |es| {
      assert Keys(es)[i] == key;
    } else {
      assert key !in Keys(es);
    }
  }

  /** After any operations the keys are distinct, in the order of their first insertion,
    and every key has the value that was inserted last. */
  lemma {:induction false} RunIsAnOrderedMap<K, V>(ops: seq<Op<K, V>>, key: K)
    ensures Distinct(After(ops))
    ensures Value(After(ops), key) == LastInserted(ops, key)
    ensures Keys(After(ops)) == FirstSeen(ops)
  {
    if ops != [] {
      var before := ops[..|ops| - 1];
      RunIsAnOrderedMap(before, key);
      match ops[|ops| - 1]
      case Insert(k, v) =>
        PutIsDistinct(After(before), k, v);
        PutValue(After(before), k, v, key);
        PutKeys(After(before), k, v);
      case _ =>
    }
  }
}
