/** Routes as a list: what it means for a route to match a path, and which of the routes
  that match is the right one. */
module Routes {
  import opened Wrappers

  /** The function that answers a request; what it does is not part of this model. */
  type Handler = nat

  const ANY_VERB := "*"

  datatype Segment = Static(text: string) | Param(name: string) | Wildcard

  /** A segment without the name of its parameter: what a node of the trie stands for. */
  datatype Key = Text(text: string) | Any | Rest

  datatype Route = Route(verb: string, pattern: seq<Segment>, handler: Handler)

  function KeyOf(s: Segment): Key {
    match s
    case Static(t) => Text(t)
    case Param(_) => Any
    case Wildcard => Rest
  }

  function Shape(p: seq<Segment>): (r: seq<Key>)
    ensures |r| == |p| && forall i :: 0 <= i < |p| ==> r[i] == KeyOf(p[i])
  {
    seq(|p|, i requires 0 <= i < |p| => KeyOf(p[i]))
  }

  // ─── Matching ──────────────────────────────────────────────────────────────

  /** From segment `k` on: text matches itself, a parameter any segment, and a wildcard,
    which has to be the last, everything that is left, but not nothing. */
  predicate MatchesFrom(shape: seq<Key>, segs: seq<string>, k: nat)
    decreases |segs| - k
  {
    if k >= |segs| then |shape| == k
    else
      && k < |shape|
      && match shape[k] {
           case Text(t) => t == segs[k] && MatchesFrom(shape, segs, k + 1)
           case Any => MatchesFrom(shape, segs, k + 1)
           case Rest => |shape| == k + 1
         }
  }

  predicate Accepts(r: Route, verb: string) { r.verb == verb || r.verb == ANY_VERB }

  predicate Eligible(r: Route, verb: string, segs: seq<string>) {
    Accepts(r, verb) && MatchesFrom(Shape(r.pattern), segs, 0)
  }

  function Rank(k: Key): nat {
    match k
    case Text(_) => 0
    case Any => 1
    case Rest => 2
  }

  /** Text before parameters before wildcards, from left to right. */
  predicate Before(p: seq<Key>, q: seq<Key>, k: nat)
    decreases |p| - k
  {
    || k >= |p| || k >= |q|
    || Rank(p[k]) < Rank(q[k])
    || (Rank(p[k]) == Rank(q[k]) && Before(p, q, k + 1))
  }

  /** Route `i` is a better answer than route `j`, or the same: its pattern comes first; or
    the pattern is the same and it names the verb; or all is the same and it came later. */
  predicate Preferred(routes: seq<Route>, i: nat, j: nat, verb: string)
    requires i < |routes| && j < |routes|
  {
    var p, q := Shape(routes[i].pattern), Shape(routes[j].pattern);
    && Before(p, q, 0)
    && (p == q ==>
          && (routes[j].verb == verb ==> routes[i].verb == verb)
          && (routes[i].verb == routes[j].verb ==> j <= i))
  }

  ghost predicate IsBest(routes: seq<Route>, i: nat, verb: string, segs: seq<string>) {
    && i < |routes| && Eligible(routes[i], verb, segs)
    && forall j :: 0 <= j < |routes| && Eligible(routes[j], verb, segs) ==> Preferred(routes, i, j, verb)
  }

  // ─── Bindings ──────────────────────────────────────────────────────────────

  predicate Covers(r: Route, shape: seq<Key>) { shape <= Shape(r.pattern) }

  /** The name of the parameter at the end of `shape`: the one that was registered first. */
  function FirstName(routes: seq<Route>, shape: seq<Key>): string
    requires shape != []
  {
    if routes == [] then ""
    else if Covers(routes[0], shape) then NameOf(routes[0].pattern[|shape| - 1])
    else FirstName(routes[1..], shape)
  }

  function NameOf(s: Segment): string { if s.Param? then s.name else "" }

  /** What the parameters among the first `k` segments are bound to. */
  function Bound(routes: seq<Route>, shape: seq<Key>, segs: seq<string>, k: nat): map<string, string>
    requires k <= |shape| && k <= |segs|
  {
    if k == 0 then map[]
    else if shape[k - 1] == Any then
      Bound(routes, shape, segs, k - 1)[FirstName(routes, shape[..k]) := segs[k - 1]]
    else Bound(routes, shape, segs, k - 1)
  }

  /** No two parameters of one pattern have the same name. */
  predicate NamesDiffer(routes: seq<Route>) {
    forall n, i, j :: 0 <= n < |routes| && 0 <= i < j < |routes[n].pattern| ==>
      NamesDifferAt(routes, Shape(routes[n].pattern), i, j)
  }

  predicate NamesDifferAt(routes: seq<Route>, shape: seq<Key>, i: nat, j: nat)
    requires i < j < |shape|
  {
    shape[i] == Any && shape[j] == Any ==> FirstName(routes, shape[..i + 1]) != FirstName(routes, shape[..j + 1])
  }

  ghost predicate IsCovered(routes: seq<Route>, shape: seq<Key>) {
    exists i :: 0 <= i < |routes| && Covers(routes[i], shape)
  }

  // ─── Bindings that are erased ──────────────────────────────────────────────

  /** Text that is right, and parameters, from segment `k` on. */
  predicate Follows(shape: seq<Key>, segs: seq<string>, k: nat) {
    |shape| <= |segs| && forall j :: k <= j < |shape| ==> shape[j] == Any || shape[j] == Text(segs[j])
  }

  /** The first `l` segments of route `i` end in a parameter that a search below `shape`
    comes to when it fails. */
  predicate Tried(routes: seq<Route>, shape: seq<Key>, segs: seq<string>, i: nat, l: nat)
    requires i < |routes|
  {
    var p := Shape(routes[i].pattern);
    && |shape| < l <= |p| && shape <= p && Follows(p[..l], segs, |shape|) && p[l - 1] == Any
  }

  /** The names of the parameters that a search below `shape` binds and erases when it fails. */
  function TriedBelow(routes: seq<Route>, shape: seq<Key>, segs: seq<string>): set<string> {
    set i, l | 0 <= i < |routes| && 0 <= l <= |segs| && Tried(routes, shape, segs, i, l) ::
      FirstName(routes, Shape(routes[i].pattern)[..l])
  }

  /** What is tried in vain at segment `k` before the search goes on along `shape`. */
  function Erased(routes: seq<Route>, shape: seq<Key>, segs: seq<string>, k: nat): set<string>
    requires k < |shape| && k < |segs|
  {
    match shape[k]
    case Text(_) => {}
    case Any => TriedBelow(routes, shape[..k] + [Text(segs[k])], segs)
    case Rest => TriedBelow(routes, shape[..k], segs)
  }

  /** What is bound after `k` segments: at each of them the parameters that were tried in
    vain are erased, and then the right one is bound. */
  function Left(routes: seq<Route>, shape: seq<Key>, segs: seq<string>, k: nat): map<string, string>
    requires k <= |shape| && k <= |segs|
  {
    if k == 0 then map[]
    else
      var left := Left(routes, shape, segs, k - 1) - Erased(routes, shape, segs, k - 1);
      if shape[k - 1] == Any then left[FirstName(routes, shape[..k]) := segs[k - 1]] else left
  }

  predicate NamedThere(routes: seq<Route>, shape: seq<Key>, i: nat, name: string)
    requires i < |shape|
  {
    shape[i] == Any && FirstName(routes, shape[..i + 1]) == name
  }

  predicate ErasedBehind(routes: seq<Route>, shape: seq<Key>, segs: seq<string>, i: nat, k: nat, name: string)
    requires k <= |shape| && k <= |segs|
  {
    exists j :: i < j < k && name in Erased(routes, shape, segs, j)
  }

  /** Some parameter among the first `k` segments has the name, and no parameter of that
    name is tried in vain behind it. */
  predicate Survives(routes: seq<Route>, shape: seq<Key>, segs: seq<string>, k: nat, name: string)
    requires k <= |shape| && k <= |segs|
  {
    exists i :: 0 <= i < k && NamedThere(routes, shape, i, name) && !ErasedBehind(routes, shape, segs, i, k, name)
  }

  /** The name of every parameter of the pattern survives. */
  predicate Keeps(routes: seq<Route>, shape: seq<Key>, segs: seq<string>)
    requires |shape| <= |segs|
  {
    forall i :: 0 <= i < |shape| && shape[i] == Any ==>
      Survives(routes, shape, segs, |shape|, FirstName(routes, shape[..i + 1]))
  }

  lemma SurvivesOneMore(routes: seq<Route>, shape: seq<Key>, segs: seq<string>, k: nat, name: string)
    requires k < |shape| && k < |segs|
    ensures Survives(routes, shape, segs, k + 1, name)
            <==> || NamedThere(routes, shape, k, name)
                 || (Survives(routes, shape, segs, k, name) && name !in Erased(routes, shape, segs, k))
  {
    hide Erased, NamedThere;
    if NamedThere(routes, shape, k, name) {
      assert !ErasedBehind(routes, shape, segs, k, k + 1, name);
    }
    if i :| 0 <= i < k && NamedThere(routes, shape, i, name) && !ErasedBehind(routes, shape, segs, i, k, name) {
      assert name !in Erased(routes, shape, segs, k) ==> !ErasedBehind(routes, shape, segs, i, k + 1, name);
    }
    if i :| 0 <= i < k + 1 && NamedThere(routes, shape, i, name) && !ErasedBehind(routes, shape, segs, i, k + 1, name) {
      if i < k {
        assert !ErasedBehind(routes, shape, segs, i, k, name);
      }
    }
  }

  /** What is left are the names that survive, with the values that they should have. */
  lemma {:induction false} LeftSurvives(routes: seq<Route>, shape: seq<Key>, segs: seq<string>, k: nat, name: string)
    requires k <= |shape| && k <= |segs|
    ensures var left, bound := Left(routes, shape, segs, k), Bound(routes, shape, segs, k);
            && (name in left <==> Survives(routes, shape, segs, k, name))
            && (name in left ==> name in bound && left[name] == bound[name])
    ensures name in Bound(routes, shape, segs, k) <==> exists i :: 0 <= i < k && NamedThere(routes, shape, i, name)
  {
    hide Erased, Survives, FirstName;
    if k == 0 {
      assert !Survives(routes, shape, segs, 0, name) by { Nobody(routes, shape, segs, name); }
    } else {
      LeftSurvives(routes, shape, segs, k - 1, name);
      SurvivesOneMore(routes, shape, segs, k - 1, name);
      assert NamedThere(routes, shape, k - 1, name) || !NamedThere(routes, shape, k - 1, name);
    }
  }

  lemma Nobody(routes: seq<Route>, shape: seq<Key>, segs: seq<string>, name: string)
    ensures !Survives(routes, shape, segs, 0, name)
  {
  }

  /** The bindings are those of the pattern if and only if all its names survive. */
  lemma LeftIsBoundIff(routes: seq<Route>, shape: seq<Key>, segs: seq<string>)
    requires |shape| <= |segs|
    ensures Left(routes, shape, segs, |shape|) == Bound(routes, shape, segs, |shape|) <==> Keeps(routes, shape, segs)
  {
    hide Left, Bound, Survives, FirstName;
    var left, bound := Left(routes, shape, segs, |shape|), Bound(routes, shape, segs, |shape|);
    forall name: string
      ensures name in left <==> Survives(routes, shape, segs, |shape|, name)
      ensures name in left ==> name in bound && left[name] == bound[name]
      ensures name in bound <==> exists i :: 0 <= i < |shape| && NamedThere(routes, shape, i, name)
    {
      LeftSurvives(routes, shape, segs, |shape|, name);
    }
    if Keeps(routes, shape, segs) {
      assert left == bound;
    } else {
      var i :| 0 <= i < |shape| && shape[i] == Any
               && !Survives(routes, shape, segs, |shape|, FirstName(routes, shape[..i + 1]));
      assert NamedThere(routes, shape, i, FirstName(routes, shape[..i + 1]));
    }
  }

  /** A parameter that is tried in vain belongs to a route that goes on from a part of the
    path. */
  lemma ErasedIsOf(routes: seq<Route>, shape: seq<Key>, segs: seq<string>, k: nat, name: string)
    returns (n: nat, l: nat)
    requires k < |shape| && k < |segs| && name in Erased(routes, shape, segs, k)
    ensures n < |routes| && k < l <= |routes[n].pattern|
    ensures var q := Shape(routes[n].pattern);
            shape[..k] == q[..k] && NamedThere(routes, q, l - 1, name)
  {
    hide FirstName;
    var s := if shape[k] == Any then shape[..k] + [Text(segs[k])] else shape[..k];
    n, l :| 0 <= n < |routes| && 0 <= l <= |segs| && Tried(routes, s, segs, n, l)
            && FirstName(routes, Shape(routes[n].pattern)[..l]) == name;
    assert s[..k] == shape[..k];
  }

  /** With different names in every pattern nothing is lost. */
  lemma DifferentNamesSurvive(routes: seq<Route>, shape: seq<Key>, segs: seq<string>)
    requires |shape| <= |segs| && NamesDiffer(routes)
    ensures Keeps(routes, shape, segs)
  {
    hide Erased, FirstName, NamesDiffer;
    forall i | 0 <= i < |shape| && shape[i] == Any
      ensures Survives(routes, shape, segs, |shape|, FirstName(routes, shape[..i + 1]))
    {
      var name := FirstName(routes, shape[..i + 1]);
      assert NamedThere(routes, shape, i, name);
      if j :| i < j < |shape| && name in Erased(routes, shape, segs, j) {
        var n, l := ErasedIsOf(routes, shape, segs, j, name);
        var q := Shape(routes[n].pattern);
        assert q[..j][..i + 1] == shape[..j][..i + 1];
        assert q[i] == q[..i + 1][i] == shape[..i + 1][i];
        assert q[..i + 1] == shape[..i + 1];
        NamesDifferIn(routes, n, i, l - 1);
        assert false;
      }
    }
  }

  lemma NamesDifferIn(routes: seq<Route>, n: nat, i: nat, j: nat)
    requires NamesDiffer(routes) && n < |routes| && i < j < |routes[n].pattern|
    ensures NamesDifferAt(routes, Shape(routes[n].pattern), i, j)
  {
  }

  // ─── What a search tries ───────────────────────────────────────────────────

  /** What is tried below a shape is what is tried along the text and along the parameter,
    and that parameter. */
  lemma TriedIsOne(routes: seq<Route>, shape: seq<Key>, segs: seq<string>)
    requires |shape| < |segs|
    ensures var p := shape + [Any];
            TriedBelow(routes, shape, segs)
            == TriedBelow(routes, shape + [Text(segs[|shape|])], segs) + TriedBelow(routes, p, segs)
               + if IsCovered(routes, p) then {FirstName(routes, p)} else {}
  {
    hide FirstName;
    var k := |shape|;
    var p, t := shape + [Any], shape + [Text(segs[k])];
    var here := if IsCovered(routes, p) then {FirstName(routes, p)} else {};
    forall name | name in TriedBelow(routes, shape, segs)
      ensures name in TriedBelow(routes, t, segs) + TriedBelow(routes, p, segs) + here
    {
      var i, l :| 0 <= i < |routes| && 0 <= l <= |segs| && Tried(routes, shape, segs, i, l)
                  && FirstName(routes, Shape(routes[i].pattern)[..l]) == name;
      TriedNext(routes, shape, segs, i, l);
    }
    forall name | name in TriedBelow(routes, t, segs) + TriedBelow(routes, p, segs)
      ensures name in TriedBelow(routes, shape, segs)
    {
      var s := if name in TriedBelow(routes, t, segs) then t else p;
      var i, l :| 0 <= i < |routes| && 0 <= l <= |segs| && Tried(routes, s, segs, i, l)
                  && FirstName(routes, Shape(routes[i].pattern)[..l]) == name;
      TriedBefore(routes, shape, segs, i, l, s[k]);
    }
    if i :| 0 <= i < |routes| && Covers(routes[i], p) {
      assert Shape(routes[i].pattern)[..k + 1] == p && Tried(routes, shape, segs, i, k + 1);
    }
  }

  lemma TriedNext(routes: seq<Route>, shape: seq<Key>, segs: seq<string>, i: nat, l: nat)
    requires |shape| < |segs| && i < |routes| && l <= |segs| && Tried(routes, shape, segs, i, l)
    ensures || Tried(routes, shape + [Text(segs[|shape|])], segs, i, l)
            || Tried(routes, shape + [Any], segs, i, l)
            || (Shape(routes[i].pattern)[..l] == shape + [Any] && IsCovered(routes, shape + [Any]))
  {
    var k, q := |shape|, Shape(routes[i].pattern);
    assert q[..l][k] == q[k];
    assert q[..k + 1] == shape + [q[k]];
    if l == k + 1 {
      assert Covers(routes[i], shape + [Any]);
    }
  }

  lemma TriedBefore(routes: seq<Route>, shape: seq<Key>, segs: seq<string>, i: nat, l: nat, key: Key)
    requires |shape| < |segs| && i < |routes| && l <= |segs| && Tried(routes, shape + [key], segs, i, l)
    requires key == Any || key == Text(segs[|shape|])
    ensures Tried(routes, shape, segs, i, l)
  {
    var k, q := |shape|, Shape(routes[i].pattern);
    assert q[k] == (shape + [key])[k] == key;
    assert q[..l][k] == key;
  }

  lemma NothingTried(routes: seq<Route>, shape: seq<Key>, segs: seq<string>)
    requires !IsCovered(routes, shape) || |shape| >= |segs|
    ensures TriedBelow(routes, shape, segs) == {}
  {
    hide FirstName;
    forall i, l | 0 <= i < |routes| && 0 <= l <= |segs|
      ensures !Tried(routes, shape, segs, i, l)
    {
      assert Covers(routes[i], shape) ==> IsCovered(routes, shape);
    }
  }

  // ─── What a node holds ─────────────────────────────────────────────────────

  /** The handler registered last for a shape and a verb. */
  function LastHandler(routes: seq<Route>, shape: seq<Key>, verb: string): Option<Handler> {
    if routes == [] then None
    else
      var r := routes[|routes| - 1];
      if Shape(r.pattern) == shape && r.verb == verb then Some(r.handler)
      else LastHandler(routes[..|routes| - 1], shape, verb)
  }

  /** The route that the last handler comes from. */
  lemma {:induction false} LastHandlerIsLast(routes: seq<Route>, shape: seq<Key>, verb: string) returns (i: nat)
    ensures LastHandler(routes, shape, verb).None?
            ==> forall j :: 0 <= j < |routes| ==> !(Shape(routes[j].pattern) == shape && routes[j].verb == verb)
    ensures LastHandler(routes, shape, verb).Some?
            ==> && i < |routes| && Shape(routes[i].pattern) == shape && routes[i].verb == verb
                && LastHandler(routes, shape, verb) == Some(routes[i].handler)
                && forall j :: i < j < |routes| ==> !(Shape(routes[j].pattern) == shape && routes[j].verb == verb)
  {
    i := 0;
    if routes != [] {
      var last := |routes| - 1;
      if Shape(routes[last].pattern) == shape && routes[last].verb == verb {
        i := last;
      } else {
        i := LastHandlerIsLast(routes[..last], shape, verb);
      }
    }
  }

  lemma {:induction false} FirstNameStays(routes: seq<Route>, r: Route, shape: seq<Key>)
    requires shape != []
    ensures (exists i :: 0 <= i < |routes| && Covers(routes[i], shape))
            ==> FirstName(routes + [r], shape) == FirstName(routes, shape)
    ensures (forall i :: 0 <= i < |routes| ==> !Covers(routes[i], shape)) && Covers(r, shape)
            ==> FirstName(routes + [r], shape) == NameOf(r.pattern[|shape| - 1])
  {
    if routes == [] {
      assert routes + [r] == [r];
    } else {
      assert (routes + [r])[1..] == routes[1..] + [r];
      if !Covers(routes[0], shape) {
        FirstNameStays(routes[1..], r, shape);
        if i :| 0 <= i < |routes| && Covers(routes[i], shape) {
          assert routes[1..][i - 1] == routes[i];
        }
      }
    }
  }

  // ─── Patterns and paths ────────────────────────────────────────────────────

  /** One segment of a pattern and one of a path. */
  predicate Fits(s: Segment, text: string) {
    match s
    case Static(t) => t == text
    case Param(_) => true
    case Wildcard => false
  }

  predicate FitsUpTo(p: seq<Segment>, segs: seq<string>, i: nat, n: nat) {
    n <= |p| && n <= |segs| && forall k :: i <= k < n ==> Fits(p[k], segs[k])
  }

  /** Segment by segment, or up to a wildcard at the end that has something left to stand for. */
  ghost predicate IsPath(p: seq<Segment>, segs: seq<string>, i: nat) {
    || (|p| == |segs| && FitsUpTo(p, segs, i, |p|))
    || (i < |p| <= |segs| && p[|p| - 1] == Wildcard && FitsUpTo(p, segs, i, |p| - 1))
  }

  lemma {:induction false} MatchesIff(p: seq<Segment>, segs: seq<string>, i: nat)
    requires i <= |segs|
    ensures MatchesFrom(Shape(p), segs, i) <==> IsPath(p, segs, i)
    decreases |segs| - i
  {
    if i < |segs| && i < |p| {
      MatchesIff(p, segs, i + 1);
      assert FitsUpTo(p, segs, i, |p|) <==> |p| <= |segs| && Fits(p[i], segs[i]) && FitsUpTo(p, segs, i + 1, |p|);
      if i + 1 < |p| {
        assert FitsUpTo(p, segs, i, |p| - 1)
          <==> |p| - 1 <= |segs| && Fits(p[i], segs[i]) && FitsUpTo(p, segs, i + 1, |p| - 1);
      }
    }
  }

  /** A route answers its own verb, or every verb when it has a star for one. */
  lemma EligibleIff(r: Route, verb: string, segs: seq<string>)
    ensures Eligible(r, verb, segs) <==> (r.verb == verb || r.verb == "*") && IsPath(r.pattern, segs, 0)
  {
    MatchesIff(r.pattern, segs, 0);
  }

  /** Which segment goes first. */
  predicate Stronger(s: Segment, t: Segment) {
    (s.Static? && !t.Static?) || (s.Param? && t.Wildcard?)
  }

  lemma {:induction false} StrongerIsBefore(p: seq<Segment>, q: seq<Segment>, i: nat, k: nat)
    requires i <= k < |p| && k < |q| && Stronger(p[k], q[k])
    requires forall j :: i <= j < k ==> KeyOf(p[j]) == KeyOf(q[j])
    ensures Before(Shape(p), Shape(q), i) && !Before(Shape(q), Shape(p), i)
    decreases k - i
  {
    if i < k {
      StrongerIsBefore(p, q, i + 1, k);
    }
  }

  /** Of two routes the one with the stronger segment at the first place where they differ is preferred;
    of two with one pattern the one that names the verb, and of two that also have the same verb the
    one that came later. */
  lemma PreferredMeans(routes: seq<Route>, i: nat, j: nat, k: nat, verb: string)
    requires i < |routes| && j < |routes| && i != j
    ensures var p, q := routes[i].pattern, routes[j].pattern;
            k < |p| && k < |q| && Stronger(p[k], q[k]) && (forall l :: 0 <= l < k ==> KeyOf(p[l]) == KeyOf(q[l])) ==>
              Preferred(routes, i, j, verb) && !Preferred(routes, j, i, verb)
    ensures Shape(routes[i].pattern) == Shape(routes[j].pattern) && routes[i].verb == verb != routes[j].verb ==>
              Preferred(routes, i, j, verb) && !Preferred(routes, j, i, verb)
    ensures Shape(routes[i].pattern) == Shape(routes[j].pattern) && routes[i].verb == routes[j].verb && j < i ==>
              Preferred(routes, i, j, verb) && !Preferred(routes, j, i, verb)
  {
    var p, q := routes[i].pattern, routes[j].pattern;
    BeforeItself(Shape(p), 0);
    if k < |p| && k < |q| && Stronger(p[k], q[k]) && forall l :: 0 <= l < k ==> KeyOf(p[l]) == KeyOf(q[l]) {
      StrongerIsBefore(p, q, 0, k);
      assert Shape(p)[k] != Shape(q)[k];
    }
  }

  lemma {:induction false} BeforeItself(p: seq<Key>, i: nat)
    ensures Before(p, p, i)
    decreases |p| - i
  {
    if i < |p| {
      BeforeItself(p, i + 1);
    }
  }

  /** A parameter has the name that the first route with these segments gives it. */
  lemma {:induction false} FirstNameIs(routes: seq<Route>, shape: seq<Key>, i: nat)
    requires i < |routes| && shape != [] && Covers(routes[i], shape)
    requires forall j :: 0 <= j < i ==> !Covers(routes[j], shape)
    ensures routes[i].pattern[|shape| - 1].Param? ==> FirstName(routes, shape) == routes[i].pattern[|shape| - 1].name
  {
    if i > 0 {
      FirstNameIs(routes[1..], shape, i - 1);
    }
  }

  /** It is bound to its own segment of the path, unless a later one has the same name. */
  lemma {:induction false} BoundMeans(routes: seq<Route>, shape: seq<Key>, segs: seq<string>, i: nat, k: nat)
    requires i < k <= |shape| && k <= |segs| && shape[i] == Any
    requires forall j :: i < j < k && shape[j] == Any ==>
               FirstName(routes, shape[..j + 1]) != FirstName(routes, shape[..i + 1])
    ensures var name := FirstName(routes, shape[..i + 1]);
            name in Bound(routes, shape, segs, k) && Bound(routes, shape, segs, k)[name] == segs[i]
    decreases k
  {
    hide FirstName;
    if i < k - 1 {
      BoundMeans(routes, shape, segs, i, k - 1);
      assert shape[..k - 1 + 1] == shape[..k];
    }
  }
}
