/** The router: routes go into the trie one by one, and requests are answered from it. */
module Routing {
  import opened Wrappers
  import opened Routes
  import opened Trie

  datatype Answer = NotFound | Found(handler: Handler, params: map<string, string>)

  function Exactly(node: Node, verb: string): Option<Handler> {
    if verb in node.handlers then Some(node.handlers[verb]) else None
  }

  /** Every node holds the handlers registered last for its shape. */
  ghost predicate Holds(nodes: seq<Node>, shapes: seq<seq<Key>>, routes: seq<Route>)
    requires |nodes| == |shapes|
  {
    forall n, verb :: 0 <= n < |nodes| ==> Exactly(nodes[n], verb) == LastHandler(routes, shapes[n], verb)
  }

  ghost predicate HasNode(shapes: seq<seq<Key>>, shape: seq<Key>) {
    exists n :: 0 <= n < |shapes| && shapes[n] == shape
  }

  /** Every route has its node. */
  ghost predicate AllThere(shapes: seq<seq<Key>>, routes: seq<Route>) {
    forall i :: 0 <= i < |routes| ==> HasNode(shapes, Shape(routes[i].pattern))
  }

  /** Every node is on the way to a route. */
  ghost predicate NoneToSpare(shapes: seq<seq<Key>>, routes: seq<Route>) {
    forall n :: 0 <= n < |shapes| && shapes[n] != [] ==> IsCovered(routes, shapes[n])
  }

  // ─── Growing the trie ──────────────────────────────────────────────────────

  function Grown(nodes: seq<Node>, n: nat, key: Key, name: string): seq<Node>
    requires n < |nodes|
  {
    nodes[n := nodes[n].(children := nodes[n].children + [|nodes|])] + [Node(key, name, map[], [])]
  }

  /** What has no child has nothing below it. */
  lemma NothingBelow(nodes: seq<Node>, shapes: seq<seq<Key>>, parents: seq<nat>, n: nat, key: Key)
    requires Shaped(nodes, shapes, parents) && n < |nodes| && Child(nodes, n, key) == |nodes|
    ensures forall m :: 0 <= m < |nodes| ==> !(shapes[n] + [key] <= shapes[m])
  {
    forall m | 0 <= m < |nodes|
      ensures !(shapes[n] + [key] <= shapes[m])
    {
      ChildAbove(nodes, shapes, parents, n, key, m);
    }
  }

  lemma ChildAbove(nodes: seq<Node>, shapes: seq<seq<Key>>, parents: seq<nat>, n: nat, key: Key, m: nat)
    requires Shaped(nodes, shapes, parents) && n < |nodes| && m < |nodes|
    ensures shapes[n] + [key] <= shapes[m] ==> Child(nodes, n, key) < |nodes|
  {
    if shapes[n] + [key] <= shapes[m] {
      assert shapes[m][|shapes[n]|] == (shapes[n] + [key])[|shapes[n]|];
      NextNode(nodes, shapes, parents, n, m);
    }
  }

  lemma GrownIsLinked(nodes: seq<Node>, n: nat, key: Key, name: string)
    requires Linked(nodes) && n < |nodes|
    ensures Linked(Grown(nodes, n, key, name))
  {
    var g := Grown(nodes, n, key, name);
    forall m, i | 0 <= m < |g| && 0 <= i < |g[m].children|
      ensures m < g[m].children[i] < |g|
    {
      if m < |nodes| && i < |nodes[m].children| {
        assert g[m].children[i] == nodes[m].children[i];
      }
    }
  }

  lemma GrownChildren(nodes: seq<Node>, shapes: seq<seq<Key>>, n: nat, key: Key, name: string)
    requires Linked(nodes) && n < |nodes| == |shapes|
    requires forall m, i :: 0 <= m < |nodes| && 0 <= i < |nodes[m].children| ==>
      shapes[nodes[m].children[i]] == shapes[m] + [nodes[nodes[m].children[i]].key]
    ensures var g, s := Grown(nodes, n, key, name), shapes + [shapes[n] + [key]];
            && Linked(g)
            && forall m, i :: 0 <= m < |g| && 0 <= i < |g[m].children| ==>
                 s[g[m].children[i]] == s[m] + [g[g[m].children[i]].key]
  {
    GrownIsLinked(nodes, n, key, name);
    var g, s := Grown(nodes, n, key, name), shapes + [shapes[n] + [key]];
    forall m, i | 0 <= m < |g| && 0 <= i < |g[m].children|
      ensures s[g[m].children[i]] == s[m] + [g[g[m].children[i]].key]
    {
      if m < |nodes| && i < |nodes[m].children| {
        assert g[m].children[i] == nodes[m].children[i] < |nodes|;
      } else {
        assert m == n && g[m].children[i] == |nodes|;
      }
    }
  }

  lemma GrownParent(nodes: seq<Node>, shapes: seq<seq<Key>>, parents: seq<nat>, n: nat, key: Key, name: string, c: nat)
    requires |nodes| == |shapes| == |parents| && n < |nodes| && c <= |nodes|
    requires c < |nodes| ==> IsParent(nodes, shapes, parents, c)
    ensures IsParent(Grown(nodes, n, key, name), shapes + [shapes[n] + [key]], parents + [n], c)
  {
    var g := Grown(nodes, n, key, name);
    if c < |nodes| {
      var i :| 0 <= i < |nodes[parents[c]].children| && nodes[parents[c]].children[i] == c;
      assert g[parents[c]].children[i] == c;
    } else {
      assert g[n].children[|nodes[n].children|] == c;
      assert (shapes[n] + [key])[..|shapes[n]|] == shapes[n];
    }
  }

  lemma GrownIsShaped(nodes: seq<Node>, shapes: seq<seq<Key>>, parents: seq<nat>, n: nat, key: Key, name: string)
    requires Shaped(nodes, shapes, parents) && n < |nodes| && Child(nodes, n, key) == |nodes|
    ensures Shaped(Grown(nodes, n, key, name), shapes + [shapes[n] + [key]], parents + [n])
  {
    NothingBelow(nodes, shapes, parents, n, key);
    GrownChildren(nodes, shapes, n, key, name);
    hide Linked, Child, IsParent;
    var g := Grown(nodes, n, key, name);
    forall c | 0 < c < |g|
      ensures IsParent(g, shapes + [shapes[n] + [key]], parents + [n], c)
    {
      GrownParent(nodes, shapes, parents, n, key, name, c);
    }
    assert |g| == |nodes| + 1;
  }

  class Router {
    var nodes: seq<Node>
    ghost var routes: seq<Route>
    ghost var shapes: seq<seq<Key>>
    ghost var parents: seq<nat>

    ghost predicate Valid()
      reads this
    {
      && Shaped(nodes, shapes, parents)
      && Holds(nodes, shapes, routes) && AllThere(shapes, routes)
      && Named(nodes, shapes, routes) && NoneToSpare(shapes, routes)
    }

    constructor ()
      ensures Valid() && routes == []
    {
      nodes := [Node(Text(""), "", map[], [])];
      routes, shapes, parents := [], [[]], [0];
    }

    /** The first child of a node with this key, or the number of nodes. */
    method FindChildOf(n: nat, key: Key) returns (c: nat)
      requires Linked(nodes) && n < |nodes|
      ensures c == Child(nodes, n, key)
    {
      var children := nodes[n].children;
      assert children[0..] == children;
      for i := 0 to |children|
        invariant ChildFrom(nodes, children[i..], key) == Child(nodes, n, key)
      {
        if nodes[children[i]].key == key {
          return children[i];
        }
        assert children[i..][1..] == children[i + 1..];
      }
      return |nodes|;
    }

    /** Registers a route: goes down the trie along its pattern, making the nodes that are
      not there yet, and leaves the handler in the last one. */
    method Add(verb: string, pattern: seq<Segment>, handler: Handler)
      requires Valid()
      modifies this
      ensures Valid() && routes == old(routes) + [Route(verb, pattern, handler)]
    {
      hide AllThere, Child, Growing, Grown, Holds, KeyOf, Linked, NameOf, Named, NoneToSpare, Shape, Shaped;
      ghost var r := Route(verb, pattern, handler);
      ghost var shape := Shape(pattern);
      var curr: nat := 0;
      RootShape(nodes, shapes, parents);
      OneMoreRoute(nodes, shapes, parents, routes, r);
      assert shape[..0] == [];
      for k := 0 to |pattern|
        invariant routes == old(routes) && Growing(nodes, shapes, parents, routes, r)
        invariant curr < |nodes| == |shapes| && k <= |shape| == |pattern| && shapes[curr] == shape[..k]
      {
        ShapeAt(pattern, k);
        GrowingIsShaped(nodes, shapes, parents, routes, r);
        var key := KeyOf(pattern[k]);
        var next := FindChildOf(curr, key);
        assert shape[..k + 1] == shape[..k] + [key];
        if next == |nodes| {
          GrownIsGrowing(nodes, shapes, parents, routes, r, curr, k);
          shapes, parents := shapes + [shapes[curr] + [key]], parents + [curr];
          GrownLength(nodes, curr, key, NameOf(pattern[k]));
          nodes := Grown(nodes, curr, key, NameOf(pattern[k]));
        } else {
          ChildShape(nodes, shapes, parents, curr, key);
        }
        curr := next;
      }
      assert shape[..|pattern|] == shape;
      GrowingIsShaped(nodes, shapes, parents, routes, r);
      Registered(nodes, shapes, parents, routes, r, curr);
      nodes := nodes[curr := nodes[curr].(handlers := nodes[curr].handlers[verb := handler])];
      routes := routes + [r];
    }

    /** Answers a request with the best of the routes that match it, or with nothing when
      there are none; and binds the parameters of that route's pattern. */
    method Match(verb: string, segs: seq<string>) returns (answer: Answer)
      requires Valid()
      ensures answer.NotFound? <==> forall j :: 0 <= j < |routes| ==> !Eligible(routes[j], verb, segs)
      ensures answer.Found? ==> exists i: nat :: IsAnswer(routes, i, verb, segs, answer.handler)
                                            && IsLeft(routes, i, segs, answer.params)
    {
      hide AllThere, IsLeft, Eligible, Find, HandlerAt, Holds, IsAnswer, Linked, Named, NoneToSpare, Shaped;
      RootShape(nodes, shapes, parents);
      var found, handler, params := MatchFrom(0, segs, 0, verb, map[]);
      FindAnswers(nodes, shapes, parents, routes, segs, verb);
      return if found then Found(handler, params) else NotFound;
    }

    method MatchFrom(n: nat, segs: seq<string>, k: nat, verb: string, params: map<string, string>)
      returns (found: bool, handler: Handler, bound: map<string, string>)
      requires Linked(nodes) && n < |nodes| && k <= |segs|
      ensures var r := Find(nodes, n, segs, k, verb, params);
              && found == r.Hit? && bound == r.params
              && (found ==> HandlerAt(nodes[r.node], verb) == Some(handler))
      decreases |segs| - k
    {
      hide Linked, Child, HandlerAt;
      found, handler, bound := false, 0, params;
      if k == |segs| {
        var h := HandlerAt(nodes[n], verb);
        return h.Some?, if h.Some? then h.value else 0, bound;
      }
      FindIsOne(nodes, n, segs, k, verb, params);
      hide Find;
      var next := FindChildOf(n, Text(segs[k]));
      if next < |nodes| {
        found, handler, bound := MatchFrom(next, segs, k + 1, verb, bound);
        if found {
          return;
        }
      }
      next := FindChildOf(n, Any);
      if next < |nodes| {
        bound := bound[nodes[next].name := segs[k]];
        found, handler, bound := MatchFrom(next, segs, k + 1, verb, bound);
        if found {
          return;
        }
        bound := bound - {nodes[next].name};
      }
      next := FindChildOf(n, Rest);
      if next < |nodes| {
        var h := HandlerAt(nodes[next], verb);
        if h.Some? {
          return true, h.value, bound;
        }
      }
      return false, 0, bound;
    }
  }

  // ─── Adding a route ────────────────────────────────────────────────────────

  /** What holds while a route is being added: the nodes are there, its handler not yet. */
  ghost predicate Growing(nodes: seq<Node>, shapes: seq<seq<Key>>, parents: seq<nat>, routes: seq<Route>, r: Route) {
    && Shaped(nodes, shapes, parents)
    && Holds(nodes, shapes, routes) && AllThere(shapes, routes)
    && Named(nodes, shapes, routes + [r]) && NoneToSpare(shapes, routes + [r])
  }

  lemma RootShape(nodes: seq<Node>, shapes: seq<seq<Key>>, parents: seq<nat>)
    requires Shaped(nodes, shapes, parents)
    ensures Linked(nodes) && |shapes| == |nodes| > 0 && shapes[0] == []
  {
  }

  lemma ShapeAt(pattern: seq<Segment>, k: nat)
    requires k < |pattern|
    ensures |Shape(pattern)| == |pattern| && Shape(pattern)[k] == KeyOf(pattern[k])
  {
  }

  lemma GrowingIsShaped(nodes: seq<Node>, shapes: seq<seq<Key>>, parents: seq<nat>, routes: seq<Route>, r: Route)
    requires Growing(nodes, shapes, parents, routes, r)
    ensures Shaped(nodes, shapes, parents) && Linked(nodes) && |shapes| == |nodes|
  {
  }

  lemma GrownLength(nodes: seq<Node>, n: nat, key: Key, name: string)
    requires n < |nodes|
    ensures |Grown(nodes, n, key, name)| == |nodes| + 1
  {
  }

  /** A new route changes no name: every node is on the way to an earlier one. */
  lemma OneMoreRoute(nodes: seq<Node>, shapes: seq<seq<Key>>, parents: seq<nat>, routes: seq<Route>, r: Route)
    requires Shaped(nodes, shapes, parents) && Holds(nodes, shapes, routes) && AllThere(shapes, routes)
    requires Named(nodes, shapes, routes) && NoneToSpare(shapes, routes)
    ensures Growing(nodes, shapes, parents, routes, r)
  {
    hide Holds, AllThere, Covers, FirstName;
    assert |nodes| == |shapes|;
    forall c | 0 <= c < |nodes| && shapes[c] != []
      ensures NamedAt(nodes, shapes, routes + [r], c) && IsCovered(routes + [r], shapes[c])
    {
      assert NamedAt(nodes, shapes, routes, c) && IsCovered(routes, shapes[c]);
      var i :| 0 <= i < |routes| && Covers(routes[i], shapes[c]);
      assert (routes + [r])[i] == routes[i];
      FirstNameStays(routes, r, shapes[c]);
    }
  }

  /** A node that is not there is on the way to no route. */
  lemma NotCovered(nodes: seq<Node>, shapes: seq<seq<Key>>, parents: seq<nat>, routes: seq<Route>, shape: seq<Key>)
    requires Shaped(nodes, shapes, parents) && AllThere(shapes, routes)
    requires forall m :: 0 <= m < |nodes| ==> !(shape <= shapes[m])
    ensures !IsCovered(routes, shape) && forall verb :: LastHandler(routes, shape, verb).None?
  {
    hide LastHandler;
    forall i | 0 <= i < |routes|
      ensures !Covers(routes[i], shape)
    {
      assert HasNode(shapes, Shape(routes[i].pattern));
    }
    forall verb
      ensures LastHandler(routes, shape, verb).None?
    {
      var i := LastHandlerIsLast(routes, shape, verb);
      assert i < |routes| ==> !Covers(routes[i], shape);
    }
  }

  lemma GrownIsGrowing(nodes: seq<Node>, shapes: seq<seq<Key>>, parents: seq<nat>, routes: seq<Route>, r: Route, n: nat,
                       k: nat)
    requires Growing(nodes, shapes, parents, routes, r) && |nodes| == |shapes| && Linked(nodes)
    requires n < |nodes| && k < |r.pattern| && shapes[n] == Shape(r.pattern)[..k]
    requires Child(nodes, n, KeyOf(r.pattern[k])) == |nodes|
    ensures var key := KeyOf(r.pattern[k]);
            Growing(Grown(nodes, n, key, NameOf(r.pattern[k])), shapes + [shapes[n] + [key]], parents + [n], routes, r)
  {
    hide Shaped, FirstName, LastHandler, Child, Linked;
    var key, name := KeyOf(r.pattern[k]), NameOf(r.pattern[k]);
    var shape := shapes[n] + [key];
    var g, s := Grown(nodes, n, key, name), shapes + [shape];
    GrownIsShaped(nodes, shapes, parents, n, key, name);
    NothingBelow(nodes, shapes, parents, n, key);
    NotCovered(nodes, shapes, parents, routes, shape);
    assert shape == Shape(r.pattern)[..k + 1];
    assert Covers(r, shape);
    assert (routes + [r])[|routes|] == r;
    FirstNameStays(routes, r, shape);
    forall c | 0 <= c < |g| && s[c] != []
      ensures NamedAt(g, s, routes + [r], c) && IsCovered(routes + [r], s[c])
    {
      if c < |nodes| {
        assert NamedAt(nodes, shapes, routes + [r], c) && IsCovered(routes + [r], shapes[c]);
      }
    }
    forall m, verb | 0 <= m < |g|
      ensures Exactly(g[m], verb) == LastHandler(routes, s[m], verb)
    {
      if m < |nodes| {
        assert Exactly(nodes[m], verb) == LastHandler(routes, shapes[m], verb);
      }
    }
    forall i | 0 <= i < |routes|
      ensures HasNode(s, Shape(routes[i].pattern))
    {
      assert HasNode(shapes, Shape(routes[i].pattern));
      var m :| 0 <= m < |shapes| && shapes[m] == Shape(routes[i].pattern);
      assert s[m] == shapes[m];
    }
  }

  lemma LastHandlerAfter(routes: seq<Route>, r: Route, shape: seq<Key>, verb: string)
    ensures LastHandler(routes + [r], shape, verb)
            == if Shape(r.pattern) == shape && r.verb == verb then Some(r.handler) else LastHandler(routes, shape, verb)
  {
    hide Shape;
    assert (routes + [r])[..|routes|] == routes;
  }

  /** The last step: the handler goes into the node at the end of the pattern. */
  lemma Registered(nodes: seq<Node>, shapes: seq<seq<Key>>, parents: seq<nat>, routes: seq<Route>, r: Route, n: nat)
    requires Growing(nodes, shapes, parents, routes, r) && |nodes| == |shapes|
    requires n < |nodes| && shapes[n] == Shape(r.pattern)
    ensures var nodes1 := nodes[n := nodes[n].(handlers := nodes[n].handlers[r.verb := r.handler])];
            && Shaped(nodes1, shapes, parents)
            && Holds(nodes1, shapes, routes + [r]) && AllThere(shapes, routes + [r])
            && Named(nodes1, shapes, routes + [r]) && NoneToSpare(shapes, routes + [r])
  {
    hide LastHandler, FirstName, Covers;
    var nodes1 := nodes[n := nodes[n].(handlers := nodes[n].handlers[r.verb := r.handler])];
    forall c | 0 < c < |nodes1|
      ensures IsParent(nodes1, shapes, parents, c)
    {
      assert IsParent(nodes, shapes, parents, c);
    }
    forall c | 0 <= c < |nodes1| && shapes[c] != []
      ensures NamedAt(nodes1, shapes, routes + [r], c)
    {
      assert NamedAt(nodes, shapes, routes + [r], c);
    }
    forall m, verb | 0 <= m < |nodes1|
      ensures Exactly(nodes1[m], verb) == LastHandler(routes + [r], shapes[m], verb)
    {
      LastHandlerAfter(routes, r, shapes[m], verb);
      assert Exactly(nodes[m], verb) == LastHandler(routes, shapes[m], verb);
    }
    forall i | 0 <= i < |routes + [r]|
      ensures HasNode(shapes, Shape((routes + [r])[i].pattern))
    {
      if i < |routes| {
        assert HasNode(shapes, Shape(routes[i].pattern));
      }
    }
  }

  // ─── Answering a request ───────────────────────────────────────────────────

  ghost predicate IsAnswer(routes: seq<Route>, i: nat, verb: string, segs: seq<string>, handler: Handler) {
    IsBest(routes, i, verb, segs) && handler == routes[i].handler
  }

  /** The parameters are bound as the pattern of route `i` says. */
  ghost predicate Binds(routes: seq<Route>, i: nat, segs: seq<string>, params: map<string, string>) {
    && i < |routes| && |routes[i].pattern| <= |segs|
    && params == Bound(routes, Shape(routes[i].pattern), segs, |routes[i].pattern|)
  }

  /** The bindings are what is left of those of route `i`, which is all of them exactly when
    its names survive, and so whenever no pattern repeats a name. */
  ghost predicate IsLeft(routes: seq<Route>, i: nat, segs: seq<string>, params: map<string, string>) {
    && i < |routes| && |routes[i].pattern| <= |segs|
    && params == Left(routes, Shape(routes[i].pattern), segs, |routes[i].pattern|)
    && (Binds(routes, i, segs, params) <==> Keeps(routes, Shape(routes[i].pattern), segs))
    && (NamesDiffer(routes) ==> Binds(routes, i, segs, params))
  }

  ghost predicate Answers(nodes: seq<Node>, routes: seq<Route>, segs: seq<string>, verb: string, r: Search) {
    if r.Miss? then forall j :: 0 <= j < |routes| ==> !Eligible(routes[j], verb, segs)
    else
      && r.node < |nodes| && HandlerAt(nodes[r.node], verb).Some?
      && exists i: nat :: IsAnswer(routes, i, verb, segs, HandlerAt(nodes[r.node], verb).value)
                     && IsLeft(routes, i, segs, r.params)
  }

  lemma FindAnswers(nodes: seq<Node>, shapes: seq<seq<Key>>, parents: seq<nat>, routes: seq<Route>, segs: seq<string>,
                    verb: string)
    requires Shaped(nodes, shapes, parents) && Linked(nodes) && nodes != [] && |shapes| == |nodes| && shapes[0] == []
    requires Holds(nodes, shapes, routes) && AllThere(shapes, routes)
    requires Named(nodes, shapes, routes) && NoneToSpare(shapes, routes)
    ensures var r := Find(nodes, 0, segs, 0, verb, map[]);
            && Answers(nodes, routes, segs, verb, r)
            && (r.Hit? ==> exists j :: 0 <= j < |routes| && Eligible(routes[j], verb, segs))
  {
    hide Find, Shaped, Holds, AllThere, Named, NoneToSpare, Eligible, Linked, HandlerAt, NamesDiffer, Left, Bound,
         Keeps, Branching;
    var r := Find(nodes, 0, segs, 0, verb, map[]);
    FindIsBest(nodes, shapes, parents, 0, segs, 0, verb, map[]);
    forall j | 0 <= j < |routes| && Eligible(routes[j], verb, segs)
      ensures exists m: nat :: Reaches(nodes, shapes, 0, m, segs, 0, verb)
    {
      var m := EligibleReaches(nodes, shapes, routes, segs, verb, j);
    }
    if r.Hit? {
      var i := HandlerOfRoute(nodes, shapes, routes, segs, verb, r.node);
      BestNodeIsBestRoute(nodes, shapes, parents, routes, segs, verb, r.node, i);
      ChildIsCovered(nodes, shapes, parents, routes);
      FindLeaves(nodes, shapes, parents, routes, 0, segs, 0, verb);
      NothingYet(routes, segs);
      LeftIsBoundIff(routes, shapes[r.node], segs);
      if NamesDiffer(routes) {
        DifferentNamesSurvive(routes, shapes[r.node], segs);
      }
      assert IsLeft(routes, i, segs, r.params);
      assert IsAnswer(routes, i, verb, segs, HandlerAt(nodes[r.node], verb).value);
      assert Eligible(routes[i], verb, segs);
    }
  }

  lemma EligibleReaches(nodes: seq<Node>, shapes: seq<seq<Key>>, routes: seq<Route>, segs: seq<string>, verb: string,
                        j: nat) returns (m: nat)
    requires |nodes| == |shapes| > 0 && shapes[0] == [] && Holds(nodes, shapes, routes) && AllThere(shapes, routes)
    requires j < |routes| && Eligible(routes[j], verb, segs)
    ensures Reaches(nodes, shapes, 0, m, segs, 0, verb) && shapes[m] == Shape(routes[j].pattern)
    ensures routes[j].verb in nodes[m].handlers
  {
    hide LastHandler, MatchesFrom;
    assert HasNode(shapes, Shape(routes[j].pattern));
    m :| 0 <= m < |shapes| && shapes[m] == Shape(routes[j].pattern);
    assert Exactly(nodes[m], routes[j].verb) == LastHandler(routes, shapes[m], routes[j].verb);
    var i := LastHandlerIsLast(routes, shapes[m], routes[j].verb);
  }

  /** The route whose handler a node gives, the last one for its shape and verb. */
  lemma HandlerOfRoute(nodes: seq<Node>, shapes: seq<seq<Key>>, routes: seq<Route>, segs: seq<string>, verb: string,
                       m: nat) returns (i: nat)
    requires |nodes| == |shapes| > 0 && shapes[0] == [] && Holds(nodes, shapes, routes)
    requires Reaches(nodes, shapes, 0, m, segs, 0, verb)
    ensures i < |routes| && Eligible(routes[i], verb, segs) && Shape(routes[i].pattern) == shapes[m]
    ensures HandlerAt(nodes[m], verb) == Some(routes[i].handler)
    ensures verb in nodes[m].handlers ==> routes[i].verb == verb
    ensures forall j :: i < j < |routes| ==>
              !(Shape(routes[j].pattern) == shapes[m] && routes[j].verb == routes[i].verb)
  {
    hide LastHandler, MatchesFrom;
    var v := if verb in nodes[m].handlers then verb else ANY_VERB;
    assert Exactly(nodes[m], v) == LastHandler(routes, shapes[m], v);
    i := LastHandlerIsLast(routes, shapes[m], v);
  }

  lemma BestNodeIsBestRoute(nodes: seq<Node>, shapes: seq<seq<Key>>, parents: seq<nat>, routes: seq<Route>,
                            segs: seq<string>, verb: string, m: nat, i: nat)
    requires Shaped(nodes, shapes, parents) && |nodes| == |shapes| > 0 && shapes[0] == []
    requires Holds(nodes, shapes, routes) && AllThere(shapes, routes)
    requires m < |nodes|
    requires forall n: nat :: Reaches(nodes, shapes, 0, n, segs, 0, verb) ==> Before(shapes[m], shapes[n], 0)
    requires i < |routes| && Eligible(routes[i], verb, segs) && Shape(routes[i].pattern) == shapes[m]
    requires verb in nodes[m].handlers ==> routes[i].verb == verb
    requires forall j :: i < j < |routes| ==>
               !(Shape(routes[j].pattern) == shapes[m] && routes[j].verb == routes[i].verb)
    ensures IsBest(routes, i, verb, segs)
  {
    hide LastHandler, MatchesFrom, Holds, AllThere, Eligible, Before;
    forall j | 0 <= j < |routes| && Eligible(routes[j], verb, segs)
      ensures Preferred(routes, i, j, verb)
    {
      var n := EligibleReaches(nodes, shapes, routes, segs, verb, j);
      assert n < |nodes|;
      if shapes[n] == shapes[m] {
        assert n == m;
      }
    }
  }

  lemma NothingYet(routes: seq<Route>, segs: seq<string>)
    ensures Left(routes, [], segs, 0) == map[]
  {
  }

  /** The children are the ways on of the routes. */
  lemma ChildIsCovered(nodes: seq<Node>, shapes: seq<seq<Key>>, parents: seq<nat>, routes: seq<Route>)
    requires Shaped(nodes, shapes, parents) && AllThere(shapes, routes) && NoneToSpare(shapes, routes)
    ensures Linked(nodes) && |nodes| == |shapes| && Branching(nodes, shapes, routes)
  {
    hide Child, IsCovered, AllThere, Linked, IsParent;
    assert Linked(nodes) && |nodes| == |shapes|;
    forall n, key | 0 <= n < |nodes|
      ensures Child(nodes, n, key) < |nodes| <==> IsCovered(routes, shapes[n] + [key])
    {
      if Child(nodes, n, key) < |nodes| {
        ChildShape(nodes, shapes, parents, n, key);
      } else {
        NothingBelow(nodes, shapes, parents, n, key);
        NotCovered(nodes, shapes, parents, routes, shapes[n] + [key]);
      }
    }
  }

  // ─── One best route ────────────────────────────────────────────────────────

  lemma {:induction false} BeforeBothWays(p: seq<Key>, q: seq<Key>, segs: seq<string>, k: nat)
    requires k <= |p| && k <= |q| && p[..k] == q[..k] && k <= |segs|
    requires MatchesFrom(p, segs, k) && MatchesFrom(q, segs, k) && Before(p, q, k) && Before(q, p, k)
    ensures p == q
    decreases |segs| - k
  {
    if k < |segs| {
      assert p[k] == q[k];
      assert p[..k + 1] == p[..k] + [p[k]] && q[..k + 1] == q[..k] + [q[k]];
      if p[k] == Rest {
        assert p == p[..k + 1] && q == q[..k + 1];
      } else {
        BeforeBothWays(p, q, segs, k + 1);
      }
    } else {
      assert p == p[..k] && q == q[..k];
    }
  }

  /** The answer is determined by the list of routes. */
  lemma BestIsUnique(routes: seq<Route>, i: nat, j: nat, verb: string, segs: seq<string>)
    requires IsBest(routes, i, verb, segs) && IsBest(routes, j, verb, segs)
    ensures i == j
  {
    hide MatchesFrom, Before;
    assert Preferred(routes, i, j, verb) && Preferred(routes, j, i, verb);
    BeforeBothWays(Shape(routes[i].pattern), Shape(routes[j].pattern), segs, 0);
  }

  // ─── Repeated names ────────────────────────────────────────────────────────

  const GET := "GET"

  /** Two parameters called `a` and the text `x`; and a parameter `a` and the rest. */
  const REPEATED: seq<Route> := [
    Route(GET, [Param("a"), Param("a"), Static("x")], 0),
    Route(GET, [Param("a"), Wildcard], 1)]

  const REQUEST: seq<string> := ["1", "2", "y"]

  /** When a name is repeated along a path, erasing the inner parameter erases the outer one
    too: 1, 2, y is answered by the second route, but `a` is not bound any more. */
  lemma RepeatedNameIsLost()
    ensures IsBest(REPEATED, 1, GET, REQUEST)
    ensures !Keeps(REPEATED, Shape(REPEATED[1].pattern), REQUEST)
    ensures Bound(REPEATED, Shape(REPEATED[1].pattern), REQUEST, 2) == map["a" := "1"]
    ensures Left(REPEATED, Shape(REPEATED[1].pattern), REQUEST, 2) == map[]
  {
    hide Erased, TriedBelow, Keeps;
    var p, q := Shape(REPEATED[0].pattern), Shape(REPEATED[1].pattern);
    assert p == [Any, Any, Text("x")] && q == [Any, Rest];
    assert !MatchesFrom(p, REQUEST, 2);
    assert MatchesFrom(q, REQUEST, 1);
    assert p[..1] == [Any] && p[..2] == [Any, Any] && q[..1] == [Any];
    assert FirstName(REPEATED, [Any]) == "a" && FirstName(REPEATED, [Any, Any]) == "a";
    assert Bound(REPEATED, q, REQUEST, 1) == map["a" := "1"];
    RepeatedIsTried();
    assert Left(REPEATED, q, REQUEST, 1) == map["a" := "1"] by {
      assert Left(REPEATED, q, REQUEST, 0) == map[];
    }
    LeftIsBoundIff(REPEATED, q, REQUEST);
  }

  lemma RepeatedIsTried()
    ensures "a" in Erased(REPEATED, [Any, Rest], REQUEST, 1)
  {
    var p := Shape(REPEATED[0].pattern);
    assert p == [Any, Any, Text("x")];
    assert p[..2] == [Any, Any] && [Any, Rest][..1] == [Any];
    assert FirstName(REPEATED, [Any, Any]) == "a";
    assert Tried(REPEATED, [Any], REQUEST, 0, 2);
  }

  /** The router itself loses it. */
  method RepeatedInRouter() returns (answer: Answer)
    ensures answer == Found(1, map[])
  {
    hide Eligible, Left, Keeps, Binds, NamesDiffer;
    var router := new Router();
    router.Add(REPEATED[0].verb, REPEATED[0].pattern, REPEATED[0].handler);
    router.Add(REPEATED[1].verb, REPEATED[1].pattern, REPEATED[1].handler);
    assert router.routes == REPEATED;
    answer := router.Match(GET, REQUEST);
    RepeatedNameIsLost();
    assert Eligible(REPEATED[1], GET, REQUEST);
    ghost var i: nat :| IsAnswer(REPEATED, i, GET, REQUEST, answer.handler)
                      && IsLeft(REPEATED, i, REQUEST, answer.params);
    BestIsUnique(REPEATED, i, 1, GET, REQUEST);
  }
}
