/** The route trie: nodes that are added along a pattern, and a search that backtracks. */
module Trie {
  import opened Wrappers
  import opened Routes

  datatype Node = Node(key: Key, name: string, handlers: map<string, Handler>, children: seq<nat>)

  /** Where the search ended, and the bindings it leaves behind. */
  datatype Search = Miss(params: map<string, string>) | Hit(node: nat, params: map<string, string>)

  // ─── Well-formed tries ─────────────────────────────────────────────────────

  /** Children point forward. */
  predicate Linked(nodes: seq<Node>) {
    && nodes != []
    && forall n, i :: 0 <= n < |nodes| && 0 <= i < |nodes[n].children| ==> n < nodes[n].children[i] < |nodes|
  }

  /** The first child with a key, or the number of nodes. */
  function ChildFrom(nodes: seq<Node>, children: seq<nat>, key: Key): (c: nat)
    requires forall i :: 0 <= i < |children| ==> children[i] < |nodes|
    ensures c <= |nodes| && (c < |nodes| ==> c in children && nodes[c].key == key)
    ensures c == |nodes| ==> forall i :: 0 <= i < |children| ==> nodes[children[i]].key != key
  {
    if children == [] then |nodes|
    else if nodes[children[0]].key == key then children[0]
    else ChildFrom(nodes, children[1..], key)
  }

  function Child(nodes: seq<Node>, n: nat, key: Key): (c: nat)
    requires Linked(nodes) && n < |nodes|
    ensures c <= |nodes| && (c < |nodes| ==> n < c && c in nodes[n].children && nodes[c].key == key)
  {
    ChildFrom(nodes, nodes[n].children, key)
  }

  /** The handler for a verb at a node, or the one for any verb. */
  function HandlerAt(node: Node, verb: string): Option<Handler> {
    if verb in node.handlers then Some(node.handlers[verb])
    else if ANY_VERB in node.handlers then Some(node.handlers[ANY_VERB])
    else None
  }

  // ─── The search ────────────────────────────────────────────────────────────

  function Find(nodes: seq<Node>, n: nat, segs: seq<string>, k: nat, verb: string,
                params: map<string, string>): (r: Search)
    requires Linked(nodes) && n < |nodes| && k <= |segs|
    ensures r.Hit? ==> r.node < |nodes| && HandlerAt(nodes[r.node], verb).Some?
    decreases |segs| - k
  {
    if k == |segs| then
      if HandlerAt(nodes[n], verb).Some? then Hit(n, params) else Miss(params)
    else
      var r := FindChild(nodes, Child(nodes, n, Text(segs[k])), segs, k, verb, params);
      if r.Hit? then r
      else
        var p := FindParam(nodes, Child(nodes, n, Any), segs, k, verb, r.params);
        if p.Hit? then p else FindRest(nodes, Child(nodes, n, Rest), verb, p.params)
  }

  function FindChild(nodes: seq<Node>, c: nat, segs: seq<string>, k: nat, verb: string,
                     params: map<string, string>): (r: Search)
    requires Linked(nodes) && k < |segs|
    ensures r.Hit? ==> r.node < |nodes| && HandlerAt(nodes[r.node], verb).Some?
    decreases |segs| - k, 0
  {
    if c < |nodes| then Find(nodes, c, segs, k + 1, verb, params) else Miss(params)
  }

  /** The parameter is bound while its branch is searched, and erased when that fails. */
  function FindParam(nodes: seq<Node>, c: nat, segs: seq<string>, k: nat, verb: string,
                     params: map<string, string>): (r: Search)
    requires Linked(nodes) && k < |segs|
    ensures r.Hit? ==> r.node < |nodes| && HandlerAt(nodes[r.node], verb).Some?
    decreases |segs| - k, 0
  {
    if c >= |nodes| then Miss(params)
    else
      var r := Find(nodes, c, segs, k + 1, verb, params[nodes[c].name := segs[k]]);
      if r.Hit? then r else Miss(r.params - {nodes[c].name})
  }

  function FindRest(nodes: seq<Node>, c: nat, verb: string, params: map<string, string>): (r: Search)
    ensures r.Hit? ==> r.node < |nodes| && HandlerAt(nodes[r.node], verb).Some?
  {
    if c < |nodes| && HandlerAt(nodes[c], verb).Some? then Hit(c, params) else Miss(params)
  }

  // ─── What the nodes stand for ──────────────────────────────────────────────

  /** The shape of each node and its parent, which the program does not keep. */
  ghost predicate Shaped(nodes: seq<Node>, shapes: seq<seq<Key>>, parents: seq<nat>) {
    && Linked(nodes) && |shapes| == |nodes| == |parents| && shapes[0] == []
    && (forall n, i :: 0 <= n < |nodes| && 0 <= i < |nodes[n].children| ==>
          shapes[nodes[n].children[i]] == shapes[n] + [nodes[nodes[n].children[i]].key])
    && (forall c :: 0 < c < |nodes| ==> IsParent(nodes, shapes, parents, c))
    && (forall m, n :: 0 <= m < n < |nodes| ==> shapes[m] != shapes[n])
  }

  ghost predicate IsParent(nodes: seq<Node>, shapes: seq<seq<Key>>, parents: seq<nat>, c: nat)
    requires c < |nodes| && |shapes| == |nodes| == |parents|
  {
    && parents[c] < c && c in nodes[parents[c]].children
    && shapes[c] != [] && shapes[parents[c]] == shapes[c][..|shapes[c]| - 1]
  }

  /** Every prefix of the shape of a node has a node. */
  lemma {:induction false} PrefixHasNode(nodes: seq<Node>, shapes: seq<seq<Key>>, parents: seq<nat>, m: nat, k: nat)
    returns (a: nat)
    requires Shaped(nodes, shapes, parents) && m < |nodes| && k <= |shapes[m]|
    ensures a < |nodes| && shapes[a] == shapes[m][..k]
    decreases m
  {
    if k == |shapes[m]| {
      a := m;
    } else {
      assert m > 0;
      assert IsParent(nodes, shapes, parents, m);
      a := PrefixHasNode(nodes, shapes, parents, parents[m], k);
      assert shapes[m][..|shapes[m]| - 1][..k] == shapes[m][..k];
    }
  }

  /** A node below another is below, or is, the child with the next key. */
  lemma NextNode(nodes: seq<Node>, shapes: seq<seq<Key>>, parents: seq<nat>, n: nat, m: nat)
    requires Shaped(nodes, shapes, parents) && n < |nodes| && m < |nodes|
    requires shapes[n] <= shapes[m] && |shapes[n]| < |shapes[m]|
    ensures var c := Child(nodes, n, shapes[m][|shapes[n]|]);
            c < |nodes| && shapes[c] == shapes[m][..|shapes[n]| + 1]
  {
    var k := |shapes[n]|;
    var a := PrefixHasNode(nodes, shapes, parents, m, k + 1);
    assert a > 0 && IsParent(nodes, shapes, parents, a);
    var p := parents[a];
    assert shapes[p] == shapes[n];
    assert p == n;
    var key := shapes[m][k];
    var i :| 0 <= i < |nodes[n].children| && nodes[n].children[i] == a;
    assert nodes[a].key == key by { assert shapes[a] == shapes[n] + [nodes[a].key]; }
    var c := Child(nodes, n, key);
    assert c < |nodes|;
    ChildShape(nodes, shapes, parents, n, key);
  }

  lemma ChildShape(nodes: seq<Node>, shapes: seq<seq<Key>>, parents: seq<nat>, n: nat, key: Key)
    requires Shaped(nodes, shapes, parents) && n < |nodes| && Child(nodes, n, key) < |nodes|
    ensures shapes[Child(nodes, n, key)] == shapes[n] + [key]
  {
    var c := Child(nodes, n, key);
    var i :| 0 <= i < |nodes[n].children| && nodes[n].children[i] == c;
  }

  // ─── The search finds the best node ────────────────────────────────────────

  /** Node `m` is below `n`, matches the segments from `k` on, and has a handler. */
  ghost predicate Reaches(nodes: seq<Node>, shapes: seq<seq<Key>>, n: nat, m: nat, segs: seq<string>, k: nat,
                          verb: string)
    requires |nodes| == |shapes| && n < |nodes|
  {
    m < |nodes| && shapes[n] <= shapes[m] && MatchesFrom(shapes[m], segs, k) && HandlerAt(nodes[m], verb).Some?
  }

  /** The three ways to go on. */
  lemma ReachStep(nodes: seq<Node>, shapes: seq<seq<Key>>, parents: seq<nat>, n: nat, m: nat, segs: seq<string>, k: nat,
                  verb: string)
    requires Shaped(nodes, shapes, parents) && n < |nodes| && k == |shapes[n]| < |segs|
    requires Reaches(nodes, shapes, n, m, segs, k, verb)
    ensures k < |shapes[m]|
    ensures var c := Child(nodes, n, shapes[m][k]);
            && c < |nodes| && (shapes[m][k] == Rest || shapes[m][k] == Any || shapes[m][k] == Text(segs[k]))
            && (shapes[m][k] == Rest ==> m == c)
            && (shapes[m][k] != Rest ==> Reaches(nodes, shapes, c, m, segs, k + 1, verb))
  {
    hide HandlerAt;
    NextNode(nodes, shapes, parents, n, m);
    var c := Child(nodes, n, shapes[m][k]);
    if shapes[m][k] == Rest {
      assert shapes[c] == shapes[m];
    }
  }

  lemma ReachBack(nodes: seq<Node>, shapes: seq<seq<Key>>, parents: seq<nat>, n: nat, key: Key, m: nat,
                  segs: seq<string>, k: nat, verb: string)
    requires Shaped(nodes, shapes, parents) && n < |nodes| && k == |shapes[n]| < |segs|
    requires key == Any || key == Text(segs[k])
    requires Child(nodes, n, key) < |nodes| && Reaches(nodes, shapes, Child(nodes, n, key), m, segs, k + 1, verb)
    ensures Reaches(nodes, shapes, n, m, segs, k, verb) && shapes[m][k] == key
  {
    hide HandlerAt;
    ChildShape(nodes, shapes, parents, n, key);
  }

  lemma RestReaches(nodes: seq<Node>, shapes: seq<seq<Key>>, parents: seq<nat>, n: nat, segs: seq<string>, k: nat,
                    verb: string)
    requires Shaped(nodes, shapes, parents) && n < |nodes| && k == |shapes[n]| < |segs|
    requires Child(nodes, n, Rest) < |nodes| && HandlerAt(nodes[Child(nodes, n, Rest)], verb).Some?
    ensures Reaches(nodes, shapes, n, Child(nodes, n, Rest), segs, k, verb)
    ensures shapes[Child(nodes, n, Rest)] == shapes[n] + [Rest]
  {
    hide HandlerAt;
    ChildShape(nodes, shapes, parents, n, Rest);
  }

  ghost predicate FindsBest(nodes: seq<Node>, shapes: seq<seq<Key>>, n: nat, segs: seq<string>, k: nat, verb: string,
                            r: Search)
    requires |nodes| == |shapes| && n < |nodes|
  {
    if r.Miss? then forall m: nat :: !Reaches(nodes, shapes, n, m, segs, k, verb)
    else
      && Reaches(nodes, shapes, n, r.node, segs, k, verb)
      && forall m: nat :: Reaches(nodes, shapes, n, m, segs, k, verb) ==> Before(shapes[r.node], shapes[m], k)
  }

  /** The best of a branch is the best of all when the earlier branches have none. */
  lemma BestOfText(nodes: seq<Node>, shapes: seq<seq<Key>>, parents: seq<nat>, n: nat, segs: seq<string>, k: nat,
                   verb: string, r: Search)
    requires Shaped(nodes, shapes, parents) && n < |nodes| && k == |shapes[n]| < |segs| && r.Hit?
    requires Child(nodes, n, Text(segs[k])) < |nodes|
    requires FindsBest(nodes, shapes, Child(nodes, n, Text(segs[k])), segs, k + 1, verb, r)
    ensures FindsBest(nodes, shapes, n, segs, k, verb, r)
  {
    hide HandlerAt, Child, MatchesFrom;
    assert Linked(nodes) && |shapes| == |nodes|;
    ReachBack(nodes, shapes, parents, n, Text(segs[k]), r.node, segs, k, verb);
    forall m: nat | Reaches(nodes, shapes, n, m, segs, k, verb)
      ensures Before(shapes[r.node], shapes[m], k)
    {
      ReachStep(nodes, shapes, parents, n, m, segs, k, verb);
    }
  }

  ghost predicate NoneIn(nodes: seq<Node>, shapes: seq<seq<Key>>, c: nat, segs: seq<string>, k: nat, verb: string)
    requires |nodes| == |shapes|
  {
    c < |nodes| ==> forall m: nat :: !Reaches(nodes, shapes, c, m, segs, k, verb)
  }

  lemma BestOfParam(nodes: seq<Node>, shapes: seq<seq<Key>>, parents: seq<nat>, n: nat, segs: seq<string>, k: nat,
                    verb: string, r: Search)
    requires Shaped(nodes, shapes, parents) && n < |nodes| && k == |shapes[n]| < |segs| && r.Hit?
    requires NoneIn(nodes, shapes, Child(nodes, n, Text(segs[k])), segs, k + 1, verb)
    requires Child(nodes, n, Any) < |nodes| && FindsBest(nodes, shapes, Child(nodes, n, Any), segs, k + 1, verb, r)
    ensures FindsBest(nodes, shapes, n, segs, k, verb, r)
  {
    hide HandlerAt, Child, MatchesFrom;
    assert Linked(nodes) && |shapes| == |nodes|;
    ReachBack(nodes, shapes, parents, n, Any, r.node, segs, k, verb);
    forall m: nat | Reaches(nodes, shapes, n, m, segs, k, verb)
      ensures Before(shapes[r.node], shapes[m], k)
    {
      ReachStep(nodes, shapes, parents, n, m, segs, k, verb);
    }
  }

  lemma BestOfRest(nodes: seq<Node>, shapes: seq<seq<Key>>, parents: seq<nat>, n: nat, segs: seq<string>, k: nat,
                   verb: string, params: map<string, string>)
    requires Shaped(nodes, shapes, parents) && n < |nodes| && k == |shapes[n]| < |segs|
    requires NoneIn(nodes, shapes, Child(nodes, n, Text(segs[k])), segs, k + 1, verb)
    requires NoneIn(nodes, shapes, Child(nodes, n, Any), segs, k + 1, verb)
    ensures FindsBest(nodes, shapes, n, segs, k, verb, FindRest(nodes, Child(nodes, n, Rest), verb, params))
  {
    hide HandlerAt, Child, MatchesFrom;
    assert Linked(nodes) && |shapes| == |nodes|;
    var c := Child(nodes, n, Rest);
    if c < |nodes| && HandlerAt(nodes[c], verb).Some? {
      RestReaches(nodes, shapes, parents, n, segs, k, verb);
      assert Before(shapes[c], shapes[c], k + 1);
    }
    forall m: nat | Reaches(nodes, shapes, n, m, segs, k, verb)
      ensures m == c < |nodes| && HandlerAt(nodes[c], verb).Some?
    {
      ReachStep(nodes, shapes, parents, n, m, segs, k, verb);
    }
  }

  lemma MissIsNone(nodes: seq<Node>, shapes: seq<seq<Key>>, c: nat, segs: seq<string>, k: nat, verb: string, r: Search)
    requires |nodes| == |shapes| && r.Miss?
    requires c < |nodes| ==> FindsBest(nodes, shapes, c, segs, k, verb, r)
    ensures NoneIn(nodes, shapes, c, segs, k, verb)
  {
    hide Reaches;
  }

  /** The search finds a node whenever one matches, and the first of them in the order of
    text, parameters and wildcards. */
  lemma {:induction false} FindIsBest(nodes: seq<Node>, shapes: seq<seq<Key>>, parents: seq<nat>, n: nat,
                                      segs: seq<string>, k: nat, verb: string, params: map<string, string>)
    requires Shaped(nodes, shapes, parents) && n < |nodes| && k == |shapes[n]| <= |segs|
    ensures FindsBest(nodes, shapes, n, segs, k, verb, Find(nodes, n, segs, k, verb, params))
    decreases |segs| - k, 1
  {
    hide Child, Find, FindChild, FindParam, FindRest, FindsBest, HandlerAt, IsParent, Linked, NoneIn;
    if k == |segs| {
      AtTheEnd(nodes, shapes, parents, n, segs, verb, params);
    } else {
      assert Linked(nodes) && |shapes| == |nodes|;
      var a, b := Child(nodes, n, Text(segs[k])), Child(nodes, n, Any);
      var ra := FindChild(nodes, a, segs, k, verb, params);
      var rb := FindParam(nodes, b, segs, k, verb, ra.params);
      TextIsBest(nodes, shapes, parents, n, segs, k, verb, params);
      ParamIsBest(nodes, shapes, parents, n, segs, k, verb, ra.params);
      FindIsOne(nodes, n, segs, k, verb, params);
      if ra.Hit? {
        BestOfText(nodes, shapes, parents, n, segs, k, verb, ra);
      } else if rb.Hit? {
        BestOfParam(nodes, shapes, parents, n, segs, k, verb, rb);
      } else {
        BestOfRest(nodes, shapes, parents, n, segs, k, verb, rb.params);
      }
    }
  }

  lemma {:induction false} TextIsBest(nodes: seq<Node>, shapes: seq<seq<Key>>, parents: seq<nat>, n: nat,
                                      segs: seq<string>, k: nat, verb: string, params: map<string, string>)
    requires Shaped(nodes, shapes, parents) && n < |nodes| && k == |shapes[n]| < |segs|
    ensures var c := Child(nodes, n, Text(segs[k]));
            var r := FindChild(nodes, c, segs, k, verb, params);
            && (r.Miss? ==> NoneIn(nodes, shapes, c, segs, k + 1, verb))
            && (r.Hit? ==> c < |nodes| && FindsBest(nodes, shapes, c, segs, k + 1, verb, r))
    decreases |segs| - k, 0
  {
    hide Child, Find, FindsBest, HandlerAt, IsParent, Linked, Reaches;
    assert Linked(nodes) && |shapes| == |nodes|;
    var c := Child(nodes, n, Text(segs[k]));
    var r := FindChild(nodes, c, segs, k, verb, params);
    if c < |nodes| {
      ChildShape(nodes, shapes, parents, n, Text(segs[k]));
      FindIsBest(nodes, shapes, parents, c, segs, k + 1, verb, params);
      if r.Miss? {
        MissIsNone(nodes, shapes, c, segs, k + 1, verb, r);
      }
    }
  }

  lemma {:induction false} ParamIsBest(nodes: seq<Node>, shapes: seq<seq<Key>>, parents: seq<nat>, n: nat,
                                       segs: seq<string>, k: nat, verb: string, params: map<string, string>)
    requires Shaped(nodes, shapes, parents) && n < |nodes| && k == |shapes[n]| < |segs|
    ensures var c := Child(nodes, n, Any);
            var r := FindParam(nodes, c, segs, k, verb, params);
            && (r.Miss? ==> NoneIn(nodes, shapes, c, segs, k + 1, verb))
            && (r.Hit? ==> c < |nodes| && FindsBest(nodes, shapes, c, segs, k + 1, verb, r))
    decreases |segs| - k, 0
  {
    hide Child, Find, FindsBest, HandlerAt, IsParent, Linked, Reaches;
    assert Linked(nodes) && |shapes| == |nodes|;
    var c := Child(nodes, n, Any);
    if c < |nodes| {
      var params1 := params[nodes[c].name := segs[k]];
      var r := Find(nodes, c, segs, k + 1, verb, params1);
      ChildShape(nodes, shapes, parents, n, Any);
      FindIsBest(nodes, shapes, parents, c, segs, k + 1, verb, params1);
      if r.Miss? {
        MissIsNone(nodes, shapes, c, segs, k + 1, verb, r);
      }
    }
  }

  lemma AtTheEnd(nodes: seq<Node>, shapes: seq<seq<Key>>, parents: seq<nat>, n: nat, segs: seq<string>, verb: string,
                 params: map<string, string>)
    requires Shaped(nodes, shapes, parents) && n < |nodes| && |shapes[n]| == |segs|
    ensures FindsBest(nodes, shapes, n, segs, |segs|, verb, Find(nodes, n, segs, |segs|, verb, params))
  {
    hide HandlerAt;
    forall m: nat | Reaches(nodes, shapes, n, m, segs, |segs|, verb)
      ensures m == n
    {
      assert shapes[m] == shapes[n];
    }
  }

  /** The branches of a search, in order. */
  lemma FindIsOne(nodes: seq<Node>, n: nat, segs: seq<string>, k: nat, verb: string, params: map<string, string>)
    requires Linked(nodes) && n < |nodes| && k < |segs|
    ensures var ra := FindChild(nodes, Child(nodes, n, Text(segs[k])), segs, k, verb, params);
            var rb := FindParam(nodes, Child(nodes, n, Any), segs, k, verb, ra.params);
            Find(nodes, n, segs, k, verb, params)
            == if ra.Hit? then ra else if rb.Hit? then rb else FindRest(nodes, Child(nodes, n, Rest), verb, rb.params)
  {
    hide FindChild, FindParam, FindRest, Child;
  }

  // ─── Bindings ──────────────────────────────────────────────────────────────

  /** Parameter nodes have the name that was registered first. */
  ghost predicate Named(nodes: seq<Node>, shapes: seq<seq<Key>>, routes: seq<Route>)
    requires |nodes| == |shapes|
  {
    forall c :: 0 <= c < |nodes| && shapes[c] != [] ==> NamedAt(nodes, shapes, routes, c)
  }

  ghost predicate NamedAt(nodes: seq<Node>, shapes: seq<seq<Key>>, routes: seq<Route>, c: nat)
    requires c < |nodes| == |shapes| && shapes[c] != []
  {
    nodes[c].key == Any ==> nodes[c].name == FirstName(routes, shapes[c])
  }

  /** There is a child exactly where a route goes on. */
  ghost predicate Branching(nodes: seq<Node>, shapes: seq<seq<Key>>, routes: seq<Route>)
    requires Linked(nodes) && |nodes| == |shapes|
  {
    forall n, key :: 0 <= n < |nodes| ==> (Child(nodes, n, key) < |nodes| <==> IsCovered(routes, shapes[n] + [key]))
  }

  ghost predicate Bindable(nodes: seq<Node>, shapes: seq<seq<Key>>, parents: seq<nat>, routes: seq<Route>) {
    Shaped(nodes, shapes, parents) && Named(nodes, shapes, routes) && Branching(nodes, shapes, routes)
  }

  lemma {:induction false} LeftPrefix(routes: seq<Route>, p: seq<Key>, q: seq<Key>, segs: seq<string>, k: nat)
    requires k <= |p| && k <= |q| && k <= |segs| && p[..k] == q[..k]
    ensures Left(routes, p, segs, k) == Left(routes, q, segs, k)
  {
    hide FirstName, TriedBelow;
    if k > 0 {
      assert p[..k][..k - 1] == p[..k - 1] && q[..k][..k - 1] == q[..k - 1];
      assert p[..k][k - 1] == p[k - 1] && q[..k][k - 1] == q[k - 1];
      LeftPrefix(routes, p, q, segs, k - 1);
    }
  }

  /** What is left one segment further down. */
  lemma LeftAtChild(nodes: seq<Node>, shapes: seq<seq<Key>>, parents: seq<nat>, routes: seq<Route>, n: nat, key: Key,
                    segs: seq<string>)
    requires Bindable(nodes, shapes, parents, routes) && n < |nodes| && |shapes[n]| < |segs|
    requires Child(nodes, n, key) < |nodes|
    ensures var c, k := Child(nodes, n, key), |shapes[n]|;
            var left := Left(routes, shapes[n], segs, k);
            && |shapes[c]| == k + 1 && shapes[c] == shapes[n] + [key]
            && (key.Text? ==> Left(routes, shapes[c], segs, k + 1) == left)
            && (key == Any ==> FirstName(routes, shapes[n] + [Any]) == nodes[c].name)
            && (key == Any ==> Left(routes, shapes[c], segs, k + 1)
                               == (left - TriedBelow(routes, shapes[n] + [Text(segs[k])], segs))
                                   [nodes[c].name := segs[k]])
            && (key == Rest ==> Left(routes, shapes[c], segs, k + 1) == left - TriedBelow(routes, shapes[n], segs))
  {
    hide FirstName, TriedBelow, Branching, Left;
    ChildShape(nodes, shapes, parents, n, key);
    var c, k := Child(nodes, n, key), |shapes[n]|;
    var p := shapes[c];
    assert p[..k] == shapes[n] && p[..k + 1] == p && p[k] == key;
    assert NamedAt(nodes, shapes, routes, c);
    LeftPrefix(routes, p, shapes[n], segs, k);
    LeftStep(routes, p, segs, k);
  }

  lemma LeftStep(routes: seq<Route>, p: seq<Key>, segs: seq<string>, k: nat)
    requires k < |p| && k < |segs|
    ensures var left := Left(routes, p, segs, k) - Erased(routes, p, segs, k);
            Left(routes, p, segs, k + 1) == if p[k] == Any then left[FirstName(routes, p[..k + 1]) := segs[k]] else left
    ensures Erased(routes, p, segs, k)
            == match p[k]
               case Text(_) => {}
               case Any => TriedBelow(routes, p[..k] + [Text(segs[k])], segs)
               case Rest => TriedBelow(routes, p[..k], segs)
  {
  }

  /** A search from node `n` leaves what is left at the node it ends in, or, when it fails,
    what was there but for the names that it tried. */
  ghost predicate Leaves(shapes: seq<seq<Key>>, routes: seq<Route>, segs: seq<string>, tried: set<string>,
                         params: map<string, string>, r: Search) {
    if r.Miss? then r.params == params - tried
    else
      && r.node < |shapes| && |shapes[r.node]| <= |segs|
      && r.params == Left(routes, shapes[r.node], segs, |shapes[r.node]|)
  }

  /** The three branches together try what is tried below the node. */
  lemma BranchesTry(nodes: seq<Node>, shapes: seq<seq<Key>>, parents: seq<nat>, routes: seq<Route>, n: nat,
                    segs: seq<string>)
    requires Bindable(nodes, shapes, parents, routes) && n < |nodes| && |shapes[n]| < |segs|
    ensures var t, p := shapes[n] + [Text(segs[|shapes[n]|])], shapes[n] + [Any];
            var a, b := Child(nodes, n, t[|shapes[n]|]), Child(nodes, n, Any);
            && (a == |nodes| ==> TriedBelow(routes, t, segs) == {})
            && TriedBelow(routes, shapes[n], segs)
               == TriedBelow(routes, t, segs)
                  + if b < |nodes| then TriedBelow(routes, p, segs) + {FirstName(routes, p)} else {}
  {
    hide FirstName, TriedBelow, Child, IsCovered, Named;
    assert Linked(nodes);
    var t, p := shapes[n] + [Text(segs[|shapes[n]|])], shapes[n] + [Any];
    TriedIsOne(routes, shapes[n], segs);
    if Child(nodes, n, t[|shapes[n]|]) == |nodes| {
      NothingTried(routes, t, segs);
    }
    if Child(nodes, n, Any) == |nodes| {
      NothingTried(routes, p, segs);
    }
  }

  /** However much the search backtracks, exactly that is left at the node it ends in. */
  lemma {:induction false} FindLeaves(nodes: seq<Node>, shapes: seq<seq<Key>>, parents: seq<nat>, routes: seq<Route>,
                                      n: nat, segs: seq<string>, k: nat, verb: string)
    requires Bindable(nodes, shapes, parents, routes) && n < |nodes| && k == |shapes[n]| <= |segs|
    ensures var params := Left(routes, shapes[n], segs, k);
            Leaves(shapes, routes, segs, TriedBelow(routes, shapes[n], segs), params,
                   Find(nodes, n, segs, k, verb, params))
    decreases |segs| - k, 1
  {
    hide Left, Child, HandlerAt, IsParent, Linked, Named, Branching, TriedBelow, FirstName, FindChild, FindParam;
    var params := Left(routes, shapes[n], segs, k);
    assert Linked(nodes) && |shapes| == |nodes| && Shaped(nodes, shapes, parents);
    if k == |segs| {
      NothingTried(routes, shapes[n], segs);
    } else {
      var a, b, c := Child(nodes, n, Text(segs[k])), Child(nodes, n, Any), Child(nodes, n, Rest);
      hide Find;
      TextLeaves(nodes, shapes, parents, routes, n, segs, k, verb);
      FindIsOne(nodes, n, segs, k, verb, params);
      var ra := FindChild(nodes, a, segs, k, verb, params);
      if ra.Miss? {
        ParamLeaves(nodes, shapes, parents, routes, n, segs, k, verb, ra.params);
        if FindParam(nodes, b, segs, k, verb, ra.params).Miss? && c < |nodes| {
          LeftAtChild(nodes, shapes, parents, routes, n, Rest, segs);
        }
      }
    }
  }

  lemma {:induction false} TextLeaves(nodes: seq<Node>, shapes: seq<seq<Key>>, parents: seq<nat>, routes: seq<Route>,
                                      n: nat, segs: seq<string>, k: nat, verb: string)
    requires Bindable(nodes, shapes, parents, routes) && n < |nodes| && k == |shapes[n]| < |segs|
    ensures var params := Left(routes, shapes[n], segs, k);
            Leaves(shapes, routes, segs, TriedBelow(routes, shapes[n] + [Text(segs[k])], segs), params,
                   FindChild(nodes, Child(nodes, n, Text(segs[k])), segs, k, verb, params))
    decreases |segs| - k, 0
  {
    hide Left, Child, HandlerAt, Shaped, Named, Branching, TriedBelow, FirstName, Find;
    assert Linked(nodes) && |shapes| == |nodes| by { IsLinked(nodes, shapes, parents); }
    BranchesTry(nodes, shapes, parents, routes, n, segs);
    var a := Child(nodes, n, Text(segs[k]));
    if a < |nodes| {
      LeftAtChild(nodes, shapes, parents, routes, n, Text(segs[k]), segs);
      FindLeaves(nodes, shapes, parents, routes, a, segs, k + 1, verb);
    }
  }

  lemma {:induction false} ParamLeaves(nodes: seq<Node>, shapes: seq<seq<Key>>, parents: seq<nat>, routes: seq<Route>,
                                       n: nat, segs: seq<string>, k: nat, verb: string, params: map<string, string>)
    requires Bindable(nodes, shapes, parents, routes) && n < |nodes| && k == |shapes[n]| < |segs|
    requires params == Left(routes, shapes[n], segs, k) - TriedBelow(routes, shapes[n] + [Text(segs[k])], segs)
    ensures Leaves(shapes, routes, segs, TriedBelow(routes, shapes[n], segs), Left(routes, shapes[n], segs, k),
                   FindParam(nodes, Child(nodes, n, Any), segs, k, verb, params))
    decreases |segs| - k, 0
  {
    hide Left, Child, HandlerAt, Shaped, Named, Branching, TriedBelow, FirstName, Find;
    assert Linked(nodes) && |shapes| == |nodes| by { IsLinked(nodes, shapes, parents); }
    BranchesTry(nodes, shapes, parents, routes, n, segs);
    var b := Child(nodes, n, Any);
    if b < |nodes| {
      var byText := TriedBelow(routes, shapes[n] + [Text(segs[k])], segs);
      LeftAtChild(nodes, shapes, parents, routes, n, Any, segs);
      FindLeaves(nodes, shapes, parents, routes, b, segs, k + 1, verb);
      TakenAway(Left(routes, shapes[n], segs, k), byText, nodes[b].name, segs[k],
                TriedBelow(routes, shapes[n] + [Any], segs));
    }
  }

  lemma IsLinked(nodes: seq<Node>, shapes: seq<seq<Key>>, parents: seq<nat>)
    requires Shaped(nodes, shapes, parents)
    ensures Linked(nodes) && |shapes| == |nodes|
  {
  }

  lemma TakenAway(params: map<string, string>, before: set<string>, name: string, value: string, below: set<string>)
    ensures ((params - before)[name := value] - below) - {name} == params - (before + (below + {name}))
  {
  }
}
