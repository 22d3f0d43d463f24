/** The names that loops leave behind, and where expressions compile because of them. */
module TemplateNames {
  import opened Template
  import opened TemplateRun
  import opened TemplateReading
  import opened TemplatePass

  // ─── What loops leave behind ───────────────────────────────────────────────

  /** The variables of the loops of a block, in order. */
  function LoopVars(b: Block): seq<string> {
    match b
    case Nothing => []
    case Then(before, item) => LoopVars(before) + ItemLoopVars(item)
  }

  function ItemLoopVars(item: Item): seq<string> {
    match item
    case If(closed, _, body) => ChainLoopVars(closed) + LoopVars(body)
    case IfElse(closed, other) => ChainLoopVars(closed) + LoopVars(other)
    case For(name, _, body) => [name] + LoopVars(body)
    case _ => []
  }

  function ChainLoopVars(ch: Chain): seq<string> {
    match ch
    case NoBranch => []
    case Branch(before, _, body) => ChainLoopVars(before) + LoopVars(body)
  }

  /** Each variable, and the progress of its loop. */
  function Pairs(vars: seq<string>): (r: seq<Name>)
    ensures |r| == 2 * |vars|
  {
    if vars == [] then [] else [Visible(vars[0]), Visible(LOOP)] + Pairs(vars[1..])
  }

  lemma {:induction false} PairsJoin(a: seq<string>, b: seq<string>)
    ensures Pairs(a + b) == Pairs(a) + Pairs(b)
  {
    if a == [] {
      assert a + b == b;
    } else {
      assert (a + b)[1..] == a[1..] + b;
      PairsJoin(a[1..], b);
    }
  }

  /** A block leaves behind the names of its loops, and no others. */
  lemma {:induction false} ExtraIsPairs(b: Block)
    ensures Extra(b) == Pairs(LoopVars(b))
  {
    match b
    case Nothing =>
    case Then(before, item) =>
      ExtraIsPairs(before);
      ItemExtraIsPairs(item);
      PairsJoin(LoopVars(before), ItemLoopVars(item));
  }

  lemma {:induction false} ItemExtraIsPairs(item: Item)
    ensures ItemExtra(item) == Pairs(ItemLoopVars(item))
  {
    match item
    case If(closed, _, body) =>
      ChainExtraIsPairs(closed);
      ExtraIsPairs(body);
      PairsJoin(ChainLoopVars(closed), LoopVars(body));
    case IfElse(closed, other) =>
      ChainExtraIsPairs(closed);
      ExtraIsPairs(other);
      PairsJoin(ChainLoopVars(closed), LoopVars(other));
    case For(name, _, body) =>
      ExtraIsPairs(body);
      PairsJoin([name], LoopVars(body));
    case _ =>
  }

  lemma {:induction false} ChainExtraIsPairs(ch: Chain)
    ensures ChainExtra(ch) == Pairs(ChainLoopVars(ch))
  {
    match ch
    case NoBranch =>
    case Branch(before, _, body) =>
      ChainExtraIsPairs(before);
      ExtraIsPairs(body);
      PairsJoin(ChainLoopVars(before), LoopVars(body));
  }

  // ─── Where expressions compile ─────────────────────────────────────────────

  /** The loops that came before leave names that are all new: there was none, or one whose
    variable is neither a datum nor called `loop`, and no datum is called `loop`. */
  predicate LeavesNewNames(vars: seq<string>, data: seq<string>) {
    vars == [] || (|vars| == 1 && vars[0] != LOOP && vars[0] !in data && LOOP !in data)
  }

  predicate DistinctData(data: seq<string>) { forall i, j :: 0 <= i < j < |data| ==> data[i] != data[j] }

  /** Behind loops with these variables, outside every loop, the names are distinct exactly
    when the loops left new ones. */
  lemma DistinctIff(vars: seq<string>, data: seq<string>)
    requires DistinctData(data)
    ensures Distinct(DataNames(data) + Pairs(vars)) <==> LeavesNewNames(vars, data)
  {
    var names := DataNames(data) + Pairs(vars);
    var n := |data|;
    if vars == [] {
      assert Distinct(names);
    } else {
      assert names[n] == Visible(vars[0]) && names[n + 1] == Visible(LOOP);
      if |vars| > 1 {
        assert Pairs(vars)[3] == Pairs(vars[1..])[1];
        assert names[n + 3] == Visible(LOOP);
      } else if LOOP in data {
        var i :| 0 <= i < n && data[i] == LOOP;
        assert names[i] == Visible(LOOP);
      } else if vars[0] in data {
        var i :| 0 <= i < n && data[i] == vars[0];
        assert names[i] == Visible(vars[0]);
      } else if vars[0] != LOOP {
        assert Pairs(vars[1..]) == [];
        assert Distinct(names);
      }
    }
  }

  predicate UsesOnly(e: Expr, names: seq<string>) { e.Expr? && forall i :: 0 <= i < |e.uses| ==> e.uses[i] in names }

  /** Outside every loop, an expression over the data compiles behind a block if and only if
    the loops of the block left new names. */
  lemma CompilesBehindIff(b: Block, data: seq<string>, e: Expr)
    requires DistinctData(data) && UsesOnly(e, data)
    ensures OkExpr(e, DataNames(data) + Extra(b)) <==> LeavesNewNames(LoopVars(b), data)
  {
    hide Extra, LoopVars, Distinct, LeavesNewNames;
    ExtraIsPairs(b);
    DistinctIff(LoopVars(b), data);
    var names := DataNames(data) + Extra(b);
    forall i | 0 <= i < |e.uses|
      ensures Visible(e.uses[i]) in names
    {
      var k :| 0 <= k < |data| && data[k] == e.uses[i];
      assert names[k] == Visible(e.uses[i]);
    }
  }

  /** A hidden name says its own slot. */
  predicate HiddenInPlace(names: seq<Name>) { forall i :: 0 <= i < |names| && names[i].Hidden? ==> names[i].slot == i }

  lemma HideIsDistinct(names: seq<Name>, name: string)
    requires Distinct(names) && HiddenInPlace(names)
    ensures Distinct(Hide(names, name)) && HiddenInPlace(Hide(names, name)) && Visible(name) !in Hide(names, name)
  {
    var s, r := Slot(names, Visible(name)), Hide(names, name);
    forall i | 0 <= i < |r|
      ensures r[i] != Visible(name) && (i != s ==> r[i] == names[i])
    {
      assert i != s && s < |names| ==> names[i] != names[s];
    }
  }

  /** In the body of a loop whose list compiled, the names are distinct exactly when its
    variable is not called `loop` and no loop came before in the body. */
  lemma DistinctInsideIff(names: seq<Name>, name: string, vars: seq<string>)
    requires Distinct(names) && HiddenInPlace(names)
    ensures Distinct(LoopNames(names, name) + Pairs(vars)) <==> name != LOOP && vars == []
  {
    var once := Hide(names, name);
    var twice := Hide(once, LOOP);
    var n := |names|;
    HideIsDistinct(names, name);
    HideIsDistinct(once, LOOP);
    var inside := LoopNames(names, name) + Pairs(vars);
    assert inside[n] == Visible(name) && inside[n + 1] == Visible(LOOP);
    if vars != [] {
      assert inside[n + 3] == Visible(LOOP);
    } else if name != LOOP {
      forall i | 0 <= i < n
        ensures inside[i] == twice[i] && twice[i] != Visible(name) && twice[i] != Visible(LOOP)
      {
        assert once[i] != Visible(name);
        assert twice[i] == once[i] || twice[i].Hidden?;
      }
      assert Distinct(inside);
    }
  }

  /** So an expression over visible names compiles in the body of a loop if and only if no
    loop came before it there, and the variable is not called `loop`. */
  lemma CompilesInsideIff(names: seq<Name>, name: string, b: Block, e: Expr)
    requires Distinct(names) && HiddenInPlace(names)
    requires e.Expr? && forall i :: 0 <= i < |e.uses| ==> Visible(e.uses[i]) in LoopNames(names, name)
    ensures OkExpr(e, LoopNames(names, name) + Extra(b)) <==> name != LOOP && LoopVars(b) == []
  {
    hide Extra, LoopVars, Distinct, LoopNames;
    ExtraIsPairs(b);
    DistinctInsideIff(names, name, LoopVars(b));
    assert forall x :: x in LoopNames(names, name) ==> x in LoopNames(names, name) + Extra(b);
  }

  /** The names of a template, at every place that can be reached, hide slots in place. */
  lemma {:induction false} CtxHidesInPlace(ctx: Ctx, data: seq<string>)
    ensures HiddenInPlace(CtxNames(ctx, data))
  {
    hide LoopVars, Extra, ChainExtra, LoopNames;
    match ctx
    case Top =>
    case InIf(outer, before, closed, _) =>
      CtxHidesInPlace(outer, data);
      ExtraIsVisible(before, CtxNames(outer, data));
      ChainExtraIsPairs(closed);
      PairsAreVisible(ChainLoopVars(closed));
    case InElse(outer, before, closed) =>
      CtxHidesInPlace(outer, data);
      ExtraIsVisible(before, CtxNames(outer, data));
      ChainExtraIsPairs(closed);
      PairsAreVisible(ChainLoopVars(closed));
    case InFor(outer, before, name, _) =>
      CtxHidesInPlace(outer, data);
      ExtraIsVisible(before, CtxNames(outer, data));
      LoopHidesInPlace(CtxNames(outer, data) + Extra(before), name);
  }

  lemma {:induction false} PairsAreVisible(vars: seq<string>)
    ensures forall i :: 0 <= i < |Pairs(vars)| ==> Pairs(vars)[i].Visible?
  {
    if vars != [] {
      PairsAreVisible(vars[1..]);
    }
  }

  lemma ExtraIsVisible(b: Block, names: seq<Name>)
    requires HiddenInPlace(names)
    ensures HiddenInPlace(names + Extra(b))
  {
    hide Extra, LoopVars, Pairs;
    ExtraIsPairs(b);
    PairsAreVisible(LoopVars(b));
  }

  lemma LoopHidesInPlace(names: seq<Name>, name: string)
    requires HiddenInPlace(names)
    ensures HiddenInPlace(LoopNames(names, name))
  {
    var once := Hide(names, name);
    assert HiddenInPlace(once);
    assert HiddenInPlace(Hide(once, LOOP));
  }

  // ─── Templates that do not compile ─────────────────────────────────────────

  const XS_EXPR: Expr := Expr(0, ["xs"])

  /** A loop whose variable is called like a datum, and an expression behind it. */
  const SHADOWING: seq<Tag> := [TFor("title", XS_EXPR), TEndFor, TWrite(XS_EXPR, false)]

  /** Two loops, and an expression behind them. */
  const TWO_LOOPS: seq<Tag> := [TFor("x", XS_EXPR), TEndFor, TFor("y", XS_EXPR), TEndFor, TWrite(XS_EXPR, false)]

  /** A loop inside a loop, and an expression behind the inner one. */
  const INNER_LOOP: seq<Tag> := [TFor("x", XS_EXPR), TFor("y", XS_EXPR), TEndFor, TWrite(XS_EXPR, false), TEndFor]

  /** A variable called `loop`. */
  const CALLED_LOOP: seq<Tag> := [TFor(LOOP, XS_EXPR), TWrite(XS_EXPR, false), TEndFor]

  /** Behind a template that compiles, an expression over the data compiles if and only if
    the loops of the template left new names. */
  lemma WriteCompilesIff(b: Block, data: seq<string>, e: Expr, raw: bool)
    requires DistinctData(data) && UsesOnly(e, data) && OkBlock(b, DataNames(data))
    ensures (exists c :: Tags(b) + [TWrite(e, raw)] == Tags(c) && OkBlock(c, DataNames(data)))
            <==> LeavesNewNames(LoopVars(b), data)
  {
    hide Tags, OkBlock, Walk, LeavesNewNames, LoopVars, OkExpr, UsesOnly;
    var c := Then(b, Write(e, raw));
    var tags := Tags(b) + [TWrite(e, raw)];
    CompilesBehindIff(b, data, e);
    assert CtxNames(Top, data) == DataNames(data);
    WalkBlock(Top, b, data);
    WalkJoin(On(Top, Nothing), Tags(b), [TWrite(e, raw)], data);
    WalkOne(Top, b, TWrite(e, raw), data);
    if LeavesNewNames(LoopVars(b), data) {
      WalkIff(tags, data, c);
    } else {
      assert tags[..|tags|] == tags;
      NoTree(tags, |tags|, data);
    }
  }

  function LoopOver(name: string): Block { Then(Nothing, For(name, XS_EXPR, Nothing)) }

  /** An empty loop behind a block. */
  lemma OneLoopMore(before: Block, name: string, names: seq<Name>)
    requires OkBlock(before, names) && name != "" && OkExpr(XS_EXPR, names + Extra(before))
    ensures var b := Then(before, For(name, XS_EXPR, Nothing));
            && OkBlock(b, names) && Tags(b) == Tags(before) + [TFor(name, XS_EXPR), TEndFor]
            && LoopVars(b) == LoopVars(before) + [name]
  {
    hide OkExpr, LoopNames;
    var item := For(name, XS_EXPR, Nothing);
    assert OkBlock(Nothing, LoopNames(names + Extra(before), name)) && Tags(Nothing) == [] && LoopVars(Nothing) == [];
    assert OkItem(item, names + Extra(before));
    assert ItemTags(item) == [TFor(name, XS_EXPR)] + [] + [TEndFor];
    assert ItemLoopVars(item) == [name] + [];
  }

  lemma LoopOverCompiles(name: string, data: seq<string>)
    requires DistinctData(data) && "xs" in data && name != ""
    ensures Tags(LoopOver(name)) == [TFor(name, XS_EXPR), TEndFor] && LoopVars(LoopOver(name)) == [name]
    ensures OkBlock(LoopOver(name), DataNames(data)) && UsesOnly(XS_EXPR, data)
  {
    hide OkExpr, OkItem, ItemTags, ItemLoopVars;
    CompilesBehindIff(Nothing, data, XS_EXPR);
    OneLoopMore(Nothing, name, DataNames(data));
  }

  lemma ShadowingDoesNotCompile()
    ensures forall b :: !(SHADOWING == Tags(b) && OkBlock(b, DataNames(["xs", "title"])))
  {
    hide Tags, OkBlock, LoopVars, DataNames, UsesOnly;
    var data := ["xs", "title"];
    LoopOverCompiles("title", data);
    WriteCompilesIff(LoopOver("title"), data, XS_EXPR, false);
    assert data[1] == "title";
    assert Tags(LoopOver("title")) + [TWrite(XS_EXPR, false)] == SHADOWING;
  }

  lemma TwoLoopsDoNotCompile()
    ensures forall b :: !(TWO_LOOPS == Tags(b) && OkBlock(b, DataNames(["xs"])))
  {
    hide OkExpr, OkBlock, Tags, LoopVars, DataNames, UsesOnly;
    var data := ["xs"];
    var b := Then(LoopOver("x"), For("y", XS_EXPR, Nothing));
    LoopOverCompiles("x", data);
    CompilesBehindIff(LoopOver("x"), data, XS_EXPR);
    OneLoopMore(LoopOver("x"), "y", DataNames(data));
    assert LoopVars(b) == ["x", "y"];
    WriteCompilesIff(b, data, XS_EXPR, false);
    assert Tags(b) + [TWrite(XS_EXPR, false)] == TWO_LOOPS;
  }

  /** In the body of a loop at the top of a template. */
  lemma InsideDoesNotCompile(name: string, b: Block, tags: seq<Tag>, data: seq<string>)
    requires DistinctData(data) && "xs" in data && name != "" && !(name != LOOP && LoopVars(b) == [])
    requires OkBlock(b, LoopNames(DataNames(data), name))
             && [TFor(name, XS_EXPR)] + Tags(b) + [TWrite(XS_EXPR, false)] <= tags
    ensures forall c :: !(tags == Tags(c) && OkBlock(c, DataNames(data)))
  {
    hide Tags, OkBlock, Walk, LoopVars, OkExpr, LoopNames;
    var inside := InFor(Top, Nothing, name, XS_EXPR);
    var start := On(Top, Nothing);
    var names := DataNames(data);
    LoopOverCompiles(name, data);
    CompilesBehindIff(Nothing, data, XS_EXPR);
    assert names + Extra(Nothing) == names && LoopVars(Nothing) == [] by { NoLoopVars(names); }
    WalkOne(Top, Nothing, TFor(name, XS_EXPR), data);
    assert CtxNames(inside, data) == LoopNames(names, name);
    WalkBlock(inside, b, data);
    WalkOne(inside, b, TWrite(XS_EXPR, false), data);
    WalkJoin(start, [TFor(name, XS_EXPR)], Tags(b), data);
    WalkJoin(start, [TFor(name, XS_EXPR)] + Tags(b), [TWrite(XS_EXPR, false)], data);
    DistinctData0(data);
    DistinctInsideIff(names, name, LoopVars(b));
    ExtraIsPairs(b);
    var k := |Tags(b)| + 2;
    assert tags[..k] == [TFor(name, XS_EXPR)] + Tags(b) + [TWrite(XS_EXPR, false)];
    NotDistinctNotOk(XS_EXPR, LoopNames(names, name) + Extra(b));
    NoTree(tags, k, data);
  }

  lemma NotDistinctNotOk(e: Expr, names: seq<Name>)
    requires !Distinct(names)
    ensures !OkExpr(e, names)
  {
  }

  lemma NoLoopVars(names: seq<Name>)
    ensures names + Extra(Nothing) == names && LoopVars(Nothing) == []
  {
  }

  lemma DistinctData0(data: seq<string>)
    requires DistinctData(data)
    ensures Distinct(DataNames(data)) && HiddenInPlace(DataNames(data))
  {
    DistinctIff([], data);
    assert DataNames(data) + [] == DataNames(data);
  }

  lemma InnerLoopDoesNotCompile()
    ensures forall b :: !(INNER_LOOP == Tags(b) && OkBlock(b, DataNames(["xs"])))
  {
    hide OkExpr, DataNames, LoopNames, UsesOnly;
    var data := ["xs"];
    var names := LoopNames(DataNames(data), "x");
    var b := LoopOver("y");
    DistinctData0(data);
    assert names + Extra(Nothing) == names && LoopVars(Nothing) == [] by { NoLoopVars(names); }
    XsIsVisible("x");
    CompilesInsideIff(DataNames(data), "x", Nothing, XS_EXPR);
    OneLoopMore(Nothing, "y", names);
    assert LoopVars(b) == ["y"] && Tags(b) == [TFor("y", XS_EXPR), TEndFor];
    InsideDoesNotCompile("x", b, INNER_LOOP, data);
  }

  /** The data are seen in a loop that does not hide them. */
  lemma XsIsVisible(name: string)
    requires name != "xs"
    ensures forall i :: 0 <= i < |XS_EXPR.uses| ==> Visible(XS_EXPR.uses[i]) in LoopNames(DataNames(["xs"]), name)
  {
    var names := DataNames(["xs"]);
    assert names[0] == Visible("xs");
    HiddenOthers(names, name, 0, "xs");
    assert LoopNames(names, name)[0] == Visible("xs");
  }

  lemma CalledLoopDoesNotCompile()
    ensures forall b :: !(CALLED_LOOP == Tags(b) && OkBlock(b, DataNames(["xs"])))
  {
    hide DataNames, LoopNames;
    assert [TFor(LOOP, XS_EXPR)] + Tags(Nothing) + [TWrite(XS_EXPR, false)] == CALLED_LOOP[..2];
    InsideDoesNotCompile(LOOP, Nothing, CALLED_LOOP, ["xs"]);
  }

  /** A loop over `xs`, and its variable behind it. */
  const STALE: Block := Then(Then(Nothing, For("x", Expr(0, ["xs"]), Nothing)), Write(Expr(1, ["x"]), true))

  /** A name that is used behind its loop compiles, and is seen with the last item; the tree
    has no value for it there. */
  lemma StaleNameIsSeen(v: Value, o: Oracle)
    requires o.eval(0, [List([v])]) == Got(List([v]))
    ensures OkBlock(STALE, DataNames(["xs"])) && !Scoped(STALE, {"xs"})
    ensures var m := Steps(Code(STALE, DataNames(["xs"]), 0), Start([List([v])], 3), 3, o);
            match o.eval(1, [v])
            case Error(s) => m == Failed(s, "")
            case Got(x) => m.Running? && m.out == o.show(x)
    ensures RenderBlock(STALE, map["xs" := List([v])], "", o)
            == match o.eval(1, [Null])
               case Error(s) => Stopped(s, "")
               case Got(x) => Fine("" + o.show(x))
  {
    StaleCode();
    StaleCompiles();
    hide OkBlock, Scoped, DataNames;
    var code := Code(STALE, DataNames(["xs"]), 0);
    var loop := LoopData(0, 1);
    hide Code, LoopData;
    var m0 := Start([List([v])], 3);
    assert m0 == Running(0, [List([v]), Null, Null], [], "");
    assert ValuesAt([0], m0.vals) == [List([v])];
    var m1 := Running(1, [List([v]), v, loop], [Frame([v], 0)], "");
    assert Step(code, m0, o) == m1;
    var m2 := Running(2, [List([v]), v, loop], [], "");
    assert Step(code, m1, o) == m2;
    assert ValuesAt([1], m2.vals) == [v];
    assert Steps(code, m0, 3, o) == Steps(code, m1, 2, o) == Steps(code, m2, 1, o)
              == Steps(code, Step(code, m2, o), 0, o);
    StaleTree(v, o);
  }

  const XS: seq<Name> := [Visible("xs")]
  const XS_LOOP: seq<Name> := [Visible("xs"), Visible("x"), Visible(LOOP)]

  lemma StaleNames()
    ensures DataNames(["xs"]) == XS && XS + [] == XS && XS + Extra(STALE.before) == XS_LOOP && [] + XS == XS
    ensures Slots(["xs"], XS) == [0] && Slots(["x"], XS_LOOP) == [1]
  {
    assert DataNames(["xs"]) == XS;
    assert Extra(STALE.before) == [Visible("x"), Visible(LOOP)];
    assert XS_LOOP[1] == Visible("x") && Slot(XS_LOOP, Visible("x")) == 1;
  }

  lemma StaleCompiles()
    ensures OkBlock(STALE, DataNames(["xs"])) && !Scoped(STALE, {"xs"})
  {
    hide DataNames, Slots, LoopNames;
    StaleNames();
    assert OkExpr(Expr(0, ["xs"]), XS) by { assert XS[0] == Visible("xs"); }
    assert OkExpr(Expr(1, ["x"]), XS_LOOP) by { assert XS_LOOP[1] == Visible("x"); }
    assert !ScopedExpr(Expr(1, ["x"]), {"xs"}) by { assert Expr(1, ["x"]).uses[0] == "x"; }
    assert OkBlock(Nothing, XS) && OkBlock(Nothing, LoopNames(XS, "x"));
    assert XS + Extra(Nothing) == XS;
    assert OkBlock(STALE.before, XS);
  }

  lemma StaleCode()
    ensures Code(STALE, DataNames(["xs"]), 0)
            == [LoopStart(Compiled(0, [0]), 2, 1, 2), LoopNext(1, 1, 2), Print(Compiled(1, [1]), true)]
  {
    hide DataNames, Slots, LoopNames;
    StaleNames();
    assert XS + Extra(Nothing) == XS;
    assert ItemCode(STALE.before.item, XS, 0) == [LoopStart(Compiled(0, [0]), 2, 1, 2), LoopNext(1, 1, 2)];
    assert Code(STALE.before, XS, 0) == [LoopStart(Compiled(0, [0]), 2, 1, 2), LoopNext(1, 1, 2)];
  }

  lemma StaleTree(v: Value, o: Oracle)
    requires o.eval(0, [List([v])]) == Got(List([v]))
    ensures RenderBlock(STALE, map["xs" := List([v])], "", o)
            == match o.eval(1, [Null])
               case Error(s) => Stopped(s, "")
               case Got(x) => Fine("" + o.show(x))
  {
    hide LoopData;
    var env := map["xs" := List([v])];
    assert Seen(["xs"], env) == [List([v])];
    assert Seen(["x"], env) == [Null];
    assert RenderLoop(Nothing, "x", [v], 1, env, "", o) == Fine("");
    assert RenderLoop(Nothing, "x", [v], 0, env, "", o) == Fine("");
    assert RenderItem(STALE.before.item, env, "", o) == Fine("");
    assert RenderBlock(STALE.before, env, "", o) == Fine("");
  }
}
