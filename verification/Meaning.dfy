/** What each construct means in terms of its own parts: laws of the interpreter, and of the code,
  that do not mention how operands are collected. */
module Meaning {
  import opened Wrappers
  import opened Values
  import opened Ast
  import B = Bytecode
  import Layout
  import O = Operations
  import opened Reference

  /** The values of expressions that are evaluated from left to right: all but the last, and then
    the last, in the state that those before it leave. */
  function InOrder(p: Source, fuel: nat, depth: nat, es: seq<Expr>, st: St): (r: Res<seq<Value>>)
    ensures r.Ok? ==> |r.value| == |es|
  {
    if es == [] then Ok([], st)
    else
      var r := InOrder(p, fuel, depth, es[..|es| - 1], st);
      if r.Stopped? then r
      else
        var s := EvalExpr(p, fuel, depth, es[|es| - 1], r.st);
        if s.Stopped? then Stopped(s.why) else Ok(r.value + [s.value], s.st)
  }

  // ─── Operands that are collected ───────────────────────────────────────────

  lemma ListCons(p: Source, fuel: nat, depth: nat, e: Expr, es: seq<Expr>, st: St)
    ensures var r := EvalExpr(p, fuel, depth, e, st);
            EvalList(p, fuel, depth, [e] + es, st)
            == if r.Stopped? then Stopped(r.why)
               else
                 var s := EvalList(p, fuel, depth, es, r.st);
                 if s.Stopped? then s else Ok([r.value] + s.value, s.st)
  {
    hide EvalExpr;
    assert ([e] + es)[1..] == es;
  }

  lemma ListNil(p: Source, fuel: nat, depth: nat, st: St)
    ensures EvalList(p, fuel, depth, [], st) == Ok([], st)
  {
  }

  lemma {:induction false} ListSplits(p: Source, fuel: nat, depth: nat, a: seq<Expr>, b: seq<Expr>, st: St)
    ensures var r := EvalList(p, fuel, depth, a, st);
            EvalList(p, fuel, depth, a + b, st)
            == if r.Stopped? then r
               else
                 var s := EvalList(p, fuel, depth, b, r.st);
                 if s.Stopped? then s else Ok(r.value + s.value, s.st)
  {
    hide *;
    ListNil(p, fuel, depth, st);
    if a == [] {
      assert a + b == b;
      if EvalList(p, fuel, depth, b, st).Ok? {
        assert [] + EvalList(p, fuel, depth, b, st).value == EvalList(p, fuel, depth, b, st).value;
      }
    } else {
      assert a == [a[0]] + a[1..] && a + b == [a[0]] + (a[1..] + b);
      ListCons(p, fuel, depth, a[0], a[1..], st);
      ListCons(p, fuel, depth, a[0], a[1..] + b, st);
      var r := EvalExpr(p, fuel, depth, a[0], st);
      if r.Ok? {
        ListSplits(p, fuel, depth, a[1..], b, r.st);
        var s := EvalList(p, fuel, depth, a[1..], r.st);
        if s.Ok? && EvalList(p, fuel, depth, b, s.st).Ok? {
          var t := EvalList(p, fuel, depth, b, s.st);
          assert [r.value] + s.value + t.value == [r.value] + (s.value + t.value);
        }
      }
    }
  }

  lemma OneInList(p: Source, fuel: nat, depth: nat, e: Expr, st: St)
    ensures var r := EvalExpr(p, fuel, depth, e, st);
            EvalList(p, fuel, depth, [e], st) == if r.Stopped? then Stopped(r.why) else Ok([r.value], r.st)
  {
    hide *;
    assert [e] == [e] + [];
    ListCons(p, fuel, depth, e, [], st);
    var r := EvalExpr(p, fuel, depth, e, st);
    if r.Ok? {
      ListNil(p, fuel, depth, r.st);
      assert [r.value] + [] == [r.value];
    }
  }

  lemma {:induction false} InOrderIsList(p: Source, fuel: nat, depth: nat, es: seq<Expr>, st: St)
    ensures InOrder(p, fuel, depth, es, st) == EvalList(p, fuel, depth, es, st)
    decreases |es|
  {
    hide EvalExpr, EvalList;
    if es == [] {
      ListNil(p, fuel, depth, st);
    } else {
      var n := |es| - 1;
      InOrderIsList(p, fuel, depth, es[..n], st);
      assert es == es[..n] + [es[n]];
      ListSplits(p, fuel, depth, es[..n], [es[n]], st);
      var r := EvalList(p, fuel, depth, es[..n], st);
      if r.Ok? {
        OneInList(p, fuel, depth, es[n], r.st);
      }
    }
  }

  lemma OperationIs(p: Source, fuel: nat, depth: nat, e: Expr, st: St)
    requires IsOperationExpr(e)
    ensures var r := EvalList(p, fuel, depth, Operands(e, p.sigs), st);
            EvalExpr(p, fuel, depth, e, st)
            == if r.Stopped? then Stopped(r.why) else Perform(p, fuel, depth, e, r.value, r.st)
  {
    hide EvalList, Perform, Operands;
    assert EvalExpr(p, fuel, depth, e, st) == EvalOperation(p, fuel, depth, e, st);
  }

  // ─── Operators and literals ────────────────────────────────────────────────

  /** An operator takes its left side, and then its right side in the state that the left one
    leaves; whatever stops the left side, the right one is not evaluated. */
  lemma BinaryMeans(p: Source, fuel: nat, depth: nat, op: BinaryOp, l: Expr, r: Expr, st: St)
    requires op != And && op != Or
    ensures var a := EvalExpr(p, fuel, depth, l, st);
            EvalExpr(p, fuel, depth, Binary(op, l, r), st)
            == if a.Stopped? then a
               else
                 var b := EvalExpr(p, fuel, depth, r, a.st);
                 if b.Stopped? then b else Lift(BinaryValue(p.host, op, a.value, b.value, b.st.world), b.st)
  {
    hide EvalExpr, EvalList, BinaryValue;
    var e := Binary(op, l, r);
    OperationIs(p, fuel, depth, e, st);
    assert IsOperationExpr(e) && Operands(e, p.sigs) == [l] + [r];
    TwoInList(p, fuel, depth, l, r, st);
  }

  lemma TwoInList(p: Source, fuel: nat, depth: nat, e: Expr, f: Expr, st: St)
    ensures var r := EvalExpr(p, fuel, depth, e, st);
            EvalList(p, fuel, depth, [e] + [f], st)
            == if r.Stopped? then Stopped(r.why)
               else
                 var s := EvalExpr(p, fuel, depth, f, r.st);
                 if s.Stopped? then Stopped(s.why) else Ok([r.value, s.value], s.st)
  {
    hide *;
    ListSplits(p, fuel, depth, [e], [f], st);
    OneInList(p, fuel, depth, e, st);
    var r := EvalExpr(p, fuel, depth, e, st);
    if r.Ok? {
      OneInList(p, fuel, depth, f, r.st);
      var s := EvalExpr(p, fuel, depth, f, r.st);
      assert s.Ok? ==> [r.value] + [s.value] == [r.value, s.value];
    }
  }

  /** The operators on integers, as arithmetic has them when the result fits in 64 bits. */
  lemma IntegersMean(h: Host, a: int, b: int, w: World)
    ensures MIN_INT <= a + b <= MAX_INT ==> BinaryValue(h, Plus, Int(a), Int(b), w) == Good(Int(a + b), w)
    ensures MIN_INT <= a - b <= MAX_INT ==> BinaryValue(h, Minus, Int(a), Int(b), w) == Good(Int(a - b), w)
    ensures MIN_INT <= a * b <= MAX_INT ==> BinaryValue(h, Times, Int(a), Int(b), w) == Good(Int(a * b), w)
    ensures BinaryValue(h, Eq, Int(a), Int(b), w) == Good(Bool(a == b), w)
    ensures BinaryValue(h, Ne, Int(a), Int(b), w) == Good(Bool(a != b), w)
    ensures BinaryValue(h, Lt, Int(a), Int(b), w) == Good(Bool(a < b), w)
    ensures BinaryValue(h, Le, Int(a), Int(b), w) == Good(Bool(a <= b), w)
    ensures BinaryValue(h, Gt, Int(a), Int(b), w) == Good(Bool(a > b), w)
    ensures BinaryValue(h, Ge, Int(a), Int(b), w) == Good(Bool(a >= b), w)
  {
  }

  lemma UnaryMeans(p: Source, fuel: nat, depth: nat, op: UnaryOp, x: Expr, st: St)
    ensures var a := EvalExpr(p, fuel, depth, x, st);
            EvalExpr(p, fuel, depth, Unary(op, x), st)
            == if a.Stopped? then a
               else if op == NotOp then Ok(Bool(!Truthy(p.host, a.value, a.st.world)), a.st)
               else Lift(Negate(p.host, a.value, a.st.world), a.st)
  {
    hide EvalExpr, EvalList, Truthy, Negate;
    var e := Unary(op, x);
    OperationIs(p, fuel, depth, e, st);
    assert IsOperationExpr(e) && Operands(e, p.sigs) == [x];
    OneInList(p, fuel, depth, x, st);
  }

  /** A container, and then its index. */
  lemma IndexMeans(p: Source, fuel: nat, depth: nat, o: Expr, i: Expr, st: St)
    ensures var a := EvalExpr(p, fuel, depth, o, st);
            EvalExpr(p, fuel, depth, Index(o, i), st)
            == if a.Stopped? then a
               else
                 var b := EvalExpr(p, fuel, depth, i, a.st);
                 if b.Stopped? then b else Lift(GetIndex(a.value, b.value, b.st.world), b.st)
  {
    hide EvalExpr, EvalList, GetIndex;
    var e := Index(o, i);
    OperationIs(p, fuel, depth, e, st);
    assert IsOperationExpr(e) && Operands(e, p.sigs) == [o] + [i];
    TwoInList(p, fuel, depth, o, i, st);
  }

  lemma MemberMeans(p: Source, fuel: nat, depth: nat, o: Expr, f: string, st: St)
    ensures var a := EvalExpr(p, fuel, depth, o, st);
            EvalExpr(p, fuel, depth, Member(o, f), st)
            == if a.Stopped? then a else Lift(GetMember(f, a.value, a.st.world), a.st)
  {
    hide EvalExpr, EvalList, GetMember;
    var e := Member(o, f);
    OperationIs(p, fuel, depth, e, st);
    assert IsOperationExpr(e) && Operands(e, p.sigs) == [o];
    OneInList(p, fuel, depth, o, st);
  }

  lemma ListMeans(p: Source, fuel: nat, depth: nat, items: seq<Expr>, st: St)
    ensures var a := InOrder(p, fuel, depth, items, st);
            EvalExpr(p, fuel, depth, ListLit(items), st)
            == if a.Stopped? then Stopped(a.why) else Lift(NewList(a.value, a.st.world), a.st)
  {
    hide EvalExpr, EvalList, NewList, InOrder;
    OperationIs(p, fuel, depth, ListLit(items), st);
    assert IsOperationExpr(ListLit(items)) && Operands(ListLit(items), p.sigs) == items;
    InOrderIsList(p, fuel, depth, items, st);
  }

  // ─── Dictionary literals ───────────────────────────────────────────────────

  /** Pair by pair, the key and then the value; what comes out alternates as they do. */
  function PairsInOrder(p: Source, fuel: nat, depth: nat, entries: seq<Entry>, st: St): (r: Res<seq<Value>>)
    ensures r.Ok? ==> |r.value| == 2 * |entries|
  {
    if entries == [] then Ok([], st)
    else
      var r := PairsInOrder(p, fuel, depth, entries[..|entries| - 1], st);
      if r.Stopped? then r
      else
        var k := EvalExpr(p, fuel, depth, entries[|entries| - 1].key, r.st);
        if k.Stopped? then Stopped(k.why)
        else
          var v := EvalExpr(p, fuel, depth, entries[|entries| - 1].value, k.st);
          if v.Stopped? then Stopped(v.why) else Ok(r.value + [k.value, v.value], v.st)
  }

  lemma {:induction false} FlattenSnoc(entries: seq<Entry>, en: Entry)
    ensures Flatten(entries + [en]) == Flatten(entries) + ([en.key] + [en.value])
  {
    if entries == [] {
      assert [] + [en] == [en] && [en][1..] == [];
    } else {
      assert (entries + [en])[1..] == entries[1..] + [en];
      FlattenSnoc(entries[1..], en);
    }
  }

  lemma {:induction false} PairsAreList(p: Source, fuel: nat, depth: nat, entries: seq<Entry>, st: St)
    ensures PairsInOrder(p, fuel, depth, entries, st) == EvalList(p, fuel, depth, Flatten(entries), st)
    decreases |entries|
  {
    hide EvalExpr, EvalList, Flatten;
    if entries == [] {
      ListNil(p, fuel, depth, st);
      assert Flatten([]) == [];
    } else {
      var n := |entries| - 1;
      PairsAreList(p, fuel, depth, entries[..n], st);
      assert entries == entries[..n] + [entries[n]];
      FlattenSnoc(entries[..n], entries[n]);
      ListSplits(p, fuel, depth, Flatten(entries[..n]), [entries[n].key] + [entries[n].value], st);
      var r := EvalList(p, fuel, depth, Flatten(entries[..n]), st);
      if r.Ok? {
        TwoInList(p, fuel, depth, entries[n].key, entries[n].value, r.st);
      }
    }
  }

  lemma DictMeans(p: Source, fuel: nat, depth: nat, entries: seq<Entry>, st: St)
    ensures var a := PairsInOrder(p, fuel, depth, entries, st);
            EvalExpr(p, fuel, depth, DictLit(entries), st)
            == if a.Stopped? then Stopped(a.why) else Lift(MakeDict(a.value, [], a.st.world), a.st)
  {
    hide EvalExpr, EvalList, MakeDict, PairsInOrder;
    OperationIs(p, fuel, depth, DictLit(entries), st);
    assert IsOperationExpr(DictLit(entries)) && Operands(DictLit(entries), p.sigs) == Flatten(entries);
    PairsAreList(p, fuel, depth, entries, st);
  }

  // ─── Calls ─────────────────────────────────────────────────────────────────

  /** `await` decides what the compiler accepts, and not what a call does. */
  lemma AwaitMeans(p: Source, fuel: nat, depth: nat, c: Expr, st: St)
    requires c.Call?
    ensures EvalExpr(p, fuel, depth, Await(c), st) == EvalExpr(p, fuel, depth, c, st)
  {
    hide EvalList, EvalExpr, PerformCall;
    OperationIs(p, fuel, depth, c, st);
    OperationIs(p, fuel, depth, Await(c), st);
  }

  /** The receiver, then the arguments from left to right, then one call of the host, which leaves
    an event behind. */
  lemma MethodMeans(p: Source, fuel: nat, depth: nat, o: Expr, m: string, args: seq<Expr>, st: St)
    ensures var a := EvalExpr(p, fuel, depth, o, st);
            EvalExpr(p, fuel, depth, Call(Member(o, m), args), st)
            == if a.Stopped? then a
               else
                 var b := InOrder(p, fuel, depth, args, a.st);
                 if b.Stopped? then Stopped(b.why)
                 else
                   var reply := p.host.invoke(m, a.value, b.value, b.st.world);
                   var w := World(reply.heap, b.st.world.trace + [MethodCall(m, a.value, b.value)]);
                   if reply.error == "" then Ok(reply.value, b.st.(world := w))
                   else Stopped(Err(reply.error, b.st.(world := w)))
  {
    hide EvalList, EvalExpr, InOrder;
    var e := Call(Member(o, m), args);
    assert IsOperationExpr(e) && Operands(e, p.sigs) == [o] + args;
    OperationIs(p, fuel, depth, e, st);
    ListCons(p, fuel, depth, o, args, st);
    var a := EvalExpr(p, fuel, depth, o, st);
    if a.Ok? {
      InOrderIsList(p, fuel, depth, args, a.st);
      var b := InOrder(p, fuel, depth, args, a.st);
      if b.Ok? {
        assert ([a.value] + b.value)[1..] == b.value;
      }
    }
  }

  /** The arguments from left to right, and then the host answers, or, when the builtin is one that
    suspends, the next resumption does. */
  lemma BuiltinMeans(p: Source, fuel: nat, depth: nat, name: string, args: seq<Expr>, st: St)
    requires name in p.sigs.natives
    ensures var a := InOrder(p, fuel, depth, args, st);
            var def := p.sigs.natives[name];
            EvalExpr(p, fuel, depth, Call(Ident(name), args), st)
            == if a.Stopped? then Stopped(a.why)
               else if !def.isAsync then Lift(CallNative(p.host, p.sigs.lenId, def.id, a.value, a.st.world), a.st)
               else if a.st.inputs == [] then Stopped(Wait(def.id, a.value, a.st))
               else Ok(a.st.inputs[0].value, St(a.st.env, a.st.inputs[0].world, 0, a.st.inputs[1..]))
  {
    hide EvalList, EvalExpr, InOrder, CallNative;
    var e := Call(Ident(name), args);
    assert IsOperationExpr(e) && Operands(e, p.sigs) == args;
    OperationIs(p, fuel, depth, e, st);
    InOrderIsList(p, fuel, depth, args, st);
  }

  /** What a parameter gets when its argument is missing. */
  function DefaultValue(d: Option<Literal>): Value { if d.Some? then LiteralValue(d.value) else Null }

  /** What the parameters from the `n`-th on get. */
  function Missing(defaults: seq<Option<Literal>>, n: nat): (r: seq<Value>)
    ensures |r| == if n <= |defaults| then |defaults| - n else 0
  {
    if n <= |defaults| then
      seq(|defaults| - n, i requires 0 <= i < |defaults| - n => DefaultValue(defaults[n + i]))
    else []
  }

  lemma {:induction false} DefaultsAreValues(p: Source, fuel: nat, depth: nat, ds: seq<Option<Literal>>, st: St)
    ensures EvalList(p, fuel, depth, DefaultArgs(ds), st) == Ok(Missing(ds, 0), st)
  {
    hide EvalExpr, EvalList;
    if ds == [] {
      ListNil(p, fuel, depth, st);
    } else {
      var e := Lit(if ds[0].Some? then ds[0].value else NullLit);
      assert DefaultArgs(ds) == [e] + DefaultArgs(ds[1..]);
      ListCons(p, fuel, depth, e, DefaultArgs(ds[1..]), st);
      LiteralMeans(p, fuel, depth, e.lit, st);
      assert LiteralValue(e.lit) == DefaultValue(ds[0]);
      DefaultsAreValues(p, fuel, depth, ds[1..], st);
      assert Missing(ds, 0) == [DefaultValue(ds[0])] + Missing(ds[1..], 0);
    }
  }

  /** A literal means itself, and changes nothing. */
  lemma LiteralMeans(p: Source, fuel: nat, depth: nat, l: Literal, st: St)
    ensures EvalExpr(p, fuel, depth, Lit(l), st) == Ok(LiteralValue(l), st)
    ensures LiteralValue(NullLit) == Null
    ensures l.IntLit? ==> LiteralValue(l) == Int(l.i)
    ensures l.StrLit? ==> LiteralValue(l) == Str(l.s)
    ensures l.BoolLit? ==> LiteralValue(l) == Bool(l.b)
    ensures l.FloatLit? ==> LiteralValue(l) == Float(l.bits)
  {
  }

  /** The arguments from left to right, then the default values of exactly the parameters that are
    still missing, and then the function runs. */
  lemma UserCallMeans(p: Source, fuel: nat, depth: nat, name: string, args: seq<Expr>, st: St)
    requires name !in p.sigs.natives && name in p.sigs.functions
    ensures var sig := p.sigs.functions[name];
            var a := InOrder(p, fuel, depth, args, st);
            EvalExpr(p, fuel, depth, Call(Ident(name), args), st)
            == if a.Stopped? then Stopped(a.why)
               else CallDecl(p, fuel, depth, sig.index, a.value + Missing(sig.defaults, |args|), a.st)
  {
    hide EvalList, EvalExpr, InOrder, CallDecl;
    var e, sig := Call(Ident(name), args), p.sigs.functions[name];
    var rest := if |args| <= |sig.defaults| then DefaultArgs(sig.defaults[|args|..]) else [];
    assert args + [] == args;
    assert IsOperationExpr(e) && Operands(e, p.sigs) == args + rest;
    OperationIs(p, fuel, depth, e, st);
    InOrderIsList(p, fuel, depth, args, st);
    ListSplits(p, fuel, depth, args, rest, st);
    var a := InOrder(p, fuel, depth, args, st);
    if a.Ok? {
      if |args| <= |sig.defaults| {
        DefaultsAreValues(p, fuel, depth, sig.defaults[|args|..], a.st);
        assert Missing(sig.defaults, |args|) == Missing(sig.defaults[|args|..], 0);
      } else {
        ListNil(p, fuel, depth, a.st);
      }
    }
  }

  /** Calls are at most 200 deep, and jumps at most 50 million. */
  lemma LimitsMean(p: Source, fuel: nat, depth: nat, index: nat, args: seq<Value>, st: St)
    requires index < |p.decls| && fuel > 0
    ensures depth >= 200 ==> CallDecl(p, fuel, depth, index, args, st)
                             == Stopped(Err("demasiada recursion: mas de 200 llamadas anidadas", st))
    ensures depth < 200 ==>
              var r := RunDecl(p, fuel - 1, depth + 1, p.decls[index],
                               st.(env := BindParams(p.decls[index].params, args)));
              var s := CallDecl(p, fuel, depth, index, args, st);
              && (r.Ok? ==> s == Ok(r.value, r.st.(env := st.env)))
              && (r.Stopped? && r.why.Err? ==> s == Stopped(Err(r.why.error, r.why.at.(env := st.env))))
    ensures Tick(st).Stopped? <==> st.steps >= 50_000_000
  {
    hide RunDecl, BindParams;
  }

  // ─── Statements ────────────────────────────────────────────────────────────

  lemma ThreeInList(p: Source, fuel: nat, depth: nat, e: Expr, f: Expr, g: Expr, st: St)
    ensures var r := EvalExpr(p, fuel, depth, e, st);
            EvalList(p, fuel, depth, [e] + ([f] + [g]), st)
            == if r.Stopped? then Stopped(r.why)
               else
                 var s := EvalExpr(p, fuel, depth, f, r.st);
                 if s.Stopped? then Stopped(s.why)
                 else
                   var t := EvalExpr(p, fuel, depth, g, s.st);
                   if t.Stopped? then Stopped(t.why) else Ok([r.value, s.value, t.value], t.st)
  {
    hide *;
    ListCons(p, fuel, depth, e, [f] + [g], st);
    var r := EvalExpr(p, fuel, depth, e, st);
    if r.Ok? {
      TwoInList(p, fuel, depth, f, g, r.st);
      var s := EvalExpr(p, fuel, depth, f, r.st);
      if s.Ok? {
        var t := EvalExpr(p, fuel, depth, g, s.st);
        assert t.Ok? ==> [r.value] + [s.value, t.value] == [r.value, s.value, t.value];
      }
    }
  }

  /** An assignment to an element: container, index, value, and then one write. */
  lemma ElementAssignMeans(p: Source, fuel: nat, depth: nat, o: Expr, i: Expr, e: Expr, lc: Loop, st: St)
    ensures var a := EvalExpr(p, fuel, depth, o, st);
            ExecStmt(p, fuel, depth, Assign(Index(o, i), e), lc, st)
            == if a.Stopped? then Stopped(a.why)
               else
                 var b := EvalExpr(p, fuel, depth, i, a.st);
                 if b.Stopped? then Stopped(b.why)
                 else
                   var c := EvalExpr(p, fuel, depth, e, b.st);
                   if c.Stopped? then Stopped(c.why)
                   else
                     var d := Lift(SetIndex(a.value, b.value, c.value, c.st.world), c.st);
                     if d.Stopped? then Stopped(d.why) else Ok(Normal, d.st)
  {
    hide EvalList, EvalExpr, SetIndex;
    assert AssignOperands(Index(o, i), e) == [o] + ([i] + [e]);
    ThreeInList(p, fuel, depth, o, i, e, st);
  }

  /** An assignment to a field: object, value, and then one write. */
  lemma FieldAssignMeans(p: Source, fuel: nat, depth: nat, o: Expr, f: string, e: Expr, lc: Loop, st: St)
    ensures var a := EvalExpr(p, fuel, depth, o, st);
            ExecStmt(p, fuel, depth, Assign(Member(o, f), e), lc, st)
            == if a.Stopped? then Stopped(a.why)
               else
                 var b := EvalExpr(p, fuel, depth, e, a.st);
                 if b.Stopped? then Stopped(b.why)
                 else
                   var d := Lift(SetMember(f, a.value, b.value, b.st.world), b.st);
                   if d.Stopped? then Stopped(d.why) else Ok(Normal, d.st)
  {
    hide EvalList, EvalExpr, SetMember;
    assert AssignOperands(Member(o, f), e) == [o] + [e];
    TwoInList(p, fuel, depth, o, e, st);
  }

  /** A variable that is declared without a value is null. */
  lemma DeclarationMeans(p: Source, fuel: nat, depth: nat, typ: string, name: string, lc: Loop, st: St)
    ensures var r := ExecStmt(p, fuel, depth, VarDecl(typ, name, None), lc, st);
            && r == Ok(Normal, st.(env := st.env + [Binding(name, Null)]))
            && EvalExpr(p, fuel, depth, Ident(name), r.st) == Ok(Null, r.st)
  {
  }

  // ─── Conditions ────────────────────────────────────────────────────────────

  lemma TernaryMeans(p: Source, fuel: nat, depth: nat, c: Expr, yes: Expr, no: Expr, st: St)
    ensures var a := EvalExpr(p, fuel, depth, c, st);
            EvalExpr(p, fuel, depth, Ternary(c, yes, no), st)
            == if a.Stopped? then a
               else if Truthy(p.host, a.value, a.st.world) then EvalExpr(p, fuel, depth, yes, a.st)
               else EvalExpr(p, fuel, depth, no, a.st)
  {
    hide Truthy;
    assert EvalExpr(p, fuel, depth, Ternary(c, yes, no), st) == EvalTernary(p, fuel, depth, c, yes, no, st);
  }

  /** `and` stops at a left side that is false, `or` at one that is true, and that side is the value. */
  lemma ShortCircuitMeans(p: Source, fuel: nat, depth: nat, l: Expr, r: Expr, st: St)
    ensures var a := EvalExpr(p, fuel, depth, l, st);
            EvalExpr(p, fuel, depth, Binary(And, l, r), st)
            == if a.Ok? && Truthy(p.host, a.value, a.st.world) then EvalExpr(p, fuel, depth, r, a.st) else a
    ensures var a := EvalExpr(p, fuel, depth, l, st);
            EvalExpr(p, fuel, depth, Binary(Or, l, r), st)
            == if a.Ok? && !Truthy(p.host, a.value, a.st.world) then EvalExpr(p, fuel, depth, r, a.st) else a
  {
    hide Truthy;
    assert EvalExpr(p, fuel, depth, Binary(And, l, r), st) == EvalShortCircuit(p, fuel, depth, false, l, r, st);
    assert EvalExpr(p, fuel, depth, Binary(Or, l, r), st) == EvalShortCircuit(p, fuel, depth, true, l, r, st);
  }

  /** Which way a condition goes: an integer holds when it is not zero, a string when it is not
    empty, and null never does. */
  lemma TernaryDecides(p: Source, fuel: nat, depth: nat, i: int, s: string, b: bool, yes: Expr, no: Expr, st: St)
    ensures EvalExpr(p, fuel, depth, Ternary(Lit(IntLit(i)), yes, no), st)
            == if i != 0 then EvalExpr(p, fuel, depth, yes, st) else EvalExpr(p, fuel, depth, no, st)
    ensures EvalExpr(p, fuel, depth, Ternary(Lit(StrLit(s)), yes, no), st)
            == if s != "" then EvalExpr(p, fuel, depth, yes, st) else EvalExpr(p, fuel, depth, no, st)
    ensures EvalExpr(p, fuel, depth, Ternary(Lit(BoolLit(b)), yes, no), st)
            == if b then EvalExpr(p, fuel, depth, yes, st) else EvalExpr(p, fuel, depth, no, st)
    ensures EvalExpr(p, fuel, depth, Ternary(Lit(NullLit), yes, no), st) == EvalExpr(p, fuel, depth, no, st)
  {
    hide EvalExpr;
    TernaryMeans(p, fuel, depth, Lit(IntLit(i)), yes, no, st);
    TernaryMeans(p, fuel, depth, Lit(StrLit(s)), yes, no, st);
    TernaryMeans(p, fuel, depth, Lit(BoolLit(b)), yes, no, st);
    TernaryMeans(p, fuel, depth, Lit(NullLit), yes, no, st);
    LiteralMeans(p, fuel, depth, IntLit(i), st);
    LiteralMeans(p, fuel, depth, StrLit(s), st);
    LiteralMeans(p, fuel, depth, BoolLit(b), st);
    LiteralMeans(p, fuel, depth, NullLit, st);
  }

  lemma IfDecides(p: Source, fuel: nat, depth: nat, i: int, s: string, b: bool, body: seq<Stmt>, orelse: seq<Stmt>,
                  st: St)
    ensures ExecStmt(p, fuel, depth, If(Lit(IntLit(i)), body, orelse), NoLoop, st)
            == ExecBlock(p, fuel, depth, if i != 0 then body else orelse, NoLoop, st)
    ensures ExecStmt(p, fuel, depth, If(Lit(StrLit(s)), body, orelse), NoLoop, st)
            == ExecBlock(p, fuel, depth, if s != "" then body else orelse, NoLoop, st)
    ensures ExecStmt(p, fuel, depth, If(Lit(BoolLit(b)), body, orelse), NoLoop, st)
            == ExecBlock(p, fuel, depth, if b then body else orelse, NoLoop, st)
    ensures ExecStmt(p, fuel, depth, If(Lit(NullLit), body, orelse), NoLoop, st)
            == ExecBlock(p, fuel, depth, orelse, NoLoop, st)
  {
    hide ExecBlock;
  }

  // ─── Errors ────────────────────────────────────────────────────────────────

  /** A handler that returns the message of what it caught returns the error of the body, with what the
    body did to the outer variables and to the world, and with no jump counted; a body that does not fail is
    all there is. */
  lemma TryMeans(p: Source, fuel: nat, depth: nat, body: seq<Stmt>, name: string, lc: Loop, st: St)
    requires name != ""
    ensures var r := ExecBlock(p, fuel, depth, body, NotLast(lc), st);
            var handler := [Return(Option.Some(Member(Ident(name), "message")))];
            var t := ExecStmt(p, fuel, depth, Try(body, name, handler), lc, st);
            if r.Stopped? && r.why.Err? then
              && t.Ok? && t.value == Returning(Str(r.why.error))
              && (|r.why.at.env| == |st.env| ==> t.st.env == r.why.at.env)
              && t.st.steps == 0 && t.st.inputs == r.why.at.inputs && t.st.world.trace == r.why.at.world.trace
              && r.why.at.world.heap <= t.st.world.heap
            else t == r
  {
    hide ExecBlock, EvalExpr;
    var r := ExecBlock(p, fuel, depth, body, NotLast(lc), st);
    if r.Stopped? && r.why.Err? {
      var at := r.why.at;
      var (v, w) := ErrorValue(r.why.error, at.world);
      var e := Member(Ident(name), "message");
      var st1 := St(at.env + [Binding(name, v)], w, 0, at.inputs);
      CaughtMessage(p, fuel, depth, name, r.why.error, at);
      assert ExecStmts(p, fuel, depth, [Return(Option.Some(e))], lc, st1) == Ok(Returning(Str(r.why.error)), st1);
      BlockLeaves(st, at, name, v);
    }
  }

  lemma CaughtMessage(p: Source, fuel: nat, depth: nat, name: string, error: string, at: St)
    ensures var (v, w) := ErrorValue(error, at.world);
            var st1 := St(at.env + [Binding(name, v)], w, 0, at.inputs);
            EvalExpr(p, fuel, depth, Member(Ident(name), "message"), st1) == Ok(Str(error), st1)
  {
    var (v, w) := ErrorValue(error, at.world);
    var st1 := St(at.env + [Binding(name, v)], w, 0, at.inputs);
    assert EvalExpr(p, fuel, depth, Ident(name), st1) == Ok(v, st1);
    MemberMeans(p, fuel, depth, Ident(name), "message", st1);
    O.ErrorMeans(error, at.world, "message");
  }

  lemma BlockLeaves(st: St, at: St, name: string, v: Value)
    ensures |at.env| == |st.env| ==> Leave(at.env + [Binding(name, v)], |st.env|) == at.env
  {
  }

  // ─── Declarations ──────────────────────────────────────────────────────────

  /** As many variables are in scope as `n`, wherever evaluation ends. */
  predicate Scope<T>(r: Res<T>, n: nat) {
    match r
    case Ok(_, st) => |st.env| == n
    case Stopped(Err(_, st)) => |st.env| == n
    case _ => true
  }

  /** Evaluating an expression declares no variable and drops none. */
  lemma {:induction false} ExprKeepsScope(p: Source, fuel: nat, depth: nat, e: Expr, st: St)
    ensures Scope(EvalExpr(p, fuel, depth, e, st), |st.env|)
    decreases Weight(e), 1
  {
    if e.Ternary? {
      TernaryMeans(p, fuel, depth, e.cond, e.yes, e.no, st);
      hide EvalExpr, Truthy;
      ExprKeepsScope(p, fuel, depth, e.cond, st);
      var a := EvalExpr(p, fuel, depth, e.cond, st);
      if a.Ok? {
        ExprKeepsScope(p, fuel, depth, e.yes, a.st);
        ExprKeepsScope(p, fuel, depth, e.no, a.st);
      }
    } else if e.Step? {
      StepKeepsScope(p, fuel, depth, e, st);
    } else if IsShortCircuit(e) {
      ShortCircuitMeans(p, fuel, depth, e.lhs, e.rhs, st);
      hide EvalExpr, Truthy;
      ExprKeepsScope(p, fuel, depth, e.lhs, st);
      var a := EvalExpr(p, fuel, depth, e.lhs, st);
      if a.Ok? {
        ExprKeepsScope(p, fuel, depth, e.rhs, a.st);
      }
    } else if IsOperationExpr(e) {
      OperationIs(p, fuel, depth, e, st);
      hide EvalExpr, Perform, EvalList;
      ListKeepsScope(p, fuel, depth, Operands(e, p.sigs), st);
      var a := EvalList(p, fuel, depth, Operands(e, p.sigs), st);
      if a.Ok? {
        PerformKeepsScope(p, fuel, depth, e, a.value, a.st);
      }
    }
  }

  lemma {:induction false} ListKeepsScope(p: Source, fuel: nat, depth: nat, es: seq<Expr>, st: St)
    ensures Scope(EvalList(p, fuel, depth, es, st), |st.env|)
    decreases WeightList(es), 2 + |es|
  {
    hide EvalExpr, EvalList;
    if es == [] {
      ListNil(p, fuel, depth, st);
    } else {
      assert es == [es[0]] + es[1..];
      ListCons(p, fuel, depth, es[0], es[1..], st);
      ExprKeepsScope(p, fuel, depth, es[0], st);
      var a := EvalExpr(p, fuel, depth, es[0], st);
      if a.Ok? {
        ListKeepsScope(p, fuel, depth, es[1..], a.st);
      }
    }
  }

  lemma {:induction false} StepKeepsScope(p: Source, fuel: nat, depth: nat, e: Expr, st: St)
    requires e.Step?
    ensures Scope(EvalExpr(p, fuel, depth, e, st), |st.env|)
    decreases Weight(e), 0
  {
    hide OneMore, GetMember, SetMember, GetIndex, SetIndex;
    assert EvalExpr(p, fuel, depth, e, st) == EvalStep(p, fuel, depth, e.post, e.plus, e.target, st);
    assert Weight(e) == 2 + Weight(e.target);
    match e.target
    case Member(o, f) => ExprKeepsScope(p, fuel, depth, o, st);
    case Index(o, i) =>
      ExprKeepsScope(p, fuel, depth, o, st);
      var a := EvalExpr(p, fuel, depth, o, st);
      if a.Ok? {
        ExprKeepsScope(p, fuel, depth, i, a.st);
      }
    case _ =>
  }

  lemma PerformKeepsScope(p: Source, fuel: nat, depth: nat, e: Expr, vs: seq<Value>, st: St)
    requires IsOperationExpr(e) && |vs| == |Operands(e, p.sigs)|
    ensures Scope(Perform(p, fuel, depth, e, vs, st), |st.env|)
  {
    hide GetMember, GetIndex, UnaryValue, BinaryValue, NewList, MakeDict, CallNative, CallMethod, RunDecl;
    if IsCall(e) {
      CallKeepsScope(p, fuel, depth, TheCall(e), vs, st);
      assert Perform(p, fuel, depth, e, vs, st) == PerformCall(p, fuel, depth, TheCall(e), vs, st);
    }
  }

  lemma CallKeepsScope(p: Source, fuel: nat, depth: nat, c: Expr, vs: seq<Value>, st: St)
    requires c.Call? && |vs| == |CallOperands(c, p.sigs)|
    ensures Scope(PerformCall(p, fuel, depth, c, vs, st), |st.env|)
  {
    hide CallNative, CallMethod, RunDecl, BindParams;
    if Resolve(c.callee, p.sigs).UserFn? {
      var index := Resolve(c.callee, p.sigs).sig.index;
      assert PerformCall(p, fuel, depth, c, vs, st) == CallDecl(p, fuel, depth, index, vs, st);
      assert Scope(CallDecl(p, fuel, depth, index, vs, st), |st.env|);
    }
  }

  lemma {:induction false} GuardsKeepScope(p: Source, fuel: nat, depth: nat, gs: seq<Guard>, st: St)
    ensures Scope(ExecStmts(p, fuel, depth, GuardStmts(gs), NoLoop, st), |st.env|)
    decreases |gs|
  {
    if gs != [] {
      GuardUnfolds(p, fuel, depth, gs, st);
      hide EvalExpr, Truthy, ExecStmts;
      ExprKeepsScope(p, fuel, depth, gs[0].condition, st);
      var a := EvalExpr(p, fuel, depth, gs[0].condition, st);
      if a.Ok? {
        ExprKeepsScope(p, fuel, depth, gs[0].otherwise, a.st);
        GuardsKeepScope(p, fuel, depth, gs[1..], a.st);
      }
    }
  }

  lemma GuardUnfolds(p: Source, fuel: nat, depth: nat, gs: seq<Guard>, st: St)
    requires gs != []
    ensures var a := EvalExpr(p, fuel, depth, gs[0].condition, st);
            ExecStmts(p, fuel, depth, GuardStmts(gs), NoLoop, st)
            == if a.Stopped? then Stopped(a.why)
               else if Truthy(p.host, a.value, a.st.world) then
                 var r := ExecStmts(p, fuel, depth, GuardStmts(gs[1..]), NoLoop, a.st);
                 if r.Ok? && r.value.Normal? then r else Shrink(r, |st.env|)
               else
                 var b := EvalExpr(p, fuel, depth, gs[0].otherwise, a.st);
                 if b.Stopped? then Stopped(b.why) else Ok(Returning(b.value), b.st)
  {
    hide EvalExpr, Truthy, Shrink;
    var s := Require(gs[0].condition, gs[0].otherwise);
    assert GuardStmts(gs) == [s] + GuardStmts(gs[1..]) && GuardStmts(gs)[1..] == GuardStmts(gs[1..]);
    assert NotLast(NoLoop) == NoLoop;
    var r := ExecStmt(p, fuel, depth, s, NoLoop, st);
    assert ExecStmts(p, fuel, depth, GuardStmts(gs), NoLoop, st)
        == if r.Stopped? then Stopped(r.why)
           else if r.value != Normal then Ok(r.value, r.st)
           else
             var q := ExecStmts(p, fuel, depth, GuardStmts(gs[1..]), NoLoop, r.st);
             if q.Ok? && q.value.Normal? then q else Shrink(q, |st.env|);
  }

  /** The outermost guard first: when it holds, what is left of the declaration runs, and when it
    does not, its other value is the answer and nothing else runs. */
  lemma GuardMeans(p: Source, fuel: nat, depth: nat, params: seq<Param>, g: Guard, gs: seq<Guard>, body: seq<Stmt>,
                   st: St)
    ensures var a := EvalExpr(p, fuel, depth, g.condition, st);
            RunDecl(p, fuel, depth, Decl(params, [g] + gs, body), st)
            == if a.Stopped? then a
               else if Truthy(p.host, a.value, a.st.world) then
                 RunDecl(p, fuel, depth, Decl(params, gs, body), a.st)
               else EvalExpr(p, fuel, depth, g.otherwise, a.st)
  {
    hide EvalExpr, Truthy, ExecStmts, ExecBlock;
    GuardUnfolds(p, fuel, depth, [g] + gs, st);
    assert ([g] + gs)[1..] == gs;
    ExprKeepsScope(p, fuel, depth, g.condition, st);
    var a := EvalExpr(p, fuel, depth, g.condition, st);
    if a.Ok? {
      GuardsKeepScope(p, fuel, depth, gs, a.st);
      var r := ExecStmts(p, fuel, depth, GuardStmts(gs), NoLoop, a.st);
      if r.Ok? {
        assert r.st.env[..|st.env|] == r.st.env;
      } else if r.why.Err? {
        assert r.why.at.env[..|st.env|] == r.why.at.env;
      }
      assert Shrink(r, |st.env|) == r;
    }
  }

  // ─── Code ──────────────────────────────────────────────────────────────────

  /** The code of an operator is that of its left side, that of its right side, and one instruction,
    which does to the two values what the operator means. */
  lemma BinaryCode(ch: B.Chunk, sg: Sigs, op: BinaryOp, l: Expr, r: Expr, L: seq<Layout.Local>, a: nat)
    requires op != And && op != Or
    ensures var b := a + Layout.ExprSize(l, sg);
            var c := b + Layout.ExprSize(r, sg);
            && Layout.ExprSize(Binary(op, l, r), sg) == c + 1 - a
            && (Layout.ExprCode(ch, sg, Binary(op, l, r), L, a)
                <==> && Layout.ExprCode(ch, sg, l, L, a) && Layout.ExprCode(ch, sg, r, L, b)
                     && c < |ch.code| && ch.code[c] == Layout.BinaryInstr(op, l, r, L))
  {
    hide Layout.ExprCode, Layout.ExprSize, Layout.BinaryInstr;
    var e := Binary(op, l, r);
    assert Operands(e, sg) == [l] + [r];
    OperationCodeIs(ch, sg, e, L, a);
    TwoCode(ch, sg, l, r, L, a);
  }

  lemma BinaryInstrMeans(h: Host, lenId: nat, ch: B.Chunk, op: BinaryOp, l: Expr, r: Expr, L: seq<Layout.Local>,
                         x: Value, y: Value, w: World)
    requires op != And && op != Or
    ensures var i := Layout.BinaryInstr(op, l, r, L);
            B.IsOperation(i) && B.Arity(i) == 2 && B.Perform(h, lenId, ch, i, [x, y], w) == BinaryValue(h, op, x, y, w)
  {
    hide Layout.EsInt;
    var i := Layout.BinaryInstr(op, l, r, L);
    assert B.IsOperation(i) && B.Arity(i) == 2 && B.Unspecialised(i) == Layout.Generic(op);
    B.SpecialisedIsGeneric(h, lenId, ch, i, [x, y], w);
  }

  lemma OperationCodeIs(ch: B.Chunk, sg: Sigs, e: Expr, L: seq<Layout.Local>, a: nat)
    requires IsOperationExpr(e)
    ensures Layout.ExprSize(e, sg) == Layout.ListSize(Operands(e, sg), sg) + 1
    ensures Layout.ExprCode(ch, sg, e, L, a)
            <==> && Layout.ListCode(ch, sg, Operands(e, sg), L, a)
                 && Layout.HasOperation(ch, a + Layout.ListSize(Operands(e, sg), sg), sg, e, L)
  {
    hide Layout.ListCode, Layout.ListSize, Layout.HasOperation, Operands;
  }

  lemma TwoCode(ch: B.Chunk, sg: Sigs, e: Expr, f: Expr, L: seq<Layout.Local>, a: nat)
    ensures Layout.ListSize([e] + [f], sg) == Layout.ExprSize(e, sg) + Layout.ExprSize(f, sg)
    ensures Layout.ListCode(ch, sg, [e] + [f], L, a)
            <==> Layout.ExprCode(ch, sg, e, L, a) && Layout.ExprCode(ch, sg, f, L, a + Layout.ExprSize(e, sg))
  {
    hide Layout.ExprCode, Layout.ExprSize;
    var b := a + Layout.ExprSize(e, sg);
    assert ([e] + [f])[1..] == [f] && [f][1..] == [];
    assert Layout.ListSize([f], sg) == Layout.ExprSize(f, sg);
    assert Layout.ListCode(ch, sg, [f], L, b) == Layout.ExprCode(ch, sg, f, L, b);
  }

  /** The code of a container, that of the index, and the instruction that reads the element. */
  lemma IndexCode(ch: B.Chunk, sg: Sigs, o: Expr, i: Expr, L: seq<Layout.Local>, a: nat)
    ensures var b := a + Layout.ExprSize(o, sg);
            var c := b + Layout.ExprSize(i, sg);
            && Layout.ExprSize(Index(o, i), sg) == c + 1 - a
            && (Layout.ExprCode(ch, sg, Index(o, i), L, a)
                <==> && Layout.ExprCode(ch, sg, o, L, a) && Layout.ExprCode(ch, sg, i, L, b)
                     && c < |ch.code| && ch.code[c] == B.OpGetIndex)
  {
    hide Layout.ExprCode, Layout.ExprSize;
    var e := Index(o, i);
    assert Operands(e, sg) == [o] + [i];
    OperationCodeIs(ch, sg, e, L, a);
    TwoCode(ch, sg, o, i, L, a);
  }
}
