/** One level of each definition: what the code, the size and the evaluation of an
  expression say of its parts. */
module Unfolding {
  import opened Wrappers
  import opened Values
  import opened Ast
  import opened Bytecode
  import opened Machine
  import opened Layout
  import opened Slots
  import opened MachineSteps
  import opened Composition
  import R = Reference

  lemma KindOf(ch: Chunk, sg: Sigs, e: Expr, L: seq<Local>, a: nat)
    requires ExprCode(ch, sg, e, L, a)
    ensures e.Lit? || e.Ident? || e.This? || e.Ternary? || e.Step? || R.IsShortCircuit(e) || R.IsOperationExpr(e)
    ensures e.Lit? || e.Ident? || e.This? ==> ExprSize(e, sg) == 1
  {
  }

  /** The code of an expression is the code of its kind. */
  lemma CodeOfKind(ch: Chunk, sg: Sigs, e: Expr, L: seq<Local>, a: nat)
    requires ExprCode(ch, sg, e, L, a)
    ensures e.Ternary? ==> TernaryCode(ch, sg, e.cond, e.yes, e.no, L, a)
    ensures e.Step? ==> StepCode(ch, sg, e.post, e.plus, e.target, L, a)
    ensures R.IsShortCircuit(e) ==> ShortCircuitCode(ch, sg, e.bop.Or?, e.lhs, e.rhs, L, a)
  {
    hide TernaryCode, StepCode, ShortCircuitCode, OperationCode;
  }

  lemma SizeOfKind(e: Expr, sg: Sigs)
    ensures e.Ternary? ==> ExprSize(e, sg) == ExprSize(e.cond, sg) + 1 + ExprSize(e.yes, sg) + 1 + ExprSize(e.no, sg)
    ensures e.Step? ==> ExprSize(e, sg) == StepSize(e.post, e.target, sg)
    ensures R.IsShortCircuit(e) ==> ExprSize(e, sg) == ExprSize(e.lhs, sg) + 1 + ExprSize(e.rhs, sg)
  {
    hide StepSize, ListSize, R.Operands;
  }

  lemma TernaryParts(ch: Chunk, sg: Sigs, e: Expr, L: seq<Local>, a: nat) returns (b: nat, c: nat, end: nat)
    requires e.Ternary? && ExprCode(ch, sg, e, L, a)
    ensures b == a + ExprSize(e.cond, sg) && c == b + 1 + ExprSize(e.yes, sg)
    ensures end == c + 1 + ExprSize(e.no, sg) == a + ExprSize(e, sg) && c + 1 < end
    ensures ExprCode(ch, sg, e.cond, L, a) && ExprCode(ch, sg, e.yes, L, b + 1) && ExprCode(ch, sg, e.no, L, c + 1)
    ensures Has(ch, b, OpJumpIfFalse(c + 1)) && Has(ch, c, OpJump(end))
    ensures Weight(e.cond) < Weight(e) && Weight(e.yes) < Weight(e) && Weight(e.no) < Weight(e)
  {
    hide ExprCode, ExprSize;
    CodeOfKind(ch, sg, e, L, a);
    SizeOfKind(e, sg);
    SizePositive(e.no, sg);
    b := a + ExprSize(e.cond, sg);
    c := b + 1 + ExprSize(e.yes, sg);
    end := c + 1 + ExprSize(e.no, sg);
  }

  lemma EvalOfTernary(k: Ctx, fuel: nat, e: Expr, st: R.St) returns (r: R.Res<Value>)
    requires e.Ternary? && Linked(k.p, k.src)
    ensures r == R.EvalExpr(k.src, fuel, Depth(k), e.cond, st)
    ensures R.EvalExpr(k.src, fuel, Depth(k), e, st) ==
            if r.Stopped? then r
            else if Truthy(k.p.host, r.value, r.st.world) then R.EvalExpr(k.src, fuel, Depth(k), e.yes, r.st)
            else R.EvalExpr(k.src, fuel, Depth(k), e.no, r.st)
  {
    assert k.p.host == k.src.host;
    hide Linked, R.EvalOperation, R.EvalStep, R.EvalShortCircuit, Truthy;
    r := R.EvalExpr(k.src, fuel, Depth(k), e.cond, st);
  }

  lemma ShortCircuitParts(ch: Chunk, sg: Sigs, e: Expr, L: seq<Local>, a: nat) returns (b: nat, end: nat)
    requires R.IsShortCircuit(e) && ExprCode(ch, sg, e, L, a)
    ensures e.Binary? && b == a + ExprSize(e.lhs, sg) && end == b + 1 + ExprSize(e.rhs, sg) == a + ExprSize(e, sg)
    ensures ExprCode(ch, sg, e.lhs, L, a) && ExprCode(ch, sg, e.rhs, L, b + 1)
    ensures Has(ch, b, if e.bop.Or? then OpJumpIfTruePeek(end) else OpJumpIfFalsePeek(end))
    ensures Weight(e.lhs) < Weight(e) && Weight(e.rhs) < Weight(e)
  {
    hide ExprCode, ExprSize;
    CodeOfKind(ch, sg, e, L, a);
    SizeOfKind(e, sg);
    b := a + ExprSize(e.lhs, sg);
    end := b + 1 + ExprSize(e.rhs, sg);
  }

  lemma EvalOfShortCircuit(k: Ctx, fuel: nat, e: Expr, st: R.St) returns (r: R.Res<Value>)
    requires R.IsShortCircuit(e) && Linked(k.p, k.src)
    ensures r == R.EvalExpr(k.src, fuel, Depth(k), e.lhs, st)
    ensures R.EvalExpr(k.src, fuel, Depth(k), e, st) ==
            if r.Ok? && Truthy(k.p.host, r.value, r.st.world) != e.bop.Or?
            then R.EvalExpr(k.src, fuel, Depth(k), e.rhs, r.st) else r
  {
    assert k.p.host == k.src.host;
    hide Linked, R.EvalOperation, R.EvalStep, R.EvalTernary, Truthy;
    r := R.EvalExpr(k.src, fuel, Depth(k), e.lhs, st);
  }

  lemma UnfoldList(k: Ctx, fuel: nat, es: seq<Expr>, L: seq<Local>, a: nat, st: R.St)
    returns (b: nat, end: nat, r: R.Res<Value>)
    requires es != [] && ListCode(k.ch, k.src.sigs, es, L, a)
    ensures b == a + ExprSize(es[0], k.src.sigs)
    ensures end == b + ListSize(es[1..], k.src.sigs) == a + ListSize(es, k.src.sigs)
    ensures ExprCode(k.ch, k.src.sigs, es[0], L, a) && ListCode(k.ch, k.src.sigs, es[1..], L, b)
    ensures Weight(es[0]) <= WeightList(es) && WeightList(es[1..]) <= WeightList(es)
    ensures r == R.EvalExpr(k.src, fuel, Depth(k), es[0], st)
    ensures R.EvalList(k.src, fuel, Depth(k), es, st) ==
            Cons(r, if r.Ok? then R.EvalList(k.src, fuel, Depth(k), es[1..], r.st) else R.Ok([], st))
  {
    hide ExprSize, ExprCode, R.EvalExpr;
    b := a + ExprSize(es[0], k.src.sigs);
    end := b + ListSize(es[1..], k.src.sigs);
    r := R.EvalExpr(k.src, fuel, Depth(k), es[0], st);
  }

  lemma UnfoldOperation(k: Ctx, fuel: nat, e: Expr, L: seq<Local>, a: nat, st: R.St)
    returns (es: seq<Expr>, b: nat, r: R.Res<seq<Value>>)
    requires R.IsOperationExpr(e) && ExprCode(k.ch, k.src.sigs, e, L, a)
    ensures es == R.Operands(e, k.src.sigs) && WeightList(es) < Weight(e)
    ensures b == a + ListSize(es, k.src.sigs) && b + 1 == a + ExprSize(e, k.src.sigs)
    ensures ListCode(k.ch, k.src.sigs, es, L, a) && HasOperation(k.ch, b, k.src.sigs, e, L)
    ensures r == R.EvalList(k.src, fuel, Depth(k), es, st) && (r.Ok? ==> |r.value| == |es|)
    ensures R.EvalExpr(k.src, fuel, Depth(k), e, st) ==
            if r.Stopped? then R.Stopped(r.why) else R.Perform(k.src, fuel, Depth(k), e, r.value, r.st)
  {
    hide R.Operands, HasOperation, R.Perform;
    es := R.Operands(e, k.src.sigs);
    b := a + ListSize(es, k.src.sigs);
    r := R.EvalList(k.src, fuel, Depth(k), es, st);
  }


  lemma UnfoldStep(k: Ctx, fuel: nat, e: Expr, L: seq<Local>, a: nat, st: R.St)
    requires e.Step? && Linked(k.p, k.src) && ExprCode(k.ch, k.src.sigs, e, L, a)
    ensures e.target.Ident? || e.target.Member? || e.target.Index?
    ensures e.target.Ident? ==>
              && NameStepCode(k.ch, e.post, e.plus, e.target.name, L, a) && ExprSize(e, k.src.sigs) == 5
              && R.EvalExpr(k.src, fuel, Depth(k), e, st) == R.StepName(k.p.host, e.post, e.plus, e.target.name, st)
  {
    hide NameStepCode, FieldStepCode, ElementStepCode, R.StepName, R.StepField, R.StepElement;
  }

  lemma FieldStepParts(ch: Chunk, sg: Sigs, e: Expr, L: seq<Local>, a: nat) returns (b: nat)
    requires e.Step? && e.target.Member? && ExprCode(ch, sg, e, L, a)
    ensures b == a + ExprSize(e.target.obj, sg) && b + (if e.post then 11 else 9) == a + ExprSize(e, sg)
    ensures ExprCode(ch, sg, e.target.obj, L, a) && FieldStepCode(ch, e.post, e.plus, e.target.field, |L|, b)
    ensures Weight(e.target.obj) < Weight(e)
  {
    hide ExprCode, ExprSize, FieldStepCode, ElementStepCode, NameStepCode;
    CodeOfKind(ch, sg, e, L, a);
    SizeOfKind(e, sg);
    b := a + ExprSize(e.target.obj, sg);
  }

  lemma EvalOfFieldStep(k: Ctx, fuel: nat, e: Expr, st: R.St) returns (r: R.Res<Value>)
    requires e.Step? && e.target.Member? && Linked(k.p, k.src)
    ensures r == R.EvalExpr(k.src, fuel, Depth(k), e.target.obj, st)
    ensures R.EvalExpr(k.src, fuel, Depth(k), e, st) ==
            if r.Stopped? then r else R.StepField(k.p.host, e.post, e.plus, r.value, e.target.field, r.st)
  {
    assert k.p.host == k.src.host;
    hide Linked, R.EvalOperation, R.EvalShortCircuit, R.EvalTernary, R.StepName, R.StepField, R.StepElement;
    r := R.EvalExpr(k.src, fuel, Depth(k), e.target.obj, st);
  }

  lemma ElementStepParts(ch: Chunk, sg: Sigs, e: Expr, L: seq<Local>, a: nat) returns (c: nat, b: nat)
    requires e.Step? && e.target.Index? && ExprCode(ch, sg, e, L, a)
    ensures c == a + ExprSize(e.target.obj, sg) && b == c + 1 + ExprSize(e.target.index, sg)
    ensures b + (if e.post then 13 else 11) == a + ExprSize(e, sg)
    ensures Weight(e.target.obj) < Weight(e) && Weight(e.target.index) < Weight(e)
    ensures ExprCode(ch, sg, e.target.obj, L, a) && Has(ch, c, OpStoreLocal(|L|))
    ensures ExprCode(ch, sg, e.target.index, L + [CONTAINER], c + 1) && Hidden(CONTAINER.name)
    ensures ElementStepCode(ch, e.post, e.plus, |L|, b) && |L| + 3 <= ch.numLocals
  {
    hide ExprCode, ExprSize, FieldStepCode, NameStepCode;
    CodeOfKind(ch, sg, e, L, a);
    SizeOfKind(e, sg);
    c := a + ExprSize(e.target.obj, sg);
    b := c + 1 + ExprSize(e.target.index, sg);
  }

  lemma EvalOfElementStep(k: Ctx, fuel: nat, e: Expr, st: R.St) returns (r: R.Res<Value>)
    requires e.Step? && e.target.Index? && Linked(k.p, k.src)
    ensures r == R.EvalExpr(k.src, fuel, Depth(k), e.target.obj, st)
    ensures r.Stopped? ==> R.EvalExpr(k.src, fuel, Depth(k), e, st) == r
    ensures r.Ok? ==>
              var r1 := R.EvalExpr(k.src, fuel, Depth(k), e.target.index, r.st);
              R.EvalExpr(k.src, fuel, Depth(k), e, st) ==
              if r1.Stopped? then r1 else R.StepElement(k.p.host, e.post, e.plus, r.value, r1.value, r1.st)
  {
    assert k.p.host == k.src.host;
    hide Linked, R.EvalOperation, R.EvalShortCircuit, R.EvalTernary, R.StepName, R.StepField, R.StepElement;
    r := R.EvalExpr(k.src, fuel, Depth(k), e.target.obj, st);
  }

  lemma SettingHidden(k: Ctx, L: seq<Local>, h: Local, f: seq<Value>, st: R.St, v: Value)
    requires Setting(k, L, f, st) && |L| < |f| && Hidden(h.name)
    ensures Setting(k, L + [h], f[|L| := v], st) && Keeps(L, f, f[|L| := v])
  {
    FreeSlot(L, f, |L|, v);
    HiddenEnv(L, h, f[|L| := v]);
  }

  lemma UnfoldCall(k: Ctx, fuel: nat, e: Expr, vs: seq<Value>, L: seq<Local>, b: nat, st: R.St)
    requires R.IsOperationExpr(e) && R.IsCall(e) && |vs| == |R.Operands(e, k.src.sigs)|
    requires HasOperation(k.ch, b, k.src.sigs, e, L)
    ensures R.TheCall(e).Call? && |vs| == |R.CallOperands(R.TheCall(e), k.src.sigs)|
    ensures HasCall(k.ch, b, k.src.sigs, R.TheCall(e))
    ensures R.Perform(k.src, fuel, Depth(k), e, vs, st) == R.PerformCall(k.src, fuel, Depth(k), R.TheCall(e), vs, st)
  {
    hide HasCall, R.CallOperands, R.PerformCall;
  }

  /** A call that does not run a declaration: a builtin or a method. */
  lemma UnfoldHostCall(k: Ctx, fuel: nat, c: Expr, vs: seq<Value>, b: nat, st: R.St) returns (o: Outcome)
    requires c.Call? && |vs| == |R.CallOperands(c, k.src.sigs)| && !Resolve(c.callee, k.src.sigs).UserFn?
    requires Linked(k.p, k.src) && HasCall(k.ch, b, k.src.sigs, c)
    ensures b < |k.ch.code| && Has(k.ch, b, k.ch.code[b])
    ensures k.ch.code[b].OpCallAsync? ==>
              && k.ch.code[b].argc == |vs|
              && R.PerformCall(k.src, fuel, Depth(k), c, vs, st)
                 == if st.inputs == [] then R.Stopped(R.Wait(k.ch.code[b].id, vs, st))
                    else R.Ok(st.inputs[0].value, R.St(st.env, st.inputs[0].world, 0, st.inputs[1..]))
    ensures !k.ch.code[b].OpCallAsync? ==>
              && IsOperation(k.ch.code[b]) && |vs| == Arity(k.ch.code[b])
              && o == Perform(k.p.host, k.p.lenId, k.ch, k.ch.code[b], vs, st.world)
              && R.PerformCall(k.src, fuel, Depth(k), c, vs, st) == R.Lift(o, st)
  {
    assert k.p.host == k.src.host && k.p.lenId == k.src.sigs.lenId;
    hide Linked, CallNative, CallMethod;
    var i := k.ch.code[b];
    o := Bad("", st.world);
    if !i.OpCallAsync? {
      o := Perform(k.p.host, k.p.lenId, k.ch, i, vs, st.world);
    }
  }

  /** A call of a user function, in terms of the run of its declaration. */
  lemma UnfoldUserCall(k: Ctx, fuel: nat, c: Expr, vs: seq<Value>, b: nat, st: R.St)
    returns (index: nat, r: R.Res<Value>)
    requires c.Call? && |vs| == |R.CallOperands(c, k.src.sigs)| && Resolve(c.callee, k.src.sigs).UserFn?
    requires Linked(k.p, k.src) && HasCall(k.ch, b, k.src.sigs, c)
    ensures Has(k.ch, b, OpCallFunction(index, |vs|)) && |k.p.functions| == |k.src.decls|
    ensures index < |k.p.functions| ==>
              && |vs| == |k.src.decls[index].params| <= k.p.functions[index].numLocals
              && DeclCode(k.p.functions[index], k.src.sigs, k.src.decls[index])
    ensures R.PerformCall(k.src, fuel, Depth(k), c, vs, st) ==
            if index >= |k.p.functions| then R.Stopped(R.Err(NO_FUNCTION_ERROR, st))
            else if Depth(k) >= MAX_FRAMES then R.Stopped(R.Err(RECURSION_ERROR, st))
            else if fuel == 0 then R.Stopped(R.NoFuel)
            else BackIn(r, st)
    ensures index < |k.p.functions| && Depth(k) < MAX_FRAMES && fuel > 0 ==>
              var d := k.src.decls[index];
              r == R.RunDecl(k.src, fuel - 1, Depth(k) + 1, d, st.(env := R.BindParams(d.params, vs)))
  {
    hide R.RunDecl, R.BindParams, StmtsCode, RangesIn, BlockSize, R.GuardStmts, Has;
    index := Resolve(c.callee, k.src.sigs).sig.index;
    r := R.Stopped(R.NoFuel);
    if index < |k.p.functions| && fuel > 0 {
      var d := k.src.decls[index];
      r := R.RunDecl(k.src, fuel - 1, Depth(k) + 1, d, st.(env := R.BindParams(d.params, vs)));
      assert DeclCode(k.p.functions[index], k.src.sigs, d);
    }
    if index < |k.p.functions| {
      assert DeclCode(k.p.functions[index], k.src.sigs, k.src.decls[index]);
      assert SigMatches(k.src, Resolve(c.callee, k.src.sigs).sig);
    }
  }

  lemma NoFuelIsFine(k: Ctx, b: nat, s: seq<Value>, vs: seq<Value>, L: seq<Local>, f: seq<Value>, st: R.St, w: Wit)
    ensures ExprSim(k, At(k, b, s + vs, f, st), s, L, f, b, b + 1, R.Stopped(R.NoFuel), w, 0)
  {
    RunsForZero(k.p, At(k, b, s + vs, f, st));
  }

  /** The callee starts with its parameters in the first slots. */
  lemma CalleeSetting(k: Ctx, b: nat, s: seq<Value>, f: seq<Value>, ch: Chunk, decl: Decl, vs: seq<Value>, st: R.St)
    requires DeclCode(ch, k.src.sigs, decl) && |vs| == |decl.params| <= ch.numLocals
    ensures var kc := Callee(k, b, s, f, ch);
            && Setting(kc, ParamLocals(decl.params), vs + Nulls(ch.numLocals - |vs|),
                       st.(env := R.BindParams(decl.params, vs)))
            && kc.p == k.p && kc.src == k.src && kc.ch == ch && Depth(kc) == Depth(k) + 1
  {
    hide StmtsCode, RangesIn;
    ParamsInSlots(decl.params, vs, vs + Nulls(ch.numLocals - |vs|));
  }
}
