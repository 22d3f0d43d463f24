/** Compiled code computes what the reference semantics says.  Every lemma compares a
  run of the machine, from the first instruction of a construct, with the value,
  the error or the suspension that the interpreter of the tree gives. */
module Simulation {
  import opened Wrappers
  import opened Values
  import opened Ast
  import opened Bytecode
  import opened Machine
  import opened Layout
  import opened Slots
  import opened MachineSteps
  import opened Composition
  import opened StmtComposition
  import opened StmtRuns
  import opened StmtUnfolding
  import opened Unfolding
  import R = Reference

  lemma {:induction false} SimExpr(k: Ctx, fuel: nat, e: Expr, L: seq<Local>, a: nat, s: seq<Value>, f: seq<Value>,
                                   st: R.St)
    returns (w: Wit)
    requires Linked(k.p, k.src) && ExprCode(k.ch, k.src.sigs, e, L, a) && Setting(k, L, f, st)
    ensures ExprSim(k, At(k, a, s, f, st), s, L, f, a, a + ExprSize(e, k.src.sigs),
                    R.EvalExpr(k.src, fuel, Depth(k), e, st), w, fuel)
    decreases fuel, 0, Weight(e), 2
  {
    hide *;
    KindOf(k.ch, k.src.sigs, e, L, a);
    if e.Lit? || e.Ident? || e.This? {
      w := SimAtom(k, fuel, e, L, a, s, f, st);
    } else if e.Ternary? {
      w := SimTernary(k, fuel, e, L, a, s, f, st);
    } else if e.Step? {
      w := SimStep(k, fuel, e, L, a, s, f, st);
    } else if R.IsShortCircuit(e) {
      w := SimShortCircuit(k, fuel, e, L, a, s, f, st);
    } else {
      w := SimOperation(k, fuel, e, L, a, s, f, st);
    }
  }

  lemma SimAtom(k: Ctx, fuel: nat, e: Expr, L: seq<Local>, a: nat, s: seq<Value>, f: seq<Value>, st: R.St)
    returns (w: Wit)
    requires e.Lit? || e.Ident? || e.This?
    requires ExprCode(k.ch, k.src.sigs, e, L, a) && Setting(k, L, f, st)
    ensures ExprSim(k, At(k, a, s, f, st), s, L, f, a, a + 1, R.EvalExpr(k.src, fuel, Depth(k), e, st), w, fuel)
  {
    hide Runs, RunsFor;
    w := Wit(0, [], f);
    if e.Lit? {
      StepConst(k, a, s, f, st, LiteralValue(e.lit));
    } else {
      var name := if e.Ident? then e.name else "this";
      SlotHoldsVariable(L, f, name);
      StepLoad(k, a, s, f, st, ResolveLocal(L, name));
    }
  }

  lemma {:induction false} SimTernary(k: Ctx, fuel: nat, e: Expr, L: seq<Local>, a: nat, s: seq<Value>, f: seq<Value>,
                                      st: R.St)
    returns (w: Wit)
    requires e.Ternary?
    requires Linked(k.p, k.src) && ExprCode(k.ch, k.src.sigs, e, L, a) && Setting(k, L, f, st)
    ensures ExprSim(k, At(k, a, s, f, st), s, L, f, a, a + ExprSize(e, k.src.sigs),
                    R.EvalExpr(k.src, fuel, Depth(k), e, st), w, fuel)
    decreases fuel, 0, Weight(e), 1
  {
    hide *;
    FrameSize(k, L, f, st);
    var b, c, end := TernaryParts(k.ch, k.src.sigs, e, L, a);
    var r := EvalOfTernary(k, fuel, e, st);
    w := SimExpr(k, fuel, e.cond, L, a, s, f, st);
    var r1, w1 := r, w;
    if r.Ok? {
      ExprGives(k, At(k, a, s, f, st), s, L, f, a, b, r, w, fuel);
      if Truthy(k.p.host, r.value, r.st.world) {
        w1 := SimExpr(k, fuel, e.yes, L, b + 1, s, w.f, r.st);
        r1 := R.EvalExpr(k.src, fuel, Depth(k), e.yes, r.st);
      } else {
        w1 := SimExpr(k, fuel, e.no, L, c + 1, s, w.f, r.st);
        r1 := R.EvalExpr(k.src, fuel, Depth(k), e.no, r.st);
      }
    }
    TernaryRuns(k, a, b, c, end, s, L, f, At(k, a, s, f, st), r, w, r1, w1, fuel);
    w := if r.Ok? then w1 else w;
  }

  lemma {:induction false} SimShortCircuit(k: Ctx, fuel: nat, e: Expr, L: seq<Local>, a: nat, s: seq<Value>,
                                           f: seq<Value>, st: R.St)
    returns (w: Wit)
    requires R.IsShortCircuit(e)
    requires Linked(k.p, k.src) && ExprCode(k.ch, k.src.sigs, e, L, a) && Setting(k, L, f, st)
    ensures ExprSim(k, At(k, a, s, f, st), s, L, f, a, a + ExprSize(e, k.src.sigs),
                    R.EvalExpr(k.src, fuel, Depth(k), e, st), w, fuel)
    decreases fuel, 0, Weight(e), 1
  {
    hide *;
    FrameSize(k, L, f, st);
    var b, end := ShortCircuitParts(k.ch, k.src.sigs, e, L, a);
    var r := EvalOfShortCircuit(k, fuel, e, st);
    var c0 := At(k, a, s, f, st);
    w := SimExpr(k, fuel, e.lhs, L, a, s, f, st);
    var r1, w1 := r, w;
    if r.Ok? && Truthy(k.p.host, r.value, r.st.world) != e.bop.Or? {
      ExprGives(k, c0, s, L, f, a, b, r, w, fuel);
      w1 := SimExpr(k, fuel, e.rhs, L, b + 1, s, w.f, r.st);
      r1 := R.EvalExpr(k.src, fuel, Depth(k), e.rhs, r.st);
    }
    ShortCircuitRuns(k, a, b, end, e.bop.Or?, s, L, f, c0, r, w, r1, w1, fuel);
    w := w1;
  }

  lemma {:induction false} SimList(k: Ctx, fuel: nat, es: seq<Expr>, L: seq<Local>, a: nat, s: seq<Value>,
                                   f: seq<Value>, st: R.St)
    returns (w: Wit)
    requires Linked(k.p, k.src) && ListCode(k.ch, k.src.sigs, es, L, a) && Setting(k, L, f, st)
    ensures ListSim(k, At(k, a, s, f, st), s, L, f, a, a + ListSize(es, k.src.sigs),
                    R.EvalList(k.src, fuel, Depth(k), es, st), w, fuel)
    decreases fuel, 0, WeightList(es), |es| + 2
  {
    hide *;
    if es == [] {
      w := SimNil(k, fuel, L, a, s, f, st);
    } else {
      FrameSize(k, L, f, st);
      var c0 := At(k, a, s, f, st);
      var b, end, r := UnfoldList(k, fuel, es, L, a, st);
      w := SimExpr(k, fuel, es[0], L, a, s, f, st);
      var r1, w1 := R.Ok([], st), w;
      if r.Ok? {
        ExprGives(k, c0, s, L, f, a, b, r, w, fuel);
        w1 := SimList(k, fuel, es[1..], L, b, s + [r.value], w.f, r.st);
        r1 := R.EvalList(k.src, fuel, Depth(k), es[1..], r.st);
      }
      ListRuns(k, a, b, end, s, L, f, c0, r, w, r1, w1, fuel);
      w := if r.Ok? then w1 else w;
    }
  }

  lemma SimNil(k: Ctx, fuel: nat, L: seq<Local>, a: nat, s: seq<Value>, f: seq<Value>, st: R.St) returns (w: Wit)
    requires Setting(k, L, f, st)
    ensures ListSim(k, At(k, a, s, f, st), s, L, f, a, a + ListSize([], k.src.sigs),
                    R.EvalList(k.src, fuel, Depth(k), [], st), w, fuel)
  {
    hide Runs;
    w := Wit(0, [], f);
    RunsRefl(k.p, At(k, a, s, f, st));
    assert s + [] == s;
  }

  lemma {:induction false} SimOperation(k: Ctx, fuel: nat, e: Expr, L: seq<Local>, a: nat, s: seq<Value>, f: seq<Value>,
                                        st: R.St)
    returns (w: Wit)
    requires R.IsOperationExpr(e)
    requires Linked(k.p, k.src) && ExprCode(k.ch, k.src.sigs, e, L, a) && Setting(k, L, f, st)
    ensures ExprSim(k, At(k, a, s, f, st), s, L, f, a, a + ExprSize(e, k.src.sigs),
                    R.EvalExpr(k.src, fuel, Depth(k), e, st), w, fuel)
    decreases fuel, 0, Weight(e), 1
  {
    hide *;
    FrameSize(k, L, f, st);
    var es, b, r := UnfoldOperation(k, fuel, e, L, a, st);
    var c0 := At(k, a, s, f, st);
    w := SimList(k, fuel, es, L, a, s, f, st);
    if r.Stopped? {
      OperandsStop(k, c0, s, L, f, a, b, r, w, fuel);
    } else {
      ListGives(k, c0, s, L, f, a, b, r, w, fuel);
      var g, st1 := w.f, r.st;
      if R.IsCall(e) {
        w := SimCall(k, fuel, e, r.value, L, b, s, g, st1);
      } else {
        w := SimPure(k, fuel, e, r.value, L, b, s, g, st1);
      }
      ExprLater(k, c0, At(k, b, s + r.value, g, st1), s, L, f, g, a, b, b + 1,
                R.Perform(k.src, fuel, Depth(k), e, r.value, st1), w, fuel);
    }
  }

  /** Operations that are not calls: the instruction chosen by the compiler, generic
    or specialised, does what the operator means. */
  lemma SimPure(k: Ctx, fuel: nat, e: Expr, vs: seq<Value>, L: seq<Local>, b: nat, s: seq<Value>, f: seq<Value>,
                st: R.St)
    returns (w: Wit)
    requires R.IsOperationExpr(e) && !R.IsCall(e) && |vs| == |R.Operands(e, k.src.sigs)|
    requires HasOperation(k.ch, b, k.src.sigs, e, L) && Setting(k, L, f, st)
    requires Linked(k.p, k.src)
    ensures ExprSim(k, At(k, b, s + vs, f, st), s, L, f, b, b + 1, R.Perform(k.src, fuel, Depth(k), e, vs, st), w, fuel)
  {
    assert k.p.host == k.src.host;
    hide Linked, ExprSim, EnvOf;
    var i := k.ch.code[b];
    var o := PureOutcome(k, e, vs, L, b, st);
    w := SimInstr(k, fuel, i, vs, L, b, s, f, st, o);
  }


  // ─── Steps ─────────────────────────────────────────────────────────────────

  lemma {:induction false} SimStep(k: Ctx, fuel: nat, e: Expr, L: seq<Local>, a: nat, s: seq<Value>, f: seq<Value>,
                                   st: R.St)
    returns (w: Wit)
    requires e.Step?
    requires Linked(k.p, k.src) && ExprCode(k.ch, k.src.sigs, e, L, a) && Setting(k, L, f, st)
    ensures ExprSim(k, At(k, a, s, f, st), s, L, f, a, a + ExprSize(e, k.src.sigs),
                    R.EvalExpr(k.src, fuel, Depth(k), e, st), w, fuel)
    decreases fuel, 0, Weight(e), 1
  {
    hide *;
    UnfoldStep(k, fuel, e, L, a, st);
    if e.target.Ident? {
      w := NameStepRuns(k, e.post, e.plus, e.target.name, L, a, s, f, st, fuel);
    } else if e.target.Member? {
      w := SimFieldStep(k, fuel, e, L, a, s, f, st);
    } else {
      w := SimElementStep(k, fuel, e, L, a, s, f, st);
    }
  }

  lemma {:induction false} SimFieldStep(k: Ctx, fuel: nat, e: Expr, L: seq<Local>, a: nat, s: seq<Value>, f: seq<Value>,
                                        st: R.St)
    returns (w: Wit)
    requires e.Step? && e.target.Member?
    requires Linked(k.p, k.src) && ExprCode(k.ch, k.src.sigs, e, L, a) && Setting(k, L, f, st)
    ensures ExprSim(k, At(k, a, s, f, st), s, L, f, a, a + ExprSize(e, k.src.sigs),
                    R.EvalExpr(k.src, fuel, Depth(k), e, st), w, fuel)
    decreases fuel, 0, Weight(e), 0
  {
    hide *;
    FrameSize(k, L, f, st);
    var b := FieldStepParts(k.ch, k.src.sigs, e, L, a);
    var r := EvalOfFieldStep(k, fuel, e, st);
    var c0 := At(k, a, s, f, st);
    var end := b + (if e.post then 11 else 9);
    w := SimExpr(k, fuel, e.target.obj, L, a, s, f, st);
    if r.Stopped? {
      ExprStops(k, c0, s, s, L, f, a, b, end, r, w, fuel);
    } else {
      ExprGives(k, c0, s, L, f, a, b, r, w, fuel);
      var g, st1 := w.f, r.st;
      w := FieldStepRuns(k, e.post, e.plus, e.target.field, L, b, s, g, st1, r.value, fuel);
      ExprLater(k, c0, At(k, b, s + [r.value], g, st1), s, L, f, g, a, b, end,
                R.StepField(k.p.host, e.post, e.plus, r.value, e.target.field, st1), w, fuel);
    }
  }

  lemma {:induction false} SimElementStep(k: Ctx, fuel: nat, e: Expr, L: seq<Local>, a: nat, s: seq<Value>,
                                          f: seq<Value>, st: R.St)
    returns (w: Wit)
    requires e.Step? && e.target.Index?
    requires Linked(k.p, k.src) && ExprCode(k.ch, k.src.sigs, e, L, a) && Setting(k, L, f, st)
    ensures ExprSim(k, At(k, a, s, f, st), s, L, f, a, a + ExprSize(e, k.src.sigs),
                    R.EvalExpr(k.src, fuel, Depth(k), e, st), w, fuel)
    decreases fuel, 0, Weight(e), 0
  {
    hide *;
    FrameSize(k, L, f, st);
    var c, b := ElementStepParts(k.ch, k.src.sigs, e, L, a);
    var r := EvalOfElementStep(k, fuel, e, st);
    var c0 := At(k, a, s, f, st);
    var end := b + (if e.post then 13 else 11);
    w := SimExpr(k, fuel, e.target.obj, L, a, s, f, st);
    if r.Stopped? {
      ExprStops(k, c0, s, s, L, f, a, c, end, r, w, fuel);
    } else {
      ExprGives(k, c0, s, L, f, a, c, r, w, fuel);
      var g, st1 := w.f, r.st;
      FrameSize(k, L, g, st1);
      var h := g[|L| := r.value];
      StepStore(k, c, s, g, st1, |L|, r.value);
      SettingHidden(k, L, CONTAINER, g, st1, r.value);
      var c1 := At(k, c + 1, s, h, st1);
      RunsTrans(k.p, c0, At(k, c, s + [r.value], g, st1), c1);
      KeepsTrans(L, f, g, h);
      w := SimExpr(k, fuel, e.target.index, L + [CONTAINER], c + 1, s, h, st1);
      var r1 := R.EvalExpr(k.src, fuel, Depth(k), e.target.index, st1);
      Unhide(k, c1, s, L, CONTAINER, h, c + 1, b, r1, w, fuel);
      ExprLater(k, c0, c1, s, L, f, h, a, c + 1, b, r1, w, fuel);
      if r1.Stopped? {
        ExprStops(k, c0, s, s, L, f, a, b, end, r1, w, fuel);
      } else {
        ExprGives(k, c0, s, L, f, a, b, r1, w, fuel);
        var g1, st2 := w.f, r1.st;
        w := ElementStepRuns(k, e.post, e.plus, L, b, s, g1, st2, r1.value, fuel);
        ExprLater(k, c0, At(k, b, s + [r1.value], g1, st2), s, L, f, g1, a, b, end,
                  R.StepElement(k.p.host, e.post, e.plus, r.value, r1.value, st2), w, fuel);
      }
    }
  }

  // ─── Calls ─────────────────────────────────────────────────────────────────

  lemma {:induction false} SimCall(k: Ctx, fuel: nat, e: Expr, vs: seq<Value>, L: seq<Local>, b: nat, s: seq<Value>,
                                   f: seq<Value>, st: R.St)
    returns (w: Wit)
    requires R.IsOperationExpr(e) && R.IsCall(e) && |vs| == |R.Operands(e, k.src.sigs)|
    requires Linked(k.p, k.src) && HasOperation(k.ch, b, k.src.sigs, e, L) && Setting(k, L, f, st)
    ensures ExprSim(k, At(k, b, s + vs, f, st), s, L, f, b, b + 1, R.Perform(k.src, fuel, Depth(k), e, vs, st), w, fuel)
    decreases fuel, 0, 0, 2
  {
    hide *;
    UnfoldCall(k, fuel, e, vs, L, b, st);
    var c := R.TheCall(e);
    if Resolve(c.callee, k.src.sigs).UserFn? {
      w := SimUserCall(k, fuel, c, vs, L, b, s, f, st);
    } else {
      w := SimHostCall(k, fuel, c, vs, L, b, s, f, st);
    }
  }

  lemma SimHostCall(k: Ctx, fuel: nat, c: Expr, vs: seq<Value>, L: seq<Local>, b: nat, s: seq<Value>, f: seq<Value>,
                    st: R.St)
    returns (w: Wit)
    requires c.Call? && |vs| == |R.CallOperands(c, k.src.sigs)| && !Resolve(c.callee, k.src.sigs).UserFn?
    requires Linked(k.p, k.src) && HasCall(k.ch, b, k.src.sigs, c) && Setting(k, L, f, st)
    ensures ExprSim(k, At(k, b, s + vs, f, st), s, L, f, b, b + 1,
                    R.PerformCall(k.src, fuel, Depth(k), c, vs, st), w, fuel)
  {
    hide *;
    var o := UnfoldHostCall(k, fuel, c, vs, b, st);
    if k.ch.code[b].OpCallAsync? {
      w := AwaitRuns(k, b, s, vs, L, f, st, k.ch.code[b].id, fuel);
    } else {
      w := SimInstr(k, fuel, k.ch.code[b], vs, L, b, s, f, st, o);
    }
  }

  lemma {:induction false} SimUserCall(k: Ctx, fuel: nat, c: Expr, vs: seq<Value>, L: seq<Local>, b: nat, s: seq<Value>,
                                       f: seq<Value>, st: R.St)
    returns (w: Wit)
    requires c.Call? && |vs| == |R.CallOperands(c, k.src.sigs)| && Resolve(c.callee, k.src.sigs).UserFn?
    requires Linked(k.p, k.src) && HasCall(k.ch, b, k.src.sigs, c) && Setting(k, L, f, st)
    ensures ExprSim(k, At(k, b, s + vs, f, st), s, L, f, b, b + 1,
                    R.PerformCall(k.src, fuel, Depth(k), c, vs, st), w, fuel)
    decreases fuel, 0, 0, 1
  {
    hide *;
    var index, r := UnfoldUserCall(k, fuel, c, vs, b, st);
    if index >= |k.p.functions| || Depth(k) >= MAX_FRAMES {
      w := CallFails(k, b, s, vs, L, f, st, index, fuel);
    } else if fuel == 0 {
      w := Wit(0, [], f);
      NoFuelIsFine(k, b, s, vs, L, f, st, w);
    } else {
      var ch, decl := k.p.functions[index], k.src.decls[index];
      var kc := Callee(k, b, s, f, ch);
      var f0 := vs + Nulls(ch.numLocals - |vs|);
      var st0 := st.(env := R.BindParams(decl.params, vs));
      CalleeSetting(k, b, s, f, ch, decl, vs, st);
      var w0 := SimDecl(kc, fuel - 1, decl, f0, st0);
      w := CallRuns(k, b, s, vs, L, f, st, index, st0, r, w0, fuel);
    }
  }

  // ─── Statements ────────────────────────────────────────────────────────────

  lemma {:induction false} SimStmt(k: Ctx, fuel: nat, s: Stmt, lc: R.Loop, L: seq<Local>, a: nat, t: Targets,
                                   f: seq<Value>, st: R.St)
    returns (w: Wit)
    requires Linked(k.p, k.src) && StmtAt(k, s, lc, L, a, t) && Setting(k, L, f, st)
    ensures StmtSim(k, At(k, a, [], f, st), L, After(s, L), f, a, a + StmtSize(s, k.src.sigs),
                    t, Ranges(s, k.src.sigs, a),
                    R.ExecStmt(k.src, fuel, Depth(k), s, lc, st), w, fuel)
    decreases fuel, 1, s, 1
  {
    hide *;
    if IsSimple(s) {
      w := SimSimple(k, fuel, s, lc, L, a, t, f, st);
    } else if s.Assign? {
      w := SimEffect(k, fuel, s, lc, L, a, t, f, st);
    } else if s.If? {
      w := SimIf(k, fuel, s, lc, L, a, t, f, st);
    } else if s.While? {
      var b, e := WhileParts(k, s, lc, L, a, t);
      ExecOfWhileStmt(k, fuel, s, lc, st);
      w := SimWhile(k, fuel, s.cond, s.body, L, a, b, e, t, f, st);
    } else if s.For? {
      w := SimForStmt(k, fuel, s, lc, L, a, t, f, st);
    } else if s.Require? {
      w := SimRequire(k, fuel, s, lc, L, a, t, f, st);
    } else if s.Try? {
      w := SimTry(k, fuel, s, lc, L, a, t, f, st);
    } else {
      SimpleOrJump(s);
      w := SimJump(k, fuel, s, lc, L, a, t, f, st);
    }
  }

  lemma SimpleOrJump(s: Stmt)
    requires !IsSimple(s) && !s.Assign? && !s.If? && !s.While? && !s.For? && !s.Require? && !s.Try?
    ensures s.Break? || s.Continue? || (s.Return? && s.result.None?)
  {
  }

  lemma {:induction false} SimSimple(k: Ctx, fuel: nat, s: Stmt, lc: R.Loop, L: seq<Local>, a: nat, t: Targets,
                                     f: seq<Value>, st: R.St)
    returns (w: Wit)
    requires IsSimple(s)
    requires Linked(k.p, k.src) && StmtAt(k, s, lc, L, a, t) && Setting(k, L, f, st)
    ensures StmtSim(k, At(k, a, [], f, st), L, After(s, L), f, a, a + StmtSize(s, k.src.sigs),
                    t, Ranges(s, k.src.sigs, a),
                    R.ExecStmt(k.src, fuel, Depth(k), s, lc, st), w, fuel)
    decreases fuel, 0, Weight(SimpleExpr(s)), 3
  {
    hide *;
    FrameSize(k, L, f, st);
    var b := SimpleParts(k, s, lc, L, a, t);
    var r := ExecOfSimple(k, fuel, s, lc, st);
    var c := At(k, a, [], f, st);
    w := SimExpr(k, fuel, SimpleExpr(s), L, a, [], f, st);
    SimpleResults(s, r);
    if s.Return? {
      ReturnRuns(k, c, L, L, f, a, b, t, r, w, fuel);
    } else if s.ExprStmt? {
      ExprStmtRuns(k, c, L, f, a, b, t, r, w, fuel);
    } else if s.VarDecl? {
      w := VarDeclRuns(k, c, L, Local(s.name, s.typ), f, a, b, t, r, w, fuel);
    } else {
      w := AssignRuns(k, c, L, s.target.name, f, a, b, t, r, w, fuel);
    }
  }

  lemma SimpleResults(s: Stmt, r: R.Res<Value>)
    requires IsSimple(s)
    ensures s.Return? || s.ExprStmt? || s.VarDecl? || (s.Assign? && s.target.Ident?)
    ensures SimpleResult(s, r) ==
            if s.Return? then Returned(r) else if s.ExprStmt? then Discarded(r)
            else if s.VarDecl? then Declared(r, s.name) else Assigned(r, s.target.name)
  {
  }

  lemma {:induction false} SimEffect(k: Ctx, fuel: nat, s: Stmt, lc: R.Loop, L: seq<Local>, a: nat, t: Targets,
                                     f: seq<Value>, st: R.St)
    returns (w: Wit)
    requires s.Assign? && !IsSimple(s)
    requires Linked(k.p, k.src) && StmtAt(k, s, lc, L, a, t) && Setting(k, L, f, st)
    ensures StmtSim(k, At(k, a, [], f, st), L, After(s, L), f, a, a + StmtSize(s, k.src.sigs),
                    t, Ranges(s, k.src.sigs, a),
                    R.ExecStmt(k.src, fuel, Depth(k), s, lc, st), w, fuel)
    decreases fuel, 0, Weight(s.target) + Weight(s.value), |R.AssignOperands(s.target, s.value)| + 3
  {
    hide *;
    FrameSize(k, L, f, st);
    NotSimple(s);
    var es, b, i := EffectParts(k, s, lc, L, a, t);
    var r := ExecOfEffect(k, fuel, s, lc, st, i);
    w := SimList(k, fuel, es, L, a, [], f, st);
    w := EffectRuns(k, At(k, a, [], f, st), L, f, a, b, t, i, r, w, fuel);
  }

  lemma NotSimple(s: Stmt)
    requires s.Assign? && !IsSimple(s)
    ensures !s.target.Ident?
  {
  }

  lemma {:induction false} SimIf(k: Ctx, fuel: nat, s: Stmt, lc: R.Loop, L: seq<Local>, a: nat, t: Targets,
                                 f: seq<Value>, st: R.St)
    returns (w: Wit)
    requires s.If?
    requires Linked(k.p, k.src) && StmtAt(k, s, lc, L, a, t) && Setting(k, L, f, st)
    ensures StmtSim(k, At(k, a, [], f, st), L, After(s, L), f, a, a + StmtSize(s, k.src.sigs),
                    t, Ranges(s, k.src.sigs, a),
                    R.ExecStmt(k.src, fuel, Depth(k), s, lc, st), w, fuel)
    decreases fuel, 1, s, 0
  {
    hide *;
    HostsAgree(k);
    FrameSize(k, L, f, st);
    var b, hi, to, end := IfParts(k, s, lc, L, a, t);
    var r := ExecOfIf(k, fuel, s, lc, st);
    var c, rs := At(k, a, [], f, st), Ranges(s, k.src.sigs, a);
    var rs1, rs2 := RangesIn(s.body, k.src.sigs, b + 1), RangesIn(s.orelse, k.src.sigs, to);
    w := SimExpr(k, fuel, s.cond, L, a, [], f, st);
    if r.Stopped? {
      BranchRuns(k, c, L, f, a, b, to, to, end, end, t, rs2, rs, r, w, R.Stopped(r.why), w, fuel);
    } else {
      ExprGives(k, c, [], L, f, a, b, r, w, fuel);
      if Truthy(k.p.host, r.value, r.st.world) {
        var lc1 := if s.orelse == [] then lc else R.NotLast(lc);
        var w1 := SimBlock(k, fuel, s.body, lc1, L, b + 1, t, w.f, r.st);
        BranchRuns(k, c, L, f, a, b, to, b + 1, hi, end, t, rs1, rs, r, w,
                   R.ExecBlock(k.src, fuel, Depth(k), s.body, lc1, r.st), w1, fuel);
        w := w1;
      } else {
        var w1 := SimBlock(k, fuel, s.orelse, lc, L, to, t, w.f, r.st);
        BranchRuns(k, c, L, f, a, b, to, to, end, end, t, rs2, rs, r, w,
                   R.ExecBlock(k.src, fuel, Depth(k), s.orelse, lc, r.st), w1, fuel);
        w := w1;
      }
    }
  }

  lemma HostsAgree(k: Ctx)
    requires Linked(k.p, k.src)
    ensures k.p.host == k.src.host && k.p.lenId == k.src.sigs.lenId
  {
    hide DeclCode, SigMatches;
  }

  lemma {:induction false} SimRequire(k: Ctx, fuel: nat, s: Stmt, lc: R.Loop, L: seq<Local>, a: nat, t: Targets,
                                      f: seq<Value>, st: R.St)
    returns (w: Wit)
    requires s.Require?
    requires Linked(k.p, k.src) && StmtAt(k, s, lc, L, a, t) && Setting(k, L, f, st)
    ensures StmtSim(k, At(k, a, [], f, st), L, After(s, L), f, a, a + StmtSize(s, k.src.sigs),
                    t, Ranges(s, k.src.sigs, a),
                    R.ExecStmt(k.src, fuel, Depth(k), s, lc, st), w, fuel)
    decreases fuel, 1, s, 0
  {
    hide *;
    HostsAgree(k);
    FrameSize(k, L, f, st);
    var b, e := RequireParts(k, s, lc, L, a, t);
    var r := ExecOfRequire(k, fuel, s, lc, st);
    var c := At(k, a, [], f, st);
    w := SimExpr(k, fuel, s.cond, L, a, [], f, st);
    if r.Ok? && !Truthy(k.p.host, r.value, r.st.world) {
      ExprGives(k, c, [], L, f, a, b, r, w, fuel);
      var w1 := SimExpr(k, fuel, s.otherwise, L, b + 2, [], w.f, r.st);
      RequireRuns(k, c, L, f, a, b, e, t, r, w, R.EvalExpr(k.src, fuel, Depth(k), s.otherwise, r.st), w1, fuel);
      w := w1;
    } else {
      RequireRuns(k, c, L, f, a, b, e, t, r, w, r, w, fuel);
    }
  }

  lemma SimJump(k: Ctx, fuel: nat, s: Stmt, lc: R.Loop, L: seq<Local>, a: nat, t: Targets, f: seq<Value>, st: R.St)
    returns (w: Wit)
    requires s.Break? || s.Continue? || (s.Return? && s.result.None?)
    requires Linked(k.p, k.src) && StmtAt(k, s, lc, L, a, t) && Setting(k, L, f, st)
    ensures StmtSim(k, At(k, a, [], f, st), L, After(s, L), f, a, a + StmtSize(s, k.src.sigs),
                    t, Ranges(s, k.src.sigs, a),
                    R.ExecStmt(k.src, fuel, Depth(k), s, lc, st), w, fuel)
  {
    hide *;
    JumpParts(k, fuel, s, lc, L, a, t, st);
    if s.Return? {
      w := Wit(0, [], f);
      ReturnNullRuns(k, L, L, f, a, t, st, w, fuel);
    } else if s.Break? {
      w := BreakRuns(k, L, f, a, t, lc, st, fuel);
    } else {
      w := ContinueRuns(k, L, f, a, t, lc, st, fuel);
    }
  }

  // ─── Blocks ────────────────────────────────────────────────────────────────

  lemma {:induction false} SimStmts(k: Ctx, fuel: nat, ss: seq<Stmt>, lc: R.Loop, L: seq<Local>, a: nat, t: Targets,
                                    f: seq<Value>, st: R.St)
    returns (w: Wit)
    requires Linked(k.p, k.src) && StmtsAt(k, ss, lc, L, a, t) && Setting(k, L, f, st)
    ensures StmtSim(k, At(k, a, [], f, st), L, AfterAll(ss, L), f, a, a + BlockSize(ss, k.src.sigs), t,
                    RangesIn(ss, k.src.sigs, a), R.ExecStmts(k.src, fuel, Depth(k), ss, lc, st), w, fuel)
    decreases fuel, 1, ss, 1
  {
    hide *;
    var c := At(k, a, [], f, st);
    if ss == [] {
      w := Wit(0, [], f);
      NilParts(k, fuel, lc, L, a, st);
      SkipRuns(k, L, f, a, t, st, w, fuel);
    } else {
      FrameSize(k, L, f, st);
      var b, end := ConsParts(k, ss, lc, L, a, t);
      var r := ExecOfCons(k, fuel, ss, lc, st);
      var M := After(ss[0], L);
      var rs1, rs2 := Ranges(ss[0], k.src.sigs, a), RangesIn(ss[1..], k.src.sigs, b);
      w := SimStmt(k, fuel, ss[0], if |ss| == 1 then lc else R.NotLast(lc), L, a, t, f, st);
      var r1, w1 := r, w;
      if r.Ok? && r.value.Normal? {
        StmtGives(k, c, L, M, f, a, b, t, rs1, r, w, fuel);
        w1 := SimStmts(k, fuel, ss[1..], lc, M, b, t, w.f, r.st);
        r1 := R.ExecStmts(k.src, fuel, Depth(k), ss[1..], lc, r.st);
      }
      SeqRuns(k, c, L, M, AfterAll(ss, L), f, a, b, end, t, rs1, rs2, st, r, w, r1, w1, fuel);
      w := w1;
    }
  }

  lemma SkipRuns(k: Ctx, L: seq<Local>, f: seq<Value>, a: nat, t: Targets, st: R.St, w: Wit, fuel: nat)
    requires Setting(k, L, f, st) && w.f == f
    ensures StmtSim(k, At(k, a, [], f, st), L, L, f, a, a, t, [], R.Ok(R.Normal, st), w, fuel)
  {
    hide Runs;
    RunsRefl(k.p, At(k, a, [], f, st));
  }

  lemma {:induction false} SimBlock(k: Ctx, fuel: nat, ss: seq<Stmt>, lc: R.Loop, L: seq<Local>, a: nat, t: Targets,
                                    f: seq<Value>, st: R.St)
    returns (w: Wit)
    requires Linked(k.p, k.src) && StmtsAt(k, ss, lc, L, a, t) && Setting(k, L, f, st)
    ensures StmtSim(k, At(k, a, [], f, st), L, L, f, a, a + BlockSize(ss, k.src.sigs), t,
                    RangesIn(ss, k.src.sigs, a), R.ExecBlock(k.src, fuel, Depth(k), ss, lc, st), w, fuel)
    decreases fuel, 1, ss, 2
  {
    hide *;
    w := SimStmts(k, fuel, ss, lc, L, a, t, f, st);
    AfterAllExtends(ss, L);
    ExecOfBlock(k, fuel, ss, lc, st);
    StmtShrinks(k, At(k, a, [], f, st), L, AfterAll(ss, L), f, a, a + BlockSize(ss, k.src.sigs), t,
                RangesIn(ss, k.src.sigs, a), R.ExecStmts(k.src, fuel, Depth(k), ss, lc, st), st, w, fuel);
  }

  // ─── Loops ─────────────────────────────────────────────────────────────────

  lemma {:induction false} SimWhile(k: Ctx, fuel: nat, cond: Expr, body: seq<Stmt>, L: seq<Local>, a: nat, b: nat,
                                    e: nat, t: Targets, f: seq<Value>, st: R.St)
    returns (w: Wit)
    requires Linked(k.p, k.src) && WhileAt(k, cond, body, L, a, b, e) && Setting(k, L, f, st)
    ensures StmtSim(k, At(k, a, [], f, st), L, L, f, a, e + 1, t, RangesIn(body, k.src.sigs, b + 1),
                    R.ExecWhile(k.src, fuel, Depth(k), cond, body, st), w, fuel)
    decreases fuel, 1, body, 4
  {
    hide *;
    HostsAgree(k);
    FrameSize(k, L, f, st);
    WhileFacts(k, cond, body, L, a, b, e);
    var r := ExecOfWhile(k, fuel, cond, body, st);
    var c, rs := At(k, a, [], f, st), RangesIn(body, k.src.sigs, b + 1);
    w := SimExpr(k, fuel, cond, L, a, [], f, st);
    if r.Stopped? || !Truthy(k.p.host, r.value, r.st.world) {
      TestEnds(k, c, L, f, a, b, e + 1, t, rs, r, w, fuel);
    } else {
      ExprGives(k, c, [], L, f, a, b, r, w, fuel);
      w := SimWhileTurn(k, fuel, cond, body, L, a, b, e, t, f, r.value, w.f, r.st, c);
    }
  }

  /** A turn of the loop, whose test has just put true value `v` on the stack. */
  lemma {:induction false} SimWhileTurn(k: Ctx, fuel: nat, cond: Expr, body: seq<Stmt>, L: seq<Local>, a: nat, b: nat,
                                        e: nat, t: Targets, f: seq<Value>, v: Value, g: seq<Value>, st: R.St, c: Cfg)
    returns (w: Wit)
    requires Linked(k.p, k.src) && WhileAt(k, cond, body, L, a, b, e) && Setting(k, L, g, st) && Keeps(L, f, g)
    requires Runs(k.p, c, At(k, b, [] + [v], g, st)) && Truthy(k.p.host, v, st.world)
    ensures var r1 := R.ExecBlock(k.src, fuel, Depth(k), body, R.InWhile, st);
            StmtSim(k, c, L, L, f, a, e + 1, t, RangesIn(body, k.src.sigs, b + 1),
                    if !GoesRound(r1) then LeftLoop(r1)
                    else if Round(r1).Stopped? then R.Stopped(Round(r1).why)
                    else if fuel == 0 then R.Stopped(R.NoFuel)
                    else R.ExecWhile(k.src, fuel - 1, Depth(k), cond, body, Round(r1).st), w, fuel)
    decreases fuel, 1, body, 3
  {
    hide *;
    FrameSize(k, L, g, st);
    WhileFacts(k, cond, body, L, a, b, e);
    var rs := RangesIn(body, k.src.sigs, b + 1);
    var c1, d := At(k, b, [] + [v], g, st), At(k, b + 1, [], g, st);
    StepJumpIfFalse(k, b, [], g, st, e + 1, v);
    RunsTrans(k.p, c, c1, d);
    w := SimBlock(k, fuel, body, R.InWhile, L, b + 1, Targets(e + 1, a), g, st);
    var r1 := R.ExecBlock(k.src, fuel, Depth(k), body, R.InWhile, st);
    if !GoesRound(r1) {
      BodyLeaves(k, c, d, L, f, g, a, b + 1, e, e + 1, a, t, rs, r1, w, fuel);
    } else {
      var w1 := WhileRound(k, d, L, g, a, b, e, t, rs, r1, w, fuel);
      if Round(r1).Stopped? {
        StmtLater(k, c, d, L, L, f, g, a, a, e + 1, t, rs, R.Stopped(Round(r1).why), w1, fuel);
        w := w1;
      } else if fuel == 0 {
        LaterNoFuel(k, c, b, [] + [v], g, st, L, f, a, e + 1, t, rs, w);
      } else {
        var h, st1 := w.f, Round(r1).st;
        KeepsTrans(L, f, g, h);
        w := SimWhile(k, fuel - 1, cond, body, L, a, b, e, t, h, st1);
        LoopGoesOn(k, c, b, v, At(k, a, [], h, st1), L, f, g, h, a, e + 1, t, rs, st, e + 1,
                   R.ExecWhile(k.src, fuel - 1, Depth(k), cond, body, st1), w, fuel);
      }
    }
  }

  lemma {:induction false} SimForStmt(k: Ctx, fuel: nat, s: Stmt, lc: R.Loop, L: seq<Local>, a: nat, t: Targets,
                                      f: seq<Value>, st: R.St)
    returns (w: Wit)
    requires s.For?
    requires Linked(k.p, k.src) && StmtAt(k, s, lc, L, a, t) && Setting(k, L, f, st)
    ensures StmtSim(k, At(k, a, [], f, st), L, After(s, L), f, a, a + StmtSize(s, k.src.sigs),
                    t, Ranges(s, k.src.sigs, a),
                    R.ExecStmt(k.src, fuel, Depth(k), s, lc, st), w, fuel)
    decreases fuel, 1, s, 0
  {
    hide *;
    HostsAgree(k);
    FrameSize(k, L, f, st);
    var b, e := ForParts(k, s, lc, L, a, t);
    var r := ExecOfForStmt(k, fuel, s, lc, st);
    var c, rs := At(k, a, [], f, st), Ranges(s, k.src.sigs, a);
    w := SimExpr(k, fuel, s.iterable, L, a, [], f, st);
    if r.Stopped? {
      StmtStops(k, c, [], L, L, f, a, b, e + 5, t, rs, r, w, fuel);
    } else {
      ExprGives(k, c, [], L, f, a, b, r, w, fuel);
      var g := w.f;
      var c1 := At(k, b, [] + [r.value], g, r.st);
      w := ForHeadRuns(k, L, g, b, r.st, r.value, fuel);
      var r1 := R.Lift(IterList(r.value, r.st.world), r.st);
      if r1.Stopped? {
        HeadStops(k, c, c1, L, f, g, a, b, b + 7, e + 5, t, rs, r1.why, w, fuel);
      } else {
        var h := w.f;
        var c2 := At(k, b + 7, [], h, r1.st);
        RunsTrans(k.p, c, c1, c2);
        KeepsTrans(L, f, g, h);
        var count := Wrap(|Items(r1.st.world.heap, R.ListAt(r1.value))|);
        w := SimFor(k, fuel, s, L, b + 7, e, t, h, r1.st, r1.value, 0, count);
        StmtLater(k, c, c2, L, L, f, h, a, b + 7, e + 5, t, rs,
                  R.ExecFor(k.src, fuel, Depth(k), s.name, s.body, r1.value, 0, count, r1.st), w, fuel);
      }
    }
  }

  /** The iterations of a `for` from index `i` on. */
  lemma {:induction false} SimFor(k: Ctx, fuel: nat, s: Stmt, L: seq<Local>, b: nat, e: nat, t: Targets, f: seq<Value>,
                                  st: R.St, l: Value, i: nat, count: int)
    returns (w: Wit)
    requires s.For? && count <= MAX_INT
    requires Linked(k.p, k.src) && ForAt(k, s, L, b, e) && Setting(k, L, f, st) && ForSlots(f, |L|, l, count, i)
    ensures StmtSim(k, At(k, b, [], f, st), L, L, f, b, e + 5, t, RangesIn(s.body, k.src.sigs, b + 8),
                    R.ExecFor(k.src, fuel, Depth(k), s.name, s.body, l, i, count, st), w, fuel)
    decreases fuel, 1, s.body, 4
  {
    hide *;
    FrameSize(k, L, f, st);
    ForFacts(k, s, L, b, e);
    var r := ExecOfFor(k, fuel, s.name, s.body, l, i, count, st);
    var c, rs := At(k, b, [], f, st), RangesIn(s.body, k.src.sigs, b + 8);
    ForTestRuns(k, L, f, b, e + 5, st, l, count, i);
    var c1 := At(k, b + 3, [] + [Bool(i < count)], f, st);
    StepJumpIfFalse(k, b + 3, [], f, st, e + 5, Bool(i < count));
    if i >= count {
      w := Wit(0, [], f);
      RunsTrans(k.p, c, c1, At(k, e + 5, [], f, st));
      LoopOver(k, c, L, f, b, e + 5, t, rs, st, w, fuel);
    } else {
      var d := At(k, b + 4, [], f, st);
      RunsTrans(k.p, c, c1, d);
      w := ForElementRuns(k, s, L, f, b, e + 5, st, l, count, i, fuel);
      if r.Stopped? {
        KeepsRefl(L, f);
        HeadStops(k, c, d, L, f, f, b, b + 4, b + 8, e + 5, t, rs, r.why, w, fuel);
      } else {
        var g := w.f;
        w := SimForTurn(k, fuel, s, L, b, e, t, f, g, st, r, l, i, count, c, d);
      }
    }
  }

  /** The body of an iteration and what follows; the element is in its slot. */
  lemma {:induction false} SimForTurn(k: Ctx, fuel: nat, s: Stmt, L: seq<Local>, b: nat, e: nat, t: Targets,
                                      f: seq<Value>, g: seq<Value>, st0: R.St, r: R.Res<Value>, l: Value, i: nat,
                                      count: int, c: Cfg, d: Cfg)
    returns (w: Wit)
    requires s.For? && i < count <= MAX_INT && r.Ok? && Linked(k.p, k.src) && ForAt(k, s, L, b, e)
    requires Setting(k, L, f, st0) && Setting(k, L, g, r.st) && ForSlots(g, |L|, l, count, i) && Keeps(L, f, g)
    requires Setting(k, ForLocals(s, L), g, r.st.(env := r.st.env + [R.Binding(s.name, r.value)]))
             && r.st.env == st0.env
    requires d == At(k, b + 4, [], f, st0) && Runs(k.p, d, At(k, b + 8, [], g, r.st))
    requires Runs(k.p, c, At(k, b + 3, [] + [Bool(i < count)], f, st0)) && Runs(k.p, c, d)
    requires Truthy(k.p.host, Bool(i < count), st0.world)
    ensures var r1 := R.Shrink(R.ExecBlock(k.src, fuel, Depth(k), s.body, R.InFor(true),
                                           r.st.(env := r.st.env + [R.Binding(s.name, r.value)])), |st0.env|);
            StmtSim(k, c, L, L, f, b, e + 5, t, RangesIn(s.body, k.src.sigs, b + 8),
                    if !GoesRound(r1) then LeftLoop(r1)
                    else if R.Tick(r1.st).Stopped? then R.Stopped(R.Tick(r1.st).why)
                    else if fuel == 0 then R.Stopped(R.NoFuel)
                    else R.ExecFor(k.src, fuel - 1, Depth(k), s.name, s.body, l, i + 1, count, R.Tick(r1.st).st),
                    w, fuel)
    decreases fuel, 1, s.body, 3
  {
    hide *;
    FrameSize(k, L, g, r.st);
    ForFacts(k, s, L, b, e);
    var M, rs := ForLocals(s, L), RangesIn(s.body, k.src.sigs, b + 8);
    var st1 := r.st.(env := r.st.env + [R.Binding(s.name, r.value)]);
    var c1, d1 := At(k, b + 3, [] + [Bool(i < count)], f, st0), At(k, b + 8, [], g, st1);
    SameAt(k, b + 8, [], g, r.st, st1);
    var tt := Targets(e + 5, e);
    w := SimBlock(k, fuel, s.body, R.InFor(true), M, b + 8, tt, g, st1);
    var rb := R.ExecBlock(k.src, fuel, Depth(k), s.body, R.InFor(true), st1);
    var r1 := R.Shrink(rb, |st0.env|);
    StmtOuter(k, d1, L, M, g, b + 8, e, tt, rs, rb, r.st, w, fuel);
    RunsTrans(k.p, c, d, d1);
    if !GoesRound(r1) {
      BodyLeaves(k, c, d1, L, f, g, b, b + 8, e, e + 5, e, t, rs, r1, w, fuel);
    } else {
      RoundKeeps(k, d1, M, g, b + 8, e, tt, rs, rb, |st0.env|, w, fuel);
      var h, st2 := w.f, r1.st;
      ForSlotsKept(s, L, g, h, l, count, i);
      RoundArrives(k, d1, L, g, b + 8, e, e + 5, rs, r1, w, fuel);
      var w1 := ForNextRuns(k, L, h, e, b, st2, l, count, i);
      var h1 := w1.f;
      RunsTrans(k.p, d1, At(k, e, [], h, st2), At(k, e + 4, [], h1, st2));
      KeepsTrans(L, f, g, h);
      KeepsTrans(L, f, h, h1);
      RunsTrans(k.p, c, d1, At(k, e + 4, [], h1, st2));
      var w2 := BackJump(k, c, L, f, h1, b, e + 4, b, t, rs, st2, fuel);
      if R.Tick(st2).Stopped? {
        w := w2;
      } else if fuel == 0 {
        LaterNoFuel(k, c, e + 4, [], h1, st2, L, f, b, e + 5, t, rs, w);
      } else {
        var st3 := R.Tick(st2).st;
        w := SimFor(k, fuel - 1, s, L, b, e, t, h1, st3, l, i + 1, count);
        var w3 := BackJump(k, d, L, f, h1, b, e + 4, b, t, rs, st2, fuel) by {
          RunsTrans(k.p, d, d1, At(k, e + 4, [], h1, st2));
        }
        LoopGoesOn(k, c, b + 3, Bool(i < count), At(k, b, [], h1, st3), L, f, f, h1, b, e + 5, t, rs, st0, e + 5,
                   R.ExecFor(k.src, fuel - 1, Depth(k), s.name, s.body, l, i + 1, count, st3), w, fuel);
      }
    }
  }

  // ─── try ───────────────────────────────────────────────────────────────────

  lemma {:induction false} SimTry(k: Ctx, fuel: nat, s: Stmt, lc: R.Loop, L: seq<Local>, a: nat, t: Targets,
                                  f: seq<Value>, st: R.St)
    returns (w: Wit)
    requires s.Try?
    requires Linked(k.p, k.src) && StmtAt(k, s, lc, L, a, t) && Setting(k, L, f, st)
    ensures StmtSim(k, At(k, a, [], f, st), L, After(s, L), f, a, a + StmtSize(s, k.src.sigs),
                    t, Ranges(s, k.src.sigs, a),
                    R.ExecStmt(k.src, fuel, Depth(k), s, lc, st), w, fuel)
    decreases fuel, 1, s, 0
  {
    hide *;
    FrameSize(k, L, f, st);
    var own, rs1, rs2, end := TryParts(k, s, lc, L, a, t);
    var r := ExecOfTry(k, fuel, s, lc, st);
    var c := At(k, a, [], f, st);
    w := SimBlock(k, fuel, s.body, R.NotLast(lc), L, a, t, f, st);
    if r.Stopped? && r.why.Err? {
      var st1, e := r.why.at, r.why.error;
      ErrorGives(k, c, L, f, a, own.end, t, rs1, r, w, fuel);
      var g := CatchRuns(k, c, L, f, own, end, rs1, rs2, s.name, e, st1, w);
      var M, st2 := CatchLocals(s.name, L), Caught(st1, s.name, e);
      w := SimStmts(k, fuel, s.orelse, lc, M, own.end + 2, t, g, st2);
      var r1 := R.ExecStmts(k.src, fuel, Depth(k), s.orelse, lc, st2);
      AfterAllExtends(s.orelse, M);
      HandlerRuns(k, c, L, M, AfterAll(s.orelse, M), f, g, own, end, t, rs1, rs2, st, st2, r1, w, fuel);
    } else {
      TryRuns(k, c, L, f, own, end, t, rs1, rs2, r, w, fuel);
    }
  }

  // ─── Declarations ──────────────────────────────────────────────────────────

  lemma {:induction false} SimDecl(k: Ctx, fuel: nat, decl: Decl, f: seq<Value>, st: R.St) returns (w: Wit)
    requires Linked(k.p, k.src) && DeclCode(k.ch, k.src.sigs, decl) && Setting(k, ParamLocals(decl.params), f, st)
    ensures DeclSim(k, At(k, 0, [], f, st), R.RunDecl(k.src, fuel, Depth(k), decl, st), w, fuel)
    decreases fuel, 2
  {
    hide *;
    var gs, L, b, end := DeclParts(k, decl);
    var r := ExecOfDecl(k, fuel, decl, st);
    var c := At(k, 0, [], f, st);
    FrameSize(k, L, f, st);
    w := SimStmts(k, fuel, gs, R.NoLoop, L, 0, NoTargets, f, st);
    StmtGives(k, c, L, L, f, 0, b, NoTargets, [], r, w, fuel);
    if r.Stopped? || r.value.Returning? {
      GuardsEnd(k, c, L, f, b, r, w, fuel);
    } else {
      OnlyNormal(k, c, L, L, f, 0, b, [], r, w, fuel);
      var g, st1 := w.f, r.st;
      FrameSize(k, L, g, st1);
      w := SimBlock(k, fuel, decl.body, R.NoLoop, L, b, NoTargets, g, st1);
      BodyEnds(k, c, At(k, b, [], g, st1), L, f, g, b, end,
               R.ExecBlock(k.src, fuel, Depth(k), decl.body, R.NoLoop, st1),
               w, fuel);
    }
  }
}
