/** Compiled code fits the depths of its tree. */
module Flowing {
  import opened Wrappers
  import opened Values
  import opened Ast
  import opened Bytecode
  import opened Machine
  import opened Layout
  import opened Stability
  import opened StmtParts
  import opened Patching
  import opened Composition
  import opened Heights
  import R = Reference

  lemma FlowsJoin(p: Program, ch: Chunk, H: seq<nat>, lo: nat, mid: nat, hi: nat)
    requires Flows(p, ch, H, lo, mid) && Flows(p, ch, H, mid, hi)
    ensures Flows(p, ch, H, lo, hi)
  {
    hide Flow;
  }

  lemma FlowsOne(p: Program, ch: Chunk, H: seq<nat>, pc: nat)
    requires Flow(p, ch, H, pc)
    ensures Flows(p, ch, H, pc, pc + 1)
  {
    hide Flow;
  }

  /** Parts [lo, b), b, [b + 1, hi). */
  lemma FlowsAround(p: Program, ch: Chunk, H: seq<nat>, lo: nat, b: nat, hi: nat)
    requires Flows(p, ch, H, lo, b) && Flow(p, ch, H, b) && Flows(p, ch, H, b + 1, hi) && b + 1 <= hi
    ensures Flows(p, ch, H, lo, hi)
  {
    hide Flow;
  }

  // ─── Expressions ───────────────────────────────────────────────────────────

  lemma HeightsByKind(e: Expr, sg: Sigs, d: nat)
    ensures ExprHeights(e, sg, d) ==
            if e.Ternary? then
              ExprHeights(e.cond, sg, d) + [d + 1] + ExprHeights(e.yes, sg, d) + [d + 1] + ExprHeights(e.no, sg, d)
            else if e.Step? then StepHeights(e.post, e.target, sg, d)
            else if R.IsShortCircuit(e) then ExprHeights(e.lhs, sg, d) + [d + 1] + ExprHeights(e.rhs, sg, d)
            else if R.IsOperationExpr(e) then ListHeights(R.Operands(e, sg), sg, d) + [d + |R.Operands(e, sg)|]
            else [d]
    ensures e.Lit? || e.Ident? || e.This? ==> ExprHeights(e, sg, d) == [d]
  {
    hide StepHeights, ListHeights, R.Operands;
  }

  /** A single instruction that pushes. */
  lemma PushFlows(p: Program, ch: Chunk, H: seq<nat>, a: nat, d: nat)
    requires |H| == |ch.code| && a + 1 < |H| && HasPart(H, a, [d]) && H[a + 1] == d + 1
    requires (ch.code[a].OpConst? && ch.code[a].k < |ch.constants|)
             || (ch.code[a].OpLoadLocal? && ch.code[a].slot < ch.numLocals)
    ensures Flows(p, ch, H, a, a + 1)
  {
    PartAt(H, a, [d], 0);
  }

  lemma ConstAt(ch: Chunk, a: nat, v: Value)
    requires HasConst(ch, a, v)
    ensures a < |ch.code| && ch.code[a].OpConst? && ch.code[a].k < |ch.constants|
  {
  }

  lemma LoadAt(ch: Chunk, a: nat, L: seq<Local>, name: string)
    requires HasLoad(ch, a, L, name)
    ensures a < |ch.code| && ch.code[a].OpLoadLocal? && ch.code[a].slot < ch.numLocals
  {
  }

  /** Expression code started with `d` operands ends with `d + 1`, and never has fewer
    than `d`. */
  lemma {:induction false} ExprFlows(p: Program, src: R.Source, ch: Chunk, H: seq<nat>, e: Expr, L: seq<Local>, a: nat,
                                     d: nat, end: nat)
    requires Linked(p, src) && ExprCode(ch, src.sigs, e, L, a) && |H| == |ch.code|
    requires HasPart(H, a, ExprHeights(e, src.sigs, d)) && end == a + ExprSize(e, src.sigs)
    requires end < |H| && H[end] == d + 1
    ensures Flows(p, ch, H, a, end)
    decreases Weight(e), 0
  {
    hide *;
    var sg := src.sigs;
    CodeByKind(ch, sg, e, L, a);
    SizeByKind(e, sg);
    WeightByKind(e);
    HeightsByKind(e, sg, d);
    if e.Lit? {
      ConstAt(ch, a, LiteralValue(e.lit));
      PushFlows(p, ch, H, a, d);
    } else if e.Ident? {
      LoadAt(ch, a, L, e.name);
      PushFlows(p, ch, H, a, d);
    } else if e.This? {
      LoadAt(ch, a, L, "this");
      PushFlows(p, ch, H, a, d);
    } else if e.Ternary? {
      TernaryFlows(p, src, ch, H, e.cond, e.yes, e.no, L, a, d, end);
    } else if e.Step? {
      StepFlows(p, src, ch, H, e.post, e.plus, e.target, L, a, d, end);
    } else if R.IsShortCircuit(e) {
      ShortCircuitFlows(p, src, ch, H, e.bop.Or?, e.lhs, e.rhs, L, a, d, end);
    } else if R.IsOperationExpr(e) {
      OperationFlows(p, src, ch, H, e, L, a, d, end);
    }
  }

  lemma TernaryJumps(p: Program, ch: Chunk, H: seq<nat>, b: nat, c: nat, end: nat, d: nat)
    requires |H| == |ch.code| && b + 1 <= c < c + 1 < end < |H| && Has(ch, b, OpJumpIfFalse(c + 1))
             && Has(ch, c, OpJump(end))
    requires H[b] == d + 1 && H[b + 1] == d && H[c] == d + 1 && H[c + 1] == d && H[end] == d + 1
    ensures Flow(p, ch, H, b) && Flow(p, ch, H, c)
  {
  }

  lemma {:induction false} TernaryFlows(p: Program, src: R.Source, ch: Chunk, H: seq<nat>, cond: Expr, yes: Expr,
                                        no: Expr, L: seq<Local>, a: nat, d: nat, end: nat)
    requires Linked(p, src) && TernaryCode(ch, src.sigs, cond, yes, no, L, a) && |H| == |ch.code|
    requires HasPart(H, a, ExprHeights(cond, src.sigs, d) + [d + 1] + ExprHeights(yes, src.sigs, d) + [d + 1]
                         + ExprHeights(no, src.sigs, d))
    requires end == a + ExprSize(cond, src.sigs) + 1 + ExprSize(yes, src.sigs) + 1 + ExprSize(no, src.sigs)
    requires end < |H| && H[end] == d + 1
    ensures Flows(p, ch, H, a, end)
    decreases Weight(cond) + Weight(yes) + Weight(no) + 1, 0
  {
    hide *;
    var sg := src.sigs;
    var b := a + ExprSize(cond, sg);
    var c := b + 1 + ExprSize(yes, sg);
    var x, y, z := ExprHeights(cond, sg, d), ExprHeights(yes, sg, d), ExprHeights(no, sg, d);
    ExprHeightsSize(cond, sg, d);
    ExprHeightsSize(yes, sg, d);
    ExprHeightsSize(no, sg, d);
    PartsOfPart(H, a, x + [d + 1] + y + [d + 1], z);
    PartsOfPart(H, a, x + [d + 1] + y, [d + 1]);
    PartsOfPart(H, a, x + [d + 1], y);
    PartsOfPart(H, a, x, [d + 1]);
    PartAt(H, b, [d + 1], 0);
    PartAt(H, b + 1, y, 0);
    PartAt(H, c, [d + 1], 0);
    PartAt(H, c + 1, z, 0);
    TernaryParts(ch, sg, cond, yes, no, L, a, b, c);
    TernaryJumps(p, ch, H, b, c, end, d);
    ExprFlows(p, src, ch, H, cond, L, a, d, b);
    ExprFlows(p, src, ch, H, yes, L, b + 1, d, c);
    ExprFlows(p, src, ch, H, no, L, c + 1, d, end);
    FlowsAround(p, ch, H, b + 1, c, end);
    FlowsAround(p, ch, H, a, b, end);
  }

  lemma PeekFlow(p: Program, ch: Chunk, H: seq<nat>, b: nat, end: nat, d: nat, isOr: bool)
    requires |H| == |ch.code| && b + 1 < end < |H| && H[b] == d + 1 && H[b + 1] == d && H[end] == d + 1
    requires Has(ch, b, if isOr then OpJumpIfTruePeek(end) else OpJumpIfFalsePeek(end))
    ensures Flow(p, ch, H, b)
  {
  }

  lemma {:induction false} ShortCircuitFlows(p: Program, src: R.Source, ch: Chunk, H: seq<nat>, isOr: bool, lhs: Expr,
                                             rhs: Expr, L: seq<Local>, a: nat, d: nat, end: nat)
    requires Linked(p, src) && ShortCircuitCode(ch, src.sigs, isOr, lhs, rhs, L, a) && |H| == |ch.code|
    requires HasPart(H, a, ExprHeights(lhs, src.sigs, d) + [d + 1] + ExprHeights(rhs, src.sigs, d))
    requires end == a + ExprSize(lhs, src.sigs) + 1 + ExprSize(rhs, src.sigs) && end < |H| && H[end] == d + 1
    ensures Flows(p, ch, H, a, end)
    decreases Weight(lhs) + Weight(rhs) + 1, 0
  {
    hide *;
    var sg := src.sigs;
    var b := a + ExprSize(lhs, sg);
    var x, y := ExprHeights(lhs, sg, d), ExprHeights(rhs, sg, d);
    ExprHeightsSize(lhs, sg, d);
    ExprHeightsSize(rhs, sg, d);
    PartsOfPart(H, a, x + [d + 1], y);
    PartsOfPart(H, a, x, [d + 1]);
    PartAt(H, b, [d + 1], 0);
    PartAt(H, b + 1, y, 0);
    ShortCircuitParts(ch, sg, isOr, lhs, rhs, L, a, b, end);
    PeekFlow(p, ch, H, b, end, d, isOr);
    ExprFlows(p, src, ch, H, lhs, L, a, d, b);
    ExprFlows(p, src, ch, H, rhs, L, b + 1, d, end);
    FlowsAround(p, ch, H, a, b, end);
  }

  lemma {:induction false} ListFlows(p: Program, src: R.Source, ch: Chunk, H: seq<nat>, es: seq<Expr>, L: seq<Local>,
                                     a: nat, d: nat, end: nat)
    requires Linked(p, src) && ListCode(ch, src.sigs, es, L, a) && |H| == |ch.code|
    requires HasPart(H, a, ListHeights(es, src.sigs, d)) && end == a + ListSize(es, src.sigs)
    requires end < |H| && H[end] == d + |es|
    ensures Flows(p, ch, H, a, end)
    decreases WeightList(es), |es| + 1
  {
    hide *;
    var sg := src.sigs;
    ListHeightsParts(es, sg, d);
    if es == [] {
      NoFlows(p, ch, H, a);
    } else {
      var b := a + ExprSize(es[0], sg);
      ListParts(ch, sg, es, L, a);
      ListWeight(es);
      ExprHeightsSize(es[0], sg, d);
      PartsOfPart(H, a, ExprHeights(es[0], sg, d), ListHeights(es[1..], sg, d + 1));
      ListHeightsSize(es[1..], sg, d + 1);
      if es[1..] == [] {
        assert b == end by { ListHeightsParts(es[1..], sg, d + 1); }
      } else {
        PartAt(H, b, ListHeights(es[1..], sg, d + 1), 0);
      }
      ExprFlows(p, src, ch, H, es[0], L, a, d, b);
      ListFlows(p, src, ch, H, es[1..], L, b, d + 1, end);
      FlowsJoin(p, ch, H, a, b, end);
    }
  }

  lemma ListHeightsParts(es: seq<Expr>, sg: Sigs, d: nat)
    ensures es == [] ==> ListHeights(es, sg, d) == [] && ListSize(es, sg) == 0
    ensures es != [] ==> ListHeights(es, sg, d) == ExprHeights(es[0], sg, d) + ListHeights(es[1..], sg, d + 1)
  {
    hide ExprHeights;
  }

  lemma ListWeight(es: seq<Expr>)
    requires es != []
    ensures Weight(es[0]) <= WeightList(es) && WeightList(es[1..]) <= WeightList(es)
  {
    hide Weight;
  }

  lemma NoFlows(p: Program, ch: Chunk, H: seq<nat>, a: nat)
    ensures Flows(p, ch, H, a, a)
  {
  }

  lemma {:induction false} OperationFlows(p: Program, src: R.Source, ch: Chunk, H: seq<nat>, e: Expr, L: seq<Local>,
                                          a: nat, d: nat, end: nat)
    requires R.IsOperationExpr(e) && Linked(p, src) && OperationCode(ch, src.sigs, e, L, a) && |H| == |ch.code|
    requires HasPart(H, a, ListHeights(R.Operands(e, src.sigs), src.sigs, d) + [d + |R.Operands(e, src.sigs)|])
    requires end == a + ListSize(R.Operands(e, src.sigs), src.sigs) + 1 && end < |H| && H[end] == d + 1
    ensures Flows(p, ch, H, a, end)
    decreases Weight(e), -1
  {
    hide *;
    var sg := src.sigs;
    var es := R.Operands(e, sg);
    var b := a + ListSize(es, sg);
    ListHeightsSize(es, sg, d);
    PartsOfPart(H, a, ListHeights(es, sg, d), [d + |es|]);
    PartAt(H, b, [d + |es|], 0);
    OperationParts(ch, sg, e, L, a, es);
    ListFlows(p, src, ch, H, es, L, a, d, b);
    OperationFlow(p, src, ch, H, e, L, b, d);
    FlowsOne(p, ch, H, b);
    FlowsJoin(p, ch, H, a, b, end);
  }

  /** The instruction of an operation takes as many operands as the operation has. */
  lemma OperationFlow(p: Program, src: R.Source, ch: Chunk, H: seq<nat>, e: Expr, L: seq<Local>, b: nat, d: nat)
    requires R.IsOperationExpr(e) && Linked(p, src) && HasOperation(ch, b, src.sigs, e, L) && |H| == |ch.code|
    requires b + 1 < |H| && H[b] == d + |R.Operands(e, src.sigs)| && H[b + 1] == d + 1
    ensures Flow(p, ch, H, b)
  {
    if R.IsCall(e) {
      CallFlow(p, src, ch, H, R.TheCall(e), b, d);
    } else {
      hide Linked;
      FlattenSize(e);
    }
  }

  lemma FlattenSize(e: Expr)
    ensures e.DictLit? ==> |Flatten(e.entries)| == 2 * |e.entries|
  {
  }

  lemma CallFlow(p: Program, src: R.Source, ch: Chunk, H: seq<nat>, c: Expr, b: nat, d: nat)
    requires c.Call? && Linked(p, src) && HasCall(ch, b, src.sigs, c) && |H| == |ch.code|
    requires b + 1 < |H| && H[b] == d + |R.CallOperands(c, src.sigs)| && H[b + 1] == d + 1
    ensures Flow(p, ch, H, b)
  {
    hide R.CallOperands, DeclCode;
    if Resolve(c.callee, src.sigs).UserFn? {
      var sig := Resolve(c.callee, src.sigs).sig;
      assert SigMatches(src, sig);
      if sig.index < |p.functions| {
        assert DeclCode(p.functions[sig.index], src.sigs, src.decls[sig.index]);
        ParamsFit(p.functions[sig.index], src.sigs, src.decls[sig.index]);
      }
    }
  }

  lemma ParamsFit(ch: Chunk, sg: Sigs, decl: Decl)
    requires DeclCode(ch, sg, decl)
    ensures |decl.params| <= ch.numLocals
  {
    hide StmtsCode, RangesIn;
  }

  // ─── Single instructions ───────────────────────────────────────────────────

  lemma Stores(p: Program, ch: Chunk, H: seq<nat>, pc: nat, slot: nat)
    requires |H| == |ch.code| && Has(ch, pc, OpStoreLocal(slot)) && slot < ch.numLocals
    requires pc + 1 < |H| && H[pc] == H[pc + 1] + 1
    ensures Flow(p, ch, H, pc)
  {
  }

  lemma Loads(p: Program, ch: Chunk, H: seq<nat>, pc: nat, slot: nat)
    requires |H| == |ch.code| && Has(ch, pc, OpLoadLocal(slot)) && slot < ch.numLocals
    requires pc + 1 < |H| && H[pc + 1] == H[pc] + 1
    ensures Flow(p, ch, H, pc)
  {
  }

  lemma Constants(p: Program, ch: Chunk, H: seq<nat>, pc: nat, v: Value)
    requires |H| == |ch.code| && HasConst(ch, pc, v) && pc + 1 < |H| && H[pc + 1] == H[pc] + 1
    ensures Flow(p, ch, H, pc)
  {
  }

  lemma Pops(p: Program, ch: Chunk, H: seq<nat>, pc: nat)
    requires |H| == |ch.code| && Has(ch, pc, OpPop) && pc + 1 < |H| && H[pc] == H[pc + 1] + 1
    ensures Flow(p, ch, H, pc)
  {
  }

  lemma Operates(p: Program, ch: Chunk, H: seq<nat>, pc: nat, op: Instr)
    requires |H| == |ch.code| && Has(ch, pc, op) && IsOperation(op)
    requires pc + 1 < |H| && Arity(op) <= H[pc] && H[pc] + 1 == H[pc + 1] + Arity(op)
    ensures Flow(p, ch, H, pc)
  {
  }

  lemma Steps(p: Program, ch: Chunk, H: seq<nat>, pc: nat, plus: bool)
    requires |H| == |ch.code| && Has(ch, pc, StepInstr(plus)) && pc + 1 < |H| && H[pc] == H[pc + 1] + 1 && H[pc] >= 2
    ensures Flow(p, ch, H, pc)
  {
  }

  lemma Members(p: Program, ch: Chunk, H: seq<nat>, x: nat, y: nat, f: string)
    requires |H| == |ch.code| && HasGetMember(ch, x, f) && HasSetMember(ch, y, f) && x + 1 < |H| && y + 1 < |H|
    requires H[x] == H[x + 1] >= 1 && H[y] == H[y + 1] + 1 && H[y] >= 2
    ensures Flow(p, ch, H, x) && Flow(p, ch, H, y)
  {
  }

  // ─── Steps ─────────────────────────────────────────────────────────────────

  lemma StepHeightsParts(post: bool, t: Expr, sg: Sigs, d: nat)
    ensures t.Member? ==> StepHeights(post, t, sg, d) == ExprHeights(t.obj, sg, d) + FieldHeights(post, d)
    ensures t.Index? ==> StepHeights(post, t, sg, d)
                         == ExprHeights(t.obj, sg, d) + [d + 1] + ExprHeights(t.index, sg, d) + ElementHeights(post, d)
    ensures t.Ident? ==> StepHeights(post, t, sg, d)
                         == if post then [d, d + 1, d + 2, d + 3, d + 2] else [d, d + 1, d + 2, d + 1, d]
    ensures |FieldHeights(post, d)| == (if post then 11 else 9) && FieldHeights(post, d)[0] == d + 1
    ensures |ElementHeights(post, d)| == (if post then 13 else 11) && ElementHeights(post, d)[0] == d + 1
  {
    hide ExprHeights;
  }

  lemma {:induction false} StepFlows(p: Program, src: R.Source, ch: Chunk, H: seq<nat>, post: bool, plus: bool, t: Expr,
                                     L: seq<Local>, a: nat, d: nat, end: nat)
    requires Linked(p, src) && StepCode(ch, src.sigs, post, plus, t, L, a) && |H| == |ch.code|
    requires HasPart(H, a, StepHeights(post, t, src.sigs, d)) && end == a + StepSize(post, t, src.sigs)
    requires end < |H| && H[end] == d + 1
    ensures Flows(p, ch, H, a, end)
    decreases Weight(t) + 1, 0
  {
    hide *;
    var sg := src.sigs;
    StepParts(ch, sg, post, plus, t, L, a);
    StepHeightsParts(post, t, sg, d);
    WeightByKind(t);
    if t.Ident? {
      NameStepFlows(p, ch, H, post, plus, t.name, L, a, d);
    } else if t.Member? {
      var b := a + ExprSize(t.obj, sg);
      ExprHeightsSize(t.obj, sg, d);
      PartsOfPart(H, a, ExprHeights(t.obj, sg, d), FieldHeights(post, d));
      PartAt(H, b, FieldHeights(post, d), 0);
      ExprFlows(p, src, ch, H, t.obj, L, a, d, b);
      FieldStepFlows(p, ch, H, post, plus, t.field, |L|, b, d);
      FlowsJoin(p, ch, H, a, b, end);
    } else {
      var c := a + ExprSize(t.obj, sg);
      var b := c + 1 + ExprSize(t.index, sg);
      var x, y, z := ExprHeights(t.obj, sg, d), ExprHeights(t.index, sg, d), ElementHeights(post, d);
      ExprHeightsSize(t.obj, sg, d);
      ExprHeightsSize(t.index, sg, d);
      PartsOfPart(H, a, x + [d + 1] + y, z);
      PartsOfPart(H, a, x + [d + 1], y);
      PartsOfPart(H, a, x, [d + 1]);
      PartAt(H, c, [d + 1], 0);
      PartAt(H, c + 1, y, 0);
      PartAt(H, b, z, 0);
      ExprFlows(p, src, ch, H, t.obj, L, a, d, c);
      StoreFlow(p, ch, H, c, post, plus, |L|, b, d);
      ExprFlows(p, src, ch, H, t.index, L + [CONTAINER], c + 1, d, b);
      ElementStepFlows(p, ch, H, post, plus, |L|, b, d);
      FlowsJoin(p, ch, H, c + 1, b, end);
      FlowsAround(p, ch, H, a, c, end);
    }
  }

  lemma StoreFlow(p: Program, ch: Chunk, H: seq<nat>, c: nat, post: bool, plus: bool, n: nat, b: nat, d: nat)
    requires |H| == |ch.code| && Has(ch, c, OpStoreLocal(n)) && ElementStepCode(ch, post, plus, n, b)
    requires c + 1 < |H| && H[c] == d + 1 && H[c + 1] == d
    ensures Flow(p, ch, H, c)
  {
  }

  lemma NameLoads(p: Program, ch: Chunk, H: seq<nat>, pc: nat, L: seq<Local>, name: string)
    requires |H| == |ch.code| && HasLoad(ch, pc, L, name) && pc + 1 < |H| && H[pc + 1] == H[pc] + 1
    ensures Flow(p, ch, H, pc)
  {
    hide ResolveLocal, Hidden;
  }

  lemma NameStores(p: Program, ch: Chunk, H: seq<nat>, pc: nat, L: seq<Local>, name: string)
    requires |H| == |ch.code| && HasStore(ch, pc, L, name) && pc + 1 < |H| && H[pc] == H[pc + 1] + 1
    ensures Flow(p, ch, H, pc)
  {
    hide ResolveLocal, Hidden;
  }

  lemma NameDepths(H: seq<nat>, post: bool, a: nat, d: nat)
    requires HasPart(H, a, if post then [d, d + 1, d + 2, d + 3, d + 2] else [d, d + 1, d + 2, d + 1, d])
    ensures a + 5 <= |H| && H[a] == d && H[a + 1] == d + 1 && H[a + 2] == d + 2
    ensures H[a + 3] == (if post then d + 3 else d + 1) && H[a + 4] == if post then d + 2 else d
  {
    var part := if post then [d, d + 1, d + 2, d + 3, d + 2] else [d, d + 1, d + 2, d + 1, d];
    forall i | 0 <= i < 5
      ensures H[a + i] == part[i]
    {
      PartAt(H, a, part, i);
    }
    assert H[a + 0] == part[0];
  }

  lemma NameStepFlows(p: Program, ch: Chunk, H: seq<nat>, post: bool, plus: bool, name: string, L: seq<Local>, a: nat,
                      d: nat)
    requires |H| == |ch.code| && NameStepCode(ch, post, plus, name, L, a) && a + 5 < |H| && H[a + 5] == d + 1
    requires HasPart(H, a, if post then [d, d + 1, d + 2, d + 3, d + 2] else [d, d + 1, d + 2, d + 1, d])
    ensures Flows(p, ch, H, a, a + 5)
  {
    hide ResolveLocal, Hidden, Flow, HasConst, Has, HasPart;
    NameDepths(H, post, a, d);
    var b := if post then a + 1 else a;
    NameLoads(p, ch, H, a, L, name);
    NameLoads(p, ch, H, b, L, name);
    Constants(p, ch, H, b + 1, Int(1));
    Steps(p, ch, H, b + 2, plus);
    NameStores(p, ch, H, b + 3, L, name);
    if !post {
      NameLoads(p, ch, H, a + 4, L, name);
    }
  }

  lemma FieldStepFlows(p: Program, ch: Chunk, H: seq<nat>, post: bool, plus: bool, f: string, n: nat, b: nat, d: nat)
    requires |H| == |ch.code| && FieldStepCode(ch, post, plus, f, n, b) && HasPart(H, b, FieldHeights(post, d))
    requires b + (if post then 11 else 9) < |H| && H[b + (if post then 11 else 9)] == d + 1
    ensures Flows(p, ch, H, b, b + (if post then 11 else 9))
  {
    hide Flow, Has, HasConst, HasPart, FieldHeights;
    FieldDepths(H, post, b, d);
    Stores(p, ch, H, b, n);
    Loads(p, ch, H, b + 1, n);
    Members(p, ch, H, b + 2, b + 8, f);
    Stores(p, ch, H, b + 3, n + 1);
    Loads(p, ch, H, b + 4, n);
    Loads(p, ch, H, b + 5, n + 1);
    Constants(p, ch, H, b + 6, Int(1));
    Steps(p, ch, H, b + 7, plus);
    if post {
      Pops(p, ch, H, b + 9);
      Loads(p, ch, H, b + 10, n + 1);
    }
  }

  lemma FieldDepths(H: seq<nat>, post: bool, b: nat, d: nat)
    requires HasPart(H, b, FieldHeights(post, d))
    ensures b + (if post then 11 else 9) <= |H|
    ensures H[b] == d + 1 && H[b + 1] == d && H[b + 2] == d + 1 && H[b + 3] == d + 1 && H[b + 4] == d
            && H[b + 5] == d + 1
    ensures H[b + 6] == d + 2 && H[b + 7] == d + 3 && H[b + 8] == d + 2
    ensures post ==> H[b + 9] == d + 1 && H[b + 10] == d
  {
    var part := FieldHeights(post, d);
    forall i | 0 <= i < |part|
      ensures H[b + i] == part[i]
    {
      PartAt(H, b, part, i);
    }
    assert H[b + 0] == part[0];
  }

  lemma ElementDepths(H: seq<nat>, post: bool, b: nat, d: nat)
    requires HasPart(H, b, ElementHeights(post, d))
    ensures b + (if post then 13 else 11) <= |H|
    ensures H[b] == d + 1 && H[b + 1] == d && H[b + 2] == d + 1 && H[b + 3] == d + 2 && H[b + 4] == d + 1
            && H[b + 5] == d
    ensures H[b + 6] == d + 1 && H[b + 7] == d + 2 && H[b + 8] == d + 3 && H[b + 9] == d + 4 && H[b + 10] == d + 3
    ensures post ==> H[b + 11] == d + 1 && H[b + 12] == d
  {
    var part := ElementHeights(post, d);
    forall i | 0 <= i < |part|
      ensures H[b + i] == part[i]
    {
      PartAt(H, b, part, i);
    }
    assert H[b + 0] == part[0];
  }

  lemma ElementStepFlows(p: Program, ch: Chunk, H: seq<nat>, post: bool, plus: bool, n: nat, b: nat, d: nat)
    requires |H| == |ch.code| && ElementStepCode(ch, post, plus, n, b) && HasPart(H, b, ElementHeights(post, d))
    requires b + (if post then 13 else 11) < |H| && H[b + (if post then 13 else 11)] == d + 1
    ensures Flows(p, ch, H, b, b + (if post then 13 else 11))
  {
    hide Flow, Has, HasConst, HasPart, ElementHeights;
    ElementDepths(H, post, b, d);
    Stores(p, ch, H, b, n + 1);
    Loads(p, ch, H, b + 1, n);
    Loads(p, ch, H, b + 2, n + 1);
    Operates(p, ch, H, b + 3, OpGetIndex);
    Stores(p, ch, H, b + 4, n + 2);
    Loads(p, ch, H, b + 5, n);
    Loads(p, ch, H, b + 6, n + 1);
    Loads(p, ch, H, b + 7, n + 2);
    Constants(p, ch, H, b + 8, Int(1));
    Steps(p, ch, H, b + 9, plus);
    Operates(p, ch, H, b + 10, OpSetIndex);
    if post {
      Pops(p, ch, H, b + 11);
      Loads(p, ch, H, b + 12, n + 2);
    }
  }

  // ─── Statements ────────────────────────────────────────────────────────────

  /** Jumps out of a statement go where no operand is. */
  predicate Level(H: seq<nat>, t: Targets) {
    t.Targets? ==> t.brk < |H| && H[t.brk] == 0 && t.cont < |H| && H[t.cont] == 0
  }

  lemma StmtHeightsParts(s: Stmt, sg: Sigs)
    ensures IsSimple(s) ==> StmtHeights(s, sg) == ExprHeights(SimpleExpr(s), sg, 0) + [1]
    ensures s.Break? || s.Continue? || (s.Return? && s.result.None?) ==> StmtHeights(s, sg) == [0]
    ensures s.Assign? && !s.target.Ident? ==>
              StmtHeights(s, sg) == ListHeights(R.AssignOperands(s.target, s.value), sg, 0)
                                    + [|R.AssignOperands(s.target, s.value)|, 1]
    ensures s.If? && s.orelse == [] ==>
              StmtHeights(s, sg) == ExprHeights(s.cond, sg, 0) + [1] + BlockHeights(s.body, sg)
    ensures s.If? && s.orelse != [] ==>
              StmtHeights(s, sg) == ExprHeights(s.cond, sg, 0) + [1] + BlockHeights(s.body, sg)
                                    + ([0] + BlockHeights(s.orelse, sg))
    ensures s.While? ==> StmtHeights(s, sg) == ExprHeights(s.cond, sg, 0) + [1] + BlockHeights(s.body, sg) + [0]
    ensures s.For? ==>
              StmtHeights(s, sg)
              == ExprHeights(s.iterable, sg, 0) + HEAD_HEIGHTS + TEST_HEIGHTS + BlockHeights(s.body, sg)
                                    + NEXT_HEIGHTS
    ensures s.Require? ==>
              StmtHeights(s, sg) == ExprHeights(s.cond, sg, 0) + [1, 0] + ExprHeights(s.otherwise, sg, 0) + [1]
    ensures s.Try? ==> StmtHeights(s, sg) == BlockHeights(s.body, sg) + [0, 1] + BlockHeights(s.orelse, sg)
  {
    hide ExprHeights, BlockHeights, ListHeights, R.AssignOperands;
    if s.If? && s.orelse == [] {
      assert ExprHeights(s.cond, sg, 0) + [1] + BlockHeights(s.body, sg) + []
          == ExprHeights(s.cond, sg, 0) + [1] + BlockHeights(s.body, sg);
    }
  }

  /** Statement code begins and ends with no operand. */
  lemma {:induction false} StmtFlows(p: Program, src: R.Source, ch: Chunk, H: seq<nat>, s: Stmt, L: seq<Local>, a: nat,
                                     t: Targets, end: nat)
    requires Linked(p, src) && StmtCode(ch, src.sigs, s, L, a, t) && |H| == |ch.code| && Level(H, t)
    requires HasPart(H, a, StmtHeights(s, src.sigs)) && end == a + StmtSize(s, src.sigs) && end < |H| && H[end] == 0
    ensures Flows(p, ch, H, a, end)
    decreases s, 1
  {
    hide *;
    SimpleKinds(s);
    if s.If? {
      IfFlows(p, src, ch, H, s, L, a, t, end);
    } else if s.While? {
      WhileFlows(p, src, ch, H, s, L, a, t, end);
    } else if s.For? {
      ForFlows(p, src, ch, H, s, L, a, t, end);
    } else if s.Try? {
      TryFlows(p, src, ch, H, s, L, a, t, end);
    } else if s.Require? {
      RequireFlows(p, src, ch, H, s, L, a, t, end);
    } else if IsSimple(s) {
      SimpleFlows(p, src, ch, H, s, L, a, t, end);
    } else if s.Assign? {
      EffectFlows(p, src, ch, H, s, L, a, t, end);
    } else {
      JumpFlows(p, src, ch, H, s, L, a, t, end);
    }
  }

  lemma {:induction false} BlockFlows(p: Program, src: R.Source, ch: Chunk, H: seq<nat>, ss: seq<Stmt>, L: seq<Local>,
                                      a: nat, t: Targets, end: nat)
    requires Linked(p, src) && StmtsCode(ch, src.sigs, ss, L, a, t) && |H| == |ch.code| && Level(H, t)
    requires HasPart(H, a, BlockHeights(ss, src.sigs)) && end == a + BlockSize(ss, src.sigs) && end < |H| && H[end] == 0
    ensures Flows(p, ch, H, a, end)
    decreases ss, 2
  {
    hide *;
    var sg := src.sigs;
    BlockHeightsParts(ss, sg);
    if ss == [] {
      NoFlows(p, ch, H, a);
    } else {
      var b := a + StmtSize(ss[0], sg);
      BlockIs(ch, sg, ss, L, a, t, b);
      StmtHeightsSize(ss[0], sg);
      PartsOfPart(H, a, StmtHeights(ss[0], sg), BlockHeights(ss[1..], sg));
      BlockStartsLevel(H, b, ss[1..], sg, end);
      StmtFlows(p, src, ch, H, ss[0], L, a, t, b);
      BlockFlows(p, src, ch, H, ss[1..], After(ss[0], L), b, t, end);
      FlowsJoin(p, ch, H, a, b, end);
    }
  }

  lemma BlockHeightsParts(ss: seq<Stmt>, sg: Sigs)
    ensures ss == [] ==> BlockHeights(ss, sg) == [] && BlockSize(ss, sg) == 0
    ensures ss != [] ==> BlockHeights(ss, sg) == StmtHeights(ss[0], sg) + BlockHeights(ss[1..], sg)
  {
    hide StmtHeights;
  }

  /** A block that ends with no operand begins with none. */
  lemma BlockStartsLevel(H: seq<nat>, a: nat, ss: seq<Stmt>, sg: Sigs, end: nat)
    requires HasPart(H, a, BlockHeights(ss, sg)) && end == a + BlockSize(ss, sg) && end < |H| && H[end] == 0
    ensures a <= end && H[a] == 0 && |BlockHeights(ss, sg)| == BlockSize(ss, sg)
  {
    hide BlockHeights, BlockSize, HasPart;
    BlockHeightsParts(ss, sg);
    BlockHeightsSize(ss, sg);
    if ss != [] {
      PartAt(H, a, BlockHeights(ss, sg), 0);
    }
  }

  lemma SimpleEndFlow(p: Program, ch: Chunk, H: seq<nat>, s: Stmt, L: seq<Local>, b: nat)
    requires IsSimple(s) && SimpleEnd(ch, s, L, b) && |H| == |ch.code| && b + 1 < |H| && H[b] == 1 && H[b + 1] == 0
    ensures Flow(p, ch, H, b)
  {
    hide ResolveLocal, Hidden;
  }

  lemma {:induction false} SimpleFlows(p: Program, src: R.Source, ch: Chunk, H: seq<nat>, s: Stmt, L: seq<Local>,
                                       a: nat, t: Targets, end: nat)
    requires IsSimple(s) && Linked(p, src) && StmtCode(ch, src.sigs, s, L, a, t) && |H| == |ch.code|
    requires HasPart(H, a, StmtHeights(s, src.sigs)) && end == a + StmtSize(s, src.sigs) && end < |H| && H[end] == 0
    ensures Flows(p, ch, H, a, end)
  {
    hide *;
    var sg := src.sigs;
    var e := SimpleExpr(s);
    var b := a + ExprSize(e, sg);
    StmtHeightsParts(s, sg);
    ExprHeightsSize(e, sg, 0);
    PartsOfPart(H, a, ExprHeights(e, sg, 0), [1]);
    PartAt(H, b, [1], 0);
    SimpleIs(ch, sg, s, L, a, t, b);
    SimpleEndFlow(p, ch, H, s, L, b);
    ExprFlows(p, src, ch, H, e, L, a, 0, b);
    FlowsOne(p, ch, H, b);
    FlowsJoin(p, ch, H, a, b, end);
  }

  lemma JumpFlows(p: Program, src: R.Source, ch: Chunk, H: seq<nat>, s: Stmt, L: seq<Local>, a: nat, t: Targets,
                  end: nat)
    requires s.Break? || s.Continue? || (s.Return? && s.result.None?)
    requires StmtCode(ch, src.sigs, s, L, a, t) && |H| == |ch.code| && Level(H, t)
    requires HasPart(H, a, StmtHeights(s, src.sigs)) && end == a + StmtSize(s, src.sigs) && end < |H|
    ensures Flows(p, ch, H, a, end)
  {
    hide HasPart, StmtHeights, StmtCode, StmtSize;
    StmtHeightsParts(s, src.sigs);
    PartAt(H, a, [0], 0);
    JumpIs(ch, src.sigs, s, L, a, t);
    assert Flow(p, ch, H, a);
  }

  lemma EffectEndFlow(p: Program, ch: Chunk, H: seq<nat>, t: Expr, b: nat, n: nat)
    requires EffectEnd(ch, t, b) && |H| == |ch.code| && b + 2 < |H| && H[b] == n && H[b + 1] == 1 && H[b + 2] == 0
    requires n == if t.Index? then 3 else 2
    ensures Flow(p, ch, H, b) && Flow(p, ch, H, b + 1)
  {
  }

  lemma {:induction false} EffectFlows(p: Program, src: R.Source, ch: Chunk, H: seq<nat>, s: Stmt, L: seq<Local>,
                                       a: nat, t: Targets, end: nat)
    requires s.Assign? && !s.target.Ident? && Linked(p, src) && StmtCode(ch, src.sigs, s, L, a, t) && |H| == |ch.code|
    requires HasPart(H, a, StmtHeights(s, src.sigs)) && end == a + StmtSize(s, src.sigs) && end < |H| && H[end] == 0
    ensures Flows(p, ch, H, a, end)
  {
    hide *;
    var sg := src.sigs;
    var es := R.AssignOperands(s.target, s.value);
    var b := a + ListSize(es, sg);
    StmtHeightsParts(s, sg);
    ListHeightsSize(es, sg, 0);
    PartsOfPart(H, a, ListHeights(es, sg, 0), [|es|, 1]);
    PartAt(H, b, [|es|, 1], 0);
    PartAt(H, b, [|es|, 1], 1);
    EffectIs(ch, sg, s, L, a, t, es, b);
    EffectKinds(ch, s.target, b);
    EffectEndFlow(p, ch, H, s.target, b, |es|);
    ListFlows(p, src, ch, H, es, L, a, 0, b);
    FlowsOne(p, ch, H, b + 1);
    FlowsAround(p, ch, H, a, b, end);
  }

  lemma EffectKinds(ch: Chunk, t: Expr, b: nat)
    requires EffectEnd(ch, t, b)
    ensures t.Index? || t.Member?
  {
  }

  lemma ForwardFlow(p: Program, ch: Chunk, H: seq<nat>, b: nat, to: nat)
    requires |H| == |ch.code| && Has(ch, b, OpJumpIfFalse(to)) && b < to < |H| && b + 1 < |H|
    requires H[b] == 1 && H[b + 1] == 0 && H[to] == 0
    ensures Flow(p, ch, H, b)
  {
  }

  lemma JumpFlow(p: Program, ch: Chunk, H: seq<nat>, b: nat, to: nat)
    requires |H| == |ch.code| && Has(ch, b, OpJump(to)) && to < |H| && H[b] == H[to]
    ensures Flow(p, ch, H, b)
  {
  }

  lemma ReturnFlow(p: Program, ch: Chunk, H: seq<nat>, b: nat)
    requires |H| == |ch.code| && Has(ch, b, OpReturn) && H[b] == 1
    ensures Flow(p, ch, H, b)
  {
  }

  lemma {:induction false} RequireFlows(p: Program, src: R.Source, ch: Chunk, H: seq<nat>, s: Stmt, L: seq<Local>,
                                        a: nat, t: Targets, end: nat)
    requires s.Require? && Linked(p, src) && StmtCode(ch, src.sigs, s, L, a, t) && |H| == |ch.code|
    requires HasPart(H, a, StmtHeights(s, src.sigs)) && end == a + StmtSize(s, src.sigs) && end < |H| && H[end] == 0
    ensures Flows(p, ch, H, a, end)
  {
    hide *;
    var sg := src.sigs;
    var b := a + ExprSize(s.cond, sg);
    var e := b + 2 + ExprSize(s.otherwise, sg);
    var x, y := ExprHeights(s.cond, sg, 0), ExprHeights(s.otherwise, sg, 0);
    StmtHeightsParts(s, sg);
    ExprHeightsSize(s.cond, sg, 0);
    ExprHeightsSize(s.otherwise, sg, 0);
    PartsOfPart(H, a, x + [1, 0] + y, [1]);
    PartsOfPart(H, a, x + [1, 0], y);
    PartsOfPart(H, a, x, [1, 0]);
    PartAt(H, b, [1, 0], 0);
    PartAt(H, b, [1, 0], 1);
    PartAt(H, b + 2, y, 0);
    PartAt(H, e, [1], 0);
    RequireIs(ch, sg, s, L, a, t, b, e);
    ForwardFlow(p, ch, H, b, b + 2);
    JumpFlow(p, ch, H, b + 1, e + 1);
    ReturnFlow(p, ch, H, e);
    ExprFlows(p, src, ch, H, s.cond, L, a, 0, b);
    ExprFlows(p, src, ch, H, s.otherwise, L, b + 2, 0, e);
    FlowsOne(p, ch, H, e);
    FlowsJoin(p, ch, H, b + 2, e, end);
    FlowsOne(p, ch, H, b + 1);
    FlowsJoin(p, ch, H, b + 1, b + 2, end);
    FlowsAround(p, ch, H, a, b, end);
  }

  lemma {:induction false} IfFlows(p: Program, src: R.Source, ch: Chunk, H: seq<nat>, s: Stmt, L: seq<Local>, a: nat,
                                   t: Targets, end: nat)
    requires s.If? && Linked(p, src) && StmtCode(ch, src.sigs, s, L, a, t) && |H| == |ch.code| && Level(H, t)
    requires HasPart(H, a, StmtHeights(s, src.sigs)) && end == a + StmtSize(s, src.sigs) && end < |H| && H[end] == 0
    ensures Flows(p, ch, H, a, end)
    decreases s, 0
  {
    hide *;
    var sg := src.sigs;
    var b := a + ExprSize(s.cond, sg);
    var e := b + 1 + BlockSize(s.body, sg);
    var x, y := ExprHeights(s.cond, sg, 0), BlockHeights(s.body, sg);
    StmtHeightsParts(s, sg);
    ExprHeightsSize(s.cond, sg, 0);
    BlockHeightsSize(s.body, sg);
    if s.orelse != [] {
      var z := BlockHeights(s.orelse, sg);
      PartsOfPart(H, a, x + [1] + y, [0] + z);
      PartsOfPart(H, e, [0], z);
      PartAt(H, e, [0], 0);
    }
    PartsOfPart(H, a, x + [1], y);
    PartsOfPart(H, a, x, [1]);
    PartAt(H, b, [1], 0);
    IfIs(ch, sg, s, L, a, t, b, e, if s.orelse == [] then e else e + 1 + BlockSize(s.orelse, sg));
    BlockStartsLevel(H, b + 1, s.body, sg, e);
    ExprFlows(p, src, ch, H, s.cond, L, a, 0, b);
    BlockFlows(p, src, ch, H, s.body, L, b + 1, t, e);
    if s.orelse == [] {
      ForwardFlow(p, ch, H, b, e);
    } else {
      BlockStartsLevel(H, e + 1, s.orelse, sg, end);
      ForwardFlow(p, ch, H, b, e + 1);
      JumpFlow(p, ch, H, e, end);
      BlockFlows(p, src, ch, H, s.orelse, L, e + 1, t, end);
      FlowsAround(p, ch, H, b + 1, e, end);
    }
    FlowsAround(p, ch, H, a, b, end);
  }

  lemma {:induction false} WhileFlows(p: Program, src: R.Source, ch: Chunk, H: seq<nat>, s: Stmt, L: seq<Local>, a: nat,
                                      t: Targets, end: nat)
    requires s.While? && Linked(p, src) && StmtCode(ch, src.sigs, s, L, a, t) && |H| == |ch.code|
    requires HasPart(H, a, StmtHeights(s, src.sigs)) && end == a + StmtSize(s, src.sigs) && end < |H| && H[end] == 0
    ensures Flows(p, ch, H, a, end)
    decreases s, 0
  {
    hide *;
    var sg := src.sigs;
    var b := a + ExprSize(s.cond, sg);
    var e := b + 1 + BlockSize(s.body, sg);
    var x, y := ExprHeights(s.cond, sg, 0), BlockHeights(s.body, sg);
    StmtHeightsParts(s, sg);
    ExprHeightsSize(s.cond, sg, 0);
    BlockHeightsSize(s.body, sg);
    PartsOfPart(H, a, x + [1] + y, [0]);
    PartsOfPart(H, a, x + [1], y);
    PartsOfPart(H, a, x, [1]);
    PartAt(H, a, x, 0);
    PartAt(H, b, [1], 0);
    PartAt(H, e, [0], 0);
    WhileIs(ch, sg, s, L, a, t, b, e);
    BlockStartsLevel(H, b + 1, s.body, sg, e);
    AreLevel(H, Targets(e + 1, a));
    ExprFlows(p, src, ch, H, s.cond, L, a, 0, b);
    ForwardFlow(p, ch, H, b, e + 1);
    BlockFlows(p, src, ch, H, s.body, L, b + 1, Targets(e + 1, a), e);
    JumpFlow(p, ch, H, e, a);
    FlowsOne(p, ch, H, e);
    FlowsJoin(p, ch, H, b + 1, e, end);
    FlowsAround(p, ch, H, a, b, end);
  }

  lemma AreLevel(H: seq<nat>, t: Targets)
    requires t.Targets? && t.brk < |H| && t.cont < |H| && H[t.brk] == 0 && H[t.cont] == 0
    ensures Level(H, t)
  {
  }

  lemma {:induction false} TryFlows(p: Program, src: R.Source, ch: Chunk, H: seq<nat>, s: Stmt, L: seq<Local>, a: nat,
                                    t: Targets, end: nat)
    requires s.Try? && Linked(p, src) && StmtCode(ch, src.sigs, s, L, a, t) && |H| == |ch.code| && Level(H, t)
    requires HasPart(H, a, StmtHeights(s, src.sigs)) && end == a + StmtSize(s, src.sigs) && end < |H| && H[end] == 0
    ensures Flows(p, ch, H, a, end)
    decreases s, 0
  {
    hide *;
    var sg := src.sigs;
    var e := a + BlockSize(s.body, sg);
    var x, y := BlockHeights(s.body, sg), BlockHeights(s.orelse, sg);
    StmtHeightsParts(s, sg);
    BlockHeightsSize(s.body, sg);
    PartsOfPart(H, a, x + [0, 1], y);
    PartsOfPart(H, a, x, [0, 1]);
    PartAt(H, e, [0, 1], 0);
    PartAt(H, e, [0, 1], 1);
    TryIs(ch, sg, s, L, a, t, e, e + 2 + BlockSize(s.orelse, sg));
    BlockStartsLevel(H, e + 2, s.orelse, sg, end);
    BlockFlows(p, src, ch, H, s.body, L, a, t, e);
    JumpFlow(p, ch, H, e, end);
    CatchFlow(p, ch, H, s.name, |L|, e + 1);
    BlockFlows(p, src, ch, H, s.orelse, CatchLocals(s.name, L), e + 2, t, end);
    FlowsOne(p, ch, H, e + 1);
    FlowsJoin(p, ch, H, e + 1, e + 2, end);
    FlowsAround(p, ch, H, a, e, end);
  }

  lemma CatchFlow(p: Program, ch: Chunk, H: seq<nat>, name: string, n: nat, e: nat)
    requires |H| == |ch.code| && CatchStart(ch, name, n, e) && e + 1 < |H| && H[e] == 1 && H[e + 1] == 0
    ensures Flow(p, ch, H, e)
  {
    hide Hidden;
  }

  lemma {:induction false} ForFlows(p: Program, src: R.Source, ch: Chunk, H: seq<nat>, s: Stmt, L: seq<Local>, a: nat,
                                    t: Targets, end: nat)
    requires s.For? && Linked(p, src) && StmtCode(ch, src.sigs, s, L, a, t) && |H| == |ch.code|
    requires HasPart(H, a, StmtHeights(s, src.sigs)) && end == a + StmtSize(s, src.sigs) && end < |H| && H[end] == 0
    ensures Flows(p, ch, H, a, end)
    decreases s, 0
  {
    hide *;
    var sg := src.sigs;
    var n := |L|;
    var b := a + ExprSize(s.iterable, sg);
    var e := b + 15 + BlockSize(s.body, sg);
    var x, y := ExprHeights(s.iterable, sg, 0), BlockHeights(s.body, sg);
    StmtHeightsParts(s, sg);
    ExprHeightsSize(s.iterable, sg, 0);
    BlockHeightsSize(s.body, sg);
    ForHeightsSizes();
    PartsOfPart(H, a, x + HEAD_HEIGHTS + TEST_HEIGHTS + y, NEXT_HEIGHTS);
    PartsOfPart(H, a, x + HEAD_HEIGHTS + TEST_HEIGHTS, y);
    PartsOfPart(H, a, x + HEAD_HEIGHTS, TEST_HEIGHTS);
    PartsOfPart(H, a, x, HEAD_HEIGHTS);
    ForIs(ch, sg, s, L, a, t, b, e);
    HeadDepths(H, b);
    TestDepths(H, b + 7);
    NextDepths(H, e);
    BlockStartsLevel(H, b + 15, s.body, sg, e);
    AreLevel(H, Targets(e + 5, e));
    ExprFlows(p, src, ch, H, s.iterable, L, a, 0, b);
    HeadFlows(p, ch, H, b, n, sg);
    TestFlows(p, ch, H, b + 7, n, e + 5);
    BlockFlows(p, src, ch, H, s.body, ForLocals(s, L), b + 15, Targets(e + 5, e), e);
    NextFlows(p, ch, H, e, n, b + 7);
    FlowsJoin(p, ch, H, b + 15, e, end);
    FlowsJoin(p, ch, H, b + 7, b + 15, end);
    FlowsJoin(p, ch, H, b, b + 7, end);
    FlowsJoin(p, ch, H, a, b, end);
  }

  lemma ForHeightsSizes()
    ensures |HEAD_HEIGHTS| == 7 && |TEST_HEIGHTS| == 8 && |NEXT_HEIGHTS| == 5
  {
  }

  lemma HeadDepths(H: seq<nat>, b: nat)
    requires HasPart(H, b, HEAD_HEIGHTS)
    ensures b + 7 <= |H| && H[b] == 1 && H[b + 1] == 1 && H[b + 2] == 0 && H[b + 3] == 1 && H[b + 4] == 1
            && H[b + 5] == 0
    ensures H[b + 6] == 1
  {
    forall i | 0 <= i < 7
      ensures H[b + i] == HEAD_HEIGHTS[i]
    {
      PartAt(H, b, HEAD_HEIGHTS, i);
    }
    assert H[b + 0] == HEAD_HEIGHTS[0];
  }

  lemma TestDepths(H: seq<nat>, b: nat)
    requires HasPart(H, b, TEST_HEIGHTS)
    ensures b + 8 <= |H| && H[b] == 0 && H[b + 1] == 1 && H[b + 2] == 2 && H[b + 3] == 1 && H[b + 4] == 0
            && H[b + 5] == 1
    ensures H[b + 6] == 2 && H[b + 7] == 1
  {
    forall i | 0 <= i < 8
      ensures H[b + i] == TEST_HEIGHTS[i]
    {
      PartAt(H, b, TEST_HEIGHTS, i);
    }
    assert H[b + 0] == TEST_HEIGHTS[0];
  }

  lemma NextDepths(H: seq<nat>, b: nat)
    requires HasPart(H, b, NEXT_HEIGHTS)
    ensures b + 5 <= |H| && H[b] == 0 && H[b + 1] == 1 && H[b + 2] == 2 && H[b + 3] == 1 && H[b + 4] == 0
  {
    forall i | 0 <= i < 5
      ensures H[b + i] == NEXT_HEIGHTS[i]
    {
      PartAt(H, b, NEXT_HEIGHTS, i);
    }
    assert H[b + 0] == NEXT_HEIGHTS[0];
  }

  lemma HeadFlows(p: Program, ch: Chunk, H: seq<nat>, b: nat, n: nat, sg: Sigs)
    requires |H| == |ch.code| && ForHead(ch, b, n) && HasLen(ch, b + 3, sg) && n + 4 <= ch.numLocals && b + 7 < |H|
    requires H[b] == 1 && H[b + 1] == 1 && H[b + 2] == 0 && H[b + 3] == 1 && H[b + 4] == 1 && H[b + 5] == 0
    requires H[b + 6] == 1 && H[b + 7] == 0
    ensures Flows(p, ch, H, b, b + 7)
  {
    hide Flow, Has, HasConst;
    Operates(p, ch, H, b, OpIterList);
    Stores(p, ch, H, b + 1, n);
    Loads(p, ch, H, b + 2, n);
    Operates(p, ch, H, b + 3, OpCallNative(sg.lenId, 1));
    Stores(p, ch, H, b + 4, n + 1);
    Constants(p, ch, H, b + 5, Int(0));
    Stores(p, ch, H, b + 6, n + 2);
  }

  lemma TestFlows(p: Program, ch: Chunk, H: seq<nat>, b: nat, n: nat, end: nat)
    requires |H| == |ch.code| && ForTest(ch, b, n, end) && n + 4 <= ch.numLocals && b + 8 < end < |H| && H[end] == 0
    requires H[b] == 0 && H[b + 1] == 1 && H[b + 2] == 2 && H[b + 3] == 1 && H[b + 4] == 0 && H[b + 5] == 1
    requires H[b + 6] == 2 && H[b + 7] == 1 && H[b + 8] == 0
    ensures Flows(p, ch, H, b, b + 8)
  {
    hide Flow, Has;
    Loads(p, ch, H, b, n + 2);
    Loads(p, ch, H, b + 1, n + 1);
    Operates(p, ch, H, b + 2, OpLt);
    ForwardFlow(p, ch, H, b + 3, end);
    Loads(p, ch, H, b + 4, n);
    Loads(p, ch, H, b + 5, n + 2);
    Operates(p, ch, H, b + 6, OpGetIndex);
    Stores(p, ch, H, b + 7, n + 3);
  }

  lemma NextFlows(p: Program, ch: Chunk, H: seq<nat>, b: nat, n: nat, start: nat)
    requires |H| == |ch.code| && ForNext(ch, b, n, start) && n + 4 <= ch.numLocals && b + 5 < |H|
    requires H[b] == 0 && H[b + 1] == 1 && H[b + 2] == 2 && H[b + 3] == 1 && H[b + 4] == 0 && start < |H|
             && H[start] == 0
    ensures Flows(p, ch, H, b, b + 5)
  {
    hide Flow, Has, HasConst;
    Loads(p, ch, H, b, n + 2);
    Constants(p, ch, H, b + 1, Int(1));
    Operates(p, ch, H, b + 2, OpAdd);
    Stores(p, ch, H, b + 3, n + 2);
    JumpFlow(p, ch, H, b + 4, start);
  }

  // ─── Declarations ──────────────────────────────────────────────────────────

  /** Every instruction of a compiled declaration fits. */
  lemma DeclFlows(p: Program, src: R.Source, ch: Chunk, decl: Decl)
    requires Linked(p, src) && DeclCode(ch, src.sigs, decl)
    ensures var H := DeclHeights(decl, src.sigs);
            |H| == |ch.code| > 0 && H[0] == 0 && Flows(p, ch, H, 0, |ch.code|)
  {
    hide *;
    var sg := src.sigs;
    var gs, L, H := R.GuardStmts(decl.guards), ParamLocals(decl.params), DeclHeights(decl, sg);
    var b := BlockSize(gs, sg);
    var end := b + BlockSize(decl.body, sg);
    DeclIs(ch, sg, decl);
    BlockHeightsSize(gs, sg);
    BlockHeightsSize(decl.body, sg);
    WholePart(H);
    PartsOfPart(H, 0, BlockHeights(gs, sg) + BlockHeights(decl.body, sg), [0]);
    PartsOfPart(H, 0, BlockHeights(gs, sg), BlockHeights(decl.body, sg));
    PartAt(H, end, [0], 0);
    BlockStartsLevel(H, b, decl.body, sg, end);
    BlockStartsLevel(H, 0, gs, sg, b);
    NoTargetsLevel(H);
    BlockFlows(p, src, ch, H, gs, L, 0, NoTargets, b);
    BlockFlows(p, src, ch, H, decl.body, L, b, NoTargets, end);
    EndFlow(p, ch, H, end);
    FlowsOne(p, ch, H, end);
    FlowsJoin(p, ch, H, b, end, end + 1);
    FlowsJoin(p, ch, H, 0, b, end + 1);
  }

  lemma DeclIs(ch: Chunk, sg: Sigs, decl: Decl)
    requires DeclCode(ch, sg, decl)
    ensures var gs, L := R.GuardStmts(decl.guards), ParamLocals(decl.params);
            var b := BlockSize(gs, sg);
            var end := b + BlockSize(decl.body, sg);
            && StmtsCode(ch, sg, gs, L, 0, NoTargets) && StmtsCode(ch, sg, decl.body, L, b, NoTargets)
            && Has(ch, end, OpReturnNull) && |ch.code| == end + 1 && ch.ranges == RangesIn(decl.body, sg, b)
            && DeclHeights(decl, sg) == BlockHeights(gs, sg) + BlockHeights(decl.body, sg) + [0]
  {
    hide StmtsCode, RangesIn, BlockSize, BlockHeights, R.GuardStmts, ParamLocals;
  }

  lemma WholePart(H: seq<nat>)
    ensures HasPart(H, 0, H)
  {
    assert H[0..0 + |H|] == H;
  }

  lemma NoTargetsLevel(H: seq<nat>)
    ensures Level(H, NoTargets)
  {
  }

  lemma EndFlow(p: Program, ch: Chunk, H: seq<nat>, pc: nat)
    requires |H| == |ch.code| && Has(ch, pc, OpReturnNull)
    ensures Flow(p, ch, H, pc)
  {
  }
}
