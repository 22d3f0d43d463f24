/** The static depth of the operand stack: how many operands a frame has before each
  instruction of compiled code.  `Flow` says that an instruction fits the depths
  around it, and that a conditional jump goes forward. */
module Heights {
  import opened Wrappers
  import opened Values
  import opened Ast
  import opened Bytecode
  import opened Machine
  import opened Layout
  import R = Reference

  // ─── What fits ─────────────────────────────────────────────────────────────

  /** The instruction at `pc` takes its operands from its own frame, names constants,
    slots and addresses that exist, and leaves the depth that comes next. */
  predicate Flow(p: Program, ch: Chunk, H: seq<nat>, pc: nat) {
    && |H| == |ch.code| && pc < |H|
    && var i, d := ch.code[pc], H[pc];
       if i.OpReturn? then d >= 1
       else if i.OpReturnNull? then true
       else if i.OpJump? then i.to < |H| && H[i.to] == d
       else
         && pc + 1 < |H|
         && if IsOperation(i) then Arity(i) <= d && d + 1 == H[pc + 1] + Arity(i)
            else
              match i
              case OpConst(k) => k < |ch.constants| && H[pc + 1] == d + 1
              case OpLoadLocal(slot) => slot < ch.numLocals && H[pc + 1] == d + 1
              case OpStoreLocal(slot) => slot < ch.numLocals && d == H[pc + 1] + 1
              case OpPop => d == H[pc + 1] + 1
              case OpJumpIfFalse(to) => d == H[pc + 1] + 1 && pc < to < |H| && H[to] == d - 1
              case OpJumpIfFalsePeek(to) => d == H[pc + 1] + 1 && pc < to < |H| && H[to] == d
              case OpJumpIfTruePeek(to) => d == H[pc + 1] + 1 && pc < to < |H| && H[to] == d
              case OpCallFunction(index, argc) =>
                d + 1 == H[pc + 1] + argc && argc <= d
                && (index < |p.functions| ==> argc <= p.functions[index].numLocals)
              case OpCallAsync(_, argc) => d + 1 == H[pc + 1] + argc && argc <= d
              case _ => true
  }

  predicate Flows(p: Program, ch: Chunk, H: seq<nat>, lo: nat, hi: nat) {
    forall pc: nat :: lo <= pc < hi ==> Flow(p, ch, H, pc)
  }

  /** `part` is what `H` has at `a`. */
  predicate HasPart(H: seq<nat>, a: nat, part: seq<nat>) { a + |part| <= |H| && H[a..a + |part|] == part }

  lemma PartsOfPart(H: seq<nat>, a: nat, x: seq<nat>, y: seq<nat>)
    ensures HasPart(H, a, x + y) <==> HasPart(H, a, x) && HasPart(H, a + |x|, y)
  {
    if HasPart(H, a, x) && HasPart(H, a + |x|, y) {
      assert H[a..a + |x + y|] == H[a..a + |x|] + H[a + |x|..a + |x| + |y|];
    }
    if HasPart(H, a, x + y) {
      assert H[a..a + |x|] == (x + y)[..|x|] && H[a + |x|..a + |x| + |y|] == (x + y)[|x|..];
    }
  }

  lemma PartAt(H: seq<nat>, a: nat, part: seq<nat>, i: nat)
    requires HasPart(H, a, part) && i < |part|
    ensures a + i < |H| && H[a + i] == part[i]
  {
    assert H[a..a + |part|][i] == H[a + i];
  }

  // ─── The depths of expressions ─────────────────────────────────────────────

  function ExprHeights(e: Expr, sg: Sigs, d: nat): seq<nat>
    decreases Weight(e), 0
  {
    if e.Ternary? then
      ExprHeights(e.cond, sg, d) + [d + 1] + ExprHeights(e.yes, sg, d) + [d + 1] + ExprHeights(e.no, sg, d)
    else if e.Step? then StepHeights(e.post, e.target, sg, d)
    else if R.IsShortCircuit(e) then ExprHeights(e.lhs, sg, d) + [d + 1] + ExprHeights(e.rhs, sg, d)
    else if R.IsOperationExpr(e) then ListHeights(R.Operands(e, sg), sg, d) + [d + |R.Operands(e, sg)|]
    else [d]
  }

  function ListHeights(es: seq<Expr>, sg: Sigs, d: nat): seq<nat>
    decreases WeightList(es), |es| + 1
  {
    if es == [] then [] else ExprHeights(es[0], sg, d) + ListHeights(es[1..], sg, d + 1)
  }

  function StepHeights(post: bool, t: Expr, sg: Sigs, d: nat): seq<nat>
    decreases Weight(t) + 1, 0
  {
    match t
    case Member(o, _) => ExprHeights(o, sg, d) + FieldHeights(post, d)
    case Index(o, i) => ExprHeights(o, sg, d) + [d + 1] + ExprHeights(i, sg, d) + ElementHeights(post, d)
    case _ => if post then [d, d + 1, d + 2, d + 3, d + 2] else [d, d + 1, d + 2, d + 1, d]
  }

  function FieldHeights(post: bool, d: nat): seq<nat> {
    [d + 1, d, d + 1, d + 1, d, d + 1, d + 2, d + 3, d + 2] + (if post then [d + 1, d] else [])
  }

  function ElementHeights(post: bool, d: nat): seq<nat> {
    [d + 1, d, d + 1, d + 2, d + 1, d, d + 1, d + 2, d + 3, d + 4, d + 3] + (if post then [d + 1, d] else [])
  }

  // ─── The depths of statements, which begin and end at 0 ────────────────────

  const HEAD_HEIGHTS: seq<nat> := [1, 1, 0, 1, 1, 0, 1]
  const TEST_HEIGHTS: seq<nat> := [0, 1, 2, 1, 0, 1, 2, 1]
  const NEXT_HEIGHTS: seq<nat> := [0, 1, 2, 1, 0]

  function StmtHeights(s: Stmt, sg: Sigs): seq<nat>
    decreases s, 0
  {
    match s
    case Return(None) => [0]
    case Return(Some(e)) => ExprHeights(e, sg, 0) + [1]
    case ExprStmt(e) => ExprHeights(e, sg, 0) + [1]
    case VarDecl(_, _, init) => ExprHeights(R.InitExpr(init), sg, 0) + [1]
    case Assign(t, e) =>
      if t.Ident? then ExprHeights(e, sg, 0) + [1]
      else ListHeights(R.AssignOperands(t, e), sg, 0) + [|R.AssignOperands(t, e)|, 1]
    case If(c, body, orelse) =>
      ExprHeights(c, sg, 0) + [1] + BlockHeights(body, sg)
      + (if orelse == [] then [] else [0] + BlockHeights(orelse, sg))
    case While(c, body) => ExprHeights(c, sg, 0) + [1] + BlockHeights(body, sg) + [0]
    case For(_, _, it, body) =>
      ExprHeights(it, sg, 0) + HEAD_HEIGHTS + TEST_HEIGHTS + BlockHeights(body, sg) + NEXT_HEIGHTS
    case Require(c, otherwise) => ExprHeights(c, sg, 0) + [1, 0] + ExprHeights(otherwise, sg, 0) + [1]
    case Try(body, _, orelse) => BlockHeights(body, sg) + [0, 1] + BlockHeights(orelse, sg)
    case Break => [0]
    case Continue => [0]
  }

  function BlockHeights(ss: seq<Stmt>, sg: Sigs): seq<nat>
    decreases ss, 1
  {
    if ss == [] then [] else StmtHeights(ss[0], sg) + BlockHeights(ss[1..], sg)
  }

  function DeclHeights(decl: Decl, sg: Sigs): seq<nat> {
    BlockHeights(R.GuardStmts(decl.guards), sg) + BlockHeights(decl.body, sg) + [0]
  }

  // ─── Sizes and first depths ────────────────────────────────────────────────

  /** There is one depth for every instruction, and the first is the depth before. */
  lemma {:induction false} ExprHeightsSize(e: Expr, sg: Sigs, d: nat)
    ensures |ExprHeights(e, sg, d)| == ExprSize(e, sg) && ExprSize(e, sg) > 0 && ExprHeights(e, sg, d)[0] == d
    decreases Weight(e), 0
  {
    if e.Ternary? {
      ExprHeightsSize(e.cond, sg, d);
      ExprHeightsSize(e.yes, sg, d);
      ExprHeightsSize(e.no, sg, d);
    } else if e.Step? {
      StepHeightsSize(e.post, e.target, sg, d);
    } else if R.IsShortCircuit(e) {
      ExprHeightsSize(e.lhs, sg, d);
      ExprHeightsSize(e.rhs, sg, d);
    } else if R.IsOperationExpr(e) {
      ListHeightsSize(R.Operands(e, sg), sg, d);
    }
  }

  lemma {:induction false} ListHeightsSize(es: seq<Expr>, sg: Sigs, d: nat)
    ensures |ListHeights(es, sg, d)| == ListSize(es, sg)
            && (es != [] ==> ListSize(es, sg) > 0 && ListHeights(es, sg, d)[0] == d)
    decreases WeightList(es), |es| + 1
  {
    hide ExprHeights, ExprSize;
    if es != [] {
      ExprHeightsSize(es[0], sg, d);
      ListHeightsSize(es[1..], sg, d + 1);
    }
  }

  lemma {:induction false} StepHeightsSize(post: bool, t: Expr, sg: Sigs, d: nat)
    ensures |StepHeights(post, t, sg, d)| == StepSize(post, t, sg) && StepSize(post, t, sg) > 0
    ensures StepHeights(post, t, sg, d)[0] == d
    decreases Weight(t) + 1, 0
  {
    hide ExprHeights, ExprSize;
    match t
    case Member(o, _) => ExprHeightsSize(o, sg, d);
    case Index(o, i) =>
      ExprHeightsSize(o, sg, d);
      ExprHeightsSize(i, sg, d);
    case _ =>
  }

  lemma {:induction false} StmtHeightsSize(s: Stmt, sg: Sigs)
    ensures |StmtHeights(s, sg)| == StmtSize(s, sg) && StmtSize(s, sg) > 0 && StmtHeights(s, sg)[0] == 0
    decreases s, 0
  {
    hide ExprHeights, ExprSize, ListHeights, ListSize, R.AssignOperands;
    match s
    case Return(None) =>
    case Return(Some(e)) => ExprHeightsSize(e, sg, 0);
    case ExprStmt(e) => ExprHeightsSize(e, sg, 0);
    case VarDecl(_, _, init) => ExprHeightsSize(R.InitExpr(init), sg, 0);
    case Assign(t, e) =>
      ExprHeightsSize(e, sg, 0);
      ListHeightsSize(R.AssignOperands(t, e), sg, 0);
      OperandsAreThere(t, e);
    case If(c, body, orelse) =>
      ExprHeightsSize(c, sg, 0);
      BlockHeightsSize(body, sg);
      BlockHeightsSize(orelse, sg);
    case While(c, body) =>
      ExprHeightsSize(c, sg, 0);
      BlockHeightsSize(body, sg);
    case For(_, _, it, body) =>
      ExprHeightsSize(it, sg, 0);
      BlockHeightsSize(body, sg);
    case Require(c, otherwise) =>
      ExprHeightsSize(c, sg, 0);
      ExprHeightsSize(otherwise, sg, 0);
    case Try(body, _, orelse) =>
      BlockHeightsSize(body, sg);
      BlockHeightsSize(orelse, sg);
    case Break =>
    case Continue =>
  }

  lemma OperandsAreThere(t: Expr, e: Expr)
    ensures R.AssignOperands(t, e) != []
  {
  }

  lemma {:induction false} BlockHeightsSize(ss: seq<Stmt>, sg: Sigs)
    ensures |BlockHeights(ss, sg)| == BlockSize(ss, sg)
            && (ss != [] ==> BlockSize(ss, sg) > 0 && BlockHeights(ss, sg)[0] == 0)
    decreases ss, 1
  {
    hide StmtHeights, StmtSize;
    if ss != [] {
      StmtHeightsSize(ss[0], sg);
      BlockHeightsSize(ss[1..], sg);
    }
  }
}
