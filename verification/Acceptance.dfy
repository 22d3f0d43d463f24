/** The programs the compiler accepts, and the holes it leaves in the body of a loop
  until it knows where the loop ends. */
module Acceptance {
  import opened Wrappers
  import opened Values
  import opened Ast
  import opened Layout
  import R = Reference

  // ─── Names as the lexer makes them ─────────────────────────────────────────

  /** No identifier of the program begins with a space: the lexer makes none. */
  predicate PlainExpr(e: Expr, sg: Sigs)
    decreases Weight(e), 0
  {
    if e.Ident? then !Hidden(e.name)
    else if e.Ternary? then PlainExpr(e.cond, sg) && PlainExpr(e.yes, sg) && PlainExpr(e.no, sg)
    else if e.Step? then PlainTarget(e.target, sg)
    else if R.IsShortCircuit(e) then PlainExpr(e.lhs, sg) && PlainExpr(e.rhs, sg)
    else R.IsOperationExpr(e) ==> PlainList(R.Operands(e, sg), sg)
  }

  predicate PlainList(es: seq<Expr>, sg: Sigs)
    decreases WeightList(es), |es| + 1
  {
    es == [] || (PlainExpr(es[0], sg) && PlainList(es[1..], sg))
  }

  predicate PlainTarget(t: Expr, sg: Sigs)
    decreases Weight(t) + 1, 0
  {
    match t
    case Ident(n) => !Hidden(n)
    case Member(o, _) => PlainExpr(o, sg)
    case Index(o, i) => PlainExpr(o, sg) && PlainExpr(i, sg)
    case _ => true
  }

  predicate PlainStmt(s: Stmt, sg: Sigs) {
    match s
    case Return(r) => r.Some? ==> PlainExpr(r.value, sg)
    case ExprStmt(e) => PlainExpr(e, sg)
    case VarDecl(_, name, init) => !Hidden(name) && PlainExpr(R.InitExpr(init), sg)
    case Assign(t, e) => PlainTarget(t, sg) && PlainExpr(e, sg) && PlainList(R.AssignOperands(t, e), sg)
    case If(c, body, orelse) => PlainExpr(c, sg) && PlainStmts(body, sg) && PlainStmts(orelse, sg)
    case While(c, body) => PlainExpr(c, sg) && PlainStmts(body, sg)
    case For(_, name, it, body) => !Hidden(name) && PlainExpr(it, sg) && PlainStmts(body, sg)
    case Require(c, o) => PlainExpr(c, sg) && PlainExpr(o, sg)
    case Try(body, name, orelse) => !Hidden(name) && PlainStmts(body, sg) && PlainStmts(orelse, sg)
    case Break => true
    case Continue => true
  }

  predicate PlainStmts(ss: seq<Stmt>, sg: Sigs) {
    ss == [] || (PlainStmt(ss[0], sg) && PlainStmts(ss[1..], sg))
  }

  // ─── Accepted expressions ──────────────────────────────────────────────────

  /** Every name is declared and every call has a target and the arguments it takes. */
  predicate OkExpr(e: Expr, L: seq<Local>, sg: Sigs)
    decreases Weight(e), 0
  {
    if e.Lit? then true
    else if e.Ident? then ResolveLocal(L, e.name) >= 0
    else if e.This? then ResolveLocal(L, "this") >= 0
    else if e.Ternary? then OkExpr(e.cond, L, sg) && OkExpr(e.yes, L, sg) && OkExpr(e.no, L, sg)
    else if e.Step? then OkTarget(e.target, L, sg)
    else if R.IsShortCircuit(e) then OkExpr(e.lhs, L, sg) && OkExpr(e.rhs, L, sg)
    else R.IsOperationExpr(e) && OkList(R.Operands(e, sg), L, sg) && OkOperation(e, sg)
  }

  predicate OkList(es: seq<Expr>, L: seq<Local>, sg: Sigs)
    decreases WeightList(es), |es| + 1
  {
    es == [] || (OkExpr(es[0], L, sg) && OkList(es[1..], L, sg))
  }

  predicate OkTarget(t: Expr, L: seq<Local>, sg: Sigs)
    decreases Weight(t) + 1, 0
  {
    match t
    case Ident(n) => ResolveLocal(L, n) >= 0
    case Member(o, _) => OkExpr(o, L, sg)
    case Index(o, i) => OkExpr(o, L, sg) && OkExpr(i, L + [CONTAINER], sg)
    case _ => false
  }

  predicate OkOperation(e: Expr, sg: Sigs)
    requires R.IsOperationExpr(e)
  {
    R.IsCall(e) ==> OkCall(R.TheCall(e), e.Await?, sg)
  }

  /** A builtin that suspends has to be awaited, and no other builtin can be; the
    source does not look at `await` on anything else.  `render` compiles a template
    and is not part of this model. */
  predicate OkCall(c: Expr, awaited: bool, sg: Sigs)
    requires c.Call?
  {
    match Resolve(c.callee, sg)
    case Builtin(def) =>
      && c.callee.name != "render" && def.isAsync == awaited
      && def.minArgs <= |c.args| && (def.maxArgs < 0 || |c.args| <= def.maxArgs) && |c.args| <= 255
    case UserFn(sig) => sig.required <= |c.args| <= |sig.defaults| && |sig.defaults| <= 255
    case Method(_, _) => |c.args| <= 255
    case Unknown => false
  }

  // ─── Accepted statements ───────────────────────────────────────────────────

  /** `name` is already declared in the innermost scope, the one of depth `d`; `D` are
    the depths of the variables `L`. */
  predicate Clashes(L: seq<Local>, D: seq<int>, name: string, d: int)
    requires |L| == |D|
  {
    L != [] && D[|D| - 1] >= d && (L[|L| - 1].name == name || Clashes(L[..|L| - 1], D[..|D| - 1], name, d))
  }

  function AfterDepths(s: Stmt, D: seq<int>, d: int): seq<int> {
    if s.VarDecl? then D + [d] else D
  }

  predicate OkStmt(s: Stmt, L: seq<Local>, D: seq<int>, d: int, inLoop: bool, sg: Sigs)
    requires |L| == |D|
    decreases s, 0
  {
    match s
    case Return(r) => r.Some? ==> OkExpr(r.value, L, sg)
    case ExprStmt(e) => OkExpr(e, L, sg)
    case VarDecl(_, name, init) => OkExpr(R.InitExpr(init), L, sg) && !Clashes(L, D, name, d)
    case Assign(t, e) =>
      if t.Ident? then ResolveLocal(L, t.name) >= 0 && OkExpr(e, L, sg)
      else (t.Index? || t.Member?) && OkList(R.AssignOperands(t, e), L, sg)
    case If(c, body, orelse) =>
      && OkExpr(c, L, sg) && OkStmts(body, L, D, d + 1, inLoop, sg) && OkStmts(orelse, L, D, d + 1, inLoop, sg)
    case While(c, body) => OkExpr(c, L, sg) && OkStmts(body, L, D, d + 1, true, sg)
    case For(_, _, it, body) =>
      && OkExpr(it, L, sg)
      && OkStmts(body, ForLocals(s, L), D + [d + 1, d + 1, d + 1, d + 1], d + 2, true, sg)
    case Require(c, o) => OkExpr(c, L, sg) && OkExpr(o, L, sg)
    case Try(body, name, orelse) =>
      && OkStmts(body, L, D, d + 1, inLoop, sg)
      && OkStmts(orelse, CatchLocals(name, L), if name == "" then D else D + [d + 1], d + 1, inLoop, sg)
    case Break => inLoop
    case Continue => inLoop
  }

  predicate OkStmts(ss: seq<Stmt>, L: seq<Local>, D: seq<int>, d: int, inLoop: bool, sg: Sigs)
    requires |L| == |D|
    decreases ss, 1
  {
    ss == [] || (OkStmt(ss[0], L, D, d, inLoop, sg)
                 && OkStmts(ss[1..], After(ss[0], L), AfterDepths(ss[0], D, d), d, inLoop, sg))
  }

  function Zeros(n: nat): (r: seq<int>)
    ensures |r| == n && forall i :: 0 <= i < n ==> r[i] == 0
  {
    seq(n, _ => 0)
  }

  predicate DistinctParams(params: seq<Param>) {
    forall i, j :: 0 <= i < j < |params| ==> params[i].name != params[j].name
  }

  predicate OkDecl(decl: Decl, sg: Sigs) {
    var L, D := ParamLocals(decl.params), Zeros(|decl.params|);
    && DistinctParams(decl.params)
    && OkStmts(R.GuardStmts(decl.guards), L, D, 0, false, sg)
    && OkStmts(decl.body, L, D, 1, false, sg)
  }

  predicate PlainDecl(decl: Decl, sg: Sigs) {
    && (forall i :: 0 <= i < |decl.params| ==> !Hidden(decl.params[i].name))
    && PlainStmts(R.GuardStmts(decl.guards), sg) && PlainStmts(decl.body, sg)
  }

  // ─── Holes ─────────────────────────────────────────────────────────────────

  /** The addresses of the `break` jumps (or the `continue` jumps) that a statement at
    `a` leaves open: those of the loop around it, in the order they are emitted. */
  function OpenJumps(brk: bool, s: Stmt, sg: Sigs, a: nat): seq<nat>
    decreases s, 0
  {
    match s
    case Break => if brk then [a] else []
    case Continue => if brk then [] else [a]
    case If(c, body, orelse) =>
      var b := a + ExprSize(c, sg) + 1;
      OpenJumpsIn(brk, body, sg, b) + OpenJumpsIn(brk, orelse, sg, b + BlockSize(body, sg) + 1)
    case Try(body, _, orelse) =>
      OpenJumpsIn(brk, body, sg, a) + OpenJumpsIn(brk, orelse, sg, a + BlockSize(body, sg) + 2)
    case _ => []
  }

  function OpenJumpsIn(brk: bool, ss: seq<Stmt>, sg: Sigs, a: nat): seq<nat>
    decreases ss, 1
  {
    if ss == [] then []
    else OpenJumps(brk, ss[0], sg, a) + OpenJumpsIn(brk, ss[1..], sg, a + StmtSize(ss[0], sg))
  }

  /** Open jumps are inside the statement that leaves them. */
  lemma {:induction false} OpenJumpsInside(brk: bool, s: Stmt, sg: Sigs, a: nat, i: nat)
    requires i in OpenJumps(brk, s, sg, a)
    ensures a <= i < a + StmtSize(s, sg)
    decreases s, 0
  {
    hide ExprSize;
    match s
    case If(c, body, orelse) =>
      var b := a + ExprSize(c, sg) + 1;
      if i in OpenJumpsIn(brk, body, sg, b) {
        OpenJumpsInsideBlock(brk, body, sg, b, i);
      } else {
        OpenJumpsInsideBlock(brk, orelse, sg, b + BlockSize(body, sg) + 1, i);
      }
    case Try(body, _, orelse) =>
      if i in OpenJumpsIn(brk, body, sg, a) {
        OpenJumpsInsideBlock(brk, body, sg, a, i);
      } else {
        OpenJumpsInsideBlock(brk, orelse, sg, a + BlockSize(body, sg) + 2, i);
      }
    case _ =>
  }

  lemma {:induction false} OpenJumpsInsideBlock(brk: bool, ss: seq<Stmt>, sg: Sigs, a: nat, i: nat)
    requires i in OpenJumpsIn(brk, ss, sg, a)
    ensures a <= i < a + BlockSize(ss, sg)
    decreases ss, 1
  {
    hide StmtSize;
    if i in OpenJumps(brk, ss[0], sg, a) {
      OpenJumpsInside(brk, ss[0], sg, a, i);
    } else {
      OpenJumpsInsideBlock(brk, ss[1..], sg, a + StmtSize(ss[0], sg), i);
    }
  }
}
