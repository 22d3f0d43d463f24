/** Every slot is written before it is read: how many slots hold something at each address
  of compiled code, and that this is so in every reachable state. */
module Initialised {
  import opened Wrappers
  import opened Values
  import opened Ast
  import opened Bytecode
  import opened Layout
  import opened Stability
  import opened StmtParts
  import opened Patching
  import R = Reference

  // ─── How many slots hold something ─────────────────────────────────────────

  /** At address `pc` of the code of `e` at `a`, when there are `n` variables in scope; `n`
    everywhere else. */
  function ExprLive(e: Expr, sg: Sigs, n: nat, a: nat, pc: nat): (r: nat)
    ensures r >= n && (pc < a || a + ExprSize(e, sg) <= pc ==> r == n)
    decreases Weight(e), 0
  {
    if pc < a || a + ExprSize(e, sg) <= pc then n
    else if e.Ternary? then
      var b := a + ExprSize(e.cond, sg);
      var c := b + 1 + ExprSize(e.yes, sg);
      if pc <= b then ExprLive(e.cond, sg, n, a, pc)
      else if pc <= c then ExprLive(e.yes, sg, n, b + 1, pc)
      else ExprLive(e.no, sg, n, c + 1, pc)
    else if e.Step? then StepLive(e.target, sg, n, a, pc)
    else if R.IsShortCircuit(e) then
      var b := a + ExprSize(e.lhs, sg);
      if pc <= b then ExprLive(e.lhs, sg, n, a, pc) else ExprLive(e.rhs, sg, n, b + 1, pc)
    else if R.IsOperationExpr(e) then ListLive(R.Operands(e, sg), sg, n, a, pc)
    else n
  }

  function ListLive(es: seq<Expr>, sg: Sigs, n: nat, a: nat, pc: nat): (r: nat)
    ensures r >= n && (pc < a || a + ListSize(es, sg) <= pc ==> r == n)
    decreases WeightList(es), |es| + 1
  {
    if es == [] then n
    else if pc < a + ExprSize(es[0], sg) then ExprLive(es[0], sg, n, a, pc)
    else ListLive(es[1..], sg, n, a + ExprSize(es[0], sg), pc)
  }

  /** The hidden variables of a step. */
  function StepLive(t: Expr, sg: Sigs, n: nat, a: nat, pc: nat): (r: nat)
    ensures r >= n && (pc < a ==> r == n)
    decreases Weight(t) + 1, 0
  {
    match t
    case Member(o, _) =>
      var b := a + ExprSize(o, sg);
      if pc <= b then ExprLive(o, sg, n, a, pc) else if pc <= b + 3 then n + 1 else n + 2
    case Index(o, i) =>
      var c := a + ExprSize(o, sg);
      var b := c + 1 + ExprSize(i, sg);
      if pc <= c then ExprLive(o, sg, n, a, pc)
      else if pc <= b then ExprLive(i, sg, n + 1, c + 1, pc)
      else if pc <= b + 4 then n + 2
      else n + 3
    case _ => n
  }

  function StmtLive(s: Stmt, sg: Sigs, n: nat, a: nat, pc: nat): (r: nat)
    ensures r >= n && (pc < a || a + StmtSize(s, sg) <= pc ==> r == n)
    decreases s, 0
  {
    if pc < a || a + StmtSize(s, sg) <= pc then n
    else if IsSimple(s) then ExprLive(SimpleExpr(s), sg, n, a, pc)
    else
      match s
      case Assign(t, e) => ListLive(R.AssignOperands(t, e), sg, n, a, pc)
      case If(c, body, orelse) =>
        var b := a + ExprSize(c, sg);
        var e := b + 1 + BlockSize(body, sg);
        if pc <= b then ExprLive(c, sg, n, a, pc)
        else if pc <= e then BlockLive(body, sg, n, b + 1, pc)
        else BlockLive(orelse, sg, n, e + 1, pc)
      case While(c, body) =>
        var b := a + ExprSize(c, sg);
        if pc <= b then ExprLive(c, sg, n, a, pc) else BlockLive(body, sg, n, b + 1, pc)
      case For(_, _, it, body) =>
        var b := a + ExprSize(it, sg);
        var e := b + 15 + BlockSize(body, sg);
        if pc <= b + 1 then ExprLive(it, sg, n, a, pc)
        else if pc <= b + 4 then n + 1
        else if pc <= b + 6 then n + 2
        else if pc < b + 15 then n + 3
        else if pc < e then BlockLive(body, sg, n + 4, b + 15, pc)
        else n + 3
      case Require(c, o) =>
        var b := a + ExprSize(c, sg);
        if pc <= b + 1 then ExprLive(c, sg, n, a, pc) else ExprLive(o, sg, n, b + 2, pc)
      case Try(body, name, orelse) =>
        var e := a + BlockSize(body, sg);
        if pc <= e + 1 then BlockLive(body, sg, n, a, pc)
        else BlockLive(orelse, sg, if name == "" then n else n + 1, e + 2, pc)
      case _ => n
  }

  /** A declaration brings one variable more into scope. */
  function BlockLive(ss: seq<Stmt>, sg: Sigs, n: nat, a: nat, pc: nat): (r: nat)
    ensures r >= n && (pc < a || a + BlockSize(ss, sg) <= pc ==> r == n)
    decreases ss, 1
  {
    if pc < a || a + BlockSize(ss, sg) <= pc || ss == [] then n
    else if pc < a + StmtSize(ss[0], sg) then StmtLive(ss[0], sg, n, a, pc)
    else BlockLive(ss[1..], sg, if ss[0].VarDecl? then n + 1 else n, a + StmtSize(ss[0], sg), pc)
  }

  function DeclLive(decl: Decl, sg: Sigs, pc: nat): (r: nat)
    ensures r >= |decl.params|
  {
    var gs, n := R.GuardStmts(decl.guards), |decl.params|;
    if pc < BlockSize(gs, sg) then BlockLive(gs, sg, n, 0, pc)
    else BlockLive(decl.body, sg, n, BlockSize(gs, sg), pc)
  }

  // ─── One instruction ───────────────────────────────────────────────────────

  /** Address `x` can come after instruction `i` at `pc`. */
  predicate IsNext(i: Instr, pc: nat, x: nat) {
    match i
    case OpJump(to) => x == to
    case OpJumpIfFalse(to) => x == to || x == pc + 1
    case OpJumpIfFalsePeek(to) => x == to || x == pc + 1
    case OpJumpIfTruePeek(to) => x == to || x == pc + 1
    case OpReturn => false
    case OpReturnNull => false
    case _ => x == pc + 1
  }

  function Gained(i: Instr, k: nat): nat { if i.OpStoreLocal? && i.slot == k then k + 1 else k }

  /** A call passes as many arguments as some function has parameters. */
  ghost predicate CallFits(sg: Sigs, i: Instr) {
    i.OpCallFunction? ==>
      exists name {:trigger sg.functions[name]} ::
        name in sg.functions && sg.functions[name].index == i.index && |sg.functions[name].defaults| == i.argc
  }

  /** What is read is there, and what is there afterwards is enough for what comes next. */
  ghost predicate Leads(sg: Sigs, ch: Chunk, pc: nat, f: nat -> nat) {
    && pc < |ch.code|
    && (ch.code[pc].OpLoadLocal? ==> ch.code[pc].slot < f(pc)) && CallFits(sg, ch.code[pc])
    && forall x: nat :: IsNext(ch.code[pc], pc, x) ==> f(x) <= Gained(ch.code[pc], f(pc))
  }

  /** What comes next is in [lo, hi], or a target. */
  ghost predicate Stays(ch: Chunk, pc: nat, lo: nat, hi: nat, t: Targets) {
    && pc < |ch.code|
    && forall x: nat :: IsNext(ch.code[pc], pc, x) ==> lo <= x <= hi || (t.Targets? && (x == t.brk || x == t.cont))
  }

  ghost predicate Lives(sg: Sigs, ch: Chunk, f: nat -> nat, from: nat, to: nat, lo: nat, hi: nat, t: Targets) {
    forall pc: nat {:trigger Leads(sg, ch, pc, f)} :: from <= pc < to ==>
      Leads(sg, ch, pc, f) && Stays(ch, pc, lo, hi, t)
  }

  /** The targets are no addresses of the part. */
  predicate Outside(t: Targets, a: nat, end: nat) {
    t.Targets? ==> (t.brk < a || end <= t.brk) && (t.cont < a || end <= t.cont)
  }

  /** A part of a whole. */
  lemma LivesWithin(sg: Sigs, ch: Chunk, f: nat -> nat, g: nat -> nat, a: nat, b: nat, t1: Targets, lo: nat, hi: nat,
                    t: Targets)
    requires Lives(sg, ch, f, a, b, a, b, t1) && lo <= a && b <= hi
    requires forall pc: nat :: a <= pc < b ==> g(pc) == f(pc)
    requires g(b) <= f(b)
    requires t1.Targets? ==> g(t1.brk) <= f(t1.brk) && g(t1.cont) <= f(t1.cont)
    requires t1.Targets? ==> t == t1 || (lo <= t1.brk <= hi && lo <= t1.cont <= hi)
    ensures Lives(sg, ch, g, a, b, lo, hi, t)
  {
    hide IsNext;
    forall pc: nat | a <= pc < b
      ensures Leads(sg, ch, pc, g) && Stays(ch, pc, lo, hi, t)
    {
      assert Leads(sg, ch, pc, f) && Stays(ch, pc, a, b, t1);
      forall x: nat | IsNext(ch.code[pc], pc, x)
        ensures g(x) <= Gained(ch.code[pc], g(pc))
      {
        assert g(x) <= f(x);
      }
    }
  }

  lemma LivesJoin(sg: Sigs, ch: Chunk, f: nat -> nat, a: nat, b: nat, c: nat, lo: nat, hi: nat, t: Targets)
    requires Lives(sg, ch, f, a, b, lo, hi, t) && Lives(sg, ch, f, b, c, lo, hi, t)
    ensures Lives(sg, ch, f, a, c, lo, hi, t)
  {
    hide Leads, Stays;
  }

  lemma LivesOne(sg: Sigs, ch: Chunk, f: nat -> nat, a: nat, lo: nat, hi: nat, t: Targets)
    requires Leads(sg, ch, a, f) && Stays(ch, a, lo, hi, t)
    ensures Lives(sg, ch, f, a, a + 1, lo, hi, t)
  {
    hide Leads, Stays;
  }

  lemma LivesJoin4(sg: Sigs, ch: Chunk, f: nat -> nat, a: nat, b: nat, c: nat, d: nat, e: nat, lo: nat, hi: nat,
                   t: Targets)
    requires Lives(sg, ch, f, a, b, lo, hi, t) && Lives(sg, ch, f, b, c, lo, hi, t)
    requires Lives(sg, ch, f, c, d, lo, hi, t) && Lives(sg, ch, f, d, e, lo, hi, t)
    ensures Lives(sg, ch, f, a, e, lo, hi, t)
  {
    hide Lives;
    LivesJoin(sg, ch, f, a, b, c, lo, hi, t);
    LivesJoin(sg, ch, f, a, c, d, lo, hi, t);
    LivesJoin(sg, ch, f, a, d, e, lo, hi, t);
  }

  /** An instruction after which the next one comes. */
  lemma Falls(sg: Sigs, ch: Chunk, f: nat -> nat, a: nat, lo: nat, hi: nat, t: Targets)
    requires a < |ch.code| && !IsJump(ch.code[a]) && !ch.code[a].OpLoadLocal? && !ch.code[a].OpStoreLocal?
    requires CallFits(sg, ch.code[a])
    requires f(a + 1) <= f(a) && lo <= a + 1 <= hi
    ensures Lives(sg, ch, f, a, a + 1, lo, hi, t)
  {
    FallsIs(ch.code[a], a);
    assert Leads(sg, ch, a, f);
    LivesOne(sg, ch, f, a, lo, hi, t);
  }

  lemma FallsIs(i: Instr, a: nat)
    requires !IsJump(i)
    ensures forall x: nat :: IsNext(i, a, x) ==> x == a + 1
  {
  }

  lemma LoadLives(sg: Sigs, ch: Chunk, f: nat -> nat, a: nat, slot: nat, lo: nat, hi: nat, t: Targets)
    requires Has(ch, a, OpLoadLocal(slot)) && slot < f(a) && f(a + 1) <= f(a) && lo <= a + 1 <= hi
    ensures Lives(sg, ch, f, a, a + 1, lo, hi, t)
  {
    assert forall x: nat :: IsNext(ch.code[a], a, x) ==> x == a + 1;
    assert Leads(sg, ch, a, f);
    LivesOne(sg, ch, f, a, lo, hi, t);
  }

  lemma StoreLives(sg: Sigs, ch: Chunk, f: nat -> nat, a: nat, slot: nat, lo: nat, hi: nat, t: Targets)
    requires Has(ch, a, OpStoreLocal(slot)) && f(a + 1) <= Gained(OpStoreLocal(slot), f(a)) && lo <= a + 1 <= hi
    ensures Lives(sg, ch, f, a, a + 1, lo, hi, t)
  {
    assert forall x: nat :: IsNext(ch.code[a], a, x) ==> x == a + 1;
    assert Leads(sg, ch, a, f);
    LivesOne(sg, ch, f, a, lo, hi, t);
  }

  lemma JumpLives(sg: Sigs, ch: Chunk, f: nat -> nat, a: nat, to: nat, lo: nat, hi: nat, t: Targets)
    requires Has(ch, a, OpJump(to)) && f(to) <= f(a)
    requires lo <= to <= hi || (t.Targets? && (to == t.brk || to == t.cont))
    ensures Lives(sg, ch, f, a, a + 1, lo, hi, t)
  {
    assert forall x: nat :: IsNext(ch.code[a], a, x) ==> x == to;
    assert Leads(sg, ch, a, f);
    LivesOne(sg, ch, f, a, lo, hi, t);
  }

  lemma BranchLives(sg: Sigs, ch: Chunk, f: nat -> nat, a: nat, i: Instr, lo: nat, hi: nat, t: Targets)
    requires Has(ch, a, i) && (i.OpJumpIfFalse? || i.OpJumpIfFalsePeek? || i.OpJumpIfTruePeek?)
    requires f(i.to) <= f(a) && f(a + 1) <= f(a) && lo <= a + 1 <= hi && lo <= i.to <= hi
    ensures Lives(sg, ch, f, a, a + 1, lo, hi, t)
  {
    assert forall x: nat :: IsNext(i, a, x) ==> x == i.to || x == a + 1;
    assert Leads(sg, ch, a, f);
    LivesOne(sg, ch, f, a, lo, hi, t);
  }

  // ─── Expressions ───────────────────────────────────────────────────────────

  function OfExpr(e: Expr, sg: Sigs, n: nat, a: nat): nat -> nat { (pc: nat) => ExprLive(e, sg, n, a, pc) }

  function OfList(es: seq<Expr>, sg: Sigs, n: nat, a: nat): nat -> nat { (pc: nat) => ListLive(es, sg, n, a, pc) }

  /** Behind a declaration there is one slot more. */
  function OfStmt(s: Stmt, sg: Sigs, n: nat, a: nat): nat -> nat {
    (pc: nat) => if s.VarDecl? && pc == a + StmtSize(s, sg) then n + 1 else StmtLive(s, sg, n, a, pc)
  }

  function OfBlock(ss: seq<Stmt>, sg: Sigs, n: nat, a: nat): nat -> nat { (pc: nat) => BlockLive(ss, sg, n, a, pc) }

  /** Code of an expression starts with `n`. */
  lemma {:induction false} ExprStarts(e: Expr, sg: Sigs, n: nat, a: nat)
    ensures ExprLive(e, sg, n, a, a) == n && ExprSize(e, sg) > 0
    decreases Weight(e), 0
  {
    hide ExprLive, ExprSize, ListLive, ListSize, StepLive, StepSize, R.Operands, Weight;
    ExprLiveIs(e, sg, n, a, a);
    SizeByKind(e, sg);
    WeightByKind(e);
    if e.Ternary? {
      ExprStarts(e.cond, sg, n, a);
    } else if e.Step? {
      StepStarts(e, sg, n, a);
    } else if R.IsShortCircuit(e) {
      ExprStarts(e.lhs, sg, n, a);
    } else if R.IsOperationExpr(e) {
      ListStarts(R.Operands(e, sg), sg, n, a);
    }
  }

  lemma {:induction false} ListStarts(es: seq<Expr>, sg: Sigs, n: nat, a: nat)
    ensures ListLive(es, sg, n, a, a) == n
    decreases WeightList(es), |es| + 1
  {
    hide ExprLive, ExprSize, Weight;
    if es != [] {
      ExprStarts(es[0], sg, n, a);
    }
  }

  lemma {:induction false} StepStarts(e: Expr, sg: Sigs, n: nat, a: nat)
    requires e.Step?
    ensures StepLive(e.target, sg, n, a, a) == n && StepSize(e.post, e.target, sg) > 0
    decreases Weight(e.target) + 1, 1
  {
    hide ExprLive, ExprSize, Weight;
    WeightByKind(e.target);
    match e.target
    case Member(o, _) => ExprStarts(o, sg, n, a);
    case Index(o, i) => ExprStarts(o, sg, n, a);
    case _ =>
  }

  /** One level of the definition. */
  lemma ExprLiveIs(e: Expr, sg: Sigs, n: nat, a: nat, pc: nat)
    ensures ExprLive(e, sg, n, a, pc)
            == if pc < a || a + ExprSize(e, sg) <= pc then n
               else if e.Ternary? then
                 var b := a + ExprSize(e.cond, sg);
                 var c := b + 1 + ExprSize(e.yes, sg);
                 if pc <= b then ExprLive(e.cond, sg, n, a, pc)
                 else if pc <= c then ExprLive(e.yes, sg, n, b + 1, pc)
                 else ExprLive(e.no, sg, n, c + 1, pc)
               else if e.Step? then StepLive(e.target, sg, n, a, pc)
               else if R.IsShortCircuit(e) then
                 var b := a + ExprSize(e.lhs, sg);
                 if pc <= b then ExprLive(e.lhs, sg, n, a, pc) else ExprLive(e.rhs, sg, n, b + 1, pc)
               else if R.IsOperationExpr(e) then ListLive(R.Operands(e, sg), sg, n, a, pc)
               else n
  {
    hide ExprSize, ListLive, StepLive, R.Operands;
  }

  /** A part of the same function, up to its end. */
  lemma ExprPart(ch: Chunk, sg: Sigs, e: Expr, n: nat, a: nat, f: nat -> nat, lo: nat, hi: nat, t: Targets)
    requires var end := a + ExprSize(e, sg);
             && Lives(sg, ch, OfExpr(e, sg, n, a), a, end, a, end, NoTargets) && lo <= a && end <= hi
             && (forall pc: nat :: a <= pc < end ==> f(pc) == ExprLive(e, sg, n, a, pc)) && f(end) <= n
    ensures Lives(sg, ch, f, a, a + ExprSize(e, sg), lo, hi, t)
  {
    hide ExprLive, ExprSize, Lives;
    LivesWithin(sg, ch, OfExpr(e, sg, n, a), f, a, a + ExprSize(e, sg), NoTargets, lo, hi, t);
  }

  /** Code of an expression reads only what is there. */
  lemma {:induction false} ExprLives(ch: Chunk, sg: Sigs, e: Expr, L: seq<Local>, a: nat)
    requires ExprCode(ch, sg, e, L, a)
    ensures var end := a + ExprSize(e, sg); Lives(sg, ch, OfExpr(e, sg, |L|, a), a, end, a, end, NoTargets)
    decreases Weight(e), 1
  {
    hide *;
    CodeByKind(ch, sg, e, L, a);
    SizeByKind(e, sg);
    WeightByKind(e);
    if e.Ternary? {
      TernaryLives(ch, sg, e, L, a);
    } else if e.Step? {
      StepLives(ch, sg, e, L, a);
    } else if R.IsShortCircuit(e) {
      ShortCircuitLives(ch, sg, e, L, a);
    } else if R.IsOperationExpr(e) {
      OperationLives(ch, sg, e, L, a);
    } else {
      LeafLives(ch, sg, e, L, a);
    }
  }

  lemma LeafLives(ch: Chunk, sg: Sigs, e: Expr, L: seq<Local>, a: nat)
    requires ExprCode(ch, sg, e, L, a) && (e.Lit? || e.Ident? || e.This?) && ExprSize(e, sg) == 1
    ensures Lives(sg, ch, OfExpr(e, sg, |L|, a), a, a + 1, a, a + 1, NoTargets)
  {
    hide ResolveLocal, Hidden, ExprSize;
    var f := OfExpr(e, sg, |L|, a);
    ExprLiveIs(e, sg, |L|, a, a);
    ExprLiveIs(e, sg, |L|, a, a + 1);
    if e.Lit? {
      Falls(sg, ch, f, a, a, a + 1, NoTargets);
    } else {
      LoadLives(sg, ch, f, a, ResolveLocal(L, if e.Ident? then e.name else "this"), a, a + 1, NoTargets);
    }
  }

  lemma {:induction false} TernaryLives(ch: Chunk, sg: Sigs, e: Expr, L: seq<Local>, a: nat)
    requires e.Ternary? && ExprCode(ch, sg, e, L, a)
    ensures var end := a + ExprSize(e, sg); Lives(sg, ch, OfExpr(e, sg, |L|, a), a, end, a, end, NoTargets)
    decreases Weight(e), 0
  {
    hide ExprCode, ExprSize, ExprLive, Weight, Lives, Has, TernaryCode;
    var n, f := |L|, OfExpr(e, sg, |L|, a);
    var b := a + ExprSize(e.cond, sg);
    var c := b + 1 + ExprSize(e.yes, sg);
    var end := c + 1 + ExprSize(e.no, sg);
    CodeByKind(ch, sg, e, L, a);
    TernaryParts(ch, sg, e.cond, e.yes, e.no, L, a, b, c);
    SizeByKind(e, sg);
    WeightByKind(e);
    forall pc: nat
      ensures f(pc) == if pc < a || end <= pc then n
                       else if pc <= b then ExprLive(e.cond, sg, n, a, pc)
                       else if pc <= c then ExprLive(e.yes, sg, n, b + 1, pc)
                       else ExprLive(e.no, sg, n, c + 1, pc)
    {
      ExprLiveIs(e, sg, n, a, pc);
    }
    ExprStarts(e.yes, sg, n, b + 1);
    ExprStarts(e.no, sg, n, c + 1);
    ExprLives(ch, sg, e.cond, L, a);
    ExprLives(ch, sg, e.yes, L, b + 1);
    ExprLives(ch, sg, e.no, L, c + 1);
    ExprPart(ch, sg, e.cond, n, a, f, a, end, NoTargets);
    ExprPart(ch, sg, e.yes, n, b + 1, f, a, end, NoTargets);
    ExprPart(ch, sg, e.no, n, c + 1, f, a, end, NoTargets);
    BranchLives(sg, ch, f, b, OpJumpIfFalse(c + 1), a, end, NoTargets);
    JumpLives(sg, ch, f, c, end, a, end, NoTargets);
    LivesJoin(sg, ch, f, a, b, b + 1, a, end, NoTargets);
    LivesJoin4(sg, ch, f, a, b + 1, c, c + 1, end, a, end, NoTargets);
  }

  lemma {:induction false} ShortCircuitLives(ch: Chunk, sg: Sigs, e: Expr, L: seq<Local>, a: nat)
    requires R.IsShortCircuit(e) && ExprCode(ch, sg, e, L, a)
    ensures var end := a + ExprSize(e, sg); Lives(sg, ch, OfExpr(e, sg, |L|, a), a, end, a, end, NoTargets)
    decreases Weight(e), 0
  {
    hide ExprCode, ExprSize, ExprLive, Weight, Lives, Has, ShortCircuitCode;
    var n, f := |L|, OfExpr(e, sg, |L|, a);
    var b := a + ExprSize(e.lhs, sg);
    var end := b + 1 + ExprSize(e.rhs, sg);
    CodeByKind(ch, sg, e, L, a);
    ShortCircuitParts(ch, sg, e.bop.Or?, e.lhs, e.rhs, L, a, b, end);
    SizeByKind(e, sg);
    WeightByKind(e);
    forall pc: nat
      ensures f(pc) == if pc < a || end <= pc then n
                       else if pc <= b then ExprLive(e.lhs, sg, n, a, pc) else ExprLive(e.rhs, sg, n, b + 1, pc)
    {
      ExprLiveIs(e, sg, n, a, pc);
    }
    ExprStarts(e.rhs, sg, n, b + 1);
    ExprLives(ch, sg, e.lhs, L, a);
    ExprLives(ch, sg, e.rhs, L, b + 1);
    ExprPart(ch, sg, e.lhs, n, a, f, a, end, NoTargets);
    ExprPart(ch, sg, e.rhs, n, b + 1, f, a, end, NoTargets);
    BranchLives(sg, ch, f, b, if e.bop.Or? then OpJumpIfTruePeek(end) else OpJumpIfFalsePeek(end), a, end, NoTargets);
    LivesJoin(sg, ch, f, a, b, b + 1, a, end, NoTargets);
    LivesJoin(sg, ch, f, a, b + 1, end, a, end, NoTargets);
  }

  lemma {:induction false} OperationLives(ch: Chunk, sg: Sigs, e: Expr, L: seq<Local>, a: nat)
    requires R.IsOperationExpr(e) && ExprCode(ch, sg, e, L, a)
    ensures var end := a + ExprSize(e, sg); Lives(sg, ch, OfExpr(e, sg, |L|, a), a, end, a, end, NoTargets)
    decreases Weight(e), 0
  {
    hide ExprCode, ExprSize, ExprLive, Weight, Lives, OperationCode, R.Operands, ListLive, ListSize, HasOperation,
         ListCode;
    var n, f := |L|, OfExpr(e, sg, |L|, a);
    var es := R.Operands(e, sg);
    var b := a + ListSize(es, sg);
    CodeByKind(ch, sg, e, L, a);
    OperationParts(ch, sg, e, L, a, es);
    SizeByKind(e, sg);
    forall pc: nat
      ensures f(pc) == if pc < a || b + 1 <= pc then n else ListLive(es, sg, n, a, pc)
    {
      ExprLiveIs(e, sg, n, a, pc);
    }
    ListLives(ch, sg, es, L, a);
    LivesWithin(sg, ch, OfList(es, sg, n, a), f, a, b, NoTargets, a, b + 1, NoTargets);
    OperationIsOne(ch, b, sg, e, L);
    Falls(sg, ch, f, b, a, b + 1, NoTargets);
    LivesJoin(sg, ch, f, a, b, b + 1, a, b + 1, NoTargets);
  }

  lemma OperationIsOne(ch: Chunk, b: nat, sg: Sigs, e: Expr, L: seq<Local>)
    requires R.IsOperationExpr(e) && HasOperation(ch, b, sg, e, L)
    ensures b < |ch.code| && !IsJump(ch.code[b]) && !ch.code[b].OpLoadLocal? && !ch.code[b].OpStoreLocal?
    ensures CallFits(sg, ch.code[b])
  {
    hide EsInt, R.CallOperands;
  }

  lemma {:induction false} ListLives(ch: Chunk, sg: Sigs, es: seq<Expr>, L: seq<Local>, a: nat)
    requires ListCode(ch, sg, es, L, a)
    ensures var end := a + ListSize(es, sg); Lives(sg, ch, OfList(es, sg, |L|, a), a, end, a, end, NoTargets)
    decreases WeightList(es), |es| + 1
  {
    hide ExprCode, ExprSize, ExprLive, Weight, ListCode, Lives;
    var n, f := |L|, OfList(es, sg, |L|, a);
    if es != [] {
      var b := a + ExprSize(es[0], sg);
      ListParts(ch, sg, es, L, a);
      var end := b + ListSize(es[1..], sg);
      ExprLives(ch, sg, es[0], L, a);
      ListLives(ch, sg, es[1..], L, b);
      ListStarts(es[1..], sg, n, b);
      ExprPart(ch, sg, es[0], n, a, f, a, end, NoTargets);
      LivesWithin(sg, ch, OfList(es[1..], sg, n, b), f, b, end, NoTargets, a, end, NoTargets);
      LivesJoin(sg, ch, f, a, b, end, a, end, NoTargets);
    } else {
      NothingLives(sg, ch, f, a);
    }
  }

  lemma NothingLives(sg: Sigs, ch: Chunk, f: nat -> nat, a: nat)
    ensures Lives(sg, ch, f, a, a, a, a, NoTargets)
  {
  }

  // ─── Steps ─────────────────────────────────────────────────────────────────

  lemma {:induction false} StepLives(ch: Chunk, sg: Sigs, e: Expr, L: seq<Local>, a: nat)
    requires e.Step? && ExprCode(ch, sg, e, L, a)
    ensures var end := a + ExprSize(e, sg); Lives(sg, ch, OfExpr(e, sg, |L|, a), a, end, a, end, NoTargets)
    decreases Weight(e), 0
  {
    hide ExprCode, ExprSize, ExprLive, Weight, Lives, StepCode, StepSize, StepLive, NameStepCode, FieldStepCode,
         ElementStepCode;
    CodeByKind(ch, sg, e, L, a);
    StepParts(ch, sg, e.post, e.plus, e.target, L, a);
    SizeByKind(e, sg);
    WeightByKind(e);
    WeightByKind(e.target);
    if e.target.Ident? {
      NameStepLives(ch, sg, e, L, a);
    } else if e.target.Member? {
      ExprLives(ch, sg, e.target.obj, L, a);
      FieldStepLives(ch, sg, e, L, a);
    } else {
      ExprLives(ch, sg, e.target.obj, L, a);
      ExprLives(ch, sg, e.target.index, L + [CONTAINER], a + ExprSize(e.target.obj, sg) + 1);
      ElementStepLives(ch, sg, e, L, a);
    }
  }

  lemma NameStepLives(ch: Chunk, sg: Sigs, e: Expr, L: seq<Local>, a: nat)
    requires e.Step? && e.target.Ident? && NameStepCode(ch, e.post, e.plus, e.target.name, L, a)
    requires ExprSize(e, sg) == 5
    ensures Lives(sg, ch, OfExpr(e, sg, |L|, a), a, a + 5, a, a + 5, NoTargets)
  {
    hide ExprSize, ExprLive;
    var f := OfExpr(e, sg, |L|, a);
    forall pc: nat
      ensures f(pc) == |L|
    {
      ExprLiveIs(e, sg, |L|, a, pc);
    }
    NameStepReads(sg, ch, e.post, e.plus, e.target.name, L, a, f);
  }

  lemma NameStepReads(sg: Sigs, ch: Chunk, post: bool, plus: bool, name: string, L: seq<Local>, a: nat, f: nat -> nat)
    requires NameStepCode(ch, post, plus, name, L, a) && forall pc: nat :: f(pc) == |L|
    ensures Lives(sg, ch, f, a, a + 5, a, a + 5, NoTargets)
  {
    hide Hidden, ResolveLocal, Lives, IsConstant, IsNext;
    var slot, end := ResolveLocal(L, name), a + 5;
    var b := if post then a + 1 else a;
    if post {
      LoadLives(sg, ch, f, a, slot, a, end, NoTargets);
    } else {
      LoadLives(sg, ch, f, a + 4, slot, a, end, NoTargets);
    }
    LoadLives(sg, ch, f, b, slot, a, end, NoTargets);
    Falls(sg, ch, f, b + 1, a, end, NoTargets);
    Falls(sg, ch, f, b + 2, a, end, NoTargets);
    StoreLives(sg, ch, f, b + 3, slot, a, end, NoTargets);
    LivesJoin(sg, ch, f, b, b + 1, b + 2, a, end, NoTargets);
    LivesJoin(sg, ch, f, b, b + 2, b + 3, a, end, NoTargets);
    LivesJoin(sg, ch, f, b, b + 3, b + 4, a, end, NoTargets);
    if post {
      LivesJoin(sg, ch, f, a, b, end, a, end, NoTargets);
    } else {
      LivesJoin(sg, ch, f, a, a + 4, end, a, end, NoTargets);
    }
  }

  lemma {:induction false} FieldStepLives(ch: Chunk, sg: Sigs, e: Expr, L: seq<Local>, a: nat)
    requires e.Step? && e.target.Member?
    requires var b := a + ExprSize(e.target.obj, sg);
             && Lives(sg, ch, OfExpr(e.target.obj, sg, |L|, a), a, b, a, b, NoTargets)
             && FieldStepCode(ch, e.post, e.plus, e.target.field, |L|, b)
             && a + ExprSize(e, sg) == b + (if e.post then 11 else 9)
    ensures var end := a + ExprSize(e, sg); Lives(sg, ch, OfExpr(e, sg, |L|, a), a, end, a, end, NoTargets)
  {
    hide ExprSize, ExprLive, Lives, FieldStepCode;
    var n, f, o := |L|, OfExpr(e, sg, |L|, a), e.target.obj;
    var b := a + ExprSize(o, sg);
    var end := a + ExprSize(e, sg);
    forall pc: nat
      ensures f(pc) == if pc < a || end <= pc then n
                       else if pc <= b then ExprLive(o, sg, n, a, pc) else if pc <= b + 3 then n + 1 else n + 2
    {
      ExprLiveIs(e, sg, n, a, pc);
    }
    ExprPart(ch, sg, o, n, a, f, a, end, NoTargets);
    FieldEndLives(sg, ch, e.post, e.plus, e.target.field, n, b, f, a, end);
    LivesJoin(sg, ch, f, a, b, end, a, end, NoTargets);
  }

  lemma FieldEndLives(sg: Sigs, ch: Chunk, post: bool, plus: bool, field: string, n: nat, b: nat, f: nat -> nat,
                      lo: nat, end: nat)
    requires FieldStepCode(ch, post, plus, field, n, b) && end == b + (if post then 11 else 9) && lo <= b
    requires f(b) == n && f(end) == n && (forall pc :: b < pc <= b + 3 ==> f(pc) == n + 1)
    requires forall pc :: b + 3 < pc < end ==> f(pc) == n + 2
    ensures Lives(sg, ch, f, b, end, lo, end, NoTargets)
  {
    hide IsConstant, Lives, IsNext;
    StoreLives(sg, ch, f, b, n, lo, end, NoTargets);
    LoadLives(sg, ch, f, b + 1, n, lo, end, NoTargets);
    Falls(sg, ch, f, b + 2, lo, end, NoTargets);
    StoreLives(sg, ch, f, b + 3, n + 1, lo, end, NoTargets);
    LivesJoin4(sg, ch, f, b, b + 1, b + 2, b + 3, b + 4, lo, end, NoTargets);
    FieldAddLives(sg, ch, post, plus, field, n, b, f, lo, end);
    if post {
      Falls(sg, ch, f, b + 9, lo, end, NoTargets);
      LoadLives(sg, ch, f, b + 10, n + 1, lo, end, NoTargets);
      LivesJoin(sg, ch, f, b + 9, b + 10, end, lo, end, NoTargets);
      LivesJoin(sg, ch, f, b + 4, b + 9, end, lo, end, NoTargets);
    }
    LivesJoin(sg, ch, f, b, b + 4, end, lo, end, NoTargets);
  }

  lemma FieldAddLives(sg: Sigs, ch: Chunk, post: bool, plus: bool, field: string, n: nat, b: nat, f: nat -> nat,
                      lo: nat, end: nat)
    requires FieldStepCode(ch, post, plus, field, n, b) && end == b + (if post then 11 else 9) && lo <= b
    requires (forall pc :: b + 3 < pc <= b + 8 ==> f(pc) == n + 2) && f(b + 9) <= n + 2
    ensures Lives(sg, ch, f, b + 4, b + 9, lo, end, NoTargets)
  {
    hide IsConstant, Lives, IsNext;
    LoadLives(sg, ch, f, b + 4, n, lo, end, NoTargets);
    LoadLives(sg, ch, f, b + 5, n + 1, lo, end, NoTargets);
    Falls(sg, ch, f, b + 6, lo, end, NoTargets);
    Falls(sg, ch, f, b + 7, lo, end, NoTargets);
    Falls(sg, ch, f, b + 8, lo, end, NoTargets);
    LivesJoin4(sg, ch, f, b + 4, b + 5, b + 6, b + 7, b + 8, lo, end, NoTargets);
    LivesJoin(sg, ch, f, b + 4, b + 8, b + 9, lo, end, NoTargets);
  }

  lemma {:induction false} ElementStepLives(ch: Chunk, sg: Sigs, e: Expr, L: seq<Local>, a: nat)
    requires e.Step? && e.target.Index?
    requires var c := a + ExprSize(e.target.obj, sg);
             var b := c + 1 + ExprSize(e.target.index, sg);
             && Lives(sg, ch, OfExpr(e.target.obj, sg, |L|, a), a, c, a, c, NoTargets) && Has(ch, c, OpStoreLocal(|L|))
             && Lives(sg, ch, OfExpr(e.target.index, sg, |L| + 1, c + 1), c + 1, b, c + 1, b, NoTargets)
             && ElementStepCode(ch, e.post, e.plus, |L|, b)
             && a + ExprSize(e, sg) == b + (if e.post then 13 else 11)
    ensures var end := a + ExprSize(e, sg); Lives(sg, ch, OfExpr(e, sg, |L|, a), a, end, a, end, NoTargets)
  {
    hide ExprSize, ExprLive, Lives, ElementStepCode, Has;
    var n, f, o, i := |L|, OfExpr(e, sg, |L|, a), e.target.obj, e.target.index;
    var c := a + ExprSize(o, sg);
    var b := c + 1 + ExprSize(i, sg);
    var end := a + ExprSize(e, sg);
    forall pc: nat
      ensures f(pc) == if pc < a || end <= pc then n
                       else if pc <= c then ExprLive(o, sg, n, a, pc)
                       else if pc <= b then ExprLive(i, sg, n + 1, c + 1, pc)
                       else if pc <= b + 4 then n + 2 else n + 3
    {
      ExprLiveIs(e, sg, n, a, pc);
    }
    ExprStarts(i, sg, n + 1, c + 1);
    ExprPart(ch, sg, o, n, a, f, a, end, NoTargets);
    StoreLives(sg, ch, f, c, n, a, end, NoTargets);
    ExprPart(ch, sg, i, n + 1, c + 1, f, a, end, NoTargets);
    ElementEndLives(sg, ch, e.post, e.plus, n, b, f, a, end);
    LivesJoin(sg, ch, f, a, c, c + 1, a, end, NoTargets);
    LivesJoin(sg, ch, f, a, c + 1, b, a, end, NoTargets);
    LivesJoin(sg, ch, f, a, b, end, a, end, NoTargets);
  }

  lemma ElementEndLives(sg: Sigs, ch: Chunk, post: bool, plus: bool, n: nat, b: nat, f: nat -> nat, lo: nat, end: nat)
    requires ElementStepCode(ch, post, plus, n, b) && end == b + (if post then 13 else 11) && lo <= b
    requires f(b) == n + 1 && f(end) == n && (forall pc :: b < pc <= b + 4 ==> f(pc) == n + 2)
    requires forall pc :: b + 4 < pc < end ==> f(pc) == n + 3
    ensures Lives(sg, ch, f, b, end, lo, end, NoTargets)
  {
    hide IsConstant, Lives, IsNext;
    ElementReadLives(sg, ch, post, plus, n, b, f, lo, end);
    ElementAddLives(sg, ch, post, plus, n, b, f, lo, end);
    if post {
      Falls(sg, ch, f, b + 11, lo, end, NoTargets);
      LoadLives(sg, ch, f, b + 12, n + 2, lo, end, NoTargets);
      LivesJoin(sg, ch, f, b + 11, b + 12, end, lo, end, NoTargets);
      LivesJoin(sg, ch, f, b + 4, b + 11, end, lo, end, NoTargets);
    }
    LivesJoin(sg, ch, f, b, b + 4, end, lo, end, NoTargets);
  }

  lemma ElementReadLives(sg: Sigs, ch: Chunk, post: bool, plus: bool, n: nat, b: nat, f: nat -> nat, lo: nat, end: nat)
    requires ElementStepCode(ch, post, plus, n, b) && end == b + (if post then 13 else 11) && lo <= b
    requires f(b) == n + 1 && forall pc :: b < pc <= b + 4 ==> f(pc) == n + 2
    ensures Lives(sg, ch, f, b, b + 4, lo, end, NoTargets)
  {
    hide IsConstant, Lives, IsNext;
    StoreLives(sg, ch, f, b, n + 1, lo, end, NoTargets);
    LoadLives(sg, ch, f, b + 1, n, lo, end, NoTargets);
    LoadLives(sg, ch, f, b + 2, n + 1, lo, end, NoTargets);
    Falls(sg, ch, f, b + 3, lo, end, NoTargets);
    LivesJoin4(sg, ch, f, b, b + 1, b + 2, b + 3, b + 4, lo, end, NoTargets);
  }

  lemma ElementAddLives(sg: Sigs, ch: Chunk, post: bool, plus: bool, n: nat, b: nat, f: nat -> nat, lo: nat, end: nat)
    requires ElementStepCode(ch, post, plus, n, b) && end == b + (if post then 13 else 11) && lo <= b
    requires f(b + 4) == n + 2 && (forall pc :: b + 4 < pc <= b + 10 ==> f(pc) == n + 3) && f(b + 11) <= n + 3
    ensures Lives(sg, ch, f, b + 4, b + 11, lo, end, NoTargets)
  {
    hide IsConstant, Lives, IsNext;
    StoreLives(sg, ch, f, b + 4, n + 2, lo, end, NoTargets);
    LoadLives(sg, ch, f, b + 5, n, lo, end, NoTargets);
    LoadLives(sg, ch, f, b + 6, n + 1, lo, end, NoTargets);
    LoadLives(sg, ch, f, b + 7, n + 2, lo, end, NoTargets);
    Falls(sg, ch, f, b + 8, lo, end, NoTargets);
    Falls(sg, ch, f, b + 9, lo, end, NoTargets);
    Falls(sg, ch, f, b + 10, lo, end, NoTargets);
    LivesJoin4(sg, ch, f, b + 4, b + 5, b + 6, b + 7, b + 8, lo, end, NoTargets);
    LivesJoin4(sg, ch, f, b + 4, b + 8, b + 9, b + 10, b + 11, lo, end, NoTargets);
  }

  // ─── Statements ────────────────────────────────────────────────────────────

  lemma StmtLiveIs(s: Stmt, sg: Sigs, n: nat, a: nat, pc: nat)
    requires a <= pc < a + StmtSize(s, sg)
    ensures IsSimple(s) ==> StmtLive(s, sg, n, a, pc) == ExprLive(SimpleExpr(s), sg, n, a, pc)
    ensures s.Assign? && !s.target.Ident? ==>
              StmtLive(s, sg, n, a, pc) == ListLive(R.AssignOperands(s.target, s.value), sg, n, a, pc)
    ensures s.If? ==>
              var b := a + ExprSize(s.cond, sg);
              var e := b + 1 + BlockSize(s.body, sg);
              StmtLive(s, sg, n, a, pc)
              == if pc <= b then ExprLive(s.cond, sg, n, a, pc)
                 else if pc <= e then BlockLive(s.body, sg, n, b + 1, pc)
                 else BlockLive(s.orelse, sg, n, e + 1, pc)
    ensures s.While? ==>
              var b := a + ExprSize(s.cond, sg);
              StmtLive(s, sg, n, a, pc)
              == if pc <= b then ExprLive(s.cond, sg, n, a, pc) else BlockLive(s.body, sg, n, b + 1, pc)
    ensures s.Require? ==>
              var b := a + ExprSize(s.cond, sg);
              StmtLive(s, sg, n, a, pc)
              == if pc <= b + 1 then ExprLive(s.cond, sg, n, a, pc) else ExprLive(s.otherwise, sg, n, b + 2, pc)
    ensures s.Try? ==>
              var e := a + BlockSize(s.body, sg);
              StmtLive(s, sg, n, a, pc)
              == if pc <= e + 1 then BlockLive(s.body, sg, n, a, pc)
                 else BlockLive(s.orelse, sg, if s.name == "" then n else n + 1, e + 2, pc)
    ensures s.Break? || s.Continue? || (s.Return? && s.result.None?) ==> StmtLive(s, sg, n, a, pc) == n
  {
    hide ExprLive, ExprSize, ListLive, BlockLive, BlockSize, StmtSize, R.AssignOperands;
  }

  lemma ForLiveIs(s: Stmt, sg: Sigs, n: nat, a: nat, pc: nat)
    requires s.For? && a <= pc < a + StmtSize(s, sg)
    ensures var b := a + ExprSize(s.iterable, sg);
            var e := b + 15 + BlockSize(s.body, sg);
            StmtLive(s, sg, n, a, pc)
            == if pc <= b + 1 then ExprLive(s.iterable, sg, n, a, pc)
               else if pc <= b + 4 then n + 1
               else if pc <= b + 6 then n + 2
               else if pc < b + 15 then n + 3
               else if pc < e then BlockLive(s.body, sg, n + 4, b + 15, pc)
               else n + 3
  {
    hide ExprLive, ExprSize, BlockLive, BlockSize, StmtSize;
  }

  lemma {:induction false} StmtStarts(s: Stmt, sg: Sigs, n: nat, a: nat)
    ensures StmtLive(s, sg, n, a, a) == n
    decreases s, 0
  {
    hide StmtLive, ExprLive, ListLive, BlockLive, ExprSize, StmtSize, BlockSize, R.AssignOperands;
    if StmtSize(s, sg) > 0 {
      SimpleKinds(s);
      if s.For? {
        ForLiveIs(s, sg, n, a, a);
        ExprStarts(s.iterable, sg, n, a);
      } else {
        StmtLiveIs(s, sg, n, a, a);
        if IsSimple(s) {
          ExprStarts(SimpleExpr(s), sg, n, a);
        } else if s.Assign? {
          ListStarts(R.AssignOperands(s.target, s.value), sg, n, a);
        } else if s.Try? {
          BlockStarts(s.body, sg, n, a);
        } else if s.If? || s.While? || s.Require? {
          ExprStarts(s.cond, sg, n, a);
        }
      }
    }
  }

  lemma {:induction false} BlockStarts(ss: seq<Stmt>, sg: Sigs, n: nat, a: nat)
    ensures BlockLive(ss, sg, n, a, a) == n
    decreases ss, 1
  {
    hide StmtLive, StmtSize, BlockSize;
    if ss != [] {
      StmtStarts(ss[0], sg, n, a);
      SizeIsSome(ss[0], sg);
    }
  }

  lemma SizeIsSome(s: Stmt, sg: Sigs)
    ensures StmtSize(s, sg) > 0
  {
    hide ExprSize, BlockSize, ListSize, R.AssignOperands;
  }

  lemma BlockPart(ch: Chunk, sg: Sigs, ss: seq<Stmt>, n: nat, a: nat, t1: Targets, f: nat -> nat, lo: nat, hi: nat,
                  t: Targets)
    requires var end := a + BlockSize(ss, sg);
             && Lives(sg, ch, OfBlock(ss, sg, n, a), a, end, a, end, t1) && Outside(t1, a, end) && lo <= a && end <= hi
             && (forall pc: nat :: a <= pc < end ==> f(pc) == BlockLive(ss, sg, n, a, pc)) && f(end) <= n
    requires t1.Targets? ==> f(t1.brk) <= n && f(t1.cont) <= n
    requires t1.Targets? ==> t == t1 || (lo <= t1.brk <= hi && lo <= t1.cont <= hi)
    ensures Lives(sg, ch, f, a, a + BlockSize(ss, sg), lo, hi, t)
  {
    hide BlockLive, BlockSize, Lives;
    LivesWithin(sg, ch, OfBlock(ss, sg, n, a), f, a, a + BlockSize(ss, sg), t1, lo, hi, t);
  }

  /** Code of a statement reads only what is there. */
  lemma {:induction false} StmtLives(ch: Chunk, sg: Sigs, s: Stmt, L: seq<Local>, a: nat, t: Targets)
    requires StmtCode(ch, sg, s, L, a, t) && Outside(t, a, a + StmtSize(s, sg))
    ensures var end := a + StmtSize(s, sg); Lives(sg, ch, OfStmt(s, sg, |L|, a), a, end, a, end, t)
    decreases s, 1
  {
    hide *;
    SimpleKinds(s);
    if s.If? {
      IfLives(ch, sg, s, L, a, t);
    } else if s.While? {
      WhileLives(ch, sg, s, L, a, t);
    } else if s.For? {
      ForLives(ch, sg, s, L, a, t);
    } else if s.Try? {
      TryLives(ch, sg, s, L, a, t);
    } else if s.Require? {
      RequireLives(ch, sg, s, L, a, t);
    } else if IsSimple(s) {
      SimpleLives(ch, sg, s, L, a, t);
    } else if s.Assign? {
      EffectLives(ch, sg, s, L, a, t);
    } else {
      LeapLives(ch, sg, s, L, a, t);
    }
  }

  lemma {:induction false} BlockLives(ch: Chunk, sg: Sigs, ss: seq<Stmt>, L: seq<Local>, a: nat, t: Targets)
    requires StmtsCode(ch, sg, ss, L, a, t) && Outside(t, a, a + BlockSize(ss, sg))
    ensures var end := a + BlockSize(ss, sg); Lives(sg, ch, OfBlock(ss, sg, |L|, a), a, end, a, end, t)
    decreases ss, 2
  {
    hide StmtCode, StmtsCode, StmtLive, StmtSize, Lives;
    var n, f := |L|, OfBlock(ss, sg, |L|, a);
    if ss != [] {
      var b, m := a + StmtSize(ss[0], sg), if ss[0].VarDecl? then n + 1 else n;
      BlockIs(ch, sg, ss, L, a, t, b);
      var end := b + BlockSize(ss[1..], sg);
      assert |After(ss[0], L)| == m;
      StmtLives(ch, sg, ss[0], L, a, t);
      BlockLives(ch, sg, ss[1..], After(ss[0], L), b, t);
      BlockStarts(ss[1..], sg, m, b);
      hide BlockSize;
      LivesWithin(sg, ch, OfStmt(ss[0], sg, n, a), f, a, b, t, a, end, t);
      BlockPart(ch, sg, ss[1..], m, b, t, f, a, end, t);
      LivesJoin(sg, ch, f, a, b, end, a, end, t);
    } else {
      NoBlockLives(sg, ch, f, a, t);
    }
  }

  lemma NoBlockLives(sg: Sigs, ch: Chunk, f: nat -> nat, a: nat, t: Targets)
    ensures Lives(sg, ch, f, a, a, a, a, t)
  {
  }

  lemma {:induction false} SimpleLives(ch: Chunk, sg: Sigs, s: Stmt, L: seq<Local>, a: nat, t: Targets)
    requires IsSimple(s) && StmtCode(ch, sg, s, L, a, t)
    ensures var end := a + StmtSize(s, sg); Lives(sg, ch, OfStmt(s, sg, |L|, a), a, end, a, end, t)
  {
    hide StmtCode, StmtSize, StmtLive, ExprCode, ExprSize, ExprLive, Lives, SimpleEnd;
    var n, f, e := |L|, OfStmt(s, sg, |L|, a), SimpleExpr(s);
    var b := a + ExprSize(e, sg);
    SimpleIs(ch, sg, s, L, a, t, b);
    forall pc: nat | a <= pc < b + 1
      ensures f(pc) == ExprLive(e, sg, n, a, pc)
    {
      StmtLiveIs(s, sg, n, a, pc);
    }
    ExprLives(ch, sg, e, L, a);
    ExprPart(ch, sg, e, n, a, f, a, b + 1, t);
    SimpleEndLives(sg, ch, s, L, b, f, a, t);
    LivesJoin(sg, ch, f, a, b, b + 1, a, b + 1, t);
  }

  lemma SimpleEndLives(sg: Sigs, ch: Chunk, s: Stmt, L: seq<Local>, b: nat, f: nat -> nat, lo: nat, t: Targets)
    requires IsSimple(s) && SimpleEnd(ch, s, L, b) && f(b) == |L| && lo <= b
    requires f(b + 1) == if s.VarDecl? then |L| + 1 else |L|
    ensures Lives(sg, ch, f, b, b + 1, lo, b + 1, t)
  {
    hide ResolveLocal, Hidden, Lives;
    if s.VarDecl? {
      StoreLives(sg, ch, f, b, |L|, lo, b + 1, t);
    } else if s.Assign? {
      StoreLives(sg, ch, f, b, ResolveLocal(L, s.target.name), lo, b + 1, t);
    } else {
      Falls(sg, ch, f, b, lo, b + 1, t);
    }
  }

  lemma {:induction false} EffectLives(ch: Chunk, sg: Sigs, s: Stmt, L: seq<Local>, a: nat, t: Targets)
    requires s.Assign? && !s.target.Ident? && StmtCode(ch, sg, s, L, a, t)
    ensures var end := a + StmtSize(s, sg); Lives(sg, ch, OfStmt(s, sg, |L|, a), a, end, a, end, t)
  {
    hide StmtCode, StmtSize, StmtLive, ListCode, ListSize, ListLive, Lives, R.AssignOperands;
    var n, f := |L|, OfStmt(s, sg, |L|, a);
    var es := R.AssignOperands(s.target, s.value);
    var b := a + ListSize(es, sg);
    EffectIs(ch, sg, s, L, a, t, es, b);
    forall pc: nat | a <= pc < b + 2
      ensures f(pc) == ListLive(es, sg, n, a, pc)
    {
      StmtLiveIs(s, sg, n, a, pc);
    }
    ListLives(ch, sg, es, L, a);
    LivesWithin(sg, ch, OfList(es, sg, n, a), f, a, b, NoTargets, a, b + 2, t);
    EndIsOne(ch, s.target, b);
    Falls(sg, ch, f, b, a, b + 2, t);
    Falls(sg, ch, f, b + 1, a, b + 2, t);
    LivesJoin(sg, ch, f, a, b, b + 1, a, b + 2, t);
    LivesJoin(sg, ch, f, a, b + 1, b + 2, a, b + 2, t);
  }

  lemma EndIsOne(ch: Chunk, t: Expr, b: nat)
    requires EffectEnd(ch, t, b)
    ensures b + 1 < |ch.code|
    ensures !IsJump(ch.code[b]) && !ch.code[b].OpLoadLocal? && !ch.code[b].OpStoreLocal? && ch.code[b + 1] == OpPop
  {
  }

  lemma LeapLives(ch: Chunk, sg: Sigs, s: Stmt, L: seq<Local>, a: nat, t: Targets)
    requires s.Break? || s.Continue? || (s.Return? && s.result.None?)
    requires StmtCode(ch, sg, s, L, a, t) && Outside(t, a, a + StmtSize(s, sg))
    ensures var end := a + StmtSize(s, sg); Lives(sg, ch, OfStmt(s, sg, |L|, a), a, end, a, end, t)
  {
    hide StmtCode, StmtSize, StmtLive, Lives;
    var f := OfStmt(s, sg, |L|, a);
    JumpIs(ch, sg, s, L, a, t);
    StmtLiveIs(s, sg, |L|, a, a);
    if s.Return? {
      Falls(sg, ch, f, a, a, a + 1, t);
    } else {
      JumpLives(sg, ch, f, a, if s.Break? then t.brk else t.cont, a, a + 1, t);
    }
  }

  lemma RequireMap(s: Stmt, sg: Sigs, n: nat, a: nat, b: nat, e: nat)
    requires s.Require? && b == a + ExprSize(s.cond, sg) && a + StmtSize(s, sg) == e + 1
    ensures var f := OfStmt(s, sg, n, a);
            && f(e + 1) == n && (forall pc: nat :: pc < a || e + 1 <= pc ==> f(pc) == n)
            && forall pc: nat :: a <= pc < e + 1 ==>
                 f(pc) == if pc <= b + 1 then ExprLive(s.cond, sg, n, a, pc)
                          else ExprLive(s.otherwise, sg, n, b + 2, pc)
  {
    hide StmtSize, StmtLive, ExprSize, ExprLive, BlockSize, BlockLive;
    forall pc: nat | a <= pc < e + 1
      ensures OfStmt(s, sg, n, a)(pc) ==
              if pc <= b + 1 then ExprLive(s.cond, sg, n, a, pc) else ExprLive(s.otherwise, sg, n, b + 2, pc)
    {
      StmtLiveIs(s, sg, n, a, pc);
    }
  }

  lemma {:induction false} RequireLives(ch: Chunk, sg: Sigs, s: Stmt, L: seq<Local>, a: nat, t: Targets)
    requires s.Require? && StmtCode(ch, sg, s, L, a, t)
    ensures var end := a + StmtSize(s, sg); Lives(sg, ch, OfStmt(s, sg, |L|, a), a, end, a, end, t)
  {
    hide StmtCode, StmtSize, StmtLive, ExprCode, ExprSize, ExprLive, Lives;
    var n, f := |L|, OfStmt(s, sg, |L|, a);
    var b := a + ExprSize(s.cond, sg);
    var e := b + 2 + ExprSize(s.otherwise, sg);
    RequireIs(ch, sg, s, L, a, t, b, e);
    RequireMap(s, sg, n, a, b, e);
    hide OfStmt;
    ExprStarts(s.otherwise, sg, n, b + 2);
    ExprLives(ch, sg, s.cond, L, a);
    ExprLives(ch, sg, s.otherwise, L, b + 2);
    ExprPart(ch, sg, s.cond, n, a, f, a, e + 1, t);
    ExprPart(ch, sg, s.otherwise, n, b + 2, f, a, e + 1, t);
    BranchLives(sg, ch, f, b, OpJumpIfFalse(b + 2), a, e + 1, t);
    JumpLives(sg, ch, f, b + 1, e + 1, a, e + 1, t);
    Falls(sg, ch, f, e, a, e + 1, t);
    LivesJoin(sg, ch, f, a, b, b + 1, a, e + 1, t);
    LivesJoin4(sg, ch, f, a, b + 1, b + 2, e, e + 1, a, e + 1, t);
  }

  lemma IfMap(s: Stmt, sg: Sigs, n: nat, a: nat, b: nat, e: nat, end: nat)
    requires s.If? && b == a + ExprSize(s.cond, sg) && e == b + 1 + BlockSize(s.body, sg) && a + StmtSize(s, sg) == end
    ensures var f := OfStmt(s, sg, n, a);
            && f(end) == n && (forall pc: nat :: pc < a || end <= pc ==> f(pc) == n)
            && forall pc: nat :: a <= pc < end ==>
                 f(pc) == if pc <= b then ExprLive(s.cond, sg, n, a, pc)
                 else if pc <= e then BlockLive(s.body, sg, n, b + 1, pc)
                 else BlockLive(s.orelse, sg, n, e + 1, pc)
  {
    hide StmtSize, StmtLive, ExprSize, ExprLive, BlockSize, BlockLive;
    forall pc: nat | a <= pc < end
      ensures OfStmt(s, sg, n, a)(pc) == if pc <= b then ExprLive(s.cond, sg, n, a, pc)
                       else if pc <= e then BlockLive(s.body, sg, n, b + 1, pc)
                       else BlockLive(s.orelse, sg, n, e + 1, pc)
    {
      StmtLiveIs(s, sg, n, a, pc);
    }
  }

  lemma {:induction false} IfLives(ch: Chunk, sg: Sigs, s: Stmt, L: seq<Local>, a: nat, t: Targets)
    requires s.If? && StmtCode(ch, sg, s, L, a, t) && Outside(t, a, a + StmtSize(s, sg))
    ensures var end := a + StmtSize(s, sg); Lives(sg, ch, OfStmt(s, sg, |L|, a), a, end, a, end, t)
    decreases s, 0
  {
    hide StmtCode, StmtsCode, StmtSize, StmtLive, ExprCode, ExprSize, ExprLive, BlockSize, BlockLive, Lives;
    var n, f := |L|, OfStmt(s, sg, |L|, a);
    var b := a + ExprSize(s.cond, sg);
    var e := b + 1 + BlockSize(s.body, sg);
    var end := if s.orelse == [] then e else e + 1 + BlockSize(s.orelse, sg);
    IfIs(ch, sg, s, L, a, t, b, e, end);
    IfMap(s, sg, n, a, b, e, end);
    hide OfStmt;
    BlockStarts(s.body, sg, n, b + 1);
    ExprLives(ch, sg, s.cond, L, a);
    ExprPart(ch, sg, s.cond, n, a, f, a, end, t);
    ThenLives(ch, sg, s, L, a, t, b, end, f);
    if s.orelse == [] {
      BranchLives(sg, ch, f, b, OpJumpIfFalse(e), a, end, t);
    } else {
      BlockStarts(s.orelse, sg, n, e + 1);
      BranchLives(sg, ch, f, b, OpJumpIfFalse(e + 1), a, end, t);
      ElseLives(ch, sg, s, L, a, t, e, end, f);
      LivesJoin(sg, ch, f, b + 1, e, end, a, end, t);
    }
    LivesJoin(sg, ch, f, a, b, b + 1, a, end, t);
    LivesJoin(sg, ch, f, a, b + 1, end, a, end, t);
  }

  lemma {:induction false} ThenLives(ch: Chunk, sg: Sigs, s: Stmt, L: seq<Local>, a: nat, t: Targets, b: nat, end: nat,
                                     f: nat -> nat)
    requires s.If? && StmtsCode(ch, sg, s.body, L, b + 1, t)
    requires a <= b && b + 1 + BlockSize(s.body, sg) <= end && Outside(t, a, end)
    requires f(b + 1 + BlockSize(s.body, sg)) == |L| && (t.Targets? ==> f(t.brk) == |L| && f(t.cont) == |L|)
    requires forall pc: nat :: b < pc < b + 1 + BlockSize(s.body, sg) ==> f(pc) == BlockLive(s.body, sg, |L|, b + 1, pc)
    ensures Lives(sg, ch, f, b + 1, b + 1 + BlockSize(s.body, sg), a, end, t)
    decreases s.body, 3
  {
    hide StmtsCode, BlockSize, BlockLive, Lives;
    BlockLives(ch, sg, s.body, L, b + 1, t);
    BlockPart(ch, sg, s.body, |L|, b + 1, t, f, a, end, t);
  }

  lemma {:induction false} ElseLives(ch: Chunk, sg: Sigs, s: Stmt, L: seq<Local>, a: nat, t: Targets, e: nat, end: nat,
                                     f: nat -> nat)
    requires s.If? && StmtsCode(ch, sg, s.orelse, L, e + 1, t) && Has(ch, e, OpJump(end))
    requires a <= e && end == e + 1 + BlockSize(s.orelse, sg) && Outside(t, a, end)
    requires f(e) == |L| && f(end) == |L| && (t.Targets? ==> f(t.brk) == |L| && f(t.cont) == |L|)
    requires forall pc: nat :: e < pc < end ==> f(pc) == BlockLive(s.orelse, sg, |L|, e + 1, pc)
    ensures Lives(sg, ch, f, e, end, a, end, t)
    decreases s.orelse, 3
  {
    hide StmtsCode, BlockSize, BlockLive, Lives;
    JumpLives(sg, ch, f, e, end, a, end, t);
    BlockLives(ch, sg, s.orelse, L, e + 1, t);
    BlockPart(ch, sg, s.orelse, |L|, e + 1, t, f, a, end, t);
    LivesJoin(sg, ch, f, e, e + 1, end, a, end, t);
  }

  lemma WhileMap(s: Stmt, sg: Sigs, n: nat, a: nat, b: nat, e: nat)
    requires s.While? && b == a + ExprSize(s.cond, sg) && a + StmtSize(s, sg) == e + 1
    ensures var f := OfStmt(s, sg, n, a);
            && f(e + 1) == n && (forall pc: nat :: pc < a || e + 1 <= pc ==> f(pc) == n)
            && forall pc: nat :: a <= pc < e + 1 ==>
                 f(pc) == if pc <= b then ExprLive(s.cond, sg, n, a, pc) else BlockLive(s.body, sg, n, b + 1, pc)
  {
    hide StmtSize, StmtLive, ExprSize, ExprLive, BlockSize, BlockLive;
    forall pc: nat | a <= pc < e + 1
      ensures OfStmt(s, sg, n, a)(pc) ==
              if pc <= b then ExprLive(s.cond, sg, n, a, pc) else BlockLive(s.body, sg, n, b + 1, pc)
    {
      StmtLiveIs(s, sg, n, a, pc);
    }
  }

  lemma {:induction false} WhileLives(ch: Chunk, sg: Sigs, s: Stmt, L: seq<Local>, a: nat, t: Targets)
    requires s.While? && StmtCode(ch, sg, s, L, a, t)
    ensures var end := a + StmtSize(s, sg); Lives(sg, ch, OfStmt(s, sg, |L|, a), a, end, a, end, t)
    decreases s, 0
  {
    hide StmtCode, StmtsCode, StmtSize, StmtLive, ExprCode, ExprSize, ExprLive, BlockSize, BlockLive, Lives;
    var n, f := |L|, OfStmt(s, sg, |L|, a);
    var b := a + ExprSize(s.cond, sg);
    var e := b + 1 + BlockSize(s.body, sg);
    WhileIs(ch, sg, s, L, a, t, b, e);
    WhileMap(s, sg, n, a, b, e);
    hide OfStmt;
    ExprStarts(s.cond, sg, n, a);
    BlockStarts(s.body, sg, n, b + 1);
    ExprLives(ch, sg, s.cond, L, a);
    ExprPart(ch, sg, s.cond, n, a, f, a, e + 1, t);
    BranchLives(sg, ch, f, b, OpJumpIfFalse(e + 1), a, e + 1, t);
    BlockLives(ch, sg, s.body, L, b + 1, Targets(e + 1, a));
    BlockPart(ch, sg, s.body, n, b + 1, Targets(e + 1, a), f, a, e + 1, t);
    JumpLives(sg, ch, f, e, a, a, e + 1, t);
    LivesJoin4(sg, ch, f, a, b, b + 1, e, e + 1, a, e + 1, t);
  }

  lemma TryMap(s: Stmt, sg: Sigs, n: nat, m: nat, a: nat, e: nat, end: nat)
    requires s.Try? && e == a + BlockSize(s.body, sg) && a + StmtSize(s, sg) == end
             && m == (if s.name == "" then n else n + 1)
    ensures var f := OfStmt(s, sg, n, a);
            && f(end) == n && (forall pc: nat :: pc < a || end <= pc ==> f(pc) == n)
            && forall pc: nat :: a <= pc < end ==>
                 f(pc) == if pc <= e + 1 then BlockLive(s.body, sg, n, a, pc) else BlockLive(s.orelse, sg, m, e + 2, pc)
  {
    hide StmtSize, StmtLive, ExprSize, ExprLive, BlockSize, BlockLive;
    forall pc: nat | a <= pc < end
      ensures OfStmt(s, sg, n, a)(pc) ==
              if pc <= e + 1 then BlockLive(s.body, sg, n, a, pc) else BlockLive(s.orelse, sg, m, e + 2, pc)
    {
      StmtLiveIs(s, sg, n, a, pc);
    }
  }

  lemma {:induction false} TryLives(ch: Chunk, sg: Sigs, s: Stmt, L: seq<Local>, a: nat, t: Targets)
    requires s.Try? && StmtCode(ch, sg, s, L, a, t) && Outside(t, a, a + StmtSize(s, sg))
    ensures var end := a + StmtSize(s, sg); Lives(sg, ch, OfStmt(s, sg, |L|, a), a, end, a, end, t)
    decreases s, 0
  {
    hide StmtCode, StmtsCode, StmtSize, StmtLive, BlockSize, BlockLive, Lives, CatchStart;
    var n, f := |L|, OfStmt(s, sg, |L|, a);
    var m := if s.name == "" then n else n + 1;
    var e := a + BlockSize(s.body, sg);
    var end := e + 2 + BlockSize(s.orelse, sg);
    TryIs(ch, sg, s, L, a, t, e, end);
    TryMap(s, sg, n, m, a, e, end);
    hide OfStmt;
    BlockStarts(s.orelse, sg, m, e + 2);
    assert |CatchLocals(s.name, L)| == m;
    BlockLives(ch, sg, s.body, L, a, t);
    BlockPart(ch, sg, s.body, n, a, t, f, a, end, t);
    JumpLives(sg, ch, f, e, end, a, end, t);
    CatchLives(sg, ch, s.name, n, e + 1, f, a, end, t);
    BlockLives(ch, sg, s.orelse, CatchLocals(s.name, L), e + 2, t);
    BlockPart(ch, sg, s.orelse, m, e + 2, t, f, a, end, t);
    LivesJoin4(sg, ch, f, a, e, e + 1, e + 2, end, a, end, t);
  }

  lemma CatchLives(sg: Sigs, ch: Chunk, name: string, n: nat, b: nat, f: nat -> nat, lo: nat, hi: nat, t: Targets)
    requires CatchStart(ch, name, n, b) && f(b) == n && f(b + 1) <= (if name == "" then n else n + 1) && lo <= b < hi
    ensures Lives(sg, ch, f, b, b + 1, lo, hi, t)
  {
    hide Hidden, Lives;
    if name == "" {
      Falls(sg, ch, f, b, lo, hi, t);
    } else {
      StoreLives(sg, ch, f, b, n, lo, hi, t);
    }
  }

  lemma ForMap(s: Stmt, sg: Sigs, n: nat, a: nat, b: nat, e: nat)
    requires s.For? && b == a + ExprSize(s.iterable, sg) && e == b + 15 + BlockSize(s.body, sg)
             && a + StmtSize(s, sg) == e + 5
    ensures var f := OfStmt(s, sg, n, a);
            && f(e + 5) == n && (forall pc: nat :: pc < a || e + 5 <= pc ==> f(pc) == n)
            && forall pc: nat :: a <= pc < e + 5 ==>
                 f(pc) == if pc <= b + 1 then ExprLive(s.iterable, sg, n, a, pc)
                 else if pc <= b + 4 then n + 1
                 else if pc <= b + 6 then n + 2
                 else if pc < b + 15 then n + 3
                 else if pc < e then BlockLive(s.body, sg, n + 4, b + 15, pc)
                 else n + 3
  {
    hide StmtSize, StmtLive, ExprSize, ExprLive, BlockSize, BlockLive;
    forall pc: nat | a <= pc < e + 5
      ensures OfStmt(s, sg, n, a)(pc) == if pc <= b + 1 then ExprLive(s.iterable, sg, n, a, pc)
                       else if pc <= b + 4 then n + 1
                       else if pc <= b + 6 then n + 2
                       else if pc < b + 15 then n + 3
                       else if pc < e then BlockLive(s.body, sg, n + 4, b + 15, pc)
                       else n + 3
    {
      ForLiveIs(s, sg, n, a, pc);
    }
  }

  lemma {:induction false} ForLives(ch: Chunk, sg: Sigs, s: Stmt, L: seq<Local>, a: nat, t: Targets)
    requires s.For? && StmtCode(ch, sg, s, L, a, t)
    ensures var end := a + StmtSize(s, sg); Lives(sg, ch, OfStmt(s, sg, |L|, a), a, end, a, end, t)
    decreases s, 0
  {
    hide StmtCode, StmtsCode, StmtSize, StmtLive, ExprCode, ExprSize, ExprLive, BlockSize, BlockLive, Lives, ForHead,
         ForTest, ForNext, HasLen;
    var n, f := |L|, OfStmt(s, sg, |L|, a);
    var b := a + ExprSize(s.iterable, sg);
    var e := b + 15 + BlockSize(s.body, sg);
    ForIs(ch, sg, s, L, a, t, b, e);
    ForMap(s, sg, n, a, b, e);
    hide OfStmt;
    BlockStarts(s.body, sg, n + 4, b + 15);
    ExprLives(ch, sg, s.iterable, L, a);
    ExprPart(ch, sg, s.iterable, n, a, f, a, e + 5, t);
    HeadLives(ch, b, n, sg, f, a, e + 5, t);
    TestLives(sg, ch, b + 7, n, f, a, e + 5, t);
    BlockLives(ch, sg, s.body, ForLocals(s, L), b + 15, Targets(e + 5, e));
    BlockPart(ch, sg, s.body, n + 4, b + 15, Targets(e + 5, e), f, a, e + 5, t);
    NextLives(sg, ch, e, n, b + 7, f, a, e + 5, t);
    LivesJoin4(sg, ch, f, a, b, b + 7, b + 15, e, a, e + 5, t);
    LivesJoin(sg, ch, f, a, e, e + 5, a, e + 5, t);
  }

  lemma HeadLives(ch: Chunk, b: nat, n: nat, sg: Sigs, f: nat -> nat, lo: nat, hi: nat, t: Targets)
    requires ForHead(ch, b, n) && HasLen(ch, b + 3, sg) && lo <= b && b + 7 <= hi
    requires f(b) == n && f(b + 1) == n && (forall pc :: b + 2 <= pc <= b + 4 ==> f(pc) == n + 1)
    requires f(b + 5) == n + 2 && f(b + 6) == n + 2 && f(b + 7) == n + 3
    ensures Lives(sg, ch, f, b, b + 7, lo, hi, t)
  {
    hide IsConstant, Lives, IsNext;
    Falls(sg, ch, f, b, lo, hi, t);
    StoreLives(sg, ch, f, b + 1, n, lo, hi, t);
    LoadLives(sg, ch, f, b + 2, n, lo, hi, t);
    Falls(sg, ch, f, b + 3, lo, hi, t);
    StoreLives(sg, ch, f, b + 4, n + 1, lo, hi, t);
    Falls(sg, ch, f, b + 5, lo, hi, t);
    StoreLives(sg, ch, f, b + 6, n + 2, lo, hi, t);
    LivesJoin4(sg, ch, f, b, b + 1, b + 2, b + 3, b + 4, lo, hi, t);
    LivesJoin(sg, ch, f, b, b + 4, b + 5, lo, hi, t);
    LivesJoin(sg, ch, f, b, b + 5, b + 6, lo, hi, t);
    LivesJoin(sg, ch, f, b, b + 6, b + 7, lo, hi, t);
  }

  lemma TestLives(sg: Sigs, ch: Chunk, b: nat, n: nat, f: nat -> nat, lo: nat, hi: nat, t: Targets)
    requires ForTest(ch, b, n, hi) && lo <= b && b + 8 <= hi && f(hi) <= n + 3
    requires (forall pc :: b <= pc < b + 8 ==> f(pc) == n + 3) && f(b + 8) <= n + 4
    ensures Lives(sg, ch, f, b, b + 8, lo, hi, t)
  {
    hide Lives, IsNext;
    LoadLives(sg, ch, f, b, n + 2, lo, hi, t);
    LoadLives(sg, ch, f, b + 1, n + 1, lo, hi, t);
    Falls(sg, ch, f, b + 2, lo, hi, t);
    BranchLives(sg, ch, f, b + 3, OpJumpIfFalse(hi), lo, hi, t);
    LoadLives(sg, ch, f, b + 4, n, lo, hi, t);
    LoadLives(sg, ch, f, b + 5, n + 2, lo, hi, t);
    Falls(sg, ch, f, b + 6, lo, hi, t);
    StoreLives(sg, ch, f, b + 7, n + 3, lo, hi, t);
    LivesJoin4(sg, ch, f, b, b + 1, b + 2, b + 3, b + 4, lo, hi, t);
    LivesJoin4(sg, ch, f, b + 4, b + 5, b + 6, b + 7, b + 8, lo, hi, t);
    LivesJoin(sg, ch, f, b, b + 4, b + 8, lo, hi, t);
  }

  lemma NextLives(sg: Sigs, ch: Chunk, b: nat, n: nat, start: nat, f: nat -> nat, lo: nat, hi: nat, t: Targets)
    requires ForNext(ch, b, n, start) && lo <= start <= b && b + 5 <= hi && f(start) <= n + 3
    requires forall pc :: b <= pc < b + 5 ==> f(pc) == n + 3
    ensures Lives(sg, ch, f, b, b + 5, lo, hi, t)
  {
    hide IsConstant, Lives, IsNext;
    LoadLives(sg, ch, f, b, n + 2, lo, hi, t);
    Falls(sg, ch, f, b + 1, lo, hi, t);
    Falls(sg, ch, f, b + 2, lo, hi, t);
    StoreLives(sg, ch, f, b + 3, n + 2, lo, hi, t);
    JumpLives(sg, ch, f, b + 4, start, lo, hi, t);
    LivesJoin4(sg, ch, f, b, b + 1, b + 2, b + 3, b + 4, lo, hi, t);
    LivesJoin(sg, ch, f, b, b + 4, b + 5, lo, hi, t);
  }

  // ─── Handlers ──────────────────────────────────────────────────────────────

  /** At the handler no more is expected than anywhere in the range. */
  ghost predicate HandlerNeedsLess(r: TryRange, f: nat -> nat, a: nat, end: nat) {
    && a <= r.begin <= r.end < r.handler < end
    && forall pc: nat :: r.begin <= pc <= r.end ==> f(r.handler) <= f(pc)
  }

  lemma SameNeeds(r: TryRange, f: nat -> nat, g: nat -> nat, a: nat, b: nat, lo: nat, hi: nat)
    requires HandlerNeedsLess(r, f, a, b) && lo <= a && b <= hi
    requires forall pc: nat :: a <= pc < b ==> g(pc) == f(pc)
    ensures HandlerNeedsLess(r, g, lo, hi)
  {
  }

  lemma {:induction false} StmtHandlersLive(s: Stmt, sg: Sigs, n: nat, a: nat, r: TryRange)
    requires r in Ranges(s, sg, a)
    ensures HandlerNeedsLess(r, OfStmt(s, sg, n, a), a, a + StmtSize(s, sg))
    decreases s, 1
  {
    hide StmtSize, OfStmt, Ranges, HandlerNeedsLess;
    OnlyBlocks(s, sg, a);
    if s.If? {
      IfHandlersLive(s, sg, n, a, r);
    } else if s.While? {
      WhileHandlersLive(s, sg, n, a, r);
    } else if s.For? {
      ForHandlersLive(s, sg, n, a, r);
    } else {
      TryHandlersLive(s, sg, n, a, r);
    }
  }

  lemma OnlyBlocks(s: Stmt, sg: Sigs, a: nat)
    ensures Ranges(s, sg, a) != [] ==> s.If? || s.While? || s.For? || s.Try?
  {
    hide RangesIn;
  }

  lemma {:induction false} IfHandlersLive(s: Stmt, sg: Sigs, n: nat, a: nat, r: TryRange)
    requires s.If? && r in Ranges(s, sg, a)
    ensures HandlerNeedsLess(r, OfStmt(s, sg, n, a), a, a + StmtSize(s, sg))
    decreases s, 0
  {
    hide StmtSize, StmtLive, OfStmt, ExprSize, ExprLive, BlockSize, BlockLive, RangesIn, HandlerNeedsLess;
    var b := a + ExprSize(s.cond, sg);
    var e := b + 1 + BlockSize(s.body, sg);
    var f, end := OfStmt(s, sg, n, a), a + StmtSize(s, sg);
    IfSize(s, sg);
    IfMap(s, sg, n, a, b, e, end);
    if r in RangesIn(s.body, sg, b + 1) {
      BlockHandlersLive(s.body, sg, n, b + 1, r);
      SameNeeds(r, OfBlock(s.body, sg, n, b + 1), f, b + 1, e, a, end);
    } else {
      SomeBlock(s.orelse, sg, e + 1, r);
      BlockHandlersLive(s.orelse, sg, n, e + 1, r);
      SameNeeds(r, OfBlock(s.orelse, sg, n, e + 1), f, e + 1, end, a, end);
    }
  }

  lemma {:induction false} WhileHandlersLive(s: Stmt, sg: Sigs, n: nat, a: nat, r: TryRange)
    requires s.While? && r in Ranges(s, sg, a)
    ensures HandlerNeedsLess(r, OfStmt(s, sg, n, a), a, a + StmtSize(s, sg))
    decreases s, 0
  {
    hide StmtSize, StmtLive, OfStmt, ExprSize, ExprLive, BlockSize, BlockLive, RangesIn, HandlerNeedsLess;
    var b := a + ExprSize(s.cond, sg);
    var e := b + 1 + BlockSize(s.body, sg);
    WhileSize(s, sg);
    WhileMap(s, sg, n, a, b, e);
    BlockHandlersLive(s.body, sg, n, b + 1, r);
    SameNeeds(r, OfBlock(s.body, sg, n, b + 1), OfStmt(s, sg, n, a), b + 1, e, a, e + 1);
  }

  lemma {:induction false} ForHandlersLive(s: Stmt, sg: Sigs, n: nat, a: nat, r: TryRange)
    requires s.For? && r in Ranges(s, sg, a)
    ensures HandlerNeedsLess(r, OfStmt(s, sg, n, a), a, a + StmtSize(s, sg))
    decreases s, 0
  {
    hide StmtSize, StmtLive, OfStmt, ExprSize, ExprLive, BlockSize, BlockLive, RangesIn, HandlerNeedsLess;
    var b := a + ExprSize(s.iterable, sg);
    var e := b + 15 + BlockSize(s.body, sg);
    ForSize(s, sg);
    ForMap(s, sg, n, a, b, e);
    BlockHandlersLive(s.body, sg, n + 4, b + 15, r);
    SameNeeds(r, OfBlock(s.body, sg, n + 4, b + 15), OfStmt(s, sg, n, a), b + 15, e, a, e + 5);
  }

  lemma {:induction false} TryHandlersLive(s: Stmt, sg: Sigs, n: nat, a: nat, r: TryRange)
    requires s.Try? && r in Ranges(s, sg, a)
    ensures HandlerNeedsLess(r, OfStmt(s, sg, n, a), a, a + StmtSize(s, sg))
    decreases s, 0
  {
    hide StmtSize, StmtLive, OfStmt, ExprSize, ExprLive, BlockSize, BlockLive, RangesIn, HandlerNeedsLess;
    var e, m := a + BlockSize(s.body, sg), if s.name == "" then n else n + 1;
    var f, end := OfStmt(s, sg, n, a), e + 2 + BlockSize(s.orelse, sg);
    TrySize(s, sg);
    TryMap(s, sg, n, m, a, e, end);
    if r in RangesIn(s.body, sg, a) {
      BlockHandlersLive(s.body, sg, n, a, r);
      SameNeeds(r, OfBlock(s.body, sg, n, a), f, a, e, a, end);
    } else if r == TryRange(a, e, e + 1) {
      OwnHandler(r, f, n, a, end);
    } else {
      BlockHandlersLive(s.orelse, sg, m, e + 2, r);
      SameNeeds(r, OfBlock(s.orelse, sg, m, e + 2), f, e + 2, end, a, end);
    }
  }

  lemma OwnHandler(r: TryRange, f: nat -> nat, n: nat, a: nat, end: nat)
    requires a <= r.begin <= r.end < r.handler < end && f(r.handler) == n
             && forall pc: nat :: a <= pc < end ==> f(pc) >= n
    ensures HandlerNeedsLess(r, f, a, end)
  {
  }

  lemma IfSize(s: Stmt, sg: Sigs)
    requires s.If?
    ensures StmtSize(s, sg) == ExprSize(s.cond, sg) + 1 + BlockSize(s.body, sg)
                               + if s.orelse == [] then 0 else 1 + BlockSize(s.orelse, sg)
  {
    hide ExprSize, BlockSize;
  }

  lemma WhileSize(s: Stmt, sg: Sigs)
    requires s.While?
    ensures StmtSize(s, sg) == ExprSize(s.cond, sg) + 1 + BlockSize(s.body, sg) + 1
  {
    hide ExprSize, BlockSize;
  }

  lemma ForSize(s: Stmt, sg: Sigs)
    requires s.For?
    ensures StmtSize(s, sg) == ExprSize(s.iterable, sg) + 15 + BlockSize(s.body, sg) + 5
  {
    hide ExprSize, BlockSize;
  }

  lemma TrySize(s: Stmt, sg: Sigs)
    requires s.Try?
    ensures StmtSize(s, sg) == BlockSize(s.body, sg) + 2 + BlockSize(s.orelse, sg)
  {
    hide ExprSize, BlockSize;
  }

  lemma SomeBlock(ss: seq<Stmt>, sg: Sigs, a: nat, r: TryRange)
    requires r in RangesIn(ss, sg, a)
    ensures ss != []
  {
  }

  lemma {:induction false} BlockHandlersLive(ss: seq<Stmt>, sg: Sigs, n: nat, a: nat, r: TryRange)
    requires r in RangesIn(ss, sg, a)
    ensures HandlerNeedsLess(r, OfBlock(ss, sg, n, a), a, a + BlockSize(ss, sg))
    decreases ss, 2
  {
    hide StmtSize, StmtLive, Ranges, HandlerNeedsLess;
    var f, m := OfBlock(ss, sg, n, a), if ss[0].VarDecl? then n + 1 else n;
    var b := a + StmtSize(ss[0], sg);
    var end := a + BlockSize(ss, sg);
    if r in Ranges(ss[0], sg, a) {
      StmtHandlersLive(ss[0], sg, n, a, r);
      SameNeeds(r, OfStmt(ss[0], sg, n, a), f, a, b, a, end);
    } else {
      BlockHandlersLive(ss[1..], sg, m, b, r);
      SameNeeds(r, OfBlock(ss[1..], sg, m, b), f, b, end, a, end);
    }
  }

  // ─── Declarations ──────────────────────────────────────────────────────────

  function OfDecl(decl: Decl, sg: Sigs): nat -> nat { (pc: nat) => DeclLive(decl, sg, pc) }

  /** Compiled code reads only slots that hold something, on every way to the read; it
    begins with the parameters; and a handler needs no more than what it covers. */
  lemma DeclLives(ch: Chunk, sg: Sigs, decl: Decl)
    requires DeclCode(ch, sg, decl)
    ensures Lives(sg, ch, OfDecl(decl, sg), 0, |ch.code|, 0, |ch.code|, NoTargets)
    ensures DeclLive(decl, sg, 0) == |decl.params|
    ensures forall r :: r in ch.ranges ==> HandlerNeedsLess(r, OfDecl(decl, sg), 0, |ch.code|)
  {
    hide StmtsCode, BlockSize, BlockLive, Lives, HandlerNeedsLess, RangesIn, R.GuardStmts, ParamLocals;
    var gs, L, f, n := R.GuardStmts(decl.guards), ParamLocals(decl.params), OfDecl(decl, sg), |decl.params|;
    var b := BlockSize(gs, sg);
    var end := b + BlockSize(decl.body, sg);
    assert |L| == n && |ch.code| == end + 1;
    BlockStarts(gs, sg, n, 0);
    BlockStarts(decl.body, sg, n, b);
    BlockLives(ch, sg, gs, L, 0, NoTargets);
    BlockLives(ch, sg, decl.body, L, b, NoTargets);
    BlockPart(ch, sg, gs, n, 0, NoTargets, f, 0, end + 1, NoTargets);
    BlockPart(ch, sg, decl.body, n, b, NoTargets, f, 0, end + 1, NoTargets);
    Falls(sg, ch, f, end, 0, end + 1, NoTargets);
    LivesJoin(sg, ch, f, 0, b, end, 0, end + 1, NoTargets);
    LivesJoin(sg, ch, f, 0, end, end + 1, 0, end + 1, NoTargets);
    forall r | r in ch.ranges
      ensures HandlerNeedsLess(r, f, 0, |ch.code|)
    {
      BlockHandlersLive(decl.body, sg, n, b, r);
      SameNeeds(r, OfBlock(decl.body, sg, n, b), f, b, end, 0, end + 1);
    }
  }
}
