/** Code that has been emitted stays the code of what it was emitted for, while more
  is appended and while the jumps left open in it are filled in. */
module Stability {
  import opened Wrappers
  import opened Values
  import opened Ast
  import opened Bytecode
  import opened Layout
  import opened Acceptance
  import R = Reference

  /** `ch1` has the instructions of `ch` in [lo, hi), its constants and its slots. */
  predicate Kept(ch: Chunk, ch1: Chunk, lo: nat, hi: nat) {
    && ch.constants <= ch1.constants && ch.numLocals <= ch1.numLocals
    && |ch.code| <= |ch1.code| && forall i :: lo <= i < hi && i < |ch.code| ==> ch1.code[i] == ch.code[i]
  }

  lemma HasKept(ch: Chunk, ch1: Chunk, lo: nat, hi: nat, i: nat, op: Instr)
    requires Kept(ch, ch1, lo, hi) && Has(ch, i, op) && lo <= i < hi
    ensures Has(ch1, i, op)
  {
  }

  // ─── One level of the definitions ──────────────────────────────────────────

  lemma CodeByKind(ch: Chunk, sg: Sigs, e: Expr, L: seq<Local>, a: nat)
    ensures ExprCode(ch, sg, e, L, a) ==
            if e.Lit? then HasConst(ch, a, LiteralValue(e.lit))
            else if e.Ident? then HasLoad(ch, a, L, e.name)
            else if e.This? then HasLoad(ch, a, L, "this")
            else if e.Ternary? then TernaryCode(ch, sg, e.cond, e.yes, e.no, L, a)
            else if e.Step? then StepCode(ch, sg, e.post, e.plus, e.target, L, a)
            else if R.IsShortCircuit(e) then ShortCircuitCode(ch, sg, e.bop.Or?, e.lhs, e.rhs, L, a)
            else R.IsOperationExpr(e) && OperationCode(ch, sg, e, L, a)
  {
    hide TernaryCode, StepCode, ShortCircuitCode, OperationCode;
  }

  lemma SizeByKind(e: Expr, sg: Sigs)
    ensures ExprSize(e, sg) ==
            if e.Ternary? then ExprSize(e.cond, sg) + 1 + ExprSize(e.yes, sg) + 1 + ExprSize(e.no, sg)
            else if e.Step? then StepSize(e.post, e.target, sg)
            else if R.IsShortCircuit(e) then ExprSize(e.lhs, sg) + 1 + ExprSize(e.rhs, sg)
            else if R.IsOperationExpr(e) then ListSize(R.Operands(e, sg), sg) + 1
            else 1
    ensures e.Lit? || e.Ident? || e.This? ==> ExprSize(e, sg) == 1
  {
    hide StepSize, ListSize, R.Operands;
  }

  lemma TernaryParts(ch: Chunk, sg: Sigs, cond: Expr, yes: Expr, no: Expr, L: seq<Local>, a: nat, b: nat, c: nat)
    requires b == a + ExprSize(cond, sg) && c == b + 1 + ExprSize(yes, sg)
    ensures TernaryCode(ch, sg, cond, yes, no, L, a)
            <==> && ExprCode(ch, sg, cond, L, a) && Has(ch, b, OpJumpIfFalse(c + 1))
                 && ExprCode(ch, sg, yes, L, b + 1) && Has(ch, c, OpJump(c + 1 + ExprSize(no, sg)))
                 && ExprCode(ch, sg, no, L, c + 1)
  {
    hide ExprCode, ExprSize;
  }

  lemma ShortCircuitParts(ch: Chunk, sg: Sigs, isOr: bool, lhs: Expr, rhs: Expr, L: seq<Local>, a: nat, b: nat, c: nat)
    requires b == a + ExprSize(lhs, sg) && c == b + 1 + ExprSize(rhs, sg)
    ensures ShortCircuitCode(ch, sg, isOr, lhs, rhs, L, a)
            <==> && ExprCode(ch, sg, lhs, L, a) && ExprCode(ch, sg, rhs, L, b + 1)
                 && Has(ch, b, if isOr then OpJumpIfTruePeek(c) else OpJumpIfFalsePeek(c))
  {
    hide ExprCode, ExprSize;
  }

  lemma OperationParts(ch: Chunk, sg: Sigs, e: Expr, L: seq<Local>, a: nat, es: seq<Expr>)
    requires R.IsOperationExpr(e) && es == R.Operands(e, sg)
    ensures OperationCode(ch, sg, e, L, a)
            <==> ListCode(ch, sg, es, L, a) && HasOperation(ch, a + ListSize(es, sg), sg, e, L)
  {
    hide ListCode, ListSize, R.Operands, HasOperation;
  }

  lemma ListParts(ch: Chunk, sg: Sigs, es: seq<Expr>, L: seq<Local>, a: nat)
    requires es != []
    ensures ListSize(es, sg) == ExprSize(es[0], sg) + ListSize(es[1..], sg)
    ensures ListCode(ch, sg, es, L, a)
            <==> ExprCode(ch, sg, es[0], L, a) && ListCode(ch, sg, es[1..], L, a + ExprSize(es[0], sg))
  {
    hide ExprCode, ExprSize;
  }

  lemma StepParts(ch: Chunk, sg: Sigs, post: bool, plus: bool, t: Expr, L: seq<Local>, a: nat)
    ensures t.Ident? ==> StepSize(post, t, sg) == 5
                         && (StepCode(ch, sg, post, plus, t, L, a) <==> NameStepCode(ch, post, plus, t.name, L, a))
    ensures t.Member? ==>
              var b := a + ExprSize(t.obj, sg);
              && a + StepSize(post, t, sg) == b + (if post then 11 else 9)
              && (StepCode(ch, sg, post, plus, t, L, a)
                  <==> ExprCode(ch, sg, t.obj, L, a) && FieldStepCode(ch, post, plus, t.field, |L|, b))
    ensures t.Index? ==>
              var c := a + ExprSize(t.obj, sg);
              var b := c + 1 + ExprSize(t.index, sg);
              && a + StepSize(post, t, sg) == b + (if post then 13 else 11)
              && (StepCode(ch, sg, post, plus, t, L, a)
                  <==> && ExprCode(ch, sg, t.obj, L, a) && Has(ch, c, OpStoreLocal(|L|))
                       && ExprCode(ch, sg, t.index, L + [CONTAINER], c + 1)
                       && ElementStepCode(ch, post, plus, |L|, b))
    ensures StepCode(ch, sg, post, plus, t, L, a) ==> t.Ident? || t.Member? || t.Index?
  {
    hide ExprCode, ExprSize, NameStepCode, FieldStepCode, ElementStepCode;
  }

  // ─── Expressions ───────────────────────────────────────────────────────────

  /** Code inside a part that is kept stays code. */
  lemma {:induction false} ExprStable(ch: Chunk, ch1: Chunk, lo: nat, hi: nat, sg: Sigs, e: Expr, L: seq<Local>, a: nat)
    requires ExprCode(ch, sg, e, L, a) && Kept(ch, ch1, lo, hi) && lo <= a && a + ExprSize(e, sg) <= hi
    ensures ExprCode(ch1, sg, e, L, a)
    decreases Weight(e), 0
  {
    hide *;
    CodeByKind(ch, sg, e, L, a);
    CodeByKind(ch1, sg, e, L, a);
    SizeByKind(e, sg);
    WeightByKind(e);
    if e.Lit? {
      ConstKept(ch, ch1, lo, hi, a, LiteralValue(e.lit));
    } else if e.Ident? {
      LoadKept(ch, ch1, lo, hi, a, L, e.name);
    } else if e.This? {
      LoadKept(ch, ch1, lo, hi, a, L, "this");
    } else if e.Ternary? {
      TernaryStable(ch, ch1, lo, hi, sg, e.cond, e.yes, e.no, L, a);
    } else if e.Step? {
      StepStable(ch, ch1, lo, hi, sg, e.post, e.plus, e.target, L, a);
    } else if R.IsShortCircuit(e) {
      ShortCircuitStable(ch, ch1, lo, hi, sg, e.bop.Or?, e.lhs, e.rhs, L, a);
    } else if R.IsOperationExpr(e) {
      OperationStable(ch, ch1, lo, hi, sg, e, L, a);
    }
  }

  lemma WeightByKind(e: Expr)
    ensures e.Ternary? ==> Weight(e.cond) + Weight(e.yes) + Weight(e.no) + 1 < Weight(e)
    ensures e.Step? ==> Weight(e.target) + 1 < Weight(e)
    ensures R.IsShortCircuit(e) ==> e.Binary? && Weight(e.lhs) + Weight(e.rhs) + 1 < Weight(e)
    ensures e.Member? ==> Weight(e.obj) < Weight(e)
    ensures e.Index? ==> Weight(e.obj) + Weight(e.index) < Weight(e)
  {
  }

  lemma ConstKept(ch: Chunk, ch1: Chunk, lo: nat, hi: nat, i: nat, v: Value)
    requires Kept(ch, ch1, lo, hi) && HasConst(ch, i, v) && lo <= i < hi
    ensures HasConst(ch1, i, v)
  {
  }

  lemma LoadKept(ch: Chunk, ch1: Chunk, lo: nat, hi: nat, i: nat, L: seq<Local>, name: string)
    requires Kept(ch, ch1, lo, hi) && HasLoad(ch, i, L, name) && lo <= i < hi
    ensures HasLoad(ch1, i, L, name)
  {
    hide ResolveLocal, Hidden;
  }

  lemma {:induction false} TernaryStable(ch: Chunk, ch1: Chunk, lo: nat, hi: nat, sg: Sigs, cond: Expr, yes: Expr,
                                         no: Expr, L: seq<Local>, a: nat)
    requires TernaryCode(ch, sg, cond, yes, no, L, a) && Kept(ch, ch1, lo, hi)
    requires lo <= a && a + ExprSize(cond, sg) + 1 + ExprSize(yes, sg) + 1 + ExprSize(no, sg) <= hi
    ensures TernaryCode(ch1, sg, cond, yes, no, L, a)
    decreases Weight(cond) + Weight(yes) + Weight(no) + 1, 0
  {
    hide *;
    var b := a + ExprSize(cond, sg);
    var c := b + 1 + ExprSize(yes, sg);
    TernaryParts(ch, sg, cond, yes, no, L, a, b, c);
    TernaryParts(ch1, sg, cond, yes, no, L, a, b, c);
    ExprStable(ch, ch1, lo, hi, sg, cond, L, a);
    ExprStable(ch, ch1, lo, hi, sg, yes, L, b + 1);
    ExprStable(ch, ch1, lo, hi, sg, no, L, c + 1);
    HasKept(ch, ch1, lo, hi, b, OpJumpIfFalse(c + 1));
    HasKept(ch, ch1, lo, hi, c, OpJump(c + 1 + ExprSize(no, sg)));
  }

  lemma {:induction false} ShortCircuitStable(ch: Chunk, ch1: Chunk, lo: nat, hi: nat, sg: Sigs, isOr: bool, lhs: Expr,
                                              rhs: Expr, L: seq<Local>, a: nat)
    requires ShortCircuitCode(ch, sg, isOr, lhs, rhs, L, a) && Kept(ch, ch1, lo, hi)
    requires lo <= a && a + ExprSize(lhs, sg) + 1 + ExprSize(rhs, sg) <= hi
    ensures ShortCircuitCode(ch1, sg, isOr, lhs, rhs, L, a)
    decreases Weight(lhs) + Weight(rhs) + 1, 0
  {
    hide *;
    var b := a + ExprSize(lhs, sg);
    var c := b + 1 + ExprSize(rhs, sg);
    ShortCircuitParts(ch, sg, isOr, lhs, rhs, L, a, b, c);
    ShortCircuitParts(ch1, sg, isOr, lhs, rhs, L, a, b, c);
    ExprStable(ch, ch1, lo, hi, sg, lhs, L, a);
    ExprStable(ch, ch1, lo, hi, sg, rhs, L, b + 1);
    HasKept(ch, ch1, lo, hi, b, if isOr then OpJumpIfTruePeek(c) else OpJumpIfFalsePeek(c));
  }

  lemma {:induction false} OperationStable(ch: Chunk, ch1: Chunk, lo: nat, hi: nat, sg: Sigs, e: Expr, L: seq<Local>,
                                           a: nat)
    requires R.IsOperationExpr(e) && OperationCode(ch, sg, e, L, a) && Kept(ch, ch1, lo, hi)
    requires lo <= a && a + ListSize(R.Operands(e, sg), sg) + 1 <= hi
    ensures OperationCode(ch1, sg, e, L, a)
    decreases Weight(e), -1
  {
    hide *;
    var es := R.Operands(e, sg);
    OperationParts(ch, sg, e, L, a, es);
    OperationParts(ch1, sg, e, L, a, es);
    ListStable(ch, ch1, lo, hi, sg, es, L, a);
    OperationKept(ch, ch1, lo, hi, a + ListSize(es, sg), sg, e, L);
  }

  lemma OperationKept(ch: Chunk, ch1: Chunk, lo: nat, hi: nat, b: nat, sg: Sigs, e: Expr, L: seq<Local>)
    requires R.IsOperationExpr(e) && HasOperation(ch, b, sg, e, L) && Kept(ch, ch1, lo, hi) && lo <= b < hi
    ensures HasOperation(ch1, b, sg, e, L)
  {
    hide BinaryInstr, Resolve, R.CallOperands;
  }

  lemma {:induction false} ListStable(ch: Chunk, ch1: Chunk, lo: nat, hi: nat, sg: Sigs, es: seq<Expr>, L: seq<Local>,
                                      a: nat)
    requires ListCode(ch, sg, es, L, a) && Kept(ch, ch1, lo, hi) && lo <= a && a + ListSize(es, sg) <= hi
    ensures ListCode(ch1, sg, es, L, a)
    decreases WeightList(es), |es| + 1
  {
    hide ExprCode, ExprSize, Kept;
    if es != [] {
      ListParts(ch, sg, es, L, a);
      ListParts(ch1, sg, es, L, a);
      ExprStable(ch, ch1, lo, hi, sg, es[0], L, a);
      ListStable(ch, ch1, lo, hi, sg, es[1..], L, a + ExprSize(es[0], sg));
    }
  }

  lemma {:induction false} StepStable(ch: Chunk, ch1: Chunk, lo: nat, hi: nat, sg: Sigs, post: bool, plus: bool,
                                      t: Expr, L: seq<Local>, a: nat)
    requires StepCode(ch, sg, post, plus, t, L, a) && Kept(ch, ch1, lo, hi)
    requires lo <= a && a + StepSize(post, t, sg) <= hi
    ensures StepCode(ch1, sg, post, plus, t, L, a)
    decreases Weight(t) + 1, 0
  {
    hide *;
    StepParts(ch, sg, post, plus, t, L, a);
    StepParts(ch1, sg, post, plus, t, L, a);
    WeightByKind(t);
    if t.Ident? {
      NameStepKept(ch, ch1, lo, hi, post, plus, t.name, L, a);
    } else if t.Member? {
      ExprStable(ch, ch1, lo, hi, sg, t.obj, L, a);
      FieldStepKept(ch, ch1, lo, hi, post, plus, t.field, |L|, a + ExprSize(t.obj, sg));
    } else {
      var c := a + ExprSize(t.obj, sg);
      ExprStable(ch, ch1, lo, hi, sg, t.obj, L, a);
      HasKept(ch, ch1, lo, hi, c, OpStoreLocal(|L|));
      ExprStable(ch, ch1, lo, hi, sg, t.index, L + [CONTAINER], c + 1);
      ElementStepKept(ch, ch1, lo, hi, post, plus, |L|, c + 1 + ExprSize(t.index, sg));
    }
  }

  lemma NameStepKept(ch: Chunk, ch1: Chunk, lo: nat, hi: nat, post: bool, plus: bool, name: string, L: seq<Local>,
                     a: nat)
    requires NameStepCode(ch, post, plus, name, L, a) && Kept(ch, ch1, lo, hi) && lo <= a && a + 5 <= hi
    ensures NameStepCode(ch1, post, plus, name, L, a)
  {
    hide ResolveLocal, Hidden;
  }

  lemma FieldStepKept(ch: Chunk, ch1: Chunk, lo: nat, hi: nat, post: bool, plus: bool, f: string, n: nat, b: nat)
    requires FieldStepCode(ch, post, plus, f, n, b) && Kept(ch, ch1, lo, hi)
    requires lo <= b && b + (if post then 11 else 9) <= hi
    ensures FieldStepCode(ch1, post, plus, f, n, b)
  {
  }

  lemma ElementStepKept(ch: Chunk, ch1: Chunk, lo: nat, hi: nat, post: bool, plus: bool, n: nat, b: nat)
    requires ElementStepCode(ch, post, plus, n, b) && Kept(ch, ch1, lo, hi)
    requires lo <= b && b + (if post then 13 else 11) <= hi
    ensures ElementStepCode(ch1, post, plus, n, b)
  {
    hide Has, HasConst;
    ConstKept(ch, ch1, lo, hi, b + 8, Int(1));
    HasKept(ch, ch1, lo, hi, b, OpStoreLocal(n + 1));
    HasKept(ch, ch1, lo, hi, b + 1, OpLoadLocal(n));
    HasKept(ch, ch1, lo, hi, b + 2, OpLoadLocal(n + 1));
    HasKept(ch, ch1, lo, hi, b + 3, OpGetIndex);
    HasKept(ch, ch1, lo, hi, b + 4, OpStoreLocal(n + 2));
    HasKept(ch, ch1, lo, hi, b + 5, OpLoadLocal(n));
    HasKept(ch, ch1, lo, hi, b + 6, OpLoadLocal(n + 1));
    HasKept(ch, ch1, lo, hi, b + 7, OpLoadLocal(n + 2));
    HasKept(ch, ch1, lo, hi, b + 9, StepInstr(plus));
    HasKept(ch, ch1, lo, hi, b + 10, OpSetIndex);
    if post {
      HasKept(ch, ch1, lo, hi, b + 11, OpPop);
      HasKept(ch, ch1, lo, hi, b + 12, OpLoadLocal(n + 2));
    }
  }
}
