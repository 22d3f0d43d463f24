/** How the code of a construct comes about from the code of its parts, emitted one
  after the other into a growing chunk and patched at the end. */
module Assembly {
  import opened Wrappers
  import opened Values
  import opened Ast
  import opened Bytecode
  import opened Layout
  import opened Acceptance
  import opened Stability
  import opened StmtParts
  import opened Patching
  import R = Reference

  predicate Grown(c: Chunk, c1: Chunk) {
    c.code <= c1.code && c.constants <= c1.constants && c.ranges <= c1.ranges && c.numLocals <= c1.numLocals
  }

  // ─── Lists of expressions, from left to right ──────────────────────────────

  lemma {:induction false} ListSnoc(ch: Chunk, sg: Sigs, es: seq<Expr>, e: Expr, L: seq<Local>, a: nat)
    ensures ListSize(es + [e], sg) == ListSize(es, sg) + ExprSize(e, sg)
    ensures ListCode(ch, sg, es + [e], L, a)
            <==> ListCode(ch, sg, es, L, a) && ExprCode(ch, sg, e, L, a + ListSize(es, sg))
    ensures OkList(es + [e], L, sg) <==> OkList(es, L, sg) && OkExpr(e, L, sg)
    decreases |es|
  {
    hide ExprCode, ExprSize, OkExpr;
    if es == [] {
      assert (es + [e])[1..] == [];
    } else {
      assert (es + [e])[1..] == es[1..] + [e];
      ListSnoc(ch, sg, es[1..], e, L, a + ExprSize(es[0], sg));
    }
  }

  /** One level of the definitions of plain and of accepted expressions. */
  lemma PlainByKind(e: Expr, sg: Sigs)
    requires PlainExpr(e, sg)
    ensures e.Ident? ==> !Hidden(e.name)
    ensures e.Ternary? ==> PlainExpr(e.cond, sg) && PlainExpr(e.yes, sg) && PlainExpr(e.no, sg)
    ensures e.Step? ==> PlainTarget(e.target, sg)
    ensures R.IsShortCircuit(e) ==> PlainExpr(e.lhs, sg) && PlainExpr(e.rhs, sg)
    ensures R.IsOperationExpr(e) ==> PlainList(R.Operands(e, sg), sg)
    ensures !Hidden("this")
  {
    hide R.Operands, PlainTarget, PlainList;
  }

  lemma OkByKind(e: Expr, L: seq<Local>, sg: Sigs)
    ensures OkExpr(e, L, sg) ==
            if e.Lit? then true
            else if e.Ident? then ResolveLocal(L, e.name) >= 0
            else if e.This? then ResolveLocal(L, "this") >= 0
            else if e.Ternary? then OkExpr(e.cond, L, sg) && OkExpr(e.yes, L, sg) && OkExpr(e.no, L, sg)
            else if e.Step? then OkTarget(e.target, L, sg)
            else if R.IsShortCircuit(e) then OkExpr(e.lhs, L, sg) && OkExpr(e.rhs, L, sg)
            else R.IsOperationExpr(e) && OkList(R.Operands(e, sg), L, sg) && OkOperation(e, sg)
  {
    hide R.Operands, OkTarget, OkList, OkOperation, ResolveLocal;
  }

  lemma {:induction false} PlainItem(es: seq<Expr>, sg: Sigs, i: nat)
    requires PlainList(es, sg) && i < |es|
    ensures PlainExpr(es[i], sg)
    decreases |es|
  {
    hide PlainExpr;
    if i > 0 {
      PlainItem(es[1..], sg, i - 1);
    }
  }

  lemma {:induction false} ItemIsLight(es: seq<Expr>, i: nat)
    requires i < |es|
    ensures Weight(es[i]) <= WeightList(es)
    decreases |es|
  {
    hide Weight;
    if i > 0 {
      ItemIsLight(es[1..], i - 1);
    }
  }

  // ─── Statements of a block, from first to last ─────────────────────────────

  function AfterAllDepths(ss: seq<Stmt>, D: seq<int>, d: int): seq<int> {
    if ss == [] then D else AfterAllDepths(ss[1..], AfterDepths(ss[0], D, d), d)
  }

  lemma {:induction false} AfterAllLengths(ss: seq<Stmt>, L: seq<Local>, D: seq<int>, d: int)
    requires |L| == |D|
    ensures |AfterAll(ss, L)| == |AfterAllDepths(ss, D, d)|
  {
    if ss != [] {
      AfterAllLengths(ss[1..], After(ss[0], L), AfterDepths(ss[0], D, d), d);
    }
  }

  lemma {:induction false} BlockSnoc(ch: Chunk, sg: Sigs, ss: seq<Stmt>, s: Stmt, L: seq<Local>, a: nat, t: Targets)
    ensures BlockSize(ss + [s], sg) == BlockSize(ss, sg) + StmtSize(s, sg)
    ensures AfterAll(ss + [s], L) == After(s, AfterAll(ss, L))
    ensures StmtsCode(ch, sg, ss + [s], L, a, t)
            <==> StmtsCode(ch, sg, ss, L, a, t) && StmtCode(ch, sg, s, AfterAll(ss, L), a + BlockSize(ss, sg), t)
    decreases |ss|
  {
    hide StmtCode, StmtSize, After;
    if ss == [] {
      assert (ss + [s])[1..] == [];
    } else {
      assert (ss + [s])[1..] == ss[1..] + [s];
      BlockSnoc(ch, sg, ss[1..], s, After(ss[0], L), a + StmtSize(ss[0], sg), t);
    }
  }

  lemma {:induction false} RangesSnoc(sg: Sigs, ss: seq<Stmt>, s: Stmt, a: nat)
    ensures RangesIn(ss + [s], sg, a) == RangesIn(ss, sg, a) + Ranges(s, sg, a + BlockSize(ss, sg))
    decreases |ss|
  {
    hide Ranges, StmtSize;
    if ss == [] {
      assert (ss + [s])[1..] == [];
      assert Ranges(s, sg, a) + [] == Ranges(s, sg, a) == [] + Ranges(s, sg, a);
    } else {
      var b := a + StmtSize(ss[0], sg);
      assert (ss + [s])[1..] == ss[1..] + [s];
      RangesSnoc(sg, ss[1..], s, b);
      Assoc(Ranges(ss[0], sg, a), RangesIn(ss[1..], sg, b), Ranges(s, sg, a + BlockSize(ss, sg)));
    }
  }

  lemma Assoc<T>(x: seq<T>, y: seq<T>, z: seq<T>)
    ensures x + (y + z) == (x + y) + z
  {
  }

  lemma {:induction false} OpenJumpsSnoc(brk: bool, sg: Sigs, ss: seq<Stmt>, s: Stmt, a: nat)
    ensures OpenJumpsIn(brk, ss + [s], sg, a)
            == OpenJumpsIn(brk, ss, sg, a) + OpenJumps(brk, s, sg, a + BlockSize(ss, sg))
    decreases |ss|
  {
    hide OpenJumps, StmtSize;
    if ss == [] {
      assert (ss + [s])[1..] == [];
      assert OpenJumps(brk, s, sg, a) + [] == OpenJumps(brk, s, sg, a) == [] + OpenJumps(brk, s, sg, a);
    } else {
      var b := a + StmtSize(ss[0], sg);
      assert (ss + [s])[1..] == ss[1..] + [s];
      OpenJumpsSnoc(brk, sg, ss[1..], s, b);
      Assoc(OpenJumps(brk, ss[0], sg, a), OpenJumpsIn(brk, ss[1..], sg, b),
            OpenJumps(brk, s, sg, a + BlockSize(ss, sg)));
    }
  }

  lemma {:induction false} OkSnoc(ss: seq<Stmt>, s: Stmt, L: seq<Local>, D: seq<int>, d: int, inLoop: bool, sg: Sigs)
    requires |L| == |D|
    ensures |AfterAll(ss, L)| == |AfterAllDepths(ss, D, d)|
    ensures AfterAllDepths(ss + [s], D, d) == AfterDepths(s, AfterAllDepths(ss, D, d), d)
    ensures OkStmts(ss + [s], L, D, d, inLoop, sg)
            <==> OkStmts(ss, L, D, d, inLoop, sg)
                 && OkStmt(s, AfterAll(ss, L), AfterAllDepths(ss, D, d), d, inLoop, sg)
    decreases |ss|
  {
    hide OkStmt;
    AfterAllLengths(ss, L, D, d);
    if ss == [] {
      assert (ss + [s])[1..] == [];
    } else {
      assert (ss + [s])[1..] == ss[1..] + [s];
      OkSnoc(ss[1..], s, After(ss[0], L), AfterDepths(ss[0], D, d), d, inLoop, sg);
    }
  }

  lemma {:induction false} PlainStmtItem(ss: seq<Stmt>, sg: Sigs, i: nat)
    requires PlainStmts(ss, sg) && i < |ss|
    ensures PlainStmt(ss[i], sg)
    decreases |ss|
  {
    hide PlainStmt;
    if i > 0 {
      PlainStmtItem(ss[1..], sg, i - 1);
    }
  }

  // ─── Chunks that only grow ─────────────────────────────────────────────────

  /** The chunk of an expression: more code, constants and slots, the same ranges. */
  predicate Longer(c: Chunk, c1: Chunk) {
    c.code <= c1.code && c.constants <= c1.constants && c.numLocals <= c1.numLocals && c.ranges == c1.ranges
  }

  /** `c1` is `c` with the instructions `ops` at its end. */
  predicate Wrote(c: Chunk, c1: Chunk, ops: seq<Instr>) {
    c1.code == c.code + ops && c.constants <= c1.constants && c.numLocals <= c1.numLocals && c.ranges == c1.ranges
  }

  lemma AppendWrites(c: Chunk, op: Instr)
    ensures Wrote(c, Appended(c, op), [op]) && Longer(c, Appended(c, op)) && |Appended(c, op).code| == |c.code| + 1
  {
  }

  lemma WroteMore(c: Chunk, c1: Chunk, c2: Chunk, ops: seq<Instr>, ops1: seq<Instr>)
    requires Wrote(c, c1, ops) && Wrote(c1, c2, ops1)
    ensures Wrote(c, c2, ops + ops1)
  {
  }

  lemma LongerRefl(c: Chunk)
    ensures Longer(c, c)
  {
  }

  lemma WroteAfter(c: Chunk, c1: Chunk, c2: Chunk, ops: seq<Instr>)
    requires Wrote(c, c1, []) && Wrote(c1, c2, ops)
    ensures Wrote(c, c2, ops)
  {
    WroteMore(c, c1, c2, [], ops);
    assert [] + ops == ops;
  }

  lemma ConstantStays(c: Chunk, c1: Chunk, k: nat, v: Value)
    requires IsConstant(c, k, v) && c.constants == c1.constants
    ensures IsConstant(c1, k, v)
  {
  }

  lemma ConstantOutlives(c: Chunk, c1: Chunk, c2: Chunk, k: nat, v: Value)
    requires IsConstant(c, k, v) && Longer(c, c1) && Wrote(c1, c2, [])
    ensures IsConstant(c2, k, v)
  {
  }

  /** Constants and slots before and after a longer piece of code. */
  lemma ThenLonger(c0: Chunk, d0: Chunk, c1: Chunk, d1: Chunk, ch: Chunk)
    requires Wrote(c0, d0, []) && Longer(d0, c1) && Wrote(c1, d1, []) && Longer(d1, ch)
    ensures Longer(c0, ch) && Longer(c1, ch) && |c0.code| == |d0.code| && |c1.code| == |d1.code|
  {
  }

  lemma StoreWritten(c0: Chunk, c1: Chunk, d1: Chunk, c2: Chunk, ch: Chunk, op: Instr)
    requires Longer(c0, c1) && Wrote(c1, d1, []) && Longer(Appended(d1, op), c2) && Longer(c2, ch)
    ensures Longer(c0, ch) && Longer(c1, ch) && |Appended(d1, op).code| == |c1.code| + 1 && Has(ch, |c1.code|, op)
  {
  }

  lemma LongerTrans(c: Chunk, c1: Chunk, c2: Chunk)
    requires Longer(c, c1) && Longer(c1, c2)
    ensures Longer(c, c2)
  {
  }

  lemma LongerKeeps(c: Chunk, c1: Chunk, lo: nat, hi: nat)
    requires Longer(c, c1) && hi <= |c.code|
    ensures Kept(c, c1, lo, hi)
  {
  }

  /** Code stays code when more is added behind it. */
  lemma ExprLonger(c: Chunk, ch: Chunk, sg: Sigs, e: Expr, L: seq<Local>, a: nat)
    requires ExprCode(c, sg, e, L, a) && |c.code| == a + ExprSize(e, sg) && Longer(c, ch)
    ensures ExprCode(ch, sg, e, L, a)
  {
    hide *;
    LongerKeeps(c, ch, a, |c.code|);
    ExprStable(c, ch, a, |c.code|, sg, e, L, a);
  }

  lemma HeldLonger(c: Chunk, ch: Chunk, sg: Sigs, e: Expr, L: seq<Local>, a: nat)
    requires ExprCode(c, sg, e, L, a) && |c.code| == a + ExprSize(e, sg) + 1 && Longer(c, ch)
    requires Has(c, a + ExprSize(e, sg), OpStoreLocal(|L|))
    ensures ExprCode(ch, sg, e, L, a) && Has(ch, a + ExprSize(e, sg), OpStoreLocal(|L|))
  {
    hide *;
    LongerKeeps(c, ch, a, |c.code|);
    ExprStable(c, ch, a, |c.code|, sg, e, L, a);
    HasKept(c, ch, a, |c.code|, a + ExprSize(e, sg), OpStoreLocal(|L|));
  }

  lemma ListLonger(c: Chunk, ch: Chunk, sg: Sigs, es: seq<Expr>, L: seq<Local>, a: nat)
    requires ListCode(c, sg, es, L, a) && |c.code| == a + ListSize(es, sg) && Longer(c, ch)
    ensures ListCode(ch, sg, es, L, a)
  {
    hide *;
    LongerKeeps(c, ch, a, |c.code|);
    ListStable(c, ch, a, |c.code|, sg, es, L, a);
  }

  // ─── Expressions ───────────────────────────────────────────────────────────

  lemma TernaryMiddle(c1: Chunk, c2: Chunk, b: nat, c: nat)
    requires Longer(Appended(c1, OpJumpIfFalse(0)), c2) && b == |c1.code| && c == |c2.code|
    ensures b < |Appended(c2, OpJump(0)).code| == c + 1 && IsJump(Appended(c2, OpJump(0)).code[b])
    ensures Longer(c1, PatchedAt(Appended(c2, OpJump(0)), b, c + 1))
    ensures |Appended(c1, OpJumpIfFalse(0)).code| == b + 1
    ensures |PatchedAt(Appended(c2, OpJump(0)), b, c + 1).code| == c + 1
  {
  }

  lemma TernaryEnd(c1: Chunk, c2: Chunk, c3: Chunk, b: nat, c: nat)
    requires Longer(Appended(c1, OpJumpIfFalse(0)), c2) && b == |c1.code| && c == |c2.code|
    requires Longer(PatchedAt(Appended(c2, OpJump(0)), b, c + 1), c3)
    ensures c < |c3.code| && IsJump(c3.code[c]) && Longer(c1, PatchedAt(c3, c, |c3.code|))
    ensures |PatchedAt(c3, c, |c3.code|).code| == |c3.code|
  {
  }

  lemma TernaryAssembled(c1: Chunk, c2: Chunk, c3: Chunk, ch: Chunk, sg: Sigs, cond: Expr, yes: Expr, no: Expr,
                         L: seq<Local>, a: nat, b: nat, c: nat)
    requires b == a + ExprSize(cond, sg) == |c1.code| && c == b + 1 + ExprSize(yes, sg) == |c2.code|
    requires ExprCode(c1, sg, cond, L, a) && ExprCode(c2, sg, yes, L, b + 1) && ExprCode(c3, sg, no, L, c + 1)
    requires Longer(Appended(c1, OpJumpIfFalse(0)), c2)
    requires Longer(PatchedAt(Appended(c2, OpJump(0)), b, c + 1), c3)
    requires |c3.code| == c + 1 + ExprSize(no, sg) && ch == PatchedAt(c3, c, |c3.code|)
    ensures TernaryCode(ch, sg, cond, yes, no, L, a)
  {
    hide ExprCode, ExprSize, TernaryCode;
    TernaryPatches(c1, c2, c3, ch, a, b, c);
    TernaryParts(ch, sg, cond, yes, no, L, a, b, c);
    ExprStable(c1, ch, a, b, sg, cond, L, a);
    ExprStable(c2, ch, b + 1, c, sg, yes, L, b + 1);
    ExprStable(c3, ch, c + 1, |c3.code|, sg, no, L, c + 1);
  }

  lemma TernaryPatches(c1: Chunk, c2: Chunk, c3: Chunk, ch: Chunk, a: nat, b: nat, c: nat)
    requires |c1.code| == b && |c2.code| == c && Longer(Appended(c1, OpJumpIfFalse(0)), c2)
    requires Longer(PatchedAt(Appended(c2, OpJump(0)), b, c + 1), c3) && ch == PatchedAt(c3, c, |c3.code|)
    ensures Kept(c1, ch, a, b) && Kept(c2, ch, b + 1, c) && Kept(c3, ch, c + 1, |c3.code|)
    ensures Has(ch, b, OpJumpIfFalse(c + 1)) && Has(ch, c, OpJump(|c3.code|))
  {
  }

  function PeekJump(isOr: bool): Instr { if isOr then OpJumpIfTruePeek(0) else OpJumpIfFalsePeek(0) }

  lemma ShortCircuitEnd(c1: Chunk, c2: Chunk, isOr: bool, b: nat)
    requires Longer(Appended(c1, PeekJump(isOr)), c2) && b == |c1.code|
    ensures b < |c2.code| && IsJump(c2.code[b]) && Longer(c1, PatchedAt(c2, b, |c2.code|))
    ensures |Appended(c1, PeekJump(isOr)).code| == b + 1 && |PatchedAt(c2, b, |c2.code|).code| == |c2.code|
  {
  }

  lemma ShortCircuitAssembled(c1: Chunk, c2: Chunk, ch: Chunk, sg: Sigs, isOr: bool, lhs: Expr, rhs: Expr,
                              L: seq<Local>, a: nat, b: nat)
    requires b == a + ExprSize(lhs, sg) == |c1.code|
    requires ExprCode(c1, sg, lhs, L, a) && ExprCode(c2, sg, rhs, L, b + 1)
    requires Longer(Appended(c1, PeekJump(isOr)), c2)
    requires |c2.code| == b + 1 + ExprSize(rhs, sg) && ch == PatchedAt(c2, b, |c2.code|)
    ensures ShortCircuitCode(ch, sg, isOr, lhs, rhs, L, a)
  {
    hide ExprCode, ExprSize, ShortCircuitCode;
    var c := |c2.code|;
    assert Kept(c1, ch, a, b) && Kept(c2, ch, b + 1, c);
    assert Has(ch, b, if isOr then OpJumpIfTruePeek(c) else OpJumpIfFalsePeek(c));
    ShortCircuitParts(ch, sg, isOr, lhs, rhs, L, a, b, c);
    ExprStable(c1, ch, a, b, sg, lhs, L, a);
    ExprStable(c2, ch, b + 1, c, sg, rhs, L, b + 1);
  }

  lemma OperationAssembled(c1: Chunk, ch: Chunk, sg: Sigs, e: Expr, L: seq<Local>, a: nat)
    requires R.IsOperationExpr(e) && ListCode(c1, sg, R.Operands(e, sg), L, a)
    requires |c1.code| == a + ListSize(R.Operands(e, sg), sg) && Longer(c1, ch)
    requires HasOperation(ch, |c1.code|, sg, e, L)
    ensures OperationCode(ch, sg, e, L, a)
  {
    hide ListCode, ListSize, HasOperation, R.Operands;
    assert Kept(c1, ch, a, |c1.code|);
    ListStable(c1, ch, a, |c1.code|, sg, R.Operands(e, sg), L, a);
  }

  lemma PeekJumps(isOr: bool)
    ensures IsJump(PeekJump(isOr))
  {
  }

  lemma EmptyList(ch: Chunk, sg: Sigs, L: seq<Local>, a: nat)
    ensures ListSize([], sg) == 0 && ListCode(ch, sg, [], L, a) && OkList([], L, sg)
  {
  }

  /** Of the operations, only calls can be rejected for themselves. */
  lemma OperatorIsOk(e: Expr, sg: Sigs)
    requires R.IsOperationExpr(e) && !R.IsCall(e)
    ensures OkOperation(e, sg) && WeightList(R.Operands(e, sg)) < Weight(e)
  {
    hide R.Operands;
  }

  // ─── Steps ─────────────────────────────────────────────────────────────────

  lemma ThreeWritten(c: Chunk, c1: Chunk, ch: Chunk, x: Instr, y: Instr, z: Instr)
    requires Wrote(c, c1, [x, y, z]) && Longer(c1, ch)
    ensures Longer(c, ch) && |c1.code| == |c.code| + 3
    ensures Has(ch, |c.code|, x) && Has(ch, |c.code| + 1, y) && Has(ch, |c.code| + 2, z)
  {
    assert c1.code[|c.code|..] == [x, y, z];
  }

  lemma FourWritten(c: Chunk, c1: Chunk, ch: Chunk, x: Instr, y: Instr, z: Instr, w: Instr)
    requires Wrote(c, c1, [x, y, z, w]) && Longer(c1, ch)
    ensures Longer(c, ch) && |c1.code| == |c.code| + 4
    ensures Has(ch, |c.code|, x) && Has(ch, |c.code| + 1, y) && Has(ch, |c.code| + 2, z) && Has(ch, |c.code| + 3, w)
  {
    assert c1.code[|c.code|..] == [x, y, z, w];
  }

  /** The value that was there before the step. */
  function Previous(post: bool, slot: nat): seq<Instr> { if post then [OpPop, OpLoadLocal(slot)] else [] }

  lemma PreviousWritten(c: Chunk, c1: Chunk, post: bool, slot: nat)
    requires Wrote(c, c1, Previous(post, slot))
    ensures Longer(c, c1) && |c1.code| == |c.code| + (if post then 2 else 0)
    ensures post ==> Has(c1, |c.code|, OpPop) && Has(c1, |c.code| + 1, OpLoadLocal(slot))
  {
  }

  lemma ConstHere(c: Chunk, c1: Chunk, pc: nat, k: nat, v: Value)
    requires Has(c1, pc, OpConst(k)) && IsConstant(c, k, v) && Longer(c, c1)
    ensures HasConst(c1, pc, v)
  {
  }

  lemma StepIsNotAsync(plus: bool)
    ensures !StepInstr(plus).OpCallAsync?
  {
  }

  lemma TargetByKind(t: Expr, L: seq<Local>, sg: Sigs)
    requires PlainTarget(t, sg)
    ensures t.Ident? ==> !Hidden(t.name)
    ensures t.Member? ==> PlainExpr(t.obj, sg)
    ensures t.Index? ==> PlainExpr(t.obj, sg) && PlainExpr(t.index, sg)
    ensures OkTarget(t, L, sg) ==
            if t.Ident? then ResolveLocal(L, t.name) >= 0
            else if t.Member? then OkExpr(t.obj, L, sg)
            else t.Index? && OkExpr(t.obj, L, sg) && OkExpr(t.index, L + [CONTAINER], sg)
  {
    hide PlainExpr, OkExpr, ResolveLocal, Hidden;
  }

  lemma NameStepWritten(c: Chunk, c1: Chunk, c2: Chunk, ch: Chunk, post: bool, plus: bool, name: string, L: seq<Local>,
                        slot: nat, k: nat)
    requires !Hidden(name) && slot == ResolveLocal(L, name) && |L| <= c.numLocals && IsConstant(c2, k, Int(1))
    requires Wrote(c, c1, if post then [OpLoadLocal(slot)] else [])
    requires Wrote(c1, c2, [OpLoadLocal(slot), OpConst(k), StepInstr(plus), OpStoreLocal(slot)])
    requires Wrote(c2, ch, if post then [] else [OpLoadLocal(slot)])
    ensures Longer(c, ch) && |ch.code| == |c.code| + 5 && NameStepCode(ch, post, plus, name, L, |c.code|)
  {
    hide ResolveLocal, Hidden;
    FourWritten(c1, c2, ch, OpLoadLocal(slot), OpConst(k), StepInstr(plus), OpStoreLocal(slot));
  }

  lemma FieldStepWritten(c: Chunk, c1: Chunk, d1: Chunk, c2: Chunk, c3: Chunk, ch: Chunk, post: bool, plus: bool,
                         f: string, n: nat, k: nat, q: nat)
    requires IsConstant(c, k, Str(f)) && IsConstant(c3, q, Int(1)) && n + 2 <= d1.numLocals
    requires Wrote(c, c1, [OpStoreLocal(n), OpLoadLocal(n), OpGetMember(k)]) && Wrote(c1, d1, [])
    requires Wrote(d1, c2, [OpStoreLocal(n + 1), OpLoadLocal(n), OpLoadLocal(n + 1)])
    requires Wrote(c2, c3, [OpConst(q), StepInstr(plus), OpSetMember(k)]) && Wrote(c3, ch, Previous(post, n + 1))
    ensures Longer(c, ch) && |ch.code| == |c.code| + (if post then 11 else 9)
    ensures FieldStepCode(ch, post, plus, f, n, |c.code|)
  {
    hide Wrote, Has, Longer;
    PreviousWritten(c3, ch, post, n + 1);
    ThreeWritten(c2, c3, ch, OpConst(q), StepInstr(plus), OpSetMember(k));
    ThreeWritten(d1, c2, ch, OpStoreLocal(n + 1), OpLoadLocal(n), OpLoadLocal(n + 1));
    NothingWritten(c1, d1, ch);
    ThreeWritten(c, c1, ch, OpStoreLocal(n), OpLoadLocal(n), OpGetMember(k));
    ConstHere(c3, ch, |c2.code|, q, Int(1));
    MemberHere(c, ch, |c.code| + 2, |c2.code| + 2, k, f);
  }

  lemma NothingWritten(c: Chunk, c1: Chunk, ch: Chunk)
    requires Wrote(c, c1, []) && Longer(c1, ch)
    ensures Longer(c, ch) && |c1.code| == |c.code| && c1.numLocals <= ch.numLocals
  {
  }

  lemma MemberHere(c: Chunk, ch: Chunk, x: nat, y: nat, k: nat, f: string)
    requires IsConstant(c, k, Str(f)) && Longer(c, ch) && Has(ch, x, OpGetMember(k)) && Has(ch, y, OpSetMember(k))
    ensures HasGetMember(ch, x, f) && HasSetMember(ch, y, f)
  {
  }

  lemma ElementStepWritten(c: Chunk, c1: Chunk, d1: Chunk, c2: Chunk, c3: Chunk, ch: Chunk, post: bool, plus: bool,
                           n: nat, q: nat)
    requires IsConstant(c3, q, Int(1)) && n + 3 <= d1.numLocals
    requires Wrote(c, c1, [OpStoreLocal(n + 1), OpLoadLocal(n), OpLoadLocal(n + 1), OpGetIndex]) && Wrote(c1, d1, [])
    requires Wrote(d1, c2, [OpStoreLocal(n + 2), OpLoadLocal(n), OpLoadLocal(n + 1), OpLoadLocal(n + 2)])
    requires Wrote(c2, c3, [OpConst(q), StepInstr(plus), OpSetIndex]) && Wrote(c3, ch, Previous(post, n + 2))
    ensures Longer(c, ch) && |ch.code| == |c.code| + (if post then 13 else 11)
    ensures ElementStepCode(ch, post, plus, n, |c.code|)
  {
    hide Wrote, Has, Longer;
    PreviousWritten(c3, ch, post, n + 2);
    ThreeWritten(c2, c3, ch, OpConst(q), StepInstr(plus), OpSetIndex);
    FourWritten(d1, c2, ch, OpStoreLocal(n + 2), OpLoadLocal(n), OpLoadLocal(n + 1), OpLoadLocal(n + 2));
    NothingWritten(c1, d1, ch);
    FourWritten(c, c1, ch, OpStoreLocal(n + 1), OpLoadLocal(n), OpLoadLocal(n + 1), OpGetIndex);
    ConstHere(c3, ch, |c2.code|, q, Int(1));
  }

  // ─── Calls ─────────────────────────────────────────────────────────────────

  /** The operands and the instruction of a call, awaited or not. */
  lemma CallIs(ch: Chunk, b: nat, sg: Sigs, e: Expr, L: seq<Local>)
    requires R.IsCall(e)
    ensures R.Operands(e, sg) == R.CallOperands(R.TheCall(e), sg)
    ensures HasOperation(ch, b, sg, e, L) <==> HasCall(ch, b, sg, R.TheCall(e))
    ensures OkOperation(e, sg) <==> OkCall(R.TheCall(e), e.Await?, sg)
    ensures R.TheCall(e).Call? && Weight(R.TheCall(e)) <= Weight(e)
  {
    hide R.CallOperands, HasCall, OkCall;
  }

  lemma UnknownIsRejected(c: Expr, awaited: bool, sg: Sigs)
    requires c.Call? && Resolve(c.callee, sg).Unknown?
    ensures !OkCall(c, awaited, sg)
  {
  }
}
