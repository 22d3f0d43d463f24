/** The compiled form of each statement, from the steps that emit it. */
module StmtAssembly {
  import opened Wrappers
  import opened Values
  import opened Ast
  import opened Bytecode
  import opened Layout
  import opened Acceptance
  import opened Stability
  import opened StmtParts
  import opened Patching
  import opened Assembly
  import opened Progress
  import R = Reference

  /** Patching new code. */
  lemma AdvancedPatched(x: Snap, y: Snap, d: int, at: nat, target: nat)
    requires Advanced(x, y, d) && |x.chunk.code| <= at < |y.chunk.code|
    ensures Advanced(x, y.(chunk := PatchedAt(y.chunk, at, target)), d)
    ensures |PatchedAt(y.chunk, at, target).code| == |y.chunk.code|
  {
  }

  // ─── Statements without statements inside ──────────────────────────────────

  lemma JumpCompiled(sg: Sigs, s: Stmt, x: Snap, y: Snap, d: int)
    requires s.Break? || s.Continue? || (s.Return? && s.result.None?)
    requires !s.Return? ==> x.loops != []
    requires y.chunk == Appended(x.chunk, if s.Return? then OpReturnNull else OpJump(0))
    requires y.locals == x.locals && y.depths == x.depths
    requires y.loops == (if s.Return? then x.loops
                         else WithOpen(x.loops, if s.Break? then [|x.chunk.code|] else [],
                                       if s.Break? then [] else [|x.chunk.code|]))
    ensures Compiled(sg, s, x, y, d)
  {
    hide StmtCode, WithOpen;
    JumpIs(y.chunk, sg, s, x.locals, |x.chunk.code|, Holes(x.loops));
    WithNone(x.loops);
    assert x.chunk.ranges + [] == x.chunk.ranges;
  }

  lemma JumpIsLast(c: Chunk, op: Instr)
    ensures |c.code| < |Appended(c, op).code| && Appended(c, op).code[|c.code|] == op
  {
  }

  lemma OpenJumpEmitted(x: Snap, y: Snap, brk: bool, d: int)
    requires |x.locals| == |x.depths| && y.locals == x.locals && y.depths == x.depths
    requires y.chunk == Appended(x.chunk, OpJump(0))
    requires y.loops == WithOpen(x.loops, if brk then [|x.chunk.code|] else [], if brk then [] else [|x.chunk.code|])
    ensures Advanced(x, y, d)
  {
  }

  function SimpleOp(s: Stmt, slot: nat): Instr
    requires IsSimple(s)
  {
    if s.Return? then OpReturn else if s.ExprStmt? then OpPop else OpStoreLocal(slot)
  }

  lemma SimpleOpIsNotAsync(s: Stmt, slot: nat)
    requires IsSimple(s)
    ensures !SimpleOp(s, slot).OpCallAsync?
  {
  }

  lemma NothingIsWritten(c: Chunk)
    ensures Wrote(c, c, [])
  {
  }

  /** A simple statement declares at most one variable. */
  lemma SimpleEmitted(x: Snap, c1: Chunk, d1: Chunk, y: Snap, s: Stmt, slot: nat, d: int)
    requires IsSimple(s) && Longer(x.chunk, c1) && Wrote(c1, d1, []) && y.chunk == Appended(d1, SimpleOp(s, slot))
    requires |x.locals| == |x.depths| && y.loops == x.loops
    requires (y.locals == x.locals && y.depths == x.depths)
             || (exists v: Local :: y.locals == x.locals + [v] && y.depths == x.depths + [d])
    ensures Advanced(x, y, d) && Longer(c1, y.chunk) && |y.chunk.code| == |c1.code| + 1
  {
  }

  lemma SimpleEndEmitted(x: Snap, c1: Chunk, d1: Chunk, y: Snap, s: Stmt, slot: nat, d: int)
    requires IsSimple(s) && Wrote(c1, d1, []) && y.chunk == Appended(d1, SimpleOp(s, slot))
    requires s.VarDecl? ==> slot == |x.locals| < d1.numLocals && !Hidden(s.name)
                            && y.locals == x.locals + [Local(s.name, s.typ)] && y.depths == x.depths + [d]
    requires !s.VarDecl? ==> y.locals == x.locals && y.depths == x.depths
    requires s.Assign? ==> !Hidden(s.target.name) && slot == ResolveLocal(x.locals, s.target.name)
    requires |x.locals| <= d1.numLocals
    ensures SimpleEnd(y.chunk, s, x.locals, |c1.code|)
    ensures y.locals == After(s, x.locals) && y.depths == AfterDepths(s, x.depths, d)
  {
    hide Hidden;
  }

  lemma EffectCompiled(sg: Sigs, s: Stmt, x: Snap, c1: Chunk, y: Snap, d: int, es: seq<Expr>)
    requires s.Assign? && !s.target.Ident? && es == R.AssignOperands(s.target, s.value)
    requires ListCode(c1, sg, es, x.locals, |x.chunk.code|) && Longer(x.chunk, c1) && Longer(c1, y.chunk)
    requires |c1.code| == |x.chunk.code| + ListSize(es, sg) && |y.chunk.code| == |c1.code| + 2
    requires EffectEnd(y.chunk, s.target, |c1.code|) && y == x.(chunk := y.chunk)
    ensures Compiled(sg, s, x, y, d)
  {
    hide ListCode, ListSize, EffectEnd, Longer, WithOpen, StmtCode, StmtSize, Holes, R.AssignOperands;
    EffectIs(y.chunk, sg, s, x.locals, |x.chunk.code|, Holes(x.loops), es, |c1.code|);
    ListLonger(c1, y.chunk, sg, es, x.locals, |x.chunk.code|);
    WithNone(x.loops);
    LongerTrans(x.chunk, c1, y.chunk);
    SameRanges(x.chunk, y.chunk);
  }

  lemma EffectWritten(c: Chunk, d: Chunk, c1: Chunk, t: Expr, k: nat)
    requires (t.Index? && d == c) || (t.Member? && Wrote(c, d, []) && IsConstant(d, k, Str(t.field)))
    requires Wrote(d, c1, [if t.Index? then OpSetIndex else OpSetMember(k), OpPop])
    ensures Longer(c, c1) && |c1.code| == |c.code| + 2 && EffectEnd(c1, t, |c.code|)
  {
  }

  // ─── Require, and the guards of a route ────────────────────────────────────

  /** The chunk between the test of a `require` and its alternative. */
  function AfterTest(c1: Chunk): Chunk {
    PatchedAt(Appended(Appended(c1, OpJumpIfFalse(0)), OpJump(0)), |c1.code|, |c1.code| + 2)
  }

  function AfterReturn(c1: Chunk, c2: Chunk): Chunk
    requires Longer(AfterTest(c1), c2)
  {
    PatchedAt(Appended(c2, OpReturn), |c1.code| + 1, |c2.code| + 1)
  }

  lemma AfterTestIs(c1: Chunk)
    ensures AfterTest(c1) == PatchedAt(Appended(Appended(c1, OpJumpIfFalse(0)), OpJump(0)), |c1.code|, |c1.code| + 2)
  {
  }

  lemma AfterReturnIs(c1: Chunk, c2: Chunk)
    requires Longer(AfterTest(c1), c2)
    ensures AfterReturn(c1, c2) == PatchedAt(Appended(c2, OpReturn), |c1.code| + 1, |c2.code| + 1)
  {
  }

  lemma RequirePatches(c1: Chunk, c2: Chunk, a: nat)
    requires Longer(AfterTest(c1), c2)
    ensures var ch := AfterReturn(c1, c2);
            && Longer(c1, ch) && |AfterTest(c1).code| == |c1.code| + 2 && |ch.code| == |c2.code| + 1
            && Kept(c2, ch, |c1.code| + 2, |c2.code|) && Has(ch, |c1.code|, OpJumpIfFalse(|c1.code| + 2))
            && Has(ch, |c1.code| + 1, OpJump(|ch.code|)) && Has(ch, |c2.code|, OpReturn)
  {
  }

  lemma RequireWaits(c1: Chunk, c2: Chunk)
    requires Longer(AfterTest(c1), c2)
    ensures |c1.code| + 1 < |Appended(c2, OpReturn).code| == |c2.code| + 1
    ensures IsJump(Appended(c2, OpReturn).code[|c1.code| + 1])
  {
  }

  lemma RequireStarts(c1: Chunk)
    ensures |Appended(c1, OpJumpIfFalse(0)).code| == |c1.code| + 1
    ensures |Appended(Appended(c1, OpJumpIfFalse(0)), OpJump(0)).code| == |c1.code| + 2
    ensures IsJump(Appended(Appended(c1, OpJumpIfFalse(0)), OpJump(0)).code[|c1.code|])
  {
  }

  lemma RequireCompiled(sg: Sigs, s: Stmt, x: Snap, c1: Chunk, c2: Chunk, y: Snap, d: int)
    requires s.Require? && Longer(x.chunk, c1) && Longer(AfterTest(c1), c2)
    requires ExprCode(c1, sg, s.cond, x.locals, |x.chunk.code|) && |c1.code| == |x.chunk.code| + ExprSize(s.cond, sg)
    requires ExprCode(c2, sg, s.otherwise, x.locals, |c1.code| + 2)
    requires |c2.code| == |c1.code| + 2 + ExprSize(s.otherwise, sg) && y == x.(chunk := AfterReturn(c1, c2))
    ensures Compiled(sg, s, x, y, d)
  {
    hide ExprCode, ExprSize, AfterTest, AfterReturn, Longer, Kept, Has, StmtCode, StmtSize, WithOpen, Holes;
    var a, b, e := |x.chunk.code|, |c1.code|, |c2.code|;
    RequirePatches(c1, c2, a);
    ExprLonger(c1, y.chunk, sg, s.cond, x.locals, a);
    ExprStable(c2, y.chunk, b + 2, e, sg, s.otherwise, x.locals, b + 2);
    RequireIs(y.chunk, sg, s, x.locals, a, Holes(x.loops), b, e);
    WithNone(x.loops);
    LongerTrans(x.chunk, c1, y.chunk);
    SameRanges(x.chunk, y.chunk);
  }

  // ─── If ────────────────────────────────────────────────────────────────────

  lemma BlockGrown(c: Chunk, ch: Chunk, sg: Sigs, ss: seq<Stmt>, L: seq<Local>, a: nat, t: Targets)
    requires StmtsCode(c, sg, ss, L, a, t) && Kept(c, ch, a, a + BlockSize(ss, sg))
    ensures StmtsCode(ch, sg, ss, L, a, t)
  {
    hide *;
    BlockStable(c, ch, a, a + BlockSize(ss, sg), sg, ss, L, a, t);
  }

  lemma ExprGrown(c: Chunk, ch: Chunk, sg: Sigs, e: Expr, L: seq<Local>, a: nat)
    requires ExprCode(c, sg, e, L, a) && Kept(c, ch, a, a + ExprSize(e, sg))
    ensures ExprCode(ch, sg, e, L, a)
  {
    hide *;
    ExprStable(c, ch, a, a + ExprSize(e, sg), sg, e, L, a);
  }

  /** The state between the test of an `if` and its body. */
  function Tested(x: Snap, c1: Chunk): Snap { x.(chunk := Appended(c1, OpJumpIfFalse(0))) }

  lemma IfPatches(c1: Chunk, y: Snap, ch: Chunk, a: nat)
    requires Grown(Appended(c1, OpJumpIfFalse(0)), y.chunk) && ch == PatchedAt(y.chunk, |c1.code|, |y.chunk.code|)
    ensures Kept(c1, ch, a, |c1.code|) && Kept(y.chunk, ch, |c1.code| + 1, |y.chunk.code|)
    ensures Has(ch, |c1.code|, OpJumpIfFalse(|y.chunk.code|)) && |ch.code| == |y.chunk.code|
            && ch.ranges == y.chunk.ranges
  {
  }

  lemma IfCompiled(sg: Sigs, s: Stmt, x: Snap, c1: Chunk, y1: Snap, y: Snap, d: int)
    requires s.If? && s.orelse == [] && Longer(x.chunk, c1)
    requires ExprCode(c1, sg, s.cond, x.locals, |x.chunk.code|) && |c1.code| == |x.chunk.code| + ExprSize(s.cond, sg)
    requires CompiledBlock(sg, s.body, Tested(x, c1), y1) && Grown(Tested(x, c1).chunk, y1.chunk)
    requires y == y1.(chunk := PatchedAt(y1.chunk, |c1.code|, |y1.chunk.code|))
    ensures Compiled(sg, s, x, y, d)
  {
    hide ExprCode, ExprSize, StmtsCode, BlockSize, Kept, Has, StmtCode, StmtSize, WithOpen, Holes, OpenJumpsIn,
         RangesIn;
    var a, b, e := |x.chunk.code|, |c1.code|, |y1.chunk.code|;
    IfPatches(c1, y1, y.chunk, a);
    ExprGrown(c1, y.chunk, sg, s.cond, x.locals, a);
    BlockGrown(y1.chunk, y.chunk, sg, s.body, x.locals, b + 1, Holes(x.loops));
    IfIs(y.chunk, sg, s, x.locals, a, Holes(x.loops), b, e, e);
    EmptyOpens(true, sg, e + 1);
    EmptyOpens(false, sg, e + 1);
    NoRanges(sg, e + 1);
    assert RangesIn(s.body, sg, b + 1) + [] == RangesIn(s.body, sg, b + 1);
    assert OpenJumpsIn(true, s.body, sg, b + 1) + [] == OpenJumpsIn(true, s.body, sg, b + 1);
    assert OpenJumpsIn(false, s.body, sg, b + 1) + [] == OpenJumpsIn(false, s.body, sg, b + 1);
  }

  lemma NoRanges(sg: Sigs, a: nat)
    ensures RangesIn([], sg, a) == []
  {
  }

  /** The state between the two branches of an `if`. */
  function Branched(y: Snap, b: nat): Snap
    requires b < |y.chunk.code|
  {
    y.(chunk := PatchedAt(Appended(y.chunk, OpJump(0)), b, |y.chunk.code| + 1))
  }

  lemma ElsePatches(c1: Chunk, y1: Snap, y2: Snap, ch: Chunk, a: nat)
    requires Grown(Appended(c1, OpJumpIfFalse(0)), y1.chunk)
    requires Grown(Branched(y1, |c1.code|).chunk, y2.chunk)
             && ch == PatchedAt(y2.chunk, |y1.chunk.code|, |y2.chunk.code|)
    ensures Kept(c1, ch, a, |c1.code|) && Kept(y1.chunk, ch, |c1.code| + 1, |y1.chunk.code|)
    ensures Kept(y2.chunk, ch, |y1.chunk.code| + 1, |y2.chunk.code|) && |ch.code| == |y2.chunk.code|
    ensures Has(ch, |c1.code|, OpJumpIfFalse(|y1.chunk.code| + 1)) && Has(ch, |y1.chunk.code|, OpJump(|ch.code|))
    ensures |Branched(y1, |c1.code|).chunk.code| == |y1.chunk.code| + 1
    ensures ch.ranges == y2.chunk.ranges && Branched(y1, |c1.code|).chunk.ranges == y1.chunk.ranges
  {
  }

  lemma IfElseCompiled(sg: Sigs, s: Stmt, x: Snap, c1: Chunk, y1: Snap, y2: Snap, y: Snap, d: int)
    requires s.If? && s.orelse != [] && Longer(x.chunk, c1)
    requires ExprCode(c1, sg, s.cond, x.locals, |x.chunk.code|) && |c1.code| == |x.chunk.code| + ExprSize(s.cond, sg)
    requires CompiledBlock(sg, s.body, Tested(x, c1), y1) && Grown(Tested(x, c1).chunk, y1.chunk)
    requires CompiledBlock(sg, s.orelse, Branched(y1, |c1.code|), y2) && Grown(Branched(y1, |c1.code|).chunk, y2.chunk)
    requires |y1.chunk.code| < |y2.chunk.code|
    requires y == y2.(chunk := PatchedAt(y2.chunk, |y1.chunk.code|, |y2.chunk.code|))
    ensures Compiled(sg, s, x, y, d)
  {
    hide ExprCode, ExprSize, StmtsCode, BlockSize, Kept, Has, StmtCode, StmtSize, WithOpen, Holes, OpenJumpsIn,
         RangesIn,
         Grown;
    var a, b, e, end := |x.chunk.code|, |c1.code|, |y1.chunk.code|, |y2.chunk.code|;
    var t := Holes(x.loops);
    ElsePatches(c1, y1, y2, y.chunk, a);
    WithMore(x.loops, OpenJumpsIn(true, s.body, sg, b + 1), OpenJumpsIn(false, s.body, sg, b + 1),
             OpenJumpsIn(true, s.orelse, sg, e + 1), OpenJumpsIn(false, s.orelse, sg, e + 1));
    ExprGrown(c1, y.chunk, sg, s.cond, x.locals, a);
    BlockGrown(y1.chunk, y.chunk, sg, s.body, x.locals, b + 1, t);
    BlockGrown(y2.chunk, y.chunk, sg, s.orelse, x.locals, e + 1, t);
    IfIs(y.chunk, sg, s, x.locals, a, t, b, e, end);
    Assoc(x.chunk.ranges, RangesIn(s.body, sg, b + 1), RangesIn(s.orelse, sg, e + 1));
  }

  lemma AdvancedFacts(x: Snap, y: Snap, d: int)
    requires Advanced(x, y, d)
    ensures |x.locals| == |x.depths| && |y.locals| == |y.depths| && Grown(x.chunk, y.chunk) && |x.loops| == |y.loops|
    ensures |x.chunk.code| <= |y.chunk.code| && x.locals <= y.locals && x.depths <= y.depths
  {
  }

  lemma EmptyIsOk(L: seq<Local>, D: seq<int>, d: int, inLoop: bool, sg: Sigs)
    requires |L| == |D|
    ensures OkStmts([], L, D, d, inLoop, sg)
  {
  }

  lemma CompiledFacts(sg: Sigs, ss: seq<Stmt>, x: Snap, y: Snap, d: int)
    requires |x.locals| == |x.depths|
    ensures CompiledAll(sg, ss, x, y, d) ==>
              y.locals == AfterAll(ss, x.locals) && y.depths == AfterAllDepths(ss, x.depths, d)
  {
    hide StmtsCode, RangesIn, OpenJumpsIn, BlockSize, AfterAll, AfterAllDepths, WithOpen, Holes;
  }

  /** All that is in scope is less deep than a new scope. */
  lemma InScopeOf(D: seq<int>, d: int)
    requires InScope(D, d)
    ensures InScope(D, d + 1 - 1)
  {
  }

  lemma TestedIs(x: Snap, c1: Chunk)
    ensures Tested(x, c1) == Snap(Appended(c1, OpJumpIfFalse(0)), x.locals, x.depths, x.loops)
  {
  }

  lemma BranchedIs(y: Snap, b: nat)
    requires b < |y.chunk.code|
    ensures b < |Appended(y.chunk, OpJump(0)).code| == |y.chunk.code| + 1
    ensures Branched(y, b)
            == Snap(PatchedAt(Appended(y.chunk, OpJump(0)), b, |y.chunk.code| + 1), y.locals, y.depths, y.loops)
  {
  }

  /** After the body, the test still waits for its target. */
  lemma TestStands(x: Snap, c1: Chunk, x1: Snap, y1: Snap, d: int)
    requires Longer(x.chunk, c1) && x1 == Tested(x, c1) && Advanced(x1, y1, d)
    ensures |x.chunk.code| <= |c1.code| < |y1.chunk.code| && IsJump(y1.chunk.code[|c1.code|]) && Advanced(x, y1, d)
    ensures |x1.chunk.code| == |c1.code| + 1
  {
  }

  lemma GuardedIs(c: Chunk, begin: nat)
    ensures Guarded(c, begin) == Appended(c, OpJump(0)).(ranges := c.ranges + [TryRange(begin, |c.code|, |c.code| + 1)])
    ensures |Guarded(c, begin).code| == |c.code| + 1 && Appended(c, OpJump(0)).ranges == c.ranges
    ensures |Appended(c, OpJump(0)).code| == |c.code| + 1
  {
  }

  /** What a handler declares goes when it ends. */
  lemma CatchAdvanced(x: Snap, y1: Snap, begin: nat, x2: Snap, y2: Snap, name: string, d: int)
    requires Advanced(x, y1, d) && y1.locals == x.locals && y1.depths == x.depths
    requires Wrote(Guarded(y1.chunk, begin), x2.chunk, [if name == "" then OpPop else OpStoreLocal(|x.locals|)])
    requires x2.locals == CatchLocals(name, x.locals) && x2.depths == CatchDepths(name, x.depths, d + 1)
    requires x2.loops == y1.loops && Advanced(x2, y2, d + 1)
    ensures Advanced(x, y2.(locals := x.locals, depths := x.depths), d) && Grown(x2.chunk, y2.chunk)
    ensures |y1.chunk.code| < |y2.chunk.code| && IsJump(y2.chunk.code[|y1.chunk.code|])
    ensures |x.chunk.code| <= |y1.chunk.code| && |x.locals| <= |y2.locals| && |x.locals| == |x.depths|
    ensures y2.locals[..|x.locals|] == x.locals && y2.depths[..|x.locals|] == x.depths
    ensures forall i :: |x.locals| <= i < |y2.depths| ==> y2.depths[i] == d + 1
  {
    assert y2.chunk.code[|y1.chunk.code|] == OpJump(0);
  }

  lemma ElseWaits(c1: Chunk, y1: Snap)
    requires |c1.code| < |y1.chunk.code| && IsJump(y1.chunk.code[|c1.code|])
    ensures |Appended(y1.chunk, OpJump(0)).code| == |y1.chunk.code| + 1
    ensures IsJump(Appended(y1.chunk, OpJump(0)).code[|c1.code|])
  {
  }

  lemma ElseStands(x: Snap, c1: Chunk, y1: Snap, x2: Snap, y2: Snap, d: int)
    requires Advanced(x, y1, d) && |x.chunk.code| <= |c1.code| < |y1.chunk.code|
    requires x2 == Branched(y1, |c1.code|) && Advanced(x2, y2, d)
    ensures |y1.chunk.code| < |y2.chunk.code| && IsJump(y2.chunk.code[|y1.chunk.code|]) && Advanced(x, y2, d)
    ensures |x.chunk.code| <= |y1.chunk.code|
  {
  }

  // ─── Try ───────────────────────────────────────────────────────────────────

  /** After the body of a `try`: the jump over the handler, and the range of the body. */
  function Guarded(c: Chunk, begin: nat): Chunk {
    Appended(c, OpJump(0)).(ranges := c.ranges + [TryRange(begin, |c.code|, |c.code| + 1)])
  }

  lemma TryPatches(c: Chunk, begin: nat, c1: Chunk, c2: Chunk, name: string, n: nat, ch: Chunk, a: nat)
    requires Wrote(Guarded(c, begin), c1, [if name == "" then OpPop else OpStoreLocal(n)]) && Grown(c1, c2)
    requires name != "" ==> !Hidden(name) && n < c1.numLocals
    requires |c.code| < |c2.code| && ch == PatchedAt(c2, |c.code|, |c2.code|)
    ensures Kept(c, ch, a, |c.code|) && Kept(c2, ch, |c.code| + 2, |c2.code|) && |ch.code| == |c2.code|
    ensures Has(ch, |c.code|, OpJump(|ch.code|)) && CatchStart(ch, name, n, |c.code| + 1)
    ensures |c1.code| == |c.code| + 2 && ch.ranges == c2.ranges && c1.ranges == Guarded(c, begin).ranges
  {
    hide Hidden;
    assert c1.code[|c.code| + 1] == if name == "" then OpPop else OpStoreLocal(n);
  }

  lemma TryCompiled(sg: Sigs, s: Stmt, x: Snap, y1: Snap, x2: Snap, y2: Snap, y: Snap, d: int)
    requires s.Try? && CompiledBlock(sg, s.body, x, y1) && (s.name != "" ==> !Hidden(s.name))
    requires Wrote(Guarded(y1.chunk, |x.chunk.code|), x2.chunk,
                   [if s.name == "" then OpPop else OpStoreLocal(|x.locals|)])
    requires s.name != "" ==> |x.locals| < x2.chunk.numLocals
    requires x2.locals == CatchLocals(s.name, x.locals) && x2.loops == y1.loops
    requires CompiledAll(sg, s.orelse, x2, y2, d + 1) && Grown(x2.chunk, y2.chunk)
    requires |y1.chunk.code| < |y2.chunk.code| && |x.locals| == |x.depths|
    requires y == Snap(PatchedAt(y2.chunk, |y1.chunk.code|, |y2.chunk.code|), x.locals, x.depths, y2.loops)
    ensures Compiled(sg, s, x, y, d)
  {
    hide ExprCode, ExprSize, StmtsCode, BlockSize, Kept, Has, StmtCode, StmtSize, WithOpen, Holes, OpenJumpsIn,
         RangesIn,
         Grown, Wrote, CatchStart, CatchLocals, Hidden, AfterAll, AfterAllDepths;
    var a, e, end := |x.chunk.code|, |y1.chunk.code|, |y2.chunk.code|;
    var t := Holes(x.loops);
    TryPatches(y1.chunk, a, x2.chunk, y2.chunk, s.name, |x.locals|, y.chunk, a);
    WithMore(x.loops, OpenJumpsIn(true, s.body, sg, a), OpenJumpsIn(false, s.body, sg, a),
             OpenJumpsIn(true, s.orelse, sg, e + 2), OpenJumpsIn(false, s.orelse, sg, e + 2));
    BlockGrown(y1.chunk, y.chunk, sg, s.body, x.locals, a, t);
    BlockGrown(y2.chunk, y.chunk, sg, s.orelse, CatchLocals(s.name, x.locals), e + 2, t);
    TryIs(y.chunk, sg, s, x.locals, a, t, e, end);
    Assoc(x.chunk.ranges, RangesIn(s.body, sg, a), [TryRange(a, e, e + 1)]);
    Assoc(x.chunk.ranges, RangesIn(s.body, sg, a) + [TryRange(a, e, e + 1)], RangesIn(s.orelse, sg, e + 2));
  }

  // ─── Loops ─────────────────────────────────────────────────────────────────

  /** `c1` is `c` with all the jumps at `js` going to `target`. */
  predicate AllPatched(c: Chunk, js: seq<nat>, target: nat, c1: Chunk) {
    && c1 == c.(code := c1.code) && |c1.code| == |c.code|
    && forall i: nat :: i < |c.code| ==> c1.code[i] == if i in js then OpJump(target) else c.code[i]
  }

  /** A loop begins: no jump of it is open yet. */
  function Looping(x: Snap): Snap { x.(loops := x.loops + [LoopCtx([], [])]) }

  lemma LoopOpens(sg: Sigs, ss: seq<Stmt>, x: Snap, y: Snap)
    requires CompiledBlock(sg, ss, Looping(x), y)
    ensures Holes(Looping(x).loops) == Targets(0, 0) && |y.loops| == |x.loops| + 1 && y.loops[..|x.loops|] == x.loops
    ensures y.loops[|x.loops|].breaks == OpenJumpsIn(true, ss, sg, |x.chunk.code|)
    ensures y.loops[|x.loops|].continues == OpenJumpsIn(false, ss, sg, |x.chunk.code|)
  {
    hide StmtsCode, RangesIn, OpenJumpsIn, BlockSize;
  }

  /** A loop ends: its jumps are in the code since it began. */
  lemma LoopAdvanced(x: Snap, y: Snap, d: int)
    requires Advanced(Looping(x), y, d)
    ensures |y.loops| == |x.loops| + 1 && y.loops[..|x.loops|] == x.loops
    ensures forall j :: j in y.loops[|x.loops|].breaks || j in y.loops[|x.loops|].continues ==> |x.chunk.code| <= j
    ensures Advanced(x, y.(loops := x.loops), d)
  {
  }

  /** The body of a loop with the jumps of the loop filled in. */
  lemma BodyFilled(c: Chunk, ch: Chunk, sg: Sigs, ss: seq<Stmt>, L: seq<Local>, a: nat, brks: seq<nat>, conts: seq<nat>,
                   own: Targets)
    requires StmtsCode(c, sg, ss, L, a, Targets(0, 0)) && own.Targets?
    requires brks == OpenJumpsIn(true, ss, sg, a) && conts == OpenJumpsIn(false, ss, sg, a)
    requires Filled(c, ch, a, a + BlockSize(ss, sg), brks, conts, own)
    ensures StmtsCode(ch, sg, ss, L, a, own)
  {
    hide *;
    AgreesWithItself(ss, sg, a, brks, conts, Targets(0, 0), own);
    BlockFilled(c, ch, a, a + BlockSize(ss, sg), brks, conts, sg, ss, L, a, Targets(0, 0), own);
  }

  lemma AgreesWithItself(ss: seq<Stmt>, sg: Sigs, a: nat, brks: seq<nat>, conts: seq<nat>, t: Targets, t1: Targets)
    requires t.Targets? && t1.Targets?
    requires brks == OpenJumpsIn(true, ss, sg, a) && conts == OpenJumpsIn(false, ss, sg, a)
    ensures OpensIn(ss, sg, a, brks, conts, t, t1)
  {
    hide OpenJumpsIn, BlockSize;
  }

  lemma LoopingIs(x: Snap)
    ensures Looping(x) == Snap(x.chunk, x.locals, x.depths, x.loops + [LoopCtx([], [])])
  {
  }

  /** After the body and the jump back, the test still waits for its target. */
  lemma WhileStands(x: Snap, c1: Chunk, x1: Snap, y1: Snap, c2: Chunk, start: nat, d: int)
    requires Longer(x.chunk, c1) && x1 == Looping(Tested(x, c1)) && Advanced(x1, y1, d)
    requires |y1.loops| == |x.loops| + 1 && AllPatched(y1.chunk, y1.loops[|x.loops|].continues, start, c2)
    ensures |x.chunk.code| <= |c1.code| < |y1.chunk.code| < |Appended(c2, OpJump(start)).code| == |y1.chunk.code| + 1
    ensures IsJump(Appended(c2, OpJump(start)).code[|c1.code|]) && Grown(Tested(x, c1).chunk, y1.chunk)
    ensures |PatchedAt(Appended(c2, OpJump(start)), |c1.code|, |y1.chunk.code| + 1).code| == |y1.chunk.code| + 1
    ensures |c2.code| == |y1.chunk.code|
  {
    assert y1.chunk.code[|c1.code|] == OpJumpIfFalse(0);
  }

  lemma WhileAdvanced(x: Snap, c1: Chunk, x1: Snap, y1: Snap, c2: Chunk, y: Snap, d: int)
    requires Longer(x.chunk, c1) && x1 == Looping(Tested(x, c1)) && Advanced(x1, y1, d)
    requires |y1.loops| == |x.loops| + 1 && AllPatched(y1.chunk, y1.loops[|x.loops|].continues, |x.chunk.code|, c2)
    requires |c1.code| <= |c2.code|
    requires AllPatched(PatchedAt(Appended(c2, OpJump(|x.chunk.code|)), |c1.code|, |y1.chunk.code| + 1),
                        y1.loops[|x.loops|].breaks, |y1.chunk.code| + 1, y.chunk)
    requires y1.locals == x.locals && y1.depths == x.depths && y.loops == y1.loops[..|x.loops|]
    requires y.locals == x.locals && y.depths == x.depths
    ensures Advanced(x, y, d) && y.loops == x.loops
  {
    hide Grown;
    WhileGrown(x.chunk, c1, y1.chunk, c2, y.chunk, y1.loops[|x.loops|].continues, y1.loops[|x.loops|].breaks);
  }

  lemma WhileGrown(c0: Chunk, c1: Chunk, c: Chunk, c2: Chunk, ch: Chunk, conts: seq<nat>, brks: seq<nat>)
    requires Longer(c0, c1) && Grown(Appended(c1, OpJumpIfFalse(0)), c)
    requires forall j :: j in conts || j in brks ==> |c0.code| <= j
    requires AllPatched(c, conts, |c0.code|, c2) && |c1.code| <= |c2.code|
    requires AllPatched(PatchedAt(Appended(c2, OpJump(|c0.code|)), |c1.code|, |c.code| + 1), brks, |c.code| + 1, ch)
    ensures Grown(c0, ch)
  {
  }

  /** The patches at the end of a `while`. */
  lemma WhilePatches(c1: Chunk, c: Chunk, c2: Chunk, ch: Chunk, brks: seq<nat>, conts: seq<nat>, a: nat)
    requires Grown(Appended(c1, OpJumpIfFalse(0)), c) && a <= |c1.code|
    requires Between(brks, |c1.code| + 1, |c.code|) && Between(conts, |c1.code| + 1, |c.code|)
    requires AllPatched(c, conts, a, c2)
    requires AllPatched(PatchedAt(Appended(c2, OpJump(a)), |c1.code|, |c.code| + 1), brks, |c.code| + 1, ch)
    ensures Kept(c1, ch, a, |c1.code|) && |ch.code| == |c.code| + 1 && ch.ranges == c.ranges
    ensures Filled(c, ch, |c1.code| + 1, |c.code|, brks, conts, Targets(|c.code| + 1, a))
    ensures Has(ch, |c1.code|, OpJumpIfFalse(|c.code| + 1)) && Has(ch, |c.code|, OpJump(a))
  {
  }

  lemma WhileCompiled(sg: Sigs, s: Stmt, x: Snap, c1: Chunk, y1: Snap, c2: Chunk, y: Snap, d: int)
    requires s.While? && Longer(x.chunk, c1)
    requires ExprCode(c1, sg, s.cond, x.locals, |x.chunk.code|) && |c1.code| == |x.chunk.code| + ExprSize(s.cond, sg)
    requires CompiledBlock(sg, s.body, Looping(Tested(x, c1)), y1) && Grown(Tested(x, c1).chunk, y1.chunk)
    requires |y1.loops| == |x.loops| + 1 && |y1.chunk.code| > |c1.code|
    requires AllPatched(y1.chunk, y1.loops[|x.loops|].continues, |x.chunk.code|, c2)
    requires AllPatched(PatchedAt(Appended(c2, OpJump(|x.chunk.code|)), |c1.code|, |y1.chunk.code| + 1),
                        y1.loops[|x.loops|].breaks, |y1.chunk.code| + 1, y.chunk)
    requires y == x.(chunk := y.chunk)
    ensures Compiled(sg, s, x, y, d)
  {
    hide ExprCode, ExprSize, StmtsCode, BlockSize, Kept, Has, StmtCode, StmtSize, WithOpen, Holes, OpenJumpsIn,
         RangesIn,
         Grown, Filled, Between, AllPatched;
    var a, b, e := |x.chunk.code|, |c1.code|, |y1.chunk.code|;
    var own := Targets(e + 1, a);
    LoopOpens(sg, s.body, Tested(x, c1), y1);
    var brks, conts := y1.loops[|x.loops|].breaks, y1.loops[|x.loops|].continues;
    OpenBetween(true, s.body, sg, b + 1);
    OpenBetween(false, s.body, sg, b + 1);
    WhilePatches(c1, y1.chunk, c2, y.chunk, brks, conts, a);
    ExprGrown(c1, y.chunk, sg, s.cond, x.locals, a);
    BodyFilled(y1.chunk, y.chunk, sg, s.body, x.locals, b + 1, brks, conts, own);
    WhileIs(y.chunk, sg, s, x.locals, a, Holes(x.loops), b, e);
    WithNone(x.loops);
  }

  // ─── For ───────────────────────────────────────────────────────────────────

  /** The test of a `for`, at the end of `c`, with its jump open. */
  function ForTested(c: Chunk, n: nat): Chunk {
    c.(code := c.code + [OpLoadLocal(n + 2), OpLoadLocal(n + 1), OpLt, OpJumpIfFalse(0),
                         OpLoadLocal(n), OpLoadLocal(n + 2), OpGetIndex, OpStoreLocal(n + 3)])
  }

  const ITEMS := Local(" items", "")
  const COUNT := Local(" count", "")
  const INDEX := Local(" index", "")

  lemma ForNoClash(s: Stmt, L: seq<Local>, D: seq<int>, d: int)
    requires s.For? && !Hidden(s.name) && |L| == |D| && InScope(D, d - 1)
    ensures !Clashes(L, D, ITEMS.name, d) && !Clashes(L + [ITEMS], D + [d], COUNT.name, d)
    ensures !Clashes(L + [ITEMS] + [COUNT], D + [d] + [d], INDEX.name, d)
    ensures !Clashes(L + [ITEMS] + [COUNT] + [INDEX], D + [d] + [d] + [d], s.name, d)
    ensures L + [ITEMS] + [COUNT] + [INDEX] + [Local(s.name, s.typ)] == ForLocals(s, L)
    ensures D + [d] + [d] + [d] + [d] == D + [d, d, d, d]
  {
    assert ITEMS.name[1] == 'i' && ITEMS.name[2] == 't' && COUNT.name[1] == 'c' && INDEX.name[2] == 'n';
    assert Hidden(ITEMS.name) && Hidden(COUNT.name) && Hidden(INDEX.name);
    hide Hidden;
    NoClash(L, D, ITEMS.name, d);
    NoClashPast(L, D, ITEMS, COUNT.name, d);
    NoClashPastTwo(L, D, ITEMS, COUNT, INDEX.name, d);
    NoClashPastTwo(L, D, ITEMS, COUNT, s.name, d);
    assert (L + [ITEMS] + [COUNT] + [INDEX])[..|L| + 2] == L + [ITEMS] + [COUNT];
    assert (D + [d] + [d] + [d])[..|D| + 2] == D + [d] + [d];
  }

  lemma ForHeadWritten(c0: Chunk, c1: Chunk, c2: Chunk, d2: Chunk, c3: Chunk, ch: Chunk, sg: Sigs, n: nat, k: nat)
    requires Wrote(c0, c1, [OpIterList] + [OpStoreLocal(n)])
    requires Wrote(c1, c2, [OpLoadLocal(n), OpCallNative(sg.lenId, 1)] + [OpStoreLocal(n + 1)]) && Wrote(c2, d2, [])
    requires Wrote(d2, c3, [OpConst(k)] + [OpStoreLocal(n + 2)]) && Wrote(c3, ch, []) && IsConstant(c3, k, Int(0))
    ensures Longer(c0, ch) && |ch.code| == |c0.code| + 7 && ForHead(ch, |c0.code|, n) && HasLen(ch, |c0.code| + 3, sg)
  {
    hide Wrote, Has, Longer;
    TwoWritten(d2, c3, OpConst(k), OpStoreLocal(n + 2));
    LongerRefl(ch);
    NothingWritten(c3, ch, ch);
    HasLonger(c3, ch, |d2.code|, OpConst(k));
    HasLonger(c3, ch, |d2.code| + 1, OpStoreLocal(n + 2));
    ConstHere(c3, ch, |d2.code|, k, Int(0));
    LongerTrans(d2, c3, ch);
    NothingWritten(c2, d2, ch);
    assert [OpLoadLocal(n), OpCallNative(sg.lenId, 1)] + [OpStoreLocal(n + 1)]
        == [OpLoadLocal(n), OpCallNative(sg.lenId, 1), OpStoreLocal(n + 1)];
    ThreeWritten(c1, c2, ch, OpLoadLocal(n), OpCallNative(sg.lenId, 1), OpStoreLocal(n + 1));
    TwoWritten(c0, c1, OpIterList, OpStoreLocal(n));
    HasLonger(c1, ch, |c0.code|, OpIterList);
    HasLonger(c1, ch, |c0.code| + 1, OpStoreLocal(n));
    LongerTrans(c0, c1, ch);
  }

  lemma TwoWritten(c: Chunk, c1: Chunk, x: Instr, y: Instr)
    requires Wrote(c, c1, [x] + [y])
    ensures Longer(c, c1) && |c1.code| == |c.code| + 2 && Has(c1, |c.code|, x) && Has(c1, |c.code| + 1, y)
  {
  }

  lemma HasLonger(c: Chunk, c1: Chunk, pc: nat, op: Instr)
    requires Has(c, pc, op) && Longer(c, c1)
    ensures Has(c1, pc, op)
  {
  }

  lemma NextIsNotAsync(n: nat, k: nat, start: nat)
    ensures forall i :: 0 <= i < |NextOps(n, k, start)| ==> !NextOps(n, k, start)[i].OpCallAsync?
  {
  }

  /** After the body and the increment, the test still waits for its target. */
  lemma ForStands(x1: Snap, n: nat, x2: Snap, y1: Snap, c2: Chunk, c3: Chunk, k: nat, d: int)
    requires x2 == Looping(x1.(chunk := ForTested(x1.chunk, n))) && Advanced(x2, y1, d) && |y1.loops| == |x1.loops| + 1
    requires AllPatched(y1.chunk, y1.loops[|x1.loops|].continues, |y1.chunk.code|, c2)
    requires Wrote(c2, c3, NextOps(n, k, |x1.chunk.code|))
    ensures |x1.chunk.code| + 3 < |c3.code| == |y1.chunk.code| + 5 && IsJump(c3.code[|x1.chunk.code| + 3])
    ensures |PatchedAt(c3, |x1.chunk.code| + 3, |y1.chunk.code| + 5).code| == |y1.chunk.code| + 5
  {
    var at := |x1.chunk.code| + 3;
    assert ForTested(x1.chunk, n).code[at] == OpJumpIfFalse(0);
    assert y1.chunk.code[at] == OpJumpIfFalse(0);
    assert c3.code[at] == c2.code[at];
  }

  lemma ForScope(s: Stmt, L: seq<Local>, D: seq<int>, d: int)
    requires s.For? && |L| == |D|
    ensures |ForLocals(s, L)| == |L| + 4 && ForLocals(s, L)[..|L|] == L
    ensures var D1 := D + [d + 1, d + 1, d + 1, d + 1];
            D1[..|L|] == D && forall i :: |L| <= i < |D1| ==> D1[i] == d + 1
  {
  }

  lemma ForAdvanced(x: Snap, c1: Chunk, x1: Snap, y1: Snap, c2: Chunk, c3: Chunk, k: nat, n: nat, y: Snap, d: int)
    requires Longer(x.chunk, c1) && Longer(c1, x1.chunk) && x1.loops == x.loops && |x.locals| == |x.depths|
    requires Advanced(Looping(x1.(chunk := ForTested(x1.chunk, n))), y1, d + 1) && |y1.loops| == |x1.loops| + 1
    requires AllPatched(y1.chunk, y1.loops[|x1.loops|].continues, |y1.chunk.code|, c2)
    requires Wrote(c2, c3, NextOps(n, k, |x1.chunk.code|)) && |x1.chunk.code| + 3 < |c3.code|
    requires AllPatched(PatchedAt(c3, |x1.chunk.code| + 3, |y1.chunk.code| + 5),
                        y1.loops[|x1.loops|].breaks, |y1.chunk.code| + 5, y.chunk)
    requires y.loops == y1.loops[..|x1.loops|] && y.locals == x.locals && y.depths == x.depths
    ensures Advanced(x, y, d) && y.loops == x.loops && Grown(ForTested(x1.chunk, n), y1.chunk)
    ensures y == x.(chunk := y.chunk)
  {
    hide Grown;
    ForGrown(x.chunk, x1.chunk, n, y1.chunk, c2, c3, NextOps(n, k, |x1.chunk.code|), y.chunk,
             y1.loops[|x1.loops|].continues, y1.loops[|x1.loops|].breaks);
  }

  lemma ForGrown(c: Chunk, c0: Chunk, n: nat, b: Chunk, c2: Chunk, c3: Chunk, ops: seq<Instr>, ch: Chunk,
                 conts: seq<nat>, brks: seq<nat>)
    requires c.code <= c0.code && c.constants <= c0.constants && c.numLocals <= c0.numLocals && c.ranges == c0.ranges
    requires Grown(ForTested(c0, n), b) && Wrote(c2, c3, ops) && |c0.code| + 3 < |c3.code|
    requires forall j :: j in conts || j in brks ==> |c.code| <= j
    requires AllPatched(b, conts, |b.code|, c2)
    requires AllPatched(PatchedAt(c3, |c0.code| + 3, |b.code| + 5), brks, |b.code| + 5, ch)
    ensures Grown(c, ch)
  {
    var t := ForTested(c0, n);
    forall i | 0 <= i < |c.code|
      ensures ch.code[i] == c.code[i]
    {
      assert t.code[i] == c0.code[i] && b.code[i] == t.code[i];
      assert i !in conts && i !in brks;
    }
  }

  /** The patches at the end of a `for`: `c0` is the chunk before the test, `c` the one
    after the body, `c3` the one after the increment. */
  lemma ForPatches(c0: Chunk, c: Chunk, c2: Chunk, c3: Chunk, ops: seq<Instr>, ch: Chunk, brks: seq<nat>,
                   conts: seq<nat>, n: nat)
    requires Grown(ForTested(c0, n), c)
    requires Between(brks, |c0.code| + 8, |c.code|) && Between(conts, |c0.code| + 8, |c.code|)
    requires AllPatched(c, conts, |c.code|, c2) && Wrote(c2, c3, ops) && |ops| == 5
    requires AllPatched(PatchedAt(c3, |c0.code| + 3, |c.code| + 5), brks, |c.code| + 5, ch)
    ensures Kept(c0, ch, 0, |c0.code|) && |ch.code| == |c.code| + 5 && ch.ranges == c.ranges
            && c0.numLocals <= ch.numLocals
    ensures Filled(c, ch, |c0.code| + 8, |c.code|, brks, conts, Targets(|c.code| + 5, |c.code|))
    ensures forall i :: |c0.code| <= i < |c0.code| + 8 && i != |c0.code| + 3 ==> ch.code[i] == c.code[i]
    ensures Has(ch, |c0.code| + 3, OpJumpIfFalse(|c.code| + 5)) && ch.code[|c.code|..] == ops
            && c3.constants == ch.constants
  {
    assert c.code[|c0.code| + 3] == ForTested(c0, n).code[|c0.code| + 3];
    assert forall i :: |c.code| <= i < |c.code| + 5 ==> ch.code[i] == c3.code[i] == ops[i - |c.code|];
  }

  lemma ForTestedOps(c: Chunk, n: nat)
    ensures var b, t := |c.code|, ForTested(c, n);
            && |t.code| == b + 8
            && Has(t, b, OpLoadLocal(n + 2)) && Has(t, b + 1, OpLoadLocal(n + 1)) && Has(t, b + 2, OpLt)
            && Has(t, b + 3, OpJumpIfFalse(0))
            && Has(t, b + 4, OpLoadLocal(n)) && Has(t, b + 5, OpLoadLocal(n + 2)) && Has(t, b + 6, OpGetIndex)
            && Has(t, b + 7, OpStoreLocal(n + 3))
  {
    assert ForTested(c, n).code[|c.code|..] == [OpLoadLocal(n + 2), OpLoadLocal(n + 1), OpLt, OpJumpIfFalse(0),
                         OpLoadLocal(n), OpLoadLocal(n + 2), OpGetIndex, OpStoreLocal(n + 3)];
  }

  lemma ForTestStands(c0: Chunk, c: Chunk, ch: Chunk, n: nat, end: nat)
    requires Grown(ForTested(c0, n), c) && |c.code| <= |ch.code|
    requires forall i :: |c0.code| <= i < |c0.code| + 8 && i != |c0.code| + 3 ==> ch.code[i] == c.code[i]
    requires Has(ch, |c0.code| + 3, OpJumpIfFalse(end))
    ensures ForTest(ch, |c0.code|, n, end)
  {
    hide ForTested;
    ForTestedOps(c0, n);
    assert forall i :: 0 <= i < |ForTested(c0, n).code| ==> ForTested(c0, n).code[i] == c.code[i];
  }

  lemma ForNextStands(ch: Chunk, e: nat, n: nat, k: nat, b: nat)
    requires IsConstant(ch, k, Int(1)) && e <= |ch.code|
    requires ch.code[e..] == [OpLoadLocal(n + 2), OpConst(k), OpAdd, OpStoreLocal(n + 2), OpJump(b)]
    ensures ForNext(ch, e, n, b)
  {
    var rest := ch.code[e..];
    assert rest[0] == ch.code[e] && rest[1] == ch.code[e + 1] && rest[2] == ch.code[e + 2];
    assert rest[3] == ch.code[e + 3] && rest[4] == ch.code[e + 4];
  }

  lemma ForCompiled(sg: Sigs, s: Stmt, x: Snap, c1: Chunk, x1: Snap, y1: Snap, c2: Chunk, k: nat, c3: Chunk, y: Snap,
                    d: int)
    requires s.For? && Longer(x.chunk, c1) && !Hidden(s.name)
    requires ExprCode(c1, sg, s.iterable, x.locals, |x.chunk.code|)
    requires |c1.code| == |x.chunk.code| + ExprSize(s.iterable, sg)
    requires Longer(c1, x1.chunk) && |x1.chunk.code| == |c1.code| + 7 && |x.locals| + 4 <= x1.chunk.numLocals
    requires ForHead(x1.chunk, |c1.code|, |x.locals|) && HasLen(x1.chunk, |c1.code| + 3, sg)
    requires x1.locals == ForLocals(s, x.locals) && x1.loops == x.loops
    requires CompiledBlock(sg, s.body, Looping(x1.(chunk := ForTested(x1.chunk, |x.locals|))), y1)
    requires Grown(ForTested(x1.chunk, |x.locals|), y1.chunk) && |y1.loops| == |x.loops| + 1
    requires AllPatched(y1.chunk, y1.loops[|x.loops|].continues, |y1.chunk.code|, c2) && IsConstant(c3, k, Int(1))
    requires Wrote(c2, c3, NextOps(|x.locals|, k, |x1.chunk.code|)) && |c3.code| > |x1.chunk.code| + 3
    requires AllPatched(PatchedAt(c3, |x1.chunk.code| + 3, |y1.chunk.code| + 5),
                        y1.loops[|x.loops|].breaks, |y1.chunk.code| + 5, y.chunk)
    requires y == x.(chunk := y.chunk)
    ensures Compiled(sg, s, x, y, d)
  {
    hide ExprCode, ExprSize, StmtsCode, BlockSize, Kept, Has, StmtCode, StmtSize, WithOpen, Holes, OpenJumpsIn,
         RangesIn,
         Grown, Filled, Between, AllPatched, ForLocals, Longer, ForHead, ForTest, ForNext, HasLen, Hidden, Wrote;
    var a, b, e, n := |x.chunk.code|, |c1.code|, |y1.chunk.code|, |x.locals|;
    var own := Targets(e + 5, e);
    LoopOpens(sg, s.body, x1.(chunk := ForTested(x1.chunk, n)), y1);
    var brks, conts := y1.loops[|x.loops|].breaks, y1.loops[|x.loops|].continues;
    OpenBetween(true, s.body, sg, b + 15);
    OpenBetween(false, s.body, sg, b + 15);
    ForPatches(x1.chunk, y1.chunk, c2, c3, NextOps(n, k, b + 7), y.chunk, brks, conts, n);
    ForTestStands(x1.chunk, y1.chunk, y.chunk, n, e + 5);
    ForNextStands(y.chunk, e, n, k, b + 7);
    ExprLonger(c1, x1.chunk, sg, s.iterable, x.locals, a);
    ForStarts(x1.chunk, y.chunk, sg, s.iterable, x.locals, a, b);
    BodyFilled(y1.chunk, y.chunk, sg, s.body, ForLocals(s, x.locals), b + 15, brks, conts, own);
    ForIs(y.chunk, sg, s, x.locals, a, Holes(x.loops), b, e);
    WithNone(x.loops);
    LongerTrans(x.chunk, c1, x1.chunk);
    SameRanges(x.chunk, x1.chunk);
  }

  /** The increment of a `for`. */
  function NextOps(n: nat, k: nat, start: nat): seq<Instr> {
    [OpLoadLocal(n + 2), OpConst(k), OpAdd, OpStoreLocal(n + 2), OpJump(start)]
  }

  lemma ForStarts(c: Chunk, ch: Chunk, sg: Sigs, e: Expr, L: seq<Local>, a: nat, b: nat)
    requires ExprCode(c, sg, e, L, a) && b == a + ExprSize(e, sg) && |c.code| == b + 7 && Kept(c, ch, 0, b + 7)
    requires ForHead(c, b, |L|) && HasLen(c, b + 3, sg)
    ensures ExprCode(ch, sg, e, L, a) && ForHead(ch, b, |L|) && HasLen(ch, b + 3, sg)
  {
    hide ExprCode, ExprSize, ForHead, HasLen, Kept;
    ExprStable(c, ch, 0, b + 7, sg, e, L, a);
    ForHeadKept(c, ch, 0, b + 7, b, |L|, sg);
  }

  // ─── Declarations ──────────────────────────────────────────────────────────

  lemma NoParams()
    ensures ParamLocals([]) == [] && Zeros(0) == [] && DistinctParams([])
  {
  }

  /** One more parameter is accepted exactly when its name is new. */
  lemma ParamSnoc(params: seq<Param>, i: nat)
    requires i < |params|
    ensures |ParamLocals(params[..i])| == |Zeros(i)|
    ensures ParamLocals(params[..i + 1]) == ParamLocals(params[..i]) + [Local(params[i].name, params[i].typ)]
    ensures Zeros(i + 1) == Zeros(i) + [0] && (!DistinctParams(params[..i]) ==> !DistinctParams(params[..i + 1]))
    ensures DistinctParams(params[..i]) ==>
              (DistinctParams(params[..i + 1]) <==> !Clashes(ParamLocals(params[..i]), Zeros(i), params[i].name, 0))
  {
    var ps, qs := params[..i], params[..i + 1];
    assert qs[..i] == ps;
    ParamClash(ps, params[i].name);
    assert forall k :: 0 <= k < i ==> qs[k] == ps[k];
    if !DistinctParams(ps) {
      var k, j :| 0 <= k < j < |ps| && ps[k].name == ps[j].name;
      assert qs[k].name == qs[j].name;
    }
    if k :| 0 <= k < i && ps[k].name == params[i].name {
      assert qs[k].name == qs[i].name;
    }
  }

  lemma {:induction false} ParamClash(params: seq<Param>, name: string)
    ensures Clashes(ParamLocals(params), Zeros(|params|), name, 0)
            <==> exists k :: 0 <= k < |params| && params[k].name == name
  {
    if params != [] {
      var n := |params| - 1;
      ParamClash(params[..n], name);
      assert ParamLocals(params)[..n] == ParamLocals(params[..n]);
      assert Zeros(n + 1)[..n] == Zeros(n);
    }
  }

  lemma DeclParts(decl: Decl, sg: Sigs)
    ensures PlainDecl(decl, sg) ==> PlainStmts(R.GuardStmts(decl.guards), sg) && PlainStmts(decl.body, sg)
    ensures |ParamLocals(decl.params)| == |Zeros(|decl.params|)|
    ensures OkDecl(decl, sg)
            <==> && DistinctParams(decl.params)
                 && OkStmts(R.GuardStmts(decl.guards), ParamLocals(decl.params), Zeros(|decl.params|), 0, false, sg)
                 && OkStmts(decl.body, ParamLocals(decl.params), Zeros(|decl.params|), 1, false, sg)
  {
    hide OkStmts, PlainStmts, ParamLocals, R.GuardStmts, DistinctParams;
  }

  lemma NoGuards(guards: seq<Guard>)
    ensures guards[..0] == [] && R.GuardStmts([]) == []
  {
  }

  lemma {:induction false} GuardSnoc(guards: seq<Guard>, i: nat)
    requires i < |guards|
    ensures R.GuardStmts(guards[..i + 1])
            == R.GuardStmts(guards[..i]) + [Require(guards[i].condition, guards[i].otherwise)]
    decreases i
  {
    assert guards[..i + 1][1..] == guards[1..][..i];
    if i > 0 {
      GuardSnoc(guards[1..], i - 1);
      assert guards[..i][1..] == guards[1..][..i - 1];
    }
  }

  lemma {:induction false} PlainGuard(guards: seq<Guard>, sg: Sigs, i: nat)
    requires i < |guards| && PlainStmts(R.GuardStmts(guards), sg)
    ensures PlainExpr(guards[i].condition, sg) && PlainExpr(guards[i].otherwise, sg)
    decreases i
  {
    hide PlainExpr;
    assert R.GuardStmts(guards)[1..] == R.GuardStmts(guards[1..]);
    if i > 0 {
      PlainGuard(guards[1..], sg, i - 1);
    }
  }

  lemma {:induction false} GuardsKeepDepths(guards: seq<Guard>, D: seq<int>)
    ensures AfterAllDepths(R.GuardStmts(guards), D, 0) == D
  {
    if guards != [] {
      assert R.GuardStmts(guards)[1..] == R.GuardStmts(guards[1..]);
      GuardsKeepDepths(guards[1..], D);
    }
  }

  lemma EmptyChunk()
    ensures var c := Chunk([], [], [], 0, false); |c.code| == 0 && c.ranges == []
  {
  }

  lemma DeclCompiled(sg: Sigs, decl: Decl, x: Snap, y: Snap, z: Snap, ch: Chunk)
    requires Wrote(Chunk([], [], [], 0, false), x.chunk, []) && x.loops == [] && x.locals == ParamLocals(decl.params)
    requires |x.locals| <= x.chunk.numLocals && Grown(x.chunk, y.chunk) && Grown(y.chunk, z.chunk)
    requires CompiledAll(sg, R.GuardStmts(decl.guards), x, y, 0) && y.locals == x.locals
    requires CompiledBlock(sg, decl.body, y, z) && ch == Appended(z.chunk, OpReturnNull) && PlainDecl(decl, sg)
    ensures DeclCode(ch, sg, decl)
  {
    hide StmtsCode, RangesIn, BlockSize, OpenJumpsIn, AfterAll, AfterAllDepths, R.GuardStmts, PlainStmts, Hidden,
         ParamLocals;
    var gs := R.GuardStmts(decl.guards);
    var b := BlockSize(gs, sg);
    var L := ParamLocals(decl.params);
    GuardsHaveNoRanges(decl.guards, sg, 0);
    BlockGrown(y.chunk, ch, sg, gs, L, 0, NoTargets);
    BlockGrown(z.chunk, ch, sg, decl.body, L, b, NoTargets);
  }
}
