/** What one step of the compiler does to its state: the chunk, the variables in
  scope and the loops whose jumps are open. */
module Progress {
  import opened Wrappers
  import opened Values
  import opened Ast
  import opened Bytecode
  import opened Layout
  import opened Acceptance
  import opened Stability
  import opened StmtParts
  import opened Patching
  import opened Assembly
  import R = Reference

  /** The jumps of a loop that wait for its end: `break` and `continue`. */
  datatype LoopCtx = LoopCtx(breaks: seq<nat>, continues: seq<nat>)

  datatype Snap = Snap(chunk: Chunk, locals: seq<Local>, depths: seq<int>, loops: seq<LoopCtx>)

  predicate InScope(depths: seq<int>, d: int) {
    forall i :: 0 <= i < |depths| ==> depths[i] <= d
  }

  // ─── Names declared in a new scope ─────────────────────────────────────────

  /** Nothing is declared yet in a scope deeper than all others. */
  lemma NoClash(L: seq<Local>, D: seq<int>, name: string, d: int)
    requires |L| == |D| && InScope(D, d - 1)
    ensures !Clashes(L, D, name, d)
  {
  }

  lemma NoClashPast(L: seq<Local>, D: seq<int>, x: Local, name: string, d: int)
    requires |L| == |D| && InScope(D, d - 1) && x.name != name
    ensures !Clashes(L + [x], D + [d], name, d)
  {
    assert (L + [x])[..|L|] == L && (D + [d])[..|D|] == D;
  }

  lemma NoClashPastTwo(L: seq<Local>, D: seq<int>, x: Local, y: Local, name: string, d: int)
    requires |L| == |D| && InScope(D, d - 1) && x.name != name && y.name != name
    ensures !Clashes(L + [x] + [y], D + [d] + [d], name, d)
  {
    NoClashPast(L, D, x, name, d);
    assert (L + [x] + [y])[..|L| + 1] == L + [x] && (D + [d] + [d])[..|D| + 1] == D + [d];
  }

  lemma HiddenNames()
    ensures RECEIVER.name != PREVIOUS.name && CONTAINER.name != POSITION.name
    ensures CONTAINER.name != PREVIOUS.name && POSITION.name != PREVIOUS.name
    ensures Local(RECEIVER.name, RECEIVER.typ) == RECEIVER && Local(PREVIOUS.name, PREVIOUS.typ) == PREVIOUS
    ensures Local(CONTAINER.name, CONTAINER.typ) == CONTAINER && Local(POSITION.name, POSITION.typ) == POSITION
  {
    assert RECEIVER.name[1] == 'r' && PREVIOUS.name[1] == 'p' && POSITION.name[1] == 'i' && CONTAINER.name[1] == 'c';
  }

  /** What was declared since the scope began is of its depth. */
  lemma NewScope(L: seq<Local>, L1: seq<Local>, D: seq<int>, D1: seq<int>, d: int)
    requires |L| == |D| && |L1| == |D1| && L <= L1 && D <= D1 && InScope(D, d)
    requires forall i :: |D| <= i < |D1| ==> D1[i] == d + 1
    ensures L1[..|L|] == L && D1[..|D|] == D && InScope(D1[..|L|], d + 1 - 1)
    ensures forall i :: |L| <= i < |D1| ==> D1[i] == d + 1
  {
  }

  // ─── Always ────────────────────────────────────────────────────────────────

  predicate NewIn(js: seq<nat>, js1: seq<nat>, lo: nat) {
    forall j :: j in js1 ==> j in js || lo <= j
  }

  /** Only the innermost loop has new open jumps, and they are new code. */
  predicate NewJumps(l: seq<LoopCtx>, l1: seq<LoopCtx>, lo: nat) {
    && |l| == |l1|
    && (l != [] ==>
          var n := |l| - 1;
          && l1[..n] == l[..n]
          && NewIn(l[n].breaks, l1[n].breaks, lo) && NewIn(l[n].continues, l1[n].continues, lo))
  }

  /** The state only grows: new variables are of depth `d`. */
  predicate Advanced(x: Snap, y: Snap, d: int) {
    && |x.locals| == |x.depths| && |y.locals| == |y.depths| && x.locals <= y.locals && x.depths <= y.depths
    && (forall i :: |x.depths| <= i < |y.depths| ==> y.depths[i] == d)
    && NewJumps(x.loops, y.loops, |x.chunk.code|) && Grown(x.chunk, y.chunk)
  }

  lemma AdvancedTrans(x: Snap, y: Snap, z: Snap, d: int)
    requires Advanced(x, y, d) && Advanced(y, z, d)
    ensures Advanced(x, z, d)
  {
  }

  /** Only code was added. */
  lemma AdvancedLonger(x: Snap, y: Snap, d: int)
    requires Longer(x.chunk, y.chunk) && y == x.(chunk := y.chunk) && |x.locals| == |x.depths|
    ensures Advanced(x, y, d) && Grown(x.chunk, y.chunk)
  {
  }

  // ─── When nothing was rejected ─────────────────────────────────────────────

  /** The targets of jumps that are still open. */
  function Holes(loops: seq<LoopCtx>): Targets { if loops == [] then NoTargets else Targets(0, 0) }

  function WithOpen(loops: seq<LoopCtx>, brks: seq<nat>, conts: seq<nat>): seq<LoopCtx> {
    if loops == [] then []
    else
      var n := |loops| - 1;
      loops[..n] + [LoopCtx(loops[n].breaks + brks, loops[n].continues + conts)]
  }

  /** From `x` to `y`, statement `s` was compiled. */
  predicate Compiled(sg: Sigs, s: Stmt, x: Snap, y: Snap, d: int) {
    var a := |x.chunk.code|;
    && y.locals == After(s, x.locals) && y.depths == AfterDepths(s, x.depths, d)
    && |y.chunk.code| == a + StmtSize(s, sg) && StmtCode(y.chunk, sg, s, x.locals, a, Holes(x.loops))
    && y.chunk.ranges == x.chunk.ranges + Ranges(s, sg, a)
    && y.loops == WithOpen(x.loops, OpenJumps(true, s, sg, a), OpenJumps(false, s, sg, a))
  }

  /** From `x` to `y`, the statements of a block were. */
  predicate CompiledAll(sg: Sigs, ss: seq<Stmt>, x: Snap, y: Snap, d: int) {
    var a := |x.chunk.code|;
    && y.locals == AfterAll(ss, x.locals) && y.depths == AfterAllDepths(ss, x.depths, d)
    && |y.chunk.code| == a + BlockSize(ss, sg) && StmtsCode(y.chunk, sg, ss, x.locals, a, Holes(x.loops))
    && y.chunk.ranges == x.chunk.ranges + RangesIn(ss, sg, a)
    && y.loops == WithOpen(x.loops, OpenJumpsIn(true, ss, sg, a), OpenJumpsIn(false, ss, sg, a))
  }

  /** The same, with the scope of the block closed. */
  predicate CompiledBlock(sg: Sigs, ss: seq<Stmt>, x: Snap, y: Snap) {
    var a := |x.chunk.code|;
    && y.locals == x.locals && y.depths == x.depths
    && |y.chunk.code| == a + BlockSize(ss, sg) && StmtsCode(y.chunk, sg, ss, x.locals, a, Holes(x.loops))
    && y.chunk.ranges == x.chunk.ranges + RangesIn(ss, sg, a)
    && y.loops == WithOpen(x.loops, OpenJumpsIn(true, ss, sg, a), OpenJumpsIn(false, ss, sg, a))
  }

  lemma WithNone(loops: seq<LoopCtx>)
    ensures WithOpen(loops, [], []) == loops
  {
    if loops != [] {
      var last := loops[|loops| - 1];
      assert last.breaks + [] == last.breaks && last.continues + [] == last.continues;
    }
  }

  lemma WithMore(loops: seq<LoopCtx>, brks: seq<nat>, conts: seq<nat>, brks1: seq<nat>, conts1: seq<nat>)
    ensures WithOpen(WithOpen(loops, brks, conts), brks1, conts1) == WithOpen(loops, brks + brks1, conts + conts1)
    ensures Holes(WithOpen(loops, brks, conts)) == Holes(loops)
  {
    if loops != [] {
      var n := |loops| - 1;
      assert WithOpen(loops, brks, conts)[..n] == loops[..n];
      Assoc(loops[n].breaks, brks, brks1);
      Assoc(loops[n].continues, conts, conts1);
    }
  }

  lemma CompiledNothing(sg: Sigs, x: Snap, d: int)
    requires |x.locals| == |x.depths|
    ensures CompiledAll(sg, [], x, x, d) && Advanced(x, x, d)
  {
    WithNone(x.loops);
    assert x.chunk.ranges + [] == x.chunk.ranges;
  }

  lemma GrownIsKept(c: Chunk, c1: Chunk, lo: nat, hi: nat)
    requires Grown(c, c1) && hi <= |c.code|
    ensures Kept(c, c1, lo, hi)
  {
  }

  /** One more statement of a block. */
  lemma CompiledSnoc(sg: Sigs, ss: seq<Stmt>, s: Stmt, x: Snap, y: Snap, z: Snap, d: int)
    requires CompiledAll(sg, ss, x, y, d) && Compiled(sg, s, y, z, d) && Grown(y.chunk, z.chunk)
    requires |x.locals| == |x.depths|
    ensures CompiledAll(sg, ss + [s], x, z, d)
  {
    hide StmtsCode, StmtCode, RangesIn, Ranges, OpenJumpsIn, OpenJumps, BlockSize, StmtSize, AfterAll, After,
         AfterAllDepths, AfterDepths, Grown, WithOpen, OkStmt, OkStmts, Holes;
    var a := |x.chunk.code|;
    BlockSnoc(z.chunk, sg, ss, s, x.locals, a, Holes(x.loops));
    RangesSnoc(sg, ss, s, a);
    OpenJumpsSnoc(true, sg, ss, s, a);
    OpenJumpsSnoc(false, sg, ss, s, a);
    OkSnoc(ss, s, x.locals, x.depths, d, true, sg);
    Assoc(x.chunk.ranges, RangesIn(ss, sg, a), Ranges(s, sg, |y.chunk.code|));
    WithMore(x.loops, OpenJumpsIn(true, ss, sg, a), OpenJumpsIn(false, ss, sg, a),
             OpenJumps(true, s, sg, |y.chunk.code|), OpenJumps(false, s, sg, |y.chunk.code|));
    GrownIsKept(y.chunk, z.chunk, a, |y.chunk.code|);
    BlockStable(y.chunk, z.chunk, a, |y.chunk.code|, sg, ss, x.locals, a, Holes(x.loops));
  }

  /** The scope of a block is closed. */
  lemma BlockClosed(sg: Sigs, ss: seq<Stmt>, x: Snap, y: Snap, d: int)
    requires CompiledAll(sg, ss, x, y, d)
    ensures CompiledBlock(sg, ss, x, y.(locals := x.locals, depths := x.depths))
  {
    hide StmtsCode, RangesIn, OpenJumpsIn, BlockSize, AfterAll, AfterAllDepths, WithOpen, Holes;
  }

  lemma AdvancedClosed(x: Snap, y: Snap, d: int, e: int)
    requires Advanced(x, y, d)
    ensures Advanced(x, y.(locals := x.locals, depths := x.depths), e)
    ensures y.locals[..|x.locals|] == x.locals && y.depths[..|x.locals|] == x.depths
    ensures forall i :: |x.locals| <= i < |y.depths| ==> y.depths[i] == d
  {
  }

  // ─── Simple statements ─────────────────────────────────────────────────────

  lemma SimpleCompiled(sg: Sigs, s: Stmt, x: Snap, c1: Chunk, y: Snap, d: int)
    requires IsSimple(s) && |x.locals| == |x.depths|
    requires ExprCode(c1, sg, SimpleExpr(s), x.locals, |x.chunk.code|) && Longer(x.chunk, c1) && Longer(c1, y.chunk)
    requires |c1.code| == |x.chunk.code| + ExprSize(SimpleExpr(s), sg) && |y.chunk.code| == |c1.code| + 1
    requires SimpleEnd(y.chunk, s, x.locals, |c1.code|)
    requires y.locals == After(s, x.locals) && y.depths == AfterDepths(s, x.depths, d) && y.loops == x.loops
    ensures Compiled(sg, s, x, y, d)
  {
    hide ExprCode, ExprSize, SimpleEnd, Longer, WithOpen, StmtCode, Holes;
    SimpleIs(y.chunk, sg, s, x.locals, |x.chunk.code|, Holes(x.loops), |c1.code|);
    ExprLonger(c1, y.chunk, sg, SimpleExpr(s), x.locals, |x.chunk.code|);
    WithNone(x.loops);
    LongerTrans(x.chunk, c1, y.chunk);
    SameRanges(x.chunk, y.chunk);
  }

  lemma SameRanges(c: Chunk, c1: Chunk)
    requires Longer(c, c1)
    ensures c1.ranges == c.ranges + []
  {
  }

  // ─── One level of the definitions ──────────────────────────────────────────

  lemma PlainStmtByKind(s: Stmt, sg: Sigs)
    requires PlainStmt(s, sg)
    ensures IsSimple(s) ==> PlainExpr(SimpleExpr(s), sg)
    ensures s.VarDecl? || s.For? || s.Try? ==> !Hidden(s.name)
    ensures s.Assign? && s.target.Ident? ==> !Hidden(s.target.name)
    ensures s.Assign? ==> PlainList(R.AssignOperands(s.target, s.value), sg)
    ensures s.If? ==> PlainExpr(s.cond, sg) && PlainStmts(s.body, sg) && PlainStmts(s.orelse, sg)
    ensures s.While? ==> PlainExpr(s.cond, sg) && PlainStmts(s.body, sg)
    ensures s.For? ==> PlainExpr(s.iterable, sg) && PlainStmts(s.body, sg)
    ensures s.Require? ==> PlainExpr(s.cond, sg) && PlainExpr(s.otherwise, sg)
    ensures s.Try? ==> PlainStmts(s.body, sg) && PlainStmts(s.orelse, sg)
  {
    hide PlainExpr, PlainStmts, PlainList, R.AssignOperands, Hidden;
  }

  lemma OkStmtByKind(s: Stmt, L: seq<Local>, D: seq<int>, d: int, inLoop: bool, sg: Sigs)
    requires |L| == |D|
    ensures s.Return? && s.result.None? ==> OkStmt(s, L, D, d, inLoop, sg)
    ensures IsSimple(s) ==>
              (OkStmt(s, L, D, d, inLoop, sg)
               <==> && OkExpr(SimpleExpr(s), L, sg)
                    && (s.VarDecl? ==> !Clashes(L, D, s.name, d))
                    && (s.Assign? ==> ResolveLocal(L, s.target.name) >= 0))
    ensures s.Assign? && !s.target.Ident? ==>
              (OkStmt(s, L, D, d, inLoop, sg)
               <==> (s.target.Index? || s.target.Member?) && OkList(R.AssignOperands(s.target, s.value), L, sg))
    ensures s.If? ==>
              (OkStmt(s, L, D, d, inLoop, sg)
               <==> OkExpr(s.cond, L, sg) && OkStmts(s.body, L, D, d + 1, inLoop, sg)
                    && OkStmts(s.orelse, L, D, d + 1, inLoop, sg))
    ensures s.While? ==>
              (OkStmt(s, L, D, d, inLoop, sg) <==> OkExpr(s.cond, L, sg) && OkStmts(s.body, L, D, d + 1, true, sg))
    ensures s.For? ==>
              (OkStmt(s, L, D, d, inLoop, sg)
               <==> && OkExpr(s.iterable, L, sg)
                    && OkStmts(s.body, ForLocals(s, L), D + [d + 1, d + 1, d + 1, d + 1], d + 2, true, sg))
    ensures s.Require? ==>
              (OkStmt(s, L, D, d, inLoop, sg) <==> OkExpr(s.cond, L, sg) && OkExpr(s.otherwise, L, sg))
    ensures s.Try? ==>
              (OkStmt(s, L, D, d, inLoop, sg)
               <==> && OkStmts(s.body, L, D, d + 1, inLoop, sg)
                    && |CatchLocals(s.name, L)| == |CatchDepths(s.name, D, d + 1)|
                    && OkStmts(s.orelse, CatchLocals(s.name, L), CatchDepths(s.name, D, d + 1), d + 1, inLoop, sg))
    ensures s.Break? || s.Continue? ==> (OkStmt(s, L, D, d, inLoop, sg) <==> inLoop)
  {
    hide OkExpr, OkList, OkStmts, R.AssignOperands, ResolveLocal, Clashes, ForLocals;
    assert s.For? ==> |ForLocals(s, L)| == |L| + 4 by { ForLocalsLength(s, L); }
  }

  lemma ForLocalsLength(s: Stmt, L: seq<Local>)
    ensures s.For? ==> |ForLocals(s, L)| == |L| + 4
  {
  }

  function CatchDepths(name: string, D: seq<int>, d: int): seq<int> { if name == "" then D else D + [d] }

  lemma StmtKinds(s: Stmt)
    ensures IsSimple(s) || (s.Return? && s.result.None?) || (s.Assign? && !s.target.Ident?)
            || s.If? || s.While? || s.For?
            || s.Require? || s.Try? || s.Break? || s.Continue?
    ensures IsSimple(s) ==> s.Return? || s.ExprStmt? || s.VarDecl? || (s.Assign? && s.target.Ident?)
    ensures IsSimple(s) && s.Return? ==> s.result.Some?
  {
  }
}
