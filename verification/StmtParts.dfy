/** One level of the definition of a statement's code and size, in both directions. */
module StmtParts {
  import opened Wrappers
  import opened Values
  import opened Ast
  import opened Bytecode
  import opened Layout
  import opened Acceptance
  import R = Reference

  /** The last instruction of a simple statement. */
  predicate SimpleEnd(ch: Chunk, s: Stmt, L: seq<Local>, b: nat)
    requires IsSimple(s)
  {
    match s
    case Return(_) => Has(ch, b, OpReturn)
    case ExprStmt(_) => Has(ch, b, OpPop)
    case VarDecl(_, name, _) => |L| < ch.numLocals && !Hidden(name) && Has(ch, b, OpStoreLocal(|L|))
    case Assign(t, _) => HasStore(ch, b, L, t.name)
  }

  lemma SimpleIs(ch: Chunk, sg: Sigs, s: Stmt, L: seq<Local>, a: nat, t: Targets, b: nat)
    requires IsSimple(s) && b == a + ExprSize(SimpleExpr(s), sg)
    ensures a + StmtSize(s, sg) == b + 1
    ensures StmtCode(ch, sg, s, L, a, t) <==> ExprCode(ch, sg, SimpleExpr(s), L, a) && SimpleEnd(ch, s, L, b)
  {
    hide ExprCode, ExprSize, Has, HasStore, Hidden;
  }

  lemma JumpIs(ch: Chunk, sg: Sigs, s: Stmt, L: seq<Local>, a: nat, t: Targets)
    requires s.Break? || s.Continue? || (s.Return? && s.result.None?)
    ensures StmtSize(s, sg) == 1
    ensures StmtCode(ch, sg, s, L, a, t)
            <==> (if s.Return? then Has(ch, a, OpReturnNull)
                  else t.Targets? && Has(ch, a, OpJump(if s.Break? then t.brk else t.cont)))
  {
  }

  predicate EffectEnd(ch: Chunk, t: Expr, b: nat) {
    && ((t.Index? && Has(ch, b, OpSetIndex)) || (t.Member? && HasSetMember(ch, b, t.field))) && Has(ch, b + 1, OpPop)
  }

  lemma EffectIs(ch: Chunk, sg: Sigs, s: Stmt, L: seq<Local>, a: nat, t: Targets, es: seq<Expr>, b: nat)
    requires s.Assign? && !s.target.Ident? && es == R.AssignOperands(s.target, s.value) && b == a + ListSize(es, sg)
    ensures a + StmtSize(s, sg) == b + 2
    ensures StmtCode(ch, sg, s, L, a, t) <==> ListCode(ch, sg, es, L, a) && EffectEnd(ch, s.target, b)
  {
    hide ListCode, ListSize, R.AssignOperands, Has, HasSetMember;
  }

  lemma IfIs(ch: Chunk, sg: Sigs, s: Stmt, L: seq<Local>, a: nat, t: Targets, b: nat, e: nat, end: nat)
    requires s.If? && b == a + ExprSize(s.cond, sg) && e == b + 1 + BlockSize(s.body, sg)
    requires end == if s.orelse == [] then e else e + 1 + BlockSize(s.orelse, sg)
    ensures a + StmtSize(s, sg) == end
    ensures StmtCode(ch, sg, s, L, a, t)
            <==> && ExprCode(ch, sg, s.cond, L, a) && StmtsCode(ch, sg, s.body, L, b + 1, t)
                 && Has(ch, b, OpJumpIfFalse(if s.orelse == [] then e else e + 1))
                 && (s.orelse != [] ==> Has(ch, e, OpJump(end)) && StmtsCode(ch, sg, s.orelse, L, e + 1, t))
  {
    hide ExprCode, ExprSize, StmtsCode, BlockSize, Has;
  }

  lemma WhileIs(ch: Chunk, sg: Sigs, s: Stmt, L: seq<Local>, a: nat, t: Targets, b: nat, e: nat)
    requires s.While? && b == a + ExprSize(s.cond, sg) && e == b + 1 + BlockSize(s.body, sg)
    ensures a + StmtSize(s, sg) == e + 1
    ensures StmtCode(ch, sg, s, L, a, t)
            <==> && ExprCode(ch, sg, s.cond, L, a) && Has(ch, b, OpJumpIfFalse(e + 1))
                 && StmtsCode(ch, sg, s.body, L, b + 1, Targets(e + 1, a)) && Has(ch, e, OpJump(a))
  {
    hide ExprCode, ExprSize, StmtsCode, BlockSize, Has;
  }

  lemma ForIs(ch: Chunk, sg: Sigs, s: Stmt, L: seq<Local>, a: nat, t: Targets, b: nat, e: nat)
    requires s.For? && b == a + ExprSize(s.iterable, sg) && e == b + 15 + BlockSize(s.body, sg)
    ensures a + StmtSize(s, sg) == e + 5
    ensures StmtCode(ch, sg, s, L, a, t)
            <==> && ExprCode(ch, sg, s.iterable, L, a) && ForHead(ch, b, |L|) && HasLen(ch, b + 3, sg)
                 && |L| + 4 <= ch.numLocals && !Hidden(s.name) && ForTest(ch, b + 7, |L|, e + 5)
                 && StmtsCode(ch, sg, s.body, ForLocals(s, L), b + 15, Targets(e + 5, e))
                 && ForNext(ch, e, |L|, b + 7)
  {
    hide ExprCode, ExprSize, StmtsCode, BlockSize, Hidden, ForHead, ForTest, ForNext, HasLen;
  }

  lemma RequireIs(ch: Chunk, sg: Sigs, s: Stmt, L: seq<Local>, a: nat, t: Targets, b: nat, e: nat)
    requires s.Require? && b == a + ExprSize(s.cond, sg) && e == b + 2 + ExprSize(s.otherwise, sg)
    ensures a + StmtSize(s, sg) == e + 1
    ensures StmtCode(ch, sg, s, L, a, t)
            <==> && ExprCode(ch, sg, s.cond, L, a) && Has(ch, b, OpJumpIfFalse(b + 2)) && Has(ch, b + 1, OpJump(e + 1))
                 && ExprCode(ch, sg, s.otherwise, L, b + 2) && Has(ch, e, OpReturn)
  {
    hide ExprCode, ExprSize, Has;
  }

  predicate CatchStart(ch: Chunk, name: string, n: nat, e: nat) {
    if name == "" then Has(ch, e, OpPop) else !Hidden(name) && n < ch.numLocals && Has(ch, e, OpStoreLocal(n))
  }

  lemma TryIs(ch: Chunk, sg: Sigs, s: Stmt, L: seq<Local>, a: nat, t: Targets, e: nat, end: nat)
    requires s.Try? && e == a + BlockSize(s.body, sg) && end == e + 2 + BlockSize(s.orelse, sg)
    ensures a + StmtSize(s, sg) == end
    ensures StmtCode(ch, sg, s, L, a, t)
            <==> && StmtsCode(ch, sg, s.body, L, a, t) && Has(ch, e, OpJump(end)) && CatchStart(ch, s.name, |L|, e + 1)
                 && StmtsCode(ch, sg, s.orelse, CatchLocals(s.name, L), e + 2, t)
  {
    hide ExprSize, StmtsCode, BlockSize, Has, Hidden, CatchLocals;
  }

  lemma BlockIs(ch: Chunk, sg: Sigs, ss: seq<Stmt>, L: seq<Local>, a: nat, t: Targets, b: nat)
    requires ss != [] && b == a + StmtSize(ss[0], sg)
    ensures BlockSize(ss, sg) == StmtSize(ss[0], sg) + BlockSize(ss[1..], sg)
    ensures StmtsCode(ch, sg, ss, L, a, t)
            <==> StmtCode(ch, sg, ss[0], L, a, t) && StmtsCode(ch, sg, ss[1..], After(ss[0], L), b, t)
  {
    hide StmtCode, StmtSize, After;
  }

  // ─── Guards ────────────────────────────────────────────────────────────────

  lemma {:induction false} GuardsHaveNoRanges(guards: seq<Guard>, sg: Sigs, a: nat)
    ensures RangesIn(R.GuardStmts(guards), sg, a) == []
  {
    hide StmtSize;
    if guards != [] {
      var ss := R.GuardStmts(guards);
      assert ss[1..] == R.GuardStmts(guards[1..]);
      GuardsHaveNoRanges(guards[1..], sg, a + StmtSize(ss[0], sg));
    }
  }

  lemma {:induction false} GuardsDeclareNothing(guards: seq<Guard>, L: seq<Local>)
    ensures AfterAll(R.GuardStmts(guards), L) == L
  {
    if guards != [] {
      assert R.GuardStmts(guards)[1..] == R.GuardStmts(guards[1..]);
      GuardsDeclareNothing(guards[1..], L);
    }
  }
}
