/** One level of each definition, for statements: what the code, the ranges and the
  execution of a statement say of its parts. */
module StmtUnfolding {
  import opened Wrappers
  import opened Values
  import opened Ast
  import opened Bytecode
  import opened Machine
  import opened Layout
  import opened Slots
  import opened MachineSteps
  import opened Composition
  import opened StmtComposition
  import opened StmtRuns
  import StmtParts
  import R = Reference

  /** Statement `s` is compiled at `a`, in a chunk where the jumps and the `try` ranges
    around it are those of the loop and of the `try` statements it is in. */
  predicate StmtAt(k: Ctx, s: Stmt, lc: R.Loop, L: seq<Local>, a: nat, t: Targets) {
    var sg := k.src.sigs;
    && StmtCode(k.ch, sg, s, L, a, t) && LoopFits(lc, t, a, a + StmtSize(s, sg))
    && Placed(k.ch.ranges, Ranges(s, sg, a), a, a + StmtSize(s, sg))
  }

  predicate StmtsAt(k: Ctx, ss: seq<Stmt>, lc: R.Loop, L: seq<Local>, a: nat, t: Targets) {
    var sg := k.src.sigs;
    && StmtsCode(k.ch, sg, ss, L, a, t) && LoopFits(lc, t, a, a + BlockSize(ss, sg))
    && Placed(k.ch.ranges, RangesIn(ss, sg, a), a, a + BlockSize(ss, sg))
  }

  lemma PlacedPart(all: seq<TryRange>, rs: seq<TryRange>, lo: nat, hi: nat, rs1: seq<TryRange>, lo1: nat, hi1: nat)
    requires Placed(all, rs, lo, hi) && lo <= lo1 && hi1 <= hi
    requires forall x :: x in rs1 ==> x in rs
    requires forall x :: x in rs ==> x in rs1 || x.end <= lo1 || hi1 <= x.begin || (x.begin <= lo1 && hi1 <= x.end)
    ensures Placed(all, rs1, lo1, hi1)
  {
  }

  lemma {:induction false} StmtSizePositive(s: Stmt, sg: Sigs)
    ensures StmtSize(s, sg) > 0
  {
    hide ExprSize, ListSize, BlockSize;
  }

  /** Every range of a list of statements is within their code. */
  lemma RangesBounded(ss: seq<Stmt>, sg: Sigs, a: nat)
    ensures forall x :: x in RangesIn(ss, sg, a) ==> a <= x.begin <= x.end <= a + BlockSize(ss, sg)
  {
    forall x | x in RangesIn(ss, sg, a)
      ensures a <= x.begin <= x.end <= a + BlockSize(ss, sg)
    {
      RangesInWithin(ss, sg, a, x);
    }
  }

  // ─── Lists of statements ───────────────────────────────────────────────────

  lemma ConsParts(k: Ctx, ss: seq<Stmt>, lc: R.Loop, L: seq<Local>, a: nat, t: Targets) returns (b: nat, end: nat)
    requires ss != [] && StmtsAt(k, ss, lc, L, a, t)
    ensures b == a + StmtSize(ss[0], k.src.sigs) && a < b <= end == a + BlockSize(ss, k.src.sigs)
    ensures end == b + BlockSize(ss[1..], k.src.sigs)
    ensures StmtAt(k, ss[0], if |ss| == 1 then lc else R.NotLast(lc), L, a, t)
    ensures StmtsAt(k, ss[1..], lc, After(ss[0], L), b, t) && L <= After(ss[0], L)
    ensures RangesIn(ss, k.src.sigs, a) == Ranges(ss[0], k.src.sigs, a) + RangesIn(ss[1..], k.src.sigs, b)
    ensures forall x :: x in Ranges(ss[0], k.src.sigs, a) ==> x.end <= b
    ensures forall x :: x in RangesIn(ss[1..], k.src.sigs, b) ==> b <= x.begin
    ensures AfterAll(ss, L) == AfterAll(ss[1..], After(ss[0], L))
  {
    hide StmtCode, StmtSize, Ranges;
    var sg := k.src.sigs;
    b := a + StmtSize(ss[0], sg);
    end := a + BlockSize(ss, sg);
    StmtSizePositive(ss[0], sg);
    var rs1, rs2 := Ranges(ss[0], sg, a), RangesIn(ss[1..], sg, b);
    forall x | x in rs1
      ensures a <= x.begin <= x.end <= b
    {
      RangesWithin(ss[0], sg, a, x);
    }
    RangesBounded(ss[1..], sg, b);
    PlacedPart(k.ch.ranges, rs1 + rs2, a, end, rs1, a, b);
    PlacedPart(k.ch.ranges, rs1 + rs2, a, end, rs2, b, end);
    if |ss| > 1 {
      StmtSizePositive(ss[1], sg);
    }
  }

  lemma ExecOfCons(k: Ctx, fuel: nat, ss: seq<Stmt>, lc: R.Loop, st: R.St) returns (r: R.Res<R.Signal>)
    requires ss != []
    ensures r == R.ExecStmt(k.src, fuel, Depth(k), ss[0], if |ss| == 1 then lc else R.NotLast(lc), st)
    ensures R.ExecStmts(k.src, fuel, Depth(k), ss, lc, st) ==
            Then(r, if r.Ok? && r.value.Normal? then R.ExecStmts(k.src, fuel, Depth(k), ss[1..], lc, r.st) else r,
                 |st.env|)
  {
    hide R.ExecStmt;
    r := R.ExecStmt(k.src, fuel, Depth(k), ss[0], if |ss| == 1 then lc else R.NotLast(lc), st);
  }

  lemma NilParts(k: Ctx, fuel: nat, lc: R.Loop, L: seq<Local>, a: nat, st: R.St)
    ensures R.ExecStmts(k.src, fuel, Depth(k), [], lc, st) == R.Ok(R.Normal, st)
    ensures BlockSize([], k.src.sigs) == 0 && RangesIn([], k.src.sigs, a) == [] && AfterAll([], L) == L
  {
  }

  lemma ExecOfBlock(k: Ctx, fuel: nat, ss: seq<Stmt>, lc: R.Loop, st: R.St)
    ensures R.ExecBlock(k.src, fuel, Depth(k), ss, lc, st)
            == R.Shrink(R.ExecStmts(k.src, fuel, Depth(k), ss, lc, st), |st.env|)
  {
    hide R.ExecStmts;
  }

  lemma {:induction false} AfterAllExtends(ss: seq<Stmt>, L: seq<Local>)
    ensures L <= AfterAll(ss, L)
  {
    if ss != [] {
      AfterAllExtends(ss[1..], After(ss[0], L));
    }
  }

  // ─── Simple statements ─────────────────────────────────────────────────────

  function SimpleResult(s: Stmt, r: R.Res<Value>): R.Res<R.Signal>
    requires IsSimple(s)
  {
    match s
    case Return(_) => Returned(r)
    case ExprStmt(_) => Discarded(r)
    case VarDecl(_, name, _) => Declared(r, name)
    case Assign(t, _) => Assigned(r, t.name)
    case _ => R.Stopped(R.NoFuel)
  }

  lemma SimpleParts(k: Ctx, s: Stmt, lc: R.Loop, L: seq<Local>, a: nat, t: Targets) returns (b: nat)
    requires IsSimple(s) && StmtAt(k, s, lc, L, a, t)
    ensures b == a + ExprSize(SimpleExpr(s), k.src.sigs) && b + 1 == a + StmtSize(s, k.src.sigs)
    ensures ExprCode(k.ch, k.src.sigs, SimpleExpr(s), L, a) && Ranges(s, k.src.sigs, a) == []
    ensures s.Return? ==> Has(k.ch, b, OpReturn)
    ensures s.ExprStmt? ==> Has(k.ch, b, OpPop)
    ensures s.VarDecl? ==> Has(k.ch, b, OpStoreLocal(|L|)) && |L| < k.ch.numLocals && !Hidden(s.name)
    ensures s.Assign? ==> HasStore(k.ch, b, L, s.target.name)
    ensures After(s, L) == if s.VarDecl? then L + [Local(s.name, s.typ)] else L
  {
    hide ExprCode, ExprSize, ListCode, StmtsCode, BlockSize, RangesIn, Placed;
    b := a + ExprSize(SimpleExpr(s), k.src.sigs);
  }

  lemma ExecOfSimple(k: Ctx, fuel: nat, s: Stmt, lc: R.Loop, st: R.St) returns (r: R.Res<Value>)
    requires IsSimple(s)
    ensures r == R.EvalExpr(k.src, fuel, Depth(k), SimpleExpr(s), st)
    ensures R.ExecStmt(k.src, fuel, Depth(k), s, lc, st) == SimpleResult(s, r)
  {
    hide R.EvalExpr;
    r := R.EvalExpr(k.src, fuel, Depth(k), SimpleExpr(s), st);
  }

  // ─── Assignments to a field or an element ──────────────────────────────────

  lemma EffectParts(k: Ctx, s: Stmt, lc: R.Loop, L: seq<Local>, a: nat, t: Targets)
    returns (es: seq<Expr>, b: nat, i: Instr)
    requires s.Assign? && !s.target.Ident? && StmtAt(k, s, lc, L, a, t)
    ensures es == R.AssignOperands(s.target, s.value) && (s.target.Index? || s.target.Member?)
    ensures b == a + ListSize(es, k.src.sigs) && b + 2 == a + StmtSize(s, k.src.sigs)
    ensures ListCode(k.ch, k.src.sigs, es, L, a) && Has(k.ch, b, i) && Has(k.ch, b + 1, OpPop)
    ensures IsOperation(i) && Arity(i) == |es|
    ensures s.target.Index? ==> i == OpSetIndex
    ensures s.target.Member? ==> i.OpSetMember? && IsConstant(k.ch, i.k, Str(s.target.field))
    ensures Ranges(s, k.src.sigs, a) == [] && After(s, L) == L
  {
    hide ExprCode, ExprSize, ListCode, ListSize, StmtsCode, BlockSize, RangesIn, Placed;
    es := R.AssignOperands(s.target, s.value);
    b := a + ListSize(es, k.src.sigs);
    i := k.ch.code[b];
  }

  lemma ExecOfEffect(k: Ctx, fuel: nat, s: Stmt, lc: R.Loop, st: R.St, i: Instr) returns (r: R.Res<seq<Value>>)
    requires s.Assign? && (s.target.Index? || s.target.Member?)
    requires s.target.Index? ==> i == OpSetIndex
    requires s.target.Member? ==> i.OpSetMember? && IsConstant(k.ch, i.k, Str(s.target.field))
    ensures r == R.EvalList(k.src, fuel, Depth(k), R.AssignOperands(s.target, s.value), st)
    ensures r.Ok? ==> IsOperation(i) && |r.value| == Arity(i)
    ensures R.ExecStmt(k.src, fuel, Depth(k), s, lc, st) == Effect(k.p.host, k.p.lenId, k.ch, i, r)
  {
    hide R.EvalExpr, R.EvalList, SetIndex, SetMember;
    r := R.EvalList(k.src, fuel, Depth(k), R.AssignOperands(s.target, s.value), st);
  }

  // ─── if ────────────────────────────────────────────────────────────────────

  lemma EmptyBlock(sg: Sigs, a: nat)
    ensures BlockSize([], sg) == 0 && RangesIn([], sg, a) == []
  {
  }

  lemma NonEmptyBlock(ss: seq<Stmt>, sg: Sigs)
    requires ss != []
    ensures BlockSize(ss, sg) > 0
  {
    hide StmtSize;
    StmtSizePositive(ss[0], sg);
  }

  lemma NoCode(ch: Chunk, sg: Sigs, L: seq<Local>, a: nat, t: Targets)
    ensures StmtsCode(ch, sg, [], L, a, t)
  {
  }

  lemma IfParts(k: Ctx, s: Stmt, lc: R.Loop, L: seq<Local>, a: nat, t: Targets)
    returns (b: nat, hi: nat, to: nat, end: nat)
    requires s.If? && StmtAt(k, s, lc, L, a, t)
    ensures a <= b && b == a + ExprSize(s.cond, k.src.sigs) && hi == b + 1 + BlockSize(s.body, k.src.sigs)
    ensures end == a + StmtSize(s, k.src.sigs) && b < hi <= to <= end && end == to + BlockSize(s.orelse, k.src.sigs)
    ensures ExprCode(k.ch, k.src.sigs, s.cond, L, a) && Has(k.ch, b, OpJumpIfFalse(to))
    ensures StmtsAt(k, s.body, if s.orelse == [] then lc else R.NotLast(lc), L, b + 1, t)
    ensures StmtsAt(k, s.orelse, lc, L, to, t)
    ensures hi == end || (Has(k.ch, hi, OpJump(end)) && hi + 1 < end)
    ensures var rs := Ranges(s, k.src.sigs, a);
            && Apart(rs, a, b)
            && (forall x :: x in rs ==> x in RangesIn(s.body, k.src.sigs, b + 1) || x.end <= b + 1 || hi <= x.begin)
            && (forall x :: x in rs ==> x in RangesIn(s.orelse, k.src.sigs, to) || x.end <= to || end <= x.begin)
    ensures After(s, L) == L
  {
    hide StmtCode, ExprCode, ExprSize, StmtsCode, BlockSize, RangesIn, Ranges, Placed;
    var sg := k.src.sigs;
    b, hi, to, end := IfCode(k.ch, sg, s, L, a, t);
    IfRanges(s, sg, a, b, hi, to, end);
    var rs := Ranges(s, sg, a);
    RangesBounded(s.body, sg, b + 1);
    RangesBounded(s.orelse, sg, to);
    PlacedPart(k.ch.ranges, rs, a, end, RangesIn(s.body, sg, b + 1), b + 1, hi);
    PlacedPart(k.ch.ranges, rs, a, end, RangesIn(s.orelse, sg, to), to, end);
  }

  lemma IfCode(ch: Chunk, sg: Sigs, s: Stmt, L: seq<Local>, a: nat, t: Targets)
    returns (b: nat, hi: nat, to: nat, end: nat)
    requires s.If? && StmtCode(ch, sg, s, L, a, t)
    ensures b == a + ExprSize(s.cond, sg) && hi == b + 1 + BlockSize(s.body, sg)
    ensures end == a + StmtSize(s, sg) && b < hi <= to <= end && end == to + BlockSize(s.orelse, sg)
    ensures to == if s.orelse == [] then hi else hi + 1
    ensures ExprCode(ch, sg, s.cond, L, a) && Has(ch, b, OpJumpIfFalse(to))
    ensures StmtsCode(ch, sg, s.body, L, b + 1, t) && StmtsCode(ch, sg, s.orelse, L, to, t)
    ensures if s.orelse == [] then hi == end else Has(ch, hi, OpJump(end)) && hi + 1 < end
  {
    hide ExprCode, ExprSize, StmtsCode, BlockSize, Has, HasStore, HasSetMember, ListCode, ListSize, ForHead, ForTest,
         ForNext, HasLen, ForLocals, CatchLocals;
    b := a + ExprSize(s.cond, sg);
    hi := b + 1 + BlockSize(s.body, sg);
    end := a + StmtSize(s, sg);
    to := if s.orelse == [] then hi else hi + 1;
    if s.orelse == [] {
      EmptyBlock(sg, to);
      NoCode(ch, sg, L, to, t);
    } else {
      NonEmptyBlock(s.orelse, sg);
    }
  }

  lemma IfRanges(s: Stmt, sg: Sigs, a: nat, b: nat, hi: nat, to: nat, end: nat)
    requires s.If? && b == a + ExprSize(s.cond, sg) && hi == b + 1 + BlockSize(s.body, sg)
    requires to == if s.orelse == [] then hi else hi + 1
    ensures Ranges(s, sg, a) == RangesIn(s.body, sg, b + 1) + RangesIn(s.orelse, sg, to)
  {
    hide ExprSize, BlockSize, RangesIn;
    if s.orelse == [] {
      EmptyBlock(sg, to);
      EmptyBlock(sg, hi + 1);
    }
  }

  lemma ExecOfIf(k: Ctx, fuel: nat, s: Stmt, lc: R.Loop, st: R.St) returns (r: R.Res<Value>)
    requires s.If? && k.p.host == k.src.host
    ensures r == R.EvalExpr(k.src, fuel, Depth(k), s.cond, st)
    ensures R.ExecStmt(k.src, fuel, Depth(k), s, lc, st) ==
            if r.Stopped? then R.Stopped(r.why)
            else if Truthy(k.p.host, r.value, r.st.world)
            then R.ExecBlock(k.src, fuel, Depth(k), s.body, if s.orelse == [] then lc else R.NotLast(lc), r.st)
            else R.ExecBlock(k.src, fuel, Depth(k), s.orelse, lc, r.st)
  {
    hide R.EvalExpr, R.ExecBlock, Truthy;
    r := R.EvalExpr(k.src, fuel, Depth(k), s.cond, st);
  }

  // ─── require, break and continue ───────────────────────────────────────────

  lemma RequireParts(k: Ctx, s: Stmt, lc: R.Loop, L: seq<Local>, a: nat, t: Targets) returns (b: nat, e: nat)
    requires s.Require? && StmtAt(k, s, lc, L, a, t)
    ensures b == a + ExprSize(s.cond, k.src.sigs) && e == b + 2 + ExprSize(s.otherwise, k.src.sigs)
    ensures b + 2 < e && e + 1 == a + StmtSize(s, k.src.sigs) && Ranges(s, k.src.sigs, a) == [] && After(s, L) == L
    ensures ExprCode(k.ch, k.src.sigs, s.cond, L, a) && ExprCode(k.ch, k.src.sigs, s.otherwise, L, b + 2)
    ensures Has(k.ch, b, OpJumpIfFalse(b + 2)) && Has(k.ch, b + 1, OpJump(e + 1)) && Has(k.ch, e, OpReturn)
  {
    hide ExprCode, ExprSize, Placed;
    SizePositive(s.otherwise, k.src.sigs);
    b := a + ExprSize(s.cond, k.src.sigs);
    e := b + 2 + ExprSize(s.otherwise, k.src.sigs);
  }

  lemma ExecOfRequire(k: Ctx, fuel: nat, s: Stmt, lc: R.Loop, st: R.St) returns (r: R.Res<Value>)
    requires s.Require? && k.p.host == k.src.host
    ensures r == R.EvalExpr(k.src, fuel, Depth(k), s.cond, st)
    ensures R.ExecStmt(k.src, fuel, Depth(k), s, lc, st) ==
            if r.Stopped? then R.Stopped(r.why)
            else if Truthy(k.p.host, r.value, r.st.world) then R.Ok(R.Normal, r.st)
            else Returned(R.EvalExpr(k.src, fuel, Depth(k), s.otherwise, r.st))
  {
    hide R.EvalExpr, Truthy;
    r := R.EvalExpr(k.src, fuel, Depth(k), s.cond, st);
  }

  lemma JumpParts(k: Ctx, fuel: nat, s: Stmt, lc: R.Loop, L: seq<Local>, a: nat, t: Targets, st: R.St)
    requires (s.Break? || s.Continue? || (s.Return? && s.result.None?)) && StmtAt(k, s, lc, L, a, t)
    ensures StmtSize(s, k.src.sigs) == 1 && Ranges(s, k.src.sigs, a) == [] && After(s, L) == L
    ensures s.Return? ==> Has(k.ch, a, OpReturnNull)
    ensures !s.Return? ==> t.Targets? && LoopFits(lc, t, a, a + 1)
    ensures s.Break? ==> Has(k.ch, a, OpJump(t.brk))
    ensures s.Continue? ==> Has(k.ch, a, OpJump(t.cont))
    ensures R.ExecStmt(k.src, fuel, Depth(k), s, lc, st) ==
            if s.Return? then R.Ok(R.Returning(Null), st)
            else if s.Break? then R.Ok(R.Breaking, st)
            else if Counted(lc) then Ticked(R.Tick(st), R.Continuing) else R.Ok(R.Continuing, st)
  {
    hide Placed;
  }

  // ─── while ─────────────────────────────────────────────────────────────────

  lemma WhileParts(k: Ctx, s: Stmt, lc: R.Loop, L: seq<Local>, a: nat, t: Targets) returns (b: nat, e: nat)
    requires s.While? && StmtAt(k, s, lc, L, a, t)
    ensures WhileAt(k, s.cond, s.body, L, a, b, e) && e + 1 == a + StmtSize(s, k.src.sigs)
    ensures Ranges(s, k.src.sigs, a) == RangesIn(s.body, k.src.sigs, b + 1) && After(s, L) == L
  {
    hide ExprCode, ExprSize, StmtsCode, BlockSize, RangesIn;
    var sg := k.src.sigs;
    b := a + ExprSize(s.cond, sg);
    e := b + 1 + BlockSize(s.body, sg);
    RangesBounded(s.body, sg, b + 1);
    PlacedPart(k.ch.ranges, Ranges(s, sg, a), a, e + 1, RangesIn(s.body, sg, b + 1), b + 1, e);
  }

  /** The loop `while cond: body` is compiled at `a`; its test is at `b`, its jump back
    at `e`. */
  ghost predicate WhileAt(k: Ctx, cond: Expr, body: seq<Stmt>, L: seq<Local>, a: nat, b: nat, e: nat) {
    && b == a + ExprSize(cond, k.src.sigs) && e == b + 1 + BlockSize(body, k.src.sigs)
    && ExprCode(k.ch, k.src.sigs, cond, L, a) && Has(k.ch, b, OpJumpIfFalse(e + 1)) && Has(k.ch, e, OpJump(a))
    && StmtsAt(k, body, R.InWhile, L, b + 1, Targets(e + 1, a))
    && (forall x :: x in RangesIn(body, k.src.sigs, b + 1) ==> b + 1 <= x.begin <= x.end <= e)
  }

  /** What the hidden definition of `WhileAt` gives. */
  lemma WhileFacts(k: Ctx, cond: Expr, body: seq<Stmt>, L: seq<Local>, a: nat, b: nat, e: nat)
    requires WhileAt(k, cond, body, L, a, b, e)
    ensures b == a + ExprSize(cond, k.src.sigs) && e == b + 1 + BlockSize(body, k.src.sigs)
    ensures ExprCode(k.ch, k.src.sigs, cond, L, a) && Has(k.ch, b, OpJumpIfFalse(e + 1)) && Has(k.ch, e, OpJump(a))
    ensures StmtsAt(k, body, R.InWhile, L, b + 1, Targets(e + 1, a))
    ensures forall x :: x in RangesIn(body, k.src.sigs, b + 1) ==> b + 1 <= x.begin <= x.end <= e
    ensures Apart(RangesIn(body, k.src.sigs, b + 1), a, b)
  {
    hide ExprCode, ExprSize, StmtsAt, BlockSize, RangesIn;
  }

  lemma ExecOfWhile(k: Ctx, fuel: nat, cond: Expr, body: seq<Stmt>, st: R.St) returns (r: R.Res<Value>)
    requires k.p.host == k.src.host
    ensures r == R.EvalExpr(k.src, fuel, Depth(k), cond, st)
    ensures var x := R.ExecWhile(k.src, fuel, Depth(k), cond, body, st);
            if r.Stopped? || !Truthy(k.p.host, r.value, r.st.world) then x == Discarded(r)
            else
              var r1 := R.ExecBlock(k.src, fuel, Depth(k), body, R.InWhile, r.st);
              if !GoesRound(r1) then x == LeftLoop(r1)
              else if Round(r1).Stopped? then x == R.Stopped(Round(r1).why)
              else if fuel == 0 then x == R.Stopped(R.NoFuel)
              else x == R.ExecWhile(k.src, fuel - 1, Depth(k), cond, body, Round(r1).st)
  {
    hide R.EvalExpr, R.ExecBlock, Truthy, R.Tick;
    r := R.EvalExpr(k.src, fuel, Depth(k), cond, st);
  }

  lemma ExecOfWhileStmt(k: Ctx, fuel: nat, s: Stmt, lc: R.Loop, st: R.St)
    requires s.While?
    ensures R.ExecStmt(k.src, fuel, Depth(k), s, lc, st) == R.ExecWhile(k.src, fuel, Depth(k), s.cond, s.body, st)
  {
    hide R.ExecWhile;
  }

  // ─── for ───────────────────────────────────────────────────────────────────

  /** The loop `s` is compiled with its test at `b`, its body at `b + 8`, the increment
    at `e`. */
  ghost predicate ForAt(k: Ctx, s: Stmt, L: seq<Local>, b: nat, e: nat)
    requires s.For?
  {
    && e == b + 8 + BlockSize(s.body, k.src.sigs) && |L| + 4 <= k.ch.numLocals && !Hidden(s.name)
    && ForTest(k.ch, b, |L|, e + 5) && ForNext(k.ch, e, |L|, b)
    && StmtsAt(k, s.body, R.InFor(true), ForLocals(s, L), b + 8, Targets(e + 5, e))
    && (forall x :: x in RangesIn(s.body, k.src.sigs, b + 8) ==> b + 8 <= x.begin <= x.end <= e)
  }

  lemma ForFacts(k: Ctx, s: Stmt, L: seq<Local>, b: nat, e: nat)
    requires s.For? && ForAt(k, s, L, b, e)
    ensures e == b + 8 + BlockSize(s.body, k.src.sigs) && |L| + 4 <= k.ch.numLocals && !Hidden(s.name)
    ensures ForTest(k.ch, b, |L|, e + 5) && ForNext(k.ch, e, |L|, b)
    ensures Has(k.ch, b + 3, OpJumpIfFalse(e + 5)) && Has(k.ch, e + 4, OpJump(b))
    ensures StmtsAt(k, s.body, R.InFor(true), ForLocals(s, L), b + 8, Targets(e + 5, e))
    ensures forall x :: x in RangesIn(s.body, k.src.sigs, b + 8) ==> b + 8 <= x.begin <= x.end <= e
    ensures Apart(RangesIn(s.body, k.src.sigs, b + 8), b, b + 8)
    ensures L <= ForLocals(s, L)
  {
    hide StmtsAt, BlockSize, RangesIn;
  }

  lemma ForParts(k: Ctx, s: Stmt, lc: R.Loop, L: seq<Local>, a: nat, t: Targets) returns (b: nat, e: nat)
    requires s.For? && StmtAt(k, s, lc, L, a, t)
    ensures b == a + ExprSize(s.iterable, k.src.sigs) && ExprCode(k.ch, k.src.sigs, s.iterable, L, a)
    ensures ForHead(k.ch, b, |L|) && Has(k.ch, b + 3, OpCallNative(k.src.sigs.lenId, 1)) && |L| + 4 <= k.ch.numLocals
    ensures ForAt(k, s, L, b + 7, e) && e + 5 == a + StmtSize(s, k.src.sigs)
    ensures Ranges(s, k.src.sigs, a) == RangesIn(s.body, k.src.sigs, b + 15) && After(s, L) == L
    ensures Apart(RangesIn(s.body, k.src.sigs, b + 15), a, b + 7) && Apart(RangesIn(s.body, k.src.sigs, b + 15), a, b)
    ensures a <= b && b + 15 <= e
  {
    hide ExprCode, ExprSize, ForHead, ForNext, ForTest, StmtsCode, BlockSize, RangesIn;
    var sg := k.src.sigs;
    b := a + ExprSize(s.iterable, sg);
    e := b + 15 + BlockSize(s.body, sg);
    RangesBounded(s.body, sg, b + 15);
    PlacedPart(k.ch.ranges, Ranges(s, sg, a), a, e + 5, RangesIn(s.body, sg, b + 15), b + 15, e);
  }

  lemma ExecOfForStmt(k: Ctx, fuel: nat, s: Stmt, lc: R.Loop, st: R.St) returns (r: R.Res<Value>)
    requires s.For?
    ensures r == R.EvalExpr(k.src, fuel, Depth(k), s.iterable, st)
    ensures var x := R.ExecStmt(k.src, fuel, Depth(k), s, lc, st);
            if r.Stopped? then x == R.Stopped(r.why)
            else
              var r1 := R.Lift(IterList(r.value, r.st.world), r.st);
              x == if r1.Stopped? then R.Stopped(r1.why)
                   else R.ExecFor(k.src, fuel, Depth(k), s.name, s.body, r1.value, 0,
                                  Wrap(|Items(r1.st.world.heap, R.ListAt(r1.value))|), r1.st)
  {
    hide R.EvalExpr, R.ExecFor, IterList, Items;
    r := R.EvalExpr(k.src, fuel, Depth(k), s.iterable, st);
  }

  lemma ExecOfFor(k: Ctx, fuel: nat, name: string, body: seq<Stmt>, l: Value, i: nat, n: int, st: R.St)
    returns (r: R.Res<Value>)
    ensures r == R.Lift(GetIndex(l, Int(i), st.world), st) && (r.Ok? ==> r.st.env == st.env)
    ensures var x := R.ExecFor(k.src, fuel, Depth(k), name, body, l, i, n, st);
            if i >= n then x == R.Ok(R.Normal, st)
            else if r.Stopped? then x == R.Stopped(r.why)
            else
              var r1 := R.Shrink(R.ExecBlock(k.src, fuel, Depth(k), body, R.InFor(true),
                                             r.st.(env := r.st.env + [R.Binding(name, r.value)])), |st.env|);
              if !GoesRound(r1) then x == LeftLoop(r1)
              else if R.Tick(r1.st).Stopped? then x == R.Stopped(R.Tick(r1.st).why)
              else if fuel == 0 then x == R.Stopped(R.NoFuel)
              else x == R.ExecFor(k.src, fuel - 1, Depth(k), name, body, l, i + 1, n, R.Tick(r1.st).st)
  {
    hide R.ExecBlock, GetIndex, R.Tick, R.Shrink;
    r := R.Lift(GetIndex(l, Int(i), st.world), st);
  }

  // ─── try ───────────────────────────────────────────────────────────────────

  lemma TryParts(k: Ctx, s: Stmt, lc: R.Loop, L: seq<Local>, a: nat, t: Targets)
    returns (own: TryRange, rs1: seq<TryRange>, rs2: seq<TryRange>, end: nat)
    requires s.Try? && StmtAt(k, s, lc, L, a, t)
    ensures own == TryRange(a, a + BlockSize(s.body, k.src.sigs), a + BlockSize(s.body, k.src.sigs) + 1)
    ensures rs1 == RangesIn(s.body, k.src.sigs, a) && rs2 == RangesIn(s.orelse, k.src.sigs, own.end + 2)
    ensures end == a + StmtSize(s, k.src.sigs) == own.end + 2 + BlockSize(s.orelse, k.src.sigs)
    ensures Ranges(s, k.src.sigs, a) == rs1 + [own] + rs2 && After(s, L) == L
    ensures StmtsAt(k, s.body, R.NotLast(lc), L, a, t) && Has(k.ch, own.end, OpJump(end))
    ensures StmtsAt(k, s.orelse, lc, CatchLocals(s.name, L), own.end + 2, t)
    ensures Placed(k.ch.ranges, rs1 + [own] + rs2, own.begin, end)
    ensures if s.name == "" then Has(k.ch, own.end + 1, OpPop)
            else !Hidden(s.name) && |L| < k.ch.numLocals && Has(k.ch, own.end + 1, OpStoreLocal(|L|))
    ensures forall x :: x in rs1 ==> own.begin <= x.begin <= x.end <= own.end
    ensures forall x :: x in rs2 ==> own.end + 2 <= x.begin
  {
    hide StmtCode, StmtsCode, BlockSize, RangesIn, Ranges, Placed;
    var sg := k.src.sigs;
    var e := TryCode(k.ch, sg, s, L, a, t);
    own := TryRange(a, e, e + 1);
    rs1, rs2 := RangesIn(s.body, sg, a), RangesIn(s.orelse, sg, e + 2);
    end := a + StmtSize(s, sg);
    RangesBounded(s.body, sg, a);
    RangesBounded(s.orelse, sg, e + 2);
    PlacedPart(k.ch.ranges, rs1 + [own] + rs2, a, end, rs1, a, e);
    PlacedPart(k.ch.ranges, rs1 + [own] + rs2, a, end, rs2, e + 2, end);
  }

  lemma TryCode(ch: Chunk, sg: Sigs, s: Stmt, L: seq<Local>, a: nat, t: Targets) returns (e: nat)
    requires s.Try? && StmtCode(ch, sg, s, L, a, t)
    ensures e == a + BlockSize(s.body, sg) && a + StmtSize(s, sg) == e + 2 + BlockSize(s.orelse, sg)
    ensures StmtsCode(ch, sg, s.body, L, a, t) && Has(ch, e, OpJump(e + 2 + BlockSize(s.orelse, sg)))
    ensures StmtsCode(ch, sg, s.orelse, CatchLocals(s.name, L), e + 2, t)
    ensures if s.name == "" then Has(ch, e + 1, OpPop)
            else !Hidden(s.name) && |L| < ch.numLocals && Has(ch, e + 1, OpStoreLocal(|L|))
    ensures Ranges(s, sg, a) == RangesIn(s.body, sg, a) + [TryRange(a, e, e + 1)] + RangesIn(s.orelse, sg, e + 2)
  {
    hide StmtsCode, BlockSize, RangesIn;
    e := a + BlockSize(s.body, sg);
  }

  lemma ExecOfTry(k: Ctx, fuel: nat, s: Stmt, lc: R.Loop, st: R.St) returns (r: R.Res<R.Signal>)
    requires s.Try?
    ensures r == R.ExecBlock(k.src, fuel, Depth(k), s.body, R.NotLast(lc), st)
    ensures R.ExecStmt(k.src, fuel, Depth(k), s, lc, st) ==
            if r.Stopped? && r.why.Err?
            then R.Shrink(R.ExecStmts(k.src, fuel, Depth(k), s.orelse, lc, Caught(r.why.at, s.name, r.why.error)),
                          |st.env|)
            else r
  {
    hide R.ExecBlock, R.ExecStmts, R.Shrink;
    r := R.ExecBlock(k.src, fuel, Depth(k), s.body, R.NotLast(lc), st);
    if r.Stopped? && r.why.Err? {
      assert Caught(r.why.at, s.name, r.why.error).env
          == r.why.at.env
             + (if s.name == "" then [] else [R.Binding(s.name, ErrorValue(r.why.error, r.why.at.world).0)]);
    }
  }

  // ─── Declarations ──────────────────────────────────────────────────────────

  lemma DeclParts(k: Ctx, decl: Decl) returns (gs: seq<Stmt>, L: seq<Local>, b: nat, end: nat)
    requires DeclCode(k.ch, k.src.sigs, decl)
    ensures gs == R.GuardStmts(decl.guards) && L == ParamLocals(decl.params) && AfterAll(gs, L) == L
    ensures b == BlockSize(gs, k.src.sigs) && end == b + BlockSize(decl.body, k.src.sigs)
    ensures StmtsAt(k, gs, R.NoLoop, L, 0, NoTargets) && StmtsAt(k, decl.body, R.NoLoop, L, b, NoTargets)
    ensures Has(k.ch, end, OpReturnNull) && RangesIn(gs, k.src.sigs, 0) == []
    ensures k.ch.ranges == RangesIn(decl.body, k.src.sigs, b)
    ensures forall x :: x in k.ch.ranges ==> b <= x.begin
  {
    hide StmtsCode, BlockSize, RangesIn, ParamLocals, R.GuardStmts;
    var sg := k.src.sigs;
    gs, L := R.GuardStmts(decl.guards), ParamLocals(decl.params);
    b := BlockSize(gs, sg);
    end := b + BlockSize(decl.body, sg);
    StmtParts.GuardsHaveNoRanges(decl.guards, sg, 0);
    StmtParts.GuardsDeclareNothing(decl.guards, L);
    RangesBounded(decl.body, sg, b);
  }

  lemma ExecOfDecl(k: Ctx, fuel: nat, decl: Decl, st: R.St) returns (r: R.Res<R.Signal>)
    ensures r == R.ExecStmts(k.src, fuel, Depth(k), R.GuardStmts(decl.guards), R.NoLoop, st)
    ensures R.RunDecl(k.src, fuel, Depth(k), decl, st) ==
            if r.Stopped? then R.Stopped(r.why)
            else if r.value.Returning? then R.Ok(r.value.value, r.st)
            else
              var r1 := R.ExecBlock(k.src, fuel, Depth(k), decl.body, R.NoLoop, r.st);
              if r1.Stopped? then R.Stopped(r1.why)
              else R.Ok(if r1.value.Returning? then r1.value.value else Null, r1.st)
  {
    hide R.ExecStmts, R.ExecBlock;
    r := R.ExecStmts(k.src, fuel, Depth(k), R.GuardStmts(decl.guards), R.NoLoop, st);
  }
}
