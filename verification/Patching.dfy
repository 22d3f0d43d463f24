/** Filling in the open jumps of a statement: what was its code with one pair of
  targets becomes its code with the right one, and nothing else changes. */
module Patching {
  import opened Wrappers
  import opened Values
  import opened Ast
  import opened Bytecode
  import opened Layout
  import opened Acceptance
  import opened Stability
  import opened StmtParts
  import R = Reference

  // ─── Chunks before and after ───────────────────────────────────────────────

  function FilledIn(op: Instr, i: nat, brks: seq<nat>, conts: seq<nat>, t: Targets): Instr {
    if t.Targets? && i in brks then OpJump(t.brk)
    else if t.Targets? && i in conts then OpJump(t.cont)
    else op
  }

  /** In [lo, hi), `ch1` is `ch` with the jumps at `brks` and `conts` filled in. */
  predicate Filled(ch: Chunk, ch1: Chunk, lo: nat, hi: nat, brks: seq<nat>, conts: seq<nat>, t: Targets) {
    && ch.constants <= ch1.constants && ch.numLocals <= ch1.numLocals && |ch.code| <= |ch1.code|
    && forall i :: lo <= i < hi && i < |ch.code| ==> ch1.code[i] == FilledIn(ch.code[i], i, brks, conts, t)
  }

  /** In [x, y), the addresses of `js` are those of `open`. */
  predicate Agree(js: seq<nat>, open: seq<nat>, x: nat, y: nat) {
    forall i: nat :: x <= i < y ==> (i in js <==> i in open)
  }

  predicate Between(js: seq<nat>, x: nat, y: nat) {
    forall i: nat :: i in js ==> x <= i < y
  }

  /** None of the addresses is in [x, y). */
  predicate Free(brks: seq<nat>, conts: seq<nat>, x: nat, y: nat) {
    Agree(brks, [], x, y) && Agree(conts, [], x, y)
  }

  /** Around `s`, the addresses are none and the targets stay, or the addresses are
    those of the open jumps of `s`. */
  predicate Opens(s: Stmt, sg: Sigs, a: nat, brks: seq<nat>, conts: seq<nat>, t: Targets, t1: Targets) {
    var end := a + StmtSize(s, sg);
    || (t == t1 && Free(brks, conts, a, end))
    || (t.Targets? && t1.Targets?
        && Agree(brks, OpenJumps(true, s, sg, a), a, end) && Agree(conts, OpenJumps(false, s, sg, a), a, end))
  }

  predicate OpensIn(ss: seq<Stmt>, sg: Sigs, a: nat, brks: seq<nat>, conts: seq<nat>, t: Targets, t1: Targets) {
    var end := a + BlockSize(ss, sg);
    || (t == t1 && Free(brks, conts, a, end))
    || (t.Targets? && t1.Targets?
        && Agree(brks, OpenJumpsIn(true, ss, sg, a), a, end) && Agree(conts, OpenJumpsIn(false, ss, sg, a), a, end))
  }

  lemma FilledKeeps(ch: Chunk, ch1: Chunk, lo: nat, hi: nat, brks: seq<nat>, conts: seq<nat>, t: Targets, x: nat,
                    y: nat)
    requires Filled(ch, ch1, lo, hi, brks, conts, t) && lo <= x && y <= hi && Free(brks, conts, x, y)
    ensures Kept(ch, ch1, x, y)
  {
  }

  // ─── Where the open jumps of the parts are ─────────────────────────────────

  predicate Closed(s: Stmt) { !s.If? && !s.Try? && !s.Break? && !s.Continue? }

  lemma ClosedIsFree(s: Stmt, sg: Sigs, a: nat, brks: seq<nat>, conts: seq<nat>, t: Targets, t1: Targets)
    requires Closed(s) && Opens(s, sg, a, brks, conts, t, t1)
    ensures Free(brks, conts, a, a + StmtSize(s, sg))
  {
    hide StmtSize, Agree;
  }

  lemma FreeIsOpens(ss: seq<Stmt>, sg: Sigs, a: nat, brks: seq<nat>, conts: seq<nat>, t: Targets, lo: nat, hi: nat)
    requires Free(brks, conts, lo, hi) && lo <= a && a + BlockSize(ss, sg) <= hi
    ensures OpensIn(ss, sg, a, brks, conts, t, t)
  {
    hide BlockSize;
  }

  /** Splits what is known of [x, y) at the parts [x1, y1) and [x2, y2) where the
    addresses of `l` and of `r` are. */
  lemma AgreeParts(js: seq<nat>, l: seq<nat>, r: seq<nat>, x: nat, y: nat, x1: nat, y1: nat, x2: nat, y2: nat)
    requires Agree(js, l + r, x, y) && Between(l, x1, y1) && Between(r, x2, y2) && x <= x1 <= y1 <= x2 <= y2 <= y
    ensures Agree(js, [], x, x1) && Agree(js, l, x1, y1) && Agree(js, [], y1, x2) && Agree(js, r, x2, y2)
  {
  }

  lemma OpenBetween(brk: bool, ss: seq<Stmt>, sg: Sigs, a: nat)
    ensures Between(OpenJumpsIn(brk, ss, sg, a), a, a + BlockSize(ss, sg))
  {
    hide OpenJumpsIn, BlockSize;
    forall i: nat | i in OpenJumpsIn(brk, ss, sg, a)
      ensures a <= i < a + BlockSize(ss, sg)
    {
      OpenJumpsInsideBlock(brk, ss, sg, a, i);
    }
  }

  lemma AgreeIf(brk: bool, js: seq<nat>, s: Stmt, sg: Sigs, a: nat, b: nat, e: nat, end: nat)
    requires s.If? && b == a + ExprSize(s.cond, sg) && e == b + 1 + BlockSize(s.body, sg)
    requires end == a + StmtSize(s, sg) && Agree(js, OpenJumps(brk, s, sg, a), a, end)
    ensures Agree(js, [], a, b + 1) && Agree(js, OpenJumpsIn(brk, s.body, sg, b + 1), b + 1, e)
    ensures s.orelse != [] ==>
              end == e + 1 + BlockSize(s.orelse, sg)
              && Agree(js, [], e, e + 1) && Agree(js, OpenJumpsIn(brk, s.orelse, sg, e + 1), e + 1, end)
  {
    hide ExprSize, OpenJumpsIn, BlockSize, Agree, Between;
    IfSize(s, sg);
    var l, r := OpenJumpsIn(brk, s.body, sg, b + 1), OpenJumpsIn(brk, s.orelse, sg, e + 1);
    OpenBetween(brk, s.body, sg, b + 1);
    if s.orelse == [] {
      EmptyOpens(brk, sg, e + 1);
      assert l + [] == l;
      BetweenNone(e);
      AgreeParts(js, l, [], a, end, b + 1, e, e, e);
    } else {
      OpenBetween(brk, s.orelse, sg, e + 1);
      AgreeParts(js, l, r, a, end, b + 1, e, e + 1, end);
    }
  }

  lemma BetweenNone(x: nat)
    ensures Between([], x, x)
  {
  }

  lemma EmptyOpens(brk: bool, sg: Sigs, a: nat)
    ensures OpenJumpsIn(brk, [], sg, a) == []
  {
  }

  lemma IfSize(s: Stmt, sg: Sigs)
    requires s.If?
    ensures StmtSize(s, sg) == ExprSize(s.cond, sg) + 1 + BlockSize(s.body, sg)
                               + (if s.orelse == [] then 0 else 1 + BlockSize(s.orelse, sg))
  {
    hide ExprSize;
  }

  lemma OpensIf(s: Stmt, sg: Sigs, a: nat, brks: seq<nat>, conts: seq<nat>, t: Targets, t1: Targets, b: nat, e: nat)
    requires s.If? && Opens(s, sg, a, brks, conts, t, t1)
    requires b == a + ExprSize(s.cond, sg) && e == b + 1 + BlockSize(s.body, sg)
    ensures Free(brks, conts, a, b + 1) && OpensIn(s.body, sg, b + 1, brks, conts, t, t1)
    ensures s.orelse != [] ==> Free(brks, conts, e, e + 1) && OpensIn(s.orelse, sg, e + 1, brks, conts, t, t1)
  {
    hide ExprSize, OpenJumpsIn, BlockSize, StmtSize, OpenJumps;
    IfSize(s, sg);
    var end := a + StmtSize(s, sg);
    if !(t == t1 && Free(brks, conts, a, end)) {
      hide Agree;
      AgreeIf(true, brks, s, sg, a, b, e, end);
      AgreeIf(false, conts, s, sg, a, b, e, end);
    }
  }

  lemma AgreeTry(brk: bool, js: seq<nat>, s: Stmt, sg: Sigs, a: nat, e: nat, end: nat)
    requires s.Try? && e == a + BlockSize(s.body, sg)
    requires end == a + StmtSize(s, sg) && Agree(js, OpenJumps(brk, s, sg, a), a, end)
    ensures end == e + 2 + BlockSize(s.orelse, sg)
    ensures Agree(js, OpenJumpsIn(brk, s.body, sg, a), a, e) && Agree(js, [], e, e + 2)
    ensures Agree(js, OpenJumpsIn(brk, s.orelse, sg, e + 2), e + 2, end)
  {
    hide OpenJumpsIn, BlockSize, Agree, Between;
    OpenBetween(brk, s.body, sg, a);
    OpenBetween(brk, s.orelse, sg, e + 2);
    AgreeParts(js, OpenJumpsIn(brk, s.body, sg, a), OpenJumpsIn(brk, s.orelse, sg, e + 2), a, end, a, e, e + 2, end);
  }

  lemma TrySize(s: Stmt, sg: Sigs)
    requires s.Try?
    ensures StmtSize(s, sg) == BlockSize(s.body, sg) + 2 + BlockSize(s.orelse, sg)
  {
  }

  lemma OpensTry(s: Stmt, sg: Sigs, a: nat, brks: seq<nat>, conts: seq<nat>, t: Targets, t1: Targets, e: nat)
    requires s.Try? && Opens(s, sg, a, brks, conts, t, t1) && e == a + BlockSize(s.body, sg)
    ensures Free(brks, conts, e, e + 2)
    ensures OpensIn(s.body, sg, a, brks, conts, t, t1) && OpensIn(s.orelse, sg, e + 2, brks, conts, t, t1)
  {
    hide OpenJumpsIn, BlockSize, StmtSize, OpenJumps;
    TrySize(s, sg);
    var end := a + StmtSize(s, sg);
    if !(t == t1 && Free(brks, conts, a, end)) {
      hide Agree;
      AgreeTry(true, brks, s, sg, a, e, end);
      AgreeTry(false, conts, s, sg, a, e, end);
    }
  }

  lemma AgreeBlock(brk: bool, js: seq<nat>, ss: seq<Stmt>, sg: Sigs, a: nat, b: nat, end: nat)
    requires ss != [] && b == a + StmtSize(ss[0], sg)
    requires end == a + BlockSize(ss, sg) && Agree(js, OpenJumpsIn(brk, ss, sg, a), a, end)
    ensures end == b + BlockSize(ss[1..], sg)
    ensures Agree(js, OpenJumps(brk, ss[0], sg, a), a, b) && Agree(js, OpenJumpsIn(brk, ss[1..], sg, b), b, end)
  {
    hide OpenJumps, StmtSize, Agree, Between;
    OneOpenBetween(brk, ss[0], sg, a);
    OpenBetween(brk, ss[1..], sg, b);
    AgreeParts(js, OpenJumps(brk, ss[0], sg, a), OpenJumpsIn(brk, ss[1..], sg, b), a, end, a, b, b, end);
  }

  lemma OneOpenBetween(brk: bool, s: Stmt, sg: Sigs, a: nat)
    ensures Between(OpenJumps(brk, s, sg, a), a, a + StmtSize(s, sg))
  {
    hide OpenJumps, StmtSize;
    forall i: nat | i in OpenJumps(brk, s, sg, a)
      ensures a <= i < a + StmtSize(s, sg)
    {
      OpenJumpsInside(brk, s, sg, a, i);
    }
  }

  lemma OpensBlock(ss: seq<Stmt>, sg: Sigs, a: nat, brks: seq<nat>, conts: seq<nat>, t: Targets, t1: Targets, b: nat)
    requires ss != [] && OpensIn(ss, sg, a, brks, conts, t, t1) && b == a + StmtSize(ss[0], sg)
    ensures b + BlockSize(ss[1..], sg) == a + BlockSize(ss, sg)
    ensures Opens(ss[0], sg, a, brks, conts, t, t1) && OpensIn(ss[1..], sg, b, brks, conts, t, t1)
  {
    hide OpenJumpsIn, StmtSize, OpenJumps;
    var end := a + BlockSize(ss, sg);
    if !(t == t1 && Free(brks, conts, a, end)) {
      hide Agree;
      AgreeBlock(true, brks, ss, sg, a, b, end);
      AgreeBlock(false, conts, ss, sg, a, b, end);
    }
  }

  // ─── Code with its jumps filled in ─────────────────────────────────────────

  lemma {:induction false} StmtFilled(ch: Chunk, ch1: Chunk, lo: nat, hi: nat, brks: seq<nat>, conts: seq<nat>,
                                      sg: Sigs, s: Stmt, L: seq<Local>, a: nat, t: Targets, t1: Targets)
    requires StmtCode(ch, sg, s, L, a, t) && Filled(ch, ch1, lo, hi, brks, conts, t1)
    requires lo <= a && a + StmtSize(s, sg) <= hi && Opens(s, sg, a, brks, conts, t, t1)
    ensures StmtCode(ch1, sg, s, L, a, t1)
    decreases s, 0
  {
    hide *;
    if s.If? {
      IfFilled(ch, ch1, lo, hi, brks, conts, sg, s, L, a, t, t1);
    } else if s.Try? {
      TryFilled(ch, ch1, lo, hi, brks, conts, sg, s, L, a, t, t1);
    } else if s.Break? || s.Continue? {
      JumpFilled(ch, ch1, lo, hi, brks, conts, sg, s, L, a, t, t1);
    } else {
      IsClosed(s);
      ClosedIsFree(s, sg, a, brks, conts, t, t1);
      if s.While? {
        WhileFilled(ch, ch1, lo, hi, brks, conts, sg, s, L, a, t, t1);
      } else if s.For? {
        ForFilled(ch, ch1, lo, hi, brks, conts, sg, s, L, a, t, t1);
      } else {
        var end := a + StmtSize(s, sg);
        FilledKeeps(ch, ch1, lo, hi, brks, conts, t1, a, end);
        LeafStable(ch, ch1, a, end, sg, s, L, a, t, t1);
      }
    }
  }

  lemma IsClosed(s: Stmt)
    requires !s.If? && !s.Try? && !s.Break? && !s.Continue?
    ensures Closed(s)
  {
  }

  lemma {:induction false} BlockFilled(ch: Chunk, ch1: Chunk, lo: nat, hi: nat, brks: seq<nat>, conts: seq<nat>,
                                       sg: Sigs, ss: seq<Stmt>, L: seq<Local>, a: nat, t: Targets, t1: Targets)
    requires StmtsCode(ch, sg, ss, L, a, t) && Filled(ch, ch1, lo, hi, brks, conts, t1)
    requires lo <= a && a + BlockSize(ss, sg) <= hi && OpensIn(ss, sg, a, brks, conts, t, t1)
    ensures StmtsCode(ch1, sg, ss, L, a, t1)
    decreases ss, 1
  {
    hide *;
    if ss == [] {
      EmptyCode(ch1, sg, L, a, t1);
    } else {
      var b := a + StmtSize(ss[0], sg);
      BlockIs(ch, sg, ss, L, a, t, b);
      BlockIs(ch1, sg, ss, L, a, t1, b);
      OpensBlock(ss, sg, a, brks, conts, t, t1, b);
      StmtFilled(ch, ch1, lo, hi, brks, conts, sg, ss[0], L, a, t, t1);
      BlockFilled(ch, ch1, lo, hi, brks, conts, sg, ss[1..], After(ss[0], L), b, t, t1);
    }
  }

  lemma EmptyCode(ch: Chunk, sg: Sigs, L: seq<Local>, a: nat, t: Targets)
    ensures StmtsCode(ch, sg, [], L, a, t)
  {
  }

  /** A statement without statements inside, and without open jumps. */
  lemma LeafStable(ch: Chunk, ch1: Chunk, lo: nat, hi: nat, sg: Sigs, s: Stmt, L: seq<Local>, a: nat, t: Targets,
                   t1: Targets)
    requires s.Return? || s.ExprStmt? || s.VarDecl? || s.Assign? || s.Require?
    requires StmtCode(ch, sg, s, L, a, t) && Kept(ch, ch1, lo, hi) && lo <= a && a + StmtSize(s, sg) <= hi
    ensures StmtCode(ch1, sg, s, L, a, t1)
  {
    hide *;
    SimpleKinds(s);
    if IsSimple(s) {
      var b := a + ExprSize(SimpleExpr(s), sg);
      SimpleIs(ch, sg, s, L, a, t, b);
      SimpleIs(ch1, sg, s, L, a, t1, b);
      ExprStable(ch, ch1, lo, hi, sg, SimpleExpr(s), L, a);
      SimpleEndKept(ch, ch1, lo, hi, s, L, b);
    } else if s.Return? {
      JumpIs(ch, sg, s, L, a, t);
      JumpIs(ch1, sg, s, L, a, t1);
      HasKept(ch, ch1, lo, hi, a, OpReturnNull);
    } else if s.Assign? {
      var es := R.AssignOperands(s.target, s.value);
      var b := a + ListSize(es, sg);
      EffectIs(ch, sg, s, L, a, t, es, b);
      EffectIs(ch1, sg, s, L, a, t1, es, b);
      ListStable(ch, ch1, lo, hi, sg, es, L, a);
      EffectEndKept(ch, ch1, lo, hi, s.target, b);
    } else {
      var b := a + ExprSize(s.cond, sg);
      var e := b + 2 + ExprSize(s.otherwise, sg);
      RequireIs(ch, sg, s, L, a, t, b, e);
      RequireIs(ch1, sg, s, L, a, t1, b, e);
      ExprStable(ch, ch1, lo, hi, sg, s.cond, L, a);
      ExprStable(ch, ch1, lo, hi, sg, s.otherwise, L, b + 2);
      HasKept(ch, ch1, lo, hi, b, OpJumpIfFalse(b + 2));
      HasKept(ch, ch1, lo, hi, b + 1, OpJump(e + 1));
      HasKept(ch, ch1, lo, hi, e, OpReturn);
    }
  }

  lemma SimpleKinds(s: Stmt)
    ensures s.ExprStmt? || s.VarDecl? ==> IsSimple(s)
    ensures s.Return? && s.result.Some? ==> IsSimple(s)
    ensures s.Assign? && s.target.Ident? ==> IsSimple(s)
    ensures IsSimple(s) ==> s.ExprStmt? || s.VarDecl? || (s.Return? && s.result.Some?) || (s.Assign? && s.target.Ident?)
  {
  }

  lemma SimpleEndKept(ch: Chunk, ch1: Chunk, lo: nat, hi: nat, s: Stmt, L: seq<Local>, b: nat)
    requires IsSimple(s) && SimpleEnd(ch, s, L, b) && Kept(ch, ch1, lo, hi) && lo <= b < hi
    ensures SimpleEnd(ch1, s, L, b)
  {
    hide Hidden, ResolveLocal;
  }

  lemma EffectEndKept(ch: Chunk, ch1: Chunk, lo: nat, hi: nat, t: Expr, b: nat)
    requires EffectEnd(ch, t, b) && Kept(ch, ch1, lo, hi) && lo <= b && b + 2 <= hi
    ensures EffectEnd(ch1, t, b)
  {
  }

  lemma JumpFilled(ch: Chunk, ch1: Chunk, lo: nat, hi: nat, brks: seq<nat>, conts: seq<nat>, sg: Sigs, s: Stmt,
                   L: seq<Local>, a: nat, t: Targets, t1: Targets)
    requires s.Break? || s.Continue?
    requires StmtCode(ch, sg, s, L, a, t) && Filled(ch, ch1, lo, hi, brks, conts, t1)
    requires lo <= a && a + StmtSize(s, sg) <= hi && Opens(s, sg, a, brks, conts, t, t1)
    ensures StmtCode(ch1, sg, s, L, a, t1)
  {
    assert StmtSize(s, sg) == 1;
    assert t == t1 || OpenJumps(true, s, sg, a) == if s.Break? then [a] else [];
    assert t == t1 || OpenJumps(false, s, sg, a) == if s.Break? then [] else [a];
  }

  lemma {:induction false} IfFilled(ch: Chunk, ch1: Chunk, lo: nat, hi: nat, brks: seq<nat>, conts: seq<nat>, sg: Sigs,
                                    s: Stmt, L: seq<Local>, a: nat, t: Targets, t1: Targets)
    requires s.If? && StmtCode(ch, sg, s, L, a, t) && Filled(ch, ch1, lo, hi, brks, conts, t1)
    requires lo <= a && a + StmtSize(s, sg) <= hi && Opens(s, sg, a, brks, conts, t, t1)
    ensures StmtCode(ch1, sg, s, L, a, t1)
    decreases s, -1
  {
    hide *;
    var b := a + ExprSize(s.cond, sg);
    var e := b + 1 + BlockSize(s.body, sg);
    var end := if s.orelse == [] then e else e + 1 + BlockSize(s.orelse, sg);
    IfIs(ch, sg, s, L, a, t, b, e, end);
    IfIs(ch1, sg, s, L, a, t1, b, e, end);
    OpensIf(s, sg, a, brks, conts, t, t1, b, e);
    FilledKeeps(ch, ch1, lo, hi, brks, conts, t1, a, b + 1);
    ExprStable(ch, ch1, a, b + 1, sg, s.cond, L, a);
    HasKept(ch, ch1, a, b + 1, b, OpJumpIfFalse(if s.orelse == [] then e else e + 1));
    BlockFilled(ch, ch1, lo, hi, brks, conts, sg, s.body, L, b + 1, t, t1);
    if s.orelse != [] {
      FilledKeeps(ch, ch1, lo, hi, brks, conts, t1, e, e + 1);
      HasKept(ch, ch1, e, e + 1, e, OpJump(end));
      BlockFilled(ch, ch1, lo, hi, brks, conts, sg, s.orelse, L, e + 1, t, t1);
    }
  }

  lemma {:induction false} TryFilled(ch: Chunk, ch1: Chunk, lo: nat, hi: nat, brks: seq<nat>, conts: seq<nat>, sg: Sigs,
                                     s: Stmt, L: seq<Local>, a: nat, t: Targets, t1: Targets)
    requires s.Try? && StmtCode(ch, sg, s, L, a, t) && Filled(ch, ch1, lo, hi, brks, conts, t1)
    requires lo <= a && a + StmtSize(s, sg) <= hi && Opens(s, sg, a, brks, conts, t, t1)
    ensures StmtCode(ch1, sg, s, L, a, t1)
    decreases s, -1
  {
    hide *;
    var e := a + BlockSize(s.body, sg);
    var end := e + 2 + BlockSize(s.orelse, sg);
    TryIs(ch, sg, s, L, a, t, e, end);
    TryIs(ch1, sg, s, L, a, t1, e, end);
    OpensTry(s, sg, a, brks, conts, t, t1, e);
    BlockFilled(ch, ch1, lo, hi, brks, conts, sg, s.body, L, a, t, t1);
    FilledKeeps(ch, ch1, lo, hi, brks, conts, t1, e, e + 2);
    HasKept(ch, ch1, e, e + 2, e, OpJump(end));
    CatchStartKept(ch, ch1, e, e + 2, s.name, |L|, e + 1);
    BlockFilled(ch, ch1, lo, hi, brks, conts, sg, s.orelse, CatchLocals(s.name, L), e + 2, t, t1);
  }

  lemma CatchStartKept(ch: Chunk, ch1: Chunk, lo: nat, hi: nat, name: string, n: nat, e: nat)
    requires CatchStart(ch, name, n, e) && Kept(ch, ch1, lo, hi) && lo <= e < hi
    ensures CatchStart(ch1, name, n, e)
  {
    hide Hidden;
  }

  lemma {:induction false} WhileFilled(ch: Chunk, ch1: Chunk, lo: nat, hi: nat, brks: seq<nat>, conts: seq<nat>,
                                       sg: Sigs, s: Stmt, L: seq<Local>, a: nat, t: Targets, t1: Targets)
    requires s.While? && StmtCode(ch, sg, s, L, a, t) && Filled(ch, ch1, lo, hi, brks, conts, t1)
    requires lo <= a && a + StmtSize(s, sg) <= hi && Free(brks, conts, a, a + StmtSize(s, sg))
    ensures StmtCode(ch1, sg, s, L, a, t1)
    decreases s, -1
  {
    hide *;
    var b := a + ExprSize(s.cond, sg);
    var e := b + 1 + BlockSize(s.body, sg);
    var own := Targets(e + 1, a);
    WhileIs(ch, sg, s, L, a, t, b, e);
    WhileIs(ch1, sg, s, L, a, t1, b, e);
    FilledKeeps(ch, ch1, lo, hi, brks, conts, t1, a, e + 1);
    ExprStable(ch, ch1, a, e + 1, sg, s.cond, L, a);
    HasKept(ch, ch1, a, e + 1, b, OpJumpIfFalse(e + 1));
    HasKept(ch, ch1, a, e + 1, e, OpJump(a));
    BlockStable(ch, ch1, a, e + 1, sg, s.body, L, b + 1, own);
  }

  lemma {:induction false} ForFilled(ch: Chunk, ch1: Chunk, lo: nat, hi: nat, brks: seq<nat>, conts: seq<nat>, sg: Sigs,
                                     s: Stmt, L: seq<Local>, a: nat, t: Targets, t1: Targets)
    requires s.For? && StmtCode(ch, sg, s, L, a, t) && Filled(ch, ch1, lo, hi, brks, conts, t1)
    requires lo <= a && a + StmtSize(s, sg) <= hi && Free(brks, conts, a, a + StmtSize(s, sg))
    ensures StmtCode(ch1, sg, s, L, a, t1)
    decreases s, -1
  {
    hide *;
    var b := a + ExprSize(s.iterable, sg);
    var e := b + 15 + BlockSize(s.body, sg);
    ForIs(ch, sg, s, L, a, t, b, e);
    ForIs(ch1, sg, s, L, a, t1, b, e);
    FilledKeeps(ch, ch1, lo, hi, brks, conts, t1, a, e + 5);
    ExprStable(ch, ch1, a, e + 5, sg, s.iterable, L, a);
    ForHeadKept(ch, ch1, a, e + 5, b, |L|, sg);
    ForTestKept(ch, ch1, a, e + 5, b + 7, |L|, e + 5);
    BlockStable(ch, ch1, a, e + 5, sg, s.body, ForLocals(s, L), b + 15, Targets(e + 5, e));
    ForNextKept(ch, ch1, a, e + 5, e, |L|, b + 7);
    SlotsKept(ch, ch1, a, e + 5);
  }

  lemma SlotsKept(ch: Chunk, ch1: Chunk, lo: nat, hi: nat)
    requires Kept(ch, ch1, lo, hi)
    ensures ch.numLocals <= ch1.numLocals
  {
  }

  lemma ForHeadKept(ch: Chunk, ch1: Chunk, lo: nat, hi: nat, b: nat, n: nat, sg: Sigs)
    requires ForHead(ch, b, n) && HasLen(ch, b + 3, sg) && Kept(ch, ch1, lo, hi) && lo <= b && b + 7 <= hi
    ensures ForHead(ch1, b, n) && HasLen(ch1, b + 3, sg)
  {
  }

  lemma ForTestKept(ch: Chunk, ch1: Chunk, lo: nat, hi: nat, b: nat, n: nat, end: nat)
    requires ForTest(ch, b, n, end) && Kept(ch, ch1, lo, hi) && lo <= b && b + 8 <= hi
    ensures ForTest(ch1, b, n, end)
  {
  }

  lemma ForNextKept(ch: Chunk, ch1: Chunk, lo: nat, hi: nat, b: nat, n: nat, start: nat)
    requires ForNext(ch, b, n, start) && Kept(ch, ch1, lo, hi) && lo <= b && b + 5 <= hi
    ensures ForNext(ch1, b, n, start)
  {
  }

  /** Code that is kept, targets and all. */
  lemma {:induction false} BlockStable(ch: Chunk, ch1: Chunk, lo: nat, hi: nat, sg: Sigs, ss: seq<Stmt>, L: seq<Local>,
                                       a: nat, t: Targets)
    requires StmtsCode(ch, sg, ss, L, a, t) && Kept(ch, ch1, lo, hi) && lo <= a && a + BlockSize(ss, sg) <= hi
    ensures StmtsCode(ch1, sg, ss, L, a, t)
    decreases ss, 2
  {
    hide *;
    KeptIsFilled(ch, ch1, lo, hi, t);
    FreeIsOpens(ss, sg, a, [], [], t, lo, hi);
    BlockFilled(ch, ch1, lo, hi, [], [], sg, ss, L, a, t, t);
  }

  lemma KeptIsFilled(ch: Chunk, ch1: Chunk, lo: nat, hi: nat, t: Targets)
    requires Kept(ch, ch1, lo, hi)
    ensures Filled(ch, ch1, lo, hi, [], [], t) && Free([], [], lo, hi)
  {
  }
}
