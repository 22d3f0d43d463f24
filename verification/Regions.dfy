/** The regions of compiled code: where statements start, and how the ranges of `try`
  lie inside each other. */
module Regions {
  import opened Wrappers
  import opened Values
  import opened Ast
  import opened Bytecode
  import opened Machine
  import opened Layout
  import opened Composition
  import opened Heights
  import opened Flowing
  import opened Discipline
  import StmtUnfolding
  import R = Reference

  // ─── Where statements start ────────────────────────────────────────────────

  /** The addresses where a statement, or one inside it, starts. */
  function StmtStarts(s: Stmt, sg: Sigs, a: nat): set<nat>
    decreases s, 0
  {
    {a} +
    match s
    case If(c, body, orelse) =>
      var b := a + ExprSize(c, sg) + 1;
      StartsIn(body, sg, b) + (if orelse == [] then {} else StartsIn(orelse, sg, b + BlockSize(body, sg) + 1))
    case While(c, body) => StartsIn(body, sg, a + ExprSize(c, sg) + 1)
    case For(_, _, it, body) => StartsIn(body, sg, a + ExprSize(it, sg) + 15)
    case Try(body, _, orelse) => StartsIn(body, sg, a) + StartsIn(orelse, sg, a + BlockSize(body, sg) + 2)
    case _ => {}
  }

  function StartsIn(ss: seq<Stmt>, sg: Sigs, a: nat): set<nat>
    decreases ss, 1
  {
    if ss == [] then {} else StmtStarts(ss[0], sg, a) + StartsIn(ss[1..], sg, a + StmtSize(ss[0], sg))
  }

  lemma {:induction false} StmtStartsLevel(s: Stmt, sg: Sigs, H: seq<nat>, a: nat, pc: nat)
    requires HasPart(H, a, StmtHeights(s, sg)) && pc in StmtStarts(s, sg, a)
    ensures pc < |H| && H[pc] == 0
    decreases s, 0
  {
    hide HasPart, StmtHeights, ExprSize, BlockSize, StartsIn;
    if pc == a {
      StmtHeightsSize(s, sg);
      PartAt(H, a, StmtHeights(s, sg), 0);
    } else {
      match s
      case If(c, body, orelse) =>
        InnersHold(s, sg, H, a, 0);
        if pc in StartsIn(body, sg, a + ExprSize(c, sg) + 1) {
          StartsLevel(body, sg, H, a + ExprSize(c, sg) + 1, pc);
        } else {
          InnersHold(s, sg, H, a, 1);
          StartsLevel(orelse, sg, H, a + ExprSize(c, sg) + 1 + BlockSize(body, sg) + 1, pc);
        }
      case While(c, body) =>
        InnersHold(s, sg, H, a, 0);
        StartsLevel(body, sg, H, a + ExprSize(c, sg) + 1, pc);
      case For(_, _, it, body) =>
        InnersHold(s, sg, H, a, 0);
        StartsLevel(body, sg, H, a + ExprSize(it, sg) + 15, pc);
      case Try(body, _, orelse) =>
        InnersHold(s, sg, H, a, 0);
        InnersHold(s, sg, H, a, 1);
        if pc in StartsIn(body, sg, a) {
          StartsLevel(body, sg, H, a, pc);
        } else {
          StartsLevel(orelse, sg, H, a + BlockSize(body, sg) + 2, pc);
        }
      case _ =>
    }
  }

  lemma {:induction false} StartsLevel(ss: seq<Stmt>, sg: Sigs, H: seq<nat>, a: nat, pc: nat)
    requires HasPart(H, a, BlockHeights(ss, sg)) && pc in StartsIn(ss, sg, a)
    ensures pc < |H| && H[pc] == 0
    decreases ss, 1
  {
    hide StmtHeights, StmtSize, HasPart, StmtStarts;
    BlockHeightsParts(ss, sg);
    StmtHeightsSize(ss[0], sg);
    PartsOfPart(H, a, StmtHeights(ss[0], sg), BlockHeights(ss[1..], sg));
    if pc in StmtStarts(ss[0], sg, a) {
      StmtStartsLevel(ss[0], sg, H, a, pc);
    } else {
      StartsLevel(ss[1..], sg, H, a + StmtSize(ss[0], sg), pc);
    }
  }

  function DeclStarts(decl: Decl, sg: Sigs): set<nat> {
    StartsIn(R.GuardStmts(decl.guards), sg, 0)
    + StartsIn(decl.body, sg, BlockSize(R.GuardStmts(decl.guards), sg))
  }

  /** Whenever a statement starts, the running frame has no operand: that is why an error
    can clear the stack without knowing how deep it is. */
  lemma StatementsStartEmpty(src: R.Source, s: State, ds: seq<Decl>)
    requires Disciplined(src, s, ds) && s.top.pc in DeclStarts(ds[|ds| - 1], src.sigs)
    ensures |s.stack| == s.top.stackBase
  {
    hide *;
    TopFrame(src, s, ds);
    var sg, d := src.sigs, ds[|ds| - 1];
    var gs, H := R.GuardStmts(d.guards), DeclHeights(d, sg);
    DeclIs(s.top.chunk, sg, d);
    BlockHeightsSize(gs, sg);
    WholePart(H);
    PartsOfPart(H, 0, BlockHeights(gs, sg) + BlockHeights(d.body, sg), [0]);
    PartsOfPart(H, 0, BlockHeights(gs, sg), BlockHeights(d.body, sg));
    InDeclStarts(d, sg, s.top.pc);
    if s.top.pc in StartsIn(gs, sg, 0) {
      StartsLevel(gs, sg, H, 0, s.top.pc);
    } else {
      StartsLevel(d.body, sg, H, BlockSize(gs, sg), s.top.pc);
    }
  }

  lemma TopFrame(src: R.Source, s: State, ds: seq<Decl>)
    requires Disciplined(src, s, ds)
    ensures ds != []
    ensures var d := ds[|ds| - 1];
            && DeclCode(s.top.chunk, src.sigs, d)
            && (s.top.pc < |DeclHeights(d, src.sigs)| ==>
                  |s.stack| == s.top.stackBase + DeclHeights(d, src.sigs)[s.top.pc])
  {
    hide DeclCode, DeclHeights, Stacked;
  }

  lemma InDeclStarts(decl: Decl, sg: Sigs, pc: nat)
    requires pc in DeclStarts(decl, sg)
    ensures pc in StartsIn(R.GuardStmts(decl.guards), sg, 0)
            || pc in StartsIn(decl.body, sg, BlockSize(R.GuardStmts(decl.guards), sg))
  {
    hide StartsIn;
  }

  // ─── Ranges inside ranges ──────────────────────────────────────────────────

  predicate Inside(x: TryRange, y: TryRange) { y.begin <= x.begin && x.end <= y.end }

  predicate Disjoint(x: TryRange, y: TryRange) { x.end <= y.begin || y.end <= x.begin }

  /** No two ranges overlap without one being inside the other. */
  predicate Nested(rs: seq<TryRange>) {
    forall x, y :: x in rs && y in rs ==> Disjoint(x, y) || Inside(x, y) || Inside(y, x)
  }

  predicate Bounded(rs: seq<TryRange>, lo: nat, hi: nat) {
    forall x :: x in rs ==> lo <= x.begin <= x.end <= hi
  }

  lemma NestedJoin(l: seq<TryRange>, r: seq<TryRange>, lo: nat, mid: nat, hi: nat)
    requires Nested(l) && Nested(r) && Bounded(l, lo, mid) && Bounded(r, mid, hi)
    ensures Nested(l + r)
  {
  }

  /** A range around others. */
  lemma NestedAround(rs: seq<TryRange>, own: TryRange)
    requires Nested(rs) && Bounded(rs, own.begin, own.end)
    ensures Nested(rs + [own])
  {
  }

  lemma {:induction false} StmtRangesNest(s: Stmt, sg: Sigs, a: nat)
    ensures Nested(Ranges(s, sg, a)) && Bounded(Ranges(s, sg, a), a, a + StmtSize(s, sg))
    decreases s, 0
  {
    hide ExprSize, RangesIn, Nested, BlockSize;
    match s
    case If(c, body, orelse) =>
      var b := a + ExprSize(c, sg) + 1;
      var e := b + BlockSize(body, sg) + 1;
      RangesNest(body, sg, b);
      RangesNest(orelse, sg, e);
      NestedJoin(RangesIn(body, sg, b), RangesIn(orelse, sg, e), b, b + BlockSize(body, sg), e + BlockSize(orelse, sg));
      if orelse == [] {
        StmtUnfolding.EmptyBlock(sg, e);
      }
    case While(c, body) => RangesNest(body, sg, a + ExprSize(c, sg) + 1);
    case For(_, _, it, body) => RangesNest(body, sg, a + ExprSize(it, sg) + 15);
    case Try(body, _, orelse) =>
      var e := a + BlockSize(body, sg);
      RangesNest(body, sg, a);
      RangesNest(orelse, sg, e + 2);
      NestedAround(RangesIn(body, sg, a), TryRange(a, e, e + 1));
      NestedJoin(RangesIn(body, sg, a) + [TryRange(a, e, e + 1)], RangesIn(orelse, sg, e + 2), a, e,
                 e + 2 + BlockSize(orelse, sg));
    case _ => NestedNone();
  }

  lemma NestedNone()
    ensures Nested([])
  {
  }

  lemma {:induction false} RangesNest(ss: seq<Stmt>, sg: Sigs, a: nat)
    ensures Nested(RangesIn(ss, sg, a)) && Bounded(RangesIn(ss, sg, a), a, a + BlockSize(ss, sg))
    decreases ss, 1
  {
    hide Ranges, StmtSize, Nested;
    if ss == [] {
      NestedNone();
    } else {
      var b := a + StmtSize(ss[0], sg);
      StmtRangesNest(ss[0], sg, a);
      RangesNest(ss[1..], sg, b);
      NestedJoin(Ranges(ss[0], sg, a), RangesIn(ss[1..], sg, b), a, b, b + BlockSize(ss[1..], sg));
    }
  }

  lemma {:induction false} FoundIsShortest(ranges: seq<TryRange>, pc: int, best: Handler)
    requires best.HandlerAt? ==> Covers(best.range, pc)
    ensures var h := FindHandler(ranges, pc, best);
            && (h.NoHandler? <==> best.NoHandler? && forall x :: x in ranges ==> !Covers(x, pc))
            && (h.HandlerAt? ==>
                  && Covers(h.range, pc) && (h.range in ranges || h == best)
                  && (forall x :: x in ranges && Covers(x, pc) ==> h.range.end - h.range.begin <= x.end - x.begin)
                  && (best.HandlerAt? ==> h.range.end - h.range.begin <= best.range.end - best.range.begin))
    decreases |ranges|
  {
    if ranges != [] {
      var r := ranges[0];
      var best1 := if Covers(r, pc) && (best.NoHandler? || r.end - r.begin < best.range.end - best.range.begin)
                   then HandlerAt(r) else best;
      FoundIsShortest(ranges[1..], pc, best1);
    }
  }

  /** In compiled code the shortest range around an address is the innermost `try`: every
    other one around the address is around that range too, and there is none exactly
    when nothing catches the error in this frame. */
  lemma HandlerIsInnermost(ch: Chunk, sg: Sigs, decl: Decl, pc: int)
    requires DeclCode(ch, sg, decl)
    ensures var h := FindHandler(ch.ranges, pc, NoHandler);
            && (h.NoHandler? <==> forall x :: x in ch.ranges ==> !Covers(x, pc))
            && (h.HandlerAt? ==>
                  && h.range in ch.ranges && Covers(h.range, pc)
                  && forall x :: x in ch.ranges && Covers(x, pc) ==> Inside(h.range, x))
  {
    hide RangesIn, DeclCode, FindHandler;
    DeclIs(ch, sg, decl);
    RangesNest(decl.body, sg, BlockSize(R.GuardStmts(decl.guards), sg));
    FoundIsShortest(ch.ranges, pc, NoHandler);
  }
}
