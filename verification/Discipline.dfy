/** The discipline of the operand stack and of the slots in every reachable state. */
module Discipline {
  import opened Wrappers
  import opened Values
  import opened Ast
  import opened Bytecode
  import opened Machine
  import opened Layout
  import opened Composition
  import opened Heights
  import opened Flowing
  import R = Reference

  /** How many operands frame `f` has of its own, when it runs `decl`. */
  function Own(f: Frame, decl: Decl, sg: Sigs): nat {
    var H := DeclHeights(decl, sg);
    if f.pc < |H| then H[f.pc] else 0
  }

  predicate InDecl(src: R.Source, f: Frame, decl: Decl) {
    DeclCode(f.chunk, src.sigs, decl) && f.pc < |f.chunk.code|
  }

  /** The frames that wait for a call to return, the innermost last: each one has its
    slots right below those of the next, and its operands, without the result that is
    to come, right below the operands of the next. */
  predicate Stacked(src: R.Source, callers: seq<Frame>, ds: seq<Decl>, localsBase: nat, stackBase: nat) {
    |ds| == |callers|
    && if callers == [] then localsBase == 0 && stackBase == 0
       else
         var n := |callers| - 1;
         var f := callers[n];
         && InDecl(src, f, ds[n]) && Own(f, ds[n], src.sigs) > 0
         && stackBase == f.stackBase + Own(f, ds[n], src.sigs) - 1 && localsBase == f.localsBase + f.chunk.numLocals
         && Stacked(src, callers[..n], ds[..n], f.localsBase, f.stackBase)
  }

  /** `ds` are the declarations the frames run.  The running frame has exactly the
    operands its address says, and exactly its slots are on top of the array. */
  predicate Disciplined(src: R.Source, s: State, ds: seq<Decl>) {
    && |ds| == |s.callers| + 1 && |ds| <= MAX_FRAMES && InDecl(src, s.top, ds[|ds| - 1])
    && |s.stack| == s.top.stackBase + Own(s.top, ds[|ds| - 1], src.sigs)
    && |s.locals| == s.top.localsBase + s.top.chunk.numLocals
    && Stacked(src, s.callers, ds[..|ds| - 1], s.top.localsBase, s.top.stackBase)
  }

  /** A state in the middle of an instruction that fails: its frames are in order. */
  predicate Broken(src: R.Source, s: State, ds: seq<Decl>) {
    && |ds| == |s.callers| + 1 && |ds| <= MAX_FRAMES && DeclCode(s.top.chunk, src.sigs, ds[|ds| - 1])
    && |s.stack| >= s.top.stackBase && |s.locals| == s.top.localsBase + s.top.chunk.numLocals
    && Stacked(src, s.callers, ds[..|ds| - 1], s.top.localsBase, s.top.stackBase)
  }

  /** A state in which the awaited value is all that is missing. */
  predicate Asleep(src: R.Source, s: State, ds: seq<Decl>) {
    && |ds| == |s.callers| + 1 && |ds| <= MAX_FRAMES && InDecl(src, s.top, ds[|ds| - 1])
    && |s.stack| + 1 == s.top.stackBase + Own(s.top, ds[|ds| - 1], src.sigs)
    && |s.locals| == s.top.localsBase + s.top.chunk.numLocals
    && Stacked(src, s.callers, ds[..|ds| - 1], s.top.localsBase, s.top.stackBase)
  }

  // ─── One instruction ───────────────────────────────────────────────────────

  /** What one turn of the loop leaves of a disciplined state. */
  ghost predicate Kept(src: R.Source, s: State, ds: seq<Decl>, raw: Raw) {
    match raw
    case Next(s1) => exists ds1 :: Disciplined(src, s1, ds1)
    case Fail(_, s1) => Broken(src, s1, ds)
    case Suspend(_, _, s1) => Asleep(src, s1, ds)
    case Finish(_, _) => s.callers == []
    case Crash => false
  }

  lemma FlowAt(p: Program, src: R.Source, s: State, ds: seq<Decl>) returns (H: seq<nat>)
    requires Linked(p, src) && Disciplined(src, s, ds)
    ensures H == DeclHeights(ds[|ds| - 1], src.sigs) && |H| == |s.top.chunk.code| && s.top.pc < |H|
    ensures Flow(p, s.top.chunk, H, s.top.pc) && H[s.top.pc] == Own(s.top, ds[|ds| - 1], src.sigs)
  {
    hide DeclCode, DeclHeights, Linked, Flow, Stacked;
    H := DeclHeights(ds[|ds| - 1], src.sigs);
    DeclFlows(p, src, s.top.chunk, ds[|ds| - 1]);
  }

  /** The next state of the same frame, at `pc` with `d` operands of its own. */
  lemma SameFrame(src: R.Source, s: State, ds: seq<Decl>, s1: State, pc: nat)
    requires Disciplined(src, s, ds) && s1.callers == s.callers && s1.top == s.top.(pc := pc)
    requires pc < |s.top.chunk.code| && |s1.locals| == |s.locals|
    requires |s1.stack| == s.top.stackBase + Own(s1.top, ds[|ds| - 1], src.sigs)
    ensures Disciplined(src, s1, ds)
  {
    hide DeclCode, DeclHeights, Stacked;
  }

  lemma OwnAt(src: R.Source, f: Frame, decl: Decl, H: seq<nat>, pc: nat)
    requires H == DeclHeights(decl, src.sigs) && pc < |H|
    ensures Own(f.(pc := pc), decl, src.sigs) == H[pc]
  {
    hide DeclHeights;
  }

  lemma OperateKept(p: Program, src: R.Source, s: State, ds: seq<Decl>, H: seq<nat>, i: Instr)
    requires Disciplined(src, s, ds) && H == DeclHeights(ds[|ds| - 1], src.sigs) && |H| == |s.top.chunk.code|
    requires s.top.pc < |H| && Flow(p, s.top.chunk, H, s.top.pc) && i == s.top.chunk.code[s.top.pc] && IsOperation(i)
    ensures Kept(src, s, ds, Operate(p, Goto(s, s.top.pc + 1), i))
  {
    hide DeclCode, DeclHeights, Stacked, Perform;
    var raw := Operate(p, Goto(s, s.top.pc + 1), i);
    OwnAt(src, s.top, ds[|ds| - 1], H, s.top.pc + 1);
    if raw.Next? {
      SameFrame(src, s, ds, raw.state, s.top.pc + 1);
    }
  }

  lemma LocalKept(p: Program, src: R.Source, s: State, ds: seq<Decl>, H: seq<nat>, i: Instr)
    requires Disciplined(src, s, ds) && H == DeclHeights(ds[|ds| - 1], src.sigs) && |H| == |s.top.chunk.code|
    requires s.top.pc < |H| && Flow(p, s.top.chunk, H, s.top.pc) && i == s.top.chunk.code[s.top.pc]
    requires i.OpConst? || i.OpLoadLocal? || i.OpStoreLocal? || i.OpPop?
    ensures Kept(src, s, ds, Exec(p, Goto(s, s.top.pc + 1), i))
  {
    hide DeclCode, DeclHeights, Stacked;
    var raw := Exec(p, Goto(s, s.top.pc + 1), i);
    OwnAt(src, s.top, ds[|ds| - 1], H, s.top.pc + 1);
    if raw.Next? {
      SameFrame(src, s, ds, raw.state, s.top.pc + 1);
    }
  }

  lemma JumpKept(p: Program, src: R.Source, s: State, ds: seq<Decl>, H: seq<nat>, i: Instr)
    requires Disciplined(src, s, ds) && H == DeclHeights(ds[|ds| - 1], src.sigs) && |H| == |s.top.chunk.code|
    requires s.top.pc < |H| && Flow(p, s.top.chunk, H, s.top.pc) && i == s.top.chunk.code[s.top.pc] && IsJump(i)
    ensures Kept(src, s, ds, Exec(p, Goto(s, s.top.pc + 1), i))
  {
    hide DeclCode, DeclHeights, Stacked, Truthy;
    var raw := Exec(p, Goto(s, s.top.pc + 1), i);
    if !i.OpJump? {
      OwnAt(src, s.top, ds[|ds| - 1], H, s.top.pc + 1);
    }
    OwnAt(src, s.top, ds[|ds| - 1], H, i.to);
    if raw.Next? {
      SameFrame(src, s, ds, raw.state, raw.state.top.pc);
    }
  }

  lemma AwaitKept(p: Program, src: R.Source, s: State, ds: seq<Decl>, H: seq<nat>, i: Instr)
    requires Disciplined(src, s, ds) && H == DeclHeights(ds[|ds| - 1], src.sigs) && |H| == |s.top.chunk.code|
    requires s.top.pc < |H| && Flow(p, s.top.chunk, H, s.top.pc) && i == s.top.chunk.code[s.top.pc] && i.OpCallAsync?
    ensures Kept(src, s, ds, Exec(p, Goto(s, s.top.pc + 1), i))
  {
    hide DeclCode, DeclHeights, Stacked;
    OwnAt(src, s.top, ds[|ds| - 1], H, s.top.pc + 1);
  }

  lemma LeaveKept(src: R.Source, s: State, ds: seq<Decl>, t: State, v: Value)
    requires Disciplined(src, s, ds) && t.callers == s.callers && t.locals == s.locals && |t.stack| >= s.top.stackBase
    requires t.top.stackBase == s.top.stackBase && t.top.localsBase == s.top.localsBase
    ensures Kept(src, s, ds, Leave(t, v))
  {
    hide DeclCode, DeclHeights;
    var raw := Leave(t, v);
    if raw.Next? {
      assert Disciplined(src, raw.state, ds[..|ds| - 1]);
    }
  }

  lemma CallKept(p: Program, src: R.Source, s: State, ds: seq<Decl>, H: seq<nat>, i: Instr)
    requires Linked(p, src) && Disciplined(src, s, ds) && H == DeclHeights(ds[|ds| - 1], src.sigs)
    requires |H| == |s.top.chunk.code| && s.top.pc < |H| && Flow(p, s.top.chunk, H, s.top.pc)
    requires i == s.top.chunk.code[s.top.pc] && i.OpCallFunction?
    ensures Kept(src, s, ds, Exec(p, Goto(s, s.top.pc + 1), i))
  {
    hide DeclCode, DeclHeights;
    var raw := Exec(p, Goto(s, s.top.pc + 1), i);
    OwnAt(src, s.top, ds[|ds| - 1], H, s.top.pc + 1);
    if raw.Next? {
      var callee := src.decls[i.index];
      DeclFlows(p, src, p.functions[i.index], callee);
      OwnAt(src, raw.state.top, callee, DeclHeights(callee, src.sigs), 0);
      CalleeKept(src, s, ds, raw.state, callee);
    }
  }

  lemma CalleeKept(src: R.Source, s: State, ds: seq<Decl>, s1: State, callee: Decl)
    requires Disciplined(src, s, ds) && |ds| < MAX_FRAMES && s1.callers == s.callers + [s.top.(pc := s.top.pc + 1)]
    requires s.top.pc + 1 < |s.top.chunk.code| && Own(s.top.(pc := s.top.pc + 1), ds[|ds| - 1], src.sigs) > 0
    requires s1.top.pc == 0 && s1.top.localsBase == |s.locals| && s1.top.stackBase == |s1.stack|
    requires |s1.stack| + 1 == s.top.stackBase + Own(s.top.(pc := s.top.pc + 1), ds[|ds| - 1], src.sigs)
    requires InDecl(src, s1.top, callee) && Own(s1.top, callee, src.sigs) == 0
    requires |s1.locals| == s1.top.localsBase + s1.top.chunk.numLocals
    ensures Disciplined(src, s1, ds + [callee])
  {
    hide DeclCode, DeclHeights, Own;
    assert (ds + [callee])[..|ds|] == ds;
    assert s1.callers[..|s.callers|] == s.callers;
  }

  /** No instruction crashes the machine, takes operands below its frame's, or leaves
    more or fewer than the next one expects. */
  lemma RawStepKeepsDiscipline(p: Program, src: R.Source, s: State, ds: seq<Decl>)
    requires Linked(p, src) && Disciplined(src, s, ds)
    ensures Kept(src, s, ds, RawStep(p, s))
  {
    hide *;
    var H := FlowAt(p, src, s, ds);
    var i := s.top.chunk.code[s.top.pc];
    RawStepIs(p, s);
    InstrKinds(i);
    if IsOperation(i) {
      OperateKept(p, src, s, ds, H, i);
    } else if i.OpConst? || i.OpLoadLocal? || i.OpStoreLocal? || i.OpPop? {
      LocalKept(p, src, s, ds, H, i);
    } else if IsJump(i) {
      JumpKept(p, src, s, ds, H, i);
    } else if i.OpCallFunction? {
      CallKept(p, src, s, ds, H, i);
    } else if i.OpCallAsync? {
      AwaitKept(p, src, s, ds, H, i);
    } else {
      LeaveIs(p, s, src, ds, H, i);
      if i.OpReturn? {
        LeaveKept(src, s, ds, Popped(s), s.stack[|s.stack| - 1]);
      } else {
        LeaveKept(src, s, ds, Goto(s, s.top.pc + 1), Null);
      }
    }
  }

  function Popped(s: State): State
    requires s.stack != []
  {
    Goto(s, s.top.pc + 1).(stack := s.stack[..|s.stack| - 1])
  }

  lemma RawStepIs(p: Program, s: State)
    requires s.top.pc < |s.top.chunk.code|
    ensures RawStep(p, s) == Exec(p, Goto(s, s.top.pc + 1), s.top.chunk.code[s.top.pc])
    ensures IsOperation(s.top.chunk.code[s.top.pc]) ==>
              RawStep(p, s) == Operate(p, Goto(s, s.top.pc + 1), s.top.chunk.code[s.top.pc])
  {
    hide Operate;
  }

  lemma InstrKinds(i: Instr)
    ensures IsOperation(i) || i.OpConst? || i.OpLoadLocal? || i.OpStoreLocal? || i.OpPop?
            || IsJump(i) || i.OpCallFunction?
            || i.OpCallAsync? || i.OpReturn? || i.OpReturnNull?
  {
  }

  lemma LeaveIs(p: Program, s: State, src: R.Source, ds: seq<Decl>, H: seq<nat>, i: Instr)
    requires Disciplined(src, s, ds) && H == DeclHeights(ds[|ds| - 1], src.sigs) && |H| == |s.top.chunk.code|
    requires s.top.pc < |H| && Flow(p, s.top.chunk, H, s.top.pc) && i == s.top.chunk.code[s.top.pc]
    requires i.OpReturn? || i.OpReturnNull?
    ensures |Goto(s, s.top.pc + 1).stack| >= s.top.stackBase && Goto(s, s.top.pc + 1).locals == s.locals
    ensures Goto(s, s.top.pc + 1).callers == s.callers && Goto(s, s.top.pc + 1).top == s.top.(pc := s.top.pc + 1)
    ensures i.OpReturn? ==>
              && s.stack != [] && |Popped(s).stack| >= s.top.stackBase && Popped(s).locals == s.locals
              && Popped(s).callers == s.callers && Popped(s).top == s.top.(pc := s.top.pc + 1)
              && Exec(p, Goto(s, s.top.pc + 1), i) == Leave(Popped(s), s.stack[|s.stack| - 1])
    ensures i.OpReturnNull? ==> Exec(p, Goto(s, s.top.pc + 1), i) == Leave(Goto(s, s.top.pc + 1), Null)
  {
    hide DeclCode, DeclHeights, Stacked, Leave;
    OwnAt(src, s.top, ds[|ds| - 1], H, s.top.pc);
  }

  // ─── Ranges and handlers ───────────────────────────────────────────────────

  /** A handler starts with the error, and nothing else, on the stack. */
  predicate HandlerFits(H: seq<nat>, r: TryRange) { r.handler < |H| && H[r.handler] == 1 }

  /** A block inside a statement, and its address. */
  datatype Inner = Inner(block: seq<Stmt>, at: nat)

  function Inners(s: Stmt, sg: Sigs, a: nat): seq<Inner> {
    match s
    case If(c, body, orelse) =>
      var b := a + ExprSize(c, sg) + 1;
      if orelse == [] then [Inner(body, b)] else [Inner(body, b), Inner(orelse, b + BlockSize(body, sg) + 1)]
    case While(c, body) => [Inner(body, a + ExprSize(c, sg) + 1)]
    case For(_, _, it, body) => [Inner(body, a + ExprSize(it, sg) + 15)]
    case Try(body, _, orelse) => [Inner(body, a), Inner(orelse, a + BlockSize(body, sg) + 2)]
    case _ => []
  }

  lemma InnersHold(s: Stmt, sg: Sigs, H: seq<nat>, a: nat, k: nat)
    requires HasPart(H, a, StmtHeights(s, sg)) && k < |Inners(s, sg, a)|
    ensures HasPart(H, Inners(s, sg, a)[k].at, BlockHeights(Inners(s, sg, a)[k].block, sg)) && a < |H| && H[a] == 0
    ensures s.Try? ==> HandlerFits(H, TryRange(a, a + BlockSize(s.body, sg), a + BlockSize(s.body, sg) + 1))
  {
    hide ExprHeights, ExprSize, BlockHeights, BlockSize, HasPart, StmtHeights, StmtSize;
    StmtHeightsParts(s, sg);
    StmtHeightsSize(s, sg);
    PartAt(H, a, StmtHeights(s, sg), 0);
    match s
    case If(c, body, orelse) =>
      var x, y := ExprHeights(c, sg, 0), BlockHeights(body, sg);
      ExprHeightsSize(c, sg, 0);
      BlockHeightsSize(body, sg);
      if orelse != [] {
        PartsOfPart(H, a, x + [1] + y, [0] + BlockHeights(orelse, sg));
        PartsOfPart(H, a + ExprSize(c, sg) + 1 + BlockSize(body, sg), [0], BlockHeights(orelse, sg));
      }
      PartsOfPart(H, a, x + [1], y);
    case While(c, body) =>
      ExprHeightsSize(c, sg, 0);
      PartsOfPart(H, a, ExprHeights(c, sg, 0) + [1] + BlockHeights(body, sg), [0]);
      PartsOfPart(H, a, ExprHeights(c, sg, 0) + [1], BlockHeights(body, sg));
    case For(_, _, it, body) =>
      ExprHeightsSize(it, sg, 0);
      var x := ExprHeights(it, sg, 0) + HEAD_HEIGHTS + TEST_HEIGHTS;
      PartsOfPart(H, a, x + BlockHeights(body, sg), NEXT_HEIGHTS);
      PartsOfPart(H, a, x, BlockHeights(body, sg));
    case Try(body, _, orelse) =>
      BlockHeightsSize(body, sg);
      PartsOfPart(H, a, BlockHeights(body, sg) + [0, 1], BlockHeights(orelse, sg));
      PartsOfPart(H, a, BlockHeights(body, sg), [0, 1]);
      PartAt(H, a + BlockSize(body, sg), [0, 1], 1);
    case _ =>
  }

  predicate IsPart(ss: seq<Stmt>, s: Stmt) {
    || ((s.If? || s.Try?) && (ss == s.body || ss == s.orelse))
    || (s.While? && ss == s.body)
    || (s.For? && ss == s.body)
  }

  lemma RangesOfInners(s: Stmt, sg: Sigs, a: nat, r: TryRange) returns (k: nat)
    requires r in Ranges(s, sg, a)
    ensures Inners(s, sg, a) != []
    ensures (k < |Inners(s, sg, a)| && r in RangesIn(Inners(s, sg, a)[k].block, sg, Inners(s, sg, a)[k].at)
             && IsPart(Inners(s, sg, a)[k].block, s))
            || (s.Try? && r == TryRange(a, a + BlockSize(s.body, sg), a + BlockSize(s.body, sg) + 1))
  {
    hide ExprSize, BlockSize;
    k := 0;
    match s
    case If(c, body, orelse) =>
      if r !in RangesIn(body, sg, a + ExprSize(c, sg) + 1) {
        NoInnerRanges(orelse, sg, a + ExprSize(c, sg) + 1 + BlockSize(body, sg) + 1, r);
        k := 1;
      }
    case Try(body, _, orelse) =>
      if r !in RangesIn(body, sg, a) {
        k := 1;
      }
    case _ =>
  }

  lemma NoInnerRanges(ss: seq<Stmt>, sg: Sigs, a: nat, r: TryRange)
    requires r in RangesIn(ss, sg, a)
    ensures ss != []
  {
  }

  lemma {:induction false} StmtHandlers(s: Stmt, sg: Sigs, H: seq<nat>, a: nat, r: TryRange)
    requires HasPart(H, a, StmtHeights(s, sg)) && r in Ranges(s, sg, a)
    ensures HandlerFits(H, r)
    decreases s, 0
  {
    hide HasPart, StmtHeights, Ranges, HandlerFits, Inners, BlockSize;
    var k := RangesOfInners(s, sg, a, r);
    if s.Try? && r == TryRange(a, a + BlockSize(s.body, sg), a + BlockSize(s.body, sg) + 1) {
      InnersHold(s, sg, H, a, 0);
    } else {
      var part := Inners(s, sg, a)[k];
      InnersHold(s, sg, H, a, k);
      if part.block == s.body {
        BlockHandlers(s.body, sg, H, part.at, r);
      } else {
        BlockHandlers(s.orelse, sg, H, part.at, r);
      }
    }
  }

  lemma {:induction false} BlockHandlers(ss: seq<Stmt>, sg: Sigs, H: seq<nat>, a: nat, r: TryRange)
    requires HasPart(H, a, BlockHeights(ss, sg)) && r in RangesIn(ss, sg, a)
    ensures HandlerFits(H, r)
    decreases ss, 1
  {
    hide StmtHeights, StmtSize, HasPart, Ranges, HandlerFits;
    BlockHeightsParts(ss, sg);
    StmtHeightsSize(ss[0], sg);
    PartsOfPart(H, a, StmtHeights(ss[0], sg), BlockHeights(ss[1..], sg));
    if r in Ranges(ss[0], sg, a) {
      StmtHandlers(ss[0], sg, H, a, r);
    } else {
      BlockHandlers(ss[1..], sg, H, a + StmtSize(ss[0], sg), r);
    }
  }

  lemma DeclHandlers(ch: Chunk, sg: Sigs, decl: Decl, r: TryRange)
    requires DeclCode(ch, sg, decl) && r in ch.ranges
    ensures HandlerFits(DeclHeights(decl, sg), r) && |DeclHeights(decl, sg)| == |ch.code|
  {
    hide *;
    var gs, H := R.GuardStmts(decl.guards), DeclHeights(decl, sg);
    DeclIs(ch, sg, decl);
    BlockHeightsSize(gs, sg);
    BlockHeightsSize(decl.body, sg);
    WholePart(H);
    PartsOfPart(H, 0, BlockHeights(gs, sg) + BlockHeights(decl.body, sg), [0]);
    PartsOfPart(H, 0, BlockHeights(gs, sg), BlockHeights(decl.body, sg));
    BlockHandlers(decl.body, sg, H, BlockSize(gs, sg), r);
  }

  lemma {:induction false} FoundRange(ranges: seq<TryRange>, pc: int, best: Handler)
    ensures var h := FindHandler(ranges, pc, best); h.HandlerAt? ==> h.range in ranges || h == best
  {
    if ranges != [] {
      var r := ranges[0];
      FoundRange(ranges[1..], pc,
                 if Covers(r, pc) && (best.NoHandler? || r.end - r.begin < best.range.end - best.range.begin)
                 then HandlerAt(r) else best);
    }
  }

  // ─── The whole machine ─────────────────────────────────────────────────────

  /** A configuration in order: a disciplined state, or an end that is no crash. */
  ghost predicate InOrder(src: R.Source, c: Cfg) {
    match c
    case Run(s, _) => exists ds :: Disciplined(src, s, ds)
    case Halt(end) => !end.Crashed?
  }

  /** The frames from the outermost to the running one. */
  function FrameAt(s: State, i: nat): Frame
    requires i <= |s.callers|
  {
    if i < |s.callers| then s.callers[i] else s.top
  }

  /** The handler around the instruction that a frame is at. */
  function HandlerOf(f: Frame): Handler { FindHandler(f.chunk.ranges, f.pc as int - 1, NoHandler) }

  /** No frame above the first `i` has a handler. */
  predicate NoneAbove(s: State, i: nat) {
    forall j {:trigger FrameAt(s, j)} :: i <= j <= |s.callers| ==> HandlerOf(FrameAt(s, j)).NoHandler?
  }

  /** Frame `i` catches the error: it is the nearest one with a handler, and goes on there
    with its own slots as they were and the error as its only operand; the operands and
    slots of the frames below are as they were, and the frames above are gone. */
  predicate Caught(s: State, i: nat, error: string, t: State) {
    && i <= |s.callers| && NoneAbove(s, i + 1)
    && var f, (v, w) := FrameAt(s, i), ErrorValue(error, s.world);
       && HandlerOf(f).HandlerAt? && t.top == f.(pc := HandlerOf(f).range.handler) && t.callers == s.callers[..i]
       && f.stackBase <= |s.stack| && t.stack == s.stack[..f.stackBase] + [v]
       && f.localsBase + f.chunk.numLocals <= |s.locals| && t.locals == s.locals[..f.localsBase + f.chunk.numLocals]
       && t.world == w && t.steps == 0
  }

  /** What an error comes to. */
  ghost predicate Handled(s: State, error: string, inputs: seq<Resumption>, c: Cfg) {
    match c
    case Run(t, more) => more == inputs && exists i: nat :: Caught(s, i, error, t)
    case Halt(end) => end == Failed(error, s.world) && NoneAbove(s, 0)
  }

  /** `s` without its running frame. */
  function Dropped(s: State): State
    requires s.callers != []
  {
    var n := |s.callers| - 1;
    State(s.callers[n], s.callers[..n], Trunc(s.stack, s.top.stackBase), Trunc(s.locals, s.top.localsBase), 0, s.world)
  }

  lemma DroppedIsBroken(src: R.Source, s: State, ds: seq<Decl>)
    requires Broken(src, s, ds) && s.callers != []
    ensures Broken(src, Dropped(s), ds[..|ds| - 1])
    ensures s.top.stackBase <= |s.stack| && s.top.localsBase <= |s.locals|
  {
    hide DeclCode, DeclHeights;
  }

  /** A frame that catches an error when the frames above it are gone catches it. */
  lemma DroppedHandled(s: State, error: string, inputs: seq<Resumption>, c: Cfg)
    requires s.callers != [] && s.top.stackBase <= |s.stack| && s.top.localsBase <= |s.locals|
    requires HandlerOf(s.top).NoHandler? && Handled(Dropped(s), error, inputs, c)
    ensures Handled(s, error, inputs, c)
  {
    hide HandlerOf;
    var t, n := Dropped(s), |s.callers| - 1;
    forall j: nat | j <= n
      ensures FrameAt(t, j) == FrameAt(s, j)
    {
    }
    assert HandlerOf(FrameAt(s, n + 1)).NoHandler?;
    if c.Run? {
      var i: nat :| Caught(t, i, error, c.state);
      assert NoneAbove(s, i + 1) by {
        forall j | i + 1 <= j <= |s.callers|
          ensures HandlerOf(FrameAt(s, j)).NoHandler?
        {
          assert j <= n ==> HandlerOf(FrameAt(t, j)).NoHandler?;
        }
      }
      assert Caught(s, i, error, c.state);
    } else {
      forall j: nat | j <= |s.callers|
        ensures HandlerOf(FrameAt(s, j)).NoHandler?
      {
        assert j <= n ==> HandlerOf(FrameAt(t, j)).NoHandler?;
      }
    }
  }

  /** An error goes on in the nearest frame with a handler, which finds its own slots as
    they were and the error as its only operand; the frames above are gone.  Without such
    a frame the run fails with that error. */
  lemma {:induction false} RaiseKeepsDiscipline(src: R.Source, s: State, ds: seq<Decl>, error: string,
                                                inputs: seq<Resumption>)
    requires Broken(src, s, ds)
    ensures InOrder(src, Raise(s, error, inputs))
    ensures Handled(s, error, inputs, Raise(s, error, inputs))
    decreases |s.callers|
  {
    hide DeclCode, DeclHeights, FindHandler, Stacked, Handled, InOrder;
    var h := HandlerOf(s.top);
    if h.HandlerAt? {
      CaughtHere(src, s, ds, error, inputs);
    } else if s.callers != [] {
      DroppedIsBroken(src, s, ds);
      RaiseKeepsDiscipline(src, Dropped(s), ds[..|ds| - 1], error, inputs);
      DroppedHandled(s, error, inputs, Raise(s, error, inputs));
    } else {
      NobodyCatches(src, s, error, inputs);
    }
  }

  lemma NobodyCatches(src: R.Source, s: State, error: string, inputs: seq<Resumption>)
    requires s.callers == [] && HandlerOf(s.top).NoHandler?
    ensures InOrder(src, Halt(Failed(error, s.world))) && Handled(s, error, inputs, Halt(Failed(error, s.world)))
  {
    hide HandlerOf;
    assert forall j :: 0 <= j <= |s.callers| ==> FrameAt(s, j) == s.top;
  }

  lemma CaughtHere(src: R.Source, s: State, ds: seq<Decl>, error: string, inputs: seq<Resumption>)
    requires Broken(src, s, ds) && HandlerOf(s.top).HandlerAt?
    ensures InOrder(src, Raise(s, error, inputs)) && Handled(s, error, inputs, Raise(s, error, inputs))
  {
    hide DeclCode, DeclHeights, FindHandler;
    var d, h := ds[|ds| - 1], HandlerOf(s.top);
    FoundRange(s.top.chunk.ranges, s.top.pc as int - 1, NoHandler);
    DeclHandlers(s.top.chunk, src.sigs, d, h.range);
    OwnAt(src, s.top, d, DeclHeights(d, src.sigs), h.range.handler);
    var c := Raise(s, error, inputs);
    assert Disciplined(src, c.state, ds);
    assert s.locals[..s.top.localsBase + s.top.chunk.numLocals] == s.locals;
    assert s.callers[..|s.callers|] == s.callers;
    assert Caught(s, |s.callers|, error, c.state);
  }

  lemma WakeKeepsDiscipline(src: R.Source, s: State, ds: seq<Decl>, r: Resumption)
    requires Asleep(src, s, ds)
    ensures Disciplined(src, Wake(s, r), ds)
  {
    hide DeclCode, DeclHeights, Stacked, Own;
  }

  lemma StepKeepsOrder(p: Program, src: R.Source, c: Cfg)
    requires Linked(p, src) && c.Run? && InOrder(src, c)
    ensures InOrder(src, Machine.Step(p, c))
  {
    hide Linked, Disciplined, Broken, Asleep, RawStep, Raise, Wake;
    var ds :| Disciplined(src, c.state, ds);
    RawStepKeepsDiscipline(p, src, c.state, ds);
    match RawStep(p, c.state)
    case Next(s) =>
    case Fail(e, s) => RaiseKeepsDiscipline(src, s, ds, e, c.inputs);
    case Suspend(id, args, s) =>
      if c.inputs != [] {
        WakeKeepsDiscipline(src, s, ds, c.inputs[0]);
      }
    case Finish(v, w) =>
  }

  lemma {:induction false} RunKeepsOrder(p: Program, src: R.Source, tr: seq<Cfg>, i: nat)
    requires Linked(p, src) && IsRun(p, tr) && InOrder(src, tr[0]) && i < |tr|
    ensures InOrder(src, tr[i])
  {
    hide Linked, InOrder, Machine.Step;
    if i > 0 {
      RunKeepsOrder(p, src, tr, i - 1);
      assert StepAt(p, tr, i - 1);
      StepKeepsOrder(p, src, tr[i - 1]);
    }
  }

  lemma StartIsDisciplined(p: Program, src: R.Source, ch: Chunk, decl: Decl, args: seq<Value>, w: World)
    requires Linked(p, src) && DeclCode(ch, src.sigs, decl)
    ensures Disciplined(src, Start(ch, args, w), [decl])
  {
    hide DeclCode, DeclHeights, Linked;
    DeclFlows(p, src, ch, decl);
    var s := Start(ch, args, w);
    assert |s.locals| == ch.numLocals;
    assert [decl][..0] == [];
  }

  /** Whatever a compiled route does, ending or not: every state it reaches is
    disciplined, and it never crashes. */
  lemma EveryReachableStateIsDisciplined(p: Program, src: R.Source, ch: Chunk, decl: Decl, args: seq<Value>, w: World,
                                         inputs: seq<Resumption>, c: Cfg)
    requires Linked(p, src) && DeclCode(ch, src.sigs, decl) && Runs(p, Run(Start(ch, args, w), inputs), c)
    ensures InOrder(src, c)
  {
    hide Linked, DeclCode, Disciplined, Machine.Step, Start;
    StartIsDisciplined(p, src, ch, decl, args, w);
    var tr: seq<Cfg> :| IsRun(p, tr) && tr[0] == Run(Start(ch, args, w), inputs) && tr[|tr| - 1] == c;
    RunKeepsOrder(p, src, tr, |tr| - 1);
  }

  // ─── Frames do not touch each other ────────────────────────────────────────

  /** From `s` to `t`, the operands and the slots below those of the running frame are
    as they were, and so are the frames that wait, except that one may be added or the
    nearest may go on. */
  predicate OthersStay(s: State, t: State) {
    && s.top.stackBase <= |s.stack| && s.top.localsBase <= |s.locals|
    && s.stack[..s.top.stackBase] <= t.stack && s.locals[..s.top.localsBase] <= t.locals
    && (|| t.callers == s.callers
        || t.callers == s.callers + [s.top.(pc := s.top.pc + 1)]
        || (s.callers == t.callers + [t.top] && t.locals == s.locals[..s.top.localsBase]
            && |t.stack| == s.top.stackBase + 1))
  }

  lemma OtherFramesStay(p: Program, src: R.Source, s: State, ds: seq<Decl>)
    requires Linked(p, src) && Disciplined(src, s, ds) && RawStep(p, s).Next?
    ensures OthersStay(s, RawStep(p, s).state)
  {
    hide DeclCode, DeclHeights, Linked, Stacked, Perform, Truthy;
    var H := FlowAt(p, src, s, ds);
    var i := s.top.chunk.code[s.top.pc];
    InstrKinds(i);
  }
}
