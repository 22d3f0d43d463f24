/** Which runs end.  A caught error gives a new budget of jumps, so a run can go on for
  ever; but only if it comes to errors without end. */
module Endings {
  import opened Wrappers
  import opened Values
  import opened Ast
  import opened Bytecode
  import opened Machine
  import opened Layout
  import opened Acceptance
  import opened Composition
  import opened Discipline
  import opened Termination
  import opened Correctness
  import R = Reference

  ghost predicate Ends(p: Program, c: Cfg) { exists e: Ending :: Runs(p, c, Halt(e)) }

  // ─── A run ends, or comes to errors without end ────────────────────────────

  lemma EndsLater(p: Program, c: Cfg, d: Cfg, k: nat)
    requires Runs(p, c, d) && (Ends(p, d) || Raises(p, d, k))
    ensures Ends(p, c) || Raises(p, c, k)
  {
    hide Runs, Raises;
    if Ends(p, d) {
      var e: Ending :| Runs(p, d, Halt(e));
      RunsTrans(p, c, d, Halt(e));
    } else {
      RaisesTrans(p, c, d, k);
    }
  }

  lemma EndsHere(p: Program, c: Cfg, d: Cfg)
    requires Runs(p, c, d) && d.Halt?
    ensures Ends(p, c)
  {
    hide Runs;
    assert Runs(p, c, Halt(d.end));
  }

  lemma RaisesHere(p: Program, c: Cfg, k: nat)
    requires c.Run? && RawStep(p, c.state).Fail?
             && (k == 0 || Ends(p, Machine.Step(p, c)) || Raises(p, Machine.Step(p, c), k - 1))
    ensures Ends(p, c) || Raises(p, c, k)
  {
    hide Runs, Raises, RawStep, Machine.Step;
    RunsRefl(p, c);
    assert Errs(p, c, c);
    OneMoreError(p, c, c, if k == 0 then 0 else k - 1);
    if k > 0 && Ends(p, Machine.Step(p, c)) {
      RunsStep(p, c);
      EndsLater(p, c, Machine.Step(p, c), 0);
      var e: Ending :| Runs(p, Machine.Step(p, c), Halt(e));
      RunsTrans(p, c, Machine.Step(p, c), Halt(e));
    }
  }

  /** Errors and resumptions are finitely many, and so are the instructions between. */
  lemma {:induction false} EndsOrRaises(p: Program, src: R.Source, s: State, inputs: seq<Resumption>, ds: seq<Decl>,
                                        b: nat, k: nat)
    requires Linked(p, src) && Disciplined(src, s, ds) && Below(p, s, b) && s.steps <= STEP_LIMIT
    ensures Ends(p, Run(s, inputs)) || Raises(p, Run(s, inputs), k)
    decreases k + |inputs|, if |s.callers| < MAX_FRAMES then Measure(b, s) else 0
  {
    hide Linked, Disciplined, Broken, Asleep, RawStep, Moves, Below, Measure, Runs, Raises, Ends, Raise, Wake, Caught;
    FramesAreFew(src, s, ds);
    var c, raw := Run(s, inputs), RawStep(p, s);
    RunsStep(p, c);
    RawStepKeepsDiscipline(p, src, s, ds);
    match raw
    case Next(t) =>
      var ds1 :| Disciplined(src, t, ds1);
      RawStepMoves(p, src, s, ds);
      MovesShrinks(p, s, t, b);
      EndsOrRaises(p, src, t, inputs, ds1, b, k);
      EndsLater(p, c, Run(t, inputs), k);
    case Fail(e, t) =>
      if k > 0 {
        BelowStop(p, s, raw, b);
        RaiseKeepsDiscipline(src, t, ds, e, inputs);
        RaiseBelow(p, t, e, inputs, b);
        var d := Raise(t, e, inputs);
        if d.Run? {
          StartsAnew(t, e, inputs);
          var ds1 :| Disciplined(src, d.state, ds1);
          EndsOrRaises(p, src, d.state, inputs, ds1, b, k - 1);
        } else {
          RunsRefl(p, d);
          EndsHere(p, d, d);
        }
      }
      RaisesHere(p, c, k);
    case Suspend(id, args, t) =>
      if inputs == [] {
        EndsHere(p, c, Halt(Waiting(id, args, t.world)));
      } else {
        var u := Wake(t, inputs[0]);
        BelowStop(p, s, raw, b);
        WakeBelow(p, t, inputs[0], b);
        WakeKeepsDiscipline(src, t, ds, inputs[0]);
        WakesAnew(t, inputs[0]);
        EndsOrRaises(p, src, u, inputs[1..], ds, b, k);
        EndsLater(p, c, Run(u, inputs[1..]), k);
      }
    case Finish(v, w) => EndsHere(p, c, Halt(Done(v, w)));
    case Crash => EndsHere(p, c, Halt(Crashed));
  }

  lemma StartsAnew(s: State, error: string, inputs: seq<Resumption>)
    requires Handled(s, error, inputs, Raise(s, error, inputs)) && Raise(s, error, inputs).Run?
    ensures Raise(s, error, inputs).inputs == inputs && Raise(s, error, inputs).state.steps == 0
  {
    hide Raise, HandlerOf, NoneAbove, FrameAt;
  }

  lemma WakesAnew(s: State, r: Resumption)
    ensures Wake(s, r).steps == 0
  {
  }

  function Longest(chunks: seq<Chunk>, ch: Chunk): (n: nat)
    ensures |ch.code| <= n && forall i :: 0 <= i < |chunks| ==> |chunks[i].code| <= n
  {
    if chunks == [] then |ch.code|
    else
      var m := Longest(chunks[..|chunks| - 1], ch);
      if m < |chunks[|chunks| - 1].code| then |chunks[|chunks| - 1].code| else m
  }

  lemma StartIsInOrder(p: Program, src: R.Source, ch: Chunk, decl: Decl, args: seq<Value>, w: World,
                       inputs: seq<Resumption>, b: nat)
    requires Linked(p, src) && DeclCode(ch, src.sigs, decl) && b == Longest(p.functions, ch) + 1
    ensures InOrder(src, Run(Machine.Start(ch, args, w), inputs)) && Below(p, Machine.Start(ch, args, w), b)
  {
    hide DeclCode, Linked, Disciplined;
    StartIsDisciplined(p, src, ch, decl, args, w);
  }

  lemma BeginIs(ch: Chunk, args: seq<Value>, w: World, inputs: seq<Resumption>)
    ensures Begin(ch, args, w, inputs) == Run(Machine.Start(ch, args, w), inputs)
  {
  }

  /** A run of a compiled route ends if and only if it comes to finitely many errors. */
  lemma EndsIff(p: Program, src: R.Source, ch: Chunk, decl: Decl, args: seq<Value>, w: World, inputs: seq<Resumption>)
    requires Linked(p, src) && DeclCode(ch, src.sigs, decl)
    ensures Ends(p, Begin(ch, args, w, inputs)) <==> exists k: nat :: !Raises(p, Begin(ch, args, w, inputs), k)
  {
    hide Linked, DeclCode, Disciplined, Below, Runs, RunsFor, Raises, Start;
    var c := Begin(ch, args, w, inputs);
    assert c == Run(Start(ch, args, w), inputs);
    if k: nat :| !Raises(p, c, k) {
      var b := Longest(p.functions, ch) + 1;
      StartIsInOrder(p, src, ch, decl, args, w, inputs, b);
      var ds :| Disciplined(src, Start(ch, args, w), ds);
      StartsAtZero(ch, args, w);
      EndsOrRaises(p, src, Start(ch, args, w), inputs, ds, b, k);
    }
    if Ends(p, c) {
      var e: Ending :| Runs(p, c, Halt(e));
      var n := EndBoundsRun(p, c, e);
      if Raises(p, c, n) {
        ErrorsTakeSteps(p, c, n);
      }
      assert !Raises(p, c, n);
    }
  }

  lemma StartsAtZero(ch: Chunk, args: seq<Value>, w: World)
    ensures Start(ch, args, w).steps == 0
  {
  }

  // ─── Without try ───────────────────────────────────────────────────────────

  predicate NoRanges(p: Program, ch: Chunk) {
    ch.ranges == [] && forall i :: 0 <= i < |p.functions| ==> p.functions[i].ranges == []
  }

  /** No frame has a handler, and no function to come has one. */
  predicate Unguarded(p: Program, s: State) {
    NoRanges(p, s.top.chunk) && forall f :: f in s.callers ==> f.chunk.ranges == []
  }

  lemma {:induction false} NothingCatches(s: State, error: string, inputs: seq<Resumption>)
    requires s.top.chunk.ranges == [] && forall f :: f in s.callers ==> f.chunk.ranges == []
    ensures Raise(s, error, inputs).Halt?
    decreases |s.callers|
  {
    if s.callers != [] {
      NothingCatches(Dropped(s), error, inputs);
    }
  }

  lemma StepStaysUnguarded(p: Program, src: R.Source, c: Cfg)
    requires Linked(p, src) && c.Run? && InOrder(src, c) && Unguarded(p, c.state)
    ensures Machine.Step(p, c).Run? ==> Unguarded(p, Machine.Step(p, c).state)
    ensures RawStep(p, c.state).Fail? ==> Machine.Step(p, c).Halt?
  {
    hide Linked, Disciplined, RawStep, Raise;
    var ds :| Disciplined(src, c.state, ds);
    var raw := RawStep(p, c.state);
    StopFrames(p, c.state);
    if raw.Next? {
      RawStepMoves(p, src, c.state, ds);
    } else if raw.Fail? {
      NothingCatches(raw.at, raw.error, c.inputs);
    }
  }

  /** The frames of a state in which an instruction fails or suspends. */
  lemma StopFrames(p: Program, s: State)
    ensures var raw := RawStep(p, s);
            && (raw.Fail? ==> raw.at.callers == s.callers && raw.at.top.chunk == s.top.chunk)
            && (raw.Suspend? ==> raw.asleep.callers == s.callers && raw.asleep.top.chunk == s.top.chunk)
  {
    hide Perform, Truthy;
  }

  lemma {:induction false} RunStaysUnguarded(p: Program, src: R.Source, tr: seq<Cfg>, i: nat)
    requires Linked(p, src) && IsRun(p, tr) && InOrder(src, tr[0]) && i < |tr|
    requires tr[0].Run? && Unguarded(p, tr[0].state)
    ensures InOrder(src, tr[i]) && (tr[i].Run? ==> Unguarded(p, tr[i].state))
  {
    hide Linked, InOrder, Machine.Step, Unguarded, RawStep;
    if i > 0 {
      RunStaysUnguarded(p, src, tr, i - 1);
      assert StepAt(p, tr, i - 1);
      StepKeepsOrder(p, src, tr[i - 1]);
      StepStaysUnguarded(p, src, tr[i - 1]);
    }
  }

  lemma NothingAfterHalt(p: Program, e: Ending, k: nat)
    ensures !Raises(p, Halt(e), k)
  {
    hide Machine.Step, RawStep;
    if d: Cfg :| Errs(p, Halt(e), d) {
      var tr: seq<Cfg> :| IsRun(p, tr) && tr[0] == Halt(e) && tr[|tr| - 1] == d;
      assert |tr| > 1 ==> StepAt(p, tr, 0);
    }
  }

  /** Without handlers there is no second error. */
  lemma OneErrorAtMost(p: Program, src: R.Source, s: State, inputs: seq<Resumption>)
    requires Linked(p, src) && InOrder(src, Run(s, inputs)) && Unguarded(p, s)
    ensures !Raises(p, Run(s, inputs), 1)
  {
    hide Linked, InOrder, Machine.Step, RawStep, Unguarded;
    var c := Run(s, inputs);
    if Raises(p, c, 1) {
      var d: Cfg :| Errs(p, c, d) && Raises(p, Machine.Step(p, d), 0);
      var tr: seq<Cfg> :| IsRun(p, tr) && tr[0] == c && tr[|tr| - 1] == d;
      RunStaysUnguarded(p, src, tr, |tr| - 1);
      StepStaysUnguarded(p, src, d);
      NothingAfterHalt(p, Machine.Step(p, d).end, 0);
    }
  }

  lemma {:induction false} RaisesFewer(p: Program, c: Cfg, k: nat, n: nat)
    requires Raises(p, c, k) && n <= k
    ensures Raises(p, c, n)
    decreases n
  {
    hide Runs, RawStep, Machine.Step;
    var d: Cfg :| Errs(p, c, d) && (k == 0 || Raises(p, Machine.Step(p, d), k - 1));
    if n > 0 {
      RaisesFewer(p, Machine.Step(p, d), k - 1, n - 1);
    }
  }

  /** A run that comes to a second error has a handler somewhere. */
  lemma SomebodyCaught(p: Program, src: R.Source, s: State, inputs: seq<Resumption>, k: nat)
    requires Linked(p, src) && InOrder(src, Run(s, inputs)) && Raises(p, Run(s, inputs), k) && k > 0
    ensures !Unguarded(p, s)
  {
    hide Linked, InOrder, Raises, Unguarded;
    RaisesFewer(p, Run(s, inputs), k, 1);
    if Unguarded(p, s) {
      OneErrorAtMost(p, src, s, inputs);
    }
  }

  /** A route ends if neither its code nor that of any function has a `try`. */
  lemma EndsWithoutTry(p: Program, src: R.Source, ch: Chunk, decl: Decl, args: seq<Value>, w: World,
                       inputs: seq<Resumption>)
    requires Linked(p, src) && DeclCode(ch, src.sigs, decl) && NoRanges(p, ch)
    ensures Ends(p, Begin(ch, args, w, inputs))
    ensures forall k: nat :: k > 0 ==> !Raises(p, Begin(ch, args, w, inputs), k)
  {
    hide Linked, DeclCode, Disciplined, Below, Runs, Raises, NoRanges;
    StartIsInOrder(p, src, ch, decl, args, w, inputs, Longest(p.functions, ch) + 1);
    StartIsUnguarded(p, ch, args, w);
    OneErrorAtMost(p, src, Start(ch, args, w), inputs);
    EndsIff(p, src, ch, decl, args, w, inputs);
    forall k: nat | k > 0
      ensures !Raises(p, Begin(ch, args, w, inputs), k)
    {
      if Raises(p, Begin(ch, args, w, inputs), k) {
        RaisesFewer(p, Begin(ch, args, w, inputs), k, 1);
      }
    }
  }

  lemma StartIsUnguarded(p: Program, ch: Chunk, args: seq<Value>, w: World)
    requires NoRanges(p, ch)
    ensures Unguarded(p, Start(ch, args, w))
  {
  }

  // ─── try in the source ─────────────────────────────────────────────────────

  predicate HasTry(s: Stmt) {
    match s
    case If(_, body, orelse) => AnyTry(body) || AnyTry(orelse)
    case While(_, body) => AnyTry(body)
    case For(_, _, _, body) => AnyTry(body)
    case Try(_, _, _) => true
    case _ => false
  }

  predicate AnyTry(ss: seq<Stmt>) { ss != [] && (HasTry(ss[0]) || AnyTry(ss[1..])) }

  lemma {:induction false} StmtWithoutTry(s: Stmt, sg: Sigs, a: nat)
    ensures Ranges(s, sg, a) == [] <==> !HasTry(s)
    decreases s, 0
  {
    hide ExprSize, BlockSize, RangesIn, AnyTry;
    match s
    case If(c, body, orelse) =>
      var b := a + ExprSize(c, sg) + 1;
      BlockWithoutTry(body, sg, b);
      BlockWithoutTry(orelse, sg, b + BlockSize(body, sg) + 1);
    case While(c, body) => BlockWithoutTry(body, sg, a + ExprSize(c, sg) + 1);
    case For(_, _, it, body) => BlockWithoutTry(body, sg, a + ExprSize(it, sg) + 15);
    case Try(body, _, _) =>
      var r := TryRange(a, a + BlockSize(body, sg), a + BlockSize(body, sg) + 1);
      assert r in Ranges(s, sg, a);
    case _ =>
  }

  lemma {:induction false} BlockWithoutTry(ss: seq<Stmt>, sg: Sigs, a: nat)
    ensures RangesIn(ss, sg, a) == [] <==> !AnyTry(ss)
    decreases ss, 1
  {
    hide StmtSize, Ranges, HasTry;
    if ss != [] {
      StmtWithoutTry(ss[0], sg, a);
      BlockWithoutTry(ss[1..], sg, a + StmtSize(ss[0], sg));
    }
  }

  /** A compiled declaration has no range exactly when it has no `try`. */
  lemma DeclWithoutTry(ch: Chunk, sg: Sigs, decl: Decl)
    requires DeclCode(ch, sg, decl)
    ensures ch.ranges == [] <==> !AnyTry(decl.body)
  {
    hide StmtsCode, BlockSize, RangesIn, AnyTry;
    BlockWithoutTry(decl.body, sg, BlockSize(R.GuardStmts(decl.guards), sg));
  }

  lemma LinkedWithoutTry(p: Program, src: R.Source, ch: Chunk, decl: Decl)
    requires Linked(p, src) && DeclCode(ch, src.sigs, decl)
    ensures NoRanges(p, ch) <==> !AnyTry(decl.body) && forall i :: 0 <= i < |src.decls| ==> !AnyTry(src.decls[i].body)
  {
    hide DeclCode, AnyTry;
    DeclWithoutTry(ch, src.sigs, decl);
    forall i | 0 <= i < |src.decls|
      ensures p.functions[i].ranges == [] <==> !AnyTry(src.decls[i].body)
    {
      DeclWithoutTry(p.functions[i], src.sigs, src.decls[i]);
    }
  }

  // ─── A route that never ends ───────────────────────────────────────────────

  const TRUE := Lit(BoolLit(true))

  /** `-null`, which raises an error. */
  const FAILING := ExprStmt(Unary(NegOp, Lit(NullLit)))

  const CATCHING := Try([FAILING], "", [])

  /** `while true { try { -null } catch { } }` */
  const ENDLESS := Decl([], [], [While(TRUE, [CATCHING])])

  lemma NegatedNull(src: R.Source, fuel: nat, depth: nat, st: R.St)
    ensures var r := R.EvalExpr(src, fuel, depth, Unary(NegOp, Lit(NullLit)), st);
            r.Stopped? && r.why.Err? && r.why.at == st
  {
    var e := Unary(NegOp, Lit(NullLit));
    var vs: seq<Expr> := [Lit(NullLit)];
    assert vs[1..] == [];
    OneOperand(src, fuel, depth, st);
    assert R.Operands(e, src.sigs) == vs;
    assert R.EvalOperation(src, fuel, depth, e, st) == R.Perform(src, fuel, depth, e, [Null], st);
  }

  lemma OneOperand(src: R.Source, fuel: nat, depth: nat, st: R.St)
    ensures R.EvalList(src, fuel, depth, [Lit(NullLit)], st) == R.Ok([Null], st)
  {
    var es: seq<Expr> := [Lit(NullLit)];
    assert es[1..] == [];
    assert R.EvalList(src, fuel, depth, [], st) == R.Ok([], st);
    assert R.EvalExpr(src, fuel, depth, es[0], st) == R.Ok(Null, st);
    assert [Null] + [] == [Null];
  }

  lemma OneStatement(src: R.Source, fuel: nat, depth: nat, s: Stmt, lc: R.Loop, st: R.St)
    ensures var r := R.ExecStmt(src, fuel, depth, s, lc, st);
            R.ExecBlock(src, fuel, depth, [s], lc, st)
            == R.Shrink(if r.Ok? && r.value.Normal? then R.Ok(R.Normal, r.st) else r, |st.env|)
  {
    hide R.ExecStmt, R.Leave;
    var ss := [s];
    assert ss[1..] == [];
    var r := R.ExecStmt(src, fuel, depth, s, lc, st);
    if r.Ok? {
      assert R.ExecStmts(src, fuel, depth, [], lc, r.st) == R.Ok(R.Normal, r.st);
    }
  }

  lemma FailingFails(src: R.Source, fuel: nat, depth: nat, lc: R.Loop, st: R.St)
    ensures var r := R.ExecBlock(src, fuel, depth, [FAILING], lc, st);
            r.Stopped? && r.why.Err? && r.why.at == st
  {
    hide R.EvalExpr, R.ExecBlock;
    NegatedNull(src, fuel, depth, st);
    OneStatement(src, fuel, depth, FAILING, lc, st);
    assert st.env[..|st.env|] == st.env;
  }

  /** One turn of the loop ends as if nothing had happened, with a new budget. */
  lemma CatchingGoesOn(src: R.Source, fuel: nat, depth: nat, st: R.St)
    ensures var r := R.ExecBlock(src, fuel, depth, [CATCHING], R.InWhile, st);
            r.Ok? && r.value.Normal? && r.st.steps == 0
  {
    hide R.ExecBlock, R.Leave;
    FailingFails(src, fuel, depth, R.NotLast(R.InWhile), st);
    OneStatement(src, fuel, depth, CATCHING, R.InWhile, st);
    var t := R.ExecStmt(src, fuel, depth, CATCHING, R.InWhile, st);
    assert t.Ok? && t.value.Normal? && t.st.steps == 0;
  }

  lemma {:induction false} EndlessLoop(src: R.Source, fuel: nat, depth: nat, st: R.St)
    ensures R.ExecWhile(src, fuel, depth, TRUE, [CATCHING], st) == R.Stopped(R.NoFuel)
  {
    hide R.ExecBlock;
    assert R.EvalExpr(src, fuel, depth, TRUE, st) == R.Ok(Bool(true), st);
    CatchingGoesOn(src, fuel, depth, st);
    if fuel > 0 {
      var st2 := R.ExecBlock(src, fuel, depth, [CATCHING], R.InWhile, st).st;
      EndlessLoop(src, fuel - 1, depth, st2.(steps := 1));
    }
  }

  lemma EndlessHasNoMeaning(src: R.Source, fuel: nat, args: seq<Value>, w: World, inputs: seq<Resumption>)
    ensures Meaning(Interpret(src, fuel, ENDLESS, args, w, inputs)).None?
  {
    hide R.ExecWhile, R.ExecBlock;
    var st := R.St(R.BindParams([], args), w, 0, inputs);
    EndlessLoop(src, fuel, 1, st);
    OneStatement(src, fuel, 1, While(TRUE, [CATCHING]), R.NoLoop, st);
    assert R.GuardStmts([]) == [] && R.ExecStmts(src, fuel, 1, [], R.NoLoop, st) == R.Ok(R.Normal, st);
  }

  /** Every compilation of that route runs for ever, from one caught error to the next. */
  lemma EndlessNeverEnds(p: Program, src: R.Source, ch: Chunk, args: seq<Value>, w: World, inputs: seq<Resumption>,
                         k: nat)
    requires Linked(p, src) && DeclCode(ch, src.sigs, ENDLESS)
    ensures RunsFor(p, Begin(ch, args, w, inputs), k) && Raises(p, Begin(ch, args, w, inputs), k)
    ensures !Ends(p, Begin(ch, args, w, inputs))
  {
    hide Linked, DeclCode, Runs, RunsFor, Raises, Begin, Interpret, Meaning;
    var c := Begin(ch, args, w, inputs);
    EndlessHasNoMeaning(src, k, args, w, inputs);
    CompiledCodeIsCorrect(p, src, ch, ENDLESS, args, w, inputs, k);
    if e: Ending :| Runs(p, c, Halt(e)) {
      var n := EndBoundsRun(p, c, e);
      EndlessHasNoMeaning(src, n, args, w, inputs);
      CompiledCodeIsCorrect(p, src, ch, ENDLESS, args, w, inputs, n);
    }
    EndsIff(p, src, ch, ENDLESS, args, w, inputs);
  }

  /** The compiler accepts it. */
  lemma EndlessIsAccepted(sg: Sigs)
    ensures PlainDecl(ENDLESS, sg) && OkDecl(ENDLESS, sg)
  {
    hide PlainExpr, OkExpr;
    FailingIsOk(sg);
    assert [FAILING][1..] == [] && [CATCHING][1..] == [] && [While(TRUE, [CATCHING])][1..] == [];
    assert R.GuardStmts([]) == [] && ParamLocals([]) == [] && Zeros(0) == [];
    assert PlainStmts([], sg) && PlainStmts([FAILING], sg);
    assert PlainStmt(CATCHING, sg);
    assert PlainStmts([CATCHING], sg);
    assert OkStmts([], [], [], 3, true, sg) && OkStmts([FAILING], [], [], 3, true, sg);
    assert CatchLocals("", []) == [];
    assert OkStmt(CATCHING, [], [], 2, true, sg);
    assert OkStmts([], [], [], 2, true, sg) && OkStmts([CATCHING], [], [], 2, true, sg);
    var loop := While(TRUE, [CATCHING]);
    assert PlainStmt(loop, sg) && OkStmt(loop, [], [], 1, false, sg);
    assert PlainStmts([loop], sg);
    assert OkStmts([], [], [], 1, false, sg) && OkStmts([loop], [], [], 1, false, sg);
  }

  lemma FailingIsOk(sg: Sigs)
    ensures PlainExpr(Unary(NegOp, Lit(NullLit)), sg) && OkExpr(Unary(NegOp, Lit(NullLit)), [], sg)
    ensures PlainExpr(TRUE, sg) && OkExpr(TRUE, [], sg)
  {
    var e := Unary(NegOp, Lit(NullLit));
    var es: seq<Expr> := [Lit(NullLit)];
    assert es[1..] == [];
    assert R.Operands(e, sg) == es;
    assert PlainExpr(es[0], sg) && PlainList([], sg);
    assert PlainList(es, sg);
    assert OkExpr(es[0], [], sg) && OkList([], [], sg);
    assert OkList(es, [], sg);
  }
}
