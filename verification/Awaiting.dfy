/** Which routes can be suspended.  A chunk knows whether it awaits something itself;
  whether it can be suspended depends on the functions it can reach. */
module Awaiting {
  import opened Wrappers
  import opened Values
  import opened Ast
  import opened Bytecode
  import opened Machine
  import opened Layout
  import opened Composition
  import opened Correctness
  import opened Emission
  import R = Reference

  predicate Calls(ch: Chunk, index: nat) {
    exists pc :: 0 <= pc < |ch.code| && ch.code[pc].OpCallFunction? && ch.code[pc].index == index
  }

  /** `reach` holds every function that `ch` can call, directly or not. */
  predicate Closed(p: Program, ch: Chunk, reach: set<nat>) {
    && (forall i: nat :: i < |p.functions| && Calls(ch, i) ==> i in reach)
    && (forall j: nat, i: nat ::
        j in reach && j < |p.functions| && i < |p.functions| && Calls(p.functions[j], i) ==> i in reach)
  }

  predicate Silent(ch: Chunk) { !HasAsync(ch.code) }

  /** The frame runs `ch` or one of the functions of `reach`. */
  predicate Known(p: Program, ch: Chunk, reach: set<nat>, f: Frame) {
    f.chunk == ch || exists i: nat :: i in reach && i < |p.functions| && f.chunk == p.functions[i]
  }

  predicate AllKnown(p: Program, ch: Chunk, reach: set<nat>, s: State) {
    Known(p, ch, reach, s.top) && forall f :: f in s.callers ==> Known(p, ch, reach, f)
  }

  predicate Quiet(p: Program, ch: Chunk, reach: set<nat>) {
    && Closed(p, ch, reach) && Silent(ch)
    && forall i: nat :: i in reach && i < |p.functions| ==> Silent(p.functions[i])
  }

  lemma KnownIsSilent(p: Program, ch: Chunk, reach: set<nat>, f: Frame)
    requires Quiet(p, ch, reach) && Known(p, ch, reach, f)
    ensures Silent(f.chunk)
  {
    hide Silent, Closed;
  }

  lemma CalledIsKnown(p: Program, ch: Chunk, reach: set<nat>, f: Frame, index: nat)
    requires Quiet(p, ch, reach) && Known(p, ch, reach, f) && index < |p.functions| && Calls(f.chunk, index)
    ensures index in reach
  {
    hide Silent, Calls;
  }

  /** The frames stay among those that can be reached. */
  lemma StepStaysKnown(p: Program, ch: Chunk, reach: set<nat>, s: State)
    requires Quiet(p, ch, reach) && AllKnown(p, ch, reach, s)
    ensures !RawStep(p, s).Suspend?
    ensures RawStep(p, s).Next? ==> AllKnown(p, ch, reach, RawStep(p, s).state)
    ensures RawStep(p, s).Fail? ==> AllKnown(p, ch, reach, RawStep(p, s).at)
  {
    hide Perform, Truthy, Quiet, Known;
    KnownIsSilent(p, ch, reach, s.top);
    var raw := RawStep(p, s);
    if s.top.pc < |s.top.chunk.code| {
      var i := s.top.chunk.code[s.top.pc];
      SameChunk(p, ch, reach, s.top, s.top.pc + 1);
      if IsJump(i) {
        SameChunk(p, ch, reach, s.top, i.to);
      } else if i.OpCallFunction? && i.index < |p.functions| {
        CalledIsKnown(p, ch, reach, s.top, i.index);
        FunctionIsKnown(p, ch, reach, i.index);
      }
    }
  }

  lemma SameChunk(p: Program, ch: Chunk, reach: set<nat>, f: Frame, pc: nat)
    requires Known(p, ch, reach, f)
    ensures Known(p, ch, reach, f.(pc := pc))
  {
  }

  lemma FunctionIsKnown(p: Program, ch: Chunk, reach: set<nat>, index: nat)
    requires index in reach && index < |p.functions|
    ensures forall f: Frame :: f.chunk == p.functions[index] ==> Known(p, ch, reach, f)
  {
  }

  lemma {:induction false} RaiseStaysKnown(p: Program, ch: Chunk, reach: set<nat>, s: State, error: string,
                                           inputs: seq<Resumption>)
    requires AllKnown(p, ch, reach, s)
    ensures var c := Raise(s, error, inputs);
            (c.Run? ==> AllKnown(p, ch, reach, c.state)) && (c.Halt? ==> c.end.Failed?)
    decreases |s.callers|
  {
    hide Known, FindHandler;
    if FindHandler(s.top.chunk.ranges, s.top.pc as int - 1, NoHandler).HandlerAt? {
      SameChunk(p, ch, reach, s.top, FindHandler(s.top.chunk.ranges, s.top.pc as int - 1, NoHandler).range.handler);
    } else if s.callers != [] {
      var n := |s.callers| - 1;
      RaiseStaysKnown(p, ch, reach, State(s.callers[n], s.callers[..n], Trunc(s.stack, s.top.stackBase),
                                          Trunc(s.locals, s.top.localsBase), 0, s.world), error, inputs);
    }
  }

  /** A configuration that is running known code, or ended without waiting. */
  predicate Uninterrupted(p: Program, ch: Chunk, reach: set<nat>, c: Cfg) {
    match c
    case Run(s, _) => AllKnown(p, ch, reach, s)
    case Halt(end) => !end.Waiting?
  }

  lemma {:induction false} RunIsUninterrupted(p: Program, ch: Chunk, reach: set<nat>, tr: seq<Cfg>, i: nat)
    requires Quiet(p, ch, reach) && IsRun(p, tr) && Uninterrupted(p, ch, reach, tr[0]) && i < |tr|
    ensures Uninterrupted(p, ch, reach, tr[i])
  {
    hide Quiet, RawStep, Raise, AllKnown;
    if i > 0 {
      RunIsUninterrupted(p, ch, reach, tr, i - 1);
      assert StepAt(p, tr, i - 1);
      var c := tr[i - 1];
      StepStaysKnown(p, ch, reach, c.state);
      if RawStep(p, c.state).Fail? {
        RaiseStaysKnown(p, ch, reach, RawStep(p, c.state).at, RawStep(p, c.state).error, c.inputs);
      }
    }
  }

  /** A route is never suspended when neither it nor any function it can reach awaits
    anything: looking at the route's own chunk is not enough. */
  lemma CannotSuspend(p: Program, ch: Chunk, reach: set<nat>, args: seq<Value>, w: World, inputs: seq<Resumption>,
                      id: nat, awaited: seq<Value>, w1: World)
    requires Closed(p, ch, reach) && !HasAsync(ch.code)
    requires forall i: nat :: i in reach && i < |p.functions| ==> !HasAsync(p.functions[i].code)
    ensures !Runs(p, Run(Start(ch, args, w), inputs), Halt(Waiting(id, awaited, w1)))
  {
    hide Machine.Step, Closed, HasAsync;
    var first := Run(Start(ch, args, w), inputs);
    if Runs(p, first, Halt(Waiting(id, awaited, w1))) {
      var tr: seq<Cfg> :| IsRun(p, tr) && tr[0] == first && tr[|tr| - 1] == Halt(Waiting(id, awaited, w1));
      RunIsUninterrupted(p, ch, reach, tr, |tr| - 1);
    }
  }

  // ─── The flag of a chunk is not enough ─────────────────────────────────────

  /** `return f()`. */
  const CALLING := Decl([], [], [Return(Option.Some(Call(Ident("f"), [])))])

  /** `return await sleep()`. */
  const SLEEPING := Decl([], [], [Return(Option.Some(Await(Call(Ident("sleep"), []))))])

  /** A program whose one function `f` awaits the builtin `sleep`, number `id`. */
  function Sleepy(id: nat, lenId: nat, host: Host): R.Source {
    R.Source(Sigs(map["sleep" := NativeDef(id, 0, 0, true)], map["f" := FnSig(0, 0, [])], lenId), [SLEEPING], host)
  }

  const CALLER := [OpCallFunction(0, 0), OpReturn, OpReturnNull]

  function Sleeper(id: nat): seq<Instr> { [OpCallAsync(id, 0), OpReturn, OpReturnNull] }

  lemma CallAlone(ch: Chunk, sg: Sigs, e: Expr)
    requires R.IsCall(e) && R.Operands(e, sg) == []
    ensures ExprSize(e, sg) == 1 && ExprCode(ch, sg, e, [], 0) == HasOperation(ch, 0, sg, e, [])
  {
    hide HasOperation;
    assert ListSize([], sg) == 0 && ListCode(ch, sg, [], [], 0);
  }

  lemma ReturnAlone(ch: Chunk, sg: Sigs, e: Expr)
    ensures var body := [Return(Option.Some(e))];
            && BlockSize(body, sg) == ExprSize(e, sg) + 1 && RangesIn(body, sg, 0) == []
            && (StmtsCode(ch, sg, body, [], 0, NoTargets)
                <==> ExprCode(ch, sg, e, [], 0) && Has(ch, ExprSize(e, sg), OpReturn))
  {
    hide ExprCode, ExprSize, Has;
    var body := [Return(Option.Some(e))];
    assert body[1..] == [];
    assert StmtSize(body[0], sg) == ExprSize(e, sg) + 1;
    assert StmtCode(ch, sg, body[0], [], 0, NoTargets)
           <==> ExprCode(ch, sg, e, [], 0) && Has(ch, ExprSize(e, sg), OpReturn);
  }

  lemma NoGuardsNoParams(ch: Chunk, sg: Sigs, body: seq<Stmt>)
    ensures DeclCode(ch, sg, Decl([], [], body))
            <==> && StmtsCode(ch, sg, body, [], 0, NoTargets) && Has(ch, BlockSize(body, sg), OpReturnNull)
                 && |ch.code| == BlockSize(body, sg) + 1 && ch.ranges == RangesIn(body, sg, 0)
  {
    hide StmtCode, StmtSize, Ranges;
    assert R.GuardStmts([]) == [] && ParamLocals([]) == [];
  }

  /** `return e`, where `e` is a call without arguments, takes three instructions. */
  lemma ReturnedCall(ch: Chunk, sg: Sigs, e: Expr)
    requires R.IsCall(e) && R.Operands(e, sg) == []
    ensures DeclCode(ch, sg, Decl([], [], [Return(Option.Some(e))]))
            <==> |ch.code| == 3 && HasOperation(ch, 0, sg, e, []) && ch.code[1] == OpReturn
                 && ch.code[2] == OpReturnNull
                 && ch.ranges == []
  {
    hide HasOperation, DeclCode, StmtsCode, ExprCode, ExprSize, BlockSize, RangesIn;
    CallAlone(ch, sg, e);
    ReturnAlone(ch, sg, e);
    NoGuardsNoParams(ch, sg, [Return(Option.Some(e))]);
  }

  lemma CallsF(ch: Chunk, id: nat, lenId: nat, host: Host)
    ensures var f, sg := Call(Ident("f"), []), Sleepy(id, lenId, host).sigs;
            && R.IsCall(f) && R.Operands(f, sg) == []
            && (HasOperation(ch, 0, sg, f, []) <==> Has(ch, 0, OpCallFunction(0, 0)))
  {
  }

  lemma AwaitsSleep(ch: Chunk, id: nat, lenId: nat, host: Host)
    ensures var s, sg := Await(Call(Ident("sleep"), [])), Sleepy(id, lenId, host).sigs;
            && R.IsCall(s) && R.Operands(s, sg) == []
            && (HasOperation(ch, 0, sg, s, []) <==> Has(ch, 0, OpCallAsync(id, 0)))
  {
  }

  /** The code of both declarations. */
  lemma CallingCode(id: nat, lenId: nat, host: Host, ch: Chunk)
    ensures DeclCode(ch, Sleepy(id, lenId, host).sigs, CALLING) <==> ch.code == CALLER && ch.ranges == []
  {
    hide DeclCode, HasOperation, R.Operands, Sleepy;
    CallsF(ch, id, lenId, host);
    ReturnedCall(ch, Sleepy(id, lenId, host).sigs, Call(Ident("f"), []));
  }

  lemma SleepingCode(id: nat, lenId: nat, host: Host, ch: Chunk)
    ensures DeclCode(ch, Sleepy(id, lenId, host).sigs, SLEEPING) <==> ch.code == Sleeper(id) && ch.ranges == []
  {
    hide DeclCode, HasOperation, R.Operands, Sleepy;
    AwaitsSleep(ch, id, lenId, host);
    ReturnedCall(ch, Sleepy(id, lenId, host).sigs, Await(Call(Ident("sleep"), [])));
  }

  lemma CallerCalls(p: Program, ch: Chunk, w: World)
    requires ch.code == CALLER && p.functions != []
    ensures var d := Machine.Step(p, Begin(ch, [], w, []));
            && d.Run? && d.inputs == [] && d.state.world == w
            && d.state.top.chunk == p.functions[0] && d.state.top.pc == 0
  {
    hide Perform;
  }

  lemma SleeperSleeps(p: Program, s: State, id: nat)
    requires s.top.chunk.code == Sleeper(id) && s.top.pc == 0
    ensures Machine.Step(p, Run(s, [])) == Halt(Waiting(id, [], s.world))
  {
    hide Perform;
    assert s.stack[|s.stack|..] == [];
  }

  /** A route whose chunk says that it does not await is suspended all the same, by a
    function it calls: so it is with every compilation of these two declarations. */
  lemma SilentChunkSuspends(p: Program, ch: Chunk, id: nat, lenId: nat, host: Host, w: World)
    requires Linked(p, Sleepy(id, lenId, host)) && DeclCode(ch, Sleepy(id, lenId, host).sigs, CALLING)
    ensures !HasAsync(ch.code)
    ensures Runs(p, Begin(ch, [], w, []), Halt(Waiting(id, [], w)))
  {
    hide Runs, DeclCode, Machine.Step;
    CallingCode(id, lenId, host, ch);
    SleepingCode(id, lenId, host, p.functions[0]);
    var c := Begin(ch, [], w, []);
    var d := Machine.Step(p, c);
    CallerCalls(p, ch, w);
    SleeperSleeps(p, d.state, id);
    RunsStep(p, c);
    RunsStep(p, d);
    RunsTrans(p, c, d, Machine.Step(p, d));
  }

  /** There are such compilations. */
  lemma SleepyIsCompiled(id: nat, lenId: nat, host: Host)
    ensures Linked(Program([Chunk(Sleeper(id), [], [], 0, true)], host, lenId), Sleepy(id, lenId, host))
    ensures DeclCode(Chunk(CALLER, [], [], 0, false), Sleepy(id, lenId, host).sigs, CALLING)
  {
    hide DeclCode;
    CallingCode(id, lenId, host, Chunk(CALLER, [], [], 0, false));
    SleepingCode(id, lenId, host, Chunk(Sleeper(id), [], [], 0, true));
  }
}
