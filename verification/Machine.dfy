/** The virtual machine, one instruction at a time.  `RawStep` is one turn of the
  interpreter loop; `Step` adds what surrounds the loop: an error looks for a
  handler frame by frame, and a suspended run goes on with the next awaited value. */
module Machine {
  import opened Values
  import opened Bytecode

  datatype Program = Program(functions: seq<Chunk>, host: Host, lenId: nat)

  datatype Frame = Frame(chunk: Chunk, pc: nat, localsBase: nat, stackBase: nat)

  /** The machine between two instructions: the running frame, the ones waiting for
    it (innermost last), one operand stack and one array of variables for all. */
  datatype State = State(
    top: Frame,
    callers: seq<Frame>,
    stack: seq<Value>,
    locals: seq<Value>,
    steps: nat,
    world: World)

  /** One turn of the loop.  `Crash` is what the source leaves undefined: an index
    out of range, or a pop from an empty stack. */
  datatype Raw =
    | Next(state: State)
    | Fail(error: string, at: State)
    | Suspend(id: nat, args: seq<Value>, asleep: State)
    | Finish(value: Value, world: World)
    | Crash

  function Trunc<T>(s: seq<T>, n: nat): seq<T> { if n <= |s| then s[..n] else s }

  function Nulls(n: nat): (r: seq<Value>)
    ensures |r| == n
  {
    seq(n, _ => Null)
  }

  function Push(s: State, v: Value): State { s.(stack := s.stack + [v]) }

  function Goto(s: State, pc: nat): State { s.(top := s.top.(pc := pc)) }

  /** The running frame ends with value `v`. */
  function Leave(s: State, v: Value): Raw {
    if s.callers == [] then Finish(v, s.world)
    else
      var n := |s.callers| - 1;
      Next(State(s.callers[n], s.callers[..n], Trunc(s.stack, s.top.stackBase) + [v],
                 Trunc(s.locals, s.top.localsBase), s.steps, s.world))
  }

  function CallFunction(p: Program, s: State, index: nat, argc: nat): Raw {
    if index >= |p.functions| then Fail(NO_FUNCTION_ERROR, s)
    else if |s.callers| + 1 >= MAX_FRAMES then Fail(RECURSION_ERROR, s)
    else
      var callee := p.functions[index];
      if |s.stack| < argc || callee.numLocals < argc then Crash
      else
        var n := |s.stack| - argc;
        Next(State(Frame(callee, 0, |s.locals|, n), s.callers + [s.top], s.stack[..n],
                   s.locals + s.stack[n..] + Nulls(callee.numLocals - argc), s.steps, s.world))
  }

  function Operate(p: Program, s: State, i: Instr): Raw
    requires IsOperation(i)
  {
    if |s.stack| < Arity(i) then Crash
    else
      var n := |s.stack| - Arity(i);
      match Perform(p.host, p.lenId, s.top.chunk, i, s.stack[n..], s.world)
      case Good(v, w) => Next(s.(stack := s.stack[..n] + [v], world := w))
      case Bad(e, w) => Fail(e, s.(stack := s.stack[..n], world := w))
  }

  /** Runs instruction `i` in state `s`, whose program counter is already past it. */
  function Exec(p: Program, s: State, i: Instr): Raw {
    if IsOperation(i) then Operate(p, s, i)
    else
      var n := |s.stack|;
      match i
      case OpConst(k) => if k < |s.top.chunk.constants| then Next(Push(s, s.top.chunk.constants[k])) else Crash
      case OpLoadLocal(slot) =>
        if s.top.localsBase + slot < |s.locals| then Next(Push(s, s.locals[s.top.localsBase + slot])) else Crash
      case OpStoreLocal(slot) =>
        if n > 0 && s.top.localsBase + slot < |s.locals| then
          Next(s.(stack := s.stack[..n - 1], locals := s.locals[s.top.localsBase + slot := s.stack[n - 1]]))
        else Crash
      case OpPop => if n > 0 then Next(s.(stack := s.stack[..n - 1])) else Crash
      case OpJump(to) =>
        if to <= s.top.pc then
          if s.steps + 1 > STEP_LIMIT then Fail(STEP_LIMIT_ERROR, s.(steps := s.steps + 1))
          else Next(Goto(s, to).(steps := s.steps + 1))
        else Next(Goto(s, to))
      case OpJumpIfFalse(to) =>
        if n == 0 then Crash
        else
          var s1 := s.(stack := s.stack[..n - 1]);
          Next(if Truthy(p.host, s.stack[n - 1], s.world) then s1 else Goto(s1, to))
      case OpJumpIfFalsePeek(to) =>
        if n == 0 then Crash
        else Next(if Truthy(p.host, s.stack[n - 1], s.world) then s.(stack := s.stack[..n - 1]) else Goto(s, to))
      case OpJumpIfTruePeek(to) =>
        if n == 0 then Crash
        else Next(if Truthy(p.host, s.stack[n - 1], s.world) then Goto(s, to) else s.(stack := s.stack[..n - 1]))
      case OpCallFunction(index, argc) => CallFunction(p, s, index, argc)
      case OpCallAsync(id, argc) =>
        if n < argc then Crash else Suspend(id, s.stack[n - argc..], s.(stack := s.stack[..n - argc]))
      case OpReturn => if n > 0 then Leave(s.(stack := s.stack[..n - 1]), s.stack[n - 1]) else Crash
      case OpReturnNull => Leave(s, Null)
  }

  /** One turn of `run_until_error`.  A chunk that runs off its end returns null. */
  function RawStep(p: Program, s: State): Raw {
    if s.top.pc >= |s.top.chunk.code| then Leave(s, Null)
    else Exec(p, Goto(s, s.top.pc + 1), s.top.chunk.code[s.top.pc])
  }

  // ─── The whole run ─────────────────────────────────────────────────────────

  datatype Ending =
    | Done(value: Value, world: World)
    | Failed(error: string, world: World)
    | Waiting(id: nat, args: seq<Value>, world: World)
    | Crashed

  /** A run that has `inputs` left to be resumed with. */
  datatype Cfg = Run(state: State, inputs: seq<Resumption>) | Halt(end: Ending)

  /** Unwinds from `s`, whose program counter is past the failing instruction: the
    first frame from the top with a `try` around its current instruction goes on at
    the `catch`, the ones above it are dropped.  The step counter starts again. */
  function Raise(s: State, error: string, inputs: seq<Resumption>): Cfg
    decreases |s.callers|
  {
    match FindHandler(s.top.chunk.ranges, s.top.pc as int - 1, NoHandler)
    case HandlerAt(r) =>
      var (v, w) := ErrorValue(error, s.world);
      Run(State(s.top.(pc := r.handler), s.callers, Trunc(s.stack, s.top.stackBase) + [v], s.locals, 0, w), inputs)
    case NoHandler =>
      if s.callers == [] then Halt(Failed(error, s.world))
      else
        var n := |s.callers| - 1;
        Raise(State(s.callers[n], s.callers[..n], Trunc(s.stack, s.top.stackBase),
                    Trunc(s.locals, s.top.localsBase), 0, s.world), error, inputs)
  }

  /** `resume`: the awaited value takes the place of the `await` expression. */
  function Wake(s: State, r: Resumption): State {
    s.(stack := s.stack + [r.value], world := r.world, steps := 0)
  }

  function Follow(raw: Raw, inputs: seq<Resumption>): Cfg {
    match raw
    case Next(s) => Run(s, inputs)
    case Fail(e, s) => Raise(s, e, inputs)
    case Suspend(id, args, s) =>
      if inputs == [] then Halt(Waiting(id, args, s.world)) else Run(Wake(s, inputs[0]), inputs[1..])
    case Finish(v, w) => Halt(Done(v, w))
    case Crash => Halt(Crashed)
  }

  function Step(p: Program, c: Cfg): Cfg
    requires c.Run?
  {
    Follow(RawStep(p, c.state), c.inputs)
  }

  /** `start`: the parameters fill the first slots, the other slots are null. */
  function Start(ch: Chunk, args: seq<Value>, w: World): State {
    State(Frame(ch, 0, 0, 0), [], [],
          if |args| <= ch.numLocals then args + Nulls(ch.numLocals - |args|) else args[..ch.numLocals], 0, w)
  }

  // ─── Runs ──────────────────────────────────────────────────────────────────

  predicate StepAt(p: Program, tr: seq<Cfg>, i: nat)
    requires i + 1 < |tr|
  {
    tr[i].Run? && tr[i + 1] == Step(p, tr[i])
  }

  /** `tr` is a run: every configuration but the last steps to the next one. */
  ghost predicate IsRun(p: Program, tr: seq<Cfg>) {
    tr != [] && forall i: nat {:trigger StepAt(p, tr, i)} :: i + 1 < |tr| ==> StepAt(p, tr, i)
  }

  /** `c` reaches `d`. */
  ghost predicate Runs(p: Program, c: Cfg, d: Cfg) {
    exists tr: seq<Cfg> {:trigger IsRun(p, tr)} :: IsRun(p, tr) && tr[0] == c && tr[|tr| - 1] == d
  }

  /** `c` can make `k` steps, at least, without coming to an end. */
  ghost predicate RunsFor(p: Program, c: Cfg, k: nat) {
    exists tr: seq<Cfg> {:trigger IsRun(p, tr)} :: IsRun(p, tr) && |tr| > k && tr[0] == c && tr[|tr| - 1].Run?
  }

  lemma Join(p: Program, a: seq<Cfg>, b: seq<Cfg>)
    requires IsRun(p, a) && IsRun(p, b) && a[|a| - 1] == b[0]
    ensures IsRun(p, a + b[1..])
  {
    hide Step;
    var tr := a + b[1..];
    forall i: nat | i + 1 < |tr|
      ensures StepAt(p, tr, i)
    {
      if i + 1 < |a| {
        assert StepAt(p, a, i);
      } else {
        assert StepAt(p, b, i + 1 - |a|);
      }
    }
  }

  lemma RunsRefl(p: Program, c: Cfg)
    ensures Runs(p, c, c)
  {
    hide Step;
    assert IsRun(p, [c]);
  }

  lemma RunsTrans(p: Program, c: Cfg, d: Cfg, e: Cfg)
    requires Runs(p, c, d) && Runs(p, d, e)
    ensures Runs(p, c, e)
  {
    hide Step, StepAt;
    var a: seq<Cfg> :| IsRun(p, a) && a[0] == c && a[|a| - 1] == d;
    var b: seq<Cfg> :| IsRun(p, b) && b[0] == d && b[|b| - 1] == e;
    Join(p, a, b);
  }

  lemma RunsStep(p: Program, c: Cfg)
    requires c.Run?
    ensures Runs(p, c, Step(p, c))
  {
    hide Step;
    var tr := [c, Step(p, c)];
    assert StepAt(p, tr, 0);
    assert IsRun(p, tr);
  }

  /** A run that goes on after `d` goes on after everything before it. */
  lemma RunsForTrans(p: Program, c: Cfg, d: Cfg, k: nat)
    requires Runs(p, c, d) && RunsFor(p, d, k)
    ensures RunsFor(p, c, k)
  {
    hide Step, StepAt;
    var a: seq<Cfg> :| IsRun(p, a) && a[0] == c && a[|a| - 1] == d;
    var b: seq<Cfg> :| IsRun(p, b) && |b| > k && b[0] == d && b[|b| - 1].Run?;
    Join(p, a, b);
  }

  lemma RunsForStep(p: Program, c: Cfg, k: nat)
    requires c.Run? && RunsFor(p, Step(p, c), k)
    ensures RunsFor(p, c, k + 1)
  {
    hide Step;
    var b: seq<Cfg> :| IsRun(p, b) && |b| > k && b[0] == Step(p, c) && b[|b| - 1].Run?;
    var a := [c, Step(p, c)];
    assert StepAt(p, a, 0);
    Join(p, a, b);
  }

  // ─── Counting errors ───────────────────────────────────────────────────────

  /** From `c` the machine comes to more than `k` errors, caught ones or, as the last, one
    that nothing catches. */
  ghost predicate Raises(p: Program, c: Cfg, k: nat)
    decreases k
  {
    exists d: Cfg {:trigger Errs(p, c, d)} :: Errs(p, c, d) && (k == 0 || Raises(p, Step(p, d), k - 1))
  }

  /** `c` reaches `d`, whose instruction raises an error. */
  ghost predicate Errs(p: Program, c: Cfg, d: Cfg) { Runs(p, c, d) && d.Run? && RawStep(p, d.state).Fail? }

  lemma RaisesTrans(p: Program, c: Cfg, d: Cfg, k: nat)
    requires Runs(p, c, d) && Raises(p, d, k)
    ensures Raises(p, c, k)
  {
    hide Runs, RawStep, Step;
    var e: Cfg :| Errs(p, d, e) && (k == 0 || Raises(p, Step(p, e), k - 1));
    RunsTrans(p, c, d, e);
    assert Errs(p, c, e);
  }

  /** Every error from `d` on is one from `c` on, behind `n` others. */
  ghost predicate RaisedBefore(p: Program, c: Cfg, d: Cfg, n: nat) {
    forall k: nat :: Raises(p, d, k) ==> Raises(p, c, k + n)
  }

  lemma NothingRaised(p: Program, c: Cfg)
    ensures RaisedBefore(p, c, c, 0)
  {
  }

  lemma OneMoreRaised(p: Program, first: Cfg, c: Cfg, d: Cfg, n: nat)
    requires RaisedBefore(p, first, c, n) && Errs(p, c, d) && d.Run?
    ensures Raises(p, first, n) && RaisedBefore(p, first, Step(p, d), n + 1)
  {
    hide Errs, Step, Raises;
    OneMoreError(p, c, d, 0);
    forall k: nat | Raises(p, Step(p, d), k)
      ensures Raises(p, first, k + (n + 1))
    {
      OneMoreError(p, c, d, k);
      assert k + 1 + n == k + (n + 1);
    }
    assert 0 + n == n;
  }

  lemma OneMoreError(p: Program, c: Cfg, d: Cfg, k: nat)
    requires Errs(p, c, d) && d.Run?
    ensures Raises(p, c, 0)
    ensures Raises(p, Step(p, d), k) ==> Raises(p, c, k + 1)
  {
    hide Errs, Step;
  }

  /** Every error takes a step. */
  lemma {:induction false} ErrorsTakeSteps(p: Program, c: Cfg, k: nat)
    requires Raises(p, c, k)
    ensures RunsFor(p, c, k)
    decreases k
  {
    hide Runs, RunsFor, RawStep, Step;
    var d: Cfg :| Errs(p, c, d) && (k == 0 || Raises(p, Step(p, d), k - 1));
    if k == 0 {
      StaysFor(p, d);
    } else {
      ErrorsTakeSteps(p, Step(p, d), k - 1);
      RunsForStep(p, d, k - 1);
    }
    RunsForTrans(p, c, d, k);
  }

  lemma StaysFor(p: Program, d: Cfg)
    requires d.Run?
    ensures RunsFor(p, d, 0)
  {
    hide Step;
    assert IsRun(p, [d]);
  }

  /** Two runs from one configuration agree as far as both go. */
  lemma {:induction false} RunsAgree(p: Program, a: seq<Cfg>, b: seq<Cfg>, i: nat)
    requires IsRun(p, a) && IsRun(p, b) && a[0] == b[0] && i < |a| && i < |b|
    ensures a[i] == b[i]
  {
    hide Step;
    if i > 0 {
      RunsAgree(p, a, b, i - 1);
      assert StepAt(p, a, i - 1) && StepAt(p, b, i - 1);
    }
  }

  /** The machine is deterministic: it has one end. */
  lemma EndIsUnique(p: Program, c: Cfg, x: Ending, y: Ending)
    requires Runs(p, c, Halt(x)) && Runs(p, c, Halt(y))
    ensures x == y
  {
    hide Step;
    var a: seq<Cfg> :| IsRun(p, a) && a[0] == c && a[|a| - 1] == Halt(x);
    var b: seq<Cfg> :| IsRun(p, b) && b[0] == c && b[|b| - 1] == Halt(y);
    var n := if |a| <= |b| then |a| - 1 else |b| - 1;
    RunsAgree(p, a, b, n);
    assert n + 1 < |a| ==> StepAt(p, a, n);
    assert n + 1 < |b| ==> StepAt(p, b, n);
  }

  /** A run that ends does not run for ever. */
  lemma EndBoundsRun(p: Program, c: Cfg, x: Ending) returns (n: nat)
    requires Runs(p, c, Halt(x))
    ensures !RunsFor(p, c, n)
  {
    hide Step;
    var a: seq<Cfg> :| IsRun(p, a) && a[0] == c && a[|a| - 1] == Halt(x);
    n := |a|;
    if RunsFor(p, c, n) {
      var b: seq<Cfg> :| IsRun(p, b) && |b| > n && b[0] == c && b[|b| - 1].Run?;
      assert StepAt(p, b, n - 1);
      RunsAgree(p, a, b, n - 1);
      assert false;
    }
  }
}
