/** The virtual machine as it runs: frames, one operand stack and one array of slots,
  all updated in place. */
module Vm {
  import opened Wrappers
  import opened Values
  import opened Ast
  import opened Bytecode
  import opened Machine
  import opened Layout
  import opened Composition
  import opened Discipline
  import opened Termination
  import opened Correctness
  import opened Endings
  import R = Reference

  datatype Result = DoneWith(value: Value) | ErrorWith(error: string) | Suspended(id: nat, args: seq<Value>)

  class VM {
    const program: Program
    var frames: seq<Frame>     // the running one is the last
    var stack: seq<Value>
    var locals: seq<Value>
    var world: World

    ghost function Now(steps: nat): State
      requires frames != []
      reads this
    {
      State(frames[|frames| - 1], frames[..|frames| - 1], stack, locals, steps, world)
    }

    /** The fields are those of state `s`. */
    ghost predicate Shows(s: State)
      reads this
    {
      frames == s.callers + [s.top] && stack == s.stack && locals == s.locals && world == s.world
    }

    constructor (p: Program)
      ensures program == p && frames == [] && stack == [] && locals == []
    {
      program := p;
      frames, stack, locals, world := [], [], [], World([], []);
    }

    method Push(v: Value)
      modifies `stack
      ensures stack == old(stack) + [v]
    {
      stack := stack + [v];
    }

    method Pop() returns (v: Value)
      requires stack != []
      modifies `stack
      ensures stack == old(stack)[..|old(stack)| - 1] && v == old(stack)[|old(stack)| - 1]
    {
      v := stack[|stack| - 1];
      stack := stack[..|stack| - 1];
    }

    /** Takes `n` operands, in the order they were pushed. */
    method PopMany(n: nat) returns (args: seq<Value>)
      requires n <= |stack|
      modifies `stack
      ensures stack == old(stack)[..|old(stack)| - n] && args == old(stack)[|old(stack)| - n..]
    {
      args := [];
      var i := 0;
      while i < n
        invariant 0 <= i <= n && stack == old(stack)[..|old(stack)| - i] && args == old(stack)[|old(stack)| - i..]
      {
        var v := Pop();
        args := [v] + args;
        i := i + 1;
      }
    }

    method Goto(pc: nat)
      requires frames != []
      modifies `frames
      ensures frames == old(frames)[..|old(frames)| - 1] + [old(frames)[|old(frames)| - 1].(pc := pc)]
    {
      frames := frames[..|frames| - 1] + [frames[|frames| - 1].(pc := pc)];
    }

    // ─── One turn of the loop ────────────────────────────────────────────────

    /** What a turn does is what the machine's step says. */
    ghost predicate Did(raw: Raw, steps: nat, out: Option<Result>)
      reads this
    {
      match raw
      case Next(t) => out.None? && Shows(t) && steps == t.steps
      case Fail(e, t) => out == Some(ErrorWith(e)) && Shows(t)
      case Suspend(id, args, t) => out == Some(Suspended(id, args)) && Shows(t)
      case Finish(v, w) => out == Some(DoneWith(v)) && world == w
      case Crash => false
    }

    method Turn(steps: nat) returns (steps1: nat, out: Option<Result>)
      requires frames != [] && RawStep(program, Now(steps)) != Crash
      modifies this
      ensures Did(RawStep(program, old(Now(steps))), steps1, out)
    {
      hide Operate, CallFunction, Perform, Truthy, Leave;
      steps1, out := steps, None;
      ghost var s := Now(steps);
      var f := frames[|frames| - 1];
      if f.pc >= |f.chunk.code| {
        out := LeaveFrame(Null, s);
        return;
      }
      var i := f.chunk.code[f.pc];
      Goto(f.pc + 1);
      ghost var t := Machine.Goto(s, f.pc + 1);
      if IsOperation(i) {
        out := DoOperation(i, t);
      } else if IsJump(i) {
        steps1, out := DoJump(i, steps, t);
      } else if i.OpCallFunction? {
        out := EnterFunction(i.index, i.argc, t);
      } else if i.OpCallAsync? {
        var args := PopMany(i.argc);
        out := Some(Suspended(i.id, args));
      } else if i.OpReturn? {
        var v := Pop();
        out := LeaveFrame(v, t.(stack := stack));
      } else if i.OpReturnNull? {
        out := LeaveFrame(Null, t);
      } else {
        DoLocal(i, t);
      }
    }

    /** The instructions that only move values between the constants, the slots and the
      stack. */
    method DoLocal(i: Instr, ghost s: State)
      requires i.OpConst? || i.OpLoadLocal? || i.OpStoreLocal? || i.OpPop?
      requires frames != [] && Shows(s) && Exec(program, s, i) != Crash
      modifies `stack, `locals
      ensures Did(Exec(program, s, i), s.steps, None)
    {
      var f := frames[|frames| - 1];
      match i
      case OpConst(k) => Push(f.chunk.constants[k]);
      case OpLoadLocal(slot) => Push(locals[f.localsBase + slot]);
      case OpStoreLocal(slot) =>
        var v := Pop();
        locals := locals[f.localsBase + slot := v];
      case OpPop => var _ := Pop();
    }

    /** Only a jump back is counted: without one there is no endless loop. */
    method DoJump(i: Instr, steps0: nat, ghost s: State) returns (steps: nat, out: Option<Result>)
      requires IsJump(i) && frames != [] && Shows(s) && steps0 == s.steps && Exec(program, s, i) != Crash
      modifies `stack, `frames
      ensures Did(Exec(program, s, i), steps, out)
    {
      hide Truthy;
      steps, out := steps0, None;
      match i
      case OpJump(to) =>
        if to <= frames[|frames| - 1].pc {
          steps := steps + 1;
          if steps > STEP_LIMIT {
            return steps, Some(ErrorWith(STEP_LIMIT_ERROR));
          }
        }
        Goto(to);
      case OpJumpIfFalse(to) =>
        var v := Pop();
        if !Truthy(program.host, v, world) {
          Goto(to);
        }
      case OpJumpIfFalsePeek(to) =>
        if !Truthy(program.host, stack[|stack| - 1], world) {
          Goto(to);
        } else {
          var _ := Pop();
        }
      case OpJumpIfTruePeek(to) =>
        if Truthy(program.host, stack[|stack| - 1], world) {
          Goto(to);
        } else {
          var _ := Pop();
        }
    }

    method DoOperation(i: Instr, ghost s: State) returns (out: Option<Result>)
      requires IsOperation(i) && frames != [] && Shows(s) && Operate(program, s, i) != Crash
      modifies this
      ensures Did(Operate(program, s, i), s.steps, out)
    {
      hide Perform;
      out := None;
      var args := PopMany(Arity(i));
      match Perform(program.host, program.lenId, frames[|frames| - 1].chunk, i, args, world)
      case Good(v, w) =>
        world := w;
        Push(v);
      case Bad(e, w) =>
        world := w;
        out := Some(ErrorWith(e));
    }

    /** A new frame: the arguments are its first slots, the others are null. */
    method EnterFunction(index: nat, argc: nat, ghost s: State) returns (out: Option<Result>)
      requires frames != [] && Shows(s) && CallFunction(program, s, index, argc) != Crash
      modifies this
      ensures Did(CallFunction(program, s, index, argc), s.steps, out)
    {
      if index >= |program.functions| {
        return Some(ErrorWith(NO_FUNCTION_ERROR));
      }
      if |frames| >= MAX_FRAMES {
        return Some(ErrorWith(RECURSION_ERROR));
      }
      var callee := program.functions[index];
      var args := PopMany(argc);
      var f := Frame(callee, 0, |locals|, |stack|);
      locals := locals + args + Nulls(callee.numLocals - argc);
      frames := frames + [f];
      out := None;
    }

    method LeaveFrame(v: Value, ghost s: State) returns (out: Option<Result>)
      requires frames != [] && Shows(s)
      modifies this
      ensures Did(Leave(s, v), s.steps, out)
    {
      var f := frames[|frames| - 1];
      frames := frames[..|frames| - 1];
      if frames == [] {
        return Some(DoneWith(v));
      }
      stack, locals := Trunc(stack, f.stackBase), Trunc(locals, f.localsBase);
      Push(v);
      out := None;
    }

    // ─── A stretch ───────────────────────────────────────────────────────────

    /** Runs until something is returned, fails or has to be awaited.  It ends, because
      the frames are those of compiled code. */
    method RunUntilError(ghost src: R.Source, ghost ds: seq<Decl>, ghost b: nat)
      returns (out: Result, ghost last: State, ghost n: nat)
      requires frames != [] && Linked(program, src) && Disciplined(src, Now(0), ds) && Below(program, Now(0), b)
      modifies this
      ensures StillRunning(program, old(Now(0)), n) && last == RunOn(program, old(Now(0)), n)
      ensures (exists ds1 :: Disciplined(src, last, ds1)) && Below(program, last, b)
      ensures !RawStep(program, last).Next? && Did(RawStep(program, last), 0, Some(out))
    {
      hide *;
      ghost var first := Now(0);
      ghost var ds1 := ds;
      var steps := 0;
      n, last := 0, first;
      NowIs(0);
      StretchBegins(program, first, src, ds);
      while true
        invariant frames != [] && Now(steps) == last && Disciplined(src, last, ds1) && Below(program, last, b)
        invariant StillRunning(program, first, n) && last == RunOn(program, first, n)
        invariant last.steps <= STEP_LIMIT && |last.callers| < MAX_FRAMES
        decreases Measure(b, last)
      {
        NowIs(steps);
        RawStepKeepsDiscipline(program, src, last, ds1);
        KeptIsNoCrash(src, last, ds1, RawStep(program, last));
        var steps1, result := Turn(steps);
        if result.Some? {
          out := result.value;
          DidEnds(RawStep(program, last), steps1, out);
          return;
        }
        ShowsIs(RawStep(program, last), steps1);
        StretchGoesOn(program, src, first, last, ds1, n, b);
        ghost var t := RawStep(program, last).state;
        ds1 :| Disciplined(src, t, ds1);
        last, n := t, n + 1;
        steps := steps1;
      }
    }

    lemma NowIs(steps: nat)
      requires frames != []
      ensures Shows(Now(steps)) && Now(steps).steps == steps
    {
    }

    lemma ShowsIs(raw: Raw, steps: nat)
      requires Did(raw, steps, None)
      ensures raw.Next? && frames != [] && Now(steps) == raw.state
    {
    }

    lemma DidEnds(raw: Raw, steps: nat, out: Result)
      requires Did(raw, steps, Some(out))
      ensures !raw.Next? && Did(raw, 0, Some(out))
    {
    }

    // ─── Errors and suspensions ──────────────────────────────────────────────

    /** Drops frames until one has a `try` around its instruction, and goes on at its
      `catch` with the error on the stack. */
    method Unwind(error: string, ghost s: State, ghost inputs: seq<Resumption>) returns (caught: bool)
      requires frames != [] && Shows(s)
      modifies this
      ensures caught ==> frames != [] && Raise(s, error, inputs) == Run(Now(0), inputs)
      ensures !caught ==> Raise(s, error, inputs) == Halt(Failed(error, world))
    {
      hide FindHandler;
      ghost var t := s;
      caught := false;
      var h := NoHandler;
      while frames != [] && !caught
        invariant frames != [] ==> Shows(t) && Raise(t, error, inputs) == Raise(s, error, inputs)
        invariant frames == [] ==> Raise(s, error, inputs) == Halt(Failed(error, world)) && !caught
        invariant caught ==> h.HandlerAt? && h == FindHandler(t.top.chunk.ranges, t.top.pc as int - 1, NoHandler)
        decreases |frames|, !caught
      {
        var f := frames[|frames| - 1];
        h := ScanHandlers(f.chunk.ranges, f.pc as int - 1);
        if h.HandlerAt? {
          caught := true;
        } else {
          stack, locals := Trunc(stack, f.stackBase), Trunc(locals, f.localsBase);
          frames := frames[..|frames| - 1];
          if frames != [] {
            t := State(frames[|frames| - 1], frames[..|frames| - 1], stack, locals, 0, world);
          }
        }
      }
      if caught {
        var f := frames[|frames| - 1];
        stack := Trunc(stack, f.stackBase);
        var (v, w) := ErrorValue(error, world);
        world := w;
        Push(v);
        Goto(h.range.handler);
      }
    }

    /** `start`: the arguments fill the first slots, as many as there are. */
    method Start(ch: Chunk, args: seq<Value>, w: World)
      modifies this
      ensures frames != [] && Now(0) == Machine.Start(ch, args, w)
    {
      frames, stack, locals, world := [Frame(ch, 0, 0, 0)], [], Nulls(ch.numLocals), w;
      var i := 0;
      while i < |args| && i < |locals|
        invariant 0 <= i <= |args| && i <= |locals| == ch.numLocals
        invariant frames == [Frame(ch, 0, 0, 0)] && stack == [] && world == w
        invariant forall j :: 0 <= j < |locals| ==> locals[j] == if j < i then args[j] else Null
      {
        locals := locals[i := args[i]];
        i := i + 1;
      }
      assert locals == Machine.Start(ch, args, w).locals;
    }

    /** `resume`: the awaited value takes the place of the `await`. */
    method Resume(r: Resumption, ghost s: State)
      requires frames != [] && Shows(s)
      modifies this
      ensures frames != [] && Now(0) == Wake(s, r)
    {
      world := r.world;
      Push(r.value);
    }

    /** What a run with these awaited values still to come has done when it stops with
      `out`; `s` is the state it stops in when it is suspended. */
    ghost predicate Stopped(first: State, inputs: seq<Resumption>, out: Result, s: State)
      reads this
    {
      match out
      case DoneWith(v) => Runs(program, Run(first, inputs), Halt(Done(v, world)))
      case ErrorWith(e) => Runs(program, Run(first, inputs), Halt(Failed(e, world)))
      case Suspended(id, args) =>
        && frames != [] && Shows(s)
        && Runs(program, Run(first, inputs),
                if inputs == [] then Halt(Waiting(id, args, world)) else Run(Wake(s, inputs[0]), inputs[1..]))
    }

    /** Runs, and goes on in the `catch` after an error, until the route ends, fails or
      waits.  A program can catch errors for ever: this gives up only when the run comes to
      more than `catches` of them. */
    method Execute(catches: nat, ghost src: R.Source, ghost b: nat, ghost inputs: seq<Resumption>)
      returns (out: Option<Result>, ghost s: State)
      requires frames != [] && Linked(program, src) && InOrder(src, Run(Now(0), inputs)) && Below(program, Now(0), b)
      modifies this
      ensures out.Some? ==> Stopped(old(Now(0)), inputs, out.value, s)
      ensures out.Some? && out.value.Suspended? ==> (exists ds :: Asleep(src, s, ds)) && Below(program, s, b)
      ensures out.None? ==>
                && Raises(program, Run(old(Now(0)), inputs), catches)
                && RunsFor(program, Run(old(Now(0)), inputs), catches)
      ensures catches > 0 && Unguarded(program, old(Now(0))) ==> out.Some?
    {
      hide *;
      ghost var first, now := Now(0), Now(0);
      var left: nat := catches;
      RunsRefl(program, Run(first, inputs));
      NothingRaised(program, Run(first, inputs));
      while true
        invariant frames != [] && Now(0) == now && Below(program, now, b) && InOrder(src, Run(now, inputs))
        invariant Runs(program, Run(first, inputs), Run(now, inputs))
        invariant left <= catches && RaisedBefore(program, Run(first, inputs), Run(now, inputs), catches - left)
        decreases left
      {
        InOrderState(src, now, inputs);
        ghost var ds :| Disciplined(src, now, ds);
        var r;
        ghost var last, n;
        r, last, n := RunUntilError(src, ds, b);
        out, s := Some(r), last;
        ghost var ds1 :| Disciplined(src, last, ds1);
        StretchStops(program, first, now, n, last, inputs);
        RawStepKeepsDiscipline(program, src, last, ds1);
        KeptStop(src, last, ds1, RawStep(program, last));
        DidIs(RawStep(program, last), r);
        match r
        case DoneWith(v) =>
          StoppedIs(first, inputs, r, s);
          return;
        case Suspended(id, args) =>
          s := RawStep(program, last).asleep;
          StoppedIs(first, inputs, r, s);
          BelowStop(program, last, RawStep(program, last), b);
          return;
        case ErrorWith(e) =>
          StretchRaises(program, first, now, n, last, inputs, catches - left);
          if left == 0 {
            ErrorsTakeSteps(program, Run(first, inputs), catches);
            if catches > 0 {
              SomebodyCaught(program, src, first, inputs, catches);
            }
            return None, s;
          }
          left := left - 1;
          ghost var t := RawStep(program, last).at;
          BelowStop(program, last, RawStep(program, last), b);
          RaiseKeepsDiscipline(src, t, ds1, e, inputs);
          RaiseBelow(program, t, e, inputs, b);
          var caught := Unwind(e, t, inputs);
          if !caught {
            StoppedIs(first, inputs, r, s);
            return;
          }
          now := Now(0);
      }
    }

    lemma DidIs(raw: Raw, out: Result)
      requires Did(raw, 0, Some(out))
      ensures out.DoneWith? ==> raw == Finish(out.value, world)
      ensures out.ErrorWith? ==> raw.Fail? && raw.error == out.error && frames != [] && Shows(raw.at)
      ensures out.Suspended? ==> raw.Suspend? && raw.id == out.id && raw.args == out.args
                                 && frames != [] && Shows(raw.asleep)
                                 && raw.asleep.world == world
    {
    }

    lemma StoppedIs(first: State, inputs: seq<Resumption>, out: Result, s: State)
      requires out.DoneWith? ==> Runs(program, Run(first, inputs), Halt(Done(out.value, world)))
      requires out.ErrorWith? ==> Runs(program, Run(first, inputs), Halt(Failed(out.error, world)))
      requires out.Suspended? ==>
                 && frames != [] && Shows(s)
                 && Runs(program, Run(first, inputs),
                         if inputs == [] then Halt(Waiting(out.id, out.args, world))
                         else Run(Wake(s, inputs[0]), inputs[1..]))
      ensures Stopped(first, inputs, out, s)
    {
      hide Runs, Shows;
    }

    /** The driver of a route: it starts the machine, and each time the machine waits
      resumes it with the next value.  What comes out is what the program means. */
    method Drive(ch: Chunk, args: seq<Value>, w: World, inputs: seq<Resumption>, catches: nat, ghost src: R.Source,
                 ghost decl: Decl)
      returns (out: Option<Result>)
      requires Linked(program, src) && DeclCode(ch, src.sigs, decl)
      modifies this
      ensures out.Some? ==>
                && Runs(program, Begin(ch, args, w, inputs), Halt(EndingOf(out.value, world)))
                && exists fuel: nat ::
                   Meaning(Interpret(src, fuel, decl, args, w, inputs)) == Some(EndingOf(out.value, world))
      ensures out.None? ==>
                && Raises(program, Begin(ch, args, w, inputs), catches)
                && RunsFor(program, Begin(ch, args, w, inputs), catches)
      ensures catches > 0 && NoRanges(program, ch) ==> out.Some?
    {
      hide *;
      ghost var first := Machine.Start(ch, args, w);
      ghost var b := Longest(program.functions, ch) + 1;
      Start(ch, args, w);
      StartIsInOrder(program, src, ch, decl, args, w, inputs, b);
      BeginIs(ch, args, w, inputs);
      ghost var s;
      out, s := Execute(catches, src, b, inputs);
      var i := 0;
      assert inputs[0..] == inputs;
      if out.Some? {
        StoppedParts(first, inputs, out.value, s);
      }
      while out.Some? && out.value.Suspended? && i < |inputs|
        invariant 0 <= i <= |inputs|
        invariant out.Some? && out.value.Suspended? ==>
                    && frames != [] && Shows(s) && (exists ds :: Asleep(src, s, ds)) && Below(program, s, b)
                    && Runs(program, Run(first, inputs),
                            if i == |inputs| then Halt(Waiting(out.value.id, out.value.args, world))
                            else Run(Wake(s, inputs[i]), inputs[i + 1..]))
        invariant out.Some? && !out.value.Suspended? ==>
                    Runs(program, Run(first, inputs), Halt(EndingOf(out.value, world)))
        invariant out.None? ==>
                    Raises(program, Run(first, inputs), catches) && RunsFor(program, Run(first, inputs), catches)
        decreases |inputs| - i
      {
        ghost var woken := Wake(s, inputs[i]);
        ghost var ds :| Asleep(src, s, ds);
        WakeKeepsDiscipline(src, s, ds, inputs[i]);
        RunningIsInOrder(src, woken, inputs[i + 1..], ds);
        WakeBelow(program, s, inputs[i], b);
        Resume(inputs[i], s);
        i := i + 1;
        out, s := Execute(catches, src, b, inputs[i..]);
        if out.Some? {
          StoppedParts(woken, inputs[i..], out.value, s);
          StoppedChains(program, first, woken, inputs, i, out.value, s, world);
        } else {
          RaisesTrans(program, Run(first, inputs), Run(woken, inputs[i..]), catches);
          ErrorsTakeSteps(program, Run(first, inputs), catches);
        }
      }
      if out.Some? {
        SuspendedEnding(out.value, world);
        MachineEndsAsInterpreted(program, src, ch, decl, args, w, inputs, EndingOf(out.value, world));
      } else if NoRanges(program, ch) {
        EndsWithoutTry(program, src, ch, decl, args, w, inputs);
      }
    }

    lemma StoppedParts(first: State, inputs: seq<Resumption>, out: Result, s: State)
      requires Stopped(first, inputs, out, s)
      ensures !out.Suspended? ==> Runs(program, Run(first, inputs), Halt(EndingOf(out, world)))
      ensures out.Suspended? ==>
                && frames != [] && Shows(s)
                && Runs(program, Run(first, inputs),
                        if inputs == [] then Halt(Waiting(out.id, out.args, world))
                        else Run(Wake(s, inputs[0]), inputs[1..]))
    {
      hide Runs, Shows;
    }
  }

  // ─── Stretches of the machine ──────────────────────────────────────────────

  /** The state after `n` instructions. */
  function RunOn(p: Program, s: State, n: nat): State
    requires StillRunning(p, s, n)
    decreases n
  {
    if n == 0 then s else RunOn(p, RawStep(p, s).state, n - 1)
  }

  lemma {:induction false} OneMore(p: Program, s: State, n: nat)
    requires StillRunning(p, s, n) && RawStep(p, RunOn(p, s, n)).Next?
    ensures StillRunning(p, s, n + 1) && RunOn(p, s, n + 1) == RawStep(p, RunOn(p, s, n)).state
    decreases n
  {
    hide RawStep;
    if n > 0 {
      OneMore(p, RawStep(p, s).state, n - 1);
    }
  }

  lemma StretchBegins(p: Program, s: State, src: R.Source, ds: seq<Decl>)
    requires Disciplined(src, s, ds) && s.steps == 0
    ensures StillRunning(p, s, 0) && RunOn(p, s, 0) == s && |s.callers| < MAX_FRAMES && s.steps <= STEP_LIMIT
  {
    hide Disciplined, RawStep;
    FramesAreFew(src, s, ds);
  }

  lemma StretchGoesOn(p: Program, src: R.Source, first: State, s: State, ds: seq<Decl>, n: nat, b: nat)
    requires Linked(p, src) && Disciplined(src, s, ds) && Below(p, s, b) && s.steps <= STEP_LIMIT
    requires StillRunning(p, first, n) && s == RunOn(p, first, n) && RawStep(p, s).Next?
    ensures var t := RawStep(p, s).state;
            && StillRunning(p, first, n + 1) && t == RunOn(p, first, n + 1) && (exists ds1 :: Disciplined(src, t, ds1))
            && Below(p, t, b) && t.steps <= STEP_LIMIT && |t.callers| < MAX_FRAMES && |s.callers| < MAX_FRAMES
            && Measure(b, t) < Measure(b, s)
  {
    hide Linked, Disciplined, RawStep, Moves, Below, Measure, StillRunning, RunOn;
    OneMore(p, first, n);
    RawStepMoves(p, src, s, ds);
    MovesShrinks(p, s, RawStep(p, s).state, b);
    RawStepKeepsDiscipline(p, src, s, ds);
  }

  lemma KeptIsNoCrash(src: R.Source, s: State, ds: seq<Decl>, raw: Raw)
    requires Kept(src, s, ds, raw)
    ensures raw != Crash
  {
    hide Disciplined, Broken, Asleep;
  }

  // ─── The loops ─────────────────────────────────────────────────────────────

  /** The scan for the innermost `try` around `pc`: the shortest range that covers it. */
  method ScanHandlers(ranges: seq<TryRange>, pc: int) returns (best: Handler)
    ensures best == FindHandler(ranges, pc, NoHandler)
  {
    best := NoHandler;
    var i := 0;
    assert ranges[0..] == ranges;
    while i < |ranges|
      invariant 0 <= i <= |ranges| && FindHandler(ranges[i..], pc, best) == FindHandler(ranges, pc, NoHandler)
    {
      var r := ranges[i];
      if Covers(r, pc) && (best.NoHandler? || r.end - r.begin < best.range.end - best.range.begin) {
        best := HandlerAt(r);
      }
      i := i + 1;
    }
  }

  lemma {:induction false} StretchRuns(p: Program, s: State, n: nat, inputs: seq<Resumption>)
    requires StillRunning(p, s, n)
    ensures Runs(p, Run(s, inputs), Run(RunOn(p, s, n), inputs))
    decreases n
  {
    hide RawStep, Runs;
    RunsRefl(p, Run(s, inputs));
    if n > 0 {
      RunsStep(p, Run(s, inputs));
      StretchRuns(p, RawStep(p, s).state, n - 1, inputs);
      RunsTrans(p, Run(s, inputs), Run(RawStep(p, s).state, inputs), Run(RunOn(p, s, n), inputs));
    }
  }

  lemma StretchRaises(p: Program, first: State, now: State, n: nat, last: State, inputs: seq<Resumption>, before: nat)
    requires RaisedBefore(p, Run(first, inputs), Run(now, inputs), before)
    requires StillRunning(p, now, n) && last == RunOn(p, now, n) && RawStep(p, last).Fail?
    ensures Raises(p, Run(first, inputs), before)
    ensures RaisedBefore(p, Run(first, inputs), Raise(RawStep(p, last).at, RawStep(p, last).error, inputs), before + 1)
  {
    hide RawStep, Runs, StillRunning, RunOn, Raise, Raises, RaisedBefore;
    StretchRuns(p, now, n, inputs);
    assert Errs(p, Run(now, inputs), Run(last, inputs));
    OneMoreRaised(p, Run(first, inputs), Run(now, inputs), Run(last, inputs), before);
  }

  /** A stretch and the instruction that stops it. */
  lemma StretchStops(p: Program, first: State, now: State, n: nat, last: State, inputs: seq<Resumption>)
    requires Runs(p, Run(first, inputs), Run(now, inputs))
    requires StillRunning(p, now, n) && last == RunOn(p, now, n)
    ensures RawStep(p, last).Finish? ==>
              Runs(p, Run(first, inputs), Halt(Done(RawStep(p, last).value, RawStep(p, last).world)))
    ensures RawStep(p, last).Fail? ==>
              Runs(p, Run(first, inputs), Raise(RawStep(p, last).at, RawStep(p, last).error, inputs))
    ensures RawStep(p, last).Suspend? ==>
              Runs(p, Run(first, inputs),
                   if inputs == [] then
                     Halt(Waiting(RawStep(p, last).id, RawStep(p, last).args, RawStep(p, last).asleep.world))
                   else Run(Wake(RawStep(p, last).asleep, inputs[0]), inputs[1..]))
  {
    hide RawStep, Runs, StillRunning, RunOn, Raise, Wake;
    StretchRuns(p, now, n, inputs);
    RunsStep(p, Run(last, inputs));
    RunsTrans(p, Run(first, inputs), Run(now, inputs), Run(last, inputs));
    RunsTrans(p, Run(first, inputs), Run(last, inputs), Machine.Step(p, Run(last, inputs)));
  }

  lemma KeptStop(src: R.Source, s: State, ds: seq<Decl>, raw: Raw)
    requires Kept(src, s, ds, raw)
    ensures raw.Fail? ==> Broken(src, raw.at, ds)
    ensures raw.Suspend? ==> Asleep(src, raw.asleep, ds)
  {
    hide Disciplined, Broken, Asleep;
  }

  lemma InOrderState(src: R.Source, s: State, inputs: seq<Resumption>)
    requires InOrder(src, Run(s, inputs))
    ensures exists ds :: Disciplined(src, s, ds)
  {
    hide Disciplined;
  }

  lemma RunningIsInOrder(src: R.Source, s: State, inputs: seq<Resumption>, ds: seq<Decl>)
    requires Disciplined(src, s, ds)
    ensures InOrder(src, Run(s, inputs))
  {
    hide Disciplined;
  }

  function EndingOf(r: Result, w: World): Ending {
    match r
    case DoneWith(v) => Done(v, w)
    case ErrorWith(e) => Failed(e, w)
    case Suspended(id, args) => Waiting(id, args, w)
  }

  lemma SuspendedEnding(r: Result, w: World)
    ensures r.Suspended? ==> EndingOf(r, w) == Waiting(r.id, r.args, w)
  {
  }

  /** One resumption more. */
  lemma StoppedChains(p: Program, first: State, woken: State, inputs: seq<Resumption>, i: nat, out: Result, s: State,
                      w: World)
    requires 0 < i <= |inputs| && Runs(p, Run(first, inputs), Run(woken, inputs[i..]))
    requires !out.Suspended? ==> Runs(p, Run(woken, inputs[i..]), Halt(EndingOf(out, w)))
    requires out.Suspended? ==>
               Runs(p, Run(woken, inputs[i..]),
                    if inputs[i..] == [] then Halt(Waiting(out.id, out.args, w))
                    else Run(Wake(s, inputs[i..][0]), inputs[i..][1..]))
    ensures !out.Suspended? ==> Runs(p, Run(first, inputs), Halt(EndingOf(out, w)))
    ensures out.Suspended? ==>
              Runs(p, Run(first, inputs), if i == |inputs| then Halt(Waiting(out.id, out.args, w))
                                          else Run(Wake(s, inputs[i]), inputs[i + 1..]))
  {
    hide Runs, EndingOf, Wake;
    if !out.Suspended? {
      RunsTrans(p, Run(first, inputs), Run(woken, inputs[i..]), Halt(EndingOf(out, w)));
    } else if i == |inputs| {
      RunsTrans(p, Run(first, inputs), Run(woken, inputs[i..]), Halt(Waiting(out.id, out.args, w)));
    } else {
      assert inputs[i..][1..] == inputs[i + 1..];
      RunsTrans(p, Run(first, inputs), Run(woken, inputs[i..]), Run(Wake(s, inputs[i]), inputs[i + 1..]));
    }
  }
}
