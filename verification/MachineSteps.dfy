/** Single instructions, seen from the frame that runs them: `At(k, pc, s, f, st)`
  is the machine at address `pc` of the frame described by `k`, with operands `s`
  and variables `f` of that frame's own. */
module MachineSteps {
  import opened Values
  import opened Bytecode
  import opened Machine
  import opened Layout
  import opened Slots
  import Reference

  /** A frame in its surroundings: the callers, the chunk, and the parts of the two
    shared arrays that belong to the callers. */
  datatype Ctx =
    Ctx(p: Program, src: Reference.Source, callers: seq<Frame>, ch: Chunk, base: seq<Value>, below: seq<Value>)

  function Depth(k: Ctx): nat { |k.callers| + 1 }

  function At(k: Ctx, pc: nat, s: seq<Value>, f: seq<Value>, st: Reference.St): Cfg {
    Run(State(Frame(k.ch, pc, |k.below|, |k.base|), k.callers, k.base + s, k.below + f, st.steps, st.world), st.inputs)
  }

  /** The error raised by the instruction at `pc`. */
  function RaiseAt(k: Ctx, pc: nat, s: seq<Value>, f: seq<Value>, st: Reference.St, e: string): Cfg {
    Raise(At(k, pc + 1, s, f, st).state, e, st.inputs)
  }

  /** The frame of `k` has ended with value `v`. */
  function ReturnTo(k: Ctx, v: Value, st: Reference.St): Cfg {
    if k.callers == [] then Halt(Done(v, st.world))
    else
      var n := |k.callers| - 1;
      Run(State(k.callers[n], k.callers[..n], k.base + [v], k.below, st.steps, st.world), st.inputs)
  }

  /** What an operation that gave `o` leaves behind. */
  function AfterOperation(k: Ctx, pc: nat, s: seq<Value>, f: seq<Value>, st: Reference.St, o: Outcome): Cfg {
    match o
    case Good(v, w) => At(k, pc + 1, s + [v], f, st.(world := w))
    case Bad(e, w) => RaiseAt(k, pc, s, f, st.(world := w), e)
  }

  lemma StepConst(k: Ctx, pc: nat, s: seq<Value>, f: seq<Value>, st: Reference.St, v: Value)
    requires HasConst(k.ch, pc, v)
    ensures Runs(k.p, At(k, pc, s, f, st), At(k, pc + 1, s + [v], f, st))
  {
    hide Runs, RunsFor;
    RunsStep(k.p, At(k, pc, s, f, st));
    assert k.base + s + [v] == k.base + (s + [v]);
  }

  lemma StepLoad(k: Ctx, pc: nat, s: seq<Value>, f: seq<Value>, st: Reference.St, i: nat)
    requires Has(k.ch, pc, OpLoadLocal(i)) && i < |f|
    ensures Runs(k.p, At(k, pc, s, f, st), At(k, pc + 1, s + [f[i]], f, st))
  {
    hide Runs, RunsFor;
    RunsStep(k.p, At(k, pc, s, f, st));
    assert k.base + s + [f[i]] == k.base + (s + [f[i]]);
  }

  lemma StepStore(k: Ctx, pc: nat, s: seq<Value>, f: seq<Value>, st: Reference.St, i: nat, v: Value)
    requires Has(k.ch, pc, OpStoreLocal(i)) && i < |f|
    ensures Runs(k.p, At(k, pc, s + [v], f, st), At(k, pc + 1, s, f[i := v], st))
  {
    hide Runs, RunsFor;
    RunsStep(k.p, At(k, pc, s + [v], f, st));
    PopOne(k.base, s, v);
    assert (k.below + f)[|k.below| + i := v] == k.below + f[i := v];
  }

  lemma PopOne(base: seq<Value>, s: seq<Value>, v: Value)
    ensures var all := base + (s + [v]); all[..|all| - 1] == base + s && all[|all| - 1] == v
  {
  }

  lemma StepPop(k: Ctx, pc: nat, s: seq<Value>, f: seq<Value>, st: Reference.St, v: Value)
    requires Has(k.ch, pc, OpPop)
    ensures Runs(k.p, At(k, pc, s + [v], f, st), At(k, pc + 1, s, f, st))
  {
    hide Runs, RunsFor;
    RunsStep(k.p, At(k, pc, s + [v], f, st));
    PopOne(k.base, s, v);
  }

  lemma StepJump(k: Ctx, pc: nat, s: seq<Value>, f: seq<Value>, st: Reference.St, to: nat)
    requires Has(k.ch, pc, OpJump(to)) && to > pc + 1
    ensures Runs(k.p, At(k, pc, s, f, st), At(k, to, s, f, st))
  {
    hide Runs, RunsFor;
    RunsStep(k.p, At(k, pc, s, f, st));
  }

  /** A counted jump, within the limit or past it. */
  lemma StepCountedJump(k: Ctx, pc: nat, s: seq<Value>, f: seq<Value>, st: Reference.St, to: nat)
    requires Has(k.ch, pc, OpJump(to)) && to <= pc + 1
    ensures match Reference.Tick(st)
            case Ok(_, st1) => Runs(k.p, At(k, pc, s, f, st), At(k, to, s, f, st1))
            case Stopped(why) => why == Reference.Err(STEP_LIMIT_ERROR, st)
                                 && Runs(k.p, At(k, pc, s, f, st), RaiseAt(k, pc, s, f, st, STEP_LIMIT_ERROR))
  {
    hide Runs, RunsFor, Raise;
    var c := At(k, pc, s, f, st);
    RunsStep(k.p, c);
    var c1 := At(k, pc + 1, s, f, st);
    StepsDoNotMatter(c1.state, STEP_LIMIT_ERROR, st.inputs);
    StepsDoNotMatter(c1.state.(steps := st.steps + 1), STEP_LIMIT_ERROR, st.inputs);
  }

  lemma StepJumpIfFalse(k: Ctx, pc: nat, s: seq<Value>, f: seq<Value>, st: Reference.St, to: nat, v: Value)
    requires Has(k.ch, pc, OpJumpIfFalse(to))
    ensures Runs(k.p, At(k, pc, s + [v], f, st),
                 At(k, if Truthy(k.p.host, v, st.world) then pc + 1 else to, s, f, st))
  {
    hide Runs, RunsFor;
    RunsStep(k.p, At(k, pc, s + [v], f, st));
    PopOne(k.base, s, v);
  }

  /** So is a conditional jump. */
  lemma TestCounts(k: Ctx, pc: nat, s: seq<Value>, f: seq<Value>, st: Reference.St, to: nat, v: Value, n: nat)
    requires Has(k.ch, pc, OpJumpIfFalse(to)) && Truthy(k.p.host, v, st.world)
    requires RunsFor(k.p, At(k, pc + 1, s, f, st), n)
    ensures RunsFor(k.p, At(k, pc, s + [v], f, st), n + 1)
  {
    hide Runs, RunsFor;
    PopOne(k.base, s, v);
    RunsForStep(k.p, At(k, pc, s + [v], f, st), n);
  }

  /** The short-circuit jumps keep the value they look at when they jump. */
  lemma StepPeek(k: Ctx, pc: nat, s: seq<Value>, f: seq<Value>, st: Reference.St, to: nat, v: Value, isOr: bool)
    requires Has(k.ch, pc, if isOr then OpJumpIfTruePeek(to) else OpJumpIfFalsePeek(to))
    ensures Runs(k.p, At(k, pc, s + [v], f, st),
                 if Truthy(k.p.host, v, st.world) == isOr then At(k, to, s + [v], f, st) else At(k, pc + 1, s, f, st))
  {
    hide Runs, RunsFor;
    RunsStep(k.p, At(k, pc, s + [v], f, st));
    PopOne(k.base, s, v);
  }

  lemma StepOperation(k: Ctx, pc: nat, s: seq<Value>, args: seq<Value>, f: seq<Value>, st: Reference.St, i: Instr)
    requires Has(k.ch, pc, i) && IsOperation(i) && |args| == Arity(i)
    ensures Runs(k.p, At(k, pc, s + args, f, st),
                 AfterOperation(k, pc, s, f, st, Perform(k.p.host, k.p.lenId, k.ch, i, args, st.world)))
  {
    hide Runs, RunsFor, Perform, Raise, Arity, IsOperation;
    var c := At(k, pc, s + args, f, st);
    RunsStep(k.p, c);
    SplitStack(k.base, s, args);
    var n := |k.base + s|;
    assert c.state.stack[n..] == args && c.state.stack[..n] == k.base + s;
    var o := Perform(k.p.host, k.p.lenId, k.ch, i, args, st.world);
    if o.Good? {
      assert k.base + s + [o.value] == k.base + (s + [o.value]);
    }
  }

  lemma SplitStack(base: seq<Value>, s: seq<Value>, args: seq<Value>)
    ensures var all := base + (s + args);
            all[..|base + s|] == base + s && all[|base + s|..] == args && |all| == |base + s| + |args|
  {
    assert base + (s + args) == (base + s) + args;
  }

  /** The callee's frame at the start of a call made at `pc`. */
  function Callee(k: Ctx, pc: nat, s: seq<Value>, f: seq<Value>, callee: Chunk): Ctx {
    Ctx(k.p, k.src, k.callers + [Frame(k.ch, pc + 1, |k.below|, |k.base|)], callee, k.base + s, k.below + f)
  }

  lemma StepCall(k: Ctx, pc: nat, s: seq<Value>, args: seq<Value>, f: seq<Value>, st: Reference.St, index: nat)
    requires Has(k.ch, pc, OpCallFunction(index, |args|))
    requires index < |k.p.functions| ==> |args| <= k.p.functions[index].numLocals
    ensures
      if index >= |k.p.functions| then
        Runs(k.p, At(k, pc, s + args, f, st), RaiseAt(k, pc, s + args, f, st, NO_FUNCTION_ERROR))
      else if Depth(k) >= MAX_FRAMES then
        Runs(k.p, At(k, pc, s + args, f, st), RaiseAt(k, pc, s + args, f, st, RECURSION_ERROR))
      else
        var ch := k.p.functions[index];
        var c := At(Callee(k, pc, s, f, ch), 0, [], args + Nulls(ch.numLocals - |args|), st);
        Runs(k.p, At(k, pc, s + args, f, st), c)
  {
    hide Runs, RunsFor, Raise;
    var c := At(k, pc, s + args, f, st);
    RunsStep(k.p, c);
    SplitStack(k.base, s, args);
    if index < |k.p.functions| && Depth(k) < MAX_FRAMES {
      var ch := k.p.functions[index];
      var nulls := Nulls(ch.numLocals - |args|);
      assert k.below + f + args + nulls == k.below + f + (args + nulls);
      assert k.base + s + [] == k.base + s;
    }
  }

  /** So is a call. */
  lemma CallCounts(k: Ctx, pc: nat, s: seq<Value>, args: seq<Value>, f: seq<Value>, st: Reference.St, index: nat,
                   n: nat)
    requires Has(k.ch, pc, OpCallFunction(index, |args|)) && Depth(k) < MAX_FRAMES
    requires index < |k.p.functions| && |args| <= k.p.functions[index].numLocals
    requires var ch := k.p.functions[index];
             RunsFor(k.p, At(Callee(k, pc, s, f, ch), 0, [], args + Nulls(ch.numLocals - |args|), st), n)
    ensures RunsFor(k.p, At(k, pc, s + args, f, st), n + 1)
  {
    hide Runs, RunsFor;
    SplitStack(k.base, s, args);
    var ch := k.p.functions[index];
    var nulls := Nulls(ch.numLocals - |args|);
    assert k.below + f + args + nulls == k.below + f + (args + nulls);
    assert k.base + s + [] == k.base + s;
    RunsForStep(k.p, At(k, pc, s + args, f, st), n);
  }

  lemma StepAsync(k: Ctx, pc: nat, s: seq<Value>, args: seq<Value>, f: seq<Value>, st: Reference.St, id: nat)
    requires Has(k.ch, pc, OpCallAsync(id, |args|))
    ensures Runs(k.p, At(k, pc, s + args, f, st),
                 if st.inputs == [] then Halt(Waiting(id, args, st.world))
                 else At(k, pc + 1, s + [st.inputs[0].value], f,
                         Reference.St(st.env, st.inputs[0].world, 0, st.inputs[1..])))
  {
    hide Runs, RunsFor;
    RunsStep(k.p, At(k, pc, s + args, f, st));
    SplitStack(k.base, s, args);
    if st.inputs != [] {
      assert k.base + s + [st.inputs[0].value] == k.base + (s + [st.inputs[0].value]);
    }
  }

  lemma StepReturn(k: Ctx, pc: nat, s: seq<Value>, f: seq<Value>, st: Reference.St, v: Value)
    requires Has(k.ch, pc, OpReturn)
    ensures Runs(k.p, At(k, pc, s + [v], f, st), ReturnTo(k, v, st))
  {
    hide Runs, RunsFor;
    RunsStep(k.p, At(k, pc, s + [v], f, st));
    PopOne(k.base, s, v);
    assert (k.base + s)[..|k.base|] == k.base && (k.below + f)[..|k.below|] == k.below;
  }

  lemma StepReturnNull(k: Ctx, pc: nat, s: seq<Value>, f: seq<Value>, st: Reference.St)
    requires Has(k.ch, pc, OpReturnNull)
    ensures Runs(k.p, At(k, pc, s, f, st), ReturnTo(k, Null, st))
  {
    hide Runs, RunsFor;
    RunsStep(k.p, At(k, pc, s, f, st));
    assert (k.base + s)[..|k.base|] == k.base && (k.below + f)[..|k.below|] == k.below;
  }

  // ─── Raising ───────────────────────────────────────────────────────────────

  /** A covered instruction raises into its own frame, whose operands are dropped
    and whose variables stay. */
  lemma RaiseCaught(k: Ctx, pc: nat, s: seq<Value>, f: seq<Value>, st: Reference.St, e: string, r: TryRange)
    requires FindHandler(k.ch.ranges, pc, NoHandler) == HandlerAt(r)
    ensures var (v, w) := ErrorValue(e, st.world);
            RaiseAt(k, pc, s, f, st, e) == At(k, r.handler, [v], f, Reference.St(st.env, w, 0, st.inputs))
  {
    hide FindHandler;
    assert (k.base + s)[..|k.base|] == k.base;
  }

  /** An instruction outside every `try` raises where the frame was called. */
  lemma RaiseEscapes(k: Ctx, at: nat, s: seq<Value>, f: seq<Value>, ch: Chunk, pc: nat, s1: seq<Value>, f1: seq<Value>,
                     st: Reference.St, e: string, st1: Reference.St)
    requires FindHandler(ch.ranges, pc, NoHandler) == NoHandler
    requires st1.world == st.world && st1.inputs == st.inputs
    ensures RaiseAt(Callee(k, at, s, f, ch), pc, s1, f1, st, e) == RaiseAt(k, at, s, f, st1, e)
  {
    hide FindHandler;
    var kc := Callee(k, at, s, f, ch);
    assert (kc.base + s1)[..|kc.base|] == kc.base && (kc.below + f1)[..|kc.below|] == kc.below;
    assert kc.callers[..|k.callers|] == k.callers;
    StepsDoNotMatter(At(k, at + 1, s, f, st1).state, e, st.inputs);
  }

  /** Outside every `try`, at the bottom of the stack of frames, the run fails. */
  lemma RaiseFails(k: Ctx, pc: nat, s: seq<Value>, f: seq<Value>, st: Reference.St, e: string)
    requires FindHandler(k.ch.ranges, pc, NoHandler) == NoHandler && k.callers == []
    ensures RaiseAt(k, pc, s, f, st, e) == Halt(Failed(e, st.world))
  {
    hide FindHandler;
  }

  lemma StepsDoNotMatter(s: State, e: string, inputs: seq<Resumption>)
    ensures Raise(s, e, inputs) == Raise(s.(steps := 0), e, inputs)
  {
    hide FindHandler;
  }

  /** What `Leave` does at the callee is what the caller sees. */
  lemma ReturnArrives(k: Ctx, at: nat, s: seq<Value>, f: seq<Value>, ch: Chunk, v: Value, st: Reference.St)
    ensures ReturnTo(Callee(k, at, s, f, ch), v, st) == At(k, at + 1, s + [v], f, st)
  {
    var kc := Callee(k, at, s, f, ch);
    assert kc.callers[..|k.callers|] == k.callers;
    assert k.base + s + [v] == k.base + (s + [v]);
  }
}
