/** The main results about the compiler and the machine. */
module Correctness {
  import opened Wrappers
  import opened Values
  import opened Ast
  import opened Bytecode
  import opened Machine
  import opened Layout
  import opened Slots
  import opened MachineSteps
  import opened Composition
  import opened Simulation
  import R = Reference

  /** Where the interpreter ends: with a value, with an uncaught error, or at an
    `await` that nothing answers any more. */
  function Meaning(r: R.Res<Value>): Option<Ending> {
    match r
    case Ok(v, st) => Some(Done(v, st.world))
    case Stopped(Err(e, st)) => Some(Failed(e, st.world))
    case Stopped(Wait(id, args, st)) => Some(Waiting(id, args, st.world))
    case Stopped(NoFuel) => None
  }

  /** Running declaration `decl` of `src` by the reference semantics, as a route. */
  function Interpret(src: R.Source, fuel: nat, decl: Decl, args: seq<Value>, w: World, inputs: seq<Resumption>)
    : R.Res<Value>
  {
    R.RunDecl(src, fuel, 1, decl, R.St(R.BindParams(decl.params, args), w, 0, inputs))
  }

  /** The first configuration of a compiled route. */
  function Begin(ch: Chunk, args: seq<Value>, w: World, inputs: seq<Resumption>): Cfg {
    Run(Start(ch, args, w), inputs)
  }

  lemma StartIsAt(p: Program, src: R.Source, ch: Chunk, decl: Decl, args: seq<Value>, w: World, inputs: seq<Resumption>)
    returns (k: Ctx, f: seq<Value>, st: R.St)
    requires DeclCode(ch, src.sigs, decl)
    ensures k == Ctx(p, src, [], ch, [], []) && st == R.St(R.BindParams(decl.params, args), w, 0, inputs)
    ensures Begin(ch, args, w, inputs) == At(k, 0, [], f, st) && Setting(k, ParamLocals(decl.params), f, st)
  {
    hide *;
    k := Ctx(p, src, [], ch, [], []);
    st := R.St(R.BindParams(decl.params, args), w, 0, inputs);
    f := Start(ch, args, w).locals;
    StartSlots(ch, src.sigs, decl, args, w);
    StartFrame(k, ch, args, w, inputs, f, st);
    ParamsInSlots(decl.params, args, f);
    IsSetting(k, ParamLocals(decl.params), f, st);
  }

  lemma StartSlots(ch: Chunk, sg: Sigs, decl: Decl, args: seq<Value>, w: World)
    requires DeclCode(ch, sg, decl)
    ensures var f := Start(ch, args, w).locals;
            && |decl.params| <= ch.numLocals == |f| && |ParamLocals(decl.params)| == |decl.params|
            && (forall i :: 0 <= i < |decl.params| ==> !Hidden(decl.params[i].name))
            && (forall i :: 0 <= i < |decl.params| ==> f[i] == if i < |args| then args[i] else Null)
  {
    hide StmtsCode, RangesIn, BlockSize, R.GuardStmts;
  }

  lemma StartFrame(k: Ctx, ch: Chunk, args: seq<Value>, w: World, inputs: seq<Resumption>, f: seq<Value>, st: R.St)
    requires k.ch == ch && k.callers == [] && k.base == [] && k.below == [] && f == Start(ch, args, w).locals
    requires st.world == w && st.steps == 0 && st.inputs == inputs
    ensures Begin(ch, args, w, inputs) == At(k, 0, [], f, st)
  {
    assert [] + f == f;
  }

  lemma IsSetting(k: Ctx, L: seq<Local>, f: seq<Value>, st: R.St)
    requires |L| <= |f| == k.ch.numLocals && EnvOf(L, f) == st.env
    ensures Setting(k, L, f, st)
  {
    hide EnvOf;
  }

  /** Compilation preserves meaning: whatever the reference semantics gives, the machine
    gives, with the same world; and if the reference semantics needs more than `fuel`
    calls and iterations, the machine makes more than that many steps. */
  lemma CompiledCodeIsCorrect(p: Program, src: R.Source, ch: Chunk, decl: Decl, args: seq<Value>, w: World,
                              inputs: seq<Resumption>, fuel: nat)
    requires Linked(p, src) && DeclCode(ch, src.sigs, decl)
    ensures match Meaning(Interpret(src, fuel, decl, args, w, inputs))
            case Some(end) => Runs(p, Begin(ch, args, w, inputs), Halt(end))
            case None => RunsFor(p, Begin(ch, args, w, inputs), fuel)
  {
    hide Runs, RunsFor, Linked, DeclCode, R.RunDecl, Setting, At, Raise, FindHandler;
    var k, f, st := StartIsAt(p, src, ch, decl, args, w, inputs);
    var wit := SimDecl(k, fuel, decl, f, st);
    var r := R.RunDecl(src, fuel, 1, decl, st);
    if r.Stopped? && r.why.Err? {
      RaiseFails(k, wit.pc, wit.s, wit.f, r.why.at, r.why.error);
    }
  }

  /** The machine ends exactly when the reference semantics does, and the same way.
    Given the same resumptions, suspending at every `await` and being resumed is one
    evaluation in which each `await` reads the next value. */
  lemma MachineEndsAsInterpreted(p: Program, src: R.Source, ch: Chunk, decl: Decl, args: seq<Value>, w: World,
                                 inputs: seq<Resumption>, end: Ending)
    requires Linked(p, src) && DeclCode(ch, src.sigs, decl)
    ensures Runs(p, Begin(ch, args, w, inputs), Halt(end))
            <==> exists fuel: nat :: Meaning(Interpret(src, fuel, decl, args, w, inputs)) == Some(end)
  {
    hide Runs, RunsFor, Linked, DeclCode, Interpret, Begin, Meaning;
    var c := Begin(ch, args, w, inputs);
    if Runs(p, c, Halt(end)) {
      var n := EndBoundsRun(p, c, end);
      CompiledCodeIsCorrect(p, src, ch, decl, args, w, inputs, n);
      EndIsUnique(p, c, end, Meaning(Interpret(src, n, decl, args, w, inputs)).value);
    } else if fuel: nat :| Meaning(Interpret(src, fuel, decl, args, w, inputs)) == Some(end) {
      CompiledCodeIsCorrect(p, src, ch, decl, args, w, inputs, fuel);
    }
  }

  /** Compiled code never crashes the machine in a run that ends. */
  lemma CompiledCodeDoesNotCrash(p: Program, src: R.Source, ch: Chunk, decl: Decl, args: seq<Value>, w: World,
                                 inputs: seq<Resumption>)
    requires Linked(p, src) && DeclCode(ch, src.sigs, decl)
    ensures !Runs(p, Begin(ch, args, w, inputs), Halt(Crashed))
  {
    hide Runs, RunsFor, Linked, DeclCode, Interpret, Begin;
    MachineEndsAsInterpreted(p, src, ch, decl, args, w, inputs, Crashed);
    forall fuel: nat
      ensures Meaning(Interpret(src, fuel, decl, args, w, inputs)) != Some(Crashed)
    {
    }
  }

  /** The amount of fuel does not matter to the reference semantics, once it is enough. */
  lemma FuelDoesNotMatter(p: Program, src: R.Source, ch: Chunk, decl: Decl, args: seq<Value>, w: World,
                          inputs: seq<Resumption>, fuel: nat, fuel1: nat)
    requires Linked(p, src) && DeclCode(ch, src.sigs, decl)
    ensures var a := Meaning(Interpret(src, fuel, decl, args, w, inputs));
            var b := Meaning(Interpret(src, fuel1, decl, args, w, inputs));
            a.Some? && b.Some? ==> a == b
  {
    hide Runs, RunsFor, Linked, DeclCode, Interpret, Begin, Meaning;
    var a := Meaning(Interpret(src, fuel, decl, args, w, inputs));
    var b := Meaning(Interpret(src, fuel1, decl, args, w, inputs));
    CompiledCodeIsCorrect(p, src, ch, decl, args, w, inputs, fuel);
    CompiledCodeIsCorrect(p, src, ch, decl, args, w, inputs, fuel1);
    if a.Some? && b.Some? {
      EndIsUnique(p, Begin(ch, args, w, inputs), a.value, b.value);
    }
  }
}
