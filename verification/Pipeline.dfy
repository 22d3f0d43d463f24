/** From the declarations of a source file to the outcome of a route: the functions are
  compiled and linked, then the route, and the machine runs it. */
module Pipeline {
  import opened Wrappers
  import opened Values
  import opened Ast
  import opened Bytecode
  import opened Machine
  import opened Layout
  import opened Acceptance
  import opened Composition
  import opened Correctness
  import opened Endings
  import opened Emission
  import opened Modules
  import opened Vm
  import R = Reference

  /** What the functions of a file are to the interpreter. */
  function SourceOf(fns: seq<Function>, natives: map<string, NativeDef>, lenId: nat, host: Host): R.Source {
    R.Source(SigsOf(fns, natives, lenId), DeclsOf(fns), host)
  }

  /** The interpreter ends so, with enough fuel. */
  ghost predicate Means(src: R.Source, decl: Decl, args: seq<Value>, w: World, inputs: seq<Resumption>, end: Ending) {
    exists fuel: nat :: Meaning(Interpret(src, fuel, decl, args, w, inputs)) == Some(end)
  }

  /** The compiled route comes to more than `n` errors. */
  ghost predicate KeepsFailing(src: R.Source, decl: Decl, args: seq<Value>, w: World, inputs: seq<Resumption>, n: nat) {
    exists p: Program, ch: Chunk ::
      Linked(p, src) && DeclCode(ch, src.sigs, decl) && Raises(p, Begin(ch, args, w, inputs), n)
  }

  /** What becomes of a route: the compiler rejects it, or it comes to an end, or the driver
    gives it up because of the errors that it goes on raising. */
  datatype Outcome = Rejected | GivenUp | Ended(end: Ending)

  /** Compiles the functions of a file and one route, and runs it.  It is rejected exactly
    when one of the declarations is; what the machine comes to is what the interpreter
    comes to, and nothing else; and something it does come to if nobody catches errors. */
  method Serve(fns: seq<Function>, natives: map<string, NativeDef>, lenId: nat, host: Host, route: Decl,
               args: seq<Value>, w: World, inputs: seq<Resumption>, catches: nat)
    returns (outcome: Outcome)
    requires forall i :: 0 <= i < |fns| ==> PlainDecl(DeclOf(fns[i]), SigsOf(fns, natives, lenId))
    requires PlainDecl(route, SigsOf(fns, natives, lenId))
    ensures outcome.Rejected? <==> !(Accepted(fns, natives, lenId) && OkDecl(route, SigsOf(fns, natives, lenId)))
    ensures outcome.Ended? ==>
              forall end: Ending ::
                Means(SourceOf(fns, natives, lenId, host), route, args, w, inputs, end) <==> end == outcome.end
    ensures outcome.GivenUp? ==> KeepsFailing(SourceOf(fns, natives, lenId, host), route, args, w, inputs, catches)
    ensures outcome.GivenUp? && catches > 0 ==> AnyTry(route.body) || exists i :: 0 <= i < |fns| && AnyTry(fns[i].body)
  {
    hide *;
    var ok, sigs, functions := BuildFunctions(fns, natives, lenId);
    if !ok {
      return Rejected;
    }
    ghost var src := SourceOf(fns, natives, lenId, host);
    SourceIs(fns, natives, lenId, host);
    var emitter := new Emitter(sigs);
    var accepted, ch := emitter.EmitRoute(route);
    if !accepted {
      return Rejected;
    }
    var p := Program(functions, host, lenId);
    assert Linked(p, src);
    var vm := new VM(p);
    var out := vm.Drive(ch, args, w, inputs, catches, src, route);
    if out.None? {
      Fails(p, src, ch, route, args, w, inputs, catches);
      if catches > 0 {
        SomeTry(p, fns, natives, lenId, host, ch, route);
      }
      return GivenUp;
    }
    var end := EndingOf(out.value, vm.world);
    OnlyEnding(p, src, ch, route, args, w, inputs, end);
    return Ended(end);
  }

  lemma SourceIs(fns: seq<Function>, natives: map<string, NativeDef>, lenId: nat, host: Host)
    ensures SourceOf(fns, natives, lenId, host) == R.Source(SigsOf(fns, natives, lenId), DeclsOf(fns), host)
  {
  }

  lemma Fails(p: Program, src: R.Source, ch: Chunk, decl: Decl, args: seq<Value>, w: World, inputs: seq<Resumption>,
              n: nat)
    requires Linked(p, src) && DeclCode(ch, src.sigs, decl) && Raises(p, Begin(ch, args, w, inputs), n)
    ensures KeepsFailing(src, decl, args, w, inputs, n)
  {
    hide Linked, DeclCode, Raises, Begin;
  }

  lemma SomeTry(p: Program, fns: seq<Function>, natives: map<string, NativeDef>, lenId: nat, host: Host, ch: Chunk,
                route: Decl)
    requires Linked(p, SourceOf(fns, natives, lenId, host)) && DeclCode(ch, SigsOf(fns, natives, lenId), route)
    requires !NoRanges(p, ch)
    ensures AnyTry(route.body) || exists i :: 0 <= i < |fns| && AnyTry(fns[i].body)
  {
    hide Linked, DeclCode, NoRanges, AnyTry, Signatures;
    LinkedWithoutTry(p, SourceOf(fns, natives, lenId, host), ch, route);
  }

  /** What the machine ends with is the meaning of the route, and its only one. */
  lemma OnlyEnding(p: Program, src: R.Source, ch: Chunk, decl: Decl, args: seq<Value>, w: World,
                   inputs: seq<Resumption>, end: Ending)
    requires Linked(p, src) && DeclCode(ch, src.sigs, decl) && Runs(p, Begin(ch, args, w, inputs), Halt(end))
    ensures forall other: Ending :: Means(src, decl, args, w, inputs, other) <==> other == end
  {
    hide Linked, DeclCode, Runs, Begin, Meaning, Interpret;
    forall other: Ending
      ensures Means(src, decl, args, w, inputs, other) <==> other == end
    {
      MachineEndsAsInterpreted(p, src, ch, decl, args, w, inputs, other);
      if Runs(p, Begin(ch, args, w, inputs), Halt(other)) {
        EndIsUnique(p, Begin(ch, args, w, inputs), other, end);
      }
    }
  }
}
