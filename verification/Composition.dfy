/** How runs of the machine follow evaluations of the reference semantics, and how
  the runs of the parts of a construct make the run of the construct. */
module Composition {
  import opened Wrappers
  import opened Values
  import opened Ast
  import opened Bytecode
  import opened Machine
  import opened Layout
  import opened Slots
  import opened MachineSteps
  import R = Reference

  /** The function table of the program is the compilation of its declarations. */
  ghost predicate Linked(p: Program, src: R.Source) {
    && p.host == src.host && p.lenId == src.sigs.lenId && |p.functions| == |src.decls|
    && (forall i :: 0 <= i < |src.decls| ==> DeclCode(p.functions[i], src.sigs, src.decls[i]))
    && (forall n :: n in src.sigs.functions ==> SigMatches(src, src.sigs.functions[n]))
  }

  /** A signature has one entry per parameter of the declaration it names. */
  predicate SigMatches(src: R.Source, sig: FnSig) {
    sig.index < |src.decls| ==> |sig.defaults| == |src.decls[sig.index].params|
  }

  predicate Fits(k: Ctx, L: seq<Local>, f: seq<Value>) { |L| <= |f| == k.ch.numLocals }

  /** The slots of the frame hold the variables of the interpreter. */
  ghost predicate Setting(k: Ctx, L: seq<Local>, f: seq<Value>, st: R.St) { Fits(k, L, f) && EnvOf(L, f) == st.env }

  lemma FrameSize(k: Ctx, L: seq<Local>, f: seq<Value>, st: R.St)
    requires Setting(k, L, f, st)
    ensures |L| <= |f| == k.ch.numLocals
  {
  }

  /** What the machine shows for an evaluation: the variables when it ended and, if
    it raised an error, the address and the operands. */
  datatype Wit = Wit(pc: nat, s: seq<Value>, f: seq<Value>)

  /** The machine follows an evaluation that did not end with a value: an error is
    raised at an address in [lo, hi), with the variables as the interpreter left
    them; a wait ends the run; lack of fuel means that the run is a long one. */
  ghost predicate StopSim(k: Ctx, c: Cfg, L: seq<Local>, f: seq<Value>, lo: nat, hi: nat, why: R.Stop, w: Wit,
                          fuel: nat) {
    match why
    case Err(e, st) =>
      && lo <= w.pc < hi && Keeps(L, f, w.f) && EnvOf(L, w.f) == st.env
      && Runs(k.p, c, RaiseAt(k, w.pc, w.s, w.f, st, e))
    case Wait(id, args, st) => Runs(k.p, c, Halt(Waiting(id, args, st.world)))
    case NoFuel => RunsFor(k.p, c, fuel)
  }

  /** The machine follows the evaluation of a list of expressions, which pushes
    their values. */
  ghost predicate ListSim(k: Ctx, c: Cfg, s: seq<Value>, L: seq<Local>, f: seq<Value>, lo: nat, hi: nat,
                          r: R.Res<seq<Value>>, w: Wit, fuel: nat)
  {
    match r
    case Ok(vs, st) =>
      Keeps(L, f, w.f) && EnvOf(L, w.f) == st.env && Runs(k.p, c, At(k, hi, s + vs, w.f, st))
    case Stopped(why) => StopSim(k, c, L, f, lo, hi, why, w, fuel)
  }

  function Single(r: R.Res<Value>): R.Res<seq<Value>> {
    match r case Ok(v, st) => R.Ok([v], st) case Stopped(why) => R.Stopped(why)
  }

  /** The machine follows the evaluation of an expression, which pushes its value. */
  ghost predicate ExprSim(k: Ctx, c: Cfg, s: seq<Value>, L: seq<Local>, f: seq<Value>, lo: nat, hi: nat,
                          r: R.Res<Value>, w: Wit, fuel: nat)
  {
    ListSim(k, c, s, L, f, lo, hi, Single(r), w, fuel)
  }

  // ─── Putting runs together ─────────────────────────────────────────────────

  lemma StopLater(k: Ctx, c: Cfg, d: Cfg, L: seq<Local>, f: seq<Value>, g: seq<Value>, lo: nat, lo1: nat, hi1: nat,
                  hi: nat, why: R.Stop, w: Wit, fuel: nat)
    requires Runs(k.p, c, d) && Keeps(L, f, g) && lo <= lo1 && hi1 <= hi
    requires StopSim(k, d, L, g, lo1, hi1, why, w, fuel)
    ensures StopSim(k, c, L, f, lo, hi, why, w, fuel)
  {
    hide Runs, RunsFor, Raise, EnvOf;
    match why
    case Err(e, st) =>
      KeepsTrans(L, f, g, w.f);
      RunsTrans(k.p, c, d, RaiseAt(k, w.pc, w.s, w.f, st, e));
    case Wait(id, args, st) => RunsTrans(k.p, c, d, Halt(Waiting(id, args, st.world)));
    case NoFuel => RunsForTrans(k.p, c, d, fuel);
  }

  lemma ListLater(k: Ctx, c: Cfg, d: Cfg, s: seq<Value>, L: seq<Local>, f: seq<Value>, g: seq<Value>, lo: nat, lo1: nat,
                  hi: nat, r: R.Res<seq<Value>>, w: Wit, fuel: nat)
    requires Runs(k.p, c, d) && Keeps(L, f, g) && lo <= lo1
    requires ListSim(k, d, s, L, g, lo1, hi, r, w, fuel)
    ensures ListSim(k, c, s, L, f, lo, hi, r, w, fuel)
  {
    hide Runs, RunsFor, Raise, EnvOf, StopSim;
    match r
    case Ok(vs, st) =>
      KeepsTrans(L, f, g, w.f);
      RunsTrans(k.p, c, d, At(k, hi, s + vs, w.f, st));
    case Stopped(why) => StopLater(k, c, d, L, f, g, lo, lo1, hi, hi, why, w, fuel);
  }

  /** `d` follows `c`; what follows `d` follows `c`. */
  lemma ExprLater(k: Ctx, c: Cfg, d: Cfg, s: seq<Value>, L: seq<Local>, f: seq<Value>, g: seq<Value>, lo: nat, lo1: nat,
                  hi: nat, r: R.Res<Value>, w: Wit, fuel: nat)
    requires Runs(k.p, c, d) && Keeps(L, f, g) && lo <= lo1
    requires ExprSim(k, d, s, L, g, lo1, hi, r, w, fuel)
    ensures ExprSim(k, c, s, L, f, lo, hi, r, w, fuel)
  {
    hide ListSim, Runs;
    ListLater(k, c, d, s, L, f, g, lo, lo1, hi, Single(r), w, fuel);
  }

  /** A value computed at `hi` is still there at `hi1`. */
  lemma ExprSooner(k: Ctx, c: Cfg, s: seq<Value>, L: seq<Local>, f: seq<Value>, lo: nat, hi: nat, hi1: nat,
                   r: R.Res<Value>, w: Wit, fuel: nat)
    requires ExprSim(k, c, s, L, f, lo, hi, r, w, fuel) && hi <= hi1
    requires r.Ok? ==> Runs(k.p, At(k, hi, s + [r.value], w.f, r.st), At(k, hi1, s + [r.value], w.f, r.st))
    ensures ExprSim(k, c, s, L, f, lo, hi1, r, w, fuel)
  {
    hide Runs, RunsFor, Raise, EnvOf;
    if r.Ok? {
      RunsTrans(k.p, c, At(k, hi, s + [r.value], w.f, r.st), At(k, hi1, s + [r.value], w.f, r.st));
    }
  }

  /** An evaluation that stopped in one part of an expression stopped in the expression. */
  lemma ExprStops(k: Ctx, c: Cfg, s: seq<Value>, s1: seq<Value>, L: seq<Local>, f: seq<Value>, lo: nat, hi: nat,
                  hi1: nat, r: R.Res<Value>, w: Wit, fuel: nat)
    requires r.Stopped? && ExprSim(k, c, s1, L, f, lo, hi, r, w, fuel) && hi <= hi1
    ensures ExprSim(k, c, s, L, f, lo, hi1, r, w, fuel)
  {
    hide Runs, RunsFor, Raise, EnvOf;
  }

  /** What a value says of the machine. */
  lemma ExprGives(k: Ctx, c: Cfg, s: seq<Value>, L: seq<Local>, f: seq<Value>, lo: nat, hi: nat, r: R.Res<Value>,
                  w: Wit, fuel: nat)
    requires r.Ok? && ExprSim(k, c, s, L, f, lo, hi, r, w, fuel) && |f| == k.ch.numLocals
    ensures Setting(k, L, w.f, r.st) && Keeps(L, f, w.f) && Runs(k.p, c, At(k, hi, s + [r.value], w.f, r.st))
  {
    hide Runs, EnvOf;
  }

  lemma SizePositive(e: Expr, sg: Sigs)
    ensures ExprSize(e, sg) > 0
  {
  }

  // ─── Expressions ───────────────────────────────────────────────────────────

  /** A condition, and one of two branches; the first one jumps over the second. */
  lemma TernaryRuns(k: Ctx, a: nat, b: nat, c: nat, end: nat, s: seq<Value>, L: seq<Local>, f: seq<Value>, c0: Cfg,
                    r: R.Res<Value>, w: Wit, r1: R.Res<Value>, w1: Wit, fuel: nat)
    requires a <= b < c < end && Has(k.ch, b, OpJumpIfFalse(c + 1)) && Has(k.ch, c, OpJump(end)) && c + 1 < end
    requires ExprSim(k, c0, s, L, f, a, b, r, w, fuel)
    requires r.Ok? ==>
               if Truthy(k.p.host, r.value, r.st.world)
               then ExprSim(k, At(k, b + 1, s, w.f, r.st), s, L, w.f, b + 1, c, r1, w1, fuel)
               else ExprSim(k, At(k, c + 1, s, w.f, r.st), s, L, w.f, c + 1, end, r1, w1, fuel)
    ensures ExprSim(k, c0, s, L, f, a, end, if r.Ok? then r1 else r, if r.Ok? then w1 else w, fuel)
  {
    hide Runs, RunsFor, StopSim, EnvOf, At;
    if r.Stopped? {
      ExprStops(k, c0, s, s, L, f, a, b, end, r, w, fuel);
    } else {
      var g, st := w.f, r.st;
      StepJumpIfFalse(k, b, s, g, st, c + 1, r.value);
      if Truthy(k.p.host, r.value, st.world) {
        RunsTrans(k.p, c0, At(k, b, s + [r.value], g, st), At(k, b + 1, s, g, st));
        ExprLater(k, c0, At(k, b + 1, s, g, st), s, L, f, g, a, b + 1, c, r1, w1, fuel);
        if r1.Ok? {
          StepJump(k, c, s + [r1.value], w1.f, r1.st, end);
        }
        ExprSooner(k, c0, s, L, f, a, c, end, r1, w1, fuel);
      } else {
        RunsTrans(k.p, c0, At(k, b, s + [r.value], g, st), At(k, c + 1, s, g, st));
        ExprLater(k, c0, At(k, c + 1, s, g, st), s, L, f, g, a, c + 1, end, r1, w1, fuel);
      }
    }
  }

  /** The left side, and the right side unless the jump leaves the left one. */
  lemma ShortCircuitRuns(k: Ctx, a: nat, b: nat, end: nat, isOr: bool, s: seq<Value>, L: seq<Local>, f: seq<Value>,
                         c0: Cfg, r: R.Res<Value>, w: Wit, r1: R.Res<Value>, w1: Wit, fuel: nat)
    requires a <= b < end && Has(k.ch, b, if isOr then OpJumpIfTruePeek(end) else OpJumpIfFalsePeek(end))
    requires ExprSim(k, c0, s, L, f, a, b, r, w, fuel)
    requires var on := r.Ok? && Truthy(k.p.host, r.value, r.st.world) != isOr;
             if on then ExprSim(k, At(k, b + 1, s, w.f, r.st), s, L, w.f, b + 1, end, r1, w1, fuel)
             else r1 == r && w1 == w
    ensures ExprSim(k, c0, s, L, f, a, end, r1, w1, fuel)
  {
    hide Runs, RunsFor, StopSim, EnvOf, At;
    if r.Stopped? {
      ExprStops(k, c0, s, s, L, f, a, b, end, r, w, fuel);
    } else {
      var g, st := w.f, r.st;
      StepPeek(k, b, s, g, st, end, r.value, isOr);
      if Truthy(k.p.host, r.value, st.world) == isOr {
        ExprSooner(k, c0, s, L, f, a, b, end, r, w, fuel);
      } else {
        RunsTrans(k.p, c0, At(k, b, s + [r.value], g, st), At(k, b + 1, s, g, st));
        ExprLater(k, c0, At(k, b + 1, s, g, st), s, L, f, g, a, b + 1, end, r1, w1, fuel);
      }
    }
  }

  function Cons(r: R.Res<Value>, rest: R.Res<seq<Value>>): R.Res<seq<Value>> {
    if r.Stopped? then R.Stopped(r.why)
    else if rest.Stopped? then rest
    else R.Ok([r.value] + rest.value, rest.st)
  }

  /** The first expression of a list, and the others above its value. */
  lemma ListRuns(k: Ctx, a: nat, b: nat, end: nat, s: seq<Value>, L: seq<Local>, f: seq<Value>, c0: Cfg,
                 r: R.Res<Value>, w: Wit, r1: R.Res<seq<Value>>, w1: Wit, fuel: nat)
    requires a <= b <= end && ExprSim(k, c0, s, L, f, a, b, r, w, fuel)
    requires r.Ok? ==>
               ListSim(k, At(k, b, s + [r.value], w.f, r.st), s + [r.value], L, w.f, b, end, r1, w1, fuel)
    ensures ListSim(k, c0, s, L, f, a, end, Cons(r, r1), if r.Ok? then w1 else w, fuel)
  {
    hide Runs, RunsFor, StopSim, EnvOf, At;
    if r.Stopped? {
      StopWider(k, c0, L, f, a, b, end, r.why, w, fuel);
    } else {
      var s1 := s + [r.value];
      ListLater(k, c0, At(k, b, s1, w.f, r.st), s1, L, f, w.f, a, b, end, r1, w1, fuel);
      if r1.Ok? {
        assert s1 + r1.value == s + ([r.value] + r1.value);
      }
    }
  }

  lemma StopWider(k: Ctx, c: Cfg, L: seq<Local>, f: seq<Value>, lo: nat, hi: nat, hi1: nat, why: R.Stop, w: Wit,
                  fuel: nat)
    requires StopSim(k, c, L, f, lo, hi, why, w, fuel) && hi <= hi1
    ensures StopSim(k, c, L, f, lo, hi1, why, w, fuel)
  {
    hide Runs, RunsFor, Raise, EnvOf;
  }

  lemma OperandsStop(k: Ctx, c: Cfg, s: seq<Value>, L: seq<Local>, f: seq<Value>, lo: nat, hi: nat,
                     r: R.Res<seq<Value>>, w: Wit, fuel: nat)
    requires r.Stopped? && ListSim(k, c, s, L, f, lo, hi, r, w, fuel)
    ensures ExprSim(k, c, s, L, f, lo, hi + 1, R.Stopped(r.why), w, fuel)
  {
    hide StopSim;
    StopWider(k, c, L, f, lo, hi, hi + 1, r.why, w, fuel);
  }

  lemma ListGives(k: Ctx, c: Cfg, s: seq<Value>, L: seq<Local>, f: seq<Value>, lo: nat, hi: nat, r: R.Res<seq<Value>>,
                  w: Wit, fuel: nat)
    requires r.Ok? && ListSim(k, c, s, L, f, lo, hi, r, w, fuel) && |f| == k.ch.numLocals
    ensures Setting(k, L, w.f, r.st) && Keeps(L, f, w.f)
    ensures Runs(k.p, c, At(k, hi, s + r.value, w.f, r.st))
  {
    hide Runs, EnvOf;
  }

  /** One instruction that is a value operation. */
  lemma SimInstr(k: Ctx, fuel: nat, i: Instr, vs: seq<Value>, L: seq<Local>, b: nat, s: seq<Value>, f: seq<Value>,
                 st: R.St, o: Outcome)
    returns (w: Wit)
    requires Has(k.ch, b, i) && IsOperation(i) && |vs| == Arity(i)
    requires o == Perform(k.p.host, k.p.lenId, k.ch, i, vs, st.world)
    requires Setting(k, L, f, st)
    ensures w.f == f
    ensures ExprSim(k, At(k, b, s + vs, f, st), s, L, f, b, b + 1, R.Lift(o, st), w, fuel)
  {
    hide Runs, RunsFor, EnvOf, Perform, Arity, IsOperation;
    w := Wit(b, s, f);
    StepOperation(k, b, s, vs, f, st, i);
  }

  lemma BinaryOutcome(h: Host, lenId: nat, ch: Chunk, op: BinaryOp, l: Expr, r: Expr, L: seq<Local>, vs: seq<Value>,
                      w: World)
    requires |vs| == 2 && !op.And? && !op.Or?
    ensures var i := BinaryInstr(op, l, r, L);
            && IsOperation(i) && Arity(i) == 2
            && Perform(h, lenId, ch, i, vs, w) == R.BinaryValue(h, op, vs[0], vs[1], w)
  {
    hide Add, Arithmetic, Compare, Equal, EsInt;
    SpecialisedIsGeneric(h, lenId, ch, Specialised(Generic(op)), vs, w);
  }

  lemma PureOutcome(k: Ctx, e: Expr, vs: seq<Value>, L: seq<Local>, b: nat, st: R.St) returns (o: Outcome)
    requires R.IsOperationExpr(e) && !R.IsCall(e) && |vs| == |R.Operands(e, k.src.sigs)|
    requires HasOperation(k.ch, b, k.src.sigs, e, L) && k.p.host == k.src.host
    ensures b < |k.ch.code| && IsOperation(k.ch.code[b]) && |vs| == Arity(k.ch.code[b])
    ensures o == Perform(k.p.host, k.p.lenId, k.ch, k.ch.code[b], vs, st.world)
    ensures forall fuel: nat, depth: nat :: R.Perform(k.src, fuel, depth, e, vs, st) == R.Lift(o, st)
  {
    hide Add, Arithmetic, Compare, Equal, Truthy, GetIndex, GetMember, MakeDict, BinaryInstr, R.BinaryValue;
    if e.Binary? {
      BinaryOutcome(k.p.host, k.p.lenId, k.ch, e.bop, e.lhs, e.rhs, L, vs, st.world);
    }
    o := Perform(k.p.host, k.p.lenId, k.ch, k.ch.code[b], vs, st.world);
  }

  // ─── Steps ─────────────────────────────────────────────────────────────────

  /** The addition or subtraction of a step. */
  lemma StepOneMore(k: Ctx, pc: nat, s: seq<Value>, f: seq<Value>, st: R.St, plus: bool, v: Value)
    requires Has(k.ch, pc, StepInstr(plus))
    ensures Runs(k.p, At(k, pc, s + [v] + [Int(1)], f, st),
                 AfterOperation(k, pc, s, f, st, R.OneMore(k.p.host, plus, v, st.world)))
  {
    hide Runs, At, Raise, Add, Arithmetic;
    assert s + [v] + [Int(1)] == s + [v, Int(1)];
    StepOperation(k, pc, s, [v, Int(1)], f, st, StepInstr(plus));
  }

  lemma StepGetMember(k: Ctx, pc: nat, s: seq<Value>, f: seq<Value>, st: R.St, field: string, obj: Value)
    requires HasGetMember(k.ch, pc, field)
    ensures Runs(k.p, At(k, pc, s + [obj], f, st), AfterOperation(k, pc, s, f, st, GetMember(field, obj, st.world)))
  {
    hide Runs, At, Raise, GetMember;
    StepOperation(k, pc, s, [obj], f, st, k.ch.code[pc]);
  }

  lemma StepSetMember(k: Ctx, pc: nat, s: seq<Value>, f: seq<Value>, st: R.St, field: string, obj: Value, v: Value)
    requires HasSetMember(k.ch, pc, field)
    ensures Runs(k.p, At(k, pc, s + [obj] + [v], f, st),
                 AfterOperation(k, pc, s, f, st, SetMember(field, obj, v, st.world)))
  {
    hide Runs, At, Raise, SetMember;
    assert s + [obj] + [v] == s + [obj, v];
    StepOperation(k, pc, s, [obj, v], f, st, k.ch.code[pc]);
  }

  lemma StepGetIndex(k: Ctx, pc: nat, s: seq<Value>, f: seq<Value>, st: R.St, obj: Value, idx: Value)
    requires Has(k.ch, pc, OpGetIndex)
    ensures Runs(k.p, At(k, pc, s + [obj] + [idx], f, st),
                 AfterOperation(k, pc, s, f, st, GetIndex(obj, idx, st.world)))
  {
    hide Runs, At, Raise, GetIndex;
    assert s + [obj] + [idx] == s + [obj, idx];
    StepOperation(k, pc, s, [obj, idx], f, st, OpGetIndex);
  }

  lemma StepSetIndex(k: Ctx, pc: nat, s: seq<Value>, f: seq<Value>, st: R.St, obj: Value, idx: Value, v: Value)
    requires Has(k.ch, pc, OpSetIndex)
    ensures Runs(k.p, At(k, pc, s + [obj] + [idx] + [v], f, st),
                 AfterOperation(k, pc, s, f, st, SetIndex(obj, idx, v, st.world)))
  {
    hide Runs, At, Raise, SetIndex;
    assert s + [obj] + [idx] + [v] == s + [obj, idx, v];
    StepOperation(k, pc, s, [obj, idx, v], f, st, OpSetIndex);
  }

  /** `c` reaches `d` by way of the configurations between them. */
  lemma RunsTrans3(p: Program, c: Cfg, d: Cfg, e: Cfg, g: Cfg)
    requires Runs(p, c, d) && Runs(p, d, e) && Runs(p, e, g)
    ensures Runs(p, c, g)
  {
    hide Runs;
    RunsTrans(p, c, d, e);
    RunsTrans(p, c, e, g);
  }

  lemma RunsTrans4(p: Program, c: Cfg, d: Cfg, e: Cfg, g: Cfg, h: Cfg)
    requires Runs(p, c, d) && Runs(p, d, e) && Runs(p, e, g) && Runs(p, g, h)
    ensures Runs(p, c, h)
  {
    hide Runs;
    RunsTrans3(p, c, d, e, g);
    RunsTrans(p, c, g, h);
  }

  /** `++x` and `x++` on a variable. */
  lemma NameStepRuns(k: Ctx, post: bool, plus: bool, name: string, L: seq<Local>, a: nat, s: seq<Value>, f: seq<Value>,
                     st: R.St, fuel: nat)
    returns (w: Wit)
    requires NameStepCode(k.ch, post, plus, name, L, a) && Setting(k, L, f, st)
    ensures ExprSim(k, At(k, a, s, f, st), s, L, f, a, a + 5, R.StepName(k.p.host, post, plus, name, st), w, fuel)
  {
    hide Runs, At, Raise, EnvOf, R.OneMore, R.Lookup, R.Update, RunsFor;
    var i := ResolveLocal(L, name);
    var prev := f[i];
    var b := if post then a + 1 else a;
    var s0 := if post then s + [prev] else s;
    SlotHoldsVariable(L, f, name);
    var c0 := At(k, a, s, f, st);
    var c1 := At(k, b, s0, f, st);
    if post {
      StepLoad(k, a, s, f, st, i);
    } else {
      RunsRefl(k.p, c0);
    }
    StepLoad(k, b, s0, f, st, i);
    StepConst(k, b + 1, s0 + [prev], f, st, Int(1));
    StepOneMore(k, b + 2, s0, f, st, plus, prev);
    var c2 := At(k, b + 1, s0 + [prev], f, st);
    var c3 := At(k, b + 2, s0 + [prev] + [Int(1)], f, st);
    var o := R.OneMore(k.p.host, plus, prev, st.world);
    var c4 := AfterOperation(k, b + 2, s0, f, st, o);
    RunsTrans4(k.p, c0, c1, c2, c3, c4);
    w := Wit(b + 2, s0, f);
    if o.Good? {
      var st1 := st.(world := o.world);
      var g := f[i := o.value];
      SlotUpdatesVariable(L, f, name, o.value);
      StepStore(k, b + 3, s0, f, st1, i, o.value);
      var c5 := At(k, b + 4, s0, g, st1);
      RunsTrans(k.p, c0, c4, c5);
      w := Wit(0, [], g);
      var st2 := st1.(env := R.Update(st1.env, name, o.value));
      SameAt(k, b + 4, s0, g, st1, st2);
      if !post {
        StepLoad(k, b + 4, s0, g, st1, i);
        RunsTrans(k.p, c0, c5, At(k, b + 5, s + [o.value], g, st1));
        SameAt(k, b + 5, s + [o.value], g, st1, st2);
      }
    }
  }

  /** The machine does not see the environment. */
  lemma SameAt(k: Ctx, pc: nat, s: seq<Value>, f: seq<Value>, st: R.St, st1: R.St)
    requires st.world == st1.world && st.inputs == st1.inputs && st.steps == st1.steps
    ensures At(k, pc, s, f, st) == At(k, pc, s, f, st1)
  {
  }

  // The stages of a step on a field, whose object comes in as `ov`.

  lemma FieldRead(k: Ctx, post: bool, plus: bool, field: string, n: nat, b: nat, s: seq<Value>, f: seq<Value>, st: R.St,
                  ov: Value)
    requires FieldStepCode(k.ch, post, plus, field, n, b) && |f| == k.ch.numLocals
    ensures Runs(k.p, At(k, b, s + [ov], f, st),
                 AfterOperation(k, b + 2, s, f[n := ov], st, GetMember(field, ov, st.world)))
  {
    hide Runs, At, AfterOperation;
    var g := f[n := ov];
    StepStore(k, b, s, f, st, n, ov);
    StepLoad(k, b + 1, s, g, st, n);
    StepGetMember(k, b + 2, s, g, st, field, ov);
    RunsTrans3(k.p, At(k, b, s + [ov], f, st), At(k, b + 1, s, g, st), At(k, b + 2, s + [ov], g, st),
               AfterOperation(k, b + 2, s, g, st, GetMember(field, ov, st.world)));
  }

  lemma FieldAdd(k: Ctx, post: bool, plus: bool, field: string, n: nat, b: nat, s: seq<Value>, f: seq<Value>, st: R.St,
                 prev: Value)
    requires FieldStepCode(k.ch, post, plus, field, n, b) && |f| == k.ch.numLocals
    ensures Runs(k.p, At(k, b + 3, s + [prev], f, st),
                 AfterOperation(k, b + 7, s + [f[n]], f[n + 1 := prev], st, R.OneMore(k.p.host, plus, prev, st.world)))
  {
    hide Runs, At, AfterOperation, R.OneMore;
    var g := f[n + 1 := prev];
    var s1 := s + [f[n]];
    StepStore(k, b + 3, s, f, st, n + 1, prev);
    StepLoad(k, b + 4, s, g, st, n);
    StepLoad(k, b + 5, s1, g, st, n + 1);
    StepConst(k, b + 6, s1 + [prev], g, st, Int(1));
    StepOneMore(k, b + 7, s1, g, st, plus, prev);
    RunsTrans3(k.p, At(k, b + 3, s + [prev], f, st), At(k, b + 4, s, g, st), At(k, b + 5, s1, g, st),
               At(k, b + 6, s1 + [prev], g, st));
    RunsTrans3(k.p, At(k, b + 3, s + [prev], f, st), At(k, b + 6, s1 + [prev], g, st),
               At(k, b + 7, s1 + [prev] + [Int(1)], g, st),
               AfterOperation(k, b + 7, s1, g, st, R.OneMore(k.p.host, plus, prev, st.world)));
  }

  /** A step leaves the new value on the stack, or replaces it by the old one. */
  lemma StepResult(k: Ctx, post: bool, pc: nat, i: nat, s: seq<Value>, f: seq<Value>, st: R.St, v: Value)
    requires post ==> Has(k.ch, pc, OpPop) && Has(k.ch, pc + 1, OpLoadLocal(i)) && i < |f|
    ensures Runs(k.p, At(k, pc, s + [v], f, st),
                 if post then At(k, pc + 2, s + [f[i]], f, st) else At(k, pc, s + [v], f, st))
  {
    hide Runs, At;
    if post {
      StepPop(k, pc, s, f, st, v);
      StepLoad(k, pc + 1, s, f, st, i);
      RunsTrans(k.p, At(k, pc, s + [v], f, st), At(k, pc + 1, s, f, st), At(k, pc + 2, s + [f[i]], f, st));
    } else {
      RunsRefl(k.p, At(k, pc, s + [v], f, st));
    }
  }

  /** An operation, and what follows it when it gives a value. */
  lemma OperationThen(k: Ctx, c: Cfg, pc: nat, s0: seq<Value>, s: seq<Value>, L: seq<Local>, f: seq<Value>,
                      g: seq<Value>, lo: nat, hi: nat, st: R.St, o: Outcome, rest: R.Res<Value>, w: Wit, fuel: nat)
    requires Runs(k.p, c, AfterOperation(k, pc, s0, g, st, o)) && Keeps(L, f, g) && EnvOf(L, g) == st.env
    requires lo <= pc < hi && (o.Bad? ==> w == Wit(pc, s0, g))
    requires o.Good? ==>
               ExprSim(k, At(k, pc + 1, s0 + [o.value], g, st.(world := o.world)), s, L, g, lo, hi, rest, w, fuel)
    ensures ExprSim(k, c, s, L, f, lo, hi, if o.Good? then rest else Raised(o, st), w, fuel)
  {
    hide Runs, RunsFor, Raise, EnvOf, At;
    if o.Good? {
      hide ExprSim, Keeps;
      ExprLater(k, c, At(k, pc + 1, s0 + [o.value], g, st.(world := o.world)), s, L, f, g, lo, lo, hi, rest, w, fuel);
    }
  }

  function Raised(o: Outcome, st: R.St): R.Res<Value>
    requires o.Bad?
  {
    R.Stopped(R.Err(o.error, st.(world := o.after)))
  }

  /** The end of a step: the value written, or the old one, which is in slot `i`. */
  lemma ResultSim(k: Ctx, post: bool, pc: nat, i: nat, s: seq<Value>, L: seq<Local>, f: seq<Value>, lo: nat, hi: nat,
                  st: R.St, v: Value, w: Wit, fuel: nat)
    requires post ==> Has(k.ch, pc, OpPop) && Has(k.ch, pc + 1, OpLoadLocal(i)) && i < |f|
    requires hi == (if post then pc + 2 else pc) && |L| <= |f| && EnvOf(L, f) == st.env && w.f == f
    ensures ExprSim(k, At(k, pc, s + [v], f, st), s, L, f, lo, hi, R.Ok(if post then f[i] else v, st), w, fuel)
  {
    hide Runs, At, EnvOf;
    StepResult(k, post, pc, i, s, f, st, v);
  }

  lemma FieldStepRuns(k: Ctx, post: bool, plus: bool, field: string, L: seq<Local>, b: nat, s: seq<Value>,
                      f: seq<Value>, st: R.St, ov: Value, fuel: nat)
    returns (w: Wit)
    requires FieldStepCode(k.ch, post, plus, field, |L|, b) && Setting(k, L, f, st)
    ensures ExprSim(k, At(k, b, s + [ov], f, st), s, L, f, b, b + (if post then 11 else 9),
                    R.StepField(k.p.host, post, plus, ov, field, st), w, fuel)
  {
    hide Runs, At, Raise, EnvOf, RunsFor, R.OneMore, GetMember, SetMember, ExprSim, AfterOperation, Keeps;
    var n, hi := |L|, b + (if post then 11 else 9);
    var g := f[n := ov];
    FieldRead(k, post, plus, field, n, b, s, f, st, ov);
    FreeSlot(L, f, n, ov);
    var o1 := GetMember(field, ov, st.world);
    w := Wit(b + 2, s, g);
    var r1 := Raised(Bad("", st.world), st);
    if o1.Good? {
      var prev, st1 := o1.value, st.(world := o1.world);
      var h := g[n + 1 := prev];
      FreeSlot(L, g, n + 1, prev);
      FieldAdd(k, post, plus, field, n, b, s, g, st1, prev);
      var o2 := R.OneMore(k.p.host, plus, prev, st1.world);
      w := Wit(b + 7, s + [ov], h);
      var r2 := r1;
      if o2.Good? {
        var v, st2 := o2.value, st1.(world := o2.world);
        StepSetMember(k, b + 8, s, h, st2, field, ov, v);
        KeepsItself(L, h);
        var o3 := SetMember(field, ov, v, st2.world);
        w := Wit(b + 8, s, h);
        if o3.Good? {
          ResultSim(k, post, b + 9, n + 1, s, L, h, b, hi, st2.(world := o3.world), o3.value, w, fuel);
          SetGivesValue(field, ov, v, st2.world);
          r2 := R.Ok(if post then prev else v, st2.(world := o3.world));
        }
        OperationThen(k, At(k, b + 8, s + [ov] + [v], h, st2), b + 8, s, s, L, h, h, b, hi, st2, o3, r2, w, fuel);
        r2 := if o3.Good? then r2 else Raised(o3, st2);
      }
      OperationThen(k, At(k, b + 3, s + [prev], g, st1), b + 7, s + [ov], s, L, g, h, b, hi, st1, o2, r2, w, fuel);
      r1 := if o2.Good? then r2 else Raised(o2, st1);
    }
    OperationThen(k, At(k, b, s + [ov], f, st), b + 2, s, s, L, f, g, b, hi, st, o1, r1, w, fuel);
  }

  lemma KeepsItself(L: seq<Local>, f: seq<Value>)
    requires |L| <= |f|
    ensures Keeps(L, f, f)
  {
  }

  lemma SetGivesValue(field: string, obj: Value, v: Value, w: World)
    ensures SetMember(field, obj, v, w).Good? ==> SetMember(field, obj, v, w).value == v
  {
  }

  // The stages of a step on an element, whose container is in slot `n`.

  lemma ElementRead(k: Ctx, post: bool, plus: bool, n: nat, b: nat, s: seq<Value>, f: seq<Value>, st: R.St, iv: Value)
    requires ElementStepCode(k.ch, post, plus, n, b) && |f| == k.ch.numLocals
    ensures Runs(k.p, At(k, b, s + [iv], f, st),
                 AfterOperation(k, b + 3, s, f[n + 1 := iv], st, GetIndex(f[n], iv, st.world)))
  {
    hide Runs, At, AfterOperation, GetIndex;
    var g := f[n + 1 := iv];
    StepStore(k, b, s, f, st, n + 1, iv);
    StepLoad(k, b + 1, s, g, st, n);
    StepLoad(k, b + 2, s + [f[n]], g, st, n + 1);
    StepGetIndex(k, b + 3, s, g, st, f[n], iv);
    RunsTrans4(k.p, At(k, b, s + [iv], f, st), At(k, b + 1, s, g, st), At(k, b + 2, s + [f[n]], g, st),
               At(k, b + 3, s + [f[n]] + [iv], g, st),
               AfterOperation(k, b + 3, s, g, st, GetIndex(f[n], iv, st.world)));
  }

  lemma ElementAdd(k: Ctx, post: bool, plus: bool, n: nat, b: nat, s: seq<Value>, f: seq<Value>, st: R.St, prev: Value)
    requires ElementStepCode(k.ch, post, plus, n, b) && |f| == k.ch.numLocals
    ensures Runs(k.p, At(k, b + 4, s + [prev], f, st),
                 AfterOperation(k, b + 9, s + [f[n]] + [f[n + 1]], f[n + 2 := prev], st,
                                R.OneMore(k.p.host, plus, prev, st.world)))
  {
    hide Runs, At, AfterOperation, R.OneMore;
    var g := f[n + 2 := prev];
    var s1 := s + [f[n]];
    var s2 := s1 + [f[n + 1]];
    StepStore(k, b + 4, s, f, st, n + 2, prev);
    StepLoad(k, b + 5, s, g, st, n);
    StepLoad(k, b + 6, s1, g, st, n + 1);
    StepLoad(k, b + 7, s2, g, st, n + 2);
    StepConst(k, b + 8, s2 + [prev], g, st, Int(1));
    StepOneMore(k, b + 9, s2, g, st, plus, prev);
    RunsTrans4(k.p, At(k, b + 4, s + [prev], f, st), At(k, b + 5, s, g, st), At(k, b + 6, s1, g, st),
               At(k, b + 7, s2, g, st), At(k, b + 8, s2 + [prev], g, st));
    RunsTrans3(k.p, At(k, b + 4, s + [prev], f, st), At(k, b + 8, s2 + [prev], g, st),
               At(k, b + 9, s2 + [prev] + [Int(1)], g, st),
               AfterOperation(k, b + 9, s2, g, st, R.OneMore(k.p.host, plus, prev, st.world)));
  }

  /** The write at the end of a step on an element. */
  lemma ElementWrite(k: Ctx, post: bool, plus: bool, L: seq<Local>, b: nat, s: seq<Value>, h: seq<Value>, st: R.St,
                     iv: Value, v: Value, fuel: nat)
    returns (w: Wit)
    requires ElementStepCode(k.ch, post, plus, |L|, b) && Setting(k, L, h, st)
    ensures ExprSim(k, At(k, b + 10, s + [h[|L|]] + [iv] + [v], h, st), s, L, h, b, b + (if post then 13 else 11),
                    Write(post, h[|L| + 2], h[|L|], iv, v, st), w, fuel)
  {
    hide Runs, At, Raise, EnvOf, RunsFor, SetIndex, ExprSim, AfterOperation, Keeps;
    var n, hi := |L|, b + (if post then 13 else 11);
    var o := SetIndex(h[n], iv, v, st.world);
    StepSetIndex(k, b + 10, s, h, st, h[n], iv, v);
    KeepsItself(L, h);
    w := Wit(b + 10, s, h);
    var r := Raised(Bad("", st.world), st);
    if o.Good? {
      ResultSim(k, post, b + 11, n + 2, s, L, h, b, hi, st.(world := o.world), o.value, w, fuel);
      SetIndexGivesValue(h[n], iv, v, st.world);
      r := R.Ok(if post then h[n + 2] else v, st.(world := o.world));
    }
    OperationThen(k, At(k, b + 10, s + [h[n]] + [iv] + [v], h, st), b + 10, s, s, L, h, h, b, hi, st, o, r, w, fuel);
  }

  function Write(post: bool, prev: Value, obj: Value, idx: Value, v: Value, st: R.St): R.Res<Value> {
    var (_, st1) :- R.Lift(SetIndex(obj, idx, v, st.world), st);
    R.Ok(if post then prev else v, st1)
  }

  lemma ElementStepRuns(k: Ctx, post: bool, plus: bool, L: seq<Local>, b: nat, s: seq<Value>, f: seq<Value>, st: R.St,
                        iv: Value, fuel: nat)
    returns (w: Wit)
    requires ElementStepCode(k.ch, post, plus, |L|, b) && Setting(k, L, f, st)
    ensures ExprSim(k, At(k, b, s + [iv], f, st), s, L, f, b, b + (if post then 13 else 11),
                    R.StepElement(k.p.host, post, plus, f[|L|], iv, st), w, fuel)
  {
    hide Runs, At, Raise, EnvOf, RunsFor, R.OneMore, GetIndex, SetIndex, ExprSim, AfterOperation, Keeps;
    var n, hi := |L|, b + (if post then 13 else 11);
    var ov := f[n];
    var g := f[n + 1 := iv];
    ElementRead(k, post, plus, n, b, s, f, st, iv);
    FreeSlot(L, f, n + 1, iv);
    var o1 := GetIndex(ov, iv, st.world);
    w := Wit(b + 3, s, g);
    var r1 := Raised(Bad("", st.world), st);
    if o1.Good? {
      var prev, st1 := o1.value, st.(world := o1.world);
      var h := g[n + 2 := prev];
      FreeSlot(L, g, n + 2, prev);
      ElementAdd(k, post, plus, n, b, s, g, st1, prev);
      var o2 := R.OneMore(k.p.host, plus, prev, st1.world);
      var s2 := s + [ov] + [iv];
      w := Wit(b + 9, s2, h);
      var r2 := r1;
      if o2.Good? {
        var st2 := st1.(world := o2.world);
        w := ElementWrite(k, post, plus, L, b, s, h, st2, iv, o2.value, fuel);
        r2 := Write(post, prev, ov, iv, o2.value, st2);
      }
      OperationThen(k, At(k, b + 4, s + [prev], g, st1), b + 9, s2, s, L, g, h, b, hi, st1, o2, r2, w, fuel);
      r1 := if o2.Good? then r2 else Raised(o2, st1);
    }
    OperationThen(k, At(k, b, s + [iv], f, st), b + 3, s, s, L, f, g, b, hi, st, o1, r1, w, fuel);
  }

  lemma SetIndexGivesValue(obj: Value, idx: Value, v: Value, w: World)
    ensures SetIndex(obj, idx, v, w).Good? ==> SetIndex(obj, idx, v, w).value == v
  {
  }

  /** A hidden variable added to the scope is left alone, and is not in the environment. */
  lemma Unhide(k: Ctx, c: Cfg, s: seq<Value>, L: seq<Local>, h: Local, f: seq<Value>, lo: nat, hi: nat, r: R.Res<Value>,
               w: Wit, fuel: nat)
    requires Hidden(h.name) && |L| < |f| && ExprSim(k, c, s, L + [h], f, lo, hi, r, w, fuel)
    ensures ExprSim(k, c, s, L, f, lo, hi, r, w, fuel)
    ensures r.Ok? ==> |w.f| == |f| && w.f[|L|] == f[|L|]
  {
    hide Runs, RunsFor, Raise, EnvOf;
    if r.Ok? || r.why.Err? {
      assert (L + [h])[|L|] == h;
      KeepsFewer(L, L + [h], f, w.f);
      HiddenEnv(L, h, w.f);
    }
  }

  lemma HiddenEnv(L: seq<Local>, h: Local, f: seq<Value>)
    requires Hidden(h.name) && |L| < |f|
    ensures EnvOf(L + [h], f) == EnvOf(L, f)
  {
    EnvSnoc(L, h, f);
  }

  // ─── Calls ─────────────────────────────────────────────────────────────────

  /** The machine follows the run of a declaration in its own frame: it returns, or
    raises an error that no `try` of the frame covers. */
  ghost predicate DeclSim(k: Ctx, c: Cfg, r: R.Res<Value>, w: Wit, fuel: nat) {
    match r
    case Ok(v, st) => Runs(k.p, c, ReturnTo(k, v, st))
    case Stopped(Err(e, st)) =>
      && FindHandler(k.ch.ranges, w.pc, NoHandler) == NoHandler
      && Runs(k.p, c, RaiseAt(k, w.pc, w.s, w.f, st, e))
    case Stopped(Wait(id, args, st)) => Runs(k.p, c, Halt(Waiting(id, args, st.world)))
    case Stopped(NoFuel) => RunsFor(k.p, c, fuel)
  }

  /** The caller's variables are as they were. */
  function BackIn(r: R.Res<Value>, st: R.St): R.Res<Value> {
    match r
    case Ok(v, st1) => R.Ok(v, st1.(env := st.env))
    case Stopped(Err(e, st1)) => R.Stopped(R.Err(e, st1.(env := st.env)))
    case Stopped(why) => R.Stopped(why)
  }

  /** A call that enters the callee: what the callee's frame does is what the call
    does in the caller's. */
  lemma CallRuns(k: Ctx, b: nat, s: seq<Value>, vs: seq<Value>, L: seq<Local>, f: seq<Value>, st: R.St, index: nat,
                 st0: R.St, r: R.Res<Value>, w0: Wit, fuel: nat)
    returns (w: Wit)
    requires Has(k.ch, b, OpCallFunction(index, |vs|)) && Depth(k) < MAX_FRAMES
    requires index < |k.p.functions| && |vs| <= k.p.functions[index].numLocals
    requires Setting(k, L, f, st) && fuel > 0
    requires st0.world == st.world && st0.inputs == st.inputs && st0.steps == st.steps
    requires var ch := k.p.functions[index];
             var kc := Callee(k, b, s, f, ch);
             DeclSim(kc, At(kc, 0, [], vs + Nulls(ch.numLocals - |vs|), st0), r, w0, fuel - 1)
    ensures ExprSim(k, At(k, b, s + vs, f, st), s, L, f, b, b + 1, BackIn(r, st), w, fuel)
  {
    hide Runs, At, Raise, RunsFor, EnvOf, FindHandler, Nulls;
    var ch := k.p.functions[index];
    var kc := Callee(k, b, s, f, ch);
    var f0 := vs + Nulls(ch.numLocals - |vs|);
    var c, c1 := At(k, b, s + vs, f, st), At(kc, 0, [], f0, st);
    StepCall(k, b, s, vs, f, st, index);
    SameAt(kc, 0, [], f0, st0, st);
    w := Wit(b, s, f);
    match r {
      case Ok(v, st1) =>
        ReturnArrives(k, b, s, f, ch, v, st1);
        SameAt(k, b + 1, s + [v], f, st1, st1.(env := st.env));
        RunsTrans(k.p, c, c1, ReturnTo(kc, v, st1));
      case Stopped(Err(e, st1)) =>
        RaiseEscapes(k, b, s, f, ch, w0.pc, w0.s, w0.f, st1, e, st1.(env := st.env));
        RunsTrans(k.p, c, c1, RaiseAt(kc, w0.pc, w0.s, w0.f, st1, e));
      case Stopped(Wait(id, args, st1)) =>
        RunsTrans(k.p, c, c1, Halt(Waiting(id, args, st1.world)));
      case Stopped(NoFuel) =>
        CallCounts(k, b, s, vs, f, st, index, fuel - 1);
    }
  }

  /** A call that does not enter the callee. */
  lemma CallFails(k: Ctx, b: nat, s: seq<Value>, vs: seq<Value>, L: seq<Local>, f: seq<Value>, st: R.St, index: nat,
                  fuel: nat)
    returns (w: Wit)
    requires Has(k.ch, b, OpCallFunction(index, |vs|)) && Setting(k, L, f, st)
    requires index >= |k.p.functions| || (Depth(k) >= MAX_FRAMES && |vs| <= k.p.functions[index].numLocals)
    ensures ExprSim(k, At(k, b, s + vs, f, st), s, L, f, b, b + 1,
                    R.Stopped(R.Err(if index >= |k.p.functions| then NO_FUNCTION_ERROR else RECURSION_ERROR, st)),
                    w, fuel)
  {
    hide Runs, At, Raise, RunsFor, EnvOf, Nulls;
    StepCall(k, b, s, vs, f, st, index);
    w := Wit(b, s + vs, f);
  }

  /** Every run can be asked to make no step. */
  lemma RunsForZero(p: Program, c: Cfg)
    requires c.Run?
    ensures RunsFor(p, c, 0)
  {
    hide Machine.Step;
    assert IsRun(p, [c]);
  }

  /** An awaited builtin takes the next resumption, or ends the run. */
  lemma AwaitRuns(k: Ctx, b: nat, s: seq<Value>, vs: seq<Value>, L: seq<Local>, f: seq<Value>, st: R.St, id: nat,
                  fuel: nat)
    returns (w: Wit)
    requires Has(k.ch, b, OpCallAsync(id, |vs|)) && Setting(k, L, f, st)
    ensures ExprSim(k, At(k, b, s + vs, f, st), s, L, f, b, b + 1,
                    if st.inputs == [] then R.Stopped(R.Wait(id, vs, st))
                    else R.Ok(st.inputs[0].value, R.St(st.env, st.inputs[0].world, 0, st.inputs[1..])), w, fuel)
  {
    hide Runs, At, Raise, RunsFor, EnvOf;
    StepAsync(k, b, s, vs, f, st, id);
    w := Wit(b, s, f);
  }
}
