/** The run of every kind of statement, from the runs of its parts. */
module StmtRuns {
  import opened Wrappers
  import opened Values
  import opened Ast
  import opened Bytecode
  import opened Machine
  import opened Layout
  import opened Slots
  import opened MachineSteps
  import opened Composition
  import opened StmtComposition
  import R = Reference

  // ─── One expression and one instruction ────────────────────────────────────

  function Returned(r: R.Res<Value>): R.Res<R.Signal> {
    if r.Ok? then R.Ok(R.Returning(r.value), r.st) else R.Stopped(r.why)
  }

  function Discarded(r: R.Res<Value>): R.Res<R.Signal> {
    if r.Ok? then R.Ok(R.Normal, r.st) else R.Stopped(r.why)
  }

  function Declared(r: R.Res<Value>, name: string): R.Res<R.Signal> {
    if r.Ok? then R.Ok(R.Normal, r.st.(env := r.st.env + [R.Binding(name, r.value)])) else R.Stopped(r.why)
  }

  function Assigned(r: R.Res<Value>, name: string): R.Res<R.Signal> {
    if r.Ok? then R.Ok(R.Normal, r.st.(env := R.Update(r.st.env, name, r.value))) else R.Stopped(r.why)
  }

  lemma ReturnRuns(k: Ctx, c: Cfg, L: seq<Local>, M: seq<Local>, f: seq<Value>, a: nat, b: nat, t: Targets,
                   r: R.Res<Value>, w: Wit, fuel: nat)
    requires ExprSim(k, c, [], L, f, a, b, r, w, fuel) && Has(k.ch, b, OpReturn) && |f| == k.ch.numLocals
    ensures StmtSim(k, c, L, M, f, a, b + 1, t, [], Returned(r), w, fuel)
  {
    hide Runs, RunsFor, Raise, EnvOf, At;
    if r.Ok? {
      ExprGives(k, c, [], L, f, a, b, r, w, fuel);
      StepReturn(k, b, [], w.f, r.st, r.value);
      RunsTrans(k.p, c, At(k, b, [] + [r.value], w.f, r.st), ReturnTo(k, r.value, r.st));
    } else {
      StmtStops(k, c, [], L, M, f, a, b, b + 1, t, [], r, w, fuel);
    }
  }

  lemma ReturnNullRuns(k: Ctx, L: seq<Local>, M: seq<Local>, f: seq<Value>, a: nat, t: Targets, st: R.St, w: Wit,
                       fuel: nat)
    requires Has(k.ch, a, OpReturnNull)
    ensures StmtSim(k, At(k, a, [], f, st), L, M, f, a, a + 1, t, [], R.Ok(R.Returning(Null), st), w, fuel)
  {
    hide Runs, RunsFor, Raise, EnvOf, At;
    StepReturnNull(k, a, [], f, st);
  }

  lemma ExprStmtRuns(k: Ctx, c: Cfg, L: seq<Local>, f: seq<Value>, a: nat, b: nat, t: Targets, r: R.Res<Value>, w: Wit,
                     fuel: nat)
    requires ExprSim(k, c, [], L, f, a, b, r, w, fuel) && Has(k.ch, b, OpPop) && |f| == k.ch.numLocals
    ensures StmtSim(k, c, L, L, f, a, b + 1, t, [], Discarded(r), w, fuel)
  {
    hide Runs, RunsFor, Raise, EnvOf, At;
    if r.Ok? {
      ExprGives(k, c, [], L, f, a, b, r, w, fuel);
      StepPop(k, b, [], w.f, r.st, r.value);
      RunsTrans(k.p, c, At(k, b, [] + [r.value], w.f, r.st), At(k, b + 1, [], w.f, r.st));
    } else {
      StmtStops(k, c, [], L, L, f, a, b, b + 1, t, [], r, w, fuel);
    }
  }

  lemma VarDeclRuns(k: Ctx, c: Cfg, L: seq<Local>, x: Local, f: seq<Value>, a: nat, b: nat, t: Targets, r: R.Res<Value>,
                    w: Wit, fuel: nat)
    returns (w1: Wit)
    requires ExprSim(k, c, [], L, f, a, b, r, w, fuel) && |f| == k.ch.numLocals
    requires Has(k.ch, b, OpStoreLocal(|L|)) && |L| < k.ch.numLocals && !Hidden(x.name)
    ensures StmtSim(k, c, L, L + [x], f, a, b + 1, t, [], Declared(r, x.name), w1, fuel)
  {
    hide Runs, RunsFor, Raise, EnvOf, At;
    w1 := w;
    if r.Ok? {
      ExprGives(k, c, [], L, f, a, b, r, w, fuel);
      var g := w.f[|L| := r.value];
      w1 := Wit(0, [], g);
      StepStore(k, b, [], w.f, r.st, |L|, r.value);
      FreeSlot(L, w.f, |L|, r.value);
      KeepsTrans(L, f, w.f, g);
      EnvSnoc(L, x, g);
      var st1 := r.st.(env := r.st.env + [R.Binding(x.name, r.value)]);
      SameAt(k, b + 1, [], g, r.st, st1);
      RunsTrans(k.p, c, At(k, b, [] + [r.value], w.f, r.st), At(k, b + 1, [], g, r.st));
    } else {
      StmtStops(k, c, [], L, L + [x], f, a, b, b + 1, t, [], r, w, fuel);
    }
  }

  lemma AssignRuns(k: Ctx, c: Cfg, L: seq<Local>, name: string, f: seq<Value>, a: nat, b: nat, t: Targets,
                   r: R.Res<Value>, w: Wit, fuel: nat)
    returns (w1: Wit)
    requires ExprSim(k, c, [], L, f, a, b, r, w, fuel) && |f| == k.ch.numLocals && HasStore(k.ch, b, L, name)
    ensures StmtSim(k, c, L, L, f, a, b + 1, t, [], Assigned(r, name), w1, fuel)
  {
    hide Runs, RunsFor, Raise, EnvOf, At;
    w1 := w;
    if r.Ok? {
      ExprGives(k, c, [], L, f, a, b, r, w, fuel);
      var i := ResolveLocal(L, name);
      var g := w.f[i := r.value];
      w1 := Wit(0, [], g);
      StepStore(k, b, [], w.f, r.st, i, r.value);
      SlotUpdatesVariable(L, w.f, name, r.value);
      KeepsTrans(L, f, w.f, g);
      var st1 := r.st.(env := R.Update(r.st.env, name, r.value));
      SameAt(k, b + 1, [], g, r.st, st1);
      RunsTrans(k.p, c, At(k, b, [] + [r.value], w.f, r.st), At(k, b + 1, [], g, r.st));
    } else {
      StmtStops(k, c, [], L, L, f, a, b, b + 1, t, [], r, w, fuel);
    }
  }

  /** An operation run for its effect. */
  function Effect(h: Host, lenId: nat, ch: Chunk, i: Instr, r: R.Res<seq<Value>>): R.Res<R.Signal>
    requires r.Ok? ==> IsOperation(i) && |r.value| == Arity(i)
  {
    if r.Stopped? then R.Stopped(r.why) else Discarded(R.Lift(Perform(h, lenId, ch, i, r.value, r.st.world), r.st))
  }

  lemma EffectRuns(k: Ctx, c: Cfg, L: seq<Local>, f: seq<Value>, a: nat, b: nat, t: Targets, i: Instr,
                   r: R.Res<seq<Value>>, w: Wit, fuel: nat)
    returns (w1: Wit)
    requires ListSim(k, c, [], L, f, a, b, r, w, fuel) && |f| == k.ch.numLocals && a <= b
    requires Has(k.ch, b, i) && Has(k.ch, b + 1, OpPop) && (r.Ok? ==> IsOperation(i) && |r.value| == Arity(i))
    ensures StmtSim(k, c, L, L, f, a, b + 2, t, [], Effect(k.p.host, k.p.lenId, k.ch, i, r), w1, fuel)
  {
    hide Runs, RunsFor, Raise, EnvOf, At, Perform, Arity, IsOperation;
    w1 := w;
    if r.Ok? {
      ListGives(k, c, [], L, f, a, b, r, w, fuel);
      StepOperation(k, b, [], r.value, w.f, r.st, i);
      var o := Perform(k.p.host, k.p.lenId, k.ch, i, r.value, r.st.world);
      RunsTrans(k.p, c, At(k, b, [] + r.value, w.f, r.st), AfterOperation(k, b, [], w.f, r.st, o));
      w1 := Wit(b, [], w.f);
      if o.Good? {
        var st1 := r.st.(world := o.world);
        StepPop(k, b + 1, [], w.f, st1, o.value);
        RunsTrans(k.p, c, At(k, b + 1, [] + [o.value], w.f, st1), At(k, b + 2, [], w.f, st1));
      }
    }
  }

  // ─── Branches ──────────────────────────────────────────────────────────────

  /** A condition and the branch it chooses, which ends at the end of the statement or
    with a jump to it. */
  lemma BranchRuns(k: Ctx, c: Cfg, L: seq<Local>, f: seq<Value>, a: nat, b: nat, to: nat, lo: nat, hi: nat, end: nat,
                   t: Targets, rs1: seq<TryRange>, rs: seq<TryRange>, r: R.Res<Value>, w: Wit, r1: R.Res<R.Signal>,
                   w1: Wit, fuel: nat)
    requires a <= b < lo <= hi <= end && |f| == k.ch.numLocals
    requires ExprSim(k, c, [], L, f, a, b, r, w, fuel) && Has(k.ch, b, OpJumpIfFalse(to))
    requires r.Ok? ==> lo == if Truthy(k.p.host, r.value, r.st.world) then b + 1 else to
    requires r.Ok? ==> StmtSim(k, At(k, lo, [], w.f, r.st), L, L, w.f, lo, hi, t, rs1, r1, w1, fuel)
    requires hi == end || (Has(k.ch, hi, OpJump(end)) && hi + 1 < end)
    requires Apart(rs, a, b) && forall x :: x in rs ==> x in rs1 || x.end <= lo || hi <= x.begin
    ensures StmtSim(k, c, L, L, f, a, end, t, rs, if r.Ok? then r1 else R.Stopped(r.why), if r.Ok? then w1 else w, fuel)
  {
    hide Runs, RunsFor, Raise, EnvOf, At, StmtSim, Truthy;
    if r.Stopped? {
      StmtStops(k, c, [], L, L, f, a, b, end, t, rs, r, w, fuel);
    } else {
      ExprGives(k, c, [], L, f, a, b, r, w, fuel);
      StepJumpIfFalse(k, b, [], w.f, r.st, to, r.value);
      var d := At(k, lo, [], w.f, r.st);
      RunsTrans(k.p, c, At(k, b, [] + [r.value], w.f, r.st), d);
      StmtLater(k, c, d, L, L, f, w.f, a, lo, hi, t, rs1, r1, w1, fuel);
      if r1.Ok? && r1.value.Normal? {
        if hi == end {
          RunsRefl(k.p, At(k, hi, [], w1.f, r1.st));
        } else {
          StepJump(k, hi, [], w1.f, r1.st, end);
        }
      }
      PartOfBranch(k, c, d, L, f, w.f, a, lo, hi, end, t, rs1, rs, r1, w1, fuel);
    }
  }

  lemma PartOfBranch(k: Ctx, c: Cfg, d: Cfg, L: seq<Local>, f: seq<Value>, g: seq<Value>, a: nat, lo: nat, hi: nat,
                     end: nat, t: Targets, rs1: seq<TryRange>, rs: seq<TryRange>, r: R.Res<R.Signal>, w: Wit, fuel: nat)
    requires Runs(k.p, c, d) && Keeps(L, f, g) && a <= lo && hi <= end
    requires StmtSim(k, d, L, L, g, lo, hi, t, rs1, r, w, fuel)
    requires forall x :: x in rs ==> x in rs1 || x.end <= lo || hi <= x.begin
    requires r.Ok? && r.value.Normal? ==> Runs(k.p, At(k, hi, [], w.f, r.st), At(k, end, [], w.f, r.st))
    ensures StmtSim(k, c, L, L, f, a, end, t, rs, r, w, fuel)
  {
    hide Runs, StmtSim, At;
    StmtPart(k, d, L, L, g, lo, hi, end, lo, t, rs1, rs, r, w, fuel);
    StmtLater(k, c, d, L, L, f, g, a, lo, end, t, rs, r, w, fuel);
  }

  /** `require`: the jump over the `else` value, or that value returned. */
  lemma RequireRuns(k: Ctx, c: Cfg, L: seq<Local>, f: seq<Value>, a: nat, b: nat, e: nat, t: Targets, r: R.Res<Value>,
                    w: Wit, r1: R.Res<Value>, w1: Wit, fuel: nat)
    requires a <= b && b + 2 < e && |f| == k.ch.numLocals
    requires ExprSim(k, c, [], L, f, a, b, r, w, fuel)
    requires Has(k.ch, b, OpJumpIfFalse(b + 2)) && Has(k.ch, b + 1, OpJump(e + 1)) && Has(k.ch, e, OpReturn)
    requires r.Ok? && !Truthy(k.p.host, r.value, r.st.world) ==>
               ExprSim(k, At(k, b + 2, [], w.f, r.st), [], L, w.f, b + 2, e, r1, w1, fuel)
    ensures StmtSim(k, c, L, L, f, a, e + 1, t, [],
                    if r.Stopped? then R.Stopped(r.why)
                    else if Truthy(k.p.host, r.value, r.st.world) then R.Ok(R.Normal, r.st) else Returned(r1),
                    if r.Ok? && !Truthy(k.p.host, r.value, r.st.world) then w1 else w, fuel)
  {
    hide Runs, RunsFor, Raise, EnvOf, At, Truthy, ExprSim;
    if r.Stopped? {
      StmtStops(k, c, [], L, L, f, a, b, e + 1, t, [], r, w, fuel);
    } else {
      ExprGives(k, c, [], L, f, a, b, r, w, fuel);
      StepJumpIfFalse(k, b, [], w.f, r.st, b + 2, r.value);
      var yes := Truthy(k.p.host, r.value, r.st.world);
      var d := At(k, if yes then b + 1 else b + 2, [], w.f, r.st);
      RunsTrans(k.p, c, At(k, b, [] + [r.value], w.f, r.st), d);
      if yes {
        StepJump(k, b + 1, [], w.f, r.st, e + 1);
        RunsTrans(k.p, c, d, At(k, e + 1, [], w.f, r.st));
      } else {
        ReturnRuns(k, d, L, L, w.f, b + 2, e, t, r1, w1, fuel);
        StmtLater(k, c, d, L, L, f, w.f, a, b + 2, e + 1, t, [], Returned(r1), w1, fuel);
      }
    }
  }

  // ─── Jumps out of a loop body ──────────────────────────────────────────────

  lemma BreakRuns(k: Ctx, L: seq<Local>, f: seq<Value>, a: nat, t: Targets, lc: R.Loop, st: R.St, fuel: nat)
    returns (w: Wit)
    requires t.Targets? && Has(k.ch, a, OpJump(t.brk)) && LoopFits(lc, t, a, a + 1) && Setting(k, L, f, st)
    ensures StmtSim(k, At(k, a, [], f, st), L, L, f, a, a + 1, t, [], R.Ok(R.Breaking, st), w, fuel)
  {
    hide Runs, RunsFor, Raise, EnvOf, At;
    w := Wit(0, [], f);
    StepJump(k, a, [], f, st, t.brk);
  }

  /** Whether a `continue` is a counted jump. */
  predicate Counted(lc: R.Loop) { lc.InWhile? || (lc.InFor? && lc.last) }

  function Ticked(r: R.Res<()>, s: R.Signal): R.Res<R.Signal> {
    if r.Ok? then R.Ok(s, r.st) else R.Stopped(r.why)
  }

  lemma ContinueRuns(k: Ctx, L: seq<Local>, f: seq<Value>, a: nat, t: Targets, lc: R.Loop, st: R.St, fuel: nat)
    returns (w: Wit)
    requires t.Targets? && Has(k.ch, a, OpJump(t.cont)) && LoopFits(lc, t, a, a + 1) && Setting(k, L, f, st)
    ensures StmtSim(k, At(k, a, [], f, st), L, L, f, a, a + 1, t, [],
                    if Counted(lc) then Ticked(R.Tick(st), R.Continuing) else R.Ok(R.Continuing, st), w, fuel)
  {
    hide Runs, RunsFor, Raise, EnvOf, At;
    w := Wit(a, [], f);
    if Counted(lc) {
      StepCountedJump(k, a, [], f, st, t.cont);
    } else {
      StepJump(k, a, [], f, st, t.cont);
    }
  }

  // ─── Loops ─────────────────────────────────────────────────────────────────

  predicate GoesRound(r: R.Res<R.Signal>) { r.Ok? && (r.value.Normal? || r.value.Continuing?) }

  /** What a body that ended makes of a loop that it does not go round again. */
  function LeftLoop(r: R.Res<R.Signal>): R.Res<R.Signal> {
    if r.Ok? && r.value.Breaking? then R.Ok(R.Normal, r.st) else r
  }

  /** The test of a loop fails or stops. */
  lemma TestEnds(k: Ctx, c: Cfg, L: seq<Local>, f: seq<Value>, a: nat, b: nat, end: nat, t: Targets, rs: seq<TryRange>,
                 r: R.Res<Value>, w: Wit, fuel: nat)
    requires a <= b < end && |f| == k.ch.numLocals && Apart(rs, a, b)
    requires ExprSim(k, c, [], L, f, a, b, r, w, fuel) && Has(k.ch, b, OpJumpIfFalse(end))
    requires r.Ok? ==> !Truthy(k.p.host, r.value, r.st.world)
    ensures StmtSim(k, c, L, L, f, a, end, t, rs, Discarded(r), w, fuel)
  {
    hide Runs, RunsFor, Raise, EnvOf, At, Truthy;
    if r.Stopped? {
      StmtStops(k, c, [], L, L, f, a, b, end, t, rs, r, w, fuel);
    } else {
      ExprGives(k, c, [], L, f, a, b, r, w, fuel);
      StepJumpIfFalse(k, b, [], w.f, r.st, end, r.value);
      RunsTrans(k.p, c, At(k, b, [] + [r.value], w.f, r.st), At(k, end, [], w.f, r.st));
    }
  }

  /** A body that leaves the loop: `break` is a normal end of the loop. */
  lemma BodyLeaves(k: Ctx, c: Cfg, d: Cfg, L: seq<Local>, f: seq<Value>, g: seq<Value>, a: nat, lo: nat, hi: nat,
                   end: nat, cont: nat, t: Targets, rs: seq<TryRange>, r: R.Res<R.Signal>, w: Wit, fuel: nat)
    requires Runs(k.p, c, d) && Keeps(L, f, g) && a <= lo && hi <= end && !GoesRound(r)
    requires StmtSim(k, d, L, L, g, lo, hi, Targets(end, cont), rs, r, w, fuel)
    ensures StmtSim(k, c, L, L, f, a, end, t, rs, LeftLoop(r), w, fuel)
  {
    hide Runs, RunsFor, Raise, EnvOf, At;
    StmtLater(k, c, d, L, L, f, g, a, lo, hi, Targets(end, cont), rs, r, w, fuel);
  }

  /** A loop goes round: its test has held, the body and what follows it have brought
    the run to `d`, and the rest of the loop runs from there.  The test is a step. */
  lemma LoopGoesOn(k: Ctx, c: Cfg, b: nat, v: Value, d: Cfg, L: seq<Local>, f: seq<Value>, g0: seq<Value>,
                   g: seq<Value>, a: nat, end: nat, t: Targets, rs: seq<TryRange>, st: R.St, to: nat,
                   r: R.Res<R.Signal>, w: Wit, fuel: nat)
    requires Runs(k.p, c, At(k, b, [] + [v], g0, st)) && Has(k.ch, b, OpJumpIfFalse(to))
    requires Truthy(k.p.host, v, st.world) && Runs(k.p, At(k, b + 1, [], g0, st), d) && Keeps(L, f, g)
    requires fuel > 0 && StmtSim(k, d, L, L, g, a, end, t, rs, r, w, fuel - 1)
    ensures StmtSim(k, c, L, L, f, a, end, t, rs, r, w, fuel)
  {
    hide Runs, RunsFor, Raise, EnvOf, At, Truthy;
    var c1, c2 := At(k, b, [] + [v], g0, st), At(k, b + 1, [], g0, st);
    StepJumpIfFalse(k, b, [], g0, st, to, v);
    RunsTrans3(k.p, c, c1, c2, d);
    if r.Stopped? && r.why.NoFuel? {
      RunsForTrans(k.p, c2, d, fuel - 1);
      TestCounts(k, b, [], g0, st, to, v, fuel - 1);
      RunsForTrans(k.p, c, c1, fuel);
    } else {
      AnyFuel(k, d, L, g, a, end, t, rs, r, w, fuel - 1, fuel);
      StmtLater(k, c, d, L, L, f, g, a, a, end, t, rs, r, w, fuel);
    }
  }

  lemma AnyFuel(k: Ctx, c: Cfg, L: seq<Local>, f: seq<Value>, lo: nat, hi: nat, t: Targets, rs: seq<TryRange>,
                r: R.Res<R.Signal>, w: Wit, fuel: nat, fuel1: nat)
    requires !(r.Stopped? && r.why.NoFuel?) && StmtSim(k, c, L, L, f, lo, hi, t, rs, r, w, fuel)
    ensures StmtSim(k, c, L, L, f, lo, hi, t, rs, r, w, fuel1)
  {
    hide Runs, RunsFor, Raise, EnvOf, At;
  }

  /** The counted jump that closes a loop, at `e`, from which the error of the step
    limit is raised. */
  lemma BackJump(k: Ctx, c: Cfg, L: seq<Local>, f: seq<Value>, g: seq<Value>, a: nat, e: nat, to: nat, t: Targets,
                 rs: seq<TryRange>, st: R.St, fuel: nat)
    returns (w: Wit)
    requires Runs(k.p, c, At(k, e, [], g, st)) && Has(k.ch, e, OpJump(to)) && to <= e && a <= e && Keeps(L, f, g)
    requires Setting(k, L, g, st) && forall x :: x in rs ==> x.end <= e
    ensures w.f == g
    ensures var r := R.Tick(st);
            if r.Ok? then Runs(k.p, c, At(k, to, [], g, r.st)) && Setting(k, L, g, r.st)
            else StmtSim(k, c, L, L, f, a, e + 1, t, rs, R.Stopped(r.why), w, fuel)
  {
    hide Runs, RunsFor, Raise, EnvOf, At;
    w := Wit(e, [], g);
    StepCountedJump(k, e, [], g, st, to);
    var r := R.Tick(st);
    if r.Ok? {
      RunsTrans(k.p, c, At(k, e, [], g, st), At(k, to, [], g, r.st));
    } else {
      RunsTrans(k.p, c, At(k, e, [], g, st), RaiseAt(k, e, [], g, st, STEP_LIMIT_ERROR));
    }
  }

  /** The end of a body of a `while`: the jump back, unless a `continue` already was it. */
  function Round(r: R.Res<R.Signal>): R.Res<()>
    requires GoesRound(r)
  {
    if r.value.Normal? then R.Tick(r.st) else R.Ok((), r.st)
  }

  lemma WhileRound(k: Ctx, d: Cfg, L: seq<Local>, g: seq<Value>, a: nat, b: nat, e: nat, t: Targets, rs: seq<TryRange>,
                   r: R.Res<R.Signal>, w: Wit, fuel: nat)
    returns (w1: Wit)
    requires a <= b < e && |g| == k.ch.numLocals && GoesRound(r) && Has(k.ch, e, OpJump(a))
    requires StmtSim(k, d, L, L, g, b + 1, e, Targets(e + 1, a), rs, r, w, fuel) && forall x :: x in rs ==> x.end <= e
    ensures w1.f == w.f
    ensures var r1 := Round(r);
            if r1.Ok? then Runs(k.p, d, At(k, a, [], w.f, r1.st)) && Keeps(L, g, w.f) && Setting(k, L, w.f, r1.st)
            else StmtSim(k, d, L, L, g, a, e + 1, t, rs, R.Stopped(r1.why), w1, fuel)
  {
    hide Runs, RunsFor, Raise, EnvOf, At, StmtSim, R.Tick;
    StmtGives(k, d, L, L, g, b + 1, e, Targets(e + 1, a), rs, r, w, fuel);
    w1 := w;
    if r.value.Normal? {
      w1 := BackJump(k, d, L, g, w.f, a, e, a, t, rs, r.st, fuel);
    }
  }

  // ─── for ───────────────────────────────────────────────────────────────────

  /** The hidden variables of a `for` hold the list, the count and the index. */
  predicate ForSlots(f: seq<Value>, n: nat, l: Value, count: int, i: int) {
    n + 4 <= |f| && f[n] == l && f[n + 1] == Int(count) && f[n + 2] == Int(i)
  }

  /** Before the first turn: from the value to be walked to the test. */
  lemma ForHeadRuns(k: Ctx, L: seq<Local>, f: seq<Value>, b: nat, st: R.St, v: Value, fuel: nat) returns (w: Wit)
    requires ForHead(k.ch, b, |L|) && Has(k.ch, b + 3, OpCallNative(k.p.lenId, 1)) && Setting(k, L, f, st)
    requires |L| + 4 <= k.ch.numLocals
    ensures var r := R.Lift(IterList(v, st.world), st);
            if r.Stopped? then StopSim(k, At(k, b, [] + [v], f, st), L, f, b, b + 7, r.why, w, fuel)
            else
              && Runs(k.p, At(k, b, [] + [v], f, st), At(k, b + 7, [], w.f, r.st)) && Setting(k, L, w.f, r.st)
              && Keeps(L, f, w.f)
              && ForSlots(w.f, |L|, r.value, Wrap(|Items(r.st.world.heap, R.ListAt(r.value))|), 0)
  {
    hide Runs, RunsFor, Raise, EnvOf, At;
    var n := |L|;
    var c := At(k, b, [] + [v], f, st);
    w := Wit(b, [], f);
    StepIterList(k, b, f, st, v);
    var o := IterList(v, st.world);
    if o.Good? {
      var l, st1 := o.value, st.(world := o.world);
      var count := Wrap(|Items(st1.world.heap, R.ListAt(l))|);
      var g1 := f[n := l];
      var g2 := g1[n + 1 := Int(count)];
      var g3 := g2[n + 2 := Int(0)];
      StepStore(k, b + 1, [], f, st1, n, l);
      StepLoad(k, b + 2, [], g1, st1, n);
      RunsTrans4(k.p, c, c, At(k, b + 1, [] + [l], f, st1), At(k, b + 2, [], g1, st1), At(k, b + 3, [] + [l], g1, st1))
        by { RunsRefl(k.p, c); }
      StepLen(k, b + 3, g1, st1, l);
      StepStore(k, b + 4, [], g1, st1, n + 1, Int(count));
      StepConst(k, b + 5, [], g2, st1, Int(0));
      StepStore(k, b + 6, [], g2, st1, n + 2, Int(0));
      RunsTrans4(k.p, At(k, b + 3, [] + [l], g1, st1), At(k, b + 4, [] + [Int(count)], g1, st1),
                 At(k, b + 5, [], g2, st1),
                 At(k, b + 6, [] + [Int(0)], g2, st1), At(k, b + 7, [], g3, st1));
      RunsTrans(k.p, c, At(k, b + 3, [] + [l], g1, st1), At(k, b + 7, [], g3, st1));
      FreeSlot(L, f, n, l);
      FreeSlot(L, g1, n + 1, Int(count));
      FreeSlot(L, g2, n + 2, Int(0));
      w := Wit(0, [], g3);
    }
  }

  lemma StepIterList(k: Ctx, pc: nat, f: seq<Value>, st: R.St, v: Value)
    requires Has(k.ch, pc, OpIterList)
    ensures Runs(k.p, At(k, pc, [] + [v], f, st), AfterOperation(k, pc, [], f, st, IterList(v, st.world)))
    ensures IterList(v, st.world).Good? ==> IterList(v, st.world).value.List?
  {
    hide Runs, At, Raise;
    StepOperation(k, pc, [], [v], f, st, OpIterList);
  }

  lemma StepLen(k: Ctx, pc: nat, f: seq<Value>, st: R.St, l: Value)
    requires Has(k.ch, pc, OpCallNative(k.p.lenId, 1)) && l.List?
    ensures Runs(k.p, At(k, pc, [] + [l], f, st),
                 At(k, pc + 1, [] + [Int(Wrap(|Items(st.world.heap, R.ListAt(l))|))], f, st))
  {
    hide Runs, At, Raise;
    StepOperation(k, pc, [], [l], f, st, OpCallNative(k.p.lenId, 1));
    SameAt(k, pc + 1, [] + [Int(Wrap(|Items(st.world.heap, R.ListAt(l))|))], f, st, st.(world := st.world));
  }

  /** The test compares the index with the count. */
  lemma ForTestRuns(k: Ctx, L: seq<Local>, f: seq<Value>, b: nat, end: nat, st: R.St, l: Value, count: int, i: int)
    requires ForTest(k.ch, b, |L|, end) && Setting(k, L, f, st) && ForSlots(f, |L|, l, count, i)
    ensures Runs(k.p, At(k, b, [], f, st), At(k, b + 3, [] + [Bool(i < count)], f, st))
    ensures Truthy(k.p.host, Bool(i < count), st.world) == (i < count)
  {
    hide Runs, At, Raise, EnvOf;
    var n := |L|;
    StepLoad(k, b, [], f, st, n + 2);
    StepLoad(k, b + 1, [] + [Int(i)], f, st, n + 1);
    assert [] + [Int(i)] + [Int(count)] == [] + [Int(i), Int(count)];
    StepOperation(k, b + 2, [], [Int(i), Int(count)], f, st, OpLt);
    SameAt(k, b + 3, [] + [Bool(i < count)], f, st, st.(world := st.world));
    RunsTrans3(k.p, At(k, b, [], f, st), At(k, b + 1, [] + [Int(i)], f, st),
               At(k, b + 2, [] + [Int(i), Int(count)], f, st), At(k, b + 3, [] + [Bool(i < count)], f, st));
  }

  /** The variables in the body of a `for`. */
  lemma ForEnv(L: seq<Local>, s: Stmt, f: seq<Value>)
    requires s.For? && |L| + 4 <= |f| && !Hidden(s.name)
    ensures EnvOf(ForLocals(s, L), f) == EnvOf(L, f) + [R.Binding(s.name, f[|L| + 3])]
    ensures L <= ForLocals(s, L) && |ForLocals(s, L)| == |L| + 4
    ensures forall j :: |L| <= j < |L| + 3 ==> Hidden(ForLocals(s, L)[j].name)
  {
    var L1 := L + [Local(" items", "")];
    var L2 := L1 + [Local(" count", "")];
    var L3 := L2 + [Local(" index", "")];
    var x := Local(s.name, s.typ);
    HiddenEnv(L, Local(" items", ""), f);
    HiddenEnv(L1, Local(" count", ""), f);
    HiddenEnv(L2, Local(" index", ""), f);
    EnvSnoc(L3, x, f);
    assert L3 + [x] == ForLocals(s, L);
  }

  /** The next element is read from the list as it is now, and goes to the variable. */
  lemma ForElementRuns(k: Ctx, s: Stmt, L: seq<Local>, f: seq<Value>, b: nat, end: nat, st: R.St, l: Value, count: int,
                       i: int, fuel: nat)
    returns (w: Wit)
    requires s.For? && !Hidden(s.name)
    requires ForTest(k.ch, b, |L|, end) && Setting(k, L, f, st) && ForSlots(f, |L|, l, count, i)
    ensures var r := R.Lift(GetIndex(l, Int(i), st.world), st);
            if r.Stopped? then StopSim(k, At(k, b + 4, [], f, st), L, f, b + 4, b + 8, r.why, w, fuel)
            else
              && Runs(k.p, At(k, b + 4, [], f, st), At(k, b + 8, [], w.f, r.st))
              && Setting(k, ForLocals(s, L), w.f, r.st.(env := r.st.env + [R.Binding(s.name, r.value)]))
              && Setting(k, L, w.f, r.st) && Keeps(L, f, w.f) && ForSlots(w.f, |L|, l, count, i)
  {
    hide Runs, At, Raise, EnvOf, GetIndex;
    var n := |L|;
    var c := At(k, b + 4, [], f, st);
    StepLoad(k, b + 4, [], f, st, n);
    StepLoad(k, b + 5, [] + [l], f, st, n + 2);
    StepGetIndex(k, b + 6, [], f, st, l, Int(i));
    var o := GetIndex(l, Int(i), st.world);
    RunsTrans3(k.p, c, At(k, b + 5, [] + [l], f, st), At(k, b + 6, [] + [l] + [Int(i)], f, st),
               AfterOperation(k, b + 6, [], f, st, o));
    w := Wit(b + 6, [], f);
    if o.Good? {
      var st1 := st.(world := o.world);
      var g := f[n + 3 := o.value];
      StepStore(k, b + 7, [], f, st1, n + 3, o.value);
      RunsTrans(k.p, c, At(k, b + 7, [] + [o.value], f, st1), At(k, b + 8, [], g, st1));
      FreeSlot(L, f, n + 3, o.value);
      ForEnv(L, s, g);
      w := Wit(0, [], g);
    }
  }

  /** After the body: the index goes up by one. */
  lemma ForNextRuns(k: Ctx, L: seq<Local>, f: seq<Value>, b: nat, start: nat, st: R.St, l: Value, count: int, i: nat)
    returns (w: Wit)
    requires ForNext(k.ch, b, |L|, start) && Setting(k, L, f, st) && ForSlots(f, |L|, l, count, i)
    requires i < count <= MAX_INT
    ensures Runs(k.p, At(k, b, [], f, st), At(k, b + 4, [], w.f, st)) && Setting(k, L, w.f, st) && Keeps(L, f, w.f)
    ensures ForSlots(w.f, |L|, l, count, i + 1)
  {
    hide Runs, At, Raise, EnvOf;
    var n := |L|;
    var g := f[n + 2 := Int(i + 1)];
    StepLoad(k, b, [], f, st, n + 2);
    StepConst(k, b + 1, [] + [Int(i)], f, st, Int(1));
    StepOneMore(k, b + 2, [], f, st, true, Int(i));
    SameAt(k, b + 3, [] + [Int(i + 1)], f, st, st.(world := st.world));
    StepStore(k, b + 3, [], f, st, n + 2, Int(i + 1));
    RunsTrans4(k.p, At(k, b, [], f, st), At(k, b + 1, [] + [Int(i)], f, st),
               At(k, b + 2, [] + [Int(i)] + [Int(1)], f, st),
               At(k, b + 3, [] + [Int(i + 1)], f, st), At(k, b + 4, [], g, st));
    FreeSlot(L, f, n + 2, Int(i + 1));
    w := Wit(0, [], g);
  }

  /** The body keeps the hidden variables of its loop. */
  lemma ForSlotsKept(s: Stmt, L: seq<Local>, f: seq<Value>, g: seq<Value>, l: Value, count: int, i: int)
    requires s.For? && !Hidden(s.name) && Keeps(ForLocals(s, L), f, g) && ForSlots(f, |L|, l, count, i)
    ensures ForSlots(g, |L|, l, count, i) && Keeps(L, f, g)
  {
    ForEnv(L, s, f);
    KeepsFewer(L, ForLocals(s, L), f, g);
    assert Hidden(ForLocals(s, L)[|L|].name) && Hidden(ForLocals(s, L)[|L| + 1].name)
           && Hidden(ForLocals(s, L)[|L| + 2].name);
  }

  // ─── try ───────────────────────────────────────────────────────────────────

  /** The state in which a handler starts. */
  function Caught(st: R.St, name: string, e: string): R.St {
    var (v, w) := ErrorValue(e, st.world);
    R.St(st.env + if name == "" then [] else [R.Binding(name, v)], w, 0, st.inputs)
  }

  /** From the error to the first statement of the handler. */
  lemma CatchRuns(k: Ctx, c: Cfg, L: seq<Local>, f: seq<Value>, own: TryRange, hi: nat, rs1: seq<TryRange>,
                  rs2: seq<TryRange>, name: string, e: string, st: R.St, w: Wit)
    returns (g: seq<Value>)
    requires Runs(k.p, c, RaiseAt(k, w.pc, w.s, w.f, st, e)) && Keeps(L, f, w.f) && Setting(k, L, w.f, st)
    requires Placed(k.ch.ranges, rs1 + [own] + rs2, own.begin, hi) && own.end + 1 < hi
    requires own.begin <= w.pc < own.end && Uncovered(rs1, w.pc) && own.handler == own.end + 1
    requires forall x :: x in rs2 ==> own.end <= x.begin
    requires if name == "" then Has(k.ch, own.end + 1, OpPop)
             else !Hidden(name) && |L| < k.ch.numLocals && Has(k.ch, own.end + 1, OpStoreLocal(|L|))
    ensures Runs(k.p, c, At(k, own.end + 2, [], g, Caught(st, name, e))) && Keeps(L, f, g)
    ensures Setting(k, CatchLocals(name, L), g, Caught(st, name, e)) && L <= CatchLocals(name, L)
  {
    hide Runs, At, Raise, EnvOf;
    var (v, w1) := ErrorValue(e, st.world);
    var st1 := R.St(st.env, w1, 0, st.inputs);
    var st2 := Caught(st, name, e);
    var pc := own.end + 1;
    InnermostTry(k.ch.ranges, rs1, own, rs2, hi, w.pc);
    RaiseCaught(k, w.pc, w.s, w.f, st, e, own);
    if name == "" {
      g := w.f;
      StepPop(k, pc, [], g, st1, v);
    } else {
      g := w.f[|L| := v];
      StepStore(k, pc, [], w.f, st1, |L|, v);
      FreeSlot(L, w.f, |L|, v);
      KeepsTrans(L, f, w.f, g);
      EnvSnoc(L, Local(name, ""), g);
    }
    assert [] + [v] == [v];
    SameAt(k, pc + 1, [], g, st1, st2);
    RunsTrans(k.p, c, At(k, pc, [] + [v], w.f, st1), At(k, pc + 1, [], g, st1));
  }

  /** What an error leaves. */
  lemma ErrorGives(k: Ctx, c: Cfg, L: seq<Local>, f: seq<Value>, lo: nat, hi: nat, t: Targets, rs: seq<TryRange>,
                   r: R.Res<R.Signal>, w: Wit, fuel: nat)
    requires StmtSim(k, c, L, L, f, lo, hi, t, rs, r, w, fuel) && r.Stopped? && r.why.Err? && |f| == k.ch.numLocals
    ensures lo <= w.pc < hi && Uncovered(rs, w.pc) && Keeps(L, f, w.f) && Setting(k, L, w.f, r.why.at)
    ensures Runs(k.p, c, RaiseAt(k, w.pc, w.s, w.f, r.why.at, r.why.error))
  {
    hide Runs, RunsFor, Raise, EnvOf, At;
  }

  /** The handler of a `try`. */
  lemma HandlerRuns(k: Ctx, c: Cfg, L: seq<Local>, M: seq<Local>, N: seq<Local>, f: seq<Value>, g: seq<Value>,
                    own: TryRange, end: nat, t: Targets, rs1: seq<TryRange>, rs2: seq<TryRange>, st: R.St, st2: R.St,
                    r: R.Res<R.Signal>, w: Wit, fuel: nat)
    requires Runs(k.p, c, At(k, own.end + 2, [], g, st2)) && Keeps(L, f, g) && L <= M <= N && Setting(k, M, g, st2)
    requires StmtSim(k, At(k, own.end + 2, [], g, st2), M, N, g, own.end + 2, end, t, rs2, r, w, fuel)
    requires own.begin <= own.end && Setting(k, L, f, st) && (forall x :: x in rs1 ==> x.end <= own.end)
    ensures StmtSim(k, c, L, L, f, own.begin, end, t, rs1 + [own] + rs2, R.Shrink(r, |st.env|), w, fuel)
  {
    hide Runs, RunsFor, Raise, EnvOf, At, StmtSim;
    var d, rs := At(k, own.end + 2, [], g, st2), rs1 + [own] + rs2;
    StmtShrinks(k, d, M, N, g, own.end + 2, end, t, rs2, r, st2, w, fuel);
    ShrinkSetting(k, L, f, g, st);
    var st3 := R.St(EnvOf(L, g), st.world, st.steps, st.inputs);
    var r1 := R.Shrink(r, |st2.env|);
    StmtOuter(k, d, L, M, g, own.end + 2, end, t, rs2, r1, st3, w, fuel);
    ShrinkTwice(k, L, M, g, st, st2, r);
    forall x | x in rs
      ensures x in rs2 || x.end <= own.end + 2 || end <= x.begin
    {
      assert x in rs1 || x == own || x in rs2;
    }
    var r2 := R.Shrink(r, |st.env|);
    if r2.Ok? && r2.value.Normal? {
      RunsRefl(k.p, At(k, end, [], w.f, r2.st));
    }
    StmtPart(k, d, L, L, g, own.end + 2, end, end, own.end + 2, t, rs2, rs, r2, w, fuel);
    StmtLater(k, c, d, L, L, f, g, own.begin, own.end + 2, end, t, rs, r2, w, fuel);
  }

  lemma ShrinkTwice(k: Ctx, L: seq<Local>, M: seq<Local>, g: seq<Value>, st: R.St, st2: R.St, r: R.Res<R.Signal>)
    requires L <= M && Setting(k, M, g, st2) && |L| <= |g| && |EnvOf(L, g)| == |st.env|
    ensures R.Shrink(R.Shrink(r, |st2.env|), |st.env|) == R.Shrink(r, |st.env|)
  {
    EnvPrefix(L, M, g, g);
    var m, n := |st2.env|, |st.env|;
    if r.Ok? {
      LeaveTwice(r.st.env, m, n);
    } else if r.why.Err? {
      LeaveTwice(r.why.at.env, m, n);
    }
  }

  lemma LeaveTwice(env: seq<R.Binding>, m: nat, n: nat)
    requires n <= m
    ensures R.Leave(R.Leave(env, m), n) == R.Leave(env, n)
  {
  }

  /** A `try` whose body raised nothing. */
  lemma TryRuns(k: Ctx, c: Cfg, L: seq<Local>, f: seq<Value>, own: TryRange, end: nat, t: Targets, rs1: seq<TryRange>,
                rs2: seq<TryRange>, r: R.Res<R.Signal>, w: Wit, fuel: nat)
    requires StmtSim(k, c, L, L, f, own.begin, own.end, t, rs1, r, w, fuel) && !(r.Stopped? && r.why.Err?)
    requires own.end + 1 < end && Has(k.ch, own.end, OpJump(end))
    ensures StmtSim(k, c, L, L, f, own.begin, end, t, rs1 + [own] + rs2, r, w, fuel)
  {
    hide Runs, RunsFor, Raise, EnvOf, At;
    if r.Ok? && r.value.Normal? {
      StepJump(k, own.end, [], w.f, r.st, end);
      RunsTrans(k.p, c, At(k, own.end, [], w.f, r.st), At(k, end, [], w.f, r.st));
    }
  }

  // ─── Pieces of the loops ───────────────────────────────────────────────────

  /** There is no fuel for another turn of a loop. */
  lemma LaterNoFuel(k: Ctx, c: Cfg, pc: nat, s: seq<Value>, g: seq<Value>, st: R.St, L: seq<Local>, f: seq<Value>,
                    lo: nat, hi: nat, t: Targets, rs: seq<TryRange>, w: Wit)
    requires Runs(k.p, c, At(k, pc, s, g, st))
    ensures StmtSim(k, c, L, L, f, lo, hi, t, rs, R.Stopped(R.NoFuel), w, 0)
  {
    var d := At(k, pc, s, g, st);
    RunsForZero(k.p, d);
    RunsForTrans(k.p, c, d, 0);
  }

  lemma KeepsRefl(L: seq<Local>, f: seq<Value>)
    requires |L| <= |f|
    ensures Keeps(L, f, f)
  {
  }

  /** What precedes the body of a loop stopped, away from the ranges of the body. */
  lemma HeadStops(k: Ctx, c: Cfg, d: Cfg, L: seq<Local>, f: seq<Value>, g: seq<Value>, a: nat, lo: nat, hi: nat,
                  end: nat, t: Targets, rs: seq<TryRange>, why: R.Stop, w: Wit, fuel: nat)
    requires Runs(k.p, c, d) && Keeps(L, f, g) && a <= lo && hi <= end && Apart(rs, a, hi)
    requires StopSim(k, d, L, g, lo, hi, why, w, fuel)
    ensures StmtSim(k, c, L, L, f, a, end, t, rs, R.Stopped(why), w, fuel)
  {
    hide Runs, RunsFor, Raise, EnvOf, At, Keeps;
    StopLater(k, c, d, L, f, g, a, lo, hi, end, why, w, fuel);
  }

  /** A loop whose test failed. */
  lemma LoopOver(k: Ctx, c: Cfg, L: seq<Local>, f: seq<Value>, a: nat, end: nat, t: Targets, rs: seq<TryRange>,
                 st: R.St, w: Wit, fuel: nat)
    requires Runs(k.p, c, At(k, end, [], f, st)) && Setting(k, L, f, st) && w.f == f
    ensures StmtSim(k, c, L, L, f, a, end, t, rs, R.Ok(R.Normal, st), w, fuel)
  {
    hide Runs;
  }

  /** A body that goes round keeps the hidden variables of its loop. */
  lemma RoundKeeps(k: Ctx, c: Cfg, M: seq<Local>, f: seq<Value>, lo: nat, hi: nat, t: Targets, rs: seq<TryRange>,
                   r: R.Res<R.Signal>, n: nat, w: Wit, fuel: nat)
    requires StmtSim(k, c, M, M, f, lo, hi, t, rs, r, w, fuel) && GoesRound(R.Shrink(r, n))
    ensures Keeps(M, f, w.f) && R.Shrink(r, n).Ok?
  {
    hide Runs, RunsFor, Raise, EnvOf, At, Keeps, StopSim, R.Shrink;
    ShrinkSignal(r, n);
  }

  lemma ShrinkSignal(r: R.Res<R.Signal>, n: nat)
    ensures R.Shrink(r, n).Ok? == r.Ok? && (r.Ok? ==> R.Shrink(r, n).value == r.value)
  {
  }

  /** A body that goes round ends where a `continue` goes. */
  lemma RoundArrives(k: Ctx, c: Cfg, L: seq<Local>, f: seq<Value>, lo: nat, hi: nat, brk: nat, rs: seq<TryRange>,
                     r: R.Res<R.Signal>, w: Wit, fuel: nat)
    requires StmtSim(k, c, L, L, f, lo, hi, Targets(brk, hi), rs, r, w, fuel) && GoesRound(r) && |f| == k.ch.numLocals
    ensures Runs(k.p, c, At(k, hi, [], w.f, r.st)) && Setting(k, L, w.f, r.st)
  {
    hide Runs, RunsFor, Raise, EnvOf, At, StmtSim;
    StmtGives(k, c, L, L, f, lo, hi, Targets(brk, hi), rs, r, w, fuel);
  }

  // ─── Pieces of a declaration ───────────────────────────────────────────────

  /** A guard that returned or raised an error ends the declaration. */
  lemma GuardsEnd(k: Ctx, c: Cfg, L: seq<Local>, f: seq<Value>, b: nat, r: R.Res<R.Signal>, w: Wit, fuel: nat)
    requires StmtSim(k, c, L, L, f, 0, b, NoTargets, [], r, w, fuel) && (r.Stopped? || r.value.Returning?)
    requires forall x :: x in k.ch.ranges ==> b <= x.begin
    ensures DeclSim(k, c, if r.Ok? then R.Ok(r.value.value, r.st) else R.Stopped(r.why), w, fuel)
  {
    hide Runs, RunsFor, Raise, EnvOf, At, Keeps, FindHandler;
    if r.Stopped? && r.why.Err? {
      FindsNothing(k.ch.ranges, w.pc);
    }
  }

  /** Outside a loop nothing breaks or continues. */
  lemma OnlyNormal(k: Ctx, c: Cfg, L: seq<Local>, M: seq<Local>, f: seq<Value>, lo: nat, hi: nat, rs: seq<TryRange>,
                   r: R.Res<R.Signal>, w: Wit, fuel: nat)
    requires StmtSim(k, c, L, M, f, lo, hi, NoTargets, rs, r, w, fuel) && r.Ok?
    ensures r.value.Normal? || r.value.Returning?
  {
    hide Runs, Raise, EnvOf, At, Keeps;
  }

  /** The body of a declaration, and the final return of null. */
  lemma BodyEnds(k: Ctx, c: Cfg, d: Cfg, L: seq<Local>, f: seq<Value>, g: seq<Value>, b: nat, end: nat,
                 r: R.Res<R.Signal>, w: Wit, fuel: nat)
    requires Runs(k.p, c, d) && Keeps(L, f, g) && |g| == k.ch.numLocals
    requires StmtSim(k, d, L, L, g, b, end, NoTargets, k.ch.ranges, r, w, fuel) && Has(k.ch, end, OpReturnNull)
    ensures DeclSim(k, c, if r.Stopped? then R.Stopped(r.why)
                          else R.Ok(if r.value.Returning? then r.value.value else Null, r.st), w, fuel)
  {
    hide Runs, RunsFor, Raise, EnvOf, At, FindHandler;
    StmtLater(k, c, d, L, L, f, g, b, b, end, NoTargets, k.ch.ranges, r, w, fuel);
    if r.Stopped? {
      if r.why.Err? {
        FindsNothing(k.ch.ranges, w.pc);
      }
    } else if r.value.Normal? {
      StepReturnNull(k, end, [], w.f, r.st);
      RunsTrans(k.p, c, At(k, end, [], w.f, r.st), ReturnTo(k, Null, r.st));
    }
  }
}
