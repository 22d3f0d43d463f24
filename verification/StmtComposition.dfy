/** How runs of the machine follow the execution of statements, and how the runs of
  the parts of a statement make the run of the statement. */
module StmtComposition {
  import opened Wrappers
  import opened Values
  import opened Ast
  import opened Bytecode
  import opened Machine
  import opened Layout
  import opened Slots
  import opened MachineSteps
  import opened Composition
  import R = Reference

  // ─── Ranges of try ─────────────────────────────────────────────────────────

  predicate Uncovered(rs: seq<TryRange>, pc: nat) { forall r :: r in rs ==> !Covers(r, pc) }

  /** No range of `rs` reaches into [lo, hi). */
  predicate Apart(rs: seq<TryRange>, lo: nat, hi: nat) { forall r :: r in rs ==> r.end <= lo || hi <= r.begin }

  /** In the table `all`, the ranges around [lo, hi) are `own`, the ones of the code
    in that place, and ranges that contain all of it or nothing of it. */
  predicate Placed(all: seq<TryRange>, own: seq<TryRange>, lo: nat, hi: nat) {
    && (forall r :: r in own ==> r in all)
    && (forall r :: r in all ==> r in own || (r.begin <= lo && hi <= r.end) || r.end <= lo || hi <= r.begin)
  }

  /** Ranges lie within the code they come from. */
  lemma {:induction false} RangesWithin(s: Stmt, sg: Sigs, a: nat, r: TryRange)
    requires r in Ranges(s, sg, a)
    ensures a <= r.begin <= r.end <= a + StmtSize(s, sg)
    decreases s, 0
  {
    match s
    case If(c, body, orelse) =>
      var b := a + ExprSize(c, sg) + 1;
      if r in RangesIn(body, sg, b) {
        RangesInWithin(body, sg, b, r);
      } else {
        RangesInWithin(orelse, sg, b + BlockSize(body, sg) + 1, r);
      }
    case While(c, body) => RangesInWithin(body, sg, a + ExprSize(c, sg) + 1, r);
    case For(_, _, it, body) => RangesInWithin(body, sg, a + ExprSize(it, sg) + 15, r);
    case Try(body, _, orelse) =>
      var e := a + BlockSize(body, sg);
      if r in RangesIn(body, sg, a) {
        RangesInWithin(body, sg, a, r);
      } else if r in RangesIn(orelse, sg, e + 2) {
        RangesInWithin(orelse, sg, e + 2, r);
      }
    case _ =>
  }

  lemma {:induction false} RangesInWithin(ss: seq<Stmt>, sg: Sigs, a: nat, r: TryRange)
    requires r in RangesIn(ss, sg, a)
    ensures a <= r.begin <= r.end <= a + BlockSize(ss, sg)
    decreases ss, 1
  {
    if r in Ranges(ss[0], sg, a) {
      RangesWithin(ss[0], sg, a, r);
    } else {
      RangesInWithin(ss[1..], sg, a + StmtSize(ss[0], sg), r);
    }
  }

  /** The table finds the shortest range that covers an address. */
  lemma {:induction false} FindsShortest(rs: seq<TryRange>, pc: nat, own: TryRange, best: Handler)
    requires Covers(own, pc) && (own in rs || best == HandlerAt(own))
    requires forall r :: r in rs && Covers(r, pc) ==> r == own || own.end - own.begin < r.end - r.begin
    requires best.HandlerAt? ==> best.range == own || own.end - own.begin < best.range.end - best.range.begin
    ensures FindHandler(rs, pc, best) == HandlerAt(own)
  {
    if rs != [] {
      var r := rs[0];
      var next := if Covers(r, pc) && (best.NoHandler? || r.end - r.begin < best.range.end - best.range.begin)
        then HandlerAt(r) else best;
      assert own in rs[1..] || own == r || best == HandlerAt(own);
      FindsShortest(rs[1..], pc, own, next);
    }
  }

  lemma {:induction false} FindsNothing(rs: seq<TryRange>, pc: nat)
    requires Uncovered(rs, pc)
    ensures FindHandler(rs, pc, NoHandler) == NoHandler
  {
    if rs != [] {
      assert !Covers(rs[0], pc);
      FindsNothing(rs[1..], pc);
    }
  }

  /** Of the ranges around an error in the body of a `try` that nothing inside the
    body catches, the range of that `try` is the shortest. */
  lemma InnermostTry(all: seq<TryRange>, body: seq<TryRange>, own: TryRange, orelse: seq<TryRange>, hi: nat, pc: nat)
    requires Placed(all, body + [own] + orelse, own.begin, hi) && own.end < hi
    requires Covers(own, pc) && Uncovered(body, pc)
    requires forall r :: r in orelse ==> own.end <= r.begin
    ensures FindHandler(all, pc, NoHandler) == HandlerAt(own)
  {
    forall r | r in all && Covers(r, pc)
      ensures r == own || own.end - own.begin < r.end - r.begin
    {
      assert r in body + [own] + orelse ==> r in body || r == own || r in orelse;
    }
    assert own in body + [own] + orelse;
    FindsShortest(all, pc, own, NoHandler);
  }

  // ─── Loops ─────────────────────────────────────────────────────────────────

  /** The jump targets in force over [lo, hi) are those of the loop the interpreter
    is in. */
  predicate LoopFits(lc: R.Loop, t: Targets, lo: nat, hi: nat) {
    match lc
    case NoLoop => t.NoTargets?
    case InWhile => t.Targets? && hi < t.brk && t.cont <= lo
    case InFor(last) => t.Targets? && hi < t.brk && (if last then t.cont == hi else hi < t.cont)
  }

  // ─── Statements ────────────────────────────────────────────────────────────

  /** The machine follows the execution of a statement or of a block.  Ending normally
    it is at `hi` with the variables `M`; a `break` or a `continue` has jumped, with
    the variables `L` of the start; a `return` has left the frame; an error is not
    inside any `try` of the statement itself.  There are no operands at the start,
    nor at the end. */
  ghost predicate StmtSim(k: Ctx, c: Cfg, L: seq<Local>, M: seq<Local>, f: seq<Value>, lo: nat, hi: nat, t: Targets,
                          rs: seq<TryRange>, r: R.Res<R.Signal>, w: Wit, fuel: nat)
  {
    match r
    case Ok(Normal, st) => StandsAt(k, c, L, M, f, hi, st, w)
    case Ok(Breaking, st) => t.Targets? && StandsAt(k, c, L, L, f, t.brk, st, w)
    case Ok(Continuing, st) => t.Targets? && StandsAt(k, c, L, L, f, t.cont, st, w)
    case Ok(Returning(v), st) => Runs(k.p, c, ReturnTo(k, v, st))
    case Stopped(why) => StopSim(k, c, L, f, lo, hi, why, w, fuel) && (why.Err? ==> Uncovered(rs, w.pc))
  }

  /** `c` reaches address `pc` with no operands, the variables `M` as in `st`, and the
    hidden variables of `L` as they were in `f`. */
  ghost predicate StandsAt(k: Ctx, c: Cfg, L: seq<Local>, M: seq<Local>, f: seq<Value>, pc: nat, st: R.St, w: Wit) {
    Keeps(L, f, w.f) && |M| <= |w.f| && EnvOf(M, w.f) == st.env && Runs(k.p, c, At(k, pc, [], w.f, st))
  }

  lemma StandsLater(k: Ctx, c: Cfg, d: Cfg, L: seq<Local>, M: seq<Local>, f: seq<Value>, g: seq<Value>, pc: nat,
                    st: R.St, w: Wit)
    requires Runs(k.p, c, d) && Keeps(L, f, g) && StandsAt(k, d, L, M, g, pc, st, w)
    ensures StandsAt(k, c, L, M, f, pc, st, w)
  {
    hide Runs, EnvOf, At;
    KeepsTrans(L, f, g, w.f);
    RunsTrans(k.p, c, d, At(k, pc, [], w.f, st));
  }

  /** `d` follows `c`; what follows `d` follows `c`. */
  lemma StmtLater(k: Ctx, c: Cfg, d: Cfg, L: seq<Local>, M: seq<Local>, f: seq<Value>, g: seq<Value>, lo: nat, lo1: nat,
                  hi: nat, t: Targets, rs: seq<TryRange>, r: R.Res<R.Signal>, w: Wit, fuel: nat)
    requires Runs(k.p, c, d) && Keeps(L, f, g) && lo <= lo1
    requires StmtSim(k, d, L, M, g, lo1, hi, t, rs, r, w, fuel)
    ensures StmtSim(k, c, L, M, f, lo, hi, t, rs, r, w, fuel)
  {
    hide Runs, EnvOf, At, StandsAt, StopSim;
    match r {
      case Ok(Normal, st) => StandsLater(k, c, d, L, M, f, g, hi, st, w);
      case Ok(Breaking, st) => StandsLater(k, c, d, L, L, f, g, t.brk, st, w);
      case Ok(Continuing, st) => StandsLater(k, c, d, L, L, f, g, t.cont, st, w);
      case Ok(Returning(v), st) => RunsTrans(k.p, c, d, ReturnTo(k, v, st));
      case Stopped(why) => StopLater(k, c, d, L, f, g, lo, lo1, hi, hi, why, w, fuel);
    }
  }

  /** A part of a statement.  Its ranges are among those of the statement, the others
    of which lie elsewhere; and from its end the run goes to the end of the statement. */
  lemma StmtPart(k: Ctx, c: Cfg, L: seq<Local>, M: seq<Local>, f: seq<Value>, lo: nat, hi1: nat, hi: nat, lo1: nat,
                 t: Targets, rs1: seq<TryRange>, rs: seq<TryRange>, r: R.Res<R.Signal>, w: Wit, fuel: nat)
    requires StmtSim(k, c, L, M, f, lo1, hi1, t, rs1, r, w, fuel) && lo <= lo1 && hi1 <= hi
    requires forall x :: x in rs ==> x in rs1 || x.end <= lo1 || hi1 <= x.begin
    requires r.Ok? && r.value.Normal? ==> Runs(k.p, At(k, hi1, [], w.f, r.st), At(k, hi, [], w.f, r.st))
    ensures StmtSim(k, c, L, M, f, lo, hi, t, rs, r, w, fuel)
  {
    hide Runs, RunsFor, EnvOf, At, Raise;
    if r.Ok? && r.value.Normal? {
      RunsTrans(k.p, c, At(k, hi1, [], w.f, r.st), At(k, hi, [], w.f, r.st));
    }
  }

  /** An expression of a statement stopped. */
  lemma StmtStops(k: Ctx, c: Cfg, s: seq<Value>, L: seq<Local>, M: seq<Local>, f: seq<Value>, lo: nat, hi1: nat,
                  hi: nat, t: Targets, rs: seq<TryRange>, r: R.Res<Value>, w: Wit, fuel: nat)
    requires r.Stopped? && ExprSim(k, c, s, L, f, lo, hi1, r, w, fuel) && hi1 <= hi && Apart(rs, lo, hi1)
    ensures StmtSim(k, c, L, M, f, lo, hi, t, rs, R.Stopped(r.why), w, fuel)
  {
    hide Runs, RunsFor, EnvOf, Raise;
  }

  /** Leaving a scope. */
  lemma StmtShrinks(k: Ctx, c: Cfg, L: seq<Local>, M: seq<Local>, f: seq<Value>, lo: nat, hi: nat, t: Targets,
                    rs: seq<TryRange>, r: R.Res<R.Signal>, st: R.St, w: Wit, fuel: nat)
    requires StmtSim(k, c, L, M, f, lo, hi, t, rs, r, w, fuel) && L <= M && Setting(k, L, f, st)
    ensures StmtSim(k, c, L, L, f, lo, hi, t, rs, R.Shrink(r, |st.env|), w, fuel)
  {
    hide Runs, RunsFor, Raise, EnvOf;
    match r {
      case Ok(Normal, st1) =>
        EnvPrefix(L, M, w.f, f);
        SameAt(k, hi, [], w.f, st1, st1.(env := R.Leave(st1.env, |st.env|)));
      case Ok(Breaking, st1) => EnvSize(L, f, w.f);
      case Ok(Continuing, st1) => EnvSize(L, f, w.f);
      case Ok(Returning(v), st1) =>
        assert ReturnTo(k, v, st1) == ReturnTo(k, v, st1.(env := R.Leave(st1.env, |st.env|)));
      case Stopped(why) =>
        if why.Err? {
          EnvSize(L, f, w.f);
        }
    }
  }

  /** The start had fewer variables in scope. */
  lemma StmtOuter(k: Ctx, c: Cfg, L: seq<Local>, M: seq<Local>, f: seq<Value>, lo: nat, hi: nat, t: Targets,
                  rs: seq<TryRange>, r: R.Res<R.Signal>, st: R.St, w: Wit, fuel: nat)
    requires StmtSim(k, c, M, M, f, lo, hi, t, rs, r, w, fuel) && L <= M && Setting(k, L, f, st)
    ensures StmtSim(k, c, L, L, f, lo, hi, t, rs, R.Shrink(r, |st.env|), w, fuel)
  {
    hide Runs, RunsFor, Raise, EnvOf;
    var stops := r.Stopped? && !r.why.Err?;
    var leaves := r.Ok? && r.value.Returning?;
    if leaves {
      assert ReturnTo(k, r.value.value, r.st) == ReturnTo(k, r.value.value, r.st.(env := R.Leave(r.st.env, |st.env|)));
    } else if !stops {
      KeepsFewer(L, M, f, w.f);
      EnvPrefix(L, M, w.f, f);
      if r.Ok? {
        var st1 := r.st.(env := R.Leave(r.st.env, |st.env|));
        SameAt(k, hi, [], w.f, r.st, st1);
        if r.value.Breaking? {
          SameAt(k, t.brk, [], w.f, r.st, st1);
        } else if r.value.Continuing? {
          SameAt(k, t.cont, [], w.f, r.st, st1);
        }
      } else {
        var st1 := r.why.at.(env := R.Leave(r.why.at.env, |st.env|));
        SameRaise(k, w.pc, w.s, w.f, r.why.at, st1, r.why.error);
      }
    }
  }

  lemma SameRaise(k: Ctx, pc: nat, s: seq<Value>, f: seq<Value>, st: R.St, st1: R.St, e: string)
    requires st.world == st1.world && st.inputs == st1.inputs && st.steps == st1.steps
    ensures RaiseAt(k, pc, s, f, st, e) == RaiseAt(k, pc, s, f, st1, e)
  {
    hide Raise;
    SameAt(k, pc + 1, s, f, st, st1);
  }

  /** What a statement leaves when it ends normally. */
  lemma StmtGives(k: Ctx, c: Cfg, L: seq<Local>, M: seq<Local>, f: seq<Value>, lo: nat, hi: nat, t: Targets,
                  rs: seq<TryRange>, r: R.Res<R.Signal>, w: Wit, fuel: nat)
    requires StmtSim(k, c, L, M, f, lo, hi, t, rs, r, w, fuel) && |f| == k.ch.numLocals
    ensures r.Ok? && r.value.Normal? ==>
              Setting(k, M, w.f, r.st) && Keeps(L, f, w.f) && Runs(k.p, c, At(k, hi, [], w.f, r.st))
    ensures r.Ok? && r.value.Breaking? ==>
              t.Targets? && Setting(k, L, w.f, r.st) && Keeps(L, f, w.f) && Runs(k.p, c, At(k, t.brk, [], w.f, r.st))
    ensures r.Ok? && r.value.Continuing? ==>
              t.Targets? && Setting(k, L, w.f, r.st) && Keeps(L, f, w.f) && Runs(k.p, c, At(k, t.cont, [], w.f, r.st))
  {
    hide Runs, RunsFor, Raise, EnvOf, At;
  }

  // ─── Sequences ─────────────────────────────────────────────────────────────

  /** What follows a statement that ended normally; anything but a normal end leaves
    the variables that the statement declared. */
  function Then(r: R.Res<R.Signal>, rest: R.Res<R.Signal>, n: nat): R.Res<R.Signal> {
    if r.Stopped? || !r.value.Normal? then r
    else if rest.Ok? && rest.value.Normal? then rest
    else R.Shrink(rest, n)
  }

  lemma SeqRuns(k: Ctx, c: Cfg, L: seq<Local>, M: seq<Local>, N: seq<Local>, f: seq<Value>, a: nat, b: nat, end: nat,
                t: Targets, rs1: seq<TryRange>, rs2: seq<TryRange>, st: R.St, r: R.Res<R.Signal>, w: Wit,
                r1: R.Res<R.Signal>, w1: Wit, fuel: nat)
    requires a <= b <= end && L <= M && Setting(k, L, f, st)
    requires StmtSim(k, c, L, M, f, a, b, t, rs1, r, w, fuel)
    requires r.Ok? && r.value.Normal? ==>
               StmtSim(k, At(k, b, [], w.f, r.st), M, N, w.f, b, end, t, rs2, r1, w1, fuel)
    requires (forall x :: x in rs1 ==> x.end <= b) && (forall x :: x in rs2 ==> b <= x.begin)
    ensures StmtSim(k, c, L, N, f, a, end, t, rs1 + rs2, Then(r, r1, |st.env|),
                    if r.Ok? && r.value.Normal? then w1 else w, fuel)
  {
    hide Runs, RunsFor, Raise, EnvOf, At, StandsAt, StopSim;
    if r.Stopped? || !r.value.Normal? {
      AbruptPart(k, c, L, M, N, f, a, b, end, t, rs1, rs1 + rs2, r, w, fuel);
    } else {
      RestRuns(k, c, L, M, N, f, a, b, end, t, rs1, rs2, st, r, w, r1, w1, fuel);
    }
  }

  lemma AbruptPart(k: Ctx, c: Cfg, L: seq<Local>, M: seq<Local>, N: seq<Local>, f: seq<Value>, lo: nat, hi1: nat,
                   hi: nat, t: Targets, rs1: seq<TryRange>, rs: seq<TryRange>, r: R.Res<R.Signal>, w: Wit, fuel: nat)
    requires r.Stopped? || !r.value.Normal?
    requires StmtSim(k, c, L, M, f, lo, hi1, t, rs1, r, w, fuel) && hi1 <= hi
    requires forall x :: x in rs ==> x in rs1 || x.end <= lo || hi1 <= x.begin
    ensures StmtSim(k, c, L, N, f, lo, hi, t, rs, r, w, fuel)
  {
    hide Runs, RunsFor, Raise, EnvOf, At;
  }

  lemma RestRuns(k: Ctx, c: Cfg, L: seq<Local>, M: seq<Local>, N: seq<Local>, f: seq<Value>, a: nat, b: nat, end: nat,
                 t: Targets, rs1: seq<TryRange>, rs2: seq<TryRange>, st: R.St, r: R.Res<R.Signal>, w: Wit,
                 r1: R.Res<R.Signal>, w1: Wit, fuel: nat)
    requires a <= b <= end && L <= M && Setting(k, L, f, st) && r.Ok? && r.value.Normal?
    requires StmtSim(k, c, L, M, f, a, b, t, rs1, r, w, fuel)
    requires StmtSim(k, At(k, b, [], w.f, r.st), M, N, w.f, b, end, t, rs2, r1, w1, fuel)
    requires forall x :: x in rs1 ==> x.end <= b
    ensures StmtSim(k, c, L, N, f, a, end, t, rs1 + rs2, Then(r, r1, |st.env|), w1, fuel)
  {
    hide Runs, RunsFor, Raise, EnvOf, At;
    StmtGives(k, c, L, M, f, a, b, t, rs1, r, w, fuel);
    var d := At(k, b, [], w.f, r.st);
    if r1.Ok? && r1.value.Normal? {
      KeepsFewer(L, M, w.f, w1.f);
      KeepsTrans(L, f, w.f, w1.f);
      RunsTrans(k.p, c, d, At(k, end, [], w1.f, r1.st));
    } else {
      ShrinkSetting(k, L, f, w.f, st);
      AbruptOuter(k, d, L, M, N, w.f, b, end, t, rs2, r1, R.St(EnvOf(L, w.f), st.world, st.steps, st.inputs), w1, fuel);
      var r2 := R.Shrink(r1, |st.env|);
      StmtPart(k, d, L, N, w.f, b, end, end, b, t, rs2, rs1 + rs2, r2, w1, fuel);
      StmtLater(k, c, d, L, N, f, w.f, a, b, end, t, rs1 + rs2, r2, w1, fuel);
    }
  }

  lemma ShrinkSetting(k: Ctx, L: seq<Local>, f: seq<Value>, g: seq<Value>, st: R.St)
    requires Setting(k, L, f, st) && |g| == |f|
    ensures |L| <= |g| && |EnvOf(L, g)| == |st.env|
    ensures Setting(k, L, g, R.St(EnvOf(L, g), st.world, st.steps, st.inputs))
  {
    EnvSize(L, f, g);
  }

  /** An abrupt end in an inner scope, seen from the outer one. */
  lemma AbruptOuter(k: Ctx, c: Cfg, L: seq<Local>, M: seq<Local>, N: seq<Local>, f: seq<Value>, lo: nat, hi: nat,
                    t: Targets, rs: seq<TryRange>, r: R.Res<R.Signal>, st: R.St, w: Wit, fuel: nat)
    requires r.Stopped? || !r.value.Normal?
    requires StmtSim(k, c, M, N, f, lo, hi, t, rs, r, w, fuel) && L <= M && Setting(k, L, f, st)
    ensures StmtSim(k, c, L, N, f, lo, hi, t, rs, R.Shrink(r, |st.env|), w, fuel)
  {
    hide Runs, RunsFor, Raise, EnvOf, At, StandsAt, StopSim;
    AbruptPart(k, c, M, N, M, f, lo, hi, hi, t, rs, rs, r, w, fuel);
    StmtOuter(k, c, L, M, f, lo, hi, t, rs, r, st, w, fuel);
    AbruptPart(k, c, L, L, N, f, lo, hi, hi, t, rs, rs, R.Shrink(r, |st.env|), w, fuel);
  }
}
