/** Every stretch of a run, between a start, a resumption or a caught error and the
  next suspension, error or end, is finite, and here is how long it can be. */
module Termination {
  import opened Wrappers
  import opened Values
  import opened Ast
  import opened Bytecode
  import opened Machine
  import opened Layout
  import opened Composition
  import opened Heights
  import opened Flowing
  import opened Discipline
  import R = Reference

  // ─── Numbers in base B ─────────────────────────────────────────────────────

  function Power(b: nat, n: nat): (r: nat)
    ensures b > 0 ==> r > 0
  {
    if n == 0 then 1 else b * Power(b, n - 1)
  }

  /** The digits of a number with `k` places, the most significant first; the places
    that are not given are 0. */
  function Number(b: nat, digits: seq<nat>, k: nat): nat
    requires |digits| <= k
  {
    if digits == [] then 0 else digits[0] * Power(b, k - 1) + Number(b, digits[1..], k - 1)
  }

  lemma {:induction false} MulGrows(x: nat, y: nat, w: nat)
    requires x < y
    ensures x * w + w <= y * w
    decreases y
  {
    assert y * w == (y - 1) * w + w;
    if x + 1 < y {
      MulGrows(x, y - 1, w);
    }
  }

  lemma {:induction false} NumberBounded(b: nat, digits: seq<nat>, k: nat)
    requires |digits| <= k && b > 0 && forall d :: d in digits ==> d < b
    ensures Number(b, digits, k) < Power(b, k)
    decreases k
  {
    if digits != [] {
      forall d | d in digits[1..]
        ensures d < b
      {
        assert d in digits;
      }
      assert digits[0] in digits;
      NumberBounded(b, digits[1..], k - 1);
      MulGrows(digits[0], b, Power(b, k - 1));
    }
  }

  /** A digit that goes down outweighs whatever comes after it. */
  lemma {:induction false} DigitOutweighs(b: nat, pre: seq<nat>, x: nat, rest: seq<nat>, y: nat, rest1: seq<nat>,
                                          k: nat)
    requires |pre| + 1 + |rest| <= k && |pre| + 1 + |rest1| <= k && y < x && b > 0
    requires forall d :: d in rest1 ==> d < b
    ensures Number(b, pre + [y] + rest1, k) < Number(b, pre + [x] + rest, k)
    decreases |pre|
  {
    hide Power;
    if pre == [] {
      assert (pre + [y] + rest1)[1..] == rest1 && (pre + [x] + rest)[1..] == rest;
      NumberBounded(b, rest1, k - 1);
      MulGrows(y, x, Power(b, k - 1));
    } else {
      assert (pre + [y] + rest1)[1..] == pre[1..] + [y] + rest1;
      assert (pre + [x] + rest)[1..] == pre[1..] + [x] + rest;
      DigitOutweighs(b, pre[1..], x, rest, y, rest1, k - 1);
    }
  }

  lemma {:induction false} LastDigitCounts(b: nat, pre: seq<nat>, x: nat, k: nat)
    requires |pre| + 1 <= k && x > 0 && b > 0
    ensures Number(b, pre, k) < Number(b, pre + [x], k)
    decreases |pre|
  {
    if pre == [] {
      MulGrows(0, x, Power(b, k - 1));
    } else {
      assert (pre + [x])[1..] == pre[1..] + [x];
      LastDigitCounts(b, pre[1..], x, k - 1);
    }
  }

  // ─── The measure ───────────────────────────────────────────────────────────

  /** The instructions a frame has in front of it, if it does not jump back. */
  function Ahead(f: Frame): nat { if f.pc <= |f.chunk.code| then |f.chunk.code| - f.pc else 0 }

  function AheadOf(fs: seq<Frame>): (r: seq<nat>)
    ensures |r| == |fs|
  {
    if fs == [] then [] else AheadOf(fs[..|fs| - 1]) + [Ahead(fs[|fs| - 1])]
  }

  /** The frames are the digits, the outermost first; the jumps back that are left come
    before them all. */
  function Measure(b: nat, s: State): nat
    requires |s.callers| < MAX_FRAMES
  {
    (if s.steps <= STEP_LIMIT then STEP_LIMIT - s.steps else 0) * Power(b, MAX_FRAMES)
    + Number(b, AheadOf(s.callers) + [Ahead(s.top)], MAX_FRAMES)
  }

  /** All code is shorter than `b`. */
  predicate Below(p: Program, s: State, b: nat) {
    && (forall i :: 0 <= i < |p.functions| ==> |p.functions[i].code| < b)
    && (forall f :: f in s.callers ==> |f.chunk.code| < b) && |s.top.chunk.code| < b
  }

  lemma {:induction false} AheadBelow(fs: seq<Frame>, b: nat)
    requires forall f :: f in fs ==> |f.chunk.code| < b
    ensures forall d :: d in AheadOf(fs) ==> d < b
  {
    if fs != [] {
      AheadBelow(fs[..|fs| - 1], b);
    }
  }

  lemma FewerSteps(b: nat, s: State, t: State)
    requires |s.callers| < MAX_FRAMES && |t.callers| < MAX_FRAMES && s.steps < t.steps <= STEP_LIMIT
    requires forall d :: d in AheadOf(t.callers) + [Ahead(t.top)] ==> d < b
    ensures Measure(b, t) < Measure(b, s)
  {
    hide Power, Number;
    assert Ahead(t.top) in AheadOf(t.callers) + [Ahead(t.top)];
    NumberBounded(b, AheadOf(t.callers) + [Ahead(t.top)], MAX_FRAMES);
    MulGrows(STEP_LIMIT - t.steps, STEP_LIMIT - s.steps, Power(b, MAX_FRAMES));
  }

  /** The running frame gets on. */
  lemma FrameAdvances(b: nat, s: State, t: State)
    requires |s.callers| < MAX_FRAMES && t.callers == s.callers && t.steps == s.steps && Ahead(t.top) < Ahead(s.top)
             && b > 0
    ensures Measure(b, t) < Measure(b, s)
  {
    var pre := AheadOf(s.callers);
    assert pre + [Ahead(t.top)] + [] == pre + [Ahead(t.top)] && pre + [Ahead(s.top)] + [] == pre + [Ahead(s.top)];
    DigitOutweighs(b, pre, Ahead(s.top), [], Ahead(t.top), [], MAX_FRAMES);
  }

  /** A call gets on in the caller before the callee begins. */
  lemma FrameCalls(b: nat, s: State, t: State, f: Frame)
    requires |s.callers| + 1 < MAX_FRAMES && t.callers == s.callers + [f] && t.steps == s.steps
    requires Ahead(f) < Ahead(s.top) && Ahead(t.top) < b
    ensures Measure(b, t) < Measure(b, s)
  {
    var pre := AheadOf(s.callers);
    assert t.callers[..|s.callers|] == s.callers;
    assert pre + [Ahead(s.top)] + [] == pre + [Ahead(s.top)];
    DigitOutweighs(b, pre, Ahead(s.top), [], Ahead(f), [Ahead(t.top)], MAX_FRAMES);
  }

  lemma FrameReturns(b: nat, s: State, t: State)
    requires |s.callers| < MAX_FRAMES && s.callers == t.callers + [t.top] && t.steps == s.steps && Ahead(s.top) > 0
             && b > 0
    ensures Measure(b, t) < Measure(b, s)
  {
    assert s.callers[..|t.callers|] == t.callers;
    LastDigitCounts(b, AheadOf(t.callers) + [Ahead(t.top)], Ahead(s.top), MAX_FRAMES);
  }

  // ─── Every instruction makes progress ──────────────────────────────────────

  /** How an instruction moves on: forward in its frame, back at the cost of a step,
    into a call, or out of one. */
  predicate Moves(p: Program, s: State, t: State) {
    || (t.callers == s.callers && t.top == s.top.(pc := t.top.pc) && s.top.pc < t.top.pc && t.steps == s.steps)
    || (t.callers == s.callers && t.top == s.top.(pc := t.top.pc) && t.steps == s.steps + 1 <= STEP_LIMIT)
    || (t.callers == s.callers + [s.top.(pc := s.top.pc + 1)] && t.steps == s.steps && t.top.chunk in p.functions
        && |s.callers| + 1 < MAX_FRAMES)
    || (s.callers == t.callers + [t.top] && t.steps == s.steps)
  }

  lemma RawStepMoves(p: Program, src: R.Source, s: State, ds: seq<Decl>)
    requires Linked(p, src) && Disciplined(src, s, ds) && RawStep(p, s).Next?
    ensures Moves(p, s, RawStep(p, s).state) && s.top.pc < |s.top.chunk.code| && |s.callers| < MAX_FRAMES
  {
    hide DeclCode, DeclHeights, Linked, Stacked, Perform, Truthy;
    var H := FlowAt(p, src, s, ds);
    var i := s.top.chunk.code[s.top.pc];
    InstrKinds(i);
  }

  lemma MovesShrinks(p: Program, s: State, t: State, b: nat)
    requires Moves(p, s, t) && Below(p, s, b) && s.top.pc < |s.top.chunk.code| && |s.callers| < MAX_FRAMES
    requires s.steps <= STEP_LIMIT
    ensures Below(p, t, b) && t.steps <= STEP_LIMIT && |t.callers| < MAX_FRAMES && Measure(b, t) < Measure(b, s)
  {
    hide Measure, AheadOf;
    if t.callers == s.callers && t.steps == s.steps && t.top == s.top.(pc := t.top.pc) && s.top.pc < t.top.pc {
      FrameAdvances(b, s, t);
    } else if t.callers == s.callers && t.steps == s.steps + 1 {
      AheadBelow(t.callers, b);
      FewerSteps(b, s, t);
    } else if |t.callers| > |s.callers| {
      FrameCalls(b, s, t, s.top.(pc := s.top.pc + 1));
    } else {
      FrameReturns(b, s, t);
    }
  }

  /** A stretch of `n` instructions that neither fails, nor suspends, nor ends. */
  predicate StillRunning(p: Program, s: State, n: nat)
    decreases n
  {
    n == 0 || (var r := RawStep(p, s); r.Next? && StillRunning(p, r.state, n - 1))
  }

  /** Compiled code never runs for longer than its measure in one stretch. */
  lemma {:induction false} EveryStretchEnds(p: Program, src: R.Source, s: State, ds: seq<Decl>, b: nat)
    requires Linked(p, src) && Disciplined(src, s, ds) && Below(p, s, b) && s.steps <= STEP_LIMIT
    ensures |s.callers| < MAX_FRAMES && !StillRunning(p, s, Measure(b, s) + 1)
    decreases if |s.callers| < MAX_FRAMES then Measure(b, s) else 0
  {
    hide Linked, Disciplined, RawStep, Moves, Below, Measure;
    FramesAreFew(src, s, ds);
    if RawStep(p, s).Next? {
      var t := RawStep(p, s).state;
      RawStepMoves(p, src, s, ds);
      MovesShrinks(p, s, t, b);
      RawStepKeepsDiscipline(p, src, s, ds);
      var ds1 :| Disciplined(src, t, ds1);
      EveryStretchEnds(p, src, t, ds1, b);
      if StillRunning(p, s, Measure(b, s) + 1) {
        FewerStillRunning(p, t, Measure(b, t) + 1, Measure(b, s));
      }
    }
  }

  lemma FramesAreFew(src: R.Source, s: State, ds: seq<Decl>)
    requires Disciplined(src, s, ds)
    ensures |s.callers| < MAX_FRAMES
  {
    hide Stacked, DeclCode, DeclHeights;
  }

  lemma {:induction false} FewerStillRunning(p: Program, s: State, n: nat, m: nat)
    requires n <= m && StillRunning(p, s, m)
    ensures StillRunning(p, s, n)
    decreases n
  {
    hide RawStep;
    if n > 0 {
      FewerStillRunning(p, RawStep(p, s).state, n - 1, m - 1);
    }
  }

  // ─── The bound on code stays ───────────────────────────────────────────────

  lemma BelowStop(p: Program, s: State, raw: Raw, b: nat)
    requires Below(p, s, b) && raw == RawStep(p, s) && (raw.Fail? || raw.Suspend?)
    ensures raw.Fail? ==> Below(p, raw.at, b)
    ensures raw.Suspend? ==> Below(p, raw.asleep, b)
  {
    hide Perform, Truthy;
  }

  lemma WakeBelow(p: Program, s: State, r: Resumption, b: nat)
    requires Below(p, s, b)
    ensures Below(p, Wake(s, r), b)
  {
  }

  lemma {:induction false} RaiseBelow(p: Program, s: State, error: string, inputs: seq<Resumption>, b: nat)
    requires Below(p, s, b)
    ensures Raise(s, error, inputs).Run? ==> Below(p, Raise(s, error, inputs).state, b)
    decreases |s.callers|
  {
    hide FindHandler;
    if s.callers != [] {
      var n := |s.callers| - 1;
      RaiseBelow(p, State(s.callers[n], s.callers[..n], Trunc(s.stack, s.top.stackBase),
                          Trunc(s.locals, s.top.localsBase), 0, s.world), error, inputs, b);
    }
  }
}
