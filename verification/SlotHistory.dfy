/** What has been written in a run: no instruction that a compiled route can reach reads a
  slot that its function has not written since it was called. */
module SlotHistory {
  import opened Wrappers
  import opened Values
  import opened Ast
  import opened Bytecode
  import opened Machine
  import opened Layout
  import opened Composition
  import opened Discipline
  import opened Correctness
  import opened Initialised
  import R = Reference

  // ─── The history of a run ──────────────────────────────────────────────────

  function Below(n: nat): (r: set<nat>)
    ensures forall k: nat :: k in r <==> k < n
  {
    if n == 0 then {} else Below(n - 1) + {n - 1}
  }

  /** The instruction that comes next; when there is none, the frame is left. */
  function NextInstr(s: State): Instr {
    if s.top.pc < |s.top.chunk.code| then s.top.chunk.code[s.top.pc] else OpReturnNull
  }

  /** The slots written in each frame, the running one last: a call begins with its
    arguments, a store adds its slot, and what is dropped is gone. */
  function WrittenBy(s: State, t: State, ws: seq<set<nat>>): seq<set<nat>>
    requires ws != []
  {
    var n, i := |t.callers| + 1, NextInstr(s);
    if n > |ws| then ws + [if i.OpCallFunction? then Below(i.argc) else {}]
    else if n < |ws| then ws[..n]
    else if i.OpStoreLocal? then ws[n - 1 := ws[n - 1] + {i.slot}]
    else ws
  }

  /** The same along a run whose first frame has `n` parameters. */
  function Written(tr: seq<Cfg>, n: nat): (ws: seq<set<nat>>)
    ensures ws != []
  {
    if |tr| <= 1 then [Below(n)]
    else
      var ws, c, d := Written(tr[..|tr| - 1], n), tr[|tr| - 2], tr[|tr| - 1];
      if c.Run? && d.Run? then WrittenBy(c.state, d.state, ws) else ws
  }

  // ─── What every frame has ──────────────────────────────────────────────────

  /** All slots that hold something at the address of the frame have been written. */
  predicate Holds(src: R.Source, f: Frame, w: set<nat>, d: Decl) {
    DeclCode(f.chunk, src.sigs, d) && forall k: nat :: k < DeclLive(d, src.sigs, f.pc) ==> k in w
  }

  ghost predicate FrameHolds(src: R.Source, f: Frame, w: set<nat>) { exists d :: Holds(src, f, w, d) }

  ghost predicate AllHold(src: R.Source, s: State, ws: seq<set<nat>>) {
    && |ws| == |s.callers| + 1 && FrameHolds(src, s.top, ws[|s.callers|])
    && forall i {:trigger s.callers[i]} :: 0 <= i < |s.callers| ==> FrameHolds(src, s.callers[i], ws[i])
  }

  /** In the same frame, at an address that can come next. */
  lemma NextHolds(src: R.Source, f: Frame, w: set<nat>, pc: nat)
    requires FrameHolds(src, f, w) && f.pc < |f.chunk.code| && IsNext(f.chunk.code[f.pc], f.pc, pc)
    ensures var i := f.chunk.code[f.pc];
            FrameHolds(src, f.(pc := pc), if i.OpStoreLocal? then w + {i.slot} else w)
  {
    hide DeclCode, DeclLive, HandlerNeedsLess;
    var d :| Holds(src, f, w, d);
    var i := f.chunk.code[f.pc];
    DeclLives(f.chunk, src.sigs, d);
    assert Leads(src.sigs, f.chunk, f.pc, OfDecl(d, src.sigs));
    assert Holds(src, f.(pc := pc), if i.OpStoreLocal? then w + {i.slot} else w, d);
  }

  lemma ReadHolds(src: R.Source, f: Frame, w: set<nat>)
    requires FrameHolds(src, f, w) && f.pc < |f.chunk.code|
    ensures f.chunk.code[f.pc].OpLoadLocal? ==> f.chunk.code[f.pc].slot in w
    ensures CallFits(src.sigs, f.chunk.code[f.pc])
  {
    hide DeclCode, DeclLive, HandlerNeedsLess;
    var d :| Holds(src, f, w, d);
    DeclLives(f.chunk, src.sigs, d);
    assert Leads(src.sigs, f.chunk, f.pc, OfDecl(d, src.sigs));
  }

  /** At a handler, when an instruction of its range fails or a call in it does. */
  lemma HandlerHolds(src: R.Source, f: Frame, w: set<nat>, g: Frame, r: TryRange)
    requires FrameHolds(src, f, w) && r in f.chunk.ranges && r.begin <= f.pc <= r.end
    requires g.chunk == f.chunk && g.pc == r.handler
    ensures FrameHolds(src, g, w)
  {
    hide DeclCode, DeclLive, Lives;
    var d :| Holds(src, f, w, d);
    DeclLives(f.chunk, src.sigs, d);
    var live := OfDecl(d, src.sigs);
    assert HandlerNeedsLess(r, live, 0, |f.chunk.code|);
    assert live(r.handler) <= live(f.pc);
    assert Holds(src, g, w, d);
  }

  lemma CalleeHolds(p: Program, src: R.Source, f: Frame, i: Instr)
    requires Linked(p, src) && i.OpCallFunction? && i.index < |p.functions| && CallFits(src.sigs, i)
    requires f.chunk == p.functions[i.index] && f.pc == 0
    ensures FrameHolds(src, f, Below(i.argc))
  {
    hide DeclCode, DeclLive, Lives, HandlerNeedsLess;
    var name :| name in src.sigs.functions && src.sigs.functions[name].index == i.index
                && |src.sigs.functions[name].defaults| == i.argc;
    var d := src.decls[i.index];
    assert SigMatches(src, src.sigs.functions[name]);
    DeclLives(f.chunk, src.sigs, d);
    assert Holds(src, f, Below(i.argc), d);
  }

  // ─── Every step ────────────────────────────────────────────────────────────

  /** The frames after an instruction: the same one goes on, a function is entered, or the
    nearest caller goes on. */
  lemma FramesAfter(p: Program, s: State)
    requires s.top.pc < |s.top.chunk.code| && RawStep(p, s).Next?
    ensures var t, i, pc := RawStep(p, s).state, NextInstr(s), s.top.pc;
            || (t.callers == s.callers && t.top == s.top.(pc := t.top.pc) && IsNext(i, pc, t.top.pc))
            || (i.OpCallFunction? && i.index < |p.functions| && t.callers == s.callers + [s.top.(pc := pc + 1)]
                && t.top.chunk == p.functions[i.index] && t.top.pc == 0)
            || (s.callers == t.callers + [t.top] && (i.OpReturn? || i.OpReturnNull?))
  {
    hide Perform, Truthy;
  }

  lemma NextAllHold(p: Program, src: R.Source, s: State, ws: seq<set<nat>>)
    requires Linked(p, src) && AllHold(src, s, ws) && s.top.pc < |s.top.chunk.code| && RawStep(p, s).Next?
    ensures AllHold(src, RawStep(p, s).state, WrittenBy(s, RawStep(p, s).state, ws))
  {
    hide Linked, FrameHolds, RawStep, IsNext, CallFits;
    var t, i := RawStep(p, s).state, NextInstr(s);
    var n := |s.callers|;
    FramesAfter(p, s);
    if t.callers == s.callers {
      NextHolds(src, s.top, ws[n], t.top.pc);
    } else if |t.callers| > n {
      ReadHolds(src, s.top, ws[n]);
      CallIsNext(i, s.top.pc);
      NextHolds(src, s.top, ws[n], s.top.pc + 1);
      CalleeHolds(p, src, t.top, i);
    } else {
      assert s.callers[n - 1] == t.top;
      assert forall k :: 0 <= k < |t.callers| ==> t.callers[k] == s.callers[k];
    }
  }

  lemma CallIsNext(i: Instr, pc: nat)
    requires i.OpCallFunction?
    ensures IsNext(i, pc, pc + 1)
  {
  }

  /** The state in which an instruction fails or suspends has the frames of the one before,
    the running one past the instruction. */
  lemma FramesAtStop(p: Program, s: State)
    requires s.top.pc < |s.top.chunk.code|
    ensures var raw, top := RawStep(p, s), s.top.(pc := s.top.pc + 1);
            && (raw.Fail? ==> raw.at.callers == s.callers && raw.at.top == top && !NextInstr(s).OpStoreLocal?)
            && (raw.Suspend? ==> raw.asleep.callers == s.callers && raw.asleep.top == top
                                 && NextInstr(s).OpCallAsync?)
  {
    hide Perform, Truthy;
  }

  lemma CaughtRange(f: Frame)
    requires HandlerOf(f).HandlerAt?
    ensures HandlerOf(f).range in f.chunk.ranges && f.pc > 0
            && HandlerOf(f).range.begin <= f.pc - 1 < HandlerOf(f).range.end
  {
    RangeCovers(f.chunk.ranges, f.pc as int - 1, NoHandler);
  }

  lemma {:induction false} RangeCovers(ranges: seq<TryRange>, pc: int, best: Handler)
    ensures var h := FindHandler(ranges, pc, best);
            h.HandlerAt? ==> h == best || (h.range in ranges && Covers(h.range, pc))
  {
    if ranges != [] {
      var r := ranges[0];
      RangeCovers(ranges[1..], pc,
                  if Covers(r, pc) && (best.NoHandler? || r.end - r.begin < best.range.end - best.range.begin)
                  then HandlerAt(r) else best);
    }
  }

  lemma RaiseAllHold(src: R.Source, s: State, at: State, error: string, t: State, i: nat, ws: seq<set<nat>>)
    requires AllHold(src, s, ws) && s.top.pc < |s.top.chunk.code|
    requires at.callers == s.callers && at.top == s.top.(pc := s.top.pc + 1) && Caught(at, i, error, t)
    requires !NextInstr(s).OpStoreLocal?
    ensures AllHold(src, t, WrittenBy(s, t, ws))
  {
    hide FrameHolds, HandlerOf, NoneAbove, ErrorValue;
    var f := FrameAt(at, i);
    CaughtRange(f);
    if i == |s.callers| {
      HandlerHolds(src, s.top, ws[i], t.top, HandlerOf(f).range);
    } else {
      HandlerHolds(src, s.callers[i], ws[i], t.top, HandlerOf(f).range);
    }
  }

  lemma WakeAllHold(p: Program, src: R.Source, s: State, r: Resumption, ws: seq<set<nat>>)
    requires AllHold(src, s, ws) && s.top.pc < |s.top.chunk.code| && RawStep(p, s).Suspend?
    ensures var t := Wake(RawStep(p, s).asleep, r); AllHold(src, t, WrittenBy(s, t, ws))
  {
    hide FrameHolds, RawStep;
    FramesAtStop(p, s);
    NextHolds(src, s.top, ws[|s.callers|], s.top.pc + 1);
  }

  lemma StepAllHold(p: Program, src: R.Source, c: Cfg, ws: seq<set<nat>>)
    requires Linked(p, src) && c.Run? && InOrder(src, c) && AllHold(src, c.state, ws)
    ensures var d := Machine.Step(p, c); d.Run? ==> AllHold(src, d.state, WrittenBy(c.state, d.state, ws))
  {
    hide Linked, AllHold, WrittenBy, Disciplined, Broken, Asleep, RawStep, Raise, Wake, Caught;
    var s, raw := c.state, RawStep(p, c.state);
    var ds :| Disciplined(src, s, ds);
    TopIsInside(src, s, ds);
    RawStepKeepsDiscipline(p, src, s, ds);
    match raw
    case Next(t) => NextAllHold(p, src, s, ws);
    case Fail(e, at) =>
      RaiseKeepsDiscipline(src, at, ds, e, c.inputs);
      FramesAtStop(p, s);
      if Raise(at, e, c.inputs).Run? {
        var t := Raise(at, e, c.inputs).state;
        var i: nat :| Caught(at, i, e, t);
        RaiseAllHold(src, s, at, e, t, i, ws);
      }
    case Suspend(id, args, asleep) =>
      if c.inputs != [] {
        WakeAllHold(p, src, s, c.inputs[0], ws);
      }
    case Finish(v, w) =>
    case Crash =>
  }

  lemma TopIsInside(src: R.Source, s: State, ds: seq<Decl>)
    requires Disciplined(src, s, ds)
    ensures s.top.pc < |s.top.chunk.code|
  {
    hide DeclCode, Stacked, Own;
  }

  lemma {:induction false} RunAllHold(p: Program, src: R.Source, tr: seq<Cfg>, n: nat)
    requires Linked(p, src) && IsRun(p, tr) && tr[0].Run? && InOrder(src, tr[0])
             && AllHold(src, tr[0].state, [Below(n)])
    ensures InOrder(src, tr[|tr| - 1])
    ensures tr[|tr| - 1].Run? ==> AllHold(src, tr[|tr| - 1].state, Written(tr, n))
    decreases |tr|
  {
    hide Linked, InOrder, AllHold, WrittenBy, Machine.Step;
    RunKeepsOrder(p, src, tr, |tr| - 1);
    if |tr| > 1 {
      var before := tr[..|tr| - 1];
      assert StepAt(p, tr, |tr| - 2);
      BeforeIsRun(p, tr);
      RunAllHold(p, src, before, n);
      StepAllHold(p, src, tr[|tr| - 2], Written(before, n));
    }
  }

  lemma BeforeIsRun(p: Program, tr: seq<Cfg>)
    requires IsRun(p, tr) && |tr| > 1
    ensures IsRun(p, tr[..|tr| - 1])
  {
    hide Machine.Step;
    var before := tr[..|tr| - 1];
    forall i: nat | i + 1 < |before|
      ensures StepAt(p, before, i)
    {
      assert StepAt(p, tr, i);
    }
  }

  lemma StartHolds(src: R.Source, ch: Chunk, decl: Decl, args: seq<Value>, w: World)
    requires DeclCode(ch, src.sigs, decl)
    ensures AllHold(src, Start(ch, args, w), [Below(|decl.params|)])
  {
    hide DeclCode, DeclLive, Lives, HandlerNeedsLess;
    DeclLives(ch, src.sigs, decl);
    assert Holds(src, Start(ch, args, w).top, Below(|decl.params|), decl);
  }

  /** Whatever a compiled route does, ending or not: a slot that the next instruction reads
    has been written since its function was called, or holds one of its arguments. */
  lemma EverySlotIsWritten(p: Program, src: R.Source, ch: Chunk, decl: Decl, args: seq<Value>, w: World,
                           inputs: seq<Resumption>, tr: seq<Cfg>)
    requires Linked(p, src) && DeclCode(ch, src.sigs, decl)
    requires IsRun(p, tr) && tr[0] == Begin(ch, args, w, inputs) && tr[|tr| - 1].Run?
    ensures var s, ws := tr[|tr| - 1].state, Written(tr, |decl.params|);
            && |ws| == |s.callers| + 1
            && (NextInstr(s).OpLoadLocal? ==> NextInstr(s).slot in ws[|s.callers|])
  {
    hide Linked, DeclCode, InOrder, FrameHolds, Written, Disciplined, Start;
    StartIsDisciplined(p, src, ch, decl, args, w);
    BeginIsInOrder(src, ch, decl, args, w, inputs);
    StartHolds(src, ch, decl, args, w);
    RunAllHold(p, src, tr, |decl.params|);
    var s, ws := tr[|tr| - 1].state, Written(tr, |decl.params|);
    if s.top.pc < |s.top.chunk.code| {
      ReadHolds(src, s.top, ws[|s.callers|]);
    }
  }

  lemma BeginIsInOrder(src: R.Source, ch: Chunk, decl: Decl, args: seq<Value>, w: World, inputs: seq<Resumption>)
    requires Disciplined(src, Start(ch, args, w), [decl])
    ensures InOrder(src, Begin(ch, args, w, inputs))
  {
    hide Disciplined, Start;
  }
}
