/** The pass itself: code and names that grow, jumps that are aimed later, and names that are
  hidden while a loop is open. */
module TemplatePass {
  import opened Template
  import opened TemplateRun
  import opened TemplateReading

  datatype Pending = NoTest | Test(at: nat)

  /** A block that is open: where its start is, the jumps to its end, and the names it hides. */
  datatype Open =
    | OpenIf(patches: seq<nat>, pending: Pending)
    | OpenFor(start: nat, hidden: seq<Covered>)

  datatype Covered = Covered(slot: nat, name: string)

  /** The jump at `p` is aimed. */
  function Aim(code: seq<Instr>, p: nat, to: nat): (r: seq<Instr>)
    ensures |r| == |code|
  {
    if p < |code| then code[p := Aimed(code[p], to)] else code
  }

  function Aimed(i: Instr, to: nat): Instr {
    match i
    case JumpIfFalse(e, _) => JumpIfFalse(e, to)
    case Jump(_) => Jump(to)
    case LoopStart(e, _, slot, loopSlot) => LoopStart(e, to, slot, loopSlot)
    case _ => i
  }

  function AimAll(code: seq<Instr>, ps: seq<nat>, to: nat): (r: seq<Instr>)
    ensures |r| == |code|
  {
    if ps == [] then code else Aim(AimAll(code, ps[..|ps| - 1], to), ps[|ps| - 1], to)
  }

  /** Where the jumps to the end of a condition are. */
  function Patches(ch: Chain, at: nat): seq<nat> {
    match ch
    case NoBranch => []
    case Branch(before, _, _) => Patches(before, at) + [at + ChainSize(ch) - 1]
  }

  function CoveredBy(names: seq<Name>, name: string): seq<Covered> {
    var s := Slot(names, Visible(name));
    if s < |names| then [Covered(s, name)] else []
  }

  /** The names that a loop hides: its own, and that of its progress. */
  function HiddenBy(names: seq<Name>, name: string): seq<Covered> {
    CoveredBy(names, name) + CoveredBy(Hide(names, name), LOOP)
  }

  function Restored(names: seq<Name>, hidden: seq<Covered>): (r: seq<Name>)
    ensures |r| == |names|
    decreases |hidden|
  {
    if hidden == [] then names
    else
      var c := hidden[0];
      Restored(if c.slot < |names| then names[c.slot := Visible(c.name)] else names, hidden[1..])
  }

  // ─── What the fields hold ──────────────────────────────────────────────────

  /** The code in front of the open block. */
  function BaseCode(outer: Ctx, before: Block, data: seq<string>): seq<Instr>
    decreases outer, 1
  {
    CtxCode(outer, data) + Code(before, CtxNames(outer, data), |CtxCode(outer, data)|)
  }

  /** The code up to the block being read: jumps that are not aimed yet go to 0. */
  function CtxCode(ctx: Ctx, data: seq<string>): seq<Instr>
    decreases ctx, 0
  {
    match ctx
    case Top => []
    case InIf(outer, before, closed, cond) =>
      var p := BaseCode(outer, before, data);
      p + ChainCode(closed, CtxNames(outer, data) + Extra(before), |p|, 0)
      + [JumpIfFalse(CompiledExpr(cond, CtxNames(ctx, data)), 0)]
    case InElse(outer, before, closed) =>
      var p := BaseCode(outer, before, data);
      p + ChainCode(closed, CtxNames(outer, data) + Extra(before), |p|, 0)
    case InFor(outer, before, name, list) =>
      var p := BaseCode(outer, before, data);
      var names := CtxNames(outer, data) + Extra(before);
      p + [LoopStart(CompiledExpr(list, names), 0, |names|, |names| + 1)]
  }

  function CtxOpen(ctx: Ctx, data: seq<string>): seq<Open> {
    match ctx
    case Top => []
    case InIf(outer, before, closed, _) =>
      var p := |BaseCode(outer, before, data)|;
      CtxOpen(outer, data) + [OpenIf(Patches(closed, p), Test(p + ChainSize(closed)))]
    case InElse(outer, before, closed) =>
      CtxOpen(outer, data) + [OpenIf(Patches(closed, |BaseCode(outer, before, data)|), NoTest)]
    case InFor(outer, before, name, _) =>
      CtxOpen(outer, data)
      + [OpenFor(|BaseCode(outer, before, data)|, HiddenBy(CtxNames(outer, data) + Extra(before), name))]
  }

  // ─── Aiming ────────────────────────────────────────────────────────────────

  lemma AimInside(a: seq<Instr>, i: Instr, b: seq<Instr>, to: nat)
    ensures Aim(a + [i] + b, |a|, to) == a + [Aimed(i, to)] + b
  {
    hide Aimed;
    var code := a + [i] + b;
    assert code[|a|] == i;
    assert code[|a| := Aimed(i, to)] == a + [Aimed(i, to)] + b;
  }

  /** An instruction that is aimed inside a part, between other parts. */
  lemma AimWithin(a: seq<Instr>, c: seq<Instr>, i: Instr, d: seq<Instr>, b: seq<Instr>, to: nat)
    ensures Aim(a + (c + [i] + d) + b, |a| + |c|, to) == a + (c + [Aimed(i, to)] + d) + b
  {
    hide Aim, Aimed;
    assert a + (c + [i] + d) + b == (a + c) + [i] + (d + b);
    AimInside(a + c, i, d + b, to);
    assert (a + c) + [Aimed(i, to)] + (d + b) == a + (c + [Aimed(i, to)] + d) + b;
  }

  lemma SplitEnd(a: seq<Instr>, c: seq<Instr>, mid: seq<Instr>, i: Instr, b: seq<Instr>)
    ensures a + (c + mid + [i]) + b == a + c + (mid + [i] + b)
    ensures c + mid + [i] == (c + mid) + [i] + []
  {
  }

  /** Aiming the jumps of a chain makes its code that of the aimed chain, wherever it is. */
  lemma {:induction false} ChainAimed(a: seq<Instr>, ch: Chain, names: seq<Name>, b: seq<Instr>, to: nat)
    ensures AimAll(a + ChainCode(ch, names, |a|, 0) + b, Patches(ch, |a|), to) == a + ChainCode(ch, names, |a|, to) + b
    decreases ch
  {
    hide Aim, ChainExtra, ChainSize, Code, CompiledExpr;
    match ch
    case NoBranch =>
    case Branch(before, cond, body) =>
      var at := |a|;
      var c0, c1 := ChainCode(before, names, at, 0), ChainCode(before, names, at, to);
      var mid := BranchMiddle(ch, names, at, 0);
      var mid1 := BranchMiddle(ch, names, at, to);
      ChainCodeSize(before, names, at, to);
      ChainCodeSize(ch, names, at, to);
      SplitEnd(a, c0, mid, Jump(0), b);
      SplitEnd(a, c1, mid, Jump(0), b);
      ChainAimed(a, before, names, mid + [Jump(0)] + b, to);
      AimWithin(a, c1 + mid, Jump(0), [], b, to);
      assert Aimed(Jump(0), to) == Jump(to);
      SplitEnd(a, c1, mid, Jump(to), b);
      var ps := Patches(ch, at);
      assert ps[..|ps| - 1] == Patches(before, at) && ps[|ps| - 1] == |a| + |c1 + mid|;
  }

  /** The test and the body of the last branch, which do not depend on where it jumps. */
  lemma BranchMiddle(ch: Chain, names: seq<Name>, at: nat, end: nat) returns (mid: seq<Instr>)
    requires ch.Branch?
    ensures ChainCode(ch, names, at, end) == ChainCode(ch.before, names, at, end) + mid + [Jump(end)]
    ensures var names1 := names + ChainExtra(ch.before);
            var at1 := at + ChainSize(ch.before);
            var part := Code(ch.body, names1, at1 + 1);
            mid == [JumpIfFalse(CompiledExpr(ch.cond, names1), at1 + 2 + |part|)] + part
  {
    hide ChainExtra, ChainSize, Code, CompiledExpr;
    var names1 := names + ChainExtra(ch.before);
    var at1 := at + ChainSize(ch.before);
    var part := Code(ch.body, names1, at1 + 1);
    mid := [JumpIfFalse(CompiledExpr(ch.cond, names1), at1 + 2 + |part|)] + part;
  }

  // ─── The steps, on values ──────────────────────────────────────────────────

  function Whole(ctx: Ctx, cur: Block, data: seq<string>): seq<Instr> { BaseCode(ctx, cur, data) }

  lemma Assoc<T>(a: seq<T>, b: seq<T>, c: seq<T>)
    ensures a + (b + c) == a + b + c
  {
  }

  lemma ItemAdded(ctx: Ctx, cur: Block, item: Item, data: seq<string>)
    ensures Whole(ctx, Then(cur, item), data)
            == Whole(ctx, cur, data) + ItemCode(item, CtxNames(ctx, data) + Extra(cur), |Whole(ctx, cur, data)|)
    ensures CtxNames(ctx, data) + Extra(Then(cur, item)) == CtxNames(ctx, data) + Extra(cur) + ItemExtra(item)
  {
    hide CtxCode, CtxNames, ItemCode, ItemExtra;
    var c, n := CtxCode(ctx, data), CtxNames(ctx, data);
    var part := Code(cur, n, |c|);
    var more := ItemCode(item, n + Extra(cur), |c| + |part|);
    assert Code(Then(cur, item), n, |c|) == part + more;
    assert Whole(ctx, Then(cur, item), data) == c + (part + more) && Whole(ctx, cur, data) == c + part;
    Assoc(c, part, more);
    assert Extra(Then(cur, item)) == Extra(cur) + ItemExtra(item);
    Assoc(n, Extra(cur), ItemExtra(item));
  }

  lemma NothingYet(ctx: Ctx, data: seq<string>)
    ensures Whole(ctx, Nothing, data) == CtxCode(ctx, data)
            && CtxNames(ctx, data) + Extra(Nothing) == CtxNames(ctx, data)
  {
    hide CtxCode, CtxNames, ItemCode, ItemExtra;
  }

  lemma IfOpened(ctx: Ctx, cur: Block, e: Expr, data: seq<string>)
    ensures var names := CtxNames(ctx, data) + Extra(cur);
            var ctx1 := InIf(ctx, cur, NoBranch, e);
            var w := Whole(ctx, cur, data);
            && Whole(ctx1, Nothing, data) == w + [JumpIfFalse(CompiledExpr(e, names), 0)]
            && CtxNames(ctx1, data) + Extra(Nothing) == names
            && CtxOpen(ctx1, data) == CtxOpen(ctx, data) + [OpenIf([], Test(|w|))]
  {
    hide BaseCode, Code, CompiledExpr, DataNames, Extra, HiddenBy, LoopNames, Size;
    NothingYet(InIf(ctx, cur, NoBranch, e), data);
    var names := CtxNames(ctx, data) + Extra(cur);
    assert names + [] == names;
    assert Whole(ctx, cur, data) + [] == Whole(ctx, cur, data);
  }

  /** What is there while a branch is being read. */
  lemma InIfWhole(outer: Ctx, before: Block, closed: Chain, cond: Expr, cur: Block, data: seq<string>)
    ensures var p := BaseCode(outer, before, data);
            var n := CtxNames(outer, data) + Extra(before);
            var names1 := n + ChainExtra(closed);
            var c := ChainCode(closed, n, |p|, 0);
            var part := Code(cur, names1, |p| + |c| + 1);
            && |c| == ChainSize(closed)
            && Whole(InIf(outer, before, closed, cond), cur, data)
               == p + c + [JumpIfFalse(CompiledExpr(cond, names1), 0)] + part
            && CtxNames(InIf(outer, before, closed, cond), data) + Extra(cur) == n + (ChainExtra(closed) + Extra(cur))
  {
    hide ChainCode, ChainExtra, ChainSize, Code, CompiledExpr, DataNames, Extra, LoopNames;
    var ctx := InIf(outer, before, closed, cond);
    var p := BaseCode(outer, before, data);
    var n := CtxNames(outer, data) + Extra(before);
    var c := ChainCode(closed, n, |p|, 0);
    ChainCodeSize(closed, n, |p|, 0);
    var code := CtxCode(ctx, data);
    assert code == p + c + [JumpIfFalse(CompiledExpr(cond, n + ChainExtra(closed)), 0)];
    assert Whole(ctx, cur, data) == code + Code(cur, n + ChainExtra(closed), |code|);
    assert n + (ChainExtra(closed) + Extra(cur)) == n + ChainExtra(closed) + Extra(cur);
  }

  /** The open branch is closed: a jump goes behind it, and its test is aimed behind that. */
  lemma BranchClosed(outer: Ctx, before: Block, closed: Chain, cond: Expr, cur: Block, data: seq<string>)
    ensures var ctx := InIf(outer, before, closed, cond);
            var w, p := Whole(ctx, cur, data), BaseCode(outer, before, data);
            var n := CtxNames(outer, data) + Extra(before);
            var closed1 := Branch(closed, cond, cur);
            && Aim(w + [Jump(0)], |p| + ChainSize(closed), |w| + 1) == p + ChainCode(closed1, n, |p|, 0)
            && |p| + ChainSize(closed1) == |w| + 1
            && Patches(closed1, |p|) == Patches(closed, |p|) + [|w|]
            && n + ChainExtra(closed1) == CtxNames(ctx, data) + Extra(cur)
  {
    hide Aim, BaseCode, ChainCode, ChainExtra, ChainSize, Code, CompiledExpr, CtxNames, Extra, Patches, Size, Whole;
    var w, p := Whole(InIf(outer, before, closed, cond), cur, data), BaseCode(outer, before, data);
    var n := CtxNames(outer, data) + Extra(before);
    var names1 := n + ChainExtra(closed);
    var c := ChainCode(closed, n, |p|, 0);
    var part := Code(cur, names1, |p| + |c| + 1);
    InIfWhole(outer, before, closed, cond, cur, data);
    CodeSize(cur, names1, |p| + |c| + 1);
    BranchAimed(p, c, CompiledExpr(cond, names1), part, |w| + 1);
    var mid := BranchMiddle(Branch(closed, cond, cur), n, |p|, 0);
    BranchShape(closed, cond, cur, |p|);
  }

  /** The test of a branch is aimed, and the jump behind it is still open. */
  lemma BranchAimed(p: seq<Instr>, c: seq<Instr>, e: Compiled, part: seq<Instr>, to: nat)
    ensures Aim(p + c + [JumpIfFalse(e, 0)] + part + [Jump(0)], |p| + |c|, to)
            == p + (c + ([JumpIfFalse(e, to)] + part) + [Jump(0)])
  {
    hide Aim;
    CloseParts(p, c, JumpIfFalse(e, 0), part);
    AimWithin(p, c, JumpIfFalse(e, 0), part + [Jump(0)], [], to);
    CloseParts(p, c, JumpIfFalse(e, to), part);
  }

  lemma BranchShape(closed: Chain, cond: Expr, cur: Block, at: nat)
    ensures var ch := Branch(closed, cond, cur);
            && ChainSize(ch) == ChainSize(closed) + Size(cur) + 2 && ChainExtra(ch) == ChainExtra(closed) + Extra(cur)
            && Patches(ch, at) == Patches(closed, at) + [at + ChainSize(ch) - 1]
  {
    hide Size, Extra;
  }

  lemma CloseParts(p: seq<Instr>, c: seq<Instr>, test: Instr, part: seq<Instr>)
    ensures p + c + [test] + part + [Jump(0)] == p + (c + [test] + (part + [Jump(0)])) + []
    ensures p + (c + [test] + (part + [Jump(0)])) + [] == p + (c + ([test] + part) + [Jump(0)])
  {
  }

  lemma ElifOpened(outer: Ctx, before: Block, closed: Chain, e: Expr, data: seq<string>)
    ensures var p := BaseCode(outer, before, data);
            var n := CtxNames(outer, data) + Extra(before);
            var ctx := InIf(outer, before, closed, e);
            && Whole(ctx, Nothing, data)
               == p + ChainCode(closed, n, |p|, 0) + [JumpIfFalse(CompiledExpr(e, n + ChainExtra(closed)), 0)]
            && CtxNames(ctx, data) + Extra(Nothing) == n + ChainExtra(closed)
            && CtxOpen(ctx, data)
               == CtxOpen(outer, data) + [OpenIf(Patches(closed, |p|), Test(|p| + ChainSize(closed)))]
  {
    hide BaseCode, ChainCode, ChainExtra, ChainSize, CompiledExpr, DataNames, Extra, HiddenBy, LoopNames, Patches,
         Whole;
    NothingYet(InIf(outer, before, closed, e), data);
  }

  lemma ElseOpened(outer: Ctx, before: Block, closed: Chain, data: seq<string>)
    ensures var p := BaseCode(outer, before, data);
            var n := CtxNames(outer, data) + Extra(before);
            var ctx := InElse(outer, before, closed);
            && Whole(ctx, Nothing, data) == p + ChainCode(closed, n, |p|, 0)
            && CtxNames(ctx, data) + Extra(Nothing) == n + ChainExtra(closed)
            && CtxOpen(ctx, data) == CtxOpen(outer, data) + [OpenIf(Patches(closed, |p|), NoTest)]
  {
    hide BaseCode, ChainCode, ChainExtra, ChainSize, CompiledExpr, DataNames, Extra, HiddenBy, LoopNames, Patches,
         Whole;
    NothingYet(InElse(outer, before, closed), data);
  }

  /** The last test of a condition, and the branch behind it. */
  function LastPart(cond: Expr, body: Block, names: seq<Name>, at: nat, end: nat): seq<Instr> {
    [JumpIfFalse(CompiledExpr(cond, names), end)] + Code(body, names, at + 1)
  }

  lemma LastAimed(outer: Ctx, before: Block, closed: Chain, cond: Expr, cur: Block, data: seq<string>, to: nat)
    ensures var ctx := InIf(outer, before, closed, cond);
            var w, p := Whole(ctx, cur, data), BaseCode(outer, before, data);
            var n := CtxNames(outer, data) + Extra(before);
            Aim(w, |p| + ChainSize(closed), to)
            == p + ChainCode(closed, n, |p|, 0)
               + LastPart(cond, cur, n + ChainExtra(closed), |p| + ChainSize(closed), to)
  {
    hide Aim, BaseCode, ChainCode, ChainExtra, ChainSize, Code, CompiledExpr, CtxNames, Extra, Whole;
    var ctx := InIf(outer, before, closed, cond);
    var w, p := Whole(ctx, cur, data), BaseCode(outer, before, data);
    var n := CtxNames(outer, data) + Extra(before);
    var names1 := n + ChainExtra(closed);
    var c := ChainCode(closed, n, |p|, 0);
    var test := JumpIfFalse(CompiledExpr(cond, names1), 0);
    var part := Code(cur, names1, |p| + |c| + 1);
    InIfWhole(outer, before, closed, cond, cur, data);
    AimInside(p + c, test, part, to);
    assert Aimed(test, to) == JumpIfFalse(CompiledExpr(cond, names1), to);
    Assoc(p + c, [Aimed(test, to)], part);
  }

  /** The end of a condition without `else`. */
  lemma IfClosed(outer: Ctx, before: Block, closed: Chain, cond: Expr, cur: Block, data: seq<string>)
    ensures var ctx := InIf(outer, before, closed, cond);
            var w, p := Whole(ctx, cur, data), BaseCode(outer, before, data);
            && AimAll(Aim(w, |p| + ChainSize(closed), |w|), Patches(closed, |p|), |w|)
               == Whole(outer, Then(before, If(closed, cond, cur)), data)
            && CtxNames(ctx, data) + Extra(cur) == CtxNames(outer, data) + Extra(Then(before, If(closed, cond, cur)))
  {
    hide Aim, AimAll, BaseCode, ChainCode, ChainExtra, ChainSize, Code, CompiledExpr, CtxNames, Extra, ItemCode,
         LastPart, Patches;
    var ctx := InIf(outer, before, closed, cond);
    var item := If(closed, cond, cur);
    var w, p := Whole(ctx, cur, data), BaseCode(outer, before, data);
    var n := CtxNames(outer, data) + Extra(before);
    var last := LastPart(cond, cur, n + ChainExtra(closed), |p| + ChainSize(closed), |w|);
    LastAimed(outer, before, closed, cond, cur, data, |w|);
    ChainAimed(p, closed, n, last, |w|);
    ItemAdded(outer, before, item, data);
    assert Whole(outer, before, data) == p;
    IfSize(outer, before, closed, cond, cur, data);
    Assoc(p, ChainCode(closed, n, |p|, |w|), last);
    assert ItemExtra(item) == ChainExtra(closed) + Extra(cur);
    InIfWhole(outer, before, closed, cond, cur, data);
  }

  lemma IfSize(outer: Ctx, before: Block, closed: Chain, cond: Expr, cur: Block, data: seq<string>)
    ensures var w, p := Whole(InIf(outer, before, closed, cond), cur, data), BaseCode(outer, before, data);
            var n := CtxNames(outer, data) + Extra(before);
            ItemCode(If(closed, cond, cur), n, |p|)
            == ChainCode(closed, n, |p|, |w|)
               + LastPart(cond, cur, n + ChainExtra(closed), |p| + ChainSize(closed), |w|)
  {
    hide BaseCode, ChainCode, ChainExtra, ChainSize, Code, CompiledExpr, CtxNames, Extra, LoopNames, Whole;
    var w, p := Whole(InIf(outer, before, closed, cond), cur, data), BaseCode(outer, before, data);
    var n := CtxNames(outer, data) + Extra(before);
    var names1 := n + ChainExtra(closed);
    InIfWhole(outer, before, closed, cond, cur, data);
    var part := Code(cur, names1, |p| + ChainSize(closed) + 1);
    var test := JumpIfFalse(CompiledExpr(cond, names1), |w|);
    Assoc(ChainCode(closed, n, |p|, |w|), [test], part);
  }

  /** What is there while the last branch is being read. */
  lemma InElseWhole(outer: Ctx, before: Block, closed: Chain, cur: Block, data: seq<string>)
    ensures var p := BaseCode(outer, before, data);
            var n := CtxNames(outer, data) + Extra(before);
            var c := ChainCode(closed, n, |p|, 0);
            && |c| == ChainSize(closed)
            && Whole(InElse(outer, before, closed), cur, data) == p + c + Code(cur, n + ChainExtra(closed), |p| + |c|)
            && CtxNames(InElse(outer, before, closed), data) + Extra(cur) == n + (ChainExtra(closed) + Extra(cur))
  {
    hide ChainCode, ChainExtra, ChainSize, Code, CompiledExpr, DataNames, Extra, LoopNames;
    var ctx := InElse(outer, before, closed);
    var p := BaseCode(outer, before, data);
    var n := CtxNames(outer, data) + Extra(before);
    ChainCodeSize(closed, n, |p|, 0);
    var code := CtxCode(ctx, data);
    assert Whole(ctx, cur, data) == code + Code(cur, n + ChainExtra(closed), |code|);
    Assoc(n, ChainExtra(closed), Extra(cur));
  }

  lemma ElseClosed(outer: Ctx, before: Block, closed: Chain, cur: Block, data: seq<string>)
    ensures var ctx := InElse(outer, before, closed);
            var w, p := Whole(ctx, cur, data), BaseCode(outer, before, data);
            && AimAll(w, Patches(closed, |p|), |w|) == Whole(outer, Then(before, IfElse(closed, cur)), data)
            && CtxNames(ctx, data) + Extra(cur) == CtxNames(outer, data) + Extra(Then(before, IfElse(closed, cur)))
  {
    hide AimAll, BaseCode, ChainCode, ChainExtra, ChainSize, Code, CtxNames, Extra, ItemCode, ItemExtra, Patches, Whole;
    var item := IfElse(closed, cur);
    var w, p := Whole(InElse(outer, before, closed), cur, data), BaseCode(outer, before, data);
    var n := CtxNames(outer, data) + Extra(before);
    var part := Code(cur, n + ChainExtra(closed), |p| + ChainSize(closed));
    InElseWhole(outer, before, closed, cur, data);
    ChainAimed(p, closed, n, part, |w|);
    ItemAdded(outer, before, item, data);
    WholeIsBase(outer, before, data);
    ElseShape(closed, cur, n, |p|);
    Assoc(p, ChainCode(closed, n, |p|, |w|), part);
  }

  lemma WholeIsBase(ctx: Ctx, cur: Block, data: seq<string>)
    ensures Whole(ctx, cur, data) == BaseCode(ctx, cur, data)
  {
  }

  lemma ElseShape(closed: Chain, other: Block, names: seq<Name>, at: nat)
    ensures var at1 := at + ChainSize(closed);
            var part := Code(other, names + ChainExtra(closed), at1);
            && ItemCode(IfElse(closed, other), names, at) == ChainCode(closed, names, at, at1 + |part|) + part
            && ItemExtra(IfElse(closed, other)) == ChainExtra(closed) + Extra(other)
  {
    hide ChainCode, Code, ChainExtra, Extra, ChainSize;
  }

  lemma ForOpened(ctx: Ctx, cur: Block, name: string, e: Expr, data: seq<string>)
    ensures var names := CtxNames(ctx, data) + Extra(cur);
            var ctx1 := InFor(ctx, cur, name, e);
            var w := Whole(ctx, cur, data);
            && Whole(ctx1, Nothing, data) == w + [LoopStart(CompiledExpr(e, names), 0, |names|, |names| + 1)]
            && CtxNames(ctx1, data) + Extra(Nothing) == LoopNames(names, name)
            && CtxOpen(ctx1, data) == CtxOpen(ctx, data) + [OpenFor(|w|, HiddenBy(names, name))]
  {
    hide BaseCode, ChainCode, ChainExtra, ChainSize, CompiledExpr, DataNames, Extra, HiddenBy, LoopNames, Patches;
    NothingYet(InFor(ctx, cur, name, e), data);
  }

  /** What is there while the body of a loop is being read. */
  lemma InForWhole(outer: Ctx, before: Block, name: string, list: Expr, cur: Block, data: seq<string>)
    ensures var p := BaseCode(outer, before, data);
            var n := CtxNames(outer, data) + Extra(before);
            Whole(InFor(outer, before, name, list), cur, data)
            == p + [LoopStart(CompiledExpr(list, n), 0, |n|, |n| + 1)] + Code(cur, LoopNames(n, name), |p| + 1)
  {
    hide ChainCode, ChainExtra, Code, CompiledExpr, DataNames, Extra, LoopNames;
    var ctx := InFor(outer, before, name, list);
    var n := CtxNames(outer, data) + Extra(before);
    var code := CtxCode(ctx, data);
    assert Whole(ctx, cur, data) == code + Code(cur, LoopNames(n, name), |code|);
  }

  /** The loop is aimed behind its end. */
  lemma LoopAimed(p: seq<Instr>, e: Compiled, slot: nat, part: seq<Instr>, next: Instr, to: nat)
    ensures var w := p + [LoopStart(e, 0, slot, slot + 1)] + part;
            && |p| < |w| && w[|p|] == LoopStart(e, 0, slot, slot + 1)
            && Aim(w + [next], |p|, to) == p + ([LoopStart(e, to, slot, slot + 1)] + part + [next])
  {
    hide Aim;
    var start := LoopStart(e, 0, slot, slot + 1);
    LoopParts(p, start, part, next);
    AimWithin(p, [], start, part + [next], [], to);
    assert Aimed(start, to) == LoopStart(e, to, slot, slot + 1);
    LoopParts(p, LoopStart(e, to, slot, slot + 1), part, next);
  }

  lemma LoopParts(p: seq<Instr>, start: Instr, part: seq<Instr>, next: Instr)
    ensures p + [start] + part + [next] == p + ([] + [start] + (part + [next])) + []
    ensures p + ([] + [start] + (part + [next])) + [] == p + ([start] + part + [next])
    ensures |p| < |p + [start] + part| && (p + [start] + part)[|p|] == start
  {
  }

  lemma ForClosed(outer: Ctx, before: Block, name: string, list: Expr, cur: Block, data: seq<string>)
    ensures var ctx := InFor(outer, before, name, list);
            var w, p := Whole(ctx, cur, data), BaseCode(outer, before, data);
            var n := CtxNames(outer, data) + Extra(before);
            && |p| < |w| && w[|p|] == LoopStart(CompiledExpr(list, n), 0, |n|, |n| + 1)
            && Aim(w + [LoopNext(|p| + 1, |n|, |n| + 1)], |p|, |w| + 1)
               == Whole(outer, Then(before, For(name, list, cur)), data)
  {
    hide Aim, BaseCode, ChainCode, ChainExtra, ChainSize, Code, CompiledExpr, CtxNames, Extra, ItemExtra, LoopNames;
    var item := For(name, list, cur);
    var w, p := Whole(InFor(outer, before, name, list), cur, data), BaseCode(outer, before, data);
    var n := CtxNames(outer, data) + Extra(before);
    var e := CompiledExpr(list, n);
    var part := Code(cur, LoopNames(n, name), |p| + 1);
    var next := LoopNext(|p| + 1, |n|, |n| + 1);
    InForWhole(outer, before, name, list, cur, data);
    LoopAimed(p, e, |n|, part, next, |w| + 1);
    ItemAdded(outer, before, item, data);
    assert Whole(outer, before, data) == p;
    assert |w| + 1 == |p| + 2 + |part|;
    assert ItemCode(item, n, |p|) == [LoopStart(e, |w| + 1, |n|, |n| + 1)] + part + [next];
  }

  lemma ForNamesBack(outer: Ctx, before: Block, name: string, list: Expr, cur: Block, data: seq<string>)
    ensures var n := CtxNames(outer, data) + Extra(before);
            Restored(CtxNames(InFor(outer, before, name, list), data) + Extra(cur), HiddenBy(n, name))
            == CtxNames(outer, data) + Extra(Then(before, For(name, list, cur)))
  {
    hide ChainExtra, DataNames, Extra, HiddenBy, ItemCode, LoopNames, Restored, Whole;
    var n := CtxNames(outer, data) + Extra(before);
    var own := [Visible(name), Visible(LOOP)];
    assert CtxNames(InFor(outer, before, name, list), data) == LoopNames(n, name);
    NamesRestored(n, name, Extra(cur));
    ItemAdded(outer, before, For(name, list, cur), data);
    assert ItemExtra(For(name, list, cur)) == own + Extra(cur);
    Assoc(n, own, Extra(cur));
  }

  lemma HideUndone(names: seq<Name>, name: string, more: seq<Name>)
    ensures Restored(Hide(names, name) + more, CoveredBy(names, name)) == names + more
  {
    var s := Slot(names, Visible(name));
    if s < |names| {
      var c := [Covered(s, name)];
      assert c[1..] == [];
      assert (Hide(names, name) + more)[s := Visible(name)] == names + more;
    }
  }

  lemma {:induction false} RestoredTwice(names: seq<Name>, a: seq<Covered>, b: seq<Covered>)
    ensures Restored(names, a + b) == Restored(Restored(names, a), b)
    decreases |a|
  {
    if a == [] {
      assert a + b == b;
    } else {
      assert (a + b)[1..] == a[1..] + b;
      var c := a[0];
      RestoredTwice(if c.slot < |names| then names[c.slot := Visible(c.name)] else names, a[1..], b);
    }
  }

  /** Both names come back, in whatever order they are restored. */
  lemma NamesRestored(names: seq<Name>, name: string, more: seq<Name>)
    ensures Restored(LoopNames(names, name) + more, HiddenBy(names, name))
            == names + [Visible(name), Visible(LOOP)] + more
  {
    hide Restored;
    var once := Hide(names, name);
    var twice := Hide(once, LOOP);
    var tail := [Visible(name), Visible(LOOP)] + more;
    var a, b := CoveredBy(names, name), CoveredBy(once, LOOP);
    assert LoopNames(names, name) + more == twice + tail;
    RestoredTwice(twice + tail, a, b);
    RestoredSwap(twice + tail, a, b) by {
      if a != [] && b != [] {
        assert once[a[0].slot] == Hidden(a[0].slot);
      }
    }
    RestoredTwice(twice + tail, b, a);
    HideUndone(once, LOOP, tail);
    HideUndone(names, name, tail);
    assert names + tail == names + [Visible(name), Visible(LOOP)] + more;
  }

  lemma RestoredSwap(names: seq<Name>, a: seq<Covered>, b: seq<Covered>)
    requires |a| <= 1 && |b| <= 1 && (a != [] && b != [] ==> a[0].slot != b[0].slot)
    ensures Restored(names, a + b) == Restored(names, b + a)
  {
    if a == [] {
      assert a + b == b + a;
    } else if b == [] {
      assert a + b == b + a;
    } else {
      var x, y := a[0], b[0];
      assert a + b == [x, y] && b + a == [y, x];
      assert [x, y][1..] == [y] && [y, x][1..] == [x] && [x][1..] == [] && [y][1..] == [];
      var n1 := if x.slot < |names| then names[x.slot := Visible(x.name)] else names;
      var n2 := if y.slot < |names| then names[y.slot := Visible(y.name)] else names;
      assert Restored(n1, [y]) == if y.slot < |n1| then n1[y.slot := Visible(y.name)] else n1;
      assert Restored(n2, [x]) == if x.slot < |n2| then n2[x.slot := Visible(x.name)] else n2;
    }
  }

  // ─── The pass ──────────────────────────────────────────────────────────────

  class Compiler {
    var code: seq<Instr>
    var names: seq<Name>
    var open: seq<Open>

    /** The fields are what has been read. */
    ghost predicate Has(ctx: Ctx, cur: Block, data: seq<string>)
      reads this
    {
      && code == Whole(ctx, cur, data) && names == CtxNames(ctx, data) + Extra(cur)
      && open == CtxOpen(ctx, data)
    }

    constructor ()
      ensures code == [] && names == [] && open == []
    {
      code, names, open := [], [], [];
    }

    /** Compiles the tags of a template whose data have these names. It succeeds exactly for
      the trees that compile, and leaves the code of the tree and a name for every slot. */
    method Compile(tags: seq<Tag>, data: seq<string>) returns (ok: bool)
      requires code == [] && open == []
      modifies this
      ensures ok <==> exists b :: tags == Tags(b) && OkBlock(b, DataNames(data))
      ensures ok ==> exists b :: tags == Tags(b) && OkBlock(b, DataNames(data))
                                 && code == Code(b, DataNames(data), 0) && names == DataNames(data) + Extra(b)
    {
      hide Code, CtxNames, CtxOpen, DataNames, Extra, OkBlock, Tags, Walk1, Whole;
      names := DataNames(data);
      ghost var ctx, cur := Top, Nothing;
      StartsAtTop(data);
      assert Has(ctx, cur, data);
      assert Walk(On(Top, Nothing), tags[..0], data) == On(ctx, cur);
      for k := 0 to |tags|
        invariant Has(ctx, cur, data) && Walk(On(Top, Nothing), tags[..k], data) == On(ctx, cur)
      {
        OneTagMore(tags, k, ctx, cur, data);
        ok := ReadTag(tags[k], ctx, cur, data);
        if !ok {
          NoTree(tags, k + 1, data);
          return false;
        }
        ghost var w := Walk1(ctx, cur, tags[k], data);
        ctx, cur := w.ctx, w.cur;
      }
      assert tags[..|tags|] == tags;
      assert open == CtxOpen(ctx, data);
      OpenIsNotTop(ctx, data);
      if open != [] {
        NotAtTop(tags, ctx, cur, data);
        return false;
      }
      WalkIff(tags, data, cur);
      StartsAtTop(data);
      assert code == Code(cur, DataNames(data), 0) && names == DataNames(data) + Extra(cur) by {
        TopIsWhole(cur, data);
      }
      return true;
    }

    /** One tag, against what is open. */
    method ReadTag(tag: Tag, ghost ctx: Ctx, ghost cur: Block, ghost data: seq<string>) returns (ok: bool)
      requires Has(ctx, cur, data)
      modifies this
      ensures ok <==> Walk1(ctx, cur, tag, data).On?
      ensures ok ==> Has(Walk1(ctx, cur, tag, data).ctx, Walk1(ctx, cur, tag, data).cur, data)
    {
      hide BaseCode, ChainCode, ChainExtra, ChainSize, Code, CompiledExpr, CoveredBy, CtxNames, CtxOpen, Extra,
           Hide, OkExpr, Patches, Whole;
      OpenIsCtx(ctx, data);
      match tag {
        case TText(t) =>
          ItemAdded(ctx, cur, Text(t), data);
          if t != "" {
            code := code + [Paste(t)];
          }
          return true;
        case TWrite(e, raw) =>
          var compiled;
          ok, compiled := CompileExpr(e);
          if ok {
            ItemAdded(ctx, cur, Write(e, raw), data);
            code := code + [Print(compiled, raw)];
          }
        case TIf(e) =>
          var compiled;
          ok, compiled := CompileExpr(e);
          if ok {
            IfOpened(ctx, cur, e, data);
            open := open + [OpenIf([], Test(|code|))];
            code := code + [JumpIfFalse(compiled, 0)];
          }
        case TElif(e) =>
          ok := CloseBranch(ctx, cur, data);
          if ok {
            var compiled;
            ok, compiled := CompileExpr(e);
            if ok {
              ElifOpened(ctx.outer, ctx.before, Branch(ctx.closed, ctx.cond, cur), e, data);
              var top := open[|open| - 1];
              open := open[..|open| - 1] + [OpenIf(top.patches, Test(|code|))];
              code := code + [JumpIfFalse(compiled, 0)];
            }
          }
        case TElse =>
          ok := CloseBranch(ctx, cur, data);
          if ok {
            ElseOpened(ctx.outer, ctx.before, Branch(ctx.closed, ctx.cond, cur), data);
          }
        case TEndIf => ok := EndIf(ctx, cur, data);
        case TFor(name, e) =>
          if name == "" {
            return false;
          }
          var compiled;
          ok, compiled := CompileExpr(e);
          if ok {
            ForOpened(ctx, cur, name, e, data);
            ghost var before := names;
            var slot := |names|;
            var hidden := Cover(name);
            var progress := Cover(LOOP);
            names := names + [Visible(name), Visible(LOOP)];
            assert names == LoopNames(before, name) && hidden + progress == HiddenBy(before, name);
            open := open + [OpenFor(|code|, hidden + progress)];
            code := code + [LoopStart(compiled, 0, slot, slot + 1)];
          }
        case TEndFor => ok := EndFor(ctx, cur, data);
        case TBad => return false;
      }
    }

    /** Ends the branch that is open: a jump to the end of the condition, and the test aimed
      behind it. */
    method CloseBranch(ghost ctx: Ctx, ghost cur: Block, ghost data: seq<string>) returns (ok: bool)
      requires Has(ctx, cur, data)
      modifies this
      ensures ok <==> ctx.InIf?
      ensures ok ==>
                var closed := Branch(ctx.closed, ctx.cond, cur);
                var p := BaseCode(ctx.outer, ctx.before, data);
                var n := CtxNames(ctx.outer, data) + Extra(ctx.before);
                && code == p + ChainCode(closed, n, |p|, 0) && |code| == |p| + ChainSize(closed)
                && names == old(names) == n + ChainExtra(closed)
                && open == CtxOpen(ctx.outer, data) + [OpenIf(Patches(closed, |p|), NoTest)]
      ensures !ok ==> code == old(code) && names == old(names) && open == old(open)
    {
      hide Aim, BaseCode, ChainCode, ChainExtra, ChainSize, CtxNames, CtxOpen, Extra, HiddenBy, Patches, Whole;
      OpenIsCtx(ctx, data);
      if open == [] || !open[|open| - 1].OpenIf? || open[|open| - 1].pending.NoTest? {
        return false;
      }
      BranchClosed(ctx.outer, ctx.before, ctx.closed, ctx.cond, cur, data);
      var top := open[|open| - 1];
      open := open[..|open| - 1] + [OpenIf(top.patches + [|code|], NoTest)];
      code := code + [Jump(0)];
      code := Aim(code, top.pending.at, |code|);
      return true;
    }

    /** Aims what is left to aim at the end of the condition. */
    method EndIf(ghost ctx: Ctx, ghost cur: Block, ghost data: seq<string>) returns (ok: bool)
      requires Has(ctx, cur, data)
      modifies this
      ensures ok <==> Walk1(ctx, cur, TEndIf, data).On?
      ensures ok ==> Has(Walk1(ctx, cur, TEndIf, data).ctx, Walk1(ctx, cur, TEndIf, data).cur, data)
    {
      hide Aim, AimAll, BaseCode, ChainSize, CtxNames, CtxOpen, Extra, HiddenBy, OkExpr, Patches, Whole;
      OpenIsCtx(ctx, data);
      if open == [] || !open[|open| - 1].OpenIf? {
        return false;
      }
      if ctx.InIf? {
        IfClosed(ctx.outer, ctx.before, ctx.closed, ctx.cond, cur, data);
      } else {
        ElseClosed(ctx.outer, ctx.before, ctx.closed, cur, data);
      }
      var top := open[|open| - 1];
      open := open[..|open| - 1];
      ghost var n := |code|;
      if top.pending.Test? {
        code := Aim(code, top.pending.at, |code|);
      }
      ghost var aimed := code;
      AimNone(aimed, top.patches, n);
      for k := 0 to |top.patches|
        invariant |code| == n && code == AimAll(aimed, top.patches[..k], n)
        invariant names == old(names) && open == old(open)[..|old(open)| - 1]
      {
        AimMore(aimed, top.patches, k, n);
        code := Aim(code, top.patches[k], |code|);
      }
      assert top.patches[..|top.patches|] == top.patches;
      return true;
    }

    /** Goes back to the start of the loop, aims it behind the end, and gives back the names. */
    method EndFor(ghost ctx: Ctx, ghost cur: Block, ghost data: seq<string>) returns (ok: bool)
      requires Has(ctx, cur, data)
      modifies this
      ensures ok <==> Walk1(ctx, cur, TEndFor, data).On?
      ensures ok ==> Has(Walk1(ctx, cur, TEndFor, data).ctx, Walk1(ctx, cur, TEndFor, data).cur, data)
    {
      hide Aim, BaseCode, ChainSize, CompiledExpr, CtxNames, CtxOpen, Extra, HiddenBy, OkExpr, Patches,
           Restored, Whole;
      OpenIsCtx(ctx, data);
      if open == [] || !open[|open| - 1].OpenFor? {
        return false;
      }
      ForClosed(ctx.outer, ctx.before, ctx.name, ctx.list, cur, data);
      ForNamesBack(ctx.outer, ctx.before, ctx.name, ctx.list, cur, data);
      var top := open[|open| - 1];
      open := open[..|open| - 1];
      Restore(top.hidden);
      var start := code[top.start];
      code := code + [LoopNext(top.start + 1, start.slot, start.loopSlot)];
      code := Aim(code, top.start, |code|);
      return true;
    }

    method Restore(hidden: seq<Covered>)
      modifies this
      ensures names == Restored(old(names), hidden) && code == old(code) && open == old(open)
    {
      assert hidden[0..] == hidden;
      for k := 0 to |hidden|
        invariant Restored(names, hidden[k..]) == Restored(old(names), hidden) && code == old(code) && open == old(open)
      {
        assert hidden[k..][0] == hidden[k] && hidden[k..][1..] == hidden[k + 1..];
        if hidden[k].slot < |names| {
          names := names[hidden[k].slot := Visible(hidden[k].name)];
        }
      }
    }

    /** Hides the innermost slot with a name, if there is one. */
    method Cover(name: string) returns (hidden: seq<Covered>)
      modifies this
      ensures names == Hide(old(names), name) && hidden == CoveredBy(old(names), name)
      ensures code == old(code) && open == old(open)
    {
      var i := FindSlot(Visible(name));
      if i < |names| {
        hidden := [Covered(i, name)];
        names := names[i := Hidden(i)];
      } else {
        hidden := [];
      }
    }

    method FindSlot(name: Name) returns (s: nat)
      ensures s == Slot(names, name)
    {
      var i := |names|;
      assert names[..i] == names;
      while i > 0
        invariant 0 <= i <= |names|
        invariant Slot(names, name) == if Slot(names[..i], name) < i then Slot(names[..i], name) else |names|
      {
        i := i - 1;
        assert names[..i + 1][..i] == names[..i];
        if names[i] == name {
          return i;
        }
      }
      return |names|;
    }

    /** Declares every name, which have to be distinct, and looks up those that are used. */
    method CompileExpr(e: Expr) returns (ok: bool, compiled: Compiled)
      ensures ok <==> OkExpr(e, names)
      ensures ok ==> compiled == CompiledExpr(e, names)
    {
      if e.Invalid? {
        return false, Compiled(0, []);
      }
      for j := 0 to |names|
        invariant Distinct(names[..j])
      {
        for i := 0 to j
          invariant names[j] !in names[..i]
        {
          assert names[..i + 1] == names[..i] + [names[i]];
          if names[i] == names[j] {
            return false, Compiled(0, []);
          }
        }
        assert names[..j + 1] == names[..j] + [names[j]];
      }
      assert names[..|names|] == names;
      var slots := [];
      for k := 0 to |e.uses|
        invariant |slots| == k && forall i :: 0 <= i < k ==> slots[i] == Slot(names, Visible(e.uses[i])) < |names|
      {
        var s := FindSlot(Visible(e.uses[k]));
        if s == |names| {
          return false, Compiled(0, []);
        }
        slots := slots + [s];
      }
      assert slots == Slots(e.uses, names);
      return true, Compiled(e.id, slots);
    }
  }

  lemma AimNone(code: seq<Instr>, ps: seq<nat>, to: nat)
    ensures AimAll(code, ps[..0], to) == code
  {
  }

  lemma AimMore(code: seq<Instr>, ps: seq<nat>, k: nat, to: nat)
    requires k < |ps|
    ensures AimAll(code, ps[..k + 1], to) == Aim(AimAll(code, ps[..k], to), ps[k], to)
    ensures |AimAll(code, ps[..k + 1], to)| == |code|
  {
    assert ps[..k + 1][..k] == ps[..k];
  }

  lemma Popped<T>(a: seq<T>, x: T)
    ensures |a + [x]| > 0 && (a + [x])[|a + [x]| - 1] == x && (a + [x])[..|a + [x]| - 1] == a
  {
  }

  /** The stack of open blocks shows what is open. */
  lemma OpenIsCtx(ctx: Ctx, data: seq<string>)
    ensures ctx.Top? ==> CtxOpen(ctx, data) == []
    ensures !ctx.Top? ==>
              CtxOpen(ctx, data) != [] && CtxOpen(ctx, data)[..|CtxOpen(ctx, data)| - 1] == CtxOpen(ctx.outer, data)
                          && CtxOpen(ctx, data)[|CtxOpen(ctx, data)| - 1] == TopOf(ctx, data)
  {
    hide BaseCode, ChainSize, CtxNames, Extra, HiddenBy, Patches;
    if !ctx.Top? {
      Popped(CtxOpen(ctx.outer, data), TopOf(ctx, data));
    }
  }

  function TopOf(ctx: Ctx, data: seq<string>): Open
    requires !ctx.Top?
  {
    var p := |BaseCode(ctx.outer, ctx.before, data)|;
    match ctx
    case InIf(_, _, closed, _) => OpenIf(Patches(closed, p), Test(p + ChainSize(closed)))
    case InElse(_, _, closed) => OpenIf(Patches(closed, p), NoTest)
    case InFor(outer, before, name, _) => OpenFor(p, HiddenBy(CtxNames(outer, data) + Extra(before), name))
  }

  lemma OpenIsNotTop(ctx: Ctx, data: seq<string>)
    ensures CtxOpen(ctx, data) == [] <==> ctx == Top
  {
    hide BaseCode, Patches, HiddenBy, ChainSize, CtxNames, Extra;
  }

  lemma StartsAtTop(data: seq<string>)
    ensures Whole(Top, Nothing, data) == [] && CtxNames(Top, data) + Extra(Nothing) == DataNames(data)
            && CtxOpen(Top, data) == []
  {
  }

  lemma TopIsWhole(cur: Block, data: seq<string>)
    ensures Whole(Top, cur, data) == Code(cur, DataNames(data), 0) && CtxNames(Top, data) == DataNames(data)
  {
    hide Code;
    assert [] + Code(cur, DataNames(data), 0) == Code(cur, DataNames(data), 0);
  }

  lemma OneTagMore(tags: seq<Tag>, k: nat, ctx: Ctx, cur: Block, data: seq<string>)
    requires k < |tags| && Walk(On(Top, Nothing), tags[..k], data) == On(ctx, cur)
    ensures Walk(On(Top, Nothing), tags[..k + 1], data) == Walk1(ctx, cur, tags[k], data)
  {
    hide Walk1;
    assert tags[..k + 1][..k] == tags[..k];
  }

  lemma {:induction false} BadStays(tags: seq<Tag>, data: seq<string>)
    ensures Walk(Bad, tags, data) == Bad
  {
    hide Walk1;
    if tags != [] {
      BadStays(tags[..|tags| - 1], data);
    }
  }

  /** When a tag does not fit, no tree has these tags. */
  lemma NoTree(tags: seq<Tag>, k: nat, data: seq<string>)
    requires k <= |tags| && Walk(On(Top, Nothing), tags[..k], data) == Bad
    ensures forall b :: !(tags == Tags(b) && OkBlock(b, DataNames(data)))
  {
    hide *;
    WalkJoin(On(Top, Nothing), tags[..k], tags[k..], data);
    BadStays(tags[k..], data);
    assert tags[..k] + tags[k..] == tags;
    forall b
      ensures !(tags == Tags(b) && OkBlock(b, DataNames(data)))
    {
      WalkIff(tags, data, b);
    }
  }

  lemma NotAtTop(tags: seq<Tag>, ctx: Ctx, cur: Block, data: seq<string>)
    requires Walk(On(Top, Nothing), tags, data) == On(ctx, cur) && ctx != Top
    ensures forall b :: !(tags == Tags(b) && OkBlock(b, DataNames(data)))
  {
    hide *;
    forall b
      ensures !(tags == Tags(b) && OkBlock(b, DataNames(data)))
    {
      WalkIff(tags, data, b);
    }
  }

  /** Only one tree has given tags. */
  lemma OneTree(b: Block, c: Block, data: seq<string>)
    requires Tags(b) == Tags(c) && OkBlock(b, DataNames(data)) && OkBlock(c, DataNames(data))
    ensures b == c
  {
    hide *;
    WalkIff(Tags(b), data, b);
    WalkIff(Tags(b), data, c);
  }

  /** From tags to text: what compiles renders as its only tree. */
  method Page(tags: seq<Tag>, data: seq<string>, values: seq<Value>, o: Oracle, ghost b: Block)
    returns (result: Rendered)
    requires |data| == |values| && tags == Tags(b) && OkBlock(b, DataNames(data)) && Scoped(b, set u | u in data)
    ensures result == RenderBlock(b, DataEnv(data, values), "", o)
  {
    hide *;
    var c := new Compiler();
    var ok := c.Compile(tags, data);
    ghost var d :| tags == Tags(d) && OkBlock(d, DataNames(data))
                   && c.code == Code(d, DataNames(data), 0) && c.names == DataNames(data) + Extra(d);
    OneTree(b, d, data);
    result := Render(c.code, |c.names|, values, o, b, data);
  }
}
