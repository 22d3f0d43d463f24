/** Rendering: the flat code is run with a stack of loops, and writes what the tree says. */
module TemplateRun {
  import opened Template

  /** The list that a loop goes over, and where it is. */
  datatype Frame = Frame(items: seq<Value>, i: nat)

  datatype Machine =
    | Running(pc: nat, vals: seq<Value>, loops: seq<Frame>, out: string)
    | Failed(message: string, out: string)

  function ValuesAt(slots: seq<nat>, vals: seq<Value>): (r: seq<Value>)
    ensures |r| == |slots|
            && forall i :: 0 <= i < |slots| ==> r[i] == if slots[i] < |vals| then vals[slots[i]] else Null
  {
    seq(|slots|, i requires 0 <= i < |slots| => if slots[i] < |vals| then vals[slots[i]] else Null)
  }

  function Eval(e: Compiled, vals: seq<Value>, o: Oracle): Outcome { o.eval(e.id, ValuesAt(e.slots, vals)) }

  function Put(vals: seq<Value>, slot: nat, v: Value): (r: seq<Value>)
    ensures |r| == |vals|
    ensures forall j :: 0 <= j < |vals| ==> r[j] == if j == slot then v else vals[j]
  {
    if slot < |vals| then vals[slot := v] else vals
  }

  /** The item and the progress of a loop go into its two slots. */
  function PutItem(vals: seq<Value>, slot: nat, loopSlot: nat, items: seq<Value>, i: nat): seq<Value>
    requires i < |items|
  {
    Put(Put(vals, slot, items[i]), loopSlot, LoopData(i, |items|))
  }

  function Step(code: seq<Instr>, m: Machine, o: Oracle): Machine
    requires m.Running? && m.pc < |code|
  {
    match code[m.pc]
    case Paste(t) => m.(pc := m.pc + 1, out := m.out + t)
    case Print(e, raw) =>
      (match Eval(e, m.vals, o)
       case Error(s) => Failed(s, m.out)
       case Got(v) => m.(pc := m.pc + 1, out := m.out + Shown(v, raw, o)))
    case JumpIfFalse(e, to) =>
      (match Eval(e, m.vals, o)
       case Error(s) => Failed(s, m.out)
       case Got(v) => m.(pc := if o.truthy(v) then m.pc + 1 else to))
    case Jump(to) => m.(pc := to)
    case LoopStart(e, to, slot, loopSlot) =>
      (match Eval(e, m.vals, o)
       case Error(s) => Failed(s, m.out)
       case Got(v) =>
         if !v.List? then Failed(o.notAList(v), m.out)
         else if v.items == [] then m.(pc := to)
         else
           m.(pc := m.pc + 1, loops := m.loops + [Frame(v.items, 0)],
              vals := PutItem(m.vals, slot, loopSlot, v.items, 0)))
    case LoopNext(to, slot, loopSlot) =>
      if m.loops == [] then Failed("", m.out)
      else
        var last := |m.loops| - 1;
        var f := m.loops[last];
        if f.i + 1 < |f.items| then
          m.(pc := to, loops := m.loops[last := Frame(f.items, f.i + 1)],
             vals := PutItem(m.vals, slot, loopSlot, f.items, f.i + 1))
        else m.(pc := m.pc + 1, loops := m.loops[..last])
  }

  predicate Halted(code: seq<Instr>, m: Machine) { m.Failed? || m.pc >= |code| }

  function Steps(code: seq<Instr>, m: Machine, n: nat, o: Oracle): Machine
    decreases n
  {
    if n == 0 || Halted(code, m) then m else Steps(code, Step(code, m, o), n - 1, o)
  }

  ghost predicate Gets(code: seq<Instr>, m: Machine, m1: Machine, o: Oracle) {
    exists n: nat :: Steps(code, m, n, o) == m1
  }

  lemma {:induction false} StepsJoin(code: seq<Instr>, m: Machine, a: nat, b: nat, o: Oracle)
    ensures Steps(code, Steps(code, m, a, o), b, o) == Steps(code, m, a + b, o)
    decreases a
  {
    hide Step;
    if a > 0 && !Halted(code, m) {
      StepsJoin(code, Step(code, m, o), a - 1, b, o);
    }
  }

  lemma GetsTrans(code: seq<Instr>, m: Machine, m1: Machine, m2: Machine, o: Oracle)
    requires Gets(code, m, m1, o) && Gets(code, m1, m2, o)
    ensures Gets(code, m, m2, o)
  {
    hide Steps;
    var a: nat :| Steps(code, m, a, o) == m1;
    var b: nat :| Steps(code, m1, b, o) == m2;
    StepsJoin(code, m, a, b, o);
  }

  lemma GetsStep(code: seq<Instr>, m: Machine, o: Oracle)
    requires m.Running? && m.pc < |code|
    ensures Gets(code, m, Step(code, m, o), o)
  {
    hide Step;
    assert Steps(code, m, 1, o) == Steps(code, Step(code, m, o), 0, o);
  }

  lemma GetsSelf(code: seq<Instr>, m: Machine, o: Oracle)
    ensures Gets(code, m, m, o)
  {
    assert Steps(code, m, 0, o) == m;
  }

  // ─── Where code is, and what it sees ───────────────────────────────────────

  predicate InPlace(code: seq<Instr>, at: nat, part: seq<Instr>) {
    at + |part| <= |code| && code[at..at + |part|] == part
  }

  lemma InParts(code: seq<Instr>, at: nat, a: seq<Instr>, b: seq<Instr>)
    requires InPlace(code, at, a + b)
    ensures InPlace(code, at, a) && InPlace(code, at + |a|, b)
  {
    assert code[at..at + |a|] == (a + b)[..|a|];
    assert code[at + |a|..at + |a| + |b|] == (a + b)[|a|..];
  }

  lemma InOne(code: seq<Instr>, at: nat, i: Instr)
    requires InPlace(code, at, [i])
    ensures at < |code| && code[at] == i
  {
    assert code[at..at + 1][0] == i;
  }

  /** The names in scope are visible, each in a slot that holds its value. */
  predicate Sees(scope: map<string, nat>, names: seq<Name>, env: map<string, Value>, vals: seq<Value>) {
    && scope.Keys == env.Keys
    && forall u :: u in scope ==>
         scope[u] < |names| && scope[u] < |vals| && names[scope[u]] == Visible(u) && vals[scope[u]] == env[u]
  }

  /** More names, and other values behind those there were, change nothing. */
  lemma SeesMore(scope: map<string, nat>, names: seq<Name>, env: map<string, Value>, vals: seq<Value>, more: seq<Name>,
                 vals1: seq<Value>)
    requires Sees(scope, names, env, vals) && |names| <= |vals| == |vals1| && vals1[..|names|] == vals[..|names|]
    ensures Sees(scope, names + more, env, vals1)
  {
    forall u | u in scope
      ensures vals1[scope[u]] == env[u]
    {
      assert vals1[..|names|][scope[u]] == vals[..|names|][scope[u]];
    }
  }

  /** An expression that compiles sees the innermost value of every name. */
  lemma ExprSees(e: Expr, scope: map<string, nat>, names: seq<Name>, env: map<string, Value>, vals: seq<Value>,
                 o: Oracle)
    requires OkExpr(e, names) && ScopedExpr(e, scope.Keys) && Sees(scope, names, env, vals)
    ensures Eval(CompiledExpr(e, names), vals, o) == EvalIn(e, env, o)
  {
    var a, b := ValuesAt(Slots(e.uses, names), vals), Seen(e.uses, env);
    forall i | 0 <= i < |e.uses|
      ensures a[i] == b[i]
    {
      var u := e.uses[i];
      assert u in scope && names[scope[u]] == Visible(u);
      assert Slot(names, Visible(u)) == scope[u];
    }
    assert a == b;
  }

  lemma HiddenOthers(names: seq<Name>, name: string, slot: nat, u: string)
    requires slot < |names| && names[slot] == Visible(u) && u != name && u != LOOP
    ensures slot < |LoopNames(names, name)| && LoopNames(names, name)[slot] == Visible(u)
  {
    assert Hide(names, name)[slot] == Visible(u);
    assert Hide(Hide(names, name), LOOP)[slot] == Visible(u);
  }

  lemma LoopNamesOwn(names: seq<Name>, name: string)
    ensures |LoopNames(names, name)| == |names| + 2
    ensures LoopNames(names, name)[|names|] == Visible(name) && LoopNames(names, name)[|names| + 1] == Visible(LOOP)
  {
  }

  /** Inside a loop its own names are seen, and the others as before. */
  lemma LoopSees(name: string, scope: map<string, nat>, names: seq<Name>, env: map<string, Value>, vals: seq<Value>,
                 items: seq<Value>, i: nat)
    requires Sees(scope, names, env, vals) && |names| + 2 <= |vals| && i < |items|
    ensures Sees(scope[name := |names|][LOOP := |names| + 1], LoopNames(names, name), InLoop(env, name, items, i),
                 PutItem(vals, |names|, |names| + 1, items, i))
    ensures PutItem(vals, |names|, |names| + 1, items, i)[..|names|] == vals[..|names|]
  {
    hide LoopData, LoopNames, PutItem;
    var scope1, names1, env1 := scope[name := |names|][LOOP := |names| + 1], LoopNames(names, name),
        InLoop(env, name, items, i);
    var vals1 := PutItem(vals, |names|, |names| + 1, items, i);
    LoopNamesOwn(names, name);
    ItemIsPut(scope, names, env, vals, items, i);
    assert scope.Keys == env.Keys;
    forall u | u in scope1
      ensures scope1[u] < |names1| && scope1[u] < |vals1| && names1[scope1[u]] == Visible(u)
              && vals1[scope1[u]] == env1[u]
    {
      if u != name && u != LOOP {
        assert names[scope[u]] == Visible(u) && scope[u] < |names| && vals1[scope[u]] == env[u];
        HiddenOthers(names, name, scope[u], u);
      }
    }
  }

  // ─── Simulation ────────────────────────────────────────────────────────────

  /** From `m` the code comes to `m1`, which is what `r` says: at `pc`, with the output, the
    same loops, and the first `keep` slots as they were; or stopped by the same error. */
  ghost predicate Ends(code: seq<Instr>, m: Machine, r: Rendered, pc: nat, keep: nat, m1: Machine, o: Oracle)
    requires m.Running?
  {
    && Gets(code, m, m1, o)
    && match r {
         case Stopped(s, out) => m1 == Failed(s, out)
         case Fine(out) =>
           && m1.Running? && m1.pc == pc && m1.out == out && m1.loops == m.loops
           && keep <= |m1.vals| == |m.vals| && m1.vals[..keep] == m.vals[..keep]
       }
  }

  /** Ready to run a part with these names in scope. */
  ghost predicate Ready(m: Machine, at: nat, scope: map<string, nat>, names: seq<Name>, more: seq<Name>,
                        env: map<string, Value>) {
    m.Running? && m.pc == at && Sees(scope, names, env, m.vals) && |names| + |more| <= |m.vals|
  }

  /** One part after another. */
  lemma EndsTrans(code: seq<Instr>, m: Machine, m1: Machine, m2: Machine, r1: Rendered, r2: Rendered, pc1: nat,
                  pc2: nat, keep: nat, keep2: nat, o: Oracle)
    requires m.Running? && Ends(code, m, r1, pc1, keep, m1, o) && r1.Fine? && keep <= keep2
    requires m1.Running? && Ends(code, m1, r2, pc2, keep2, m2, o)
    ensures Ends(code, m, r2, pc2, keep, m2, o)
  {
    hide Gets;
    GetsTrans(code, m, m1, m2, o);
    if r2.Fine? {
      assert m2.vals[..keep2][..keep] == m2.vals[..keep] && m1.vals[..keep2][..keep] == m1.vals[..keep];
    }
  }

  lemma ReadyAfter(code: seq<Instr>, m: Machine, m1: Machine, r: Rendered, at: nat, pc: nat, scope: map<string, nat>,
                   names: seq<Name>, done: seq<Name>, more: seq<Name>, env: map<string, Value>, o: Oracle)
    requires Ready(m, at, scope, names, done + more, env) && Ends(code, m, r, pc, |names|, m1, o) && r.Fine?
    ensures Ready(m1, pc, scope, names + done, more, env)
  {
    hide Gets;
    SeesMore(scope, names, env, m.vals, done, m1.vals);
  }

  /** A block runs as the tree renders. */
  lemma {:induction false} BlockRuns(code: seq<Instr>, b: Block, names: seq<Name>, at: nat, scope: map<string, nat>,
                                     env: map<string, Value>, m: Machine, o: Oracle) returns (m1: Machine)
    requires InPlace(code, at, Code(b, names, at)) && OkBlock(b, names) && Scoped(b, scope.Keys)
    requires Ready(m, at, scope, names, Extra(b), env)
    ensures Ends(code, m, RenderBlock(b, env, m.out, o), at + Size(b), |names|, m1, o)
    decreases b, 0
  {
    hide Gets, InPlace, ItemCode, ItemExtra, ItemSize, OkItem, RenderItem, ScopedItem, Sees;
    match b
    case Nothing =>
      m1 := m;
      GetsSelf(code, m, o);
    case Then(before, item) =>
      var part := Code(before, names, at);
      CodeSize(before, names, at);
      InParts(code, at, part, ItemCode(item, names + Extra(before), at + |part|));
      assert Ready(m, at, scope, names, Extra(before), env);
      var mid := BlockRuns(code, before, names, at, scope, env, m, o);
      var r := RenderBlock(before, env, m.out, o);
      match r
      case Stopped(_, _) =>
        m1 := mid;
      case Fine(out) =>
        ReadyAfter(code, m, mid, r, at, at + |part|, scope, names, Extra(before), ItemExtra(item), env, o);
        assert mid.Running? && mid.out == out;
        m1 := ItemRuns(code, item, names + Extra(before), at + |part|, scope, env, mid, o);
        EndsTrans(code, m, mid, m1, r, RenderItem(item, env, out, o), at + |part|, at + Size(b), |names|,
                  |names + Extra(before)|, o);
  }

  lemma {:induction false} ItemRuns(code: seq<Instr>, item: Item, names: seq<Name>, at: nat, scope: map<string, nat>,
                                    env: map<string, Value>, m: Machine, o: Oracle) returns (m1: Machine)
    requires InPlace(code, at, ItemCode(item, names, at)) && OkItem(item, names) && ScopedItem(item, scope.Keys)
    requires Ready(m, at, scope, names, ItemExtra(item), env)
    ensures Ends(code, m, RenderItem(item, env, m.out, o), at + ItemSize(item), |names|, m1, o)
    decreases item, 1
  {
    hide ChainExtra, ChainSize, Ends, Extra, InPlace, ItemCode, LoopNames, OkBlock, OkChain, OkExpr, Ready,
         RenderItem, Scoped, ScopedChain, ScopedExpr, Size;
    match item
    case Text(t) => m1 := TextRuns(code, t, names, at, scope, env, m, o);
    case Write(e, raw) => m1 := WriteRuns(code, e, raw, names, at, scope, env, m, o);
    case If(closed, cond, body) => m1 := IfRuns(code, closed, cond, body, names, at, scope, env, m, o);
    case IfElse(closed, other) => m1 := IfElseRuns(code, closed, other, names, at, scope, env, m, o);
    case For(name, list, body) => m1 := ForRuns(code, name, list, body, names, at, scope, env, m, o);
  }

  lemma TextRuns(code: seq<Instr>, t: string, names: seq<Name>, at: nat, scope: map<string, nat>,
                 env: map<string, Value>, m: Machine, o: Oracle) returns (m1: Machine)
    requires InPlace(code, at, ItemCode(Text(t), names, at))
    requires Ready(m, at, scope, names, [], env)
    ensures Ends(code, m, RenderItem(Text(t), env, m.out, o), at + ItemSize(Text(t)), |names|, m1, o)
  {
    hide ChainCode, ChainExtra, ChainSize, Code, CompiledExpr, Eval, EvalIn, Gets, InPlace, LoopNames, PutItem,
         RenderBlock, RenderChain, RenderLoop, Sees, Shown, Size;
    if t == "" {
      assert m.out + t == m.out;
      m1 := m;
      GetsSelf(code, m, o);
    } else {
      InOne(code, at, Paste(t));
      m1 := Step(code, m, o);
      GetsStep(code, m, o);
    }
  }

  lemma WriteRuns(code: seq<Instr>, e: Expr, raw: bool, names: seq<Name>, at: nat, scope: map<string, nat>,
                  env: map<string, Value>, m: Machine, o: Oracle) returns (m1: Machine)
    requires InPlace(code, at, ItemCode(Write(e, raw), names, at)) && OkExpr(e, names) && ScopedExpr(e, scope.Keys)
    requires Ready(m, at, scope, names, [], env)
    ensures Ends(code, m, RenderItem(Write(e, raw), env, m.out, o), at + 1, |names|, m1, o)
  {
    hide ChainCode, ChainExtra, ChainSize, Code, CompiledExpr, Eval, EvalIn, Gets, InPlace, LoopNames, OkExpr,
         PutItem, RenderBlock, RenderChain, RenderLoop, ScopedExpr, Sees, Shown;
    InOne(code, at, Print(CompiledExpr(e, names), raw));
    ExprSees(e, scope, names, env, m.vals, o);
    m1 := Step(code, m, o);
    GetsStep(code, m, o);
  }

  /** A condition is tried: on goes the next instruction, or the jump. */
  lemma CondRuns(code: seq<Instr>, cond: Expr, to: nat, names: seq<Name>, at: nat, scope: map<string, nat>,
                 env: map<string, Value>, more: seq<Name>, m: Machine, o: Oracle) returns (m1: Machine)
    requires InPlace(code, at, [JumpIfFalse(CompiledExpr(cond, names), to)]) && OkExpr(cond, names)
             && ScopedExpr(cond, scope.Keys)
    requires Ready(m, at, scope, names, more, env)
    ensures match EvalIn(cond, env, o)
            case Error(s) => Ends(code, m, Stopped(s, m.out), 0, |names|, m1, o)
            case Got(v) => Ends(code, m, Fine(m.out), if o.truthy(v) then at + 1 else to, |names|, m1, o)
  {
    hide CompiledExpr, Eval, EvalIn, Gets, InPlace, OkExpr, PutItem, ScopedExpr, Sees, Shown;
    InOne(code, at, JumpIfFalse(CompiledExpr(cond, names), to));
    ExprSees(cond, scope, names, env, m.vals, o);
    m1 := Step(code, m, o);
    GetsStep(code, m, o);
  }

  ghost predicate ChainEnds(code: seq<Instr>, m: Machine, t: Tried, next: nat, end: nat, keep: nat, m1: Machine,
                            o: Oracle)
    requires m.Running?
  {
    match t
    case Took(r) => Ends(code, m, r, end, keep, m1, o)
    case TookNone => Ends(code, m, Fine(m.out), next, keep, m1, o)
  }

  /** The branches are tried in order; the one that is taken jumps to the end. */
  lemma {:induction false} ChainRuns(code: seq<Instr>, ch: Chain, names: seq<Name>, at: nat, end: nat,
                                     scope: map<string, nat>, env: map<string, Value>, m: Machine,
                                     o: Oracle) returns (m1: Machine)
    requires InPlace(code, at, ChainCode(ch, names, at, end)) && OkChain(ch, names) && ScopedChain(ch, scope.Keys)
    requires Ready(m, at, scope, names, ChainExtra(ch), env)
    ensures ChainEnds(code, m, RenderChain(ch, env, m.out, o), at + ChainSize(ch), end, |names|, m1, o)
    decreases ch, 0
  {
    hide Code, CompiledExpr, EvalIn, Extra, Gets, InPlace, OkBlock, OkExpr, RenderBlock, Scoped, ScopedExpr, Sees,
         Size;
    match ch
    case NoBranch =>
      m1 := m;
      GetsSelf(code, m, o);
    case Branch(before, cond, body) =>
      var names1 := names + ChainExtra(before);
      var at1 := at + ChainSize(before);
      var part := Code(body, names1, at1 + 1);
      var test := [JumpIfFalse(CompiledExpr(cond, names1), at1 + 2 + |part|)];
      ChainCodeSize(before, names, at, end);
      CodeSize(body, names1, at1 + 1);
      InParts(code, at, ChainCode(before, names, at, end) + test + part, [Jump(end)]);
      InParts(code, at, ChainCode(before, names, at, end) + test, part);
      InParts(code, at, ChainCode(before, names, at, end), test);
      assert Ready(m, at, scope, names, ChainExtra(before), env);
      var mid := ChainRuns(code, before, names, at, end, scope, env, m, o);
      var t := RenderChain(before, env, m.out, o);
      if t.Took? {
        m1 := mid;
      } else {
        ReadyAfter(code, m, mid, Fine(m.out), at, at1, scope, names, ChainExtra(before), Extra(body), env, o);
        assert mid.Running? && mid.out == m.out;
        m1 := BranchRuns(code, cond, body, names1, at1, end, scope, env, mid, o);
        var r := RenderBranch(cond, body, env, m.out, o);
        if r.Took? {
          EndsTrans(code, m, mid, m1, Fine(m.out), r.r, at1, end, |names|, |names1|, o);
        } else {
          EndsTrans(code, m, mid, m1, Fine(m.out), Fine(m.out), at1, at + ChainSize(ch), |names|, |names1|, o);
        }
      }
  }

  function RenderBranch(cond: Expr, body: Block, env: map<string, Value>, out: string, o: Oracle): Tried {
    match EvalIn(cond, env, o)
    case Error(m) => Took(Stopped(m, out))
    case Got(v) => if o.truthy(v) then Took(RenderBlock(body, env, out, o)) else TookNone
  }

  /** One branch, with the jump behind it. */
  lemma {:induction false} BranchRuns(code: seq<Instr>, cond: Expr, body: Block, names: seq<Name>, at: nat, end: nat,
                                      scope: map<string, nat>, env: map<string, Value>, m: Machine,
                                      o: Oracle) returns (m1: Machine)
    requires InPlace(code, at, [JumpIfFalse(CompiledExpr(cond, names), at + 2 + Size(body))])
    requires InPlace(code, at + 1, Code(body, names, at + 1)) && InPlace(code, at + 1 + Size(body), [Jump(end)])
    requires OkExpr(cond, names) && ScopedExpr(cond, scope.Keys) && OkBlock(body, names) && Scoped(body, scope.Keys)
    requires Ready(m, at, scope, names, Extra(body), env)
    ensures ChainEnds(code, m, RenderBranch(cond, body, env, m.out, o), at + 2 + Size(body), end, |names|, m1, o)
    decreases body, 1
  {
    hide Code, CompiledExpr, EvalIn, Extra, Gets, InPlace, OkBlock, OkExpr, RenderBlock, Scoped, ScopedExpr, Sees,
         Size;
    assert m.Running?;
    var tested := CondRuns(code, cond, at + 2 + Size(body), names, at, scope, env, Extra(body), m, o);
    match EvalIn(cond, env, o)
    case Error(s) =>
      m1 := tested;
    case Got(v) =>
      if !o.truthy(v) {
        m1 := tested;
      } else {
        assert names + [] == names && [] + Extra(body) == Extra(body);
        ReadyAfter(code, m, tested, Fine(m.out), at, at + 1, scope, names, [], Extra(body), env, o);
        assert tested.Running? && tested.out == m.out;
        var done := BlockRuns(code, body, names, at + 1, scope, env, tested, o);
        var r := RenderBlock(body, env, m.out, o);
        EndsTrans(code, m, tested, done, Fine(m.out), r, at + 1, at + 1 + Size(body), |names|, |names|, o);
        if r.Stopped? {
          m1 := done;
        } else {
          m1 := JumpRuns(code, m, done, r, at + 1 + Size(body), end, |names|, o);
        }
      }
  }

  lemma JumpRuns(code: seq<Instr>, m: Machine, m1: Machine, r: Rendered, at: nat, to: nat, keep: nat, o: Oracle)
    returns (m2: Machine)
    requires m.Running? && Ends(code, m, r, at, keep, m1, o) && r.Fine? && InPlace(code, at, [Jump(to)])
    ensures Ends(code, m, r, to, keep, m2, o)
  {
    hide Eval, Gets, InPlace, PutItem, Shown;
    InOne(code, at, Jump(to));
    m2 := Step(code, m1, o);
    GetsStep(code, m1, o);
    GetsTrans(code, m, m1, m2, o);
  }

  lemma {:induction false} IfRuns(code: seq<Instr>, closed: Chain, cond: Expr, body: Block, names: seq<Name>, at: nat,
                                  scope: map<string, nat>, env: map<string, Value>, m: Machine,
                                  o: Oracle) returns (m1: Machine)
    requires InPlace(code, at, ItemCode(If(closed, cond, body), names, at)) && OkItem(If(closed, cond, body), names)
    requires ScopedItem(If(closed, cond, body), scope.Keys)
    requires Ready(m, at, scope, names, ItemExtra(If(closed, cond, body)), env)
    ensures Ends(code, m, RenderItem(If(closed, cond, body), env, m.out, o), at + ItemSize(If(closed, cond, body)),
                 |names|, m1, o)
    decreases If(closed, cond, body), 0
  {
    hide ChainCode, ChainExtra, ChainSize, Code, CompiledExpr, EvalIn, Extra, Gets, InPlace, LoopNames, OkBlock,
         OkChain, OkExpr, RenderBlock, RenderChain, RenderLoop, Scoped, ScopedChain, ScopedExpr, Sees, Shown,
         Size;
    var names1 := names + ChainExtra(closed);
    var at1 := at + ChainSize(closed);
    var part := Code(body, names1, at1 + 1);
    var end := at1 + 1 + |part|;
    var test := [JumpIfFalse(CompiledExpr(cond, names1), end)];
    ChainCodeSize(closed, names, at, end);
    CodeSize(body, names1, at1 + 1);
    InParts(code, at, ChainCode(closed, names, at, end) + test, part);
    InParts(code, at, ChainCode(closed, names, at, end), test);
    assert Ready(m, at, scope, names, ChainExtra(closed), env);
    var mid := ChainRuns(code, closed, names, at, end, scope, env, m, o);
    if RenderChain(closed, env, m.out, o).Took? {
      m1 := mid;
    } else {
      ReadyAfter(code, m, mid, Fine(m.out), at, at1, scope, names, ChainExtra(closed), Extra(body), env, o);
      assert mid.Running? && mid.out == m.out;
      m1 := LastRuns(code, cond, body, names1, at1, scope, env, mid, o);
      EndsTrans(code, m, mid, m1, Fine(m.out), RenderLast(cond, body, env, m.out, o), at1, end, |names|, |names1|, o);
    }
  }

  function RenderLast(cond: Expr, body: Block, env: map<string, Value>, out: string, o: Oracle): Rendered {
    match EvalIn(cond, env, o)
    case Error(s) => Stopped(s, out)
    case Got(v) => if o.truthy(v) then RenderBlock(body, env, out, o) else Fine(out)
  }

  /** The last branch, when there is no `else`. */
  lemma {:induction false} LastRuns(code: seq<Instr>, cond: Expr, body: Block, names: seq<Name>, at: nat,
                                    scope: map<string, nat>, env: map<string, Value>, m: Machine,
                                    o: Oracle) returns (m1: Machine)
    requires InPlace(code, at, [JumpIfFalse(CompiledExpr(cond, names), at + 1 + Size(body))])
    requires InPlace(code, at + 1, Code(body, names, at + 1))
    requires OkExpr(cond, names) && ScopedExpr(cond, scope.Keys) && OkBlock(body, names) && Scoped(body, scope.Keys)
    requires Ready(m, at, scope, names, Extra(body), env)
    ensures Ends(code, m, RenderLast(cond, body, env, m.out, o), at + 1 + Size(body), |names|, m1, o)
    decreases body, 1
  {
    hide Code, CompiledExpr, EvalIn, Extra, Gets, InPlace, OkBlock, OkExpr, RenderBlock, Scoped, ScopedExpr, Sees,
         Size;
    assert m.Running?;
    var tested := CondRuns(code, cond, at + 1 + Size(body), names, at, scope, env, Extra(body), m, o);
    match EvalIn(cond, env, o)
    case Error(s) =>
      m1 := tested;
    case Got(v) =>
      if !o.truthy(v) {
        m1 := tested;
      } else {
        assert names + [] == names && [] + Extra(body) == Extra(body);
        ReadyAfter(code, m, tested, Fine(m.out), at, at + 1, scope, names, [], Extra(body), env, o);
        assert tested.Running? && tested.out == m.out;
        m1 := BlockRuns(code, body, names, at + 1, scope, env, tested, o);
        EndsTrans(code, m, tested, m1, Fine(m.out), RenderBlock(body, env, m.out, o), at + 1, at + 1 + Size(body),
                  |names|, |names|, o);
      }
  }

  lemma {:induction false} IfElseRuns(code: seq<Instr>, closed: Chain, other: Block, names: seq<Name>, at: nat,
                                      scope: map<string, nat>, env: map<string, Value>, m: Machine,
                                      o: Oracle) returns (m1: Machine)
    requires InPlace(code, at, ItemCode(IfElse(closed, other), names, at)) && OkItem(IfElse(closed, other), names)
    requires ScopedItem(IfElse(closed, other), scope.Keys)
    requires Ready(m, at, scope, names, ItemExtra(IfElse(closed, other)), env)
    ensures Ends(code, m, RenderItem(IfElse(closed, other), env, m.out, o), at + ItemSize(IfElse(closed, other)),
                 |names|, m1, o)
    decreases IfElse(closed, other), 0
  {
    hide ChainCode, ChainExtra, ChainSize, Code, CompiledExpr, EvalIn, Extra, Gets, InPlace, LoopNames, OkBlock,
         OkChain, OkExpr, RenderBlock, RenderChain, RenderLoop, Scoped, ScopedChain, ScopedExpr, Sees, Shown,
         Size;
    var names1 := names + ChainExtra(closed);
    var at1 := at + ChainSize(closed);
    var part := Code(other, names1, at1);
    var end := at1 + |part|;
    ChainCodeSize(closed, names, at, end);
    CodeSize(other, names1, at1);
    InParts(code, at, ChainCode(closed, names, at, end), part);
    assert Ready(m, at, scope, names, ChainExtra(closed), env);
    var mid := ChainRuns(code, closed, names, at, end, scope, env, m, o);
    if RenderChain(closed, env, m.out, o).Took? {
      m1 := mid;
    } else {
      ReadyAfter(code, m, mid, Fine(m.out), at, at1, scope, names, ChainExtra(closed), Extra(other), env, o);
      assert mid.Running? && mid.out == m.out;
      m1 := BlockRuns(code, other, names1, at1, scope, env, mid, o);
      EndsTrans(code, m, mid, m1, Fine(m.out), RenderBlock(other, env, m.out, o), at1, end, |names|, |names1|, o);
    }
  }

  // ─── Loops ─────────────────────────────────────────────────────────────────

  /** Ready to run the body for item `i`: the loop is on top of the stack, its two slots hold
    the item and the progress, and the names outside are as they were. */
  ghost predicate AtItem(m: Machine, at: nat, loops: seq<Frame>, items: seq<Value>, i: nat, scope: map<string, nat>,
                         names: seq<Name>, more: nat, env: map<string, Value>)
  {
    && m.Running? && m.pc == at && i < |items| && m.loops == loops + [Frame(items, i)]
    && |names| + 2 + more <= |m.vals| && Sees(scope, names, env, m.vals)
    && m.vals[|names|] == items[i] && m.vals[|names| + 1] == LoopData(i, |items|)
  }

  lemma {:induction false} ForRuns(code: seq<Instr>, name: string, list: Expr, body: Block, names: seq<Name>, at: nat,
                                   scope: map<string, nat>, env: map<string, Value>, m: Machine,
                                   o: Oracle) returns (m1: Machine)
    requires InPlace(code, at, ItemCode(For(name, list, body), names, at)) && OkItem(For(name, list, body), names)
    requires ScopedItem(For(name, list, body), scope.Keys)
    requires Ready(m, at, scope, names, ItemExtra(For(name, list, body)), env)
    ensures Ends(code, m, RenderItem(For(name, list, body), env, m.out, o), at + ItemSize(For(name, list, body)),
                 |names|, m1, o)
    decreases For(name, list, body), 0
  {
    hide AtItem, ChainCode, ChainExtra, ChainSize, Code, CompiledExpr, Ends, EvalIn, Extra, Gets, InLoop, InPlace,
         LoopEnds, LoopNames, OkBlock, OkChain, OkExpr, RenderBlock, RenderChain, Scoped, ScopedChain, ScopedExpr,
         Sees, Shown, Size;
    var n := |names|;
    var part := Code(body, LoopNames(names, name), at + 1);
    var end := at + 2 + |part|;
    var start := LoopStart(CompiledExpr(list, names), end, n, n + 1);
    CodeSize(body, LoopNames(names, name), at + 1);
    InParts(code, at, [start] + part, [LoopNext(at + 1, n, n + 1)]);
    InParts(code, at, [start], part);
    assert m.Running? && m.pc == at && Sees(scope, names, env, m.vals) && |names| + 2 + |Extra(body)| <= |m.vals|;
    var next := StartRuns(code, list, end, names, at, scope, env, |Extra(body)|, m, o);
    match EvalIn(list, env, o)
    case Error(s) => m1 := next;
    case Got(v) =>
      if !v.List? || v.items == [] {
        m1 := next;
      } else {
        m1 := LoopRuns(code, name, body, v.items, 0, names, at, scope, env, m.loops, next, o);
        assert Ends(code, m, RenderLoop(body, name, v.items, 0, env, m.out, o), end, n, m1, o) by {
          LoopDone(code, m, next, m1, RenderLoop(body, name, v.items, 0, env, m.out, o), end, n, o);
        }
      }
  }

  /** The loop has been entered. */
  ghost predicate Entered(code: seq<Instr>, m: Machine, next: Machine, at: nat, items: seq<Value>,
                          scope: map<string, nat>, names: seq<Name>, more: nat, env: map<string, Value>, o: Oracle)
  {
    && m.Running? && AtItem(next, at + 1, m.loops, items, 0, scope, names, more, env)
    && Gets(code, m, next, o) && next.out == m.out
    && |names| <= |next.vals| == |m.vals| && next.vals[..|names|] == m.vals[..|names|]
  }

  lemma StartRuns(code: seq<Instr>, list: Expr, end: nat, names: seq<Name>, at: nat, scope: map<string, nat>,
                  env: map<string, Value>, more: nat, m: Machine, o: Oracle) returns (next: Machine)
    requires InPlace(code, at, [LoopStart(CompiledExpr(list, names), end, |names|, |names| + 1)])
    requires OkExpr(list, names) && ScopedExpr(list, scope.Keys)
    requires m.Running? && m.pc == at && Sees(scope, names, env, m.vals) && |names| + 2 + more <= |m.vals|
    ensures match EvalIn(list, env, o)
            case Error(s) => Ends(code, m, Stopped(s, m.out), end, |names|, next, o)
            case Got(v) =>
              if !v.List? then Ends(code, m, Stopped(o.notAList(v), m.out), end, |names|, next, o)
              else if v.items == [] then Ends(code, m, Fine(m.out), end, |names|, next, o)
              else Entered(code, m, next, at, v.items, scope, names, more, env, o)
  {
    hide CompiledExpr, Eval, EvalIn, Gets, InPlace, LoopData, OkExpr, PutItem, ScopedExpr, Sees, Shown;
    InOne(code, at, LoopStart(CompiledExpr(list, names), end, |names|, |names| + 1));
    ExprSees(list, scope, names, env, m.vals, o);
    next := Step(code, m, o);
    GetsStep(code, m, o);
    match EvalIn(list, env, o)
    case Error(s) =>
    case Got(v) =>
      if v.List? && v.items != [] {
        ItemIsPut(scope, names, env, m.vals, v.items, 0);
      }
  }

  lemma ItemIsPut(scope: map<string, nat>, names: seq<Name>, env: map<string, Value>, vals: seq<Value>,
                  items: seq<Value>, i: nat)
    requires Sees(scope, names, env, vals) && |names| + 2 <= |vals| && i < |items|
    ensures var vals1 := PutItem(vals, |names|, |names| + 1, items, i);
            && |vals1| == |vals| && Sees(scope, names, env, vals1) && vals1[..|names|] == vals[..|names|]
            && vals1[|names|] == items[i] && vals1[|names| + 1] == LoopData(i, |items|)
  {
    hide LoopData;
    var vals1 := PutItem(vals, |names|, |names| + 1, items, i);
    assert names + [] == names;
    SeesMore(scope, names, env, vals, [], vals1);
  }

  /** A loop that has been entered ends as its rendering says, with its frame gone. */
  ghost predicate LoopEnds(code: seq<Instr>, m: Machine, r: Rendered, pc: nat, keep: nat, loops: seq<Frame>,
                           m1: Machine, o: Oracle)
    requires m.Running?
  {
    && Gets(code, m, m1, o)
    && match r {
         case Stopped(s, out) => m1 == Failed(s, out)
         case Fine(out) =>
           && m1.Running? && m1.pc == pc && m1.out == out && m1.loops == loops
           && keep <= |m1.vals| == |m.vals| && m1.vals[..keep] == m.vals[..keep]
       }
  }

  lemma LoopDone(code: seq<Instr>, m: Machine, next: Machine, m1: Machine, r: Rendered, end: nat, keep: nat, o: Oracle)
    requires m.Running? && next.Running? && Gets(code, m, next, o)
    requires keep <= |next.vals| == |m.vals| && next.vals[..keep] == m.vals[..keep]
    requires LoopEnds(code, next, r, end, keep, m.loops, m1, o)
    ensures Ends(code, m, r, end, keep, m1, o)
  {
    hide Gets;
    GetsTrans(code, m, next, m1, o);
  }

  lemma {:induction false} LoopRuns(code: seq<Instr>, name: string, body: Block, items: seq<Value>, i: nat,
                                    names: seq<Name>, at: nat, scope: map<string, nat>, env: map<string, Value>,
                                    loops: seq<Frame>, m: Machine, o: Oracle)
    returns (m1: Machine)
    requires InPlace(code, at + 1, Code(body, LoopNames(names, name), at + 1))
    requires InPlace(code, at + 1 + Size(body), [LoopNext(at + 1, |names|, |names| + 1)])
    requires OkBlock(body, LoopNames(names, name)) && Scoped(body, scope.Keys + {name, LOOP})
    requires AtItem(m, at + 1, loops, items, i, scope, names, |Extra(body)|, env)
    ensures m.Running?
    ensures LoopEnds(code, m, RenderLoop(body, name, items, i, env, m.out, o), at + 2 + Size(body), |names|,
                     loops, m1, o)
    decreases body, 3, |items| - i
  {
    hide Code, Extra, Gets, InLoop, InPlace, LoopData, LoopNames, OkBlock, Ready, RenderBlock, Scoped, Sees, Size;
    assert m.Running? && m.pc == at + 1 && i < |items|;
    var scope1, names1 := scope[name := |names|][LOOP := |names| + 1], LoopNames(names, name);
    var env1 := InLoop(env, name, items, i);
    assert scope1.Keys == scope.Keys + {name, LOOP};
    BodyReady(name, names, at, scope, env, loops, items, i, m, body);
    var done := BlockRuns(code, body, names1, at + 1, scope1, env1, m, o);
    var r := RenderBlock(body, env1, m.out, o);
    RenderLoopStep(body, name, items, i, env, m.out, o);
    if r.Stopped? {
      m1 := done;
    } else {
      assert done.Running? && done.out == r.out;
      var next := NextRuns(code, body, name, items, i, names, at, scope, env, loops, m, done, r, o);
      if i + 1 < |items| {
        m1 := LoopRuns(code, name, body, items, i + 1, names, at, scope, env, loops, next, o);
        LoopOn(code, m, next, m1, RenderLoop(body, name, items, i + 1, env, r.out, o), at + 2 + Size(body), |names|,
               loops, o);
      } else {
        m1 := next;
      }
    }
  }

  lemma RenderLoopStep(body: Block, name: string, items: seq<Value>, i: nat, env: map<string, Value>, out: string,
                       o: Oracle)
    requires i < |items|
    ensures RenderLoop(body, name, items, i, env, out, o)
            == match RenderBlock(body, InLoop(env, name, items, i), out, o)
               case Stopped(m, out1) => Stopped(m, out1)
               case Fine(out1) => RenderLoop(body, name, items, i + 1, env, out1, o)
  {
    hide RenderBlock, InLoop;
  }

  lemma LoopOn(code: seq<Instr>, m: Machine, next: Machine, m1: Machine, r: Rendered, pc: nat, keep: nat,
               loops: seq<Frame>, o: Oracle)
    requires m.Running? && next.Running? && Gets(code, m, next, o)
    requires keep <= |next.vals| == |m.vals| && next.vals[..keep] == m.vals[..keep]
    requires LoopEnds(code, next, r, pc, keep, loops, m1, o)
    ensures LoopEnds(code, m, r, pc, keep, loops, m1, o)
  {
    hide Gets;
    GetsTrans(code, m, next, m1, o);
  }

  lemma BodyReady(name: string, names: seq<Name>, at: nat, scope: map<string, nat>, env: map<string, Value>,
                  loops: seq<Frame>, items: seq<Value>, i: nat, m: Machine, body: Block)
    requires AtItem(m, at + 1, loops, items, i, scope, names, |Extra(body)|, env)
    ensures Ready(m, at + 1, scope[name := |names|][LOOP := |names| + 1], LoopNames(names, name), Extra(body),
                  InLoop(env, name, items, i))
  {
    hide Extra, LoopData, Sees, InLoop;
    LoopSees(name, scope, names, env, m.vals, items, i);
    assert PutItem(m.vals, |names|, |names| + 1, items, i) == m.vals;
  }

  /** The end of the body: on to the next item, or out of the loop. */
  lemma NextRuns(code: seq<Instr>, body: Block, name: string, items: seq<Value>, i: nat, names: seq<Name>, at: nat,
                 scope: map<string, nat>, env: map<string, Value>, loops: seq<Frame>, m: Machine, done: Machine,
                 r: Rendered, o: Oracle) returns (next: Machine)
    requires InPlace(code, at + 1 + Size(body), [LoopNext(at + 1, |names|, |names| + 1)])
    requires AtItem(m, at + 1, loops, items, i, scope, names, |Extra(body)|, env)
    requires Ends(code, m, r, at + 1 + Size(body), |LoopNames(names, name)|, done, o) && r.Fine?
    ensures next.Running? && Gets(code, m, next, o) && next.out == r.out
    ensures |names| <= |next.vals| == |m.vals| && next.vals[..|names|] == m.vals[..|names|]
    ensures i + 1 < |items| ==> AtItem(next, at + 1, loops, items, i + 1, scope, names, |Extra(body)|, env)
    ensures i + 1 == |items| ==> LoopEnds(code, m, r, at + 2 + Size(body), |names|, loops, next, o)
  {
    hide Eval, Extra, Gets, InPlace, LoopData, LoopNames, PutItem, Sees, Shown, Size;
    InOne(code, at + 1 + Size(body), LoopNext(at + 1, |names|, |names| + 1));
    next := Step(code, done, o);
    GetsStep(code, done, o);
    GetsTrans(code, m, done, next, o);
    LoopNamesOwn(names, name);
    var keep := |names| + 2;
    assert done.vals[..keep][..|names|] == done.vals[..|names|] && m.vals[..keep][..|names|] == m.vals[..|names|];
    assert names + [] == names;
    SeesMore(scope, names, env, m.vals, [], done.vals);
    assert (loops + [Frame(items, i)])[..|loops|] == loops;
    if i + 1 < |items| {
      ItemIsPut(scope, names, env, done.vals, items, i + 1);
      assert (loops + [Frame(items, i)])[|loops| := Frame(items, i + 1)] == loops + [Frame(items, i + 1)];
    }
  }

  // ─── Whole templates ───────────────────────────────────────────────────────

  function DataNames(data: seq<string>): (r: seq<Name>)
    ensures |r| == |data| && forall i :: 0 <= i < |data| ==> r[i] == Visible(data[i])
  {
    seq(|data|, i requires 0 <= i < |data| => Visible(data[i]))
  }

  function DataEnv(data: seq<string>, values: seq<Value>): map<string, Value>
    requires |data| == |values|
  {
    if data == [] then map[]
    else
      var last := |data| - 1;
      DataEnv(data[..last], values[..last])[data[last] := values[last]]
  }

  function DataScope(data: seq<string>): map<string, nat> {
    if data == [] then map[] else DataScope(data[..|data| - 1])[data[|data| - 1] := |data| - 1]
  }

  lemma {:induction false} DataIsSeen(data: seq<string>, values: seq<Value>)
    requires |data| == |values|
    ensures Sees(DataScope(data), DataNames(data), DataEnv(data, values), values)
    ensures DataScope(data).Keys == set u | u in data
  {
    if data != [] {
      var last := |data| - 1;
      DataIsSeen(data[..last], values[..last]);
      assert data == data[..last] + [data[last]];
      var before := DataScope(data[..last]);
      forall u | u in DataScope(data)
        ensures DataScope(data)[u] <= last && values[DataScope(data)[u]] == DataEnv(data, values)[u]
                && data[DataScope(data)[u]] == u
      {
        if u != data[last] {
          assert DataNames(data[..last])[before[u]] == Visible(u);
          assert values[..last][before[u]] == values[before[u]];
        }
      }
    }
  }

  /** The data fill the first slots; those of the loops are still empty. */
  function Start(values: seq<Value>, slots: nat): Machine {
    Running(0, values + if slots > |values| then seq(slots - |values|, _ => Null) else [], [], "")
  }

  /** Whatever compiles, and uses its names where they belong, renders as its tree. */
  lemma TemplateRuns(b: Block, data: seq<string>, values: seq<Value>, o: Oracle) returns (m1: Machine)
    requires |data| == |values| && OkBlock(b, DataNames(data)) && Scoped(b, set u | u in data)
    ensures Ends(Code(b, DataNames(data), 0), Start(values, |data| + |Extra(b)|),
                 RenderBlock(b, DataEnv(data, values), "", o),
                 Size(b), |data|, m1, o)
  {
    hide Code, DataEnv, DataNames, DataScope, Ends, Extra, OkBlock, RenderBlock, Scoped, Sees, Size;
    var names, m := DataNames(data), Start(values, |data| + |Extra(b)|);
    var code := Code(b, names, 0);
    DataIsSeen(data, values);
    assert Ready(m, 0, DataScope(data), names, Extra(b), DataEnv(data, values)) by {
      assert names + [] == names;
      assert m.vals[..|data|] == values;
      SeesLonger(DataScope(data), names, DataEnv(data, values), values, m.vals);
    }
    assert InPlace(code, 0, code);
    m1 := BlockRuns(code, b, names, 0, DataScope(data), DataEnv(data, values), m, o);
    assert m.out == "";
    assert 0 + Size(b) == Size(b);
  }

  lemma SeesLonger(scope: map<string, nat>, names: seq<Name>, env: map<string, Value>, vals: seq<Value>,
                   vals1: seq<Value>)
    requires Sees(scope, names, env, vals) && |vals| <= |vals1| && vals1[..|vals|] == vals
    ensures Sees(scope, names, env, vals1)
  {
    forall u | u in scope
      ensures vals1[scope[u]] == env[u]
    {
      assert vals1[..|vals|][scope[u]] == vals[scope[u]];
    }
  }

  // ─── Nesting ───────────────────────────────────────────────────────────────

  /** For each instruction the loops around it, by where they start. */
  function Nest(b: Block, at: nat, loops: seq<nat>): (r: seq<seq<nat>>)
    ensures |r| == Size(b)
  {
    match b
    case Nothing => []
    case Then(before, item) => Nest(before, at, loops) + ItemNest(item, at + Size(before), loops)
  }

  function ItemNest(item: Item, at: nat, loops: seq<nat>): (r: seq<seq<nat>>)
    ensures |r| == ItemSize(item)
  {
    match item
    case Text(t) => if t == "" then [] else [loops]
    case Write(_, _) => [loops]
    case If(closed, _, body) =>
      ChainNest(closed, at, loops) + [loops] + Nest(body, at + ChainSize(closed) + 1, loops)
    case IfElse(closed, other) => ChainNest(closed, at, loops) + Nest(other, at + ChainSize(closed), loops)
    case For(_, _, body) => [loops] + Nest(body, at + 1, loops + [at]) + [loops + [at]]
  }

  function ChainNest(ch: Chain, at: nat, loops: seq<nat>): (r: seq<seq<nat>>)
    ensures |r| == ChainSize(ch)
  {
    match ch
    case NoBranch => []
    case Branch(before, _, body) =>
      ChainNest(before, at, loops) + [loops] + Nest(body, at + ChainSize(before) + 1, loops) + [loops]
  }

  /** Jumps stay among the same loops, and go forward; only the two loop instructions go in
    and out, and only the end of a loop goes back, to just behind its own start. */
  predicate FlowsAt(code: seq<Instr>, nest: seq<seq<nat>>, pc: nat)
    requires pc < |code| && |nest| == |code| + 1
  {
    match code[pc]
    case Paste(_) => nest[pc + 1] == nest[pc]
    case Print(_, _) => nest[pc + 1] == nest[pc]
    case JumpIfFalse(_, to) => pc < to <= |code| && nest[pc + 1] == nest[pc] && nest[to] == nest[pc]
    case Jump(to) => pc < to <= |code| && nest[to] == nest[pc]
    case LoopStart(_, to, _, _) => pc < to <= |code| && nest[pc + 1] == nest[pc] + [pc] && nest[to] == nest[pc]
    case LoopNext(to, _, _) =>
      && nest[pc] != [] && to == nest[pc][|nest[pc]| - 1] + 1 <= pc
      && nest[to] == nest[pc] && nest[pc + 1] == nest[pc][..|nest[pc]| - 1]
  }

  predicate NestedAt(nest: seq<seq<nat>>, at: nat, part: seq<seq<nat>>) {
    at + |part| <= |nest| && nest[at..at + |part|] == part
  }

  lemma NestParts(nest: seq<seq<nat>>, at: nat, a: seq<seq<nat>>, b: seq<seq<nat>>)
    requires NestedAt(nest, at, a + b)
    ensures NestedAt(nest, at, a) && NestedAt(nest, at + |a|, b)
  {
    assert nest[at..at + |a|] == (a + b)[..|a|];
    assert nest[at + |a|..at + |a| + |b|] == (a + b)[|a|..];
  }

  lemma NestOne(nest: seq<seq<nat>>, at: nat, x: seq<nat>)
    requires NestedAt(nest, at, [x])
    ensures at < |nest| && nest[at] == x
  {
    assert nest[at..at + 1][0] == x;
  }

  ghost predicate FlowsFrom(code: seq<Instr>, nest: seq<seq<nat>>, from: nat, to: nat)
    requires |nest| == |code| + 1 && to <= |code|
  {
    forall pc :: from <= pc < to ==> FlowsAt(code, nest, pc)
  }

  /** What is around the instruction behind a part. */
  ghost predicate Follows(code: seq<Instr>, nest: seq<seq<nat>>, at: nat, loops: seq<nat>) {
    |nest| == |code| + 1 && at <= |code| && nest[at] == loops
  }

  /** The first instruction of a part, if it has one, is among the same loops as what follows
    the part. */
  lemma {:induction false} NestStarts(b: Block, at: nat, loops: seq<nat>, nest: seq<seq<nat>>)
    requires NestedAt(nest, at, Nest(b, at, loops)) && at + Size(b) < |nest| && nest[at + Size(b)] == loops
    ensures nest[at] == loops
    decreases b
  {
    if b.Then? {
      var a := Nest(b.before, at, loops);
      NestParts(nest, at, a, ItemNest(b.item, at + Size(b.before), loops));
      ItemNestStarts(b.item, at + Size(b.before), loops, nest);
      NestStarts(b.before, at, loops, nest);
    }
  }

  lemma {:induction false} ItemNestStarts(item: Item, at: nat, loops: seq<nat>, nest: seq<seq<nat>>)
    requires NestedAt(nest, at, ItemNest(item, at, loops)) && at + ItemSize(item) < |nest|
             && nest[at + ItemSize(item)] == loops
    ensures nest[at] == loops
    decreases item
  {
    var part := ItemNest(item, at, loops);
    assert |part| > 0 ==> nest[at..at + |part|][0] == nest[at];
    match item
    case If(closed, _, body) =>
      if closed.Branch? {
        ChainNestStarts(closed, at, loops);
      }
    case IfElse(closed, other) =>
      if closed.Branch? {
        ChainNestStarts(closed, at, loops);
      } else {
        assert ItemNest(item, at, loops) == Nest(other, at, loops);
        NestStarts(other, at, loops, nest);
      }
    case _ =>
  }

  lemma {:induction false} ChainNestStarts(ch: Chain, at: nat, loops: seq<nat>)
    requires ch.Branch?
    ensures |ChainNest(ch, at, loops)| > 0 && ChainNest(ch, at, loops)[0] == loops
  {
    if ch.before.Branch? {
      ChainNestStarts(ch.before, at, loops);
    }
  }

  lemma {:induction false} BlockFlows(b: Block, names: seq<Name>, at: nat, loops: seq<nat>, code: seq<Instr>,
                                      nest: seq<seq<nat>>)
    requires InPlace(code, at, Code(b, names, at)) && NestedAt(nest, at, Nest(b, at, loops))
    requires Follows(code, nest, at + Size(b), loops)
    ensures Follows(code, nest, at, loops) && FlowsFrom(code, nest, at, at + Size(b))
    decreases b, 0
  {
    hide Extra, FlowsAt, InPlace, ItemCode, ItemNest, ItemSize, NestedAt;
    NestStarts(b, at, loops, nest);
    assert Follows(code, nest, at, loops);
    match b
    case Nothing =>
    case Then(before, item) =>
      var part := Code(before, names, at);
      CodeSize(before, names, at);
      InParts(code, at, part, ItemCode(item, names + Extra(before), at + |part|));
      NestParts(nest, at, Nest(before, at, loops), ItemNest(item, at + Size(before), loops));
      ItemFlows(item, names + Extra(before), at + |part|, loops, code, nest);
      BlockFlows(before, names, at, loops, code, nest);
  }

  lemma {:induction false} ItemFlows(item: Item, names: seq<Name>, at: nat, loops: seq<nat>, code: seq<Instr>,
                                     nest: seq<seq<nat>>)
    requires InPlace(code, at, ItemCode(item, names, at)) && NestedAt(nest, at, ItemNest(item, at, loops))
    requires Follows(code, nest, at + ItemSize(item), loops)
    ensures Follows(code, nest, at, loops) && FlowsFrom(code, nest, at, at + ItemSize(item))
    decreases item, 1
  {
    hide ChainCode, ChainExtra, ChainNest, ChainSize, Code, CompiledExpr, InPlace, LoopNames, Nest, NestedAt, Size;
    ItemNestStarts(item, at, loops, nest);
    match item
    case Text(t) =>
      if t != "" {
        InOne(code, at, Paste(t));
      }
    case Write(e, raw) =>
      InOne(code, at, Print(CompiledExpr(e, names), raw));
    case If(closed, cond, body) => IfFlows(closed, cond, body, names, at, loops, code, nest);
    case IfElse(closed, other) => IfElseFlows(closed, other, names, at, loops, code, nest);
    case For(name, list, body) => ForFlows(name, list, body, names, at, loops, code, nest);
  }

  lemma {:induction false} IfFlows(closed: Chain, cond: Expr, body: Block, names: seq<Name>, at: nat, loops: seq<nat>,
                                   code: seq<Instr>, nest: seq<seq<nat>>)
    requires InPlace(code, at, ItemCode(If(closed, cond, body), names, at))
    requires NestedAt(nest, at, ItemNest(If(closed, cond, body), at, loops))
    requires Follows(code, nest, at + ItemSize(If(closed, cond, body)), loops)
    ensures |nest| == |code| + 1 && at + ItemSize(If(closed, cond, body)) <= |code|
    ensures FlowsFrom(code, nest, at, at + ItemSize(If(closed, cond, body)))
    decreases If(closed, cond, body), 0
  {
    hide ChainCode, ChainExtra, ChainNest, ChainSize, Code, CompiledExpr, FlowsFrom, InPlace, LoopNames, Nest,
         NestedAt, Size;
    var names1 := names + ChainExtra(closed);
    var at1 := at + ChainSize(closed);
    var part := Code(body, names1, at1 + 1);
    var end := at1 + 1 + |part|;
    var test := [JumpIfFalse(CompiledExpr(cond, names1), end)];
    ChainCodeSize(closed, names, at, end);
    CodeSize(body, names1, at1 + 1);
    InParts(code, at, ChainCode(closed, names, at, end) + test, part);
    InParts(code, at, ChainCode(closed, names, at, end), test);
    NestParts(nest, at, ChainNest(closed, at, loops) + [loops], Nest(body, at1 + 1, loops));
    NestParts(nest, at, ChainNest(closed, at, loops), [loops]);
    assert Follows(code, nest, at1, loops) by { NestOne(nest, at1, loops); }
    BlockFlows(body, names1, at1 + 1, loops, code, nest);
    ChainFlows(closed, names, at, end, loops, code, nest);
    TestFlows(code, nest, at1, CompiledExpr(cond, names1), end, loops);
    FlowsJoin(code, nest, at, at1, at1 + 1);
    FlowsJoin(code, nest, at, at1 + 1, end);
  }

  lemma {:induction false} IfElseFlows(closed: Chain, other: Block, names: seq<Name>, at: nat, loops: seq<nat>,
                                       code: seq<Instr>, nest: seq<seq<nat>>)
    requires InPlace(code, at, ItemCode(IfElse(closed, other), names, at))
    requires NestedAt(nest, at, ItemNest(IfElse(closed, other), at, loops))
    requires Follows(code, nest, at + ItemSize(IfElse(closed, other)), loops)
    ensures |nest| == |code| + 1 && at + ItemSize(IfElse(closed, other)) <= |code|
    ensures FlowsFrom(code, nest, at, at + ItemSize(IfElse(closed, other)))
    decreases IfElse(closed, other), 0
  {
    hide ChainCode, ChainExtra, ChainNest, ChainSize, Code, CompiledExpr, FlowsAt, InPlace, LoopNames, Nest,
         NestedAt, Size;
    var names1 := names + ChainExtra(closed);
    var at1 := at + ChainSize(closed);
    var part := Code(other, names1, at1);
    var end := at1 + |part|;
    ChainCodeSize(closed, names, at, end);
    CodeSize(other, names1, at1);
    InParts(code, at, ChainCode(closed, names, at, end), part);
    NestParts(nest, at, ChainNest(closed, at, loops), Nest(other, at1, loops));
    BlockFlows(other, names1, at1, loops, code, nest);
    ChainFlows(closed, names, at, end, loops, code, nest);
  }

  lemma FlowsJoin(code: seq<Instr>, nest: seq<seq<nat>>, a: nat, b: nat, c: nat)
    requires |nest| == |code| + 1 && a <= b <= c <= |code| && FlowsFrom(code, nest, a, b) && FlowsFrom(code, nest, b, c)
    ensures FlowsFrom(code, nest, a, c)
  {
    hide FlowsAt;
  }

  lemma FlowsOne(code: seq<Instr>, nest: seq<seq<nat>>, at: nat)
    requires |nest| == |code| + 1 && at < |code| && FlowsAt(code, nest, at)
    ensures FlowsFrom(code, nest, at, at + 1)
  {
    hide FlowsAt;
  }

  lemma TestFlows(code: seq<Instr>, nest: seq<seq<nat>>, at: nat, e: Compiled, to: nat, loops: seq<nat>)
    requires InPlace(code, at, [JumpIfFalse(e, to)]) && NestedAt(nest, at, [loops]) && at < to
    requires Follows(code, nest, at + 1, loops) && Follows(code, nest, to, loops)
    ensures FlowsFrom(code, nest, at, at + 1)
  {
    hide FlowsFrom;
    InOne(code, at, JumpIfFalse(e, to));
    NestOne(nest, at, loops);
    FlowsOne(code, nest, at);
  }

  lemma JumpFlows(code: seq<Instr>, nest: seq<seq<nat>>, at: nat, to: nat, loops: seq<nat>)
    requires InPlace(code, at, [Jump(to)]) && NestedAt(nest, at, [loops]) && at < to
    requires |nest| == |code| + 1 && Follows(code, nest, to, loops)
    ensures FlowsFrom(code, nest, at, at + 1) && Follows(code, nest, at, loops)
  {
    hide FlowsFrom;
    InOne(code, at, Jump(to));
    NestOne(nest, at, loops);
    FlowsOne(code, nest, at);
  }

  lemma {:induction false} ChainFlows(ch: Chain, names: seq<Name>, at: nat, end: nat, loops: seq<nat>, code: seq<Instr>,
                                      nest: seq<seq<nat>>)
    requires InPlace(code, at, ChainCode(ch, names, at, end)) && NestedAt(nest, at, ChainNest(ch, at, loops))
    requires Follows(code, nest, at + ChainSize(ch), loops) && Follows(code, nest, end, loops)
             && at + ChainSize(ch) <= end
    ensures |nest| == |code| + 1 && at + ChainSize(ch) <= |code| && FlowsFrom(code, nest, at, at + ChainSize(ch))
    decreases ch, 0
  {
    hide ChainCode, ChainExtra, ChainNest, Code, CompiledExpr, FlowsAt, InPlace, Nest, NestedAt, Size;
    assert |nest| == |code| + 1 && at + ChainSize(ch) <= |code|;
    match ch
    case NoBranch =>
    case Branch(before, cond, body) =>
      var names1 := names + ChainExtra(before);
      var at1 := at + ChainSize(before);
      BranchParts(ch, names, at, end, loops, code, nest);
      var last := at1 + 1 + Size(body);
      JumpFlows(code, nest, last, end, loops);
      BlockFlows(body, names1, at1 + 1, loops, code, nest);
      TestFlows(code, nest, at1, CompiledExpr(cond, names1), last + 1, loops);
      assert Follows(code, nest, at1, loops) by {
        NestOne(nest, at1, loops);
      }
      ChainFlows(before, names, at, end, loops, code, nest);
      FlowsJoin(code, nest, at, at1, at1 + 1);
      FlowsJoin(code, nest, at, at1 + 1, last);
      FlowsJoin(code, nest, at, last, last + 1);
  }

  /** Where the parts of the last branch of a chain are. */
  lemma BranchParts(ch: Chain, names: seq<Name>, at: nat, end: nat, loops: seq<nat>, code: seq<Instr>,
                    nest: seq<seq<nat>>)
    requires ch.Branch? && InPlace(code, at, ChainCode(ch, names, at, end))
             && NestedAt(nest, at, ChainNest(ch, at, loops))
    ensures var names1 := names + ChainExtra(ch.before);
            var at1 := at + ChainSize(ch.before);
            var last := at1 + 1 + Size(ch.body);
            && InPlace(code, at, ChainCode(ch.before, names, at, end))
            && InPlace(code, at1, [JumpIfFalse(CompiledExpr(ch.cond, names1), last + 1)])
            && InPlace(code, at1 + 1, Code(ch.body, names1, at1 + 1)) && InPlace(code, last, [Jump(end)])
            && NestedAt(nest, at, ChainNest(ch.before, at, loops)) && NestedAt(nest, at1, [loops])
            && NestedAt(nest, at1 + 1, Nest(ch.body, at1 + 1, loops)) && NestedAt(nest, last, [loops])
  {
    hide ChainExtra, ChainSize, Code, CompiledExpr, InPlace, Nest, NestedAt, Size;
    var before, cond, body := ch.before, ch.cond, ch.body;
    var names1 := names + ChainExtra(before);
    var at1 := at + ChainSize(before);
    var part := Code(body, names1, at1 + 1);
    var test := [JumpIfFalse(CompiledExpr(cond, names1), at1 + 2 + |part|)];
    ChainCodeSize(before, names, at, end);
    CodeSize(body, names1, at1 + 1);
    InParts(code, at, ChainCode(before, names, at, end) + test + part, [Jump(end)]);
    InParts(code, at, ChainCode(before, names, at, end) + test, part);
    InParts(code, at, ChainCode(before, names, at, end), test);
    var inner := Nest(body, at1 + 1, loops);
    NestParts(nest, at, ChainNest(before, at, loops) + [loops] + inner, [loops]);
    NestParts(nest, at, ChainNest(before, at, loops) + [loops], inner);
    NestParts(nest, at, ChainNest(before, at, loops), [loops]);
  }

  lemma ForCode(name: string, list: Expr, body: Block, names: seq<Name>, at: nat, code: seq<Instr>)
    requires InPlace(code, at, ItemCode(For(name, list, body), names, at))
    ensures var end := at + 2 + Size(body);
            && end <= |code| && code[at] == LoopStart(CompiledExpr(list, names), end, |names|, |names| + 1)
            && code[end - 1] == LoopNext(at + 1, |names|, |names| + 1)
            && InPlace(code, at + 1, Code(body, LoopNames(names, name), at + 1))
  {
    hide ChainCode, ChainExtra, ChainSize, Code, CompiledExpr, InPlace, LoopNames, Size;
    var n := |names|;
    var part := Code(body, LoopNames(names, name), at + 1);
    var start := LoopStart(CompiledExpr(list, names), at + 2 + |part|, n, n + 1);
    CodeSize(body, LoopNames(names, name), at + 1);
    InParts(code, at, [start] + part, [LoopNext(at + 1, n, n + 1)]);
    InParts(code, at, [start], part);
    InOne(code, at, start);
    InOne(code, at + 1 + |part|, LoopNext(at + 1, n, n + 1));
  }

  lemma ForNest(name: string, list: Expr, body: Block, at: nat, loops: seq<nat>, nest: seq<seq<nat>>)
    requires NestedAt(nest, at, ItemNest(For(name, list, body), at, loops))
    ensures var end := at + 2 + Size(body);
            && end <= |nest| && nest[at] == loops && nest[end - 1] == loops + [at]
            && NestedAt(nest, at + 1, Nest(body, at + 1, loops + [at]))
  {
    hide ChainNest, ChainSize, ItemSize, Nest, NestedAt, Size;
    var inner := Nest(body, at + 1, loops + [at]);
    NestParts(nest, at, [loops] + inner, [loops + [at]]);
    NestParts(nest, at, [loops], inner);
    NestOne(nest, at, loops);
    NestOne(nest, at + 1 + |inner|, loops + [at]);
  }

  lemma {:induction false} ForFlows(name: string, list: Expr, body: Block, names: seq<Name>, at: nat, loops: seq<nat>,
                                    code: seq<Instr>, nest: seq<seq<nat>>)
    requires InPlace(code, at, ItemCode(For(name, list, body), names, at))
    requires NestedAt(nest, at, ItemNest(For(name, list, body), at, loops))
    requires Follows(code, nest, at + ItemSize(For(name, list, body)), loops)
    ensures |nest| == |code| + 1 && at + ItemSize(For(name, list, body)) <= |code|
    ensures FlowsFrom(code, nest, at, at + ItemSize(For(name, list, body)))
    decreases For(name, list, body), 0
  {
    hide ChainSize, Code, CompiledExpr, FlowsFrom, InPlace, ItemCode, ItemNest, LoopNames, Nest, NestedAt, Size;
    var end := at + 2 + Size(body);
    ForCode(name, list, body, names, at, code);
    ForNest(name, list, body, at, loops, nest);
    BlockFlows(body, LoopNames(names, name), at + 1, loops + [at], code, nest);
    assert (loops + [at])[..|loops|] == loops;
    assert FlowsAt(code, nest, at) && FlowsAt(code, nest, end - 1);
    FlowsOne(code, nest, at);
    FlowsOne(code, nest, end - 1);
    FlowsJoin(code, nest, at, at + 1, end - 1);
    FlowsJoin(code, nest, at, end - 1, end);
  }

  // ─── Every reachable state ─────────────────────────────────────────────────

  /** The stack of loops is the static nesting, and every loop is at an item of its list. */
  ghost predicate Mirrors(m: Machine, nest: seq<seq<nat>>, slots: nat) {
    m.Running? ==>
      && m.pc < |nest| && |m.loops| == |nest[m.pc]| && |m.vals| == slots
      && forall k :: 0 <= k < |m.loops| ==> m.loops[k].i < |m.loops[k].items|
  }

  lemma StepMirrors(code: seq<Instr>, nest: seq<seq<nat>>, m: Machine, slots: nat, o: Oracle)
    requires |nest| == |code| + 1 && FlowsFrom(code, nest, 0, |code|)
    requires m.Running? && m.pc < |code| && Mirrors(m, nest, slots)
    ensures Mirrors(Step(code, m, o), nest, slots)
    ensures code[m.pc].LoopNext? ==> m.loops != []
  {
    hide Eval, Shown, LoopData;
    assert FlowsAt(code, nest, m.pc);
  }

  /** The nesting of a whole template, with what is behind it. */
  function TemplateNest(b: Block): (r: seq<seq<nat>>)
    ensures |r| == Size(b) + 1
  {
    Nest(b, 0, []) + [[]]
  }

  lemma TemplateFlows(b: Block, names: seq<Name>)
    ensures |Code(b, names, 0)| == Size(b) && FlowsFrom(Code(b, names, 0), TemplateNest(b), 0, Size(b))
    ensures TemplateNest(b)[0] == []
  {
    hide Code, Nest, FlowsFrom;
    var code, nest := Code(b, names, 0), TemplateNest(b);
    CodeSize(b, names, 0);
    assert InPlace(code, 0, code);
    assert nest[0..Size(b)] == Nest(b, 0, []);
    BlockFlows(b, names, 0, [], code, nest);
  }

  /** The instructions that pushed the loops on the stack, when `starts` are those before
    `m` steps to `m1`: a new loop was pushed by the instruction of `m`. */
  function PushedBy(starts: seq<nat>, m: Machine, m1: Machine): seq<nat> {
    if !m.Running? || !m1.Running? then starts
    else if |m1.loops| > |m.loops| then starts + [m.pc]
    else if |m1.loops| < |m.loops| && starts != [] then starts[..|starts| - 1]
    else starts
  }

  /** The same after `n` steps. */
  function PushedAfter(code: seq<Instr>, m: Machine, starts: seq<nat>, n: nat, o: Oracle): seq<nat>
    decreases n
  {
    if n == 0 || Halted(code, m) then starts
    else PushedAfter(code, Step(code, m, o), PushedBy(starts, m, Step(code, m, o)), n - 1, o)
  }

  lemma StepPushes(code: seq<Instr>, nest: seq<seq<nat>>, m: Machine, slots: nat, o: Oracle)
    requires |nest| == |code| + 1 && FlowsFrom(code, nest, 0, |code|)
    requires m.Running? && m.pc < |code| && Mirrors(m, nest, slots) && Mirrors(Step(code, m, o), nest, slots)
    ensures Step(code, m, o).Running? ==> PushedBy(nest[m.pc], m, Step(code, m, o)) == nest[Step(code, m, o).pc]
  {
    hide Eval, Shown, LoopData;
    assert FlowsAt(code, nest, m.pc);
  }

  /** In every state that rendering can reach, whatever the expressions give, the stack of
    loops mirrors the nesting of the code: as many loops, each one pushed by the start that
    the nesting names. */
  lemma {:induction false} EveryStateMirrors(code: seq<Instr>, nest: seq<seq<nat>>, m: Machine, n: nat, slots: nat,
                                             o: Oracle)
    requires |nest| == |code| + 1 && FlowsFrom(code, nest, 0, |code|) && Mirrors(m, nest, slots)
    ensures var m1 := Steps(code, m, n, o);
            && Mirrors(m1, nest, slots)
            && (m.Running? && m1.Running? ==>
                  m.pc < |nest| && m1.pc < |nest| && PushedAfter(code, m, nest[m.pc], n, o) == nest[m1.pc])
    decreases n
  {
    hide Mirrors, FlowsFrom, Step;
    MirrorsAt(m, nest, slots);
    if n > 0 && !Halted(code, m) {
      StepMirrors(code, nest, m, slots, o);
      StepPushes(code, nest, m, slots, o);
      EveryStateMirrors(code, nest, Step(code, m, o), n - 1, slots, o);
    }
  }

  lemma MirrorsAt(m: Machine, nest: seq<seq<nat>>, slots: nat)
    requires Mirrors(m, nest, slots)
    ensures m.Running? ==> m.pc < |nest|
  {
  }

  // ─── The renderer ──────────────────────────────────────────────────────────

  /** After `left` more steps the code has rendered `r`. */
  ghost predicate Arrives(code: seq<Instr>, m: Machine, left: nat, r: Rendered, o: Oracle) {
    var m1 := Steps(code, m, left, o);
    match r
    case Stopped(s, out) => m1 == Failed(s, out)
    case Fine(out) => m1.Running? && m1.pc == |code| && m1.out == out
  }

  lemma OneStepLess(code: seq<Instr>, m: Machine, left: nat, r: Rendered, o: Oracle)
    requires Arrives(code, m, left, r, o) && m.Running? && m.pc < |code|
    ensures left > 0 && Arrives(code, Step(code, m, o), left - 1, r, o)
  {
    hide Step;
  }

  lemma ArrivedAt(code: seq<Instr>, m: Machine, left: nat, r: Rendered, o: Oracle)
    requires Arrives(code, m, left, r, o) && Halted(code, m)
    ensures m.Failed? ==> r == Stopped(m.message, m.out)
    ensures m.Running? ==> r == Fine(m.out)
  {
  }

  lemma TemplateArrives(b: Block, data: seq<string>, values: seq<Value>, o: Oracle) returns (n: nat)
    requires |data| == |values| && OkBlock(b, DataNames(data)) && Scoped(b, set u | u in data)
    ensures Arrives(Code(b, DataNames(data), 0), Start(values, |data| + |Extra(b)|), n,
                    RenderBlock(b, DataEnv(data, values), "", o), o)
  {
    hide Code, DataEnv, DataNames, Extra, OkBlock, RenderBlock, Scoped, Size, Start, Steps;
    var code := Code(b, DataNames(data), 0);
    var m1 := TemplateRuns(b, data, values, o);
    CodeSize(b, DataNames(data), 0);
    n :| Steps(code, Start(values, |data| + |Extra(b)|), n, o) == m1;
  }

  /** Runs the code until it ends or an expression fails. That it ends follows from the tree. */
  method Render(code: seq<Instr>, slots: nat, values: seq<Value>, o: Oracle, ghost b: Block, ghost data: seq<string>)
    returns (result: Rendered)
    requires |data| == |values| && OkBlock(b, DataNames(data)) && Scoped(b, set u | u in data)
    requires code == Code(b, DataNames(data), 0) && slots == |data| + |Extra(b)|
    ensures result == RenderBlock(b, DataEnv(data, values), "", o)
  {
    hide Arrives, Code, DataEnv, DataNames, Extra, FlowsFrom, Mirrors, OkBlock, PutItem, RenderBlock, Scoped,
         Shown, Size, Start, TemplateNest, ValuesAt;
    ghost var nest := TemplateNest(b);
    ghost var r := RenderBlock(b, DataEnv(data, values), "", o);
    ghost var left := TemplateArrives(b, data, values, o);
    TemplateFlows(b, DataNames(data));
    var pc, loops, out := 0, [], "";
    var vals := values + seq(slots - |values|, _ => Null);
    ghost var m := Start(values, slots);
    StartsEmpty(values, slots, nest);
    while pc < |code|
      invariant 0 <= pc && m == Running(pc, vals, loops, out) && Mirrors(m, nest, slots)
      invariant Arrives(code, m, left, r, o)
      decreases left
    {
      OneStepLess(code, m, left, r, o);
      StepMirrors(code, nest, m, slots, o);
      left, m := left - 1, Step(code, m, o);
      assert Mirrors(m, nest, slots) && Arrives(code, m, left, r, o);
      match code[pc] {
        case Paste(t) =>
          out := out + t;
          pc := pc + 1;
        case Print(e, raw) =>
          var x := o.eval(e.id, ValuesAt(e.slots, vals));
          if x.Error? {
            result := Stopped(x.message, out);
            assert m == Failed(x.message, out);
            ArrivedAt(code, m, left, r, o);
            return;
          }
          out := out + Shown(x.value, raw, o);
          pc := pc + 1;
        case JumpIfFalse(e, to) =>
          var x := o.eval(e.id, ValuesAt(e.slots, vals));
          if x.Error? {
            result := Stopped(x.message, out);
            assert m == Failed(x.message, out);
            ArrivedAt(code, m, left, r, o);
            return;
          }
          pc := if o.truthy(x.value) then pc + 1 else to;
        case Jump(to) =>
          pc := to;
        case LoopStart(e, to, slot, loopSlot) =>
          var x := o.eval(e.id, ValuesAt(e.slots, vals));
          if x.Error? || !x.value.List? {
            result := if x.Error? then Stopped(x.message, out) else Stopped(o.notAList(x.value), out);
            assert m == Failed(result.message, out);
            ArrivedAt(code, m, left, r, o);
            return;
          }
          var items := x.value.items;
          if items == [] {
            pc := to;
          } else {
            loops := loops + [Frame(items, 0)];
            vals := PutItem(vals, slot, loopSlot, items, 0);
            pc := pc + 1;
          }
        case LoopNext(to, slot, loopSlot) =>
          var last := |loops| - 1;
          var f := loops[last];
          if f.i + 1 < |f.items| {
            loops := loops[last := Frame(f.items, f.i + 1)];
            vals := PutItem(vals, slot, loopSlot, f.items, f.i + 1);
            pc := to;
          } else {
            loops := loops[..last];
            pc := pc + 1;
          }
      }
    }
    ArrivedAt(code, m, left, r, o);
    return Fine(out);
  }

  lemma StartsEmpty(values: seq<Value>, slots: nat, nest: seq<seq<nat>>)
    requires |values| <= slots && nest != [] && nest[0] == []
    ensures Start(values, slots) == Running(0, values + seq(slots - |values|, _ => Null), [], "")
    ensures Mirrors(Start(values, slots), nest, slots)
  {
    assert slots == |values| ==> values + [] == values + seq(slots - |values|, _ => Null);
  }
}
