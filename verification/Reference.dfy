/** What an Odio program means: an interpreter of the syntax tree.  It knows names
  and scopes, not slots; exceptions, not try ranges; and it reads the value of an
  `await` from a list instead of being suspended.  The two limits of a run are
  part of the meaning, because a program can catch the errors they raise.

  Recursion is bounded by `fuel`, spent on calls and on loop iterations: `NoFuel`
  says that more of it is needed, and for a program that never ends it is what
  every amount of fuel gives. */
module Reference {
  import opened Wrappers
  import opened Values
  import opened Ast

  datatype Binding = Binding(name: string, value: Value)

  /** The variables in scope, innermost last; the world; the counted jumps since the
    run last began, woke up or caught an error; and the awaited values to come. */
  datatype St = St(env: seq<Binding>, world: World, steps: nat, inputs: seq<Resumption>)

  datatype Stop =
    | Err(error: string, at: St)
    | Wait(id: nat, args: seq<Value>, at: St)
    | NoFuel

  datatype Res<T> = Ok(value: T, st: St) | Stopped(why: Stop) {
    predicate IsFailure() { Stopped? }

    function PropagateFailure<U>(): Res<U>
      requires Stopped?
    {
      Stopped(why)
    }

    function Extract(): (T, St)
      requires Ok?
    {
      (value, st)
    }
  }

  /** How a statement ends. */
  datatype Signal = Normal | Breaking | Continuing | Returning(value: Value)

  /** The loop a statement is in.  `last` says that nothing follows the statement in
    the body of a `for`: a `continue` there jumps to the very next instruction,
    which the machine counts as it counts a jump back. */
  datatype Loop = NoLoop | InWhile | InFor(last: bool)

  function NotLast(lc: Loop): Loop { if lc.InFor? then InFor(false) else lc }

  datatype Source = Source(sigs: Sigs, decls: seq<Decl>, host: Host)

  // ─── Variables ─────────────────────────────────────────────────────────────

  predicate Bound(env: seq<Binding>, name: string) {
    env != [] && (env[|env| - 1].name == name || Bound(env[..|env| - 1], name))
  }

  /** The innermost variable called `name`. */
  function Lookup(env: seq<Binding>, name: string): Value {
    if env == [] then Null
    else if env[|env| - 1].name == name then env[|env| - 1].value
    else Lookup(env[..|env| - 1], name)
  }

  function Update(env: seq<Binding>, name: string, v: Value): (r: seq<Binding>)
    ensures |r| == |env|
  {
    if env == [] then []
    else
      var n := |env| - 1;
      if env[n].name == name then env[..n] + [Binding(name, v)]
      else Update(env[..n], name, v) + [env[n]]
  }

  function Leave(env: seq<Binding>, n: nat): seq<Binding> { if n <= |env| then env[..n] else env }

  // ─── Expressions ───────────────────────────────────────────────────────────

  /** A call, with or without `await`. */
  predicate IsCall(e: Expr) { e.Call? || (e.Await? && e.call.Call?) }

  function TheCall(e: Expr): Expr
    requires IsCall(e)
  {
    if e.Call? then e else e.call
  }

  /** The expressions that evaluate their operands from left to right and then do one thing. */
  predicate IsOperationExpr(e: Expr) {
    e.Member? || e.Index? || IsCall(e) || e.Unary? || e.ListLit? || e.DictLit?
    || (e.Binary? && !e.bop.And? && !e.bop.Or?)
  }

  function CallOperands(c: Expr, sg: Sigs): (r: seq<Expr>)
    requires c.Call?
    ensures WeightList(r) < Weight(c)
  {
    match Resolve(c.callee, sg)
    case UserFn(sig) =>
      DefaultsAreLight(c.args, sig);
      FullArgs(c.args, sig)
    case Method(o, _) =>
      assert ([o] + c.args)[1..] == c.args;
      [o] + c.args
    case _ => c.args
  }

  lemma DefaultsAreLight(args: seq<Expr>, sig: FnSig)
    ensures WeightList(FullArgs(args, sig)) == WeightList(args)
  {
    if |args| <= |sig.defaults| {
      LiteralsAreLight(sig.defaults[|args|..]);
      WeightAppend(args, DefaultArgs(sig.defaults[|args|..]));
    }
  }

  lemma {:induction false} LiteralsAreLight(ds: seq<Option<Literal>>)
    ensures WeightList(DefaultArgs(ds)) == 0
    ensures |DefaultArgs(ds)| == |ds|
  {
    if ds != [] {
      LiteralsAreLight(ds[1..]);
      assert DefaultArgs(ds)[1..] == DefaultArgs(ds[1..]);
    }
  }

  lemma PairWeight(a: Expr, b: Expr)
    ensures WeightList([a, b]) == Weight(a) + Weight(b)
  {
    assert [a, b] == [a] + [b] && [a][1..] == [] && [b][1..] == [];
    WeightAppend([a], [b]);
  }

  function Operands(e: Expr, sg: Sigs): (r: seq<Expr>)
    requires IsOperationExpr(e)
    ensures WeightList(r) < Weight(e)
  {
    match e
    case Member(o, _) => assert [o][1..] == []; [o]
    case Index(o, i) => PairWeight(o, i); [o, i]
    case Unary(_, x) => assert [x][1..] == []; [x]
    case Binary(_, l, r) => PairWeight(l, r); [l, r]
    case ListLit(items) => items
    case DictLit(entries) => Flatten(entries)
    case Call(_, _) => CallOperands(e, sg)
    case Await(c) => CallOperands(c, sg)
  }

  function Lift(o: Outcome, st: St): Res<Value> {
    match o
    case Good(v, w) => Ok(v, st.(world := w))
    case Bad(e, w) => Stopped(Err(e, st.(world := w)))
  }

  function UnaryValue(h: Host, op: UnaryOp, a: Value, w: World): Outcome {
    match op
    case NotOp => Good(Bool(!Truthy(h, a, w)), w)
    case NegOp => Negate(h, a, w)
  }

  function BinaryValue(h: Host, op: BinaryOp, a: Value, b: Value, w: World): Outcome {
    match op
    case Plus => Add(h, a, b, w)
    case Minus => Arithmetic(h, SUB, a, b, w)
    case Times => Arithmetic(h, MUL, a, b, w)
    case Over => Arithmetic(h, DIV, a, b, w)
    case Percent => Arithmetic(h, MOD, a, b, w)
    case Eq => Good(Bool(Equal(h, a, b, w)), w)
    case Ne => Good(Bool(!Equal(h, a, b, w)), w)
    case Lt => Compare(h, LT, a, b, w)
    case Le => Compare(h, LE, a, b, w)
    case Gt => Compare(h, GT, a, b, w)
    case Ge => Compare(h, GE, a, b, w)
    case And => Good(b, w)
    case Or => Good(b, w)
  }

  /** `v + 1` or `v - 1`, for a step. */
  function OneMore(h: Host, plus: bool, v: Value, w: World): Outcome {
    BinaryValue(h, if plus then Plus else Minus, v, Int(1), w)
  }

  function EvalExpr(p: Source, fuel: nat, depth: nat, e: Expr, st: St): Res<Value>
    decreases fuel, 0, Weight(e), 0
  {
    if e.Lit? then Ok(LiteralValue(e.lit), st)
    else if e.Ident? then Ok(Lookup(st.env, e.name), st)
    else if e.This? then Ok(Lookup(st.env, "this"), st)
    else if e.Ternary? then EvalTernary(p, fuel, depth, e.cond, e.yes, e.no, st)
    else if e.Step? then EvalStep(p, fuel, depth, e.post, e.plus, e.target, st)
    else if IsShortCircuit(e) then EvalShortCircuit(p, fuel, depth, e.bop.Or?, e.lhs, e.rhs, st)
    else if IsOperationExpr(e) then EvalOperation(p, fuel, depth, e, st)
    else Stopped(Err("", st))
  }

  predicate IsShortCircuit(e: Expr) { e.Binary? && (e.bop.And? || e.bop.Or?) }

  function EvalTernary(p: Source, fuel: nat, depth: nat, cond: Expr, yes: Expr, no: Expr, st: St): Res<Value>
    decreases fuel, 0, Weight(cond) + Weight(yes) + Weight(no) + 1, 0
  {
    var (c, st1) :- EvalExpr(p, fuel, depth, cond, st);
    EvalExpr(p, fuel, depth, if Truthy(p.host, c, st1.world) then yes else no, st1)
  }

  /** `and` gives its left side when that is false, `or` when it is true; otherwise
    both give the right side. */
  function EvalShortCircuit(p: Source, fuel: nat, depth: nat, isOr: bool, lhs: Expr, rhs: Expr, st: St): Res<Value>
    decreases fuel, 0, Weight(lhs) + Weight(rhs) + 1, 0
  {
    var (l, st1) :- EvalExpr(p, fuel, depth, lhs, st);
    if Truthy(p.host, l, st1.world) == isOr then Ok(l, st1) else EvalExpr(p, fuel, depth, rhs, st1)
  }

  function EvalOperation(p: Source, fuel: nat, depth: nat, e: Expr, st: St): Res<Value>
    requires IsOperationExpr(e)
    decreases fuel, 0, Weight(e), -1
  {
    var (vs, st1) :- EvalList(p, fuel, depth, Operands(e, p.sigs), st);
    Perform(p, fuel, depth, e, vs, st1)
  }

  function EvalList(p: Source, fuel: nat, depth: nat, es: seq<Expr>, st: St): (r: Res<seq<Value>>)
    ensures r.Ok? ==> |r.value| == |es|
    decreases fuel, 0, WeightList(es), |es| + 1
  {
    if es == [] then Ok([], st)
    else
      var (v, st1) :- EvalExpr(p, fuel, depth, es[0], st);
      var (vs, st2) :- EvalList(p, fuel, depth, es[1..], st1);
      Ok([v] + vs, st2)
  }

  /** `++t`, `t++` and the like: `t` is read once and written once, and its object
    and index are evaluated once. */
  function EvalStep(p: Source, fuel: nat, depth: nat, post: bool, plus: bool, t: Expr, st: St): Res<Value>
    decreases fuel, 0, Weight(t) + 1, 0
  {
    match t
    case Ident(n) => StepName(p.host, post, plus, n, st)
    case Member(o, f) =>
      var (ov, st1) :- EvalExpr(p, fuel, depth, o, st);
      StepField(p.host, post, plus, ov, f, st1)
    case Index(o, i) =>
      var (ov, st1) :- EvalExpr(p, fuel, depth, o, st);
      var (iv, st2) :- EvalExpr(p, fuel, depth, i, st1);
      StepElement(p.host, post, plus, ov, iv, st2)
    case _ => Stopped(Err("", st))
  }

  function StepName(h: Host, post: bool, plus: bool, n: string, st: St): Res<Value> {
    var prev := Lookup(st.env, n);
    var (v, st1) :- Lift(OneMore(h, plus, prev, st.world), st);
    Ok(if post then prev else v, st1.(env := Update(st1.env, n, v)))
  }

  function StepField(h: Host, post: bool, plus: bool, obj: Value, f: string, st: St): Res<Value> {
    var (prev, st1) :- Lift(GetMember(f, obj, st.world), st);
    var (v, st2) :- Lift(OneMore(h, plus, prev, st1.world), st1);
    var (_, st3) :- Lift(SetMember(f, obj, v, st2.world), st2);
    Ok(if post then prev else v, st3)
  }

  function StepElement(h: Host, post: bool, plus: bool, obj: Value, idx: Value, st: St): Res<Value> {
    var (prev, st1) :- Lift(GetIndex(obj, idx, st.world), st);
    var (v, st2) :- Lift(OneMore(h, plus, prev, st1.world), st1);
    var (_, st3) :- Lift(SetIndex(obj, idx, v, st2.world), st2);
    Ok(if post then prev else v, st3)
  }

  /** The one thing an operation does with the values of its operands. */
  function Perform(p: Source, fuel: nat, depth: nat, e: Expr, vs: seq<Value>, st: St): Res<Value>
    requires IsOperationExpr(e) && |vs| == |Operands(e, p.sigs)|
    decreases fuel, 0, 0, 2
  {
    if IsCall(e) then PerformCall(p, fuel, depth, TheCall(e), vs, st)
    else
      match e
      case Member(_, f) => Lift(GetMember(f, vs[0], st.world), st)
      case Index(_, _) => Lift(GetIndex(vs[0], vs[1], st.world), st)
      case Unary(op, _) => Lift(UnaryValue(p.host, op, vs[0], st.world), st)
      case Binary(op, _, _) => Lift(BinaryValue(p.host, op, vs[0], vs[1], st.world), st)
      case ListLit(_) => Lift(NewList(vs, st.world), st)
      case DictLit(_) => Lift(MakeDict(vs, [], st.world), st)
      case _ => Stopped(Err("", st))
  }

  /** An awaited builtin answers with the next resumption; awaiting anything else is
    just calling it. */
  function PerformCall(p: Source, fuel: nat, depth: nat, c: Expr, vs: seq<Value>, st: St): Res<Value>
    requires c.Call? && |vs| == |CallOperands(c, p.sigs)|
    decreases fuel, 0, 0, 1
  {
    match Resolve(c.callee, p.sigs)
    case Builtin(def) =>
      if !def.isAsync then Lift(CallNative(p.host, p.sigs.lenId, def.id, vs, st.world), st)
      else if st.inputs == [] then Stopped(Wait(def.id, vs, st))
      else Ok(st.inputs[0].value, St(st.env, st.inputs[0].world, 0, st.inputs[1..]))
    case UserFn(sig) => CallDecl(p, fuel, depth, sig.index, vs, st)
    case Method(_, m) => Lift(CallMethod(p.host, m, vs[0], vs[1..], st.world), st)
    case Unknown => Stopped(Err("", st))
  }

  /** A call of a user function, which runs with nothing but its parameters in scope. */
  function CallDecl(p: Source, fuel: nat, depth: nat, index: nat, args: seq<Value>, st: St): Res<Value>
    decreases fuel, 0, 0, 0
  {
    if index >= |p.decls| then Stopped(Err(NO_FUNCTION_ERROR, st))
    else if depth >= MAX_FRAMES then Stopped(Err(RECURSION_ERROR, st))
    else if fuel == 0 then Stopped(NoFuel)
    else
      var d := p.decls[index];
      match RunDecl(p, fuel - 1, depth + 1, d, st.(env := BindParams(d.params, args)))
      case Ok(v, st1) => Ok(v, st1.(env := st.env))
      case Stopped(Err(e, st1)) => Stopped(Err(e, st1.(env := st.env)))
      case Stopped(why) => Stopped(why)
  }

  /** A parameter without an argument is null. */
  function BindParams(params: seq<Param>, args: seq<Value>): seq<Binding> {
    if params == [] then []
    else if args == [] then [Binding(params[0].name, Null)] + BindParams(params[1..], [])
    else [Binding(params[0].name, args[0])] + BindParams(params[1..], args[1..])
  }

  function GuardStmts(guards: seq<Guard>): seq<Stmt> {
    if guards == [] then [] else [Require(guards[0].condition, guards[0].otherwise)] + GuardStmts(guards[1..])
  }

  /** A declaration returns null when its body ends without a `return`. */
  function RunDecl(p: Source, fuel: nat, depth: nat, d: Decl, st: St): Res<Value>
    decreases fuel, 2
  {
    var (g, st1) :- ExecStmts(p, fuel, depth, GuardStmts(d.guards), NoLoop, st);
    if g.Returning? then Ok(g.value, st1)
    else
      var (s, st2) :- ExecBlock(p, fuel, depth, d.body, NoLoop, st1);
      Ok(if s.Returning? then s.value else Null, st2)
  }

  // ─── Statements ────────────────────────────────────────────────────────────

  /** Leaving a scope drops the variables declared in it. */
  function Shrink(r: Res<Signal>, n: nat): Res<Signal> {
    match r
    case Ok(s, st) => Ok(s, st.(env := Leave(st.env, n)))
    case Stopped(Err(e, st)) => Stopped(Err(e, st.(env := Leave(st.env, n))))
    case Stopped(_) => r
  }

  /** One counted jump. */
  function Tick(st: St): Res<()> {
    if st.steps + 1 > STEP_LIMIT then Stopped(Err(STEP_LIMIT_ERROR, st)) else Ok((), st.(steps := st.steps + 1))
  }

  function ExecBlock(p: Source, fuel: nat, depth: nat, ss: seq<Stmt>, lc: Loop, st: St): Res<Signal>
    decreases fuel, 1, ss, 2
  {
    Shrink(ExecStmts(p, fuel, depth, ss, lc, st), |st.env|)
  }

  /** Statements in one scope.  A statement that does not end normally leaves it. */
  function ExecStmts(p: Source, fuel: nat, depth: nat, ss: seq<Stmt>, lc: Loop, st: St): Res<Signal>
    decreases fuel, 1, ss, 1
  {
    if ss == [] then Ok(Normal, st)
    else
      var (s, st1) :- ExecStmt(p, fuel, depth, ss[0], if |ss| == 1 then lc else NotLast(lc), st);
      if s != Normal then Ok(s, st1)
      else
        var r := ExecStmts(p, fuel, depth, ss[1..], lc, st1);
        if r.Ok? && r.value.Normal? then r else Shrink(r, |st.env|)
  }

  function ExecStmt(p: Source, fuel: nat, depth: nat, s: Stmt, lc: Loop, st: St): Res<Signal>
    decreases fuel, 1, s, 0
  {
    match s
    case Return(None) => Ok(Returning(Null), st)
    case Return(Some(e)) =>
      var (v, st1) :- EvalExpr(p, fuel, depth, e, st);
      Ok(Returning(v), st1)
    case ExprStmt(e) =>
      var (_, st1) :- EvalExpr(p, fuel, depth, e, st);
      Ok(Normal, st1)
    case VarDecl(_, name, init) =>
      var (v, st1) :- EvalExpr(p, fuel, depth, InitExpr(init), st);
      Ok(Normal, st1.(env := st1.env + [Binding(name, v)]))
    case Assign(t, e) => ExecAssign(p, fuel, depth, t, e, st)
    case If(c, body, orelse) =>
      var (cv, st1) :- EvalExpr(p, fuel, depth, c, st);
      if Truthy(p.host, cv, st1.world) then
        ExecBlock(p, fuel, depth, body, if orelse == [] then lc else NotLast(lc), st1)
      else ExecBlock(p, fuel, depth, orelse, lc, st1)
    case While(c, body) => ExecWhile(p, fuel, depth, c, body, st)
    case For(_, name, iterable, body) =>
      var (v, st1) :- EvalExpr(p, fuel, depth, iterable, st);
      var (l, st2) :- Lift(IterList(v, st1.world), st1);
      ExecFor(p, fuel, depth, name, body, l, 0, Wrap(|Items(st2.world.heap, ListAt(l))|), st2)
    case Require(c, otherwise) =>
      var (cv, st1) :- EvalExpr(p, fuel, depth, c, st);
      if Truthy(p.host, cv, st1.world) then Ok(Normal, st1)
      else
        var (v, st2) :- EvalExpr(p, fuel, depth, otherwise, st1);
        Ok(Returning(v), st2)
    case Try(body, name, orelse) =>
      (match ExecBlock(p, fuel, depth, body, NotLast(lc), st)
       case Stopped(Err(e, st1)) =>
         var (v, w) := ErrorValue(e, st1.world);
         var caught := if name == "" then [] else [Binding(name, v)];
         Shrink(ExecStmts(p, fuel, depth, orelse, lc, St(st1.env + caught, w, 0, st1.inputs)), |st.env|)
       case r => r)
    case Break => Ok(Breaking, st)
    case Continue =>
      if lc.InWhile? || (lc.InFor? && lc.last) then
        var (_, st1) :- Tick(st);
        Ok(Continuing, st1)
      else Ok(Continuing, st)
  }

  /** A variable declared without a value is null. */
  function InitExpr(init: Option<Expr>): Expr {
    match init case Some(e) => e case None => Lit(NullLit)
  }

  function ListAt(v: Value): nat { if v.List? then v.at else 0 }

  /** The operands of an assignment to a field or to an element. */
  function AssignOperands(t: Expr, e: Expr): (r: seq<Expr>)
    ensures WeightList(r) <= Weight(t) + Weight(e)
    ensures t.Index? ==> |r| == 3
    ensures t.Member? ==> |r| == 2
  {
    match t
    case Index(o, i) =>
      PairWeight(o, i);
      WeightAppend([o, i], [e]);
      assert [e][1..] == [];
      [o, i] + [e]
    case Member(o, _) => PairWeight(o, e); [o, e]
    case _ => assert [e][1..] == []; [e]
  }

  function ExecAssign(p: Source, fuel: nat, depth: nat, t: Expr, e: Expr, st: St): Res<Signal>
    decreases fuel, 0, Weight(t) + Weight(e) + 1, |AssignOperands(t, e)| + 2
  {
    match t
    case Ident(n) =>
      var (v, st1) :- EvalExpr(p, fuel, depth, e, st);
      Ok(Normal, st1.(env := Update(st1.env, n, v)))
    case Index(o, i) =>
      var (vs, st1) :- EvalList(p, fuel, depth, AssignOperands(t, e), st);
      var (_, st2) :- Lift(SetIndex(vs[0], vs[1], vs[2], st1.world), st1);
      Ok(Normal, st2)
    case Member(o, f) =>
      var (vs, st1) :- EvalList(p, fuel, depth, AssignOperands(t, e), st);
      var (_, st2) :- Lift(SetMember(f, vs[0], vs[1], st1.world), st1);
      Ok(Normal, st2)
    case _ => Stopped(Err("", st))
  }

  function ExecWhile(p: Source, fuel: nat, depth: nat, c: Expr, body: seq<Stmt>, st: St): Res<Signal>
    decreases fuel, 1, body, 3
  {
    var (cv, st1) :- EvalExpr(p, fuel, depth, c, st);
    if !Truthy(p.host, cv, st1.world) then Ok(Normal, st1)
    else
      var (s, st2) :- ExecBlock(p, fuel, depth, body, InWhile, st1);
      match s
      case Breaking => Ok(Normal, st2)
      case Returning(_) => Ok(s, st2)
      case _ =>
        var (_, st3) :- if s.Normal? then Tick(st2) else Ok((), st2);
        if fuel == 0 then Stopped(NoFuel) else ExecWhile(p, fuel - 1, depth, c, body, st3)
  }

  /** The iterations from `i` on.  The count was fixed before the first one, but the
    elements are read when their turn comes. */
  function ExecFor(p: Source, fuel: nat, depth: nat, name: string, body: seq<Stmt>, l: Value, i: nat, n: int, st: St)
    : Res<Signal>
    decreases fuel, 1, body, 3
  {
    if i >= n then Ok(Normal, st)
    else
      var (v, st1) :- Lift(GetIndex(l, Int(i), st.world), st);
      var (s, st2) :- Shrink(ExecBlock(p, fuel, depth, body, InFor(true), st1.(env := st1.env + [Binding(name, v)])),
                             |st.env|);
      match s
      case Breaking => Ok(Normal, st2)
      case Returning(_) => Ok(s, st2)
      case _ =>
        var (_, st3) :- Tick(st2);
        if fuel == 0 then Stopped(NoFuel) else ExecFor(p, fuel - 1, depth, name, body, l, i + 1, n, st3)
  }
}
