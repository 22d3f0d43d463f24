/** The syntax trees the compiler starts from, and what the compiler knows about
  the names a program can call. */
module Ast {
  import opened Wrappers
  import opened Values

  datatype Literal = StrLit(s: string) | IntLit(i: int) | FloatLit(bits: int) | BoolLit(b: bool) | NullLit

  function LiteralValue(l: Literal): Value {
    match l
    case StrLit(s) => Str(s)
    case IntLit(i) => Int(i)
    case FloatLit(d) => Float(d)
    case BoolLit(b) => Bool(b)
    case NullLit => Null
  }

  datatype UnaryOp = NotOp | NegOp

  datatype BinaryOp = Plus | Minus | Times | Over | Percent | Eq | Ne | Lt | Le | Gt | Ge | And | Or

  datatype Entry = Entry(key: Expr, value: Expr)

  datatype Expr =
    | Lit(lit: Literal)
    | Ident(name: string)
    | This
    | Member(obj: Expr, field: string)
    | Index(obj: Expr, index: Expr)
    | Call(callee: Expr, args: seq<Expr>)
    | Unary(uop: UnaryOp, operand: Expr)
    | Binary(bop: BinaryOp, lhs: Expr, rhs: Expr)
    | Ternary(cond: Expr, yes: Expr, no: Expr)
    | Await(call: Expr)
    | Step(post: bool, plus: bool, target: Expr)   // ++x, --x, x++ and x--
    | ListLit(items: seq<Expr>)
    | DictLit(entries: seq<Entry>)

  datatype Stmt =
    | Return(result: Option<Expr>)
    | ExprStmt(expr: Expr)
    | VarDecl(typ: string, name: string, init: Option<Expr>)
    | Assign(target: Expr, value: Expr)
    | If(cond: Expr, body: seq<Stmt>, orelse: seq<Stmt>)
    | While(cond: Expr, body: seq<Stmt>)
    | For(typ: string, name: string, iterable: Expr, body: seq<Stmt>)
    | Require(cond: Expr, otherwise: Expr)
    | Try(body: seq<Stmt>, name: string, orelse: seq<Stmt>)   // no name: ""
    | Break
    | Continue

  datatype Param = Param(name: string, typ: string)

  datatype Guard = Guard(condition: Expr, otherwise: Expr)

  /** A route with the guards of its groups, outermost first, or a user function,
    which has none. */
  datatype Decl = Decl(params: seq<Param>, guards: seq<Guard>, body: seq<Stmt>)

  /** A builtin: `maxArgs` is -1 when there is no limit. */
  datatype NativeDef = NativeDef(id: nat, minArgs: int, maxArgs: int, isAsync: bool)

  /** A user function: one entry per parameter, `None` when it has no default. */
  datatype FnSig = FnSig(index: nat, required: nat, defaults: seq<Option<Literal>>)

  datatype Sigs = Sigs(natives: map<string, NativeDef>, functions: map<string, FnSig>, lenId: nat)

  /** The hidden variables of a desugared construct carry a leading space, which no
    identifier of the language can contain. */
  predicate Hidden(name: string) { name != "" && name[0] == ' ' }

  // ─── What a call refers to ─────────────────────────────────────────────────

  datatype Target =
    | Builtin(def: NativeDef)
    | UserFn(sig: FnSig)
    | Method(receiver: Expr, name: string)
    | Unknown

  /** Builtins come first; a user function cannot take the name of one. */
  function Resolve(callee: Expr, sg: Sigs): Target {
    match callee
    case Ident(n) =>
      if n in sg.natives then Builtin(sg.natives[n])
      else if n in sg.functions then UserFn(sg.functions[n])
      else Unknown
    case Member(o, m) => Method(o, m)
    case _ => Unknown
  }

  function DefaultArgs(defaults: seq<Option<Literal>>): seq<Expr> {
    if defaults == [] then []
    else (match defaults[0] case Some(l) => [Lit(l)] case None => [Lit(NullLit)]) + DefaultArgs(defaults[1..])
  }

  /** The arguments of a call to a user function, missing ones filled in. */
  function FullArgs(args: seq<Expr>, sig: FnSig): seq<Expr> {
    if |args| <= |sig.defaults| then args + DefaultArgs(sig.defaults[|args|..]) else args
  }

  // ─── A measure for recursion over expressions ──────────────────────────────

  function Weight(e: Expr): nat {
    match e
    case Lit(_) => 0
    case Ident(_) => 1
    case This => 1
    case Member(o, _) => 2 + Weight(o)
    case Index(o, i) => 3 + Weight(o) + Weight(i)
    case Call(f, args) => 4 + Weight(f) + WeightList(args)
    case Unary(_, x) => 2 + Weight(x)
    case Binary(_, l, r) => 3 + Weight(l) + Weight(r)
    case Ternary(c, y, n) => 4 + Weight(c) + Weight(y) + Weight(n)
    case Await(c) => 1 + Weight(c)
    case Step(_, _, t) => 2 + Weight(t)
    case ListLit(items) => 1 + WeightList(items)
    case DictLit(entries) => 1 + WeightEntries(entries)
  }

  function WeightList(es: seq<Expr>): nat {
    if es == [] then 0 else Weight(es[0]) + WeightList(es[1..])
  }

  function WeightEntries(es: seq<Entry>): nat {
    if es == [] then 0 else WeightEntry(es[0]) + WeightEntries(es[1..])
  }

  function WeightEntry(en: Entry): nat {
    Weight(en.key) + Weight(en.value)
  }

  lemma {:induction false} WeightAppend(a: seq<Expr>, b: seq<Expr>)
    ensures WeightList(a + b) == WeightList(a) + WeightList(b)
  {
    if a == [] {
      assert a + b == b;
    } else {
      assert (a + b)[1..] == a[1..] + b;
      WeightAppend(a[1..], b);
    }
  }

  function Flatten(es: seq<Entry>): (r: seq<Expr>)
    ensures WeightList(r) == WeightEntries(es) && |r| == 2 * |es|
  {
    if es == [] then []
    else
      var pair := [es[0].key, es[0].value];
      assert pair[1..] == [es[0].value] && pair[1..][1..] == [];
      WeightAppend(pair, Flatten(es[1..]));
      pair + Flatten(es[1..])
  }
}
