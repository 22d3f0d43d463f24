/** What compiled code looks like.  `ExprCode(ch, .., e, L, a)` says that the
  instructions of chunk `ch` from address `a` on are a compilation of `e`, when the
  variables in scope are `L`; `StmtCode` says it of a statement.  The addresses of
  the parts follow from `ExprSize` and `StmtSize`. */
module Layout {
  import opened Wrappers
  import opened Values
  import opened Ast
  import opened Bytecode
  import Reference

  /** A variable at compile time: its slot is its position. */
  datatype Local = Local(name: string, typ: string)

  /** Where the jumps of `break` and `continue` go. */
  datatype Targets = NoTargets | Targets(brk: nat, cont: nat)

  // ─── Names and slots ───────────────────────────────────────────────────────

  /** The slot of the innermost variable called `name`, or -1. */
  function ResolveLocal(L: seq<Local>, name: string): (r: int)
    ensures -1 <= r < |L|
    ensures r >= 0 ==> L[r].name == name
  {
    if L == [] then -1
    else if L[|L| - 1].name == name then |L| - 1
    else ResolveLocal(L[..|L| - 1], name)
  }

  function LocalType(L: seq<Local>, name: string): string {
    var i := ResolveLocal(L, name);
    if i < 0 then "" else L[i].typ
  }

  /** True only of expressions whose declared types say `int`. */
  predicate EsInt(e: Expr, L: seq<Local>) {
    match e
    case Lit(l) => l.IntLit?
    case Ident(n) => LocalType(L, n) == "int"
    case Binary(op, l, r) => (op.Plus? || op.Minus? || op.Times?) && EsInt(l, L) && EsInt(r, L)
    case _ => false
  }

  function Generic(op: BinaryOp): Instr {
    match op
    case Plus => OpAdd
    case Minus => OpSub
    case Times => OpMul
    case Over => OpDiv
    case Percent => OpMod
    case Eq => OpEq
    case Ne => OpNe
    case Lt => OpLt
    case Le => OpLe
    case Gt => OpGt
    case Ge => OpGe
    case And => OpPop
    case Or => OpPop
  }

  function Specialised(i: Instr): Instr {
    match i
    case OpAdd => OpAddInt
    case OpSub => OpSubInt
    case OpMul => OpMulInt
    case OpLt => OpLtInt
    case OpLe => OpLeInt
    case OpGt => OpGtInt
    case OpGe => OpGeInt
    case _ => i
  }

  function BinaryInstr(op: BinaryOp, l: Expr, r: Expr, L: seq<Local>): Instr {
    if EsInt(l, L) && EsInt(r, L) then Specialised(Generic(op)) else Generic(op)
  }

  function StepInstr(plus: bool): Instr { if plus then OpAdd else OpSub }

  // ─── Sizes ─────────────────────────────────────────────────────────────────

  function ExprSize(e: Expr, sg: Sigs): nat
    decreases Weight(e), 0
  {
    if e.Ternary? then ExprSize(e.cond, sg) + 1 + ExprSize(e.yes, sg) + 1 + ExprSize(e.no, sg)
    else if e.Step? then StepSize(e.post, e.target, sg)
    else if Reference.IsShortCircuit(e) then ExprSize(e.lhs, sg) + 1 + ExprSize(e.rhs, sg)
    else if Reference.IsOperationExpr(e) then ListSize(Reference.Operands(e, sg), sg) + 1
    else 1
  }

  function ListSize(es: seq<Expr>, sg: Sigs): nat
    decreases WeightList(es), |es| + 1
  {
    if es == [] then 0 else ExprSize(es[0], sg) + ListSize(es[1..], sg)
  }

  function StepSize(post: bool, t: Expr, sg: Sigs): nat
    decreases Weight(t) + 1, 0
  {
    match t
    case Member(o, _) => ExprSize(o, sg) + 9 + (if post then 2 else 0)
    case Index(o, i) => ExprSize(o, sg) + 1 + ExprSize(i, sg) + 11 + (if post then 2 else 0)
    case _ => 5
  }

  function StmtSize(s: Stmt, sg: Sigs): nat {
    match s
    case Return(None) => 1
    case Return(Some(e)) => ExprSize(e, sg) + 1
    case ExprStmt(e) => ExprSize(e, sg) + 1
    case VarDecl(_, _, init) => ExprSize(Reference.InitExpr(init), sg) + 1
    case Assign(t, e) =>
      if t.Ident? then ExprSize(e, sg) + 1 else ListSize(Reference.AssignOperands(t, e), sg) + 2
    case If(c, body, orelse) =>
      ExprSize(c, sg) + 1 + BlockSize(body, sg) + (if orelse == [] then 0 else 1 + BlockSize(orelse, sg))
    case While(c, body) => ExprSize(c, sg) + 1 + BlockSize(body, sg) + 1
    case For(_, _, it, body) => ExprSize(it, sg) + 7 + 8 + BlockSize(body, sg) + 5
    case Require(c, otherwise) => ExprSize(c, sg) + 2 + ExprSize(otherwise, sg) + 1
    case Try(body, _, orelse) => BlockSize(body, sg) + 2 + BlockSize(orelse, sg)
    case Break => 1
    case Continue => 1
  }

  function BlockSize(ss: seq<Stmt>, sg: Sigs): nat {
    if ss == [] then 0 else StmtSize(ss[0], sg) + BlockSize(ss[1..], sg)
  }

  // ─── Code ──────────────────────────────────────────────────────────────────

  predicate Has(ch: Chunk, pc: nat, i: Instr) { pc < |ch.code| && ch.code[pc] == i }

  predicate HasConst(ch: Chunk, pc: nat, v: Value) {
    pc < |ch.code| && ch.code[pc].OpConst? && IsConstant(ch, ch.code[pc].k, v)
  }

  predicate IsConstant(ch: Chunk, k: nat, v: Value) { k < |ch.constants| && ch.constants[k] == v }

  predicate HasGetMember(ch: Chunk, pc: nat, field: string) {
    pc < |ch.code| && ch.code[pc].OpGetMember? && IsConstant(ch, ch.code[pc].k, Str(field))
  }

  predicate HasSetMember(ch: Chunk, pc: nat, field: string) {
    pc < |ch.code| && ch.code[pc].OpSetMember? && IsConstant(ch, ch.code[pc].k, Str(field))
  }

  predicate HasLoad(ch: Chunk, pc: nat, L: seq<Local>, name: string) {
    !Hidden(name) && 0 <= ResolveLocal(L, name) < ch.numLocals && Has(ch, pc, OpLoadLocal(ResolveLocal(L, name)))
  }

  predicate HasStore(ch: Chunk, pc: nat, L: seq<Local>, name: string) {
    !Hidden(name) && 0 <= ResolveLocal(L, name) < ch.numLocals && Has(ch, pc, OpStoreLocal(ResolveLocal(L, name)))
  }

  /** The instruction at `pc` does what operation `e` does with its operands. */
  predicate HasOperation(ch: Chunk, pc: nat, sg: Sigs, e: Expr, L: seq<Local>)
    requires Reference.IsOperationExpr(e)
  {
    if Reference.IsCall(e) then HasCall(ch, pc, sg, Reference.TheCall(e))
    else
      match e
      case Member(_, f) => HasGetMember(ch, pc, f)
      case Index(_, _) => Has(ch, pc, OpGetIndex)
      case Unary(op, _) => Has(ch, pc, if op.NotOp? then OpNot else OpNeg)
      case Binary(op, l, r) => Has(ch, pc, BinaryInstr(op, l, r, L))
      case ListLit(items) => Has(ch, pc, OpMakeList(|items|))
      case DictLit(entries) => Has(ch, pc, OpMakeDict(|entries|))
      case _ => false
  }

  predicate HasCall(ch: Chunk, pc: nat, sg: Sigs, c: Expr)
    requires c.Call?
  {
    var n := |Reference.CallOperands(c, sg)|;
    match Resolve(c.callee, sg)
    case Builtin(def) => Has(ch, pc, if def.isAsync then OpCallAsync(def.id, n) else OpCallNative(def.id, n))
    case UserFn(sig) => n == |sig.defaults| && Has(ch, pc, OpCallFunction(sig.index, n))
    case Method(_, m) =>
      pc < |ch.code| && ch.code[pc].OpCallMethod? && ch.code[pc].argc + 1 == n && IsConstant(ch, ch.code[pc].k, Str(m))
    case Unknown => false
  }

  predicate ExprCode(ch: Chunk, sg: Sigs, e: Expr, L: seq<Local>, a: nat)
    decreases Weight(e), 0
  {
    if e.Lit? then HasConst(ch, a, LiteralValue(e.lit))
    else if e.Ident? then HasLoad(ch, a, L, e.name)
    else if e.This? then HasLoad(ch, a, L, "this")
    else if e.Ternary? then TernaryCode(ch, sg, e.cond, e.yes, e.no, L, a)
    else if e.Step? then StepCode(ch, sg, e.post, e.plus, e.target, L, a)
    else if Reference.IsShortCircuit(e) then ShortCircuitCode(ch, sg, e.bop.Or?, e.lhs, e.rhs, L, a)
    else Reference.IsOperationExpr(e) && OperationCode(ch, sg, e, L, a)
  }

  predicate TernaryCode(ch: Chunk, sg: Sigs, cond: Expr, yes: Expr, no: Expr, L: seq<Local>, a: nat)
    decreases Weight(cond) + Weight(yes) + Weight(no) + 1, 0
  {
    var b := a + ExprSize(cond, sg);
    var c := b + 1 + ExprSize(yes, sg);
    && ExprCode(ch, sg, cond, L, a) && Has(ch, b, OpJumpIfFalse(c + 1))
    && ExprCode(ch, sg, yes, L, b + 1) && Has(ch, c, OpJump(c + 1 + ExprSize(no, sg)))
    && ExprCode(ch, sg, no, L, c + 1)
  }

  predicate ShortCircuitCode(ch: Chunk, sg: Sigs, isOr: bool, lhs: Expr, rhs: Expr, L: seq<Local>, a: nat)
    decreases Weight(lhs) + Weight(rhs) + 1, 0
  {
    var b := a + ExprSize(lhs, sg);
    var c := b + 1 + ExprSize(rhs, sg);
    && ExprCode(ch, sg, lhs, L, a) && Has(ch, b, if isOr then OpJumpIfTruePeek(c) else OpJumpIfFalsePeek(c))
    && ExprCode(ch, sg, rhs, L, b + 1)
  }

  predicate OperationCode(ch: Chunk, sg: Sigs, e: Expr, L: seq<Local>, a: nat)
    requires Reference.IsOperationExpr(e)
    decreases Weight(e), -1
  {
    && ListCode(ch, sg, Reference.Operands(e, sg), L, a)
    && HasOperation(ch, a + ListSize(Reference.Operands(e, sg), sg), sg, e, L)
  }

  predicate ListCode(ch: Chunk, sg: Sigs, es: seq<Expr>, L: seq<Local>, a: nat)
    decreases WeightList(es), |es| + 1
  {
    es == [] || (ExprCode(ch, sg, es[0], L, a) && ListCode(ch, sg, es[1..], L, a + ExprSize(es[0], sg)))
  }

  /** The hidden variables of a step. */
  const RECEIVER := Local(" recep", "")
  const PREVIOUS := Local(" previo", "")
  const CONTAINER := Local(" contened", "")
  const POSITION := Local(" indice", "")

  predicate StepCode(ch: Chunk, sg: Sigs, post: bool, plus: bool, t: Expr, L: seq<Local>, a: nat)
    decreases Weight(t) + 1, 0
  {
    match t
    case Ident(name) => NameStepCode(ch, post, plus, name, L, a)
    case Member(o, f) =>
      var b := a + ExprSize(o, sg);
      ExprCode(ch, sg, o, L, a) && FieldStepCode(ch, post, plus, f, |L|, b)
    case Index(o, i) =>
      var c := a + ExprSize(o, sg);
      var b := c + 1 + ExprSize(i, sg);
      && ExprCode(ch, sg, o, L, a) && Has(ch, c, OpStoreLocal(|L|)) && ExprCode(ch, sg, i, L + [CONTAINER], c + 1)
      && ElementStepCode(ch, post, plus, |L|, b)
    case _ => false
  }

  /** A variable is read twice rather than copied on the stack. */
  predicate NameStepCode(ch: Chunk, post: bool, plus: bool, name: string, L: seq<Local>, a: nat) {
    var b := if post then a + 1 else a;
    && HasLoad(ch, a, L, name) && HasLoad(ch, b, L, name) && HasConst(ch, b + 1, Int(1))
    && Has(ch, b + 2, StepInstr(plus)) && HasStore(ch, b + 3, L, name)
    && (post || HasLoad(ch, a + 4, L, name))
  }

  /** The object goes to slot `n`, the value of its field to slot `n + 1`. */
  predicate FieldStepCode(ch: Chunk, post: bool, plus: bool, f: string, n: nat, b: nat) {
    && n + 2 <= ch.numLocals && Has(ch, b, OpStoreLocal(n))
    && Has(ch, b + 1, OpLoadLocal(n)) && HasGetMember(ch, b + 2, f) && Has(ch, b + 3, OpStoreLocal(n + 1))
    && Has(ch, b + 4, OpLoadLocal(n)) && Has(ch, b + 5, OpLoadLocal(n + 1)) && HasConst(ch, b + 6, Int(1))
    && Has(ch, b + 7, StepInstr(plus)) && HasSetMember(ch, b + 8, f)
    && (post ==> Has(ch, b + 9, OpPop) && Has(ch, b + 10, OpLoadLocal(n + 1)))
  }

  /** The container is in slot `n`; the index goes to slot `n + 1`, the element to
    slot `n + 2`. */
  predicate ElementStepCode(ch: Chunk, post: bool, plus: bool, n: nat, b: nat) {
    && n + 3 <= ch.numLocals && Has(ch, b, OpStoreLocal(n + 1))
    && Has(ch, b + 1, OpLoadLocal(n)) && Has(ch, b + 2, OpLoadLocal(n + 1)) && Has(ch, b + 3, OpGetIndex)
    && Has(ch, b + 4, OpStoreLocal(n + 2))
    && Has(ch, b + 5, OpLoadLocal(n)) && Has(ch, b + 6, OpLoadLocal(n + 1)) && Has(ch, b + 7, OpLoadLocal(n + 2))
    && HasConst(ch, b + 8, Int(1)) && Has(ch, b + 9, StepInstr(plus)) && Has(ch, b + 10, OpSetIndex)
    && (post ==> Has(ch, b + 11, OpPop) && Has(ch, b + 12, OpLoadLocal(n + 2)))
  }

  // ─── Statements ────────────────────────────────────────────────────────────

  /** A statement that is an expression and one instruction. */
  predicate IsSimple(s: Stmt) {
    (s.Return? && s.result.Some?) || s.ExprStmt? || s.VarDecl? || (s.Assign? && s.target.Ident?)
  }

  function SimpleExpr(s: Stmt): Expr
    requires IsSimple(s)
  {
    match s
    case Return(e) => e.value
    case ExprStmt(e) => e
    case VarDecl(_, _, init) => Reference.InitExpr(init)
    case Assign(_, e) => e
    case _ => Lit(NullLit)
  }

  /** The variables in scope after a statement. */
  function After(s: Stmt, L: seq<Local>): seq<Local> {
    if s.VarDecl? then L + [Local(s.name, s.typ)] else L
  }

  /** The variables in scope after statements of one block. */
  function AfterAll(ss: seq<Stmt>, L: seq<Local>): seq<Local> {
    if ss == [] then L else AfterAll(ss[1..], After(ss[0], L))
  }

  /** The variables of a `for`: three hidden ones, and the user's. */
  function ForLocals(s: Stmt, L: seq<Local>): seq<Local>
    requires s.For?
  {
    L + [Local(" items", ""), Local(" count", ""), Local(" index", ""), Local(s.name, s.typ)]
  }

  function CatchLocals(name: string, L: seq<Local>): seq<Local> {
    if name == "" then L else L + [Local(name, "")]
  }

  predicate StmtCode(ch: Chunk, sg: Sigs, s: Stmt, L: seq<Local>, a: nat, t: Targets)
    decreases s, 0
  {
    var n := |L|;
    match s
    case Return(None) => Has(ch, a, OpReturnNull)
    case Return(Some(e)) => ExprCode(ch, sg, e, L, a) && Has(ch, a + ExprSize(e, sg), OpReturn)
    case ExprStmt(e) => ExprCode(ch, sg, e, L, a) && Has(ch, a + ExprSize(e, sg), OpPop)
    case VarDecl(_, name, init) =>
      var e := Reference.InitExpr(init);
      && n < ch.numLocals && !Hidden(name)
      && ExprCode(ch, sg, e, L, a) && Has(ch, a + ExprSize(e, sg), OpStoreLocal(n))
    case Assign(tgt, e) =>
      if tgt.Ident? then ExprCode(ch, sg, e, L, a) && HasStore(ch, a + ExprSize(e, sg), L, tgt.name)
      else
        var es := Reference.AssignOperands(tgt, e);
        var b := a + ListSize(es, sg);
        && ListCode(ch, sg, es, L, a)
        && ((tgt.Index? && Has(ch, b, OpSetIndex)) || (tgt.Member? && HasSetMember(ch, b, tgt.field)))
        && Has(ch, b + 1, OpPop)
    case If(c, body, orelse) =>
      var b := a + ExprSize(c, sg);
      var e := b + 1 + BlockSize(body, sg);
      && ExprCode(ch, sg, c, L, a) && StmtsCode(ch, sg, body, L, b + 1, t)
      && (if orelse == [] then Has(ch, b, OpJumpIfFalse(e))
          else
            && Has(ch, b, OpJumpIfFalse(e + 1)) && Has(ch, e, OpJump(e + 1 + BlockSize(orelse, sg)))
            && StmtsCode(ch, sg, orelse, L, e + 1, t))
    case While(c, body) =>
      var b := a + ExprSize(c, sg);
      var e := b + 1 + BlockSize(body, sg);
      && ExprCode(ch, sg, c, L, a) && Has(ch, b, OpJumpIfFalse(e + 1))
      && StmtsCode(ch, sg, body, L, b + 1, Targets(e + 1, a)) && Has(ch, e, OpJump(a))
    case For(_, name, it, body) =>
      var b := a + ExprSize(it, sg);
      && ExprCode(ch, sg, it, L, a) && ForHead(ch, b, n)
      && n + 4 <= ch.numLocals && !Hidden(name)
      && ForTest(ch, b + 7, n, b + 15 + BlockSize(body, sg) + 5)
      && StmtsCode(ch, sg, body, ForLocals(s, L), b + 15,
                   Targets(b + 15 + BlockSize(body, sg) + 5, b + 15 + BlockSize(body, sg)))
      && ForNext(ch, b + 15 + BlockSize(body, sg), n, b + 7)
      && HasLen(ch, b + 3, sg)
    case Require(c, otherwise) =>
      var b := a + ExprSize(c, sg);
      var e := b + 2 + ExprSize(otherwise, sg);
      && ExprCode(ch, sg, c, L, a) && Has(ch, b, OpJumpIfFalse(b + 2)) && Has(ch, b + 1, OpJump(e + 1))
      && ExprCode(ch, sg, otherwise, L, b + 2) && Has(ch, e, OpReturn)
    case Try(body, name, orelse) =>
      var e := a + BlockSize(body, sg);
      && StmtsCode(ch, sg, body, L, a, t) && Has(ch, e, OpJump(e + 2 + BlockSize(orelse, sg)))
      && (if name == "" then Has(ch, e + 1, OpPop)
          else !Hidden(name) && n < ch.numLocals && Has(ch, e + 1, OpStoreLocal(n)))
      && StmtsCode(ch, sg, orelse, CatchLocals(name, L), e + 2, t)
    case Break => t.Targets? && Has(ch, a, OpJump(t.brk))
    case Continue => t.Targets? && Has(ch, a, OpJump(t.cont))
  }

  /** The list, its length and the index go to slots `n`, `n + 1` and `n + 2`. */
  predicate ForHead(ch: Chunk, b: nat, n: nat) {
    && Has(ch, b, OpIterList) && Has(ch, b + 1, OpStoreLocal(n))
    && Has(ch, b + 2, OpLoadLocal(n)) && Has(ch, b + 4, OpStoreLocal(n + 1))
    && HasConst(ch, b + 5, Int(0)) && Has(ch, b + 6, OpStoreLocal(n + 2))
  }

  predicate HasLen(ch: Chunk, pc: nat, sg: Sigs) { Has(ch, pc, OpCallNative(sg.lenId, 1)) }

  predicate ForTest(ch: Chunk, b: nat, n: nat, end: nat) {
    && Has(ch, b, OpLoadLocal(n + 2)) && Has(ch, b + 1, OpLoadLocal(n + 1)) && Has(ch, b + 2, OpLt)
    && Has(ch, b + 3, OpJumpIfFalse(end))
    && Has(ch, b + 4, OpLoadLocal(n)) && Has(ch, b + 5, OpLoadLocal(n + 2)) && Has(ch, b + 6, OpGetIndex)
    && Has(ch, b + 7, OpStoreLocal(n + 3))
  }

  predicate ForNext(ch: Chunk, b: nat, n: nat, start: nat) {
    && Has(ch, b, OpLoadLocal(n + 2)) && HasConst(ch, b + 1, Int(1)) && Has(ch, b + 2, OpAdd)
    && Has(ch, b + 3, OpStoreLocal(n + 2)) && Has(ch, b + 4, OpJump(start))
  }

  predicate StmtsCode(ch: Chunk, sg: Sigs, ss: seq<Stmt>, L: seq<Local>, a: nat, t: Targets)
    decreases ss, 1
  {
    ss == []
    || (StmtCode(ch, sg, ss[0], L, a, t)
        && StmtsCode(ch, sg, ss[1..], After(ss[0], L), a + StmtSize(ss[0], sg), t))
  }

  // ─── try ranges ────────────────────────────────────────────────────────────

  /** The ranges that a statement at address `a` adds to the table, in order: those
    of its parts come before its own. */
  function Ranges(s: Stmt, sg: Sigs, a: nat): seq<TryRange>
    decreases s, 0
  {
    match s
    case If(c, body, orelse) =>
      var b := a + ExprSize(c, sg) + 1;
      RangesIn(body, sg, b) + RangesIn(orelse, sg, b + BlockSize(body, sg) + 1)
    case While(c, body) => RangesIn(body, sg, a + ExprSize(c, sg) + 1)
    case For(_, _, it, body) => RangesIn(body, sg, a + ExprSize(it, sg) + 15)
    case Try(body, _, orelse) =>
      var e := a + BlockSize(body, sg);
      RangesIn(body, sg, a) + [TryRange(a, e, e + 1)] + RangesIn(orelse, sg, e + 2)
    case _ => []
  }

  function RangesIn(ss: seq<Stmt>, sg: Sigs, a: nat): seq<TryRange>
    decreases ss, 1
  {
    if ss == [] then [] else Ranges(ss[0], sg, a) + RangesIn(ss[1..], sg, a + StmtSize(ss[0], sg))
  }

  // ─── Declarations ──────────────────────────────────────────────────────────

  function ParamLocals(params: seq<Param>): (r: seq<Local>)
    ensures |r| == |params|
  {
    if params == [] then []
    else
      var n := |params| - 1;
      ParamLocals(params[..n]) + [Local(params[n].name, params[n].typ)]
  }

  function DeclSize(decl: Decl, sg: Sigs): nat {
    BlockSize(Reference.GuardStmts(decl.guards), sg) + BlockSize(decl.body, sg)
  }

  /** Chunk `ch` is the compilation of `decl`: the guards, the body, and a final
    `return` of null. */
  predicate DeclCode(ch: Chunk, sg: Sigs, decl: Decl) {
    var L := ParamLocals(decl.params);
    var gs := Reference.GuardStmts(decl.guards);
    var b := BlockSize(gs, sg);
    && |decl.params| <= ch.numLocals
    && (forall i :: 0 <= i < |decl.params| ==> !Hidden(decl.params[i].name))
    && StmtsCode(ch, sg, gs, L, 0, NoTargets)
    && StmtsCode(ch, sg, decl.body, L, b, NoTargets)
    && Has(ch, DeclSize(decl, sg), OpReturnNull) && |ch.code| == DeclSize(decl, sg) + 1
    && ch.ranges == RangesIn(decl.body, sg, b)
  }
}
