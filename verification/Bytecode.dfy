/** The instructions of the virtual machine and the chunks they come in. */
module Bytecode {
  import opened Values

  datatype Instr =
    | OpConst(k: nat)
    | OpLoadLocal(slot: nat)
    | OpStoreLocal(slot: nat)
    | OpPop
    | OpAdd | OpSub | OpMul | OpDiv | OpMod | OpNeg
    | OpEq | OpNe | OpLt | OpLe | OpGt | OpGe
    | OpNot
    | OpAddInt | OpSubInt | OpMulInt
    | OpLtInt | OpLeInt | OpGtInt | OpGeInt
    | OpJump(to: nat)
    | OpJumpIfFalse(to: nat)
    | OpJumpIfFalsePeek(to: nat)
    | OpJumpIfTruePeek(to: nat)
    | OpMakeList(count: nat)
    | OpMakeDict(count: nat)
    | OpGetIndex
    | OpSetIndex
    | OpIterList
    | OpGetMember(k: nat)
    | OpSetMember(k: nat)
    | OpCallFunction(index: nat, argc: nat)
    | OpCallMethod(k: nat, argc: nat)
    | OpCallNative(id: nat, argc: nat)
    | OpCallAsync(id: nat, argc: nat)
    | OpReturn
    | OpReturnNull

  predicate IsJump(i: Instr) {
    i.OpJump? || i.OpJumpIfFalse? || i.OpJumpIfFalsePeek? || i.OpJumpIfTruePeek?
  }

  /** The jump `i` with its target filled in. */
  function Retarget(i: Instr, target: nat): Instr {
    match i
    case OpJump(_) => OpJump(target)
    case OpJumpIfFalse(_) => OpJumpIfFalse(target)
    case OpJumpIfFalsePeek(_) => OpJumpIfFalsePeek(target)
    case OpJumpIfTruePeek(_) => OpJumpIfTruePeek(target)
    case _ => i
  }

  /** The instructions in [begin, end) are covered by the `catch` at `handler`. */
  datatype TryRange = TryRange(begin: nat, end: nat, handler: nat)

  datatype Chunk = Chunk(
    code: seq<Instr>,
    constants: seq<Value>,
    ranges: seq<TryRange>,
    numLocals: nat,
    hasAwait: bool)

  /** `emit`: one more instruction. */
  function Appended(ch: Chunk, op: Instr): Chunk { ch.(code := ch.code + [op]) }

  /** `patch`: the jump at `at` goes to `target`. */
  function PatchedAt(ch: Chunk, at: nat, target: nat): Chunk
    requires at < |ch.code|
  {
    ch.(code := ch.code[at := Retarget(ch.code[at], target)])
  }

  // ─── Instructions that take operands and leave one value ───────────────────

  /** The instructions that only apply a value operation to the top of the stack. */
  predicate IsOperation(i: Instr) {
    match i
    case OpConst(_) => false
    case OpLoadLocal(_) => false
    case OpStoreLocal(_) => false
    case OpPop => false
    case OpJump(_) => false
    case OpJumpIfFalse(_) => false
    case OpJumpIfFalsePeek(_) => false
    case OpJumpIfTruePeek(_) => false
    case OpCallFunction(_, _) => false
    case OpCallAsync(_, _) => false
    case OpReturn => false
    case OpReturnNull => false
    case _ => true
  }

  /** How many operands an operation takes. */
  function Arity(i: Instr): nat {
    match i
    case OpNeg => 1
    case OpNot => 1
    case OpIterList => 1
    case OpGetMember(_) => 1
    case OpSetIndex => 3
    case OpMakeList(n) => n
    case OpMakeDict(n) => 2 * n
    case OpCallMethod(_, argc) => argc + 1
    case OpCallNative(_, argc) => argc
    case _ => 2
  }

  function Name(ch: Chunk, k: nat): string {
    if k < |ch.constants| && ch.constants[k].Str? then ch.constants[k].s else ""
  }

  /** The generic form of a specialised instruction. */
  function Unspecialised(i: Instr): Instr {
    match i
    case OpAddInt => OpAdd
    case OpSubInt => OpSub
    case OpMulInt => OpMul
    case OpLtInt => OpLt
    case OpLeInt => OpLe
    case OpGtInt => OpGt
    case OpGeInt => OpGe
    case _ => i
  }

  /** What `i` does to its operands, in the order they were pushed.  A specialised
    instruction looks at the types first and falls back on the generic one. */
  function Perform(h: Host, lenId: nat, ch: Chunk, i: Instr, args: seq<Value>, w: World): Outcome
    requires IsOperation(i) && |args| == Arity(i)
  {
    match i
    case OpAdd => Add(h, args[0], args[1], w)
    case OpSub => Arithmetic(h, SUB, args[0], args[1], w)
    case OpMul => Arithmetic(h, MUL, args[0], args[1], w)
    case OpDiv => Arithmetic(h, DIV, args[0], args[1], w)
    case OpMod => Arithmetic(h, MOD, args[0], args[1], w)
    case OpNeg => Negate(h, args[0], w)
    case OpEq => Good(Bool(Equal(h, args[0], args[1], w)), w)
    case OpNe => Good(Bool(!Equal(h, args[0], args[1], w)), w)
    case OpLt => Compare(h, LT, args[0], args[1], w)
    case OpLe => Compare(h, LE, args[0], args[1], w)
    case OpGt => Compare(h, GT, args[0], args[1], w)
    case OpGe => Compare(h, GE, args[0], args[1], w)
    case OpNot => Good(Bool(!Truthy(h, args[0], w)), w)
    case OpAddInt =>
      if args[0].Int? && args[1].Int? then Good(Int(Wrap(args[0].i + args[1].i)), w)
      else Add(h, args[0], args[1], w)
    case OpSubInt =>
      if args[0].Int? && args[1].Int? then Good(Int(Wrap(args[0].i - args[1].i)), w)
      else Arithmetic(h, SUB, args[0], args[1], w)
    case OpMulInt =>
      if args[0].Int? && args[1].Int? then Good(Int(Wrap(args[0].i * args[1].i)), w)
      else Arithmetic(h, MUL, args[0], args[1], w)
    case OpLtInt =>
      if args[0].Int? && args[1].Int? then Good(Bool(args[0].i < args[1].i), w)
      else Compare(h, LT, args[0], args[1], w)
    case OpLeInt =>
      if args[0].Int? && args[1].Int? then Good(Bool(args[0].i <= args[1].i), w)
      else Compare(h, LE, args[0], args[1], w)
    case OpGtInt =>
      if args[0].Int? && args[1].Int? then Good(Bool(args[0].i > args[1].i), w)
      else Compare(h, GT, args[0], args[1], w)
    case OpGeInt =>
      if args[0].Int? && args[1].Int? then Good(Bool(args[0].i >= args[1].i), w)
      else Compare(h, GE, args[0], args[1], w)
    case OpMakeList(_) => NewList(args, w)
    case OpMakeDict(_) => MakeDict(args, [], w)
    case OpGetIndex => GetIndex(args[0], args[1], w)
    case OpSetIndex => SetIndex(args[0], args[1], args[2], w)
    case OpIterList => IterList(args[0], w)
    case OpGetMember(k) => GetMember(Name(ch, k), args[0], w)
    case OpSetMember(k) => SetMember(Name(ch, k), args[0], args[1], w)
    case OpCallMethod(k, _) => CallMethod(h, Name(ch, k), args[0], args[1..], w)
    case OpCallNative(id, _) => CallNative(h, lenId, id, args, w)
  }

  /** The guard of a specialised instruction makes it equal to the generic one on
    every operand, integers or not. */
  lemma SpecialisedIsGeneric(h: Host, lenId: nat, ch: Chunk, i: Instr, args: seq<Value>, w: World)
    requires IsOperation(i) && |args| == Arity(i)
    ensures IsOperation(Unspecialised(i)) && Arity(Unspecialised(i)) == Arity(i)
    ensures Perform(h, lenId, ch, i, args, w) == Perform(h, lenId, ch, Unspecialised(i), args, w)
  {
  }

  // ─── try ranges ────────────────────────────────────────────────────────────

  predicate Covers(r: TryRange, pc: int) { r.begin <= pc < r.end }

  datatype Handler = NoHandler | HandlerAt(range: TryRange)

  /** The scan of `find_handler`: the first shortest range that covers `pc`. */
  function FindHandler(ranges: seq<TryRange>, pc: int, best: Handler): Handler {
    if ranges == [] then best
    else
      var r := ranges[0];
      FindHandler(ranges[1..], pc,
        if Covers(r, pc) && (best.NoHandler? || r.end - r.begin < best.range.end - best.range.begin)
        then HandlerAt(r) else best)
  }
}
