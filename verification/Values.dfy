/** Run-time values of an Odio program, the store they live in and the value
  operations that the language needs.  The operations are shared by the virtual
  machine (module `Machine`) and by the reference semantics (module `Reference`):
  what the compiler proof has to show is that both apply the same ones, to the
  same operands, in the same order. */
module Values {

  /** A value.  Lists and dictionaries are references into the store, so that two
    holders of one value see each other's writes.  Floats stay opaque: a float is
    a bit pattern that only `Floats` interprets. */
  datatype Value =
    | Null
    | Bool(b: bool)
    | Int(i: int)
    | Float(bits: int)
    | Str(s: string)
    | List(at: nat)
    | Dict(at: nat)
  {
    predicate IsNum() { Int? || Float? }

    function TypeName(): string {
      match this
      case Null => "null"
      case Bool(_) => "bool"
      case Int(_) => "int"
      case Float(_) => "float"
      case Str(_) => "string"
      case List(_) => "List"
      case Dict(_) => "Dict"
    }
  }

  datatype Pair = Pair(key: string, value: Value)

  /** One heap box.  A dictionary keeps its keys in insertion order. */
  datatype Box = ListBox(items: seq<Value>) | DictBox(pairs: seq<Pair>)

  /** What a call out of the virtual machine leaves in the trace. */
  datatype Event =
    | NativeCall(id: nat, args: seq<Value>)
    | MethodCall(name: string, receiver: Value, args: seq<Value>)

  /** The part of the state that outlives a frame: the store, and the calls made
    so far into native code. */
  datatype World = World(heap: seq<Box>, trace: seq<Event>)

  /** A value written by `resume`, and the world the program wakes up in. */
  datatype Resumption = Resumption(value: Value, world: World)

  /** The answer of native code; it failed when the error is not empty. */
  datatype Reply = Reply(heap: seq<Box>, value: Value, error: string)

  /** Everything this model does not look into: builtins, methods on values,
    floating point, and equality of two containers. */
  datatype Host = Host(
    native: (nat, seq<Value>, World) -> Reply,
    invoke: (string, Value, seq<Value>, World) -> Reply,
    ofInt: int -> int,
    negate: int -> int,
    isZero: int -> bool,
    arith: (char, int, int) -> int,
    order: (char, int, int) -> bool,
    sameFloat: (int, int) -> bool,
    sameContainer: (Value, Value, seq<Box>) -> bool)

  /** The outcome of one value operation. */
  datatype Outcome = Good(value: Value, world: World) | Bad(error: string, after: World)

  // ─── Limits of a run ───────────────────────────────────────────────────────

  /** How many counted jumps a handler may take between two suspensions, and how
    many calls may be open at once. */
  const STEP_LIMIT: nat := 50_000_000
  const MAX_FRAMES: nat := 200

  const STEP_LIMIT_ERROR := "el handler supero el limite de pasos: bucle infinito?"
  const NO_FUNCTION_ERROR := "funcion no encontrada"
  const RECURSION_ERROR := "demasiada recursion: mas de 200 llamadas anidadas"

  // ─── Machine integers ──────────────────────────────────────────────────────

  const MIN_INT: int := -0x8000_0000_0000_0000
  const MAX_INT: int := 0x7FFF_FFFF_FFFF_FFFF

  /** The 64-bit two's complement number congruent to `n`. */
  function Wrap(n: int): (r: int)
    ensures MIN_INT <= r <= MAX_INT
    ensures MIN_INT <= n <= MAX_INT ==> r == n
  {
    (n - MIN_INT) % 0x1_0000_0000_0000_0000 + MIN_INT
  }

  /** Division of integers truncating toward zero, as the source's operator does. */
  function Quotient(a: int, b: int): int
    requires b != 0
  {
    var q := (if a < 0 then -a else a) / (if b < 0 then -b else b);
    if (a < 0) == (b < 0) then q else -q
  }

  function Remainder(a: int, b: int): int
    requires b != 0
  {
    a - b * Quotient(a, b)
  }

  // ─── The store ─────────────────────────────────────────────────────────────

  /** The items of a list reference.  A reference that names no list reads as an
    empty one; no operation below makes such a reference. */
  function Items(heap: seq<Box>, at: nat): seq<Value> {
    if at < |heap| && heap[at].ListBox? then heap[at].items else []
  }

  function Pairs(heap: seq<Box>, at: nat): seq<Pair> {
    if at < |heap| && heap[at].DictBox? then heap[at].pairs else []
  }

  function PutBox(w: World, at: nat, box: Box): World {
    if at < |w.heap| then w.(heap := w.heap[at := box]) else w
  }

  function NewList(items: seq<Value>, w: World): Outcome {
    Good(List(|w.heap|), w.(heap := w.heap + [ListBox(items)]))
  }

  function NewDict(pairs: seq<Pair>, w: World): Outcome {
    Good(Dict(|w.heap|), w.(heap := w.heap + [DictBox(pairs)]))
  }

  function Fetch(pairs: seq<Pair>, key: string): Value {
    if pairs == [] then Null
    else if pairs[0].key == key then pairs[0].value
    else Fetch(pairs[1..], key)
  }

  /** Writes a key: in place when it is there, at the end when it is not. */
  function Store(pairs: seq<Pair>, key: string, v: Value): seq<Pair> {
    if pairs == [] then [Pair(key, v)]
    else if pairs[0].key == key then [Pair(key, v)] + pairs[1..]
    else [pairs[0]] + Store(pairs[1..], key, v)
  }

  // ─── Operations ────────────────────────────────────────────────────────────

  predicate Truthy(h: Host, v: Value, w: World) {
    match v
    case Null => false
    case Bool(b) => b
    case Int(i) => i != 0
    case Float(d) => !h.isZero(d)
    case Str(s) => s != ""
    case List(at) => Items(w.heap, at) != []
    case Dict(at) => Pairs(w.heap, at) != []
  }

  function AsFloat(h: Host, v: Value): int
    requires v.IsNum()
  {
    if v.Float? then v.bits else h.ofInt(v.i)
  }

  /** `std::string::compare`: -1, 0 or 1, by bytes. */
  function CompareStr(a: string, b: string): int {
    if a == [] && b == [] then 0
    else if a == [] then -1
    else if b == [] then 1
    else if a[0] < b[0] then -1
    else if a[0] > b[0] then 1
    else CompareStr(a[1..], b[1..])
  }

  datatype Order = LT | LE | GT | GE

  predicate Holds(op: Order, sign: int) {
    match op
    case LT => sign < 0
    case LE => sign <= 0
    case GT => sign > 0
    case GE => sign >= 0
  }

  function OrderChar(op: Order): char {
    match op case LT => '<' case LE => 'l' case GT => '>' case GE => 'g'
  }

  function Compare(h: Host, op: Order, a: Value, b: Value, w: World): Outcome {
    if a.Int? && b.Int? then Good(Bool(Holds(op, a.i - b.i)), w)
    else if a.IsNum() && b.IsNum() then Good(Bool(h.order(OrderChar(op), AsFloat(h, a), AsFloat(h, b))), w)
    else if a.Str? && b.Str? then Good(Bool(Holds(op, CompareStr(a.s, b.s))), w)
    else Bad("no se pueden comparar " + a.TypeName() + " y " + b.TypeName(), w)
  }

  predicate Equal(h: Host, a: Value, b: Value, w: World) {
    if a.Int? && b.Int? then a.i == b.i
    else if a.IsNum() && b.IsNum() then h.sameFloat(AsFloat(h, a), AsFloat(h, b))
    else if (a.List? && b.List?) || (a.Dict? && b.Dict?) then h.sameContainer(a, b, w.heap)
    else a == b
  }

  function Add(h: Host, a: Value, b: Value, w: World): Outcome {
    if a.Str? && b.Str? then Good(Str(a.s + b.s), w)
    else if a.Str? || b.Str? then
      Bad("no se puede sumar " + a.TypeName() + " y " + b.TypeName()
          + "; para concatenar usa str(): \"...\" + str(x)", w)
    else if a.Int? && b.Int? then Good(Int(Wrap(a.i + b.i)), w)
    else if a.IsNum() && b.IsNum() then Good(Float(h.arith('+', AsFloat(h, a), AsFloat(h, b))), w)
    else if a.List? && b.List? then NewList(Items(w.heap, a.at) + Items(w.heap, b.at), w)
    else Bad("no se puede sumar " + a.TypeName() + " y " + b.TypeName(), w)
  }

  datatype Arith = SUB | MUL | DIV | MOD

  function Arithmetic(h: Host, op: Arith, a: Value, b: Value, w: World): Outcome {
    if !(a.IsNum() && b.IsNum()) then
      Bad("operacion aritmetica entre " + a.TypeName() + " y " + b.TypeName(), w)
    else
      match op
      case MOD =>
        if !(a.Int? && b.Int?) then Bad("'%' solo aplica a enteros", w)
        else if b.i == 0 then Bad("modulo por cero", w)
        else Good(Int(Remainder(a.i, b.i)), w)
      case DIV =>
        if (if b.Int? then b.i == 0 else h.isZero(b.bits)) then Bad("division por cero", w)
        else if a.Int? && b.Int? && Remainder(a.i, b.i) == 0 then Good(Int(Wrap(Quotient(a.i, b.i))), w)
        else Good(Float(h.arith('/', AsFloat(h, a), AsFloat(h, b))), w)
      case SUB =>
        if a.Int? && b.Int? then Good(Int(Wrap(a.i - b.i)), w)
        else Good(Float(h.arith('-', AsFloat(h, a), AsFloat(h, b))), w)
      case MUL =>
        if a.Int? && b.Int? then Good(Int(Wrap(a.i * b.i)), w)
        else Good(Float(h.arith('*', AsFloat(h, a), AsFloat(h, b))), w)
  }

  function Negate(h: Host, a: Value, w: World): Outcome {
    match a
    case Int(i) => Good(Int(Wrap(-i)), w)
    case Float(d) => Good(Float(h.negate(d)), w)
    case _ => Bad("no se puede negar " + a.TypeName(), w)
  }

  /** Key and value alternate in `flat`; a repeated key keeps its first place and
    its last value. */
  function MakeDict(flat: seq<Value>, done: seq<Pair>, w: World): Outcome
    decreases |flat|
  {
    if |flat| < 2 then NewDict(done, w)
    else if !flat[0].Str? then Bad("la clave de un Dict tiene que ser string, no " + flat[0].TypeName(), w)
    else MakeDict(flat[2..], Store(done, flat[0].s, flat[1]), w)
  }

  function Digits(n: nat): string {
    if n < 10 then [('0' as int + n) as char] else Digits(n / 10) + Digits(n % 10)
  }

  function Decimal(n: int): string {
    if n < 0 then "-" + Digits(-n) else Digits(n)
  }

  function RangeError(i: int, size: nat): string {
    "indice fuera de rango: " + Decimal(i) + " (tamano " + Decimal(size) + ")"
  }

  function GetIndex(obj: Value, idx: Value, w: World): Outcome {
    match obj
    case List(at) =>
      var l := Items(w.heap, at);
      if !idx.Int? then Bad("el indice de una List tiene que ser int", w)
      else if idx.i < 0 || idx.i >= |l| then Bad(RangeError(idx.i, |l|), w)
      else Good(l[idx.i], w)
    case Dict(at) =>
      if !idx.Str? then Bad("la clave de un Dict tiene que ser string", w)
      else Good(Fetch(Pairs(w.heap, at), idx.s), w)
    case _ => Bad("no se puede indexar " + obj.TypeName(), w)
  }

  function SetIndex(obj: Value, idx: Value, v: Value, w: World): Outcome {
    match obj
    case List(at) =>
      var l := Items(w.heap, at);
      if !idx.Int? then Bad("el indice de una List tiene que ser int", w)
      else if idx.i < 0 || idx.i >= |l| then Bad(RangeError(idx.i, |l|), w)
      else Good(v, PutBox(w, at, ListBox(l[idx.i := v])))
    case Dict(at) =>
      if !idx.Str? then Bad("la clave de un Dict tiene que ser string", w)
      else Good(v, PutBox(w, at, DictBox(Store(Pairs(w.heap, at), idx.s, v))))
    case _ => Bad("no se puede indexar " + obj.TypeName(), w)
  }

  function GetMember(name: string, obj: Value, w: World): Outcome {
    if !obj.Dict? then Bad("'" + name + "' sobre " + obj.TypeName() + ", que no tiene campos", w)
    else Good(Fetch(Pairs(w.heap, obj.at), name), w)
  }

  function SetMember(name: string, obj: Value, v: Value, w: World): Outcome {
    if !obj.Dict? then Bad("no se puede asignar '" + name + "' sobre " + obj.TypeName(), w)
    else Good(v, PutBox(w, obj.at, DictBox(Store(Pairs(w.heap, obj.at), name, v))))
  }

  function KeysOf(pairs: seq<Pair>): seq<Value> {
    if pairs == [] then [] else [Str(pairs[0].key)] + KeysOf(pairs[1..])
  }

  /** The list a `for` walks: the list itself, or a new list of a dictionary's keys. */
  function IterList(v: Value, w: World): Outcome {
    match v
    case List(_) => Good(v, w)
    case Dict(at) => NewList(KeysOf(Pairs(w.heap, at)), w)
    case _ => Bad("no se puede recorrer " + v.TypeName() + " con 'for'", w)
  }

  /** The builtin `len`, which every `for` calls. */
  function Len(v: Value, w: World): Outcome {
    match v
    case Str(s) => Good(Int(Wrap(|s|)), w)
    case List(at) => Good(Int(Wrap(|Items(w.heap, at)|)), w)
    case Dict(at) => Good(Int(Wrap(|Pairs(w.heap, at)|)), w)
    case _ => Bad("len() no aplica a " + v.TypeName(), w)
  }

  function Answer(r: Reply, trace: seq<Event>): Outcome {
    if r.error != "" then Bad(r.error, World(r.heap, trace)) else Good(r.value, World(r.heap, trace))
  }

  /** A builtin.  `len` is known; every other one is the host's, and leaves an
    event in the trace. */
  function CallNative(h: Host, lenId: nat, id: nat, args: seq<Value>, w: World): Outcome {
    if id == lenId && |args| == 1 then Len(args[0], w)
    else Answer(h.native(id, args, w), w.trace + [NativeCall(id, args)])
  }

  function CallMethod(h: Host, name: string, receiver: Value, args: seq<Value>, w: World): Outcome {
    Answer(h.invoke(name, receiver, args, w), w.trace + [MethodCall(name, receiver, args)])
  }

  /** What a `catch` receives: a dictionary with the message. */
  function ErrorValue(message: string, w: World): (r: (Value, World)) {
    (Dict(|w.heap|), w.(heap := w.heap + [DictBox([Pair("message", Str(message))])]))
  }
}
