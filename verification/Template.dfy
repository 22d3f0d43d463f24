/** Templates: the tags of a source, the tree they stand for and what it renders to, and the
  flat code that a compiler makes of them in one pass. */
module Template {

  // ─── Values and expressions ────────────────────────────────────────────────

  datatype Value = Null | Int(i: int) | Bool(b: bool) | Other(id: nat)
    | List(items: seq<Value>) | Dict(pairs: seq<Pair>)

  datatype Pair = Pair(key: string, value: Value)

  /** An expression reads the names it uses, and nothing else; `Invalid` does not compile. */
  datatype Expr = Expr(id: nat, uses: seq<string>) | Invalid

  datatype Outcome = Got(value: Value) | Error(message: string)

  /** What expressions compute from the values of their names, and how values behave. */
  datatype Oracle = Oracle(eval: (nat, seq<Value>) -> Outcome, show: Value -> string, truthy: Value -> bool,
                           notAList: Value -> string)

  /** What a loop says about its own progress. */
  function LoopData(i: nat, n: nat): Value {
    Dict([Pair("index", Int(i + 1)), Pair("index0", Int(i)), Pair("first", Bool(i == 0)),
          Pair("last", Bool(i + 1 == n)),
          Pair("length", Int(n))])
  }

  const LOOP := "loop"

  // ─── Tags and trees ────────────────────────────────────────────────────────

  datatype Tag =
    | TText(text: string)
    | TWrite(e: Expr, raw: bool)
    | TIf(e: Expr)
    | TElif(e: Expr)
    | TElse
    | TEndIf
    | TFor(name: string, e: Expr)
    | TEndFor
    | TBad

  /** Lists grow at the end, as they are read. */
  datatype Block = Nothing | Then(before: Block, item: Item)

  datatype Item =
    | Text(text: string)
    | Write(e: Expr, raw: bool)
    | If(closed: Chain, cond: Expr, body: Block)
    | IfElse(closed: Chain, other: Block)
    | For(name: string, list: Expr, body: Block)

  /** The branches of a condition that are followed by another. */
  datatype Chain = NoBranch | Branch(before: Chain, cond: Expr, body: Block)

  function Tags(b: Block): seq<Tag> {
    match b
    case Nothing => []
    case Then(before, item) => Tags(before) + ItemTags(item)
  }

  function ItemTags(item: Item): seq<Tag> {
    match item
    case Text(t) => [TText(t)]
    case Write(e, raw) => [TWrite(e, raw)]
    case If(closed, cond, body) => ChainTags(closed) + [OpenTag(closed, cond)] + Tags(body) + [TEndIf]
    case IfElse(closed, other) => ChainTags(closed) + [TElse] + Tags(other) + [TEndIf]
    case For(name, list, body) => [TFor(name, list)] + Tags(body) + [TEndFor]
  }

  function ChainTags(ch: Chain): seq<Tag> {
    match ch
    case NoBranch => []
    case Branch(before, cond, body) => ChainTags(before) + [OpenTag(before, cond)] + Tags(body)
  }

  function OpenTag(before: Chain, cond: Expr): Tag { if before.NoBranch? then TIf(cond) else TElif(cond) }

  // ─── What a tree renders to ────────────────────────────────────────────────

  /** An error leaves the output half done. */
  datatype Rendered = Fine(out: string) | Stopped(message: string, out: string)

  datatype Tried = Took(r: Rendered) | TookNone

  function HtmlChar(c: char): string {
    if c == '&' then "&amp;"
    else if c == '<' then "&lt;"
    else if c == '>' then "&gt;"
    else if c == '"' then "&quot;"
    else if c == '\'' then "&#39;"
    else [c]
  }

  function Html(s: string): string { if s == "" then "" else HtmlChar(s[0]) + Html(s[1..]) }

  function Shown(v: Value, raw: bool, o: Oracle): string { if raw then o.show(v) else Html(o.show(v)) }

  function EvalIn(e: Expr, env: map<string, Value>, o: Oracle): Outcome {
    if e.Invalid? then Error("") else o.eval(e.id, Seen(e.uses, env))
  }

  function Seen(uses: seq<string>, env: map<string, Value>): (vs: seq<Value>)
    ensures |vs| == |uses|
    ensures forall i :: 0 <= i < |uses| ==> vs[i] == if uses[i] in env then env[uses[i]] else Null
  {
    seq(|uses|, i requires 0 <= i < |uses| => if uses[i] in env then env[uses[i]] else Null)
  }

  function RenderBlock(b: Block, env: map<string, Value>, out: string, o: Oracle): Rendered
    decreases b, 0
  {
    match b
    case Nothing => Fine(out)
    case Then(before, item) =>
      match RenderBlock(before, env, out, o)
      case Stopped(m, out1) => Stopped(m, out1)
      case Fine(out1) => RenderItem(item, env, out1, o)
  }

  function RenderItem(item: Item, env: map<string, Value>, out: string, o: Oracle): Rendered
    decreases item, 0
  {
    match item
    case Text(t) => Fine(out + t)
    case Write(e, raw) =>
      (match EvalIn(e, env, o)
       case Error(m) => Stopped(m, out)
       case Got(v) => Fine(out + Shown(v, raw, o)))
    case If(closed, cond, body) =>
      (match RenderChain(closed, env, out, o)
       case Took(r) => r
       case TookNone =>
         match EvalIn(cond, env, o)
         case Error(m) => Stopped(m, out)
         case Got(v) => if o.truthy(v) then RenderBlock(body, env, out, o) else Fine(out))
    case IfElse(closed, other) =>
      (match RenderChain(closed, env, out, o)
       case Took(r) => r
       case TookNone => RenderBlock(other, env, out, o))
    case For(name, list, body) =>
      (match EvalIn(list, env, o)
       case Error(m) => Stopped(m, out)
       case Got(v) => if v.List? then RenderLoop(body, name, v.items, 0, env, out, o) else Stopped(o.notAList(v), out))
  }

  /** The first branch whose condition holds. */
  function RenderChain(ch: Chain, env: map<string, Value>, out: string, o: Oracle): Tried
    decreases ch, 0
  {
    match ch
    case NoBranch => TookNone
    case Branch(before, cond, body) =>
      match RenderChain(before, env, out, o)
      case Took(r) => Took(r)
      case TookNone =>
        match EvalIn(cond, env, o)
        case Error(m) => Took(Stopped(m, out))
        case Got(v) => if o.truthy(v) then Took(RenderBlock(body, env, out, o)) else TookNone
  }

  /** Inside, the names of the loop hide those outside. */
  function InLoop(env: map<string, Value>, name: string, items: seq<Value>, i: nat): map<string, Value>
    requires i < |items|
  {
    env[name := items[i]][LOOP := LoopData(i, |items|)]
  }

  function RenderLoop(body: Block, name: string, items: seq<Value>, i: nat, env: map<string, Value>, out: string,
                      o: Oracle): Rendered
    decreases body, 1, |items| - i
  {
    if i >= |items| then Fine(out)
    else
      match RenderBlock(body, InLoop(env, name, items, i), out, o)
      case Stopped(m, out1) => Stopped(m, out1)
      case Fine(out1) => RenderLoop(body, name, items, i + 1, env, out1, o)
  }

  // ─── Names and slots ───────────────────────────────────────────────────────

  /** The name of a slot; a hidden one cannot be written in an expression. */
  datatype Name = Visible(name: string) | Hidden(slot: nat)

  predicate Distinct(names: seq<Name>) { forall i, j :: 0 <= i < j < |names| ==> names[i] != names[j] }

  /** The last slot with a name, or the number of slots. */
  function Slot(names: seq<Name>, name: Name): (s: nat)
    ensures s <= |names| && (s < |names| ==> names[s] == name)
    ensures s == |names| ==> forall i :: 0 <= i < |names| ==> names[i] != name
  {
    if names == [] then 0
    else
      var last := |names| - 1;
      if names[last] == name then last
      else
        var s := Slot(names[..last], name);
        if s < last then s else |names|
  }

  function Hide(names: seq<Name>, name: string): (r: seq<Name>)
    ensures |r| == |names|
    ensures forall i :: 0 <= i < |names| && names[i] != Visible(name) ==> r[i] == names[i]
  {
    var s := Slot(names, Visible(name));
    if s < |names| then names[s := Hidden(s)] else names
  }

  /** The names inside a loop. */
  function LoopNames(names: seq<Name>, name: string): seq<Name> {
    Hide(Hide(names, name), LOOP) + [Visible(name), Visible(LOOP)]
  }

  /** The names that a block leaves behind: those of its loops. */
  function Extra(b: Block): seq<Name> {
    match b
    case Nothing => []
    case Then(before, item) => Extra(before) + ItemExtra(item)
  }

  function ItemExtra(item: Item): seq<Name> {
    match item
    case If(closed, _, body) => ChainExtra(closed) + Extra(body)
    case IfElse(closed, other) => ChainExtra(closed) + Extra(other)
    case For(name, _, body) => [Visible(name), Visible(LOOP)] + Extra(body)
    case _ => []
  }

  function ChainExtra(ch: Chain): seq<Name> {
    match ch
    case NoBranch => []
    case Branch(before, _, body) => ChainExtra(before) + Extra(body)
  }

  // ─── What compiles ─────────────────────────────────────────────────────────

  /** All names have to be distinct, also those that the expression does not use. */
  predicate OkExpr(e: Expr, names: seq<Name>) {
    e.Expr? && Distinct(names) && forall i :: 0 <= i < |e.uses| ==> Visible(e.uses[i]) in names
  }

  predicate OkBlock(b: Block, names: seq<Name>) {
    match b
    case Nothing => true
    case Then(before, item) => OkBlock(before, names) && OkItem(item, names + Extra(before))
  }

  predicate OkItem(item: Item, names: seq<Name>) {
    match item
    case Text(_) => true
    case Write(e, _) => OkExpr(e, names)
    case If(closed, cond, body) =>
      var names1 := names + ChainExtra(closed);
      OkChain(closed, names) && OkExpr(cond, names1) && OkBlock(body, names1)
    case IfElse(closed, other) =>
      closed.Branch? && OkChain(closed, names) && OkBlock(other, names + ChainExtra(closed))
    case For(name, list, body) => name != "" && OkExpr(list, names) && OkBlock(body, LoopNames(names, name))
  }

  predicate OkChain(ch: Chain, names: seq<Name>) {
    match ch
    case NoBranch => true
    case Branch(before, cond, body) =>
      var names1 := names + ChainExtra(before);
      OkChain(before, names) && OkExpr(cond, names1) && OkBlock(body, names1)
  }

  /** Names are only used inside the loop that makes them. */
  predicate Scoped(b: Block, scope: set<string>) {
    match b
    case Nothing => true
    case Then(before, item) => Scoped(before, scope) && ScopedItem(item, scope)
  }

  predicate ScopedExpr(e: Expr, scope: set<string>) { e.Expr? && forall i :: 0 <= i < |e.uses| ==> e.uses[i] in scope }

  predicate ScopedItem(item: Item, scope: set<string>) {
    match item
    case Text(_) => true
    case Write(e, _) => ScopedExpr(e, scope)
    case If(closed, cond, body) => ScopedChain(closed, scope) && ScopedExpr(cond, scope) && Scoped(body, scope)
    case IfElse(closed, other) => ScopedChain(closed, scope) && Scoped(other, scope)
    case For(name, list, body) => ScopedExpr(list, scope) && Scoped(body, scope + {name, LOOP})
  }

  predicate ScopedChain(ch: Chain, scope: set<string>) {
    match ch
    case NoBranch => true
    case Branch(before, cond, body) => ScopedChain(before, scope) && ScopedExpr(cond, scope) && Scoped(body, scope)
  }

  // ─── The code ──────────────────────────────────────────────────────────────

  datatype Compiled = Compiled(id: nat, slots: seq<nat>)

  datatype Instr =
    | Paste(text: string)
    | Print(e: Compiled, raw: bool)
    | JumpIfFalse(e: Compiled, to: nat)
    | Jump(to: nat)
    | LoopStart(e: Compiled, to: nat, slot: nat, loopSlot: nat)
    | LoopNext(to: nat, slot: nat, loopSlot: nat)

  function Slots(uses: seq<string>, names: seq<Name>): (r: seq<nat>)
    ensures |r| == |uses| && forall i :: 0 <= i < |uses| ==> r[i] == Slot(names, Visible(uses[i]))
  {
    seq(|uses|, i requires 0 <= i < |uses| => Slot(names, Visible(uses[i])))
  }

  function CompiledExpr(e: Expr, names: seq<Name>): Compiled {
    if e.Invalid? then Compiled(0, []) else Compiled(e.id, Slots(e.uses, names))
  }

  function Code(b: Block, names: seq<Name>, at: nat): seq<Instr> {
    match b
    case Nothing => []
    case Then(before, item) =>
      var code := Code(before, names, at);
      code + ItemCode(item, names + Extra(before), at + |code|)
  }

  function ItemCode(item: Item, names: seq<Name>, at: nat): seq<Instr> {
    match item
    case Text(t) => if t == "" then [] else [Paste(t)]
    case Write(e, raw) => [Print(CompiledExpr(e, names), raw)]
    case If(closed, cond, body) =>
      var names1 := names + ChainExtra(closed);
      var at1 := at + ChainSize(closed);
      var code := Code(body, names1, at1 + 1);
      var end := at1 + 1 + |code|;
      ChainCode(closed, names, at, end) + [JumpIfFalse(CompiledExpr(cond, names1), end)] + code
    case IfElse(closed, other) =>
      var at1 := at + ChainSize(closed);
      var code := Code(other, names + ChainExtra(closed), at1);
      ChainCode(closed, names, at, at1 + |code|) + code
    case For(name, list, body) =>
      var code := Code(body, LoopNames(names, name), at + 1);
      [LoopStart(CompiledExpr(list, names), at + 2 + |code|, |names|, |names| + 1)]
      + code + [LoopNext(at + 1, |names|, |names| + 1)]
  }

  /** Each branch jumps to the end of the whole condition. */
  function ChainCode(ch: Chain, names: seq<Name>, at: nat, end: nat): seq<Instr> {
    match ch
    case NoBranch => []
    case Branch(before, cond, body) =>
      var names1 := names + ChainExtra(before);
      var at1 := at + ChainSize(before);
      var code := Code(body, names1, at1 + 1);
      ChainCode(before, names, at, end) + [JumpIfFalse(CompiledExpr(cond, names1), at1 + 2 + |code|)]
      + code + [Jump(end)]
  }

  function Size(b: Block): nat {
    match b
    case Nothing => 0
    case Then(before, item) => Size(before) + ItemSize(item)
  }

  function ItemSize(item: Item): nat {
    match item
    case Text(t) => if t == "" then 0 else 1
    case Write(_, _) => 1
    case If(closed, _, body) => ChainSize(closed) + 1 + Size(body)
    case IfElse(closed, other) => ChainSize(closed) + Size(other)
    case For(_, _, body) => Size(body) + 2
  }

  function ChainSize(ch: Chain): nat {
    match ch
    case NoBranch => 0
    case Branch(before, _, body) => ChainSize(before) + Size(body) + 2
  }

  /** The size of the code does not depend on where it is. */
  lemma {:induction false} CodeSize(b: Block, names: seq<Name>, at: nat)
    ensures |Code(b, names, at)| == Size(b)
  {
    match b
    case Nothing =>
    case Then(before, item) =>
      CodeSize(before, names, at);
      ItemCodeSize(item, names + Extra(before), at + Size(before));
  }

  lemma {:induction false} ItemCodeSize(item: Item, names: seq<Name>, at: nat)
    ensures |ItemCode(item, names, at)| == ItemSize(item)
  {
    hide Code, ChainCode, LoopNames, CompiledExpr, Size, ChainSize;
    match item
    case If(closed, cond, body) =>
      CodeSize(body, names + ChainExtra(closed), at + ChainSize(closed) + 1);
      ChainCodeSize(closed, names, at, at + ChainSize(closed) + 1 + Size(body));
    case IfElse(closed, other) =>
      CodeSize(other, names + ChainExtra(closed), at + ChainSize(closed));
      ChainCodeSize(closed, names, at, at + ChainSize(closed) + Size(other));
    case For(name, list, body) => CodeSize(body, LoopNames(names, name), at + 1);
    case _ =>
  }

  lemma {:induction false} ChainCodeSize(ch: Chain, names: seq<Name>, at: nat, end: nat)
    ensures |ChainCode(ch, names, at, end)| == ChainSize(ch)
  {
    match ch
    case NoBranch =>
    case Branch(before, cond, body) =>
      ChainCodeSize(before, names, at, end);
      CodeSize(body, names + ChainExtra(before), at + ChainSize(before) + 1);
  }

  /** The text of a page, with what means something in HTML replaced; clean stretches are
    copied in one go. */
  method EscapeHtml(s: string, before: string) returns (out: string)
    ensures out == before + Html(s)
  {
    hide HtmlChar;
    out := before;
    var clean := 0;
    assert s[..0] == "" && Html("") == "";
    for i := 0 to |s|
      invariant clean <= i && out + s[clean..i] == before + Html(s[..i])
    {
      HtmlEnd(s[..i], s[i]);
      assert s[..i] + [s[i]] == s[..i + 1];
      var c := HtmlChar(s[i]);
      assert out + s[clean..i] + c == before + Html(s[..i + 1]);
      if c != [s[i]] {
        out := out + s[clean..i] + c;
        clean := i + 1;
        assert s[clean..i + 1] == "";
      } else {
        assert out + s[clean..i + 1] == out + s[clean..i] + c;
      }
    }
    assert s[..|s|] == s;
    out := out + s[clean..];
  }

  lemma {:induction false} HtmlEnd(s: string, c: char)
    ensures Html(s + [c]) == Html(s) + HtmlChar(c)
  {
    hide HtmlChar;
    if s == "" {
      assert [c][1..] == "";
    } else {
      assert (s + [c])[1..] == s[1..] + [c];
      HtmlEnd(s[1..], c);
    }
  }
}
