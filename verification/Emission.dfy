/** The compiler: it walks the tree and appends to a chunk, fills in jumps when it
  knows where they go, and keeps the variables in scope in a list of slots. */
module Emission {
  import opened Wrappers
  import opened Values
  import opened Ast
  import opened Bytecode
  import opened Layout
  import opened Acceptance
  import opened Stability
  import opened Assembly
  import opened Progress
  import opened StmtParts
  import opened StmtAssembly
  import opened Patching
  import R = Reference

  predicate HasAsync(code: seq<Instr>) { exists i :: 0 <= i < |code| && code[i].OpCallAsync? }

  predicate AreJumps(js: seq<nat>, code: seq<Instr>) {
    forall j :: j in js ==> j < |code| && code[j].OpJump?
  }

  predicate JumpsOpen(loops: seq<LoopCtx>, code: seq<Instr>) {
    forall i :: 0 <= i < |loops| ==> AreJumps(loops[i].breaks, code) && AreJumps(loops[i].continues, code)
  }

  lemma AsyncAppended(code: seq<Instr>, op: Instr)
    ensures HasAsync(code + [op]) <==> HasAsync(code) || op.OpCallAsync?
  {
    var code1 := code + [op];
    if i :| 0 <= i < |code| && code[i].OpCallAsync? {
      assert code1[i].OpCallAsync?;
    }
    assert code1[|code|] == op;
  }

  class Emitter {
    const sg: Sigs
    var chunk: Chunk
    var failed: bool
    var locals: seq<Local>
    var depths: seq<int>         // of the scopes the variables were declared in
    var scopeDepth: int
    var loops: seq<LoopCtx>

    ghost predicate Valid()
      reads this
    {
      && |locals| == |depths| <= chunk.numLocals && InScope(depths, scopeDepth)
      && JumpsOpen(loops, chunk.code)
      && (chunk.hasAwait <==> HasAsync(chunk.code))
    }

    // ─── The chunk ───────────────────────────────────────────────────────────

    method Emit(op: Instr)
      requires Valid() && !op.OpCallAsync?
      modifies `chunk
      ensures Valid() && chunk == Appended(old(chunk), op)
    {
      chunk := Appended(chunk, op);
      AsyncAppended(old(chunk.code), op);
    }

    /** A jump, whose target is filled in later. */
    method EmitJump(op: Instr) returns (at: nat)
      requires Valid() && IsJump(op)
      modifies `chunk
      ensures Valid() && at == |old(chunk.code)| && chunk == Appended(old(chunk), op)
    {
      at := |chunk.code|;
      Emit(op);
    }

    /** A call that suspends, which the chunk remembers that it has. */
    method EmitAsync(id: nat, argc: nat)
      requires Valid()
      modifies `chunk
      ensures Valid() && chunk == Appended(old(chunk), OpCallAsync(id, argc)).(hasAwait := true)
    {
      chunk := chunk.(hasAwait := true);
      chunk := Appended(chunk, OpCallAsync(id, argc));
      assert chunk.code[|old(chunk.code)|].OpCallAsync?;
    }

    method Patch(at: nat, target: nat)
      requires Valid() && at < |chunk.code| && IsJump(chunk.code[at])
      modifies `chunk
      ensures Valid() && chunk == PatchedAt(old(chunk), at, target)
    {
      chunk := PatchedAt(chunk, at, target);
      assert forall i :: 0 <= i < |chunk.code| ==> chunk.code[i].OpCallAsync? == old(chunk.code)[i].OpCallAsync?;
      assert forall i :: 0 <= i < |chunk.code| ==> chunk.code[i].OpJump? == old(chunk.code)[i].OpJump?;
    }

    method AddConstant(v: Value) returns (k: nat)
      requires Valid()
      modifies `chunk
      ensures Valid() && k == |old(chunk.constants)|
      ensures chunk == old(chunk).(constants := old(chunk.constants) + [v])
      ensures Wrote(old(chunk), chunk, []) && IsConstant(chunk, k, v)
    {
      k := |chunk.constants|;
      chunk := chunk.(constants := chunk.constants + [v]);
    }

    /** Instructions one after the other. */
    method EmitAll(ops: seq<Instr>)
      requires Valid() && forall i :: 0 <= i < |ops| ==> !ops[i].OpCallAsync?
      modifies `chunk
      ensures Valid() && Wrote(old(chunk), chunk, ops) && chunk.constants == old(chunk.constants)
    {
      var i := 0;
      while i < |ops|
        invariant 0 <= i <= |ops| && Valid()
        invariant Wrote(old(chunk), chunk, ops[..i]) && chunk.constants == old(chunk.constants)
      {
        assert ops[..i + 1] == ops[..i] + [ops[i]];
        Emit(ops[i]);
        i := i + 1;
      }
      assert ops[..i] == ops;
    }

    // ─── Variables ───────────────────────────────────────────────────────────

    /** The slot of the innermost variable called `name`. */
    method FindLocal(name: string) returns (slot: int)
      ensures slot == ResolveLocal(locals, name)
    {
      slot := |locals| - 1;
      assert locals[..slot + 1] == locals;
      while slot >= 0
        invariant -1 <= slot < |locals|
        invariant ResolveLocal(locals[..slot + 1], name) == ResolveLocal(locals, name)
      {
        if locals[slot].name == name {
          return;
        }
        assert locals[..slot + 1][..slot] == locals[..slot];
        slot := slot - 1;
      }
    }

    method DeclareLocal(name: string, typ: string) returns (slot: int)
      requires Valid()
      modifies this
      ensures Valid() && unchanged(`scopeDepth, `loops)
      ensures var clash := Clashes(old(locals), old(depths), name, scopeDepth);
              && failed == (old(failed) || clash)
              && locals == old(locals) + (if clash then [] else [Local(name, typ)])
              && depths == old(depths) + (if clash then [] else [scopeDepth])
              && (!clash ==> slot == |old(locals)|) && 0 <= slot < |locals|
      ensures Wrote(old(chunk), chunk, []) && |locals| <= chunk.numLocals
      ensures chunk == old(chunk).(numLocals := if |locals| > old(chunk.numLocals)
                                        then |locals| else old(chunk.numLocals))
    {
      var i := |locals|;
      assert locals[..i] == locals && depths[..i] == depths;
      while i > 0 && depths[i - 1] >= scopeDepth
        invariant 0 <= i <= |locals|
        invariant Clashes(locals[..i], depths[..i], name, scopeDepth) == Clashes(locals, depths, name, scopeDepth)
      {
        if locals[i - 1].name == name {
          failed := true;
          return i - 1;
        }
        assert locals[..i][..i - 1] == locals[..i - 1] && depths[..i][..i - 1] == depths[..i - 1];
        i := i - 1;
      }
      slot := |locals|;
      locals, depths := locals + [Local(name, typ)], depths + [scopeDepth];
      if slot + 1 > chunk.numLocals {
        chunk := chunk.(numLocals := slot + 1);
      }
    }

    method BeginScope()
      requires Valid()
      modifies `scopeDepth
      ensures Valid() && scopeDepth == old(scopeDepth) + 1
    {
      scopeDepth := scopeDepth + 1;
    }

    /** The variables of the scope go, and leave their slots to others. */
    method EndScope(ghost n: nat)
      requires Valid() && n <= |locals| && InScope(depths[..n], scopeDepth - 1)
      requires forall i :: n <= i < |depths| ==> depths[i] == scopeDepth
      modifies `scopeDepth, `locals, `depths
      ensures Valid() && scopeDepth == old(scopeDepth) - 1
      ensures locals == old(locals)[..n] && depths == old(depths)[..n]
    {
      scopeDepth := scopeDepth - 1;
      ghost var was := depths;
      while |locals| > 0 && depths[|locals| - 1] > scopeDepth
        invariant n <= |locals| == |depths| <= |was| && scopeDepth == old(scopeDepth) - 1
        invariant locals == old(locals)[..|locals|] && depths == was[..|locals|]
      {
        var k := |locals| - 1;
        assert was[..k + 1][..k] == was[..k] && old(locals)[..k + 1][..k] == old(locals)[..k];
        locals, depths := locals[..|locals| - 1], depths[..|depths| - 1];
      }
      assert |locals| == n;
    }

    // ─── Expressions ─────────────────────────────────────────────────────────

    /** Accepts or rejects `e`, and when everything was accepted so far leaves the code
      of `e` at the end of the chunk. */
    method EmitExpr(e: Expr)
      requires Valid() && PlainExpr(e, sg)
      modifies this
      ensures Valid() && Longer(old(chunk), chunk)
      ensures unchanged(`locals, `depths, `scopeDepth, `loops)
      ensures failed == (old(failed) || !OkExpr(e, locals, sg))
      ensures !failed ==> |chunk.code| == |old(chunk.code)| + ExprSize(e, sg)
                          && ExprCode(chunk, sg, e, locals, |old(chunk.code)|)
      decreases Weight(e), 3
    {
      hide *;
      ghost var a := |chunk.code|;
      PlainByKind(e, sg);
      OkByKind(e, locals, sg);
      WeightByKind(e);
      SizeByKind(e, sg);
      if e.Lit? {
        EmitConstant(LiteralValue(e.lit));
      } else if e.Ident? {
        EmitLoad(e.name);
      } else if e.This? {
        EmitLoad("this");
      } else if e.Ternary? {
        EmitTernary(e.cond, e.yes, e.no);
      } else if e.Step? {
        EmitStep(e.post, e.plus, e.target);
      } else if R.IsShortCircuit(e) {
        EmitShortCircuit(e.bop.Or?, e.lhs, e.rhs);
      } else if R.IsOperationExpr(e) {
        EmitOperation(e);
      } else {
        Fail();
        LongerRefl(chunk);
      }
      CodeByKind(chunk, sg, e, locals, a);
    }

    method Fail()
      requires Valid()
      modifies `failed
      ensures Valid() && failed
    {
      failed := true;
    }

    method EmitConstant(v: Value)
      requires Valid()
      modifies `chunk
      ensures Valid() && Longer(old(chunk), chunk)
      ensures |chunk.code| == |old(chunk.code)| + 1 && HasConst(chunk, |old(chunk.code)|, v)
    {
      hide JumpsOpen, HasAsync, InScope;
      var k := AddConstant(v);
      Emit(OpConst(k));
    }

    method EmitLoad(name: string)
      requires Valid() && !Hidden(name)
      modifies `chunk, `failed
      ensures Valid() && Longer(old(chunk), chunk)
      ensures failed == (old(failed) || ResolveLocal(locals, name) < 0)
      ensures !failed ==> |chunk.code| == |old(chunk.code)| + 1 && HasLoad(chunk, |old(chunk.code)|, locals, name)
    {
      hide JumpsOpen, HasAsync, InScope, Hidden;
      var slot := FindLocal(name);
      if slot < 0 {
        failed := true;
        return;
      }
      Emit(OpLoadLocal(slot));
    }

    method EmitTernary(cond: Expr, yes: Expr, no: Expr)
      requires Valid() && PlainExpr(cond, sg) && PlainExpr(yes, sg) && PlainExpr(no, sg)
      modifies this
      ensures Valid() && Longer(old(chunk), chunk)
      ensures unchanged(`locals, `depths, `scopeDepth, `loops)
      ensures failed == (old(failed) || !OkExpr(cond, locals, sg) || !OkExpr(yes, locals, sg)
                         || !OkExpr(no, locals, sg))
      ensures !failed ==>
                |chunk.code| == |old(chunk.code)| + ExprSize(cond, sg) + 1 + ExprSize(yes, sg) + 1 + ExprSize(no, sg)
                          && TernaryCode(chunk, sg, cond, yes, no, locals, |old(chunk.code)|)
      decreases Weight(cond) + Weight(yes) + Weight(no) + 1, 0
    {
      hide *;
      ghost var c0 := chunk;
      EmitExpr(cond);
      ghost var c1 := chunk;
      var toElse := EmitJump(OpJumpIfFalse(0));
      EmitExpr(yes);
      ghost var c2 := chunk;
      var toEnd := EmitJump(OpJump(0));
      TernaryMiddle(c1, c2, toElse, toEnd);
      Patch(toElse, |chunk.code|);
      EmitExpr(no);
      ghost var c3 := chunk;
      TernaryEnd(c1, c2, c3, toElse, toEnd);
      Patch(toEnd, |chunk.code|);
      LongerTrans(c0, c1, chunk);
      if !failed {
        TernaryAssembled(c1, c2, c3, chunk, sg, cond, yes, no, locals, |c0.code|, toElse, toEnd);
      }
    }

    method EmitShortCircuit(isOr: bool, lhs: Expr, rhs: Expr)
      requires Valid() && PlainExpr(lhs, sg) && PlainExpr(rhs, sg)
      modifies this
      ensures Valid() && Longer(old(chunk), chunk)
      ensures unchanged(`locals, `depths, `scopeDepth, `loops)
      ensures failed == (old(failed) || !OkExpr(lhs, locals, sg) || !OkExpr(rhs, locals, sg))
      ensures !failed ==> |chunk.code| == |old(chunk.code)| + ExprSize(lhs, sg) + 1 + ExprSize(rhs, sg)
                          && ShortCircuitCode(chunk, sg, isOr, lhs, rhs, locals, |old(chunk.code)|)
      decreases Weight(lhs) + Weight(rhs) + 1, 0
    {
      hide *;
      ghost var c0 := chunk;
      EmitExpr(lhs);
      ghost var c1 := chunk;
      PeekJumps(isOr);
      var j := EmitJump(PeekJump(isOr));
      EmitExpr(rhs);
      ghost var c2 := chunk;
      ShortCircuitEnd(c1, c2, isOr, j);
      Patch(j, |chunk.code|);
      LongerTrans(c0, c1, chunk);
      if !failed {
        ShortCircuitAssembled(c1, c2, chunk, sg, isOr, lhs, rhs, locals, |c0.code|, j);
      }
    }

    /** Expressions from left to right. */
    method EmitList(es: seq<Expr>)
      requires Valid() && PlainList(es, sg)
      modifies this
      ensures Valid() && Longer(old(chunk), chunk)
      ensures unchanged(`locals, `depths, `scopeDepth, `loops)
      ensures failed == (old(failed) || !OkList(es, locals, sg))
      ensures !failed ==> |chunk.code| == |old(chunk.code)| + ListSize(es, sg)
                          && ListCode(chunk, sg, es, locals, |old(chunk.code)|)
      decreases WeightList(es), 4
    {
      hide *;
      ghost var c0 := chunk;
      var i := 0;
      LongerRefl(chunk);
      EmptyList(chunk, sg, locals, |chunk.code|);
      assert es[..0] == [];
      while i < |es|
        invariant 0 <= i <= |es| && Valid() && Longer(c0, chunk)
        invariant unchanged(`locals, `depths, `scopeDepth, `loops)
        invariant failed == (old(failed) || !OkList(es[..i], locals, sg))
        invariant !failed ==> |chunk.code| == |c0.code| + ListSize(es[..i], sg)
                              && ListCode(chunk, sg, es[..i], locals, |c0.code|)
      {
        ghost var c1 := chunk;
        PlainItem(es, sg, i);
        ItemIsLight(es, i);
        EmitExpr(es[i]);
        LongerTrans(c0, c1, chunk);
        assert es[..i + 1] == es[..i] + [es[i]];
        ListSnoc(chunk, sg, es[..i], es[i], locals, |c0.code|);
        if !failed {
          ListLonger(c1, chunk, sg, es[..i], locals, |c0.code|);
        }
        i := i + 1;
      }
      assert es[..i] == es;
    }

    method EmitOperation(e: Expr)
      requires Valid() && R.IsOperationExpr(e) && PlainList(R.Operands(e, sg), sg)
      modifies this
      ensures Valid() && Longer(old(chunk), chunk)
      ensures unchanged(`locals, `depths, `scopeDepth, `loops)
      ensures failed == (old(failed) || !OkList(R.Operands(e, sg), locals, sg) || !OkOperation(e, sg))
      ensures !failed ==> |chunk.code| == |old(chunk.code)| + ListSize(R.Operands(e, sg), sg) + 1
                          && OperationCode(chunk, sg, e, locals, |old(chunk.code)|)
      decreases Weight(e), 2
    {
      hide *;
      ghost var c0 := chunk;
      ghost var c1: Chunk;
      if R.IsCall(e) {
        CallIs(chunk, 0, sg, e, locals);
        c1 := EmitCall(R.TheCall(e), e.Await?);
        CallIs(chunk, |c1.code|, sg, e, locals);
      } else {
        OperatorIsOk(e, sg);
        EmitList(R.Operands(e, sg));
        c1 := chunk;
        EmitOperator(e);
      }
      LongerTrans(c0, c1, chunk);
      if !failed {
        OperationAssembled(c1, chunk, sg, e, locals, |c0.code|);
      }
    }

    /** The instruction of an operation that is not a call. */
    method EmitOperator(e: Expr)
      requires Valid() && R.IsOperationExpr(e) && !R.IsCall(e)
      modifies `chunk
      ensures Valid() && Longer(old(chunk), chunk)
      ensures |chunk.code| == |old(chunk.code)| + 1 && HasOperation(chunk, |old(chunk.code)|, sg, e, locals)
    {
      hide JumpsOpen, HasAsync, InScope;
      match e
      case Member(_, field) =>
        var k := AddConstant(Str(field));
        Emit(OpGetMember(k));
      case Index(_, _) =>
        Emit(OpGetIndex);
      case Unary(op, _) =>
        Emit(if op.NotOp? then OpNot else OpNeg);
      case Binary(op, l, r) =>
        Emit(BinaryInstr(op, l, r, locals));
      case ListLit(items) =>
        Emit(OpMakeList(|items|));
      case DictLit(entries) =>
        Emit(OpMakeDict(|entries|));
    }

    /** A call: `c1` is the chunk when the operands are there and the instruction is not. */
    method EmitCall(c: Expr, awaited: bool) returns (ghost c1: Chunk)
      requires Valid() && c.Call? && PlainList(R.CallOperands(c, sg), sg)
      modifies this
      ensures Valid() && Longer(old(chunk), c1) && Longer(c1, chunk)
      ensures unchanged(`locals, `depths, `scopeDepth, `loops)
      ensures failed == (old(failed) || !OkList(R.CallOperands(c, sg), locals, sg) || !OkCall(c, awaited, sg))
      ensures !failed ==> |c1.code| == |old(chunk.code)| + ListSize(R.CallOperands(c, sg), sg)
                          && ListCode(c1, sg, R.CallOperands(c, sg), locals, |old(chunk.code)|)
                          && |chunk.code| == |c1.code| + 1 && HasCall(chunk, |c1.code|, sg, c)
      decreases Weight(c), 1
    {
      hide *;
      c1 := chunk;
      match Resolve(c.callee, sg)
      case Builtin(def) =>
        c1 := EmitBuiltin(c, def, awaited);
      case UserFn(sig) =>
        c1 := EmitUserCall(c, sig, awaited);
      case Method(receiver, name) =>
        c1 := EmitMethodCall(c, receiver, name, awaited);
      case Unknown =>
        Fail();
        LongerRefl(chunk);
        UnknownIsRejected(c, awaited, sg);
    }

    method EmitBuiltin(c: Expr, def: NativeDef, awaited: bool) returns (ghost c1: Chunk)
      requires Valid() && c.Call? && PlainList(R.CallOperands(c, sg), sg) && Resolve(c.callee, sg) == Builtin(def)
      modifies this
      ensures Valid() && Longer(old(chunk), c1) && Longer(c1, chunk)
      ensures unchanged(`locals, `depths, `scopeDepth, `loops)
      ensures failed == (old(failed) || !OkList(R.CallOperands(c, sg), locals, sg) || !OkCall(c, awaited, sg))
      ensures !failed ==> |c1.code| == |old(chunk.code)| + ListSize(R.CallOperands(c, sg), sg)
                          && ListCode(c1, sg, R.CallOperands(c, sg), locals, |old(chunk.code)|)
                          && |chunk.code| == |c1.code| + 1 && HasCall(chunk, |c1.code|, sg, c)
      decreases Weight(c), 0
    {
      hide ListCode, ListSize, OkList, PlainList, JumpsOpen, InScope, HasAsync;
      c1 := chunk;
      var n := |c.args|;
      if c.callee.name == "render" || def.isAsync != awaited {
        failed := true;
        return;
      }
      EmitList(c.args);
      c1 := chunk;
      if n < def.minArgs || (def.maxArgs >= 0 && n > def.maxArgs) || n > 255 {
        failed := true;
        return;
      }
      if def.isAsync {
        EmitAsync(def.id, n);
      } else {
        Emit(OpCallNative(def.id, n));
      }
    }

    /** The arguments that are missing are filled in by the caller. */
    method EmitUserCall(c: Expr, sig: FnSig, ghost awaited: bool) returns (ghost c1: Chunk)
      requires Valid() && c.Call? && PlainList(R.CallOperands(c, sg), sg) && Resolve(c.callee, sg) == UserFn(sig)
      modifies this
      ensures Valid() && Longer(old(chunk), c1) && Longer(c1, chunk)
      ensures unchanged(`locals, `depths, `scopeDepth, `loops)
      ensures failed == (old(failed) || !OkList(R.CallOperands(c, sg), locals, sg) || !OkCall(c, awaited, sg))
      ensures !failed ==> |c1.code| == |old(chunk.code)| + ListSize(R.CallOperands(c, sg), sg)
                          && ListCode(c1, sg, R.CallOperands(c, sg), locals, |old(chunk.code)|)
                          && |chunk.code| == |c1.code| + 1 && HasCall(chunk, |c1.code|, sg, c)
      decreases Weight(c), 0
    {
      hide ListCode, ListSize, OkList, PlainList, JumpsOpen, InScope, HasAsync;
      EmitList(R.CallOperands(c, sg));
      c1 := chunk;
      if |c.args| < sig.required || |c.args| > |sig.defaults| || |sig.defaults| > 255 {
        failed := true;
        return;
      }
      R.LiteralsAreLight(sig.defaults[|c.args|..]);
      Emit(OpCallFunction(sig.index, |sig.defaults|));
    }

    method EmitMethodCall(c: Expr, receiver: Expr, name: string, ghost awaited: bool) returns (ghost c1: Chunk)
      requires Valid() && c.Call? && PlainList(R.CallOperands(c, sg), sg)
               && Resolve(c.callee, sg) == Method(receiver, name)
      modifies this
      ensures Valid() && Longer(old(chunk), c1) && Longer(c1, chunk)
      ensures unchanged(`locals, `depths, `scopeDepth, `loops)
      ensures failed == (old(failed) || !OkList(R.CallOperands(c, sg), locals, sg) || !OkCall(c, awaited, sg))
      ensures !failed ==> |c1.code| == |old(chunk.code)| + ListSize(R.CallOperands(c, sg), sg)
                          && ListCode(c1, sg, R.CallOperands(c, sg), locals, |old(chunk.code)|)
                          && |chunk.code| == |c1.code| + 1 && HasCall(chunk, |c1.code|, sg, c)
      decreases Weight(c), 0
    {
      hide ListCode, ListSize, OkList, PlainList, JumpsOpen, InScope, HasAsync;
      EmitList([receiver] + c.args);
      c1 := chunk;
      if |c.args| > 255 {
        failed := true;
        return;
      }
      var k := AddConstant(Str(name));
      Emit(OpCallMethod(k, |c.args|));
    }

    // ─── Steps ───────────────────────────────────────────────────────────────

    method EmitStep(post: bool, plus: bool, target: Expr)
      requires Valid() && PlainTarget(target, sg)
      modifies this
      ensures Valid() && Longer(old(chunk), chunk)
      ensures unchanged(`locals, `depths, `scopeDepth, `loops)
      ensures failed == (old(failed) || !OkTarget(target, locals, sg))
      ensures !failed ==> |chunk.code| == |old(chunk.code)| + StepSize(post, target, sg)
                          && StepCode(chunk, sg, post, plus, target, locals, |old(chunk.code)|)
      decreases Weight(target) + 1, 1
    {
      hide *;
      ghost var a := |chunk.code|;
      WeightByKind(target);
      TargetByKind(target, locals, sg);
      if target.Ident? {
        EmitNameStep(post, plus, target.name);
      } else if target.Member? {
        EmitFieldStep(post, plus, target.obj, target.field);
      } else if target.Index? {
        EmitElementStep(post, plus, target.obj, target.index);
      } else {
        Fail();
        LongerRefl(chunk);
      }
      StepParts(chunk, sg, post, plus, target, locals, a);
    }

    /** A variable is read twice, which is cheaper than a copy. */
    method EmitNameStep(post: bool, plus: bool, name: string)
      requires Valid() && !Hidden(name)
      modifies `chunk, `failed
      ensures Valid() && Longer(old(chunk), chunk)
      ensures failed == (old(failed) || ResolveLocal(locals, name) < 0)
      ensures !failed ==> |chunk.code| == |old(chunk.code)| + 5
                          && NameStepCode(chunk, post, plus, name, locals, |old(chunk.code)|)
    {
      hide *;
      ghost var c0 := chunk;
      LongerRefl(chunk);
      SlotsAreThere();
      var slot := FindLocal(name);
      if slot < 0 {
        Fail();
        return;
      }
      StepIsNotAsync(plus);
      EmitAll(if post then [OpLoadLocal(slot)] else []);
      ghost var c1 := chunk;
      var k := AddConstant(Int(1));
      ghost var d1 := chunk;
      EmitAll([OpLoadLocal(slot), OpConst(k), StepInstr(plus), OpStoreLocal(slot)]);
      ghost var c2 := chunk;
      ConstantStays(d1, c2, k, Int(1));
      WroteAfter(c1, d1, c2, [OpLoadLocal(slot), OpConst(k), StepInstr(plus), OpStoreLocal(slot)]);
      EmitAll(if post then [] else [OpLoadLocal(slot)]);
      NameStepWritten(c0, c1, c2, chunk, post, plus, name, locals, slot, k);
    }

    lemma SlotsAreThere()
      requires Valid()
      ensures |locals| == |depths| <= chunk.numLocals && InScope(depths, scopeDepth)
    {
    }

    /** The object is evaluated once, and kept in a hidden variable. */
    method EmitFieldStep(post: bool, plus: bool, o: Expr, field: string)
      requires Valid() && PlainExpr(o, sg)
      modifies this
      ensures Valid() && Longer(old(chunk), chunk)
      ensures unchanged(`locals, `depths, `scopeDepth, `loops)
      ensures failed == (old(failed) || !OkExpr(o, locals, sg))
      ensures !failed ==>
                var b := |old(chunk.code)| + ExprSize(o, sg);
                && |chunk.code| == b + (if post then 11 else 9)
                && ExprCode(chunk, sg, o, locals, |old(chunk.code)|)
                && FieldStepCode(chunk, post, plus, field, |locals|, b)
      decreases Weight(o) + 2, 0
    {
      hide *;
      ghost var L, D, d, c0 := locals, depths, scopeDepth, chunk;
      SlotsAreThere();
      BeginScope();
      var k := AddConstant(Str(field));
      ghost var d0 := chunk;
      EmitExpr(o);
      ghost var c1 := chunk;
      HiddenNames();
      NoClash(locals, depths, RECEIVER.name, scopeDepth);
      var receiver := DeclareLocal(RECEIVER.name, RECEIVER.typ);
      ghost var d1 := chunk;
      NoClashPast(L, D, RECEIVER, PREVIOUS.name, scopeDepth);
      ConstantOutlives(d0, c1, d1, k, Str(field));
      EmitFieldStepEnd(post, plus, field, k, receiver);
      NewScope(L, locals, D, depths, d);
      EndScope(|L|);
      ThenLonger(c0, d0, c1, d1, chunk);
      if !failed {
        ExprLonger(c1, chunk, sg, o, L, |c0.code|);
      }
    }

    method EmitFieldStepEnd(post: bool, plus: bool, ghost field: string, k: nat, receiver: nat)
      requires Valid() && receiver + 1 == |locals| && IsConstant(chunk, k, Str(field))
      requires !Clashes(locals, depths, PREVIOUS.name, scopeDepth)
      modifies this
      ensures Valid() && Longer(old(chunk), chunk)
      ensures unchanged(`failed, `scopeDepth, `loops)
      ensures locals == old(locals) + [PREVIOUS] && depths == old(depths) + [scopeDepth]
      ensures |chunk.code| == |old(chunk.code)| + (if post then 11 else 9)
      ensures FieldStepCode(chunk, post, plus, field, receiver, |old(chunk.code)|)
    {
      hide *;
      ghost var c0 := chunk;
      SlotsAreThere();
      HiddenNames();
      EmitAll([OpStoreLocal(receiver), OpLoadLocal(receiver), OpGetMember(k)]);
      ghost var c1 := chunk;
      var previous := DeclareLocal(PREVIOUS.name, PREVIOUS.typ);
      ghost var d1 := chunk;
      EmitAll([OpStoreLocal(previous), OpLoadLocal(receiver), OpLoadLocal(previous)]);
      ghost var c2 := chunk;
      var q := AddConstant(Int(1));
      ghost var d2 := chunk;
      StepIsNotAsync(plus);
      EmitAll([OpConst(q), StepInstr(plus), OpSetMember(k)]);
      ghost var c3 := chunk;
      ConstantStays(d2, c3, q, Int(1));
      WroteAfter(c2, d2, c3, [OpConst(q), StepInstr(plus), OpSetMember(k)]);
      EmitPrevious(post, previous);
      FieldStepWritten(c0, c1, d1, c2, c3, chunk, post, plus, field, receiver, k, q);
    }

    /** The store left the new value on the stack: `x++` gives the old one. */
    method EmitPrevious(post: bool, previous: nat)
      requires Valid()
      modifies `chunk
      ensures Valid() && Wrote(old(chunk), chunk, Previous(post, previous))
    {
      hide JumpsOpen, HasAsync, InScope;
      if post {
        Emit(OpPop);
        Emit(OpLoadLocal(previous));
      }
    }

    /** The container and the index are evaluated once. */
    method EmitElementStep(post: bool, plus: bool, o: Expr, index: Expr)
      requires Valid() && PlainExpr(o, sg) && PlainExpr(index, sg)
      modifies this
      ensures Valid() && Longer(old(chunk), chunk)
      ensures unchanged(`locals, `depths, `scopeDepth, `loops)
      ensures failed == (old(failed) || !OkExpr(o, locals, sg) || !OkExpr(index, locals + [CONTAINER], sg))
      ensures !failed ==>
                var c := |old(chunk.code)| + ExprSize(o, sg);
                var b := c + 1 + ExprSize(index, sg);
                && |chunk.code| == b + (if post then 13 else 11)
                && ExprCode(chunk, sg, o, locals, |old(chunk.code)|) && Has(chunk, c, OpStoreLocal(|locals|))
                && ExprCode(chunk, sg, index, locals + [CONTAINER], c + 1)
                && ElementStepCode(chunk, post, plus, |locals|, b)
      decreases Weight(o) + Weight(index) + 2, 0
    {
      hide *;
      ghost var L, D, d, c0 := locals, depths, scopeDepth, chunk;
      SlotsAreThere();
      BeginScope();
      HiddenNames();
      NoClash(locals, depths, CONTAINER.name, scopeDepth);
      var container := EmitHeld(o, CONTAINER);
      ghost var c1 := chunk;
      EmitExpr(index);
      ghost var c2 := chunk;
      NoClashPast(L, D, CONTAINER, POSITION.name, scopeDepth);
      NoClashPastTwo(L, D, CONTAINER, POSITION, PREVIOUS.name, scopeDepth);
      EmitElementStepEnd(post, plus, container);
      NewScope(L, locals, D, depths, d);
      EndScope(|L|);
      LongerTrans(c1, c2, chunk);
      LongerTrans(c0, c1, chunk);
      if !failed {
        HeldLonger(c1, chunk, sg, o, L, |c0.code|);
        ExprLonger(c2, chunk, sg, index, L + [CONTAINER], |c1.code|);
      }
    }

    /** The value of `o` goes to the new variable `x`. */
    method EmitHeld(o: Expr, x: Local) returns (slot: nat)
      requires Valid() && PlainExpr(o, sg) && !Clashes(locals, depths, x.name, scopeDepth)
      modifies this
      ensures Valid() && Longer(old(chunk), chunk) && slot == |old(locals)|
      ensures unchanged(`scopeDepth, `loops)
      ensures locals == old(locals) + [x] && depths == old(depths) + [scopeDepth]
      ensures failed == (old(failed) || !OkExpr(o, old(locals), sg))
      ensures !failed ==>
                var c := |old(chunk.code)| + ExprSize(o, sg);
                && |chunk.code| == c + 1 && ExprCode(chunk, sg, o, old(locals), |old(chunk.code)|)
                && Has(chunk, c, OpStoreLocal(slot))
      decreases Weight(o), 4
    {
      hide *;
      ghost var c0, L := chunk, locals;
      EmitExpr(o);
      ghost var c1 := chunk;
      slot := DeclareLocal(x.name, x.typ);
      ghost var d1 := chunk;
      Emit(OpStoreLocal(slot));
      LongerRefl(chunk);
      StoreWritten(c0, c1, d1, chunk, chunk, OpStoreLocal(slot));
      if !failed {
        ExprLonger(c1, chunk, sg, o, L, |c0.code|);
      }
    }

    method EmitElementStepEnd(post: bool, plus: bool, container: nat)
      requires Valid() && container + 1 == |locals|
      requires !Clashes(locals, depths, POSITION.name, scopeDepth)
      requires !Clashes(locals + [POSITION], depths + [scopeDepth], PREVIOUS.name, scopeDepth)
      modifies this
      ensures Valid() && Longer(old(chunk), chunk)
      ensures unchanged(`failed, `scopeDepth, `loops)
      ensures locals == old(locals) + [POSITION] + [PREVIOUS] && depths == old(depths) + [scopeDepth] + [scopeDepth]
      ensures |chunk.code| == |old(chunk.code)| + (if post then 13 else 11)
      ensures ElementStepCode(chunk, post, plus, container, |old(chunk.code)|)
    {
      hide *;
      ghost var c0 := chunk;
      SlotsAreThere();
      HiddenNames();
      var index := DeclareLocal(POSITION.name, POSITION.typ);
      ghost var d0 := chunk;
      EmitAll([OpStoreLocal(index), OpLoadLocal(container), OpLoadLocal(index), OpGetIndex]);
      ghost var c1 := chunk;
      SlotsAreThere();
      var previous := DeclareLocal(PREVIOUS.name, PREVIOUS.typ);
      ghost var d1 := chunk;
      EmitAll([OpStoreLocal(previous), OpLoadLocal(container), OpLoadLocal(index), OpLoadLocal(previous)]);
      ghost var c2 := chunk;
      var q := AddConstant(Int(1));
      ghost var d2 := chunk;
      StepIsNotAsync(plus);
      EmitAll([OpConst(q), StepInstr(plus), OpSetIndex]);
      ghost var c3 := chunk;
      ConstantStays(d2, c3, q, Int(1));
      WroteAfter(c2, d2, c3, [OpConst(q), StepInstr(plus), OpSetIndex]);
      EmitPrevious(post, previous);
      ElementStepWritten(d0, c1, d1, c2, c3, chunk, post, plus, container, q);
      NothingWritten(c0, d0, chunk);
    }

    // ─── Statements ──────────────────────────────────────────────────────────

    ghost function Now(): Snap
      reads this
    {
      Snap(chunk, locals, depths, loops)
    }

    lemma NowIs()
      ensures Now() == Snap(chunk, locals, depths, loops)
    {
    }

    /** Accepts or rejects `s`, and when everything was accepted so far leaves the code
      of `s` at the end of the chunk, with the jumps of the loop around it open. */
    method EmitStmt(s: Stmt)
      requires Valid() && PlainStmt(s, sg)
      modifies this
      ensures Valid() && scopeDepth == old(scopeDepth) && Advanced(old(Now()), Now(), scopeDepth)
      ensures failed == (old(failed) || !OkStmt(s, old(locals), old(depths), scopeDepth, old(loops) != [], sg))
      ensures !failed ==> Compiled(sg, s, old(Now()), Now(), scopeDepth)
      decreases s, 3
    {
      hide *;
      StmtKinds(s);
      PlainStmtByKind(s, sg);
      if s.If? {
        EmitIf(s);
      } else if s.While? {
        EmitWhile(s);
      } else if s.For? {
        EmitFor(s);
      } else if s.Try? {
        EmitTry(s);
      } else if s.Require? {
        SlotsAreThere();
        OkStmtByKind(s, locals, depths, scopeDepth, loops != [], sg);
        EmitRequire(s.cond, s.otherwise);
      } else if s.Break? || s.Continue? {
        EmitOpenJump(s);
      } else if s.Return? && s.result.None? {
        EmitReturnNull(s);
      } else if s.Assign? && !s.target.Ident? {
        EmitEffect(s);
      } else {
        EmitSimple(s);
      }
    }

    /** One expression and one instruction. */
    method EmitSimple(s: Stmt)
      requires Valid() && PlainStmt(s, sg) && IsSimple(s)
      modifies this
      ensures Valid() && scopeDepth == old(scopeDepth) && Advanced(old(Now()), Now(), scopeDepth)
      ensures failed == (old(failed) || !OkStmt(s, old(locals), old(depths), scopeDepth, old(loops) != [], sg))
      ensures !failed ==> Compiled(sg, s, old(Now()), Now(), scopeDepth)
    {
      hide *;
      ghost var x, d := Now(), scopeDepth;
      NowIs();
      SlotsAreThere();
      StmtKinds(s);
      PlainStmtByKind(s, sg);
      OkStmtByKind(s, locals, depths, scopeDepth, loops != [], sg);
      var slot := 0;
      if s.Assign? {
        slot := FindLocal(s.target.name);
        if slot < 0 {
          Fail();
          LongerRefl(chunk);
          AdvancedLonger(x, x, d);
          NowIs();
          return;
        }
      }
      EmitExpr(SimpleExpr(s));
      ghost var c1 := chunk;
      SlotsAreThere();
      if s.VarDecl? {
        slot := DeclareLocal(s.name, s.typ);
      } else {
        NothingIsWritten(chunk);
      }
      ghost var d1 := chunk;
      SlotsAreThere();
      SimpleOpIsNotAsync(s, slot);
      Emit(SimpleOp(s, slot));
      NowIs();
      SimpleEmitted(x, c1, d1, Now(), s, slot, d);
      if !failed {
        SimpleEndEmitted(x, c1, d1, Now(), s, slot, d);
        SimpleCompiled(sg, s, x, c1, Now(), d);
      }
    }

    method EmitReturnNull(s: Stmt)
      requires Valid() && s.Return? && s.result.None?
      modifies this
      ensures Valid() && scopeDepth == old(scopeDepth) && Advanced(old(Now()), Now(), scopeDepth)
      ensures failed == (old(failed) || !OkStmt(s, old(locals), old(depths), scopeDepth, old(loops) != [], sg))
      ensures !failed ==> Compiled(sg, s, old(Now()), Now(), scopeDepth)
    {
      hide *;
      ghost var x, d := Now(), scopeDepth;
      NowIs();
      SlotsAreThere();
      OkStmtByKind(s, locals, depths, scopeDepth, loops != [], sg);
      Emit(OpReturnNull);
      AppendWrites(x.chunk, OpReturnNull);
      NowIs();
      AdvancedLonger(x, Now(), d);
      JumpCompiled(sg, s, x, Now(), d);
    }

    /** An assignment to an element or to a field: its value is not used. */
    method EmitEffect(s: Stmt)
      requires Valid() && PlainStmt(s, sg) && s.Assign? && !s.target.Ident?
      modifies this
      ensures Valid() && scopeDepth == old(scopeDepth) && Advanced(old(Now()), Now(), scopeDepth)
      ensures failed == (old(failed) || !OkStmt(s, old(locals), old(depths), scopeDepth, old(loops) != [], sg))
      ensures !failed ==> Compiled(sg, s, old(Now()), Now(), scopeDepth)
    {
      hide *;
      ghost var x, d := Now(), scopeDepth;
      NowIs();
      SlotsAreThere();
      PlainStmtByKind(s, sg);
      OkStmtByKind(s, locals, depths, scopeDepth, loops != [], sg);
      if !s.target.Index? && !s.target.Member? {
        Fail();
        LongerRefl(chunk);
        AdvancedLonger(x, x, d);
        NowIs();
        return;
      }
      EmitList(R.AssignOperands(s.target, s.value));
      ghost var c1 := chunk;
      var k := 0;
      if s.target.Member? {
        k := AddConstant(Str(s.target.field));
      }
      ghost var d1 := chunk;
      EmitAll([if s.target.Index? then OpSetIndex else OpSetMember(k), OpPop]);
      NowIs();
      EffectWritten(c1, d1, chunk, s.target, k);
      LongerTrans(x.chunk, c1, chunk);
      AdvancedLonger(x, Now(), d);
      if !failed {
        EffectCompiled(sg, s, x, c1, Now(), d, R.AssignOperands(s.target, s.value));
      }
    }

    /** `break` and `continue`: jumps that the end of the loop fills in. */
    method EmitOpenJump(s: Stmt)
      requires Valid() && (s.Break? || s.Continue?)
      modifies this
      ensures Valid() && scopeDepth == old(scopeDepth) && Advanced(old(Now()), Now(), scopeDepth)
      ensures failed == (old(failed) || !OkStmt(s, old(locals), old(depths), scopeDepth, old(loops) != [], sg))
      ensures !failed ==> Compiled(sg, s, old(Now()), Now(), scopeDepth)
    {
      hide *;
      ghost var x, d := Now(), scopeDepth;
      NowIs();
      SlotsAreThere();
      OkStmtByKind(s, locals, depths, scopeDepth, loops != [], sg);
      if loops == [] {
        Fail();
        LongerRefl(chunk);
        AdvancedLonger(x, x, d);
        NowIs();
        return;
      }
      var j := EmitJump(OpJump(0));
      JumpIsLast(x.chunk, OpJump(0));
      LeaveOpen(s.Break?, j);
      NowIs();
      OpenJumpEmitted(x, Now(), s.Break?, d);
      JumpCompiled(sg, s, x, Now(), d);
    }

    method LeaveOpen(brk: bool, j: nat)
      requires Valid() && loops != [] && j < |chunk.code| && chunk.code[j].OpJump?
      modifies `loops
      ensures Valid() && loops == WithOpen(old(loops), if brk then [j] else [], if brk then [] else [j])
    {
      var n := |loops| - 1;
      var last := loops[n];
      loops := loops[..n] + [if brk then last.(breaks := last.breaks + [j])
                             else last.(continues := last.continues + [j])];
      assert last.breaks + [] == last.breaks && last.continues + [] == last.continues;
    }

    method EmitRequire(cond: Expr, otherwise: Expr)
      requires Valid() && PlainExpr(cond, sg) && PlainExpr(otherwise, sg)
      modifies this
      ensures Valid() && scopeDepth == old(scopeDepth) && Advanced(old(Now()), Now(), scopeDepth)
      ensures failed == (old(failed) || !OkExpr(cond, old(locals), sg) || !OkExpr(otherwise, old(locals), sg))
      ensures !failed ==> Compiled(sg, Require(cond, otherwise), old(Now()), Now(), scopeDepth)
    {
      hide *;
      ghost var x, d := Now(), scopeDepth;
      NowIs();
      SlotsAreThere();
      EmitExpr(cond);
      ghost var c1 := chunk;
      RequireStarts(c1);
      var toOk := EmitJump(OpJumpIfFalse(0));
      var skip := EmitJump(OpJump(0));
      Patch(toOk, |chunk.code|);
      AfterTestIs(c1);
      EmitExpr(otherwise);
      ghost var c2 := chunk;
      RequireWaits(c1, c2);
      Emit(OpReturn);
      Patch(skip, |chunk.code|);
      AfterReturnIs(c1, c2);
      RequirePatches(c1, c2, |x.chunk.code|);
      NowIs();
      LongerTrans(x.chunk, c1, chunk);
      AdvancedLonger(x, Now(), d);
      if !failed {
        RequireCompiled(sg, Require(cond, otherwise), x, c1, c2, Now(), d);
      }
    }

    // ─── Blocks ──────────────────────────────────────────────────────────────

    method EmitStmts(ss: seq<Stmt>)
      requires Valid() && PlainStmts(ss, sg)
      modifies this
      ensures Valid() && scopeDepth == old(scopeDepth) && Advanced(old(Now()), Now(), scopeDepth)
      ensures failed == (old(failed) || !OkStmts(ss, old(locals), old(depths), scopeDepth, old(loops) != [], sg))
      ensures !failed ==> CompiledAll(sg, ss, old(Now()), Now(), scopeDepth)
      decreases ss, 4
    {
      hide *;
      ghost var x, d := Now(), scopeDepth;
      NowIs();
      SlotsAreThere();
      CompiledNothing(sg, x, d);
      EmptyIsOk(locals, depths, d, loops != [], sg);
      assert ss[..0] == [];
      var i := 0;
      while i < |ss|
        invariant 0 <= i <= |ss| && Valid() && scopeDepth == d && Advanced(x, Now(), d)
        invariant failed == (old(failed) || !OkStmts(ss[..i], x.locals, x.depths, d, x.loops != [], sg))
        invariant !failed ==> CompiledAll(sg, ss[..i], x, Now(), d)
      {
        ghost var y := Now();
        NowIs();
        PlainStmtItem(ss, sg, i);
        EmitStmt(ss[i]);
        assert ss[..i + 1] == ss[..i] + [ss[i]];
        AdvancedTrans(x, y, Now(), d);
        AdvancedFacts(x, y, d);
        AdvancedFacts(y, Now(), d);
        OkSnoc(ss[..i], ss[i], x.locals, x.depths, d, x.loops != [], sg);
        CompiledFacts(sg, ss[..i], x, y, d);
        if !failed {
          CompiledSnoc(sg, ss[..i], ss[i], x, y, Now(), d);
        }
        i := i + 1;
      }
      assert ss[..i] == ss;
      NowIs();
    }

    method EmitBlock(ss: seq<Stmt>)
      requires Valid() && PlainStmts(ss, sg)
      modifies this
      ensures Valid() && unchanged(`locals, `depths, `scopeDepth) && Advanced(old(Now()), Now(), scopeDepth)
      ensures failed == (old(failed) || !OkStmts(ss, locals, depths, scopeDepth + 1, old(loops) != [], sg))
      ensures !failed ==> CompiledBlock(sg, ss, old(Now()), Now())
      decreases ss, 5
    {
      hide *;
      ghost var x, d := Now(), scopeDepth;
      NowIs();
      SlotsAreThere();
      BeginScope();
      NowIs();
      EmitStmts(ss);
      ghost var y := Now();
      NowIs();
      AdvancedFacts(x, y, d + 1);
      AdvancedClosed(x, y, d + 1, d);
      InScopeOf(x.depths, d);
      EndScope(|x.locals|);
      NowIs();
      if !failed {
        BlockClosed(sg, ss, x, y, d + 1);
      }
    }

    // ─── Branches ────────────────────────────────────────────────────────────

    method EmitIf(s: Stmt)
      requires Valid() && PlainStmt(s, sg) && s.If?
      modifies this
      ensures Valid() && scopeDepth == old(scopeDepth) && Advanced(old(Now()), Now(), scopeDepth)
      ensures failed == (old(failed) || !OkStmt(s, old(locals), old(depths), scopeDepth, old(loops) != [], sg))
      ensures !failed ==> Compiled(sg, s, old(Now()), Now(), scopeDepth)
      decreases s, 2
    {
      hide *;
      ghost var x, d := Now(), scopeDepth;
      NowIs();
      SlotsAreThere();
      PlainStmtByKind(s, sg);
      OkStmtByKind(s, locals, depths, scopeDepth, loops != [], sg);
      EmitExpr(s.cond);
      ghost var c1 := chunk;
      var toElse := EmitJump(OpJumpIfFalse(0));
      TestedIs(x, c1);
      NowIs();
      ghost var x1 := Now();
      EmitBlock(s.body);
      ghost var y1 := Now();
      NowIs();
      AdvancedFacts(x1, y1, d);
      TestStands(x, c1, x1, y1, d);
      if s.orelse == [] {
        Patch(toElse, |chunk.code|);
        NowIs();
        AdvancedPatched(x, y1, d, toElse, |y1.chunk.code|);
        EmptyIsOk(x.locals, x.depths, d + 1, x.loops != [], sg);
        if !failed {
          IfCompiled(sg, s, x, c1, y1, Now(), d);
        }
      } else {
        var toEnd := EmitJump(OpJump(0));
        ElseWaits(c1, y1);
        Patch(toElse, |chunk.code|);
        BranchedIs(y1, toElse);
        NowIs();
        ghost var x2 := Now();
        EmitBlock(s.orelse);
        ghost var y2 := Now();
        NowIs();
        AdvancedFacts(x2, y2, d);
        ElseStands(x, c1, y1, x2, y2, d);
        Patch(toEnd, |chunk.code|);
        NowIs();
        AdvancedPatched(x, y2, d, toEnd, |y2.chunk.code|);
        if !failed {
          IfElseCompiled(sg, s, x, c1, y1, y2, Now(), d);
        }
      }
    }

    // ─── try ─────────────────────────────────────────────────────────────────

    method EmitTry(s: Stmt)
      requires Valid() && PlainStmt(s, sg) && s.Try?
      modifies this
      ensures Valid() && scopeDepth == old(scopeDepth) && Advanced(old(Now()), Now(), scopeDepth)
      ensures failed == (old(failed) || !OkStmt(s, old(locals), old(depths), scopeDepth, old(loops) != [], sg))
      ensures !failed ==> Compiled(sg, s, old(Now()), Now(), scopeDepth)
      decreases s, 2
    {
      hide *;
      ghost var x, d := Now(), scopeDepth;
      NowIs();
      SlotsAreThere();
      PlainStmtByKind(s, sg);
      OkStmtByKind(s, locals, depths, scopeDepth, loops != [], sg);
      var begin := |chunk.code|;
      EmitBlock(s.body);
      ghost var y1 := Now();
      NowIs();
      AdvancedFacts(x, y1, d);
      var toEnd := EmitJump(OpJump(0));
      AddRange(TryRange(begin, toEnd, |chunk.code|));
      GuardedIs(y1.chunk, begin);
      BeginScope();
      StartCatch(s.name);
      ghost var x2 := Now();
      NowIs();
      SlotsAreThere();
      EmitStmts(s.orelse);
      ghost var y2 := Now();
      NowIs();
      CatchAdvanced(x, y1, begin, x2, y2, s.name, d);
      InScopeOf(x.depths, d);
      EndScope(|x.locals|);
      Patch(toEnd, |chunk.code|);
      NowIs();
      AdvancedPatched(x, y2.(locals := x.locals, depths := x.depths), d, toEnd, |y2.chunk.code|);
      if !failed {
        TryCompiled(sg, s, x, y1, x2, y2, Now(), d);
      }
    }

    method AddRange(r: TryRange)
      requires Valid()
      modifies `chunk
      ensures Valid() && chunk == old(chunk).(ranges := old(chunk.ranges) + [r])
    {
      chunk := chunk.(ranges := chunk.ranges + [r]);
    }

    /** The error is on the stack: it goes to the variable of the `catch`, if it has one. */
    method StartCatch(name: string)
      requires Valid() && InScope(depths, scopeDepth - 1) && (name != "" ==> !Hidden(name))
      modifies this
      ensures Valid() && unchanged(`scopeDepth, `loops, `failed)
      ensures Wrote(old(chunk), chunk, [if name == "" then OpPop else OpStoreLocal(|old(locals)|)])
      ensures locals == CatchLocals(name, old(locals)) && depths == CatchDepths(name, old(depths), scopeDepth)
      ensures name != "" ==> |old(locals)| < chunk.numLocals
    {
      hide JumpsOpen, HasAsync, Clashes;
      if name == "" {
        Emit(OpPop);
      } else {
        NoClash(locals, depths, name, scopeDepth);
        var slot := DeclareLocal(name, "");
        Emit(OpStoreLocal(slot));
      }
    }

    // ─── Loops ───────────────────────────────────────────────────────────────

    method PatchAll(js: seq<nat>, target: nat)
      requires Valid() && AreJumps(js, chunk.code)
      modifies `chunk
      ensures Valid() && AllPatched(old(chunk), js, target, chunk)
    {
      hide JumpsOpen, HasAsync, InScope;
      var i := 0;
      while i < |js|
        invariant 0 <= i <= |js| && Valid() && AllPatched(old(chunk), js[..i], target, chunk)
      {
        assert js[i] in js;
        assert js[..i + 1] == js[..i] + [js[i]];
        Patch(js[i], target);
        i := i + 1;
      }
      assert js[..i] == js;
    }

    method BeginLoop()
      requires Valid()
      modifies `loops
      ensures Valid() && loops == old(loops) + [LoopCtx([], [])]
    {
      loops := loops + [LoopCtx([], [])];
    }

    method EndLoop()
      requires Valid() && loops != []
      modifies `loops
      ensures Valid() && loops == old(loops)[..|old(loops)| - 1]
    {
      loops := loops[..|loops| - 1];
    }

    lemma LoopJumps()
      requires Valid() && loops != []
      ensures AreJumps(loops[|loops| - 1].breaks, chunk.code) && AreJumps(loops[|loops| - 1].continues, chunk.code)
    {
    }

    method EmitWhile(s: Stmt)
      requires Valid() && PlainStmt(s, sg) && s.While?
      modifies this
      ensures Valid() && scopeDepth == old(scopeDepth) && Advanced(old(Now()), Now(), scopeDepth)
      ensures failed == (old(failed) || !OkStmt(s, old(locals), old(depths), scopeDepth, old(loops) != [], sg))
      ensures !failed ==> Compiled(sg, s, old(Now()), Now(), scopeDepth)
      decreases s, 2
    {
      hide *;
      ghost var x, d := Now(), scopeDepth;
      NowIs();
      SlotsAreThere();
      PlainStmtByKind(s, sg);
      OkStmtByKind(s, locals, depths, scopeDepth, loops != [], sg);
      var start := |chunk.code|;
      EmitExpr(s.cond);
      ghost var c1 := chunk;
      var toEnd := EmitJump(OpJumpIfFalse(0));
      TestedIs(x, c1);
      BeginLoop();
      LoopingIs(Tested(x, c1));
      ghost var x1 := Now();
      NowIs();
      EmitBlock(s.body);
      ghost var y1 := Now();
      NowIs();
      LoopAdvanced(Tested(x, c1), y1, d);
      LoopJumps();
      PatchAll(loops[|loops| - 1].continues, start);
      ghost var c2 := chunk;
      Emit(OpJump(start));
      WhileStands(x, c1, x1, y1, c2, start, d);
      Patch(toEnd, |chunk.code|);
      LoopJumps();
      PatchAll(loops[|loops| - 1].breaks, |chunk.code|);
      EndLoop();
      NowIs();
      WhileAdvanced(x, c1, x1, y1, c2, Now(), d);
      if !failed {
        WhileCompiled(sg, s, x, c1, y1, c2, Now(), d);
      }
    }

    // ─── for ─────────────────────────────────────────────────────────────────

    /** Instructions whose result goes to the new variable `x`. */
    method EmitDeclared(ops: seq<Instr>, x: Local) returns (slot: nat)
      requires Valid() && forall i :: 0 <= i < |ops| ==> !ops[i].OpCallAsync?
      requires !Clashes(locals, depths, x.name, scopeDepth)
      modifies this
      ensures Valid() && unchanged(`scopeDepth, `loops, `failed) && slot == |old(locals)|
      ensures locals == old(locals) + [x] && depths == old(depths) + [scopeDepth]
      ensures Wrote(old(chunk), chunk, ops + [OpStoreLocal(slot)]) && chunk.constants == old(chunk.constants)
    {
      hide JumpsOpen, HasAsync, InScope, Clashes;
      EmitAll(ops);
      slot := DeclareLocal(x.name, x.typ);
      Emit(OpStoreLocal(slot));
    }

    /** The list, its length and the index go to hidden variables; the user's comes last. */
    method EmitForHead(s: Stmt)
      requires Valid() && s.For? && !Hidden(s.name) && InScope(depths, scopeDepth - 1)
      modifies this
      ensures Valid() && unchanged(`scopeDepth, `loops, `failed) && Longer(old(chunk), chunk)
      ensures locals == ForLocals(s, old(locals))
      ensures depths == old(depths) + [scopeDepth, scopeDepth, scopeDepth, scopeDepth]
      ensures |chunk.code| == |old(chunk.code)| + 7 && |old(locals)| + 4 <= chunk.numLocals
      ensures ForHead(chunk, |old(chunk.code)|, |old(locals)|) && HasLen(chunk, |old(chunk.code)| + 3, sg)
    {
      hide *;
      ghost var L, D, d, c0 := locals, depths, scopeDepth, chunk;
      SlotsAreThere();
      ForNoClash(s, L, D, d);
      var items := EmitDeclared([OpIterList], ITEMS);
      ghost var c1 := chunk;
      var count := EmitDeclared([OpLoadLocal(items), OpCallNative(sg.lenId, 1)], COUNT);
      ghost var c2 := chunk;
      var k := AddConstant(Int(0));
      ghost var d2 := chunk;
      var index := EmitDeclared([OpConst(k)], INDEX);
      ghost var c3 := chunk;
      ConstantStays(d2, c3, k, Int(0));
      var variable := DeclareLocal(s.name, s.typ);
      SlotsAreThere();
      ForHeadWritten(c0, c1, c2, d2, c3, chunk, sg, |L|, k);
    }

    method EmitForTest(n: nat) returns (toEnd: nat)
      requires Valid()
      modifies `chunk
      ensures Valid() && chunk == ForTested(old(chunk), n) && toEnd == |old(chunk.code)| + 3
    {
      hide JumpsOpen, HasAsync, InScope;
      Emit(OpLoadLocal(n + 2));
      Emit(OpLoadLocal(n + 1));
      Emit(OpLt);
      toEnd := EmitJump(OpJumpIfFalse(0));
      Emit(OpLoadLocal(n));
      Emit(OpLoadLocal(n + 2));
      Emit(OpGetIndex);
      Emit(OpStoreLocal(n + 3));
    }

    /** The test, the body and the increment of a `for`, from state `x1` on.  `y1` is the
      state after the body; `c2` and `c3` are the chunks around the increment. */
    method EmitForLoop(s: Stmt, n: nat, ghost x1: Snap)
      returns (ghost y1: Snap, ghost c2: Chunk, ghost k: nat, ghost c3: Chunk)
      requires Valid() && s.For? && PlainStmts(s.body, sg) && x1 == Now()
      modifies this
      ensures Valid() && unchanged(`locals, `depths, `scopeDepth) && |y1.loops| == |x1.loops| + 1
      ensures Advanced(Looping(x1.(chunk := ForTested(x1.chunk, n))), y1, scopeDepth) && loops == y1.loops[..|x1.loops|]
      ensures y1.locals == x1.locals && y1.depths == x1.depths
      ensures AllPatched(y1.chunk, y1.loops[|x1.loops|].continues, |y1.chunk.code|, c2) && IsConstant(c3, k, Int(1))
      ensures Wrote(c2, c3, NextOps(n, k, |x1.chunk.code|)) && |x1.chunk.code| + 3 < |c3.code|
      ensures AllPatched(PatchedAt(c3, |x1.chunk.code| + 3, |y1.chunk.code| + 5),
                         y1.loops[|x1.loops|].breaks, |y1.chunk.code| + 5, chunk)
      ensures failed == (old(failed) || !OkStmts(s.body, locals, depths, scopeDepth + 1, true, sg))
      ensures !failed ==> CompiledBlock(sg, s.body, Looping(x1.(chunk := ForTested(x1.chunk, n))), y1)
      decreases s, 1
    {
      hide *;
      NowIs();
      SlotsAreThere();
      var start := |chunk.code|;
      var toEnd := EmitForTest(n);
      BeginLoop();
      LoopingIs(x1.(chunk := ForTested(x1.chunk, n)));
      ghost var x2 := Now();
      NowIs();
      EmitBlock(s.body);
      y1 := Now();
      NowIs();
      LoopAdvanced(x1.(chunk := ForTested(x1.chunk, n)), y1, scopeDepth);
      LoopJumps();
      PatchAll(loops[|loops| - 1].continues, |chunk.code|);
      c2 := chunk;
      var one := AddConstant(Int(1));
      ghost var d2 := chunk;
      k := one;
      NextIsNotAsync(n, one, start);
      EmitAll(NextOps(n, one, start));
      c3 := chunk;
      ConstantStays(d2, c3, one, Int(1));
      WroteAfter(c2, d2, c3, NextOps(n, one, start));
      ForStands(x1, n, x2, y1, c2, c3, k, scopeDepth);
      Patch(toEnd, |chunk.code|);
      LoopJumps();
      PatchAll(loops[|loops| - 1].breaks, |chunk.code|);
      EndLoop();
    }

    method EmitFor(s: Stmt)
      requires Valid() && PlainStmt(s, sg) && s.For?
      modifies this
      ensures Valid() && scopeDepth == old(scopeDepth) && Advanced(old(Now()), Now(), scopeDepth)
      ensures failed == (old(failed) || !OkStmt(s, old(locals), old(depths), scopeDepth, old(loops) != [], sg))
      ensures !failed ==> Compiled(sg, s, old(Now()), Now(), scopeDepth)
      decreases s, 2
    {
      hide *;
      ghost var x, d := Now(), scopeDepth;
      NowIs();
      SlotsAreThere();
      PlainStmtByKind(s, sg);
      OkStmtByKind(s, locals, depths, scopeDepth, loops != [], sg);
      BeginScope();
      EmitExpr(s.iterable);
      ghost var c1 := chunk;
      InScopeOf(depths, d);
      EmitForHead(s);
      ghost var x1 := Now();
      NowIs();
      ForLocalsLength(s, x.locals);
      var n := |locals| - 4;
      ghost var y1, c2, k, c3 := EmitForLoop(s, n, x1);
      InScopeOf(x.depths, d);
      ForScope(s, x.locals, x.depths, d);
      EndScope(|x.locals|);
      NowIs();
      ForAdvanced(x, c1, x1, y1, c2, c3, k, n, Now(), d);
      if !failed {
        ForCompiled(sg, s, x, c1, x1, y1, c2, k, c3, Now(), d);
      }
    }

    // ─── Declarations ────────────────────────────────────────────────────────

    constructor (sigs: Sigs)
      ensures Valid() && sg == sigs
    {
      sg := sigs;
      chunk := Chunk([], [], [], 0, false);
      failed, locals, depths, scopeDepth, loops := false, [], [], 0, [];
    }

    method Reset()
      modifies this
      ensures Valid() && !failed && Now() == Snap(Chunk([], [], [], 0, false), [], [], []) && scopeDepth == 0
    {
      chunk := Chunk([], [], [], 0, false);
      failed, locals, depths, scopeDepth, loops := false, [], [], 0, [];
    }

    /** The parameters take the first slots, in order. */
    method DeclareParams(params: seq<Param>)
      requires Valid() && locals == [] && scopeDepth == 0 && !failed && loops == []
      modifies this
      ensures Valid() && unchanged(`scopeDepth, `loops) && Wrote(old(chunk), chunk, [])
      ensures failed == !DistinctParams(params)
      ensures !failed ==> locals == ParamLocals(params) && depths == Zeros(|params|)
    {
      hide JumpsOpen, HasAsync, Clashes, ParamLocals, DistinctParams;
      ghost var c0 := chunk;
      NoParams();
      var i := 0;
      while i < |params|
        invariant 0 <= i <= |params| && Valid() && unchanged(`scopeDepth, `loops) && Wrote(c0, chunk, [])
        invariant failed == !DistinctParams(params[..i])
        invariant !failed ==> locals == ParamLocals(params[..i]) && depths == Zeros(i)
      {
        ParamSnoc(params, i);
        var _ := DeclareLocal(params[i].name, params[i].typ);
        i := i + 1;
      }
      assert params[..i] == params;
    }

    /** Compiles a route: its guards, outermost first, then its body.  It is rejected
      exactly when `OkDecl` says so; otherwise `out` is the code of the declaration. */
    method EmitRoute(decl: Decl) returns (ok: bool, out: Chunk)
      requires PlainDecl(decl, sg)
      modifies this
      ensures ok <==> OkDecl(decl, sg)
      ensures ok ==> DeclCode(out, sg, decl)
      ensures out.hasAwait <==> HasAsync(out.code)
    {
      hide *;
      DeclParts(decl, sg);
      Reset();
      NowIs();
      EmptyChunk();
      DeclareParams(decl.params);
      ghost var x := Now();
      NowIs();
      SlotsAreThere();
      CompiledNothing(sg, x, 0);
      EmptyIsOk(locals, depths, 0, false, sg);
      NoGuards(decl.guards);
      var i := 0;
      while i < |decl.guards|
        invariant 0 <= i <= |decl.guards| && Valid() && scopeDepth == 0 && Advanced(x, Now(), 0)
        invariant failed == (!DistinctParams(decl.params)
                             || !OkStmts(R.GuardStmts(decl.guards[..i]), x.locals, x.depths, 0, false, sg))
        invariant !failed ==> CompiledAll(sg, R.GuardStmts(decl.guards[..i]), x, Now(), 0)
      {
        ghost var y := Now();
        NowIs();
        ghost var gs, s := R.GuardStmts(decl.guards[..i]), Require(decl.guards[i].condition, decl.guards[i].otherwise);
        PlainGuard(decl.guards, sg, i);
        GuardSnoc(decl.guards, i);
        AdvancedFacts(x, y, 0);
        OkSnoc(gs, s, x.locals, x.depths, 0, false, sg);
        OkStmtByKind(s, AfterAll(gs, x.locals), AfterAllDepths(gs, x.depths, 0), 0, false, sg);
        CompiledFacts(sg, gs, x, y, 0);
        EmitRequire(decl.guards[i].condition, decl.guards[i].otherwise);
        AdvancedTrans(x, y, Now(), 0);
        AdvancedFacts(y, Now(), 0);
        if !failed {
          CompiledSnoc(sg, gs, s, x, y, Now(), 0);
        }
        i := i + 1;
      }
      assert decl.guards[..i] == decl.guards;
      ghost var y := Now();
      NowIs();
      AdvancedFacts(x, y, 0);
      GuardsDeclareNothing(decl.guards, x.locals);
      GuardsKeepDepths(decl.guards, x.depths);
      CompiledFacts(sg, R.GuardStmts(decl.guards), x, y, 0);
      EmitBlock(decl.body);
      ghost var z := Now();
      NowIs();
      AdvancedFacts(y, z, 0);
      Emit(OpReturnNull);
      ok, out := !failed, chunk;
      AwaitIsKnown();
      if ok {
        DeclCompiled(sg, decl, x, y, z, out);
      }
    }

    lemma AwaitIsKnown()
      requires Valid()
      ensures chunk.hasAwait <==> HasAsync(chunk.code)
    {
    }

    /** A user function: a declaration without guards. */
    method EmitFunction(params: seq<Param>, body: seq<Stmt>) returns (ok: bool, out: Chunk)
      requires PlainDecl(Decl(params, [], body), sg)
      modifies this
      ensures ok <==> OkDecl(Decl(params, [], body), sg)
      ensures ok ==> DeclCode(out, sg, Decl(params, [], body))
      ensures out.hasAwait <==> HasAsync(out.code)
    {
      ok, out := EmitRoute(Decl(params, [], body));
    }
  }
}
