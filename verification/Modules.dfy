/** The functions of a source file: their signatures, and their code in the order they
  are declared in. */
module Modules {
  import opened Wrappers
  import opened Values
  import opened Ast
  import opened Bytecode
  import opened Machine
  import opened Layout
  import opened Acceptance
  import opened Composition
  import opened Emission
  import R = Reference

  datatype FnParam = FnParam(param: Param, default: Option<Literal>)

  datatype Function = Function(name: string, params: seq<FnParam>, body: seq<Stmt>)

  function ParamsOf(ps: seq<FnParam>): (r: seq<Param>)
    ensures |r| == |ps|
  {
    seq(|ps|, i requires 0 <= i < |ps| => ps[i].param)
  }

  function DefaultsOf(ps: seq<FnParam>): (r: seq<Option<Literal>>)
    ensures |r| == |ps|
  {
    seq(|ps|, i requires 0 <= i < |ps| => ps[i].default)
  }

  function DeclOf(f: Function): Decl { Decl(ParamsOf(f.params), [], f.body) }

  function DeclsOf(fns: seq<Function>): (r: seq<Decl>)
    ensures |r| == |fns| && forall i :: 0 <= i < |fns| ==> r[i] == DeclOf(fns[i])
  {
    seq(|fns|, i requires 0 <= i < |fns| => DeclOf(fns[i]))
  }

  /** How many parameters have no default value. */
  function Required(ps: seq<FnParam>): nat {
    if ps == [] then 0 else Required(ps[..|ps| - 1]) + (if ps[|ps| - 1].default.None? then 1 else 0)
  }

  /** No parameter without a default value follows one with it. */
  predicate DefaultsLast(ps: seq<FnParam>) {
    forall i, j :: 0 <= i < j < |ps| && ps[i].default.Some? ==> ps[j].default.Some?
  }

  /** With the defaults at the end they are the first ones. */
  lemma {:induction false} RequiredMeans(ps: seq<FnParam>)
    requires DefaultsLast(ps)
    ensures Required(ps) <= |ps| && forall i :: 0 <= i < |ps| ==> (ps[i].default.None? <==> i < Required(ps))
    decreases |ps|
  {
    if ps != [] {
      var n := |ps| - 1;
      assert forall i :: 0 <= i < n ==> ps[..n][i] == ps[i];
      RequiredMeans(ps[..n]);
    }
  }

  function SigOf(index: nat, f: Function): FnSig {
    FnSig(index, Required(f.params), DefaultsOf(f.params))
  }

  /** The signature of each function, by name. */
  function Signatures(fns: seq<Function>): (r: map<string, FnSig>)
  {
    if fns == [] then map[]
    else
      var n := |fns| - 1;
      Signatures(fns[..n])[fns[n].name := SigOf(n, fns[n])]
  }

  function SigsOf(fns: seq<Function>, natives: map<string, NativeDef>, lenId: nat): Sigs {
    Sigs(natives, Signatures(fns), lenId)
  }

  /** The name is new, and not a builtin's. */
  predicate GoodSignature(fns: seq<Function>, natives: map<string, NativeDef>, i: nat)
    requires i < |fns|
  {
    && fns[i].name !in natives && (forall j :: 0 <= j < i ==> fns[j].name != fns[i].name)
    && DefaultsLast(fns[i].params)
  }

  predicate GoodSignatures(fns: seq<Function>, natives: map<string, NativeDef>) {
    forall i: nat :: i < |fns| ==> GoodSignature(fns, natives, i)
  }

  /** What the compiler accepts. */
  predicate Accepted(fns: seq<Function>, natives: map<string, NativeDef>, lenId: nat) {
    && GoodSignatures(fns, natives)
    && forall i :: 0 <= i < |fns| ==> OkDecl(DeclOf(fns[i]), SigsOf(fns, natives, lenId))
  }

  lemma {:induction false} NamesOfSignatures(fns: seq<Function>, name: string)
    ensures name in Signatures(fns) <==> exists i :: 0 <= i < |fns| && fns[i].name == name
    ensures name in Signatures(fns) ==>
              var s := Signatures(fns)[name];
              s.index < |fns| && fns[s.index].name == name && s == SigOf(s.index, fns[s.index])
  {
    if fns != [] {
      var n := |fns| - 1;
      NamesOfSignatures(fns[..n], name);
      if i :| 0 <= i < n && fns[i].name == name {
        assert fns[..n][i].name == name;
      }
    }
  }

  lemma {:induction false} ListIsOkParts(a: seq<Expr>, b: seq<Expr>, L: seq<Local>, sg: Sigs)
    ensures OkList(a + b, L, sg) <==> OkList(a, L, sg) && OkList(b, L, sg)
    decreases |a|
  {
    hide OkExpr;
    if a == [] {
      assert a + b == b;
    } else {
      assert (a + b)[1..] == a[1..] + b;
      ListIsOkParts(a[1..], b, L, sg);
    }
  }

  lemma {:induction false} DefaultsAreOk(ds: seq<Option<Literal>>, L: seq<Local>, sg: Sigs)
    ensures OkList(DefaultArgs(ds), L, sg)
    decreases |ds|
  {
    if ds != [] {
      DefaultsAreOk(ds[1..], L, sg);
      var l := match ds[0] case Some(l) => l case None => NullLit;
      assert OkExpr(Lit(l), L, sg);
      assert DefaultArgs(ds)[0] == Lit(l) && DefaultArgs(ds)[1..] == DefaultArgs(ds[1..]);
    }
  }

  /** The name of a function leads to it. */
  lemma SignatureOf(fns: seq<Function>, natives: map<string, NativeDef>, lenId: nat, i: nat)
    requires GoodSignatures(fns, natives) && i < |fns|
    ensures Resolve(Ident(fns[i].name), SigsOf(fns, natives, lenId)) == UserFn(SigOf(i, fns[i]))
  {
    hide SigOf, DefaultsLast;
    NamesOfSignatures(fns, fns[i].name);
    assert fns[i].name in Signatures(fns);
    assert GoodSignature(fns, natives, i) && GoodSignature(fns, natives, Signatures(fns)[fns[i].name].index);
  }

  /** A call of a function is accepted if and only if its arguments are, there are not more of them than
    parameters, and not more than 255 parameters, and every parameter that none is left for has a default. */
  lemma CallsAccepted(fns: seq<Function>, natives: map<string, NativeDef>, lenId: nat, i: nat, args: seq<Expr>,
                      L: seq<Local>)
    requires GoodSignatures(fns, natives) && i < |fns|
    ensures var sg, ps := SigsOf(fns, natives, lenId), fns[i].params;
            OkExpr(Call(Ident(fns[i].name), args), L, sg)
            <==> && OkList(args, L, sg) && |args| <= |ps| <= 255
                 && forall k :: |args| <= k < |ps| ==> ps[k].default.Some?
  {
    hide OkList, DefaultsLast, Required, Resolve, Signatures;
    var sg, ps := SigsOf(fns, natives, lenId), fns[i].params;
    var e, sig := Call(Ident(fns[i].name), args), SigOf(i, fns[i]);
    SignatureOf(fns, natives, lenId, i);
    assert GoodSignature(fns, natives, i);
    RequiredMeans(ps);
    assert OkExpr(e, L, sg) <==> OkList(FullArgs(args, sig), L, sg) && OkCall(e, false, sg);
    if |args| <= |ps| {
      var rest := DefaultArgs(sig.defaults[|args|..]);
      ListIsOkParts(args, rest, L, sg);
      DefaultsAreOk(sig.defaults[|args|..], L, sg);
    }
  }

  lemma NoSignatures(fns: seq<Function>)
    ensures fns[..0] == [] && Signatures(fns[..0]) == map[]
  {
  }

  lemma OneMoreSignature(fns: seq<Function>, natives: map<string, NativeDef>, i: nat)
    requires i < |fns|
    ensures Signatures(fns[..i + 1])
            == Signatures(fns[..i])[fns[i].name := FnSig(i, Required(fns[i].params), DefaultsOf(fns[i].params))]
    ensures GoodSignature(fns, natives, i)
            <==> fns[i].name !in natives && fns[i].name !in Signatures(fns[..i]) && DefaultsLast(fns[i].params)
  {
    hide DefaultsLast;
    assert fns[..i + 1][..i] == fns[..i];
    NamesOfSignatures(fns[..i], fns[i].name);
    if k :| 0 <= k < i && fns[k].name == fns[i].name {
      assert fns[..i][k].name == fns[i].name;
    }
  }

  /** One pass over the parameters of a function. */
  method MakeSig(index: nat, ps: seq<FnParam>) returns (sig: FnSig, ok: bool)
    ensures sig == FnSig(index, Required(ps), DefaultsOf(ps)) && (ok <==> DefaultsLast(ps))
  {
    var required := 0;
    var defaults: seq<Option<Literal>> := [];
    var seenDefault := false;
    ok := true;
    var i := 0;
    while i < |ps|
      invariant 0 <= i <= |ps| && required == Required(ps[..i]) && defaults == DefaultsOf(ps[..i])
      invariant seenDefault <==> exists j :: 0 <= j < i && ps[j].default.Some?
      invariant ok <==> DefaultsLast(ps[..i])
    {
      assert ps[..i + 1][..i] == ps[..i];
      defaults := defaults + [ps[i].default];
      if ps[i].default.Some? {
        seenDefault := true;
      } else {
        if seenDefault {
          ok := false;
          assert !DefaultsLast(ps[..i + 1]) by {
            var j :| 0 <= j < i && ps[j].default.Some?;
            assert ps[..i + 1][j].default.Some? && ps[..i + 1][i].default.None?;
          }
        }
        required := required + 1;
      }
      assert DefaultsLast(ps[..i + 1]) ==> DefaultsLast(ps[..i]) by {
        assert forall j :: 0 <= j < i ==> ps[..i + 1][j] == ps[..i][j];
      }
      i := i + 1;
    }
    assert ps[..i] == ps;
    sig := FnSig(index, required, defaults);
  }

  /** Gives every function its place. */
  method BuildIndex(fns: seq<Function>, natives: map<string, NativeDef>) returns (ok: bool, index: map<string, FnSig>)
    ensures ok <==> GoodSignatures(fns, natives)
    ensures ok ==> index == Signatures(fns)
  {
    hide GoodSignature, Signatures, DefaultsLast, SigOf;
    index, ok := map[], true;
    var i := 0;
    NoSignatures(fns);
    while i < |fns|
      invariant 0 <= i <= |fns|
      invariant ok ==> index == Signatures(fns[..i])
      invariant ok <==> forall k: nat :: k < i ==> GoodSignature(fns, natives, k)
    {
      OneMoreSignature(fns, natives, i);
      var f := fns[i];
      if f.name in natives || f.name in index {
        ok := false;
      } else {
        var sig, inOrder := MakeSig(i, f.params);
        ok := ok && inOrder;
        index := index[f.name := sig];
      }
      i := i + 1;
    }
    assert fns[..i] == fns;
  }

  /** Functions can call each other in any order: the places come first, and then the
    bodies are compiled. */
  method BuildFunctions(fns: seq<Function>, natives: map<string, NativeDef>, lenId: nat)
    returns (ok: bool, sigs: Sigs, functions: seq<Chunk>)
    requires forall i :: 0 <= i < |fns| ==> PlainDecl(DeclOf(fns[i]), SigsOf(fns, natives, lenId))
    ensures ok <==> Accepted(fns, natives, lenId)
    ensures ok ==> sigs == SigsOf(fns, natives, lenId)
    ensures ok ==> forall host: Host :: Linked(Program(functions, host, lenId), R.Source(sigs, DeclsOf(fns), host))
  {
    hide OkDecl, PlainDecl, DeclCode, GoodSignatures, Linked, Signatures;
    var index: map<string, FnSig>;
    ok, index := BuildIndex(fns, natives);
    sigs, functions := Sigs(natives, index, lenId), [];
    if !ok {
      return;
    }
    var i := 0;
    while i < |fns|
      invariant 0 <= i <= |fns| && |functions| == i
      invariant ok <==> forall k :: 0 <= k < i ==> OkDecl(DeclOf(fns[k]), sigs)
      invariant ok ==> forall k :: 0 <= k < i ==> DeclCode(functions[k], sigs, DeclOf(fns[k]))
    {
      var emitter := new Emitter(sigs);
      var accepted, chunk := emitter.EmitFunction(ParamsOf(fns[i].params), fns[i].body);
      ok := ok && accepted;
      functions := functions + [chunk];
      i := i + 1;
    }
    if ok {
      forall host: Host
        ensures Linked(Program(functions, host, lenId), R.Source(sigs, DeclsOf(fns), host))
      {
        LinkedModule(fns, sigs, functions, host, natives, lenId);
      }
    }
  }

  lemma LinkedModule(fns: seq<Function>, sigs: Sigs, functions: seq<Chunk>, host: Host, natives: map<string, NativeDef>,
                     lenId: nat)
    requires sigs == SigsOf(fns, natives, lenId) && |functions| == |fns|
    requires forall k :: 0 <= k < |fns| ==> DeclCode(functions[k], sigs, DeclOf(fns[k]))
    ensures Linked(Program(functions, host, lenId), R.Source(sigs, DeclsOf(fns), host))
  {
    hide DeclCode;
    forall name | name in sigs.functions
      ensures SigMatches(R.Source(sigs, DeclsOf(fns), host), sigs.functions[name])
    {
      NamesOfSignatures(fns, name);
    }
  }
}
