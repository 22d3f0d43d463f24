/** Slots of a frame against variables in scope: the environment of the reference
  semantics is what the slots of the visible variables hold. */
module Slots {
  import opened Wrappers
  import opened Values
  import opened Ast
  import opened Layout
  import Reference

  /** The variables in scope `L` and their values, when the slots hold `f`.  Hidden
    variables are not the program's, and are not in its environment. */
  function EnvOf(L: seq<Local>, f: seq<Value>): seq<Reference.Binding>
    requires |L| <= |f|
  {
    if L == [] then []
    else
      var n := |L| - 1;
      EnvOf(L[..n], f) + (if Hidden(L[n].name) then [] else [Reference.Binding(L[n].name, f[n])])
  }

  /** The hidden variables of `L` have the same values in `f` and `g`. */
  predicate Keeps(L: seq<Local>, f: seq<Value>, g: seq<Value>) {
    |f| == |g| && |L| <= |f| && forall i :: 0 <= i < |L| && Hidden(L[i].name) ==> f[i] == g[i]
  }

  /** Only the slots of `L` matter. */
  lemma {:induction false} EnvIsLocal(L: seq<Local>, f: seq<Value>, g: seq<Value>)
    requires |L| <= |f| && |L| <= |g| && f[..|L|] == g[..|L|]
    ensures EnvOf(L, f) == EnvOf(L, g)
  {
    if L != [] {
      var n := |L| - 1;
      assert f[..n] == f[..|L|][..n] && g[..n] == g[..|L|][..n];
      assert f[n] == f[..|L|][n] && g[n] == g[..|L|][n];
      EnvIsLocal(L[..n], f, g);
    }
  }

  lemma EnvSnoc(L: seq<Local>, x: Local, f: seq<Value>)
    requires |L| < |f|
    ensures EnvOf(L + [x], f) == EnvOf(L, f) + (if Hidden(x.name) then [] else [Reference.Binding(x.name, f[|L|])])
  {
    assert (L + [x])[..|L|] == L;
  }

  /** A variable is found in the slot of its innermost declaration. */
  lemma {:induction false} SlotHoldsVariable(L: seq<Local>, f: seq<Value>, name: string)
    requires |L| <= |f| && !Hidden(name) && ResolveLocal(L, name) >= 0
    ensures Reference.Lookup(EnvOf(L, f), name) == f[ResolveLocal(L, name)]
  {
    var n := |L| - 1;
    var env := EnvOf(L[..n], f);
    if L[n].name == name {
      assert (env + [Reference.Binding(name, f[n])])[..|env|] == env;
    } else {
      SlotHoldsVariable(L[..n], f, name);
      assert env + [] == env;
      assert Hidden(L[n].name) || (env + [Reference.Binding(L[n].name, f[n])])[..|env|] == env;
    }
  }

  /** Writing that slot assigns the variable, and no other. */
  lemma {:induction false} SlotUpdatesVariable(L: seq<Local>, f: seq<Value>, name: string, v: Value)
    requires |L| <= |f| && !Hidden(name) && ResolveLocal(L, name) >= 0
    ensures EnvOf(L, f[ResolveLocal(L, name) := v]) == Reference.Update(EnvOf(L, f), name, v)
    ensures Keeps(L, f, f[ResolveLocal(L, name) := v])
  {
    var n := |L| - 1;
    var i := ResolveLocal(L, name);
    var g := f[i := v];
    var env := EnvOf(L[..n], f);
    if L[n].name == name {
      EnvIsLocal(L[..n], f, g);
      assert (env + [Reference.Binding(name, f[n])])[..|env|] == env;
    } else {
      SlotUpdatesVariable(L[..n], f, name, v);
      assert env + [] == env && EnvOf(L[..n], g) + [] == EnvOf(L[..n], g);
      assert Hidden(L[n].name) || (env + [Reference.Binding(L[n].name, f[n])])[..|env|] == env;
    }
  }

  /** A slot past `L` is nobody's. */
  lemma FreeSlot(L: seq<Local>, f: seq<Value>, i: nat, v: Value)
    requires |L| <= i < |f|
    ensures EnvOf(L, f[i := v]) == EnvOf(L, f)
    ensures Keeps(L, f, f[i := v])
  {
    assert f[i := v][..|L|] == f[..|L|];
    EnvIsLocal(L, f, f[i := v]);
  }

  /** Leaving the scope of the variables added to `L` gives back the environment of `L`. */
  lemma {:induction false} EnvPrefix(L: seq<Local>, M: seq<Local>, f: seq<Value>, g: seq<Value>)
    requires L <= M && |M| <= |f| && |L| <= |g|
    ensures |EnvOf(L, g)| <= |EnvOf(M, f)|
    ensures EnvOf(M, f)[..|EnvOf(L, g)|] == EnvOf(L, f)
    decreases |M|
  {
    if L == M {
      EnvSize(L, f, g);
      assert EnvOf(L, f)[..|EnvOf(L, f)|] == EnvOf(L, f);
    } else {
      var n := |M| - 1;
      assert L <= M[..n];
      EnvPrefix(L, M[..n], f, g);
    }
  }

  lemma {:induction false} EnvSize(L: seq<Local>, f: seq<Value>, g: seq<Value>)
    requires |L| <= |f| && |L| <= |g|
    ensures |EnvOf(L, f)| == |EnvOf(L, g)|
  {
    if L != [] {
      EnvSize(L[..|L| - 1], f, g);
    }
  }

  lemma KeepsTrans(L: seq<Local>, f: seq<Value>, g: seq<Value>, h: seq<Value>)
    requires Keeps(L, f, g) && Keeps(L, g, h)
    ensures Keeps(L, f, h)
  {
  }

  lemma KeepsFewer(L: seq<Local>, M: seq<Local>, f: seq<Value>, g: seq<Value>)
    requires L <= M && Keeps(M, f, g)
    ensures Keeps(L, f, g)
  {
    forall i | 0 <= i < |L| && Hidden(L[i].name)
      ensures f[i] == g[i]
    {
      assert M[i] == L[i];
    }
  }

  /** The parameters of a call fill the first slots. */
  lemma {:induction false} ParamsInSlots(params: seq<Param>, args: seq<Value>, f: seq<Value>)
    requires |params| <= |f|
    requires forall i :: 0 <= i < |params| ==> !Hidden(params[i].name)
    requires forall i :: 0 <= i < |params| ==> f[i] == if i < |args| then args[i] else Null
    ensures EnvOf(ParamLocals(params), f) == Reference.BindParams(params, args)
  {
    if params == [] {
    } else {
      var n := |params| - 1;
      var init := if n < |args| then args[..n] else args;
      ParamsInSlots(params[..n], init, f);
      assert ParamLocals(params)[..n] == ParamLocals(params[..n]);
      BindSnoc(params, args);
    }
  }

  lemma {:induction false} BindSnoc(params: seq<Param>, args: seq<Value>)
    requires params != []
    ensures var n := |params| - 1;
            Reference.BindParams(params, args)
            == Reference.BindParams(params[..n], if n < |args| then args[..n] else args)
               + [Reference.Binding(params[n].name, if n < |args| then args[n] else Null)]
  {
    var n := |params| - 1;
    if n == 0 {
      assert params[1..] == [];
    } else {
      var rest := if args == [] then [] else args[1..];
      BindSnoc(params[1..], rest);
      assert params[1..][..n - 1] == params[..n][1..];
      if n < |args| {
        assert args[1..][..n - 1] == args[..n][1..];
      }
    }
  }
}
