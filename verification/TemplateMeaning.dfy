/** What templates promise to whoever reads the page: what is escaped comes out of the reader's
  parser as it was, and a loop says where it is. */
module TemplateMeaning {
  import opened Template

  // ─── Escaping ──────────────────────────────────────────────────────────────

  /** What an HTML parser makes of text: the five entities, from left to right. */
  function Decoded(s: string): string
    decreases |s|
  {
    if s == "" then ""
    else if "&amp;" <= s then "&" + Decoded(s[5..])
    else if "&lt;" <= s then "<" + Decoded(s[4..])
    else if "&gt;" <= s then ">" + Decoded(s[4..])
    else if "&quot;" <= s then "\"" + Decoded(s[6..])
    else if "&#39;" <= s then "'" + Decoded(s[5..])
    else [s[0]] + Decoded(s[1..])
  }

  predicate StartsEntity(s: string) { "&amp;" <= s || "&lt;" <= s || "&gt;" <= s || "&quot;" <= s || "&#39;" <= s }

  /** Nothing in the text ends an attribute or begins a tag, and an ampersand begins one of the
    five entities. */
  ghost predicate Inert(s: string) {
    forall i :: 0 <= i < |s| ==>
      s[i] != '<' && s[i] != '>' && s[i] != '"' && s[i] != '\'' && (s[i] == '&' ==> StartsEntity(s[i..]))
  }

  lemma EntityStarts(s: string)
    ensures "&amp;" <= s ==> |s| > 1 && s[0] == '&' && s[1] == 'a'
    ensures "&lt;" <= s ==> |s| > 1 && s[0] == '&' && s[1] == 'l'
    ensures "&gt;" <= s ==> |s| > 1 && s[0] == '&' && s[1] == 'g'
    ensures "&quot;" <= s ==> |s| > 1 && s[0] == '&' && s[1] == 'q'
    ensures "&#39;" <= s ==> |s| > 1 && s[0] == '&' && s[1] == '#'
  {
  }

  /** One character, escaped, in front of the rest. */
  lemma CharDecoded(c: char, rest: string)
    ensures Decoded(HtmlChar(c) + rest) == [c] + Decoded(rest)
  {
    var s := HtmlChar(c) + rest;
    EntityStarts(s);
    assert s[|HtmlChar(c)|..] == rest;
    assert c == '&' ==> "&amp;" <= s;
    assert c == '<' ==> "&lt;" <= s;
    assert c == '>' ==> "&gt;" <= s;
    assert c == '"' ==> "&quot;" <= s;
    assert c == '\'' ==> "&#39;" <= s;
  }

  /** The reader sees the text that was escaped. */
  lemma {:induction false} HtmlRoundTrip(s: string)
    ensures Decoded(Html(s)) == s
  {
    hide HtmlChar, Decoded;
    if s == "" {
      NothingDecoded();
    } else {
      CharDecoded(s[0], Html(s[1..]));
      HtmlRoundTrip(s[1..]);
    }
  }

  lemma NothingDecoded()
    ensures Decoded("") == ""
  {
  }

  lemma CharIsInert(c: char, rest: string, i: nat)
    requires i < |HtmlChar(c)|
    ensures var s := HtmlChar(c) + rest;
            s[i] != '<' && s[i] != '>' && s[i] != '"' && s[i] != '\'' && (s[i] == '&' ==> i == 0 && StartsEntity(s))
  {
    var s := HtmlChar(c) + rest;
    assert c == '&' ==> "&amp;" <= s;
    assert c == '<' ==> "&lt;" <= s;
    assert c == '>' ==> "&gt;" <= s;
    assert c == '"' ==> "&quot;" <= s;
    assert c == '\'' ==> "&#39;" <= s;
  }

  /** And nothing of it is markup. */
  lemma {:induction false} HtmlIsInert(s: string)
    ensures Inert(Html(s))
  {
    hide HtmlChar, StartsEntity;
    if s != "" {
      var c, rest := HtmlChar(s[0]), Html(s[1..]);
      var t := Html(s);
      HtmlIsInert(s[1..]);
      forall i | 0 <= i < |t|
        ensures t[i] != '<' && t[i] != '>' && t[i] != '"' && t[i] != '\'' && (t[i] == '&' ==> StartsEntity(t[i..]))
      {
        if i < |c| {
          CharIsInert(s[0], rest, i);
          assert t[0..] == t;
        } else {
          assert t[i] == rest[i - |c|] && t[i..] == rest[i - |c|..];
        }
      }
    }
  }

  /** A value that is written without `raw` is text on the page, and nothing else: what is added is
    inert, and reads as what the value shows. With `raw` it is added as it is. */
  lemma WriteMeans(e: Expr, raw: bool, env: map<string, Value>, out: string, o: Oracle, v: Value)
    requires EvalIn(e, env, o) == Got(v)
    ensures var r := RenderItem(Write(e, raw), env, out, o);
            && r.Fine? && out <= r.out
            && if raw then r.out[|out|..] == o.show(v)
               else Inert(r.out[|out|..]) && Decoded(r.out[|out|..]) == o.show(v)
  {
    hide Html, Inert, Decoded, EvalIn;
    var r := RenderItem(Write(e, raw), env, out, o);
    HtmlRoundTrip(o.show(v));
    HtmlIsInert(o.show(v));
    assert r.out[|out|..] == Shown(v, raw, o);
  }

  // ─── Loops ─────────────────────────────────────────────────────────────────

  /** What `d.key` gives. */
  function Field(d: Value, key: string): Value
    requires d.Dict?
  {
    FieldOf(d.pairs, key)
  }

  function FieldOf(pairs: seq<Pair>, key: string): Value {
    if pairs == [] then Null else if pairs[0].key == key then pairs[0].value else FieldOf(pairs[1..], key)
  }

  /** In turn `i` of `n` the variable is the item, and `loop` counts from one and from zero, knows
    the first turn, the last one, and how many there are; every other name is what it was. */
  lemma LoopMeans(env: map<string, Value>, name: string, items: seq<Value>, i: nat, other: string, key: string)
    requires i < |items| && name != "loop" && other != name && other != "loop"
    ensures var inside := InLoop(env, name, items, i);
            && name in inside && inside[name] == items[i]
            && (other in inside <==> other in env) && (other in env ==> inside[other] == env[other])
            && "loop" in inside && inside["loop"].Dict? && |inside["loop"].pairs| == 5
            && Field(inside["loop"], key)
               == if key == "index" then Int(i + 1)
                  else if key == "index0" then Int(i)
                  else if key == "first" then Bool(i == 0)
                  else if key == "last" then Bool(i == |items| - 1)
                  else if key == "length" then Int(|items|)
                  else Null
  {
    var pairs := LoopData(i, |items|).pairs;
    assert pairs[1..][1..] == pairs[2..] && pairs[2..][1..] == pairs[3..] && pairs[3..][1..] == pairs[4..];
    assert pairs[4..][1..] == [];
    assert FieldOf(pairs[4..], key) == if key == "length" then Int(|items|) else Null;
    assert FieldOf(pairs[3..], key)
        == if key == "last" then Bool(i + 1 == |items|) else if key == "length" then Int(|items|) else Null;
    assert FieldOf(pairs[1..], key)
        == if key == "index0" then Int(i) else if key == "first" then Bool(i == 0) else FieldOf(pairs[3..], key);
  }
}
