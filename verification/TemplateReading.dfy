/** The template compiler: one pass over the tags, with a stack of the blocks that are open
  and the jumps in them that still have to be aimed. */
module TemplateReading {
  import opened Template
  import opened TemplateRun

  // ─── Reading tags ──────────────────────────────────────────────────────────

  /** The blocks that are open around the one being read, each with what came before it. */
  datatype Ctx =
    | Top
    | InIf(outer: Ctx, before: Block, closed: Chain, cond: Expr)
    | InElse(outer: Ctx, before: Block, closed: Chain)
    | InFor(outer: Ctx, before: Block, name: string, list: Expr)

  datatype Walked = Bad | On(ctx: Ctx, cur: Block)

  function CtxNames(ctx: Ctx, data: seq<string>): seq<Name> {
    match ctx
    case Top => DataNames(data)
    case InIf(outer, before, closed, _) => CtxNames(outer, data) + Extra(before) + ChainExtra(closed)
    case InElse(outer, before, closed) => CtxNames(outer, data) + Extra(before) + ChainExtra(closed)
    case InFor(outer, before, name, _) => LoopNames(CtxNames(outer, data) + Extra(before), name)
  }

  /** One tag: it has to fit the block that is open, and its expression to compile. */
  function Walk1(ctx: Ctx, cur: Block, tag: Tag, data: seq<string>): Walked {
    var names := CtxNames(ctx, data) + Extra(cur);
    match tag
    case TText(t) => On(ctx, Then(cur, Text(t)))
    case TWrite(e, raw) => if OkExpr(e, names) then On(ctx, Then(cur, Write(e, raw))) else Bad
    case TIf(e) => if OkExpr(e, names) then On(InIf(ctx, cur, NoBranch, e), Nothing) else Bad
    case TElif(e) =>
      if ctx.InIf? && OkExpr(e, names) then
        On(InIf(ctx.outer, ctx.before, Branch(ctx.closed, ctx.cond, cur), e), Nothing)
      else Bad
    case TElse =>
      if ctx.InIf? then On(InElse(ctx.outer, ctx.before, Branch(ctx.closed, ctx.cond, cur)), Nothing) else Bad
    case TEndIf =>
      if ctx.InIf? then On(ctx.outer, Then(ctx.before, If(ctx.closed, ctx.cond, cur)))
      else if ctx.InElse? then On(ctx.outer, Then(ctx.before, IfElse(ctx.closed, cur)))
      else Bad
    case TFor(name, e) => if name != "" && OkExpr(e, names) then On(InFor(ctx, cur, name, e), Nothing) else Bad
    case TEndFor => if ctx.InFor? then On(ctx.outer, Then(ctx.before, For(ctx.name, ctx.list, cur))) else Bad
    case TBad => Bad
  }

  function Walk(w: Walked, tags: seq<Tag>, data: seq<string>): Walked {
    if tags == [] then w
    else
      match Walk(w, tags[..|tags| - 1], data)
      case Bad => Bad
      case On(ctx, cur) => Walk1(ctx, cur, tags[|tags| - 1], data)
  }

  lemma {:induction false} WalkJoin(w: Walked, a: seq<Tag>, b: seq<Tag>, data: seq<string>)
    ensures Walk(w, a + b, data) == Walk(Walk(w, a, data), b, data)
    decreases |b|
  {
    hide Walk1;
    if b == [] {
      assert a + b == a;
    } else {
      assert (a + b)[..|a + b| - 1] == a + b[..|b| - 1];
      WalkJoin(w, a, b[..|b| - 1], data);
    }
  }

  lemma WalkOne(ctx: Ctx, cur: Block, tag: Tag, data: seq<string>)
    ensures Walk(On(ctx, cur), [tag], data) == Walk1(ctx, cur, tag, data)
  {
    hide Walk1;
    assert [tag][..0] == [];
    assert Walk(On(ctx, cur), [], data) == On(ctx, cur);
  }

  /** The tags of a tree that compiles are read as that tree. */
  lemma {:induction false} WalkBlock(ctx: Ctx, b: Block, data: seq<string>)
    requires OkBlock(b, CtxNames(ctx, data))
    ensures Walk(On(ctx, Nothing), Tags(b), data) == On(ctx, b)
    decreases b, 0
  {
    match b
    case Nothing =>
    case Then(before, item) =>
      WalkBlock(ctx, before, data);
      WalkItem(ctx, before, item, data);
      WalkJoin(On(ctx, Nothing), Tags(before), ItemTags(item), data);
  }

  lemma {:induction false} WalkItem(ctx: Ctx, cur: Block, item: Item, data: seq<string>)
    requires OkItem(item, CtxNames(ctx, data) + Extra(cur))
    ensures Walk(On(ctx, cur), ItemTags(item), data) == On(ctx, Then(cur, item))
    decreases item, 1
  {
    hide ChainExtra, ChainTags, CtxNames, Extra, LoopNames, OkBlock, OkChain, OkExpr, OpenTag, Tags, Walk;
    match item
    case Text(t) =>
      WalkOne(ctx, cur, TText(t), data);
    case Write(e, raw) =>
      WalkOne(ctx, cur, TWrite(e, raw), data);
    case If(closed, cond, body) => WalkIf(ctx, cur, closed, cond, body, data);
    case IfElse(closed, other) => WalkIfElse(ctx, cur, closed, other, data);
    case For(name, list, body) => WalkFor(ctx, cur, name, list, body, data);
  }

  lemma {:induction false} WalkIf(ctx: Ctx, cur: Block, closed: Chain, cond: Expr, body: Block, data: seq<string>)
    requires OkItem(If(closed, cond, body), CtxNames(ctx, data) + Extra(cur))
    ensures Walk(On(ctx, cur), ItemTags(If(closed, cond, body)), data) == On(ctx, Then(cur, If(closed, cond, body)))
    decreases If(closed, cond, body), 0
  {
    hide ChainExtra, ChainTags, DataNames, Extra, LoopNames, OkBlock, OkChain, OkExpr, OpenTag, Tags, Walk;
    var w := On(ctx, cur);
    var inner := InIf(ctx, cur, closed, cond);
    WalkOpen(ctx, cur, closed, cond, data);
    WalkBlock(inner, body, data);
    WalkOne(inner, body, TEndIf, data);
    WalkJoin(w, ChainTags(closed) + [OpenTag(closed, cond)], Tags(body), data);
    WalkJoin(w, ChainTags(closed) + [OpenTag(closed, cond)] + Tags(body), [TEndIf], data);
  }

  lemma {:induction false} WalkIfElse(ctx: Ctx, cur: Block, closed: Chain, other: Block, data: seq<string>)
    requires OkItem(IfElse(closed, other), CtxNames(ctx, data) + Extra(cur))
    ensures Walk(On(ctx, cur), ItemTags(IfElse(closed, other)), data) == On(ctx, Then(cur, IfElse(closed, other)))
    decreases IfElse(closed, other), 0
  {
    hide ChainExtra, ChainTags, DataNames, Extra, LoopNames, OkBlock, OkChain, OkExpr, OpenTag, Tags, Walk;
    var w := On(ctx, cur);
    var inner := InElse(ctx, cur, closed);
    WalkChain(ctx, cur, closed, data);
    WalkOne(InIf(ctx, cur, closed.before, closed.cond), closed.body, TElse, data);
    WalkBlock(inner, other, data);
    WalkOne(inner, other, TEndIf, data);
    WalkJoin(w, ChainTags(closed), [TElse], data);
    WalkJoin(w, ChainTags(closed) + [TElse], Tags(other), data);
    WalkJoin(w, ChainTags(closed) + [TElse] + Tags(other), [TEndIf], data);
  }

  lemma {:induction false} WalkFor(ctx: Ctx, cur: Block, name: string, list: Expr, body: Block, data: seq<string>)
    requires OkItem(For(name, list, body), CtxNames(ctx, data) + Extra(cur))
    ensures Walk(On(ctx, cur), ItemTags(For(name, list, body)), data) == On(ctx, Then(cur, For(name, list, body)))
    decreases For(name, list, body), 0
  {
    hide ChainExtra, ChainTags, DataNames, Extra, LoopNames, OkBlock, OkChain, OkExpr, OpenTag, Tags, Walk;
    var w := On(ctx, cur);
    var inner := InFor(ctx, cur, name, list);
    WalkOne(ctx, cur, TFor(name, list), data);
    WalkBlock(inner, body, data);
    WalkOne(inner, body, TEndFor, data);
    WalkJoin(w, [TFor(name, list)], Tags(body), data);
    WalkJoin(w, [TFor(name, list)] + Tags(body), [TEndFor], data);
  }

  /** The branches, and the tag that opens the next one. */
  lemma {:induction false} WalkOpen(ctx: Ctx, cur: Block, closed: Chain, cond: Expr, data: seq<string>)
    requires var names := CtxNames(ctx, data) + Extra(cur);
             OkChain(closed, names) && OkExpr(cond, names + ChainExtra(closed))
    ensures Walk(On(ctx, cur), ChainTags(closed) + [OpenTag(closed, cond)], data)
            == On(InIf(ctx, cur, closed, cond), Nothing)
    decreases closed, 1
  {
    hide Walk, OkExpr;
    var w := On(ctx, cur);
    var names := CtxNames(ctx, data) + Extra(cur);
    WalkJoin(w, ChainTags(closed), [OpenTag(closed, cond)], data);
    if closed.NoBranch? {
      assert names + [] == names;
      assert ChainTags(closed) + [OpenTag(closed, cond)] == [TIf(cond)];
      WalkOne(ctx, cur, TIf(cond), data);
    } else {
      WalkChain(ctx, cur, closed, data);
      assert names + ChainExtra(closed) == names + ChainExtra(closed.before) + Extra(closed.body);
      WalkOne(InIf(ctx, cur, closed.before, closed.cond), closed.body, TElif(cond), data);
    }
  }

  lemma {:induction false} WalkChain(ctx: Ctx, cur: Block, ch: Chain, data: seq<string>)
    requires ch.Branch? && OkChain(ch, CtxNames(ctx, data) + Extra(cur))
    ensures Walk(On(ctx, cur), ChainTags(ch), data) == On(InIf(ctx, cur, ch.before, ch.cond), ch.body)
    decreases ch, 0
  {
    hide Walk, OkExpr;
    WalkOpen(ctx, cur, ch.before, ch.cond, data);
    WalkBlock(InIf(ctx, cur, ch.before, ch.cond), ch.body, data);
    WalkJoin(On(ctx, cur), ChainTags(ch.before) + [OpenTag(ch.before, ch.cond)], Tags(ch.body), data);
  }

  // ─── What has been read ────────────────────────────────────────────────────

  function CtxTags(ctx: Ctx): seq<Tag> {
    match ctx
    case Top => []
    case InIf(outer, before, closed, cond) =>
      CtxTags(outer) + Tags(before) + ChainTags(closed) + [OpenTag(closed, cond)]
    case InElse(outer, before, closed) => CtxTags(outer) + Tags(before) + ChainTags(closed) + [TElse]
    case InFor(outer, before, name, list) => CtxTags(outer) + Tags(before) + [TFor(name, list)]
  }

  predicate CtxOk(ctx: Ctx, data: seq<string>) {
    match ctx
    case Top => true
    case InIf(outer, before, closed, cond) =>
      var names := CtxNames(outer, data) + Extra(before);
      && CtxOk(outer, data) && OkBlock(before, CtxNames(outer, data))
      && OkChain(closed, names) && OkExpr(cond, names + ChainExtra(closed))
    case InElse(outer, before, closed) =>
      && CtxOk(outer, data) && OkBlock(before, CtxNames(outer, data))
      && closed.Branch? && OkChain(closed, CtxNames(outer, data) + Extra(before))
    case InFor(outer, before, name, list) =>
      && CtxOk(outer, data) && OkBlock(before, CtxNames(outer, data))
      && name != "" && OkExpr(list, CtxNames(outer, data) + Extra(before))
  }

  /** What has been read stands for the tags read, and compiles so far. */
  ghost predicate Read(ctx: Ctx, cur: Block, tags: seq<Tag>, data: seq<string>) {
    CtxTags(ctx) + Tags(cur) == tags && CtxOk(ctx, data) && OkBlock(cur, CtxNames(ctx, data))
  }

  lemma WalkIsRead(ctx: Ctx, cur: Block, tag: Tag, tags: seq<Tag>, data: seq<string>)
    requires Read(ctx, cur, tags, data) && Walk1(ctx, cur, tag, data).On?
    ensures Read(Walk1(ctx, cur, tag, data).ctx, Walk1(ctx, cur, tag, data).cur, tags + [tag], data)
  {
    hide ChainExtra, ChainTags, CtxNames, CtxOk, CtxTags, Extra, LoopNames, OkBlock, OkChain, OkExpr, OpenTag,
         Read, Tags;
    match tag
    case TText(t) =>
      ReadItem(ctx, cur, Text(t), tags, data);
    case TWrite(e, raw) =>
      ReadItem(ctx, cur, Write(e, raw), tags, data);
    case TIf(e) =>
      ReadOpenIf(ctx, cur, e, tags, data);
    case TElif(e) =>
      ReadBranch(ctx, cur, tags, data);
      ReadElif(ctx.outer, ctx.before, Branch(ctx.closed, ctx.cond, cur), e, tags, data);
    case TElse =>
      ReadBranch(ctx, cur, tags, data);
      ReadElse(ctx.outer, ctx.before, Branch(ctx.closed, ctx.cond, cur), tags, data);
    case TEndIf =>
      if ctx.InIf? {
        ReadIf(ctx, cur, tags, data);
      } else {
        ReadIfElse(ctx, cur, tags, data);
      }
    case TFor(name, e) =>
      ReadOpenFor(ctx, cur, name, e, tags, data);
    case TEndFor =>
      ReadFor(ctx, cur, tags, data);
    case TBad =>
  }

  lemma ReadItem(ctx: Ctx, cur: Block, item: Item, tags: seq<Tag>, data: seq<string>)
    requires Read(ctx, cur, tags, data) && OkItem(item, CtxNames(ctx, data) + Extra(cur))
    ensures Read(ctx, Then(cur, item), tags + ItemTags(item), data)
  {
    hide CtxNames, CtxOk, CtxTags, Extra, ItemTags, OkItem;
    assert CtxTags(ctx) + (Tags(cur) + ItemTags(item)) == tags + ItemTags(item);
  }

  lemma ReadOpenIf(ctx: Ctx, cur: Block, e: Expr, tags: seq<Tag>, data: seq<string>)
    requires Read(ctx, cur, tags, data) && OkExpr(e, CtxNames(ctx, data) + Extra(cur))
    ensures Read(InIf(ctx, cur, NoBranch, e), Nothing, tags + [TIf(e)], data)
  {
    hide CtxNames, Extra, ItemTags, OkExpr, OkItem;
    var names := CtxNames(ctx, data) + Extra(cur);
    assert names + [] == names;
    assert CtxTags(ctx) + Tags(cur) + [] + [TIf(e)] + [] == tags + [TIf(e)];
  }

  lemma ReadOpenFor(ctx: Ctx, cur: Block, name: string, e: Expr, tags: seq<Tag>, data: seq<string>)
    requires Read(ctx, cur, tags, data) && name != "" && OkExpr(e, CtxNames(ctx, data) + Extra(cur))
    ensures Read(InFor(ctx, cur, name, e), Nothing, tags + [TFor(name, e)], data)
  {
    hide ChainExtra, ChainTags, CtxNames, Extra, ItemTags, OkChain, OkExpr, OkItem, OpenTag;
    assert CtxTags(ctx) + Tags(cur) + [TFor(name, e)] + [] == tags + [TFor(name, e)];
  }

  lemma ReadBranch(ctx: Ctx, cur: Block, tags: seq<Tag>, data: seq<string>)
    requires Read(ctx, cur, tags, data) && ctx.InIf?
    ensures var closed := Branch(ctx.closed, ctx.cond, cur);
            var names := CtxNames(ctx.outer, data) + Extra(ctx.before);
            && CtxTags(ctx.outer) + Tags(ctx.before) + ChainTags(closed) == tags
            && CtxOk(ctx.outer, data) && OkBlock(ctx.before, CtxNames(ctx.outer, data)) && OkChain(closed, names)
            && names + ChainExtra(closed) == CtxNames(ctx, data) + Extra(cur)
  {
    hide DataNames, Extra, LoopNames, OkBlock, OkExpr, OpenTag, Tags;
    var names := CtxNames(ctx.outer, data) + Extra(ctx.before);
    assert names + (ChainExtra(ctx.closed) + Extra(cur)) == names + ChainExtra(ctx.closed) + Extra(cur);
    assert CtxTags(ctx.outer) + Tags(ctx.before)
           + (ChainTags(ctx.closed) + [OpenTag(ctx.closed, ctx.cond)] + Tags(cur)) == tags;
  }

  lemma ReadElif(outer: Ctx, before: Block, closed: Chain, e: Expr, tags: seq<Tag>, data: seq<string>)
    requires closed.Branch? && CtxTags(outer) + Tags(before) + ChainTags(closed) == tags
    requires CtxOk(outer, data) && OkBlock(before, CtxNames(outer, data))
             && OkChain(closed, CtxNames(outer, data) + Extra(before))
    requires OkExpr(e, CtxNames(outer, data) + Extra(before) + ChainExtra(closed))
    ensures Read(InIf(outer, before, closed, e), Nothing, tags + [TElif(e)], data)
  {
    hide ChainExtra, ChainTags, CtxNames, Extra, ItemTags, OkChain, OkExpr, OkItem;
    var ctx := InIf(outer, before, closed, e);
    assert CtxTags(ctx) == tags + [TElif(e)];
    assert Tags(Nothing) == [];
    assert tags + [TElif(e)] + [] == tags + [TElif(e)];
  }

  lemma ReadElse(outer: Ctx, before: Block, closed: Chain, tags: seq<Tag>, data: seq<string>)
    requires closed.Branch? && CtxTags(outer) + Tags(before) + ChainTags(closed) == tags
    requires CtxOk(outer, data) && OkBlock(before, CtxNames(outer, data))
             && OkChain(closed, CtxNames(outer, data) + Extra(before))
    ensures Read(InElse(outer, before, closed), Nothing, tags + [TElse], data)
  {
    hide ChainExtra, ChainTags, CtxNames, Extra, ItemTags, OkChain, OkExpr, OkItem, OpenTag;
    var ctx := InElse(outer, before, closed);
    assert CtxTags(ctx) == tags + [TElse];
    assert Tags(Nothing) == [];
    assert tags + [TElse] + [] == tags + [TElse];
  }

  lemma ReadIf(ctx: Ctx, cur: Block, tags: seq<Tag>, data: seq<string>)
    requires Read(ctx, cur, tags, data) && ctx.InIf?
    ensures Read(ctx.outer, Then(ctx.before, If(ctx.closed, ctx.cond, cur)), tags + [TEndIf], data)
  {
    hide ChainExtra, ChainTags, DataNames, Extra, LoopNames, OkBlock, OkChain, OkExpr, OpenTag, Tags;
    var item := If(ctx.closed, ctx.cond, cur);
    var chain := ChainTags(ctx.closed) + [OpenTag(ctx.closed, ctx.cond)];
    assert CtxTags(ctx)
           == CtxTags(ctx.outer) + Tags(ctx.before) + ChainTags(ctx.closed) + [OpenTag(ctx.closed, ctx.cond)];
    assert ItemTags(item) == chain + Tags(cur) + [TEndIf];
    assert OkItem(item, CtxNames(ctx.outer, data) + Extra(ctx.before));
    assert CtxOk(ctx.outer, data) && OkBlock(ctx.before, CtxNames(ctx.outer, data));
    ReadItem(ctx.outer, ctx.before, item, CtxTags(ctx.outer) + Tags(ctx.before), data);
    assert CtxTags(ctx.outer) + Tags(ctx.before) + ItemTags(item) == tags + [TEndIf];
  }

  lemma ReadIfElse(ctx: Ctx, cur: Block, tags: seq<Tag>, data: seq<string>)
    requires Read(ctx, cur, tags, data) && ctx.InElse?
    ensures Read(ctx.outer, Then(ctx.before, IfElse(ctx.closed, cur)), tags + [TEndIf], data)
  {
    hide ChainExtra, ChainTags, DataNames, Extra, LoopNames, OkBlock, OkChain, OkExpr, OpenTag, Tags;
    var item := IfElse(ctx.closed, cur);
    assert CtxTags(ctx) == CtxTags(ctx.outer) + Tags(ctx.before) + ChainTags(ctx.closed) + [TElse];
    assert ItemTags(item) == ChainTags(ctx.closed) + [TElse] + Tags(cur) + [TEndIf];
    assert OkItem(item, CtxNames(ctx.outer, data) + Extra(ctx.before));
    assert CtxOk(ctx.outer, data) && OkBlock(ctx.before, CtxNames(ctx.outer, data));
    ReadItem(ctx.outer, ctx.before, item, CtxTags(ctx.outer) + Tags(ctx.before), data);
    assert CtxTags(ctx.outer) + Tags(ctx.before) + ItemTags(item) == tags + [TEndIf];
  }

  lemma ReadFor(ctx: Ctx, cur: Block, tags: seq<Tag>, data: seq<string>)
    requires Read(ctx, cur, tags, data) && ctx.InFor?
    ensures Read(ctx.outer, Then(ctx.before, For(ctx.name, ctx.list, cur)), tags + [TEndFor], data)
  {
    hide ChainExtra, ChainTags, DataNames, Extra, LoopNames, OkBlock, OkChain, OkExpr, OpenTag, Tags;
    var item := For(ctx.name, ctx.list, cur);
    assert CtxTags(ctx) == CtxTags(ctx.outer) + Tags(ctx.before) + [TFor(ctx.name, ctx.list)];
    assert ItemTags(item) == [TFor(ctx.name, ctx.list)] + Tags(cur) + [TEndFor];
    assert OkItem(item, CtxNames(ctx.outer, data) + Extra(ctx.before));
    assert CtxOk(ctx.outer, data) && OkBlock(ctx.before, CtxNames(ctx.outer, data));
    ReadItem(ctx.outer, ctx.before, item, CtxTags(ctx.outer) + Tags(ctx.before), data);
    assert CtxTags(ctx.outer) + Tags(ctx.before) + ItemTags(item) == tags + [TEndFor];
  }

  lemma {:induction false} WalksAreRead(tags: seq<Tag>, data: seq<string>)
    ensures var w := Walk(On(Top, Nothing), tags, data);
            w.On? ==> Read(w.ctx, w.cur, tags, data)
    decreases |tags|
  {
    hide ChainExtra, ChainTags, CtxNames, Extra, ItemTags, OkChain, OkExpr, OkItem, OpenTag, Walk1;
    if tags == [] {
    } else {
      var last := |tags| - 1;
      WalksAreRead(tags[..last], data);
      var w := Walk(On(Top, Nothing), tags[..last], data);
      if w.On? && Walk1(w.ctx, w.cur, tags[last], data).On? {
        WalkIsRead(w.ctx, w.cur, tags[last], tags[..last], data);
        assert tags[..last] + [tags[last]] == tags;
      }
    }
  }

  /** Reading succeeds for the tags of the trees that compile, and for no others; and finds
    the tree. */
  lemma WalkIff(tags: seq<Tag>, data: seq<string>, b: Block)
    ensures Walk(On(Top, Nothing), tags, data) == On(Top, b) <==> tags == Tags(b) && OkBlock(b, DataNames(data))
  {
    hide Walk1, Walk, Tags, OkBlock;
    if Walk(On(Top, Nothing), tags, data) == On(Top, b) {
      WalksAreRead(tags, data);
      assert [] + Tags(b) == Tags(b);
    }
    if tags == Tags(b) && OkBlock(b, DataNames(data)) {
      WalkBlock(Top, b, data);
    }
  }
}
