/** How lowering grows the generator's state.
  *
  * Finished blocks never change again, and the open block only gets longer. */
module MirGenShape {
  import opened Values
  import opened Ast
  import M = Mir
  import opened MirGen

  ghost predicate InjectiveLets(params: nat, locals: nat, lets: map<nat, nat>) {
    && (forall l :: l in lets ==> params < lets[l] < locals)
    && (forall l, m :: l in lets && m in lets && l != m ==> lets[l] != lets[m])
  }

  ghost predicate OwnIds(bs: seq<M.Block>) {
    forall b :: 0 <= b < |bs| ==> bs[b].id == b
  }

  /** What holds of the generator between statements. */
  ghost predicate Wf(params: nat, g: Gen) {
    && 2 <= |g.blocks| && g.cur < |g.blocks| && g.cur != 1
    && g.blocks[g.cur].ter == M.Unset
    && g.blocks[1] == M.Block(1, [], M.Unset)
    && OwnIds(g.blocks)
    && params < g.locals
    && InjectiveLets(params, g.locals, g.lets)
  }

  /** Every block closed in `bs` is the same in `cs`, and an open one has only grown. */
  ghost predicate Later(bs: seq<M.Block>, cs: seq<M.Block>) {
    && |bs| <= |cs|
    && forall b :: 0 <= b < |bs| ==>
         && bs[b].id == cs[b].id
         && bs[b].stmts <= cs[b].stmts
         && (bs[b].ter != M.Unset ==> bs[b] == cs[b])
  }

  ghost predicate Extends(lets: map<nat, nat>, more: map<nat, nat>) {
    forall l :: l in lets ==> l in more && more[l] == lets[l]
  }

  ghost predicate LoopsKept(loops: set<nat>, g: Gen, r: Gen) {
    forall l :: l in loops ==> l in g.exits && l in r.exits && r.exits[l] == g.exits[l]
  }

  ghost predicate Grew(g: Gen, r: Gen)
    requires g.cur < |g.blocks|
  {
    && |g.blocks| <= |r.blocks|
    && (forall b :: 0 <= b < |g.blocks| && b != g.cur ==> r.blocks[b] == g.blocks[b])
    && g.blocks[g.cur].stmts <= r.blocks[g.cur].stmts
    && r.blocks[g.cur].id == g.blocks[g.cur].id
    && (r.cur == g.cur || |g.blocks| <= r.cur)
    && g.locals <= r.locals
    && Extends(g.lets, r.lets)
  }

  lemma LaterTrans(bs: seq<M.Block>, cs: seq<M.Block>, ds: seq<M.Block>)
    requires Later(bs, cs) && Later(cs, ds)
    ensures Later(bs, ds)
  {
    forall b | 0 <= b < |bs| ensures bs[b].stmts <= ds[b].stmts {
      assert bs[b].stmts <= cs[b].stmts <= ds[b].stmts;
    }
  }

  lemma GrewLater(params: nat, g: Gen, r: Gen)
    requires Wf(params, g) && Grew(g, r)
    ensures Later(g.blocks, r.blocks)
  {
    forall b | 0 <= b < |g.blocks|
      ensures g.blocks[b].id == r.blocks[b].id && g.blocks[b].stmts <= r.blocks[b].stmts
      ensures g.blocks[b].ter != M.Unset ==> g.blocks[b] == r.blocks[b]
    {
      if b != g.cur {}
    }
  }

  lemma GrewTrans(g: Gen, h: Gen, r: Gen)
    requires g.cur < |g.blocks| && h.cur < |h.blocks| && Grew(g, h) && Grew(h, r)
    ensures Grew(g, r)
  {
    assert g.blocks[g.cur].stmts <= h.blocks[g.cur].stmts <= r.blocks[g.cur].stmts;
  }

  lemma EmitGrows(params: nat, g: Gen, ss: seq<M.Stmt>)
    requires Wf(params, g)
    ensures var r := Emit(g, ss); Wf(params, r) && Grew(g, r)
  {}

  lemma NewLetGrows(params: nat, g: Gen, id: nat)
    requires Wf(params, g) && id !in g.lets
    ensures var r := NewLet(g, id);
      Wf(params, r) && Grew(g, r) && r.lets.Keys == g.lets.Keys + {id} && r.exits == g.exits
  {}

  lemma JumpGrows(params: nat, g: Gen, target: nat)
    requires Wf(params, g)
    ensures var r := Jump(g, target); Wf(params, r) && Grew(g, r) && r.lets == g.lets && r.exits == g.exits
  {}

  lemma LoopHeadGrows(params: nat, g: Gen, id: nat)
    requires Wf(params, g)
    ensures var r := LoopHead(g, id); Wf(params, r) && Grew(g, r)
    ensures LoopHead(g, id).blocks[|g.blocks| + 1] == M.Block(|g.blocks| + 1, [], M.Unset)
    ensures LoopHead(g, id).blocks[g.cur] == g.blocks[g.cur].(ter := M.Goto(|g.blocks|))
    ensures LoopHead(g, id).blocks[|g.blocks|] == M.Block(|g.blocks|, [], M.Unset)
    ensures LoopHead(g, id).lets == g.lets && LoopHead(g, id).exits == g.exits[id := |g.blocks| + 1]
  {}

  lemma WhileHeadGrows(cx: Cx, g: Gen, id: nat, cond: Expr)
    requires Wf(cx.params, g)
    ensures var r := WhileHead(cx, g, id, cond); Wf(cx.params, r) && Grew(g, r)
    ensures var r := WhileHead(cx, g, id, cond); var top := |g.blocks|;
      && r.blocks[g.cur] == g.blocks[g.cur].(ter := M.Goto(top))
      && r.blocks[top] == M.Block(top, Code(cx.re, g.lets, cond), M.If(top + 1, top + 2))
      && r.blocks[top + 1] == M.Block(top + 1, [], M.Unset)
      && r.blocks[top + 2] == M.Block(top + 2, [], M.Unset)
      && r.lets == g.lets && r.exits == g.exits[id := top + 2]
  {
    assert [] + Code(cx.re, g.lets, cond) == Code(cx.re, g.lets, cond);
  }

  lemma LoopTailGrows(params: nat, g: Gen, top: nat, exit: nat)
    requires Wf(params, g) && 1 < exit < |g.blocks| && exit != g.cur
    requires g.blocks[exit] == M.Block(exit, [], M.Unset)
    ensures var r := LoopTail(g, top, exit); Wf(params, r) && Later(g.blocks, r.blocks)
    ensures LoopTail(g, top, exit).blocks == g.blocks[g.cur := g.blocks[g.cur].(ter := M.Goto(top))]
  {}

  lemma IfHeadGrows(cx: Cx, g: Gen, cond: Expr)
    requires Wf(cx.params, g)
    ensures var r := IfHead(cx, g, cond);
      && Wf(cx.params, r)
      && Later(g.blocks, r.blocks)
      && (forall b :: 0 <= b < |g.blocks| && b != g.cur ==> r.blocks[b] == g.blocks[b])
      && r.blocks[g.cur] == g.blocks[g.cur].(stmts := g.blocks[g.cur].stmts + Code(cx.re, g.lets, cond))
      && r.blocks[|g.blocks|] == M.Block(|g.blocks|, [], M.Unset)
      && r.locals == g.locals && r.lets == g.lets && r.exits == g.exits
  {}

  /** Closing a loop body `e` that was lowered from the loop's head `h`. */
  lemma AroundBody(params: nat, g: Gen, h: Gen, e: Gen, top: nat, exit: nat, id: nat, loops: set<nat>)
    requires Wf(params, g) && Wf(params, h) && Wf(params, e)
    requires Grew(g, h) && Grew(h, e) && |g.blocks| <= h.cur
    requires |g.blocks| <= exit < |h.blocks| && exit != h.cur
    requires h.blocks[exit] == M.Block(exit, [], M.Unset)
    requires id !in loops && h.exits == g.exits[id := exit]
    requires LoopsKept(loops, g, g) && LoopsKept(loops + {id}, h, e)
    ensures var r := LoopTail(e, top, exit);
      && Wf(params, r) && Grew(g, r) && LoopsKept(loops, g, r)
      && Later(e.blocks, r.blocks)
      && r.blocks[exit] == M.Block(exit, [], M.Unset)
      && r.blocks[e.cur] == e.blocks[e.cur].(ter := M.Goto(top))
  {
    GrewTrans(g, h, e);
    LoopTailGrows(params, e, top, exit);
    var r := LoopTail(e, top, exit);
    forall l | l in loops ensures l in g.exits && l in r.exits && r.exits[l] == g.exits[l] {
      assert l in loops + {id};
    }
  }

  /** Joining one branch `t` (lowered from the head `h`) with its `entry`. */
  lemma AroundThen(params: nat, g: Gen, h: Gen, t: Gen, yes: nat)
    requires Wf(params, g) && Wf(params, h) && Wf(params, t)
    requires Grew(h, t) && h.cur == |g.blocks| && Extends(g.lets, h.lets)
    requires g.locals == h.locals && h.blocks[g.cur].ter == M.Unset
    requires h.blocks[g.cur].id == g.cur && g.blocks[g.cur].stmts <= h.blocks[g.cur].stmts
    requires forall b :: 0 <= b < |g.blocks| && b != g.cur ==> h.blocks[b] == g.blocks[b]
    ensures var r := IfTail(t, g.cur, yes);
      && Wf(params, r) && Grew(g, r) && Later(t.blocks, r.blocks)
      && r.blocks[g.cur] == h.blocks[g.cur].(ter := M.If(yes, r.cur))
      && r.blocks[t.cur] == t.blocks[t.cur].(ter := M.Goto(r.cur))
      && r.blocks[r.cur] == M.Block(r.cur, [], M.Unset)
  {}

  /** The three closings at the end of an `if` with two branches, block by block. */
  lemma IfElseBlocks(g: Gen, entry: nat, yes: nat, yesEnd: nat, no: nat)
    requires entry < |g.blocks| && yesEnd < |g.blocks| && g.cur < |g.blocks|
    requires entry != yesEnd && entry != g.cur && yesEnd != g.cur
    ensures var r := IfElseTail(g, entry, yes, yesEnd, no);
      && r.blocks[entry] == g.blocks[entry].(ter := M.If(yes, no))
      && r.blocks[yesEnd] == g.blocks[yesEnd].(ter := M.Goto(r.cur))
      && r.blocks[g.cur] == g.blocks[g.cur].(ter := M.Goto(r.cur))
      && r.blocks[r.cur] == M.Block(r.cur, [], M.Unset)
      && (forall b :: 0 <= b < |g.blocks| && b != entry && b != yesEnd && b != g.cur ==> r.blocks[b] == g.blocks[b])
      && r.locals == g.locals && r.lets == g.lets && r.exits == g.exits
  {}

  /** Closing open blocks keeps the generator well formed. */
  lemma IfElseLater(params: nat, g: Gen, entry: nat, yes: nat, yesEnd: nat, no: nat)
    requires Wf(params, g) && entry < |g.blocks| && yesEnd < |g.blocks|
    requires entry != yesEnd && entry != g.cur && yesEnd != g.cur && entry != 1 && yesEnd != 1
    requires g.blocks[entry].ter == M.Unset && g.blocks[yesEnd].ter == M.Unset
    ensures var r := IfElseTail(g, entry, yes, yesEnd, no); Wf(params, r) && Later(g.blocks, r.blocks)
  {
    IfElseBlocks(g, entry, yes, yesEnd, no);
  }

  lemma AroundElse(params: nat, g: Gen, h: Gen, t: Gen, f: Gen, yes: nat, no: nat)
    requires Wf(params, g) && Wf(params, h) && Wf(params, t) && Wf(params, f)
    requires Grew(h, t) && h.cur == |g.blocks| && Extends(g.lets, h.lets)
    requires g.locals == h.locals && h.blocks[g.cur].ter == M.Unset
    requires h.blocks[g.cur].id == g.cur && g.blocks[g.cur].stmts <= h.blocks[g.cur].stmts
    requires forall b :: 0 <= b < |g.blocks| && b != g.cur ==> h.blocks[b] == g.blocks[b]
    requires Grew(Fresh(t), f)
    ensures var r := IfElseTail(f, g.cur, yes, t.cur, no);
      && Wf(params, r) && Grew(g, r) && Later(f.blocks, r.blocks)
      && r.blocks[g.cur] == h.blocks[g.cur].(ter := M.If(yes, no))
      && r.blocks[t.cur] == t.blocks[t.cur].(ter := M.Goto(r.cur))
      && r.blocks[f.cur] == f.blocks[f.cur].(ter := M.Goto(r.cur))
      && r.blocks[r.cur] == M.Block(r.cur, [], M.Unset)
  {
    assert t.cur != g.cur && f.cur != g.cur && f.cur != t.cur;
    assert f.blocks[t.cur] == t.blocks[t.cur] && f.blocks[g.cur] == h.blocks[g.cur];
    IfElseBlocks(f, g.cur, yes, t.cur, no);
    IfElseLater(params, f, g.cur, yes, t.cur, no);
    var r := IfElseTail(f, g.cur, yes, t.cur, no);
    forall b | 0 <= b < |g.blocks| && b != g.cur ensures r.blocks[b] == g.blocks[b] {
      assert f.blocks[b] == Fresh(t).blocks[b] == t.blocks[b] == h.blocks[b];
    }
  }

  /** Lowering a statement keeps the generator well formed; it changes no block but the
    * current one, adds the statement's variables, and leaves the exits of enclosing loops. */
  lemma {:induction false} LowerGrows(cx: Cx, g: Gen, s: Stmt, loops: set<nat>)
    requires Wf(cx.params, g) && Scoped(cx, g.lets.Keys, loops, s) && LoopsKept(loops, g, g)
    ensures var r := Lower(cx, g, s);
      && Wf(cx.params, r) && Grew(g, r) && LoopsKept(loops, g, r)
      && r.lets.Keys == g.lets.Keys + Lets(s)
    decreases s, 2
  {
    match s
    case Let(_, _, _) => StraightGrows(cx, g, s, loops);
    case Loop(_, _) => LoopGrows(cx, g, s, loops);
    case While(_, _, _) => WhileGrows(cx, g, s, loops);
    case If(_, _, _, falsy) => if falsy.Some? { ElseGrows(cx, g, s, loops); } else { ThenGrows(cx, g, s, loops); }
    case _ => StraightGrows(cx, g, s, loops);
  }

  lemma EmitTwiceGrows(cx: Cx, g: Gen, e: Expr, s: M.Stmt)
    requires Wf(cx.params, g)
    ensures var r := Emit(EmitExpr(cx, g, e), [s]);
      Wf(cx.params, r) && Grew(g, r) && r.cur == g.cur && r.lets == g.lets && r.exits == g.exits && r.locals == g.locals
  {
    EmitGrows(cx.params, g, Code(cx.re, g.lets, e));
    EmitGrows(cx.params, EmitExpr(cx, g, e), [s]);
    GrewTrans(g, EmitExpr(cx, g, e), Emit(EmitExpr(cx, g, e), [s]));
  }

  lemma LetGrows(cx: Cx, g: Gen, s: Stmt, loops: set<nat>)
    requires s.Let? && Wf(cx.params, g) && s.id !in g.lets && LoopsKept(loops, g, g)
    ensures var r := Lower(cx, g, s);
      && Wf(cx.params, r) && Grew(g, r) && LoopsKept(loops, g, r)
      && r.lets.Keys == g.lets.Keys + {s.id}
  {
    var g1 := NewLet(g, s.id);
    NewLetGrows(cx.params, g, s.id);
    if s.init.Some? {
      EmitTwiceGrows(cx, g1, s.init.value, M.Store(g.locals));
      GrewTrans(g, g1, Lower(cx, g, s));
    }
  }

  lemma ReturnGrows(cx: Cx, g: Gen, s: Stmt, loops: set<nat>)
    requires s.Return? && Wf(cx.params, g) && LoopsKept(loops, g, g)
    ensures var r := Lower(cx, g, s);
      Wf(cx.params, r) && Grew(g, r) && LoopsKept(loops, g, r) && r.lets == g.lets
  {
    if s.value.Some? {
      var g1 := Emit(EmitExpr(cx, g, s.value.value), [M.Store(0)]);
      EmitTwiceGrows(cx, g, s.value.value, M.Store(0));
      JumpGrows(cx.params, g1, 1);
      GrewTrans(g, g1, Lower(cx, g, s));
    } else {
      JumpGrows(cx.params, g, 1);
    }
  }

  lemma {:induction false} StraightGrows(cx: Cx, g: Gen, s: Stmt, loops: set<nat>)
    requires !s.Loop? && !s.While? && !s.If?
    requires Wf(cx.params, g) && Scoped(cx, g.lets.Keys, loops, s) && LoopsKept(loops, g, g)
    ensures var r := Lower(cx, g, s);
      && Wf(cx.params, r) && Grew(g, r) && LoopsKept(loops, g, r)
      && r.lets.Keys == g.lets.Keys + Lets(s)
    decreases s, 0
  {
    assert g.cur < |g.blocks|;
    hide Wf, Grew, Emit, EmitExpr, Jump, NewLet, LocalOf, BreakTarget, ScopedExpr;
    match s
    case Let(_, _, _) => LetGrows(cx, g, s, loops);
    case Return(_, _) => ReturnGrows(cx, g, s, loops);
    case Break(id) => JumpGrows(cx.params, g, BreakTarget(cx, g, id));
    case Assign(_, subject, e) =>
      EmitTwiceGrows(cx, g, e, M.Store(if subject.Ident? then LocalOf(cx.re, g.lets, subject.id) else 0));
    case ExprStmt(_, e) => EmitTwiceGrows(cx, g, e, M.Pop);
  }

  lemma {:induction false} LoopGrows(cx: Cx, g: Gen, s: Stmt, loops: set<nat>)
    requires s.Loop?
    requires Wf(cx.params, g) && Scoped(cx, g.lets.Keys, loops, s) && LoopsKept(loops, g, g)
    ensures var r := Lower(cx, g, s);
      && Wf(cx.params, r) && Grew(g, r) && LoopsKept(loops, g, r)
      && r.lets.Keys == g.lets.Keys + Lets(s)
    decreases s, 0
  {
    LoopHeadGrows(cx.params, g, s.id);
    var h := LoopHead(g, s.id);
    LowerBlockGrows(cx, h, s.body, loops + {s.id});
    AroundBody(cx.params, g, h, LowerBlock(cx, h, s.body), |g.blocks|, |g.blocks| + 1, s.id, loops);
  }

  lemma {:induction false} WhileGrows(cx: Cx, g: Gen, s: Stmt, loops: set<nat>)
    requires s.While?
    requires Wf(cx.params, g) && Scoped(cx, g.lets.Keys, loops, s) && LoopsKept(loops, g, g)
    ensures var r := Lower(cx, g, s);
      && Wf(cx.params, r) && Grew(g, r) && LoopsKept(loops, g, r)
      && r.lets.Keys == g.lets.Keys + Lets(s)
    decreases s, 0
  {
    hide EmitExpr, WhileHead;
    WhileHeadGrows(cx, g, s.id, s.cond);
    var h := WhileHead(cx, g, s.id, s.cond);
    LowerBlockGrows(cx, h, s.body, loops + {s.id});
    AroundBody(cx.params, g, h, LowerBlock(cx, h, s.body), |g.blocks|, |g.blocks| + 2, s.id, loops);
  }

  lemma {:induction false} ThenGrows(cx: Cx, g: Gen, s: Stmt, loops: set<nat>)
    requires s.If? && s.falsy.None?
    requires Wf(cx.params, g) && Scoped(cx, g.lets.Keys, loops, s) && LoopsKept(loops, g, g)
    ensures var r := Lower(cx, g, s);
      && Wf(cx.params, r) && Grew(g, r) && LoopsKept(loops, g, r)
      && r.lets.Keys == g.lets.Keys + Lets(s)
    decreases s, 0
  {
    var h := IfHead(cx, g, s.cond);
    IfHeadGrows(cx, g, s.cond);
    LowerBlockGrows(cx, h, s.truthy, loops);
    AroundThen(cx.params, g, h, LowerBlock(cx, h, s.truthy), |g.blocks|);
  }

  /** The generator at the head `h`, after the truthy branch (`t`) and after the other (`f`). */
  lemma {:induction false} Branches(cx: Cx, g: Gen, s: Stmt, loops: set<nat>) returns (h: Gen, t: Gen, f: Gen)
    requires s.If? && s.falsy.Some?
    requires Wf(cx.params, g) && Scoped(cx, g.lets.Keys, loops, s) && LoopsKept(loops, g, g)
    ensures h == IfHead(cx, g, s.cond) && t == LowerBlock(cx, h, s.truthy)
    ensures f == LowerBlock(cx, Fresh(t), s.falsy.value)
    ensures Lower(cx, g, s) == IfElseTail(f, g.cur, |g.blocks|, t.cur, |t.blocks|)
    ensures Wf(cx.params, h) && Wf(cx.params, t) && Wf(cx.params, f) && Wf(cx.params, Fresh(t))
    ensures Grew(h, t) && Grew(Fresh(t), f)
    ensures LoopsKept(loops, g, t) && LoopsKept(loops, g, f)
    ensures t.lets.Keys == g.lets.Keys + BlockLets(s.truthy)
    ensures f.lets.Keys == t.lets.Keys + BlockLets(s.falsy.value)
    decreases s, 0
  {
    h := IfHead(cx, g, s.cond);
    IfHeadGrows(cx, g, s.cond);
    LowerBlockGrows(cx, h, s.truthy, loops);
    t := LowerBlock(cx, h, s.truthy);
    JumpGrows(cx.params, t, 0);
    LowerBlockGrows(cx, Fresh(t), s.falsy.value, loops);
    f := LowerBlock(cx, Fresh(t), s.falsy.value);
  }

  lemma {:induction false} ElseGrows(cx: Cx, g: Gen, s: Stmt, loops: set<nat>)
    requires s.If? && s.falsy.Some?
    requires Wf(cx.params, g) && Scoped(cx, g.lets.Keys, loops, s) && LoopsKept(loops, g, g)
    ensures var r := Lower(cx, g, s);
      && Wf(cx.params, r) && Grew(g, r) && LoopsKept(loops, g, r)
      && r.lets.Keys == g.lets.Keys + Lets(s)
    decreases s, 1
  {
    var h, t, f := Branches(cx, g, s, loops);
    IfHeadGrows(cx, g, s.cond);
    AroundElse(cx.params, g, h, t, f, |g.blocks|, |t.blocks|);
    assert IfElseTail(f, g.cur, |g.blocks|, t.cur, |t.blocks|).lets == f.lets;
    assert IfElseTail(f, g.cur, |g.blocks|, t.cur, |t.blocks|).exits == f.exits;
  }

  lemma {:induction false} LowerBlockGrows(cx: Cx, g: Gen, b: Block, loops: set<nat>)
    requires Wf(cx.params, g) && ScopedBlock(cx, g.lets.Keys, loops, b) && LoopsKept(loops, g, g)
    ensures var r := LowerBlock(cx, g, b);
      && Wf(cx.params, r) && Grew(g, r) && LoopsKept(loops, g, r)
      && r.lets.Keys == g.lets.Keys + BlockLets(b)
    decreases b
  {
    match b
    case Nil =>
    case Cons(s, rest) =>
      LowerGrows(cx, g, s, loops);
      var h := Lower(cx, g, s);
      LowerBlockGrows(cx, h, rest, loops);
      GrewTrans(g, h, LowerBlock(cx, h, rest));
  }
}
