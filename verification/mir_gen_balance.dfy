/** The output of lowering is well formed: every block closed, every target known, the evaluation
  * stack balanced. */
module MirGenBalance {
  import opened Values
  import opened Ast
  import M = Mir
  import opened MirShape
  import opened MirGen
  import opened MirGenShape

  /** A block under construction in a function of `n` blocks. */
  ghost predicate Good(b: M.Block, n: nat, locals: nat) {
    && Balanced(b)
    && LocalsBelow(b.stmts, locals)
    && (forall t :: t in Targets(b.ter) ==> 1 <= t < n)
  }

  /** The blocks of `pending` test a condition whose branches are being lowered. */
  ghost predicate AllGood(g: Gen, pending: set<nat>) {
    && g.cur !in pending
    && (forall b :: 0 <= b < |g.blocks| && b !in pending ==> Good(g.blocks[b], |g.blocks|, g.locals))
    && (forall b :: b in pending ==>
          && b < |g.blocks| && g.blocks[b].ter == M.Unset
          && Level(g.blocks[b].stmts, 0) == Some(1) && LocalsBelow(g.blocks[b].stmts, g.locals))
  }

  ghost predicate GoodExits(loops: set<nat>, g: Gen) {
    forall l :: l in loops ==> l in g.exits && 1 <= g.exits[l] < |g.blocks|
  }

  lemma {:induction false} CodeBalanced(cx: Cx, g: Gen, lets: set<nat>, e: Expr, d: nat)
    requires LowerableExpr(e) && ScopedExpr(cx, lets, e) && lets <= g.lets.Keys
    requires cx.params < g.locals && InjectiveLets(cx.params, g.locals, g.lets)
    ensures Level(Code(cx.re, g.lets, e), d) == Some(d + 1)
    ensures LocalsBelow(Code(cx.re, g.lets, e), g.locals)
    decreases e
  {
    match e
    case Call(_, callee, args) =>
      ArgsBalanced(cx, g, lets, args, d);
      CodeBalanced(cx, g, lets, callee, d + Length(args));
      LastBalanced(ArgsCode(cx.re, g.lets, args), Code(cx.re, g.lets, callee), M.CallFn(Length(args)),
                   d, d + Length(args), d + Length(args) + 1, g.locals);
    case Binary(_, op, left, right) =>
      CodeBalanced(cx, g, lets, left, d);
      CodeBalanced(cx, g, lets, right, d + 1);
      LastBalanced(Code(cx.re, g.lets, left), Code(cx.re, g.lets, right), M.Binary(op.op), d, d + 1, d + 2, g.locals);
    case _ => LeafBalanced(cx, g, lets, e, d);
  }

  lemma {:induction false} LeafBalanced(cx: Cx, g: Gen, lets: set<nat>, e: Expr, d: nat)
    requires e.Ident? || e.Int? || e.Str?
    requires ScopedExpr(cx, lets, e) && lets <= g.lets.Keys
    requires cx.params < g.locals && InjectiveLets(cx.params, g.locals, g.lets)
    ensures Level(Code(cx.re, g.lets, e), d) == Some(d + 1)
    ensures LocalsBelow(Code(cx.re, g.lets, e), g.locals)
  {}

  /** Two pieces of code and the statement that consumes what they leave. */
  lemma {:induction false} LastBalanced(a: seq<M.Stmt>, c: seq<M.Stmt>, s: M.Stmt, d: nat, mid: nat, deep: nat,
                                        locals: nat)
    requires Level(a, d) == Some(mid) && Level(c, mid) == Some(deep) && Effect(s, deep) == Some(d + 1)
    requires LocalsBelow(a, locals) && LocalsBelow(c, locals) && !s.Load? && !s.Store? && !s.Pop?
    ensures Level(a + c + [s], d) == Some(d + 1) && LocalsBelow(a + c + [s], locals)
  {
    LevelConcat(a, c, d);
    LevelConcat(a + c, [s], d);
    assert [s][1..] == [];
    assert Level([s], deep) == Level([], d + 1);
  }

  lemma {:induction false} ArgsBalanced(cx: Cx, g: Gen, lets: set<nat>, es: List<Expr>, d: nat)
    requires LowerableArgs(es) && ScopedArgs(cx, lets, es) && lets <= g.lets.Keys
    requires cx.params < g.locals && InjectiveLets(cx.params, g.locals, g.lets)
    ensures Level(ArgsCode(cx.re, g.lets, es), d) == Some(d + Length(es))
    ensures LocalsBelow(ArgsCode(cx.re, g.lets, es), g.locals)
    decreases es
  {
    match es
    case Nil =>
    case Cons(e, rest) =>
      CodeBalanced(cx, g, lets, e, d);
      ArgsBalanced(cx, g, lets, rest, d + 1);
      LevelConcat(Code(cx.re, g.lets, e), ArgsCode(cx.re, g.lets, rest), d);
  }

  /** More blocks and more locals do no harm; `except` is looked at by itself. */
  lemma StillGood(g: Gen, r: Gen, pending: set<nat>, except: set<nat>)
    requires AllGood(g, pending) && |g.blocks| <= |r.blocks| && g.locals <= r.locals
    requires forall b :: 0 <= b < |g.blocks| && b !in except ==> r.blocks[b] == g.blocks[b]
    ensures forall b :: 0 <= b < |g.blocks| && b !in except && b !in pending ==> Good(r.blocks[b], |r.blocks|, r.locals)
    ensures forall b :: b in pending && b !in except ==>
              && b < |r.blocks| && r.blocks[b].ter == M.Unset
              && Level(r.blocks[b].stmts, 0) == Some(1) && LocalsBelow(r.blocks[b].stmts, r.locals)
  {
    forall b | 0 <= b < |g.blocks| && b !in except && b !in pending ensures Good(r.blocks[b], |r.blocks|, r.locals) {
      assert Good(g.blocks[b], |g.blocks|, g.locals);
    }
  }

  /** A block that evaluates `e` and consumes its value stays balanced. */
  lemma ConsumeGood(cx: Cx, g: Gen, lets: set<nat>, e: Expr, s: M.Stmt, pending: set<nat>)
    requires Wf(cx.params, g) && AllGood(g, pending)
    requires LowerableExpr(e) && ScopedExpr(cx, lets, e) && lets <= g.lets.Keys
    requires s == M.Pop || (s.Store? && s.local < g.locals)
    ensures AllGood(Emit(EmitExpr(cx, g, e), [s]), pending)
  {
    hide LowerableExpr, Code, LowerableArgs;
    var b := g.blocks[g.cur];
    var code := Code(cx.re, g.lets, e);
    CodeBalanced(cx, g, lets, e, 0);
    LevelConcat(b.stmts, code, 0);
    LevelConcat(b.stmts + code, [s], 0);
    var r := Emit(EmitExpr(cx, g, e), [s]);
    assert r.blocks[g.cur] == b.(stmts := b.stmts + code + [s]);
    assert Good(b, |g.blocks|, g.locals);
    StillGood(g, r, pending, {g.cur});
  }

  lemma JumpGood(params: nat, g: Gen, target: nat, pending: set<nat>)
    requires Wf(params, g) && AllGood(g, pending) && 1 <= target < |g.blocks|
    ensures AllGood(Jump(g, target), pending)
  {
    var r := Jump(g, target);
    assert r.blocks[g.cur] == g.blocks[g.cur].(ter := M.Goto(target));
    assert Good(g.blocks[g.cur], |g.blocks|, g.locals);
    StillGood(g, r, pending, {g.cur});
  }

  lemma LoopHeadGood(params: nat, g: Gen, id: nat, pending: set<nat>)
    requires Wf(params, g) && AllGood(g, pending)
    ensures AllGood(LoopHead(g, id), pending)
  {
    LoopHeadGrows(params, g, id);
    assert Good(g.blocks[g.cur], |g.blocks|, g.locals);
    StillGood(g, LoopHead(g, id), pending, {g.cur});
  }

  lemma WhileHeadGood(cx: Cx, g: Gen, r: Gen, id: nat, cond: Expr, pending: set<nat>)
    requires Wf(cx.params, g) && AllGood(g, pending) && LowerableExpr(cond) && ScopedExpr(cx, g.lets.Keys, cond)
    requires Grew(g, r) && |r.blocks| == |g.blocks| + 3 && r.cur == |g.blocks| + 1
    requires r.blocks[g.cur] == g.blocks[g.cur].(ter := M.Goto(|g.blocks|))
    requires var top := |g.blocks|; r.blocks[top] == M.Block(top, Code(cx.re, g.lets, cond), M.If(top + 1, top + 2))
    requires forall b :: b == |g.blocks| + 1 || b == |g.blocks| + 2 ==> r.blocks[b] == M.Block(b, [], M.Unset)
    ensures AllGood(r, pending)
  {
    CodeBalanced(cx, g, g.lets.Keys, cond, 0);
    assert Good(g.blocks[g.cur], |g.blocks|, g.locals);
    StillGood(g, r, pending, {g.cur});
  }

  lemma LoopTailGood(params: nat, g: Gen, top: nat, exit: nat, pending: set<nat>)
    requires Wf(params, g) && AllGood(g, pending) && 1 <= top < |g.blocks| && exit !in pending
    ensures AllGood(LoopTail(g, top, exit), pending)
  {
    assert Good(g.blocks[g.cur], |g.blocks|, g.locals);
    StillGood(g, LoopTail(g, top, exit), pending, {g.cur});
  }

  lemma IfHeadGood(cx: Cx, g: Gen, cond: Expr, pending: set<nat>)
    requires Wf(cx.params, g) && AllGood(g, pending) && LowerableExpr(cond) && ScopedExpr(cx, g.lets.Keys, cond)
    ensures AllGood(IfHead(cx, g, cond), pending + {g.cur})
  {
    IfHeadGrows(cx, g, cond);
    CodeBalanced(cx, g, g.lets.Keys, cond, 0);
    LevelConcat(g.blocks[g.cur].stmts, Code(cx.re, g.lets, cond), 0);
    assert Good(g.blocks[g.cur], |g.blocks|, g.locals);
    StillGood(g, IfHead(cx, g, cond), pending, {g.cur});
  }

  lemma FreshGood(params: nat, g: Gen, pending: set<nat>)
    requires Wf(params, g) && AllGood(g, pending)
    ensures AllGood(Fresh(g), pending)
  {
    StillGood(g, Fresh(g), pending, {});
  }

  lemma IfTailGood(g: Gen, r: Gen, entry: nat, yes: nat, pending: set<nat>)
    requires entry !in pending && AllGood(g, pending + {entry}) && entry != g.cur
    requires g.cur < |g.blocks| && 1 <= yes < |g.blocks| && g.blocks[g.cur].ter == M.Unset
    requires r == IfTail(g, entry, yes)
    ensures AllGood(r, pending)
  {
    var exit := |g.blocks|;
    assert r.blocks[entry] == g.blocks[entry].(ter := M.If(yes, exit));
    assert r.blocks[g.cur] == g.blocks[g.cur].(ter := M.Goto(exit));
    assert r.blocks[exit] == M.Block(exit, [], M.Unset);
    assert Good(g.blocks[g.cur], |g.blocks|, g.locals);
    assert entry in pending + {entry};
    StillGood(g, r, pending + {entry}, {g.cur, entry});
  }

  lemma IfElseTailGood(g: Gen, r: Gen, entry: nat, yes: nat, yesEnd: nat, no: nat, pending: set<nat>)
    requires entry !in pending && AllGood(g, pending + {entry}) && entry != g.cur && entry != yesEnd && yesEnd != g.cur
    requires g.cur < |g.blocks| && 1 <= yes < |g.blocks| && 1 <= no < |g.blocks| && yesEnd < |g.blocks|
    requires yesEnd !in pending && g.blocks[yesEnd].ter == M.Unset && g.blocks[g.cur].ter == M.Unset
    requires r == IfElseTail(g, entry, yes, yesEnd, no)
    ensures AllGood(r, pending)
  {
    IfElseBlocks(g, entry, yes, yesEnd, no);
    assert Good(g.blocks[g.cur], |g.blocks|, g.locals) && Good(g.blocks[yesEnd], |g.blocks|, g.locals);
    assert entry in pending + {entry};
    StillGood(g, r, pending + {entry}, {g.cur, entry, yesEnd});
  }

  lemma {:induction false} LowerGood(cx: Cx, g: Gen, s: Stmt, loops: set<nat>, pending: set<nat>)
    requires Wf(cx.params, g) && Scoped(cx, g.lets.Keys, loops, s) && Lowerable(cx, s)
    requires AllGood(g, pending) && GoodExits(loops, g)
    ensures AllGood(Lower(cx, g, s), pending)
    decreases s, 1
  {
    match s
    case Let(id, _, init) =>
      NewLetGrows(cx.params, g, id);
      var g1 := NewLet(g, id);
      StillGood(g, g1, pending, {});
      if init.Some? {
        assert g1.lets.Keys == g.lets.Keys + {id};
        ConsumeGood(cx, g1, g1.lets.Keys, init.value, M.Store(g.locals), pending);
      }
    case Loop(_, _) => LoopGood(cx, g, s, loops, pending);
    case While(_, _, _) => WhileGood(cx, g, s, loops, pending);
    case If(_, _, _, falsy) =>
      if falsy.Some? { ElseGood(cx, g, s, loops, pending); } else { ThenGood(cx, g, s, loops, pending); }
    case Return(_, e) =>
      if e.Some? {
        ConsumeGood(cx, g, g.lets.Keys, e.value, M.Store(0), pending);
        EmitTwiceGrows(cx, g, e.value, M.Store(0));
        JumpGood(cx.params, Emit(EmitExpr(cx, g, e.value), [M.Store(0)]), 1, pending);
      } else {
        JumpGood(cx.params, g, 1, pending);
      }
    case Break(id) => JumpGood(cx.params, g, BreakTarget(cx, g, id), pending);
    case Assign(_, subject, e) => ConsumeGood(cx, g, g.lets.Keys, e, M.Store(LocalOf(cx.re, g.lets, subject.id)),
                                              pending);
    case ExprStmt(_, e) => ConsumeGood(cx, g, g.lets.Keys, e, M.Pop, pending);
  }

  lemma {:induction false} LoopGood(cx: Cx, g: Gen, s: Stmt, loops: set<nat>, pending: set<nat>)
    requires s.Loop? && Wf(cx.params, g) && Scoped(cx, g.lets.Keys, loops, s) && Lowerable(cx, s)
    requires AllGood(g, pending) && GoodExits(loops, g)
    ensures AllGood(Lower(cx, g, s), pending)
    decreases s, 0
  {
    var h := LoopHead(g, s.id);
    LoopHeadGrows(cx.params, g, s.id);
    LoopHeadGood(cx.params, g, s.id, pending);
    LowerBlockGood(cx, h, s.body, loops + {s.id}, pending);
    LowerBlockGrows(cx, h, s.body, loops + {s.id});
    LoopTailGood(cx.params, LowerBlock(cx, h, s.body), |g.blocks|, |g.blocks| + 1, pending);
  }

  lemma {:induction false} WhileGood(cx: Cx, g: Gen, s: Stmt, loops: set<nat>, pending: set<nat>)
    requires s.While? && Wf(cx.params, g) && Scoped(cx, g.lets.Keys, loops, s) && Lowerable(cx, s)
    requires AllGood(g, pending) && GoodExits(loops, g)
    ensures AllGood(Lower(cx, g, s), pending)
    decreases s, 0
  {
    var h := WhileHead(cx, g, s.id, s.cond);
    WhileHeadGrows(cx, g, s.id, s.cond);
    WhileHeadGood(cx, g, h, s.id, s.cond, pending);
    LowerBlockGood(cx, h, s.body, loops + {s.id}, pending);
    LowerBlockGrows(cx, h, s.body, loops + {s.id});
    LoopTailGood(cx.params, LowerBlock(cx, h, s.body), |g.blocks|, |g.blocks| + 2, pending);
  }

  lemma {:induction false} ThenGood(cx: Cx, g: Gen, s: Stmt, loops: set<nat>, pending: set<nat>)
    requires s.If? && s.falsy.None? && Wf(cx.params, g) && Scoped(cx, g.lets.Keys, loops, s) && Lowerable(cx, s)
    requires AllGood(g, pending) && GoodExits(loops, g)
    ensures AllGood(Lower(cx, g, s), pending)
    decreases s, 0
  {
    var h := IfHead(cx, g, s.cond);
    IfHeadGrows(cx, g, s.cond);
    IfHeadGood(cx, g, s.cond, pending);
    LowerBlockGood(cx, h, s.truthy, loops, pending + {g.cur});
    LowerBlockGrows(cx, h, s.truthy, loops);
    var t := LowerBlock(cx, h, s.truthy);
    IfTailGood(t, IfTail(t, g.cur, |g.blocks|), g.cur, |g.blocks|, pending);
  }

  lemma {:induction false} ElseGood(cx: Cx, g: Gen, s: Stmt, loops: set<nat>, pending: set<nat>)
    requires s.If? && s.falsy.Some? && Wf(cx.params, g) && Scoped(cx, g.lets.Keys, loops, s) && Lowerable(cx, s)
    requires AllGood(g, pending) && GoodExits(loops, g)
    ensures AllGood(Lower(cx, g, s), pending)
    decreases s, 0
  {
    var h, t, f := Branches(cx, g, s, loops);
    IfHeadGood(cx, g, s.cond, pending);
    LowerBlockGood(cx, h, s.truthy, loops, pending + {g.cur});
    FreshGood(cx.params, t, pending + {g.cur});
    LowerBlockGood(cx, Fresh(t), s.falsy.value, loops, pending + {g.cur});
    assert f.blocks[t.cur] == t.blocks[t.cur];
    IfElseTailGood(f, IfElseTail(f, g.cur, |g.blocks|, t.cur, |t.blocks|), g.cur, |g.blocks|, t.cur, |t.blocks|,
                   pending);
  }

  lemma {:induction false} LowerBlockGood(cx: Cx, g: Gen, b: Block, loops: set<nat>, pending: set<nat>)
    requires Wf(cx.params, g) && ScopedBlock(cx, g.lets.Keys, loops, b) && LowerableBlock(cx, b)
    requires AllGood(g, pending) && GoodExits(loops, g)
    ensures AllGood(LowerBlock(cx, g, b), pending)
    decreases b
  {
    match b
    case Nil =>
    case Cons(s, rest) =>
      LowerGood(cx, g, s, loops, pending);
      LowerGrows(cx, g, s, loops);
      LowerBlockGood(cx, Lower(cx, g, s), rest, loops, pending);
  }

  // ---------- Every block is closed ----------

  /** All blocks but the current one, the return block and those in `open` are closed. */
  ghost predicate ClosedBut(g: Gen, open: set<nat>) {
    g.cur !in open &&
    forall b :: 0 <= b < |g.blocks| && b != g.cur && b != 1 && b !in open ==> g.blocks[b].ter != M.Unset
  }

  lemma TailCloses(g: Gen, top: nat, exit: nat, open: set<nat>)
    requires g.cur < |g.blocks| && ClosedBut(g, open + {exit}) && exit !in open
    ensures ClosedBut(LoopTail(g, top, exit), open)
  {
    assert forall b :: b !in open && b != exit ==> b !in open + {exit};
  }

  /** A head closes the block it leaves; the new blocks but the first are open. */
  lemma HeadCloses(g: Gen, h: Gen, open: set<nat>, more: set<nat>)
    requires g.cur < |g.blocks| <= |h.blocks| && ClosedBut(g, open) && |g.blocks| <= h.cur
    requires forall b :: b in open ==> b < |g.blocks|
    requires forall b :: 0 <= b < |g.blocks| && b != g.cur ==> h.blocks[b] == g.blocks[b]
    requires g.cur in more || h.blocks[g.cur].ter != M.Unset
    requires forall b :: |g.blocks| <= b < |h.blocks| && b != h.cur && b !in more ==> h.blocks[b].ter != M.Unset
    requires h.cur !in more
    ensures ClosedBut(h, open + more)
  {}

  lemma {:induction false} LowerCloses(cx: Cx, g: Gen, s: Stmt, loops: set<nat>, open: set<nat>)
    requires Wf(cx.params, g) && Scoped(cx, g.lets.Keys, loops, s) && LoopsKept(loops, g, g) && ClosedBut(g, open)
    requires forall b :: b in open ==> b < |g.blocks|
    ensures ClosedBut(Lower(cx, g, s), open)
    decreases s, 1
  {
    match s
    case Loop(_, _) => LoopCloses(cx, g, s, loops, open);
    case While(_, _, _) => WhileCloses(cx, g, s, loops, open);
    case If(_, _, _, falsy) =>
      if falsy.Some? { ElseCloses(cx, g, s, loops, open); } else { ThenCloses(cx, g, s, loops, open); }
    case _ =>
  }

  lemma {:induction false} LoopCloses(cx: Cx, g: Gen, s: Stmt, loops: set<nat>, open: set<nat>)
    requires s.Loop? && Wf(cx.params, g) && Scoped(cx, g.lets.Keys, loops, s) && LoopsKept(loops, g, g)
    requires ClosedBut(g, open)
    requires forall b :: b in open ==> b < |g.blocks|
    ensures ClosedBut(Lower(cx, g, s), open)
    decreases s, 0
  {
    var h, exit := LoopHead(g, s.id), |g.blocks| + 1;
    LoopHeadGrows(cx.params, g, s.id);
    HeadCloses(g, h, open, {exit});
    LowerBlockCloses(cx, h, s.body, loops + {s.id}, open + {exit});
    TailCloses(LowerBlock(cx, h, s.body), |g.blocks|, exit, open);
  }

  lemma {:induction false} WhileCloses(cx: Cx, g: Gen, s: Stmt, loops: set<nat>, open: set<nat>)
    requires s.While? && Wf(cx.params, g) && Scoped(cx, g.lets.Keys, loops, s) && LoopsKept(loops, g, g)
    requires ClosedBut(g, open)
    requires forall b :: b in open ==> b < |g.blocks|
    ensures ClosedBut(Lower(cx, g, s), open)
    decreases s, 0
  {
    var h, exit := WhileHead(cx, g, s.id, s.cond), |g.blocks| + 2;
    WhileHeadGrows(cx, g, s.id, s.cond);
    HeadCloses(g, h, open, {exit});
    LowerBlockCloses(cx, h, s.body, loops + {s.id}, open + {exit});
    TailCloses(LowerBlock(cx, h, s.body), |g.blocks|, exit, open);
  }

  lemma {:induction false} ThenCloses(cx: Cx, g: Gen, s: Stmt, loops: set<nat>, open: set<nat>)
    requires s.If? && s.falsy.None? && Wf(cx.params, g) && Scoped(cx, g.lets.Keys, loops, s) && LoopsKept(loops, g, g)
    requires ClosedBut(g, open)
    requires forall b :: b in open ==> b < |g.blocks|
    ensures ClosedBut(Lower(cx, g, s), open)
    decreases s, 0
  {
    var h := IfHead(cx, g, s.cond);
    IfHeadGrows(cx, g, s.cond);
    HeadCloses(g, h, open, {g.cur});
    LowerBlockCloses(cx, h, s.truthy, loops, open + {g.cur});
    IfTailCloses(LowerBlock(cx, h, s.truthy), g.cur, |g.blocks|, open);
  }

  lemma IfTailCloses(g: Gen, entry: nat, yes: nat, open: set<nat>)
    requires entry < |g.blocks| && g.cur < |g.blocks| && ClosedBut(g, open + {entry}) && entry !in open
    requires forall b :: b in open ==> b < |g.blocks|
    ensures ClosedBut(IfTail(g, entry, yes), open)
  {
    assert forall b :: b !in open && b != entry ==> b !in open + {entry};
  }

  lemma FreshCloses(g: Gen, open: set<nat>)
    requires g.cur < |g.blocks| && ClosedBut(g, open) && forall b :: b in open ==> b < |g.blocks|
    ensures ClosedBut(Fresh(g), open + {g.cur})
  {}

  lemma {:induction false} ElseCloses(cx: Cx, g: Gen, s: Stmt, loops: set<nat>, open: set<nat>)
    requires s.If? && s.falsy.Some? && Wf(cx.params, g) && Scoped(cx, g.lets.Keys, loops, s) && LoopsKept(loops, g, g)
    requires ClosedBut(g, open)
    requires forall b :: b in open ==> b < |g.blocks|
    ensures ClosedBut(Lower(cx, g, s), open)
    decreases s, 0
  {
    hide ClosedBut, LowerBlock;
    var h, t, f := Branches(cx, g, s, loops);
    IfHeadGrows(cx, g, s.cond);
    HeadCloses(g, h, open, {g.cur});
    LowerBlockCloses(cx, h, s.truthy, loops, open + {g.cur});
    FreshCloses(t, open + {g.cur});
    LowerBlockCloses(cx, Fresh(t), s.falsy.value, loops, open + {g.cur} + {t.cur});
    IfElseTailCloses(f, g.cur, |g.blocks|, t.cur, |t.blocks|, open);
  }

  lemma IfElseTailCloses(g: Gen, entry: nat, yes: nat, yesEnd: nat, no: nat, open: set<nat>)
    requires entry < |g.blocks| && g.cur < |g.blocks| && yesEnd < |g.blocks|
    requires entry != g.cur && yesEnd != g.cur && entry != yesEnd
    requires ClosedBut(g, open + {entry} + {yesEnd}) && forall b :: b in open ==> b < |g.blocks|
    ensures ClosedBut(IfElseTail(g, entry, yes, yesEnd, no), open)
  {
    IfElseBlocks(g, entry, yes, yesEnd, no);
    assert forall b :: b !in open && b != entry && b != yesEnd ==> b !in open + {entry} + {yesEnd};
  }

  lemma {:induction false} LowerBlockCloses(cx: Cx, g: Gen, b: Block, loops: set<nat>, open: set<nat>)
    requires Wf(cx.params, g) && ScopedBlock(cx, g.lets.Keys, loops, b) && LoopsKept(loops, g, g) && ClosedBut(g, open)
    requires forall b :: b in open ==> b < |g.blocks|
    ensures ClosedBut(LowerBlock(cx, g, b), open)
    decreases b
  {
    match b
    case Nil =>
    case Cons(s, rest) =>
      LowerCloses(cx, g, s, loops, open);
      LowerGrows(cx, g, s, loops);
      LowerBlockCloses(cx, Lower(cx, g, s), rest, loops, open);
  }

  lemma FinishWellFormed(params: nat, g: Gen)
    requires Wf(params, g) && AllGood(g, {}) && ClosedBut(g, {})
    ensures WellFormed(M.Fn(params, g.locals, Close(Close(g, g.cur, M.Goto(1)), 1, M.Return).blocks, 0, 1))
  {
    var bs := Close(Close(g, g.cur, M.Goto(1)), 1, M.Return).blocks;
    assert OwnIds(bs);
    forall b | 0 <= b < |bs|
      ensures bs[b].ter != M.Unset && Balanced(bs[b]) && LocalsBelow(bs[b].stmts, g.locals)
      ensures Targets(bs[b].ter) <= Ids(bs) - {0}
    {
      assert Good(g.blocks[b], |g.blocks|, g.locals);
      forall t | t in Targets(bs[b].ter) ensures t in Ids(bs) {
        assert bs[t].id == t;
      }
    }
  }

  /** Every lowered function is well formed: balanced, closed, with known targets, and nothing
    * jumps to its entry. */
  lemma {:induction false} LowerFnWellFormed(cx: Cx, body: Block)
    requires ScopedBlock(cx, {}, {}, body) && LowerableBlock(cx, body)
    ensures WellFormed(LowerFn(cx, body))
  {
    var g0 := Start(cx.params);
    assert g0.lets.Keys == {};
    LowerBlockGrows(cx, g0, body, {});
    LowerBlockGood(cx, g0, body, {}, {});
    LowerBlockCloses(cx, g0, body, {}, {});
    FinishWellFormed(cx.params, LowerBlock(cx, g0, body));
  }
}
