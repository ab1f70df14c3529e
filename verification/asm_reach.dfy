/** Which statements a body can get to, and that what register selection needs of the compiled
  * function it needs of every expression in them. */
module AsmReach {
  import opened Values
  import opened Ast
  import M = Mir
  import opened MirShape
  import opened MirGen
  import opened MirGenShape
  import opened MirGenProof
  import opened MirGenStmts
  import opened MirGenTheorem
  import MirGenBalance
  import O = MirOptimize
  import P = MirOptimizeProof
  import opened AsmCrowded
  import opened AsmFine

  // ---------- Blocks that can be reached ----------

  /** Whoever starts in `s` stays in `s`. */
  ghost predicate Closed(bs: seq<M.Block>, s: set<nat>) {
    forall k :: 0 <= k < |bs| && bs[k].id in s ==> Targets(bs[k].ter) <= s
  }

  ghost predicate Reached(bs: seq<M.Block>, entry: nat, id: nat) {
    forall s: set<nat> :: Closed(bs, s) && entry in s ==> id in s
  }

  ghost predicate ReachedClear(bs: seq<M.Block>, entry: nat) {
    forall k :: 0 <= k < |bs| && Reached(bs, entry, bs[k].id) ==> ClearCode(bs[k].stmts)
  }

  lemma ReachedNext(bs: seq<M.Block>, entry: nat, k: nat, t: nat)
    requires k < |bs| && Reached(bs, entry, bs[k].id) && t in Targets(bs[k].ter)
    ensures Reached(bs, entry, t)
  {}

  // ---------- Simplifying the graph keeps what can be reached ----------

  /** Some set is closed. */
  lemma Everything(bs: seq<M.Block>, entry: nat) returns (s: set<nat>)
    ensures Closed(bs, s) && entry in s
  {
    s := {entry} + (set k, t | 0 <= k < |bs| && t in Targets(bs[k].ter) :: t);
  }

  lemma {:induction false} ReachedWithout(bs: seq<M.Block>, removed: set<nat>, entry: nat, id: nat)
    requires O.Severed(bs, removed) && entry !in removed && Reached(bs, entry, id)
    ensures id !in removed && Reached(O.Without(bs, removed), entry, id)
  {
    var cs := O.Without(bs, removed);
    P.WithoutMembers(bs, removed);
    forall s: set<nat> | Closed(cs, s) && entry in s ensures id in s - removed {
      forall k | 0 <= k < |bs| && bs[k].id in s - removed ensures Targets(bs[k].ter) <= s - removed {
        assert bs[k] in cs;
      }
      assert Closed(bs, s - removed);
    }
    var all := Everything(cs, entry);
  }

  lemma {:induction false} WithoutReached(bs: seq<M.Block>, removed: set<nat>, entry: nat)
    requires O.Severed(bs, removed) && entry !in removed && ReachedClear(O.Without(bs, removed), entry)
    ensures ReachedClear(bs, entry)
  {
    var cs := O.Without(bs, removed);
    P.WithoutMembers(bs, removed);
    hide ClearCode, Reached;
    forall k | 0 <= k < |bs| && Reached(bs, entry, bs[k].id) ensures ClearCode(bs[k].stmts) {
      ReachedWithout(bs, removed, entry, bs[k].id);
      assert bs[k] in cs;
    }
  }

  /** What a closed set after absorbing says of before. */
  lemma {:induction false} AbsorbClosed(bs: seq<M.Block>, i: nat, j: nat, s: set<nat>)
    requires DistinctIds(bs) && i < |bs| && j < |bs| && bs[i].ter == M.Goto(bs[j].id) && Closed(O.Absorb(bs, i, j), s)
    ensures Closed(bs, if bs[i].id in s then s + {bs[j].id} else s)
  {
    var cs := O.Absorb(bs, i, j);
    var all := if bs[i].id in s then s + {bs[j].id} else s;
    forall k | 0 <= k < |bs| && bs[k].id in all ensures Targets(bs[k].ter) <= all {
      if k == j && k != i && bs[i].id in s {
        assert Targets(cs[i].ter) <= s;
      } else if k != i {
        assert cs[k] == bs[k];
      }
    }
  }

  lemma {:induction false} ReachedAbsorb(bs: seq<M.Block>, i: nat, j: nat, entry: nat, id: nat)
    requires DistinctIds(bs) && i < |bs| && j < |bs| && bs[i].ter == M.Goto(bs[j].id) && Reached(bs, entry, id)
    ensures var cs := O.Absorb(bs, i, j); Reached(cs, entry, id) || (id == bs[j].id && Reached(cs, entry, bs[i].id))
  {
    var cs := O.Absorb(bs, i, j);
    if !Reached(cs, entry, id) {
      var s :| Closed(cs, s) && entry in s && id !in s;
      AbsorbClosed(bs, i, j, s);
      assert id == bs[j].id && bs[i].id in s;
      forall u: set<nat> | Closed(cs, u) && entry in u ensures bs[i].id in u {
        var both := s * u;
        assert Closed(cs, both);
        AbsorbClosed(bs, i, j, both);
      }
    }
  }

  lemma {:induction false} AbsorbReached(bs: seq<M.Block>, i: nat, j: nat, entry: nat)
    requires DistinctIds(bs) && i < |bs| && j < |bs| && bs[i].ter == M.Goto(bs[j].id) && Balanced(bs[i])
    requires Balanced(bs[j])
    requires ReachedClear(O.Absorb(bs, i, j), entry)
    ensures ReachedClear(bs, entry)
  {
    var cs := O.Absorb(bs, i, j);
    TwoClear(bs[i], bs[j]);
    hide ClearCode, Balanced, Reached;
    forall k | 0 <= k < |bs| && Reached(bs, entry, bs[k].id) ensures ClearCode(bs[k].stmts) {
      ReachedAbsorb(bs, i, j, entry, bs[k].id);
      assert cs[k].id == bs[k].id && cs[i].id == bs[i].id;
      if k != i && Reached(cs, entry, bs[k].id) {
        assert cs[k] == bs[k];
      } else {
        assert k == i || k == j;
      }
    }
  }

  lemma {:induction false} TwoClear(a: M.Block, b: M.Block)
    requires Balanced(a) && Balanced(b) && a.ter.Goto?
    ensures ClearCode(a.stmts + b.stmts) <==> ClearCode(a.stmts) && ClearCode(b.stmts)
  {
    assert KindsAfter(a.stmts, []) == [];
    ClearConcat(a.stmts, b.stmts, []);
  }

  lemma {:induction false} JoinReached(fn: M.Fn, p: O.Joining, i: nat)
    requires WellFormed(fn.(blocks := p.bs)) && P.JoinInv(p, fn.entry) && i <= |p.bs|
    requires ReachedClear(O.JoinFrom(p, i).bs, fn.entry)
    ensures ReachedClear(p.bs, fn.entry)
    decreases |p.bs| - i
  {
    hide ReachedClear, P.JoinInv;
    if i < |p.bs| {
      var a := O.Absorbed(p.bs, i);
      P.JoinAtInv(p, i, fn.entry);
      if a.Some? {
        P.AbsorbWellFormed(fn.(blocks := p.bs), i, a.value);
      }
      JoinReached(fn, O.JoinAt(p, i), i + 1);
      if a.Some? {
        AbsorbReached(p.bs, i, a.value, fn.entry);
      }
    }
  }

  lemma {:induction false} RoundReached(fn: M.Fn)
    requires WellFormed(fn) && ReachedClear(P.Round(fn.blocks, fn.entry, fn.exit).0, fn.entry)
    ensures ReachedClear(fn.blocks, fn.entry)
  {
    hide ReachedClear, WellFormed;
    var removed := O.Unreached(fn.blocks, fn.blocks, fn.entry);
    P.UnreachedSevered(fn);
    P.WithoutWellFormed(fn, removed);
    var cs := O.EliminateUnreachable(fn.blocks, fn.entry);
    JoinStart(cs, fn);
    var p := O.Joining(cs, {}, fn.exit);
    P.JoinFromSound(fn, p, 0);
    var q := O.JoinFrom(p, 0);
    WithoutReached(q.bs, q.removed, fn.entry);
    JoinReached(fn, p, 0);
    WithoutReached(fn.blocks, removed, fn.entry);
  }

  /** Where simplification leaves clear blocks, every block that could be reached was clear. */
  lemma {:induction false} OptimizeReached(fn: M.Fn)
    requires WellFormed(fn) && CodesClear(P.OptimizeFn(fn).blocks)
    ensures ReachedClear(fn.blocks, fn.entry)
    decreases |fn.blocks|
  {
    hide CodesClear, P.Round, Balanced, LocalsBelow, DistinctIds, Reached;
    P.RoundSound(fn);
    P.RoundShrinks(fn.blocks, fn.entry, fn.exit);
    var r := P.Round(fn.blocks, fn.entry, fn.exit);
    if |r.0| == |fn.blocks| {
      AllReached(r.0, fn.entry);
    } else {
      OptimizeReached(fn.(blocks := r.0, exit := r.1));
    }
    RoundReached(fn);
  }

  lemma AllReached(bs: seq<M.Block>, entry: nat)
    requires CodesClear(bs)
    ensures ReachedClear(bs, entry)
  {}

  // ---------- Statements that can be reached ----------

  /** Whether a statement, once started, can come to its end. */
  predicate Falls(re: Resols, s: Stmt) {
    match s
    case Loop(id, body) => BreaksBlock(re, body, id)
    case If(_, _, truthy, falsy) => FallsBlock(re, truthy) || falsy.None? || FallsBlock(re, falsy.value)
    case Return(_, _) => false
    case Break(_) => false
    case _ => true
  }

  predicate FallsBlock(re: Resols, b: Block) {
    match b
    case Nil => true
    case Cons(s, rest) => Falls(re, s) && FallsBlock(re, rest)
  }

  /** Whether it can come to a `break` out of loop `l`. */
  predicate Breaks(re: Resols, s: Stmt, l: nat) {
    match s
    case Loop(_, body) => BreaksBlock(re, body, l)
    case While(_, _, body) => BreaksBlock(re, body, l)
    case If(_, _, truthy, falsy) => BreaksBlock(re, truthy, l) || (falsy.Some? && BreaksBlock(re, falsy.value, l))
    case Break(id) => id in re.stmts && re.stmts[id] == ToLoop(l)
    case _ => false
  }

  predicate BreaksBlock(re: Resols, b: Block, l: nat) {
    match b
    case Nil => false
    case Cons(s, rest) => Breaks(re, s, l) || (Falls(re, s) && BreaksBlock(re, rest, l))
  }

  /** Every expression that the statement can get to is fine. */
  predicate FineReached(re: Resols, s: Stmt) {
    match s
    case Loop(_, body) => FineReachedBlock(re, body)
    case While(_, cond, body) => FineExpr(cond) && FineReachedBlock(re, body)
    case If(_, cond, truthy, falsy) =>
      FineExpr(cond) && FineReachedBlock(re, truthy) && (falsy.Some? ==> FineReachedBlock(re, falsy.value))
    case _ => FineStmt(s)
  }

  predicate FineReachedBlock(re: Resols, b: Block) {
    match b
    case Nil => true
    case Cons(s, rest) => FineReached(re, s) && (Falls(re, s) ==> FineReachedBlock(re, rest))
  }

  // ---------- Their blocks ----------

  /** The finished function: what can be reached of it is clear. */
  ghost predicate Clean(v: Env) {
    && Final(v) && ReachedClear(v.blocks, 0)
    && forall b :: 0 <= b < |v.blocks| ==> Level(v.blocks[b].stmts, 0).Some?
  }

  ghost predicate Comes(v: Env, b: nat) {
    Reached(v.blocks, 0, b)
  }

  ghost predicate Open(g: Gen) {
    g.cur < |g.blocks| && Level(g.blocks[g.cur].stmts, 0) == Some(0)
  }

  lemma Goes(v: Env, b: nat, t: nat)
    requires Final(v) && b < |v.blocks| && Comes(v, b) && t in Targets(v.blocks[b].ter)
    ensures Comes(v, t)
  {
    ReachedNext(v.blocks, 0, b, t);
  }

  /** A reached block that starts with the code of an expression after whole statements. */
  lemma {:induction false} ReachedFine(v: Env, b: nat, re: Resols, lets: map<nat, nat>, ss: seq<M.Stmt>, e: Expr,
                                       tail: seq<M.Stmt>)
    requires Clean(v) && b < |v.blocks| && Comes(v, b) && LowerableExpr(e) && Level(ss, 0) == Some(0)
    requires tail == [] || tail == [M.Pop] || (|tail| == 1 && tail[0].Store?)
    requires ss + Code(re, lets, e) + tail <= v.blocks[b].stmts
    ensures FineExpr(e)
  {
    var xs, all := ss + Code(re, lets, e) + tail, v.blocks[b].stmts;
    var more := all[|xs|..];
    assert all == xs + more;
    assert ClearCode(all) && Level(all, 0).Some?;
    hide Reached, FineExpr, Code;
    LevelConcat(xs, more, 0);
    ClearConcat(xs, more, []);
    AppendClear(re, lets, ss, e, tail);
  }

  lemma {:induction false} StillOpen(cx: Cx, g: Gen, e: Expr, s: M.Stmt)
    requires Open(g) && LowerableExpr(e) && (s == M.Pop || s.Store?)
    ensures var r := Emit(EmitExpr(cx, g, e), [s]);
      Open(r) && r.blocks[g.cur].stmts == g.blocks[g.cur].stmts + Code(cx.re, g.lets, e) + [s]
  {
    var ss, code := g.blocks[g.cur].stmts, Code(cx.re, g.lets, e);
    CodeClear(cx.re, g.lets, e, []);
    LevelConcat(ss, code, 0);
    LevelConcat(ss + code, [s], 0);
    assert [s][1..] == [];
  }

  /** What the finished function shows of a statement between `g` and `r` that is reached. */
  ghost predicate Shown(v: Env, g: Gen, r: Gen, s: Stmt, loops: set<nat>) {
    && FineReached(v.cx.re, s)
    && (Falls(v.cx.re, s) ==> Comes(v, r.cur) && Open(r))
    && forall l :: l in loops && Breaks(v.cx.re, s, l) ==> l in g.exits && Comes(v, g.exits[l])
  }

  ghost predicate BlockShown(v: Env, g: Gen, r: Gen, b: Block, loops: set<nat>) {
    && FineReachedBlock(v.cx.re, b)
    && (FallsBlock(v.cx.re, b) ==> Comes(v, r.cur) && Open(r))
    && forall l :: l in loops && BreaksBlock(v.cx.re, b, l) ==> l in g.exits && Comes(v, g.exits[l])
  }

  /** A reached place in the body, about to be lowered. */
  ghost predicate Here(v: Env, g: Gen, loops: set<nat>) {
    Clean(v) && Wf(v.cx.params, g) && ExitsIn(loops, g) && Open(g) && Comes(v, g.cur)
  }

  lemma {:induction false} ConsumeShown(v: Env, g: Gen, loops: set<nat>, e: Expr, s: M.Stmt)
    requires Here(v, g, loops) && LowerableExpr(e) && (s == M.Pop || s.Store?)
    requires Later(Emit(EmitExpr(v.cx, g, e), [s]).blocks, v.blocks)
    ensures FineExpr(e) && Open(Emit(EmitExpr(v.cx, g, e), [s])) && Emit(EmitExpr(v.cx, g, e), [s]).cur == g.cur
  {
    StillOpen(v.cx, g, e, s);
    hide Code, FineExpr, Level, Reached, ReachedClear;
    ReachedFine(v, g.cur, v.cx.re, g.lets, g.blocks[g.cur].stmts, e, [s]);
  }

  lemma {:induction false} LetShown(v: Env, g: Gen, s: Stmt, loops: set<nat>)
    requires s.Let? && Here(v, g, loops) && Scoped(v.cx, g.lets.Keys, loops, s) && Lowerable(v.cx, s)
    requires Built(v, Lower(v.cx, g, s))
    ensures Shown(v, g, Lower(v.cx, g, s), s, loops)
  {
    hide Code, FineExpr, Level, Comes, Clean, Emit, EmitExpr;
    NewLetGrows(v.cx.params, g, s.id);
    if s.init.Some? {
      ConsumeShown(v, NewLet(g, s.id), loops, s.init.value, M.Store(g.locals));
    }
  }

  lemma {:induction false} BreakShown(v: Env, g: Gen, s: Stmt, loops: set<nat>)
    requires s.Break? && Here(v, g, loops) && Scoped(v.cx, g.lets.Keys, loops, s) && Built(v, Lower(v.cx, g, s))
    ensures Shown(v, g, Lower(v.cx, g, s), s, loops)
  {
    hide Comes;
    var target := BreakTarget(v.cx, g, s.id);
    JumpBuilt(v, g, target);
    Goes(v, g.cur, target);
  }

  lemma {:induction false} ReturnShown(v: Env, g: Gen, s: Stmt, loops: set<nat>)
    requires s.Return? && Here(v, g, loops) && Lowerable(v.cx, s) && Built(v, Lower(v.cx, g, s))
    ensures Shown(v, g, Lower(v.cx, g, s), s, loops)
  {
    hide Code, FineExpr, Level, Comes, Clean;
    if s.value.Some? {
      EmitTwiceGrows(v.cx, g, s.value.value, M.Store(0));
      var g1 := Emit(EmitExpr(v.cx, g, s.value.value), [M.Store(0)]);
      assert Later(g1.blocks, Jump(g1, 1).blocks);
      LaterTrans(g1.blocks, Jump(g1, 1).blocks, v.blocks);
      ConsumeShown(v, g, loops, s.value.value, M.Store(0));
    }
  }

  lemma {:induction false} LoopShown(v: Env, g: Gen, s: Stmt, loops: set<nat>)
    requires s.Loop? && Here(v, g, loops) && Scoped(v.cx, g.lets.Keys, loops, s) && Lowerable(v.cx, s)
    requires Built(v, Lower(v.cx, g, s))
    ensures Shown(v, g, Lower(v.cx, g, s), s, loops)
    decreases s, 0
  {
    hide Comes, LowerBlock, FineReachedBlock, BreaksBlock, ReachedClear;
    var h, e := LoopIsBuilt(v, g, s, loops);
    Goes(v, g.cur, |g.blocks|);
    BlockComes(v, h, s.body, loops + {s.id});
  }

  /** The condition block of a `while` and what it leads to. */
  lemma {:induction false} TestComes(v: Env, b: nat, lets: map<nat, nat>, cond: Expr, top: nat)
    requires Clean(v) && b < |v.blocks| && Comes(v, b) && v.blocks[b].ter == M.Goto(top) && top + 2 < |v.blocks|
    requires LowerableExpr(cond) && v.blocks[top] == M.Block(top, Code(v.cx.re, lets, cond), M.If(top + 1, top + 2))
    ensures FineExpr(cond) && Comes(v, top + 1) && Comes(v, top + 2)
  {
    hide Comes, Code, FineExpr, Level, ReachedClear;
    Goes(v, b, top);
    Goes(v, top, top + 1);
    Goes(v, top, top + 2);
    var code := Code(v.cx.re, lets, cond);
    assert [] + code + [] == code;
    NothingClear([]);
    ReachedFine(v, top, v.cx.re, lets, [], cond, []);
  }

  lemma {:induction false} WhileShown(v: Env, g: Gen, s: Stmt, loops: set<nat>)
    requires s.While? && Here(v, g, loops) && Scoped(v.cx, g.lets.Keys, loops, s) && Lowerable(v.cx, s)
    requires Built(v, Lower(v.cx, g, s))
    ensures Shown(v, g, Lower(v.cx, g, s), s, loops)
    decreases s, 0
  {
    hide Comes, LowerBlock, FineReachedBlock, BreaksBlock, Clean, Code, FineExpr, ScopedExpr, Wf;
    var h, e := WhileIsBuilt(v, g, s, loops);
    var top := |g.blocks|;
    TestComes(v, g.cur, g.lets, s.cond, top);
    BlockComes(v, h, s.body, loops + {s.id});
  }

  lemma {:induction false} ThenShown(v: Env, g: Gen, s: Stmt, loops: set<nat>)
    requires s.If? && s.falsy.None?
    requires Here(v, g, loops) && Scoped(v.cx, g.lets.Keys, loops, s) && Lowerable(v.cx, s)
    requires Built(v, Lower(v.cx, g, s))
    ensures Shown(v, g, Lower(v.cx, g, s), s, loops)
    decreases s, 0
  {
    hide Comes, LowerBlock, FineReachedBlock, BreaksBlock, FallsBlock, ReachedClear, Code, FineExpr;
    var h, t, r := ThenIsBuilt(v, g, s, loops);
    Goes(v, g.cur, |g.blocks|);
    Goes(v, g.cur, r.cur);
    var ss, code := g.blocks[g.cur].stmts, Code(v.cx.re, g.lets, s.cond);
    assert ss + code + [] == ss + code;
    ReachedFine(v, g.cur, v.cx.re, g.lets, ss, s.cond, []);
    BlockComes(v, h, s.truthy, loops);
  }

  lemma {:induction false} ElseShown(v: Env, g: Gen, s: Stmt, loops: set<nat>)
    requires s.If? && s.falsy.Some?
    requires Here(v, g, loops) && Scoped(v.cx, g.lets.Keys, loops, s) && Lowerable(v.cx, s)
    requires Built(v, Lower(v.cx, g, s))
    ensures Shown(v, g, Lower(v.cx, g, s), s, loops)
    decreases s, 0
  {
    hide Comes, LowerBlock, FineReachedBlock, BreaksBlock, FallsBlock, ReachedClear, Code, FineExpr;
    var h, t, n, f, r := ElseIsBuilt(v, g, s, loops);
    Goes(v, g.cur, |g.blocks|);
    Goes(v, g.cur, |t.blocks|);
    var ss, code := g.blocks[g.cur].stmts, Code(v.cx.re, g.lets, s.cond);
    assert ss + code + [] == ss + code;
    ReachedFine(v, g.cur, v.cx.re, g.lets, ss, s.cond, []);
    BlockComes(v, h, s.truthy, loops);
    BlockComes(v, n, s.falsy.value, loops);
    if FallsBlock(v.cx.re, s.truthy) {
      Goes(v, t.cur, r.cur);
    } else if FallsBlock(v.cx.re, s.falsy.value) {
      Goes(v, f.cur, r.cur);
    }
  }

  /** A reached statement: what it gets to is reached, and what is lowered there is fine. */
  lemma {:induction false} StmtComes(v: Env, g: Gen, s: Stmt, loops: set<nat>)
    requires Here(v, g, loops) && Scoped(v.cx, g.lets.Keys, loops, s) && Lowerable(v.cx, s)
    requires Built(v, Lower(v.cx, g, s))
    ensures Shown(v, g, Lower(v.cx, g, s), s, loops)
    decreases s, 1
  {
    match s
    case Let(_, _, _) => LetShown(v, g, s, loops);
    case Loop(_, _) => LoopShown(v, g, s, loops);
    case While(_, _, _) => WhileShown(v, g, s, loops);
    case If(_, _, _, falsy) => if falsy.Some? { ElseShown(v, g, s, loops); } else { ThenShown(v, g, s, loops); }
    case Return(_, _) => ReturnShown(v, g, s, loops);
    case Break(_) => BreakShown(v, g, s, loops);
    case Assign(_, subject, e) => ConsumeShown(v, g, loops, e, M.Store(LocalOf(v.cx.re, g.lets, subject.id)));
    case ExprStmt(_, e) => ConsumeShown(v, g, loops, e, M.Pop);
  }

  lemma {:induction false} BlockComes(v: Env, g: Gen, b: Block, loops: set<nat>)
    requires Here(v, g, loops) && ScopedBlock(v.cx, g.lets.Keys, loops, b) && LowerableBlock(v.cx, b)
    requires Built(v, LowerBlock(v.cx, g, b))
    ensures BlockShown(v, g, LowerBlock(v.cx, g, b), b, loops)
    decreases b
  {
    hide Lower, Comes, Clean, Falls, Breaks, FineReached;
    match b
    case Nil =>
    case Cons(s, rest) =>
      var h := Lower(v.cx, g, s);
      ConsBuilt(v, g, s, rest, loops);
      StmtComes(v, g, s, loops);
      if Falls(v.cx.re, s) {
        BlockComes(v, h, rest, loops);
      }
  }

  // ---------- Whole bodies ----------

  /** Where the simplified blocks of a body are clear, every expression it can get to is fine. */
  lemma {:induction false} FnReached(cx: Cx, body: Block)
    requires Accepted(cx, body)
    ensures var fn := P.OptimizeFn(LowerFn(cx, body));
      WellFormed(fn) && (ClearFrom(fn.blocks, 0) ==> FineReachedBlock(cx.re, body))
  {
    hide FineReachedBlock, ReachedClear, LowerBlock, Comes;
    var fn := LowerFn(cx, body);
    MirGenBalance.LowerFnWellFormed(cx, body);
    P.OptimizeSound(fn);
    ClearCodes(P.OptimizeFn(fn).blocks);
    if ClearFrom(P.OptimizeFn(fn).blocks, 0) {
      OptimizeReached(fn);
      var v := EnvOf(cx, body);
      FinishIsBuilt(cx, body);
      StartComes(v);
      assert Start(cx.params).lets.Keys == {};
      BlockComes(v, Start(cx.params), body, {});
    }
  }

  lemma StartComes(v: Env)
    ensures Comes(v, 0) && Open(Start(v.cx.params))
  {}

  /** Nothing stands after a statement that cannot come to its end. */
  predicate Uncut(re: Resols, s: Stmt) {
    match s
    case Loop(_, body) => UncutBlock(re, body)
    case While(_, _, body) => UncutBlock(re, body)
    case If(_, _, truthy, falsy) => UncutBlock(re, truthy) && (falsy.Some? ==> UncutBlock(re, falsy.value))
    case _ => true
  }

  predicate UncutBlock(re: Resols, b: Block) {
    match b
    case Nil => true
    case Cons(s, rest) => Uncut(re, s) && (Falls(re, s) || rest == Nil) && UncutBlock(re, rest)
  }

  lemma {:induction false} UncutFine(re: Resols, s: Stmt)
    requires Uncut(re, s)
    ensures FineReached(re, s) <==> FineStmt(s)
    decreases s
  {
    match s
    case Loop(_, body) => UncutBlockFine(re, body);
    case While(_, _, body) => UncutBlockFine(re, body);
    case If(_, _, truthy, falsy) =>
      UncutBlockFine(re, truthy);
      if falsy.Some? { UncutBlockFine(re, falsy.value); }
    case _ =>
  }

  lemma {:induction false} UncutBlockFine(re: Resols, b: Block)
    requires UncutBlock(re, b)
    ensures FineReachedBlock(re, b) <==> FineBlock(b)
    decreases b
  {
    match b
    case Nil =>
    case Cons(s, rest) =>
      UncutFine(re, s);
      UncutBlockFine(re, rest);
  }

  // ---------- A loop that is cut off ----------

  /** `return 0;` and, after it, `while 1 { e; }`. */
  function CutLoop(e: Expr): Block {
    Cons(Return(0, Some(Expr.Int(0, 0))), Cons(While(1, Expr.Int(1, 1), Cons(ExprStmt(2, e), Nil)), Nil))
  }

  const ZERO: seq<M.Stmt> := [M.Push(M.IntVal(0)), M.Store(0)]
  const ONE: seq<M.Stmt> := [M.Push(M.IntVal(1))]

  /** Block 2 is where the loop is entered from; nothing goes there. */
  function CutBlocks(ss: seq<M.Stmt>): seq<M.Block> {
    [M.Block(0, ZERO, M.Goto(1)), M.Block(1, [], M.Return), M.Block(2, [], M.Goto(3)),
     M.Block(3, ONE, M.If(4, 5)), M.Block(4, ss, M.Goto(3)), M.Block(5, [], M.Goto(1))]
  }

  /** After the return: the entry is closed, and block 2 is open. */
  function AfterReturn(params: nat): Gen {
    Gen([M.Block(0, ZERO, M.Goto(1)), M.Block(1, [], M.Unset), M.Block(2, [], M.Unset)], 2, params + 1, map[], map[])
  }

  lemma {:induction false} ReturnLowered(cx: Cx)
    ensures Lower(cx, Start(cx.params), Return(0, Some(Expr.Int(0, 0)))) == AfterReturn(cx.params)
  {
    assert [] + [M.Push(M.IntVal(0))] + [M.Store(0)] == ZERO;
    var r := Lower(cx, Start(cx.params), Return(0, Some(Expr.Int(0, 0))));
    assert r.blocks == AfterReturn(cx.params).blocks;
  }

  lemma {:induction false} CutLowered(cx: Cx, e: Expr)
    ensures LowerFn(cx, CutLoop(e)) == M.Fn(cx.params, cx.params + 1, CutBlocks(Code(cx.re, map[], e) + [M.Pop]), 0, 1)
  {
    hide Lower, Code, ZERO, ONE;
    var code := Code(cx.re, map[], e);
    var g0, g1, l := Start(cx.params), AfterReturn(cx.params), CutLoop(e).tail.head;
    ReturnLowered(cx);
    var r := LoopLowered(cx, e);
    assert LowerBlock(cx, g0, CutLoop(e)) == LowerBlock(cx, g1, CutLoop(e).tail) == LowerBlock(cx, r, Nil) == r;
  }

  lemma {:induction false} LoopLowered(cx: Cx, e: Expr) returns (r: Gen)
    ensures r == Lower(cx, AfterReturn(cx.params), CutLoop(e).tail.head)
    ensures r.cur == 5 && r.locals == cx.params + 1
    ensures r.blocks == CutBlocks(Code(cx.re, map[], e) +
                                  [M.Pop])[1 := M.Block(1, [], M.Unset)][5 := M.Block(5, [], M.Unset)]
  {
    var code := Code(cx.re, map[], e);
    var g1, l, b := AfterReturn(cx.params), CutLoop(e).tail.head, ExprStmt(2, e);
    assert Code(cx.re, map[], Expr.Int(1, 1)) == ONE && [] + ONE == ONE && [] + code + [M.Pop] == code + [M.Pop];
    var h := WhileHead(cx, g1, 1, l.cond);
    assert h.blocks == [M.Block(0, ZERO, M.Goto(1)), M.Block(1, [], M.Unset), M.Block(2, [], M.Goto(3)),
                        M.Block(3, ONE, M.If(4, 5)), M.Block(4, [], M.Unset), M.Block(5, [], M.Unset)];
    var k := Lower(cx, h, b);
    assert k.blocks == h.blocks[4 := M.Block(4, code + [M.Pop], M.Unset)] && k.cur == 4;
    assert LowerBlock(cx, h, l.body) == k;
    r := Lower(cx, g1, l);
    assert r.blocks == k.blocks[4 := M.Block(4, code + [M.Pop], M.Goto(3))];
  }

  /** What is left: the loop is one block that goes to itself, so something always goes there. */
  function LeftBlocks(ss: seq<M.Stmt>): seq<M.Block> {
    [M.Block(0, ZERO, M.Goto(1)), M.Block(1, [], M.Return), M.Block(4, ss + ONE, M.If(4, 5)), M.Block(5, [], M.Goto(1))]
  }

  lemma PredsCons(b: M.Block, rest: seq<M.Block>, id: nat)
    ensures O.Predecessors([b] + rest, id) == (if id in O.Successors(b) then [b] else []) + O.Predecessors(rest, id)
  {
    assert ([b] + rest)[1..] == rest;
  }

  lemma WithoutCons(b: M.Block, rest: seq<M.Block>, removed: set<nat>)
    ensures O.Without([b] + rest, removed) == (if b.id in removed then [] else [b]) + O.Without(rest, removed)
  {
    assert ([b] + rest)[1..] == rest;
  }

  /** A block, if it goes to `id`. */
  function Goer(b: M.Block, id: nat): seq<M.Block> {
    if id in O.Successors(b) then [b] else []
  }

  lemma {:induction false} FourPreds(a: M.Block, b: M.Block, c: M.Block, d: M.Block, id: nat)
    ensures O.Predecessors([a, b, c, d], id) == Goer(a, id) + (Goer(b, id) + (Goer(c, id) + Goer(d, id)))
  {
    hide O.Successors;
    PredsCons(a, [b, c, d], id);
    PredsCons(b, [c, d], id);
    PredsCons(c, [d], id);
    PredsCons(d, [], id);
    assert [a] + [b, c, d] == [a, b, c, d] && [b] + [c, d] == [b, c, d] && [c] + [d] == [c, d] && [d] + [] == [d];
    assert Goer(d, id) + [] == Goer(d, id);
  }

  lemma {:induction false} FivePreds(a: M.Block, b: M.Block, c: M.Block, d: M.Block, e: M.Block, id: nat)
    ensures O.Predecessors([a, b, c, d, e], id) ==
            Goer(a, id) + (Goer(b, id) + (Goer(c, id) + (Goer(d, id) + Goer(e, id))))
  {
    hide O.Successors, O.Predecessors;
    PredsCons(a, [b, c, d, e], id);
    FourPreds(b, c, d, e, id);
    assert [a] + [b, c, d, e] == [a, b, c, d, e];
  }

  lemma {:induction false} SixPreds(a: M.Block, b: M.Block, c: M.Block, d: M.Block, e: M.Block, f: M.Block, id: nat)
    ensures O.Predecessors([a, b, c, d, e, f], id) ==
            Goer(a, id) + (Goer(b, id) + (Goer(c, id) + (Goer(d, id) + (Goer(e, id) + Goer(f, id)))))
  {
    hide O.Successors, O.Predecessors;
    PredsCons(a, [b, c, d, e, f], id);
    FivePreds(b, c, d, e, f, id);
    assert [a] + [b, c, d, e, f] == [a, b, c, d, e, f];
  }

  lemma {:induction false} WithoutOne(front: seq<M.Block>, b: M.Block, back: seq<M.Block>)
    requires (forall x :: x in front ==> x.id != b.id) && (forall x :: x in back ==> x.id != b.id)
    ensures O.Without(front + [b] + back, {b.id}) == front + back
    decreases |front|
  {
    if front == [] {
      assert front + [b] + back == [b] + back && front + back == back;
      WithoutCons(b, back, {b.id});
      WithoutNone(back, b.id);
    } else {
      assert front + [b] + back == [front[0]] + (front[1..] + [b] + back);
      WithoutCons(front[0], front[1..] + [b] + back, {b.id});
      WithoutOne(front[1..], b, back);
      assert front + back == [front[0]] + (front[1..] + back);
    }
  }

  lemma {:induction false} WithoutNone(bs: seq<M.Block>, id: nat)
    requires forall x :: x in bs ==> x.id != id
    ensures O.Without(bs, {id}) == bs
    decreases |bs|
  {
    if bs != [] {
      WithoutCons(bs[0], bs[1..], {id});
      assert [bs[0]] + bs[1..] == bs;
      WithoutNone(bs[1..], id);
    }
  }

  /** First the block that enters the loop goes, since nothing goes there. */
  lemma {:induction false} EntryDropped(ss: seq<M.Stmt>)
    ensures var bs := CutBlocks(ss); O.EliminateUnreachable(bs, 0) == [bs[0], bs[1], bs[3], bs[4], bs[5]]
  {
    hide O.Without, O.Predecessors, ZERO, ONE;
    var bs := CutBlocks(ss);
    var front, back := [bs[0], bs[1]], [bs[3], bs[4], bs[5]];
    EntryAlone(ss);
    assert bs == front + [bs[2]] + back;
    WithoutOne(front, bs[2], back);
    assert front + back == [bs[0], bs[1], bs[3], bs[4], bs[5]];
  }

  lemma {:induction false} OnlyEntry(ss: seq<M.Stmt>, id: nat)
    requires 1 <= id <= 5
    ensures O.Predecessors(CutBlocks(ss), id) == [] <==> id == 2
  {
    hide O.Predecessors, ZERO, ONE;
    var bs := CutBlocks(ss);
    SixPreds(bs[0], bs[1], bs[2], bs[3], bs[4], bs[5], id);
  }

  lemma {:induction false} EntryAlone(ss: seq<M.Stmt>)
    ensures O.Unreached(CutBlocks(ss), CutBlocks(ss), 0) == {2}
  {
    hide O.Predecessors, ZERO, ONE;
    var bs := CutBlocks(ss);
    OnlyEntry(ss, 1);
    OnlyEntry(ss, 2);
    OnlyEntry(ss, 3);
    OnlyEntry(ss, 4);
    OnlyEntry(ss, 5);
    assert bs[2] in bs;
  }

  /** Then the end of the loop takes in its start. */
  lemma {:induction false} LoopJoined(ss: seq<M.Stmt>)
    ensures var bs := CutBlocks(ss);
      O.JoinSequential([bs[0], bs[1], bs[3], bs[4], bs[5]], 1) == (LeftBlocks(ss), 1)
  {
    hide O.Without, O.Predecessors, ZERO, ONE;
    var bs := CutBlocks(ss);
    var a, b, d, e, f := bs[0], bs[1], bs[3], bs[4], bs[5];
    var g := M.Block(4, ss + ONE, M.If(4, 5));
    var cs, ds := [a, b, d, e, f], [a, b, d, g, f];
    FivePreds(a, b, d, e, f, 1);
    FivePreds(a, b, d, e, f, 3);
    FivePreds(a, b, d, g, f, 1);
    var p, q := O.Joining(cs, {}, 1), O.Joining(ds, {3}, 1);
    assert cs[2].id == 3 && M.Find(cs, 3) == 2;
    assert O.JoinAt(p, 0) == p && O.JoinAt(p, 1) == p && O.JoinAt(p, 2) == p && O.JoinAt(p, 3) == q &&
           O.JoinAt(q, 4) == q;
    assert O.JoinFrom(q, 5) == q;
    assert O.JoinFrom(q, 4) == q;
    assert O.JoinFrom(p, 3) == q;
    assert O.JoinFrom(p, 1) == q;
    assert ds == [a, b] + [d] + [g, f];
    WithoutOne([a, b], d, [g, f]);
    assert [a, b] + [g, f] == LeftBlocks(ss);
  }

  /** And nothing more is to be done. */
  lemma {:induction false} LoopStays(ss: seq<M.Stmt>)
    ensures P.Round(LeftBlocks(ss), 0, 1) == (LeftBlocks(ss), 1)
  {
    hide O.Without, O.Predecessors, ZERO, ONE;
    var bs := LeftBlocks(ss);
    var a, b, g, f := bs[0], bs[1], bs[2], bs[3];
    forall id | id in {1, 4, 5} ensures |O.Predecessors(bs, id)| == if id == 1 then 2 else 1 {
      FourPreds(a, b, g, f, id);
    }
    assert O.Unreached(bs, bs, 0) == {};
    NothingOut(bs);
    var p := O.Joining(bs, {}, 1);
    assert O.JoinAt(p, 0) == p && O.JoinAt(p, 1) == p && O.JoinAt(p, 2) == p && O.JoinAt(p, 3) == p;
    assert O.JoinFrom(p, 0) == O.JoinFrom(p, 2) == O.JoinFrom(p, 4) == p;
  }

  lemma {:induction false} NothingOut(bs: seq<M.Block>)
    ensures O.Without(bs, {}) == bs
    decreases |bs|
  {
    if bs != [] {
      NothingOut(bs[1..]);
      assert [bs[0]] + bs[1..] == bs;
    }
  }

  /** The body can get to no expression but two constants.  Its function keeps live registers apart all the
    * same only if `e` is fine: what is cut off counts where it goes round in a loop. */
  lemma {:induction false} CutLoopCounts(cx: Cx, e: Expr)
    requires LowerableExpr(e)
    ensures FineReachedBlock(cx.re, CutLoop(e))
    ensures var fn := P.OptimizeFn(LowerFn(cx, CutLoop(e)));
      (forall i :: 0 <= i < |fn.blocks| ==> Balanced(fn.blocks[i])) && (ClearFrom(fn.blocks, 0) <==> FineExpr(e))
  {
    hide P.Round, LowerFn, CutBlocks, LeftBlocks, Code;
    var code := Code(cx.re, map[], e);
    var ss := code + [M.Pop];
    CutLowered(cx, e);
    FirstRound(ss);
    LoopStays(ss);
    assert P.OptimizeMir(LeftBlocks(ss), 0, 1) == (LeftBlocks(ss), 1);
    LeftClear(cx, e);
    assert !Falls(cx.re, CutLoop(e).head) && FineReached(cx.re, CutLoop(e).head);
  }

  lemma {:induction false} FirstRound(ss: seq<M.Stmt>)
    ensures P.Round(CutBlocks(ss), 0, 1) == (LeftBlocks(ss), 1)
  {
    EntryDropped(ss);
    LoopJoined(ss);
  }

  lemma {:induction false} LoopCodeClear(cx: Cx, e: Expr)
    requires LowerableExpr(e)
    ensures var ss := Code(cx.re, map[], e) + [M.Pop];
      Level(ss + ONE, 0) == Some(1) && (ClearCode(ss + ONE) <==> FineExpr(e))
  {
    hide Clear, FineExpr, KindsAfter;
    var code := Code(cx.re, map[], e);
    var ss := code + [M.Pop];
    CodeClear(cx.re, map[], e, []);
    CodeClear(cx.re, map[], Expr.Int(1, 1), []);
    assert Code(cx.re, map[], Expr.Int(1, 1)) == ONE;
    assert [M.Pop][1..] == [];
    LevelConcat(code, [M.Pop], 0);
    LevelConcat(ss, ONE, 0);
    assert [] + code + [M.Pop] == ss && ss + ONE + [] == ss + ONE;
    ConstantsClear();
    IntFine();
    AppendClear(cx.re, map[], [], e, [M.Pop]);
    AppendClear(cx.re, map[], ss, Expr.Int(1, 1), []);
  }

  lemma IntFine()
    ensures FineExpr(Expr.Int(1, 1))
  {}

  lemma {:induction false} LeftClear(cx: Cx, e: Expr)
    requires LowerableExpr(e)
    ensures var bs := LeftBlocks(Code(cx.re, map[], e) + [M.Pop]);
      (forall i :: 0 <= i < |bs| ==> Balanced(bs[i])) && (ClearFrom(bs, 0) <==> FineExpr(e))
  {
    hide Level, Code, FineExpr, ClearFrom, ZERO, ONE;
    var ss := Code(cx.re, map[], e) + [M.Pop];
    LoopCodeClear(cx, e);
    ConstantsClear();
    NothingClear([]);
    var bs := LeftBlocks(ss);
    assert Balanced(bs[0]) && Balanced(bs[1]) && Balanced(bs[2]) && Balanced(bs[3]);
    ClearCodes(bs);
    assert ClearCode(bs[0].stmts) && ClearCode(bs[1].stmts) && ClearCode(bs[3].stmts);
  }

  lemma ConstantsClear()
    ensures ClearCode([]) && ClearCode(ZERO) && Level(ZERO, 0) == Some(0)
  {
    assert ZERO[1..] == [M.Store(0)] && [M.Store(0)][1..] == [];
    ClearOne(ZERO[0], []);
    ClearOne(M.Store(0), [Loaded]);
    assert ZERO == [ZERO[0]] + [M.Store(0)];
    ClearConcat([ZERO[0]], [M.Store(0)], []);
  }
}
