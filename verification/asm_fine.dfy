/** Which expressions make two registers share, read off the source, and what lowering and the
  * simplification of the graph make of them. */
module AsmFine {
  import opened Values
  import opened Ast
  import M = Mir
  import opened MirShape
  import opened MirGen
  import opened MirGenShape
  import opened MirGenBalance
  import O = MirOptimize
  import P = MirOptimizeProof
  import opened AsmCrowded
  import LirEntries

  /** How an expression's value comes to its register. */
  function KindOf(e: Expr): Kind {
    match e
    case Ident(_, _) => Loaded
    case Int(_, _) => Loaded
    case Str(_, _) => Loaded
    case Binary(_, _, _, right) => Result(KindOf(right))
    case _ => Other
  }

  /** No operation in the expression keeps an operand in the second machine register while the other is
    * fetched: such an operand is an operation whose own right operand is more than a name or a constant. */
  predicate FineExpr(e: Expr) {
    match e
    case Call(_, callee, args) => FineArgs(args) && FineExpr(callee)
    case Binary(_, _, left, right) => FineExpr(left) && FineExpr(right) && !Clash(KindOf(left), KindOf(right))
    case _ => true
  }

  predicate FineArgs(es: List<Expr>) {
    match es
    case Nil => true
    case Cons(e, rest) => FineExpr(e) && FineArgs(rest)
  }

  function KindsOf(es: List<Expr>): (ks: seq<Kind>)
    ensures |ks| == Length(es)
  {
    match es
    case Nil => []
    case Cons(e, rest) => [KindOf(e)] + KindsOf(rest)
  }

  // ---------- The code of an expression ----------

  function KindsAfter(ss: seq<M.Stmt>, ks: seq<Kind>): (r: seq<Kind>)
    requires Level(ss, |ks|).Some?
    ensures |r| == Level(ss, |ks|).value
    decreases |ss|
  {
    if ss == [] then ks else
    LirEntries.LevelHead(ss, |ks|);
    KindsAfter(ss[1..], StepKinds(ss[0], ks))
  }

  lemma {:induction false} ClearConcat(xs: seq<M.Stmt>, ys: seq<M.Stmt>, ks: seq<Kind>)
    requires Level(xs, |ks|).Some? && Level(ys, Level(xs, |ks|).value).Some?
    ensures Level(xs + ys, |ks|) == Level(ys, Level(xs, |ks|).value)
    ensures Clear(xs + ys, ks) <==> Clear(xs, ks) && Clear(ys, KindsAfter(xs, ks))
    ensures KindsAfter(xs + ys, ks) == KindsAfter(ys, KindsAfter(xs, ks))
    decreases |xs|
  {
    LevelConcat(xs, ys, |ks|);
    if xs == [] {
      assert xs + ys == ys;
    } else {
      hide ClearStep, StepKinds;
      assert (xs + ys)[0] == xs[0] && (xs + ys)[1..] == xs[1..] + ys;
      LirEntries.LevelHead(xs, |ks|);
      ClearConcat(xs[1..], ys, StepKinds(xs[0], ks));
    }
  }

  lemma ClearOne(s: M.Stmt, ks: seq<Kind>)
    requires Level([s], |ks|).Some?
    ensures KindsAfter([s], ks) == StepKinds(s, ks) && (Clear([s], ks) <==> ClearStep(s, ks))
  {
    hide ClearStep, StepKinds;
    LirEntries.LevelHead([s], |ks|);
    assert [s][1..] == [];
  }

  lemma {:induction false} LeafClear(re: Resols, lets: map<nat, nat>, e: Expr, ks: seq<Kind>)
    requires e.Ident? || e.Int? || e.Str?
    ensures Level(Code(re, lets, e), |ks|) == Some(|ks| + 1)
    ensures KindsAfter(Code(re, lets, e), ks) == ks + [KindOf(e)] && Clear(Code(re, lets, e), ks)
  {
    var s := Code(re, lets, e)[0];
    assert Code(re, lets, e) == [s];
    assert [s][1..] == [];
    ClearOne(s, ks);
  }

  /** The code of an expression is clear exactly when the expression is fine. */
  lemma {:induction false} CodeClear(re: Resols, lets: map<nat, nat>, e: Expr, ks: seq<Kind>)
    requires LowerableExpr(e)
    ensures Level(Code(re, lets, e), |ks|) == Some(|ks| + 1)
    ensures KindsAfter(Code(re, lets, e), ks) == ks + [KindOf(e)]
    ensures Clear(Code(re, lets, e), ks) <==> FineExpr(e)
    decreases e
  {
    hide Clear, KindsAfter, Level, Clash, Result;
    match e
    case Call(_, callee, args) =>
      ArgsClear(re, lets, args, ks);
      CodeClear(re, lets, callee, ks + KindsOf(args));
      CallClear(ArgsCode(re, lets, args), Code(re, lets, callee), Length(args), ks, KindsOf(args), KindOf(callee));
    case Binary(_, op, left, right) =>
      CodeClear(re, lets, left, ks);
      CodeClear(re, lets, right, ks + [KindOf(left)]);
      BinaryClear(Code(re, lets, left), Code(re, lets, right), op.op, ks, KindOf(left), KindOf(right));
    case _ => LeafClear(re, lets, e, ks);
  }

  lemma {:induction false} CallClear(a: seq<M.Stmt>, f: seq<M.Stmt>, n: nat, ks: seq<Kind>, more: seq<Kind>, k: Kind)
    requires |more| == n && Level(a, |ks|) == Some(|ks| + n) && KindsAfter(a, ks) == ks + more
    requires Level(f, |ks| + n) == Some(|ks| + n + 1) && KindsAfter(f, ks + more) == ks + more + [k]
    ensures var all := a + f + [M.CallFn(n)];
      && Level(all, |ks|) == Some(|ks| + 1) && KindsAfter(all, ks) == ks + [Other]
      && (Clear(all, ks) <==> Clear(a, ks) && Clear(f, ks + more))
  {
    hide Clear, KindsAfter;
    var kall := ks + more + [k];
    var s := M.CallFn(n);
    assert [s][1..] == [];
    assert Level([s], |kall|) == Some(|ks| + 1);
    ClearOne(s, kall);
    ClearConcat(a, f, ks);
    ClearConcat(a + f, [s], ks);
    assert kall[..|kall| - 1 - n] == ks;
  }

  lemma {:induction false} BinaryClear(a: seq<M.Stmt>, b: seq<M.Stmt>, op: BinOp, ks: seq<Kind>, ka: Kind, kb: Kind)
    requires Level(a, |ks|) == Some(|ks| + 1) && KindsAfter(a, ks) == ks + [ka]
    requires Level(b, |ks| + 1) == Some(|ks| + 2) && KindsAfter(b, ks + [ka]) == ks + [ka] + [kb]
    ensures var all := a + b + [M.Binary(op)];
      && Level(all, |ks|) == Some(|ks| + 1) && KindsAfter(all, ks) == ks + [Result(kb)]
      && (Clear(all, ks) <==> Clear(a, ks) && Clear(b, ks + [ka]) && !Clash(ka, kb))
  {
    hide Clear, KindsAfter, Clash, Result;
    var kall := ks + [ka] + [kb];
    var s := M.Binary(op);
    assert [s][1..] == [];
    assert Level([s], |kall|) == Some(|ks| + 1);
    ClearOne(s, kall);
    ClearConcat(a, b, ks);
    ClearConcat(a + b, [s], ks);
    assert kall[..|kall| - 2] == ks;
  }

  lemma NothingClear(ks: seq<Kind>)
    ensures Level([], |ks|) == Some(|ks|) && KindsAfter([], ks) == ks == ks + [] && Clear([], ks)
  {}

  lemma {:induction false} ArgsClear(re: Resols, lets: map<nat, nat>, es: List<Expr>, ks: seq<Kind>)
    requires LowerableArgs(es)
    ensures Level(ArgsCode(re, lets, es), |ks|) == Some(|ks| + Length(es))
    ensures KindsAfter(ArgsCode(re, lets, es), ks) == ks + KindsOf(es)
    ensures Clear(ArgsCode(re, lets, es), ks) <==> FineArgs(es)
    decreases es
  {
    hide Clear, KindsAfter, Level;
    match es
    case Nil => NothingClear(ks);
    case Cons(e, rest) =>
      CodeClear(re, lets, e, ks);
      ArgsClear(re, lets, rest, ks + [KindOf(e)]);
      ClearConcat(Code(re, lets, e), ArgsCode(re, lets, rest), ks);
      assert ks + [KindOf(e)] + KindsOf(rest) == ks + ([KindOf(e)] + KindsOf(rest));
  }

  // ---------- The code of a body ----------

  predicate FineStmt(s: Stmt) {
    match s
    case Let(_, _, init) => init.Some? ==> FineExpr(init.value)
    case Loop(_, body) => FineBlock(body)
    case While(_, cond, body) => FineExpr(cond) && FineBlock(body)
    case If(_, cond, truthy, falsy) => FineExpr(cond) && FineBlock(truthy) && (falsy.Some? ==> FineBlock(falsy.value))
    case Return(_, e) => e.Some? ==> FineExpr(e.value)
    case Break(_) => true
    case Assign(_, _, e) => FineExpr(e)
    case ExprStmt(_, e) => FineExpr(e)
  }

  predicate FineBlock(b: Block) {
    match b
    case Nil => true
    case Cons(s, rest) => FineStmt(s) && FineBlock(rest)
  }

  predicate ClearCode(ss: seq<M.Stmt>) {
    Level(ss, 0).Some? ==> Clear(ss, [])
  }

  ghost predicate AllClear(g: Gen) {
    forall b :: 0 <= b < |g.blocks| ==> ClearCode(g.blocks[b].stmts)
  }

  /** Closing blocks and starting new ones makes no difference. */
  lemma SameClear(g: Gen, r: Gen)
    requires |g.blocks| <= |r.blocks|
    requires forall b :: 0 <= b < |g.blocks| ==> r.blocks[b].stmts == g.blocks[b].stmts
    requires forall b :: |g.blocks| <= b < |r.blocks| ==> r.blocks[b].stmts == []
    ensures AllClear(r) <==> AllClear(g)
  {
    assert ClearCode([]);
    hide ClearCode;
    if AllClear(r) {
      forall b | 0 <= b < |g.blocks| ensures ClearCode(g.blocks[b].stmts) {
        assert ClearCode(r.blocks[b].stmts);
      }
    }
  }

  /** Code for an expression behind the code of whole statements. */
  lemma {:induction false} AppendClear(re: Resols, lets: map<nat, nat>, ss: seq<M.Stmt>, e: Expr, tail: seq<M.Stmt>)
    requires LowerableExpr(e) && Level(ss, 0) == Some(0)
    requires tail == [] || tail == [M.Pop] || (|tail| == 1 && tail[0].Store?)
    ensures ClearCode(ss + Code(re, lets, e) + tail) <==> ClearCode(ss) && FineExpr(e)
  {
    var code := Code(re, lets, e);
    CodeClear(re, lets, e, []);
    TailClear(tail, KindOf(e));
    assert KindsAfter(ss, []) == [];
    hide Clear, KindsAfter, Level;
    ClearConcat(ss, code, []);
    assert [] + [KindOf(e)] == [KindOf(e)];
    ClearConcat(ss + code, tail, []);
  }

  lemma TailClear(tail: seq<M.Stmt>, k: Kind)
    requires tail == [] || tail == [M.Pop] || (|tail| == 1 && tail[0].Store?)
    ensures Level(tail, 1).Some? && Clear(tail, [k])
  {
    if tail != [] {
      assert tail == [tail[0]] && tail[1..] == [];
      ClearOne(tail[0], [k]);
    }
  }

  /** The current block gets the code of an expression. */
  lemma {:induction false} OneMoreClear(cx: Cx, g: Gen, r: Gen, e: Expr, tail: seq<M.Stmt>)
    requires g.cur < |g.blocks| && LowerableExpr(e) && Level(g.blocks[g.cur].stmts, 0) == Some(0)
    requires tail == [] || tail == [M.Pop] || (|tail| == 1 && tail[0].Store?)
    requires |g.blocks| <= |r.blocks| && r.blocks[g.cur].stmts == g.blocks[g.cur].stmts + Code(cx.re, g.lets, e) + tail
    requires forall b :: 0 <= b < |g.blocks| && b != g.cur ==> r.blocks[b].stmts == g.blocks[b].stmts
    requires forall b :: |g.blocks| <= b < |r.blocks| ==> r.blocks[b].stmts == []
    ensures AllClear(r) <==> AllClear(g) && FineExpr(e)
  {
    AppendClear(cx.re, g.lets, g.blocks[g.cur].stmts, e, tail);
    assert ClearCode([]);
    hide ClearCode, Code, FineExpr, Level;
    if AllClear(r) {
      assert ClearCode(r.blocks[g.cur].stmts);
      forall b | 0 <= b < |g.blocks| ensures ClearCode(g.blocks[b].stmts) {
        assert ClearCode(r.blocks[b].stmts);
      }
    }
  }

  lemma CurrentOpen(params: nat, g: Gen, pending: set<nat>)
    requires Wf(params, g) && AllGood(g, pending)
    ensures Level(g.blocks[g.cur].stmts, 0) == Some(0)
  {
    assert Good(g.blocks[g.cur], |g.blocks|, g.locals);
  }

  lemma {:induction false} ConsumeClear(cx: Cx, g: Gen, e: Expr, s: M.Stmt, pending: set<nat>)
    requires Wf(cx.params, g) && AllGood(g, pending) && LowerableExpr(e) && (s == M.Pop || s.Store?)
    ensures AllClear(Emit(EmitExpr(cx, g, e), [s])) <==> AllClear(g) && FineExpr(e)
  {
    CurrentOpen(cx.params, g, pending);
    hide AllClear, Wf, AllGood, Level, Code, FineExpr;
    OneMoreClear(cx, g, Emit(EmitExpr(cx, g, e), [s]), e, [s]);
  }

  lemma {:induction false} IfHeadClear(cx: Cx, g: Gen, cond: Expr, pending: set<nat>)
    requires Wf(cx.params, g) && AllGood(g, pending) && LowerableExpr(cond)
    ensures AllClear(IfHead(cx, g, cond)) <==> AllClear(g) && FineExpr(cond)
  {
    CurrentOpen(cx.params, g, pending);
    hide AllClear, AllGood, Level, Code, FineExpr;
    var code := Code(cx.re, g.lets, cond);
    assert g.blocks[g.cur].stmts + code + [] == g.blocks[g.cur].stmts + code;
    OneMoreClear(cx, g, IfHead(cx, g, cond), cond, []);
  }

  lemma {:induction false} WhileHeadClear(cx: Cx, g: Gen, id: nat, cond: Expr)
    requires Wf(cx.params, g) && LowerableExpr(cond)
    ensures AllClear(WhileHead(cx, g, id, cond)) <==> AllClear(g) && FineExpr(cond)
  {
    var g1 := NewBlock(g).(cur := |g.blocks|);
    SameClear(g, g1);
    assert Level([], 0) == Some(0);
    WhileHeadGrows(cx, g, id, cond);
    hide AllClear, Level, Code, FineExpr;
    var code := Code(cx.re, g.lets, cond);
    assert [] + code + [] == code;
    OneMoreClear(cx, g1, WhileHead(cx, g, id, cond), cond, []);
  }

  // ---------- All blocks that lowering makes ----------

  /** The blocks lowering makes are clear exactly when every expression it lowers is fine. */
  lemma {:induction false} LowerClear(cx: Cx, g: Gen, s: Stmt, loops: set<nat>, pending: set<nat>)
    requires Wf(cx.params, g) && Scoped(cx, g.lets.Keys, loops, s) && Lowerable(cx, s)
    requires AllGood(g, pending) && GoodExits(loops, g)
    ensures AllClear(Lower(cx, g, s)) <==> AllClear(g) && FineStmt(s)
    decreases s, 1
  {
    hide AllClear;
    match s
    case Let(id, _, init) =>
      NewLetGrows(cx.params, g, id);
      var g1 := NewLet(g, id);
      StillGood(g, g1, pending, {});
      SameClear(g, g1);
      if init.Some? {
        ConsumeClear(cx, g1, init.value, M.Store(g.locals), pending);
      }
    case Loop(_, _) => LoopClear(cx, g, s, loops, pending);
    case While(_, _, _) => WhileClear(cx, g, s, loops, pending);
    case If(_, _, _, falsy) =>
      if falsy.Some? { ElseClear(cx, g, s, loops, pending); } else { ThenClear(cx, g, s, loops, pending); }
    case Return(_, e) =>
      if e.Some? {
        ConsumeClear(cx, g, e.value, M.Store(0), pending);
        var g1 := Emit(EmitExpr(cx, g, e.value), [M.Store(0)]);
        SameClear(g1, Jump(g1, 1));
      } else {
        SameClear(g, Jump(g, 1));
      }
    case Break(id) => SameClear(g, Jump(g, BreakTarget(cx, g, id)));
    case Assign(_, subject, e) => ConsumeClear(cx, g, e, M.Store(LocalOf(cx.re, g.lets, subject.id)), pending);
    case ExprStmt(_, e) => ConsumeClear(cx, g, e, M.Pop, pending);
  }

  lemma TailSame(g: Gen, top: nat, exit: nat)
    requires g.cur < |g.blocks|
    ensures AllClear(LoopTail(g, top, exit)) <==> AllClear(g)
  {
    hide AllClear;
    SameClear(g, LoopTail(g, top, exit));
  }

  lemma JoinSame(g: Gen, entry: nat, yes: nat, yesEnd: nat, no: nat)
    requires entry < |g.blocks| && yesEnd < |g.blocks| && g.cur < |g.blocks|
    ensures AllClear(IfElseTail(g, entry, yes, yesEnd, no)) <==> AllClear(g)
  {
    hide AllClear;
    SameClear(g, IfElseTail(g, entry, yes, yesEnd, no));
  }

  lemma FreshSame(g: Gen)
    ensures AllClear(Fresh(g)) <==> AllClear(g)
  {
    hide AllClear;
    SameClear(g, Fresh(g));
  }

  lemma {:induction false} LoopClear(cx: Cx, g: Gen, s: Stmt, loops: set<nat>, pending: set<nat>)
    requires s.Loop? && Wf(cx.params, g) && Scoped(cx, g.lets.Keys, loops, s) && Lowerable(cx, s)
    requires AllGood(g, pending) && GoodExits(loops, g)
    ensures AllClear(Lower(cx, g, s)) <==> AllClear(g) && FineStmt(s)
    decreases s, 0
  {
    hide AllClear, AllGood, LoopHead, LowerBlock, Grew;
    var h := LoopHead(g, s.id);
    LoopHeadGrows(cx.params, g, s.id);
    LoopHeadGood(cx.params, g, s.id, pending);
    SameClear(g, h);
    LowerBlockClear(cx, h, s.body, loops + {s.id}, pending);
    TailSame(LowerBlock(cx, h, s.body), |g.blocks|, |g.blocks| + 1);
  }

  lemma {:induction false} WhileClear(cx: Cx, g: Gen, s: Stmt, loops: set<nat>, pending: set<nat>)
    requires s.While? && Wf(cx.params, g) && Scoped(cx, g.lets.Keys, loops, s) && Lowerable(cx, s)
    requires AllGood(g, pending) && GoodExits(loops, g)
    ensures AllClear(Lower(cx, g, s)) <==> AllClear(g) && FineStmt(s)
    decreases s, 0
  {
    hide AllClear, AllGood, FineExpr, Code, WhileHead, LowerBlock, Grew;
    var h := WhileHead(cx, g, s.id, s.cond);
    WhileHeadGrows(cx, g, s.id, s.cond);
    WhileHeadGood(cx, g, h, s.id, s.cond, pending);
    WhileHeadClear(cx, g, s.id, s.cond);
    LowerBlockClear(cx, h, s.body, loops + {s.id}, pending);
    TailSame(LowerBlock(cx, h, s.body), |g.blocks|, |g.blocks| + 2);
  }

  lemma {:induction false} ThenClear(cx: Cx, g: Gen, s: Stmt, loops: set<nat>, pending: set<nat>)
    requires s.If? && s.falsy.None? && Wf(cx.params, g) && Scoped(cx, g.lets.Keys, loops, s) && Lowerable(cx, s)
    requires AllGood(g, pending) && GoodExits(loops, g)
    ensures AllClear(Lower(cx, g, s)) <==> AllClear(g) && FineStmt(s)
    decreases s, 0
  {
    hide AllClear, AllGood, FineExpr, Code, LowerBlock, Grew;
    var h := IfHead(cx, g, s.cond);
    IfHeadGrows(cx, g, s.cond);
    IfHeadGood(cx, g, s.cond, pending);
    IfHeadClear(cx, g, s.cond, pending);
    LowerBlockClear(cx, h, s.truthy, loops, pending + {g.cur});
    LowerBlockGrows(cx, h, s.truthy, loops);
    var t := LowerBlock(cx, h, s.truthy);
    SameClear(t, IfTail(t, g.cur, |g.blocks|));
  }

  lemma {:induction false} ElseClear(cx: Cx, g: Gen, s: Stmt, loops: set<nat>, pending: set<nat>)
    requires s.If? && s.falsy.Some? && Wf(cx.params, g) && Scoped(cx, g.lets.Keys, loops, s) && Lowerable(cx, s)
    requires AllGood(g, pending) && GoodExits(loops, g)
    ensures AllClear(Lower(cx, g, s)) <==> AllClear(g) && FineStmt(s)
    decreases s, 0
  {
    hide AllClear, AllGood, FineExpr;
    var h, t, f := Branches(cx, g, s, loops);
    IfHeadGood(cx, g, s.cond, pending);
    IfHeadClear(cx, g, s.cond, pending);
    LowerBlockGood(cx, h, s.truthy, loops, pending + {g.cur});
    LowerBlockClear(cx, h, s.truthy, loops, pending + {g.cur});
    FreshGood(cx.params, t, pending + {g.cur});
    FreshSame(t);
    LowerBlockClear(cx, Fresh(t), s.falsy.value, loops, pending + {g.cur});
    JoinSame(f, g.cur, |g.blocks|, t.cur, |t.blocks|);
  }

  lemma {:induction false} LowerBlockClear(cx: Cx, g: Gen, b: Block, loops: set<nat>, pending: set<nat>)
    requires Wf(cx.params, g) && ScopedBlock(cx, g.lets.Keys, loops, b) && LowerableBlock(cx, b)
    requires AllGood(g, pending) && GoodExits(loops, g)
    ensures AllClear(LowerBlock(cx, g, b)) <==> AllClear(g) && FineBlock(b)
    decreases b
  {
    hide AllClear;
    match b
    case Nil =>
    case Cons(s, rest) =>
      LowerClear(cx, g, s, loops, pending);
      LowerGood(cx, g, s, loops, pending);
      LowerGrows(cx, g, s, loops);
      LowerBlockClear(cx, Lower(cx, g, s), rest, loops, pending);
  }

  lemma {:induction false} LowerFnClear(cx: Cx, body: Block)
    requires ScopedBlock(cx, {}, {}, body) && LowerableBlock(cx, body)
    ensures WellFormed(LowerFn(cx, body))
    ensures ClearFrom(LowerFn(cx, body).blocks, 0) <==> FineBlock(body)
  {
    hide AllClear, LowerBlock;
    var g0 := Start(cx.params);
    assert g0.lets.Keys == {};
    LowerFnWellFormed(cx, body);
    StartClear(cx.params);
    LowerBlockGrows(cx, g0, body, {});
    hide AllClear, LowerBlock, FineBlock, AllGood;
    LowerBlockClear(cx, g0, body, {}, {});
    FinishClear(LowerBlock(cx, g0, body), Finish(cx, body));
  }

  lemma StartClear(params: nat)
    ensures AllClear(Start(params))
  {
    assert ClearCode([]);
  }

  lemma FinishClear(g: Gen, r: Gen)
    requires 1 < |g.blocks| == |r.blocks|
    requires (forall b :: 0 <= b < |g.blocks| ==> r.blocks[b].stmts == g.blocks[b].stmts)
    requires forall b :: 0 <= b < |r.blocks| ==> Balanced(r.blocks[b])
    ensures ClearFrom(r.blocks, 0) <==> AllClear(g)
  {
    SameClear(g, r);
    hide Clear, Level;
    assert forall b :: 0 <= b < |r.blocks| ==> (ClearBlock(r.blocks[b]) <==> ClearCode(r.blocks[b].stmts));
  }

  // ---------- The blocks that simplification leaves ----------

  predicate CodesClear(bs: seq<M.Block>) {
    forall i :: 0 <= i < |bs| ==> ClearCode(bs[i].stmts)
  }

  lemma WithoutClear(bs: seq<M.Block>, removed: set<nat>)
    requires CodesClear(bs)
    ensures CodesClear(O.Without(bs, removed))
  {
    var cs := O.Without(bs, removed);
    P.WithoutMembers(bs, removed);
    hide ClearCode;
    forall i | 0 <= i < |cs| ensures ClearCode(cs[i].stmts) {
      assert cs[i] in cs;
      var k :| 0 <= k < |bs| && bs[k] == cs[i];
    }
  }

  /** A block that goes on in another one ends with an empty stack. */
  lemma {:induction false} AbsorbClear(bs: seq<M.Block>, i: nat, j: nat)
    requires i < |bs| && j < |bs| && CodesClear(bs) && Balanced(bs[i]) && Balanced(bs[j]) && bs[i].ter.Goto?
    ensures CodesClear(O.Absorb(bs, i, j))
  {
    var xs, ys := bs[i].stmts, bs[j].stmts;
    assert ClearCode(xs) && ClearCode(ys);
    assert KindsAfter(xs, []) == [];
    ClearConcat(xs, ys, []);
    assert ClearCode(xs + ys);
    hide ClearCode;
  }

  lemma {:induction false} JoinClear(fn: M.Fn, p: O.Joining, i: nat)
    requires WellFormed(fn.(blocks := p.bs)) && P.JoinInv(p, fn.entry) && i <= |p.bs| && CodesClear(p.bs)
    ensures CodesClear(O.JoinFrom(p, i).bs)
    decreases |p.bs| - i
  {
    hide CodesClear, P.JoinInv;
    if i < |p.bs| {
      var a := O.Absorbed(p.bs, i);
      P.JoinAtInv(p, i, fn.entry);
      if a.Some? {
        P.AbsorbWellFormed(fn.(blocks := p.bs), i, a.value);
        AbsorbClear(p.bs, i, a.value);
      }
      JoinClear(fn, O.JoinAt(p, i), i + 1);
    }
  }

  lemma JoinStart(bs: seq<M.Block>, fn: M.Fn)
    requires WellFormed(fn.(blocks := bs))
    ensures P.JoinInv(O.Joining(bs, {}, fn.exit), fn.entry)
  {}

  lemma {:induction false} RoundClear(fn: M.Fn)
    requires WellFormed(fn) && CodesClear(fn.blocks)
    ensures CodesClear(P.Round(fn.blocks, fn.entry, fn.exit).0)
  {
    hide CodesClear, WellFormed, P.JoinInv;
    var removed := O.Unreached(fn.blocks, fn.blocks, fn.entry);
    P.UnreachedSevered(fn);
    var cs := O.EliminateUnreachable(fn.blocks, fn.entry);
    P.WithoutWellFormed(fn, removed);
    WithoutClear(fn.blocks, removed);
    JoinStart(cs, fn);
    var p := O.Joining(cs, {}, fn.exit);
    JoinClear(fn, p, 0);
    var q := O.JoinFrom(p, 0);
    WithoutClear(q.bs, q.removed);
  }

  /** Simplifying the graph leaves clear code clear. */
  lemma {:induction false} OptimizeClear(fn: M.Fn)
    requires WellFormed(fn) && CodesClear(fn.blocks)
    ensures CodesClear(P.OptimizeFn(fn).blocks)
    decreases |fn.blocks|
  {
    hide CodesClear, P.Round, Balanced, LocalsBelow, DistinctIds;
    P.RoundSound(fn);
    P.RoundShrinks(fn.blocks, fn.entry, fn.exit);
    RoundClear(fn);
    var r := P.Round(fn.blocks, fn.entry, fn.exit);
    if |r.0| != |fn.blocks| {
      OptimizeClear(fn.(blocks := r.0, exit := r.1));
    }
  }

  lemma ClearCodes(bs: seq<M.Block>)
    requires forall i :: 0 <= i < |bs| ==> Balanced(bs[i])
    ensures ClearFrom(bs, 0) <==> CodesClear(bs)
  {
    hide Clear, Level;
    assert forall i :: 0 <= i < |bs| ==> (ClearBlock(bs[i]) <==> ClearCode(bs[i].stmts));
  }

  /** A function all of whose expressions are fine is left with clear blocks. */
  lemma {:induction false} FineFn(cx: Cx, body: Block)
    requires ScopedBlock(cx, {}, {}, body) && LowerableBlock(cx, body) && FineBlock(body)
    ensures var fn := P.OptimizeFn(LowerFn(cx, body)); WellFormed(fn) && ClearFrom(fn.blocks, 0)
  {
    var fn := LowerFn(cx, body);
    LowerFnClear(cx, body);
    P.OptimizeSound(fn);
    ClearCodes(fn.blocks);
    OptimizeClear(fn);
    ClearCodes(P.OptimizeFn(fn).blocks);
  }

  // ---------- A single return ----------

  function ReturnCode(cx: Cx, e: Expr): seq<M.Stmt> {
    Code(cx.re, map[], e) + [M.Store(0)]
  }

  lemma {:induction false} LoweredReturn(cx: Cx, id: nat, e: Expr)
    ensures LowerFn(cx, Cons(Return(id, Some(e)), Nil)) ==
            M.Fn(cx.params, cx.params + 1,
                 [M.Block(0, ReturnCode(cx, e), M.Goto(1)), M.Block(1, [], M.Return), M.Block(2, [], M.Goto(1))], 0, 1)
  {
    var code := Code(cx.re, map[], e);
    assert [] + code == code;
    hide Code;
    var s := Return(id, Some(e));
    assert Cons(s, Nil).head == s && Cons(s, Nil).tail == Nil;
    var g := Lower(cx, Start(cx.params), s);
    assert LowerBlock(cx, g, Nil) == g;
    assert g.blocks == [M.Block(0, ReturnCode(cx, e), M.Goto(1)), M.Block(1, [], M.Unset), M.Block(2, [], M.Unset)];
    assert g.cur == 2;
  }

  lemma {:induction false} JoinedReturn(ss: seq<M.Stmt>)
    ensures var bs := [M.Block(0, ss, M.Goto(1)), M.Block(1, [], M.Return), M.Block(2, [], M.Goto(1))];
      P.Round(bs, 0, 1) == ([M.Block(0, ss, M.Return)], 0)
  {
    var a, b, c := M.Block(0, ss, M.Goto(1)), M.Block(1, [], M.Return), M.Block(2, [], M.Goto(1));
    var bs := [a, b, c];
    assert bs[1..] == [b, c] && [b, c][1..] == [c] && [c][1..] == [];
    assert O.Successors(a) == [1] && O.Successors(b) == [] && O.Successors(c) == [1];
    assert O.Predecessors([], 1) == [] && O.Predecessors([], 2) == [];
    assert O.Predecessors([c], 1) == [c] && O.Predecessors([c], 2) == [];
    assert O.Predecessors([b, c], 1) == [c] && O.Predecessors([b, c], 2) == [];
    assert O.Predecessors(bs, 1) == [a, c] && O.Predecessors(bs, 2) == [];
    assert b in bs && c in bs && a in bs;
    assert O.Unreached(bs, bs, 0) == {2};
    assert O.Without([], {2}) == [] && O.Without([c], {2}) == [];
    assert O.Without([b, c], {2}) == [b] + O.Without([c], {2});
    assert O.Without(bs, {2}) == [a] + O.Without([b, c], {2});
    assert O.Without(bs, {2}) == [a, b];
    PairJoined(ss);
  }

  lemma {:induction false} PairJoined(ss: seq<M.Stmt>)
    ensures O.JoinSequential([M.Block(0, ss, M.Goto(1)), M.Block(1, [], M.Return)], 1) ==
      ([M.Block(0, ss, M.Return)], 0)
  {
    var a, b, d := M.Block(0, ss, M.Goto(1)), M.Block(1, [], M.Return), M.Block(0, ss, M.Return);
    var cs := [a, b];
    assert cs[1..] == [b] && [b][1..] == [];
    assert O.Successors(a) == [1] && O.Successors(b) == [];
    assert O.Predecessors([], 1) == [] && O.Predecessors([b], 1) == [];
    assert O.Predecessors(cs, 1) == [a];
    assert M.Find(cs, 1) == 1;
    assert ss + [] == ss;
    var p := O.Joining(cs, {}, 1);
    var q := O.Joining([d, b], {1}, 0);
    assert O.JoinAt(p, 0) == q;
    assert O.JoinAt(q, 1) == q;
    assert O.JoinFrom(q, 2) == q && O.JoinFrom(q, 1) == q;
    assert [d, b][1..] == [b];
    assert O.Without([b], {1}) == [];
    assert O.Without([d, b], {1}) == [d];
  }

  lemma {:induction false} AloneReturn(ss: seq<M.Stmt>)
    ensures P.Round([M.Block(0, ss, M.Return)], 0, 0) == ([M.Block(0, ss, M.Return)], 0)
  {
    var d := M.Block(0, ss, M.Return);
    var bs := [d];
    assert bs[1..] == [] && O.Unreached(bs, bs, 0) == {};
    assert O.Without(bs, {}) == bs;
    var p := O.Joining(bs, {}, 0);
    assert O.JoinAt(p, 0) == p && O.JoinFrom(p, 1) == p;
  }

  /** The function that returns one expression is a single block. */
  lemma {:induction false} ReturnFn(cx: Cx, id: nat, e: Expr)
    ensures P.OptimizeFn(LowerFn(cx, Cons(Return(id, Some(e)), Nil))) ==
            M.Fn(cx.params, cx.params + 1, [M.Block(0, ReturnCode(cx, e), M.Return)], 0, 0)
  {
    hide P.Round, ReturnCode, LowerFn;
    LoweredReturn(cx, id, e);
    JoinedReturn(ReturnCode(cx, e));
    AloneReturn(ReturnCode(cx, e));
    var one := [M.Block(0, ReturnCode(cx, e), M.Return)];
    assert P.OptimizeMir(one, 0, 0) == (one, 0);
  }
}
