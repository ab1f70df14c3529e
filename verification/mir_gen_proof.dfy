/** Lowering preserves meaning: running the blocks does what the body does.
  *
  * `G` is any list of blocks that the generator's final state can grow into, so each lemma
  * about a part of the body holds inside the finished function. */
module MirGenProof {
  import opened Values
  import opened Ast
  import opened AstSemantics
  import M = Mir
  import opened MirGen
  import opened MirGenShape

  /** A place in the code: a block and how many of its statements have run. */
  datatype Pos = Pos(block: nat, at: nat)

  /** The function being run, with the calls it makes. */
  datatype Env = Env(cx: Cx, lets: map<nat, nat>, blocks: seq<M.Block>)

  ghost predicate In(v: Env, p: Pos) {
    p.block < |v.blocks| && p.at <= |v.blocks[p.block].stmts|
  }

  ghost function At(v: Env, p: Pos, st: M.State, call: Callee, fuel: nat): Outcome
    requires In(v, p)
  {
    M.Continue(v.cx.params, v.blocks, M.RunBlock(v.cx.params, v.blocks[p.block], p.at, st, call), call, fuel)
  }

  ghost function EndOf(g: Gen): Pos
    requires g.cur < |g.blocks|
  {
    Pos(g.cur, |g.blocks[g.cur].stmts|)
  }

  /** The locals hold what the store holds. */
  ghost predicate Rel(v: Env, store: Store, locals: map<nat, Value>) {
    && Get(locals, 0) == Get(store, RetSlot)
    && (forall i: nat :: i < v.cx.params ==> Get(locals, i + 1) == Get(store, ParamSlot(i)))
    && (forall l :: l in v.lets ==> Get(locals, v.lets[l]) == Get(store, LetSlot(l)))
  }

  /** From `p` the run comes to `q`, `k` transfers later. */
  ghost predicate Shift(v: Env, call: Callee, p: Pos, st: M.State, q: Pos, st1: M.State, k: nat)
    requires In(v, p) && In(v, q)
  {
    forall n: nat :: At(v, p, st, call, n + k) == At(v, q, st1, call, n)
  }

  /** From `p` the run stops within the block. */
  ghost predicate Halts(v: Env, call: Callee, p: Pos, st: M.State, r: Reply)
    requires In(v, p)
  {
    forall n: nat :: At(v, p, st, call, n) == Halt(r)
  }

  ghost predicate Arrives(v: Env, call: Callee, p: Pos, st: M.State, q: Pos, st1: M.State, store: Store, w: World,
                          k: nat)
    requires In(v, p)
  {
    In(v, q) && st1.stack == [] && st1.w == w && Rel(v, store, st1.locals) && Shift(v, call, p, st, q, st1, k)
  }

  /** The run from `p` ends the way the statement does: past the statement at `q`, at the exit
    * of the loop it breaks, at the return block, in the same failure, or not within `fuel`. */
  ghost predicate Sound(v: Env, call: Callee, p: Pos, q: Pos, exits: map<nat, nat>, st: M.State, out: Exit,
                        fuel: nat, k: nat, st1: M.State)
    requires In(v, p)
  {
    match out
    case Normal(store, w) => Arrives(v, call, p, st, q, st1, store, w, k)
    case Broke(l, store, w) => l in exits && Arrives(v, call, p, st, Pos(exits[l], 0), st1, store, w, k)
    case Left(store, w) => Arrives(v, call, p, st, Pos(1, 0), st1, store, w, k)
    case Failed(r) => At(v, p, st, call, k) == Halt(r)
    case OutOfFuel => At(v, p, st, call, fuel) == Timeout
  }

  // ---------- Moving through blocks ----------

  lemma AtMore(v: Env, p: Pos, st: M.State, call: Callee, m: nat, n: nat)
    requires In(v, p) && m <= n && At(v, p, st, call, m).Halt?
    ensures At(v, p, st, call, n) == At(v, p, st, call, m)
  {
    var next := M.RunBlock(v.cx.params, v.blocks[p.block], p.at, st, call);
    if next.To? {
      M.RunMore(v.cx.params, v.blocks, next.target, next.st, call, m - 1, n - 1);
    }
  }

  lemma ShiftTrans(v: Env, call: Callee, p: Pos, st: M.State, q: Pos, st1: M.State, r: Pos, st2: M.State, j: nat,
                   k: nat)
    requires In(v, p) && In(v, q) && In(v, r)
    requires Shift(v, call, p, st, q, st1, j) && Shift(v, call, q, st1, r, st2, k)
    ensures Shift(v, call, p, st, r, st2, k + j)
  {
    forall n: nat ensures At(v, p, st, call, n + (k + j)) == At(v, r, st2, call, n) {
      assert At(v, p, st, call, (n + k) + j) == At(v, q, st1, call, n + k) == At(v, r, st2, call, n);
      assert n + (k + j) == (n + k) + j;
    }
  }

  /** What is sound from `q` is sound from any place that leads to `q`. */
  lemma Compose(v: Env, call: Callee, p: Pos, st: M.State, q: Pos, st1: M.State, to: Pos, exits: map<nat, nat>,
                out: Exit, m: nat, fuel: nat, j: nat, k: nat, st2: M.State)
    requires In(v, p) && In(v, q) && Shift(v, call, p, st, q, st1, j)
    requires Sound(v, call, q, to, exits, st1, out, m, k, st2)
    requires fuel <= m + j
    ensures Sound(v, call, p, to, exits, st, out, fuel, k + j, st2)
  {
    match out
    case Normal(_, _) => ShiftTrans(v, call, p, st, q, st1, to, st2, j, k);
    case Broke(l, _, _) => ShiftTrans(v, call, p, st, q, st1, Pos(exits[l], 0), st2, j, k);
    case Left(_, _) => ShiftTrans(v, call, p, st, q, st1, Pos(1, 0), st2, j, k);
    case Failed(_) =>
    case OutOfFuel =>
      assert At(v, p, st, call, m + j) == At(v, q, st1, call, m);
      if At(v, p, st, call, fuel).Halt? {
        AtMore(v, p, st, call, fuel, m + j);
      }
  }

  /** Statements inside a block run one after the other. */
  lemma Fragment(v: Env, call: Callee, b: nat, before: seq<M.Stmt>, code: seq<M.Stmt>, st: M.State)
    requires b < |v.blocks| && before + code <= v.blocks[b].stmts
    ensures In(v, Pos(b, |before|)) && In(v, Pos(b, |before + code|))
    ensures var r := M.ExecStmts(code, st, call);
      && (r.Stop? ==> Halts(v, call, Pos(b, |before|), st, r.reply))
      && (r.Ok? ==> Shift(v, call, Pos(b, |before|), st, Pos(b, |before + code|), r.st, 0))
  {
    var ss := v.blocks[b].stmts;
    var rest := ss[|before + code|..];
    assert ss[|before|..] == code + rest;
    M.ExecConcat(code, rest, st, call);
  }

  lemma RunIsAt(v: Env, b: nat, st: M.State, call: Callee, fuel: nat)
    requires OwnIds(v.blocks) && b < |v.blocks|
    ensures M.Run(v.cx.params, v.blocks, b, st, call, fuel) == At(v, Pos(b, 0), st, call, fuel)
  {
    assert v.blocks[b].id == b;
  }

  lemma GotoShift(v: Env, call: Callee, b: nat, st: M.State, target: nat)
    requires OwnIds(v.blocks) && b < |v.blocks| && target < |v.blocks| && v.blocks[b].ter == M.Goto(target)
    ensures Shift(v, call, Pos(b, |v.blocks[b].stmts|), st, Pos(target, 0), st, 1)
    ensures At(v, Pos(b, |v.blocks[b].stmts|), st, call, 0) == Timeout
  {
    forall n: nat
      ensures At(v, Pos(b, |v.blocks[b].stmts|), st, call, n + 1) == At(v, Pos(target, 0), st, call, n)
    {
      RunIsAt(v, target, st, call, n);
    }
  }

  /** Two ends of blocks that jump to the same place do the same. */
  lemma SameGoto(v: Env, call: Callee, b: nat, c: nat, st: M.State, target: nat)
    requires b < |v.blocks| && c < |v.blocks|
    requires v.blocks[b].ter == M.Goto(target) && v.blocks[c].ter == M.Goto(target)
    ensures Shift(v, call, Pos(b, |v.blocks[b].stmts|), st, Pos(c, |v.blocks[c].stmts|), st, 0)
  {}

  lemma IfShift(v: Env, call: Callee, b: nat, st: M.State, t: Value, yes: nat, no: nat)
    requires OwnIds(v.blocks) && b < |v.blocks| && yes < |v.blocks| && no < |v.blocks|
    requires v.blocks[b].ter == M.If(yes, no) && st.stack == []
    ensures var st0 := st.(stack := [t]); var p := Pos(b, |v.blocks[b].stmts|);
      && (Test(t).None? ==> Halts(v, call, p, st0, Trapped))
      && (Test(t).Some? ==> Shift(v, call, p, st0, Pos(if Test(t).value then yes else no, 0), st, 1))
  {
    var st0 := st.(stack := [t]);
    var p := Pos(b, |v.blocks[b].stmts|);
    assert v.blocks[b].stmts[p.at..] == [];
    assert st0.(stack := st0.stack[..0]) == st;
    if Test(t).Some? {
      var target := if Test(t).value then yes else no;
      forall n: nat ensures At(v, p, st0, call, n + 1) == At(v, Pos(target, 0), st, call, n) {
        RunIsAt(v, target, st, call, n);
      }
    }
  }

  // ---------- Expressions ----------

  lemma One(s: M.Stmt, st: M.State, call: Callee)
    ensures M.ExecStmts([s], st, call) == M.ExecStmt(s, st, call)
  {
    assert [s][1..] == [];
  }

  lemma Three(a: seq<M.Stmt>, c: seq<M.Stmt>, k: M.Stmt, st: M.State, call: Callee)
    ensures M.ExecStmts(a + c + [k], st, call) ==
            match M.ExecStmts(a, st, call)
            case Stop(r) => M.Stop(r)
            case Ok(st1) =>
              match M.ExecStmts(c, st1, call)
              case Stop(r) => M.Stop(r)
              case Ok(st2) => M.ExecStmt(k, st2, call)
  {
    M.ExecConcat(a + c, [k], st, call);
    M.ExecConcat(a, c, st, call);
    match M.ExecStmts(a, st, call)
    case Stop(_) =>
    case Ok(st1) =>
      match M.ExecStmts(c, st1, call)
      case Stop(_) =>
      case Ok(st2) => One(k, st2, call);
  }

  lemma CallStep(locals: map<nat, Value>, stack: seq<Value>, args: seq<Value>, f: Value, w: World, call: Callee)
    ensures M.ExecStmt(M.CallFn(|args|), M.State(locals, stack + args + [f], w), call) ==
            var reply := Invoke(call, f, args, w);
            if reply.Returned? then M.Ok(M.State(locals, stack + [reply.v], reply.w)) else M.Stop(reply)
  {
    var s := stack + args + [f];
    assert s[|s| - 1 - |args|..|s| - 1] == args;
    assert s[..|s| - 1 - |args|] == stack;
  }

  lemma BinaryStep(locals: map<nat, Value>, stack: seq<Value>, op: BinOp, l: Value, r: Value, w: World, call: Callee)
    ensures M.ExecStmt(M.Binary(op), M.State(locals, stack + [l] + [r], w), call) ==
            match Apply(op, l, r)
            case None => M.Stop(Trapped)
            case Some(x) => M.Ok(M.State(locals, stack + [x], w))
  {
    var s := stack + [l] + [r];
    assert s[..|s| - 2] == stack;
  }

  /** The code of an expression pushes its value, or stops as its evaluation does. */
  lemma {:induction false} CodeCorrect(v: Env, lets: map<nat, nat>, e: Expr, store: Store, st: M.State, call: Callee)
    requires ScopedExpr(v.cx, lets.Keys, e) && LowerableExpr(e)
    requires Extends(lets, v.lets) && Rel(v, store, st.locals)
    ensures M.ExecStmts(Code(v.cx.re, lets, e), st, call) ==
            match Eval(v.cx.re, e, store, st.w, call)
            case Fail(r) => M.Stop(r)
            case Val(x, w) => M.Ok(M.State(st.locals, st.stack + [x], w))
    decreases e, 1
  {
    match e
    case Ident(id, _) => One(IdentCode(v.cx.re, lets, id), st, call);
    case Int(_, n) => One(M.Push(M.IntVal(n)), st, call);
    case Str(_, s) => One(M.Push(M.StrVal(s)), st, call);
    case Call(_, _, _) => CallCorrect(v, lets, e, store, st, call);
    case Binary(_, _, _, _) => BinaryCorrect(v, lets, e, store, st, call);
  }

  lemma {:induction false} CallCorrect(v: Env, lets: map<nat, nat>, e: Expr, store: Store, st: M.State, call: Callee)
    requires e.Call? && ScopedExpr(v.cx, lets.Keys, e) && LowerableExpr(e)
    requires Extends(lets, v.lets) && Rel(v, store, st.locals)
    ensures M.ExecStmts(Code(v.cx.re, lets, e), st, call) ==
            match Eval(v.cx.re, e, store, st.w, call)
            case Fail(r) => M.Stop(r)
            case Val(x, w) => M.Ok(M.State(st.locals, st.stack + [x], w))
    decreases e, 0
  {
    var re := v.cx.re;
    Three(ArgsCode(re, lets, e.args), Code(re, lets, e.callee), M.CallFn(Length(e.args)), st, call);
    ArgsCorrect(v, lets, e.args, store, st, call);
    var ra := EvalArgs(re, e.args, store, st.w, call);
    if ra.Vals? {
      CodeCorrect(v, lets, e.callee, store, M.State(st.locals, st.stack + ra.vs, ra.w), call);
      var rc := Eval(re, e.callee, store, ra.w, call);
      if rc.Val? {
        CallStep(st.locals, st.stack, ra.vs, rc.v, rc.w, call);
      }
    }
  }

  lemma {:induction false} BinaryCorrect(v: Env, lets: map<nat, nat>, e: Expr, store: Store, st: M.State, call: Callee)
    requires e.Binary? && ScopedExpr(v.cx, lets.Keys, e) && LowerableExpr(e)
    requires Extends(lets, v.lets) && Rel(v, store, st.locals)
    ensures M.ExecStmts(Code(v.cx.re, lets, e), st, call) ==
            match Eval(v.cx.re, e, store, st.w, call)
            case Fail(r) => M.Stop(r)
            case Val(x, w) => M.Ok(M.State(st.locals, st.stack + [x], w))
    decreases e, 0
  {
    var re := v.cx.re;
    Three(Code(re, lets, e.left), Code(re, lets, e.right), M.Binary(e.op.op), st, call);
    CodeCorrect(v, lets, e.left, store, st, call);
    var ra := Eval(re, e.left, store, st.w, call);
    if ra.Val? {
      CodeCorrect(v, lets, e.right, store, M.State(st.locals, st.stack + [ra.v], ra.w), call);
      var rc := Eval(re, e.right, store, ra.w, call);
      if rc.Val? {
        BinaryStep(st.locals, st.stack, e.op.op, ra.v, rc.v, rc.w, call);
      }
    }
  }

  lemma {:induction false} ArgsCorrect(v: Env, lets: map<nat, nat>, es: List<Expr>, store: Store, st: M.State,
                                       call: Callee)
    requires ScopedArgs(v.cx, lets.Keys, es) && LowerableArgs(es)
    requires Extends(lets, v.lets) && Rel(v, store, st.locals)
    ensures var r := EvalArgs(v.cx.re, es, store, st.w, call);
      && (r.Vals? ==> |r.vs| == Length(es))
      && M.ExecStmts(ArgsCode(v.cx.re, lets, es), st, call) ==
         match r
         case ArgsFail(r) => M.Stop(r)
         case Vals(xs, w) => M.Ok(M.State(st.locals, st.stack + xs, w))
    decreases es, 1
  {
    hide Eval, Code, Rel, Extends, ScopedExpr, LowerableExpr, M.ExecStmt;
    match es
    case Nil =>
      assert st.stack + [] == st.stack;
    case Cons(e, rest) =>
      CodeCorrect(v, lets, e, store, st, call);
      M.ExecConcat(Code(v.cx.re, lets, e), ArgsCode(v.cx.re, lets, rest), st, call);
      var r := Eval(v.cx.re, e, store, st.w, call);
      if r.Val? {
        var st1 := M.State(st.locals, st.stack + [r.v], r.w);
        ArgsCorrect(v, lets, rest, store, st1, call);
        var rr := EvalArgs(v.cx.re, rest, store, r.w, call);
        if rr.Vals? {
          assert st.stack + ([r.v] + rr.vs) == (st.stack + [r.v]) + rr.vs;
        }
      }
  }
}
