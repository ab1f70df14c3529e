/** Lowering preserves meaning, statement by statement and for a whole body.
  *
  * One lemma for each part of a statement: entering it, its branches or iterations, and leaving it.
  * Each says where in the blocks the run is and with which store and world, for a part that ends
  * normally, breaks, returns or stops. */
module MirGenStmts {
  import opened Values
  import opened Ast
  import opened AstSemantics
  import M = Mir
  import opened MirGen
  import opened MirGenShape
  import opened MirGenProof

  ghost predicate Final(v: Env) {
    && 2 <= |v.blocks| && OwnIds(v.blocks)
    && (forall l :: l in v.lets ==> v.cx.params < v.lets[l])
    && (forall l, m :: l in v.lets && m in v.lets && l != m ==> v.lets[l] != v.lets[m])
  }

  ghost predicate ExitsIn(loops: set<nat>, g: Gen) {
    forall l :: l in loops ==> l in g.exits && g.exits[l] < |g.blocks|
  }

  /** Before a statement: the generator at `g`, the machine at `st`, the store `store`. */
  ghost predicate Ready(v: Env, g: Gen, loops: set<nat>, store: Store, st: M.State) {
    && Final(v) && Wf(v.cx.params, g) && ExitsIn(loops, g)
    && st.stack == [] && Rel(v, store, st.locals)
  }

  /** The finished function contains what has been generated so far. */
  ghost predicate Built(v: Env, r: Gen) {
    Later(r.blocks, v.blocks) && Extends(r.lets, v.lets)
  }

  ghost predicate StmtOk(v: Env, call: Callee, g: Gen, r: Gen, loops: set<nat>, st: M.State, out: Exit, fuel: nat,
                         k: nat, st1: M.State)
    requires g.cur < |g.blocks| && r.cur < |r.blocks|
  {
    && (out.Broke? ==> out.loop in loops)
    && In(v, EndOf(g))
    && Sound(v, call, EndOf(g), EndOf(r), g.exits, st, out, fuel, k, st1)
  }

  // ---------- Straight-line statements ----------

  /** The local that holds a slot. */
  ghost predicate Holds(v: Env, slot: Slot, local: nat) {
    match slot
    case RetSlot => local == 0
    case ParamSlot(i) => i < v.cx.params && local == i + 1
    case LetSlot(l) => l in v.lets && local == v.lets[l]
  }

  lemma RelStore(v: Env, store: Store, locals: map<nat, Value>, slot: Slot, local: nat, x: Value)
    requires Final(v) && Rel(v, store, locals) && Holds(v, slot, local)
    ensures Rel(v, store[slot := x], locals[local := x])
  {}

  lemma ShiftTo(v: Env, call: Callee, p: Pos, st: M.State, q: Pos, st1: M.State)
    requires In(v, p) && In(v, q) && st == st1 && p == q
    ensures Shift(v, call, p, st, q, st1, 0)
  {}

  /** Code for `e` and then one statement that consumes its value. */
  lemma ThenOne(v: Env, lets: map<nat, nat>, b: nat, before: seq<M.Stmt>, e: Expr, s: M.Stmt, store: Store,
                st: M.State, call: Callee)
    requires Final(v) && Rel(v, store, st.locals) && st.stack == [] && Extends(lets, v.lets)
    requires ScopedExpr(v.cx, lets.Keys, e) && LowerableExpr(e)
    requires b < |v.blocks| && before + Code(v.cx.re, lets, e) + [s] <= v.blocks[b].stmts
    requires s.Store? || s.Pop?
    ensures var p := Pos(b, |before|); var q := Pos(b, |before| + |Code(v.cx.re, lets, e)| + 1);
      var r := Eval(v.cx.re, e, store, st.w, call);
      && In(v, p) && In(v, q)
      && (r.Fail? ==> Halts(v, call, p, st, r.reply))
      && (r.Val? ==> Shift(v, call, p, st, q, M.State(if s.Store? then st.locals[s.local := r.v] else st.locals, [],
                                                      r.w), 0))
  {
    hide At, Code, Eval, Rel, ScopedExpr, LowerableExpr;
    var code := Code(v.cx.re, lets, e);
    assert before + code + [s] == before + (code + [s]);
    Fragment(v, call, b, before, code + [s], st);
    CodeCorrect(v, lets, e, store, st, call);
    M.ExecConcat(code, [s], st, call);
    var r := Eval(v.cx.re, e, store, st.w, call);
    if r.Val? {
      One(s, M.State(st.locals, st.stack + [r.v], r.w), call);
    }
  }

  /** Code for `e` and a store into the slot's local. */
  lemma StoreSound(v: Env, lets: map<nat, nat>, b: nat, before: seq<M.Stmt>, e: Expr, slot: Slot, local: nat,
                   store: Store, st: M.State, call: Callee, exits: map<nat, nat>, fuel: nat) returns (st1: M.State)
    requires Final(v) && Rel(v, store, st.locals) && st.stack == [] && Extends(lets, v.lets)
    requires ScopedExpr(v.cx, lets.Keys, e) && LowerableExpr(e) && Holds(v, slot, local)
    requires b < |v.blocks| && before + Code(v.cx.re, lets, e) + [M.Store(local)] <= v.blocks[b].stmts
    ensures In(v, Pos(b, |before|))
    ensures Sound(v, call, Pos(b, |before|), Pos(b, |before| + |Code(v.cx.re, lets, e)| + 1), exits, st,
                  EvalInto(v.cx.re, e, slot, store, st.w, call), fuel, 0, st1)
  {
    hide At, Code, Eval;
    ThenOne(v, lets, b, before, e, M.Store(local), store, st, call);
    var r := Eval(v.cx.re, e, store, st.w, call);
    st1 := st;
    if r.Val? {
      st1 := M.State(st.locals[local := r.v], [], r.w);
      RelStore(v, store, st.locals, slot, local, r.v);
    }
  }

  lemma EmitTwice(cx: Cx, g: Gen, e: Expr, s: M.Stmt)
    requires g.cur < |g.blocks|
    ensures var r := Emit(EmitExpr(cx, g, e), [s]);
      && r.blocks[g.cur].stmts == g.blocks[g.cur].stmts + Code(cx.re, g.lets, e) + [s]
      && r.cur == g.cur && r.lets == g.lets
  {}

  lemma {:induction false} LetSound(v: Env, g: Gen, s: Stmt, loops: set<nat>, store: Store, st: M.State, call: Callee,
                                    fuel: nat)
    returns (k: nat, st1: M.State)
    requires s.Let?
    requires Ready(v, g, loops, store, st) && Scoped(v.cx, g.lets.Keys, loops, s) && Lowerable(v.cx, s)
    requires Built(v, Lower(v.cx, g, s))
    ensures StmtOk(v, call, g, Lower(v.cx, g, s), loops, st, Exec(v.cx.re, s, store, st.w, call, fuel), fuel, k, st1)
  {
    hide At, Code, Eval, Rel, ScopedExpr, LowerableExpr, Emit, EmitExpr;
    k, st1 := 0, st;
    var g1 := NewLet(g, s.id);
    if s.init.Some? {
      assert g1.lets.Keys == g.lets.Keys + {s.id};
      EmitTwice(v.cx, g1, s.init.value, M.Store(g.locals));
      st1 := StoreSound(v, g1.lets, g.cur, g.blocks[g.cur].stmts, s.init.value, LetSlot(s.id), g.locals, store, st,
                        call,
                        g.exits, fuel);
    } else {
      ShiftTo(v, call, EndOf(g), st, EndOf(g1), st);
    }
  }

  lemma {:induction false} AssignSound(v: Env, g: Gen, s: Stmt, loops: set<nat>, store: Store, st: M.State,
                                       call: Callee, fuel: nat)
    returns (k: nat, st1: M.State)
    requires s.Assign?
    requires Ready(v, g, loops, store, st) && Scoped(v.cx, g.lets.Keys, loops, s) && Lowerable(v.cx, s)
    requires Built(v, Lower(v.cx, g, s))
    ensures StmtOk(v, call, g, Lower(v.cx, g, s), loops, st, Exec(v.cx.re, s, store, st.w, call, fuel), fuel, k, st1)
  {
    hide At, Code, Eval, Rel, LowerableExpr;
    k, st1 := 0, st;
    var local := LocalOf(v.cx.re, g.lets, s.subject.id);
    EmitTwice(v.cx, g, s.value_, M.Store(local));
    st1 := StoreSound(v, g.lets, g.cur, g.blocks[g.cur].stmts, s.value_, Target(v.cx.re, s.subject).value, local, store,
                      st,
                      call, g.exits, fuel);
  }

  lemma {:induction false} ExprStmtSound(v: Env, g: Gen, s: Stmt, loops: set<nat>, store: Store, st: M.State,
                                         call: Callee, fuel: nat)
    returns (k: nat, st1: M.State)
    requires s.ExprStmt?
    requires Ready(v, g, loops, store, st) && Scoped(v.cx, g.lets.Keys, loops, s) && Lowerable(v.cx, s)
    requires Built(v, Lower(v.cx, g, s))
    ensures StmtOk(v, call, g, Lower(v.cx, g, s), loops, st, Exec(v.cx.re, s, store, st.w, call, fuel), fuel, k, st1)
  {
    hide At, Code, Eval, Rel, ScopedExpr, LowerableExpr;
    k, st1 := 0, st;
    EmitTwice(v.cx, g, s.expr, M.Pop);
    ThenOne(v, g.lets, g.cur, g.blocks[g.cur].stmts, s.expr, M.Pop, store, st, call);
    var r := Eval(v.cx.re, s.expr, store, st.w, call);
    if r.Val? {
      st1 := M.State(st.locals, [], r.w);
    }
  }

  /** Leaving the current block for `target`. */
  lemma JumpBuilt(v: Env, g: Gen, target: nat)
    requires Wf(v.cx.params, g) && Later(Jump(g, target).blocks, v.blocks)
    ensures v.blocks[g.cur] == g.blocks[g.cur].(ter := M.Goto(target))
  {
    assert Jump(g, target).blocks[g.cur] == g.blocks[g.cur].(ter := M.Goto(target));
  }

  lemma {:induction false} BreakSound(v: Env, g: Gen, s: Stmt, loops: set<nat>, store: Store, st: M.State, call: Callee,
                                      fuel: nat)
    returns (k: nat, st1: M.State)
    requires s.Break?
    requires Ready(v, g, loops, store, st) && Scoped(v.cx, g.lets.Keys, loops, s) && Lowerable(v.cx, s)
    requires Built(v, Lower(v.cx, g, s))
    ensures StmtOk(v, call, g, Lower(v.cx, g, s), loops, st, Exec(v.cx.re, s, store, st.w, call, fuel), fuel, k, st1)
  {
    k, st1 := 1, st;
    var target := g.exits[v.cx.re.stmts[s.id].id];
    JumpBuilt(v, g, target);
    GotoShift(v, call, g.cur, st, target);
  }

  /** Once the result is stored, jump to the return block. */
  lemma LeaveSound(v: Env, g: Gen, g1: Gen, call: Callee, st: M.State, out: Exit, exits: map<nat, nat>, to: Pos,
                   fuel: nat, st1: M.State)
    returns (k: nat)
    requires Final(v) && Wf(v.cx.params, g1) && g.cur == g1.cur < |g.blocks|
    requires Later(Jump(g1, 1).blocks, v.blocks) && In(v, EndOf(g)) && !out.Broke? && !out.Left?
    requires In(v, EndOf(g1)) && Sound(v, call, EndOf(g), EndOf(g1), exits, st, out, fuel, 0, st1)
    ensures Sound(v, call, EndOf(g), to, exits, st, if out.Normal? then Left(out.store, out.w) else out, fuel, k, st1)
  {
    k := 0;
    JumpBuilt(v, g1, 1);
    if out.Normal? {
      k := 1;
      GotoShift(v, call, g1.cur, st1, 1);
      ShiftTrans(v, call, EndOf(g), st, EndOf(g1), st1, Pos(1, 0), st1, 0, 1);
    }
  }

  lemma {:induction false} ReturnSound(v: Env, g: Gen, s: Stmt, loops: set<nat>, store: Store, st: M.State,
                                       call: Callee, fuel: nat)
    returns (k: nat, st1: M.State)
    requires s.Return?
    requires Ready(v, g, loops, store, st) && Scoped(v.cx, g.lets.Keys, loops, s) && Lowerable(v.cx, s)
    requires Built(v, Lower(v.cx, g, s))
    ensures StmtOk(v, call, g, Lower(v.cx, g, s), loops, st, Exec(v.cx.re, s, store, st.w, call, fuel), fuel, k, st1)
  {
    hide At, Code, Eval, Rel, ScopedExpr, LowerableExpr;
    st1 := st;
    if s.value.None? {
      JumpBuilt(v, g, 1);
      ShiftTo(v, call, EndOf(g), st, EndOf(g), st);
      k := LeaveSound(v, g, g, call, st, Normal(store, st.w), g.exits, EndOf(Lower(v.cx, g, s)), fuel, st);
    } else {
      var e := s.value.value;
      EmitTwiceGrows(v.cx, g, e, M.Store(0));
      EmitTwice(v.cx, g, e, M.Store(0));
      var g1 := Emit(EmitExpr(v.cx, g, e), [M.Store(0)]);
      JumpBuilt(v, g1, 1);
      st1 := StoreSound(v, g.lets, g.cur, g.blocks[g.cur].stmts, e, RetSlot, 0, store, st, call, g.exits, fuel);
      var out := EvalInto(v.cx.re, e, RetSlot, store, st.w, call);
      k := LeaveSound(v, g, g1, call, st, out, g.exits, EndOf(Lower(v.cx, g, s)), fuel, st1);
    }
  }

  // ---------- Loops ----------

  /** The blocks around a loop body, as they stand in the finished function. */
  ghost predicate LoopBuilt(v: Env, g: Gen, h: Gen, e: Gen, top: nat, exit: nat, id: nat, loops: set<nat>)
    requires g.cur < |g.blocks| && e.cur < |e.blocks|
  {
    && |g.blocks| <= |e.blocks| && h.cur < |h.blocks| && exit < |e.blocks|
    && Wf(v.cx.params, h) && ExitsIn(loops + {id}, h) && h.exits == g.exits[id := exit]
    && Built(v, e) && top < |v.blocks| && exit < |v.blocks|
    && v.blocks[g.cur] == g.blocks[g.cur].(ter := M.Goto(top))
    && v.blocks[e.cur] == e.blocks[e.cur].(ter := M.Goto(top))
    && EndOf(h).at == 0
    && EndOf(LoopTail(e, top, exit)) == Pos(exit, 0)
  }

  lemma AroundIsBuilt(v: Env, g: Gen, h: Gen, e: Gen, top: nat, exit: nat, id: nat, loops: set<nat>)
    requires Wf(v.cx.params, g) && Wf(v.cx.params, h) && Wf(v.cx.params, e)
    requires Grew(g, h) && Grew(h, e) && |g.blocks| <= h.cur && top < |h.blocks| && EndOf(h).at == 0
    requires |g.blocks| <= exit < |h.blocks| && exit != h.cur
    requires h.blocks[exit] == M.Block(exit, [], M.Unset)
    requires id !in loops && h.exits == g.exits[id := exit] && ExitsIn(loops, g)
    requires LoopsKept(loops, g, g) && LoopsKept(loops + {id}, h, e)
    requires h.blocks[g.cur] == g.blocks[g.cur].(ter := M.Goto(top))
    requires Built(v, LoopTail(e, top, exit))
    ensures LoopBuilt(v, g, h, e, top, exit, id, loops)
    ensures forall b :: 0 <= b < |h.blocks| && b != h.cur && h.blocks[b].ter != M.Unset ==> v.blocks[b] == h.blocks[b]
  {
    AroundBody(v.cx.params, g, h, e, top, exit, id, loops);
    var r := LoopTail(e, top, exit);
    LaterTrans(e.blocks, r.blocks, v.blocks);
    assert e.blocks[g.cur] == h.blocks[g.cur];
    forall b | 0 <= b < |h.blocks| && b != h.cur && h.blocks[b].ter != M.Unset ensures v.blocks[b] == h.blocks[b] {
      assert e.blocks[b] == h.blocks[b];
    }
  }

  lemma {:induction false} LoopIsBuilt(v: Env, g: Gen, s: Stmt, loops: set<nat>) returns (h: Gen, e: Gen)
    requires s.Loop? && Wf(v.cx.params, g) && ExitsIn(loops, g)
    requires Scoped(v.cx, g.lets.Keys, loops, s) && Built(v, Lower(v.cx, g, s))
    ensures h.cur < |h.blocks| && e == LowerBlock(v.cx, h, s.body) && h.lets == g.lets
    ensures LoopBuilt(v, g, h, e, |g.blocks|, |g.blocks| + 1, s.id, loops)
    ensures EndOf(h) == Pos(|g.blocks|, 0) && EndOf(Lower(v.cx, g, s)) == Pos(|g.blocks| + 1, 0)
  {
    hide LowerBlock, LoopBuilt;
    h := LoopHead(g, s.id);
    LoopHeadGrows(v.cx.params, g, s.id);
    LowerBlockGrows(v.cx, h, s.body, loops + {s.id});
    e := LowerBlock(v.cx, h, s.body);
    AroundIsBuilt(v, g, h, e, |g.blocks|, |g.blocks| + 1, s.id, loops);
  }

  lemma {:induction false} WhileIsBuilt(v: Env, g: Gen, s: Stmt, loops: set<nat>) returns (h: Gen, e: Gen)
    requires s.While? && Wf(v.cx.params, g) && ExitsIn(loops, g)
    requires Scoped(v.cx, g.lets.Keys, loops, s) && Built(v, Lower(v.cx, g, s))
    ensures h.cur < |h.blocks| && e == LowerBlock(v.cx, h, s.body) && h.lets == g.lets
    ensures LoopBuilt(v, g, h, e, |g.blocks|, |g.blocks| + 2, s.id, loops)
    ensures EndOf(h) == Pos(|g.blocks| + 1, 0) && EndOf(Lower(v.cx, g, s)) == Pos(|g.blocks| + 2, 0)
    ensures var top := |g.blocks|;
      v.blocks[top] == M.Block(top, Code(v.cx.re, g.lets, s.cond), M.If(top + 1, top + 2))
    ensures Extends(g.lets, v.lets) && |g.blocks| + 2 < |v.blocks|
  {
    hide LowerBlock, LoopBuilt, WhileHead, Later, Code, ScopedExpr;
    h := WhileHead(v.cx, g, s.id, s.cond);
    WhileHeadGrows(v.cx, g, s.id, s.cond);
    hide WhileHead, Code;
    LowerBlockGrows(v.cx, h, s.body, loops + {s.id});
    e := LowerBlock(v.cx, h, s.body);
    AroundIsBuilt(v, g, h, e, |g.blocks|, |g.blocks| + 2, s.id, loops);
  }

  /** The condition of a branch: from the start of its code to one of two blocks. */
  lemma Branch(v: Env, lets: map<nat, nat>, b: nat, before: seq<M.Stmt>, cond: Expr, yes: nat, no: nat,
               store: Store, st: M.State, call: Callee)
    requires Final(v) && Rel(v, store, st.locals) && st.stack == [] && Extends(lets, v.lets)
    requires ScopedExpr(v.cx, lets.Keys, cond) && LowerableExpr(cond)
    requires b < |v.blocks| && yes < |v.blocks| && no < |v.blocks|
    requires v.blocks[b].stmts == before + Code(v.cx.re, lets, cond) && v.blocks[b].ter == M.If(yes, no)
    ensures var p := Pos(b, |before|); var r := Eval(v.cx.re, cond, store, st.w, call);
      && In(v, p)
      && (r.Fail? ==> Halts(v, call, p, st, r.reply))
      && (r.Val? && Test(r.v).None? ==> Halts(v, call, p, st, Trapped))
      && (r.Val? && Test(r.v).Some? ==>
            Shift(v, call, p, st, Pos(if Test(r.v).value then yes else no, 0), M.State(st.locals, [], r.w), 1))
  {
    var code := Code(v.cx.re, lets, cond);
    Fragment(v, call, b, before, code, st);
    CodeCorrect(v, lets, cond, store, st, call);
    var r := Eval(v.cx.re, cond, store, st.w, call);
    if r.Val? {
      var st0 := M.State(st.locals, [], r.w);
      var st1 := st0.(stack := [r.v]);
      assert st.stack + [r.v] == [r.v];
      IfShift(v, call, b, st0, r.v, yes, no);
      var p, q := Pos(b, |before|), Pos(b, |before + code|);
      if Test(r.v).Some? {
        ShiftTrans(v, call, p, st, q, st1, Pos(if Test(r.v).value then yes else no, 0), st0, 0, 1);
      } else {
        forall n: nat ensures At(v, p, st, call, n) == Halt(Trapped) {
          assert At(v, p, st, call, n + 0) == At(v, q, st1, call, n);
        }
      }
    }
  }

  // ---------- The induction ----------

  /** A loop catches its own breaks. */
  function Caught(id: nat, out: Exit): Exit {
    if out.Broke? && out.loop == id then Normal(out.store, out.w) else out
  }

  /** The body has been left other than by its end: so has the loop, `j` transfers earlier. */
  lemma BodyLeft(v: Env, call: Callee, g: Gen, h: Gen, e: Gen, top: nat, exit: nat, id: nat, loops: set<nat>,
                 st: M.State, st0: M.State, j: nat, out: Exit, fuel: nat, k: nat, st1: M.State)
    requires g.cur < |g.blocks| && e.cur < |e.blocks| && LoopBuilt(v, g, h, e, top, exit, id, loops)
    requires 1 <= j && 1 <= fuel && id !in loops && !out.Normal?
    requires In(v, EndOf(g)) && In(v, EndOf(h)) && Shift(v, call, EndOf(g), st, EndOf(h), st0, j)
    requires StmtOk(v, call, h, e, loops + {id}, st0, out, fuel - 1, k, st1)
    ensures Caught(id, out).Broke? ==> Caught(id, out).loop in loops
    ensures Sound(v, call, EndOf(g), Pos(exit, 0), g.exits, st, Caught(id, out), fuel, k + j, st1)
  {
    assert Sound(v, call, EndOf(h), Pos(exit, 0), g.exits, st0, Caught(id, out), fuel - 1, k, st1);
    Compose(v, call, EndOf(g), st, EndOf(h), st0, Pos(exit, 0), g.exits, Caught(id, out), fuel - 1, fuel, j, k, st1);
  }

  /** The body has run to its end: the machine is where the loop started, with less fuel. */
  lemma BodyDone(v: Env, call: Callee, g: Gen, h: Gen, e: Gen, top: nat, exit: nat, id: nat, loops: set<nat>,
                 st: M.State, st0: M.State, j: nat, out: Exit, fuel: nat, k: nat, st1: M.State)
    requires g.cur < |g.blocks| && e.cur < |e.blocks| && LoopBuilt(v, g, h, e, top, exit, id, loops)
    requires out.Normal?
    requires In(v, EndOf(g)) && In(v, EndOf(h)) && Shift(v, call, EndOf(g), st, EndOf(h), st0, j)
    requires StmtOk(v, call, h, e, loops + {id}, st0, out, fuel, k, st1)
    ensures st1.stack == [] && st1.w == out.w && Rel(v, out.store, st1.locals)
    ensures Shift(v, call, EndOf(g), st, EndOf(g), st1, k + j)
  {
    SameGoto(v, call, e.cur, g.cur, st1, top);
    ShiftTrans(v, call, EndOf(g), st, EndOf(h), st0, EndOf(e), st1, j, k);
    ShiftTrans(v, call, EndOf(g), st, EndOf(e), st1, EndOf(g), st1, k + j, 0);
  }

  /** What one iteration does to the machine, seen from the end of the block before the loop. */
  ghost predicate Once(v: Env, call: Callee, g: Gen, exit: nat, id: nat, loops: set<nat>, st: M.State, out: Exit,
                       fuel: nat,
                       k: nat, st1: M.State)
    requires g.cur < |g.blocks| && In(v, EndOf(g))
  {
    if out.Normal? then
      && st1.stack == [] && st1.w == out.w && Rel(v, out.store, st1.locals) && 1 <= k
      && Shift(v, call, EndOf(g), st, EndOf(g), st1, k)
    else
      && (Caught(id, out).Broke? ==> Caught(id, out).loop in loops)
      && Sound(v, call, EndOf(g), Pos(exit, 0), g.exits, st, Caught(id, out), fuel, k, st1)
  }

  lemma {:induction false} BodyOnce(v: Env, g: Gen, h: Gen, e: Gen, body: Block, top: nat, exit: nat, id: nat,
                                    loops: set<nat>,
                                    store: Store, st: M.State, st0: M.State, j: nat, call: Callee, fuel: nat)
    returns (k: nat, st1: M.State)
    requires g.cur < |g.blocks| && h.cur < |h.blocks| && e.cur < |e.blocks|
    requires LoopBuilt(v, g, h, e, top, exit, id, loops)
    requires Final(v) && st0.stack == [] && Rel(v, store, st0.locals)
    requires ScopedBlock(v.cx, h.lets.Keys, loops + {id}, body) && LowerableBlock(v.cx, body)
    requires e == LowerBlock(v.cx, h, body) && id !in loops && 1 <= fuel && 1 <= j
    requires In(v, EndOf(g)) && In(v, EndOf(h)) && Shift(v, call, EndOf(g), st, EndOf(h), st0, j)
    ensures Once(v, call, g, exit, id, loops, st, ExecBlock(v.cx.re, body, store, st0.w, call, fuel - 1), fuel, k, st1)
    decreases fuel, body
  {
    hide LowerBlock, ScopedBlock, ExecBlock, Rel, At;
    k, st1 := BlockSound(v, h, body, loops + {id}, store, st0, call, fuel - 1);
    var out := ExecBlock(v.cx.re, body, store, st0.w, call, fuel - 1);
    if out.Normal? {
      BodyDone(v, call, g, h, e, top, exit, id, loops, st, st0, j, out, fuel - 1, k, st1);
    } else {
      BodyLeft(v, call, g, h, e, top, exit, id, loops, st, st0, j, out, fuel, k, st1);
    }
    k := k + j;
  }

  /** One iteration and then the rest of the loop. */
  lemma Again(v: Env, call: Callee, g: Gen, exit: nat, id: nat, loops: set<nat>, st: M.State, out: Exit, rest: Exit,
              fuel: nat,
              k: nat, st1: M.State, k2: nat, st2: M.State)
    requires g.cur < |g.blocks| && In(v, EndOf(g)) && 1 <= fuel && out.Normal?
    requires Once(v, call, g, exit, id, loops, st, out, fuel, k, st1)
    requires Sound(v, call, EndOf(g), Pos(exit, 0), g.exits, st1, rest, fuel - 1, k2, st2)
    ensures Sound(v, call, EndOf(g), Pos(exit, 0), g.exits, st, rest, fuel, k2 + k, st2)
  {
    Compose(v, call, EndOf(g), st, EndOf(g), st1, Pos(exit, 0), g.exits, rest, fuel - 1, fuel, k, k2, st2);
  }

  /** All the iterations of a `loop`, from the end of the block before it. */
  lemma {:induction false} LoopRuns(v: Env, g: Gen, h: Gen, e: Gen, s: Stmt, top: nat, exit: nat, loops: set<nat>,
                                    store: Store, st: M.State, call: Callee, fuel: nat)
    returns (k: nat, st1: M.State)
    requires s.Loop? && h.cur < |h.blocks| && EndOf(h) == Pos(top, 0)
    requires e.cur < |e.blocks| && Ready(v, g, loops, store, st) && LoopBuilt(v, g, h, e, top, exit, s.id, loops)
    requires ScopedBlock(v.cx, h.lets.Keys, loops + {s.id}, s.body) && LowerableBlock(v.cx, s.body)
    requires e == LowerBlock(v.cx, h, s.body) && s.id !in loops
    ensures var out := Exec(v.cx.re, s, store, st.w, call, fuel);
      && (out.Broke? ==> out.loop in loops) && In(v, EndOf(g))
      && Sound(v, call, EndOf(g), Pos(exit, 0), g.exits, st, out, fuel, k, st1)
    decreases fuel, s, 0
  {
    hide Rel, ScopedBlock, LowerBlock, At, ExecBlock, LowerableBlock, Shift;
    GotoShift(v, call, g.cur, st, top);
    k, st1 := 0, st;
    if fuel > 0 {
      k, st1 := BodyOnce(v, g, h, e, s.body, top, exit, s.id, loops, store, st, st, 1, call, fuel);
      var out := ExecBlock(v.cx.re, s.body, store, st.w, call, fuel - 1);
      if out.Normal? {
        var k2, st2 := LoopRuns(v, g, h, e, s, top, exit, loops, out.store, st1, call, fuel - 1);
        Again(v, call, g, exit, s.id, loops, st, out, Exec(v.cx.re, s, out.store, st1.w, call, fuel - 1), fuel, k, st1,
              k2, st2);
        k, st1 := k2 + k, st2;
      }
    }
  }

  lemma {:induction false} LoopSound(v: Env, g: Gen, s: Stmt, loops: set<nat>, store: Store, st: M.State, call: Callee,
                                     fuel: nat)
    returns (k: nat, st1: M.State)
    requires s.Loop?
    requires Ready(v, g, loops, store, st) && Scoped(v.cx, g.lets.Keys, loops, s) && Lowerable(v.cx, s)
    requires Built(v, Lower(v.cx, g, s))
    ensures StmtOk(v, call, g, Lower(v.cx, g, s), loops, st, Exec(v.cx.re, s, store, st.w, call, fuel), fuel, k, st1)
    decreases fuel, s, 1
  {
    hide LowerBlock, At, Rel;
    var h, e := LoopIsBuilt(v, g, s, loops);
    k, st1 := LoopRuns(v, g, h, e, s, |g.blocks|, |g.blocks| + 1, loops, store, st, call, fuel);
  }

  /** From the end of the current block through the condition of a `while`. */
  lemma {:induction false} WhileTest(v: Env, g: Gen, lets: map<nat, nat>, s: Stmt, top: nat, store: Store, st: M.State,
                                     call: Callee)
    requires s.While? && Final(v) && st.stack == [] && Rel(v, store, st.locals) && Extends(lets, v.lets)
    requires ScopedExpr(v.cx, lets.Keys, s.cond) && LowerableExpr(s.cond)
    requires top + 2 < |v.blocks| && g.cur < |g.blocks| && g.cur < |v.blocks|
    requires v.blocks[g.cur] == g.blocks[g.cur].(ter := M.Goto(top))
    requires v.blocks[top] == M.Block(top, Code(v.cx.re, lets, s.cond), M.If(top + 1, top + 2))
    ensures var r := Eval(v.cx.re, s.cond, store, st.w, call);
      && In(v, EndOf(g))
      && At(v, EndOf(g), st, call, 0) == Timeout
      && (r.Fail? ==> At(v, EndOf(g), st, call, 1) == Halt(r.reply))
      && (r.Val? && Test(r.v).None? ==> At(v, EndOf(g), st, call, 1) == Halt(Trapped))
      && (r.Val? && Test(r.v).Some? ==>
            Shift(v, call, EndOf(g), st, Pos(if Test(r.v).value then top + 1 else top + 2, 0),
                  M.State(st.locals, [], r.w), 2))
  {
    hide Rel, Eval, ScopedExpr, LowerableExpr, Code;
    GotoShift(v, call, g.cur, st, top);
    assert v.blocks[top].stmts == [] + Code(v.cx.re, lets, s.cond);
    Branch(v, lets, top, [], s.cond, top + 1, top + 2, store, st, call);
    var r := Eval(v.cx.re, s.cond, store, st.w, call);
    assert At(v, EndOf(g), st, call, 0 + 1) == At(v, Pos(top, 0), st, call, 0);
    if r.Val? && Test(r.v).Some? {
      ShiftTrans(v, call, EndOf(g), st, Pos(top, 0), st, Pos(if Test(r.v).value then top + 1 else top + 2, 0),
                 M.State(st.locals, [], r.w), 1, 1);
    }
  }

  /** All the iterations of a `while`, from the end of the block before it. */
  lemma {:induction false} WhileRuns(v: Env, g: Gen, h: Gen, e: Gen, s: Stmt, top: nat, exit: nat, loops: set<nat>,
                                     store: Store, st: M.State, call: Callee, fuel: nat)
    returns (k: nat, st1: M.State)
    requires s.While? && h.cur < |h.blocks| && EndOf(h) == Pos(top + 1, 0) && exit == top + 2 && Extends(h.lets, v.lets)
    requires ScopedExpr(v.cx, h.lets.Keys, s.cond) && LowerableExpr(s.cond) && top + 2 < |v.blocks|
    requires v.blocks[top] == M.Block(top, Code(v.cx.re, h.lets, s.cond), M.If(top + 1, top + 2))
    requires e.cur < |e.blocks| && Ready(v, g, loops, store, st) && LoopBuilt(v, g, h, e, top, exit, s.id, loops)
    requires ScopedBlock(v.cx, h.lets.Keys, loops + {s.id}, s.body) && LowerableBlock(v.cx, s.body)
    requires e == LowerBlock(v.cx, h, s.body) && s.id !in loops
    ensures var out := Exec(v.cx.re, s, store, st.w, call, fuel);
      && (out.Broke? ==> out.loop in loops) && In(v, EndOf(g))
      && Sound(v, call, EndOf(g), Pos(exit, 0), g.exits, st, out, fuel, k, st1)
    decreases fuel, s, 1
  {
    hide At, LowerBlock, Code, Rel;
    WhileTest(v, g, h.lets, s, top, store, st, call);
    k, st1 := 1, st;
    var r := Eval(v.cx.re, s.cond, store, st.w, call);
    if fuel > 0 && r.Val? && Test(r.v).Some? {
      st1 := M.State(st.locals, [], r.w);
      if Test(r.v).value {
        k, st1 := WhileEnters(v, g, h, e, s, top, exit, loops, store, st, st1, call, fuel);
      } else {
        k := 2;
      }
    }
  }

  /** A `while` whose condition has just held. */
  lemma {:induction false} WhileEnters(v: Env, g: Gen, h: Gen, e: Gen, s: Stmt, top: nat, exit: nat, loops: set<nat>,
                                       store: Store, st: M.State, st0: M.State, call: Callee, fuel: nat)
    returns (k: nat, st1: M.State)
    requires s.While? && h.cur < |h.blocks| && EndOf(h) == Pos(top + 1, 0) && exit == top + 2 && Extends(h.lets, v.lets)
    requires ScopedExpr(v.cx, h.lets.Keys, s.cond) && LowerableExpr(s.cond) && top + 2 < |v.blocks|
    requires v.blocks[top] == M.Block(top, Code(v.cx.re, h.lets, s.cond), M.If(top + 1, top + 2))
    requires e.cur < |e.blocks| && Ready(v, g, loops, store, st) && LoopBuilt(v, g, h, e, top, exit, s.id, loops)
    requires ScopedBlock(v.cx, h.lets.Keys, loops + {s.id}, s.body) && LowerableBlock(v.cx, s.body)
    requires e == LowerBlock(v.cx, h, s.body) && s.id !in loops
    requires fuel > 0 && st0.stack == [] && st0.locals == st.locals && In(v, EndOf(g)) && In(v, EndOf(h))
    requires Shift(v, call, EndOf(g), st, EndOf(h), st0, 2)
    ensures var body := ExecBlock(v.cx.re, s.body, store, st0.w, call, fuel - 1);
      var out := if body.Normal? then Exec(v.cx.re, s, body.store, body.w, call, fuel - 1) else Caught(s.id, body);
      && (out.Broke? ==> out.loop in loops)
      && Sound(v, call, EndOf(g), Pos(exit, 0), g.exits, st, out, fuel, k, st1)
    decreases fuel, s, 0
  {
    hide LowerBlock, At, Code, Eval, Rel;
    k, st1 := BodyOnce(v, g, h, e, s.body, top, exit, s.id, loops, store, st, st0, 2, call, fuel);
    var out := ExecBlock(v.cx.re, s.body, store, st0.w, call, fuel - 1);
    if out.Normal? {
      var k2, st2 := WhileRuns(v, g, h, e, s, top, exit, loops, out.store, st1, call, fuel - 1);
      Again(v, call, g, exit, s.id, loops, st, out, Exec(v.cx.re, s, out.store, st1.w, call, fuel - 1), fuel, k, st1,
            k2, st2);
      k, st1 := k2 + k, st2;
    }
  }

  lemma {:induction false} WhileSound(v: Env, g: Gen, s: Stmt, loops: set<nat>, store: Store, st: M.State, call: Callee,
                                      fuel: nat)
    returns (k: nat, st1: M.State)
    requires s.While?
    requires Ready(v, g, loops, store, st) && Scoped(v.cx, g.lets.Keys, loops, s) && Lowerable(v.cx, s)
    requires Built(v, Lower(v.cx, g, s))
    ensures StmtOk(v, call, g, Lower(v.cx, g, s), loops, st, Exec(v.cx.re, s, store, st.w, call, fuel), fuel, k, st1)
    decreases fuel, s, 2
  {
    hide LowerBlock, At, Code, Eval, Rel;
    var h, e := WhileIsBuilt(v, g, s, loops);
    k, st1 := WhileRuns(v, g, h, e, s, |g.blocks|, |g.blocks| + 2, loops, store, st, call, fuel);
  }

  lemma {:induction false} StmtSound(v: Env, g: Gen, s: Stmt, loops: set<nat>, store: Store, st: M.State, call: Callee,
                                     fuel: nat)
    returns (k: nat, st1: M.State)
    requires Ready(v, g, loops, store, st) && Scoped(v.cx, g.lets.Keys, loops, s) && Lowerable(v.cx, s)
    requires Built(v, Lower(v.cx, g, s))
    ensures StmtOk(v, call, g, Lower(v.cx, g, s), loops, st, Exec(v.cx.re, s, store, st.w, call, fuel), fuel, k, st1)
    decreases fuel, s, 3
  {
    hide Lower, Exec, Rel, At;
    match s
    case Let(_, _, _) => k, st1 := LetSound(v, g, s, loops, store, st, call, fuel);
    case Loop(_, _) => k, st1 := LoopSound(v, g, s, loops, store, st, call, fuel);
    case While(_, _, _) => k, st1 := WhileSound(v, g, s, loops, store, st, call, fuel);
    case If(_, _, _, falsy) =>
      if falsy.Some? {
        k, st1 := ElseSound(v, g, s, loops, store, st, call, fuel);
      } else {
        k, st1 := ThenSound(v, g, s, loops, store, st, call, fuel);
      }
    case Return(_, _) => k, st1 := ReturnSound(v, g, s, loops, store, st, call, fuel);
    case Break(_) => k, st1 := BreakSound(v, g, s, loops, store, st, call, fuel);
    case Assign(_, _, _) => k, st1 := AssignSound(v, g, s, loops, store, st, call, fuel);
    case ExprStmt(_, _) => k, st1 := ExprStmtSound(v, g, s, loops, store, st, call, fuel);
  }

  lemma {:induction false} BlockSound(v: Env, g: Gen, b: Block, loops: set<nat>, store: Store, st: M.State,
                                      call: Callee, fuel: nat)
    returns (k: nat, st1: M.State)
    requires Ready(v, g, loops, store, st) && ScopedBlock(v.cx, g.lets.Keys, loops, b) && LowerableBlock(v.cx, b)
    requires Built(v, LowerBlock(v.cx, g, b))
    ensures StmtOk(v, call, g, LowerBlock(v.cx, g, b), loops, st, ExecBlock(v.cx.re, b, store, st.w, call, fuel), fuel,
                   k, st1)
    decreases fuel, b, 0
  {
    hide Lower, Exec, Rel, At, Scoped, Lowerable, Lets;
    match b
    case Nil =>
      k, st1 := 0, st;
      ShiftTo(v, call, EndOf(g), st, EndOf(g), st);
    case Cons(s, rest) =>
      var h := Lower(v.cx, g, s);
      ConsBuilt(v, g, s, rest, loops);
      k, st1 := StmtSound(v, g, s, loops, store, st, call, fuel);
      var out := Exec(v.cx.re, s, store, st.w, call, fuel);
      if out.Normal? {
        var k2, st2 := BlockSound(v, h, rest, loops, out.store, st1, call, fuel);
        var last := ExecBlock(v.cx.re, rest, out.store, out.w, call, fuel);
        Chain(v, call, g, h, LowerBlock(v.cx, h, rest), loops, st, st1, last, out, fuel, k, k2, st2);
        k, st1 := k2 + k, st2;
      }
  }

  lemma {:induction false} ConsBuilt(v: Env, g: Gen, s: Stmt, rest: Block, loops: set<nat>)
    requires Wf(v.cx.params, g) && ExitsIn(loops, g)
    requires Scoped(v.cx, g.lets.Keys, loops, s) && ScopedBlock(v.cx, g.lets.Keys + Lets(s), loops, rest)
    requires Built(v, LowerBlock(v.cx, Lower(v.cx, g, s), rest))
    ensures var h := Lower(v.cx, g, s);
      Wf(v.cx.params, h) && ExitsIn(loops, h) && LoopsKept(loops, g, h) && Built(v, h) &&
        h.lets.Keys == g.lets.Keys + Lets(s)
  {
    var h := Lower(v.cx, g, s);
    LowerGrows(v.cx, g, s, loops);
    LowerBlockGrows(v.cx, h, rest, loops);
    GrewLater(v.cx.params, h, LowerBlock(v.cx, h, rest));
    LaterTrans(h.blocks, LowerBlock(v.cx, h, rest).blocks, v.blocks);
  }

  /** One statement after another. */
  lemma Chain(v: Env, call: Callee, g: Gen, h: Gen, r: Gen, loops: set<nat>, st: M.State, st1: M.State, last: Exit,
              out: Exit,
              fuel: nat, j: nat, k: nat, st2: M.State)
    requires g.cur < |g.blocks| && h.cur < |h.blocks| && r.cur < |r.blocks| && LoopsKept(loops, g, h) && out.Normal?
    requires StmtOk(v, call, g, h, loops, st, out, fuel, j, st1)
    requires StmtOk(v, call, h, r, loops, st1, last, fuel, k, st2)
    ensures StmtOk(v, call, g, r, loops, st, last, fuel, k + j, st2)
  {
    assert Sound(v, call, EndOf(h), EndOf(r), g.exits, st1, last, fuel, k, st2);
    Compose(v, call, EndOf(g), st, EndOf(h), st1, EndOf(r), g.exits, last, fuel, fuel, j, k, st2);
  }

  // ---------- Branches ----------

  /** A branch has been run: past its end, on to the block that both branches reach. */
  lemma BranchDone(v: Env, call: Callee, p: Pos, st: M.State, b: Pos, st0: M.State, e: Pos, exit: nat, exits: map<nat,
                   nat>,
                   out: Exit, fuel: nat, k: nat, st1: M.State) returns (k1: nat)
    requires OwnIds(v.blocks) && In(v, p) && In(v, b) && In(v, e) && exit < |v.blocks|
    requires Shift(v, call, p, st, b, st0, 1)
    requires v.blocks[e.block].ter == M.Goto(exit) && e.at == |v.blocks[e.block].stmts|
    requires Sound(v, call, b, e, exits, st0, out, fuel, k, st1)
    ensures Sound(v, call, p, Pos(exit, 0), exits, st, out, fuel, k1, st1)
  {
    if out.Normal? {
      GotoShift(v, call, e.block, st1, exit);
      ShiftTrans(v, call, b, st0, e, st1, Pos(exit, 0), st1, k, 1);
      k1 := (1 + k) + 1;
      Compose(v, call, p, st, b, st0, Pos(exit, 0), exits, out, fuel, fuel, 1, 1 + k, st1);
    } else {
      k1 := k + 1;
      Compose(v, call, p, st, b, st0, Pos(exit, 0), exits, out, fuel, fuel, 1, k, st1);
    }
  }

  /** One branch, from the test to the block that both branches reach. */
  lemma {:induction false} BranchRuns(v: Env, g: Gen, h: Gen, t: Gen, body: Block, exit: nat, loops: set<nat>,
                                      store: Store, st: M.State, st0: M.State, call: Callee, fuel: nat)
    returns (k: nat, st1: M.State)
    requires g.cur < |g.blocks| && h.cur < |h.blocks| && t == LowerBlock(v.cx, h, body)
    requires Ready(v, h, loops, store, st0) && LoopsKept(loops, g, h) && exit < |v.blocks|
    requires ScopedBlock(v.cx, h.lets.Keys, loops, body) && LowerableBlock(v.cx, body) && Built(v, t)
    requires v.blocks[t.cur] == t.blocks[t.cur].(ter := M.Goto(exit))
    requires In(v, EndOf(g)) && In(v, EndOf(h)) && Shift(v, call, EndOf(g), st, EndOf(h), st0, 1)
    ensures var out := ExecBlock(v.cx.re, body, store, st0.w, call, fuel);
      && (out.Broke? ==> out.loop in loops)
      && Sound(v, call, EndOf(g), Pos(exit, 0), g.exits, st, out, fuel, k, st1)
    decreases fuel, body, 1
  {
    k, st1 := BlockSound(v, h, body, loops, store, st0, call, fuel);
    var out := ExecBlock(v.cx.re, body, store, st0.w, call, fuel);
    assert Sound(v, call, EndOf(h), EndOf(t), g.exits, st0, out, fuel, k, st1);
    k := BranchDone(v, call, EndOf(g), st, EndOf(h), st0, EndOf(t), exit, g.exits, out, fuel, k, st1);
  }

  lemma {:induction false} ThenIsBuilt(v: Env, g: Gen, s: Stmt, loops: set<nat>) returns (h: Gen, t: Gen, r: Gen)
    requires s.If? && s.falsy.None? && Wf(v.cx.params, g) && ExitsIn(loops, g)
    requires Scoped(v.cx, g.lets.Keys, loops, s) && Built(v, Lower(v.cx, g, s))
    ensures h.cur < |h.blocks| && t == LowerBlock(v.cx, h, s.truthy) && r == Lower(v.cx, g, s)
    ensures Extends(g.lets, v.lets)
    ensures Wf(v.cx.params, h) && ExitsIn(loops, h) && Built(v, t) && h.lets == g.lets && h.exits == g.exits
    ensures EndOf(h) == Pos(|g.blocks|, 0) && EndOf(r) == Pos(r.cur, 0) && r.cur < |v.blocks| && |g.blocks| < |v.blocks|
    ensures v.blocks[g.cur].stmts == g.blocks[g.cur].stmts + Code(v.cx.re, g.lets, s.cond)
    ensures v.blocks[g.cur].ter == M.If(|g.blocks|, r.cur)
    ensures v.blocks[t.cur] == t.blocks[t.cur].(ter := M.Goto(r.cur))
  {
    h := IfHead(v.cx, g, s.cond);
    IfHeadGrows(v.cx, g, s.cond);
    LowerBlockGrows(v.cx, h, s.truthy, loops);
    t := LowerBlock(v.cx, h, s.truthy);
    AroundThen(v.cx.params, g, h, t, |g.blocks|);
    r := IfTail(t, g.cur, |g.blocks|);
    LaterTrans(t.blocks, r.blocks, v.blocks);
  }

  lemma {:induction false} ThenSound(v: Env, g: Gen, s: Stmt, loops: set<nat>, store: Store, st: M.State, call: Callee,
                                     fuel: nat)
    returns (k: nat, st1: M.State)
    requires s.If? && s.falsy.None?
    requires Ready(v, g, loops, store, st) && Scoped(v.cx, g.lets.Keys, loops, s) && Lowerable(v.cx, s)
    requires Built(v, Lower(v.cx, g, s))
    ensures StmtOk(v, call, g, Lower(v.cx, g, s), loops, st, Exec(v.cx.re, s, store, st.w, call, fuel), fuel, k, st1)
    decreases fuel, s, 0
  {
    hide LowerBlock, Rel, Eval, Code, ScopedExpr, LowerableExpr;
    var h, t, r := ThenIsBuilt(v, g, s, loops);
    Branch(v, g.lets, g.cur, g.blocks[g.cur].stmts, s.cond, |g.blocks|, r.cur, store, st, call);
    var c := Eval(v.cx.re, s.cond, store, st.w, call);
    k, st1 := 1, st;
    if c.Val? && Test(c.v).Some? {
      st1 := M.State(st.locals, [], c.w);
      if Test(c.v).value {
        k, st1 := BranchRuns(v, g, h, t, s.truthy, r.cur, loops, store, st, st1, call, fuel);
      }
    }
  }

  /** Where each branch starts and what it starts from. */
  lemma {:induction false} ElseParts(cx: Cx, g: Gen, s: Stmt, loops: set<nat>) returns (h: Gen, t: Gen, n: Gen, f: Gen)
    requires s.If? && s.falsy.Some? && Wf(cx.params, g) && ExitsIn(loops, g) && Scoped(cx, g.lets.Keys, loops, s)
    ensures h == IfHead(cx, g, s.cond) && t == LowerBlock(cx, h, s.truthy)
    ensures n == Fresh(t) && f == LowerBlock(cx, n, s.falsy.value)
    ensures Lower(cx, g, s) == IfElseTail(f, g.cur, |g.blocks|, t.cur, |t.blocks|)
    ensures Wf(cx.params, h) && ExitsIn(loops, h) && h.lets == g.lets && h.exits == g.exits
    ensures Wf(cx.params, n) && ExitsIn(loops, n) && LoopsKept(loops, g, n)
    ensures n.lets.Keys == g.lets.Keys + BlockLets(s.truthy)
    ensures Wf(cx.params, t) && Wf(cx.params, f) && Grew(h, t) && Grew(n, f)
    ensures EndOf(h) == Pos(|g.blocks|, 0) && EndOf(n) == Pos(|t.blocks|, 0) && Extends(g.lets, f.lets)
    ensures Extends(t.lets, f.lets)
  {
    h, t, f := Branches(cx, g, s, loops);
    n := Fresh(t);
    IfHeadGrows(cx, g, s.cond);
    hide LowerBlock, Code, OwnIds, InjectiveLets, Lower, IfElseTail, Scoped;
  }

  lemma {:induction false} ElseIsBuilt(v: Env, g: Gen, s: Stmt, loops: set<nat>)
    returns (h: Gen, t: Gen, n: Gen, f: Gen, r: Gen)
    requires s.If? && s.falsy.Some? && Wf(v.cx.params, g) && ExitsIn(loops, g)
    requires Scoped(v.cx, g.lets.Keys, loops, s) && Built(v, Lower(v.cx, g, s))
    ensures h.cur < |h.blocks| && t == LowerBlock(v.cx, h, s.truthy) && r == Lower(v.cx, g, s)
    ensures Extends(g.lets, v.lets)
    ensures n.cur < |n.blocks| && f == LowerBlock(v.cx, n, s.falsy.value)
    ensures Wf(v.cx.params, h) && ExitsIn(loops, h) && Built(v, t) && h.lets == g.lets && h.exits == g.exits
    ensures Wf(v.cx.params, n) && ExitsIn(loops, n) && Built(v, f) && LoopsKept(loops, g, n)
    ensures n.lets.Keys == g.lets.Keys + BlockLets(s.truthy)
    ensures EndOf(h) == Pos(|g.blocks|, 0) && EndOf(n) == Pos(|t.blocks|, 0) && EndOf(r) == Pos(r.cur, 0)
    ensures r.cur < |v.blocks| && |g.blocks| < |v.blocks| && |t.blocks| < |v.blocks|
    ensures v.blocks[g.cur].stmts == g.blocks[g.cur].stmts + Code(v.cx.re, g.lets, s.cond)
    ensures v.blocks[g.cur].ter == M.If(|g.blocks|, |t.blocks|)
    ensures v.blocks[t.cur] == t.blocks[t.cur].(ter := M.Goto(r.cur))
    ensures v.blocks[f.cur] == f.blocks[f.cur].(ter := M.Goto(r.cur))
  {
    hide LowerBlock, Code, Scoped;
    h, t, n, f := ElseParts(v.cx, g, s, loops);
    r := Lower(v.cx, g, s);
    IfHeadGrows(v.cx, g, s.cond);
    AroundElse(v.cx.params, g, h, t, f, |g.blocks|, |t.blocks|);
    hide IfHead, LowerBlock, Code, OwnIds, InjectiveLets, Later, Lower;
    assert r.lets == f.lets;
    ElseLater(v, g, h, t, n, f, r);
  }

  lemma Closed(bs: seq<M.Block>, cs: seq<M.Block>, b: nat)
    requires Later(bs, cs) && b < |bs| && bs[b].ter != M.Unset
    ensures |bs| <= |cs| && cs[b] == bs[b]
  {}

  /** What the whole function has in place of the blocks around both branches. */
  lemma ElseLater(v: Env, g: Gen, h: Gen, t: Gen, n: Gen, f: Gen, r: Gen)
    requires Wf(v.cx.params, n) && Grew(n, f) && n == Fresh(t) && Built(v, r) && Later(f.blocks, r.blocks)
    requires g.cur < |r.blocks| && t.cur < |r.blocks| && f.cur < |r.blocks|
    requires r.blocks[g.cur].ter != M.Unset
    requires r.blocks[t.cur].ter != M.Unset && r.blocks[f.cur].ter != M.Unset
    ensures Later(t.blocks, v.blocks) && Later(f.blocks, v.blocks) && |r.blocks| <= |v.blocks|
    ensures v.blocks[g.cur] == r.blocks[g.cur] && v.blocks[t.cur] == r.blocks[t.cur]
    ensures v.blocks[f.cur] == r.blocks[f.cur]
  {
    hide Later, Wf, Grew;
    LaterTrans(f.blocks, r.blocks, v.blocks);
    GrewLater(v.cx.params, n, f);
    LaterTrans(n.blocks, f.blocks, v.blocks);
    FreshLater(t);
    LaterTrans(t.blocks, n.blocks, v.blocks);
    Closed(r.blocks, v.blocks, g.cur);
    Closed(r.blocks, v.blocks, t.cur);
    Closed(r.blocks, v.blocks, f.cur);
  }

  lemma FreshLater(t: Gen)
    ensures Later(t.blocks, Fresh(t).blocks)
  {}

  lemma {:induction false} ElseSound(v: Env, g: Gen, s: Stmt, loops: set<nat>, store: Store, st: M.State, call: Callee,
                                     fuel: nat)
    returns (k: nat, st1: M.State)
    requires s.If? && s.falsy.Some?
    requires Ready(v, g, loops, store, st) && Scoped(v.cx, g.lets.Keys, loops, s) && Lowerable(v.cx, s)
    requires Built(v, Lower(v.cx, g, s))
    ensures StmtOk(v, call, g, Lower(v.cx, g, s), loops, st, Exec(v.cx.re, s, store, st.w, call, fuel), fuel, k, st1)
    decreases fuel, s, 0
  {
    hide LowerBlock, Rel, Eval, Code, At, ScopedExpr, LowerableExpr, ScopedBlock, LowerableBlock, ExecBlock, Test,
      Lower, Built;
    var h, t, n, f, r := ElseIsBuilt(v, g, s, loops);
    Branch(v, g.lets, g.cur, g.blocks[g.cur].stmts, s.cond, |g.blocks|, |t.blocks|, store, st, call);
    var c := Eval(v.cx.re, s.cond, store, st.w, call);
    k, st1 := 1, st;
    if c.Val? && Test(c.v).Some? {
      st1 := M.State(st.locals, [], c.w);
      if Test(c.v).value {
        k, st1 := BranchRuns(v, g, h, t, s.truthy, r.cur, loops, store, st, st1, call, fuel);
      } else {
        k, st1 := BranchRuns(v, g, n, f, s.falsy.value, r.cur, loops, store, st, st1, call, fuel);
      }
    }
  }
}
