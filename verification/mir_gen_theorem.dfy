/** A lowered function does exactly what its body does. */
module MirGenTheorem {
  import opened Values
  import opened Ast
  import opened AstSemantics
  import M = Mir
  import opened MirGen
  import opened MirGenShape
  import opened MirGenProof
  import opened MirGenStmts

  /** Running the body ends in `r`, given enough fuel. */
  ghost predicate BodyHalts(re: Resols, body: Block, args: seq<Value>, w: World, call: Callee, r: Reply) {
    exists n: nat :: RunBody(re, body, args, w, call, n) == Halt(r)
  }

  ghost predicate MirHalts(fn: M.Fn, args: seq<Value>, w: World, call: Callee, r: Reply) {
    exists n: nat :: M.RunFn(fn, args, w, call, n) == Halt(r)
  }

  /** What the parser and the resolver promise of a function body, and what lowering accepts. */
  predicate Accepted(cx: Cx, body: Block) {
    ScopedBlock(cx, {}, {}, body) && LowerableBlock(cx, body)
  }

  function EnvOf(cx: Cx, body: Block): Env {
    Env(cx, LowerBlock(cx, Start(cx.params), body).lets, Finish(cx, body).blocks)
  }

  lemma InitialRel(v: Env, args: seq<Value>)
    requires Final(v) && |args| == v.cx.params
    ensures Rel(v, InitialStore(args), M.InitialState(args, []).locals)
  {}

  /** The generator before and after the body. */
  lemma FinishIsBuilt(cx: Cx, body: Block)
    requires Accepted(cx, body)
    ensures var v := EnvOf(cx, body); var g := LowerBlock(cx, Start(cx.params), body);
      && Final(v) && Wf(cx.params, Start(cx.params)) && Wf(cx.params, g) && Built(v, g)
      && v.blocks[g.cur].ter == M.Goto(1) && |v.blocks[g.cur].stmts| == EndOf(g).at
      && v.blocks[1] == M.Block(1, [], M.Return)
  {
    assert Start(cx.params).lets.Keys == {};
    LowerBlockGrows(cx, Start(cx.params), body, {});
  }

  /** From the return block, the function returns its result local and its parameters. */
  lemma FromReturnBlock(v: Env, store: Store, st: M.State, call: Callee, args: seq<Value>)
    requires Final(v) && v.blocks[1] == M.Block(1, [], M.Return)
    requires Rel(v, store, st.locals) && |args| == v.cx.params
    ensures forall n: nat :: At(v, Pos(1, 0), st, call, n) ==
                             Halt(Returned(Get(store, RetSlot), ParamValues(store, |args|), st.w))
  {
    var r := M.Result(v.cx.params, st);
    assert r.after == ParamValues(store, |args|);
  }

  /** Once the body is done: the function halts with the same reply, or has not halted. */
  lemma {:induction false} FnSound(cx: Cx, body: Block, args: seq<Value>, w: World, call: Callee, fuel: nat)
    returns (k: nat)
    requires Accepted(cx, body) && |args| == cx.params
    ensures var fn := LowerFn(cx, body); var out := RunBody(cx.re, body, args, w, call, fuel);
      && (out.Halt? ==> M.RunFn(fn, args, w, call, k) == out)
      && (out.Timeout? ==> M.RunFn(fn, args, w, call, fuel) == Timeout)
  {
    hide LowerBlock, Rel, Scoped, ScopedBlock, LowerableBlock, OwnIds, M.RunBlock, M.Continue, InitialStore, ExecBlock;
    var v := EnvOf(cx, body);
    var g0 := Start(cx.params);
    var g := LowerBlock(cx, g0, body);
    FinishIsBuilt(cx, body);
    InitialRel(v, args);
    var store := InitialStore(args);
    var st := M.InitialState(args, w);
    assert g0.lets.Keys == {};
    var st1;
    k, st1 := BlockSound(v, g0, body, {}, store, st, call, fuel);
    var out := ExecBlock(cx.re, body, store, w, call, fuel);
    match out
    case Normal(store1, w1) =>
      GotoShift(v, call, g.cur, st1, 1);
      ShiftTrans(v, call, EndOf(g0), st, EndOf(g), st1, Pos(1, 0), st1, k, 1);
      FromReturnBlock(v, store1, st1, call, args);
      k := 1 + k;
      RunIsAt(v, 0, st, call, k);
      assert At(v, Pos(0, 0), st, call, 0 + k) == At(v, Pos(1, 0), st1, call, 0);
    case Left(store1, w1) =>
      FromReturnBlock(v, store1, st1, call, args);
      RunIsAt(v, 0, st, call, k);
      assert At(v, Pos(0, 0), st, call, 0 + k) == At(v, Pos(1, 0), st1, call, 0);
    case Failed(_) => RunIsAt(v, 0, st, call, k);
    case OutOfFuel => RunIsAt(v, 0, st, call, fuel);
  }

  /** Lowering preserves meaning: for all arguments, worlds and callees, the blocks halt with a
    * reply exactly when the body does.  In particular neither runs forever alone. */
  lemma {:induction false} LowerFnCorrect(cx: Cx, body: Block, args: seq<Value>, w: World, call: Callee, r: Reply)
    requires Accepted(cx, body) && |args| == cx.params
    ensures BodyHalts(cx.re, body, args, w, call, r) <==> MirHalts(LowerFn(cx, body), args, w, call, r)
  {
    var fn := LowerFn(cx, body);
    if BodyHalts(cx.re, body, args, w, call, r) {
      var n: nat :| RunBody(cx.re, body, args, w, call, n) == Halt(r);
      var k := FnSound(cx, body, args, w, call, n);
      assert M.RunFn(fn, args, w, call, k) == Halt(r);
    }
    if MirHalts(fn, args, w, call, r) {
      var n: nat :| M.RunFn(fn, args, w, call, n) == Halt(r);
      var k := FnSound(cx, body, args, w, call, n);
      var out := RunBody(cx.re, body, args, w, call, n);
      M.RunMore(fn.params, fn.blocks, fn.entry, M.InitialState(args, w), call, n, n + k);
      M.RunMore(fn.params, fn.blocks, fn.entry, M.InitialState(args, w), call, k, n + k);
      assert out == Halt(r);
    }
  }
}
