/** The generator as the compiler runs it: fields updated step by step while walking the body. */
module MirGenClass {
  import opened Values
  import opened Ast
  import M = Mir
  import opened MirGen
  import opened MirGenShape

  lemma EmitNothing(g: Gen)
    requires g.cur < |g.blocks|
    ensures Emit(g, []) == g
  {
    assert g.blocks[g.cur].stmts + [] == g.blocks[g.cur].stmts;
  }

  lemma EmitThen(g: Gen, a: seq<M.Stmt>, b: seq<M.Stmt>)
    requires g.cur < |g.blocks|
    ensures Emit(Emit(g, a), b) == Emit(g, a + b)
  {
    assert g.blocks[g.cur].stmts + a + b == g.blocks[g.cur].stmts + (a + b);
  }

  class FnMirGen {
    const cx: Cx
    var blocks: seq<M.Block>
    var currentBlock: nat
    var localIds: nat
    var letLocals: map<nat, nat>
    var loopExitBlocks: map<nat, nat>

    ghost function State(): Gen
      reads this
    {
      Gen(blocks, currentBlock, localIds, letLocals, loopExitBlocks)
    }

    constructor (cx: Cx)
      ensures this.cx == cx && State() == Gen([], 0, 0, map[], map[])
    {
      this.cx := cx;
      blocks, currentBlock, localIds, letLocals, loopExitBlocks := [], 0, 0, map[], map[];
    }

    method NewBlockId() returns (id: nat)
      modifies this
      ensures id == |old(State()).blocks| && State() == NewBlock(old(State()))
    {
      id := |blocks|;
      blocks := blocks + [M.Block(id, [], M.Unset)];
    }

    method NewLocal() returns (local: nat)
      modifies this
      ensures local == old(localIds)
      ensures State() == old(State()).(locals := old(localIds) + 1)
    {
      local := localIds;
      localIds := localIds + 1;
    }

    method PushStmt(s: M.Stmt)
      requires currentBlock < |blocks|
      modifies this
      ensures State() == Emit(old(State()), [s])
    {
      var b := blocks[currentBlock];
      blocks := blocks[currentBlock := b.(stmts := b.stmts + [s])];
    }

    method SetTer(b: nat, ter: M.Ter)
      requires b < |blocks|
      modifies this
      ensures State() == Close(old(State()), b, ter)
    {
      blocks := blocks[b := blocks[b].(ter := ter)];
    }

    /** Append the code of an expression; false for an operator that has no lowering. */
    method LowerExpr(e: Expr) returns (ok: bool)
      requires currentBlock < |blocks| && ScopedExpr(cx, letLocals.Keys, e)
      modifies this
      ensures ok <==> LowerableExpr(e)
      ensures currentBlock == old(currentBlock) && |blocks| == |old(blocks)| && letLocals == old(letLocals)
      ensures ok ==> State() == EmitExpr(cx, old(State()), e)
      decreases e
    {
      ghost var g := State();
      ghost var re, lets := cx.re, letLocals;
      match e
      case Ident(id, _) =>
        match cx.re.exprs[id] {
          case ToFn(f) => PushStmt(M.Push(M.FnVal(f)));
          case ToParam(i) => PushStmt(M.Load(i + 1));
          case ToLet(l) => PushStmt(M.Load(letLocals[l]));
        }
        return true;
      case Int(_, n) =>
        PushStmt(M.Push(M.IntVal(n)));
        return true;
      case Str(_, s) =>
        PushStmt(M.Push(M.StrVal(s)));
        return true;
      case Call(_, callee, args) =>
        ok := LowerArgs(args);
        if !ok { return; }
        ok := LowerExpr(callee);
        if !ok { return; }
        PushStmt(M.CallFn(Length(args)));
        EmitThen(g, ArgsCode(re, lets, args), Code(re, lets, callee));
        EmitThen(g, ArgsCode(re, lets, args) + Code(re, lets, callee), [M.CallFn(Length(args))]);
      case Not(_, _) => return false;
      case Negate(_, _) => return false;
      case Binary(_, op, left, right) =>
        ok := LowerExpr(left);
        if !ok { return; }
        ok := LowerExpr(right);
        if !ok { return; }
        if !op.Bin? { return false; }
        PushStmt(M.Binary(op.op));
        EmitThen(g, Code(re, lets, left), Code(re, lets, right));
        EmitThen(g, Code(re, lets, left) + Code(re, lets, right), [M.Binary(op.op)]);
    }

    method LowerArgs(args: List<Expr>) returns (ok: bool)
      requires currentBlock < |blocks| && ScopedArgs(cx, letLocals.Keys, args)
      modifies this
      ensures ok <==> LowerableArgs(args)
      ensures currentBlock == old(currentBlock) && |blocks| == |old(blocks)| && letLocals == old(letLocals)
      ensures ok ==> State() == Emit(old(State()), ArgsCode(cx.re, old(letLocals), args))
      decreases args
    {
      ghost var g := State();
      match args
      case Nil =>
        EmitNothing(g);
        return true;
      case Cons(e, rest) =>
        ok := LowerExpr(e);
        if !ok { return; }
        ok := LowerArgs(rest);
        EmitThen(g, Code(cx.re, letLocals, e), ArgsCode(cx.re, letLocals, rest));
    }

    /** Lower a statement; false where the source gives up.  `loops` are the enclosing loops. */
    method LowerStmt(s: Stmt, ghost loops: set<nat>) returns (ok: bool)
      requires Wf(cx.params, State()) && Scoped(cx, letLocals.Keys, loops, s) && LoopsKept(loops, State(), State())
      modifies this
      ensures ok <==> Lowerable(cx, s)
      ensures ok ==> State() == Lower(cx, old(State()), s)
      decreases s, 1
    {
      match s
      case Let(id, _, init) =>
        var local := NewLocal();
        letLocals := letLocals[id := local];
        if init.Some? {
          assert letLocals.Keys == old(letLocals).Keys + {id};
          ok := LowerExpr(init.value);
          if !ok { return; }
          PushStmt(M.Store(local));
        }
        return true;
      case Loop(_, _) => ok := LowerLoop(s, loops);
      case While(_, _, _) => ok := LowerWhile(s, loops);
      case If(_, _, _, _) => ok := LowerIf(s, loops);
      case Return(_, e) =>
        if e.Some? {
          ok := LowerExpr(e.value);
          if !ok { return; }
          PushStmt(M.Store(0));
        }
        SetTer(currentBlock, M.Goto(1));
        currentBlock := NewBlockId();
        return true;
      case Break(id) =>
        SetTer(currentBlock, M.Goto(loopExitBlocks[cx.re.stmts[id].id]));
        currentBlock := NewBlockId();
        return true;
      case Assign(_, subject, e) =>
        if !subject.Ident? { return false; }
        var local := 0;
        match cx.re.exprs[subject.id] {
          case ToFn(_) => return false;
          case ToParam(i) => local := i + 1;
          case ToLet(l) => local := letLocals[l];
        }
        ok := LowerExpr(e);
        if !ok { return; }
        PushStmt(M.Store(local));
      case ExprStmt(_, e) =>
        ok := LowerExpr(e);
        if !ok { return; }
        PushStmt(M.Pop);
    }

    method LowerLoop(s: Stmt, ghost loops: set<nat>) returns (ok: bool)
      requires s.Loop?
      requires Wf(cx.params, State()) && Scoped(cx, letLocals.Keys, loops, s) && LoopsKept(loops, State(), State())
      modifies this
      ensures ok <==> Lowerable(cx, s)
      ensures ok ==> State() == Lower(cx, old(State()), s)
      decreases s, 0
    {
      ghost var g := State();
      var entry := currentBlock;
      var loop := NewBlockId();
      var exit := NewBlockId();
      SetTer(entry, M.Goto(loop));
      loopExitBlocks := loopExitBlocks[s.id := exit];
      currentBlock := loop;
      assert State() == LoopHead(g, s.id);
      LoopHeadGrows(cx.params, g, s.id);
      ok := LowerBody(s.body, loops + {s.id});
      if !ok { return; }
      SetTer(currentBlock, M.Goto(loop));
      currentBlock := exit;
    }

    method LowerWhile(s: Stmt, ghost loops: set<nat>) returns (ok: bool)
      requires s.While?
      requires Wf(cx.params, State()) && Scoped(cx, letLocals.Keys, loops, s) && LoopsKept(loops, State(), State())
      modifies this
      ensures ok <==> Lowerable(cx, s)
      ensures ok ==> State() == Lower(cx, old(State()), s)
      decreases s, 0
    {
      hide Code, LowerBlock, Grew, ScopedExpr, LowerableExpr;
      ghost var g := State();
      var entry := currentBlock;
      var cond := NewBlockId();
      currentBlock := cond;
      ok := LowerExpr(s.cond);
      if !ok { return; }
      var condExit := currentBlock;
      SetTer(entry, M.Goto(cond));
      var loop := NewBlockId();
      var exit := NewBlockId();
      SetTer(condExit, M.If(loop, exit));
      loopExitBlocks := loopExitBlocks[s.id := exit];
      currentBlock := loop;
      assert State() == WhileHead(cx, g, s.id, s.cond);
      WhileHeadGrows(cx, g, s.id, s.cond);
      ok := LowerBody(s.body, loops + {s.id});
      if !ok { return; }
      SetTer(currentBlock, M.Goto(cond));
      currentBlock := exit;
    }

    method LowerIf(s: Stmt, ghost loops: set<nat>) returns (ok: bool)
      requires s.If?
      requires Wf(cx.params, State()) && Scoped(cx, letLocals.Keys, loops, s) && LoopsKept(loops, State(), State())
      modifies this
      ensures ok <==> Lowerable(cx, s)
      ensures ok ==> State() == Lower(cx, old(State()), s)
      decreases s, 0
    {
      ghost var g := State();
      ok := LowerExpr(s.cond);
      if !ok { return; }
      var entry := currentBlock;
      var truthy := NewBlockId();
      currentBlock := truthy;
      IfHeadGrows(cx, g, s.cond);
      LowerBlockGrows(cx, State(), s.truthy, loops);
      ok := LowerBody(s.truthy, loops);
      if !ok { return; }
      if s.falsy.Some? {
        ok := LowerElse(s.falsy.value, entry, truthy, loops);
      } else {
        JoinThen(entry, truthy);
      }
    }

    /** The branch without an else: both ways meet in a new block. */
    method JoinThen(entry: nat, truthy: nat)
      requires entry < |blocks| && currentBlock < |blocks|
      modifies this
      ensures State() == IfTail(old(State()), entry, truthy)
    {
      var truthyExit := currentBlock;
      var exit := NewBlockId();
      SetTer(truthyExit, M.Goto(exit));
      SetTer(entry, M.If(truthy, exit));
      currentBlock := exit;
    }

    method LowerElse(b: Block, entry: nat, truthy: nat, ghost loops: set<nat>) returns (ok: bool)
      requires Wf(cx.params, State()) && ScopedBlock(cx, letLocals.Keys, loops, b) && LoopsKept(loops, State(), State())
      requires entry < |blocks|
      modifies this
      ensures ok <==> LowerableBlock(cx, b)
      ensures var g := old(State());
        ok ==> State() == IfElseTail(LowerBlock(cx, Fresh(g), b), entry, truthy, g.cur, |g.blocks|)
      decreases b, 1
    {
      JumpGrows(cx.params, State(), 0);
      var truthyExit := currentBlock;
      var falsy := NewBlockId();
      currentBlock := falsy;
      ok := LowerBody(b, loops);
      if !ok { return; }
      var falsyExit := currentBlock;
      var exit := NewBlockId();
      SetTer(truthyExit, M.Goto(exit));
      SetTer(falsyExit, M.Goto(exit));
      SetTer(entry, M.If(truthy, falsy));
      currentBlock := exit;
    }

    method LowerBody(b: Block, ghost loops: set<nat>) returns (ok: bool)
      requires Wf(cx.params, State()) && ScopedBlock(cx, letLocals.Keys, loops, b) && LoopsKept(loops, State(), State())
      modifies this
      ensures ok <==> LowerableBlock(cx, b)
      ensures ok ==> State() == LowerBlock(cx, old(State()), b)
      decreases b, 0
    {
      var rest := b;
      while rest.Cons?
        invariant rest == b || rest < b
        invariant Wf(cx.params, State()) && ScopedBlock(cx, letLocals.Keys, loops, rest)
        invariant LoopsKept(loops, State(), State())
        invariant LowerableBlock(cx, rest) <==> LowerableBlock(cx, b)
        invariant LowerBlock(cx, State(), rest) == LowerBlock(cx, old(State()), b)
        decreases rest
      {
        LowerGrows(cx, State(), rest.head, loops);
        ok := LowerStmt(rest.head, loops);
        if !ok { return; }
        rest := rest.tail;
      }
      return true;
    }

    /** Lower a whole function body, or give up exactly when some construct has no lowering. */
    method Generate(body: Block) returns (fn: Option<M.Fn>)
      requires State() == Gen([], 0, 0, map[], map[]) && ScopedBlock(cx, {}, {}, body)
      modifies this
      ensures fn.None? <==> !LowerableBlock(cx, body)
      ensures fn.Some? ==> fn.value == LowerFn(cx, body)
    {
      var returnLocal := NewLocal();
      for i := 0 to cx.params
        invariant State() == Gen([], 0, i + 1, map[], map[])
      {
        var param := NewLocal();
      }
      var entry := NewBlockId();
      var exit := NewBlockId();
      currentBlock := entry;
      assert State() == Start(cx.params);
      assert letLocals.Keys == {};
      var ok := LowerBody(body, {});
      if !ok { return None; }
      SetTer(currentBlock, M.Goto(exit));
      SetTer(exit, M.Return);
      return Some(M.Fn(cx.params, localIds, blocks, entry, exit));
    }
  }
}
