/** Lowering a function body to basic blocks: what `FnMirGen` computes, as functions over the
  * generator's state, and the conditions under which it does. */
module MirGen {
  import opened Values
  import opened Ast
  import M = Mir

  /** The context of one function: the resolver's tables and the number of parameters. */
  datatype Cx = Cx(re: Resols, params: nat)

  /** The generator's fields.  Block ids are positions in `blocks`; `lets` and `exits` are
    * `letLocals` and `loopExitBlocks`.  Parameter k is local k + 1, the result is local 0, and
    * block 1 is the return block. */
  datatype Gen = Gen(blocks: seq<M.Block>, cur: nat, locals: nat, lets: map<nat, nat>, exits: map<nat, nat>)

  // ---------- What the resolver and the parser promise ----------

  predicate ScopedExpr(cx: Cx, lets: set<nat>, e: Expr) {
    match e
    case Ident(id, _) =>
      id in cx.re.exprs &&
      (match cx.re.exprs[id]
       case ToFn(_) => true
       case ToParam(i) => i < cx.params
       case ToLet(l) => l in lets
       case ToLoop(_) => false)
    case Int(_, _) => true
    case Str(_, _) => true
    case Call(_, callee, args) => ScopedArgs(cx, lets, args) && ScopedExpr(cx, lets, callee)
    case Not(_, operand) => ScopedExpr(cx, lets, operand)
    case Negate(_, operand) => ScopedExpr(cx, lets, operand)
    case Binary(_, _, left, right) => ScopedExpr(cx, lets, left) && ScopedExpr(cx, lets, right)
  }

  predicate ScopedArgs(cx: Cx, lets: set<nat>, es: List<Expr>) {
    match es
    case Nil => true
    case Cons(e, rest) => ScopedExpr(cx, lets, e) && ScopedArgs(cx, lets, rest)
  }

  /** Every name leads to a slot already declared, every `break` to an enclosing loop, and no
    * statement id is used for two declarations.  `lets` are the declarations so far. */
  predicate Scoped(cx: Cx, lets: set<nat>, loops: set<nat>, s: Stmt)
    decreases s
  {
    match s
    case Let(id, _, init) => id !in lets && (init.Some? ==> ScopedExpr(cx, lets + {id}, init.value))
    case Loop(id, body) => id !in loops && ScopedBlock(cx, lets, loops + {id}, body)
    case While(id, cond, body) =>
      id !in loops && ScopedExpr(cx, lets, cond) && ScopedBlock(cx, lets, loops + {id}, body)
    case If(_, cond, truthy, falsy) =>
      && ScopedExpr(cx, lets, cond)
      && ScopedBlock(cx, lets, loops, truthy)
      && (falsy.Some? ==> ScopedBlock(cx, lets + BlockLets(truthy), loops, falsy.value))
    case Return(_, e) => e.Some? ==> ScopedExpr(cx, lets, e.value)
    case Break(id) => id in cx.re.stmts && cx.re.stmts[id].ToLoop? && cx.re.stmts[id].id in loops
    case Assign(_, subject, e) => ScopedExpr(cx, lets, subject) && ScopedExpr(cx, lets, e)
    case ExprStmt(_, e) => ScopedExpr(cx, lets, e)
  }

  predicate ScopedBlock(cx: Cx, lets: set<nat>, loops: set<nat>, b: Block)
    decreases b
  {
    match b
    case Nil => true
    case Cons(s, rest) => Scoped(cx, lets, loops, s) && ScopedBlock(cx, lets + Lets(s), loops, rest)
  }

  // ---------- What lowering itself refuses ----------

  predicate LowerableExpr(e: Expr) {
    match e
    case Call(_, callee, args) => LowerableArgs(args) && LowerableExpr(callee)
    case Not(_, _) => false
    case Negate(_, _) => false
    case Binary(_, op, left, right) => LowerableExpr(left) && LowerableExpr(right) && op.Bin?
    case _ => true
  }

  predicate LowerableArgs(es: List<Expr>) {
    match es
    case Nil => true
    case Cons(e, rest) => LowerableExpr(e) && LowerableArgs(rest)
  }

  /** Only parameters and `let` variables can be assigned to. */
  predicate Assignable(cx: Cx, subject: Expr) {
    subject.Ident? && subject.id in cx.re.exprs &&
    (cx.re.exprs[subject.id].ToParam? || cx.re.exprs[subject.id].ToLet?)
  }

  predicate Lowerable(cx: Cx, s: Stmt) {
    match s
    case Let(_, _, init) => init.Some? ==> LowerableExpr(init.value)
    case Loop(_, body) => LowerableBlock(cx, body)
    case While(_, cond, body) => LowerableExpr(cond) && LowerableBlock(cx, body)
    case If(_, cond, truthy, falsy) =>
      && LowerableExpr(cond)
      && LowerableBlock(cx, truthy)
      && (falsy.Some? ==> LowerableBlock(cx, falsy.value))
    case Return(_, e) => e.Some? ==> LowerableExpr(e.value)
    case Break(_) => true
    case Assign(_, subject, e) => Assignable(cx, subject) && LowerableExpr(e)
    case ExprStmt(_, e) => LowerableExpr(e)
  }

  predicate LowerableBlock(cx: Cx, b: Block) {
    match b
    case Nil => true
    case Cons(s, rest) => Lowerable(cx, s) && LowerableBlock(cx, rest)
  }

  // ---------- Expressions ----------

  /** The local a resolved name lives in (0 where there is none). */
  function LocalOf(re: Resols, lets: map<nat, nat>, id: nat): nat {
    if id !in re.exprs then 0 else
    match re.exprs[id]
    case ToParam(i) => i + 1
    case ToLet(l) => if l in lets then lets[l] else 0
    case _ => 0
  }

  function IdentCode(re: Resols, lets: map<nat, nat>, id: nat): M.Stmt {
    if id in re.exprs && re.exprs[id].ToFn? then M.Push(M.FnVal(re.exprs[id].f))
    else M.Load(LocalOf(re, lets, id))
  }

  /** The stack code of an expression; for the operators that cannot be lowered, nothing. */
  function Code(re: Resols, lets: map<nat, nat>, e: Expr): seq<M.Stmt> {
    match e
    case Ident(id, _) => [IdentCode(re, lets, id)]
    case Int(_, n) => [M.Push(M.IntVal(n))]
    case Str(_, s) => [M.Push(M.StrVal(s))]
    case Call(_, callee, args) =>
      ArgsCode(re, lets, args) + Code(re, lets, callee) + [M.CallFn(Length(args))]
    case Binary(_, op, left, right) =>
      Code(re, lets, left) + Code(re, lets, right) + (if op.Bin? then [M.Binary(op.op)] else [])
    case Not(_, _) => []
    case Negate(_, _) => []
  }

  function ArgsCode(re: Resols, lets: map<nat, nat>, es: List<Expr>): seq<M.Stmt> {
    match es
    case Nil => []
    case Cons(e, rest) => Code(re, lets, e) + ArgsCode(re, lets, rest)
  }

  // ---------- Statements ----------

  function NewBlock(g: Gen): (r: Gen)
    ensures |r.blocks| == |g.blocks| + 1 && r.cur == g.cur
  {
    g.(blocks := g.blocks + [M.Block(|g.blocks|, [], M.Unset)])
  }

  function Emit(g: Gen, ss: seq<M.Stmt>): (r: Gen)
    requires g.cur < |g.blocks|
    ensures |r.blocks| == |g.blocks| && r.cur == g.cur
  {
    var b := g.blocks[g.cur];
    g.(blocks := g.blocks[g.cur := b.(stmts := b.stmts + ss)])
  }

  function Close(g: Gen, b: nat, ter: M.Ter): (r: Gen)
    requires b < |g.blocks|
    ensures |r.blocks| == |g.blocks| && r.cur == g.cur
  {
    g.(blocks := g.blocks[b := g.blocks[b].(ter := ter)])
  }

  function NewLet(g: Gen, id: nat): Gen {
    g.(locals := g.locals + 1, lets := g.lets[id := g.locals])
  }

  function EmitExpr(cx: Cx, g: Gen, e: Expr): (r: Gen)
    requires g.cur < |g.blocks|
    ensures |r.blocks| == |g.blocks| && r.cur == g.cur
  {
    Emit(g, Code(cx.re, g.lets, e))
  }

  /** Up to the body of a `loop`: block `top` is the body, `top + 1` what follows. */
  function LoopHead(g: Gen, id: nat): (r: Gen)
    requires g.cur < |g.blocks|
    ensures |r.blocks| == |g.blocks| + 2 && r.cur == |g.blocks|
  {
    var top := |g.blocks|;
    var g1 := Close(NewBlock(NewBlock(g)), g.cur, M.Goto(top));
    g1.(cur := top, exits := g1.exits[id := top + 1])
  }

  /** Up to the body of a `while`: blocks `top` (condition), `top + 1` (body), `top + 2`. */
  function WhileHead(cx: Cx, g: Gen, id: nat, cond: Expr): (r: Gen)
    requires g.cur < |g.blocks|
    ensures |r.blocks| == |g.blocks| + 3 && r.cur == |g.blocks| + 1
  {
    var top := |g.blocks|;
    var g1 := EmitExpr(cx, NewBlock(g).(cur := top), cond);
    var g2 := NewBlock(NewBlock(Close(g1, g.cur, M.Goto(top))));
    var g3 := Close(g2, top, M.If(top + 1, top + 2));
    g3.(cur := top + 1, exits := g3.exits[id := top + 2])
  }

  /** Jump back to `top` and go on in `exit`. */
  function LoopTail(g: Gen, top: nat, exit: nat): (r: Gen)
    requires g.cur < |g.blocks|
    ensures |r.blocks| == |g.blocks| && r.cur == exit
  {
    Close(g, g.cur, M.Goto(top)).(cur := exit)
  }

  /** Up to the truthy branch, which is the new block. */
  function IfHead(cx: Cx, g: Gen, cond: Expr): (r: Gen)
    requires g.cur < |g.blocks|
    ensures |r.blocks| == |g.blocks| + 1 && r.cur == |g.blocks|
  {
    NewBlock(EmitExpr(cx, g, cond)).(cur := |g.blocks|)
  }

  /** Start a new block and go on in it. */
  function Fresh(g: Gen): (r: Gen)
    ensures |r.blocks| == |g.blocks| + 1 && r.cur == |g.blocks|
  {
    NewBlock(g).(cur := |g.blocks|)
  }

  /** Both branch ends jump to a new block, and `entry` branches. */
  function IfElseTail(g: Gen, entry: nat, yes: nat, yesEnd: nat, no: nat): (r: Gen)
    requires entry < |g.blocks| && yesEnd < |g.blocks| && g.cur < |g.blocks|
    ensures |r.blocks| == |g.blocks| + 1 && r.cur == |g.blocks|
  {
    var exit := |g.blocks|;
    var g1 := Close(Close(NewBlock(g), yesEnd, M.Goto(exit)), g.cur, M.Goto(exit));
    Close(g1, entry, M.If(yes, no)).(cur := exit)
  }

  function IfTail(g: Gen, entry: nat, yes: nat): (r: Gen)
    requires entry < |g.blocks| && g.cur < |g.blocks|
    ensures |r.blocks| == |g.blocks| + 1 && r.cur == |g.blocks|
  {
    var exit := |g.blocks|;
    var g1 := Close(NewBlock(g), g.cur, M.Goto(exit));
    Close(g1, entry, M.If(yes, exit)).(cur := exit)
  }

  function Jump(g: Gen, target: nat): (r: Gen)
    requires g.cur < |g.blocks|
    ensures |r.blocks| == |g.blocks| + 1 && r.cur == |g.blocks|
  {
    Fresh(Close(g, g.cur, M.Goto(target)))
  }

  function BreakTarget(cx: Cx, g: Gen, id: nat): nat {
    var l := if id in cx.re.stmts && cx.re.stmts[id].ToLoop? then cx.re.stmts[id].id else 0;
    if l in g.exits then g.exits[l] else 0
  }

  function Lower(cx: Cx, g: Gen, s: Stmt): (r: Gen)
    requires g.cur < |g.blocks|
    ensures r.cur < |r.blocks| && |g.blocks| <= |r.blocks|
    decreases s
  {
    var top := |g.blocks|;
    match s
    case Let(id, _, init) =>
      var g1 := NewLet(g, id);
      if init.None? then g1 else Emit(EmitExpr(cx, g1, init.value), [M.Store(g.locals)])
    case Loop(id, body) =>
      LoopTail(LowerBlock(cx, LoopHead(g, id), body), top, top + 1)
    case While(id, cond, body) =>
      LoopTail(LowerBlock(cx, WhileHead(cx, g, id, cond), body), top, top + 2)
    case If(_, cond, truthy, falsy) =>
      var g1 := LowerBlock(cx, IfHead(cx, g, cond), truthy);
      if falsy.None? then IfTail(g1, g.cur, top)
      else IfElseTail(LowerBlock(cx, Fresh(g1), falsy.value), g.cur, top, g1.cur, |g1.blocks|)
    case Return(_, e) =>
      var g1 := if e.None? then g else Emit(EmitExpr(cx, g, e.value), [M.Store(0)]);
      Jump(g1, 1)
    case Break(id) =>
      Jump(g, BreakTarget(cx, g, id))
    case Assign(_, subject, e) =>
      var local := if subject.Ident? then LocalOf(cx.re, g.lets, subject.id) else 0;
      Emit(EmitExpr(cx, g, e), [M.Store(local)])
    case ExprStmt(_, e) =>
      Emit(EmitExpr(cx, g, e), [M.Pop])
  }

  function LowerBlock(cx: Cx, g: Gen, b: Block): (r: Gen)
    requires g.cur < |g.blocks|
    ensures r.cur < |r.blocks| && |g.blocks| <= |r.blocks|
    decreases b
  {
    match b
    case Nil => g
    case Cons(s, rest) => LowerBlock(cx, Lower(cx, g, s), rest)
  }

  /** The entry and the return block, before the body is lowered. */
  function Start(params: nat): Gen {
    Gen([M.Block(0, [], M.Unset), M.Block(1, [], M.Unset)], 0, params + 1, map[], map[])
  }

  function Finish(cx: Cx, body: Block): Gen {
    var g := LowerBlock(cx, Start(cx.params), body);
    Close(Close(g, g.cur, M.Goto(1)), 1, M.Return)
  }

  function LowerFn(cx: Cx, body: Block): M.Fn {
    var g := Finish(cx, body);
    M.Fn(cx.params, g.locals, g.blocks, 0, 1)
  }
}
