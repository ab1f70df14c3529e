/** Name resolution: what the resolver writes into its tables, and what that means for lowering. */
module ResolverSpec {
  import opened Values
  import opened Ast
  import opened MirGen

  /** What is in scope, innermost last.  The later of two bindings of a name hides the earlier. */
  datatype Binding = Binding(name: string, r: Resolve)
  type Scope = seq<Binding>

  function Find(scope: Scope, name: string): Option<Resolve> {
    if scope == [] then None
    else if scope[|scope| - 1].name == name then Some(scope[|scope| - 1].r)
    else Find(scope[..|scope| - 1], name)
  }

  function ScopeAfter(scope: Scope, s: Stmt): Scope {
    if s.Let? then scope + [Binding(s.name, ToLet(s.id))] else scope
  }

  // ---------- The tables ----------

  /** None is an exception: an undefined name, a `break` outside a loop, or `not` and unary `-`. */
  function ResolveExpr(e: Expr, scope: Scope, re: Resols): Option<Resols> {
    match e
    case Ident(id, name) =>
      var r := Find(scope, name);
      if r.None? then None else Some(re.(exprs := re.exprs[id := r.value]))
    case Int(_, _) => Some(re)
    case Str(_, _) => Some(re)
    case Call(_, callee, args) =>
      (match ResolveExpr(callee, scope, re)
       case None => None
       case Some(re1) => ResolveArgs(args, scope, re1))
    case Not(_, _) => None
    case Negate(_, _) => None
    case Binary(_, _, left, right) =>
      match ResolveExpr(left, scope, re)
      case None => None
      case Some(re1) => ResolveExpr(right, scope, re1)
  }

  function ResolveArgs(es: List<Expr>, scope: Scope, re: Resols): Option<Resols> {
    match es
    case Nil => Some(re)
    case Cons(e, rest) =>
      match ResolveExpr(e, scope, re)
      case None => None
      case Some(re1) => ResolveArgs(rest, scope, re1)
  }

  function ResolveOpt(e: Option<Expr>, scope: Scope, re: Resols): Option<Resols> {
    if e.None? then Some(re) else ResolveExpr(e.value, scope, re)
  }

  /** A `let` is in scope from its own initialiser on. */
  function ResolveStmt(s: Stmt, scope: Scope, loops: seq<nat>, re: Resols): Option<Resols> {
    match s
    case Let(_, _, init) => ResolveOpt(init, ScopeAfter(scope, s), re)
    case Loop(id, body) => ResolveBlock(body, scope, loops + [id], re)
    case While(id, cond, body) =>
      (match ResolveExpr(cond, scope, re)
       case None => None
       case Some(re1) => ResolveBlock(body, scope, loops + [id], re1))
    case If(_, cond, truthy, falsy) =>
      (match ResolveExpr(cond, scope, re)
       case None => None
       case Some(re1) =>
         match ResolveBlock(truthy, scope, loops, re1)
         case None => None
         case Some(re2) => if falsy.None? then Some(re2) else ResolveBlock(falsy.value, scope, loops, re2))
    case Return(_, e) => ResolveOpt(e, scope, re)
    case Break(id) =>
      if loops == [] then None else Some(re.(stmts := re.stmts[id := ToLoop(loops[|loops| - 1])]))
    case Assign(_, subject, e) =>
      (match ResolveExpr(subject, scope, re)
       case None => None
       case Some(re1) => ResolveExpr(e, scope, re1))
    case ExprStmt(_, e) => ResolveExpr(e, scope, re)
  }

  function ResolveBlock(b: Block, scope: Scope, loops: seq<nat>, re: Resols): Option<Resols> {
    match b
    case Nil => Some(re)
    case Cons(s, rest) =>
      match ResolveStmt(s, scope, loops, re)
      case None => None
      case Some(re1) => ResolveBlock(rest, ScopeAfter(scope, s), loops, re1)
  }

  // ---------- Ids ----------

  function ExprIds(e: Expr): set<nat> {
    match e
    case Call(id, callee, args) => {id} + ExprIds(callee) + ArgsIds(args)
    case Not(id, operand) => {id} + ExprIds(operand)
    case Negate(id, operand) => {id} + ExprIds(operand)
    case Binary(id, _, left, right) => {id} + ExprIds(left) + ExprIds(right)
    case _ => {e.id}
  }

  function ArgsIds(es: List<Expr>): set<nat> {
    match es
    case Nil => {}
    case Cons(e, rest) => ExprIds(e) + ArgsIds(rest)
  }

  /** No expression id is used twice. */
  predicate UniqueExpr(e: Expr) {
    match e
    case Call(_, callee, args) => UniqueExpr(callee) && UniqueArgs(args) && ExprIds(callee) !! ArgsIds(args)
    case Not(_, operand) => UniqueExpr(operand)
    case Negate(_, operand) => UniqueExpr(operand)
    case Binary(_, _, left, right) => UniqueExpr(left) && UniqueExpr(right) && ExprIds(left) !! ExprIds(right)
    case _ => true
  }

  predicate UniqueArgs(es: List<Expr>) {
    match es
    case Nil => true
    case Cons(e, rest) => UniqueExpr(e) && UniqueArgs(rest) && ExprIds(e) !! ArgsIds(rest)
  }

  function OptIds(e: Option<Expr>): set<nat> {
    if e.None? then {} else ExprIds(e.value)
  }

  predicate UniqueOpt(e: Option<Expr>) {
    e.None? || UniqueExpr(e.value)
  }

  /** Statement ids at any depth. */
  function StmtIds(s: Stmt): set<nat> {
    match s
    case Loop(id, body) => {id} + BlockIds(body)
    case While(id, _, body) => {id} + BlockIds(body)
    case If(id, _, truthy, falsy) => {id} + BlockIds(truthy) + (if falsy.None? then {} else BlockIds(falsy.value))
    case _ => {s.id}
  }

  function BlockIds(b: Block): set<nat> {
    match b
    case Nil => {}
    case Cons(s, rest) => StmtIds(s) + BlockIds(rest)
  }

  /** Expression ids at any depth. */
  function StmtExprs(s: Stmt): set<nat> {
    match s
    case Let(_, _, init) => OptIds(init)
    case Loop(_, body) => BlockExprs(body)
    case While(_, cond, body) => ExprIds(cond) + BlockExprs(body)
    case If(_, cond, truthy, falsy) =>
      ExprIds(cond) + BlockExprs(truthy) + (if falsy.None? then {} else BlockExprs(falsy.value))
    case Return(_, e) => OptIds(e)
    case Break(_) => {}
    case Assign(_, subject, e) => ExprIds(subject) + ExprIds(e)
    case ExprStmt(_, e) => ExprIds(e)
  }

  function BlockExprs(b: Block): set<nat> {
    match b
    case Nil => {}
    case Cons(s, rest) => StmtExprs(s) + BlockExprs(rest)
  }

  /** No id is used twice, as the parser's counters see to. */
  predicate Unique(s: Stmt) {
    match s
    case Let(_, _, init) => UniqueOpt(init)
    case Loop(id, body) => id !in BlockIds(body) && UniqueBlock(body)
    case While(id, cond, body) =>
      id !in BlockIds(body) && UniqueExpr(cond) && UniqueBlock(body) && ExprIds(cond) !! BlockExprs(body)
    case If(id, cond, truthy, falsy) =>
      && id !in BlockIds(truthy) && UniqueExpr(cond) && UniqueBlock(truthy) && ExprIds(cond) !! BlockExprs(truthy)
      && (falsy.Some? ==>
            && id !in BlockIds(falsy.value) && UniqueBlock(falsy.value)
            && ExprIds(cond) !! BlockExprs(falsy.value)
            && BlockIds(truthy) !! BlockIds(falsy.value) && BlockExprs(truthy) !! BlockExprs(falsy.value))
    case Return(_, e) => UniqueOpt(e)
    case Break(_) => true
    case Assign(_, subject, e) => UniqueExpr(subject) && UniqueExpr(e) && ExprIds(subject) !! ExprIds(e)
    case ExprStmt(_, e) => UniqueExpr(e)
  }

  predicate UniqueBlock(b: Block) {
    match b
    case Nil => true
    case Cons(s, rest) =>
      Unique(s) && UniqueBlock(rest) && StmtIds(s) !! BlockIds(rest) && StmtExprs(s) !! BlockExprs(rest)
  }

  // ---------- What the tables say ----------

  /** Every name of the expression leads to its innermost binding. */
  predicate ResolvedExpr(re: Resols, scope: Scope, e: Expr) {
    match e
    case Ident(id, name) => Find(scope, name).Some? && id in re.exprs && re.exprs[id] == Find(scope, name).value
    case Int(_, _) => true
    case Str(_, _) => true
    case Call(_, callee, args) => ResolvedExpr(re, scope, callee) && ResolvedArgs(re, scope, args)
    case Not(_, _) => false
    case Negate(_, _) => false
    case Binary(_, _, left, right) => ResolvedExpr(re, scope, left) && ResolvedExpr(re, scope, right)
  }

  predicate ResolvedArgs(re: Resols, scope: Scope, es: List<Expr>) {
    match es
    case Nil => true
    case Cons(e, rest) => ResolvedExpr(re, scope, e) && ResolvedArgs(re, scope, rest)
  }

  predicate ResolvedOpt(re: Resols, scope: Scope, e: Option<Expr>) {
    e.None? || ResolvedExpr(re, scope, e.value)
  }

  /** And every `break` leads to the innermost loop. */
  predicate Resolved(re: Resols, scope: Scope, loops: seq<nat>, s: Stmt)
    decreases s
  {
    match s
    case Let(_, _, init) => ResolvedOpt(re, ScopeAfter(scope, s), init)
    case Loop(id, body) => ResolvedBlock(re, scope, loops + [id], body)
    case While(id, cond, body) => ResolvedExpr(re, scope, cond) && ResolvedBlock(re, scope, loops + [id], body)
    case If(_, cond, truthy, falsy) =>
      && ResolvedExpr(re, scope, cond) && ResolvedBlock(re, scope, loops, truthy)
      && (falsy.Some? ==> ResolvedBlock(re, scope, loops, falsy.value))
    case Return(_, e) => ResolvedOpt(re, scope, e)
    case Break(id) => loops != [] && id in re.stmts && re.stmts[id] == ToLoop(loops[|loops| - 1])
    case Assign(_, subject, e) => ResolvedExpr(re, scope, subject) && ResolvedExpr(re, scope, e)
    case ExprStmt(_, e) => ResolvedExpr(re, scope, e)
  }

  predicate ResolvedBlock(re: Resols, scope: Scope, loops: seq<nat>, b: Block)
    decreases b
  {
    match b
    case Nil => true
    case Cons(s, rest) => Resolved(re, scope, loops, s) && ResolvedBlock(re, ScopeAfter(scope, s), loops, rest)
  }

  // ---------- The resolver writes what it should ----------

  /** Two tables agree on some statement ids and some expression ids. */
  ghost predicate Agree(a: Resols, b: Resols, stmts: set<nat>, exprs: set<nat>) {
    && (forall id :: id in stmts ==>
        (id in a.stmts <==> id in b.stmts) && (id in a.stmts ==> a.stmts[id] == b.stmts[id]))
    && (forall id :: id in exprs ==>
        (id in a.exprs <==> id in b.exprs) && (id in a.exprs ==> a.exprs[id] == b.exprs[id]))
  }

  /** Outside of some ids the tables are the same. */
  ghost predicate Only(a: Resols, b: Resols, stmts: set<nat>, exprs: set<nat>) {
    && (forall id :: id !in stmts ==>
        (id in a.stmts <==> id in b.stmts) && (id in a.stmts ==> a.stmts[id] == b.stmts[id]))
    && (forall id :: id !in exprs ==>
        (id in a.exprs <==> id in b.exprs) && (id in a.exprs ==> a.exprs[id] == b.exprs[id]))
  }

  /** What was written before is still there if the later writes go elsewhere. */
  lemma StillAgree(a: Resols, b: Resols, final: Resols, s1: set<nat>, e1: set<nat>, s2: set<nat>, e2: set<nat>)
    requires Only(a, b, s2, e2) && s1 !! s2 && e1 !! e2 && Agree(b, final, s1, e1)
    ensures Agree(a, final, s1, e1)
  {}

  lemma {:induction false} ExprOnly(e: Expr, scope: Scope, re: Resols)
    ensures var r := ResolveExpr(e, scope, re); r.Some? ==> Only(re, r.value, {}, ExprIds(e))
    decreases e
  {
    match e
    case Call(_, callee, args) =>
      ExprOnly(callee, scope, re);
      if ResolveExpr(callee, scope, re).Some? {
        ArgsOnly(args, scope, ResolveExpr(callee, scope, re).value);
      }
    case Binary(_, _, left, right) =>
      ExprOnly(left, scope, re);
      if ResolveExpr(left, scope, re).Some? {
        ExprOnly(right, scope, ResolveExpr(left, scope, re).value);
      }
    case _ =>
  }

  lemma {:induction false} ArgsOnly(es: List<Expr>, scope: Scope, re: Resols)
    ensures var r := ResolveArgs(es, scope, re); r.Some? ==> Only(re, r.value, {}, ArgsIds(es))
    decreases es
  {
    if es.Cons? {
      ExprOnly(es.head, scope, re);
      if ResolveExpr(es.head, scope, re).Some? {
        ArgsOnly(es.tail, scope, ResolveExpr(es.head, scope, re).value);
      }
    }
  }

  lemma {:induction false} ExprSound(e: Expr, scope: Scope, re: Resols, final: Resols)
    requires UniqueExpr(e) && ResolveExpr(e, scope, re).Some?
    requires Agree(ResolveExpr(e, scope, re).value, final, {}, ExprIds(e))
    ensures ResolvedExpr(final, scope, e)
    decreases e
  {
    match e
    case Call(_, callee, args) =>
      var re1 := ResolveExpr(callee, scope, re).value;
      ArgsOnly(args, scope, re1);
      ExprSound(callee, scope, re, final);
      ArgsSound(args, scope, re1, final);
    case Binary(_, _, left, right) =>
      var re1 := ResolveExpr(left, scope, re).value;
      ExprOnly(right, scope, re1);
      ExprSound(left, scope, re, final);
      ExprSound(right, scope, re1, final);
    case _ =>
  }

  lemma {:induction false} ArgsSound(es: List<Expr>, scope: Scope, re: Resols, final: Resols)
    requires UniqueArgs(es) && ResolveArgs(es, scope, re).Some?
    requires Agree(ResolveArgs(es, scope, re).value, final, {}, ArgsIds(es))
    ensures ResolvedArgs(final, scope, es)
    decreases es
  {
    if es.Cons? {
      var re1 := ResolveExpr(es.head, scope, re).value;
      ArgsOnly(es.tail, scope, re1);
      ExprSound(es.head, scope, re, final);
      ArgsSound(es.tail, scope, re1, final);
    }
  }

  lemma {:induction false} StmtOnly(s: Stmt, scope: Scope, loops: seq<nat>, re: Resols)
    ensures var r := ResolveStmt(s, scope, loops, re); r.Some? ==> Only(re, r.value, StmtIds(s), StmtExprs(s))
    decreases s
  {
    match s
    case Let(_, _, init) => if init.Some? { ExprOnly(init.value, ScopeAfter(scope, s), re); }
    case Loop(id, body) => BlockOnly(body, scope, loops + [id], re);
    case While(id, cond, body) =>
      ExprOnly(cond, scope, re);
      if ResolveExpr(cond, scope, re).Some? {
        BlockOnly(body, scope, loops + [id], ResolveExpr(cond, scope, re).value);
      }
    case If(_, cond, truthy, falsy) =>
      ExprOnly(cond, scope, re);
      if ResolveExpr(cond, scope, re).Some? {
        var re1 := ResolveExpr(cond, scope, re).value;
        BlockOnly(truthy, scope, loops, re1);
        if ResolveBlock(truthy, scope, loops, re1).Some? && falsy.Some? {
          BlockOnly(falsy.value, scope, loops, ResolveBlock(truthy, scope, loops, re1).value);
        }
      }
    case Return(_, e) => if e.Some? { ExprOnly(e.value, scope, re); }
    case Break(_) =>
    case Assign(_, subject, e) =>
      ExprOnly(subject, scope, re);
      if ResolveExpr(subject, scope, re).Some? {
        ExprOnly(e, scope, ResolveExpr(subject, scope, re).value);
      }
    case ExprStmt(_, e) => ExprOnly(e, scope, re);
  }

  lemma {:induction false} BlockOnly(b: Block, scope: Scope, loops: seq<nat>, re: Resols)
    ensures var r := ResolveBlock(b, scope, loops, re); r.Some? ==> Only(re, r.value, BlockIds(b), BlockExprs(b))
    decreases b
  {
    if b.Cons? {
      StmtOnly(b.head, scope, loops, re);
      if ResolveStmt(b.head, scope, loops, re).Some? {
        BlockOnly(b.tail, ScopeAfter(scope, b.head), loops, ResolveStmt(b.head, scope, loops, re).value);
      }
    }
  }

  lemma {:induction false} StmtSound(s: Stmt, scope: Scope, loops: seq<nat>, re: Resols, final: Resols)
    requires Unique(s) && ResolveStmt(s, scope, loops, re).Some?
    requires Agree(ResolveStmt(s, scope, loops, re).value, final, StmtIds(s), StmtExprs(s))
    ensures Resolved(final, scope, loops, s)
    decreases s
  {
    match s
    case Let(_, _, init) => if init.Some? { ExprSound(init.value, ScopeAfter(scope, s), re, final); }
    case Loop(id, body) => BlockSound(body, scope, loops + [id], re, final);
    case While(id, cond, body) =>
      var re1 := ResolveExpr(cond, scope, re).value;
      BlockOnly(body, scope, loops + [id], re1);
      ExprSound(cond, scope, re, final);
      BlockSound(body, scope, loops + [id], re1, final);
    case If(_, cond, truthy, falsy) => IfSound(s, scope, loops, re, final);
    case Return(_, e) => if e.Some? { ExprSound(e.value, scope, re, final); }
    case Break(_) =>
    case Assign(_, subject, e) =>
      var re1 := ResolveExpr(subject, scope, re).value;
      ExprOnly(e, scope, re1);
      ExprSound(subject, scope, re, final);
      ExprSound(e, scope, re1, final);
    case ExprStmt(_, e) => ExprSound(e, scope, re, final);
  }

  lemma {:induction false} IfSound(s: Stmt, scope: Scope, loops: seq<nat>, re: Resols, final: Resols)
    requires s.If? && Unique(s) && ResolveStmt(s, scope, loops, re).Some?
    requires Agree(ResolveStmt(s, scope, loops, re).value, final, StmtIds(s), StmtExprs(s))
    ensures Resolved(final, scope, loops, s)
    decreases s, 0
  {
    var re1 := ResolveExpr(s.cond, scope, re).value;
    var re2 := ResolveBlock(s.truthy, scope, loops, re1).value;
    BlockOnly(s.truthy, scope, loops, re1);
    if s.falsy.Some? {
      BlockOnly(s.falsy.value, scope, loops, re2);
      var re3 := ResolveBlock(s.falsy.value, scope, loops, re2).value;
      StillAgree(re2, re3, final, BlockIds(s.truthy), BlockExprs(s.truthy), BlockIds(s.falsy.value),
                 BlockExprs(s.falsy.value));
      StillAgree(re2, re3, final, {}, ExprIds(s.cond), BlockIds(s.falsy.value), BlockExprs(s.falsy.value));
      BlockSound(s.falsy.value, scope, loops, re2, final);
    }
    StillAgree(re1, re2, final, {}, ExprIds(s.cond), BlockIds(s.truthy), BlockExprs(s.truthy));
    ExprSound(s.cond, scope, re, final);
    BlockSound(s.truthy, scope, loops, re1, final);
  }

  lemma {:induction false} BlockSound(b: Block, scope: Scope, loops: seq<nat>, re: Resols, final: Resols)
    requires UniqueBlock(b) && ResolveBlock(b, scope, loops, re).Some?
    requires Agree(ResolveBlock(b, scope, loops, re).value, final, BlockIds(b), BlockExprs(b))
    ensures ResolvedBlock(final, scope, loops, b)
    decreases b
  {
    if b.Cons? {
      var re1 := ResolveStmt(b.head, scope, loops, re).value;
      BlockOnly(b.tail, ScopeAfter(scope, b.head), loops, re1);
      StillAgree(re1, ResolveBlock(b, scope, loops, re).value, final, StmtIds(b.head), StmtExprs(b.head),
                 BlockIds(b.tail), BlockExprs(b.tail));
      StmtSound(b.head, scope, loops, re, final);
      BlockSound(b.tail, ScopeAfter(scope, b.head), loops, re1, final);
    }
  }

  /** If the resolver accepts a body, its tables lead every name to the innermost binding and every
    * `break` to the innermost loop. */
  lemma {:induction false} ResolverSound(b: Block, scope: Scope, re: Resols)
    requires UniqueBlock(b) && ResolveBlock(b, scope, [], re).Some?
    ensures ResolvedBlock(ResolveBlock(b, scope, [], re).value, scope, [], b)
  {
    BlockSound(b, scope, [], re, ResolveBlock(b, scope, [], re).value);
  }

  // ---------- What lowering needs ----------

  /** The scope mentions parameters, declared variables and functions only. */
  ghost predicate ScopeOf(scope: Scope, params: nat, lets: set<nat>) {
    forall k :: 0 <= k < |scope| ==>
      match scope[k].r
      case ToFn(_) => true
      case ToParam(i) => i < params
      case ToLet(id) => id in lets
      case ToLoop(_) => false
  }

  lemma {:induction false} FindIn(scope: Scope, name: string) returns (k: nat)
    requires Find(scope, name).Some?
    ensures k < |scope| && scope[k].name == name && scope[k].r == Find(scope, name).value
    ensures forall j :: k < j < |scope| ==> scope[j].name != name
    decreases |scope|
  {
    k := |scope| - 1;
    if scope[k].name != name {
      k := FindIn(scope[..k], name);
    }
  }

  lemma {:induction false} ExprScoped(cx: Cx, scope: Scope, lets: set<nat>, e: Expr)
    requires ResolvedExpr(cx.re, scope, e) && ScopeOf(scope, cx.params, lets)
    ensures ScopedExpr(cx, lets, e)
    decreases e
  {
    match e
    case Ident(_, name) => var k := FindIn(scope, name);
    case Call(_, callee, args) =>
      ExprScoped(cx, scope, lets, callee);
      ArgsScoped(cx, scope, lets, args);
    case Binary(_, _, left, right) =>
      ExprScoped(cx, scope, lets, left);
      ExprScoped(cx, scope, lets, right);
    case _ =>
  }

  lemma {:induction false} ArgsScoped(cx: Cx, scope: Scope, lets: set<nat>, es: List<Expr>)
    requires ResolvedArgs(cx.re, scope, es) && ScopeOf(scope, cx.params, lets)
    ensures ScopedArgs(cx, lets, es)
    decreases es
  {
    if es.Cons? {
      ExprScoped(cx, scope, lets, es.head);
      ArgsScoped(cx, scope, lets, es.tail);
    }
  }

  lemma {:induction false} LetsAreIds(s: Stmt)
    ensures Lets(s) <= StmtIds(s)
    decreases s
  {
    match s
    case Loop(_, body) => BlockLetsAreIds(body);
    case While(_, _, body) => BlockLetsAreIds(body);
    case If(_, _, truthy, falsy) =>
      BlockLetsAreIds(truthy);
      if falsy.Some? { BlockLetsAreIds(falsy.value); }
    case _ =>
  }

  lemma {:induction false} BlockLetsAreIds(b: Block)
    ensures BlockLets(b) <= BlockIds(b)
    decreases b
  {
    if b.Cons? {
      LetsAreIds(b.head);
      BlockLetsAreIds(b.tail);
    }
  }

  ghost predicate LoopsIn(loops: seq<nat>, s: set<nat>) {
    forall k :: 0 <= k < |loops| ==> loops[k] in s
  }

  /** Once names are resolved, every lookup that lowering makes is defined, and `break` leaves a loop
    * it is in. */
  lemma {:induction false} StmtScoped(cx: Cx, scope: Scope, loops: seq<nat>, lets: set<nat>, inside: set<nat>, s: Stmt)
    requires Resolved(cx.re, scope, loops, s) && Unique(s) && ScopeOf(scope, cx.params, lets) && LoopsIn(loops, inside)
    requires lets !! StmtIds(s) && inside !! StmtIds(s)
    ensures Scoped(cx, lets, inside, s) && ScopeOf(ScopeAfter(scope, s), cx.params, lets + Lets(s))
    decreases s
  {
    match s
    case Let(id, _, init) => if init.Some? { ExprScoped(cx, ScopeAfter(scope, s), lets + {id}, init.value); }
    case Loop(id, body) => BlockScoped(cx, scope, loops + [id], lets, inside + {id}, body);
    case While(id, cond, body) =>
      ExprScoped(cx, scope, lets, cond);
      BlockScoped(cx, scope, loops + [id], lets, inside + {id}, body);
    case If(_, cond, truthy, falsy) =>
      ExprScoped(cx, scope, lets, cond);
      BlockScoped(cx, scope, loops, lets, inside, truthy);
      if falsy.Some? {
        BlockLetsAreIds(truthy);
        BlockScoped(cx, scope, loops, lets + BlockLets(truthy), inside, falsy.value);
      }
    case Return(_, e) => if e.Some? { ExprScoped(cx, scope, lets, e.value); }
    case Break(_) =>
    case Assign(_, subject, e) =>
      ExprScoped(cx, scope, lets, subject);
      ExprScoped(cx, scope, lets, e);
    case ExprStmt(_, e) => ExprScoped(cx, scope, lets, e);
  }

  lemma {:induction false} BlockScoped(cx: Cx, scope: Scope, loops: seq<nat>, lets: set<nat>, inside: set<nat>,
                                       b: Block)
    requires ResolvedBlock(cx.re, scope, loops, b) && UniqueBlock(b) && ScopeOf(scope, cx.params, lets)
    requires LoopsIn(loops, inside)
    requires lets !! BlockIds(b) && inside !! BlockIds(b)
    ensures ScopedBlock(cx, lets, inside, b)
    decreases b
  {
    if b.Cons? {
      StmtScoped(cx, scope, loops, lets, inside, b.head);
      LetsAreIds(b.head);
      BlockScoped(cx, ScopeAfter(scope, b.head), loops, lets + Lets(b.head), inside, b.tail);
    }
  }

  // ---------- Functions ----------

  function FnScope(p: Program, n: nat): Scope
    requires n <= |p|
  {
    if n == 0 then [] else FnScope(p, n - 1) + [Binding(p[n - 1].name, ToFn(n - 1))]
  }

  function ParamScope(params: seq<string>, n: nat): (s: Scope)
    requires n <= |params|
    ensures |s| == n && forall i :: 0 <= i < n ==> s[i] == Binding(params[i], ToParam(i))
  {
    if n == 0 then [] else ParamScope(params, n - 1) + [Binding(params[n - 1], ToParam(n - 1))]
  }

  lemma FnScopeAt(p: Program, n: nat)
    requires n <= |p|
    ensures |FnScope(p, n)| == n && forall k :: 0 <= k < n ==> FnScope(p, n)[k] == Binding(p[k].name, ToFn(k))
  {}

  /** All functions of the program are in scope everywhere, hidden by parameters of the same name. */
  function BodyScope(p: Program, f: FnDecl): Scope {
    FnScope(p, |p|) + ParamScope(f.params, |f.params|)
  }

  /** The resolver's tables for one function. */
  function ResolveFn(p: Program, f: FnDecl): Option<Resols> {
    ResolveBlock(f.body, BodyScope(p, f), [], Resols(map[], map[]))
  }

  /** A function the resolver accepts is scoped as lowering needs it. */
  lemma {:induction false} ResolveFnScoped(p: Program, f: FnDecl)
    requires UniqueBlock(f.body) && ResolveFn(p, f).Some?
    ensures ScopedBlock(Cx(ResolveFn(p, f).value, |f.params|), {}, {}, f.body)
  {
    var scope := BodyScope(p, f);
    ResolverSound(f.body, scope, Resols(map[], map[]));
    FnScopeAt(p, |p|);
    BlockScoped(Cx(ResolveFn(p, f).value, |f.params|), scope, [], {}, {}, f.body);
  }
}
