/** What a function body means by its names, and that the resolver's slots mean the same. */
module Named {
  // The environment is a stack of bindings, innermost last, that blocks push and pop as they run.

  import opened Values
  import opened Ast
  import A = AstSemantics
  import opened ResolverSpec

  /** A name and what it holds now; functions cannot be assigned to. */
  datatype Cell = Cell(name: string, v: Value, fixed: bool)
  type Env = seq<Cell>

  /** `break` leaves whatever loop is innermost as the program runs. */
  datatype Exit =
    | Normal(env: Env, w: World)
    | Broke(env: Env, w: World)
    | Left(v: Value, w: World)
    | Failed(reply: Reply)
    | OutOfFuel

  /** Where a name is bound, innermost first; |env| when it is not. */
  function Where(env: Env, name: string): (k: nat)
    ensures k <= |env| && (k < |env| ==> env[k].name == name)
    ensures forall j :: 0 <= j < |env| && env[j].name == name ==> k < |env| && j <= k
  {
    if env == [] then 0
    else if env[|env| - 1].name == name then |env| - 1
    else var k := Where(env[..|env| - 1], name); if k < |env| - 1 then k else |env|
  }

  function Eval(e: Expr, env: Env, w: World, call: Callee): A.EvalRes {
    match e
    case Ident(_, name) => if Where(env, name) == |env| then A.Fail(Stuck) else A.Val(env[Where(env, name)].v, w)
    case Int(_, n) => A.Val(Literal(n), w)
    case Str(_, s) => A.Val(StrRef(s), w)
    case Call(_, callee, args) =>
      (match EvalArgs(args, env, w, call)
       case ArgsFail(r) => A.Fail(r)
       case Vals(vs, w1) =>
         match Eval(callee, env, w1, call)
         case Fail(r) => A.Fail(r)
         case Val(f, w2) =>
           var reply := Invoke(call, f, vs, w2);
           if reply.Returned? then A.Val(reply.v, reply.w) else A.Fail(reply))
    case Binary(_, op, left, right) =>
      (match Eval(left, env, w, call)
       case Fail(r) => A.Fail(r)
       case Val(l, w1) =>
         match Eval(right, env, w1, call)
         case Fail(r) => A.Fail(r)
         case Val(r, w2) =>
           if !op.Bin? then A.Fail(Trapped) else
           match Apply(op.op, l, r) case None => A.Fail(Trapped) case Some(v) => A.Val(v, w2))
    case Not(_, _) => A.Fail(Trapped)
    case Negate(_, _) => A.Fail(Trapped)
  }

  function EvalArgs(es: List<Expr>, env: Env, w: World, call: Callee): A.ArgsRes {
    match es
    case Nil => A.Vals([], w)
    case Cons(e, rest) =>
      match Eval(e, env, w, call)
      case Fail(r) => A.ArgsFail(r)
      case Val(v, w1) =>
        match EvalArgs(rest, env, w1, call)
        case ArgsFail(r) => A.ArgsFail(r)
        case Vals(vs, w2) => A.Vals([v] + vs, w2)
  }

  /** A `let` evaluates first and binds then. */
  function Exec(s: Stmt, env: Env, w: World, call: Callee, fuel: nat): Exit
    decreases fuel, s
  {
    match s
    case Let(_, name, init) =>
      if init.None? then Normal(env + [Cell(name, Undef, false)], w) else
      (match Eval(init.value, env, w, call)
       case Fail(r) => Failed(r)
       case Val(v, w1) => Normal(env + [Cell(name, v, false)], w1))
    case Loop(_, body) =>
      if fuel == 0 then OutOfFuel else
      (match ExecScope(body, env, w, call, fuel - 1)
       case Normal(env1, w1) => Exec(s, env1, w1, call, fuel - 1)
       case Broke(env1, w1) => Normal(env1, w1)
       case out => out)
    case While(_, cond, body) =>
      if fuel == 0 then OutOfFuel else
      (match Eval(cond, env, w, call)
       case Fail(r) => Failed(r)
       case Val(v, w0) =>
         match Test(v)
         case None => Failed(Trapped)
         case Some(false) => Normal(env, w0)
         case Some(true) =>
           match ExecScope(body, env, w0, call, fuel - 1)
           case Normal(env1, w1) => Exec(s, env1, w1, call, fuel - 1)
           case Broke(env1, w1) => Normal(env1, w1)
           case out => out)
    case If(_, cond, truthy, falsy) =>
      (match Eval(cond, env, w, call)
       case Fail(r) => Failed(r)
       case Val(v, w0) =>
         match Test(v)
         case None => Failed(Trapped)
         case Some(true) => ExecScope(truthy, env, w0, call, fuel)
         case Some(false) => if falsy.None? then Normal(env, w0) else ExecScope(falsy.value, env, w0, call, fuel))
    case Return(_, e) =>
      if e.None? then Left(Undef, w) else
      (match Eval(e.value, env, w, call)
       case Fail(r) => Failed(r)
       case Val(v, w1) => Left(v, w1))
    case Break(_) => Broke(env, w)
    case Assign(_, subject, e) =>
      if !subject.Ident? then Failed(Stuck) else
      var k := Where(env, subject.name);
      if k == |env| || env[k].fixed then Failed(Stuck) else
      (match Eval(e, env, w, call)
       case Fail(r) => Failed(r)
       case Val(v, w1) => Normal(env[k := env[k].(v := v)], w1))
    case ExprStmt(_, e) =>
      match Eval(e, env, w, call)
      case Fail(r) => Failed(r)
      case Val(_, w1) => Normal(env, w1)
  }

  function ExecBlock(b: Block, env: Env, w: World, call: Callee, fuel: nat): Exit
    decreases fuel, b, 0
  {
    match b
    case Nil => Normal(env, w)
    case Cons(s, rest) =>
      match Exec(s, env, w, call, fuel)
      case Normal(env1, w1) => ExecBlock(rest, env1, w1, call, fuel)
      case out => out
  }

  /** A block's own bindings go when it ends, however it ends. */
  function ExecScope(b: Block, env: Env, w: World, call: Callee, fuel: nat): Exit
    decreases fuel, b, 1
  {
    match ExecBlock(b, env, w, call, fuel)
    case Normal(env1, w1) => Normal(Outer(env1, |env|), w1)
    case Broke(env1, w1) => Broke(Outer(env1, |env|), w1)
    case out => out
  }

  function Outer(env: Env, n: nat): Env {
    if n <= |env| then env[..n] else env
  }

  /** Functions, then parameters. */
  function FnCells(p: Program, n: nat): (cs: Env)
    requires n <= |p|
    ensures |cs| == n && forall k :: 0 <= k < n ==> cs[k] == Cell(p[k].name, FnRef(k), true)
  {
    if n == 0 then [] else FnCells(p, n - 1) + [Cell(p[n - 1].name, FnRef(n - 1), true)]
  }

  function ParamCells(params: seq<string>, args: seq<Value>): (cs: Env)
    requires |args| == |params|
    ensures |cs| == |params| && forall k :: 0 <= k < |params| ==> cs[k] == Cell(params[k], args[k], false)
  {
    seq(|params|, k requires 0 <= k < |params| => Cell(params[k], args[k], false))
  }

  /** What a call comes to: a value and the world after, or how it failed. */
  datatype Answer = Answer(v: Value, w: World) | NoAnswer(reply: Reply) | Unknown

  function RunNamed(p: Program, f: FnDecl, args: seq<Value>, w: World, call: Callee, fuel: nat): Answer
    requires |args| == |f.params|
  {
    match ExecScope(f.body, FnCells(p, |p|) + ParamCells(f.params, args), w, call, fuel)
    case Normal(_, w1) => Answer(Undef, w1)
    case Left(v, w1) => Answer(v, w1)
    case Broke(_, _) => NoAnswer(Stuck)
    case Failed(r) => Seen(Halt(r))
    case OutOfFuel => Unknown
  }

  /** The part of an outcome that the program can see. */
  function Seen(out: Outcome): Answer {
    match out
    case Timeout => Unknown
    case Halt(Returned(v, _, w)) => Answer(v, w)
    case Halt(r) => NoAnswer(r)
  }

  // ---------- What the checker refuses ----------

  predicate Mentions(e: Expr, name: string) {
    match e
    case Ident(_, n) => n == name
    case Call(_, callee, args) => Mentions(callee, name) || ArgsMention(args, name)
    case Not(_, operand) => Mentions(operand, name)
    case Negate(_, operand) => Mentions(operand, name)
    case Binary(_, _, left, right) => Mentions(left, name) || Mentions(right, name)
    case _ => false
  }

  predicate ArgsMention(es: List<Expr>, name: string) {
    match es
    case Nil => false
    case Cons(e, rest) => Mentions(e, name) || ArgsMention(rest, name)
  }

  /** Every `let` has an initialiser, which does not mention the variable itself: the checker finds
    * no type for anything else. */
  predicate Plain(s: Stmt) {
    match s
    case Let(_, name, init) => init.Some? && !Mentions(init.value, name)
    case Loop(_, body) => PlainBlock(body)
    case While(_, _, body) => PlainBlock(body)
    case If(_, _, truthy, falsy) => PlainBlock(truthy) && (falsy.Some? ==> PlainBlock(falsy.value))
    case _ => true
  }

  predicate PlainBlock(b: Block) {
    match b
    case Nil => true
    case Cons(s, rest) => Plain(s) && PlainBlock(rest)
  }

  // ---------- Names and slots ----------

  function SlotValue(store: A.Store, r: Resolve): Value {
    match r
    case ToFn(f) => FnRef(f)
    case ToParam(i) => Get(store, A.ParamSlot(i))
    case ToLet(id) => Get(store, A.LetSlot(id))
    case ToLoop(_) => Undef
  }

  /** The scope names what the environment holds, binding by binding, in slots of its own. */
  ghost predicate Rel(scope: Scope, env: Env, store: A.Store) {
    && |scope| == |env| && A.RetSlot !in store
    && (forall k :: 0 <= k < |scope| ==>
          && env[k].name == scope[k].name && env[k].v == SlotValue(store, scope[k].r)
          && !scope[k].r.ToLoop? && env[k].fixed == scope[k].r.ToFn?)
    && (forall j, k :: 0 <= j < k < |scope| && scope[j].r == scope[k].r ==> scope[j].r.ToFn?)
  }

  lemma {:induction false} FindIsWhere(scope: Scope, env: Env, store: A.Store, name: string)
    requires Rel(scope, env, store)
    ensures var k := Where(env, name);
      if k < |env| then Find(scope, name) == Some(scope[k].r) else Find(scope, name).None?
    decreases |scope|
  {
    if scope != [] && scope[|scope| - 1].name != name {
      FindIsWhere(scope[..|scope| - 1], env[..|scope| - 1], store, name);
    }
  }

  lemma {:induction false} EvalSame(re: Resols, scope: Scope, env: Env, store: A.Store, e: Expr, w: World, call: Callee)
    requires ResolvedExpr(re, scope, e) && Rel(scope, env, store)
    ensures Eval(e, env, w, call) == A.Eval(re, e, store, w, call)
    decreases e
  {
    match e
    case Ident(_, name) => FindIsWhere(scope, env, store, name);
    case Call(_, callee, args) =>
      EvalArgsSame(re, scope, env, store, args, w, call);
      var r := EvalArgs(args, env, w, call);
      if r.Vals? {
        EvalSame(re, scope, env, store, callee, r.w, call);
      }
    case Binary(_, _, left, right) =>
      EvalSame(re, scope, env, store, left, w, call);
      var r := Eval(left, env, w, call);
      if r.Val? {
        EvalSame(re, scope, env, store, right, r.w, call);
      }
    case _ =>
  }

  lemma {:induction false} EvalArgsSame(re: Resols, scope: Scope, env: Env, store: A.Store, es: List<Expr>, w: World,
                                        call: Callee)
    requires ResolvedArgs(re, scope, es) && Rel(scope, env, store)
    ensures EvalArgs(es, env, w, call) == A.EvalArgs(re, es, store, w, call)
    decreases es
  {
    if es.Cons? {
      EvalSame(re, scope, env, store, es.head, w, call);
      var r := Eval(es.head, env, w, call);
      if r.Val? {
        EvalArgsSame(re, scope, env, store, es.tail, r.w, call);
      }
    }
  }

  /** A name that an expression does not mention can be bound without it noticing. */
  lemma {:induction false} Unmentioned(re: Resols, scope: Scope, b: Binding, e: Expr)
    requires ResolvedExpr(re, scope + [b], e) && !Mentions(e, b.name)
    ensures ResolvedExpr(re, scope, e)
    decreases e
  {
    match e
    case Ident(_, name) => assert (scope + [b])[..|scope|] == scope;
    case Call(_, callee, args) =>
      Unmentioned(re, scope, b, callee);
      ArgsUnmentioned(re, scope, b, args);
    case Binary(_, _, left, right) =>
      Unmentioned(re, scope, b, left);
      Unmentioned(re, scope, b, right);
    case _ =>
  }

  lemma {:induction false} ArgsUnmentioned(re: Resols, scope: Scope, b: Binding, es: List<Expr>)
    requires ResolvedArgs(re, scope + [b], es) && !ArgsMention(es, b.name)
    ensures ResolvedArgs(re, scope, es)
    decreases es
  {
    if es.Cons? {
      Unmentioned(re, scope, b, es.head);
      ArgsUnmentioned(re, scope, b, es.tail);
    }
  }

  /** No binding in scope is a `let` with one of these ids. */
  ghost predicate Fresh(scope: Scope, ids: set<nat>) {
    forall k :: 0 <= k < |scope| && scope[k].r.ToLet? ==> scope[k].r.id !in ids
  }

  /** How a run over names and a run over slots end alike. */
  ghost predicate Alike(scope: Scope, after: Scope, loops: seq<nat>, x: Exit, y: A.Exit) {
    match x
    case Normal(env, w) => y.Normal? && y.w == w && Rel(after, env, y.store)
    case Broke(env, w) =>
      y.Broke? && loops != [] && y.loop == loops[|loops| - 1] && y.w == w && |scope| <= |env| &&
        Rel(scope, env[..|scope|], y.store)
    case Left(v, w) => y.Left? && y.w == w && Get(y.store, A.RetSlot) == v
    case Failed(r) => y == A.Failed(r)
    case OutOfFuel => y == A.OutOfFuel
  }

  lemma {:induction false} LetSame(re: Resols, scope: Scope, env: Env, store: A.Store, s: Stmt, w: World, call: Callee,
                                   fuel: nat)
    requires s.Let? && Resolved(re, scope, [], s) && Plain(s) && Fresh(scope, {s.id}) && Rel(scope, env, store)
    ensures Alike(scope, ScopeAfter(scope, s), [], Exec(s, env, w, call, fuel), A.Exec(re, s, store, w, call, fuel))
  {
    var b := Binding(s.name, ToLet(s.id));
    Unmentioned(re, scope, b, s.init.value);
    EvalSame(re, scope, env, store, s.init.value, w, call);
    var r := Eval(s.init.value, env, w, call);
    if r.Val? {
      var store1 := store[A.LetSlot(s.id) := r.v];
      assert Rel(scope + [b], env + [Cell(s.name, r.v, false)], store1);
    }
  }

  lemma {:induction false} AssignSame(re: Resols, scope: Scope, env: Env, store: A.Store, s: Stmt, w: World,
                                      call: Callee, fuel: nat)
    requires s.Assign? && Resolved(re, scope, [], s) && Rel(scope, env, store)
    ensures Alike(scope, scope, [], Exec(s, env, w, call, fuel), A.Exec(re, s, store, w, call, fuel))
  {
    hide Eval, A.Eval;
    if s.subject.Ident? {
      FindIsWhere(scope, env, store, s.subject.name);
      EvalSame(re, scope, env, store, s.value_, w, call);
      var k := Where(env, s.subject.name);
      var r := Eval(s.value_, env, w, call);
      if k < |env| && !env[k].fixed && r.Val? {
        var slot := A.Target(re, s.subject);
        assert slot.Some?;
        assert Rel(scope, env[k := env[k].(v := r.v)], store[slot.value := r.v]);
      }
    }
  }

  lemma RelOuter(scope: Scope, more: Scope, env: Env, store: A.Store)
    requires |scope| <= |more| && more[..|scope|] == scope && Rel(more, env, store)
    ensures |scope| <= |env| && Rel(scope, env[..|scope|], store)
  {
    forall k | 0 <= k < |scope| ensures scope[k] == more[k] {
      assert more[..|scope|][k] == more[k];
    }
  }

  /** The scope at the end of a block. */
  function ScopeEnd(scope: Scope, b: Block): (more: Scope)
    ensures |scope| <= |more| && more[..|scope|] == scope
    decreases b
  {
    match b
    case Nil => scope
    case Cons(s, rest) =>
      var more := ScopeEnd(ScopeAfter(scope, s), rest);
      assert more[..|scope|] == more[..|ScopeAfter(scope, s)|][..|scope|];
      more
  }

  lemma FreshLess(scope: Scope, more: set<nat>, less: set<nat>)
    requires Fresh(scope, more) && less <= more
    ensures Fresh(scope, less)
  {}

  lemma FreshAfter(scope: Scope, s: Stmt, rest: Block)
    requires Fresh(scope, BlockIds(Cons(s, rest))) && UniqueBlock(Cons(s, rest))
    ensures Fresh(scope, StmtIds(s)) && Fresh(ScopeAfter(scope, s), BlockIds(rest))
  {}

  /** Statement by statement, names and slots agree. */
  lemma {:induction false} StmtSame(re: Resols, scope: Scope, loops: seq<nat>, env: Env, store: A.Store, s: Stmt,
                                    w: World, call: Callee, fuel: nat)
    requires Resolved(re, scope, loops, s) && Unique(s) && Plain(s) && Fresh(scope, StmtIds(s))
    requires Rel(scope, env, store)
    ensures Alike(scope, ScopeAfter(scope, s), loops, Exec(s, env, w, call, fuel), A.Exec(re, s, store, w, call, fuel))
    decreases fuel, s, 1
  {
    match s
    case Let(_, _, _) => LetSame(re, scope, env, store, s, w, call, fuel);
    case Loop(_, _) => LoopSame(re, scope, loops, env, store, s, w, call, fuel);
    case While(_, _, _) => WhileSame(re, scope, loops, env, store, s, w, call, fuel);
    case If(_, _, _, _) => IfSame(re, scope, loops, env, store, s, w, call, fuel);
    case Return(_, e) => ReturnSame(re, scope, loops, env, store, s, w, call, fuel);
    case Break(_) => assert env[..|scope|] == env;
    case Assign(_, _, _) => AssignSame(re, scope, env, store, s, w, call, fuel);
    case ExprStmt(_, e) => EvalSame(re, scope, env, store, e, w, call);
  }

  lemma {:induction false} ReturnSame(re: Resols, scope: Scope, loops: seq<nat>, env: Env, store: A.Store, s: Stmt,
                                      w: World, call: Callee, fuel: nat)
    requires s.Return? && Resolved(re, scope, loops, s) && Rel(scope, env, store)
    ensures Alike(scope, scope, loops, Exec(s, env, w, call, fuel), A.Exec(re, s, store, w, call, fuel))
  {
    if s.value.Some? {
      EvalSame(re, scope, env, store, s.value.value, w, call);
    }
  }

  lemma {:induction false} LoopSame(re: Resols, scope: Scope, loops: seq<nat>, env: Env, store: A.Store, s: Stmt,
                                    w: World, call: Callee, fuel: nat)
    requires s.Loop? && Resolved(re, scope, loops, s) && Unique(s) && Plain(s) && Fresh(scope, StmtIds(s))
    requires Rel(scope, env, store)
    ensures Alike(scope, scope, loops, Exec(s, env, w, call, fuel), A.Exec(re, s, store, w, call, fuel))
    decreases fuel, s, 0
  {
    if fuel > 0 {
      FreshLess(scope, StmtIds(s), BlockIds(s.body));
      ScopeSame(re, scope, loops + [s.id], env, store, s.body, w, call, fuel - 1);
      var x := ExecScope(s.body, env, w, call, fuel - 1);
      var y := A.ExecBlock(re, s.body, store, w, call, fuel - 1);
      if x.Normal? {
        LoopSame(re, scope, loops, x.env, y.store, s, x.w, call, fuel - 1);
      } else if x.Broke? {
        assert x.env[..|scope|] == x.env;
      }
    }
  }

  lemma {:induction false} WhileSame(re: Resols, scope: Scope, loops: seq<nat>, env: Env, store: A.Store, s: Stmt,
                                     w: World, call: Callee, fuel: nat)
    requires s.While? && Resolved(re, scope, loops, s) && Unique(s) && Plain(s) && Fresh(scope, StmtIds(s))
    requires Rel(scope, env, store)
    ensures Alike(scope, scope, loops, Exec(s, env, w, call, fuel), A.Exec(re, s, store, w, call, fuel))
    decreases fuel, s, 0
  {
    hide ResolvedExpr, Eval, A.Eval, Fresh;
    if fuel > 0 {
      EvalSame(re, scope, env, store, s.cond, w, call);
      var c := Eval(s.cond, env, w, call);
      if c.Val? && Test(c.v) == Some(true) {
        FreshLess(scope, StmtIds(s), BlockIds(s.body));
        ScopeSame(re, scope, loops + [s.id], env, store, s.body, c.w, call, fuel - 1);
        var x := ExecScope(s.body, env, c.w, call, fuel - 1);
        var y := A.ExecBlock(re, s.body, store, c.w, call, fuel - 1);
        if x.Normal? {
          WhileSame(re, scope, loops, x.env, y.store, s, x.w, call, fuel - 1);
        } else if x.Broke? {
          assert x.env[..|scope|] == x.env;
        }
      }
    }
  }

  lemma {:induction false} IfSame(re: Resols, scope: Scope, loops: seq<nat>, env: Env, store: A.Store, s: Stmt,
                                  w: World, call: Callee, fuel: nat)
    requires s.If? && Resolved(re, scope, loops, s) && Unique(s) && Plain(s) && Fresh(scope, StmtIds(s))
    requires Rel(scope, env, store)
    ensures Alike(scope, scope, loops, Exec(s, env, w, call, fuel), A.Exec(re, s, store, w, call, fuel))
    decreases fuel, s, 0
  {
    EvalSame(re, scope, env, store, s.cond, w, call);
    var c := Eval(s.cond, env, w, call);
    if c.Val? && Test(c.v).Some? {
      if Test(c.v).value {
        FreshLess(scope, StmtIds(s), BlockIds(s.truthy));
        ScopeSame(re, scope, loops, env, store, s.truthy, c.w, call, fuel);
      } else if s.falsy.Some? {
        FreshLess(scope, StmtIds(s), BlockIds(s.falsy.value));
        ScopeSame(re, scope, loops, env, store, s.falsy.value, c.w, call, fuel);
      }
    }
  }

  /** A block that pushes and pops its bindings. */
  lemma {:induction false} ScopeSame(re: Resols, scope: Scope, loops: seq<nat>, env: Env, store: A.Store, b: Block,
                                     w: World, call: Callee, fuel: nat)
    requires ResolvedBlock(re, scope, loops, b) && UniqueBlock(b) && PlainBlock(b) && Fresh(scope, BlockIds(b))
    requires Rel(scope, env, store)
    ensures Alike(scope, scope, loops, ExecScope(b, env, w, call, fuel), A.ExecBlock(re, b, store, w, call, fuel))
    decreases fuel, b, 1
  {
    BlockSame(re, scope, loops, env, store, b, w, call, fuel);
    var x := ExecBlock(b, env, w, call, fuel);
    if x.Normal? {
      RelOuter(scope, ScopeEnd(scope, b), x.env, A.ExecBlock(re, b, store, w, call, fuel).store);
    } else if x.Broke? {
      assert x.env[..|scope|][..|scope|] == x.env[..|scope|];
    }
  }

  lemma {:induction false} BlockSame(re: Resols, scope: Scope, loops: seq<nat>, env: Env, store: A.Store, b: Block,
                                     w: World, call: Callee, fuel: nat)
    requires ResolvedBlock(re, scope, loops, b) && UniqueBlock(b) && PlainBlock(b) && Fresh(scope, BlockIds(b))
    requires Rel(scope, env, store)
    ensures Alike(scope, ScopeEnd(scope, b), loops, ExecBlock(b, env, w, call, fuel),
                  A.ExecBlock(re, b, store, w, call, fuel))
    decreases fuel, b, 0
  {
    if b.Cons? {
      FreshAfter(scope, b.head, b.tail);
      StmtSame(re, scope, loops, env, store, b.head, w, call, fuel);
      var x := Exec(b.head, env, w, call, fuel);
      var y := A.Exec(re, b.head, store, w, call, fuel);
      var scope1 := ScopeAfter(scope, b.head);
      if x.Normal? {
        BlockSame(re, scope1, loops, x.env, y.store, b.tail, x.w, call, fuel);
        var z := ExecBlock(b.tail, x.env, x.w, call, fuel);
        if z.Broke? {
          assert scope1[..|scope|] == scope;
          RelOuter(scope, scope1, z.env[..|scope1|], A.ExecBlock(re, b.tail, y.store, x.w, call, fuel).store);
          assert z.env[..|scope1|][..|scope|] == z.env[..|scope|];
        }
      }
    }
  }

  lemma {:induction false} InitialRel(p: Program, f: FnDecl, args: seq<Value>)
    requires |args| == |f.params|
    ensures Rel(BodyScope(p, f), FnCells(p, |p|) + ParamCells(f.params, args), A.InitialStore(args))
  {
    hide A.InitialStore, FnCells, ParamCells, FnScope, ParamScope;
    FnScopeAt(p, |p|);
    var scope, env := BodyScope(p, f), FnCells(p, |p|) + ParamCells(f.params, args);
    forall k | 0 <= k < |scope|
      ensures env[k].name == scope[k].name && env[k].v == SlotValue(A.InitialStore(args), scope[k].r)
      ensures scope[k].r == (if k < |p| then ToFn(k) else ToParam(k - |p|)) && env[k].fixed == (k < |p|)
    {
      if k >= |p| {
        assert scope[k] == Binding(f.params[k - |p|], ToParam(k - |p|));
      }
    }
  }

  /** Resolution is right: a function the resolver accepts does by slots what it does by names, in a
    * stack of block-scoped bindings with shadowing, and `break` leaves the loop that is running.
    * For all arguments, worlds, callees and bounds on the iterations. */
  lemma {:induction false} SlotsMeanNames(p: Program, f: FnDecl, args: seq<Value>, w: World, call: Callee, fuel: nat)
    requires UniqueBlock(f.body) && PlainBlock(f.body) && ResolveFn(p, f).Some? && |args| == |f.params|
    ensures Seen(A.RunBody(ResolveFn(p, f).value, f.body, args, w, call, fuel)) == RunNamed(p, f, args, w, call, fuel)
  {
    var re := ResolveFn(p, f).value;
    var scope, env := BodyScope(p, f), FnCells(p, |p|) + ParamCells(f.params, args);
    ResolverSound(f.body, scope, Resols(map[], map[]));
    InitialRel(p, f, args);
    FnScopeAt(p, |p|);
    ScopeSame(re, scope, [], env, A.InitialStore(args), f.body, w, call, fuel);
  }

  // ---------- Why an initialiser must not mention its own variable ----------

  /** `let x = x` and its use, in a block of their own. */
  const OWN_INNER: Block := Cons(Stmt.Let(2, "x", Some(Ident(2, "x"))), Cons(Stmt.Return(3, Some(Ident(3, "x"))), Nil))

  /** That block inside the block of another `x`. */
  const OWN_NAME: Block := Cons(Stmt.Let(0, "x", Some(Expr.Int(0, 7))),
                                Cons(Stmt.If(1, Expr.Int(1, 1), OWN_INNER, None), Nil))

  lemma {:induction false} OwnResolved(f: FnDecl)
    requires f.params == [] && f.body == OWN_NAME && f.name != "x"
    ensures ResolveFn([f], f) == Some(Resols(map[], map[2 := ToLet(2), 3 := ToLet(2)]))
  {
    var none := Resols(map[], map[]);
    var one := none.(exprs := map[2 := ToLet(2)]);
    var scope := BodyScope([f], f);
    var outer := scope + [Binding("x", ToLet(0))];
    var inner := outer + [Binding("x", ToLet(2))];
    assert ResolveBlock(Cons(Stmt.Return(3, Some(Ident(3, "x"))), Nil), inner, [], one) ==
           Some(none.(exprs := map[2 := ToLet(2), 3 := ToLet(2)]));
    assert ResolveBlock(OWN_INNER, outer, [], none) == Some(none.(exprs := map[2 := ToLet(2), 3 := ToLet(2)]));
    assert ResolveStmt(OWN_NAME.tail.head, outer, [], none) == ResolveBlock(OWN_INNER, outer, [], none);
    assert ResolveBlock(OWN_NAME.tail, outer, [], none) == ResolveBlock(OWN_INNER, outer, [], none);
    assert ScopeAfter(scope, OWN_NAME.head) == outer;
    assert ResolveBlock(OWN_NAME, scope, [], none) == ResolveBlock(OWN_NAME.tail, outer, [], none);
  }

  lemma {:induction false} OwnByName(env: Env, w: World, call: Callee)
    ensures ExecScope(OWN_NAME, env, w, call, 0) == Left(Word(7), w)
  {
    var outer := env + [Cell("x", Word(7), false)];
    assert Eval(Ident(2, "x"), outer, w, call) == A.Val(Word(7), w);
    assert Eval(Ident(3, "x"), outer + [Cell("x", Word(7), false)], w, call) == A.Val(Word(7), w);
    hide Where;
    assert ExecBlock(OWN_INNER, outer, w, call, 0) == Left(Word(7), w);
  }

  lemma {:induction false} OwnBySlot(re: Resols, w: World, call: Callee)
    requires re.exprs == map[2 := ToLet(2), 3 := ToLet(2)]
    ensures Seen(A.RunBody(re, OWN_NAME, [], w, call, 0)) == Answer(Undef, w)
  {
    var store: A.Store := map[A.LetSlot(0) := Word(7)];
    var left := store[A.LetSlot(2) := Undef][A.RetSlot := Undef];
    assert A.ExecBlock(re, Cons(Stmt.Return(3, Some(Ident(3, "x"))), Nil), store[A.LetSlot(2) := Undef], w, call, 0) ==
           A.Left(left, w);
    assert A.ExecBlock(re, OWN_INNER, store, w, call, 0) == A.Left(left, w);
  }

  /** By names the inner `x` is the outer one's 7; by slots it is its own, not yet set. */
  lemma {:induction false} OwnNameDiffers(w: World, call: Callee)
    ensures var f := FnDecl("f", [], false, OWN_NAME);
      && UniqueBlock(f.body) && !PlainBlock(f.body) && ResolveFn([f], f).Some?
      && RunNamed([f], f, [], w, call, 0) == Answer(Word(7), w)
      && Seen(A.RunBody(ResolveFn([f], f).value, f.body, [], w, call, 0)) == Answer(Undef, w)
  {
    hide ResolveFn, A.RunBody, Seen, ExecScope;
    var f := FnDecl("f", [], false, OWN_NAME);
    OwnResolved(f);
    OwnByName(FnCells([f], 1) + ParamCells([], []), w, call);
    OwnBySlot(ResolveFn([f], f).value, w, call);
  }
}
