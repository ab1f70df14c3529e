/** Which programs the compiler takes, said over what occurs in their bodies. */
module Accepts {
  import opened Values
  import opened Ast
  import MirGen
  import opened ResolverSpec
  import Source

  /** The names visible at some place; true for those a value can be assigned to. */
  type Names = map<string, bool>

  /** What occurs in a body, each with what is visible or open where it stands. */
  datatype Occ =
    | Use(name: string, names: Names)
    | Operator(op: Op)
    | Prefix
    | Leave(loops: nat)
    | Target(subject: Expr, names: Names)

  function ExprOccs(e: Expr, names: Names): set<Occ> {
    match e
    case Ident(_, name) => {Use(name, names)}
    case Int(_, _) => {}
    case Str(_, _) => {}
    case Call(_, callee, args) => ExprOccs(callee, names) + ArgsOccs(args, names)
    case Not(_, operand) => {Prefix} + ExprOccs(operand, names)
    case Negate(_, operand) => {Prefix} + ExprOccs(operand, names)
    case Binary(_, op, left, right) => {Operator(op)} + ExprOccs(left, names) + ExprOccs(right, names)
  }

  function ArgsOccs(es: List<Expr>, names: Names): set<Occ> {
    match es
    case Nil => {}
    case Cons(e, rest) => ExprOccs(e, names) + ArgsOccs(rest, names)
  }

  function OptOccs(e: Option<Expr>, names: Names): set<Occ> {
    if e.None? then {} else ExprOccs(e.value, names)
  }

  /** A `let` is visible from its own initialiser to the end of its block. */
  function NamesAfter(names: Names, s: Stmt): Names {
    if s.Let? then names[s.name := true] else names
  }

  function StmtOccs(s: Stmt, names: Names, loops: nat): set<Occ> {
    match s
    case Let(_, name, init) => OptOccs(init, names[name := true])
    case Loop(_, body) => BlockOccs(body, names, loops + 1)
    case While(_, cond, body) => ExprOccs(cond, names) + BlockOccs(body, names, loops + 1)
    case If(_, cond, truthy, falsy) =>
      ExprOccs(cond, names) + BlockOccs(truthy, names, loops)
      + (if falsy.None? then {} else BlockOccs(falsy.value, names, loops))
    case Return(_, e) => OptOccs(e, names)
    case Break(_) => {Leave(loops)}
    case Assign(_, subject, e) => {Target(subject, names)} + ExprOccs(subject, names) + ExprOccs(e, names)
    case ExprStmt(_, e) => ExprOccs(e, names)
  }

  function BlockOccs(b: Block, names: Names, loops: nat): set<Occ> {
    match b
    case Nil => {}
    case Cons(s, rest) => StmtOccs(s, names, loops) + BlockOccs(rest, NamesAfter(names, s), loops)
  }

  /** Of a function: its parameters are visible, and all functions of the program where none hides them. */
  function FnOccs(p: Program, f: FnDecl): set<Occ> {
    BlockOccs(f.body, FnNames(p) + ParamNames(f), 0)
  }

  function FnNames(p: Program): Names {
    map f | f in p :: f.name := false
  }

  function ParamNames(f: FnDecl): Names {
    map name | name in f.params :: true
  }

  /** What the resolver asks for: every name is visible, every `break` is in a loop, and there is no
    * prefix operator. */
  predicate Resolvable(o: Occ) {
    match o
    case Use(name, names) => name in names
    case Prefix => false
    case Leave(loops) => loops > 0
    case _ => true
  }

  /** What lowering asks for: no `or`, `xor`, `and` and no prefix operator, and only parameters and `let`
    * variables are assigned to. */
  predicate HasCode(o: Occ) {
    match o
    case Operator(op) => op !in {Or, Xor, And}
    case Prefix => false
    case Target(Ident(_, name), names) => name in names && names[name]
    case Target(_, _) => false
    case _ => true
  }

  ghost predicate AllResolve(os: set<Occ>) {
    forall o :: o in os ==> Resolvable(o)
  }

  ghost predicate AllHaveCode(os: set<Occ>) {
    forall o :: o in os ==> HasCode(o)
  }

  // ---------- What the resolver accepts ----------

  /** The names are those of the scope. */
  ghost predicate NamesOf(names: Names, scope: Scope) {
    forall name ::
      && (name in names <==> Find(scope, name).Some?)
      && (name in names ==> (names[name] <==> Find(scope, name).value.ToParam? || Find(scope, name).value.ToLet?))
  }

  lemma NamesStep(names: Names, scope: Scope, s: Stmt)
    requires NamesOf(names, scope)
    ensures NamesOf(NamesAfter(names, s), ScopeAfter(scope, s))
  {
    if s.Let? {
      var after := ScopeAfter(scope, s);
      assert after[..|after| - 1] == scope;
      forall name
        ensures Find(after, name) == if name == s.name then Some(ToLet(s.id)) else Find(scope, name)
      {}
    }
  }

  lemma {:induction false} ExprAccepted(e: Expr, names: Names, scope: Scope, re: Resols)
    requires NamesOf(names, scope)
    ensures ResolveExpr(e, scope, re).Some? <==> AllResolve(ExprOccs(e, names))
    decreases e
  {
    match e
    case Call(_, callee, args) =>
      ExprAccepted(callee, names, scope, re);
      if ResolveExpr(callee, scope, re).Some? {
        ArgsAccepted(args, names, scope, ResolveExpr(callee, scope, re).value);
      }
    case Binary(_, _, left, right) =>
      ExprAccepted(left, names, scope, re);
      if ResolveExpr(left, scope, re).Some? {
        ExprAccepted(right, names, scope, ResolveExpr(left, scope, re).value);
      }
    case Ident(_, name) => assert Use(name, names) in ExprOccs(e, names);
    case Not(_, _) => assert Prefix in ExprOccs(e, names);
    case Negate(_, _) => assert Prefix in ExprOccs(e, names);
    case _ =>
  }

  lemma {:induction false} ArgsAccepted(es: List<Expr>, names: Names, scope: Scope, re: Resols)
    requires NamesOf(names, scope)
    ensures ResolveArgs(es, scope, re).Some? <==> AllResolve(ArgsOccs(es, names))
    decreases es
  {
    if es.Cons? {
      ExprAccepted(es.head, names, scope, re);
      if ResolveExpr(es.head, scope, re).Some? {
        ArgsAccepted(es.tail, names, scope, ResolveExpr(es.head, scope, re).value);
      }
    }
  }

  lemma {:induction false} StmtAccepted(s: Stmt, names: Names, scope: Scope, loops: seq<nat>, re: Resols)
    requires NamesOf(names, scope)
    ensures ResolveStmt(s, scope, loops, re).Some? <==> AllResolve(StmtOccs(s, names, |loops|))
    decreases s
  {
    hide NamesOf, ResolveExpr;
    match s
    case Let(_, _, init) =>
      if init.Some? {
        NamesStep(names, scope, s);
        ExprAccepted(init.value, NamesAfter(names, s), ScopeAfter(scope, s), re);
      }
    case Loop(id, body) => BlockAccepted(body, names, scope, loops + [id], re);
    case While(id, cond, body) =>
      ExprAccepted(cond, names, scope, re);
      if ResolveExpr(cond, scope, re).Some? {
        BlockAccepted(body, names, scope, loops + [id], ResolveExpr(cond, scope, re).value);
      }
    case If(_, cond, truthy, falsy) =>
      ExprAccepted(cond, names, scope, re);
      if ResolveExpr(cond, scope, re).Some? {
        var re1 := ResolveExpr(cond, scope, re).value;
        BlockAccepted(truthy, names, scope, loops, re1);
        if ResolveBlock(truthy, scope, loops, re1).Some? && falsy.Some? {
          BlockAccepted(falsy.value, names, scope, loops, ResolveBlock(truthy, scope, loops, re1).value);
        }
      }
    case Return(_, e) => if e.Some? { ExprAccepted(e.value, names, scope, re); }
    case Break(_) => assert Leave(|loops|) in StmtOccs(s, names, |loops|);
    case Assign(_, subject, e) =>
      ExprAccepted(subject, names, scope, re);
      if ResolveExpr(subject, scope, re).Some? {
        ExprAccepted(e, names, scope, ResolveExpr(subject, scope, re).value);
      }
    case ExprStmt(_, e) => ExprAccepted(e, names, scope, re);
  }

  /** The resolver accepts a block exactly if every name occurring in it is bound where it stands, every
    * `break` is in a loop, and there is no `not` and no unary `-`. */
  lemma {:induction false} BlockAccepted(b: Block, names: Names, scope: Scope, loops: seq<nat>, re: Resols)
    requires NamesOf(names, scope)
    ensures ResolveBlock(b, scope, loops, re).Some? <==> AllResolve(BlockOccs(b, names, |loops|))
    decreases b
  {
    hide NamesOf, StmtOccs, ResolveStmt;
    if b.Cons? {
      StmtAccepted(b.head, names, scope, loops, re);
      NamesStep(names, scope, b.head);
      if ResolveStmt(b.head, scope, loops, re).Some? {
        BlockAccepted(b.tail, NamesAfter(names, b.head), ScopeAfter(scope, b.head), loops,
                      ResolveStmt(b.head, scope, loops, re).value);
      }
    }
  }

  // ---------- What lowering has code for ----------

  lemma {:induction false} ExprLowers(e: Expr, names: Names)
    ensures MirGen.LowerableExpr(e) <==> AllHaveCode(ExprOccs(e, names))
    decreases e
  {
    match e
    case Call(_, callee, args) =>
      ExprLowers(callee, names);
      ArgsLower(args, names);
    case Binary(_, op, left, right) =>
      ExprLowers(left, names);
      ExprLowers(right, names);
      assert Operator(op) in ExprOccs(e, names);
    case Not(_, _) => assert Prefix in ExprOccs(e, names);
    case Negate(_, _) => assert Prefix in ExprOccs(e, names);
    case _ =>
  }

  lemma {:induction false} ArgsLower(es: List<Expr>, names: Names)
    ensures MirGen.LowerableArgs(es) <==> AllHaveCode(ArgsOccs(es, names))
    decreases es
  {
    if es.Cons? {
      ExprLowers(es.head, names);
      ArgsLower(es.tail, names);
    }
  }

  /** The resolved subject of an assignment. */
  lemma TargetLowers(cx: MirGen.Cx, subject: Expr, names: Names, scope: Scope)
    requires NamesOf(names, scope) && ResolvedExpr(cx.re, scope, subject)
    ensures MirGen.Assignable(cx, subject) <==> HasCode(Target(subject, names))
    ensures subject.Ident? ==> AllHaveCode(ExprOccs(subject, names))
  {}

  lemma {:induction false} StmtLowers(cx: MirGen.Cx, s: Stmt, names: Names, scope: Scope, loops: seq<nat>)
    requires NamesOf(names, scope) && Resolved(cx.re, scope, loops, s)
    ensures MirGen.Lowerable(cx, s) <==> AllHaveCode(StmtOccs(s, names, |loops|))
    decreases s
  {
    hide NamesOf, ExprOccs, ResolvedExpr, MirGen.Assignable, MirGen.LowerableExpr;
    match s
    case Let(_, name, init) => if init.Some? { ExprLowers(init.value, names[name := true]); }
    case Loop(id, body) => BlockLowers(cx, body, names, scope, loops + [id]);
    case While(id, cond, body) =>
      ExprLowers(cond, names);
      BlockLowers(cx, body, names, scope, loops + [id]);
    case If(_, cond, truthy, falsy) =>
      ExprLowers(cond, names);
      BlockLowers(cx, truthy, names, scope, loops);
      if falsy.Some? { BlockLowers(cx, falsy.value, names, scope, loops); }
    case Return(_, e) => if e.Some? { ExprLowers(e.value, names); }
    case Break(_) =>
    case Assign(_, subject, e) =>
      TargetLowers(cx, subject, names, scope);
      ExprLowers(e, names);
      assert Target(subject, names) in StmtOccs(s, names, |loops|);
    case ExprStmt(_, e) => ExprLowers(e, names);
  }

  /** Lowering has code for a resolved block exactly if it holds no `or`, `xor`, `and` and no prefix
    * operator, and assigns to parameters and `let` variables only. */
  lemma {:induction false} BlockLowers(cx: MirGen.Cx, b: Block, names: Names, scope: Scope, loops: seq<nat>)
    requires NamesOf(names, scope) && ResolvedBlock(cx.re, scope, loops, b)
    ensures MirGen.LowerableBlock(cx, b) <==> AllHaveCode(BlockOccs(b, names, |loops|))
    decreases b
  {
    hide NamesOf, StmtOccs, Resolved, MirGen.Lowerable;
    if b.Cons? {
      StmtLowers(cx, b.head, names, scope, loops);
      NamesStep(names, scope, b.head);
      BlockLowers(cx, b.tail, NamesAfter(names, b.head), ScopeAfter(scope, b.head), loops);
    }
  }

  // ---------- Functions and programs ----------

  lemma FindLast(outer: Scope, b: Binding, name: string)
    ensures Find(outer + [b], name) == if b.name == name then Some(b.r) else Find(outer, name)
  {
    assert (outer + [b])[..|outer|] == outer;
  }

  ghost predicate NamesFn(p: Program, n: nat, name: string)
    requires n <= |p|
  {
    exists k :: 0 <= k < n && p[k].name == name
  }

  lemma NamesFnStep(p: Program, n: nat, name: string)
    requires 0 < n <= |p|
    ensures NamesFn(p, n, name) <==> p[n - 1].name == name || NamesFn(p, n - 1, name)
  {}

  lemma {:induction false} FindFns(p: Program, n: nat, name: string)
    requires n <= |p|
    ensures Find(FnScope(p, n), name).Some? <==> NamesFn(p, n, name)
    ensures Find(FnScope(p, n), name).Some? ==> Find(FnScope(p, n), name).value.ToFn?
    decreases n
  {
    hide NamesFn;
    if n > 0 {
      FindFns(p, n - 1, name);
      NamesFnStep(p, n, name);
      FindLast(FnScope(p, n - 1), Binding(p[n - 1].name, ToFn(n - 1)), name);
    } else {
      assert !NamesFn(p, 0, name) by { NoneNamed(p, name); }
    }
  }

  lemma NoneNamed(p: Program, name: string)
    ensures !NamesFn(p, 0, name)
  {}

  lemma {:induction false} FindParams(outer: Scope, params: seq<string>, n: nat, name: string)
    requires n <= |params|
    ensures var r := Find(outer + ParamScope(params, n), name);
      if name in params[..n] then r.Some? && r.value.ToParam? else r == Find(outer, name)
    decreases n
  {
    hide Find;
    if n > 0 {
      FindParams(outer, params, n - 1, name);
      FindLast(outer + ParamScope(params, n - 1), Binding(params[n - 1], ToParam(n - 1)), name);
      assert outer + ParamScope(params, n) == outer + ParamScope(params, n - 1) +
             [Binding(params[n - 1], ToParam(n - 1))];
      assert params[..n] == params[..n - 1] + [params[n - 1]];
    } else {
      assert outer + ParamScope(params, n) == outer;
    }
  }

  lemma {:induction false} BodyNames(p: Program, f: FnDecl)
    ensures NamesOf(FnNames(p) + ParamNames(f), BodyScope(p, f))
  {
    forall name ensures
      var r := Find(BodyScope(p, f), name);
      && (name in FnNames(p) + ParamNames(f) <==> r.Some?)
      && (name in FnNames(p) + ParamNames(f) ==>
            ((FnNames(p) + ParamNames(f))[name] <==> r.value.ToParam? || r.value.ToLet?))
    {
      FindFns(p, |p|, name);
      assert name in FnNames(p) <==> NamesFn(p, |p|, name);
      FindParams(FnScope(p, |p|), f.params, |f.params|, name);
      assert f.params[..|f.params|] == f.params;
    }
  }

  /** A function is resolved, and code is found for it, exactly if all that occurs in it is in order. */
  lemma {:induction false} FnAccepted(p: Program, f: FnDecl)
    requires UniqueBlock(f.body)
    ensures ResolveFn(p, f).Some? <==> AllResolve(FnOccs(p, f))
    ensures ResolveFn(p, f).Some? ==>
      (MirGen.LowerableBlock(MirGen.Cx(ResolveFn(p, f).value, |f.params|), f.body) <==> AllHaveCode(FnOccs(p, f)))
  {
    var names, scope := FnNames(p) + ParamNames(f), BodyScope(p, f);
    BodyNames(p, f);
    BlockAccepted(f.body, names, scope, [], Resols(map[], map[]));
    if ResolveFn(p, f).Some? {
      ResolverSound(f.body, scope, Resols(map[], map[]));
      BlockLowers(MirGen.Cx(ResolveFn(p, f).value, |f.params|), f.body, names, scope, []);
    }
  }

  /** The compiler takes a program exactly if ids are used once and everything that occurs in a function,
    * external ones included, is in order. */
  lemma {:induction false} CompilesIff(p: Program)
    ensures Source.Compiles(p) <==>
      forall k :: 0 <= k < |p| ==>
        UniqueBlock(p[k].body) && AllResolve(FnOccs(p, p[k])) && AllHaveCode(FnOccs(p, p[k]))
  {
    forall k | 0 <= k < |p| && UniqueBlock(p[k].body)
      ensures ResolveFn(p, p[k]).Some? <==> AllResolve(FnOccs(p, p[k]))
      ensures ResolveFn(p, p[k]).Some? ==>
        (MirGen.LowerableBlock(MirGen.Cx(ResolveFn(p, p[k]).value, |p[k].params|), p[k].body) <==>
         AllHaveCode(FnOccs(p, p[k])))
    {
      FnAccepted(p, p[k]);
    }
    hide AllResolve, AllHaveCode, FnOccs;
  }
}
