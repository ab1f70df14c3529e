/** The resolver as the compiler runs it: a stack of symbol tables that blocks push and pop, a stack
  * of loops, and two result tables filled on the way. */
module ResolverClass {
  import opened Values
  import opened Ast
  import opened ResolverSpec

  /** One table per block, innermost last; the first is the function's own. */
  type Syms = seq<map<string, Resolve>>

  function Val(syms: Syms, ident: string): Option<Resolve> {
    if syms == [] then None
    else if ident in syms[|syms| - 1] then Some(syms[|syms| - 1][ident])
    else Val(syms[..|syms| - 1], ident)
  }

  function DefineVal(syms: Syms, ident: string, r: Resolve): Syms
    requires syms != []
  {
    syms[|syms| - 1 := syms[|syms| - 1][ident := r]]
  }

  /** The tables know what the scope knows. */
  ghost predicate Same(syms: Syms, scope: Scope) {
    syms != [] && forall name: string :: Val(syms, name) == Find(scope, name)
  }

  lemma SamePush(syms: Syms, scope: Scope)
    requires Same(syms, scope)
    ensures Same(syms + [map[]], scope)
  {
    forall name: string ensures Val(syms + [map[]], name) == Find(scope, name) {
      assert (syms + [map[]])[..|syms|] == syms;
    }
  }

  lemma SameDefine(syms: Syms, scope: Scope, ident: string, r: Resolve)
    requires Same(syms, scope)
    ensures Same(DefineVal(syms, ident, r), scope + [Binding(ident, r)])
  {
    var n := |syms| - 1;
    forall name: string ensures Val(DefineVal(syms, ident, r), name) == Find(scope + [Binding(ident, r)], name) {
      assert DefineVal(syms, ident, r)[..n] == syms[..n];
      assert (scope + [Binding(ident, r)])[..|scope|] == scope;
      assert Val(syms, name) == Find(scope, name);
    }
  }

  class Resolver {
    var syms: Syms
    var loopStack: seq<nat>
    var stmtResols: map<nat, Resolve>
    var exprResols: map<nat, Resolve>

    constructor ()
      ensures syms == [map[]] && loopStack == [] && stmtResols == map[] && exprResols == map[]
    {
      syms, loopStack := [map[]], [];
      stmtResols, exprResols := map[], map[];
    }

    ghost function Tables(): Resols
      reads this
    {
      Resols(stmtResols, exprResols)
    }

    /** The tables are what the specification says; false is an exception. */
    ghost predicate Means(ok: bool, r: Option<Resols>)
      reads this
    {
      (ok <==> r.Some?) && (ok ==> r == Some(Tables()))
    }

    method ResolveExpr(e: Expr, ghost scope: Scope) returns (ok: bool)
      requires Same(syms, scope)
      modifies this`exprResols
      ensures Means(ok, ResolverSpec.ResolveExpr(e, scope, old(Tables())))
      decreases e
    {
      match e {
        case Ident(id, name) =>
          var r := Val(syms, name);
          assert r == Find(scope, name);
          if r.None? {
            return false;
          }
          exprResols := exprResols[id := r.value];
          ok := true;
        case Int(_, _) => ok := true;
        case Str(_, _) => ok := true;
        case Call(_, callee, args) =>
          ok := ResolveExpr(callee, scope);
          if !ok {
            return false;
          }
          ok := ResolveArgs(args, scope);
        case Not(_, _) => ok := false;
        case Negate(_, _) => ok := false;
        case Binary(_, _, left, right) =>
          ok := ResolveExpr(left, scope);
          if !ok {
            return false;
          }
          ok := ResolveExpr(right, scope);
      }
    }

    method ResolveArgs(es: List<Expr>, ghost scope: Scope) returns (ok: bool)
      requires Same(syms, scope)
      modifies this`exprResols
      ensures Means(ok, ResolverSpec.ResolveArgs(es, scope, old(Tables())))
      decreases es
    {
      match es {
        case Nil => ok := true;
        case Cons(e, rest) =>
          ok := ResolveExpr(e, scope);
          if !ok {
            return false;
          }
          ok := ResolveArgs(rest, scope);
      }
    }

    method ResolveOpt(e: Option<Expr>, ghost scope: Scope) returns (ok: bool)
      requires Same(syms, scope)
      modifies this`exprResols
      ensures Means(ok, ResolverSpec.ResolveOpt(e, scope, old(Tables())))
    {
      ok := true;
      if e.Some? {
        ok := ResolveExpr(e.value, scope);
      }
    }

    method ResolveStmt(s: Stmt, ghost scope: Scope) returns (ok: bool)
      requires Same(syms, scope)
      modifies this
      ensures Means(ok, ResolverSpec.ResolveStmt(s, scope, old(loopStack), old(Tables())))
      ensures ok ==> Same(syms, ScopeAfter(scope, s)) && loopStack == old(loopStack)
      ensures ok ==> syms == if s.Let? then DefineVal(old(syms), s.name, ToLet(s.id)) else old(syms)
      decreases s
    {
      match s {
        case Let(id, name, init) =>
          SameDefine(syms, scope, name, ToLet(id));
          syms := DefineVal(syms, name, ToLet(id));
          ok := ResolveOpt(init, ScopeAfter(scope, s));
        case Loop(id, body) =>
          loopStack := loopStack + [id];
          ok := ResolveBlock(body, scope);
          if ok {
            loopStack := loopStack[..|loopStack| - 1];
          }
        case While(id, cond, body) =>
          ok := ResolveExpr(cond, scope);
          if !ok {
            return false;
          }
          loopStack := loopStack + [id];
          ok := ResolveBlock(body, scope);
          if ok {
            loopStack := loopStack[..|loopStack| - 1];
          }
        case If(_, cond, truthy, falsy) =>
          ok := ResolveExpr(cond, scope);
          if !ok {
            return false;
          }
          ok := ResolveBlock(truthy, scope);
          if !ok {
            return false;
          }
          if falsy.Some? {
            ok := ResolveBlock(falsy.value, scope);
          }
        case Return(_, e) => ok := ResolveOpt(e, scope);
        case Break(id) =>
          if loopStack == [] {
            return false;
          }
          stmtResols := stmtResols[id := ToLoop(loopStack[|loopStack| - 1])];
          ok := true;
        case Assign(_, subject, e) =>
          ok := ResolveExpr(subject, scope);
          if !ok {
            return false;
          }
          ok := ResolveExpr(e, scope);
        case ExprStmt(_, e) => ok := ResolveExpr(e, scope);
      }
    }

    /** A block's symbols are gone when it ends. */
    method ResolveBlock(b: Block, ghost scope: Scope) returns (ok: bool)
      requires Same(syms, scope)
      modifies this
      ensures Means(ok, ResolverSpec.ResolveBlock(b, scope, old(loopStack), old(Tables())))
      ensures ok ==> syms == old(syms) && loopStack == old(loopStack)
      decreases b, 1
    {
      var outerSyms := syms;
      SamePush(syms, scope);
      syms := syms + [map[]];
      ok := ResolveStmts(b, scope);
      syms := outerSyms;
    }

    method ResolveStmts(b: Block, ghost scope: Scope) returns (ok: bool)
      requires Same(syms, scope)
      modifies this
      ensures Means(ok, ResolverSpec.ResolveBlock(b, scope, old(loopStack), old(Tables())))
      ensures ok ==> loopStack == old(loopStack)
      decreases b, 0
    {
      ok := true;
      ghost var goal := ResolverSpec.ResolveBlock(b, scope, loopStack, Tables());
      var stmts := b;
      ghost var at := scope;
      while stmts.Cons?
        invariant Same(syms, at) && loopStack == old(loopStack)
        invariant stmts == b || stmts < b
        invariant ResolverSpec.ResolveBlock(stmts, at, loopStack, Tables()) == goal
        decreases stmts
      {
        ok := ResolveStmt(stmts.head, at);
        if !ok {
          return false;
        }
        at := ScopeAfter(at, stmts.head);
        stmts := stmts.tail;
      }
    }

    /** One top-level function, with all functions of the program in scope. */
    method ResolveFn(p: Program, f: FnDecl) returns (ok: bool)
      requires syms == [map[]] && loopStack == [] && stmtResols == map[] && exprResols == map[]
      modifies this
      ensures Means(ok, ResolverSpec.ResolveFn(p, f))
    {
      ghost var scope: Scope := [];
      var i := 0;
      while i < |p|
        invariant 0 <= i <= |p| && scope == FnScope(p, i) && Same(syms, scope)
        invariant loopStack == [] && stmtResols == map[] && exprResols == map[]
      {
        SameDefine(syms, scope, p[i].name, ToFn(i));
        syms := DefineVal(syms, p[i].name, ToFn(i));
        scope := scope + [Binding(p[i].name, ToFn(i))];
        i := i + 1;
      }
      SamePush(syms, scope);
      syms := syms + [map[]];
      i := 0;
      assert FnScope(p, |p|) + ParamScope(f.params, 0) == FnScope(p, |p|);
      while i < |f.params|
        invariant 0 <= i <= |f.params| && scope == FnScope(p, |p|) + ParamScope(f.params, i) && Same(syms, scope)
        invariant loopStack == [] && stmtResols == map[] && exprResols == map[]
      {
        SameDefine(syms, scope, f.params[i], ToParam(i));
        syms := DefineVal(syms, f.params[i], ToParam(i));
        scope := scope + [Binding(f.params[i], ToParam(i))];
        assert scope == FnScope(p, |p|) + ParamScope(f.params, i + 1);
        i := i + 1;
      }
      ok := ResolveBlock(f.body, scope);
    }
  }
}
