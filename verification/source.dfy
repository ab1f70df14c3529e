/** From names to lines: the resolver in front of the compiler, for one function and for programs. */
module Source {
  import opened Values
  import opened Ast
  import A = AstSemantics
  import MirGen
  import opened MirGenTheorem
  import opened ResolverSpec
  import opened Named
  import ParserSpec
  import Lir
  import W = Whole

  /** The resolver accepts every function, lowering has code for it, and ids are the parser's. */
  predicate Compiles(p: Program) {
    forall k :: 0 <= k < |p| ==>
      && UniqueBlock(p[k].body) && ResolveFn(p, p[k]).Some?
      && MirGen.LowerableBlock(MirGen.Cx(ResolveFn(p, p[k]).value, |p[k].params|), p[k].body)
  }

  function Tables(p: Program): (ts: seq<Resols>)
    requires Compiles(p)
    ensures |ts| == |p| && forall k :: 0 <= k < |p| ==> ts[k] == ResolveFn(p, p[k]).value
  {
    seq(|p|, k requires 0 <= k < |p| => ResolveFn(p, p[k]).value)
  }

  /** What the resolver accepts and lowering has code for, the whole compiler takes. */
  lemma {:induction false} CompilesIsAccepted(p: Program)
    requires Compiles(p)
    ensures W.AcceptedProgram(p, Tables(p))
  {
    forall k | 0 <= k < |p| ensures Accepted(MirGen.Cx(Tables(p)[k], |p[k].params|), p[k].body) {
      ResolveFnScoped(p, p[k]);
    }
  }

  ghost predicate NamedAnswers(p: Program, f: FnDecl, args: seq<Value>, w: World, call: Callee, v: Value, w1: World)
    requires |args| == |f.params|
  {
    exists n: nat :: RunNamed(p, f, args, w, call, n) == Answer(v, w1)
  }

  ghost predicate LirAnswers(fn: Lir.Fn, args: seq<Value>, w: World, call: Callee, v: Value, w1: World) {
    exists after: seq<Value> :: W.LirHalts(fn, args, w, call, Returned(v, after, w1))
  }

  lemma {:induction false} NamedIsBody(p: Program, f: FnDecl, args: seq<Value>, w: World, call: Callee, v: Value,
                                       w1: World)
    requires UniqueBlock(f.body) && PlainBlock(f.body) && ResolveFn(p, f).Some? && |args| == |f.params|
    ensures NamedAnswers(p, f, args, w, call, v, w1) <==>
            exists after: seq<Value> :: BodyHalts(ResolveFn(p, f).value, f.body, args, w, call, Returned(v, after, w1))
  {
    var re := ResolveFn(p, f).value;
    if NamedAnswers(p, f, args, w, call, v, w1) {
      var n: nat :| RunNamed(p, f, args, w, call, n) == Answer(v, w1);
      SlotsMeanNames(p, f, args, w, call, n);
      var out := A.RunBody(re, f.body, args, w, call, n);
      assert out == Halt(Returned(v, out.reply.after, w1));
      assert BodyHalts(re, f.body, args, w, call, Returned(v, out.reply.after, w1));
    }
    if exists after: seq<Value> :: BodyHalts(re, f.body, args, w, call, Returned(v, after, w1)) {
      var after: seq<Value> :| BodyHalts(re, f.body, args, w, call, Returned(v, after, w1));
      var n: nat :| A.RunBody(re, f.body, args, w, call, n) == Halt(Returned(v, after, w1));
      SlotsMeanNames(p, f, args, w, call, n);
      assert RunNamed(p, f, args, w, call, n) == Answer(v, w1);
    }
  }

  /** Resolver, lowering, both optimisers and the line generator together: a compiled function
    * answers exactly what its source answers by the names it uses, for all arguments, worlds and
    * callees. */
  lemma {:induction false} NamesToLines(p: Program, k: nat, args: seq<Value>, w: World, call: Callee, v: Value,
                                        w1: World)
    requires Compiles(p) && k < |p| && !p[k].extern && PlainBlock(p[k].body) && |args| == |p[k].params|
    ensures W.AcceptedProgram(p, Tables(p)) && W.Compile(p, Tables(p))[k].Code?
    ensures NamedAnswers(p, p[k], args, w, call, v, w1) <==>
            LirAnswers(W.Compile(p, Tables(p))[k].fn, args, w, call, v, w1)
  {
    hide W.Compile;
    CompilesIsAccepted(p);
    W.CompileFn(p, Tables(p), k, args, w, call, Hung);
    forall after: seq<Value>
      ensures BodyHalts(Tables(p)[k], p[k].body, args, w, call, Returned(v, after, w1)) <==>
              W.LirHalts(W.Compile(p, Tables(p))[k].fn, args, w, call, Returned(v, after, w1))
    {
      W.CompileFn(p, Tables(p), k, args, w, call, Returned(v, after, w1));
    }
    NamedIsBody(p, p[k], args, w, call, v, w1);
  }

  // ---------- Whole programs by names ----------

  /** Two callees that a program cannot tell apart: the argument words they leave are not looked at. */
  ghost predicate SameAnswers(c: Callee, d: Callee) {
    forall f: nat, args, w :: Seen(Halt(c(f, args, w))) == Seen(Halt(d(f, args, w)))
  }

  lemma InvokeSame(c: Callee, d: Callee, f: Value, args: seq<Value>, w: World)
    requires SameAnswers(c, d)
    ensures var r, s := Invoke(c, f, args, w), Invoke(d, f, args, w);
      if r.Returned? then s.Returned? && s.v == r.v && s.w == r.w else s == r
  {
    if f.FnRef? {
      assert Seen(Halt(c(f.f, args, w))) == Seen(Halt(d(f.f, args, w)));
    }
  }

  lemma {:induction false} EvalCallee(e: Expr, env: Env, w: World, c: Callee, d: Callee)
    requires SameAnswers(c, d)
    ensures Named.Eval(e, env, w, c) == Named.Eval(e, env, w, d)
    decreases e
  {
    match e
    case Call(_, callee, args) =>
      ArgsCallee(args, env, w, c, d);
      var r := Named.EvalArgs(args, env, w, c);
      if r.Vals? {
        EvalCallee(callee, env, r.w, c, d);
        var f := Named.Eval(callee, env, r.w, c);
        if f.Val? {
          InvokeSame(c, d, f.v, r.vs, f.w);
        }
      }
    case Binary(_, _, left, right) =>
      EvalCallee(left, env, w, c, d);
      var r := Named.Eval(left, env, w, c);
      if r.Val? {
        EvalCallee(right, env, r.w, c, d);
      }
    case _ =>
  }

  lemma {:induction false} ArgsCallee(es: List<Expr>, env: Env, w: World, c: Callee, d: Callee)
    requires SameAnswers(c, d)
    ensures Named.EvalArgs(es, env, w, c) == Named.EvalArgs(es, env, w, d)
    decreases es
  {
    if es.Cons? {
      EvalCallee(es.head, env, w, c, d);
      var r := Named.Eval(es.head, env, w, c);
      if r.Val? {
        ArgsCallee(es.tail, env, r.w, c, d);
      }
    }
  }

  lemma {:induction false} ExecCallee(s: Stmt, env: Env, w: World, c: Callee, d: Callee, fuel: nat)
    requires SameAnswers(c, d)
    ensures Named.Exec(s, env, w, c, fuel) == Named.Exec(s, env, w, d, fuel)
    decreases fuel, s
  {
    match s
    case Let(_, _, init) => if init.Some? { EvalCallee(init.value, env, w, c, d); }
    case Loop(_, body) =>
      if fuel > 0 {
        ScopeCallee(body, env, w, c, d, fuel - 1);
        var x := ExecScope(body, env, w, c, fuel - 1);
        if x.Normal? {
          ExecCallee(s, x.env, x.w, c, d, fuel - 1);
        }
      }
    case While(_, cond, body) =>
      if fuel > 0 {
        EvalCallee(cond, env, w, c, d);
        var t := Named.Eval(cond, env, w, c);
        if t.Val? {
          ScopeCallee(body, env, t.w, c, d, fuel - 1);
          var x := ExecScope(body, env, t.w, c, fuel - 1);
          if x.Normal? {
            ExecCallee(s, x.env, x.w, c, d, fuel - 1);
          }
        }
      }
    case If(_, cond, truthy, falsy) =>
      EvalCallee(cond, env, w, c, d);
      var t := Named.Eval(cond, env, w, c);
      if t.Val? {
        ScopeCallee(truthy, env, t.w, c, d, fuel);
        if falsy.Some? {
          ScopeCallee(falsy.value, env, t.w, c, d, fuel);
        }
      }
    case Return(_, e) => if e.Some? { EvalCallee(e.value, env, w, c, d); }
    case Break(_) =>
    case Assign(_, _, e) => EvalCallee(e, env, w, c, d);
    case ExprStmt(_, e) => EvalCallee(e, env, w, c, d);
  }

  lemma {:induction false} BlockCallee(b: Block, env: Env, w: World, c: Callee, d: Callee, fuel: nat)
    requires SameAnswers(c, d)
    ensures Named.ExecBlock(b, env, w, c, fuel) == Named.ExecBlock(b, env, w, d, fuel)
    decreases fuel, b, 0
  {
    if b.Cons? {
      ExecCallee(b.head, env, w, c, d, fuel);
      var x := Named.Exec(b.head, env, w, c, fuel);
      if x.Normal? {
        BlockCallee(b.tail, x.env, x.w, c, d, fuel);
      }
    }
  }

  lemma {:induction false} ScopeCallee(b: Block, env: Env, w: World, c: Callee, d: Callee, fuel: nat)
    requires SameAnswers(c, d)
    ensures ExecScope(b, env, w, c, fuel) == ExecScope(b, env, w, d, fuel)
    decreases fuel, b, 1
  {
    BlockCallee(b, env, w, c, d, fuel);
  }

  /** How a call of a function of the program ends, by names; None when it does not. */
  ghost predicate NamedEnds(p: Program, f: FnDecl, args: seq<Value>, w: World, call: Callee, a: Answer)
    requires |args| == |f.params|
  {
    a != Unknown && exists n: nat :: RunNamed(p, f, args, w, call, n) == a
  }

  /** A reply with an answer; what it leaves in the argument words does not matter. */
  function ReplyOf(a: Answer, args: seq<Value>): Reply {
    match a
    case Answer(v, w) => Returned(v, args, w)
    case NoAnswer(r) => r
    case Unknown => Hung
  }

  ghost function NamedAnswer(p: Program, f: FnDecl, args: seq<Value>, w: World, call: Callee): Answer
    requires |args| == |f.params|
  {
    if exists a :: NamedEnds(p, f, args, w, call, a) then var a :| NamedEnds(p, f, args, w, call, a);
      a else NoAnswer(Hung)
  }

  /** The program by names, calls closed by depth as for the other two programs. */
  ghost function CallNamed(p: Program, ext: W.Oracle, d: nat, f: nat, args: seq<Value>, w: World): Answer
    decreases d
  {
    if f >= |p| || |args| != |p[f].params| then NoAnswer(Trapped)
    else if p[f].extern then Seen(Halt(W.CallExtern(ext, f, args, w)))
    else if d == 0 then NoAnswer(Hung)
    else
      var call: Callee := (g: nat, vs: seq<Value>, v: World) => ReplyOf(CallNamed(p, ext, d - 1, g, vs, v), vs);
      NamedAnswer(p, p[f], args, w, call)
  }

  /** Every function is plain as well. */
  predicate PlainProgram(p: Program) {
    forall k :: 0 <= k < |p| ==> PlainBlock(p[k].body)
  }

  lemma {:induction false} EndsSame(p: Program, f: FnDecl, args: seq<Value>, w: World, c: Callee, d: Callee, a: Answer)
    requires UniqueBlock(f.body) && PlainBlock(f.body) && ResolveFn(p, f).Some? && |args| == |f.params|
    requires SameAnswers(c, d)
    ensures NamedEnds(p, f, args, w, c, a) <==>
            a != Unknown && exists r :: Seen(Halt(r)) == a && BodyHalts(ResolveFn(p, f).value, f.body, args, w, d, r)
  {
    var re := ResolveFn(p, f).value;
    forall n: nat ensures RunNamed(p, f, args, w, c, n) == Seen(A.RunBody(re, f.body, args, w, d, n)) {
      SlotsMeanNames(p, f, args, w, d, n);
      ScopeCallee(f.body, FnCells(p, |p|) + ParamCells(f.params, args), w, c, d, n);
    }
    if NamedEnds(p, f, args, w, c, a) {
      var n: nat :| RunNamed(p, f, args, w, c, n) == a;
      var out := A.RunBody(re, f.body, args, w, d, n);
      assert BodyHalts(re, f.body, args, w, d, out.reply);
    }
    if a != Unknown && exists r :: Seen(Halt(r)) == a && BodyHalts(re, f.body, args, w, d, r) {
      var r :| Seen(Halt(r)) == a && BodyHalts(re, f.body, args, w, d, r);
      var n: nat :| A.RunBody(re, f.body, args, w, d, n) == Halt(r);
      assert RunNamed(p, f, args, w, c, n) == a;
    }
  }

  /** A resolved body has one reply at most. */
  lemma {:induction false} OneBodyReply(p: Program, f: nat, args: seq<Value>, w: World, call: Callee, r: Reply,
                                        s: Reply)
    requires Compiles(p) && f < |p| && !p[f].extern && |args| == |p[f].params|
    requires BodyHalts(Tables(p)[f], p[f].body, args, w, call, r)
    requires BodyHalts(Tables(p)[f], p[f].body, args, w, call, s)
    ensures r == s
  {
    hide W.Compile;
    CompilesIsAccepted(p);
    W.CompileFn(p, Tables(p), f, args, w, call, r);
    W.CompileFn(p, Tables(p), f, args, w, call, s);
    W.OneReply(W.Compile(p, Tables(p))[f].fn, args, w, call, r, s);
  }

  /** A call ends in one way at most, whatever the fuel. */
  lemma {:induction false} EndsOnce(p: Program, f: nat, args: seq<Value>, w: World, call: Callee, a: Answer, b: Answer)
    requires Compiles(p) && f < |p| && !p[f].extern && |args| == |p[f].params| && PlainBlock(p[f].body)
    requires NamedEnds(p, p[f], args, w, call, a) && NamedEnds(p, p[f], args, w, call, b)
    ensures a == b
  {
    hide BodyHalts, NamedEnds;
    EndsSame(p, p[f], args, w, call, call, a);
    EndsSame(p, p[f], args, w, call, call, b);
    var re, body := Tables(p)[f], p[f].body;
    var r :| Seen(Halt(r)) == a && BodyHalts(re, body, args, w, call, r);
    var s :| Seen(Halt(s)) == b && BodyHalts(re, body, args, w, call, s);
    OneBodyReply(p, f, args, w, call, r, s);
  }

  lemma SeenReply(r: Reply, args: seq<Value>)
    ensures Seen(Halt(ReplyOf(Seen(Halt(r)), args))) == Seen(Halt(r))
  {}

  /** One call, given that the callees answer alike. */
  lemma {:induction false} OneCall(p: Program, f: nat, args: seq<Value>, w: World, c: Callee, d: Callee)
    requires Compiles(p) && f < |p| && !p[f].extern && |args| == |p[f].params| && PlainBlock(p[f].body)
    requires SameAnswers(c, d)
    ensures NamedAnswer(p, p[f], args, w, c) == Seen(Halt(W.BodyReply(Tables(p)[f], p[f].body, args, w, d)))
  {
    hide BodyHalts;
    forall a ensures NamedEnds(p, p[f], args, w, c, a) <==>
              exists r :: Seen(Halt(r)) == a && BodyHalts(Tables(p)[f], p[f].body, args, w, d, r) {
      EndsSame(p, p[f], args, w, c, d, a);
    }
    forall r, s | BodyHalts(Tables(p)[f], p[f].body, args, w, d, r) && BodyHalts(Tables(p)[f], p[f].body, args, w, d, s)
      ensures r == s
    {
      OneBodyReply(p, f, args, w, d, r, s);
    }
    if exists r :: BodyHalts(Tables(p)[f], p[f].body, args, w, d, r) {
      var r :| BodyHalts(Tables(p)[f], p[f].body, args, w, d, r);
      assert NamedEnds(p, p[f], args, w, c, Seen(Halt(r)));
    }
  }

  lemma {:induction false} NamedIsAst(p: Program, ext: W.Oracle, d: nat, f: nat, args: seq<Value>, w: World)
    requires Compiles(p) && PlainProgram(p)
    ensures CallNamed(p, ext, d, f, args, w) == Seen(Halt(W.CallAst(p, Tables(p), ext, d, f, args, w)))
    decreases d
  {
    hide Compiles, NamedAnswer, W.BodyReply;
    if f < |p| && |args| == |p[f].params| && !p[f].extern && d > 0 {
      var c: Callee := (g: nat, vs: seq<Value>, v: World) => ReplyOf(CallNamed(p, ext, d - 1, g, vs, v), vs);
      var re := Tables(p);
      var e: Callee := (g: nat, vs: seq<Value>, v: World) => W.CallAst(p, re, ext, d - 1, g, vs, v);
      forall g: nat, vs: seq<Value>, v: World ensures Seen(Halt(c(g, vs, v))) == Seen(Halt(e(g, vs, v))) {
        NamedIsAst(p, ext, d - 1, g, vs, v);
        SeenReply(W.CallAst(p, Tables(p), ext, d - 1, g, vs, v), vs);
      }
      OneCall(p, f, args, w, c, e);
    }
  }

  /** The compiler from end to end, for whole programs: what a program does by the names it uses, with
    * block-scoped shadowing, calls between its functions and calls to external ones, is what its
    * optimised lines do; at every call depth, for all arguments, worlds and external behaviours. */
  lemma {:induction false} ProgramByNames(p: Program, ext: W.Oracle, d: nat, f: nat, args: seq<Value>, w: World)
    requires Compiles(p) && PlainProgram(p)
    ensures W.AcceptedProgram(p, Tables(p))
    ensures CallNamed(p, ext, d, f, args, w) == Seen(Halt(W.CallLir(W.Compile(p, Tables(p)), ext, d, f, args, w)))
  {
    hide W.Compile;
    CompilesIsAccepted(p);
    NamedIsAst(p, ext, d, f, args, w);
    W.CompileCorrect(p, Tables(p), ext, d, f, args, w);
  }

  // ---------- The parser's ids ----------

  /** The next `n` ids from `id` on. */
  ghost predicate AreFrom(ids: set<nat>, id: nat, n: nat) {
    forall k: nat :: k in ids <==> id <= k < id + n
  }

  /** Two intervals of ids side by side, and an id of its own after them. */
  lemma JoinFrom(a: set<nat>, b: set<nat>, id: nat, m: nat, n: nat)
    requires AreFrom(a, id, m) && AreFrom(b, id + m, n)
    ensures a !! b && AreFrom({id + m + n} + a + b, id, m + n + 1)
  {}

  /** A tree over two parts that are numbered one after the other. */
  lemma PairApart(op: Op, l: Expr, r: Expr, id: nat, m: nat, n: nat)
    requires UniqueExpr(l) && UniqueExpr(r) && AreFrom(ExprIds(l), id, m) && AreFrom(ExprIds(r), id + m, n)
    ensures var e := Expr.Binary(id + m + n, op, l, r); UniqueExpr(e) && AreFrom(ExprIds(e), id, m + n + 1)
  {
    JoinFrom(ExprIds(l), ExprIds(r), id, m, n);
    hide AreFrom;
  }

  lemma CallApart(callee: Expr, args: List<Expr>, id: nat, m: nat, n: nat)
    requires UniqueExpr(callee) && UniqueArgs(args) && AreFrom(ExprIds(callee), id, m)
    requires AreFrom(ArgsIds(args), id + m, n)
    ensures var e := Expr.Call(id + m + n, callee, args); UniqueExpr(e) && AreFrom(ExprIds(e), id, m + n + 1)
  {
    JoinFrom(ExprIds(callee), ArgsIds(args), id, m, n);
    hide AreFrom;
  }

  lemma OperandApart(e: Expr, operand: Expr, id: nat, n: nat)
    requires e == Expr.Not(id + n, operand) || e == Expr.Negate(id + n, operand)
    requires UniqueExpr(operand) && AreFrom(ExprIds(operand), id, n)
    ensures UniqueExpr(e) && AreFrom(ExprIds(e), id, n + 1)
  {}

  lemma LeafApart(e: Expr)
    requires e.Ident? || e.Int? || e.Str?
    ensures UniqueExpr(e) && AreFrom(ExprIds(e), e.id, 1)
  {}

  /** Numbering gives every node an id of its own. */
  lemma {:induction false} NumberedApart(e: Expr, id: nat)
    ensures UniqueExpr(ParserSpec.Number(e, id)) && AreFrom(ExprIds(ParserSpec.Number(e, id)), id, ParserSpec.Nodes(e))
    decreases e
  {
    hide AreFrom, UniqueExpr, ExprIds;
    match e
    case Call(_, callee, args) =>
      var m := ParserSpec.Nodes(callee);
      NumberedApart(callee, id);
      ArgsApart(args, id + m);
      CallApart(ParserSpec.Number(callee, id), ParserSpec.NumberArgs(args, id + m), id, m, ParserSpec.ArgNodes(args));
    case Not(_, operand) =>
      NumberedApart(operand, id);
      OperandApart(ParserSpec.Number(e, id), ParserSpec.Number(operand, id), id, ParserSpec.Nodes(operand));
    case Negate(_, operand) =>
      NumberedApart(operand, id);
      OperandApart(ParserSpec.Number(e, id), ParserSpec.Number(operand, id), id, ParserSpec.Nodes(operand));
    case Binary(_, op, left, right) =>
      var m := ParserSpec.Nodes(left);
      NumberedApart(left, id);
      NumberedApart(right, id + m);
      PairApart(op, ParserSpec.Number(left, id), ParserSpec.Number(right, id + m), id, m, ParserSpec.Nodes(right));
    case _ => LeafApart(ParserSpec.Number(e, id));
  }

  lemma {:induction false} ArgsApart(es: List<Expr>, id: nat)
    ensures UniqueArgs(ParserSpec.NumberArgs(es, id))
    ensures AreFrom(ArgsIds(ParserSpec.NumberArgs(es, id)), id, ParserSpec.ArgNodes(es))
    decreases es
  {
    match es
    case Nil =>
    case Cons(e, rest) =>
      NumberedApart(e, id);
      ArgsApart(rest, id + ParserSpec.Nodes(e));
  }

  /** Whatever the parser accepts uses no id twice, and none that it has given before. */
  lemma {:induction false} ParsedApart(toks: ParserSpec.Toks, i: nat, id: nat, prec: nat)
    requires i <= |toks|
    ensures var r := ParserSpec.ParseBinary(toks, i, id, prec);
      r.Some? ==> id <= r.value.id && UniqueExpr(r.value.tree) && AreFrom(ExprIds(r.value.tree), id, r.value.id - id)
  {
    ParserSpec.BinaryGood(toks, i, id, prec);
    var r := ParserSpec.ParseBinary(toks, i, id, prec);
    if r.Some? {
      NumberedApart(r.value.tree, id);
    }
  }
}
