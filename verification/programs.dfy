/** Small programs, run by their names, over their lines and in memory. */
module Programs {
  import opened Values
  import opened Ast
  import A = AstSemantics
  import opened ResolverSpec
  import opened Named
  import opened Source
  import Accepts
  import Arithmetic
  import AsmFine
  import AsmProgram
  import opened AsmWhole
  import Mem = AsmMemory
  import W = Whole

  predicate Takes(p: Program) {
    Compiles(p) && PlainProgram(p) && FineProgram(p)
  }

  /** A call answers this by names, over the optimised lines, and in memory with the arguments pushed on
    * whatever stack. */
  ghost predicate Everywhere(p: Program, ext: W.Oracle, d: nat, f: nat, args: seq<Value>, w: World, a: Answer)
    requires Takes(p)
  {
    && CallNamed(p, ext, d, f, args, w) == a
    && W.AcceptedProgram(p, Tables(p)) && RegistersSuffice(W.Compile(p, Tables(p)))
    && Seen(Halt(W.CallLir(W.Compile(p, Tables(p)), ext, d, f, args, w))) == a
    && forall at: Mem.Point :: at.w == w && Mem.OnTop(at.m, args) ==>
         AsmProgram.Tells(a, Mem.CallOver(AsmProgram.Installed(p), ext, d, f, |args|, at), at, |args|)
  }

  lemma {:induction false} ByNames(p: Program, ext: W.Oracle, d: nat, f: nat, args: seq<Value>, w: World)
    requires Takes(p)
    ensures Everywhere(p, ext, d, f, args, w, CallNamed(p, ext, d, f, args, w))
  {
    hide W.Compile, Compiles, W.CallLir, CallNamed, FineProgram, Roomy, RegistersSuffice, Mem.OnTop, Mem.CallOver,
      AsmProgram.Tells, AsmProgram.Installed;
    FineRoomy(p);
    AsmProgram.IsLoaded(p);
    ProgramByNames(p, ext, d, f, args, w);
    forall at: Mem.Point | at.w == w && Mem.OnTop(at.m, args)
      ensures AsmProgram.Tells(CallNamed(p, ext, d, f, args, w),
                               Mem.CallOver(AsmProgram.Installed(p), ext, d, f, |args|, at), at, |args|)
    {
      AsmProgram.MemoryByNames(p, ext, d, f, args, at);
    }
  }

  /** The callees of a function at some depth. */
  ghost function Below(p: Program, ext: W.Oracle, d: nat): Callee {
    (g: nat, vs: seq<Value>, v: World) => ReplyOf(CallNamed(p, ext, d, g, vs, v), vs)
  }

  /** A run that ends is what the call answers. */
  lemma {:induction false} RunAnswers(p: Program, ext: W.Oracle, d: nat, f: nat, args: seq<Value>, w: World, n: nat)
    requires Takes(p) && f < |p| && !p[f].extern && |args| == |p[f].params|
    requires RunNamed(p, p[f], args, w, Below(p, ext, d), n) != Unknown
    ensures Everywhere(p, ext, d + 1, f, args, w, RunNamed(p, p[f], args, w, Below(p, ext, d), n))
  {
    hide Compiles, NamedEnds, FineProgram, RunNamed, Everywhere;
    var c := Below(p, ext, d);
    var a := RunNamed(p, p[f], args, w, c, n);
    assert NamedEnds(p, p[f], args, w, c, a) by { Ends(p, f, args, w, c, n); }
    forall b | NamedEnds(p, p[f], args, w, c, b) ensures b == a {
      EndsOnce(p, f, args, w, c, a, b);
    }
    assert CallNamed(p, ext, d + 1, f, args, w) == NamedAnswer(p, p[f], args, w, c);
    ByNames(p, ext, d + 1, f, args, w);
  }

  lemma BelowIs(p: Program, ext: W.Oracle, d: nat, g: nat, vs: seq<Value>, v: World)
    ensures Below(p, ext, d)(g, vs, v) == ReplyOf(CallNamed(p, ext, d, g, vs, v), vs)
  {}

  lemma AtBottom(p: Program, ext: W.Oracle, f: nat, args: seq<Value>, w: World)
    requires f < |p| && !p[f].extern && |args| == |p[f].params|
    ensures CallNamed(p, ext, 0, f, args, w) == NoAnswer(Hung)
  {}

  lemma NamesOf(p: Program, ext: W.Oracle, d: nat, f: nat, args: seq<Value>, w: World, a: Answer)
    requires Takes(p) && Everywhere(p, ext, d, f, args, w, a)
    ensures CallNamed(p, ext, d, f, args, w) == a
  {}

  lemma Ends(p: Program, f: nat, args: seq<Value>, w: World, c: Callee, n: nat)
    requires f < |p| && |args| == |p[f].params| && RunNamed(p, p[f], args, w, c, n) != Unknown
    ensures NamedEnds(p, p[f], args, w, c, RunNamed(p, p[f], args, w, c, n))
  {}

  // ---------- Ids in order, names in scope ----------

  ghost predicate Within(ids: set<nat>, lo: nat, hi: nat) {
    forall id :: id in ids ==> lo <= id < hi
  }

  /** Statement ids from `a` below `b`, expression ids from `c` below `d`, each used once. */
  ghost predicate StmtIn(s: Stmt, a: nat, b: nat, c: nat, d: nat) {
    Unique(s) && Within(StmtIds(s), a, b) && Within(StmtExprs(s), c, d)
  }

  ghost predicate BlockIn(b: Block, a: nat, z: nat, c: nat, d: nat) {
    UniqueBlock(b) && Within(BlockIds(b), a, z) && Within(BlockExprs(b), c, d)
  }

  ghost predicate ExprIn(e: Expr, c: nat, d: nat) {
    UniqueExpr(e) && Within(ExprIds(e), c, d)
  }

  lemma ConsIn(s: Stmt, rest: Block, a: nat, m: nat, z: nat, c: nat, n: nat, d: nat)
    requires StmtIn(s, a, m, c, n) && BlockIn(rest, m, z, n, d) && a <= m <= z && c <= n <= d
    ensures BlockIn(Cons(s, rest), a, z, c, d)
  {}

  lemma LastIn(s: Stmt, a: nat, z: nat, c: nat, d: nat)
    requires StmtIn(s, a, z, c, d)
    ensures BlockIn(Cons(s, Nil), a, z, c, d)
  {
    assert BlockIn(Nil, z, z, d, d);
  }

  lemma IfIn(s: Stmt, a: nat, m: nat, z: nat, c: nat, n: nat, o: nat, d: nat)
    requires s.If? && s.id == z && a <= m <= z && c <= n <= o <= d
    requires ExprIn(s.cond, c, n) && BlockIn(s.truthy, a, m, n, o)
    requires (s.falsy.Some? ==> BlockIn(s.falsy.value, m, z, o, d))
    ensures StmtIn(s, a, z + 1, c, d)
  {}

  lemma LoopIn(s: Stmt, a: nat, z: nat, c: nat, n: nat, d: nat)
    requires (s.Loop? || s.While?) && s.id == z && a <= z && c <= n <= d
    requires BlockIn(s.body, a, z, n, d) && (s.While? ==> ExprIn(s.cond, c, n))
    ensures StmtIn(s, a, z + 1, c, d)
  {}

  lemma AssignIn(s: Stmt, a: nat, c: nat, n: nat, d: nat)
    requires s.Assign? && s.id == a && c <= n <= d && ExprIn(s.subject, c, n) && ExprIn(s.value_, n, d)
    ensures StmtIn(s, a, a + 1, c, d)
  {}

  lemma PlainIn(s: Stmt, a: nat, c: nat, d: nat)
    requires s.id == a && ((s.Let? && s.init.Some? && ExprIn(s.init.value, c, d)) ||
                           (s.Return? && s.value.Some? && ExprIn(s.value.value, c, d)))
    ensures StmtIn(s, a, a + 1, c, d)
  {}

  lemma OpIn(e: Expr, c: nat, n: nat, d: nat)
    requires e.Binary? && e.id == d && c <= n <= d && ExprIn(e.left, c, n) && ExprIn(e.right, n, d)
    ensures ExprIn(e, c, d + 1)
  {}

  lemma LeafIn(e: Expr)
    requires e.Ident? || e.Int?
    ensures ExprIn(e, e.id, e.id + 1)
  {}

  /** An operation on two leaves. */
  lemma OpsIn(e: Expr, c: nat)
    requires e.Binary? && (e.left.Ident? || e.left.Int?) && (e.right.Ident? || e.right.Int?)
    requires e.left.id == c && e.right.id == c + 1 && e.id == c + 2
    ensures ExprIn(e, c, c + 3)
  {
    LeafIn(e.left);
    LeafIn(e.right);
    OpIn(e, c, c + 1, c + 2);
  }

  /** `let i = 0`, a loop, and `return i`. */
  predicate IsThree(b: Block, z: nat, d: nat) {
    && b.Cons? && b.tail.Cons? && b.tail.tail.Cons? && b.tail.tail.tail.Nil?
    && b.head == Stmt.Let(0, "i", Some(Expr.Int(0, 0)))
    && b.tail.tail.head == Stmt.Return(z, Some(Expr.Ident(d, "i")))
  }

  lemma ThreeIn(b: Block, z: nat, d: nat)
    requires IsThree(b, z, d) && StmtIn(b.tail.head, 1, z, 1, d) && 1 <= z && 1 <= d
    ensures UniqueBlock(b)
  {
    hide Unique, UniqueBlock, UniqueExpr;
    var first, last := b.head, b.tail.tail.head;
    LeafIn(first.init.value);
    PlainIn(first, 0, 0, 1);
    LeafIn(last.value.value);
    PlainIn(last, z, d, d + 1);
    LastIn(last, z, z + 1, d, d + 1);
    ConsIn(b.tail.head, b.tail.tail, 1, z, z + 1, 1, d, d + 1);
    ConsIn(first, b.tail, 0, 1, z + 1, 0, 1, d + 1);
  }

  /** Everything is in order in what occurs. */
  ghost predicate InOrder(os: set<Accepts.Occ>) {
    Accepts.AllResolve(os) && Accepts.AllHaveCode(os)
  }

  lemma {:induction false} ThreeNames(b: Block, names: Accepts.Names, inner: Accepts.Names)
    requires (exists z, d :: IsThree(b, z, d)) && inner == names["i" := true]
    requires InOrder(Accepts.StmtOccs(b.tail.head, inner, 0)) && !b.tail.head.Let?
    ensures InOrder(Accepts.BlockOccs(b, names, 0))
  {
    var last := b.tail.tail;
    assert Accepts.StmtOccs(last.head, inner, 0) == {Accepts.Use("i", inner)};
    assert InOrder(Accepts.BlockOccs(last, inner, 0));
    assert InOrder(Accepts.BlockOccs(b.tail, inner, 0));
    assert Accepts.NamesAfter(names, b.head) == inner && Accepts.StmtOccs(b.head, names, 0) == {};
  }

  lemma WhereIs(env: Env, name: string, k: nat)
    requires k < |env| && env[k].name == name && forall j :: k < j < |env| ==> env[j].name != name
    ensures Where(env, name) == k
  {}

  // ---------- Counting up to the argument ----------

  function Name(id: nat, name: string): Expr {
    Expr.Ident(id, name)
  }

  function Op(id: nat, op: BinOp, l: Expr, r: Expr): Expr {
    Expr.Binary(id, Bin(op), l, r)
  }

  const COUNT_NEXT := Stmt.Assign(1, Name(4, "i"), Op(7, Add, Name(5, "i"), Expr.Int(6, 1)))

  const COUNT_LOOP := Stmt.While(2, Op(3, Lt, Name(1, "i"), Name(2, "n")), Cons(COUNT_NEXT, Nil))

  const COUNT_BODY := Cons(Stmt.Let(0, "i", Some(Expr.Int(0, 0))),
                           Cons(COUNT_LOOP, Cons(Stmt.Return(3, Some(Name(8, "i"))), Nil)))

  /** `let i = 0; while i < n { i = i + 1; } return i;` */
  const COUNT: Program := [FnDecl("main", ["n"], false, COUNT_BODY)]

  lemma {:induction false} CountIds()
    ensures UniqueBlock(COUNT_BODY)
  {
    hide Unique, UniqueBlock, UniqueExpr;
    OpsIn(COUNT_LOOP.cond, 1);
    OpsIn(COUNT_NEXT.value_, 5);
    LeafIn(COUNT_NEXT.subject);
    AssignIn(COUNT_NEXT, 1, 4, 5, 8);
    LastIn(COUNT_NEXT, 1, 2, 4, 8);
    LoopIn(COUNT_LOOP, 1, 2, 1, 4, 8);
    ThreeIn(COUNT_BODY, 3, 8);
  }

  lemma {:induction false} CountFine()
    ensures PlainBlock(COUNT_BODY) && AsmFine.FineBlock(COUNT_BODY)
  {
    assert Plain(COUNT_LOOP) && AsmFine.FineStmt(COUNT_LOOP);
  }

  lemma {:induction false} CountNames()
    ensures InOrder(Accepts.FnOccs(COUNT, COUNT[0]))
  {
    var names := Accepts.FnNames(COUNT) + Accepts.ParamNames(COUNT[0]);
    assert "n" in COUNT[0].params;
    var inner := names["i" := true];
    assert InOrder(Accepts.ExprOccs(COUNT_NEXT.value_, inner));
    assert InOrder(Accepts.StmtOccs(COUNT_NEXT, inner, 1));
    assert InOrder(Accepts.BlockOccs(COUNT_LOOP.body, inner, 1));
    assert InOrder(Accepts.ExprOccs(COUNT_LOOP.cond, inner));
    assert InOrder(Accepts.StmtOccs(COUNT_LOOP, inner, 0));
    assert IsThree(COUNT_BODY, 3, 8);
    ThreeNames(COUNT_BODY, names, inner);
  }

  lemma {:induction false} CountTaken()
    ensures Takes(COUNT)
  {
    hide Accepts.AllResolve, Accepts.AllHaveCode, Accepts.FnOccs, UniqueBlock, PlainBlock, AsmFine.FineBlock;
    CountIds();
    CountFine();
    CountNames();
    Accepts.CompilesIff(COUNT);
  }

  /** The environment of the loop. */
  function CountEnv(n: int, i: int): Env {
    [Cell("main", FnRef(0), true), Cell("n", Word(n), false), Cell("i", Word(i), false)]
  }

  /** One more round, or out of the loop. */
  lemma {:induction false} CountTurns(n: int, i: int, w: World, call: Callee, fuel: nat)
    requires 0 <= i <= n < TWO_63 && fuel > n - i
    ensures Exec(COUNT_LOOP, CountEnv(n, i), w, call, fuel) == Normal(CountEnv(n, n), w)
    decreases fuel
  {
    var env := CountEnv(n, i);
    assert Where(env, "i") == 2 && Where(env, "n") == 1;
    assert Eval(COUNT_LOOP.cond, env, w, call) == A.Val(Word(if i < n then 1 else 0), w);
    if i < n {
      var s := COUNT_NEXT;
      assert Eval(s.value_, env, w, call) == A.Val(Word(i + 1), w);
      assert Exec(s, env, w, call, fuel - 1) == Normal(CountEnv(n, i + 1), w);
      assert ExecBlock(COUNT_LOOP.body, env, w, call, fuel - 1) == Normal(CountEnv(n, i + 1), w);
      assert Outer(CountEnv(n, i + 1), 3) == CountEnv(n, i + 1);
      CountTurns(n, i + 1, w, call, fuel - 1);
    }
  }

  lemma {:induction false} CountRun(n: int, w: World, call: Callee)
    requires 0 <= n < TWO_63
    ensures RunNamed(COUNT, COUNT[0], [Word(n)], w, call, n + 1) == Answer(Word(n), w)
  {
    var env := FnCells(COUNT, 1) + ParamCells(["n"], [Word(n)]);
    assert env + [Cell("i", Word(0), false)] == CountEnv(n, 0);
    CountTurns(n, 0, w, call, n + 1);
    assert Where(CountEnv(n, n), "i") == 2;
    var b := COUNT_BODY;
    assert Exec(b.head, env, w, call, n + 1) == Normal(CountEnv(n, 0), w);
    assert Exec(b.tail.tail.head, CountEnv(n, n), w, call, n + 1) == Left(Word(n), w);
    assert ExecBlock(b.tail, CountEnv(n, 0), w, call, n + 1) == Left(Word(n), w);
    assert ExecBlock(b, env, w, call, n + 1) == Left(Word(n), w);
    assert COUNT[0].params == ["n"] && |COUNT| == 1;
  }

  /** A loop runs its body exactly as often as it should: for every word that is not negative the program
    * answers that word, at every depth but 0. */
  lemma {:induction false} Counts(ext: W.Oracle, d: nat, n: int, w: World)
    requires 0 <= n < TWO_63 && d > 0
    ensures Takes(COUNT) && Everywhere(COUNT, ext, d, 0, [Word(n)], w, Answer(Word(n), w))
  {
    hide Takes, Everywhere, RunNamed;
    CountTaken();
    CountRun(n, w, Below(COUNT, ext, d - 1));
    RunAnswers(COUNT, ext, d - 1, 0, [Word(n)], w, n + 1);
  }

  // ---------- Leaving a loop ----------

  const LEAVE_NEXT := Stmt.Let(1, "j", Some(Op(3, Add, Name(1, "i"), Expr.Int(2, 1))))

  const LEAVE_YES := Cons(Stmt.Let(2, "i", Some(Name(7, "j"))), Cons(Stmt.Break(3), Nil))

  const LEAVE_NO := Cons(Stmt.Assign(4, Name(8, "i"), Name(9, "j")), Nil)

  const LEAVE_IF := Stmt.If(5, Op(6, Eq, Name(4, "i"), Name(5, "n")), LEAVE_YES, Some(LEAVE_NO))

  const LEAVE_LOOP := Stmt.Loop(6, Cons(LEAVE_NEXT, Cons(LEAVE_IF, Nil)))

  const LEAVE_BODY := Cons(Stmt.Let(0, "i", Some(Expr.Int(0, 0))),
                           Cons(LEAVE_LOOP, Cons(Stmt.Return(7, Some(Name(10, "i"))), Nil)))

  /** `let i = 0; loop { let j = i + 1; if i == n { let i = j; break; } else { i = j; } } return i;` */
  const LEAVE: Program := [FnDecl("main", ["n"], false, LEAVE_BODY)]

  lemma {:induction false} LeaveIfIds()
    ensures StmtIn(LEAVE_IF, 2, 6, 4, 10)
  {
    OpsIn(LEAVE_IF.cond, 4);
    assert BlockIn(LEAVE_YES.tail, 3, 4, 8, 8);
    assert StmtIn(LEAVE_YES.head, 2, 3, 7, 8);
    ConsIn(LEAVE_YES.head, LEAVE_YES.tail, 2, 3, 4, 7, 8, 8);
    LeafIn(LEAVE_NO.head.subject);
    LeafIn(LEAVE_NO.head.value_);
    AssignIn(LEAVE_NO.head, 4, 8, 9, 10);
    LastIn(LEAVE_NO.head, 4, 5, 8, 10);
    IfIn(LEAVE_IF, 2, 4, 5, 4, 7, 8, 10);
  }

  lemma {:induction false} LeaveIds()
    ensures UniqueBlock(LEAVE_BODY)
  {
    hide Unique, UniqueBlock, UniqueExpr;
    LeaveIfIds();
    LastIn(LEAVE_IF, 2, 6, 4, 10);
    OpsIn(LEAVE_NEXT.init.value, 1);
    PlainIn(LEAVE_NEXT, 1, 1, 4);
    ConsIn(LEAVE_NEXT, LEAVE_LOOP.body.tail, 1, 2, 6, 1, 4, 10);
    LoopIn(LEAVE_LOOP, 1, 6, 1, 1, 10);
    ThreeIn(LEAVE_BODY, 7, 10);
  }

  lemma {:induction false} LeaveFine()
    ensures PlainBlock(LEAVE_BODY) && AsmFine.FineBlock(LEAVE_BODY)
  {
    assert Plain(LEAVE_NEXT) && AsmFine.FineStmt(LEAVE_NEXT) && Plain(LEAVE_IF) && AsmFine.FineStmt(LEAVE_IF);
    assert Plain(LEAVE_LOOP) && AsmFine.FineStmt(LEAVE_LOOP);
  }

  lemma {:induction false} LeaveIfNames(names: Accepts.Names)
    requires {"i", "j", "n"} <= names.Keys && names["i"]
    ensures InOrder(Accepts.StmtOccs(LEAVE_IF, names, 1))
  {
    assert InOrder(Accepts.BlockOccs(LEAVE_YES.tail, names["i" := true], 1));
    assert InOrder(Accepts.BlockOccs(LEAVE_YES, names, 1));
    assert InOrder(Accepts.BlockOccs(LEAVE_NO, names, 1));
    assert InOrder(Accepts.ExprOccs(LEAVE_IF.cond, names));
  }

  lemma {:induction false} LeaveLoopNames(names: Accepts.Names)
    requires {"i", "n"} <= names.Keys && names["i"]
    ensures InOrder(Accepts.StmtOccs(LEAVE_LOOP, names, 0))
  {
    var inner := names["j" := true];
    LeaveIfNames(inner);
    assert InOrder(Accepts.ExprOccs(LEAVE_NEXT.init.value, inner));
    assert Accepts.NamesAfter(names, LEAVE_NEXT) == inner;
    assert InOrder(Accepts.BlockOccs(LEAVE_LOOP.body.tail, inner, 1));
    assert InOrder(Accepts.BlockOccs(LEAVE_LOOP.body, names, 1));
  }

  lemma {:induction false} LeaveNames()
    ensures InOrder(Accepts.FnOccs(LEAVE, LEAVE[0]))
  {
    var names := Accepts.FnNames(LEAVE) + Accepts.ParamNames(LEAVE[0]);
    assert "n" in LEAVE[0].params;
    var outer := names["i" := true];
    LeaveLoopNames(outer);
    assert IsThree(LEAVE_BODY, 7, 10);
    ThreeNames(LEAVE_BODY, names, outer);
  }

  lemma {:induction false} LeaveTaken()
    ensures Takes(LEAVE)
  {
    hide Accepts.AllResolve, Accepts.AllHaveCode, Accepts.FnOccs, UniqueBlock, PlainBlock, AsmFine.FineBlock;
    LeaveIds();
    LeaveFine();
    LeaveNames();
    Accepts.CompilesIff(LEAVE);
  }

  /** One round: it leaves with `i` as it is, or goes on with the next. */
  /** The environment of the loop's body after its first statement. */
  function LeaveEnv(n: int, i: int, j: int): Env {
    CountEnv(n, i) + [Cell("j", Word(j), false)]
  }

  lemma {:induction false} LeaveTest(n: int, i: int, w: World, call: Callee, fuel: nat)
    requires 0 <= i <= n < TWO_63
    ensures Exec(LEAVE_NEXT, CountEnv(n, i), w, call, fuel) == Normal(LeaveEnv(n, i, Wrap64(i + 1)), w)
    ensures Eval(LEAVE_IF.cond, LeaveEnv(n, i, Wrap64(i + 1)), w, call) == A.Val(Word(if i == n then 1 else 0), w)
  {
    var env, inner := CountEnv(n, i), LeaveEnv(n, i, Wrap64(i + 1));
    WhereIs(env, "i", 2);
    WhereIs(inner, "i", 2);
    WhereIs(inner, "n", 1);
    assert Eval(LEAVE_NEXT.init.value, env, w, call) == A.Val(Word(Wrap64(i + 1)), w);
  }

  lemma {:induction false} LeaveYes(n: int, i: int, j: int, w: World, call: Callee, fuel: nat)
    ensures ExecScope(LEAVE_YES, LeaveEnv(n, i, j), w, call, fuel) == Exit.Broke(LeaveEnv(n, i, j), w)
  {
    var env, b := LeaveEnv(n, i, j), LEAVE_YES;
    var more := env + [Cell("i", Word(j), false)];
    WhereIs(env, "j", 3);
    assert Exec(b.head, env, w, call, fuel) == Normal(more, w);
    assert ExecBlock(b.tail, more, w, call, fuel) == Exit.Broke(more, w);
    assert Outer(more, 4) == env;
  }

  lemma {:induction false} LeaveNo(n: int, i: int, j: int, w: World, call: Callee, fuel: nat)
    ensures ExecScope(LEAVE_NO, LeaveEnv(n, i, j), w, call, fuel) == Normal(LeaveEnv(n, j, j), w)
  {
    var env, s := LeaveEnv(n, i, j), LEAVE_NO.head;
    WhereIs(env, "i", 2);
    WhereIs(env, "j", 3);
    assert env[2 := env[2].(v := Word(j))] == LeaveEnv(n, j, j);
    assert Eval(s.value_, env, w, call) == A.Val(Word(j), w);
    assert Exec(s, env, w, call, fuel) == Normal(LeaveEnv(n, j, j), w);
    assert ExecBlock(LEAVE_NO, env, w, call, fuel) == Normal(LeaveEnv(n, j, j), w);
    assert Outer(LeaveEnv(n, j, j), 4) == LeaveEnv(n, j, j);
  }

  /** One round: it leaves with `i` as it is, or goes on with the next. */
  lemma {:induction false} LeaveRound(n: int, i: int, w: World, call: Callee, fuel: nat)
    requires 0 <= i <= n < TWO_63
    ensures ExecScope(LEAVE_LOOP.body, CountEnv(n, i), w, call, fuel) ==
            if i == n then Exit.Broke(CountEnv(n, i), w) else Normal(CountEnv(n, i + 1), w)
  {
    hide Eval, Where, ExecScope, Wrap64;
    var j := Wrap64(i + 1);
    var inner := LeaveEnv(n, i, j);
    LeaveTest(n, i, w, call, fuel);
    LeaveYes(n, i, j, w, call, fuel);
    LeaveNo(n, i, j, w, call, fuel);
    assert Exec(LEAVE_IF, inner, w, call, fuel) ==
           if i == n then Exit.Broke(inner, w) else Normal(LeaveEnv(n, j, j), w);
    assert ExecBlock(LEAVE_LOOP.body.tail, inner, w, call, fuel) == Exec(LEAVE_IF, inner, w, call, fuel);
    assert Outer(inner, 3) == CountEnv(n, i) && Outer(LeaveEnv(n, j, j), 3) == CountEnv(n, j);
    ScopeIs(LEAVE_LOOP.body, CountEnv(n, i), w, call, fuel);
    Arithmetic.WrapFits(i + 1);
  }

  lemma ScopeIs(b: Block, env: Env, w: World, call: Callee, fuel: nat)
    ensures ExecScope(b, env, w, call, fuel) ==
            match ExecBlock(b, env, w, call, fuel)
            case Normal(e, v) => Normal(Outer(e, |env|), v)
            case Broke(e, v) => Exit.Broke(Outer(e, |env|), v)
            case out => out
  {}

  lemma {:induction false} LeaveTurns(n: int, i: int, w: World, call: Callee, fuel: nat)
    requires 0 <= i <= n < TWO_63 && fuel > n - i
    ensures Exec(LEAVE_LOOP, CountEnv(n, i), w, call, fuel) == Normal(CountEnv(n, n), w)
    decreases fuel
  {
    hide ExecScope;
    LeaveRound(n, i, w, call, fuel - 1);
    if i < n {
      LeaveTurns(n, i + 1, w, call, fuel - 1);
    }
  }

  lemma {:induction false} LeaveRun(n: int, w: World, call: Callee)
    requires 0 <= n < TWO_63
    ensures RunNamed(LEAVE, LEAVE[0], [Word(n)], w, call, n + 1) == Answer(Word(n), w)
  {
    var env := FnCells(LEAVE, 1) + ParamCells(["n"], [Word(n)]);
    assert env + [Cell("i", Word(0), false)] == CountEnv(n, 0);
    LeaveTurns(n, 0, w, call, n + 1);
    assert Where(CountEnv(n, n), "i") == 2;
    var b := LEAVE_BODY;
    assert Exec(b.head, env, w, call, n + 1) == Normal(CountEnv(n, 0), w);
    assert Exec(b.tail.tail.head, CountEnv(n, n), w, call, n + 1) == Left(Word(n), w);
    assert ExecBlock(b.tail, CountEnv(n, 0), w, call, n + 1) == Left(Word(n), w);
    assert ExecBlock(b, env, w, call, n + 1) == Left(Word(n), w);
    assert LEAVE[0].params == ["n"] && |LEAVE| == 1;
  }

  /** `break` leaves at the first round whose test holds, and a variable of an inner block is gone with it. */
  lemma {:induction false} Leaves(ext: W.Oracle, d: nat, n: int, w: World)
    requires 0 <= n < TWO_63 && d > 0
    ensures Takes(LEAVE) && Everywhere(LEAVE, ext, d, 0, [Word(n)], w, Answer(Word(n), w))
  {
    hide Takes, Everywhere, RunNamed;
    LeaveTaken();
    LeaveRun(n, w, Below(LEAVE, ext, d - 1));
    RunAnswers(LEAVE, ext, d - 1, 0, [Word(n)], w, n + 1);
  }

  // ---------- Calling itself ----------

  const SUM_IF := Stmt.If(1, Op(2, Lt, Name(0, "n"), Expr.Int(1, 1)),
                          Cons(Stmt.Return(0, Some(Expr.Int(3, 0))), Nil), None)

  const SUM_CALL := Expr.Call(9, Name(5, "sum"), Cons(Op(8, Sub, Name(6, "n"), Expr.Int(7, 1)), Nil))

  const SUM_RET := Stmt.Return(2, Some(Op(10, Add, Name(4, "n"), SUM_CALL)))

  const SUM_BODY := Cons(SUM_IF, Cons(SUM_RET, Nil))

  /** `if n < 1 { return 0; } return n + sum(n - 1);` */
  const SUM: Program := [FnDecl("sum", ["n"], false, SUM_BODY)]

  lemma {:induction false} SumIds()
    ensures UniqueBlock(SUM_BODY)
  {
    hide Unique, UniqueBlock, UniqueExpr;
    OpsIn(SUM_IF.cond, 0);
    LeafIn(SUM_IF.truthy.head.value.value);
    PlainIn(SUM_IF.truthy.head, 0, 3, 4);
    LastIn(SUM_IF.truthy.head, 0, 1, 3, 4);
    IfIn(SUM_IF, 0, 1, 1, 0, 3, 4, 4);
    LeafIn(SUM_RET.value.value.left);
    SumCallIds();
    OpIn(SUM_RET.value.value, 4, 5, 10);
    PlainIn(SUM_RET, 2, 4, 11);
    LastIn(SUM_RET, 2, 3, 4, 11);
    ConsIn(SUM_IF, SUM_BODY.tail, 0, 2, 3, 0, 4, 11);
  }

  lemma {:induction false} SumCallIds()
    ensures ExprIn(SUM_CALL, 5, 10)
  {
    OpsIn(SUM_CALL.args.head, 6);
    LeafIn(SUM_CALL.callee);
    assert UniqueArgs(SUM_CALL.args) && Within(ArgsIds(SUM_CALL.args), 6, 9);
  }

  lemma {:induction false} SumFine()
    ensures PlainBlock(SUM_BODY) && AsmFine.FineBlock(SUM_BODY)
  {
    assert AsmFine.FineArgs(SUM_CALL.args) && AsmFine.FineExpr(SUM_CALL);
    assert AsmFine.FineStmt(SUM_IF) && AsmFine.FineStmt(SUM_RET);
  }

  lemma {:induction false} SumRetNames(names: Accepts.Names)
    requires {"n", "sum"} <= names.Keys
    ensures InOrder(Accepts.BlockOccs(SUM_BODY.tail, names, 0))
  {
    assert InOrder(Accepts.ExprOccs(SUM_CALL.args.head, names));
    assert InOrder(Accepts.ArgsOccs(SUM_CALL.args, names));
    assert InOrder(Accepts.ExprOccs(SUM_CALL, names));
    assert InOrder(Accepts.ExprOccs(SUM_RET.value.value, names));
    assert InOrder(Accepts.StmtOccs(SUM_RET, names, 0));
  }

  lemma {:induction false} SumIfNames(names: Accepts.Names)
    requires "n" in names
    ensures InOrder(Accepts.StmtOccs(SUM_IF, names, 0))
  {
    assert InOrder(Accepts.ExprOccs(SUM_IF.cond, names));
    assert InOrder(Accepts.BlockOccs(SUM_IF.truthy, names, 0));
  }

  lemma {:induction false} SumNames()
    ensures InOrder(Accepts.FnOccs(SUM, SUM[0]))
  {
    var names := Accepts.FnNames(SUM) + Accepts.ParamNames(SUM[0]);
    assert "n" in SUM[0].params && SUM[0] in SUM && "sum" in names;
    SumIfNames(names);
    SumRetNames(names);
    assert InOrder(Accepts.BlockOccs(SUM_BODY, names, 0));
  }

  lemma {:induction false} SumTaken()
    ensures Takes(SUM)
  {
    hide Accepts.AllResolve, Accepts.AllHaveCode, Accepts.FnOccs, UniqueBlock, PlainBlock, AsmFine.FineBlock;
    SumIds();
    SumFine();
    SumNames();
    Accepts.CompilesIff(SUM);
  }

  /** `1 + 2 + ... + n` */
  function UpTo(n: nat): nat {
    if n == 0 then 0 else n + UpTo(n - 1)
  }

  function SumAnswer(d: nat, n: nat, w: World): Answer {
    if n < d then Answer(Word(Wrap64(UpTo(n))), w) else NoAnswer(Hung)
  }

  /** An argument and what the call inside answers. */
  function Added(n: nat, r: Answer): Answer
    requires !r.Unknown?
  {
    if r.NoAnswer? then r
    else match Apply(Add, Word(n), r.v) case None => NoAnswer(Trapped) case Some(v) => Answer(v, r.w)
  }

  lemma SumAdds(d: nat, n: nat, w: World)
    requires d > 0 && n > 0
    ensures Added(n, SumAnswer(d - 1, n - 1, w)) == SumAnswer(d, n, w)
  {
    Arithmetic.WrapSum(n, UpTo(n - 1));
  }

  /** Given what the call inside answers. */
  lemma {:induction false} SumRun(n: nat, w: World, call: Callee, r: Answer)
    requires n < TWO_63 && !r.Unknown?
    requires n > 0 ==> call(0, [Word(n - 1)], w) == ReplyOf(r, [Word(n - 1)])
    requires r.NoAnswer? ==> !r.reply.Returned?
    ensures RunNamed(SUM, SUM[0], [Word(n)], w, call, 0) ==
            if n == 0 then Answer(Word(0), w) else Added(n, r)
  {
    var env := FnCells(SUM, 1) + ParamCells(["n"], [Word(n)]);
    assert env == [Cell("sum", FnRef(0), true), Cell("n", Word(n), false)];
    assert Where(env, "n") == 1 && Where(env, "sum") == 0;
    assert Eval(SUM_IF.cond, env, w, call) == A.Val(Word(if n < 1 then 1 else 0), w);
    assert SUM[0].params == ["n"] && |SUM| == 1;
    if n == 0 {
      assert ExecBlock(SUM_IF.truthy, env, w, call, 0) == Left(Word(0), w);
    } else {
      assert Eval(SUM_CALL.args.head, env, w, call) == A.Val(Word(n - 1), w);
      assert EvalArgs(SUM_CALL.args, env, w, call) == A.Vals([Word(n - 1)], w);
      assert Eval(SUM_CALL.callee, env, w, call) == A.Val(FnRef(0), w);
      assert Eval(SUM_CALL, env, w, call) == if r.NoAnswer? then A.Fail(r.reply) else A.Val(r.v, r.w);
      assert Exec(SUM_IF, env, w, call, 0) == Normal(env, w);
      assert Eval(SUM_RET.value.value, env, w, call) ==
             if r.NoAnswer? then A.Fail(r.reply)
             else match Apply(Add, Word(n), r.v) case None => A.Fail(Trapped) case Some(v) => A.Val(v, r.w);
      assert ExecBlock(SUM_BODY, env, w, call, 0) == ExecBlock(SUM_BODY.tail, env, w, call, 0);
    }
  }

  /** A function that calls itself adds up its arguments, wrapped to a word, if the calls go deep enough, and
    * does not come back otherwise. */
  lemma {:induction false} Sums(ext: W.Oracle, d: nat, n: nat, w: World)
    requires n < TWO_63
    ensures Takes(SUM) && Everywhere(SUM, ext, d, 0, [Word(n)], w, SumAnswer(d, n, w))
    decreases d
  {
    hide Takes, Everywhere, RunNamed, CallNamed, Below, Added, Wrap64;
    SumTaken();
    if d == 0 {
      ByNames(SUM, ext, d, 0, [Word(n)], w);
      AtBottom(SUM, ext, 0, [Word(n)], w);
    } else {
      var r := if n == 0 then NoAnswer(Hung) else CallNamed(SUM, ext, d - 1, 0, [Word(n - 1)], w);
      if n > 0 {
        Sums(ext, d - 1, n - 1, w);
        NamesOf(SUM, ext, d - 1, 0, [Word(n - 1)], w, SumAnswer(d - 1, n - 1, w));
        BelowIs(SUM, ext, d - 1, 0, [Word(n - 1)], w);
        SumAdds(d, n, w);
      }
      SumRun(n, w, Below(SUM, ext, d - 1), r);
      RunAnswers(SUM, ext, d - 1, 0, [Word(n)], w, 0);
    }
  }

  // ---------- Calling others ----------

  const ORDER_CALL_G := Expr.Call(2, Name(0, "g"), Cons(Name(1, "x"), Nil))

  const ORDER_INNER := Expr.Call(7, Name(5, "g"), Cons(Name(6, "y"), Nil))

  const ORDER_CALL_H := Expr.Call(8, Name(3, "h"), Cons(Name(4, "y"), Cons(ORDER_INNER, Nil)))

  const ORDER_RET := Stmt.Return(0, Some(Op(9, Sub, ORDER_CALL_G, ORDER_CALL_H)))

  /** `return g(x) - h(y, g(y));` where `g` and `h` are external. */
  const ORDER: Program := [FnDecl("main", ["x", "y"], false, Cons(ORDER_RET, Nil)),
                           FnDecl("g", ["a"], true, Nil), FnDecl("h", ["a", "b"], true, Nil)]

  lemma {:induction false} OrderIds()
    ensures UniqueBlock(ORDER[0].body)
  {
    hide Unique, UniqueBlock;
    LeafIn(ORDER_CALL_G.callee);
    LeafIn(ORDER_CALL_G.args.head);
    assert ExprIn(ORDER_CALL_G, 0, 3);
    LeafIn(ORDER_INNER.callee);
    LeafIn(ORDER_INNER.args.head);
    assert ExprIn(ORDER_INNER, 5, 8);
    assert UniqueArgs(ORDER_CALL_H.args.tail) && Within(ArgsIds(ORDER_CALL_H.args.tail), 5, 8);
    LeafIn(ORDER_CALL_H.callee);
    LeafIn(ORDER_CALL_H.args.head);
    assert UniqueArgs(ORDER_CALL_H.args) && Within(ArgsIds(ORDER_CALL_H.args), 4, 8);
    assert ExprIn(ORDER_CALL_H, 3, 9);
    OpIn(ORDER_RET.value.value, 0, 3, 9);
    PlainIn(ORDER_RET, 0, 0, 10);
    LastIn(ORDER_RET, 0, 1, 0, 10);
  }

  lemma {:induction false} OrderFine()
    ensures PlainProgram(ORDER) && FineProgram(ORDER)
  {
    assert AsmFine.FineExpr(ORDER_CALL_G) && AsmFine.FineExpr(ORDER_INNER);
    assert AsmFine.FineArgs(ORDER_CALL_H.args) && AsmFine.FineExpr(ORDER_CALL_H);
    assert AsmFine.FineExpr(ORDER_RET.value.value) && AsmFine.FineBlock(ORDER[0].body);
    assert PlainBlock(ORDER[0].body);
  }

  lemma {:induction false} OrderNames(names: Accepts.Names)
    requires {"g", "h", "x", "y"} <= names.Keys
    ensures InOrder(Accepts.BlockOccs(ORDER[0].body, names, 0))
  {
    assert InOrder(Accepts.ArgsOccs(ORDER_CALL_G.args, names)) && InOrder(Accepts.ArgsOccs(ORDER_INNER.args, names));
    assert InOrder(Accepts.ExprOccs(ORDER_CALL_G, names)) && InOrder(Accepts.ExprOccs(ORDER_INNER, names));
    assert InOrder(Accepts.ArgsOccs(ORDER_CALL_H.args.tail, names));
    assert InOrder(Accepts.ArgsOccs(ORDER_CALL_H.args, names));
    assert InOrder(Accepts.ExprOccs(ORDER_CALL_H, names));
    assert InOrder(Accepts.ExprOccs(ORDER_RET.value.value, names));
    assert InOrder(Accepts.StmtOccs(ORDER_RET, names, 0));
  }

  lemma {:induction false} OrderTaken()
    ensures Takes(ORDER)
  {
    hide InOrder, UniqueBlock, PlainProgram, FineProgram, Accepts.BlockOccs, Unique;
    OrderIds();
    OrderFine();
    var names := Accepts.FnNames(ORDER) + Accepts.ParamNames(ORDER[0]);
    assert ORDER[1] in ORDER && ORDER[2] in ORDER && "x" in ORDER[0].params && "y" in ORDER[0].params;
    OrderNames(names);
    ExternTaken(ORDER, 1);
    ExternTaken(ORDER, 2);
    AllTaken(ORDER);
  }

  lemma ExternTaken(p: Program, k: nat)
    requires k < |p| && p[k].body == Nil
    ensures UniqueBlock(p[k].body) && InOrder(Accepts.FnOccs(p, p[k]))
  {}

  lemma AllTaken(p: Program)
    requires forall k :: 0 <= k < |p| ==> UniqueBlock(p[k].body) && InOrder(Accepts.FnOccs(p, p[k]))
    ensures Compiles(p)
  {
    Accepts.CompilesIff(p);
  }

  /** The calls in order: `g(x)`, then the argument `g(y)`, then `h`; and what is subtracted from what. */
  function OrderAnswer(ext: W.Oracle, x: Value, y: Value, w: World): Answer {
    var w1 := w + [Event(1, [x])];
    var w2 := w1 + [Event(1, [y])];
    var gx, gy := ext(1, [x], w), ext(1, [y], w1);
    var hy := ext(2, [y, gy], w2);
    if gx.Word? && hy.Word? then Answer(Word(Wrap64(gx.n - hy.n)), w2 + [Event(2, [y, gy])]) else NoAnswer(Trapped)
  }

  lemma {:induction false} OrderCalls(ext: W.Oracle, d: nat, x: Value, y: Value, w: World)
    ensures var call, env := Below(ORDER, ext, d), FnCells(ORDER, 3) + ParamCells(["x", "y"], [x, y]);
      var w1 := w + [Event(1, [x])];
      var w2, gy := w1 + [Event(1, [y])], ext(1, [y], w1);
      && Eval(ORDER_CALL_G, env, w, call) == A.Val(ext(1, [x], w), w1)
      && Eval(ORDER_CALL_H, env, w1, call) == A.Val(ext(2, [y, gy], w2), w2 + [Event(2, [y, gy])])
  {
    hide CallNamed, Below, Where, Wrap64;
    var call, env := Below(ORDER, ext, d), FnCells(ORDER, 3) + ParamCells(["x", "y"], [x, y]);
    var w1 := w + [Event(1, [x])];
    var w2, gy := w1 + [Event(1, [y])], ext(1, [y], w1);
    WhereIs(env, "g", 1);
    WhereIs(env, "h", 2);
    WhereIs(env, "x", 3);
    WhereIs(env, "y", 4);
    ExternAnswers(ext, d, 1, [x], w);
    ExternAnswers(ext, d, 1, [y], w1);
    ExternAnswers(ext, d, 2, [y, gy], w2);
    assert EvalArgs(ORDER_CALL_G.args, env, w, call) == A.Vals([x], w);
    assert EvalArgs(ORDER_INNER.args, env, w1, call) == A.Vals([y], w1);
    assert Eval(ORDER_INNER, env, w1, call) == A.Val(gy, w2);
    assert EvalArgs(ORDER_CALL_H.args.tail, env, w1, call) == A.Vals([gy], w2);
    assert EvalArgs(ORDER_CALL_H.args, env, w1, call) == A.Vals([y, gy], w2);
  }

  lemma ExternAnswers(ext: W.Oracle, d: nat, f: nat, args: seq<Value>, w: World)
    requires 1 <= f <= 2 && |args| == f
    ensures Below(ORDER, ext, d)(f, args, w) == Returned(ext(f, args, w), args, w + [Event(f, args)])
  {}

  lemma OpEvals(e: Expr, env: Env, w: World, call: Callee)
    requires e.Binary? && e.op.Bin? && Eval(e.left, env, w, call).Val?
    requires Eval(e.right, env, Eval(e.left, env, w, call).w, call).Val?
    ensures var l := Eval(e.left, env, w, call);
      var r := Eval(e.right, env, l.w, call);
      Eval(e, env, w, call) ==
      match Apply(e.op.op, l.v, r.v) case None => A.Fail(Trapped) case Some(v) => A.Val(v, r.w)
  {}

  /** External calls happen in the order written, arguments first, each with its arguments in order and with
    * the answers of those before it. */
  lemma {:induction false} Orders(ext: W.Oracle, d: nat, x: Value, y: Value, w: World)
    requires d > 0
    ensures Takes(ORDER) && Everywhere(ORDER, ext, d, 0, [x, y], w, OrderAnswer(ext, x, y, w))
  {
    hide Takes, Everywhere, CallNamed, Below, Eval;
    OrderTaken();
    OrderRun(ext, d - 1, x, y, w);
    RunAnswers(ORDER, ext, d - 1, 0, [x, y], w, 0);
  }

  lemma {:induction false} OrderRun(ext: W.Oracle, d: nat, x: Value, y: Value, w: World)
    ensures RunNamed(ORDER, ORDER[0], [x, y], w, Below(ORDER, ext, d), 0) == OrderAnswer(ext, x, y, w)
  {
    hide CallNamed, Below, Where, Eval;
    OrderCalls(ext, d, x, y, w);
    var call, env := Below(ORDER, ext, d), FnCells(ORDER, 3) + ParamCells(["x", "y"], [x, y]);
    var a := OrderAnswer(ext, x, y, w);
    assert ORDER[0].params == ["x", "y"] && |ORDER| == 3;
    OpEvals(ORDER_RET.value.value, env, w, call);
    assert Eval(ORDER_RET.value.value, env, w, call) == if a.Answer? then A.Val(a.v, a.w) else A.Fail(Trapped);
    assert Exec(ORDER_RET, env, w, call, 0) == if a.Answer? then Left(a.v, a.w) else Failed(Trapped);
  }
}
