/** From names to machine registers: whole programs after register selection. */
module AsmWhole {
  import opened Values
  import opened Ast
  import opened ResolverSpec
  import opened Named
  import opened Source
  import opened Lir
  import opened LirLive
  import LirOptimize
  import opened AsmSelect
  import opened AsmShare
  import MirGen
  import opened MirShape
  import LirGen
  import LirNormal
  import opened AsmCrowded
  import opened AsmFine
  import opened AsmReach
  import W = Whole

  /** The machine registers suffice in every function. */
  predicate RegistersSuffice(q: seq<W.Unit>) {
    forall k :: 0 <= k < |q| && q[k].Code? ==> Select(q[k].fn.lines, map[]).Some?
  }

  function SelectUnit(u: W.Unit): W.Unit
    requires u.Code? ==> Select(u.fn.lines, map[]).Some?
  {
    if u.Extern? then u else W.Code(u.fn.(lines := Select(u.fn.lines, map[]).value))
  }

  /** The program over machine registers. */
  function Selected(q: seq<W.Unit>): (m: seq<W.Unit>)
    requires RegistersSuffice(q)
    ensures |m| == |q| && forall k :: 0 <= k < |q| ==> m[k] == SelectUnit(q[k])
  {
    seq(|q|, k requires 0 <= k < |q| => SelectUnit(q[k]))
  }

  /** In no function does a register come to share with a live one. */
  predicate Roomy(q: seq<W.Unit>) {
    forall k :: 0 <= k < |q| && q[k].Code? ==> RoomForAll(q[k].fn.lines, MACHINE_REGS)
  }

  ghost predicate Disciplined(q: seq<W.Unit>) {
    forall k :: 0 <= k < |q| && q[k].Code? ==> exists slots: nat :: Ok(q[k].fn.lines, {}, slots, slots)
  }

  lemma {:induction false} UnitSelected(fn: Fn, slots: nat, args: seq<Value>, w: World, call: Callee, r: Reply)
    requires Ok(fn.lines, {}, slots, slots) && RoomForAll(fn.lines, MACHINE_REGS)
    ensures Select(fn.lines, map[]).Some?
    ensures var m := fn.(lines := Select(fn.lines, map[]).value);
      W.LirHalts(fn, args, w, call, r) <==> W.LirHalts(m, args, w, call, r)
  {
    hide Ok, RoomForAll, Select, Run;
    var st := InitialState(args, w);
    SelectionSound(fn.params, fn.lines, slots, fn.entry, st, st, call, 0);
    var m := fn.(lines := Select(fn.lines, map[]).value);
    forall n: nat ensures RunFn(fn, args, w, call, n) == RunFn(m, args, w, call, n) {
      SelectionSound(fn.params, fn.lines, slots, fn.entry, st, st, call, n);
    }
  }

  lemma {:induction false} RoomySuffices(q: seq<W.Unit>)
    requires Disciplined(q) && Roomy(q)
    ensures RegistersSuffice(q)
  {
    forall k | 0 <= k < |q| && q[k].Code? ensures Select(q[k].fn.lines, map[]).Some? {
      var slots: nat :| Ok(q[k].fn.lines, {}, slots, slots);
      UnitSelected(q[k].fn, slots, [], [], (g: nat, vs: seq<Value>, v: World) => Hung, Hung);
    }
  }

  /** One call, given that the callees agree. */
  lemma {:induction false} OneSelected(fn: Fn, slots: nat, args: seq<Value>, w: World, c: Callee, e: Callee)
    requires Ok(fn.lines, {}, slots, slots) && RoomForAll(fn.lines, MACHINE_REGS) && SameCallee(c, e)
    ensures Select(fn.lines, map[]).Some?
    ensures W.LirReply(fn, args, w, c) == W.LirReply(fn.(lines := Select(fn.lines, map[]).value), args, w, e)
  {
    hide Ok, RoomForAll, Select, W.LirHalts;
    UnitSelected(fn, slots, args, w, c, Hung);
    var m := fn.(lines := Select(fn.lines, map[]).value);
    forall r ensures W.LirHalts(fn, args, w, c, r) <==> W.LirHalts(m, args, w, e, r) {
      UnitSelected(fn, slots, args, w, c, r);
      if W.LirHalts(m, args, w, c, r) { W.LirHaltsSame(m, args, w, c, e, r); }
      if W.LirHalts(m, args, w, e, r) { W.LirHaltsSame(m, args, w, e, c, r); }
    }
    forall r, s | W.LirHalts(m, args, w, e, r) && W.LirHalts(m, args, w, e, s) ensures r == s {
      W.OneReply(m, args, w, e, r, s);
    }
  }

  /** Every call of every function ends the same way over machine registers. */
  lemma {:induction false} SelectedCalls(q: seq<W.Unit>, ext: W.Oracle, d: nat, f: nat, args: seq<Value>, w: World)
    requires Disciplined(q) && Roomy(q)
    ensures RegistersSuffice(q) && W.CallLir(Selected(q), ext, d, f, args, w) == W.CallLir(q, ext, d, f, args, w)
    decreases d
  {
    hide W.LirReply, RoomForAll, Ok, Select;
    RoomySuffices(q);
    var m := Selected(q);
    if f < |q| && |args| == W.Arity(q[f]) && q[f].Code? && d > 0 {
      var c: Callee := (g: nat, vs: seq<Value>, v: World) => W.CallLir(q, ext, d - 1, g, vs, v);
      var e: Callee := (g: nat, vs: seq<Value>, v: World) => W.CallLir(m, ext, d - 1, g, vs, v);
      forall g: nat, vs: seq<Value>, v: World ensures c(g, vs, v) == e(g, vs, v) {
        SelectedCalls(q, ext, d - 1, g, vs, v);
      }
      var slots: nat :| Ok(q[f].fn.lines, {}, slots, slots);
      OneSelected(q[f].fn, slots, args, w, c, e);
    }
  }

  lemma {:induction false} CompiledDisciplined(p: Program)
    requires Compiles(p) && W.AcceptedProgram(p, Tables(p))
    ensures Disciplined(W.Compile(p, Tables(p)))
  {
    hide Ok, LirOptimize.OptimizeAll, W.AcceptedProgram, Compiles;
    var re := Tables(p);
    W.LinesOk(p, re);
    LirOptimize.OptimizeAllSound(W.LinesOf(p, re), W.SlotsOf(p, re));
    var fs := LirOptimize.OptimizeAll(W.LinesOf(p, re), W.SlotsOf(p, re));
    var q := W.Compile(p, re);
    forall k | 0 <= k < |q| && q[k].Code? ensures exists slots: nat :: Ok(q[k].fn.lines, {}, slots, slots) {
      assert Ok(fs[k], {}, W.SlotsOf(p, re)[k], W.SlotsOf(p, re)[k]);
    }
  }

  /** The compiler from end to end, register selection included: wherever no register of the optimised
    * lines comes to share with a live one, a program over machine registers does what the source does
    * by the names it uses. */
  lemma {:induction false} MachineByNames(p: Program, ext: W.Oracle, d: nat, f: nat, args: seq<Value>, w: World)
    requires Compiles(p) && PlainProgram(p)
    ensures W.AcceptedProgram(p, Tables(p))
    ensures Roomy(W.Compile(p, Tables(p))) ==>
              var q := W.Compile(p, Tables(p));
              && RegistersSuffice(q)
              && CallNamed(p, ext, d, f, args, w) == Seen(Halt(W.CallLir(Selected(q), ext, d, f, args, w)))
  {
    hide W.Compile, Compiles, W.CallLir, CallNamed, Disciplined, Roomy;
    CompilesIsAccepted(p);
    CompiledDisciplined(p);
    ProgramByNames(p, ext, d, f, args, w);
    if Roomy(W.Compile(p, Tables(p))) {
      SelectedCalls(W.Compile(p, Tables(p)), ext, d, f, args, w);
    }
  }

  // ---------- Which programs ----------

  /** A function's lines are the normal form of its generated lines. */
  lemma {:induction false} CompiledNormal(p: Program, k: nat)
    requires Compiles(p) && W.AcceptedProgram(p, Tables(p)) && k < |p| && !p[k].extern
    ensures var m := W.MirOf(p[k], Tables(p)[k]); var q := W.Compile(p, Tables(p));
      && WellFormed(m) && q[k].Code? && q[k].fn.lines == LirNormal.Normal(LirGen.FnLines(m))
  {
    var re := Tables(p);
    W.MirOk(p[k], re[k]);
    W.LinesOk(p, re);
    LirNormal.OptimizeIsNormal(W.LinesOf(p, re), W.SlotsOf(p, re), k);
    hide W.MirOf, LirNormal.Normal, LirGen.FnLines, WellFormed;
  }

  /** Exactly when a compiled function keeps live registers apart: when in none of the blocks that are
    * left does an operation find its operands in the same machine register. */
  lemma {:induction false} FunctionRoomy(p: Program, k: nat)
    requires Compiles(p) && k < |p| && !p[k].extern
    ensures W.AcceptedProgram(p, Tables(p)) && W.Compile(p, Tables(p))[k].Code?
    ensures WellFormed(W.MirOf(p[k], Tables(p)[k]))
    ensures RoomForAll(W.Compile(p, Tables(p))[k].fn.lines, MACHINE_REGS) <==>
      ClearFrom(W.MirOf(p[k], Tables(p)[k]).blocks, 0)
  {
    CompilesIsAccepted(p);
    CompiledNormal(p, k);
    hide W.Compile, W.MirOf, LirNormal.Normal, LirGen.FnLines, RoomForAll, ClearFrom, Ok, Apart, Compiles;
    var m := W.MirOf(p[k], Tables(p)[k]);
    NormalApart(m);
    ApartIff(LirNormal.Normal(LirGen.FnLines(m)), MACHINE_REGS, m.locals);
  }

  /** What that is in the source: every expression must be fine that the body can get to, and it is enough
    * that all are; so exactly all where nothing is cut off. */
  lemma {:induction false} BodyRoomy(p: Program, k: nat)
    requires Compiles(p) && k < |p| && !p[k].extern
    ensures W.AcceptedProgram(p, Tables(p)) && W.Compile(p, Tables(p))[k].Code?
    ensures var room := RoomForAll(W.Compile(p, Tables(p))[k].fn.lines, MACHINE_REGS);
      var re, body := Tables(p)[k], p[k].body;
      && (room ==> FineReachedBlock(re, body))
      && (FineBlock(body) ==> room)
      && (UncutBlock(re, body) ==> (room <==> FineBlock(body)))
  {
    hide W.Compile, RoomForAll, ClearFrom, FineReachedBlock, FineBlock, UncutBlock;
    FunctionRoomy(p, k);
    var cx := MirGen.Cx(Tables(p)[k], |p[k].params|);
    FnReached(cx, p[k].body);
    if FineBlock(p[k].body) {
      FineFn(cx, p[k].body);
    }
    if UncutBlock(cx.re, p[k].body) {
      UncutBlockFine(cx.re, p[k].body);
    }
  }

  /** Where something is cut off, what the body can get to does not decide: a `while` behind a `return` stays in
    * the compiled function, and its expressions count. */
  lemma {:induction false} CutLoopRoomy(p: Program, k: nat, e: Expr)
    requires Compiles(p) && k < |p| && !p[k].extern && p[k].body == CutLoop(e)
    ensures W.AcceptedProgram(p, Tables(p)) && W.Compile(p, Tables(p))[k].Code?
    ensures FineReachedBlock(Tables(p)[k], p[k].body)
    ensures RoomForAll(W.Compile(p, Tables(p))[k].fn.lines, MACHINE_REGS) <==> FineExpr(e)
  {
    hide W.Compile, RoomForAll, ClearFrom, FineReachedBlock, FineExpr, CutLoop;
    FunctionRoomy(p, k);
    var cx := MirGen.Cx(Tables(p)[k], |p[k].params|);
    assert MirGen.LowerableBlock(cx, p[k].body);
    LowerableCut(cx, e);
    CutLoopCounts(cx, e);
  }

  lemma LowerableCut(cx: MirGen.Cx, e: Expr)
    requires MirGen.LowerableBlock(cx, CutLoop(e))
    ensures MirGen.LowerableExpr(e)
  {
    var rest := CutLoop(e).tail;
    assert MirGen.LowerableBlock(cx, rest);
    assert rest.head.While? && rest.head.body == Cons(ExprStmt(2, e), Nil);
    assert MirGen.Lowerable(cx, rest.head);
    assert MirGen.LowerableBlock(cx, rest.head.body);
    assert MirGen.Lowerable(cx, ExprStmt(2, e));
  }

  /** Every expression of the program is fine. */
  predicate FineProgram(p: Program) {
    forall k :: 0 <= k < |p| && !p[k].extern ==> FineBlock(p[k].body)
  }

  lemma {:induction false} FineRoomy(p: Program)
    requires Compiles(p) && FineProgram(p)
    ensures W.AcceptedProgram(p, Tables(p)) && Roomy(W.Compile(p, Tables(p)))
  {
    hide W.Compile, RoomForAll, FineReachedBlock, FineBlock, UncutBlock;
    CompilesIsAccepted(p);
    var q := W.Compile(p, Tables(p));
    forall k | 0 <= k < |q| && q[k].Code? ensures RoomForAll(q[k].fn.lines, MACHINE_REGS) {
      CodeIsCode(p, k);
      BodyRoomy(p, k);
    }
  }

  lemma CodeIsCode(p: Program, k: nat)
    requires Compiles(p) && W.AcceptedProgram(p, Tables(p)) && k < |p|
    ensures W.Compile(p, Tables(p))[k].Code? ==> !p[k].extern
  {}

  /** So a program of fine expressions does over machine registers what it does by the names it uses. */
  lemma {:induction false} FineMachine(p: Program, ext: W.Oracle, d: nat, f: nat, args: seq<Value>, w: World)
    requires Compiles(p) && PlainProgram(p) && FineProgram(p)
    ensures W.AcceptedProgram(p, Tables(p)) && RegistersSuffice(W.Compile(p, Tables(p)))
    ensures CallNamed(p, ext, d, f, args, w) == Seen(Halt(W.CallLir(Selected(W.Compile(p, Tables(p))), ext, d, f, args,
                                                                    w)))
  {
    hide W.Compile, Compiles, FineProgram, Roomy, W.CallLir, CallNamed;
    FineRoomy(p);
    MachineByNames(p, ext, d, f, args, w);
  }
}
