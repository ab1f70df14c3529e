/** The compiler from end to end: a program's meaning is its generated program's meaning. */
module Whole {
  // Calls between functions are closed by call depth: at depth d a function runs with the functions at
  // depth d - 1 as callees, and at depth 0 calls do not come back.

  import opened Values
  import opened Ast
  import M = Mir
  import MirGen
  import opened MirGenTheorem
  import opened MirGenBalance
  import opened MirShape
  import O = MirOptimize
  import opened MirOptimizeProof
  import opened Lir
  import opened LirGen
  import opened LirGenProof
  import opened LirGenLive
  import opened LirLive
  import P = LirProgram
  import LirOptimize

  /** What an external function answers, given all that has happened before. */
  type Oracle = (nat, seq<Value>, World) -> Value

  function CallExtern(ext: Oracle, f: nat, args: seq<Value>, w: World): Reply {
    Returned(ext(f, args, w), args, w + [Event(f, args)])
  }

  // ---------- The source program ----------

  /** The reply a body halts with; none is no answer. */
  ghost function BodyReply(re: Resols, body: Block, args: seq<Value>, w: World, call: Callee): Reply {
    if exists r :: BodyHalts(re, body, args, w, call, r) then var r :| BodyHalts(re, body, args, w, call, r);
      r else Hung
  }

  ghost function CallAst(p: Program, re: seq<Resols>, ext: Oracle, d: nat, f: nat, args: seq<Value>, w: World): Reply
    requires |re| == |p|
    decreases d
  {
    if f >= |p| || |args| != |p[f].params| then Trapped
    else if p[f].extern then CallExtern(ext, f, args, w)
    else if d == 0 then Hung
    else
      var call: Callee := (g: nat, vs: seq<Value>, v: World) => CallAst(p, re, ext, d - 1, g, vs, v);
      BodyReply(re[f], p[f].body, args, w, call)
  }

  // ---------- The generated program ----------

  /** External functions get no lines, only a wrapper. */
  datatype Unit = Extern(params: nat) | Code(fn: Fn)

  ghost predicate LirHalts(fn: Fn, args: seq<Value>, w: World, call: Callee, r: Reply) {
    exists n: nat :: RunFn(fn, args, w, call, n) == Halt(r)
  }

  function Arity(u: Unit): nat {
    match u
    case Extern(n) => n
    case Code(fn) => fn.params
  }

  ghost function LirReply(fn: Fn, args: seq<Value>, w: World, call: Callee): Reply {
    if exists r :: LirHalts(fn, args, w, call, r) then var r :| LirHalts(fn, args, w, call, r); r else Hung
  }

  ghost function CallLir(q: seq<Unit>, ext: Oracle, d: nat, f: nat, args: seq<Value>, w: World): Reply
    decreases d
  {
    if f >= |q| || |args| != Arity(q[f]) then Trapped
    else if q[f].Extern? then CallExtern(ext, f, args, w)
    else if d == 0 then Hung
    else
      var call: Callee := (g: nat, vs: seq<Value>, v: World) => CallLir(q, ext, d - 1, g, vs, v);
      LirReply(q[f].fn, args, w, call)
  }

  // ---------- The compiler ----------

  /** Every function resolves and lowers. */
  predicate AcceptedProgram(p: Program, re: seq<Resols>) {
    && |re| == |p|
    && forall k :: 0 <= k < |p| ==> Accepted(MirGen.Cx(re[k], |p[k].params|), p[k].body)
  }

  function MirOf(f: FnDecl, re: Resols): M.Fn
    requires Accepted(MirGen.Cx(re, |f.params|), f.body)
  {
    OptimizeFn(MirGen.LowerFn(MirGen.Cx(re, |f.params|), f.body))
  }

  function LinesOf(p: Program, re: seq<Resols>): (fs: seq<seq<Line>>)
    requires AcceptedProgram(p, re)
    ensures |fs| == |p|
  {
    seq(|p|, k requires 0 <= k < |p| => if p[k].extern then [] else FnLines(MirOf(p[k], re[k])))
  }

  function SlotsOf(p: Program, re: seq<Resols>): (ss: seq<nat>)
    requires AcceptedProgram(p, re)
    ensures |ss| == |p|
  {
    seq(|p|, k requires 0 <= k < |p| => if p[k].extern then 0 else MirOf(p[k], re[k]).locals)
  }

  ghost function Compile(p: Program, re: seq<Resols>): (q: seq<Unit>)
    requires AcceptedProgram(p, re)
    ensures |q| == |p|
  {
    LinesOk(p, re);
    LirOptimize.OptimizeAllSound(LinesOf(p, re), SlotsOf(p, re));
    var fs := LirOptimize.OptimizeAll(LinesOf(p, re), SlotsOf(p, re));
    seq(|p|, k requires 0 <= k < |p| =>
      if p[k].extern then Extern(|p[k].params|) else Code(Fn(|p[k].params|, 0, fs[k])))
  }

  lemma {:induction false} MirOk(f: FnDecl, re: Resols)
    requires Accepted(MirGen.Cx(re, |f.params|), f.body)
    ensures var m := MirOf(f, re); WellFormed(m) && m.params == |f.params| && m.entry == 0
  {
    LowerFnWellFormed(MirGen.Cx(re, |f.params|), f.body);
    OptimizeSound(MirGen.LowerFn(MirGen.Cx(re, |f.params|), f.body));
  }

  lemma {:induction false} LinesOk(p: Program, re: seq<Resols>)
    requires AcceptedProgram(p, re)
    ensures LirOptimize.AllOk(LinesOf(p, re), SlotsOf(p, re))
  {
    forall k | 0 <= k < |p| ensures Ok(LinesOf(p, re)[k], {}, SlotsOf(p, re)[k], SlotsOf(p, re)[k]) {
      if !p[k].extern {
        MirOk(p[k], re[k]);
        GenFnOk(MirOf(p[k], re[k]));
      }
    }
  }

  // ---------- Callees that answer alike ----------

  /** `d` answers whatever `c` does, unless `c` does not come back. */
  ghost predicate Below(c: Callee, d: Callee) {
    forall f: nat, args, w :: c(f, args, w) == Hung || c(f, args, w) == d(f, args, w)
  }

  lemma {:induction false} StepBelow(ins: Ins, st: State, c: Callee, d: Callee)
    requires Below(c, d)
    ensures StepIns(ins, st, c) == Stop(Hung) || StepIns(ins, st, c) == StepIns(ins, st, d)
  {
    match ins
    case CallReg(r, n) => if r in st.regs { CallBelow(st.regs[r], n, st, c, d); }
    case CallImm(f, n) => CallBelow(FnRef(f), n, st, c, d);
    case _ =>
  }

  lemma {:induction false} CallBelow(f: Value, n: nat, st: State, c: Callee, d: Callee)
    requires Below(c, d)
    ensures CallWith(f, n, st, c) == Stop(Hung) || CallWith(f, n, st, c) == CallWith(f, n, st, d)
  {
    if f.FnRef? && n <= |st.stack| {
      var args := st.stack[|st.stack| - n..];
      assert c(f.f, args, st.w) == Hung || c(f.f, args, st.w) == d(f.f, args, st.w);
    }
  }

  lemma {:induction false} StraightBelow(ls: seq<Line>, st: State, c: Callee, d: Callee)
    requires Below(c, d)
    ensures Straight(ls, st, c) == Stop(Hung) || Straight(ls, st, c) == Straight(ls, st, d)
    decreases |ls|
  {
    if ls != [] {
      StepBelow(ls[0].ins, st, c, d);
      var flow := StepIns(ls[0].ins, st, c);
      if flow.Fall? {
        StraightBelow(ls[1..], flow.st, c, d);
      }
    }
  }

  /** With better callees a run comes back the same way, if it came back at all. */
  lemma {:induction false} RunBelow(params: nat, ls: seq<Line>, l: Label, st: State, c: Callee, d: Callee, fuel: nat)
    requires Below(c, d)
    ensures Run(params, ls, l, st, c, fuel) == Halt(Hung) ||
      Run(params, ls, l, st, c, fuel) == Run(params, ls, l, st, d, fuel)
    decreases fuel
  {
    StraightBelow(From(ls, l), st, c, d);
    var flow := Straight(From(ls, l), st, c);
    if flow.Jump? && fuel > 0 {
      RunBelow(params, ls, flow.target, flow.st, c, d, fuel - 1);
    }
  }

  lemma {:induction false} RunLonger(params: nat, ls: seq<Line>, l: Label, st: State, call: Callee, m: nat, n: nat)
    requires m <= n && Run(params, ls, l, st, call, m).Halt?
    ensures Run(params, ls, l, st, call, n) == Run(params, ls, l, st, call, m)
    decreases m
  {
    var flow := Straight(From(ls, l), st, call);
    if flow.Jump? {
      RunLonger(params, ls, flow.target, flow.st, call, m - 1, n - 1);
    }
  }

  /** A function halts with one reply. */
  lemma {:induction false} OneReply(fn: Fn, args: seq<Value>, w: World, call: Callee, r: Reply, s: Reply)
    requires LirHalts(fn, args, w, call, r) && LirHalts(fn, args, w, call, s)
    ensures r == s
  {
    var m: nat :| RunFn(fn, args, w, call, m) == Halt(r);
    var n: nat :| RunFn(fn, args, w, call, n) == Halt(s);
    RunLonger(fn.params, fn.lines, fn.entry, InitialState(args, w), call, m, m + n);
    RunLonger(fn.params, fn.lines, fn.entry, InitialState(args, w), call, n, m + n);
  }

  lemma {:induction false} HaltsBelow(fn: Fn, args: seq<Value>, w: World, c: Callee, d: Callee, r: Reply)
    requires Below(c, d) && LirHalts(fn, args, w, c, r) && r != Hung
    ensures LirHalts(fn, args, w, d, r)
  {
    var n: nat :| RunFn(fn, args, w, c, n) == Halt(r);
    RunBelow(fn.params, fn.lines, fn.entry, InitialState(args, w), c, d, n);
    assert RunFn(fn, args, w, d, n) == Halt(r);
  }

  // ---------- One function ----------

  lemma {:induction false} MirStages(f: FnDecl, re: Resols, args: seq<Value>, w: World, call: Callee, r: Reply)
    requires Accepted(MirGen.Cx(re, |f.params|), f.body) && |args| == |f.params|
    ensures BodyHalts(re, f.body, args, w, call, r) <==> MirHalts(MirOf(f, re), args, w, call, r)
  {
    var cx := MirGen.Cx(re, |f.params|);
    var fn := MirGen.LowerFn(cx, f.body);
    LowerFnCorrect(cx, f.body, args, w, call, r);
    LowerFnWellFormed(cx, f.body);
    OptimizeSound(fn);
    var st := M.InitialState(args, w);
    var opt := OptimizeFn(fn);
    assert O.Halts(fn.params, fn.blocks, 0, st, call, r) <==> O.Halts(fn.params, opt.blocks, 0, st, call, r);
    SameHalts(fn, args, w, call, r);
    SameHalts(opt, args, w, call, r);
  }

  lemma {:induction false} SameHalts(fn: M.Fn, args: seq<Value>, w: World, call: Callee, r: Reply)
    ensures MirHalts(fn, args, w, call, r) <==> O.Halts(fn.params, fn.blocks, fn.entry, M.InitialState(args, w), call,
                                                        r)
  {
    forall n: nat ensures M.RunFn(fn, args, w, call, n) ==
      M.Run(fn.params, fn.blocks, fn.entry, M.InitialState(args, w), call, n) {}
  }

  lemma {:induction false} LirStages(m: M.Fn, lines: seq<Line>, args: seq<Value>, w: World, call: Callee, r: Reply)
    requires WellFormed(m) && m.entry == 0 && |args| == m.params && P.SameProgram(FnLines(m), lines)
    ensures MirHalts(m, args, w, call, r) <==> LirHalts(Fn(m.params, 0, lines), args, w, call, r)
  {
    var st := InitialState(args, w);
    forall n: nat ensures M.RunFn(m, args, w, call, n) == RunFn(Fn(m.params, 0, lines), args, w, call, n) {
      GenFnCorrect(m, args, w, call, n);
      P.SameRun(m.params, FnLines(m), lines, 0, st, st, call, n);
    }
  }

  /** A compiled function, whatever its callees do, halts with a reply exactly when its body does. */
  lemma {:induction false} CompileFn(p: Program, re: seq<Resols>, f: nat, args: seq<Value>, w: World, call: Callee,
                                     r: Reply)
    requires AcceptedProgram(p, re) && f < |p| && !p[f].extern && |args| == |p[f].params|
    ensures Compile(p, re)[f].Code?
    ensures BodyHalts(re[f], p[f].body, args, w, call, r) <==> LirHalts(Compile(p, re)[f].fn, args, w, call, r)
  {
    LinesOk(p, re);
    LirOptimize.OptimizeAllSound(LinesOf(p, re), SlotsOf(p, re));
    var fs := LirOptimize.OptimizeAll(LinesOf(p, re), SlotsOf(p, re));
    var m := MirOf(p[f], re[f]);
    MirOk(p[f], re[f]);
    MirStages(p[f], re[f], args, w, call, r);
    assert LinesOf(p, re)[f] == FnLines(m);
    LirStages(m, fs[f], args, w, call, r);
  }

  // ---------- Whole programs ----------

  /** A unit does what a function does, whatever its callees do. */
  ghost predicate SameFn(f: FnDecl, re: Resols, u: Unit) {
    && Arity(u) == |f.params| && (u.Extern? <==> f.extern)
    && (u.Code? ==> forall args, w, call, r :: |args| == |f.params| ==>
          (BodyHalts(re, f.body, args, w, call, r) <==> LirHalts(u.fn, args, w, call, r)))
  }

  ghost predicate SameFns(p: Program, re: seq<Resols>, q: seq<Unit>) {
    |re| == |p| == |q| && forall k :: 0 <= k < |p| ==> SameFn(p[k], re[k], q[k])
  }

  lemma {:induction false} CompileFns(p: Program, re: seq<Resols>)
    requires AcceptedProgram(p, re)
    ensures SameFns(p, re, Compile(p, re))
  {
    var q := Compile(p, re);
    forall k | 0 <= k < |p| ensures SameFn(p[k], re[k], q[k]) {
      if !p[k].extern {
        forall args, w, call, r | |args| == |p[k].params|
          ensures BodyHalts(re[k], p[k].body, args, w, call, r) <==> LirHalts(q[k].fn, args, w, call, r)
        {
          CompileFn(p, re, k, args, w, call, r);
        }
      }
    }
  }

  lemma {:induction false} LirHaltsSame(fn: Fn, args: seq<Value>, w: World, c: Callee, d: Callee, r: Reply)
    requires SameCallee(c, d) && LirHalts(fn, args, w, c, r)
    ensures LirHalts(fn, args, w, d, r)
  {
    var n: nat :| RunFn(fn, args, w, c, n) == Halt(r);
    assert Below(c, d) && Below(d, c) by {
      forall f: nat, vs, v ensures c(f, vs, v) == d(f, vs, v) {}
    }
    RunBelow(fn.params, fn.lines, fn.entry, InitialState(args, w), c, d, n);
    RunBelow(fn.params, fn.lines, fn.entry, InitialState(args, w), d, c, n);
    assert RunFn(fn, args, w, d, n) == Halt(r);
  }

  /** One call, given that the callees agree; at most one reply is possible. */
  lemma {:induction false} CallSame(f: FnDecl, re: Resols, u: Unit, args: seq<Value>, w: World, c: Callee, d: Callee)
    requires SameFn(f, re, u) && u.Code? && |args| == |f.params| && SameCallee(c, d)
    ensures BodyReply(re, f.body, args, w, c) == LirReply(u.fn, args, w, d)
  {
    forall r ensures BodyHalts(re, f.body, args, w, c, r) <==> LirHalts(u.fn, args, w, d, r) {
      assert BodyHalts(re, f.body, args, w, c, r) <==> LirHalts(u.fn, args, w, c, r);
      if LirHalts(u.fn, args, w, c, r) { LirHaltsSame(u.fn, args, w, c, d, r); }
      if LirHalts(u.fn, args, w, d, r) { LirHaltsSame(u.fn, args, w, d, c, r); }
    }
    forall r, s | LirHalts(u.fn, args, w, d, r) && LirHalts(u.fn, args, w, d, s) ensures r == s {
      OneReply(u.fn, args, w, d, r, s);
    }
  }

  lemma {:induction false} CallsSame(p: Program, re: seq<Resols>, q: seq<Unit>, ext: Oracle, d: nat, f: nat,
                                     args: seq<Value>, w: World)
    requires SameFns(p, re, q)
    ensures CallAst(p, re, ext, d, f, args, w) == CallLir(q, ext, d, f, args, w)
    decreases d
  {
    if f < |p| {
      assert SameFn(p[f], re[f], q[f]);
      if |args| == |p[f].params| && !p[f].extern && d > 0 {
        var c: Callee := (g: nat, vs: seq<Value>, v: World) => CallAst(p, re, ext, d - 1, g, vs, v);
        var e: Callee := (g: nat, vs: seq<Value>, v: World) => CallLir(q, ext, d - 1, g, vs, v);
        forall g: nat, vs: seq<Value>, v: World ensures c(g, vs, v) == e(g, vs, v) {
          CallsSame(p, re, q, ext, d - 1, g, vs, v);
        }
        CallSame(p[f], re[f], q[f], args, w, c, e);
      }
    }
  }

  /** The whole compiler preserves meaning: every call of every function, at every call depth, in
    * every world and with every behaviour of the external functions, ends the same way in the
    * source program and in the generated one. */
  lemma {:induction false} CompileCorrect(p: Program, re: seq<Resols>, ext: Oracle, d: nat, f: nat, args: seq<Value>,
                                          w: World)
    requires AcceptedProgram(p, re)
    ensures CallAst(p, re, ext, d, f, args, w) == CallLir(Compile(p, re), ext, d, f, args, w)
  {
    CompileFns(p, re);
    CallsSame(p, re, Compile(p, re), ext, d, f, args, w);
  }

  /** A call that comes back does so at every greater depth, with the same reply. */
  lemma {:induction false} Deeper(q: seq<Unit>, ext: Oracle, d: nat, f: nat, args: seq<Value>, w: World)
    ensures CallLir(q, ext, d, f, args, w) == Hung ||
      CallLir(q, ext, d, f, args, w) == CallLir(q, ext, d + 1, f, args, w)
    decreases d
  {
    if f < |q| && |args| == Arity(q[f]) && q[f].Code? && d > 0 {
      var c: Callee := (g: nat, vs: seq<Value>, v: World) => CallLir(q, ext, d - 1, g, vs, v);
      var e: Callee := (g: nat, vs: seq<Value>, v: World) => CallLir(q, ext, d, g, vs, v);
      forall g: nat, vs: seq<Value>, v: World ensures c(g, vs, v) == Hung || c(g, vs, v) == e(g, vs, v) {
        Deeper(q, ext, d - 1, g, vs, v);
      }
      forall r | LirHalts(q[f].fn, args, w, c, r) && r != Hung ensures LirHalts(q[f].fn, args, w, e, r) {
        HaltsBelow(q[f].fn, args, w, c, e, r);
      }
      forall r, s | LirHalts(q[f].fn, args, w, e, r) && LirHalts(q[f].fn, args, w, e, s) ensures r == s {
        OneReply(q[f].fn, args, w, e, r, s);
      }
    }
  }

  lemma {:induction false} MuchDeeper(q: seq<Unit>, ext: Oracle, d: nat, e: nat, f: nat, args: seq<Value>, w: World)
    requires d <= e
    ensures CallLir(q, ext, d, f, args, w) == Hung || CallLir(q, ext, d, f, args, w) == CallLir(q, ext, e, f, args, w)
    decreases e - d
  {
    if d < e {
      Deeper(q, ext, d, f, args, w);
      MuchDeeper(q, ext, d + 1, e, f, args, w);
    }
  }

  /** A call comes back with `r`, given enough depth. */
  ghost predicate AstReplies(p: Program, re: seq<Resols>, ext: Oracle, f: nat, args: seq<Value>, w: World, r: Reply)
    requires |re| == |p|
  {
    r != Hung && exists d: nat :: CallAst(p, re, ext, d, f, args, w) == r
  }

  ghost predicate LirReplies(q: seq<Unit>, ext: Oracle, f: nat, args: seq<Value>, w: World, r: Reply) {
    r != Hung && exists d: nat :: CallLir(q, ext, d, f, args, w) == r
  }

  /** The same without depths: source and generated program come back with the same replies, and
    * with one at most. */
  lemma {:induction false} CompiledReplies(p: Program, re: seq<Resols>, ext: Oracle, f: nat, args: seq<Value>, w: World,
                                           r: Reply, s: Reply)
    requires AcceptedProgram(p, re)
    ensures AstReplies(p, re, ext, f, args, w, r) <==> LirReplies(Compile(p, re), ext, f, args, w, r)
    ensures AstReplies(p, re, ext, f, args, w, r) && LirReplies(Compile(p, re), ext, f, args, w, s) ==> r == s
  {
    CompileFns(p, re);
    RepliesSame(p, re, Compile(p, re), ext, f, args, w, r, s);
  }

  lemma {:induction false} RepliesSame(p: Program, re: seq<Resols>, q: seq<Unit>, ext: Oracle, f: nat, args: seq<Value>,
                                       w: World, r: Reply, s: Reply)
    requires SameFns(p, re, q)
    ensures AstReplies(p, re, ext, f, args, w, r) <==> LirReplies(q, ext, f, args, w, r)
    ensures AstReplies(p, re, ext, f, args, w, r) && LirReplies(q, ext, f, args, w, s) ==> r == s
  {
    if AstReplies(p, re, ext, f, args, w, r) {
      var d: nat :| CallAst(p, re, ext, d, f, args, w) == r;
      CallsSame(p, re, q, ext, d, f, args, w);
    }
    if LirReplies(q, ext, f, args, w, r) {
      var d: nat :| CallLir(q, ext, d, f, args, w) == r;
      CallsSame(p, re, q, ext, d, f, args, w);
      if LirReplies(q, ext, f, args, w, s) {
        OneAnswer(q, ext, f, args, w, r, s);
      }
    }
  }

  lemma {:induction false} OneAnswer(q: seq<Unit>, ext: Oracle, f: nat, args: seq<Value>, w: World, r: Reply, s: Reply)
    requires LirReplies(q, ext, f, args, w, r) && LirReplies(q, ext, f, args, w, s)
    ensures r == s
  {
    var d: nat :| CallLir(q, ext, d, f, args, w) == r;
    var e: nat :| CallLir(q, ext, e, f, args, w) == s;
    MuchDeeper(q, ext, d, d + e, f, args, w);
    MuchDeeper(q, ext, e, d + e, f, args, w);
  }

  // ---------- Safety ----------

  lemma {:induction false} MirSafe(m: M.Fn, args: seq<Value>, w: World, call: Callee)
    requires WellFormed(m) && NeverStuck(call)
    ensures !MirHalts(m, args, w, call, Stuck)
  {
    assert m.blocks[0].id in Ids(m.blocks);
    forall n: nat ensures M.RunFn(m, args, w, call, n) != Halt(Stuck) {
      RunNeverStuck(m, m.entry, M.InitialState(args, w), call, n);
    }
  }

  lemma {:induction false} BodySafe(f: FnDecl, re: Resols, args: seq<Value>, w: World, call: Callee)
    requires Accepted(MirGen.Cx(re, |f.params|), f.body) && |args| == |f.params| && NeverStuck(call)
    ensures !BodyHalts(re, f.body, args, w, call, Stuck)
  {
    MirOk(f, re);
    MirSafe(MirOf(f, re), args, w, call);
    MirStages(f, re, args, w, call, Stuck);
  }

  lemma {:induction false} AstSafe(p: Program, re: seq<Resols>, ext: Oracle, d: nat, f: nat, args: seq<Value>, w: World)
    requires AcceptedProgram(p, re)
    ensures CallAst(p, re, ext, d, f, args, w) != Stuck
    decreases d
  {
    if f < |p| && |args| == |p[f].params| && !p[f].extern && d > 0 {
      var call: Callee := (g: nat, vs: seq<Value>, v: World) => CallAst(p, re, ext, d - 1, g, vs, v);
      forall g: nat, vs: seq<Value>, v: World ensures call(g, vs, v) != Stuck {
        AstSafe(p, re, ext, d - 1, g, vs, v);
      }
      BodySafe(p[f], re[f], args, w, call);
    }
  }

  /** No run of a generated program pops an empty stack, reads a register nobody set, meets a line
    * that cannot run, or falls or jumps out of its function's lines. */
  lemma {:induction false} CompiledSafe(p: Program, re: seq<Resols>, ext: Oracle, d: nat, f: nat, args: seq<Value>,
                                        w: World)
    requires AcceptedProgram(p, re)
    ensures CallLir(Compile(p, re), ext, d, f, args, w) != Stuck
  {
    AstSafe(p, re, ext, d, f, args, w);
    CompileCorrect(p, re, ext, d, f, args, w);
  }
}
