/** One stack for all calls: the selected lines over memory, `rsp` and `rbp`, and that they run as the
  * lines do over frames and stacks of their own. */
module AsmMemory {
  // A function runs from its prologue to its `ret`.  Registers are the machine's: a call leaves whatever
  // the callee left in them, with the result in `rax`.  Division and comparison are one step each.

  import opened Values
  import opened Lir
  import opened LirLive
  import opened LirProgram
  import opened AsmSelect
  import opened AsmCalls
  import W = Whole

  /** A machine and what has happened outside it. */
  datatype Point = Point(m: Machine, w: World)

  /** How a call ends: back after the `call` instruction, or not at all. */
  datatype Ends = Back(p: Point) | Lost(reply: Reply)

  /** What calling function `f` does with `n` words pushed for it. */
  type Callees = (nat, nat, Point) -> Ends

  /** Where a line, or a run of lines, leads. */
  datatype Path =
    | On(p: Point)
    | Off(target: Label, p: Point)
    | Out(p: Point)
    | Ended(reply: Reply)

  // ---------- Lines ----------

  function SetReg(p: Point, r: nat, v: Value): Point {
    p.(m := p.m.(regs := p.m.regs[r := v]))
  }

  function SetWord(p: Point, a: Addr, v: Value): Point {
    p.(m := p.m.(mem := p.m.mem[a := v]))
  }

  /** `call` and `push rax`. */
  function CallThen(f: Value, n: nat, p: Point, call: Callees): Path {
    if !f.FnRef? then Ended(Trapped) else
    match call(f.f, n, p)
    case Lost(r) => Ended(r)
    case Back(q) => On(q.(m := Push1(q.m, InReg(q.m, RAX))))
  }

  function StepOver(ins: Ins, params: nat, p: Point, call: Callees): Path {
    var m := p.m;
    match ins
    case Error => Ended(Stuck)
    case MovInt(r, n) => On(SetReg(p, r, Literal(n)))
    case MovString(r, s) => On(SetReg(p, r, StrRef(s)))
    case MovFn(r, f) => On(SetReg(p, r, FnRef(f)))
    case Push(r) => On(p.(m := StepOp(PushReg(r), m)))
    case Pop(r) => On(p.(m := StepOp(PopReg(r), m)))
    case Load(r, slot) => On(SetReg(p, r, At(m, m.rbp + SlotOffset(params, slot))))
    case StoreReg(slot, r) => On(SetWord(p, m.rbp + SlotOffset(params, slot), InReg(m, r)))
    case StoreImm(slot, n) => On(SetWord(p, m.rbp + SlotOffset(params, slot), Literal(n)))
    case CallReg(r, n) => CallThen(InReg(m, r), n, p, call)
    case CallImm(f, n) => CallThen(FnRef(f), n, p, call)
    case Jmp(t) => Off(t, p)
    case JnzReg(r, t) =>
      (match Test(InReg(m, r))
       case None => Ended(Trapped)
       case Some(b) => if b then Off(t, p) else On(p))
    case Ret => Out(p)
    case Binary(op, d, s) =>
      (match Apply(op, InReg(m, d), InReg(m, s))
       case None => Ended(Trapped)
       case Some(v) => On(SetReg(p, d, v)))
    case _ => On(p)
  }

  function Along(ls: seq<Line>, params: nat, p: Point, call: Callees): Path {
    if ls == [] then On(p) else
    match StepOver(ls[0].ins, params, p, call)
    case On(q) => Along(ls[1..], params, q, call)
    case path => path
  }

  // ---------- Functions ----------

  /** A new frame holds nothing yet. */
  function Unset(m: Machine): Machine {
    m.(mem := map a | a in m.mem && a >= m.rbp :: m.mem[a])
  }

  /** `call`, and the prologue. */
  function Enter(frameSize: nat, m: Machine): Machine {
    Unset(RunOps(Prologue(frameSize), CallOp(m)))
  }

  /** The result to `rax`, the epilogue, and `ret`. */
  function Leave(params: nat, m: Machine): Machine {
    RetOp(RunOps(Epilogue(), StepOp(LoadRax(SlotOffset(params, params)), m)))
  }

  datatype Course = Halted(ends: Ends) | TimedOut

  function RunFrom(params: nat, ls: seq<Line>, l: Label, p: Point, call: Callees, fuel: nat): Course
    decreases fuel
  {
    match Along(From(ls, l), params, p, call)
    case On(_) => Halted(Lost(Stuck))
    case Ended(r) => Halted(Lost(r))
    case Out(q) => Halted(Back(Point(Leave(params, q.m), q.w)))
    case Off(t, q) => if fuel == 0 then TimedOut else RunFrom(params, ls, t, q, call, fuel - 1)
  }

  /** A function in memory: its lines and the size of its frame, or a wrapper for C. */
  datatype Unit = Wrapper(params: nat) | Body(fn: Fn, frameSize: nat)

  function RunBody(u: Unit, p: Point, call: Callees, fuel: nat): Course
    requires u.Body?
  {
    RunFrom(u.fn.params, u.fn.lines, u.fn.entry, Point(Enter(u.frameSize, p.m), p.w), call, fuel)
  }

  ghost predicate BodyEnds(u: Unit, p: Point, call: Callees, e: Ends)
    requires u.Body?
  {
    exists n: nat :: RunBody(u, p, call, n) == Halted(e)
  }

  ghost function BodyEnd(u: Unit, p: Point, call: Callees): Ends
    requires u.Body?
  {
    if exists e :: BodyEnds(u, p, call, e) then var e :| BodyEnds(u, p, call, e); e else Lost(Hung)
  }

  /** The wrapper's way to C and back; C finds its arguments where it looks for them. */
  function CallWrapper(ext: W.Oracle, f: nat, n: nat, p: Point): Ends {
    var m := AtCall(CallOp(p.m), n);
    var args := CArgs(m, n);
    var after := m.(regs := m.regs[RAX := ext(f, args, p.w)]);
    Back(Point(RetOp(RunOps(Epilogue(), after)), p.w + [Event(f, args)]))
  }

  function Arity(u: Unit): nat {
    if u.Wrapper? then u.params else u.fn.params
  }

  /** The whole program, all calls on one stack. */
  ghost function CallOver(q: seq<Unit>, ext: W.Oracle, d: nat, f: nat, n: nat, p: Point): Ends
    decreases d
  {
    if f >= |q| || n != Arity(q[f]) then Lost(Trapped)
    else if q[f].Wrapper? then CallWrapper(ext, f, n, p)
    else if d == 0 then Lost(Hung)
    else
      var call: Callees := (g: nat, k: nat, r: Point) => CallOver(q, ext, d - 1, g, k, r);
      BodyEnd(q[f], p, call)
  }

  // ---------- What memory stands for ----------

  /** A call in progress: its function's slots, its `rbp`, and the machine its caller called from. */
  datatype Frame = Frame(params: nat, locals: nat, base: Addr, caller: Machine)

  function Size(f: Frame): int {
    8 * (f.locals - f.params)
  }

  /** The word of a slot, and of the i-th value pushed. */
  function SlotWord(f: Frame, m: Machine, slot: nat): Value {
    At(m, f.base + SlotOffset(f.params, slot))
  }

  function StackWord(f: Frame, m: Machine, i: nat): Value {
    At(m, f.base - Size(f) - 8 * (i + 1))
  }

  /** The caller's `rbp` is saved, and above the arguments memory is as the caller left it. */
  ghost predicate CallerKept(f: Frame, m: Machine) {
    && f.params < f.locals && f.base == f.caller.rsp - 16 && At(m, f.base) == Address(f.caller.rbp)
    && forall a :: a >= f.base + 16 + 8 * f.params ==> At(m, a) == At(f.caller, a)
  }

  /** Memory holds the frame and the stack of a call. */
  ghost predicate Holds(f: Frame, s: State, p: Point) {
    && CallerKept(f, p.m) && p.w == s.w
    && p.m.rbp == f.base && p.m.rsp == f.base - Size(f) - 8 * |s.stack|
    && (forall slot: nat :: slot < f.locals ==> SlotWord(f, p.m, slot) == Get(s.frame, slot))
    && (forall i :: 0 <= i < |s.stack| ==> StackWord(f, p.m, i) == s.stack[i])
  }

  ghost predicate InRegs(sel: Selection, s: State, m: Machine) {
    forall r :: r in sel ==> r in s.regs && InReg(m, sel[r]) == s.regs[r]
  }

  /** Both ways lead to the same place; nothing is said of a run that is stuck. */
  ghost predicate Same(f: Frame, sel: Selection, flow: Flow, path: Path) {
    match flow
    case Fall(s) => path.On? && Holds(f, s, path.p) && InRegs(sel, s, path.p.m)
    case Jump(t, s) => path.Off? && path.target == t && Holds(f, s, path.p)
    case Exit(s) => path.Out? && Holds(f, s, path.p)
    case Stop(r) => r == Stuck || path == Ended(r)
  }

  /** The top words of the stack, the last one lowest. */
  ghost predicate OnTop(m: Machine, vs: seq<Value>) {
    forall k :: 0 <= k < |vs| ==> Nth(m, |vs| - 1 - k) == vs[k]
  }

  /** A call in memory ends as the reply says, with `rsp` and `rbp` back, the argument words as the callee
    * left them, and nothing above them changed. */
  ghost predicate Answers(r: Reply, e: Ends, p: Point, args: seq<Value>) {
    match r
    case Stuck => true
    case Returned(v, after, w) =>
      && e.Back? && e.p.w == w && InReg(e.p.m, RAX) == v
      && e.p.m.rsp == p.m.rsp && e.p.m.rbp == p.m.rbp
      && OnTop(e.p.m, Clobbered(args, after))
      && forall a :: a >= p.m.rsp + 8 * |args| ==> At(e.p.m, a) == At(p.m, a)
    case _ => e == Lost(r)
  }

  ghost predicate Serves(c: Callee, mc: Callees, f: nat, args: seq<Value>, p: Point) {
    OnTop(p.m, args) ==> Answers(c(f, args, p.w), mc(f, |args|, p), p, args)
  }

  ghost predicate Implements(c: Callee, mc: Callees) {
    forall f: nat, args: seq<Value>, p: Point :: Serves(c, mc, f, args, p)
  }

  // ---------- One line ----------

  lemma RegHolds(f: Frame, s: State, p: Point, r: nat, v: Value, regs: map<Reg, Value>)
    requires Holds(f, s, p)
    ensures Holds(f, s.(regs := regs), SetReg(p, r, v))
  {}

  lemma DefineRegs(sel: Selection, sel1: Selection, r: Reg, v: Value, s: State, p: Point)
    requires InRegs(sel, s, p.m) && Injective(sel1) && r in sel1
    requires forall q :: q in sel1 ==> q == r || (q in sel && sel[q] == sel1[q])
    ensures InRegs(sel1, Set(s, r, v), SetReg(p, sel1[r], v).m)
  {}

  lemma {:induction false} PushHolds(f: Frame, s: State, p: Point, v: Value)
    requires Holds(f, s, p)
    ensures Holds(f, s.(stack := s.stack + [v]), p.(m := Push1(p.m, v)))
  {
    var m, q := p.m, Push1(p.m, v);
    forall slot: nat | slot < f.locals ensures SlotWord(f, q, slot) == SlotWord(f, m, slot) {}
    forall i | 0 <= i < |s.stack| + 1 ensures StackWord(f, q, i) == (s.stack + [v])[i] {
      if i < |s.stack| {
        assert StackWord(f, q, i) == StackWord(f, m, i);
      }
    }
  }

  lemma {:induction false} PopHolds(f: Frame, s: State, p: Point, r: nat, regs: map<Reg, Value>)
    requires Holds(f, s, p) && |s.stack| > 0
    ensures var k := |s.stack|;
      && At(p.m, p.m.rsp) == s.stack[k - 1]
      && Holds(f, s.(stack := s.stack[..k - 1], regs := regs), p.(m := StepOp(PopReg(r), p.m)))
  {
    var k := |s.stack|;
    assert StackWord(f, p.m, k - 1) == s.stack[k - 1];
    var q := StepOp(PopReg(r), p.m);
    forall i | 0 <= i < k - 1 ensures StackWord(f, q, i) == s.stack[..k - 1][i] {
      assert StackWord(f, q, i) == StackWord(f, p.m, i);
    }
  }

  lemma {:induction false} StoreHolds(f: Frame, s: State, p: Point, slot: nat, v: Value)
    requires Holds(f, s, p) && slot < f.locals
    ensures Holds(f, s.(frame := s.frame[slot := v]), SetWord(p, f.base + SlotOffset(f.params, slot), v))
  {
    var m, q := p.m, SetWord(p, f.base + SlotOffset(f.params, slot), v).m;
    forall other: nat | other < f.locals ensures SlotWord(f, q, other) == Get(s.frame[slot := v], other) {
      if other != slot {
        SlotsApart(f.params, f.locals, if other < slot then other else slot, if other < slot then slot else other);
        assert SlotWord(f, q, other) == SlotWord(f, m, other);
      }
    }
    forall i | 0 <= i < |s.stack| ensures StackWord(f, q, i) == s.stack[i] {
      assert StackWord(f, q, i) == StackWord(f, m, i);
    }
  }

  // ---------- Every line ----------

  /** What the registers stand for after a line.  A call leaves none. */
  function Keeps(ins: Ins, sel: Selection): Selection {
    if ins.CallReg? || ins.CallImm? then map[] else Forget(ins, sel)
  }

  lemma {:induction false} DefineSame(ins: Ins, live: set<Reg>, next: Reg, sel: Selection, sel1: Selection, f: Frame,
                                      s: State, p: Point,
                                      c: Callee, mc: Callees)
    requires LineOk(ins, live, next, f.locals) && sel.Keys == live && DefOf(ins).Some?
    requires AllocAll(sel, Uses(ins)) == Some(sel1) && Injective(sel1) && Holds(f, s, p) && InRegs(sel, s, p.m)
    ensures Same(f, sel1, StepIns(ins, s, c), StepOver(InsOver(ins, sel1), f.params, p, mc))
  {
    hide AllocAll, InRegs, Injective, Holds, LineOk;
    var r := DefOf(ins).value;
    OneDefined(ins, live, next, f.locals, sel, sel1);
    match ins
    case Pop(_) =>
      if |s.stack| > 0 {
        PopSame(f, sel, sel1, r, s, p);
      }
    case MovInt(_, n) => SetSame(f, sel, sel1, r, Literal(n), s, p);
    case MovString(_, x) => SetSame(f, sel, sel1, r, StrRef(x), s, p);
    case MovFn(_, g) => SetSame(f, sel, sel1, r, FnRef(g), s, p);
    case Load(_, slot) =>
      LoadWord(ins, live, next, f, s, p);
      SetSame(f, sel, sel1, r, Get(s.frame, slot), s, p);
  }

  lemma LoadWord(ins: Ins, live: set<Reg>, next: Reg, f: Frame, s: State, p: Point)
    requires ins.Load? && LineOk(ins, live, next, f.locals) && Holds(f, s, p)
    ensures At(p.m, p.m.rbp + SlotOffset(f.params, ins.slot)) == Get(s.frame, ins.slot)
  {
    assert SlotWord(f, p.m, ins.slot) == Get(s.frame, ins.slot);
  }

  lemma SetSame(f: Frame, sel: Selection, sel1: Selection, r: Reg, v: Value, s: State, p: Point)
    requires Holds(f, s, p) && InRegs(sel, s, p.m) && Injective(sel1) && r in sel1
    requires forall q :: q in sel1 ==> q == r || (q in sel && sel[q] == sel1[q])
    ensures Same(f, sel1, Fall(Set(s, r, v)), On(SetReg(p, sel1[r], v)))
  {
    hide Holds, InRegs, Injective;
    DefineRegs(sel, sel1, r, v, s, p);
    RegHolds(f, s, p, sel1[r], v, s.regs[r := v]);
  }

  lemma PopSame(f: Frame, sel: Selection, sel1: Selection, r: Reg, s: State, p: Point)
    requires Holds(f, s, p) && InRegs(sel, s, p.m) && Injective(sel1) && r in sel1 && |s.stack| > 0
    requires forall q :: q in sel1 ==> q == r || (q in sel && sel[q] == sel1[q])
    ensures var k := |s.stack|;
      Same(f, sel1, Fall(Set(s, r, s.stack[k - 1]).(stack := s.stack[..k - 1])),
           On(p.(m := StepOp(PopReg(sel1[r]), p.m))))
  {
    hide Holds, Injective;
    var v := s.stack[|s.stack| - 1];
    DefineRegs(sel, sel1, r, v, s, p);
    PopHolds(f, s, p, sel1[r], s.regs[r := v]);
  }

  lemma {:induction false} UseSame(ins: Ins, live: set<Reg>, next: Reg, sel: Selection, f: Frame, s: State, p: Point,
                                   c: Callee, mc: Callees)
    requires LineOk(ins, live, next, f.locals) && sel.Keys == live && DefOf(ins).None? && !ins.CallReg? && !ins.CallImm?
    requires Injective(sel) && (forall r :: r in Uses(ins) ==> r in sel) && Holds(f, s, p) && InRegs(sel, s, p.m)
    ensures Same(f, Forget(ins, sel), StepIns(ins, s, c), StepOver(InsOver(ins, sel), f.params, p, mc))
  {
    hide Holds, Injective;
    Based(f, s, p);
    match ins
    case Push(r) => PushHolds(f, s, p, s.regs[r]);
    case StoreReg(slot, r) => StoreHolds(f, s, p, slot, s.regs[r]);
    case StoreImm(slot, n) => StoreHolds(f, s, p, slot, Literal(n));
    case Binary(op, d, r) =>
      var v := Apply(op, s.regs[d], s.regs[r]);
      if v.Some? {
        SetSame(f, sel, sel, d, v.value, s, p);
      }
    case Kill(r) => SameRegs(f, s, p, s.regs - {r});
    case _ =>
  }

  lemma Based(f: Frame, s: State, p: Point)
    requires Holds(f, s, p)
    ensures p.m.rbp == f.base
  {}

  lemma SameRegs(f: Frame, s: State, p: Point, regs: map<Reg, Value>)
    requires Holds(f, s, p)
    ensures Holds(f, s.(regs := regs), p)
  {}

  // ---------- Calls ----------

  /** The arguments of a call are the top words. */
  lemma {:induction false} ArgsOnTop(f: Frame, s: State, p: Point, n: nat)
    requires Holds(f, s, p) && n <= |s.stack|
    ensures OnTop(p.m, s.stack[|s.stack| - n..])
  {
    var k := |s.stack|;
    var args := s.stack[k - n..];
    forall j | 0 <= j < n ensures Nth(p.m, n - 1 - j) == args[j] {
      assert StackWord(f, p.m, k - n + j) == s.stack[k - n + j];
    }
  }

  /** Coming back from a call. */
  lemma {:induction false} BackHolds(f: Frame, s: State, p: Point, n: nat, args: seq<Value>, q: Point)
    requires Holds(f, s, p) && n <= |s.stack| && |args| == n
    requires q.m.rsp == p.m.rsp && q.m.rbp == p.m.rbp && OnTop(q.m, args)
    requires forall a :: a >= p.m.rsp + 8 * n ==> At(q.m, a) == At(p.m, a)
    ensures Holds(f, s.(stack := s.stack[..|s.stack| - n] + args, w := q.w), q)
  {
    var k := |s.stack|;
    forall slot: nat | slot < f.locals ensures SlotWord(f, q.m, slot) == Get(s.frame, slot) {
      assert SlotWord(f, p.m, slot) == Get(s.frame, slot);
      SlotAbove(f, slot);
    }
    forall i | 0 <= i < k ensures StackWord(f, q.m, i) == (s.stack[..k - n] + args)[i] {
      if i < k - n {
        assert StackWord(f, p.m, i) == s.stack[i];
      } else {
        assert Nth(q.m, n - 1 - (i - (k - n))) == args[i - (k - n)];
      }
    }
  }

  lemma SlotAbove(f: Frame, slot: nat)
    requires slot < f.locals && f.params < f.locals
    ensures SlotOffset(f.params, slot) >= -Size(f)
  {}

  lemma {:induction false} CallSame(g: Value, n: nat, f: Frame, s: State, p: Point, c: Callee, mc: Callees)
    requires Holds(f, s, p) && Implements(c, mc)
    ensures Same(f, map[], CallWith(g, n, s, c), CallThen(g, n, p, mc))
  {
    var k := |s.stack|;
    if k >= n && g.FnRef? {
      var args := s.stack[k - n..];
      ArgsOnTop(f, s, p, n);
      assert Serves(c, mc, g.f, args, p) && p.w == s.w;
      var r := c(g.f, args, s.w);
      hide Holds, OnTop, Implements;
      if r.Returned? {
        var q := mc(g.f, n, p).p;
        var args1 := Clobbered(args, r.after);
        BackHolds(f, s, p, n, args1, q);
        var s1 := s.(stack := s.stack[..k - n] + args1, w := r.w);
        PushHolds(f, s1, q, r.v);
      }
    }
  }

  /** One line of a function, over memory and machine registers. */
  lemma {:induction false} StepSame(ins: Ins, live: set<Reg>, next: Reg, sel: Selection, sel1: Selection, f: Frame,
                                    s: State, p: Point,
                                    c: Callee, mc: Callees)
    requires LineOk(ins, live, next, f.locals) && sel.Keys == live && AllocAll(sel, Uses(ins)) == Some(sel1)
    requires Injective(sel1)
    requires Holds(f, s, p) && InRegs(sel, s, p.m) && Implements(c, mc)
    ensures Same(f, Keeps(ins, sel1), StepIns(ins, s, c), StepOver(InsOver(ins, sel1), f.params, p, mc))
  {
    hide Holds, Implements, Same, AllocAll, Injective;
    if DefOf(ins).Some? {
      DefineSame(ins, live, next, sel, sel1, f, s, p, c, mc);
    } else {
      NoneAllocated(ins, live, next, f.locals, sel);
      match ins
      case CallReg(r, n) => CallSame(s.regs[r], n, f, s, p, c, mc);
      case CallImm(g, n) => CallSame(FnRef(g), n, f, s, p, c, mc);
      case _ => UseSame(ins, live, next, sel, f, s, p, c, mc);
    }
  }

  // ---------- Runs of lines ----------

  /** Both runs of lines stop at the same place. */
  ghost predicate SameStop(f: Frame, flow: Flow, path: Path) {
    if flow.Fall? then path.On? else Same(f, map[], flow, path)
  }

  lemma {:induction false} AlongCons(line: Line, rest: seq<Line>, params: nat, p: Point, call: Callees)
    ensures Along([line] + rest, params, p, call) ==
            match StepOver(line.ins, params, p, call) case On(q) => Along(rest, params, q, call) case path => path
  {
    assert ([line] + rest)[1..] == rest;
  }

  lemma {:induction false} ConsSame(a: Line, rest: seq<Line>, b: Line, out: seq<Line>, f: Frame, sel: Selection,
                                    s: State, p: Point,
                                    c: Callee, mc: Callees)
    requires Same(f, sel, StepIns(a.ins, s, c), StepOver(b.ins, f.params, p, mc))
    requires StepIns(a.ins, s, c).Fall? ==>
               SameStop(f, Straight(rest, StepIns(a.ins, s, c).st, c),
                        Along(out, f.params, StepOver(b.ins, f.params, p, mc).p, mc))
    ensures SameStop(f, Straight([a] + rest, s, c), Along([b] + out, f.params, p, mc))
  {
    hide Holds, InRegs, StepIns, StepOver, Along, Straight;
    LirGen.Cons(a, rest, s, c);
    AlongCons(b, out, f.params, p, mc);
  }

  /** The kill after a call through a register is all that is made of that register. */
  lemma {:induction false} KillNext(ls: seq<Line>, live: set<Reg>, next: Reg, slots: nat)
    requires Ok(ls, live, next, slots) && ls != []
    ensures ls[0].ins.CallReg? ==> live == {ls[0].ins.reg} && |ls| >= 2 && ls[1] == Line([], Kill(ls[0].ins.reg))
    ensures ls[0].ins.CallImm? ==> live == {}
  {}

  lemma KillSame(f: Frame, sel: Selection, r: Reg, s: State, p: Point, c: Callee, mc: Callees)
    requires Holds(f, s, p)
    ensures StepIns(Kill(r), s, c) == Fall(s.(regs := s.regs - {r}))
    ensures StepOver(InsOver(Kill(r), sel), f.params, p, mc) == On(p)
    ensures Same(f, map[], Fall(s.(regs := s.regs - {r})), On(p)) && Holds(f, s.(regs := s.regs - {r}), p)
  {
    SameRegs(f, s, p, s.regs - {r});
    hide Holds;
  }

  lemma {:induction false} KeysAfter(ins: Ins, live: set<Reg>, next: Reg, slots: nat, sel: Selection, sel1: Selection)
    requires LineOk(ins, live, next, slots) && sel.Keys == live && AllocAll(sel, Uses(ins)) == Some(sel1)
    ensures Forget(ins, sel1).Keys == LiveAfter(ins, live)
  {
    hide AllocAll, LineOk;
    if DefOf(ins).Some? {
      OneDefined(ins, live, next, slots, sel, sel1);
    } else {
      NoneAllocated(ins, live, next, slots, sel);
    }
  }

  lemma NoKeys(sel: Selection)
    requires sel.Keys == {}
    ensures sel == map[]
  {}

  /** What comes after a line: where that is a call through a register, first its kill. */
  lemma {:induction false} RestSame(ls: seq<Line>, live: set<Reg>, next: Reg, sel: Selection, sel1: Selection,
                                    most: nat,
                                    f: Frame, s: State, p: Point, c: Callee, mc: Callees)
    requires Ok(ls, live, next, f.locals) && Sane(live, next, f.locals) && ls != [] && sel.Keys == live
    requires AllocAll(sel, Uses(ls[0].ins)) == Some(sel1) && Apart(ls[1..], Forget(ls[0].ins, sel1), most)
    requires Holds(f, s, p) && InRegs(Keeps(ls[0].ins, sel1), s, p.m) && Implements(c, mc)
    ensures var sel2 := Forget(ls[0].ins, sel1);
      && Select(ls[1..], sel2).Some?
      && SameStop(f, Straight(ls[1..], s, c), Along(Select(ls[1..], sel2).value, f.params, p, mc))
    decreases |ls|, 0
  {
    hide Apart, Select, LineOk, Sane, Holds, Implements, Straight, Along, StepIns, StepOver, Injective, AllocAll,
      SameStop;
    var ins, rest := ls[0].ins, ls[1..];
    OkHead(ls, live, next, f.locals);
    KeysAfter(ins, live, next, f.locals, sel, sel1);
    var live1, next1, sel2 := LiveAfter(ins, live), NextAfter(ins, next), Forget(ins, sel1);
    KillNext(ls, live, next, f.locals);
    if ins.CallReg? {
      var kill, more := rest[0], rest[1..];
      assert [kill] + more == rest;
      OkHead(rest, live1, next1, f.locals);
      var sel3, out := SelectCons(kill, more, sel2, most);
      KeysAfter(kill.ins, live1, next1, f.locals, sel2, sel3);
      NoKeys(Forget(kill.ins, sel3));
      KillSame(f, sel3, ins.reg, s, p, c, mc);
      var s1 := s.(regs := s.regs - {ins.reg});
      AlongSame(more, LiveAfter(kill.ins, live1), NextAfter(kill.ins, next1), map[], most, f, s1, p, c, mc);
      ConsSame(kill, more, Line(kill.labels, InsOver(kill.ins, sel3)), out, f, map[], s, p, c, mc);
    } else {
      if ins.CallImm? { NoKeys(sel2); }
      AlongSame(rest, live1, next1, sel2, most, f, s, p, c, mc);
    }
  }

  /** The rest of a block, from a line whose registers are known. */
  lemma {:induction false} AlongSame(ls: seq<Line>, live: set<Reg>, next: Reg, sel: Selection, most: nat, f: Frame,
                                     s: State, p: Point,
                                     c: Callee, mc: Callees)
    requires Ok(ls, live, next, f.locals) && Sane(live, next, f.locals) && sel.Keys == live && Apart(ls, sel, most)
    requires Holds(f, s, p) && InRegs(sel, s, p.m) && Implements(c, mc)
    ensures Select(ls, sel).Some? && SameStop(f, Straight(ls, s, c), Along(Select(ls, sel).value, f.params, p, mc))
    decreases |ls|, 1
  {
    hide Apart, Select, Ok, LineOk, Sane, Holds, InRegs, Implements, Straight, Along, StepIns, StepOver, Injective,
      AllocAll;
    if ls == [] {
      NothingAlong(sel, f, s, p, c, mc);
    } else {
      OkHead(ls, live, next, f.locals);
      var ins, rest := ls[0].ins, ls[1..];
      assert [ls[0]] + rest == ls;
      var sel1, out := SelectCons(ls[0], rest, sel, most);
      StepSame(ins, live, next, sel, sel1, f, s, p, c, mc);
      var flow, path := StepIns(ins, s, c), StepOver(InsOver(ins, sel1), f.params, p, mc);
      if flow.Fall? {
        RestSame(ls, live, next, sel, sel1, most, f, flow.st, path.p, c, mc);
      }
      ConsSame(ls[0], rest, Line(ls[0].labels, InsOver(ins, sel1)), out, f, Keeps(ins, sel1), s, p, c, mc);
    }
  }

  lemma {:induction false} NothingAlong(sel: Selection, f: Frame, s: State, p: Point, c: Callee, mc: Callees)
    ensures Select([], sel) == Some([]) && SameStop(f, Straight([], s, c), Along([], f.params, p, mc))
  {}

  // ---------- Runs of functions ----------

  /** Both runs take as long and end alike. */
  ghost predicate SameCourse(f: Frame, args: seq<Value>, out: Outcome, course: Course, p: Point) {
    match out
    case Timeout => course.TimedOut?
    case Halt(r) => r == Stuck || (course.Halted? && Answers(r, course.ends, p, args))
  }

  /** The caller has its `rbp`, `rsp` and stack back, the result is in `rax`, and the parameter slots are
    * the argument words. */
  lemma {:induction false} LeaveAnswers(f: Frame, args: seq<Value>, s: State, q: Point, p: Point)
    requires Holds(f, s, q) && f.caller == p.m && |args| == f.params
    ensures Answers(Result(f.params, s), Back(Point(Leave(f.params, q.m), q.w)), p, args)
  {
    var m := StepOp(LoadRax(SlotOffset(f.params, f.params)), q.m);
    var back := Leave(f.params, q.m);
    TwoOps(MovRspRbp, PopRbp, m);
    assert SlotWord(f, q.m, f.params) == Get(s.frame, f.params);
    assert back.mem == q.m.mem && back.rsp == p.m.rsp && back.rbp == p.m.rbp;
    var after := Clobbered(args, Result(f.params, s).after);
    forall k | 0 <= k < |after| ensures Nth(back, |after| - 1 - k) == after[k] {
      assert SlotWord(f, q.m, k) == Get(s.frame, k);
    }
  }

  /** A function's first line finds the arguments in its parameter slots, its locals unset, and nothing
    * pushed. */
  lemma {:induction false} EnterHolds(f: Frame, args: seq<Value>, p: Point)
    requires f.params < f.locals && |args| == f.params && f.base == p.m.rsp - 16 && f.caller == p.m && OnTop(p.m, args)
    ensures Holds(f, InitialState(args, p.w), Point(Enter(Size(f), p.m), p.w))
  {
    var start := CallOp(p.m);
    AfterPrologue(start, Size(f));
    var m := RunOps(Prologue(Size(f)), start);
    var e := Unset(m);
    var s := InitialState(args, p.w);
    UnsetBelow(m);
    hide RunOps, Prologue, Unset;
    forall a | a >= p.m.rsp ensures At(e, a) == At(p.m, a) {
      assert At(m, a) == At(start, a);
    }
    forall slot: nat | slot < f.locals ensures SlotWord(f, e, slot) == Get(s.frame, slot) {
      if slot < f.params {
        assert SlotWord(f, e, slot) == Nth(p.m, f.params - 1 - slot) == args[slot];
      }
    }
  }

  lemma UnsetBelow(m: Machine)
    ensures var e := Unset(m);
      && e.rsp == m.rsp && e.rbp == m.rbp && e.regs == m.regs
      && forall a :: At(e, a) == if a >= m.rbp then At(m, a) else Undef
  {}

  lemma {:induction false} RunSame(params: nat, ls: seq<Line>, most: nat, l: Label, f: Frame, args: seq<Value>,
                                   s: State, q: Point, p: Point,
                                   c: Callee, mc: Callees, fuel: nat)
    requires Ok(ls, {}, f.locals, f.locals) && Apart(ls, map[], most) && Implements(c, mc)
    requires Holds(f, s, q) && f.caller == p.m && |args| == f.params == params
    ensures Select(ls, map[]).Some?
    ensures SameCourse(f, args, Run(params, ls, l, s, c, fuel),
                       RunFrom(params, Select(ls, map[]).value, l, q, mc, fuel), p)
    decreases fuel
  {
    hide Apart, Select, Ok, Implements, Straight, Along, Holds, Answers, From, Result, Leave;
    SelectFrom(ls, map[], most, l);
    var lower := OkFrom(ls, {}, f.locals, f.locals, l);
    var at := From(ls, l);
    if at != [] {
      AlongSame(at, {}, lower, map[], most, f, s, q, c, mc);
      StopIsLost(at, s, c, p, args);
      var flow, path := Straight(at, s, c), Along(Select(at, map[]).value, params, q, mc);
      if flow.Exit? {
        LeaveAnswers(f, args, flow.st, path.p, p);
      } else if flow.Jump? && fuel > 0 {
        RunSame(params, ls, most, flow.target, f, args, flow.st, path.p, p, c, mc, fuel - 1);
      }
    } else {
      NothingRuns(s, c);
    }
  }

  /** Lines stop without a result only. */
  lemma {:induction false} StopIsLost(ls: seq<Line>, s: State, c: Callee, p: Point, args: seq<Value>)
    ensures Straight(ls, s, c).Stop? ==> Answers(Straight(ls, s, c).reply, Lost(Straight(ls, s, c).reply), p, args)
    decreases |ls|
  {
    if ls != [] {
      var flow := StepIns(ls[0].ins, s, c);
      if flow.Fall? {
        StopIsLost(ls[1..], flow.st, c, p, args);
      }
    }
  }

  lemma NothingRuns(s: State, c: Callee)
    ensures Straight([], s, c) == Fall(s)
  {}

  // ---------- Whole programs ----------

  /** A unit's lines, as selection leaves them, in memory. */
  ghost predicate Placed(u: W.Unit, v: Unit, locals: nat) {
    if u.Extern? then v == Wrapper(u.params)
    else
      && u.fn.params < locals && Ok(u.fn.lines, {}, locals, locals) && Apart(u.fn.lines, map[], MACHINE_REGS)
      && Select(u.fn.lines, map[]).Some?
      && v == Body(u.fn.(lines := Select(u.fn.lines, map[]).value), 8 * (locals - u.fn.params))
  }

  ghost predicate Loaded(q: seq<W.Unit>, mq: seq<Unit>, locals: seq<nat>) {
    |q| == |mq| == |locals| && forall k :: 0 <= k < |q| ==> Placed(q[k], mq[k], locals[k])
  }

  lemma {:induction false} LongerCourse(params: nat, ls: seq<Line>, l: Label, p: Point, call: Callees, m: nat, n: nat)
    requires m <= n && RunFrom(params, ls, l, p, call, m).Halted?
    ensures RunFrom(params, ls, l, p, call, n) == RunFrom(params, ls, l, p, call, m)
    decreases m
  {
    hide Along, From;
    var path := Along(From(ls, l), params, p, call);
    if path.Off? {
      LongerCourse(params, ls, path.target, path.p, call, m - 1, n - 1);
    }
  }

  lemma {:induction false} OneEnd(u: Unit, p: Point, call: Callees, e: Ends, e1: Ends)
    requires u.Body? && BodyEnds(u, p, call, e) && BodyEnds(u, p, call, e1)
    ensures e == e1
  {
    hide RunFrom, Enter;
    var m: nat :| RunBody(u, p, call, m) == Halted(e);
    var n: nat :| RunBody(u, p, call, n) == Halted(e1);
    var start := Point(Enter(u.frameSize, p.m), p.w);
    LongerCourse(u.fn.params, u.fn.lines, u.fn.entry, start, call, m, m + n);
    LongerCourse(u.fn.params, u.fn.lines, u.fn.entry, start, call, n, m + n);
  }

  /** One call of a function, with as much fuel. */
  lemma {:induction false} BodySame(u: W.Unit, v: Unit, locals: nat, args: seq<Value>, p: Point, c: Callee, mc: Callees,
                                    fuel: nat)
    requires u.Code? && Placed(u, v, locals) && |args| == u.fn.params && OnTop(p.m, args) && Implements(c, mc)
    ensures var f := Frame(u.fn.params, locals, p.m.rsp - 16, p.m);
      SameCourse(f, args, RunFn(u.fn, args, p.w, c, fuel), RunBody(v, p, mc, fuel), p)
  {
    hide Ok, Apart, Select, OnTop, Implements, Run, RunFrom, SameCourse, Enter, InitialState, Holds;
    var f := Frame(u.fn.params, locals, p.m.rsp - 16, p.m);
    EnterHolds(f, args, p);
    RunSame(u.fn.params, u.fn.lines, MACHINE_REGS, u.fn.entry, f, args, InitialState(args, p.w),
            Point(Enter(Size(f), p.m), p.w), p, c, mc, fuel);
  }

  /** One call, whatever it comes to. */
  lemma {:induction false} ReplySame(u: W.Unit, v: Unit, locals: nat, args: seq<Value>, p: Point, c: Callee,
                                     mc: Callees)
    requires u.Code? && Placed(u, v, locals) && |args| == u.fn.params && OnTop(p.m, args) && Implements(c, mc)
    ensures v.Body? && Answers(W.LirReply(u.fn, args, p.w, c), BodyEnd(v, p, mc), p, args)
  {
    hide Placed, OnTop, Implements, Answers, RunFn, RunBody;
    assert v.Body? by { PlacedBody(u, v, locals); }
    if exists r :: W.LirHalts(u.fn, args, p.w, c, r) {
      var r := W.LirReply(u.fn, args, p.w, c);
      var n: nat :| RunFn(u.fn, args, p.w, c, n) == Halt(r);
      BodySame(u, v, locals, args, p, c, mc, n);
      StuckAnswers(p, args, BodyEnd(v, p, mc));
      if r != Stuck {
        var e := RunBody(v, p, mc, n).ends;
        assert BodyEnds(v, p, mc, e);
        OneEnd(v, p, mc, BodyEnd(v, p, mc), e);
      }
    } else {
      forall e ensures !BodyEnds(v, p, mc, e) {
        forall n: nat ensures RunBody(v, p, mc, n) != Halted(e) {
          BodySame(u, v, locals, args, p, c, mc, n);
          if RunFn(u.fn, args, p.w, c, n).Halt? {
            HaltsThen(u.fn, args, p.w, c, n);
          }
        }
      }
      HungAnswers(p, args);
    }
  }

  lemma HaltsThen(fn: Fn, args: seq<Value>, w: World, c: Callee, n: nat)
    requires RunFn(fn, args, w, c, n).Halt?
    ensures exists r :: W.LirHalts(fn, args, w, c, r)
  {
    assert W.LirHalts(fn, args, w, c, RunFn(fn, args, w, c, n).reply);
  }

  lemma PlacedBody(u: W.Unit, v: Unit, locals: nat)
    requires u.Code? && Placed(u, v, locals)
    ensures v.Body?
  {}

  lemma StuckAnswers(p: Point, args: seq<Value>, e: Ends)
    ensures Answers(Stuck, e, p, args)
  {}

  lemma HungAnswers(p: Point, args: seq<Value>)
    ensures Answers(Hung, Lost(Hung), p, args)
  {}

  /** A call of an external function, through its wrapper and back. */
  lemma {:induction false} WrapperAnswers(ext: W.Oracle, f: nat, args: seq<Value>, p: Point)
    requires OnTop(p.m, args)
    ensures Answers(W.CallExtern(ext, f, args, p.w), CallWrapper(ext, f, |args|, p), p, args)
  {
    var start := CallOp(p.m);
    forall k | 0 <= k < |args| ensures Nth(start, |args| - k) == args[k] {
      assert Nth(p.m, |args| - 1 - k) == args[k];
    }
    CFunctionAbi(start, args);
    var m := AtCall(start, |args|);
    var after := m.(regs := m.regs[RAX := ext(f, args, p.w)]);
    CFunctionReturns(start, args, after);
    var back := RetOp(RunOps(Epilogue(), after));
    hide AtCall, RunOps, CArgs;
    forall k | 0 <= k < |args| ensures Nth(back, |args| - 1 - k) == args[k] {
      assert Nth(p.m, |args| - 1 - k) == args[k];
      assert At(back, back.rsp + 8 * (|args| - 1 - k)) == At(start, p.m.rsp + 8 * (|args| - 1 - k));
    }
  }

  /** Every call of every function: on the one stack it does what it does over frames and stacks of
    * its own, and leaves the caller's part of the stack alone. */
  lemma {:induction false} CallsSame(q: seq<W.Unit>, mq: seq<Unit>, locals: seq<nat>, ext: W.Oracle, d: nat, f: nat,
                                     args: seq<Value>, p: Point)
    requires Loaded(q, mq, locals) && OnTop(p.m, args)
    ensures Answers(W.CallLir(q, ext, d, f, args, p.w), CallOver(mq, ext, d, f, |args|, p), p, args)
    decreases d
  {
    hide W.LirReply, BodyEnd, CallWrapper, W.CallExtern, Ok, Apart, Select, OnTop;
    if f < |q| {
      assert Placed(q[f], mq[f], locals[f]);
      if |args| != W.Arity(q[f]) {
      } else if q[f].Extern? {
        WrapperAnswers(ext, f, args, p);
      } else if d > 0 {
        var c: Callee := (g: nat, vs: seq<Value>, v: World) => W.CallLir(q, ext, d - 1, g, vs, v);
        var mc: Callees := (g: nat, k: nat, r: Point) => CallOver(mq, ext, d - 1, g, k, r);
        forall g: nat, vs: seq<Value>, r: Point ensures Serves(c, mc, g, vs, r) {
          if OnTop(r.m, vs) {
            CallsSame(q, mq, locals, ext, d - 1, g, vs, r);
          }
        }
        ReplySame(q[f], mq[f], locals[f], args, p, c, mc);
      }
    }
  }

  // ---------- From C ----------

  /** C calls an exported function: the exporter's head, the function, and the exporter's epilogue. */
  ghost function CallExporter(q: seq<Unit>, ext: W.Oracle, d: nat, f: nat, n: nat, p: Point): Ends {
    match CallOver(q, ext, d, f, n, Point(RunOps(ExporterHead(n), CallOp(p.m)), p.w))
    case Back(e) => Back(Point(RetOp(RunOps(Epilogue(), e.m)), e.w))
    case lost => lost
  }

  /** The exporter pushes the register arguments, so that they stand as a caller's would. */
  lemma {:induction false} Exported(m: Machine, n: nat)
    requires n <= ARG_REGS
    ensures var p := RunOps(ExporterHead(n), m);
      && OnTop(p, RegArgs(m, 0, n)) && p.rbp == m.rsp - 8 && p.rsp == p.rbp - 8 * n && At(p, p.rbp) == Address(m.rbp)
      && forall a :: a >= m.rsp ==> At(p, a) == At(m, a)
  {
    var start := StepOp(MovRbpRsp, StepOp(PushRbp, m));
    TwoOps(PushRbp, MovRbpRsp, m);
    RunOpsConcat([PushRbp, MovRbpRsp], RegPushes(0, n), m);
    RegPushesRun(0, n, start);
    var vs := RegArgs(m, 0, n);
    assert RegArgs(start, 0, n) == vs;
    PushedAt(start, vs);
    var p := PushAll(start, vs);
    forall k | 0 <= k < n ensures Nth(p, n - 1 - k) == vs[k] {
      assert At(p, start.rsp - 8 * (k + 1)) == vs[k];
    }
  }

  /** To C an exported function of at most six parameters is a C function: it answers what it answers to
    * any caller with those arguments, and gives the stack back. */
  lemma {:induction false} ExporterAnswers(q: seq<W.Unit>, mq: seq<Unit>, locals: seq<nat>, ext: W.Oracle, d: nat,
                                           f: nat, n: nat, p: Point)
    requires Loaded(q, mq, locals) && n <= ARG_REGS
    ensures Answers(W.CallLir(q, ext, d, f, RegArgs(p.m, 0, n), p.w), CallExporter(mq, ext, d, f, n, p), p, [])
  {
    hide Loaded, W.CallLir, CallOver;
    var start := CallOp(p.m);
    assert RegArgs(start, 0, n) == RegArgs(p.m, 0, n);
    Exported(start, n);
    var at := Point(RunOps(ExporterHead(n), start), p.w);
    CallsSame(q, mq, locals, ext, d, f, RegArgs(p.m, 0, n), at);
    var e := CallOver(mq, ext, d, f, n, at);
    if W.CallLir(q, ext, d, f, RegArgs(p.m, 0, n), p.w).Returned? {
      var back := RetOp(RunOps(Epilogue(), e.p.m));
      TwoOps(MovRspRbp, PopRbp, e.p.m);
      assert At(e.p.m, at.m.rbp) == At(at.m, at.m.rbp);
      forall a | a >= p.m.rsp ensures At(back, a) == At(p.m, a) {
        assert At(e.p.m, a) == At(at.m, a) == At(start, a);
      }
    }
  }
}
