/** From blocks to lines: what `FnGen` computes, and that it keeps every run.
  *
  * Registers are numbered as they are taken, a block's label is its position, and the lines of a statement are
  * related to the statement by the frame and the evaluation stack they leave. */
module LirGen {
  import opened Values
  import M = Mir
  import opened MirShape
  import opened Lir

  function L(ins: Ins): Line {
    Line([], ins)
  }

  /** The slot of a local: parameters are allocated first, then the result, then the rest. */
  function SlotOf(params: nat, local: nat): Reg {
    if local == 0 then params else if local <= params then local - 1 else local
  }

  /** Pop `n` argument words, each into a register of its own. */
  function PopArgs(n: nat, base: Reg): seq<Line> {
    if n == 0 then [] else [L(Pop(base)), L(Kill(base))] + PopArgs(n - 1, base + 1)
  }

  /** How many registers a statement takes. */
  function RegsOf(s: M.Stmt): nat {
    match s
    case CallFn(n) => n + 2
    case Binary(_) => 2
    case _ => 1
  }

  function StmtLines(params: nat, s: M.Stmt, base: Reg): seq<Line> {
    match s
    case Push(IntVal(n)) => [L(MovInt(base, n)), L(Push(base)), L(Kill(base))]
    case Push(StrVal(t)) => [L(MovString(base, t)), L(Push(base)), L(Kill(base))]
    case Push(FnVal(f)) => [L(MovFn(base, f)), L(Push(base)), L(Kill(base))]
    case Pop => [L(Pop(base)), L(Kill(base))]
    case Load(l) => [L(Load(base, SlotOf(params, l))), L(Push(base)), L(Kill(base))]
    case Store(l) => [L(Pop(base)), L(StoreReg(SlotOf(params, l), base)), L(Kill(base))]
    case CallFn(n) =>
      [L(Pop(base)), L(CallReg(base, n)), L(Kill(base)), L(Pop(base + 1))]
      + PopArgs(n, base + 2)
      + [L(Push(base + 1)), L(Kill(base + 1))]
    case Binary(op) =>
      [L(Pop(base)), L(Pop(base + 1)), L(Binary(op, base + 1, base)), L(Push(base + 1)), L(Kill(base)),
       L(Kill(base + 1))]
  }

  function StmtsRegs(ss: seq<M.Stmt>): nat {
    if ss == [] then 0 else RegsOf(ss[0]) + StmtsRegs(ss[1..])
  }

  function StmtsLines(params: nat, ss: seq<M.Stmt>, base: Reg): seq<Line> {
    if ss == [] then [] else StmtLines(params, ss[0], base) + StmtsLines(params, ss[1..], base + RegsOf(ss[0]))
  }

  /** Labels count the blocks in order; a target's label is the position of its block. */
  function TerLines(bs: seq<M.Block>, ter: M.Ter, base: Reg): (ls: seq<Line>)
    ensures |ls| > 0
  {
    match ter
    case Unset => [L(Error)]
    case Return => [L(Ret)]
    case Goto(t) => [L(Jmp(M.Find(bs, t)))]
    case If(t, f) => [L(Pop(base)), L(JnzReg(base, M.Find(bs, t))), L(Kill(base)), L(Jmp(M.Find(bs, f)))]
  }

  function BlockRegs(b: M.Block): nat {
    StmtsRegs(b.stmts) + if b.ter.If? then 1 else 0
  }

  /** The pending labels go to the first line. */
  function Labelled(labels: seq<Label>, ls: seq<Line>): (r: seq<Line>)
    requires |ls| > 0
    ensures |r| == |ls|
  {
    [Line(labels + ls[0].labels, ls[0].ins)] + ls[1..]
  }

  function BlockLines(params: nat, bs: seq<M.Block>, k: nat, base: Reg): (ls: seq<Line>)
    requires k < |bs|
    ensures |ls| > 0
  {
    Labelled([k], StmtsLines(params, bs[k].stmts, base) + TerLines(bs, bs[k].ter, base + StmtsRegs(bs[k].stmts)))
  }

  /** The lines of the blocks from the k-th on. */
  function BodyLines(params: nat, bs: seq<M.Block>, k: nat, base: Reg): seq<Line>
    requires k <= |bs|
    decreases |bs| - k
  {
    if k == |bs| then [] else
    BlockLines(params, bs, k, base) + BodyLines(params, bs, k + 1, base + BlockRegs(bs[k]))
  }

  function AllocLines(from: nat, params: nat, locals: nat): seq<Line>
    decreases locals - from
  {
    if from >= locals then []
    else [L(if from < params then AllocParam(from, 8) else AllocLocal(from, 8))] + AllocLines(from + 1, params, locals)
  }

  function FnLines(fn: M.Fn): seq<Line> {
    AllocLines(0, fn.params, fn.locals) + BodyLines(fn.params, fn.blocks, 0, fn.locals)
  }

  /** The prologue's jump is to the label named like the entry block. */
  function GenFn(fn: M.Fn): Fn {
    Fn(fn.params, fn.entry, FnLines(fn))
  }

  // ---------- One statement ----------

  /** The frame holds the locals; the stack and the world agree; registers do not matter. */
  ghost predicate Rel(fn: M.Fn, m: M.State, st: State) {
    && m.stack == st.stack && m.w == st.w
    && forall l: nat :: l < fn.locals ==> Get(st.frame, SlotOf(fn.params, l)) == Get(m.locals, l)
  }

  function Then(flow: Flow, ins: Ins, call: Callee): Flow {
    if flow.Fall? then StepIns(ins, flow.st, call) else flow
  }

  lemma {:induction false} Cons(line: Line, rest: seq<Line>, st: State, call: Callee)
    ensures Straight([line] + rest, st, call) ==
            if StepIns(line.ins, st, call).Fall? then Straight(rest, StepIns(line.ins, st, call).st, call)
            else StepIns(line.ins, st, call)
  {
    assert ([line] + rest)[1..] == rest;
  }

  lemma {:induction false} Two(a: Ins, b: Ins, st: State, call: Callee)
    ensures Straight([L(a), L(b)], st, call) == Then(StepIns(a, st, call), b, call)
  {
    assert [L(a), L(b)] == [L(a)] + ([L(b)] + []);
    Cons(L(a), [L(b)] + [], st, call);
    if StepIns(a, st, call).Fall? {
      Cons(L(b), [], StepIns(a, st, call).st, call);
    }
  }

  lemma {:induction false} Three(a: Ins, b: Ins, c: Ins, st: State, call: Callee)
    ensures Straight([L(a), L(b), L(c)], st, call) == Then(Then(StepIns(a, st, call), b, call), c, call)
  {
    assert [L(a), L(b), L(c)] == [L(a)] + [L(b), L(c)];
    Cons(L(a), [L(b), L(c)], st, call);
    if StepIns(a, st, call).Fall? {
      Two(b, c, StepIns(a, st, call).st, call);
    }
  }

  /** A step of the lines matches a step of the blocks. */
  ghost predicate Matches(fn: M.Fn, m: M.Step, flow: Flow) {
    if m.Ok? then flow.Fall? && Rel(fn, m.st, flow.st) else flow == Stop(m.reply)
  }

  lemma {:induction false} PopArgsRun(n: nat, base: Reg, st: State, call: Callee, keep: Reg) returns (st1: State)
    requires n <= |st.stack| && keep < base
    ensures Straight(PopArgs(n, base), st, call) == Fall(st1)
    ensures st1.frame == st.frame && st1.w == st.w && st1.stack == st.stack[..|st.stack| - n]
    ensures keep in st.regs ==> keep in st1.regs && st1.regs[keep] == st.regs[keep]
    decreases n
  {
    st1 := st;
    if n > 0 {
      Two(Pop(base), Kill(base), st, call);
      StraightConcat([L(Pop(base)), L(Kill(base))], PopArgs(n - 1, base + 1), st, call);
      var k := |st.stack|;
      var next := Straight([L(Pop(base)), L(Kill(base))], st, call).st;
      st1 := PopArgsRun(n - 1, base + 1, next, call, keep);
    } else {
      assert st.stack[..|st.stack|] == st.stack;
    }
  }

  /** The lines fall through with this frame, stack and world; the registers do not matter. */
  predicate FallsTo(flow: Flow, frame: map<Reg, Value>, stack: seq<Value>, w: World) {
    flow.Fall? && flow.st.frame == frame && flow.st.stack == stack && flow.st.w == w
  }

  /** Pop the callee and call it: its result lands on top of the argument words. */
  lemma {:induction false} CallFirst(n: nat, base: Reg, st: State, stack: seq<Value>, args: seq<Value>, f: Value,
                                     call: Callee)
    requires |args| == n && st.stack == stack + args + [f]
    ensures var flow := Straight([L(Pop(base)), L(CallReg(base, n)), L(Kill(base))], st, call);
      var reply := Invoke(call, f, args, st.w);
      if reply.Returned? then FallsTo(flow, st.frame, stack + Clobbered(args, reply.after) + [reply.v], reply.w)
      else flow == Stop(reply)
  {
    Three(Pop(base), CallReg(base, n), Kill(base), st, call);
    var popped := StepIns(Pop(base), st, call).st;
    assert popped.stack == stack + args;
    assert popped.stack[|popped.stack| - n..] == args && popped.stack[..|popped.stack| - n] == stack;
  }

  lemma {:induction false} PushKept(r: Reg, st: State, stack: seq<Value>, v: Value, call: Callee)
    requires r in st.regs && st.regs[r] == v && st.stack == stack
    ensures FallsTo(Straight([L(Push(r)), L(Kill(r))], st, call), st.frame, stack + [v], st.w)
  {
    Two(Push(r), Kill(r), st, call);
  }

  /** Take the result off, drop the argument words, and put the result back. */
  lemma {:induction false} CallSecond(n: nat, base: Reg, st: State, stack: seq<Value>, args: seq<Value>, v: Value,
                                      call: Callee)
    requires |args| == n && st.stack == stack + args + [v] && base >= 1
    ensures var c := [L(Push(base - 1)), L(Kill(base - 1))];
      FallsTo(Straight([L(Pop(base - 1))] + (PopArgs(n, base) + c), st, call), st.frame, stack + [v], st.w)
  {
    var c := [L(Push(base - 1)), L(Kill(base - 1))];
    Cons(L(Pop(base - 1)), PopArgs(n, base) + c, st, call);
    var st2 := Set(st, base - 1, v).(stack := stack + args);
    assert st.stack[..|st.stack| - 1] == stack + args;
    assert StepIns(Pop(base - 1), st, call) == Fall(st2);
    CallThird(n, base, st2, stack, args, v, call);
  }

  lemma {:induction false} CallThird(n: nat, base: Reg, st: State, stack: seq<Value>, args: seq<Value>, v: Value,
                                     call: Callee)
    requires |args| == n && st.stack == stack + args && base >= 1 && base - 1 in st.regs && st.regs[base - 1] == v
    ensures var c := [L(Push(base - 1)), L(Kill(base - 1))];
      FallsTo(Straight(PopArgs(n, base) + c, st, call), st.frame, stack + [v], st.w)
  {
    var c := [L(Push(base - 1)), L(Kill(base - 1))];
    StraightConcat(PopArgs(n, base), c, st, call);
    var st3 := PopArgsRun(n, base, st, call, base - 1);
    assert st.stack[..|st.stack| - n] == stack;
    PushKept(base - 1, st3, stack, v, call);
  }

  /** The call sequence: the callee's value ends up in the place of callee and arguments. */
  lemma {:induction false} CallWhole(params: nat, n: nat, base: Reg, st: State, stack: seq<Value>, args: seq<Value>,
                                     f: Value,
                                     call: Callee)
    requires |args| == n && st.stack == stack + args + [f]
    ensures var flow := Straight(StmtLines(params, M.CallFn(n), base), st, call);
      var reply := Invoke(call, f, args, st.w);
      if reply.Returned? then FallsTo(flow, st.frame, stack + [reply.v], reply.w) else flow == Stop(reply)
  {
    var a := [L(Pop(base)), L(CallReg(base, n)), L(Kill(base))];
    var rest := [L(Pop(base + 1))] + (PopArgs(n, base + 2) + [L(Push(base + 1)), L(Kill(base + 1))]);
    assert StmtLines(params, M.CallFn(n), base) == a + rest;
    StraightConcat(a, rest, st, call);
    CallFirst(n, base, st, stack, args, f, call);
    var reply := Invoke(call, f, args, st.w);
    if reply.Returned? {
      CallSecond(n, base + 2, Straight(a, st, call).st, stack, Clobbered(args, reply.after), reply.v, call);
    }
  }

  lemma {:induction false} CallFirstStuck(n: nat, base: Reg, st: State, call: Callee)
    requires |st.stack| < n + 1
    ensures Straight([L(Pop(base)), L(CallReg(base, n)), L(Kill(base))], st, call) == Stop(Stuck)
  {
    Three(Pop(base), CallReg(base, n), Kill(base), st, call);
  }

  lemma {:induction false} CallUnderflow(params: nat, n: nat, base: Reg, st: State, call: Callee)
    requires |st.stack| < n + 1
    ensures Straight(StmtLines(params, M.CallFn(n), base), st, call) == Stop(Stuck)
  {
    var a := [L(Pop(base)), L(CallReg(base, n)), L(Kill(base))];
    var rest := [L(Pop(base + 1))] + (PopArgs(n, base + 2) + [L(Push(base + 1)), L(Kill(base + 1))]);
    assert StmtLines(params, M.CallFn(n), base) == a + rest;
    StraightConcat(a, rest, st, call);
    CallFirstStuck(n, base, st, call);
  }

  lemma {:induction false} CallRun(params: nat, n: nat, base: Reg, st: State, call: Callee)
    ensures var k := |st.stack|;
      var flow := Straight(StmtLines(params, M.CallFn(n), base), st, call);
      if k < n + 1 then flow == Stop(Stuck) else
      var reply := Invoke(call, st.stack[k - 1], st.stack[k - 1 - n..k - 1], st.w);
      if reply.Returned? then FallsTo(flow, st.frame, st.stack[..k - 1 - n] + [reply.v], reply.w)
        else flow == Stop(reply)
  {
    var k := |st.stack|;
    if k < n + 1 {
      CallUnderflow(params, n, base, st, call);
    } else {
      var stack, args, f := st.stack[..k - 1 - n], st.stack[k - 1 - n..k - 1], st.stack[k - 1];
      assert st.stack == stack + args + [f];
      CallWhole(params, n, base, st, stack, args, f, call);
    }
  }

  /** The two operands popped and the operation done: the result is in the second register. */
  lemma {:induction false} BinaryFirst(op: BinOp, base: Reg, st: State, call: Callee)
    ensures var k := |st.stack|;
      var flow := Straight([L(Pop(base)), L(Pop(base + 1)), L(Binary(op, base + 1, base))], st, call);
      if k < 2 then flow == Stop(Stuck) else
      var r := Apply(op, st.stack[k - 2], st.stack[k - 1]);
      if r.Some? then FallsTo(flow, st.frame, st.stack[..k - 2], st.w) && base + 1 in flow.st.regs &&
        base in flow.st.regs
                      && flow.st.regs[base + 1] == r.value
      else flow == Stop(Trapped)
  {
    var k := |st.stack|;
    Three(Pop(base), Pop(base + 1), Binary(op, base + 1, base), st, call);
    if k >= 2 {
      assert st.stack[..k - 1][..k - 2] == st.stack[..k - 2];
    }
  }

  lemma {:induction false} BinaryRun(params: nat, op: BinOp, base: Reg, st: State, call: Callee)
    ensures var k := |st.stack|;
      var flow := Straight(StmtLines(params, M.Binary(op), base), st, call);
      if k < 2 then flow == Stop(Stuck) else
      var r := Apply(op, st.stack[k - 2], st.stack[k - 1]);
      if r.Some? then FallsTo(flow, st.frame, st.stack[..k - 2] + [r.value], st.w) else flow == Stop(Trapped)
  {
    hide Straight;
    var a := [L(Pop(base)), L(Pop(base + 1)), L(Binary(op, base + 1, base))];
    var c := [L(Push(base + 1)), L(Kill(base)), L(Kill(base + 1))];
    assert StmtLines(params, M.Binary(op), base) == a + c;
    StraightConcat(a, c, st, call);
    BinaryFirst(op, base, st, call);
    var flow := Straight(a, st, call);
    if flow.Fall? {
      Three(Push(base + 1), Kill(base), Kill(base + 1), flow.st, call);
    }
  }

  lemma {:induction false} PushRun(load: Ins, base: Reg, v: Value, st: State, call: Callee)
    requires StepIns(load, st, call) == Fall(Set(st, base, v))
    ensures FallsTo(Straight([L(load), L(Push(base)), L(Kill(base))], st, call), st.frame, st.stack + [v], st.w)
  {
    Three(load, Push(base), Kill(base), st, call);
  }

  lemma {:induction false} StoreRun(slot: Reg, base: Reg, st: State, call: Callee)
    ensures var k := |st.stack|;
      var flow := Straight([L(Pop(base)), L(StoreReg(slot, base)), L(Kill(base))], st, call);
      if k < 1 then flow == Stop(Stuck) else FallsTo(flow, st.frame[slot := st.stack[k - 1]], st.stack[..k - 1], st.w)
  {
    Three(Pop(base), StoreReg(slot, base), Kill(base), st, call);
  }

  lemma {:induction false} RelStore(fn: M.Fn, locals: map<nat, Value>, frame: map<Reg, Value>, l: nat, v: Value)
    requires l < fn.locals
    requires forall j: nat :: j < fn.locals ==> Get(frame, SlotOf(fn.params, j)) == Get(locals, j)
    ensures forall j: nat :: j < fn.locals ==>
      Get(frame[SlotOf(fn.params, l) := v], SlotOf(fn.params, j)) == Get(locals[l := v], j)
  {}

  lemma {:induction false} PushStmtRun(fn: M.Fn, s: M.Stmt, base: Reg, m: M.State, st: State, call: Callee)
    requires s.Push?
    requires Rel(fn, m, st) && LocalsBelow([s], fn.locals)
    ensures Matches(fn, M.ExecStmt(s, m, call), Straight(StmtLines(fn.params, s, base), st, call))
  {
    match s.val
    case IntVal(n) => PushRun(MovInt(base, n), base, Literal(n), st, call);
    case StrVal(t) => PushRun(MovString(base, t), base, StrRef(t), st, call);
    case FnVal(f) => PushRun(MovFn(base, f), base, FnRef(f), st, call);
  }

  lemma {:induction false} StoreStmtRun(fn: M.Fn, s: M.Stmt, base: Reg, m: M.State, st: State, call: Callee)
    requires s.Store?
    requires Rel(fn, m, st) && LocalsBelow([s], fn.locals)
    ensures Matches(fn, M.ExecStmt(s, m, call), Straight(StmtLines(fn.params, s, base), st, call))
  {
    assert [s][0] == s;
    StoreRun(SlotOf(fn.params, s.local), base, st, call);
    if |st.stack| > 0 {
      RelStore(fn, m.locals, st.frame, s.local, st.stack[|st.stack| - 1]);
    }
  }

  lemma {:induction false} LoadStmtRun(fn: M.Fn, s: M.Stmt, base: Reg, m: M.State, st: State, call: Callee)
    requires s.Load? || s.Pop?
    requires Rel(fn, m, st) && LocalsBelow([s], fn.locals)
    ensures Matches(fn, M.ExecStmt(s, m, call), Straight(StmtLines(fn.params, s, base), st, call))
  {
    assert [s][0] == s;
    if s.Load? {
      PushRun(Load(base, SlotOf(fn.params, s.local)), base, Get(m.locals, s.local), st, call);
    } else {
      Two(Pop(base), Kill(base), st, call);
    }
  }

  lemma {:induction false} OperatorRun(fn: M.Fn, s: M.Stmt, base: Reg, m: M.State, st: State, call: Callee)
    requires s.CallFn? || s.Binary?
    requires Rel(fn, m, st) && LocalsBelow([s], fn.locals)
    ensures Matches(fn, M.ExecStmt(s, m, call), Straight(StmtLines(fn.params, s, base), st, call))
  {
    match s
    case CallFn(n) => CallRun(fn.params, n, base, st, call);
    case Binary(op) => BinaryRun(fn.params, op, base, st, call);
  }

  /** The lines of a statement do to the frame and the stack what the statement does to the
    * locals and the stack. */
  lemma {:induction false} StmtRun(fn: M.Fn, s: M.Stmt, base: Reg, m: M.State, st: State, call: Callee)
    requires Rel(fn, m, st) && LocalsBelow([s], fn.locals)
    ensures Matches(fn, M.ExecStmt(s, m, call), Straight(StmtLines(fn.params, s, base), st, call))
  {
    match s
    case Push(_) => PushStmtRun(fn, s, base, m, st, call);
    case Store(_) => StoreStmtRun(fn, s, base, m, st, call);
    case Load(_) => LoadStmtRun(fn, s, base, m, st, call);
    case Pop => LoadStmtRun(fn, s, base, m, st, call);
    case CallFn(_) => OperatorRun(fn, s, base, m, st, call);
    case Binary(_) => OperatorRun(fn, s, base, m, st, call);
  }
}
