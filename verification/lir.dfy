/** The low-level representation: labelled lines over virtual registers, and running them. */
module Lir {
  import opened Values

  type Reg = nat
  type Label = nat

  /** Slots are named by the registers that allocate them. */
  datatype Ins =
    | Error
    | Nop
    | AllocParam(reg: Reg, size: nat)
    | AllocLocal(reg: Reg, size: nat)
    | MovInt(reg: Reg, val: int)
    | MovString(reg: Reg, text: string)
    | MovFn(reg: Reg, f: nat)
    | Push(reg: Reg)
    | Pop(reg: Reg)
    | Load(reg: Reg, slot: Reg)
    | StoreReg(slot: Reg, reg: Reg)
    | StoreImm(slot: Reg, val: int)
    | CallReg(reg: Reg, args: nat)
    | CallImm(f: nat, args: nat)
    | Jmp(target: Label)
    | JnzReg(reg: Reg, target: Label)
    | Ret
    | Binary(op: BinOp, dst: Reg, src: Reg)
    | Kill(reg: Reg)

  datatype Line = Line(labels: seq<Label>, ins: Ins)

  /** `frame` holds the slots; `regs` the live virtual registers; `stack` what this call of the
    * function has pushed. */
  datatype State = State(regs: map<Reg, Value>, frame: map<Reg, Value>, stack: seq<Value>, w: World)

  /** Where a line, or a run of lines, leads. */
  datatype Flow =
    | Fall(st: State)
    | Jump(target: Label, st: State)
    | Exit(st: State)
    | Stop(reply: Reply)

  function Set(st: State, r: Reg, v: Value): State {
    st.(regs := st.regs[r := v])
  }

  /** The argument words once the callee is done with them: they are its parameter slots. */
  function Clobbered(args: seq<Value>, after: seq<Value>): (r: seq<Value>)
    ensures |r| == |args|
  {
    if |after| == |args| then after else args
  }

  /** Call `f` with the top `n` words, leave them to the callee, and push its result. */
  function CallWith(f: Value, n: nat, st: State, call: Callee): Flow {
    var k := |st.stack|;
    if k < n then Stop(Stuck) else
    var args := st.stack[k - n..];
    var reply := Invoke(call, f, args, st.w);
    if !reply.Returned? then Stop(reply) else
    Fall(State(st.regs, st.frame, st.stack[..k - n] + Clobbered(args, reply.after) + [reply.v], reply.w))
  }

  function StepIns(ins: Ins, st: State, call: Callee): Flow {
    var k := |st.stack|;
    match ins
    case Error => Stop(Stuck)
    case Nop => Fall(st)
    case AllocParam(_, _) => Fall(st)
    case AllocLocal(_, _) => Fall(st)
    case MovInt(r, n) => Fall(Set(st, r, Literal(n)))
    case MovString(r, s) => Fall(Set(st, r, StrRef(s)))
    case MovFn(r, f) => Fall(Set(st, r, FnRef(f)))
    case Push(r) => if r !in st.regs then Stop(Stuck) else Fall(st.(stack := st.stack + [st.regs[r]]))
    case Pop(r) => if k < 1 then Stop(Stuck) else Fall(Set(st, r, st.stack[k - 1]).(stack := st.stack[..k - 1]))
    case Load(r, slot) => Fall(Set(st, r, Get(st.frame, slot)))
    case StoreReg(slot, r) =>
      if r !in st.regs then Stop(Stuck) else Fall(st.(frame := st.frame[slot := st.regs[r]]))
    case StoreImm(slot, n) => Fall(st.(frame := st.frame[slot := Literal(n)]))
    case CallReg(r, n) => if r !in st.regs then Stop(Stuck) else CallWith(st.regs[r], n, st, call)
    case CallImm(f, n) => CallWith(FnRef(f), n, st, call)
    case Jmp(t) => Jump(t, st)
    case JnzReg(r, t) =>
      if r !in st.regs then Stop(Stuck) else
      (match Test(st.regs[r])
       case None => Stop(Trapped)
       case Some(b) => if b then Jump(t, st) else Fall(st))
    case Ret => Exit(st)
    case Binary(op, dst, src) =>
      if dst !in st.regs || src !in st.regs then Stop(Stuck) else
      (match Apply(op, st.regs[dst], st.regs[src])
       case None => Stop(Trapped)
       case Some(v) => Fall(Set(st, dst, v)))
    case Kill(r) => Fall(st.(regs := st.regs - {r}))
  }

  /** Run lines one after the other up to the first jump or exit. */
  function Straight(ls: seq<Line>, st: State, call: Callee): Flow {
    if ls == [] then Fall(st) else
    match StepIns(ls[0].ins, st, call)
    case Fall(st1) => Straight(ls[1..], st1, call)
    case flow => flow
  }

  /** The lines from the first one that carries the label on. */
  function From(ls: seq<Line>, l: Label): seq<Line> {
    if ls == [] then [] else if l in ls[0].labels then ls else From(ls[1..], l)
  }

  /** Parameter k is slot k, the result is the slot after the parameters. */
  function Result(params: nat, st: State): Reply {
    Returned(Get(st.frame, params), seq(params, i requires 0 <= i < params => Get(st.frame, i)), st.w)
  }

  /** Run from a label.  `fuel` bounds the jumps. */
  function Run(params: nat, ls: seq<Line>, l: Label, st: State, call: Callee, fuel: nat): Outcome
    decreases fuel
  {
    Continue(params, ls, Straight(From(ls, l), st, call), call, fuel)
  }

  function Continue(params: nat, ls: seq<Line>, flow: Flow, call: Callee, fuel: nat): Outcome
    decreases fuel, 0
  {
    match flow
    case Fall(_) => Halt(Stuck)
    case Stop(r) => Halt(r)
    case Exit(st) => Halt(Result(params, st))
    case Jump(t, st) => if fuel == 0 then Timeout else Run(params, ls, t, st, call, fuel - 1)
  }

  function ArgFrame(args: seq<Value>): (m: map<Reg, Value>)
    ensures forall r: Reg :: r in m <==> r < |args|
    ensures forall r :: r in m ==> m[r] == args[r]
  {
    if args == [] then map[] else ArgFrame(args[..|args| - 1])[|args| - 1 := args[|args| - 1]]
  }

  function InitialState(args: seq<Value>, w: World): State {
    State(map[], ArgFrame(args), [], w)
  }

  /** A compiled function: its prologue jumps to `entry`. */
  datatype Fn = Fn(params: nat, entry: Label, lines: seq<Line>)

  function RunFn(fn: Fn, args: seq<Value>, w: World, call: Callee, fuel: nat): Outcome {
    Run(fn.params, fn.lines, fn.entry, InitialState(args, w), call, fuel)
  }

  lemma StraightConcat(a: seq<Line>, b: seq<Line>, st: State, call: Callee)
    ensures Straight(a + b, st, call) ==
            match Straight(a, st, call) case Fall(st1) => Straight(b, st1, call) case flow => flow
  {
    if a == [] {
      assert a + b == b;
    } else {
      assert (a + b)[1..] == a[1..] + b;
    }
  }
}
