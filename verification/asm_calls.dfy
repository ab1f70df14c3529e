/** The calling convention: what a caller pushes, a callee finds; and the same across the C boundary. */
module AsmCalls {
  // A small machine with the instructions that prologues, wrappers and exporters use.  Memory is words
  // at byte addresses; registers are numbered as `AsmGen` lists them, `rax` first, so that argument
  // register k is register `k + 1`.

  import opened Values
  import M = Mir
  import opened MirShape
  import opened Lir
  import opened LirGen
  import opened AsmFrame
  import opened AsmGenClass
  import AsmSelect

  // ---------- Slots of a generated function ----------

  predicate NoAllocs(ls: seq<Line>) {
    forall i :: 0 <= i < |ls| ==> !IsAlloc(ls[i].ins)
  }

  lemma {:induction false} PopArgsNoAllocs(n: nat, base: Reg)
    ensures NoAllocs(PopArgs(n, base))
    decreases n
  {
    if n > 0 {
      PopArgsNoAllocs(n - 1, base + 1);
    }
  }

  lemma {:induction false} StmtsNoAllocs(params: nat, ss: seq<M.Stmt>, base: Reg)
    ensures NoAllocs(StmtsLines(params, ss, base))
    decreases |ss|
  {
    if ss != [] {
      StmtsNoAllocs(params, ss[1..], base + RegsOf(ss[0]));
      if ss[0].CallFn? {
        PopArgsNoAllocs(ss[0].args, base + 2);
      }
    }
  }

  lemma {:induction false} BlockNoAllocs(params: nat, bs: seq<M.Block>, k: nat, base: Reg)
    requires k < |bs|
    ensures NoAllocs(BlockLines(params, bs, k, base))
  {
    hide StmtsLines;
    StmtsNoAllocs(params, bs[k].stmts, base);
    var ts := TerLines(bs, bs[k].ter, base + StmtsRegs(bs[k].stmts));
    assert NoAllocs(StmtsLines(params, bs[k].stmts, base) + ts);
  }

  lemma {:induction false} BodyNoAllocs(params: nat, bs: seq<M.Block>, k: nat, base: Reg)
    requires k <= |bs|
    ensures NoAllocs(BodyLines(params, bs, k, base))
    decreases |bs| - k
  {
    hide BlockLines;
    if k < |bs| {
      BodyNoAllocs(params, bs, k + 1, base + BlockRegs(bs[k]));
      BlockNoAllocs(params, bs, k, base);
    }
  }

  /** Slots `from..to`, a word each. */
  function WordSlots(from: nat, to: nat): (xs: seq<Sized>)
    requires from <= to
    ensures |xs| == to - from && Words(xs) && forall i :: 0 <= i < |xs| ==> xs[i].reg == from + i
  {
    seq(to - from, i requires 0 <= i < to - from => Sized(from + i, 8))
  }

  /** The parameters and the locals among the slots from one on. */
  function ParamSlots(from: nat, params: nat): seq<Sized> {
    if from < params then WordSlots(from, params) else []
  }

  function LocalSlots(from: nat, params: nat, locals: nat): seq<Sized>
    requires params <= locals && from <= locals
  {
    WordSlots(if from < params then params else from, locals)
  }

  lemma {:induction false} AllocsFound(from: nat, params: nat, locals: nat, body: seq<Line>)
    requires params <= locals && from <= locals && NoAllocs(body)
    ensures var ls := AllocLines(from, params, locals) + body;
      ParamsOf(ls) == ParamSlots(from, params) && LocalsOf(ls) == LocalSlots(from, params, locals)
    decreases locals - from
  {
    var ls := AllocLines(from, params, locals) + body;
    if from < locals {
      AllocsFound(from + 1, params, locals, body);
      assert ls[1..] == AllocLines(from + 1, params, locals) + body;
      OneMore(from, params, locals, ls);
    } else {
      assert ls == body;
    }
  }

  /** The slot of the first allocation, before the others. */
  lemma OneMore(from: nat, params: nat, locals: nat, ls: seq<Line>)
    requires params <= locals && from < locals && ls != []
    requires ls[0].ins == if from < params then AllocParam(from, 8) else AllocLocal(from, 8)
    requires ParamsOf(ls[1..]) == ParamSlots(from + 1, params)
    requires LocalsOf(ls[1..]) == LocalSlots(from + 1, params, locals)
    ensures ParamsOf(ls) == ParamSlots(from, params) && LocalsOf(ls) == LocalSlots(from, params, locals)
  {
    if from < params {
      FirstParam(from, params);
    } else {
      FirstLocal(from, params, locals);
    }
  }

  lemma FirstParam(from: nat, params: nat)
    requires from < params
    ensures ParamSlots(from, params) == [Sized(from, 8)] + ParamSlots(from + 1, params)
  {}

  lemma FirstLocal(from: nat, params: nat, locals: nat)
    requires params <= from < locals
    ensures LocalSlots(from, params, locals) == [Sized(from, 8)] + LocalSlots(from + 1, params, locals)
  {}

  /** The offsets of a function's slots, numbered with the parameters first. */
  function SlotOffset(params: nat, slot: nat): int {
    if slot < params then 8 + 8 * (params - slot) else -8 * (slot - params + 1)
  }

  /** Whatever layout the allocator makes of the generated lines, the offsets are these. */
  lemma {:induction false} GeneratedLayout(fn: M.Fn, layout: StackLayout)
    requires fn.params <= fn.locals && LaysOut(layout, ParamsOf(FnLines(fn)), LocalsOf(FnLines(fn)))
    ensures layout.frameSize == 8 * (fn.locals - fn.params)
    ensures forall slot: nat :: slot < fn.locals ==>
      slot in layout.regOffsets && layout.regOffsets[slot] == SlotOffset(fn.params, slot)
  {
    BodyNoAllocs(fn.params, fn.blocks, 0, fn.locals);
    AllocsFound(0, fn.params, fn.locals, BodyLines(fn.params, fn.blocks, 0, fn.locals));
    hide ParamsOf, LocalsOf, Room;
    var ps, ls := ParamsOf(FnLines(fn)), LocalsOf(FnLines(fn));
    assert ps == ParamSlots(0, fn.params) && ls == LocalSlots(0, fn.params, fn.locals);
    WordOffsets(ps, ls);
    forall slot: nat | slot < fn.locals ensures slot in layout.regOffsets &&
      layout.regOffsets[slot] == SlotOffset(fn.params, slot) {
      if slot < fn.params {
        assert ps[slot].reg == slot;
      } else {
        assert ls[slot - fn.params].reg == slot;
      }
    }
  }

  /** Slots are word-aligned, different slots are at least a word apart, locals lie between `rsp` and
    * `rbp`, and parameters above the return address. */
  lemma {:induction false} SlotsApart(params: nat, locals: nat, a: nat, b: nat)
    requires a < b < locals
    ensures SlotOffset(params, a) % 8 == 0
    ensures SlotOffset(params, a) - SlotOffset(params, b) >= 8
    ensures a < params ==> SlotOffset(params, a) >= 16
    ensures b >= params ==> -8 * (locals - params) <= SlotOffset(params, b) < 0
  {}

  // ---------- The machine ----------

  type Addr = int

  datatype Machine = Machine(regs: map<nat, Value>, rsp: Addr, rbp: Addr, mem: map<Addr, Value>)

  datatype Op =
    | PushReg(r: nat)
    | PopReg(r: nat)
    | PushRbp
    | PopRbp
    | MovRbpRsp
    | MovRspRbp
    | SubRsp(n: nat)
    | AlignRsp
    | LoadRax(offset: int)

  const RAX: nat := 0

  /** The k-th of `rdi, rsi, rdx, rcx, r8, r9`. */
  function ArgReg(k: nat): nat {
    k + 1
  }

  const ARG_REGS: nat := 6

  /** What the numbers of the machine registers stand for. */
  const REGISTERS := ["rax", "rdi", "rsi", "rdx", "rcx", "r8", "r9", "r10", "r11"]

  /** The numbering of the arguments is the C convention's: one register for each, in its order. */
  lemma ArgumentNames(k: nat)
    ensures |REGISTERS| == AsmSelect.MACHINE_REGS && REGISTERS[RAX] == "rax"
    ensures k < ARG_REGS <==> k < |["rdi", "rsi", "rdx", "rcx", "r8", "r9"]|
    ensures k < ARG_REGS ==>
      ArgReg(k) < |REGISTERS| && REGISTERS[ArgReg(k)] == ["rdi", "rsi", "rdx", "rcx", "r8", "r9"][k]
  {}

  /** A stack address is kept in memory as a word. */
  function Address(a: Addr): Value {
    Word(a)
  }

  function InReg(m: Machine, r: nat): Value {
    Get(m.regs, r)
  }

  function At(m: Machine, a: Addr): Value {
    Get(m.mem, a)
  }

  /** The k-th word from the top of the stack. */
  function Nth(m: Machine, k: int): Value {
    At(m, m.rsp + 8 * k)
  }

  function Push1(m: Machine, v: Value): Machine {
    m.(rsp := m.rsp - 8, mem := m.mem[m.rsp - 8 := v])
  }

  function StepOp(op: Op, m: Machine): Machine {
    match op
    case PushReg(r) => Push1(m, InReg(m, r))
    case PopReg(r) => m.(regs := m.regs[r := At(m, m.rsp)], rsp := m.rsp + 8)
    case PushRbp => Push1(m, Address(m.rbp))
    case PopRbp => m.(rbp := (match At(m, m.rsp) case Word(a) => a case _ => 0), rsp := m.rsp + 8)
    case MovRbpRsp => m.(rbp := m.rsp)
    case MovRspRbp => m.(rsp := m.rbp)
    case SubRsp(n) => m.(rsp := m.rsp - n)
    case AlignRsp => m.(rsp := m.rsp - m.rsp % 16)
    case LoadRax(o) => m.(regs := m.regs[RAX := At(m, m.rbp + o)])
  }

  function RunOps(ops: seq<Op>, m: Machine): Machine {
    if ops == [] then m else RunOps(ops[1..], StepOp(ops[0], m))
  }

  lemma RunOpsConcat(a: seq<Op>, b: seq<Op>, m: Machine)
    ensures RunOps(a + b, m) == RunOps(b, RunOps(a, m))
  {
    if a == [] {
      assert a + b == b;
    } else {
      assert (a + b)[1..] == a[1..] + b;
    }
  }

  lemma ThreeOps(a: Op, b: Op, c: Op, m: Machine)
    ensures RunOps([a, b, c], m) == StepOp(c, StepOp(b, StepOp(a, m)))
  {
    assert [a, b, c][1..] == [b, c];
    TwoOps(b, c, StepOp(a, m));
  }

  lemma TwoOps(a: Op, b: Op, m: Machine)
    ensures RunOps([a, b], m) == StepOp(b, StepOp(a, m))
  {
    assert [a, b][1..] == [b] && [b][1..] == [];
    var m1 := StepOp(a, m);
    assert RunOps([b], m1) == RunOps([], StepOp(b, m1));
  }

  /** The `call` instruction pushes a return address. */
  function CallOp(m: Machine): Machine {
    Push1(m, Undef)
  }

  /** Words pushed one after the other. */
  function PushAll(m: Machine, vs: seq<Value>): Machine
    decreases |vs|
  {
    if vs == [] then m else PushAll(Push1(m, vs[0]), vs[1..])
  }

  lemma {:induction false} PushedAt(m: Machine, vs: seq<Value>)
    ensures var p := PushAll(m, vs);
      && p.rsp == m.rsp - 8 * |vs| && p.rbp == m.rbp && p.regs == m.regs
      && (forall k :: 0 <= k < |vs| ==> At(p, m.rsp - 8 * (k + 1)) == vs[k])
      && (forall a :: a >= m.rsp ==> At(p, a) == At(m, a))
    decreases |vs|
  {
    if vs != [] {
      PushedAt(Push1(m, vs[0]), vs[1..]);
      var p := PushAll(m, vs);
      forall k | 0 <= k < |vs| ensures At(p, m.rsp - 8 * (k + 1)) == vs[k] {
        if k > 0 {
          assert vs[1..][k - 1] == vs[k];
          assert At(p, m.rsp - 8 - 8 * (k - 1 + 1)) == vs[k];
        }
      }
    }
  }

  function Prologue(frameSize: nat): seq<Op> {
    [PushRbp, MovRbpRsp, SubRsp(frameSize)]
  }

  lemma {:induction false} AfterPrologue(m: Machine, frameSize: nat)
    ensures var p := RunOps(Prologue(frameSize), m);
      && p.rbp == m.rsp - 8 && p.rsp == p.rbp - frameSize && At(p, p.rbp) == Address(m.rbp) && p.regs == m.regs
      && forall a :: a >= m.rsp ==> At(p, a) == At(m, a)
  {
    ThreeOps(PushRbp, MovRbpRsp, SubRsp(frameSize), m);
  }

  /** At a function's first instruction: the return address on top, and the arguments above it, the
    * last one lowest. */
  ghost predicate Passed(m: Machine, args: seq<Value>) {
    forall k :: 0 <= k < |args| ==> Nth(m, |args| - k) == args[k]
  }

  /** So a caller leaves them that pushes its arguments first to last. */
  lemma {:induction false} PushedPassed(m: Machine, args: seq<Value>)
    ensures var start := CallOp(PushAll(m, args));
      && Passed(start, args) && start.rsp == m.rsp - 8 * |args| - 8 && start.rbp == m.rbp
      && forall a :: a >= m.rsp ==> At(start, a) == At(m, a)
  {
    PushedAt(m, args);
    var p := PushAll(m, args);
    forall k | 0 <= k < |args| ensures Nth(CallOp(p), |args| - k) == args[k] {
      assert At(p, m.rsp - 8 * (k + 1)) == args[k];
    }
  }

  /** Caller and callee agree: once the callee has set up its frame, argument k is in the slot of
    * parameter k. */
  lemma {:induction false} CalleeFindsArguments(start: Machine, args: seq<Value>, frameSize: nat, k: nat)
    requires Passed(start, args) && k < |args|
    ensures var p := RunOps(Prologue(frameSize), start); At(p, p.rbp + SlotOffset(|args|, k)) == args[k]
  {
    AfterPrologue(start, frameSize);
    assert Nth(start, |args| - k) == args[k];
  }

  /** `ret` takes the return address. */
  function RetOp(m: Machine): Machine {
    m.(rsp := m.rsp + 8)
  }

  function Epilogue(): seq<Op> {
    [MovRspRbp, PopRbp]
  }

  /** Whatever a body does below its frame pointer and to its slots, leaving through the epilogue
    * gives the caller its `rbp` back, and `rsp` where it was before the call. */
  lemma {:induction false} FrameRestored(start: Machine, frameSize: nat, q: Machine)
    requires var p := RunOps(Prologue(frameSize), start); q.rbp == p.rbp && At(q, q.rbp) == At(p, p.rbp)
    ensures var r := RetOp(RunOps(Epilogue(), q));
      r.rsp == start.rsp + 8 && r.rbp == start.rbp && r.mem == q.mem && r.regs == q.regs
  {
    AfterPrologue(start, frameSize);
    TwoOps(MovRspRbp, PopRbp, q);
  }

  // ---------- Calling C ----------

  /** Every argument copied from the caller's pushes: the last argument first. */
  function Copies(i: nat, args: nat): seq<Op>
    decreases args - i
  {
    if i >= args then [] else [LoadRax((i + 2) * 8), PushReg(RAX)] + Copies(i + 1, args)
  }

  /** Argument registers filled from the top of the stack. */
  function Pops(k: nat, n: nat): seq<Op>
    decreases n - k
  {
    if k >= n then [] else [PopReg(ArgReg(k))] + Pops(k + 1, n)
  }

  function InRegs(args: nat): nat {
    if args < ARG_REGS then args else ARG_REGS
  }

  /** What a `c_function` runs before its `call`. */
  function WrapperHead(args: nat): seq<Op> {
    [PushRbp, MovRbpRsp, SubRsp(8)] + ([AlignRsp] + (Copies(0, args) + Pops(0, InRegs(args))))
  }

  method GenerateCFunctionHead(args: nat) returns (ops: seq<Op>)
    ensures ops == WrapperHead(args)
  {
    ops := [PushRbp, MovRbpRsp, SubRsp(8)];
    ops := ops + [AlignRsp];
    ghost var head := ops;
    var i := 0;
    while i < args
      invariant 0 <= i <= args && ops + Copies(i, args) == head + Copies(0, args)
    {
      assert ops + Copies(i, args) == ops + [LoadRax((i + 2) * 8)] + [PushReg(RAX)] + Copies(i + 1, args);
      ops := ops + [LoadRax((i + 2) * 8)];
      ops := ops + [PushReg(RAX)];
      i := i + 1;
    }
    ghost var mid := ops;
    var n := InRegs(args);
    var k := 0;
    while k < n
      invariant 0 <= k <= n && ops + Pops(k, n) == mid + Pops(0, n)
    {
      assert ops + Pops(k, n) == ops + [PopReg(ArgReg(k))] + Pops(k + 1, n);
      ops := ops + [PopReg(ArgReg(k))];
      k := k + 1;
    }
    assert mid == head + Copies(0, args);
    assert ops == mid + Pops(0, n);
    assert head == [PushRbp, MovRbpRsp, SubRsp(8)] + [AlignRsp];
  }

  /** The j-th word pushed from an address down. */
  function Pushed(m: Machine, from: Addr, j: int): Value {
    At(m, from - 8 * (j + 1))
  }

  /** The j-th argument word from the top, past the saved `rbp` and the return address. */
  function FromTop(m: Machine, j: int): Value {
    At(m, m.rbp + (j + 2) * 8)
  }

  lemma {:induction false} CopiesRun(i: nat, args: nat, m: Machine)
    requires i <= args && m.rsp <= m.rbp
    ensures var p := RunOps(Copies(i, args), m);
      && p.rsp == m.rsp - 8 * (args - i) && p.rbp == m.rbp
      && (forall j :: i <= j < args ==> Pushed(p, m.rsp + 8 * i, j) == FromTop(m, j))
      && (forall a :: a >= m.rsp ==> At(p, a) == At(m, a))
    decreases args - i
  {
    if i < args {
      var m1 := StepOp(PushReg(RAX), StepOp(LoadRax((i + 2) * 8), m));
      TwoOps(LoadRax((i + 2) * 8), PushReg(RAX), m);
      RunOpsConcat([LoadRax((i + 2) * 8), PushReg(RAX)], Copies(i + 1, args), m);
      CopiesRun(i + 1, args, m1);
      var p := RunOps(Copies(i, args), m);
      assert p == RunOps(Copies(i + 1, args), m1);
      forall j | i <= j < args ensures Pushed(p, m.rsp + 8 * i, j) == FromTop(m, j) {
        if j > i {
          assert Pushed(p, m1.rsp + 8 * (i + 1), j) == FromTop(m1, j);
        } else {
          assert At(p, m1.rsp) == At(m1, m1.rsp);
        }
      }
    }
  }

  lemma {:induction false} PopsRun(k: nat, n: nat, m: Machine)
    requires k <= n
    ensures var p := RunOps(Pops(k, n), m);
      && p.rsp == m.rsp + 8 * (n - k) && p.rbp == m.rbp && p.mem == m.mem
      && (forall j :: k <= j < n ==> InReg(p, ArgReg(j)) == Nth(m, j - k))
      && (forall j :: 0 <= j < k ==> InReg(p, ArgReg(j)) == InReg(m, ArgReg(j)))
    decreases n - k
  {
    if k < n {
      var m1 := StepOp(PopReg(ArgReg(k)), m);
      assert Pops(k, n)[1..] == Pops(k + 1, n);
      PopsRun(k + 1, n, m1);
      var p := RunOps(Pops(k + 1, n), m1);
      assert InReg(p, ArgReg(k)) == InReg(m1, ArgReg(k));
      forall j | k <= j < n ensures InReg(p, ArgReg(j)) == Nth(m, j - k) {
        if j > k {
          assert InReg(p, ArgReg(j)) == Nth(m1, j - (k + 1));
        }
      }
    }
  }

  lemma {:induction false} WrapperStart(m: Machine)
    ensures var p := StepOp(AlignRsp, RunOps(Prologue(8), m));
      && p.rbp == m.rsp - 8 && p.rsp % 16 == 0 && p.rsp <= p.rbp - 8 && At(p, p.rbp) == Address(m.rbp)
      && forall a :: a >= m.rsp ==> At(p, a) == At(m, a)
  {
    AfterPrologue(m, 8);
  }

  /** The state of the machine at the C call. */
  function AtCall(start: Machine, n: nat): Machine {
    RunOps(WrapperHead(n), start)
  }

  lemma {:induction false} AtCallSteps(start: Machine, n: nat) returns (p: Machine, q: Machine)
    ensures p == StepOp(AlignRsp, RunOps(Prologue(8), start))
    ensures q == RunOps(Copies(0, n), p)
    ensures AtCall(start, n) == RunOps(Pops(0, InRegs(n)), q)
  {
    var rest := Copies(0, n) + Pops(0, InRegs(n));
    RunOpsConcat(Prologue(8), [AlignRsp] + rest, start);
    p := StepOp(AlignRsp, RunOps(Prologue(8), start));
    assert ([AlignRsp] + rest)[1..] == rest;
    RunOpsConcat(Copies(0, n), Pops(0, InRegs(n)), p);
    q := RunOps(Copies(0, n), p);
  }

  /** Before the registers are filled: the arguments lie on the stack, argument 0 on top. */
  lemma {:induction false} Copied(start: Machine, args: seq<Value>, p: Machine, q: Machine)
    requires Passed(start, args)
    requires p == StepOp(AlignRsp, RunOps(Prologue(8), start)) && q == RunOps(Copies(0, |args|), p)
    ensures q.rsp == p.rsp - 8 * |args| && q.rbp == p.rbp == start.rsp - 8 && p.rsp % 16 == 0
    ensures forall k :: 0 <= k < |args| ==> Nth(q, k) == args[k]
    ensures At(q, q.rbp) == Address(start.rbp)
    ensures forall a :: a >= start.rsp ==> At(q, a) == At(start, a)
  {
    WrapperStart(start);
    CopiesRun(0, |args|, p);
    forall k | 0 <= k < |args| ensures Nth(q, k) == args[k] {
      var j := |args| - 1 - k;
      assert Pushed(q, p.rsp + 8 * 0, j) == FromTop(p, j);
      assert Nth(start, |args| - k) == args[k];
    }
  }

  /** What C expects at a call: the first six arguments in registers in order, the others on the
    * stack from `rsp` up, and `rsp` a multiple of 16. */
  ghost predicate FollowsAbi(m: Machine, args: seq<Value>) {
    m.rsp % 16 == 0 && CArgs(m, |args|) == args
  }

  /** The arguments where C looks for them. */
  function CArgs(m: Machine, n: nat): (vs: seq<Value>)
    ensures |vs| == n
  {
    seq(n, k requires 0 <= k < n => if k < ARG_REGS then InReg(m, ArgReg(k)) else Nth(m, k - ARG_REGS))
  }

  lemma {:induction false} PoppedArgs(q: Machine, args: seq<Value>)
    requires forall k :: 0 <= k < |args| ==> Nth(q, k) == args[k]
    ensures var n := InRegs(|args|); var r := RunOps(Pops(0, n), q);
      CArgs(r, |args|) == args && r.mem == q.mem && r.rbp == q.rbp && r.rsp == q.rsp + 8 * n
  {
    hide Pops, RunOps;
    var n := InRegs(|args|);
    PopsRun(0, n, q);
    var r := RunOps(Pops(0, n), q);
    forall k | 0 <= k < |args| ensures CArgs(r, |args|)[k] == args[k] {
      if k < ARG_REGS {
        assert InReg(r, ArgReg(k)) == Nth(q, k - 0);
      } else {
        assert Nth(r, k - ARG_REGS) == Nth(q, k);
      }
    }
  }

  /** The registers filled, and what stays on the stack. */
  lemma {:induction false} Filled(start: Machine, args: seq<Value>)
    requires Passed(start, args)
    ensures var r := AtCall(start, |args|);
      && CArgs(r, |args|) == args && r.rbp == start.rsp - 8 && At(r, r.rbp) == Address(start.rbp)
      && (r.rsp % 16 == 0 <==> |args| <= ARG_REGS || |args| % 2 == 0)
      && forall a :: a >= start.rsp ==> At(r, a) == At(start, a)
  {
    hide Copies, Pops, RunOps;
    var p, q := AtCallSteps(start, |args|);
    Copied(start, args, p, q);
    PoppedArgs(q, args);
    Sixteens(q.rsp, |args|);
  }

  lemma Sixteens(a: int, n: nat)
    requires (a + 8 * n) % 16 == 0
    ensures (a + 8 * InRegs(n)) % 16 == 0 <==> n <= ARG_REGS || n % 2 == 0
  {}

  /** Arguments reach C in the right places whatever their number; the stack is aligned exactly when
    * there are at most six or an even number of them. */
  lemma {:induction false} CFunctionAbi(start: Machine, args: seq<Value>)
    requires Passed(start, args)
    ensures FollowsAbi(AtCall(start, |args|), args) <==> |args| <= ARG_REGS || |args| % 2 == 0
    ensures CArgs(AtCall(start, |args|), |args|) == args
  {
    Filled(start, args);
  }

  /** After any C function that keeps `rbp` and the words above it, the caller has its frame back and
    * everything above the return address as it was. */
  lemma {:induction false} CFunctionReturns(start: Machine, args: seq<Value>, after: Machine)
    requires Passed(start, args)
    requires var r := AtCall(start, |args|); after.rbp == r.rbp && forall a :: a >= r.rbp ==> At(after, a) == At(r, a)
    ensures var back := RetOp(RunOps(Epilogue(), after));
      && back.rsp == start.rsp + 8 && back.rbp == start.rbp && InReg(back, RAX) == InReg(after, RAX)
      && forall a :: a >= start.rsp ==> At(back, a) == At(start, a)
  {
    Filled(start, args);
    TwoOps(MovRspRbp, PopRbp, after);
  }

  // ---------- Called from C ----------

  /** The register arguments an exporter pushes, in order. */
  function RegPushes(k: nat, n: nat): seq<Op>
    decreases n - k
  {
    if k >= n then [] else [PushReg(ArgReg(k))] + RegPushes(k + 1, n)
  }

  function ExporterHead(args: nat): seq<Op> {
    [PushRbp, MovRbpRsp] + RegPushes(0, InRegs(args))
  }

  method GenerateCExporterHead(args: nat) returns (ops: seq<Op>)
    ensures ops == ExporterHead(args)
  {
    ops := [PushRbp, MovRbpRsp];
    ghost var head := ops;
    var n := InRegs(args);
    var k := 0;
    while k < n
      invariant 0 <= k <= n && ops + RegPushes(k, n) == head + RegPushes(0, n)
    {
      assert ops + RegPushes(k, n) == ops + [PushReg(ArgReg(k))] + RegPushes(k + 1, n);
      ops := ops + [PushReg(ArgReg(k))];
      k := k + 1;
    }
  }

  /** The register arguments as C passes them. */
  function RegArgs(m: Machine, k: nat, n: nat): (vs: seq<Value>)
    requires k <= n
    ensures |vs| == n - k && forall i :: 0 <= i < |vs| ==> vs[i] == InReg(m, ArgReg(k + i))
  {
    seq(n - k, i requires 0 <= i < n - k => InReg(m, ArgReg(k + i)))
  }

  lemma PushCons(m: Machine, v: Value, vs: seq<Value>)
    ensures PushAll(m, [v] + vs) == PushAll(Push1(m, v), vs)
  {
    assert ([v] + vs)[1..] == vs;
  }

  lemma {:induction false} RegPushesRun(k: nat, n: nat, m: Machine)
    requires k <= n
    ensures RunOps(RegPushes(k, n), m) == PushAll(m, RegArgs(m, k, n))
    decreases n - k
  {
    if k < n {
      var m1 := Push1(m, InReg(m, ArgReg(k)));
      assert RegPushes(k, n) == [PushReg(ArgReg(k))] + RegPushes(k + 1, n);
      RunOpsConcat([PushReg(ArgReg(k))], RegPushes(k + 1, n), m);
      assert RunOps([PushReg(ArgReg(k))], m) == m1 by { assert [PushReg(ArgReg(k))][1..] == []; }
      RegPushesRun(k + 1, n, m1);
      PushCons(m, InReg(m, ArgReg(k)), RegArgs(m1, k + 1, n));
      assert RegArgs(m, k, n) == [InReg(m, ArgReg(k))] + RegArgs(m1, k + 1, n);
    }
  }

  /** An exported function finds C's register arguments in its parameter slots exactly when it has at
    * most six parameters: with more, the slots are counted from further up than the exporter pushed. */
  lemma {:induction false} ExporterAbi(fn: M.Fn, m: Machine, frameSize: nat, k: nat)
    requires k < fn.params
    ensures var p := RunOps(Prologue(frameSize), CallOp(RunOps(ExporterHead(fn.params), m)));
      && (fn.params <= ARG_REGS ==> At(p, p.rbp + SlotOffset(fn.params, k)) == InReg(m, ArgReg(k)))
      && (k < ARG_REGS ==>
           (p.rbp + SlotOffset(fn.params, k) == m.rsp - 8 - 8 * (k + 1) <==> fn.params <= ARG_REGS))
  {
    var n := InRegs(fn.params);
    var start := StepOp(MovRbpRsp, StepOp(PushRbp, m));
    TwoOps(PushRbp, MovRbpRsp, m);
    RunOpsConcat([PushRbp, MovRbpRsp], RegPushes(0, n), m);
    RegPushesRun(0, n, start);
    var vs := RegArgs(start, 0, n);
    PushedAt(start, vs);
    var q := PushAll(start, vs);
    AfterPrologue(CallOp(q), frameSize);
    if fn.params <= ARG_REGS {
      assert At(q, start.rsp - 8 * (k + 1)) == vs[k];
    }
  }
}
