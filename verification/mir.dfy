/** The mid-level representation: basic blocks of stack code, and what running them means. */
module Mir {
  import opened Values

  datatype Val = IntVal(n: int) | StrVal(s: string) | FnVal(f: nat)

  datatype Stmt =
    | Push(val: Val)
    | Pop
    | Load(local: nat)
    | Store(local: nat)
    | CallFn(args: nat)
    | Binary(op: BinOp)

  datatype Ter =
    | Unset
    | Return
    | Goto(target: nat)
    | If(truthy: nat, falsy: nat)

  /** Blocks refer to each other by id. */
  datatype Block = Block(id: nat, stmts: seq<Stmt>, ter: Ter)

  /** Locals are numbered `0..locals`; parameter k is local `k + 1`, the result is local 0. */
  datatype Fn = Fn(params: nat, locals: nat, blocks: seq<Block>, entry: nat, exit: nat)

  datatype State = State(locals: map<nat, Value>, stack: seq<Value>, w: World)

  datatype Step = Ok(st: State) | Stop(reply: Reply)

  function ValueOf(v: Val): Value {
    match v
    case IntVal(n) => Literal(n)
    case StrVal(s) => StrRef(s)
    case FnVal(f) => FnRef(f)
  }

  function ExecStmt(s: Stmt, st: State, call: Callee): Step {
    var k := |st.stack|;
    match s
    case Push(v) => Ok(st.(stack := st.stack + [ValueOf(v)]))
    case Pop => if k < 1 then Stop(Stuck) else Ok(st.(stack := st.stack[..k - 1]))
    case Load(l) => Ok(st.(stack := st.stack + [Get(st.locals, l)]))
    case Store(l) =>
      if k < 1 then Stop(Stuck) else Ok(State(st.locals[l := st.stack[k - 1]], st.stack[..k - 1], st.w))
    case CallFn(n) =>
      if k < n + 1 then Stop(Stuck) else
      var reply := Invoke(call, st.stack[k - 1], st.stack[k - 1 - n..k - 1], st.w);
      if reply.Returned? then Ok(State(st.locals, st.stack[..k - 1 - n] + [reply.v], reply.w))
      else Stop(reply)
    case Binary(op) =>
      if k < 2 then Stop(Stuck) else
      match Apply(op, st.stack[k - 2], st.stack[k - 1])
      case None => Stop(Trapped)
      case Some(v) => Ok(st.(stack := st.stack[..k - 2] + [v]))
  }

  function ExecStmts(ss: seq<Stmt>, st: State, call: Callee): Step {
    if ss == [] then Ok(st) else
    match ExecStmt(ss[0], st, call)
    case Stop(r) => Stop(r)
    case Ok(st1) => ExecStmts(ss[1..], st1, call)
  }

  lemma ExecConcat(a: seq<Stmt>, b: seq<Stmt>, st: State, call: Callee)
    ensures ExecStmts(a + b, st, call) ==
            match ExecStmts(a, st, call) case Stop(r) => Stop(r) case Ok(st1) => ExecStmts(b, st1, call)
  {
    if a == [] {
      assert a + b == b;
    } else {
      assert (a + b)[1..] == a[1..] + b;
    }
  }

  /** The position of the first block with that id, or |bs|. */
  function Find(bs: seq<Block>, id: nat): (i: nat)
    ensures i <= |bs|
    ensures i < |bs| ==> bs[i].id == id
    ensures forall j :: 0 <= j < i ==> bs[j].id != id
  {
    if bs == [] then 0 else if bs[0].id == id then 0 else 1 + Find(bs[1..], id)
  }

  /** What a function leaves behind when it returns. */
  function Result(params: nat, st: State): Reply {
    Returned(Get(st.locals, 0), seq(params, i requires 0 <= i < params => Get(st.locals, i + 1)), st.w)
  }

  /** Where a terminator goes, once the block's statements have run. */
  datatype Next = To(target: nat, st: State) | End(reply: Reply)

  function Transfer(params: nat, ter: Ter, st: State): Next {
    match ter
    case Unset => End(Stuck)
    case Return => End(Result(params, st))
    case Goto(t) => To(t, st)
    case If(t, f) =>
      var k := |st.stack|;
      if k < 1 then End(Stuck) else
      match Test(st.stack[k - 1])
      case None => End(Trapped)
      case Some(b) => To(if b then t else f, st.(stack := st.stack[..k - 1]))
  }

  /** Run the statements of a block from one of them on, then its terminator. */
  function RunBlock(params: nat, b: Block, from: nat, st: State, call: Callee): Next
    requires from <= |b.stmts|
  {
    match ExecStmts(b.stmts[from..], st, call)
    case Stop(r) => End(r)
    case Ok(st1) => Transfer(params, b.ter, st1)
  }

  /** Run from the start of a block.  `fuel` bounds the transfers between blocks. */
  function Run(params: nat, bs: seq<Block>, id: nat, st: State, call: Callee, fuel: nat): Outcome
    decreases fuel
  {
    var i := Find(bs, id);
    if i == |bs| then Halt(Stuck) else
    Continue(params, bs, RunBlock(params, bs[i], 0, st, call), call, fuel)
  }

  function Continue(params: nat, bs: seq<Block>, next: Next, call: Callee, fuel: nat): Outcome
    decreases fuel, 0
  {
    match next
    case End(r) => Halt(r)
    case To(t, st) => if fuel == 0 then Timeout else Run(params, bs, t, st, call, fuel - 1)
  }

  function ArgLocals(args: seq<Value>): (m: map<nat, Value>)
    ensures forall l: nat :: l in m <==> 1 <= l <= |args|
    ensures forall l :: l in m ==> m[l] == args[l - 1]
  {
    if args == [] then map[] else ArgLocals(args[..|args| - 1])[|args| := args[|args| - 1]]
  }

  function InitialState(args: seq<Value>, w: World): State {
    State(ArgLocals(args), [], w)
  }

  function RunFn(fn: Fn, args: seq<Value>, w: World, call: Callee, fuel: nat): Outcome {
    Run(fn.params, fn.blocks, fn.entry, InitialState(args, w), call, fuel)
  }

  /** A run that has halted halts the same way with more fuel. */
  lemma {:induction false} RunMore(params: nat, bs: seq<Block>, id: nat, st: State, call: Callee, m: nat, n: nat)
    requires m <= n && Run(params, bs, id, st, call, m).Halt?
    ensures Run(params, bs, id, st, call, n) == Run(params, bs, id, st, call, m)
    decreases m
  {
    var i := Find(bs, id);
    if i < |bs| {
      var next := RunBlock(params, bs[i], 0, st, call);
      if next.To? {
        RunMore(params, bs, next.target, next.st, call, m - 1, n - 1);
      }
    }
  }
}
