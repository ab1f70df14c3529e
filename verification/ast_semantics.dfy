/** What a resolved function body means: slots in place of names.
  *
  * Every name has been resolved, so a store maps slots to values.  `fuel` bounds the number
  * of loop iterations; running out of it is the one answer that says nothing.
  */
module AstSemantics {
  import opened Values
  import opened Ast

  datatype Slot = LetSlot(id: nat) | ParamSlot(i: nat) | RetSlot

  type Store = map<Slot, Value>

  datatype EvalRes = Val(v: Value, w: World) | Fail(reply: Reply)
  datatype ArgsRes = Vals(vs: seq<Value>, w: World) | ArgsFail(reply: Reply)

  /** How a statement ends. */
  datatype Exit =
    | Normal(store: Store, w: World)
    | Broke(loop: nat, store: Store, w: World)
    | Left(store: Store, w: World)
    | Failed(reply: Reply)
    | OutOfFuel

  /** Reading a resolved name. */
  function Lookup(re: Resols, id: nat, store: Store): Option<Value> {
    if id !in re.exprs then None else
    match re.exprs[id]
    case ToFn(f) => Some(FnRef(f))
    case ToParam(i) => Some(Get(store, ParamSlot(i)))
    case ToLet(l) => Some(Get(store, LetSlot(l)))
    case ToLoop(_) => None
  }

  /** The slot an assignment's subject names. */
  function Target(re: Resols, subject: Expr): Option<Slot> {
    if !subject.Ident? || subject.id !in re.exprs then None else
    match re.exprs[subject.id]
    case ToParam(i) => Some(ParamSlot(i))
    case ToLet(l) => Some(LetSlot(l))
    case _ => None
  }

  /** Arguments are evaluated left to right, then the callee.  The operators `not`, unary `-`,
    * `or`, `xor` and `and` parse but have no code yet; here they fault. */
  function Eval(re: Resols, e: Expr, store: Store, w: World, call: Callee): EvalRes {
    match e
    case Ident(id, _) =>
      (match Lookup(re, id, store) case None => Fail(Stuck) case Some(v) => Val(v, w))
    case Int(_, n) => Val(Literal(n), w)
    case Str(_, s) => Val(StrRef(s), w)
    case Call(_, callee, args) =>
      (match EvalArgs(re, args, store, w, call)
       case ArgsFail(r) => Fail(r)
       case Vals(vs, w1) =>
         match Eval(re, callee, store, w1, call)
         case Fail(r) => Fail(r)
         case Val(f, w2) =>
           var reply := Invoke(call, f, vs, w2);
           if reply.Returned? then Val(reply.v, reply.w) else Fail(reply))
    case Binary(_, op, left, right) =>
      (match Eval(re, left, store, w, call)
       case Fail(r) => Fail(r)
       case Val(l, w1) =>
         match Eval(re, right, store, w1, call)
         case Fail(r) => Fail(r)
         case Val(r, w2) =>
           if !op.Bin? then Fail(Trapped) else
           match Apply(op.op, l, r) case None => Fail(Trapped) case Some(v) => Val(v, w2))
    case Not(_, _) => Fail(Trapped)
    case Negate(_, _) => Fail(Trapped)
  }

  function EvalArgs(re: Resols, es: List<Expr>, store: Store, w: World, call: Callee): ArgsRes {
    match es
    case Nil => Vals([], w)
    case Cons(e, rest) =>
      match Eval(re, e, store, w, call)
      case Fail(r) => ArgsFail(r)
      case Val(v, w1) =>
        match EvalArgs(re, rest, store, w1, call)
        case ArgsFail(r) => ArgsFail(r)
        case Vals(vs, w2) => Vals([v] + vs, w2)
  }

  /** Evaluate and keep the value in a slot. */
  function EvalInto(re: Resols, e: Expr, slot: Slot, store: Store, w: World, call: Callee): Exit {
    match Eval(re, e, store, w, call)
    case Fail(r) => Failed(r)
    case Val(v, w1) => Normal(store[slot := v], w1)
  }

  function Exec(re: Resols, s: Stmt, store: Store, w: World, call: Callee, fuel: nat): Exit
    decreases fuel, s
  {
    match s
    case Let(id, _, init) =>
      if init.None? then Normal(store, w) else EvalInto(re, init.value, LetSlot(id), store, w, call)
    case Loop(id, body) =>
      if fuel == 0 then OutOfFuel else
      (match ExecBlock(re, body, store, w, call, fuel - 1)
       case Normal(store1, w1) => Exec(re, s, store1, w1, call, fuel - 1)
       case Broke(l, store1, w1) => if l == id then Normal(store1, w1) else Broke(l, store1, w1)
       case out => out)
    case While(id, cond, body) =>
      if fuel == 0 then OutOfFuel else
      (match Eval(re, cond, store, w, call)
       case Fail(r) => Failed(r)
       case Val(v, w0) =>
         match Test(v)
         case None => Failed(Trapped)
         case Some(false) => Normal(store, w0)
         case Some(true) =>
           match ExecBlock(re, body, store, w0, call, fuel - 1)
           case Normal(store1, w1) => Exec(re, s, store1, w1, call, fuel - 1)
           case Broke(l, store1, w1) => if l == id then Normal(store1, w1) else Broke(l, store1, w1)
           case out => out)
    case If(_, cond, truthy, falsy) =>
      (match Eval(re, cond, store, w, call)
       case Fail(r) => Failed(r)
       case Val(v, w0) =>
         match Test(v)
         case None => Failed(Trapped)
         case Some(true) => ExecBlock(re, truthy, store, w0, call, fuel)
         case Some(false) =>
           if falsy.None? then Normal(store, w0) else ExecBlock(re, falsy.value, store, w0, call, fuel))
    case Return(_, e) =>
      if e.None? then Left(store, w) else
      (match EvalInto(re, e.value, RetSlot, store, w, call)
       case Normal(store1, w1) => Left(store1, w1)
       case out => out)
    case Break(id) =>
      if id in re.stmts && re.stmts[id].ToLoop? then Broke(re.stmts[id].id, store, w) else Failed(Stuck)
    case Assign(_, subject, e) =>
      var slot := Target(re, subject);
      if slot.None? then Failed(Stuck) else EvalInto(re, e, slot.value, store, w, call)
    case ExprStmt(_, e) =>
      match Eval(re, e, store, w, call)
      case Fail(r) => Failed(r)
      case Val(_, w1) => Normal(store, w1)
  }

  function ExecBlock(re: Resols, b: Block, store: Store, w: World, call: Callee, fuel: nat): Exit
    decreases fuel, b
  {
    match b
    case Nil => Normal(store, w)
    case Cons(s, rest) =>
      match Exec(re, s, store, w, call, fuel)
      case Normal(store1, w1) => ExecBlock(re, rest, store1, w1, call, fuel)
      case out => out
  }

  function InitialStore(args: seq<Value>): (m: Store)
    ensures forall s :: s in m <==> s.ParamSlot? && s.i < |args|
    ensures forall s :: s in m ==> m[s] == args[s.i]
  {
    if args == [] then map[] else InitialStore(args[..|args| - 1])[ParamSlot(|args| - 1) := args[|args| - 1]]
  }

  /** The parameter slots at the end of a run. */
  function ParamValues(store: Store, params: nat): (vs: seq<Value>)
    ensures |vs| == params
  {
    seq(params, i requires 0 <= i < params => Get(store, ParamSlot(i)))
  }

  /** Running a function body on arguments. */
  function RunBody(re: Resols, body: Block, args: seq<Value>, w: World, call: Callee, fuel: nat): Outcome {
    match ExecBlock(re, body, InitialStore(args), w, call, fuel)
    case Normal(store, w1) => Halt(Returned(Get(store, RetSlot), ParamValues(store, |args|), w1))
    case Left(store, w1) => Halt(Returned(Get(store, RetSlot), ParamValues(store, |args|), w1))
    case Broke(_, _, _) => Halt(Stuck)
    case Failed(r) => Halt(r)
    case OutOfFuel => Timeout
  }
}
