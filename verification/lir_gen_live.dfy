/** Generated lines obey the register discipline. */
module LirGenLive {
  import opened Values
  import M = Mir
  import opened MirShape
  import opened Lir
  import opened LirGen
  import opened LirLive

  lemma {:induction false} OkCons(line: Line, rest: seq<Line>, live: set<Reg>, next: Reg, slots: nat)
    requires line.labels != [] ==> live == {}
    requires LineOk(line.ins, live, next, slots) && FollowOk(line.ins, rest)
    requires Ok(rest, LiveAfter(line.ins, live), NextAfter(line.ins, next), slots)
    ensures Ok([line] + rest, live, next, slots)
  {
    assert ([line] + rest)[1..] == rest;
  }

  lemma {:induction false} KillOk(r: Reg, rest: seq<Line>, live: set<Reg>, next: Reg, slots: nat)
    requires r !in live && rest != [] && Ok(rest, live, next, slots)
    ensures Ok([L(Kill(r))] + rest, live + {r}, next, slots)
  {
    assert live + {r} - {r} == live;
    OkCons(L(Kill(r)), rest, live + {r}, next, slots);
  }

  /** A load of some kind, a push and the kill. */
  lemma {:induction false} PushOk(load: Ins, base: Reg, rest: seq<Line>, slots: nat)
    requires DefOf(load) == Some(base) && LineOk(load, {}, base, slots) && rest != [] && Ok(rest, {}, base + 1, slots)
    ensures Ok([L(load), L(Push(base)), L(Kill(base))] + rest, {}, base, slots)
  {
    var t2 := [L(Kill(base))] + rest;
    var t1 := [L(Push(base))] + t2;
    assert t2[0] == L(Kill(base));
    KillOk(base, rest, {}, base + 1, slots);
    OkCons(L(Push(base)), t2, {} + {base}, base + 1, slots);
    OkCons(L(load), t1, {}, base, slots);
    assert [L(load), L(Push(base)), L(Kill(base))] + rest == [L(load)] + t1;
  }

  lemma {:induction false} PopOk(base: Reg, rest: seq<Line>, live: set<Reg>, slots: nat)
    requires base !in live && rest != [] && Ok(rest, live, base + 1, slots)
    ensures Ok([L(Pop(base)), L(Kill(base))] + rest, live, base, slots)
  {
    KillOk(base, rest, live, base + 1, slots);
    OkCons(L(Pop(base)), [L(Kill(base))] + rest, live, base, slots);
    assert [L(Pop(base)), L(Kill(base))] + rest == [L(Pop(base))] + ([L(Kill(base))] + rest);
  }

  lemma {:induction false} StoreOk(slot: Reg, base: Reg, rest: seq<Line>, slots: nat)
    requires slot < slots && rest != [] && Ok(rest, {}, base + 1, slots)
    ensures Ok([L(Pop(base)), L(StoreReg(slot, base)), L(Kill(base))] + rest, {}, base, slots)
  {
    var t2 := [L(Kill(base))] + rest;
    var t1 := [L(StoreReg(slot, base))] + t2;
    KillOk(base, rest, {}, base + 1, slots);
    OkCons(L(StoreReg(slot, base)), t2, {} + {base}, base + 1, slots);
    OkCons(L(Pop(base)), t1, {}, base, slots);
    assert [L(Pop(base)), L(StoreReg(slot, base)), L(Kill(base))] + rest == [L(Pop(base))] + t1;
  }

  lemma {:induction false} PopArgsOk(n: nat, base: Reg, rest: seq<Line>, live: set<Reg>, slots: nat)
    requires (forall r :: r in live ==> r < base) && rest != [] && Ok(rest, live, base + n, slots)
    ensures Ok(PopArgs(n, base) + rest, live, base, slots)
    decreases n
  {
    hide Ok;
    if n == 0 {
      assert PopArgs(n, base) + rest == rest;
    } else {
      PopArgsOk(n - 1, base + 1, rest, live, slots);
      PopOk(base, PopArgs(n - 1, base + 1) + rest, live, slots);
      assert PopArgs(n, base) + rest == [L(Pop(base)), L(Kill(base))] + (PopArgs(n - 1, base + 1) + rest);
    }
  }

  lemma {:induction false} CallTailOk(n: nat, base: Reg, rest: seq<Line>, slots: nat)
    requires rest != [] && Ok(rest, {}, base + n + 2, slots)
    ensures Ok([L(Pop(base + 1))] + (PopArgs(n, base + 2) + ([L(Push(base + 1)), L(Kill(base + 1))] + rest)), {},
               base + 1, slots)
  {
    var r := base + 1;
    var t2 := [L(Kill(r))] + rest;
    var t1 := [L(Push(r))] + t2;
    assert t2[0] == L(Kill(r));
    KillOk(r, rest, {}, base + n + 2, slots);
    assert {} + {r} == {r};
    OkCons(L(Push(r)), t2, {r}, base + n + 2, slots);
    assert [L(Push(r)), L(Kill(r))] + rest == t1;
    CallHeadOk(n, r, t1, slots);
  }

  lemma {:induction false} CallHeadOk(n: nat, r: Reg, t1: seq<Line>, slots: nat)
    requires t1 != [] && Ok(t1, {r}, r + 1 + n, slots)
    ensures Ok([L(Pop(r))] + (PopArgs(n, r + 1) + t1), {}, r, slots)
  {
    PopArgsOk(n, r + 1, t1, {r}, slots);
    assert {} + {r} == {r};
    OkCons(L(Pop(r)), PopArgs(n, r + 1) + t1, {}, r, slots);
  }

  lemma {:induction false} CallFirstOk(n: nat, base: Reg, tail: seq<Line>, slots: nat)
    requires tail != [] && Ok(tail, {}, base + 1, slots)
    ensures Ok([L(Pop(base)), L(CallReg(base, n)), L(Kill(base))] + tail, {}, base, slots)
  {
    var t2 := [L(Kill(base))] + tail;
    var t1 := [L(CallReg(base, n))] + t2;
    KillOk(base, tail, {}, base + 1, slots);
    assert {} + {base} == {base};
    OkCons(L(CallReg(base, n)), t2, {base}, base + 1, slots);
    OkCons(L(Pop(base)), t1, {}, base, slots);
    assert [L(Pop(base)), L(CallReg(base, n)), L(Kill(base))] + tail == [L(Pop(base))] + t1;
  }

  lemma {:induction false} CallOk(params: nat, n: nat, base: Reg, rest: seq<Line>, slots: nat)
    requires rest != [] && Ok(rest, {}, base + n + 2, slots)
    ensures Ok(StmtLines(params, M.CallFn(n), base) + rest, {}, base, slots)
  {
    CallTailOk(n, base, rest, slots);
    CallFirstOk(n, base, [L(Pop(base + 1))] + (PopArgs(n, base + 2) + ([L(Push(base + 1)), L(Kill(base + 1))] + rest)),
                slots);
    CallShape(params, n, base, rest);
  }

  lemma {:induction false} CallShape(params: nat, n: nat, base: Reg, rest: seq<Line>)
    ensures StmtLines(params, M.CallFn(n), base) + rest ==
      [L(Pop(base)), L(CallReg(base, n)), L(Kill(base))]
      + ([L(Pop(base + 1))] + (PopArgs(n, base + 2) + ([L(Push(base + 1)), L(Kill(base + 1))] + rest)))
  {}

  lemma {:induction false} BinaryTailOk(base: Reg, rest: seq<Line>, slots: nat)
    requires rest != [] && Ok(rest, {}, base + 2, slots)
    ensures Ok([L(Push(base + 1)), L(Kill(base)), L(Kill(base + 1))] + rest, {base, base + 1}, base + 2, slots)
  {
    var t2 := [L(Kill(base + 1))] + rest;
    var t1 := [L(Kill(base))] + t2;
    KillOk(base + 1, rest, {}, base + 2, slots);
    assert {} + {base + 1} == {base + 1} && {base + 1} + {base} == {base, base + 1};
    KillOk(base, t2, {base + 1}, base + 2, slots);
    assert t1[0] == L(Kill(base)) && t1[1..] == t2 && t2[0] == L(Kill(base + 1));
    assert KillFollows(t2, base + 1);
    OkCons(L(Push(base + 1)), t1, {base, base + 1}, base + 2, slots);
    assert [L(Push(base + 1)), L(Kill(base)), L(Kill(base + 1))] + rest == [L(Push(base + 1))] + t1;
  }

  lemma {:induction false} BinaryOk(params: nat, op: BinOp, base: Reg, rest: seq<Line>, slots: nat)
    requires rest != [] && Ok(rest, {}, base + 2, slots)
    ensures Ok(StmtLines(params, M.Binary(op), base) + rest, {}, base, slots)
  {
    hide Ok, FollowOk;
    var tail := [L(Push(base + 1)), L(Kill(base)), L(Kill(base + 1))] + rest;
    BinaryTailOk(base, rest, slots);
    BinaryHeadOk(op, base, tail, slots);
    assert StmtLines(params, M.Binary(op), base) + rest ==
           [L(Pop(base)), L(Pop(base + 1)), L(Binary(op, base + 1, base))] + tail;
  }

  lemma {:induction false} BinaryHeadOk(op: BinOp, base: Reg, tail: seq<Line>, slots: nat)
    requires tail != [] && Ok(tail, {base, base + 1}, base + 2, slots)
    ensures Ok([L(Pop(base)), L(Pop(base + 1)), L(Binary(op, base + 1, base))] + tail, {}, base, slots)
  {
    hide Ok;
    var t2 := [L(Binary(op, base + 1, base))] + tail;
    var t1 := [L(Pop(base + 1))] + t2;
    OkCons(L(Binary(op, base + 1, base)), tail, {base, base + 1}, base + 2, slots);
    assert {base} + {base + 1} == {base, base + 1} && {} + {base} == {base};
    OkCons(L(Pop(base + 1)), t2, {base}, base + 1, slots);
    OkCons(L(Pop(base)), t1, {}, base, slots);
    assert [L(Pop(base)), L(Pop(base + 1)), L(Binary(op, base + 1, base))] + tail == [L(Pop(base))] + t1;
  }

  lemma {:induction false} StmtOk(params: nat, s: M.Stmt, base: Reg, rest: seq<Line>, slots: nat)
    requires params < slots && LocalsBelow([s], slots) && rest != [] && Ok(rest, {}, base + RegsOf(s), slots)
    ensures Ok(StmtLines(params, s, base) + rest, {}, base, slots)
  {
    assert [s][0] == s;
    match s
    case Push(v) =>
      match v {
        case IntVal(n) => PushOk(MovInt(base, n), base, rest, slots);
        case StrVal(t) => PushOk(MovString(base, t), base, rest, slots);
        case FnVal(f) => PushOk(MovFn(base, f), base, rest, slots);
      }
    case Pop => PopOk(base, rest, {}, slots);
    case Load(l) => PushOk(Load(base, SlotOf(params, l)), base, rest, slots);
    case Store(l) => StoreOk(SlotOf(params, l), base, rest, slots);
    case CallFn(n) => CallOk(params, n, base, rest, slots);
    case Binary(op) => BinaryOk(params, op, base, rest, slots);
  }

  lemma {:induction false} StmtsOk(params: nat, ss: seq<M.Stmt>, base: Reg, rest: seq<Line>, slots: nat)
    requires params < slots && LocalsBelow(ss, slots) && rest != [] && Ok(rest, {}, base + StmtsRegs(ss), slots)
    ensures Ok(StmtsLines(params, ss, base) + rest, {}, base, slots)
    decreases |ss|
  {
    hide Ok, StmtLines;
    if ss == [] {
      assert StmtsLines(params, ss, base) + rest == rest;
    } else {
      LocalsHead(ss, slots);
      StmtsOk(params, ss[1..], base + RegsOf(ss[0]), rest, slots);
      FirstStmtOk(params, ss[0], base, StmtsLines(params, ss[1..], base + RegsOf(ss[0])), rest, slots);
      StmtsShape(params, ss, base, rest);
    }
  }

  lemma {:induction false} LocalsHead(ss: seq<M.Stmt>, slots: nat)
    requires ss != [] && LocalsBelow(ss, slots)
    ensures LocalsBelow([ss[0]], slots) && LocalsBelow(ss[1..], slots)
  {}

  lemma {:induction false} FirstStmtOk(params: nat, s: M.Stmt, base: Reg, more: seq<Line>, rest: seq<Line>, slots: nat)
    requires params < slots && LocalsBelow([s], slots) && rest != [] && Ok(more + rest, {}, base + RegsOf(s), slots)
    ensures Ok(StmtLines(params, s, base) + (more + rest), {}, base, slots)
  {
    StmtOk(params, s, base, more + rest, slots);
  }

  lemma {:induction false} StmtsShape(params: nat, ss: seq<M.Stmt>, base: Reg, rest: seq<Line>)
    requires ss != []
    ensures StmtsLines(params, ss, base) + rest ==
      StmtLines(params, ss[0], base) + (StmtsLines(params, ss[1..], base + RegsOf(ss[0])) + rest)
  {
    var a, b := StmtLines(params, ss[0], base), StmtsLines(params, ss[1..], base + RegsOf(ss[0]));
    assert StmtsLines(params, ss, base) == a + b;
    assert (a + b) + rest == a + (b + rest);
  }

  lemma {:induction false} TerOk(bs: seq<M.Block>, ter: M.Ter, base: Reg, rest: seq<Line>, slots: nat)
    requires ter != M.Unset && (rest == [] || rest[0].labels != [])
    requires Ok(rest, {}, base + (if ter.If? then 1 else 0), slots)
    ensures Ok(TerLines(bs, ter, base) + rest, {}, base, slots)
  {
    hide Ok;
    match ter
    case Return => OkCons(L(Ret), rest, {}, base, slots);
    case Goto(t) => OkCons(L(Jmp(M.Find(bs, t))), rest, {}, base, slots);
    case If(t, f) =>
      var jmp := L(Jmp(M.Find(bs, f)));
      var t3 := [jmp] + rest;
      OkCons(jmp, rest, {}, base + 1, slots);
      var t2 := [L(Kill(base))] + t3;
      KillOk(base, t3, {}, base + 1, slots);
      var jnz := L(JnzReg(base, M.Find(bs, t)));
      assert {} + {base} == {base} && t2[0] == L(Kill(base)) && t2[1] == jmp;
      var t1 := [jnz] + t2;
      OkCons(jnz, t2, {base}, base + 1, slots);
      OkCons(L(Pop(base)), t1, {}, base, slots);
      assert TerLines(bs, ter, base) + rest == [L(Pop(base))] + t1;
  }

  lemma {:induction false} BlockOk(params: nat, bs: seq<M.Block>, k: nat, base: Reg, more: seq<Line>, slots: nat)
    requires params < slots && k < |bs| && bs[k].ter != M.Unset && LocalsBelow(bs[k].stmts, slots)
    requires Ok(more, {}, base + BlockRegs(bs[k]), slots) && (more == [] || more[0].labels != [])
    ensures Ok(BlockLines(params, bs, k, base) + more, {}, base, slots)
  {
    hide Ok, StmtsLines, TerLines;
    var mid := base + StmtsRegs(bs[k].stmts);
    var ss, ts := StmtsLines(params, bs[k].stmts, base), TerLines(bs, bs[k].ter, mid);
    TerOk(bs, bs[k].ter, mid, more, slots);
    StmtsOk(params, bs[k].stmts, base, ts + more, slots);
    LabelledOk(k, ss, ts, more, base, slots);
  }

  lemma {:induction false} LabelledOk(k: Label, ss: seq<Line>, ts: seq<Line>, more: seq<Line>, base: Reg, slots: nat)
    requires |ts| > 0 && Ok(ss + (ts + more), {}, base, slots)
    ensures Ok(Labelled([k], ss + ts) + more, {}, base, slots)
  {
    LabelOk(k, ss + (ts + more), base, slots);
    assert Labelled([k], ss + (ts + more)) == Labelled([k], ss + ts) + more;
  }

  lemma {:induction false} BodyOk(params: nat, bs: seq<M.Block>, k: nat, base: Reg, slots: nat)
    requires params < slots && k <= |bs|
    requires forall i :: k <= i < |bs| ==> bs[i].ter != M.Unset && LocalsBelow(bs[i].stmts, slots)
    ensures Ok(BodyLines(params, bs, k, base), {}, base, slots)
    decreases |bs| - k
  {
    if k < |bs| {
      BodyOk(params, bs, k + 1, base + BlockRegs(bs[k]), slots);
      BodyHead(params, bs, k + 1, base + BlockRegs(bs[k]));
      BlockOk(params, bs, k, base, BodyLines(params, bs, k + 1, base + BlockRegs(bs[k])), slots);
    }
  }

  lemma {:induction false} BodyHead(params: nat, bs: seq<M.Block>, k: nat, base: Reg)
    requires k <= |bs|
    ensures var ls := BodyLines(params, bs, k, base);
      (ls == [] || ls[0].labels != []) && (k < |bs| ==> ls != [])
  {}

  /** A label where nothing is live. */
  lemma {:induction false} LabelOk(l: Label, ls: seq<Line>, base: Reg, slots: nat)
    requires ls != [] && Ok(ls, {}, base, slots)
    ensures Ok(Labelled([l], ls), {}, base, slots)
  {
    assert Labelled([l], ls)[1..] == ls[1..];
  }

  lemma {:induction false} AllocsOk(from: nat, params: nat, locals: nat, rest: seq<Line>)
    requires rest != [] && Ok(rest, {}, locals, locals)
    ensures Ok(AllocLines(from, params, locals) + rest, {}, locals, locals)
    decreases locals - from
  {
    hide Ok;
    if from >= locals {
      assert AllocLines(from, params, locals) + rest == rest;
    } else {
      var all, tail := AllocLines(from, params, locals), AllocLines(from + 1, params, locals);
      AllocsOk(from + 1, params, locals, rest);
      OkCons(all[0], tail + rest, {}, locals, locals);
      assert all == [all[0]] + tail;
      hide AllocLines;
      assert [all[0]] + tail + rest == [all[0]] + (tail + rest);
    }
  }

  /** The lines of a well-formed function obey the register discipline. */
  lemma {:induction false} GenFnOk(fn: M.Fn)
    requires WellFormed(fn)
    ensures Ok(FnLines(fn), {}, fn.locals, fn.locals)
  {
    BodyOk(fn.params, fn.blocks, 0, fn.locals, fn.locals);
    BodyHead(fn.params, fn.blocks, 0, fn.locals);
    AllocsOk(0, fn.params, fn.locals, BodyLines(fn.params, fn.blocks, 0, fn.locals));
  }
}
