/** The line generator as the compiler runs it: registers and labels counted, lines appended. */
module LirGenClass {
  import opened Values
  import M = Mir
  import opened MirShape
  import opened Lir
  import opened LirGen

  function Joined(ls: seq<Line>, labels: seq<Label>, more: seq<Line>): seq<Line>
    requires |more| > 0
  {
    ls + Labelled(labels, more)
  }

  lemma JoinOne(ls: seq<Line>, labels: seq<Label>, ins: Ins)
    ensures ls + [Line(labels, ins)] == Joined(ls, labels, [L(ins)])
  {
    assert labels + [] == labels;
  }

  lemma JoinMore(ls: seq<Line>, labels: seq<Label>, a: seq<Line>, b: seq<Line>)
    requires |a| > 0
    ensures Joined(ls, labels, a) + b == Joined(ls, labels, a + b)
  {}

  lemma JoinNoLabels(ls: seq<Line>, a: seq<Line>)
    requires |a| > 0
    ensures Joined(ls, [], a) == ls + a
  {
    assert [] + a[0].labels == a[0].labels;
  }

  /** Lines appended where labels are pending, and the labels then pending. */
  function Emit(ls: seq<Line>, labels: seq<Label>, more: seq<Line>): (seq<Line>, seq<Label>) {
    if more == [] then (ls, labels) else (Joined(ls, labels, more), [])
  }

  lemma EmitEmit(ls: seq<Line>, labels: seq<Label>, a: seq<Line>, b: seq<Line>)
    requires |a| > 0
    ensures Emit(Joined(ls, labels, a), [], b) == Emit(ls, labels, a + b)
  {
    if b == [] {
      assert a + b == a;
    } else {
      JoinNoLabels(Joined(ls, labels, a), b);
      JoinMore(ls, labels, a, b);
    }
  }

  lemma SomeLines(params: nat, s: M.Stmt, base: Reg)
    ensures |StmtLines(params, s, base)| > 0
  {}

  lemma {:induction false} StmtsHead(params: nat, ss: seq<M.Stmt>, i: nat, base: Reg)
    requires i < |ss|
    ensures |StmtLines(params, ss[i], base)| > 0
    ensures StmtsLines(params, ss[i..], base) ==
            StmtLines(params, ss[i], base) + StmtsLines(params, ss[i + 1..], base + RegsOf(ss[i]))
    ensures StmtsRegs(ss[i..]) == RegsOf(ss[i]) + StmtsRegs(ss[i + 1..])
  {
    hide StmtLines, RegsOf;
    SomeLines(params, ss[i], base);
    assert ss[i..][1..] == ss[i + 1..];
  }

  class FnGen {
    const fn: M.Fn
    var regIds: nat
    var labelIds: nat
    var blockLabels: map<nat, Label>
    var currentLabels: seq<Label>
    var localRegs: map<nat, Reg>
    var lines: seq<Line>

    constructor (fn: M.Fn)
      ensures this.fn == fn && regIds == 0 && labelIds == 0 && blockLabels == map[]
      ensures currentLabels == [] && localRegs == map[] && lines == []
    {
      this.fn := fn;
      regIds, labelIds, blockLabels := 0, 0, map[];
      currentLabels, localRegs, lines := [], map[], [];
    }

    /** Every local has its slot, every block its label. */
    ghost predicate Ready()
      reads this
    {
      && (forall l: nat :: l < fn.locals ==> l in localRegs && localRegs[l] == SlotOf(fn.params, l))
      && (forall t :: t in Ids(fn.blocks) ==> t in blockLabels && blockLabels[t] == M.Find(fn.blocks, t))
    }

    method NewReg() returns (r: Reg)
      modifies this`regIds
      ensures r == old(regIds) && regIds == r + 1
    {
      r := regIds;
      regIds := regIds + 1;
    }

    method PushIns(ins: Ins)
      modifies this`lines, this`currentLabels
      ensures lines == Joined(old(lines), old(currentLabels), [L(ins)]) && currentLabels == []
    {
      JoinOne(lines, currentLabels, ins);
      lines := lines + [Line(currentLabels, ins)];
      currentLabels := [];
    }

    /** Three lines about one register. */
    method PushThree(a: Ins, b: Ins, c: Ins)
      modifies this`lines, this`currentLabels
      ensures lines == Joined(old(lines), old(currentLabels), [L(a), L(b), L(c)]) && currentLabels == []
    {
      PushIns(a);
      ghost var linesA := lines;
      PushIns(b);
      JoinNoLabels(linesA, [L(b)]);
      ghost var linesB := lines;
      PushIns(c);
      JoinNoLabels(linesB, [L(c)]);
      assert [L(a)] + [L(b)] + [L(c)] == [L(a), L(b), L(c)];
      JoinMore(old(lines), old(currentLabels), [L(a)], [L(b)]);
      JoinMore(old(lines), old(currentLabels), [L(a)] + [L(b)], [L(c)]);
    }

    method PushTwo(a: Ins, b: Ins)
      modifies this`lines, this`currentLabels
      ensures lines == Joined(old(lines), old(currentLabels), [L(a), L(b)]) && currentLabels == []
    {
      PushIns(a);
      ghost var linesA := lines;
      PushIns(b);
      JoinNoLabels(linesA, [L(b)]);
      JoinMore(old(lines), old(currentLabels), [L(a)], [L(b)]);
      assert [L(a)] + [L(b)] == [L(a), L(b)];
    }

    /** The call, its result taken, the arguments dropped, the result pushed. */
    method LowerCall(n: nat)
      modifies this`regIds, this`lines, this`currentLabels
      ensures lines == Joined(old(lines), old(currentLabels), StmtLines(fn.params, M.CallFn(n), old(regIds)))
      ensures regIds == old(regIds) + n + 2 && currentLabels == []
    {
      ghost var base := regIds;
      var reg := NewReg();
      PushThree(Pop(reg), CallReg(reg, n), Kill(reg));
      ghost var head := [L(Pop(base)), L(CallReg(base, n)), L(Kill(base))];
      var rval := NewReg();
      ghost var linesR := lines;
      PushIns(Pop(rval));
      JoinNoLabels(linesR, [L(Pop(rval))]);
      ghost var before := lines;
      var i := 0;
      while i < n
        invariant 0 <= i <= n && regIds == base + 2 + i && currentLabels == []
        invariant lines + PopArgs(n - i, base + 2 + i) == before + PopArgs(n, base + 2)
      {
        ghost var linesI := lines;
        var arg := NewReg();
        PushTwo(Pop(arg), Kill(arg));
        JoinNoLabels(linesI, [L(Pop(arg)), L(Kill(arg))]);
        assert lines + PopArgs(n - i - 1, base + 2 + i + 1) == linesI + PopArgs(n - i, base + 2 + i);
        i := i + 1;
      }
      assert lines == before + PopArgs(n, base + 2);
      ghost var linesE := lines;
      PushTwo(Push(rval), Kill(rval));
      JoinNoLabels(linesE, [L(Push(rval)), L(Kill(rval))]);
      CallJoined(old(lines), old(currentLabels), n, base, lines);
    }

    /** Straight code for one statement, in registers of its own. */
    method LowerStmt(s: M.Stmt)
      requires Ready() && LocalsBelow([s], fn.locals)
      modifies this`regIds, this`lines, this`currentLabels
      ensures lines == Joined(old(lines), old(currentLabels), StmtLines(fn.params, s, old(regIds)))
      ensures regIds == old(regIds) + RegsOf(s) && currentLabels == [] && Ready()
    {
      assert [s][0] == s;
      match s
      case Push(v) =>
        var reg := NewReg();
        match v {
          case IntVal(n) => PushThree(MovInt(reg, n), Push(reg), Kill(reg));
          case StrVal(t) => PushThree(MovString(reg, t), Push(reg), Kill(reg));
          case FnVal(f) => PushThree(MovFn(reg, f), Push(reg), Kill(reg));
        }
      case Pop =>
        var reg := NewReg();
        PushTwo(Pop(reg), Kill(reg));
      case Load(l) =>
        var reg := NewReg();
        PushThree(Load(reg, localRegs[l]), Push(reg), Kill(reg));
      case Store(l) =>
        var reg := NewReg();
        PushThree(Pop(reg), StoreReg(localRegs[l], reg), Kill(reg));
      case CallFn(n) => LowerCall(n);
      case Binary(op) =>
        var src := NewReg();
        var dst := NewReg();
        PushThree(Pop(src), Pop(dst), Binary(op, dst, src));
        ghost var linesB := lines;
        PushThree(Push(dst), Kill(src), Kill(dst));
        BinaryJoined(old(lines), old(currentLabels), op, old(regIds), linesB);
    }

    method LowerTer(ter: M.Ter)
      requires Ready() && ter != M.Unset && Targets(ter) <= Ids(fn.blocks)
      modifies this`regIds, this`lines, this`currentLabels
      ensures lines == Joined(old(lines), old(currentLabels), TerLines(fn.blocks, ter, old(regIds)))
      ensures regIds == old(regIds) + (if ter.If? then 1 else 0) && currentLabels == [] && Ready()
    {
      match ter
      case Return => PushIns(Ret);
      case Goto(t) =>
        assert t in Targets(ter);
        PushIns(Jmp(blockLabels[t]));
      case If(t, f) =>
        assert t in Targets(ter) && f in Targets(ter);
        var reg := NewReg();
        PushThree(Pop(reg), JnzReg(reg, blockLabels[t]), Kill(reg));
        ghost var linesJ := lines;
        PushIns(Jmp(blockLabels[f]));
        JoinNoLabels(linesJ, [L(Jmp(blockLabels[f]))]);
        var head := [L(Pop(reg)), L(JnzReg(reg, blockLabels[t])), L(Kill(reg))];
        JoinMore(old(lines), old(currentLabels), head, [L(Jmp(blockLabels[f]))]);
        assert head + [L(Jmp(blockLabels[f]))] == TerLines(fn.blocks, ter, old(regIds));
    }

    method AllocateSlots()
      requires regIds == 0 && localRegs == map[] && lines == [] && currentLabels == []
      requires fn.params < fn.locals
      modifies this`regIds, this`lines, this`currentLabels, this`localRegs
      ensures lines == AllocLines(0, fn.params, fn.locals) && regIds == fn.locals && currentLabels == []
      ensures forall l: nat :: l < fn.locals ==> l in localRegs && localRegs[l] == SlotOf(fn.params, l)
    {
      var k := 0;
      while k < fn.params
        invariant 0 <= k <= fn.params && regIds == k && currentLabels == []
        invariant lines + AllocLines(k, fn.params, fn.locals) == AllocLines(0, fn.params, fn.locals)
        invariant forall l: nat :: l in localRegs <==> 1 <= l <= k
        invariant forall l :: l in localRegs ==> localRegs[l] == l - 1
      {
        AllocateSlot(k + 1, AllocParam(regIds, 8));
        k := k + 1;
      }
      AllocateSlot(0, AllocLocal(regIds, 8));
      var l := 0;
      while l < fn.locals
        invariant 0 <= l <= fn.locals && currentLabels == []
        invariant regIds == if l <= fn.params then fn.params + 1 else l
        invariant lines + AllocLines(regIds, fn.params, fn.locals) == AllocLines(0, fn.params, fn.locals)
        invariant forall m: nat :: m in localRegs <==> m < regIds
        invariant forall m :: m in localRegs ==> localRegs[m] == SlotOf(fn.params, m)
      {
        if l !in localRegs {
          AllocateSlot(l, AllocLocal(regIds, 8));
        }
        l := l + 1;
      }
    }

    method AllocateSlot(local: nat, ins: Ins)
      requires currentLabels == [] && regIds < fn.locals
      requires ins == if regIds < fn.params then AllocParam(regIds, 8) else AllocLocal(regIds, 8)
      modifies this`regIds, this`lines, this`currentLabels, this`localRegs
      ensures lines + AllocLines(regIds, fn.params, fn.locals) == old(lines + AllocLines(regIds, fn.params, fn.locals))
      ensures regIds == old(regIds) + 1 && localRegs == old(localRegs)[local := old(regIds)] && currentLabels == []
    {
      ghost var before := lines;
      var reg := NewReg();
      PushIns(ins);
      JoinNoLabels(before, [L(ins)]);
      localRegs := localRegs[local := reg];
      AllocHead(reg, ins);
      assert before + [L(ins)] + AllocLines(reg + 1, fn.params, fn.locals) ==
             before + ([L(ins)] + AllocLines(reg + 1, fn.params, fn.locals));
    }

    lemma AllocHead(reg: Reg, ins: Ins)
      requires reg < fn.locals && ins == if reg < fn.params then AllocParam(reg, 8) else AllocLocal(reg, 8)
      ensures AllocLines(reg, fn.params, fn.locals) == [L(ins)] + AllocLines(reg + 1, fn.params, fn.locals)
    {}

    method NameBlocks()
      requires labelIds == 0 && blockLabels == map[] && DistinctIds(fn.blocks)
      modifies this`labelIds, this`blockLabels
      ensures forall t :: t in Ids(fn.blocks) ==> t in blockLabels && blockLabels[t] == M.Find(fn.blocks, t)
    {
      for i := 0 to |fn.blocks|
        invariant labelIds == i
        invariant forall j :: 0 <= j < i ==> fn.blocks[j].id in blockLabels && blockLabels[fn.blocks[j].id] == j
      {
        blockLabels := blockLabels[fn.blocks[i].id := labelIds];
        labelIds := labelIds + 1;
      }
      forall t | t in Ids(fn.blocks) ensures t in blockLabels && blockLabels[t] == M.Find(fn.blocks, t) {
        var i :| 0 <= i < |fn.blocks| && fn.blocks[i].id == t;
        assert M.Find(fn.blocks, t) <= i;
      }
    }

    /** The statements of a block, one after the other; pending labels wait for the terminator if
      * there are none. */
    method LowerStmts(ss: seq<M.Stmt>)
      requires Ready() && LocalsBelow(ss, fn.locals)
      modifies this`regIds, this`lines, this`currentLabels
      ensures (lines, currentLabels) == Emit(old(lines), old(currentLabels), StmtsLines(fn.params, ss, old(regIds)))
      ensures regIds == old(regIds) + StmtsRegs(ss) && Ready()
    {
      hide StmtsLines, StmtLines, Joined;
      ghost var all := Emit(lines, currentLabels, StmtsLines(fn.params, ss, regIds));
      ghost var total := regIds + StmtsRegs(ss);
      var i := 0;
      assert ss[0..] == ss;
      while i < |ss|
        invariant 0 <= i <= |ss| && Ready() && regIds + StmtsRegs(ss[i..]) == total
        invariant Emit(lines, currentLabels, StmtsLines(fn.params, ss[i..], regIds)) == all
      {
        StmtsHead(fn.params, ss, i, regIds);
        EmitEmit(lines, currentLabels, StmtLines(fn.params, ss[i], regIds),
                 StmtsLines(fn.params, ss[i + 1..], regIds + RegsOf(ss[i])));
        LowerStmt(ss[i]);
        i := i + 1;
      }
      assert ss[|ss|..] == [];
      NoStmts(regIds);
    }

    lemma NoStmts(base: Reg)
      ensures StmtsLines(fn.params, [], base) == [] && StmtsRegs([]) == 0
    {}

    method LabelBlock(k: nat)
      requires Ready() && DistinctIds(fn.blocks) && k < |fn.blocks| && currentLabels == []
      modifies this`currentLabels
      ensures currentLabels == [k]
    {
      var b := fn.blocks[k];
      assert b.id in Ids(fn.blocks);
      assert M.Find(fn.blocks, b.id) <= k;
      currentLabels := currentLabels + [blockLabels[b.id]];
    }

    method LowerBlock(k: nat)
      requires Ready() && WellFormed(fn) && k < |fn.blocks| && currentLabels == []
      modifies this`regIds, this`lines, this`currentLabels
      ensures lines == old(lines) + BlockLines(fn.params, fn.blocks, k, old(regIds))
      ensures regIds == old(regIds) + BlockRegs(fn.blocks[k]) && currentLabels == [] && Ready()
    {
      hide StmtsLines, StmtLines, TerLines, Emit, Joined, Labelled;
      var b := fn.blocks[k];
      LabelBlock(k);
      LowerStmts(b.stmts);
      ghost var ss, ts := StmtsLines(fn.params, b.stmts, old(regIds)), TerLines(fn.blocks, b.ter, regIds);
      assert Targets(b.ter) <= Ids(fn.blocks);
      LowerTer(b.ter);
      BlockJoined(old(lines), k, ss, ts);
    }

    lemma BlockJoined(ls: seq<Line>, k: Label, ss: seq<Line>, ts: seq<Line>)
      requires |ts| > 0
      ensures var e := Emit(ls, [k], ss); Joined(e.0, e.1, ts) == ls + Labelled([k], ss + ts)
    {
      if ss == [] {
        assert ss + ts == ts;
      } else {
        JoinNoLabels(Joined(ls, [k], ss), ts);
        JoinMore(ls, [k], ss, ts);
      }
    }

    method LowerBlocks()
      requires Ready() && WellFormed(fn) && currentLabels == []
      modifies this`regIds, this`lines, this`currentLabels
      ensures lines == old(lines) + BodyLines(fn.params, fn.blocks, 0, old(regIds)) && currentLabels == []
    {
      hide BlockLines, WellFormed, StmtsLines, BlockRegs;
      ghost var all := lines + BodyLines(fn.params, fn.blocks, 0, regIds);
      var k := 0;
      while k < |fn.blocks|
        invariant 0 <= k <= |fn.blocks| && Ready() && currentLabels == []
        invariant lines + BodyLines(fn.params, fn.blocks, k, regIds) == all
      {
        BodyHead(lines, k, regIds);
        LowerBlock(k);
        k := k + 1;
      }
    }

    /** The whole function: slots, then the blocks in order.  The last block ends in its
      * terminator's lines, so no label is left pending and no `nop` follows. */
    method Generate()
      requires WellFormed(fn)
      requires regIds == 0 && labelIds == 0 && blockLabels == map[] && currentLabels == [] && localRegs == map[]
      requires lines == []
      modifies this
      ensures lines == FnLines(fn) && currentLabels == []
    {
      NameBlocks();
      AllocateSlots();
      LowerBlocks();
    }

    lemma BodyHead(ls: seq<Line>, k: nat, base: Reg)
      requires k < |fn.blocks|
      ensures ls + BodyLines(fn.params, fn.blocks, k, base) ==
              (ls + BlockLines(fn.params, fn.blocks, k, base)) +
                BodyLines(fn.params, fn.blocks, k + 1, base + BlockRegs(fn.blocks[k]))
    {
      hide BlockLines, BlockRegs;
    }
  }

  lemma CallJoined(ls: seq<Line>, labels: seq<Label>, n: nat, base: Reg, all: seq<Line>)
    requires all == Joined(ls, labels, [L(Pop(base)), L(CallReg(base, n)), L(Kill(base))]) + [L(Pop(base + 1))]
                    + PopArgs(n, base + 2) + [L(Push(base + 1)), L(Kill(base + 1))]
    ensures all == Joined(ls, labels, StmtLines(0, M.CallFn(n), base))
  {
    var a := [L(Pop(base)), L(CallReg(base, n)), L(Kill(base))];
    var b := [L(Pop(base + 1))] + PopArgs(n, base + 2) + [L(Push(base + 1)), L(Kill(base + 1))];
    JoinMore(ls, labels, a, b);
    assert a + b == StmtLines(0, M.CallFn(n), base);
  }

  lemma BinaryJoined(ls: seq<Line>, labels: seq<Label>, op: BinOp, base: Reg, mid: seq<Line>)
    requires mid == Joined(ls, labels, [L(Pop(base)), L(Pop(base + 1)), L(Binary(op, base + 1, base))])
    ensures var end := [L(Push(base + 1)), L(Kill(base)), L(Kill(base + 1))];
      Joined(mid, [], end) == Joined(ls, labels, StmtLines(0, M.Binary(op), base))
  {
    var a := [L(Pop(base)), L(Pop(base + 1)), L(Binary(op, base + 1, base))];
    var b := [L(Push(base + 1)), L(Kill(base)), L(Kill(base + 1))];
    JoinNoLabels(mid, b);
    JoinMore(ls, labels, a, b);
    assert a + b == StmtLines(0, M.Binary(op), base);
  }
}
