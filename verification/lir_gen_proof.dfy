/** The lines of a function do, jump for jump, what its blocks do. */
module LirGenProof {
  import opened Values
  import M = Mir
  import opened MirShape
  import opened Lir
  import opened LirGen

  lemma {:induction false} StmtsRun(fn: M.Fn, ss: seq<M.Stmt>, base: Reg, m: M.State, st: State, call: Callee)
    requires Rel(fn, m, st) && LocalsBelow(ss, fn.locals)
    ensures Matches(fn, M.ExecStmts(ss, m, call), Straight(StmtsLines(fn.params, ss, base), st, call))
    decreases |ss|
  {
    if ss != [] {
      var first := StmtLines(fn.params, ss[0], base);
      StmtRun(fn, ss[0], base, m, st, call);
      StraightConcat(first, StmtsLines(fn.params, ss[1..], base + RegsOf(ss[0])), st, call);
      var m1 := M.ExecStmt(ss[0], m, call);
      if m1.Ok? {
        StmtsRun(fn, ss[1..], base + RegsOf(ss[0]), m1.st, Straight(first, st, call).st, call);
      }
    }
  }

  /** Where the lines of a block lead, against where the block leads. */
  ghost predicate Leads(fn: M.Fn, next: M.Next, flow: Flow) {
    if next.To? then flow.Jump? && flow.target == M.Find(fn.blocks, next.target) && Rel(fn, next.st, flow.st)
    else if flow.Exit? then next.reply == Result(fn.params, flow.st)
    else flow == Stop(next.reply)
  }

  lemma SameAfter(params: nat, m: M.State, st: State)
    requires Get(m.locals, 0) == Get(st.frame, params) && m.w == st.w
    requires forall i :: 0 <= i < params ==> Get(m.locals, i + 1) == Get(st.frame, i)
    ensures M.Result(params, m) == Result(params, st)
  {
    assert M.Result(params, m).after == Result(params, st).after;
  }

  lemma {:induction false} ResultsAgree(fn: M.Fn, m: M.State, st: State)
    requires Rel(fn, m, st) && fn.params < fn.locals
    ensures M.Result(fn.params, m) == Result(fn.params, st)
  {
    forall i | 0 <= i < fn.params ensures Get(m.locals, i + 1) == Get(st.frame, i) {
      assert SlotOf(fn.params, i + 1) == i;
    }
    assert SlotOf(fn.params, 0) == fn.params;
    SameAfter(fn.params, m, st);
  }

  lemma {:induction false} PopAndTest(base: Reg, yes: Label, st: State, call: Callee)
    ensures var k := |st.stack|;
      var flow := Straight([L(Pop(base)), L(JnzReg(base, yes))], st, call);
      if k < 1 then flow == Stop(Stuck) else
      var b := Test(st.stack[k - 1]);
      if b.None? then flow == Stop(Trapped) else
      var st1 := Set(st, base, st.stack[k - 1]).(stack := st.stack[..k - 1]);
      flow == if b.value then Jump(yes, st1) else Fall(st1)
  {
    Two(Pop(base), JnzReg(base, yes), st, call);
  }

  lemma {:induction false} KillAndJump(base: Reg, no: Label, st: State, call: Callee)
    ensures Straight([L(Kill(base)), L(Jmp(no))], st, call) == Jump(no, st.(regs := st.regs - {base}))
  {
    Two(Kill(base), Jmp(no), st, call);
  }

  lemma {:induction false} IfRun(fn: M.Fn, t: nat, f: nat, base: Reg, m: M.State, st: State, call: Callee)
    requires Rel(fn, m, st)
    ensures Leads(fn, M.Transfer(fn.params, M.If(t, f), m), Straight(TerLines(fn.blocks, M.If(t, f), base), st, call))
  {
    var yes, no := M.Find(fn.blocks, t), M.Find(fn.blocks, f);
    var first, rest := [L(Pop(base)), L(JnzReg(base, yes))], [L(Kill(base)), L(Jmp(no))];
    assert TerLines(fn.blocks, M.If(t, f), base) == first + rest;
    StraightConcat(first, rest, st, call);
    PopAndTest(base, yes, st, call);
    var flow := Straight(first, st, call);
    if flow.Fall? {
      KillAndJump(base, no, flow.st, call);
    }
  }

  lemma {:induction false} TerRun(fn: M.Fn, ter: M.Ter, base: Reg, m: M.State, st: State, call: Callee)
    requires Rel(fn, m, st) && fn.params < fn.locals
    ensures Leads(fn, M.Transfer(fn.params, ter, m), Straight(TerLines(fn.blocks, ter, base), st, call))
  {
    hide M.Result, Lir.Result, SlotOf;
    match ter
    case Unset =>
    case Return => ResultsAgree(fn, m, st);
    case Goto(_) =>
    case If(t, f) => IfRun(fn, t, f, base, m, st, call);
  }

  lemma {:induction false} LabelsDoNotMatter(labels: seq<Label>, ls: seq<Line>, st: State, call: Callee)
    requires |ls| > 0
    ensures Straight(Labelled(labels, ls), st, call) == Straight(ls, st, call)
  {
    assert Labelled(labels, ls)[1..] == ls[1..];
  }

  lemma {:induction false} BlockStraight(params: nat, bs: seq<M.Block>, k: nat, base: Reg, rest: seq<Line>, st: State,
                                         call: Callee,
                                         first: Flow, flow: Flow)
    requires k < |bs| && first == Straight(StmtsLines(params, bs[k].stmts, base), st, call) && !flow.Fall?
    requires first.Fall? ==> flow == Straight(TerLines(bs, bs[k].ter, base + StmtsRegs(bs[k].stmts)), first.st, call)
    requires !first.Fall? ==> flow == first
    ensures Straight(BlockLines(params, bs, k, base) + rest, st, call) == flow
  {
    hide Straight, StmtsLines, TerLines, StmtsRegs;
    var ss := StmtsLines(params, bs[k].stmts, base);
    var ts := TerLines(bs, bs[k].ter, base + StmtsRegs(bs[k].stmts));
    StraightConcat(BlockLines(params, bs, k, base), rest, st, call);
    LabelsDoNotMatter([k], ss + ts, st, call);
    StraightConcat(ss, ts, st, call);
  }

  lemma {:induction false} StmtsAndTer(fn: M.Fn, b: M.Block, base: Reg, m: M.State, st: State, call: Callee)
    returns (first: Flow, flow: Flow)
    requires Rel(fn, m, st) && fn.params < fn.locals && LocalsBelow(b.stmts, fn.locals)
    ensures first == Straight(StmtsLines(fn.params, b.stmts, base), st, call)
    ensures first.Fall? ==> flow == Straight(TerLines(fn.blocks, b.ter, base + StmtsRegs(b.stmts)), first.st, call)
    ensures !first.Fall? ==> flow == first
    ensures !flow.Fall? && Leads(fn, M.RunBlock(fn.params, b, 0, m, call), flow)
  {
    StmtsRun(fn, b.stmts, base, m, st, call);
    assert b.stmts[0..] == b.stmts;
    var m1 := M.ExecStmts(b.stmts, m, call);
    first := Straight(StmtsLines(fn.params, b.stmts, base), st, call);
    flow := first;
    assert Matches(fn, m1, first);
    if m1.Ok? {
      flow := Straight(TerLines(fn.blocks, b.ter, base + StmtsRegs(b.stmts)), first.st, call);
      TerRun(fn, b.ter, base + StmtsRegs(b.stmts), m1.st, first.st, call);
    }
  }

  /** Code after a block never runs on from it: every block ends in a jump or an exit. */
  lemma {:induction false} BlockRun(fn: M.Fn, k: nat, base: Reg, rest: seq<Line>, m: M.State, st: State, call: Callee)
    returns (flow: Flow)
    requires Rel(fn, m, st) && fn.params < fn.locals && k < |fn.blocks| && LocalsBelow(fn.blocks[k].stmts, fn.locals)
    ensures flow == Straight(BlockLines(fn.params, fn.blocks, k, base) + rest, st, call)
    ensures Leads(fn, M.RunBlock(fn.params, fn.blocks[k], 0, m, call), flow)
  {
    hide Straight, StmtsLines, TerLines, BlockLines, StmtsRegs, Rel, Leads, LocalsBelow, M.RunBlock;
    var first;
    first, flow := StmtsAndTer(fn, fn.blocks[k], base, m, st, call);
    BlockStraight(fn.params, fn.blocks, k, base, rest, st, call, first, flow);
  }

  // ---------- Finding a label ----------

  predicate Unlabelled(ls: seq<Line>) {
    forall i :: 0 <= i < |ls| ==> ls[i].labels == []
  }

  lemma {:induction false} FromUnlabelled(a: seq<Line>, b: seq<Line>, l: Label)
    requires Unlabelled(a)
    ensures From(a + b, l) == From(b, l)
    decreases |a|
  {
    if a == [] {
      assert a + b == b;
    } else {
      assert (a + b)[1..] == a[1..] + b;
      FromUnlabelled(a[1..], b, l);
    }
  }

  lemma {:induction false} PopArgsUnlabelled(n: nat, base: Reg)
    ensures Unlabelled(PopArgs(n, base))
    decreases n
  {
    if n > 0 {
      PopArgsUnlabelled(n - 1, base + 1);
    }
  }

  lemma {:induction false} StmtsUnlabelled(params: nat, ss: seq<M.Stmt>, base: Reg)
    ensures Unlabelled(StmtsLines(params, ss, base))
    decreases |ss|
  {
    if ss != [] {
      StmtsUnlabelled(params, ss[1..], base + RegsOf(ss[0]));
      if ss[0].CallFn? {
        PopArgsUnlabelled(ss[0].args, base + 2);
      }
    }
  }

  lemma {:induction false} AllocUnlabelled(from: nat, params: nat, locals: nat)
    ensures Unlabelled(AllocLines(from, params, locals))
    decreases locals - from
  {
    if from < locals {
      AllocUnlabelled(from + 1, params, locals);
    }
  }

  /** A block's label is on its first line only. */
  lemma {:induction false} BlockLabels(params: nat, bs: seq<M.Block>, k: nat, base: Reg)
    requires k < |bs|
    ensures var ls := BlockLines(params, bs, k, base); ls[0].labels == [k] && Unlabelled(ls[1..])
  {
    var ss := StmtsLines(params, bs[k].stmts, base);
    var ts := TerLines(bs, bs[k].ter, base + StmtsRegs(bs[k].stmts));
    StmtsUnlabelled(params, bs[k].stmts, base);
    assert Unlabelled(ss + ts);
    assert BlockLines(params, bs, k, base)[1..] == (ss + ts)[1..];
  }

  /** The register a block starts with. */
  function BaseOf(bs: seq<M.Block>, k: nat, j: nat, base: Reg): Reg
    requires k <= j <= |bs|
    decreases j - k
  {
    if k == j then base else BaseOf(bs, k + 1, j, base + BlockRegs(bs[k]))
  }

  lemma {:induction false} FromNext(a: seq<Line>, b: seq<Line>, k: Label, l: Label)
    requires |a| > 0 && a[0].labels == [k] && Unlabelled(a[1..])
    ensures From(a + b, l) == if k == l then a + b else From(b, l)
  {
    assert (a + b)[1..] == a[1..] + b;
    FromUnlabelled(a[1..], b, l);
  }

  lemma {:induction false} FromBody(params: nat, bs: seq<M.Block>, k: nat, j: nat, base: Reg) returns (rest: seq<Line>)
    requires k <= j < |bs|
    ensures From(BodyLines(params, bs, k, base), j) == BlockLines(params, bs, j, BaseOf(bs, k, j, base)) + rest
    decreases j - k
  {
    var more := BodyLines(params, bs, k + 1, base + BlockRegs(bs[k]));
    BlockLabels(params, bs, k, base);
    FromNext(BlockLines(params, bs, k, base), more, k, j);
    rest := more;
    if k < j {
      rest := FromBody(params, bs, k + 1, j, base + BlockRegs(bs[k]));
    }
  }

  /** A label leads to the lines of its block. */
  lemma {:induction false} FromLabel(fn: M.Fn, k: nat) returns (rest: seq<Line>)
    requires k < |fn.blocks|
    ensures From(FnLines(fn), k) == BlockLines(fn.params, fn.blocks, k, BaseOf(fn.blocks, 0, k, fn.locals)) + rest
  {
    AllocUnlabelled(0, fn.params, fn.locals);
    FromUnlabelled(AllocLines(0, fn.params, fn.locals), BodyLines(fn.params, fn.blocks, 0, fn.locals), k);
    rest := FromBody(fn.params, fn.blocks, 0, k, fn.locals);
  }

  // ---------- Whole runs ----------

  /** From a label, the lines lead where its block leads. */
  lemma {:induction false} LabelRun(fn: M.Fn, k: nat, m: M.State, st: State, call: Callee)
    returns (next: M.Next, flow: Flow)
    requires WellFormed(fn) && k < |fn.blocks| && Rel(fn, m, st)
    ensures next == M.RunBlock(fn.params, fn.blocks[k], 0, m, call) && flow == Straight(From(FnLines(fn), k), st, call)
    ensures Leads(fn, next, flow) && (next.To? ==> M.Find(fn.blocks, next.target) < |fn.blocks|)
  {
    var rest := FromLabel(fn, k);
    flow := BlockRun(fn, k, BaseOf(fn.blocks, 0, k, fn.locals), rest, m, st, call);
    next := M.RunBlock(fn.params, fn.blocks[k], 0, m, call);
    if next.To? {
      assert next.target in Targets(fn.blocks[k].ter);
      assert next.target in Ids(fn.blocks);
    }
  }

  lemma {:induction false} RunsAgree(fn: M.Fn, k: nat, m: M.State, st: State, call: Callee, fuel: nat)
    requires WellFormed(fn) && k < |fn.blocks| && Rel(fn, m, st)
    ensures M.Run(fn.params, fn.blocks, fn.blocks[k].id, m, call, fuel) ==
      Run(fn.params, FnLines(fn), k, st, call, fuel)
    decreases fuel
  {
    hide Straight, From, FnLines, Rel, M.RunBlock;
    assert M.Find(fn.blocks, fn.blocks[k].id) == k by {
      assert M.Find(fn.blocks, fn.blocks[k].id) <= k;
    }
    var next, flow := LabelRun(fn, k, m, st, call);
    if next.To? && fuel > 0 {
      RunsAgree(fn, M.Find(fn.blocks, next.target), next.st, flow.st, call, fuel - 1);
    }
  }

  lemma {:induction false} InitialRel(fn: M.Fn, args: seq<Value>, w: World)
    requires |args| == fn.params < fn.locals
    ensures Rel(fn, M.InitialState(args, w), InitialState(args, w))
  {}

  /** Generating lines keeps every run: with the same fuel, the same outcome. */
  lemma {:induction false} GenFnCorrect(fn: M.Fn, args: seq<Value>, w: World, call: Callee, fuel: nat)
    requires WellFormed(fn) && fn.entry == 0 && |args| == fn.params
    ensures RunFn(GenFn(fn), args, w, call, fuel) == M.RunFn(fn, args, w, call, fuel)
  {
    InitialRel(fn, args, w);
    RunsAgree(fn, 0, M.InitialState(args, w), InitialState(args, w), call, fuel);
  }
}
