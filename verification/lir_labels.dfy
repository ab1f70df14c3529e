/** Labels and jumps: every label stands on one line, in block order, and every jump aims at one.
  * Optimising a program leaves the labels and jump targets of each function as they were. */
module LirLabels {
  import opened Values
  import M = Mir
  import opened MirShape
  import opened Lir
  import opened LirGen
  import opened LirLive
  import opened LirRewrite
  import opened LirOptimize

  /** All labels, line after line. */
  function Labels(ls: seq<Line>): seq<Label> {
    if ls == [] then [] else ls[0].labels + Labels(ls[1..])
  }

  /** Where a line may jump. */
  function AimOf(ins: Ins): seq<Label> {
    match ins
    case Jmp(t) => [t]
    case JnzReg(_, t) => [t]
    case _ => []
  }

  /** All jump targets, line after line. */
  function Aims(ls: seq<Line>): seq<Label> {
    if ls == [] then [] else AimOf(ls[0].ins) + Aims(ls[1..])
  }

  /** `from, from + 1, ..` up to but not `to`. */
  function Range(from: nat, to: nat): (r: seq<nat>)
    requires from <= to
    ensures |r| == to - from && forall i :: 0 <= i < |r| ==> r[i] == from + i
  {
    seq(to - from, i requires 0 <= i < to - from => from + i)
  }

  lemma {:induction false} LabelsConcat(a: seq<Line>, b: seq<Line>)
    ensures Labels(a + b) == Labels(a) + Labels(b) && Aims(a + b) == Aims(a) + Aims(b)
    decreases |a|
  {
    if a == [] {
      assert a + b == b;
    } else {
      assert (a + b)[1..] == a[1..] + b;
      LabelsConcat(a[1..], b);
    }
  }

  /** Lines without labels or jumps. */
  predicate Bare(ls: seq<Line>) {
    forall i :: 0 <= i < |ls| ==> ls[i].labels == [] && AimOf(ls[i].ins) == []
  }

  lemma {:induction false} BareLabels(ls: seq<Line>)
    requires Bare(ls)
    ensures Labels(ls) == [] && Aims(ls) == []
    decreases |ls|
  {
    if ls != [] {
      BareLabels(ls[1..]);
    }
  }

  // ---------- Generated lines ----------

  lemma {:induction false} PopArgsBare(n: nat, base: Reg)
    ensures Bare(PopArgs(n, base))
    decreases n
  {
    if n > 0 {
      PopArgsBare(n - 1, base + 1);
    }
  }

  lemma {:induction false} StmtsBare(params: nat, ss: seq<M.Stmt>, base: Reg)
    ensures Bare(StmtsLines(params, ss, base))
    decreases |ss|
  {
    if ss != [] {
      StmtsBare(params, ss[1..], base + RegsOf(ss[0]));
      if ss[0].CallFn? {
        PopArgsBare(ss[0].args, base + 2);
      }
    }
  }

  predicate AimsBelow(ls: seq<Line>, n: nat) {
    forall t :: t in Aims(ls) ==> t < n
  }

  lemma {:induction false} IfAims(bs: seq<M.Block>, t: nat, f: nat, base: Reg)
    ensures Labels(TerLines(bs, M.If(t, f), base)) == []
    ensures Aims(TerLines(bs, M.If(t, f), base)) == [M.Find(bs, t), M.Find(bs, f)]
  {
    hide Labels, Aims;
    var a, b := [L(Pop(base)), L(JnzReg(base, M.Find(bs, t)))], [L(Kill(base)), L(Jmp(M.Find(bs, f)))];
    assert TerLines(bs, M.If(t, f), base) == a + b;
    LabelsConcat(a, b);
    TwoLines(Pop(base), JnzReg(base, M.Find(bs, t)));
    TwoLines(Kill(base), Jmp(M.Find(bs, f)));
  }

  lemma {:induction false} TerAims(bs: seq<M.Block>, ter: M.Ter, base: Reg)
    requires Targets(ter) <= Ids(bs)
    ensures Labels(TerLines(bs, ter, base)) == [] && AimsBelow(TerLines(bs, ter, base), |bs|)
  {
    hide Labels, Aims;
    match ter
    case Goto(t) =>
      assert t in Targets(ter);
      OneLine(Jmp(M.Find(bs, t)));
    case If(t, f) =>
      assert t in Targets(ter) && f in Targets(ter);
      IfAims(bs, t, f, base);
    case Return => OneLine(Ret);
    case Unset => OneLine(Error);
  }

  lemma Single(line: Line)
    ensures Labels([line]) == line.labels && Aims([line]) == AimOf(line.ins)
  {
    assert [line][1..] == [];
  }

  lemma OneLine(ins: Ins)
    ensures Labels([L(ins)]) == [] && Aims([L(ins)]) == AimOf(ins)
  {
    assert [L(ins)][1..] == [];
  }

  lemma TwoLines(a: Ins, b: Ins)
    ensures Labels([L(a), L(b)]) == [] && Aims([L(a), L(b)]) == AimOf(a) + AimOf(b)
  {
    assert [L(a), L(b)][1..] == [L(b)];
    OneLine(b);
  }

  lemma {:induction false} BlockLabels(params: nat, bs: seq<M.Block>, k: nat, base: Reg)
    requires k < |bs| && Targets(bs[k].ter) <= Ids(bs)
    ensures Labels(BlockLines(params, bs, k, base)) == [k] && AimsBelow(BlockLines(params, bs, k, base), |bs|)
  {
    var ss, ts := StmtsLines(params, bs[k].stmts, base), TerLines(bs, bs[k].ter, base + StmtsRegs(bs[k].stmts));
    StmtsBare(params, bs[k].stmts, base);
    BareLabels(ss);
    TerAims(bs, bs[k].ter, base + StmtsRegs(bs[k].stmts));
    LabelsConcat(ss, ts);
    LabelFirst([k], ss + ts);
  }

  lemma LabelFirst(labels: seq<Label>, ls: seq<Line>)
    requires |ls| > 0
    ensures Labels(Labelled(labels, ls)) == labels + Labels(ls) && Aims(Labelled(labels, ls)) == Aims(ls)
  {
    assert Labelled(labels, ls)[1..] == ls[1..];
  }

  lemma NoLines()
    ensures Labels([]) == [] && Aims([]) == []
  {}

  lemma {:induction false} BodyLabels(params: nat, bs: seq<M.Block>, k: nat, base: Reg)
    requires k <= |bs| && forall i :: 0 <= i < |bs| ==> Targets(bs[i].ter) <= Ids(bs)
    ensures Labels(BodyLines(params, bs, k, base)) == Range(k, |bs|) && AimsBelow(BodyLines(params, bs, k, base), |bs|)
    decreases |bs| - k
  {
    hide Labels, Aims, BlockLines;
    if k == |bs| {
      NoLines();
    } else {
      var next := base + BlockRegs(bs[k]);
      BlockLabels(params, bs, k, base);
      BodyLabels(params, bs, k + 1, next);
      LabelsConcat(BlockLines(params, bs, k, base), BodyLines(params, bs, k + 1, next));
      assert [k] + Range(k + 1, |bs|) == Range(k, |bs|);
    }
  }

  lemma {:induction false} AllocsBare(from: nat, params: nat, locals: nat)
    ensures Bare(AllocLines(from, params, locals))
    decreases locals - from
  {
    if from < locals {
      AllocsBare(from + 1, params, locals);
    }
  }

  /** In generated lines block k's label is label k, on one line, the labels come in order, and jumps
    * aim at labels of the function.  The prologue's jump aims at the first. */
  lemma {:induction false} GenFnLabels(fn: M.Fn)
    requires WellFormed(fn)
    ensures Labels(FnLines(fn)) == Range(0, |fn.blocks|) && AimsBelow(FnLines(fn), |fn.blocks|)
  {
    var allocs, body := AllocLines(0, fn.params, fn.locals), BodyLines(fn.params, fn.blocks, 0, fn.locals);
    AllocsBare(0, fn.params, fn.locals);
    BareLabels(allocs);
    BodyLabels(fn.params, fn.blocks, 0, fn.locals);
    LabelsConcat(allocs, body);
  }

  // ---------- Rewritten lines ----------

  lemma {:induction false} RenamedLabels(ls: seq<Line>, b: Reg, a: Reg)
    ensures Labels(Rename(ls, b, a)) == Labels(ls) && Aims(Rename(ls, b, a)) == Aims(ls)
    decreases |ls|
  {
    if ls != [] {
      assert Rename(ls, b, a)[1..] == Rename(ls[1..], b, a);
      RenamedLabels(ls[1..], b, a);
    }
  }

  /** Bare lines taken out, or put in, between others. */
  lemma {:induction false} MiddleBare(a: seq<Line>, m: seq<Line>, n: seq<Line>, b: seq<Line>)
    requires Labels(m) == Labels(n) && Aims(m) == Aims(n)
    ensures Labels(a + m + b) == Labels(a + n + b) && Aims(a + m + b) == Aims(a + n + b)
  {
    LabelsConcat(a, m);
    LabelsConcat(a + m, b);
    LabelsConcat(a, n);
    LabelsConcat(a + n, b);
  }

  lemma {:induction false} DropKillLabels(ls: seq<Line>, a: Reg)
    requires forall i :: 0 <= i < |ls| ==> ls[i].labels == []
    ensures Labels(DropKill(ls, a)) == Labels(ls) && Aims(DropKill(ls, a)) == Aims(ls)
    decreases |ls|
  {
    if ls != [] && ls[0].ins != Kill(a) {
      DropKillLabels(ls[1..], a);
      assert ([ls[0]] + DropKill(ls[1..], a))[1..] == DropKill(ls[1..], a);
    }
  }

  /** A push and pop taken away around some lines. */
  lemma {:induction false} PairLabels(ls: seq<Line>, i: nat, j: nat, kept: seq<Line>)
    requires i < j < |ls| && ls[i].ins.Push? && ls[j].ins.Pop? && ls[i].labels == [] && ls[j].labels == []
    requires Labels(kept) == Labels(ls[i + 1..j]) && Aims(kept) == Aims(ls[i + 1..j])
    ensures Labels(ls[..i] + kept + ls[j + 1..]) == Labels(ls) && Aims(ls[..i] + kept + ls[j + 1..]) == Aims(ls)
  {
    hide Labels, Aims;
    var mid := ls[i + 1..j];
    assert ls[i] == L(ls[i].ins) && ls[j] == L(ls[j].ins);
    var whole := [ls[i]] + mid + [ls[j]];
    OneLine(ls[i].ins);
    OneLine(ls[j].ins);
    LabelsConcat([ls[i]], mid);
    LabelsConcat([ls[i]] + mid, [ls[j]]);
    assert Labels(whole) == [] + Labels(mid) + [] && Aims(whole) == [] + Aims(mid) + [];
    MiddleBare(ls[..i], kept, whole, ls[j + 1..]);
    assert ls == ls[..i] + whole + ls[j + 1..];
  }

  lemma {:induction false} OneForThreeLabels(ls: seq<Line>, i: nat, one: Line)
    requires i + 2 < |ls| && one.labels == ls[i].labels && ls[i + 1].labels == [] && ls[i + 2].labels == []
    requires AimOf(one.ins) == AimOf(ls[i].ins) == AimOf(ls[i + 1].ins) == AimOf(ls[i + 2].ins) == []
    ensures Labels(ls[..i] + [one] + ls[i + 3..]) == Labels(ls) && Aims(ls[..i] + [one] + ls[i + 3..]) == Aims(ls)
  {
    hide Labels, Aims, AimOf;
    var three := [ls[i]] + [ls[i + 1], ls[i + 2]];
    assert Bare([ls[i + 1], ls[i + 2]]);
    BareLabels([ls[i + 1], ls[i + 2]]);
    LabelsConcat([ls[i]], [ls[i + 1], ls[i + 2]]);
    Single(one);
    Single(ls[i]);
    assert Labels(three) == one.labels + [] && Aims(three) == [] + [];
    MiddleBare(ls[..i], [one], three, ls[i + 3..]);
    assert ls == ls[..i] + three + ls[i + 3..];
  }

  lemma {:induction false} PushPopLabels(ls: seq<Line>, i: nat)
    requires At(PushPop, ls, i) && ls[i].labels == []
    ensures Labels(Rewrite(PushPop, ls, i)) == Labels(ls) && Aims(Rewrite(PushPop, ls, i)) == Aims(ls)
  {
    hide Labels, Aims;
    assert ls[i + 1..i + 2] == [ls[i + 1]];
    BareLabels([ls[i + 1]]);
    NoLines();
    PairLabels(ls, i, i + 2, []);
    assert ls[..i] + [] + ls[i + 3..] == ls[..i] + ls[i + 3..];
    RenamedLabels(ls[..i] + ls[i + 3..], ls[i + 2].ins.reg, ls[i].ins.reg);
  }

  lemma {:induction false} ShadowedLabels(ls: seq<Line>, i: nat)
    requires At(Shadowed, ls, i) && ls[i].labels == []
    ensures Labels(Rewrite(Shadowed, ls, i)) == Labels(ls) && Aims(Rewrite(Shadowed, ls, i)) == Aims(ls)
  {
    hide Labels, Aims, PopFrom, DropKill;
    var j := PopFrom(ls, i + 1).value;
    var a := ls[i].ins.reg;
    DropKillLabels(ls[i + 1..j], a);
    PairLabels(ls, i, j, DropKill(ls[i + 1..j], a));
    RenamedLabels(ls[..i] + DropKill(ls[i + 1..j], a) + ls[j + 1..], ls[j].ins.reg, a);
  }

  /** Rewriting a candidate moves no label and loses none. */
  lemma {:induction false} RewriteLabels(pass: Pass, ls: seq<Line>, i: nat, slots: nat)
    requires Ok(ls, {}, slots, slots) && At(pass, ls, i)
    ensures Labels(Rewrite(pass, ls, i)) == Labels(ls) && Aims(Rewrite(pass, ls, i)) == Aims(ls)
  {
    hide Labels, Aims, Ok;
    OkAt(ls, i, slots);
    match pass
    case PushPop => PushPopLabels(ls, i);
    case Shadowed => ShadowedLabels(ls, i);
    case FnCall => OneForThreeLabels(ls, i, Line(ls[i].labels, CallImm(ls[i].ins.f, ls[i + 1].ins.args)));
    case IntStore => OneForThreeLabels(ls, i, Line(ls[i].labels, StoreImm(ls[i + 1].ins.slot, ls[i].ins.val)));
  }

  lemma {:induction false} ApplyAllLabels(pass: Pass, ls: seq<Line>, cs: seq<nat>, slots: nat)
    requires Ok(ls, {}, slots, slots) && Chained(pass, ls, cs)
    ensures Labels(ApplyAll(pass, ls, cs)) == Labels(ls) && Aims(ApplyAll(pass, ls, cs)) == Aims(ls)
    decreases |cs|
  {
    if cs != [] {
      hide Labels, Aims, Rewrite, Ok;
      RewriteLabels(pass, ls, cs[|cs| - 1], slots);
      var rs := ApplyLast(pass, ls, cs, slots);
      ApplyAllLabels(pass, rs, cs[..|cs| - 1], slots);
    }
  }

  lemma {:induction false} PassLabels(pass: Pass, ls: seq<Line>, slots: nat)
    requires Ok(ls, {}, slots, slots)
    ensures Labels(RunPass(pass, ls)) == Labels(ls) && Aims(RunPass(pass, ls)) == Aims(ls)
    ensures Ok(RunPass(pass, ls), {}, slots, slots)
  {
    CandidatesChained(pass, ls, |ls|);
    ApplyAllLabels(pass, ls, Candidates(pass, ls, |ls|), slots);
    PassSound(pass, ls, slots);
  }

  lemma {:induction false} RoundLabels(ls: seq<Line>, slots: nat)
    requires Ok(ls, {}, slots, slots)
    ensures Labels(Round(ls)) == Labels(ls) && Aims(Round(ls)) == Aims(ls)
  {
    var l1 := RunPass(PushPop, ls);
    var l2 := RunPass(FnCall, l1);
    var l3 := RunPass(IntStore, l2);
    PassLabels(PushPop, ls, slots);
    PassLabels(FnCall, l1, slots);
    PassLabels(IntStore, l2, slots);
    PassLabels(Shadowed, l3, slots);
  }

  /** The optimiser leaves every label on its own line and every jump its target: labels and targets,
    * read off in order, are the same before and after, in every function. */
  lemma {:induction false} OptimizeLabels(fs: seq<seq<Line>>, slots: seq<nat>)
    requires AllOk(fs, slots)
    ensures var rs := OptimizeAll(fs, slots);
      |rs| == |fs| && forall k :: 0 <= k < |fs| ==> Labels(rs[k]) == Labels(fs[k]) && Aims(rs[k]) == Aims(fs[k])
    decreases Total(fs)
  {
    RoundAllTotal(fs, slots);
    RoundAllOk(fs, slots);
    var r1 := RoundAll(fs);
    forall k | 0 <= k < |fs| ensures Labels(r1[k]) == Labels(fs[k]) && Aims(r1[k]) == Aims(fs[k]) {
      RoundLabels(fs[k], slots[k]);
    }
    if Total(r1) != Total(fs) {
      OptimizeLabels(r1, slots);
    }
  }
}
