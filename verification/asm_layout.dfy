/** The frame of an optimised function: the peephole passes leave its slots where they were. */
module AsmLayout {
  import opened Values
  import M = Mir
  import opened MirShape
  import opened Lir
  import opened LirGen
  import opened LirLive
  import opened LirRewrite
  import opened LirOptimize
  import opened AsmFrame
  import opened AsmGenClass
  import AsmCalls

  /** The first `n` lines allocate, the others do not. */
  predicate AllocsFirst(ls: seq<Line>, n: nat) {
    n <= |ls| && forall i :: 0 <= i < |ls| ==> (IsAlloc(ls[i].ins) <==> i < n)
  }

  /** What the allocator takes from lines is in their allocations. */
  lemma {:induction false} SlotsOfPrefix(ls: seq<Line>, rs: seq<Line>, n: nat)
    requires AllocsFirst(ls, n) && AllocsFirst(rs, n) && ls[..n] == rs[..n]
    ensures ParamsOf(ls) == ParamsOf(rs) && LocalsOf(ls) == LocalsOf(rs)
    decreases n
  {
    if n > 0 {
      assert ls[0] == ls[..n][0] == rs[..n][0] == rs[0];
      assert ls[1..][..n - 1] == ls[..n][1..] && rs[1..][..n - 1] == rs[..n][1..];
      SlotsOfPrefix(ls[1..], rs[1..], n - 1);
    }
  }

  lemma {:induction false} DropKillNoAllocs(ls: seq<Line>, a: Reg)
    requires AsmCalls.NoAllocs(ls)
    ensures AsmCalls.NoAllocs(DropKill(ls, a))
    decreases |ls|
  {
    if ls != [] && ls[0].ins != Kill(a) {
      DropKillNoAllocs(ls[1..], a);
    }
  }

  /** What a rewrite puts in place of the lines from the candidate on. */
  lemma {:induction false} RewriteTail(pass: Pass, ls: seq<Line>, i: nat) returns (tail: seq<Line>, b: Reg, a: Reg)
    requires At(pass, ls, i) && AsmCalls.NoAllocs(ls[i..])
    ensures AsmCalls.NoAllocs(tail)
    ensures Rewrite(pass, ls, i) == if pass.PushPop? ||
      pass.Shadowed? then Rename(ls[..i] + tail, b, a) else ls[..i] + tail
  {
    a, b := 0, 0;
    assert forall k :: i <= k < |ls| ==> ls[k] == ls[i..][k - i];
    match pass
    case PushPop => a, b, tail := ls[i].ins.reg, ls[i + 2].ins.reg, ls[i + 3..];
    case FnCall => tail := [Line(ls[i].labels, CallImm(ls[i].ins.f, ls[i + 1].ins.args))] + ls[i + 3..];
    case IntStore => tail := [Line(ls[i].labels, StoreImm(ls[i + 1].ins.slot, ls[i].ins.val))] + ls[i + 3..];
    case Shadowed =>
      var j := PopFrom(ls, i + 1).value;
      a, b := ls[i].ins.reg, ls[j].ins.reg;
      tail := ShadowedTail(ls, i, j);
  }

  lemma {:induction false} ShadowedTail(ls: seq<Line>, i: nat, j: nat) returns (tail: seq<Line>)
    requires i < j < |ls| && AsmCalls.NoAllocs(ls[i..]) && ls[i].ins.Push?
    ensures AsmCalls.NoAllocs(tail)
    ensures ls[..i] + DropKill(ls[i + 1..j], ls[i].ins.reg) + ls[j + 1..] == ls[..i] + tail
  {
    var a := ls[i].ins.reg;
    assert ls[i + 1..j] == ls[i..][1..j - i] && ls[j + 1..] == ls[i..][j + 1 - i..];
    DropKillNoAllocs(ls[i + 1..j], a);
    tail := DropKill(ls[i + 1..j], a) + ls[j + 1..];
  }

  lemma {:induction false} JoinedAllocs(head: seq<Line>, tail: seq<Line>, b: Reg, a: Reg, n: nat, renames: bool)
    requires AllocsFirst(head, n) && AsmCalls.NoAllocs(tail)
    ensures AllocsFirst(if renames then Rename(head + tail, b, a) else head + tail, n)
  {}

  /** A rewrite leaves the allocations, all of them before the candidate. */
  lemma {:induction false} RewriteAllocs(pass: Pass, ls: seq<Line>, i: nat, n: nat, slots: nat)
    requires Ok(ls, {}, slots, slots) && At(pass, ls, i) && AllocsFirst(ls, n)
    ensures var rs := Rewrite(pass, ls, i); AllocsFirst(rs, n) && rs[..n] == ls[..n]
  {
    hide Rewrite, Ok;
    CandidateBody(pass, ls, i, n);
    var tail, b, a := RewriteTail(pass, ls, i);
    ApplySound(pass, ls, i, slots);
    JoinedAllocs(ls[..i], tail, b, a, n, pass.PushPop? || pass.Shadowed?);
    var rs := Rewrite(pass, ls, i);
    assert rs[..n] == rs[..i][..n] == ls[..i][..n] == ls[..n];
  }

  /** A candidate stands after the allocations. */
  lemma {:induction false} CandidateBody(pass: Pass, ls: seq<Line>, i: nat, n: nat)
    requires At(pass, ls, i) && AllocsFirst(ls, n)
    ensures n <= i && AllocsFirst(ls[..i], n) && AsmCalls.NoAllocs(ls[i..])
  {
    assert !IsAlloc(ls[i].ins);
    assert n <= i;
    forall k | 0 <= k < |ls[i..]| ensures !IsAlloc(ls[i..][k].ins) {
      assert ls[i..][k] == ls[i + k];
    }
  }

  lemma {:induction false} ApplyAllAllocs(pass: Pass, ls: seq<Line>, cs: seq<nat>, n: nat, slots: nat)
    requires Ok(ls, {}, slots, slots) && Chained(pass, ls, cs) && AllocsFirst(ls, n)
    ensures var rs := ApplyAll(pass, ls, cs); AllocsFirst(rs, n) && rs[..n] == ls[..n]
    decreases |cs|
  {
    hide Rewrite, Ok, AllocsFirst;
    if cs != [] {
      RewriteAllocs(pass, ls, cs[|cs| - 1], n, slots);
      var r1 := ApplyLast(pass, ls, cs, slots);
      ApplyAllAllocs(pass, r1, cs[..|cs| - 1], n, slots);
    }
  }

  lemma {:induction false} PassAllocs(pass: Pass, ls: seq<Line>, n: nat, slots: nat)
    requires Ok(ls, {}, slots, slots) && AllocsFirst(ls, n)
    ensures var rs := RunPass(pass, ls); Ok(rs, {}, slots, slots) && AllocsFirst(rs, n) && rs[..n] == ls[..n]
  {
    CandidatesChained(pass, ls, |ls|);
    ApplyAllAllocs(pass, ls, Candidates(pass, ls, |ls|), n, slots);
    PassSound(pass, ls, slots);
  }

  lemma {:induction false} RoundAllocs(ls: seq<Line>, n: nat, slots: nat)
    requires Ok(ls, {}, slots, slots) && AllocsFirst(ls, n)
    ensures AllocsFirst(Round(ls), n) && Round(ls)[..n] == ls[..n]
  {
    hide Ok, AllocsFirst, RunPass;
    var l1 := RunPass(PushPop, ls);
    var l2 := RunPass(FnCall, l1);
    var l3 := RunPass(IntStore, l2);
    PassAllocs(PushPop, ls, n, slots);
    PassAllocs(FnCall, l1, n, slots);
    PassAllocs(IntStore, l2, n, slots);
    PassAllocs(Shadowed, l3, n, slots);
  }

  /** Optimising a program leaves every function's allocations alone. */
  lemma {:induction false} OptimizeAllocs(fs: seq<seq<Line>>, slots: seq<nat>, k: nat, n: nat)
    requires AllOk(fs, slots) && k < |fs| && AllocsFirst(fs[k], n)
    ensures var rs := OptimizeAll(fs, slots); |rs| == |fs| && AllocsFirst(rs[k], n) && rs[k][..n] == fs[k][..n]
    decreases Total(fs)
  {
    RoundAllTotal(fs, slots);
    RoundAllOk(fs, slots);
    RoundAllocs(fs[k], n, slots[k]);
    var r1 := RoundAll(fs);
    if Total(r1) != Total(fs) {
      OptimizeAllocs(r1, slots, k, n);
    }
  }

  lemma AllocsThenBody(a: seq<Line>, b: seq<Line>)
    requires (forall i :: 0 <= i < |a| ==> IsAlloc(a[i].ins)) && AsmCalls.NoAllocs(b)
    ensures AllocsFirst(a + b, |a|)
  {}

  lemma {:induction false} GeneratedAllocs(fn: M.Fn)
    requires fn.params <= fn.locals
    ensures AllocsFirst(FnLines(fn), fn.locals)
  {
    hide AllocLines, BodyLines, AsmCalls.NoAllocs;
    AsmCalls.BodyNoAllocs(fn.params, fn.blocks, 0, fn.locals);
    AllocLinesAt(0, fn.params, fn.locals);
    AllocsThenBody(AllocLines(0, fn.params, fn.locals), BodyLines(fn.params, fn.blocks, 0, fn.locals));
  }

  lemma {:induction false} AllocLinesAt(from: nat, params: nat, locals: nat)
    requires from <= locals
    ensures var a := AllocLines(from, params, locals);
      |a| == locals - from && forall i :: 0 <= i < |a| ==> IsAlloc(a[i].ins)
    decreases locals - from
  {
    if from < locals {
      AllocLinesAt(from + 1, params, locals);
    }
  }

  /** Whatever layout the allocator makes of a function's lines after optimising the program, every
    * slot is where it was before: parameters above the return address, locals inside the frame. */
  lemma {:induction false} OptimisedLayout(fs: seq<seq<Line>>, slots: seq<nat>, k: nat, fn: M.Fn, layout: StackLayout)
    requires AllOk(fs, slots) && k < |fs| && fs[k] == FnLines(fn) && fn.params <= fn.locals
    requires var ls := OptimizeAllLines(fs, slots, k); LaysOut(layout, ParamsOf(ls), LocalsOf(ls))
    ensures layout.frameSize == 8 * (fn.locals - fn.params)
    ensures forall slot: nat :: slot < fn.locals ==>
              slot in layout.regOffsets && layout.regOffsets[slot] == AsmCalls.SlotOffset(fn.params, slot)
  {
    GeneratedAllocs(fn);
    OptimizeAllocs(fs, slots, k, fn.locals);
    SlotsOfPrefix(FnLines(fn), OptimizeAllLines(fs, slots, k), fn.locals);
    AsmCalls.GeneratedLayout(fn, layout);
  }

  /** The k-th function's lines after optimising. */
  ghost function OptimizeAllLines(fs: seq<seq<Line>>, slots: seq<nat>, k: nat): seq<Line>
    requires AllOk(fs, slots) && k < |fs|
  {
    OptimizeAllSound(fs, slots);
    OptimizeAll(fs, slots)[k]
  }
}
