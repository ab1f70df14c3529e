/** The peephole optimiser as the compiler runs it: candidate lists, lines spliced in place, and a
  * loop that stops when a program size comes back. */
module LirOptimizeClass {
  import opened Values
  import opened Lir
  import opened LirLive
  import opened LirRewrite
  import opened LirProgram
  import opened LirOptimize

  /** The pop that each push candidate found. */
  ghost predicate Pops(ls: seq<Line>, cs: seq<nat>, pops: seq<nat>) {
    |pops| == |cs| && forall k :: 0 <= k < |cs| ==> At(Shadowed, ls, cs[k]) && PopFrom(ls, cs[k] + 1) == Some(pops[k])
  }

  lemma CutOut(ls: seq<Line>, i: nat, j: nat)
    requires i < j < |ls|
    ensures var rs := ls[..j] + ls[j + 1..];
      rs[..i + 1] == ls[..i + 1] && rs[i + 1..j] == ls[i + 1..j] && rs[j..] == ls[j + 1..]
  {}

  lemma ThenFirst(ls: seq<Line>, i: nat, kept: seq<Line>, rest: seq<Line>)
    requires i < |ls|
    ensures var rs := ls[..i + 1] + kept + rest; rs[..i] + rs[i + 1..] == ls[..i] + kept + rest
  {}

  lemma NoPops(ls: seq<Line>)
    ensures Pops(ls, [], [])
  {}

  /** One more line looked at. */
  lemma {:induction false} PopsScanned(ls: seq<Line>, i: nat, cs: seq<nat>, pops: seq<nat>)
    requires i + 1 < |ls| && cs == Candidates(Shadowed, ls, i) && Pops(ls, cs, pops)
    ensures var pop := if ls[i].ins.Push? then PopFrom(ls, i + 1) else None;
      if pop.Some? then Candidates(Shadowed, ls, i + 1) == cs + [i] && Pops(ls, cs + [i], pops + [pop.value])
      else Candidates(Shadowed, ls, i + 1) == cs
  {
    hide PopFrom;
    assert cs + [] == cs;
  }

  /** Rewriting the last candidate leaves the pops of the others where they were. */
  lemma {:induction false} StillPops(ls: seq<Line>, cs: seq<nat>, pops: seq<nat>, rs: seq<Line>)
    requires Chained(Shadowed, ls, cs) && Pops(ls, cs, pops) && cs != []
    requires var n := cs[|cs| - 1]; n <= |rs| && rs[..n] == ls[..n]
    ensures Pops(rs, cs[..|cs| - 1], pops[..|cs| - 1])
  {
    hide PopFrom;
    var n := cs[|cs| - 1];
    forall k | 0 <= k < |cs| - 1 ensures At(Shadowed, rs, cs[k]) && PopFrom(rs, cs[k] + 1) == Some(pops[k]) {
      assert EndOf(Shadowed, ls, cs[k]) <= n;
      AtLocal(Shadowed, ls, rs, cs[k], n);
    }
  }

  /** Rewriting these candidates is all that is left to reach `target`. */
  ghost predicate Pending(pass: Pass, ls: seq<Line>, cs: seq<nat>, target: seq<Line>, slots: nat) {
    Ok(ls, {}, slots, slots) && Chained(pass, ls, cs) && ApplyAll(pass, ls, cs) == target
  }

  lemma {:induction false} PendingStart(pass: Pass, ls: seq<Line>, slots: nat)
    requires Ok(ls, {}, slots, slots)
    ensures var cs := Candidates(pass, ls, |ls|); Pending(pass, ls, cs[..|cs|], RunPass(pass, ls), slots)
  {
    var cs := Candidates(pass, ls, |ls|);
    CandidatesChained(pass, ls, |ls|);
    assert cs[..|cs|] == cs;
  }

  /** The last candidate is there, and rewriting it leaves the others to do. */
  lemma {:induction false} PendingNext(pass: Pass, ls: seq<Line>, cs: seq<nat>, n: nat, target: seq<Line>, slots: nat)
    requires n < |cs| && Pending(pass, ls, cs[..n + 1], target, slots)
    ensures At(pass, ls, cs[n]) && Pending(pass, Rewrite(pass, ls, cs[n]), cs[..n], target, slots)
  {
    var front := cs[..n + 1];
    assert front[n] == cs[n] && front[..n] == cs[..n];
    var rs := ApplyLast(pass, ls, front, slots);
  }

  lemma {:induction false} PendingDone(pass: Pass, ls: seq<Line>, cs: seq<nat>, target: seq<Line>, slots: nat)
    requires Pending(pass, ls, cs[..0], target, slots)
    ensures ls == target && Ok(ls, {}, slots, slots)
  {}

  /** The pops recorded with the pushes stay where they are. */
  lemma {:induction false} PopsNext(ls: seq<Line>, cs: seq<nat>, pops: seq<nat>, n: nat, target: seq<Line>, slots: nat)
    requires n < |cs| == |pops| && Pending(Shadowed, ls, cs[..n + 1], target, slots)
    requires Pops(ls, cs[..n + 1], pops[..n + 1])
    ensures cs[n] < pops[n] < |ls| && At(Shadowed, ls, cs[n]) && PopFrom(ls, cs[n] + 1) == Some(pops[n])
    ensures Pops(Rewrite(Shadowed, ls, cs[n]), cs[..n], pops[..n])
  {
    var front, ps := cs[..n + 1], pops[..n + 1];
    assert front[n] == cs[n] && front[..n] == cs[..n] && ps[n] == pops[n] && ps[..n] == pops[..n];
    ApplySound(Shadowed, ls, cs[n], slots);
    StillPops(ls, front, ps, Rewrite(Shadowed, ls, cs[n]));
  }

  /** A push is never the last line but two: something follows its pop. */
  lemma {:induction false} MoreAfterPop(ls: seq<Line>, i: nat, slots: nat)
    requires Ok(ls, {}, slots, slots) && At(PushPop, ls, i)
    ensures i + 3 < |ls|
  {
    OkAt(ls, i + 2, slots);
  }

  /** Dropping the first kill between two positions, one line at a time. */
  lemma {:induction false} DropKillAt(ls: seq<Line>, i: nat, j: nat, reg: Reg)
    requires i < j <= |ls|
    ensures ls[..i] + DropKill(ls[i..j], reg) + ls[j..] ==
            if ls[i].ins == Kill(reg) then ls[..i] + ls[i + 1..]
              else ls[..i + 1] + DropKill(ls[i + 1..j], reg) + ls[j..]
  {
    var rest := ls[i + 1..j];
    assert ls[i..j][1..] == rest;
    if ls[i].ins == Kill(reg) {
      assert rest + ls[j..] == ls[i + 1..];
    } else {
      assert ls[..i] + ([ls[i]] + DropKill(rest, reg)) == ls[..i + 1] + DropKill(rest, reg);
    }
  }

  class LirFn {
    var lines: seq<Line>
    ghost const slots: nat

    constructor (lines: seq<Line>, ghost slots: nat)
      ensures this.lines == lines && this.slots == slots
    {
      this.lines := lines;
      this.slots := slots;
    }

    ghost predicate Valid()
      reads this
    {
      Ok(lines, {}, slots, slots)
    }

    /** Every occurrence of a register replaced, over the whole function. */
    method ReplaceReg(cand: Reg, replacement: Reg)
      modifies this
      ensures lines == Rename(old(lines), cand, replacement)
    {
      var i := 0;
      while i < |lines|
        invariant 0 <= i <= |lines| == |old(lines)|
        invariant forall k :: 0 <= k < i ==> lines[k] == Rename(old(lines), cand, replacement)[k]
        invariant forall k :: i <= k < |lines| ==> lines[k] == old(lines)[k]
      {
        lines := lines[i := lines[i].(ins := RenameIns(lines[i].ins, cand, replacement))];
        i := i + 1;
      }
    }

    /** Where the three-line passes match, in order. */
    method Scan(pass: Pass) returns (candidates: seq<nat>)
      requires pass != Shadowed
      ensures candidates == Candidates(pass, lines, |lines|)
    {
      candidates := [];
      var i := 0;
      while i < |lines| - 2
        invariant 0 <= i <= |lines| && (i == 0 || i <= |lines| - 2)
        invariant candidates == Candidates(pass, lines, i)
      {
        if At(pass, lines, i) {
          candidates := candidates + [i];
        }
        i := i + 1;
      }
      NoMore(pass, i, |lines|);
    }

    /** Nothing matches in the last two lines. */
    lemma NoMore(pass: Pass, i: nat, n: nat)
      requires i <= n && forall k :: i <= k < n ==> !At(pass, lines, k)
      ensures Candidates(pass, lines, n) == Candidates(pass, lines, i)
      decreases n
    {
      if i < n {
        NoMore(pass, i, n - 1);
      }
    }

    /** Push, kill and pop of neighbouring lines: the popped register becomes the pushed one. */
    method DropThree(i: nat)
      requires Valid() && At(PushPop, lines, i)
      modifies this
      ensures lines == Rewrite(PushPop, old(lines), i)
    {
      // The last line is never part of a candidate, so no label has to be moved past the end.
      MoreAfterPop(lines, i, slots);
      var toRemove, replacement := lines[i + 2].ins.reg, lines[i].ins.reg;
      lines := lines[..i] + lines[i + 3..];
      ReplaceReg(toRemove, replacement);
    }

    method EliminatePushPop()
      requires Valid()
      modifies this
      ensures Valid() && lines == RunPass(PushPop, old(lines))
    {
      hide Pending, Rewrite, RunPass, Candidates;
      var candidates := Scan(PushPop);
      PendingStart(PushPop, lines, slots);
      var n := |candidates|;
      while n > 0
        invariant 0 <= n <= |candidates| && Valid()
        invariant Pending(PushPop, lines, candidates[..n], RunPass(PushPop, old(lines)), slots)
      {
        n := n - 1;
        PendingNext(PushPop, lines, candidates, n, RunPass(PushPop, old(lines)), slots);
        PendingOk(PushPop, Rewrite(PushPop, lines, candidates[n]), candidates[..n], RunPass(PushPop, old(lines)));
        DropThree(candidates[n]);
      }
      PendingDone(PushPop, lines, candidates, RunPass(PushPop, old(lines)), slots);
    }

    lemma PendingOk(pass: Pass, ls: seq<Line>, cs: seq<nat>, target: seq<Line>)
      requires Pending(pass, ls, cs, target, slots)
      ensures Ok(ls, {}, slots, slots)
    {}

    /** A function's address moved to a register only to be called. */
    method MergeFnCall(i: nat)
      requires At(FnCall, lines, i)
      modifies this
      ensures lines == Rewrite(FnCall, old(lines), i)
    {
      var f, args := lines[i].ins.f, lines[i + 1].ins.args;
      lines := lines[..i + 1] + lines[i + 3..];
      lines := lines[i := lines[i].(ins := CallImm(f, args))];
    }

    method EliminateMovFnCall()
      requires Valid()
      modifies this
      ensures Valid() && lines == RunPass(FnCall, old(lines))
    {
      hide Pending, Rewrite, RunPass, Candidates;
      var candidates := Scan(FnCall);
      PendingStart(FnCall, lines, slots);
      var n := |candidates|;
      while n > 0
        invariant 0 <= n <= |candidates|
        invariant Pending(FnCall, lines, candidates[..n], RunPass(FnCall, old(lines)), slots)
      {
        n := n - 1;
        PendingNext(FnCall, lines, candidates, n, RunPass(FnCall, old(lines)), slots);
        MergeFnCall(candidates[n]);
      }
      PendingDone(FnCall, lines, candidates, RunPass(FnCall, old(lines)), slots);
    }

    /** A constant moved to a register only to be stored. */
    method MergeIntStore(i: nat)
      requires At(IntStore, lines, i)
      modifies this
      ensures lines == Rewrite(IntStore, old(lines), i)
    {
      var slot, val := lines[i + 1].ins.slot, lines[i].ins.val;
      lines := lines[..i + 1] + lines[i + 3..];
      lines := lines[i := lines[i].(ins := StoreImm(slot, val))];
    }

    method EliminateMovIntStoreReg()
      requires Valid()
      modifies this
      ensures Valid() && lines == RunPass(IntStore, old(lines))
    {
      hide Pending, Rewrite, RunPass, Candidates;
      var candidates := Scan(IntStore);
      PendingStart(IntStore, lines, slots);
      var n := |candidates|;
      while n > 0
        invariant 0 <= n <= |candidates|
        invariant Pending(IntStore, lines, candidates[..n], RunPass(IntStore, old(lines)), slots)
      {
        n := n - 1;
        PendingNext(IntStore, lines, candidates, n, RunPass(IntStore, old(lines)), slots);
        MergeIntStore(candidates[n]);
      }
      PendingDone(IntStore, lines, candidates, RunPass(IntStore, old(lines)), slots);
    }

    /** Look for the pop that takes what the push at `i` left: across lines that leave the stack
      * alone, up to the first label. */
    method FindPop(i: nat) returns (pop: Option<nat>)
      requires i + 1 < |lines|
      ensures pop == PopFrom(lines, i + 1)
    {
      var j := i + 1;
      while j < |lines|
        invariant i + 1 <= j <= |lines| && PopFrom(lines, i + 1) == PopFrom(lines, j)
      {
        var line := lines[j];
        if |line.labels| != 0 {
          return None;
        }
        if !line.ins.Pop? && PollutesStack(line.ins) {
          return None;
        }
        if line.ins.Pop? {
          return Some(j);
        }
        j := j + 1;
      }
      return None;
    }

    method ScanShadowed() returns (pushes: seq<nat>, pops: seq<nat>)
      ensures pushes == Candidates(Shadowed, lines, |lines|) && Pops(lines, pushes, pops)
    {
      hide PopFrom, Pops;
      pushes, pops := [], [];
      var i := 0;
      assert Pops(lines, pushes, pops) by { NoPops(lines); }
      while i < |lines| - 1
        invariant 0 <= i <= |lines| && (i == 0 || i <= |lines| - 1)
        invariant pushes == Candidates(Shadowed, lines, i) && Pops(lines, pushes, pops)
      {
        PopsScanned(lines, i, pushes, pops);
        if lines[i].ins.Push? {
          var pop := FindPop(i);
          if pop.Some? {
            pushes, pops := pushes + [i], pops + [pop.value];
          }
        }
        i := i + 1;
      }
      NoMore(Shadowed, i, |lines|);
    }

    /** The first kill of the pushed register between the push and its pop is dropped. */
    method DropFirstKill(pushIdx: nat, popIdx: nat, reg: Reg)
      requires pushIdx < popIdx <= |lines|
      modifies this
      ensures lines == old(lines)[..pushIdx + 1] + DropKill(old(lines)[pushIdx + 1..popIdx], reg) + old(lines)[popIdx..]
    {
      ghost var all := old(lines)[..pushIdx + 1] + DropKill(old(lines)[pushIdx + 1..popIdx], reg) +
        old(lines)[popIdx..];
      var i := pushIdx + 1;
      while i <= popIdx - 1
        invariant pushIdx + 1 <= i <= popIdx && lines == old(lines)
        invariant lines[..i] + DropKill(lines[i..popIdx], reg) + lines[popIdx..] == all
      {
        DropKillAt(lines, i, popIdx, reg);
        if lines[i].ins == Kill(reg) {
          lines := lines[..i] + lines[i + 1..];
          return;
        }
        i := i + 1;
      }
      assert lines[popIdx..popIdx] == [];
      assert lines[..popIdx] + [] + lines[popIdx..] == lines;
    }

    /** One push and its pop taken away, with the kill between them. */
    method DropPair(pushIdx: nat, popIdx: nat)
      requires pushIdx < popIdx < |lines| && At(Shadowed, lines, pushIdx) && PopFrom(lines, pushIdx + 1) == Some(popIdx)
      modifies this
      ensures lines == Rewrite(Shadowed, old(lines), pushIdx)
    {
      hide PopFrom, DropKill, Rename;
      var toRemove, replacement := lines[popIdx].ins.reg, lines[pushIdx].ins.reg;
      ghost var ls := lines;
      lines := lines[..popIdx] + lines[popIdx + 1..];
      CutOut(ls, pushIdx, popIdx);
      DropFirstKill(pushIdx, popIdx, replacement);
      ghost var kept := DropKill(ls[pushIdx + 1..popIdx], replacement);
      ThenFirst(ls, pushIdx, kept, ls[popIdx + 1..]);
      lines := lines[..pushIdx] + lines[pushIdx + 1..];
      ReplaceReg(toRemove, replacement);
    }

    /** A push and its pop with lines between them that leave the stack alone. */
    method EliminatePushPopShadowed()
      requires Valid()
      modifies this
      ensures Valid() && lines == RunPass(Shadowed, old(lines))
    {
      hide Pending, Rewrite, RunPass, Candidates, Pops, PopFrom;
      var pushes, pops := ScanShadowed();
      PendingStart(Shadowed, lines, slots);
      var n := |pushes|;
      SameLength(lines, pushes, pops);
      while n > 0
        invariant 0 <= n <= |pushes| == |pops|
        invariant Pending(Shadowed, lines, pushes[..n], RunPass(Shadowed, old(lines)), slots)
        invariant Pops(lines, pushes[..n], pops[..n])
      {
        n := n - 1;
        PendingNext(Shadowed, lines, pushes, n, RunPass(Shadowed, old(lines)), slots);
        PopsNext(lines, pushes, pops, n, RunPass(Shadowed, old(lines)), slots);
        DropPair(pushes[n], pops[n]);
      }
      PendingDone(Shadowed, lines, pushes, RunPass(Shadowed, old(lines)), slots);
    }

    lemma SameLength(ls: seq<Line>, pushes: seq<nat>, pops: seq<nat>)
      requires Pops(ls, pushes, pops)
      ensures |pushes| == |pops| && Pops(ls, pushes[..|pushes|], pops[..|pops|])
    {
      assert pushes[..|pushes|] == pushes && pops[..|pops|] == pops;
    }

    /** The four passes. */
    method RunRound()
      requires Valid()
      modifies this
      ensures Valid() && lines == Round(old(lines))
    {
      EliminatePushPop();
      EliminateMovFnCall();
      EliminateMovIntStoreReg();
      EliminatePushPopShadowed();
    }
  }

  // ---------- The whole program ----------

  ghost function LinesOf(fns: seq<LirFn>): (ls: seq<seq<Line>>)
    reads fns
    ensures |ls| == |fns| && forall k :: 0 <= k < |fns| ==> ls[k] == fns[k].lines
  {
    seq(|fns|, k requires 0 <= k < |fns| reads fns => fns[k].lines)
  }

  ghost function SlotsOf(fns: seq<LirFn>): (ss: seq<nat>)
    ensures |ss| == |fns| && forall k :: 0 <= k < |fns| ==> ss[k] == fns[k].slots
  {
    seq(|fns|, k requires 0 <= k < |fns| => fns[k].slots)
  }

  lemma TotalPrefix(fs: seq<seq<Line>>, i: nat)
    requires i < |fs|
    ensures Total(fs[..i + 1]) == Total(fs[..i]) + |fs[i]|
  {
    if i == 0 {
      assert fs[..1] == [fs[0]] && fs[..1][1..] == [] && fs[..0] == [];
    } else {
      TotalPrefix(fs[1..], i - 1);
      assert fs[1..][..i] == fs[..i + 1][1..] && fs[1..][..i - 1] == fs[..i][1..];
    }
  }

  /** One round of the program: either it saved something, or it was the last. */
  lemma {:induction false} OneRound(fs: seq<seq<Line>>, slots: seq<nat>)
    requires AllOk(fs, slots)
    ensures var rs := RoundAll(fs);
      && AllOk(rs, slots) && Total(rs) <= Total(fs)
      && OptimizeAll(fs, slots) == if Total(rs) == Total(fs) then rs else OptimizeAll(rs, slots)
  {
    RoundAllTotal(fs, slots);
    RoundAllOk(fs, slots);
  }

  class Program {
    var fns: seq<LirFn>

    constructor (fns: seq<LirFn>)
      ensures this.fns == fns
    {
      this.fns := fns;
    }

    ghost predicate Valid()
      reads this, fns
    {
      && (forall i, j :: 0 <= i < j < |fns| ==> fns[i] != fns[j])
      && AllOk(LinesOf(fns), SlotsOf(fns))
    }

    method Size() returns (n: nat)
      ensures n == Total(LinesOf(fns))
    {
      n := 0;
      for i := 0 to |fns|
        invariant n == Total(LinesOf(fns)[..i])
      {
        TotalPrefix(LinesOf(fns), i);
        n := n + |fns[i].lines|;
      }
      assert LinesOf(fns)[..|fns|] == LinesOf(fns);
    }

    method RunRounds()
      requires Valid()
      modifies fns
      ensures Valid() && LinesOf(fns) == RoundAll(old(LinesOf(fns)))
    {
      hide Ok, Round, RoundAll, SameProgram;
      ghost var before, slots := LinesOf(fns), SlotsOf(fns);
      RoundAllOk(before, slots);
      for i := 0 to |fns|
        invariant forall k :: 0 <= k < i ==> fns[k].lines == Round(before[k]) && fns[k].Valid()
        invariant forall k :: i <= k < |fns| ==> fns[k].lines == before[k] && fns[k].Valid()
      {
        fns[i].RunRound();
      }
      forall k | 0 <= k < |fns| ensures LinesOf(fns)[k] == RoundAll(before)[k] {}
      assert LinesOf(fns) == RoundAll(before);
    }

    /** Rounds until the program's size has been seen before.  Sizes only ever drop, so that is the
      * first round that changes nothing. */
    method OptimizeLir()
      requires Valid()
      modifies fns
      ensures Valid() && LinesOf(fns) == OptimizeAll(old(LinesOf(fns)), SlotsOf(fns))
      ensures var before, after := old(LinesOf(fns)), LinesOf(fns);
        |after| == |before| && forall k :: 0 <= k < |after| ==>
          SameProgram(before[k], after[k]) && NothingToSave(after[k])
    {
      hide AllOk, RoundAll, OptimizeAll, SameProgram, NothingToSave, Total, LinesOf, SlotsOf;
      ghost var original, slots := LinesOf(fns), SlotsOf(fns);
      var sizeBefore := Size();
      var sizeHistory := {sizeBefore};
      var repeats := 0;
      while repeats < 1
        invariant 0 <= repeats <= 1 && Valid() && sizeBefore == Total(LinesOf(fns)) && sizeBefore in sizeHistory
        invariant forall n :: n in sizeHistory ==> sizeBefore <= n
        invariant repeats == 0 ==> OptimizeAll(LinesOf(fns), slots) == OptimizeAll(original, slots)
        invariant repeats == 1 ==> LinesOf(fns) == OptimizeAll(original, slots)
        decreases 1 - repeats, sizeBefore
      {
        OneRound(LinesOf(fns), slots);
        RunRounds();
        var sizeAfter := Size();
        sizeBefore := sizeAfter;
        if sizeBefore in sizeHistory {
          repeats := repeats + 1;
        }
        sizeHistory := sizeHistory + {sizeBefore};
      }
      AllSaved(original, slots);
    }
  }
}
