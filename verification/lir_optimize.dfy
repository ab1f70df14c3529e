/** The four peephole passes, and running them until nothing more is saved. */
module LirOptimize {
  import opened Values
  import opened Lir
  import opened LirLive
  import opened LirRewrite
  import opened LirProgram

  datatype Pass = PushPop | FnCall | IntStore | Shadowed

  function PollutesStack(ins: Ins): bool {
    match ins
    case Push(_) => true
    case Pop(_) => true
    case CallReg(_, _) => true
    case CallImm(_, _) => true
    case Binary(_, _, _) => true
    case _ => false
  }

  /** The first pop from position `j` on, if no label and no stack traffic comes before it. */
  function PopFrom(ls: seq<Line>, j: nat): (r: Option<nat>)
    requires j <= |ls|
    ensures r.Some? ==> j <= r.value < |ls| && ls[r.value].ins.Pop? && ls[r.value].labels == []
    ensures r.Some? ==> forall k :: j <= k < r.value ==> ls[k].labels == [] && !PollutesStack(ls[k].ins)
    decreases |ls| - j
  {
    if j == |ls| || ls[j].labels != [] then None
    else if ls[j].ins.Pop? then Some(j)
    else if PollutesStack(ls[j].ins) then None
    else PopFrom(ls, j + 1)
  }

  /** Whether a pass has a candidate at position `i`. */
  predicate At(pass: Pass, ls: seq<Line>, i: nat) {
    match pass
    case PushPop =>
      && i + 2 < |ls| && ls[i].ins.Push? && ls[i + 1].ins.Kill? && ls[i + 2].ins.Pop?
      && ls[i + 1].labels == [] && ls[i + 2].labels == [] && ls[i].ins.reg == ls[i + 1].ins.reg
    case FnCall =>
      && i + 2 < |ls| && ls[i].ins.MovFn? && ls[i + 1].ins.CallReg? && ls[i + 2].ins.Kill?
      && ls[i + 1].labels == [] && ls[i + 2].labels == []
      && ls[i].ins.reg == ls[i + 1].ins.reg && ls[i].ins.reg == ls[i + 2].ins.reg
    case IntStore =>
      && i + 2 < |ls| && ls[i].ins.MovInt? && ls[i + 1].ins.StoreReg? && ls[i + 2].ins.Kill?
      && ls[i + 1].labels == [] && ls[i + 2].labels == []
      && ls[i].ins.reg == ls[i + 1].ins.reg && ls[i].ins.reg == ls[i + 2].ins.reg
    case Shadowed =>
      i + 1 < |ls| && ls[i].ins.Push? && PopFrom(ls, i + 1).Some?
  }

  /** One past the last line of a candidate. */
  function EndOf(pass: Pass, ls: seq<Line>, i: nat): (e: nat)
    requires At(pass, ls, i)
    ensures i + 2 <= e <= |ls|
  {
    if pass == Shadowed then PopFrom(ls, i + 1).value + 1 else i + 3
  }

  /** Rewrite the candidate at `i`. */
  function Rewrite(pass: Pass, ls: seq<Line>, i: nat): seq<Line>
    requires At(pass, ls, i)
  {
    match pass
    case PushPop => Rename(ls[..i] + ls[i + 3..], ls[i + 2].ins.reg, ls[i].ins.reg)
    case FnCall => ls[..i] + [Line(ls[i].labels, CallImm(ls[i].ins.f, ls[i + 1].ins.args))] + ls[i + 3..]
    case IntStore => ls[..i] + [Line(ls[i].labels, StoreImm(ls[i + 1].ins.slot, ls[i].ins.val))] + ls[i + 3..]
    case Shadowed =>
      var j := PopFrom(ls, i + 1).value;
      var a := ls[i].ins.reg;
      Rename(ls[..i] + DropKill(ls[i + 1..j], a) + ls[j + 1..], ls[j].ins.reg, a)
  }

  /** The candidates below `n`, in order. */
  function Candidates(pass: Pass, ls: seq<Line>, n: nat): seq<nat> {
    if n == 0 then [] else Candidates(pass, ls, n - 1) + (if At(pass, ls, n - 1) then [n - 1] else [])
  }

  /** Candidates that still match, each ending before the next begins. */
  ghost predicate Chained(pass: Pass, ls: seq<Line>, cs: seq<nat>) {
    && (forall k :: 0 <= k < |cs| ==> At(pass, ls, cs[k]))
    && (forall k, m :: 0 <= k < m < |cs| ==> EndOf(pass, ls, cs[k]) <= cs[m])
  }

  function Saved(pass: Pass): nat {
    if pass.PushPop? || pass.Shadowed? then 3 else 2
  }

  // ---------- One candidate ----------

  lemma {:induction false} RenamedAway(ls: seq<Line>, more: seq<Line>, b: Reg, a: Reg)
    requires Rename(ls, b, a) == ls && forall line :: line in more ==> line in ls
    ensures Rename(more, b, a) == more
  {
    forall k | 0 <= k < |more| ensures Rename(more, b, a)[k] == more[k] {
      assert more[k] in ls;
      var m :| 0 <= m < |ls| && ls[m] == more[k];
      assert Rename(ls, b, a)[m] == ls[m];
    }
  }

  lemma {:induction false} RenameConcat(xs: seq<Line>, ys: seq<Line>, b: Reg, a: Reg)
    ensures Rename(xs + ys, b, a) == Rename(xs, b, a) + Rename(ys, b, a)
  {}

  lemma {:induction false} NextAtConcat(xs: seq<Line>, ys: seq<Line>, next: Reg)
    ensures NextAt(xs + ys, next) == NextAt(ys, NextAt(xs, next))
    decreases |xs|
  {
    if xs == [] {
      assert xs + ys == ys;
    } else {
      assert (xs + ys)[1..] == xs[1..] + ys;
      NextAtConcat(xs[1..], ys, NextAfter(xs[0].ins, next));
    }
  }

  /** The function-wide renaming touches only what comes after the pop. */
  lemma {:induction false} RenameIsLocal(front: seq<Line>, a: Reg, ms: seq<Line>, b: Reg, rest: seq<Line>, slots: nat)
    requires Ok(front + PairLines(a, ms, b, rest), {}, slots, slots) && AllQuiet(ms)
    requires NextAt(ms, NextAt(front, slots)) <= b
    ensures Rename(front + DropKill(ms, a) + rest, b, a) == front + Joined(ms, b, rest, a, false)
  {
    var early := front + ([Line([], Push(a))] + ms);
    assert early + ([Line([], Pop(b))] + rest) == front + PairLines(a, ms, b, rest);
    NextAtConcat(front, [Line([], Push(a))] + ms, slots);
    assert ([Line([], Push(a))] + ms)[1..] == ms;
    NotYet(early, [Line([], Pop(b))] + rest, {}, slots, slots, b, a);
    DropKillQuiet(ms, a);
    RenamedAway(early, front, b, a);
    RenamedAway(early, DropKill(ms, a), b, a);
    RenameConcat(front + DropKill(ms, a), rest, b, a);
    RenameConcat(front, DropKill(ms, a), b, a);
    assert front + DropKill(ms, a) + Rename(rest, b, a) == front + (DropKill(ms, a) + Rename(rest, b, a));
  }

  lemma {:induction false} PairSound(ls: seq<Line>, i: nat, j: nat, slots: nat) returns (rs: seq<Line>)
    requires Ok(ls, {}, slots, slots) && i < j < |ls| && ls[i].ins.Push? && ls[j].ins.Pop? && ls[j].labels == []
    requires AllQuiet(ls[i + 1..j])
    ensures rs == Rename(ls[..i] + DropKill(ls[i + 1..j], ls[i].ins.reg) + ls[j + 1..], ls[j].ins.reg, ls[i].ins.reg)
    ensures Ok(rs, {}, slots, slots) && SameProgram(ls, rs) && |rs| == |ls| - 3 && rs[..i] == ls[..i]
  {
    var a, b := ls[i].ins.reg, ls[j].ins.reg;
    var front, ms, rest := ls[..i], ls[i + 1..j], ls[j + 1..];
    OkAt(ls, i, slots);
    assert ls == front + PairLines(a, ms, b, rest);
    PairInFunction(front, a, ms, b, rest, slots);
    DropKillQuiet(ms, a);
    rs := front + Joined(ms, b, rest, a, false);
    RenameIsLocal(front, a, ms, b, rest, slots);
  }

  lemma {:induction false} OkAt(ls: seq<Line>, k: nat, slots: nat)
    requires Ok(ls, {}, slots, slots) && k < |ls|
    ensures ls[k].ins.Push? ==> ls[k].labels == []
    ensures ls[k].ins.Jmp? || ls[k].ins.Ret? ==> k + 1 == |ls| || ls[k + 1].labels != []
    ensures ls[k].ins.JnzReg? ==> k + 2 < |ls| && ls[k + 1].ins.Kill? && ls[k + 2].ins.Jmp?
    ensures !ls[k].ins.Jmp? && !ls[k].ins.Ret? ==> k + 1 < |ls|
  {
    var tail := ls[k..];
    assert ls[..k] + tail == ls;
    OkSplit(ls[..k], tail, {}, slots, slots);
    assert FollowOk(ls[k].ins, tail[1..]);
    assert tail[1..] == ls[k + 1..];
  }

  /** A pop that a push finds is not past a jump: jumps end their block. */
  lemma {:induction false} ScanQuiet(ls: seq<Line>, i: nat, slots: nat)
    requires Ok(ls, {}, slots, slots) && At(Shadowed, ls, i)
    ensures AllQuiet(ls[i + 1..PopFrom(ls, i + 1).value])
  {
    var j := PopFrom(ls, i + 1).value;
    forall k | i + 1 <= k < j ensures Quiet(ls[k].ins) {
      OkAt(ls, k, slots);
      if k + 2 < |ls| {
        OkAt(ls, k + 2, slots);
      }
    }
  }

  lemma {:induction false} PushPopSound(ls: seq<Line>, i: nat, slots: nat)
    requires Ok(ls, {}, slots, slots) && At(PushPop, ls, i)
    ensures var rs := Rewrite(PushPop, ls, i);
      Ok(rs, {}, slots, slots) && SameProgram(ls, rs) && |rs| == |ls| - Saved(PushPop) && rs[..i] == ls[..i]
  {
    var a := ls[i].ins.reg;
    assert ls[i + 1..i + 2] == [Line([], Kill(a))];
    var rs := PairSound(ls, i, i + 2, slots);
    assert DropKill([Line([], Kill(a))], a) == [];
    assert ls[..i] + [] + ls[i + 3..] == ls[..i] + ls[i + 3..];
  }

  lemma {:induction false} ThreeSound(pass: Pass, ls: seq<Line>, i: nat, slots: nat, one: Line)
    requires Ok(ls, {}, slots, slots) && At(pass, ls, i) && !pass.Shadowed?
    requires OneForThree([ls[i], ls[i + 1], ls[i + 2]], one, ls[i].ins.reg)
    requires Rewrite(pass, ls, i) == ls[..i] + [one] + ls[i + 3..] && Saved(pass) == 2
    ensures var rs := Rewrite(pass, ls, i);
      Ok(rs, {}, slots, slots) && SameProgram(ls, rs) && |rs| == |ls| - Saved(pass) && rs[..i] == ls[..i]
  {
    var three := [ls[i], ls[i + 1], ls[i + 2]];
    assert ls == ls[..i] + (three + ls[i + 3..]);
    ThreeInFunction(ls[..i], three, one, ls[i + 3..], slots, ls[i].ins.reg);
    assert Rewrite(pass, ls, i) == ls[..i] + ([one] + ls[i + 3..]);
  }

  /** Each pass: the discipline is kept, so is every run, and lines are saved. */
  lemma {:induction false} ApplySound(pass: Pass, ls: seq<Line>, i: nat, slots: nat)
    requires Ok(ls, {}, slots, slots) && At(pass, ls, i)
    ensures var rs := Rewrite(pass, ls, i);
      Ok(rs, {}, slots, slots) && SameProgram(ls, rs) && |rs| == |ls| - Saved(pass) && rs[..i] == ls[..i]
  {
    hide Ok, SameProgram, Rename;
    match pass
    case PushPop => PushPopSound(ls, i, slots);
    case Shadowed =>
      ScanQuiet(ls, i, slots);
      var rs := PairSound(ls, i, PopFrom(ls, i + 1).value, slots);
    case FnCall => ThreeSound(pass, ls, i, slots, Line(ls[i].labels, CallImm(ls[i].ins.f, ls[i + 1].ins.args)));
    case IntStore => ThreeSound(pass, ls, i, slots, Line(ls[i].labels, StoreImm(ls[i + 1].ins.slot, ls[i].ins.val)));
  }

  // ---------- All candidates of a pass ----------

  /** Rewrite the candidates from the last to the first; one that no longer matched would end
    * the pass. */
  function ApplyAll(pass: Pass, ls: seq<Line>, cs: seq<nat>): seq<Line>
    decreases |cs|
  {
    if cs == [] then ls else
    var c := cs[|cs| - 1];
    if At(pass, ls, c) then ApplyAll(pass, Rewrite(pass, ls, c), cs[..|cs| - 1]) else ls
  }

  lemma {:induction false} PopFromLocal(ls: seq<Line>, rs: seq<Line>, j: nat, n: nat)
    requires j <= |ls| && PopFrom(ls, j).Some? && PopFrom(ls, j).value < n <= |ls| && n <= |rs| && ls[..n] == rs[..n]
    ensures PopFrom(rs, j) == PopFrom(ls, j)
    decreases |ls| - j
  {
    assert ls[j] == ls[..n][j] == rs[..n][j] == rs[j];
    if !ls[j].ins.Pop? {
      PopFromLocal(ls, rs, j + 1, n);
    }
  }

  /** A candidate depends on its own lines only. */
  lemma {:induction false} AtLocal(pass: Pass, ls: seq<Line>, rs: seq<Line>, i: nat, n: nat)
    requires At(pass, ls, i) && EndOf(pass, ls, i) <= n <= |ls| && n <= |rs| && ls[..n] == rs[..n]
    ensures At(pass, rs, i) && EndOf(pass, rs, i) == EndOf(pass, ls, i)
  {
    assert forall k :: i <= k < n ==> ls[k] == ls[..n][k] && rs[k] == rs[..n][k];
    if pass == Shadowed {
      PopFromLocal(ls, rs, i + 1, n);
    }
  }

  lemma {:induction false} StillChained(pass: Pass, ls: seq<Line>, cs: seq<nat>, rs: seq<Line>)
    requires Chained(pass, ls, cs) && cs != []
    requires var n := cs[|cs| - 1]; n <= |rs| && rs[..n] == ls[..n]
    ensures Chained(pass, rs, cs[..|cs| - 1])
  {
    var n := cs[|cs| - 1];
    var front := cs[..|cs| - 1];
    forall k | 0 <= k < |front| ensures At(pass, rs, front[k]) && EndOf(pass, rs, front[k]) == EndOf(pass, ls, cs[k]) {
      AtLocal(pass, ls, rs, cs[k], n);
    }
  }

  /** The last candidate, rewritten: the others are still there. */
  lemma {:induction false} ApplyLast(pass: Pass, ls: seq<Line>, cs: seq<nat>, slots: nat) returns (rs: seq<Line>)
    requires Ok(ls, {}, slots, slots) && Chained(pass, ls, cs) && cs != []
    ensures rs == Rewrite(pass, ls, cs[|cs| - 1]) && Ok(rs, {}, slots, slots) && SameProgram(ls, rs)
    ensures |rs| + Saved(pass) == |ls|
    ensures Chained(pass, rs, cs[..|cs| - 1]) && ApplyAll(pass, ls, cs) == ApplyAll(pass, rs, cs[..|cs| - 1])
  {
    var c := cs[|cs| - 1];
    rs := Rewrite(pass, ls, c);
    ApplySound(pass, ls, c, slots);
    StillChained(pass, ls, cs, rs);
  }

  /** A whole pass: the discipline is kept, so is every run, and each candidate saves its lines. */
  lemma {:induction false} ApplyAllSound(pass: Pass, ls: seq<Line>, cs: seq<nat>, slots: nat)
    requires Ok(ls, {}, slots, slots) && Chained(pass, ls, cs)
    ensures var rs := ApplyAll(pass, ls, cs);
      Ok(rs, {}, slots, slots) && SameProgram(ls, rs) && |rs| + Saved(pass) * |cs| == |ls|
    decreases |cs|
  {
    hide Rewrite, Ok, SameProgram, At;
    if cs == [] {
      SelfSame(ls, {}, slots, slots);
    } else {
      var r1 := ApplyLast(pass, ls, cs, slots);
      ApplyAllSound(pass, r1, cs[..|cs| - 1], slots);
      SameProgramTrans(ls, r1, ApplyAll(pass, ls, cs));
    }
  }

  lemma {:induction false} CandidatesBelow(pass: Pass, ls: seq<Line>, n: nat)
    ensures forall i :: i in Candidates(pass, ls, n) <==> 0 <= i < n && At(pass, ls, i)
    decreases n
  {
    if n > 0 {
      CandidatesBelow(pass, ls, n - 1);
    }
  }

  /** Two candidates do not overlap. */
  lemma {:induction false} Apart(pass: Pass, ls: seq<Line>, i: nat, j: nat)
    requires At(pass, ls, i) && At(pass, ls, j) && i < j
    ensures EndOf(pass, ls, i) <= j
  {
    if pass == Shadowed {
      assert PollutesStack(ls[j].ins);
    }
  }

  lemma {:induction false} CandidatesChained(pass: Pass, ls: seq<Line>, n: nat)
    ensures Chained(pass, ls, Candidates(pass, ls, n))
    decreases n
  {
    if n > 0 {
      var front := Candidates(pass, ls, n - 1);
      CandidatesChained(pass, ls, n - 1);
      CandidatesBelow(pass, ls, n - 1);
      if At(pass, ls, n - 1) {
        forall k | 0 <= k < |front| ensures EndOf(pass, ls, front[k]) <= n - 1 {
          assert front[k] in front;
          Apart(pass, ls, front[k], n - 1);
        }
      }
    }
  }

  /** What a pass does to a function. */
  function RunPass(pass: Pass, ls: seq<Line>): seq<Line> {
    ApplyAll(pass, ls, Candidates(pass, ls, |ls|))
  }

  lemma {:induction false} PassSound(pass: Pass, ls: seq<Line>, slots: nat)
    requires Ok(ls, {}, slots, slots)
    ensures var rs := RunPass(pass, ls);
      && Ok(rs, {}, slots, slots) && SameProgram(ls, rs)
      && |rs| + Saved(pass) * |Candidates(pass, ls, |ls|)| == |ls|
      && (|rs| == |ls| ==> rs == ls && forall i: nat :: !At(pass, ls, i))
  {
    CandidatesChained(pass, ls, |ls|);
    ApplyAllSound(pass, ls, Candidates(pass, ls, |ls|), slots);
    CandidatesBelow(pass, ls, |ls|);
    if |RunPass(pass, ls)| == |ls| {
      assert Candidates(pass, ls, |ls|) == [];
    }
  }

  // ---------- Rounds ----------

  function Round(ls: seq<Line>): seq<Line> {
    RunPass(Shadowed, RunPass(IntStore, RunPass(FnCall, RunPass(PushPop, ls))))
  }

  /** No pass has anything left to do. */
  ghost predicate Finished(ls: seq<Line>) {
    forall pass: Pass, i: nat :: !At(pass, ls, i)
  }

  /** Three lines that one of the passes makes fewer. */
  predicate Fusible(x: Ins, y: Ins, z: Ins) {
    match (x, y, z)
    case (Push(a), Kill(b), Pop(_)) => a == b
    case (MovFn(a, _), CallReg(b, _), Kill(c)) => a == b == c
    case (MovInt(a, _), StoreReg(_, b), Kill(c)) => a == b == c
    case _ => false
  }

  /** Three lines in a row from here on cannot be fused; and if this one pushes, a label or an instruction that
    * uses the stack comes before every pop. */
  ghost predicate NothingAt(ls: seq<Line>, i: nat) {
    && (i < |ls| - 2 && ls[i + 1].labels == [] && ls[i + 2].labels == [] ==>
          !Fusible(ls[i].ins, ls[i + 1].ins, ls[i + 2].ins))
    && (forall j :: i < j < |ls| && ls[i].ins.Push? && ls[j].ins.Pop? && ls[j].labels == [] ==>
          exists k :: i < k < j && (ls[k].labels != [] || ls[k].ins.Push? || ls[k].ins.Pop? || ls[k].ins.CallReg? ||
                                    ls[k].ins.CallImm? || ls[k].ins.Binary?))
  }

  ghost predicate NothingToSave(ls: seq<Line>) {
    forall i: nat :: NothingAt(ls, i)
  }

  /** A pop is found exactly if nothing in between uses the stack. */
  lemma {:induction false} PopFromIff(ls: seq<Line>, j: nat, m: nat)
    requires j <= m < |ls| && ls[m].ins.Pop? && ls[m].labels == []
    requires forall k :: j <= k < m ==> ls[k].labels == [] && !PollutesStack(ls[k].ins)
    ensures PopFrom(ls, j) == Some(m)
    decreases m - j
  {
    if j < m {
      PopFromIff(ls, j + 1, m);
    }
  }

  lemma FusibleAt(ls: seq<Line>, i: nat)
    ensures At(PushPop, ls, i) || At(FnCall, ls, i) || At(IntStore, ls, i) <==>
            && i < |ls| - 2 && ls[i + 1].labels == [] && ls[i + 2].labels == []
            && Fusible(ls[i].ins, ls[i + 1].ins, ls[i + 2].ins)
  {}

  /** Nothing between two lines uses the stack or carries a label. */
  ghost predicate Untouched(ls: seq<Line>, i: nat, j: nat)
    requires j <= |ls|
  {
    forall k :: i < k < j ==> ls[k].labels == [] && !PollutesStack(ls[k].ins)
  }

  lemma {:induction false} ShadowedAt(ls: seq<Line>, i: nat)
    ensures At(Shadowed, ls, i) <==>
            && i < |ls| && ls[i].ins.Push?
            && exists j :: i < j < |ls| && ls[j].ins.Pop? && ls[j].labels == [] && Untouched(ls, i, j)
  {
    if i < |ls| && ls[i].ins.Push? {
      if j :| i < j < |ls| && ls[j].ins.Pop? && ls[j].labels == [] && Untouched(ls, i, j) {
        PopFromIff(ls, i + 1, j);
      }
      if At(Shadowed, ls, i) {
        assert Untouched(ls, i, PopFrom(ls, i + 1).value);
      }
    }
  }

  lemma {:induction false} NothingIff(ls: seq<Line>, i: nat)
    ensures !At(PushPop, ls, i) && !At(FnCall, ls, i) && !At(IntStore, ls, i) && !At(Shadowed, ls, i) <==>
            NothingAt(ls, i)
  {
    hide At, Fusible;
    FusibleAt(ls, i);
    ShadowedAt(ls, i);
    forall j | i < j < |ls|
      ensures !Untouched(ls, i, j) <==>
              exists k :: i < k < j && (ls[k].labels != [] || ls[k].ins.Push? || ls[k].ins.Pop? || ls[k].ins.CallReg? ||
                                        ls[k].ins.CallImm? || ls[k].ins.Binary?)
    {}
  }

  /** What the passes look for is all of this: when none finds anything, nothing is left to save. */
  lemma {:induction false} FinishedIff(ls: seq<Line>)
    ensures Finished(ls) <==> NothingToSave(ls)
  {
    hide At, NothingAt;
    forall i: nat
      ensures !At(PushPop, ls, i) && !At(FnCall, ls, i) && !At(IntStore, ls, i) && !At(Shadowed, ls, i) <==>
              NothingAt(ls, i)
    {
      NothingIff(ls, i);
    }
    if NothingToSave(ls) {
      forall pass: Pass, i: nat ensures !At(pass, ls, i) {
        assert NothingAt(ls, i);
        match pass
        case PushPop =>
        case FnCall =>
        case IntStore =>
        case Shadowed =>
      }
    }
  }

  /** One pass after others: what they saved together, and what it means to have saved nothing. */
  lemma {:induction false} NextPass(pass: Pass, ls: seq<Line>, mid: seq<Line>, slots: nat)
    requires Ok(mid, {}, slots, slots) && SameProgram(ls, mid) && |mid| <= |ls| && (|mid| == |ls| ==> mid == ls)
    ensures var rs := RunPass(pass, mid);
      && Ok(rs, {}, slots, slots) && SameProgram(ls, rs) && |rs| <= |mid|
      && (|rs| == |ls| ==> rs == mid == ls && forall i: nat :: !At(pass, ls, i))
  {
    PassSound(pass, mid, slots);
    SameProgramTrans(ls, mid, RunPass(pass, mid));
  }

  lemma {:induction false} RoundSound(ls: seq<Line>, slots: nat)
    requires Ok(ls, {}, slots, slots)
    ensures var rs := Round(ls);
      && Ok(rs, {}, slots, slots) && SameProgram(ls, rs) && |rs| <= |ls|
      && (|rs| == |ls| ==> rs == ls && Finished(ls))
  {
    hide RunPass, Ok, SameProgram;
    SelfSame(ls, {}, slots, slots);
    var l1 := RunPass(PushPop, ls);
    var l2 := RunPass(FnCall, l1);
    var l3 := RunPass(IntStore, l2);
    NextPass(PushPop, ls, ls, slots);
    NextPass(FnCall, ls, l1, slots);
    NextPass(IntStore, ls, l2, slots);
    NextPass(Shadowed, ls, l3, slots);
  }

  // ---------- The whole program ----------

  function Total(fs: seq<seq<Line>>): nat {
    if fs == [] then 0 else |fs[0]| + Total(fs[1..])
  }

  function RoundAll(fs: seq<seq<Line>>): (rs: seq<seq<Line>>)
    ensures |rs| == |fs|
    ensures forall k :: 0 <= k < |fs| ==> rs[k] == Round(fs[k])
  {
    if fs == [] then [] else [Round(fs[0])] + RoundAll(fs[1..])
  }

  /** Every function of the program obeys the discipline, with its own number of slots. */
  ghost predicate AllOk(fs: seq<seq<Line>>, slots: seq<nat>) {
    |slots| == |fs| && forall k :: 0 <= k < |fs| ==> Ok(fs[k], {}, slots[k], slots[k])
  }

  lemma {:induction false} RoundAllTotal(fs: seq<seq<Line>>, slots: seq<nat>)
    requires AllOk(fs, slots)
    ensures Total(RoundAll(fs)) <= Total(fs)
    ensures Total(RoundAll(fs)) == Total(fs) ==> RoundAll(fs) == fs && forall k :: 0 <= k < |fs| ==> Finished(fs[k])
    decreases |fs|
  {
    if fs != [] {
      RoundSound(fs[0], slots[0]);
      assert forall k :: 0 <= k < |fs[1..]| ==> fs[1..][k] == fs[k + 1] && slots[1..][k] == slots[k + 1];
      RoundAllTotal(fs[1..], slots[1..]);
      assert RoundAll(fs)[1..] == RoundAll(fs[1..]);
      if Total(RoundAll(fs)) == Total(fs) {
        assert fs == [fs[0]] + fs[1..];
      }
    }
  }

  lemma {:induction false} RoundAllOk(fs: seq<seq<Line>>, slots: seq<nat>)
    requires AllOk(fs, slots)
    ensures AllOk(RoundAll(fs), slots)
    ensures forall k :: 0 <= k < |fs| ==> SameProgram(fs[k], RoundAll(fs)[k])
  {
    forall k | 0 <= k < |fs| ensures Ok(RoundAll(fs)[k], {}, slots[k], slots[k]) &&
      SameProgram(fs[k], RoundAll(fs)[k]) {
      RoundSound(fs[k], slots[k]);
    }
  }

  /** Rounds over all functions until one saves nothing. */
  ghost function OptimizeAll(fs: seq<seq<Line>>, slots: seq<nat>): seq<seq<Line>>
    requires AllOk(fs, slots)
    decreases Total(fs)
  {
    RoundAllTotal(fs, slots);
    RoundAllOk(fs, slots);
    var rs := RoundAll(fs);
    if Total(rs) == Total(fs) then rs else OptimizeAll(rs, slots)
  }

  /** Optimising a program keeps every run of every function, keeps the register discipline, and
    * at the end none of the four patterns is left anywhere. */
  lemma {:induction false} OptimizeAllSound(fs: seq<seq<Line>>, slots: seq<nat>)
    requires AllOk(fs, slots)
    ensures var rs := OptimizeAll(fs, slots);
      && |rs| == |fs| && AllOk(rs, slots)
      && (forall k :: 0 <= k < |fs| ==> SameProgram(fs[k], rs[k]) && Finished(rs[k]))
    decreases Total(fs)
  {
    RoundAllTotal(fs, slots);
    RoundAllOk(fs, slots);
    var r1 := RoundAll(fs);
    if Total(r1) != Total(fs) {
      OptimizeAllSound(r1, slots);
      var rs := OptimizeAll(fs, slots);
      forall k | 0 <= k < |fs| ensures SameProgram(fs[k], rs[k]) {
        SameProgramTrans(fs[k], r1[k], rs[k]);
      }
    }
  }

  /** And in the optimised program no function has anything left to save. */
  lemma {:induction false} AllSaved(fs: seq<seq<Line>>, slots: seq<nat>)
    requires AllOk(fs, slots)
    ensures var rs := OptimizeAll(fs, slots);
      && |rs| == |fs| && AllOk(rs, slots)
      && forall k :: 0 <= k < |fs| ==> SameProgram(fs[k], rs[k]) && NothingToSave(rs[k])
  {
    hide OptimizeAll, SameProgram, Finished, NothingToSave, Ok;
    OptimizeAllSound(fs, slots);
    var rs := OptimizeAll(fs, slots);
    forall k | 0 <= k < |fs| ensures SameProgram(fs[k], rs[k]) && NothingToSave(rs[k]) {
      FinishedIff(rs[k]);
    }
  }
}
