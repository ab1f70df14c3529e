/** From one rewrite to a whole function: the discipline is kept and so is every run.
  *
  * The lines that go stand between two labels, and a jump from elsewhere still finds its label with
  * lines behind it that do the same. */
module LirProgram {
  import opened Values
  import opened Lir
  import opened LirLive
  import opened LirRewrite

  /** Every label leads to lines that do the same. */
  ghost predicate SameProgram(xs: seq<Line>, ys: seq<Line>) {
    forall l: Label :: SameFrom(xs, ys, l)
  }

  ghost predicate SameFrom(xs: seq<Line>, ys: seq<Line>, l: Label) {
    && (From(xs, l) == [] <==> From(ys, l) == [])
    && (From(xs, l) != [] ==> Equivalent(From(xs, l), From(ys, l), {}))
  }

  lemma {:induction false} EquivalentTrans(xs: seq<Line>, ys: seq<Line>, zs: seq<Line>)
    requires Equivalent(xs, ys, {}) && Equivalent(ys, zs, {})
    ensures Equivalent(xs, zs, {})
  {
    forall s: State, t: State, call: Callee | Agree({}, s, t, 0, 0)
      ensures SameFlow(Straight(xs, s, call), Straight(zs, t, call))
    {
      assert Agree({}, s, s, 0, 0);
      assert SameFlow(Straight(xs, s, call), Straight(ys, s, call));
      assert SameFlow(Straight(ys, s, call), Straight(zs, t, call));
    }
  }

  lemma {:induction false} SameProgramTrans(xs: seq<Line>, ys: seq<Line>, zs: seq<Line>)
    requires SameProgram(xs, ys) && SameProgram(ys, zs)
    ensures SameProgram(xs, zs)
  {
    forall l: Label ensures SameFrom(xs, zs, l) {
      assert SameFrom(xs, ys, l) && SameFrom(ys, zs, l);
      if From(xs, l) != [] {
        EquivalentTrans(From(xs, l), From(ys, l), From(zs, l));
      }
    }
  }

  /** The same program runs the same way from every label, with the same fuel. */
  lemma {:induction false} SameRun(params: nat, xs: seq<Line>, ys: seq<Line>, l: Label, s: State, t: State,
                                   call: Callee, fuel: nat)
    requires SameProgram(xs, ys) && Agree({}, s, t, 0, 0)
    ensures Run(params, xs, l, s, call, fuel) == Run(params, ys, l, t, call, fuel)
    decreases fuel
  {
    assert SameFrom(xs, ys, l);
    if From(xs, l) != [] {
      var f, g := Straight(From(xs, l), s, call), Straight(From(ys, l), t, call);
      assert SameFlow(f, g);
      if f.Jump? && fuel > 0 {
        SameRun(params, xs, ys, f.target, f.st, g.st, call, fuel - 1);
      }
    }
  }

  // ---------- Labels in context ----------

  lemma {:induction false} OkFrom(ls: seq<Line>, live: set<Reg>, next: Reg, slots: nat, l: Label) returns (lower: Reg)
    requires Ok(ls, live, next, slots) && Sane(live, next, slots)
    ensures From(ls, l) != [] ==> Ok(From(ls, l), {}, lower, slots) && Sane({}, lower, slots) && next <= lower
    decreases |ls|
  {
    lower := next;
    if ls != [] && l !in ls[0].labels {
      OkSplit([ls[0]], ls[1..], live, next, slots) by { assert [ls[0]] + ls[1..] == ls; }
      assert NextAt([ls[0]], next) == NextAfter(ls[0].ins, next);
      assert LiveAt([ls[0]], live) == LiveAfter(ls[0].ins, live);
      lower := OkFrom(ls[1..], LiveAfter(ls[0].ins, live), NextAfter(ls[0].ins, next), slots, l);
    }
  }

  lemma {:induction false} SelfSame(ls: seq<Line>, live: set<Reg>, next: Reg, slots: nat)
    requires Ok(ls, live, next, slots) && Sane(live, next, slots)
    ensures SameProgram(ls, ls)
  {
    forall l: Label ensures SameFrom(ls, ls, l) {
      var lower := OkFrom(ls, live, next, slots, l);
      if From(ls, l) != [] {
        SelfEquivalent(From(ls, l), {}, lower, slots);
      }
    }
  }

  /** Rewriting a suffix of a function. */
  lemma {:induction false} SameInContext(ls: seq<Line>, xs: seq<Line>, ys: seq<Line>, live: set<Reg>, next: Reg,
                                         slots: nat, l: Label)
    requires Ok(ls + xs, live, next, slots) && Sane(live, next, slots) && xs != [] && ys != []
    requires Equivalent(xs, ys, LiveAt(ls, live)) && SameFrom(xs, ys, l)
    ensures SameFrom(ls + xs, ls + ys, l)
    decreases |ls|
  {
    if ls == [] {
      assert ls + xs == xs && ls + ys == ys;
    } else {
      assert (ls + xs)[0] == ls[0] && (ls + ys)[0] == ls[0];
      assert (ls + xs)[1..] == ls[1..] + xs && (ls + ys)[1..] == ls[1..] + ys;
      if l in ls[0].labels {
        InContext(ls, xs, ys, live, next, slots);
      } else {
        OkSplit([ls[0]], ls[1..] + xs, live, next, slots) by { assert [ls[0]] + (ls[1..] + xs) == ls + xs; }
        assert LiveAt([ls[0]], live) == LiveAfter(ls[0].ins, live);
        assert NextAt([ls[0]], next) == NextAfter(ls[0].ins, next);
        SameInContext(ls[1..], xs, ys, LiveAfter(ls[0].ins, live), NextAfter(ls[0].ins, next), slots, l);
      }
    }
  }

  lemma {:induction false} KillsStopShort(ls: seq<Line>, xs: seq<Line>, ys: seq<Line>, r: Reg)
    requires KillFollows(ls + xs, r) && xs != [] && !xs[0].ins.Kill?
    ensures KillFollows(ls + ys, r)
    decreases |ls|
  {
    if ls != [] {
      assert (ls + xs)[1..] == ls[1..] + xs && (ls + ys)[1..] == ls[1..] + ys;
      if ls[0].ins.reg != r {
        KillsStopShort(ls[1..], xs, ys, r);
      }
    }
  }

  /** What a line asks of those after it does not look past the rewritten line. */
  lemma {:induction false} FollowInContext(ins: Ins, ls: seq<Line>, xs: seq<Line>, ys: seq<Line>)
    requires FollowOk(ins, ls + xs) && xs != [] && ys != [] && !xs[0].ins.Kill? && !xs[0].ins.Jmp?
    requires xs[0].labels == ys[0].labels
    ensures FollowOk(ins, ls + ys)
  {
    if ins.Push? {
      KillsStopShort(ls, xs, ys, ins.reg);
    }
    if ls == [] {
      assert ls + xs == xs && ls + ys == ys;
    } else {
      assert (ls + xs)[0] == ls[0] == (ls + ys)[0];
      if |ls| > 1 {
        assert (ls + xs)[1] == ls[1] == (ls + ys)[1];
      } else {
        assert (ls + xs)[1] == xs[0];
      }
    }
  }

  lemma {:induction false} OkInContext(ls: seq<Line>, xs: seq<Line>, ys: seq<Line>, live: set<Reg>, next: Reg,
                                       slots: nat)
    requires Ok(ls + xs, live, next, slots) && xs != [] && ys != [] && !xs[0].ins.Kill? && !xs[0].ins.Jmp?
    requires xs[0].labels == ys[0].labels
    requires Ok(ys, LiveAt(ls, live), NextAt(ls, next), slots)
    ensures Ok(ls + ys, live, next, slots)
    decreases |ls|
  {
    if ls == [] {
      assert ls + ys == ys;
    } else {
      assert (ls + xs)[1..] == ls[1..] + xs && (ls + ys)[1..] == ls[1..] + ys;
      FollowInContext(ls[0].ins, ls[1..], xs, ys);
      OkInContext(ls[1..], xs, ys, LiveAfter(ls[0].ins, live), NextAfter(ls[0].ins, next), slots);
    }
  }

  // ---------- Removing a push and its pop ----------

  function PairLines(a: Reg, ms: seq<Line>, b: Reg, rest: seq<Line>): seq<Line> {
    [Line([], Push(a))] + Between(ms, b, rest)
  }

  lemma {:induction false} KillIsThere(ms: seq<Line>, b: Reg, rest: seq<Line>, a: Reg)
    requires KillFollows(Between(ms, b, rest), a)
    ensures HasKill(ms, a)
    decreases |ms|
  {
    if ms != [] {
      BetweenTail(ms, b, rest, a, true);
      if ms[0].ins != Kill(a) {
        KillIsThere(ms[1..], b, rest, a);
        var i :| 0 <= i < |ms[1..]| && ms[1..][i].ins == Kill(a);
        assert ms[i + 1].ins == Kill(a);
      }
    }
  }

  /** The register discipline without the pair: `a` lives on in the place of `b`. */
  lemma {:induction false} EndShape(b: Reg, rest: seq<Line>, live: set<Reg>, next: Reg, slots: nat, a: Reg,
                                    dropped: bool)
    requires Ok(Between([], b, rest), live, next, slots) && Sane(live, next, slots)
    ensures next <= b && Ok(rest, live + {b}, b + 1, slots) && Sane(live + {b}, b + 1, slots)
    ensures Joined([], b, rest, a, dropped) == Rename(rest, b, a)
  {
    hide Rename;
    var all := [Line([], Pop(b))] + rest;
    assert Between([], b, rest) == all && all[1..] == rest;
  }

  lemma {:induction false} JoinedEndOk(b: Reg, rest: seq<Line>, live: set<Reg>, next: Reg, slots: nat, a: Reg,
                                       dropped: bool)
    requires Ok(Between([], b, rest), live, next, slots) && rest != []
    requires Sane(live, next, slots) && slots <= a < next && a !in live
    ensures Ok(Joined([], b, rest, a, dropped), live + {a}, next, slots) && Joined([], b, rest, a, dropped) != []
    ensures next <= b
  {
    hide Rename, RenameSet;
    EndShape(b, rest, live, next, slots, a, dropped);
    OkRenamed(rest, live + {b}, b + 1, slots, b, a);
    assert RenameSet(live + {b}, b, a) == live + {a} by { SetRenamed(live, next, b, a); }
    OkLower(Rename(rest, b, a), live + {a}, b + 1, next, slots);
  }

  lemma {:induction false} JoinedOk(ms: seq<Line>, b: Reg, rest: seq<Line>, live: set<Reg>, next: Reg, slots: nat,
                                    a: Reg, dropped: bool)
    requires Ok(Between(ms, b, rest), live, next, slots) && rest != []
    requires Sane(live, next, slots) && AllQuiet(ms) && slots <= a < next
    requires if dropped then a !in live else HasKill(ms, a) && a in live
    ensures Ok(Joined(ms, b, rest, a, dropped), live + {a}, next, slots) && Joined(ms, b, rest, a, dropped) != []
    ensures NextAt(ms, next) <= b
    decreases |ms|
  {
    if ms == [] {
      JoinedEndOk(b, rest, live, next, slots, a, dropped);
    } else {
      var ins := ms[0].ins;
      BetweenTail(ms, b, rest, a, dropped);
      if !dropped && ins == Kill(a) {
        JoinedOk(ms[1..], b, rest, live - {a}, next, slots, a, true);
        assert live - {a} + {a} == live + {a};
      } else {
        if !dropped {
          HasKillTail(ms, a);
        }
        JoinedOk(ms[1..], b, rest, LiveAfter(ins, live), NextAfter(ins, next), slots, a, dropped);
        assert LiveAfter(ins, live + {a}) == LiveAfter(ins, live) + {a};
      }
    }
  }

  lemma {:induction false} SetRenamed(live: set<Reg>, next: Reg, b: Reg, a: Reg)
    requires forall r :: r in live ==> r < next && next <= b
    ensures RenameSet(live + {b}, b, a) == live + {a}
  {
    assert b in live + {b};
    assert Rho(b, a, b) == a;
    forall r | r in live ensures r in RenameSet(live + {b}, b, a) {
      assert r in live + {b} && Rho(b, a, r) == r;
    }
  }

  lemma {:induction false} FromRenamed(ls: seq<Line>, b: Reg, a: Reg, l: Label)
    ensures From(Rename(ls, b, a), l) == Rename(From(ls, l), b, a)
    decreases |ls|
  {
    if ls != [] {
      assert Rename(ls, b, a)[1..] == Rename(ls[1..], b, a);
      if l !in ls[0].labels {
        FromRenamed(ls[1..], b, a, l);
      }
    }
  }

  lemma {:induction false} FromQuiet(ms: seq<Line>, rest: seq<Line>, l: Label)
    requires AllQuiet(ms)
    ensures From(ms + rest, l) == From(rest, l)
    decreases |ms|
  {
    if ms == [] {
      assert ms + rest == rest;
    } else {
      assert (ms + rest)[1..] == ms[1..] + rest;
      FromQuiet(ms[1..], rest, l);
    }
  }

  lemma {:induction false} DropKillQuiet(ms: seq<Line>, a: Reg)
    requires AllQuiet(ms)
    ensures AllQuiet(DropKill(ms, a))
    ensures HasKill(ms, a) ==> |DropKill(ms, a)| == |ms| - 1
    ensures forall line :: line in DropKill(ms, a) ==> line in ms
    decreases |ms|
  {
    if ms != [] && ms[0].ins != Kill(a) {
      DropKillQuiet(ms[1..], a);
      if HasKill(ms, a) {
        HasKillTail(ms, a);
      }
    }
  }

  /** Labels after the pair lead to the same code with the register renamed. */
  lemma {:induction false} LabelsAfterPair(b: Reg, rest: seq<Line>, live: set<Reg>, next: Reg, slots: nat, a: Reg,
                                           l: Label)
    requires Ok(rest, live, next, slots) && Sane(live, next, slots) && slots <= a < next && slots <= b < next
    ensures SameFrom(rest, Rename(rest, b, a), l)
  {
    FromRenamed(rest, b, a, l);
    var lower := OkFrom(rest, live, next, slots, l);
    var tail := From(rest, l);
    if tail != [] {
      forall s: State, t: State, call: Callee | Agree({}, s, t, 0, 0)
        ensures SameFlow(Straight(tail, s, call), Straight(Rename(tail, b, a), t, call))
      {
        RunRenamed(tail, {}, lower, slots, s, t, b, a, call);
      }
    }
  }

  /** Removing the pair keeps the run from the push on. */
  lemma {:induction false} PairEquivalent(a: Reg, ms: seq<Line>, b: Reg, rest: seq<Line>, live: set<Reg>, next: Reg,
                                          slots: nat)
    requires Ok(PairLines(a, ms, b, rest), live, next, slots) && Sane(live, next, slots) && AllQuiet(ms) && rest != []
    ensures HasKill(ms, a) && a in live && Ok(Between(ms, b, rest), live, next, slots)
    ensures Equivalent(PairLines(a, ms, b, rest), Joined(ms, b, rest, a, false), live)
  {
    var xs := PairLines(a, ms, b, rest);
    assert xs[1..] == Between(ms, b, rest);
    KillIsThere(ms, b, rest, a);
    forall s: State, t: State, call: Callee | Agree(live, s, t, 0, 0)
      ensures SameFlow(Straight(xs, s, call), Straight(Joined(ms, b, rest, a, false), t, call))
    {
      assert Rho(0, 0, a) == a;
      PairRuns(ms, b, rest, live, next, slots, StepIns(Push(a), s, call).st, t, a, false, call);
    }
  }

  /** Removing a push and its pop, anywhere in a function. */
  lemma {:induction false} PairInFunction(ls: seq<Line>, a: Reg, ms: seq<Line>, b: Reg, rest: seq<Line>, slots: nat)
    requires Ok(ls + PairLines(a, ms, b, rest), {}, slots, slots) && AllQuiet(ms)
    ensures rest != [] && NextAt(ms, NextAt(ls, slots)) <= b && HasKill(ms, a)
    ensures Ok(ls + Joined(ms, b, rest, a, false), {}, slots, slots)
    ensures SameProgram(ls + PairLines(a, ms, b, rest), ls + Joined(ms, b, rest, a, false))
  {
    var xs, ys := PairLines(a, ms, b, rest), Joined(ms, b, rest, a, false);
    var live, next := LiveAt(ls, {}), NextAt(ls, slots);
    OkSplit(ls, xs, {}, slots, slots);
    RestIsThere(a, ms, b, rest, live, next, slots);
    PairEquivalent(a, ms, b, rest, live, next, slots);
    JoinedOk(ms, b, rest, live, next, slots, a, false);
    assert live + {a} == live;
    DropKillQuiet(ms, a);
    JoinedUnlabelled(ms, b, rest, live, next, slots, a);
    OkInContext(ls, xs, ys, {}, slots, slots);
    forall l: Label ensures SameFrom(ls + xs, ls + ys, l) {
      var pair := [Line([], Push(a))] + ms + [Line([], Pop(b))];
      assert xs == pair + rest;
      FromPair(a, ms, b, rest, l);
      FromQuiet(DropKill(ms, a), Rename(rest, b, a), l);
      OkSplit(pair, rest, live, next, slots);
      NextOfPair(a, ms, b, next);
      LabelsAfterPair(b, rest, LiveAt(pair, live), NextAt(pair, next), slots, a, l);
      SameInContext(ls, xs, ys, {}, slots, slots, l);
    }
  }

  lemma {:induction false} FromPair(a: Reg, ms: seq<Line>, b: Reg, rest: seq<Line>, l: Label)
    requires AllQuiet(ms)
    ensures From(PairLines(a, ms, b, rest), l) == From(rest, l)
  {
    var tail := [Line([], Pop(b))] + rest;
    assert tail[1..] == rest;
    assert PairLines(a, ms, b, rest)[1..] == ms + tail;
    FromQuiet(ms, tail, l);
  }

  lemma {:induction false} NextOfPair(a: Reg, ms: seq<Line>, b: Reg, next: Reg)
    ensures NextAt([Line([], Push(a))] + ms + [Line([], Pop(b))], next) == b + 1
  {
    var all := [Line([], Push(a))] + ms + [Line([], Pop(b))];
    assert all[1..] == ms + [Line([], Pop(b))];
    NextAtLast(ms, b, next);
  }

  lemma {:induction false} NextAtLast(ms: seq<Line>, b: Reg, next: Reg)
    ensures NextAt(ms + [Line([], Pop(b))], next) == b + 1
    decreases |ms|
  {
    var all := ms + [Line([], Pop(b))];
    if ms == [] {
      assert all[1..] == [];
    } else {
      assert all[1..] == ms[1..] + [Line([], Pop(b))];
      NextAtLast(ms[1..], b, NextAfter(ms[0].ins, next));
    }
  }

  lemma {:induction false} RestIsThere(a: Reg, ms: seq<Line>, b: Reg, rest: seq<Line>, live: set<Reg>, next: Reg,
                                       slots: nat)
    requires Ok(PairLines(a, ms, b, rest), live, next, slots) && Sane(live, next, slots)
    ensures rest != []
  {
    var front := [Line([], Push(a))] + ms;
    var tail := [Line([], Pop(b))] + rest;
    assert PairLines(a, ms, b, rest) == front + tail;
    OkSplit(front, tail, live, next, slots);
    assert tail[1..] == rest;
  }

  /** The first line after the removal carries no label: something is still live there. */
  lemma {:induction false} JoinedUnlabelled(ms: seq<Line>, b: Reg, rest: seq<Line>, live: set<Reg>, next: Reg,
                                            slots: nat, a: Reg)
    requires a in live && Joined(ms, b, rest, a, false) != []
    requires Ok(Joined(ms, b, rest, a, false), live, next, slots)
    ensures Joined(ms, b, rest, a, false)[0].labels == []
  {}

  // ---------- Three lines into one ----------

  /** The three lines and the one that replaces them. */
  predicate OneForThree(three: seq<Line>, one: Line, r: Reg) {
    && |three| == 3 && one.labels == three[0].labels
    && three[1].labels == [] && three[2] == Line([], Kill(r))
    && ((three[0].ins.MovFn? && three[0].ins.reg == r && three[1].ins.CallReg? && three[1].ins.reg == r
         && one.ins == CallImm(three[0].ins.f, three[1].ins.args))
        || (three[0].ins.MovInt? && three[0].ins.reg == r && three[1].ins.StoreReg? && three[1].ins.reg == r
            && one.ins == StoreImm(three[1].ins.slot, three[0].ins.val)))
  }

  /** Where the three lines leave the discipline. */
  lemma {:induction false} ThreeOk(three: seq<Line>, one: Line, rest: seq<Line>, live: set<Reg>, next: Reg, slots: nat,
                                   r: Reg)
    requires OneForThree(three, one, r) && Ok(three + rest, live, next, slots) && Sane(live, next, slots)
    ensures rest != [] && Ok(rest, live, r + 1, slots) && Sane(live, r + 1, slots) && next <= r
    ensures Ok([one] + rest, live, next, slots)
  {
    var all := three + rest;
    var all1 := all[1..];
    var all2 := all1[1..];
    assert all[0] == three[0] && all1[0] == three[1] && all2[0] == three[2] && all2[1..] == rest;
    assert Ok(all1, live + {r}, r + 1, slots);
    assert Ok(all2, live + {r}, r + 1, slots);
    assert live + {r} - {r} == live;
    assert ([one] + rest)[1..] == rest;
    if one.ins.CallImm? {
      assert r in live + {r};
    }
    OkLower(rest, live, r + 1, next, slots);
  }

  lemma {:induction false} ThreeRun(three: seq<Line>, rest: seq<Line>, s: State, call: Callee, f: Flow)
    requires |three| == 3 && StepIns(three[0].ins, s, call).Fall?
    requires f == StepIns(three[1].ins, StepIns(three[0].ins, s, call).st, call)
    ensures Straight(three + rest, s, call) ==
            if !f.Fall? then f
            else if StepIns(three[2].ins, f.st, call).Fall? then Straight(rest, StepIns(three[2].ins, f.st, call).st,
                                                                          call)
            else StepIns(three[2].ins, f.st, call)
  {
    var all := three + rest;
    var all1 := all[1..];
    var all2 := all1[1..];
    assert all[0] == three[0] && all1[0] == three[1] && all2[0] == three[2] && all2[1..] == rest;
    var s1 := StepIns(three[0].ins, s, call).st;
    assert Straight(all, s, call) == Straight(all1, s1, call);
    if f.Fall? {
      assert Straight(all1, s1, call) == Straight(all2, f.st, call);
    }
  }

  lemma {:induction false} ThreeEquivalent(three: seq<Line>, one: Line, rest: seq<Line>, live: set<Reg>, next: Reg,
                                           slots: nat, r: Reg)
    requires OneForThree(three, one, r) && Ok(three + rest, live, next, slots) && Sane(live, next, slots)
    ensures Equivalent(three + rest, [one] + rest, live)
  {
    hide StepIns, Ok, Sane, Agree, Rename;
    ThreeOk(three, one, rest, live, next, slots, r);
    RenameNothing(rest, 0);
    forall s: State, t: State, call: Callee | Agree(live, s, t, 0, 0)
      ensures SameFlow(Straight(three + rest, s, call), Straight([one] + rest, t, call))
    {
      OneStep(three, one, live, next, slots, r, s, t, call);
      var s1 := StepIns(three[0].ins, s, call).st;
      var f, g := StepIns(three[1].ins, s1, call), StepIns(one.ins, t, call);
      assert ([one] + rest)[1..] == rest;
      ThreeRun(three, rest, s, call, f);
      if f.Fall? {
        RunRenamed(rest, live, r + 1, slots, StepIns(three[2].ins, f.st, call).st, g.st, 0, 0, call);
      }
    }
  }

  /** The one line does what the first two do; the kill makes the registers agree. */
  lemma {:induction false} OneStep(three: seq<Line>, one: Line, live: set<Reg>, next: Reg, slots: nat, r: Reg, s: State,
                                   t: State, call: Callee)
    requires OneForThree(three, one, r) && Sane(live, next, slots) && next <= r && Agree(live, s, t, 0, 0)
    ensures StepIns(three[0].ins, s, call).Fall?
    ensures var f, g := StepIns(three[1].ins, StepIns(three[0].ins, s, call).st, call), StepIns(one.ins, t, call);
      if f.Fall? then g.Fall? && StepIns(three[2].ins, f.st, call).Fall?
                      && Agree(live, StepIns(three[2].ins, f.st, call).st, g.st, 0, 0)
      else SameFlow(f, g)
  {
    if one.ins.CallImm? {
      var s1 := StepIns(three[0].ins, s, call).st;
      assert s1.regs[r] == FnRef(one.ins.f);
    }
  }

  lemma {:induction false} ThreeInFunction(ls: seq<Line>, three: seq<Line>, one: Line, rest: seq<Line>, slots: nat,
                                           r: Reg)
    requires OneForThree(three, one, r) && Ok(ls + (three + rest), {}, slots, slots)
    ensures Ok(ls + ([one] + rest), {}, slots, slots)
    ensures SameProgram(ls + (three + rest), ls + ([one] + rest))
  {
    var xs, ys := three + rest, [one] + rest;
    var live, next := LiveAt(ls, {}), NextAt(ls, slots);
    OkSplit(ls, xs, {}, slots, slots);
    ThreeOk(three, one, rest, live, next, slots, r);
    ThreeEquivalent(three, one, rest, live, next, slots, r);
    OkInContext(ls, xs, ys, {}, slots, slots);
    forall l: Label ensures SameFrom(ls + xs, ls + ys, l) {
      var xs1 := xs[1..];
      var xs2 := xs1[1..];
      assert xs[0] == three[0] && xs1[0] == three[1] && xs2[0] == three[2] && xs2[1..] == rest && ys[1..] == rest;
      SelfSame(rest, live, r + 1, slots);
      assert SameFrom(rest, rest, l);
      if l !in three[0].labels {
        assert From(xs, l) == From(xs1, l) == From(xs2, l) == From(rest, l);
      }
      SameInContext(ls, xs, ys, {}, slots, slots, l);
    }
  }
}
