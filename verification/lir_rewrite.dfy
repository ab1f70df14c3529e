/** The peephole rewrites, one at a time: what each does to runs and to the register discipline. */
module LirRewrite {
  import opened Values
  import opened Lir
  import opened LirLive

  /** The two machines agree but for registers: live register `r` is `Rho(b, a, r)` in `t`. */
  ghost predicate Agree(live: set<Reg>, s: State, t: State, b: Reg, a: Reg) {
    && s.frame == t.frame && s.stack == t.stack && s.w == t.w
    && forall r :: r in live ==> r in s.regs && Rho(b, a, r) in t.regs && s.regs[r] == t.regs[Rho(b, a, r)]
  }

  /** The two runs leave for the same place with the same frame, stack and world. */
  ghost predicate SameFlow(f: Flow, g: Flow) {
    match f
    case Fall(_) => false
    case Jump(t, s) => g.Jump? && g.target == t && Agree({}, s, g.st, 0, 0)
    case Exit(s) => g.Exit? && Agree({}, s, g.st, 0, 0)
    case Stop(r) => g == Stop(r)
  }

  ghost predicate StepAgree(f: Flow, g: Flow, live: set<Reg>, b: Reg, a: Reg) {
    if f.Fall? then g.Fall? && Agree(live, f.st, g.st, b, a) else SameFlow(f, g)
  }

  /** Either no renaming, or to a register whose interval is over. */
  predicate Renaming(live: set<Reg>, next: Reg, slots: nat, b: Reg, a: Reg) {
    a == b || (slots <= a < next && slots <= b < next && a !in live)
  }

  lemma {:induction false} CallAgree(f: Value, n: nat, live: set<Reg>, s: State, t: State, b: Reg, a: Reg, call: Callee)
    requires Agree(live, s, t, b, a)
    ensures StepAgree(CallWith(f, n, s, call), CallWith(f, n, t, call), live, b, a)
  {}

  lemma {:induction false} RenamingKept(ins: Ins, live: set<Reg>, next: Reg, slots: nat, b: Reg, a: Reg)
    requires LineOk(ins, live, next, slots) && Renaming(live, next, slots, b, a)
    ensures Renaming(LiveAfter(ins, live), NextAfter(ins, next), slots, b, a)
  {}

  /** A line that leaves the registers alone. */
  lemma {:induction false} ReadRenamed(ins: Ins, live: set<Reg>, next: Reg, slots: nat, s: State, t: State, b: Reg,
                                       a: Reg, call: Callee)
    requires LineOk(ins, live, next, slots) && Renaming(live, next, slots, b, a) && Agree(live, s, t, b, a)
    requires DefOf(ins).None? && !ins.Kill? && !ins.Binary?
    ensures StepAgree(StepIns(ins, s, call), StepIns(RenameIns(ins, b, a), t, call), live, b, a)
  {
    match ins
    case CallReg(r, n) => CallAgree(s.regs[r], n, live, s, t, b, a, call);
    case CallImm(f, n) => CallAgree(FnRef(f), n, live, s, t, b, a, call);
    case _ =>
  }

  /** A line that defines a register: a new one, so not the one renamed to. */
  lemma {:induction false} DefinitionRenamed(ins: Ins, live: set<Reg>, next: Reg, slots: nat, s: State, t: State,
                                             b: Reg, a: Reg,
                                             call: Callee)
    requires LineOk(ins, live, next, slots) && Sane(live, next, slots) && Renaming(live, next, slots, b, a)
    requires Agree(live, s, t, b, a) && DefOf(ins).Some?
    ensures StepAgree(StepIns(ins, s, call), StepIns(RenameIns(ins, b, a), t, call), LiveAfter(ins, live), b, a)
  {}

  lemma {:induction false} BinaryRenamed(ins: Ins, live: set<Reg>, next: Reg, slots: nat, s: State, t: State, b: Reg,
                                         a: Reg, call: Callee)
    requires ins.Binary? && LineOk(ins, live, next, slots) && Renaming(live, next, slots, b, a)
    requires Agree(live, s, t, b, a)
    ensures StepAgree(StepIns(ins, s, call), StepIns(RenameIns(ins, b, a), t, call), live, b, a)
  {}

  lemma {:induction false} KillRenamed(ins: Ins, live: set<Reg>, next: Reg, slots: nat, s: State, t: State, b: Reg,
                                       a: Reg, call: Callee)
    requires ins.Kill? && LineOk(ins, live, next, slots) && Renaming(live, next, slots, b, a) && Agree(live, s, t, b, a)
    ensures StepAgree(StepIns(ins, s, call), StepIns(RenameIns(ins, b, a), t, call), live - {ins.reg}, b, a)
  {}

  /** One line, and the same line renamed. */
  lemma {:induction false} StepRenamed(ins: Ins, live: set<Reg>, next: Reg, slots: nat, s: State, t: State, b: Reg,
                                       a: Reg, call: Callee)
    requires LineOk(ins, live, next, slots) && Sane(live, next, slots) && Renaming(live, next, slots, b, a)
    requires Agree(live, s, t, b, a)
    ensures StepAgree(StepIns(ins, s, call), StepIns(RenameIns(ins, b, a), t, call), LiveAfter(ins, live), b, a)
    ensures Renaming(LiveAfter(ins, live), NextAfter(ins, next), slots, b, a)
  {
    hide StepIns, StepAgree, RenameIns, LineOk, Agree, Renaming, Sane;
    RenamingKept(ins, live, next, slots, b, a);
    if DefOf(ins).Some? {
      DefinitionRenamed(ins, live, next, slots, s, t, b, a, call);
    } else if ins.Binary? {
      BinaryRenamed(ins, live, next, slots, s, t, b, a, call);
    } else if ins.Kill? {
      KillRenamed(ins, live, next, slots, s, t, b, a, call);
    } else {
      ReadRenamed(ins, live, next, slots, s, t, b, a, call);
    }
  }

  /** To the end of the block, with one register renamed. */
  lemma {:induction false} RunRenamed(ls: seq<Line>, live: set<Reg>, next: Reg, slots: nat, s: State, t: State, b: Reg,
                                      a: Reg, call: Callee)
    requires Ok(ls, live, next, slots) && ls != [] && Sane(live, next, slots) && Renaming(live, next, slots, b, a)
    requires Agree(live, s, t, b, a)
    ensures SameFlow(Straight(ls, s, call), Straight(Rename(ls, b, a), t, call))
    decreases |ls|
  {
    var ins := ls[0].ins;
    StepRenamed(ins, live, next, slots, s, t, b, a, call);
    assert Rename(ls, b, a)[1..] == Rename(ls[1..], b, a);
    var f := StepIns(ins, s, call);
    if f.Fall? {
      RunRenamed(ls[1..], LiveAfter(ins, live), NextAfter(ins, next), slots, f.st,
                 StepIns(RenameIns(ins, b, a), t, call).st, b, a, call);
    }
  }

  /** Both lists of lines do the same from states that agree on what is live. */
  ghost predicate Equivalent(xs: seq<Line>, ys: seq<Line>, live: set<Reg>) {
    forall s: State, t: State, call: Callee ::
      Agree(live, s, t, 0, 0) ==> SameFlow(Straight(xs, s, call), Straight(ys, t, call))
  }

  lemma {:induction false} RenameNothing(ls: seq<Line>, r: Reg)
    ensures Rename(ls, r, r) == ls
  {
    forall i | 0 <= i < |ls| ensures RenameIns(ls[i].ins, r, r) == ls[i].ins {}
  }

  lemma {:induction false} SelfEquivalent(ls: seq<Line>, live: set<Reg>, next: Reg, slots: nat)
    requires Ok(ls, live, next, slots) && ls != [] && Sane(live, next, slots)
    ensures Equivalent(ls, ls, live)
  {
    RenameNothing(ls, 0);
    forall s: State, t: State, call: Callee | Agree(live, s, t, 0, 0)
      ensures SameFlow(Straight(ls, s, call), Straight(ls, t, call))
    {
      RunRenamed(ls, live, next, slots, s, t, 0, 0, call);
    }
  }

  /** Rewriting a suffix rewrites the whole. */
  lemma {:induction false} InContext(ls: seq<Line>, xs: seq<Line>, ys: seq<Line>, live: set<Reg>, next: Reg, slots: nat)
    requires Ok(ls + xs, live, next, slots) && Sane(live, next, slots) && xs != []
    requires Equivalent(xs, ys, LiveAt(ls, live))
    ensures Equivalent(ls + xs, ls + ys, live)
    decreases |ls|
  {
    if ls == [] {
      assert ls + xs == xs && ls + ys == ys;
    } else {
      var ins := ls[0].ins;
      var live1 := LiveAfter(ins, live);
      assert (ls + xs)[1..] == ls[1..] + xs && (ls + ys)[1..] == ls[1..] + ys;
      OkSplit([ls[0]], ls[1..] + xs, live, next, slots) by { assert [ls[0]] + (ls[1..] + xs) == ls + xs; }
      assert LiveAt([ls[0]], live) == live1;
      InContext(ls[1..], xs, ys, live1, NextAfter(ins, next), slots);
      forall s: State, t: State, call: Callee | Agree(live, s, t, 0, 0)
        ensures SameFlow(Straight(ls + xs, s, call), Straight(ls + ys, t, call))
      {
        StepRenamed(ins, live, next, slots, s, t, 0, 0, call);
        assert RenameIns(ins, 0, 0) == ins;
        var f, g := StepIns(ins, s, call), StepIns(ins, t, call);
        if f.Fall? {
          assert SameFlow(Straight(ls[1..] + xs, f.st, call), Straight(ls[1..] + ys, g.st, call));
        }
      }
    }
  }

  // ---------- A push and the pop that takes its value ----------

  /** What may stand between the push and the pop: nothing that touches the stack or leaves. */
  predicate Quiet(ins: Ins) {
    match ins
    case Push(_) => false
    case Pop(_) => false
    case CallReg(_, _) => false
    case CallImm(_, _) => false
    case Binary(_, _, _) => false
    case Jmp(_) => false
    case JnzReg(_, _) => false
    case Ret => false
    case _ => true
  }

  predicate AllQuiet(ls: seq<Line>) {
    forall i :: 0 <= i < |ls| ==> ls[i].labels == [] && Quiet(ls[i].ins)
  }

  /** Without the first kill of `a`. */
  function DropKill(ls: seq<Line>, a: Reg): (r: seq<Line>)
    ensures |r| <= |ls|
  {
    if ls == [] then [] else if ls[0].ins == Kill(a) then ls[1..] else [ls[0]] + DropKill(ls[1..], a)
  }

  predicate HasKill(ls: seq<Line>, a: Reg) {
    exists i :: 0 <= i < |ls| && ls[i].ins == Kill(a)
  }

  /** The first machine has pushed the value that the second keeps in register `a`. */
  ghost predicate Pushed(live: set<Reg>, s: State, t: State, a: Reg) {
    && a in t.regs && s.stack == t.stack + [t.regs[a]]
    && s.frame == t.frame && s.w == t.w
    && forall r :: r in live ==> r in s.regs && r in t.regs && s.regs[r] == t.regs[r]
  }

  /** A quiet line, other than the kill of `a`, run on both machines. */
  lemma {:induction false} QuietStep(ins: Ins, live: set<Reg>, next: Reg, slots: nat, s: State, t: State, a: Reg,
                                     call: Callee)
    requires LineOk(ins, live, next, slots) && Quiet(ins) && a < next && ins != Kill(a)
    requires Pushed(live, s, t, a)
    ensures var f, g := StepIns(ins, s, call), StepIns(ins, t, call);
      f.Fall? && g.Fall? && Pushed(LiveAfter(ins, live), f.st, g.st, a)
  {}

  /** The pop takes back what was pushed, into a register that `a` can stand for. */
  lemma {:induction false} PairEnd(b: Reg, rest: seq<Line>, live: set<Reg>, next: Reg, slots: nat, s: State, t: State,
                                   a: Reg, call: Callee)
    requires Ok([Line([], Pop(b))] + rest, live, next, slots) && rest != []
    requires Sane(live, next, slots) && slots <= a < next && Pushed(live, s, t, a) && a !in live
    ensures SameFlow(Straight([Line([], Pop(b))] + rest, s, call), Straight(Rename(rest, b, a), t, call))
  {
    var all := [Line([], Pop(b))] + rest;
    assert all[1..] == rest;
    var f := StepIns(Pop(b), s, call);
    assert f.st.stack == t.stack;
    RunRenamed(rest, live + {b}, b + 1, slots, f.st, t, b, a, call);
  }

  /** The lines from the pop's partner on, and the same without the pair. */
  function Between(ms: seq<Line>, b: Reg, rest: seq<Line>): seq<Line> {
    ms + [Line([], Pop(b))] + rest
  }

  function Joined(ms: seq<Line>, b: Reg, rest: seq<Line>, a: Reg, dropped: bool): seq<Line> {
    (if dropped then ms else DropKill(ms, a)) + Rename(rest, b, a)
  }

  lemma {:induction false} BetweenTail(ms: seq<Line>, b: Reg, rest: seq<Line>, a: Reg, dropped: bool)
    requires ms != []
    ensures Between(ms, b, rest)[0] == ms[0] && Between(ms, b, rest)[1..] == Between(ms[1..], b, rest)
    ensures !dropped && ms[0].ins == Kill(a) ==> Joined(ms, b, rest, a, false) == Joined(ms[1..], b, rest, a, true)
    ensures dropped || ms[0].ins != Kill(a) ==>
              && Joined(ms, b, rest, a, dropped) != [] && Joined(ms, b, rest, a, dropped)[0] == ms[0]
              && Joined(ms, b, rest, a, dropped)[1..] == Joined(ms[1..], b, rest, a, dropped)
  {
    hide Rename;
    assert ms == [ms[0]] + ms[1..];
    ConsTail(ms[0], ms[1..], [Line([], Pop(b))] + rest);
    assert Between(ms, b, rest) == ms + ([Line([], Pop(b))] + rest);
    assert Between(ms[1..], b, rest) == ms[1..] + ([Line([], Pop(b))] + rest);
    ConsTail(ms[0], if dropped then ms[1..] else DropKill(ms[1..], a), Rename(rest, b, a));
  }

  lemma ConsTail(x: Line, xs: seq<Line>, ys: seq<Line>)
    ensures ([x] + xs + ys)[0] == x && ([x] + xs + ys)[1..] == xs + ys
  {}

  lemma {:induction false} HasKillTail(ms: seq<Line>, a: Reg)
    requires ms != [] && HasKill(ms, a) && ms[0].ins != Kill(a)
    ensures HasKill(ms[1..], a)
  {
    var i :| 0 <= i < |ms| && ms[i].ins == Kill(a);
    assert ms[1..][i - 1].ins == Kill(a);
  }

  /** From the lines after the push to the end of the block. */
  lemma {:induction false} PairRuns(ms: seq<Line>, b: Reg, rest: seq<Line>, live: set<Reg>, next: Reg, slots: nat,
                                    s: State, t: State, a: Reg, dropped: bool, call: Callee)
    requires Ok(Between(ms, b, rest), live, next, slots) && rest != []
    requires Sane(live, next, slots) && AllQuiet(ms) && slots <= a < next && Pushed(live, s, t, a)
    requires if dropped then a !in live else HasKill(ms, a)
    ensures SameFlow(Straight(Between(ms, b, rest), s, call), Straight(Joined(ms, b, rest, a, dropped), t, call))
    decreases |ms|
  {
    if ms == [] {
      assert Between(ms, b, rest) == [Line([], Pop(b))] + rest;
      assert Joined(ms, b, rest, a, dropped) == Rename(rest, b, a);
      PairEnd(b, rest, live, next, slots, s, t, a, call);
    } else {
      var ins := ms[0].ins;
      BetweenTail(ms, b, rest, a, dropped);
      if !dropped && ins == Kill(a) {
        PairRuns(ms[1..], b, rest, live - {a}, next, slots, StepIns(ins, s, call).st, t, a, true, call);
      } else {
        QuietStep(ins, live, next, slots, s, t, a, call);
        if !dropped {
          HasKillTail(ms, a);
        }
        PairRuns(ms[1..], b, rest, LiveAfter(ins, live), NextAfter(ins, next), slots,
                 StepIns(ins, s, call).st, StepIns(ins, t, call).st, a, dropped, call);
      }
    }
  }
}
