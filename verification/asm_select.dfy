/** Choosing machine registers for virtual ones: what `AsmGen` does line after line, and that it is
  * sound on generated lines. */
module AsmSelect {
  import opened Values
  import M = Mir
  import MirShape
  import opened Lir
  import opened LirLive
  import opened LirGen
  import opened LirGenLive
  import LirProgram

  /** `rax, rdi, rsi, rdx, rcx, r8, r9, r10, r11`. */
  const MACHINE_REGS: nat := 9

  /** The machine register chosen for each live virtual register. */
  type Selection = map<Reg, nat>

  /** A register seen for the first time gets the machine register numbered by how many are live. */
  function AllocReg(sel: Selection, r: Reg): Option<Selection> {
    if r in sel then Some(sel)
    else if |sel| < MACHINE_REGS then Some(sel[r := |sel|])
    else None
  }

  /** The registers an instruction names, in the order in which its text names them. */
  function Uses(ins: Ins): seq<Reg> {
    match ins
    case MovInt(r, _) => [r]
    case MovString(r, _) => [r]
    case MovFn(r, _) => [r]
    case Push(r) => [r]
    case Pop(r) => [r]
    case Load(r, _) => [r]
    case StoreReg(_, r) => [r]
    case CallReg(r, _) => [r]
    case JnzReg(r, _) => [r]
    case Binary(_, d, s) => [d, s]
    case _ => []
  }

  function AllocAll(sel: Selection, rs: seq<Reg>): (out: Option<Selection>)
    ensures out.Some? ==> forall r :: r in rs ==> r in out.value
    ensures out.Some? ==> forall r :: r in sel ==> r in out.value && out.value[r] == sel[r]
    decreases |rs|
  {
    if rs == [] then Some(sel) else
    match AllocReg(sel, rs[0])
    case None => None
    case Some(sel1) => AllocAll(sel1, rs[1..])
  }

  function InsOver(ins: Ins, sel: Selection): Ins
    requires forall r :: r in Uses(ins) ==> r in sel
  {
    match ins
    case MovInt(r, n) => assert r in Uses(ins); MovInt(sel[r], n)
    case MovString(r, s) => assert r in Uses(ins); MovString(sel[r], s)
    case MovFn(r, f) => assert r in Uses(ins); MovFn(sel[r], f)
    case Push(r) => assert r in Uses(ins); Push(sel[r])
    case Pop(r) => assert r in Uses(ins); Pop(sel[r])
    case Load(r, s) => assert r in Uses(ins); Load(sel[r], s)
    case StoreReg(s, r) => assert r in Uses(ins); StoreReg(s, sel[r])
    case CallReg(r, n) => assert r in Uses(ins); CallReg(sel[r], n)
    case JnzReg(r, t) => assert r in Uses(ins); JnzReg(sel[r], t)
    case Binary(op, d, s) => assert d in Uses(ins) && s in Uses(ins); Binary(op, sel[d], sel[s])
    case Kill(_) => Nop
    case _ => ins
  }

  function Forget(ins: Ins, sel: Selection): Selection {
    if ins.Kill? then sel - {ins.reg} else sel
  }

  /** The lines over machine registers; None when the registers run out. */
  function Select(ls: seq<Line>, sel: Selection): Option<seq<Line>> {
    if ls == [] then Some([]) else
    match AllocAll(sel, Uses(ls[0].ins))
    case None => None
    case Some(sel1) =>
      match Select(ls[1..], Forget(ls[0].ins, sel1))
      case None => None
      case Some(rest) => Some([Line(ls[0].labels, InsOver(ls[0].ins, sel1))] + rest)
  }

  // ---------- When no two live registers share a machine register ----------

  ghost predicate Injective(sel: Selection) {
    forall r, s :: r in sel && s in sel && sel[r] == sel[s] ==> r == s
  }

  /** At every line at most `most` registers are live, each in a machine register of its own
    * below `most`. */
  ghost predicate Apart(ls: seq<Line>, sel: Selection, most: nat) {
    ls == [] ||
    (&& (ls[0].labels != [] ==> sel == map[])
     && AllocAll(sel, Uses(ls[0].ins)).Some?
     && (var sel1 := AllocAll(sel, Uses(ls[0].ins)).value;
         && Injective(sel1) && |sel1| <= most && (forall r :: r in sel1 ==> sel1[r] < most)
         && Apart(ls[1..], Forget(ls[0].ins, sel1), most)))
  }

  ghost predicate RelM(sel: Selection, s: State, t: State) {
    && s.frame == t.frame && s.stack == t.stack && s.w == t.w
    && forall r :: r in sel ==> r in s.regs && sel[r] in t.regs && s.regs[r] == t.regs[sel[r]]
  }

  ghost predicate SameEnd(sel: Selection, f: Flow, g: Flow) {
    match f
    case Fall(s) => g.Fall? && RelM(sel, s, g.st)
    case Jump(l, s) => g.Jump? && g.target == l && RelM(map[], s, g.st)
    case Exit(s) => g.Exit? && RelM(map[], s, g.st)
    case Stop(r) => g == f
  }

  lemma {:induction false} AllocOne(sel: Selection, r: Reg)
    ensures AllocAll(sel, [r]) == AllocReg(sel, r)
  {
    assert AllocReg(sel, r).Some? ==> AllocAll(AllocReg(sel, r).value, []) == AllocReg(sel, r);
  }

  lemma {:induction false} SetBoth(sel: Selection, sel1: Selection, r: Reg, v: Value, s: State, t: State)
    requires RelM(sel, s, t) && Injective(sel1) && r in sel1
    requires forall q :: q in sel1 ==> q == r || (q in sel && sel[q] == sel1[q])
    ensures RelM(sel1, Set(s, r, v), Set(t, sel1[r], v))
  {}

  lemma {:induction false} PopSelected(sel: Selection, sel1: Selection, r: Reg, s: State, t: State, call: Callee)
    requires RelM(sel, s, t) && Injective(sel1) && r in sel1
    requires forall q :: q in sel1 ==> q == r || (q in sel && sel[q] == sel1[q])
    ensures SameEnd(sel1, StepIns(Pop(r), s, call), StepIns(Pop(sel1[r]), t, call))
  {
    if |s.stack| > 0 {
      SetBoth(sel, sel1, r, s.stack[|s.stack| - 1], s, t);
    }
  }

  /** A line that defines a register. */
  lemma {:induction false} DefineSelected(ins: Ins, live: set<Reg>, next: Reg, slots: nat, sel: Selection,
                                          sel1: Selection,
                                          s: State, t: State, call: Callee)
    requires LineOk(ins, live, next, slots) && Sane(live, next, slots) && sel.Keys == live && RelM(sel, s, t)
    requires AllocAll(sel, Uses(ins)) == Some(sel1) && Injective(sel1) && DefOf(ins).Some?
    ensures SameEnd(sel1, StepIns(ins, s, call), StepIns(InsOver(ins, sel1), t, call))
    ensures sel1.Keys == LiveAfter(ins, live)
  {
    hide AllocAll, RelM, Injective, Sane, SameEnd;
    var r := DefOf(ins).value;
    OneDefined(ins, live, next, slots, sel, sel1);
    match ins
    case Pop(_) => PopSelected(sel, sel1, r, s, t, call);
    case MovInt(_, n) => FallBoth(sel, sel1, r, Literal(n), s, t);
    case MovString(_, x) => FallBoth(sel, sel1, r, StrRef(x), s, t);
    case MovFn(_, f) => FallBoth(sel, sel1, r, FnRef(f), s, t);
    case Load(_, slot) =>
      SameFrames(sel, s, t);
      FallBoth(sel, sel1, r, Get(s.frame, slot), s, t);
  }

  lemma SameFrames(sel: Selection, s: State, t: State)
    requires RelM(sel, s, t)
    ensures s.frame == t.frame
  {}

  lemma FallBoth(sel: Selection, sel1: Selection, r: Reg, v: Value, s: State, t: State)
    requires RelM(sel, s, t) && Injective(sel1) && r in sel1
    requires forall q :: q in sel1 ==> q == r || (q in sel && sel[q] == sel1[q])
    ensures SameEnd(sel1, Fall(Set(s, r, v)), Fall(Set(t, sel1[r], v)))
  {
    SetBoth(sel, sel1, r, v, s, t);
  }

  /** A defining line allocates its own register at most. */
  lemma {:induction false} OneDefined(ins: Ins, live: set<Reg>, next: Reg, slots: nat, sel: Selection, sel1: Selection)
    requires DefOf(ins).Some? && sel.Keys == live && AllocAll(sel, Uses(ins)) == Some(sel1)
    ensures var r := DefOf(ins).value;
      && Uses(ins) == [r] && r in sel1 && sel1.Keys == live + {r}
      && (forall q :: q in sel1 ==> q == r || (q in sel && sel[q] == sel1[q]))
  {
    hide AllocAll;
    var r := DefOf(ins).value;
    assert Uses(ins) == [r];
    AllocOne(sel, r);
    OneAllocated(sel, r, sel1);
  }

  lemma OneAllocated(sel: Selection, r: Reg, sel1: Selection)
    requires AllocReg(sel, r) == Some(sel1)
    ensures r in sel1 && sel1.Keys == sel.Keys + {r}
    ensures forall q :: q in sel1 ==> q == r || (q in sel && sel[q] == sel1[q])
  {}

  /** A line that names live registers only allocates none. */
  lemma {:induction false} NoneAllocated(ins: Ins, live: set<Reg>, next: Reg, slots: nat, sel: Selection)
    requires LineOk(ins, live, next, slots) && sel.Keys == live && DefOf(ins).None?
    ensures AllocAll(sel, Uses(ins)) == Some(sel)
  {
    assert AllocAll(sel, []) == Some(sel);
    if ins.Binary? {
      AllocOne(sel, ins.src);
      assert [ins.dst, ins.src][1..] == [ins.src];
    } else if |Uses(ins)| == 1 {
      AllocOne(sel, Uses(ins)[0]);
      assert Uses(ins) == [Uses(ins)[0]];
    }
  }

  lemma {:induction false} UseSelected(ins: Ins, live: set<Reg>, next: Reg, slots: nat, sel: Selection,
                                       s: State, t: State, call: Callee)
    requires LineOk(ins, live, next, slots) && Sane(live, next, slots) && sel.Keys == live && RelM(sel, s, t)
    requires Injective(sel) && DefOf(ins).None? && (forall r :: r in Uses(ins) ==> r in sel)
    ensures SameEnd(Forget(ins, sel), StepIns(ins, s, call), StepIns(InsOver(ins, sel), t, call))
    ensures Forget(ins, sel).Keys == LiveAfter(ins, live)
  {
    match ins
    case Binary(op, d, src) =>
      var v := Apply(op, s.regs[d], s.regs[src]);
      if v.Some? {
        SetBoth(sel, sel, d, v.value, s, t);
      }
    case Push(r) => assert r in sel;
    case CallReg(r, _) => assert r in sel;
    case _ =>
  }

  /** One line: the machine registers hold what the virtual ones do. */
  lemma {:induction false} StepSelected(ins: Ins, live: set<Reg>, next: Reg, slots: nat, sel: Selection,
                                        sel1: Selection,
                                        s: State, t: State, call: Callee)
    requires LineOk(ins, live, next, slots) && Sane(live, next, slots) && sel.Keys == live && RelM(sel, s, t)
    requires AllocAll(sel, Uses(ins)) == Some(sel1) && Injective(sel1)
    ensures SameEnd(Forget(ins, sel1), StepIns(ins, s, call), StepIns(InsOver(ins, sel1), t, call))
    ensures Forget(ins, sel1).Keys == LiveAfter(ins, live)
  {
    if DefOf(ins).Some? {
      DefineSelected(ins, live, next, slots, sel, sel1, s, t, call);
    } else {
      NoneAllocated(ins, live, next, slots, sel);
      UseSelected(ins, live, next, slots, sel, s, t, call);
    }
  }

  lemma {:induction false} SelectCons(line: Line, rest: seq<Line>, sel: Selection, most: nat)
    returns (sel1: Selection, out: seq<Line>)
    requires Apart([line] + rest, sel, most)
    ensures AllocAll(sel, Uses(line.ins)) == Some(sel1) && Injective(sel1)
    ensures Apart(rest, Forget(line.ins, sel1), most) && Select(rest, Forget(line.ins, sel1)) == Some(out)
    ensures Select([line] + rest, sel) == Some([Line(line.labels, InsOver(line.ins, sel1))] + out)
  {
    assert ([line] + rest)[1..] == rest;
    sel1 := AllocAll(sel, Uses(line.ins)).value;
    Selectable(rest, Forget(line.ins, sel1), most);
    out := Select(rest, Forget(line.ins, sel1)).value;
  }

  ghost predicate SameStop(f: Flow, g: Flow) {
    f.Fall? == g.Fall? && (!f.Fall? ==> SameEnd(map[], f, g))
  }

  lemma {:induction false} ConsSelected(a: Line, rest: seq<Line>, b: Line, out: seq<Line>, sel: Selection, s: State,
                                        t: State, call: Callee)
    requires SameEnd(sel, StepIns(a.ins, s, call), StepIns(b.ins, t, call))
    requires StepIns(a.ins, s, call).Fall? ==>
               SameStop(Straight(rest, StepIns(a.ins, s, call).st, call),
                        Straight(out, StepIns(b.ins, t, call).st, call))
    ensures SameStop(Straight([a] + rest, s, call), Straight([b] + out, t, call))
  {
    LirGen.Cons(a, rest, s, call);
    LirGen.Cons(b, out, t, call);
  }

  lemma OkHead(ls: seq<Line>, live: set<Reg>, next: Reg, slots: nat)
    requires Ok(ls, live, next, slots) && Sane(live, next, slots) && ls != []
    ensures LineOk(ls[0].ins, live, next, slots)
    ensures Ok(ls[1..], LiveAfter(ls[0].ins, live), NextAfter(ls[0].ins, next), slots)
    ensures Sane(LiveAfter(ls[0].ins, live), NextAfter(ls[0].ins, next), slots)
  {}

  lemma NothingSelected(sel: Selection, s: State, t: State, call: Callee)
    ensures Select([], sel) == Some([]) && SameStop(Straight([], s, call), Straight([], t, call))
  {}

  lemma {:induction false} StraightSelected(ls: seq<Line>, live: set<Reg>, next: Reg, slots: nat, sel: Selection,
                                            most: nat,
                                            s: State, t: State, call: Callee)
    requires Ok(ls, live, next, slots) && Sane(live, next, slots) && sel.Keys == live && RelM(sel, s, t)
    requires Apart(ls, sel, most)
    ensures Select(ls, sel).Some?
    ensures SameStop(Straight(ls, s, call), Straight(Select(ls, sel).value, t, call))
    decreases |ls|
  {
    hide Apart, Select, Straight, Ok, LineOk, Sane;
    if ls == [] {
      NothingSelected(sel, s, t, call);
    } else {
      OkHead(ls, live, next, slots);
      var ins, rest := ls[0].ins, ls[1..];
      assert [ls[0]] + rest == ls;
      var sel1, out := SelectCons(ls[0], rest, sel, most);
      var sel2 := Forget(ins, sel1);
      StepSelected(ins, live, next, slots, sel, sel1, s, t, call);
      var f, g := StepIns(ins, s, call), StepIns(InsOver(ins, sel1), t, call);
      if f.Fall? {
        StraightSelected(rest, LiveAfter(ins, live), NextAfter(ins, next), slots, sel2, most, f.st, g.st, call);
      }
      ConsSelected(ls[0], rest, Line(ls[0].labels, InsOver(ins, sel1)), out, sel2, s, t, call);
    }
  }

  lemma {:induction false} Selectable(ls: seq<Line>, sel: Selection, most: nat)
    requires Apart(ls, sel, most)
    ensures Select(ls, sel).Some?
    decreases |ls|
  {
    if ls != [] {
      Selectable(ls[1..], Forget(ls[0].ins, AllocAll(sel, Uses(ls[0].ins)).value), most);
    }
  }

  /** Labels stay where they are. */
  lemma {:induction false} SelectFrom(ls: seq<Line>, sel: Selection, most: nat, l: Label)
    requires Apart(ls, sel, most)
    ensures Select(ls, sel).Some? && Apart(From(ls, l), map[], most) && Select(From(ls, l), map[]).Some?
    ensures From(Select(ls, sel).value, l) == Select(From(ls, l), map[]).value
    decreases |ls|
  {
    if ls != [] {
      assert [ls[0]] + ls[1..] == ls;
      var sel1, out := SelectCons(ls[0], ls[1..], sel, most);
      if l !in ls[0].labels {
        SelectFrom(ls[1..], Forget(ls[0].ins, sel1), most, l);
        var line := Line(ls[0].labels, InsOver(ls[0].ins, sel1));
        assert ([line] + out)[1..] == out;
      }
    }
  }

  /** Where no two live registers share a machine register, running over machine registers is
    * running over virtual ones: with the same fuel, the same outcome. */
  lemma {:induction false} ApartRuns(params: nat, ls: seq<Line>, slots: nat, most: nat, l: Label, s: State, t: State,
                                     call: Callee, fuel: nat)
    requires Ok(ls, {}, slots, slots) && Apart(ls, map[], most) && RelM(map[], s, t)
    ensures Select(ls, map[]).Some?
    ensures Run(params, ls, l, s, call, fuel) == Run(params, Select(ls, map[]).value, l, t, call, fuel)
    decreases fuel
  {
    SelectFrom(ls, map[], most, l);
    var lower := LirProgram.OkFrom(ls, {}, slots, slots, l);
    var at := From(ls, l);
    if at != [] {
      StraightSelected(at, {}, lower, slots, map[], most, s, t, call);
      var f, g := Straight(at, s, call), Straight(Select(at, map[]).value, t, call);
      if f.Jump? && fuel > 0 {
        ApartRuns(params, ls, slots, most, f.target, f.st, g.st, call, fuel - 1);
      }
    }
  }

  // ---------- Generated lines ----------

  lemma {:induction false} ApartCons(line: Line, rest: seq<Line>, sel: Selection, most: nat)
    requires line.labels != [] ==> sel == map[]
    requires var a := AllocAll(sel, Uses(line.ins));
      a.Some? && Injective(a.value) && |a.value| <= most && (forall r :: r in a.value ==> a.value[r] < most)
      && Apart(rest, Forget(line.ins, a.value), most)
    ensures Apart([line] + rest, sel, most)
  {
    assert ([line] + rest)[1..] == rest;
  }

  /** One register comes and goes: a definition, any use, and the kill. */
  lemma {:induction false} DefineApart(load: Ins, r: Reg, rest: seq<Line>)
    requires Uses(load) == [r] && !load.Kill? && Apart(rest, map[r := 0], 2)
    ensures Apart([L(load)] + rest, map[], 2)
  {
    AllocOne(map[], r);
    assert AllocReg(map[], r) == Some(map[r := 0]);
    ApartCons(L(load), rest, map[], 2);
  }

  lemma {:induction false} UseApart(ins: Ins, r: Reg, rest: seq<Line>)
    requires Uses(ins) == [r] && !ins.Kill? && Apart(rest, map[r := 0], 2)
    ensures Apart([L(ins)] + rest, map[r := 0], 2)
  {
    AllocOne(map[r := 0], r);
    ApartCons(L(ins), rest, map[r := 0], 2);
  }

  lemma {:induction false} KillApart(r: Reg, rest: seq<Line>)
    requires Apart(rest, map[], 2)
    ensures Apart([L(Kill(r))] + rest, map[r := 0], 2)
  {
    assert map[r := 0] - {r} == map[];
    assert AllocAll(map[r := 0], []) == Some(map[r := 0]);
    ApartCons(L(Kill(r)), rest, map[r := 0], 2);
  }

  lemma TwoShape(a: Line, b: Line, rest: seq<Line>)
    ensures [a, b] + rest == [a] + ([b] + rest)
  {}

  lemma ThreeShape(a: Line, b: Line, c: Line, rest: seq<Line>)
    ensures [a, b, c] + rest == [a] + ([b] + ([c] + rest))
  {}

  lemma {:induction false} ThreeApart(load: Ins, use: Ins, r: Reg, rest: seq<Line>)
    requires Uses(load) == [r] == Uses(use) && !load.Kill? && !use.Kill? && Apart(rest, map[], 2)
    ensures Apart([L(load), L(use), L(Kill(r))] + rest, map[], 2)
  {
    KillApart(r, rest);
    UseApart(use, r, [L(Kill(r))] + rest);
    DefineApart(load, r, [L(use)] + ([L(Kill(r))] + rest));
    ThreeShape(L(load), L(use), L(Kill(r)), rest);
  }

  lemma {:induction false} BothMap(r: Reg, q: Reg)
    requires r != q
    ensures var both := map[r := 0, q := 1];
      && AllocAll(map[r := 0], [q]) == Some(both) && AllocAll(both, []) == Some(both)
      && both - {q} == map[r := 0] && |both| == 2 && Injective(both)
  {
    var both: Selection := map[r := 0, q := 1];
    AllocOne(map[r := 0], q);
    assert both.Keys == {r, q};
    assert both - {q} == map[r := 0];
  }

  lemma {:induction false} SecondKill(r: Reg, q: Reg, rest: seq<Line>)
    requires r != q && Apart(rest, map[r := 0], 2)
    ensures Apart([L(Kill(q))] + rest, map[r := 0, q := 1], 2)
  {
    hide Apart, AllocAll, Injective;
    BothMap(r, q);
    ApartCons(L(Kill(q)), rest, map[r := 0, q := 1], 2);
  }

  lemma {:induction false} SecondPop(r: Reg, q: Reg, rest: seq<Line>)
    requires r != q && Apart(rest, map[r := 0, q := 1], 2)
    ensures Apart([L(Pop(q))] + rest, map[r := 0], 2)
  {
    BothMap(r, q);
    ApartCons(L(Pop(q)), rest, map[r := 0], 2);
  }

  /** A second register beside the first, come and gone. */
  lemma {:induction false} BesideApart(r: Reg, q: Reg, rest: seq<Line>)
    requires r != q && Apart(rest, map[r := 0], 2)
    ensures Apart([L(Pop(q))] + ([L(Kill(q))] + rest), map[r := 0], 2)
  {
    SecondKill(r, q, rest);
    SecondPop(r, q, [L(Kill(q))] + rest);
  }

  lemma PopArgsShape(n: nat, base: Reg, rest: seq<Line>) returns (all: seq<Line>, more: seq<Line>)
    ensures all == PopArgs(n, base) + rest
    ensures if n == 0 then all == rest
            else more == PopArgs(n - 1, base + 1) + rest && all == [L(Pop(base)), L(Kill(base))] + more
  {
    all := PopArgs(n, base) + rest;
    more := if n == 0 then [] else PopArgs(n - 1, base + 1) + rest;
  }

  lemma {:induction false} PopArgsApart(n: nat, r: Reg, base: Reg, rest: seq<Line>) returns (all: seq<Line>)
    requires r < base && Apart(rest, map[r := 0], 2)
    ensures all == PopArgs(n, base) + rest && Apart(all, map[r := 0], 2)
    decreases n
  {
    hide Apart;
    var more;
    all, more := PopArgsShape(n, base, rest);
    if n > 0 {
      var m := PopArgsApart(n - 1, r, base + 1, rest);
      PopArgsStep(r, base, more, all);
    }
  }

  lemma {:induction false} PopArgsStep(r: Reg, base: Reg, more: seq<Line>, all: seq<Line>)
    requires r < base && all == [L(Pop(base)), L(Kill(base))] + more && Apart(more, map[r := 0], 2)
    ensures Apart(all, map[r := 0], 2)
  {
    TwoShape(L(Pop(base)), L(Kill(base)), more);
    BesideApart(r, base, more);
  }

  lemma {:induction false} ResultApart(r: Reg, rest: seq<Line>)
    requires Apart(rest, map[], 2)
    ensures Apart([L(Push(r)), L(Kill(r))] + rest, map[r := 0], 2)
  {
    KillApart(r, rest);
    UseApart(Push(r), r, [L(Kill(r))] + rest);
    TwoShape(L(Push(r)), L(Kill(r)), rest);
  }

  lemma {:induction false} CallRestApart(n: nat, r: Reg, push: seq<Line>)
    requires Apart(push, map[r := 0], 2)
    ensures Apart([L(Pop(r))] + (PopArgs(n, r + 1) + push), map[], 2)
  {
    var all := PopArgsApart(n, r, r + 1, push);
    DefineApart(Pop(r), r, all);
  }

  lemma {:induction false} CallApart(params: nat, n: nat, base: Reg, rest: seq<Line>)
    requires Apart(rest, map[], 2)
    ensures Apart(StmtLines(params, M.CallFn(n), base) + rest, map[], 2)
  {
    ResultApart(base + 1, rest);
    CallRestApart(n, base + 1, [L(Push(base + 1)), L(Kill(base + 1))] + rest);
    CallHeadApart(n, base, [L(Pop(base + 1))] +
                  (PopArgs(n, base + 2) + ([L(Push(base + 1)), L(Kill(base + 1))] + rest)));
    CallShape(params, n, base, rest);
  }

  lemma {:induction false} CallHeadApart(n: nat, base: Reg, tail: seq<Line>)
    requires Apart(tail, map[], 2)
    ensures Apart([L(Pop(base)), L(CallReg(base, n)), L(Kill(base))] + tail, map[], 2)
  {
    ThreeApart(Pop(base), CallReg(base, n), base, tail);
  }

  lemma {:induction false} BinaryMaps(src: Reg, dst: Reg)
    requires src != dst
    ensures var both := map[src := 0, dst := 1];
      && AllocAll(both, [dst]) == Some(both) && AllocAll(both, [dst, src]) == Some(both)
      && both - {src} == map[dst := 1] && map[dst := 1] - {dst} == map[]
      && AllocAll(map[dst := 1], []) == Some(map[dst := 1])
  {
    var both: Selection := map[src := 0, dst := 1];
    AllocOne(both, dst);
    AllocOne(both, src);
    assert [dst, src][1..] == [src];
    assert both - {src} == map[dst := 1];
  }

  lemma {:induction false} FirstKill(src: Reg, dst: Reg, rest: seq<Line>)
    requires src != dst && Apart(rest, map[dst := 1], 2)
    ensures Apart([L(Kill(src))] + rest, map[src := 0, dst := 1], 2)
  {
    hide Apart, AllocAll, Injective;
    BinaryMaps(src, dst);
    BothMap(src, dst);
    ApartCons(L(Kill(src)), rest, map[src := 0, dst := 1], 2);
  }

  lemma {:induction false} LastKill(dst: Reg, rest: seq<Line>)
    requires Apart(rest, map[], 2)
    ensures Apart([L(Kill(dst))] + rest, map[dst := 1], 2)
  {
    BinaryMaps(dst + 1, dst);
    ApartCons(L(Kill(dst)), rest, map[dst := 1], 2);
  }

  lemma {:induction false} BothUses(ins: Ins, src: Reg, dst: Reg)
    requires src != dst && (ins == Push(dst) || (ins.Binary? && ins.dst == dst && ins.src == src))
    ensures AllocAll(map[src := 0, dst := 1], Uses(ins)) == Some(map[src := 0, dst := 1])
  {
    BinaryMaps(src, dst);
  }

  lemma {:induction false} BothUsed(ins: Ins, src: Reg, dst: Reg, rest: seq<Line>)
    requires src != dst && !ins.Kill? && AllocAll(map[src := 0, dst := 1], Uses(ins)) == Some(map[src := 0, dst := 1])
    requires Apart(rest, map[src := 0, dst := 1], 2)
    ensures Apart([L(ins)] + rest, map[src := 0, dst := 1], 2)
  {
    BothMap(src, dst);
    ApartCons(L(ins), rest, map[src := 0, dst := 1], 2);
  }

  /** The result pushed, then the operands' kills in the other order. */
  lemma {:induction false} BinaryEndApart(src: Reg, dst: Reg, rest: seq<Line>)
    requires src != dst && Apart(rest, map[], 2)
    ensures Apart([L(Push(dst))] + ([L(Kill(src))] + ([L(Kill(dst))] + rest)), map[src := 0, dst := 1], 2)
  {
    LastKill(dst, rest);
    FirstKill(src, dst, [L(Kill(dst))] + rest);
    BothUses(Push(dst), src, dst);
    BothUsed(Push(dst), src, dst, [L(Kill(src))] + ([L(Kill(dst))] + rest));
  }

  lemma {:induction false} BinaryHeadApart(op: BinOp, src: Reg, dst: Reg, rest: seq<Line>)
    requires src != dst && Apart(rest, map[src := 0, dst := 1], 2)
    ensures Apart([L(Pop(src))] + ([L(Pop(dst))] + ([L(Binary(op, dst, src))] + rest)), map[], 2)
  {
    BothUses(Binary(op, dst, src), src, dst);
    BothUsed(Binary(op, dst, src), src, dst, rest);
    SecondPop(src, dst, [L(Binary(op, dst, src))] + rest);
    DefineApart(Pop(src), src, [L(Pop(dst))] + ([L(Binary(op, dst, src))] + rest));
  }

  lemma {:induction false} BinaryShape(params: nat, op: BinOp, base: Reg, rest: seq<Line>)
    ensures StmtLines(params, M.Binary(op), base) + rest ==
      [L(Pop(base))] + ([L(Pop(base + 1))] + ([L(Binary(op, base + 1, base))]
      + ([L(Push(base + 1))] + ([L(Kill(base))] + ([L(Kill(base + 1))] + rest)))))
  {}

  lemma {:induction false} BinaryApart(params: nat, op: BinOp, base: Reg, rest: seq<Line>)
    requires Apart(rest, map[], 2)
    ensures Apart(StmtLines(params, M.Binary(op), base) + rest, map[], 2)
  {
    BinaryEndApart(base, base + 1, rest);
    BinaryHeadApart(op, base, base + 1, [L(Push(base + 1))] + ([L(Kill(base))] + ([L(Kill(base + 1))] + rest)));
    BinaryShape(params, op, base, rest);
  }

  lemma {:induction false} PopApart(base: Reg, rest: seq<Line>)
    requires Apart(rest, map[], 2)
    ensures Apart([L(Pop(base)), L(Kill(base))] + rest, map[], 2)
  {
    KillApart(base, rest);
    DefineApart(Pop(base), base, [L(Kill(base))] + rest);
    TwoShape(L(Pop(base)), L(Kill(base)), rest);
  }

  lemma {:induction false} StmtApart(params: nat, s: M.Stmt, base: Reg, rest: seq<Line>)
    requires Apart(rest, map[], 2)
    ensures Apart(StmtLines(params, s, base) + rest, map[], 2)
  {
    match s
    case Push(v) =>
      match v {
        case IntVal(n) => ThreeApart(MovInt(base, n), Push(base), base, rest);
        case StrVal(t) => ThreeApart(MovString(base, t), Push(base), base, rest);
        case FnVal(f) => ThreeApart(MovFn(base, f), Push(base), base, rest);
      }
    case Pop => PopApart(base, rest);
    case Load(l) => ThreeApart(Load(base, SlotOf(params, l)), Push(base), base, rest);
    case Store(l) => ThreeApart(Pop(base), StoreReg(SlotOf(params, l), base), base, rest);
    case CallFn(n) => CallApart(params, n, base, rest);
    case Binary(op) => BinaryApart(params, op, base, rest);
  }

  lemma {:induction false} StmtsApart(params: nat, ss: seq<M.Stmt>, base: Reg, rest: seq<Line>)
    requires Apart(rest, map[], 2)
    ensures Apart(StmtsLines(params, ss, base) + rest, map[], 2)
    decreases |ss|
  {
    if ss == [] {
      assert StmtsLines(params, ss, base) + rest == rest;
    } else {
      StmtsApart(params, ss[1..], base + RegsOf(ss[0]), rest);
      StmtApart(params, ss[0], base, StmtsLines(params, ss[1..], base + RegsOf(ss[0])) + rest);
      StmtsShape(params, ss, base, rest);
    }
  }

  lemma {:induction false} PlainApart(ins: Ins, rest: seq<Line>)
    requires Uses(ins) == [] && !ins.Kill? && Apart(rest, map[], 2)
    ensures Apart([L(ins)] + rest, map[], 2)
  {
    assert AllocAll(map[], []) == Some(map[]);
    ApartCons(L(ins), rest, map[], 2);
  }

  lemma IfShape(bs: seq<M.Block>, t: nat, f: nat, base: Reg, rest: seq<Line>)
    ensures TerLines(bs, M.If(t, f), base) + rest ==
      [L(Pop(base)), L(JnzReg(base, M.Find(bs, t))), L(Kill(base))] + ([L(Jmp(M.Find(bs, f)))] + rest)
  {}

  lemma {:induction false} TerApart(bs: seq<M.Block>, ter: M.Ter, base: Reg, rest: seq<Line>)
    requires Apart(rest, map[], 2)
    ensures Apart(TerLines(bs, ter, base) + rest, map[], 2)
  {
    match ter
    case Unset => PlainApart(Error, rest);
    case Return => PlainApart(Ret, rest);
    case Goto(t) => PlainApart(Jmp(M.Find(bs, t)), rest);
    case If(t, f) =>
      var jmp := L(Jmp(M.Find(bs, f)));
      PlainApart(jmp.ins, rest);
      ThreeApart(Pop(base), JnzReg(base, M.Find(bs, t)), base, [jmp] + rest);
      IfShape(bs, t, f, base, rest);
  }

  lemma LabelledShape(k: Label, ss: seq<Line>, ts: seq<Line>, more: seq<Line>)
    requires |ts| > 0
    ensures var all, out := ss + (ts + more), Labelled([k], ss + ts) + more;
      all != [] && out == [Line([k] + all[0].labels, all[0].ins)] + all[1..]
  {}

  /** Where nothing is live, a label may stand. */
  lemma {:induction false} LabelApart(all: seq<Line>, labels: seq<Label>)
    requires all != [] && Apart(all, map[], 2)
    ensures Apart([Line(labels, all[0].ins)] + all[1..], map[], 2)
  {
    ApartCons(Line(labels, all[0].ins), all[1..], map[], 2);
  }

  lemma {:induction false} LabelledApart(k: Label, ss: seq<Line>, ts: seq<Line>, more: seq<Line>)
    requires |ts| > 0 && Apart(ss + (ts + more), map[], 2)
    ensures Apart(Labelled([k], ss + ts) + more, map[], 2)
  {
    LabelledShape(k, ss, ts, more);
    var all := ss + (ts + more);
    LabelApart(all, [k] + all[0].labels);
  }

  lemma {:induction false} BlockApart(params: nat, bs: seq<M.Block>, k: nat, base: Reg, more: seq<Line>)
    requires k < |bs| && Apart(more, map[], 2)
    ensures Apart(BlockLines(params, bs, k, base) + more, map[], 2)
  {
    var mid := base + StmtsRegs(bs[k].stmts);
    var ts := TerLines(bs, bs[k].ter, mid);
    TerApart(bs, bs[k].ter, mid, more);
    StmtsApart(params, bs[k].stmts, base, ts + more);
    LabelledApart(k, StmtsLines(params, bs[k].stmts, base), ts, more);
  }

  lemma NoLinesApart()
    ensures Apart([], map[], 2)
  {}

  lemma {:induction false} BodyApart(params: nat, bs: seq<M.Block>, k: nat, base: Reg)
    requires k <= |bs|
    ensures Apart(BodyLines(params, bs, k, base), map[], 2)
    decreases |bs| - k
  {
    hide Apart, BlockLines;
    if k == |bs| {
      NoLinesApart();
    } else {
      BodyApart(params, bs, k + 1, base + BlockRegs(bs[k]));
      BlockApart(params, bs, k, base, BodyLines(params, bs, k + 1, base + BlockRegs(bs[k])));
    }
  }

  lemma AllocsShape(from: nat, params: nat, locals: nat, rest: seq<Line>) returns (first: Ins)
    requires from < locals
    ensures Uses(first) == [] && !first.Kill?
    ensures AllocLines(from, params, locals) + rest == [L(first)] + (AllocLines(from + 1, params, locals) + rest)
  {
    first := AllocLines(from, params, locals)[0].ins;
  }

  lemma {:induction false} AllocsApart(from: nat, params: nat, locals: nat, rest: seq<Line>)
    requires Apart(rest, map[], 2)
    ensures Apart(AllocLines(from, params, locals) + rest, map[], 2)
    decreases locals - from
  {
    hide Apart;
    if from >= locals {
      assert AllocLines(from, params, locals) + rest == rest;
    } else {
      AllocsApart(from + 1, params, locals, rest);
      var first := AllocsShape(from, params, locals, rest);
      PlainApart(first, AllocLines(from + 1, params, locals) + rest);
    }
  }

  /** On generated lines at most two virtual registers are live at once, and they never share a
    * machine register: `rax` and `rdi` are enough, so the registers never run out. */
  lemma {:induction false} GenFnApart(fn: M.Fn)
    ensures Apart(FnLines(fn), map[], 2)
  {
    BodyApart(fn.params, fn.blocks, 0, fn.locals);
    AllocsApart(0, fn.params, fn.locals, BodyLines(fn.params, fn.blocks, 0, fn.locals));
  }

  /** So a generated function runs over machine registers as it does over virtual ones. */
  lemma {:induction false} GenFnSelected(fn: M.Fn, args: seq<Value>, w: World, call: Callee, fuel: nat)
    requires MirShape.WellFormed(fn)
    ensures Select(FnLines(fn), map[]).Some?
    ensures RunFn(GenFn(fn), args, w, call, fuel) ==
            RunFn(GenFn(fn).(lines := Select(FnLines(fn), map[]).value), args, w, call, fuel)
  {
    GenFnOk(fn);
    GenFnApart(fn);
    var st := InitialState(args, w);
    ApartRuns(fn.params, FnLines(fn), fn.locals, 2, fn.entry, st, st, call, fuel);
  }
}
