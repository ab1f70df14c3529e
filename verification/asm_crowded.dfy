/** Which stack code makes two live registers share a machine register.
  *
  * Each value on the evaluation stack is in the first machine register or, beside the right operand
  * of an operation whose left one was popped, in the second. */
module AsmCrowded {
  import opened Values
  import M = Mir
  import opened MirShape
  import opened Lir
  import opened LirGen
  import opened LirGenLive
  import opened LirLive
  import opened LirNormal
  import LirOptimize
  import opened LirEntries
  import opened AsmSelect
  import opened AsmShare

  // ---------- The selection through a run of lines ----------

  ghost predicate Stays(sel: Selection) {
    Injective(sel) && |sel| <= MACHINE_REGS && forall r :: r in sel ==> sel[r] < MACHINE_REGS
  }

  /** The selection behind the lines, if live registers have stayed apart. */
  ghost function Through(ls: seq<Line>, sel: Selection): Option<Selection>
    decreases |ls|
  {
    if ls == [] then Some(sel) else
    var a := AllocAll(sel, Uses(ls[0].ins));
    if (ls[0].labels != [] && sel != map[]) || a.None? || !Stays(a.value) then None
    else Through(ls[1..], Forget(ls[0].ins, a.value))
  }

  lemma {:induction false} ThroughConcat(xs: seq<Line>, ys: seq<Line>, sel: Selection)
    ensures Through(xs + ys, sel) == if Through(xs, sel).None? then None else Through(ys, Through(xs, sel).value)
    decreases |xs|
  {
    if xs == [] {
      assert xs + ys == ys;
    } else {
      assert (xs + ys)[0] == xs[0] && (xs + ys)[1..] == xs[1..] + ys;
      var a := AllocAll(sel, Uses(xs[0].ins));
      if a.Some? {
        ThroughConcat(xs[1..], ys, Forget(xs[0].ins, a.value));
      }
    }
  }

  lemma {:induction false} ApartThrough(ls: seq<Line>, sel: Selection)
    ensures Apart(ls, sel, MACHINE_REGS) <==> Through(ls, sel).Some?
    decreases |ls|
  {
    if ls != [] {
      var a := AllocAll(sel, Uses(ls[0].ins));
      if a.Some? {
        ApartThrough(ls[1..], Forget(ls[0].ins, a.value));
      }
    }
  }

  lemma {:induction false} ThroughOne(line: Line, sel: Selection)
    ensures var a := AllocAll(sel, Uses(line.ins));
      Through([line], sel) ==
      if (line.labels != [] && sel != map[]) || a.None? ||
        !Stays(a.value) then None else Some(Forget(line.ins, a.value))
  {
    assert [line][1..] == [];
  }

  // ---------- With one or two registers live ----------

  /** A register defined where nothing is live. */
  lemma {:induction false} FirstDefined(line: Line, r: Reg)
    requires DefOf(line.ins) == Some(r)
    ensures Through([line], map[]) == Some(map[r := 0])
  {
    ThroughOne(line, map[]);
    assert Uses(line.ins) == [r];
    AllocOne(map[], r);
    assert AllocReg(map[], r) == Some(map[r := 0]);
    assert |map[r := 0]| == 1 by { SameSize(map[r := 0], {r}); }
  }

  /** A register defined beside one in machine register `h`: they share if that is the second. */
  lemma {:induction false} SecondDefined(ins: Ins, q: Reg, r: Reg, h: nat)
    requires DefOf(ins) == Some(r) && q != r && h <= 1
    ensures Through([L(ins)], map[q := h]) == if h == 1 then None else Some(map[q := 0, r := 1])
  {
    var one: Selection, two: Selection := map[q := h], map[q := h, r := 1];
    ThroughOne(L(ins), one);
    assert Uses(ins) == [r];
    AllocOne(one, r);
    SameSize(one, {q});
    assert two.Keys == {q, r};
    SameSize(two, {q, r});
    assert AllocReg(one, r) == Some(two);
    if h == 1 {
      assert two[q] == two[r];
    }
  }

  /** A line that uses what is live. */
  lemma {:induction false} Used(ins: Ins, sel: Selection)
    requires DefOf(ins).None? && !ins.Kill? && Stays(sel) && forall r :: r in Uses(ins) ==> r in sel
    ensures Through([L(ins)], sel) == Some(sel)
  {
    hide Stays, Through, AllocAll;
    ThroughOne(L(ins), sel);
    AllUsed(sel, Uses(ins));
  }

  lemma {:induction false} AllUsed(sel: Selection, rs: seq<Reg>)
    requires forall r :: r in rs ==> r in sel
    ensures AllocAll(sel, rs) == Some(sel)
    decreases |rs|
  {
    if rs != [] {
      assert rs[0] in rs;
      AllUsed(sel, rs[1..]);
    }
  }

  lemma {:induction false} Killed(r: Reg, sel: Selection)
    requires Stays(sel)
    ensures Through([L(Kill(r))], sel) == Some(sel - {r})
  {
    hide Stays, Through;
    ThroughOne(L(Kill(r)), sel);
    assert AllocAll(sel, []) == Some(sel);
  }

  lemma {:induction false} OneStays(r: Reg, h: nat)
    requires h <= 1
    ensures var one: Selection := map[r := h]; Stays(one) && one - {r} == map[]
  {
    SameSize(map[r := h], {r});
  }

  lemma {:induction false} TwoStay(q: Reg, r: Reg)
    requires q != r
    ensures var two: Selection := map[q := 0, r := 1];
      Stays(two) && two - {q} == map[r := 1] && two - {r} == map[q := 0]
  {
    var two: Selection := map[q := 0, r := 1];
    assert two.Keys == {q, r};
    SameSize(two, {q, r});
    assert two - {q} == map[r := 1] && two - {r} == map[q := 0];
  }

  // ---------- The value of an expression ----------

  /** How a value is computed: by a single load; by an operation on a left operand that was popped; or
    * otherwise. */
  datatype Kind = Loaded | Crowded | Other

  /** The machine register it is in: beside the right operand of such an operation, the second. */
  function Number(k: Kind): nat {
    if k.Crowded? then 1 else 0
  }

  /** The operand that stays in a register while the other one is fetched is in the second register: the
    * left one while a load is fetched, else the right one. */
  predicate Clash(left: Kind, right: Kind) {
    if right.Loaded? then left.Crowded? else right.Crowded?
  }

  function Result(right: Kind): Kind {
    if right.Loaded? then Other else Crowded
  }

  /** The value's lines keep registers apart or not, and leave it in the register of its kind. */
  ghost predicate Numbers(e: Entry, k: Kind, fine: bool) {
    && (e.leaf <==> k.Loaded?)
    && Through(EntryLines(e), map[]) == (if fine then Some(map[]) else None)
    && Through(Kept(e), map[]) == (if fine then Some(map[e.reg := Number(k)]) else None)
  }

  /** What is live when the value has been computed. */
  ghost function Computed(e: Entry, k: Kind): Selection {
    if e.others == [] then map[e.reg := 0]
    else if k.Crowded? then map[e.others[0] := 0, e.reg := 1]
    else map[e.reg := 0, e.others[0] := 1]
  }

  lemma {:induction false} ComputedNumbers(e: Entry, k: Kind, fine: bool)
    requires |e.others| <= 1 && e.reg !in e.others && (e.leaf <==> k.Loaded?) && (e.others == [] ==> !k.Crowded?)
    requires Through(e.head, map[]) == if fine then Some(Computed(e, k)) else None
    ensures Numbers(e, k, fine)
  {
    hide Through, Computed;
    var push, kill := [L(Push(e.reg))], [L(Kill(e.reg))];
    ThroughConcat(e.head, Kills(e.others), map[]);
    ThroughConcat(e.head + push, Kills(e.others) + kill, map[]);
    ThroughConcat(e.head, push, map[]);
    if fine {
      if e.others == [] { EndsAlone(e, k); } else { EndsBeside(e, k); }
    }
  }

  lemma {:induction false} EndsAlone(e: Entry, k: Kind)
    requires e.others == [] && !k.Crowded?
    ensures var sel := Computed(e, k);
      && Through([L(Push(e.reg))], sel) == Some(sel)
      && Through(Kills(e.others) + [L(Kill(e.reg))], sel) == Some(map[])
      && Through(Kills(e.others), sel) == Some(map[e.reg := Number(k)])
  {
    assert Kills([]) == [] && Through([], Computed(e, k)) == Some(Computed(e, k));
    OneStays(e.reg, 0);
    hide Through, Stays;
    Used(Push(e.reg), map[e.reg := 0]);
    Killed(e.reg, map[e.reg := 0]);
    assert [] + [L(Kill(e.reg))] == [L(Kill(e.reg))];
  }

  lemma {:induction false} EndsBeside(e: Entry, k: Kind)
    requires |e.others| == 1 && e.reg !in e.others
    ensures var sel := Computed(e, k);
      && Through([L(Push(e.reg))], sel) == Some(sel)
      && Through(Kills(e.others) + [L(Kill(e.reg))], sel) == Some(map[])
      && Through(Kills(e.others), sel) == Some(map[e.reg := Number(k)])
  {
    hide Through, Stays;
    KillsOne(e.others);
    var o := e.others[0];
    assert o in e.others;
    if k.Crowded? { TwoStay(o, e.reg); } else { TwoStay(e.reg, o); }
    OneStays(e.reg, Number(k));
    var sel := Computed(e, k);
    Used(Push(e.reg), sel);
    Killed(o, sel);
    Killed(e.reg, map[e.reg := Number(k)]);
    ThroughConcat(Kills(e.others), [L(Kill(e.reg))], sel);
  }

  lemma {:induction false} LoadNumbers(line: Line, r: Reg)
    requires DefOf(line.ins) == Some(r)
    ensures Numbers(Entry([line], r, [], true), Loaded, true)
  {
    FirstDefined(line, r);
    ComputedNumbers(Entry([line], r, [], true), Loaded, true);
  }

  /** A second register defined, and an operation on both. */
  lemma {:induction false} Beside(ins: Ins, op: Ins, q: Reg, r: Reg, h: nat)
    requires DefOf(ins) == Some(r) && q != r && h <= 1 && op.Binary? && {op.dst, op.src} == {q, r}
    ensures Through([L(ins), L(op)], map[q := h]) == if h == 1 then None else Some(map[q := 0, r := 1])
  {
    hide Through, Stays;
    assert op.dst in {q, r} && op.src in {q, r};
    TwoStay(q, r);
    SecondDefined(ins, q, r, h);
    Used(op, map[q := 0, r := 1]);
    assert [L(ins), L(op)] == [L(ins)] + [L(op)];
    ThroughConcat([L(ins)], [L(op)], map[q := h]);
  }

  /** An operation whose right operand is a load. */
  lemma {:induction false} LoadedNumbers(op: BinOp, x: Entry, kx: Kind, fx: bool, y: Entry, base: Reg)
    requires Numbers(x, kx, fx) && y.leaf && y.others == [] && x.reg < y.reg
    requires |y.head| == 1 && y.head[0].labels == [] && DefOf(y.head[0].ins) == Some(y.reg)
    ensures Numbers(Operated(op, x, y, base), Other, fx && !kx.Crowded?)
  {
    var e := Operated(op, x, y, base);
    var pair := [L(y.head[0].ins), L(Binary(op, x.reg, y.reg))];
    assert Kills([]) == [] && e.head == Kept(x) + pair;
    hide Through, Kept, Kills;
    ThroughConcat(Kept(x), pair, map[]);
    Beside(y.head[0].ins, pair[1].ins, x.reg, y.reg, Number(kx));
    ComputedNumbers(e, Other, fx && !kx.Crowded?);
  }

  /** Any other operation. */
  lemma {:induction false} OtherNumbers(op: BinOp, x: Entry, kx: Kind, fx: bool, y: Entry, ky: Kind, fy: bool,
                                        base: Reg)
    requires Numbers(x, kx, fx) && Numbers(y, ky, fy) && !y.leaf && y.reg < base
    ensures Numbers(Operated(op, x, y, base), Crowded, fx && fy && !ky.Crowded?)
  {
    hide Through, Kept, EntryLines;
    var e := Operated(op, x, y, base);
    var pair := [L(Pop(base + 1)), L(Binary(op, base + 1, y.reg))];
    ThroughConcat(EntryLines(x) + Kept(y), pair, map[]);
    ThroughConcat(EntryLines(x), Kept(y), map[]);
    Beside(Pop(base + 1), pair[1].ins, y.reg, base + 1, Number(ky));
    ComputedNumbers(e, Crowded, fx && fy && !ky.Crowded?);
  }

  lemma NoneThrough(sel: Selection)
    ensures Through([], sel) == Some(sel)
  {}

  lemma {:induction false} PoppedAway(r: Reg, q: Reg)
    requires r != q
    ensures Through([L(Pop(q)), L(Kill(q))], map[r := 0]) == Some(map[r := 0])
  {
    hide Through, Stays;
    SecondDefined(Pop(q), r, q, 0);
    TwoStay(r, q);
    Killed(q, map[r := 0, q := 1]);
    ThroughConcat([L(Pop(q))], [L(Kill(q))], map[r := 0]);
    assert [L(Pop(q)), L(Kill(q))] == [L(Pop(q))] + [L(Kill(q))];
  }

  lemma {:induction false} PopArgsThrough(n: nat, r: Reg, base: Reg)
    requires r < base
    ensures Through(PopArgs(n, base), map[r := 0]) == Some(map[r := 0])
    decreases n
  {
    hide Through;
    if n == 0 {
      NoneThrough(map[r := 0]);
    } else {
      PoppedAway(r, base);
      PopArgsThrough(n - 1, r, base + 1);
      ThroughConcat([L(Pop(base)), L(Kill(base))], PopArgs(n - 1, base + 1), map[r := 0]);
    }
  }

  /** The callee taken from its register, and the result popped. */
  lemma {:induction false} CallThrough(f: Reg, n: nat, r: Reg, h: nat)
    requires h <= 1
    ensures Through([L(CallReg(f, n)), L(Kill(f)), L(Pop(r))], map[f := h]) == Some(map[r := 0])
  {
    OneStays(f, h);
    FirstDefined(L(Pop(r)), r);
    hide Through, Stays;
    Used(CallReg(f, n), map[f := h]);
    Killed(f, map[f := h]);
    var a, b, c := [L(CallReg(f, n))], [L(Kill(f))], [L(Pop(r))];
    assert [L(CallReg(f, n)), L(Kill(f)), L(Pop(r))] == a + b + c;
    ThroughConcat(a, b, map[f := h]);
    ThroughConcat(a + b, c, map[f := h]);
  }

  // ---------- All values on the stack ----------

  /** A load is one line, and carries a label only at the bottom of the stack. */
  ghost predicate Shaped(es: seq<Entry>) {
    forall i :: 0 <= i < |es| ==>
      && |es[i].others| <= 1
      && (es[i].leaf ==>
            && es[i].others == [] && |es[i].head| == 1 && DefOf(es[i].head[0].ins) == Some(es[i].reg)
            && (i > 0 ==> es[i].head[0].labels == []))
  }

  ghost predicate AllNumbers(es: seq<Entry>, ks: seq<Kind>, fs: seq<bool>) {
    |ks| == |es| == |fs| && forall i :: 0 <= i < |es| ==> Numbers(es[i], ks[i], fs[i])
  }

  lemma NumbersSplit(es: seq<Entry>, ks: seq<Kind>, fs: seq<bool>, i: nat, j: nat)
    requires AllNumbers(es, ks, fs) && i <= j <= |es|
    ensures AllNumbers(es[i..j], ks[i..j], fs[i..j])
  {
    hide Numbers;
  }

  lemma {:induction false} FlatThrough(es: seq<Entry>, ks: seq<Kind>, fs: seq<bool>)
    requires AllNumbers(es, ks, fs)
    ensures Through(Flat(es), map[]) == if false in fs then None else Some(map[])
    decreases |es|
  {
    hide Through;
    if es == [] {
      NoneThrough(map[]);
    } else {
      var n := |es| - 1;
      NumbersSplit(es, ks, fs, 0, n);
      assert es[0..n] == es[..n] && ks[0..n] == ks[..n] && fs[0..n] == fs[..n];
      FlatThrough(es[..n], ks[..n], fs[..n]);
      assert fs == fs[..n] + [fs[n]] && Numbers(es[n], ks[n], fs[n]);
      hide Numbers, AllNumbers, EntryLines;
      ThroughConcat(Flat(es[..n]), EntryLines(es[n]), map[]);
    }
  }

  lemma {:induction false} CalledNumbers(n: nat, args: seq<Entry>, ks: seq<Kind>, fs: seq<bool>, f: Entry, kf: Kind,
                                         ff: bool, base: Reg)
    requires AllNumbers(args, ks, fs) && Numbers(f, kf, ff) && f.reg < base
    ensures Numbers(Called(n, args, f, base), Other, false !in fs && ff)
  {
    hide AllNumbers, Through, Flat, Kept, PopArgs;
    FlatThrough(args, ks, fs);
    CalledThrough(n, Flat(args), Kept(f), f.reg, Number(kf), base, false !in fs, ff);
    ComputedNumbers(Called(n, args, f, base), Other, false !in fs && ff);
  }

  lemma {:induction false} CalledThrough(n: nat, args: seq<Line>, f: seq<Line>, r: Reg, h: nat, base: Reg, fa: bool,
                                         ff: bool)
    requires Through(args, map[]) == (if fa then Some(map[]) else None) && h <= 1
    requires Through(f, map[]) == if ff then Some(map[r := h]) else None
    ensures Through(args + f + [L(CallReg(r, n)), L(Kill(r)), L(Pop(base + 1))] + PopArgs(n, base + 2), map[]) ==
            if fa && ff then Some(map[base + 1 := 0]) else None
  {
    hide Through, PopArgs;
    var call := [L(CallReg(r, n)), L(Kill(r)), L(Pop(base + 1))];
    CallThrough(r, n, base + 1, h);
    PopArgsThrough(n, base + 1, base + 2);
    ThroughConcat(args, f, map[]);
    ThroughConcat(args + f, call, map[]);
    ThroughConcat(args + f + call, PopArgs(n, base + 2), map[]);
  }

  // ---------- Stack code ----------

  /** The kinds of the values on the stack after a statement. */
  function StepKinds(s: M.Stmt, ks: seq<Kind>): (r: seq<Kind>)
    requires Level([s], |ks|).Some?
    ensures |r| == Effect(s, |ks|).value
  {
    var k := |ks|;
    LevelHead([s], k);
    match s
    case Push(_) => ks + [Loaded]
    case Load(_) => ks + [Loaded]
    case Pop => []
    case Store(_) => []
    case CallFn(n) => ks[..k - 1 - n] + [Other]
    case Binary(_) => ks[..k - 2] + [Result(ks[k - 1])]
  }

  predicate ClearStep(s: M.Stmt, ks: seq<Kind>)
    requires Level([s], |ks|).Some?
  {
    LevelHead([s], |ks|);
    s.Binary? ==> !Clash(ks[|ks| - 2], ks[|ks| - 1])
  }

  /** No operation of the code finds its operands in the same machine register. */
  predicate Clear(ss: seq<M.Stmt>, ks: seq<Kind>)
    requires Level(ss, |ks|).Some?
    decreases |ss|
  {
    ss == [] || (LevelHead(ss, |ks|); ClearStep(ss[0], ks) && Clear(ss[1..], StepKinds(ss[0], ks)))
  }

  ghost predicate CutNumbers(c: Cut, ks: seq<Kind>, fs: seq<bool>, ok: bool) {
    && AllNumbers(c.es, ks, fs) && Shaped(c.es)
    && Through(c.done, map[]) == if ok then Some(map[]) else None
  }

  /** Whether everything so far keeps registers apart. */
  predicate AllFine(ok: bool, fs: seq<bool>) {
    ok && false !in fs
  }

  /** The bottom value consumed: stored, dropped, or tested. */
  lemma {:induction false} Consumed(done: seq<Line>, e: Entry, k: Kind, f: bool, ok: bool, use: seq<Line>)
    requires Numbers(e, k, f) && Through(done, map[]) == if ok then Some(map[]) else None
    requires forall h: nat :: h <= 1 ==> Through(use, map[e.reg := h]) == Some(map[])
    ensures Through(done + Kept(e) + use, map[]) == if ok && f then Some(map[]) else None
  {
    hide Through, Kept;
    ThroughConcat(done, Kept(e), map[]);
    ThroughConcat(done + Kept(e), use, map[]);
    assert Through(use, map[e.reg := Number(k)]) == Some(map[]);
  }

  lemma {:induction false} UsedUp(ins: Ins, r: Reg, h: nat)
    requires Uses(ins) == [r] && DefOf(ins).None? && !ins.Kill? && h <= 1
    ensures Through([L(ins), L(Kill(r))], map[r := h]) == Some(map[])
  {
    OneStays(r, h);
    hide Through, Stays;
    Used(ins, map[r := h]);
    Killed(r, map[r := h]);
    assert [L(ins), L(Kill(r))] == [L(ins)] + [L(Kill(r))];
    ThroughConcat([L(ins)], [L(Kill(r))], map[r := h]);
  }

  lemma {:induction false} ConsumeNumbers(params: nat, c: Cut, s: M.Stmt, base: Reg, ks: seq<Kind>, fs: seq<bool>,
                                          ok: bool)
    requires (s.Pop? || s.Store?) && |c.es| == 1 && CutNumbers(c, ks, fs, ok)
    ensures CutNumbers(StepCut(params, c, s, base, []), [], [], ok && fs[0])
  {
    var e := c.es[0];
    assert Numbers(e, ks[0], fs[0]);
    hide Through, Numbers, Kept;
    if s.Pop? {
      forall h: nat | h <= 1 ensures Through([L(Kill(e.reg))], map[e.reg := h]) == Some(map[]) {
        OneStays(e.reg, h);
        Killed(e.reg, map[e.reg := h]);
      }
      Consumed(c.done, e, ks[0], fs[0], ok, [L(Kill(e.reg))]);
    } else {
      var use := [L(StoreReg(SlotOf(params, s.local), e.reg)), L(Kill(e.reg))];
      forall h: nat | h <= 1 ensures Through(use, map[e.reg := h]) == Some(map[]) {
        UsedUp(use[0].ins, e.reg, h);
      }
      Consumed(c.done, e, ks[0], fs[0], ok, use);
    }
  }

  lemma PushNumbers(es: seq<Entry>, ks: seq<Kind>, fs: seq<bool>, e: Entry, k: Kind, f: bool)
    requires AllNumbers(es, ks, fs) && Numbers(e, k, f)
    ensures AllNumbers(es + [e], ks + [k], fs + [f])
  {
    hide Numbers;
  }

  lemma ShapedPush(es: seq<Entry>, e: Entry)
    requires Shaped(es) && |e.others| <= 1
    requires e.leaf ==>
      e.others == [] && |e.head| == 1 && DefOf(e.head[0].ins) == Some(e.reg) && (es != [] ==> e.head[0].labels == [])
    ensures Shaped(es + [e])
  {}

  lemma ShapedFront(es: seq<Entry>, n: nat)
    requires Shaped(es) && n <= |es|
    ensures Shaped(es[..n])
  {}

  lemma {:induction false} LoadStepNumbers(params: nat, c: Cut, s: M.Stmt, base: Reg, labels: seq<Label>, ks: seq<Kind>,
                                           fs: seq<bool>, ok: bool)
    requires (s.Push? || s.Load?) && CutNumbers(c, ks, fs, ok) && (labels != [] ==> c.es == [])
    ensures CutNumbers(StepCut(params, c, s, base, labels), ks + [Loaded], fs + [true], ok)
  {
    var line := Line(labels, LoadOf(params, s, base));
    LoadNumbers(line, base);
    hide Numbers, AllNumbers, Shaped, Through;
    PushNumbers(c.es, ks, fs, Entry([line], base, [], true), Loaded, true);
    ShapedPush(c.es, Entry([line], base, [], true));
  }

  /** The values from the m-th on give way to one. */
  lemma {:induction false} Replaced(c: Cut, m: nat, e: Entry, k: Kind, f: bool, ks: seq<Kind>, fs: seq<bool>, ok: bool)
    requires CutNumbers(c, ks, fs, ok) && m <= |c.es| && Numbers(e, k, f) && |e.others| <= 1 && !e.leaf
    ensures CutNumbers(Cut(c.done, c.es[..m] + [e]), ks[..m] + [k], fs[..m] + [f], ok)
  {
    hide Numbers, Shaped, Through;
    NumbersSplit(c.es, ks, fs, 0, m);
    assert c.es[0..m] == c.es[..m] && ks[0..m] == ks[..m] && fs[0..m] == fs[..m];
    hide AllNumbers;
    PushNumbers(c.es[..m], ks[..m], fs[..m], e, k, f);
    ShapedFront(c.es, m);
    ShapedPush(c.es[..m], e);
  }

  lemma CutSizes(c: Cut, ks: seq<Kind>, fs: seq<bool>, ok: bool)
    requires CutNumbers(c, ks, fs, ok)
    ensures |ks| == |fs| == |c.es| && AllNumbers(c.es, ks, fs) && Shaped(c.es)
  {}

  lemma {:induction false} CallEntry(c: Cut, n: nat, base: Reg, ks: seq<Kind>, fs: seq<bool>, ok: bool)
    requires |c.es| >= n + 1 && CutNumbers(c, ks, fs, ok) && EntriesOk(c.es, base)
    ensures var k := |c.es|;
      Numbers(Called(n, c.es[k - 1 - n..k - 1], c.es[k - 1], base), Other, false !in fs[k - 1 - n..k - 1] && fs[k - 1])
  {
    hide Called, Numbers, Through, Shaped;
    var k := |c.es|;
    var m := k - 1 - n;
    NumbersSplit(c.es, ks, fs, m, k - 1);
    assert Numbers(c.es[k - 1], ks[k - 1], fs[k - 1]) && EntryOk(c.es[k - 1], base);
    hide AllNumbers;
    CalledNumbers(n, c.es[m..k - 1], ks[m..k - 1], fs[m..k - 1], c.es[k - 1], ks[k - 1], fs[k - 1], base);
  }

  lemma {:induction false} CallNumbers(params: nat, c: Cut, n: nat, base: Reg, ks: seq<Kind>, fs: seq<bool>, ok: bool)
    requires |c.es| >= n + 1 && CutNumbers(c, ks, fs, ok) && EntriesOk(c.es, base)
    ensures var k := |c.es|;
      && |ks| == |fs| == k
      && CutNumbers(StepCut(params, c, M.CallFn(n), base, []), ks[..k - 1 - n] + [Other],
                    fs[..k - 1 - n] + [false !in fs[k - 1 - n..k - 1] && fs[k - 1]], ok)
  {
    hide CutNumbers, Numbers, EntriesOk, Through, Kept, Flat, PopArgs;
    var k := |c.es|;
    CutSizes(c, ks, fs, ok);
    CallEntry(c, n, base, ks, fs, ok);
    Replaced(c, k - 1 - n, Called(n, c.es[k - 1 - n..k - 1], c.es[k - 1], base), Other,
             false !in fs[k - 1 - n..k - 1] && fs[k - 1], ks, fs, ok);
    hide Called;
  }

  lemma {:induction false} OperatedNumbers(op: BinOp, es: seq<Entry>, ks: seq<Kind>, fs: seq<bool>, base: Reg)
    requires |es| >= 2 && AllNumbers(es, ks, fs) && Shaped(es) && EntriesOk(es, base)
    ensures var k := |es|;
      Numbers(Operated(op, es[k - 2], es[k - 1], base), Result(ks[k - 1]), fs[k - 2] && fs[k - 1] &&
              !Clash(ks[k - 2], ks[k - 1]))
  {
    hide Through, Kept, EntryLines;
    var k := |es|;
    var x, y := es[k - 2], es[k - 1];
    assert Numbers(x, ks[k - 2], fs[k - 2]) && Numbers(y, ks[k - 1], fs[k - 1]);
    assert EntryOk(x, base) && EntryOk(y, base);
    if y.leaf {
      LoadIsFine(y, fs[k - 1]);
      LoadedNumbers(op, x, ks[k - 2], fs[k - 2], y, base);
    } else {
      OtherNumbers(op, x, ks[k - 2], fs[k - 2], y, ks[k - 1], fs[k - 1], base);
    }
  }

  lemma {:induction false} LoadIsFine(e: Entry, f: bool)
    requires e.leaf && e.others == [] && |e.head| == 1 && DefOf(e.head[0].ins) == Some(e.reg) && Numbers(e, Loaded, f)
    ensures f
  {
    hide Through;
    FirstDefined(e.head[0], e.reg);
    assert Kept(e) == [e.head[0]];
  }

  lemma {:induction false} BinaryNumbers(params: nat, c: Cut, op: BinOp, base: Reg, ks: seq<Kind>, fs: seq<bool>,
                                         ok: bool)
    requires |c.es| >= 2 && CutNumbers(c, ks, fs, ok) && EntriesOk(c.es, base)
    ensures var k := |c.es|;
      && |ks| == |fs| == k
      && CutNumbers(StepCut(params, c, M.Binary(op), base, []), ks[..k - 2] + [Result(ks[k - 1])],
                    fs[..k - 2] + [fs[k - 2] && fs[k - 1] && !Clash(ks[k - 2], ks[k - 1])], ok)
  {
    var k := |c.es|;
    hide CutNumbers, Numbers, EntriesOk, AllNumbers, Shaped, Through, Kept, EntryLines;
    CutSizes(c, ks, fs, ok);
    OperatedNumbers(op, c.es, ks, fs, base);
    Replaced(c, k - 2, Operated(op, c.es[k - 2], c.es[k - 1], base), Result(ks[k - 1]),
             fs[k - 2] && fs[k - 1] && !Clash(ks[k - 2], ks[k - 1]), ks, fs, ok);
    hide Operated;
  }

  lemma FineParts(fs: seq<bool>, ok: bool, k: nat)
    requires |fs| == k
    ensures AllFine(ok, fs + [true]) == AllFine(ok, fs)
    ensures k == 1 ==> AllFine(ok && fs[0], []) == AllFine(ok, fs)
  {
    if k == 1 {
      assert fs == [fs[0]];
    }
  }

  lemma FineCall(fs: seq<bool>, ok: bool, m: nat)
    requires m < |fs|
    ensures AllFine(ok, fs[..m] + [false !in fs[m..|fs| - 1] && fs[|fs| - 1]]) == AllFine(ok, fs)
  {
    assert fs == fs[..m] + fs[m..|fs| - 1] + [fs[|fs| - 1]];
  }

  lemma FineBinary(fs: seq<bool>, ok: bool, clear: bool)
    requires |fs| >= 2
    ensures var k := |fs|; AllFine(ok, fs[..k - 2] + [fs[k - 2] && fs[k - 1] && clear]) == (AllFine(ok, fs) && clear)
  {
    var k := |fs|;
    assert fs == fs[..k - 2] + [fs[k - 2], fs[k - 1]];
  }

  /** One statement: registers stay apart as before, unless it makes two share. */
  lemma {:induction false} StepNumbers(params: nat, c: Cut, s: M.Stmt, base: Reg, labels: seq<Label>, ks: seq<Kind>,
                                       fs: seq<bool>, ok: bool)
    returns (fs1: seq<bool>, ok1: bool)
    requires Level([s], |ks|).Some? && CutNumbers(c, ks, fs, ok) && EntriesOk(c.es, base)
    requires (labels != [] ==> c.es == [])
    ensures |c.es| == |ks| && CutNumbers(StepCut(params, c, s, base, labels), StepKinds(s, ks), fs1, ok1)
    ensures AllFine(ok1, fs1) <==> AllFine(ok, fs) && ClearStep(s, ks)
  {
    hide *;
    CutSizes(c, ks, fs, ok);
    LevelHead([s], |ks|);
    match s
    case CallFn(n) => fs1, ok1 := CallCase(params, c, n, base, labels, ks, fs, ok);
    case Binary(op) => fs1, ok1 := BinaryCase(params, c, op, base, labels, ks, fs, ok);
    case _ => fs1, ok1 := PlainCase(params, c, s, base, labels, ks, fs, ok);
  }

  lemma {:induction false} PlainCase(params: nat, c: Cut, s: M.Stmt, base: Reg, labels: seq<Label>, ks: seq<Kind>,
                                     fs: seq<bool>, ok: bool)
    returns (fs1: seq<bool>, ok1: bool)
    requires Level([s], |ks|).Some? && CutNumbers(c, ks, fs, ok) && !s.CallFn? && !s.Binary?
    requires (labels != [] ==> c.es == [])
    requires |ks| == |fs| == |c.es|
    ensures CutNumbers(StepCut(params, c, s, base, labels), StepKinds(s, ks), fs1, ok1)
    ensures AllFine(ok1, fs1) <==> AllFine(ok, fs) && ClearStep(s, ks)
  {
    hide CutNumbers, StepCut, AllFine;
    LevelHead([s], |ks|);
    FineParts(fs, ok, |fs|);
    if s.Push? || s.Load? {
      LoadStepNumbers(params, c, s, base, labels, ks, fs, ok);
      fs1, ok1 := fs + [true], ok;
    } else {
      assert labels == [] by { assert |c.es| == 1; }
      ConsumeNumbers(params, c, s, base, ks, fs, ok);
      fs1, ok1 := [], ok && fs[0];
    }
  }

  lemma {:induction false} CallCase(params: nat, c: Cut, n: nat, base: Reg, labels: seq<Label>, ks: seq<Kind>,
                                    fs: seq<bool>, ok: bool)
    returns (fs1: seq<bool>, ok1: bool)
    requires Level([M.CallFn(n)], |ks|).Some? && CutNumbers(c, ks, fs, ok) && EntriesOk(c.es, base)
    requires (labels != [] ==> c.es == [])
    requires |ks| == |fs| == |c.es|
    ensures CutNumbers(StepCut(params, c, M.CallFn(n), base, labels), StepKinds(M.CallFn(n), ks), fs1, ok1)
    ensures AllFine(ok1, fs1) <==> AllFine(ok, fs) && ClearStep(M.CallFn(n), ks)
  {
    hide CutNumbers, StepCut, AllFine, EntriesOk;
    LevelHead([M.CallFn(n)], |ks|);
    var m := |ks| - 1 - n;
    CallNumbers(params, c, n, base, ks, fs, ok);
    fs1, ok1 := fs[..m] + [false !in fs[m..|fs| - 1] && fs[|fs| - 1]], ok;
    FineCall(fs, ok, m);
  }

  lemma {:induction false} BinaryCase(params: nat, c: Cut, op: BinOp, base: Reg, labels: seq<Label>, ks: seq<Kind>,
                                      fs: seq<bool>, ok: bool)
    returns (fs1: seq<bool>, ok1: bool)
    requires Level([M.Binary(op)], |ks|).Some? && CutNumbers(c, ks, fs, ok) && EntriesOk(c.es, base)
    requires (labels != [] ==> c.es == [])
    requires |ks| == |fs| == |c.es|
    ensures CutNumbers(StepCut(params, c, M.Binary(op), base, labels), StepKinds(M.Binary(op), ks), fs1, ok1)
    ensures AllFine(ok1, fs1) <==> AllFine(ok, fs) && ClearStep(M.Binary(op), ks)
  {
    hide CutNumbers, StepCut, AllFine, EntriesOk, Clash;
    LevelHead([M.Binary(op)], |ks|);
    var k := |ks|;
    BinaryNumbers(params, c, op, base, ks, fs, ok);
    fs1, ok1 := fs[..k - 2] + [fs[k - 2] && fs[k - 1] && !Clash(ks[k - 2], ks[k - 1])], ok;
    FineBinary(fs, ok, !Clash(ks[k - 2], ks[k - 1]));
  }

  /** The statements of a block from one of them on. */
  lemma {:induction false} RunNumbers(params: nat, c: Cut, ss: seq<M.Stmt>, base: Reg, labels: seq<Label>,
                                      ks: seq<Kind>, fs: seq<bool>, ok: bool)
    returns (ks1: seq<Kind>, fs1: seq<bool>, ok1: bool)
    requires Level(ss, |ks|).Some? && CutNumbers(c, ks, fs, ok) && EntriesOk(c.es, base)
    requires (labels != [] ==> c.es == [])
    ensures |c.es| == |ks| && CutNumbers(RunCut(params, c, ss, base, labels), ks1, fs1, ok1)
    ensures AllFine(ok1, fs1) <==> AllFine(ok, fs) && Clear(ss, ks)
    decreases |ss|
  {
    hide CutNumbers, EntriesOk, StepCut, StepKinds, ClearStep, AllFine, Level;
    CutSizes(c, ks, fs, ok);
    if ss == [] {
      ks1, fs1, ok1 := ks, fs, ok;
    } else {
      LevelHead(ss, |ks|);
      StepDepth(params, c, ss[0], base, labels);
      StepEntriesOk(params, c, ss[0], base, labels);
      var fs2, ok2 := StepNumbers(params, c, ss[0], base, labels, ks, fs, ok);
      ks1, fs1, ok1 := RunNumbers(params, StepCut(params, c, ss[0], base, labels), ss[1..], base + RegsOf(ss[0]), [],
                                  StepKinds(ss[0], ks), fs2, ok2);
    }
  }

  // ---------- Blocks ----------

  /** Lines that use no register, where nothing is live. */
  lemma {:induction false} PlainThrough(done: seq<Line>, line: Line, ok: bool)
    requires Uses(line.ins) == [] && !line.ins.Kill? && Through(done, map[]) == if ok then Some(map[]) else None
    ensures Through(done + [line], map[]) == if ok then Some(map[]) else None
  {
    ThroughOne(line, map[]);
    assert AllocAll(map[], []) == Some(map[]);
    hide Through;
    ThroughConcat(done, [line], map[]);
  }

  lemma {:induction false} BranchThrough(r: Reg, t: Label, f: Label, h: nat)
    requires h <= 1
    ensures Through([L(JnzReg(r, t)), L(Kill(r)), L(Jmp(f))], map[r := h]) == Some(map[])
  {
    hide Through;
    UsedUp(JnzReg(r, t), r, h);
    NoneThrough(map[]);
    PlainThrough([], L(Jmp(f)), true);
    assert [] + [L(Jmp(f))] == [L(Jmp(f))];
    assert [L(JnzReg(r, t)), L(Kill(r)), L(Jmp(f))] == [L(JnzReg(r, t)), L(Kill(r))] + [L(Jmp(f))];
    ThroughConcat([L(JnzReg(r, t)), L(Kill(r))], [L(Jmp(f))], map[r := h]);
  }

  lemma {:induction false} TerNumbers(bs: seq<M.Block>, ter: M.Ter, c: Cut, labels: seq<Label>, ks: seq<Kind>,
                                      fs: seq<bool>, ok: bool)
    requires CutNumbers(c, ks, fs, ok) && |c.es| == (if ter.If? then 1 else 0)
    ensures Through(TerCut(bs, ter, c, labels), map[]) == if AllFine(ok, fs) then Some(map[]) else None
  {
    hide Through, Kept, Numbers;
    match ter
    case Unset => PlainThrough(c.done, Line(labels, Error), ok);
    case Return => PlainThrough(c.done, Line(labels, Ret), ok);
    case Goto(t) => PlainThrough(c.done, Line(labels, Jmp(M.Find(bs, t))), ok);
    case If(t, f) =>
      var e := c.es[0];
      var use := [L(JnzReg(e.reg, M.Find(bs, t))), L(Kill(e.reg)), L(Jmp(M.Find(bs, f)))];
      forall h: nat | h <= 1 ensures Through(use, map[e.reg := h]) == Some(map[]) {
        BranchThrough(e.reg, M.Find(bs, t), M.Find(bs, f), h);
      }
      Consumed(c.done, e, ks[0], fs[0], ok, use);
      assert fs == [fs[0]];
  }

  /** The blocks' statements are clear. */
  predicate ClearBlock(b: M.Block)
    requires Balanced(b)
  {
    Clear(b.stmts, [])
  }

  lemma StartNumbers(out: seq<Line>, ok: bool)
    requires Through(out, map[]) == if ok then Some(map[]) else None
    ensures CutNumbers(Cut(out, []), [], [], ok) && EntriesOk([], 0) && AllFine(ok, []) == ok
  {}

  lemma {:induction false} BlockNumbers(params: nat, bs: seq<M.Block>, k: nat, base: Reg, out: seq<Line>, ok: bool)
    requires k < |bs| && Balanced(bs[k]) && Through(out, map[]) == if ok then Some(map[]) else None
    ensures Through(BlockCut(params, bs, k, base, out), map[]) == if ok && ClearBlock(bs[k]) then Some(map[]) else None
  {
    var b := bs[k];
    StartNumbers(out, ok);
    NoEntriesOk(base);
    RunCutDepth(params, Cut(out, []), b.stmts, base, [k]);
    hide Through, CutNumbers, EntriesOk, RunCut, TerCut, Level, Clear, AllFine;
    var ks, fs, ok1 := RunNumbers(params, Cut(out, []), b.stmts, base, [k], [], [], ok);
    TerNumbers(bs, b.ter, RunCut(params, Cut(out, []), b.stmts, base, [k]), if b.stmts == [] then [k] else [], ks, fs,
               ok1);
  }

  ghost predicate ClearFrom(bs: seq<M.Block>, k: nat)
    requires forall i :: k <= i < |bs| ==> Balanced(bs[i])
  {
    forall i :: k <= i < |bs| ==> ClearBlock(bs[i])
  }

  lemma {:induction false} BodyNumbers(params: nat, bs: seq<M.Block>, k: nat, base: Reg, out: seq<Line>, ok: bool)
    requires k <= |bs| && (forall i :: k <= i < |bs| ==> Balanced(bs[i]))
    requires Through(out, map[]) == if ok then Some(map[]) else None
    ensures Through(BodyCut(params, bs, k, base, out), map[]) == if ok && ClearFrom(bs, k) then Some(map[]) else None
    decreases |bs| - k
  {
    hide Through, BlockCut, ClearBlock, Balanced, BlockRegs;
    if k < |bs| {
      BlockNumbers(params, bs, k, base, out, ok);
      BodyNumbers(params, bs, k + 1, base + BlockRegs(bs[k]), BlockCut(params, bs, k, base, out), ok &&
                  ClearBlock(bs[k]));
    }
  }

  lemma {:induction false} AllocsThrough(out: seq<Line>, from: nat, params: nat, locals: nat)
    requires Through(out, map[]) == Some(map[])
    ensures Through(out + AllocLines(from, params, locals), map[]) == Some(map[])
    decreases locals - from
  {
    hide Through;
    var ls := AllocLines(from, params, locals);
    if from >= locals {
      assert out + ls == out;
    } else {
      PlainThrough(out, ls[0], true);
      AllocsThrough(out + [ls[0]], from + 1, params, locals);
      assert out + [ls[0]] + AllocLines(from + 1, params, locals) == out + ls;
    }
  }

  /** A function's lines before fusing keep registers apart exactly when all its blocks are clear. */
  lemma {:induction false} FnNumbers(fn: M.Fn)
    requires WellFormed(fn)
    ensures Through(FnCut(fn), map[]).Some? <==> ClearFrom(fn.blocks, 0)
  {
    hide Through, BodyCut, AllocLines, ClearFrom, Balanced;
    NoneThrough(map[]);
    AllocsThrough([], 0, fn.params, fn.locals);
    var out := AllocLines(0, fn.params, fn.locals);
    assert [] + out == out;
    BodyNumbers(fn.params, fn.blocks, 0, fn.locals, out, true);
  }

  // ---------- Fusing ----------

  /** A register is stored only while it is the only one alive; `after` are live at the end. */
  predicate Tidy(ls: seq<Line>, live: set<Reg>, after: set<Reg>) {
    Sole(ls, live) && LiveAt(ls, live) == after
  }

  predicate Sole(ls: seq<Line>, live: set<Reg>) {
    ls == [] || ((ls[0].ins.StoreReg? ==> live == {ls[0].ins.reg}) && Sole(ls[1..], LiveAfter(ls[0].ins, live)))
  }

  lemma {:induction false} TidyConcat(xs: seq<Line>, ys: seq<Line>, live: set<Reg>, mid: set<Reg>, after: set<Reg>)
    requires Tidy(xs, live, mid) && Tidy(ys, mid, after)
    ensures Tidy(xs + ys, live, after)
    decreases |xs|
  {
    if xs == [] {
      assert xs + ys == ys;
    } else {
      assert (xs + ys)[0] == xs[0] && (xs + ys)[1..] == xs[1..] + ys;
      TidyConcat(xs[1..], ys, LiveAfter(xs[0].ins, live), mid, after);
    }
  }

  lemma TidyOne(line: Line, live: set<Reg>)
    requires line.ins.StoreReg? ==> live == {line.ins.reg}
    ensures Tidy([line], live, LiveAfter(line.ins, live))
  {
    assert [line][1..] == [];
  }

  lemma TidyNone(live: set<Reg>)
    ensures Tidy([], live, live)
  {}

  lemma {:induction false} TidyTwo(a: Ins, b: Ins, live: set<Reg>)
    requires !a.StoreReg? && !b.StoreReg?
    ensures Tidy([L(a), L(b)], live, LiveAfter(b, LiveAfter(a, live)))
  {
    hide Tidy;
    TidyOne(L(a), live);
    TidyOne(L(b), LiveAfter(a, live));
    assert [L(a), L(b)] == [L(a)] + [L(b)];
    TidyConcat([L(a)], [L(b)], live, LiveAfter(a, live), LiveAfter(b, LiveAfter(a, live)));
  }

  ghost predicate TidyEntry(e: Entry) {
    Tidy(EntryLines(e), {}, {}) && Tidy(Kept(e), {}, {e.reg})
  }

  lemma {:induction false} TidyHead(e: Entry)
    requires |e.others| <= 1 && e.reg !in e.others
    requires Tidy(e.head, {}, if e.others == [] then {e.reg} else {e.reg, e.others[0]})
    ensures TidyEntry(e)
  {
    hide Tidy;
    KillsOne(e.others);
    var live := if e.others == [] then {e.reg} else {e.reg, e.others[0]};
    if e.others == [] {
      assert Kills(e.others) == [];
      TidyNone(live);
    } else {
      assert e.others[0] in e.others;
      TidyOne(L(Kill(e.others[0])), live);
      assert live - {e.others[0]} == {e.reg};
    }
    TidyOne(L(Push(e.reg)), live);
    TidyOne(L(Kill(e.reg)), {e.reg});
    assert {e.reg} - {e.reg} == {};
    hide Kills;
    TidyConcat(e.head, Kills(e.others), {}, live, {e.reg});
    TidyConcat(Kills(e.others), [L(Kill(e.reg))], live, {e.reg}, {});
    TidyConcat(e.head, [L(Push(e.reg))], {}, live, live);
    TidyConcat(e.head + [L(Push(e.reg))], Kills(e.others) + [L(Kill(e.reg))], {}, live, {});
  }

  lemma {:induction false} TidyOperated(op: BinOp, x: Entry, y: Entry, base: Reg)
    requires TidyEntry(x) && TidyEntry(y) && x.reg < y.reg < base
    requires y.leaf ==> y.others == [] && |y.head| == 1 && DefOf(y.head[0].ins) == Some(y.reg)
    ensures TidyEntry(Operated(op, x, y, base))
  {
    var e := Operated(op, x, y, base);
    if y.leaf {
      var line, bin := y.head[0], L(Binary(op, x.reg, y.reg));
      assert Kills([]) == [] && Kept(y) == [line];
      assert {x.reg} + {y.reg} == {x.reg, y.reg};
      TidyOne(line, {x.reg});
      TidyOne(bin, {x.reg, y.reg});
      hide Tidy, Kept;
      TidyConcat(Kept(x), [line], {}, {x.reg}, {x.reg, y.reg});
      TidyConcat(Kept(x) + [line], [bin], {}, {x.reg, y.reg}, {x.reg, y.reg});
    } else {
      var pair := [L(Pop(base + 1)), L(Binary(op, base + 1, y.reg))];
      TidyTwo(pair[0].ins, pair[1].ins, {y.reg});
      assert {y.reg} + {base + 1} == {base + 1, y.reg};
      hide Tidy, Kept, EntryLines;
      TidyConcat(EntryLines(x), Kept(y), {}, {}, {y.reg});
      TidyConcat(EntryLines(x) + Kept(y), pair, {}, {y.reg}, {base + 1, y.reg});
    }
    hide Tidy, Kept, EntryLines;
    TidyHead(e);
  }

  lemma {:induction false} TidyPopArgs(n: nat, r: Reg, base: Reg)
    requires r < base
    ensures Tidy(PopArgs(n, base), {r}, {r})
    decreases n
  {
    hide Tidy;
    if n == 0 {
      TidyNone({r});
    } else {
      TidyTwo(Pop(base), Kill(base), {r});
      assert {r} + {base} - {base} == {r};
      TidyPopArgs(n - 1, r, base + 1);
      TidyConcat([L(Pop(base)), L(Kill(base))], PopArgs(n - 1, base + 1), {r}, {r}, {r});
    }
  }

  ghost predicate TidyEntries(es: seq<Entry>) {
    forall i :: 0 <= i < |es| ==> TidyEntry(es[i])
  }

  lemma {:induction false} TidyFlat(es: seq<Entry>)
    requires TidyEntries(es)
    ensures Tidy(Flat(es), {}, {})
    decreases |es|
  {
    hide Tidy, EntryLines;
    if es == [] {
      TidyNone({});
    } else {
      TidyFlat(es[..|es| - 1]);
      TidyConcat(Flat(es[..|es| - 1]), EntryLines(es[|es| - 1]), {}, {}, {});
    }
  }

  lemma {:induction false} TidyCalled(n: nat, args: seq<Entry>, f: Entry, base: Reg)
    requires TidyEntries(args) && TidyEntry(f)
    ensures TidyEntry(Called(n, args, f, base))
  {
    hide Tidy, Flat, Kept, EntryLines, PopArgs;
    var r := base + 1;
    TidyFlat(args);
    TidyConcat(Flat(args), Kept(f), {}, {}, {f.reg});
    TidyTwo(CallReg(f.reg, n), Kill(f.reg), {f.reg});
    assert {f.reg} - {f.reg} == {};
    TidyOne(L(Pop(r)), {});
    assert {} + {r} == {r};
    var call := [L(CallReg(f.reg, n)), L(Kill(f.reg)), L(Pop(r))];
    assert call == [L(CallReg(f.reg, n)), L(Kill(f.reg))] + [L(Pop(r))];
    TidyConcat([L(CallReg(f.reg, n)), L(Kill(f.reg))], [L(Pop(r))], {f.reg}, {}, {r});
    TidyPopArgs(n, r, base + 2);
    TidyConcat(Flat(args) + Kept(f), call, {}, {f.reg}, {r});
    TidyConcat(Flat(args) + Kept(f) + call, PopArgs(n, base + 2), {}, {r}, {r});
    TidyHead(Called(n, args, f, base));
  }

  ghost predicate CutTidy(c: Cut) {
    Tidy(c.done, {}, {}) && TidyEntries(c.es) && Shaped(c.es)
  }

  lemma {:induction false} TidyReplaced(c: Cut, m: nat, e: Entry)
    requires CutTidy(c) && m <= |c.es| && TidyEntry(e) && |e.others| <= 1
    requires e.leaf ==>
      e.others == [] && |e.head| == 1 && DefOf(e.head[0].ins) == Some(e.reg) && (m > 0 ==> e.head[0].labels == [])
    ensures CutTidy(Cut(c.done, c.es[..m] + [e]))
  {
    hide Tidy, TidyEntry;
    ShapedFront(c.es, m);
    ShapedPush(c.es[..m], e);
  }

  lemma {:induction false} StepTidy(params: nat, c: Cut, s: M.Stmt, base: Reg, labels: seq<Label>)
    requires Level([s], |c.es|).Some? && CutTidy(c) && EntriesOk(c.es, base) && (labels != [] ==> c.es == [])
    ensures CutTidy(StepCut(params, c, s, base, labels))
  {
    hide CutTidy, StepCut, EntriesOk;
    LevelHead([s], |c.es|);
    match s
    case CallFn(n) => CallTidy(params, c, n, base, labels);
    case Binary(op) => BinaryTidy(params, c, op, base, labels);
    case _ => PlainTidy(params, c, s, base, labels);
  }

  lemma {:induction false} PlainTidy(params: nat, c: Cut, s: M.Stmt, base: Reg, labels: seq<Label>)
    requires Level([s], |c.es|).Some? && !s.CallFn? && !s.Binary? && CutTidy(c) && (labels != [] ==> c.es == [])
    ensures CutTidy(StepCut(params, c, s, base, labels))
  {
    hide Tidy, TidyEntry, Kept;
    LevelHead([s], |c.es|);
    match s
    case Pop => TidyConsumed(c.done, c.es[0], [L(Kill(c.es[0].reg))]);
    case Store(l) => TidyConsumed(c.done, c.es[0], [L(StoreReg(SlotOf(params, l), c.es[0].reg)), L(Kill(c.es[0].reg))]);
    case _ => TidyLoad(params, c, s, base, labels);
  }

  lemma {:induction false} CallTidy(params: nat, c: Cut, n: nat, base: Reg, labels: seq<Label>)
    requires Level([M.CallFn(n)], |c.es|).Some? && |c.es| >= n + 1 && CutTidy(c)
    ensures CutTidy(StepCut(params, c, M.CallFn(n), base, labels))
  {
    hide Tidy, TidyEntry, CutTidy, Kept, Flat, PopArgs, Shaped;
    var k := |c.es|;
    TidyAbove(c, k - 1 - n, k - 1);
    TidyCalled(n, c.es[k - 1 - n..k - 1], c.es[k - 1], base);
    TidyReplaced(c, k - 1 - n, Called(n, c.es[k - 1 - n..k - 1], c.es[k - 1], base));
  }

  lemma TidyAbove(c: Cut, i: nat, j: nat)
    requires CutTidy(c) && i <= j < |c.es|
    ensures TidyEntries(c.es[i..j]) && TidyEntry(c.es[j])
  {
    hide TidyEntry;
  }

  lemma {:induction false} BinaryTidy(params: nat, c: Cut, op: BinOp, base: Reg, labels: seq<Label>)
    requires Level([M.Binary(op)], |c.es|).Some? && |c.es| >= 2 && CutTidy(c) && EntriesOk(c.es, base)
    ensures CutTidy(StepCut(params, c, M.Binary(op), base, labels))
  {
    hide Tidy, TidyEntry, Kept, EntryLines;
    var k := |c.es|;
    assert EntryOk(c.es[k - 1], base);
    TidyOperated(op, c.es[k - 2], c.es[k - 1], base);
    TidyReplaced(c, k - 2, Operated(op, c.es[k - 2], c.es[k - 1], base));
  }

  lemma {:induction false} TidyLoad(params: nat, c: Cut, s: M.Stmt, base: Reg, labels: seq<Label>)
    requires (s.Push? || s.Load?) && CutTidy(c) && (labels != [] ==> c.es == [])
    ensures CutTidy(StepCut(params, c, s, base, labels))
  {
    hide Tidy;
    var line := Line(labels, LoadOf(params, s, base));
    var e := Entry([line], base, [], true);
    TidyOne(line, {});
    assert {} + {base} == {base};
    TidyHead(e);
    assert c.es[..|c.es|] == c.es;
    TidyReplaced(c, |c.es|, e);
  }

  lemma {:induction false} TidyConsumed(done: seq<Line>, e: Entry, use: seq<Line>)
    requires Tidy(done, {}, {}) && TidyEntry(e)
    requires use == [L(Kill(e.reg))] || (exists s :: use == [L(StoreReg(s, e.reg)), L(Kill(e.reg))]) ||
      (exists t, f :: use == [L(JnzReg(e.reg, t)), L(Kill(e.reg)), L(Jmp(f))])
    ensures Tidy(done + Kept(e) + use, {}, {})
  {
    hide Tidy, Kept, EntryLines;
    var live := {e.reg};
    TidyConcat(done, Kept(e), {}, {}, live);
    assert live - {e.reg} == {};
    TidyOne(L(Kill(e.reg)), live);
    if use != [L(Kill(e.reg))] {
      TidyOne(use[0], live);
      TidyConcat([use[0]], [L(Kill(e.reg))], live, live, {});
      if |use| == 3 {
        TidyOne(use[2], {});
        TidyConcat([use[0]] + [L(Kill(e.reg))], [use[2]], live, {}, {});
        assert use == [use[0]] + [L(Kill(e.reg))] + [use[2]];
      } else {
        assert use == [use[0]] + [L(Kill(e.reg))];
      }
    }
    TidyConcat(done + Kept(e), use, {}, live, {});
  }

  lemma {:induction false} RunTidy(params: nat, c: Cut, ss: seq<M.Stmt>, base: Reg, labels: seq<Label>)
    requires Level(ss, |c.es|).Some? && CutTidy(c) && EntriesOk(c.es, base) && (labels != [] ==> c.es == [])
    ensures CutTidy(RunCut(params, c, ss, base, labels))
    decreases |ss|
  {
    hide CutTidy, EntriesOk, StepCut;
    if ss != [] {
      LevelHead(ss, |c.es|);
      StepDepth(params, c, ss[0], base, labels);
      StepEntriesOk(params, c, ss[0], base, labels);
      StepTidy(params, c, ss[0], base, labels);
      RunTidy(params, StepCut(params, c, ss[0], base, labels), ss[1..], base + RegsOf(ss[0]), []);
    }
  }

  lemma {:induction false} BlockTidy(params: nat, bs: seq<M.Block>, k: nat, base: Reg, out: seq<Line>)
    requires k < |bs| && Balanced(bs[k]) && Tidy(out, {}, {})
    ensures Tidy(BlockCut(params, bs, k, base, out), {}, {})
  {
    hide Tidy, TidyEntry, EntriesOk, RunCut, Kept;
    var b := bs[k];
    var labels := if b.stmts == [] then [k] else [];
    NoEntriesOk(base);
    RunCutDepth(params, Cut(out, []), b.stmts, base, [k]);
    RunTidy(params, Cut(out, []), b.stmts, base, [k]);
    var c := RunCut(params, Cut(out, []), b.stmts, base, [k]);
    match b.ter
    case Unset => TidyOne(Line(labels, Error), {}); TidyConcat(c.done, [Line(labels, Error)], {}, {}, {});
    case Return => TidyOne(Line(labels, Ret), {}); TidyConcat(c.done, [Line(labels, Ret)], {}, {}, {});
    case Goto(t) =>
      TidyOne(Line(labels, Jmp(M.Find(bs, t))), {});
      TidyConcat(c.done, [Line(labels, Jmp(M.Find(bs, t)))], {}, {}, {});
    case If(t, f) =>
      var e := c.es[0];
      TidyConsumed(c.done, e, [L(JnzReg(e.reg, M.Find(bs, t))), L(Kill(e.reg)), L(Jmp(M.Find(bs, f)))]);
  }

  lemma {:induction false} BodyTidy(params: nat, bs: seq<M.Block>, k: nat, base: Reg, out: seq<Line>)
    requires k <= |bs| && (forall i :: k <= i < |bs| ==> Balanced(bs[i])) && Tidy(out, {}, {})
    ensures Tidy(BodyCut(params, bs, k, base, out), {}, {})
    decreases |bs| - k
  {
    hide Tidy, BlockCut, Balanced, BlockRegs;
    if k < |bs| {
      BlockTidy(params, bs, k, base, out);
      BodyTidy(params, bs, k + 1, base + BlockRegs(bs[k]), BlockCut(params, bs, k, base, out));
    }
  }

  lemma {:induction false} AllocsTidy(from: nat, params: nat, locals: nat)
    ensures Tidy(AllocLines(from, params, locals), {}, {})
    decreases locals - from
  {
    hide Tidy;
    if from >= locals {
      TidyNone({});
    } else {
      TidyOne(AllocLines(from, params, locals)[0], {});
      AllocsTidy(from + 1, params, locals);
      TidyConcat([AllocLines(from, params, locals)[0]], AllocLines(from + 1, params, locals), {}, {}, {});
    }
  }

  lemma {:induction false} FnTidy(fn: M.Fn)
    requires WellFormed(fn)
    ensures Sole(FnCut(fn), {})
  {
    hide BodyCut, AllocLines, Balanced;
    AllocsTidy(0, fn.params, fn.locals);
    BodyTidy(fn.params, fn.blocks, 0, fn.locals, AllocLines(0, fn.params, fn.locals));
  }

  // ---------- Fused lines ----------

  lemma ThreeTails(three: seq<Line>, rest: seq<Line>)
    requires |three| == 3
    ensures (three + rest)[0] == three[0] && (three + rest)[1..] == [three[1], three[2]] + rest
    ensures ([three[1], three[2]] + rest)[0] == three[1] && ([three[1], three[2]] + rest)[1..] == [three[2]] + rest
    ensures ([three[2]] + rest)[0] == three[2] && ([three[2]] + rest)[1..] == rest
  {}

  /** Nothing else is alive around three such lines. */
  lemma {:induction false} AloneAround(three: seq<Line>, one: Line, rest: seq<Line>, live: set<Reg>, next: Reg,
                                       slots: nat)
    requires IsFused(three, one) && Ok(three + rest, live, next, slots) && Sane(live, next, slots)
    requires Sole(three + rest, live)
    ensures live == {} && Sole(rest, {}) && exists next1: Reg :: Ok(rest, {}, next1, slots) && Sane({}, next1, slots)
  {
    ThreeTails(three, rest);
    var r := three[0].ins.reg;
    var l1, l2 := [three[1], three[2]] + rest, [three[2]] + rest;
    assert Ok(l1, live + {r}, r + 1, slots) && Sole(l1, live + {r});
    assert live + {r} == {r} && r !in live;
    assert live == {};
    assert Ok(l2, {r}, r + 1, slots) && Sole(l2, {r});
    assert {r} - {r} == {};
    assert Ok(rest, {}, r + 1, slots) && Sane({}, r + 1, slots);
  }

  lemma {:induction false} FusedThrough(three: seq<Line>, one: Line)
    requires IsFused(three, one)
    ensures Through(three, map[]) == Some(map[]) && Through([one], map[]) == Some(map[])
  {
    FusedShape(three, one);
    hide Through, IsFused;
    ThroughThree(three, three[0].ins.reg);
    NoneThrough(map[]);
    PlainThrough([], one, true);
    assert [] + [one] == [one];
  }

  lemma FusedShape(three: seq<Line>, one: Line)
    requires IsFused(three, one)
    ensures |three| == 3 && DefOf(three[0].ins).Some? && Uses(one.ins) == [] && !one.ins.Kill?
    ensures three[0].ins.MovFn? || three[0].ins.MovInt?
    ensures three[0].ins.reg == DefOf(three[0].ins).value && three[2] == L(Kill(three[0].ins.reg))
    ensures three[1].labels == []
    ensures Uses(three[1].ins) == [three[0].ins.reg] && DefOf(three[1].ins).None? && !three[1].ins.Kill?
  {}

  lemma {:induction false} ThroughThree(three: seq<Line>, r: Reg)
    requires |three| == 3 && DefOf(three[0].ins) == Some(r) && three[2] == L(Kill(r))
    requires three[1].labels == [] && Uses(three[1].ins) == [r] && DefOf(three[1].ins).None? && !three[1].ins.Kill?
    ensures Through(three, map[]) == Some(map[])
  {
    hide Through;
    FirstDefined(three[0], r);
    UsedUp(three[1].ins, r, 0);
    assert three == [three[0]] + [L(three[1].ins), L(Kill(r))];
    ThroughConcat([three[0]], [L(three[1].ins), L(Kill(r))], map[]);
  }

  /** Fusing changes nothing about who shares with whom. */
  lemma {:induction false} FuseThrough(ls: seq<Line>, sel: Selection, next: Reg, slots: nat)
    requires Ok(ls, sel.Keys, next, slots) && Sane(sel.Keys, next, slots) && Sole(ls, sel.Keys)
    ensures Through(Fuse(ls), sel) == Through(ls, sel)
    decreases |ls|
  {
    if ls != [] {
      if LirOptimize.At(LirOptimize.FnCall, ls, 0) {
        FuseThree(ls, Line(ls[0].labels, CallImm(ls[0].ins.f, ls[1].ins.args)), sel, next, slots);
      } else if LirOptimize.At(LirOptimize.IntStore, ls, 0) {
        FuseThree(ls, Line(ls[0].labels, StoreImm(ls[1].ins.slot, ls[0].ins.val)), sel, next, slots);
      } else {
        FuseNone(ls, sel, next, slots);
      }
    }
  }

  lemma {:induction false} FuseThree(ls: seq<Line>, one: Line, sel: Selection, next: Reg, slots: nat)
    requires |ls| >= 3 && IsFused(ls[..3], one) && Fuse(ls) == [one] + Fuse(ls[3..])
    requires Ok(ls, sel.Keys, next, slots) && Sane(sel.Keys, next, slots) && Sole(ls, sel.Keys)
    ensures Through(Fuse(ls), sel) == Through(ls, sel)
    decreases |ls|, 0
  {
    hide Through, Ok, Sane, Sole, Fuse;
    var three, rest := ls[..3], ls[3..];
    assert ls == three + rest;
    AloneAround(three, one, rest, sel.Keys, next, slots);
    FusedThrough(three, one);
    var next1: Reg :| Ok(rest, {}, next1, slots) && Sane({}, next1, slots);
    assert sel == map[];
    FuseThrough(rest, sel, next1, slots);
    ThroughConcat(three, rest, sel);
    ThroughConcat([one], Fuse(rest), sel);
  }

  lemma {:induction false} FuseNone(ls: seq<Line>, sel: Selection, next: Reg, slots: nat)
    requires ls != [] && Fuse(ls) == [ls[0]] + Fuse(ls[1..])
    requires Ok(ls, sel.Keys, next, slots) && Sane(sel.Keys, next, slots) && Sole(ls, sel.Keys)
    ensures Through(Fuse(ls), sel) == Through(ls, sel)
    decreases |ls|, 0
  {
    hide Fuse;
    var line, rest := ls[0], ls[1..];
    assert ls == [line] + rest;
    OkHead(ls, sel.Keys, next, slots);
    ThroughOne(line, sel);
    KeysAfter(line.ins, sel, next, slots);
    hide Through, Ok, Sane, LineOk, Stays;
    ThroughConcat([line], rest, sel);
    ThroughConcat([line], Fuse(rest), sel);
    if Through([line], sel).Some? {
      FuseThrough(rest, Through([line], sel).value, NextAfter(line.ins, next), slots);
    }
  }

  /** A line's registers are what the selection holds behind it. */
  lemma {:induction false} KeysAfter(ins: Ins, sel: Selection, next: Reg, slots: nat)
    requires LineOk(ins, sel.Keys, next, slots)
    ensures AllocAll(sel, Uses(ins)).Some? ==>
      Forget(ins, AllocAll(sel, Uses(ins)).value).Keys == LiveAfter(ins, sel.Keys)
  {
    hide AllocAll;
    if DefOf(ins).Some? {
      if AllocAll(sel, Uses(ins)).Some? {
        OneDefined(ins, sel.Keys, next, slots, sel, AllocAll(sel, Uses(ins)).value);
      }
    } else {
      NoneAllocated(ins, sel.Keys, next, slots, sel);
    }
  }

  // ---------- The theorem ----------

  lemma {:induction false} NormalApart(fn: M.Fn)
    requires WellFormed(fn)
    ensures Ok(Normal(FnLines(fn)), {}, fn.locals, fn.locals)
    ensures Apart(Normal(FnLines(fn)), map[], MACHINE_REGS) <==> ClearFrom(fn.blocks, 0)
  {
    hide Ok, Through, Fuse, FnCut, FnLines, Cache, Sole, ClearFrom;
    GenFnOk(fn);
    NothingPending();
    assert [] + FnLines(fn) == FnLines(fn);
    CacheOk([], [], FnLines(fn), fn.locals);
    NormalOk(FnLines(fn), fn.locals);
    FnWalk(fn);
    FnTidy(fn);
    var none: Selection := map[];
    assert none.Keys == {};
    FuseThrough(FnCut(fn), none, fn.locals, fn.locals);
    FnNumbers(fn);
    ApartThrough(Normal(FnLines(fn)), none);
  }
}
