/** The optimised lines of stack code, statement by statement: which values stay in registers.
  *
  * The walk of the normal form over a block's lines is followed on the statements they come from. */
module LirEntries {
  import opened Values
  import M = Mir
  import opened MirShape
  import opened Lir
  import opened LirGen
  import opened LirGenLive
  import opened LirLive
  import opened LirRewrite
  import opened LirOptimize
  import opened LirNormal

  // Each value on the evaluation stack has the lines that compute it into a register and push it.  A
  // statement that takes the top value finds it in its register; the value below is still in a register
  // only if the top one was a single load.

  /** A value: the lines that bring it into `reg`, which are followed by its push, the kills of `others`
    * and its own. */
  datatype Entry = Entry(head: seq<Line>, reg: Reg, others: seq<Reg>, leaf: bool)

  function Kills(rs: seq<Reg>): seq<Line> {
    if rs == [] then [] else Kills(rs[..|rs| - 1]) + [L(Kill(rs[|rs| - 1]))]
  }

  function EntryLines(e: Entry): seq<Line> {
    e.head + [L(Push(e.reg))] + (Kills(e.others) + [L(Kill(e.reg))])
  }

  /** The value taken from its register: neither pushed nor killed. */
  function Kept(e: Entry): seq<Line> {
    e.head + Kills(e.others)
  }

  function Flat(es: seq<Entry>): seq<Line> {
    if es == [] then [] else Flat(es[..|es| - 1]) + EntryLines(es[|es| - 1])
  }

  /** Where the untouched pushes stand, after `n` lines: that of the last value, and under a load that of
    * the value below. */
  function PendOf(n: nat, es: seq<Entry>): seq<nat> {
    if es == [] then [] else
    var front, last := es[..|es| - 1], es[|es| - 1];
    (if last.leaf then PendOf(n, front) else []) + [n + |Flat(front)| + |last.head|]
  }

  /** The lines passed, and the values on the stack after them. */
  datatype Cut = Cut(done: seq<Line>, es: seq<Entry>)

  function LoadOf(params: nat, s: M.Stmt, base: Reg): Ins
    requires s.Push? || s.Load?
  {
    match s
    case Push(IntVal(n)) => MovInt(base, n)
    case Push(StrVal(t)) => MovString(base, t)
    case Push(FnVal(f)) => MovFn(base, f)
    case Load(l) => Load(base, SlotOf(params, l))
  }

  /** The value of a binary operation: beside the right operand, the left one is in its register if that
    * was a load, and else it is popped. */
  function Operated(op: BinOp, x: Entry, y: Entry, base: Reg): Entry {
    if y.leaf then Entry(Kept(x) + Kept(y) + [L(Binary(op, x.reg, y.reg))], x.reg, [y.reg], false)
    else Entry(EntryLines(x) + Kept(y) + [L(Pop(base + 1)), L(Binary(op, base + 1, y.reg))], base + 1, [y.reg], false)
  }

  function Called(n: nat, args: seq<Entry>, f: Entry, base: Reg): Entry {
    Entry(Flat(args) + Kept(f) + [L(CallReg(f.reg, n)), L(Kill(f.reg)), L(Pop(base + 1))] + PopArgs(n, base + 2),
          base + 1, [], false)
  }

  function StepCut(params: nat, c: Cut, s: M.Stmt, base: Reg, labels: seq<Label>): Cut
    requires Level([s], |c.es|).Some?
  {
    var k := |c.es|;
    match s
    case Push(_) => c.(es := c.es + [Entry([Line(labels, LoadOf(params, s, base))], base, [], true)])
    case Load(_) => c.(es := c.es + [Entry([Line(labels, LoadOf(params, s, base))], base, [], true)])
    case Pop => Cut(c.done + Kept(c.es[0]) + [L(Kill(c.es[0].reg))], [])
    case Store(l) => Cut(c.done + Kept(c.es[0]) + [L(StoreReg(SlotOf(params, l), c.es[0].reg)), L(Kill(c.es[0].reg))],
                         [])
    case CallFn(n) => c.(es := c.es[..k - 1 - n] + [Called(n, c.es[k - 1 - n..k - 1], c.es[k - 1], base)])
    case Binary(op) => c.(es := c.es[..k - 2] + [Operated(op, c.es[k - 2], c.es[k - 1], base)])
  }

  // ---------- One pop ----------

  /** The registers of a value are older than `base`, and its own is not among the others. */
  predicate EntryOk(e: Entry, base: Reg) {
    && e.reg < base && e.reg !in e.others
    && (forall r :: r in e.others ==> r < base)
    && (e.leaf ==> e.others == [])
  }

  predicate EntriesOk(es: seq<Entry>, base: Reg) {
    && (forall i :: 0 <= i < |es| ==> EntryOk(es[i], base))
    && (forall i, j :: 0 <= i < j < |es| ==> es[i].reg < es[j].reg)
  }

  lemma {:induction false} DropLast(rs: seq<Reg>, a: Reg, tail: seq<Line>)
    requires a !in rs
    ensures DropKill(Kills(rs) + ([L(Kill(a))] + tail), a) == Kills(rs) + tail
    decreases |rs|
  {
    if rs == [] {
      assert Kills(rs) + ([L(Kill(a))] + tail) == [L(Kill(a))] + tail;
      assert ([L(Kill(a))] + tail)[1..] == tail;
      assert Kills(rs) + tail == tail;
    } else {
      NotKilled(rs, a);
      DropKillPast(Kills(rs), [L(Kill(a))] + tail, a);
      assert ([L(Kill(a))] + tail)[1..] == tail;
    }
  }

  lemma {:induction false} NotKilled(rs: seq<Reg>, a: Reg)
    requires a !in rs
    ensures !HasKill(Kills(rs), a)
    decreases |rs|
  {
    if rs != [] {
      NotKilled(rs[..|rs| - 1], a);
      assert rs[|rs| - 1] in rs;
    }
  }

  lemma {:induction false} DropKillPast(xs: seq<Line>, ys: seq<Line>, a: Reg)
    requires !HasKill(xs, a)
    ensures DropKill(xs + ys, a) == xs + DropKill(ys, a)
    decreases |xs|
  {
    if xs == [] {
      assert xs + ys == ys;
    } else {
      assert (xs + ys)[0] == xs[0] && (xs + ys)[1..] == xs[1..] + ys;
      assert xs[0].ins != Kill(a);
      forall i | 0 <= i < |xs[1..]| ensures xs[1..][i].ins != Kill(a) {
        assert xs[1..][i] == xs[i + 1];
      }
      DropKillPast(xs[1..], ys, a);
    }
  }

  /** A pop takes the last value's push, past lines that do not touch the stack. */
  lemma {:induction false} PopTakes(done: seq<Line>, es: seq<Entry>, tail: seq<Line>, b: Reg, rest: seq<Line>)
    requires es != [] && es[|es| - 1].reg !in es[|es| - 1].others
    ensures var front, e := es[..|es| - 1], es[|es| - 1];
      Cache(done + Flat(es) + tail, PendOf(|done|, es), [L(Pop(b))] + rest) ==
      Cache(done + Flat(front) + Kept(e) + tail, if e.leaf then PendOf(|done|, front) else [], Rename(rest, b, e.reg))
  {
    hide Rename, PendOf, DropKill;
    var front, e := es[..|es| - 1], es[|es| - 1];
    var out := done + Flat(es) + tail;
    var before := done + Flat(front) + e.head;
    var after := Kills(e.others) + ([L(Kill(e.reg))] + tail);
    EntryShape(done, es, tail);
    PendLast(|done|, es);
    DropLast(e.others, e.reg, tail);
    assert out[|before|] == L(Push(e.reg)) && out[..|before|] == before && out[|before| + 1..] == after;
    assert ([L(Pop(b))] + rest)[0] == L(Pop(b)) && ([L(Pop(b))] + rest)[1..] == rest;
    assert before + (Kills(e.others) + tail) == done + Flat(front) + Kept(e) + tail;
  }

  /** The same from where the statements so far have led. */
  lemma {:induction false} TakesTop(c: Cut, b: Reg, rest: seq<Line>)
    requires c.es != [] && c.es[|c.es| - 1].reg !in c.es[|c.es| - 1].others
    ensures var front, e := c.es[..|c.es| - 1], c.es[|c.es| - 1];
      Walk(c, [L(Pop(b))] + rest) ==
      Cache(c.done + Flat(front) + Kept(e), if e.leaf then PendOf(|c.done|, front) else [], Rename(rest, b, e.reg))
  {
    hide Cache, PendOf, Flat, Kept, Rename;
    PopTakes(c.done, c.es, [], b, rest);
    assert c.done + Flat(c.es) + [] == c.done + Flat(c.es);
    var front, e := c.es[..|c.es| - 1], c.es[|c.es| - 1];
    assert c.done + Flat(front) + Kept(e) + [] == c.done + Flat(front) + Kept(e);
  }

  lemma EntryShape(done: seq<Line>, es: seq<Entry>, tail: seq<Line>)
    requires es != []
    ensures var front, e := es[..|es| - 1], es[|es| - 1];
      done + Flat(es) + tail ==
      (done + Flat(front) + e.head) + ([L(Push(e.reg))] + (Kills(e.others) + ([L(Kill(e.reg))] + tail)))
  {
    var front, e := es[..|es| - 1], es[|es| - 1];
    Regrouped(done, Flat(front), e.head, [L(Push(e.reg))], Kills(e.others), [L(Kill(e.reg))], tail);
  }

  lemma Regrouped(a: seq<Line>, b: seq<Line>, h: seq<Line>, p: seq<Line>, k: seq<Line>, x: seq<Line>, t: seq<Line>)
    ensures a + (b + (h + p + (k + x))) + t == (a + b + h) + (p + (k + (x + t)))
  {}

  lemma PendLast(n: nat, es: seq<Entry>)
    requires es != []
    ensures var front, e := es[..|es| - 1], es[|es| - 1]; var pend := PendOf(n, es);
      && pend != [] && pend[|pend| - 1] == n + |Flat(front)| + |e.head|
      && pend[..|pend| - 1] == if e.leaf then PendOf(n, front) else []
  {}

  // ---------- One statement ----------

  lemma {:induction false} Passing(out: seq<Line>, pend: seq<nat>, line: Line, rest: seq<Line>)
    requires !line.ins.Pop? || pend == []
    ensures Cache(out, pend, [line] + rest) == Cache(out + [line], PendAfter(pend, |out|, line), rest)
  {
    assert ([line] + rest)[0] == line && ([line] + rest)[1..] == rest;
  }

  lemma FlatLast(es: seq<Entry>, e: Entry)
    ensures Flat(es + [e]) == Flat(es) + EntryLines(e)
  {
    assert (es + [e])[..|es|] == es;
  }

  lemma {:induction false} FlatConcat(xs: seq<Entry>, ys: seq<Entry>)
    ensures Flat(xs + ys) == Flat(xs) + Flat(ys)
    decreases |ys|
  {
    assert Flat([]) == [];
    hide EntryLines, Flat;
    if ys == [] {
      assert xs + ys == xs;
    } else {
      var ys1, y := ys[..|ys| - 1], ys[|ys| - 1];
      FlatConcat(xs, ys1);
      FlatLast(xs + ys1, y);
      FlatLast(ys1, y);
      assert ys == ys1 + [y];
      assert xs + ys == xs + ys1 + [y];
    }
  }

  /** A value is pushed: its head has been passed, and whatever pushes are untouched then. */
  lemma {:induction false} PushPasses(done: seq<Line>, es: seq<Entry>, e: Entry, pend: seq<nat>, rest: seq<Line>)
    requires e.others == [] || e.others == [e.others[0]]
    requires pend == if e.leaf then PendOf(|done|, es) else []
    ensures Cache(done + Flat(es) + e.head, pend, [L(Push(e.reg))] + (Kills(e.others) + ([L(Kill(e.reg))] + rest))) ==
            Cache(done + Flat(es + [e]), PendOf(|done|, es + [e]), rest)
  {
    var out := done + Flat(es) + e.head;
    var pend1 := pend + [|out|];
    PendPushed(done, es, e);
    FlatLast(es, e);
    PushedShape(done, Flat(es), e);
    hide Cache, Kills, PendOf, Flat;
    Passing(out, pend, L(Push(e.reg)), Kills(e.others) + ([L(Kill(e.reg))] + rest));
    var o1 := out + [L(Push(e.reg))];
    PassKills(o1, pend1, e.others, [L(Kill(e.reg))] + rest);
    Passing(o1 + Kills(e.others), pend1, L(Kill(e.reg)), rest);
  }

  lemma PendPushed(done: seq<Line>, es: seq<Entry>, e: Entry)
    ensures PendOf(|done|, es + [e]) == (if e.leaf then PendOf(|done|, es) else []) + [|done + Flat(es) + e.head|]
  {
    PendLast(|done|, es + [e]);
    assert (es + [e])[..|es|] == es;
  }

  lemma KillsOne(rs: seq<Reg>)
    ensures |rs| == 1 ==> Kills(rs) == [L(Kill(rs[0]))]
  {
    if |rs| == 1 {
      assert rs[..0] == [];
      assert Kills(rs[..0]) == [];
    }
  }

  lemma PushedShape(done: seq<Line>, flat: seq<Line>, e: Entry)
    ensures done + flat + e.head + [L(Push(e.reg))] + Kills(e.others) + [L(Kill(e.reg))] ==
      done + (flat + EntryLines(e))
  {}

  lemma {:induction false} PassKills(out: seq<Line>, pend: seq<nat>, rs: seq<Reg>, rest: seq<Line>)
    requires |rs| <= 1
    ensures Cache(out, pend, Kills(rs) + rest) == Cache(out + Kills(rs), pend, rest)
  {
    KillsOne(rs);
    if rs == [] {
      assert Kills(rs) + rest == rest && out + Kills(rs) == out;
    } else {
      Passing(out, pend, L(Kill(rs[0])), rest);
    }
  }

  /** The walk from where the statements so far have led. */
  function Walk(c: Cut, rest: seq<Line>): seq<Line> {
    Cache(c.done + Flat(c.es), PendOf(|c.done|, c.es), rest)
  }

  lemma {:induction false} LoadStep(params: nat, c: Cut, s: M.Stmt, base: Reg, labels: seq<Label>, rest: seq<Line>)
    requires s.Push? || s.Load?
    requires labels != [] ==> c.es == []
    ensures Walk(c, Labelled(labels, StmtLines(params, s, base)) + rest) ==
      Walk(StepCut(params, c, s, base, labels), rest)
  {
    LoadShape(params, s, base, labels, rest);
    Loads(c, Line(labels, LoadOf(params, s, base)), base, rest);
  }

  lemma {:induction false} Loads(c: Cut, load: Line, base: Reg, rest: seq<Line>)
    requires DefOf(load.ins).Some? && !load.ins.Pop? && (load.labels != [] ==> c.es == [])
    ensures Walk(c, [load] + ([L(Push(base))] + (Kills([]) + ([L(Kill(base))] + rest)))) ==
            Walk(Cut(c.done, c.es + [Entry([load], base, [], true)]), rest)
  {
    var out, pend := c.done + Flat(c.es), PendOf(|c.done|, c.es);
    assert PendOf(|c.done|, []) == [];
    assert PendAfter(pend, |out|, load) == pend;
    hide Cache, Kills, PendOf, Flat, PendAfter;
    Passing(out, pend, load, [L(Push(base))] + (Kills([]) + ([L(Kill(base))] + rest)));
    PushPasses(c.done, c.es, Entry([load], base, [], true), pend, rest);
  }

  lemma LoadShape(params: nat, s: M.Stmt, base: Reg, labels: seq<Label>, rest: seq<Line>)
    requires s.Push? || s.Load?
    ensures Labelled(labels, StmtLines(params, s, base)) + rest ==
            [Line(labels, LoadOf(params, s, base))] + ([L(Push(base))] + (Kills([]) + ([L(Kill(base))] + rest)))
  {
    var ls := StmtLines(params, s, base);
    assert ls == [L(LoadOf(params, s, base)), L(Push(base)), L(Kill(base))];
    assert labels + ls[0].labels == labels && Kills([]) == [];
    assert ls[1..] == [L(Push(base)), L(Kill(base))];
  }

  /** What a statement's own registers are renamed to stays in the statement. */
  ghost predicate Fresh(rest: seq<Line>, base: Reg, n: nat) {
    forall b :: base <= b < base + n ==> Unnamed(rest, b)
  }

  lemma {:induction false} PopStep(params: nat, c: Cut, base: Reg, rest: seq<Line>)
    requires |c.es| == 1 && EntriesOk(c.es, base) && Fresh(rest, base, 1)
    ensures Walk(c, StmtLines(params, M.Pop, base) + rest) == Walk(StepCut(params, c, M.Pop, base, []), rest)
  {
    var e := c.es[0];
    PopsOne(c, base, [L(Kill(base))], [L(Kill(e.reg))], rest);
    assert StmtLines(params, M.Pop, base) + rest == [L(Pop(base))] + ([L(Kill(base))] + rest);
    Passing(c.done + Kept(e), [], L(Kill(e.reg)), rest);
    NoEntries(c.done + Kept(e) + [L(Kill(e.reg))], rest);
  }

  lemma NoEntries(done: seq<Line>, rest: seq<Line>)
    ensures Walk(Cut(done, []), rest) == Cache(done, [], rest)
  {
    assert done + [] == done;
  }

  /** The only value is taken, and the lines behind the pop use its register. */
  lemma {:induction false} PopsOne(c: Cut, base: Reg, more: seq<Line>, named: seq<Line>, rest: seq<Line>)
    requires |c.es| == 1 && EntriesOk(c.es, base) && Unnamed(rest, base)
    requires Rename(more, base, c.es[0].reg) == named
    ensures Walk(c, [L(Pop(base))] + (more + rest)) == Cache(c.done + Kept(c.es[0]), [], named + rest)
  {
    hide Rename, Kept;
    var e := c.es[0];
    assert Rename(rest, base, e.reg) == rest;
    TakesTop(c, base, more + rest);
    RenameConcat(more, rest, base, e.reg);
    assert c.es[..0] == [] && Flat([]) == [] && PendOf(|c.done|, []) == [];
    assert c.done + [] == c.done;
  }

  lemma {:induction false} StoreStep(params: nat, c: Cut, local: nat, base: Reg, rest: seq<Line>)
    requires |c.es| == 1 && EntriesOk(c.es, base) && Fresh(rest, base, 1) && SlotOf(params, local) < base
    ensures Walk(c, StmtLines(params, M.Store(local), base) + rest) ==
      Walk(StepCut(params, c, M.Store(local), base, []), rest)
  {
    hide EntriesOk;
    var e := c.es[0];
    var slot := SlotOf(params, local);
    var more, named := [L(StoreReg(slot, base)), L(Kill(base))], [L(StoreReg(slot, e.reg)), L(Kill(e.reg))];
    assert Unnamed(rest, base);
    assert Rename(more, base, e.reg) == named;
    PopsOne(c, base, more, named, rest);
    hide Walk, Cache, Kept, Rename, Unnamed;
    assert StmtLines(params, M.Store(local), base) + rest == [L(Pop(base))] + (more + rest);
    PassStore(c.done + Kept(e), slot, e.reg, rest);
    NoEntries(c.done + Kept(e) + named, rest);
  }

  lemma {:induction false} PassStore(out: seq<Line>, slot: Reg, a: Reg, rest: seq<Line>)
    ensures var named := [L(StoreReg(slot, a)), L(Kill(a))];
      Cache(out, [], named + rest) == Cache(out + named, [], rest)
  {
    hide Cache;
    var x, y := L(StoreReg(slot, a)), L(Kill(a));
    assert [x, y] + rest == [x] + ([y] + rest);
    Passing(out, [], x, [y] + rest);
    Passing(out + [x], [], y, rest);
    assert out + [x] + [y] == out + [x, y];
  }

  /** What is left of a binary operation's lines, once its right operand is in register `b`. */
  function BinaryTail(op: BinOp, base: Reg, b: Reg, rest: seq<Line>): seq<Line> {
    [L(Binary(op, base + 1, b)), L(Push(base + 1)), L(Kill(b)), L(Kill(base + 1))] + rest
  }

  lemma {:induction false} RightRenamed(op: BinOp, base: Reg, b: Reg, rest: seq<Line>)
    requires b < base && Unnamed(rest, base)
    ensures Rename([L(Pop(base + 1)), L(Binary(op, base + 1, base)), L(Push(base + 1)), L(Kill(base)),
                    L(Kill(base + 1))] + rest, base, b) ==
            [L(Pop(base + 1))] + BinaryTail(op, base, b, rest)
  {
    var m := [L(Pop(base + 1)), L(Binary(op, base + 1, base)), L(Push(base + 1)), L(Kill(base)), L(Kill(base + 1))];
    assert Rename(m, base, b) == [L(Pop(base + 1)), L(Binary(op, base + 1, b)), L(Push(base + 1)), L(Kill(b)),
                                  L(Kill(base + 1))];
    assert Rename(rest, base, b) == rest;
    hide Rename;
    RenameConcat(m, rest, base, b);
  }

  lemma {:induction false} LeftRenamed(op: BinOp, base: Reg, b: Reg, a: Reg, rest: seq<Line>)
    requires b < base && Unnamed(rest, base + 1)
    ensures Rename(BinaryTail(op, base, b, rest), base + 1, a) ==
      [L(Binary(op, a, b)), L(Push(a)), L(Kill(b)), L(Kill(a))] + rest
  {
    var m := [L(Binary(op, base + 1, b)), L(Push(base + 1)), L(Kill(b)), L(Kill(base + 1))];
    assert Rename(m, base + 1, a) == [L(Binary(op, a, b)), L(Push(a)), L(Kill(b)), L(Kill(a))];
    assert Rename(rest, base + 1, a) == rest;
    hide Rename;
    RenameConcat(m, rest, base + 1, a);
  }

  lemma OperateShape(op: BinOp, a: Reg, b: Reg, rest: seq<Line>)
    ensures [L(Binary(op, a, b)), L(Push(a)), L(Kill(b)), L(Kill(a))] + rest ==
            [L(Binary(op, a, b))] + ([L(Push(a))] + (Kills([b]) + ([L(Kill(a))] + rest)))
  {
    KillsOne([b]);
  }

  /** The operation, once both operands are in registers. */
  lemma {:induction false} Operates(done: seq<Line>, es: seq<Entry>, e: Entry, pend: seq<nat>, before: seq<Line>,
                                    op: BinOp, a: Reg, b: Reg, rest: seq<Line>)
    requires e.reg == a && e.others == [b] && !e.leaf && done + Flat(es) + e.head == before + [L(Binary(op, a, b))]
    ensures Cache(before, pend, [L(Binary(op, a, b)), L(Push(a)), L(Kill(b)), L(Kill(a))] + rest) ==
      Walk(Cut(done, es + [e]), rest)
  {
    var tail := [L(Push(a))] + (Kills([b]) + ([L(Kill(a))] + rest));
    OperateShape(op, a, b, rest);
    hide Cache, PendOf, Flat, Kills;
    Passing(before, pend, L(Binary(op, a, b)), tail);
    PushPasses(done, es, e, [], rest);
  }

  /** The right operand was a load: the left one is still in its register. */
  lemma {:induction false} BesideLoad(done: seq<Line>, under: seq<Entry>, x: Entry, y: Entry, op: BinOp, base: Reg,
                                      rest: seq<Line>)
    requires x.reg !in x.others && y.reg < base && y.leaf && Unnamed(rest, base + 1)
    ensures Cache(done + Flat(under + [x]) + Kept(y), PendOf(|done|, under + [x]),
                  [L(Pop(base + 1))] + BinaryTail(op, base, y.reg, rest)) ==
            Walk(Cut(done, under + [Operated(op, x, y, base)]), rest)
  {
    hide *;
    LeftRenamed(op, base, y.reg, x.reg, rest);
    var pend := LeftTaken(done, under, x, Kept(y), base + 1, BinaryTail(op, base, y.reg, rest));
    LoadOperates(done, under, x, y, op, base, pend, rest);
  }

  lemma {:induction false} LeftTaken(done: seq<Line>, under: seq<Entry>, x: Entry, tail: seq<Line>, b: Reg,
                                     rest: seq<Line>) returns (pend: seq<nat>)
    requires x.reg !in x.others
    ensures Cache(done + Flat(under + [x]) + tail, PendOf(|done|, under + [x]), [L(Pop(b))] + rest) ==
            Cache(done + Flat(under) + Kept(x) + tail, pend, Rename(rest, b, x.reg))
  {
    hide *;
    var es := under + [x];
    assert es[..|es| - 1] == under && es[|es| - 1] == x;
    pend := if x.leaf then PendOf(|done|, under) else [];
    PopTakes(done, es, tail, b, rest);
  }

  lemma {:induction false} LoadOperates(done: seq<Line>, under: seq<Entry>, x: Entry, y: Entry, op: BinOp, base: Reg,
                                        pend: seq<nat>, rest: seq<Line>)
    requires y.leaf
    ensures Cache(done + Flat(under) + Kept(x) + Kept(y), pend,
                  [L(Binary(op, x.reg, y.reg)), L(Push(x.reg)), L(Kill(y.reg)), L(Kill(x.reg))] + rest) ==
            Walk(Cut(done, under + [Operated(op, x, y, base)]), rest)
  {
    hide Kept, Flat, Cache, Walk;
    LoadedShape(done, Flat(under), Kept(x), Kept(y), [L(Binary(op, x.reg, y.reg))]);
    Operates(done, under, Operated(op, x, y, base), pend, done + Flat(under) + Kept(x) + Kept(y), op, x.reg, y.reg,
             rest);
  }

  lemma LoadedShape(done: seq<Line>, u: seq<Line>, x: seq<Line>, y: seq<Line>, b: seq<Line>)
    ensures done + u + (x + y + b) == done + u + x + y + b
  {}

  /** It was not: the left operand is popped. */
  lemma {:induction false} BesideOther(done: seq<Line>, under: seq<Entry>, x: Entry, y: Entry, op: BinOp, base: Reg,
                                       rest: seq<Line>)
    requires !y.leaf
    ensures Cache(done + Flat(under + [x]) + Kept(y), [], [L(Pop(base + 1))] + BinaryTail(op, base, y.reg, rest)) ==
            Walk(Cut(done, under + [Operated(op, x, y, base)]), rest)
  {
    FlatLast(under, x);
    hide Rename, Kept, Kills, Flat, EntryLines, PendOf, Cache, Walk;
    var out := done + Flat(under + [x]) + Kept(y);
    var e := Operated(op, x, y, base);
    Passing(out, [], L(Pop(base + 1)), BinaryTail(op, base, y.reg, rest));
    OtherShape(done, Flat(under), EntryLines(x), Kept(y), L(Pop(base + 1)), L(Binary(op, base + 1, y.reg)));
    Operates(done, under, e, [], out + [L(Pop(base + 1))], op, base + 1, y.reg, rest);
  }

  lemma OtherShape(done: seq<Line>, u: seq<Line>, x: seq<Line>, y: seq<Line>, a: Line, b: Line)
    ensures done + u + (x + y + [a, b]) == done + (u + x) + y + [a] + [b]
  {}

  lemma {:induction false} BinaryStep(params: nat, c: Cut, op: BinOp, base: Reg, rest: seq<Line>)
    requires |c.es| >= 2 && EntriesOk(c.es, base) && Fresh(rest, base, 2)
    ensures Walk(c, StmtLines(params, M.Binary(op), base) + rest) ==
      Walk(StepCut(params, c, M.Binary(op), base, []), rest)
  {
    hide Walk, Operated, StmtLines, Fresh;
    var k := |c.es|;
    assert c.es[..k - 1] == c.es[..k - 2] + [c.es[k - 2]];
    assert EntryOk(c.es[k - 1], base) && EntryOk(c.es[k - 2], base);
    BinaryAt(params, c, op, base, c.es[..k - 2], c.es[k - 2], rest);
  }

  lemma BinaryLines(params: nat, op: BinOp, base: Reg, rest: seq<Line>)
    ensures StmtLines(params, M.Binary(op), base) + rest ==
      [L(Pop(base))] + ([L(Pop(base + 1)), L(Binary(op, base + 1, base)), L(Push(base + 1)), L(Kill(base)),
                         L(Kill(base + 1))] + rest)
  {}

  lemma {:induction false} BinaryAt(params: nat, c: Cut, op: BinOp, base: Reg, under: seq<Entry>, x: Entry,
                                    rest: seq<Line>)
    requires c.es != [] && c.es[..|c.es| - 1] == under + [x] && Fresh(rest, base, 2)
    requires EntryOk(c.es[|c.es| - 1], base) && EntryOk(x, base)
    ensures Walk(c, StmtLines(params, M.Binary(op), base) + rest) ==
            Walk(Cut(c.done, under + [Operated(op, x, c.es[|c.es| - 1], base)]), rest)
  {
    var y := c.es[|c.es| - 1];
    var lines := [L(Pop(base + 1)), L(Binary(op, base + 1, base)), L(Push(base + 1)), L(Kill(base)),
                  L(Kill(base + 1))] + rest;
    BinaryLines(params, op, base, rest);
    hide Walk, Cache, Rename, Flat, Kept, PendOf, Operated, StmtLines, Unnamed;
    assert Unnamed(rest, base) && Unnamed(rest, base + 1);
    RightRenamed(op, base, y.reg, rest);
    TakesTop(c, base, lines);
    if y.leaf {
      BesideLoad(c.done, under, x, y, op, base, rest);
    } else {
      BesideOther(c.done, under, x, y, op, base, rest);
    }
  }

  lemma {:induction false} PopArgsRenamed(n: nat, base: Reg, b: Reg, a: Reg)
    requires b < base
    ensures Rename(PopArgs(n, base), b, a) == PopArgs(n, base)
    decreases n
  {
    if n > 0 {
      PopArgsRenamed(n - 1, base + 1, b, a);
      RenameConcat([L(Pop(base)), L(Kill(base))], PopArgs(n - 1, base + 1), b, a);
    }
  }

  /** With no push to take, pops are passed. */
  lemma {:induction false} PassPopArgs(out: seq<Line>, n: nat, base: Reg, rest: seq<Line>)
    ensures Cache(out, [], PopArgs(n, base) + rest) == Cache(out + PopArgs(n, base), [], rest)
    decreases n
  {
    hide Cache;
    PopArgsShape(out, n, base, rest);
    if n > 0 {
      var more := PopArgs(n - 1, base + 1);
      hide PopArgs;
      Passing(out, [], L(Pop(base)), [L(Kill(base))] + (more + rest));
      Passing(out + [L(Pop(base))], [], L(Kill(base)), more + rest);
      PassPopArgs(out + [L(Pop(base))] + [L(Kill(base))], n - 1, base + 1, rest);
    }
  }

  lemma PopArgsShape(out: seq<Line>, n: nat, base: Reg, rest: seq<Line>)
    ensures n == 0 ==> PopArgs(n, base) + rest == rest && out + PopArgs(n, base) == out
    ensures n > 0 ==> var more := PopArgs(n - 1, base + 1);
      && PopArgs(n, base) + rest == [L(Pop(base))] + ([L(Kill(base))] + (more + rest))
      && out + [L(Pop(base))] + [L(Kill(base))] + more == out + PopArgs(n, base)
  {}

  function CallTail(n: nat, base: Reg, rest: seq<Line>): seq<Line> {
    PopArgs(n, base + 2) + ([L(Push(base + 1)), L(Kill(base + 1))] + rest)
  }

  lemma {:induction false} CallRenamed(n: nat, base: Reg, f: Reg, rest: seq<Line>)
    requires f < base && Unnamed(rest, base)
    ensures Rename([L(CallReg(base, n)), L(Kill(base)), L(Pop(base + 1))] + CallTail(n, base, rest), base, f) ==
            [L(CallReg(f, n)), L(Kill(f)), L(Pop(base + 1))] + CallTail(n, base, rest)
  {
    var head, end := [L(CallReg(base, n)), L(Kill(base)), L(Pop(base + 1))], [L(Push(base + 1)), L(Kill(base + 1))];
    assert Rename(head, base, f) == [L(CallReg(f, n)), L(Kill(f)), L(Pop(base + 1))];
    assert Rename(end, base, f) == end && Rename(rest, base, f) == rest;
    hide Rename;
    PopArgsRenamed(n, base + 2, base, f);
    RenameConcat(head, PopArgs(n, base + 2) + (end + rest), base, f);
    RenameConcat(PopArgs(n, base + 2), end + rest, base, f);
    RenameConcat(end, rest, base, f);
  }

  /** The call itself, once the callee is in a register. */
  lemma {:induction false} Calls(out: seq<Line>, pend: seq<nat>, n: nat, f: Reg, r: Reg, rest: seq<Line>)
    ensures Cache(out, pend, [L(CallReg(f, n)), L(Kill(f)), L(Pop(r))] + (PopArgs(n, r + 1) + rest)) ==
            Cache(out + [L(CallReg(f, n)), L(Kill(f)), L(Pop(r))] + PopArgs(n, r + 1), [], rest)
  {
    var more := PopArgs(n, r + 1) + rest;
    var o1, o2, o3 := out + [L(CallReg(f, n))], out + [L(CallReg(f, n))] + [L(Kill(f))],
      out + [L(CallReg(f, n)), L(Kill(f)), L(Pop(r))];
    assert [L(CallReg(f, n)), L(Kill(f)), L(Pop(r))] + more ==
           [L(CallReg(f, n))] + ([L(Kill(f))] + ([L(Pop(r))] + more));
    hide Cache;
    Passing(out, pend, L(CallReg(f, n)), [L(Kill(f))] + ([L(Pop(r))] + more));
    Passing(o1, [], L(Kill(f)), [L(Pop(r))] + more);
    Passing(o2, [], L(Pop(r)), more);
    assert o2 + [L(Pop(r))] == o3;
    PassPopArgs(o3, n, r + 1, rest);
  }

  lemma {:induction false} CallStep(params: nat, c: Cut, n: nat, base: Reg, rest: seq<Line>)
    requires |c.es| >= n + 1 && EntriesOk(c.es, base) && Fresh(rest, base, n + 2)
    ensures Walk(c, StmtLines(params, M.CallFn(n), base) + rest) ==
      Walk(StepCut(params, c, M.CallFn(n), base, []), rest)
  {
    hide Walk, Called, StmtLines, Unnamed, Rename;
    var k := |c.es|;
    var under, args := c.es[..k - 1 - n], c.es[k - 1 - n..k - 1];
    assert c.es[..k - 1] == under + args;
    assert EntryOk(c.es[k - 1], base) && Unnamed(rest, base);
    CallAt(params, c, n, base, under, args, rest);
  }

  lemma {:induction false} CallAt(params: nat, c: Cut, n: nat, base: Reg, under: seq<Entry>, args: seq<Entry>,
                                  rest: seq<Line>)
    requires c.es != [] && EntryOk(c.es[|c.es| - 1], base) && Unnamed(rest, base) && c.es[..|c.es| - 1] == under + args
    ensures Walk(c, StmtLines(params, M.CallFn(n), base) + rest) ==
            Walk(Cut(c.done, under + [Called(n, args, c.es[|c.es| - 1], base)]), rest)
  {
    hide *;
    CallLines(params, n, base, rest);
    var pend := TakesCallee(c, n, base, under, args, rest);
    CallEnds(c.done, under, args, c.es[|c.es| - 1], pend, n, base, rest);
  }

  lemma {:induction false} TakesCallee(c: Cut, n: nat, base: Reg, under: seq<Entry>, args: seq<Entry>, rest: seq<Line>)
    returns (pend: seq<nat>)
    requires c.es != [] && EntryOk(c.es[|c.es| - 1], base) && Unnamed(rest, base) && c.es[..|c.es| - 1] == under + args
    ensures var f := c.es[|c.es| - 1];
      Walk(c, [L(Pop(base))] + ([L(CallReg(base, n)), L(Kill(base)), L(Pop(base + 1))] + CallTail(n, base, rest))) ==
      Cache(c.done + Flat(under + args) + Kept(f), pend,
            [L(CallReg(f.reg, n)), L(Kill(f.reg)), L(Pop(base + 1))] + CallTail(n, base, rest))
  {
    var f := c.es[|c.es| - 1];
    pend := if f.leaf then PendOf(|c.done|, under + args) else [];
    CallRenamed(n, base, f.reg, rest);
    hide Walk, Cache, PendOf, Flat, Kept, Rename, PopArgs;
    TakesTop(c, base, [L(CallReg(base, n)), L(Kill(base)), L(Pop(base + 1))] + CallTail(n, base, rest));
  }

  lemma CallLines(params: nat, n: nat, base: Reg, rest: seq<Line>)
    ensures StmtLines(params, M.CallFn(n), base) + rest ==
      [L(Pop(base))] + ([L(CallReg(base, n)), L(Kill(base)), L(Pop(base + 1))] + CallTail(n, base, rest))
  {}

  lemma {:induction false} CallEnds(done: seq<Line>, under: seq<Entry>, args: seq<Entry>, f: Entry, pend: seq<nat>,
                                    n: nat, base: Reg, rest: seq<Line>)
    ensures Cache(done + Flat(under + args) + Kept(f), pend,
                  [L(CallReg(f.reg, n)), L(Kill(f.reg)), L(Pop(base + 1))] + CallTail(n, base, rest)) ==
            Walk(Cut(done, under + [Called(n, args, f, base)]), rest)
  {
    hide Kept, Kills, Flat, EntryLines, PendOf, Cache, PopArgs;
    Calls(done + Flat(under + args) + Kept(f), pend, n, f.reg, base + 1, [L(Push(base + 1)), L(Kill(base + 1))] + rest);
    FlatConcat(under, args);
    CalledShape(done, Flat(under), Flat(args), Kept(f), [L(CallReg(f.reg, n)), L(Kill(f.reg)), L(Pop(base + 1))],
                PopArgs(n, base + 2));
    EndShape(base + 1, rest);
    PushPasses(done, under, Called(n, args, f, base), [], rest);
  }

  lemma CalledShape(done: seq<Line>, u: seq<Line>, a: seq<Line>, f: seq<Line>, m: seq<Line>, p: seq<Line>)
    ensures done + (u + a) + f + m + p == done + u + (a + f + m + p)
  {}

  lemma EndShape(r: Reg, rest: seq<Line>)
    ensures [L(Push(r)), L(Kill(r))] + rest == [L(Push(r))] + (Kills([]) + ([L(Kill(r))] + rest))
  {
    assert Kills([]) == [];
  }

  // ---------- The statements of a block ----------

  lemma {:induction false} StepDepth(params: nat, c: Cut, s: M.Stmt, base: Reg, labels: seq<Label>)
    requires Level([s], |c.es|).Some?
    ensures |StepCut(params, c, s, base, labels).es| == Effect(s, |c.es|).value
  {
    assert [s][1..] == [];
  }

  lemma LevelHead(ss: seq<M.Stmt>, d: nat)
    requires ss != [] && Level(ss, d).Some?
    ensures Level([ss[0]], d).Some? && Effect(ss[0], d).Some? && Level(ss[1..], Effect(ss[0], d).value) == Level(ss, d)
    ensures ss[0].Store? || ss[0].Pop? ==> d == 1
  {
    assert [ss[0]][1..] == [];
  }

  function RunCut(params: nat, c: Cut, ss: seq<M.Stmt>, base: Reg, labels: seq<Label>): Cut
    requires Level(ss, |c.es|).Some?
    decreases |ss|
  {
    if ss == [] then c else
    LevelHead(ss, |c.es|);
    StepDepth(params, c, ss[0], base, labels);
    RunCut(params, StepCut(params, c, ss[0], base, labels), ss[1..], base + RegsOf(ss[0]), [])
  }

  /** The registers of the values stay older than those to come. */
  /** A new entry over some of the old ones. */
  lemma {:induction false} EntryOnTop(es: seq<Entry>, k: nat, e: Entry, base: Reg, next: Reg)
    requires EntriesOk(es, base) && k <= |es| && base <= next && EntryOk(e, next)
    requires forall i :: 0 <= i < k ==> es[i].reg < e.reg
    ensures EntriesOk(es[..k] + [e], next)
  {
    var fs := es[..k] + [e];
    forall i | 0 <= i < |fs| ensures EntryOk(fs[i], next) {
      if i < k {
        assert fs[i] == es[i] && EntryOk(es[i], base);
      }
    }
    forall i, j | 0 <= i < j < |fs| ensures fs[i].reg < fs[j].reg {
      assert fs[i] == es[i] && EntryOk(es[i], base);
    }
  }

  lemma {:induction false} PushedOk(es: seq<Entry>, e: Entry, base: Reg)
    requires EntriesOk(es, base) && e.reg == base && e.others == []
    ensures EntriesOk(es + [e], base + 1)
  {
    RegsBelow(es, base);
    EntryOnTop(es, |es|, e, base, base + 1);
    assert es[..|es|] == es;
  }

  lemma {:induction false} CalledOk(n: nat, es: seq<Entry>, base: Reg)
    requires EntriesOk(es, base) && n + 1 <= |es|
    ensures var k := |es|;
      EntriesOk(es[..k - 1 - n] + [Called(n, es[k - 1 - n..k - 1], es[k - 1], base)], base + n + 2)
  {
    hide Flat, Kept, PopArgs;
    var k := |es|;
    RegsBelow(es, base);
    EntryOnTop(es, k - 1 - n, Called(n, es[k - 1 - n..k - 1], es[k - 1], base), base, base + n + 2);
  }

  lemma {:induction false} OperatedOk(op: BinOp, es: seq<Entry>, base: Reg)
    requires EntriesOk(es, base) && |es| >= 2
    ensures var k := |es|; EntriesOk(es[..k - 2] + [Operated(op, es[k - 2], es[k - 1], base)], base + 2)
  {
    hide Kept, EntryLines;
    var k := |es|;
    RegsBelow(es, base);
    assert EntryOk(es[k - 2], base) && EntryOk(es[k - 1], base);
    EntryOnTop(es, k - 2, Operated(op, es[k - 2], es[k - 1], base), base, base + 2);
  }

  lemma {:induction false} StepEntriesOk(params: nat, c: Cut, s: M.Stmt, base: Reg, labels: seq<Label>)
    requires Level([s], |c.es|).Some? && EntriesOk(c.es, base)
    ensures EntriesOk(StepCut(params, c, s, base, labels).es, base + RegsOf(s))
  {
    hide Kept, Level, EntriesOk, Operated, Called, LoadOf;
    LevelHead([s], |c.es|);
    match s
    case CallFn(n) => CalledOk(n, c.es, base);
    case Binary(op) => OperatedOk(op, c.es, base);
    case Push(_) => PushedOk(c.es, Entry([Line(labels, LoadOf(params, s, base))], base, [], true), base);
    case Load(_) => PushedOk(c.es, Entry([Line(labels, LoadOf(params, s, base))], base, [], true), base);
    case _ => NoneOk(base + 1);
  }

  lemma NoneOk(base: Reg)
    ensures EntriesOk([], base)
  {}

  lemma RegsBelow(es: seq<Entry>, base: Reg)
    requires EntriesOk(es, base)
    ensures forall i :: 0 <= i < |es| ==> es[i].reg < base
  {
    forall i | 0 <= i < |es| ensures es[i].reg < base {
      assert EntryOk(es[i], base);
    }
  }

  /** One statement of a block; only its first, a load, can carry a label. */
  lemma {:induction false} StmtStep(params: nat, c: Cut, s: M.Stmt, base: Reg, labels: seq<Label>, rest: seq<Line>)
    requires Level([s], |c.es|).Some? && EntriesOk(c.es, base) && Fresh(rest, base, RegsOf(s))
    requires s.Store? ==> SlotOf(params, s.local) < base
    requires labels != [] ==> c.es == []
    ensures Walk(c, Labelled(labels, StmtLines(params, s, base)) + rest) ==
      Walk(StepCut(params, c, s, base, labels), rest)
  {
    hide Walk, Fresh, EntriesOk, Level;
    LevelHead([s], |c.es|);
    if s.Push? || s.Load? {
      LoadStep(params, c, s, base, labels, rest);
    } else {
      assert labels == [];
      NoLabel(StmtLines(params, s, base));
      match s
      case Pop => PopStep(params, c, base, rest);
      case Store(l) => StoreStep(params, c, l, base, rest);
      case CallFn(n) => CallStep(params, c, n, base, rest);
      case Binary(op) => BinaryStep(params, c, op, base, rest);
    }
  }

  lemma NoLabel(ls: seq<Line>)
    requires |ls| > 0
    ensures Labelled([], ls) == ls
  {
    assert [] + ls[0].labels == ls[0].labels;
  }

  /** Later lines do not name the registers of this statement. */
  lemma {:induction false} LaterFresh(rest: seq<Line>, base: Reg, n: nat, slots: nat)
    requires Ok(rest, {}, base + n, slots) && slots <= base
    ensures Fresh(rest, base, n)
  {
    forall b | base <= b < base + n ensures Unnamed(rest, b) {
      DeadUnnamed(rest, {}, base + n, slots, b);
    }
  }

  /** The statements of a block from one of them on. */
  lemma {:induction false} StmtsWalk(params: nat, c: Cut, ss: seq<M.Stmt>, base: Reg, labels: seq<Label>,
                                     rest: seq<Line>, slots: nat)
    requires Level(ss, |c.es|).Some? && EntriesOk(c.es, base) && ss != [] && (labels != [] ==> c.es == [])
    requires params < slots <= base && LocalsBelow(ss, slots) && rest != [] && Ok(rest, {}, base + StmtsRegs(ss), slots)
    ensures Walk(c, Labelled(labels, StmtsLines(params, ss, base)) + rest) ==
      Walk(RunCut(params, c, ss, base, labels), rest)
    ensures EntriesOk(RunCut(params, c, ss, base, labels).es, base + StmtsRegs(ss))
    decreases |ss|
  {
    hide Walk, Fresh, Ok, StepCut, StmtLines, Labelled, EntriesOk, Level, Effect;
    var s, more := ss[0], ss[1..];
    var base1 := base + RegsOf(s);
    LevelHead(ss, |c.es|);
    LocalsHead(ss, slots);
    StoreSlot(params, s, slots);
    var c1 := StepCut(params, c, s, base, labels);
    StepDepth(params, c, s, base, labels);
    StepEntriesOk(params, c, s, base, labels);
    StmtsOk(params, more, base1, rest, slots);
    LaterFresh(StmtsLines(params, more, base1) + rest, base, RegsOf(s), slots);
    StmtStep(params, c, s, base, labels, StmtsLines(params, more, base1) + rest);
    LabelledHead(params, ss, base, labels, rest);
    if more != [] {
      LabelledHead(params, more, base1, [], rest);
      NoLabel(StmtsLines(params, more, base1));
      StmtsWalk(params, c1, more, base1, [], rest, slots);
    } else {
      assert StmtsLines(params, more, base1) + rest == rest;
    }
  }

  lemma StoreSlot(params: nat, s: M.Stmt, slots: nat)
    requires LocalsBelow([s], slots) && params < slots
    ensures s.Store? ==> SlotOf(params, s.local) < slots
  {
    assert [s][0] == s;
  }

  lemma LabelledRest(labels: seq<Label>, xs: seq<Line>, ts: seq<Line>, more: seq<Line>)
    requires xs != []
    ensures Labelled(labels, xs + ts) + more == Labelled(labels, xs) + (ts + more)
  {
    assert (xs + ts)[0] == xs[0] && (xs + ts)[1..] == xs[1..] + ts;
  }

  lemma LabelledHead(params: nat, ss: seq<M.Stmt>, base: Reg, labels: seq<Label>, rest: seq<Line>)
    requires ss != []
    ensures |StmtsLines(params, ss, base)| > 0 && |StmtLines(params, ss[0], base)| > 0
    ensures Labelled(labels, StmtsLines(params, ss, base)) + rest ==
            Labelled(labels, StmtLines(params, ss[0], base)) +
              (StmtsLines(params, ss[1..], base + RegsOf(ss[0])) + rest)
  {
    hide RegsOf;
    var a, b := StmtLines(params, ss[0], base), StmtsLines(params, ss[1..], base + RegsOf(ss[0]));
    assert StmtsLines(params, ss, base) == a + b;
    hide StmtsLines, Labelled;
    LabelledRest(labels, a, b, rest);
  }

  // ---------- Blocks and functions ----------

  /** The end of a block: the jump, which tests a condition in its register. */
  function TerCut(bs: seq<M.Block>, ter: M.Ter, c: Cut, labels: seq<Label>): seq<Line>
    requires ter.If? ==> |c.es| == 1
  {
    match ter
    case Unset => c.done + [Line(labels, Error)]
    case Return => c.done + [Line(labels, Ret)]
    case Goto(t) => c.done + [Line(labels, Jmp(M.Find(bs, t)))]
    case If(t, f) =>
      c.done + Kept(c.es[0]) + [L(JnzReg(c.es[0].reg, M.Find(bs, t))), L(Kill(c.es[0].reg)), L(Jmp(M.Find(bs, f)))]
  }

  function BlockCut(params: nat, bs: seq<M.Block>, k: nat, base: Reg, out: seq<Line>): seq<Line>
    requires k < |bs| && Balanced(bs[k])
  {
    var b := bs[k];
    RunCutDepth(params, Cut(out, []), b.stmts, base, [k]);
    TerCut(bs, b.ter, RunCut(params, Cut(out, []), b.stmts, base, [k]), if b.stmts == [] then [k] else [])
  }

  lemma {:induction false} RunCutDepth(params: nat, c: Cut, ss: seq<M.Stmt>, base: Reg, labels: seq<Label>)
    requires Level(ss, |c.es|).Some?
    ensures |RunCut(params, c, ss, base, labels).es| == Level(ss, |c.es|).value
    decreases |ss|
  {
    if ss != [] {
      LevelHead(ss, |c.es|);
      StepDepth(params, c, ss[0], base, labels);
      RunCutDepth(params, StepCut(params, c, ss[0], base, labels), ss[1..], base + RegsOf(ss[0]), []);
    }
  }

  function BodyCut(params: nat, bs: seq<M.Block>, k: nat, base: Reg, out: seq<Line>): seq<Line>
    requires k <= |bs| && forall i :: k <= i < |bs| ==> Balanced(bs[i])
    decreases |bs| - k
  {
    if k == |bs| then out else BodyCut(params, bs, k + 1, base + BlockRegs(bs[k]), BlockCut(params, bs, k, base, out))
  }

  /** Where a block ends, nothing is on the stack and no push is untouched. */
  lemma {:induction false} EndWalk(out: seq<Line>, line: Line, rest: seq<Line>)
    requires line.ins.Ret? || line.ins.Jmp?
    ensures Walk(Cut(out, []), [line] + rest) == Walk(Cut(out + [line], []), rest)
  {
    NoEntries(out, [line] + rest);
    NoEntries(out + [line], rest);
    Passing(out, [], line, rest);
  }

  lemma {:induction false} BranchWalk(c: Cut, t: Label, f: Label, base: Reg, rest: seq<Line>)
    requires |c.es| == 1 && EntriesOk(c.es, base) && Unnamed(rest, base)
    ensures var e := c.es[0];
      Walk(c, [L(Pop(base)), L(JnzReg(base, t)), L(Kill(base)), L(Jmp(f))] + rest) ==
      Walk(Cut(c.done + Kept(e) + [L(JnzReg(e.reg, t)), L(Kill(e.reg)), L(Jmp(f))], []), rest)
  {
    var e := c.es[0];
    var more, named := [L(JnzReg(base, t)), L(Kill(base)), L(Jmp(f))], [L(JnzReg(e.reg, t)), L(Kill(e.reg)), L(Jmp(f))];
    PopsOne(c, base, more, named, rest);
    hide *;
    assert [L(Pop(base)), L(JnzReg(base, t)), L(Kill(base)), L(Jmp(f))] + rest == [L(Pop(base))] + (more + rest);
    var out := c.done + Kept(e);
    PassBranch(out, e.reg, t, f, rest);
    NoEntries(out + named, rest);
  }

  lemma {:induction false} PassBranch(out: seq<Line>, a: Reg, t: Label, f: Label, rest: seq<Line>)
    ensures var named := [L(JnzReg(a, t)), L(Kill(a)), L(Jmp(f))];
      Cache(out, [], named + rest) == Cache(out + named, [], rest)
  {
    hide Cache;
    var x, y, z := L(JnzReg(a, t)), L(Kill(a)), L(Jmp(f));
    assert [x, y, z] + rest == [x] + ([y] + ([z] + rest));
    Passing(out, [], x, [y] + ([z] + rest));
    Passing(out + [x], [], y, [z] + rest);
    Passing(out + [x] + [y], [], z, rest);
    assert out + [x] + [y] + [z] == out + [x, y, z];
  }

  lemma {:induction false} TerWalk(bs: seq<M.Block>, ter: M.Ter, c: Cut, base: Reg, labels: seq<Label>, rest: seq<Line>)
    requires ter != M.Unset && |c.es| == (if ter.If? then 1 else 0) && EntriesOk(c.es, base)
    requires ter.If? ==> labels == [] && Unnamed(rest, base)
    ensures Walk(c, Labelled(labels, TerLines(bs, ter, base)) + rest) == Walk(Cut(TerCut(bs, ter, c, labels), []), rest)
  {
    hide Walk, Kept;
    assert labels + [] == labels;
    match ter
    case Return =>
      assert Labelled(labels, TerLines(bs, ter, base)) == [Line(labels, Ret)];
      EndWalk(c.done, Line(labels, Ret), rest);
    case Goto(t) =>
      assert Labelled(labels, TerLines(bs, ter, base)) == [Line(labels, Jmp(M.Find(bs, t)))];
      EndWalk(c.done, Line(labels, Jmp(M.Find(bs, t))), rest);
    case If(t, f) =>
      NoLabel(TerLines(bs, ter, base));
      BranchWalk(c, M.Find(bs, t), M.Find(bs, f), base, rest);
  }

  lemma BlockShape(params: nat, bs: seq<M.Block>, k: nat, base: Reg, more: seq<Line>)
    requires k < |bs|
    ensures var b := bs[k]; var mid := base + StmtsRegs(b.stmts);
      && (b.stmts == [] ==> BlockLines(params, bs, k, base) + more == Labelled([k], TerLines(bs, b.ter, mid)) + more)
      && (b.stmts != [] ==>
            && |StmtsLines(params, b.stmts, base)| > 0
            && BlockLines(params, bs, k, base) + more ==
               Labelled([k], StmtsLines(params, b.stmts, base)) + (TerLines(bs, b.ter, mid) + more))
  {
    var b := bs[k];
    var ss, ts := StmtsLines(params, b.stmts, base), TerLines(bs, b.ter, base + StmtsRegs(b.stmts));
    if b.stmts == [] {
      assert ss + ts == ts;
    } else {
      LabelledHead(params, b.stmts, base, [], []);
      hide StmtsLines, TerLines, Labelled;
      LabelledRest([k], ss, ts, more);
    }
  }

  lemma {:induction false} BlockWalk(params: nat, bs: seq<M.Block>, k: nat, base: Reg, out: seq<Line>, more: seq<Line>,
                                     slots: nat)
    requires k < |bs| && bs[k].ter != M.Unset && Balanced(bs[k]) && LocalsBelow(bs[k].stmts, slots)
    requires params < slots <= base
    requires Ok(more, {}, base + BlockRegs(bs[k]), slots) && (more == [] || more[0].labels != [])
    ensures Walk(Cut(out, []), BlockLines(params, bs, k, base) + more) ==
      Walk(Cut(BlockCut(params, bs, k, base, out), []), more)
  {
    BlockShape(params, bs, k, base, more);
    if bs[k].stmts == [] {
      BareBlock(params, bs, k, base, out, more, slots);
    } else {
      FullBlock(params, bs, k, base, out, more, slots);
    }
  }

  lemma {:induction false} BareBlock(params: nat, bs: seq<M.Block>, k: nat, base: Reg, out: seq<Line>, more: seq<Line>,
                                     slots: nat)
    requires k < |bs| && bs[k].ter != M.Unset && Balanced(bs[k]) && bs[k].stmts == [] && slots <= base
    requires Ok(more, {}, base + BlockRegs(bs[k]), slots)
    ensures Walk(Cut(out, []), Labelled([k], TerLines(bs, bs[k].ter, base + StmtsRegs(bs[k].stmts))) + more) ==
            Walk(Cut(BlockCut(params, bs, k, base, out), []), more)
  {
    hide Walk, Ok, TerLines, Labelled, TerCut, RunCut;
    var mid := base + StmtsRegs(bs[k].stmts);
    var c := Cut(out, []);
    assert Level([], 0) == Some(0);
    assert !bs[k].ter.If?;
    NoStatements(params, c, base, [k]);
    Pads(more, mid, slots, bs[k].ter);
    TerWalk(bs, bs[k].ter, c, mid, [k], more);
  }

  /** Lines with nothing live do not name the next register, which may or may not be used. */
  lemma {:induction false} Pads(more: seq<Line>, mid: Reg, slots: nat, ter: M.Ter)
    requires Ok(more, {}, mid + (if ter.If? then 1 else 0), slots) && slots <= mid
    ensures ter.If? ==> Unnamed(more, mid)
  {
    if ter.If? {
      DeadUnnamed(more, {}, mid + 1, slots, mid);
    }
  }

  lemma {:induction false} FullBlock(params: nat, bs: seq<M.Block>, k: nat, base: Reg, out: seq<Line>, more: seq<Line>,
                                     slots: nat)
    requires k < |bs| && bs[k].ter != M.Unset && Balanced(bs[k]) && bs[k].stmts != [] && params < slots <= base
    requires LocalsBelow(bs[k].stmts, slots)
    requires Ok(more, {}, base + BlockRegs(bs[k]), slots) && (more == [] || more[0].labels != [])
    ensures |StmtsLines(params, bs[k].stmts, base)| > 0
    ensures Walk(Cut(out, []), Labelled([k], StmtsLines(params, bs[k].stmts, base)) +
                 (TerLines(bs, bs[k].ter, base + StmtsRegs(bs[k].stmts)) + more)) ==
            Walk(Cut(BlockCut(params, bs, k, base, out), []), more)
  {
    hide Walk, Ok, TerLines, StmtsLines, RunCut, TerCut, LocalsBelow, Labelled, Unnamed, EntriesOk, StmtsRegs;
    var b := bs[k];
    var mid := base + StmtsRegs(b.stmts);
    var c := RunCut(params, Cut(out, []), b.stmts, base, [k]);
    RunCutDepth(params, Cut(out, []), b.stmts, base, [k]);
    LabelledHead(params, b.stmts, base, [], []);
    TerOk(bs, b.ter, mid, more, slots);
    Pads(more, mid, slots, b.ter);
    NoEntriesOk(base);
    hide Level;
    StmtsWalk(params, Cut(out, []), b.stmts, base, [k], TerLines(bs, b.ter, mid) + more, slots);
    NoLabel(TerLines(bs, b.ter, mid));
    TerWalk(bs, b.ter, c, mid, [], more);
  }

  lemma NoEntriesOk(base: Reg)
    ensures EntriesOk([], base)
  {}

  lemma NoStatements(params: nat, c: Cut, base: Reg, labels: seq<Label>)
    ensures Level([], |c.es|).Some? && RunCut(params, c, [], base, labels) == c
  {}

  lemma {:induction false} BodyWalk(params: nat, bs: seq<M.Block>, k: nat, base: Reg, out: seq<Line>, slots: nat)
    requires params < slots <= base && k <= |bs|
    requires forall i :: k <= i < |bs| ==> bs[i].ter != M.Unset && Balanced(bs[i]) && LocalsBelow(bs[i].stmts, slots)
    ensures Walk(Cut(out, []), BodyLines(params, bs, k, base)) == BodyCut(params, bs, k, base, out)
    decreases |bs| - k
  {
    hide BlockCut, BlockLines, Ok, LocalsBelow, Level, BlockRegs;
    if k == |bs| {
      NoEntries(out, []);
    } else {
      var base1 := base + BlockRegs(bs[k]);
      BodyOk(params, bs, k + 1, base1, slots);
      BodyHead(params, bs, k + 1, base1);
      BlockWalk(params, bs, k, base, out, BodyLines(params, bs, k + 1, base1), slots);
      BodyWalk(params, bs, k + 1, base1, BlockCut(params, bs, k, base, out), slots);
    }
  }

  lemma {:induction false} PassAllocs(out: seq<Line>, from: nat, params: nat, locals: nat, rest: seq<Line>)
    ensures Walk(Cut(out, []), AllocLines(from, params, locals) + rest) ==
      Walk(Cut(out + AllocLines(from, params, locals), []), rest)
    decreases locals - from
  {
    var ls := AllocLines(from, params, locals);
    if from >= locals {
      assert ls + rest == rest && out + ls == out;
    } else {
      var line, more := ls[0], AllocLines(from + 1, params, locals);
      assert ls == [line] + more && ls + rest == [line] + (more + rest);
      NoEntries(out, ls + rest);
      Passing(out, [], line, more + rest);
      NoEntries(out + [line], more + rest);
      PassAllocs(out + [line], from + 1, params, locals, rest);
      assert out + [line] + more == out + ls;
    }
  }

  /** The lines the passes leave of a function, before known calls and constants are fused. */
  function FnCut(fn: M.Fn): seq<Line>
    requires WellFormed(fn)
  {
    BodyCut(fn.params, fn.blocks, 0, fn.locals, AllocLines(0, fn.params, fn.locals))
  }

  /** What the walk over generated lines ends with, value by value. */
  lemma {:induction false} FnWalk(fn: M.Fn)
    requires WellFormed(fn)
    ensures Cache([], [], FnLines(fn)) == FnCut(fn) && Normal(FnLines(fn)) == Fuse(FnCut(fn))
  {
    hide BodyCut, BodyLines, AllocLines, Fuse;
    var body := BodyLines(fn.params, fn.blocks, 0, fn.locals);
    PassAllocs([], 0, fn.params, fn.locals, body);
    NoEntries([], FnLines(fn));
    assert [] + AllocLines(0, fn.params, fn.locals) == AllocLines(0, fn.params, fn.locals);
    BodyWalk(fn.params, fn.blocks, 0, fn.locals, AllocLines(0, fn.params, fn.locals), fn.locals);
  }
}
