/** What the four passes compute, however often they run: a normal form, found in one walk over the
  * lines. */
module LirNormal {
  import opened Values
  import opened Lir
  import opened LirLive
  import opened LirRewrite
  import opened LirProgram
  import opened LirOptimize

  // The walk keeps the lines it has passed, and where among them pushes stand whose value nothing has
  // touched yet.  A pop takes the last of these pushes away, with the kill of the pushed register, and
  // that register stands for the popped one from there on.

  /** The untouched pushes, once line `n` has been passed. */
  function PendAfter(pend: seq<nat>, n: nat, line: Line): seq<nat> {
    if line.ins.Push? then (if line.labels == [] then pend else []) + [n]
    else if line.labels != [] || PollutesStack(line.ins) then []
    else pend
  }

  predicate Takes(out: seq<Line>, pend: seq<nat>, line: Line) {
    && line.ins.Pop? && line.labels == [] && pend != []
    && pend[|pend| - 1] < |out| && out[pend[|pend| - 1]].ins.Push?
  }

  /** The lines passed once a pop has taken the push at `p`. */
  function Without(out: seq<Line>, p: nat): (r: seq<Line>)
    requires p < |out| && out[p].ins.Push?
    ensures p <= |r| <= |out|
  {
    out[..p] + DropKill(out[p + 1..], out[p].ins.reg)
  }

  function Cache(out: seq<Line>, pend: seq<nat>, ls: seq<Line>): seq<Line>
    decreases |ls|
  {
    if ls == [] then out
    else if Takes(out, pend, ls[0]) then
      var p := pend[|pend| - 1];
      Cache(Without(out, p), pend[..|pend| - 1], Rename(ls[1..], ls[0].ins.reg, out[p].ins.reg))
    else Cache(out + [ls[0]], PendAfter(pend, |out|, ls[0]), ls[1..])
  }

  /** Known calls and stored constants, each in one line. */
  function Fuse(ls: seq<Line>): seq<Line>
    decreases |ls|
  {
    if ls == [] then []
    else if At(FnCall, ls, 0) then [Line(ls[0].labels, CallImm(ls[0].ins.f, ls[1].ins.args))] + Fuse(ls[3..])
    else if At(IntStore, ls, 0) then [Line(ls[0].labels, StoreImm(ls[1].ins.slot, ls[0].ins.val))] + Fuse(ls[3..])
    else [ls[0]] + Fuse(ls[1..])
  }

  function Normal(ls: seq<Line>): seq<Line> {
    Fuse(Cache([], [], ls))
  }

  // ---------- The walk ----------

  /** Pushes, with nothing between or after them that touches the stack or carries a label. */
  ghost predicate PendOk(out: seq<Line>, pend: seq<nat>) {
    && (forall k :: 0 <= k < |pend| ==> pend[k] < |out| && out[pend[k]].ins.Push?)
    && (forall j, k :: 0 <= j < k < |pend| ==> pend[j] < pend[k])
    && (forall i :: pend != [] && pend[0] < i < |out| ==>
          out[i].labels == [] && (i in pend || !PollutesStack(out[i].ins)))
  }

  lemma {:induction false} PassedOk(out: seq<Line>, pend: seq<nat>, line: Line)
    requires PendOk(out, pend) && !Takes(out, pend, line)
    ensures PendOk(out + [line], PendAfter(pend, |out|, line))
  {
    var out1, pend1 := out + [line], PendAfter(pend, |out|, line);
    forall i | pend1 != [] && pend1[0] < i < |out1|
      ensures out1[i].labels == [] && (i in pend1 || !PollutesStack(out1[i].ins))
    {
      if i == |out| {
        assert line.ins.Push? ==> pend1[|pend1| - 1] == i;
      } else {
        assert i in pend ==> i in pend1;
      }
    }
  }

  lemma {:induction false} WithoutOk(out: seq<Line>, pend: seq<nat>)
    requires PendOk(out, pend) && pend != [] && AllQuiet(out[pend[|pend| - 1] + 1..])
    ensures PendOk(Without(out, pend[|pend| - 1]), pend[..|pend| - 1])
  {
    hide DropKill;
    var p := pend[|pend| - 1];
    var front := pend[..|pend| - 1];
    var ms := DropKill(out[p + 1..], out[p].ins.reg);
    DropKillQuiet(out[p + 1..], out[p].ins.reg);
    var out1 := Without(out, p);
    forall i | front != [] && front[0] < i < |out1|
      ensures out1[i].labels == [] && (i in front || !PollutesStack(out1[i].ins))
    {
      if i < p {
        assert out1[i] == out[i] && i in pend ==> i in front;
      } else {
        assert out1[i] == ms[i - p];
      }
    }
  }

  /** What stands after the last untouched push. */
  lemma {:induction false} QuietAfter(out: seq<Line>, pend: seq<nat>, rest: seq<Line>, slots: nat)
    requires Ok(out + rest, {}, slots, slots) && rest != [] && rest[0].labels == [] && PendOk(out, pend) && pend != []
    requires rest[0].ins.Pop?
    ensures AllQuiet(out[pend[|pend| - 1] + 1..])
  {
    var p := pend[|pend| - 1];
    var ls := out + rest;
    forall i | p < i < |out| ensures out[i].labels == [] && Quiet(out[i].ins) {
      assert i !in pend;
      assert ls[i] == out[i];
      OkAt(ls, i, slots);
      if i + 1 < |out| { assert ls[i + 1] == out[i + 1]; } else { assert ls[i + 1] == rest[0]; }
      if i + 2 < |out| { assert ls[i + 2] == out[i + 2]; OkAt(ls, i + 2, slots); }
    }
  }

  // ---------- A register that is dead, or not yet born ----------

  /** Renaming `b` changes nothing. */
  ghost predicate Unnamed(ls: seq<Line>, b: Reg) {
    forall a: Reg :: Rename(ls, b, a) == ls
  }

  lemma {:induction false} DeadUnnamed(ls: seq<Line>, live: set<Reg>, next: Reg, slots: nat, b: Reg)
    requires Ok(ls, live, next, slots) && Sane(live, next, slots) && slots <= b < next && b !in live
    ensures Unnamed(ls, b)
    decreases |ls|
  {
    if ls != [] {
      var live1, next1 := LiveAfter(ls[0].ins, live), NextAfter(ls[0].ins, next);
      DeadUnnamed(ls[1..], live1, next1, slots, b);
      forall a: Reg ensures Rename(ls, b, a) == ls {
        assert RenameIns(ls[0].ins, b, a) == ls[0].ins;
        assert Rename(ls[1..], b, a) == ls[1..];
        assert Rename(ls, b, a)[1..] == Rename(ls[1..], b, a);
      }
    }
  }

  /** What has been killed is dead from then on. */
  lemma {:induction false} KilledDead(ms: seq<Line>, rest: seq<Line>, live: set<Reg>, next: Reg, slots: nat, a: Reg)
    requires Ok(ms + rest, live, next, slots) && Sane(live, next, slots) && a < next && (HasKill(ms, a) || a !in live)
    ensures a !in LiveAt(ms, live)
    decreases |ms|
  {
    if ms != [] {
      assert (ms + rest)[1..] == ms[1..] + rest;
      if HasKill(ms, a) && ms[0].ins != Kill(a) {
        HasKillTail(ms, a);
      }
      KilledDead(ms[1..], rest, LiveAfter(ms[0].ins, live), NextAfter(ms[0].ins, next), slots, a);
    }
  }

  lemma UnnamedParts(xs: seq<Line>, ys: seq<Line>, b: Reg)
    requires Unnamed(xs + ys, b)
    ensures Unnamed(xs, b) && Unnamed(ys, b)
  {
    forall a: Reg ensures Rename(xs, b, a) == xs && Rename(ys, b, a) == ys {
      assert Rename(xs + ys, b, a) == xs + ys;
      RenameConcat(xs, ys, b, a);
      assert Rename(xs, b, a) == (xs + ys)[..|xs|] && Rename(ys, b, a) == (xs + ys)[|xs|..];
    }
  }

  /** A pair in context: the pushed register is older than the popped one, and dead after the pop. */
  lemma {:induction false} PairFacts(front: seq<Line>, a: Reg, ms: seq<Line>, b: Reg, rest: seq<Line>, slots: nat)
    requires Ok(front + PairLines(a, ms, b, rest), {}, slots, slots) && AllQuiet(ms)
    ensures slots <= a < NextAt(front, slots) <= b && Unnamed(rest, a)
    ensures Ok(front + Joined(ms, b, rest, a, false), {}, slots, slots)
  {
    hide Ok, Unnamed, Joined, AllQuiet, HasKill, SameProgram;
    PairInFunction(front, a, ms, b, rest, slots);
    var live, next := LiveAt(front, {}), NextAt(front, slots);
    OkSplit(front, PairLines(a, ms, b, rest), {}, slots, slots);
    PairInside(a, ms, b, rest, live, next, slots);
  }

  lemma NextGrows(ms: seq<Line>, rest: seq<Line>, live: set<Reg>, next: Reg, slots: nat)
    requires Ok(ms + rest, live, next, slots) && Sane(live, next, slots)
    ensures next <= NextAt(ms, next)
  {
    OkSplit(ms, rest, live, next, slots);
  }

  lemma {:induction false} PairInside(a: Reg, ms: seq<Line>, b: Reg, rest: seq<Line>, live: set<Reg>, next: Reg,
                                      slots: nat)
    requires Ok(PairLines(a, ms, b, rest), live, next, slots) && Sane(live, next, slots) && HasKill(ms, a)
    ensures slots <= a < next <= NextAt(ms, next) && Unnamed(rest, a)
  {
    var tail := [Line([], Pop(b))] + rest;
    assert PairLines(a, ms, b, rest)[1..] == ms + tail && PairLines(a, ms, b, rest)[0].ins == Push(a);
    KilledDead(ms, tail, live, next, slots, a);
    OkSplit(ms, tail, live, next, slots);
    var live1, next1 := LiveAt(ms, live), NextAt(ms, next);
    assert tail[0].ins == Pop(b) && tail[1..] == rest;
    DeadUnnamed(rest, live1 + {b}, b + 1, slots, a);
  }

  // ---------- Deleting a pair does not change where the walk ends ----------

  /** A pop that takes a push: what the walk goes on with is still in order. */
  lemma {:induction false} Taken(out: seq<Line>, pend: seq<nat>, line: Line, rest: seq<Line>, slots: nat)
    returns (p: nat, a: Reg)
    requires Ok(out + ([line] + rest), {}, slots, slots) && PendOk(out, pend) && Takes(out, pend, line)
    ensures p == pend[|pend| - 1] < |out| && out[p].ins == Push(a)
    ensures Ok(Without(out, p) + Rename(rest, line.ins.reg, a), {}, slots, slots)
    ensures PendOk(Without(out, p), pend[..|pend| - 1])
    ensures a < line.ins.reg && Unnamed(rest, a) && NextAt(out, slots) <= line.ins.reg
  {
    p, a := pend[|pend| - 1], out[pend[|pend| - 1]].ins.reg;
    var b := line.ins.reg;
    var front, ms := out[..p], out[p + 1..];
    hide Ok, PendOk, AllQuiet, Unnamed, Rename, DropKill;
    QuietAfter(out, pend, [line] + rest, slots);
    WithoutOk(out, pend);
    OkAt(out + ([line] + rest), p, slots);
    TakenShape(out, p, a, line, rest);
    OldestFirst(out, line, rest, slots);
    PairFacts(front, a, ms, b, rest, slots);
  }

  lemma TakenShape(out: seq<Line>, p: nat, a: Reg, line: Line, rest: seq<Line>)
    requires p < |out| && out[p] == Line([], Push(a)) && line.labels == [] && line.ins.Pop?
    ensures out + ([line] + rest) == out[..p] + PairLines(a, out[p + 1..], line.ins.reg, rest)
    ensures Without(out, p) + Rename(rest, line.ins.reg, a) ==
      out[..p] + Joined(out[p + 1..], line.ins.reg, rest, a, false)
  {
    hide Rename, DropKill;
    assert out == out[..p] + [Line([], Push(a))] + out[p + 1..];
  }

  lemma {:induction false} OldestFirst(out: seq<Line>, line: Line, rest: seq<Line>, slots: nat)
    requires Ok(out + ([line] + rest), {}, slots, slots) && line.ins.Pop?
    ensures NextAt(out, slots) <= line.ins.reg
  {
    OkSplit(out, [line] + rest, {}, slots, slots);
    assert ([line] + rest)[0] == line;
  }

  /** Quiet lines are passed. */
  lemma {:induction false} PassQuiet(out: seq<Line>, pend: seq<nat>, ms: seq<Line>, more: seq<Line>)
    requires AllQuiet(ms)
    ensures Cache(out, pend, ms + more) == Cache(out + ms, pend, more)
    decreases |ms|
  {
    if ms == [] {
      assert ms + more == more && out + ms == out;
    } else {
      assert (ms + more)[0] == ms[0] && (ms + more)[1..] == ms[1..] + more;
      PassQuiet(out + [ms[0]], pend, ms[1..], more);
      assert out + [ms[0]] + ms[1..] == out + ms;
    }
  }

  /** Renaming by a pop further up, and deleting the pair, in either order. */
  lemma {:induction false} JoinedRenamed(a: Reg, ms: seq<Line>, b: Reg, rest: seq<Line>, b1: Reg, a1: Reg)
    requires Unnamed(ms, a1) && a != a1 && b != b1 && b != a1
    ensures Rename(Joined(ms, b, rest, a, false), b1, a1) ==
            Joined(Rename(ms, b1, a1), b, Rename(rest, b1, a1), Rho(b1, a1, a), false)
  {
    DropKillRenamed(ms, a, b1, a1);
    RenameTwice(rest, a, b, b1, a1);
    hide Rename, DropKill;
    RenameConcat(DropKill(ms, a), Rename(rest, b, a), b1, a1);
  }

  lemma {:induction false} PairRenamed(a: Reg, ms: seq<Line>, b: Reg, rest: seq<Line>, b1: Reg, a1: Reg)
    requires Unnamed(PairLines(a, ms, b, rest), a1) && AllQuiet(ms) && b != b1
    ensures Rename(PairLines(a, ms, b, rest), b1, a1) ==
      PairLines(Rho(b1, a1, a), Rename(ms, b1, a1), b, Rename(rest, b1, a1))
    ensures AllQuiet(Rename(ms, b1, a1)) && Unnamed(ms, a1) && a != a1
  {
    var push, pop := [Line([], Push(a))], [Line([], Pop(b))];
    PushPopRenamed(a, b, b1, a1);
    QuietRenamed(ms, b1, a1);
    PairShape(a, ms, b, rest);
    PairShape(Rho(b1, a1, a), Rename(ms, b1, a1), b, Rename(rest, b1, a1));
    hide *;
    UnnamedParts(push, ms + (pop + rest), a1);
    UnnamedParts(ms, pop + rest, a1);
    RenameConcat(push, ms + (pop + rest), b1, a1);
    RenameConcat(ms, pop + rest, b1, a1);
    RenameConcat(pop, rest, b1, a1);
  }

  lemma PairShape(a: Reg, ms: seq<Line>, b: Reg, rest: seq<Line>)
    ensures PairLines(a, ms, b, rest) == [Line([], Push(a))] + (ms + ([Line([], Pop(b))] + rest))
  {}

  lemma {:induction false} PushPopRenamed(a: Reg, b: Reg, b1: Reg, a1: Reg)
    requires b != b1
    ensures Rename([Line([], Push(a))], b1, a1) == [Line([], Push(Rho(b1, a1, a)))]
    ensures Rename([Line([], Pop(b))], b1, a1) == [Line([], Pop(b))]
    ensures Unnamed([Line([], Push(a))], a1) ==> a != a1
  {
    if Unnamed([Line([], Push(a))], a1) {
      assert Rename([Line([], Push(a))], a1, a1 + 1)[0] == Line([], Push(a));
    }
  }

  lemma QuietRenamed(ms: seq<Line>, b: Reg, a: Reg)
    requires AllQuiet(ms)
    ensures AllQuiet(Rename(ms, b, a))
  {}

  lemma {:induction false} DropKillRenamed(ms: seq<Line>, a: Reg, b1: Reg, a1: Reg)
    requires Unnamed(ms, a1) && a != a1
    ensures DropKill(Rename(ms, b1, a1), Rho(b1, a1, a)) == Rename(DropKill(ms, a), b1, a1)
    decreases |ms|
  {
    if ms != [] {
      var head, tail := [ms[0]], ms[1..];
      assert ms == head + tail;
      UnnamedParts(head, tail, a1);
      KillRenamed(ms[0], a, b1, a1);
      hide Unnamed, Rho, RenameIns;
      DropKillRenamed(tail, a, b1, a1);
      RenameConcat(head, tail, b1, a1);
      RenameConcat(head, DropKill(tail, a), b1, a1);
      assert Rename(ms, b1, a1)[0] == Line(ms[0].labels, RenameIns(ms[0].ins, b1, a1));
      assert Rename(ms, b1, a1)[1..] == Rename(tail, b1, a1);
      assert Rename(head, b1, a1) == [Rename(ms, b1, a1)[0]];
    }
  }

  /** A kill of `a` is still one after renaming, and no other line becomes one. */
  lemma {:induction false} KillRenamed(line: Line, a: Reg, b1: Reg, a1: Reg)
    requires Unnamed([line], a1) && a != a1
    ensures line.ins == Kill(a) <==> RenameIns(line.ins, b1, a1) == Kill(Rho(b1, a1, a))
  {
    assert Rename([line], a1, a1 + 1)[0] == line;
  }

  lemma {:induction false} RenameTwice(rest: seq<Line>, a: Reg, b: Reg, b1: Reg, a1: Reg)
    requires b != b1 && b != a1
    ensures Rename(Rename(rest, b, a), b1, a1) == Rename(Rename(rest, b1, a1), b, Rho(b1, a1, a))
  {
    hide RenameIns;
    forall i | 0 <= i < |rest|
      ensures RenameIns(RenameIns(rest[i].ins, b, a), b1, a1) ==
        RenameIns(RenameIns(rest[i].ins, b1, a1), b, Rho(b1, a1, a))
    {
      InsTwice(rest[i].ins, a, b, b1, a1);
    }
  }

  lemma {:induction false} InsTwice(ins: Ins, a: Reg, b: Reg, b1: Reg, a1: Reg)
    requires b != b1 && b != a1
    ensures RenameIns(RenameIns(ins, b, a), b1, a1) == RenameIns(RenameIns(ins, b1, a1), b, Rho(b1, a1, a))
  {
    assert forall r :: Rho(b1, a1, Rho(b, a, r)) == Rho(b, Rho(b1, a1, a), Rho(b1, a1, r));
    hide Rho;
  }

  /** Deleting a pair anywhere: the walk ends with the same lines. */
  lemma {:induction false} PairCommutes(out: seq<Line>, pend: seq<nat>, front: seq<Line>, a: Reg, ms: seq<Line>, b: Reg,
                                        rest: seq<Line>, slots: nat)
    requires Ok(out + (front + PairLines(a, ms, b, rest)), {}, slots, slots) && PendOk(out, pend) && AllQuiet(ms)
    ensures Cache(out, pend, front + PairLines(a, ms, b, rest)) ==
      Cache(out, pend, front + Joined(ms, b, rest, a, false))
    decreases |front|
  {
    hide Ok, PendOk, Rename, Joined, PairLines, Unnamed;
    if front == [] {
      PairHere(out, pend, a, ms, b, rest, slots);
      assert front + PairLines(a, ms, b, rest) == PairLines(a, ms, b, rest);
      assert front + Joined(ms, b, rest, a, false) == Joined(ms, b, rest, a, false);
    } else {
      var line, fr := front[0], front[1..];
      var xs, ys := PairLines(a, ms, b, rest), Joined(ms, b, rest, a, false);
      assert front + xs == [line] + (fr + xs) && front + ys == [line] + (fr + ys);
      if Takes(out, pend, line) {
        var b1 := line.ins.reg;
        var p, a1 := Taken(out, pend, line, fr + xs, slots);
        UnnamedParts(fr, xs, a1);
        LaterPop(out, line, fr, a, ms, b, rest, slots);
        PairRenamed(a, ms, b, rest, b1, a1);
        JoinedRenamed(a, ms, b, rest, b1, a1);
        RenameConcat(fr, xs, b1, a1);
        RenameConcat(fr, ys, b1, a1);
        PairCommutes(Without(out, p), pend[..|pend| - 1], Rename(fr, b1, a1), Rho(b1, a1, a), Rename(ms, b1, a1), b,
                     Rename(rest, b1, a1), slots);
      } else {
        PassedOk(out, pend, line);
        assert out + (front + xs) == out + [line] + (fr + xs);
        PairCommutes(out + [line], PendAfter(pend, |out|, line), fr, a, ms, b, rest, slots);
      }
    }
  }

  lemma {:induction false} LaterPop(out: seq<Line>, line: Line, fr: seq<Line>, a: Reg, ms: seq<Line>, b: Reg,
                                    rest: seq<Line>, slots: nat)
    requires Ok(out + ([line] + (fr + PairLines(a, ms, b, rest))), {}, slots, slots) && AllQuiet(ms) && line.ins.Pop?
    ensures line.ins.reg < b
  {
    hide Ok;
    var xs := PairLines(a, ms, b, rest);
    assert out + ([line] + (fr + xs)) == out + [line] + fr + xs;
    PairFacts(out + [line] + fr, a, ms, b, rest, slots);
    NextAtPop(out, line, fr, xs, slots);
  }

  lemma {:induction false} NextAtPop(out: seq<Line>, line: Line, fr: seq<Line>, xs: seq<Line>, slots: nat)
    requires Ok(out + [line] + fr + xs, {}, slots, slots) && line.ins.Pop?
    ensures line.ins.reg < NextAt(out + [line] + fr, slots)
  {
    hide Ok;
    var head := out + [line];
    assert out + [line] + fr + xs == head + (fr + xs);
    OkSplit(head, fr + xs, {}, slots, slots);
    NextAtConcat(out, [line], slots);
    assert NextAt([line], NextAt(out, slots)) == line.ins.reg + 1 by { assert [line][1..] == []; }
    NextGrows(fr, xs, LiveAt(head, {}), NextAt(head, slots), slots);
    NextAtConcat(head, fr, slots);
  }

  lemma {:induction false} PairHere(out: seq<Line>, pend: seq<nat>, a: Reg, ms: seq<Line>, b: Reg, rest: seq<Line>,
                                    slots: nat)
    requires AllQuiet(ms)
    ensures Cache(out, pend, PairLines(a, ms, b, rest)) == Cache(out, pend, Joined(ms, b, rest, a, false))
  {
    var push, pop := Line([], Push(a)), Line([], Pop(b));
    var xs := PairLines(a, ms, b, rest);
    assert xs == [push] + (ms + ([pop] + rest)) && xs[0] == push && xs[1..] == ms + ([pop] + rest);
    PassQuiet(out + [push], pend + [|out|], ms, [pop] + rest);
    var out1, pend1 := out + [push] + ms, pend + [|out|];
    assert ([pop] + rest)[0] == pop && ([pop] + rest)[1..] == rest;
    assert Takes(out1, pend1, pop);
    assert out1[..|out|] == out && out1[|out| + 1..] == ms && pend1[..|pend1| - 1] == pend;
    DropKillQuiet(ms, a);
    PassQuiet(out, pend, DropKill(ms, a), Rename(rest, b, a));
  }

  // ---------- Three lines in one ----------

  /** The call of a known function, or the store of a constant, in three lines and in one. */
  predicate IsFused(three: seq<Line>, one: Line) {
    && |three| == 3
    && ((At(FnCall, three, 0) && one == Line(three[0].labels, CallImm(three[0].ins.f, three[1].ins.args)))
        || (At(IntStore, three, 0) && one == Line(three[0].labels, StoreImm(three[1].ins.slot, three[0].ins.val))))
  }

  lemma {:induction false} FusedRenamed(three: seq<Line>, one: Line, b: Reg, a: Reg)
    requires IsFused(three, one)
    ensures IsFused(Rename(three, b, a), Line(one.labels, RenameIns(one.ins, b, a)))
  {}

  /** However the lines around them are fused, these three become that one. */
  lemma {:induction false} FuseMiddle(u: seq<Line>, three: seq<Line>, one: Line, v: seq<Line>)
    requires IsFused(three, one)
    ensures Fuse(u + three + v) == Fuse(u + [one] + v)
    decreases |u|
  {
    var xs, ys := u + three + v, u + [one] + v;
    if u == [] {
      assert xs[..3] == three && xs[3..] == v && ys[0] == one && ys[1..] == v;
    } else {
      assert xs[0] == u[0] == ys[0];
      assert xs[1..] == u[1..] + three + v && ys[1..] == u[1..] + [one] + v;
      if |u| >= 3 {
        assert xs[1] == u[1] == ys[1] && xs[2] == u[2] == ys[2];
        assert xs[3..] == u[3..] + three + v && ys[3..] == u[3..] + [one] + v;
        FuseMiddle(u[3..], three, one, v);
      } else {
        NotAcross(u, three, one, v);
      }
      FuseMiddle(u[1..], three, one, v);
    }
  }

  lemma NotAcross(u: seq<Line>, three: seq<Line>, one: Line, v: seq<Line>)
    requires IsFused(three, one) && 0 < |u| < 3
    ensures !At(FnCall, u + three + v, 0) && !At(IntStore, u + three + v, 0)
    ensures !At(FnCall, u + [one] + v, 0) && !At(IntStore, u + [one] + v, 0)
  {
    assert (u + three + v)[|u|] == three[0] && (u + [one] + v)[|u|] == one;
  }

  lemma {:induction false} KillBefore(xs: seq<Line>, ys: seq<Line>, a: Reg)
    requires KillFollows(xs + ys, a) && ys != [] && !ys[0].ins.Kill?
    ensures HasKill(xs, a)
    decreases |xs|
  {
    assert xs == [] ==> xs + ys == ys;
    if xs != [] {
      assert (xs + ys)[0] == xs[0] && (xs + ys)[1..] == xs[1..] + ys;
      if xs[0].ins != Kill(a) {
        KillBefore(xs[1..], ys, a);
        var i :| 0 <= i < |xs[1..]| && xs[1..][i].ins == Kill(a);
        assert xs[i + 1].ins == Kill(a);
      }
    }
  }

  lemma {:induction false} DropKillFront(xs: seq<Line>, ys: seq<Line>, a: Reg)
    requires HasKill(xs, a)
    ensures DropKill(xs + ys, a) == DropKill(xs, a) + ys
    decreases |xs|
  {
    assert (xs + ys)[0] == xs[0] && (xs + ys)[1..] == xs[1..] + ys;
    if xs[0].ins != Kill(a) {
      HasKillTail(xs, a);
      DropKillFront(xs[1..], ys, a);
    }
  }

  /** The same pushes, where two more lines stand at `n`. */
  function Shifted(pend: seq<nat>, n: nat): (r: seq<nat>)
    ensures |r| == |pend| && forall k :: 0 <= k < |pend| ==> r[k] == if pend[k] < n then pend[k] else pend[k] + 2
  {
    seq(|pend|, k requires 0 <= k < |pend| => if pend[k] < n then pend[k] else pend[k] + 2)
  }

  /** Both walks have passed the lines that differ. */
  ghost predicate Aside(u: seq<Line>, three: seq<Line>, one: Line, v: seq<Line>, pend: seq<nat>) {
    && IsFused(three, one) && PendOk(u + three + v, Shifted(pend, |u|))
    && forall k :: 0 <= k < |pend| ==> pend[k] != |u| && pend[k] < |u| + 1 + |v|
  }

  lemma {:induction false} KillOf(u: seq<Line>, p: nat, a: Reg, more: seq<Line>, slots: nat)
    requires Ok(u + more, {}, slots, slots) && p < |u| && u[p].ins == Push(a) && more != [] && !more[0].ins.Kill?
    ensures HasKill(u[p + 1..], a)
  {
    var ls := u + more;
    assert u[..p] + ls[p..] == ls;
    OkSplit(u[..p], ls[p..], {}, slots, slots);
    assert ls[p..][0] == u[p] && ls[p..][1..] == u[p + 1..] + more;
    KillBefore(u[p + 1..], more, a);
  }

  lemma {:induction false} WithoutFront(u: seq<Line>, more: seq<Line>, p: nat)
    requires p < |u| && u[p].ins.Push? && HasKill(u[p + 1..], u[p].ins.reg)
    ensures Without(u + more, p) == Without(u, p) + more
  {
    hide DropKill, HasKill;
    DropKillFront(u[p + 1..], more, u[p].ins.reg);
    assert (u + more)[p + 1..] == u[p + 1..] + more && (u + more)[..p] == u[..p];
  }

  /** A pop takes a push from before them. */
  lemma {:induction false} TakenBefore(u: seq<Line>, three: seq<Line>, v: seq<Line>, rest: seq<Line>, one: Line, p: nat,
                                       a: Reg, slots: nat)
    requires Ok(u + three + v + rest, {}, slots, slots) && IsFused(three, one) && p < |u| && u[p].ins == Push(a)
    ensures var u1 := Without(u, p);
      Without(u + three + v, p) == u1 + three + v && Without(u + [one] + v, p) == u1 + [one] + v
  {
    hide Ok, HasKill, Without;
    var more := three + v + rest;
    assert u + three + v + rest == u + more && more[0] == three[0];
    KillOf(u, p, a, more, slots);
    WithoutFront(u, three + v, p);
    WithoutFront(u, [one] + v, p);
    Regroup(u, three, v);
    Regroup(u, [one], v);
    Regroup(Without(u, p), three, v);
    Regroup(Without(u, p), [one], v);
  }

  lemma Regroup(x: seq<Line>, y: seq<Line>, z: seq<Line>)
    ensures x + (y + z) == x + y + z
  {}

  /** Or from after them. */
  lemma {:induction false} TakenAfter(u: seq<Line>, three: seq<Line>, v: seq<Line>, one: Line, p: nat)
    requires |three| == 3 && p < |v| && v[p].ins.Push?
    ensures var v1 := Without(v, p);
      Without(u + three + v, |u| + 3 + p) == u + three + v1 && Without(u + [one] + v, |u| + 1 + p) == u + [one] + v1
  {
    var xs, ys := u + three + v, u + [one] + v;
    assert xs[|u| + 3 + p + 1..] == v[p + 1..] && xs[..|u| + 3 + p] == u + three + v[..p];
    assert ys[|u| + 1 + p + 1..] == v[p + 1..] && ys[..|u| + 1 + p] == u + [one] + v[..p];
  }

  lemma {:induction false} LastPush(u: seq<Line>, three: seq<Line>, one: Line, v: seq<Line>, pend: seq<nat>)
    requires Aside(u, three, one, v, pend) && pend != []
    ensures var p, q := pend[|pend| - 1], Shifted(pend, |u|)[|pend| - 1];
      && |three| == 3 && p != |u| && p < |u| + 1 + |v| && q == (if p < |u| then p else p + 2)
      && (u + three + v)[q].ins.Push? && (u + [one] + v)[p] == (u + three + v)[q]
      && (if p < |u| then u[p] == (u + three + v)[q] else v[p - |u| - 1] == (u + three + v)[q])
    ensures Shifted(pend, |u|)[..|pend| - 1] == Shifted(pend[..|pend| - 1], |u|)
  {
    var p, q := pend[|pend| - 1], Shifted(pend, |u|)[|pend| - 1];
    assert |three| == 3;
    if p < |u| {
      assert (u + three + v)[q] == u[p] == (u + [one] + v)[p];
    } else {
      assert (u + three + v)[q] == v[p - |u| - 1] == (u + [one] + v)[p];
    }
  }

  lemma {:induction false} BeforeAside(u: seq<Line>, three: seq<Line>, one: Line, v: seq<Line>, pend: seq<nat>,
                                       u1: seq<Line>)
    requires Aside(u, three, one, v, pend) && pend != [] && pend[|pend| - 1] <= |u1| <= |u|
    requires PendOk(u1 + three + v, Shifted(pend[..|pend| - 1], |u|))
    ensures Aside(u1, three, one, v, pend[..|pend| - 1])
    ensures Shifted(pend[..|pend| - 1], |u1|) == Shifted(pend[..|pend| - 1], |u|)
  {
    var front := pend[..|pend| - 1];
    forall k | 0 <= k < |front| ensures front[k] < pend[|pend| - 1] {
      PendGrows(u, three, one, v, pend, k);
    }
    assert Shifted(front, |u1|) == Shifted(front, |u|);
  }

  lemma {:induction false} PendGrows(u: seq<Line>, three: seq<Line>, one: Line, v: seq<Line>, pend: seq<nat>, k: nat)
    requires Aside(u, three, one, v, pend) && k < |pend| - 1
    ensures pend[k] < pend[|pend| - 1]
  {
    var sh := Shifted(pend, |u|);
    assert sh[k] < sh[|pend| - 1];
  }

  lemma {:induction false} AfterAside(u: seq<Line>, three: seq<Line>, one: Line, v: seq<Line>, pend: seq<nat>,
                                      v1: seq<Line>)
    requires Aside(u, three, one, v, pend) && pend != [] && pend[|pend| - 1] <= |u| + 1 + |v1|
    requires PendOk(u + three + v1, Shifted(pend[..|pend| - 1], |u|))
    ensures Aside(u, three, one, v1, pend[..|pend| - 1])
  {
    var front := pend[..|pend| - 1];
    forall k | 0 <= k < |front| ensures front[k] < pend[|pend| - 1] {
      PendGrows(u, three, one, v, pend, k);
    }
  }

  lemma {:induction false} PassedAside(u: seq<Line>, three: seq<Line>, one: Line, v: seq<Line>, pend: seq<nat>,
                                       line: Line)
    requires Aside(u, three, one, v, pend) && !(line.ins.Pop? && line.labels == [] && pend != [])
    ensures Aside(u, three, one, v + [line], PendAfter(pend, |u| + 1 + |v|, line))
    ensures PendAfter(Shifted(pend, |u|), |u + three + v|, line) == Shifted(PendAfter(pend, |u| + 1 + |v|, line), |u|)
    ensures u + three + v + [line] == u + three + (v + [line]) && u + [one] + v + [line] == u + [one] + (v + [line])
  {
    hide PendOk;
    var pend1 := PendAfter(pend, |u| + 1 + |v|, line);
    PassedOk(u + three + v, Shifted(pend, |u|), line);
    Regroup(u + three, v, [line]);
    Regroup(u + [one], v, [line]);
    assert |three| == 3;
    assert PendAfter(Shifted(pend, |u|), |u + three + v|, line) == Shifted(pend1, |u|);
    assert PendOk(u + three + (v + [line]), Shifted(pend1, |u|));
  }

  /** A pop takes the same push in both. */
  lemma {:induction false} AsideTake(u: seq<Line>, three: seq<Line>, one: Line, v: seq<Line>, pend: seq<nat>,
                                     line: Line, rest: seq<Line>, slots: nat)
    returns (u1: seq<Line>, v1: seq<Line>, a: Reg)
    requires Ok(u + three + v + ([line] + rest), {}, slots, slots) && Aside(u, three, one, v, pend)
    requires line.ins.Pop? && line.labels == [] && pend != []
    ensures var front, more := pend[..|pend| - 1], Rename(rest, line.ins.reg, a);
      && Aside(u1, three, one, v1, front) && Ok(u1 + three + v1 + more, {}, slots, slots)
      && Cache(u + three + v, Shifted(pend, |u|), [line] + rest) == Cache(u1 + three + v1, Shifted(front, |u1|), more)
      && Cache(u + [one] + v, pend, [line] + rest) == Cache(u1 + [one] + v1, front, more)
  {
    hide Ok, Without, PendOk, IsFused, Rename;
    var out, p, front := u + three + v, pend[|pend| - 1], pend[..|pend| - 1];
    LastPush(u, three, one, v, pend);
    var q;
    q, a := Taken(out, Shifted(pend, |u|), line, rest, slots);
    assert ([line] + rest)[1..] == rest;
    if p < |u| {
      assert u[p] == out[p];
      TakenBefore(u, three, v, [line] + rest, one, p, a, slots);
      u1, v1 := Without(u, p), v;
      BeforeAside(u, three, one, v, pend, u1);
    } else {
      TakenAfter(u, three, v, one, p - |u| - 1);
      u1, v1 := u, Without(v, p - |u| - 1);
      AfterAside(u, three, one, v, pend, v1);
    }
  }

  /** From there on the walks stay side by side. */
  lemma {:induction false} AsideWalk(u: seq<Line>, three: seq<Line>, one: Line, v: seq<Line>, pend: seq<nat>,
                                     ls: seq<Line>, slots: nat)
    returns (u1: seq<Line>, v1: seq<Line>)
    requires Ok(u + three + v + ls, {}, slots, slots) && Aside(u, three, one, v, pend)
    ensures Cache(u + three + v, Shifted(pend, |u|), ls) == u1 + three + v1
    ensures Cache(u + [one] + v, pend, ls) == u1 + [one] + v1
    decreases |ls|
  {
    hide Ok, Without, PendOk, IsFused, Rename;
    if ls == [] {
      u1, v1 := u, v;
    } else {
      var line, rest := ls[0], ls[1..];
      var out := u + three + v;
      assert out + ls == out + ([line] + rest) && ls == [line] + rest;
      if line.ins.Pop? && line.labels == [] && pend != [] {
        var u2, v2, a := AsideTake(u, three, one, v, pend, line, rest, slots);
        u1, v1 := AsideWalk(u2, three, one, v2, pend[..|pend| - 1], Rename(rest, line.ins.reg, a), slots);
      } else {
        PassedAside(u, three, one, v, pend, line);
        assert out + ls == u + three + (v + [line]) + rest;
        u1, v1 := AsideWalk(u, three, one, v + [line], PendAfter(pend, |u| + 1 + |v|, line), rest, slots);
      }
    }
  }

  lemma PassOne(out: seq<Line>, pend: seq<nat>, line: Line, rest: seq<Line>)
    requires PendOk(out, pend) && !line.ins.Pop?
    ensures Cache(out, pend, [line] + rest) == Cache(out + [line], PendAfter(pend, |out|, line), rest)
    ensures PendOk(out + [line], PendAfter(pend, |out|, line))
  {
    assert ([line] + rest)[0] == line && ([line] + rest)[1..] == rest;
    PassedOk(out, pend, line);
  }

  /** The walk passes the three lines, or the one. */
  lemma {:induction false} PassThree(out: seq<Line>, pend: seq<nat>, three: seq<Line>, one: Line, rest: seq<Line>)
    returns (pend1: seq<nat>)
    requires IsFused(three, one) && PendOk(out, pend)
    ensures Aside(out, three, one, [], pend1) && Shifted(pend1, |out|) == pend1
    ensures Cache(out, pend, three + rest) == Cache(out + three, pend1, rest)
    ensures Cache(out, pend, [one] + rest) == Cache(out + [one], pend1, rest)
  {
    pend1 := PendAfter(pend, |out|, one);
    PendBelow(out, pend);
    PendThree(pend, |out|, three, one);
    FusedSize(three, one);
    hide *;
    PassLines(out, pend, three, rest);
    PassOne(out, pend, one, rest);
    assert out + three + [] == out + three;
    AsideStart(out, three, one, pend, pend1);
  }

  lemma PendBelow(out: seq<Line>, pend: seq<nat>)
    requires PendOk(out, pend)
    ensures forall k :: 0 <= k < |pend| ==> pend[k] < |out|
  {}

  lemma FusedSize(three: seq<Line>, one: Line)
    requires IsFused(three, one)
    ensures |three| == 3
  {}

  lemma {:induction false} PassLines(out: seq<Line>, pend: seq<nat>, ms: seq<Line>, rest: seq<Line>)
    requires PendOk(out, pend) && |ms| == 3 && !ms[0].ins.Pop? && !ms[1].ins.Pop? && !ms[2].ins.Pop?
    ensures var pend1 := PendAfter(PendAfter(PendAfter(pend, |out|, ms[0]), |out| + 1, ms[1]), |out| + 2, ms[2]);
      Cache(out, pend, ms + rest) == Cache(out + ms, pend1, rest) && PendOk(out + ms, pend1)
  {
    var o1, o2 := out + [ms[0]], out + [ms[0]] + [ms[1]];
    var p1 := PendAfter(pend, |out|, ms[0]);
    var p2 := PendAfter(p1, |out| + 1, ms[1]);
    ThreeShapes(out, ms, rest);
    hide *;
    PassOne(out, pend, ms[0], [ms[1]] + ([ms[2]] + rest));
    PassOne(o1, p1, ms[1], [ms[2]] + rest);
    PassOne(o2, p2, ms[2], rest);
  }

  lemma ThreeShapes(out: seq<Line>, three: seq<Line>, rest: seq<Line>)
    requires |three| == 3
    ensures three + rest == [three[0]] + ([three[1]] + ([three[2]] + rest))
    ensures out + [three[0]] + [three[1]] + [three[2]] == out + three
  {}

  lemma {:induction false} PendThree(pend: seq<nat>, n: nat, three: seq<Line>, one: Line)
    requires IsFused(three, one) && forall k :: 0 <= k < |pend| ==> pend[k] < n
    ensures var pend1 := PendAfter(pend, n, one);
      && PendAfter(PendAfter(PendAfter(pend, n, three[0]), n + 1, three[1]), n + 2, three[2]) == pend1
      && |pend1| <= |pend| && (forall k :: 0 <= k < |pend1| ==> pend1[k] == pend[k]) && Shifted(pend1, n) == pend1
      && !three[0].ins.Pop? && !three[1].ins.Pop? && !three[2].ins.Pop? && !one.ins.Pop?
  {
    var pend1 := PendAfter(pend, n, one);
    assert pend1 == pend || pend1 == [];
    assert Shifted(pend1, n) == pend1;
  }

  lemma AsideStart(out: seq<Line>, three: seq<Line>, one: Line, pend: seq<nat>, pend1: seq<nat>)
    requires IsFused(three, one) && PendOk(out + three + [], pend1) && PendOk(out, pend)
    requires Shifted(pend1, |out|) == pend1
    requires |pend1| <= |pend| && forall k :: 0 <= k < |pend1| ==> pend1[k] == pend[k]
    ensures Aside(out, three, one, [], pend1)
  {}

  lemma {:induction false} ThreeHere(out: seq<Line>, pend: seq<nat>, three: seq<Line>, one: Line, rest: seq<Line>,
                                     slots: nat)
    requires Ok(out + (three + rest), {}, slots, slots) && PendOk(out, pend) && IsFused(three, one)
    ensures Fuse(Cache(out, pend, three + rest)) == Fuse(Cache(out, pend, [one] + rest))
  {
    hide *;
    var pend1 := PassThree(out, pend, three, one, rest);
    assert out + three + [] == out + three && out + [one] + [] == out + [one];
    assert out + (three + rest) == out + three + [] + rest;
    var u, v := AsideWalk(out, three, one, [], pend1, rest, slots);
    FuseMiddle(u, three, one, v);
  }

  /** Fusing three lines anywhere: the walk ends with lines that fuse to the same. */
  lemma {:induction false} ThreeCommutes(out: seq<Line>, pend: seq<nat>, front: seq<Line>, three: seq<Line>, one: Line,
                                         rest: seq<Line>, slots: nat)
    requires Ok(out + (front + (three + rest)), {}, slots, slots) && PendOk(out, pend) && IsFused(three, one)
    ensures Fuse(Cache(out, pend, front + (three + rest))) == Fuse(Cache(out, pend, front + ([one] + rest)))
    decreases |front|
  {
    hide Ok, PendOk, Rename, IsFused, Fuse, RenameIns, Without;
    if front == [] {
      assert front + (three + rest) == three + rest && front + ([one] + rest) == [one] + rest;
      ThreeHere(out, pend, three, one, rest, slots);
    } else {
      var line, fr := front[0], front[1..];
      assert front + (three + rest) == [line] + (fr + (three + rest));
      assert front + ([one] + rest) == [line] + (fr + ([one] + rest));
      if Takes(out, pend, line) {
        var b := line.ins.reg;
        var p, a := Taken(out, pend, line, fr + (three + rest), slots);
        FusedRenamed(three, one, b, a);
        RenameAll(fr, three, rest, b, a);
        RenameAll(fr, [one], rest, b, a);
        OneRenamed(one, b, a);
        ThreeCommutes(Without(out, p), pend[..|pend| - 1], Rename(fr, b, a), Rename(three, b, a),
                      Line(one.labels, RenameIns(one.ins, b, a)), Rename(rest, b, a), slots);
      } else {
        PassedOk(out, pend, line);
        assert out + (front + (three + rest)) == out + [line] + (fr + (three + rest));
        ThreeCommutes(out + [line], PendAfter(pend, |out|, line), fr, three, one, rest, slots);
      }
    }
  }

  lemma RenameAll(xs: seq<Line>, ys: seq<Line>, zs: seq<Line>, b: Reg, a: Reg)
    ensures Rename(xs + (ys + zs), b, a) == Rename(xs, b, a) + (Rename(ys, b, a) + Rename(zs, b, a))
  {
    hide Rename;
    RenameConcat(xs, ys + zs, b, a);
    RenameConcat(ys, zs, b, a);
  }

  lemma OneRenamed(one: Line, b: Reg, a: Reg)
    ensures Rename([one], b, a) == [Line(one.labels, RenameIns(one.ins, b, a))]
  {}

  // ---------- What the passes compute ----------

  /** No rewrite of any pass changes the normal form. */
  lemma {:induction false} RewriteNormal(pass: Pass, ls: seq<Line>, i: nat, slots: nat)
    requires Ok(ls, {}, slots, slots) && At(pass, ls, i)
    ensures Normal(Rewrite(pass, ls, i)) == Normal(ls)
  {
    hide Ok, Fuse, Cache, Rename;
    match pass
    case PushPop => PushPopNormal(ls, i, slots);
    case Shadowed =>
      ScanQuiet(ls, i, slots);
      PairNormal(ls, i, PopFrom(ls, i + 1).value, slots);
    case FnCall => ThreeNormal(ls, i, Line(ls[i].labels, CallImm(ls[i].ins.f, ls[i + 1].ins.args)), slots);
    case IntStore => ThreeNormal(ls, i, Line(ls[i].labels, StoreImm(ls[i + 1].ins.slot, ls[i].ins.val)), slots);
  }

  lemma {:induction false} PushPopNormal(ls: seq<Line>, i: nat, slots: nat)
    requires Ok(ls, {}, slots, slots) && At(PushPop, ls, i)
    ensures Cache([], [], Rewrite(PushPop, ls, i)) == Cache([], [], ls)
  {
    hide Ok, Cache, Rename;
    var a := ls[i].ins.reg;
    assert ls[i + 1..i + 2] == [Line([], Kill(a))];
    assert DropKill([Line([], Kill(a))], a) == [];
    assert ls[..i] + [] + ls[i + 3..] == ls[..i] + ls[i + 3..];
    PairNormal(ls, i, i + 2, slots);
  }

  lemma NothingPending()
    ensures PendOk([], [])
  {}

  lemma {:induction false} PairNormal(ls: seq<Line>, i: nat, j: nat, slots: nat)
    requires Ok(ls, {}, slots, slots) && i < j < |ls| && ls[i].ins.Push? && ls[j].ins.Pop? && ls[j].labels == []
    requires AllQuiet(ls[i + 1..j])
    ensures Cache([], [], Rename(ls[..i] + DropKill(ls[i + 1..j], ls[i].ins.reg) + ls[j + 1..], ls[j].ins.reg,
                                 ls[i].ins.reg)) ==
            Cache([], [], ls)
  {
    hide Ok, Equivalent;
    var a, b := ls[i].ins.reg, ls[j].ins.reg;
    var front, ms, rest := ls[..i], ls[i + 1..j], ls[j + 1..];
    OkAt(ls, i, slots);
    hide Ok, AllQuiet, Rename;
    assert ls == front + PairLines(a, ms, b, rest);
    PairInFunction(front, a, ms, b, rest, slots);
    RenameIsLocal(front, a, ms, b, rest, slots);
    NothingPending();
    assert [] + (front + PairLines(a, ms, b, rest)) == ls;
    PairCommutes([], [], front, a, ms, b, rest, slots);
  }

  lemma {:induction false} ThreeNormal(ls: seq<Line>, i: nat, one: Line, slots: nat)
    requires Ok(ls, {}, slots, slots) && i + 2 < |ls| && IsFused([ls[i], ls[i + 1], ls[i + 2]], one)
    ensures Normal(ls[..i] + [one] + ls[i + 3..]) == Normal(ls)
  {
    hide Ok, IsFused, Fuse;
    var three := [ls[i], ls[i + 1], ls[i + 2]];
    assert ls == ls[..i] + (three + ls[i + 3..]) && [] + ls == ls;
    assert ls[..i] + [one] + ls[i + 3..] == ls[..i] + ([one] + ls[i + 3..]);
    NothingPending();
    ThreeCommutes([], [], ls[..i], three, one, ls[i + 3..], slots);
  }

  /** Where no pattern is left, the walk changes nothing. */
  lemma {:induction false} FinishedWalk(out: seq<Line>, pend: seq<nat>, ls: seq<Line>)
    requires Finished(out + ls) && PendOk(out, pend)
    ensures Cache(out, pend, ls) == out + ls
    decreases |ls|
  {
    if ls != [] {
      TakesMatches(out, pend, ls);
      PassedOk(out, pend, ls[0]);
      assert out + [ls[0]] + ls[1..] == out + ls;
      FinishedWalk(out + [ls[0]], PendAfter(pend, |out|, ls[0]), ls[1..]);
    }
  }

  lemma {:induction false} TakesMatches(out: seq<Line>, pend: seq<nat>, ls: seq<Line>)
    requires PendOk(out, pend) && ls != []
    ensures Takes(out, pend, ls[0]) ==> exists i: nat :: At(Shadowed, out + ls, i)
  {
    if Takes(out, pend, ls[0]) {
      var p := pend[|pend| - 1];
      WouldMatch(out, pend, ls, p + 1);
      assert (out + ls)[p] == out[p];
      assert At(Shadowed, out + ls, p);
    }
  }

  lemma {:induction false} WouldMatch(out: seq<Line>, pend: seq<nat>, ls: seq<Line>, j: nat)
    requires PendOk(out, pend) && ls != [] && Takes(out, pend, ls[0]) && pend[|pend| - 1] < j <= |out|
    ensures PopFrom(out + ls, j) == Some(|out|)
    decreases |out| - j
  {
    if j < |out| {
      assert (out + ls)[j] == out[j] && j !in pend;
      WouldMatch(out, pend, ls, j + 1);
    } else {
      assert (out + ls)[j] == ls[0];
    }
  }

  lemma {:induction false} FinishedFuse(ls: seq<Line>)
    requires forall i: nat :: !At(FnCall, ls, i) && !At(IntStore, ls, i)
    ensures Fuse(ls) == ls
    decreases |ls|
  {
    if ls != [] {
      forall i: nat ensures !At(FnCall, ls[1..], i) && !At(IntStore, ls[1..], i) {
        assert !At(FnCall, ls, i + 1) && !At(IntStore, ls, i + 1);
      }
      assert !At(FnCall, ls, 0) && !At(IntStore, ls, 0);
      FinishedFuse(ls[1..]);
    }
  }

  lemma {:induction false} FinishedNormal(ls: seq<Line>)
    requires Finished(ls)
    ensures Normal(ls) == ls
  {
    NothingPending();
    assert [] + ls == ls;
    FinishedWalk([], [], ls);
    forall i: nat ensures !At(FnCall, ls, i) && !At(IntStore, ls, i) {}
    FinishedFuse(ls);
  }

  lemma {:induction false} ApplyAllNormal(pass: Pass, ls: seq<Line>, cs: seq<nat>, slots: nat)
    requires Ok(ls, {}, slots, slots) && Chained(pass, ls, cs)
    ensures Normal(ApplyAll(pass, ls, cs)) == Normal(ls)
    decreases |cs|
  {
    hide Rewrite, Ok, At, Normal;
    if cs != [] {
      var r1 := ApplyLast(pass, ls, cs, slots);
      assert At(pass, ls, cs[|cs| - 1]);
      RewriteNormal(pass, ls, cs[|cs| - 1], slots);
      ApplyAllNormal(pass, r1, cs[..|cs| - 1], slots);
    }
  }

  lemma {:induction false} PassNormal(pass: Pass, ls: seq<Line>, slots: nat)
    requires Ok(ls, {}, slots, slots)
    ensures Normal(RunPass(pass, ls)) == Normal(ls) && Ok(RunPass(pass, ls), {}, slots, slots)
  {
    hide Normal, Ok;
    CandidatesChained(pass, ls, |ls|);
    ApplyAllNormal(pass, ls, Candidates(pass, ls, |ls|), slots);
    PassSound(pass, ls, slots);
  }

  lemma {:induction false} RoundNormal(ls: seq<Line>, slots: nat)
    requires Ok(ls, {}, slots, slots)
    ensures Normal(Round(ls)) == Normal(ls)
  {
    hide Normal, Ok, RunPass;
    var l1 := RunPass(PushPop, ls);
    var l2 := RunPass(FnCall, l1);
    var l3 := RunPass(IntStore, l2);
    PassNormal(PushPop, ls, slots);
    PassNormal(FnCall, l1, slots);
    PassNormal(IntStore, l2, slots);
    PassNormal(Shadowed, l3, slots);
  }

  /** Whatever rounds the other functions need: the passes leave every function's normal form, which one
    * walk and one fusing compute. */
  lemma {:induction false} OptimizeIsNormal(fs: seq<seq<Line>>, slots: seq<nat>, k: nat)
    requires AllOk(fs, slots) && k < |fs|
    ensures |OptimizeAll(fs, slots)| == |fs| && OptimizeAll(fs, slots)[k] == Normal(fs[k])
    decreases Total(fs)
  {
    hide Normal;
    RoundAllTotal(fs, slots);
    RoundAllOk(fs, slots);
    RoundNormal(fs[k], slots[k]);
    var r1 := RoundAll(fs);
    if Total(r1) != Total(fs) {
      OptimizeIsNormal(r1, slots, k);
    } else {
      FinishedNormal(fs[k]);
    }
  }

  /** The walk keeps the register discipline. */
  lemma {:induction false} CacheOk(out: seq<Line>, pend: seq<nat>, ls: seq<Line>, slots: nat)
    requires Ok(out + ls, {}, slots, slots) && PendOk(out, pend)
    ensures Ok(Cache(out, pend, ls), {}, slots, slots)
    decreases |ls|
  {
    hide Ok, PendOk, Rename, Without;
    if ls == [] {
      assert out + ls == out;
    } else {
      var line, rest := ls[0], ls[1..];
      assert out + ls == out + ([line] + rest) == out + [line] + rest;
      if Takes(out, pend, line) {
        var p, a := Taken(out, pend, line, rest, slots);
        CacheOk(Without(out, p), pend[..|pend| - 1], Rename(rest, line.ins.reg, a), slots);
      } else {
        PassedOk(out, pend, line);
        CacheOk(out + [line], PendAfter(pend, |out|, line), rest, slots);
      }
    }
  }

  /** And the register discipline holds of it. */
  lemma {:induction false} NormalOk(ls: seq<Line>, slots: nat)
    requires Ok(ls, {}, slots, slots)
    ensures Ok(Normal(ls), {}, slots, slots)
  {
    hide Normal, Ok;
    OptimizeIsNormal([ls], [slots], 0);
    OptimizeAllSound([ls], [slots]);
    assert OptimizeAll([ls], [slots])[0] == Normal(ls) && [slots][0] == slots;
  }
}
