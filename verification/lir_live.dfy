/** The register discipline of generated lines: every register has one live interval inside
  * one block, nothing is live at a label, and only the callee's register is live at a call. */
module LirLive {
  import opened Values
  import opened Lir

  /** The register a line defines. */
  function DefOf(ins: Ins): Option<Reg> {
    match ins
    case MovInt(r, _) => Some(r)
    case MovString(r, _) => Some(r)
    case MovFn(r, _) => Some(r)
    case Pop(r) => Some(r)
    case Load(r, _) => Some(r)
    case _ => None
  }

  /** Which registers are live after a line. */
  function LiveAfter(ins: Ins, live: set<Reg>): set<Reg> {
    if DefOf(ins).Some? then live + {DefOf(ins).value}
    else if ins.Kill? then live - {ins.reg} else live
  }

  /** Registers below this number have been defined. */
  function NextAfter(ins: Ins, next: Reg): Reg {
    if DefOf(ins).Some? then DefOf(ins).value + 1 else next
  }

  /** After a push come only kills until the pushed register's own. */
  predicate KillFollows(ls: seq<Line>, r: Reg) {
    ls != [] && ls[0].labels == [] && ls[0].ins.Kill? && (ls[0].ins.reg == r || KillFollows(ls[1..], r))
  }

  /** A line respects the discipline where `live` are live; slots are the registers below
    * `slots`, and definitions come in increasing order. */
  predicate LineOk(ins: Ins, live: set<Reg>, next: Reg, slots: nat) {
    match ins
    case Error => false
    case Nop => false
    case AllocParam(r, _) => r < slots
    case AllocLocal(r, _) => r < slots
    case MovInt(r, _) => next <= r
    case MovString(r, _) => next <= r
    case MovFn(r, _) => next <= r
    case Push(r) => r in live
    case Pop(r) => next <= r
    case Load(r, s) => next <= r && s < slots
    case StoreReg(s, r) => r in live && s < slots
    case StoreImm(s, _) => s < slots
    case CallReg(r, _) => live == {r}
    case CallImm(_, _) => live == {}
    case Jmp(_) => live == {}
    case JnzReg(r, _) => live == {r}
    case Ret => live == {}
    case Binary(_, d, s) => d in live && s in live && d != s
    case Kill(r) => r in live
  }

  /** What must come after a line. */
  predicate FollowOk(ins: Ins, rest: seq<Line>) {
    match ins
    case Push(r) => KillFollows(rest, r)
    case CallReg(r, _) => rest != [] && rest[0] == Line([], Kill(r))
    case Jmp(_) => rest == [] || rest[0].labels != []
    case Ret => rest == [] || rest[0].labels != []
    case JnzReg(r, _) =>
      |rest| >= 2 && rest[0] == Line([], Kill(r)) && rest[1].labels == [] && rest[1].ins.Jmp?
    case _ => rest != []
  }

  /** The discipline, from a point where `live` are live. */
  predicate Ok(ls: seq<Line>, live: set<Reg>, next: Reg, slots: nat) {
    ls == [] ||
    (&& (ls[0].labels != [] ==> live == {})
     && LineOk(ls[0].ins, live, next, slots)
     && FollowOk(ls[0].ins, ls[1..])
     && Ok(ls[1..], LiveAfter(ls[0].ins, live), NextAfter(ls[0].ins, next), slots))
  }

  /** Live registers are slots of nothing and have been defined. */
  predicate Sane(live: set<Reg>, next: Reg, slots: nat) {
    slots <= next && forall r :: r in live ==> slots <= r < next
  }

  function LiveAt(ls: seq<Line>, live: set<Reg>): set<Reg> {
    if ls == [] then live else LiveAt(ls[1..], LiveAfter(ls[0].ins, live))
  }

  function NextAt(ls: seq<Line>, next: Reg): Reg {
    if ls == [] then next else NextAt(ls[1..], NextAfter(ls[0].ins, next))
  }

  lemma {:induction false} OkSplit(a: seq<Line>, b: seq<Line>, live: set<Reg>, next: Reg, slots: nat)
    requires Ok(a + b, live, next, slots) && Sane(live, next, slots)
    ensures Ok(b, LiveAt(a, live), NextAt(a, next), slots) && Sane(LiveAt(a, live), NextAt(a, next), slots)
    ensures next <= NextAt(a, next)
    decreases |a|
  {
    if a == [] {
      assert a + b == b;
    } else {
      assert (a + b)[1..] == a[1..] + b;
      OkSplit(a[1..], b, LiveAfter(a[0].ins, live), NextAfter(a[0].ins, next), slots);
    }
  }

  /** Fewer registers counted as defined do no harm. */
  lemma {:induction false} OkLower(ls: seq<Line>, live: set<Reg>, next: Reg, lower: Reg, slots: nat)
    requires Ok(ls, live, next, slots) && lower <= next
    ensures Ok(ls, live, lower, slots)
    decreases |ls|
  {
    if ls != [] {
      OkLower(ls[1..], LiveAfter(ls[0].ins, live), NextAfter(ls[0].ins, next), NextAfter(ls[0].ins, lower), slots);
    }
  }

  // ---------- Renaming ----------

  function Rho(b: Reg, a: Reg, r: Reg): Reg {
    if r == b then a else r
  }

  /** Replace register `b` by `a`. */
  function RenameIns(ins: Ins, b: Reg, a: Reg): Ins {
    match ins
    case AllocParam(r, n) => AllocParam(Rho(b, a, r), n)
    case AllocLocal(r, n) => AllocLocal(Rho(b, a, r), n)
    case MovInt(r, n) => MovInt(Rho(b, a, r), n)
    case MovString(r, s) => MovString(Rho(b, a, r), s)
    case MovFn(r, f) => MovFn(Rho(b, a, r), f)
    case Push(r) => Push(Rho(b, a, r))
    case Pop(r) => Pop(Rho(b, a, r))
    case Load(r, s) => Load(Rho(b, a, r), Rho(b, a, s))
    case StoreReg(s, r) => StoreReg(Rho(b, a, s), Rho(b, a, r))
    case StoreImm(s, n) => StoreImm(Rho(b, a, s), n)
    case CallReg(r, n) => CallReg(Rho(b, a, r), n)
    case JnzReg(r, t) => JnzReg(Rho(b, a, r), t)
    case Binary(op, d, s) => Binary(op, Rho(b, a, d), Rho(b, a, s))
    case Kill(r) => Kill(Rho(b, a, r))
    case _ => ins
  }

  function Rename(ls: seq<Line>, b: Reg, a: Reg): (rs: seq<Line>)
    ensures |rs| == |ls|
    ensures forall i :: 0 <= i < |ls| ==> rs[i] == Line(ls[i].labels, RenameIns(ls[i].ins, b, a))
  {
    seq(|ls|, i requires 0 <= i < |ls| => Line(ls[i].labels, RenameIns(ls[i].ins, b, a)))
  }

  function RenameSet(live: set<Reg>, b: Reg, a: Reg): set<Reg> {
    set r | r in live :: Rho(b, a, r)
  }

  /** Before it is defined, a register occurs nowhere. */
  lemma {:induction false} NotYet(ls: seq<Line>, rest: seq<Line>, live: set<Reg>, next: Reg, slots: nat, b: Reg, a: Reg)
    requires Ok(ls + rest, live, next, slots) && Sane(live, next, slots) && NextAt(ls, next) <= b
    ensures Rename(ls, b, a) == ls
    decreases |ls|
  {
    if ls != [] {
      assert (ls + rest)[1..] == ls[1..] + rest;
      var live1, next1 := LiveAfter(ls[0].ins, live), NextAfter(ls[0].ins, next);
      OkSplit(ls[1..], rest, live1, next1, slots);
      NotYet(ls[1..], rest, live1, next1, slots, b, a);
      assert RenameIns(ls[0].ins, b, a) == ls[0].ins;
      assert Rename(ls, b, a)[1..] == Rename(ls[1..], b, a);
    }
  }

  lemma {:induction false} KillFollowsRenamed(ls: seq<Line>, r: Reg, b: Reg, a: Reg)
    requires KillFollows(ls, r)
    ensures KillFollows(Rename(ls, b, a), Rho(b, a, r))
    decreases |ls|
  {
    assert Rename(ls, b, a)[1..] == Rename(ls[1..], b, a);
    if ls[0].ins.reg != r {
      KillFollowsRenamed(ls[1..], r, b, a);
    }
  }

  /** A register whose interval is over can take the place of a live one. */
  lemma {:induction false} FollowRenamed(ins: Ins, rest: seq<Line>, b: Reg, a: Reg)
    requires FollowOk(ins, rest)
    ensures FollowOk(RenameIns(ins, b, a), Rename(rest, b, a))
  {
    if ins.Push? {
      KillFollowsRenamed(rest, ins.reg, b, a);
    }
  }

  lemma {:induction false} OkRenamed(ls: seq<Line>, live: set<Reg>, next: Reg, slots: nat, b: Reg, a: Reg)
    requires Ok(ls, live, next, slots) && Sane(live, next, slots)
    requires slots <= a < next && slots <= b < next && a !in live && a != b
    ensures Ok(Rename(ls, b, a), RenameSet(live, b, a), next, slots)
    decreases |ls|
  {
    hide RenameIns, FollowOk;
    if ls != [] {
      var ins := ls[0].ins;
      var live1, next1 := LiveAfter(ins, live), NextAfter(ins, next);
      OkRenamed(ls[1..], live1, next1, slots, b, a);
      RenamedStep(ins, live, next, slots, b, a);
      assert Rename(ls, b, a)[1..] == Rename(ls[1..], b, a);
      FollowRenamed(ins, ls[1..], b, a);
    }
  }

  lemma {:induction false} RenamedStep(ins: Ins, live: set<Reg>, next: Reg, slots: nat, b: Reg, a: Reg)
    requires LineOk(ins, live, next, slots) && Sane(live, next, slots)
    requires slots <= a < next && slots <= b < next && a !in live && a != b
    ensures LineOk(RenameIns(ins, b, a), RenameSet(live, b, a), next, slots)
    ensures LiveAfter(RenameIns(ins, b, a), RenameSet(live, b, a)) == RenameSet(LiveAfter(ins, live), b, a)
    ensures NextAfter(RenameIns(ins, b, a), next) == NextAfter(ins, next)
    ensures a !in LiveAfter(ins, live)
  {
    forall r | r in live ensures Rho(b, a, r) in RenameSet(live, b, a) {}
    if ins.Kill? {
      assert forall r, s :: r in live && s in live && Rho(b, a, r) == Rho(b, a, s) ==> r == s;
    }
  }
}
