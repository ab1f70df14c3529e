/** When two live registers come to share a machine register, and what is lost when they do. */
module AsmShare {
  import opened Values
  import opened Lir
  import opened LirLive
  import opened AsmSelect

  // A register gets the machine register numbered by how many are live at its birth.  So everything
  // can be read off the lines: where registers are defined, and how many definitions, less kills, have
  // gone before.

  /** What is live before line `i`: what has been defined and not been killed. */
  function LiveBefore(ls: seq<Line>, i: nat): set<Reg>
    requires i <= |ls|
  {
    LiveAt(ls[..i], {})
  }

  /** Line `j` defines a register while as many are live as when line `i` defined one that still is. */
  predicate Shares(ls: seq<Line>, i: nat, j: nat) {
    && i < j < |ls| && DefOf(ls[i].ins).Some? && DefOf(ls[j].ins).Some?
    && DefOf(ls[i].ins).value in LiveBefore(ls, j)
    && |LiveBefore(ls, i)| == |LiveBefore(ls, j)|
  }

  /** What is defined on line `j` finds a machine register below `most` that no live one has. */
  predicate Room(ls: seq<Line>, j: nat, most: nat)
    requires j < |ls|
  {
    DefOf(ls[j].ins).Some? ==> |LiveBefore(ls, j)| < most && forall i :: 0 <= i < j ==> !Shares(ls, i, j)
  }

  /** No two registers share, and no more than `most` are ever live. */
  predicate RoomForAll(ls: seq<Line>, most: nat) {
    forall j :: 0 <= j < |ls| ==> Room(ls, j, most)
  }

  /** The selection before line `k` is what births say, and it keeps live registers apart. */
  ghost predicate Numbered(ls: seq<Line>, k: nat, sel: Selection, most: nat)
    requires k <= |ls|
  {
    && sel.Keys == LiveBefore(ls, k) && Injective(sel) && |sel| <= most
    && (forall r :: r in sel ==> sel[r] < most)
    && ByBirth(ls, k, sel)
  }

  ghost predicate ByBirth(ls: seq<Line>, k: nat, sel: Selection)
    requires k <= |ls|
  {
    && (forall i :: 0 <= i < k && DefOf(ls[i].ins).Some? && DefOf(ls[i].ins).value in sel ==>
          sel[DefOf(ls[i].ins).value] == |LiveBefore(ls, i)|)
    && (forall r :: r in sel ==> exists i :: 0 <= i < k && DefOf(ls[i].ins) == Some(r))
  }

  lemma {:induction false} LiveAtLast(ls: seq<Line>, line: Line, live: set<Reg>)
    ensures LiveAt(ls + [line], live) == LiveAfter(line.ins, LiveAt(ls, live))
    decreases |ls|
  {
    if ls == [] {
      assert LiveAt([line][1..], LiveAfter(line.ins, live)) == LiveAfter(line.ins, live);
    } else {
      assert (ls + [line])[1..] == ls[1..] + [line];
      LiveAtLast(ls[1..], line, LiveAfter(ls[0].ins, live));
    }
  }

  lemma {:induction false} LiveNext(ls: seq<Line>, k: nat)
    requires k < |ls|
    ensures LiveBefore(ls, k + 1) == LiveAfter(ls[k].ins, LiveBefore(ls, k))
  {
    assert ls[..k + 1] == ls[..k] + [ls[k]];
    LiveAtLast(ls[..k], ls[k], {});
  }

  lemma SameSize<K, V>(m: map<K, V>, s: set<K>)
    requires m.Keys == s
    ensures |m| == |s|
  {}

  /** A line that defines nothing leaves the selection as it was, but for what it kills. */
  lemma {:induction false} NumberedPlain(ls: seq<Line>, k: nat, sel: Selection, most: nat, next: Reg, slots: nat)
    requires k < |ls| && Numbered(ls, k, sel, most) && LineOk(ls[k].ins, sel.Keys, next, slots)
    requires DefOf(ls[k].ins).None?
    ensures AllocAll(sel, Uses(ls[k].ins)) == Some(sel) && Numbered(ls, k + 1, Forget(ls[k].ins, sel), most)
  {
    hide AllocAll, LineOk, ByBirth;
    NoneAllocated(ls[k].ins, sel.Keys, next, slots, sel);
    LiveNext(ls, k);
    var sel2 := Forget(ls[k].ins, sel);
    Smaller(sel2.Keys, sel.Keys);
    SameSize(sel, sel.Keys);
    SameSize(sel2, sel2.Keys);
    BornStill(ls, k, sel, sel2);
  }

  lemma {:induction false} BornStill(ls: seq<Line>, k: nat, sel: Selection, sel2: Selection)
    requires k < |ls| && ByBirth(ls, k, sel) && DefOf(ls[k].ins).None?
    requires forall r :: r in sel2 ==> r in sel && sel2[r] == sel[r]
    ensures ByBirth(ls, k + 1, sel2)
  {
    hide LiveBefore;
    forall r | r in sel2 ensures exists i :: 0 <= i < k + 1 && DefOf(ls[i].ins) == Some(r) {
      var i :| 0 <= i < k && DefOf(ls[i].ins) == Some(r);
    }
  }

  lemma {:induction false} Smaller<T>(a: set<T>, b: set<T>)
    requires a <= b
    ensures |a| <= |b|
  {
    assert b == a + (b - a);
  }

  /** Nobody has the number that comes next, if there is room. */
  lemma {:induction false} RoomNumber(ls: seq<Line>, k: nat, sel: Selection, most: nat, q: Reg)
    requires k < |ls| && Numbered(ls, k, sel, most) && DefOf(ls[k].ins).Some? && Room(ls, k, most) && q in sel
    ensures sel[q] != |sel|
  {
    SameSize(sel, LiveBefore(ls, k));
    var i :| 0 <= i < k && DefOf(ls[i].ins) == Some(q);
    assert !Shares(ls, i, k);
  }

  /** If somebody has it, two share. */
  lemma {:induction false} NumberShared(ls: seq<Line>, k: nat, sel: Selection, most: nat, r: Reg, i: nat)
    requires k < |ls| && Numbered(ls, k, sel, most) && DefOf(ls[k].ins) == Some(r) && r !in sel && Shares(ls, i, k)
    ensures !Injective(sel[r := |sel|])
  {
    SameSize(sel, LiveBefore(ls, k));
    var q := DefOf(ls[i].ins).value;
    var sel1 := sel[r := |sel|];
    assert q in sel1 && r in sel1 && sel1[q] == sel1[r] && q != r;
  }

  lemma OneMore(sel: Selection, r: Reg)
    requires r !in sel
    ensures |sel[r := |sel|]| == |sel| + 1
  {
    assert sel[r := |sel|].Keys == sel.Keys + {r};
    SameSize(sel, sel.Keys);
    SameSize(sel[r := |sel|], sel.Keys + {r});
  }

  /** A definition with room keeps the selection in step with the births. */
  lemma {:induction false} NumberedDef(ls: seq<Line>, k: nat, sel: Selection, most: nat, r: Reg)
    requires k < |ls| && Numbered(ls, k, sel, most) && DefOf(ls[k].ins) == Some(r) && r !in sel && Room(ls, k, most)
    requires forall i :: 0 <= i < k ==> DefOf(ls[i].ins) != Some(r)
    ensures Numbered(ls, k + 1, sel[r := |sel|], most)
  {
    hide Room, ByBirth;
    LiveNext(ls, k);
    SameSize(sel, LiveBefore(ls, k));
    OneMore(sel, r);
    HasRoom(ls, k, most);
    forall q | q in sel ensures sel[q] != |sel| {
      RoomNumber(ls, k, sel, most, q);
    }
    BornNext(ls, k, sel, r);
  }

  lemma {:induction false} BornNext(ls: seq<Line>, k: nat, sel: Selection, r: Reg)
    requires k < |ls| && ByBirth(ls, k, sel) && |sel| == |LiveBefore(ls, k)| && DefOf(ls[k].ins) == Some(r)
    requires forall i :: 0 <= i < k ==> DefOf(ls[i].ins) != Some(r)
    ensures ByBirth(ls, k + 1, sel[r := |sel|])
  {
    hide LiveBefore;
    var sel1 := sel[r := |sel|];
    forall q | q in sel1 ensures exists i :: 0 <= i < k + 1 && DefOf(ls[i].ins) == Some(q) {
      BornSomewhere(ls, k, sel, r, q);
    }
  }

  lemma HasRoom(ls: seq<Line>, k: nat, most: nat)
    requires k < |ls| && Room(ls, k, most) && DefOf(ls[k].ins).Some?
    ensures |LiveBefore(ls, k)| < most
  {}

  lemma {:induction false} BornSomewhere(ls: seq<Line>, k: nat, sel: Selection, r: Reg, q: Reg)
    requires k < |ls| && DefOf(ls[k].ins) == Some(r) && (q == r || q in sel)
    requires forall q :: q in sel ==> exists i :: 0 <= i < k && DefOf(ls[i].ins) == Some(q)
    ensures exists i :: 0 <= i < k + 1 && DefOf(ls[i].ins) == Some(q)
  {
    if q == r {
      assert DefOf(ls[k].ins) == Some(q);
    }
  }

  /** Without room, the selection fails, runs over, or puts two registers into one. */
  lemma {:induction false} NoRoomDef(ls: seq<Line>, k: nat, sel: Selection, most: nat, r: Reg)
    requires k < |ls| && Numbered(ls, k, sel, most) && DefOf(ls[k].ins) == Some(r) && r !in sel && !Room(ls, k, most)
    ensures |sel[r := |sel|]| > most || !Injective(sel[r := |sel|])
  {
    SameSize(sel, LiveBefore(ls, k));
    OneMore(sel, r);
    if |sel| < most {
      var i :| 0 <= i < k && Shares(ls, i, k);
      NumberShared(ls, k, sel, most, r, i);
    }
  }

  /** From any line on, given the selection that the lines before it have made. */
  lemma {:induction false} ApartFrom(ls: seq<Line>, k: nat, sel: Selection, most: nat, next: Reg, slots: nat)
    requires k <= |ls| && most <= MACHINE_REGS && Numbered(ls, k, sel, most)
    requires Ok(ls[k..], sel.Keys, next, slots) && Sane(sel.Keys, next, slots)
    requires forall i :: 0 <= i < k && DefOf(ls[i].ins).Some? ==> DefOf(ls[i].ins).value < next
    ensures Apart(ls[k..], sel, most) <==> forall j :: k <= j < |ls| ==> Room(ls, j, most)
    decreases |ls| - k
  {
    hide Ok, LineOk, Sane, Room, Numbered, Apart;
    if k == |ls| {
      NoneApart(ls[k..], sel, most);
    } else {
      assert ls[k..][0] == ls[k] && ls[k..][1..] == ls[k + 1..];
      OkHead(ls[k..], sel.Keys, next, slots);
      var next1 := NextAfter(ls[k].ins, next);
      NextGrows(ls[k].ins, sel.Keys, next, slots);
      if DefOf(ls[k].ins).Some? {
        var r := DefOf(ls[k].ins).value;
        var sel1 := sel[r := |sel|];
        DefStep(ls, k, sel, most, next, slots, r);
        if Room(ls, k, most) {
          NumberedDef(ls, k, sel, most, r);
          NumberedApart(ls, k + 1, sel1, most);
          ApartFrom(ls, k + 1, sel1, most, next1, slots);
        } else {
          NoRoomDef(ls, k, sel, most, r);
        }
      } else {
        NumberedPlain(ls, k, sel, most, next, slots);
        PlainStep(ls, k, sel, most, next, slots);
        ApartFrom(ls, k + 1, Forget(ls[k].ins, sel), most, next1, slots);
      }
    }
  }

  lemma NumberedApart(ls: seq<Line>, k: nat, sel: Selection, most: nat)
    requires k <= |ls| && Numbered(ls, k, sel, most)
    ensures Injective(sel) && |sel| <= most && forall r :: r in sel ==> sel[r] < most
  {}

  /** What being apart asks at a definition. */
  lemma {:induction false} DefStep(ls: seq<Line>, k: nat, sel: Selection, most: nat, next: Reg, slots: nat, r: Reg)
    requires k < |ls| && most <= MACHINE_REGS && DefOf(ls[k].ins) == Some(r)
    requires Ok(ls[k..], sel.Keys, next, slots) && Sane(sel.Keys, next, slots)
    ensures var sel1 := sel[r := |sel|];
      && r !in sel && sel1.Keys == LiveAfter(ls[k].ins, sel.Keys)
      && (Apart(ls[k..], sel, most) <==>
            Injective(sel1) && |sel1| <= most && (forall q :: q in sel1 ==> sel1[q] < most) &&
              Apart(ls[k + 1..], sel1, most))
  {
    hide Injective, AllocAll, Ok;
    var at := ls[k..];
    assert at[0] == ls[k] && at[1..] == ls[k + 1..];
    OkHead(at, sel.Keys, next, slots);
    NothingAtLabel(at, sel, next, slots);
    assert Uses(ls[k].ins) == [r];
    AllocOne(sel, r);
    if |sel| < MACHINE_REGS {
      assert AllocAll(sel, [r]) == Some(sel[r := |sel|]);
    } else {
      OneMore(sel, r);
    }
  }

  lemma NothingAtLabel(ls: seq<Line>, sel: Selection, next: Reg, slots: nat)
    requires Ok(ls, sel.Keys, next, slots) && ls != []
    ensures ls[0].labels != [] ==> sel == map[]
  {}

  /** And at any other line. */
  lemma {:induction false} PlainStep(ls: seq<Line>, k: nat, sel: Selection, most: nat, next: Reg, slots: nat)
    requires k < |ls| && DefOf(ls[k].ins).None? && Numbered(ls, k, sel, most)
    requires Ok(ls[k..], sel.Keys, next, slots) && Sane(sel.Keys, next, slots)
    ensures var sel1 := Forget(ls[k].ins, sel);
      sel1.Keys == LiveAfter(ls[k].ins, sel.Keys) && (Apart(ls[k..], sel, most) <==> Apart(ls[k + 1..], sel1, most))
    ensures Room(ls, k, most)
  {
    hide Injective, AllocAll, ByBirth;
    var at := ls[k..];
    assert at[0] == ls[k] && at[1..] == ls[k + 1..];
    OkHead(at, sel.Keys, next, slots);
    NoneAllocated(ls[k].ins, sel.Keys, next, slots, sel);
  }

  lemma NoneApart(ls: seq<Line>, sel: Selection, most: nat)
    requires ls == []
    ensures Apart(ls, sel, most)
  {}

  lemma NextGrows(ins: Ins, live: set<Reg>, next: Reg, slots: nat)
    requires LineOk(ins, live, next, slots)
    ensures next <= NextAfter(ins, next)
    ensures DefOf(ins).Some? ==> next <= DefOf(ins).value < NextAfter(ins, next)
  {}

  /** Exactly when selection keeps live registers apart: when no register is defined while as many are
    * live as at the definition of one that still is, and there are machine registers enough. */
  lemma {:induction false} ApartIff(ls: seq<Line>, most: nat, slots: nat)
    requires Ok(ls, {}, slots, slots) && most <= MACHINE_REGS
    ensures Apart(ls, map[], most) <==> RoomForAll(ls, most)
  {
    hide Ok, Apart, Room;
    assert ls[0..] == ls && ls[..0] == [];
    ApartFrom(ls, 0, map[], most, slots, slots);
  }

  /** Where that is so, running over machine registers is running over virtual ones: from every label,
    * with the same fuel, the same outcome. */
  lemma {:induction false} SelectionSound(params: nat, ls: seq<Line>, slots: nat, l: Label, s: State, t: State,
                                          call: Callee, fuel: nat)
    requires Ok(ls, {}, slots, slots) && RoomForAll(ls, MACHINE_REGS) && RelM(map[], s, t)
    ensures Select(ls, map[]).Some?
    ensures Run(params, ls, l, s, call, fuel) == Run(params, Select(ls, map[]).value, l, t, call, fuel)
  {
    ApartIff(ls, MACHINE_REGS, slots);
    ApartRuns(params, ls, slots, MACHINE_REGS, l, s, t, call, fuel);
  }

  lemma {:induction false} SharedNumber(ls: seq<Line>, i: nat, k: nat, sel: Selection, most: nat) returns (q: Reg)
    requires k < |ls| && Shares(ls, i, k) && Numbered(ls, k, sel, most)
    ensures DefOf(ls[i].ins) == Some(q) && DefOf(ls[k].ins).Some? && q in sel && sel[q] == |sel| && Injective(sel)
  {
    SameSize(sel, LiveBefore(ls, k));
    q := DefOf(ls[i].ins).value;
  }

  /** One machine register holds one value. */
  lemma {:induction false} OneValue(sel: Selection, q: Reg, r: Reg, v: Value, s: State, t: State)
    requires RelM(sel, s, t) && Injective(sel) && r !in sel && q in sel && sel[q] == |sel|
    ensures RelM(sel[r := |sel|], Set(s, r, v), Set(t, |sel|, v)) <==> s.regs[q] == v
  {
    var sel1 := sel[r := |sel|];
    var s1, t1 := Set(s, r, v), Set(t, |sel|, v);
    assert q in sel1 && r in sel1 && t1.regs[sel1[q]] == v && s1.regs[q] == s.regs[q];
    assert forall p :: p in sel1 && p != r && p != q ==> sel[p] != |sel|;
  }

  /** And where it is not: after the line at which `r` comes to share with `q`, the machine registers
    * hold what the virtual ones do only if the two happen to be equal. */
  lemma {:induction false} SharingLoses(ls: seq<Line>, i: nat, k: nat, sel: Selection, most: nat, s: State, t: State,
                                        call: Callee)
    requires k < |ls| && Shares(ls, i, k) && Numbered(ls, k, sel, most) && |sel| < MACHINE_REGS && RelM(sel, s, t)
    requires DefOf(ls[k].ins).value !in sel && StepIns(ls[k].ins, s, call).Fall?
    ensures var q, r := DefOf(ls[i].ins).value, DefOf(ls[k].ins).value;
      var sel1 := sel[r := |sel|];
      && AllocAll(sel, Uses(ls[k].ins)) == Some(sel1) && q in sel && sel1[q] == sel1[r]
      && (var f, g := StepIns(ls[k].ins, s, call), StepIns(InsOver(ls[k].ins, sel1), t, call);
          g.Fall? && q in f.st.regs && r in f.st.regs
          && (RelM(sel1, f.st, g.st) <==> f.st.regs[q] == f.st.regs[r]))
  {
    hide AllocAll, Numbered, Shares, Injective;
    var q := SharedNumber(ls, i, k, sel, most);
    var r := DefOf(ls[k].ins).value;
    AllocOne(sel, r);
    assert Uses(ls[k].ins) == [r];
    match ls[k].ins
    case MovInt(_, n) => OneValue(sel, q, r, Literal(n), s, t);
    case MovString(_, x) => OneValue(sel, q, r, StrRef(x), s, t);
    case MovFn(_, f) => OneValue(sel, q, r, FnRef(f), s, t);
    case Load(_, slot) => OneValue(sel, q, r, Get(s.frame, slot), s, t);
    case Pop(_) =>
      var n := |s.stack| - 1;
      OneValue(sel, q, r, s.stack[n], s.(stack := s.stack[..n]), t.(stack := t.stack[..n]));
  }
}
