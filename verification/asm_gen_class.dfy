/** The assembly generator's walk over a function's lines: slots laid out from the leading
  * allocations, then registers chosen line after line. */
module AsmGenClass {
  import opened Values
  import opened Lir
  import opened LirGen
  import opened AsmSelect
  import opened AsmFrame

  function IsAlloc(ins: Ins): bool {
    ins.AllocParam? || ins.AllocLocal?
  }

  /** How many lines come before the body; 0 when there is no body. */
  function BodyStart(ls: seq<Line>, i: nat): (n: nat)
    requires i <= |ls|
    ensures n == 0 || (i <= n < |ls| && !IsAlloc(ls[n].ins))
    decreases |ls| - i
  {
    if i == |ls| then 0 else if IsAlloc(ls[i].ins) then BodyStart(ls, i + 1) else i
  }

  function ParamsOf(ls: seq<Line>): seq<Sized> {
    if ls == [] || !IsAlloc(ls[0].ins) then []
    else (if ls[0].ins.AllocParam? then [Sized(ls[0].ins.reg, ls[0].ins.size)] else []) + ParamsOf(ls[1..])
  }

  function LocalsOf(ls: seq<Line>): seq<Sized> {
    if ls == [] || !IsAlloc(ls[0].ins) then []
    else (if ls[0].ins.AllocLocal? then [Sized(ls[0].ins.reg, ls[0].ins.size)] else []) + LocalsOf(ls[1..])
  }

  /** The leading allocations are of different registers. */
  ghost predicate FreshAllocs(ls: seq<Line>) {
    forall i, j :: 0 <= i < j < |ls| && IsAlloc(ls[i].ins) && IsAlloc(ls[j].ins) ==> ls[i].ins.reg != ls[j].ins.reg
  }

  class AsmGen {
    var liveRegs: set<Reg>
    var regSelect: Selection

    constructor ()
      ensures liveRegs == {} && regSelect == map[]
    {
      liveRegs, regSelect := {}, map[];
    }

    predicate Valid()
      reads this
    {
      liveRegs == regSelect.Keys
    }

    /** False when the machine registers have run out. */
    method AllocReg(reg: Reg) returns (ok: bool)
      requires Valid()
      modifies this
      ensures Valid()
      ensures ok <==> AsmSelect.AllocReg(old(regSelect), reg).Some?
      ensures ok ==> AsmSelect.AllocReg(old(regSelect), reg) == Some(regSelect)
    {
      if reg !in liveRegs {
        var regSel := |liveRegs|;
        assert |regSelect| == |regSelect.Keys|;
        if regSel >= MACHINE_REGS {
          return false;
        }
        liveRegs := liveRegs + {reg};
        regSelect := regSelect[reg := regSel];
      }
      return true;
    }

    method KillReg(reg: Reg)
      requires Valid()
      modifies this
      ensures Valid() && regSelect == old(regSelect) - {reg}
    {
      liveRegs := liveRegs - {reg};
      regSelect := regSelect - {reg};
    }

    /** The machine registers for the registers of one line. */
    method AllocUses(rs: seq<Reg>) returns (ok: bool)
      requires Valid()
      modifies this
      ensures Valid()
      ensures ok <==> AllocAll(old(regSelect), rs).Some?
      ensures ok ==> AllocAll(old(regSelect), rs) == Some(regSelect)
    {
      var i := 0;
      assert rs[0..] == rs;
      while i < |rs|
        invariant 0 <= i <= |rs| && Valid()
        invariant AllocAll(regSelect, rs[i..]) == AllocAll(old(regSelect), rs)
      {
        assert rs[i..][1..] == rs[i + 1..];
        var more := AllocReg(rs[i]);
        if !more {
          return false;
        }
        i := i + 1;
      }
      assert rs[|rs|..] == [];
      return true;
    }

    method GenerateIns(ins: Ins) returns (out: Option<Ins>)
      requires Valid()
      modifies this
      ensures Valid()
      ensures out.Some? <==> AllocAll(old(regSelect), Uses(ins)).Some?
      ensures out.Some? ==> var sel := AllocAll(old(regSelect), Uses(ins)).value;
                out.value == InsOver(ins, sel) && regSelect == Forget(ins, sel)
    {
      var ok := AllocUses(Uses(ins));
      if !ok {
        return None;
      }
      out := Some(InsOver(ins, regSelect));
      if ins.Kill? {
        KillReg(ins.reg);
      }
    }

    /** All lines; None stands for the exception when registers run out. */
    method GenerateLines(ls: seq<Line>) returns (out: Option<seq<Line>>)
      requires Valid()
      modifies this
      ensures Valid() && out == Select(ls, old(regSelect))
    {
      var done: seq<Line> := [];
      var i := 0;
      assert ls[0..] == ls;
      while i < |ls|
        invariant 0 <= i <= |ls| && Valid()
        invariant Select(ls, old(regSelect)).Some? <==> Select(ls[i..], regSelect).Some?
        invariant Select(ls[i..], regSelect).Some? ==>
          Select(ls, old(regSelect)).value == done + Select(ls[i..], regSelect).value
      {
        assert ls[i..][1..] == ls[i + 1..] && ls[i..][0] == ls[i];
        ghost var before := regSelect;
        var ins := GenerateIns(ls[i].ins);
        SelectHead(ls[i..], before);
        hide Select, Valid;
        if ins.None? {
          return None;
        }
        DoneNext(done, [Line(ls[i].labels, ins.value)], Select(ls[i..], before), Select(ls[i + 1..], regSelect));
        done := done + [Line(ls[i].labels, ins.value)];
        i := i + 1;
      }
      assert ls[|ls|..] == [];
      assert Select([], regSelect) == Some([]) && done + [] == done;
      out := Some(done);
    }

    lemma SelectHead(ls: seq<Line>, sel: Selection)
      requires ls != []
      ensures AllocAll(sel, Uses(ls[0].ins)).None? ==> Select(ls, sel).None?
      ensures AllocAll(sel, Uses(ls[0].ins)).Some? ==>
        var sel1 := AllocAll(sel, Uses(ls[0].ins)).value; var more := Select(ls[1..], Forget(ls[0].ins, sel1));
        && (Select(ls, sel).Some? <==> more.Some?)
        && (more.Some? ==> Select(ls, sel).value == [Line(ls[0].labels, InsOver(ls[0].ins, sel1))] + more.value)
    {}

    lemma DoneNext(done: seq<Line>, line: seq<Line>, now: Option<seq<Line>>, next: Option<seq<Line>>)
      requires now.Some? <==> next.Some?
      requires next.Some? ==> now.value == line + next.value
      ensures now.Some? ==> done + now.value == done + line + next.value
    {}

    /** One allocation handed to the allocator. */
    method AllocateSlot(allocator: StackAllocator, ins: Ins, ghost seen: set<Reg>)
      requires IsAlloc(ins) && allocator.Valid() && SeenBy(allocator, seen) && ins.reg !in seen
      modifies allocator
      ensures allocator.Valid() && SeenBy(allocator, seen + {ins.reg})
      ensures allocator.paramRegs == old(allocator.paramRegs) + ParamsOf([Line([], ins)])
      ensures allocator.localRegs == old(allocator.localRegs) + LocalsOf([Line([], ins)])
    {
      assert [Line([], ins)][1..] == [];
      if ins.AllocParam? {
        allocator.AllocParam(ins.reg, ins.size);
      } else {
        allocator.AllocLocal(ins.reg, ins.size);
      }
    }

    ghost predicate SeenBy(allocator: StackAllocator, seen: set<Reg>)
      reads allocator
    {
      && (forall r :: r in Regs(allocator.paramRegs) ==> r in seen)
      && (forall r :: r in Regs(allocator.localRegs) ==> r in seen)
    }

    lemma AllocsStep(ls: seq<Line>, i: nat)
      requires i < |ls| && IsAlloc(ls[i].ins)
      ensures ParamsOf(ls[i..]) == ParamsOf([Line([], ls[i].ins)]) + ParamsOf(ls[i + 1..])
      ensures LocalsOf(ls[i..]) == LocalsOf([Line([], ls[i].ins)]) + LocalsOf(ls[i + 1..])
    {
      OneThenRest(ls[i], ls[i..], ls[i + 1..]) by { assert ls[i..][1..] == ls[i + 1..]; }
    }

    lemma {:induction false} OneThenRest(line: Line, all: seq<Line>, rest: seq<Line>)
      requires IsAlloc(line.ins) && all != [] && all[0] == line && all[1..] == rest
      ensures ParamsOf(all) == ParamsOf([Line([], line.ins)]) + ParamsOf(rest)
      ensures LocalsOf(all) == LocalsOf([Line([], line.ins)]) + LocalsOf(rest)
    {
      var one := [Line([], line.ins)];
      assert one[1..] == [];
      assert ParamsOf([]) == [] && LocalsOf([]) == [];
    }

    ghost predicate SeenLines(ls: seq<Line>, i: nat, seen: set<Reg>)
      requires i <= |ls|
    {
      forall r :: r in seen ==> exists j :: 0 <= j < i && IsAlloc(ls[j].ins) && ls[j].ins.reg == r
    }

    lemma Unseen(ls: seq<Line>, i: nat, seen: set<Reg>)
      requires FreshAllocs(ls) && i < |ls| && IsAlloc(ls[i].ins) && SeenLines(ls, i, seen)
      ensures ls[i].ins.reg !in seen && SeenLines(ls, i + 1, seen + {ls[i].ins.reg})
    {
      forall r | r in seen + {ls[i].ins.reg} ensures exists j ::
        0 <= j < i + 1 && IsAlloc(ls[j].ins) && ls[j].ins.reg == r {
        if r in seen {
          var j :| 0 <= j < i && IsAlloc(ls[j].ins) && ls[j].ins.reg == r;
        } else {
          assert ls[i].ins.reg == r;
        }
      }
    }

    method AllocateAll(ls: seq<Line>) returns (allocator: StackAllocator, bodyIdx: nat)
      requires FreshAllocs(ls)
      ensures fresh(allocator) && allocator.Valid()
      ensures allocator.paramRegs == ParamsOf(ls) && allocator.localRegs == LocalsOf(ls) && bodyIdx == BodyStart(ls, 0)
    {
      hide ParamsOf, LocalsOf, SeenLines, FreshAllocs;
      allocator := new StackAllocator();
      ghost var seen: set<Reg> := {};
      var i := 0;
      NothingSeen(ls);
      while i < |ls| && IsAlloc(ls[i].ins)
        invariant 0 <= i <= |ls| && allocator.Valid() && fresh(allocator) && SeenBy(allocator, seen)
        invariant SeenLines(ls, i, seen)
        invariant BodyStart(ls, 0) == BodyStart(ls, i)
        invariant ParamsOf(ls) == allocator.paramRegs + ParamsOf(ls[i..])
        invariant LocalsOf(ls) == allocator.localRegs + LocalsOf(ls[i..])
      {
        Unseen(ls, i, seen);
        AllocsStep(ls, i);
        AllocateSlot(allocator, ls[i].ins, seen);
        seen := seen + {ls[i].ins.reg};
        i := i + 1;
      }
      NoAllocs(ls, i);
      bodyIdx := if i < |ls| then i else 0;
    }

    lemma NothingSeen(ls: seq<Line>)
      ensures SeenLines(ls, 0, {}) && ls[0..] == ls
    {}

    lemma NoAllocs(ls: seq<Line>, i: nat)
      requires i <= |ls| && (i < |ls| ==> !IsAlloc(ls[i].ins))
      ensures ParamsOf(ls[i..]) == [] && LocalsOf(ls[i..]) == []
    {}

    /** Slots for the leading allocations, and where the body starts. */
    method LayOut(ls: seq<Line>) returns (layout: StackLayout, bodyIdx: nat)
      requires FreshAllocs(ls)
      ensures LaysOut(layout, ParamsOf(ls), LocalsOf(ls)) && bodyIdx == BodyStart(ls, 0)
    {
      var allocator;
      allocator, bodyIdx := AllocateAll(ls);
      layout := allocator.Finalize();
    }
  }
}
