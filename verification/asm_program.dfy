/** From names to one memory: whole programs over machine registers and a stack shared by all calls. */
module AsmProgram {
  import opened Values
  import opened Ast
  import opened ResolverSpec
  import opened Named
  import opened Source
  import opened Lir
  import opened LirLive
  import LirGen
  import LirOptimize
  import opened AsmSelect
  import opened AsmShare
  import F = AsmFrame
  import AsmCalls
  import AsmLayout
  import AsmGenClass
  import opened AsmWhole
  import Mem = AsmMemory
  import opened MirShape
  import W = Whole

  /** A compiled program in memory: the selected lines of every function, and its frame a word for every
    * slot but the parameters'. */
  ghost function Installed(p: Program): (mq: seq<Mem.Unit>)
    requires Compiles(p) && W.AcceptedProgram(p, Tables(p)) && RegistersSuffice(W.Compile(p, Tables(p)))
    ensures |mq| == |p|
  {
    var q, slots := W.Compile(p, Tables(p)), W.SlotsOf(p, Tables(p));
    seq(|p|, k requires 0 <= k < |p| =>
      if q[k].Extern? then Mem.Wrapper(q[k].params)
      else Mem.Body(SelectUnit(q[k]).fn, if slots[k] <= q[k].fn.params then 0 else 8 * (slots[k] - q[k].fn.params)))
  }

  lemma {:induction false} CompiledOk(p: Program, k: nat)
    requires Compiles(p) && W.AcceptedProgram(p, Tables(p)) && k < |p| && !p[k].extern
    ensures var q, slots := W.Compile(p, Tables(p)), W.SlotsOf(p, Tables(p));
      q[k].Code? && q[k].fn.params == |p[k].params| < slots[k] && Ok(q[k].fn.lines, {}, slots[k], slots[k])
  {
    var re := Tables(p);
    W.LinesOk(p, re);
    W.MirOk(p[k], re[k]);
    LirOptimize.OptimizeAllSound(W.LinesOf(p, re), W.SlotsOf(p, re));
    hide Ok, W.MirOf, LirOptimize.OptimizeAll;
  }

  lemma {:induction false} IsLoaded(p: Program)
    requires Compiles(p) && W.AcceptedProgram(p, Tables(p)) && Roomy(W.Compile(p, Tables(p)))
    ensures RegistersSuffice(W.Compile(p, Tables(p)))
    ensures Mem.Loaded(W.Compile(p, Tables(p)), Installed(p), W.SlotsOf(p, Tables(p)))
  {
    hide W.Compile, W.SlotsOf, Ok, Apart, RoomForAll, Select, W.AcceptedProgram, Compiles, Disciplined;
    var q, slots := W.Compile(p, Tables(p)), W.SlotsOf(p, Tables(p));
    CompiledDisciplined(p);
    RoomySuffices(q);
    forall k | 0 <= k < |q| ensures Mem.Placed(q[k], Installed(p)[k], slots[k]) {
      if q[k].Code? {
        CodeIsCode(p, k);
        CompiledOk(p, k);
        ApartIff(q[k].fn.lines, MACHINE_REGS, slots[k]);
      }
    }
  }

  /** Whatever the allocator makes of a compiled function's lines. */
  lemma {:induction false} CompiledLayout(p: Program, k: nat, layout: F.StackLayout)
    requires Compiles(p) && W.AcceptedProgram(p, Tables(p)) && k < |p| && !p[k].extern
    requires var u := W.Compile(p, Tables(p))[k];
      u.Code? && F.LaysOut(layout, AsmGenClass.ParamsOf(u.fn.lines), AsmGenClass.LocalsOf(u.fn.lines))
    ensures |p[k].params| < W.SlotsOf(p, Tables(p))[k]
    ensures layout.frameSize == 8 * (W.SlotsOf(p, Tables(p))[k] - |p[k].params|)
    ensures forall slot: nat :: slot < W.SlotsOf(p, Tables(p))[k] ==>
              slot in layout.regOffsets && layout.regOffsets[slot] == AsmCalls.SlotOffset(|p[k].params|, slot)
  {
    hide Ok, LirOptimize.OptimizeAll, W.MirOf, LirGen.FnLines, F.LaysOut, AsmCalls.SlotOffset, AsmGenClass.ParamsOf,
      AsmGenClass.LocalsOf;
    var re := Tables(p);
    W.LinesOk(p, re);
    W.MirOk(p[k], re[k]);
    AsmLayout.OptimisedLayout(W.LinesOf(p, re), W.SlotsOf(p, re), k, W.MirOf(p[k], re[k]), layout);
  }

  /** The frame is the one the allocator lays out, and the slots are where it puts them. */
  lemma {:induction false} InstalledLayout(p: Program, k: nat, layout: F.StackLayout)
    requires Compiles(p) && W.AcceptedProgram(p, Tables(p)) && Roomy(W.Compile(p, Tables(p))) && k < |p| && !p[k].extern
    requires var u := W.Compile(p, Tables(p))[k];
      u.Code? && F.LaysOut(layout, AsmGenClass.ParamsOf(u.fn.lines), AsmGenClass.LocalsOf(u.fn.lines))
    ensures RegistersSuffice(W.Compile(p, Tables(p))) && Installed(p)[k].Body?
    ensures Installed(p)[k].frameSize == layout.frameSize
    ensures forall slot: nat :: slot < W.SlotsOf(p, Tables(p))[k] ==>
              slot in layout.regOffsets && layout.regOffsets[slot] == AsmCalls.SlotOffset(|p[k].params|, slot)
  {
    hide Ok, W.Compile, W.SlotsOf, RoomForAll, F.LaysOut, AsmGenClass.ParamsOf, AsmGenClass.LocalsOf, Select, Compiles,
      Installed;
    IsLoaded(p);
    CompiledOk(p, k);
    CompiledLayout(p, k, layout);
    assert Mem.Placed(W.Compile(p, Tables(p))[k], Installed(p)[k], W.SlotsOf(p, Tables(p))[k]);
  }

  /** What a call in memory tells of the source's answer. */
  ghost predicate Tells(a: Answer, e: Mem.Ends, at: Mem.Point, n: nat) {
    match a
    case Answer(v, w) =>
      && e.Back? && e.p.w == w && AsmCalls.InReg(e.p.m, AsmCalls.RAX) == v
      && e.p.m.rsp == at.m.rsp && e.p.m.rbp == at.m.rbp
      && forall addr :: addr >= at.m.rsp + 8 * n ==> AsmCalls.At(e.p.m, addr) == AsmCalls.At(at.m, addr)
    case NoAnswer(r) => e == Mem.Lost(r)
    case Unknown => false
  }

  /** The compiler from end to end: where the machine registers have room, calling a function of the
    * compiled program, with its arguments pushed on whatever stack, does what the source does by the names
    * it uses.  If the source answers, `rax` holds the answer, `rsp` and `rbp` are as before the call, and
    * above the arguments the stack is untouched; however deep the calls, all of them share that stack. */
  lemma {:induction false} MemoryByNames(p: Program, ext: W.Oracle, d: nat, f: nat, args: seq<Value>, at: Mem.Point)
    requires Compiles(p) && PlainProgram(p) && Mem.OnTop(at.m, args)
    ensures W.AcceptedProgram(p, Tables(p))
    ensures Roomy(W.Compile(p, Tables(p))) ==>
              && RegistersSuffice(W.Compile(p, Tables(p)))
              && Tells(CallNamed(p, ext, d, f, args, at.w), Mem.CallOver(Installed(p), ext, d, f, |args|, at), at,
                       |args|)
  {
    hide W.Compile, Compiles, W.CallLir, CallNamed, Disciplined, Roomy, Mem.OnTop, Mem.CallOver, Installed, W.SlotsOf,
      Mem.Loaded;
    CompilesIsAccepted(p);
    ProgramByNames(p, ext, d, f, args, at.w);
    W.CompiledSafe(p, Tables(p), ext, d, f, args, at.w);
    if Roomy(W.Compile(p, Tables(p))) {
      IsLoaded(p);
      Mem.CallsSame(W.Compile(p, Tables(p)), Installed(p), W.SlotsOf(p, Tables(p)), ext, d, f, args, at);
    }
  }

  /** The same for C calling an exported function, which has at most six parameters. */
  lemma {:induction false} ExportedByNames(p: Program, ext: W.Oracle, d: nat, f: nat, at: Mem.Point)
    requires Compiles(p) && PlainProgram(p) && f < |p| && |p[f].params| <= AsmCalls.ARG_REGS
    ensures W.AcceptedProgram(p, Tables(p))
    ensures Roomy(W.Compile(p, Tables(p))) ==>
              var n := |p[f].params|;
              && RegistersSuffice(W.Compile(p, Tables(p)))
              && Tells(CallNamed(p, ext, d, f, AsmCalls.RegArgs(at.m, 0, n), at.w),
                       Mem.CallExporter(Installed(p), ext, d, f, n, at), at, 0)
  {
    hide W.Compile, Compiles, W.CallLir, CallNamed, Disciplined, Roomy, Mem.CallExporter, Installed, W.SlotsOf,
      Mem.Loaded;
    var n := |p[f].params|;
    var args := AsmCalls.RegArgs(at.m, 0, n);
    CompilesIsAccepted(p);
    ProgramByNames(p, ext, d, f, args, at.w);
    W.CompiledSafe(p, Tables(p), ext, d, f, args, at.w);
    if Roomy(W.Compile(p, Tables(p))) {
      IsLoaded(p);
      Mem.ExporterAnswers(W.Compile(p, Tables(p)), Installed(p), W.SlotsOf(p, Tables(p)), ext, d, f, n, at);
    }
  }
}
