/** Frame layout: where parameters and locals lie, as offsets from `rbp`. */
module AsmFrame {
  import opened Values
  import opened Lir

  /** The least multiple of 8 that is not below a size. */
  function Align8(n: nat): (r: nat)
    ensures r % 8 == 0 && n <= r < n + 8
  {
    if n % 8 == 0 then n else n + (8 - n % 8)
  }

  datatype Sized = Sized(reg: Reg, size: nat)

  function Regs(xs: seq<Sized>): (rs: seq<Reg>)
    ensures |rs| == |xs| && forall i :: 0 <= i < |xs| ==> rs[i] == xs[i].reg
  {
    seq(|xs|, i requires 0 <= i < |xs| => xs[i].reg)
  }

  predicate Distinct(xs: seq<Sized>) {
    forall i, j :: 0 <= i < j < |xs| ==> xs[i].reg != xs[j].reg
  }

  /** Room taken, each slot rounded up. */
  function Room(xs: seq<Sized>): nat {
    if xs == [] then 0 else Align8(xs[0].size) + Room(xs[1..])
  }

  lemma {:induction false} RoomSplit(xs: seq<Sized>, i: nat)
    requires i <= |xs|
    ensures Room(xs) == Room(xs[..i]) + Room(xs[i..])
    decreases |xs|
  {
    if i == 0 {
      assert xs[..0] == [] && xs[0..] == xs;
    } else {
      assert xs[..i][1..] == xs[1..][..i - 1] && xs[1..][i - 1..] == xs[i..] && xs[..i][0] == xs[0];
      RoomSplit(xs[1..], i - 1);
    }
  }

  /** Parameters lie above the return address and the saved `rbp`, the last one lowest. */
  function ParamOffset(params: seq<Sized>, k: nat): int
    requires k < |params|
  {
    8 + Room(params[k..])
  }

  /** Locals lie below `rbp`, the first one highest. */
  function LocalOffset(locals: seq<Sized>, i: nat): int
    requires i < |locals|
  {
    -8 - Room(locals[..i])
  }

  datatype StackLayout = StackLayout(frameSize: nat, regOffsets: map<Reg, int>)

  /** The layout says of every register where its slot is. */
  predicate LaysOut(l: StackLayout, params: seq<Sized>, locals: seq<Sized>) {
    && l.frameSize == Room(locals)
    && (forall k :: 0 <= k < |params| ==>
        params[k].reg in l.regOffsets && l.regOffsets[params[k].reg] == ParamOffset(params, k))
    && (forall i :: 0 <= i < |locals| ==>
        locals[i].reg in l.regOffsets && l.regOffsets[locals[i].reg] == LocalOffset(locals, i))
  }

  class StackAllocator {
    var paramRegs: seq<Sized>
    var localRegs: seq<Sized>

    constructor ()
      ensures paramRegs == [] && localRegs == []
    {
      paramRegs, localRegs := [], [];
    }

    predicate Valid()
      reads this
    {
      && Distinct(paramRegs) && Distinct(localRegs)
      && forall i, j :: 0 <= i < |paramRegs| && 0 <= j < |localRegs| ==> paramRegs[i].reg != localRegs[j].reg
    }

    method AllocParam(reg: Reg, size: nat)
      requires Valid() && reg !in Regs(paramRegs) && reg !in Regs(localRegs)
      modifies this
      ensures Valid() && paramRegs == old(paramRegs) + [Sized(reg, size)] && localRegs == old(localRegs)
    {
      Fresh(reg);
      paramRegs := paramRegs + [Sized(reg, size)];
    }

    method AllocLocal(reg: Reg, size: nat)
      requires Valid() && reg !in Regs(paramRegs) && reg !in Regs(localRegs)
      modifies this
      ensures Valid() && localRegs == old(localRegs) + [Sized(reg, size)] && paramRegs == old(paramRegs)
    {
      Fresh(reg);
      localRegs := localRegs + [Sized(reg, size)];
    }

    lemma Fresh(reg: Reg)
      requires reg !in Regs(paramRegs) && reg !in Regs(localRegs)
      ensures forall i :: 0 <= i < |paramRegs| ==> paramRegs[i].reg != reg
      ensures forall i :: 0 <= i < |localRegs| ==> localRegs[i].reg != reg
    {
      forall i | 0 <= i < |paramRegs| ensures paramRegs[i].reg != reg {
        assert Regs(paramRegs)[i] in Regs(paramRegs);
      }
      forall i | 0 <= i < |localRegs| ensures localRegs[i].reg != reg {
        assert Regs(localRegs)[i] in Regs(localRegs);
      }
    }

    /** Two loops over one running offset: parameters from the last to the first, then locals. */
    method Finalize() returns (layout: StackLayout)
      requires Valid()
      ensures LaysOut(layout, paramRegs, localRegs)
    {
      var regOffsets: map<Reg, int> := map[];
      var currentOffset := 8;
      var n := |paramRegs|;
      assert paramRegs[n..] == [];
      while n > 0
        invariant 0 <= n <= |paramRegs| && currentOffset == 8 + Room(paramRegs[n..])
        invariant forall k :: n <= k < |paramRegs| ==>
          paramRegs[k].reg in regOffsets && regOffsets[paramRegs[k].reg] == ParamOffset(paramRegs, k)
      {
        n := n - 1;
        assert paramRegs[n..][1..] == paramRegs[n + 1..];
        currentOffset := currentOffset + Align8(paramRegs[n].size);
        regOffsets := regOffsets[paramRegs[n].reg := currentOffset];
      }
      currentOffset := -8;
      var frameSize := 0;
      var i := 0;
      assert localRegs[..0] == [];
      while i < |localRegs|
        invariant 0 <= i <= |localRegs| && frameSize == Room(localRegs[..i]) && currentOffset == -8 - frameSize
        invariant forall k :: 0 <= k < |paramRegs| ==>
          paramRegs[k].reg in regOffsets && regOffsets[paramRegs[k].reg] == ParamOffset(paramRegs, k)
        invariant forall j :: 0 <= j < i ==>
          localRegs[j].reg in regOffsets && regOffsets[localRegs[j].reg] == LocalOffset(localRegs, j)
      {
        regOffsets := regOffsets[localRegs[i].reg := currentOffset];
        RoomSplit(localRegs[..i + 1], i);
        assert localRegs[..i + 1][..i] == localRegs[..i] && localRegs[..i + 1][i..] == [localRegs[i]];
        currentOffset := currentOffset - Align8(localRegs[i].size);
        frameSize := frameSize + Align8(localRegs[i].size);
        i := i + 1;
      }
      assert localRegs[..|localRegs|] == localRegs;
      layout := StackLayout(frameSize, regOffsets);
    }
  }

  // ---------- What the offsets mean ----------

  /** Every slot of words is one word. */
  predicate Words(xs: seq<Sized>) {
    forall i :: 0 <= i < |xs| ==> xs[i].size == 8
  }

  lemma {:induction false} RoomOfWords(xs: seq<Sized>)
    requires Words(xs)
    ensures Room(xs) == 8 * |xs|
    decreases |xs|
  {
    if xs != [] {
      RoomOfWords(xs[1..]);
    }
  }

  /** For words the offsets are exact multiples: parameter k is at `8 + 8 * (n - k)`, local i at
    * `-8 * (i + 1)`. */
  lemma {:induction false} WordOffsets(params: seq<Sized>, locals: seq<Sized>)
    requires Words(params) && Words(locals)
    ensures forall k :: 0 <= k < |params| ==> ParamOffset(params, k) == 8 + 8 * (|params| - k)
    ensures forall i :: 0 <= i < |locals| ==> LocalOffset(locals, i) == -8 * (i + 1)
    ensures Room(locals) == 8 * |locals|
  {
    forall k | 0 <= k < |params| ensures ParamOffset(params, k) == 8 + 8 * (|params| - k) {
      RoomOfWords(params[k..]);
    }
    forall i | 0 <= i < |locals| ensures LocalOffset(locals, i) == -8 * (i + 1) {
      RoomOfWords(locals[..i]);
    }
    RoomOfWords(locals);
  }

  /** Bytes `[offset, offset + size)`. */
  predicate Apart(o: int, size: nat, p: int, more: nat) {
    o + size <= p || p + more <= o
  }

  /** Local slots lie inside the frame: below the saved `rbp`, and not below `rsp`. */
  predicate InFrame(locals: seq<Sized>) {
    forall i :: 0 <= i < |locals| ==>
      -(Room(locals) as int) <= LocalOffset(locals, i) && LocalOffset(locals, i) + locals[i].size <= 0
  }

  /** No two local slots overlap. */
  predicate LocalsApart(locals: seq<Sized>) {
    forall i, j :: 0 <= i < j < |locals| ==>
      Apart(LocalOffset(locals, i), locals[i].size, LocalOffset(locals, j), locals[j].size)
  }

  lemma {:induction false} RoomStep(locals: seq<Sized>, i: nat)
    requires i < |locals|
    ensures Room(locals[..i + 1]) == Room(locals[..i]) + Align8(locals[i].size)
  {
    RoomSplit(locals[..i + 1], i);
    assert locals[..i + 1][..i] == locals[..i] && locals[..i + 1][i..] == [locals[i]];
  }

  lemma {:induction false} RoomGrows(locals: seq<Sized>, i: nat, j: nat)
    requires i <= j <= |locals|
    ensures Room(locals[..i]) <= Room(locals[..j])
    decreases j - i
  {
    if i < j {
      RoomStep(locals, j - 1);
      RoomGrows(locals, i, j - 1);
    }
  }

  /** The layout is sound exactly for slots of at most one word: a wider local would reach from its
    * offset up into its neighbour or the saved `rbp`. */
  lemma {:induction false} FrameSoundIff(locals: seq<Sized>)
    requires forall i :: 0 <= i < |locals| ==> locals[i].size > 0
    ensures InFrame(locals) && LocalsApart(locals) <==> forall i :: 0 <= i < |locals| ==> locals[i].size <= 8
  {
    if forall i :: 0 <= i < |locals| ==> locals[i].size <= 8 {
      NarrowIsSound(locals);
    }
    if InFrame(locals) && LocalsApart(locals) {
      forall i | 0 <= i < |locals| ensures locals[i].size <= 8 {
        SoundIsNarrow(locals, i);
      }
    }
  }

  lemma {:induction false} NarrowInFrame(locals: seq<Sized>, i: nat)
    requires i < |locals| && 0 < locals[i].size <= 8
    ensures -(Room(locals) as int) <= LocalOffset(locals, i) && LocalOffset(locals, i) + locals[i].size <= 0
  {
    hide Room;
    RoomStep(locals, i);
    RoomGrows(locals, i + 1, |locals|);
    assert locals[..|locals|] == locals;
  }

  lemma {:induction false} NarrowApart(locals: seq<Sized>, i: nat, j: nat)
    requires i < j < |locals| && 0 < locals[i].size <= 8 && locals[j].size <= 8
    ensures Apart(LocalOffset(locals, i), locals[i].size, LocalOffset(locals, j), locals[j].size)
  {
    hide Room;
    RoomStep(locals, i);
    RoomGrows(locals, i + 1, j);
  }

  lemma {:induction false} NarrowIsSound(locals: seq<Sized>)
    requires forall i :: 0 <= i < |locals| ==> 0 < locals[i].size <= 8
    ensures InFrame(locals) && LocalsApart(locals)
  {
    hide Room;
    forall i | 0 <= i < |locals| ensures -(Room(locals) as int) <= LocalOffset(locals, i) &&
      LocalOffset(locals, i) + locals[i].size <= 0 {
      NarrowInFrame(locals, i);
    }
    forall i, j | 0 <= i < j < |locals| ensures Apart(LocalOffset(locals, i), locals[i].size, LocalOffset(locals, j),
                                                      locals[j].size) {
      NarrowApart(locals, i, j);
    }
  }

  lemma {:induction false} SoundIsNarrow(locals: seq<Sized>, i: nat)
    requires i < |locals| && InFrame(locals) && LocalsApart(locals)
    requires forall j :: 0 <= j < |locals| ==> locals[j].size > 0
    ensures locals[i].size <= 8
    decreases i
  {
    if i == 0 {
      assert locals[..0] == [];
    } else {
      SoundIsNarrow(locals, i - 1);
      RoomStep(locals, i - 1);
    }
  }
}
