/** The optimiser as it runs: it rewrites the function in place until its size repeats. */
module MirOptimizeClass {
  import opened Values
  import M = Mir
  import opened MirShape
  import opened MirOptimize
  import opened MirOptimizeProof

  /** The optimiser's measure of a function; `unit` is what a block costs by itself. */
  function Size(bs: seq<M.Block>, unit: nat): nat {
    if bs == [] then 0 else unit + |bs[0].stmts| + Size(bs[1..], unit)
  }

  /** The measure of the blocks that have not been absorbed yet. */
  function Weight(bs: seq<M.Block>, removed: set<nat>, unit: nat): nat {
    if bs == [] then 0
    else (if bs[0].id in removed then 0 else unit + |bs[0].stmts|) + Weight(bs[1..], removed, unit)
  }

  lemma WeightIsSize(bs: seq<M.Block>, removed: set<nat>, unit: nat)
    ensures Size(Without(bs, removed), unit) == Weight(bs, removed, unit)
  {
    if bs != [] {
      WeightIsSize(bs[1..], removed, unit);
      if bs[0].id !in removed {
        assert Without(bs, removed)[1..] == Without(bs[1..], removed);
      } else {
        assert Without(bs, removed) == Without(bs[1..], removed);
      }
    }
  }

  lemma {:induction false} WeightChange(bs: seq<M.Block>, removed: set<nat>, unit: nat, i: nat, b: M.Block)
    requires i < |bs| && b.id == bs[i].id
    ensures Weight(bs[i := b], removed, unit) ==
            Weight(bs, removed, unit) + if b.id in removed then 0 else |b.stmts| - |bs[i].stmts|
    decreases |bs|
  {
    if i > 0 {
      assert bs[i := b][1..] == bs[1..][i - 1 := b];
      WeightChange(bs[1..], removed, unit, i - 1, b);
    } else {
      assert bs[i := b][1..] == bs[1..];
    }
  }

  lemma {:induction false} WeightSame(bs: seq<M.Block>, removed: set<nat>, id: nat, unit: nat)
    requires forall k :: 0 <= k < |bs| ==> bs[k].id != id
    ensures Weight(bs, removed + {id}, unit) == Weight(bs, removed, unit)
    decreases |bs|
  {
    if bs != [] {
      assert forall k :: 0 <= k < |bs[1..]| ==> bs[1..][k] == bs[k + 1];
      WeightSame(bs[1..], removed, id, unit);
    }
  }

  lemma {:induction false} WeightRemove(bs: seq<M.Block>, removed: set<nat>, unit: nat, j: nat)
    requires DistinctIds(bs) && j < |bs| && bs[j].id !in removed
    ensures Weight(bs, removed + {bs[j].id}, unit) == Weight(bs, removed, unit) - unit - |bs[j].stmts|
    decreases |bs|
  {
    assert forall k :: 0 <= k < |bs[1..]| ==> bs[1..][k] == bs[k + 1];
    if j > 0 {
      WeightRemove(bs[1..], removed, unit, j - 1);
    } else {
      WeightSame(bs[1..], removed, bs[0].id, unit);
    }
  }

  /** Absorbing a block moves its statements and frees its own cost. */
  lemma JoinAtWeight(p: Joining, i: nat, entry: nat, unit: nat)
    requires JoinInv(p, entry) && i < |p.bs| && 1 <= unit
    ensures var q := JoinAt(p, i);
      && Weight(q.bs, q.removed, unit) <= Weight(p.bs, p.removed, unit)
      && (Weight(q.bs, q.removed, unit) == Weight(p.bs, p.removed, unit) ==> q.removed == p.removed)
  {
    var a := Absorbed(p.bs, i);
    if a.Some? {
      var j := a.value;
      var second := p.bs[j].id;
      var q := JoinAt(p, i);
      assert second in Targets(p.bs[i].ter);
      WeightChange(p.bs, p.removed, unit, i, q.bs[i]);
      if second !in p.removed {
        WeightRemove(q.bs, p.removed, unit, j);
      } else {
        assert p.bs[i].id in p.removed;
        assert q.removed == p.removed;
      }
    }
  }

  lemma {:induction false} JoinFromWeight(p: Joining, i: nat, entry: nat, unit: nat)
    requires JoinInv(p, entry) && i <= |p.bs| && 1 <= unit
    ensures var q := JoinFrom(p, i);
      && Weight(q.bs, q.removed, unit) <= Weight(p.bs, p.removed, unit)
      && (Weight(q.bs, q.removed, unit) == Weight(p.bs, p.removed, unit) ==> q.removed == p.removed)
    decreases |p.bs| - i
  {
    if i < |p.bs| {
      JoinAtWeight(p, i, entry, unit);
      JoinAtInv(p, i, entry);
      JoinFromWeight(JoinAt(p, i), i + 1, entry, unit);
    }
  }

  lemma WithoutSize(bs: seq<M.Block>, removed: set<nat>, unit: nat)
    requires 1 <= unit
    ensures Size(Without(bs, removed), unit) <= Size(bs, unit)
    ensures Size(Without(bs, removed), unit) == Size(bs, unit) ==> Without(bs, removed) == bs
    ensures Weight(bs, {}, unit) == Size(bs, unit)
  {
    if bs != [] {
      WithoutSize(bs[1..], removed, unit);
      if bs[0].id !in removed {
        assert Without(bs, removed)[1..] == Without(bs[1..], removed);
      } else {
        assert Without(bs, removed) == Without(bs[1..], removed);
      }
    }
  }

  /** A round never makes the function bigger, and any removed block makes it smaller,
    * whatever a block costs. */
  lemma {:induction false} RoundSize(fn: M.Fn, unit: nat)
    requires WellFormed(fn) && 1 <= unit
    ensures var r := Round(fn.blocks, fn.entry, fn.exit).0;
      Size(r, unit) <= Size(fn.blocks, unit) && (Size(r, unit) == Size(fn.blocks, unit) <==> |r| == |fn.blocks|)
  {
    var removed := Unreached(fn.blocks, fn.blocks, fn.entry);
    var cs := EliminateUnreachable(fn.blocks, fn.entry);
    UnreachedSevered(fn);
    WithoutWellFormed(fn, removed);
    WithoutSize(fn.blocks, removed, unit);
    var p := Joining(cs, {}, fn.exit);
    JoinFromWeight(p, 0, fn.entry, unit);
    var q := JoinFrom(p, 0);
    WithoutSize(cs, {}, unit);
    WeightIsSize(q.bs, q.removed, unit);
    JoinFromGrows(p, 0);
    if |Round(fn.blocks, fn.entry, fn.exit).0| == |fn.blocks| {
      RoundFixpoint(fn);
    } else if q.removed == {} {
      WithoutMembers(q.bs, {});
      NothingRemoved(q.bs);
    }
  }

  lemma NothingRemoved(bs: seq<M.Block>)
    ensures Without(bs, {}) == bs
  {}

  class MirFn {
    const params: nat
    const locals: nat
    const entry: nat
    var blocks: seq<M.Block>
    var exit: nat

    constructor (fn: M.Fn)
      ensures Value() == fn
    {
      params, locals, entry, blocks, exit := fn.params, fn.locals, fn.entry, fn.blocks, fn.exit;
    }

    ghost function Value(): M.Fn
      reads this
    {
      M.Fn(params, locals, blocks, entry, exit)
    }

    method RemoveUnreachable()
      modifies this`blocks
      ensures blocks == EliminateUnreachable(old(blocks), entry)
    {
      var toRemove: set<nat> := {};
      for i := 0 to |blocks|
        invariant blocks == old(blocks) && toRemove == Unreached(blocks[..i], blocks, entry)
      {
        var block := blocks[i];
        assert blocks[..i + 1] == blocks[..i] + [block];
        if NothingJumpsTo(blocks, entry, block) {
          toRemove := toRemove + {block.id};
        }
      }
      assert blocks[..|blocks|] == blocks;
      blocks := Without(blocks, toRemove);
    }

    method JoinSequentialBlocks()
      modifies this`blocks, this`exit
      ensures (blocks, exit) == JoinSequential(old(blocks), old(exit))
    {
      var toRemove: set<nat> := {};
      var n := |blocks|;
      for i := 0 to n
        invariant |blocks| == n
        invariant JoinFrom(Joining(blocks, toRemove, exit), i) == JoinFrom(Joining(old(blocks), {}, old(exit)), 0)
      {
        var first := blocks[i];
        if first.ter.Goto? {
          var j := M.Find(blocks, first.ter.target);
          if j < n && |Predecessors(blocks, first.ter.target)| == 1 {
            var second := blocks[j];
            blocks := blocks[i := M.Block(first.id, first.stmts + second.stmts, second.ter)];
            toRemove := toRemove + {second.id};
            if second.id == exit {
              exit := first.id;
            }
          }
        }
      }
      blocks := Without(blocks, toRemove);
    }

    method FnSize(blockSize: nat) returns (size: nat)
      ensures size == Size(blocks, blockSize)
    {
      size := 0;
      for i := |blocks| downto 0
        invariant size == Size(blocks[i..], blockSize)
      {
        assert blocks[i..] == [blocks[i]] + blocks[i + 1..];
        size := size + blockSize + |blocks[i].stmts|;
      }
    }

    /** Run rounds until a size repeats.  The cost of a block is one more than the length of
      * some block: which one does not matter.  There are at most |blocks| + 1 rounds. */
    method Optimize() returns (ghost rounds: nat)
      requires WellFormed(Value())
      modifies this`blocks, this`exit
      ensures Value() == OptimizeFn(old(Value()))
      ensures WellFormed(Value()) && Simplified(Value())
      ensures rounds <= |old(blocks)| + 1
    {
      hide EliminateUnreachable, JoinSequential, Balanced, LocalsBelow, DistinctIds, SameRuns, Size;
      rounds := 0;
      var pick :| 0 <= pick < |blocks|;
      var blockSize := |blocks[pick].stmts| + 1;
      var sizeBefore := FnSize(blockSize);
      var sizeHistory := {sizeBefore};
      var repeats := 0;
      while repeats < 1
        invariant 0 <= repeats <= 1 && WellFormed(Value())
        invariant sizeBefore == Size(blocks, blockSize)
        invariant sizeBefore in sizeHistory && forall h :: h in sizeHistory ==> sizeBefore <= h
        invariant repeats == 0 ==> OptimizeMir(blocks, entry, exit) == OptimizeMir(old(blocks), entry, old(exit))
        invariant repeats == 1 ==> (blocks, exit) == OptimizeMir(old(blocks), entry, old(exit))
        invariant rounds + |blocks| <= |old(blocks)| + repeats
        decreases 1 - repeats, |blocks|
      {
        ghost var before := Value();
        RoundSound(before);
        RoundSize(before, blockSize);
        RoundShrinks(blocks, entry, exit);
        RemoveUnreachable();
        JoinSequentialBlocks();
        var sizeAfter := FnSize(blockSize);
        sizeBefore := sizeAfter;
        if sizeBefore in sizeHistory {
          repeats := repeats + 1;
        }
        sizeHistory := sizeHistory + {sizeBefore};
        rounds := rounds + 1;
      }
      OptimizeSound(old(Value()));
    }
  }
}
