/** Simplifying the graph keeps every run and every well-formedness condition, and stops. */
module MirOptimizeProof {
  import opened Values
  import M = Mir
  import opened MirShape
  import opened MirOptimize

  // ---------- Removing blocks ----------

  lemma {:induction false} WithoutMembers(bs: seq<M.Block>, removed: set<nat>)
    ensures forall b :: b in Without(bs, removed) <==> b in bs && b.id !in removed
    ensures |Without(bs, removed)| <= |bs|
    ensures |Without(bs, removed)| == |bs| ==> Without(bs, removed) == bs
    ensures bs != [] && bs[0].id !in removed ==> Without(bs, removed) != [] && Without(bs, removed)[0] == bs[0]
  {
    if bs != [] {
      var rest := bs[1..];
      WithoutMembers(rest, removed);
      assert bs == [bs[0]] + rest;
      assert forall b :: b in bs <==> b == bs[0] || b in rest;
    }
  }

  lemma WithoutDistinct(bs: seq<M.Block>, removed: set<nat>)
    requires DistinctIds(bs)
    ensures DistinctIds(Without(bs, removed))
  {
    if bs != [] {
      var rest := Without(bs[1..], removed);
      WithoutDistinct(bs[1..], removed);
      WithoutMembers(bs[1..], removed);
      forall j | 0 <= j < |rest| ensures rest[j].id != bs[0].id {
        assert rest[j] in bs[1..];
      }
    }
  }

  lemma InIds(bs: seq<M.Block>, id: nat)
    ensures id in Ids(bs) <==> exists b :: b in bs && b.id == id
  {
    if id in Ids(bs) {
      var i :| 0 <= i < |bs| && bs[i].id == id;
      assert bs[i] in bs;
    }
  }

  /** A well-formed function stays well formed without blocks that nothing kept jumps to. */
  lemma WithoutWellFormed(fn: M.Fn, removed: set<nat>)
    requires WellFormed(fn) && Severed(fn.blocks, removed) && fn.entry !in removed
    ensures WellFormed(fn.(blocks := Without(fn.blocks, removed)))
  {
    var bs := fn.blocks;
    var cs := Without(bs, removed);
    WithoutMembers(bs, removed);
    WithoutDistinct(bs, removed);
    forall i | 0 <= i < |cs|
      ensures cs[i].ter != M.Unset && Balanced(cs[i]) && LocalsBelow(cs[i].stmts, fn.locals)
      ensures Targets(cs[i].ter) <= Ids(cs) - {fn.entry}
    {
      assert cs[i] in cs;
      var k :| 0 <= k < |bs| && bs[k] == cs[i];
      forall t | t in Targets(cs[i].ter) ensures t in Ids(cs) {
        assert t in Ids(bs);
        InIds(bs, t);
        InIds(cs, t);
        var b :| b in bs && b.id == t;
        assert b in cs;
      }
    }
  }

  /** The unreachable blocks can go: nothing at all jumps to them. */
  lemma UnreachedSevered(fn: M.Fn)
    requires WellFormed(fn)
    ensures var removed := Unreached(fn.blocks, fn.blocks, fn.entry);
      Severed(fn.blocks, removed) && fn.entry !in removed
  {
    var bs := fn.blocks;
    var removed := Unreached(bs, bs, fn.entry);
    forall k | 0 <= k < |bs| ensures Targets(bs[k].ter) !! removed {
      forall t | t in Targets(bs[k].ter) ensures t !in removed {
        NoPredecessors(bs, t);
      }
    }
  }

  // ---------- Joining ----------

  /** During a pass: whoever still jumps to an absorbed block is absorbed itself. */
  ghost predicate JoinInv(p: Joining, entry: nat) {
    && DistinctIds(p.bs) && entry !in p.removed && p.removed <= Ids(p.bs)
    && (forall k :: 0 <= k < |p.bs| ==> entry !in Targets(p.bs[k].ter))
    && (forall k, r :: 0 <= k < |p.bs| && r in p.removed && r in Targets(p.bs[k].ter) ==> p.bs[k].id in p.removed)
  }

  lemma JoinAtInv(p: Joining, i: nat, entry: nat)
    requires JoinInv(p, entry) && i < |p.bs|
    ensures JoinInv(JoinAt(p, i), entry)
  {
    var a := Absorbed(p.bs, i);
    if a.Some? {
      var j := a.value;
      var second := p.bs[j].id;
      var q := JoinAt(p, i);
      OnePredecessor(p.bs, second, i);
      forall k, r | 0 <= k < |q.bs| && r in q.removed && r in Targets(q.bs[k].ter) ensures q.bs[k].id in q.removed {
        if k == i {
          assert r in Targets(p.bs[j].ter);
          if r != second {
            assert second in p.removed;
            assert p.bs[i].id in p.removed;
          } else {
            assert j == i;
          }
        } else if r == second {
          assert false;
        } else {
          assert p.bs[k].id in p.removed;
        }
      }
      assert second in Ids(p.bs) && Ids(q.bs) == Ids(p.bs) by { AbsorbIds(p.bs, i, j); }
    }
  }

  lemma AbsorbIds(bs: seq<M.Block>, i: nat, j: nat)
    requires i < |bs| && j < |bs|
    ensures Ids(Absorb(bs, i, j)) == Ids(bs)
  {
    var cs := Absorb(bs, i, j);
    forall k | 0 <= k < |bs| ensures bs[k].id in Ids(cs) && cs[k].id in Ids(bs) {
      assert cs[k].id == bs[k].id;
    }
  }

  /** Absorbing keeps the function well formed. */
  lemma AbsorbWellFormed(fn: M.Fn, i: nat, j: nat)
    requires WellFormed(fn) && i < |fn.blocks| && j < |fn.blocks| && fn.blocks[i].ter == M.Goto(fn.blocks[j].id)
    ensures WellFormed(fn.(blocks := Absorb(fn.blocks, i, j)))
  {
    var bs := fn.blocks;
    var cs := Absorb(bs, i, j);
    AbsorbIds(bs, i, j);
    LevelConcat(bs[i].stmts, bs[j].stmts, 0);
    forall k | 0 <= k < |cs|
      ensures cs[k].ter != M.Unset && Balanced(cs[k]) && LocalsBelow(cs[k].stmts, fn.locals)
      ensures Targets(cs[k].ter) <= Ids(cs) - {fn.entry}
    {
      if k == i {
        assert Balanced(bs[i]) && Balanced(bs[j]);
      }
    }
  }

  /** One pass from block `i` on: same runs, still well formed, and the removed blocks can go. */
  lemma {:induction false} JoinFromSound(fn: M.Fn, p: Joining, i: nat)
    requires WellFormed(fn.(blocks := p.bs)) && JoinInv(p, fn.entry) && i <= |p.bs|
    ensures var q := JoinFrom(p, i);
      && WellFormed(fn.(blocks := q.bs)) && JoinInv(q, fn.entry)
      && SameRuns(fn.params, p.bs, q.bs, fn.entry)
    decreases |p.bs| - i
  {
    if i < |p.bs| {
      var q := JoinAt(p, i);
      var a := Absorbed(p.bs, i);
      JoinAtInv(p, i, fn.entry);
      if a.Some? {
        AbsorbWellFormed(fn.(blocks := p.bs), i, a.value);
        AbsorbSame(fn.params, p.bs, i, a.value, fn.entry);
      }
      JoinFromSound(fn, q, i + 1);
      SameRunsTrans(fn.params, p.bs, q.bs, JoinFrom(p, i).bs, fn.entry);
    }
  }

  // ---------- A round, and all rounds ----------

  function Round(bs: seq<M.Block>, entry: nat, exit: nat): (seq<M.Block>, nat) {
    JoinSequential(EliminateUnreachable(bs, entry), exit)
  }

  lemma {:induction false} RoundSound(fn: M.Fn)
    requires WellFormed(fn)
    ensures var bs := Round(fn.blocks, fn.entry, fn.exit).0;
      WellFormed(fn.(blocks := bs)) && SameRuns(fn.params, fn.blocks, bs, fn.entry)
  {
    var removed := Unreached(fn.blocks, fn.blocks, fn.entry);
    UnreachedSevered(fn);
    var cs := EliminateUnreachable(fn.blocks, fn.entry);
    WithoutWellFormed(fn, removed);
    WithoutSame(fn.params, fn.blocks, removed, fn.entry);
    var p := Joining(cs, {}, fn.exit);
    JoinFromSound(fn, p, 0);
    var q := JoinFrom(p, 0);
    WithoutWellFormed(fn.(blocks := q.bs), q.removed);
    WithoutSame(fn.params, q.bs, q.removed, fn.entry);
    var ds := Without(q.bs, q.removed);
    SameRunsTrans(fn.params, fn.blocks, cs, q.bs, fn.entry);
    SameRunsTrans(fn.params, fn.blocks, q.bs, ds, fn.entry);
  }

  lemma WithoutShrinks(bs: seq<M.Block>, removed: set<nat>, id: nat)
    requires id in removed && id in Ids(bs)
    ensures |Without(bs, removed)| < |bs|
  {
    InIds(bs, id);
    WithoutMembers(bs, removed);
    var b :| b in bs && b.id == id;
    assert b !in Without(bs, removed);
  }

  lemma JoinFromGrows(p: Joining, i: nat)
    requires i <= |p.bs|
    ensures p.removed <= JoinFrom(p, i).removed
    ensures JoinFrom(p, i).removed == p.removed == {} ==> JoinFrom(p, i) == p
    decreases |p.bs| - i
  {
    if i < |p.bs| {
      JoinFromGrows(JoinAt(p, i), i + 1);
    }
  }

  lemma RoundShrinks(bs: seq<M.Block>, entry: nat, exit: nat)
    ensures |Round(bs, entry, exit).0| <= |bs|
  {
    var cs := EliminateUnreachable(bs, entry);
    WithoutMembers(bs, Unreached(bs, bs, entry));
    var q := JoinFrom(Joining(cs, {}, exit), 0);
    WithoutMembers(q.bs, q.removed);
  }

  /** A round that removes no block has changed nothing: both rewrites are at a fixpoint. */
  lemma {:induction false} RoundFixpoint(fn: M.Fn)
    requires WellFormed(fn) && |Round(fn.blocks, fn.entry, fn.exit).0| == |fn.blocks|
    ensures EliminateUnreachable(fn.blocks, fn.entry) == fn.blocks
    ensures JoinSequential(fn.blocks, fn.exit) == (fn.blocks, fn.exit)
    ensures JoinFrom(Joining(fn.blocks, {}, fn.exit), 0).removed == {}
  {
    var removed := Unreached(fn.blocks, fn.blocks, fn.entry);
    var cs := EliminateUnreachable(fn.blocks, fn.entry);
    WithoutMembers(fn.blocks, removed);
    UnreachedSevered(fn);
    WithoutWellFormed(fn, removed);
    var p := Joining(cs, {}, fn.exit);
    var q := JoinFrom(p, 0);
    JoinFromSound(fn, p, 0);
    WithoutMembers(q.bs, q.removed);
    JoinFromGrows(p, 0);
    if q.removed != {} {
      var id :| id in q.removed;
      WithoutShrinks(q.bs, q.removed, id);
    }
  }

  /** All rounds until one removes nothing. */
  function OptimizeMir(bs: seq<M.Block>, entry: nat, exit: nat): (seq<M.Block>, nat)
    decreases |bs|
  {
    RoundShrinks(bs, entry, exit);
    var r := Round(bs, entry, exit);
    if |r.0| == |bs| then r else OptimizeMir(r.0, entry, r.1)
  }

  function OptimizeFn(fn: M.Fn): M.Fn {
    var r := OptimizeMir(fn.blocks, fn.entry, fn.exit);
    fn.(blocks := r.0, exit := r.1)
  }

  /** Nothing is left to remove and nothing left to join: every block but the entry is jumped to, and no block
    * goes to one that nothing else jumps to. */
  ghost predicate Simplified(fn: M.Fn) {
    var bs := fn.blocks;
    && (forall i :: 0 <= i < |bs| && bs[i].id != fn.entry ==>
        exists k :: 0 <= k < |bs| && bs[i].id in Targets(bs[k].ter))
    && (forall i, j :: 0 <= i < |bs| && 0 <= j < |bs| && bs[i].ter == M.Goto(bs[j].id) ==>
          exists k :: 0 <= k < |bs| && k != i && bs[j].id in Targets(bs[k].ter))
  }

  lemma {:induction false} MorePredecessors(bs: seq<M.Block>, id: nat, i: nat)
    requires i < |bs| && id in Targets(bs[i].ter) && |Predecessors(bs, id)| != 1
    ensures exists k :: 0 <= k < |bs| && k != i && id in Targets(bs[k].ter)
    decreases |bs|
  {
    var rest := bs[1..];
    assert id in Successors(bs[0]) <==> id in Targets(bs[0].ter);
    NoPredecessors(rest, id);
    if i == 0 {
      var k :| 0 <= k < |rest| && id in Targets(rest[k].ter);
      assert bs[k + 1] == rest[k];
    } else if id !in Targets(bs[0].ter) {
      assert rest[i - 1] == bs[i];
      MorePredecessors(rest, id, i - 1);
      var k :| 0 <= k < |rest| && k != i - 1 && id in Targets(rest[k].ter);
      assert bs[k + 1] == rest[k];
    }
  }

  /** A pass that removed nothing found nothing to absorb. */
  lemma {:induction false} NothingAbsorbed(p: Joining, i: nat, k: nat)
    requires i <= k < |p.bs| && p.removed == {} && JoinFrom(p, i).removed == {}
    ensures Absorbed(p.bs, k).None?
    decreases |p.bs| - i
  {
    JoinFromGrows(JoinAt(p, i), i + 1);
    if i < k {
      NothingAbsorbed(p, i + 1, k);
    }
  }

  lemma {:induction false} FixpointSimplified(fn: M.Fn)
    requires WellFormed(fn) && EliminateUnreachable(fn.blocks, fn.entry) == fn.blocks
    requires JoinFrom(Joining(fn.blocks, {}, fn.exit), 0).removed == {}
    ensures Simplified(fn)
  {
    var bs := fn.blocks;
    WithoutMembers(bs, Unreached(bs, bs, fn.entry));
    forall i | 0 <= i < |bs| && bs[i].id != fn.entry
      ensures exists k :: 0 <= k < |bs| && bs[i].id in Targets(bs[k].ter)
    {
      NoPredecessors(bs, bs[i].id);
      assert bs[i] in bs;
    }
    forall i, j | 0 <= i < |bs| && 0 <= j < |bs| && bs[i].ter == M.Goto(bs[j].id)
      ensures exists k :: 0 <= k < |bs| && k != i && bs[j].id in Targets(bs[k].ter)
    {
      NothingAbsorbed(Joining(bs, {}, fn.exit), 0, i);
      FindAt(bs, j);
      MorePredecessors(bs, bs[j].id, i);
    }
  }

  /** Simplifying a well-formed function keeps it well formed, keeps the reply of every run from
    * the entry, and leaves nothing to simplify. */
  lemma {:induction false} OptimizeSound(fn: M.Fn)
    requires WellFormed(fn)
    ensures var r := OptimizeFn(fn);
      WellFormed(r) && SameRuns(fn.params, fn.blocks, r.blocks, fn.entry) && Simplified(r)
    decreases |fn.blocks|
  {
    RoundSound(fn);
    RoundShrinks(fn.blocks, fn.entry, fn.exit);
    var r := Round(fn.blocks, fn.entry, fn.exit);
    if |r.0| == |fn.blocks| {
      RoundFixpoint(fn);
      FixpointSimplified(fn);
    } else {
      var fn1 := fn.(blocks := r.0, exit := r.1);
      OptimizeSound(fn1);
      SameRunsTrans(fn.params, fn.blocks, r.0, OptimizeFn(fn).blocks, fn.entry);
    }
  }
}
