/** Simplifying the control-flow graph: dropping unreachable blocks and joining sequential ones. */
module MirOptimize {
  import opened Values
  import M = Mir
  import opened MirShape

  function Successors(b: M.Block): seq<nat> {
    match b.ter
    case Goto(t) => [t]
    case If(t, f) => [t, f]
    case _ => []
  }

  function Predecessors(bs: seq<M.Block>, id: nat): seq<M.Block> {
    if bs == [] then []
    else (if id in Successors(bs[0]) then [bs[0]] else []) + Predecessors(bs[1..], id)
  }

  /** The blocks whose id is not to be removed, in order. */
  function Without(bs: seq<M.Block>, removed: set<nat>): seq<M.Block> {
    if bs == [] then []
    else (if bs[0].id in removed then [] else [bs[0]]) + Without(bs[1..], removed)
  }

  predicate NothingJumpsTo(all: seq<M.Block>, entry: nat, b: M.Block) {
    b.id != entry && Predecessors(all, b.id) == []
  }

  /** Ids of the blocks, other than the entry, that nothing in `all` jumps to. */
  function Unreached(bs: seq<M.Block>, all: seq<M.Block>, entry: nat): set<nat> {
    set b | b in bs && NothingJumpsTo(all, entry, b) :: b.id
  }

  function EliminateUnreachable(bs: seq<M.Block>, entry: nat): seq<M.Block> {
    Without(bs, Unreached(bs, bs, entry))
  }

  /** The position of the block that block `i` absorbs, if it absorbs one. */
  function Absorbed(bs: seq<M.Block>, i: nat): (r: Option<nat>)
    requires i < |bs|
    ensures r.Some? ==> r.value < |bs| && bs[i].ter == M.Goto(bs[r.value].id)
  {
    if !bs[i].ter.Goto? then None else
    var t := bs[i].ter.target;
    var j := M.Find(bs, t);
    if j < |bs| && |Predecessors(bs, t)| == 1 then Some(j) else None
  }

  function Absorb(bs: seq<M.Block>, i: nat, j: nat): seq<M.Block>
    requires i < |bs| && j < |bs|
  {
    bs[i := M.Block(bs[i].id, bs[i].stmts + bs[j].stmts, bs[j].ter)]
  }

  /** The state of one joining pass: absorbed blocks stay in the list until the end. */
  datatype Joining = Joining(bs: seq<M.Block>, removed: set<nat>, exit: nat)

  function JoinAt(p: Joining, i: nat): (r: Joining)
    requires i < |p.bs|
    ensures |r.bs| == |p.bs|
  {
    var j := Absorbed(p.bs, i);
    if j.None? then p else
    var second := p.bs[j.value].id;
    Joining(Absorb(p.bs, i, j.value), p.removed + {second}, if second == p.exit then p.bs[i].id else p.exit)
  }

  function JoinFrom(p: Joining, i: nat): (r: Joining)
    requires i <= |p.bs|
    ensures |r.bs| == |p.bs|
    decreases |p.bs| - i
  {
    if i == |p.bs| then p else JoinFrom(JoinAt(p, i), i + 1)
  }

  function JoinSequential(bs: seq<M.Block>, exit: nat): (seq<M.Block>, nat) {
    var p := JoinFrom(Joining(bs, {}, exit), 0);
    (Without(p.bs, p.removed), p.exit)
  }

  // ---------- Predecessors ----------

  lemma NoPredecessors(bs: seq<M.Block>, id: nat)
    ensures Predecessors(bs, id) == [] <==> forall k :: 0 <= k < |bs| ==> id !in Targets(bs[k].ter)
  {
    if bs != [] {
      NoPredecessors(bs[1..], id);
      assert id in Successors(bs[0]) <==> id in Targets(bs[0].ter);
      assert forall k :: 1 <= k < |bs| ==> bs[k] == bs[1..][k - 1];
    }
  }

  /** With one predecessor, whoever jumps there is it. */
  lemma {:induction false} OnePredecessor(bs: seq<M.Block>, id: nat, i: nat)
    requires i < |bs| && id in Targets(bs[i].ter) && |Predecessors(bs, id)| == 1
    ensures forall k :: 0 <= k < |bs| && k != i ==> id !in Targets(bs[k].ter)
    decreases |bs|
  {
    var rest := bs[1..];
    assert id in Successors(bs[0]) <==> id in Targets(bs[0].ter);
    NoPredecessors(rest, id);
    assert forall k :: 1 <= k < |bs| ==> bs[k] == rest[k - 1];
    if i > 0 {
      assert rest[i - 1] == bs[i];
      OnePredecessor(rest, id, i - 1);
    }
  }

  // ---------- Runs ----------

  ghost predicate Halts(params: nat, bs: seq<M.Block>, id: nat, st: M.State, call: Callee, r: Reply) {
    exists n: nat :: M.Run(params, bs, id, st, call, n) == Halt(r)
  }

  /** Runs from `entry` halt in one list exactly as they do in the other. */
  ghost predicate SameRuns(params: nat, bs: seq<M.Block>, cs: seq<M.Block>, entry: nat) {
    forall st: M.State, call: Callee, r: Reply :: Halts(params, bs, entry, st, call, r) <==>
      Halts(params, cs, entry, st, call, r)
  }

  lemma FindAt(bs: seq<M.Block>, i: nat)
    requires DistinctIds(bs) && i < |bs|
    ensures M.Find(bs, bs[i].id) == i
  {
    assert M.Find(bs, bs[i].id) <= i;
  }

  /** A block that jumps to another, followed by it, is the same as the two in one. */
  lemma RunTwo(params: nat, bs: seq<M.Block>, i: nat, j: nat, st: M.State, call: Callee)
    requires i < |bs| && j < |bs| && bs[i].ter == M.Goto(bs[j].id)
    ensures var next := M.RunBlock(params, bs[i], 0, st, call);
      M.RunBlock(params, Absorb(bs, i, j)[i], 0, st, call) ==
      if next.To? then M.RunBlock(params, bs[j], 0, next.st, call) else next
    ensures var next := M.RunBlock(params, bs[i], 0, st, call); next.To? ==> next.target == bs[j].id
  {
    M.ExecConcat(bs[i].stmts, bs[j].stmts, st, call);
    assert bs[i].stmts[0..] == bs[i].stmts && bs[j].stmts[0..] == bs[j].stmts;
    var ss := bs[i].stmts + bs[j].stmts;
    assert ss[0..] == ss;
  }

  lemma SameIdsFind(bs: seq<M.Block>, cs: seq<M.Block>, id: nat)
    requires |bs| == |cs| && forall k :: 0 <= k < |bs| ==> bs[k].id == cs[k].id
    ensures M.Find(bs, id) == M.Find(cs, id)
  {
    assert M.Find(bs, id) <= M.Find(cs, id);
  }

  /** Each run after absorbing is a run before it, with at least as many transfers. */
  lemma {:induction false} AbsorbRun(params: nat, bs: seq<M.Block>, i: nat, j: nat, id: nat, st: M.State, call: Callee,
                                     n: nat)
    returns (m: nat)
    requires DistinctIds(bs) && i < |bs| && j < |bs| && bs[i].ter == M.Goto(bs[j].id)
    ensures n <= m && M.Run(params, Absorb(bs, i, j), id, st, call, n) == M.Run(params, bs, id, st, call, m)
    decreases n
  {
    m := n;
    var cs := Absorb(bs, i, j);
    SameIdsFind(bs, cs, id);
    var k := M.Find(bs, id);
    if k == |bs| { return; }
    var next := M.RunBlock(params, cs[k], 0, st, call);
    if next.To? && n > 0 {
      m := AbsorbRun(params, bs, i, j, next.target, next.st, call, n - 1);
      m := m + 1;
    }
    if k == i {
      RunTwo(params, bs, i, j, st, call);
      FindAt(bs, j);
      m := m + 1;
      RunOnce(params, bs, id, st, call, m);
      var first := M.RunBlock(params, bs[i], 0, st, call);
      if first.To? {
        RunOnce(params, bs, bs[j].id, first.st, call, m - 1);
      }
    }
    RunOnce(params, cs, id, st, call, n);
  }

  lemma RunOnce(params: nat, bs: seq<M.Block>, id: nat, st: M.State, call: Callee, n: nat)
    requires M.Find(bs, id) < |bs|
    ensures M.Run(params, bs, id, st, call, n) ==
            match M.RunBlock(params, bs[M.Find(bs, id)], 0, st, call)
            case End(r) => Halt(r)
            case To(t, st1) => if n == 0 then Timeout else M.Run(params, bs, t, st1, call, n - 1)
  {}

  lemma AbsorbSame(params: nat, bs: seq<M.Block>, i: nat, j: nat, entry: nat)
    requires DistinctIds(bs) && i < |bs| && j < |bs| && bs[i].ter == M.Goto(bs[j].id)
    ensures SameRuns(params, bs, Absorb(bs, i, j), entry)
  {
    var cs := Absorb(bs, i, j);
    forall st: M.State, call: Callee, r: Reply
      ensures Halts(params, bs, entry, st, call, r) <==> Halts(params, cs, entry, st, call, r)
    {
      if Halts(params, bs, entry, st, call, r) {
        var n: nat :| M.Run(params, bs, entry, st, call, n) == Halt(r);
        var m := AbsorbRun(params, bs, i, j, entry, st, call, n);
        M.RunMore(params, bs, entry, st, call, n, m);
        assert M.Run(params, cs, entry, st, call, n) == Halt(r);
      }
      if Halts(params, cs, entry, st, call, r) {
        var n: nat :| M.Run(params, cs, entry, st, call, n) == Halt(r);
        var m := AbsorbRun(params, bs, i, j, entry, st, call, n);
        assert M.Run(params, bs, entry, st, call, m) == Halt(r);
      }
    }
  }

  /** What is kept of a list of blocks: everything but the removed ids, in order. */
  lemma FindCons(b: M.Block, rest: seq<M.Block>, id: nat)
    ensures M.Find([b] + rest, id) == if b.id == id then 0 else 1 + M.Find(rest, id)
  {
    assert ([b] + rest)[1..] == rest;
  }

  lemma WithoutCons(b: M.Block, rest: seq<M.Block>, removed: set<nat>)
    ensures Without([b] + rest, removed) ==
            if b.id in removed then Without(rest, removed) else [b] + Without(rest, removed)
  {
    assert ([b] + rest)[1..] == rest;
  }

  lemma {:induction false} WithoutFind(bs: seq<M.Block>, removed: set<nat>, id: nat)
    requires id !in removed
    ensures var cs := Without(bs, removed); var i, j := M.Find(bs, id), M.Find(cs, id);
      (i == |bs| <==> j == |cs|) && (i < |bs| && j < |cs| ==> bs[i] == cs[j])
    decreases |bs|
  {
    if bs != [] {
      WithoutFind(bs[1..], removed, id);
      assert bs == [bs[0]] + bs[1..];
      WithoutFindCons(bs[0], bs[1..], removed, id);
    }
  }

  lemma {:induction false} WithoutFindCons(b: M.Block, rest: seq<M.Block>, removed: set<nat>, id: nat)
    requires id !in removed
    requires var cs := Without(rest, removed); var i, j := M.Find(rest, id), M.Find(cs, id);
      (i == |rest| <==> j == |cs|) && (i < |rest| && j < |cs| ==> rest[i] == cs[j])
    ensures var bs := [b] + rest; var cs := Without(bs, removed); var i, j := M.Find(bs, id), M.Find(cs, id);
      (i == |bs| <==> j == |cs|) && (i < |bs| && j < |cs| ==> bs[i] == cs[j])
  {
    hide M.Find, Without;
    WithoutCons(b, rest, removed);
    FindCons(b, rest, id);
    FindCons(b, Without(rest, removed), id);
  }

  /** No block that stays jumps to one that goes. */
  ghost predicate Severed(bs: seq<M.Block>, removed: set<nat>) {
    forall k :: 0 <= k < |bs| && bs[k].id !in removed ==> Targets(bs[k].ter) !! removed
  }

  lemma {:induction false} WithoutRun(params: nat, bs: seq<M.Block>, removed: set<nat>, id: nat, st: M.State,
                                      call: Callee, n: nat)
    requires Severed(bs, removed) && id !in removed
    ensures M.Run(params, Without(bs, removed), id, st, call, n) == M.Run(params, bs, id, st, call, n)
    decreases n
  {
    hide Without, M.ExecStmts;
    WithoutFind(bs, removed, id);
    var i := M.Find(bs, id);
    if i < |bs| && n > 0 {
      var next := M.RunBlock(params, bs[i], 0, st, call);
      if next.To? {
        assert next.target in Targets(bs[i].ter);
        WithoutRun(params, bs, removed, next.target, next.st, call, n - 1);
      }
    }
  }

  lemma WithoutSame(params: nat, bs: seq<M.Block>, removed: set<nat>, entry: nat)
    requires Severed(bs, removed) && entry !in removed
    ensures SameRuns(params, bs, Without(bs, removed), entry)
  {
    var cs := Without(bs, removed);
    forall st: M.State, call: Callee, r: Reply
      ensures Halts(params, bs, entry, st, call, r) <==> Halts(params, cs, entry, st, call, r)
    {
      forall n: nat ensures M.Run(params, cs, entry, st, call, n) == M.Run(params, bs, entry, st, call, n) {
        WithoutRun(params, bs, removed, entry, st, call, n);
      }
    }
  }

  lemma SameRunsTrans(params: nat, bs: seq<M.Block>, cs: seq<M.Block>, ds: seq<M.Block>, entry: nat)
    requires SameRuns(params, bs, cs, entry) && SameRuns(params, cs, ds, entry)
    ensures SameRuns(params, bs, ds, entry)
  {
    forall st: M.State, call: Callee, r: Reply
      ensures Halts(params, bs, entry, st, call, r) <==> Halts(params, ds, entry, st, call, r)
    {
      assert Halts(params, bs, entry, st, call, r) <==> Halts(params, cs, entry, st, call, r);
    }
  }
}
