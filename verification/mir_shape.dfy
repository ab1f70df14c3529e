/** Well-formed functions of basic blocks: balanced stack code, closed blocks, known targets. */
module MirShape {
  import opened Values
  import M = Mir

  /** The stack depth after a statement entered at depth `d`, or None if it pops below 0. */
  function Effect(s: M.Stmt, d: nat): Option<nat> {
    match s
    case Push(_) => Some(d + 1)
    case Pop => if d < 1 then None else Some(d - 1)
    case Load(_) => Some(d + 1)
    case Store(_) => if d < 1 then None else Some(d - 1)
    case CallFn(n) => if d < n + 1 then None else Some(d - n)
    case Binary(_) => if d < 2 then None else Some(d - 1)
  }

  function Effects(ss: seq<M.Stmt>, d: nat): Option<nat> {
    if ss == [] then Some(d) else
    match Effect(ss[0], d)
    case None => None
    case Some(d1) => Effects(ss[1..], d1)
  }

  /** The same for the code of statements: what ends one, a store or a pop, takes the only value. */
  function Level(ss: seq<M.Stmt>, d: nat): Option<nat> {
    if ss == [] then Some(d) else
    if (ss[0].Store? || ss[0].Pop?) && d != 1 then None else
    match Effect(ss[0], d)
    case None => None
    case Some(d1) => Level(ss[1..], d1)
  }

  lemma LevelEffects(ss: seq<M.Stmt>, d: nat)
    requires Level(ss, d).Some?
    ensures Effects(ss, d) == Level(ss, d)
  {}

  predicate LocalsBelow(ss: seq<M.Stmt>, locals: nat) {
    forall i :: 0 <= i < |ss| ==>
      (ss[i].Load? ==> ss[i].local < locals) && (ss[i].Store? ==> ss[i].local < locals)
  }

  function Targets(ter: M.Ter): set<nat> {
    match ter
    case Goto(t) => {t}
    case If(t, f) => {t, f}
    case _ => {}
  }

  /** No statement pops below the block's entry, nor with more than one value on the stack; the block
    * leaves the stack as it found it, but for the condition of a branch. */
  predicate Balanced(b: M.Block) {
    Level(b.stmts, 0) == Some(if b.ter.If? then 1 else 0)
  }

  predicate DistinctIds(bs: seq<M.Block>) {
    forall i, j :: 0 <= i < j < |bs| ==> bs[i].id != bs[j].id
  }

  function Ids(bs: seq<M.Block>): set<nat> {
    set i | 0 <= i < |bs| :: bs[i].id
  }

  /** What later stages rely on: the entry comes first and nothing jumps to it. */
  predicate WellFormed(fn: M.Fn) {
    && |fn.blocks| > 0 && fn.blocks[0].id == fn.entry
    && fn.params < fn.locals
    && DistinctIds(fn.blocks)
    && (forall i :: 0 <= i < |fn.blocks| ==>
          && fn.blocks[i].ter != M.Unset
          && Balanced(fn.blocks[i])
          && LocalsBelow(fn.blocks[i].stmts, fn.locals)
          && Targets(fn.blocks[i].ter) <= Ids(fn.blocks) - {fn.entry})
  }

  lemma LevelConcat(a: seq<M.Stmt>, b: seq<M.Stmt>, d: nat)
    ensures Level(a + b, d) == match Level(a, d) case None => None case Some(d1) => Level(b, d1)
  {
    if a == [] {
      assert a + b == b;
    } else {
      assert (a + b)[1..] == a[1..] + b;
    }
  }

  /** Entered at a deeper stack, the code only moves the top. */
  lemma {:induction false} EffectsShift(ss: seq<M.Stmt>, d: nat, k: nat)
    requires Effects(ss, d).Some?
    ensures Effects(ss, d + k) == Some(Effects(ss, d).value + k)
    decreases |ss|
  {
    if ss != [] {
      EffectsShift(ss[1..], Effect(ss[0], d).value, k);
    }
  }

  /** No callee answers that the code calling it is malformed. */
  ghost predicate NeverStuck(call: Callee) {
    forall f: nat, args, w :: call(f, args, w) != Stuck
  }

  lemma StepNeverStuck(s: M.Stmt, st: M.State, call: Callee)
    requires Effect(s, |st.stack|).Some? && NeverStuck(call)
    ensures var r := M.ExecStmt(s, st, call);
      if r.Ok? then |r.st.stack| == Effect(s, |st.stack|).value else r.reply != Stuck
  {
    var k := |st.stack|;
    match s
    case CallFn(n) =>
      var f, args := st.stack[k - 1], st.stack[k - 1 - n..k - 1];
      if f.FnRef? {
        assert call(f.f, args, st.w) != Stuck;
      }
    case _ =>
  }

  /** Static balance is what running needs: from a stack that is deep enough, the statements
    * never underflow, and leave the depth predicted. */
  lemma {:induction false} NeverUnderflows(ss: seq<M.Stmt>, st: M.State, call: Callee)
    requires Effects(ss, |st.stack|).Some? && NeverStuck(call)
    ensures var r := M.ExecStmts(ss, st, call);
      if r.Ok? then |r.st.stack| == Effects(ss, |st.stack|).value else r.reply != Stuck
    decreases |ss|
  {
    if ss != [] {
      StepNeverStuck(ss[0], st, call);
      var r := M.ExecStmt(ss[0], st, call);
      if r.Ok? {
        NeverUnderflows(ss[1..], r.st, call);
      }
    }
  }

  /** No run of a well-formed function underflows the stack or goes to a missing block. */
  lemma {:induction false} RunNeverStuck(fn: M.Fn, id: nat, st: M.State, call: Callee, fuel: nat)
    requires WellFormed(fn) && id in Ids(fn.blocks) && NeverStuck(call)
    ensures M.Run(fn.params, fn.blocks, id, st, call, fuel) != Halt(Stuck)
    decreases fuel
  {
    hide Effects, Level;
    var i := M.Find(fn.blocks, id);
    var b := fn.blocks[i];
    LevelEffects(b.stmts, 0);
    EffectsShift(b.stmts, 0, |st.stack|);
    NeverUnderflows(b.stmts, st, call);
    assert b.stmts[0..] == b.stmts;
    var next := M.RunBlock(fn.params, b, 0, st, call);
    if next.To? && fuel > 0 {
      assert next.target in Targets(b.ter);
      RunNeverStuck(fn, next.target, next.st, call, fuel - 1);
    }
  }
}
