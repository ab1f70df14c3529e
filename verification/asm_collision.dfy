/** Register selection on optimised lines: two live registers can share a machine register.
  *
  * A family of programs whose code over machine registers answers 0, whatever it should. */
module AsmCollision {
  // The peephole passes keep runs over virtual registers, but selection numbers a register by how many
  // are live.  Of `a + b * c - d` the product stays in the first machine register while `a` is popped
  // into the second; the sum is then alone in the second when `d` is fetched, and `d` becomes the second
  // register as well.

  import opened Values
  import opened Ast
  import M = Mir
  import MirGen
  import opened MirShape
  import opened Lir
  import opened LirGen
  import opened LirEntries
  import opened LirNormal
  import LirOptimize
  import opened AsmSelect
  import opened AsmShare
  import opened AsmCrowded
  import opened AsmFine
  import opened AsmWhole
  import opened ResolverSpec
  import ParserSpec
  import Named
  import opened Source
  import W = Whole

  // ---------- The program ----------

  function Product(b: nat, c: nat): Expr {
    Expr.Binary(3, Bin(Mul), Int(1, b), Int(2, c))
  }

  function Sum(a: nat, b: nat, c: nat): Expr {
    Expr.Binary(4, Bin(Add), Int(0, a), Product(b, c))
  }

  /** `a + b * c - d`, with the ids the parser gives. */
  function Expression(a: nat, b: nat, c: nat, d: nat): Expr {
    Expr.Binary(6, Bin(Sub), Sum(a, b, c), Int(5, d))
  }

  function Main(a: nat, b: nat, c: nat, d: nat): FnDecl {
    FnDecl("main", [], false, Cons(Return(0, Some(Expression(a, b, c, d))), Nil))
  }

  lemma {:induction false} IsParsed(a: nat, b: nat, c: nat, d: nat)
    ensures var toks := [ParserSpec.IntTok(a), ParserSpec.OpTok(Bin(Add)), ParserSpec.IntTok(b),
                         ParserSpec.OpTok(Bin(Mul)),
                         ParserSpec.IntTok(c), ParserSpec.OpTok(Bin(Sub)), ParserSpec.IntTok(d)];
      ParserSpec.ParseBinary(toks, 0, 0, 7) == Some(ParserSpec.Parse(Expression(a, b, c, d), 7, 7))
  {
    hide ParserSpec.ParseBinary, ParserSpec.Spells, ParserSpec.Number, ParserSpec.Nodes, ParserSpec.Tighter;
    var e := Expression(a, b, c, d);
    var toks := [ParserSpec.IntTok(a), ParserSpec.OpTok(Bin(Add)), ParserSpec.IntTok(b), ParserSpec.OpTok(Bin(Mul)),
                 ParserSpec.IntTok(c), ParserSpec.OpTok(Bin(Sub)), ParserSpec.IntTok(d)];
    ParserSpec.LeafSpells(toks[0], 0, toks, 0);
    ParserSpec.LeafSpells(toks[2], 1, toks, 2);
    ParserSpec.LeafSpells(toks[4], 2, toks, 4);
    ParserSpec.LeafSpells(toks[6], 5, toks, 6);
    ParserSpec.JoinSpells(Int(1, b), Bin(Mul), Int(2, c), toks, 2, 3, 5, 1);
    ParserSpec.JoinSpells(Int(0, a), Bin(Add), Product(b, c), toks, 0, 1, 5, 0);
    ParserSpec.JoinSpells(Sum(a, b, c), Bin(Sub), Int(5, d), toks, 0, 5, 7, 0);
    ParserSpec.TighterPrec(Bin(Mul), Bin(Add));
    ParserSpec.TighterPrec(Bin(Sub), Bin(Add));
    assert ParserSpec.Unambiguous(Product(b, c)) && ParserSpec.Unambiguous(Sum(a, b, c));
    ParserSpec.ParserExact(toks, 0, e, 7);
    ParserSpec.BinaryGood(toks, 0, 0, 7);
  }

  lemma {:induction false} IsCompiled(a: nat, b: nat, c: nat, d: nat)
    ensures Compiles([Main(a, b, c, d)]) && PlainProgram([Main(a, b, c, d)])
  {
    var p, e := [Main(a, b, c, d)], Expression(a, b, c, d);
    var scope, re := BodyScope(p, p[0]), Resols(map[], map[]);
    IdsApart(a, b, c, d);
    assert ResolveExpr(Product(b, c), scope, re) == Some(re);
    assert ResolveExpr(Sum(a, b, c), scope, re) == Some(re);
    assert ResolveExpr(Int(5, d), scope, re) == Some(re) && ResolveExpr(e, scope, re) == Some(re);
    assert ResolveStmt(Return(0, Some(e)), scope, [], re) == Some(re);
    assert ResolveBlock(Nil, ScopeAfter(scope, Return(0, Some(e))), [], re) == Some(re);
    assert ResolveFn(p, p[0]) == Some(re);
    assert Unique(Return(0, Some(e))) && UniqueBlock(Nil);
    assert MirGen.LowerableExpr(Int(0, a)) && MirGen.LowerableExpr(Int(1, b)) && MirGen.LowerableExpr(Int(2, c));
    assert MirGen.LowerableExpr(Product(b, c)) && MirGen.LowerableExpr(Sum(a, b, c)) && MirGen.LowerableExpr(Int(5, d));
    assert MirGen.Lowerable(MirGen.Cx(re, 0), Return(0, Some(e)));
    assert MirGen.LowerableBlock(MirGen.Cx(re, 0), p[0].body);
    assert Named.PlainBlock(Nil) && Named.Plain(Return(0, Some(e)));
  }

  lemma {:induction false} IdsApart(a: nat, b: nat, c: nat, d: nat)
    ensures UniqueExpr(Expression(a, b, c, d))
  {
    assert ExprIds(Int(1, b)) == {1} && ExprIds(Int(2, c)) == {2} && ExprIds(Int(0, a)) == {0} &&
           ExprIds(Int(5, d)) == {5};
    assert UniqueExpr(Int(1, b)) && UniqueExpr(Int(2, c)) && UniqueExpr(Int(0, a)) && UniqueExpr(Int(5, d));
    assert UniqueExpr(Product(b, c)) && ExprIds(Product(b, c)) == {1, 2, 3};
    assert UniqueExpr(Sum(a, b, c)) && ExprIds(Sum(a, b, c)) == {0, 1, 2, 3, 4};
  }

  /** The sum has been computed beside a product, and is kept while `d` is fetched. */
  lemma {:induction false} IsNotFine(a: nat, b: nat, c: nat, d: nat)
    ensures !FineExpr(Expression(a, b, c, d))
  {
    assert KindOf(Int(2, c)) == Loaded && KindOf(Int(5, d)) == Loaded;
    assert KindOf(Product(b, c)) == Other && KindOf(Sum(a, b, c)) == Crowded;
  }

  // ---------- Its lines ----------

  function Code(a: nat, b: nat, c: nat, d: nat): seq<M.Stmt> {
    [M.Push(M.IntVal(a)), M.Push(M.IntVal(b)), M.Push(M.IntVal(c)), M.Binary(Mul), M.Binary(Add),
     M.Push(M.IntVal(d)), M.Binary(Sub), M.Store(0)]
  }

  function Lowered(a: nat, b: nat, c: nat, d: nat): M.Fn {
    M.Fn(0, 1, [M.Block(0, Code(a, b, c, d), M.Return)], 0, 0)
  }

  /** The optimised lines. */
  function Optimised(a: nat, b: nat, c: nat, d: nat): seq<Line> {
    [L(AllocLocal(0, 8)), Line([0], MovInt(1, a)), L(Push(1)), L(Kill(1)),
     L(MovInt(2, b)), L(MovInt(3, c)), L(Ins.Binary(Mul, 2, 3)), L(Kill(3)),
     L(Pop(7)), L(Ins.Binary(Add, 7, 2)), L(Kill(2)),
     L(MovInt(8, d)), L(Ins.Binary(Sub, 7, 8)), L(Kill(8)), L(StoreReg(0, 7)), L(Kill(7)), L(Ret)]
  }

  /** Register 7, the sum, is in machine register 1, and so is register 8. */
  function Machine(a: nat, b: nat, c: nat, d: nat): seq<Line> {
    [L(AllocLocal(0, 8)), Line([0], MovInt(0, a)), L(Push(0)), L(Nop),
     L(MovInt(0, b)), L(MovInt(1, c)), L(Ins.Binary(Mul, 0, 1)), L(Nop),
     L(Pop(1)), L(Ins.Binary(Add, 1, 0)), L(Nop),
     L(MovInt(1, d)), L(Ins.Binary(Sub, 1, 1)), L(Nop), L(StoreReg(0, 1)), L(Nop), L(Ret)]
  }

  lemma {:induction false} IsLowered(a: nat, b: nat, c: nat, d: nat)
    ensures var p := [Main(a, b, c, d)];
      Compiles(p) && W.AcceptedProgram(p, Tables(p)) && W.MirOf(p[0], Tables(p)[0]) == Lowered(a, b, c, d)
  {
    IsCompiled(a, b, c, d);
    CompilesIsAccepted([Main(a, b, c, d)]);
    var re := Tables([Main(a, b, c, d)])[0];
    var cx := MirGen.Cx(re, 0);
    ReturnFn(cx, 0, Expression(a, b, c, d));
    assert MirGen.Code(re, map[], Product(b, c)) == [M.Push(M.IntVal(b)), M.Push(M.IntVal(c)), M.Binary(Mul)];
    assert MirGen.Code(re, map[], Sum(a, b, c)) ==
      [M.Push(M.IntVal(a)), M.Push(M.IntVal(b)), M.Push(M.IntVal(c)), M.Binary(Mul), M.Binary(Add)];
    assert MirGen.Code(re, map[], Int(5, d)) == [M.Push(M.IntVal(d))];
    assert MirGen.Code(re, map[], Expression(a, b, c, d)) ==
      [M.Push(M.IntVal(a)), M.Push(M.IntVal(b)), M.Push(M.IntVal(c)), M.Binary(Mul), M.Binary(Add), M.Push(M.IntVal(d)),
       M.Binary(Sub)];
    assert ReturnCode(cx, Expression(a, b, c, d)) == Code(a, b, c, d);
  }

  function Load(r: Reg, n: nat): Entry {
    Entry([L(MovInt(r, n))], r, [], true)
  }

  /** `b * c` in register 2, the sum in register 7, and then the difference. */
  function ProductEntry(b: nat, c: nat): Entry {
    Entry([L(MovInt(2, b)), L(MovInt(3, c)), L(Ins.Binary(Mul, 2, 3))], 2, [3], false)
  }

  function SumEntry(a: nat, b: nat, c: nat): Entry {
    Entry([Line([0], MovInt(1, a)), L(Push(1)), L(Kill(1)), L(MovInt(2, b)), L(MovInt(3, c)), L(Ins.Binary(Mul, 2, 3)),
           L(Kill(3)), L(Pop(7)), L(Ins.Binary(Add, 7, 2))], 7, [2], false)
  }

  function DifferenceEntry(a: nat, b: nat, c: nat, d: nat): Entry {
    Entry(SumEntry(a, b, c).head + [L(Kill(2)), L(MovInt(8, d)), L(Ins.Binary(Sub, 7, 8))], 7, [8], false)
  }

  lemma {:induction false} Entries(a: nat, b: nat, c: nat, d: nat)
    ensures Operated(Mul, Load(2, b), Load(3, c), 4) == ProductEntry(b, c)
    ensures Operated(Add, Entry([Line([0], MovInt(1, a))], 1, [], true), ProductEntry(b, c), 6) == SumEntry(a, b, c)
    ensures Operated(Sub, SumEntry(a, b, c), Load(8, d), 9) == DifferenceEntry(a, b, c, d)
  {
    assert Kills([]) == [];
    KillsOne([3]);
    KillsOne([2]);
  }

  lemma {:induction false} RunOne(c: Cut, s: M.Stmt, rest: seq<M.Stmt>, base: Reg, labels: seq<Label>)
    requires Level([s], |c.es|).Some? && Level(rest, |StepCut(0, c, s, base, labels).es|).Some?
    ensures Level([s] + rest, |c.es|).Some?
    ensures RunCut(0, c, [s] + rest, base, labels) ==
      RunCut(0, StepCut(0, c, s, base, labels), rest, base + RegsOf(s), [])
  {
    hide StepCut;
    StepDepth(0, c, s, base, labels);
    LevelConcat([s], rest, |c.es|);
    assert ([s] + rest)[0] == s && ([s] + rest)[1..] == rest;
    assert [s][1..] == [];
  }

  /** From the values on the stack after the third load. */
  lemma {:induction false} RunOperations(a: nat, b: nat, c: nat, d: nat, out: seq<Line>)
    ensures var first := Entry([Line([0], MovInt(1, a))], 1, [], true);
      var ss := [M.Binary(Mul)] + ([M.Binary(Add)] + ([M.Push(M.IntVal(d))] + ([M.Binary(Sub)] + [M.Store(0)])));
      && Level(ss, 3) == Some(0)
      && RunCut(0, Cut(out, [first, Load(2, b), Load(3, c)]), ss, 4, []) ==
         Cut(out + Kept(DifferenceEntry(a, b, c, d)) + [L(StoreReg(0, 7)), L(Kill(7))], [])
  {
    var first := Entry([Line([0], MovInt(1, a))], 1, [], true);
    var product, sum, difference := ProductEntry(b, c), SumEntry(a, b, c), DifferenceEntry(a, b, c, d);
    Entries(a, b, c, d);
    hide Operated, Kept, SumEntry, ProductEntry;
    var c3, c4, c5 := Cut(out, [first, Load(2, b), Load(3, c)]), Cut(out, [first, product]), Cut(out, [sum]);
    var c6, c7 := Cut(out, [sum, Load(8, d)]), Cut(out, [difference]);
    var store := [M.Store(0)];
    assert store[1..] == [] && [M.Binary(Sub)][1..] == [] && [M.Binary(Add)][1..] == [] && [M.Binary(Mul)][1..] == [];
    assert [M.Push(M.IntVal(d))][1..] == [];
    assert StepCut(0, c3, M.Binary(Mul), 4, []) == c4;
    assert StepCut(0, c4, M.Binary(Add), 6, []) == c5;
    assert StepCut(0, c5, M.Push(M.IntVal(d)), 8, []) == c6;
    assert StepCut(0, c6, M.Binary(Sub), 9, []) == c7;
    var c8 := Cut(out + Kept(difference) + [L(StoreReg(0, 7)), L(Kill(7))], []);
    assert StepCut(0, c7, M.Store(0), 11, []) == c8;
    assert Level(store, 1) == Some(0) && RunCut(0, c7, store, 11, []) == c8;
    hide StepCut, RunCut, Level;
    RunOne(c6, M.Binary(Sub), store, 9, []);
    RunOne(c5, M.Push(M.IntVal(d)), [M.Binary(Sub)] + store, 8, []);
    RunOne(c4, M.Binary(Add), [M.Push(M.IntVal(d))] + ([M.Binary(Sub)] + store), 6, []);
    RunOne(c3, M.Binary(Mul), [M.Binary(Add)] + ([M.Push(M.IntVal(d))] + ([M.Binary(Sub)] + store)), 4, []);
  }

  lemma {:induction false} LoadsRun(a: nat, b: nat, c: nat, out: seq<Line>)
    ensures var first := Entry([Line([0], MovInt(1, a))], 1, [], true);
      var x, y, z := M.Push(M.IntVal(a)), M.Push(M.IntVal(b)), M.Push(M.IntVal(c));
      && Level([x], 0) == Some(1) && Level([y], 1) == Some(2) && Level([z], 2) == Some(3)
      && StepCut(0, Cut(out, []), x, 1, [0]) == Cut(out, [first])
      && StepCut(0, Cut(out, [first]), y, 2, []) == Cut(out, [first, Load(2, b)])
      && StepCut(0, Cut(out, [first, Load(2, b)]), z, 3, []) == Cut(out, [first, Load(2, b), Load(3, c)])
  {
    var x, y, z := M.Push(M.IntVal(a)), M.Push(M.IntVal(b)), M.Push(M.IntVal(c));
    assert [x][1..] == [] && [y][1..] == [] && [z][1..] == [];
  }

  lemma {:induction false} RunAll(a: nat, b: nat, c: nat, d: nat)
    ensures Level(Code(a, b, c, d), 0) == Some(0)
    ensures RunCut(0, Cut([L(AllocLocal(0, 8))], []), Code(a, b, c, d), 1, [0]) ==
            Cut([L(AllocLocal(0, 8))] + Kept(DifferenceEntry(a, b, c, d)) + [L(StoreReg(0, 7)), L(Kill(7))], [])
  {
    var out := [L(AllocLocal(0, 8))];
    var first := Entry([Line([0], MovInt(1, a))], 1, [], true);
    var ss := [M.Binary(Mul)] + ([M.Binary(Add)] + ([M.Push(M.IntVal(d))] + ([M.Binary(Sub)] + [M.Store(0)])));
    RunOperations(a, b, c, d, out);
    hide DifferenceEntry, Kept;
    var c0, c1, c2, c3 := Cut(out, []), Cut(out, [first]), Cut(out, [first, Load(2, b)]),
      Cut(out, [first, Load(2, b), Load(3, c)]);
    var x, y, z := M.Push(M.IntVal(a)), M.Push(M.IntVal(b)), M.Push(M.IntVal(c));
    LoadsRun(a, b, c, out);
    hide StepCut, RunCut, Level;
    RunOne(c2, z, ss, 3, []);
    LevelConcat([z], ss, 2);
    RunOne(c1, y, [z] + ss, 2, []);
    LevelConcat([y], [z] + ss, 1);
    RunOne(c0, x, [y] + ([z] + ss), 1, [0]);
    LevelConcat([x], [y] + ([z] + ss), 0);
    assert Code(a, b, c, d) == [x] + ([y] + ([z] + ss));
  }

  lemma {:induction false} NothingFused(a: nat, b: nat, c: nat, d: nat)
    ensures Fuse(Optimised(a, b, c, d)) == Optimised(a, b, c, d)
  {
    var ls := Optimised(a, b, c, d);
    forall i: nat ensures !LirOptimize.At(LirOptimize.FnCall, ls, i) && !LirOptimize.At(LirOptimize.IntStore, ls, i) {}
    FinishedFuse(ls);
  }

  lemma {:induction false} LinesShape(a: nat, b: nat, c: nat, d: nat)
    ensures [L(AllocLocal(0, 8))] + Kept(DifferenceEntry(a, b, c, d)) + [L(StoreReg(0, 7)), L(Kill(7))] +
      [Line([], Ret)] == Optimised(a, b, c, d)
  {
    KillsOne([8]);
  }

  lemma {:induction false} IsOptimised(a: nat, b: nat, c: nat, d: nat)
    requires WellFormed(Lowered(a, b, c, d))
    ensures Normal(FnLines(Lowered(a, b, c, d))) == Optimised(a, b, c, d)
  {
    hide RunCut, Optimised, Kept, DifferenceEntry, Cache, Fuse;
    var fn := Lowered(a, b, c, d);
    RunAll(a, b, c, d);
    NothingFused(a, b, c, d);
    LinesShape(a, b, c, d);
    FnWalk(fn);
    assert AllocLines(0, 0, 1) == [L(AllocLocal(0, 8))] by { assert AllocLines(1, 0, 1) == []; }
    assert BlockCut(0, fn.blocks, 0, 1, [L(AllocLocal(0, 8))]) == Optimised(a, b, c, d);
    assert BodyCut(0, fn.blocks, 1, 1 + BlockRegs(fn.blocks[0]), Optimised(a, b, c, d)) == Optimised(a, b, c, d);
  }

  /** What the compiler makes of the program. */
  lemma {:induction false} CompiledLines(a: nat, b: nat, c: nat, d: nat)
    ensures var p := [Main(a, b, c, d)];
      && Compiles(p) && W.AcceptedProgram(p, Tables(p))
      && W.Compile(p, Tables(p)) == [W.Code(Fn(0, 0, Optimised(a, b, c, d)))]
  {
    var p := [Main(a, b, c, d)];
    IsLowered(a, b, c, d);
    CompiledNormal(p, 0);
    IsOptimised(a, b, c, d);
    hide Optimised, W.MirOf, Compiles, Normal, FnLines;
    CompiledShape(p);
  }

  lemma CompiledShape(p: Program)
    requires Compiles(p) && W.AcceptedProgram(p, Tables(p)) && |p| == 1 && !p[0].extern
    ensures var q := W.Compile(p, Tables(p)); |q| == 1 && q[0] == W.Code(Fn(|p[0].params|, 0, q[0].fn.lines))
  {
    hide LirOptimize.OptimizeAll, W.LinesOf, W.SlotsOf;
  }

  // ---------- Selecting ----------

  /** Before a line the selection is `sel`, behind it `after`, and `img` is the line selected. */
  ghost predicate Chooses(line: Line, sel: Selection, after: Selection, img: Line) {
    var a := AllocAll(sel, Uses(line.ins));
    a.Some? && after == Forget(line.ins, a.value) && img == Line(line.labels, InsOver(line.ins, a.value))
  }

  lemma {:induction false} ChoosesAll(ls: seq<Line>, sels: seq<Selection>, out: seq<Line>, rest: seq<Line>,
                                      more: seq<Line>)
    requires |out| == |ls| && |sels| == |ls| + 1 && forall i :: 0 <= i < |ls| ==>
      Chooses(ls[i], sels[i], sels[i + 1], out[i])
    requires Select(rest, sels[|ls|]) == Some(more)
    ensures Select(ls + rest, sels[0]) == Some(out + more)
    decreases |ls|
  {
    hide Select, Chooses;
    if ls == [] {
      assert ls + rest == rest && out + more == more;
    } else {
      assert forall i :: 0 <= i < |ls[1..]| ==>
             ls[1..][i] == ls[i + 1] && sels[1..][i] == sels[i + 1] && out[1..][i] == out[i + 1];
      ChoosesAll(ls[1..], sels[1..], out[1..], rest, more);
      ChoosesOne(ls[0], sels[0], sels[1], out[0], ls[1..] + rest, out[1..] + more);
      assert ls + rest == [ls[0]] + (ls[1..] + rest) && out + more == [out[0]] + (out[1..] + more);
    }
  }

  lemma {:induction false} ChoosesOne(line: Line, sel: Selection, after: Selection, img: Line, rest: seq<Line>,
                                      out: seq<Line>)
    requires Chooses(line, sel, after, img) && Select(rest, after) == Some(out)
    ensures Select([line] + rest, sel) == Some([img] + out)
  {
    assert ([line] + rest)[0] == line && ([line] + rest)[1..] == rest;
  }

  /** A line that allocates nothing. */
  lemma {:induction false} ChoosesUse(line: Line, sel: Selection, after: Selection, img: Line)
    requires (forall r :: r in Uses(line.ins) ==> r in sel) && after == Forget(line.ins, sel)
    requires img == Line(line.labels, InsOver(line.ins, sel))
    ensures Chooses(line, sel, after, img)
  {
    AllUsed(sel, Uses(line.ins));
  }

  /** A line that defines a register. */
  lemma {:induction false} ChoosesNew(line: Line, sel: Selection, r: Reg, n: nat, after: Selection, img: Line)
    requires Uses(line.ins) == [r] && !line.ins.Kill? && r !in sel && |sel| == n < MACHINE_REGS && after == sel[r := n]
    requires img == Line(line.labels, InsOver(line.ins, after))
    ensures Chooses(line, sel, after, img)
  {
    AllocOne(sel, r);
  }

  lemma Sizes(q: Reg, m: nat)
    ensures var none: Selection := map[]; var one: Selection := map[q := m];
      |none| == 0 && |one| == 1 && one - {q} == none && none[q := m] == one
  {
    var one: Selection := map[q := m];
    SameSize(one, {q});
    assert one - {q} == map[];
  }

  lemma Pairs(q: Reg, m: nat, r: Reg, n: nat)
    requires q != r
    ensures var two: Selection := map[q := m, r := n]; var one: Selection := map[q := m];
      var other: Selection := map[r := n];
      one[r := n] == two && two - {r} == one && two - {q} == other
  {}

  const None0: Selection := map[]
  const First1: Selection := map[1 := 0]
  const Product1: Selection := map[2 := 0]
  const Factors: Selection := map[2 := 0, 3 := 1]
  const Terms: Selection := map[2 := 0, 7 := 1]
  const Sum1: Selection := map[7 := 1]
  const Shared: Selection := map[7 := 1, 8 := 1]

  lemma {:induction false} ChoosesHead(a: nat, rest: seq<Line>, more: seq<Line>)
    requires Select(rest, None0) == Some(more)
    ensures Select([L(AllocLocal(0, 8)), Line([0], MovInt(1, a)), L(Push(1)), L(Kill(1))] + rest, None0) ==
            Some([L(AllocLocal(0, 8)), Line([0], MovInt(0, a)), L(Push(0)), L(Nop)] + more)
  {
    hide Chooses, Select;
    Sizes(1, 0);
    ChoosesUse(L(AllocLocal(0, 8)), None0, None0, L(AllocLocal(0, 8)));
    ChoosesNew(Line([0], MovInt(1, a)), None0, 1, 0, First1, Line([0], MovInt(0, a)));
    ChoosesUse(L(Push(1)), First1, First1, L(Push(0)));
    ChoosesUse(L(Kill(1)), First1, None0, L(Nop));
    ChoosesAll([L(AllocLocal(0, 8)), Line([0], MovInt(1, a)), L(Push(1)), L(Kill(1))],
               [None0, None0, First1, First1, None0],
               [L(AllocLocal(0, 8)), Line([0], MovInt(0, a)), L(Push(0)), L(Nop)], rest, more);
  }

  lemma {:induction false} ChoosesProduct(b: nat, c: nat, rest: seq<Line>, more: seq<Line>)
    requires Select(rest, Product1) == Some(more)
    ensures Select([L(MovInt(2, b)), L(MovInt(3, c)), L(Ins.Binary(Mul, 2, 3)), L(Kill(3))] + rest, None0) ==
            Some([L(MovInt(0, b)), L(MovInt(1, c)), L(Ins.Binary(Mul, 0, 1)), L(Nop)] + more)
  {
    hide Chooses, Select;
    Sizes(2, 0);
    Pairs(2, 0, 3, 1);
    ChoosesNew(L(MovInt(2, b)), None0, 2, 0, Product1, L(MovInt(0, b)));
    ChoosesNew(L(MovInt(3, c)), Product1, 3, 1, Factors, L(MovInt(1, c)));
    ChoosesUse(L(Ins.Binary(Mul, 2, 3)), Factors, Factors, L(Ins.Binary(Mul, 0, 1)));
    ChoosesUse(L(Kill(3)), Factors, Product1, L(Nop));
    ChoosesAll([L(MovInt(2, b)), L(MovInt(3, c)), L(Ins.Binary(Mul, 2, 3)), L(Kill(3))],
               [None0, Product1, Factors, Factors, Product1],
               [L(MovInt(0, b)), L(MovInt(1, c)), L(Ins.Binary(Mul, 0, 1)), L(Nop)], rest, more);
  }

  lemma {:induction false} ChoosesSum(rest: seq<Line>, more: seq<Line>)
    requires Select(rest, Sum1) == Some(more)
    ensures Select([L(Pop(7)), L(Ins.Binary(Add, 7, 2)), L(Kill(2))] + rest, Product1) ==
            Some([L(Pop(1)), L(Ins.Binary(Add, 1, 0)), L(Nop)] + more)
  {
    hide Chooses, Select;
    Sizes(2, 0);
    Pairs(2, 0, 7, 1);
    ChoosesNew(L(Pop(7)), Product1, 7, 1, Terms, L(Pop(1)));
    ChoosesUse(L(Ins.Binary(Add, 7, 2)), Terms, Terms, L(Ins.Binary(Add, 1, 0)));
    ChoosesUse(L(Kill(2)), Terms, Sum1, L(Nop));
    ChoosesAll([L(Pop(7)), L(Ins.Binary(Add, 7, 2)), L(Kill(2))], [Product1, Terms, Terms, Sum1],
               [L(Pop(1)), L(Ins.Binary(Add, 1, 0)), L(Nop)], rest, more);
  }

  /** The sum is in machine register 1 when `d` gets the same. */
  lemma {:induction false} ChoosesDifference(d: nat, rest: seq<Line>, more: seq<Line>)
    requires Select(rest, Sum1) == Some(more)
    ensures Select([L(MovInt(8, d)), L(Ins.Binary(Sub, 7, 8)), L(Kill(8))] + rest, Sum1) ==
            Some([L(MovInt(1, d)), L(Ins.Binary(Sub, 1, 1)), L(Nop)] + more)
  {
    hide Chooses, Select;
    Sizes(7, 1);
    Pairs(7, 1, 8, 1);
    ChoosesNew(L(MovInt(8, d)), Sum1, 8, 1, Shared, L(MovInt(1, d)));
    ChoosesUse(L(Ins.Binary(Sub, 7, 8)), Shared, Shared, L(Ins.Binary(Sub, 1, 1)));
    ChoosesUse(L(Kill(8)), Shared, Sum1, L(Nop));
    ChoosesAll([L(MovInt(8, d)), L(Ins.Binary(Sub, 7, 8)), L(Kill(8))], [Sum1, Shared, Shared, Sum1],
               [L(MovInt(1, d)), L(Ins.Binary(Sub, 1, 1)), L(Nop)], rest, more);
  }

  lemma {:induction false} ChoosesEnd()
    ensures Select([L(StoreReg(0, 7)), L(Kill(7)), L(Ret)], Sum1) == Some([L(StoreReg(0, 1)), L(Nop), L(Ret)])
  {
    assert Select([], None0) == Some([]);
    hide Chooses, Select;
    Sizes(7, 1);
    ChoosesUse(L(StoreReg(0, 7)), Sum1, Sum1, L(StoreReg(0, 1)));
    ChoosesUse(L(Kill(7)), Sum1, None0, L(Nop));
    ChoosesUse(L(Ret), None0, None0, L(Ret));
    ChoosesAll([L(StoreReg(0, 7)), L(Kill(7)), L(Ret)], [Sum1, Sum1, None0, None0], [L(StoreReg(0, 1)), L(Nop), L(Ret)],
               [], []);
    assert [L(StoreReg(0, 7)), L(Kill(7)), L(Ret)] + [] == [L(StoreReg(0, 7)), L(Kill(7)), L(Ret)];
    assert [L(StoreReg(0, 1)), L(Nop), L(Ret)] + [] == [L(StoreReg(0, 1)), L(Nop), L(Ret)];
  }

  lemma {:induction false} IsSelected(a: nat, b: nat, c: nat, d: nat)
    ensures Select(Optimised(a, b, c, d), map[]) == Some(Machine(a, b, c, d))
  {
    hide Select;
    ChoosesEnd();
    var l4, m4 := [L(StoreReg(0, 7)), L(Kill(7)), L(Ret)], [L(StoreReg(0, 1)), L(Nop), L(Ret)];
    ChoosesDifference(d, l4, m4);
    var l3, m3 := [L(MovInt(8, d)), L(Ins.Binary(Sub, 7, 8)), L(Kill(8))] + l4,
      [L(MovInt(1, d)), L(Ins.Binary(Sub, 1, 1)), L(Nop)] + m4;
    ChoosesSum(l3, m3);
    var l2, m2 := [L(Pop(7)), L(Ins.Binary(Add, 7, 2)), L(Kill(2))] + l3,
      [L(Pop(1)), L(Ins.Binary(Add, 1, 0)), L(Nop)] + m3;
    ChoosesProduct(b, c, l2, m2);
    var l1 := [L(MovInt(2, b)), L(MovInt(3, c)), L(Ins.Binary(Mul, 2, 3)), L(Kill(3))] + l2;
    var m1 := [L(MovInt(0, b)), L(MovInt(1, c)), L(Ins.Binary(Mul, 0, 1)), L(Nop)] + m2;
    ChoosesHead(a, l1, m1);
    assert Optimised(a, b, c, d) == [L(AllocLocal(0, 8)), Line([0], MovInt(1, a)), L(Push(1)), L(Kill(1))] + l1;
    assert Machine(a, b, c, d) == [L(AllocLocal(0, 8)), Line([0], MovInt(0, a)), L(Push(0)), L(Nop)] + m1;
  }

  // ---------- Running ----------

  lemma {:induction false} RunsHead(a: nat, st: State, call: Callee) returns (s1: State)
    requires st.stack == []
    ensures Straight([Line([0], MovInt(0, a)), L(Push(0)), L(Nop)], st, call) == Fall(s1)
    ensures s1.stack == [Literal(a)] && s1.w == st.w
  {
    assert [Line([0], MovInt(0, a)), L(Push(0)), L(Nop)] == [Line([0], MovInt(0, a))] + [L(Push(0)), L(Nop)];
    LirGen.Cons(Line([0], MovInt(0, a)), [L(Push(0)), L(Nop)], st, call);
    s1 := StepIns(MovInt(0, a), st, call).st;
    Two(Push(0), Nop, s1, call);
    s1 := s1.(stack := s1.stack + [s1.regs[0]]);
  }

  lemma {:induction false} RunsProduct(b: nat, c: nat, st: State, call: Callee) returns (s1: State)
    ensures Straight([L(MovInt(0, b)), L(MovInt(1, c)), L(Ins.Binary(Mul, 0, 1)), L(Nop)], st, call) == Fall(s1)
    ensures s1.stack == st.stack && s1.w == st.w && 0 in s1.regs && s1.regs[0].Word?
  {
    var xs, ys := [L(MovInt(0, b)), L(MovInt(1, c))], [L(Ins.Binary(Mul, 0, 1)), L(Nop)];
    Two(MovInt(0, b), MovInt(1, c), st, call);
    s1 := Straight(xs, st, call).st;
    Two(Ins.Binary(Mul, 0, 1), Nop, s1, call);
    assert [L(MovInt(0, b)), L(MovInt(1, c)), L(Ins.Binary(Mul, 0, 1)), L(Nop)] == xs + ys;
    StraightConcat(xs, ys, st, call);
    s1 := Straight(ys, s1, call).st;
  }

  lemma {:induction false} RunsSum(st: State, call: Callee) returns (s1: State)
    requires |st.stack| == 1 && st.stack[0].Word? && 0 in st.regs && st.regs[0].Word?
    ensures Straight([L(Pop(1)), L(Ins.Binary(Add, 1, 0)), L(Nop)], st, call) == Fall(s1)
    ensures s1.stack == [] && s1.w == st.w
  {
    Three(Pop(1), Ins.Binary(Add, 1, 0), Nop, st, call);
    s1 := Straight([L(Pop(1)), L(Ins.Binary(Add, 1, 0)), L(Nop)], st, call).st;
  }

  /** The subtraction takes a register from itself. */
  lemma {:induction false} RunsDifference(d: nat, st: State, call: Callee) returns (s1: State)
    ensures Straight([L(MovInt(1, d)), L(Ins.Binary(Sub, 1, 1)), L(Nop)], st, call) == Fall(s1)
    ensures s1.w == st.w && 1 in s1.regs && s1.regs[1] == Word(0)
  {
    Three(MovInt(1, d), Ins.Binary(Sub, 1, 1), Nop, st, call);
    var x := Wrap64(d);
    assert Wrap64(x - x) == 0;
    s1 := Straight([L(MovInt(1, d)), L(Ins.Binary(Sub, 1, 1)), L(Nop)], st, call).st;
  }

  lemma {:induction false} RunsEnd(st: State, call: Callee)
    requires 1 in st.regs && st.regs[1] == Word(0)
    ensures var f := Straight([L(StoreReg(0, 1)), L(Nop), L(Ret)], st, call);
      f.Exit? && Lir.Result(0, f.st) == Returned(Word(0), [], st.w)
  {
    Three(StoreReg(0, 1), Nop, Ret, st, call);
  }

  lemma {:induction false} RunsBody(a: nat, b: nat, c: nat, d: nat, st: State, call: Callee)
    requires st.stack == []
    ensures var f := Straight(Machine(a, b, c, d)[1..], st, call);
      f.Exit? && Lir.Result(0, f.st) == Returned(Word(0), [], st.w)
  {
    hide Straight;
    var l1, l2 := [Line([0], MovInt(0, a)), L(Push(0)), L(Nop)],
      [L(MovInt(0, b)), L(MovInt(1, c)), L(Ins.Binary(Mul, 0, 1)), L(Nop)];
    var l3, l4 := [L(Pop(1)), L(Ins.Binary(Add, 1, 0)), L(Nop)], [L(MovInt(1, d)), L(Ins.Binary(Sub, 1, 1)), L(Nop)];
    var l5 := [L(StoreReg(0, 1)), L(Nop), L(Ret)];
    var s1 := RunsHead(a, st, call);
    var s2 := RunsProduct(b, c, s1, call);
    var s3 := RunsSum(s2, call);
    var s4 := RunsDifference(d, s3, call);
    RunsEnd(s4, call);
    StraightConcat(l1, l2 + (l3 + (l4 + l5)), st, call);
    StraightConcat(l2, l3 + (l4 + l5), s1, call);
    StraightConcat(l3, l4 + l5, s2, call);
    StraightConcat(l4, l5, s3, call);
    assert Machine(a, b, c, d)[1..] == l1 + (l2 + (l3 + (l4 + l5)));
  }

  lemma {:induction false} MachineReplies(a: nat, b: nat, c: nat, d: nat, w: World, call: Callee)
    ensures W.LirReply(Fn(0, 0, Machine(a, b, c, d)), [], w, call) == Returned(Word(0), [], w)
  {
    var fn := Fn(0, 0, Machine(a, b, c, d));
    var ls := fn.lines;
    assert From(ls, 0) == ls[1..] by {
      assert ls[0].labels == [] && ls[1..][0].labels == [0];
    }
    assert ArgFrame([]) == map[];
    RunsBody(a, b, c, d, InitialState([], w), call);
    hide Straight, From, Machine;
    assert RunFn(fn, [], w, call, 0) == Halt(Returned(Word(0), [], w));
    assert W.LirHalts(fn, [], w, call, Returned(Word(0), [], w));
    forall r | W.LirHalts(fn, [], w, call, r) ensures r == Returned(Word(0), [], w) {
      W.OneReply(fn, [], w, call, r, Returned(Word(0), [], w));
    }
  }

  // ---------- What the source says ----------

  function Value64(a: nat, b: nat, c: nat, d: nat): int {
    Wrap64(Wrap64(Wrap64(a) + Wrap64(Wrap64(b) * Wrap64(c))) - Wrap64(d))
  }

  lemma {:induction false} Evaluates(a: nat, b: nat, c: nat, d: nat, env: Named.Env, w: World, call: Callee)
    ensures Named.Eval(Expression(a, b, c, d), env, w, call) == Named.A.Val(Word(Value64(a, b, c, d)), w)
  {
    hide Wrap64;
    assert Named.Eval(Int(0, a), env, w, call) == Named.A.Val(Word(Wrap64(a)), w);
    assert Named.Eval(Int(1, b), env, w, call) == Named.A.Val(Word(Wrap64(b)), w);
    assert Named.Eval(Int(2, c), env, w, call) == Named.A.Val(Word(Wrap64(c)), w);
    assert Named.Eval(Int(5, d), env, w, call) == Named.A.Val(Word(Wrap64(d)), w);
    assert Named.Eval(Product(b, c), env, w, call) == Named.A.Val(Word(Wrap64(Wrap64(b) * Wrap64(c))), w);
    assert Named.Eval(Sum(a, b, c), env, w, call) ==
           Named.A.Val(Word(Wrap64(Wrap64(a) + Wrap64(Wrap64(b) * Wrap64(c)))), w);
  }

  lemma {:induction false} SourceAnswers(a: nat, b: nat, c: nat, d: nat, ext: W.Oracle, depth: nat, w: World)
    requires depth > 0
    ensures CallNamed([Main(a, b, c, d)], ext, depth, 0, [], w) == Named.Answer.Answer(Word(Value64(a, b, c, d)), w)
  {
    var p := [Main(a, b, c, d)];
    var call: Callee := (g: nat, vs: seq<Value>, v: World) => ReplyOf(CallNamed(p, ext, depth - 1, g, vs, v), vs);
    BodyAnswers(a, b, c, d, w, call);
    hide Value64, CallNamed, NamedAnswer;
    CallIsAnswer(p, ext, depth, w, call);
  }

  lemma {:induction false} BodyAnswers(a: nat, b: nat, c: nat, d: nat, w: World, call: Callee)
    ensures NamedAnswer([Main(a, b, c, d)], Main(a, b, c, d), [], w, call) ==
      Named.Answer.Answer(Word(Value64(a, b, c, d)), w)
  {
    hide Value64, Named.RunNamed;
    var p, f := [Main(a, b, c, d)], Main(a, b, c, d);
    var answer := Named.Answer.Answer(Word(Value64(a, b, c, d)), w);
    forall n: nat ensures Named.RunNamed(p, f, [], w, call, n) == answer {
      RunAnswers(a, b, c, d, w, call, n);
    }
    hide Main;
    assert Named.RunNamed(p, f, [], w, call, 0) == answer;
    assert NamedEnds(p, f, [], w, call, answer);
  }

  lemma {:induction false} RunAnswers(a: nat, b: nat, c: nat, d: nat, w: World, call: Callee, n: nat)
    ensures Named.RunNamed([Main(a, b, c, d)], Main(a, b, c, d), [], w, call, n) ==
      Named.Answer.Answer(Word(Value64(a, b, c, d)), w)
  {
    var p, f := [Main(a, b, c, d)], Main(a, b, c, d);
    var env := Named.FnCells(p, |p|) + Named.ParamCells(f.params, []);
    Evaluates(a, b, c, d, env, w, call);
    hide Named.Eval, Value64, Expression, Named.RunNamed, Named.FnCells, Named.ParamCells;
    ReturnRuns(p, f, Expression(a, b, c, d), Word(Value64(a, b, c, d)), w, call, n);
  }

  lemma ReturnRuns(p: Program, f: FnDecl, e: Expr, v: Value, w: World, call: Callee, n: nat)
    requires f.params == [] && f.body == Cons(Return(0, Some(e)), Nil)
    requires Named.Eval(e, Named.FnCells(p, |p|) + Named.ParamCells(f.params, []), w, call) == Named.A.Val(v, w)
    ensures Named.RunNamed(p, f, [], w, call, n) == Named.Answer.Answer(v, w)
  {
    hide Named.Eval, Named.FnCells, Named.ParamCells;
    var env := Named.FnCells(p, |p|) + Named.ParamCells(f.params, []);
    assert Named.Exec(Return(0, Some(e)), env, w, call, n) == Named.Left(v, w);
    assert Named.ExecBlock(f.body, env, w, call, n) == Named.Left(v, w);
  }

  lemma CallIsAnswer(p: Program, ext: W.Oracle, depth: nat, w: World, call: Callee)
    requires depth > 0 && |p| == 1 && !p[0].extern && p[0].params == []
    requires call == ((g: nat, vs: seq<Value>, v: World) => ReplyOf(CallNamed(p, ext, depth - 1, g, vs, v), vs))
    ensures CallNamed(p, ext, depth, 0, [], w) == NamedAnswer(p, p[0], [], w, call)
  {
    hide NamedAnswer;
  }

  // ---------- The two together ----------

  /** For all constants: `a + b * c - d` parses, resolves, lowers and compiles; its source answers what
    * it says, and its machine code answers 0. */
  lemma {:induction false} SelectionCollides(a: nat, b: nat, c: nat, d: nat, ext: W.Oracle, depth: nat, w: World)
    requires depth > 0
    ensures var p := [Main(a, b, c, d)];
      && Compiles(p) && PlainProgram(p) && W.AcceptedProgram(p, Tables(p))
      && CallNamed(p, ext, depth, 0, [], w) == Named.Answer.Answer(Word(Value64(a, b, c, d)), w)
      && RegistersSuffice(W.Compile(p, Tables(p)))
      && Named.Seen(Halt(W.CallLir(Selected(W.Compile(p, Tables(p))), ext, depth, 0, [], w))) ==
        Named.Answer.Answer(Word(0), w)
  {
    IsCompiled(a, b, c, d);
    SourceAnswers(a, b, c, d, ext, depth, w);
    hide W.Compile, Compiles, CallNamed, Value64, W.CallLir;
    MachineAnswers(a, b, c, d, ext, depth, w);
  }

  lemma {:induction false} MachineAnswers(a: nat, b: nat, c: nat, d: nat, ext: W.Oracle, depth: nat, w: World)
    requires depth > 0
    ensures var p := [Main(a, b, c, d)];
      && Compiles(p) && W.AcceptedProgram(p, Tables(p)) && RegistersSuffice(W.Compile(p, Tables(p)))
      && W.CallLir(Selected(W.Compile(p, Tables(p))), ext, depth, 0, [], w) == Returned(Word(0), [], w)
  {
    CompiledLines(a, b, c, d);
    IsSelected(a, b, c, d);
    hide Optimised, Machine, Select, Compiles, W.LirReply, W.Compile;
    var m := [W.Code(Fn(0, 0, Machine(a, b, c, d)))];
    assert Selected([W.Code(Fn(0, 0, Optimised(a, b, c, d)))]) == m;
    var call: Callee := (g: nat, vs: seq<Value>, v: World) => W.CallLir(m, ext, depth - 1, g, vs, v);
    MachineReplies(a, b, c, d, w, call);
  }

  /** Which is wrong, for instance, of `1 + 2 * 4 - 5`. */
  lemma FourIsZero()
    ensures Value64(1, 2, 4, 5) == 4
  {
    hide Wrap64;
    Small(1);
    Small(2);
    Small(4);
    Small(5);
    Small(8);
    Small(9);
  }

  lemma Small(n: nat)
    requires n < TWO_63
    ensures Wrap64(n) == n
  {}
}
