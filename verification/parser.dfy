/** The expression parser, as functions over the token list, and that it inverts printing. */
module ParserSpec {
  import opened Values
  import opened Ast

  /** Tokens that matter to expressions; `-` is `OpTok(Bin(Sub))` before an operand too. */
  datatype Tok =
    | IdentTok(name: string)
    | IntTok(val: nat)
    | StrTok(text: string)
    | OpTok(op: Op)
    | NotTok
    | LParen
    | RParen
    | Comma
    | OtherTok(type_: string)

  const MINUS := OpTok(Bin(Sub))

  /** How loosely an operator binds. */
  function Prec(op: Op): (p: nat)
    ensures 1 <= p <= 7
  {
    match op
    case Or => 7
    case Xor => 6
    case And => 5
    case Bin(Lt) => 4
    case Bin(Gt) => 4
    case Bin(Le) => 4
    case Bin(Ge) => 4
    case Bin(Eq) => 3
    case Bin(Ne) => 3
    case Bin(Add) => 2
    case Bin(Sub) => 2
    case Bin(Mul) => 1
    case Bin(Div) => 1
    case Bin(Mod) => 1
  }

  /** A parse: the tree, the position after it, the next expression id.  None is an exception. */
  datatype Parse<T> = Parse(tree: T, i: nat, id: nat)

  type Toks = seq<Tok>

  predicate IsNext(toks: Toks, i: nat, t: Tok) {
    i < |toks| && toks[i] == t
  }

  function ParseBinary(toks: Toks, i: nat, id: nat, prec: nat): (r: Option<Parse<Expr>>)
    requires i <= |toks|
    ensures r.Some? ==> i < r.value.i <= |toks|
    decreases |toks| - i, 2, prec
  {
    if prec == 0 then ParsePrefix(toks, i, id) else
    match ParseBinary(toks, i, id, prec - 1)
    case None => None
    case Some(p) => MoreBinary(toks, p.tree, p.i, p.id, prec)
  }

  /** As long as an operator that binds at least as tightly comes next. */
  function MoreBinary(toks: Toks, left: Expr, i: nat, id: nat, prec: nat): (r: Option<Parse<Expr>>)
    requires i <= |toks| && 1 <= prec
    ensures r.Some? ==> i <= r.value.i <= |toks|
    decreases |toks| - i, 3
  {
    if i < |toks| && toks[i].OpTok? && Prec(toks[i].op) <= prec then
      match ParseBinary(toks, i + 1, id, prec - 1)
      case None => None
      case Some(p) => MoreBinary(toks, Binary(p.id, toks[i].op, left, p.tree), p.i, p.id + 1, prec)
    else
      Some(Parse(left, i, id))
  }

  function ParsePrefix(toks: Toks, i: nat, id: nat): (r: Option<Parse<Expr>>)
    requires i <= |toks|
    ensures r.Some? ==> i < r.value.i <= |toks|
    decreases |toks| - i, 1
  {
    if IsNext(toks, i, NotTok) then
      match ParsePrefix(toks, i + 1, id)
      case None => None
      case Some(p) => Some(Parse(Not(p.id, p.tree), p.i, p.id + 1))
    else if IsNext(toks, i, MINUS) then
      match ParsePrefix(toks, i + 1, id)
      case None => None
      case Some(p) => Some(Parse(Negate(p.id, p.tree), p.i, p.id + 1))
    else ParsePostfix(toks, i, id)
  }

  function ParsePostfix(toks: Toks, i: nat, id: nat): (r: Option<Parse<Expr>>)
    requires i <= |toks|
    ensures r.Some? ==> i < r.value.i <= |toks|
    decreases |toks| - i, 0
  {
    match ParseOperand(toks, i, id)
    case None => None
    case Some(p) => MorePostfix(toks, p.tree, p.i, p.id)
  }

  function MorePostfix(toks: Toks, callee: Expr, i: nat, id: nat): (r: Option<Parse<Expr>>)
    requires i <= |toks|
    ensures r.Some? ==> i <= r.value.i <= |toks|
    decreases |toks| - i, 4
  {
    if IsNext(toks, i, LParen) then
      match ParseArgs(toks, i + 1, id)
      case None => None
      case Some(p) => MorePostfix(toks, Call(p.id, callee, p.tree), p.i, p.id + 1)
    else
      Some(Parse(callee, i, id))
  }

  /** Arguments and the closing parenthesis. */
  function ParseArgs(toks: Toks, i: nat, id: nat): (r: Option<Parse<List<Expr>>>)
    requires i <= |toks|
    ensures r.Some? ==> i < r.value.i <= |toks|
    decreases |toks| - i, 6
  {
    if IsNext(toks, i, RParen) then Some(Parse(Nil, i + 1, id))
    else if i == |toks| then None
    else
      match ParseBinary(toks, i, id, 7)
      case None => None
      case Some(p) =>
        match MoreArgs(toks, p.i, p.id)
        case None => None
        case Some(q) => Some(Parse(Cons(p.tree, q.tree), q.i, q.id))
  }

  /** After an argument: a comma and another one, a comma before the parenthesis, or the parenthesis. */
  function MoreArgs(toks: Toks, i: nat, id: nat): (r: Option<Parse<List<Expr>>>)
    requires i <= |toks|
    ensures r.Some? ==> i < r.value.i <= |toks|
    decreases |toks| - i, 5
  {
    if IsNext(toks, i, RParen) then Some(Parse(Nil, i + 1, id))
    else if !IsNext(toks, i, Comma) then None
    else if IsNext(toks, i + 1, RParen) then Some(Parse(Nil, i + 2, id))
    else
      match ParseBinary(toks, i + 1, id, 7)
      case None => None
      case Some(p) =>
        match MoreArgs(toks, p.i, p.id)
        case None => None
        case Some(q) => Some(Parse(Cons(p.tree, q.tree), q.i, q.id))
  }

  function ParseOperand(toks: Toks, i: nat, id: nat): (r: Option<Parse<Expr>>)
    requires i <= |toks|
    ensures r.Some? ==> i < r.value.i <= |toks|
  {
    if i == |toks| then None else
    match toks[i]
    case IdentTok(name) => Some(Parse(Ident(id, name), i + 1, id + 1))
    case IntTok(n) => Some(Parse(Int(id, n), i + 1, id + 1))
    case StrTok(s) => Some(Parse(Str(id, s), i + 1, id + 1))
    case _ => None
  }

  // ---------- Printing ----------

  function Tokens(e: Expr): (ts: Toks)
    ensures |ts| > 0
  {
    match e
    case Ident(_, name) => [IdentTok(name)]
    case Int(_, n) => [IntTok(n)]
    case Str(_, s) => [StrTok(s)]
    case Call(_, callee, args) => Tokens(callee) + [LParen] + ArgTokens(args) + [RParen]
    case Not(_, operand) => [NotTok] + Tokens(operand)
    case Negate(_, operand) => [MINUS] + Tokens(operand)
    case Binary(_, op, left, right) => Tokens(left) + [OpTok(op)] + Tokens(right)
  }

  function ArgTokens(es: List<Expr>): Toks {
    match es
    case Nil => []
    case Cons(e, Nil) => Tokens(e)
    case Cons(e, rest) => Tokens(e) + [Comma] + ArgTokens(rest)
  }

  /** The operators, loosest tier first. */
  const TIERS: seq<set<Op>> := [
    {Or}, {Xor}, {And}, {Bin(Lt), Bin(Gt), Bin(Le), Bin(Ge)}, {Bin(Eq), Bin(Ne)}, {Bin(Add), Bin(Sub)},
    {Bin(Mul), Bin(Div), Bin(Mod)}]

  /** `q` is in a strictly tighter tier than `o`. */
  predicate Tighter(q: Op, o: Op) {
    exists m: nat, n: nat | m < n < |TIERS| :: o in TIERS[m] && q in TIERS[n]
  }

  predicate IsPostfix(e: Expr) {
    e.Ident? || e.Int? || e.Str? || e.Call?
  }

  /** Trees that need no parentheses: the grammar has none. */
  predicate Unambiguous(e: Expr) {
    match e
    case Ident(_, _) => true
    case Int(_, _) => true
    case Str(_, _) => true
    case Call(_, callee, args) => IsPostfix(callee) && Unambiguous(callee) && UnambiguousArgs(args)
    case Not(_, operand) => !operand.Binary? && Unambiguous(operand)
    case Negate(_, operand) => !operand.Binary? && Unambiguous(operand)
    case Binary(_, op, left, right) =>
      && (left.Binary? ==> !Tighter(op, left.op)) && (right.Binary? ==> Tighter(right.op, op))
      && Unambiguous(left) && Unambiguous(right)
  }

  predicate UnambiguousArgs(es: List<Expr>) {
    match es
    case Nil => true
    case Cons(e, rest) => Unambiguous(e) && UnambiguousArgs(rest)
  }

  function Nodes(e: Expr): nat {
    match e
    case Call(_, callee, args) => Nodes(callee) + ArgNodes(args) + 1
    case Not(_, operand) => Nodes(operand) + 1
    case Negate(_, operand) => Nodes(operand) + 1
    case Binary(_, _, left, right) => Nodes(left) + Nodes(right) + 1
    case _ => 1
  }

  function ArgNodes(es: List<Expr>): nat {
    match es
    case Nil => 0
    case Cons(e, rest) => Nodes(e) + ArgNodes(rest)
  }

  /** The same tree with ids counted up from `id`, children before parents, left to right. */
  function Number(e: Expr, id: nat): Expr {
    match e
    case Ident(_, name) => Ident(id, name)
    case Int(_, n) => Int(id, n)
    case Str(_, s) => Str(id, s)
    case Call(_, callee, args) =>
      Call(id + Nodes(callee) + ArgNodes(args), Number(callee, id), NumberArgs(args, id + Nodes(callee)))
    case Not(_, operand) => Not(id + Nodes(operand), Number(operand, id))
    case Negate(_, operand) => Negate(id + Nodes(operand), Number(operand, id))
    case Binary(_, op, left, right) =>
      Binary(id + Nodes(left) + Nodes(right), op, Number(left, id), Number(right, id + Nodes(left)))
  }

  function NumberArgs(es: List<Expr>, id: nat): List<Expr> {
    match es
    case Nil => Nil
    case Cons(e, rest) => Cons(Number(e, id), NumberArgs(rest, id + Nodes(e)))
  }

  // ---------- What a list of tokens says ----------

  /** Tokens `i..j` say `e`: the grammar, with nothing about how tightly operators bind. */
  ghost predicate Spells(e: Expr, toks: Toks, i: nat, j: nat)
    decreases e
  {
    i < j <= |toks| &&
    match e
    case Ident(_, name) => j == i + 1 && toks[i] == IdentTok(name)
    case Int(_, n) => j == i + 1 && toks[i] == IntTok(n)
    case Str(_, s) => j == i + 1 && toks[i] == StrTok(s)
    case Not(_, operand) => toks[i] == NotTok && Spells(operand, toks, i + 1, j)
    case Negate(_, operand) => toks[i] == MINUS && Spells(operand, toks, i + 1, j)
    case Binary(_, op, left, right) =>
      exists k :: i < k < j && toks[k] == OpTok(op) && Spells(left, toks, i, k) && Spells(right, toks, k + 1, j)
    case Call(_, callee, args) =>
      exists k :: i < k < j && toks[k] == LParen && Spells(callee, toks, i, k) && SpellsArgs(args, toks, k + 1, j)
  }

  /** Arguments and the closing parenthesis. */
  ghost predicate SpellsArgs(es: List<Expr>, toks: Toks, i: nat, j: nat)
    decreases es, 0
  {
    match es
    case Nil => i + 1 == j <= |toks| && toks[i] == RParen
    case Cons(e, rest) => exists k :: i < k < j && Spells(e, toks, i, k) && SpellsMore(rest, toks, k, j)
  }

  /** After an argument: a comma and others, or the closing parenthesis, with a comma before it or not. */
  ghost predicate SpellsMore(es: List<Expr>, toks: Toks, i: nat, j: nat)
    decreases es, 1
  {
    i < j <= |toks| &&
    match es
    case Nil => toks[j - 1] == RParen && (j == i + 1 || (j == i + 2 && toks[i] == Comma))
    case Cons(_, _) => toks[i] == Comma && SpellsArgs(es, toks, i + 1, j)
  }

  /** How loosely a tree binds: 0 for all but binary operations. */
  function Rank(e: Expr): nat {
    if e.Binary? then Prec(e.op) else 0
  }

  /** An operator is in the tier its precedence counts from the end, and in no other. */
  lemma InTier(op: Op)
    ensures forall n: nat | n < |TIERS| :: op in TIERS[n] <==> n == 7 - Prec(op)
  {}

  lemma TighterPrec(q: Op, o: Op)
    ensures Tighter(q, o) <==> Prec(q) < Prec(o)
  {
    InTier(q);
    InTier(o);
    assert o in TIERS[7 - Prec(o)] && q in TIERS[7 - Prec(q)];
  }

  /** The operands of an operation, by their precedence. */
  lemma {:induction false} OperandRanks(e: Expr)
    requires e.Binary? && Unambiguous(e)
    ensures Rank(e.left) <= Prec(e.op) && Rank(e.right) < Prec(e.op)
  {
    hide Tighter;
    if e.left.Binary? {
      TighterPrec(e.op, e.left.op);
    }
    if e.right.Binary? {
      TighterPrec(e.right.op, e.op);
    }
  }

  /** What comes at `j` cannot extend an expression at this level. */
  predicate Ends(toks: Toks, j: nat, prec: nat) {
    j < |toks| ==> toks[j] != LParen && (toks[j].OpTok? ==> Prec(toks[j].op) > prec)
  }

  /** No expression starts with a token that ends one, nor a leaf or a call with a prefix operator. */
  lemma {:induction false} FirstToken(e: Expr, toks: Toks, i: nat, j: nat)
    requires Spells(e, toks, i, j)
    ensures toks[i] != RParen && toks[i] != Comma && toks[i] != LParen
    ensures IsPostfix(e) && Unambiguous(e) ==> toks[i] != NotTok && toks[i] != MINUS
    decreases e
  {
    match e
    case Binary(_, op, left, right) =>
      var k :| i < k < j && toks[k] == OpTok(op) && Spells(left, toks, i, k) && Spells(right, toks, k + 1, j);
      FirstToken(left, toks, i, k);
    case Call(_, callee, args) =>
      var k :| i < k < j && toks[k] == LParen && Spells(callee, toks, i, k) && SpellsArgs(args, toks, k + 1, j);
      FirstToken(callee, toks, i, k);
    case _ =>
  }

  // ---------- The parser reads all of it ----------

  lemma MoreStep(toks: Toks, left: Expr, i: nat, id: nat, prec: nat, p: Parse<Expr>)
    requires 1 <= prec && i < |toks| && toks[i].OpTok? && Prec(toks[i].op) <= prec
    requires ParseBinary(toks, i + 1, id, prec - 1) == Some(p)
    ensures MoreBinary(toks, left, i, id, prec) ==
            MoreBinary(toks, Binary(p.id, toks[i].op, left, p.tree), p.i, p.id + 1, prec)
  {}

  lemma LevelStep(toks: Toks, i: nat, id: nat, prec: nat, p: Parse<Expr>)
    requires 1 <= prec && i <= |toks| && ParseBinary(toks, i, id, prec - 1) == Some(p)
    ensures ParseBinary(toks, i, id, prec) == MoreBinary(toks, p.tree, p.i, p.id, prec)
  {}

  /** Reading a tree at some level, the parser gets to the loop of that level with the tree read. */
  lemma {:induction false} BinaryRead(e: Expr, toks: Toks, i: nat, j: nat, id: nat, prec: nat)
    requires Unambiguous(e) && Rank(e) <= prec && 1 <= prec && Spells(e, toks, i, j) && Ends(toks, j, prec - 1)
    ensures ParseBinary(toks, i, id, prec) == MoreBinary(toks, Number(e, id), j, id + Nodes(e), prec)
    decreases e, prec, 0
  {
    hide MoreBinary, ParseBinary;
    if Rank(e) < prec {
      WholeRead(e, toks, i, j, id, prec - 1);
      LevelStep(toks, i, id, prec, Parse(Number(e, id), j, id + Nodes(e)));
    } else {
      var k :| i < k < j && toks[k] == OpTok(e.op) && Spells(e.left, toks, i, k) && Spells(e.right, toks, k + 1, j);
      hide Spells;
      var n := id + Nodes(e.left);
      OperandRanks(e);
      BinaryRead(e.left, toks, i, k, id, prec);
      WholeRead(e.right, toks, k + 1, j, n, prec - 1);
      MoreStep(toks, Number(e.left, id), k, n, prec, Parse(Number(e.right, n), j, n + Nodes(e.right)));
    }
  }

  /** Reading a tree where nothing can extend it, the parser gets the tree. */
  lemma {:induction false} WholeRead(e: Expr, toks: Toks, i: nat, j: nat, id: nat, prec: nat)
    requires Unambiguous(e) && Rank(e) <= prec && Spells(e, toks, i, j) && Ends(toks, j, prec)
    ensures ParseBinary(toks, i, id, prec) == Some(Parse(Number(e, id), j, id + Nodes(e)))
    decreases e, prec, 1
  {
    if prec == 0 {
      PrefixRead(e, toks, i, j, id);
    } else {
      BinaryRead(e, toks, i, j, id, prec);
    }
  }

  lemma {:induction false} PrefixRead(e: Expr, toks: Toks, i: nat, j: nat, id: nat)
    requires Unambiguous(e) && Rank(e) == 0 && Spells(e, toks, i, j) && Ends(toks, j, 0)
    ensures ParsePrefix(toks, i, id) == Some(Parse(Number(e, id), j, id + Nodes(e)))
    decreases e, 0, 0, 2
  {
    if e.Not? || e.Negate? {
      PrefixRead(e.operand, toks, i + 1, j, id);
    } else {
      FirstToken(e, toks, i, j);
      PostfixRead(e, toks, i, j, id);
    }
  }

  lemma {:induction false} PostfixRead(e: Expr, toks: Toks, i: nat, j: nat, id: nat)
    requires Unambiguous(e) && IsPostfix(e) && Spells(e, toks, i, j)
    ensures ParsePostfix(toks, i, id) == MorePostfix(toks, Number(e, id), j, id + Nodes(e))
    decreases e, 0, 0, 1
  {
    if e.Call? {
      CallRead(e, toks, i, j, id);
    }
  }

  lemma {:induction false} CallRead(e: Expr, toks: Toks, i: nat, j: nat, id: nat)
    requires Unambiguous(e) && e.Call? && Spells(e, toks, i, j)
    ensures ParsePostfix(toks, i, id) == MorePostfix(toks, Number(e, id), j, id + Nodes(e))
    decreases e, 0, 0, 0
  {
    hide ParsePostfix, ParseArgs;
    var k :| i < k < j && toks[k] == LParen && Spells(e.callee, toks, i, k) && SpellsArgs(e.args, toks, k + 1, j);
    hide Spells, SpellsArgs;
    PostfixRead(e.callee, toks, i, k, id);
    ArgsRead(e.args, toks, k + 1, j, id + Nodes(e.callee));
  }

  lemma {:induction false} ArgsRead(es: List<Expr>, toks: Toks, i: nat, j: nat, id: nat)
    requires UnambiguousArgs(es) && SpellsArgs(es, toks, i, j)
    ensures i < j <= |toks| && ParseArgs(toks, i, id) == Some(Parse(NumberArgs(es, id), j, id + ArgNodes(es)))
    decreases es, 4
  {
    hide ParseBinary, MoreArgs;
    if es.Cons? {
      var k := OneArgRead(es, toks, i, j, id);
    }
  }

  /** One argument, and the others after it. */
  lemma {:induction false} OneArgRead(es: List<Expr>, toks: Toks, i: nat, j: nat, id: nat) returns (k: nat)
    requires es.Cons? && UnambiguousArgs(es) && SpellsArgs(es, toks, i, j)
    ensures i < k < j <= |toks| && !IsNext(toks, i, RParen)
    ensures var n := id + Nodes(es.head);
      && ParseBinary(toks, i, id, 7) == Some(Parse(Number(es.head, id), k, n))
      && MoreArgs(toks, k, n) == Some(Parse(NumberArgs(es.tail, n), j, id + ArgNodes(es)))
    decreases es, 3
  {
    hide Spells, ParseBinary, Unambiguous, Number, Nodes;
    k :| i < k < j && Spells(es.head, toks, i, k) && SpellsMore(es.tail, toks, k, j);
    FirstToken(es.head, toks, i, k);
    WholeRead(es.head, toks, i, k, id, 7);
    if es.tail.Cons? {
      var m := OneArgRead(es.tail, toks, k + 1, j, id + Nodes(es.head));
    }
  }

  // ---------- And nothing else ----------

  /** A parse from `i` that started counting at `id`: the tree stands there, and needs no parentheses. */
  ghost predicate Good(r: Option<Parse<Expr>>, toks: Toks, i: nat, id: nat, prec: nat) {
    r.Some? ==> var e := r.value.tree;
      && Unambiguous(e) && Rank(e) <= prec && Number(e, id) == e && r.value.id == id + Nodes(e)
      && Spells(e, toks, i, r.value.i)
  }

  ghost predicate GoodArgs(r: Option<Parse<List<Expr>>>, toks: Toks, i: nat, id: nat) {
    r.Some? ==> var es := r.value.tree;
      && UnambiguousArgs(es) && NumberArgs(es, id) == es && r.value.id == id + ArgNodes(es)
      && SpellsArgs(es, toks, i, r.value.i)
  }

  ghost predicate GoodMore(r: Option<Parse<List<Expr>>>, toks: Toks, i: nat, id: nat) {
    r.Some? ==> var es := r.value.tree;
      && UnambiguousArgs(es) && NumberArgs(es, id) == es && r.value.id == id + ArgNodes(es)
      && SpellsMore(es, toks, i, r.value.i)
  }

  /** An operator of this level or a tighter one comes next, or an argument list. */
  predicate Extends(toks: Toks, i: nat, prec: nat) {
    i < |toks| && toks[i].OpTok? && Prec(toks[i].op) <= prec
  }

  lemma {:induction false} BinaryGood(toks: Toks, i: nat, id: nat, prec: nat)
    requires i <= |toks|
    ensures Good(ParseBinary(toks, i, id, prec), toks, i, id, prec)
    ensures var r := ParseBinary(toks, i, id, prec);
      r.Some? ==> !Extends(toks, r.value.i, prec) && !IsNext(toks, r.value.i, LParen)
    decreases |toks| - i, 2, prec
  {
    hide Spells, Number, Nodes, Unambiguous;
    if prec == 0 {
      PrefixGood(toks, i, id);
    } else {
      BinaryGood(toks, i, id, prec - 1);
      var p := ParseBinary(toks, i, id, prec - 1);
      if p.Some? {
        MoreBinaryGood(toks, p.value.tree, i, p.value.i, p.value.id, prec, id);
      }
    }
  }

  /** Two operands and the operator between them. */
  lemma {:induction false} JoinGood(toks: Toks, op: Op, left: Expr, right: Expr, i: nat, k: nat, j: nat, id: nat,
                                    prec: nat)
    requires i < k < j && k < |toks| && toks[k] == OpTok(op) && Prec(op) == prec
    requires Good(Some(Parse(left, k, id + Nodes(left))), toks, i, id, prec)
    requires Good(Some(Parse(right, j, id + Nodes(left) + Nodes(right))), toks, k + 1, id + Nodes(left), prec - 1)
    ensures var n := id + Nodes(left) + Nodes(right);
      Good(Some(Parse(Binary(n, op, left, right), j, n + 1)), toks, i, id, prec)
  {
    hide Tighter;
    if left.Binary? {
      TighterPrec(op, left.op);
    }
    if right.Binary? {
      TighterPrec(right.op, op);
    }
  }

  lemma {:induction false} MoreBinaryGood(toks: Toks, left: Expr, from: nat, i: nat, id: nat, prec: nat, start: nat)
    requires from < i <= |toks| && 1 <= prec && !Extends(toks, i, prec - 1) && !IsNext(toks, i, LParen)
    requires Good(Some(Parse(left, i, id)), toks, from, start, prec)
    ensures Good(MoreBinary(toks, left, i, id, prec), toks, from, start, prec)
    ensures var r := MoreBinary(toks, left, i, id, prec);
      r.Some? ==> !Extends(toks, r.value.i, prec) && !IsNext(toks, r.value.i, LParen)
    decreases |toks| - i, 3
  {
    hide Spells, Number, Unambiguous;
    if Extends(toks, i, prec) {
      BinaryGood(toks, i + 1, id, prec - 1);
      var p := ParseBinary(toks, i + 1, id, prec - 1);
      if p.Some? {
        JoinGood(toks, toks[i].op, left, p.value.tree, from, i, p.value.i, start, prec);
        MoreBinaryGood(toks, Binary(p.value.id, toks[i].op, left, p.value.tree), from, p.value.i, p.value.id + 1, prec,
                       start);
      }
    }
  }

  lemma {:induction false} PrefixGood(toks: Toks, i: nat, id: nat)
    requires i <= |toks|
    ensures Good(ParsePrefix(toks, i, id), toks, i, id, 0)
    ensures var r := ParsePrefix(toks, i, id); r.Some? ==> !IsNext(toks, r.value.i, LParen)
    decreases |toks| - i, 1
  {
    if IsNext(toks, i, NotTok) || IsNext(toks, i, MINUS) {
      PrefixGood(toks, i + 1, id);
    } else {
      var p := ParseOperand(toks, i, id);
      if p.Some? {
        MorePostfixGood(toks, p.value.tree, i, p.value.i, p.value.id, id);
      }
    }
  }

  lemma {:induction false} MorePostfixGood(toks: Toks, callee: Expr, from: nat, i: nat, id: nat, start: nat)
    requires from < i <= |toks| && IsPostfix(callee) && Good(Some(Parse(callee, i, id)), toks, from, start, 0)
    ensures Good(MorePostfix(toks, callee, i, id), toks, from, start, 0)
    ensures var r := MorePostfix(toks, callee, i, id); r.Some? ==> !IsNext(toks, r.value.i, LParen)
    decreases |toks| - i, 4
  {
    if IsNext(toks, i, LParen) {
      ArgsGood(toks, i + 1, id);
      var p := ParseArgs(toks, i + 1, id);
      if p.Some? {
        MorePostfixGood(toks, Call(p.value.id, callee, p.value.tree), from, p.value.i, p.value.id + 1, start);
      }
    }
  }

  lemma {:induction false} ArgsGood(toks: Toks, i: nat, id: nat)
    requires i <= |toks|
    ensures GoodArgs(ParseArgs(toks, i, id), toks, i, id)
    decreases |toks| - i, 6
  {
    hide Spells, Number, Nodes;
    if i < |toks| && !IsNext(toks, i, RParen) {
      BinaryGood(toks, i, id, 7);
      var p := ParseBinary(toks, i, id, 7);
      if p.Some? {
        MoreArgsGood(toks, p.value.i, p.value.id);
      }
    }
  }

  lemma {:induction false} MoreArgsGood(toks: Toks, i: nat, id: nat)
    requires i <= |toks|
    ensures GoodMore(MoreArgs(toks, i, id), toks, i, id)
    decreases |toks| - i, 5
  {
    hide Spells, Number, Nodes;
    if IsNext(toks, i, Comma) && !IsNext(toks, i + 1, RParen) {
      BinaryGood(toks, i + 1, id, 7);
      var p := ParseBinary(toks, i + 1, id, 7);
      if p.Some? {
        MoreArgsGood(toks, p.value.i, p.value.id);
        var q := MoreArgs(toks, p.value.i, p.value.id);
        if q.Some? {
          assert SpellsArgs(Cons(p.value.tree, q.value.tree), toks, i + 1, q.value.i);
        }
      }
    }
  }

  /** The language of the parser, exactly: it reads `n` tokens as a tree if and only if they say that tree,
    * the tree groups by tiers, and neither an operator nor an argument list follows. */
  lemma {:induction false} ParserExact(toks: Toks, id: nat, e: Expr, n: nat)
    ensures var r := ParseBinary(toks, 0, id, 7);
      r.Some? && r.value.tree == e && r.value.i == n <==>
      && Spells(e, toks, 0, n) && Unambiguous(e) && Number(e, id) == e
      && (n < |toks| ==> !toks[n].OpTok? && toks[n] != LParen)
  {
    BinaryGood(toks, 0, id, 7);
    if Spells(e, toks, 0, n) && Unambiguous(e) && Ends(toks, n, 7) {
      WholeRead(e, toks, 0, n, id, 7);
    }
  }

  predicate IsLeaf(t: Tok) {
    t.IdentTok? || t.IntTok? || t.StrTok?
  }

  /** The leaf a token stands for. */
  function Leaf(t: Tok, id: nat): Expr
    requires IsLeaf(t)
  {
    match t
    case IdentTok(name) => Ident(id, name)
    case IntTok(n) => Int(id, n)
    case StrTok(s) => Str(id, s)
  }

  lemma LeafSpells(t: Tok, id: nat, toks: Toks, i: nat)
    requires IsLeaf(t) && i < |toks| && toks[i] == t
    ensures var e := Leaf(t, id);
      Spells(e, toks, i, i + 1) && Unambiguous(e) && Number(e, id) == e && Nodes(e) == 1 && !e.Binary?
  {}

  /** An operation on two trees that stand on either side of its operator. */
  lemma {:induction false} JoinSpells(left: Expr, op: Op, right: Expr, toks: Toks, i: nat, k: nat, j: nat, id: nat)
    requires i < k < j <= |toks| && toks[k] == OpTok(op) && Spells(left, toks, i, k) && Spells(right, toks, k + 1, j)
    requires Number(left, id) == left && Number(right, id + Nodes(left)) == right
    ensures var e := Binary(id + Nodes(left) + Nodes(right), op, left, right);
      Spells(e, toks, i, j) && Number(e, id) == e && Nodes(e) == Nodes(left) + Nodes(right) + 1
  {}

  /** Of two operators the second takes the middle operand exactly if it is in a strictly tighter tier. */
  lemma {:induction false} TiersDecide(a: Tok, o: Op, b: Tok, q: Op, c: Tok, id: nat)
    requires IsLeaf(a) && IsLeaf(b) && IsLeaf(c)
    ensures var r := ParseBinary([a, OpTok(o), b, OpTok(q), c], 0, id, 7);
      && r.Some? && r.value.i == 5 && r.value.id == id + 5
      && r.value.tree == if Tighter(q, o)
        then Binary(id + 4, o, Leaf(a, id), Binary(id + 3, q, Leaf(b, id + 1), Leaf(c, id + 2)))
        else Binary(id + 4, q, Binary(id + 2, o, Leaf(a, id), Leaf(b, id + 1)), Leaf(c, id + 3))
  {
    hide ParseBinary, Tighter, Spells, Leaf, Number, Nodes;
    var toks := [a, OpTok(o), b, OpTok(q), c];
    LeafSpells(a, id, toks, 0);
    LeafSpells(b, id + 1, toks, 2);
    var l, m := Leaf(a, id), Leaf(b, id + 1);
    if Tighter(q, o) {
      LeafSpells(c, id + 2, toks, 4);
      JoinSpells(m, q, Leaf(c, id + 2), toks, 2, 3, 5, id + 1);
      var right := Binary(id + 3, q, m, Leaf(c, id + 2));
      JoinSpells(l, o, right, toks, 0, 1, 5, id);
      assert Unambiguous(right);
      ParserExact(toks, id, Binary(id + 4, o, l, right), 5);
    } else {
      LeafSpells(c, id + 3, toks, 4);
      JoinSpells(l, o, m, toks, 0, 1, 3, id);
      var left := Binary(id + 2, o, l, m);
      JoinSpells(left, q, Leaf(c, id + 3), toks, 0, 3, 5, id);
      assert Unambiguous(left);
      ParserExact(toks, id, Binary(id + 4, q, left, Leaf(c, id + 3)), 5);
    }
    BinaryGood(toks, 0, id, 7);
  }

  /** A prefix operator takes the first operand only. */
  lemma {:induction false} PrefixTightest(sign: bool, a: Tok, o: Op, b: Tok, id: nat)
    requires IsLeaf(a) && IsLeaf(b)
    ensures var r := ParseBinary([if sign then MINUS else NotTok, a, OpTok(o), b], 0, id, 7);
      && r.Some? && r.value.i == 4 && r.value.id == id + 4
      && var first := if sign then Negate(id + 1, Leaf(a, id)) else Not(id + 1, Leaf(a, id));
      r.value.tree == Binary(id + 3, o, first, Leaf(b, id + 2))
  {
    hide ParseBinary, Tighter, Leaf;
    var toks := [if sign then MINUS else NotTok, a, OpTok(o), b];
    LeafSpells(a, id, toks, 1);
    LeafSpells(b, id + 2, toks, 3);
    var first := if sign then Negate(id + 1, Leaf(a, id)) else Not(id + 1, Leaf(a, id));
    assert Spells(first, toks, 0, 2) && Number(first, id) == first && Nodes(first) == 2 && Unambiguous(first);
    JoinSpells(first, o, Leaf(b, id + 2), toks, 0, 2, 4, id);
    ParserExact(toks, id, Binary(id + 3, o, first, Leaf(b, id + 2)), 4);
    BinaryGood(toks, 0, id, 7);
  }

  // ---------- Printing and parsing ----------

  /** What is printed says what it was printed from. */
  lemma {:induction false} TokensSpell(e: Expr, front: Toks, back: Toks)
    ensures Spells(e, front + Tokens(e) + back, |front|, |front| + |Tokens(e)|)
    decreases e, 1
  {
    if e.Not? || e.Negate? {
      var t := Tokens(e)[0];
      TokensSpell(e.operand, front + [t], back);
      assert front + [t] + Tokens(e.operand) + back == front + Tokens(e) + back;
    } else if e.Binary? {
      TwoSpell(e, front, back);
    } else if e.Call? {
      CallSpell(e, front, back);
    }
  }

  lemma {:induction false} TwoSpell(e: Expr, front: Toks, back: Toks)
    requires e.Binary?
    ensures Spells(e, front + Tokens(e) + back, |front|, |front| + |Tokens(e)|)
    decreases e, 0
  {
    var all := front + Tokens(e) + back;
    var l, op, r := Tokens(e.left), [OpTok(e.op)], Tokens(e.right);
    TokensSpell(e.left, front, op + r + back);
    TokensSpell(e.right, front + l + op, back);
    assert front + l + (op + r + back) == all;
    assert front + l + op + r + back == all;
    assert all[|front| + |l|] == op[0];
  }

  lemma {:induction false} CallSpell(e: Expr, front: Toks, back: Toks)
    requires e.Call?
    ensures Spells(e, front + Tokens(e) + back, |front|, |front| + |Tokens(e)|)
    decreases e, 0
  {
    var all := front + Tokens(e) + back;
    var callee, args := Tokens(e.callee), ArgTokens(e.args) + [RParen];
    TokensSpell(e.callee, front, [LParen] + args + back);
    ArgTokensSpell(e.args, front + callee + [LParen], back);
    assert front + callee + ([LParen] + args + back) == all;
    assert front + callee + [LParen] + args + back == all;
    assert all[|front| + |callee|] == LParen;
  }

  lemma {:induction false} ArgTokensSpell(es: List<Expr>, front: Toks, back: Toks)
    ensures SpellsArgs(es, front + (ArgTokens(es) + [RParen]) + back, |front|, |front| + |ArgTokens(es)| + 1)
    decreases es, 1
  {
    hide Spells;
    var all, i := front + (ArgTokens(es) + [RParen]) + back, |front|;
    if es.Cons? {
      var a := Tokens(es.head);
      var k := i + |a|;
      if es.tail.Nil? {
        TokensSpell(es.head, front, [RParen] + back);
        assert front + a + ([RParen] + back) == all;
        assert SpellsMore(es.tail, all, k, k + 1);
      } else {
        var rest := ArgTokens(es.tail) + [RParen];
        TokensSpell(es.head, front, [Comma] + rest + back);
        ArgTokensSpell(es.tail, front + a + [Comma], back);
        assert ArgTokens(es) + [RParen] == a + [Comma] + rest;
        assert front + a + ([Comma] + rest + back) == all;
        assert front + a + [Comma] + rest + back == all;
        assert all[k] == Comma;
        assert SpellsMore(es.tail, all, k, k + 1 + |rest|);
      }
    }
  }

  /** The parser inverts printing: the tokens of a tree, with anything after them that cannot extend
    * an expression, parse to that tree, and to no more than its tokens. */
  lemma {:induction false} ParseInvertsPrint(e: Expr, rest: Toks, id: nat)
    requires Unambiguous(e)
    requires rest == [] || (!rest[0].OpTok? && rest[0] != LParen)
    ensures ParseBinary(Tokens(e) + rest, 0, id, 7) == Some(Parse(Number(e, id), |Tokens(e)|, id + Nodes(e)))
  {
    var toks := Tokens(e) + rest;
    TokensSpell(e, [], rest);
    assert [] + Tokens(e) + rest == toks;
    WholeRead(e, toks, 0, |Tokens(e)|, id, 7);
  }

  /** Whatever the parser accepts is a tree that respects the precedence table, with its ids in
    * order: printing it and parsing again gives the same tree. */
  lemma {:induction false} ParsedIsPrintable(toks: Toks, id: nat)
    ensures var r := ParseBinary(toks, 0, id, 7);
      r.Some? ==> var e := r.value.tree;
        Unambiguous(e) && ParseBinary(Tokens(e), 0, id, 7) == Some(Parse(e, |Tokens(e)|, r.value.id))
  {
    BinaryGood(toks, 0, id, 7);
    var r := ParseBinary(toks, 0, id, 7);
    if r.Some? {
      ParseInvertsPrint(r.value.tree, [], id);
      assert Tokens(r.value.tree) + [] == Tokens(r.value.tree);
    }
  }
}
