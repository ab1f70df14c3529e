/** The expression parser as the compiler runs it: a position and an id counter that move. */
module ParserClass {
  import opened Values
  import opened Ast
  import opened ParserSpec

  /** The table the loop goes through, loosest first. */
  const OPS: seq<(Op, nat)> := [
    (Or, 7), (Xor, 6), (And, 5), (Bin(Lt), 4), (Bin(Gt), 4), (Bin(Le), 4), (Bin(Ge), 4), (Bin(Eq), 3), (Bin(Ne), 3),
    (Bin(Add), 2), (Bin(Sub), 2), (Bin(Mul), 1), (Bin(Div), 1), (Bin(Mod), 1)]

  lemma TableIsPrec(k: nat)
    requires k < |OPS|
    ensures OPS[k].1 == Prec(OPS[k].0)
  {}

  /** Every operator is in the table. */
  lemma TableIsComplete(op: Op) returns (k: nat)
    ensures k < |OPS| && OPS[k].0 == op
  {
    k := match op
      case Or => 0
      case Xor => 1
      case And => 2
      case Bin(Lt) => 3
      case Bin(Gt) => 4
      case Bin(Le) => 5
      case Bin(Ge) => 6
      case Bin(Eq) => 7
      case Bin(Ne) => 8
      case Bin(Add) => 9
      case Bin(Sub) => 10
      case Bin(Mul) => 11
      case Bin(Div) => 12
      case Bin(Mod) => 13;
  }

  class Parser {
    const toks: Toks
    var i: nat
    var exprIds: nat

    constructor (toks: Toks)
      ensures this.toks == toks && i == 0 && exprIds == 0
    {
      this.toks := toks;
      i, exprIds := 0, 0;
    }

    /** The token is next: take it. */
    method Eat(t: Tok) returns (eaten: bool)
      requires i <= |toks|
      modifies this`i
      ensures eaten == IsNext(toks, old(i), t) && i == old(i) + (if eaten then 1 else 0)
    {
      eaten := i < |toks| && toks[i] == t;
      if eaten {
        i := i + 1;
      }
    }

    method NewId() returns (id: nat)
      modifies this`exprIds
      ensures id == old(exprIds) && exprIds == id + 1
    {
      id := exprIds;
      exprIds := exprIds + 1;
    }

    /** What came out is what the specification says, and so are the fields; None is an exception. */
    ghost predicate Means<T>(r: Option<T>, p: Option<Parse<T>>)
      reads this
    {
      if p.Some? then r == Some(p.value.tree) && i == p.value.i && exprIds == p.value.id else r.None?
    }

    method ParseExpr() returns (r: Option<Expr>)
      requires i <= |toks|
      modifies this
      ensures Means(r, ParseBinary(toks, old(i), old(exprIds), 7))
      decreases |toks| - i, 2, 8
    {
      r := ParseBinaryExpr(7);
    }

    method ParseBinaryExpr(prec: nat) returns (r: Option<Expr>)
      requires i <= |toks|
      modifies this
      ensures Means(r, ParseBinary(toks, old(i), old(exprIds), prec))
      decreases |toks| - i, 2, prec
    {
      if prec == 0 {
        r := ParsePrefixExpr();
        return;
      }
      var first := ParseBinaryExpr(prec - 1);
      if first.None? {
        return None;
      }
      var left := first.value;
      ghost var goal := ParseBinary(toks, old(i), old(exprIds), prec);
      while true
        invariant old(i) < i <= |toks|
        invariant MoreBinary(toks, left, i, exprIds, prec) == goal
        decreases |toks| - i
      {
        var op := EatOperator(prec);
        if op.None? {
          break;
        }
        var right := ParseBinaryExpr(prec - 1);
        if right.None? {
          return None;
        }
        var id := NewId();
        left := Binary(id, op.value, left, right.value);
      }
      r := Some(left);
    }

    /** The first operator of the table that is allowed at this level and comes next. */
    method EatOperator(prec: nat) returns (op: Option<Op>)
      requires i <= |toks|
      modifies this`i
      ensures op.Some? <==> old(i) < |toks| && toks[old(i)].OpTok? && Prec(toks[old(i)].op) <= prec
      ensures op.Some? ==> toks[old(i)] == OpTok(op.value) && i == old(i) + 1
      ensures op.None? ==> i == old(i)
    {
      var k := 0;
      while k < |OPS|
        invariant 0 <= k <= |OPS| && i == old(i)
        invariant forall m :: 0 <= m < k ==> !(prec >= OPS[m].1 && IsNext(toks, i, OpTok(OPS[m].0)))
      {
        TableIsPrec(k);
        if prec >= OPS[k].1 {
          var eaten := Eat(OpTok(OPS[k].0));
          if eaten {
            return Some(OPS[k].0);
          }
        }
        k := k + 1;
      }
      if i < |toks| && toks[i].OpTok? {
        var m := TableIsComplete(toks[i].op);
        TableIsPrec(m);
      }
      op := None;
    }

    method ParsePrefixExpr() returns (r: Option<Expr>)
      requires i <= |toks|
      modifies this
      ensures Means(r, ParsePrefix(toks, old(i), old(exprIds)))
      decreases |toks| - i, 1
    {
      var isNot := Eat(NotTok);
      if isNot {
        var operand := ParsePrefixExpr();
        if operand.None? {
          return None;
        }
        var id := NewId();
        return Some(Not(id, operand.value));
      }
      var isMinus := Eat(MINUS);
      if isMinus {
        var operand := ParsePrefixExpr();
        if operand.None? {
          return None;
        }
        var id := NewId();
        return Some(Negate(id, operand.value));
      }
      r := ParsePostfixExpr();
    }

    method ParsePostfixExpr() returns (r: Option<Expr>)
      requires i <= |toks|
      modifies this
      ensures Means(r, ParsePostfix(toks, old(i), old(exprIds)))
      decreases |toks| - i, 0
    {
      var operand := ParseOperandExpr();
      if operand.None? {
        return None;
      }
      var expr := operand.value;
      ghost var goal := ParsePostfix(toks, old(i), old(exprIds));
      while true
        invariant old(i) < i <= |toks|
        invariant MorePostfix(toks, expr, i, exprIds) == goal
        decreases |toks| - i
      {
        var isCall := Eat(LParen);
        if !isCall {
          break;
        }
        var args := ParseCallArgs();
        if args.None? {
          return None;
        }
        var id := NewId();
        expr := Call(id, expr, args.value);
      }
      r := Some(expr);
    }

    /** Arguments and the closing parenthesis. */
    method ParseCallArgs() returns (r: Option<List<Expr>>)
      requires i <= |toks|
      modifies this
      ensures Means(r, ParseArgs(toks, old(i), old(exprIds)))
      decreases |toks| - i, 3
    {
      ghost var goal := ParseArgs(toks, old(i), old(exprIds));
      var args: seq<Expr> := [];
      if i < |toks| && toks[i] != RParen {
        var first := ParseExpr();
        if first.None? {
          return None;
        }
        PrependOne(args, first.value, MoreArgs(toks, i, exprIds));
        args := args + [first.value];
        while i < |toks| && toks[i] != RParen
          invariant old(i) < i <= |toks|
          invariant Prepended(args, MoreArgs(toks, i, exprIds)) == goal
          decreases |toks| - i
        {
          var isComma := Eat(Comma);
          if !isComma {
            return None;
          }
          if i < |toks| && toks[i] == RParen {
            break;
          }
          var arg := ParseExpr();
          if arg.None? {
            return None;
          }
          PrependOne(args, arg.value, MoreArgs(toks, i, exprIds));
          args := args + [arg.value];
        }
      }
      var closed := Eat(RParen);
      if !closed {
        return None;
      }
      r := Some(FromSeq(args, Nil));
    }

    method ParseOperandExpr() returns (r: Option<Expr>)
      requires i <= |toks|
      modifies this
      ensures Means(r, ParseOperand(toks, old(i), old(exprIds)))
    {
      if i == |toks| {
        return None;
      }
      match toks[i] {
        case IdentTok(name) =>
          i := i + 1;
          var id := NewId();
          r := Some(Ident(id, name));
        case IntTok(n) =>
          i := i + 1;
          var id := NewId();
          r := Some(Int(id, n));
        case StrTok(s) =>
          i := i + 1;
          var id := NewId();
          r := Some(Str(id, s));
        case _ => r := None;
      }
    }
  }

  /** The elements of a sequence, then a list. */
  function FromSeq<T>(xs: seq<T>, rest: List<T>): List<T> {
    if xs == [] then rest else Cons(xs[0], FromSeq(xs[1..], rest))
  }

  function Prepended(args: seq<Expr>, p: Option<Parse<List<Expr>>>): Option<Parse<List<Expr>>> {
    match p
    case None => None
    case Some(q) => Some(Parse(FromSeq(args, q.tree), q.i, q.id))
  }

  lemma {:induction false} FromSeqOne<T>(xs: seq<T>, x: T, rest: List<T>)
    ensures FromSeq(xs + [x], rest) == FromSeq(xs, Cons(x, rest))
    decreases |xs|
  {
    if xs == [] {
      assert [x][1..] == [];
      assert xs + [x] == [x];
      assert FromSeq([x][1..], rest) == rest;
    } else {
      assert (xs + [x])[1..] == xs[1..] + [x];
      FromSeqOne(xs[1..], x, rest);
    }
  }

  lemma {:induction false} PrependOne(args: seq<Expr>, x: Expr, p: Option<Parse<List<Expr>>>)
    ensures Prepended(args + [x], p) == (match p case None => None case Some(q) => Some(Parse(FromSeq(args,
      Cons(x, q.tree)), q.i, q.id)))
  {
    if p.Some? {
      FromSeqOne(args, x, p.value.tree);
    }
  }
}
