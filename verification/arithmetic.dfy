/** What the operators compute on words, said without the function that computes it. */
module Arithmetic {
  import opened Values

  predicate Fits(n: int) {
    -TWO_63 <= n < TWO_63
  }

  /** A comparison answers one. */
  predicate Yes(op: BinOp, a: int, b: int) {
    Apply(op, Word(a), Word(b)) == Some(Word(1))
  }

  predicate IsComparison(op: BinOp) {
    op in {Lt, Gt, Le, Ge, Eq, Ne}
  }

  /** A comparison of words answers one or zero. */
  lemma YesOrNo(op: BinOp, a: int, b: int)
    requires IsComparison(op)
    ensures Apply(op, Word(a), Word(b)) == Some(Word(if Yes(op, a, b) then 1 else 0))
  {}

  /** `<` is a strict order in which every word is below its successor. */
  lemma LessIsOrder(a: int, b: int, c: int)
    ensures !Yes(Lt, a, a) && Yes(Lt, a, a + 1)
    ensures Yes(Lt, a, b) ==> !Yes(Lt, b, a)
    ensures Yes(Lt, a, b) && Yes(Lt, b, c) ==> Yes(Lt, a, c)
  {}

  /** Exactly one of `<`, `==` and `>` holds, and the other three follow from these. */
  lemma ComparisonsAgree(a: int, b: int)
    ensures Yes(Eq, a, b) <==> a == b
    ensures Yes(Eq, a, b) ==> !Yes(Lt, a, b) && !Yes(Gt, a, b)
    ensures !Yes(Eq, a, b) ==> (Yes(Lt, a, b) <==> !Yes(Gt, a, b))
    ensures Yes(Gt, a, b) <==> Yes(Lt, b, a)
    ensures Yes(Le, a, b) <==> Yes(Lt, a, b) || Yes(Eq, a, b)
    ensures Yes(Ge, a, b) <==> Yes(Le, b, a)
    ensures Yes(Ne, a, b) <==> !Yes(Eq, a, b)
  {}

  /** So `<` is the order of the integers: the laws leave nothing else. */
  lemma {:induction false} LessIsLess(a: int, b: int)
    ensures Yes(Lt, a, b) <==> a < b
    decreases if a < b then b - a else a - b, a > b
  {
    if a < b {
      LessIsOrder(a, b - 1, b);
      LessIsOrder(b - 1, b, b);
      if a < b - 1 {
        LessIsLess(a, b - 1);
      }
    } else if b < a {
      LessIsLess(b, a);
      LessIsOrder(b, a, a);
    } else {
      LessIsOrder(a, a, a);
    }
  }

  /** Sums, differences and products are the integers' wherever these fit, and otherwise differ from them
    * by a multiple of the number of words. */
  lemma {:induction false} RingOperations(a: int, b: int)
    ensures forall op :: op in {Add, Sub, Mul} ==>
      Apply(op, Word(a), Word(b)).Some? && Apply(op, Word(a), Word(b)).value.Word? &&
        Fits(Apply(op, Word(a), Word(b)).value.n)
    ensures (a + b - Apply(Add, Word(a), Word(b)).value.n) % TWO_64 == 0
    ensures (a - b - Apply(Sub, Word(a), Word(b)).value.n) % TWO_64 == 0
    ensures (a * b - Apply(Mul, Word(a), Word(b)).value.n) % TWO_64 == 0
    ensures Fits(a + b) ==> Apply(Add, Word(a), Word(b)) == Some(Word(a + b))
    ensures Fits(a - b) ==> Apply(Sub, Word(a), Word(b)) == Some(Word(a - b))
    ensures Fits(a * b) ==> Apply(Mul, Word(a), Word(b)) == Some(Word(a * b))
  {
    WrapFits(a + b);
    WrapFits(a - b);
    WrapFits(a * b);
  }

  /** A word is determined by its distance from an integer. */
  lemma WrapFits(n: int)
    ensures Fits(n) ==> Wrap64(n) == n
  {}

  lemma {:induction false} SameWord(n: int, v: int, w: int)
    requires Fits(v) && Fits(w) && (n - v) % TWO_64 == 0 && (n - w) % TWO_64 == 0
    ensures v == w
  {
    var i, j := (n - v) / TWO_64, (n - w) / TWO_64;
    assert v - w == TWO_64 * (j - i);
  }

  /** A literal is the word that its low bits spell. */
  lemma Literals(n: int)
    ensures Literal(n).Word? && Fits(Literal(n).n) && (n - Literal(n).n) % TWO_64 == 0
    ensures Fits(n) ==> Literal(n) == Word(n)
  {}

  lemma AddMultiples(i: int, j: int)
    requires i % TWO_64 == 0 && j % TWO_64 == 0
    ensures (i + j) % TWO_64 == 0
  {
    assert i == TWO_64 * (i / TWO_64) && j == TWO_64 * (j / TWO_64);
  }

  /** Wrapping may wait. */
  lemma {:induction false} WrapSum(a: int, b: int)
    ensures Wrap64(a + Wrap64(b)) == Wrap64(a + b)
  {
    hide Wrap64;
    var v := Wrap64(a + Wrap64(b));
    AddMultiples(b - Wrap64(b), a + Wrap64(b) - v);
    SameWord(a + b, v, Wrap64(a + b));
  }

  /** A quotient and a remainder of truncating division. */
  predicate Divides(l: int, r: int, q: int, m: int) {
    && l == r * q + m
    && (if r < 0 then r < m < -r else -r < m < r)
    && (m == 0 || (m < 0 <==> l < 0))
  }

  /** `/` and `%` have a value exactly where the machine does not fault, and it is the quotient and the
    * remainder that has the sign of the dividend. */
  lemma {:induction false} Division(l: int, r: int)
    requires Fits(l) && Fits(r)
    ensures Apply(Div, Word(l), Word(r)).Some? <==> r != 0 && !(l == -TWO_63 && r == -1)
    ensures Apply(Mod, Word(l), Word(r)).Some? <==> Apply(Div, Word(l), Word(r)).Some?
    ensures Apply(Div, Word(l), Word(r)).Some? ==>
      var q, m := Apply(Div, Word(l), Word(r)).value, Apply(Mod, Word(l), Word(r)).value;
      q.Word? && m.Word? && Divides(l, r, q.n, m.n) && Fits(q.n) && Fits(m.n)
  {
    if r != 0 {
      TruncIsDivision(l, r);
      QuotientFits(l, r, TruncDiv(l, r), l - r * TruncDiv(l, r));
    }
  }

  lemma {:induction false} TruncIsDivision(l: int, r: int)
    requires r != 0
    ensures Divides(l, r, TruncDiv(l, r), l - r * TruncDiv(l, r))
  {
    if l >= 0 {
      assert l == r * (l / r) + l % r;
    } else {
      assert -l == r * ((-l) / r) + (-l) % r;
      assert r * -((-l) / r) == -(r * ((-l) / r));
    }
  }

  /** A quotient is no larger than its dividend, and only the least word by -1 has none. */
  lemma {:induction false} QuotientFits(l: int, r: int, q: int, m: int)
    requires Fits(l) && Fits(r) && r != 0 && Divides(l, r, q, m)
    ensures q < TWO_63 <==> !(l == -TWO_63 && r == -1)
    ensures -TWO_63 <= q && Fits(m)
  {
    QuotientSmaller(l, r, q, m);
    if r == -1 {
      assert m == 0 && q == -l;
    } else if r == 1 {
      assert m == 0 && q == l;
    }
  }

  lemma {:induction false} QuotientSmaller(l: int, r: int, q: int, m: int)
    requires r != 0 && Divides(l, r, q, m)
    ensures r != 1 && r != -1 && l != 0 ==> (if q < 0 then -q else q) < (if l < 0 then -l else l)
    ensures l == 0 ==> q == 0 && m == 0
    ensures (if m < 0 then -m else m) <= (if l < 0 then -l else l)
  {
    var x, y, z := if l < 0 then -l else l, if r < 0 then -r else r, if q < 0 then -q else q;
    var k := if m < 0 then -m else m;
    Magnitudes(l, r, q, m, x, y, z, k);
    Smaller(x, y, z, k);
  }

  lemma Smaller(x: nat, y: nat, z: nat, k: nat)
    requires x == y * z + k && k < y
    ensures (y >= 2 && x > 0 ==> z < x) && (x == 0 ==> z == 0 && k == 0) && k <= x
  {
    if z >= 1 {
      MulAtLeast(y, z);
      MulAtLeast(z, y);
      if y >= 2 {
        MulAtLeast(z, y - 1);
        assert y * z == z + (y - 1) * z;
      }
    }
  }

  /** Truncating division is division of the magnitudes. */
  lemma {:induction false} Magnitudes(l: int, r: int, q: int, m: int, x: nat, y: nat, z: nat, k: nat)
    requires r != 0 && Divides(l, r, q, m)
    requires x == (if l < 0 then -l else l) && y == (if r < 0 then -r else r)
    requires z == (if q < 0 then -q else q) && k == (if m < 0 then -m else m)
    ensures x == y * z + k && k < y
  {
    var p := r * q;
    assert p == (if (r < 0) == (q < 0) then y * z else -(y * z)) by {
      if r < 0 && q < 0 { assert (-r) * (-q) == r * q; }
      if r < 0 && q >= 0 { assert (-r) * q == -(r * q); }
      if r >= 0 && q < 0 { assert r * (-q) == -(r * q); }
    }
    if q != 0 {
      assert y * z >= y by { assert z >= 1; MulAtLeast(y, z); }
    }
  }

  lemma MulAtLeast(y: nat, z: nat)
    requires z >= 1
    ensures y * z >= y
  {
    assert y * z == y + y * (z - 1);
  }

  /** Nothing but words is calculated with or compared. */
  lemma OnlyWords(op: BinOp, l: Value, r: Value)
    ensures Apply(op, l, r).Some? ==> l.Word? && r.Word?
    ensures l.Word? && r.Word? && !op.Div? && !op.Mod? ==> Apply(op, l, r).Some?
  {}

  /** A branch is taken on every word but zero, and on every address; a slot never set decides nothing. */
  lemma Branching(v: Value)
    ensures Test(v) == Some(false) <==> v == Word(0)
    ensures Test(v).None? <==> v == Undef
  {}
}
