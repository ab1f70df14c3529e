/** Machine values, word arithmetic and calls, shared by every level of the compiler.
  *
  * Arithmetic is 64-bit two's complement.  A value is a word, the address of an interned
  * string, the address of a function, or `Undef`: what a slot holds before its first store.
  */
module Values {

  datatype Option<+T> = None | Some(value: T)

  datatype Value = Word(n: int) | StrRef(s: string) | FnRef(f: nat) | Undef

  datatype BinOp = Lt | Gt | Le | Ge | Eq | Ne | Add | Sub | Mul | Div | Mod

  const TWO_63: int := 0x8000_0000_0000_0000
  const TWO_64: int := 0x1_0000_0000_0000_0000

  /** The word that the low 64 bits of `n` spell. */
  function Wrap64(n: int): (w: int)
    ensures -TWO_63 <= w < TWO_63
    ensures (n - w) % TWO_64 == 0
  {
    var m := n % TWO_64;
    if m < TWO_63 then m else m - TWO_64
  }

  /** Division that truncates toward zero, as `idiv` does. */
  function TruncDiv(a: int, b: int): (q: int)
    requires b != 0
  {
    if a >= 0 then a / b else -((-a) / b)
  }

  /** What a binary operation leaves, or None where the machine faults (a zero divisor, or a
    * quotient that does not fit a word) or where an operand is no word. */
  function Apply(op: BinOp, l: Value, r: Value): Option<Value>
  {
    if !l.Word? || !r.Word? then None else
    match op
    case Lt => Some(Flag(l.n < r.n))
    case Gt => Some(Flag(l.n > r.n))
    case Le => Some(Flag(l.n <= r.n))
    case Ge => Some(Flag(l.n >= r.n))
    case Eq => Some(Flag(l.n == r.n))
    case Ne => Some(Flag(l.n != r.n))
    case Add => Some(Word(Wrap64(l.n + r.n)))
    case Sub => Some(Word(Wrap64(l.n - r.n)))
    case Mul => Some(Word(Wrap64(l.n * r.n)))
    case Div =>
      if r.n == 0 || TruncDiv(l.n, r.n) >= TWO_63 then None else Some(Word(TruncDiv(l.n, r.n)))
    case Mod =>
      if r.n == 0 || TruncDiv(l.n, r.n) >= TWO_63 then None
      else Some(Word(l.n - r.n * TruncDiv(l.n, r.n)))
  }

  function Flag(b: bool): Value {
    Word(if b then 1 else 0)
  }

  /** The value of an integer literal. */
  function Literal(n: int): Value {
    Word(Wrap64(n))
  }

  /** How a conditional jump goes: addresses are never zero, and branching on an
    * uninitialised slot has no defined direction (None). */
  function Test(v: Value): Option<bool> {
    match v
    case Word(n) => Some(n != 0)
    case StrRef(_) => Some(true)
    case FnRef(_) => Some(true)
    case Undef => None
  }

  /** A call of an external function, seen from outside the program. */
  datatype Event = Event(f: nat, args: seq<Value>)

  type World = seq<Event>

  /** How running a function ends: with a value, with a fault, never (`Hung`), or not at all
    * because the code was malformed (`Stuck`: stack underflow, unset register, unknown label).
    * `after` is what the call leaves in the argument words the caller pushed: they are the
    * callee's parameter slots, which the callee may overwrite. */
  datatype Reply = Returned(v: Value, after: seq<Value>, w: World) | Trapped | Hung | Stuck

  /** What calling a function with arguments does to the world. */
  type Callee = (nat, seq<Value>, World) -> Reply

  /** A run bounded by fuel. */
  datatype Outcome = Halt(reply: Reply) | Timeout

  ghost predicate SameCallee(c: Callee, d: Callee) {
    forall f: nat, args, w :: c(f, args, w) == d(f, args, w)
  }

  /** Calling a value: only the address of a function can be called. */
  function Invoke(call: Callee, f: Value, args: seq<Value>, w: World): Reply {
    if f.FnRef? then call(f.f, args, w) else Trapped
  }

  function Get<K(==)>(m: map<K, Value>, k: K): Value {
    if k in m then m[k] else Undef
  }
}
