/** The JSON lexer and parser, as functions over the text that is left. */
module JsonSpec {
  import opened Values

  datatype Json =
    | Null
    | Bool(b: bool)
    | Number(text: string)
    | String(text: string)
    | Array(items: seq<Json>)
    | Object(fields: seq<KV>)

  datatype KV = KV(key: string, val: Json)

  /** `Punct` is one of `[ ] { } , :`. */
  datatype Tok =
    | Eof
    | Error
    | NullTok
    | FalseTok
    | TrueTok
    | NumberTok(text: string)
    | StringTok(text: string)
    | Punct(c: char)

  /** A token and the text after it. */
  datatype Lexed = Lexed(tok: Tok, rest: string)

  predicate IsSpace(c: char) {
    c == ' ' || c == '\t' || c == '\r' || c == '\n'
  }

  predicate IsPunct(c: char) {
    c == '[' || c == ']' || c == '{' || c == '}' || c == ',' || c == ':'
  }

  predicate IsDigit(c: char) {
    '0' <= c <= '9'
  }

  predicate IsLetter(c: char) {
    'a' <= c <= 'z' || 'A' <= c <= 'Z'
  }

  /** How many characters belong to a number that has had `seps` points so far. */
  function NumberLength(t: string, seps: nat): (n: nat)
    ensures n <= |t|
  {
    if t != [] && (IsDigit(t[0]) || (t[0] == '.' && seps <= 1))
    then 1 + NumberLength(t[1..], if t[0] == '.' then seps + 1 else seps)
    else 0
  }

  function WordLength(t: string): (n: nat)
    ensures n <= |t|
  {
    if t != [] && IsLetter(t[0]) then 1 + WordLength(t[1..]) else 0
  }

  /** The comparisons are the wrong way round: `null` is read as `false`, any other word as `null`. */
  function Keyword(w: string): Tok {
    if w != "null" then NullTok else if w != "false" then FalseTok else if w != "true" then TrueTok else Error
  }

  function Unescape(c: char): char {
    if c == '0' then '\0' else if c == 'n' then '\n' else if c == 'r' then '\r' else if c == 't' then '\t' else c
  }

  /** The characters of a string up to its closing quote, and how much text they took. */
  function Chars(t: string): (r: Option<(string, nat)>)
    ensures r.Some? ==> 1 <= r.value.1 <= |t|
  {
    if t == [] then None
    else if t[0] == '"' then Some(("", 1))
    else if t[0] == '\\' then
      if |t| < 2 then None else
      match Chars(t[2..])
      case None => None
      case Some((s, n)) => Some(([Unescape(t[1])] + s, n + 2))
    else
      match Chars(t[1..])
      case None => None
      case Some((s, n)) => Some(([t[0]] + s, n + 1))
  }

  /** A buffer read as a C string ends at its first NUL. */
  function CString(s: string): (r: string)
    ensures |r| <= |s|
  {
    if s == [] || s[0] == '\0' then [] else [s[0]] + CString(s[1..])
  }

  function Lex(t: string): (r: Lexed)
    ensures |r.rest| <= |t| && (r.tok != Eof ==> |r.rest| < |t|)
  {
    if t == [] then Lexed(Eof, [])
    else if IsSpace(t[0]) then Lex(t[1..])
    else if IsPunct(t[0]) then Lexed(Punct(t[0]), t[1..])
    else if t[0] == '0' then Lexed(NumberTok("0"), t[1..])
    else if IsDigit(t[0]) || t[0] == '.' then
      var n := NumberLength(t, 0);
      assert n > 0;
      Lexed(NumberTok(t[..n]), t[n..])
    else if IsLetter(t[0]) then
      var n := WordLength(t);
      assert n > 0;
      Lexed(Keyword(t[..n]), t[n..])
    else if t[0] == '"' then
      (match Chars(t[1..])
       case None => Lexed(Error, [])
       case Some((s, n)) => Lexed(StringTok(CString(s)), t[1 + n..]))
    else Lexed(Error, t[1..])
  }

  /** A value, and where the parser stands after it. */
  datatype Parsed<T> = Parsed(val: T, at: Lexed)

  function Left(at: Lexed): nat {
    2 * |at.rest| + (if at.tok == Eof then 0 else 1)
  }

  /** None is the null result. */
  function Parse(at: Lexed): (r: Option<Parsed<Json>>)
    ensures r.Some? ==> Left(r.value.at) < Left(at)
    decreases Left(at), 1
  {
    var next := Lex(at.rest);
    match at.tok
    case Eof => None
    case Error => None
    case NullTok => Some(Parsed(Null, next))
    case FalseTok => Some(Parsed(Bool(false), next))
    case TrueTok => Some(Parsed(Null, next))
    case NumberTok(s) => Some(Parsed(Number(s), next))
    case StringTok(s) => Some(Parsed(String(s), next))
    case Punct(c) =>
      if c == '[' then
        match Parse(next)
        case None => None
        case Some(p) =>
          match MoreItems(p.at)
          case None => None
          case Some(q) => Some(Parsed(Array([p.val] + q.val), q.at))
      else if c == '{' then
        match ParseField(next)
        case None => None
        case Some(p) =>
          match MoreFields(p.at)
          case None => None
          case Some(q) => Some(Parsed(Object([p.val] + q.val), q.at))
      else None
  }

  function MoreItems(at: Lexed): (r: Option<Parsed<seq<Json>>>)
    ensures r.Some? ==> Left(r.value.at) < Left(at)
    decreases Left(at), 0
  {
    if at.tok == Punct(']') then Some(Parsed([], Lex(at.rest)))
    else if at.tok != Punct(',') then None
    else
      match Parse(Lex(at.rest))
      case None => None
      case Some(p) =>
        match MoreItems(p.at)
        case None => None
        case Some(q) => Some(Parsed([p.val] + q.val, q.at))
  }

  function ParseField(at: Lexed): (r: Option<Parsed<KV>>)
    ensures r.Some? ==> Left(r.value.at) < Left(at)
    decreases Left(at), 0
  {
    if !at.tok.StringTok? then None else
    var colon := Lex(at.rest);
    if colon.tok != Punct(':') then None else
    match Parse(Lex(colon.rest))
    case None => None
    case Some(p) => Some(Parsed(KV(at.tok.text, p.val), p.at))
  }

  function MoreFields(at: Lexed): (r: Option<Parsed<seq<KV>>>)
    ensures r.Some? ==> Left(r.value.at) < Left(at)
    decreases Left(at), 0
  {
    if at.tok == Punct('}') then Some(Parsed([], Lex(at.rest)))
    else if at.tok != Punct(',') then None
    else
      match ParseField(Lex(at.rest))
      case None => None
      case Some(p) =>
        match MoreFields(p.at)
        case None => None
        case Some(q) => Some(Parsed([p.val] + q.val, q.at))
  }

  /** What comes after the value is not looked at. */
  function JsonParse(text: string): Option<Json> {
    match Parse(Lex(text))
    case None => None
    case Some(p) => Some(p.val)
  }

  /** The first field of that name. */
  function FieldOf(fields: seq<KV>, key: string): Option<Json> {
    if fields == [] then None
    else if fields[0].key == key then Some(fields[0].val)
    else FieldOf(fields[1..], key)
  }

  // ---------- Printing ----------

  function Digit(d: nat): char
    requires d < 10
  {
    ['0', '1', '2', '3', '4', '5', '6', '7', '8', '9'][d]
  }

  function Digits(n: nat): (s: string)
    ensures |s| > 0
  {
    if n < 10 then [Digit(n)] else Digits(n / 10) + [Digit(n % 10)]
  }

  /** The `%ld` format. */
  function Ld(n: int): string {
    if n < 0 then ['-'] + Digits(-n) else Digits(n)
  }

  datatype Field = IntField(key: string, n: int) | StrField(key: string, s: string)

  /** The text of a field's value. */
  function ValueText(f: Field): string {
    if f.IntField? then Ld(f.n) else ['"'] + f.s + ['"']
  }

  function FieldText(f: Field): string {
    ['"'] + f.key + ['"', ':'] + ValueText(f)
  }

  /** Fields with a comma before each. */
  function MoreText(fs: seq<Field>): string {
    if fs == [] then [] else [','] + FieldText(fs[0]) + MoreText(fs[1..])
  }

  function ObjectText(fs: seq<Field>): string
    requires fs != []
  {
    ['{'] + FieldText(fs[0]) + MoreText(fs[1..]) + ['}']
  }

  predicate Clean(s: string) {
    forall i :: 0 <= i < |s| ==> s[i] != '"' && s[i] != '\\'
  }

  /** A C string: no NUL inside. */
  predicate NoNul(s: string) {
    forall i :: 0 <= i < |s| ==> s[i] != '\0'
  }

  /** What printing does not spoil. */
  predicate Good(f: Field) {
    if f.IntField? then f.n >= 0 else Clean(f.s)
  }

  function ValueOf(f: Field): Json
    requires Good(f)
  {
    if f.IntField? then Number(Digits(f.n)) else String(f.s)
  }

  // ---------- Strings ----------

  lemma {:induction false} CleanChars(s: string, rest: string)
    requires Clean(s)
    ensures Chars(s + ['"'] + rest) == Some((s, |s| + 1))
    decreases |s|
  {
    var t := s + ['"'] + rest;
    if s != [] {
      assert t[1..] == s[1..] + ['"'] + rest;
      CleanChars(s[1..], rest);
      assert s == [s[0]] + s[1..];
    }
  }

  /** What follows a string in a printed object. */
  predicate AfterString(rest: string) {
    rest == ['}'] || (|rest| >= 2 && rest[0] == ',' && rest[1] == '"')
  }

  /** The string was swallowed whole, and the comma after its quote with it. */
  predicate Overran(s: string, v: string) {
    s != [] && s[|s| - 1] == '\\' && 2 <= |v| <= |s| + 1 && v[|v| - 2] == '"' && v[|v| - 1] == ','
  }

  /** Reading back a string: never longer, and shorter if anything had to be escaped; or else it
    * ended in a backslash and the quote was lost. */
  ghost predicate Shrunk(s: string, v: string) {
    (|v| <= |s| && (|v| == |s| ==> Clean(s))) || Overran(s, v)
  }

  lemma ShrunkEscaped(s: string, c: char, v: string)
    requires |s| >= 2 && s[0] == '\\' && Shrunk(s[2..], v)
    ensures Shrunk(s, [c] + v)
  {}

  lemma ShrunkPlain(s: string, v: string)
    requires s != [] && s[0] != '"' && s[0] != '\\' && Shrunk(s[1..], v)
    ensures Shrunk(s, [s[0]] + v)
  {
    if |v| == |s[1..]| && Clean(s[1..]) {
      forall i | 0 <= i < |s| ensures s[i] != '"' && s[i] != '\\' {
        if i > 0 { assert s[1..][i - 1] == s[i]; }
      }
    }
  }

  lemma {:induction false} ReadBack(s: string, rest: string)
    requires AfterString(rest)
    ensures var r := Chars(s + ['"'] + rest); r.Some? ==> Shrunk(s, r.value.0)
    decreases |s|
  {
    var t := s + ['"'] + rest;
    if s == [] || s[0] == '"' {
    } else if s[0] == '\\' {
      if |s| == 1 {
        assert t[2..] == rest;
        LostQuote(rest);
      } else {
        assert t[2..] == s[2..] + ['"'] + rest;
        ReadBack(s[2..], rest);
        if Chars(t[2..]).Some? {
          ShrunkEscaped(s, Unescape(s[1]), Chars(t[2..]).value.0);
        }
      }
    } else {
      assert t[1..] == s[1..] + ['"'] + rest;
      ReadBack(s[1..], rest);
      if Chars(t[1..]).Some? {
        ShrunkPlain(s, Chars(t[1..]).value.0);
      }
    }
  }

  lemma LostQuote(rest: string)
    requires AfterString(rest)
    ensures rest == ['}'] ==> Chars(rest).None?
    ensures rest != ['}'] ==> Chars(rest) == Some(([','], 2))
  {
    if rest == ['}'] {
      assert rest[1..] == [];
    } else {
      assert rest[1..][0] == '"';
      assert Chars(rest[1..]) == Some(("", 1));
      assert [','] + "" == [','];
    }
  }

  lemma {:induction false} CStringIsPrefix(s: string)
    ensures CString(s) <= s && (|CString(s)| < |s| ==> s[|CString(s)|] == '\0')
    decreases |s|
  {
    if s != [] && s[0] != '\0' {
      CStringIsPrefix(s[1..]);
    }
  }

  lemma {:induction false} NoNulIsCString(s: string)
    requires NoNul(s)
    ensures CString(s) == s
    decreases |s|
  {
    if s != [] {
      NoNulIsCString(s[1..]);
    }
  }

  /** A string that is not clean is never read back as it was. */
  lemma {:induction false} UncleanDiffers(s: string, rest: string)
    requires AfterString(rest) && !Clean(s)
    ensures var r := Chars(s + ['"'] + rest); r.Some? ==> CString(r.value.0) != s
  {
    hide Chars, CString;
    ReadBack(s, rest);
    var r := Chars(s + ['"'] + rest);
    if r.Some? {
      CStringIsPrefix(r.value.0);
    }
  }

  // ---------- Numbers ----------

  lemma {:induction false} DigitsAreDigits(n: nat)
    ensures forall i :: 0 <= i < |Digits(n)| ==> IsDigit(Digits(n)[i])
    ensures n > 0 ==> Digits(n)[0] != '0'
    ensures n == 0 ==> Digits(n) == "0"
    decreases n
  {
    if n >= 10 {
      DigitsAreDigits(n / 10);
    }
  }

  /** Digits are decimal: what a digit after a number makes of it. */
  lemma DecimalDigits(n: nat, d: nat)
    requires d < 10
    ensures Digits(d) == ["0123456789"[d]]
    ensures n > 0 ==> Digits(10 * n + d) == Digits(n) + Digits(d)
  {}

  lemma {:induction false} NumberLengthDigits(s: string, rest: string)
    requires (forall i :: 0 <= i < |s| ==> IsDigit(s[i])) && (rest == [] || (!IsDigit(rest[0]) && rest[0] != '.'))
    ensures NumberLength(s + rest, 0) == |s|
    decreases |s|
  {
    if s == [] {
      assert s + rest == rest;
    } else {
      assert (s + rest)[1..] == s[1..] + rest;
      NumberLengthDigits(s[1..], rest);
    }
  }

  lemma {:induction false} LexNumber(n: nat, rest: string)
    requires rest != [] && !IsDigit(rest[0]) && rest[0] != '.'
    ensures Lex(Digits(n) + rest) == Lexed(NumberTok(Digits(n)), rest)
  {
    var s := Digits(n);
    var t := s + rest;
    DigitsAreDigits(n);
    NumberLengthDigits(s, rest);
    assert t[..|s|] == s && t[|s|..] == rest;
    if n == 0 {
      assert t[1..] == rest;
    } else {
      assert IsDigit(s[0]) && t[0] == s[0];
    }
  }

  lemma LexString(s: string, rest: string)
    requires Clean(s) && NoNul(s)
    ensures Lex(['"'] + s + ['"'] + rest) == Lexed(StringTok(s), rest)
  {
    var t := ['"'] + s + ['"'] + rest;
    assert t[1..] == s + ['"'] + rest;
    CleanChars(s, rest);
    NoNulIsCString(s);
    assert t[1 + (|s| + 1)..] == rest;
  }

  lemma LexPunct(c: char, rest: string)
    requires IsPunct(c)
    ensures Lex([c] + rest) == Lexed(Punct(c), rest)
  {
    assert ([c] + rest)[1..] == rest;
  }

  // ---------- Objects ----------

  /** Keys are plain, strings are C strings, and what follows a field is a comma and a field or the
    * closing brace. */
  predicate Fine(f: Field) {
    Clean(f.key) && NoNul(f.key) && (f.StrField? ==> NoNul(f.s))
  }

  lemma KeyParsed(f: Field, val: string)
    requires Fine(f)
    ensures var at := Lex(['"'] + f.key + ['"', ':'] + val);
      at.tok == StringTok(f.key) && Lex(at.rest) == Lexed(Punct(':'), val)
  {
    LexString(f.key, [':'] + val);
    assert ['"'] + f.key + ['"', ':'] + val == ['"'] + f.key + ['"'] + ([':'] + val);
    LexPunct(':', val);
  }

  lemma {:induction false} IntParsed(n: int, rest: string)
    requires AfterString(rest)
    ensures var r := Parse(Lex(Ld(n) + rest));
      if n >= 0 then r == Some(Parsed(Number(Digits(n)), Lex(rest))) else r.None?
  {
    if n >= 0 {
      LexNumber(n, rest);
    } else {
      assert (Ld(n) + rest)[0] == '-';
    }
  }

  lemma {:induction false} StringParsed(s: string, rest: string)
    requires AfterString(rest) && NoNul(s)
    ensures var r := Parse(Lex(['"'] + s + ['"'] + rest));
      if Clean(s) then r == Some(Parsed(String(s), Lex(rest))) else r.None? || r.value.val != String(s)
  {
    var t := ['"'] + s + ['"'] + rest;
    if Clean(s) {
      LexString(s, rest);
    } else {
      UncleanDiffers(s, rest);
      assert t[1..] == s + ['"'] + rest;
    }
  }

  /** A good field is read back as it was printed; a bad one is not. */
  lemma {:induction false} FieldParsed(f: Field, rest: string)
    requires Fine(f) && AfterString(rest)
    ensures var r := ParseField(Lex(FieldText(f) + rest));
      if Good(f) then r == Some(Parsed(KV(f.key, ValueOf(f)), Lex(rest)))
      else r.None? || (f.StrField? && r.value.val.key == f.key && r.value.val.val != String(f.s))
  {
    hide Lex, Parse;
    var val := ValueText(f) + rest;
    assert FieldText(f) + rest == ['"'] + f.key + ['"', ':'] + val;
    KeyParsed(f, val);
    if f.IntField? {
      IntParsed(f.n, rest);
    } else {
      assert val == ['"'] + f.s + ['"'] + rest;
      StringParsed(f.s, rest);
    }
  }

  predicate AllGood(fs: seq<Field>) {
    forall i :: 0 <= i < |fs| ==> Good(fs[i])
  }

  predicate AllFine(fs: seq<Field>) {
    && (forall i :: 0 <= i < |fs| ==> Fine(fs[i]))
    && (forall i, j :: 0 <= i < j < |fs| ==> fs[i].key != fs[j].key)
  }

  /** Every field is found under its key. */
  predicate Reads(kvs: seq<KV>, fs: seq<Field>) {
    forall i :: 0 <= i < |fs| ==> Good(fs[i]) && FieldOf(kvs, fs[i].key) == Some(ValueOf(fs[i]))
  }

  /** Some string is not found as it was. */
  predicate Mismatch(kvs: seq<KV>, fs: seq<Field>) {
    exists i :: 0 <= i < |fs| && fs[i].StrField? && FieldOf(kvs, fs[i].key) != Some(String(fs[i].s))
  }

  lemma AfterField(fs: seq<Field>)
    ensures AfterString(MoreText(fs) + ['}'])
  {
    if fs == [] {
      assert MoreText(fs) + ['}'] == ['}'];
    }
  }

  /** One field before others that are read back. */
  lemma {:induction false} ReadsCons(kv: KV, kvs: seq<KV>, fs: seq<Field>)
    requires fs != [] && AllFine(fs) && kv.key == fs[0].key
    ensures Good(fs[0]) && kv.val == ValueOf(fs[0]) && Reads(kvs, fs[1..]) ==> Reads([kv] + kvs, fs)
    ensures Mismatch(kvs, fs[1..]) ==> Mismatch([kv] + kvs, fs)
    ensures fs[0].StrField? && kv.val != String(fs[0].s) ==> Mismatch([kv] + kvs, fs)
  {
    var all := [kv] + kvs;
    assert all[1..] == kvs;
    forall i | 1 <= i < |fs| ensures FieldOf(all, fs[i].key) == FieldOf(kvs, fs[i].key) && fs[i] == fs[1..][i - 1] {}
    assert FieldOf(all, fs[0].key) == Some(kv.val);
    if Mismatch(kvs, fs[1..]) {
      var i :| 0 <= i < |fs[1..]| && fs[1..][i].StrField? && FieldOf(kvs, fs[1..][i].key) != Some(String(fs[1..][i].s));
      assert fs[i + 1].StrField? && FieldOf(all, fs[i + 1].key) != Some(String(fs[i + 1].s));
    }
    if Good(fs[0]) && kv.val == ValueOf(fs[0]) && Reads(kvs, fs[1..]) {
      forall i | 0 <= i < |fs| ensures Good(fs[i]) && FieldOf(all, fs[i].key) == Some(ValueOf(fs[i])) {
        if i > 0 {
          assert fs[1..][i - 1] == fs[i];
        }
      }
    }
  }

  lemma NoFields(kvs: seq<KV>)
    ensures AllGood([]) && Reads(kvs, [])
  {}

  lemma {:induction false} FieldsParsed(fs: seq<Field>)
    requires AllFine(fs)
    ensures var r := MoreFields(Lex(MoreText(fs) + ['}']));
      if AllGood(fs) then r.Some? && Reads(r.value.val, fs) else r.None? || Mismatch(r.value.val, fs)
    decreases |fs|
  {
    hide Lex, ParseField, FieldText, Reads, Mismatch, AllGood, Good;
    var t := MoreText(fs) + ['}'];
    if fs == [] {
      assert t == ['}'];
      LexPunct('}', []);
      assert ['}'] + [] == ['}'];
      NoFields([]);
    } else {
      var rest := MoreText(fs[1..]) + ['}'];
      assert t == [','] + (FieldText(fs[0]) + rest);
      LexPunct(',', FieldText(fs[0]) + rest);
      AfterField(fs[1..]);
      FieldParsed(fs[0], rest);
      FieldsParsed(fs[1..]);
      GoodCons(fs);
      var p := ParseField(Lex(FieldText(fs[0]) + rest));
      if p.Some? {
        var q := MoreFields(p.value.at);
        if q.Some? {
          ReadsCons(p.value.val, q.value.val, fs);
        }
      }
    }
  }

  lemma GoodCons(fs: seq<Field>)
    requires fs != []
    ensures AllGood(fs) <==> Good(fs[0]) && AllGood(fs[1..])
  {
    if Good(fs[0]) && AllGood(fs[1..]) {
      forall i | 0 <= i < |fs| ensures Good(fs[i]) {
        if i > 0 { assert fs[1..][i - 1] == fs[i]; }
      }
    }
  }

  /** Printing an object and parsing it: all fields are found again exactly when every integer is
    * non-negative and every string is free of quotes and backslashes; otherwise the text does not
    * parse, or some string comes back different. */
  lemma {:induction false} ObjectRoundTrip(fs: seq<Field>)
    requires fs != [] && AllFine(fs)
    ensures var r := JsonParse(ObjectText(fs));
      if AllGood(fs) then r.Some? && r.value.Object? && Reads(r.value.fields, fs)
      else r.None? || (r.value.Object? && Mismatch(r.value.fields, fs))
  {
    hide Lex, MoreFields, Reads, Mismatch, FieldText, ParseField, AllGood;
    var rest := MoreText(fs[1..]) + ['}'];
    assert ObjectText(fs) == ['{'] + (FieldText(fs[0]) + rest);
    LexPunct('{', FieldText(fs[0]) + rest);
    AfterField(fs[1..]);
    FieldParsed(fs[0], rest);
    FieldsParsed(fs[1..]);
    GoodCons(fs);
    var p := ParseField(Lex(FieldText(fs[0]) + rest));
    if p.Some? {
      var q := MoreFields(p.value.at);
      if q.Some? {
        ReadsCons(p.value.val, q.value.val, fs);
      }
    }
  }

  // ---------- Keywords ----------

  predicate IsWord(w: string) {
    w != [] && forall i :: 0 <= i < |w| ==> IsLetter(w[i])
  }

  lemma {:induction false} WordWhole(w: string, rest: string)
    requires (forall i :: 0 <= i < |w| ==> IsLetter(w[i])) && (rest == [] || !IsLetter(rest[0]))
    ensures WordLength(w + rest) == |w|
    decreases |w|
  {
    if w == [] {
      assert w + rest == rest;
    } else {
      assert (w + rest)[0] == w[0] && (w + rest)[1..] == w[1..] + rest;
      WordWhole(w[1..], rest);
    }
  }

  /** What any word is read as, whatever comes after it: `null` is false, and every other word, `true`,
    * `false` and misspelt ones too, is null.  So no word is refused, and none is read as what it says. */
  lemma {:induction false} KeywordsInverted(w: string, rest: string)
    requires IsWord(w) && (rest == [] || !IsLetter(rest[0]))
    ensures JsonParse(w + rest) == Some(if w == "null" then Bool(false) else Null)
    ensures JsonParse(w + rest) == Some(Bool(false)) <==> w == "null"
    ensures JsonParse(w + rest) == Some(Null) <==> w != "null"
  {
    var t := w + rest;
    WordWhole(w, rest);
    assert t[0] == w[0] && IsLetter(w[0]);
    assert t[..|w|] == w && t[|w|..] == rest;
    assert Lex(t) == Lexed(Keyword(w), rest);
  }

  /** Nothing at all is read as true: not at any depth of any text. */
  predicate NowhereTrue(v: Json) {
    match v
    case Bool(b) => !b
    case Array(items) => forall i :: 0 <= i < |items| ==> NowhereTrue(items[i])
    case Object(fields) => forall i :: 0 <= i < |fields| ==> NowhereTrue(fields[i].val)
    case _ => true
  }

  lemma {:induction false} ParseNowhereTrue(at: Lexed)
    ensures Parse(at).Some? ==> NowhereTrue(Parse(at).value.val)
    decreases Left(at), 1
  {
    var next := Lex(at.rest);
    if at.tok == Punct('[') {
      ParseNowhereTrue(next);
      if Parse(next).Some? {
        ItemsNowhereTrue(Parse(next).value.at);
      }
    } else if at.tok == Punct('{') {
      FieldNowhereTrue(next);
      if ParseField(next).Some? {
        FieldsNowhereTrue(ParseField(next).value.at);
      }
    }
  }

  lemma {:induction false} ItemsNowhereTrue(at: Lexed)
    ensures MoreItems(at).Some? ==> forall i :: 0 <= i < |MoreItems(at).value.val| ==>
      NowhereTrue(MoreItems(at).value.val[i])
    decreases Left(at), 0
  {
    if at.tok == Punct(',') {
      ParseNowhereTrue(Lex(at.rest));
      if Parse(Lex(at.rest)).Some? {
        ItemsNowhereTrue(Parse(Lex(at.rest)).value.at);
      }
    }
  }

  lemma {:induction false} FieldNowhereTrue(at: Lexed)
    ensures ParseField(at).Some? ==> NowhereTrue(ParseField(at).value.val.val)
    decreases Left(at), 0
  {
    if at.tok.StringTok? && Lex(at.rest).tok == Punct(':') {
      ParseNowhereTrue(Lex(Lex(at.rest).rest));
    }
  }

  lemma {:induction false} FieldsNowhereTrue(at: Lexed)
    ensures MoreFields(at).Some? ==> forall i :: 0 <= i < |MoreFields(at).value.val| ==>
      NowhereTrue(MoreFields(at).value.val[i].val)
    decreases Left(at), 0
  {
    if at.tok == Punct(',') {
      FieldNowhereTrue(Lex(at.rest));
      if ParseField(Lex(at.rest)).Some? {
        FieldsNowhereTrue(ParseField(Lex(at.rest)).value.at);
      }
    }
  }

  /** No text is read as true, nor as anything with a true in it. */
  lemma {:induction false} NeverTrue(text: string)
    ensures JsonParse(text).Some? ==> NowhereTrue(JsonParse(text).value)
  {
    ParseNowhereTrue(Lex(text));
  }
}
