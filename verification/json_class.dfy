/** The JSON parser as the server runs it: an index, the current character and the current token. */
module JsonClass {
  import opened Values
  import opened JsonSpec

  const TOK_EOF: char := '\0'
  const TOK_ERROR: char := 'e'
  const TOK_NULL: char := 'n'
  const TOK_FALSE: char := 'f'
  const TOK_TRUE: char := 't'
  const TOK_NUMBER: char := '0'
  const TOK_STRING: char := '"'

  /** Tokens share one character with punctuation; no two mean the same. */
  function TokOf(c: char, val: string): Tok {
    if c == TOK_EOF then Eof
    else if c == TOK_ERROR then Error
    else if c == TOK_NULL then NullTok
    else if c == TOK_FALSE then FalseTok
    else if c == TOK_TRUE then TrueTok
    else if c == TOK_NUMBER then NumberTok(val)
    else if c == TOK_STRING then StringTok(val)
    else Punct(c)
  }

  function KeywordCode(w: string): (c: char)
    ensures TokOf(c, "") == Keyword(w)
  {
    if w != "null" then TOK_NULL else if w != "false" then TOK_FALSE else if w != "true" then TOK_TRUE else TOK_ERROR
  }

  lemma {:induction false} NumberStep(t: string, seps: nat)
    requires t != [] && (IsDigit(t[0]) || (t[0] == '.' && seps <= 1))
    ensures NumberLength(t, seps) == 1 + NumberLength(t[1..], if t[0] == '.' then seps + 1 else seps)
  {}

  lemma TokCodes(c: char, val: string)
    ensures TokOf(c, val) == Eof <==> c == TOK_EOF
    ensures TokOf(c, val) == Punct(',') <==> c == ','
    ensures TokOf(c, val) == Punct(':') <==> c == ':'
    ensures TokOf(c, val) == Punct(']') <==> c == ']'
    ensures TokOf(c, val) == Punct('}') <==> c == '}'
    ensures TokOf(c, val).StringTok? <==> c == TOK_STRING
    ensures c == TOK_STRING ==> TokOf(c, val).text == val
  {}

  lemma NumberEnd(t: string, seps: nat)
    requires t == [] || !(IsDigit(t[0]) || (t[0] == '.' && seps <= 1))
    ensures NumberLength(t, seps) == 0
  {}

  class JsonParser {
    const text: string
    var i: nat
    var ch: char
    var currTok: char
    var currVal: string

    /** The current character is the text's, or the NUL after it. */
    ghost predicate Valid()
      reads this
    {
      i <= |text| && ch == (if i < |text| then text[i] else '\0')
    }

    /** Where the parser stands. */
    ghost function At(): Lexed
      reads this
      requires i <= |text|
    {
      Lexed(TokOf(currTok, currVal), text[i..])
    }

    constructor (text: string)
      ensures Valid() && this.text == text && At() == JsonSpec.Lex(text)
    {
      this.text := text;
      i := 0;
      ch := if |text| > 0 then text[0] else '\0';
      currTok, currVal := TOK_EOF, "";
      new;
      assert text[0..] == text;
      Lex();
    }

    method LStep()
      requires Valid() && i < |text|
      modifies this`i, this`ch
      ensures Valid() && i == old(i) + 1 && text[i..] == old(text[i..])[1..]
    {
      i := i + 1;
      ch := if i < |text| then text[i] else '\0';
    }

    method Lex()
      requires Valid()
      modifies this
      ensures Valid() && At() == JsonSpec.Lex(old(text[i..]))
      decreases |text| - i
    {
      if i >= |text| {
        currTok := TOK_EOF;
        return;
      }
      if IsSpace(ch) {
        LStep();
        Lex();
      } else if IsPunct(ch) {
        currTok := ch;
        LStep();
      } else if ch == '0' {
        LStep();
        currTok, currVal := TOK_NUMBER, "0";
      } else if IsDigit(ch) || ch == '.' {
        LexNumber();
      } else if IsLetter(ch) {
        LexWord();
      } else if ch == '"' {
        LexString();
      } else {
        LStep();
        currTok := TOK_ERROR;
      }
    }

    method LexNumber()
      requires Valid() && i < |text| && (IsDigit(ch) || ch == '.')
      modifies this
      ensures Valid() && currTok == TOK_NUMBER
      ensures var n := NumberLength(old(text[i..]), 0);
        currVal == old(text[i..])[..n] && text[i..] == old(text[i..])[n..]
    {
      var value := ScanNumber();
      currTok, currVal := TOK_NUMBER, value;
    }

    method ScanNumber() returns (value: string)
      requires Valid()
      modifies this`i, this`ch
      ensures Valid()
      ensures var n := NumberLength(old(text[i..]), 0); value == old(text[i..])[..n] && text[i..] == old(text[i..])[n..]
    {
      hide NumberLength;
      ghost var start := i;
      value := "";
      var decSeps := 0;
      while i < |text| && (IsDigit(ch) || (ch == '.' && decSeps <= 1))
        invariant Valid() && start <= i && value == text[start..i]
        invariant NumberLength(text[start..], 0) == i - start + NumberLength(text[i..], decSeps)
        decreases |text| - i
      {
        NumberStep(text[i..], decSeps);
        if ch == '.' {
          decSeps := decSeps + 1;
        }
        value := value + [ch];
        LStep();
      }
      NumberEnd(text[i..], decSeps);
    }

    method LexWord()
      requires Valid() && i < |text| && IsLetter(ch)
      modifies this
      ensures Valid()
      ensures var n := WordLength(old(text[i..]));
        TokOf(currTok, currVal) == Keyword(old(text[i..])[..n]) && text[i..] == old(text[i..])[n..]
    {
      var value := ScanWord();
      currTok := KeywordCode(value);
    }

    method ScanWord() returns (value: string)
      requires Valid()
      modifies this`i, this`ch
      ensures Valid()
      ensures var n := WordLength(old(text[i..])); value == old(text[i..])[..n] && text[i..] == old(text[i..])[n..]
    {
      hide WordLength;
      ghost var start := i;
      value := "";
      while i < |text| && IsLetter(ch)
        invariant Valid() && start <= i && value == text[start..i]
        invariant WordLength(text[start..]) == i - start + WordLength(text[i..])
        decreases |text| - i
      {
        WordStep(text[i..]);
        value := value + [ch];
        LStep();
      }
      WordEnd(text[i..]);
    }

    lemma WordStep(t: string)
      requires t != [] && IsLetter(t[0])
      ensures WordLength(t) == 1 + WordLength(t[1..])
    {}

    lemma WordEnd(t: string)
      requires t == [] || !IsLetter(t[0])
      ensures WordLength(t) == 0
    {}

    method LexString()
      requires Valid() && i < |text| && ch == '"'
      modifies this
      ensures Valid()
      ensures var t := old(text[i..])[1..]; var r := Chars(t);
        if r.Some? then At() == Lexed(StringTok(CString(r.value.0)), t[r.value.1..])
        else At() == Lexed(Error, [])
    {
      LStep();
      var value := ScanString();
      if i >= |text| || text[i] != '"' {
        currTok := TOK_ERROR;
        return;
      }
      LStep();
      currTok, currVal := TOK_STRING, CString(value);
    }

    /** Up to the closing quote, or to the end of the text if there is none. */
    method ScanString() returns (value: string)
      requires Valid()
      modifies this`i, this`ch
      ensures Valid() && (i == |text| || text[i] == '"')
      ensures var r := Chars(old(text[i..]));
        if i == |text| then r.None? else r == Some((value, i - old(i) + 1))
    {
      hide Chars;
      ghost var all := Chars(text[i..]);
      value := "";
      CharsEmpty(all);
      while i < |text| && text[i] != '"'
        invariant Valid() && old(i) <= i && all == Joined(value, i - old(i), Chars(text[i..]))
        decreases |text| - i
      {
        ghost var before, at := value, i;
        if text[i] == '\\' {
          LStep();
          if i >= |text| {
            CharsCut(text[at..]);
            return;
          }
          CharsEscaped(text[at..], before, at - old(i));
          assert text[at..][2..] == text[at + 2..] && text[at..][1] == text[at + 1];
          value := value + [Unescape(ch)];
        } else {
          CharsPlain(text[at..], before, at - old(i));
          assert text[at..][1..] == text[at + 1..];
          value := value + [ch];
        }
        LStep();
      }
      CharsEnd(text[i..]);
      assert value + "" == value;
    }

    /** Characters and their length put before what a scan finds. */
    static function Joined(value: string, n: int, r: Option<(string, nat)>): Option<(string, int)> {
      match r case None => None case Some((s, m)) => Some((value + s, n + m))
    }

    lemma CharsEmpty(r: Option<(string, nat)>)
      ensures Joined("", 0, r) == r
    {
      assert r.Some? ==> "" + r.value.0 == r.value.0;
    }

    lemma CharsCut(t: string)
      requires |t| == 1 && t[0] == '\\'
      ensures Chars(t).None?
    {}

    lemma CharsEscaped(t: string, value: string, n: int)
      requires |t| >= 2 && t[0] == '\\'
      ensures Joined(value, n, Chars(t)) == Joined(value + [Unescape(t[1])], n + 2, Chars(t[2..]))
    {
      var r := Chars(t[2..]);
      assert r.Some? ==> value + ([Unescape(t[1])] + r.value.0) == value + [Unescape(t[1])] + r.value.0;
    }

    lemma CharsPlain(t: string, value: string, n: int)
      requires t != [] && t[0] != '\\' && t[0] != '"'
      ensures Joined(value, n, Chars(t)) == Joined(value + [t[0]], n + 1, Chars(t[1..]))
    {
      var r := Chars(t[1..]);
      assert r.Some? ==> value + ([t[0]] + r.value.0) == value + [t[0]] + r.value.0;
    }

    lemma CharsEnd(t: string)
      requires t == [] || t[0] == '"'
      ensures Chars(t) == if t == [] then None else Some(("", 1))
    {}

    /** None is the null result; what the parser does then is not looked at again. */
    method Parse() returns (r: Option<Json>)
      requires Valid()
      modifies this
      ensures Valid() && Means(r, JsonSpec.Parse(old(At())))
      decreases Left(At()), 1
    {
      hide JsonSpec.Lex, JsonSpec.ParseField, JsonSpec.MoreFields, JsonSpec.MoreItems;
      if currTok == '[' {
        Lex();
        r := ParseArray();
      } else if currTok == '{' {
        Lex();
        r := ParseObject();
      } else {
        r := ParseAtom();
      }
    }

    method ParseAtom() returns (r: Option<Json>)
      requires Valid() && currTok != '[' && currTok != '{'
      modifies this
      ensures Valid() && Means(r, JsonSpec.Parse(old(At())))
    {
      hide JsonSpec.Lex;
      var tok, val := currTok, currVal;
      if tok == TOK_EOF {
        return None;
      }
      if tok == TOK_ERROR {
        Lex();
        return None;
      }
      if tok != TOK_NULL && tok != TOK_FALSE && tok != TOK_TRUE && tok != TOK_NUMBER && tok != TOK_STRING {
        return None;
      }
      Lex();
      r := Some(if tok == TOK_NULL then Null
                else if tok == TOK_FALSE then Bool(false)
                else if tok == TOK_TRUE then Null
                else if tok == TOK_NUMBER then Number(val)
                else String(val));
    }

    ghost predicate Means<T>(r: Option<T>, p: Option<Parsed<T>>)
      reads this
      requires i <= |text|
    {
      if p.Some? then r == Some(p.value.val) && At() == p.value.at else r.None?
    }

    /** After the opening bracket. */
    method ParseArray() returns (r: Option<Json>)
      requires Valid()
      modifies this
      ensures Valid() && Means(r, ArrayOf(old(At())))
      decreases Left(At()), 2
    {
      hide JsonSpec.Parse, JsonSpec.Lex, TokOf;
      ghost var goal := ArrayOf(At());
      var first := Parse();
      if first.None? {
        return None;
      }
      var arr := [first.value];
      while currTok != TOK_EOF && currTok != ']'
        invariant Valid() && Left(At()) < Left(old(At()))
        invariant goal == Wrapped(arr, MoreItems(At()))
        decreases Left(At())
      {
        TokCodes(currTok, currVal);
        if currTok != ',' {
          return None;
        }
        Lex();
        var value := Parse();
        if value.None? {
          return None;
        }
        WrappedCons(arr, value.value, MoreItems(At()));
        arr := arr + [value.value];
      }
      TokCodes(currTok, currVal);
      if currTok != ']' {
        return None;
      }
      assert arr + [] == arr;
      Lex();
      r := Some(Array(arr));
    }

    method ParseOneField() returns (r: Option<KV>)
      requires Valid()
      modifies this
      ensures Valid() && Means(r, ParseField(old(At())))
      decreases Left(At()), 2
    {
      hide JsonSpec.Parse, JsonSpec.Lex, TokOf;
      TokCodes(currTok, currVal);
      if currTok != TOK_STRING {
        return None;
      }
      var key := currVal;
      Lex();
      TokCodes(currTok, currVal);
      if currTok != ':' {
        return None;
      }
      Lex();
      var value := Parse();
      if value.None? {
        return None;
      }
      r := Some(KV(key, value.value));
    }

    /** After the opening brace. */
    method ParseObject() returns (r: Option<Json>)
      requires Valid()
      modifies this
      ensures Valid() && Means(r, ObjectOf(old(At())))
      decreases Left(At()), 3
    {
      hide JsonSpec.ParseField, JsonSpec.Lex, TokOf;
      ghost var goal := ObjectOf(At());
      var first := ParseOneField();
      if first.None? {
        return None;
      }
      var obj := [first.value];
      while currTok != TOK_EOF && currTok != '}'
        invariant Valid() && Left(At()) < Left(old(At()))
        invariant goal == WrappedObj(obj, MoreFields(At()))
        decreases Left(At())
      {
        TokCodes(currTok, currVal);
        if currTok != ',' {
          return None;
        }
        Lex();
        var kv := ParseOneField();
        if kv.None? {
          return None;
        }
        WrappedObjCons(obj, kv.value, MoreFields(At()));
        obj := obj + [kv.value];
      }
      TokCodes(currTok, currVal);
      if currTok != '}' {
        return None;
      }
      assert obj + [] == obj;
      Lex();
      r := Some(Object(obj));
    }
  }

  function Wrapped(arr: seq<Json>, p: Option<Parsed<seq<Json>>>): Option<Parsed<Json>> {
    match p case None => None case Some(q) => Some(Parsed(Array(arr + q.val), q.at))
  }

  function WrappedObj(obj: seq<KV>, p: Option<Parsed<seq<KV>>>): Option<Parsed<Json>> {
    match p case None => None case Some(q) => Some(Parsed(Object(obj + q.val), q.at))
  }

  lemma WrappedCons(arr: seq<Json>, v: Json, p: Option<Parsed<seq<Json>>>)
    ensures Wrapped(arr + [v], p) == (match p case None => None case Some(q) => Some(Parsed(Array(arr + ([v] + q.val)),
      q.at)))
  {
    assert p.Some? ==> arr + [v] + p.value.val == arr + ([v] + p.value.val);
  }

  lemma WrappedObjCons(obj: seq<KV>, v: KV, p: Option<Parsed<seq<KV>>>)
    ensures WrappedObj(obj + [v], p) == (match p case None => None case Some(q) => Some(Parsed(Object(obj +
      ([v] + q.val)), q.at)))
  {
    assert p.Some? ==> obj + [v] + p.value.val == obj + ([v] + p.value.val);
  }

  function ArrayOf(at: Lexed): Option<Parsed<Json>> {
    match JsonSpec.Parse(at)
    case None => None
    case Some(p) => Wrapped([p.val], MoreItems(p.at))
  }

  function ObjectOf(at: Lexed): Option<Parsed<Json>> {
    match ParseField(at)
    case None => None
    case Some(p) => WrappedObj([p.val], MoreFields(p.at))
  }

  /** A whole text. */
  method JsonParse(text: string) returns (r: Option<Json>)
    ensures r == JsonSpec.JsonParse(text)
  {
    var p := new JsonParser(text);
    r := p.Parse();
  }
}
