/** What the JSON parser reads: every tree it can produce, printed with any layout, is read back whole,
  * and it produces no other trees. */
module JsonTrees {
  import opened Values
  import opened JsonSpec

  /** How a tree is laid out: white space before every token, and whether strings are escaped. */
  datatype Style = Style(gap: string, escaped: bool)

  predicate White(gap: string) {
    forall i :: 0 <= i < |gap| ==> gap[i] in " \t\r\n"
  }

  function EscapeChar(c: char): string {
    match c
    case '"' => ['\\', '"']
    case '\\' => ['\\', '\\']
    case '\n' => ['\\', 'n']
    case '\r' => ['\\', 'r']
    case '\t' => ['\\', 't']
    case _ => [c]
  }

  function Escape(s: string): string {
    if s == [] then [] else EscapeChar(s[0]) + Escape(s[1..])
  }

  function Quoted(s: string, y: Style): string {
    ['"'] + (if y.escaped then Escape(s) else s) + ['"']
  }

  /** The text of a tree.  The words are those the parser takes for the value, which are not JSON's. */
  function Text(v: Json, y: Style): string
    decreases v
  {
    y.gap +
    match v
    case Null => "true"
    case Bool(_) => "null"
    case Number(s) => s
    case String(s) => Quoted(s, y)
    case Array(items) => if items == [] then "[]" else ['['] + Text(items[0], y) + ItemsText(items[1..], y)
    case Object(fields) => if fields == [] then "{}" else ['{'] + FieldText(fields[0], y) + FieldsText(fields[1..], y)
  }

  /** The other items and the closing bracket. */
  function ItemsText(items: seq<Json>, y: Style): string
    decreases items
  {
    if items == [] then y.gap + [']'] else y.gap + [','] + Text(items[0], y) + ItemsText(items[1..], y)
  }

  function FieldText(f: KV, y: Style): string
    decreases f
  {
    y.gap + Quoted(f.key, y) + y.gap + [':'] + Text(f.val, y)
  }

  /** The other fields and the closing brace. */
  function FieldsText(fields: seq<KV>, y: Style): string
    decreases fields
  {
    if fields == [] then y.gap + ['}'] else y.gap + [','] + FieldText(fields[0], y) + FieldsText(fields[1..], y)
  }

  function Points(s: string): nat {
    if s == [] then 0 else (if s[0] == '.' then 1 else 0) + Points(s[1..])
  }

  /** `0`, or digits with at most two points among them that do not start with `0`. */
  predicate NumberText(s: string) {
    s == "0" ||
    (s != [] && s[0] != '0' && (forall i :: 0 <= i < |s| ==> s[i] in "0123456789.") && Points(s) <= 2)
  }

  /** Trees without `true`, without empty arrays and objects, with C strings and such numbers. */
  predicate Readable(v: Json)
    decreases v
  {
    match v
    case Null => true
    case Bool(b) => !b
    case Number(s) => NumberText(s)
    case String(s) => NoNul(s)
    case Array(items) => items != [] && forall i :: 0 <= i < |items| ==> Readable(items[i])
    case Object(fields) =>
      fields != [] && forall i :: 0 <= i < |fields| ==> NoNul(fields[i].key) && Readable(fields[i].val)
  }

  predicate ReadableField(f: KV) {
    NoNul(f.key) && Readable(f.val)
  }

  /** Strings that are printed as they are must not need escapes. */
  predicate Printable(v: Json, y: Style)
    decreases v
  {
    match v
    case String(s) => y.escaped || Clean(s)
    case Array(items) => forall i :: 0 <= i < |items| ==> Printable(items[i], y)
    case Object(fields) =>
      forall i :: 0 <= i < |fields| ==> (y.escaped || Clean(fields[i].key)) && Printable(fields[i].val, y)
    case _ => true
  }

  /** What may come after a tree without becoming part of it. */
  predicate Stops(rest: string) {
    rest == [] || (rest[0] != '.' && !IsDigit(rest[0]) && !IsLetter(rest[0]))
  }

  // ---------- Tokens ----------

  lemma {:induction false} LexGap(gap: string, t: string)
    requires White(gap)
    ensures Lex(gap + t) == Lex(t)
    decreases |gap|
  {
    if gap == [] {
      assert gap + t == t;
    } else {
      assert (gap + t)[0] == gap[0] && (gap + t)[1..] == gap[1..] + t;
      LexGap(gap[1..], t);
    }
  }

  lemma BackslashRead(c: char, more: string)
    ensures Chars(['\\', c] + more) ==
            match Chars(more) case None => None case Some((s, n)) => Some(([Unescape(c)] + s, n + 2))
  {
    assert (['\\', c] + more)[2..] == more;
  }

  lemma PlainRead(c: char, more: string)
    requires c != '"' && c != '\\'
    ensures Chars([c] + more) == match Chars(more) case None => None case Some((s, n)) => Some(([c] + s, n + 1))
  {
    assert ([c] + more)[1..] == more;
  }

  lemma EscapedChar(c: char, more: string)
    ensures Chars(EscapeChar(c) + more) ==
            match Chars(more) case None => None case Some((s, n)) => Some(([c] + s, n + |EscapeChar(c)|))
  {
    hide Chars;
    if |EscapeChar(c)| == 2 {
      BackslashRead(EscapeChar(c)[1], more);
    } else {
      PlainRead(c, more);
    }
  }

  lemma {:induction false} EscapedChars(s: string, rest: string)
    ensures Chars(Escape(s) + ['"'] + rest) == Some((s, |Escape(s)| + 1))
    decreases |s|
  {
    hide Chars, EscapeChar;
    if s == [] {
      CleanChars([], rest);
      assert Escape(s) + ['"'] + rest == [] + ['"'] + rest;
    } else {
      var more := Escape(s[1..]) + ['"'] + rest;
      EscapedChars(s[1..], rest);
      EscapedChar(s[0], more);
      assert Escape(s) + ['"'] + rest == EscapeChar(s[0]) + more;
      assert s == [s[0]] + s[1..];
    }
  }

  /** A backslash and a character. */
  lemma AnyEscape(c: char, rest: string)
    ensures Chars(['\\', c, '"'] + rest) ==
            Some(([match c case '0' => '\0' case 'n' => '\n' case 'r' => '\r' case 't' => '\t' case _ => c], 3))
  {
    var t := ['\\', c, '"'] + rest;
    assert t[2..] == ['"'] + rest;
    assert Chars(t[2..]) == Some(("", 1));
    assert [Unescape(c)] + "" == [Unescape(c)];
  }

  lemma QuotedLexed(s: string, y: Style, rest: string)
    requires NoNul(s) && (y.escaped || Clean(s))
    ensures Lex(Quoted(s, y) + rest) == Lexed(StringTok(s), rest)
  {
    hide Chars, Escape, CString;
    var body := if y.escaped then Escape(s) else s;
    var t := Quoted(s, y) + rest;
    assert t[1..] == body + ['"'] + rest;
    if y.escaped {
      EscapedChars(s, rest);
    } else {
      CleanChars(s, rest);
    }
    NoNulIsCString(s);
    assert t[1 + (|body| + 1)..] == rest;
  }

  lemma {:induction false} NumberLengthOf(s: string, rest: string, seps: nat)
    requires (forall i :: 0 <= i < |s| ==> s[i] in "0123456789.") && seps + Points(s) <= 2 && Stops(rest)
    ensures NumberLength(s + rest, seps) == |s|
    decreases |s|
  {
    if s == [] {
      assert s + rest == rest;
    } else {
      assert (s + rest)[0] == s[0] && (s + rest)[1..] == s[1..] + rest;
      NumberLengthOf(s[1..], rest, if s[0] == '.' then seps + 1 else seps);
    }
  }

  lemma {:induction false} NumberLexed(s: string, rest: string)
    requires NumberText(s) && Stops(rest)
    ensures Lex(s + rest) == Lexed(NumberTok(s), rest)
  {
    var t := s + rest;
    assert t[..|s|] == s && t[|s|..] == rest && t[0] == s[0];
    if s != "0" {
      NumberLengthOf(s, rest, 0);
    }
  }

  lemma WordLexed(w: string, rest: string)
    requires IsWord(w) && Stops(rest)
    ensures Lex(w + rest) == Lexed(Keyword(w), rest)
  {
    var t := w + rest;
    WordWhole(w, rest);
    assert t[0] == w[0] && IsLetter(w[0]) && t[..|w|] == w && t[|w|..] == rest;
  }

  /** White space and one of the marks. */
  lemma MarkLexed(y: Style, c: char, rest: string)
    requires White(y.gap) && IsPunct(c)
    ensures Lex(y.gap + [c] + rest) == Lexed(Punct(c), rest)
  {
    hide Lex;
    LexGap(y.gap, [c] + rest);
    LexPunct(c, rest);
    assert y.gap + [c] + rest == y.gap + ([c] + rest);
  }

  lemma MarkStops(y: Style, c: char, rest: string)
    requires White(y.gap) && IsPunct(c)
    ensures Stops(y.gap + [c] + rest)
  {
    var t := y.gap + [c] + rest;
    assert t[0] == if y.gap == [] then c else y.gap[0];
  }

  // ---------- Trees ----------

  lemma {:induction false} LeafParsed(v: Json, y: Style, rest: string)
    requires Readable(v) && Printable(v, y) && White(y.gap) && Stops(rest) && !v.Array? && !v.Object?
    ensures Parse(Lex(Text(v, y) + rest)) == Some(Parsed(v, Lex(rest)))
  {
    hide Lex, Quoted, NumberText;
    var body := match v case Null => "true" case Bool(_) => "null" case Number(s) => s case String(s) => Quoted(s, y);
    assert Text(v, y) + rest == y.gap + (body + rest);
    LexGap(y.gap, body + rest);
    match v
    case Null => WordLexed("true", rest);
    case Bool(_) => WordLexed("null", rest);
    case Number(s) => NumberLexed(s, rest);
    case String(s) => QuotedLexed(s, y, rest);
  }

  lemma {:induction false} TextParsed(v: Json, y: Style, rest: string)
    requires Readable(v) && Printable(v, y) && White(y.gap) && Stops(rest)
    ensures Parse(Lex(Text(v, y) + rest)) == Some(Parsed(v, Lex(rest)))
    decreases v, 1
  {
    hide Lex;
    match v
    case Array(items) => ArrayParsed(items, y, rest);
    case Object(fields) => ObjectParsed(fields, y, rest);
    case _ => LeafParsed(v, y, rest);
  }

  /** After an item: the next ones, or the bracket. */
  lemma {:induction false} ItemsStop(items: seq<Json>, y: Style, rest: string)
    requires White(y.gap)
    ensures Stops(ItemsText(items, y) + rest)
  {
    hide Text, Stops;
    if items == [] {
      MarkStops(y, ']', rest);
    } else {
      var more := Text(items[0], y) + ItemsText(items[1..], y) + rest;
      MarkStops(y, ',', more);
      assert ItemsText(items, y) + rest == y.gap + [','] + more;
    }
  }

  lemma {:induction false} ArrayParsed(items: seq<Json>, y: Style, rest: string)
    requires var v := Array(items); Readable(v) && Printable(v, y) && White(y.gap)
    ensures Parse(Lex(Text(Array(items), y) + rest)) == Some(Parsed(Array(items), Lex(rest)))
    decreases items, 2
  {
    hide Lex, Stops, ItemsText, MoreItems;
    var tail := ItemsText(items[1..], y) + rest;
    assert Text(Array(items), y) + rest == y.gap + ['['] + (Text(items[0], y) + tail);
    MarkLexed(y, '[', Text(items[0], y) + tail);
    ItemsStop(items[1..], y, rest);
    TextParsed(items[0], y, tail);
    ItemsParsed(items[1..], y, rest);
    assert items == [items[0]] + items[1..];
  }

  lemma {:induction false} ItemsParsed(items: seq<Json>, y: Style, rest: string)
    requires (forall i :: 0 <= i < |items| ==> Readable(items[i]) && Printable(items[i], y)) && White(y.gap)
    ensures MoreItems(Lex(ItemsText(items, y) + rest)) == Some(Parsed(items, Lex(rest)))
    decreases items, 1
  {
    hide Lex, Stops, Text, Parse, Readable, Printable;
    if items == [] {
      MarkLexed(y, ']', rest);
    } else {
      var tail := ItemsText(items[1..], y) + rest;
      assert ItemsText(items, y) + rest == y.gap + [','] + (Text(items[0], y) + tail);
      MarkLexed(y, ',', Text(items[0], y) + tail);
      ItemsStop(items[1..], y, rest);
      TextParsed(items[0], y, tail);
      ItemsParsed(items[1..], y, rest);
      assert items == [items[0]] + items[1..];
    }
  }

  lemma {:induction false} FieldsStop(fields: seq<KV>, y: Style, rest: string)
    requires White(y.gap)
    ensures Stops(FieldsText(fields, y) + rest)
  {
    hide FieldText, Stops;
    if fields == [] {
      MarkStops(y, '}', rest);
    } else {
      var more := FieldText(fields[0], y) + FieldsText(fields[1..], y) + rest;
      MarkStops(y, ',', more);
      assert FieldsText(fields, y) + rest == y.gap + [','] + more;
    }
  }

  lemma {:induction false} ObjectParsed(fields: seq<KV>, y: Style, rest: string)
    requires var v := Object(fields); Readable(v) && Printable(v, y) && White(y.gap)
    ensures Parse(Lex(Text(Object(fields), y) + rest)) == Some(Parsed(Object(fields), Lex(rest)))
    decreases fields, 2
  {
    hide Lex, Stops, FieldsText, FieldText, ParseField, MoreFields;
    var tail := FieldsText(fields[1..], y) + rest;
    assert Text(Object(fields), y) + rest == y.gap + ['{'] + (FieldText(fields[0], y) + tail);
    MarkLexed(y, '{', FieldText(fields[0], y) + tail);
    FieldsStop(fields[1..], y, rest);
    FieldRead(fields[0], y, tail);
    FieldsParsed(fields[1..], y, rest);
    assert fields == [fields[0]] + fields[1..];
  }

  lemma {:induction false} FieldRead(f: KV, y: Style, rest: string)
    requires ReadableField(f) && (y.escaped || Clean(f.key)) && Printable(f.val, y) && White(y.gap) && Stops(rest)
    ensures ParseField(Lex(FieldText(f, y) + rest)) == Some(Parsed(f, Lex(rest)))
    decreases f, 2
  {
    hide Lex, Parse, Text, Stops, Quoted, Readable, Printable;
    var val := Text(f.val, y) + rest;
    var colon := y.gap + [':'] + val;
    assert FieldText(f, y) + rest == y.gap + (Quoted(f.key, y) + colon);
    LexGap(y.gap, Quoted(f.key, y) + colon);
    QuotedLexed(f.key, y, colon);
    MarkLexed(y, ':', val);
    TextParsed(f.val, y, rest);
  }

  lemma {:induction false} FieldsParsed(fields: seq<KV>, y: Style, rest: string)
    requires White(y.gap)
    requires forall i :: 0 <= i < |fields| ==>
      ReadableField(fields[i]) && (y.escaped || Clean(fields[i].key)) && Printable(fields[i].val, y)
    ensures MoreFields(Lex(FieldsText(fields, y) + rest)) == Some(Parsed(fields, Lex(rest)))
    decreases fields, 1
  {
    hide Lex, Stops, FieldText, ParseField, Readable, Printable, Clean, NoNul;
    if fields == [] {
      MarkLexed(y, '}', rest);
    } else {
      var tail := FieldsText(fields[1..], y) + rest;
      assert FieldsText(fields, y) + rest == y.gap + [','] + (FieldText(fields[0], y) + tail);
      MarkLexed(y, ',', FieldText(fields[0], y) + tail);
      FieldsStop(fields[1..], y, rest);
      FieldRead(fields[0], y, tail);
      FieldsParsed(fields[1..], y, rest);
      assert fields == [fields[0]] + fields[1..];
    }
  }

  /** Every readable tree is read back from its text, with all its items and fields in order, whatever the
    * white space and however its strings are written; and what stands after it is left. */
  lemma {:induction false} TreeRoundTrip(v: Json, y: Style, rest: string)
    requires Readable(v) && Printable(v, y) && White(y.gap) && Stops(rest)
    ensures JsonParse(Text(v, y) + rest) == Some(v)
  {
    hide Lex, Parse;
    TextParsed(v, y, rest);
  }

  // ---------- And nothing else ----------

  predicate ReadableTok(tok: Tok) {
    (tok.NumberTok? ==> NumberText(tok.text)) && (tok.StringTok? ==> NoNul(tok.text))
  }

  lemma {:induction false} NumberLengthBounds(t: string, seps: nat)
    requires seps <= 2
    ensures var n := NumberLength(t, seps);
      (forall i :: 0 <= i < n ==> t[i] in "0123456789.") && seps + Points(t[..n]) <= 2
    decreases |t|
  {
    var n := NumberLength(t, seps);
    if n > 0 {
      var more := if t[0] == '.' then seps + 1 else seps;
      NumberLengthBounds(t[1..], more);
      assert t[..n][1..] == t[1..][..n - 1];
      forall i | 0 <= i < n ensures t[i] in "0123456789." {
        if i == 0 { DigitListed(t[0]); } else { assert t[i] == t[1..][i - 1]; }
      }
    }
  }

  lemma DigitListed(c: char)
    ensures IsDigit(c) || c == '.' <==> c in "0123456789."
  {}

  lemma {:induction false} CStringNoNul(s: string)
    ensures NoNul(CString(s))
    decreases |s|
  {
    if s != [] && s[0] != '\0' {
      CStringNoNul(s[1..]);
    }
  }

  lemma {:induction false} LexReadable(t: string)
    ensures ReadableTok(Lex(t).tok)
    decreases |t|
  {
    if t != [] {
      if IsSpace(t[0]) {
        LexReadable(t[1..]);
      } else if (IsDigit(t[0]) || t[0] == '.') && t[0] != '0' {
        NumberLengthBounds(t, 0);
      } else if t[0] == '"' && Chars(t[1..]).Some? {
        CStringNoNul(Chars(t[1..]).value.0);
      }
    }
  }

  lemma {:induction false} ParseReadable(at: Lexed)
    requires ReadableTok(at.tok)
    ensures Parse(at).Some? ==> Readable(Parse(at).value.val) && ReadableTok(Parse(at).value.at.tok)
    decreases Left(at), 1
  {
    hide Lex, NumberText, NoNul;
    var next := Lex(at.rest);
    LexReadable(at.rest);
    if at.tok == Punct('[') {
      ParseReadable(next);
      if Parse(next).Some? {
        ItemsReadable(Parse(next).value.at);
      }
    } else if at.tok == Punct('{') {
      FieldReadable(next);
      if ParseField(next).Some? {
        FieldsReadable(ParseField(next).value.at);
      }
    }
  }

  lemma {:induction false} ItemsReadable(at: Lexed)
    requires ReadableTok(at.tok)
    ensures var r := MoreItems(at);
      r.Some? ==> ReadableTok(r.value.at.tok) && forall i :: 0 <= i < |r.value.val| ==> Readable(r.value.val[i])
    decreases Left(at), 0
  {
    hide Lex, NumberText, NoNul, Parse, Readable;
    LexReadable(at.rest);
    if at.tok == Punct(',') {
      ParseReadable(Lex(at.rest));
      if Parse(Lex(at.rest)).Some? {
        ItemsReadable(Parse(Lex(at.rest)).value.at);
      }
    }
  }

  lemma {:induction false} FieldReadable(at: Lexed)
    requires ReadableTok(at.tok)
    ensures var r := ParseField(at); r.Some? ==> ReadableField(r.value.val) && ReadableTok(r.value.at.tok)
    decreases Left(at), 0
  {
    hide Lex, NumberText, NoNul, Parse, Readable;
    LexReadable(at.rest);
    if at.tok.StringTok? && Lex(at.rest).tok == Punct(':') {
      LexReadable(Lex(at.rest).rest);
      ParseReadable(Lex(Lex(at.rest).rest));
    }
  }

  lemma {:induction false} FieldsReadable(at: Lexed)
    requires ReadableTok(at.tok)
    ensures var r := MoreFields(at);
      r.Some? ==> ReadableTok(r.value.at.tok) && forall i :: 0 <= i < |r.value.val| ==> ReadableField(r.value.val[i])
    decreases Left(at), 0
  {
    hide Lex, NumberText, NoNul, ParseField, ReadableField;
    LexReadable(at.rest);
    if at.tok == Punct(',') {
      FieldReadable(Lex(at.rest));
      if ParseField(Lex(at.rest)).Some? {
        FieldsReadable(ParseField(Lex(at.rest)).value.at);
      }
    }
  }

  lemma {:induction false} EscapedPrintable(v: Json, y: Style)
    requires y.escaped
    ensures Printable(v, y)
    decreases v
  {
    match v
    case Array(items) =>
      forall i | 0 <= i < |items| ensures Printable(items[i], y) {
        EscapedPrintable(items[i], y);
      }
    case Object(fields) =>
      forall i | 0 <= i < |fields| ensures Printable(fields[i].val, y) {
        EscapedPrintable(fields[i].val, y);
      }
    case _ =>
  }

  /** What the parser can produce, exactly: some text is read as a tree if and only if the tree is readable,
    * and then its own text is one. */
  lemma {:induction false} ReadableIff(v: Json)
    ensures (exists t :: JsonParse(t) == Some(v)) <==> Readable(v)
    ensures Readable(v) ==> JsonParse(Text(v, Style("", true))) == Some(v)
  {
    hide Lex, Parse, NumberText;
    if t :| JsonParse(t) == Some(v) {
      LexReadable(t);
      ParseReadable(Lex(t));
    }
    if Readable(v) {
      var y := Style("", true);
      EscapedPrintable(v, y);
      TreeRoundTrip(v, y, []);
      assert Text(v, y) + [] == Text(v, y);
      assert JsonParse(Text(v, y)) == Some(v);
    }
  }

  /** No item, no array; no field, no object; and a comma must be followed by one. */
  lemma {:induction false} NothingInside(y: Style, rest: string)
    requires White(y.gap)
    ensures JsonParse(y.gap + ['['] + (y.gap + [']'] + rest)) == None
    ensures JsonParse(y.gap + ['{'] + (y.gap + ['}'] + rest)) == None
    ensures MoreItems(Lex(y.gap + [','] + (y.gap + [']'] + rest))) == None
    ensures MoreFields(Lex(y.gap + [','] + (y.gap + ['}'] + rest))) == None
  {
    hide Lex;
    MarkLexed(y, ']', rest);
    MarkLexed(y, '}', rest);
    MarkLexed(y, '[', y.gap + [']'] + rest);
    MarkLexed(y, '{', y.gap + ['}'] + rest);
    MarkLexed(y, ',', y.gap + [']'] + rest);
    MarkLexed(y, ',', y.gap + ['}'] + rest);
    assert Parse(Lexed(Punct(']'), rest)) == None && Parse(Lexed(Punct('['), y.gap + [']'] + rest)) == None;
    assert ParseField(Lexed(Punct('}'), rest)) == None && Parse(Lexed(Punct('{'), y.gap + ['}'] + rest)) == None;
  }

  lemma {:induction false} CleanUnclosed(s: string)
    requires Clean(s)
    ensures Chars(s).None?
    decreases |s|
  {
    if s != [] {
      CleanUnclosed(s[1..]);
    }
  }

  lemma {:induction false} UnclosedLexed(s: string)
    requires Clean(s)
    ensures Lex(['"'] + s).tok == Error
  {
    CleanUnclosed(s);
    assert (['"'] + s)[1..] == s;
  }

  lemma IllegalLexed(c: char, rest: string)
    requires !IsLetter(c) && c !in " \t\r\n[]{},:\".0123456789"
    ensures Lex([c] + rest).tok == Error
  {}

  /** What is refused whatever comes after it: nothing at all, a mark that starts no value, and a character
    * that starts no token; and a string that does not end. */
  lemma {:induction false} NoValue(y: Style, c: char, rest: string)
    requires White(y.gap)
    ensures JsonParse(y.gap) == None
    ensures c in "]},:" ==> JsonParse(y.gap + [c] + rest) == None
    ensures !IsLetter(c) && c !in " \t\r\n[]{},:\".0123456789" ==> JsonParse(y.gap + [c] + rest) == None
    ensures Clean(rest) ==> JsonParse(y.gap + ['"'] + rest) == None
  {
    hide Lex, White, IsLetter, Clean;
    LexGap(y.gap, []);
    assert y.gap + [] == y.gap && Lex([]).tok == Eof by { EmptyLexed(); }
    LexGap(y.gap, [c] + rest);
    assert y.gap + [c] + rest == y.gap + ([c] + rest);
    LexGap(y.gap, ['"'] + rest);
    assert y.gap + ['"'] + rest == y.gap + (['"'] + rest);
    if Clean(rest) {
      UnclosedLexed(rest);
    }
    if c in "]},:" {
      LexPunct(c, rest);
    } else if !IsLetter(c) && c !in " \t\r\n[]{},:\".0123456789" {
      IllegalLexed(c, rest);
    }
  }

  lemma EmptyLexed()
    ensures Lex([]).tok == Eof
  {}
}
