/**
 JSON text as the message marker uses it: a compact printer that escapes strings the way
 section 7 of RFC 8259 allows, and a parser for the whole grammar. Numbers are kept as their
 tokens.
 */
module Json {
  import opened Digits

  datatype Value =
    | Null
    | Bool(b: bool)
    | Num(token: string)
    | Str(s: string)
    | Arr(items: seq<Value>)
    | Obj(fields: seq<Field>)

  datatype Field = Field(key: string, value: Value)

  // ---------------------------------------------------------------- printing

  /** Quote, backslash and control characters are escaped, everything else stands for itself. */
  function EscChar(c: char): (r: string)
    ensures r != []
  {
    if c == '"' then ['\\', '"']
    else if c == '\\' then ['\\', '\\']
    else if c as int == 8 then ['\\', 'b']
    else if c == '\t' then ['\\', 't']
    else if c == '\n' then ['\\', 'n']
    else if c as int == 12 then ['\\', 'f']
    else if c == '\r' then ['\\', 'r']
    else if c as int < 32 then ['\\', 'u', '0', '0', if c as int < 16 then '0' else '1', HexDigit(c as int % 16)]
    else [c]
  }

  function Esc(s: string): string {
    if s == [] then [] else EscChar(s[0]) + Esc(s[1..])
  }

  function Quote(s: string): string {
    ['"'] + Esc(s) + ['"']
  }

  function Render(v: Value): string
    decreases v
  {
    match v
    case Null => ['n', 'u', 'l', 'l']
    case Bool(b) => if b then ['t', 'r', 'u', 'e'] else ['f', 'a', 'l', 's', 'e']
    case Num(token) => token
    case Str(s) => Quote(s)
    case Arr(items) => ['['] + RenderItems(items) + [']']
    case Obj(fields) => ['{'] + RenderFields(fields) + ['}']
  }

  function RenderItems(items: seq<Value>): string
    decreases items
  {
    if items == [] then []
    else Render(items[0]) + (if |items| == 1 then [] else [','] + RenderItems(items[1..]))
  }

  function RenderFields(fields: seq<Field>): string
    decreases fields
  {
    if fields == [] then []
    else Quote(fields[0].key) + [':'] + Render(fields[0].value)
         + (if |fields| == 1 then [] else [','] + RenderFields(fields[1..]))
  }

  // ---------------------------------------------------------------- parsing

  datatype Parsed<+T> = Fail | Done(value: T, rest: string)

  predicate IsWs(c: char) {
    c == ' ' || c == '\n' || c == '\t' || c == '\r'
  }

  function SkipWs(s: string): (r: string)
    ensures |r| <= |s|
  {
    if s != [] && IsWs(s[0]) then SkipWs(s[1..]) else s
  }

  function HexValue(c: char): int {
    if '0' <= c <= '9' then c as int - '0' as int
    else if 'a' <= c <= 'f' then c as int - 'a' as int + 10
    else if 'A' <= c <= 'F' then c as int - 'A' as int + 10
    else -1
  }

  /** Four hexadecimal digits, or -1. */
  function Hex4(s: string): (n: int)
    ensures -1 <= n < 0x10000
  {
    if |s| < 4 || HexValue(s[0]) < 0 || HexValue(s[1]) < 0 || HexValue(s[2]) < 0 || HexValue(s[3]) < 0 then -1
    else HexValue(s[0]) * 0x1000 + HexValue(s[1]) * 0x100 + HexValue(s[2]) * 0x10 + HexValue(s[3])
  }

  /** What follows `\u`: a code unit, or a pair of surrogates. A lone surrogate is an error. */
  function ParseUnicode(s: string): (r: Parsed<char>)
    ensures r.Done? ==> |r.rest| < |s|
  {
    var n := Hex4(s);
    if n < 0 then Fail
    else if n < 0xD800 || n > 0xDFFF then Done(n as char, s[4..])
    else if n >= 0xDC00 || |s| < 10 || s[4] != '\\' || s[5] != 'u' then Fail
    else
      var m := Hex4(s[6..]);
      if m < 0xDC00 || m > 0xDFFF then Fail
      else Done((0x10000 + (n - 0xD800) * 0x400 + (m - 0xDC00)) as char, s[10..])
  }

  /** What follows a backslash. */
  function ParseEscape(s: string): (r: Parsed<char>)
    ensures r.Done? ==> |r.rest| < |s|
  {
    if s == [] then Fail
    else if s[0] == '"' || s[0] == '\\' || s[0] == '/' then Done(s[0], s[1..])
    else if s[0] == 'b' then Done(8 as char, s[1..])
    else if s[0] == 't' then Done('\t', s[1..])
    else if s[0] == 'n' then Done('\n', s[1..])
    else if s[0] == 'f' then Done(12 as char, s[1..])
    else if s[0] == 'r' then Done('\r', s[1..])
    else if s[0] == 'u' then ParseUnicode(s[1..])
    else Fail
  }

  /** The inside of a string, up to and including the closing quote. */
  function ParseChars(s: string): (r: Parsed<string>)
    ensures r.Done? ==> |r.rest| < |s|
    decreases |s|
  {
    if s == [] || s[0] as int < 32 then Fail
    else if s[0] == '"' then Done([], s[1..])
    else if s[0] == '\\' then
      match ParseEscape(s[1..])
      case Fail => Fail
      case Done(c, rest) => Prepend(c, ParseChars(rest))
    else Prepend(s[0], ParseChars(s[1..]))
  }

  function Prepend(c: char, p: Parsed<string>): Parsed<string> {
    match p
    case Fail => Fail
    case Done(s, rest) => Done([c] + s, rest)
  }

  predicate IsDigit(c: char) {
    '0' <= c <= '9'
  }

  function DigitRun(s: string): (n: nat)
    ensures n <= |s|
  {
    if s != [] && IsDigit(s[0]) then 1 + DigitRun(s[1..]) else 0
  }

  /** Length of an optional fraction, or -1. */
  function FractionRun(s: string): (n: int)
    ensures -1 <= n <= |s|
  {
    if s == [] || s[0] != '.' then 0
    else if DigitRun(s[1..]) == 0 then -1
    else 1 + DigitRun(s[1..])
  }

  /** Length of an optional exponent, or -1. */
  function ExponentRun(s: string): (n: int)
    ensures -1 <= n <= |s|
  {
    if s == [] || (s[0] != 'e' && s[0] != 'E') then 0
    else
      var sign := if |s| > 1 && (s[1] == '+' || s[1] == '-') then 1 else 0;
      if DigitRun(s[1 + sign..]) == 0 then -1 else 1 + sign + DigitRun(s[1 + sign..])
  }

  function ParseNumber(s: string): (r: Parsed<Value>)
    ensures r.Done? ==> |r.rest| < |s|
  {
    var sign := if s != [] && s[0] == '-' then 1 else 0;
    var whole := DigitRun(s[sign..]);
    if whole == 0 || (whole > 1 && s[sign] == '0') then Fail
    else
      var afterWhole := sign + whole;
      var fraction := FractionRun(s[afterWhole..]);
      if fraction < 0 then Fail
      else
        var afterFraction := afterWhole + fraction;
        var exponent := ExponentRun(s[afterFraction..]);
        if exponent < 0 then Fail
        else Done(Num(s[..afterFraction + exponent]), s[afterFraction + exponent..])
  }

  function ParseWord(s: string, word: string, v: Value): (r: Parsed<Value>)
    requires word != []
    ensures r.Done? ==> |r.rest| < |s|
  {
    if word <= s then Done(v, s[|word|..]) else Fail
  }

  /** A value whose first character is at the head of `s`. */
  function ParseHere(s: string): (r: Parsed<Value>)
    ensures r.Done? ==> |r.rest| < |s|
    decreases |s|, 0
  {
    if s == [] then Fail
    else if s[0] == '"' then
      match ParseChars(s[1..])
      case Fail => Fail
      case Done(str, rest) => Done(Str(str), rest)
    else if s[0] == '{' then
      match ParseObject(s[1..])
      case Fail => Fail
      case Done(fields, rest) => Done(Obj(fields), rest)
    else if s[0] == '[' then
      match ParseArray(s[1..])
      case Fail => Fail
      case Done(items, rest) => Done(Arr(items), rest)
    else if s[0] == 'n' then ParseWord(s, ['n', 'u', 'l', 'l'], Null)
    else if s[0] == 't' then ParseWord(s, ['t', 'r', 'u', 'e'], Bool(true))
    else if s[0] == 'f' then ParseWord(s, ['f', 'a', 'l', 's', 'e'], Bool(false))
    else ParseNumber(s)
  }

  function ParseValue(s: string): (r: Parsed<Value>)
    ensures r.Done? ==> |r.rest| < |s|
    decreases |s|, 1
  {
    ParseHere(SkipWs(s))
  }

  function ParseObject(s: string): (r: Parsed<seq<Field>>)
    ensures r.Done? ==> |r.rest| < |s|
    decreases |s|, 3
  {
    var t := SkipWs(s);
    if t != [] && t[0] == '}' then Done([], t[1..]) else ParseFields(t)
  }

  /** A member's key and its colon. */
  function ParseKey(s: string): (r: Parsed<string>)
    ensures r.Done? ==> |r.rest| < |s|
  {
    var t := SkipWs(s);
    if t == [] || t[0] != '"' then Fail
    else
      match ParseChars(t[1..])
      case Fail => Fail
      case Done(key, afterKey) =>
        var u := SkipWs(afterKey);
        if u == [] || u[0] != ':' then Fail else Done(key, u[1..])
  }

  /** One member and what follows it. A repeated key is kept: the last one wins on lookup. */
  function ParseFields(s: string): (r: Parsed<seq<Field>>)
    ensures r.Done? ==> |r.rest| < |s|
    decreases |s|, 2
  {
    match ParseKey(s)
    case Fail => Fail
    case Done(key, afterKey) =>
      match ParseValue(afterKey)
      case Fail => Fail
      case Done(value, afterValue) =>
        var w := SkipWs(afterValue);
        if w == [] then Fail
        else if w[0] == '}' then Done([Field(key, value)], w[1..])
        else if w[0] != ',' then Fail
        else
          match ParseFields(w[1..])
          case Fail => Fail
          case Done(fields, rest) => Done([Field(key, value)] + fields, rest)
  }

  function ParseArray(s: string): (r: Parsed<seq<Value>>)
    ensures r.Done? ==> |r.rest| < |s|
    decreases |s|, 3
  {
    var t := SkipWs(s);
    if t != [] && t[0] == ']' then Done([], t[1..]) else ParseItems(t)
  }

  function ParseItems(s: string): (r: Parsed<seq<Value>>)
    ensures r.Done? ==> |r.rest| < |s|
    decreases |s|, 2
  {
    match ParseValue(s)
    case Fail => Fail
    case Done(value, afterValue) =>
      var w := SkipWs(afterValue);
      if w == [] then Fail
      else if w[0] == ']' then Done([value], w[1..])
      else if w[0] != ',' then Fail
      else
        match ParseItems(w[1..])
        case Fail => Fail
        case Done(items, rest) => Done([value] + items, rest)
  }

  /** A whole document: one value, and nothing after it but white space. */
  function ParseDocument(s: string): Parsed<Value> {
    match ParseValue(s)
    case Fail => Fail
    case Done(v, rest) => if SkipWs(rest) == [] then Done(v, []) else Fail
  }

  // ---------------------------------------------------------------- round trip: strings

  /** Reading back one escaped character. */
  lemma EscCharReads(c: char, rest: string)
    ensures ParseChars(EscChar(c) + rest) == Prepend(c, ParseChars(rest))
  {
    if |EscChar(c)| == 2 {
      var s := EscChar(c) + rest;
      assert s[1..] == [EscChar(c)[1]] + rest;
      ShortEscapeReads(c, rest);
    } else if |EscChar(c)| == 6 {
      ControlReads(c, rest);
    } else {
      assert ([c] + rest)[1..] == rest;
    }
  }

  lemma ShortEscapeReads(c: char, rest: string)
    requires |EscChar(c)| == 2
    ensures ParseEscape([EscChar(c)[1]] + rest) == Done(c, rest)
  {
    assert ([EscChar(c)[1]] + rest)[1..] == rest;
  }

  lemma ControlReads(c: char, rest: string)
    requires c as int < 32 && |EscChar(c)| == 6
    ensures ParseChars(EscChar(c) + rest) == Prepend(c, ParseChars(rest))
  {
    var e := EscChar(c);
    var s := e + rest;
    var t := s[2..];
    assert t == e[2..] + rest && t[4..] == rest;
    assert Hex4(t) == c as int by { assert t[0] == '0' && t[1] == '0' && t[2] == e[4] && t[3] == e[5]; }
    assert s[1..][1..] == t;
  }

  lemma {:induction false} EscReads(s: string, rest: string)
    ensures ParseChars(Esc(s) + ['"'] + rest) == Done(s, rest)
  {
    if s == [] {
      ClosingQuote(Esc(s) + ['"'] + rest, rest);
    } else {
      EscReads(s[1..], rest);
      Assoc(EscChar(s[0]), Esc(s[1..]), ['"'], rest);
      EscCharReads(s[0], Esc(s[1..]) + ['"'] + rest);
      assert [s[0]] + s[1..] == s;
    }
  }

  lemma ClosingQuote(s: string, rest: string)
    requires s == ['"'] + rest
    ensures ParseChars(s) == Done([], rest)
  {
    assert s[1..] == rest;
  }

  lemma Assoc(a: string, b: string, c: string, d: string)
    ensures a + b + c + d == a + (b + c + d)
  {
  }

  lemma QuoteReads(s: string, rest: string)
    ensures Quote(s) + rest != [] && (Quote(s) + rest)[0] == '"'
    ensures ParseChars((Quote(s) + rest)[1..]) == Done(s, rest)
  {
    assert (Quote(s) + rest)[1..] == Esc(s) + ['"'] + rest;
    EscReads(s, rest);
  }

  // ---------------------------------------------------------------- round trip: values

  /** Number tokens the printer emits: decimal naturals without leading zeros. */
  predicate IsNatural(token: string) {
    token != [] && DigitRun(token) == |token| && (|token| > 1 ==> token[0] != '0')
  }

  predicate Printable(v: Value)
    decreases v
  {
    match v
    case Num(token) => IsNatural(token)
    case Arr(items) => forall i :: 0 <= i < |items| ==> Printable(items[i])
    case Obj(fields) => forall i :: 0 <= i < |fields| ==> Printable(fields[i].value)
    case _ => true
  }

  /** What may follow a value inside a document. */
  predicate Delimited(rest: string) {
    rest == [] || rest[0] == ',' || rest[0] == '}' || rest[0] == ']'
  }

  lemma {:induction false} DigitRunStops(token: string, rest: string)
    requires DigitRun(token) == |token| && (rest == [] || !IsDigit(rest[0]))
    ensures DigitRun(token + rest) == |token|
  {
    if token == [] {
      assert token + rest == rest;
    } else {
      assert (token + rest)[1..] == token[1..] + rest;
      DigitRunStops(token[1..], rest);
    }
  }

  lemma NaturalReads(token: string, rest: string)
    requires IsNatural(token) && Delimited(rest)
    ensures ParseNumber(token + rest) == Done(Num(token), rest)
    ensures IsDigit(token[0])
  {
    DigitRunStops(token, rest);
    var s := token + rest;
    assert s[0..] == s && s[|token|..] == rest && s[..|token|] == token;
  }

  /** A printed value starts with a character that is not white space and opens no confusion
      with the end of a list. */
  lemma RenderStarts(v: Value)
    requires Printable(v)
    ensures Render(v) != [] && !IsWs(Render(v)[0]) && Render(v)[0] != ']' && Render(v)[0] != '}'
  {
    if v.Num? { NaturalReads(v.token, []); }
  }

  lemma SkipNothing(s: string, rest: string)
    requires s != [] && !IsWs(s[0])
    ensures SkipWs(s + rest) == s + rest
  {
  }

  lemma WordReads(word: string, rest: string, v: Value)
    requires word != []
    ensures ParseWord(word + rest, word, v) == Done(v, rest)
  {
    assert (word + rest)[|word|..] == rest;
  }

  /** Printing and parsing are inverse, inside any context that may follow a value. */
  lemma {:induction false} RenderReads(v: Value, rest: string)
    requires Printable(v) && Delimited(rest)
    ensures ParseValue(Render(v) + rest) == Done(v, rest)
    decreases v, 1
  {
    RenderStarts(v);
    SkipNothing(Render(v), rest);
    match v
    case Null => WordReads(Render(v), rest, v);
    case Bool(b) => WordReads(Render(v), rest, v);
    case Num(token) => NaturalReads(token, rest);
    case Str(s) => QuoteReads(s, rest);
    case Arr(items) => ArrayReads(items, rest);
    case Obj(fields) => ObjectReads(fields, rest);
  }

  lemma {:induction false} ObjectReads(fields: seq<Field>, rest: string)
    requires forall i :: 0 <= i < |fields| ==> Printable(fields[i].value)
    ensures ParseHere(['{'] + RenderFields(fields) + ['}'] + rest) == Done(Obj(fields), rest)
    decreases fields, 3
  {
    if fields != [] {
      FieldsRead(fields, rest);
      FieldsStart(fields);
    }
    ObjectFrom(RenderFields(fields), fields, rest);
  }

  lemma FieldsStart(fields: seq<Field>)
    requires fields != []
    ensures RenderFields(fields) != [] && RenderFields(fields)[0] == '"'
  {
  }

  lemma ObjectFrom(body: string, fields: seq<Field>, rest: string)
    requires if fields == [] then body == []
             else body != [] && body[0] == '"' && ParseFields(body + ['}'] + rest) == Done(fields, rest)
    ensures ParseHere(['{'] + body + ['}'] + rest) == Done(Obj(fields), rest)
  {
    var t := body + ['}'] + rest;
    if fields == [] { assert t[1..] == rest; }
    ObjectBody(t, fields, rest);
    Assoc(['{'], body, ['}'], rest);
    OpenObject(['{'] + t, t, fields, rest);
  }

  lemma ObjectBody(t: string, fields: seq<Field>, rest: string)
    requires t != [] && (if fields == [] then t[0] == '}' && t[1..] == rest
                         else t[0] == '"' && ParseFields(t) == Done(fields, rest))
    ensures ParseObject(t) == Done(fields, rest)
  {
    assert SkipWs(t) == t;
  }

  lemma OpenObject(s: string, t: string, fields: seq<Field>, rest: string)
    requires s == ['{'] + t && ParseObject(t) == Done(fields, rest)
    ensures ParseHere(s) == Done(Obj(fields), rest)
  {
    assert s[1..] == t;
  }

  lemma {:induction false} FieldsRead(fields: seq<Field>, rest: string)
    requires fields != [] && forall i :: 0 <= i < |fields| ==> Printable(fields[i].value)
    ensures ParseFields(RenderFields(fields) + ['}'] + rest) == Done(fields, rest)
    decreases fields, 2
  {
    var f := fields[0];
    if |fields| == 1 {
      RenderReads(f.value, ['}'] + rest);
      LastFieldReads(fields, f, rest, ['}'] + rest);
    } else {
      var more := RenderFields(fields[1..]) + ['}'] + rest;
      FieldsRead(fields[1..], rest);
      RenderReads(f.value, [','] + more);
      FirstOfMore(fields, f, fields[1..], rest, more, RenderFields(fields) + ['}'] + rest, [','] + more);
    }
  }

  lemma LastFieldReads(fields: seq<Field>, f: Field, rest: string, end: string)
    requires |fields| == 1 && f == fields[0] && end == ['}'] + rest
    requires ParseValue(Render(f.value) + end) == Done(f.value, end)
    ensures ParseFields(RenderFields(fields) + ['}'] + rest) == Done(fields, rest)
  {
    LastFieldText(fields, f, rest);
    KeyReads(f.key, Render(f.value) + end);
    LastField(RenderFields(fields) + ['}'] + rest, f, Render(f.value) + end, end);
    assert fields == [f] && end[1..] == rest;
  }

  lemma FirstOfMore(fields: seq<Field>, f: Field, later: seq<Field>, rest: string, more: string, s: string,
                    afterValue: string)
    requires |fields| > 1 && f == fields[0] && later == fields[1..] && s == RenderFields(fields) + ['}'] + rest
    requires more == RenderFields(later) + ['}'] + rest && afterValue == [','] + more
    requires ParseValue(Render(f.value) + afterValue) == Done(f.value, afterValue) && ParseFields(more) == Done(later, rest)
    ensures ParseFields(s) == Done(fields, rest)
  {
    FieldText(fields, f, rest, more);
    MoreFieldsRead(f, later, rest, more, s, Render(f.value) + afterValue, afterValue);
    assert fields == [f] + later;
  }

  lemma MoreFieldsRead(f: Field, later: seq<Field>, rest: string, more: string, s: string, afterKey: string,
                       afterValue: string)
    requires s == Quote(f.key) + ([':'] + afterKey) && afterValue == [','] + more
    requires ParseValue(afterKey) == Done(f.value, afterValue) && ParseFields(more) == Done(later, rest)
    ensures ParseFields(s) == Done([f] + later, rest)
  {
    KeyReads(f.key, afterKey);
    NextField(s, f, afterKey, afterValue, more, later, rest);
  }

  lemma KeyReads(key: string, rest: string)
    ensures ParseKey(Quote(key) + ([':'] + rest)) == Done(key, rest)
  {
    QuoteReads(key, [':'] + rest);
    assert ([':'] + rest)[1..] == rest;
  }

  lemma LastFieldText(fields: seq<Field>, f: Field, rest: string)
    requires |fields| == 1 && f == fields[0]
    ensures RenderFields(fields) + ['}'] + rest == Quote(f.key) + ([':'] + (Render(f.value) + (['}'] + rest)))
  {
    Regroup(Quote(f.key), Render(f.value), [], ['}'], rest);
  }

  lemma FieldText(fields: seq<Field>, f: Field, rest: string, more: string)
    requires |fields| > 1 && f == fields[0] && more == RenderFields(fields[1..]) + ['}'] + rest
    ensures RenderFields(fields) + ['}'] + rest == Quote(f.key) + ([':'] + (Render(f.value) + ([','] + more)))
  {
    var tail := RenderFields(fields[1..]);
    assert RenderFields(fields) == Quote(f.key) + [':'] + Render(f.value) + ([','] + tail);
    Regroup(Quote(f.key), Render(f.value), [','] + tail, ['}'], rest);
    Comma(tail, ['}'], rest);
  }

  lemma Comma(tail: string, close: string, rest: string)
    ensures ([','] + tail) + (close + rest) == [','] + (tail + close + rest)
  {
  }

  lemma Regroup(q: string, v: string, more: string, close: string, rest: string)
    ensures q + [':'] + v + more + close + rest == q + ([':'] + (v + (more + (close + rest))))
  {
  }

  /** The two ways a member can end, with the pieces already read. */
  lemma LastField(s: string, f: Field, afterKey: string, afterValue: string)
    requires ParseKey(s) == Done(f.key, afterKey) && ParseValue(afterKey) == Done(f.value, afterValue)
    requires afterValue != [] && afterValue[0] == '}'
    ensures ParseFields(s) == Done([f], afterValue[1..])
  {
  }

  lemma NextField(s: string, f: Field, afterKey: string, afterValue: string, more: string, fields: seq<Field>, rest: string)
    requires ParseKey(s) == Done(f.key, afterKey) && ParseValue(afterKey) == Done(f.value, afterValue)
    requires afterValue == [','] + more && ParseFields(more) == Done(fields, rest)
    ensures ParseFields(s) == Done([f] + fields, rest)
  {
    assert afterValue[1..] == more;
  }

  lemma {:induction false} ArrayReads(items: seq<Value>, rest: string)
    requires forall i :: 0 <= i < |items| ==> Printable(items[i])
    ensures ParseHere(['['] + RenderItems(items) + [']'] + rest) == Done(Arr(items), rest)
    decreases items, 3
  {
    var s := ['['] + RenderItems(items) + [']'] + rest;
    var t := RenderItems(items) + [']'] + rest;
    assert s[1..] == t;
    if items == [] {
      assert t == [']'] + rest;
    } else {
      ItemsRead(items, rest);
      RenderStarts(items[0]);
      assert t[0] == Render(items[0])[0];
    }
  }

  lemma {:induction false} ItemsRead(items: seq<Value>, rest: string)
    requires items != [] && forall i :: 0 <= i < |items| ==> Printable(items[i])
    ensures ParseItems(RenderItems(items) + [']'] + rest) == Done(items, rest)
    decreases items, 2
  {
    var v := Render(items[0]);
    if |items| == 1 {
      assert RenderItems(items) == v + [];
      Assoc(v, [], [']'], rest);
      assert [] + [']'] + rest == [']'] + rest;
      RenderReads(items[0], [']'] + rest);
      LastItem(v + ([']'] + rest), items[0], [']'] + rest);
      assert items == [items[0]];
    } else {
      var tail := RenderItems(items[1..]);
      var more := tail + [']'] + rest;
      ItemsRead(items[1..], rest);
      assert RenderItems(items) == v + ([','] + tail);
      Assoc(v, [','] + tail, [']'], rest);
      Assoc([','], tail, [']'], rest);
      RenderReads(items[0], [','] + more);
      NextItem(v + ([','] + more), items[0], [','] + more, more, items[1..], rest);
      assert items == [items[0]] + items[1..];
    }
  }

  lemma LastItem(s: string, v: Value, afterValue: string)
    requires ParseValue(s) == Done(v, afterValue) && afterValue != [] && afterValue[0] == ']'
    ensures ParseItems(s) == Done([v], afterValue[1..])
  {
  }

  lemma NextItem(s: string, v: Value, afterValue: string, more: string, items: seq<Value>, rest: string)
    requires ParseValue(s) == Done(v, afterValue) && afterValue == [','] + more && ParseItems(more) == Done(items, rest)
    ensures ParseItems(s) == Done([v] + items, rest)
  {
    assert afterValue[1..] == more;
  }

  /** Whatever the printer prints, the parser reads back. */
  lemma RoundTrip(v: Value)
    requires Printable(v)
    ensures ParseDocument(Render(v)) == Done(v, [])
  {
    RenderReads(v, []);
    assert Render(v) + [] == Render(v);
  }
}
