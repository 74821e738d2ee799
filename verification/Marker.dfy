/**
 The message-delivery marker: the line the command-line client prints, the scan that finds
 it anywhere in a tool result, and the sibling echo that must never be mistaken for it.
 */
module Marker {
  import opened Options
  import opened Json
  import opened Digits

  const KEY := "kallip.lesche.message"
  const SENT_KEY := "kallip.message.sent"
  const TEXT := "text"

  function Needle(): string {
    ['"'] + KEY + ['"']
  }

  // ---------------------------------------------------------------- the two printers

  function MarkerValue(text: string): Value {
    Obj([Field(KEY, Obj([Field(TEXT, Str(text))]))])
  }

  function MarkerLine(text: string): string {
    Render(MarkerValue(text))
  }

  function SentFields(to: string, text: string, queueDepth: nat, warning: Option<string>): seq<Field> {
    [Field("to", Str(to)), Field(TEXT, Str(text)), Field("queue_depth", Num(Dec(queueDepth)))]
    + if warning.Some? then [Field("warning", Str(warning.value))] else []
  }

  function MessageSentLine(to: string, text: string, queueDepth: nat, warning: Option<string>): string {
    Render(Obj([Field(SENT_KEY, Obj(SentFields(to, text, queueDepth, warning)))]))
  }

  // ---------------------------------------------------------------- the scan

  predicate OccursAt(s: string, p: string, i: nat) {
    i + |p| <= |s| && s[i..i + |p|] == p
  }

  /** First occurrence of `p` at or after `i`. */
  function IndexFrom(s: string, p: string, i: nat): (r: Option<nat>)
    ensures r.Some? ==> i <= r.value && OccursAt(s, p, r.value)
    decreases |s| - i
  {
    if i > |s| then None
    else if OccursAt(s, p, i) then Some(i)
    else IndexFrom(s, p, i + 1)
  }

  /** Last opening brace before `i`. */
  function LastBrace(s: string, i: nat): (r: Option<nat>)
    requires i <= |s|
    ensures r.Some? ==> r.value < i && s[r.value] == '{'
  {
    if i == 0 then None else if s[i - 1] == '{' then Some(i - 1) else LastBrace(s, i - 1)
  }

  datatype Lex = Lex(depth: int, inStr: bool, escape: bool)

  function Step(st: Lex, ch: char): Lex {
    if st.inStr then
      if st.escape then st.(escape := false)
      else if ch == '\\' then st.(escape := true)
      else if ch == '"' then st.(inStr := false)
      else st
    else if ch == '"' then st.(inStr := true)
    else if ch == '{' then st.(depth := st.depth + 1)
    else if ch == '}' then st.(depth := st.depth - 1)
    else st
  }

  predicate Closes(st: Lex, ch: char) {
    !st.inStr && ch == '}' && st.depth == 1
  }

  datatype Walked = Open(st: Lex) | Closed(len: nat)

  /** Walk braces to the matching close, which is the last of `len` characters. */
  function Walk(s: string, st: Lex): (w: Walked)
    ensures w.Closed? ==> 0 < w.len <= |s|
  {
    if s == [] then Open(st)
    else if Closes(st, s[0]) then Closed(1)
    else Shift(1, Walk(s[1..], Step(st, s[0])))
  }

  function Shift(n: nat, w: Walked): Walked {
    if w.Closed? then Closed(w.len + n) else w
  }

  /** Lookup in an object: the last of repeated keys wins. */
  function Get(v: Value, key: string): Option<Value> {
    if v.Obj? then LastValue(v.fields, key) else None
  }

  function LastValue(fields: seq<Field>, key: string): Option<Value> {
    if fields == [] then None
    else if fields[|fields| - 1].key == key then Some(fields[|fields| - 1].value)
    else LastValue(fields[..|fields| - 1], key)
  }

  function TextOf(v: Value): Option<string> {
    match Get(v, KEY)
    case None => None
    case Some(m) =>
      match Get(m, TEXT)
      case None => None
      case Some(t) => if t.Str? then Some(t.s) else None
  }

  function Extract(document: string): Option<string> {
    match ParseDocument(document)
    case Fail => None
    case Done(v, _) => TextOf(v)
  }

  /** The scan from an opening brace. */
  function FromBrace(s: string): Option<string> {
    match Walk(s, Lex(0, false, false))
    case Open(_) => None
    case Closed(n) => Extract(s[..n])
  }

  function Find(result: string): Option<string> {
    match IndexFrom(result, Needle(), 0)
    case None => None
    case Some(idx) =>
      match LastBrace(result, idx)
      case None => None
      case Some(start) => FromBrace(result[start..])
  }

  /** The brace walk, one pass over the characters with depth and string flags. */
  method WalkBraces(s: string) returns (end: nat)
    ensures end <= |s|
    ensures if end == 0 then Walk(s, Lex(0, false, false)).Open? else Walk(s, Lex(0, false, false)) == Closed(end)
  {
    var depth, inStr, escape := 0, false, false;
    var i := 0;
    assert s[0..] == s;
    while i < |s|
      invariant 0 <= i <= |s|
      invariant Walk(s, Lex(0, false, false)) == Shift(i, Walk(s[i..], Lex(depth, inStr, escape)))
    {
      var ch := s[i];
      assert s[i..][1..] == s[i + 1..];
      if inStr {
        if escape {
          escape := false;
        } else if ch == '\\' {
          escape := true;
        } else if ch == '"' {
          inStr := false;
        }
      } else if ch == '"' {
        inStr := true;
      } else if ch == '{' {
        depth := depth + 1;
      } else if ch == '}' {
        depth := depth - 1;
        if depth == 0 {
          return i + 1;
        }
      }
      i := i + 1;
    }
    return 0;
  }

  /** `find_lesche_message`. */
  method FindLescheMessage(result: string) returns (r: Option<string>)
    ensures r == Find(result)
  {
    var idx := IndexFrom(result, Needle(), 0);
    if idx == None {
      return None;
    }
    var start := LastBrace(result, idx.value);
    if start == None {
      return None;
    }
    var s := result[start.value..];
    var end := WalkBraces(s);
    if end == 0 {
      return None;
    }
    r := Extract(s[..end]);
  }

  // ---------------------------------------------------------------- walking printed text

  lemma {:induction false} WalkConcat(a: string, b: string, st: Lex)
    ensures Walk(a + b, st) == match Walk(a, st)
                               case Closed(n) => Closed(n)
                               case Open(st') => Shift(|a|, Walk(b, st'))
  {
    if a == [] {
      assert a + b == b;
    } else if !Closes(st, a[0]) {
      assert (a + b)[1..] == a[1..] + b;
      WalkConcat(a[1..], b, Step(st, a[0]));
    }
  }

  lemma WalkEscChar(c: char, d: int)
    ensures Walk(EscChar(c), Lex(d, true, false)) == Open(Lex(d, true, false))
  {
    var e := EscChar(c);
    var st := Lex(d, true, false);
    if |e| == 1 {
      assert e[1..] == [];
    } else {
      WalkEscape(e[1..], d);
    }
  }

  /** After a backslash one character is skipped; the rest of a `\u` escape is plain. */
  lemma WalkEscape(t: string, d: int)
    requires t != [] && forall i :: 1 <= i < |t| ==> t[i] != '\\' && t[i] != '"'
    ensures Walk(t, Lex(d, true, true)) == Open(Lex(d, true, false))
  {
    WalkPlain(t[1..], d);
  }

  lemma {:induction false} WalkPlain(t: string, d: int)
    requires forall i :: 0 <= i < |t| ==> t[i] != '\\' && t[i] != '"'
    ensures Walk(t, Lex(d, true, false)) == Open(Lex(d, true, false))
  {
    if t != [] { WalkPlain(t[1..], d); }
  }

  lemma {:induction false} WalkEsc(s: string, d: int)
    ensures Walk(Esc(s), Lex(d, true, false)) == Open(Lex(d, true, false))
  {
    if s != [] {
      WalkEscChar(s[0], d);
      WalkEsc(s[1..], d);
      WalkConcat(EscChar(s[0]), Esc(s[1..]), Lex(d, true, false));
    }
  }

  /** Nothing inside a printed string opens or closes a brace. */
  lemma WalkQuote(s: string, d: int)
    ensures Walk(Quote(s), Lex(d, false, false)) == Open(Lex(d, false, false))
  {
    var inside := Lex(d, true, false);
    WalkEsc(s, d);
    assert ['"'][1..] == [];
    assert Walk(['"'], inside) == Open(Lex(d, false, false));
    WalkConcat(Esc(s), ['"'], inside);
    assert Quote(s)[1..] == Esc(s) + ['"'];
  }

  lemma {:induction false} WalkToken(t: string, d: int)
    requires forall i :: 0 <= i < |t| ==> t[i] != '{' && t[i] != '}' && t[i] != '"'
    ensures Walk(t, Lex(d, false, false)) == Open(Lex(d, false, false))
  {
    if t != [] { WalkToken(t[1..], d); }
  }

  lemma {:induction false} DigitsArePlain(t: string)
    requires DigitRun(t) == |t|
    ensures forall i :: 0 <= i < |t| ==> IsDigit(t[i])
  {
    if t != [] { DigitsArePlain(t[1..]); }
  }

  /** Two stretches that each leave the walk where it was do so together. */
  lemma WalkBoth(a: string, b: string, st: Lex)
    requires Walk(a, st) == Open(st) && Walk(b, st) == Open(st)
    ensures Walk(a + b, st) == Open(st)
  {
    WalkConcat(a, b, st);
  }

  /** Inside an object, a printed value leaves the walk where it was. */
  lemma {:induction false} WalkRender(v: Value, d: nat)
    requires Printable(v) && d >= 1
    ensures Walk(Render(v), Lex(d, false, false)) == Open(Lex(d, false, false))
    decreases v, 1
  {
    match v
    case Null => WalkToken(Render(v), d);
    case Bool(b) => WalkToken(Render(v), d);
    case Num(token) => DigitsArePlain(token); WalkToken(token, d);
    case Str(s) => WalkQuote(s, d);
    case Arr(items) => WalkItems(items, d); WalkBracket(RenderItems(items), d);
    case Obj(fields) => WalkFields(fields, d + 1); WalkBrace(RenderFields(fields), d);
  }

  lemma WalkBracket(body: string, d: nat)
    requires Walk(body, Lex(d, false, false)) == Open(Lex(d, false, false))
    ensures Walk(['['] + body + [']'], Lex(d, false, false)) == Open(Lex(d, false, false))
  {
    WalkToken(['['], d);
    WalkToken([']'], d);
    WalkBoth(['['], body, Lex(d, false, false));
    WalkBoth(['['] + body, [']'], Lex(d, false, false));
  }

  lemma WalkBrace(body: string, d: nat)
    requires d >= 1 && Walk(body, Lex(d + 1, false, false)) == Open(Lex(d + 1, false, false))
    ensures Walk(['{'] + body + ['}'], Lex(d, false, false)) == Open(Lex(d, false, false))
  {
    var inner := Lex(d + 1, false, false);
    assert (['{'] + body + ['}'])[1..] == body + ['}'];
    WalkConcat(body, ['}'], inner);
    assert ['}'][1..] == [];
    assert Walk(['}'], inner) == Open(Lex(d, false, false));
  }

  lemma {:induction false} WalkItems(items: seq<Value>, d: nat)
    requires (forall i :: 0 <= i < |items| ==> Printable(items[i])) && d >= 1
    ensures Walk(RenderItems(items), Lex(d, false, false)) == Open(Lex(d, false, false))
    decreases items, 0
  {
    if items != [] {
      WalkRender(items[0], d);
      if |items| == 1 {
        WalkToken([], d);
        WalkBoth(Render(items[0]), [], Lex(d, false, false));
      } else {
        WalkItems(items[1..], d);
        WalkToken([','], d);
        WalkBoth([','], RenderItems(items[1..]), Lex(d, false, false));
        WalkBoth(Render(items[0]), [','] + RenderItems(items[1..]), Lex(d, false, false));
      }
    }
  }

  lemma {:induction false} WalkFields(fields: seq<Field>, d: nat)
    requires (forall i :: 0 <= i < |fields| ==> Printable(fields[i].value)) && d >= 1
    ensures Walk(RenderFields(fields), Lex(d, false, false)) == Open(Lex(d, false, false))
    decreases fields, 0
  {
    if fields != [] {
      WalkRender(fields[0].value, d);
      var member := Quote(fields[0].key) + [':'] + Render(fields[0].value);
      WalkMember(fields[0], d, Render(fields[0].value));
      if |fields| == 1 {
        WalkToken([], d);
        WalkBoth(member, [], Lex(d, false, false));
      } else {
        WalkFields(fields[1..], d);
        WalkToken([','], d);
        WalkBoth([','], RenderFields(fields[1..]), Lex(d, false, false));
        WalkBoth(member, [','] + RenderFields(fields[1..]), Lex(d, false, false));
      }
    }
  }

  lemma WalkMember(f: Field, d: nat, value: string)
    requires Walk(value, Lex(d, false, false)) == Open(Lex(d, false, false))
    ensures Walk(Quote(f.key) + [':'] + value, Lex(d, false, false)) == Open(Lex(d, false, false))
  {
    WalkQuote(f.key, d);
    WalkToken([':'], d);
    WalkBoth(Quote(f.key), [':'], Lex(d, false, false));
    WalkBoth(Quote(f.key) + [':'], value, Lex(d, false, false));
  }

  /** From its own opening brace, the walk ends exactly at the end of a printed object,
      whatever follows it. */
  lemma WalkObject(fields: seq<Field>, suffix: string)
    requires forall i :: 0 <= i < |fields| ==> Printable(fields[i].value)
    ensures Walk(Render(Obj(fields)) + suffix, Lex(0, false, false)) == Closed(|Render(Obj(fields))|)
  {
    WalkFields(fields, 1);
    WalkTop(RenderFields(fields), suffix);
  }

  lemma WalkTop(body: string, suffix: string)
    requires Walk(body, Lex(1, false, false)) == Open(Lex(1, false, false))
    ensures Walk(['{'] + body + ['}'] + suffix, Lex(0, false, false)) == Closed(|body| + 2)
  {
    assert (['{'] + body + ['}'] + suffix)[1..] == body + (['}'] + suffix);
    WalkConcat(body, ['}'] + suffix, Lex(1, false, false));
  }

  /** So the scan from that brace reads back exactly the printed object. */
  lemma BraceReads(fields: seq<Field>, suffix: string)
    requires forall i :: 0 <= i < |fields| ==> Printable(fields[i].value)
    ensures FromBrace(Render(Obj(fields)) + suffix) == TextOf(Obj(fields))
  {
    var doc := Render(Obj(fields));
    WalkObject(fields, suffix);
    assert (doc + suffix)[..|doc|] == doc;
    RoundTrip(Obj(fields));
  }

  // ---------------------------------------------------------------- the marker is found

  /** Characters that print as themselves and cannot be taken for structure. */
  predicate IsPlain(c: char) {
    c as int > 32 && c != '"' && c != '\\' && c != '{' && c != ':'
  }

  lemma {:induction false} PlainPrintsItself(s: string)
    requires forall c :: c in s ==> IsPlain(c)
    ensures Esc(s) == s
  {
    if s != [] {
      assert s[0] in s;
      PlainPrintsItself(s[1..]);
    }
  }

  lemma PlainQuote(s: string)
    requires forall c :: c in s ==> IsPlain(c)
    ensures Quote(s) == ['"'] + s + ['"']
  {
    PlainPrintsItself(s);
  }

  lemma KeyIsPlain()
    ensures forall c :: c in KEY ==> IsPlain(c)
  {
  }

  /** An occurrence of `p` that is not inside `prefix` cannot begin before a character `p` does
      not contain. */
  lemma {:induction false} FirstAfter(prefix: string, rest: string, p: string, i: nat)
    requires i <= |prefix| + 1 && rest != [] && rest[0] !in p && p != []
    requires IndexFrom(prefix, p, if i <= |prefix| then i else |prefix|) == None && OccursAt(prefix + rest, p, |prefix| + 1)
    ensures IndexFrom(prefix + rest, p, i) == Some(|prefix| + 1)
    decreases |prefix| + 1 - i
  {
    if i <= |prefix| {
      NoOccurrence(prefix, rest, p, i);
      FirstAfter(prefix, rest, p, i + 1);
    }
  }

  lemma NoOccurrence(prefix: string, rest: string, p: string, i: nat)
    requires i <= |prefix| && rest != [] && rest[0] !in p && p != [] && !OccursAt(prefix, p, i)
    ensures !OccursAt(prefix + rest, p, i)
  {
    var s := prefix + rest;
    assert i + |p| <= |prefix| ==> s[i..i + |p|] == prefix[i..i + |p|];
    assert |prefix| < i + |p| <= |s| ==> s[i..i + |p|][|prefix| - i] == rest[0];
  }

  /** A one-member object starts with its brace and its quoted key. */
  lemma ObjectStarts(f: Field, suffix: string) returns (more: string)
    ensures Render(Obj([f])) + suffix == ['{'] + (Quote(f.key) + more)
  {
    var value := [':'] + Render(f.value);
    more := value + ['}'] + suffix;
    assert RenderFields([f]) == Quote(f.key) + [':'] + Render(f.value) + [];
    Assoc(Quote(f.key), value, ['}'], suffix);
    assert RenderFields([f]) == Quote(f.key) + value;
    Assoc(['{'], RenderFields([f]), ['}'], suffix);
  }

  lemma QuotedKeyOccurs(prefix: string, needle: string, more: string)
    ensures OccursAt(prefix + (['{'] + (needle + more)), needle, |prefix| + 1)
  {
    var s := prefix + (['{'] + (needle + more));
    assert s[|prefix| + 1..|prefix| + 1 + |needle|] == needle;
  }

  lemma ScanReachesBrace(prefix: string, rest: string, more: string)
    requires IndexFrom(prefix, Needle(), 0) == None && rest == ['{'] + (Needle() + more)
    ensures Find(prefix + rest) == FromBrace(rest)
  {
    KeyIsPlain();
    QuotedKeyOccurs(prefix, Needle(), more);
    FirstAfter(prefix, rest, Needle(), 0);
    var s := prefix + rest;
    assert s[|prefix|] == '{' && s[|prefix|..] == rest;
    assert LastBrace(s, |prefix| + 1) == Some(|prefix|);
  }

  lemma NeedleIsQuotedKey(key: string)
    requires key == KEY
    ensures Quote(key) == Needle()
  {
    KeyIsPlain();
    PlainQuote(key);
  }

  lemma KeyedObjectStarts(f: Field, suffix: string, rest: string) returns (more: string)
    requires f.key == KEY && rest == Render(Obj([f])) + suffix
    ensures rest == ['{'] + (Needle() + more)
  {
    more := ObjectStarts(f, suffix);
    NeedleIsQuotedKey(f.key);
  }

  lemma KeyedObjectIsFound(prefix: string, f: Field, suffix: string, rest: string)
    requires IndexFrom(prefix, Needle(), 0) == None && f.key == KEY && rest == Render(Obj([f])) + suffix
    ensures Find(prefix + rest) == FromBrace(rest)
  {
    var more := KeyedObjectStarts(f, suffix, rest);
    ScanReachesBrace(prefix, rest, more);
  }

  lemma MarkerReads(f: Field, text: string, suffix: string, rest: string)
    requires f == Field(KEY, Obj([Field(TEXT, Str(text))])) && rest == MarkerLine(text) + suffix
    ensures rest == Render(Obj([f])) + suffix && FromBrace(rest) == Some(text)
  {
    ReadsField(f, suffix, rest);
    TextOfMarker(f, text);
  }

  lemma ReadsField(f: Field, suffix: string, rest: string)
    requires Printable(f.value) && rest == Render(Obj([f])) + suffix
    ensures FromBrace(rest) == TextOf(Obj([f]))
  {
    BraceReads([f], suffix);
  }

  lemma TextOfMarker(f: Field, text: string)
    requires f == Field(KEY, Obj([Field(TEXT, Str(text))]))
    ensures TextOf(Obj([f])) == Some(text)
  {
    LastOfOne(f, KEY);
    LastOfOne(Field(TEXT, Str(text)), TEXT);
  }

  lemma LastOfOne(f: Field, key: string)
    requires f.key == key
    ensures LastValue([f], key) == Some(f.value)
  {
  }

  /** Wherever a marker line stands, with any text and whatever surrounds it, the scan returns
      exactly that text, unless the quoted key occurs before it. */
  lemma MarkerIsFound(prefix: string, text: string, suffix: string)
    requires IndexFrom(prefix, Needle(), 0) == None
    ensures Find(prefix + MarkerLine(text) + suffix) == Some(text)
  {
    var f := Field(KEY, Obj([Field(TEXT, Str(text))]));
    MarkerReads(f, text, suffix, MarkerLine(text) + suffix);
    KeyedObjectIsFound(prefix, f, suffix, MarkerLine(text) + suffix);
    Grouped(prefix, MarkerLine(text), suffix);
  }

  lemma Grouped(a: string, b: string, c: string)
    ensures a + b + c == a + (b + c)
  {
  }

  // ---------------------------------------------------------------- what a find means

  /** `v` is an object whose last `key` holds `x`. */
  ghost predicate Holds(v: Value, key: string, x: Value) {
    v.Obj? && exists i :: 0 <= i < |v.fields| && v.fields[i] == Field(key, x) && forall j :: i < j < |v.fields| ==> v.fields[j].key != key
  }

  lemma {:induction false} LastValueHolds(fields: seq<Field>, key: string, x: Value)
    ensures LastValue(fields, key) == Some(x) <==> Holds(Obj(fields), key, x)
  {
    if fields != [] {
      var n := |fields| - 1;
      if fields[n].key == key {
        if fields[n].value == x { assert fields[n] == Field(key, x); }
      } else {
        LastValueHolds(fields[..n], key, x);
        LastHolds(fields, fields[..n], key, x);
      }
    }
  }

  lemma LastHolds(fields: seq<Field>, front: seq<Field>, key: string, x: Value)
    requires fields != [] && front == fields[..|fields| - 1] && fields[|fields| - 1].key != key
    ensures Holds(Obj(front), key, x) <==> Holds(Obj(fields), key, x)
  {
    if Holds(Obj(front), key, x) {
      var i :| 0 <= i < |front| && front[i] == Field(key, x) && forall j :: i < j < |front| ==> front[j].key != key;
      assert fields[i] == Field(key, x);
    }
    if Holds(Obj(fields), key, x) {
      var i :| 0 <= i < |fields| && fields[i] == Field(key, x) && forall j :: i < j < |fields| ==> fields[j].key != key;
      assert front[i] == Field(key, x);
    }
  }

  /** A document carries this text: it parses as an object that holds an object with the text under
      the marker's key. */
  ghost predicate Carries(document: string, text: string) {
    exists v, m :: ParseDocument(document) == Done(v, []) && Holds(v, KEY, m) && Holds(m, TEXT, Str(text))
  }

  lemma ExtractIff(document: string, text: string)
    ensures Extract(document) == Some(text) <==> Carries(document, text)
  {
    var r := ParseDocument(document);
    if r.Done? { TextIff(r.value, text); }
  }

  lemma TextIff(v: Value, text: string)
    ensures TextOf(v) == Some(text) <==> exists m :: Holds(v, KEY, m) && Holds(m, TEXT, Str(text))
  {
    if v.Obj? {
      var m := LastValue(v.fields, KEY);
      forall x ensures Holds(v, KEY, x) <==> m == Some(x) { LastValueHolds(v.fields, KEY, x); }
      if m.Some? && m.value.Obj? {
        LastValueHolds(m.value.fields, TEXT, Str(text));
      }
    }
  }

  /** Whatever the scan finds stands in the result: some part of it, from an opening brace on, is a
      document that carries the text. */
  lemma FoundIsThere(result: string, text: string) returns (i: nat, n: nat)
    requires Find(result) == Some(text)
    ensures i + n <= |result| && 0 < n && result[i] == '{' && Carries(result[i..i + n], text)
  {
    var idx := IndexFrom(result, Needle(), 0).value;
    i := LastBrace(result, idx).value;
    n := Walk(result[i..], Lex(0, false, false)).len;
    assert result[i..][..n] == result[i..i + n];
    ExtractIff(result[i..i + n], text);
  }
}
