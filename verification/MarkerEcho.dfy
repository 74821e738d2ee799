/**
 The echo of an agent-to-agent send is never taken for a marker, whatever its recipient, text
 or warning contain: not even when they spell out the quoted marker key, braces or escapes.
 */
module MarkerEcho {
  import opened Options
  import opened Json
  import opened Digits
  import opened Marker

  // ---------------------------------------------------------------- a brace inside a string

  /** An opening brace in escaped text is the text's own brace: what follows it is escaped too. */
  lemma {:induction false} EscBrace(v: string, p: nat) returns (y: string)
    requires p < |Esc(v)| && Esc(v)[p] == '{'
    ensures Esc(v)[p..] == ['{'] + Esc(y)
  {
    var e, rest := EscChar(v[0]), Esc(v[1..]);
    if p < |e| {
      EscCharBrace(v[0], p);
      y := v[1..];
    } else {
      Suffix(e, rest, p);
      y := EscBrace(v[1..], p - |e|);
    }
  }

  lemma EscCharBrace(c: char, p: nat)
    requires p < |EscChar(c)| && EscChar(c)[p] == '{'
    ensures p == 0 && EscChar(c) == ['{']
  {
  }

  /** What may follow the string: a comma and another key, or no quote at all. */
  predicate Tame(follow: string) {
    || '"' !in follow
    || (|follow| >= 3 && follow[0] == ',' && follow[1] == '"' && !IsWs(follow[2]) && follow[2] != ':')
  }

  /** After such a brace only blanks can lead to a quote, and then it is the string's own
      closing quote. */
  lemma {:induction false} BlanksThenQuote(y: string, u: string, follow: string)
    requires u <= Esc(y) + ['"'] + follow
    ensures var t := SkipWs(u); t == [] || t[0] != '"' || t <= ['"'] + follow
  {
    if y == [] {
      assert Esc(y) + ['"'] + follow == ['"'] + follow;
    } else if u != [] {
      Assoc(EscChar(y[0]), Esc(y[1..]), ['"'], follow);
      assert u[0] == EscChar(y[0])[0];
      if y[0] == ' ' {
        assert (Esc(y) + ['"'] + follow)[1..] == Esc(y[1..]) + ['"'] + follow;
        BlanksThenQuote(y[1..], u[1..], follow);
      }
    }
  }

  lemma {:induction false} NoQuoteNoString(u: string)
    requires '"' !in u
    ensures ParseChars(u) == Fail
    decreases |u|
  {
    if u != [] && u[0] != '\\' {
      NoQuoteNoString(u[1..]);
    } else if u != [] {
      EscapeIsSuffix(u[1..]);
      var r := ParseEscape(u[1..]);
      if r.Done? { NoQuoteNoString(r.rest); }
    }
  }

  lemma EscapeIsSuffix(s: string)
    ensures var r := ParseEscape(s);
            r.Done? ==> |r.rest| < |s| && r.rest == s[|s| - |r.rest|..]
  {
  }

  /** Read as a key, the closing quote starts a string that no colon follows. */
  lemma TameKeyFails(t: string, follow: string)
    requires t <= ['"'] + follow && t != [] && Tame(follow)
    ensures ParseKey(t) == Fail
  {
    var u := t[1..];
    assert u <= follow;
    if '"' !in follow {
      NoQuoteNoString(u);
    } else if |u| >= 2 {
      assert u[0] == follow[0] && u[1] == follow[1];
      assert ParseChars(u[1..]) == Done([], u[1..][1..]);
      assert u[1..][1..] == u[2..];
      assert u[2..] == [] || u[2..][0] == follow[2];
    }
  }

  /** From a brace inside a string, no cut of the text parses to anything with a message. */
  lemma StrayBrace(z: string, y: string, follow: string)
    requires z <= ['{'] + (Esc(y) + ['"'] + follow) && z != [] && Tame(follow)
    ensures Extract(z) == None
  {
    var u := z[1..];
    assert u <= Esc(y) + ['"'] + follow;
    BlanksThenQuote(y, u, follow);
    var t := SkipWs(u);
    SkipTwice(u);
    if t != [] && t[0] == '"' { TameKeyFails(t, follow); }
    StrayObject(u, t);
    StrayDocument(z, u);
  }

  lemma {:induction false} SkipTwice(u: string)
    ensures SkipWs(SkipWs(u)) == SkipWs(u)
  {
    if u != [] && IsWs(u[0]) { SkipTwice(u[1..]); }
  }

  lemma StrayObject(u: string, t: string)
    requires t == SkipWs(u) == SkipWs(t) && (t != [] && t[0] == '"' ==> ParseKey(t) == Fail)
    ensures ParseObject(u) == Fail || (ParseObject(u).Done? && ParseObject(u).value == [])
  {
  }

  lemma StrayDocument(z: string, u: string)
    requires z == ['{'] + u
    requires ParseObject(u) == Fail || (ParseObject(u).Done? && ParseObject(u).value == [])
    ensures Extract(z) == None
  {
    assert z[1..] == u && SkipWs(z) == z;
    var p := ParseObject(u);
    assert ParseObject(z[1..]) == p;
    assert ParseHere(z) == if p.Done? then Done(Obj([]), p.rest) else Fail;
    assert ParseValue(z) == ParseHere(z);
    assert LastValue([], KEY) == None;
    assert TextOf(Obj([])) == None;
  }

  lemma StrayScan(s: string, y: string, follow: string)
    requires s == ['{'] + (Esc(y) + ['"'] + follow) && Tame(follow)
    ensures FromBrace(s) == None
  {
    var w := Walk(s, Lex(0, false, false));
    if w.Closed? { StrayBrace(s[..w.len], y, follow); }
  }

  // ---------------------------------------------------------------- where a brace can be

  predicate PlainKey(k: string) {
    k != [] && forall c :: c in k ==> IsPlain(c)
  }

  /** Strings and natural numbers under plain keys. */
  predicate IsFlat(f: Field) {
    PlainKey(f.key) && (f.value.Str? || (f.value.Num? && IsNatural(f.value.token)))
  }

  predicate Flat(fields: seq<Field>) {
    forall i :: 0 <= i < |fields| ==> IsFlat(fields[i])
  }

  lemma Suffix(a: string, b: string, q: nat)
    requires |a| <= q <= |a| + |b|
    ensures (a + b)[q..] == b[q - |a|..]
  {
  }

  /** A brace in a printed string value. */
  lemma BraceInQuote(v: string, more: string, p: nat) returns (y: string)
    requires p < |Quote(v)| && Quote(v)[p] == '{'
    ensures (Quote(v) + more)[p..] == ['{'] + (Esc(y) + ['"'] + more)
  {
    assert Esc(v)[p - 1] == '{';
    y := EscBrace(v, p - 1);
    assert (Quote(v) + more)[p..] == Esc(v)[p - 1..] + ['"'] + more;
    Assoc(['{'], Esc(y), ['"'], more);
  }

  lemma NumberHasNoBrace(token: string)
    requires IsNatural(token)
    ensures '{' !in token
  {
    DigitsArePlain(token);
  }

  lemma KeyHasNoBrace(k: string)
    requires PlainKey(k)
    ensures '{' !in Quote(k) + [':']
    ensures |Quote(k)| >= 3 && Quote(k)[0] == '"' && IsPlain(Quote(k)[1])
  {
    PlainQuote(k);
    assert k[0] in k;
    assert Quote(k)[1] == k[0];
  }

  /** What follows a value inside the object. */
  function Following(fields: seq<Field>, tail: string): string
    requires fields != []
  {
    if |fields| == 1 then tail else [','] + (RenderFields(fields[1..]) + tail)
  }

  lemma FollowingIsTame(fields: seq<Field>, tail: string)
    requires fields != [] && Flat(fields) && '"' !in tail
    ensures Tame(Following(fields, tail))
  {
    if |fields| > 1 {
      var k := fields[1].key;
      KeyHasNoBrace(k);
      KeyComesFirst(fields[1..], tail);
    }
  }

  lemma KeyComesFirst(fields: seq<Field>, tail: string)
    requires fields != [] && |Quote(fields[0].key)| >= 3
    ensures |RenderFields(fields) + tail| >= 3
    ensures (RenderFields(fields) + tail)[0] == Quote(fields[0].key)[0]
    ensures (RenderFields(fields) + tail)[1] == Quote(fields[0].key)[1]
  {
  }

  lemma MembersText(fields: seq<Field>, tail: string)
    requires fields != []
    ensures RenderFields(fields) + tail
            == (Quote(fields[0].key) + [':']) + (Render(fields[0].value) + Following(fields, tail))
  {
    var k, v := Quote(fields[0].key), Render(fields[0].value);
    if |fields| == 1 {
      Pieces(k, v, [], tail);
      assert [] + tail == tail;
    } else {
      Pieces(k, v, [','] + RenderFields(fields[1..]), tail);
      Grouped([','], RenderFields(fields[1..]), tail);
    }
  }

  lemma Pieces(k: string, v: string, more: string, tail: string)
    ensures k + [':'] + v + more + tail == (k + [':']) + (v + (more + tail))
  {
  }

  /** A brace in `a + b` but not in `a` is in `b`. */
  lemma BraceBeyond(a: string, b: string, q: nat)
    requires q < |a + b| && (a + b)[q] == '{' && '{' !in a
    ensures q >= |a| && b[q - |a|] == '{' && (a + b)[q..] == b[q - |a|..]
  {
  }

  lemma BraceInValue(v: Value, more: string, p: nat) returns (y: string)
    requires v.Str? || (v.Num? && IsNatural(v.token))
    requires p < |Render(v)| && Render(v)[p] == '{'
    ensures (Render(v) + more)[p..] == ['{'] + (Esc(y) + ['"'] + more)
  {
    if v.Num? { NumberHasNoBrace(v.token); assert false; }
    y := BraceInQuote(v.s, more, p);
  }

  /** Every brace after the object's own is inside a string value. */
  lemma {:induction false} LocateBrace(fields: seq<Field>, tail: string, s: string, q: nat)
    returns (y: string, follow: string)
    requires fields != [] && Flat(fields) && '"' !in tail && '{' !in tail
    requires s == RenderFields(fields) + tail && q < |s| && s[q] == '{'
    ensures s[q..] == ['{'] + (Esc(y) + ['"'] + follow) && Tame(follow)
  {
    var head, value, after := Quote(fields[0].key) + [':'], Render(fields[0].value), Following(fields, tail);
    MembersText(fields, tail);
    KeyHasNoBrace(fields[0].key);
    BraceBeyond(head, value + after, q);
    var p := q - |head|;
    if p < |value| {
      FollowingIsTame(fields, tail);
      follow := after;
      y := BraceInValue(fields[0].value, after, p);
    } else {
      Suffix(value, after, p);
      FollowingBrace(fields, tail, p - |value|);
      y, follow := LocateBrace(fields[1..], tail, RenderFields(fields[1..]) + tail, p - |value| - 1);
    }
  }

  lemma FollowingBrace(fields: seq<Field>, tail: string, p: nat)
    requires fields != [] && '{' !in tail && p < |Following(fields, tail)| && Following(fields, tail)[p] == '{'
    ensures |fields| > 1 && p >= 1 && p - 1 < |RenderFields(fields[1..]) + tail|
    ensures (RenderFields(fields[1..]) + tail)[p - 1] == '{'
    ensures Following(fields, tail)[p..] == (RenderFields(fields[1..]) + tail)[p - 1..]
  {
    if |fields| > 1 {
      AfterComma(RenderFields(fields[1..]) + tail, p, Following(fields, tail));
    }
  }

  lemma AfterComma(body: string, p: nat, all: string)
    requires all == [','] + body && p < |all| && all[p] == '{'
    ensures p >= 1 && body[p - 1] == '{' && all[p..] == body[p - 1..]
  {
  }

  // ---------------------------------------------------------------- the echo is silent

  lemma {:induction false} AbsentKey(fields: seq<Field>)
    requires forall i :: 0 <= i < |fields| ==> fields[i].key != KEY
    ensures LastValue(fields, KEY) == None
  {
    if fields != [] { AbsentKey(fields[..|fields| - 1]); }
  }

  lemma FlatIsPrintable(fields: seq<Field>)
    requires Flat(fields)
    ensures Printable(Obj(fields)) && forall i :: 0 <= i < |fields| ==> Printable(fields[i].value)
  {
    forall i | 0 <= i < |fields| ensures Printable(fields[i].value) { assert IsFlat(fields[i]); }
  }

  /** The printed echo around its inner object. */
  lemma EchoText(outer: string, fields: seq<Field>)
    ensures Render(Obj([Field(outer, Obj(fields))]))
            == (['{'] + (Quote(outer) + [':'])) + (['{'] + (RenderFields(fields) + ['}', '}']))
  {
    var inner := RenderFields(fields);
    var f := Field(outer, Obj(fields));
    assert RenderFields([f]) == Quote(outer) + [':'] + (['{'] + inner + ['}']) + [];
    assert ['}'] + ['}'] == ['}', '}'];
    Nest(Quote(outer), inner);
  }

  lemma Nest(q: string, inner: string)
    ensures ['{'] + (q + [':'] + (['{'] + inner + ['}']) + []) + ['}']
            == (['{'] + (q + [':'])) + (['{'] + (inner + ['}', '}']))
  {
  }

  /** Wherever the scan starts, it comes back empty. */
  lemma SilentFrom(outer: string, fields: seq<Field>, line: string, start: nat)
    requires PlainKey(outer) && outer != KEY && fields != [] && Flat(fields)
    requires forall i :: 0 <= i < |fields| ==> fields[i].key != KEY
    requires line == Render(Obj([Field(outer, Obj(fields))])) && start < |line| && line[start] == '{'
    ensures FromBrace(line[start..]) == None
  {
    EchoText(outer, fields);
    if start == 0 {
      SilentOuter(outer, fields, line);
      assert line[0..] == line;
    } else {
      KeyHasNoBrace(outer);
      SilentBeyond(fields, Quote(outer) + [':'], RenderFields(fields) + ['}', '}'], line, start, line[start..]);
    }
  }

  lemma SilentBeyond(fields: seq<Field>, key: string, inner: string, line: string, start: nat, s: string)
    requires fields != [] && Flat(fields) && inner == RenderFields(fields) + ['}', '}'] && '{' !in key
    requires forall i :: 0 <= i < |fields| ==> fields[i].key != KEY
    requires line == (['{'] + key) + (['{'] + inner) && 0 < start < |line| && line[start] == '{'
    requires s == line[start..]
    ensures FromBrace(s) == None
  {
    InnerBrace(key, inner, start, line);
    if start == |key| + 1 {
      SilentInner(fields, s);
    } else {
      SilentLater(fields, inner, start - |key| - 2, s);
    }
  }

  lemma SilentLater(fields: seq<Field>, inner: string, p: nat, s: string)
    requires fields != [] && Flat(fields) && inner == RenderFields(fields) + ['}', '}']
    requires p < |inner| && inner[p] == '{' && s == inner[p..]
    ensures FromBrace(s) == None
  {
    var y, follow := LocateBrace(fields, ['}', '}'], inner, p);
    StrayScan(s, y, follow);
  }

  lemma InnerBrace(key: string, inner: string, start: nat, line: string)
    requires line == (['{'] + key) + (['{'] + inner) && '{' !in key
    requires 0 < start < |line| && line[start] == '{'
    ensures start > |key| && line[|key| + 1..] == ['{'] + inner
    ensures start > |key| + 1 ==> start - |key| - 2 < |inner| && inner[start - |key| - 2] == '{'
                                  && line[start..] == inner[start - |key| - 2..]
  {
  }

  lemma SilentOuter(outer: string, fields: seq<Field>, line: string)
    requires outer != KEY && Flat(fields) && line == Render(Obj([Field(outer, Obj(fields))]))
    ensures FromBrace(line) == None
  {
    var f := Field(outer, Obj(fields));
    FlatIsPrintable(fields);
    BraceReads([f], []);
    assert line + [] == line;
    AbsentKey([f]);
  }

  lemma SilentInner(fields: seq<Field>, s: string)
    requires Flat(fields) && forall i :: 0 <= i < |fields| ==> fields[i].key != KEY
    requires s == ['{'] + (RenderFields(fields) + ['}', '}'])
    ensures FromBrace(s) == None
  {
    FlatIsPrintable(fields);
    AbsentKey(fields);
    InnerText(fields);
    BraceReads(fields, ['}']);
  }

  lemma InnerText(fields: seq<Field>)
    ensures ['{'] + (RenderFields(fields) + ['}', '}']) == Render(Obj(fields)) + ['}']
  {
    Around(RenderFields(fields));
  }

  lemma Around(body: string)
    ensures ['{'] + (body + ['}', '}']) == ['{'] + body + ['}'] + ['}']
  {
  }

  /** A nested object of strings and numbers under plain keys other than the marker's is never
      recognised, whatever the strings contain. */
  lemma EchoIsSilent(outer: string, fields: seq<Field>)
    requires PlainKey(outer) && outer != KEY && fields != [] && Flat(fields)
    requires forall i :: 0 <= i < |fields| ==> fields[i].key != KEY
    ensures Find(Render(Obj([Field(outer, Obj(fields))]))) == None
  {
    var line := Render(Obj([Field(outer, Obj(fields))]));
    var idx := IndexFrom(line, Needle(), 0);
    if idx.Some? {
      var start := LastBrace(line, idx.value);
      if start.Some? { SilentFrom(outer, fields, line, start.value); }
    }
  }

  lemma {:induction false} DecIsNatural(n: nat)
    ensures IsNatural(Dec(n)) && (n > 0 ==> Dec(n)[0] != '0')
  {
    if n >= 10 {
      DecIsNatural(n / 10);
      DigitRunMore(Dec(n / 10), ('0' as int + n % 10) as char);
    } else {
      assert Dec(n)[1..] == [];
    }
  }

  lemma {:induction false} DigitRunMore(t: string, c: char)
    requires DigitRun(t) == |t| && IsDigit(c)
    ensures DigitRun(t + [c]) == |t| + 1
  {
    if t == [] {
      assert (t + [c])[1..] == [];
    } else {
      assert (t + [c])[1..] == t[1..] + [c];
      DigitRunMore(t[1..], c);
    }
  }

  lemma SentKeysArePlain()
    ensures PlainKey(SENT_KEY) && PlainKey("to") && PlainKey(TEXT) && PlainKey("queue_depth") && PlainKey("warning")
    ensures |SENT_KEY| < |KEY| && |TEXT| < |KEY|
  {
  }

  /** `message_sent_line` is never taken for a marker. */
  lemma MessageSentIsSilent(to: string, text: string, queueDepth: nat, warning: Option<string>)
    ensures Find(MessageSentLine(to, text, queueDepth, warning)) == None
  {
    SentKeysArePlain();
    DecIsNatural(queueDepth);
    EchoIsSilent(SENT_KEY, SentFields(to, text, queueDepth, warning));
  }

  // ---------------------------------------------------------------- what the two lines carry

  lemma SentIsPrintable(to: string, text: string, queueDepth: nat, warning: Option<string>)
    ensures Printable(Obj([Field(SENT_KEY, Obj(SentFields(to, text, queueDepth, warning)))]))
  {
    DecIsNatural(queueDepth);
    var fields := SentFields(to, text, queueDepth, warning);
    assert forall i :: 0 <= i < |fields| ==> Printable(fields[i].value);
  }

  lemma LastIs(fields: seq<Field>, front: seq<Field>, f: Field, key: string)
    requires fields == front + [f]
    ensures LastValue(fields, key) == if f.key == key then Some(f.value) else LastValue(front, key)
  {
    assert fields[..|fields| - 1] == front;
  }

  /** Whoever parses the echo finds the recipient, the text and the depth of the queue under their
      keys, and a warning exactly when there is one. */
  lemma SentReads(to: string, text: string, queueDepth: nat, warning: Option<string>, sent: Value)
    requires sent == Obj(SentFields(to, text, queueDepth, warning))
    ensures ParseDocument(MessageSentLine(to, text, queueDepth, warning)) == Done(Obj([Field("kallip.message.sent", sent)]), [])
    ensures Get(sent, "to") == Some(Str(to)) && Get(sent, "text") == Some(Str(text))
    ensures var depth := Get(sent, "queue_depth"); depth.Some? && depth.value.Num? && ValueOf(depth.value.token) == queueDepth
    ensures Get(sent, "warning") == if warning.Some? then Some(Str(warning.value)) else None
  {
    SentIsPrintable(to, text, queueDepth, warning);
    RoundTrip(Obj([Field(SENT_KEY, sent)]));
    DecReads(queueDepth);
    SentHolds(to, text, queueDepth, warning);
  }

  lemma SentHolds(to: string, text: string, queueDepth: nat, warning: Option<string>)
    ensures var fields := SentFields(to, text, queueDepth, warning);
            && LastValue(fields, "to") == Some(Str(to)) && LastValue(fields, "text") == Some(Str(text))
            && LastValue(fields, "queue_depth") == Some(Num(Dec(queueDepth)))
            && LastValue(fields, "warning") == if warning.Some? then Some(Str(warning.value)) else None
  {
    var a, b, c := Field("to", Str(to)), Field(TEXT, Str(text)), Field("queue_depth", Num(Dec(queueDepth)));
    ThreeFields(a, b, c);
    assert |"to"| == 2 && |"text"| == 4 && |"queue_depth"| == 11 && |"warning"| == 7;
    assert [a, b, c] + [] == [a, b, c];
    if warning.Some? {
      var d := Field("warning", Str(warning.value));
      forall key ensures LastValue([a, b, c] + [d], key) == if key == "warning" then Some(d.value) else LastValue([a, b, c], key) {
        LastIs([a, b, c] + [d], [a, b, c], d, key);
      }
    }
  }

  lemma ThreeFields(a: Field, b: Field, c: Field)
    ensures forall key :: LastValue([a, b, c], key)
              == if c.key == key then Some(c.value) else if b.key == key then Some(b.value) else if a.key == key then Some(a.value) else None
  {
    forall key ensures LastValue([a, b, c], key)
      == if c.key == key then Some(c.value) else if b.key == key then Some(b.value) else if a.key == key then Some(a.value) else None
    {
      LastIs([a, b, c], [a, b], c, key);
      LastIs([a, b], [a], b, key);
      LastIs([a], [], a, key);
    }
  }

  /** And whoever parses the marker finds its text. */
  lemma MarkerParses(text: string)
    ensures ParseDocument(MarkerLine(text)) == Done(Obj([Field("kallip.lesche.message", Obj([Field("text", Str(text))]))]), [])
  {
    RoundTrip(MarkerValue(text));
  }
}
