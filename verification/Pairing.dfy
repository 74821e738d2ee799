/**
 Tool-call/result pairing: the invariant every recorded turn must satisfy, the two damage
 probes over it, and the offline fix for a damaged turn.
 */
module Pairing {

  datatype CallRef = CallRef(id: string, name: string)

  datatype Message =
    | Plain(role: string, body: string)
    | Calls(content: string, calls: seq<CallRef>)
    | Result(content: string, callId: string)

  function CallsOf(m: Message): seq<CallRef> {
    if m.Calls? then m.calls else []
  }

  /** Every call declared anywhere in the messages, in declaration order. */
  function Declared(ms: seq<Message>): seq<CallRef> {
    if ms == [] then [] else CallsOf(ms[0]) + Declared(ms[1..])
  }

  function Ids(calls: seq<CallRef>): seq<string> {
    if calls == [] then [] else [calls[0].id] + Ids(calls[1..])
  }

  /** Every result's call id, in message order. */
  function Answers(ms: seq<Message>): seq<string> {
    if ms == [] then []
    else (if ms[0].Result? then [ms[0].callId] else []) + Answers(ms[1..])
  }

  predicate Declares(calls: seq<CallRef>, id: string) {
    exists c :: c in calls && c.id == id
  }

  /** The calls whose id is not among the answers, in order, duplicates included. */
  function Dangling(calls: seq<CallRef>, answers: seq<string>): (r: seq<CallRef>)
    ensures forall c :: c in r <==> c in calls && c.id !in answers
  {
    if calls == [] then []
    else (if calls[0].id !in answers then [calls[0]] else []) + Dangling(calls[1..], answers)
  }

  /** The answers no call declares, in order. */
  function Undeclared(answers: seq<string>, calls: seq<CallRef>): (r: seq<string>)
    ensures forall id :: id in r <==> id in answers && !Declares(calls, id)
  {
    if answers == [] then []
    else (if !Declares(calls, answers[0]) then [answers[0]] else []) + Undeclared(answers[1..], calls)
  }

  function Unanswered(ms: seq<Message>): seq<CallRef> {
    Dangling(Declared(ms), Answers(ms))
  }

  function Orphans(ms: seq<Message>): seq<string> {
    Undeclared(Answers(ms), Declared(ms))
  }

  predicate Damaged(ms: seq<Message>) {
    Unanswered(ms) != [] || Orphans(ms) != []
  }

  /** Pairing stated without the probes: every declared id is answered and every answer
      is declared. */
  ghost predicate Paired(ms: seq<Message>) {
    && (forall c :: c in Declared(ms) ==> c.id in Answers(ms))
    && (forall id :: id in Answers(ms) ==> Declares(Declared(ms), id))
  }

  lemma ProbesAreExact(ms: seq<Message>)
    ensures Damaged(ms) <==> !Paired(ms)
  {
    if Unanswered(ms) != [] { assert Unanswered(ms)[0] in Unanswered(ms); }
    if Orphans(ms) != [] { assert Orphans(ms)[0] in Orphans(ms); }
  }

  lemma {:induction false} DeclaredConcat(a: seq<Message>, b: seq<Message>)
    ensures Declared(a + b) == Declared(a) + Declared(b)
  {
    if a == [] {
      assert a + b == b;
    } else {
      assert (a + b)[1..] == a[1..] + b;
      DeclaredConcat(a[1..], b);
    }
  }

  lemma {:induction false} AnswersConcat(a: seq<Message>, b: seq<Message>)
    ensures Answers(a + b) == Answers(a) + Answers(b)
  {
    if a == [] {
      assert a + b == b;
    } else {
      assert (a + b)[1..] == a[1..] + b;
      AnswersConcat(a[1..], b);
    }
  }

  /** One synthesized result per call. */
  function Synthesize(content: CallRef -> string, calls: seq<CallRef>): seq<Message> {
    if calls == [] then []
    else [Result(content(calls[0]), calls[0].id)] + Synthesize(content, calls[1..])
  }

  lemma {:induction false} SynthesizedAnswers(content: CallRef -> string, calls: seq<CallRef>)
    ensures Declared(Synthesize(content, calls)) == []
    ensures forall id :: id in Answers(Synthesize(content, calls)) <==> Declares(calls, id)
  {
    if calls != [] {
      var tail := Synthesize(content, calls[1..]);
      SynthesizedAnswers(content, calls[1..]);
      assert Synthesize(content, calls)[1..] == tail;
      assert forall id :: Declares(calls, id) <==> id == calls[0].id || Declares(calls[1..], id);
    }
  }

  // ---------------------------------------------------------------- offline repair

  const NOT_EXECUTED := "not executed: no result was ever recorded for this call (offline repair)"

  function NotExecuted(c: CallRef): string {
    c.name + ": " + NOT_EXECUTED
  }

  predicate Kept(m: Message, orphans: seq<string>) {
    m.Result? ==> m.callId !in orphans
  }

  /** `retain`: every message but the results with an orphan id. */
  function DropOrphans(ms: seq<Message>, orphans: seq<string>): (r: seq<Message>)
    ensures forall m :: m in r <==> m in ms && Kept(m, orphans)
  {
    if ms == [] then [] else (if Kept(ms[0], orphans) then [ms[0]] else []) + DropOrphans(ms[1..], orphans)
  }

  /** Answer every dangling call, then drop every orphan result. */
  function RepairMessages(ms: seq<Message>): seq<Message> {
    DropOrphans(ms + Synthesize(NotExecuted, Unanswered(ms)), Orphans(ms))
  }

  lemma {:induction false} DropOrphansEffect(ms: seq<Message>, orphans: seq<string>)
    ensures Declared(DropOrphans(ms, orphans)) == Declared(ms)
    ensures forall id :: id in Answers(DropOrphans(ms, orphans)) <==> id in Answers(ms) && id !in orphans
  {
    if ms != [] {
      var rest := DropOrphans(ms[1..], orphans);
      DropOrphansEffect(ms[1..], orphans);
      if Kept(ms[0], orphans) {
        assert DropOrphans(ms, orphans)[1..] == rest;
      } else {
        assert DropOrphans(ms, orphans) == rest;
      }
    }
  }

  /** A repaired turn is paired, declares what it declared before, and a clean turn is
      left as it is. */
  lemma RepairIsClean(ms: seq<Message>)
    ensures Paired(RepairMessages(ms)) && !Damaged(RepairMessages(ms))
    ensures Declared(RepairMessages(ms)) == Declared(ms)
    ensures forall m :: m in ms && Kept(m, Orphans(ms)) ==> m in RepairMessages(ms)
  {
    var added := Synthesize(NotExecuted, Unanswered(ms));
    DropOrphansEffect(ms + added, Orphans(ms));
    DeclaredConcat(ms, added);
    AnswersConcat(ms, added);
    SynthesizedAnswers(NotExecuted, Unanswered(ms));
    forall c | c in Declared(ms) ensures c.id in Answers(RepairMessages(ms)) {
      if c.id !in Answers(ms) { assert c in Unanswered(ms) && Declares(Unanswered(ms), c.id); }
      assert Declares(Declared(ms), c.id);
    }
    forall id | id in Answers(RepairMessages(ms)) ensures Declares(Declared(ms), id) {
      if id !in Answers(ms) {
        var c :| c in Unanswered(ms) && c.id == id;
      }
    }
    ProbesAreExact(RepairMessages(ms));
  }

  lemma {:induction false} DropNothing(ms: seq<Message>)
    ensures DropOrphans(ms, []) == ms
  {
    if ms != [] { DropNothing(ms[1..]); }
  }

  lemma RepairKeepsClean(ms: seq<Message>)
    requires !Damaged(ms)
    ensures RepairMessages(ms) == ms
  {
    assert ms + Synthesize(NotExecuted, []) == ms;
    DropNothing(ms);
  }

  /** Repairing twice is repairing once. */
  lemma RepairIsIdempotent(ms: seq<Message>)
    ensures RepairMessages(RepairMessages(ms)) == RepairMessages(ms)
  {
    RepairIsClean(ms);
    RepairKeepsClean(RepairMessages(ms));
  }

  // ---------------------------------------------------------------- where the answers stand

  /** The marked elements, in order. */
  function Sifted<T>(all: seq<T>, marks: seq<bool>): seq<T>
    requires |marks| == |all|
  {
    if all == [] then [] else (if marks[0] then [all[0]] else []) + Sifted(all[1..], marks[1..])
  }

  /** The messages that fit the calls: all but the results no call declares. */
  ghost predicate MarksFitting(marks: seq<bool>, ms: seq<Message>, calls: seq<CallRef>) {
    |marks| == |ms| && forall i :: 0 <= i < |ms| ==> (marks[i] <==> !(ms[i].Result? && !Declares(calls, ms[i].callId)))
  }

  /** The calls no result answers. */
  ghost predicate MarksUnanswered(marks: seq<bool>, calls: seq<CallRef>, answers: seq<string>) {
    |marks| == |calls| && forall i :: 0 <= i < |calls| ==> (marks[i] <==> calls[i].id !in answers)
  }

  lemma {:induction false} DropSifts(ms: seq<Message>, orphans: seq<string>, calls: seq<CallRef>, marks: seq<bool>)
    requires MarksFitting(marks, ms, calls)
    requires forall m :: m in ms && m.Result? ==> (m.callId in orphans <==> !Declares(calls, m.callId))
    ensures DropOrphans(ms, orphans) == Sifted(ms, marks)
  {
    if ms != [] {
      assert ms[0] in ms;
      DropSifts(ms[1..], orphans, calls, marks[1..]);
    }
  }

  /** The answers no call declares. */
  ghost predicate MarksStray(marks: seq<bool>, answers: seq<string>, calls: seq<CallRef>) {
    |marks| == |answers| && forall i :: 0 <= i < |answers| ==> (marks[i] <==> !Declares(calls, answers[i]))
  }

  lemma {:induction false} UndeclaredSifts(answers: seq<string>, calls: seq<CallRef>, marks: seq<bool>)
    requires MarksStray(marks, answers, calls)
    ensures Undeclared(answers, calls) == Sifted(answers, marks)
  {
    if answers != [] { UndeclaredSifts(answers[1..], calls, marks[1..]); }
  }

  lemma {:induction false} DanglingSifts(calls: seq<CallRef>, answers: seq<string>, marks: seq<bool>)
    requires MarksUnanswered(marks, calls, answers)
    ensures Dangling(calls, answers) == Sifted(calls, marks)
  {
    if calls != [] { DanglingSifts(calls[1..], answers, marks[1..]); }
  }

  lemma {:induction false} DropConcat(a: seq<Message>, b: seq<Message>, orphans: seq<string>)
    ensures DropOrphans(a + b, orphans) == DropOrphans(a, orphans) + DropOrphans(b, orphans)
  {
    if a == [] {
      assert a + b == b;
    } else {
      assert (a + b)[1..] == a[1..] + b;
      DropConcat(a[1..], b, orphans);
    }
  }

  lemma {:induction false} SynthesizeAt(content: CallRef -> string, calls: seq<CallRef>)
    ensures var r := Synthesize(content, calls);
            |r| == |calls| && forall k :: 0 <= k < |calls| ==> r[k] == Result(content(calls[k]), calls[k].id)
  {
    if calls != [] { SynthesizeAt(content, calls[1..]); }
  }

  lemma {:induction false} DropNone(ms: seq<Message>, orphans: seq<string>)
    requires forall m :: m in ms ==> Kept(m, orphans)
    ensures DropOrphans(ms, orphans) == ms
  {
    if ms != [] {
      assert ms[0] in ms;
      DropNone(ms[1..], orphans);
    }
  }

  /** A repaired turn is what it keeps, followed by what it adds. */
  lemma RepairSplits(ms: seq<Message>)
    ensures RepairMessages(ms) == DropOrphans(ms, Orphans(ms)) + Synthesize(NotExecuted, Unanswered(ms))
  {
    var added := Synthesize(NotExecuted, Unanswered(ms));
    DropConcat(ms, added, Orphans(ms));
    SynthesizeAt(NotExecuted, Unanswered(ms));
    forall m | m in added ensures Kept(m, Orphans(ms)) {
      var k :| 0 <= k < |added| && added[k] == m;
      assert Unanswered(ms)[k] in Unanswered(ms);
    }
    DropNone(added, Orphans(ms));
  }

  /** The repair touches nothing else: first come the old messages in their order, all but the
      results no call declares, then one result per unanswered call, in declaration order, naming
      the tool that was not executed. */
  lemma RepairKeepsOrder(ms: seq<Message>, kept: seq<bool>, open: seq<bool>)
    requires MarksFitting(kept, ms, Declared(ms)) && MarksUnanswered(open, Declared(ms), Answers(ms))
    ensures var r, first, unanswered := RepairMessages(ms), Sifted(ms, kept), Sifted(Declared(ms), open);
            && |r| == |first| + |unanswered| && r[..|first|] == first
            && forall k :: 0 <= k < |unanswered| ==>
                 r[|first| + k] == Result(unanswered[k].name + ": " + NOT_EXECUTED, unanswered[k].id)
  {
    RepairSplits(ms);
    ResultsAnswer(ms);
    DropSifts(ms, Orphans(ms), Declared(ms), kept);
    DanglingSifts(Declared(ms), Answers(ms), open);
    SynthesizeAt(NotExecuted, Unanswered(ms));
  }

  lemma {:induction false} ResultsAnswer(ms: seq<Message>)
    ensures forall m :: m in ms && m.Result? ==> m.callId in Answers(ms)
  {
    if ms != [] { ResultsAnswer(ms[1..]); }
  }

  // ---------------------------------------------------------------- answers behind their calls

  /** Every result whose id is declared anywhere stands behind a declaration of it. */
  ghost predicate AnswersFollow(ms: seq<Message>) {
    forall i :: 0 <= i < |ms| && ms[i].Result? && Declares(Declared(ms), ms[i].callId) ==>
      Declares(Declared(ms[..i]), ms[i].callId)
  }

  /** What stands before a kept message is what is kept of the messages before it. */
  lemma {:induction false} DropAt(ms: seq<Message>, orphans: seq<string>, i: nat, r: seq<Message>) returns (p: nat)
    requires r == DropOrphans(ms, orphans) && i < |r|
    ensures p < |ms| && r[i] == ms[p] && r[..i] == DropOrphans(ms[..p], orphans)
  {
    if Kept(ms[0], orphans) && i == 0 {
      p := 0;
    } else {
      var rest := DropOrphans(ms[1..], orphans);
      var q := DropAt(ms[1..], orphans, if Kept(ms[0], orphans) then i - 1 else i, rest);
      p := q + 1;
      DropLater(ms, ms[1..], orphans, i, q, rest);
    }
  }

  lemma DropLater(ms: seq<Message>, more: seq<Message>, orphans: seq<string>, i: nat, q: nat, rest: seq<Message>)
    requires ms != [] && more == ms[1..] && rest == DropOrphans(more, orphans) && q < |more|
    requires var j := if Kept(ms[0], orphans) then i - 1 else i;
             0 <= j < |rest| && rest[j] == more[q] && rest[..j] == DropOrphans(more[..q], orphans)
    ensures i < |DropOrphans(ms, orphans)| && DropOrphans(ms, orphans)[i] == ms[q + 1]
    ensures DropOrphans(ms, orphans)[..i] == DropOrphans(ms[..q + 1], orphans)
  {
    assert ms[..q + 1][1..] == more[..q];
    assert ms[..q + 1][0] == ms[0];
  }

  lemma KeptFollows(ms: seq<Message>, i: nat)
    requires AnswersFollow(ms) && i < |DropOrphans(ms, Orphans(ms))|
    ensures var r := DropOrphans(ms, Orphans(ms)); r[i].Result? ==> Declares(Declared(r[..i]), r[i].callId)
  {
    var p := DropAt(ms, Orphans(ms), i, DropOrphans(ms, Orphans(ms)));
    DropOrphansEffect(ms[..p], Orphans(ms));
    ResultsAnswer(ms);
    assert ms[p] in ms;
  }

  lemma AddedFollows(ms: seq<Message>, kept: seq<Message>, added: seq<Message>, j: nat)
    requires kept == DropOrphans(ms, Orphans(ms)) && added == Synthesize(NotExecuted, Unanswered(ms)) && j < |added|
    ensures added[j].Result? && Declares(Declared((kept + added)[..|kept| + j]), added[j].callId)
  {
    SynthesizeAt(NotExecuted, Unanswered(ms));
    DropOrphansEffect(ms, Orphans(ms));
    TakeMore(kept, added, j);
    DeclaredConcat(kept, added[..j]);
    DeclaresOne(Unanswered(ms)[j], Declared(ms), Declared(added[..j]), added[j].callId);
  }

  lemma TakeMore(kept: seq<Message>, added: seq<Message>, j: nat)
    requires j <= |added|
    ensures (kept + added)[..|kept| + j] == kept + added[..j]
  {
  }

  lemma DeclaresOne(c: CallRef, calls: seq<CallRef>, more: seq<CallRef>, id: string)
    requires c in calls && c.id == id
    ensures Declares(calls + more, id)
  {
    assert c in calls + more;
  }

  /** In the repaired turn every result stands behind a declaration of its id, if that held of the
      declared results before. */
  lemma RepairAnswersFollow(ms: seq<Message>, i: nat)
    requires AnswersFollow(ms) && i < |RepairMessages(ms)| && RepairMessages(ms)[i].Result?
    ensures Declares(Declared(RepairMessages(ms)[..i]), RepairMessages(ms)[i].callId)
  {
    var kept, added := DropOrphans(ms, Orphans(ms)), Synthesize(NotExecuted, Unanswered(ms));
    RepairSplits(ms);
    if i < |kept| {
      KeptFollows(ms, i);
      assert (kept + added)[..i] == kept[..i];
    } else {
      AddedFollows(ms, kept, added, i - |kept|);
    }
  }
}
