/**
 One round of tool calls: run them in order, stop executing at the first call that does not
 cleanly succeed, let `break` end the round, and answer every declared call. How a tool ends
 and the wording of results are parameters.
 */
module ToolTurn {
  import opened Pairing

  const BREAK := "break"

  /** How one executed call ends. `Interrupted` is a cancel of the round while it runs. */
  datatype Outcome = Success(text: string) | Failed(text: string) | Deferred(text: string) | Interrupted

  datatype Exec =
    | Recorded(messages: seq<Message>)
    | Broke(messages: seq<Message>, at: nat)
    | Cancelled

  /** What an answer given inside the loop reports: the outcome of a call that ran, or that
      `call` was skipped because `after` failed or was deferred. How it reads is a parameter. */
  datatype Report = Ran(outcome: Outcome) | Skipped(call: CallRef, after: CallRef, why: Outcome)

  /** The position of the first `break` at or after `i`, or the number of calls. */
  function BreakAt(calls: seq<CallRef>, i: nat): (b: nat)
    requires i <= |calls|
    ensures i <= b <= |calls|
    decreases |calls| - i
  {
    if i == |calls| || calls[i].name == BREAK then i else BreakAt(calls, i + 1)
  }

  lemma {:induction false} BreakIsFirst(calls: seq<CallRef>, i: nat)
    requires i <= |calls|
    ensures forall k :: i <= k < BreakAt(calls, i) ==> calls[k].name != BREAK
    ensures BreakAt(calls, i) < |calls| ==> calls[BreakAt(calls, i)].name == BREAK
    decreases |calls| - i
  {
    if i < |calls| && calls[i].name != BREAK { BreakIsFirst(calls, i + 1); }
  }

  /** How many calls are executed when the first `i` succeeded. */
  function Stop(calls: seq<CallRef>, outcome: nat -> Outcome, i: nat): nat
    requires i <= |calls|
    decreases |calls| - i
  {
    if i == |calls| || calls[i].name == BREAK then i
    else if outcome(i).Success? then Stop(calls, outcome, i + 1)
    else i + 1
  }

  // ---------------------------------------------------------------- what a round may execute

  /** Executing exactly the first `n` calls is right: none of them is a `break`, all but the
      last succeeded, and there was a reason to stop there. */
  ghost predicate StopsAt(calls: seq<CallRef>, outcome: nat -> Outcome, n: nat) {
    && n <= |calls|
    && (forall i :: 0 <= i < n ==> calls[i].name != BREAK)
    && (forall i: nat :: i + 1 < n ==> outcome(i).Success?)
    && (n == |calls| || calls[n].name == BREAK || (n > 0 && !outcome(n - 1).Success?))
  }

  /** The rule leaves no choice. */
  lemma StopIsUnique(calls: seq<CallRef>, outcome: nat -> Outcome, n: nat, m: nat)
    requires StopsAt(calls, outcome, n) && StopsAt(calls, outcome, m) && n <= m
    ensures n == m
  {
  }

  lemma {:induction false} StopFrom(calls: seq<CallRef>, outcome: nat -> Outcome, i: nat)
    requires i <= |calls|
    ensures var n := Stop(calls, outcome, i);
            && i <= n <= |calls| && n <= BreakAt(calls, i)
            && (forall k :: i <= k < n - 1 ==> outcome(k).Success?)
            && (n == |calls| || calls[n].name == BREAK || (n > i && !outcome(n - 1).Success?))
    decreases |calls| - i
  {
    if i < |calls| && calls[i].name != BREAK {
      StopFrom(calls, outcome, i + 1);
      assert BreakAt(calls, i) == BreakAt(calls, i + 1);
    }
  }

  lemma StopInRange(calls: seq<CallRef>, outcome: nat -> Outcome)
    ensures Stop(calls, outcome, 0) <= BreakAt(calls, 0) <= |calls|
  {
    StopFrom(calls, outcome, 0);
  }

  /** The executed calls are the prefix ending at the first call that does not cleanly
      succeed, or just before the first `break`. */
  lemma StopIsRight(calls: seq<CallRef>, outcome: nat -> Outcome)
    ensures StopsAt(calls, outcome, Stop(calls, outcome, 0))
    ensures BreakAt(calls, 0) > 0 ==> Stop(calls, outcome, 0) > 0
  {
    StopFrom(calls, outcome, 0);
    BreakIsFirst(calls, 0);
  }

  /** The text answering call `i` when the first `ran` calls were executed. */
  function AnswerText(calls: seq<CallRef>, outcome: nat -> Outcome, render: Report -> string, ran: nat, i: nat): string
    requires i < |calls| && ran <= |calls|
  {
    render(if i < ran || ran == 0 then Ran(outcome(i)) else Skipped(calls[i], calls[ran - 1], outcome(ran - 1)))
  }

  // ---------------------------------------------------------------- pairing

  /** Answering everything unanswered pairs any turn that answers only what it declares. */
  lemma SynthesisPairs(ms: seq<Message>, content: CallRef -> string)
    requires forall id :: id in Answers(ms) ==> Declares(Declared(ms), id)
    ensures Paired(ms + Synthesize(content, Unanswered(ms)))
  {
    var added := Synthesize(content, Unanswered(ms));
    DeclaredConcat(ms, added);
    AnswersConcat(ms, added);
    SynthesizedAnswers(content, Unanswered(ms));
    forall c | c in Declared(ms) ensures c.id in Answers(ms + added) {
      if c.id !in Answers(ms) { assert Declares(Unanswered(ms), c.id); }
    }
    forall id | id in Answers(ms + added) ensures Declares(Declared(ms), id) {
      if id !in Answers(ms) {
        var c :| c in Unanswered(ms) && c.id == id;
      }
    }
  }

  lemma {:induction false} IdsDeclared(calls: seq<CallRef>, all: seq<CallRef>)
    requires forall c :: c in calls ==> c in all
    ensures forall id :: id in Ids(calls) ==> Declares(all, id)
    ensures forall c :: c in calls ==> c.id in Ids(calls)
  {
    if calls != [] {
      assert calls[0] in calls;
      IdsDeclared(calls[1..], all);
    }
  }

  lemma {:induction false} IdsLast(calls: seq<CallRef>, i: nat)
    requires i < |calls|
    ensures Ids(calls[..i + 1]) == Ids(calls[..i]) + [calls[i].id]
  {
    if i == 0 {
      assert calls[..1][1..] == [] && calls[..0] == [];
    } else {
      IdsLast(calls[1..], i - 1);
      assert calls[..i + 1][1..] == calls[1..][..i] && calls[..i][1..] == calls[1..][..i - 1];
    }
  }

  lemma {:induction false} NothingDangles(calls: seq<CallRef>, answers: seq<string>)
    requires forall c :: c in calls ==> c.id in answers
    ensures Dangling(calls, answers) == []
  {
    if calls != [] {
      assert calls[0] in calls;
      NothingDangles(calls[1..], answers);
    }
  }

  ghost predicate DistinctIds(calls: seq<CallRef>) {
    forall i, j :: 0 <= i < j < |calls| ==> calls[i].id != calls[j].id
  }

  lemma {:induction false} AllDangle(calls: seq<CallRef>, answers: seq<string>)
    requires forall c :: c in calls ==> c.id !in answers
    ensures Dangling(calls, answers) == calls
  {
    if calls != [] {
      assert calls[0] in calls;
      AllDangle(calls[1..], answers);
    }
  }

  lemma {:induction false} DanglingConcat(a: seq<CallRef>, b: seq<CallRef>, answers: seq<string>)
    ensures Dangling(a + b, answers) == Dangling(a, answers) + Dangling(b, answers)
  {
    if a == [] {
      assert a + b == b;
    } else {
      assert (a + b)[1..] == a[1..] + b;
      DanglingConcat(a[1..], b, answers);
    }
  }

  lemma {:induction false} IdsIndexed(calls: seq<CallRef>, id: string) returns (k: nat)
    requires id in Ids(calls)
    ensures k < |calls| && calls[k].id == id
  {
    if calls[0].id == id { k := 0; } else {
      k := IdsIndexed(calls[1..], id);
      k := k + 1;
    }
  }

  lemma NotYet(calls: seq<CallRef>, at: nat, c: CallRef)
    requires at <= |calls| && DistinctIds(calls) && c in calls[at..]
    ensures c.id !in Ids(calls[..at])
  {
    var j :| at <= j < |calls| && calls[j] == c;
    if c.id in Ids(calls[..at]) {
      var k := IdsIndexed(calls[..at], c.id);
      assert false;
    }
  }

  /** With distinct ids, or no `break`, exactly the calls from the `break` on are still unanswered. */
  lemma UnansweredFrom(calls: seq<CallRef>, at: nat)
    requires at <= |calls| && (at == |calls| || DistinctIds(calls))
    ensures Dangling(calls, Ids(calls[..at])) == calls[at..]
  {
    var front, back := calls[..at], calls[at..];
    assert calls == front + back;
    DanglingConcat(front, back, Ids(front));
    IdsDeclared(front, front);
    NothingDangles(front, Ids(front));
    forall c | c in back ensures c.id !in Ids(front) { NotYet(calls, at, c); }
    AllDangle(back, Ids(front));
  }

  lemma {:induction false} SynthesizedIds(content: CallRef -> string, calls: seq<CallRef>)
    ensures Answers(Synthesize(content, calls)) == Ids(calls)
  {
    if calls != [] {
      assert Synthesize(content, calls)[1..] == Synthesize(content, calls[1..]);
      SynthesizedIds(content, calls[1..]);
    }
  }

  lemma {:induction false} IdsConcat(a: seq<CallRef>, b: seq<CallRef>)
    ensures Ids(a + b) == Ids(a) + Ids(b)
  {
    if a == [] {
      assert a + b == b;
    } else {
      assert (a + b)[1..] == a[1..] + b;
      IdsConcat(a[1..], b);
    }
  }

  // ---------------------------------------------------------------- the round

  /** Answers to the first `i` calls when the first `ran` calls were executed. */
  function Replies(calls: seq<CallRef>, outcome: nat -> Outcome, render: Report -> string, ran: nat, i: nat): seq<Message>
    requires i <= |calls| && ran <= |calls|
  {
    if i == 0 then []
    else Replies(calls, outcome, render, ran, i - 1)
         + [Result(AnswerText(calls, outcome, render, ran, i - 1), calls[i - 1].id)]
  }

  lemma RepliesNext(calls: seq<CallRef>, outcome: nat -> Outcome, render: Report -> string, ran: nat, i: nat)
    requires i < |calls| && ran <= |calls| && calls[i].name != BREAK
    ensures Replies(calls, outcome, render, ran, i + 1)
            == Replies(calls, outcome, render, ran, i) + [Result(AnswerText(calls, outcome, render, ran, i), calls[i].id)]
    ensures BreakAt(calls, i) == BreakAt(calls, i + 1)
  {
  }

  lemma {:induction false} RepliesAt(calls: seq<CallRef>, outcome: nat -> Outcome, render: Report -> string,
                                     ran: nat, i: nat, j: nat)
    requires j < i <= |calls| && ran <= |calls|
    ensures |Replies(calls, outcome, render, ran, i)| == i
    ensures Replies(calls, outcome, render, ran, i)[j] == Result(AnswerText(calls, outcome, render, ran, j), calls[j].id)
  {
    if i > 1 {
      RepliesAt(calls, outcome, render, ran, i - 1, if j < i - 1 then j else 0);
    }
  }

  lemma {:induction false} RepliesAnswer(calls: seq<CallRef>, outcome: nat -> Outcome, render: Report -> string,
                                         ran: nat, i: nat)
    requires i <= |calls| && ran <= |calls|
    ensures Declared(Replies(calls, outcome, render, ran, i)) == []
    ensures Answers(Replies(calls, outcome, render, ran, i)) == Ids(calls[..i])
  {
    if i == 0 {
      assert calls[..0] == [];
    } else {
      RepliesAnswer(calls, outcome, render, ran, i - 1);
      var text := AnswerText(calls, outcome, render, ran, i - 1);
      OneMore(Replies(calls, outcome, render, ran, i - 1), calls, i - 1, text, Replies(calls, outcome, render, ran, i));
    }
  }

  lemma OneMore(ms: seq<Message>, calls: seq<CallRef>, i: nat, text: string, next: seq<Message>)
    requires i < |calls| && Declared(ms) == [] && Answers(ms) == Ids(calls[..i])
    requires next == ms + [Result(text, calls[i].id)]
    ensures Declared(next) == [] && Answers(next) == Ids(calls[..i + 1])
  {
    var one := [Result(text, calls[i].id)];
    DeclaredConcat(ms, one);
    AnswersConcat(ms, one);
    assert one[1..] == [];
    IdsLast(calls, i);
  }

  /** The declaring message and the answers given inside the loop. */
  function Opening(content: string, calls: seq<CallRef>, replies: seq<Message>): seq<Message> {
    [Calls(content, calls)] + replies
  }

  lemma OpeningPairs(content: string, calls: seq<CallRef>, replies: seq<Message>)
    requires Declared(replies) == []
    ensures Declared(Opening(content, calls, replies)) == calls
    ensures Answers(Opening(content, calls, replies)) == Answers(replies)
  {
    assert Opening(content, calls, replies)[1..] == replies;
  }

  function Filled(ms: seq<Message>, text: CallRef -> string): seq<Message> {
    ms + Synthesize(text, Unanswered(ms))
  }

  /** What a round comes to. */
  function Round(content: string, calls: seq<CallRef>, outcome: nat -> Outcome, render: Report -> string,
                 unreached: nat -> CallRef -> string): Exec
  {
    StopInRange(calls, outcome);
    var ran := Stop(calls, outcome, 0);
    var b := BreakAt(calls, 0);
    var opening := Opening(content, calls, Replies(calls, outcome, render, ran, b));
    if ran > 0 && outcome(ran - 1) == Interrupted then Cancelled
    else if b < |calls| then Broke(Filled(opening, unreached(b)), b)
    else Recorded(Filled(opening, unreached(b)))
  }

  lemma RoundEnds(content: string, calls: seq<CallRef>, outcome: nat -> Outcome, render: Report -> string,
                  unreached: nat -> CallRef -> string, ran: nat, b: nat, replies: seq<Message>)
    requires ran == Stop(calls, outcome, 0) <= |calls| && b == BreakAt(calls, 0)
    requires replies == Replies(calls, outcome, render, ran, b) && (ran > 0 ==> outcome(ran - 1) != Interrupted)
    ensures Round(content, calls, outcome, render, unreached)
            == var filled := Filled(Opening(content, calls, replies), unreached(b));
               if b < |calls| then Broke(filled, b) else Recorded(filled)
  {
  }

  lemma RoundCancels(content: string, calls: seq<CallRef>, outcome: nat -> Outcome, render: Report -> string,
                     unreached: nat -> CallRef -> string, ran: nat)
    requires ran == Stop(calls, outcome, 0) && ran > 0 && outcome(ran - 1) == Interrupted
    ensures Round(content, calls, outcome, render, unreached) == Cancelled
  {
  }

  lemma FilledIsPaired(ms: seq<Message>, calls: seq<CallRef>, i: nat, text: CallRef -> string)
    requires i <= |calls| && Declared(ms) == calls && Answers(ms) == Ids(calls[..i])
    ensures Paired(Filled(ms, text)) && Declared(Filled(ms, text)) == calls
    ensures i == |calls| ==> Filled(ms, text) == ms
  {
    IdsDeclared(calls[..i], calls);
    SynthesisPairs(ms, text);
    DeclaredConcat(ms, Synthesize(text, Unanswered(ms)));
    SynthesizedAnswers(text, Unanswered(ms));
    if i == |calls| {
      assert calls[..i] == calls;
      NothingDangles(calls, Answers(ms));
    }
  }

  lemma FilledInOrder(ms: seq<Message>, calls: seq<CallRef>, front: seq<CallRef>, back: seq<CallRef>,
                      text: CallRef -> string)
    requires calls == front + back && Unanswered(ms) == back && Answers(ms) == Ids(front)
    ensures Answers(Filled(ms, text)) == Ids(calls)
  {
    AnswersThen(ms, front, back, text);
  }

  lemma AnswersThen(ms: seq<Message>, front: seq<CallRef>, back: seq<CallRef>, text: CallRef -> string)
    requires Answers(ms) == Ids(front)
    ensures Answers(ms + Synthesize(text, back)) == Ids(front + back)
  {
    SynthesizedIds(text, back);
    AnswersConcat(ms, Synthesize(text, back));
    IdsConcat(front, back);
  }

  /** Every turn handed back for recording declares the model's calls and is paired, whatever
      ids the model chose. When they are distinct, or no `break` cut the round short, there is
      exactly one answer per call, in order. */
  lemma RoundIsPaired(content: string, calls: seq<CallRef>, outcome: nat -> Outcome, render: Report -> string,
                      unreached: nat -> CallRef -> string)
    ensures var r := Round(content, calls, outcome, render, unreached);
            r != Cancelled ==>
              && Paired(r.messages) && !Damaged(r.messages) && Declared(r.messages) == calls
              && (r.Recorded? || DistinctIds(calls) ==> Answers(r.messages) == Ids(calls))
  {
    var r := Round(content, calls, outcome, render, unreached);
    if r != Cancelled {
      var opening, b := RoundOpens(content, calls, outcome, render, unreached, r);
      TurnIsPaired(opening, r.messages, calls, b, unreached(b));
    }
  }

  lemma RoundOpens(content: string, calls: seq<CallRef>, outcome: nat -> Outcome, render: Report -> string,
                   unreached: nat -> CallRef -> string, r: Exec) returns (opening: seq<Message>, b: nat)
    requires r == Round(content, calls, outcome, render, unreached) && r != Cancelled
    ensures b <= |calls| && Declared(opening) == calls && Answers(opening) == Ids(calls[..b])
    ensures r.messages == Filled(opening, unreached(b)) && (r.Recorded? ==> b == |calls|)
  {
    StopInRange(calls, outcome);
    var ran := Stop(calls, outcome, 0);
    b := BreakAt(calls, 0);
    var replies := Replies(calls, outcome, render, ran, b);
    RepliesAnswer(calls, outcome, render, ran, b);
    opening := Opening(content, calls, replies);
    OpeningPairs(content, calls, replies);
    RoundEnds(content, calls, outcome, render, unreached, ran, b, replies);
  }

  lemma TurnIsPaired(opening: seq<Message>, turn: seq<Message>, calls: seq<CallRef>, b: nat, text: CallRef -> string)
    requires b <= |calls| && Declared(opening) == calls && Answers(opening) == Ids(calls[..b]) && turn == Filled(opening, text)
    ensures Paired(turn) && !Damaged(turn) && Declared(turn) == calls
    ensures b == |calls| || DistinctIds(calls) ==> Answers(turn) == Ids(calls)
  {
    OpenedIsClean(opening, turn, calls, b, text);
    if b == |calls| || DistinctIds(calls) {
      TakeDrop(calls, b);
      OpenedAnswers(opening, turn, calls, calls[..b], calls[b..], text);
    }
  }

  lemma TakeDrop(calls: seq<CallRef>, b: nat)
    requires b <= |calls|
    ensures calls == calls[..b] + calls[b..]
  {
  }

  lemma OpenedIsClean(opening: seq<Message>, turn: seq<Message>, calls: seq<CallRef>, b: nat, text: CallRef -> string)
    requires b <= |calls| && Declared(opening) == calls && Answers(opening) == Ids(calls[..b]) && turn == Filled(opening, text)
    ensures Paired(turn) && !Damaged(turn) && Declared(turn) == calls
  {
    FilledIsPaired(opening, calls, b, text);
    ProbesAreExact(turn);
  }

  lemma OpenedAnswers(opening: seq<Message>, turn: seq<Message>, calls: seq<CallRef>, front: seq<CallRef>, back: seq<CallRef>,
                      text: CallRef -> string)
    requires calls == front + back && (back == [] || DistinctIds(calls))
    requires Declared(opening) == calls && Answers(opening) == Ids(front) && turn == Filled(opening, text)
    ensures Answers(turn) == Ids(calls)
  {
    UnansweredBack(calls, front, back);
    OpenedInOrder(opening, turn, calls, front, back, text);
  }

  lemma UnansweredBack(calls: seq<CallRef>, front: seq<CallRef>, back: seq<CallRef>)
    requires calls == front + back && (back == [] || DistinctIds(calls))
    ensures Dangling(calls, Ids(front)) == back
  {
    assert calls[..|front|] == front && calls[|front|..] == back;
    UnansweredFrom(calls, |front|);
  }

  lemma OpenedInOrder(opening: seq<Message>, turn: seq<Message>, calls: seq<CallRef>, front: seq<CallRef>, back: seq<CallRef>,
                      text: CallRef -> string)
    requires calls == front + back && Declared(opening) == calls && Answers(opening) == Ids(front)
    requires Dangling(calls, Ids(front)) == back && turn == Filled(opening, text)
    ensures Answers(turn) == Ids(calls)
  {
    FilledInOrder(opening, calls, front, back, text);
  }

  lemma TurnReads(content: string, calls: seq<CallRef>, replies: seq<Message>, b: nat, open: seq<bool>, text: CallRef -> string,
                  turn: seq<Message>)
    requires b <= |calls| && Declared(replies) == [] && Answers(replies) == Ids(calls[..b])
    requires MarksUnanswered(open, calls, Ids(calls[..b])) && turn == Filled(Opening(content, calls, replies), text)
    ensures turn == [Calls(content, calls)] + replies + Synthesize(text, Sifted(calls, open))
  {
    OpeningPairs(content, calls, replies);
    DanglingSifts(calls, Ids(calls[..b]), open);
  }

  /** What the answers given inside the loop report. */
  ghost predicate Reports(calls: seq<CallRef>, outcome: nat -> Outcome, render: Report -> string, ran: nat, replies: seq<Message>)
    requires |replies| <= |calls| && (replies != [] ==> 0 < ran <= |calls|)
  {
    forall j :: 0 <= j < |replies| ==>
      replies[j] == Result(render(if j < ran then Ran(outcome(j)) else Skipped(calls[j], calls[ran - 1], outcome(ran - 1))), calls[j].id)
  }

  lemma RepliesReport(calls: seq<CallRef>, outcome: nat -> Outcome, render: Report -> string, ran: nat, b: nat, replies: seq<Message>)
    requires b <= |calls| && ran <= |calls| && (b > 0 ==> ran > 0) && replies == Replies(calls, outcome, render, ran, b)
    ensures |replies| == b && Reports(calls, outcome, render, ran, replies)
  {
    forall j: nat | j < b
      ensures |replies| == b && replies[j] == Result(AnswerText(calls, outcome, render, ran, j), calls[j].id)
    {
      RepliesAt(calls, outcome, render, ran, b, j);
    }
  }

  /** `b` is where the first `break` stands, or the number of calls without one. */
  ghost predicate FirstBreak(calls: seq<CallRef>, b: nat) {
    b <= |calls| && (forall i :: 0 <= i < b ==> calls[i].name != BREAK) && (b < |calls| ==> calls[b].name == BREAK)
  }

  lemma RuleIsStop(calls: seq<CallRef>, outcome: nat -> Outcome, ran: nat, b: nat)
    requires StopsAt(calls, outcome, ran) && FirstBreak(calls, b)
    ensures ran == Stop(calls, outcome, 0) && b == BreakAt(calls, 0) && (b > 0 ==> ran > 0)
  {
    StopIsRight(calls, outcome);
    BreakIsFirst(calls, 0);
    var n := Stop(calls, outcome, 0);
    if ran <= n { StopIsUnique(calls, outcome, ran, n); } else { StopIsUnique(calls, outcome, n, ran); }
  }

  /** The recorded turn message by message: the model's declaration; then, call by call before the
      first `break`, the outcome of what ran and a skip notice, naming the call that stopped the
      round and how it ended, for what did not; and then one synthesized result for every call
      whose id is still without an answer, in order. */
  lemma RoundShows(content: string, calls: seq<CallRef>, outcome: nat -> Outcome, render: Report -> string,
                   unreached: nat -> CallRef -> string, ran: nat, b: nat, open: seq<bool>) returns (replies: seq<Message>)
    requires StopsAt(calls, outcome, ran) && FirstBreak(calls, b) && MarksUnanswered(open, calls, Ids(calls[..b]))
    requires ran > 0 ==> outcome(ran - 1) != Interrupted
    ensures |replies| == b && (b > 0 ==> ran > 0) && Reports(calls, outcome, render, ran, replies)
    ensures var turn := [Calls(content, calls)] + replies + Synthesize(unreached(b), Sifted(calls, open));
            Round(content, calls, outcome, render, unreached) == if b < |calls| then Broke(turn, b) else Recorded(turn)
  {
    RuleIsStop(calls, outcome, ran, b);
    replies := Replies(calls, outcome, render, ran, b);
    RepliesAnswer(calls, outcome, render, ran, b);
    RepliesReport(calls, outcome, render, ran, b, replies);
    RoundEnds(content, calls, outcome, render, unreached, ran, b, replies);
    TurnReads(content, calls, replies, b, open, unreached(b), Filled(Opening(content, calls, replies), unreached(b)));
  }

  /** And it is dropped as a whole when the round was cancelled while a call ran. */
  lemma RoundDrops(content: string, calls: seq<CallRef>, outcome: nat -> Outcome, render: Report -> string,
                   unreached: nat -> CallRef -> string, ran: nat)
    requires StopsAt(calls, outcome, ran) && ran > 0 && outcome(ran - 1) == Interrupted
    ensures Round(content, calls, outcome, render, unreached) == Cancelled
  {
    StopIsRight(calls, outcome);
    var n := Stop(calls, outcome, 0);
    if ran <= n { StopIsUnique(calls, outcome, ran, n); } else { StopIsUnique(calls, outcome, n, ran); }
  }

  lemma FillStep(ms: seq<Message>, text: CallRef -> string, calls: seq<CallRef>, i: nat)
    requires i < |calls|
    ensures ms + Synthesize(text, calls[i..])
            == (ms + [Result(text(calls[i]), calls[i].id)]) + Synthesize(text, calls[i + 1..])
  {
    assert calls[i..][1..] == calls[i + 1..];
    assert Synthesize(text, calls[i..]) == [Result(text(calls[i]), calls[i].id)] + Synthesize(text, calls[i + 1..]);
  }

  /** `synthesize_unanswered_results`, which pushes onto the turn. */
  method FillIn(ms: seq<Message>, text: CallRef -> string) returns (filled: seq<Message>)
    ensures filled == Filled(ms, text)
  {
    filled := ms;
    var unanswered := Unanswered(ms);
    var i := 0;
    assert unanswered[0..] == unanswered;
    while i < |unanswered|
      invariant 0 <= i <= |unanswered|
      invariant filled + Synthesize(text, unanswered[i..]) == Filled(ms, text)
    {
      var c := unanswered[i];
      FillStep(filled, text, unanswered, i);
      filled := filled + [Result(text(c), c.id)];
      i := i + 1;
    }
  }

  /** The loop's own state before call `i`, against the final number `n` of executed calls. */
  ghost predicate Underway(calls: seq<CallRef>, outcome: nat -> Outcome, n: nat, i: nat, ran: nat, skip: bool) {
    && i <= |calls| && n <= |calls|
    && if skip then ran == n && 0 < n <= i && !outcome(n - 1).Success? && outcome(n - 1) != Interrupted
       else ran == i && Stop(calls, outcome, i) == n && (i > 0 ==> outcome(i - 1).Success?)
  }

  /** One call that is not a `break`: skip it, or execute it and maybe arm the skip flag. */
  method Dispatch(calls: seq<CallRef>, outcome: nat -> Outcome, render: Report -> string,
                  i: nat, ran: nat, skip: bool, ghost n: nat)
    returns (text: string, ran': nat, skip': bool, interrupted: bool)
    requires i < |calls| && calls[i].name != BREAK && Underway(calls, outcome, n, i, ran, skip)
    ensures interrupted ==> ran' == n == i + 1 && outcome(i) == Interrupted
    ensures !interrupted ==> Underway(calls, outcome, n, i + 1, ran', skip') && text == AnswerText(calls, outcome, render, n, i)
  {
    ran', skip', interrupted := ran, skip, false;
    if skip {
      text := render(Skipped(calls[i], calls[ran - 1], outcome(ran - 1)));
    } else {
      ran' := i + 1;
      interrupted := outcome(i) == Interrupted;
      skip' := !outcome(i).Success?;
      text := render(Ran(outcome(i)));
      if !skip' { StopFrom(calls, outcome, i + 1); }
    }
  }

  /** The loop of `execute_tool_calls`, with its skip flag and the hoisted `break`: `at` is
      where it stopped, if it was not interrupted. */
  method RunCalls(calls: seq<CallRef>, outcome: nat -> Outcome, render: Report -> string)
    returns (replies: seq<Message>, at: nat, ran: nat, interrupted: bool)
    ensures ran == Stop(calls, outcome, 0) <= |calls|
    ensures interrupted <==> ran > 0 && outcome(ran - 1) == Interrupted
    ensures !interrupted ==> at == BreakAt(calls, 0) && replies == Replies(calls, outcome, render, ran, at)
  {
    StopInRange(calls, outcome);
    ghost var n, b := Stop(calls, outcome, 0), BreakAt(calls, 0);
    var skip := false;
    replies, at, ran, interrupted := [], 0, 0, false;
    while at < |calls| && calls[at].name != BREAK
      invariant at <= |calls| && BreakAt(calls, at) == b
      invariant Underway(calls, outcome, n, at, ran, skip)
      invariant replies == Replies(calls, outcome, render, n, at)
    {
      var text;
      text, ran, skip, interrupted := Dispatch(calls, outcome, render, at, ran, skip, n);
      if interrupted {
        return;
      }
      RepliesNext(calls, outcome, render, n, at);
      replies := replies + [Result(text, calls[at].id)];
      at := at + 1;
    }
    interrupted := false;
  }

  method ExecuteToolCalls(content: string, calls: seq<CallRef>, outcome: nat -> Outcome,
                          render: Report -> string, unreached: nat -> CallRef -> string)
    returns (result: Exec, ran: nat)
    ensures ran == Stop(calls, outcome, 0)
    ensures result == Round(content, calls, outcome, render, unreached)
  {
    var replies, at, interrupted;
    replies, at, ran, interrupted := RunCalls(calls, outcome, render);
    if interrupted {
      RoundCancels(content, calls, outcome, render, unreached, ran);
      return Cancelled, ran;
    }
    RoundEnds(content, calls, outcome, render, unreached, ran, at, replies);
    var turn := FillIn(Opening(content, calls, replies), unreached(at));
    result := if at < |calls| then Broke(turn, at) else Recorded(turn);
  }
}
