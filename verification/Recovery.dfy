/**
 What restore and offline repair do with the history log: the manifest-loss rebuild of the
 window and of the next turn id, and the repair that appends corrected turns under their
 old ids.
 */
module Recovery {
  import opened Options
  import opened Pairing
  import opened History

  // ---------------------------------------------------------------- append order

  /** Turn records appear in nondecreasing id order, as a live agent writes them. */
  ghost predicate Ordered(ls: seq<Line>) {
    forall i, j :: 0 <= i < j < |ls| && TurnOf(ls[i]).Some? && TurnOf(ls[j]).Some? ==>
      TurnOf(ls[i]).value.id <= TurnOf(ls[j]).value.id
  }

  ghost predicate Records(ls: seq<Line>, id: nat) {
    exists k :: 0 <= k < |ls| && TurnOf(ls[k]).Some? && TurnOf(ls[k]).value.id == id
  }

  lemma {:induction false} RecordsIsLatest(ls: seq<Line>, id: nat)
    ensures Records(ls, id) <==> Latest(ls, id).Some?
    decreases |ls|
  {
    if ls != [] {
      RecordsIsLatest(Init(ls), id);
      assert Records(ls, id) <==> Records(Init(ls), id) || (TurnOf(Last(ls)).Some? && TurnOf(Last(ls)).value.id == id) by {
        if Records(Init(ls), id) {
          var k :| 0 <= k < |Init(ls)| && TurnOf(Init(ls)[k]).Some? && TurnOf(Init(ls)[k]).value.id == id;
          assert TurnOf(ls[k]).Some?;
        }
        if Records(ls, id) && !(TurnOf(Last(ls)).Some? && TurnOf(Last(ls)).value.id == id) {
          var k :| 0 <= k < |ls| && TurnOf(ls[k]).Some? && TurnOf(ls[k]).value.id == id;
          assert Init(ls)[k] == ls[k];
        }
      }
    }
  }

  /** In an ordered log the newest record carries the highest id. */
  lemma {:induction false} OrderedNewestIsMax(ls: seq<Line>, id: nat)
    requires Ordered(ls) && Records(ls, id)
    ensures id <= NewestId(ls)
    decreases |ls|
  {
    var k :| 0 <= k < |ls| && TurnOf(ls[k]).Some? && TurnOf(ls[k]).value.id == id;
    if TurnOf(Last(ls)).None? {
      assert Init(ls)[k] == ls[k];
      OrderedNewestIsMax(Init(ls), id);
    }
  }

  // ---------------------------------------------------------------- the tail window

  /** The newest-first list holds, for each id outside `seen`, its latest record. */
  lemma {:induction false} NewestIsLatest(ls: seq<Line>, seen: set<nat>, u: Turn)
    ensures u in Newest(ls, seen) <==> u.id !in seen && Latest(ls, u.id) == Some(u)
    decreases |ls|
  {
    if ls != [] {
      var t := TurnOf(Last(ls));
      if t.Some? && t.value.id !in seen {
        NewestIsLatest(Init(ls), seen + {t.value.id}, u);
      } else {
        NewestIsLatest(Init(ls), seen, u);
      }
    }
  }

  ghost predicate Descending(ts: seq<Turn>) {
    forall i, j :: 0 <= i < j < |ts| ==> ts[i].id > ts[j].id
  }

  lemma {:induction false} NewestDescends(ls: seq<Line>, seen: set<nat>)
    requires Ordered(ls)
    ensures Descending(Newest(ls, seen))
    decreases |ls|
  {
    if ls != [] {
      var t := TurnOf(Last(ls));
      if t.Some? && t.value.id !in seen {
        var rest := Newest(Init(ls), seen + {t.value.id});
        NewestDescends(Init(ls), seen + {t.value.id});
        forall k | 0 <= k < |rest| ensures rest[k].id < t.value.id {
          NewestIsLatest(Init(ls), seen + {t.value.id}, rest[k]);
          RecordsIsLatest(Init(ls), rest[k].id);
          var n :| 0 <= n < |Init(ls)| && TurnOf(Init(ls)[n]).Some? && TurnOf(Init(ls)[n]).value.id == rest[k].id;
          assert TurnOf(ls[n]).value.id <= t.value.id;
        }
      } else {
        NewestDescends(Init(ls), seen);
      }
    }
  }

  lemma ReversedAscends(ts: seq<Turn>)
    requires Descending(ts)
    ensures Ascending(Reversed(ts)) && |Reversed(ts)| == |ts|
  {
    forall k | 0 <= k < |ts| ensures |Reversed(ts)| == |ts| && Reversed(ts)[k] == ts[|ts| - 1 - k] {
      ReversedAt(ts, k);
    }
  }

  /** The tail rebuild keeps the longest newest-first run of deduplicated turns that fits
      the budget; on an ordered log the window is ascending. */
  lemma TailWindowIsLongestRun(ls: seq<Line>, budget: nat, k: nat)
    requires k <= |Newest(ls, {})|
    ensures |TailWindow(ls, budget)| <= |Newest(ls, {})|
    ensures TailWindow(ls, budget) == Reversed(Newest(ls, {})[..|TailWindow(ls, budget)|])
    ensures Tokens(Newest(ls, {})[..k]) <= budget <==> k <= |TailWindow(ls, budget)|
    ensures Ordered(ls) ==> Ascending(TailWindow(ls, budget))
  {
    var all := Newest(ls, {});
    var kept := Fitting(all, budget);
    FittingIsLongest(all, budget, k);
    assert kept == all[..|kept|];
    if kept != [] { ReversedAt(kept, 0); }
    if Ordered(ls) {
      NewestDescends(ls, {});
      ReversedAscends(kept);
    }
  }

  // ---------------------------------------------------------------- manifest-loss rebuild

  /** How many leading turns are damaged. */
  function DamagedLead(ts: seq<Turn>): (n: nat)
    ensures n <= |ts| && forall k :: 0 <= k < n ==> Damaged(ts[k].messages)
    ensures n < |ts| ==> !Damaged(ts[n].messages)
  {
    if ts == [] || !Damaged(ts[0].messages) then 0 else 1 + DamagedLead(ts[1..])
  }

  /** One past the last turn of the store: pins first, conversation after them. */
  function AfterBack(pins: seq<Turn>, convo: seq<Turn>): nat {
    if pins + convo == [] then 0 else Last(pins + convo).id + 1
  }

  datatype Store = Store(pins: seq<Turn>, convo: seq<Turn>, nextId: nat)

  /** `from_persisted`: the manifest's next id, never below one past the last turn. */
  function FromPersisted(pins: seq<Turn>, convo: seq<Turn>, next: nat): Store {
    Store(pins, convo, if next >= AfterBack(pins, convo) then next else AfterBack(pins, convo))
  }

  /** The next id is the given one, or one past the last turn when that is higher. */
  lemma NextIdIs(pins: seq<Turn>, convo: seq<Turn>, next: nat)
    ensures var n := FromPersisted(pins, convo, next).nextId;
            && n >= next && (pins + convo != [] ==> n > Last(pins + convo).id)
            && (n == next || (pins + convo != [] && n == Last(pins + convo).id + 1))
  {
  }

  function Rebuilt(ls: seq<Line>, pins: seq<Turn>, budget: nat): Store {
    var window := TailWindow(ls, budget);
    FromPersisted(pins, window[DamagedLead(window)..], NewestId(ls) + 1)
  }

  method CountDamagedLead(turns: seq<Turn>) returns (lead: nat)
    ensures lead == DamagedLead(turns)
  {
    lead := 0;
    assert turns[0..] == turns;
    while lead < |turns| && Damaged(turns[lead].messages)
      invariant lead <= |turns| && lead + DamagedLead(turns[lead..]) == DamagedLead(turns)
    {
      assert turns[lead..][0] == turns[lead] && turns[lead..][1..] == turns[lead + 1..];
      lead := lead + 1;
    }
    if lead < |turns| { assert turns[lead..][0] == turns[lead]; }
  }

  method RebuildWindowFromTail(log: Log, pins: seq<Turn>, budget: nat) returns (store: Store)
    ensures store == Rebuilt(Flat(log), pins, budget)
  {
    var turns := TailTurnsWithinBudget(log, budget);
    var lead := CountDamagedLead(turns);
    var newest := MaxTurnId(log);
    store := FromPersisted(pins, turns[lead..], newest + 1);
  }

  /** On an ordered log the rebuilt next id is above every recorded id, so no turn number
      is ever reused, and the window is ascending and starts at a paired turn. */
  lemma RebuildIsFresh(ls: seq<Line>, pins: seq<Turn>, budget: nat, id: nat)
    requires Ordered(ls)
    ensures var s := Rebuilt(ls, pins, budget);
            && Ascending(s.convo)
            && (s.convo != [] ==> Paired(s.convo[0].messages))
            && (Records(ls, id) ==> id < s.nextId)
            && (forall t :: t in s.convo ==> Latest(ls, t.id) == Some(t))
  {
    TailWindowIsLongestRun(ls, budget, 0);
    var window := TailWindow(ls, budget);
    var s := Rebuilt(ls, pins, budget);
    if s.convo != [] { ProbesAreExact(s.convo[0].messages); }
    if Records(ls, id) { OrderedNewestIsMax(ls, id); }
    forall t | t in s.convo ensures Latest(ls, t.id) == Some(t) {
      WindowIsLatest(ls, budget, t);
    }
  }

  lemma WindowIsLatest(ls: seq<Line>, budget: nat, t: Turn)
    requires t in TailWindow(ls, budget)
    ensures Latest(ls, t.id) == Some(t)
  {
    var kept := Fitting(Newest(ls, {}), budget);
    var k :| 0 <= k < |Reversed(kept)| && Reversed(kept)[k] == t;
    ReversedLength(kept);
    ReversedAt(kept, k);
    FittingIsLongest(Newest(ls, {}), budget, 0);
    assert t in Newest(ls, {});
    NewestIsLatest(ls, {}, t);
  }

  lemma {:induction false} ReversedLength(ts: seq<Turn>)
    ensures |Reversed(ts)| == |ts|
  {
    if ts != [] { ReversedLength(ts[1..]); }
  }

  // ---------------------------------------------------------------- appending a record

  function AppendToFile(f: DayFile, line: Line): DayFile {
    if f.Unreadable? then f
    else if f.lines == [] || f.terminated then Lines(f.lines + [line], true)
    else Lines(Init(f.lines) + [Corrupt], true)
  }

  /** Append one line to today's file. A line appended to a file whose last line was torn
      off before its newline runs into that line, and neither can be parsed afterwards; a
      file that cannot be read stays unreadable. */
  function AppendLine(log: Log, line: Line, newDay: bool): Log {
    if newDay || log == [] then log + [Lines([line], true)]
    else Init(log) + [AppendToFile(Last(log), line)]
  }

  /** The next append to today's file can be read back. */
  predicate Visible(log: Log, newDay: bool) {
    newDay || log == [] || (Last(log).Lines? && (Last(log).lines == [] || Last(log).terminated))
  }

  /** An append may get lost, but it does not destroy a line. */
  predicate Untorn(log: Log) {
    log == [] || Last(log).Unreadable? || Last(log).lines == [] || Last(log).terminated
  }

  lemma VisibleAppend(log: Log, line: Line, newDay: bool)
    requires Visible(log, newDay)
    ensures Flat(AppendLine(log, line, newDay)) == Flat(log) + [line]
    ensures forall d :: Visible(AppendLine(log, line, newDay), d)
  {
    var next := AppendLine(log, line, newDay);
    if newDay || log == [] {
      assert Init(next) == log;
    } else {
      assert Init(next) == Init(log);
      assert Flat(Init(log)) + (Last(log).lines + [line]) == Flat(log) + [line];
    }
  }

  lemma LostAppend(log: Log, line: Line)
    requires Untorn(log) && !Visible(log, false)
    ensures AppendLine(log, line, false) == log
  {
  }

  lemma TornAppend(log: Log, line: Line)
    requires !Untorn(log)
    ensures Flat(log) != [] && Flat(AppendLine(log, line, false)) == Init(Flat(log)) + [Corrupt]
    ensures forall d :: Visible(AppendLine(log, line, false), d)
  {
    var next := AppendLine(log, line, false);
    var f := Last(log);
    assert Init(next) == Init(log);
    assert Init(Flat(log)) == Flat(Init(log)) + Init(f.lines);
    assert Flat(Init(log)) + (Init(f.lines) + [Corrupt]) == Init(Flat(log)) + [Corrupt];
  }

  // ---------------------------------------------------------------- offline repair

  type Estimator = seq<Message> -> nat

  function RepairTurn(est: Estimator, t: Turn): Turn {
    if !Damaged(t.messages) then t
    else Turn(t.id, RepairMessages(t.messages), est(RepairMessages(t.messages)))
  }

  function RepairTurns(est: Estimator, ts: seq<Turn>): seq<Turn> {
    if ts == [] then [] else [RepairTurn(est, ts[0])] + RepairTurns(est, ts[1..])
  }

  function RecordOf(t: Turn): Line {
    Rec(TurnRecord, Some(t.id), t.messages, t.tokens)
  }

  /** `unanswered` are the ids of the calls that get a result, `orphans` those of the results that
      go. */
  datatype RepairAction = RepairAction(turnId: nat, unanswered: seq<string>, orphans: seq<string>)

  function ActionOf(t: Turn): RepairAction {
    RepairAction(t.id, Ids(Unanswered(t.messages)), Orphans(t.messages))
  }

  function Plan(ts: seq<Turn>): seq<RepairAction> {
    if ts == [] then []
    else
      (if Damaged(ts[0].messages) then [ActionOf(ts[0])] else []) + Plan(ts[1..])
  }

  function RepairLines(est: Estimator, ts: seq<Turn>): seq<Line> {
    if ts == [] then []
    else (if Damaged(ts[0].messages) then [RecordOf(RepairTurn(est, ts[0]))] else []) + RepairLines(est, ts[1..])
  }

  /** The log after these lines are appended one by one, day changes as `days` says. */
  function AppendAll(log: Log, lines: seq<Line>, days: nat -> bool, n: nat): Log
    decreases |lines|
  {
    if lines == [] then log else AppendAll(AppendLine(log, lines[0], days(n)), lines[1..], days, n + 1)
  }

  /** The directory in split format with a readable manifest. */
  class AgentDir {
    const turnIds: seq<nat>
    var log: Log

    constructor (turnIds: seq<nat>, log: Log)
      ensures this.turnIds == turnIds && this.log == log
    {
      this.turnIds := turnIds;
      this.log := log;
    }

    /** The conversation window a load of this directory yields. */
    ghost function Window(): seq<Turn>
      reads this
    {
      Collect(Flat(log), SortedIds(ToSet(turnIds)))
    }

    /** Plan one action per damaged window turn; when executing, append the repaired records up
        to the first append that fails, which ends the pass without a report. */
    method Repair(execute: bool, est: Estimator, days: nat -> bool, works: nat -> bool)
      returns (report: Option<seq<RepairAction>>)
      modifies this`log
      ensures var lines := RepairLines(est, old(Window()));
              var done := Working(works, 0, |lines|);
              && report == (if !execute || done == |lines| then Some(Plan(old(Window()))) else None)
              && log == if execute then AppendAll(old(log), lines[..done], days, 0) else old(log)
    {
      var turns, bad, missing, read := HydrateTurns(log, turnIds);
      var ok, actions, repaired := RepairAll(turns, log, est, days, works, execute);
      report := if ok then Some(actions) else None;
      if execute {
        log := repaired;
      }
    }
  }

  /** How many appends, counted from `n` and at most up to `m`, succeed before one fails. */
  function Working(works: nat -> bool, n: nat, m: nat): (k: nat)
    requires n <= m
    ensures n <= k <= m && (forall i :: n <= i < k ==> works(i)) && (k < m ==> !works(k))
    decreases m - n
  {
    if n == m || !works(n) then n else Working(works, n + 1, m)
  }

  lemma {:induction false} AppendAllLast(log: Log, lines: seq<Line>, days: nat -> bool, n: nat, line: Line)
    ensures AppendAll(log, lines + [line], days, n) == AppendLine(AppendAll(log, lines, days, n), line, days(n + |lines|))
    decreases |lines|
  {
    if lines == [] {
      assert [line][1..] == [];
    } else {
      assert (lines + [line])[1..] == lines[1..] + [line];
      AppendAllLast(AppendLine(log, lines[0], days(n)), lines[1..], days, n + 1, line);
    }
  }

  /** The loop over the window's turns: one action and one append per damaged turn. */
  method RepairAll(turns: seq<Turn>, log0: Log, est: Estimator, days: nat -> bool, works: nat -> bool, execute: bool)
    returns (ok: bool, actions: seq<RepairAction>, log: Log)
    ensures var lines := RepairLines(est, turns);
            var done := Working(works, 0, |lines|);
            && ok == (!execute || done == |lines|)
            && (ok ==> actions == Plan(turns))
            && (execute ==> log == AppendAll(log0, lines[..done], days, 0))
  {
    actions, log := [], log0;
    var appended := 0;
    ghost var lines := RepairLines(est, turns);
    RepairStart(est, turns, lines);
    for i := 0 to |turns|
      invariant Repairing(est, turns, i, lines, appended, actions)
      invariant execute ==> Written(log0, lines, days, works, appended, log)
    {
      RepairPeel(est, turns, i, lines, appended, actions);
      if Damaged(turns[i].messages) {
        actions := actions + [ActionOf(turns[i])];
        if execute {
          if !works(appended) {
            return false, actions, log;
          }
          WrittenNext(log0, lines, days, works, appended, log);
          log := AppendLine(log, RecordOf(RepairTurn(est, turns[i])), days(appended));
        }
        appended := appended + 1;
      }
    }
    RepairEnd(est, turns, lines, appended, actions);
    ok := true;
  }

  /** With `n` lines behind it the loop has the plan and the lines of the turns from `i` on
      still to come. */
  ghost predicate Repairing(est: Estimator, turns: seq<Turn>, i: nat, lines: seq<Line>, n: nat, actions: seq<RepairAction>) {
    && i <= |turns| && n <= |lines|
    && actions + Plan(turns[i..]) == Plan(turns) && RepairLines(est, turns[i..]) == lines[n..]
  }

  /** The first `n` appends worked and are in the log. */
  ghost predicate Written(log0: Log, lines: seq<Line>, days: nat -> bool, works: nat -> bool, n: nat, log: Log) {
    && n <= |lines| && Working(works, 0, |lines|) == Working(works, n, |lines|)
    && log == AppendAll(log0, lines[..n], days, 0)
  }

  lemma WrittenNext(log0: Log, lines: seq<Line>, days: nat -> bool, works: nat -> bool, n: nat, log: Log)
    requires Written(log0, lines, days, works, n, log) && n < |lines| && works(n)
    ensures Written(log0, lines, days, works, n + 1, AppendLine(log, lines[n], days(n)))
  {
    AppendAllLast(log0, lines[..n], days, 0, lines[n]);
    assert lines[..n + 1] == lines[..n] + [lines[n]];
  }

  lemma RepairStart(est: Estimator, turns: seq<Turn>, lines: seq<Line>)
    requires lines == RepairLines(est, turns)
    ensures Repairing(est, turns, 0, lines, 0, []) && lines[..0] == []
  {
    assert turns[0..] == turns && lines[0..] == lines && [] + Plan(turns) == Plan(turns);
  }

  lemma RepairEnd(est: Estimator, turns: seq<Turn>, lines: seq<Line>, n: nat, actions: seq<RepairAction>)
    requires Repairing(est, turns, |turns|, lines, n, actions)
    ensures n == |lines| && actions == Plan(turns)
  {
    assert turns[|turns|..] == [];
    assert actions + [] == actions;
  }

  /** One turn off the front of the plan and of the lines to append. */
  lemma RepairPeel(est: Estimator, turns: seq<Turn>, i: nat, lines: seq<Line>, n: nat, actions: seq<RepairAction>)
    requires i < |turns| && Repairing(est, turns, i, lines, n, actions)
    ensures if Damaged(turns[i].messages)
            then n < |lines| && lines[n] == RecordOf(RepairTurn(est, turns[i]))
                 && Repairing(est, turns, i + 1, lines, n + 1, actions + [ActionOf(turns[i])])
            else Repairing(est, turns, i + 1, lines, n, actions)
  {
    var rest := turns[i..];
    assert rest[0] == turns[i] && rest[1..] == turns[i + 1..];
    if Damaged(turns[i].messages) {
      assert RepairLines(est, rest) == [RecordOf(RepairTurn(est, turns[i]))] + RepairLines(est, turns[i + 1..]);
      assert lines[n..][0] == lines[n] && lines[n..][1..] == lines[n + 1..];
      assert Plan(rest) == [ActionOf(turns[i])] + Plan(turns[i + 1..]);
    } else {
      assert RepairLines(est, rest) == RepairLines(est, turns[i + 1..]);
      assert Plan(rest) == Plan(turns[i + 1..]);
    }
  }

  // ---------------------------------------------------------------- repair, then reload

  lemma {:induction false} VisibleAppends(log: Log, lines: seq<Line>, days: nat -> bool, n: nat)
    requires Visible(log, days(n)) || lines == []
    ensures Flat(AppendAll(log, lines, days, n)) == Flat(log) + lines
    decreases |lines|, 1
  {
    if lines == [] {
      assert Flat(log) + [] == Flat(log);
    } else {
      VisibleAppend(log, lines[0], days(n));
      AfterVisibleAppend(log, AppendLine(log, lines[0], days(n)), lines, days, n);
    }
  }

  lemma {:induction false} AfterVisibleAppend(log: Log, next: Log, lines: seq<Line>, days: nat -> bool, n: nat)
    requires lines != [] && Flat(next) == Flat(log) + [lines[0]] && Visible(next, days(n + 1))
    ensures Flat(AppendAll(next, lines[1..], days, n + 1)) == Flat(log) + lines
    decreases |lines|, 0
  {
    VisibleAppends(next, lines[1..], days, n + 1);
    assert Flat(log) + [lines[0]] + lines[1..] == Flat(log) + lines;
  }

  /** Among the appended lines an id no turn has finds nothing. */
  lemma {:induction false} RepairedLatestNone(est: Estimator, ts: seq<Turn>, id: nat)
    requires forall t :: t in ts ==> t.id != id
    ensures Latest(RepairLines(est, ts), id) == None
  {
    if ts != [] {
      RepairedLatestNone(est, ts[1..], id);
      var rest := RepairLines(est, ts[1..]);
      assert ts[0] in ts;
      LatestCons(RecordOf(RepairTurn(est, ts[0])), rest, id);
      assert RepairLines(est, ts) == [RecordOf(RepairTurn(est, ts[0]))] + rest || RepairLines(est, ts) == rest;
    }
  }

  /** Among the appended lines a damaged turn's id finds its repaired turn, a clean one's
      nothing. */
  lemma {:induction false} RepairedLatest(est: Estimator, ts: seq<Turn>, t: Turn)
    requires Ascending(ts) && t in ts
    ensures Latest(RepairLines(est, ts), t.id) == if Damaged(t.messages) then Some(RepairTurn(est, t)) else None
  {
    var rest := RepairLines(est, ts[1..]);
    var line := RecordOf(RepairTurn(est, ts[0]));
    LatestCons(line, rest, t.id);
    assert RepairLines(est, ts) == if Damaged(ts[0].messages) then [line] + rest else rest;
    if t == ts[0] {
      forall u | u in ts[1..] ensures u.id != t.id {}
      RepairedLatestNone(est, ts[1..], t.id);
    } else {
      assert t in ts[1..];
      RepairedLatest(est, ts[1..], t);
    }
  }

  /** Pointwise repaired records collect to the repaired window. */
  lemma {:induction false} CollectRepaired(est: Estimator, ls: seq<Line>, next: seq<Line>, ids: seq<nat>)
    requires forall id :: id in ids ==>
               Latest(next, id) == if Latest(ls, id).Some? then Some(RepairTurn(est, Latest(ls, id).value)) else None
    ensures Collect(next, ids) == RepairTurns(est, Collect(ls, ids))
  {
    if ids != [] {
      CollectRepaired(est, ls, next, ids[1..]);
      assert ids[0] in ids;
      if Latest(ls, ids[0]).Some? {
        assert Collect(ls, ids)[1..] == Collect(ls, ids[1..]);
      } else {
        assert Collect(ls, ids) == Collect(ls, ids[1..]);
      }
    }
  }

  lemma RepairReloads(est: Estimator, log: Log, ids: seq<nat>, days: nat -> bool)
    requires AscendingIds(ids)
    requires var ts := Collect(Flat(log), ids); Visible(log, days(0)) || RepairLines(est, ts) == []
    ensures var ts := Collect(Flat(log), ids);
            Collect(Flat(AppendAll(log, RepairLines(est, ts), days, 0)), ids) == RepairTurns(est, ts)
  {
    var ls := Flat(log);
    var ts := Collect(ls, ids);
    VisibleAppends(log, RepairLines(est, ts), days, 0);
    forall id | id in ids
      ensures Latest(ls + RepairLines(est, ts), id) ==
              if Latest(ls, id).Some? then Some(RepairTurn(est, Latest(ls, id).value)) else None
    {
      PatchedLatest(est, ls, ids, id);
    }
    CollectRepaired(est, ls, ls + RepairLines(est, ts), ids);
  }

  /** Repaired turns keep their ids, are all paired, and clean turns are untouched; a second
      repair plans nothing. */
  lemma RepairedWindow(est: Estimator, ts: seq<Turn>)
    ensures var r := RepairTurns(est, ts);
            && |r| == |ts|
            && (forall k :: 0 <= k < |ts| ==> SameTurn(est, ts[k], r[k]))
            && Plan(r) == []
  {
    RepairTurnsAt(est, ts);
    forall k | 0 <= k < |ts| ensures SameTurn(est, ts[k], RepairTurn(est, ts[k])) { RepairedTurn(est, ts[k]); }
    NothingPlanned(est, ts);
  }

  lemma {:induction false} RepairTurnsAt(est: Estimator, ts: seq<Turn>)
    ensures |RepairTurns(est, ts)| == |ts|
    ensures forall k :: 0 <= k < |ts| ==> RepairTurns(est, ts)[k] == RepairTurn(est, ts[k])
  {
    if ts != [] { RepairTurnsAt(est, ts[1..]); }
  }

  lemma {:induction false} NothingPlanned(est: Estimator, ts: seq<Turn>)
    ensures Plan(RepairTurns(est, ts)) == []
  {
    if ts != [] {
      NothingPlanned(est, ts[1..]);
      RepairedTurn(est, ts[0]);
      assert RepairTurns(est, ts)[1..] == RepairTurns(est, ts[1..]);
    }
  }

  /** Under its old id and paired; a turn that was paired is unchanged, and any other is estimated
      anew. */
  ghost predicate SameTurn(est: Estimator, was: Turn, t: Turn) {
    && t.id == was.id && Paired(t.messages) && (Paired(was.messages) ==> t == was)
    && (!Paired(was.messages) ==> t.messages == RepairMessages(was.messages) && t.tokens == est(t.messages))
  }

  /** The plan has one action for every turn that is not paired, in window order. */
  lemma PlanListsDamage(ts: seq<Turn>, marks: seq<bool>)
    requires |marks| == |ts| && forall k :: 0 <= k < |ts| ==> (marks[k] <==> !Paired(ts[k].messages))
    ensures Plan(ts) == Actions(Sifted(ts, marks))
  {
    forall k | 0 <= k < |ts| ensures marks[k] <==> Damaged(ts[k].messages) { ProbesAreExact(ts[k].messages); }
    PlanSifts(ts, marks);
  }

  function Actions(ts: seq<Turn>): seq<RepairAction> {
    if ts == [] then [] else [ActionOf(ts[0])] + Actions(ts[1..])
  }

  lemma {:induction false} PlanSifts(ts: seq<Turn>, marks: seq<bool>)
    requires |marks| == |ts| && forall k :: 0 <= k < |ts| ==> (marks[k] <==> Damaged(ts[k].messages))
    ensures Plan(ts) == Actions(Sifted(ts, marks))
  {
    if ts != [] {
      PlanSifts(ts[1..], marks[1..]);
      var rest := Sifted(ts[1..], marks[1..]);
      assert ([ts[0]] + rest)[1..] == rest && [] + rest == rest;
    }
  }

  /** An action names its turn, the ids of the calls without a result and those of the results
      without a call, each in message order. */
  lemma ActionNames(t: Turn, open: seq<bool>, stray: seq<bool>)
    requires MarksUnanswered(open, Declared(t.messages), Answers(t.messages))
    requires MarksStray(stray, Answers(t.messages), Declared(t.messages))
    ensures ActionOf(t) == RepairAction(t.id, Ids(Sifted(Declared(t.messages), open)), Sifted(Answers(t.messages), stray))
  {
    DanglingSifts(Declared(t.messages), Answers(t.messages), open);
    UndeclaredSifts(Answers(t.messages), Declared(t.messages), stray);
  }

  lemma RepairedTurn(est: Estimator, t: Turn)
    ensures var r := RepairTurn(est, t);
            r.id == t.id && Paired(r.messages) && !Damaged(r.messages) && (Paired(t.messages) ==> r == t)
    ensures !Paired(t.messages) ==> RepairTurn(est, t) == Turn(t.id, RepairMessages(t.messages), est(RepairMessages(t.messages)))
  {
    RepairIsClean(t.messages);
    ProbesAreExact(t.messages);
  }

  // ---------------------------------------------------------------- exactly when repair sticks

  ghost predicate Silent(lines: seq<Line>, id: nat) {
    forall k :: 0 <= k < |lines| ==> TurnOf(lines[k]).Some? ==> TurnOf(lines[k]).value.id != id
  }

  lemma {:induction false} SilentLatest(lines: seq<Line>, id: nat)
    requires Silent(lines, id)
    ensures Latest(lines, id) == None
    decreases |lines|
  {
    if lines != [] { SilentLatest(Init(lines), id); }
  }

  /** Appends under other ids never change what an id finds, lost or not, as long as no
      torn line is in the way. */
  lemma {:induction false} LatestUntouched(log: Log, lines: seq<Line>, days: nat -> bool, n: nat, id: nat)
    requires Untorn(log) && Silent(lines, id)
    ensures Latest(Flat(AppendAll(log, lines, days, n)), id) == Latest(Flat(log), id)
    decreases |lines|
  {
    if lines != [] {
      var next := AppendLine(log, lines[0], days(n));
      UntouchedByOne(log, lines[0], days(n), id);
      LatestUntouched(next, lines[1..], days, n + 1, id);
    }
  }

  lemma UntouchedByOne(log: Log, line: Line, newDay: bool, id: nat)
    requires Untorn(log) && (TurnOf(line).Some? ==> TurnOf(line).value.id != id)
    ensures var next := AppendLine(log, line, newDay);
            Untorn(next) && Latest(Flat(next), id) == Latest(Flat(log), id)
  {
    if Visible(log, newDay) {
      VisibleAppend(log, line, newDay);
      LatestConcat(Flat(log), [line], id);
      SilentLatest([line], id);
      assert Visible(AppendLine(log, line, newDay), false);
    } else {
      LostAppend(log, line);
    }
  }

  /** The first appended line repairs a damaged turn of the window, and no later one
      carries its id. */
  lemma {:induction false} FirstRepair(est: Estimator, ts: seq<Turn>) returns (t: Turn)
    requires Ascending(ts) && RepairLines(est, ts) != []
    ensures t in ts && Damaged(t.messages) && RepairTurn(est, t) in RepairTurns(est, ts)
    ensures TurnOf(RepairLines(est, ts)[0]) == Some(RepairTurn(est, t))
    ensures Silent(RepairLines(est, ts)[1..], t.id)
  {
    var rest := RepairLines(est, ts[1..]);
    if Damaged(ts[0].messages) {
      t := ts[0];
      assert RepairLines(est, ts)[1..] == rest;
      LinesAbove(est, ts[1..], t.id);
    } else {
      assert RepairLines(est, ts) == rest;
      t := FirstRepair(est, ts[1..]);
    }
  }

  lemma {:induction false} LinesAbove(est: Estimator, ts: seq<Turn>, id: nat)
    requires forall t :: t in ts ==> t.id > id
    ensures Silent(RepairLines(est, ts), id)
  {
    if ts != [] {
      assert ts[0] in ts;
      LinesAbove(est, ts[1..], id);
    }
  }

  /** A file tail torn inside a record of the first damaged turn, under which an older copy
      of the very same repaired turn already lies. */
  predicate OlderTwin(log: Log, line: Line)
    requires !Untorn(log) && TurnOf(line).Some?
  {
    && Flat(log) != []
    && TurnOf(Last(Flat(log))).Some?
    && TurnOf(Last(Flat(log))).value.id == TurnOf(line).value.id
    && Latest(Init(Flat(log)), TurnOf(line).value.id) == TurnOf(line)
  }

  /** What an operator can check before the repair: there is nothing to append, the target
      file takes an append, or the lost append would only repeat an older record. */
  predicate RepairSticks(lines: seq<Line>, log: Log, newDay: bool) {
    || lines == []
    || Visible(log, newDay)
    || (!Untorn(log) && TurnOf(lines[0]).Some? && OlderTwin(log, lines[0]))
  }

  lemma LatestWithoutLast(ls: seq<Line>, id: nat)
    requires ls != [] && (TurnOf(Last(ls)).Some? ==> TurnOf(Last(ls)).value.id != id)
    ensures Latest(ls, id) == Latest(Init(ls), id) == Latest(Init(ls) + [Corrupt], id)
  {
    assert Init(Init(ls) + [Corrupt]) == Init(ls);
  }

  /** A lost first append leaves its turn as it was, or as an older record had it. */
  lemma LostFirst(log: Log, line: Line, t: Turn, repaired: Turn)
    requires Latest(Flat(log), t.id) == Some(t) && TurnOf(line) == Some(repaired)
    requires repaired.id == t.id && repaired != t
    requires !Visible(log, false) && (Untorn(log) || !OlderTwin(log, line))
    ensures var next := AppendLine(log, line, false);
            Untorn(next) && Latest(Flat(next), t.id) != Some(repaired)
  {
    var ls := Flat(log);
    if Untorn(log) {
      LostAppend(log, line);
    } else {
      TornAppend(log, line);
      assert Visible(AppendLine(log, line, false), false);
      LostInTorn(ls, t, repaired);
    }
  }

  lemma LostInTorn(ls: seq<Line>, t: Turn, repaired: Turn)
    requires ls != [] && Latest(ls, t.id) == Some(t) && repaired.id == t.id && repaired != t
    requires TurnOf(Last(ls)).Some? && TurnOf(Last(ls)).value.id == t.id ==> Latest(Init(ls), t.id) != Some(repaired)
    ensures Latest(Init(ls) + [Corrupt], t.id) != Some(repaired)
  {
    assert Init(Init(ls) + [Corrupt]) == Init(ls);
    if !(TurnOf(Last(ls)).Some? && TurnOf(Last(ls)).value.id == t.id) { LatestWithoutLast(ls, t.id); }
  }

  /** The lost first repair leaves its turn unrepaired. */
  lemma LostRepairShows(est: Estimator, log: Log, ids: seq<nat>, days: nat -> bool)
    requires AscendingIds(ids)
    requires !RepairSticks(RepairLines(est, Collect(Flat(log), ids)), log, days(0))
    ensures var ts := Collect(Flat(log), ids);
            Collect(Flat(AppendAll(log, RepairLines(est, ts), days, 0)), ids) != RepairTurns(est, ts)
  {
    var ts := Collect(Flat(log), ids);
    var lines := RepairLines(est, ts);
    CollectMembers(Flat(log), ids);
    var t := FirstRepair(est, ts);
    RepairedTurn(est, t);
    LostFirst(log, lines[0], t, RepairTurn(est, t));
    MissingFromReload(AppendLine(log, lines[0], false), lines[1..], days, ids, RepairTurn(est, t));
  }

  lemma MissingFromReload(next: Log, rest: seq<Line>, days: nat -> bool, ids: seq<nat>, repaired: Turn)
    requires AscendingIds(ids) && Untorn(next) && Silent(rest, repaired.id)
    requires Latest(Flat(next), repaired.id) != Some(repaired)
    ensures repaired !in Collect(Flat(AppendAll(next, rest, days, 1)), ids)
  {
    LatestUntouched(next, rest, days, 1, repaired.id);
    CollectMembers(Flat(AppendAll(next, rest, days, 1)), ids);
  }

  /** The torn tail's own id finds the older twin. */
  lemma TwinOwnId(ls: seq<Line>, rest: seq<Line>, repaired: Turn)
    requires ls != [] && Silent(rest, repaired.id) && Latest(Init(ls), repaired.id) == Some(repaired)
    ensures Latest(Init(ls) + [Corrupt] + rest, repaired.id) == Some(repaired)
  {
    var torn := Init(ls) + [Corrupt];
    assert Init(torn) == Init(ls);
    LatestConcat(torn, rest, repaired.id);
    SilentLatest(rest, repaired.id);
  }

  /** Any other id finds what it would have found with every append in place. */
  lemma TwinOtherId(ls: seq<Line>, lines: seq<Line>, id: nat)
    requires ls != [] && lines != []
    requires TurnOf(Last(ls)).Some? && TurnOf(Last(ls)).value.id != id
    requires TurnOf(lines[0]).Some? && TurnOf(lines[0]).value.id != id
    ensures Latest(Init(ls) + [Corrupt] + lines[1..], id) == Latest(ls + lines, id)
  {
    LatestConcat(Init(ls) + [Corrupt], lines[1..], id);
    LatestConcat(ls, lines, id);
    LatestWithoutLast(ls, id);
    assert lines == [lines[0]] + lines[1..];
    LatestCons(lines[0], lines[1..], id);
  }

  lemma PatchedLatest(est: Estimator, ls: seq<Line>, ids: seq<nat>, id: nat)
    requires AscendingIds(ids) && id in ids
    ensures Latest(ls + RepairLines(est, Collect(ls, ids)), id) ==
            if Latest(ls, id).Some? then Some(RepairTurn(est, Latest(ls, id).value)) else None
  {
    var ts := Collect(ls, ids);
    CollectMembers(ls, ids);
    LatestConcat(ls, RepairLines(est, ts), id);
    LatestHasId(ls, id);
    if Latest(ls, id).Some? {
      RepairedLatest(est, ts, Latest(ls, id).value);
    } else {
      RepairedLatestNone(est, ts, id);
    }
  }

  lemma TwinReloads(est: Estimator, log: Log, ids: seq<nat>, days: nat -> bool)
    requires AscendingIds(ids)
    requires var lines := RepairLines(est, Collect(Flat(log), ids));
             && lines != [] && !Visible(log, days(0)) && !Untorn(log)
             && TurnOf(lines[0]).Some? && OlderTwin(log, lines[0])
    ensures var ts := Collect(Flat(log), ids);
            Collect(Flat(AppendAll(log, RepairLines(est, ts), days, 0)), ids) == RepairTurns(est, ts)
  {
    var ls := Flat(log);
    var ts := Collect(ls, ids);
    var lines := RepairLines(est, ts);
    CollectMembers(ls, ids);
    var t := FirstRepair(est, ts);
    TornAppend(log, lines[0]);
    VisibleAppends(AppendLine(log, lines[0], false), lines[1..], days, 1);
    var final := Init(ls) + [Corrupt] + lines[1..];
    forall id | id in ids
      ensures Latest(final, id) ==
              if Latest(ls, id).Some? then Some(RepairTurn(est, Latest(ls, id).value)) else None
    {
      if id == t.id {
        TwinOwnId(ls, lines[1..], RepairTurn(est, t));
      } else {
        PatchedLatest(est, ls, ids, id);
        TwinOtherId(ls, lines, id);
      }
    }
    CollectRepaired(est, ls, final, ids);
  }

  /** Repair then reload gives the repaired window if and only if the repairs can land;
      the window keeps its ids, is paired throughout and leaves clean turns alone. */
  lemma RepairReloadsIff(est: Estimator, log: Log, ids: seq<nat>, days: nat -> bool)
    requires AscendingIds(ids)
    ensures var ts := Collect(Flat(log), ids);
            var lines := RepairLines(est, ts);
            Collect(Flat(AppendAll(log, lines, days, 0)), ids) == RepairTurns(est, ts)
            <==> RepairSticks(lines, log, days(0))
  {
    var lines := RepairLines(est, Collect(Flat(log), ids));
    if !RepairSticks(lines, log, days(0)) {
      LostRepairShows(est, log, ids, days);
    } else if lines == [] || Visible(log, days(0)) {
      RepairReloads(est, log, ids, days);
    } else {
      TwinReloads(est, log, ids, days);
    }
  }
}
