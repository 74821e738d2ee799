/**
 What a repair does to a later rebuild from the log's tail. Repaired records are appended under
 old ids, so the newest record need not have the highest id any more: whether the rebuilt next
 id is unused, and whether the rebuilt window is still ascending, is settled exactly, for every
 state of the file the repair appends to.
 */
module RepairAftermath {
  import opened Options
  import opened Pairing
  import opened History
  import opened Recovery

  // ---------------------------------------------------------------- which appends land

  /** How many of `m` appends, the first of them the `n`th, never become readable: those to an
      unreadable file, and one that runs into a torn tail. */
  function Lost(log: Log, m: nat, days: nat -> bool, n: nat): (k: nat)
    ensures k <= m
    decreases m
  {
    if m == 0 || Visible(log, days(n)) then 0
    else if !Untorn(log) then 1
    else 1 + Lost(log, m - 1, days, n + 1)
  }

  /** The lines that are left in front of the appends that land. */
  function Base(log: Log, m: nat, days: nat -> bool, n: nat): seq<Line>
    decreases m
  {
    if m == 0 || Visible(log, days(n)) then Flat(log)
    else if !Untorn(log) then AllButLast(Flat(log)) + [Corrupt]
    else Base(log, m - 1, days, n + 1)
  }

  lemma {:induction false} Landing(log: Log, lines: seq<Line>, days: nat -> bool, n: nat)
    ensures Flat(AppendAll(log, lines, days, n))
            == Base(log, |lines|, days, n) + lines[Lost(log, |lines|, days, n)..]
    decreases |lines|
  {
    if lines == [] || Visible(log, days(n)) {
      VisibleAppends(log, lines, days, n);
      assert lines[0..] == lines;
    } else if !Untorn(log) {
      var next := AppendLine(log, lines[0], days(n));
      TornAppend(log, lines[0]);
      assert Visible(next, days(n + 1));
      VisibleAppends(next, lines[1..], days, n + 1);
    } else {
      LostAppend(log, lines[0]);
      Landing(log, lines[1..], days, n + 1);
      var k := Lost(log, |lines| - 1, days, n + 1);
      assert lines[1..][k..] == lines[k + 1..];
    }
  }

  lemma {:induction false} BaseOrdered(log: Log, m: nat, days: nat -> bool, n: nat)
    requires Ordered(Flat(log))
    ensures Ordered(Base(log, m, days, n))
    decreases m
  {
    if m > 0 && !Visible(log, days(n)) {
      if Untorn(log) {
        BaseOrdered(log, m - 1, days, n + 1);
      } else {
        TornBaseOrdered(Flat(log));
      }
    }
  }

  lemma TornBaseOrdered(ls: seq<Line>)
    requires Ordered(ls)
    ensures Ordered(AllButLast(ls) + [Corrupt])
  {
    assert TurnOf(Corrupt).None?;
  }

  // ---------------------------------------------------------------- repaired turns

  /** The turns a repair rewrites, repaired, in window order. */
  function Repaired(est: Estimator, ts: seq<Turn>): seq<Turn> {
    if ts == [] then []
    else (if Damaged(ts[0].messages) then [RepairTurn(est, ts[0])] else []) + Repaired(est, ts[1..])
  }

  function RecordsOf(rs: seq<Turn>): (ls: seq<Line>)
    ensures |ls| == |rs|
  {
    if rs == [] then [] else [RecordOf(rs[0])] + RecordsOf(rs[1..])
  }

  lemma {:induction false} RecordsOfConcat(a: seq<Turn>, b: seq<Turn>)
    ensures RecordsOf(a + b) == RecordsOf(a) + RecordsOf(b)
  {
    if a == [] {
      assert a + b == b;
    } else {
      assert (a + b)[1..] == a[1..] + b;
      RecordsOfConcat(a[1..], b);
    }
  }

  lemma {:induction false} RepairedRecords(est: Estimator, ts: seq<Turn>)
    ensures RepairLines(est, ts) == RecordsOf(Repaired(est, ts))
  {
    if ts != [] {
      RepairedRecords(est, ts[1..]);
      var rest := Repaired(est, ts[1..]);
      if Damaged(ts[0].messages) {
        assert ([RepairTurn(est, ts[0])] + rest)[1..] == rest;
      } else {
        assert [] + rest == rest;
      }
    }
  }

  /** Clean turns in ascending order. */
  ghost predicate Fixes(rs: seq<Turn>) {
    Ascending(rs) && forall k :: 0 <= k < |rs| ==> !Damaged(rs[k].messages)
  }

  /** Whatever comes before every turn comes before every repaired one. */
  lemma {:induction false} RepairedAbove(est: Estimator, ts: seq<Turn>, id: nat)
    requires forall k :: 0 <= k < |ts| ==> id < ts[k].id
    ensures forall k :: 0 <= k < |Repaired(est, ts)| ==> id < Repaired(est, ts)[k].id
  {
    if ts != [] { RepairedAbove(est, ts[1..], id); }
  }

  lemma {:induction false} RepairedFixes(est: Estimator, ts: seq<Turn>)
    requires Ascending(ts)
    ensures Fixes(Repaired(est, ts))
  {
    if ts != [] {
      RepairedFixes(est, ts[1..]);
      RepairedAbove(est, ts[1..], ts[0].id);
      if Damaged(ts[0].messages) {
        RepairedTurn(est, ts[0]);
        FixesCons(RepairTurn(est, ts[0]), Repaired(est, ts[1..]));
      }
    }
  }

  lemma FixesCons(t: Turn, rest: seq<Turn>)
    requires Fixes(rest) && !Damaged(t.messages) && forall k :: 0 <= k < |rest| ==> t.id < rest[k].id
    ensures Fixes([t] + rest)
  {
  }

  lemma SuffixFixes(rs: seq<Turn>, k: nat)
    requires Fixes(rs) && k <= |rs|
    ensures Fixes(rs[k..]) && RecordsOf(rs)[k..] == RecordsOf(rs[k..])
  {
    RecordsOfConcat(rs[..k], rs[k..]);
    assert rs == rs[..k] + rs[k..];
  }

  /** A repair leaves base lines followed by the records of clean, ascending turns. */
  lemma RepairLeaves(est: Estimator, log: Log, ids: seq<nat>, days: nat -> bool, lost: nat, base: seq<Line>, rs: seq<Turn>)
    requires AscendingIds(ids) && Ordered(Flat(log))
    requires var all := Repaired(est, Collect(Flat(log), ids));
             lost == Lost(log, |all|, days, 0) && base == Base(log, |all|, days, 0) && rs == all[lost..]
    ensures Ordered(base) && Fixes(rs)
    ensures Flat(AppendAll(log, RepairLines(est, Collect(Flat(log), ids)), days, 0)) == base + RecordsOf(rs)
  {
    var ts := Collect(Flat(log), ids);
    CollectMembers(Flat(log), ids);
    RepairedRecords(est, ts);
    RepairedFixes(est, ts);
    SuffixFixes(Repaired(est, ts), lost);
    BaseOrdered(log, |Repaired(est, ts)|, days, 0);
    Landing(log, RepairLines(est, ts), days, 0);
  }

  // ---------------------------------------------------------------- the highest id

  /** `n` is at least every recorded id. */
  ghost predicate Tops(n: nat, ls: seq<Line>) {
    forall id: nat {:trigger Latest(ls, id)} :: Latest(ls, id).Some? ==> id <= n
  }

  lemma OrderedTops(ls: seq<Line>)
    requires Ordered(ls)
    ensures Tops(NewestId(ls), ls)
  {
    forall id: nat | Latest(ls, id).Some? ensures id <= NewestId(ls) {
      RecordsIsLatest(ls, id);
      OrderedNewestIsMax(ls, id);
    }
  }

  lemma {:induction false} NewestIsRecorded(ls: seq<Line>)
    requires NewestTurn(ls).Some?
    ensures Latest(ls, NewestId(ls)).Some?
    decreases |ls|
  {
    if TurnOf(Last(ls)).None? { NewestIsRecorded(Init(ls)); }
  }

  lemma {:induction false} LatestOfRecords(rs: seq<Turn>, id: nat)
    requires Ascending(rs)
    ensures Latest(RecordsOf(rs), id).Some? ==> rs != [] && id <= rs[|rs| - 1].id
  {
    if rs != [] {
      LatestOfRecords(rs[1..], id);
      LatestCons(RecordOf(rs[0]), RecordsOf(rs[1..]), id);
    }
  }

  lemma NewestOfRecords(base: seq<Line>, rs: seq<Turn>)
    requires rs != []
    ensures NewestTurn(base + RecordsOf(rs)) == Some(rs[|rs| - 1])
  {
    var front, last := rs[..|rs| - 1], rs[|rs| - 1];
    assert rs == front + [last];
    RecordsOfConcat(front, [last]);
    assert RecordsOf([last]) == [RecordOf(last)];
    NewestTurnConcat(base, RecordsOf(rs));
    assert Last(RecordsOf(rs)) == RecordOf(last);
  }

  /** What the records added on top of an ordered log make of a bound on its ids. */
  lemma BoundIff(base: seq<Line>, rs: seq<Turn>, n: nat)
    requires Ordered(base) && Ascending(rs) && rs != [] && rs[|rs| - 1].id <= n
    ensures Tops(n, base + RecordsOf(rs)) <==> NewestId(base) <= n
  {
    var after := base + RecordsOf(rs);
    if NewestId(base) <= n {
      OrderedTops(base);
      forall id: nat | Latest(after, id).Some? ensures id <= n {
        LatestConcat(base, RecordsOf(rs), id);
        LatestOfRecords(rs, id);
      }
    } else {
      NewestIsRecorded(base);
      LatestConcat(base, RecordsOf(rs), NewestId(base));
      assert Latest(after, NewestId(base)).Some?;
    }
  }

  /** After a repair of an ordered log, `max_turn_id` is the highest recorded id if and only if
      no repair landed, or the last that did is at least as new as the records below it. */
  lemma RepairKeepsMaxIff(est: Estimator, log: Log, ids: seq<nat>, days: nat -> bool, lost: nat, base: seq<Line>, rs: seq<Turn>)
    requires AscendingIds(ids) && Ordered(Flat(log))
    requires var all := Repaired(est, Collect(Flat(log), ids));
             lost == Lost(log, |all|, days, 0) && base == Base(log, |all|, days, 0) && rs == all[lost..]
    ensures var after := Flat(AppendAll(log, RepairLines(est, Collect(Flat(log), ids)), days, 0));
            Tops(NewestId(after), after) <==> rs == [] || rs[|rs| - 1].id >= NewestId(base)
  {
    RepairLeaves(est, log, ids, days, lost, base, rs);
    if rs == [] {
      assert base + [] == base;
      OrderedTops(base);
    } else {
      NewestOfRecords(base, rs);
      BoundIff(base, rs, rs[|rs| - 1].id);
    }
  }

  // ---------------------------------------------------------------- the next id

  lemma {:induction false} NewestFirst(ls: seq<Line>, seen: set<nat>, t: Turn)
    requires NewestTurn(ls) == Some(t) && t.id !in seen
    ensures Newest(ls, seen) != [] && Newest(ls, seen)[0] == t
    decreases |ls|
  {
    if TurnOf(Last(ls)).None? { NewestFirst(Init(ls), seen, t); }
  }

  /** The rebuilt window ends with the newest record, or is empty because that does not fit. */
  lemma WindowEnds(ls: seq<Line>, budget: nat, t: Turn)
    requires NewestTurn(ls) == Some(t)
    ensures TailWindow(ls, budget) == [] <==> t.tokens > budget
    ensures TailWindow(ls, budget) != [] ==> Last(TailWindow(ls, budget)) == t
  {
    NewestFirst(ls, {}, t);
    var kept := Fitting(Newest(ls, {}), budget);
    ReversedLength(kept);
    if kept != [] { ReversedAt(kept, |kept| - 1); }
  }

  lemma LastOfSuffix(window: seq<Turn>, k: nat)
    requires k < |window|
    ensures window[k..] != [] && Last(window[k..]) == Last(window)
  {
  }

  lemma {:induction false} AllDamaged(window: seq<Turn>, k: nat)
    requires k < DamagedLead(window)
    ensures Damaged(window[k].messages)
  {
    if k > 0 { AllDamaged(window[1..], k - 1); }
  }

  /** The damaged lead ends at or before a clean turn. */
  lemma LeadStops(window: seq<Turn>, lead: nat, k: nat, clean: Turn)
    requires k < |window| && lead == DamagedLead(window) && clean == window[k] && !Damaged(clean.messages)
    ensures lead <= k
  {
    if lead > k {
      AllDamaged(window, k);
      assert false;
    }
  }

  /** The next id a rebuild hands out: one past the newest record, unless that does not fit the
      window and a later pin pushes it up. */
  lemma RebuiltNext(ls: seq<Line>, pins: seq<Turn>, budget: nat, t: Turn)
    requires NewestTurn(ls) == Some(t) && !Damaged(t.messages)
    ensures Rebuilt(ls, pins, budget).nextId
            == if t.tokens > budget && pins != [] && Last(pins).id > t.id then Last(pins).id + 1 else t.id + 1
  {
    var window := TailWindow(ls, budget);
    WindowEnds(ls, budget, t);
    if window == [] {
      assert pins + [] == pins;
    } else {
      LeadStops(window, DamagedLead(window), |window| - 1, t);
      LastOfSuffix(window, DamagedLead(window));
      assert Last(pins + window[DamagedLead(window)..]) == t;
    }
  }

  /** No recorded turn has this id or a later one. */
  ghost predicate Unused(n: nat, ls: seq<Line>) {
    forall id: nat {:trigger Latest(ls, id)} :: Latest(ls, id).Some? ==> id < n
  }

  /** Rebuilding after a repair of an ordered log hands out an unused id if and only if no repair
      landed, or the last that did is at least as new as the records below it, or it alone
      overflows the window while the last pin is at least as new as they are. */
  lemma RebuildAfterRepairIff(est: Estimator, log: Log, ids: seq<nat>, days: nat -> bool, pins: seq<Turn>, budget: nat,
                              lost: nat, base: seq<Line>, rs: seq<Turn>)
    requires AscendingIds(ids) && Ordered(Flat(log))
    requires var all := Repaired(est, Collect(Flat(log), ids));
             lost == Lost(log, |all|, days, 0) && base == Base(log, |all|, days, 0) && rs == all[lost..]
    ensures var after := Flat(AppendAll(log, RepairLines(est, Collect(Flat(log), ids)), days, 0));
            Unused(Rebuilt(after, pins, budget).nextId, after)
            <==> || rs == [] || rs[|rs| - 1].id >= NewestId(base)
                 || (rs[|rs| - 1].tokens > budget && pins != [] && Last(pins).id >= NewestId(base))
  {
    RepairLeaves(est, log, ids, days, lost, base, rs);
    var after := base + RecordsOf(rs);
    if rs == [] {
      assert after == base;
      OrderedTops(base);
    } else {
      NewestOfRecords(base, rs);
      FreshIff(base, rs, after, pins, budget, rs[|rs| - 1]);
    }
  }

  lemma FreshIff(base: seq<Line>, rs: seq<Turn>, after: seq<Line>, pins: seq<Turn>, budget: nat, last: Turn)
    requires Ordered(base) && Fixes(rs) && rs != [] && last == rs[|rs| - 1]
    requires after == base + RecordsOf(rs) && NewestTurn(after) == Some(last)
    ensures Unused(Rebuilt(after, pins, budget).nextId, after)
            <==> last.id >= NewestId(base) || (last.tokens > budget && pins != [] && Last(pins).id >= NewestId(base))
  {
    RebuiltNext(after, pins, budget, last);
    BoundIff(base, rs, Rebuilt(after, pins, budget).nextId - 1);
  }

  // ---------------------------------------------------------------- the order of the window

  function IdSet(rs: seq<Turn>): set<nat> {
    set r <- rs :: r.id
  }

  /** Newest-first, the repaired turns come in descending order, then what the log below has
      beside them. */
  lemma {:induction false} NewestAfterRepair(base: seq<Line>, rs: seq<Turn>, seen: set<nat>, all: set<nat>)
    requires Ascending(rs) && (forall k :: 0 <= k < |rs| ==> rs[k].id !in seen) && all == seen + IdSet(rs)
    ensures Newest(base + RecordsOf(rs), seen) == Reversed(rs) + Newest(base, all)
    decreases |rs|
  {
    if rs == [] {
      assert base + [] == base && all == seen;
    } else {
      var front, last := rs[..|rs| - 1], rs[|rs| - 1];
      assert rs == front + [last];
      LastRecord(base, front, last, rs);
      IdsLast(front, last, rs, seen, all);
      NewestAfterRepair(base, front, seen + {last.id}, all);
      NewestStep(base + RecordsOf(front), last, seen, base + RecordsOf(rs));
      ReversedFirst(front, last, Newest(base, all), rs);
    }
  }

  lemma IdsLast(front: seq<Turn>, last: Turn, rs: seq<Turn>, seen: set<nat>, all: set<nat>)
    requires rs == front + [last] && Ascending(rs) && all == seen + IdSet(rs) && forall k :: 0 <= k < |rs| ==> rs[k].id !in seen
    ensures all == seen + {last.id} + IdSet(front) && last.id !in seen && Ascending(front)
    ensures forall k :: 0 <= k < |front| ==> front[k].id !in seen + {last.id}
  {
    assert forall k :: 0 <= k < |front| ==> rs[k] == front[k];
    assert rs[|front|] == last;
  }

  lemma LastRecord(base: seq<Line>, front: seq<Turn>, last: Turn, rs: seq<Turn>)
    requires rs == front + [last]
    ensures base + RecordsOf(rs) == base + RecordsOf(front) + [RecordOf(last)]
  {
    RecordsOfConcat(front, [last]);
    assert RecordsOf([last]) == [RecordOf(last)];
  }

  lemma ReversedFirst(front: seq<Turn>, last: Turn, rest: seq<Turn>, rs: seq<Turn>)
    requires rs == front + [last]
    ensures Reversed(rs) + rest == [last] + (Reversed(front) + rest)
  {
    ReversedSnoc(front, last);
  }

  lemma NewestStep(ls: seq<Line>, t: Turn, seen: set<nat>, all: seq<Line>)
    requires all == ls + [RecordOf(t)] && t.id !in seen
    ensures Newest(all, seen) == [t] + Newest(ls, seen + {t.id})
  {
    assert Last(all) == RecordOf(t) && Init(all) == ls;
  }

  lemma {:induction false} TokensConcat(a: seq<Turn>, b: seq<Turn>)
    ensures Tokens(a + b) == Tokens(a) + Tokens(b)
  {
    if a == [] {
      assert a + b == b;
    } else {
      assert (a + b)[1..] == a[1..] + b;
      TokensConcat(a[1..], b);
    }
  }

  lemma {:induction false} TokensReversed(ts: seq<Turn>)
    ensures Tokens(Reversed(ts)) == Tokens(ts)
  {
    if ts != [] {
      TokensReversed(ts[1..]);
      TokensConcat(Reversed(ts[1..]), [ts[0]]);
      assert [ts[0]][1..] == [];
    }
  }

  lemma {:induction false} FittingConcat(a: seq<Turn>, b: seq<Turn>, budget: nat)
    ensures Fitting(a + b, budget)
            == if Tokens(a) <= budget then a + Fitting(b, budget - Tokens(a)) else Fitting(a, budget)
  {
    if Tokens(a) <= budget {
      FittingPrefix(a, b, budget);
    } else if a[0].tokens <= budget {
      FittingConcat(a[1..], b, budget - a[0].tokens);
      FittingCons(a[0], a[1..] + b, a + b, budget);
    }
  }

  lemma {:induction false} ReversedConcat(a: seq<Turn>, b: seq<Turn>)
    ensures Reversed(a + b) == Reversed(b) + Reversed(a)
  {
    if a == [] {
      assert a + b == b;
    } else {
      assert (a + b)[1..] == a[1..] + b;
      ReversedConcat(a[1..], b);
    }
  }

  lemma {:induction false} ReversedTwice(ts: seq<Turn>)
    ensures Reversed(Reversed(ts)) == ts
  {
    if ts != [] {
      ReversedTwice(ts[1..]);
      ReversedConcat(Reversed(ts[1..]), [ts[0]]);
      assert [ts[0]][1..] == [];
    }
  }

  /** Which of the records below still fit behind the repaired ones. */
  function Below(base: seq<Line>, rs: seq<Turn>, budget: nat): seq<Turn> {
    if Tokens(rs) <= budget then Fitting(Newest(base, IdSet(rs)), budget - Tokens(rs)) else []
  }

  /** The rebuilt window: older records that fit, then the repaired turns; or the newest of the
      repaired turns alone. */
  lemma WindowAfterRepair(base: seq<Line>, rs: seq<Turn>, budget: nat)
    requires Ascending(rs)
    ensures TailWindow(base + RecordsOf(rs), budget)
            == if Tokens(rs) <= budget then Reversed(Below(base, rs, budget)) + rs
               else Reversed(Fitting(Reversed(rs), budget))
  {
    var u := Newest(base, IdSet(rs));
    assert {} + IdSet(rs) == IdSet(rs);
    NewestAfterRepair(base, rs, {}, IdSet(rs));
    FittingConcat(Reversed(rs), u, budget);
    TokensReversed(rs);
    if Tokens(rs) <= budget {
      ReversedConcat(Reversed(rs), Fitting(u, budget - Tokens(rs)));
      ReversedTwice(rs);
    }
  }

  lemma {:induction false} FittingIsPrefix(ts: seq<Turn>, budget: nat)
    ensures Fitting(ts, budget) <= ts && (Fitting(ts, budget) == [] <==> ts == [] || ts[0].tokens > budget)
  {
    if ts != [] && ts[0].tokens <= budget {
      FittingIsPrefix(ts[1..], budget - ts[0].tokens);
      assert ts == [ts[0]] + ts[1..];
    }
  }

  /** A window of older records before repaired turns ascends unless the newest of the older
      ones is newer than the first repaired turn. */
  lemma JoinAscends(older: seq<Turn>, rs: seq<Turn>)
    requires Descending(older) && Ascending(rs) && rs != []
    ensures Ascending(Reversed(older) + rs) <==> older == [] || older[0].id < rs[0].id
  {
    ReversedAscends(older);
    var window := Reversed(older) + rs;
    if older != [] {
      ReversedAt(older, |older| - 1);
      assert window[|older| - 1] == older[0] && window[|older|] == rs[0];
      forall k | 0 <= k < |older| ensures Reversed(older)[k].id <= older[0].id { ReversedAt(older, k); }
    }
  }

  lemma {:induction false} DescendingPart(rs: seq<Turn>, budget: nat)
    requires Ascending(rs)
    ensures Ascending(Reversed(Fitting(Reversed(rs), budget)))
  {
    ReversedLength(rs);
    forall i, j | 0 <= i < j < |rs| ensures Reversed(rs)[i].id > Reversed(rs)[j].id {
      ReversedAt(rs, i);
      ReversedAt(rs, j);
    }
    FittingIsPrefix(Reversed(rs), budget);
    ReversedAscends(Fitting(Reversed(rs), budget));
  }

  lemma BelowDescends(base: seq<Line>, rs: seq<Turn>, budget: nat)
    requires Ordered(base)
    ensures Descending(Below(base, rs, budget))
    ensures var u := Newest(base, IdSet(rs));
            && (Below(base, rs, budget) == [] <==> u == [] || Tokens(rs) + u[0].tokens > budget)
            && (Below(base, rs, budget) != [] ==> Below(base, rs, budget)[0] == u[0])
  {
    NewestDescends(base, IdSet(rs));
    if Tokens(rs) <= budget { FittingIsPrefix(Newest(base, IdSet(rs)), budget - Tokens(rs)); }
  }

  /** The order of the window over base lines and repaired turns. */
  lemma AscendsIff(base: seq<Line>, rs: seq<Turn>, budget: nat, u: seq<Turn>)
    requires Ordered(base) && Ascending(rs) && rs != [] && u == Newest(base, IdSet(rs))
    ensures Ascending(TailWindow(base + RecordsOf(rs), budget))
            <==> u == [] || u[0].id < rs[0].id || Tokens(rs) + u[0].tokens > budget
  {
    WindowAfterRepair(base, rs, budget);
    BelowDescends(base, rs, budget);
    if Tokens(rs) <= budget {
      JoinAscends(Below(base, rs, budget), rs);
    } else {
      DescendingPart(rs, budget);
    }
  }

  /** After a repair of an ordered log the rebuilt tail window is ascending if and only if no
      repair landed, or the newest record beside the repaired turns is older than all of them,
      or it no longer fits behind them. */
  lemma WindowAscendsIff(est: Estimator, log: Log, ids: seq<nat>, days: nat -> bool, budget: nat,
                         lost: nat, base: seq<Line>, rs: seq<Turn>, u: seq<Turn>)
    requires AscendingIds(ids) && Ordered(Flat(log)) && u == Newest(base, IdSet(rs))
    requires var all := Repaired(est, Collect(Flat(log), ids));
             lost == Lost(log, |all|, days, 0) && base == Base(log, |all|, days, 0) && rs == all[lost..]
    ensures var after := Flat(AppendAll(log, RepairLines(est, Collect(Flat(log), ids)), days, 0));
            Ascending(TailWindow(after, budget))
            <==> rs == [] || u == [] || u[0].id < rs[0].id || Tokens(rs) + u[0].tokens > budget
  {
    RepairLeaves(est, log, ids, days, lost, base, rs);
    if rs == [] {
      assert base + [] == base;
      TailWindowIsLongestRun(base, budget, 0);
    } else {
      AscendsIff(base, rs, budget, u);
    }
  }

  /** The older records kept in the window are all damaged. */
  ghost predicate AllBad(ts: seq<Turn>) {
    forall k :: 0 <= k < |ts| ==> Damaged(ts[k].messages)
  }

  /** Trimming the damaged lead of a window of older records before clean ones stops inside the
      older ones, or right after them when all of them are damaged. */
  lemma LeadOf(older: seq<Turn>, rs: seq<Turn>, window: seq<Turn>, lead: nat)
    requires window == Reversed(older) + rs && lead == DamagedLead(window) && rs != [] && !Damaged(rs[0].messages)
    ensures lead <= |older| && (lead == |older| <==> AllBad(older))
  {
    ReversedLength(older);
    LeadStops(window, lead, |older|, rs[0]);
    if lead == |older| {
      forall k | 0 <= k < |older| ensures Damaged(older[k].messages) {
        ReversedAt(older, |older| - 1 - k);
        AllDamaged(window, |older| - 1 - k);
      }
    } else {
      ReversedAt(older, lead);
      assert window[lead] == older[|older| - 1 - lead];
    }
  }

  lemma AscendingSuffix(ts: seq<Turn>, k: nat)
    requires Ascending(ts) && k <= |ts|
    ensures Ascending(ts[k..])
  {
  }

  lemma TrimmedAscendsIff(older: seq<Turn>, rs: seq<Turn>, window: seq<Turn>, lead: nat)
    requires Descending(older) && Fixes(rs) && rs != [] && window == Reversed(older) + rs && lead == DamagedLead(window)
    ensures Ascending(window[lead..]) <==> older == [] || older[0].id < rs[0].id || AllBad(older)
  {
    LeadOf(older, rs, window, lead);
    JoinAscends(older, rs);
    ReversedLength(older);
    if older == [] || older[0].id < rs[0].id {
      AscendingSuffix(window, lead);
    } else if lead == |older| {
      assert window[lead..] == rs;
    } else {
      ReversedAt(older, |older| - 1);
      var convo, k := window[lead..], |older| - 1 - lead;
      assert convo[k] == older[0] && convo[k + 1] == rs[0];
    }
  }

  /** The conversation a rebuild takes over, its damaged lead trimmed, is ascending if and only if
      the tail window is, or every older record in it is damaged and trimmed away. */
  lemma RebuiltAscendsIff(base: seq<Line>, rs: seq<Turn>, pins: seq<Turn>, budget: nat, u: seq<Turn>)
    requires Ordered(base) && Fixes(rs) && rs != [] && u == Newest(base, IdSet(rs))
    ensures Ascending(Rebuilt(base + RecordsOf(rs), pins, budget).convo)
            <==> || u == [] || u[0].id < rs[0].id || Tokens(rs) + u[0].tokens > budget
                 || AllBad(Below(base, rs, budget))
  {
    var window := TailWindow(base + RecordsOf(rs), budget);
    WindowAfterRepair(base, rs, budget);
    BelowDescends(base, rs, budget);
    if Tokens(rs) <= budget {
      TrimmedAscendsIff(Below(base, rs, budget), rs, window, DamagedLead(window));
    } else {
      DescendingPart(rs, budget);
      AscendingSuffix(window, DamagedLead(window));
    }
  }

  /** The same after a repair, for every state of the file it appends to. */
  lemma ConversationAscendsIff(est: Estimator, log: Log, ids: seq<nat>, days: nat -> bool, pins: seq<Turn>, budget: nat,
                               lost: nat, base: seq<Line>, rs: seq<Turn>, u: seq<Turn>)
    requires AscendingIds(ids) && Ordered(Flat(log)) && u == Newest(base, IdSet(rs))
    requires var all := Repaired(est, Collect(Flat(log), ids));
             lost == Lost(log, |all|, days, 0) && base == Base(log, |all|, days, 0) && rs == all[lost..]
    ensures var after := Flat(AppendAll(log, RepairLines(est, Collect(Flat(log), ids)), days, 0));
            Ascending(Rebuilt(after, pins, budget).convo)
            <==> || rs == [] || u == [] || u[0].id < rs[0].id || Tokens(rs) + u[0].tokens > budget
                 || AllBad(Below(base, rs, budget))
  {
    RepairLeaves(est, log, ids, days, lost, base, rs);
    if rs == [] {
      assert base + [] == base;
      RebuildIsFresh(base, pins, budget, 0);
    } else {
      RebuiltAscendsIff(base, rs, pins, budget, u);
    }
  }

  // ---------------------------------------------------------------- the smallest instance

  /** A log of two turns, after a repair of both. */
  function Patched(est: Estimator, t1: Turn, t2: Turn): seq<Line> {
    [RecordOf(t1), RecordOf(t2)] + RepairLines(est, Collect([RecordOf(t1), RecordOf(t2)], [t1.id, t2.id]))
  }

  /** An older damaged turn and a newer clean one, such as a call without a result and a plain
      message. */
  ghost predicate OlderDamaged(t1: Turn, t2: Turn) {
    t1.id < t2.id && Damaged(t1.messages) && !Damaged(t2.messages)
  }

  lemma SuchTurns()
    ensures OlderDamaged(Turn(1, [Calls("", [CallRef("c", "bash_exec")])], 1), Turn(2, [Plain("user", "hi")], 1))
  {
    DamageOf();
  }

  lemma PatchedIs(est: Estimator, t1: Turn, t2: Turn, ls: seq<Line>, fixed: Turn)
    requires OlderDamaged(t1, t2) && ls == [RecordOf(t1), RecordOf(t2)] && fixed == RepairTurn(est, t1)
    ensures Patched(est, t1, t2) == ls + RecordsOf([fixed])
  {
    BothLatest(ls, t1, t2);
    TwoCollected(ls, t1, t2);
    TwoLines(est, t1, t2);
    OneRecord(fixed);
  }

  lemma OneRecord(t: Turn)
    ensures RecordsOf([t]) == [RecordOf(t)] && Tokens([t]) == t.tokens && Reversed([t]) == [t] && IdSet([t]) == {t.id}
    ensures TurnOf(RecordOf(t)) == Some(t)
  {
    assert [t][1..] == [];
  }

  lemma BothLatest(ls: seq<Line>, t1: Turn, t2: Turn)
    requires ls == [RecordOf(t1), RecordOf(t2)] && t1.id < t2.id
    ensures Latest(ls, t1.id) == Some(t1) && Latest(ls, t2.id) == Some(t2)
  {
    OneRecord(t1);
    OneRecord(t2);
    assert Init(ls) == [RecordOf(t1)] && Last(ls) == RecordOf(t2);
    assert Last(Init(ls)) == RecordOf(t1);
  }

  /** Every rebuild without pins hands out an id that is not above the newer turn's. */
  lemma RepairReusesTurnId(est: Estimator, t1: Turn, t2: Turn, budget: nat)
    requires OlderDamaged(t1, t2)
    ensures Latest(Patched(est, t1, t2), t2.id).Some? && Rebuilt(Patched(est, t1, t2), [], budget).nextId == t1.id + 1 <= t2.id
  {
    var ls, fixed := [RecordOf(t1), RecordOf(t2)], RepairTurn(est, t1);
    PatchedIs(est, t1, t2, ls, fixed);
    BothLatest(ls, t1, t2);
    LatestConcat(ls, RecordsOf([fixed]), t2.id);
    NewestOfRecords(ls, [fixed]);
    RepairedTurn(est, t1);
    RebuiltNext(ls + RecordsOf([fixed]), [], budget, fixed);
  }

  /** A rebuild with room for both turns puts the newer one first. */
  lemma RepairDisordersWindow(est: Estimator, t1: Turn, t2: Turn, budget: nat)
    requires OlderDamaged(t1, t2) && RepairTurn(est, t1).tokens + t2.tokens <= budget
    ensures Rebuilt(Patched(est, t1, t2), [], budget).convo == [t2, RepairTurn(est, t1)]
    ensures !Ascending(Rebuilt(Patched(est, t1, t2), [], budget).convo)
  {
    var ls, fixed := [RecordOf(t1), RecordOf(t2)], RepairTurn(est, t1);
    PatchedIs(est, t1, t2, ls, fixed);
    RepairedTurn(est, t1);
    DisorderedWindow(ls, t1, t2, fixed, budget);
    NoLead([t2, fixed]);
  }

  lemma DisorderedWindow(ls: seq<Line>, t1: Turn, t2: Turn, fixed: Turn, budget: nat)
    requires ls == [RecordOf(t1), RecordOf(t2)] && t1.id == fixed.id < t2.id && fixed.tokens + t2.tokens <= budget
    ensures TailWindow(ls + RecordsOf([fixed]), budget) == [t2, fixed]
  {
    OneRecord(fixed);
    OnlySecond(ls, t1, t2);
    FittingOne(t2, budget - fixed.tokens);
    WindowAfterRepair(ls, [fixed], budget);
  }

  lemma NoLead(window: seq<Turn>)
    requires window != [] && !Damaged(window[0].messages)
    ensures DamagedLead(window) == 0 && window[0..] == window
  {
  }

  lemma FittingOne(t: Turn, budget: nat)
    requires t.tokens <= budget
    ensures Fitting([t], budget) == [t] && Reversed([t]) == [t]
  {
    assert [t][1..] == [];
  }

  lemma OnlySecond(ls: seq<Line>, t1: Turn, t2: Turn)
    requires ls == [RecordOf(t1), RecordOf(t2)] && t1.id < t2.id
    ensures Newest(ls, {t1.id}) == [t2]
  {
    OneRecord(t1);
    OneRecord(t2);
    assert Init(ls) == [RecordOf(t1)] && Last(ls) == RecordOf(t2);
    assert Init(Init(ls)) == [] && Last(Init(ls)) == RecordOf(t1);
    assert Newest(Init(ls), {t1.id} + {t2.id}) == [];
  }

  lemma TwoCollected(ls: seq<Line>, t1: Turn, t2: Turn)
    requires Latest(ls, t1.id) == Some(t1) && Latest(ls, t2.id) == Some(t2)
    ensures Collect(ls, [t1.id, t2.id]) == [t1, t2]
  {
    assert [t1.id, t2.id][1..] == [t2.id] && [t2.id][1..] == [];
    assert Collect(ls, [t2.id]) == [t2];
  }

  lemma TwoLines(est: Estimator, t1: Turn, t2: Turn)
    requires Damaged(t1.messages) && !Damaged(t2.messages)
    ensures RepairLines(est, [t1, t2]) == [RecordOf(RepairTurn(est, t1))]
  {
    assert [t1, t2][1..] == [t2] && [t2][1..] == [];
    assert RepairLines(est, [t2]) == [];
  }

  lemma DamageOf()
    ensures Damaged([Calls("", [CallRef("c", "bash_exec")])])
    ensures !Damaged([Plain("user", "hi")])
  {
    var bad := [Calls("", [CallRef("c", "bash_exec")])];
    assert bad[1..] == [];
    assert Declared(bad) == [CallRef("c", "bash_exec")];
    assert Answers(bad) == [];
    assert CallRef("c", "bash_exec") in Unanswered(bad);
    var good := [Plain("user", "hi")];
    assert good[1..] == [];
    assert Declared(good) == [] && Answers(good) == [];
  }
}
