/**
 The append-only history log: per-day files of lines, scanned newest-first by three
 readers. Each reader is a pair of nested reverse loops with an early exit, proved against
 a definition over the whole log read oldest-first.
 */
module History {
  import opened Options
  import opened Pairing

  datatype RecordKind = TurnRecord | SystemRecord

  datatype Line =
    | Blank
    | Corrupt
    | Rec(kind: RecordKind, turnId: Option<nat>, messages: seq<Message>, tokens: nat)

  datatype Turn = Turn(id: nat, messages: seq<Message>, tokens: nat)

  /** One day's file, in chronological order of the days. `terminated` tells whether its
      last line ends in a newline. */
  datatype DayFile = Unreadable | Lines(lines: seq<Line>, terminated: bool)

  type Log = seq<DayFile>

  function LinesOf(f: DayFile): seq<Line> {
    if f.Lines? then f.lines else []
  }

  /** Every readable line, oldest first. */
  function Flat(log: Log): seq<Line> {
    if log == [] then [] else Flat(log[..|log| - 1]) + LinesOf(log[|log| - 1])
  }

  /** The turn a line records, if it records one. */
  function TurnOf(l: Line): Option<Turn> {
    if l.Rec? && l.kind == TurnRecord && l.turnId.Some?
    then Some(Turn(l.turnId.value, l.messages, l.tokens))
    else None
  }

  function Init<T>(s: seq<T>): seq<T>
    requires s != []
  {
    s[..|s| - 1]
  }

  function Last<T>(s: seq<T>): T
    requires s != []
  {
    s[|s| - 1]
  }

  function AllButLast<T>(s: seq<T>): seq<T> {
    if s == [] then [] else Init(s)
  }

  // ---------------------------------------------------------------- latest record per id

  /** The newest turn recorded under `id`. */
  function Latest(ls: seq<Line>, id: nat): Option<Turn>
    decreases |ls|
  {
    if ls == [] then None
    else if TurnOf(Last(ls)).Some? && TurnOf(Last(ls)).value.id == id then TurnOf(Last(ls))
    else Latest(Init(ls), id)
  }

  lemma {:induction false} LatestConcat(a: seq<Line>, b: seq<Line>, id: nat)
    ensures Latest(a + b, id) == if Latest(b, id).Some? then Latest(b, id) else Latest(a, id)
    decreases |b|
  {
    if b == [] {
      assert a + b == a;
    } else {
      assert Init(a + b) == a + Init(b);
      LatestConcat(a, Init(b), id);
    }
  }

  lemma LatestCons(l: Line, b: seq<Line>, id: nat)
    ensures Latest([l] + b, id) ==
            if Latest(b, id).Some? then Latest(b, id)
            else if TurnOf(l).Some? && TurnOf(l).value.id == id then TurnOf(l) else None
  {
    LatestConcat([l], b, id);
    assert Init([l]) == [];
  }

  lemma {:induction false} LatestHasId(ls: seq<Line>, id: nat)
    ensures Latest(ls, id).Some? ==> Latest(ls, id).value.id == id
    decreases |ls|
  {
    if ls != [] { LatestHasId(Init(ls), id); }
  }

  // ---------------------------------------------------------------- ascending sequences

  ghost predicate AscendingIds(ids: seq<nat>) {
    forall i, j :: 0 <= i < j < |ids| ==> ids[i] < ids[j]
  }

  ghost predicate Ascending(ts: seq<Turn>) {
    forall i, j :: 0 <= i < j < |ts| ==> ts[i].id < ts[j].id
  }

  /** The members of a finite set, ascending. */
  function SortedIds(s: set<nat>): (r: seq<nat>)
    ensures AscendingIds(r)
    ensures forall x :: x in r <==> x in s
    decreases s
  {
    if s == {} then []
    else
      LeastExists(s);
      var m :| IsLeast(s, m);
      var rest := SortedIds(s - {m});
      LeastFirst(s, m, rest);
      [m] + rest
  }

  lemma LeastFirst(s: set<nat>, m: nat, rest: seq<nat>)
    requires IsLeast(s, m) && AscendingIds(rest) && forall x :: x in rest <==> x in s - {m}
    ensures AscendingIds([m] + rest) && forall x :: x in [m] + rest <==> x in s
  {
    forall i | 0 <= i < |rest| ensures m < rest[i] { assert rest[i] in rest; }
  }

  predicate IsLeast(s: set<nat>, m: nat) {
    m in s && forall y :: y in s ==> m <= y
  }

  lemma {:induction false} LeastExists(s: set<nat>)
    requires s != {}
    ensures exists m :: IsLeast(s, m)
    decreases s
  {
    var x :| x in s;
    var rest := s - {x};
    assert s == rest + {x};
    if rest == {} {
      assert IsLeast(s, x);
    } else {
      LeastExists(rest);
      var m :| IsLeast(rest, m);
      assert IsLeast(s, if m <= x then m else x);
    }
  }

  function InsertById(t: Turn, ts: seq<Turn>): seq<Turn> {
    if ts == [] || t.id <= ts[0].id then [t] + ts else [ts[0]] + InsertById(t, ts[1..])
  }

  /** `sort_by_key(id)`. */
  function SortById(ts: seq<Turn>): seq<Turn> {
    if ts == [] then [] else InsertById(ts[0], SortById(ts[1..]))
  }

  ghost predicate DistinctIds(ts: seq<Turn>) {
    forall i, j :: 0 <= i < j < |ts| ==> ts[i].id != ts[j].id
  }

  lemma {:induction false} InsertAscends(t: Turn, ts: seq<Turn>)
    requires Ascending(ts) && forall u :: u in ts ==> u.id != t.id
    ensures Ascending(InsertById(t, ts))
    ensures forall u :: u in InsertById(t, ts) <==> u == t || u in ts
  {
    if ts != [] && t.id > ts[0].id {
      assert ts == [ts[0]] + ts[1..];
      InsertAscends(t, ts[1..]);
      var rest := InsertById(t, ts[1..]);
      forall k | 0 <= k < |rest| ensures ts[0].id < rest[k].id {
        assert rest[k] in rest;
      }
    }
  }

  lemma {:induction false} SortAscends(ts: seq<Turn>)
    requires DistinctIds(ts)
    ensures Ascending(SortById(ts))
    ensures forall u :: u in SortById(ts) <==> u in ts
  {
    if ts != [] {
      SortAscends(ts[1..]);
      InsertAscends(ts[0], SortById(ts[1..]));
    }
  }

  lemma {:induction false} AscendingUnique(a: seq<Turn>, b: seq<Turn>)
    requires Ascending(a) && Ascending(b)
    requires forall t :: t in a <==> t in b
    ensures a == b
    decreases |a|
  {
    assert b != [] ==> b[0] in b;
    if a != [] {
      assert a[0] in b && b != [] && b[0] in a;
      assert a[0] == b[0];
      forall t | t in a[1..] ensures t in b[1..] { assert t in a && t != a[0]; }
      forall t | t in b[1..] ensures t in a[1..] { assert t in b && t != b[0]; }
      AscendingUnique(a[1..], b[1..]);
    }
  }

  // ---------------------------------------------------------------- hydration

  /** The simple specification: for each id in order, its latest record if there is one. */
  function Collect(ls: seq<Line>, ids: seq<nat>): seq<Turn> {
    if ids == [] then []
    else
      (if Latest(ls, ids[0]).Some? then [Latest(ls, ids[0]).value] else []) + Collect(ls, ids[1..])
  }

  function Missing(ls: seq<Line>, ids: seq<nat>): seq<nat> {
    if ids == [] then [] else (if Latest(ls, ids[0]).None? then [ids[0]] else []) + Missing(ls, ids[1..])
  }

  lemma {:induction false} CollectMembers(ls: seq<Line>, ids: seq<nat>)
    requires AscendingIds(ids)
    ensures Ascending(Collect(ls, ids))
    ensures forall t :: t in Collect(ls, ids) <==> t.id in ids && Latest(ls, t.id) == Some(t)
  {
    if ids != [] {
      CollectMembers(ls, ids[1..]);
      LatestHasId(ls, ids[0]);
      CollectCons(ls, ids, ids[0], ids[1..], Collect(ls, ids[1..]), Latest(ls, ids[0]));
    }
  }

  lemma CollectCons(ls: seq<Line>, ids: seq<nat>, id: nat, later: seq<nat>, rest: seq<Turn>, t: Option<Turn>)
    requires ids == [id] + later && AscendingIds(ids) && t == Latest(ls, id) && (t.Some? ==> t.value.id == id)
    requires Ascending(rest) && forall u :: u in rest <==> u.id in later && Latest(ls, u.id) == Some(u)
    ensures var all := (if t.Some? then [t.value] else []) + rest;
            Ascending(all) && forall u :: u in all <==> u.id in ids && Latest(ls, u.id) == Some(u)
  {
    forall k | 0 <= k < |rest| ensures id < rest[k].id {
      assert rest[k] in rest;
      var n :| 0 <= n < |later| && later[n] == rest[k].id;
      assert ids[n + 1] == later[n] && ids[0] == id;
    }
  }

  lemma {:induction false} MissingMembers(ls: seq<Line>, ids: seq<nat>)
    requires AscendingIds(ids)
    ensures AscendingIds(Missing(ls, ids))
    ensures forall id :: id in Missing(ls, ids) <==> id in ids && Latest(ls, id).None?
  {
    if ids != [] {
      var rest := Missing(ls, ids[1..]);
      MissingMembers(ls, ids[1..]);
      forall id ensures id in Missing(ls, ids) <==> id in ids && Latest(ls, id).None? {
        assert id in ids <==> id == ids[0] || id in ids[1..];
        assert id in Missing(ls, ids) <==> (id == ids[0] && Latest(ls, id).None?) || id in rest;
      }
      if Latest(ls, ids[0]).None? {
        assert Missing(ls, ids) == [ids[0]] + rest;
        forall k | 0 <= k < |rest| ensures ids[0] < rest[k] { assert rest[k] in rest; }
      }
    }
  }

  function ToSet(ids: seq<nat>): set<nat> {
    set id | id in ids
  }

  function CountCorrupt(ls: seq<Line>): nat {
    if ls == [] then 0 else (if ls[0].Corrupt? then 1 else 0) + CountCorrupt(ls[1..])
  }

  /** Blank lines and records of either kind are not counted. */
  lemma CountCorruptLast(ls: seq<Line>, l: Line)
    ensures CountCorrupt(ls + [l]) == CountCorrupt(ls) + if l.Blank? || l.Rec? then 0 else 1
  {
    CountCorruptConcat(ls, [l]);
    assert [l][1..] == [];
  }

  /** Only a turn record with an id counts as a turn: any other line leaves every turn, the newest
      one included, as it was. */
  lemma OthersAreNoTurns(ls: seq<Line>, l: Line, id: nat)
    requires l.Rec? ==> l.kind == SystemRecord || l.turnId == None
    ensures Latest(ls + [l], id) == Latest(ls, id) && NewestTurn(ls + [l]) == NewestTurn(ls)
  {
    assert Init(ls + [l]) == ls;
  }

  /** And a turn record is the latest of its id, and the newest. */
  lemma RecordsAreTurns(ls: seq<Line>, t: Turn, id: nat)
    ensures var all := ls + [Rec(TurnRecord, Some(t.id), t.messages, t.tokens)];
            Latest(all, id) == (if id == t.id then Some(t) else Latest(ls, id)) && NewestTurn(all) == Some(t)
  {
    assert Init(ls + [Rec(TurnRecord, Some(t.id), t.messages, t.tokens)]) == ls;
  }

  lemma {:induction false} CountCorruptConcat(a: seq<Line>, b: seq<Line>)
    ensures CountCorrupt(a + b) == CountCorrupt(a) + CountCorrupt(b)
  {
    if a == [] {
      assert a + b == b;
    } else {
      assert (a + b)[1..] == a[1..] + b;
      CountCorruptConcat(a[1..], b);
    }
  }

  /** The ids recorded anywhere in these lines. */
  function SeenIds(ls: seq<Line>): set<nat> {
    if ls == [] then {}
    else SeenIds(ls[1..]) + (if TurnOf(ls[0]).Some? then {TurnOf(ls[0]).value.id} else {})
  }

  /** The turns a newest-first scan for `ids` has collected after reading these lines. */
  function Found(ls: seq<Line>, ids: set<nat>): seq<Turn> {
    if ls == [] then []
    else
      var t := TurnOf(ls[0]);
      Found(ls[1..], ids) +
      (if t.Some? && t.value.id in ids && t.value.id !in SeenIds(ls[1..]) then [t.value] else [])
  }

  lemma {:induction false} SeenIsLatest(ls: seq<Line>, id: nat)
    ensures id in SeenIds(ls) <==> Latest(ls, id).Some?
  {
    if ls != [] {
      assert ls == [ls[0]] + ls[1..];
      LatestCons(ls[0], ls[1..], id);
      SeenIsLatest(ls[1..], id);
    }
  }

  lemma {:induction false} FoundIsLatest(ls: seq<Line>, ids: set<nat>, u: Turn)
    ensures u in Found(ls, ids) <==> u.id in ids && Latest(ls, u.id) == Some(u)
  {
    if ls != [] {
      assert ls == [ls[0]] + ls[1..];
      LatestCons(ls[0], ls[1..], u.id);
      LatestHasId(ls[1..], u.id);
      SeenIsLatest(ls[1..], u.id);
      FoundIsLatest(ls[1..], ids, u);
    }
  }

  lemma {:induction false} FoundDistinct(ls: seq<Line>, ids: set<nat>)
    ensures DistinctIds(Found(ls, ids))
  {
    if ls != [] {
      FoundDistinct(ls[1..], ids);
      var rest := Found(ls[1..], ids);
      forall k | 0 <= k < |rest| ensures rest[k].id in SeenIds(ls[1..]) {
        FoundIsLatest(ls[1..], ids, rest[k]);
        SeenIsLatest(ls[1..], rest[k].id);
      }
    }
  }

  /** The part the scan did not read holds nothing it still wanted. */
  lemma RestIsIrrelevant(pre: seq<Line>, suf: seq<Line>, ids: set<nat>, id: nat)
    requires id in ids && (pre == [] || ids <= SeenIds(suf))
    ensures Latest(pre + suf, id) == Latest(suf, id)
  {
    LatestConcat(pre, suf, id);
    SeenIsLatest(suf, id);
  }

  lemma ScanTurns(pre: seq<Line>, suf: seq<Line>, ids: set<nat>)
    requires pre == [] || ids <= SeenIds(suf)
    ensures SortById(Found(suf, ids)) == Collect(pre + suf, SortedIds(ids))
  {
    var all, want := pre + suf, SortedIds(ids);
    CollectMembers(all, want);
    FoundDistinct(suf, ids);
    SortAscends(Found(suf, ids));
    forall u ensures u in SortById(Found(suf, ids)) <==> u in Collect(all, want) {
      FoundIsLatest(suf, ids, u);
      if u.id in ids { RestIsIrrelevant(pre, suf, ids, u.id); }
    }
    AscendingUnique(SortById(Found(suf, ids)), Collect(all, want));
  }

  lemma ScanMissing(pre: seq<Line>, suf: seq<Line>, ids: set<nat>)
    requires pre == [] || ids <= SeenIds(suf)
    ensures SortedIds(ids - SeenIds(suf)) == Missing(pre + suf, SortedIds(ids))
  {
    var all, want := pre + suf, SortedIds(ids);
    MissingMembers(all, want);
    forall id ensures id in SortedIds(ids - SeenIds(suf)) <==> id in Missing(all, want) {
      SeenIsLatest(suf, id);
      if id in ids { RestIsIrrelevant(pre, suf, ids, id); }
    }
    AscendingIdsUnique(SortedIds(ids - SeenIds(suf)), Missing(all, want));
  }

  lemma {:induction false} AscendingIdsUnique(a: seq<nat>, b: seq<nat>)
    requires AscendingIds(a) && AscendingIds(b)
    requires forall x :: x in a <==> x in b
    ensures a == b
    decreases |a|
  {
    assert b != [] ==> b[0] in b;
    if a != [] {
      assert a[0] in b && b != [] && b[0] in a;
      assert a[0] == b[0];
      forall t | t in a[1..] ensures t in b[1..] { assert t in a && t != a[0]; }
      forall t | t in b[1..] ensures t in a[1..] { assert t in b && t != b[0]; }
      AscendingIdsUnique(a[1..], b[1..]);
    }
  }

  lemma {:induction false} FlatFront(log: Log, i: nat)
    requires i < |log|
    ensures Flat(log[..i + 1]) == Flat(log[..i]) + LinesOf(log[i])
  {
    assert log[..i + 1][..i] == log[..i];
  }

  /** The scan's state after reading `suf`, newest line first. */
  ghost predicate Scanning(suf: seq<Line>, ids: set<nat>, wanted: set<nat>, turns: seq<Turn>, bad: nat) {
    wanted == ids - SeenIds(suf) && turns == Found(suf, ids) && bad == CountCorrupt(suf)
  }

  /** These lines, but not the ones behind the first, record every id. */
  predicate JustCovers(ls: seq<Line>, ids: set<nat>) {
    ls != [] && ids <= SeenIds(ls) && !(ids <= SeenIds(ls[1..]))
  }

  lemma CoversNow(l: Line, suf: seq<Line>, ids: set<nat>, id: nat)
    requires TurnOf(l).Some? && TurnOf(l).value.id == id && id in ids - SeenIds(suf) && ids - SeenIds(suf) - {id} == {}
    ensures JustCovers([l] + suf, ids)
  {
    assert ([l] + suf)[1..] == suf;
  }

  /** One more line: what the loop body does. */
  lemma ScanLine(l: Line, suf: seq<Line>, ids: set<nat>, wanted: set<nat>, turns: seq<Turn>, bad: nat)
    requires Scanning(suf, ids, wanted, turns, bad)
    ensures var t := TurnOf(l);
            var bad' := if l.Corrupt? then bad + 1 else bad;
            if t.Some? && t.value.id in wanted
            then Scanning([l] + suf, ids, wanted - {t.value.id}, turns + [t.value], bad')
            else Scanning([l] + suf, ids, wanted, turns, bad')
  {
    assert ([l] + suf)[1..] == suf;
  }

  /** One readable file, lines newest-first; stops as soon as nothing is wanted. `cut` is
      the number of lines left unread. */
  method HydrateFile(lines: seq<Line>, ghost suf0: seq<Line>, ghost ids: set<nat>,
                     wanted0: set<nat>, turns0: seq<Turn>, bad0: nat)
    returns (wanted: set<nat>, turns: seq<Turn>, bad: nat, done: bool, ghost cut: nat)
    requires Scanning(suf0, ids, wanted0, turns0, bad0)
    ensures cut <= |lines| && Scanning(lines[cut..] + suf0, ids, wanted, turns, bad)
    ensures if done then wanted == {} && JustCovers(lines[cut..] + suf0, ids) else cut == 0
  {
    wanted, turns, bad, done := wanted0, turns0, bad0, false;
    var j := |lines|;
    assert lines[j..] + suf0 == suf0;
    while j > 0
      invariant 0 <= j <= |lines|
      invariant Scanning(lines[j..] + suf0, ids, wanted, turns, bad)
    {
      ghost var suf := lines[j..] + suf0;
      j := j - 1;
      var line := lines[j];
      ScanLine(line, suf, ids, wanted, turns, bad);
      assert lines[j..] + suf0 == [line] + suf;
      bad := if line.Corrupt? then bad + 1 else bad;
      var t := TurnOf(line);
      if t.Some? && t.value.id in wanted {
        wanted := wanted - {t.value.id};
        turns := turns + [t.value];
        if wanted == {} {
          CoversNow(line, suf, ids, t.value.id);
          return wanted, turns, bad, true, j;
        }
      }
    }
    cut := 0;
  }

  /** Hydrated turns and missing ids are exactly the simple specification over the whole
      log, whatever corrupt, blank or system lines it holds and wherever the scan stopped. It
      stops at the first line, newest first, by which every id has been seen, and never without
      ids; corrupt lines are counted from there on. */
  method HydrateTurns(log: Log, ids: seq<nat>) returns (turns: seq<Turn>, badLines: nat, missing: seq<nat>, ghost read: nat)
    ensures turns == Collect(Flat(log), SortedIds(ToSet(ids)))
    ensures missing == Missing(Flat(log), SortedIds(ToSet(ids)))
    ensures read <= |Flat(log)| && badLines == CountCorrupt(Flat(log)[read..])
    ensures read > 0 ==> JustCovers(Flat(log)[read..], ToSet(ids))
    ensures badLines <= CountCorrupt(Flat(log))
    ensures missing != [] || ids == [] ==> badLines == CountCorrupt(Flat(log))
  {
    var wanted := ToSet(ids);
    var found: seq<Turn> := [];
    var i := |log|;
    var done := false;
    badLines := 0;
    ghost var pre, suf: seq<Line> := Flat(log), [];
    assert log[..i] == log && pre + suf == Flat(log);
    while i > 0 && !done
      invariant 0 <= i <= |log|
      invariant pre + suf == Flat(log) && (!done ==> pre == Flat(log[..i]))
      invariant Scanning(suf, ToSet(ids), wanted, found, badLines)
      invariant done ==> wanted == {} && JustCovers(suf, ToSet(ids))
    {
      i := i - 1;
      ghost var cut := 0;
      var file := LinesOf(log[i]);
      if log[i].Lines? {
        wanted, found, badLines, done, cut := HydrateFile(file, suf, ToSet(ids), wanted, found, badLines);
      } else {
        assert file[0..] + suf == suf;
      }
      ReadFile(log, i, file, cut, suf);
      pre, suf := Flat(log[..i]) + file[..cut], file[cut..] + suf;
    }
    FinishScan(log, ids, pre, suf, wanted, found, badLines);
    read := |pre|;
    assert Flat(log)[read..] == suf;
    turns := SortById(found);
    missing := SortedIds(wanted);
  }

  lemma ReadFile(log: Log, i: nat, file: seq<Line>, cut: nat, suf: seq<Line>)
    requires i < |log| && file == LinesOf(log[i]) && cut <= |file|
    ensures (Flat(log[..i]) + file[..cut]) + (file[cut..] + suf) == Flat(log[..i + 1]) + suf
    ensures cut == 0 ==> Flat(log[..i]) + file[..cut] == Flat(log[..i])
  {
    FlatFront(log, i);
    RejoinCut(Flat(log[..i]), file, cut, suf);
  }

  lemma RejoinCut(front: seq<Line>, lines: seq<Line>, cut: nat, suf: seq<Line>)
    requires cut <= |lines|
    ensures (front + lines[..cut]) + (lines[cut..] + suf) == front + lines + suf
    ensures cut == 0 ==> front + lines[..cut] == front
  {
    assert lines == lines[..cut] + lines[cut..];
  }

  lemma FinishScan(log: Log, ids: seq<nat>, pre: seq<Line>, suf: seq<Line>,
                   wanted: set<nat>, found: seq<Turn>, bad: nat)
    requires pre + suf == Flat(log) && Scanning(suf, ToSet(ids), wanted, found, bad)
    requires pre == [] || (wanted == {} && ToSet(ids) != {})
    ensures SortById(found) == Collect(Flat(log), SortedIds(ToSet(ids)))
    ensures SortedIds(wanted) == Missing(Flat(log), SortedIds(ToSet(ids)))
    ensures bad <= CountCorrupt(Flat(log))
    ensures SortedIds(wanted) != [] || ids == [] ==> bad == CountCorrupt(Flat(log))
  {
    if pre != [] {
      assert ToSet(ids) <= SeenIds(suf);
      assert ids != [];
    } else {
      assert suf == Flat(log);
    }
    ScanTurns(pre, suf, ToSet(ids));
    ScanMissing(pre, suf, ToSet(ids));
    CountCorruptConcat(pre, suf);
  }

  /** Hydrated ids and missing ids partition the wanted ids. */
  lemma HydrationPartitions(ls: seq<Line>, ids: seq<nat>, id: nat)
    requires id in ids
    ensures var want := SortedIds(ToSet(ids));
            && (id in Missing(ls, want) <==> !exists t :: t in Collect(ls, want) && t.id == id)
            && (id !in Missing(ls, want) ==> Latest(ls, id).Some? && Latest(ls, id).value in Collect(ls, want))
  {
    CollectMembers(ls, SortedIds(ToSet(ids)));
    MissingMembers(ls, SortedIds(ToSet(ids)));
    LatestHasId(ls, id);
  }

  // ---------------------------------------------------------------- newest id

  function NewestTurn(ls: seq<Line>): Option<Turn>
    decreases |ls|
  {
    if ls == [] then None
    else if TurnOf(Last(ls)).Some? then TurnOf(Last(ls))
    else NewestTurn(Init(ls))
  }

  /** The id of the newest turn record, 0 without one. */
  function NewestId(ls: seq<Line>): nat {
    if NewestTurn(ls).Some? then NewestTurn(ls).value.id else 0
  }

  lemma {:induction false} NewestTurnConcat(a: seq<Line>, b: seq<Line>)
    ensures NewestTurn(a + b) == if NewestTurn(b).Some? then NewestTurn(b) else NewestTurn(a)
    decreases |b|
  {
    if b == [] {
      assert a + b == a;
    } else {
      assert Init(a + b) == a + Init(b);
      NewestTurnConcat(a, Init(b));
    }
  }

  method NewestInFile(lines: seq<Line>) returns (t: Option<Turn>)
    ensures t == NewestTurn(lines)
  {
    var j := |lines|;
    assert lines[..j] == lines;
    while j > 0
      invariant 0 <= j <= |lines| && NewestTurn(lines[..j]) == NewestTurn(lines)
    {
      j := j - 1;
      assert Init(lines[..j + 1]) == lines[..j];
      t := TurnOf(lines[j]);
      if t.Some? {
        return;
      }
    }
    return None;
  }

  method MaxTurnId(log: Log) returns (id: nat)
    ensures id == NewestId(Flat(log))
  {
    var i := |log|;
    assert log[..i] == log;
    while i > 0
      invariant 0 <= i <= |log|
      invariant NewestTurn(Flat(log[..i])) == NewestTurn(Flat(log))
    {
      i := i - 1;
      FlatFront(log, i);
      NewestTurnConcat(Flat(log[..i]), LinesOf(log[i]));
      if log[i].Lines? {
        var t := NewestInFile(log[i].lines);
        if t.Some? {
          return t.value.id;
        }
      }
    }
    return 0;
  }

  // ---------------------------------------------------------------- tail window

  /** Turns newest-first, each id once, skipping the ids in `seen`. */
  function Newest(ls: seq<Line>, seen: set<nat>): seq<Turn>
    decreases |ls|
  {
    if ls == [] then []
    else
      var t := TurnOf(Last(ls));
      if t.Some? && t.value.id !in seen
      then [t.value] + Newest(Init(ls), seen + {t.value.id})
      else Newest(Init(ls), seen)
  }

  function Tokens(ts: seq<Turn>): nat {
    if ts == [] then 0 else ts[0].tokens + Tokens(ts[1..])
  }

  /** The leading turns that fit, stopping at the first that would cross the budget. */
  function Fitting(ts: seq<Turn>, budget: nat): seq<Turn> {
    if ts == [] || ts[0].tokens > budget then [] else [ts[0]] + Fitting(ts[1..], budget - ts[0].tokens)
  }

  /** `Fitting` is the longest prefix within the budget: a prefix fits if and only if it is
      no longer. */
  lemma {:induction false} FittingIsLongest(ts: seq<Turn>, budget: nat, k: nat)
    requires k <= |ts|
    ensures Fitting(ts, budget) <= ts
    ensures Tokens(ts[..k]) <= budget <==> k <= |Fitting(ts, budget)|
  {
    if ts != [] {
      if k > 0 {
        assert ts[..k][1..] == ts[1..][..k - 1];
      }
      if ts[0].tokens <= budget {
        FittingIsLongest(ts[1..], budget - ts[0].tokens, if k > 0 then k - 1 else 0);
        assert ts == [ts[0]] + ts[1..];
      }
    }
  }

  function Reversed(ts: seq<Turn>): seq<Turn> {
    if ts == [] then [] else Reversed(ts[1..]) + [ts[0]]
  }

  lemma {:induction false} ReversedAt(ts: seq<Turn>, k: nat)
    requires k < |ts|
    ensures |Reversed(ts)| == |ts| && Reversed(ts)[k] == ts[|ts| - 1 - k]
  {
    if |ts| > 1 { ReversedAt(ts[1..], if k < |ts| - 1 then k else 0); }
  }

  lemma {:induction false} ReversedSnoc(ts: seq<Turn>, t: Turn)
    ensures Reversed(ts + [t]) == [t] + Reversed(ts)
  {
    if ts == [] {
    } else {
      assert (ts + [t])[1..] == ts[1..] + [t];
      ReversedSnoc(ts[1..], t);
    }
  }

  /** The window the tail scan is specified to return. */
  function TailWindow(ls: seq<Line>, budget: nat): seq<Turn> {
    Reversed(Fitting(Newest(ls, {}), budget))
  }

  lemma {:induction false} FittingPrefix(kept: seq<Turn>, rest: seq<Turn>, budget: nat)
    requires Tokens(kept) <= budget
    ensures Fitting(kept + rest, budget) == kept + Fitting(rest, budget - Tokens(kept))
  {
    if kept == [] {
      assert kept + rest == rest;
    } else {
      FittingPrefix(kept[1..], rest, budget - kept[0].tokens);
      FittingJoin(kept[0], kept[1..], rest, kept, Fitting(rest, budget - Tokens(kept)), budget);
    }
  }

  lemma FittingJoin(t: Turn, more: seq<Turn>, rest: seq<Turn>, kept: seq<Turn>, got: seq<Turn>, budget: nat)
    requires kept == [t] + more && t.tokens <= budget && Fitting(more + rest, budget - t.tokens) == more + got
    ensures Fitting(kept + rest, budget) == kept + got
  {
    assert kept + rest == [t] + (more + rest);
    FittingCons(t, more + rest, kept + rest, budget);
  }

  lemma FittingCons(t: Turn, rest: seq<Turn>, all: seq<Turn>, budget: nat)
    requires all == [t] + rest && t.tokens <= budget
    ensures Fitting(all, budget) == [t] + Fitting(rest, budget - t.tokens)
  {
    assert all[1..] == rest;
  }

  lemma {:induction false} TokensSnoc(ts: seq<Turn>, t: Turn)
    ensures Tokens(ts + [t]) == Tokens(ts) + t.tokens
  {
    if ts == [] {
    } else {
      assert (ts + [t])[1..] == ts[1..] + [t];
      TokensSnoc(ts[1..], t);
    }
  }

  /** State of the tail scan with `pre` still unread: `kept` newest-first. */
  ghost predicate Tailing(all: seq<Line>, budget: nat, pre: seq<Line>, seen: set<nat>, kept: seq<Turn>, used: nat) {
    && Newest(all, {}) == kept + Newest(pre, seen)
    && used == Tokens(kept) && used <= budget
  }

  lemma TailStop(all: seq<Line>, budget: nat, pre: seq<Line>, seen: set<nat>, kept: seq<Turn>, used: nat)
    requires Tailing(all, budget, pre, seen, kept, used)
    requires pre == [] || (TurnOf(Last(pre)).Some? && TurnOf(Last(pre)).value.id !in seen
                           && used + TurnOf(Last(pre)).value.tokens > budget)
    ensures Fitting(Newest(all, {}), budget) == kept
  {
    FittingPrefix(kept, Newest(pre, seen), budget);
  }

  lemma TailStep(all: seq<Line>, budget: nat, pre: seq<Line>, seen: set<nat>, kept: seq<Turn>, used: nat)
    requires pre != [] && Tailing(all, budget, pre, seen, kept, used)
    ensures var t := TurnOf(Last(pre));
            if t.None? || t.value.id in seen then Tailing(all, budget, Init(pre), seen, kept, used)
            else used + t.value.tokens <= budget ==>
                 Tailing(all, budget, Init(pre), seen + {t.value.id}, kept + [t.value], used + t.value.tokens)
  {
    var t := TurnOf(Last(pre));
    if t.Some? && t.value.id !in seen {
      TokensSnoc(kept, t.value);
      assert kept + ([t.value] + Newest(Init(pre), seen + {t.value.id})) ==
             (kept + [t.value]) + Newest(Init(pre), seen + {t.value.id});
    }
  }

  /** One readable file of the tail scan; `done` when a turn crossed the budget. */
  method TailFile(lines: seq<Line>, budget: nat, ghost all: seq<Line>, ghost front: seq<Line>,
                  seen0: set<nat>, kept0: seq<Turn>, used0: nat)
    returns (seen: set<nat>, kept: seq<Turn>, used: nat, done: bool)
    requires Tailing(all, budget, front + lines, seen0, kept0, used0)
    ensures if done then Fitting(Newest(all, {}), budget) == kept
            else Tailing(all, budget, front, seen, kept, used)
  {
    seen, kept, used, done := seen0, kept0, used0, false;
    var j := |lines|;
    assert lines[..j] == lines;
    while j > 0
      invariant 0 <= j <= |lines|
      invariant Tailing(all, budget, front + lines[..j], seen, kept, used)
    {
      ghost var pre := front + lines[..j];
      TailStep(all, budget, pre, seen, kept, used);
      j := j - 1;
      assert Init(pre) == front + lines[..j] && Last(pre) == lines[j];
      var t := TurnOf(lines[j]);
      if t.Some? && t.value.id !in seen {
        if used + t.value.tokens > budget {
          TailStop(all, budget, pre, seen, kept, used);
          done := true;
          return;
        }
        seen, used, kept := seen + {t.value.id}, used + t.value.tokens, kept + [t.value];
      }
    }
    assert front + lines[..0] == front;
  }

  method TailTurnsWithinBudget(log: Log, budget: nat) returns (turns: seq<Turn>)
    ensures turns == TailWindow(Flat(log), budget)
  {
    var kept: seq<Turn> := [];
    var used: nat := 0;
    var seen: set<nat> := {};
    var i := |log|;
    assert log[..i] == log;
    while i > 0
      invariant 0 <= i <= |log|
      invariant Tailing(Flat(log), budget, Flat(log[..i]), seen, kept, used)
    {
      i := i - 1;
      FlatFront(log, i);
      if log[i].Lines? {
        var done;
        seen, kept, used, done :=
          TailFile(log[i].lines, budget, Flat(log), Flat(log[..i]), seen, kept, used);
        if done {
          return Reversed(kept);
        }
      } else {
        assert Flat(log[..i]) + [] == Flat(log[..i]);
      }
    }
    TailStop(Flat(log), budget, [], seen, kept, used);
    turns := Reversed(kept);
  }
}
