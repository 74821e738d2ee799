/**
 Legacy-to-split migration under crashes. The disk is a map from path to content with
 atomic rename; a copy or a write that is cut short leaves a torn file. Restores, each of
 which appends a record to the history log, and crashes alternate in any order and any
 number; which of the disks and logs they leave behind load to the same store is settled
 exactly.
 */
module Migration {
  import opened Options
  import opened Pairing
  import opened History
  import opened Recovery

  datatype Path = Context | ContextArchive | Pins | PinsBak | PinsTmp | Manifest | ManifestBak | ManifestTmp

  datatype Content =
    | LegacyJson(raw: Store)
    | PinsJson(pins: seq<Turn>)
    | ManifestJson(ids: seq<nat>, next: nat)
    | Torn

  type Disk = map<Path, Content>

  /** `normalize` stands for the folds every restore applies to a legacy store (restart
      notices stripped, legacy pins and summary folded in, estimates refreshed);
      `estimate` for the current token estimator. */
  datatype Env = Env(normalize: Store -> Store, estimate: seq<Message> -> nat)

  // ---------------------------------------------------------------- loading

  /** The file is there and parses as the document it should hold. */
  predicate Whole(d: Disk, path: Path) {
    path in d &&
    match path
    case Pins => d[path].PinsJson?
    case PinsBak => d[path].PinsJson?
    case Manifest => d[path].ManifestJson?
    case ManifestBak => d[path].ManifestJson?
    case _ => false
  }

  /** The document, falling back to its backup when it is missing or does not parse. */
  function LoadWithBackup(d: Disk, path: Path, bak: Path): (doc: Option<Content>)
    ensures doc.Some? <==> Whole(d, path) || Whole(d, bak)
  {
    if Whole(d, path) then Some(d[path])
    else if Whole(d, bak) then Some(d[bak])
    else None
  }

  function LoadPins(d: Disk): seq<Turn> {
    var doc := LoadWithBackup(d, Pins, PinsBak);
    if doc.Some? then doc.value.pins else []
  }

  function Refresh(env: Env, t: Turn): Turn {
    t.(tokens := env.estimate(t.messages))
  }

  function RefreshAll(env: Env, ts: seq<Turn>): seq<Turn> {
    if ts == [] then [] else [Refresh(env, ts[0])] + RefreshAll(env, ts[1..])
  }

  datatype Loading = FromSplit(store: Store) | FromLegacy(store: Store) | Rebuild | Fault | Fresh

  /** `load_store` followed by the folds of `restore_agent`. */
  function Load(env: Env, d: Disk, log: Log): Loading {
    if Manifest in d || ManifestBak in d then
      var doc := LoadWithBackup(d, Manifest, ManifestBak);
      if doc.Some? then
        var convo := Collect(Flat(log), SortedIds(ToSet(doc.value.ids)));
        FromSplit(FromPersisted(RefreshAll(env, LoadPins(d)), RefreshAll(env, convo), doc.value.next))
      else Rebuild
    else if Context in d then
      if d[Context].LegacyJson? then FromLegacy(env.normalize(d[Context].raw)) else Fault
    else if log != [] then Rebuild
    else Fresh
  }

  /** A manifest that is missing or does not parse loads as its backup does in its place; without
      a whole backup either, the window is rebuilt from history. */
  lemma LostManifestLoads(env: Env, d: Disk, log: Log)
    requires (Manifest in d || ManifestBak in d) && !Whole(d, Manifest)
    ensures Load(env, d, log) == if Whole(d, ManifestBak) then Load(env, d[Manifest := d[ManifestBak]], log) else Rebuild
  {
    assert LoadPins(d[Manifest := if Whole(d, ManifestBak) then d[ManifestBak] else Torn]) == LoadPins(d);
  }

  /** So do lost pins; without a whole backup they load as none. */
  lemma LostPinsLoad(env: Env, d: Disk, log: Log)
    requires !Whole(d, Pins)
    ensures Load(env, d, log) == Load(env, d[Pins := if Whole(d, PinsBak) then d[PinsBak] else PinsJson([])], log)
  {
    var e := d[Pins := if Whole(d, PinsBak) then d[PinsBak] else PinsJson([])];
    assert LoadPins(e) == LoadPins(d) && LoadWithBackup(e, Manifest, ManifestBak) == LoadWithBackup(d, Manifest, ManifestBak);
  }

  /** Without a manifest or its backup a legacy document is loaded, or the load fails when it does
      not parse; without that too, a history with any file is rebuilt from, and a directory without
      one starts afresh. */
  lemma LoadsWithoutManifest(env: Env, d: Disk, log: Log)
    requires Manifest !in d && ManifestBak !in d
    ensures forall raw :: Context in d && d[Context] == LegacyJson(raw) ==> Load(env, d, log) == FromLegacy(env.normalize(raw))
    ensures Context in d && !d[Context].LegacyJson? ==> Load(env, d, log) == Fault
    ensures Context !in d && log != [] ==> Load(env, d, log) == Rebuild
    ensures Context !in d && log == [] ==> Load(env, d, log) == Fresh
  {
  }

  // ---------------------------------------------------------------- the migration protocol

  /** Where a restore stands; a crash from anywhere leads back to `Down`. */
  datatype Phase =
    | Down
    | BackUpPins | StagePins | PublishPins
    | BackUpManifest | StageManifest | PublishManifest
    | RetireLegacy
    | Up

  datatype State = State(disk: Disk, log: Log, phase: Phase, store: Store)

  /** What a load of this directory yields. */
  function Loaded(env: Env, s: State): Loading {
    Load(env, s.disk, s.log)
  }

  /** The record of a restore. */
  const RESTORED: Line := Rec(SystemRecord, None, [], 0)

  /** A crash in the middle of an append leaves no newline behind. */
  function Cut(log: Log): Log {
    if log == [] || Last(log).Unreadable? then log else Init(log) + [Last(log).(terminated := false)]
  }

  function Noted(log: Log, newDay: bool, whole: bool): Log {
    if whole then AppendLine(log, RESTORED, newDay) else Cut(AppendLine(log, Corrupt, newDay))
  }

  function IdsOf(ts: seq<Turn>): seq<nat> {
    if ts == [] then [] else [ts[0].id] + IdsOf(ts[1..])
  }

  function ManifestOf(s: Store): Content {
    ManifestJson(IdsOf(s.convo), s.nextId)
  }

  datatype Outcome = Complete | CutShort | Skipped

  datatype Step =
    | Begin(finishRename: bool)         // load; in split format the leftover legacy file may be renamed
    | Backup(outcome: Outcome)          // fs::copy to the .bak file; a failure is tolerated
    | Stage(outcome: Outcome)           // write the temp file
    | Publish                           // rename it over the document
    | Retire                            // rename context.json to its archive name
    | Note(newDay: bool, whole: bool)   // a system record of the restore is appended to history, or part of it
    | Crash                             // power loss, or an error that aborts the restore

  function Moved(d: Disk, from: Path, to: Path): Disk
    requires from in d
  {
    (map p | p in d && p != from :: d[p])[to := d[from]]
  }

  function Copied(d: Disk, from: Path, to: Path, o: Outcome): Disk {
    if from !in d || o == Skipped then d else d[to := if o == Complete then d[from] else Torn]
  }

  /** A document, its backup and its temporary file. */
  predicate Trio(path: Path, bak: Path, tmp: Path) {
    (path == Pins && bak == PinsBak && tmp == PinsTmp) || (path == Manifest && bak == ManifestBak && tmp == ManifestTmp)
  }

  /** Replacing a whole document: whatever becomes of the copy and wherever the write is cut, the
      old version loads until the rename and the new one from then on; and when the copy went
      through, the old one still loads once the new one is lost. */
  lemma WriteKeepsAVersion(d: Disk, path: Path, bak: Path, tmp: Path, doc: Content, copied: Outcome)
    requires Trio(path, bak, tmp) && Whole(d, path) && Whole(d[path := doc], path)
    ensures var a := Copied(d, path, bak, copied);
            var e := Moved(a[tmp := doc], tmp, path);
            && LoadWithBackup(a, path, bak) == LoadWithBackup(a[tmp := Torn], path, bak) == LoadWithBackup(a[tmp := doc], path, bak)
               == Some(d[path])
            && LoadWithBackup(e, path, bak) == Some(doc)
            && (copied == Complete ==>
                 LoadWithBackup(e[path := Torn], path, bak) == LoadWithBackup(e - {path}, path, bak) == Some(d[path]))
  {
  }

  predicate Enabled(env: Env, s: State, step: Step) {
    match step
    case Begin(_) => s.phase == Down && (Loaded(env, s).FromSplit? || Loaded(env, s).FromLegacy?)
    case Backup(_) => s.phase == BackUpPins || s.phase == BackUpManifest
    case Stage(o) => (s.phase == StagePins || s.phase == StageManifest) && o != Skipped
    case Publish => (s.phase == PublishPins && PinsTmp in s.disk) || (s.phase == PublishManifest && ManifestTmp in s.disk)
    case Retire => s.phase == RetireLegacy && Context in s.disk
    case Note(_, _) => s.phase == Up
    case Crash => true
  }

  function Apply(env: Env, s: State, step: Step): State
    requires Enabled(env, s, step)
  {
    match step
    case Begin(finishRename) =>
      var loaded := Loaded(env, s);
      if loaded.FromLegacy? then s.(phase := BackUpPins, store := loaded.store)
      else s.(disk := if finishRename && Context in s.disk then Moved(s.disk, Context, ContextArchive) else s.disk,
              phase := Up, store := loaded.store)
    case Backup(o) =>
      if s.phase == BackUpPins then s.(disk := Copied(s.disk, Pins, PinsBak, o), phase := StagePins)
      else s.(disk := Copied(s.disk, Manifest, ManifestBak, o), phase := StageManifest)
    case Stage(o) =>
      if s.phase == StagePins then
        if o == Complete then s.(disk := s.disk[PinsTmp := PinsJson(s.store.pins)], phase := PublishPins)
        else s.(disk := s.disk[PinsTmp := Torn])
      else
        if o == Complete then s.(disk := s.disk[ManifestTmp := ManifestOf(s.store)], phase := PublishManifest)
        else s.(disk := s.disk[ManifestTmp := Torn])
    case Publish =>
      if s.phase == PublishPins then s.(disk := Moved(s.disk, PinsTmp, Pins), phase := BackUpManifest)
      else s.(disk := Moved(s.disk, ManifestTmp, Manifest), phase := RetireLegacy)
    case Retire => s.(disk := Moved(s.disk, Context, ContextArchive), phase := Up)
    case Note(newDay, whole) => s.(log := Noted(s.log, newDay, whole))
    case Crash => s.(phase := Down)
  }

  predicate Feasible(env: Env, s: State, steps: seq<Step>)
    decreases |steps|
  {
    steps == [] || (Enabled(env, s, steps[0]) && Feasible(env, Apply(env, s, steps[0]), steps[1..]))
  }

  function Execute(env: Env, s: State, steps: seq<Step>): State
    requires Feasible(env, s, steps)
    decreases |steps|
  {
    if steps == [] then s else Execute(env, Apply(env, s, steps[0]), steps[1..])
  }

  // ---------------------------------------------------------------- what must hold of the legacy store

  /** History holds this turn: its latest record has these very messages. */
  predicate InHistory(log: seq<Line>, t: Turn) {
    Latest(log, t.id).Some? && Latest(log, t.id).value.messages == t.messages
  }

  /** The window is ascending, the next id is past it, cached estimates are current, and
      history holds every window turn. */
  ghost predicate Migratable(env: Env, s: Store, log: seq<Line>) {
    && Ascending(s.convo)
    && s.nextId >= AfterBack(s.pins, s.convo)
    && (forall t :: t in s.pins || t in s.convo ==> t.tokens == env.estimate(t.messages))
    && (forall t :: t in s.convo ==> InHistory(log, t))
  }

  lemma {:induction false} RefreshCurrent(env: Env, ts: seq<Turn>)
    requires forall t :: t in ts ==> t.tokens == env.estimate(t.messages)
    ensures RefreshAll(env, ts) == ts
  {
    if ts != [] {
      assert ts[0] in ts;
      RefreshCurrent(env, ts[1..]);
    }
  }

  lemma {:induction false} IdsAscend(ts: seq<Turn>)
    requires Ascending(ts)
    ensures AscendingIds(IdsOf(ts)) && |IdsOf(ts)| == |ts|
  {
    IdsAt(ts);
  }

  lemma {:induction false} IdsAt(ts: seq<Turn>)
    ensures |IdsOf(ts)| == |ts| && forall k :: 0 <= k < |ts| ==> IdsOf(ts)[k] == ts[k].id
  {
    if ts != [] { IdsAt(ts[1..]); }
  }

  lemma IdsSortToThemselves(ts: seq<Turn>)
    requires Ascending(ts)
    ensures SortedIds(ToSet(IdsOf(ts))) == IdsOf(ts)
  {
    IdsAscend(ts);
    AscendingIdsUnique(SortedIds(ToSet(IdsOf(ts))), IdsOf(ts));
  }

  /** Hydrating the window's own ids gives the window back. */
  lemma {:induction false} HydrateWindow(env: Env, ts: seq<Turn>, log: seq<Line>)
    requires forall t :: t in ts ==>
               t.tokens == env.estimate(t.messages) && InHistory(log, t)
    ensures RefreshAll(env, Collect(log, IdsOf(ts))) == ts
  {
    if ts != [] {
      var t := ts[0];
      assert t in ts;
      LatestHasId(log, t.id);
      HydrateWindow(env, ts[1..], log);
      var ids := IdsOf(ts);
      assert ids[1..] == IdsOf(ts[1..]);
      assert Collect(log, ids) == [Latest(log, t.id).value] + Collect(log, ids[1..]);
      assert Collect(log, ids)[1..] == Collect(log, ids[1..]);
      assert Refresh(env, Latest(log, t.id).value) == t;
    }
  }

  /** The split documents of a migratable store load to that store. */
  lemma SplitLoads(env: Env, d: Disk, log: Log, s: Store)
    requires Migratable(env, s, Flat(log))
    requires Manifest in d && d[Manifest] == ManifestOf(s) && Pins in d && d[Pins] == PinsJson(s.pins)
    ensures Load(env, d, log) == FromSplit(s)
  {
    assert LoadWithBackup(d, Manifest, ManifestBak) == Some(ManifestOf(s));
    assert LoadPins(d) == s.pins;
    assert RefreshAll(env, s.pins) == s.pins by { RefreshCurrent(env, s.pins); }
    assert SortedIds(ToSet(IdsOf(s.convo))) == IdsOf(s.convo) by { IdsSortToThemselves(s.convo); }
    assert RefreshAll(env, Collect(Flat(log), IdsOf(s.convo))) == s.convo by { HydrateWindow(env, s.convo, Flat(log)); }
  }

  // ---------------------------------------------------------------- invariant

  /** Before the manifest is published the legacy document is untouched; from then on both
      split documents are whole. */
  ghost predicate DiskOk(env: Env, d: Disk, log: Log, raw: Store) {
    var s := env.normalize(raw);
    && Migratable(env, s, Flat(log))
    && (if Manifest in d
        then d[Manifest] == ManifestOf(s) && Pins in d && d[Pins] == PinsJson(s.pins)
        else ManifestBak !in d && Context in d && d[Context] == LegacyJson(raw))
  }

  ghost predicate PhaseOk(env: Env, st: State, raw: Store) {
    var s := env.normalize(raw);
    match st.phase
    case Down => true
    case BackUpPins | StagePins => st.store == s && Manifest !in st.disk
    case PublishPins => st.store == s && Manifest !in st.disk && PinsTmp in st.disk && st.disk[PinsTmp] == PinsJson(s.pins)
    case BackUpManifest | StageManifest =>
      st.store == s && Manifest !in st.disk && Pins in st.disk && st.disk[Pins] == PinsJson(s.pins)
    case PublishManifest =>
      && st.store == s && Manifest !in st.disk && Pins in st.disk && st.disk[Pins] == PinsJson(s.pins)
      && ManifestTmp in st.disk && st.disk[ManifestTmp] == ManifestOf(s)
    case RetireLegacy => st.store == s && Manifest in st.disk && Context in st.disk
    case Up => st.store == s && Manifest in st.disk
  }

  ghost predicate Inv(env: Env, st: State, raw: Store) {
    DiskOk(env, st.disk, st.log, raw) && PhaseOk(env, st, raw)
  }

  /** No append can cost the window a turn: the log's tail takes an append or ignores it, or the
      line that would be destroyed is not the record some window turn needs. */
  ghost predicate Durable(s: Store, log: Log) {
    Untorn(log) || forall t :: t in s.convo ==> InHistory(AllButLast(Flat(log)), t)
  }

  /** Any disk of the protocol loads to the original store. */
  lemma InvLoads(env: Env, st: State, raw: Store)
    requires Inv(env, st, raw)
    ensures Loaded(env, st) ==
            if Manifest in st.disk then FromSplit(env.normalize(raw)) else FromLegacy(env.normalize(raw))
  {
    if Manifest in st.disk { SplitLoads(env, st.disk, st.log, env.normalize(raw)); }
  }

  /** A line that records no turn changes nothing for any turn. */
  lemma NoTurnAppended(ls: seq<Line>, line: Line, id: nat)
    requires TurnOf(line).None?
    ensures Latest(ls + [line], id) == Latest(ls, id)
  {
    LatestConcat(ls, [line], id);
    assert Init([line]) == [];
  }

  lemma CutFlat(log: Log)
    ensures Flat(Cut(log)) == Flat(log)
  {
    if log != [] && Last(log).Lines? { assert Init(Cut(log)) == Init(log); }
  }

  /** What appending a line without a turn costs: nothing, or the last line of a torn tail. */
  lemma AppendCosts(log: Log, line: Line, newDay: bool, id: nat)
    requires TurnOf(line).None?
    ensures Latest(Flat(AppendLine(log, line, newDay)), id)
            == if Untorn(log) || newDay then Latest(Flat(log), id) else Latest(AllButLast(Flat(log)), id)
  {
    if Visible(log, newDay) {
      VisibleAppend(log, line, newDay);
      NoTurnAppended(Flat(log), line, id);
    } else if Untorn(log) {
      LostAppend(log, line);
    } else {
      TornAppend(log, line);
      NoTurnAppended(Init(Flat(log)), Corrupt, id);
    }
  }

  /** The log then ends in a line without a turn, unless the append was ignored. */
  lemma AppendEnds(log: Log, line: Line, newDay: bool)
    requires TurnOf(line).None?
    ensures var next := AppendLine(log, line, newDay);
            Untorn(next) && (next == log || (Flat(next) != [] && TurnOf(Last(Flat(next))).None?))
  {
    if Visible(log, newDay) {
      VisibleAppend(log, line, newDay);
      assert Visible(AppendLine(log, line, newDay), false);
    } else if Untorn(log) {
      LostAppend(log, line);
    } else {
      TornAppend(log, line);
      assert Visible(AppendLine(log, line, false), false);
    }
  }

  lemma CutStaysDurable(s: Store, log: Log)
    requires Untorn(log) && (Flat(log) != [] && TurnOf(Last(Flat(log))).None?)
    requires forall t :: t in s.convo ==> InHistory(Flat(log), t)
    ensures Durable(s, Cut(log))
  {
    CutFlat(log);
    DurableBefore(s, Cut(log), Flat(log));
  }

  lemma DurableBefore(s: Store, log: Log, all: seq<Line>)
    requires all == Flat(log) && all != [] && TurnOf(Last(all)).None? && forall t :: t in s.convo ==> InHistory(all, t)
    ensures Durable(s, log)
  {
    NeededBefore(s.convo, all, Init(all), Last(all));
  }

  lemma NeededBefore(convo: seq<Turn>, all: seq<Line>, ls: seq<Line>, line: Line)
    requires all == ls + [line] && TurnOf(line).None? && forall t :: t in convo ==> InHistory(all, t)
    ensures forall t :: t in convo ==> InHistory(ls, t)
  {
    forall t | t in convo ensures InHistory(ls, t) { NoTurnAppended(ls, line, t.id); }
  }

  /** The restore's record keeps a durable log durable, whole or cut short. */
  lemma NoteKeepsHistory(env: Env, s: Store, log: Log, newDay: bool, whole: bool)
    requires Migratable(env, s, Flat(log)) && Durable(s, log)
    ensures Migratable(env, s, Flat(Noted(log, newDay, whole))) && Durable(s, Noted(log, newDay, whole))
  {
    var line := if whole then RESTORED else Corrupt;
    var next := AppendLine(log, line, newDay);
    AppendEnds(log, line, newDay);
    CutFlat(next);
    forall t | t in s.convo ensures InHistory(Flat(next), t) {
      AppendCosts(log, line, newDay, t.id);
      if !Untorn(log) { assert InHistory(AllButLast(Flat(log)), t); }
      assert InHistory(Flat(log), t);
    }
    if !whole && next != log { CutStaysDurable(s, next); }
    if !whole && next == log { CutIgnored(log, newDay); }
  }

  /** An append that changed nothing went to an unreadable file. */
  lemma CutIgnored(log: Log, newDay: bool)
    requires AppendLine(log, Corrupt, newDay) == log
    ensures Cut(log) == log
  {
    var next := AppendLine(log, Corrupt, newDay);
    assert newDay || log == [] ==> |next| == |log| + 1;
    assert Last(next) == AppendToFile(Last(log), Corrupt);
    AppendChanges(Last(log));
  }

  lemma AppendChanges(f: DayFile)
    ensures f.Lines? ==> AppendToFile(f, Corrupt) != f
  {
    assert f.Lines? ==> |f.lines + [Corrupt]| == |f.lines| + 1;
  }

  lemma DiskStep(env: Env, st: State, raw: Store, step: Step)
    requires Inv(env, st, raw) && Enabled(env, st, step) && !step.Note?
    ensures Inv(env, Apply(env, st, step), raw) && Apply(env, st, step).log == st.log
  {
    if step.Begin? { BeginStep(env, st, raw, step); } else { WriteStep(env, st, raw, step); }
  }

  lemma BeginStep(env: Env, st: State, raw: Store, step: Step)
    requires Inv(env, st, raw) && Enabled(env, st, step) && step.Begin?
    ensures Inv(env, Apply(env, st, step), raw) && Apply(env, st, step).log == st.log
  {
    InvLoads(env, st, raw);
  }

  lemma WriteStep(env: Env, st: State, raw: Store, step: Step)
    requires Inv(env, st, raw) && Enabled(env, st, step) && !step.Note? && !step.Begin?
    ensures Inv(env, Apply(env, st, step), raw) && Apply(env, st, step).log == st.log
  {
    if step.Publish? || step.Retire? { RenameStep(env, st, raw, step); }
  }

  lemma RenameStep(env: Env, st: State, raw: Store, step: Step)
    requires Inv(env, st, raw) && Enabled(env, st, step) && (step.Publish? || step.Retire?)
    ensures Inv(env, Apply(env, st, step), raw) && Apply(env, st, step).log == st.log
  {
  }

  /** Every write, rename, append and crash keeps the invariant of a durable log. */
  lemma InvStep(env: Env, st: State, raw: Store, step: Step)
    requires Inv(env, st, raw) && Durable(env.normalize(raw), st.log) && Enabled(env, st, step)
    ensures Inv(env, Apply(env, st, step), raw) && Durable(env.normalize(raw), Apply(env, st, step).log)
  {
    if step.Note? {
      NoteKeepsHistory(env, env.normalize(raw), st.log, step.newDay, step.whole);
    } else {
      DiskStep(env, st, raw, step);
    }
  }

  lemma {:induction false} InvRun(env: Env, st: State, raw: Store, steps: seq<Step>)
    requires Inv(env, st, raw) && Durable(env.normalize(raw), st.log) && Feasible(env, st, steps)
    ensures Inv(env, Execute(env, st, steps), raw)
    decreases |steps|
  {
    if steps != [] {
      InvStep(env, st, raw, steps[0]);
      InvRun(env, Apply(env, st, steps[0]), raw, steps[1..]);
    }
  }

  // ---------------------------------------------------------------- main results

  /** A legacy directory nobody has migrated yet. */
  ghost predicate Legacy(d: Disk, raw: Store) {
    Context in d && d[Context] == LegacyJson(raw) && Manifest !in d && ManifestBak !in d
  }

  /** This state loads to the store, from either format. */
  ghost predicate Recovers(env: Env, st: State, s: Store) {
    Loaded(env, st) == FromSplit(s) || Loaded(env, st) == FromLegacy(s)
  }

  /** From any crash point, after any number of crashes and restores, the next load of a
      legacy directory recovers the same pins, window and next turn id. */
  lemma MigrationSurvivesCrashes(env: Env, d: Disk, log: Log, raw: Store, steps: seq<Step>, any: Store)
    requires Legacy(d, raw) && Migratable(env, env.normalize(raw), Flat(log)) && Durable(env.normalize(raw), log)
    requires Feasible(env, State(d, log, Down, any), steps)
    ensures var end := Execute(env, State(d, log, Down, any), steps);
            && Recovers(env, end, env.normalize(raw))
            && (end.phase == Up ==> end.store == env.normalize(raw))
  {
    var start := State(d, log, Down, any);
    InvRun(env, start, raw, steps);
    InvLoads(env, Execute(env, start, steps), raw);
  }

  lemma {:induction false} RunThen(env: Env, st: State, steps: seq<Step>, step: Step)
    requires Feasible(env, st, steps) && Enabled(env, Execute(env, st, steps), step)
    ensures Feasible(env, st, steps + [step]) && Execute(env, st, steps + [step]) == Apply(env, Execute(env, st, steps), step)
    decreases |steps|
  {
    if steps == [] {
      assert [step][1..] == [];
    } else {
      assert (steps + [step])[1..] == steps[1..] + [step];
      RunThen(env, Apply(env, st, steps[0]), steps[1..], step);
    }
  }

  /** The next step of an undisturbed restore. */
  function Onward(phase: Phase): Step {
    match phase
    case Down => Begin(false)
    case BackUpPins => Backup(Skipped)
    case BackUpManifest => Backup(Skipped)
    case StagePins => Stage(Complete)
    case StageManifest => Stage(Complete)
    case PublishPins => Publish
    case PublishManifest => Publish
    case RetireLegacy => Retire
    case Up => Crash
  }

  function Remaining(phase: Phase): nat {
    match phase
    case Down => 8
    case BackUpPins => 7
    case StagePins => 6
    case PublishPins => 5
    case BackUpManifest => 4
    case StageManifest => 3
    case PublishManifest => 2
    case RetireLegacy => 1
    case Up => 0
  }

  lemma OnwardStep(env: Env, st: State, raw: Store)
    requires Inv(env, st, raw) && st.phase != Up
    ensures Enabled(env, st, Onward(st.phase)) && Remaining(Apply(env, st, Onward(st.phase)).phase) < Remaining(st.phase)
  {
    if st.phase == Down { DownStep(env, st, raw); }
  }

  lemma DownStep(env: Env, st: State, raw: Store)
    requires Inv(env, st, raw) && st.phase == Down
    ensures Enabled(env, st, Begin(false)) && Remaining(Apply(env, st, Begin(false)).phase) < 8
  {
    InvLoads(env, st, raw);
  }

  /** Undisturbed, a restore comes up without touching the log. */
  lemma {:induction false} ComesUp(env: Env, start: State, steps: seq<Step>, raw: Store) returns (all: seq<Step>)
    requires Feasible(env, start, steps) && Inv(env, Execute(env, start, steps), raw)
    ensures Feasible(env, start, all) && Inv(env, Execute(env, start, all), raw)
    ensures Execute(env, start, all).phase == Up && Execute(env, start, all).log == Execute(env, start, steps).log
    decreases Remaining(Execute(env, start, steps).phase)
  {
    var st := Execute(env, start, steps);
    if st.phase == Up {
      all := steps;
    } else {
      OnwardStep(env, st, raw);
      DiskStep(env, st, raw, Onward(st.phase));
      RunThen(env, start, steps, Onward(st.phase));
      all := ComesUp(env, start, steps + [Onward(st.phase)], raw);
    }
  }

  /** One step further. */
  lemma Then(env: Env, start: State, steps: seq<Step>, t: State, step: Step) returns (more: seq<Step>, u: State)
    requires Feasible(env, start, steps) && Execute(env, start, steps) == t && Enabled(env, t, step)
    ensures more == steps + [step] && u == Apply(env, t, step) && Feasible(env, start, more) && Execute(env, start, more) == u
  {
    RunThen(env, start, steps, step);
    more, u := steps + [step], Apply(env, t, step);
  }

  predicate SameAt(a: Disk, b: Disk, path: Path) {
    (path in a <==> path in b) && (path in a ==> a[path] == b[path])
  }

  /** The disk after a document was backed up, staged and renamed into place. */
  function Replaced(d: Disk, path: Path, bak: Path, tmp: Path, doc: Content): Disk {
    Moved(Copied(d, path, bak, Complete)[tmp := doc], tmp, path)
  }

  lemma ReplacedIs(d: Disk, path: Path, bak: Path, tmp: Path, doc: Content, other: Path)
    requires Trio(path, bak, tmp) && other != path && other != bak && other != tmp
    ensures var e := Replaced(d, path, bak, tmp, doc);
            && path in e && e[path] == doc && tmp !in e && SameAt(d, e, other)
            && (path in d ==> bak in e && e[bak] == d[path])
  {
  }

  /** The pins written undisturbed. */
  lemma PinsWritten(env: Env, start: State, before: seq<Step>, at: State) returns (steps: seq<Step>, t: State)
    requires Feasible(env, start, before) && Execute(env, start, before) == at && at.phase == BackUpPins
    ensures Feasible(env, start, steps) && Execute(env, start, steps) == t
    ensures t == at.(phase := BackUpManifest, disk := Replaced(at.disk, Pins, PinsBak, PinsTmp, PinsJson(at.store.pins)))
  {
    steps, t := Then(env, start, before, at, Backup(Complete));
    steps, t := Then(env, start, steps, t, Stage(Complete));
    steps, t := Then(env, start, steps, t, Publish);
  }

  /** The manifest written undisturbed. */
  lemma ManifestWritten(env: Env, start: State, before: seq<Step>, at: State) returns (steps: seq<Step>, t: State)
    requires Feasible(env, start, before) && Execute(env, start, before) == at && at.phase == BackUpManifest
    ensures Feasible(env, start, steps) && Execute(env, start, steps) == t
    ensures t == at.(phase := RetireLegacy, disk := Replaced(at.disk, Manifest, ManifestBak, ManifestTmp, ManifestOf(at.store)))
  {
    steps, t := Then(env, start, before, at, Backup(Complete));
    steps, t := Then(env, start, steps, t, Stage(Complete));
    steps, t := Then(env, start, steps, t, Publish);
  }

  /** What an undisturbed migration comes to: the agent is up with its store, both documents are
      published, no temporary file is left, and the legacy document has moved to its archive. */
  ghost predicate Migrated(env: Env, t: State, log: Log, raw: Store) {
    && t.phase == Up && t.store == env.normalize(raw) && t.log == log
    && Manifest in t.disk && t.disk[Manifest] == ManifestOf(t.store) && Pins in t.disk && t.disk[Pins] == PinsJson(t.store.pins)
    && PinsTmp !in t.disk && ManifestTmp !in t.disk && Context !in t.disk
    && ContextArchive in t.disk && t.disk[ContextArchive] == LegacyJson(raw)
  }

  lemma LegacyBegins(env: Env, start: State, raw: Store) returns (steps: seq<Step>, t: State)
    requires Legacy(start.disk, raw) && start.phase == Down
    ensures Feasible(env, start, steps) && Execute(env, start, steps) == t
    ensures t == start.(phase := BackUpPins, store := env.normalize(raw))
  {
    steps, t := Then(env, start, [], start, Begin(false));
  }

  lemma LegacyRetires(env: Env, start: State, before: seq<Step>, at: State) returns (steps: seq<Step>, t: State)
    requires Feasible(env, start, before) && Execute(env, start, before) == at && at.phase == RetireLegacy && Context in at.disk
    ensures Feasible(env, start, steps) && Execute(env, start, steps) == t
    ensures t == at.(disk := (at.disk - {Context})[ContextArchive := at.disk[Context]], phase := Up)
  {
    steps, t := Then(env, start, before, at, Retire);
  }

  lemma MigrationCompletes(env: Env, start: State, raw: Store) returns (steps: seq<Step>, t: State)
    requires Legacy(start.disk, raw) && start.phase == Down
    ensures Feasible(env, start, steps) && Execute(env, start, steps) == t && Migrated(env, t, start.log, raw)
  {
    steps, t := LegacyBegins(env, start, raw);
    var a := t.disk;
    steps, t := PinsWritten(env, start, steps, t);
    var b := t.disk;
    ReplacedIs(a, Pins, PinsBak, PinsTmp, PinsJson(t.store.pins), Context);
    steps, t := ManifestWritten(env, start, steps, t);
    ReplacedIs(b, Manifest, ManifestBak, ManifestTmp, ManifestOf(t.store), Context);
    ReplacedIs(b, Manifest, ManifestBak, ManifestTmp, ManifestOf(t.store), Pins);
    ReplacedIs(b, Manifest, ManifestBak, ManifestTmp, ManifestOf(t.store), PinsTmp);
    steps, t := LegacyRetires(env, start, steps, t);
  }

  /** A legacy document left over beside a manifest is retired by the next restore, and nothing
      else on the disk changes. */
  lemma LeftoverIsRetired(env: Env, s: State)
    requires s.phase == Down && Loaded(env, s).FromSplit? && Context in s.disk
    ensures Enabled(env, s, Begin(true))
    ensures var t := Apply(env, s, Begin(true));
            && t.phase == Up && t.store == Loaded(env, s).store && t.log == s.log
            && t.disk == (s.disk - {Context})[ContextArchive := s.disk[Context]]
  {
  }

  /** With a window turn at the mercy of the tail, one undisturbed restore loses it. */
  lemma TornTailLosesTurn(env: Env, d: Disk, log: Log, raw: Store, any: Store) returns (steps: seq<Step>)
    requires Legacy(d, raw) && Migratable(env, env.normalize(raw), Flat(log)) && !Durable(env.normalize(raw), log)
    ensures Feasible(env, State(d, log, Down, any), steps)
    ensures !Recovers(env, Execute(env, State(d, log, Down, any), steps), env.normalize(raw))
  {
    var start := State(d, log, Down, any);
    steps := ComesUp(env, start, [], raw);
    NoteLosesTurn(env, Execute(env, start, steps), raw);
    RunThen(env, start, steps, Note(false, true));
    steps := steps + [Note(false, true)];
  }

  lemma NoteLosesTurn(env: Env, up: State, raw: Store)
    requires Inv(env, up, raw) && up.phase == Up && !Durable(env.normalize(raw), up.log)
    ensures !Recovers(env, Apply(env, up, Note(false, true)), env.normalize(raw))
  {
    var s := env.normalize(raw);
    var t :| t in s.convo && !InHistory(AllButLast(Flat(up.log)), t);
    AppendCosts(up.log, RESTORED, false, t.id);
    NotedState(env, up, Apply(env, up, Note(false, true)));
    LostFromSplit(env, Apply(env, up, Note(false, true)), s, t);
  }

  lemma NotedState(env: Env, up: State, next: State)
    requires up.phase == Up && next == Apply(env, up, Note(false, true))
    ensures next == up.(log := AppendLine(up.log, RESTORED, false))
  {
  }

  lemma LostFromSplit(env: Env, st: State, s: Store, t: Turn)
    requires Manifest in st.disk && st.disk[Manifest] == ManifestOf(s) && Pins in st.disk && st.disk[Pins] == PinsJson(s.pins)
    requires Ascending(s.convo) && s.nextId >= AfterBack(s.pins, s.convo)
    requires forall u :: u in s.pins || u in s.convo ==> u.tokens == env.estimate(u.messages)
    requires t in s.convo && !InHistory(Flat(st.log), t)
    ensures !Recovers(env, st, s)
  {
    SplitLoadsIff(env, st.disk, st.log, s);
    assert Loaded(env, st).FromSplit? || Loaded(env, st) == Rebuild;
  }

  /** All crashes and restores of this legacy directory recover its store. */
  ghost predicate Survives(env: Env, d: Disk, log: Log, raw: Store, any: Store) {
    forall steps {:trigger Feasible(env, State(d, log, Down, any), steps)} ::
      Feasible(env, State(d, log, Down, any), steps) ==>
        Recovers(env, Execute(env, State(d, log, Down, any), steps), env.normalize(raw))
  }

  /** With every window turn in history, the migration survives all crashes and restores if and
      only if no append can cost the window a turn. */
  lemma MigrationSurvivesIff(env: Env, d: Disk, log: Log, raw: Store, any: Store)
    requires Legacy(d, raw) && Migratable(env, env.normalize(raw), Flat(log))
    ensures Survives(env, d, log, raw, any) <==> Durable(env.normalize(raw), log)
  {
    if Durable(env.normalize(raw), log) {
      forall steps | Feasible(env, State(d, log, Down, any), steps)
        ensures Recovers(env, Execute(env, State(d, log, Down, any), steps), env.normalize(raw))
      {
        MigrationSurvivesCrashes(env, d, log, raw, steps, any);
      }
    } else {
      var steps := TornTailLosesTurn(env, d, log, raw, any);
      assert Feasible(env, State(d, log, Down, any), steps);
    }
  }

  /** The smallest instance: one window turn whose only record lost its newline. */
  lemma UnterminatedRecordIsLost(env: Env, t: Turn, any: Store)
    requires env.normalize(Store([], [t], t.id + 1)) == Store([], [t], t.id + 1) && t.tokens == env.estimate(t.messages)
    ensures var s := Store([], [t], t.id + 1);
            var log := [Lines([RecordOf(t)], false)];
            && Migratable(env, s, Flat(log))
            && !Survives(env, map[Context := LegacyJson(s)], log, s, any)
  {
    var s := Store([], [t], t.id + 1);
    var log := [Lines([RecordOf(t)], false)];
    assert log[..0] == [];
    assert Flat(log) == [RecordOf(t)];
    OneRecord(env, t, s, [RecordOf(t)]);
    assert t in s.convo;
    MigrationSurvivesIff(env, map[Context := LegacyJson(s)], log, s, any);
  }

  lemma OneRecord(env: Env, t: Turn, s: Store, ls: seq<Line>)
    requires ls == [RecordOf(t)] && s == Store([], [t], t.id + 1) && t.tokens == env.estimate(t.messages)
    ensures Migratable(env, s, ls) && !InHistory(AllButLast(ls), t)
  {
    assert Last(ls) == RecordOf(t) && TurnOf(RecordOf(t)) == Some(t);
    assert AllButLast(ls) == [];
  }

  lemma {:induction false} RefreshedMembers(env: Env, ts: seq<Turn>, t: Turn)
    requires t in RefreshAll(env, ts)
    ensures exists u :: u in ts && Refresh(env, u) == t
  {
    if ts != [] && t != Refresh(env, ts[0]) { RefreshedMembers(env, ts[1..], t); }
  }

  /** The history hypothesis is exactly what the migration needs: the split documents load to
      the store they were written from if and only if history holds every window turn. */
  lemma SplitLoadsIff(env: Env, d: Disk, log: Log, s: Store)
    requires Ascending(s.convo) && s.nextId >= AfterBack(s.pins, s.convo)
    requires forall t :: t in s.pins || t in s.convo ==> t.tokens == env.estimate(t.messages)
    requires Manifest in d && d[Manifest] == ManifestOf(s) && Pins in d && d[Pins] == PinsJson(s.pins)
    ensures Load(env, d, log) == FromSplit(s) <==> forall t :: t in s.convo ==> InHistory(Flat(log), t)
  {
    if forall t :: t in s.convo ==> InHistory(Flat(log), t) {
      assert forall t :: t in s.convo ==> InHistory(Flat(log), t);
      SplitLoads(env, d, log, s);
    } else if Load(env, d, log) == FromSplit(s) {
      var t :| t in s.convo && !InHistory(Flat(log), t);
      LoadedIsInHistory(env, d, log, s, t);
    }
  }

  lemma LoadedIsInHistory(env: Env, d: Disk, log: Log, s: Store, t: Turn)
    requires Load(env, d, log) == FromSplit(s) && t in s.convo
    ensures InHistory(Flat(log), t)
  {
    var doc := LoadWithBackup(d, Manifest, ManifestBak);
    var ids := SortedIds(ToSet(doc.value.ids));
    RefreshedMembers(env, Collect(Flat(log), ids), t);
    CollectMembers(Flat(log), ids);
  }
}
