/**
 The disk pool of one task, drawn on by any number of concurrent writers. A reservation is a
 load followed by compare-and-swap attempts; a write follows it and a failed write hands the
 bytes back. Each atomic access is one step, and the steps of all writers interleave freely.
 Machine words have `MAX + 1` values.
 */
module DiskQuota {
  const MAX: nat := 0xFFFF_FFFF_FFFF_FFFF

  /** Bytes of the truncation line appended to a log whose reservation was refused. */
  const MARKER: nat := |"\n[output truncated: task disk cap reached]\n"|

  datatype Phase =
    | Idle
    | Trying(n: nat, seen: nat)   // inside the compare-and-swap loop
    | Writing(n: nat)             // reservation granted, write under way
    | Stopped

  /** `written` are the bytes this writer put on disk through the pool; `marked` says that a
      log pump appended its truncation line. */
  datatype Writer = Writer(phase: Phase, written: nat, marked: bool)

  datatype Pool = Pool(used: nat, writers: seq<Writer>)

  datatype Step =
    | Begin(n: nat)          // load `used`
    | Refuse(mark: bool)     // the total would exceed the cap; a log pump may append its marker
    | Swap                   // compare-and-swap succeeds
    | Retry                  // it fails, spuriously or not, and reports the current value
    | WriteDone
    | WriteFailed            // hand the reservation back

  function SaturatingAdd(a: nat, b: nat): nat {
    if a + b > MAX then MAX else a + b
  }

  function WrappingSub(a: nat, b: nat): nat {
    (a - b) % (MAX + 1)
  }

  predicate Enabled(p: Pool, cap: nat, i: nat, s: Step) {
    && i < |p.writers|
    && var w := p.writers[i];
       match s
       case Begin(n) => w.phase == Idle && n <= MAX
       case Refuse(_) => w.phase.Trying? && SaturatingAdd(w.phase.seen, w.phase.n) > cap
       case Swap => w.phase.Trying? && SaturatingAdd(w.phase.seen, w.phase.n) <= cap && w.phase.seen == p.used
       case Retry => w.phase.Trying? && SaturatingAdd(w.phase.seen, w.phase.n) <= cap
       case WriteDone => w.phase.Writing?
       case WriteFailed => w.phase.Writing?
  }

  function Moved(w: Writer, used: nat, s: Step): Writer {
    match s
    case Begin(n) => w.(phase := Trying(n, used))
    case Refuse(mark) => w.(phase := Stopped, marked := w.marked || mark)
    case Swap => if w.phase.Trying? then w.(phase := Writing(w.phase.n)) else w
    case Retry => if w.phase.Trying? then w.(phase := Trying(w.phase.n, used)) else w
    case WriteDone => if w.phase.Writing? then w.(phase := Idle, written := w.written + w.phase.n) else w
    case WriteFailed => w.(phase := Stopped)
  }

  function UsedAfter(used: nat, w: Writer, s: Step): nat {
    match s
    case Swap => if w.phase.Trying? then (used + w.phase.n) % (MAX + 1) else used
    case WriteFailed => if w.phase.Writing? then WrappingSub(used, w.phase.n) else used
    case _ => used
  }

  function Apply(p: Pool, i: nat, s: Step): Pool
    requires i < |p.writers|
  {
    Pool(UsedAfter(p.used, p.writers[i], s), p.writers[i := Moved(p.writers[i], p.used, s)])
  }

  /** What a writer accounts for: bytes on disk and bytes reserved for the write under way. */
  function Share(w: Writer): nat {
    w.written + if w.phase.Writing? then w.phase.n else 0
  }

  function Shares(ws: seq<Writer>): nat {
    if ws == [] then 0 else Share(ws[0]) + Shares(ws[1..])
  }

  function Written(ws: seq<Writer>): nat {
    if ws == [] then 0 else ws[0].written + Written(ws[1..])
  }

  predicate Quiescent(ws: seq<Writer>) {
    forall i :: 0 <= i < |ws| ==> !ws[i].phase.Writing?
  }

  /** The pool holds exactly what the writers account for, within the cap. */
  predicate Inv(p: Pool, cap: nat) {
    p.used == Shares(p.writers) <= cap
  }

  predicate Initial(p: Pool) {
    p.used == 0 && forall i :: 0 <= i < |p.writers| ==> p.writers[i] == Writer(Idle, 0, false)
  }

  // ---------------------------------------------------------------- every step

  lemma {:induction false} SharesUpdate(ws: seq<Writer>, i: nat, w: Writer)
    requires i < |ws|
    ensures Shares(ws[i := w]) == Shares(ws) - Share(ws[i]) + Share(w)
  {
    if i == 0 {
      assert ws[0 := w][1..] == ws[1..];
    } else {
      SharesUpdate(ws[1..], i - 1, w);
      assert ws[i := w][1..] == ws[1..][i - 1 := w];
    }
  }

  lemma {:induction false} ShareInShares(ws: seq<Writer>, i: nat)
    requires i < |ws|
    ensures Share(ws[i]) <= Shares(ws)
  {
    if i > 0 { ShareInShares(ws[1..], i - 1); }
  }

  /** One writer's step moves the pool by exactly what it moves that writer's share: the
      addition does not wrap and the release does not underflow. */
  lemma ShareStep(used: nat, cap: nat, w: Writer, s: Step)
    requires cap < MAX && used <= cap && Share(w) <= used
    requires s.Swap? ==> w.phase.Trying? && SaturatingAdd(w.phase.seen, w.phase.n) <= cap && w.phase.seen == used
    requires s.WriteDone? || s.WriteFailed? ==> w.phase.Writing?
    requires s.Begin? ==> w.phase == Idle
    requires s.Refuse? || s.Retry? ==> w.phase.Trying?
    ensures UsedAfter(used, w, s) == used - Share(w) + Share(Moved(w, used, s)) <= cap
  {
  }

  lemma InvStep(p: Pool, cap: nat, i: nat, s: Step)
    requires cap < MAX && Inv(p, cap) && Enabled(p, cap, i, s)
    ensures Inv(Apply(p, i, s), cap)
  {
    ShareInShares(p.writers, i);
    ShareStep(p.used, cap, p.writers[i], s);
    SharesUpdate(p.writers, i, Moved(p.writers[i], p.used, s));
  }

  // ---------------------------------------------------------------- every run

  datatype Move = Move(who: nat, step: Step)

  ghost predicate Run(p: Pool, cap: nat, moves: seq<Move>, q: Pool)
    decreases |moves|
  {
    if moves == [] then p == q
    else Enabled(p, cap, moves[0].who, moves[0].step) && Run(Apply(p, moves[0].who, moves[0].step), cap, moves[1..], q)
  }

  lemma {:induction false} InvRun(p: Pool, cap: nat, moves: seq<Move>, q: Pool)
    requires cap < MAX && Inv(p, cap) && Run(p, cap, moves, q)
    ensures Inv(q, cap)
    decreases |moves|
  {
    if moves != [] {
      InvStep(p, cap, moves[0].who, moves[0].step);
      InvRun(Apply(p, moves[0].who, moves[0].step), cap, moves[1..], q);
    }
  }

  lemma {:induction false} NoShares(ws: seq<Writer>)
    requires forall i :: 0 <= i < |ws| ==> ws[i] == Writer(Idle, 0, false)
    ensures Shares(ws) == 0
  {
    if ws != [] { NoShares(ws[1..]); }
  }

  lemma {:induction false} QuiescentShares(ws: seq<Writer>)
    ensures Written(ws) <= Shares(ws)
    ensures Quiescent(ws) ==> Shares(ws) == Written(ws)
  {
    if ws != [] {
      QuiescentShares(ws[1..]);
      assert Quiescent(ws) ==> Quiescent(ws[1..]) && !ws[0].phase.Writing?;
    }
  }

  /** After any interleaving of any number of writers: the pool is within its cap, never holds
      less than what is on disk, and holds exactly that whenever no write is under way. */
  lemma PoolIsExact(p: Pool, cap: nat, moves: seq<Move>, q: Pool)
    requires cap < MAX && Initial(p) && Run(p, cap, moves, q)
    ensures q.used <= cap && Written(q.writers) <= q.used
    ensures Quiescent(q.writers) ==> q.used == Written(q.writers)
  {
    NoShares(p.writers);
    InvRun(p, cap, moves, q);
    QuiescentShares(q.writers);
  }

  // ---------------------------------------------------------------- out.log

  function LogSize(w: Writer): nat {
    w.written + if w.marked then MARKER else 0
  }

  /** A marked writer has stopped, so its log never grows again: no second marker either. */
  predicate MarkedStops(ws: seq<Writer>) {
    forall i :: 0 <= i < |ws| && ws[i].marked ==> ws[i].phase == Stopped
  }

  lemma MarkedStopsStep(p: Pool, cap: nat, i: nat, s: Step)
    requires Enabled(p, cap, i, s) && MarkedStops(p.writers)
    ensures MarkedStops(Apply(p, i, s).writers)
    ensures !p.writers[i].marked
  {
  }

  /** Within the cap plus one marker, for every log at every moment of every run. */
  lemma LogIsBounded(p: Pool, cap: nat, moves: seq<Move>, q: Pool, i: nat)
    requires cap < MAX && Initial(p) && Run(p, cap, moves, q) && i < |q.writers|
    ensures LogSize(q.writers[i]) <= cap + MARKER
  {
    NoShares(p.writers);
    InvRun(p, cap, moves, q);
    ShareInShares(q.writers, i);
  }

  /** A marker is final: from then on the writer never moves, so its log stays as it is. */
  lemma {:induction false} MarkerIsFinal(p: Pool, cap: nat, moves: seq<Move>, q: Pool, i: nat)
    requires Run(p, cap, moves, q) && MarkedStops(p.writers) && i < |p.writers| && p.writers[i].marked
    ensures i < |q.writers| && q.writers[i] == p.writers[i]
    decreases |moves|
  {
    if moves != [] {
      MarkedStopsStep(p, cap, moves[0].who, moves[0].step);
      MarkerIsFinal(Apply(p, moves[0].who, moves[0].step), cap, moves[1..], q, i);
    }
  }

  // ---------------------------------------------------------------- progress and limits

  /** A failed swap that was not spurious means some other writer moved the pool since the
      value was read: between a load and a swap nobody can stall the pool without changing it. */
  lemma {:induction false} SwapFailsOnlyAfterAChange(p: Pool, cap: nat, moves: seq<Move>, q: Pool, i: nat)
    requires Run(p, cap, moves, q) && i < |p.writers| && p.writers[i].phase.Trying? && p.writers[i].phase.seen == p.used
    requires forall m :: m in moves ==> m.who != i
    requires forall m :: m in moves ==> !m.step.Swap? && !m.step.WriteFailed?
    ensures i < |q.writers| && q.writers[i] == p.writers[i] && q.used == p.used
    decreases |moves|
  {
    if moves != [] {
      assert moves[0] in moves;
      SwapFailsOnlyAfterAChange(Apply(p, moves[0].who, moves[0].step), cap, moves[1..], q, i);
    }
  }

  /** A writer that is let alone gets exactly what fits: its bytes go to disk and into the pool when
      they fit under the cap, and otherwise it is refused, with nothing changed but that it stops. */
  lemma GrantsWhatFits(p: Pool, cap: nat, i: nat, n: nat, mark: bool)
    requires cap < MAX && Inv(p, cap) && i < |p.writers| && p.writers[i].phase == Idle && n <= MAX
    ensures var w := p.writers[i];
            var asked := Apply(p, i, Begin(n));
            Enabled(p, cap, i, Begin(n)) &&
            if p.used + n <= cap
            then && Enabled(asked, cap, i, Swap) && !Enabled(asked, cap, i, Refuse(mark))
                 && var granted := Apply(asked, i, Swap);
                 && Enabled(granted, cap, i, WriteDone) && Enabled(granted, cap, i, WriteFailed)
                 && Apply(granted, i, WriteDone) == Pool(p.used + n, p.writers[i := w.(written := w.written + n)])
                 && Apply(granted, i, WriteFailed) == Pool(p.used, p.writers[i := w.(phase := Stopped)])
            else && Enabled(asked, cap, i, Refuse(mark)) && !Enabled(asked, cap, i, Swap) && !Enabled(asked, cap, i, Retry)
                 && Apply(asked, i, Refuse(mark)) == Pool(p.used, p.writers[i := w.(phase := Stopped, marked := w.marked || mark)])
  {
    ShareInShares(p.writers, i);
  }

  lemma RunOne(p: Pool, cap: nat, m: Move, moves: seq<Move>, q: Pool)
    requires Enabled(p, cap, m.who, m.step) && Run(Apply(p, m.who, m.step), cap, moves, q)
    ensures Run(p, cap, [m] + moves, q)
  {
    assert ([m] + moves)[1..] == moves;
  }

  /** With the placeholder cap of all ones the saturated sum is never over the cap: one writer
      fills the pool, asks for one byte more, and the pool wraps to nothing. */
  lemma SaturatedCapWraps(cap: nat) returns (p: Pool, moves: seq<Move>, q: Pool)
    requires cap == MAX
    ensures Initial(p) && Run(p, cap, moves, q) && q.used == 0 && Written(q.writers) == MAX
  {
    p := Pool(0, [Writer(Idle, 0, false)]);
    var p1 := Pool(0, [Writer(Trying(MAX, 0), 0, false)]);
    var p2 := Pool(MAX, [Writer(Writing(MAX), 0, false)]);
    var p3 := Pool(MAX, [Writer(Idle, MAX, false)]);
    var p4 := Pool(MAX, [Writer(Trying(1, MAX), MAX, false)]);
    q := Pool(0, [Writer(Writing(1), MAX, false)]);
    assert Apply(p, 0, Begin(MAX)) == p1 && Apply(p1, 0, Swap) == p2 && Apply(p2, 0, WriteDone) == p3;
    assert Apply(p3, 0, Begin(1)) == p4 && Apply(p4, 0, Swap) == q;
    RunOne(p4, cap, Move(0, Swap), [], q);
    RunOne(p3, cap, Move(0, Begin(1)), [Move(0, Swap)] + [], q);
    RunOne(p2, cap, Move(0, WriteDone), [Move(0, Begin(1))] + ([Move(0, Swap)] + []), q);
    RunOne(p1, cap, Move(0, Swap), [Move(0, WriteDone)] + ([Move(0, Begin(1))] + ([Move(0, Swap)] + [])), q);
    moves := [Move(0, Begin(MAX))] + ([Move(0, Swap)] + ([Move(0, WriteDone)] + ([Move(0, Begin(1))] + ([Move(0, Swap)] + []))));
    RunOne(p, cap, Move(0, Begin(MAX)), [Move(0, Swap)] + ([Move(0, WriteDone)] + ([Move(0, Begin(1))] + ([Move(0, Swap)] + []))), q);
    assert q.writers[1..] == [];
  }

  /** The pool is within its cap, covers what is on disk, and is exactly that when idle. */
  predicate Exact(q: Pool, cap: nat) {
    q.used <= cap && Written(q.writers) <= q.used && (Quiescent(q.writers) ==> q.used == Written(q.writers))
  }

  ghost predicate AlwaysExact(cap: nat) {
    forall p, moves, q {:trigger Run(p, cap, moves, q)} :: Initial(p) && Run(p, cap, moves, q) ==> Exact(q, cap)
  }

  /** Every run of any number of writers is exact if and only if the cap is below all ones. */
  lemma PoolIsExactIff(cap: nat)
    requires cap <= MAX
    ensures AlwaysExact(cap) <==> cap < MAX
  {
    if cap < MAX {
      forall p, moves, q | Initial(p) && Run(p, cap, moves, q) ensures Exact(q, cap) {
        PoolIsExact(p, cap, moves, q);
      }
    } else {
      var p, moves, q := SaturatedCapWraps(cap);
    }
  }
}
