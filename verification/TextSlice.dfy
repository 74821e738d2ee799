/**
 Head and tail slicing of oversized text with an omission marker between the two kept ends,
 and the loop that drives a slice under a token target. The token estimator is an arbitrary
 function.
 */
module TextSlice {
  import opened Digits

  /** Lines estimated above this are cut at the raw character position. */
  const LINE_MAX_TOKENS: nat := 2000

  datatype Slice = Slice(headChars: nat, tailChars: nat, sliced: string)

  // ---------------------------------------------------------------- lines

  /** Just past the last newline before `pos`, or 0. */
  function LineStart(text: string, pos: nat): (start: nat)
    requires pos <= |text|
    ensures start <= pos
  {
    if pos == 0 || text[pos - 1] == '\n' then pos else LineStart(text, pos - 1)
  }

  /** Just past the first newline at or after `pos`, or the end of the text. */
  function LineEnd(text: string, pos: nat): (end: nat)
    requires pos <= |text|
    ensures pos <= end <= |text|
    decreases |text| - pos
  {
    if pos == |text| then pos else if text[pos] == '\n' then pos + 1 else LineEnd(text, pos + 1)
  }

  ghost predicate NoNewline(text: string, from: nat, to: nat) {
    to <= |text| && forall i :: from <= i < to ==> text[i] != '\n'
  }

  /** `start` and `end` bound one line: newline-free up to its own terminator. */
  lemma {:induction false} LineStartIsRight(text: string, pos: nat)
    requires pos <= |text|
    ensures var start := LineStart(text, pos);
            NoNewline(text, start, pos) && (start == 0 || text[start - 1] == '\n')
  {
    if pos > 0 && text[pos - 1] != '\n' { LineStartIsRight(text, pos - 1); }
  }

  lemma {:induction false} LineEndIsRight(text: string, pos: nat)
    requires pos <= |text|
    ensures var end := LineEnd(text, pos);
            (end == |text| && NoNewline(text, pos, end)) || (end > pos && text[end - 1] == '\n' && NoNewline(text, pos, end - 1))
    decreases |text| - pos
  {
    if pos < |text| && text[pos] != '\n' { LineEndIsRight(text, pos + 1); }
  }

  method LineBounds(text: string, pos: nat) returns (start: nat, end: nat)
    requires pos <= |text|
    ensures start == LineStart(text, pos) && end == LineEnd(text, pos)
  {
    start := 0;
    for i := 0 to pos
      invariant start == LineStart(text, i)
    {
      if text[i] == '\n' {
        start := i + 1;
      }
    }
    end := |text|;
    var i := pos;
    while i < |text|
      invariant pos <= i <= |text| && end == |text|
      invariant LineEnd(text, i) == LineEnd(text, pos)
    {
      if text[i] == '\n' {
        end := i + 1;
        break;
      }
      i := i + 1;
    }
  }

  // ---------------------------------------------------------------- cuts

  function Marker(omitted: nat): string {
    "\n[... " + Dec(omitted) + " chars omitted ...]\n"
  }

  function MarkerSlice(text: string, headEnd: nat, tailStart: nat): Slice
    requires headEnd <= tailStart <= |text|
  {
    Slice(headEnd, |text| - tailStart, text[..headEnd] + Marker(tailStart - headEnd) + text[tailStart..])
  }

  /** Three fifths of the cap, rounded down, go to the head. */
  function HeadCut(cap: nat): (cut: nat)
    ensures cut <= cap && 5 * cut <= 3 * cap < 5 * (cut + 1)
  {
    cap * 3 / 5
  }

  function TailCut(total: nat, cap: nat): (cut: nat)
    requires total > cap
    ensures HeadCut(cap) < cut <= total
  {
    total - (cap - HeadCut(cap))
  }

  function CharHeadTail(text: string, cap: nat): Slice {
    if |text| <= cap then Slice(|text|, 0, text)
    else MarkerSlice(text, HeadCut(cap), TailCut(|text|, cap))
  }

  predicate Alignable(text: string, est: string -> nat, pos: nat)
    requires pos <= |text|
  {
    est(text[LineStart(text, pos)..LineEnd(text, pos)]) <= LINE_MAX_TOKENS
  }

  function AlignedHeadEnd(text: string, est: string -> nat, pos: nat): (end: nat)
    requires pos <= |text|
    ensures pos <= end <= |text|
  {
    if Alignable(text, est, pos) then LineEnd(text, pos) else pos
  }

  function AlignedTailStart(text: string, est: string -> nat, pos: nat): (start: nat)
    requires pos <= |text|
    ensures start <= pos
  {
    if Alignable(text, est, pos) then LineStart(text, pos) else pos
  }

  /** Where the head ends and the tail starts in a text longer than the cap: the aligned cuts,
      or the raw ones when alignment would close the gap. */
  function Cuts(text: string, est: string -> nat, cap: nat): (cuts: (nat, nat))
    requires |text| > cap
    ensures cuts.0 < cuts.1 <= |text|
    ensures HeadCut(cap) <= cuts.0 && cuts.1 <= TailCut(|text|, cap)
  {
    var headEnd := AlignedHeadEnd(text, est, HeadCut(cap));
    var tailStart := AlignedTailStart(text, est, TailCut(|text|, cap));
    if headEnd >= tailStart then (HeadCut(cap), TailCut(|text|, cap)) else (headEnd, tailStart)
  }

  function HeadTailSlice(text: string, est: string -> nat, cap: nat): Slice {
    if |text| <= cap then Slice(|text|, 0, text)
    else var cuts := Cuts(text, est, cap); MarkerSlice(text, cuts.0, cuts.1)
  }

  // ---------------------------------------------------------------- what a slice shows

  /** Either the whole text, or a true prefix and a true suffix around a marker that states the
      exact, nonzero number of characters between them. */
  ghost predicate Faithful(s: Slice, text: string) {
    || s == Slice(|text|, 0, text)
    || (s.headChars + s.tailChars < |text| &&
        s.sliced == text[..s.headChars] + ("\n[... " + Dec(|text| - s.headChars - s.tailChars) + " chars omitted ...]\n")
                    + text[|text| - s.tailChars..])
  }

  lemma MarkerSliceIsFaithful(text: string, headEnd: nat, tailStart: nat)
    requires headEnd < tailStart <= |text|
    ensures Faithful(MarkerSlice(text, headEnd, tailStart), text)
  {
  }

  /** Every slice accounts for every character. */
  lemma SliceIsFaithful(text: string, est: string -> nat, cap: nat)
    ensures Faithful(HeadTailSlice(text, est, cap), text) && Faithful(CharHeadTail(text, cap), text)
  {
    if |text| > cap {
      MarkerSliceIsFaithful(text, HeadCut(cap), TailCut(|text|, cap));
      var cuts := Cuts(text, est, cap);
      MarkerSliceIsFaithful(text, cuts.0, cuts.1);
    }
  }

  /** A text over the cap always loses something and keeps at least the raw cut on both sides;
      the character slice keeps exactly the cap. */
  lemma SliceCounts(text: string, est: string -> nat, cap: nat, s: Slice, raw: Slice)
    requires |text| > cap && s == HeadTailSlice(text, est, cap) && raw == CharHeadTail(text, cap)
    ensures s.headChars + s.tailChars < |text|
    ensures s.headChars >= HeadCut(cap) && s.tailChars >= cap - HeadCut(cap)
    ensures raw.headChars == HeadCut(cap) && raw.headChars + raw.tailChars == cap
  {
  }

  /** A cut is raw, or it falls on a line boundary of a line small enough to keep whole. */
  lemma CutsAlign(text: string, est: string -> nat, cap: nat)
    requires |text| > cap
    ensures var (headEnd, tailStart) := Cuts(text, est, cap);
            && (headEnd == HeadCut(cap) || headEnd == |text| || text[headEnd - 1] == '\n')
            && (tailStart == TailCut(|text|, cap) || tailStart == 0 || text[tailStart - 1] == '\n')
  {
    LineEndIsRight(text, HeadCut(cap));
    LineStartIsRight(text, TailCut(|text|, cap));
  }

  /** `start` and `end` bound the line `pos` is on, its terminator included. */
  ghost predicate LineAt(text: string, pos: nat, start: nat, end: nat) {
    && start <= pos <= end <= |text|
    && NoNewline(text, start, pos) && (start == 0 || text[start - 1] == '\n')
    && if end > pos && text[end - 1] == '\n' then NoNewline(text, pos, end - 1) else end == |text| && NoNewline(text, pos, end)
  }

  lemma LineAtIs(text: string, pos: nat, start: nat, end: nat)
    requires LineAt(text, pos, start, end)
    ensures start == LineStart(text, pos) && end == LineEnd(text, pos)
  {
    LineStartIsRight(text, pos);
    LineEndIsRight(text, pos);
  }

  /** Where a long text is cut: the head goes to the end of the line its raw cut is on, and the
      tail back to the start of its line, if that line is small enough to keep whole; when that
      would close the gap, both stay raw. */
  lemma CutsAre(text: string, est: string -> nat, cap: nat, a: nat, b: nat, c: nat, d: nat)
    requires |text| > cap && LineAt(text, HeadCut(cap), a, b) && LineAt(text, TailCut(|text|, cap), c, d)
    ensures var head := if est(text[a..b]) <= 2000 then b else HeadCut(cap);
            var tail := if est(text[c..d]) <= 2000 then c else TailCut(|text|, cap);
            Cuts(text, est, cap) == if head < tail then (head, tail) else (HeadCut(cap), TailCut(|text|, cap))
  {
    LineAtIs(text, HeadCut(cap), a, b);
    LineAtIs(text, TailCut(|text|, cap), c, d);
  }

  // ---------------------------------------------------------------- landing under a target

  function Shrunk(cap: nat, target: nat, kept: nat): nat {
    cap * target / if kept == 0 then 1 else kept
  }

  /** A slice over the target shrinks its cap: every proportional step makes progress. */
  lemma ShrunkBelow(cap: nat, target: nat, kept: nat)
    requires kept > target
    ensures Shrunk(cap, target, kept) <= cap && (cap > 0 ==> Shrunk(cap, target, kept) < cap)
  {
    assert cap * target <= cap * kept;
    DivideBack(cap * target, kept, cap);
    if cap > 0 { assert cap * target < cap * kept; }
  }

  /** The step rounds down the cap scaled by target over kept. */
  lemma ShrunkIsScaled(cap: nat, target: nat, kept: nat)
    requires kept > 0
    ensures Shrunk(cap, target, kept) * kept <= cap * target < (Shrunk(cap, target, kept) + 1) * kept
  {
  }

  lemma DivideBack(a: nat, kept: nat, cap: nat)
    requires kept > 0 && a <= cap * kept
    ensures a / kept <= cap && (a < cap * kept ==> a / kept < cap)
  {
    var q := a / kept;
    assert q * kept <= a;
    assert q >= cap ==> q * kept >= cap * kept;
    assert q >= cap + 1 ==> q * kept >= (cap + 1) * kept;
  }

  /** The slice tried after `i` steps: the first cut and four steps align to lines, the others do
      not. */
  function CutAfter(text: string, est: string -> nat, cap: nat, i: nat): Slice {
    if i <= 4 then HeadTailSlice(text, est, cap) else CharHeadTail(text, cap)
  }

  predicate Fits(text: string, est: string -> nat, target: nat, cap: nat, i: nat) {
    est(CutAfter(text, est, cap, i).sliced) <= target
  }

  /** The caps tried in a row: each slice but the last is over the target, and scales its cap by
      how far over it is. */
  ghost predicate Tried(text: string, est: string -> nat, target: nat, caps: seq<nat>) {
    && caps != []
    && forall i: nat {:trigger Fits(text, est, target, caps[i], i)} :: i + 1 < |caps| ==>
         !Fits(text, est, target, caps[i], i) && caps[i + 1] == Next(text, est, target, caps[i], i)
  }

  function Next(text: string, est: string -> nat, target: nat, cap: nat, i: nat): nat {
    Shrunk(cap, target, est(CutAfter(text, est, cap, i).sliced))
  }

  lemma CutIsFaithful(text: string, est: string -> nat, cap: nat, i: nat)
    ensures Faithful(CutAfter(text, est, cap, i), text)
  {
    SliceIsFaithful(text, est, cap);
  }

  /** The caps of a row fall until they are zero. */
  lemma CapsShrink(text: string, est: string -> nat, target: nat, caps: seq<nat>, i: nat)
    requires Tried(text, est, target, caps) && i + 1 < |caps|
    ensures caps[i + 1] <= caps[i] && (caps[i] > 0 ==> caps[i + 1] < caps[i])
  {
    assert !Fits(text, est, target, caps[i], i);
    ShrunkBelow(caps[i], target, est(CutAfter(text, est, caps[i], i).sliced));
  }

  lemma TriedNext(text: string, est: string -> nat, target: nat, caps: seq<nat>, last: nat, next: nat)
    requires Tried(text, est, target, caps) && last == caps[|caps| - 1] && !Fits(text, est, target, last, |caps| - 1)
    requires next == Next(text, est, target, last, |caps| - 1)
    ensures Tried(text, est, target, caps + [next])
  {
    forall i: nat | i < |caps|
      ensures !Fits(text, est, target, (caps + [next])[i], i)
              && (caps + [next])[i + 1] == Next(text, est, target, (caps + [next])[i], i)
    {
      if i + 1 < |caps| { assert !Fits(text, est, target, caps[i], i); }
    }
  }

  /** One proportional step. */
  method Scale(text: string, est: string -> nat, target: nat, cap: nat, kept: nat, ghost caps: seq<nat>)
    returns (next: nat, ghost all: seq<nat>)
    requires Tried(text, est, target, caps) && cap == caps[|caps| - 1]
    requires kept == est(CutAfter(text, est, cap, |caps| - 1).sliced) > target
    ensures Tried(text, est, target, all) && |all| == |caps| + 1 && all[0] == caps[0] && next == all[|caps|]
  {
    next := Shrunk(cap, target, kept);
    TriedNext(text, est, target, caps, cap, next);
    all := caps + [next];
  }

  /** Four line-aligned proportional steps: the first slice that fits, or the one after four. */
  method AlignedSteps(text: string, est: string -> nat, cap: nat, target: nat) returns (parts: Slice, cap': nat, ghost caps: seq<nat>)
    ensures Tried(text, est, target, caps) && caps[0] == cap && |caps| <= 5 && cap' == caps[|caps| - 1]
    ensures parts == CutAfter(text, est, cap', |caps| - 1) && (|caps| < 5 ==> est(parts.sliced) <= target)
  {
    cap', caps := cap, [cap];
    parts := HeadTailSlice(text, est, cap');
    for i := 0 to 4
      invariant Tried(text, est, target, caps) && caps[0] == cap && |caps| == i + 1 && cap' == caps[i]
      invariant parts == CutAfter(text, est, cap', i)
    {
      var kept := est(parts.sliced);
      if kept <= target {
        return;
      }
      cap', caps := Scale(text, est, target, cap', kept, caps);
      parts := HeadTailSlice(text, est, cap');
    }
  }

  method CharStep(text: string, est: string -> nat, target: nat, cap: nat, kept: nat, ghost caps: seq<nat>)
    returns (next: nat, parts: Slice, ghost all: seq<nat>)
    requires Tried(text, est, target, caps) && cap == caps[|caps| - 1] && |caps| >= 5
    requires kept == est(CutAfter(text, est, cap, |caps| - 1).sliced) > target
    ensures Tried(text, est, target, all) && |all| == |caps| + 1 && all[0] == caps[0] && next == all[|caps|]
    ensures parts == CutAfter(text, est, next, |caps|)
  {
    next, all := Scale(text, est, target, cap, kept, caps);
    parts := CharHeadTail(text, next);
  }

  /** Four character steps: the first slice that fits, or the one after eight steps, which is not
      looked at. */
  method CharSteps(text: string, est: string -> nat, start: Slice, cap: nat, target: nat, ghost caps0: seq<nat>)
    returns (parts: Slice, cap': nat, landed: bool, ghost caps: seq<nat>)
    requires Tried(text, est, target, caps0) && |caps0| <= 5 && cap == caps0[|caps0| - 1]
    requires start == CutAfter(text, est, cap, |caps0| - 1) && (|caps0| < 5 ==> est(start.sliced) <= target)
    ensures Tried(text, est, target, caps) && caps[0] == caps0[0] && |caps| <= 9 && cap' == caps[|caps| - 1]
    ensures parts == CutAfter(text, est, cap', |caps| - 1)
    ensures if landed then |caps| < 9 && est(parts.sliced) <= target else |caps| == 9
  {
    cap', parts, landed, caps := cap, start, false, caps0;
    for i := 0 to 4
      invariant Tried(text, est, target, caps) && caps[0] == caps0[0] && cap' == caps[|caps| - 1]
      invariant |caps| == |caps0| + i && (i > 0 ==> |caps0| == 5)
      invariant parts == CutAfter(text, est, cap', |caps| - 1) && (|caps| < 5 ==> est(parts.sliced) <= target)
    {
      var kept := est(parts.sliced);
      if kept <= target {
        return parts, cap', true, caps;
      }
      cap', parts, caps := CharStep(text, est, target, cap', kept, caps);
    }
  }

  /** Caps halved in a row, each but the last above one, and no slice after the first fits. The
      slice of the first cap is not looked at. */
  ghost predicate Halving(text: string, est: string -> nat, target: nat, caps: seq<nat>)
    decreases |caps|
  {
    caps != [] &&
    (|caps| == 1
     || var front := caps[..|caps| - 1];
        && Halving(text, est, target, front)
        && (|front| > 1 ==> est(CharHeadTail(text, front[|front| - 1]).sliced) > target)
        && front[|front| - 1] > 1 && caps[|caps| - 1] == front[|front| - 1] / 2)
  }

  lemma HalvingNext(text: string, est: string -> nat, target: nat, caps: seq<nat>, last: nat)
    requires Halving(text, est, target, caps) && last == caps[|caps| - 1] > 1
    requires |caps| > 1 ==> est(CharHeadTail(text, last).sliced) > target
    ensures Halving(text, est, target, caps + [last / 2])
  {
    assert (caps + [last / 2])[..|caps|] == caps;
  }

  /** The row of halvings has come to its end. */
  ghost predicate Halved(text: string, est: string -> nat, target: nat, caps: seq<nat>) {
    && Halving(text, est, target, caps) && |caps| > 1
    && (caps[|caps| - 1] == 1 || est(CharHeadTail(text, caps[|caps| - 1]).sliced) <= target)
  }

  /** The halving backstop for a cap above one. */
  method Halve(text: string, est: string -> nat, cap: nat, target: nat) returns (parts: Slice, c: nat, ghost caps: seq<nat>)
    requires cap > 1
    ensures Halved(text, est, target, caps) && caps[0] == cap && c == caps[|caps| - 1] && parts == CharHeadTail(text, c)
  {
    c, caps := cap, [cap];
    parts := CharHeadTail(text, c);
    while c > 1
      invariant Halving(text, est, target, caps) && caps[0] == cap && c == caps[|caps| - 1] && c > 0
      invariant parts == CharHeadTail(text, c) && (|caps| > 1 ==> est(parts.sliced) > target) && (c == 1 ==> |caps| > 1)
      decreases c
    {
      HalvingNext(text, est, target, caps, c);
      c := c / 2;
      caps := caps + [c];
      parts := CharHeadTail(text, c);
      if est(parts.sliced) <= target {
        return;
      }
    }
  }

  /** The target is within reach of the last resort. */
  ghost predicate Reachable(text: string, est: string -> nat, target: nat) {
    forall k: nat :: k <= 1 ==> est(CharHeadTail(text, k).sliced) <= target
  }

  /** The first of eight slices that fits, counting the first cut and seven proportional steps,
      four of them aligned. When none does, the cap after the eighth step is halved, without a
      look at its slice, until one fits or the cap is one. */
  ghost predicate Converged(text: string, est: string -> nat, target: nat, caps: seq<nat>, halves: seq<nat>, parts: Slice, c: nat) {
    && Tried(text, est, target, caps) && |caps| <= 9
    && (if |caps| < 9 then c == caps[|caps| - 1] && parts == CutAfter(text, est, c, |caps| - 1) && est(parts.sliced) <= target
        else parts == CharHeadTail(text, c) &&
             if caps[8] <= 1 then c == caps[8]
             else Halved(text, est, target, halves) && halves[0] == caps[8] && c == halves[|halves| - 1])
  }

  lemma ConvergedLands(text: string, est: string -> nat, target: nat, caps: seq<nat>, halves: seq<nat>, parts: Slice, c: nat)
    requires Converged(text, est, target, caps, halves, parts, c)
    ensures Faithful(parts, text)
    ensures est(parts.sliced) <= target || (c <= 1 && parts == CharHeadTail(text, c))
    ensures est(HeadTailSlice(text, est, caps[0]).sliced) <= target ==> parts == HeadTailSlice(text, est, caps[0])
  {
    CutIsFaithful(text, est, c, |caps| - 1);
    SliceIsFaithful(text, est, c);
    assert |caps| > 1 ==> !Fits(text, est, target, caps[0], 0);
  }

  /** Always ends with a faithful slice. The target is missed only by the character slice of cap
      zero or one, and met for every estimator that accepts those two; a first cut that fits is
      kept. */
  method ConvergeUnderCap(text: string, est: string -> nat, cap: nat, target: nat)
    returns (parts: Slice, c: nat, ghost caps: seq<nat>, ghost halves: seq<nat>)
    ensures Converged(text, est, target, caps, halves, parts, c) && caps[0] == (if cap == 0 then 1 else cap)
    ensures Faithful(parts, text)
    ensures est(parts.sliced) <= target || (c <= 1 && parts == CharHeadTail(text, c))
    ensures Reachable(text, est, target) ==> est(parts.sliced) <= target
    ensures var first := HeadTailSlice(text, est, if cap == 0 then 1 else cap);
            est(first.sliced) <= target ==> parts == first
  {
    var landed;
    parts, c, caps := AlignedSteps(text, est, if cap == 0 then 1 else cap, target);
    parts, c, landed, caps := CharSteps(text, est, parts, c, target, caps);
    halves := [];
    if !landed && c > 1 {
      parts, c, halves := Halve(text, est, c, target);
    }
    ConvergedLands(text, est, target, caps, halves, parts, c);
  }
}
