/**
 Bounded capture of one output stream: a frozen head, a rolling tail and a lazily opened
 spill file, fed chunk by chunk. Disk grants and disk errors are arbitrary inputs; what the
 grants add up to is the subject of `DiskQuota`.
 */
module Capture {
  import opened Bytes

  // ---------------------------------------------------------------- the stream as a whole

  /** The first `headBudget` bytes. */
  function HeadOf(s: seq<byte>, headBudget: nat): seq<byte> {
    if |s| <= headBudget then s else s[..headBudget]
  }

  /** The last `tailBudget` bytes of what follows the head. */
  function TailOf(s: seq<byte>, headBudget: nat, tailBudget: nat): seq<byte> {
    if |s| <= headBudget then []
    else if |s| <= headBudget + tailBudget then s[headBudget..]
    else s[|s| - tailBudget..]
  }

  // ---------------------------------------------------------------- one chunk at a time

  function HeadStep(head: seq<byte>, chunk: seq<byte>, headBudget: nat): seq<byte> {
    if |head| < headBudget
    then head + chunk[..Min(headBudget - |head|, |chunk|)]
    else head
  }

  function Rest(head: seq<byte>, chunk: seq<byte>, headBudget: nat): seq<byte> {
    if |head| < headBudget then chunk[Min(headBudget - |head|, |chunk|)..] else chunk
  }

  function Roll(tail: seq<byte>, rest: seq<byte>, tailBudget: nat): seq<byte> {
    var all := tail + rest;
    if rest != [] && |all| > tailBudget then all[|all| - tailBudget..] else all
  }

  function Min(a: nat, b: nat): nat {
    if a <= b then a else b
  }

  lemma HeadRefines(s: seq<byte>, chunk: seq<byte>, headBudget: nat)
    ensures HeadStep(HeadOf(s, headBudget), chunk, headBudget) == HeadOf(s + chunk, headBudget)
  {
    if |s| < headBudget {
      var n := Min(headBudget - |s|, |chunk|);
      assert s + chunk[..n] == (s + chunk)[..|s| + n];
      assert (s + chunk)[..|s + chunk|] == s + chunk;
    } else {
      assert s[..headBudget] == (s + chunk)[..headBudget];
      assert s[..|s|] == s;
    }
  }

  lemma TailRefines(s: seq<byte>, chunk: seq<byte>, headBudget: nat, tailBudget: nat)
    ensures Roll(TailOf(s, headBudget, tailBudget), Rest(HeadOf(s, headBudget), chunk, headBudget), tailBudget)
            == TailOf(s + chunk, headBudget, tailBudget)
  {
    RestIsSuffix(s, chunk, headBudget);
    if |s| <= headBudget {
      EarlyTail(s + chunk, Rest(HeadOf(s, headBudget), chunk, headBudget), headBudget, tailBudget);
    } else {
      LateTail(s, chunk, TailOf(s, headBudget, tailBudget), headBudget, tailBudget);
    }
  }

  lemma EarlyTail(all: seq<byte>, rest: seq<byte>, headBudget: nat, tailBudget: nat)
    requires rest == if |all| <= headBudget then [] else all[headBudget..]
    ensures Roll([], rest, tailBudget) == TailOf(all, headBudget, tailBudget)
  {
    assert [] + rest == rest;
    if |all| > headBudget { AllIsSuffix(all, rest, tailBudget); }
  }

  lemma LateTail(s: seq<byte>, chunk: seq<byte>, tail: seq<byte>, headBudget: nat, tailBudget: nat)
    requires |s| > headBudget && tail == TailOf(s, headBudget, tailBudget)
    ensures Roll(tail, chunk, tailBudget) == TailOf(s + chunk, headBudget, tailBudget)
  {
    TailIsSuffix(s, headBudget, tailBudget);
    TailIsSuffix(s + chunk, headBudget, tailBudget);
    RollIsSuffix(s, chunk, tail, tailBudget);
  }

  lemma TailIsSuffix(s: seq<byte>, headBudget: nat, tailBudget: nat)
    requires |s| > headBudget
    ensures var n := Min(tailBudget, |s| - headBudget); TailOf(s, headBudget, tailBudget) == s[|s| - n..]
  {
  }

  lemma RollIsSuffix(s: seq<byte>, chunk: seq<byte>, tail: seq<byte>, tailBudget: nat)
    requires |tail| <= |s| && tail == s[|s| - |tail|..] && |tail| <= tailBudget
    ensures var n := Min(tailBudget, |tail| + |chunk|); Roll(tail, chunk, tailBudget) == (s + chunk)[|s + chunk| - n..]
  {
    assert tail + chunk == (s + chunk)[|s| - |tail|..];
    AllIsSuffix(s + chunk, tail + chunk, tailBudget);
  }

  lemma RestIsSuffix(s: seq<byte>, chunk: seq<byte>, headBudget: nat)
    ensures var rest := Rest(HeadOf(s, headBudget), chunk, headBudget);
            rest == if |s| + |chunk| <= headBudget then []
                    else if |s| <= headBudget then (s + chunk)[headBudget..] else chunk
  {
  }

  /** Clipping a suffix of `s` to its last `n` bytes clips `s`. */
  lemma AllIsSuffix(s: seq<byte>, all: seq<byte>, n: nat)
    requires |all| <= |s| && all == s[|s| - |all|..]
    ensures |all| > n ==> all[|all| - n..] == s[|s| - n..]
  {
  }

  /** The in-memory view of a list of chunks, computed the way the source computes it. */
  function Fold(chunks: seq<seq<byte>>, headBudget: nat, tailBudget: nat): (seq<byte>, seq<byte>) {
    if chunks == [] then ([], [])
    else
      var (head, tail) := Fold(chunks[..|chunks| - 1], headBudget, tailBudget);
      var chunk := chunks[|chunks| - 1];
      (HeadStep(head, chunk, headBudget), Roll(tail, Rest(head, chunk, headBudget), tailBudget))
  }

  lemma {:induction false} FlattenLast(chunks: seq<seq<byte>>)
    requires chunks != []
    ensures Flatten(chunks) == Flatten(chunks[..|chunks| - 1]) + chunks[|chunks| - 1]
  {
    if |chunks| == 1 {
      assert chunks[1..] == [] && chunks[..0] == [];
    } else {
      FlattenLast(chunks[1..]);
      assert chunks[1..][..|chunks| - 2] == chunks[..|chunks| - 1][1..];
    }
  }

  /** Head and tail depend on the stream alone, not on how it was cut into chunks. */
  lemma {:induction false} ChunkingIsInvisible(chunks: seq<seq<byte>>, headBudget: nat, tailBudget: nat)
    ensures Fold(chunks, headBudget, tailBudget)
            == (HeadOf(Flatten(chunks), headBudget), TailOf(Flatten(chunks), headBudget, tailBudget))
  {
    if chunks != [] {
      var before := chunks[..|chunks| - 1];
      ChunkingIsInvisible(before, headBudget, tailBudget);
      FlattenLast(chunks);
      HeadRefines(Flatten(before), chunks[|chunks| - 1], headBudget);
      TailRefines(Flatten(before), chunks[|chunks| - 1], headBudget, tailBudget);
    }
  }

  // ---------------------------------------------------------------- the rendered view

  datatype View = Whole(bytes: seq<byte>) | Clipped(head: seq<byte>, omitted: nat, tail: seq<byte>)

  /** A view is honest about `s` when it shows all of it, or a true prefix and suffix with the
      exact, nonzero number of bytes between them. */
  ghost predicate Honest(v: View, s: seq<byte>) {
    match v
    case Whole(bytes) => bytes == s
    case Clipped(head, omitted, tail) =>
      omitted > 0 && exists gap: seq<byte> :: |gap| == omitted && s == head + gap + tail
  }

  lemma ClippedIsHonest(s: seq<byte>, headBudget: nat, tailBudget: nat)
    requires |s| > headBudget + tailBudget
    ensures Honest(Clipped(HeadOf(s, headBudget), |s| - headBudget - tailBudget, TailOf(s, headBudget, tailBudget)), s)
  {
    var gap := s[headBudget..|s| - tailBudget];
    assert s == HeadOf(s, headBudget) + gap + TailOf(s, headBudget, tailBudget);
  }

  lemma WholeIsHonest(s: seq<byte>, headBudget: nat, tailBudget: nat)
    requires |s| <= headBudget + tailBudget
    ensures HeadOf(s, headBudget) + TailOf(s, headBudget, tailBudget) == s
  {
  }

  // ---------------------------------------------------------------- the collector

  datatype Spill = Closed | Open(file: seq<byte>) | Poisoned

  datatype PushOutcome = Flowing | Capped

  /** What the surroundings answer during one push: the two reservations, the opening of the
      file with its prefix, and the append. */
  datatype Disk = Disk(grantPrefix: bool, opens: bool, grantChunk: bool, appends: bool)

  class BoundedCapture {
    const maxBytes: nat
    const headBudget: nat
    const tailBudget: nat
    var head: seq<byte>
    var tail: seq<byte>
    var total: nat
    var spill: Spill
    var capped: bool
    var reserved: nat              // reservations of the shared pool held by this stream
    ghost var accepted: seq<byte>  // every byte recorded so far
    ghost var refused: nat         // bytes of refused chunks
    ghost var onDisk: nat          // bytes in this stream's file, also after it was poisoned

    /** Head and tail are those of the recorded bytes. */
    ghost predicate Shows(s: seq<byte>)
      reads this
    {
      && headBudget + tailBudget == maxBytes
      && head == HeadOf(s, headBudget) && tail == TailOf(s, headBudget, tailBudget)
    }

    /** A healthy file is exactly `s`; reservations are exactly the bytes on disk. */
    ghost predicate DiskHolds(s: seq<byte>)
      reads this
    {
      && (spill == Closed ==> |s| <= maxBytes && onDisk == 0)
      && (spill.Open? ==> spill.file == s && onDisk == |s|)
      && reserved == onDisk
    }

    ghost predicate Valid()
      reads this
    {
      Shows(accepted) && DiskHolds(accepted) && total == |accepted| + refused && (refused > 0 ==> capped)
    }

    constructor (maxBytes: nat)
      ensures Valid() && this.maxBytes == maxBytes && headBudget == maxBytes / 2
      ensures accepted == [] && !capped && spill == Closed
    {
      this.maxBytes := maxBytes;
      headBudget := maxBytes / 2;
      tailBudget := maxBytes - maxBytes / 2;
      head, tail, total, spill, capped, reserved := [], [], 0, Closed, false, 0;
      accepted, refused, onDisk := [], 0, 0;
    }

    /** The first overflow opens the file with everything recorded so far. */
    method OpenOnOverflow(disk: Disk) returns (granted: bool)
      requires Shows(accepted) && DiskHolds(accepted) && spill == Closed
      modifies this`spill, this`reserved, this`onDisk
      ensures DiskHolds(accepted) && granted == disk.grantPrefix
      ensures spill == if !granted then Closed else if disk.opens then Open(accepted) else Poisoned
    {
      var prefix := |head| + |tail|;
      if !disk.grantPrefix {
        return false;
      }
      WholeIsHonest(accepted, headBudget, tailBudget);
      reserved := reserved + prefix;
      if disk.opens {
        spill := Open(head + tail);
        onDisk := prefix;
      } else {
        reserved := reserved - prefix;
        spill := Poisoned;
      }
      granted := true;
    }

    method AppendChunk(chunk: seq<byte>, disk: Disk) returns (granted: bool)
      requires DiskHolds(accepted) && spill.Open?
      modifies this`spill, this`reserved, this`onDisk
      ensures granted == disk.grantChunk && spill != Closed
      ensures !granted ==> spill == old(spill)
      ensures if granted then DiskHolds(accepted + chunk) else DiskHolds(accepted)
      ensures granted ==> (spill == Poisoned <==> !disk.appends)
    {
      if !disk.grantChunk {
        return false;
      }
      reserved := reserved + |chunk|;
      if disk.appends {
        spill := Open(spill.file + chunk);
        onDisk := onDisk + |chunk|;
      } else {
        reserved := reserved - |chunk|;
        spill := Poisoned;
      }
      granted := true;
    }

    method Remember(chunk: seq<byte>)
      requires Shows(accepted)
      modifies this`head, this`tail
      ensures Shows(accepted + chunk)
    {
      HeadRefines(accepted, chunk, headBudget);
      TailRefines(accepted, chunk, headBudget, tailBudget);
      var rest := chunk;
      if |head| < headBudget {
        var take := Min(headBudget - |head|, |rest|);
        head := head + rest[..take];
        rest := rest[take..];
      }
      if rest != [] {
        tail := tail + rest;
        if |tail| > tailBudget {
          tail := tail[|tail| - tailBudget..];
        }
      }
    }

    /** When a chunk that brings the stream to `size` bytes meets a refusal. */
    predicate Refuses(size: nat, disk: Disk)
      reads this
    {
      match spill
      case Poisoned => false
      case Open(_) => !disk.grantChunk
      case Closed => size > maxBytes && (!disk.grantPrefix || (disk.opens && !disk.grantChunk))
    }

    /** The disk half of a push: open on the first overflow, then append. */
    method SpillChunk(chunk: seq<byte>, disk: Disk) returns (granted: bool)
      requires Shows(accepted) && DiskHolds(accepted) && total >= |accepted| + |chunk|
      modifies this`spill, this`reserved, this`onDisk
      ensures granted == !old(Refuses(total, disk))
      ensures DiskHolds(if granted then accepted + chunk else accepted)
      ensures old(spill) == Poisoned ==> spill == Poisoned && onDisk == old(onDisk)
      ensures disk.opens && disk.appends && old(spill) != Poisoned ==> spill != Poisoned
    {
      if total > maxBytes && spill == Closed {
        granted := OpenOnOverflow(disk);
        if !granted {
          return;
        }
      }
      granted := true;
      if spill.Open? {
        granted := AppendChunk(chunk, disk);
      }
    }

    /** Every chunk is either recorded everywhere or refused everywhere; a healthy file is
        byte for byte what was recorded, and reservations are exactly the bytes on disk. */
    method Push(chunk: seq<byte>, disk: Disk) returns (outcome: PushOutcome)
      requires Valid()
      modifies this`head, this`tail, this`total, this`spill, this`capped, this`reserved,
               this`accepted, this`refused, this`onDisk
      ensures Valid() && total == old(total) + |chunk|
      ensures outcome == Capped <==> old(Refuses(total + |chunk|, disk))
      ensures outcome == Flowing ==> accepted == old(accepted) + chunk && capped == old(capped) && refused == old(refused)
      ensures outcome == Capped ==> accepted == old(accepted) && capped && head == old(head) && tail == old(tail)
      ensures old(spill) == Poisoned ==> spill == Poisoned && onDisk == old(onDisk)
      ensures disk.opens && disk.appends && old(spill) != Poisoned ==> spill != Poisoned
    {
      total := total + |chunk|;
      var granted := SpillChunk(chunk, disk);
      if !granted {
        capped := true;
        refused := refused + |chunk|;
        return Capped;
      }
      Remember(chunk);
      accepted := accepted + chunk;
      outcome := Flowing;
    }

    /** The view shown by `finish` and `peek`: everything recorded while the stream fits, and
        from then on its first and last bytes, both budgets full until a refusal. Until a
        refusal it is honest about the whole stream; afterwards the omitted count also covers
        the refused bytes. */
    method RenderView() returns (view: View, truncated: bool)
      requires Valid()
      ensures truncated <==> total > maxBytes
      ensures refused == 0 ==> Honest(view, accepted)
      ensures refused == 0 ==> (view.Whole? <==> |accepted| <= maxBytes)
      ensures view.Clipped? ==> view.omitted + |view.head| + |view.tail| == |accepted| + refused
      ensures view.Whole? ==> view.bytes == accepted
      ensures view.Clipped? ==>
                view.head == HeadOf(accepted, headBudget) && view.tail == TailOf(accepted, headBudget, tailBudget)
      ensures view.Clipped? ==> view.head <= accepted && view.omitted > 0
      ensures view.Clipped? && refused == 0 ==> |view.head| == headBudget && |view.tail| == tailBudget
    {
      truncated := total > maxBytes;
      if !truncated {
        WholeIsHonest(accepted, headBudget, tailBudget);
        view := Whole(head + tail);
      } else {
        view := Clipped(head, total - |head| - |tail|, tail);
        if refused == 0 {
          ClippedIsHonest(accepted, headBudget, tailBudget);
        }
      }
    }

    /** Pump a whole list of chunks, stopping at the first refusal. A stream that was never
        refused is recorded whole, whatever the chunking, and a healthy file of an
        overflowing stream is the stream. */
    method PushAll(chunks: seq<seq<byte>>, disks: seq<Disk>) returns (outcome: PushOutcome)
      requires Valid() && accepted == [] && !capped && spill == Closed && |disks| == |chunks|
      modifies this`head, this`tail, this`total, this`spill, this`capped, this`reserved,
               this`accepted, this`refused, this`onDisk
      ensures Valid() && (outcome == Flowing ==> refused == 0)
      ensures outcome == Flowing ==> (head, tail) == Fold(chunks, headBudget, tailBudget)
      ensures outcome == Flowing && spill.Open? ==> spill.file == Flatten(chunks)
      ensures outcome == Flowing && |Flatten(chunks)| > maxBytes ==> spill != Closed
    {
      var i := 0;
      assert chunks[..0] == [];
      while i < |chunks|
        invariant 0 <= i <= |chunks| && Valid() && refused == 0 && !capped
        invariant accepted == Flatten(chunks[..i])
      {
        outcome := Push(chunks[i], disks[i]);
        if outcome == Capped {
          return;
        }
        FlattenLast(chunks[..i + 1]);
        assert chunks[..i + 1][..i] == chunks[..i];
        i := i + 1;
      }
      assert chunks[..|chunks|] == chunks;
      ChunkingIsInvisible(chunks, headBudget, tailBudget);
      outcome := Flowing;
    }
  }
}
