/**
 Content-addressed uploads: any number of uploads stage, check and rename concurrently with
 each other and with deletes. Each file-system operation is one step; a rename is atomic. The
 digest is an arbitrary function of the bytes.
 */
module BlobProtocol {
  import opened Bytes

  type Id = string

  datatype Phase =
    | Fresh
    | Staging
    | Staged(id: Id)       // synced, digest taken
    | Placing(id: Id)      // bucket directory exists
    | Renaming(id: Id)     // the target was absent
    | Kept(id: Id)         // the target was present: the stored copy is authoritative
    | Committed(id: Id)
    | Returned(id: Id)
    | Failed

  /** `source` is everything the client sends, `hashed` what the hasher has been fed. */
  datatype Upload = Upload(source: seq<byte>, hashed: seq<byte>, phase: Phase)

  /** `tmp` is keyed by the upload that drew the random name. */
  datatype Store = Store(blobs: map<Id, seq<byte>>, tmp: map<nat, seq<byte>>, uploads: seq<Upload>)

  datatype Step =
    | Start
    | Chunk(n: nat)                                  // read, hash, write
    | StageFails(n: nat, written: nat, cleaned: bool)  // read, write, flush or sync error
    | Sync                                           // end of input
    | MakeDir
    | DirFails                                       // the staging file stays behind
    | SeePresent
    | SeeAbsent
    | SeeFails(cleaned: bool)
    | Rename
    | RenameFails(cleaned: bool)
    | Return(cleaned: bool)

  datatype Move = Act(who: nat, step: Step) | Delete(id: Id)

  predicate Can(s: Store, i: nat, step: Step) {
    && i < |s.uploads|
    && var u := s.uploads[i];
       match step
       case Start => u.phase == Fresh
       case Chunk(n) => u.phase == Staging && 0 < n && |u.hashed| + n <= |u.source|
       case StageFails(n, written, _) => u.phase == Staging && written <= n && |u.hashed| + n <= |u.source|
       case Sync => u.phase == Staging && |u.hashed| == |u.source|
       case MakeDir => u.phase.Staged?
       case DirFails => u.phase.Staged?
       case SeePresent => u.phase.Placing? && u.phase.id in s.blobs
       case SeeAbsent => u.phase.Placing? && u.phase.id !in s.blobs
       case SeeFails(_) => u.phase.Placing?
       case Rename => u.phase.Renaming? && i in s.tmp
       case RenameFails(_) => u.phase.Renaming?
       case Return(_) => u.phase.Kept? || u.phase.Committed?
  }

  function Next(u: Upload, step: Step, hash: seq<byte> -> Id): Upload {
    match step
    case Start => u.(phase := Staging)
    case Chunk(n) => if |u.hashed| + n <= |u.source| then u.(hashed := u.source[..|u.hashed| + n]) else u
    case Sync => u.(phase := Staged(hash(u.hashed)))
    case MakeDir => if u.phase.Staged? then u.(phase := Placing(u.phase.id)) else u
    case SeePresent => if u.phase.Placing? then u.(phase := Kept(u.phase.id)) else u
    case SeeAbsent => if u.phase.Placing? then u.(phase := Renaming(u.phase.id)) else u
    case Rename => if u.phase.Renaming? then u.(phase := Committed(u.phase.id)) else u
    case Return(_) => if u.phase.Kept? || u.phase.Committed? then u.(phase := Returned(u.phase.id)) else u
    case _ => u.(phase := Failed)
  }

  function Without(tmp: map<nat, seq<byte>>, i: nat, cleaned: bool): map<nat, seq<byte>> {
    if cleaned then tmp - {i} else tmp
  }

  function TmpAfter(tmp: map<nat, seq<byte>>, i: nat, u: Upload, step: Step): map<nat, seq<byte>> {
    match step
    case Start => tmp[i := []]
    case Chunk(n) =>
      if i in tmp && |u.hashed| + n <= |u.source| then tmp[i := tmp[i] + u.source[|u.hashed|..|u.hashed| + n]] else tmp
    case StageFails(n, written, cleaned) =>
      if i in tmp && |u.hashed| + written <= |u.source|
      then Without(tmp[i := tmp[i] + u.source[|u.hashed|..|u.hashed| + written]], i, cleaned) else tmp
    case Rename => tmp - {i}
    case SeeFails(cleaned) => Without(tmp, i, cleaned)
    case RenameFails(cleaned) => Without(tmp, i, cleaned)
    case Return(cleaned) => Without(tmp, i, cleaned)
    case _ => tmp
  }

  function BlobsAfter(s: Store, i: nat, step: Step): map<Id, seq<byte>>
    requires i < |s.uploads|
  {
    if step == Rename && s.uploads[i].phase.Renaming? && i in s.tmp
    then s.blobs[s.uploads[i].phase.id := s.tmp[i]]
    else s.blobs
  }

  predicate Enabled(s: Store, m: Move) {
    m.Delete? || Can(s, m.who, m.step)
  }

  function Apply(s: Store, m: Move, hash: seq<byte> -> Id): Store
    requires Enabled(s, m)
  {
    match m
    case Delete(id) => s.(blobs := s.blobs - {id})
    case Act(i, step) =>
      Store(BlobsAfter(s, i, step), TmpAfter(s.tmp, i, s.uploads[i], step),
            s.uploads[i := Next(s.uploads[i], step, hash)])
  }

  // ---------------------------------------------------------------- what every step keeps

  /** An upload in flight: its staging file holds exactly what was hashed, and once its digest
      is taken that is the whole source. */
  predicate UploadOk(u: Upload, i: nat, tmp: map<nat, seq<byte>>, hash: seq<byte> -> Id) {
    && u.hashed <= u.source
    && match u.phase
       case Staging => i in tmp && tmp[i] == u.hashed
       case Staged(id) => i in tmp && tmp[i] == u.source && id == hash(u.source)
       case Placing(id) => i in tmp && tmp[i] == u.source && id == hash(u.source)
       case Renaming(id) => i in tmp && tmp[i] == u.source && id == hash(u.source)
       case Kept(id) => i in tmp && id == hash(u.source)
       case Committed(id) => i !in tmp && id == hash(u.source)
       case Returned(id) => id == hash(u.source)
       case Fresh => u.hashed == []
       case Failed => true
  }

  ghost predicate UploadsOk(s: Store, hash: seq<byte> -> Id) {
    forall i :: 0 <= i < |s.uploads| ==> UploadOk(s.uploads[i], i, s.tmp, hash)
  }

  /** A blob is the complete source of some upload, under that source's own digest. */
  ghost predicate BlobOk(id: Id, bytes: seq<byte>, uploads: seq<Upload>, hash: seq<byte> -> Id) {
    id == hash(bytes) && exists i :: 0 <= i < |uploads| && uploads[i].source == bytes
  }

  ghost predicate BlobsOk(s: Store, hash: seq<byte> -> Id) {
    forall id :: id in s.blobs ==> BlobOk(id, s.blobs[id], s.uploads, hash)
  }

  ghost predicate Inv(s: Store, hash: seq<byte> -> Id) {
    UploadsOk(s, hash) && BlobsOk(s, hash)
  }

  lemma ActorStep(s: Store, i: nat, step: Step, hash: seq<byte> -> Id)
    requires Can(s, i, step) && UploadOk(s.uploads[i], i, s.tmp, hash)
    ensures UploadOk(Next(s.uploads[i], step, hash), i, TmpAfter(s.tmp, i, s.uploads[i], step), hash)
  {
    var u := s.uploads[i];
    if step.Chunk? {
      assert u.hashed + u.source[|u.hashed|..|u.hashed| + step.n] == u.source[..|u.hashed| + step.n];
    }
    if step.Sync? { assert u.hashed == u.source; }
  }

  lemma BystanderStep(s: Store, i: nat, step: Step, j: nat, hash: seq<byte> -> Id)
    requires Can(s, i, step) && j != i && j < |s.uploads| && UploadOk(s.uploads[j], j, s.tmp, hash)
    ensures UploadOk(s.uploads[j], j, TmpAfter(s.tmp, i, s.uploads[i], step), hash)
  {
    var after := TmpAfter(s.tmp, i, s.uploads[i], step);
    assert j in s.tmp ==> j in after && after[j] == s.tmp[j];
  }

  lemma SourcesStay(s: Store, m: Move, hash: seq<byte> -> Id)
    requires Enabled(s, m)
    ensures |Apply(s, m, hash).uploads| == |s.uploads|
    ensures forall i :: 0 <= i < |s.uploads| ==> Apply(s, m, hash).uploads[i].source == s.uploads[i].source
  {
  }

  lemma UploadsStep(s: Store, i: nat, step: Step, hash: seq<byte> -> Id)
    requires UploadsOk(s, hash) && Can(s, i, step)
    ensures UploadsOk(Apply(s, Act(i, step), hash), hash)
  {
    var t := Apply(s, Act(i, step), hash);
    forall j | 0 <= j < |t.uploads| ensures UploadOk(t.uploads[j], j, t.tmp, hash) {
      if j == i { ActorStep(s, i, step, hash); } else { BystanderStep(s, i, step, j, hash); }
    }
  }

  lemma BlobsStep(s: Store, m: Move, hash: seq<byte> -> Id)
    requires Inv(s, hash) && Enabled(s, m)
    ensures BlobsOk(Apply(s, m, hash), hash)
  {
    var t := Apply(s, m, hash);
    SourcesStay(s, m, hash);
    forall id | id in t.blobs ensures BlobOk(id, t.blobs[id], t.uploads, hash) {
      if id in s.blobs && t.blobs[id] == s.blobs[id] {
        var k :| 0 <= k < |s.uploads| && s.uploads[k].source == s.blobs[id];
        assert t.uploads[k].source == t.blobs[id];
      } else {
        assert m.Act? && UploadOk(s.uploads[m.who], m.who, s.tmp, hash);
        assert t.uploads[m.who].source == t.blobs[id];
      }
    }
  }

  lemma InvStep(s: Store, m: Move, hash: seq<byte> -> Id)
    requires Inv(s, hash) && Enabled(s, m)
    ensures Inv(Apply(s, m, hash), hash)
  {
    BlobsStep(s, m, hash);
    if m.Act? { UploadsStep(s, m.who, m.step, hash); }
  }

  // ---------------------------------------------------------------- every run

  ghost predicate Run(s: Store, moves: seq<Move>, t: Store, hash: seq<byte> -> Id)
    decreases |moves|
  {
    if moves == [] then s == t
    else Enabled(s, moves[0]) && Run(Apply(s, moves[0], hash), moves[1..], t, hash)
  }

  /** Nothing stored, nothing staged, nobody started. */
  predicate Initial(s: Store) {
    s.blobs == map[] && s.tmp == map[] && forall i :: 0 <= i < |s.uploads| ==> s.uploads[i].phase == Fresh && s.uploads[i].hashed == []
  }

  lemma {:induction false} InvRun(s: Store, moves: seq<Move>, t: Store, hash: seq<byte> -> Id)
    requires Inv(s, hash) && Run(s, moves, t, hash)
    ensures Inv(t, hash)
    decreases |moves|
  {
    if moves != [] {
      InvStep(s, moves[0], hash);
      InvRun(Apply(s, moves[0], hash), moves[1..], t, hash);
    }
  }

  /** Over every interleaving of uploads, failures and deletes: whatever is visible under
      `blobs/` is one upload's complete content and hashes to its own id. */
  lemma BlobsAreWhole(s: Store, moves: seq<Move>, t: Store, hash: seq<byte> -> Id, id: Id)
    requires Initial(s) && Run(s, moves, t, hash) && id in t.blobs
    ensures hash(t.blobs[id]) == id
    ensures exists i :: 0 <= i < |t.uploads| && t.uploads[i].source == t.blobs[id]
  {
    InvRun(s, moves, t, hash);
    assert BlobOk(id, t.blobs[id], t.uploads, hash);
  }

  // ---------------------------------------------------------------- reading back

  /** No two of the uploads collide. */
  ghost predicate CollisionFree(uploads: seq<Upload>, hash: seq<byte> -> Id) {
    forall i, j :: 0 <= i < |uploads| && 0 <= j < |uploads| && hash(uploads[i].source) == hash(uploads[j].source)
                   ==> uploads[i].source == uploads[j].source
  }

  /** The moment an upload's content is known to be stored: it saw the target, or renamed. */
  predicate CommitsBy(step: Step) {
    step == SeePresent || step == Rename
  }

  lemma CommitStores(s: Store, i: nat, step: Step, hash: seq<byte> -> Id)
    requires Inv(s, hash) && Can(s, i, step) && CommitsBy(step) && CollisionFree(s.uploads, hash)
    ensures var t := Apply(s, Act(i, step), hash);
            var id := hash(s.uploads[i].source);
            id in t.blobs && t.blobs[id] == s.uploads[i].source
  {
    assert UploadOk(s.uploads[i], i, s.tmp, hash);
    if step == SeePresent {
      var id := s.uploads[i].phase.id;
      assert BlobOk(id, s.blobs[id], s.uploads, hash);
      var k :| 0 <= k < |s.uploads| && s.uploads[k].source == s.blobs[id];
      assert hash(s.uploads[k].source) == hash(s.uploads[i].source);
    }
  }

  lemma StaysStored(s: Store, m: Move, i: nat, hash: seq<byte> -> Id)
    requires Inv(s, hash) && Enabled(s, m) && CollisionFree(s.uploads, hash) && i < |s.uploads|
    requires var id := hash(s.uploads[i].source);
             id in s.blobs && s.blobs[id] == s.uploads[i].source && m != Delete(id)
    ensures var t := Apply(s, m, hash);
            var id := hash(s.uploads[i].source);
            id in t.blobs && t.blobs[id] == s.uploads[i].source
    ensures CollisionFree(Apply(s, m, hash).uploads, hash)
  {
    SourcesStay(s, m, hash);
    if m.Act? { assert UploadOk(s.uploads[m.who], m.who, s.tmp, hash); }
  }

  lemma {:induction false} StoredUntilDeleted(s: Store, moves: seq<Move>, t: Store, i: nat, hash: seq<byte> -> Id)
    requires Inv(s, hash) && Run(s, moves, t, hash) && CollisionFree(s.uploads, hash) && i < |s.uploads|
    requires var id := hash(s.uploads[i].source);
             id in s.blobs && s.blobs[id] == s.uploads[i].source && Delete(id) !in moves
    ensures var id := hash(s.uploads[i].source);
            id in t.blobs && t.blobs[id] == s.uploads[i].source
    decreases |moves|
  {
    if moves != [] {
      assert moves[0] in moves;
      InvStep(s, moves[0], hash);
      SourcesStay(s, moves[0], hash);
      StaysStored(s, moves[0], i, hash);
      StoredUntilDeleted(Apply(s, moves[0], hash), moves[1..], t, i, hash);
    }
  }

  /** From its commit on, an upload's id reads back its bytes until that id is deleted, whatever
      else goes on. */
  lemma CommittedReadsBack(s: Store, before: seq<Move>, mid: Store, i: nat, step: Step, after: seq<Move>, t: Store,
                           hash: seq<byte> -> Id)
    requires Initial(s) && Run(s, before, mid, hash) && CollisionFree(mid.uploads, hash)
    requires Can(mid, i, step) && CommitsBy(step) && Run(Apply(mid, Act(i, step), hash), after, t, hash)
    requires Delete(hash(mid.uploads[i].source)) !in after
    ensures var id := hash(mid.uploads[i].source);
            id in t.blobs && t.blobs[id] == mid.uploads[i].source
  {
    InvRun(s, before, mid, hash);
    CommitStores(mid, i, step, hash);
    InvStep(mid, Act(i, step), hash);
    SourcesStay(mid, Act(i, step), hash);
    StoredUntilDeleted(Apply(mid, Act(i, step), hash), after, t, i, hash);
  }

  /** The upload that moves commits to `id`: it sees the target there, or renames onto it. */
  predicate CommitsTo(s: Store, m: Move, id: Id) {
    && m.Act? && m.who < |s.uploads| && CommitsBy(m.step)
    && (s.uploads[m.who].phase == Placing(id) || s.uploads[m.who].phase == Renaming(id))
  }

  /** Some commit to `id` in this run has no later delete of it. */
  ghost predicate LiveCommit(s: Store, moves: seq<Move>, id: Id, hash: seq<byte> -> Id)
    decreases |moves|
  {
    moves != [] && Enabled(s, moves[0]) &&
    ((CommitsTo(s, moves[0], id) && Delete(id) !in moves[1..]) || LiveCommit(Apply(s, moves[0], hash), moves[1..], id, hash))
  }

  lemma VisibleStep(s: Store, m: Move, id: Id, hash: seq<byte> -> Id)
    requires Enabled(s, m)
    ensures id in Apply(s, m, hash).blobs <==> m != Delete(id) && (id in s.blobs || CommitsTo(s, m, id))
  {
  }

  lemma {:induction false} VisibleFrom(s: Store, moves: seq<Move>, t: Store, id: Id, hash: seq<byte> -> Id)
    requires Run(s, moves, t, hash)
    ensures id in t.blobs <==> LiveCommit(s, moves, id, hash) || (id in s.blobs && Delete(id) !in moves)
    decreases |moves|
  {
    if moves != [] {
      assert moves == [moves[0]] + moves[1..];
      VisibleStep(s, moves[0], id, hash);
      VisibleFrom(Apply(s, moves[0], hash), moves[1..], t, id, hash);
    }
  }

  /** Exactly when an id is visible: some commit to it has no later delete of it. */
  lemma VisibleIff(s: Store, moves: seq<Move>, t: Store, id: Id, hash: seq<byte> -> Id)
    requires Initial(s) && Run(s, moves, t, hash)
    ensures id in t.blobs <==> LiveCommit(s, moves, id, hash)
  {
    VisibleFrom(s, moves, t, id, hash);
  }

  /** "Until deleted" counts from the commit, not from the return: a delete that slips in
      between leaves the caller with an id that reads back nothing. */
  lemma ReturnCanDangle(s: Store, i: nat, step: Step, hash: seq<byte> -> Id)
    requires Inv(s, hash) && Can(s, i, step) && CommitsBy(step)
    ensures var id := hash(s.uploads[i].source);
            exists t :: Run(s, [Act(i, step), Delete(id), Act(i, Return(true))], t, hash)
                        && i < |t.uploads| && t.uploads[i].phase == Returned(id) && id !in t.blobs
  {
    assert UploadOk(s.uploads[i], i, s.tmp, hash);
    var id := hash(s.uploads[i].source);
    var a, b, c := Act(i, step), Delete(id), Act(i, Return(true));
    var s1 := Apply(s, a, hash);
    var s2 := Apply(s1, b, hash);
    var t := Apply(s2, c, hash);
    assert Run(t, [], t, hash);
    assert [c][1..] == [] && [b, c][1..] == [c] && [a, b, c][1..] == [b, c];
    assert Run(s2, [c], t, hash);
    assert Run(s1, [b, c], t, hash);
    assert Run(s, [a, b, c], t, hash);
  }

  // ---------------------------------------------------------------- staging files

  /** The one failure that does not try to remove its staging file: creating the bucket
      directory. The whole content stays under `tmp/` for good. */
  lemma DirFailureLeaks(s: Store, i: nat, moves: seq<Move>, t: Store, hash: seq<byte> -> Id)
    requires Inv(s, hash) && Can(s, i, DirFails) && Run(Apply(s, Act(i, DirFails), hash), moves, t, hash)
    ensures i in t.tmp && t.tmp[i] == s.uploads[i].source
  {
    assert UploadOk(s.uploads[i], i, s.tmp, hash);
    LeakStays(Apply(s, Act(i, DirFails), hash), moves, t, i, hash);
  }

  /** The moves that end an upload and leave its staging file behind: a failed bucket directory,
      and a removal that fails while the file is still there. */
  predicate Leaves(s: Store, m: Move) {
    m.Act? && m.who < |s.uploads| &&
    match m.step
    case DirFails => true
    case StageFails(_, _, cleaned) => !cleaned
    case SeeFails(cleaned) => !cleaned
    case RenameFails(cleaned) => !cleaned
    case Return(cleaned) => !cleaned && s.uploads[m.who].phase.Kept?
    case _ => false
  }

  /** Some move of this run leaves a staging file behind. */
  ghost predicate MeetsLeak(s: Store, moves: seq<Move>, hash: seq<byte> -> Id)
    decreases |moves|
  {
    moves != [] && Enabled(s, moves[0]) && (Leaves(s, moves[0]) || MeetsLeak(Apply(s, moves[0], hash), moves[1..], hash))
  }

  ghost predicate Ended(u: Upload) {
    u.phase == Failed || u.phase.Returned?
  }

  /** Every file under `tmp/` belongs to an upload still under way. */
  ghost predicate NoLeak(s: Store) {
    forall i :: i in s.tmp ==> i < |s.uploads| && !Ended(s.uploads[i])
  }

  lemma TidyStep(s: Store, m: Move, hash: seq<byte> -> Id)
    requires NoLeak(s) && UploadsOk(s, hash) && Enabled(s, m) && !Leaves(s, m)
    ensures NoLeak(Apply(s, m, hash))
  {
    if m.Act? { assert UploadOk(s.uploads[m.who], m.who, s.tmp, hash); }
  }

  /** An ended upload never moves again, so a staging file it left behind stays for good. */
  lemma {:induction false} LeakStays(s: Store, moves: seq<Move>, t: Store, i: nat, hash: seq<byte> -> Id)
    requires Run(s, moves, t, hash) && i < |s.uploads| && Ended(s.uploads[i]) && i in s.tmp
    ensures i < |t.uploads| && Ended(t.uploads[i]) && i in t.tmp && t.tmp[i] == s.tmp[i]
    decreases |moves|
  {
    if moves != [] { LeakStays(Apply(s, moves[0], hash), moves[1..], t, i, hash); }
  }

  lemma {:induction false} NoLeakFrom(s: Store, moves: seq<Move>, t: Store, hash: seq<byte> -> Id)
    requires NoLeak(s) && Inv(s, hash) && Run(s, moves, t, hash)
    ensures NoLeak(t) <==> !MeetsLeak(s, moves, hash)
    decreases |moves|
  {
    if moves != [] {
      var next := Apply(s, moves[0], hash);
      InvStep(s, moves[0], hash);
      if Leaves(s, moves[0]) {
        LeakOf(s, moves[0].who, moves[0].step, hash);
        LeakStays(next, moves[1..], t, moves[0].who, hash);
      } else {
        TidyStep(s, moves[0], hash);
        NoLeakFrom(next, moves[1..], t, hash);
      }
    }
  }

  lemma LeakOf(s: Store, i: nat, step: Step, hash: seq<byte> -> Id)
    requires UploadsOk(s, hash) && Can(s, i, step) && Leaves(s, Act(i, step))
    ensures var next := Apply(s, Act(i, step), hash);
            i < |next.uploads| && Ended(next.uploads[i]) && i in next.tmp
  {
    assert UploadOk(s.uploads[i], i, s.tmp, hash);
  }

  /** Over every run, `tmp/` holds files of uploads still under way and nothing else if and only if
      no bucket directory failed and no removal failed while its file was there. */
  lemma TmpIsCleanIff(s: Store, moves: seq<Move>, t: Store, hash: seq<byte> -> Id)
    requires Initial(s) && Run(s, moves, t, hash)
    ensures NoLeak(t) <==> !MeetsLeak(s, moves, hash)
  {
    NoLeakFrom(s, moves, t, hash);
  }

  // ---------------------------------------------------------------- an upload that is let alone

  lemma {:induction false} RunThen(s: Store, moves: seq<Move>, t: Store, m: Move, hash: seq<byte> -> Id)
    requires Run(s, moves, t, hash) && Enabled(t, m)
    ensures Run(s, moves + [m], Apply(t, m, hash), hash)
    decreases |moves|
  {
    if moves == [] {
      assert [m][1..] == [];
    } else {
      assert (moves + [m])[1..] == moves[1..] + [m];
      RunThen(Apply(s, moves[0], hash), moves[1..], t, m, hash);
    }
  }

  /** One move further. */
  lemma Then(s: Store, moves: seq<Move>, t: Store, m: Move, hash: seq<byte> -> Id) returns (more: seq<Move>, u: Store)
    requires Run(s, moves, t, hash) && Enabled(t, m)
    ensures more == moves + [m] && u == Apply(t, m, hash) && Run(s, more, u, hash)
  {
    RunThen(s, moves, t, m, hash);
    more, u := moves + [m], Apply(t, m, hash);
  }

  /** This store with upload `i` at another phase, all of it hashed. */
  function At(s: Store, i: nat, phase: Phase): Store
    requires i < |s.uploads|
  {
    s.(uploads := s.uploads[i := s.uploads[i].(hashed := s.uploads[i].source, phase := phase)])
  }

  /** Up to the digest: the content is staged whole. */
  lemma StageRuns(s: Store, i: nat, hash: seq<byte> -> Id) returns (moves: seq<Move>, t: Store)
    requires i < |s.uploads| && s.uploads[i].phase == Fresh && s.uploads[i].hashed == []
    ensures Run(s, moves, t, hash)
    ensures t == At(s, i, Staged(hash(s.uploads[i].source))).(tmp := s.tmp[i := s.uploads[i].source])
  {
    var source := s.uploads[i].source;
    moves, t := Then(s, [], s, Act(i, Start), hash);
    if source != [] {
      moves, t := Then(s, moves, t, Act(i, Chunk(|source|)), hash);
      assert source[0..|source|] == source && source[..|source|] == source && [] + source == source;
    }
    moves, t := Then(s, moves, t, Act(i, Sync), hash);
  }

  /** The whole upload: afterwards its bytes are stored under their digest, unless something was
      there already, which stays; nothing is left under `tmp/` and nothing else has changed. */
  lemma UploadRuns(s: Store, i: nat, hash: seq<byte> -> Id) returns (moves: seq<Move>, t: Store)
    requires i < |s.uploads| && s.uploads[i].phase == Fresh && s.uploads[i].hashed == [] && i !in s.tmp
    ensures Run(s, moves, t, hash)
    ensures var id := hash(s.uploads[i].source);
            t == At(s, i, Returned(id)).(blobs := if id in s.blobs then s.blobs else s.blobs[id := s.uploads[i].source])
  {
    moves, t := StageRuns(s, i, hash);
    if hash(s.uploads[i].source) in s.blobs {
      moves, t := KeepRuns(s, moves, t, i, hash);
    } else {
      moves, t := StoreRuns(s, moves, t, i, hash);
    }
    assert s.tmp[i := s.uploads[i].source] - {i} == s.tmp;
  }

  /** From the digest on, something being there already. */
  lemma KeepRuns(s: Store, before: seq<Move>, at: Store, i: nat, hash: seq<byte> -> Id) returns (moves: seq<Move>, t: Store)
    requires Run(s, before, at, hash) && i < |at.uploads| && at.uploads[i].phase.Staged? && at.uploads[i].phase.id in at.blobs
    ensures Run(s, moves, t, hash)
    ensures t == at.(uploads := at.uploads[i := at.uploads[i].(phase := Returned(at.uploads[i].phase.id))], tmp := at.tmp - {i})
  {
    moves, t := Then(s, before, at, Act(i, MakeDir), hash);
    moves, t := Then(s, moves, t, Act(i, SeePresent), hash);
    moves, t := Then(s, moves, t, Act(i, Return(true)), hash);
  }

  /** From the digest on, nothing being there. */
  lemma StoreRuns(s: Store, before: seq<Move>, at: Store, i: nat, hash: seq<byte> -> Id) returns (moves: seq<Move>, t: Store)
    requires Run(s, before, at, hash) && i < |at.uploads| && at.uploads[i].phase.Staged? && at.uploads[i].phase.id !in at.blobs
    requires i in at.tmp
    ensures Run(s, moves, t, hash)
    ensures t == at.(uploads := at.uploads[i := at.uploads[i].(phase := Returned(at.uploads[i].phase.id))], tmp := at.tmp - {i},
                     blobs := at.blobs[at.uploads[i].phase.id := at.tmp[i]])
  {
    moves, t := Then(s, before, at, Act(i, MakeDir), hash);
    moves, t := Then(s, moves, t, Act(i, SeeAbsent), hash);
    moves, t := Then(s, moves, t, Act(i, Rename), hash);
    moves, t := Then(s, moves, t, Act(i, Return(true)), hash);
  }

  /** A rename that fails, and one that cannot even come to its bucket: neither stores anything, and
      only the second leaves the content behind. */
  lemma FailedUploads(s: Store, i: nat, hash: seq<byte> -> Id) returns (a: seq<Move>, t: Store, b: seq<Move>, u: Store)
    requires i < |s.uploads| && s.uploads[i].phase == Fresh && s.uploads[i].hashed == [] && i !in s.tmp
    requires hash(s.uploads[i].source) !in s.blobs
    ensures Run(s, a, t, hash) && t == At(s, i, Failed)
    ensures Run(s, b, u, hash) && u == At(s, i, Failed).(tmp := s.tmp[i := s.uploads[i].source])
  {
    a, t := StageRuns(s, i, hash);
    b, u := Then(s, a, t, Act(i, DirFails), hash);
    a, t := Then(s, a, t, Act(i, MakeDir), hash);
    a, t := Then(s, a, t, Act(i, SeeAbsent), hash);
    a, t := Then(s, a, t, Act(i, RenameFails(true)), hash);
    assert t.tmp == s.tmp;
  }
}
