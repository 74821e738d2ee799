/**
 The local blob backend as one caller sees it, and the encoding of blob ids.
 */
module BlobStore {
  import opened Bytes
  import opened Digits
  import opened Options

  // ---------------------------------------------------------------- ids

  const PREFIX := "sha256-"

  predicate IsHex(c: char) {
    '0' <= c <= '9' || 'a' <= c <= 'f'
  }

  function HexValue(c: char): (n: nat)
    requires IsHex(c)
    ensures n < 16
  {
    if c <= '9' then c as int - '0' as int else c as int - 'a' as int + 10
  }

  function Hex(d: seq<byte>): string {
    if d == [] then [] else [HexDigit(d[0] as int / 16), HexDigit(d[0] as int % 16)] + Hex(d[1..])
  }

  /** The inverse, on an even number of lowercase digits. */
  function Unhex(s: string): seq<byte>
    requires |s| % 2 == 0 && forall i :: 0 <= i < |s| ==> IsHex(s[i])
  {
    if s == [] then [] else [(HexValue(s[0]) * 16 + HexValue(s[1])) as byte] + Unhex(s[2..])
  }

  predicate WellFormed(id: string) {
    && |id| == |PREFIX| + 64 && id[..|PREFIX|] == PREFIX
    && forall i :: |PREFIX| <= i < |id| ==> IsHex(id[i])
  }

  function Parse(id: string): Option<string> {
    if WellFormed(id) then Some(id) else None
  }

  function FromDigest(d: seq<byte>): string {
    PREFIX + Hex(d)
  }

  function Bucket(id: string): string
    requires WellFormed(id)
  {
    id[|PREFIX|..|PREFIX| + 2]
  }

  lemma {:induction false} HexRoundTrip(d: seq<byte>)
    ensures |Hex(d)| == 2 * |d| && forall i :: 0 <= i < |Hex(d)| ==> IsHex(Hex(d)[i])
    ensures Unhex(Hex(d)) == d
  {
    if d != [] {
      HexRoundTrip(d[1..]);
      assert Hex(d)[2..] == Hex(d[1..]);
    }
  }

  lemma PairRoundTrip(a: char, b: char, v: byte)
    requires IsHex(a) && IsHex(b) && v as int == HexValue(a) * 16 + HexValue(b)
    ensures HexDigit(v as int / 16) == a && HexDigit(v as int % 16) == b
  {
  }

  lemma {:induction false} UnhexRoundTrip(s: string)
    requires |s| % 2 == 0 && forall i :: 0 <= i < |s| ==> IsHex(s[i])
    ensures |Unhex(s)| * 2 == |s| && Hex(Unhex(s)) == s
  {
    if s != [] {
      UnhexRoundTrip(s[2..]);
      PairRoundTrip(s[0], s[1], (HexValue(s[0]) * 16 + HexValue(s[1])) as byte);
      assert Unhex(s)[1..] == Unhex(s[2..]);
      assert s == [s[0], s[1]] + s[2..];
    }
  }

  /** Ids and 32-byte digests correspond one to one: every digest's id parses, no two digests
      share one, and the bucket is the first byte. */
  lemma DigestRoundTrip(d: seq<byte>, e: seq<byte>)
    requires |d| == |e| == 32
    ensures Parse(FromDigest(d)) == Some(FromDigest(d))
    ensures FromDigest(d) == FromDigest(e) ==> d == e
    ensures Bucket(FromDigest(d)) == Hex(d[..1])
  {
    HexRoundTrip(d);
    HexRoundTrip(e);
    var a, b := FromDigest(d), FromDigest(e);
    assert a[|PREFIX|..] == Hex(d) && b[|PREFIX|..] == Hex(e);
    assert a[..|PREFIX|] == PREFIX;
    assert Hex(d[..1]) == Hex(d)[..2];
  }

  /** How an id reads: the name of the digest and 64 digits. */
  lemma IdReads(d: seq<byte>)
    requires |d| == 32
    ensures FromDigest(d) == "sha256-" + Hex(d) && |FromDigest(d)| == 71
  {
    HexRoundTrip(d);
  }

  /** What parses is some digest's id. */
  lemma ParsedIsADigest(id: string) returns (d: seq<byte>)
    requires Parse(id).Some?
    ensures |d| == 32 && FromDigest(d) == id
  {
    var hex := id[|PREFIX|..];
    UnhexRoundTrip(hex);
    d := Unhex(hex);
    assert id == PREFIX + hex;
  }

  // ---------------------------------------------------------------- ranges

  datatype Read =
    | Content(bytes: seq<byte>)
    | NotFound
    | RangeOutOfBounds(offset: nat, len: nat, size: nat)

  /** The clamped slice; an offset at or past the end is an error, also for an empty blob. */
  function Range(bytes: seq<byte>, offset: nat, len: nat): Read {
    if offset >= |bytes| then RangeOutOfBounds(offset, len, |bytes|)
    else if offset + len <= |bytes| then Content(bytes[offset..offset + len])
    else Content(bytes[offset..])
  }

  /** Adjacent ranges tile: reading `a` bytes and then `b` more is reading `a + b`. */
  lemma RangesTile(bytes: seq<byte>, offset: nat, a: nat, b: nat)
    requires offset + a < |bytes|
    ensures Range(bytes, offset, a + b) == Content(Range(bytes, offset, a).bytes + Range(bytes, offset + a, b).bytes)
  {
    var end := if offset + a + b <= |bytes| then offset + a + b else |bytes|;
    assert bytes[offset..offset + a] + bytes[offset + a..end] == bytes[offset..end];
  }

  // ---------------------------------------------------------------- the backend

  datatype Put = Stored(id: string) | PutFailed

  /** What the file system does during one upload. `pieces` are the reads; a fault at a stage
      aborts it. */
  datatype Faults = Faults(staging: bool, directory: bool, lookup: bool, rename: bool, cleanup: bool)

  class LocalBackend {
    var blobs: map<string, seq<byte>>
    var staging: Option<seq<byte>>     // this upload's file under tmp/

    constructor ()
      ensures blobs == map[] && staging == None
    {
      blobs, staging := map[], None;
    }

    /** Read, hash and write piece by piece. */
    method Stage(pieces: seq<seq<byte>>, fail: bool) returns (hashed: seq<byte>, ok: bool)
      modifies this`staging
      ensures staging.Some? && ok == !fail
      ensures ok ==> hashed == Flatten(pieces) && staging == Some(hashed)
    {
      hashed := [];
      var file := [];
      var i := 0;
      while i < |pieces|
        invariant 0 <= i <= |pieces|
        invariant file == hashed && hashed + Flatten(pieces[i..]) == Flatten(pieces)
      {
        assert pieces[i..][1..] == pieces[i + 1..];
        hashed := hashed + pieces[i];
        file := file + pieces[i];
        i := i + 1;
      }
      staging := Some(file);
      ok := !fail;
    }

    /** An upload stores its bytes under their digest or changes nothing visible; an incumbent
        stays. */
    method PutContent(pieces: seq<seq<byte>>, hash: seq<byte> -> string, faults: Faults) returns (r: Put)
      modifies this
      ensures r == PutFailed <==>
                || faults.staging || faults.directory || faults.lookup
                || (faults.rename && hash(Flatten(pieces)) !in old(blobs))
      ensures r.Stored? ==> r.id == hash(Flatten(pieces))
      ensures r.Stored? ==> blobs == if r.id in old(blobs) then old(blobs) else old(blobs)[r.id := Flatten(pieces)]
      ensures r == PutFailed ==> blobs == old(blobs)
      ensures r.Stored? && faults.cleanup ==> staging == None
      ensures r == PutFailed && faults.cleanup ==> (staging == None <==> faults.staging || !faults.directory)
    {
      var hashed, ok := Stage(pieces, faults.staging);
      if !ok {
        if faults.cleanup { staging := None; }
        return PutFailed;
      }
      var id := hash(hashed);
      if faults.directory {
        return PutFailed;
      }
      if faults.lookup {
        if faults.cleanup { staging := None; }
        return PutFailed;
      }
      if id in blobs {
        if faults.cleanup { staging := None; }
        return Stored(id);
      }
      if faults.rename {
        if faults.cleanup { staging := None; }
        return PutFailed;
      }
      blobs := blobs[id := staging.value];
      staging := None;
      r := Stored(id);
    }

    method Get(id: string) returns (r: Read)
      ensures r == if id in blobs then Content(blobs[id]) else NotFound
    {
      r := if id in blobs then Content(blobs[id]) else NotFound;
    }

    method GetRange(id: string, offset: nat, len: nat) returns (r: Read)
      ensures r == if id in blobs then Range(blobs[id], offset, len) else NotFound
      ensures id in blobs && offset < |blobs[id]| ==>
                r.Content? && offset + |r.bytes| <= |blobs[id]| && r.bytes <= blobs[id][offset..]
                && (|r.bytes| == len || offset + |r.bytes| == |blobs[id]|)
    {
      if id !in blobs {
        return NotFound;
      }
      var size := |blobs[id]|;
      if offset >= size {
        return RangeOutOfBounds(offset, len, size);
      }
      var rest := blobs[id][offset..];
      r := Content(if len <= |rest| then rest[..len] else rest);
      assert len <= |rest| ==> rest[..len] == blobs[id][offset..offset + len];
    }

    /** Deleting is idempotent and touches nothing else. */
    method Remove(id: string)
      modifies this`blobs
      ensures blobs == old(blobs) - {id}
    {
      blobs := blobs - {id};
    }
  }
}
