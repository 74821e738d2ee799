module Bytes {
  newtype byte = x: int | 0 <= x < 256

  /** A stream from the pieces it arrives in. */
  function Flatten(pieces: seq<seq<byte>>): seq<byte> {
    if pieces == [] then [] else pieces[0] + Flatten(pieces[1..])
  }
}
