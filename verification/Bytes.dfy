/** Bytes, byte streams and optional values, shared by the other modules. */
module Bytes {
  datatype Option<+T> = None | Some(value: T)

  type byte = b: int | 0 <= b < 256

  const ESC: byte := 0x1b
  const BEL: byte := 0x07

  /** What introduces a control sequence. */
  const BRACKET: seq<byte> := [ESC, '[' as int]

  /** The stream a list of chunks spells out. */
  function Flatten(chunks: seq<seq<byte>>): seq<byte> {
    if chunks == [] then [] else Flatten(chunks[..|chunks| - 1]) + chunks[|chunks| - 1]
  }

  lemma FlattenAppend(chunks: seq<seq<byte>>, chunk: seq<byte>)
    ensures Flatten(chunks + [chunk]) == Flatten(chunks) + chunk
  {
  }
}
