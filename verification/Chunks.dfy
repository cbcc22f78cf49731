/** Bytes that come in chunks. */
module Chunks {
  type Bytes = seq<bv8>

  function Join(chunks: seq<Bytes>): Bytes {
    if chunks == [] then [] else Join(chunks[..|chunks| - 1]) + chunks[|chunks| - 1]
  }
}
