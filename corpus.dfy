/**
 * The chunk records shared by the ingestion script and the retrieval engine
 * (the elements of `embeddings.json`). Optional fields are the ones the engine
 * reads with `dict.get`; `None` is a key that is absent.
 */
module Corpus {
  import opened Wrappers

  /** The fields of a chunk other than its embedding. */
  datatype ChunkInfo = ChunkInfo(
    id: string,
    title: Option<string>,
    section: Option<string>,
    source: Option<string>,
    persona: Option<string>,
    text: string)

  /** A stored chunk: its fields and its embedding vector. */
  datatype Chunk = Chunk(info: ChunkInfo, embedding: seq<real>)

  /** A retrieved chunk: the stored fields without the embedding, plus the score it was given. */
  datatype ScoredChunk = ScoredChunk(info: ChunkInfo, score: real)
}
