/** The settings read by the core, fixed at their default values
    (src/config.py). Environment overrides are not modelled. */
module Config {

  /** Root of the per-topic vector databases. */
  const VECTOR_DB_PATH: string := "./data/vector_db"

  /** Root of the per-topic upload folders. */
  const UPLOADS_PATH: string := "./data/uploads"

  /** Characters per chunk and overlap, handed to the text splitter. */
  const CHUNK_SIZE: int := 1000
  const CHUNK_OVERLAP: int := 200

  /** Default retrieval fan-out. */
  const TOP_K_RESULTS: int := 5
}
