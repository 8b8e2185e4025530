/** Vocabulary shared by every module of the blob service. */
module Types {
  /** A sha256 content address. Hash collisions are outside the model: one digest, one content. */
  type Digest = nat

  /** A composed cache key: backend id, namespace and client key (see CacheKey). */
  type Key = string

  /** Names one database transaction, and afterwards the writer that still has to publish. */
  type Tid = nat

  datatype Option<+T> = None | Some(value: T)
}
