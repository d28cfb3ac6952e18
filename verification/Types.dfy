// The vocabulary shared by the models: optional values, bytes and cache keys.
module Types {

  datatype Option<+T> = None | Some(value: T)

  newtype byte = x: int | 0 <= x < 256

  type Body = seq<byte>

  /** A cache entry is named by the digest of "hash:range"; the digest is taken to be
      injective, so the pair itself is the name. */
  datatype Key = Key(hash: string, range: string)
}
