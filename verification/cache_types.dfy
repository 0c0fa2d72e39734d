/** Types shared by every part of the cache: the optional-value wrapper and the key type. */
module CacheTypes {

  datatype Option<+T> = None | Some(value: T)

  /** The key type of the cache: a 32-bit unsigned hash value. */
  newtype HashValue = x: int | 0 <= x < 0x1_0000_0000
}
