/** Value types shared by the cache engine model. */
module Types {

  /** A Go `byte`. */
  newtype byte = b: int | 0 <= b < 256

  /** `ByteView` holds an immutable byte slice; as a Dafny value it is just its bytes. */
  type ByteView = seq<byte>

  datatype Option<T> = None | Some(value: T)

  /** A Go `(T, error)` pair: `Err` carries the error's text. */
  datatype Result<T> = Ok(value: T) | Err(msg: string)

  /** What one lookup hands back to its caller, and the store's entries after it. */
  datatype Outcome = Outcome(result: Result<ByteView>, store: map<string, ByteView>)
}
