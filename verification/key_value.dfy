/**
 * The device's key-value store (AsyncStorage) as the providers see it: every key
 * holds either nothing, a text that does not parse, or an already decoded value.
 */
module KeyValue {

  /** An optional value; also stands for TypeScript's `T | null`. */
  datatype Option<T> = None | Some(value: T)

  /**
   * What one key of the store yields once read and parsed. `Absent` covers both a
   * missing key and an empty string (the providers test the raw text for
   * truthiness); `Corrupt` is a text on which `JSON.parse` throws.
   */
  datatype Slot<T> = Absent | Corrupt | Present(value: T)

  /** The error a failed storage call rejects with. */
  datatype StorageError = WriteFailed

  /** Success or the error a failed operation rethrows to its caller. */
  datatype Outcome = Pass | Fail(error: StorageError)

  /** The slot left behind by a fire-and-forget write: the new value if it landed. */
  function AfterWrite<T>(before: Slot<T>, v: T, ok: bool): Slot<T>
  {
    if ok then Present(v) else before
  }
}
