/** Small value wrappers shared by the client and the two pagination walks. */
module Wrappers {

  /** Python's "value or None". */
  datatype Option<+T> = None | Some(value: T)

  /** How a pagination walk ends: it returns the accumulated records, or it
      raises (the `raise Exception(...)` of the walk) and returns nothing. */
  datatype Fetched<+T> = Returned(items: seq<T>) | Raised(message: string)
}
