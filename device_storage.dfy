/**
 * The device key-value store (`AsyncStorage`) as the client services use it:
 * each key holds nothing, a JSON document written by the service, or text
 * that cannot be read back (a rejected `getItem` or a `JSON.parse` error).
 * A document is kept as the value that was stringified, so writing and
 * reading it back is the identity.
 */
module DeviceStorage {

  datatype Slot<T> = Absent | Unreadable | Stored(doc: T)

  /** `data ? JSON.parse(data) : []` inside a `try` whose `catch` returns `[]`. */
  function ListOr<T>(s: Slot<seq<T>>): seq<T> {
    if s.Stored? then s.doc else []
  }
}
