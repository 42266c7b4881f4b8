/** The failure kinds raised while loading a cache container, and the
    failure-compatible wrappers that carry them. Each kind stands for an
    exception the loader throws. */
module Errors {

  datatype Error =
    | EndOfStream          // a read ran past the end of the byte source
    | SeekBeforeBegin      // a seek aimed before offset 0
    | InvalidCacheFile     // the header's version field is not an accepted one
    | ArgumentOutOfRange   // a substring or byte count the runtime refuses
    | Unreachable(build: string)  // a build suffix the loader has never seen
    | SharedCacheAccess    // a shared or campaign container loaded as a primary one
    | IndexOutOfRange      // a group-tag index past the end of the group-tag table
    | Overflow             // an array allocated with a negative element count (the runtime's OverflowException)
    | DecryptionFailed     // the decryption collaborator returned no buffer

  datatype Option<+T> = None | Some(value: T)

  datatype Result<+T> = Success(value: T) | Failure(error: Error) {
    predicate IsFailure() { Failure? }

    function PropagateFailure<U>(): Result<U>
      requires Failure?
    {
      Failure(error)
    }

    function Extract(): T
      requires Success?
    {
      value
    }
  }

  /** The result of an operation that only changes state. */
  type Status = Result<()>

  const Done: Status := Success(())
}
