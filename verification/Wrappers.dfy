/** Optional values and the outcome of a call into a remote collaborator. */
module Wrappers {

  /** `T | null` / `T | undefined` in the source. */
  datatype Option<+T> = None | Some(value: T)

  /** The outcome of an awaited remote call: it either returned a value or
      its promise rejected (the call threw). */
  datatype Call<+T> = Returned(value: T) | Threw
}
