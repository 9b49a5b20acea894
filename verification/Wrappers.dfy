/** Values that may be absent, and how calls on remote services end. */
module Wrappers {

  datatype Option<+T> = None | Some(value: T)

  /** A remote call succeeds, fails without effect, or takes effect and still reports an error. */
  datatype Reply = Fine | FailedBefore | FailedAfter
}
