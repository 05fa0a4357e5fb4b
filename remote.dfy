/**
 * The shapes shared by every store: a nullable value and the `{data, error}`
 * result that each remote service call resolves to.
 */
module Remote {

  /** A JavaScript value that may be `null`. */
  datatype Option<T> = None | Some(value: T) {
    /** The `??` operator: the value, or `default` when it is null. */
    function GetOr(default: T): T {
      match this
      case Some(v) => v
      case None => default
    }
  }

  /** The error object every store keeps in its `error` slot: a message only. */
  datatype ErrorInfo = ErrorInfo(message: string)

  /**
   * What a service call resolves to. The stores test `error` first and only
   * then look at `data`, so nothing here forces exactly one of them to be set.
   */
  datatype Reply<T> = Reply(data: Option<T>, error: Option<ErrorInfo>)
}
