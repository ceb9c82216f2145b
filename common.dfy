/** Small value wrappers shared by the chat and plugin modules. */
module Common {

  /** A value that may be absent (`undefined` in the renderer). */
  datatype Option<T> = None | Some(value: T)

  /** How an awaited call settled: resolved with a value, or rejected with a reason. */
  datatype Reply<T> = Resolved(value: T) | Rejected(reason: string)

  /** A call that resolves without a value (`Promise<void>`). */
  type Settled = Reply<()>
}
