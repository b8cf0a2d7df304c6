/**
 * What every list state holder shares: the way a load ends, the error text
 * a failed load leaves, and which branch of `onAction`'s `when` an action
 * reached. Each holder is a class with `items`, `isLoading` and `error`;
 * the asynchronous `loadItems` is split into a begin step (what runs before
 * the simulated delay) and a complete step (the rest of the `try`, the
 * `catch` and the `finally`).
 */
module ListContract {
  import opened Wrappers

  /** A thrown exception; only its (nullable) message is read. */
  datatype Exception = Exception(message: Option<string>)

  /** How the body of a load's `try` ends: it runs to the end, or it throws. */
  datatype LoadOutcome = Loaded | Failed(cause: Exception)

  /** Kotlin's template `"${e.message}"`, which prints a null message as "null". */
  function MessageText(e: Exception): string
  {
    e.message.GetOr("null")
  }

  /** The text a failed load puts in `error`: the holder's prefix, then the message. */
  function FailureMessage(prefix: string, e: Exception): (m: string)
    ensures |m| >= |prefix| && m[..|prefix|] == prefix
    ensures m[|prefix|..] == (if e.message.Some? then e.message.value else "null")
  {
    prefix + MessageText(e)
  }

  /**
   * The branch of `onAction`'s `when` that an action reached: one of the
   * cases the holder names, or the `else` that only logs. In the holders
   * other than the bill holder, every branch only logs.
   */
  datatype Branch = Handled | Unhandled
}
