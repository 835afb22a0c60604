/**
 * The interface to the remote engine connection (an `MHAConnection`), the
 * exceptions its calls and the message handler can raise, and the
 * exception policy of the `handle_conn_errors` decorator.
 */
module Engine {
  import opened Wrappers
  import opened Values

  /** The Python exception classes the bridge distinguishes. */
  datatype Fault =
    | TimeoutError
    | BrokenPipeError
    | ValueError      // includes json.JSONDecodeError
    | TypeError
    | AttributeError
    | IndexError
    | OtherError      // any other subclass of Exception

  /** The two exceptions the decorator treats as a dead connection. */
  predicate IsConnectionFault(f: Fault)
  {
    f == TimeoutError || f == BrokenPipeError
  }

  /**
   * What one `get_val`/`set_val` call on the connection does: return a value
   * or raise. The engine is not part of the model, so every result is
   * possible; the value returned by `set_val` is never used.
   */
  datatype EngineResult = Ok(value: Json) | Raised(fault: Fault)

  /** One call issued on the engine connection, in the order issued. */
  datatype EngineOp =
    | FindId(id: string)
    | Get(path: string)
    | Set(path: string, value: Json)
    | Reopen

  /**
   * What the decorator does with the exception (if any) that left the
   * wrapped handler: whether it attempts a reopen of the connection, and
   * which exception, if any, leaves the decorator itself.
   */
  datatype GuardResult = GuardResult(reopen: bool, escaped: Option<Fault>)

  /**
   * The intended policy of `handle_conn_errors`: a timeout or a broken pipe
   * leads to one reopen attempt; every other exception is logged and
   * swallowed; a normal return stays a normal return. Nothing escapes.
   *
   * As written, the decorator calls `func.__self__._reopen()`. `func` is the
   * plain undecorated function, which has no `__self__`, and `_reopen`
   * belongs to the connection object rather than to the handler; see
   * GuardAsWritten. This is the outcome the authors evidently intended.
   * Whether the reopen itself succeeds is not modelled.
   */
  function Guard(raised: Option<Fault>): (g: GuardResult)
    ensures g.escaped == None
    ensures g.reopen <==> raised.Some? && IsConnectionFault(raised.value)
  {
    match raised
    case None => GuardResult(false, None)
    case Some(f) =>
      if f == TimeoutError || f == BrokenPipeError then GuardResult(true, None)
      else GuardResult(false, None)
  }

  /**
   * `handle_conn_errors` as written: for a timeout or a broken pipe the
   * handler clause evaluates `func.__self__`, which raises AttributeError
   * out of the decorator before any reopen is attempted.
   */
  function GuardAsWritten(raised: Option<Fault>): (g: GuardResult)
    ensures !g.reopen
    ensures g.escaped.Some? <==> raised.Some? && IsConnectionFault(raised.value)
    ensures g.escaped.Some? ==> g.escaped.value == AttributeError
  {
    match raised
    case None => GuardResult(false, None)
    case Some(f) =>
      if f == TimeoutError || f == BrokenPipeError then GuardResult(false, Some(AttributeError))
      else GuardResult(false, None)
  }

  /**
   * The decorator as written and as intended agree on every outcome except
   * the two connection faults, where they differ in both respects.
   */
  lemma GuardDiffersOnlyOnConnectionFaults(raised: Option<Fault>)
    ensures Guard(raised) == GuardAsWritten(raised)
            <==> !(raised.Some? && IsConnectionFault(raised.value))
  {
  }
}
