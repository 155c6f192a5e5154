/** `safeCall(fn, ...args)` (src/helpers/safeCall.js): call `fn` when it is a function and
    swallow whatever it throws. A JavaScript call either returns a value or throws; both are
    outcomes here, so "never throws" is a statement about the outcome `SafeCall` produces. */
module SafeCall {
  import opened Wrappers

  /** What evaluating a JavaScript call does: return a value or throw an error. */
  datatype Outcome<R> = Returned(value: R) | Threw(error: string)

  /** The `fn` argument: either not a function (`typeof fn !== 'function'`), or a function
      described by the outcome it has on each argument list. */
  datatype Callee<!A, R> = NotAFunction | Function(run: A -> Outcome<R>)

  /** The result of `safeCall`: its own outcome (`None` is `undefined`), the argument lists
      `fn` was called with, in order, and the errors it reported with
      `console.error('safeCall caught error:', e)`. */
  datatype SafeResult<A, R> = SafeResult(outcome: Outcome<Option<R>>, calls: seq<A>, logged: seq<string>)

  function SafeCall<A, R>(fn: Callee<A, R>, args: A): (r: SafeResult<A, R>)
    // safeCall itself never throws
    ensures r.outcome.Returned?
    // a non-function is not called and yields undefined
    ensures fn.NotAFunction? ==> r.calls == [] && r.outcome.value == None
    // a function is called exactly once, with the given arguments
    ensures fn.Function? ==> r.calls == [args]
    // a normal return is passed through; a throw becomes undefined
    ensures fn.Function? ==>
              (r.outcome.value.Some? <==> fn.run(args).Returned?)
    ensures fn.Function? && fn.run(args).Returned? ==>
              r.outcome.value == Some(fn.run(args).value)
    // the caught error, and only a caught error, is reported on the console
    ensures fn.NotAFunction? ==> r.logged == []
    ensures fn.Function? ==> (r.logged != [] <==> fn.run(args).Threw?)
    ensures fn.Function? && fn.run(args).Threw? ==> r.logged == [fn.run(args).error]
  {
    match fn
    case NotAFunction => SafeResult(Returned(None), [], [])
    case Function(run) =>
      match run(args)
      case Returned(v) => SafeResult(Returned(Some(v)), [args], [])
      case Threw(e) => SafeResult(Returned(None), [args], [e])
  }
}
