/** The message slot the hooks write their feedback to: the colours it is shown in, and the
    callbacks the hooks queue with `setTimeout` to clear it later. The delays are those of
    `MESSAGE_TIMEOUTS` (src/helpers/constants.js) and the default delay of `exitWithMessage`
    (src/helpers/exitWithMessage.js). There is no clock: a queued callback runs when the model
    fires it, in any order. */
module Feedback {

  /** The colours the hooks use for `messageColor`. */
  datatype Color = Red | Yellow | Green

  /** `MESSAGE_TIMEOUTS.SHORT` and `MESSAGE_TIMEOUTS.DEFAULT`. */
  const ShortTimeout: nat := 2000
  const DefaultTimeout: nat := 3000

  /** The default `delay` of `exitWithMessage`. */
  const ExitDelay: nat := 1500

  /** A queued `setTimeout` callback: `setMessage("")`, or `exitWithMessage`'s callback, which
      clears the message and then ends the process. */
  datatype Timer = Clear(delay: nat) | ClearAndExit(delay: nat)

  /** How an awaited action call settles: it resolves, or it rejects with an error whose
      `message` is given. */
  datatype Settled = Resolved | Rejected(error: string)
}
