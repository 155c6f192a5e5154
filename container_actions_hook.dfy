/** The `handleAction` of `useContainerActions` (src/hooks/creation/useContainerActions.js):
    the same decision as the key handler's dispatcher, but with its own message slot, yellow
    for refusals and progress, no queued clears, the error's text in the failure message, and
    the `onAction` callback run through `safeCall` after a success. As there, the part after
    the `await` is `Settle`, run when the awaited call settles. */
module ContainerActionsHook {
  import opened Wrappers
  import opened JsString
  import opened Feedback
  import opened ContainerList
  import opened SafeCall
  import opened ActionHelpers

  /** `${actionLabel} container successful.` */
  function Success(action: string): string {
    action + " container successful."
  }

  /** `Failed to ${actionLabel.toLowerCase()} container: ${err.message}` */
  function FailureWith(action: string, error: string): string {
    "Failed to " + ToLower(action) + " container: " + error
  }

  /** The failure message carries the error's text at its end and the lower-cased label after
      its fixed opening, so both can be read back from it. */
  lemma FailureNamesError(action: string, error: string)
    ensures var m := FailureWith(action, error);
            m[..10] == "Failed to " && m[10..10 + |action|] == ToLower(action)
            && m[|m| - |error|..] == error
  {
    var m := FailureWith(action, error);
    assert m == "Failed to " + (ToLower(action) + (" container: " + error));
  }

  /** The hook's state: `message`, `messageColor`, the `onAction` callback it was given, the
      ids the action was called with, the labels of the calls it is awaiting, and how often
      `onAction` has been called. */
  class ActionFeedback {
    const onAction: Callee<(), ()>
    var message: string
    var color: Color
    var calls: seq<string>
    var inFlight: seq<string>
    var onActionCalls: nat

    constructor (onAction: Callee<(), ()>)
      ensures this.onAction == onAction
      ensures message == [] && color == Yellow && calls == [] && inFlight == [] && onActionCalls == 0
    {
      this.onAction := onAction;
      message := [];
      color := Yellow;
      calls := [];
      inFlight := [];
      onActionCalls := 0;
    }

    /** `handleAction({ actionFn, actionLabel, selected, stateCheck })` up to its `await`. */
    method HandleAction(containers: seq<Container>, action: string, selected: int, check: StateCheck)
      modifies this
      ensures onActionCalls == old(onActionCalls)
      ensures match Decide(containers, selected, check)
              case Skip =>
                message == old(message) && color == old(color)
                && calls == old(calls) && inFlight == old(inFlight)
              case Refuse(reason) =>
                message == reason && color == Yellow && calls == old(calls) && inFlight == old(inFlight)
              case Proceed(id) =>
                message == Progress(action) && color == Yellow
                && calls == old(calls) + [id] && inFlight == old(inFlight) + [action]
    {
      if !(0 <= selected < |containers|) {
        return;
      }
      var container := containers[selected];
      if check.Check? {
        var checkMsg := check.reason(container);
        if Truthy(checkMsg) {
          message := checkMsg.value;
          color := Yellow;
          return;
        }
      }
      message := Progress(action);
      color := Yellow;
      calls := calls + [container.id];
      inFlight := inFlight + [action];
    }

    /** The rest of `handleAction` once awaited call number `k` settles. */
    method Settle(k: nat, outcome: Settled)
      requires k < |inFlight|
      modifies this
      ensures inFlight == old(inFlight[..k] + inFlight[k + 1..]) && calls == old(calls)
      ensures outcome.Resolved? ==>
                message == Success(old(inFlight[k])) && color == Green
                && onActionCalls == old(onActionCalls) + (if onAction.Function? then 1 else 0)
      ensures outcome.Rejected? ==>
                message == FailureWith(old(inFlight[k]), outcome.error) && color == Red
                && onActionCalls == old(onActionCalls)
    {
      var action := inFlight[k];
      inFlight := inFlight[..k] + inFlight[k + 1..];
      match outcome
      case Resolved =>
        message := Success(action);
        color := Green;
        var r := SafeCall.SafeCall(onAction, ());
        onActionCalls := onActionCalls + |r.calls|;
      case Rejected(error) =>
        message := FailureWith(action, error);
        color := Red;
    }
  }
}
