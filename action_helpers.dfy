/** `handleAction` (src/helpers/actionHelpers.js), the dispatcher the key handler uses: look
    up the selected container, apply the optional precondition, call the action with the
    container's id and report progress, success or failure in the message slot, queuing a
    clear after each final message.

    The function is `async`. The part before `await` is `Handle` (and `MessageSlot.HandleAction`);
    it records the call it starts in `inFlight`, and `Settle` (and `MessageSlot.SettleCall`)
    runs the part after the `await` once that call settles. Calls may settle in any order,
    and nothing stops a second action from starting while one is in flight. */
module ActionHelpers {
  import opened Wrappers
  import opened JsString
  import opened Feedback
  import opened ContainerList

  /** The optional `stateCheck`: absent, or a function from the selected container to its
      answer (`None` for `false`). */
  datatype StateCheck = NoCheck | Check(reason: Container -> Option<string>)

  /** A check answer is truthy when it is a non-empty string. */
  predicate Truthy(answer: Option<string>) {
    answer.Some? && answer.value != []
  }

  /** What `handleAction` does before its `await`: return at once, refuse with the check's
      reason, or call the action with an id. */
  datatype Decision = Skip | Refuse(reason: string) | Proceed(id: string)

  /** The decision shared by both `handleAction` variants. */
  function Decide(containers: seq<Container>, selected: int, check: StateCheck): (d: Decision)
    // `containers[selected]` is undefined exactly when the index is out of range
    ensures d.Skip? <==> !(0 <= selected < |containers|)
    ensures d.Refuse? <==>
              0 <= selected < |containers| && check.Check? && Truthy(check.reason(containers[selected]))
    ensures d.Refuse? ==> d.reason == check.reason(containers[selected]).value && d.reason != []
    // the action is only ever called with the selected container's id
    ensures d.Proceed? ==> d.id == containers[selected].id
  {
    if !(0 <= selected < |containers|) then Skip
    else
      var c := containers[selected];
      if check.Check? && Truthy(check.reason(c)) then Refuse(check.reason(c).value)
      else Proceed(c.id)
  }

  /** `${actionLabel} container...`, shown while the call runs and again once it resolves. */
  function Progress(action: string): string {
    action + " container..."
  }

  /** `Failed to ${actionLabel.toLowerCase()} container.` */
  function Failure(action: string): string {
    "Failed to " + ToLower(action) + " container."
  }

  /** The message after a rejection always differs from the one after a resolution, whatever
      the label, and is not the progress message of any other action either: a failure ends
      in `r.`, a progress message in `..`. */
  lemma OutcomesDistinguishable(action: string, other: string)
    ensures Progress(action) != Failure(action)
    ensures Failure(action) != Progress(other)
  {
    var f, p := Failure(action), Progress(other);
    assert f[|f| - 2] == 'r';
    assert p[|p| - 2] == '.';
  }

  /** The message slot `handleAction` writes through `setMessage` and `setMessageColor`, the
      clears queued for it, the ids the action was called with, and the labels of the calls
      still awaited. */
  datatype Slot = Slot(message: string, color: Color, timers: seq<Timer>, calls: seq<string>,
                       inFlight: seq<string>)

  /** `handleAction(...)` up to its `await`. */
  function Handle(s: Slot, containers: seq<Container>, selected: int, action: string,
                  check: StateCheck): (r: Slot)
    ensures match Decide(containers, selected, check)
            case Skip => r == s
            case Refuse(reason) =>
              r == s.(message := reason, color := Red, timers := s.timers + [Clear(ShortTimeout)])
            case Proceed(id) =>
              r == s.(message := Progress(action), color := Green, calls := s.calls + [id],
                      inFlight := s.inFlight + [action])
  {
    match Decide(containers, selected, check)
    case Skip => s
    case Refuse(reason) =>
      s.(message := reason, color := Red, timers := s.timers + [Clear(ShortTimeout)])
    case Proceed(id) =>
      s.(message := Progress(action), color := Green, calls := s.calls + [id],
         inFlight := s.inFlight + [action])
  }

  /** The rest of `handleAction` once the awaited call number `k` settles. */
  function Settle(s: Slot, k: nat, outcome: Settled): (r: Slot)
    requires k < |s.inFlight|
    ensures r.inFlight == s.inFlight[..k] + s.inFlight[k + 1..] && r.calls == s.calls
    ensures r.timers == s.timers + [Clear(DefaultTimeout)]
    ensures outcome.Resolved? ==> r.message == Progress(s.inFlight[k]) && r.color == Green
    ensures outcome.Rejected? ==> r.message == Failure(s.inFlight[k]) && r.color == Red
  {
    var action := s.inFlight[k];
    var rest := s.inFlight[..k] + s.inFlight[k + 1..];
    var timers := s.timers + [Clear(DefaultTimeout)];
    match outcome
    case Resolved => Slot(Progress(action), Green, timers, s.calls, rest)
    case Rejected(_) => Slot(Failure(action), Red, timers, s.calls, rest)
  }

  /** `exitWithMessage({ setMessage, setMessageColor })` with its defaults. */
  function Exit(s: Slot): (r: Slot)
    ensures r == s.(message := "Exiting...", color := Yellow, timers := s.timers + [ClearAndExit(ExitDelay)])
  {
    s.(message := "Exiting...", color := Yellow, timers := s.timers + [ClearAndExit(ExitDelay)])
  }

  /** Queued callback number `k` runs: the message is cleared whatever it now says; the colour
      stays. */
  function Fire(s: Slot, k: nat): (r: Slot)
    requires k < |s.timers|
    ensures r == s.(message := [], timers := s.timers[..k] + s.timers[k + 1..])
  {
    s.(message := [], timers := s.timers[..k] + s.timers[k + 1..])
  }

  /** A missing container changes nothing and calls nothing; a refusal calls nothing. */
  lemma HandleWithoutCall(s: Slot, containers: seq<Container>, selected: int, action: string,
                          check: StateCheck)
    ensures !(0 <= selected < |containers|) ==> Handle(s, containers, selected, action, check) == s
    ensures Decide(containers, selected, check).Refuse? ==>
              Handle(s, containers, selected, action, check).calls == s.calls
  {
  }

  /** The action is called at most once per `handleAction`, and only with the selected
      container's id. */
  lemma HandleCallsSelected(s: Slot, containers: seq<Container>, selected: int, action: string,
                            check: StateCheck)
    ensures var r := Handle(s, containers, selected, action, check);
            |s.calls| <= |r.calls| <= |s.calls| + 1 && r.calls[..|s.calls|] == s.calls
            && (|r.calls| == |s.calls| + 1 ==>
                  0 <= selected < |containers| && r.calls[|s.calls|] == containers[selected].id)
  {
    var r := Handle(s, containers, selected, action, check);
    if Decide(containers, selected, check).Proceed? {
      assert r.calls[..|s.calls|] == s.calls;
    }
  }

  /** Every final message comes with exactly one queued clear: a refusal queues the short
      one, a settled call the default one, and the in-progress message none. */
  lemma OneClearPerFinalMessage(s: Slot, containers: seq<Container>, selected: int, action: string,
                                check: StateCheck, k: nat, outcome: Settled)
    ensures var r := Handle(s, containers, selected, action, check);
            (Decide(containers, selected, check).Refuse? <==> |r.timers| == |s.timers| + 1)
            && (r.timers == s.timers || r.timers == s.timers + [Clear(ShortTimeout)])
    ensures k < |s.inFlight| ==> Settle(s, k, outcome).timers == s.timers + [Clear(DefaultTimeout)]
  {
  }

  /** Clears are never cancelled, so a clear queued for an older message erases a newer one:
      a refused start queues its clear, a restart then shows its progress message, and when
      the first clear fires the slot is empty although the restart is still running. */
  lemma StaleClearErasesNewerMessage(s: Slot, c: Container, check: StateCheck)
    requires s.timers == [] && s.inFlight == []
    requires check.Check? && Truthy(check.reason(c))
    ensures var refused := Handle(s, [c], 0, "Starting", check);
            var running := Handle(refused, [c], 0, "Restarting", NoCheck);
            running.message == Progress("Restarting")
            && Fire(running, 0).message == [] && Fire(running, 0).inFlight == ["Restarting"]
  {
  }

  /** The slot as `useControls` creates it and `handleAction` writes to it. */
  class MessageSlot {
    var message: string
    var color: Color
    var timers: seq<Timer>
    var calls: seq<string>
    var inFlight: seq<string>

    function State(): Slot
      reads this
    {
      Slot(message, color, timers, calls, inFlight)
    }

    /** Empty and yellow, as `useState("")` and `useState("yellow")` start. */
    constructor ()
      ensures State() == Slot([], Yellow, [], [], [])
    {
      message := [];
      color := Yellow;
      timers := [];
      calls := [];
      inFlight := [];
    }

    method HandleAction(containers: seq<Container>, selected: int, action: string, check: StateCheck)
      modifies this
      ensures State() == Handle(old(State()), containers, selected, action, check)
    {
      if !(0 <= selected < |containers|) {
        return;
      }
      var c := containers[selected];
      if check.Check? && Truthy(check.reason(c)) {
        message := check.reason(c).value;
        color := Red;
        timers := timers + [Clear(ShortTimeout)];
        return;
      }
      message := Progress(action);
      color := Green;
      calls := calls + [c.id];
      inFlight := inFlight + [action];
    }

    method SettleCall(k: nat, outcome: Settled)
      requires k < |inFlight|
      modifies this
      ensures State() == Settle(old(State()), k, outcome)
    {
      var action := inFlight[k];
      inFlight := inFlight[..k] + inFlight[k + 1..];
      match outcome
      case Resolved =>
        message := Progress(action);
        color := Green;
        timers := timers + [Clear(DefaultTimeout)];
      case Rejected(_) =>
        message := Failure(action);
        color := Red;
        timers := timers + [Clear(DefaultTimeout)];
    }

    method ExitWithMessage()
      modifies this
      ensures State() == Exit(old(State()))
    {
      message := "Exiting...";
      color := Yellow;
      timers := timers + [ClearAndExit(ExitDelay)];
    }

    /** Runs queued callback number `k`; `exits` tells whether it ends the process. */
    method FireTimer(k: nat) returns (exits: bool)
      requires k < |timers|
      modifies this
      ensures State() == Fire(old(State()), k)
      ensures exits == old(timers[k]).ClearAndExit?
    {
      exits := timers[k].ClearAndExit?;
      message := [];
      timers := timers[..k] + timers[k + 1..];
    }
  }
}
