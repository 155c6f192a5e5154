/** The key handler of the dashboard (src/hooks/useControls.js): arrow keys move the
    selection round the list, `q` leaves, `i`, `p` and `r` start, stop and restart the
    selected container through `handleAction`, and `l` opens its log view, which `q` or
    escape closes.

    The log stream is a call into the Docker client: `Controls.HandleInput` records the id it
    was requested for, and its callbacks are `Controls.OnData` and `Controls.OnError`, run by
    whoever drives the model. The hook never stores the stream it opens, so the stored ref
    stays empty and closing the view destroys nothing; the stream keeps delivering. */
module Controls {
  import opened Wrappers
  import opened Feedback
  import opened ContainerList
  import opened ActionHelpers
  import opened LogLines

  /** The keys of `useInput`'s `key` argument the handler reads. */
  datatype Key = Key(upArrow: bool, downArrow: bool, escape: bool)

  /** The up-arrow update of `selected`: one up, from the top to the bottom. */
  function Up(i: nat, total: nat): (r: nat)
    requires total > 0
    ensures i == 0 ==> r == total - 1
    ensures i > 0 ==> r + 1 == i
  {
    if i == 0 then total - 1 else i - 1
  }

  /** The down-arrow update of `selected`: one down, from the bottom to the top. */
  function Down(i: nat, total: nat): (r: nat)
    requires total > 0
    ensures i == total - 1 ==> r == 0
    ensures i != total - 1 ==> r == i + 1
  {
    if i == total - 1 then 0 else i + 1
  }

  /** Both arrow updates, in the order the handler queues them; with no containers the
      selection does not move. */
  function Navigate(i: nat, total: nat, key: Key): (r: nat)
    ensures total == 0 ==> r == i
    ensures !key.upArrow && !key.downArrow ==> r == i
  {
    var afterUp := if key.upArrow && total > 0 then Up(i, total) else i;
    if key.downArrow && total > 0 then Down(afterUp, total) else afterUp
  }

  /** A selection inside the list stays inside it, and up and down undo each other. */
  lemma NavigationWraps(i: nat, total: nat)
    requires i < total
    ensures Up(i, total) < total && Down(i, total) < total
    ensures Down(Up(i, total), total) == i && Up(Down(i, total), total) == i
  {
  }

  /** `n` presses of the down arrow. */
  function DownTimes(i: nat, n: nat, total: nat): (r: nat)
    requires total > 0
    ensures i < total ==> r < total
  {
    if n == 0 then i else Down(DownTimes(i, n - 1, total), total)
  }

  /** Below the bottom, `n` presses of the down arrow move `n` places. */
  lemma {:induction false} DownTimesWithin(i: nat, n: nat, total: nat)
    requires i + n < total
    ensures DownTimes(i, n, total) == i + n
  {
    if n > 0 {
      DownTimesWithin(i, n - 1, total);
    }
  }

  /** Presses of the down arrow compose. */
  lemma {:induction false} DownTimesCompose(i: nat, a: nat, b: nat, total: nat)
    requires total > 0
    ensures DownTimes(i, a + b, total) == DownTimes(DownTimes(i, a, total), b, total)
  {
    if b > 0 {
      DownTimesCompose(i, a, b - 1, total);
    }
  }

  /** Inside the list, `total` presses of the down arrow go once round and come back to the
      start. */
  lemma DownCycle(i: nat, total: nat)
    requires i < total
    ensures DownTimes(i, total, total) == i
  {
    DownTimesWithin(i, total - i - 1, total);
    assert DownTimes(i, total - i, total) == 0;
    DownTimesCompose(i, total - i, i, total);
    if i > 0 {
      DownTimesWithin(0, i, total);
    }
  }

  /** A selection left outside a list that has shrunk is not pulled back in: the down arrow
      moves it further out, and the up arrow brings it back one place at a time. */
  lemma StaleSelectionNotClamped(i: nat, total: nat)
    requires 0 < total <= i
    ensures Down(i, total) == i + 1 && Up(i, total) == i - 1
  {
  }

  /** The `stateCheck` of `i`: "Container is already running." when the state or the status
      is `running`, otherwise `false`. */
  function StartReason(c: Container): Option<string> {
    if c.state == "running" || c.status == "running" then Some("Container is already running.")
    else None
  }

  /** The `stateCheck` of `p`: "Container is already stopped." when the state or the status is
      `exited` or `stopped`, otherwise `false`. */
  function StopReason(c: Container): Option<string> {
    if c.state == "exited" || c.status == "exited" || c.state == "stopped" || c.status == "stopped"
    then Some("Container is already stopped.")
    else None
  }

  const StartCheck: StateCheck := Check(StartReason)
  const StopCheck: StateCheck := Check(StopReason)

  /** A start is refused exactly when the selected container runs, a stop exactly when it is
      exited or stopped, and a restart never. */
  lemma ChecksRefuseExactly(containers: seq<Container>, selected: nat)
    requires selected < |containers|
    ensures var c := containers[selected];
            Decide(containers, selected, StartCheck)
            == (if c.state == "running" || c.status == "running"
                then Refuse("Container is already running.") else Proceed(c.id))
    ensures var c := containers[selected];
            Decide(containers, selected, StopCheck)
            == (if c.state in {"exited", "stopped"} || c.status in {"exited", "stopped"}
                then Refuse("Container is already stopped.") else Proceed(c.id))
    ensures Decide(containers, selected, NoCheck) == Proceed(containers[selected].id)
  {
  }

  /** The hook's state: the selection, the log view and its lines, the stored stream ref, the
      ids of the containers whose log stream was requested, the streams destroyed, and the
      message slot it shares with `handleAction`. */
  class Controls {
    var selected: nat
    var showLogs: bool
    var logs: seq<string>
    var streamRef: StreamRef
    var requested: seq<string>
    var destroyed: seq<nat>
    const slot: MessageSlot

    constructor ()
      ensures selected == 0 && !showLogs && logs == [] && streamRef == NoStream
      ensures requested == [] && destroyed == []
      ensures fresh(slot) && slot.State() == Slot([], Yellow, [], [], [])
    {
      selected := 0;
      showLogs := false;
      logs := [];
      streamRef := NoStream;
      requested := [];
      destroyed := [];
      slot := new MessageSlot();
    }

    /** `exitLogs`: hide the view, drop its lines, release the stored stream. */
    method ExitLogs()
      modifies this
      ensures !showLogs && logs == [] && streamRef == NoStream
      ensures destroyed == old(destroyed) + Release(old(streamRef))
      ensures selected == old(selected) && requested == old(requested)
    {
      showLogs := false;
      logs := [];
      destroyed := destroyed + Release(streamRef);
      streamRef := NoStream;
    }

    /** One call of the `useInput` handler with the text typed and the keys pressed. */
    method HandleInput(containers: seq<Container>, input: string, key: Key)
      modifies this, slot
      // in the log view only `q` and escape act, and they close it
      ensures old(showLogs) && (input == "q" || key.escape) ==>
                !showLogs && logs == [] && streamRef == NoStream
                && destroyed == old(destroyed) + Release(old(streamRef))
                && selected == old(selected) && requested == old(requested)
                && slot.State() == old(slot.State())
      ensures old(showLogs) && !(input == "q" || key.escape) ==>
                showLogs && logs == old(logs) && streamRef == old(streamRef)
                && destroyed == old(destroyed) && selected == old(selected) && requested == old(requested)
                && slot.State() == old(slot.State())
      // in the list the arrows move the selection; the commands use the selection the key
      // press found
      ensures !old(showLogs) ==>
                selected == Navigate(old(selected), |containers|, key)
                && streamRef == old(streamRef) && destroyed == old(destroyed)
      ensures !old(showLogs) ==>
                slot.State() == (if input == "q" then Exit(old(slot.State()))
                                 else if input == "i" then Handle(old(slot.State()), containers, old(selected), "Starting", StartCheck)
                                 else if input == "p" then Handle(old(slot.State()), containers, old(selected), "Stopping", StopCheck)
                                 else if input == "r" then Handle(old(slot.State()), containers, old(selected), "Restarting", NoCheck)
                                 else old(slot.State()))
      ensures !old(showLogs) ==>
                if input == "l" && old(selected) < |containers| then
                  showLogs && logs == [] && requested == old(requested) + [containers[old(selected)].id]
                else
                  showLogs == old(showLogs) && logs == old(logs) && requested == old(requested)
    {
      if showLogs {
        if input == "q" || key.escape {
          ExitLogs();
        }
        return;
      }
      var sel := selected;
      var total := |containers|;
      if key.upArrow && total > 0 {
        selected := Up(selected, total);
      }
      if key.downArrow && total > 0 {
        selected := Down(selected, total);
      }
      if input == "q" {
        slot.ExitWithMessage();
        return;
      }
      if input == "i" {
        slot.HandleAction(containers, sel, "Starting", StartCheck);
      }
      if input == "p" {
        slot.HandleAction(containers, sel, "Stopping", StopCheck);
      }
      if input == "r" {
        slot.HandleAction(containers, sel, "Restarting", NoCheck);
      }
      if input == "l" && sel < total {
        showLogs := true;
        logs := [];
        requested := requested + [containers[sel].id];
      }
    }

    /** The data callback of requested stream number `k`: the chunk's non-empty lines are
        appended, whether or not the view is still shown. */
    method OnData(k: nat, chunk: string)
      requires k < |requested|
      modifies this
      ensures logs == old(logs) + ChunkLines(chunk)
      ensures showLogs == old(showLogs) && selected == old(selected) && requested == old(requested)
      ensures streamRef == old(streamRef) && destroyed == old(destroyed)
    {
      logs := logs + ChunkLines(chunk);
    }

    /** The end callback of requested stream number `k`: `() => {}`, so nothing changes. */
    method OnEnd(k: nat)
      requires k < |requested|
      ensures logs == old(logs)
    {
    }

    /** The error callback of requested stream number `k`: one `Error: ...` line is appended. */
    method OnError(k: nat, message: string)
      requires k < |requested|
      modifies this
      ensures logs == old(logs) + [ErrorLine(message)]
      ensures showLogs == old(showLogs) && selected == old(selected) && requested == old(requested)
      ensures streamRef == old(streamRef) && destroyed == old(destroyed)
    {
      logs := logs + [ErrorLine(message)];
    }
  }

  /** Closing the log view does not stop the stream it requested: the view is requested on a
      container and closed with `q`, and a chunk that arrives afterwards still lands in
      `logs`; nothing was destroyed. */
  method StreamOutlivesLogView(c: Container, chunk: string)
    returns (showing: bool, lines: seq<string>, destroyedCount: nat)
    ensures !showing && lines == ChunkLines(chunk) && destroyedCount == 0
  {
    var controls := new Controls();
    controls.HandleInput([c], "l", Key(false, false, false));
    controls.HandleInput([c], "q", Key(false, false, false));
    controls.OnData(0, chunk);
    showing := controls.showLogs;
    lines := controls.logs;
    destroyedCount := |controls.destroyed|;
  }
}
