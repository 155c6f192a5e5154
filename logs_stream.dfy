/** The log-stream hook (src/hooks/useLogsStream.js): `openLogs` empties the caller's lines
    and opens a stream whose chunks append to them; `closeLogs` destroys the stored stream.

    The lines belong to the caller, who passes their setter to `openLogs`; here they are the
    field `logs`. The stream is a call into the Docker client: `LogsStream.OpenLogs` records
    the id it was requested for, and `LogsStream.OnData` and `LogsStream.OnError` are its
    callbacks, run by whoever drives the model; its end callback does nothing. Opening the
    stream answers `undefined`, so that is what the ref stores. */
module LogsStream {
  import opened LogLines

  class LogsStream {
    var logs: seq<string>
    var streamRef: StreamRef
    var requested: seq<string>
    var destroyed: seq<nat>

    constructor ()
      ensures logs == [] && streamRef == NoStream && requested == [] && destroyed == []
    {
      logs := [];
      streamRef := NoStream;
      requested := [];
      destroyed := [];
    }

    /** `openLogs(containerId, setLogs)`: the lines are emptied and the ref is overwritten,
        without destroying what it held, by what opening the stream answers. */
    method OpenLogs(containerId: string)
      modifies this
      ensures logs == [] && streamRef == NoStream
      ensures requested == old(requested) + [containerId] && destroyed == old(destroyed)
    {
      logs := [];
      requested := requested + [containerId];
      streamRef := NoStream;
    }

    /** The data callback of requested stream number `k`. */
    method OnData(k: nat, chunk: string)
      requires k < |requested|
      modifies this
      ensures logs == old(logs) + ChunkLines(chunk)
      ensures streamRef == old(streamRef) && requested == old(requested) && destroyed == old(destroyed)
    {
      logs := logs + ChunkLines(chunk);
    }

    /** The end callback of requested stream number `k`: `() => {}`, so nothing changes. */
    method OnEnd(k: nat)
      requires k < |requested|
      ensures logs == old(logs)
    {
    }

    /** The error callback of requested stream number `k`. */
    method OnError(k: nat, message: string)
      requires k < |requested|
      modifies this
      ensures logs == old(logs) + [ErrorLine(message)]
      ensures streamRef == old(streamRef) && requested == old(requested) && destroyed == old(destroyed)
    {
      logs := logs + [ErrorLine(message)];
    }

    /** `closeLogs()`: the stored stream, if any, is destroyed and forgotten; the lines stay. */
    method CloseLogs()
      modifies this
      ensures streamRef == NoStream && destroyed == old(destroyed) + Release(old(streamRef))
      ensures logs == old(logs) && requested == old(requested)
    {
      destroyed := destroyed + Release(streamRef);
      streamRef := NoStream;
    }
  }

  /** Closing right after opening destroys nothing, and a chunk the stream delivers afterwards
      is still appended to the lines. */
  method CloseAfterOpenKeepsStream(containerId: string, chunk: string)
    returns (destroyedCount: nat, lines: seq<string>)
    ensures destroyedCount == 0 && lines == ChunkLines(chunk)
  {
    var hook := new LogsStream();
    hook.OpenLogs(containerId);
    hook.CloseLogs();
    hook.OnData(0, chunk);
    destroyedCount := |hook.destroyed|;
    lines := hook.logs;
  }
}
