/** The log-viewer state of the creation screen (src/hooks/creation/useLogsViewer.js):
    whether the viewer is shown, its lines, and the stream ref it exposes for cleanup. The hook
    never fills the ref itself; `LogsViewer.StoreStream` stands for a caller assigning it. */
module LogsViewer {
  import opened LogLines

  class LogsViewer {
    var showLogs: bool
    var logs: seq<string>
    var streamRef: StreamRef
    var destroyed: seq<nat>

    constructor ()
      ensures !showLogs && logs == [] && streamRef == NoStream && destroyed == []
    {
      showLogs := false;
      logs := [];
      streamRef := NoStream;
      destroyed := [];
    }

    /** `openLogs()`: shown, with no lines; the ref is left as it is. */
    method OpenLogs()
      modifies this
      ensures showLogs && logs == []
      ensures streamRef == old(streamRef) && destroyed == old(destroyed)
    {
      showLogs := true;
      logs := [];
    }

    /** A caller storing a stream in the exposed `logsStreamRef`. */
    method StoreStream(stream: StreamRef)
      modifies this
      ensures streamRef == stream
      ensures showLogs == old(showLogs) && logs == old(logs) && destroyed == old(destroyed)
    {
      streamRef := stream;
    }

    /** `closeLogs()`: hidden, no lines, and the stored stream destroyed and forgotten. */
    method CloseLogs()
      modifies this
      ensures !showLogs && logs == [] && streamRef == NoStream
      ensures destroyed == old(destroyed) + Release(old(streamRef))
    {
      showLogs := false;
      logs := [];
      destroyed := destroyed + Release(streamRef);
      streamRef := NoStream;
    }
  }

  /** A stored stream with a `destroy` method is destroyed exactly once, however often the
      viewer is closed. */
  method CloseTwiceDestroysOnce(id: nat) returns (destroyed: seq<nat>, showing: bool)
    ensures destroyed == [id] && !showing
  {
    var viewer := new LogsViewer();
    viewer.OpenLogs();
    viewer.StoreStream(Stream(id, true));
    viewer.CloseLogs();
    viewer.CloseLogs();
    destroyed := viewer.destroyed;
    showing := viewer.showLogs;
  }
}
