/** The log window of the logs screen (src/components/LogViewer.jsx): the last fifteen lines
    of the buffer under a header, or a placeholder when there are none. */
module LogViewer {
  import opened Wrappers
  import opened ContainerList

  /** How many lines `logs.slice(-15)` keeps at most. */
  const WindowSize: nat := 15

  /** `logs.slice(-15)`: the last `min(15, |logs|)` lines, in their order. */
  function VisibleLogs(logs: seq<string>): (r: seq<string>)
    ensures |r| == if |logs| < WindowSize then |logs| else WindowSize
    ensures r == logs[|logs| - |r|..]
    ensures |logs| <= WindowSize ==> r == logs
  {
    if |logs| <= WindowSize then logs else logs[|logs| - WindowSize..]
  }

  /** The window depends only on the last fifteen lines: appending a line to the buffer or
      to the current window gives the same next window, and the newest line is always in it. */
  lemma VisibleAfterAppend(logs: seq<string>, line: string)
    ensures VisibleLogs(logs + [line]) == VisibleLogs(VisibleLogs(logs) + [line])
    ensures var w := VisibleLogs(logs + [line]); w[|w| - 1] == line
  {
    var w := VisibleLogs(logs);
    var a := VisibleLogs(logs + [line]);
    var b := VisibleLogs(w + [line]);
    assert |a| == |b|;
    forall k | 0 <= k < |a| ensures a[k] == b[k] {
      assert a[k] == (logs + [line])[|logs| + 1 - |a| + k];
      assert b[k] == (w + [line])[|w| + 1 - |b| + k];
    }
  }

  /** What the component shows: the header, and either the window or a dimmed placeholder. */
  datatype View = View(header: string, lines: seq<string>, placeholder: bool)

  /** `container?.name || "Container"`. */
  function HeaderName(container: Option<Container>): (r: string)
    ensures r != []
  {
    if container.Some? && container.value.name != [] then container.value.name else "Container"
  }

  function Render(logs: seq<string>, container: Option<Container>): (v: View)
    ensures v.header == HeaderName(container) + " logs, press ESC to exit"
    ensures v.placeholder <==> logs == []
    ensures v.placeholder ==> v.lines == ["No logs..."]
    ensures !v.placeholder ==> v.lines == VisibleLogs(logs) && 1 <= |v.lines| <= WindowSize
  {
    var visible := VisibleLogs(logs);
    var header := HeaderName(container) + " logs, press ESC to exit";
    if |visible| == 0 then View(header, ["No logs..."], true) else View(header, visible, false)
  }
}
