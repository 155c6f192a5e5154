/** What the log hooks do with a stream's output (src/hooks/useLogsStream.js,
    src/hooks/useControls.js, src/hooks/creation/useLogsViewer.js): a data chunk becomes its
    non-empty lines, an error becomes one synthetic line, and closing releases the stored
    stream. */
module LogLines {
  import opened JsString

  /** `pieces.filter(Boolean)` on strings: the non-empty pieces, in order. */
  function NonEmpty(pieces: seq<string>): (r: seq<string>)
    ensures forall i :: 0 <= i < |r| ==> r[i] != []
    ensures forall i :: 0 <= i < |r| ==> r[i] in pieces
    ensures forall i :: 0 <= i < |pieces| && pieces[i] != [] ==> pieces[i] in r
  {
    if pieces == [] then []
    else
      var rest := NonEmpty(pieces[1..]);
      assert forall i :: 1 <= i < |pieces| ==> pieces[i] == pieces[1..][i - 1];
      (if pieces[0] != [] then [pieces[0]] else []) + rest
  }

  /** `data.split("\n").filter(Boolean)`: the lines a data chunk contributes. */
  function ChunkLines(data: string): (r: seq<string>)
    ensures forall i :: 0 <= i < |r| ==> r[i] != [] && '\n' !in r[i]
  {
    NonEmpty(Split(data, '\n'))
  }

  /** All characters of the pieces, in order. */
  function Concat(pieces: seq<string>): string {
    if pieces == [] then [] else pieces[0] + Concat(pieces[1..])
  }

  /** `s` with every occurrence of `c` removed. */
  function Without(s: string, c: char): (r: string)
    ensures c !in r
  {
    if s == [] then [] else (if s[0] == c then [] else [s[0]]) + Without(s[1..], c)
  }

  lemma {:induction false} ConcatAppend(a: seq<string>, b: seq<string>)
    ensures Concat(a + b) == Concat(a) + Concat(b)
  {
    if a == [] {
      assert a + b == b;
    } else {
      assert (a + b)[1..] == a[1..] + b;
      ConcatAppend(a[1..], b);
    }
  }

  lemma {:induction false} ConcatNonEmpty(pieces: seq<string>)
    ensures Concat(NonEmpty(pieces)) == Concat(pieces)
  {
    if pieces != [] {
      ConcatNonEmpty(pieces[1..]);
      var head := if pieces[0] != [] then [pieces[0]] else [];
      ConcatAppend(head, NonEmpty(pieces[1..]));
    }
  }

  lemma {:induction false} ConcatSplit(s: string, sep: char)
    ensures Concat(Split(s, sep)) == Without(s, sep)
  {
    if s != [] {
      ConcatSplit(s[1..], sep);
      var rest := Split(s[1..], sep);
      assert Concat(rest) == rest[0] + Concat(rest[1..]);
      if s[0] == sep {
        assert Split(s, sep) == [[]] + rest;
        ConcatAppend([[]], rest);
      } else {
        var r := Split(s, sep);
        assert r == [[s[0]] + rest[0]] + rest[1..];
        assert r[1..] == rest[1..];
      }
    }
  }

  /** No character of a chunk is lost or invented: the lines, put back together, are the
      chunk without its line breaks. */
  lemma ChunkLinesKeepText(data: string)
    ensures Concat(ChunkLines(data)) == Without(data, '\n')
  {
    ConcatNonEmpty(Split(data, '\n'));
    ConcatSplit(data, '\n');
  }

  lemma {:induction false} NonEmptyAppend(a: seq<string>, b: seq<string>)
    ensures NonEmpty(a + b) == NonEmpty(a) + NonEmpty(b)
  {
    if a == [] {
      assert a + b == b;
    } else {
      assert (a + b)[1..] == a[1..] + b;
      NonEmptyAppend(a[1..], b);
    }
  }

  /** Chunk boundaries at line breaks do not matter: two chunks joined by a line break give
      the lines of the first followed by the lines of the second. */
  lemma ChunkLinesAppend(a: string, b: string)
    ensures ChunkLines(a + "\n" + b) == ChunkLines(a) + ChunkLines(b)
  {
    SplitAppend(a, b, '\n');
    NonEmptyAppend(Split(a, '\n'), Split(b, '\n'));
  }

  /** A chunk that is one non-empty line without a break is that single line. */
  lemma ChunkLinesSingle(line: string)
    requires line != [] && '\n' !in line
    ensures ChunkLines(line) == [line]
  {
    SplitNoSeparator(line, '\n');
    assert NonEmpty([line]) == [line] + NonEmpty([]);
  }

  /** A chunk made of line breaks only (or empty) adds no line. */
  lemma ChunkOfBreaksOnly(data: string)
    requires forall i :: 0 <= i < |data| ==> data[i] == '\n'
    ensures ChunkLines(data) == []
  {
    BreaksOnlyWithout(data);
    ChunkLinesKeepText(data);
  }

  lemma {:induction false} BreaksOnlyWithout(data: string)
    requires forall i :: 0 <= i < |data| ==> data[i] == '\n'
    ensures Without(data, '\n') == []
  {
    if data != [] {
      BreaksOnlyWithout(data[1..]);
    }
  }

  /** The line an error appends: `Error: ${err.message}`. */
  function ErrorLine(message: string): (r: string)
    ensures |r| == |message| + 7 && r[..7] == "Error: " && r[7..] == message
  {
    "Error: " + message
  }

  /** `logsStreamRef.current`: nothing stored, or a stream, with or without a `destroy`
      method. */
  datatype StreamRef = NoStream | Stream(id: nat, hasDestroy: bool)

  /** Closing: a stored stream has `destroy?.()` called on it (when it has the method) and the
      ref becomes null. The result is the streams whose `destroy` was called. */
  function Release(ref: StreamRef): (destroyed: seq<nat>)
    ensures ref.NoStream? ==> destroyed == []
    ensures ref.Stream? && ref.hasDestroy ==> destroyed == [ref.id]
    ensures ref.Stream? && !ref.hasDestroy ==> destroyed == []
  {
    if ref.Stream? && ref.hasDestroy then [ref.id] else []
  }

  /** Closing twice destroys what closing once does: after the first close nothing is
      stored, so the second destroys nothing. */
  lemma ReleaseTwice(ref: StreamRef)
    ensures Release(ref) + Release(NoStream) == Release(ref) && |Release(ref)| <= 1
  {
  }
}
