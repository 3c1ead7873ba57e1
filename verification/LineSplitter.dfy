/** Incremental line splitting: raw chunks in, lines out, with the unterminated tail carried between chunks. */
module LineSplitter {
  import opened Common

  type byte = b: int | 0 <= b < 256

  const LF: byte := 10
  const CR: byte := 13

  /** What one read of the stream yields. A read of no bytes means end of file. */
  datatype Chunk = Data(bytes: seq<byte>) | ReadError

  /** The bytes that reach the splitter: everything up to the first error or empty read. */
  function Stream(chunks: seq<Chunk>): seq<byte> {
    if chunks == [] || chunks[0].ReadError? || chunks[0].bytes == [] then []
    else chunks[0].bytes + Stream(chunks[1..])
  }

  /** Index of the first newline. */
  function NewlineAt(s: seq<byte>): (r: Option<nat>)
    ensures r.Some? ==> r.value < |s| && s[r.value] == LF && LF !in s[..r.value]
    ensures r.None? ==> LF !in s
  {
    if s == [] then None
    else if s[0] == LF then Some(0)
    else
      match NewlineAt(s[1..])
      case None => assert s == [s[0]] + s[1..]; None
      case Some(n) => assert s[..n + 1] == [s[0]] + s[1..][..n]; Some(n + 1)
  }

  function StripCr(line: seq<byte>): seq<byte> {
    if line != [] && line[|line| - 1] == CR then line[..|line| - 1] else line
  }

  /** Splitting a whole stream at once: newline-terminated lines without one trailing CR, then a non-empty tail as it is. */
  function SplitLines(s: seq<byte>): seq<seq<byte>>
    decreases |s|
  {
    match NewlineAt(s)
    case None => if s == [] then [] else [s]
    case Some(n) => [StripCr(s[..n])] + SplitLines(s[n + 1..])
  }

  function Take<T>(limit: Option<nat>, s: seq<T>): seq<T> {
    if limit.Some? && limit.value < |s| then s[..limit.value] else s
  }

  /** Later bytes do not move the first newline. */
  lemma {:induction false} NewlineStays(s: seq<byte>, more: seq<byte>)
    requires NewlineAt(s).Some?
    ensures NewlineAt(s + more) == NewlineAt(s)
  {
    if s[0] != LF {
      assert (s + more)[1..] == s[1..] + more;
      NewlineStays(s[1..], more);
    }
  }

  lemma FirstLineSplitsOff(carry: seq<byte>, rest: seq<byte>, n: nat)
    requires NewlineAt(carry) == Some(n)
    ensures SplitLines(carry + rest) == [StripCr(carry[..n])] + SplitLines(carry[n + 1..] + rest)
  {
    NewlineStays(carry, rest);
    assert (carry + rest)[..n] == carry[..n];
    assert (carry + rest)[n + 1..] == carry[n + 1..] + rest;
  }

  /**
   * Forward the stream line by line to a receiver that is dropped after `limit` lines (never, if `None`).
   * However the bytes are cut into chunks, the lines are those of splitting the whole stream at once.
   */
  method ForwardLines(chunks: seq<Chunk>, limit: Option<nat>) returns (sent: seq<seq<byte>>)
    ensures sent == Take(limit, SplitLines(Stream(chunks)))
  {
    sent := [];
    var carry: seq<byte> := [];
    var i := 0;
    assert chunks[0..] == chunks;
    assert carry + Stream(chunks) == Stream(chunks);
    while i < |chunks|
      invariant 0 <= i <= |chunks|
      invariant sent + SplitLines(carry + Stream(chunks[i..])) == SplitLines(Stream(chunks))
      invariant limit.Some? ==> |sent| <= limit.value
      invariant NewlineAt(carry).None?
    {
      if chunks[i].ReadError? || chunks[i].bytes == [] {
        break;
      }
      ghost var rest := Stream(chunks[i + 1..]);
      assert chunks[i..][1..] == chunks[i + 1..];
      assert carry + (chunks[i].bytes + rest) == carry + chunks[i].bytes + rest;
      carry := carry + chunks[i].bytes;
      i := i + 1;
      var dropped;
      sent, carry, dropped := DrainLines(sent, carry, limit, rest);
      if dropped {
        return;
      }
    }
    assert Stream(chunks[i..]) == [];
    assert carry + Stream(chunks[i..]) == carry;
    if carry != [] && !(limit.Some? && |sent| == limit.value) {
      sent := sent + [carry];
    }
  }

  /** The inner loop: send every complete line of `carry`, keep the rest. */
  method DrainLines(sent0: seq<seq<byte>>, carry0: seq<byte>, limit: Option<nat>, ghost rest: seq<byte>)
    returns (sent: seq<seq<byte>>, carry: seq<byte>, dropped: bool)
    requires limit.Some? ==> |sent0| <= limit.value
    ensures sent + SplitLines(carry + rest) == sent0 + SplitLines(carry0 + rest)
    ensures limit.Some? ==> |sent| <= limit.value
    ensures !dropped ==> NewlineAt(carry).None?
    ensures dropped ==> limit.Some? && |sent| == limit.value && NewlineAt(carry).Some?
  {
    sent, carry := sent0, carry0;
    while true
      invariant sent + SplitLines(carry + rest) == sent0 + SplitLines(carry0 + rest)
      invariant limit.Some? ==> |sent| <= limit.value
      decreases |carry|
    {
      var nl := NewlineAt(carry);
      if nl.None? {
        return sent, carry, false;
      }
      FirstLineSplitsOff(carry, rest, nl.value);
      if limit.Some? && |sent| == limit.value {
        return sent, carry, true;
      }
      sent := sent + [StripCr(carry[..nl.value])];
      carry := carry[nl.value + 1..];
    }
  }

  // ---- splitting undoes joining ----

  /** A line and how it was terminated: by CR LF, or by a bare LF. */
  datatype TerminatedLine = TerminatedLine(text: seq<byte>, crlf: bool) {
    function Bytes(): seq<byte> {
      text + (if crlf then [CR, LF] else [LF])
    }

    /** The text holds no newline, and a bare LF is not preceded by a CR that would be taken for part of the terminator. */
    ghost predicate Unambiguous() {
      LF !in text && (!crlf ==> text == [] || text[|text| - 1] != CR)
    }
  }

  function Join(lines: seq<TerminatedLine>): seq<byte> {
    if lines == [] then [] else lines[0].Bytes() + Join(lines[1..])
  }

  function Texts(lines: seq<TerminatedLine>): seq<seq<byte>> {
    if lines == [] then [] else [lines[0].text] + Texts(lines[1..])
  }

  lemma {:induction false} NewlineAfter(text: seq<byte>, more: seq<byte>)
    requires LF !in text
    ensures NewlineAt(text + [LF] + more) == Some(|text|)
  {
    if text != [] {
      assert (text + [LF] + more)[1..] == text[1..] + [LF] + more;
      NewlineAfter(text[1..], more);
    }
  }

  lemma OneLineSplitsBack(line: TerminatedLine, more: seq<byte>)
    requires line.Unambiguous()
    ensures SplitLines(line.Bytes() + more) == [line.text] + SplitLines(more)
  {
    var body := if line.crlf then line.text + [CR] else line.text;
    NewlineAfter(body, more);
    var all := body + [LF] + more;
    assert line.Bytes() + more == all;
    assert all[..|body|] == body && all[|body| + 1..] == more;
    assert StripCr(body) == line.text;
  }

  /** Any mix of LF and CR LF terminated lines, with an unterminated tail, splits back into its parts. */
  lemma {:induction false} SplitUndoesJoin(lines: seq<TerminatedLine>, tail: seq<byte>)
    requires (forall i :: 0 <= i < |lines| ==> lines[i].Unambiguous()) && LF !in tail
    ensures SplitLines(Join(lines) + tail) == Texts(lines) + (if tail == [] then [] else [tail])
  {
    if lines == [] {
      assert Join(lines) + tail == tail;
    } else {
      SplitUndoesJoin(lines[1..], tail);
      OneLineSplitsBack(lines[0], Join(lines[1..]) + tail);
      assert Join(lines) + tail == lines[0].Bytes() + (Join(lines[1..]) + tail);
    }
  }

  /** No line sent contains a newline. */
  lemma {:induction false} LinesHoldNoNewline(s: seq<byte>, i: nat)
    requires i < |SplitLines(s)|
    ensures LF !in SplitLines(s)[i]
    decreases i
  {
    match NewlineAt(s)
    case None =>
    case Some(n) =>
      if i > 0 {
        LinesHoldNoNewline(s[n + 1..], i - 1);
      } else {
        assert forall b :: b in StripCr(s[..n]) ==> b in s[..n];
      }
  }

  function Unterminated(s: seq<byte>): nat {
    if s != [] && s[|s| - 1] != LF then 1 else 0
  }

  lemma NewlinesAfterFirst(s: seq<byte>, n: nat)
    requires NewlineAt(s) == Some(n)
    ensures multiset(s)[LF] == 1 + multiset(s[n + 1..])[LF]
    ensures Unterminated(s) == Unterminated(s[n + 1..])
  {
    var front, rest := s[..n], s[n + 1..];
    assert s == front + [LF] + rest;
    assert LF !in front;
  }

  /** There is one line per newline, plus one for a non-empty unterminated tail. */
  lemma {:induction false} LineCount(s: seq<byte>)
    ensures |SplitLines(s)| == multiset(s)[LF] + Unterminated(s)
    decreases |s|
  {
    match NewlineAt(s)
    case None =>
      assert LF !in multiset(s);
    case Some(n) =>
      NewlinesAfterFirst(s, n);
      LineCount(s[n + 1..]);
  }
}
