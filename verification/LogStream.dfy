/** The log streamer: a fixed-size buffered reader cut at line feeds, and the lines it prints. */
module LogStream {

  newtype Byte = b: int | 0 <= b < 256

  const LF: Byte := 10
  const CR: Byte := 13
  const BUFFER_SIZE: nat := 64 * 1024

  datatype Status = LineRead | BufferFull | StreamEnded

  /** Index of the first line feed, or the length when there is none. */
  function FirstLF(s: seq<Byte>): (k: nat)
    ensures k <= |s|
    ensures LF !in s[..k] && (k < |s| ==> s[k] == LF)
  {
    if s == [] || s[0] == LF then 0
    else
      var k := FirstLF(s[1..]);
      assert s[..k + 1] == [s[0]] + s[1..][..k];
      k + 1
  }

  /** What one `ReadSlice('\n')` delivers when `pending` bytes are still to come, whatever the reads. */
  function NextSlice(pending: seq<Byte>, size: nat): (seq<Byte>, Status) {
    var k := FirstLF(pending);
    if k < |pending| && k < size then (pending[..k + 1], LineRead)
    else if |pending| >= size then (pending[..size], BufferFull)
    else (pending, StreamEnded)
  }

  /** `strings.TrimRight(s, "\r\n")` */
  function TrimRight(s: seq<Byte>): seq<Byte> {
    if s != [] && (s[|s| - 1] == CR || s[|s| - 1] == LF) then TrimRight(s[..|s| - 1]) else s
  }

  /** `bufio.Reader` over a stream that hands out its bytes in pieces of any size. */
  class BufferedReader {
    const size: nat
    var buf: seq<Byte>    // read from the stream, not yet delivered
    var rest: seq<Byte>   // not yet read from the stream
    var ended: bool       // the stream has reported its end

    constructor (input: seq<Byte>, size: nat)
      requires size > 0
      ensures this.size == size && Pending() == input && Valid()
    {
      this.size, buf, rest, ended := size, [], input, false;
    }

    predicate Valid()
      reads this
    {
      size > 0 && |buf| <= size && (ended ==> rest == [] && |buf| < size)
    }

    function Pending(): seq<Byte>
      reads this
    {
      buf + rest
    }

    /** One read from the stream into the free part of the buffer: any positive number of bytes, or the end. */
    method Fill()
      requires Valid() && |buf| < size && !ended
      modifies this
      ensures Valid() && Pending() == old(Pending())
      ensures ended || |rest| < |old(rest)|
    {
      if rest == [] {
        ended := true;
      } else {
        var n: nat :| 1 <= n <= size - |buf| && n <= |rest|;
        assert buf + rest == buf + rest[..n] + rest[n..];
        buf, rest := buf + rest[..n], rest[n..];
      }
    }

    method ReadSlice() returns (chunk: seq<Byte>, status: Status)
      requires Valid()
      modifies this
      ensures Valid() && (chunk, status) == NextSlice(old(Pending()), size)
      ensures old(Pending()) == chunk + Pending()
    {
      while true
        invariant Valid() && Pending() == old(Pending())
        decreases |rest|, !ended
      {
        PrefixLF(buf, rest);
        var k := FirstLF(buf);
        if k < |buf| {
          chunk, status := buf[..k + 1], LineRead;
          CutAfter(buf, rest, k + 1);
          buf := buf[k + 1..];
          return;
        }
        if ended {
          chunk, status := buf, StreamEnded;
          assert buf + rest == buf;
          buf := [];
          return;
        }
        if |buf| >= size {
          chunk, status := buf, BufferFull;
          CutAfter(buf, rest, |buf|);
          buf := [];
          return;
        }
        Fill();
      }
    }
  }

  lemma {:induction false} PrefixLF(a: seq<Byte>, b: seq<Byte>)
    ensures FirstLF(a) < |a| ==> FirstLF(a + b) == FirstLF(a)
    ensures FirstLF(a) == |a| ==> FirstLF(a + b) == |a| + FirstLF(b)
  {
    if a == [] {
      assert a + b == b;
    } else if a[0] != LF {
      PrefixLF(a[1..], b);
      assert (a + b)[1..] == a[1..] + b;
    }
  }

  lemma CutAfter(buf: seq<Byte>, rest: seq<Byte>, n: nat)
    requires n <= |buf|
    ensures (buf + rest)[..n] == buf[..n] && buf + rest == buf[..n] + (buf[n..] + rest)
    ensures n == |buf| ==> buf[..n] == buf && buf[n..] == []
  {
  }

  // ----- what is printed -----

  /** What `printServiceLine` prints for a chunk: nothing for an empty line. */
  function Printed(chunk: seq<Byte>): seq<seq<Byte>> {
    var line := TrimRight(chunk);
    if line == [] then [] else [line]
  }

  /** The printed lines, as a function of the bytes alone. */
  function Payloads(pending: seq<Byte>, size: nat): seq<seq<Byte>>
    requires size > 0
    decreases |pending|
  {
    var (chunk, status) := NextSlice(pending, size);
    if status.StreamEnded? then Printed(chunk) else Printed(chunk) + Payloads(pending[|chunk|..], size)
  }

  lemma PayloadsStep(pending: seq<Byte>, chunk: seq<Byte>, status: Status, left: seq<Byte>, size: nat)
    requires size > 0 && (chunk, status) == NextSlice(pending, size) && pending == chunk + left
    ensures Payloads(pending, size) ==
            if status.StreamEnded? then Printed(chunk) else Printed(chunk) + Payloads(left, size)
    ensures status.StreamEnded? || |left| < |pending|
  {
    assert pending[|chunk|..] == left;
  }

  lemma PrintedStep(before: seq<seq<Byte>>, pending: seq<Byte>, chunk: seq<Byte>, status: Status, left: seq<Byte>)
    requires (chunk, status) == NextSlice(pending, BUFFER_SIZE) && pending == chunk + left
    ensures before + Payloads(pending, BUFFER_SIZE) ==
            before + Printed(chunk) + if status.StreamEnded? then [] else Payloads(left, BUFFER_SIZE)
    ensures status.StreamEnded? || |left| < |pending|
  {
    PayloadsStep(pending, chunk, status, left, BUFFER_SIZE);
    if !status.StreamEnded? {
      Associative(before, Printed(chunk), Payloads(left, BUFFER_SIZE));
    }
  }

  lemma Associative<T>(a: seq<T>, b: seq<T>, c: seq<T>)
    ensures a + (b + c) == a + b + c
  {
  }

  /** `streamServiceLogs`: prints the same lines however the stream is cut into reads. */
  method StreamServiceLogs(input: seq<Byte>) returns (printed: seq<seq<Byte>>)
    ensures printed == Payloads(input, BUFFER_SIZE)
  {
    var buffered := new BufferedReader(input, BUFFER_SIZE);
    printed := [];
    while true
      invariant buffered.size == BUFFER_SIZE && buffered.Valid() && fresh(buffered)
      invariant printed + Payloads(buffered.Pending(), BUFFER_SIZE) == Payloads(input, BUFFER_SIZE)
      decreases |buffered.Pending()|
    {
      ghost var pending, before := buffered.Pending(), printed;
      var chunk, status := buffered.ReadSlice();
      var line := TrimRight(chunk);
      if line != [] {
        printed := printed + [line];
      }
      assert printed == before + Printed(chunk);
      PrintedStep(before, pending, chunk, status, buffered.Pending());
      if status.StreamEnded? {
        return;
      }
    }
  }

  // ----- nothing is lost, nothing is invented -----

  predicate IsBreak(b: Byte) { b == CR || b == LF }

  function Strip(s: seq<Byte>): seq<Byte> {
    if s == [] then [] else (if IsBreak(s[0]) then [] else [s[0]]) + Strip(s[1..])
  }

  function Flatten(lines: seq<seq<Byte>>): seq<Byte> {
    if lines == [] then [] else lines[0] + Flatten(lines[1..])
  }

  lemma {:induction false} StripConcat(a: seq<Byte>, b: seq<Byte>)
    ensures Strip(a + b) == Strip(a) + Strip(b)
  {
    if a == [] {
      assert a + b == b;
    } else {
      StripConcat(a[1..], b);
      assert (a + b)[1..] == a[1..] + b;
    }
  }

  lemma {:induction false} TrimKeeps(s: seq<Byte>)
    ensures Strip(TrimRight(s)) == Strip(s)
    ensures TrimRight(s) <= s
  {
    if s != [] && IsBreak(s[|s| - 1]) {
      var front := s[..|s| - 1];
      TrimKeeps(front);
      StripConcat(front, [s[|s| - 1]]);
      assert s == front + [s[|s| - 1]];
    }
  }

  /** Up to line breaks, the printed lines are the input: no byte is lost, repeated or moved. */
  lemma {:induction false} NothingIsLost(pending: seq<Byte>, size: nat)
    requires size > 0
    ensures Strip(Flatten(Payloads(pending, size))) == Strip(pending)
    decreases |pending|
  {
    var (chunk, status) := NextSlice(pending, size);
    var line := TrimRight(chunk);
    var more := if status.StreamEnded? then [] else Payloads(pending[|chunk|..], size);
    assert Payloads(pending, size) == Printed(chunk) + more;
    TrimKeeps(chunk);
    StripConcat(chunk, pending[|chunk|..]);
    assert pending == chunk + pending[|chunk|..];
    if !status.StreamEnded? {
      NothingIsLost(pending[|chunk|..], size);
    }
    if line == [] {
      assert Payloads(pending, size) == more;
    } else {
      assert Payloads(pending, size)[1..] == more;
      StripConcat(line, Flatten(more));
    }
  }

  lemma {:induction false} TrimDropsLF(s: seq<Byte>)
    requires forall k :: 0 <= k < |s| - 1 ==> s[k] != LF
    ensures LF !in TrimRight(s)
    ensures TrimRight(s) != [] ==> !IsBreak(TrimRight(s)[|TrimRight(s)| - 1])
  {
    if s != [] && IsBreak(s[|s| - 1]) {
      TrimDropsLF(s[..|s| - 1]);
    }
  }

  /** Every printed line is non-empty, fits the buffer, has no line feed and does not end in a break. */
  lemma {:induction false} LinesAreClean(pending: seq<Byte>, size: nat)
    requires size > 0
    ensures forall line :: line in Payloads(pending, size) ==>
              line != [] && |line| <= size && LF !in line && !IsBreak(line[|line| - 1])
    decreases |pending|
  {
    var (chunk, status) := NextSlice(pending, size);
    var k := FirstLF(pending);
    forall j | 0 <= j < |chunk| - 1 ensures chunk[j] != LF {
      assert j < k;
      assert pending[..k][j] == chunk[j];
    }
    TrimDropsLF(chunk);
    TrimKeeps(chunk);
    if !status.StreamEnded? {
      LinesAreClean(pending[|chunk|..], size);
    }
  }

  // ----- lines that fit are printed as they are -----

  /** The non-empty lines of the input, the last one possibly unterminated. */
  function NonEmptyLines(s: seq<Byte>): seq<seq<Byte>>
    decreases |s|
  {
    var k := FirstLF(s);
    (if k == 0 then [] else [s[..k]]) + if k < |s| then NonEmptyLines(s[k + 1..]) else []
  }

  /** Every line, not counting its line feed, fits the buffer. */
  predicate LinesFit(s: seq<Byte>, size: nat)
    decreases |s|
  {
    var k := FirstLF(s);
    k <= size && (k < |s| ==> LinesFit(s[k + 1..], size))
  }

  lemma TrimPlain(s: seq<Byte>)
    requires CR !in s && forall k :: 0 <= k < |s| - 1 ==> s[k] != LF
    ensures TrimRight(s) == if s != [] && s[|s| - 1] == LF then s[..|s| - 1] else s
  {
    if s != [] && s[|s| - 1] == LF {
      var front := s[..|s| - 1];
      assert front != [] ==> front[|front| - 1] == s[|front| - 1];
    }
  }

  predicate Plain(line: seq<Byte>) { CR !in line && LF !in line }

  lemma {:induction false} PlainStart(line: seq<Byte>, rest: seq<Byte>)
    requires Plain(line)
    ensures FirstLF(line + [LF] + rest) == |line|
  {
    if line == [] {
    } else {
      PlainStart(line[1..], rest);
      assert (line + [LF] + rest)[1..] == line[1..] + [LF] + rest;
    }
  }

  lemma ShortLine(line: seq<Byte>, rest: seq<Byte>, size: nat)
    requires Plain(line) && |line| < size
    ensures Payloads(line + [LF] + rest, size) == (if line == [] then [] else [line]) + Payloads(rest, size)
  {
    hide Payloads;
    var s, chunk := line + [LF] + rest, line + [LF];
    PlainStart(line, rest);
    assert s[..|line| + 1] == chunk;
    PayloadsStep(s, chunk, LineRead, rest, size);
    TrimPlain(chunk);
    assert chunk[..|line|] == line;
  }

  /** A full buffer without a line feed: the rest of the line is empty, and an empty line is not printed. */
  lemma FullLine(line: seq<Byte>, rest: seq<Byte>, size: nat)
    requires Plain(line) && |line| == size > 0
    ensures Payloads(line + [LF] + rest, size) == [line] + Payloads(rest, size)
  {
    hide Payloads;
    var s, left := line + [LF] + rest, [] + [LF] + rest;
    PlainStart(line, rest);
    assert s[..size] == line && s == line + left;
    PayloadsStep(s, line, BufferFull, left, size);
    TrimPlain(line);
    ShortLine([], rest, size);
  }

  /** A line that fits, not counting its line feed, is printed as it is, whatever follows; an empty one is not. */
  lemma FittingLine(line: seq<Byte>, rest: seq<Byte>, size: nat)
    requires size > 0 && Plain(line) && |line| <= size
    ensures Payloads(line + [LF] + rest, size) == (if line == [] then [] else [line]) + Payloads(rest, size)
  {
    if |line| < size {
      ShortLine(line, rest, size);
    } else {
      FullLine(line, rest, size);
    }
  }

  /** A longer one is cut where the buffer ends. */
  lemma LongLine(line: seq<Byte>, rest: seq<Byte>, size: nat)
    requires size > 0 && Plain(line) && |line| > size
    ensures Payloads(line + [LF] + rest, size) == [line[..size]] + Payloads(line[size..] + [LF] + rest, size)
  {
    var s := line + [LF] + rest;
    PlainStart(line, rest);
    assert s[..size] == line[..size] && s[size..] == line[size..] + [LF] + rest;
    TrimPlain(line[..size]);
  }

  /** For the service logs that is a line of up to 65536 bytes. */
  lemma LogLines(line: seq<Byte>, rest: seq<Byte>)
    requires Plain(line) && line != []
    ensures |line| <= 65536 ==>
              Payloads(line + [LF] + rest, BUFFER_SIZE) == [line] + Payloads(rest, BUFFER_SIZE)
    ensures |line| > 65536 ==>
              Payloads(line + [LF] + rest, BUFFER_SIZE) ==
              [line[..65536]] + Payloads(line[65536..] + [LF] + rest, BUFFER_SIZE)
  {
    if |line| <= 65536 {
      FittingLine(line, rest, BUFFER_SIZE);
    } else {
      LongLine(line, rest, BUFFER_SIZE);
    }
  }

  /** Without carriage returns, lines that fit the buffer are printed exactly, one by one. */
  lemma {:induction false} FittingLinesAreExact(s: seq<Byte>, size: nat)
    requires size > 0 && CR !in s && LinesFit(s, size)
    ensures Payloads(s, size) == NonEmptyLines(s)
    decreases |s|
  {
    var k := FirstLF(s);
    if k < |s| {
      var line, rest := s[..k], s[k + 1..];
      assert s == line + [LF] + rest;
      FittingLine(line, rest, size);
      FittingLinesAreExact(rest, size);
    } else {
      LastLine(s, size);
    }
  }

  lemma LastLine(s: seq<Byte>, size: nat)
    requires size > 0 && CR !in s && FirstLF(s) == |s| <= size
    ensures Payloads(s, size) == NonEmptyLines(s)
  {
    assert s[..|s|] == s;
    forall j | 0 <= j < |s| ensures s[j] != LF { assert s[..|s|][j] == s[j]; }
    TrimPlain(s);
    assert NonEmptyLines(s) == if s == [] then [] else [s];
    if |s| == size {
      assert s[size..] == [];
      assert NextSlice([], size) == ([], StreamEnded);
      assert Payloads([], size) == [];
    }
  }
}
