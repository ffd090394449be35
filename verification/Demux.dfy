/**
 The raw stream of a docker exec (docker_api.py `_stream_exec`) and the capped sinks it
 feeds (environment.py `_StreamSink`): an incremental parser over whatever pieces the
 socket delivers, equal to parsing the whole stream at once.
 */
module Demux {
  import opened Options
  import opened Bytes

  const HEADER_SIZE := 8
  const STDOUT: Byte := 1
  const STDERR: Byte := 2
  const SHELL_LOG_MAX_BYTES := 32 * 1024 * 1024

  // A received piece is never empty: an empty read is the end of the stream.
  type Piece = p: Data | |p| > 0 witness [0]

  // How the stream stops after its last piece: closed by the daemon, or cut off by a
  // timeout or a socket error.
  datatype Ending = Closed | CutOff

  datatype Frame = Frame(stream: Byte, payload: Data)

  datatype Result =
    | NoAnswer                                // closed before the head was complete
    | UnreadableStatus
    | Refused(status: int, body: Data)
    | Failed                                  // cut off
    | Streamed(stdoutBytes: nat, stderrBytes: nat)

  // --- the frames of a byte string --------------------------------------------------------

  // Four bytes, most significant first.
  function BigEndian(a: int, b: int, c: int, d: int): int {
    a * 0x1000000 + b * 0x10000 + c * 0x100 + d
  }

  function SizeIn(b: Data): nat
    requires |b| >= HEADER_SIZE
  {
    BigEndian(b[4], b[5], b[6], b[7])
  }

  predicate HasFrame(b: Data) {
    |b| >= HEADER_SIZE && |b| >= HEADER_SIZE + SizeIn(b)
  }

  function FirstFrame(b: Data): Frame
    requires HasFrame(b)
  {
    Frame(b[0], b[HEADER_SIZE..HEADER_SIZE + SizeIn(b)])
  }

  function AfterFrame(b: Data): Data
    requires HasFrame(b)
  {
    b[HEADER_SIZE + SizeIn(b)..]
  }

  function Frames(b: Data): seq<Frame>
    decreases |b|
  {
    if HasFrame(b) then [FirstFrame(b)] + Frames(AfterFrame(b)) else []
  }

  function Remainder(b: Data): Data
    decreases |b|
  {
    if HasFrame(b) then Remainder(AfterFrame(b)) else b
  }

  // The bytes of one stream, in order.
  function StreamOf(frames: seq<Frame>, stream: Byte): Data {
    if frames == [] then [] else
      var last := frames[|frames| - 1];
      StreamOf(frames[..|frames| - 1], stream) + if last.stream == stream then last.payload else []
  }

  lemma {:induction false} StreamOfConcat(a: seq<Frame>, b: seq<Frame>, stream: Byte)
    ensures StreamOf(a + b, stream) == StreamOf(a, stream) + StreamOf(b, stream)
  {
    if b == [] {
      assert a + b == a;
    } else {
      assert (a + b)[..|a + b| - 1] == a + b[..|b| - 1];
      StreamOfConcat(a, b[..|b| - 1], stream);
    }
  }

  lemma FrameOfLonger(a: Data, c: Data)
    requires HasFrame(a)
    ensures HasFrame(a + c) && FirstFrame(a + c) == FirstFrame(a) && AfterFrame(a + c) == AfterFrame(a) + c
  {
    assert forall i :: 0 <= i < HEADER_SIZE ==> (a + c)[i] == a[i];
  }

  // Parsing can be resumed from the unparsed remainder, wherever the stream was split.
  lemma {:induction false} FramesResume(a: Data, c: Data)
    ensures Frames(a + c) == Frames(a) + Frames(Remainder(a) + c)
    ensures Remainder(a + c) == Remainder(Remainder(a) + c)
    decreases |a|
  {
    if HasFrame(a) {
      FrameOfLonger(a, c);
      FramesResume(AfterFrame(a), c);
    }
  }

  lemma {:induction false} RemainderIsShort(b: Data)
    ensures !HasFrame(Remainder(b)) && |Remainder(b)| <= |b|
    decreases |b|
  {
    if HasFrame(b) {
      RemainderIsShort(AfterFrame(b));
    }
  }

  // --- demultiplexing inverts multiplexing --------------------------------------------------

  function SizeBytes(n: nat): Data
    requires n < 0x1_0000_0000
  {
    [n / 0x1000000, n / 0x10000 % 0x100, n / 0x100 % 0x100, n % 0x100]
  }

  function MuxFrame(f: Frame): Data
    requires |f.payload| < 0x1_0000_0000
  {
    [f.stream, 0, 0, 0] + SizeBytes(|f.payload|) + f.payload
  }

  predicate Muxable(frames: seq<Frame>) {
    forall f :: f in frames ==> |f.payload| < 0x1_0000_0000
  }

  function Mux(frames: seq<Frame>): Data
    requires Muxable(frames)
  {
    if frames == [] then [] else MuxFrame(frames[0]) + Mux(frames[1..])
  }

  lemma SizeRoundTrip(n: nat)
    requires n < 0x1_0000_0000
    ensures BigEndian(n / 0x1000000, n / 0x10000 % 0x100, n / 0x100 % 0x100, n % 0x100) == n
  {
    var n1, n2 := n / 0x100, n / 0x10000;
    assert n == n1 * 0x100 + n % 0x100;
    assert n1 == n2 * 0x100 + n1 % 0x100;
    assert n2 == n / 0x1000000 * 0x100 + n2 % 0x100;
  }

  lemma MuxFrameParses(f: Frame, rest: Data)
    requires |f.payload| < 0x1_0000_0000
    ensures HasFrame(MuxFrame(f) + rest)
    ensures FirstFrame(MuxFrame(f) + rest) == f && AfterFrame(MuxFrame(f) + rest) == rest
  {
    var size := SizeBytes(|f.payload|);
    SizeRoundTrip(|f.payload|);
    var b := MuxFrame(f) + rest;
    assert b == [f.stream, 0, 0, 0] + size + f.payload + rest;
    assert b[0] == f.stream && b[4] == size[0] && b[5] == size[1] && b[6] == size[2] && b[7] == size[3];
    assert SizeIn(b) == |f.payload|;
  }

  // Any multiplexed frames followed by an incomplete one parse back to exactly those
  // frames, leaving exactly that tail.
  lemma {:induction false} DemuxInvertsMux(frames: seq<Frame>, tail: Data)
    requires Muxable(frames) && !HasFrame(tail)
    ensures Frames(Mux(frames) + tail) == frames
    ensures Remainder(Mux(frames) + tail) == tail
  {
    if frames == [] {
      assert Mux(frames) + tail == tail;
    } else {
      var rest := Mux(frames[1..]) + tail;
      assert Mux(frames) + tail == MuxFrame(frames[0]) + rest;
      MuxFrameParses(frames[0], rest);
      DemuxInvertsMux(frames[1..], tail);
    }
  }

  // --- the response head ----------------------------------------------------------------------

  predicate BlankLineAt(b: Data, i: nat) {
    i + 4 <= |b| && b[i] == 13 && b[i + 1] == 10 && b[i + 2] == 13 && b[i + 3] == 10
  }

  // Where the first blank line starts.
  function HeadEnd(b: Data, from: nat): (at: Option<nat>)
    decreases |b| - from
  {
    if from + 4 > |b| then None
    else if BlankLineAt(b, from) then Some(from)
    else HeadEnd(b, from + 1)
  }

  lemma {:induction false} HeadEndIsFirst(b: Data, from: nat)
    ensures match HeadEnd(b, from)
            case None => forall i :: from <= i ==> !BlankLineAt(b, i)
            case Some(at) => from <= at && BlankLineAt(b, at) && forall i :: from <= i < at ==> !BlankLineAt(b, i)
    decreases |b| - from
  {
    if from + 4 <= |b| && !BlankLineAt(b, from) {
      HeadEndIsFirst(b, from + 1);
    }
  }

  // A head that is complete stays where it is however much follows.
  lemma HeadEndIsStable(a: Data, c: Data)
    requires HeadEnd(a, 0).Some?
    ensures HeadEnd(a + c, 0) == HeadEnd(a, 0)
  {
    HeadEndIsFirst(a, 0);
    HeadEndIsFirst(a + c, 0);
    var at := HeadEnd(a, 0).value;
    assert BlankLineAt(a + c, at);
    assert forall i :: 0 <= i < at && BlankLineAt(a + c, i) ==> BlankLineAt(a, i);
  }

  // --- the whole exchange, read at once ----------------------------------------------------------

  predicate Accepted(status: int) {
    status == 101 || status == 200
  }

  // The frames that reach the sinks.
  function Delivered(data: Data, statusOf: Data -> Option<int>): seq<Frame> {
    match HeadEnd(data, 0)
    case None => []
    case Some(at) =>
      HeadEndIsFirst(data, 0);
      var status := statusOf(data[..at]);
      if status.Some? && Accepted(status.value) then Frames(data[at + 4..]) else []
  }

  function Answer(data: Data, ending: Ending, statusOf: Data -> Option<int>): Result {
    match HeadEnd(data, 0)
    case None => if ending == Closed then NoAnswer else Failed
    case Some(at) =>
      HeadEndIsFirst(data, 0);
      var status := statusOf(data[..at]);
      if status.None? then UnreadableStatus
      else if ending == CutOff then Failed
      else if !Accepted(status.value) then Refused(status.value, data[at + 4..])
      else
        var frames := Frames(data[at + 4..]);
        Streamed(|StreamOf(frames, STDOUT)|, |StreamOf(frames, STDERR)|)
  }

  // --- what a daemon sends, and what is made of it ---------------------------------------------------

  predicate IsBlankLine(b: Data, i: int) {
    0 <= i && i + 4 <= |b| && b[i..i + 4] == [13, 10, 13, 10]
  }

  ghost predicate HasBlankLine(b: Data) {
    exists i :: IsBlankLine(b, i)
  }

  lemma BlankLineIs(b: Data, i: nat)
    ensures BlankLineAt(b, i) <==> IsBlankLine(b, i)
  {
    if i + 4 <= |b| {
      var four := b[i..i + 4];
      assert four[0] == b[i] && four[1] == b[i + 1] && four[2] == b[i + 2] && four[3] == b[i + 3];
      assert four == [four[0], four[1], four[2], four[3]];
    }
  }

  // A stream that stops before a blank line brought no answer.
  lemma NothingWithoutAHead(data: Data, ending: Ending, statusOf: Data -> Option<int>)
    requires !HasBlankLine(data)
    ensures Delivered(data, statusOf) == []
    ensures Answer(data, ending, statusOf) == if ending == Closed then NoAnswer else Failed
  {
    HeadEndIsFirst(data, 0);
    if HeadEnd(data, 0).Some? {
      BlankLineIs(data, HeadEnd(data, 0).value);
    }
  }

  // A head without a blank line in it, before the one that ends it.
  ghost predicate IsHead(head: Data) {
    !HasBlankLine(head + [13, 10, 13])
  }

  lemma HeadIsFound(head: Data, body: Data)
    requires IsHead(head)
    ensures HeadEnd(head + [13, 10, 13, 10] + body, 0) == Some(|head|)
    ensures (head + [13, 10, 13, 10] + body)[..|head|] == head
    ensures (head + [13, 10, 13, 10] + body)[|head| + 4..] == body
  {
    var data := head + [13, 10, 13, 10] + body;
    HeadEndIsFirst(data, 0);
    BlankLineIs(data, |head|);
    assert data[|head|..|head| + 4] == [13, 10, 13, 10];
    forall i: nat | i < |head|
      ensures !BlankLineAt(data, i)
    {
      BlankLineIs(data, i);
      assert data[i..i + 4] == (head + [13, 10, 13])[i..i + 4];
      assert !IsBlankLine(head + [13, 10, 13], i);
    }
  }

  // The payloads of one stream, from the front.
  function Payloads(frames: seq<Frame>, stream: Byte): Data {
    if frames == [] then []
    else (if frames[0].stream == stream then frames[0].payload else []) + Payloads(frames[1..], stream)
  }

  lemma {:induction false} StreamOfIsPayloads(frames: seq<Frame>, stream: Byte)
    ensures StreamOf(frames, stream) == Payloads(frames, stream)
  {
    if frames != [] {
      assert frames == [frames[0]] + frames[1..];
      assert [frames[0]][..0] == [];
      StreamOfConcat([frames[0]], frames[1..], stream);
      StreamOfIsPayloads(frames[1..], stream);
    }
  }

  // What comes of a head with status 101 or 200, multiplexed frames and at most a part of
  // another: the frames reach the sinks, and the result counts the bytes of each stream.
  lemma FramesAreDelivered(head: Data, frames: seq<Frame>, tail: Data, ending: Ending, statusOf: Data -> Option<int>)
    requires IsHead(head) && Muxable(frames) && !HasFrame(tail)
    requires statusOf(head) == Some(101) || statusOf(head) == Some(200)
    ensures var data := head + [13, 10, 13, 10] + (Mux(frames) + tail);
            && Delivered(data, statusOf) == frames
            && Answer(data, ending, statusOf)
               == if ending == CutOff then Failed else Streamed(|Payloads(frames, 1)|, |Payloads(frames, 2)|)
  {
    HeadIsFound(head, Mux(frames) + tail);
    DemuxInvertsMux(frames, tail);
    StreamOfIsPayloads(frames, 1);
    StreamOfIsPayloads(frames, 2);
  }

  // And of any other head: nothing reaches the sinks; without a readable status nothing
  // more is read, and a refusal comes with its status and all that follows the head.
  lemma RefusalIsReported(head: Data, body: Data, ending: Ending, statusOf: Data -> Option<int>)
    requires IsHead(head) && statusOf(head) != Some(101) && statusOf(head) != Some(200)
    ensures var data := head + [13, 10, 13, 10] + body;
            && Delivered(data, statusOf) == []
            && Answer(data, ending, statusOf)
               == if statusOf(head).None? then UnreadableStatus
                  else if ending == CutOff then Failed else Refused(statusOf(head).value, body)
  {
    HeadIsFound(head, body);
  }

  // --- the sinks -----------------------------------------------------------------------------------

  class StreamSink {
    const headBytes: nat
    var head: Data
    var file: Data
    var logged: nat
    ghost var seen: Data

    // The head and the log are the exact prefixes of the stream at their caps.
    ghost predicate Valid()
      reads this
    {
      head == Take(seen, headBytes) && file == Take(seen, 33_554_432) && logged == |file|
    }

    constructor (headBytes: nat)
      ensures Valid() && seen == [] && this.headBytes == headBytes
    {
      this.headBytes := headBytes;
      head, file, logged, seen := [], [], 0, [];
    }

    method Write(chunk: Data)
      requires Valid()
      modifies this
      ensures Valid() && seen == old(seen) + chunk
    {
      TakeOfAppend(seen, chunk, headBytes);
      TakeOfAppend(seen, chunk, SHELL_LOG_MAX_BYTES);
      seen := seen + chunk;
      if |head| < headBytes {
        head := head + Take(chunk, headBytes - |head|);
      }
      var room := SHELL_LOG_MAX_BYTES - logged;
      if room > 0 {
        var part := Take(chunk, room);
        file := file + part;
        logged := logged + |part|;
      }
    }
  }

  // --- the exchange, read piece by piece --------------------------------------------------------------

  lemma {:induction false} ConcatAppends(pieces: seq<Piece>, i: nat)
    requires i < |pieces|
    ensures Concat(pieces[..i + 1]) == Concat(pieces[..i]) + pieces[i]
  {
    assert pieces[..i + 1][..i] == pieces[..i];
  }

  lemma {:induction false} ConcatSplits(pieces: seq<Piece>, i: nat) returns (rest: Data)
    requires i <= |pieces|
    ensures Concat(pieces) == Concat(pieces[..i]) + rest
    decreases |pieces| - i
  {
    if i == |pieces| {
      assert pieces[..i] == pieces;
      rest := [];
    } else {
      rest := ConcatSplits(pieces, i + 1);
      ConcatAppends(pieces, i);
      rest := pieces[i] + rest;
    }
  }

  // Parse the complete frames out of the buffer and feed the sinks.
  method Drain(buffer: Data, out: StreamSink, err: StreamSink, outTotal: nat, errTotal: nat)
    returns (rest: Data, outTotal': nat, errTotal': nat)
    requires out != err && out.Valid() && err.Valid()
    modifies out, err
    ensures out.Valid() && err.Valid() && rest == Remainder(buffer) && !HasFrame(rest)
    ensures out.seen == old(out.seen) + StreamOf(Frames(buffer), STDOUT)
    ensures err.seen == old(err.seen) + StreamOf(Frames(buffer), STDERR)
    ensures outTotal' == outTotal + |StreamOf(Frames(buffer), STDOUT)|
    ensures errTotal' == errTotal + |StreamOf(Frames(buffer), STDERR)|
  {
    hide Frames, Remainder, StreamOf, StreamSink.Valid, BigEndian;
    rest, outTotal', errTotal' := buffer, outTotal, errTotal;
    ghost var parsed: seq<Frame> := [];
    NoFrames();
    while |rest| >= HEADER_SIZE
      invariant out.Valid() && err.Valid()
      invariant Frames(buffer) == parsed + Frames(rest) && Remainder(buffer) == Remainder(rest)
      invariant out.seen == old(out.seen) + StreamOf(parsed, STDOUT)
      invariant err.seen == old(err.seen) + StreamOf(parsed, STDERR)
      invariant outTotal' == outTotal + |StreamOf(parsed, STDOUT)|
      invariant errTotal' == errTotal + |StreamOf(parsed, STDERR)|
      decreases |rest|
    {
      var stream, size := rest[0], SizeIn(rest);
      FrameParsed(rest);
      if |rest| < HEADER_SIZE + size {
        break;
      }
      var payload := rest[HEADER_SIZE..HEADER_SIZE + size];
      ghost var frame := FirstFrame(rest);
      OneMoreFrame(parsed, frame, STDOUT);
      OneMoreFrame(parsed, frame, STDERR);
      FrameMoved(parsed, frame, Frames(AfterFrame(rest)));
      parsed := parsed + [frame];
      rest := rest[HEADER_SIZE + size..];
      if stream == STDOUT {
        outTotal' := outTotal' + |payload|;
        out.Write(payload);
      } else if stream == STDERR {
        errTotal' := errTotal' + |payload|;
        err.Write(payload);
      }
    }
    FrameParsed(rest);
    RemainderIsShort(buffer);
    assert Frames(buffer) == parsed;
  }

  lemma NoFrames()
    ensures StreamOf([], STDOUT) == [] && StreamOf([], STDERR) == []
  {
  }

  lemma FrameParsed(b: Data)
    ensures HasFrame(b) ==> Frames(b) == [FirstFrame(b)] + Frames(AfterFrame(b))
    ensures HasFrame(b) ==> Remainder(b) == Remainder(AfterFrame(b))
    ensures !HasFrame(b) ==> Frames(b) == [] && Remainder(b) == b
  {
  }

  lemma FrameMoved(parsed: seq<Frame>, frame: Frame, left: seq<Frame>)
    ensures parsed + ([frame] + left) == parsed + [frame] + left
  {
  }

  lemma OneMoreFrame(parsed: seq<Frame>, f: Frame, stream: Byte)
    ensures StreamOf(parsed + [f], stream)
            == if f.stream == stream then StreamOf(parsed, stream) + f.payload else StreamOf(parsed, stream)
  {
    assert (parsed + [f])[..|parsed|] == parsed;
  }

  lemma NothingReceived()
    ensures Concat([]) == []
  {
  }

  // Whatever the pieces, the result and what the sinks saw are those of the whole
  // stream read at once.
  method StreamExec(pieces: seq<Piece>, ending: Ending, statusOf: Data -> Option<int>, out: StreamSink, err: StreamSink)
    returns (result: Result)
    requires out != err && out.Valid() && err.Valid()
    modifies out, err
    ensures out.Valid() && err.Valid()
    ensures result == Answer(Concat(pieces), ending, statusOf)
    ensures out.seen == old(out.seen) + StreamOf(Delivered(Concat(pieces), statusOf), STDOUT)
    ensures err.seen == old(err.seen) + StreamOf(Delivered(Concat(pieces), statusOf), STDERR)
  {
    hide Concat, Frames, StreamOf, HeadEnd, StreamSink.Valid;
    assert Concat(pieces[..0]) == [] by { NothingReceived(); }
    NoFrames();
    var buffer: Data := [];
    var next := 0;
    var at := HeadEnd(buffer, 0);
    while at.None?
      invariant 0 <= next <= |pieces| && buffer == Concat(pieces[..next]) && at == HeadEnd(buffer, 0)
      invariant out.Valid() && err.Valid() && out.seen == old(out.seen) && err.seen == old(err.seen)
      decreases |pieces| - next
    {
      if next == |pieces| {
        assert pieces[..next] == pieces;
        return if ending == Closed then NoAnswer else Failed;
      }
      ConcatAppends(pieces, next);
      buffer := buffer + pieces[next];
      next := next + 1;
      at := HeadEnd(buffer, 0);
    }
    HeadEndIsFirst(buffer, 0);
    ghost var later := ConcatSplits(pieces, next);
    HeadEndIsStable(buffer, later);
    assert (buffer + later)[..at.value] == buffer[..at.value];
    var status := statusOf(buffer[..at.value]);
    buffer := buffer[at.value + 4..];
    if status.None? {
      return UnreadableStatus;
    }
    ghost var start := at.value + 4;
    if !Accepted(status.value) {
      result := ReadRest(pieces, next, ending, status.value, buffer, start);
      return;
    }
    result := ReadFrames(pieces, next, ending, out, err, buffer, start);
  }

  // The body of a refusal is read to the end.
  method ReadRest(pieces: seq<Piece>, from: nat, ending: Ending, status: int, buffer: Data, ghost start: nat)
    returns (result: Result)
    requires from <= |pieces| && start <= |Concat(pieces[..from])| && buffer == Concat(pieces[..from])[start..]
    ensures start <= |Concat(pieces)|
    ensures result == if ending == CutOff then Failed else Refused(status, Concat(pieces)[start..])
  {
    hide Concat;
    var rest, next := buffer, from;
    while next < |pieces|
      invariant from <= next <= |pieces| && start <= |Concat(pieces[..next])| && rest == Concat(pieces[..next])[start..]
    {
      ConcatAppends(pieces, next);
      rest := rest + pieces[next];
      next := next + 1;
    }
    assert pieces[..next] == pieces;
    result := if ending == CutOff then Failed else Refused(status, rest);
  }

  method ReadFrames(pieces: seq<Piece>, from: nat, ending: Ending, out: StreamSink, err: StreamSink, first: Data,
                    ghost start: nat)
    returns (result: Result)
    requires out != err && out.Valid() && err.Valid()
    requires from <= |pieces| && start <= |Concat(pieces[..from])| && first == Concat(pieces[..from])[start..]
    modifies out, err
    ensures out.Valid() && err.Valid() && start <= |Concat(pieces)|
    ensures var frames := Frames(Concat(pieces)[start..]);
            && out.seen == old(out.seen) + StreamOf(frames, STDOUT)
            && err.seen == old(err.seen) + StreamOf(frames, STDERR)
            && result == if ending == CutOff then Failed
                         else Streamed(|StreamOf(frames, STDOUT)|, |StreamOf(frames, STDERR)|)
  {
    hide Concat, Frames, Remainder, StreamOf, StreamSink.Valid;
    var buffer, next := first, from;
    var outTotal, errTotal := 0, 0;
    buffer, outTotal, errTotal := Drain(buffer, out, err, outTotal, errTotal);
    ghost var body := first;
    while next < |pieces|
      invariant from <= next <= |pieces| && start <= |Concat(pieces[..next])| && body == Concat(pieces[..next])[start..]
      invariant out.Valid() && err.Valid() && buffer == Remainder(body)
      invariant out.seen == old(out.seen) + StreamOf(Frames(body), STDOUT)
      invariant err.seen == old(err.seen) + StreamOf(Frames(body), STDERR)
      invariant outTotal == |StreamOf(Frames(body), STDOUT)| && errTotal == |StreamOf(Frames(body), STDERR)|
    {
      ConcatAppends(pieces, next);
      var piece := pieces[next];
      FramesResume(body, piece);
      StreamOfConcat(Frames(body), Frames(buffer + piece), STDOUT);
      StreamOfConcat(Frames(body), Frames(buffer + piece), STDERR);
      body := body + piece;
      buffer, outTotal, errTotal := Drain(buffer + piece, out, err, outTotal, errTotal);
      next := next + 1;
    }
    assert pieces[..next] == pieces;
    result := if ending == CutOff then Failed else Streamed(outTotal, errTotal);
  }
}
