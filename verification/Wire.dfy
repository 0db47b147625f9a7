/** The framing of the socket protocol (wire/wire.go): a type byte, four length
    bytes, a payload. */
module Wire {
  import opened Bytes

  const MAX_FRAME: nat := 32 * 1024 * 1024
  const HEADER: nat := 5

  const CONTROL: byte := 1
  const RESPONSE: byte := 2
  const ATTACH: byte := 3
  const ERROR: byte := 9
  const SUBSCRIBE: byte := 10

  datatype Frame = Frame(kind: byte, payload: seq<byte>)

  predicate Sendable(f: Frame) {
    |f.payload| <= MAX_FRAME
  }

  // ----- lengths ----------------------------------------------------------------------

  function Big32(n: nat): (s: seq<byte>)
    requires n < 0x1_0000_0000
    ensures |s| == 4
  {
    [n / 0x100_0000, n / 0x1_0000 % 0x100, n / 0x100 % 0x100, n % 0x100]
  }

  function FromBig32(s: seq<byte>): nat
    requires |s| == 4
  {
    var b0: int, b1: int, b2: int, b3: int := s[0], s[1], s[2], s[3];
    b0 * 0x100_0000 + b1 * 0x1_0000 + b2 * 0x100 + b3
  }

  lemma LengthRoundTrip(n: nat)
    requires n < 0x1_0000_0000
    ensures FromBig32(Big32(n)) == n
  {
    assert n == n / 0x100 * 0x100 + n % 0x100;
    assert n / 0x100 == n / 0x1_0000 * 0x100 + n / 0x100 % 0x100;
    assert n / 0x1_0000 == n / 0x100_0000 * 0x100 + n / 0x1_0000 % 0x100;
  }

  // ----- frames on the wire -------------------------------------------------------------

  function Header(f: Frame): (s: seq<byte>)
    requires Sendable(f)
    ensures |s| == HEADER
  {
    [f.kind] + Big32(|f.payload|)
  }

  function Encoded(f: Frame): seq<byte>
    requires Sendable(f)
  {
    Header(f) + f.payload
  }

  predicate AllSendable(frames: seq<Frame>) {
    forall i :: 0 <= i < |frames| ==> Sendable(frames[i])
  }

  function Stream(frames: seq<Frame>): seq<byte>
    requires AllSendable(frames)
  {
    if frames == [] then [] else Encoded(frames[0]) + Stream(frames[1..])
  }

  /** How an attempt to read one frame ends. The source reports the end of the
      input inside a header or payload apart from an end before it. */
  datatype Outcome =
    | Received(frame: Frame)
    | Eof
    | Torn
    | TooLong(length: nat)

  function First(bytes: seq<byte>): Outcome {
    if bytes == [] then Eof
    else if |bytes| < HEADER then Torn
    else
      var length := FromBig32(bytes[1..HEADER]);
      if length > MAX_FRAME then TooLong(length)
      else if |bytes| == HEADER && length > 0 then Eof
      else if |bytes| < HEADER + length then Torn
      else Received(Frame(bytes[0], bytes[HEADER..HEADER + length]))
  }

  /** What the attempt uses up. */
  function Used(bytes: seq<byte>): (n: nat)
    ensures n <= |bytes|
    ensures First(bytes).Received? ==> n >= HEADER
  {
    match First(bytes)
    case Received(frame) => HEADER + |frame.payload|
    case TooLong(_) => HEADER
    case _ => |bytes|
  }

  /** Every frame read before reading fails. */
  function Frames(bytes: seq<byte>): seq<Frame>
    decreases |bytes|
  {
    match First(bytes)
    case Received(frame) => [frame] + Frames(bytes[Used(bytes)..])
    case _ => []
  }

  /** How reading fails in the end. */
  function Ending(bytes: seq<byte>): Outcome
    decreases |bytes|
  {
    if First(bytes).Received? then Ending(bytes[Used(bytes)..]) else First(bytes)
  }

  function LengthAt(bytes: seq<byte>): nat
    requires |bytes| >= 5
  {
    var b1: int, b2: int, b3: int, b4: int := bytes[1], bytes[2], bytes[3], bytes[4];
    b1 * 0x100_0000 + b2 * 0x1_0000 + b3 * 0x100 + b4
  }

  /** A frame in bytes: its type, the length of its payload, big endian in four, and
      the payload, which may be 32 MiB. */
  lemma FrameBytes(f: Frame)
    ensures Sendable(f) <==> |f.payload| <= 0x200_0000
    ensures Sendable(f) ==>
      var e := Encoded(f);
      && |e| == 5 + |f.payload| && e[0] == f.kind && e[5..] == f.payload
      && LengthAt(e) == |f.payload|
  {
    if Sendable(f) {
      LengthRoundTrip(|f.payload|);
      var e := Encoded(f);
      assert e[1..5] == Big32(|f.payload|);
      assert e[1] == e[1..5][0] && e[2] == e[1..5][1] && e[3] == e[1..5][2] && e[4] == e[1..5][3];
    }
  }

  /** How reading a frame ends, in bytes. */
  lemma FirstInBytes(bytes: seq<byte>)
    ensures First(bytes) ==
      if |bytes| == 0 then Eof
      else if |bytes| < 5 then Torn
      else
        var n := LengthAt(bytes);
        if n > 0x200_0000 then TooLong(n)
        else if |bytes| >= 5 + n then Received(Frame(bytes[0], bytes[5..5 + n]))
        else if |bytes| == 5 then Eof
        else Torn
  {
    if |bytes| >= 5 {
      var header := bytes[1..5];
      assert header[0] == bytes[1] && header[1] == bytes[2] && header[2] == bytes[3] && header[3] == bytes[4];
    }
  }

  // ----- the two halves fit ----------------------------------------------------------------

  lemma HeaderReads(f: Frame, rest: seq<byte>)
    requires Sendable(f)
    ensures (Header(f) + rest)[0] == f.kind
    ensures FromBig32((Header(f) + rest)[1..HEADER]) == |f.payload|
  {
    assert (Header(f) + rest)[1..HEADER] == Big32(|f.payload|);
    LengthRoundTrip(|f.payload|);
  }

  /** A frame reads back as itself, and the reader is left on what follows it. */
  lemma FrameRoundTrip(f: Frame, rest: seq<byte>)
    requires Sendable(f)
    ensures First(Encoded(f) + rest) == Received(f)
    ensures Used(Encoded(f) + rest) == |Encoded(f)| && (Encoded(f) + rest)[|Encoded(f)|..] == rest
  {
    var bytes := Encoded(f) + rest;
    assert bytes == Header(f) + (f.payload + rest);
    HeaderReads(f, f.payload + rest);
    assert bytes[HEADER..HEADER + |f.payload|] == f.payload;
  }

  /** A frame cut short, however short, is not a frame. */
  lemma CutShort(f: Frame, n: nat)
    requires Sendable(f) && n < |Encoded(f)|
    ensures First(Encoded(f)[..n]) == if n == 0 || n == HEADER then Eof else Torn
  {
    var bytes := Encoded(f)[..n];
    if n >= HEADER {
      assert bytes == Header(f) + f.payload[..n - HEADER];
      HeaderReads(f, f.payload[..n - HEADER]);
    }
  }

  /** Reading what was written gives back exactly the frames written. */
  lemma {:induction false} StreamRoundTrip(frames: seq<Frame>)
    requires AllSendable(frames)
    ensures Frames(Stream(frames)) == frames && Ending(Stream(frames)) == Eof
  {
    if frames != [] {
      FrameRoundTrip(frames[0], Stream(frames[1..]));
      StreamRoundTrip(frames[1..]);
    }
  }

  /** So no two lists of frames look alike on the wire. */
  lemma StreamsDiffer(left: seq<Frame>, right: seq<Frame>)
    requires AllSendable(left) && AllSendable(right) && left != right
    ensures Stream(left) != Stream(right)
  {
    StreamRoundTrip(left);
    StreamRoundTrip(right);
  }

  lemma OneFrameMore(f: Frame, frames: seq<Frame>)
    requires Sendable(f) && AllSendable(frames)
    ensures AllSendable([f] + frames) && Stream([f] + frames) == Encoded(f) + Stream(frames)
  {
  }

  /** `read` is exactly the frames that are complete in the first `n` bytes. */
  ghost predicate CompleteIn(frames: seq<Frame>, read: seq<Frame>, n: nat)
    requires AllSendable(frames)
  {
    && read <= frames
    && |Stream(frames[..|read|])| <= n
    && (|read| < |frames| ==> n < |Stream(frames[..|read| + 1])|)
  }

  lemma CompleteOneMore(frames: seq<Frame>, read: seq<Frame>, n: nat)
    requires AllSendable(frames) && frames != [] && n >= |Encoded(frames[0])|
    requires CompleteIn(frames[1..], read, n - |Encoded(frames[0])|)
    ensures CompleteIn(frames, [frames[0]] + read, n)
  {
    var f, later := frames[0], frames[1..];
    assert frames[..|read| + 1] == [f] + later[..|read|];
    OneFrameMore(f, later[..|read|]);
    if |read| < |later| {
      assert frames[..|read| + 2] == [f] + later[..|read| + 1];
      OneFrameMore(f, later[..|read| + 1]);
    }
  }

  /** A stream cut off anywhere yields exactly the frames that are complete in
      it, and then fails as an ended stream does. */
  lemma {:induction false} TruncatedStream(frames: seq<Frame>, n: nat)
    requires AllSendable(frames) && n <= |Stream(frames)|
    ensures CompleteIn(frames, Frames(Stream(frames)[..n]), n)
    ensures Ending(Stream(frames)[..n]) in {Eof, Torn}
  {
    if frames == [] {
    } else if n < |Encoded(frames[0])| {
      NoFrameRead(frames, n);
    } else {
      OneFrameRead(frames, n);
      TruncatedStream(frames[1..], n - |Encoded(frames[0])|);
      CompleteOneMore(frames, Frames(Stream(frames[1..])[..n - |Encoded(frames[0])|]), n);
    }
  }

  lemma NoFrameRead(frames: seq<Frame>, n: nat)
    requires AllSendable(frames) && frames != [] && n < |Encoded(frames[0])|
    ensures Frames(Stream(frames)[..n]) == [] && Ending(Stream(frames)[..n]) in {Eof, Torn}
    ensures CompleteIn(frames, [], n)
  {
    CutShort(frames[0], n);
    assert Stream(frames)[..n] == Encoded(frames[0])[..n];
    assert frames[..1] == [frames[0]];
  }

  lemma OneFrameRead(frames: seq<Frame>, n: nat)
    requires AllSendable(frames) && frames != [] && |Encoded(frames[0])| <= n <= |Stream(frames)|
    ensures var tail := Stream(frames[1..])[..n - |Encoded(frames[0])|];
      && Frames(Stream(frames)[..n]) == [frames[0]] + Frames(tail)
      && Ending(Stream(frames)[..n]) == Ending(tail)
  {
    var tail := Stream(frames[1..])[..n - |Encoded(frames[0])|];
    assert Stream(frames)[..n] == Encoded(frames[0]) + tail;
    FrameRoundTrip(frames[0], tail);
  }

  /** An end of input is taken for a clean close in one case too many: when all
      but the payload of the last frame arrived. */
  lemma CleanCloseOrBareHeader(bytes: seq<byte>)
    ensures First(bytes) == Eof <==>
      bytes == [] || (|bytes| == HEADER && 0 < FromBig32(bytes[1..HEADER]) <= MAX_FRAME)
  {
  }

  // ----- the writer and the reader --------------------------------------------------------------

  /** As much of it as there is room for. */
  function Upto<T>(s: seq<T>, room: nat): seq<T> {
    if |s| <= room then s else s[..room]
  }

  /** A connection that takes `room` more bytes before writing to it fails. */
  class Writer {
    var written: seq<byte>
    var room: nat

    constructor (room: nat)
      ensures written == [] && this.room == room
    {
      written, this.room := [], room;
    }

    /** A write that fails may have written some of it. */
    method Write(bytes: seq<byte>) returns (ok: bool)
      modifies this
      ensures ok == (|bytes| <= old(room))
      ensures written == old(written) + Upto(bytes, old(room)) && room == old(room) - |Upto(bytes, old(room))|
    {
      ok := |bytes| <= room;
      var taken := Upto(bytes, room);
      written := written + taken;
      room := room - |taken|;
    }

    /** An oversize frame is refused before anything of it is written. */
    method WriteFrame(kind: byte, payload: seq<byte>) returns (ok: bool)
      modifies this
      ensures var f := Frame(kind, payload);
        && ok == (Sendable(f) && |Encoded(f)| <= old(room))
        && written == (if Sendable(f) then old(written) + Upto(Encoded(f), old(room)) else old(written))
        && room == old(room) - (if Sendable(f) then |Upto(Encoded(f), old(room))| else 0)
    {
      if |payload| > MAX_FRAME {
        return false;
      }
      var header := new byte[HEADER];
      header[0] := kind;
      PutUint32(header, |payload|);
      assert header[..] == Header(Frame(kind, payload));
      ok := Write(header[..]);
      if ok {
        ok := Write(payload);
      }
    }
  }

  /** Big endian, after the first byte. */
  method PutUint32(header: array<byte>, n: nat)
    requires header.Length == HEADER && n < 0x1_0000_0000
    modifies header
    ensures header[..] == [old(header[0])] + Big32(n)
  {
    header[1] := n / 0x100_0000;
    header[2] := n / 0x1_0000 % 0x100;
    header[3] := n / 0x100 % 0x100;
    header[4] := n % 0x100;
  }

  datatype Fill = Filled | Nothing | Partly

  class Reader {
    const input: seq<byte>    // everything the connection will ever yield
    var at: nat

    ghost predicate Valid()
      reads this
    {
      at <= |input|
    }

    constructor (input: seq<byte>)
      ensures Valid() && this.input == input && at == 0
    {
      this.input, at := input, 0;
    }

    /** Fills the buffer, or uses up the input trying. */
    method ReadFull(buffer: array<byte>) returns (fill: Fill)
      requires Valid()
      modifies this, buffer
      ensures Valid()
      ensures fill == if |input| - old(at) >= buffer.Length then Filled else if |input| == old(at) then Nothing else Partly
      ensures at == if fill.Filled? then old(at) + buffer.Length else |input|
      ensures fill.Filled? ==> buffer[..] == input[old(at)..at]
    {
      var n := 0;
      while n < buffer.Length && at < |input|
        invariant n <= buffer.Length && at == old(at) + n <= |input|
        invariant buffer[..n] == input[old(at)..at]
        decreases buffer.Length - n
      {
        buffer[n] := input[at];
        at, n := at + 1, n + 1;
      }
      return if n == buffer.Length then Filled else if n == 0 then Nothing else Partly;
    }

    /** Whatever the input, the outcome is the first frame of what is left, and
        the reader moves past what that used up. */
    method ReadFrame() returns (outcome: Outcome)
      requires Valid()
      modifies this
      ensures Valid()
      ensures outcome == First(input[old(at)..])
      ensures at == old(at) + Used(input[old(at)..])
    {
      ghost var left := input[at..];
      var header := new byte[HEADER];
      var fill := ReadFull(header);
      if !fill.Filled? {
        return if fill.Nothing? then Eof else Torn;
      }
      assert header[..] == left[..HEADER];
      assert header[1..] == left[1..HEADER];
      var length := FromBig32(header[1..]);
      if length > MAX_FRAME {
        return TooLong(length);
      }
      var payload := new byte[length];
      fill := ReadFull(payload);
      if !fill.Filled? {
        return if fill.Nothing? then Eof else Torn;
      }
      assert payload[..] == left[HEADER..HEADER + length];
      return Received(Frame(header[0], payload[..]));
    }
  }
}
