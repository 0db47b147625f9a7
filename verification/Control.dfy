/** The request loop of a control connection (server/server.go, `serveConn`). */
module Control {
  import opened Bytes
  import opened Wire
  import opened Sequences

  /** The daemon behind the connection, whatever it is: how it reads a request,
      what it does with one it can read, and what it says of one it cannot; what it
      says of an attach or subscribe it cannot read, and of a frame out of place. */
  datatype Daemon<!E, !R> = Daemon(
    decode: seq<byte> -> Option<R>,
    refusal: seq<byte> -> seq<byte>,
    handle: (E, R) -> (E, seq<byte>),
    malformed: Frame -> Option<seq<byte>>,
    complaint: seq<byte>)

  /** One request, and the response to it. */
  function Answer<E, R>(d: Daemon<E, R>, e: E, request: seq<byte>): (E, Frame) {
    match d.decode(request)
    case None => (e, Frame(RESPONSE, d.refusal(request)))
    case Some(r) => var (next, payload) := d.handle(e, r); (next, Frame(RESPONSE, payload))
  }

  /** What is said of a frame that is no request. An attach or subscribe that can be
      read takes the connection over, and says nothing here. */
  function Dismissal<E, R>(d: Daemon<E, R>, f: Frame): (frames: seq<Frame>)
    ensures AllSendable(frames)
  {
    if f.kind == ATTACH || f.kind == SUBSCRIBE then
      match d.malformed(f)
      case Some(message) => Sent(Frame(ERROR, message))
      case None => []
    else Sent(Frame(ERROR, d.complaint))
  }

  function Sent(f: Frame): (frames: seq<Frame>)
    ensures AllSendable(frames)
  {
    if Sendable(f) then [f] else []
  }

  /** The engine after these frames, and what the loop has to say. It ends at a
      frame that is no request, or at a response too long to send. */
  function Served<E, R>(d: Daemon<E, R>, e: E, frames: seq<Frame>): (E, seq<Frame>) {
    if frames == [] then (e, [])
    else if frames[0].kind != CONTROL then (e, Dismissal(d, frames[0]))
    else
      var (next, response) := Answer(d, e, frames[0].payload);
      if !Sendable(response) then (next, [])
      else
        var (last, responses) := Served(d, next, frames[1..]);
        (last, [response] + responses)
  }

  lemma {:induction false} ServedSendable<E, R>(d: Daemon<E, R>, e: E, frames: seq<Frame>)
    ensures AllSendable(Served(d, e, frames).1)
  {
    if frames != [] && frames[0].kind == CONTROL {
      ServedSendable(d, Answer(d, e, frames[0].payload).0, frames[1..]);
    }
  }

  /** The engine, and the bytes written, when the connection takes `room` more
      bytes: the loop also ends at the first write that fails. */
  function Wrote<E, R>(d: Daemon<E, R>, e: E, frames: seq<Frame>, room: nat): (E, seq<byte>)
    decreases |frames|
  {
    if frames == [] then (e, [])
    else if frames[0].kind != CONTROL then (e, Upto(Stream(Dismissal(d, frames[0])), room))
    else
      var (next, response) := Answer(d, e, frames[0].payload);
      if !Sendable(response) then (next, [])
      else if |Encoded(response)| > room then (next, Encoded(response)[..room])
      else
        var (last, bytes) := Wrote(d, next, frames[1..], room - |Encoded(response)|);
        (last, Encoded(response) + bytes)
  }

  lemma UptoMore(first: seq<byte>, rest: seq<byte>, room: nat)
    ensures |first| > room ==> Upto(first + rest, room) == first[..room]
    ensures |first| <= room ==> Upto(first + rest, room) == first + Upto(rest, room - |first|)
  {
  }

  /** What is on the wire is what the loop had to say, as far as it got; and the
      engine has served all the requests, or those up to where the connection
      broke. */
  lemma {:induction false} WroteWhatWasServed<E, R>(d: Daemon<E, R>, e: E, frames: seq<Frame>, room: nat) returns (n: nat)
    ensures n <= |frames| && AllSendable(Served(d, e, frames).1)
    ensures Wrote(d, e, frames, room).1 == Upto(Stream(Served(d, e, frames).1), room)
    ensures Wrote(d, e, frames, room).0 == Served(d, e, frames[..n]).0
    ensures |Stream(Served(d, e, frames).1)| <= room ==> n == |frames|
    decreases |frames|
  {
    ServedSendable(d, e, frames);
    n := |frames|;
    assert frames[..n] == frames;
    if frames != [] && frames[0].kind == CONTROL {
      var (next, response) := Answer(d, e, frames[0].payload);
      if Sendable(response) {
        ServedSendable(d, next, frames[1..]);
        OneFrameMore(response, Served(d, next, frames[1..]).1);
        UptoMore(Encoded(response), Stream(Served(d, next, frames[1..]).1), room);
        if |Encoded(response)| > room {
          n := 1;
          assert frames[..1][1..] == [];
        } else {
          n := WroteWhatWasServed(d, next, frames[1..], room - |Encoded(response)|);
          assert frames[..n + 1][1..] == frames[1..][..n];
          n := n + 1;
        }
      }
    }
  }

  // ----- requests one after another ---------------------------------------------------------------

  /** The engine after these requests, each carried out on what the one before it
      left; one that cannot be read changes nothing. */
  function StateAfter<E, R>(d: Daemon<E, R>, e: E, frames: seq<Frame>): E {
    if frames == [] then e
    else
      var before, request := StateAfter(d, e, frames[..|frames| - 1]), d.decode(frames[|frames| - 1].payload);
      if request.Some? then d.handle(before, request.value).0 else before
  }

  /** The response, a frame of type 2, to one of them. */
  function ReplyTo<E, R>(d: Daemon<E, R>, before: E, f: Frame): Frame {
    var request := d.decode(f.payload);
    Frame(2, if request.Some? then d.handle(before, request.value).1 else d.refusal(f.payload))
  }

  function Replies<E, R>(d: Daemon<E, R>, e: E, frames: seq<Frame>): seq<Frame> {
    seq(|frames|, i requires 0 <= i < |frames| => ReplyTo(d, StateAfter(d, e, frames[..i]), frames[i]))
  }

  predicate Fits(f: Frame) {
    |f.payload| <= 0x200_0000
  }

  /** The loop serves the first `n` frames: they are requests whose responses fit a
      frame, and the next, if there is one, is not. */
  ghost predicate Serves<E, R>(d: Daemon<E, R>, e: E, frames: seq<Frame>, n: nat) {
    && n <= |frames|
    && (forall i :: 0 <= i < n ==> frames[i].kind == 1 && Fits(Replies(d, e, frames)[i]))
    && (n < |frames| ==> frames[n].kind != 1 || !Fits(Replies(d, e, frames)[n]))
  }

  /** What is said of the frame that ends the loop: an error, a frame of type 9, if it
      is an attach (3) or subscribe (10) that cannot be read or anything else but a
      request; nothing if it is one that can. */
  function LastWords<E, R>(d: Daemon<E, R>, f: Frame): seq<Frame> {
    var message := if f.kind == 3 || f.kind == 10 then d.malformed(f) else Some(d.complaint);
    if message.Some? && |message.value| <= 0x200_0000 then [Frame(9, message.value)] else []
  }

  /** Everything said. */
  function AllSaid<E, R>(d: Daemon<E, R>, e: E, frames: seq<Frame>, n: nat): seq<Frame>
    requires n <= |frames|
  {
    Replies(d, e, frames[..n]) + if n < |frames| && frames[n].kind != 1 then LastWords(d, frames[n]) else []
  }

  /** The engine in the end. A request is carried out even if its response turns out
      to be too long to send. */
  function EngineAfter<E, R>(d: Daemon<E, R>, e: E, frames: seq<Frame>, n: nat): E
    requires n <= |frames|
  {
    if n < |frames| && frames[n].kind == 1 then StateAfter(d, e, frames[..n + 1]) else StateAfter(d, e, frames[..n])
  }

  lemma {:induction false} StateAfterFirst<E, R>(d: Daemon<E, R>, e: E, f: Frame, later: seq<Frame>)
    ensures StateAfter(d, e, [f] + later) == StateAfter(d, StateAfter(d, e, [f]), later)
  {
    if later == [] {
      assert [f] + later == [f];
    } else {
      var shorter := later[..|later| - 1];
      assert ([f] + later)[..|later|] == [f] + shorter;
      StateAfterFirst(d, e, f, shorter);
    }
  }

  lemma AnswerIsReply<E, R>(d: Daemon<E, R>, e: E, f: Frame)
    ensures Answer(d, e, f.payload) == (StateAfter(d, e, [f]), ReplyTo(d, e, f))
  {
    assert [f][..0] == [];
  }

  lemma RepliesFirst<E, R>(d: Daemon<E, R>, e: E, frames: seq<Frame>)
    requires frames != []
    ensures Replies(d, e, frames) == [ReplyTo(d, e, frames[0])] + Replies(d, StateAfter(d, e, [frames[0]]), frames[1..])
  {
    var next, later := StateAfter(d, e, [frames[0]]), frames[1..];
    var all := [ReplyTo(d, e, frames[0])] + Replies(d, next, later);
    forall i | 0 <= i < |frames|
      ensures Replies(d, e, frames)[i] == all[i]
    {
      if i == 0 {
        assert frames[..0] == [];
      } else {
        assert frames[..i] == [frames[0]] + later[..i - 1];
        StateAfterFirst(d, e, frames[0], later[..i - 1]);
      }
    }
  }

  lemma LastWordsSaid<E, R>(d: Daemon<E, R>, f: Frame)
    ensures Dismissal(d, f) == LastWords(d, f)
  {
  }

  /** Nothing is served of these. */
  lemma ServedNothing<E, R>(d: Daemon<E, R>, e: E, frames: seq<Frame>)
    requires Serves(d, e, frames, 0)
    ensures Served(d, e, frames).0 == EngineAfter(d, e, frames, 0)
    ensures Served(d, e, frames).1 == AllSaid(d, e, frames, 0)
  {
    assert frames[..0] == [];
    if frames != [] {
      assert Replies(d, e, frames)[0] == ReplyTo(d, e, frames[0]);
      AnswerIsReply(d, e, frames[0]);
      LastWordsSaid(d, frames[0]);
      assert frames[..1] == [frames[0]];
      assert Replies(d, e, []) == [];
    }
  }

  /** The rest, once the first is served. */
  lemma ServesRest<E, R>(d: Daemon<E, R>, e: E, frames: seq<Frame>, n: nat)
    requires n > 0 && Serves(d, e, frames, n)
    ensures frames[0].kind == 1 && Fits(ReplyTo(d, e, frames[0]))
    ensures Serves(d, StateAfter(d, e, [frames[0]]), frames[1..], n - 1)
  {
    var next, later := StateAfter(d, e, [frames[0]]), frames[1..];
    RepliesFirst(d, e, frames);
    assert frames[0].kind == 1 && Fits(Replies(d, e, frames)[0]);
    forall i | 0 <= i < n - 1
      ensures later[i].kind == 1 && Fits(Replies(d, next, later)[i])
    {
      assert frames[i + 1].kind == 1 && Fits(Replies(d, e, frames)[i + 1]);
    }
  }

  lemma AllSaidFirst<E, R>(d: Daemon<E, R>, e: E, frames: seq<Frame>, n: nat)
    requires 0 < n <= |frames|
    ensures AllSaid(d, e, frames, n)
         == [ReplyTo(d, e, frames[0])] + AllSaid(d, StateAfter(d, e, [frames[0]]), frames[1..], n - 1)
  {
    var f, later := frames[0], frames[1..];
    var next := StateAfter(d, e, [f]);
    assert frames[..n][1..] == later[..n - 1];
    RepliesFirst(d, e, frames[..n]);
    Regrouped([ReplyTo(d, e, f)], Replies(d, next, later[..n - 1]),
              if n < |frames| && frames[n].kind != 1 then LastWords(d, frames[n]) else []);
  }

  lemma EngineAfterFirst<E, R>(d: Daemon<E, R>, e: E, frames: seq<Frame>, n: nat)
    requires 0 < n <= |frames|
    ensures EngineAfter(d, e, frames, n) == EngineAfter(d, StateAfter(d, e, [frames[0]]), frames[1..], n - 1)
  {
    var f, later := frames[0], frames[1..];
    assert frames[..n] == [f] + later[..n - 1];
    StateAfterFirst(d, e, f, later[..n - 1]);
    if n < |frames| {
      assert frames[..n + 1] == [f] + later[..n];
      StateAfterFirst(d, e, f, later[..n]);
    }
  }

  lemma ServedFirst<E, R>(d: Daemon<E, R>, e: E, frames: seq<Frame>)
    requires frames != [] && frames[0].kind == 1 && Fits(ReplyTo(d, e, frames[0]))
    ensures var rest := Served(d, StateAfter(d, e, [frames[0]]), frames[1..]);
      Served(d, e, frames) == (rest.0, [ReplyTo(d, e, frames[0])] + rest.1)
  {
    AnswerIsReply(d, e, frames[0]);
  }

  /** The loop does what its requests ask, one after another, and says so. */
  lemma {:induction false} ServedInOrder<E, R>(d: Daemon<E, R>, e: E, frames: seq<Frame>, n: nat)
    requires Serves(d, e, frames, n)
    ensures Served(d, e, frames).0 == EngineAfter(d, e, frames, n)
    ensures Served(d, e, frames).1 == AllSaid(d, e, frames, n)
    decreases n
  {
    if n == 0 {
      ServedNothing(d, e, frames);
    } else {
      ServesRest(d, e, frames, n);
      ServedInOrder(d, StateAfter(d, e, [frames[0]]), frames[1..], n - 1);
      ServedFirst(d, e, frames);
      AllSaidFirst(d, e, frames, n);
      EngineAfterFirst(d, e, frames, n);
    }
  }

  lemma {:induction false} SomeAreServed<E, R>(d: Daemon<E, R>, e: E, frames: seq<Frame>, from: nat) returns (n: nat)
    requires from <= |frames|
    requires forall i :: 0 <= i < from ==> frames[i].kind == 1 && Fits(Replies(d, e, frames)[i])
    ensures Serves(d, e, frames, n)
    decreases |frames| - from
  {
    if from < |frames| && frames[from].kind == 1 && Fits(Replies(d, e, frames)[from]) {
      n := SomeAreServed(d, e, frames, from + 1);
    } else {
      n := from;
    }
  }

  /** Over a connection that takes it all: the engine in the end, and what can be
      read back from the wire. */
  lemma WroteInOrder<E, R>(d: Daemon<E, R>, e: E, frames: seq<Frame>, room: nat, n: nat)
    requires Serves(d, e, frames, n) && AllSendable(AllSaid(d, e, frames, n)) && |Stream(AllSaid(d, e, frames, n))| <= room
    ensures Wrote(d, e, frames, room).0 == EngineAfter(d, e, frames, n)
    ensures Frames(Wrote(d, e, frames, room).1) == AllSaid(d, e, frames, n)
  {
    ServedInOrder(d, e, frames, n);
    var served := WroteWhatWasServed(d, e, frames, room);
    assert frames[..|frames|] == frames;
    StreamRoundTrip(AllSaid(d, e, frames, n));
  }

  lemma AllSaidFits<E, R>(d: Daemon<E, R>, e: E, frames: seq<Frame>, n: nat)
    requires Serves(d, e, frames, n)
    ensures AllSendable(AllSaid(d, e, frames, n))
  {
    ServedInOrder(d, e, frames, n);
    ServedSendable(d, e, frames);
  }

  // ----- the loop -----------------------------------------------------------------------------------

  /** What the loop is still to do: `end` is where the engine will be, `whole`
      all that will have been written. */
  ghost predicate Ahead<E, R>(d: Daemon<E, R>, e: E, frames: seq<Frame>, room: nat, written: seq<byte>, end: E, whole: seq<byte>) {
    end == Wrote(d, e, frames, room).0 && whole == written + Wrote(d, e, frames, room).1
  }

  lemma AheadOneMore<E, R>(d: Daemon<E, R>, e: E, frames: seq<Frame>, room: nat, written: seq<byte>, end: E, whole: seq<byte>)
    requires Ahead(d, e, frames, room, written, end, whole)
    requires frames != [] && frames[0].kind == CONTROL && Sendable(Answer(d, e, frames[0].payload).1)
    requires |Encoded(Answer(d, e, frames[0].payload).1)| <= room
    ensures var (next, response) := Answer(d, e, frames[0].payload);
      Ahead(d, next, frames[1..], room - |Encoded(response)|, written + Encoded(response), end, whole)
  {
  }

  method RespondError(writer: Writer, message: seq<byte>)
    modifies writer
    ensures writer.written == old(writer.written) + Upto(Stream(Sent(Frame(ERROR, message))), old(writer.room))
  {
    var _ := writer.WriteFrame(ERROR, message);
    if Sendable(Frame(ERROR, message)) {
      OneFrameMore(Frame(ERROR, message), []);
      assert Encoded(Frame(ERROR, message)) + [] == Encoded(Frame(ERROR, message));
    }
  }

  /** The end of the loop, at a frame that is no request. */
  method Dismiss<E, R>(writer: Writer, d: Daemon<E, R>, frame: Frame)
    requires frame.kind != CONTROL
    modifies writer
    ensures writer.written == old(writer.written) + Upto(Stream(Dismissal(d, frame)), old(writer.room))
  {
    if frame.kind == ATTACH || frame.kind == SUBSCRIBE {
      var malformed := d.malformed(frame);
      if malformed.Some? {
        RespondError(writer, malformed.value);
      }
    } else {
      RespondError(writer, d.complaint);
    }
  }

  /** One turn of the loop; `more` says whether there is another. */
  method ServeOne<E, R>(reader: Reader, writer: Writer, d: Daemon<E, R>, engine: E, ghost end: E, ghost whole: seq<byte>)
    returns (next: E, more: bool)
    requires reader.Valid()
    requires Ahead(d, engine, Frames(reader.input[reader.at..]), writer.room, writer.written, end, whole)
    modifies reader, writer
    ensures reader.Valid()
    ensures more ==> reader.at > old(reader.at)
    ensures more ==> Ahead(d, next, Frames(reader.input[reader.at..]), writer.room, writer.written, end, whole)
    ensures !more ==> next == end && writer.written == whole
  {
    ghost var left, before, room := reader.input[reader.at..], writer.written, writer.room;
    next := engine;
    var outcome := reader.ReadFrame();
    if !outcome.Received? {
      return engine, false;
    }
    var frame := outcome.frame;
    assert reader.input[reader.at..] == left[Used(left)..];
    assert Frames(left)[1..] == Frames(left[Used(left)..]);
    if frame.kind != CONTROL {
      Dismiss(writer, d, frame);
      return engine, false;
    }
    var (answered, response) := Answer(d, engine, frame.payload);
    var ok := writer.WriteFrame(response.kind, response.payload);
    if !ok {
      return answered, false;
    }
    AheadOneMore(d, engine, Frames(left), room, before, end, whole);
    return answered, true;
  }

  /** The loop: it serves the frames that are complete in the input, one after
      another, whatever came of those before. */
  method ServeConn<E, R>(reader: Reader, writer: Writer, d: Daemon<E, R>, engine: E) returns (last: E, ghost n: nat)
    requires reader.Valid()
    modifies reader, writer
    ensures reader.Valid()
    ensures var (end, bytes) := Wrote(d, engine, Frames(reader.input[old(reader.at)..]), old(writer.room));
      last == end && writer.written == old(writer.written) + bytes
    ensures var frames := Frames(reader.input[old(reader.at)..]);
      && Serves(d, engine, frames, n) && AllSendable(AllSaid(d, engine, frames, n))
      && (|Stream(AllSaid(d, engine, frames, n))| <= old(writer.room) ==>
            && last == EngineAfter(d, engine, frames, n)
            && |old(writer.written)| <= |writer.written|
            && Frames(writer.written[|old(writer.written)|..]) == AllSaid(d, engine, frames, n))
  {
    last := engine;
    ghost var (end, bytes) := Wrote(d, engine, Frames(reader.input[reader.at..]), writer.room);
    ghost var whole := writer.written + bytes;
    var more := true;
    while more
      invariant reader.Valid()
      invariant more ==> Ahead(d, last, Frames(reader.input[reader.at..]), writer.room, writer.written, end, whole)
      invariant !more ==> last == end && writer.written == whole
      decreases more, |reader.input| - reader.at
    {
      last, more := ServeOne(reader, writer, d, last, end, whole);
    }
    ghost var frames := Frames(reader.input[old(reader.at)..]);
    n := SomeAreServed(d, engine, frames, 0);
    AllSaidFits(d, engine, frames, n);
    if |Stream(AllSaid(d, engine, frames, n))| <= old(writer.room) {
      WroteInOrder(d, engine, frames, old(writer.room), n);
      assert writer.written[|old(writer.written)|..] == bytes;
    }
  }

  // ----- a refusal costs only the request refused -------------------------------------------

  predicate Requests(frames: seq<Frame>) {
    forall i :: 0 <= i < |frames| ==> frames[i].kind == CONTROL
  }

  predicate Readable<E, R>(d: Daemon<E, R>, f: Frame) {
    d.decode(f.payload).Some?
  }

  /** Every response the daemon can give fits a frame. */
  ghost predicate Brief<E(!new), R(!new)>(d: Daemon<E, R>) {
    && (forall request :: |d.refusal(request)| <= MAX_FRAME)
    && (forall e, r :: |d.handle(e, r).1| <= MAX_FRAME)
  }

  /** The requests that can be read, and of any list of responses to the
      requests, the ones to those. */
  function Admitted<E, R>(d: Daemon<E, R>, frames: seq<Frame>): seq<Frame> {
    if frames == [] then []
    else if Readable(d, frames[0]) then [frames[0]] + Admitted(d, frames[1..])
    else Admitted(d, frames[1..])
  }

  function Owing<E, R>(d: Daemon<E, R>, frames: seq<Frame>, responses: seq<Frame>): seq<Frame>
    requires |responses| == |frames|
  {
    if frames == [] then []
    else if Readable(d, frames[0]) then [responses[0]] + Owing(d, frames[1..], responses[1..])
    else Owing(d, frames[1..], responses[1..])
  }

  lemma {:induction false} AdmittedAreRequests<E, R>(d: Daemon<E, R>, frames: seq<Frame>)
    requires Requests(frames)
    ensures Requests(Admitted(d, frames))
  {
    if frames != [] {
      AdmittedAreRequests(d, frames[1..]);
    }
  }

  /** Every request is answered once and in order. Those that cannot be read are
      answered with a refusal, and otherwise might never have been sent: the
      engine ends up the same, and so do the answers to all the others. */
  lemma {:induction false} RefusalsCostNothingElse<E(!new), R(!new)>(d: Daemon<E, R>, e: E, frames: seq<Frame>)
    requires Requests(frames) && Brief(d)
    ensures var (end, responses) := Served(d, e, frames);
      && |responses| == |frames|
      && (forall i :: 0 <= i < |frames| && !Readable(d, frames[i]) ==>
            responses[i] == Frame(RESPONSE, d.refusal(frames[i].payload)))
      && end == Served(d, e, Admitted(d, frames)).0
      && Owing(d, frames, responses) == Served(d, e, Admitted(d, frames)).1
  {
    if frames != [] {
      var (next, response) := Answer(d, e, frames[0].payload);
      RefusalsCostNothingElse(d, next, frames[1..]);
      var (end, responses) := Served(d, e, frames);
      assert responses == [response] + Served(d, next, frames[1..]).1;
      assert responses[1..] == Served(d, next, frames[1..]).1;
      if Readable(d, frames[0]) {
        assert Admitted(d, frames)[1..] == Admitted(d, frames[1..]);
      }
    }
  }

  /** On the wire: a client that sends these requests reads back one response for
      each, even if some were refused. */
  lemma ConnectionSurvivesRefusals<E(!new), R(!new)>(d: Daemon<E, R>, e: E, frames: seq<Frame>)
    requires AllSendable(frames) && Requests(frames) && Brief(d)
    ensures var responses := Served(d, e, Frames(Stream(frames))).1;
      AllSendable(responses) && |responses| == |frames| && Frames(Stream(responses)) == responses
  {
    StreamRoundTrip(frames);
    RefusalsCostNothingElse(d, e, frames);
    ServedSendable(d, e, frames);
    StreamRoundTrip(Served(d, e, frames).1);
  }
}
