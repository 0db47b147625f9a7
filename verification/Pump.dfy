/** From a session's messages to a remote client's: what `serveAttach` makes
    frames of (server/server.go), and what the attachment's read loop makes of
    the frames (client/client.go). The JSON in the frames is not part of this
    model; a frame that does not decode is. */
module Pump {
  import opened Sequences
  import opened Bytes
  import opened Boundary
  import opened Reading
  import opened Terminal
  import opened Protocol
  import opened Guarantees
  import opened Convergence

  /** The bytes of an output frame: the program's own, or a repaint's. */
  datatype Text = Raw(bytes: seq<byte>) | Painting(paint: Snapshot)

  /** A frame, as far as an attachment tells frames apart. */
  datatype Parcel =
    | SnapshotFrame(state: Snapshot)
    | OutputFrame(text: Text)
    | ResizeFrame(cols: int, rows: int)
    | ExitedFrame(code: int)
    | BadSnapshot            // a payload that does not decode
    | BadOther

  /** A client's message: one thing at a time. */
  datatype Delivery =
    | Append(text: Text)
    | Resized(cols: int, rows: int)
    | Replace(state: Snapshot)

  // ----- the server's side --------------------------------------------------------------

  function FramesOf(m: Message): seq<Parcel> {
    match m
    case Resync(state) => [SnapshotFrame(state)]
    case Repaint(paint) => [ResizeFrame(paint.cols, paint.rows), OutputFrame(Painting(paint))]
    case Output(bytes) => [OutputFrame(Raw(bytes))]
  }

  function Pumped(messages: seq<Message>): seq<Parcel> {
    if messages == [] then []
    else Pumped(messages[..|messages| - 1]) + FramesOf(messages[|messages| - 1])
  }

  /** Each message goes out as one frame, but a repaint as two: its size first. */
  lemma WhatServersSend(before: seq<Message>, bytes: seq<byte>, state: Snapshot)
    ensures Pumped([]) == []
    ensures Pumped(before + [Output(bytes)]) == Pumped(before) + [OutputFrame(Raw(bytes))]
    ensures Pumped(before + [Resync(state)]) == Pumped(before) + [SnapshotFrame(state)]
    ensures Pumped(before + [Repaint(state)]) == Pumped(before) + [ResizeFrame(state.cols, state.rows), OutputFrame(Painting(state))]
  {
    assert (before + [Output(bytes)])[..|before|] == before;
    assert (before + [Resync(state)])[..|before|] == before;
    assert (before + [Repaint(state)])[..|before|] == before;
  }

  function Prefix<T>(s: seq<T>, n: nat): seq<T> {
    if n <= |s| then s[..n] else s
  }

  /** A connection that takes `room` more frames before it breaks. */
  class Connection {
    var sent: seq<Parcel>
    var room: nat

    constructor (room: nat)
      ensures sent == [] && this.room == room
    {
      sent, this.room := [], room;
    }

    method Write(frame: Parcel) returns (ok: bool)
      modifies this
      ensures ok == (old(room) > 0)
      ensures sent == if ok then old(sent) + [frame] else old(sent)
      ensures room == if ok then old(room) - 1 else old(room)
    {
      if room == 0 {
        return false;
      }
      sent := sent + [frame];
      room := room - 1;
      return true;
    }
  }

  lemma {:induction false} PumpedConcat(left: seq<Message>, right: seq<Message>)
    ensures Pumped(left + right) == Pumped(left) + Pumped(right)
    decreases |right|
  {
    if right == [] {
      assert left + right == left;
    } else {
      var shorter := right[..|right| - 1];
      assert (left + right)[..|left + right| - 1] == left + shorter;
      PumpedConcat(left, shorter);
    }
  }

  /** One message goes out; the connection may break between its two frames. */
  method PumpMessage(message: Message, conn: Connection) returns (ok: bool)
    modifies conn
    ensures conn.sent == old(conn.sent) + Prefix(FramesOf(message), old(conn.room))
    ensures ok == (|FramesOf(message)| <= old(conn.room))
    ensures ok ==> conn.room == old(conn.room) - |FramesOf(message)|
  {
    if message.Resync? {
      ok := conn.Write(SnapshotFrame(message.state));
      return;
    }
    if message.Repaint? {
      ok := conn.Write(ResizeFrame(message.paint.cols, message.paint.rows));
      if !ok {
        return;
      }
    }
    ok := conn.Write(OutputFrame(if message.Repaint? then Painting(message.paint) else Raw(message.bytes)));
  }

  lemma PumpedUpTo(messages: seq<Message>, i: nat)
    requires i < |messages|
    ensures Pumped(messages[..i + 1]) == Pumped(messages[..i]) + FramesOf(messages[i])
  {
    assert messages[..i + 1][..i] == messages[..i];
  }

  lemma PumpedSplit(messages: seq<Message>, i: nat)
    requires i <= |messages|
    ensures Pumped(messages) == Pumped(messages[..i]) + Pumped(messages[i..])
  {
    Rejoined(messages, i);
    PumpedConcat(messages[..i], messages[i..]);
  }

  lemma PrefixOfThree(one: seq<Parcel>, two: seq<Parcel>, three: seq<Parcel>, n: nat)
    requires |one| <= n < |one| + |two|
    ensures Prefix(one + two + three, n) == one + Prefix(two, n - |one|)
  {
  }

  /** The output pump. It stops at the first frame the connection refuses. */
  method PumpOutput(messages: seq<Message>, conn: Connection) returns (finished: bool)
    modifies conn
    ensures conn.sent == old(conn.sent) + Prefix(Pumped(messages), old(conn.room))
    ensures finished == (|Pumped(messages)| <= old(conn.room))
  {
    assert messages[..0] == [];
    for i := 0 to |messages|
      invariant |Pumped(messages[..i])| <= old(conn.room)
      invariant conn.room == old(conn.room) - |Pumped(messages[..i])|
      invariant conn.sent == old(conn.sent) + Pumped(messages[..i])
    {
      PumpedUpTo(messages, i);
      PumpedSplit(messages, i + 1);
      var ok := PumpMessage(messages[i], conn);
      if !ok {
        PrefixOfThree(Pumped(messages[..i]), FramesOf(messages[i]), Pumped(messages[i + 1..]), old(conn.room));
        Regrouped(old(conn.sent), Pumped(messages[..i]), Prefix(FramesOf(messages[i]), old(conn.room) - |Pumped(messages[..i])|));
        return false;
      }
      Regrouped(old(conn.sent), Pumped(messages[..i]), FramesOf(messages[i]));
    }
    assert messages[..|messages|] == messages;
    return true;
  }

  // ----- the client's side -----------------------------------------------------------------

  /** The messages a stream of frames yields. A snapshot that does not decode ends
      it; anything else that makes no sense is passed over. */
  function Unpacked(frames: seq<Parcel>): seq<Delivery> {
    if frames == [] || frames[0].BadSnapshot? then []
    else OneUnpacked(frames[0]) + Unpacked(frames[1..])
  }

  function OneUnpacked(frame: Parcel): seq<Delivery> {
    match frame
    case OutputFrame(text) => [Append(text)]
    case SnapshotFrame(state) => [Replace(state)]
    case ResizeFrame(cols, rows) => [Resized(cols, rows)]
    case _ => []
  }

  lemma UnpackedFrom(frames: seq<Parcel>, i: nat, output: seq<Delivery>)
    requires i < |frames|
    ensures frames[i].BadSnapshot? ==> output + Unpacked(frames[i..]) == output
    ensures !frames[i].BadSnapshot? ==>
      output + Unpacked(frames[i..]) == output + OneUnpacked(frames[i]) + Unpacked(frames[i + 1..])
  {
  }

  /** The attachment's read loop. */
  method ReadMessages(frames: seq<Parcel>) returns (output: seq<Delivery>)
    ensures output == Unpacked(frames)
  {
    output := [];
    var i := 0;
    while i < |frames|
      invariant i <= |frames| && output + Unpacked(frames[i..]) == Unpacked(frames)
    {
      UnpackedFrom(frames, i, output);
      match frames[i] {
        case OutputFrame(text) => output := output + [Append(text)];
        case SnapshotFrame(state) => output := output + [Replace(state)];
        case BadSnapshot => return;
        case ResizeFrame(cols, rows) => output := output + [Resized(cols, rows)];
        case ExitedFrame(code) =>   // goes to another channel
          assert output + [] == output;
        case BadOther =>
          assert output + [] == output;
      }
      i := i + 1;
    }
  }

  predicate Decodes(frames: seq<Parcel>) {
    forall i :: 0 <= i < |frames| ==> !frames[i].BadSnapshot?
  }

  lemma {:induction false} UnpackedConcat(left: seq<Parcel>, right: seq<Parcel>)
    requires Decodes(left)
    ensures Unpacked(left + right) == Unpacked(left) + Unpacked(right)
  {
    if left == [] {
      assert left + right == right;
    } else {
      assert (left + right)[1..] == left[1..] + right;
      UnpackedConcat(left[1..], right);
    }
  }

  lemma {:induction false} PumpedDecodes(messages: seq<Message>)
    ensures Decodes(Pumped(messages))
  {
    if messages != [] {
      PumpedDecodes(messages[..|messages| - 1]);
    }
  }

  /** A snapshot that does not decode ends the stream: what came before it is all
      there is. An exit notice, and anything that makes no sense, is passed over. */
  lemma WhatClientsMakeOf(before: seq<Parcel>, frame: Parcel, later: seq<Parcel>)
    requires Decodes(before)
    ensures frame.BadSnapshot? ==> Unpacked(before + [frame] + later) == Unpacked(before)
    ensures frame.ExitedFrame? || frame.BadOther? ==> Unpacked(before + [frame] + later) == Unpacked(before + later)
    ensures frame.SnapshotFrame? ==> Unpacked(before + [frame] + later) == Unpacked(before) + [Replace(frame.state)] + Unpacked(later)
    ensures frame.OutputFrame? ==> Unpacked(before + [frame] + later) == Unpacked(before) + [Append(frame.text)] + Unpacked(later)
    ensures frame.ResizeFrame? ==>
      Unpacked(before + [frame] + later) == Unpacked(before) + [Resized(frame.cols, frame.rows)] + Unpacked(later)
  {
    Regrouped(before, [frame], later);
    UnpackedConcat(before, [frame] + later);
    UnpackedConcat(before, later);
    OneUnpackedFirst(frame, later);
    Regrouped(Unpacked(before), OneUnpacked(frame), Unpacked(later));
    assert Unpacked(before) + [] == Unpacked(before);
  }

  lemma OneUnpackedFirst(frame: Parcel, later: seq<Parcel>)
    ensures Unpacked([frame] + later) == if frame.BadSnapshot? then [] else OneUnpacked(frame) + Unpacked(later)
  {
    assert ([frame] + later)[1..] == later;
  }

  // ----- replicas ---------------------------------------------------------------------------

  ghost function Applied(t: Term, d: Delivery): Term {
    match d
    case Append(text) => if text.Raw? then Printed(t, text.bytes) else Painted(t, text.paint)
    case Resized(cols, rows) => Moved(t, cols, rows)
    case Replace(state) => Restored(state)
  }

  ghost function AllApplied(t: Term, deliveries: seq<Delivery>): Term {
    if deliveries == [] then t
    else Applied(AllApplied(t, deliveries[..|deliveries| - 1]), deliveries[|deliveries| - 1])
  }

  lemma {:induction false} AppliedConcat(t: Term, left: seq<Delivery>, right: seq<Delivery>)
    ensures AllApplied(t, left + right) == AllApplied(AllApplied(t, left), right)
    decreases |right|
  {
    if right == [] {
      assert left + right == left;
    } else {
      var shorter := right[..|right| - 1];
      assert (left + right)[..|left + right| - 1] == left + shorter;
      AppliedConcat(t, left, shorter);
    }
  }

  /** What one message's frames do to a replica is what the message does. */
  lemma OneMessage(t: Term, m: Message)
    ensures Decodes(FramesOf(m)) && AllApplied(t, Unpacked(FramesOf(m))) == Shown(t, m)
  {
    var frames := FramesOf(m);
    UnpackedOne(frames[0]);
    OneApplied(t, OneUnpacked(frames[0])[0]);
    if m.Repaint? {
      UnpackedOne(frames[1]);
      UnpackedConcat([frames[0]], [frames[1]]);
      TwoApplied(t, Resized(m.paint.cols, m.paint.rows), Append(Painting(m.paint)));
    }
  }

  lemma UnpackedOne(frame: Parcel)
    requires !frame.BadSnapshot?
    ensures Unpacked([frame]) == OneUnpacked(frame)
  {
  }

  lemma TwoApplied(t: Term, first: Delivery, second: Delivery)
    ensures AllApplied(t, [first] + [second]) == Applied(Applied(t, first), second)
  {
    AppliedConcat(t, [first], [second]);
    OneApplied(t, first);
    OneApplied(Applied(t, first), second);
  }

  lemma OneApplied(t: Term, d: Delivery)
    ensures AllApplied(t, [d]) == Applied(t, d)
  {
  }

  /** The translation keeps the meaning of every sequence of messages: a replica
      built from the frames is the replica built from the messages. */
  lemma {:induction false} PumpKeepsMeaning(t: Term, messages: seq<Message>)
    ensures AllApplied(t, Unpacked(Pumped(messages))) == AllShown(t, messages)
  {
    if messages != [] {
      var earlier, last := messages[..|messages| - 1], messages[|messages| - 1];
      PumpKeepsMeaning(t, earlier);
      PumpedDecodes(earlier);
      UnpackedConcat(Pumped(earlier), FramesOf(last));
      AppliedConcat(t, Unpacked(Pumped(earlier)), Unpacked(FramesOf(last)));
      OneMessage(AllShown(t, earlier), last);
    }
  }

  /** The exit notice that may follow says nothing about the terminal. */
  lemma ExitIsSilent(messages: seq<Message>, code: int)
    ensures Unpacked(Pumped(messages) + [ExitedFrame(code)]) == Unpacked(Pumped(messages))
  {
    PumpedDecodes(messages);
    UnpackedConcat(Pumped(messages), [ExitedFrame(code)]);
  }

  /** What a connection that breaks leaves: the messages up to some point, and at
      most the size of the next one without its repaint. */
  ghost predicate BrokenOff(t: Term, messages: seq<Message>, replica: Term, k: nat) {
    && k <= |messages|
    && (replica == AllShown(t, messages[..k])
        || (k < |messages| && messages[k].Repaint?
            && replica == Moved(AllShown(t, messages[..k]), messages[k].paint.cols, messages[k].paint.rows)))
  }

  lemma {:induction false} BrokenPump(t: Term, messages: seq<Message>, n: nat) returns (k: nat)
    ensures BrokenOff(t, messages, AllApplied(t, Unpacked(Prefix(Pumped(messages), n))), k)
  {
    if n >= |Pumped(messages)| {
      k := |messages|;
      PumpKeepsMeaning(t, messages);
      assert messages[..k] == messages;
      assert Prefix(Pumped(messages), n) == Pumped(messages);
    } else {
      var earlier, last := messages[..|messages| - 1], messages[|messages| - 1];
      if n <= |Pumped(earlier)| {
        k := BrokenPump(t, earlier, n);
        assert Prefix(Pumped(messages), n) == Prefix(Pumped(earlier), n);
        BrokenOffLater(t, messages, AllApplied(t, Unpacked(Prefix(Pumped(earlier), n))), k);
      } else {
        k := |earlier|;
        assert Prefix(Pumped(messages), n) == Pumped(earlier) + [ResizeFrame(last.paint.cols, last.paint.rows)];
        HalfAMessage(t, earlier, last.paint.cols, last.paint.rows);
        assert messages[..k] == earlier && messages[k] == last;
      }
    }
  }

  lemma BrokenOffLater(t: Term, messages: seq<Message>, replica: Term, k: nat)
    requires messages != [] && BrokenOff(t, messages[..|messages| - 1], replica, k)
    ensures BrokenOff(t, messages, replica, k)
  {
    var earlier := messages[..|messages| - 1];
    assert earlier[..k] == messages[..k];
    if replica != AllShown(t, earlier[..k]) {
      assert earlier[k] == messages[k];
    }
  }

  lemma HalfAMessage(t: Term, earlier: seq<Message>, cols: int, rows: int)
    ensures AllApplied(t, Unpacked(Pumped(earlier) + [ResizeFrame(cols, rows)])) == Moved(AllShown(t, earlier), cols, rows)
  {
    PumpKeepsMeaning(t, earlier);
    PumpedDecodes(earlier);
    UnpackedConcat(Pumped(earlier), [ResizeFrame(cols, rows)]);
    assert [ResizeFrame(cols, rows)][1..] == [];
    AppliedConcat(t, Unpacked(Pumped(earlier)), [Resized(cols, rows)]);
    OneApplied(AllShown(t, earlier), Resized(cols, rows));
  }

  /** From end to end: a client attached over a connection, that has applied all
      it was sent for a subscription that is drained and owed nothing, shows the
      session's terminal. */
  lemma RemoteConvergence<K>(cols: int, rows: int, inputs: seq<seq<byte>>, run: seq<Label<K>>, s: State<K>, k: K)
    requires Clean(Flatten(inputs)) && !Overflows(inputs)
    requires Reaches(cols, rows, run, s) && s.tape.writes <= Writes(inputs)
    requires k in s.subs && s.subs[k].life.attached && Listening(s.subs[k]) && s.subs[k].chan.queue == []
    ensures AllApplied(Restored(s.subs[k].seed), Unpacked(Pumped(s.subs[k].chan.taken))) == s.term
  {
    var sub := s.subs[k];
    ReplicaConvergence(cols, rows, inputs, run, s);
    PumpKeepsMeaning(Restored(sub.seed), sub.chan.taken);
    assert sub.chan.taken + sub.chan.queue == sub.chan.taken;
  }

  /** A client that has applied every frame of a subscription whose stream is over,
      exit notice and all. */
  ghost function RemoteReplica(sub: Sub, code: int): Term {
    AllApplied(Restored(sub.seed), Unpacked(Pumped(sub.chan.taken) + [ExitedFrame(code)]))
  }

  lemma RemoteReplicaIsLocal(sub: Sub, code: int)
    ensures RemoteReplica(sub, code) == AllShown(Restored(sub.seed), sub.chan.taken)
  {
    ExitIsSilent(sub.chan.taken, code);
    PumpKeepsMeaning(Restored(sub.seed), sub.chan.taken);
  }

  /** The last word reaches remote clients. Whoever was owed state when the stream
      ended or the session closed, and drained its channel, shows what the session
      showed, on every run whatsoever. */
  lemma RemoteLastWordForDebtors<K>(s: State<K>, ending: Label<K>, ended: State<K>, later: seq<Label<K>>, last: State<K>,
                                    k: K, code: int)
    requires k in s.subs && s.subs[k].life.attached && Owed(s.subs[k])
    requires Ends(s, ending) && Steps(s, ending, ended) && Leads(ended, later, last)
    ensures k in last.subs
    ensures last.subs[k].chan.queue == [] ==> Taken(RemoteReplica(last.subs[k], code)) == Taken(s.term)
  {
    LastWordForDebtors(s, ending, ended, later, last, k);
    RemoteReplicaIsLocal(last.subs[k], code);
  }

  /** And so does everyone else, after a run grounded up to a last torn remnant. */
  lemma RemoteLastWord<K>(cols: int, rows: int, run: seq<Label<K>>, grounded: State<K>, calm: seq<Label<K>>, s: State<K>,
                          ending: Label<K>, ended: State<K>, later: seq<Label<K>>, last: State<K>, k: K, code: int)
    requires Grounded(Init<K>(cols, rows), run) && Reaches(cols, rows, run, grounded)
    requires Leads(grounded, calm, s) && s.tape.log == grounded.tape.log
    requires k in s.subs && s.subs[k].life.attached && !s.subs[k].life.done
    requires Ends(s, ending) && Steps(s, ending, ended) && Leads(ended, later, last)
    ensures k in last.subs
    ensures last.subs[k].chan.queue == [] ==> Taken(RemoteReplica(last.subs[k], code)) == Taken(s.term)
  {
    LastWord(cols, rows, run, grounded, calm, s, ending, ended, later, last, k);
    RemoteReplicaIsLocal(last.subs[k], code);
  }
}
