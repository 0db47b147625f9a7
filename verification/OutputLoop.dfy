/** The goroutine that reads a session's PTY (session.go, `readLoop`), with the
    session it writes to. Anything else may happen to the session between its
    turns. */
module OutputLoop {
  import opened Bytes
  import opened Reading
  import opened Protocol
  import opened Session

  class ReadLoop {
    const session: Session
    var pending: seq<byte>

    ghost var inputs: seq<seq<byte>>   // every read so far

    /** The session has been written what the reads so far make; the rest is held. */
    ghost predicate Going()
      reads this, session
    {
      && pending == Pending(inputs)
      && Arrived(session.state, Writes(inputs))
    }

    constructor (session: Session)
      requires Arrived(session.state, [])
      ensures this.session == session && Going() && inputs == []
    {
      this.session := session;
      pending, inputs := [], [];
    }

    /** One read and what comes of it. */
    method Turn(input: seq<byte>) returns (announce: bool)
      requires session.Valid() && session.Safe() && session.Tracked() && session.Telling() && Going()
      modifies this, session, session.tracker, session.subs
      ensures session.Valid() && session.Safe() && session.Tracked() && session.Telling() && Going()
      ensures inputs == old(inputs) + [input]
    {
      announce := false;
      OneRead(inputs, input);
      ghost var earlier := inputs;
      inputs := inputs + [input];
      if |input| > 0 {
        var chunk := pending + input;
        var cut := ChooseCut(chunk);
        pending := chunk[cut..];
        if cut > 0 {
          announce := Put(chunk[..cut], Writes(earlier));
        }
      }
    }

    method Put(chunk: seq<byte>, ghost writes: seq<seq<byte>>) returns (announce: bool)
      requires session.Valid() && session.Safe() && session.Tracked() && session.Telling()
      requires chunk != [] && Arrived(session.state, writes)
      modifies session, session.tracker, session.subs
      ensures session.Valid() && session.Safe() && session.Tracked() && session.Telling()
      ensures Arrived(session.state, writes + [chunk])
    {
      announce := session.WriteChunk(chunk);
    }

    /** The read fails: the remnant goes out, and the stream ends. */
    method End(drains: map<Subscription, Drain>)
      requires session.Valid() && session.Safe() && session.Tracked() && session.Telling() && Going()
      modifies this, session, session.tracker, session.subs
      ensures session.Valid() && session.Safe() && session.subs == {}
      ensures session.state.tape.ended && session.state.tape.writes == AllWrites(inputs) && inputs == old(inputs)
    {
      PutRemnant();
      session.EndStream(drains);
    }

    method PutRemnant()
      requires session.Valid() && session.Safe() && session.Tracked() && session.Telling() && Going()
      modifies session, session.tracker, session.subs
      ensures session.Valid() && session.Safe()
      ensures !session.state.tape.ended && session.state.tape.writes == AllWrites(inputs)
      ensures session.subs <= old(session.subs)
    {
      if |pending| > 0 {
        var _ := session.WriteRemnant(pending);
      }
    }
  }

  /** These chunks have been written, and the stream goes on. */
  predicate Arrived<K(==)>(s: State<K>, chunks: seq<seq<byte>>) {
    s.tape.writes == chunks && !s.tape.draining && !s.tape.ended
  }

  /** Nothing that happens between the turns of the loop is the loop's business. */
  lemma OthersLeaveTheTape<K>(s: State<K>, l: Label<K>, chunks: seq<seq<byte>>)
    requires Arrived(s, chunks) && Enabled(s, l) && !l.Write? && !l.FlushRemnant? && !l.EndStream?
    ensures Arrived(Next(s, l), chunks)
  {
    if l.Attach? || l.SetBase? || l.SetView? || l.Settle? {
      SizeStepLeavesTheTape(s, l, chunks);
    }
  }

  lemma SizedLeavesTheTape<K>(s: State<K>, accepted: bool, chunks: seq<seq<byte>>)
    requires Arrived(s, chunks)
    ensures Arrived(Sized(s, accepted), chunks)
  {
  }

  lemma SizeStepLeavesTheTape<K>(s: State<K>, l: Label<K>, chunks: seq<seq<byte>>)
    requires Arrived(s, chunks) && Enabled(s, l) && (l.Attach? || l.SetBase? || l.SetView? || l.Settle?)
    ensures Arrived(Next(s, l), chunks)
  {
    match l
    case Attach(k, buffer, resync, cols, rows, accepted) =>
      SizedLeavesTheTape(ViewStated(WithSub(s, k, NewSub(buffer, resync, Terminal.Taken(s.term), |s.tape.log|)), k, cols, rows), accepted, chunks);
    case SetBase(cols, rows, accepted) => SizedLeavesTheTape(BaseStated(s, cols, rows), accepted, chunks);
    case SetView(k, cols, rows, accepted) => SizedLeavesTheTape(ViewStated(s, k, cols, rows), accepted, chunks);
    case Settle(accepted) => SizedLeavesTheTape(Woken(s), accepted, chunks);
  }
}
