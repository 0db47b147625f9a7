/** The tracked modes, end to end: a subscriber that runs the session's own
    tracker over the bytes it is sent tracks what the session tracks. Nothing is
    asked of the stream, since the tracker reads each message by itself. */
module Shadows {
  import opened Bytes
  import opened Terminal
  import opened Protocol
  import opened Convergence
  import opened Delivery
  import opened Guarantees
  import opened Moves
  import opened Sequences
  import Replay

  /** How screens become bytes: lines of scrollback, cells, and the cursor they
      leave behind. */
  datatype Renderer = Renderer(
    lines: Snapshot -> seq<byte>,
    cells: Snapshot -> seq<byte>,
    row: Snapshot -> nat,
    column: Snapshot -> nat)

  /** Rendered lines and cells track nothing, and cursor addresses are Go ints. */
  ghost predicate Tame(r: Renderer) {
    forall s: Snapshot ::
      Replay.Inert(r.lines(s)) && Replay.Inert(r.cells(s)) && r.row(s) < Tracking.INT_LIMIT && r.column(s) < Tracking.INT_LIMIT
  }

  /** A tracker that reads a snapshot starts out fresh. */
  function ReadSnapshot(r: Renderer, s: Snapshot): Tracking.Modes
    requires Tracking.Sound(s.modes)
  {
    Tracking.Observed(Tracking.FRESH, Replay.SnapshotBytes(s.modes, r.lines(s), r.cells(s), r.row(s), r.column(s)))
  }

  function ReadRepaint(r: Renderer, from: Tracking.Modes, s: Snapshot): Tracking.Modes
    requires Tracking.Sound(s.modes)
  {
    Tracking.Observed(Tracking.Resized(from), Replay.RepaintBytes(s.modes, r.cells(s), r.row(s), r.column(s)))
  }

  predicate Carries(m: Message) {
    (m.Repaint? ==> Tracking.Sound(m.paint.modes)) && (m.Resync? ==> Tracking.Sound(m.state.modes))
  }

  function Read(r: Renderer, from: Tracking.Modes, m: Message): Tracking.Modes
    requires Carries(m)
  {
    match m
    case Output(bytes) => Tracking.Observed(from, bytes)
    case Repaint(paint) => ReadRepaint(r, from, paint)
    case Resync(state) => ReadSnapshot(r, state)
  }

  predicate AllCarry(messages: seq<Message>) {
    forall i :: 0 <= i < |messages| ==> Carries(messages[i])
  }

  function AllRead(r: Renderer, from: Tracking.Modes, messages: seq<Message>): Tracking.Modes
    requires AllCarry(messages)
  {
    if messages == [] then from
    else Read(r, AllRead(r, from, messages[..|messages| - 1]), messages[|messages| - 1])
  }

  // ----- what one message does ------------------------------------------------------------

  lemma SnapshotReads(r: Renderer, s: Snapshot)
    requires Tame(r) && Tracking.Sound(s.modes)
    ensures ReadSnapshot(r, s) == s.modes
  {
    Replay.SnapshotSeeds(s.modes, r.lines(s), r.cells(s), r.row(s), r.column(s));
  }

  lemma RepaintReads(r: Renderer, from: Tracking.Modes, s: Snapshot)
    requires Tame(r) && Tracking.Sound(s.modes) && Tracking.Resized(from) == s.modes
    ensures ReadRepaint(r, from, s) == s.modes
  {
    Replay.RepaintRestores(s.modes, r.cells(s), r.row(s), r.column(s));
  }

  lemma ObservedSound(t: Tracking.Modes, chunk: seq<byte>)
    requires Tracking.Sound(t)
    ensures Tracking.Sound(Tracking.Observed(t, chunk))
  {
    Replay.TrackSound(Tracking.Machine(t, Tracking.Rest), chunk);
  }

  lemma AllReadMore(r: Renderer, from: Tracking.Modes, messages: seq<Message>, m: Message)
    requires AllCarry(messages) && Carries(m)
    ensures AllCarry(messages + [m]) && AllRead(r, from, messages + [m]) == Read(r, AllRead(r, from, messages), m)
  {
    assert (messages + [m])[..|messages|] == messages;
  }

  /** What a broadcast says of the session's modes: `m` takes them from one state
      to the other, and carries the new ones if it is a repaint. */
  predicate Tells(before: Tracking.Modes, m: Message, after: Tracking.Modes) {
    match m
    case Output(bytes) => after == Tracking.Observed(before, bytes)
    case Repaint(paint) => after == paint.modes == Tracking.Resized(before)
    case Resync(_) => false
  }

  lemma ToldReads(r: Renderer, before: Tracking.Modes, m: Message, after: Tracking.Modes)
    requires Tame(r) && Tracking.Sound(before) && Tells(before, m, after)
    ensures Tracking.Sound(after) && Carries(m) && Read(r, before, m) == after
  {
    if m.Output? {
      ObservedSound(before, m.bytes);
    } else {
      RepaintReads(r, before, m.paint);
    }
  }

  // ----- one subscription ---------------------------------------------------------------------

  /** A subscription that is owed nothing has been sent bytes that leave a tracker
      in the session's modes. */
  ghost predicate Shadowed(r: Renderer, sub: Sub, modes: Tracking.Modes) {
    && Tracking.Sound(sub.seed.modes) && AllCarry(Sent(sub))
    && (sub.life.attached && Listening(sub) ==> AllRead(r, ReadSnapshot(r, sub.seed), Sent(sub)) == modes)
  }

  lemma SentOneMore(r: Renderer, sub: Sub, m: Message)
    requires Tracking.Sound(sub.seed.modes) && AllCarry(Sent(sub)) && Carries(m)
    ensures var next := Queued(sub, sub.chan.queue + [m]);
      && Sent(next) == Sent(sub) + [m] && AllCarry(Sent(next))
      && AllRead(r, ReadSnapshot(r, next.seed), Sent(next)) == Read(r, AllRead(r, ReadSnapshot(r, sub.seed), Sent(sub)), m)
  {
    Regrouped(sub.chan.taken, sub.chan.queue, [m]);
    AllReadMore(r, ReadSnapshot(r, sub.seed), Sent(sub), m);
  }

  lemma DeliveredShadowed(r: Renderer, sub: Sub, before: Tracking.Modes, m: Message, after: Tracking.Modes)
    requires Tame(r) && Tracking.Sound(before) && Tells(before, m, after)
    requires Shadowed(r, sub, before) && sub.life.attached
    ensures Shadowed(r, Delivered(sub, m), after)
  {
    ToldReads(r, before, m, after);
    SentOneMore(r, sub, m);
  }

  lemma DrainedShadowed(r: Renderer, sub: Sub, n: nat, modes: Tracking.Modes)
    requires Shadowed(r, sub, modes)
    ensures Shadowed(r, Drained(sub, n), modes)
  {
    DrainedSame(sub, n);
  }

  /** What a subscription keeps of what it was sent, evictions or not. */
  lemma ResyncedShadowed(r: Renderer, sub: Sub, state: Snapshot)
    requires Tame(r) && Tracking.Sound(sub.seed.modes) && AllCarry(Sent(sub)) && Tracking.Sound(state.modes)
    ensures Shadowed(r, Resynced(sub, state), state.modes)
  {
    SentOneMore(r, sub, Resync(state));
    SnapshotReads(r, state);
    assert Sent(Resynced(sub, state)) == Sent(Queued(sub, sub.chan.queue + [Resync(state)]));
  }

  lemma DrainedSent(sub: Sub, n: nat)
    ensures Sent(Drained(sub, n)) == Sent(sub)
  {
    DrainedSame(sub, n);
  }

  lemma EvictedSent(sub: Sub)
    requires AllCarry(Sent(sub))
    ensures AllCarry(Sent(Evicted(sub)))
  {
    var evicted := Evicted(sub);
    forall i | 0 <= i < |Sent(evicted)|
      ensures Carries(Sent(evicted)[i])
    {
      assert Sent(evicted)[i] == Sent(sub)[if i < |sub.chan.taken| || sub.chan.queue == [] then i else i + 1];
    }
  }

  lemma EvictedCarries(sub: Sub, drain: Drain)
    requires AllCarry(Sent(sub))
    ensures AllCarry(Sent(Drained(sub, drain.before)))
    ensures AllCarry(Sent(Drained(Evicted(Drained(sub, drain.before)), drain.after)))
  {
    DrainedSent(sub, drain.before);
    EvictedSent(Drained(sub, drain.before));
    DrainedSent(Evicted(Drained(sub, drain.before)), drain.after);
  }

  lemma FlushedShadowed(r: Renderer, sub: Sub, state: Snapshot, force: bool, drain: Drain)
    requires Tame(r) && Tracking.Sound(state.modes) && Shadowed(r, sub, state.modes)
    ensures Shadowed(r, Flushed(sub, state, force, drain), state.modes)
  {
    EvictedCarries(sub, drain);
    if Owed(sub) && !Full(sub) {
      ResyncedShadowed(r, Drained(sub, drain.before), state);
    } else if Owed(sub) && force {
      ResyncedShadowed(r, Drained(Evicted(Drained(sub, drain.before)), drain.after), state);
    }
  }

  /** A subscription that was listed and may just have left. */
  lemma LeftShadowed(r: Renderer, sub: Sub, modes: Tracking.Modes)
    requires Shadowed(r, sub, modes)
    ensures Shadowed(r, Delisted(Finished(sub)), modes) && Shadowed(r, Stranded(sub), modes)
    ensures Shadowed(r, Shut(sub), modes) && Shadowed(r, Retired(sub), modes) && Shadowed(r, Claimed(Finished(sub)), modes)
  {
  }

  /** Every move but a broadcast leaves a subscriber with the modes there were. */
  lemma MoveShadowed(r: Renderer, sub: Sub, move: Move, state: Snapshot)
    requires Tame(r) && Tracking.Sound(state.modes) && Shadowed(r, sub, state.modes) && !move.Deliver?
    ensures Shadowed(r, Made(sub, move, state), state.modes)
  {
    match move
    case Flush(force, drain) => FlushedShadowed(r, sub, state, force, drain);
    case Leave(drain) =>
      FlushedShadowed(r, sub, state, true, drain);
      LeftShadowed(r, Flushed(sub, state, true, drain), state.modes);
    case Strand(drain) =>
      FlushedShadowed(r, sub, state, true, drain);
      LeftShadowed(r, Flushed(sub, state, true, drain), state.modes);
    case Pull => DrainedShadowed(r, sub, 1, state.modes);
    case Stay =>
    case _ => LeftShadowed(r, sub, state.modes);
  }

  // ----- the session --------------------------------------------------------------------------

  /** A step that broadcasts something tells the modes it leads to; one that does
      not leaves the terminal alone. */
  ghost predicate Told<K>(s: State<K>, next: State<K>) {
    if next.tape.log == s.tape.log then next.term == s.term
    else |next.tape.log| == |s.tape.log| + 1
         && Tells(s.term.modes, next.tape.log[|s.tape.log|], next.term.modes)
  }

  lemma BroadcastTells<K>(s: State<K>, term: Term, m: Message)
    requires Tells(s.term.modes, m, term.modes)
    ensures Told(s, Broadcast(s.(term := term), m))
  {
    BroadcastShape(s.(term := term), m);
  }

  lemma SizedTells<K>(s: State<K>, accepted: bool)
    ensures Told(s, Sized(s, accepted))
  {
    var want := Effective(s);
    var moved := Moved(s.term, want.cols, want.rows);
    BroadcastTells(s, moved, Repaint(Taken(moved)));
  }

  lemma WrittenTells<K>(s: State<K>, chunk: seq<byte>)
    ensures Told(s, Written(s, chunk))
  {
    BroadcastTells(Recorded(s, chunk), Printed(s.term, chunk), Output(chunk));
  }

  lemma AttachTells<K>(s: State<K>, k: K, buffer: int, resync: bool, cols: int, rows: int, accepted: bool)
    ensures Told(s, Attached(s, k, buffer, resync, cols, rows, accepted))
  {
    SizedTells(ViewStated(WithSub(s, k, NewSub(buffer, resync, Taken(s.term), |s.tape.log|)), k, cols, rows), accepted);
  }

  lemma SizeStepTells<K>(s: State<K>, l: Label<K>)
    requires Enabled(s, l) && (l.Attach? || l.SetBase? || l.SetView? || l.Settle?)
    ensures Told(s, Next(s, l))
  {
    match l
    case Attach(k, buffer, resync, cols, rows, accepted) => AttachTells(s, k, buffer, resync, cols, rows, accepted);
    case SetBase(cols, rows, accepted) => SizedTells(BaseStated(s, cols, rows), accepted);
    case SetView(k, cols, rows, accepted) => SizedTells(ViewStated(s, k, cols, rows), accepted);
    case Settle(accepted) => SizedTells(Woken(s), accepted);
  }

  lemma StepTells<K>(s: State<K>, l: Label<K>)
    requires Enabled(s, l)
    ensures Told(s, Next(s, l))
  {
    if l.Attach? || l.SetBase? || l.SetView? || l.Settle? {
      SizeStepTells(s, l);
    } else if l.Write? || l.FlushRemnant? {
      WrittenTells(s, l.chunk);
    }
  }

  ghost predicate AllShadowed<K>(r: Renderer, s: State<K>) {
    && Tracking.Sound(s.term.modes)
    && forall k :: k in s.subs ==> Shadowed(r, s.subs[k], s.term.modes)
  }

  /** A newcomer is handed the modes there are, and may find them repeated in a
      repaint of its own making. */
  lemma NewcomerShadowed<K>(r: Renderer, s: State<K>, k: K, buffer: int, resync: bool, cols: int, rows: int, accepted: bool)
    requires Tame(r) && k !in s.subs && Tracking.Sound(s.term.modes)
    ensures var next := Attached(s, k, buffer, resync, cols, rows, accepted);
      Tracking.Sound(next.term.modes) ==> Shadowed(r, next.subs[k], next.term.modes)
  {
    var next := Attached(s, k, buffer, resync, cols, rows, accepted);
    var sub := NewSub(buffer, resync, Taken(s.term), |s.tape.log|);
    if !s.exited && !s.closed && IsSize(cols, rows) {
      NewcomerSized(ViewStated(WithSub(s, k, sub), k, cols, rows), k, accepted);
    }
    if Tracking.Sound(next.term.modes) {
      SeededShadowed(r, next.subs[k], next.term);
    }
  }

  lemma SeededShadowed(r: Renderer, sub: Sub, term: Term)
    requires Tame(r) && Tracking.Sound(term.modes) && sub.seed == Taken(term) && sub.chan.taken == []
    requires sub.chan.queue == [] || (sub.chan.queue == [Repaint(Taken(term))] && Tracking.Resized(term.modes) == term.modes)
    ensures Shadowed(r, sub, term.modes)
  {
    SnapshotReads(r, sub.seed);
    assert Sent(sub) == sub.chan.queue;
    if sub.chan.queue != [] {
      RepeatReads(r, term);
    }
  }

  lemma RepeatReads(r: Renderer, term: Term)
    requires Tame(r) && Tracking.Sound(term.modes) && Tracking.Resized(term.modes) == term.modes
    ensures AllCarry([Repaint(Taken(term))]) && AllRead(r, term.modes, [Repaint(Taken(term))]) == term.modes
  {
    RepaintReads(r, term.modes, Taken(term));
    assert [Repaint(Taken(term))][..0] == [];
  }

  lemma StepShadowed<K>(r: Renderer, s: State<K>, l: Label<K>)
    requires Tame(r) && AllShadowed(r, s) && Enabled(s, l)
    ensures AllShadowed(r, Next(s, l))
  {
    var next := Next(s, l);
    StepTells(s, l);
    StepFramed(s, l);
    if next.tape.log != s.tape.log {
      ToldReads(r, s.term.modes, next.tape.log[|s.tape.log|], next.term.modes);
    }
    forall k | k in next.subs
      ensures Shadowed(r, next.subs[k], next.term.modes)
    {
      if k in s.subs {
        var move := StepMove(s, l, k);
        OldHandShadowed(r, s, next, k, move);
      } else {
        NewcomerShadowed(r, s, k, l.buffer, l.resync, l.cols, l.rows, l.accepted);
      }
    }
  }

  lemma OldHandShadowed<K>(r: Renderer, s: State<K>, next: State<K>, k: K, move: Move)
    requires Tame(r) && AllShadowed(r, s) && k in s.subs && Told(s, next) && Explains(s, next, k, move)
    ensures Shadowed(r, next.subs[k], next.term.modes)
  {
    var sub := s.subs[k];
    if move.Deliver? {
      assert next.tape.log[|s.tape.log|] == move.m;
      DeliveredShadowed(r, sub, s.term.modes, move.m, next.term.modes);
    } else {
      MoveShadowed(r, sub, move, Taken(s.term));
      if next.tape.log != s.tape.log {
        UnlistedShadowed(r, sub, move, Taken(s.term), next.term.modes);
      }
    }
  }

  /** What is no longer listed has nothing to keep up with. */
  lemma UnlistedShadowed(r: Renderer, sub: Sub, move: Move, state: Snapshot, modes: Tracking.Modes)
    requires Shadowed(r, Made(sub, move, state), state.modes) && !sub.life.attached
    requires !move.Deliver? && !move.Flush? && !move.Leave? && !move.Strand?
    ensures Shadowed(r, Made(sub, move, state), modes)
  {
    MoveOfDelisted(sub, move, state);
  }

  lemma {:induction false} AlwaysShadowed<K>(r: Renderer, cols: int, rows: int, run: seq<Label<K>>)
    requires Tame(r)
    ensures AllShadowed(r, Exec(Init<K>(cols, rows), run))
  {
    if run != [] {
      var before := Exec(Init<K>(cols, rows), run[..|run| - 1]);
      AlwaysShadowed(r, cols, rows, run[..|run| - 1]);
      if Enabled(before, run[|run| - 1]) {
        StepShadowed(r, before, run[|run| - 1]);
      }
    }
  }

  /** In every reachable state of every run, torn and overflowed ones included, a
      listed subscriber owed nothing that runs the tracker over its snapshot's
      bytes, its output and its repaints tracks what the session tracks. */
  lemma SubscribersTrackTheSession<K>(r: Renderer, cols: int, rows: int, run: seq<Label<K>>, s: State<K>, k: K)
    requires Tame(r) && Reaches(cols, rows, run, s)
    requires k in s.subs && s.subs[k].life.attached && Listening(s.subs[k])
    ensures Tracking.Sound(s.subs[k].seed.modes) && AllCarry(Sent(s.subs[k]))
    ensures AllRead(r, ReadSnapshot(r, s.subs[k].seed), Sent(s.subs[k])) == s.term.modes
  {
    AlwaysShadowed(r, cols, rows, run);
    assert Shadowed(r, s.subs[k], s.term.modes);
  }
}
