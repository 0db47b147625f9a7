/** Every step of the session, seen from one subscription: it is one of nine
    moves, and only a broadcast ever sends it output. */
module Moves {
  import opened Bytes
  import opened Terminal
  import opened Protocol

  datatype Move =
    | Stay
    | Deliver(m: Message)
    | Flush(force: bool, drain: Drain)
    | Leave(drain: Drain)              // the last call of a stream that ends
    | Strand(drain: Drain)             // the last call of a session that closes
    | Pull
    | Hang                             // Close, under the subscription's lock
    | Withdraw                         // Close, under the session's lock
    | FinishOff

  function Made(sub: Sub, move: Move, state: Snapshot): Sub {
    match move
    case Stay => sub
    case Deliver(m) => Delivered(sub, m)
    case Flush(force, drain) => Flushed(sub, state, force, drain)
    case Leave(drain) => Delisted(Finished(Flushed(sub, state, true, drain)))
    case Strand(drain) => Stranded(Flushed(sub, state, true, drain))
    case Pull => Drained(sub, 1)
    case Hang => Shut(sub)
    case Withdraw => Retired(sub)
    case FinishOff => Claimed(Finished(sub))
  }

  /** What a step that makes this move may change around the subscription. */
  predicate Explains<K(==)>(s: State<K>, next: State<K>, k: K, move: Move)
    requires k in s.subs
  {
    && k in next.subs
    && next.subs[k] == Made(s.subs[k], move, Taken(s.term))
    && (move.Deliver? ==> s.subs[k].life.attached && next.tape.log == s.tape.log + [move.m])
    && (next.tape.log == s.tape.log ==> next.term == s.term)
    && (next.tape.log != s.tape.log && s.subs[k].life.attached ==> move.Deliver?)
    && (move.Flush? || move.Leave? || move.Strand? ==> s.subs[k].life.attached)
  }

  lemma BroadcastShape<K>(s: State<K>, m: Message)
    ensures var next := Broadcast(s, m);
      && next.tape.log == s.tape.log + [m] && next.term == s.term && next.subs.Keys == s.subs.Keys
      && forall k :: k in s.subs ==>
           next.subs[k] == if s.subs[k].life.attached then Delivered(s.subs[k], m) else s.subs[k]
  {
  }

  lemma BroadcastMove<K>(s: State<K>, term: Term, m: Message, k: K) returns (move: Move)
    requires k in s.subs
    ensures Explains(s, Broadcast(s.(term := term), m), k, move)
  {
    move := if s.subs[k].life.attached then Deliver(m) else Stay;
    BroadcastShape(s.(term := term), m);
    assert |s.tape.log + [m]| != |s.tape.log|;
  }

  lemma SizedMove<K>(s: State<K>, accepted: bool, k: K) returns (move: Move)
    requires k in s.subs
    ensures Explains(s, Sized(s, accepted), k, move)
  {
    var want := Effective(s);
    if (want.cols == s.term.cols && want.rows == s.term.rows) || !accepted {
      move := Stay;
    } else {
      var moved := Moved(s.term, want.cols, want.rows);
      move := BroadcastMove(s, moved, Repaint(Taken(moved)), k);
    }
  }

  lemma WrittenMove<K>(s: State<K>, chunk: seq<byte>, k: K) returns (move: Move)
    requires k in s.subs
    ensures Explains(s, Written(s, chunk), k, move)
  {
    move := BroadcastMove(Recorded(s, chunk), Printed(s.term, chunk), Output(chunk), k);
  }

  lemma FlushedAllMove<K>(s: State<K>, force: bool, drains: map<K, Drain>, k: K) returns (move: Move)
    requires k in s.subs
    ensures Explains(s, FlushedAll(s, force, drains), k, move)
    ensures s.subs[k].life.attached ==> move == Flush(force, DrainOf(drains, k))
    ensures !s.subs[k].life.attached ==> move == Stay
  {
    move := if s.subs[k].life.attached then Flush(force, DrainOf(drains, k)) else Stay;
  }

  lemma EndingMove<K>(s: State<K>, drains: map<K, Drain>, stopped: bool, k: K) returns (ended: Move, closed: Move)
    requires k in s.subs
    ensures Explains(s, StreamEnded(s, drains), k, ended)
    ensures s.subs[k].life.attached ==> ended == Leave(DrainOf(drains, k))
    ensures Explains(s, SessionClosed(s, drains, stopped), k, closed)
    ensures s.subs[k].life.attached && !s.closed ==> closed == Strand(DrainOf(drains, k))
  {
    var flush := FlushedAllMove(s, true, drains, k);
    var sub := FlushedAll(s, true, drains).subs[k];
    AttachedSurvivesFlush(s.subs[k], Taken(s.term), true, DrainOf(drains, k));
    ended := if s.subs[k].life.attached then Leave(DrainOf(drains, k)) else Stay;
    closed := if s.subs[k].life.attached && !s.closed then Strand(DrainOf(drains, k)) else Stay;
  }

  lemma AttachedSurvivesFlush(sub: Sub, state: Snapshot, force: bool, drain: Drain)
    ensures Flushed(sub, state, force, drain).life.attached == sub.life.attached
  {
    var next := Flushed(sub, state, force, drain);
    if !Owed(sub) {
      assert next == sub;
    } else if !Full(sub) {
      assert next == Resynced(Drained(sub, drain.before), state);
    } else if force {
      assert next == Resynced(Drained(Evicted(Drained(sub, drain.before)), drain.after), state);
    } else {
      assert next == sub;
    }
  }

  lemma AttachMove<K>(s: State<K>, j: K, buffer: int, resync: bool, cols: int, rows: int, accepted: bool, k: K)
    returns (move: Move)
    requires k in s.subs && j !in s.subs
    ensures Explains(s, Attached(s, j, buffer, resync, cols, rows, accepted), k, move)
  {
    move := Stay;
    if !s.exited && !s.closed && IsSize(cols, rows) {
      move := SizedMove(ViewStated(WithSub(s, j, NewSub(buffer, resync, Taken(s.term), |s.tape.log|)), j, cols, rows), accepted, k);
    }
  }

  lemma BaseSizedMove<K>(s: State<K>, cols: int, rows: int, accepted: bool, k: K) returns (move: Move)
    requires k in s.subs
    ensures Explains(s, BaseSized(s, cols, rows, accepted), k, move)
  {
    move := Stay;
    if IsSize(cols, rows) {
      move := SizedMove(BaseStated(s, cols, rows), accepted, k);
    }
  }

  lemma ViewSizedMove<K>(s: State<K>, j: K, cols: int, rows: int, accepted: bool, k: K) returns (move: Move)
    requires k in s.subs
    ensures Explains(s, ViewSized(s, j, cols, rows, accepted), k, move)
  {
    move := Stay;
    if IsSize(cols, rows) && j in s.subs && s.subs[j].life.attached {
      move := SizedMove(ViewStated(s, j, cols, rows), accepted, k);
    }
  }

  lemma SettledMove<K>(s: State<K>, accepted: bool, k: K) returns (move: Move)
    requires k in s.subs && s.geo.settles > 0
    ensures Explains(s, Settled(s, accepted), k, move)
  {
    move := Stay;
    if !s.closed && !s.exited {
      move := SizedMove(Woken(s), accepted, k);
    }
  }

  lemma RetriedMove<K>(s: State<K>, drains: map<K, Drain>, k: K) returns (move: Move)
    requires k in s.subs && s.retry.callbacks > 0
    ensures Explains(s, Retried(s, drains), k, move)
  {
    move := Stay;
    if !s.closed {
      move := FlushedAllMove(Fired(s), false, drains, k);
    }
  }

  lemma SubMove<K>(s: State<K>, l: Label<K>, k: K) returns (move: Move)
    requires k in s.subs && Enabled(s, l)
    requires l.Receive? || l.CloseSub? || l.RetireSub? || l.FinishOrphan? || l.Exit?
    ensures Explains(s, Next(s, l), k, move)
  {
    move := Stay;
    match l
    case Receive(j) => if j == k { move := Pull; }
    case CloseSub(j) => if j == k { move := Hang; }
    case RetireSub(j) => if j == k { move := Withdraw; }
    case FinishOrphan(j) => if j == k { move := FinishOff; }
    case Exit =>
  }

  lemma StreamMove<K>(s: State<K>, l: Label<K>, k: K) returns (move: Move)
    requires k in s.subs && Enabled(s, l)
    requires l.Write? || l.FlushRemnant? || l.EndStream? || l.CloseSession? || l.RetryFires?
    ensures Explains(s, Next(s, l), k, move)
  {
    var other: Move;
    match l
    case Write(chunk) => move := WrittenMove(s, chunk, k);
    case FlushRemnant(chunk) => move := WrittenMove(s, chunk, k);
    case EndStream(drains) => move, other := EndingMove(s, drains, false, k);
    case CloseSession(drains, stopped) => other, move := EndingMove(s, drains, stopped, k);
    case RetryFires(drains) => move := RetriedMove(s, drains, k);
  }

  lemma SizeMove<K>(s: State<K>, l: Label<K>, k: K) returns (move: Move)
    requires k in s.subs && Enabled(s, l)
    requires l.Attach? || l.SetBase? || l.SetView? || l.Settle?
    ensures Explains(s, Next(s, l), k, move)
  {
    match l
    case Attach(j, buffer, resync, cols, rows, accepted) =>
      move := AttachMove(s, j, buffer, resync, cols, rows, accepted, k);
    case SetBase(cols, rows, accepted) => move := BaseSizedMove(s, cols, rows, accepted, k);
    case SetView(j, cols, rows, accepted) => move := ViewSizedMove(s, j, cols, rows, accepted, k);
    case Settle(accepted) => move := SettledMove(s, accepted, k);
  }

  /** No step does anything else to a subscription. */
  lemma StepMove<K>(s: State<K>, l: Label<K>, k: K) returns (move: Move)
    requires k in s.subs && Enabled(s, l)
    ensures Explains(s, Next(s, l), k, move)
  {
    if l.Write? || l.FlushRemnant? || l.EndStream? || l.CloseSession? || l.RetryFires? {
      move := StreamMove(s, l, k);
    } else if l.Attach? || l.SetBase? || l.SetView? || l.Settle? {
      move := SizeMove(s, l, k);
    } else {
      move := SubMove(s, l, k);
    }
  }
}
