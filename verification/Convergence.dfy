/** Replicas converge: what a subscriber was handed, read and still has queued
    adds up to the session's own terminal. */
module Convergence {
  import opened Bytes
  import opened Sequences
  import opened Terminal
  import opened Protocol
  import opened Delivery

  /** A subscriber that is owed nothing has been sent the terminal, exactly. */
  ghost predicate Follows(sub: Sub, term: Term) {
    sub.life.attached && Listening(sub) ==> Replica(sub) == term
  }

  ghost predicate Converged<K>(s: State<K>) {
    forall k :: k in s.subs ==> Follows(s.subs[k], s.term)
  }

  // ----- one subscription at a time ------------------------------------------------

  lemma SentMore(sub: Sub, m: Message)
    ensures Replica(Queued(sub, sub.chan.queue + [m])) == Shown(Replica(sub), m)
  {
    Regrouped(sub.chan.taken, sub.chan.queue, [m]);
    ShownAppend(Restored(sub.seed), sub.chan.taken + sub.chan.queue, m);
  }

  lemma DeliveredFollows(sub: Sub, before: Term, after: Term, m: Message)
    requires Follows(sub, before) && Shown(before, m) == after
    ensures sub.life.attached ==> Follows(Delivered(sub, m), after)
  {
    SentMore(sub, m);
  }

  lemma DrainedReplica(sub: Sub, n: nat)
    ensures Replica(Drained(sub, n)) == Replica(sub)
  {
    DrainedSame(sub, n);
  }

  lemma ResyncedReplica(sub: Sub, state: Snapshot)
    ensures Replica(Resynced(sub, state)) == Restored(state)
  {
  }

  predicate Served(sub: Sub, force: bool) {
    Owed(sub) && (force || !Full(sub))
  }

  /** Serving a debt restores the replica whatever was dropped, evicted or
      received in the meantime; a subscription that is owed nothing is not
      touched. */
  lemma FlushedReplica(sub: Sub, state: Snapshot, force: bool, drain: Drain)
    ensures Served(sub, force) ==> Replica(Flushed(sub, state, force, drain)) == Restored(state)
    ensures Served(sub, force) ==> Listening(Flushed(sub, state, force, drain))
    ensures !Served(sub, force) ==> Flushed(sub, state, force, drain) == sub
  {
    ResyncedReplica(Drained(sub, drain.before), state);
    ResyncedReplica(Drained(Evicted(Drained(sub, drain.before)), drain.after), state);
  }

  lemma FlushedFollows(sub: Sub, term: Term, force: bool, drain: Drain)
    requires Follows(sub, term) && AtGround(term)
    ensures Follows(Flushed(sub, Taken(term), force, drain), term)
  {
    FlushedReplica(sub, Taken(term), force, drain);
  }

  // ----- broadcasts and flushes -----------------------------------------------------

  lemma BroadcastConverges<K>(s: State<K>, term: Term, m: Message)
    requires Converged(s) && Shown(s.term, m) == term
    ensures Converged(Broadcast(s.(term := term), m))
  {
    forall k | k in s.subs
      ensures s.subs[k].life.attached ==> Follows(Delivered(s.subs[k], m), term)
    {
      DeliveredFollows(s.subs[k], s.term, term, m);
    }
  }

  lemma WrittenConverges<K>(s: State<K>, chunk: seq<byte>)
    requires Converged(s)
    ensures Converged(Written(s, chunk))
  {
    BroadcastConverges(Recorded(s, chunk), Printed(s.term, chunk), Output(chunk));
  }

  lemma SizedConverges<K>(s: State<K>, accepted: bool)
    requires Converged(s) && AtGround(s.term)
    ensures Converged(Sized(s, accepted)) && AtGround(Sized(s, accepted).term)
  {
    var want := Effective(s);
    var moved := Moved(s.term, want.cols, want.rows);
    BroadcastConverges(s, moved, Repaint(Taken(moved)));
  }

  lemma FlushedAllConverges<K>(s: State<K>, force: bool, drains: map<K, Drain>)
    requires Converged(s) && AtGround(s.term)
    ensures Converged(FlushedAll(s, force, drains))
  {
    var next := FlushedAll(s, force, drains);
    forall k | k in next.subs
      ensures Follows(next.subs[k], s.term)
    {
      FlushedFollows(s.subs[k], s.term, force, DrainOf(drains, k));
    }
  }

  // ----- attaching --------------------------------------------------------------------

  /** Whatever the attach itself broadcast to the newcomer is already in the
      state it is handed, and applying it again changes nothing. */
  lemma SeededFollows(sub: Sub, term: Term)
    requires AtGround(term) && sub.chan.taken == []
    requires sub.chan.queue == [] || sub.chan.queue == [Repaint(Taken(term))]
    ensures Replica(sub.(seed := Taken(term))) == term
  {
    var seeded := sub.(seed := Taken(term));
    assert seeded.chan.taken + seeded.chan.queue == seeded.chan.queue;
    if sub.chan.queue != [] {
      ShownAppend(Restored(seeded.seed), [], Repaint(Taken(term)));
      assert [] + [Repaint(Taken(term))] == sub.chan.queue;
    }
  }

  lemma SeededConverges<K>(s: State<K>, k: K)
    requires Converged(s) && AtGround(s.term) && k in s.subs && s.subs[k].chan.taken == []
    requires s.subs[k].chan.queue == [] || s.subs[k].chan.queue == [Repaint(Taken(s.term))]
    ensures Converged(Seeded(s, k))
  {
    SeededFollows(s.subs[k], s.term);
  }

  /** What a newcomer's own statement leaves in its queue. */
  lemma NewcomerSized<K>(s: State<K>, k: K, accepted: bool)
    requires k in s.subs && s.subs[k].life.attached && Listening(s.subs[k])
    requires s.subs[k].chan.capacity >= 1 && s.subs[k].chan.taken == [] && s.subs[k].chan.queue == []
    ensures var next := Sized(s, accepted);
      && next.subs[k].chan.taken == []
      && (next.subs[k].chan.queue == [] || next.subs[k].chan.queue == [Repaint(Taken(next.term))])
  {
    var want := Effective(s);
    var moved := Moved(s.term, want.cols, want.rows);
    var sub := s.subs[k];
    assert Delivered(sub, Repaint(Taken(moved))) == Queued(sub, [] + [Repaint(Taken(moved))]);
    assert [] + [Repaint(Taken(moved))] == [Repaint(Taken(moved))];
  }

  lemma ListedConverges<K>(s: State<K>, k: K, sub: Sub)
    requires Converged(s) && Follows(sub, s.term)
    ensures Converged(WithSub(s, k, sub))
  {
  }

  lemma IntroducedConverges<K>(s: State<K>, k: K, cols: int, rows: int, accepted: bool)
    requires Converged(s) && AtGround(s.term)
    requires k in s.subs && s.subs[k].life.attached && Listening(s.subs[k])
    requires s.subs[k].chan.capacity >= 1 && s.subs[k].chan.taken == [] && s.subs[k].chan.queue == []
    ensures Converged(Introduced(s, k, cols, rows, accepted))
  {
    var stated := ViewStated(s, k, cols, rows);
    NewcomerSized(stated, k, accepted);
    SizedConverges(stated, accepted);
    SeededConverges(Sized(stated, accepted), k);
  }

  lemma AttachedConverges<K>(s: State<K>, k: K, buffer: int, resync: bool, cols: int, rows: int, accepted: bool)
    requires Converged(s) && AtGround(s.term) && k !in s.subs
    ensures Converged(Attached(s, k, buffer, resync, cols, rows, accepted))
  {
    var sub := NewSub(buffer, resync, Taken(s.term), |s.tape.log|);
    var spent := SpentSub(buffer, resync, Taken(s.term), |s.tape.log|);
    if s.exited || s.closed {
      ListedConverges(s, k, spent);
    } else {
      SeededFollows(sub, s.term);
      ListedConverges(s, k, sub);
      if IsSize(cols, rows) {
        IntroducedConverges(WithSub(s, k, sub), k, cols, rows, accepted);
      }
    }
  }

  // ----- every step ------------------------------------------------------------------

  lemma EndingConverges<K>(s: State<K>, drains: map<K, Drain>, stopped: bool)
    requires Converged(s) && AtGround(s.term)
    ensures Converged(StreamEnded(s, drains))
    ensures Converged(SessionClosed(s, drains, stopped))
  {
    FlushedAllConverges(s, true, drains);
  }

  lemma RetriedConverges<K>(s: State<K>, drains: map<K, Drain>)
    requires Converged(s) && AtGround(s.term) && s.retry.callbacks > 0
    ensures Converged(Retried(s, drains))
  {
    FlushedAllConverges(Fired(s), false, drains);
  }

  lemma BaseSizedConverges<K>(s: State<K>, cols: int, rows: int, accepted: bool)
    requires Converged(s) && AtGround(s.term)
    ensures Converged(BaseSized(s, cols, rows, accepted))
  {
    SizedConverges(BaseStated(s, cols, rows), accepted);
  }

  lemma ViewSizedConverges<K>(s: State<K>, k: K, cols: int, rows: int, accepted: bool)
    requires Converged(s) && AtGround(s.term)
    ensures Converged(ViewSized(s, k, cols, rows, accepted))
  {
    SizedConverges(ViewStated(s, k, cols, rows), accepted);
  }

  lemma SettledConverges<K>(s: State<K>, accepted: bool)
    requires Converged(s) && AtGround(s.term) && s.geo.settles > 0
    ensures Converged(Settled(s, accepted))
  {
    SizedConverges(Woken(s), accepted);
  }

  lemma SizeStepConverges<K>(s: State<K>, l: Label<K>)
    requires Converged(s) && AtGround(s.term) && Enabled(s, l) && (l.SetBase? || l.SetView? || l.Settle?)
    ensures Converged(Next(s, l))
  {
    match l
    case SetBase(cols, rows, accepted) => BaseSizedConverges(s, cols, rows, accepted);
    case SetView(k, cols, rows, accepted) => ViewSizedConverges(s, k, cols, rows, accepted);
    case Settle(accepted) => SettledConverges(s, accepted);
  }

  lemma SubStepConverges<K>(s: State<K>, l: Label<K>)
    requires Converged(s) && Enabled(s, l) && (l.Receive? || l.CloseSub? || l.RetireSub? || l.FinishOrphan? || l.Exit?)
    ensures Converged(Next(s, l))
  {
    match l
    case Receive(k) =>
      DrainedReplica(s.subs[k], 1);
      ListedConverges(s, k, Drained(s.subs[k], 1));
    case CloseSub(k) => ListedConverges(s, k, Shut(s.subs[k]));
    case RetireSub(k) => ListedConverges(s, k, Retired(s.subs[k]));
    case FinishOrphan(k) => ListedConverges(s, k, Claimed(Finished(s.subs[k])));
    case Exit =>
  }

  lemma StepConverges<K>(s: State<K>, l: Label<K>)
    requires Converged(s) && AtGround(s.term) && Enabled(s, l)
    ensures Converged(Next(s, l))
  {
    match l
    case Write(chunk) => WrittenConverges(s, chunk);
    case FlushRemnant(chunk) => WrittenConverges(s, chunk);
    case EndStream(drains) => EndingConverges(s, drains, false);
    case CloseSession(drains, stopped) => EndingConverges(s, drains, stopped);
    case RetryFires(drains) => RetriedConverges(s, drains);
    case Attach(k, buffer, resync, cols, rows, accepted) =>
      AttachedConverges(s, k, buffer, resync, cols, rows, accepted);
    case _ =>
      if l.SetBase? || l.SetView? || l.Settle? {
        SizeStepConverges(s, l);
      } else {
        SubStepConverges(s, l);
      }
  }

  /** The parser was at ground in every state the run passed through before its
      last. */
  predicate Grounded<K(==)>(s: State<K>, run: seq<Label<K>>) {
    run == [] || (Grounded(s, run[..|run| - 1]) && AtGround(Exec(s, run[..|run| - 1]).term))
  }

  lemma {:induction false} RunConverges<K>(s: State<K>, run: seq<Label<K>>)
    requires Converged(s) && Grounded(s, run)
    ensures Converged(Exec(s, run))
  {
    if run != [] {
      var before := Exec(s, run[..|run| - 1]);
      RunConverges(s, run[..|run| - 1]);
      if Enabled(before, run[|run| - 1]) {
        StepConverges(before, run[|run| - 1]);
      }
    }
  }
}
