/** What every step of the session keeps about its subscriptions: bounded
    queues, one ending each, no stranded debt, gap-free plain streams. */
module Delivery {
  import opened Bytes
  import opened Terminal
  import opened Protocol

  function Count(b: bool): nat {
    if b then 1 else 0
  }

  /** Bounds, endings and retirements of one subscription. */
  predicate SubOk(sub: Sub) {
    && 1 <= sub.chan.capacity
    && |sub.chan.queue| <= sub.chan.capacity
    && sub.chan.closes == Count(sub.life.done)
    && (sub.life.lagged ==> sub.life.done && !sub.resync && sub.token.retired == 1)
    && (sub.missed ==> sub.resync && !sub.life.done)
    && (sub.life.attached ==> sub.life.entered && sub.token.retired == 0)
    && (sub.life.orphan ==> sub.life.entered && !sub.life.attached)
    && (!sub.life.done ==> sub.life.attached || sub.life.orphan)
    && (sub.life.shut ==> sub.life.done && !sub.token.retire)
    && (sub.token.retiring ==> sub.life.shut)
    && Count(sub.token.retire) + Count(sub.token.retiring) + sub.token.retired == Count(sub.life.entered)
  }

  /** A subscriber that did not ask to resync has been sent a contiguous run of
      the broadcasts since its attach, and all of them while it is listed. */
  predicate GapFree(sub: Sub, log: seq<Message>) {
    var sent := sub.chan.taken + sub.chan.queue;
    !sub.resync ==>
      && sub.since + |sent| <= |log|
      && sent == log[sub.since..sub.since + |sent|]
      && (sub.life.attached && !sub.life.done ==> sub.since + |sent| == |log|)
  }

  /** How one subscription fits the session it belongs to. */
  predicate Fits(sub: Sub, log: seq<Message>, timer: bool, ended: bool, closed: bool) {
    && SubOk(sub)
    && GapFree(sub, log)
    && (closed ==> !sub.life.attached)
    && (!closed ==> !sub.life.orphan)
    && (!closed && !ended && sub.life.entered && sub.token.retired == 0 ==> sub.life.attached)
    && (!closed && sub.life.attached && Owed(sub) ==> timer)
  }

  predicate RetriesOk<K(==)>(s: State<K>) {
    && s.retry.callbacks <= 1
    && (if s.closed then !s.retry.timer else s.retry.callbacks == Count(s.retry.timer))
  }

  ghost predicate SubsOk<K>(s: State<K>) {
    forall k :: k in s.subs ==> Fits(s.subs[k], s.tape.log, s.retry.timer, s.tape.ended, s.closed)
  }

  ghost predicate Inv<K>(s: State<K>) {
    RetriesOk(s) && SubsOk(s)
  }

  // ----- one subscription at a time ------------------------------------------------

  lemma DeliveredFits(sub: Sub, log: seq<Message>, timer: bool, ended: bool, m: Message)
    requires Fits(sub, log, timer, ended, false) && sub.life.attached
    ensures Fits(Delivered(sub, m), log + [m], timer || FallsBehind(sub), ended, false)
  {
    var sent := sub.chan.taken + sub.chan.queue;
    assert sub.chan.taken + (sub.chan.queue + [m]) == sent + [m];
    if !sub.resync {
      assert (log + [m])[sub.since..sub.since + |sent|] == log[sub.since..sub.since + |sent|];
    }
  }

  lemma PassedOverFits(sub: Sub, log: seq<Message>, timer: bool, ended: bool, closed: bool, m: Message)
    requires Fits(sub, log, timer, ended, closed) && !sub.life.attached
    ensures Fits(sub, log + [m], timer, ended, closed)
  {
  }

  lemma FitsLater(sub: Sub, log: seq<Message>, timer: bool, ended: bool, closed: bool)
    requires Fits(sub, log, timer, ended, closed)
    ensures Fits(sub, log, true, ended, closed)
    ensures Fits(sub, log, timer, true, closed)
  {
  }

  lemma DrainedSame(sub: Sub, n: nat)
    ensures var next := Drained(sub, n);
      && next.chan.taken + next.chan.queue == sub.chan.taken + sub.chan.queue
      && next == sub.(chan := sub.chan.(taken := next.chan.taken, queue := next.chan.queue))
      && |next.chan.queue| <= |sub.chan.queue|
  {
  }

  /** Serving a subscription never overfills its queue: whatever the consumer
      takes in between, the push finds room. */
  lemma FlushedFits(sub: Sub, log: seq<Message>, timer: bool, ended: bool, closed: bool,
                    state: Snapshot, force: bool, drain: Drain)
    requires Fits(sub, log, true, ended, closed)
    requires !closed && sub.life.attached && Owed(sub) && Full(sub) && !force ==> timer
    ensures Fits(Flushed(sub, state, force, drain), log, timer, ended, closed)
    ensures force ==> !Owed(Flushed(sub, state, force, drain))
    ensures Flushed(sub, state, force, drain).life.attached == sub.life.attached
  {
  }

  // ----- broadcasts and flushes -----------------------------------------------------

  lemma BroadcastOk<K>(s: State<K>, m: Message)
    requires Inv(s)
    ensures Inv(Broadcast(s, m))
  {
    var next := Broadcast(s, m);
    forall k | k in next.subs
      ensures Fits(next.subs[k], next.tape.log, next.retry.timer, next.tape.ended, next.closed)
    {
      var sub := s.subs[k];
      assert Fits(sub, s.tape.log, s.retry.timer, s.tape.ended, s.closed);
      if sub.life.attached {
        DeliveredFits(sub, s.tape.log, s.retry.timer, s.tape.ended, m);
        if next.retry.timer {
          FitsLater(next.subs[k], next.tape.log, s.retry.timer || FallsBehind(sub), s.tape.ended, false);
        }
      } else {
        PassedOverFits(sub, s.tape.log, s.retry.timer, s.tape.ended, s.closed, m);
        if next.retry.timer {
          FitsLater(sub, next.tape.log, s.retry.timer, s.tape.ended, s.closed);
        }
      }
    }
  }

  lemma SizedOk<K>(s: State<K>, accepted: bool)
    requires Inv(s)
    ensures Inv(Sized(s, accepted))
  {
    var want := Effective(s);
    var moved := Moved(s.term, want.cols, want.rows);
    BroadcastOk(s.(term := moved), Repaint(Taken(moved)));
  }

  /** A flush needs no timer to be running already: it arms one if it must. */
  lemma FlushedAllOk<K>(s: State<K>, force: bool, drains: map<K, Drain>)
    requires RetriesOk(s)
    requires forall k :: k in s.subs ==> Fits(s.subs[k], s.tape.log, true, s.tape.ended, s.closed)
    ensures Inv(FlushedAll(s, force, drains))
    ensures force ==> forall k :: k in s.subs && s.subs[k].life.attached ==> !Owed(FlushedAll(s, force, drains).subs[k])
  {
    var next := FlushedAll(s, force, drains);
    forall k | k in next.subs
      ensures Fits(next.subs[k], next.tape.log, next.retry.timer, next.tape.ended, next.closed)
      ensures force && s.subs[k].life.attached ==> !Owed(next.subs[k])
    {
      if s.subs[k].life.attached {
        FlushedFits(s.subs[k], s.tape.log, next.retry.timer, s.tape.ended, s.closed, Taken(s.term), force, DrainOf(drains, k));
      }
    }
  }

  // ----- every step ------------------------------------------------------------------

  /** Replacing one subscription by one that fits. */
  lemma WithSubOk<K>(s: State<K>, k: K, sub: Sub)
    requires Inv(s)
    requires Fits(sub, s.tape.log, s.retry.timer, s.tape.ended, s.closed)
    ensures Inv(WithSub(s, k, sub))
  {
  }

  lemma SeededOk<K>(s: State<K>, k: K)
    requires Inv(s) && k in s.subs
    ensures Inv(Seeded(s, k))
  {
  }

  lemma NewSubFits(buffer: int, resync: bool, seed: Snapshot, log: seq<Message>, timer: bool, ended: bool, closed: bool)
    ensures closed || Fits(NewSub(buffer, resync, seed, |log|), log, timer, ended, false)
    ensures Fits(SpentSub(buffer, resync, seed, |log|), log, timer, ended, closed)
  {
    assert log[|log|..|log|] == [];
  }

  /** The statement of a newcomer, with the state it is then handed. */
  lemma IntroducedOk<K>(s: State<K>, k: K, cols: int, rows: int, accepted: bool)
    requires Inv(s) && k in s.subs
    ensures Inv(Introduced(s, k, cols, rows, accepted))
  {
    SizedOk(ViewStated(s, k, cols, rows), accepted);
    SeededOk(Sized(ViewStated(s, k, cols, rows), accepted), k);
  }

  lemma AttachedOk<K>(s: State<K>, k: K, buffer: int, resync: bool, cols: int, rows: int, accepted: bool)
    requires Inv(s) && k !in s.subs
    ensures Inv(Attached(s, k, buffer, resync, cols, rows, accepted))
  {
    var listed := WithSub(s, k, NewSub(buffer, resync, Taken(s.term), |s.tape.log|));
    NewSubFits(buffer, resync, Taken(s.term), s.tape.log, s.retry.timer, s.tape.ended, s.closed);
    if s.exited || s.closed {
      WithSubOk(s, k, SpentSub(buffer, resync, Taken(s.term), |s.tape.log|));
    } else {
      WithSubOk(s, k, NewSub(buffer, resync, Taken(s.term), |s.tape.log|));
      if IsSize(cols, rows) {
        IntroducedOk(listed, k, cols, rows, accepted);
      }
    }
  }

  lemma WrittenOk<K>(s: State<K>, chunk: seq<byte>)
    requires Inv(s)
    ensures Inv(Written(s, chunk))
  {
    BroadcastOk(Recorded(s.(term := Printed(s.term, chunk)), chunk), Output(chunk));
  }

  lemma FinishedFits(sub: Sub, log: seq<Message>, timer: bool, ended: bool, closed: bool)
    requires Fits(sub, log, timer, ended, closed)
    ensures Fits(Delisted(Claimed(Finished(sub))), log, timer, true, closed)
    ensures !sub.life.attached ==> Fits(Claimed(Finished(sub)), log, timer, ended, closed)
    ensures sub.life.attached ==> Finished(sub).life.orphan == false
  {
  }

  lemma StreamEndedOk<K>(s: State<K>, drains: map<K, Drain>)
    requires Inv(s)
    ensures Inv(StreamEnded(s, drains))
  {
    var flushed, next := FlushedAll(s, true, drains), StreamEnded(s, drains);
    forall k | k in s.subs
      ensures Fits(s.subs[k], s.tape.log, true, s.tape.ended, s.closed)
    {
      FitsLater(s.subs[k], s.tape.log, s.retry.timer, s.tape.ended, s.closed);
    }
    FlushedAllOk(s, true, drains);
    forall k | k in next.subs
      ensures Fits(next.subs[k], next.tape.log, next.retry.timer, next.tape.ended, next.closed)
    {
      var sub := flushed.subs[k];
      assert Fits(sub, flushed.tape.log, flushed.retry.timer, flushed.tape.ended, flushed.closed);
      FinishedFits(sub, flushed.tape.log, flushed.retry.timer, flushed.tape.ended, flushed.closed);
      FitsLater(sub, flushed.tape.log, flushed.retry.timer, flushed.tape.ended, flushed.closed);
      assert sub.life.attached ==> Delisted(Claimed(Finished(sub))) == Delisted(Finished(sub));
    }
  }

  lemma StrandedFits(sub: Sub, log: seq<Message>, timer: bool, ended: bool)
    requires Fits(sub, log, timer, ended, false)
    ensures Fits(if sub.life.attached then Stranded(sub) else sub, log, false, ended, true)
  {
  }

  lemma SessionClosedOk<K>(s: State<K>, drains: map<K, Drain>, stopped: bool)
    requires Inv(s)
    ensures Inv(SessionClosed(s, drains, stopped))
  {
    if !s.closed {
      var flushed, next := FlushedAll(s, true, drains), SessionClosed(s, drains, stopped);
      forall k | k in s.subs
        ensures Fits(s.subs[k], s.tape.log, true, s.tape.ended, s.closed)
      {
        FitsLater(s.subs[k], s.tape.log, s.retry.timer, s.tape.ended, s.closed);
      }
      FlushedAllOk(s, true, drains);
      forall k | k in next.subs
        ensures Fits(next.subs[k], next.tape.log, next.retry.timer, next.tape.ended, next.closed)
      {
        var sub := flushed.subs[k];
        assert Fits(sub, flushed.tape.log, flushed.retry.timer, flushed.tape.ended, false);
        StrandedFits(sub, flushed.tape.log, flushed.retry.timer, flushed.tape.ended);
        assert next.subs[k] == if sub.life.attached then Stranded(sub) else sub;
      }
    }
  }

  lemma RetryFiresOk<K>(s: State<K>, drains: map<K, Drain>)
    requires Inv(s) && s.retry.callbacks > 0
    ensures Inv(Retried(s, drains))
  {
    var fired := Fired(s);
    forall k | k in s.subs
      ensures Fits(s.subs[k], s.tape.log, true, s.tape.ended, s.closed)
    {
      FitsLater(s.subs[k], s.tape.log, s.retry.timer, s.tape.ended, s.closed);
    }
    if !s.closed {
      FlushedAllOk(fired, false, drains);
    }
  }

  lemma ReceiveOk<K>(s: State<K>, k: K)
    requires Inv(s) && k in s.subs
    ensures Inv(WithSub(s, k, Drained(s.subs[k], 1)))
  {
    DrainedSame(s.subs[k], 1);
    WithSubOk(s, k, Drained(s.subs[k], 1));
  }

  lemma CloseSubOk<K>(s: State<K>, k: K)
    requires Inv(s) && k in s.subs
    ensures Inv(WithSub(s, k, Shut(s.subs[k])))
  {
    WithSubOk(s, k, Shut(s.subs[k]));
  }

  lemma WithdrawnOk<K>(s: State<K>, k: K)
    requires Inv(s) && k in s.subs && s.subs[k].token.retiring
    ensures Inv(Withdrawn(s, k))
  {
    WithSubOk(s, k, Retired(s.subs[k]));
  }

  lemma FinishOrphanOk<K>(s: State<K>, k: K)
    requires Inv(s) && k in s.subs && s.subs[k].life.orphan
    ensures Inv(WithSub(s, k, Claimed(Finished(s.subs[k]))))
  {
    FinishedFits(s.subs[k], s.tape.log, s.retry.timer, s.tape.ended, s.closed);
    WithSubOk(s, k, Claimed(Finished(s.subs[k])));
  }

  lemma BaseSizedOk<K>(s: State<K>, cols: int, rows: int, accepted: bool)
    requires Inv(s)
    ensures Inv(BaseSized(s, cols, rows, accepted))
  {
    SizedOk(BaseStated(s, cols, rows), accepted);
  }

  lemma ViewSizedOk<K>(s: State<K>, k: K, cols: int, rows: int, accepted: bool)
    requires Inv(s)
    ensures Inv(ViewSized(s, k, cols, rows, accepted))
  {
    SizedOk(ViewStated(s, k, cols, rows), accepted);
  }

  lemma SettledOk<K>(s: State<K>, accepted: bool)
    requires Inv(s) && s.geo.settles > 0
    ensures Inv(Settled(s, accepted))
  {
    SizedOk(Woken(s), accepted);
  }

  lemma StreamStepOk<K>(s: State<K>, l: Label<K>)
    requires Inv(s) && Enabled(s, l) && (l.Write? || l.FlushRemnant? || l.EndStream? || l.RetryFires? || l.CloseSession?)
    ensures Inv(Next(s, l))
  {
    match l
    case Write(chunk) => WrittenOk(s, chunk);
    case FlushRemnant(chunk) => WrittenOk(s, chunk);
    case EndStream(drains) => StreamEndedOk(s, drains);
    case RetryFires(drains) => RetryFiresOk(s, drains);
    case CloseSession(drains, stopped) => SessionClosedOk(s, drains, stopped);
  }

  lemma SizeStepOk<K>(s: State<K>, l: Label<K>)
    requires Inv(s) && Enabled(s, l) && (l.Attach? || l.SetBase? || l.SetView? || l.Settle?)
    ensures Inv(Next(s, l))
  {
    match l
    case Attach(k, buffer, resync, cols, rows, accepted) => AttachedOk(s, k, buffer, resync, cols, rows, accepted);
    case SetBase(cols, rows, accepted) => BaseSizedOk(s, cols, rows, accepted);
    case SetView(k, cols, rows, accepted) => ViewSizedOk(s, k, cols, rows, accepted);
    case Settle(accepted) => SettledOk(s, accepted);
  }

  lemma SubStepOk<K>(s: State<K>, l: Label<K>)
    requires Inv(s) && Enabled(s, l) && (l.Receive? || l.CloseSub? || l.RetireSub? || l.FinishOrphan?)
    ensures Inv(Next(s, l))
  {
    match l
    case Receive(k) => ReceiveOk(s, k);
    case CloseSub(k) => CloseSubOk(s, k);
    case RetireSub(k) => WithdrawnOk(s, k);
    case FinishOrphan(k) => FinishOrphanOk(s, k);
  }

  lemma InvStep<K>(s: State<K>, l: Label<K>)
    requires Inv(s) && Enabled(s, l)
    ensures Inv(Next(s, l))
  {
    if l.Write? || l.FlushRemnant? || l.EndStream? || l.RetryFires? || l.CloseSession? {
      StreamStepOk(s, l);
    } else if l.Attach? || l.SetBase? || l.SetView? || l.Settle? {
      SizeStepOk(s, l);
    } else if !l.Exit? {
      SubStepOk(s, l);
    }
  }

  /** Every reachable state, whatever the run. */
  lemma {:induction false} InvAlways<K>(cols: int, rows: int, run: seq<Label<K>>)
    ensures Inv(Exec(Init(cols, rows), run))
  {
    if run != [] {
      var before := run[..|run| - 1];
      InvAlways(cols, rows, before);
      if Enabled(Exec(Init(cols, rows), before), run[|run| - 1]) {
        InvStep(Exec(Init(cols, rows), before), run[|run| - 1]);
      }
    }
  }
}
