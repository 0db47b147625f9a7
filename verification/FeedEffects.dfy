/** What every step of the engine does, field by field. */
module FeedEffects {
  import opened Events
  import opened Delivery

  /** A listed feed takes the event, or is dropped for having no room; the others
      are not spoken to. */
  predicate Offers(f: Feed, e: Event, after: Feed) {
    if !f.listed || f.done then after == f
    else if |f.queue| < f.capacity then after == f.(queue := f.queue + [e])
    else after == f.(lagged := true, done := true, closes := f.closes + 1, listed := false)
  }

  /** An open engine logs the event and offers it to everyone; a closed one says
      nothing. */
  ghost predicate Tells<K>(b: Bus<K>, e: Event, next: Bus<K>) {
    if b.closed then next == b
    else
      && next.log == b.log + [e] && next.feeds.Keys == b.feeds.Keys
      && (forall k :: k in b.feeds ==> Offers(b.feeds[k], e, next.feeds[k]))
      && next == b.(log := next.log, feeds := next.feeds)
  }

  lemma PublishTells<K>(b: Bus<K>, e: Event)
    ensures Tells(b, e, Publish(b, e))
  {
    if !b.closed {
      var next := Publish(b, e);
      forall k | k in b.feeds
        ensures Offers(b.feeds[k], e, next.feeds[k])
      {
        assert k in Events.Listed(b) <==> b.feeds[k].listed;
      }
    }
  }

  ghost predicate Goes<K>(b: Bus<K>, l: Label<K>, next: Bus<K>) {
    Enabled(b, l) && next == Next(b, l)
  }

  /** A spawn: it looks whether the engine is open, starts, enters the registry if
      the engine is still open, is announced, and opens the gate. */
  lemma SpawnEffect<K>(b: Bus<K>, l: Label<K>, next: Bus<K>)
    requires Goes(b, l, next)
    ensures l.Ask? ==> next == b.(phases := b.phases[l.id := if b.closed then Failed else Asked])
    ensures l.Start? ==> next == b.(phases := b.phases[l.id := if l.started then Started else Failed])
    ensures l.Register? ==>
      next == if b.closed then b.(phases := b.phases[l.id := Doomed])
              else b.(phases := b.phases[l.id := Registered], sessions := b.sessions + {l.id})
    ensures l.Announce? ==> Tells(b.(phases := b.phases[l.id := Announced]), Spawned(l.id, l.command), next)
    ensures l.OpenGate? ==> next == b.(phases := b.phases[l.id := Phase.Open])
  {
    if l.Announce? {
      PublishTells(b.(phases := b.phases[l.id := Announced]), Spawned(l.id, l.command));
    }
  }

  /** What is said of a session: idle and busy, its exit once, and its removal once
      it has left the registry. */
  lemma NewsEffect<K>(b: Bus<K>, l: Label<K>, next: Bus<K>)
    requires Goes(b, l, next)
    ensures l.Speak? ==> Tells(b, if l.busy then Busy(l.id) else Idle(l.id), next)
    ensures l.SayExited? ==> Tells(b.(exits := b.exits + {l.id}), Exited(l.id, l.code), next)
    ensures l.Unregister? ==>
      next == if l.id in b.sessions then b.(sessions := b.sessions - {l.id}, leaving := b.leaving + {l.id}) else b
    ensures l.SayRemoved? ==> Tells(b.(leaving := b.leaving - {l.id}), Removed(l.id), next)
  {
    match l
    case Speak(id, busy) => PublishTells(b, if busy then Busy(id) else Idle(id));
    case SayExited(id, code) => PublishTells(b.(exits := b.exits + {id}), Exited(id, code));
    case SayRemoved(id) => PublishTells(b.(leaving := b.leaving - {id}), Removed(id));
    case _ =>
  }

  /** Feeds come, open or, on a closed engine, finished; are read, delisted and
      finished; and closing the engine delists them all. */
  lemma FeedEffect<K>(b: Bus<K>, l: Label<K>, next: Bus<K>)
    requires Goes(b, l, next)
    ensures l.Subscribe? ==>
      next == b.(feeds := b.feeds[l.feed :=
        Feed(if l.buffer <= 0 then 64 else l.buffer, |b.log|, [], [], !b.closed, b.closed, false, if b.closed then 1 else 0)])
    ensures l.Receive? ==>
      var f := b.feeds[l.feed];
      next == b.(feeds := b.feeds[l.feed := f.(taken := f.taken + [f.queue[0]], queue := f.queue[1..])])
    ensures l.Leave? ==> next == b.(feeds := b.feeds[l.feed := b.feeds[l.feed].(listed := false)])
    ensures l.Finish? ==>
      var f := b.feeds[l.feed];
      next == b.(feeds := b.feeds[l.feed := f.(done := true, closes := if f.done then f.closes else f.closes + 1)])
    ensures l.Close? ==>
      && next.feeds.Keys == b.feeds.Keys && (forall k :: k in b.feeds ==> next.feeds[k] == b.feeds[k].(listed := false))
      && next == b.(closed := true, sessions := {}, feeds := next.feeds)
  {
  }

  /** A reader is marked lagged by a publication that finds its queue full, and by
      nothing else; it is done and delisted then. */
  lemma LaggedMeansDropped<K>(b: Bus<K>, l: Label<K>, next: Bus<K>, k: K)
    requires Ok(b) && Goes(b, l, next) && k in b.feeds
    ensures k in next.feeds
    ensures next.feeds[k].lagged <==>
      b.feeds[k].lagged || (b.feeds[k].listed && |b.feeds[k].queue| >= b.feeds[k].capacity && next.log != b.log)
    ensures next.feeds[k].lagged ==> next.feeds[k].done && (b.feeds[k].lagged || !next.feeds[k].listed)
  {
    assert FeedOk(b.feeds[k], b.log);
    if l.Announce? || l.Speak? || l.SayExited? || l.SayRemoved? {
      SaidSomething(b, l, next, k);
    } else {
      SpawnEffect(b, l, next);
      NewsEffect(b, l, next);
      FeedEffect(b, l, next);
    }
  }

  lemma SaidSomething<K>(b: Bus<K>, l: Label<K>, next: Bus<K>, k: K)
    requires Goes(b, l, next) && k in b.feeds && (l.Announce? || l.Speak? || l.SayExited? || l.SayRemoved?)
    ensures if b.closed then next.log == b.log && next.feeds == b.feeds
            else next.log != b.log && k in next.feeds && exists e :: Offers(b.feeds[k], e, next.feeds[k])
  {
    SpawnEffect(b, l, next);
    NewsEffect(b, l, next);
    if !b.closed {
      assert |next.log| == |b.log| + 1;
      assert Offers(b.feeds[k], next.log[|b.log|], next.feeds[k]);
    }
  }

  /** Where every run starts, and how it goes on. */
  lemma RunsGoOn<K>(b: Bus<K>, run: seq<Label<K>>, l: Label<K>, next: Bus<K>)
    requires Goes(Exec(b, run), l, next)
    ensures Exec(b, run + [l]) == next && Exec(b, []) == b
    ensures Init<K>() == Bus([], map[], map[], {}, {}, {}, false)
  {
    assert (run + [l])[..|run|] == run;
  }
}
