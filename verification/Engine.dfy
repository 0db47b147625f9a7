/** The engine's registry and event feeds as the objects the source updates in
    place (engine.go). A ghost field holds what the state machine in `Events`
    makes of each object, and `Valid` ties it to the fields the program reads. */
module Engine {
  import opened Events

  class EventSubscription {
    const capacity: nat
    var queue: seq<Event>    // what the channel buffers
    var open: bool           // the channel has not been closed
    var done: bool
    var lagged: bool

    ghost var view: Feed

    ghost predicate Valid()
      reads this
    {
      && 1 <= capacity && |queue| <= capacity && open == !done
      && view.capacity == capacity && view.queue == queue
      && view.done == done && view.lagged == lagged
    }

    constructor (buffer: int, ghost since: nat)
      ensures Valid() && view == Unlisted(NewFeed(buffer, since))
    {
      capacity := if buffer <= 0 then 64 else buffer;
      queue, open, done, lagged := [], true, false, false;
      view := Unlisted(NewFeed(buffer, since));
    }

    /** Closing a channel twice panics. */
    method CloseChannel()
      requires open
      modifies this`open
      ensures !open
    {
      open := false;
    }

    /** Hands an event over without waiting; a full buffer drops the reader. */
    method Deliver(event: Event, e: Engine)
      requires Valid()
      modifies this, e`subs
      ensures Valid() && view == Offered(old(view), event)
      ensures e.subs == if !old(done) && done then old(e.subs) - {this} else old(e.subs)
      ensures old(done) ==> done && lagged == old(lagged) && queue == old(queue)
      ensures !old(done) && |old(queue)| < capacity ==> queue == old(queue) + [event] && open && lagged == old(lagged)
      ensures !old(done) && |old(queue)| >= capacity ==> done && lagged && !open && queue == old(queue)
    {
      view := Offered(view, event);
      if done {
        return;
      }
      if |queue| < capacity {
        queue := queue + [event];
      } else {
        lagged := true;
        done := true;
        CloseChannel();
        e.subs := e.subs - {this};
      }
    }

    method Finish()
      requires Valid()
      modifies this
      ensures Valid() && view == Finished(old(view))
    {
      if !done {
        done := true;
        CloseChannel();
      }
      view := Finished(view);
    }

    method Receive()
      requires Valid() && queue != []
      modifies this
      ensures Valid() && view == Received(old(view))
    {
      view := Received(view);
      queue := queue[1..];
    }
  }

  // ----- the publishing loop, one reader at a time -----------------------------------------

  ghost predicate Publishing<K>(before: Bus<K>, now: Bus<K>, todo: set<K>, e: Event) {
    todo <= Listed(before) && now == OfferedTo(before, Listed(before) - todo, e)
  }

  lemma PublishingStarts<K>(b: Bus<K>, e: Event)
    ensures Publishing(b, b, Listed(b), e)
  {
  }

  lemma PublishingGoesOn<K>(before: Bus<K>, now: Bus<K>, todo: set<K>, e: Event, k: K)
    requires Publishing(before, now, todo, e) && k in todo
    ensures k in now.feeds && Publishing(before, WithFeed(now, k, Offered(now.feeds[k], e)), todo - {k}, e)
  {
  }

  lemma PublishingEnds<K>(before: Bus<K>, now: Bus<K>, e: Event)
    requires Publishing(before, now, {}, e) && !before.closed
    ensures now.(log := now.log + [e]) == Publish(before, e)
  {
  }

  class Engine {
    var sessions: set<string>
    var subs: set<EventSubscription>
    var closed: bool

    ghost var known: set<EventSubscription>   // every subscription ever made
    ghost var state: Bus<EventSubscription>

    ghost predicate FieldsMatch()
      reads this
    {
      state.sessions == sessions && state.closed == closed && subs <= known && state.feeds.Keys == known
    }

    ghost predicate Valid()
      reads this, known
    {
      && FieldsMatch()
      && forall k :: k in known ==> k.Valid() && state.feeds[k] == k.view && (k in subs <==> k.view.listed)
    }

    constructor ()
      ensures Valid() && Safe() && state == Init<EventSubscription>()
    {
      sessions, subs, closed := {}, {}, false;
      known, state := {}, Init();
    }

    /** What the state machine keeps in every reachable state. */
    ghost predicate Safe()
      reads this
    {
      Ok(state)
    }

    /** One reader has moved, or is new, and nothing else has changed. */
    ghost method Absorb(sub: EventSubscription)
      requires state.sessions == sessions && state.closed == closed && subs <= known
      requires sub in known && state.feeds.Keys + {sub} == known
      requires forall k :: k in known ==> k.Valid() && (k in subs <==> k.view.listed)
      requires forall k :: k in known && k != sub ==> state.feeds[k] == k.view
      modifies this`state
      ensures Valid() && state == WithFeed(old(state), sub, sub.view)
    {
      state := WithFeed(state, sub, sub.view);
    }

    method Subscribe(buffer: int) returns (sub: EventSubscription)
      requires Valid() && Safe()
      modifies this
      ensures Valid() && Safe() && fresh(sub) && known == old(known) + {sub}
      ensures state == Subscribed(old(state), sub, buffer)
      ensures sub.capacity == (if buffer <= 0 then 64 else buffer) && sub.queue == [] && !sub.lagged
      ensures if old(closed) then sub.done && !sub.open && subs == old(subs) else !sub.done && sub.open && subs == old(subs) + {sub}
    {
      sub := new EventSubscription(buffer, |state.log|);
      if closed {
        sub.Finish();
      } else {
        subs := subs + {sub};
        sub.view := sub.view.(listed := true);
      }
      known := known + {sub};
      Absorb(sub);
      StepOk(old(state), Label.Subscribe(sub, buffer), state);
    }

    method DeliverNext(sub: EventSubscription, ghost before: Bus<EventSubscription>,
                       ghost todo: set<EventSubscription>, event: Event)
      requires Valid() && !closed && sub in todo && todo <= subs
      requires Publishing(before, state, todo, event)
      modifies this`subs, this`state, sub
      ensures Valid() && todo - {sub} <= subs
      ensures Publishing(before, state, todo - {sub}, event)
    {
      PublishingGoesOn(before, state, todo, event, sub);
      sub.Deliver(event, this);
      Absorb(sub);
    }

    /** The range loop over the readers, in whatever order the map yields them;
        delivery may delist the one it is at. */
    method PublishEvent(event: Event)
      requires Valid()
      modifies this`subs, this`state, subs
      ensures Valid() && known == old(known)
      ensures state == Publish(old(state), event)
    {
      if closed {
        return;
      }
      ghost var before := state;
      var todo := subs;
      assert todo == Listed(before);
      PublishingStarts(before, event);
      while todo != {}
        invariant Valid() && !closed && todo <= subs && todo <= old(subs)
        invariant Publishing(before, state, todo, event)
        decreases todo
      {
        var sub :| sub in todo;
        DeliverNext(sub, before, todo, event);
        todo := todo - {sub};
      }
      PublishingEnds(before, state, event);
      state := state.(log := state.log + [event]);
    }

    // ----- a spawn, region by region; what the spawn does between them is not here ---------

    /** The look at the engine that a spawn begins with. */
    method Ask(id: string) returns (ok: bool)
      requires Valid() && Safe() && id !in state.phases
      modifies this`state
      ensures Valid() && Safe() && ok == !closed
      ensures state == Phased(old(state), id, if closed then Failed else Asked)
    {
      ok := !closed;
      MarkPhase(id, if closed then Failed else Asked);
      StepOk(old(state), Label.Ask(id), state);
    }

    ghost method MarkPhase(id: string, phase: Phase)
      requires Valid()
      modifies this`state
      ensures Valid() && state == Phased(old(state), id, phase)
    {
      state := Phased(state, id, phase);
    }

    /** The process starts, or does not. */
    ghost method Start(id: string, started: bool)
      requires Valid() && Safe() && PhaseOf(state, id) == Asked
      modifies this`state
      ensures Valid() && Safe()
      ensures state == Phased(old(state), id, if started then Started else Failed)
    {
      MarkPhase(id, if started then Started else Failed);
      StepOk(old(state), Label.Start(id, started), state);
    }

    /** A spawn enters the registry, unless the engine closed meanwhile. */
    method Register(id: string) returns (ok: bool)
      requires Valid() && Safe() && PhaseOf(state, id) == Started
      modifies this`sessions, this`state
      ensures Valid() && Safe() && ok == !closed
      ensures sessions == if ok then old(sessions) + {id} else old(sessions)
      ensures state == Registers(old(state), id)
    {
      ok := !closed;
      if ok {
        sessions := sessions + {id};
      }
      state := Registers(state, id);
      StepOk(old(state), Label.Register(id), state);
    }

    method Announce(id: string, command: string)
      requires Valid() && Safe() && PhaseOf(state, id) == Registered
      modifies this`subs, this`state, subs
      ensures Valid() && Safe()
      ensures state == Publish(Phased(old(state), id, Announced), Spawned(id, command))
    {
      MarkPhase(id, Announced);
      PublishEvent(Spawned(id, command));
      StepOk(old(state), Label.Announce(id, command), state);
    }

    /** The gate the session's own events wait at. */
    ghost method OpenGate(id: string)
      requires Valid() && Safe() && PhaseOf(state, id) == Announced
      modifies this`state
      ensures Valid() && Safe() && state == Phased(old(state), id, Open)
    {
      MarkPhase(id, Open);
      StepOk(old(state), Label.OpenGate(id), state);
    }

    /** An idle or busy event, past the gate. */
    method Speak(id: string, busy: bool)
      requires Valid() && Safe() && PhaseOf(state, id) in {Open, Doomed}
      modifies this`subs, this`state, subs
      ensures Valid() && Safe()
      ensures state == Publish(old(state), if busy then Busy(id) else Idle(id))
    {
      PublishEvent(if busy then Busy(id) else Idle(id));
      StepOk(old(state), Label.Speak(id, busy), state);
    }

    method SayExited(id: string, code: int)
      requires Valid() && Safe() && PhaseOf(state, id) == Open && id !in state.exits
      modifies this`subs, this`state, subs
      ensures Valid() && Safe()
      ensures state == Publish(old(state).(exits := old(state).exits + {id}), Exited(id, code))
    {
      MarkExit(id);
      PublishEvent(Exited(id, code));
      StepOk(old(state), Label.SayExited(id, code), state);
    }

    ghost method MarkExit(id: string)
      requires Valid()
      modifies this`state
      ensures Valid() && state == old(state).(exits := old(state).exits + {id})
    {
      state := state.(exits := state.exits + {id});
    }

    // ----- removals and endings ---------------------------------------------------------------

    /** The first half of a removal; the second, if the session was there, closes it
        and announces that. */
    method Unregister(id: string) returns (found: bool)
      requires Valid() && Safe()
      modifies this`sessions, this`state
      ensures Valid() && Safe() && found == (id in old(sessions)) && sessions == old(sessions) - {id}
      ensures state == Unregisters(old(state), id)
    {
      found := id in sessions;
      sessions := sessions - {id};
      state := Unregisters(state, id);
      StepOk(old(state), Label.Unregister(id), state);
    }

    method SayRemoved(id: string)
      requires Valid() && Safe() && id in state.leaving
      modifies this`subs, this`state, subs
      ensures Valid() && Safe()
      ensures state == Publish(old(state).(leaving := old(state).leaving - {id}), Removed(id))
    {
      MarkGone(id);
      PublishEvent(Removed(id));
      StepOk(old(state), Label.SayRemoved(id), state);
    }

    ghost method MarkGone(id: string)
      requires Valid()
      modifies this`state
      ensures Valid() && state == old(state).(leaving := old(state).leaving - {id})
    {
      state := state.(leaving := state.leaving - {id});
    }

    /** A reader receives one event, without any lock. */
    method ReceiveFrom(sub: EventSubscription)
      requires Valid() && Safe() && sub in known && sub.queue != []
      modifies this`state, sub
      ensures Valid() && Safe()
      ensures state == WithFeed(old(state), sub, Received(old(sub.view)))
    {
      sub.Receive();
      Absorb(sub);
      StepOk(old(state), Label.Receive(sub), state);
    }

    /** Closing a feed: delisted under the engine's lock... */
    method LeaveFeed(sub: EventSubscription)
      requires Valid() && Safe() && sub in known
      modifies this`subs, this`state, sub`view
      ensures Valid() && Safe() && sub !in subs
      ensures state == WithFeed(old(state), sub, Unlisted(old(sub.view)))
    {
      subs := subs - {sub};
      sub.view := Unlisted(sub.view);
      Absorb(sub);
      StepOk(old(state), Label.Leave(sub), state);
    }

    /** ...and finished under its own. */
    method FinishFeed(sub: EventSubscription)
      requires Valid() && Safe() && sub in known && sub !in subs
      modifies this`state, sub
      ensures Valid() && Safe()
      ensures state == WithFeed(old(state), sub, Finished(old(sub.view)))
    {
      sub.Finish();
      Absorb(sub);
      StepOk(old(state), Label.Finish(sub), state);
    }

    ghost method DelistAll()
      requires subs <= known && state.feeds.Keys == known
      requires forall k :: k in known ==> k.Valid() && state.feeds[k] == k.view && (k in subs <==> k.view.listed)
      modifies subs`view
      ensures forall k :: k in known ==> k.Valid() && k.view == Unlisted(state.feeds[k])
    {
      forall k | k in subs {
        k.view := Unlisted(k.view);
      }
    }

    /** The locked part of closing the engine; the feeds it returns are finished
        afterwards. */
    method Close() returns (orphans: set<EventSubscription>)
      requires Valid() && Safe()
      modifies this`sessions, this`subs, this`closed, this`state, subs`view
      ensures Valid() && Safe() && closed && subs == {} && sessions == {} && orphans == old(subs)
      ensures state == Closes(old(state))
    {
      orphans := Shut();
      StepOk(old(state), Label.Close, state);
    }

    method Shut() returns (orphans: set<EventSubscription>)
      requires Valid()
      modifies this`sessions, this`subs, this`closed, this`state, subs`view
      ensures Valid() && closed && subs == {} && sessions == {} && orphans == old(subs)
      ensures state == Closes(old(state))
    {
      closed := true;
      sessions := {};
      DelistAll();
      orphans, subs := subs, {};
      state := Closes(state);
    }
  }
}
