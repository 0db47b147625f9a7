/** A session and its subscriptions as the objects the source updates in place
    (session.go). Each method is one region run under a lock, and is proved to
    make the step the protocol describes: a ghost field holds the protocol's
    view of the object, and `Valid` ties it to the fields the program reads. */
module Session {
  import opened Bytes
  import opened Terminal
  import opened Protocol
  import opened Tracking
  import opened Geometry
  import opened Ordering
  import opened Delivery
  import opened Moves
  import Activity
  import Effects

  class Subscription {
    const capacity: nat
    const resync: bool
    var queue: seq<Message>    // what the channel buffers
    var open: bool             // the channel has not been closed
    var done: bool
    var lagged: bool
    var missed: bool
    var retire: bool           // the retirement closure is still here

    ghost var view: Sub

    ghost predicate Valid()
      reads this
    {
      && 1 <= capacity && |queue| <= capacity && open == !done
      && view.chan.capacity == capacity && view.chan.queue == queue
      && view.resync == resync && view.missed == missed
      && view.life.done == done && view.life.lagged == lagged
      && view.token.retire == retire
    }

    constructor (buffer: int, resync: bool, ghost seed: Snapshot, ghost since: nat)
      ensures Valid()
      ensures view == Unlisted(CapacityFor(buffer), resync, seed, since)
    {
      capacity := if buffer <= 0 then 64 else buffer;
      this.resync := resync;
      queue, open := [], true;
      done, lagged, missed, retire := false, false, false, false;
      view := Unlisted(CapacityFor(buffer), resync, seed, since);
    }

    /** A push onto the channel. The preconditions are what keeps it from
        blocking, with the session's lock held, and from panicking. */
    method Send(m: Message)
      requires |queue| < capacity && open
      modifies this`queue
      ensures queue == old(queue) + [m]
    {
      queue := queue + [m];
    }

    /** Closing a channel twice panics. */
    method CloseChannel()
      requires open
      modifies this`open
      ensures !open
    {
      open := false;
    }

    /** The consumer receives up to `n` messages; it needs no lock to do so. */
    method Receive(n: nat)
      requires Valid()
      modifies this`queue, this`view
      ensures Valid() && |queue| <= |old(queue)|
      ensures view == Drained(old(view), n)
    {
      var k := if n <= |queue| then n else |queue|;
      queue := queue[k..];
      view := Drained(view, n);
    }

    method Finish()
      requires Valid()
      modifies this
      ensures Valid()
      ensures view == Finished(old(view))
    {
      if !done {
        done := true;
        missed := false;
        CloseChannel();
      }
      view := Finished(view);
    }

    /** The half of Close that runs under the subscription's own lock; `owing`
        says whether the retirement is now the caller's to run. */
    method Close() returns (owing: bool)
      requires Valid()
      modifies this
      ensures Valid() && owing == old(retire)
      ensures view == Shut(old(view))
    {
      owing := retire;
      retire := false;
      if !done {
        done := true;
        missed := false;
        CloseChannel();
      }
      view := Shut(view);
    }

    /** A receive that must not wait: the consumer may have emptied the queue. */
    method Evict()
      requires Valid()
      modifies this`queue, this`view
      ensures Valid() && |queue| < capacity
      ensures view == Evicted(old(view))
    {
      if |queue| > 0 {
        queue := queue[1..];
      }
      view := Evicted(view);
    }

    method Restore(state: Snapshot)
      requires Valid() && |queue| < capacity && !done
      modifies this`queue, this`missed, this`view
      ensures Valid()
      ensures view == Resynced(old(view), state)
    {
      Send(Resync(state));
      missed := false;
      view := Resynced(view, state);
    }

    /** One subscription's share of a flush. The consumer keeps receiving while
        it runs: `drain` is what it takes between the room check and the push,
        and between the eviction and the push. */
    method Flush(state: Snapshot, force: bool, drain: Drain) returns (owed: bool)
      requires Valid()
      modifies this
      ensures Valid()
      ensures view == Flushed(old(view), state, force, drain)
      ensures owed == (Owed(old(view)) && Full(old(view)) && !force)
    {
      owed := false;
      if done || !missed {
        return;
      }
      if |queue| < capacity {
        Receive(drain.before);
        Restore(state);
      } else if force {
        Receive(drain.before);
        Evict();
        Receive(drain.after);
        Restore(state);
      } else {
        owed := true;
      }
    }

    /** Hands a message over without ever waiting for room. */
    method Deliver(message: Message, s: Session)
      requires Valid()
      modifies this, s`subs, s`views, s`settles, s`timer, s`callbacks
      ensures Valid()
      ensures view == Delivered(old(view), message)
      ensures var spoken, room := !old(done) && !old(missed), |old(queue)| < capacity;
        && queue == (if spoken && room then old(queue) + [message] else old(queue))
        && missed == (old(missed) || (spoken && !room && resync))
        && done == (old(done) || (spoken && !room && !resync))
        && lagged == (old(lagged) || (spoken && !room && !resync))
        && (spoken && !room && !resync ==> !open && !retire)
      ensures s.subs == if Drops(old(view)) then old(s.subs) - {this} else old(s.subs)
      ensures s.views == if Drops(old(view)) then old(s.views) - {this} else old(s.views)
      ensures s.settles == old(s.settles) + if Drops(old(view)) && this in old(s.views) then 1 else 0
      ensures Retry(s.timer, s.callbacks) == Scheduled(old(Retry(s.timer, s.callbacks)), FallsBehind(old(view)) && !s.closed)
    {
      if done {
        return;
      }
      if missed {
        return;
      }
      if |queue| < capacity {
        Send(message);
        view := Delivered(view, message);
        return;
      }
      if !resync {
        lagged := true;
        done := true;
        retire := false;
        CloseChannel();
        view := CutOff(view);
        s.RetireViewerLocked(this);
        return;
      }
      missed := true;
      view := Delivered(view, message);
      s.ArmResyncRetryLocked();
    }
  }

  class Session {
    const tracker: TermState
    var term: Term
    var subs: set<Subscription>
    var views: map<Subscription, View>
    var viewSeq: nat
    var base: View
    var exited: bool
    var closed: bool
    var timer: bool            // resyncTimer is set
    var callbacks: nat         // timers that have not fired
    var settles: nat           // settling goroutines that have not run
    var busy: bool             // output since the last idle

    ghost var known: set<Subscription>   // every subscription ever made
    ghost var decided: seq<Activity.Report>
    ghost var state: State<Subscription>

    /** All that a delivery leaves alone. */
    ghost predicate CoreMatches()
      reads this
    {
      && state.term == term
      && state.geo.viewSeq == viewSeq && state.geo.base == base
      && state.exited == exited && state.closed == closed
    }

    /** All that a departure leaves alone. */
    ghost predicate ShellMatches()
      reads this
    {
      CoreMatches() && state.retry == Retry(timer, callbacks)
    }

    ghost predicate FieldsMatch()
      reads this
    {
      ShellMatches() && state.geo.views == views && state.geo.settles == settles
    }

    ghost predicate SubsMatch()
      reads this, known
    {
      && subs <= known && state.subs.Keys == known
      && forall k :: k in known ==>
           k.Valid() && state.subs[k] == k.view && (k in subs <==> k.view.life.attached)
    }

    ghost predicate Valid()
      reads this, known
    {
      FieldsMatch() && SubsMatch()
    }

    /** What the protocol keeps in every reachable state. */
    ghost predicate Safe()
      reads this
    {
      Inv(state) && GeoOk(state)
    }

    /** The tracker shadows the terminal. */
    ghost predicate Tracked()
      reads this, tracker
    {
      tracker.Abs() == term.modes
    }

    /** What the session has reported of its activity, and what decides it. */
    ghost function Desk(): Activity.Desk
      reads this
    {
      Activity.Desk(busy, exited, closed, decided)
    }

    /** The reports alternate and tell what the session is. */
    ghost predicate Telling()
      reads this
    {
      Activity.Telling(Desk())
    }

    constructor (cols: int, rows: int)
      ensures Valid() && Safe() && Tracked() && fresh(tracker) && known == {}
      ensures state == Init<Subscription>(cols, rows)
      ensures Telling() && Desk() == Activity.Opened()
    {
      tracker := new TermState();
      busy, decided := true, [];
      term := Fresh(cols, rows);
      subs, views, viewSeq, base := {}, map[], 0, View(cols, rows, 0);
      exited, closed, timer, callbacks, settles := false, false, false, 0, 0;
      known, state := {}, Init(cols, rows);
    }

    method RetireViewerLocked(sub: Subscription)
      modifies this`subs, this`views, this`settles, sub`view
      ensures subs == old(subs) - {sub}
      ensures views == old(views) - {sub}
      ensures settles == old(settles) + if sub in old(views) then 1 else 0
      ensures sub.view == Withdrawing(old(sub.view))
    {
      subs := subs - {sub};
      sub.view := Withdrawing(sub.view);
      if sub !in views {
        assert views - {sub} == views;
        return;
      }
      views := views - {sub};
      settles := settles + 1;
    }

    method ArmResyncRetryLocked()
      modifies this`timer, this`callbacks
      ensures Retry(timer, callbacks) == Scheduled(old(Retry(timer, callbacks)), !closed)
    {
      if closed || timer {
        return;
      }
      timer := true;
      callbacks := callbacks + 1;
    }

    /** One turn of the delivery loop, as it changes the session. */
    method DeliverTo(sub: Subscription, message: Message)
      requires Valid() && sub in subs
      modifies this`subs, this`views, this`settles, this`timer, this`callbacks, this`state, sub
      ensures Valid() && known == old(known)
      ensures subs == old(subs) || subs == old(subs) - {sub}
      ensures state == DeliveredTo(old(state), sub, message)
    {
      ghost var before := sub.view;
      sub.Deliver(message, this);
      AbsorbDelivery(sub, before, message);
    }

    ghost method AbsorbDelivery(sub: Subscription, before: Sub, message: Message)
      requires CoreMatches() && MatchesBut(sub) && sub in known && sub.Valid()
      requires state.subs[sub] == before && sub.view == Delivered(before, message)
      requires views == if Drops(before) then state.geo.views - {sub} else state.geo.views
      requires settles == state.geo.settles + if Drops(before) && sub in state.geo.views then 1 else 0
      requires Retry(timer, callbacks) == Scheduled(state.retry, FallsBehind(before) && !closed)
      requires sub in subs <==> sub.view.life.attached
      modifies this`state
      ensures Valid() && state == DeliveredTo(old(state), sub, message)
    {
      DeliveredCases(state, sub, message);
      if Drops(before) {
        AbsorbDeparture(sub);
      } else {
        state := state.(retry := Retry(timer, callbacks));
        Absorb(sub);
      }
    }

    method DeliverNext(sub: Subscription, ghost before: State<Subscription>, ghost order: seq<Subscription>,
                       ghost todo: set<Subscription>, message: Message)
      requires Valid() && sub in todo && todo <= subs
      requires Serving(before, state, order, todo, message)
      modifies this`subs, this`views, this`settles, this`timer, this`callbacks, this`state, sub
      ensures Valid() && known == old(known) && todo - {sub} <= subs
      ensures Serving(before, state, order + [sub], todo - {sub}, message)
    {
      ServingGoesOn(before, state, order, todo, sub, message);
      DeliverTo(sub, message);
    }

    /** The range loop over the listed subscriptions, in whatever order the map
        yields them; delivery may delist the one it is at. */
    method BroadcastLocked(message: Message)
      requires Valid()
      modifies this`subs, this`views, this`settles, this`timer, this`callbacks, this`state, subs
      ensures Valid() && known == old(known)
      ensures state == Broadcast(old(state), message)
    {
      ghost var before, order := state, [];
      var todo := subs;
      assert todo == Listed(before);
      ServingStarts(before, message);
      while todo != {}
        invariant Valid() && known == old(known) && todo <= subs && todo <= old(subs)
        invariant Serving(before, state, order, todo, message)
        decreases todo
      {
        var sub :| sub in todo;
        DeliverNext(sub, before, order, todo, message);
        order := order + [sub];
        todo := todo - {sub};
      }
      ServingEnds(before, state, order, message);
      Log(message);
    }

    ghost method Log(message: Message)
      requires Valid()
      modifies this`state
      ensures Valid() && known == old(known) && state == Logged(old(state), message)
    {
      state := Logged(state, message);
    }

    // ----- output -----------------------------------------------------------------

    /** Output means busy; the result says whether to report that it turned so. */
    method MarkBusy() returns (announce: bool)
      requires Valid() && Safe() && Tracked() && Telling()
      modifies this`busy, this`decided
      ensures Valid() && Safe() && Tracked()
      ensures Telling() && Desk() == Activity.Happened(old(Desk()), Activity.Output)
      ensures announce <==> decided != old(decided)
    {
      Activity.KeepsTelling(Desk(), Activity.Output);
      announce := !busy && !exited;
      busy := true;
      decided := if announce then decided + [Activity.Busy] else decided;
    }

    /** The `write` of the read loop. */
    method WriteChunk(chunk: seq<byte>) returns (announce: bool)
      requires Valid() && Safe() && Tracked() && Telling() && chunk != []
      requires !state.tape.draining && !state.tape.ended
      modifies this`term, this`subs, this`views, this`settles, this`timer, this`callbacks, this`state, this`busy, this`decided, tracker, subs
      ensures Valid() && Safe() && Tracked()
      ensures state == Written(old(state), chunk)
      ensures Telling() && Desk() == Activity.Happened(old(Desk()), Activity.Output)
      ensures announce <==> decided != old(decided)
    {
      announce := MarkBusy();
      ghost var desk := Desk();
      Emit(chunk);
      assert Desk() == desk;
    }

    /** Its last call: what an ended stream left unfinished. */
    method WriteRemnant(chunk: seq<byte>) returns (announce: bool)
      requires Valid() && Safe() && Tracked() && Telling() && chunk != []
      requires !state.tape.draining && !state.tape.ended
      modifies this`term, this`subs, this`views, this`settles, this`timer, this`callbacks, this`state, this`busy, this`decided, tracker, subs
      ensures Valid() && Safe() && Tracked()
      ensures state == Draining(Written(old(state), chunk))
      ensures Telling() && Desk() == Activity.Happened(old(Desk()), Activity.Output)
      ensures announce <==> decided != old(decided)
    {
      announce := MarkBusy();
      ghost var desk := Desk();
      EmitRemnant(chunk);
      assert Desk() == desk;
    }

    method Emit(chunk: seq<byte>)
      requires Valid() && Safe() && Tracked() && chunk != []
      requires !state.tape.draining && !state.tape.ended
      modifies this`term, this`subs, this`views, this`settles, this`timer, this`callbacks, this`state, tracker, subs
      ensures Valid() && Safe() && Tracked()
      ensures state == Written(old(state), chunk)
    {
      FeedAndBroadcast(chunk);
      StepSafe(old(state), Write(chunk), state);
    }

    method EmitRemnant(chunk: seq<byte>)
      requires Valid() && Safe() && Tracked() && chunk != []
      requires !state.tape.draining && !state.tape.ended
      modifies this`term, this`subs, this`views, this`settles, this`timer, this`callbacks, this`state, tracker, subs
      ensures Valid() && Safe() && Tracked()
      ensures state == Draining(Written(old(state), chunk))
    {
      FeedAndBroadcast(chunk);
      MarkDraining();
      StepSafe(old(state), FlushRemnant(chunk), state);
    }

    ghost method MarkDraining()
      requires Valid()
      modifies this`state
      ensures Valid() && state == Draining(old(state))
    {
      state := Draining(state);
    }

    method FeedAndBroadcast(chunk: seq<byte>)
      requires Valid() && Tracked()
      modifies this`term, this`subs, this`views, this`settles, this`timer, this`callbacks, this`state, tracker, subs
      ensures Valid() && Tracked()
      ensures state == Written(old(state), chunk)
    {
      Feed(chunk);
      BroadcastLocked(Output(chunk));
    }

    /** The tracker and the emulator take the chunk. */
    method Feed(chunk: seq<byte>)
      requires Valid() && Tracked()
      modifies this`term, this`state, tracker
      ensures Valid() && Tracked()
      ensures state == Recorded(old(state).(term := Printed(old(state).term, chunk)), chunk)
    {
      tracker.Observe(chunk);
      term := Fed(term, chunk).(modes := tracker.Abs());
      state := Recorded(state.(term := term), chunk);
    }

    /** The idle timer fires; the result says whether to report it. */
    method GoIdle() returns (announce: bool)
      requires Telling()
      modifies this`busy, this`decided
      ensures Telling() && Desk() == Activity.Happened(old(Desk()), Activity.Quiet)
      ensures announce <==> decided != old(decided)
    {
      Activity.KeepsTelling(Desk(), Activity.Quiet);
      announce := !closed && !exited && busy;
      if announce {
        busy, decided := false, decided + [Activity.Idle];
      }
    }

    // ----- size -------------------------------------------------------------------

    /** The loop over the stated views, in whatever order the map yields them:
        the greatest stamp wins. */
    method EffectiveLocked() returns (cols: int, rows: int)
      requires Valid() && GeoOk(state)
      ensures cols == Effective(state).cols && rows == Effective(state).rows
    {
      ghost var best := base;
      cols, rows := base.cols, base.rows;
      var newest := base.stamp;
      var todo := views.Keys;
      while todo != {}
        invariant todo <= views.Keys
        invariant best == base || best in views.Values
        invariant best == View(cols, rows, newest) && base.stamp <= newest
        invariant forall k :: k in views && k !in todo ==> views[k].stamp <= newest
        decreases todo
      {
        var k :| k in todo;
        if views[k].stamp > newest {
          best := views[k];
          cols, rows, newest := views[k].cols, views[k].rows, views[k].stamp;
        }
        todo := todo - {k};
      }
      NewestIsLastStanding(state, best);
    }

    /** `accepted` says whether the PTY takes the size; a refusal is an error. */
    method ApplySizeLocked(cols: int, rows: int, accepted: bool) returns (ok: bool)
      requires Valid() && Tracked() && cols == Effective(state).cols && rows == Effective(state).rows
      modifies this`term, this`subs, this`views, this`viewSeq, this`base, this`settles, this`timer, this`callbacks, this`state, tracker, subs
      ensures Valid() && Tracked() && known == old(known)
      ensures state == Sized(old(state), accepted)
      ensures ok == (accepted || Fitted(old(state)))
    {
      if cols == term.cols && rows == term.rows {
        return true;
      }
      if !accepted {
        return false;
      }
      tracker.Resize();
      term := Moved(term, cols, rows);
      state := state.(term := term);
      BroadcastLocked(Repaint(Taken(term)));
      return true;
    }

    method FollowStatements(accepted: bool) returns (ok: bool)
      requires Valid() && Tracked() && GeoOk(state)
      modifies this`term, this`subs, this`views, this`viewSeq, this`base, this`settles, this`timer, this`callbacks, this`state, tracker, subs
      ensures Valid() && Tracked() && known == old(known)
      ensures state == Sized(old(state), accepted)
      ensures ok == (accepted || Fitted(old(state)))
    {
      var cols, rows := EffectiveLocked();
      ok := ApplySizeLocked(cols, rows, accepted);
    }

    method StateBase(cols: int, rows: int)
      requires Valid()
      modifies this`viewSeq, this`base, this`state
      ensures Valid() && known == old(known) && subs == old(subs)
      ensures state == BaseStated(old(state), cols, rows)
    {
      viewSeq := viewSeq + 1;
      base := View(cols, rows, viewSeq);
      state := BaseStated(state, cols, rows);
    }

    /** The base's statement is made, then applied if it is the newest. Too small
        a size, or one the PTY refuses, is an error. */
    method Resize(cols: int, rows: int, accepted: bool) returns (ok: bool)
      requires Valid() && Safe() && Tracked()
      modifies this`term, this`subs, this`views, this`viewSeq, this`base, this`settles, this`timer, this`callbacks, this`state, tracker, subs
      ensures Valid() && Safe() && Tracked() && known == old(known)
      ensures state == BaseSized(old(state), cols, rows, accepted)
      ensures cols >= 2 && rows >= 2 ==> viewSeq == old(viewSeq) + 1 && base == View(cols, rows, viewSeq)
      ensures cols >= 2 && rows >= 2 && accepted ==> term.cols == cols && term.rows == rows
      ensures !accepted || cols < 2 || rows < 2 ==> term == old(term) && views == old(views) && subs == old(subs)
      ensures cols < 2 || rows < 2 ==> base == old(base) && viewSeq == old(viewSeq)
      ensures ok == (IsSize(cols, rows) && (accepted || Fitted(BaseStated(old(state), cols, rows))))
    {
      if cols < 2 || rows < 2 {
        return false;
      }
      BaseStatedGeo(state, cols, rows);
      StateBase(cols, rows);
      ok := FollowStatements(accepted);
      StepSafe(old(state), SetBase(cols, rows, accepted), state);
      Effects.BaseGetsItsSize(old(state), cols, rows, accepted, state);
    }

    method StateView(sub: Subscription, cols: int, rows: int)
      requires Valid()
      modifies this`viewSeq, this`views, this`state
      ensures Valid() && known == old(known) && subs == old(subs)
      ensures state == ViewStated(old(state), sub, cols, rows)
    {
      viewSeq := viewSeq + 1;
      views := views[sub := View(cols, rows, viewSeq)];
      state := ViewStated(state, sub, cols, rows);
    }

    /** A statement from an attachment that has ended is dropped without complaint. */
    method ResizeViewer(sub: Subscription, cols: int, rows: int, accepted: bool) returns (ok: bool)
      requires Valid() && Safe() && Tracked()
      modifies this`term, this`subs, this`views, this`viewSeq, this`base, this`settles, this`timer, this`callbacks, this`state, tracker, subs
      ensures Valid() && Safe() && Tracked() && known == old(known)
      ensures state == ViewSized(old(state), sub, cols, rows, accepted)
      ensures var heard := cols >= 2 && rows >= 2 && sub in old(subs);
        && (heard ==> viewSeq == old(viewSeq) + 1)
        && (heard && sub in subs ==> sub in views && views[sub] == View(cols, rows, viewSeq) && NewerThanAll(sub))
        && (heard && sub !in subs ==> sub !in views)
        && (heard && accepted ==> term.cols == cols && term.rows == rows)
        && (!heard || !accepted ==> term == old(term) && subs == old(subs))
        && (!heard ==> views == old(views) && viewSeq == old(viewSeq) && base == old(base))
      ensures ok == (IsSize(cols, rows) && (sub !in old(subs) || accepted || Fitted(ViewStated(old(state), sub, cols, rows))))
    {
      if cols < 2 || rows < 2 {
        return false;
      }
      if sub !in subs {
        return true;
      }
      ok := MoveFor(sub, cols, rows, accepted);
    }

    method MoveFor(sub: Subscription, cols: int, rows: int, accepted: bool) returns (ok: bool)
      requires Valid() && Safe() && Tracked() && cols >= 2 && rows >= 2 && sub in subs
      modifies this`term, this`subs, this`views, this`viewSeq, this`base, this`settles, this`timer, this`callbacks, this`state, tracker, subs
      ensures Valid() && Safe() && Tracked() && known == old(known)
      ensures state == ViewSized(old(state), sub, cols, rows, accepted)
      ensures ok == (accepted || Fitted(ViewStated(old(state), sub, cols, rows)))
      ensures sub in state.subs && state.geo.viewSeq == old(state).geo.viewSeq + 1
      ensures if state.subs[sub].life.attached then Effects.StatedLast(state.geo, Some(sub), cols, rows) else sub !in state.geo.views
      ensures if accepted then state.term.cols == cols && state.term.rows == rows
              else state.term == old(state).term && state.subs == old(state).subs
    {
      ok := StepView(sub, cols, rows, accepted);
      Effects.ListedViewerGetsItsSize(old(state), sub, cols, rows, accepted, state);
    }

    method StepView(sub: Subscription, cols: int, rows: int, accepted: bool) returns (ok: bool)
      requires Valid() && Safe() && Tracked() && cols >= 2 && rows >= 2 && sub in subs
      modifies this`term, this`subs, this`views, this`viewSeq, this`base, this`settles, this`timer, this`callbacks, this`state, tracker, subs
      ensures Valid() && Safe() && Tracked() && known == old(known)
      ensures Steps(old(state), SetView(sub, cols, rows, accepted), state)
      ensures ok == (accepted || Fitted(ViewStated(old(state), sub, cols, rows)))
    {
      ok := FollowView(sub, cols, rows, accepted);
      StepSafe(old(state), SetView(sub, cols, rows, accepted), state);
    }

    /** Its statement carries the greatest stamp. */
    ghost predicate NewerThanAll(sub: Subscription)
      reads this
    {
      && sub in views && base.stamp < views[sub].stamp
      && forall other :: other in views && other != sub ==> views[other].stamp < views[sub].stamp
    }

    method FollowView(sub: Subscription, cols: int, rows: int, accepted: bool) returns (ok: bool)
      requires Valid() && Safe() && Tracked() && sub in subs
      modifies this`term, this`subs, this`views, this`viewSeq, this`base, this`settles, this`timer, this`callbacks, this`state, tracker, subs
      ensures Valid() && Tracked() && known == old(known)
      ensures state == Sized(ViewStated(old(state), sub, cols, rows), accepted)
      ensures ok == (accepted || Fitted(ViewStated(old(state), sub, cols, rows)))
    {
      StatesViewGeo(state, sub, cols, rows);
      StateView(sub, cols, rows);
      ok := FollowStatements(accepted);
    }

    /** A settling goroutine runs. */
    method SettleSize(accepted: bool)
      requires Valid() && Safe() && Tracked() && settles > 0
      modifies this`term, this`subs, this`views, this`viewSeq, this`base, this`settles, this`timer, this`callbacks, this`state, tracker, subs
      ensures Valid() && Safe() && Tracked() && known == old(known)
      ensures state == Settled(old(state), accepted)
    {
      Wake();
      if !closed && !exited {
        var _ := FollowStatements(accepted);
      }
      StepSafe(old(state), Settle(accepted), state);
    }

    method Wake()
      requires Valid() && GeoOk(state) && settles > 0
      modifies this`settles, this`state
      ensures Valid() && GeoOk(state) && state == Woken(old(state))
    {
      settles := settles - 1;
      UntouchedGeo(state, Woken(state));
      state := Woken(state);
    }

    // ----- resyncs ------------------------------------------------------------------

    ghost predicate MatchesBut(sub: Subscription)
      reads this, known
    {
      && subs <= known && state.subs.Keys == known
      && forall k :: k in known && k != sub ==>
           k.Valid() && state.subs[k] == k.view && (k in subs <==> k.view.life.attached)
    }

    /** One subscription has moved and nothing else has. */
    ghost method Absorb(sub: Subscription)
      requires FieldsMatch() && MatchesBut(sub) && sub in known
      requires sub.Valid() && (sub in subs <==> sub.view.life.attached)
      modifies this`state
      ensures Valid() && state == WithSub(old(state), sub, sub.view)
    {
      state := WithSub(state, sub, sub.view);
    }

    method FlushTo(sub: Subscription, shared: Snapshot, force: bool, drain: Drain) returns (owed: bool)
      requires Valid() && sub in subs
      modifies this`state, sub
      ensures Valid()
      ensures owed == StillOwed(old(sub.view), force)
      ensures state == WithSub(old(state), sub, Flushed(old(sub.view), shared, force, drain))
    {
      FlushedRetiresNobody(sub.view, shared, force, drain);
      AttachedSurvivesFlush(sub.view, shared, force, drain);
      owed := sub.Flush(shared, force, drain);
      Absorb(sub);
    }

    method FlushNext(sub: Subscription, ghost before: State<Subscription>, ghost todo: set<Subscription>, owed: bool,
                     shared: Snapshot, force: bool, drains: map<Subscription, Drain>) returns (next: bool)
      requires Valid() && sub in todo && todo <= subs && shared == Taken(term)
      requires Flushing(before, state, todo, owed, force, drains)
      modifies this`state, sub
      ensures Valid()
      ensures Flushing(before, state, todo - {sub}, next, force, drains)
    {
      FlushingGoesOn(before, state, todo, owed, force, drains, sub);
      next := FlushTo(sub, shared, force, DrainOf(drains, sub));
      next := owed || next;
    }

    method RearmIf(owed: bool)
      requires Valid()
      modifies this`state, this`timer, this`callbacks
      ensures Valid() && state == Armed(old(state), owed)
    {
      if owed {
        ArmResyncRetryLocked();
      }
      state := Armed(state, owed);
    }

    /** `drains` says what each consumer receives while its queue is served. */
    method FlushResyncsLocked(force: bool, drains: map<Subscription, Drain>)
      requires Valid()
      modifies this`state, this`timer, this`callbacks, subs
      ensures Valid()
      ensures state == FlushedAll(old(state), force, drains)
    {
      ghost var before := state;
      var shared := Taken(term);
      var owed, todo := false, subs;
      assert todo == Listed(before);
      FlushingStarts(before, force, drains);
      while todo != {}
        invariant Valid() && todo <= subs && shared == Taken(term)
        invariant timer == old(timer) && callbacks == old(callbacks)
        invariant Flushing(before, state, todo, owed, force, drains)
        decreases todo
      {
        var sub :| sub in todo;
        owed := FlushNext(sub, before, todo, owed, shared, force, drains);
        todo := todo - {sub};
      }
      FlushingEnds(before, state, owed, force, drains);
      RearmIf(owed);
    }

    /** The retry timer fires. */
    method RetryFires(drains: map<Subscription, Drain>)
      requires Valid() && Safe() && callbacks > 0
      modifies this`state, this`timer, this`callbacks, subs
      ensures Valid() && Safe()
      ensures state == Retried(old(state), drains)
    {
      Fire();
      if !closed {
        FlushResyncsLocked(false, drains);
      }
      StepSafe(old(state), Label.RetryFires(drains), state);
    }

    method Fire()
      requires Valid() && callbacks > 0
      modifies this`state, this`timer, this`callbacks
      ensures Valid() && state == Fired(old(state))
    {
      timer, callbacks := false, callbacks - 1;
      state := Fired(state);
    }

    // ----- attaching and leaving --------------------------------------------------------

    /** The session takes up a new subscription. */
    method Enlist(sub: Subscription)
      requires Valid() && sub !in known && sub.Valid()
      modifies this`subs, this`known, this`state, sub`retire, sub`view
      ensures Valid() && known == old(known) + {sub} && subs == old(subs) + {sub}
      ensures state == WithSub(old(state), sub, Enlisted(old(sub.view)))
    {
      subs := subs + {sub};
      sub.retire := true;
      sub.view := Enlisted(sub.view);
      known := known + {sub};
      Note(sub);
    }

    ghost method Note(sub: Subscription)
      requires FieldsMatch() && sub in known && known == state.subs.Keys + {sub} && subs <= known
      requires forall k :: k in known ==> k.Valid() && (k in subs <==> k.view.life.attached)
      requires forall k :: k in known && k != sub ==> state.subs[k] == k.view
      modifies this`state
      ensures Valid() && state == WithSub(old(state), sub, sub.view)
    {
      state := WithSub(state, sub, sub.view);
    }

    method SnapshotFor(sub: Subscription) returns (snapshot: Snapshot)
      requires Valid() && sub in known
      modifies this`state, sub`view
      ensures Valid() && snapshot == Taken(term)
      ensures state == Seeded(old(state), sub) && state.subs[sub].seed == snapshot
    {
      snapshot := Taken(term);
      sub.view := sub.view.(seed := snapshot);
      Absorb(sub);
    }

    /** The stream is over: a finished subscription, which is never listed. */
    method AttachSpent(buffer: int, resync: bool) returns (snapshot: Snapshot, sub: Subscription)
      requires Valid()
      modifies this`known, this`state
      ensures Valid() && fresh(sub) && known == old(known) + {sub}
      ensures snapshot == Taken(term)
      ensures state == WithSub(old(state), sub, SpentSub(buffer, resync, snapshot, |old(state).tape.log|))
    {
      snapshot := Taken(term);
      sub := new Subscription(buffer, resync, snapshot, |state.tape.log|);
      sub.Finish();
      known := known + {sub};
      Note(sub);
    }

    method AttachListed(buffer: int, resync: bool) returns (snapshot: Snapshot, sub: Subscription)
      requires Valid()
      modifies this`subs, this`known, this`state
      ensures Valid() && fresh(sub) && known == old(known) + {sub} && subs == old(subs) + {sub}
      ensures snapshot == Taken(term)
      ensures state == WithSub(old(state), sub, NewSub(buffer, resync, snapshot, |old(state).tape.log|))
    {
      snapshot := Taken(term);
      sub := new Subscription(buffer, resync, snapshot, |state.tape.log|);
      assert sub !in known;
      Enlist(sub);
    }

    method AttachWith(buffer: int, resync: bool, cols: int, rows: int, accepted: bool)
      returns (snapshot: Snapshot, sub: Subscription)
      requires Valid() && Safe() && Tracked()
      modifies this`term, this`subs, this`views, this`viewSeq, this`base, this`settles, this`timer, this`callbacks, this`state, this`known, tracker, subs
      ensures Valid() && Safe() && Tracked() && fresh(sub) && known == old(known) + {sub}
      ensures state == Attached(old(state), sub, buffer, resync, cols, rows, accepted)
      ensures snapshot == Snapshot(term.cols, term.rows, term.screen, term.modes)
      ensures sub.capacity == (if buffer <= 0 then 64 else buffer) && sub.resync == resync
      ensures old(exited) || old(closed) ==>
        && sub.done && !sub.open && sub.queue == [] && sub !in subs && subs == old(subs)
        && views == old(views) && viewSeq == old(viewSeq) && term == old(term)
      ensures !old(exited) && !old(closed) ==>
        var stated := cols >= 2 && rows >= 2;
        && !sub.done && sub.open && !sub.missed && sub in subs
        && (stated ==> viewSeq == old(viewSeq) + 1 && sub in views && views[sub] == View(cols, rows, viewSeq) && NewerThanAll(sub))
        && (stated && accepted ==> term.cols == cols && term.rows == rows)
        && (!stated ==> sub !in views && views == old(views) && viewSeq == old(viewSeq))
        && (!stated || !accepted ==> term == old(term))
    {
      snapshot, sub := Join(buffer, resync, cols, rows, accepted);
      Effects.AttachGivesAPlace(old(state), Attach(sub, buffer, resync, cols, rows, accepted), state);
    }

    method Join(buffer: int, resync: bool, cols: int, rows: int, accepted: bool)
      returns (snapshot: Snapshot, sub: Subscription)
      requires Valid() && Safe() && Tracked()
      modifies this`term, this`subs, this`views, this`viewSeq, this`base, this`settles, this`timer, this`callbacks, this`state, this`known, tracker, subs
      ensures Valid() && Safe() && Tracked() && fresh(sub) && known == old(known) + {sub}
      ensures Steps(old(state), Attach(sub, buffer, resync, cols, rows, accepted), state)
      ensures snapshot == state.subs[sub].seed && (old(exited) || old(closed) ==> subs == old(subs))
    {
      if exited || closed {
        snapshot, sub := AttachSpent(buffer, resync);
      } else {
        snapshot, sub := AttachListed(buffer, resync);
        if cols >= 2 && rows >= 2 {
          NewcomerKeeps(old(state), sub, buffer, resync);
          snapshot := Introduce(sub, cols, rows, accepted);
        }
      }
      StepSafe(old(state), Attach(sub, buffer, resync, cols, rows, accepted), state);
    }

    method Introduce(sub: Subscription, cols: int, rows: int, accepted: bool) returns (snapshot: Snapshot)
      requires Valid() && Safe() && Tracked() && sub in subs
      modifies this`term, this`subs, this`views, this`viewSeq, this`base, this`settles, this`timer, this`callbacks, this`state, tracker, subs
      ensures Valid() && Tracked() && known == old(known)
      ensures state == Introduced(old(state), sub, cols, rows, accepted)
      ensures snapshot == state.subs[sub].seed
    {
      var _ := FollowView(sub, cols, rows, accepted);
      snapshot := SnapshotFor(sub);
    }

    /** A consumer receives one message, without any lock. */
    method ReceiveFrom(sub: Subscription)
      requires Valid() && Safe() && sub in known && sub.queue != []
      modifies this`state, sub
      ensures Valid() && Safe()
      ensures state == WithSub(old(state), sub, Drained(old(sub.view), 1))
    {
      sub.Receive(1);
      Absorb(sub);
      StepSafe(old(state), Receive(sub), state);
    }

    /** The first half of closing a subscription, under its own lock. */
    method CloseSubscription(sub: Subscription) returns (owing: bool)
      requires Valid() && Safe() && sub in known
      modifies this`state, sub
      ensures Valid() && Safe() && owing == old(sub.view.token.retire)
      ensures state == WithSub(old(state), sub, Shut(old(sub.view)))
    {
      owing := sub.Close();
      Absorb(sub);
      StepSafe(old(state), CloseSub(sub), state);
    }

    /** The second half: the retirement it took, under the session's lock. */
    method RetireViewer(sub: Subscription)
      requires Valid() && Safe() && sub in known && sub.view.token.retiring
      modifies this`subs, this`views, this`settles, this`state, sub`view
      ensures Valid() && Safe()
      ensures state == Withdrawn(old(state), sub)
    {
      Withdraw(sub);
      StepSafe(old(state), RetireSub(sub), state);
    }

    method Withdraw(sub: Subscription)
      requires Valid() && sub in known
      modifies this`subs, this`views, this`settles, this`state, sub`view
      ensures Valid()
      ensures state == Withdrawn(old(state), sub)
    {
      RetireViewerLocked(sub);
      sub.view := sub.view.(token := sub.view.token.(retiring := false));
      AbsorbDeparture(sub);
    }

    /** One subscription has moved and taken its statement with it. */
    ghost method AbsorbDeparture(sub: Subscription)
      requires ShellMatches() && MatchesBut(sub) && sub in known
      requires views == state.geo.views - {sub} && settles == state.geo.settles + if sub in state.geo.views then 1 else 0
      requires sub.Valid() && (sub in subs <==> sub.view.life.attached)
      modifies this`state
      ensures Valid() && state == WithSub(old(state).(geo := WithoutOne(old(state).geo, sub)), sub, sub.view)
    {
      state := state.(geo := WithoutOne(state.geo, sub));
      Absorb(sub);
    }

    // ----- endings ---------------------------------------------------------------------

    method FinishNext(sub: Subscription, ghost before: State<Subscription>, ghost todo: set<Subscription>)
      requires Valid() && sub in todo && todo <= subs
      requires Finishing(before, state, todo)
      modifies this`state, sub
      ensures Valid()
      ensures Finishing(before, state, todo - {sub})
    {
      FinishingGoesOn(before, state, todo, sub);
      sub.Finish();
      Absorb(sub);
    }

    method FinishAll()
      requires Valid()
      modifies this`state, subs
      ensures Valid() && Finishing(old(state), state, {})
    {
      ghost var before := state;
      var todo := subs;
      assert todo == Listed(before);
      FinishingStarts(before);
      while todo != {}
        invariant Valid() && todo <= subs
        invariant Finishing(before, state, todo)
        decreases todo
      {
        var sub :| sub in todo;
        FinishNext(sub, before, todo);
        todo := todo - {sub};
      }
    }

    ghost predicate SubsAre(subviews: map<Subscription, Sub>)
      reads this, known
    {
      && subs <= known && subviews.Keys == known
      && forall k :: k in known ==> k.Valid() && subviews[k] == k.view && (k in subs <==> k.view.life.attached)
    }

    /** Nobody is listed any more. */
    ghost method DelistAll(orphaned: bool)
      requires Valid()
      modifies subs`view
      ensures forall k :: k in known ==> k.Valid() && !k.view.life.attached
      ensures forall k :: k in known ==> k.view == WhenDelisted(state.subs[k], orphaned)
    {
      forall sub | sub in subs {
        sub.view := WhenDelisted(sub.view, orphaned);
      }
    }

    method ClearSubs()
      requires Valid()
      modifies this`subs, this`state, subs`view
      ensures Valid() && subs == {}
      ensures state == Emptied(old(state))
    {
      DelistAll(false);
      subs := {};
      assert SubsAre(Emptied(state).subs);
      state := Emptied(state);
    }

    /** The last call of the read loop. */
    method EndStream(drains: map<Subscription, Drain>)
      requires Valid() && Safe() && !state.tape.ended
      modifies this`subs, this`state, this`timer, this`callbacks, subs
      ensures Valid() && Safe() && subs == {}
      ensures state == StreamEnded(old(state), drains)
    {
      FlushResyncsLocked(true, drains);
      ghost var flushed := state;
      FinishAll();
      FinishingEnds(flushed, state, old(state), drains);
      ClearSubs();
      StepSafe(old(state), Label.EndStream(drains), state);
    }

    method TakeSubs() returns (taken: set<Subscription>)
      requires Valid()
      modifies this`subs, this`state, subs`view
      ensures Valid() && taken == old(subs) && subs == {}
      ensures state == Orphaning(old(state))
    {
      DelistAll(true);
      taken, subs := subs, {};
      assert SubsAre(Orphaning(state).subs);
      state := Orphaning(state);
    }

    method StopRetry(stopped: bool)
      requires Valid()
      modifies this`closed, this`timer, this`callbacks, this`state
      ensures Valid()
      ensures state == old(state).(closed := true, retry := RetryDropped(old(state).retry, stopped))
    {
      closed := true;
      if timer && stopped && callbacks > 0 {
        callbacks := callbacks - 1;
      }
      timer := false;
      state := state.(closed := true, retry := RetryDropped(state.retry, stopped));
    }

    /** The locked part of closing the session. The subscriptions it returns are
        finished afterwards, one by one; `stopped` says whether stopping a held
        retry came in time. */
    method Close(drains: map<Subscription, Drain>, stopped: bool) returns (orphans: set<Subscription>)
      requires Valid() && Safe()
      modifies this`subs, this`state, this`closed, this`timer, this`callbacks, subs
      ensures Valid() && Safe() && closed && (!old(closed) ==> subs == {})
      ensures orphans == if old(closed) then {} else old(subs)
      ensures state == SessionClosed(old(state), drains, stopped)
      ensures Desk() == Activity.Happened(old(Desk()), Activity.Close)
    {
      if closed {
        return {};
      }
      FlushResyncsLocked(true, drains);
      StopRetry(stopped);
      orphans := TakeSubs();
      StepSafe(old(state), CloseSession(drains, stopped), state);
    }

    method FinishOrphan(sub: Subscription)
      requires Valid() && Safe() && sub in known && sub.view.life.orphan
      modifies this`state, sub
      ensures Valid() && Safe()
      ensures state == WithSub(old(state), sub, Claimed(Finished(old(sub.view))))
    {
      sub.Finish();
      sub.view := Claimed(sub.view);
      Absorb(sub);
      StepSafe(old(state), Label.FinishOrphan(sub), state);
    }

    method Exit()
      requires Valid() && Safe()
      modifies this`exited, this`state
      ensures Valid() && Safe() && state == old(state).(exited := true)
      ensures Desk() == Activity.Happened(old(Desk()), Activity.Exit)
    {
      exited := true;
      state := state.(exited := true);
      StepSafe(old(state), Label.Exit, state);
    }
  }
}
