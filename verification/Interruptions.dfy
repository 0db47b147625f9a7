/** What goes on beside a broadcast: consumers receive and subscriptions close
    without the session's lock, between one delivery of the loop and the next.
    Each such step might as well have come before the broadcast, or after it. */
module Interruptions {
  import opened Terminal
  import opened Protocol
  import opened Ordering

  /** A step a subscription takes by itself: it is closed, or its consumer receives. */
  datatype Touch<!K> = Touch(sub: K, closes: bool)

  /** A turn of the loop, or such a step. */
  datatype Turn<!K> = Serve(sub: K) | Meanwhile(touch: Touch<K>)

  function TouchedSub(sub: Sub, closes: bool): Sub {
    if closes then Shut(sub) else Drained(sub, 1)
  }

  function Touched<K(==)>(s: State<K>, t: Touch<K>): State<K>
    requires t.sub in s.subs
  {
    WithSub(s, t.sub, TouchedSub(s.subs[t.sub], t.closes))
  }

  predicate Knows<K(==)>(s: State<K>, touches: seq<Touch<K>>) {
    forall i :: 0 <= i < |touches| ==> touches[i].sub in s.subs
  }

  function AllTouched<K(==)>(s: State<K>, touches: seq<Touch<K>>): (next: State<K>)
    requires Knows(s, touches)
    ensures next.subs.Keys == s.subs.Keys
  {
    if touches == [] then s
    else Touched(AllTouched(s, touches[..|touches| - 1]), touches[|touches| - 1])
  }

  function SubOf<K>(turn: Turn<K>): K {
    if turn.Serve? then turn.sub else turn.touch.sub
  }

  lemma TouchedMore<K>(s: State<K>, touches: seq<Touch<K>>, t: Touch<K>)
    requires Knows(s, touches) && t.sub in s.subs
    ensures Knows(s, touches + [t]) && AllTouched(s, touches + [t]) == Touched(AllTouched(s, touches), t)
  {
    assert (touches + [t])[..|touches|] == touches;
  }

  predicate Runs<K(==)>(s: State<K>, turns: seq<Turn<K>>) {
    forall i :: 0 <= i < |turns| ==> SubOf(turns[i]) in s.subs
  }

  /** The loop and the steps beside it, as they happen to fall. */
  function Interleaved<K(==)>(s: State<K>, turns: seq<Turn<K>>, m: Message): (next: State<K>)
    requires Runs(s, turns)
    ensures next.subs.Keys == s.subs.Keys
  {
    if turns == [] then s
    else
      var before := Interleaved(s, turns[..|turns| - 1], m);
      match turns[|turns| - 1]
      case Serve(k) => DeliveredTo(before, k, m)
      case Meanwhile(t) => Touched(before, t)
  }

  function ServedIn<K(==)>(turns: seq<Turn<K>>): seq<K> {
    if turns == [] then []
    else
      var served := ServedIn(turns[..|turns| - 1]);
      if turns[|turns| - 1].Serve? then served + [turns[|turns| - 1].sub] else served
  }

  /** The steps of subscriptions not served yet, and of those served already. */
  function Early<K(==)>(turns: seq<Turn<K>>): seq<Touch<K>> {
    if turns == [] then []
    else
      var early, last := Early(turns[..|turns| - 1]), turns[|turns| - 1];
      if last.Meanwhile? && last.touch.sub !in ServedIn(turns[..|turns| - 1]) then early + [last.touch] else early
  }

  function Late<K(==)>(turns: seq<Turn<K>>): seq<Touch<K>> {
    if turns == [] then []
    else
      var late, last := Late(turns[..|turns| - 1]), turns[|turns| - 1];
      if last.Meanwhile? && last.touch.sub in ServedIn(turns[..|turns| - 1]) then late + [last.touch] else late
  }

  /** Each such step is one of the protocol's own. */
  lemma TouchIsAStep<K>(s: State<K>, t: Touch<K>)
    requires t.sub in s.subs
    ensures t.closes ==> Steps(s, CloseSub(t.sub), Touched(s, t))
    ensures !t.closes && s.subs[t.sub].chan.queue != [] ==> Steps(s, Receive(t.sub), Touched(s, t))
    ensures !t.closes && s.subs[t.sub].chan.queue == [] ==> Touched(s, t) == s
  {
    if !t.closes && s.subs[t.sub].chan.queue == [] {
      NothingToReceive(s.subs[t.sub]);
      assert s.subs[t.sub := s.subs[t.sub]] == s.subs;
    }
  }

  lemma NothingToReceive(sub: Sub)
    requires sub.chan.queue == []
    ensures Drained(sub, 1) == sub
  {
    assert sub.chan.taken + sub.chan.queue[..0] == sub.chan.taken && sub.chan.queue[0..] == sub.chan.queue;
  }

  lemma {:induction false} TurnsAddUp<K>(turns: seq<Turn<K>>)
    ensures |turns| == |ServedIn(turns)| + |Early(turns)| + |Late(turns)|
  {
    if turns != [] {
      TurnsAddUp(turns[..|turns| - 1]);
    }
  }

  lemma {:induction false} ServeIsServed<K>(turns: seq<Turn<K>>, i: nat)
    requires i < |turns| && turns[i].Serve?
    ensures turns[i].sub in ServedIn(turns)
  {
    var shorter := turns[..|turns| - 1];
    MoreHolds(ServedIn(shorter), SubOf(turns[|turns| - 1]));
    if i < |shorter| {
      ServeIsServed(shorter, i);
    }
  }

  lemma {:induction false} TouchIsKept<K>(turns: seq<Turn<K>>, i: nat)
    requires i < |turns| && turns[i].Meanwhile?
    ensures turns[i].touch in Early(turns) || turns[i].touch in Late(turns)
  {
    var shorter, last := turns[..|turns| - 1], turns[|turns| - 1];
    if last.Meanwhile? {
      MoreHolds(Early(shorter), last.touch);
      MoreHolds(Late(shorter), last.touch);
    }
    if i < |shorter| {
      TouchIsKept(shorter, i);
    }
  }

  /** Every turn is accounted for. */
  lemma EveryTurnCounts<K>(turns: seq<Turn<K>>)
    ensures |turns| == |ServedIn(turns)| + |Early(turns)| + |Late(turns)|
    ensures forall i :: 0 <= i < |turns| && turns[i].Serve? ==> turns[i].sub in ServedIn(turns)
    ensures forall i :: 0 <= i < |turns| && turns[i].Meanwhile? ==> turns[i].touch in Early(turns) || turns[i].touch in Late(turns)
  {
    TurnsAddUp(turns);
    forall i | 0 <= i < |turns|
      ensures turns[i].Serve? ==> turns[i].sub in ServedIn(turns)
      ensures turns[i].Meanwhile? ==> turns[i].touch in Early(turns) || turns[i].touch in Late(turns)
    {
      if turns[i].Serve? {
        ServeIsServed(turns, i);
      } else {
        TouchIsKept(turns, i);
      }
    }
  }

  lemma MoreHolds<T>(s: seq<T>, last: T)
    ensures |s + [last]| == |s| + 1 && last in s + [last]
    ensures forall x :: x in s ==> x in s + [last]
  {
    assert (s + [last])[|s|] == last;
  }

  // ----- what passes what -------------------------------------------------------------------

  lemma TouchPastDelivery<K>(s: State<K>, t: Touch<K>, k: K, m: Message)
    requires t.sub in s.subs && k in s.subs && t.sub != k
    ensures DeliveredTo(Touched(s, t), k, m) == Touched(DeliveredTo(s, k, m), t)
  {
    var a, b := TouchedSub(s.subs[t.sub], t.closes), Delivered(s.subs[k], m);
    assert s.subs[t.sub := a][k := b] == s.subs[k := b][t.sub := a];
  }

  lemma TouchPastTouch<K>(s: State<K>, t: Touch<K>, u: Touch<K>)
    requires t.sub in s.subs && u.sub in s.subs && t.sub != u.sub
    ensures Touched(Touched(s, t), u) == Touched(Touched(s, u), t)
  {
    var a, b := TouchedSub(s.subs[t.sub], t.closes), TouchedSub(s.subs[u.sub], u.closes);
    assert s.subs[t.sub := a][u.sub := b] == s.subs[u.sub := b][t.sub := a];
  }

  predicate Spares<K(==)>(touches: seq<Touch<K>>, k: K) {
    forall i :: 0 <= i < |touches| ==> touches[i].sub != k
  }

  lemma {:induction false} TouchPastTouches<K>(s: State<K>, t: Touch<K>, touches: seq<Touch<K>>)
    requires t.sub in s.subs && Knows(s, touches) && Spares(touches, t.sub)
    ensures AllTouched(Touched(s, t), touches) == Touched(AllTouched(s, touches), t)
  {
    if touches != [] {
      var shorter, last := touches[..|touches| - 1], touches[|touches| - 1];
      TouchPastTouches(s, t, shorter);
      TouchPastTouch(AllTouched(s, shorter), t, last);
    }
  }

  lemma {:induction false} DeliveryPastTouches<K>(s: State<K>, touches: seq<Touch<K>>, k: K, m: Message)
    requires k in s.subs && Knows(s, touches) && Spares(touches, k)
    ensures DeliveredTo(AllTouched(s, touches), k, m) == AllTouched(DeliveredTo(s, k, m), touches)
  {
    if touches != [] {
      var shorter, last := touches[..|touches| - 1], touches[|touches| - 1];
      DeliveryPastTouches(s, shorter, k, m);
      TouchPastDelivery(AllTouched(s, shorter), last, k, m);
    }
  }

  lemma {:induction false} TouchPastDeliveries<K>(s: State<K>, t: Touch<K>, order: seq<K>, m: Message)
    requires t.sub in s.subs && t.sub !in order && forall i :: 0 <= i < |order| ==> order[i] in s.subs
    ensures DeliveredInOrder(Touched(s, t), order, m) == Touched(DeliveredInOrder(s, order, m), t)
  {
    if order != [] {
      var shorter, last := order[..|order| - 1], order[|order| - 1];
      TouchPastDeliveries(s, t, shorter, m);
      TouchPastDelivery(DeliveredInOrder(s, shorter, m), t, last, m);
    }
  }

  // ----- the interleaving, sorted out ----------------------------------------------------------

  lemma {:induction false} SortedKeys<K>(s: State<K>, turns: seq<Turn<K>>)
    requires Runs(s, turns)
    ensures Knows(s, Early(turns)) && Knows(s, Late(turns))
    ensures forall i :: 0 <= i < |ServedIn(turns)| ==> ServedIn(turns)[i] in s.subs
    ensures forall i :: 0 <= i < |Late(turns)| ==> Late(turns)[i].sub in ServedIn(turns)
  {
    if turns != [] {
      SortedKeys(s, turns[..|turns| - 1]);
    }
  }

  /** Early steps first, then the deliveries, then the late steps. */
  function Sorted<K(==)>(s: State<K>, early: seq<Touch<K>>, order: seq<K>, late: seq<Touch<K>>, m: Message): State<K>
    requires Knows(s, early) && Knows(s, late) && forall i :: 0 <= i < |order| ==> order[i] in s.subs
  {
    AllTouched(DeliveredInOrder(AllTouched(s, early), order, m), late)
  }

  lemma ServeSorted<K>(s: State<K>, early: seq<Touch<K>>, order: seq<K>, late: seq<Touch<K>>, k: K, m: Message)
    requires Knows(s, early) && Knows(s, late) && k in s.subs && Spares(late, k)
    requires forall i :: 0 <= i < |order| ==> order[i] in s.subs
    ensures DeliveredTo(Sorted(s, early, order, late, m), k, m) == Sorted(s, early, order + [k], late, m)
  {
    assert (order + [k])[..|order|] == order;
    DeliveryPastTouches(DeliveredInOrder(AllTouched(s, early), order, m), late, k, m);
  }

  lemma LateSorted<K>(s: State<K>, early: seq<Touch<K>>, order: seq<K>, late: seq<Touch<K>>, t: Touch<K>, m: Message)
    requires Knows(s, early) && Knows(s, late) && t.sub in s.subs
    requires forall i :: 0 <= i < |order| ==> order[i] in s.subs
    ensures Knows(s, late + [t]) && Touched(Sorted(s, early, order, late, m), t) == Sorted(s, early, order, late + [t], m)
  {
    TouchedMore(DeliveredInOrder(AllTouched(s, early), order, m), late, t);
  }

  lemma EarlySorted<K>(s: State<K>, early: seq<Touch<K>>, order: seq<K>, late: seq<Touch<K>>, t: Touch<K>, m: Message)
    requires Knows(s, early) && Knows(s, late) && t.sub in s.subs && t.sub !in order && Spares(late, t.sub)
    requires forall i :: 0 <= i < |order| ==> order[i] in s.subs
    ensures Knows(s, early + [t]) && Touched(Sorted(s, early, order, late, m), t) == Sorted(s, early + [t], order, late, m)
  {
    TouchedMore(s, early, t);
    var touched := AllTouched(s, early);
    TouchPastDeliveries(touched, t, order, m);
    TouchPastTouches(DeliveredInOrder(touched, order, m), t, late);
  }

  lemma {:induction false} InterleavingSorts<K>(s: State<K>, turns: seq<Turn<K>>, m: Message)
    requires Runs(s, turns) && Distinct(ServedIn(turns))
    ensures Knows(s, Early(turns)) && Knows(s, Late(turns))
    ensures forall i :: 0 <= i < |ServedIn(turns)| ==> ServedIn(turns)[i] in s.subs
    ensures Interleaved(s, turns, m) == Sorted(s, Early(turns), ServedIn(turns), Late(turns), m)
  {
    SortedKeys(s, turns);
    if turns != [] {
      var shorter, last := turns[..|turns| - 1], turns[|turns| - 1];
      SortedKeys(s, shorter);
      DistinctPrefix(turns);
      InterleavingSorts(s, shorter, m);
      if last.Serve? {
        ServeSorted(s, Early(shorter), ServedIn(shorter), Late(shorter), last.sub, m);
      } else if last.touch.sub in ServedIn(shorter) {
        LateSorted(s, Early(shorter), ServedIn(shorter), Late(shorter), last.touch, m);
      } else {
        EarlySorted(s, Early(shorter), ServedIn(shorter), Late(shorter), last.touch, m);
      }
    }
  }

  lemma DistinctPrefix<K>(turns: seq<Turn<K>>)
    requires turns != [] && Distinct(ServedIn(turns))
    ensures Distinct(ServedIn(turns[..|turns| - 1]))
    ensures turns[|turns| - 1].Serve? ==> turns[|turns| - 1].sub !in ServedIn(turns[..|turns| - 1])
  {
    var served, last := ServedIn(turns[..|turns| - 1]), turns[|turns| - 1];
    assert ServedIn(turns)[..|served|] == served;
    if last.Serve? {
      assert ServedIn(turns)[|served|] == last.sub;
      assert forall i :: 0 <= i < |served| ==> ServedIn(turns)[i] == served[i];
    }
  }

  // ----- the broadcast ----------------------------------------------------------------------------

  lemma {:induction false} TouchesKeepList<K>(s: State<K>, touches: seq<Touch<K>>)
    requires Knows(s, touches)
    ensures Listed(AllTouched(s, touches)) == Listed(s)
  {
    if touches != [] {
      TouchesKeepList(s, touches[..|touches| - 1]);
      TouchKeepsList(AllTouched(s, touches[..|touches| - 1]), touches[|touches| - 1]);
    }
  }

  lemma TouchKeepsList<K>(s: State<K>, t: Touch<K>)
    requires t.sub in s.subs
    ensures Listed(Touched(s, t)) == Listed(s)
  {
    assert TouchedSub(s.subs[t.sub], t.closes).life.attached == s.subs[t.sub].life.attached;
  }

  lemma {:induction false} TouchesPastLog<K>(s: State<K>, touches: seq<Touch<K>>, m: Message)
    requires Knows(s, touches)
    ensures Logged(AllTouched(s, touches), m) == AllTouched(Logged(s, m), touches)
  {
    if touches != [] {
      TouchesPastLog(s, touches[..|touches| - 1], m);
    }
  }

  /** A broadcast interrupted anywhere, by any number of receives and closes, is the
      broadcast whole: after those of subscriptions it had not reached, and before
      those of the others. */
  lemma InterruptedBroadcast<K>(s: State<K>, turns: seq<Turn<K>>, m: Message)
    requires Runs(s, turns) && Distinct(ServedIn(turns)) && Members(ServedIn(turns)) == Listed(s)
    ensures Knows(s, Early(turns)) && Knows(Broadcast(AllTouched(s, Early(turns)), m), Late(turns))
    ensures Logged(Interleaved(s, turns, m), m) == AllTouched(Broadcast(AllTouched(s, Early(turns)), m), Late(turns))
  {
    InterleavingSorts(s, turns, m);
    var touched := AllTouched(s, Early(turns));
    TouchesKeepList(s, Early(turns));
    OrderDoesNotMatter(touched, ServedIn(turns), m);
    TouchesPastLog(DeliveredInOrder(touched, ServedIn(turns), m), Late(turns), m);
  }
}
