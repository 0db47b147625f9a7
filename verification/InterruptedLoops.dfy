/** What goes on beside a flush or an ending: their loops change one subscription
    a turn, and receives and closes fall between the turns. */
module InterruptedLoops {
  import opened Terminal
  import opened Protocol
  import opened Ordering
  import opened Interruptions
  import opened Moves

  /** The loop and the steps beside it; `serve` is what a turn does. */
  function Turned<K(==)>(s: State<K>, turns: seq<Turn<K>>, serve: (K, Sub) -> Sub): (next: State<K>)
    requires Runs(s, turns)
    ensures next.subs.Keys == s.subs.Keys
  {
    if turns == [] then s
    else
      var before := Turned(s, turns[..|turns| - 1], serve);
      match turns[|turns| - 1]
      case Serve(k) => WithSub(before, k, serve(k, before.subs[k]))
      case Meanwhile(t) => Touched(before, t)
  }

  /** The loop without anything beside it. */
  function ServedAll<K(==)>(s: State<K>, served: set<K>, serve: (K, Sub) -> Sub): State<K> {
    s.(subs := map k | k in s.subs :: if k in served then serve(k, s.subs[k]) else s.subs[k])
  }

  // ----- one subscription's share ------------------------------------------------------------

  function OneTurned<K(==)>(sub: Sub, turns: seq<Turn<K>>, k: K, serve: (K, Sub) -> Sub): Sub {
    if turns == [] then sub
    else
      var before, last := OneTurned(sub, turns[..|turns| - 1], k, serve), turns[|turns| - 1];
      if SubOf(last) != k then before
      else if last.Serve? then serve(k, before)
      else TouchedSub(before, last.touch.closes)
  }

  function OneTouched<K(==)>(sub: Sub, touches: seq<Touch<K>>, k: K): Sub {
    if touches == [] then sub
    else
      var before, last := OneTouched(sub, touches[..|touches| - 1], k), touches[|touches| - 1];
      if last.sub != k then before else TouchedSub(before, last.closes)
  }

  lemma {:induction false} TurnedShares<K>(s: State<K>, turns: seq<Turn<K>>, serve: (K, Sub) -> Sub)
    requires Runs(s, turns)
    ensures Turned(s, turns, serve) == s.(subs := Turned(s, turns, serve).subs)
    ensures forall k :: k in s.subs ==> Turned(s, turns, serve).subs[k] == OneTurned(s.subs[k], turns, k, serve)
  {
    if turns != [] {
      TurnedShares(s, turns[..|turns| - 1], serve);
    }
  }

  lemma {:induction false} TouchedShares<K>(s: State<K>, touches: seq<Touch<K>>)
    requires Knows(s, touches)
    ensures AllTouched(s, touches) == s.(subs := AllTouched(s, touches).subs)
    ensures forall k :: k in s.subs ==> AllTouched(s, touches).subs[k] == OneTouched(s.subs[k], touches, k)
  {
    if touches != [] {
      TouchedShares(s, touches[..|touches| - 1]);
    }
  }

  lemma {:induction false} SparedIsUntouched<K>(sub: Sub, touches: seq<Touch<K>>, k: K)
    requires Spares(touches, k)
    ensures OneTouched(sub, touches, k) == sub
  {
    if touches != [] {
      SparedIsUntouched(sub, touches[..|touches| - 1], k);
    }
  }

  lemma OneTouchedMore<K>(sub: Sub, touches: seq<Touch<K>>, t: Touch<K>, k: K)
    ensures OneTouched(sub, touches + [t], k)
         == if t.sub != k then OneTouched(sub, touches, k) else TouchedSub(OneTouched(sub, touches, k), t.closes)
  {
    assert (touches + [t])[..|touches|] == touches;
  }

  lemma {:induction false} LateWereServed<K>(turns: seq<Turn<K>>)
    ensures forall i :: 0 <= i < |Late(turns)| ==> Late(turns)[i].sub in ServedIn(turns)
  {
    if turns != [] {
      LateWereServed(turns[..|turns| - 1]);
    }
  }

  lemma NoneLate<K>(sub: Sub, turns: seq<Turn<K>>, k: K)
    requires k !in ServedIn(turns)
    ensures OneTouched(sub, Late(turns), k) == sub
  {
    LateWereServed(turns);
    SparedIsUntouched(sub, Late(turns), k);
  }

  /** Its early steps, its turn if it has one, its late steps. */
  function OneSorted<K(==)>(sub: Sub, turns: seq<Turn<K>>, k: K, serve: (K, Sub) -> Sub): Sub {
    var early := OneTouched(sub, Early(turns), k);
    OneTouched(if k in ServedIn(turns) then serve(k, early) else early, Late(turns), k)
  }

  lemma {:induction false} OneSorts<K>(sub: Sub, turns: seq<Turn<K>>, k: K, serve: (K, Sub) -> Sub)
    requires Distinct(ServedIn(turns))
    ensures OneTurned(sub, turns, k, serve) == OneSorted(sub, turns, k, serve)
  {
    if turns != [] {
      var shorter, last := turns[..|turns| - 1], turns[|turns| - 1];
      DistinctPrefix(turns);
      OneSorts(sub, shorter, k, serve);
      if last.Serve? {
        OneServed(sub, turns, k, serve);
      } else {
        OneTouchedSorted(sub, turns, k, serve);
      }
    }
  }

  lemma OneServed<K>(sub: Sub, turns: seq<Turn<K>>, k: K, serve: (K, Sub) -> Sub)
    requires turns != [] && turns[|turns| - 1].Serve? && turns[|turns| - 1].sub !in ServedIn(turns[..|turns| - 1])
    ensures var before := OneSorted(sub, turns[..|turns| - 1], k, serve);
      OneSorted(sub, turns, k, serve) == if turns[|turns| - 1].sub == k then serve(k, before) else before
  {
    var shorter := turns[..|turns| - 1];
    if turns[|turns| - 1].sub == k {
      var early := OneTouched(sub, Early(shorter), k);
      NoneLate(early, shorter, k);
      LateWereServed(shorter);
      SparedIsUntouched(serve(k, early), Late(shorter), k);
    }
  }

  lemma OneTouchedSorted<K>(sub: Sub, turns: seq<Turn<K>>, k: K, serve: (K, Sub) -> Sub)
    requires turns != [] && turns[|turns| - 1].Meanwhile?
    ensures var before, t := OneSorted(sub, turns[..|turns| - 1], k, serve), turns[|turns| - 1].touch;
      OneSorted(sub, turns, k, serve) == if t.sub == k then TouchedSub(before, t.closes) else before
  {
    var shorter, t := turns[..|turns| - 1], turns[|turns| - 1].touch;
    var early := OneTouched(sub, Early(shorter), k);
    if t.sub in ServedIn(shorter) {
      OneTouchedMore(if k in ServedIn(shorter) then serve(k, early) else early, Late(shorter), t, k);
    } else {
      OneTouchedMore(sub, Early(shorter), t, k);
      if t.sub == k {
        NoneLate(early, shorter, k);
        NoneLate(TouchedSub(early, t.closes), shorter, k);
      }
    }
  }

  // ----- the loop, sorted out -------------------------------------------------------------------

  /** Whatever a turn does to its subscription: the steps of subscriptions not
      reached yet might as well have come before the loop, and the others after. */
  lemma TurnsSort<K>(s: State<K>, turns: seq<Turn<K>>, serve: (K, Sub) -> Sub)
    requires Runs(s, turns) && Distinct(ServedIn(turns))
    ensures Knows(s, Early(turns)) && Knows(s, Late(turns))
    ensures Turned(s, turns, serve)
         == AllTouched(ServedAll(AllTouched(s, Early(turns)), Members(ServedIn(turns)), serve), Late(turns))
  {
    SortedKeys(s, turns);
    var touched := AllTouched(s, Early(turns));
    var served := ServedAll(touched, Members(ServedIn(turns)), serve);
    TurnedShares(s, turns, serve);
    TouchedShares(s, Early(turns));
    TouchedShares(served, Late(turns));
    forall k | k in s.subs
      ensures Turned(s, turns, serve).subs[k] == AllTouched(served, Late(turns)).subs[k]
    {
      OneSorts(s.subs[k], turns, k, serve);
    }
    assert Turned(s, turns, serve).subs == AllTouched(served, Late(turns)).subs;
  }

  lemma {:induction false} TouchedConcat<K>(s: State<K>, one: seq<Touch<K>>, two: seq<Touch<K>>)
    requires Knows(s, one) && Knows(s, two)
    ensures Knows(s, one + two) && AllTouched(s, one + two) == AllTouched(AllTouched(s, one), two)
    decreases |two|
  {
    if two == [] {
      assert one + two == one;
    } else {
      var shorter := two[..|two| - 1];
      assert (one + two)[..|one + two| - 1] == one + shorter;
      TouchedConcat(s, one, shorter);
    }
  }

  // ----- flushes ------------------------------------------------------------------------------------

  function FlushTurn<K(==)>(state: Snapshot, force: bool, drains: map<K, Drain>): (K, Sub) -> Sub {
    (k, sub) => Flushed(sub, state, force, DrainOf(drains, k))
  }

  /** Some turn found no room and left its subscription owing. */
  predicate LeftOwing<K(==)>(s: State<K>, turns: seq<Turn<K>>, force: bool, serve: (K, Sub) -> Sub)
    requires Runs(s, turns)
  {
    if turns == [] then false
    else
      var shorter, last := turns[..|turns| - 1], turns[|turns| - 1];
      LeftOwing(s, shorter, force, serve)
      || (last.Serve? && StillOwed(Turned(s, shorter, serve).subs[last.sub], force))
  }

  /** The flush, with everything beside it. */
  function FlushLoop<K(==)>(s: State<K>, turns: seq<Turn<K>>, force: bool, drains: map<K, Drain>): (next: State<K>)
    requires Runs(s, turns)
    ensures next.subs.Keys == s.subs.Keys
  {
    var serve := FlushTurn(Taken(s.term), force, drains);
    Armed(Turned(s, turns, serve), LeftOwing(s, turns, force, serve))
  }

  predicate SomeoneOwing<K(==)>(s: State<K>, turns: seq<Turn<K>>, force: bool) {
    exists k :: k in ServedIn(turns) && k in s.subs && StillOwed(OneTouched(s.subs[k], Early(turns), k), force)
  }

  /** Whom a turn finds owing: its subscription as its early steps left it. */
  lemma TurnFinds<K>(s: State<K>, turns: seq<Turn<K>>, k: K, serve: (K, Sub) -> Sub)
    requires Runs(s, turns) && Distinct(ServedIn(turns)) && k in s.subs && k !in ServedIn(turns)
    ensures Turned(s, turns, serve).subs[k] == OneTouched(s.subs[k], Early(turns), k)
  {
    TurnedShares(s, turns, serve);
    OneSorts(s.subs[k], turns, k, serve);
    NoneLate(OneTouched(s.subs[k], Early(turns), k), turns, k);
  }

  /** A turn taken, a subscription's early steps are all made. */
  lemma EarlyStands<K>(sub: Sub, turns: seq<Turn<K>>, k: K)
    requires turns != [] && (k in ServedIn(turns[..|turns| - 1]) || turns[|turns| - 1].Serve?)
    ensures OneTouched(sub, Early(turns), k) == OneTouched(sub, Early(turns[..|turns| - 1]), k)
  {
    var shorter, last := turns[..|turns| - 1], turns[|turns| - 1];
    if last.Meanwhile? && last.touch.sub !in ServedIn(shorter) {
      OneTouchedMore(sub, Early(shorter), last.touch, k);
    }
  }

  lemma {:induction false} LeftOwingMeaning<K>(s: State<K>, turns: seq<Turn<K>>, force: bool, serve: (K, Sub) -> Sub)
    requires Runs(s, turns) && Distinct(ServedIn(turns))
    ensures LeftOwing(s, turns, force, serve) <==> SomeoneOwing(s, turns, force)
  {
    if turns != [] {
      var shorter, last := turns[..|turns| - 1], turns[|turns| - 1];
      DistinctPrefix(turns);
      LeftOwingMeaning(s, shorter, force, serve);
      forall k | k in ServedIn(shorter) && k in s.subs
        ensures OneTouched(s.subs[k], Early(turns), k) == OneTouched(s.subs[k], Early(shorter), k)
      {
        EarlyStands(s.subs[k], turns, k);
      }
      SortedKeys(s, shorter);
      if last.Serve? {
        TurnFinds(s, shorter, last.sub, serve);
        EarlyStands(s.subs[last.sub], turns, last.sub);
      }
      OwingOneMore(s, turns, force);
    }
  }

  lemma OwingOneMore<K>(s: State<K>, turns: seq<Turn<K>>, force: bool)
    requires Runs(s, turns) && turns != []
    requires forall k :: k in ServedIn(turns[..|turns| - 1]) && k in s.subs ==>
      OneTouched(s.subs[k], Early(turns), k) == OneTouched(s.subs[k], Early(turns[..|turns| - 1]), k)
    ensures SomeoneOwing(s, turns, force) <==>
      SomeoneOwing(s, turns[..|turns| - 1], force)
      || (turns[|turns| - 1].Serve? && StillOwed(OneTouched(s.subs[SubOf(turns[|turns| - 1])], Early(turns), SubOf(turns[|turns| - 1])), force))
  {
    var shorter, last := turns[..|turns| - 1], turns[|turns| - 1];
    var served := ServedIn(shorter);
    assert ServedIn(turns) == if last.Serve? then served + [last.sub] else served;
    if SomeoneOwing(s, turns, force) {
      var k :| k in ServedIn(turns) && k in s.subs && StillOwed(OneTouched(s.subs[k], Early(turns), k), force);
      assert k in served || (last.Serve? && k == last.sub);
    }
    if SomeoneOwing(s, shorter, force) {
      var k :| k in served && k in s.subs && StillOwed(OneTouched(s.subs[k], Early(shorter), k), force);
      assert k in ServedIn(turns);
    }
    if last.Serve? {
      assert last.sub in ServedIn(turns);
    }
  }

  lemma {:induction false} TouchesPastArming<K>(s: State<K>, touches: seq<Touch<K>>, wanted: bool)
    requires Knows(s, touches)
    ensures Armed(AllTouched(s, touches), wanted) == AllTouched(Armed(s, wanted), touches)
  {
    if touches != [] {
      TouchesPastArming(s, touches[..|touches| - 1], wanted);
    }
  }

  /** A flush interrupted anywhere, by any number of receives and closes, is the
      flush whole: after those of subscriptions it had not reached, and before
      those of the others. */
  lemma InterruptedFlush<K>(s: State<K>, turns: seq<Turn<K>>, force: bool, drains: map<K, Drain>)
    requires Runs(s, turns) && Distinct(ServedIn(turns)) && Members(ServedIn(turns)) == Listed(s)
    ensures Knows(s, Early(turns)) && Knows(FlushedAll(AllTouched(s, Early(turns)), force, drains), Late(turns))
    ensures FlushLoop(s, turns, force, drains)
         == AllTouched(FlushedAll(AllTouched(s, Early(turns)), force, drains), Late(turns))
  {
    var serve := FlushTurn(Taken(s.term), force, drains);
    TurnsSort(s, turns, serve);
    LeftOwingMeaning(s, turns, force, serve);
    var touched := AllTouched(s, Early(turns));
    TouchedShares(s, Early(turns));
    TouchesKeepList(s, Early(turns));
    var served := ServedAll(touched, Listed(touched), serve);
    TouchesPastArming(served, Late(turns), SomeoneOwing(s, turns, force));
    FlushIsServed(touched, force, drains);
    OwingIsListed(s, turns, touched, force);
  }

  lemma FlushIsServed<K>(s: State<K>, force: bool, drains: map<K, Drain>)
    ensures FlushedAll(s, force, drains)
         == Armed(ServedAll(s, Listed(s), FlushTurn(Taken(s.term), force, drains)),
                  exists k :: k in Listed(s) && StillOwed(s.subs[k], force))
  {
  }

  lemma OwingIsListed<K>(s: State<K>, turns: seq<Turn<K>>, touched: State<K>, force: bool)
    requires Runs(s, turns) && Members(ServedIn(turns)) == Listed(touched) && touched.subs.Keys == s.subs.Keys
    requires forall k :: k in s.subs ==> touched.subs[k] == OneTouched(s.subs[k], Early(turns), k)
    ensures SomeoneOwing(s, turns, force) <==> exists k :: k in Listed(touched) && StillOwed(touched.subs[k], force)
  {
    if SomeoneOwing(s, turns, force) {
      var k :| k in ServedIn(turns) && k in s.subs && StillOwed(OneTouched(s.subs[k], Early(turns), k), force);
      assert k in Members(ServedIn(turns));
    }
    if k :| k in Listed(touched) && StillOwed(touched.subs[k], force) {
      assert k in Members(ServedIn(turns));
    }
  }

  // ----- endings --------------------------------------------------------------------------------------

  function FinishTurn<K>(): (K, Sub) -> Sub {
    (k, sub) => Finished(sub)
  }

  function Delisting(orphaned: bool): Sub -> Sub {
    sub => WhenDelisted(sub, orphaned)
  }

  /** Something done to some subscriptions at once. */
  function SomeActed<K(==)>(s: State<K>, who: set<K>, act: Sub -> Sub): State<K> {
    s.(subs := map k | k in s.subs :: if k in who then act(s.subs[k]) else s.subs[k])
  }

  /** It comes to the same before a receive or a close and after it. */
  ghost predicate Commutes(act: Sub -> Sub) {
    forall sub, closes :: act(TouchedSub(sub, closes)) == TouchedSub(act(sub), closes)
  }

  lemma ActPastTouch<K>(s: State<K>, t: Touch<K>, who: set<K>, act: Sub -> Sub)
    requires t.sub in s.subs && Commutes(act)
    ensures SomeActed(Touched(s, t), who, act) == Touched(SomeActed(s, who, act), t)
  {
    var sub := s.subs[t.sub];
    assert act(TouchedSub(sub, t.closes)) == TouchedSub(act(sub), t.closes);
    ActAfterUpdate(s.subs, t.sub, TouchedSub(sub, t.closes), who, act);
  }

  lemma ActAfterUpdate<K>(subs: map<K, Sub>, at: K, sub: Sub, who: set<K>, act: Sub -> Sub)
    requires at in subs
    ensures (map k | k in subs[at := sub] :: if k in who then act(subs[at := sub][k]) else subs[at := sub][k])
         == (map k | k in subs :: if k in who then act(subs[k]) else subs[k])[at := if at in who then act(sub) else sub]
  {
  }

  lemma {:induction false} ActPastTouches<K>(s: State<K>, touches: seq<Touch<K>>, who: set<K>, act: Sub -> Sub)
    requires Knows(s, touches) && Commutes(act)
    ensures SomeActed(AllTouched(s, touches), who, act) == AllTouched(SomeActed(s, who, act), touches)
  {
    if touches != [] {
      ActPastTouches(s, touches[..|touches| - 1], who, act);
      ActPastTouch(AllTouched(s, touches[..|touches| - 1]), touches[|touches| - 1], who, act);
    }
  }

  lemma FinishingCommutes()
    ensures Commutes(Finished)
  {
    forall sub, closes
      ensures Finished(TouchedSub(sub, closes)) == TouchedSub(Finished(sub), closes)
    {
      TouchPastFinish(sub, closes);
    }
  }

  lemma TouchPastFinish(sub: Sub, closes: bool)
    ensures Finished(TouchedSub(sub, closes)) == TouchedSub(Finished(sub), closes)
  {
  }

  lemma DelistingCommutes(orphaned: bool)
    ensures Commutes(Delisting(orphaned))
  {
    forall sub, closes
      ensures WhenDelisted(TouchedSub(sub, closes), orphaned) == TouchedSub(WhenDelisted(sub, orphaned), closes)
    {
      TouchPastDelisting(sub, closes, orphaned);
    }
  }

  lemma TouchPastDelisting(sub: Sub, closes: bool, orphaned: bool)
    ensures WhenDelisted(TouchedSub(sub, closes), orphaned) == TouchedSub(WhenDelisted(sub, orphaned), closes)
  {
  }

  /** The last call of the read loop: one loop flushes, another finishes, and the
      list is thrown away. */
  function EndingLoops<K(==)>(s: State<K>, turns: seq<Turn<K>>, finishing: seq<Turn<K>>, drains: map<K, Drain>): State<K>
    requires Runs(s, turns) && Runs(s, finishing)
  {
    Emptied(Turned(FlushLoop(s, turns, true, drains), finishing, FinishTurn()))
  }

  lemma FinishedAll<K>(s: State<K>, who: set<K>)
    ensures ServedAll(s, who, FinishTurn()) == SomeActed(s, who, Finished)
  {
  }

  lemma EmptiedAll<K>(s: State<K>)
    ensures Emptied(s) == SomeActed(s.(tape := s.tape.(ended := true)), s.subs.Keys, Delisting(false))
  {
    assert Emptied(s).subs == SomeActed(s, s.subs.Keys, Delisting(false)).subs;
  }

  lemma DissolvedAll<K>(s: State<K>, stopped: bool)
    ensures Dissolved(s, stopped)
         == SomeActed(s.(closed := true, retry := RetryDropped(s.retry, stopped)), s.subs.Keys, Delisting(true))
  {
    assert Orphaning(s).subs == SomeActed(s, s.subs.Keys, Delisting(true)).subs;
  }

  lemma {:induction false} TouchesPastMarks<K>(s: State<K>, touches: seq<Touch<K>>, tape: Tape, closed: bool, retry: Retry)
    requires Knows(s, touches)
    ensures AllTouched(s, touches).(tape := tape, closed := closed, retry := retry)
         == AllTouched(s.(tape := tape, closed := closed, retry := retry), touches)
  {
    if touches != [] {
      TouchesPastMarks(s, touches[..|touches| - 1], tape, closed, retry);
    }
  }

  lemma TouchesPastFinishing<K>(s: State<K>, touches: seq<Touch<K>>, who: set<K>)
    requires Knows(s, touches)
    ensures ServedAll(AllTouched(s, touches), who, FinishTurn()) == AllTouched(ServedAll(s, who, FinishTurn()), touches)
  {
    FinishedAll(AllTouched(s, touches), who);
    FinishedAll(s, who);
    FinishingCommutes();
    ActPastTouches(s, touches, who, Finished);
  }

  lemma TouchesPastEmptying<K>(s: State<K>, touches: seq<Touch<K>>)
    requires Knows(s, touches)
    ensures Emptied(AllTouched(s, touches)) == AllTouched(Emptied(s), touches)
  {
    var over := s.tape.(ended := true);
    TouchedShares(s, touches);
    EmptiedAll(AllTouched(s, touches));
    EmptiedAll(s);
    TouchesPastMarks(s, touches, over, s.closed, s.retry);
    DelistingCommutes(false);
    ActPastTouches(s.(tape := over), touches, s.subs.Keys, Delisting(false));
  }

  lemma TouchesPastDissolving<K>(s: State<K>, touches: seq<Touch<K>>, stopped: bool)
    requires Knows(s, touches)
    ensures Dissolved(AllTouched(s, touches), stopped) == AllTouched(Dissolved(s, stopped), touches)
  {
    var dropped := RetryDropped(s.retry, stopped);
    TouchedShares(s, touches);
    DissolvedAll(AllTouched(s, touches), stopped);
    DissolvedAll(s, stopped);
    TouchesPastMarks(s, touches, s.tape, true, dropped);
    DelistingCommutes(true);
    ActPastTouches(s.(closed := true, retry := dropped), touches, s.subs.Keys, Delisting(true));
  }

  /** A flush leaves the list alone, so the finishing that follows is of everyone. */
  lemma EndedIsServed<K>(s: State<K>, drains: map<K, Drain>)
    ensures StreamEnded(s, drains) == Emptied(ServedAll(FlushedAll(s, true, drains), Listed(s), FinishTurn()))
  {
    var flushed := FlushedAll(s, true, drains);
    FlushKeepsList(s, true, drains);
    forall k | k in flushed.subs
      ensures StreamEnded(s, drains).subs[k] == Emptied(ServedAll(flushed, Listed(s), FinishTurn())).subs[k]
    {
      assert k in Listed(s) <==> flushed.subs[k].life.attached;
      FinishKeepsList(flushed.subs[k]);
    }
    assert StreamEnded(s, drains).subs == Emptied(ServedAll(flushed, Listed(s), FinishTurn())).subs;
  }

  lemma FinishKeepsList(sub: Sub)
    ensures WhenDelisted(Finished(sub), false) == if sub.life.attached then Delisted(Finished(sub)) else Finished(sub)
  {
  }

  lemma FlushKeepsList<K>(s: State<K>, force: bool, drains: map<K, Drain>)
    ensures FlushedAll(s, force, drains).subs.Keys == s.subs.Keys
    ensures Listed(FlushedAll(s, force, drains)) == Listed(s)
  {
    var flushed := FlushedAll(s, force, drains);
    forall k | k in s.subs
      ensures flushed.subs[k].life.attached == s.subs[k].life.attached
    {
      AttachedSurvivesFlush(s.subs[k], Taken(s.term), force, DrainOf(drains, k));
    }
    SameList(s, flushed);
  }

  lemma SameList<K>(s: State<K>, next: State<K>)
    requires next.subs.Keys == s.subs.Keys
    requires forall k :: k in s.subs ==> next.subs[k].life.attached == s.subs[k].life.attached
    ensures Listed(next) == Listed(s)
  {
  }

  /** The steps that fall beside an ending and count as after it: those behind the
      flush, and all that fall beside the finishing. */
  function Aftermath<K(==)>(turns: seq<Turn<K>>, finishing: seq<Turn<K>>): seq<Touch<K>> {
    Late(turns) + (Early(finishing) + Late(finishing))
  }

  /** Finishing, with everything beside it. */
  lemma InterruptedFinishing<K>(s: State<K>, finishing: seq<Turn<K>>)
    requires Runs(s, finishing) && Distinct(ServedIn(finishing))
    ensures Knows(s, Early(finishing) + Late(finishing))
    ensures Turned(s, finishing, FinishTurn())
         == AllTouched(ServedAll(s, Members(ServedIn(finishing)), FinishTurn()), Early(finishing) + Late(finishing))
  {
    TurnsSort(s, finishing, FinishTurn());
    TouchesPastFinishing(s, Early(finishing), Members(ServedIn(finishing)));
    TouchedConcat(ServedAll(s, Members(ServedIn(finishing)), FinishTurn()), Early(finishing), Late(finishing));
  }

  /** An ending interrupted anywhere is the ending whole, after the steps of
      subscriptions its flush had not reached, and before all others. */
  lemma InterruptedEnding<K>(s: State<K>, turns: seq<Turn<K>>, finishing: seq<Turn<K>>, drains: map<K, Drain>)
    requires Runs(s, turns) && Distinct(ServedIn(turns)) && Members(ServedIn(turns)) == Listed(s)
    requires Runs(s, finishing) && Distinct(ServedIn(finishing)) && Members(ServedIn(finishing)) == Listed(s)
    ensures Knows(s, Early(turns)) && Knows(StreamEnded(AllTouched(s, Early(turns)), drains), Aftermath(turns, finishing))
    ensures EndingLoops(s, turns, finishing, drains)
         == AllTouched(StreamEnded(AllTouched(s, Early(turns)), drains), Aftermath(turns, finishing))
  {
    SortedKeys(s, turns);
    var touched := AllTouched(s, Early(turns));
    var flushed, rest := FlushedAll(touched, true, drains), Early(finishing) + Late(finishing);
    InterruptedFlush(s, turns, true, drains);
    InterruptedFinishing(AllTouched(flushed, Late(turns)), finishing);
    TouchesKeepList(s, Early(turns));
    var finished := ServedAll(flushed, Listed(s), FinishTurn());
    assert Knows(flushed, Late(turns)) && Knows(finished, rest);
    TouchesPastFinishing(flushed, Late(turns), Listed(s));
    TouchedConcat(finished, Late(turns), rest);
    TouchesPastEmptying(finished, Late(turns) + rest);
    EndedIsServed(touched, drains);
  }

  /** The same of closing the session, whose flush is a loop and the rest of which
      is not. */
  lemma InterruptedClose<K>(s: State<K>, turns: seq<Turn<K>>, drains: map<K, Drain>, stopped: bool)
    requires !s.closed && Runs(s, turns) && Distinct(ServedIn(turns)) && Members(ServedIn(turns)) == Listed(s)
    ensures Knows(s, Early(turns)) && Knows(SessionClosed(AllTouched(s, Early(turns)), drains, stopped), Late(turns))
    ensures Dissolved(FlushLoop(s, turns, true, drains), stopped)
         == AllTouched(SessionClosed(AllTouched(s, Early(turns)), drains, stopped), Late(turns))
  {
    InterruptedFlush(s, turns, true, drains);
    TouchedShares(s, Early(turns));
    TouchesPastDissolving(FlushedAll(AllTouched(s, Early(turns)), true, drains), Late(turns), stopped);
  }
}
