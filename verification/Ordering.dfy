/** A broadcast is a loop over a map, in no particular order. Served one at a
    time, in any order, the listed subscriptions end up as the broadcast says. */
module Ordering {
  import opened Terminal
  import opened Protocol

  /** One listed subscription served; retirement and debt act on the session at
      once. */
  function DeliveredTo<K(==)>(s: State<K>, k: K, m: Message): State<K>
    requires k in s.subs
  {
    var sub := s.subs[k];
    Armed(s.(subs := s.subs[k := Delivered(sub, m)],
             geo := if Drops(sub) then WithoutOne(s.geo, k) else s.geo),
          FallsBehind(sub))
  }

  lemma DeliveredCases<K>(s: State<K>, k: K, m: Message)
    requires k in s.subs
    ensures Drops(s.subs[k]) ==> DeliveredTo(s, k, m) == WithSub(s.(geo := WithoutOne(s.geo, k)), k, Delivered(s.subs[k], m))
    ensures !Drops(s.subs[k]) ==>
      DeliveredTo(s, k, m) == WithSub(s.(retry := Scheduled(s.retry, FallsBehind(s.subs[k]) && !s.closed)), k, Delivered(s.subs[k], m))
  {
  }

  predicate SomeFallBehind<K(==)>(s: State<K>, served: set<K>) {
    exists k :: k in served && k in s.subs && FallsBehind(s.subs[k])
  }

  function Served<K(==)>(subs: map<K, Sub>, served: set<K>, m: Message): map<K, Sub> {
    map k | k in subs :: if k in served then Delivered(subs[k], m) else subs[k]
  }

  /** The state once everyone in `served` has been, and nothing logged yet. */
  function Partway<K(==)>(s: State<K>, served: set<K>, m: Message): State<K> {
    Armed(s.(subs := Served(s.subs, served, m),
             geo := Without(s.geo, Laggards(s) * served)),
          SomeFallBehind(s, served))
  }

  lemma PartwayStart<K>(s: State<K>, m: Message)
    ensures Partway(s, {}, m) == s
  {
  }

  lemma WithoutOneMore<K>(geo: Geo<K>, gone: set<K>, k: K)
    requires k !in gone
    ensures WithoutOne(Without(geo, gone), k) == Without(geo, gone + {k})
  {
    LessOneMore(geo.views, gone, k);
    OneMoreSettle(geo.views.Keys, gone, k);
  }

  lemma LessOneMore<K>(views: map<K, View>, gone: set<K>, k: K)
    requires k !in gone
    ensures (views - gone) - {k} == views - (gone + {k})
    ensures k in views - gone <==> k in views
  {
  }

  lemma OneMoreSettle<K>(owners: set<K>, gone: set<K>, k: K)
    requires k !in gone
    ensures |(gone + {k}) * owners| == |gone * owners| + if k in owners then 1 else 0
  {
    if k in owners {
      assert (gone + {k}) * owners == gone * owners + {k};
    } else {
      assert (gone + {k}) * owners == gone * owners;
    }
  }

  lemma ArmedThen<K>(s: State<K>, once: bool, again: bool)
    ensures Armed(Armed(s, once), again) == Armed(s, once || again)
  {
  }

  lemma ArmedApart<K>(s: State<K>, wanted: bool, subs: map<K, Sub>, geo: Geo<K>)
    ensures Armed(s, wanted).(subs := subs, geo := geo) == Armed(s.(subs := subs, geo := geo), wanted)
  {
  }

  lemma PartwayGeo<K>(s: State<K>, served: set<K>, k: K, m: Message)
    requires k in s.subs && k !in served && s.subs[k].life.attached
    ensures Without(s.geo, Laggards(s) * (served + {k}))
         == if Drops(s.subs[k]) then WithoutOne(Without(s.geo, Laggards(s) * served), k) else Without(s.geo, Laggards(s) * served)
  {
    var laggards := Laggards(s);
    if Drops(s.subs[k]) {
      assert laggards * (served + {k}) == laggards * served + {k};
      WithoutOneMore(s.geo, laggards * served, k);
    } else {
      assert laggards * (served + {k}) == laggards * served;
    }
  }

  /** Whoever is served next, one more delivery is one more of the broadcast. */
  lemma PartwayStep<K>(s: State<K>, served: set<K>, k: K, m: Message)
    requires k in s.subs && k !in served && s.subs[k].life.attached
    ensures k in Partway(s, served, m).subs
    ensures DeliveredTo(Partway(s, served, m), k, m) == Partway(s, served + {k}, m)
  {
    PartwayGeo(s, served, k, m);
    var sub := s.subs[k];
    var part, more := Partway(s, served, m), Partway(s, served + {k}, m);
    var fallen, falls := SomeFallBehind(s, served), FallsBehind(sub);
    ServedOneMore(s.subs, served, k, m);
    assert SomeFallBehind(s, served + {k}) == (fallen || falls);
    ArmedApart(s.(subs := part.subs, geo := part.geo), fallen, more.subs, more.geo);
    ArmedThen(s.(subs := more.subs, geo := more.geo), fallen, falls);
  }

  lemma ServedOneMore<K>(subs: map<K, Sub>, served: set<K>, k: K, m: Message)
    requires k in subs && k !in served
    ensures Served(subs, served, m)[k := Delivered(subs[k], m)] == Served(subs, served + {k}, m)
  {
  }

  function Listed<K(==)>(s: State<K>): set<K> {
    set k | k in s.subs && s.subs[k].life.attached
  }

  function Logged<K(==)>(s: State<K>, m: Message): State<K> {
    s.(tape := s.tape.(log := s.tape.log + [m]))
  }

  lemma PartwayEnd<K>(s: State<K>, m: Message)
    ensures Logged(Partway(s, Listed(s), m), m) == Broadcast(s, m)
  {
    assert Laggards(s) * Listed(s) == Laggards(s);
    var end := Broadcast(s, m);
    assert Partway(s, Listed(s), m).subs == end.subs;
    assert SomeFallBehind(s, Listed(s)) == (exists k :: k in s.subs && s.subs[k].life.attached && FallsBehind(s.subs[k]));
  }

  /** The loop: one delivery after another, in the order given. */
  function DeliveredInOrder<K(==)>(s: State<K>, order: seq<K>, m: Message): State<K>
    requires forall i :: 0 <= i < |order| ==> order[i] in s.subs
    ensures DeliveredInOrder(s, order, m).subs.Keys == s.subs.Keys
  {
    if order == [] then s
    else DeliveredTo(DeliveredInOrder(s, order[..|order| - 1], m), order[|order| - 1], m)
  }

  predicate Distinct<K(==)>(order: seq<K>) {
    forall i, j :: 0 <= i < j < |order| ==> order[i] != order[j]
  }

  function Members<K(==)>(order: seq<K>): set<K> {
    set i | 0 <= i < |order| :: order[i]
  }

  lemma {:induction false} OrderIsPartway<K>(s: State<K>, order: seq<K>, m: Message)
    requires Distinct(order) && forall i :: 0 <= i < |order| ==> order[i] in Listed(s)
    ensures forall i :: 0 <= i < |order| ==> order[i] in s.subs
    ensures DeliveredInOrder(s, order, m) == Partway(s, Members(order), m)
  {
    if order == [] {
      PartwayStart(s, m);
      assert Members(order) == {};
    } else {
      var shorter, last := order[..|order| - 1], order[|order| - 1];
      OrderIsPartway(s, shorter, m);
      PartwayStep(s, Members(shorter), last, m);
      LastMember(order);
    }
  }

  lemma LastMember<K>(order: seq<K>)
    requires order != []
    ensures Members(order) == Members(order[..|order| - 1]) + {order[|order| - 1]}
  {
  }

  /** A map may yield the listed subscriptions in any order: each is served once,
      and the outcome is the broadcast. */
  lemma OrderDoesNotMatter<K>(s: State<K>, order: seq<K>, m: Message)
    requires Distinct(order) && Members(order) == Listed(s)
    ensures forall i :: 0 <= i < |order| ==> order[i] in s.subs
    ensures Logged(DeliveredInOrder(s, order, m), m) == Broadcast(s, m)
  {
    forall i | 0 <= i < |order|
      ensures order[i] in Listed(s)
    {
      assert order[i] in Members(order);
    }
    OrderIsPartway(s, order, m);
    PartwayEnd(s, m);
  }

  /** A loop that has served `order` and has `todo` before it. */
  ghost predicate Serving<K>(before: State<K>, now: State<K>, order: seq<K>, todo: set<K>, m: Message) {
    && Distinct(order)
    && (forall i :: 0 <= i < |order| ==> order[i] in before.subs)
    && (forall k :: k in order ==> k in Listed(before) && k !in todo)
    && (forall k :: k in todo ==> k in Listed(before))
    && (forall k :: k in Listed(before) ==> k in order || k in todo)
    && now == DeliveredInOrder(before, order, m)
  }

  lemma ServingStarts<K>(s: State<K>, m: Message)
    ensures Serving(s, s, [], Listed(s), m)
  {
  }

  lemma ServingGoesOn<K>(before: State<K>, now: State<K>, order: seq<K>, todo: set<K>, k: K, m: Message)
    requires Serving(before, now, order, todo, m) && k in todo
    ensures k in now.subs && Serving(before, DeliveredTo(now, k, m), order + [k], todo - {k}, m)
  {
  }

  lemma ServingEnds<K>(before: State<K>, now: State<K>, order: seq<K>, m: Message)
    requires Serving(before, now, order, {}, m)
    ensures Logged(now, m) == Broadcast(before, m)
  {
    assert Members(order) == Listed(before);
    OrderDoesNotMatter(before, order, m);
  }

  // ----- the flush, and the endings -----------------------------------------------------

  /** The listed subscriptions in `served` have been flushed. */
  function SomeFlushed<K(==)>(s: State<K>, served: set<K>, force: bool, drains: map<K, Drain>): State<K> {
    s.(subs := map k | k in s.subs ::
         if k in served then Flushed(s.subs[k], Taken(s.term), force, DrainOf(drains, k)) else s.subs[k])
  }

  predicate StillOwed(sub: Sub, force: bool) {
    Owed(sub) && Full(sub) && !force
  }

  /** A flush that has `todo` before it; `owed` if it left someone owing. */
  ghost predicate Flushing<K>(before: State<K>, now: State<K>, todo: set<K>, owed: bool, force: bool, drains: map<K, Drain>) {
    && todo <= Listed(before)
    && now == SomeFlushed(before, Listed(before) - todo, force, drains)
    && (owed <==> exists k :: k in Listed(before) && k !in todo && StillOwed(before.subs[k], force))
  }

  lemma FlushingStarts<K>(s: State<K>, force: bool, drains: map<K, Drain>)
    ensures Flushing(s, s, Listed(s), false, force, drains)
  {
    assert SomeFlushed(s, Listed(s) - Listed(s), force, drains).subs == s.subs;
  }

  lemma FlushingGoesOn<K>(before: State<K>, now: State<K>, todo: set<K>, owed: bool, force: bool, drains: map<K, Drain>, k: K)
    requires Flushing(before, now, todo, owed, force, drains) && k in todo
    ensures k in now.subs && now.term == before.term
    ensures Flushing(before,
                     WithSub(now, k, Flushed(now.subs[k], Taken(now.term), force, DrainOf(drains, k))),
                     todo - {k}, owed || StillOwed(now.subs[k], force), force, drains)
  {
    var next := WithSub(now, k, Flushed(now.subs[k], Taken(now.term), force, DrainOf(drains, k)));
    assert next.subs == SomeFlushed(before, Listed(before) - (todo - {k}), force, drains).subs;
  }

  lemma FlushingEnds<K>(before: State<K>, now: State<K>, owed: bool, force: bool, drains: map<K, Drain>)
    requires Flushing(before, now, {}, owed, force, drains)
    ensures Armed(now, owed) == FlushedAll(before, force, drains)
  {
  }

  /** The listed subscriptions in `served` have been finished. */
  function SomeFinished<K(==)>(s: State<K>, served: set<K>): State<K> {
    s.(subs := map k | k in s.subs :: if k in served then Finished(s.subs[k]) else s.subs[k])
  }

  ghost predicate Finishing<K>(before: State<K>, now: State<K>, todo: set<K>) {
    todo <= Listed(before) && now == SomeFinished(before, Listed(before) - todo)
  }

  lemma FinishingStarts<K>(s: State<K>)
    ensures Finishing(s, s, Listed(s))
  {
  }

  lemma FinishingGoesOn<K>(before: State<K>, now: State<K>, todo: set<K>, k: K)
    requires Finishing(before, now, todo) && k in todo
    ensures k in now.subs && Finishing(before, WithSub(now, k, Finished(now.subs[k])), todo - {k})
  {
  }

  /** What is left of an ending when everyone has been finished: the list goes. */
  function Emptied<K(==)>(s: State<K>): State<K> {
    s.(tape := s.tape.(ended := true),
       subs := map k | k in s.subs :: WhenDelisted(s.subs[k], false))
  }

  lemma FinishingEnds<K>(before: State<K>, now: State<K>, s: State<K>, drains: map<K, Drain>)
    requires Finishing(before, now, {}) && before == FlushedAll(s, true, drains)
    ensures Emptied(now) == StreamEnded(s, drains)
  {
  }
}
