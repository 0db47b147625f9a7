/** Viewer-owned geometry: whose statement the terminal's size follows, and
    that deferred settling gets it there. */
module Geometry {
  import opened Bytes
  import opened Terminal
  import opened Protocol
  import opened Delivery
  import opened Moves

  // ----- the newest standing statement ------------------------------------------------

  predicate Stands<K(==)>(st: Statement<K>, live: set<K>) {
    st.owner.None? || st.owner.value in live
  }

  /** The last standing statement is where it says it is. */
  lemma {:induction false} LastStandingAt<K>(said: History<K>, live: set<K>) returns (i: nat)
    ensures i < |said| && said[i] == LastStanding(said, live)
    ensures i == 0 || Stands(said[i], live)
    ensures forall j :: i < j < |said| ==> !Stands(said[j], live)
  {
    var last := said[|said| - 1];
    if |said| == 1 || Stands(last, live) {
      i := |said| - 1;
    } else {
      i := LastStandingAt(said[..|said| - 1], live);
    }
  }

  lemma {:induction false} LastStandingIs<K>(said: History<K>, live: set<K>, i: nat)
    requires i < |said| && Stands(said[i], live)
    requires forall j :: i < j < |said| ==> !Stands(said[j], live)
    ensures LastStanding(said, live) == said[i]
  {
    if i != |said| - 1 {
      LastStandingIs(said[..|said| - 1], live, i);
    }
  }

  lemma {:induction false} LastStandingAgrees<K>(said: History<K>, one: set<K>, other: set<K>)
    requires forall i :: 0 <= i < |said| ==> (Stands(said[i], one) <==> Stands(said[i], other))
    ensures LastStanding(said, one) == LastStanding(said, other)
  {
    if |said| > 1 {
      LastStandingAgrees(said[..|said| - 1], one, other);
    }
  }

  // ----- what the views record ----------------------------------------------------------

  /** A view is its owner's last statement, stamped with its place. */
  predicate Records<K(==)>(said: History<K>, owner: Option<K>, view: View) {
    && view.stamp < |said|
    && said[view.stamp] == Statement(owner, view.cols, view.rows)
    && forall j :: view.stamp < j < |said| ==> said[j].owner != owner
  }

  predicate Unretired<K(==)>(s: State<K>, k: K) {
    k in s.subs && s.subs[k].token.retired == 0
  }

  ghost predicate GeoOk<K>(s: State<K>) {
    && s.geo.viewSeq == |s.geo.said| - 1
    && s.geo.said[0].owner.None?
    && Records(s.geo.said, None, s.geo.base)
    && (forall k :: k in s.geo.views ==> Records(s.geo.said, Some(k), s.geo.views[k]) && Unretired(s, k) && s.subs[k].life.entered)
    && (forall i :: 0 <= i < |s.geo.said| && s.geo.said[i].owner.Some? ==>
          var k := s.geo.said[i].owner.value; k in s.subs && (k in s.geo.views <==> Unretired(s, k)))
  }

  /** `view` carries the greatest stamp among the base and the views. */
  predicate Newest<K(==)>(s: State<K>, view: View) {
    && (view == s.geo.base || view in s.geo.views.Values)
    && s.geo.base.stamp <= view.stamp
    && forall k :: k in s.geo.views ==> s.geo.views[k].stamp <= view.stamp
  }

  lemma NoLaterStatement<K>(s: State<K>, k: K, j: nat)
    requires GeoOk(s) && k in s.geo.views && j < |s.geo.said| && s.geo.said[j].owner == Some(k)
    ensures j <= s.geo.views[k].stamp
  {
  }

  /** Whatever order the views are looked at in, the greatest stamp names the
      last statement whose owner has not retired. */
  lemma NewestIsLastStanding<K>(s: State<K>, view: View)
    requires GeoOk(s) && Newest(s, view)
    ensures Effective(s).cols == view.cols && Effective(s).rows == view.rows
  {
    var live := s.geo.views.Keys;
    assert Stands(s.geo.said[view.stamp], live);
    forall j: nat | j < |s.geo.said| && Stands(s.geo.said[j], live)
      ensures j <= view.stamp
    {
      var owner := s.geo.said[j].owner;
      if owner.Some? {
        NoLaterStatement(s, owner.value, j);
      } else {
        assert j <= s.geo.base.stamp;
      }
    }
    LastStandingIs(s.geo.said, live, view.stamp);
  }

  /** The size the statements resolve to is the last word of everyone who has
      not retired, the base never retiring. */
  lemma EffectiveIgnoresTheRetired<K>(s: State<K>)
    requires GeoOk(s)
    ensures Effective(s) == LastStanding(s.geo.said, set k | k in s.subs && s.subs[k].token.retired == 0)
  {
    var live := set k | k in s.subs && s.subs[k].token.retired == 0;
    forall i | 0 <= i < |s.geo.said|
      ensures Stands(s.geo.said[i], s.geo.views.Keys) <==> Stands(s.geo.said[i], live)
    {
      if s.geo.said[i].owner.Some? {
        assert s.geo.said[i].owner.value in live <==> Unretired(s, s.geo.said[i].owner.value);
      }
    }
    LastStandingAgrees(s.geo.said, s.geo.views.Keys, live);
  }

  // ----- kept by every step ----------------------------------------------------------------

  /** A step that states nothing: whoever it retires loses their view, and
      nobody else does. */
  ghost predicate Continues<K>(s: State<K>, next: State<K>) {
    && next.geo.said == s.geo.said && next.geo.base == s.geo.base && next.geo.viewSeq == s.geo.viewSeq
    && s.subs.Keys <= next.subs.Keys
    && (forall k :: k in s.subs ==>
          next.subs[k].token.retired >= s.subs[k].token.retired && next.subs[k].life.entered == s.subs[k].life.entered)
    && (forall k :: k in next.geo.views ==> k in s.geo.views && next.geo.views[k] == s.geo.views[k])
    && (forall k :: k in s.geo.views && k in s.subs ==> (k in next.geo.views <==> next.subs[k].token.retired == 0))
  }

  lemma ContinuesGeo<K>(s: State<K>, next: State<K>)
    requires GeoOk(s) && Continues(s, next)
    ensures GeoOk(next)
  {
    forall i | 0 <= i < |s.geo.said| && s.geo.said[i].owner.Some?
      ensures var k := s.geo.said[i].owner.value; k in next.subs && (k in next.geo.views <==> Unretired(next, k))
    {
      var k := s.geo.said[i].owner.value;
      assert k in s.subs && (k in s.geo.views <==> Unretired(s, k));
    }
  }

  ghost predicate ListedUnretired<K>(s: State<K>) {
    forall k :: k in s.subs && s.subs[k].life.attached ==> s.subs[k].token.retired == 0
  }

  lemma BroadcastGeo<K>(s: State<K>, term: Term, m: Message)
    requires GeoOk(s) && ListedUnretired(s)
    ensures GeoOk(Broadcast(s.(term := term), m))
  {
    var next := Broadcast(s.(term := term), m);
    BroadcastShape(s.(term := term), m);
    BroadcastViews(s.(term := term), m);
    var laggards := Laggards(s.(term := term));
    assert next.geo.views == s.geo.views - laggards;
    forall k | k in s.subs
      ensures next.subs[k].token.retired >= s.subs[k].token.retired && next.subs[k].life.entered == s.subs[k].life.entered
      ensures k in s.geo.views ==> (k in next.geo.views <==> next.subs[k].token.retired == 0)
    {
      var sub := s.subs[k];
      DeliveredRetires(sub, m);
      assert next.subs[k] == if sub.life.attached then Delivered(sub, m) else sub;
      assert k in s.geo.views ==> Unretired(s, k);
    }
    ContinuesGeo(s, next);
  }

  lemma DeliveredRetires(sub: Sub, m: Message)
    ensures Delivered(sub, m).token.retired == sub.token.retired + Count(Drops(sub))
    ensures Delivered(sub, m).life.entered == sub.life.entered
  {
  }

  /** A broadcast withdraws exactly the statements of those it drops. */
  lemma BroadcastViews<K>(s: State<K>, m: Message)
    ensures var next := Broadcast(s, m);
      && next.geo.said == s.geo.said && next.geo.base == s.geo.base && next.geo.viewSeq == s.geo.viewSeq
      && next.exited == s.exited && next.closed == s.closed && next.term == s.term
      && next.geo.views == s.geo.views - Laggards(s)
      && next.geo.settles == s.geo.settles + |Laggards(s) * s.geo.views.Keys|
  {
  }

  /** Every statement a broadcast withdraws leaves a settle behind. */
  lemma BroadcastSettles<K>(s: State<K>, m: Message)
    ensures var next := Broadcast(s, m);
      && next.geo.settles + |next.geo.views| == s.geo.settles + |s.geo.views|
      && (next.geo.settles == s.geo.settles ==> next.geo.views == s.geo.views)
      && next.geo.settles >= s.geo.settles
  {
    BroadcastViews(s, m);
    ViewsWithout(s.geo.views, Laggards(s));
  }

  lemma ViewsWithout<K>(views: map<K, View>, gone: set<K>)
    ensures |gone * views.Keys| + |views - gone| == |views|
    ensures forall k :: k in views ==> (k in views - gone <==> k !in gone)
    ensures |gone * views.Keys| == 0 ==> views - gone == views
  {
    var kept := views - gone;
    assert kept.Keys == views.Keys - gone;
    assert views.Keys == (views.Keys - gone) + (gone * views.Keys);
    assert |kept| == |kept.Keys| && |views| == |views.Keys|;
  }

  lemma SizedGeo<K>(s: State<K>, accepted: bool)
    requires GeoOk(s) && ListedUnretired(s)
    ensures GeoOk(Sized(s, accepted))
  {
    var want := Effective(s);
    var moved := Moved(s.term, want.cols, want.rows);
    BroadcastGeo(s, moved, Repaint(Taken(moved)));
  }

  lemma StatedRecords<K>(said: History<K>, owner: Option<K>, view: View, st: Statement<K>)
    requires Records(said, owner, view) && st.owner != owner
    ensures Records(said + [st], owner, view)
  {
  }

  lemma ViewStatedGeo<K>(s: State<K>, k: K, cols: int, rows: int)
    requires GeoOk(s) && k in s.subs && s.subs[k].life.attached && s.subs[k].life.entered && s.subs[k].token.retired == 0
    ensures GeoOk(ViewStated(s, k, cols, rows))
  {
    var next := ViewStated(s, k, cols, rows);
    var st := Statement(Some(k), cols, rows);
    StatedRecords(s.geo.said, None, s.geo.base, st);
    forall j | j in next.geo.views
      ensures Records(next.geo.said, Some(j), next.geo.views[j]) && Unretired(next, j) && next.subs[j].life.entered
    {
      if j != k {
        StatedRecords(s.geo.said, Some(j), s.geo.views[j], st);
      }
    }
    forall i | 0 <= i < |next.geo.said| && next.geo.said[i].owner.Some?
      ensures var j := next.geo.said[i].owner.value; j in next.subs && (j in next.geo.views <==> Unretired(next, j))
    {
      if i < |s.geo.said| {
        assert next.geo.said[i] == s.geo.said[i];
      }
    }
  }

  lemma BaseStatedGeo<K>(s: State<K>, cols: int, rows: int)
    requires GeoOk(s)
    ensures GeoOk(BaseStated(s, cols, rows))
  {
    var next := BaseStated(s, cols, rows);
    var st: Statement<K> := Statement(None, cols, rows);
    forall j | j in next.geo.views
      ensures Records(next.geo.said, Some(j), next.geo.views[j])
    {
      StatedRecords(s.geo.said, Some(j), s.geo.views[j], st);
    }
    forall i | 0 <= i < |next.geo.said| && next.geo.said[i].owner.Some?
      ensures var j := next.geo.said[i].owner.value; j in next.subs && (j in next.geo.views <==> Unretired(next, j))
    {
      assert next.geo.said[i] == s.geo.said[i];
    }
  }

  lemma WithSubGeo<K>(s: State<K>, k: K, sub: Sub)
    requires GeoOk(s)
    requires k in s.subs ==> sub.token.retired == s.subs[k].token.retired && sub.life.entered == s.subs[k].life.entered
    ensures GeoOk(WithSub(s, k, sub))
  {
    forall j | j in s.geo.views
      ensures Unretired(s, j)
    {
    }
    ContinuesGeo(s, WithSub(s, k, sub));
  }

  lemma FlushedRetiresNobody(sub: Sub, state: Snapshot, force: bool, drain: Drain)
    ensures Flushed(sub, state, force, drain).token.retired == sub.token.retired
    ensures Flushed(sub, state, force, drain).life.entered == sub.life.entered
  {
    var next := Flushed(sub, state, force, drain);
    if !Owed(sub) {
      assert next == sub;
    } else if !Full(sub) {
      assert next == Resynced(Drained(sub, drain.before), state);
    } else if force {
      assert next == Resynced(Drained(Evicted(Drained(sub, drain.before)), drain.after), state);
    } else {
      assert next == sub;
    }
  }

  /** Steps that touch neither statements nor retirements. */
  lemma UntouchedGeo<K>(s: State<K>, next: State<K>)
    requires GeoOk(s)
    requires next.geo.said == s.geo.said && next.geo.base == s.geo.base && next.geo.viewSeq == s.geo.viewSeq && next.geo.views == s.geo.views
    requires next.subs.Keys == s.subs.Keys
    requires forall k :: k in s.subs ==>
      next.subs[k].token.retired == s.subs[k].token.retired && next.subs[k].life.entered == s.subs[k].life.entered
    ensures GeoOk(next)
  {
    forall k | k in s.geo.views
      ensures Unretired(s, k)
    {
    }
    ContinuesGeo(s, next);
  }

  lemma FlushedAllGeo<K>(s: State<K>, force: bool, drains: map<K, Drain>)
    requires GeoOk(s)
    ensures GeoOk(FlushedAll(s, force, drains))
  {
    var next := FlushedAll(s, force, drains);
    forall k | k in s.subs
      ensures next.subs[k].token.retired == s.subs[k].token.retired && next.subs[k].life.entered == s.subs[k].life.entered
    {
      FlushedRetiresNobody(s.subs[k], Taken(s.term), force, DrainOf(drains, k));
    }
    UntouchedGeo(s, next);
  }

  lemma StreamEndedGeo<K>(s: State<K>, drains: map<K, Drain>)
    requires GeoOk(s)
    ensures GeoOk(StreamEnded(s, drains))
  {
    FlushedAllGeo(s, true, drains);
    UntouchedGeo(FlushedAll(s, true, drains), StreamEnded(s, drains));
  }

  lemma SessionClosedGeo<K>(s: State<K>, drains: map<K, Drain>, stopped: bool)
    requires GeoOk(s)
    ensures GeoOk(SessionClosed(s, drains, stopped))
  {
    if !s.closed {
      FlushedAllGeo(s, true, drains);
      UntouchedGeo(FlushedAll(s, true, drains), SessionClosed(s, drains, stopped));
    }
  }

  lemma RetriedGeo<K>(s: State<K>, drains: map<K, Drain>)
    requires GeoOk(s) && s.retry.callbacks > 0
    ensures GeoOk(Retried(s, drains))
  {
    var fired := Fired(s);
    UntouchedGeo(s, fired);
    if !s.closed {
      FlushedAllGeo(fired, false, drains);
    }
  }

  lemma WithdrawnGeo<K>(s: State<K>, k: K)
    requires GeoOk(s) && k in s.subs
    ensures GeoOk(Withdrawn(s, k))
  {
    WithdrawnViews(s, k);
    var next := Withdrawn(s, k);
    forall j | j in s.geo.views
      ensures Unretired(s, j)
    {
    }
    ContinuesGeo(s, next);
  }

  lemma WithdrawnViews<K>(s: State<K>, k: K)
    requires k in s.subs
    ensures var next := Withdrawn(s, k);
      && next.geo.said == s.geo.said && next.geo.base == s.geo.base && next.geo.viewSeq == s.geo.viewSeq
      && next.subs == s.subs[k := Retired(s.subs[k])]
      && next.geo.views == s.geo.views - {k}
      && next.geo.settles + |next.geo.views| == s.geo.settles + |s.geo.views|
      && (next.geo.settles == 0 ==> next.geo.views == s.geo.views)
  {
    ViewsWithout(s.geo.views, {k});
    if k in s.geo.views {
      assert {k} * s.geo.views.Keys == {k};
    } else {
      assert s.geo.views - {k} == s.geo.views;
    }
  }

  lemma IntroducedGeo<K>(s: State<K>, k: K, cols: int, rows: int, accepted: bool)
    requires GeoOk(s) && ListedUnretired(s)
    requires k in s.subs && s.subs[k].life.attached && s.subs[k].life.entered
    ensures GeoOk(Introduced(s, k, cols, rows, accepted))
  {
    assert s.subs[k].token.retired == 0;
    ViewStatedGeo(s, k, cols, rows);
    var stated := ViewStated(s, k, cols, rows);
    assert stated.subs == s.subs;
    SizedGeo(stated, accepted);
    var sized := Sized(stated, accepted);
    SizedKeepsKeys(stated, accepted);
    SeededGeo(sized, k);
    assert Introduced(s, k, cols, rows, accepted) == Seeded(sized, k);
  }

  lemma SizedKeepsKeys<K>(s: State<K>, accepted: bool)
    ensures Sized(s, accepted).subs.Keys == s.subs.Keys
  {
  }

  lemma SeededGeo<K>(s: State<K>, k: K)
    requires GeoOk(s) && k in s.subs
    ensures GeoOk(Seeded(s, k))
  {
    WithSubGeo(s, k, s.subs[k].(seed := Taken(s.term)));
  }

  lemma AttachedGeo<K>(s: State<K>, k: K, buffer: int, resync: bool, cols: int, rows: int, accepted: bool)
    requires GeoOk(s) && ListedUnretired(s) && k !in s.subs
    ensures GeoOk(Attached(s, k, buffer, resync, cols, rows, accepted))
  {
    var sub := NewSub(buffer, resync, Taken(s.term), |s.tape.log|);
    WithSubGeo(s, k, SpentSub(buffer, resync, Taken(s.term), |s.tape.log|));
    WithSubGeo(s, k, sub);
    if !s.exited && !s.closed && IsSize(cols, rows) {
      IntroducedGeo(WithSub(s, k, sub), k, cols, rows, accepted);
    }
  }

  lemma ListedAreUnretired<K>(s: State<K>)
    requires Inv(s)
    ensures ListedUnretired(s)
  {
  }

  lemma NewcomerKeeps<K>(s: State<K>, k: K, buffer: int, resync: bool)
    requires GeoOk(s) && Inv(s) && k !in s.subs && !s.closed
    ensures var next := WithSub(s, k, NewSub(buffer, resync, Taken(s.term), |s.tape.log|));
      GeoOk(next) && Inv(next)
  {
    var sub := NewSub(buffer, resync, Taken(s.term), |s.tape.log|);
    NewSubFits(buffer, resync, Taken(s.term), s.tape.log, s.retry.timer, s.tape.ended, s.closed);
    WithSubOk(s, k, sub);
    WithSubGeo(s, k, sub);
  }

  lemma WrittenGeo<K>(s: State<K>, chunk: seq<byte>)
    requires GeoOk(s) && ListedUnretired(s)
    ensures GeoOk(Written(s, chunk))
  {
    var recorded := Recorded(s, chunk);
    UntouchedGeo(s, recorded);
    BroadcastGeo(recorded, Printed(s.term, chunk), Output(chunk));
  }

  lemma BaseSizedGeo<K>(s: State<K>, cols: int, rows: int, accepted: bool)
    requires GeoOk(s) && ListedUnretired(s)
    ensures GeoOk(BaseSized(s, cols, rows, accepted))
  {
    BaseStatedGeo(s, cols, rows);
    SizedGeo(BaseStated(s, cols, rows), accepted);
  }

  lemma StatesViewGeo<K>(s: State<K>, k: K, cols: int, rows: int)
    requires GeoOk(s) && Inv(s) && k in s.subs && s.subs[k].life.attached
    ensures GeoOk(ViewStated(s, k, cols, rows))
  {
    assert SubOk(s.subs[k]);
    ViewStatedGeo(s, k, cols, rows);
  }

  lemma ViewSizedGeo<K>(s: State<K>, k: K, cols: int, rows: int, accepted: bool)
    requires GeoOk(s) && Inv(s)
    ensures GeoOk(ViewSized(s, k, cols, rows, accepted))
  {
    ListedAreUnretired(s);
    if IsSize(cols, rows) && k in s.subs && s.subs[k].life.attached {
      StatesViewGeo(s, k, cols, rows);
      SizedGeo(ViewStated(s, k, cols, rows), accepted);
    }
  }

  lemma SettledGeo<K>(s: State<K>, accepted: bool)
    requires GeoOk(s) && ListedUnretired(s) && s.geo.settles > 0
    ensures GeoOk(Settled(s, accepted))
  {
    var woken := Woken(s);
    UntouchedGeo(s, woken);
    SizedGeo(woken, accepted);
  }

  lemma SubStepGeo<K>(s: State<K>, l: Label<K>)
    requires GeoOk(s) && Enabled(s, l) && (l.Receive? || l.CloseSub? || l.RetireSub? || l.FinishOrphan? || l.Exit?)
    ensures GeoOk(Next(s, l))
  {
    match l
    case Receive(k) => WithSubGeo(s, k, Drained(s.subs[k], 1));
    case CloseSub(k) => WithSubGeo(s, k, Shut(s.subs[k]));
    case RetireSub(k) => WithdrawnGeo(s, k);
    case FinishOrphan(k) => WithSubGeo(s, k, Claimed(Finished(s.subs[k])));
    case Exit => UntouchedGeo(s, s.(exited := true));
  }

  lemma SizeStepGeo<K>(s: State<K>, l: Label<K>)
    requires GeoOk(s) && Inv(s) && Enabled(s, l) && (l.Attach? || l.SetBase? || l.SetView? || l.Settle?)
    ensures GeoOk(Next(s, l))
  {
    ListedAreUnretired(s);
    match l
    case Attach(k, buffer, resync, cols, rows, accepted) => AttachedGeo(s, k, buffer, resync, cols, rows, accepted);
    case SetBase(cols, rows, accepted) => BaseSizedGeo(s, cols, rows, accepted);
    case SetView(k, cols, rows, accepted) => ViewSizedGeo(s, k, cols, rows, accepted);
    case Settle(accepted) => SettledGeo(s, accepted);
  }

  lemma StreamStepGeo<K>(s: State<K>, l: Label<K>)
    requires GeoOk(s) && Inv(s) && Enabled(s, l)
    requires l.Write? || l.FlushRemnant? || l.EndStream? || l.CloseSession? || l.RetryFires?
    ensures GeoOk(Next(s, l))
  {
    ListedAreUnretired(s);
    match l
    case Write(chunk) => WrittenGeo(s, chunk);
    case FlushRemnant(chunk) =>
      WrittenGeo(s, chunk);
      UntouchedGeo(Written(s, chunk), Draining(Written(s, chunk)));
    case EndStream(drains) => StreamEndedGeo(s, drains);
    case CloseSession(drains, stopped) => SessionClosedGeo(s, drains, stopped);
    case RetryFires(drains) => RetriedGeo(s, drains);
  }

  lemma GeoStep<K>(s: State<K>, l: Label<K>)
    requires GeoOk(s) && Inv(s) && Enabled(s, l)
    ensures GeoOk(Next(s, l))
  {
    if l.Write? || l.FlushRemnant? || l.EndStream? || l.CloseSession? || l.RetryFires? {
      StreamStepGeo(s, l);
    } else if l.Attach? || l.SetBase? || l.SetView? || l.Settle? {
      SizeStepGeo(s, l);
    } else {
      SubStepGeo(s, l);
    }
  }

  lemma StepSafe<K>(s: State<K>, l: Label<K>, next: State<K>)
    requires Inv(s) && GeoOk(s) && Enabled(s, l) && next == Next(s, l)
    ensures Inv(next) && GeoOk(next)
  {
    InvStep(s, l);
    GeoStep(s, l);
  }

  lemma {:induction false} GeoAlways<K>(cols: int, rows: int, run: seq<Label<K>>)
    ensures GeoOk(Exec(Init<K>(cols, rows), run))
  {
    if run != [] {
      var before := Exec(Init<K>(cols, rows), run[..|run| - 1]);
      GeoAlways(cols, rows, run[..|run| - 1]);
      InvAlways(cols, rows, run[..|run| - 1]);
      if Enabled(before, run[|run| - 1]) {
        GeoStep(before, run[|run| - 1]);
      }
    }
  }

  /** In every reachable state, the greatest stamp, in whatever order the views
      are looked at, names the last statement in history once the statements of
      everyone retired are struck out; and until the stream ends, everyone with
      a statement is attached. */
  lemma NewestStatementWins<K>(cols: int, rows: int, run: seq<Label<K>>, s: State<K>, view: View)
    requires Reaches(cols, rows, run, s)
    ensures Newest(s, view) ==>
      var word := LastStanding(s.geo.said, set k | k in s.subs && s.subs[k].token.retired == 0);
      view.cols == word.cols && view.rows == word.rows
    ensures !s.tape.ended && !s.closed ==> forall k :: k in s.geo.views ==> k in s.subs && s.subs[k].life.attached
  {
    GeoAlways(cols, rows, run);
    InvAlways(cols, rows, run);
    if Newest(s, view) {
      NewestIsLastStanding(s, view);
      EffectiveIgnoresTheRetired(s);
    }
    forall k | k in s.geo.views && !s.tape.ended && !s.closed
      ensures k in s.subs && s.subs[k].life.attached
    {
      assert Unretired(s, k) && s.subs[k].life.entered;
      assert Fits(s.subs[k], s.tape.log, s.retry.timer, s.tape.ended, s.closed);
    }
  }

  // ----- settling --------------------------------------------------------------------------

  predicate Fitted<K(==)>(s: State<K>) {
    s.term.cols == Effective(s).cols && s.term.rows == Effective(s).rows
  }

  /** The terminal has the size the statements resolve to, or a settle is
      pending that will see to it. */
  predicate Settling<K(==)>(s: State<K>) {
    s.exited || s.closed || s.geo.settles > 0 || Fitted(s)
  }

  /** The PTY takes every size it is given. */
  predicate Accepting<K(==)>(l: Label<K>) {
    l.Attach? || l.SetBase? || l.SetView? || l.Settle? ==> l.accepted
  }

  lemma SizedFits<K>(s: State<K>)
    ensures Sized(s, true).geo.settles > 0 || Fitted(Sized(s, true))
    ensures Sized(s, true).exited == s.exited && Sized(s, true).closed == s.closed
  {
    var want := Effective(s);
    var moved := s.(term := Moved(s.term, want.cols, want.rows));
    BroadcastViews(moved, Repaint(Taken(moved.term)));
    BroadcastSettles(moved, Repaint(Taken(moved.term)));
  }

  lemma {:induction false} FedKeepsSize(t: Term, bytes: seq<byte>)
    ensures Fed(t, bytes).cols == t.cols && Fed(t, bytes).rows == t.rows
  {
    if bytes != [] {
      FedKeepsSize(t, bytes[..|bytes| - 1]);
    }
  }

  lemma WrittenSettles<K>(s: State<K>, chunk: seq<byte>)
    requires Settling(s)
    ensures Settling(Written(s, chunk))
    ensures Written(s, chunk).geo.settles + |Written(s, chunk).geo.views| == s.geo.settles + |s.geo.views|
  {
    var fed := Recorded(s.(term := Printed(s.term, chunk)), chunk);
    FedKeepsSize(s.term, chunk);
    BroadcastViews(fed, Output(chunk));
    BroadcastSettles(fed, Output(chunk));
  }

  lemma StreamStepSettles<K>(s: State<K>, l: Label<K>)
    requires Settling(s) && Enabled(s, l)
    requires l.Write? || l.FlushRemnant? || l.EndStream? || l.CloseSession? || l.RetryFires?
    ensures Settling(Next(s, l))
    ensures Next(s, l).geo.settles + |Next(s, l).geo.views| == s.geo.settles + |s.geo.views|
  {
    match l
    case Write(chunk) => WrittenSettles(s, chunk);
    case FlushRemnant(chunk) => WrittenSettles(s, chunk);
    case _ =>
  }

  lemma AttachedSettles<K>(s: State<K>, k: K, buffer: int, resync: bool, cols: int, rows: int)
    requires Settling(s) && k !in s.subs
    ensures Settling(Attached(s, k, buffer, resync, cols, rows, true))
  {
    var listed := WithSub(s, k, NewSub(buffer, resync, Taken(s.term), |s.tape.log|));
    if !s.exited && !s.closed && IsSize(cols, rows) {
      SizedFits(ViewStated(listed, k, cols, rows));
    }
  }

  lemma BaseSizedSettles<K>(s: State<K>, cols: int, rows: int)
    requires Settling(s)
    ensures Settling(BaseSized(s, cols, rows, true))
  {
    SizedFits(BaseStated(s, cols, rows));
  }

  lemma ViewSizedSettles<K>(s: State<K>, k: K, cols: int, rows: int)
    requires Settling(s)
    ensures Settling(ViewSized(s, k, cols, rows, true))
  {
    SizedFits(ViewStated(s, k, cols, rows));
  }

  lemma SettledSettles<K>(s: State<K>)
    requires s.geo.settles > 0
    ensures Settling(Settled(s, true))
  {
    SizedFits(Woken(s));
  }

  lemma SubStepSettles<K>(s: State<K>, l: Label<K>)
    requires Settling(s) && Enabled(s, l)
    requires l.Receive? || l.CloseSub? || l.RetireSub? || l.FinishOrphan? || l.Exit?
    ensures Settling(Next(s, l))
    ensures Next(s, l).geo.settles + |Next(s, l).geo.views| == s.geo.settles + |s.geo.views|
  {
    if l.RetireSub? {
      WithdrawnViews(s, l.sub);
    }
  }

  lemma StepSettles<K>(s: State<K>, l: Label<K>)
    requires Settling(s) && Enabled(s, l) && Accepting(l)
    ensures Settling(Next(s, l))
  {
    match l
    case Attach(k, buffer, resync, cols, rows, _) => AttachedSettles(s, k, buffer, resync, cols, rows);
    case SetBase(cols, rows, _) => BaseSizedSettles(s, cols, rows);
    case SetView(k, cols, rows, _) => ViewSizedSettles(s, k, cols, rows);
    case Settle(_) => SettledSettles(s);
    case _ =>
      if l.Write? || l.FlushRemnant? || l.EndStream? || l.CloseSession? || l.RetryFires? {
        StreamStepSettles(s, l);
      } else {
        SubStepSettles(s, l);
      }
  }

  /** In every reachable state of a live session whose PTY accepts sizes, the
      terminal fits the statements or is about to. */
  lemma {:induction false} AlwaysSettling<K>(cols: int, rows: int, run: seq<Label<K>>)
    requires forall i :: 0 <= i < |run| ==> Accepting(run[i])
    ensures Settling(Exec(Init<K>(cols, rows), run))
  {
    if run != [] {
      var before := Exec(Init<K>(cols, rows), run[..|run| - 1]);
      AlwaysSettling(cols, rows, run[..|run| - 1]);
      if Enabled(before, run[|run| - 1]) {
        StepSettles(before, run[|run| - 1]);
      }
    }
  }

  /** What bounds the settles still to come: those pending, and one for each
      statement that could yet be withdrawn. */
  function Budget<K(==)>(s: State<K>): nat {
    s.geo.settles + |s.geo.views|
  }

  predicate StatesNothing<K(==)>(l: Label<K>) {
    && !((l.SetBase? || l.SetView?) && IsSize(l.cols, l.rows))
    && !(l.Attach? && IsSize(l.cols, l.rows))
  }

  lemma SettledSpends<K>(s: State<K>, accepted: bool)
    requires s.geo.settles > 0
    ensures Budget(Settled(s, accepted)) == Budget(s) - 1
    ensures Settled(s, accepted).geo.said == s.geo.said
    ensures Settled(s, accepted).exited == s.exited && Settled(s, accepted).closed == s.closed
  {
    var woken := Woken(s);
    var want := Effective(woken);
    var moved := woken.(term := Moved(s.term, want.cols, want.rows));
    BroadcastViews(moved, Repaint(Taken(moved.term)));
    BroadcastSettles(moved, Repaint(Taken(moved.term)));
  }

  /** Without new statements the budget never grows, and every settle spends
      one of it, even when its own repaint drops viewers and so spawns more. */
  lemma BudgetStep<K>(s: State<K>, l: Label<K>)
    requires Enabled(s, l) && StatesNothing(l)
    ensures Budget(Next(s, l)) == if l.Settle? then Budget(s) - 1 else Budget(s)
  {
    match l
    case Settle(accepted) => SettledSpends(s, accepted);
    case Write(chunk) => WrittenSpends(s, chunk);
    case FlushRemnant(chunk) => WrittenSpends(s, chunk);
    case RetireSub(k) => WithdrawnViews(s, k);
    case _ =>
  }

  lemma WrittenSpends<K>(s: State<K>, chunk: seq<byte>)
    ensures Budget(Written(s, chunk)) == Budget(s)
  {
  }

  function SettleCount<K(==)>(s: State<K>, run: seq<Label<K>>): nat {
    if run == [] then 0
    else
      var before, l := Exec(s, run[..|run| - 1]), run[|run| - 1];
      SettleCount(s, run[..|run| - 1]) + if l.Settle? && Enabled(before, l) then 1 else 0
  }

  /** So among any other activity, at most that many settles ever run. */
  lemma {:induction false} SettlesAreBounded<K>(s: State<K>, run: seq<Label<K>>)
    requires forall i :: 0 <= i < |run| ==> StatesNothing(run[i])
    ensures SettleCount(s, run) + Budget(Exec(s, run)) == Budget(s)
  {
    if run != [] {
      var before, l := Exec(s, run[..|run| - 1]), run[|run| - 1];
      SettlesAreBounded(s, run[..|run| - 1]);
      if Enabled(before, l) {
        BudgetStep(before, l);
      }
    }
  }

  /** The pending settles, run one after another. */
  function AllSettled<K(==)>(s: State<K>): State<K>
    decreases Budget(s)
  {
    if s.geo.settles == 0 then s
    else
      SettledSpends(s, true);
      AllSettled(Settled(s, true))
  }

  /** They end, with the terminal at the size the statements resolve to. */
  lemma {:induction false} SettlesEndFitted<K>(s: State<K>)
    requires Settling(s) && !s.exited && !s.closed
    ensures var end := AllSettled(s);
      end.geo.settles == 0 && Fitted(end) && end.geo.said == s.geo.said
    decreases Budget(s)
  {
    if s.geo.settles > 0 {
      SettledSpends(s, true);
      SettledSettles(s);
      SettlesEndFitted(Settled(s, true));
    }
  }
}
