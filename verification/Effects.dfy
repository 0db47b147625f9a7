/** What every step of the protocol does, field by field. */
module Effects {
  import opened Bytes
  import opened Terminal
  import opened Protocol
  import opened Geometry
  import opened Delivery
  import opened Moves
  import Tracking

  // ----- one subscription -----------------------------------------------------------------

  /** A full queue costs a subscriber that is not in debt its place... */
  predicate Crowded(sub: Sub) {
    sub.life.attached && !sub.life.done && !sub.missed && |sub.chan.queue| >= sub.chan.capacity
  }

  /** ...and what is sent to it is either queued, or drops it, or puts it in debt;
      the others are not spoken to. */
  predicate Hears(sub: Sub, m: Message, after: Sub) {
    if !sub.life.attached || sub.life.done || sub.missed then after == sub
    else if !Crowded(sub) then after == sub.(chan := sub.chan.(queue := sub.chan.queue + [m]))
    else if sub.resync then after == sub.(missed := true)
    else after == sub.(chan := sub.chan.(closes := sub.chan.closes + 1),
                       life := sub.life.(lagged := true, done := true, attached := false),
                       token := sub.token.(retire := false, retired := sub.token.retired + 1))
  }

  function Least(m: nat, n: nat): nat {
    if m <= n then m else n
  }

  /** A debt is paid if there is room, or if it must be: then the oldest message
      still queued goes, if there is one. The consumer receives all the while. */
  predicate Paid(sub: Sub, state: Snapshot, force: bool, drain: Drain, after: Sub) {
    if !sub.life.attached || sub.life.done || !sub.missed then after == sub
    else
      var i := Least(drain.before, |sub.chan.queue|);
      var taken, left := sub.chan.taken + sub.chan.queue[..i], sub.chan.queue[i..];
      if |sub.chan.queue| < sub.chan.capacity then
        after == sub.(missed := false, chan := sub.chan.(taken := taken, queue := left + [Resync(state)]))
      else if !force then after == sub
      else
        var kept := if left == [] then [] else left[1..];
        var j := Least(drain.after, |kept|);
        after == sub.(missed := false, chan := sub.chan.(taken := taken + kept[..j], queue := kept[j..] + [Resync(state)]))
  }

  lemma DeliveredIsHeard(sub: Sub, m: Message)
    ensures Hears(sub, m, if sub.life.attached then Delivered(sub, m) else sub)
  {
  }

  lemma FlushedIsPaid(sub: Sub, state: Snapshot, force: bool, drain: Drain)
    ensures Paid(sub, state, force, drain, if sub.life.attached then Flushed(sub, state, force, drain) else sub)
  {
    if sub.life.attached && Owed(sub) && Full(sub) && force {
      EvictedPays(sub, state, drain);
    }
  }

  lemma EvictedPays(sub: Sub, state: Snapshot, drain: Drain)
    requires sub.life.attached && Owed(sub) && Full(sub)
    ensures Paid(sub, state, true, drain, Resynced(Drained(Evicted(Drained(sub, drain.before)), drain.after), state))
  {
    var first := Drained(sub, drain.before);
    var evicted := Evicted(first);
    assert evicted.chan.queue == if first.chan.queue == [] then [] else first.chan.queue[1..];
  }

  // ----- broadcasts ---------------------------------------------------------------------------

  /** A message reaches everyone listed, and nobody else. */
  ghost predicate Reached<K>(s: State<K>, m: Message, next: State<K>) {
    next.subs.Keys == s.subs.Keys && forall k :: k in s.subs ==> Hears(s.subs[k], m, next.subs[k])
  }

  /** Those it drops take their statements with them, and leave settles behind. */
  ghost predicate Withdraws<K>(s: State<K>, next: State<K>) {
    && next.geo.said == s.geo.said && next.geo.base == s.geo.base && next.geo.viewSeq == s.geo.viewSeq
    && next.geo.views.Keys == s.geo.views.Keys - (set k | k in s.subs && Crowded(s.subs[k]) && !s.subs[k].resync)
    && (forall k :: k in next.geo.views ==> next.geo.views[k] == s.geo.views[k])
    && next.geo.settles + |next.geo.views| == s.geo.settles + |s.geo.views|
  }

  /** A new debt has a retry coming, and never a second one. */
  ghost predicate Arms<K>(s: State<K>, next: State<K>) {
    next.retry == if !s.closed && !s.retry.timer && exists k :: k in s.subs && Crowded(s.subs[k]) && s.subs[k].resync
                  then Retry(true, s.retry.callbacks + 1) else s.retry
  }

  ghost predicate Spreads<K>(s: State<K>, m: Message, next: State<K>) {
    && Reached(s, m, next) && Withdraws(s, next) && Arms(s, next)
    && next.tape == s.tape.(log := s.tape.log + [m])
    && next.term == s.term && next.exited == s.exited && next.closed == s.closed
  }

  lemma BroadcastReaches<K>(s: State<K>, m: Message)
    ensures Reached(s, m, Broadcast(s, m))
  {
    BroadcastShape(s, m);
    forall k | k in s.subs
      ensures Hears(s.subs[k], m, Broadcast(s, m).subs[k])
    {
      DeliveredIsHeard(s.subs[k], m);
    }
  }

  lemma LaggardsAreCrowded<K>(s: State<K>)
    ensures Laggards(s) == set k | k in s.subs && Crowded(s.subs[k]) && !s.subs[k].resync
  {
  }

  lemma BroadcastWithdraws<K>(s: State<K>, m: Message)
    ensures Withdraws(s, Broadcast(s, m))
  {
    BroadcastViews(s, m);
    BroadcastSettles(s, m);
    LaggardsAreCrowded(s);
  }

  lemma BroadcastArms<K>(s: State<K>, m: Message)
    ensures Arms(s, Broadcast(s, m))
  {
    if k :| k in s.subs && s.subs[k].life.attached && FallsBehind(s.subs[k]) {
      assert Crowded(s.subs[k]) && s.subs[k].resync;
    }
    if k :| k in s.subs && Crowded(s.subs[k]) && s.subs[k].resync {
      assert s.subs[k].life.attached && FallsBehind(s.subs[k]);
    }
  }

  lemma BroadcastLogs<K>(s: State<K>, m: Message)
    ensures var next := Broadcast(s, m);
      && next.tape == s.tape.(log := s.tape.log + [m])
      && next.term == s.term && next.exited == s.exited && next.closed == s.closed
  {
  }

  lemma BroadcastSpreads<K>(s: State<K>, m: Message)
    ensures Spreads(s, m, Broadcast(s, m))
  {
    BroadcastReaches(s, m);
    BroadcastWithdraws(s, m);
    BroadcastArms(s, m);
    BroadcastLogs(s, m);
  }

  lemma SpreadsDraining<K>(s: State<K>, m: Message, next: State<K>)
    requires Spreads(s, m, next)
    ensures Spreads(s.(tape := s.tape.(draining := true)), m, Draining(next))
  {
  }

  /** A write, of a chunk or of the remnant. */
  lemma WriteEffect<K>(s: State<K>, l: Label<K>, next: State<K>)
    requires Steps(s, l, next) && (l.Write? || l.FlushRemnant?)
    ensures var fed := Fed(s.term, l.chunk).(modes := Tracking.Observed(s.term.modes, l.chunk));
      Spreads(s.(term := fed, tape := s.tape.(writes := s.tape.writes + [l.chunk], draining := s.tape.draining || l.FlushRemnant?)),
              Output(l.chunk), next)
  {
    var before := Recorded(s.(term := Printed(s.term, l.chunk)), l.chunk);
    BroadcastSpreads(before, Output(l.chunk));
    if l.FlushRemnant? {
      SpreadsDraining(before, Output(l.chunk), Broadcast(before, Output(l.chunk)));
      assert next == Draining(Written(s, l.chunk));
    } else {
      assert next == Written(s, l.chunk);
    }
  }

  // ----- sizes ----------------------------------------------------------------------------------

  /** The terminal moves to this size, tells everyone, and keeps what its parser
      holds; unless it has that size, or the PTY refuses. */
  ghost predicate Relocates<K>(s: State<K>, cols: int, rows: int, accepted: bool, next: State<K>) {
    if !accepted || (cols == s.term.cols && rows == s.term.rows) then next == s
    else
      var screen := Rewrapped(s.term.screen, cols, rows);
      var modes := s.term.modes.(top := 0, bottom := 0, left := 0, right := 0);
      Spreads(s.(term := Term(cols, rows, screen, s.term.partial, modes)),
              Repaint(Snapshot(cols, rows, screen, modes)), next)
  }

  lemma SizedRelocates<K>(s: State<K>, cols: int, rows: int, accepted: bool)
    requires Effective(s).cols == cols && Effective(s).rows == rows
    ensures Relocates(s, cols, rows, accepted, Sized(s, accepted))
  {
    var moved := Moved(s.term, cols, rows);
    BroadcastSpreads(s.(term := moved), Repaint(Taken(moved)));
  }

  /** The base states a size. */
  lemma SetBaseEffect<K>(s: State<K>, cols: int, rows: int, accepted: bool, next: State<K>)
    requires Steps(s, SetBase(cols, rows, accepted), next)
    ensures cols < 2 || rows < 2 ==> next == s
    ensures cols >= 2 && rows >= 2 ==>
      Relocates(s.(geo := s.geo.(viewSeq := s.geo.viewSeq + 1,
                                 base := View(cols, rows, s.geo.viewSeq + 1),
                                 said := s.geo.said + [Statement(None, cols, rows)])),
                cols, rows, accepted, next)
  {
    var stated := BaseStated(s, cols, rows);
    assert Effective(stated) == Statement(None, cols, rows);
    SizedRelocates(stated, cols, rows, accepted);
  }

  /** A viewer's statement is its view, under the next stamp, and part of the record. */
  function Stating<K(==)>(s: State<K>, k: K, cols: int, rows: int): State<K> {
    s.(geo := s.geo.(viewSeq := s.geo.viewSeq + 1,
                     views := s.geo.views[k := View(cols, rows, s.geo.viewSeq + 1)],
                     said := s.geo.said + [Statement(Some(k), cols, rows)]))
  }

  /** A viewer states one, unless it is no longer listed. */
  lemma SetViewEffect<K>(s: State<K>, k: K, cols: int, rows: int, accepted: bool, next: State<K>)
    requires Steps(s, SetView(k, cols, rows, accepted), next)
    ensures cols < 2 || rows < 2 || !s.subs[k].life.attached ==> next == s
    ensures cols >= 2 && rows >= 2 && s.subs[k].life.attached ==>
      Relocates(Stating(s, k, cols, rows), cols, rows, accepted, next)
  {
    ViewStatedRelocates(s, k, cols, rows, accepted);
  }

  lemma ViewStatedRelocates<K>(s: State<K>, k: K, cols: int, rows: int, accepted: bool)
    ensures Relocates(Stating(s, k, cols, rows), cols, rows, accepted, Sized(ViewStated(s, k, cols, rows), accepted))
  {
    var stated := ViewStated(s, k, cols, rows);
    assert stated == Stating(s, k, cols, rows);
    assert k in stated.geo.views.Keys;
    assert Effective(stated) == Statement(Some(k), cols, rows);
    SizedRelocates(stated, cols, rows, accepted);
  }

  /** A settle, while the session lives, moves the terminal to the newest
      statement there is; otherwise it does nothing. */
  lemma SettleEffect<K>(s: State<K>, accepted: bool, next: State<K>)
    requires Steps(s, Settle(accepted), next) && GeoOk(s)
    ensures var woken := s.(geo := s.geo.(settles := s.geo.settles - 1));
      if s.exited || s.closed then next == woken
      else forall view :: Newest(s, view) ==> Relocates(woken, view.cols, view.rows, accepted, next)
  {
    var woken := Woken(s);
    UntouchedGeo(s, woken);
    if !s.exited && !s.closed {
      forall view | Newest(s, view)
        ensures Relocates(woken, view.cols, view.rows, accepted, next)
      {
        assert Newest(woken, view);
        NewestIsLastStanding(woken, view);
        SizedRelocates(woken, view.cols, view.rows, accepted);
      }
    }
  }

  // ----- attaching --------------------------------------------------------------------------------

  function Room(buffer: int): nat {
    if buffer <= 0 then 64 else buffer
  }

  /** Someone new on a session whose program has exited, or that is closed: finished
      from the start, with nothing sent, listed nowhere and stating nothing. */
  function Latecomer(s: Snapshot, since: nat, buffer: int, resync: bool): Sub {
    Sub(resync, s, since, false, Chan(Room(buffer), [], [], 1),
        Life(true, false, false, false, false, false), Token(false, false, 0))
  }

  /** Someone new on a live session: listed, with an open channel, and holding what
      will withdraw their statement. */
  function Newcomer(s: Snapshot, since: nat, buffer: int, resync: bool): Sub {
    Sub(resync, s, since, false, Chan(Room(buffer), [], [], 0),
        Life(false, false, true, false, true, false), Token(true, false, 0))
  }

  function Joined<K(==)>(s: State<K>, l: Label<K>): State<K>
    requires l.Attach?
  {
    s.(subs := s.subs[l.sub := Newcomer(Seen(s.term), |s.tape.log|, l.buffer, l.resync)])
  }

  function Seen(t: Term): Snapshot {
    Snapshot(t.cols, t.rows, t.screen, t.modes)
  }

  /** An attach lists a newcomer exactly if the session lives; only then may it state
      a size, and the state it is handed is taken after that. */
  lemma AttachEffect<K>(s: State<K>, l: Label<K>, next: State<K>) returns (moved: State<K>)
    requires Steps(s, l, next) && l.Attach?
    ensures s.exited || s.closed ==>
      next == s.(subs := s.subs[l.sub := Latecomer(Seen(s.term), |s.tape.log|, l.buffer, l.resync)])
    ensures !s.exited && !s.closed ==>
      var listed := Joined(s, l);
      if l.cols < 2 || l.rows < 2 then next == listed
      else
        Relocates(Stating(listed, l.sub, l.cols, l.rows), l.cols, l.rows, l.accepted, moved) && Reseeded(moved, l.sub, next)
  {
    var listed := WithSub(s, l.sub, NewSub(l.buffer, l.resync, Taken(s.term), |s.tape.log|));
    moved := Sized(ViewStated(listed, l.sub, l.cols, l.rows), l.accepted);
    if !s.exited && !s.closed && IsSize(l.cols, l.rows) {
      ViewStatedRelocates(listed, l.sub, l.cols, l.rows, l.accepted);
      SizedKeepsKeys(ViewStated(listed, l.sub, l.cols, l.rows), l.accepted);
      assert Reseeded(moved, l.sub, next);
    }
  }

  /** The state handed back is the terminal's own. */
  ghost predicate Reseeded<K>(s: State<K>, k: K, next: State<K>) {
    k in s.subs && next == s.(subs := s.subs[k := s.subs[k].(seed := Seen(s.term))])
  }

  /** Whoever attaches after the program has exited, or the session has closed, is
      done from the start and stays so, and is never listed nor sent anything. */
  lemma {:induction false} LateAttachIsDone<K>(s: State<K>, l: Label<K>, joined: State<K>, later: seq<Label<K>>)
    requires Steps(s, l, joined) && l.Attach? && (s.exited || s.closed)
    ensures var last := Exec(joined, later);
      && l.sub in last.subs
      && var sub := last.subs[l.sub];
         sub.life.done && !sub.life.attached && !sub.life.lagged && sub.chan.taken == [] && sub.chan.queue == []
  {
    var _ := AttachEffect(s, l, joined);
    if later != [] {
      var before, step := Exec(joined, later[..|later| - 1]), later[|later| - 1];
      LateAttachIsDone(s, l, joined, later[..|later| - 1]);
      if Enabled(before, step) {
        var move := StepMove(before, step, l.sub);
        DoneIsFinal(before.subs[l.sub], move, Taken(before.term));
      }
    }
  }

  lemma DoneIsFinal(sub: Sub, move: Move, state: Snapshot)
    requires sub.life.done && !sub.life.attached && !sub.life.lagged && sub.chan.taken == [] && sub.chan.queue == []
    requires !move.Deliver? && !move.Flush? && !move.Leave? && !move.Strand?
    ensures var after := Made(sub, move, state);
      after.life.done && !after.life.attached && !after.life.lagged && after.chan.taken == [] && after.chan.queue == []
  {
  }

  // ----- whose size it is ---------------------------------------------------------------------------

  /** The statement carries a stamp above all others. */
  ghost predicate StatedLast<K>(geo: Geo<K>, owner: Option<K>, cols: int, rows: int) {
    && (owner.None? ==> geo.base == View(cols, rows, geo.viewSeq))
    && (owner.Some? ==> owner.value in geo.views && geo.views[owner.value] == View(cols, rows, geo.viewSeq)
                        && geo.base.stamp < geo.viewSeq)
    && forall k :: k in geo.views && Some(k) != owner ==> geo.views[k].stamp < geo.viewSeq
  }

  lemma OldStampsAreLower<K>(s: State<K>)
    requires GeoOk(s)
    ensures s.geo.base.stamp <= s.geo.viewSeq
    ensures forall k :: k in s.geo.views ==> s.geo.views[k].stamp <= s.geo.viewSeq
  {
  }

  lemma RelocatedTerm<K>(s: State<K>, cols: int, rows: int, accepted: bool, next: State<K>)
    requires Relocates(s, cols, rows, accepted, next)
    ensures accepted ==> next.term.cols == cols && next.term.rows == rows
    ensures !accepted ==> next == s
    ensures next.term.partial == s.term.partial
    ensures next.geo.viewSeq == s.geo.viewSeq && next.geo.base == s.geo.base && next.geo.said == s.geo.said
    ensures forall k :: k in next.geo.views ==> k in s.geo.views && next.geo.views[k] == s.geo.views[k]
    ensures next.subs.Keys == s.subs.Keys
    ensures forall k :: k in s.subs && k in s.geo.views && next.subs[k].life.attached ==> k in next.geo.views
    ensures forall k :: k in s.subs && s.subs[k].life.attached && !next.subs[k].life.attached ==> k !in next.geo.views
  {
  }

  /** The base's word is the terminal's size from then on, or is refused. */
  lemma BaseGetsItsSize<K>(s: State<K>, cols: int, rows: int, accepted: bool, next: State<K>)
    requires GeoOk(s) && Steps(s, SetBase(cols, rows, accepted), next)
    ensures cols < 2 || rows < 2 ==> next == s
    ensures cols >= 2 && rows >= 2 ==> next.geo.viewSeq == s.geo.viewSeq + 1 && StatedLast(next.geo, None, cols, rows)
    ensures cols >= 2 && rows >= 2 && accepted ==> next.term.cols == cols && next.term.rows == rows
    ensures !accepted ==> next.term == s.term && next.subs == s.subs
  {
    SetBaseEffect(s, cols, rows, accepted, next);
    OldStampsAreLower(s);
    if cols >= 2 && rows >= 2 {
      RelocatedTerm(BaseStated(s, cols, rows), cols, rows, accepted, next);
    }
  }

  /** A listed viewer's word is; that of one that is no longer listed is dropped. */
  lemma ViewerGetsItsSize<K>(s: State<K>, k: K, cols: int, rows: int, accepted: bool, next: State<K>)
    requires GeoOk(s) && Steps(s, SetView(k, cols, rows, accepted), next)
    ensures cols < 2 || rows < 2 || !s.subs[k].life.attached ==> next == s
    ensures cols >= 2 && rows >= 2 && s.subs[k].life.attached ==>
      && next.geo.viewSeq == s.geo.viewSeq + 1 && k in next.subs
      && (if next.subs[k].life.attached then StatedLast(next.geo, Some(k), cols, rows) else k !in next.geo.views)
    ensures cols >= 2 && rows >= 2 && s.subs[k].life.attached && accepted ==> next.term.cols == cols && next.term.rows == rows
    ensures !accepted ==> next.term == s.term && next.subs == s.subs
  {
    SetViewEffect(s, k, cols, rows, accepted, next);
    OldStampsAreLower(s);
    if cols >= 2 && rows >= 2 && s.subs[k].life.attached {
      RelocatedTerm(Stating(s, k, cols, rows), cols, rows, accepted, next);
    }
  }

  lemma ListedViewerGetsItsSize<K>(s: State<K>, k: K, cols: int, rows: int, accepted: bool, next: State<K>)
    requires GeoOk(s) && Steps(s, SetView(k, cols, rows, accepted), next)
    requires cols >= 2 && rows >= 2 && s.subs[k].life.attached
    ensures next == ViewSized(s, k, cols, rows, accepted) && k in next.subs && next.geo.viewSeq == s.geo.viewSeq + 1
    ensures if next.subs[k].life.attached then StatedLast(next.geo, Some(k), cols, rows) else k !in next.geo.views
    ensures if accepted then next.term.cols == cols && next.term.rows == rows else next.term == s.term && next.subs == s.subs
  {
    ViewerGetsItsSize(s, k, cols, rows, accepted, next);
  }

  /** A newcomer keeps its place, and its word is too. */
  lemma NewcomerGetsItsSize<K>(s: State<K>, l: Label<K>, next: State<K>)
    requires GeoOk(s) && Steps(s, l, next) && l.Attach? && !s.exited && !s.closed
    ensures l.sub in next.subs && next.subs[l.sub].life.attached && !next.subs[l.sub].life.done && !next.subs[l.sub].missed
    ensures next.subs[l.sub].chan.closes == 0 && next.subs[l.sub].chan.capacity == Room(l.buffer)
    ensures next.subs[l.sub].resync == l.resync && next.subs[l.sub].seed == Seen(next.term)
    ensures l.cols >= 2 && l.rows >= 2 ==>
      next.geo.viewSeq == s.geo.viewSeq + 1 && StatedLast(next.geo, Some(l.sub), l.cols, l.rows)
    ensures l.cols >= 2 && l.rows >= 2 && l.accepted ==> next.term.cols == l.cols && next.term.rows == l.rows
    ensures l.cols < 2 || l.rows < 2 ==> next.geo == s.geo
    ensures l.cols < 2 || l.rows < 2 || !l.accepted ==> next.term == s.term
  {
    var moved := AttachEffect(s, l, next);
    if l.cols >= 2 && l.rows >= 2 {
      NewcomerMoves(s, l, Stating(Joined(s, l), l.sub, l.cols, l.rows), moved);
      ReseededKeeps(moved, l.sub, next);
    }
  }

  lemma ReseededKeeps<K>(s: State<K>, k: K, next: State<K>)
    requires Reseeded(s, k, next)
    ensures k in next.subs && next.subs[k] == s.subs[k].(seed := Seen(s.term)) && next.geo == s.geo && next.term == s.term
  {
  }

  lemma NewcomerMoves<K>(s: State<K>, l: Label<K>, stated: State<K>, moved: State<K>)
    requires GeoOk(s) && l.Attach?
    requires stated == Stating(Joined(s, l), l.sub, l.cols, l.rows)
    requires Relocates(stated, l.cols, l.rows, l.accepted, moved)
    ensures l.sub in moved.subs
    ensures moved.subs[l.sub] == stated.subs[l.sub].(chan := stated.subs[l.sub].chan.(queue := moved.subs[l.sub].chan.queue))
    ensures moved.geo.viewSeq == s.geo.viewSeq + 1 && StatedLast(moved.geo, Some(l.sub), l.cols, l.rows)
    ensures l.accepted ==> moved.term.cols == l.cols && moved.term.rows == l.rows
    ensures !l.accepted ==> moved.term == s.term
  {
    OldStampsAreLower(s);
    RelocatedTerm(stated, l.cols, l.rows, l.accepted, moved);
    NewcomerStays(stated, l.cols, l.rows, l.accepted, moved, l.sub);
  }

  /** All of it together, for those who come too late as well. */
  lemma AttachGivesAPlace<K>(s: State<K>, l: Label<K>, next: State<K>)
    requires GeoOk(s) && Steps(s, l, next) && l.Attach?
    ensures l.sub in next.subs && l.sub !in s.geo.views
    ensures next.subs[l.sub].seed == Seen(next.term)
    ensures next.subs[l.sub].chan.capacity == Room(l.buffer) && next.subs[l.sub].resync == l.resync && !next.subs[l.sub].missed
    ensures s.exited || s.closed ==>
      && next.term == s.term && next.geo == s.geo && next.subs == s.subs[l.sub := next.subs[l.sub]]
      && next.subs[l.sub].life.done && !next.subs[l.sub].life.attached && next.subs[l.sub].chan.queue == []
    ensures !s.exited && !s.closed ==>
      var stated := l.cols >= 2 && l.rows >= 2;
      && next.subs[l.sub].life.attached && !next.subs[l.sub].life.done
      && (stated ==> next.geo.viewSeq == s.geo.viewSeq + 1 && StatedLast(next.geo, Some(l.sub), l.cols, l.rows))
      && (stated && l.accepted ==> next.term.cols == l.cols && next.term.rows == l.rows)
      && (!stated ==> next.geo == s.geo)
      && (!stated || !l.accepted ==> next.term == s.term)
  {
    var _ := AttachEffect(s, l, next);
    if !s.exited && !s.closed {
      NewcomerGetsItsSize(s, l, next);
    }
  }

  lemma NewcomerStays<K>(s: State<K>, cols: int, rows: int, accepted: bool, next: State<K>, k: K)
    requires Relocates(s, cols, rows, accepted, next) && k in s.subs && s.subs[k].life.attached && !s.subs[k].life.done
    requires !s.subs[k].missed && s.subs[k].chan.queue == [] && s.subs[k].chan.capacity > 0
    ensures k in next.subs && next.subs[k] == s.subs[k].(chan := s.subs[k].chan.(queue := next.subs[k].chan.queue))
  {
    assert !Crowded(s.subs[k]);
  }

  // ----- debts and endings --------------------------------------------------------------------------

  function DrainFor<K(==)>(drains: map<K, Drain>, k: K): Drain {
    if k in drains then drains[k] else Drain(0, 0)
  }

  ghost predicate Pays<K>(s: State<K>, force: bool, drains: map<K, Drain>, subs: map<K, Sub>) {
    subs.Keys == s.subs.Keys && forall k :: k in s.subs ==> Paid(s.subs[k], Seen(s.term), force, DrainFor(drains, k), subs[k])
  }

  lemma FlushPays<K>(s: State<K>, force: bool, drains: map<K, Drain>)
    ensures Pays(s, force, drains, FlushedAll(s, force, drains).subs)
  {
    forall k | k in s.subs
      ensures Paid(s.subs[k], Seen(s.term), force, DrainFor(drains, k), FlushedAll(s, force, drains).subs[k])
    {
      FlushedIsPaid(s.subs[k], Seen(s.term), force, DrainFor(drains, k));
    }
  }

  /** A retry pays whom there is room for, and comes back if that was not everyone;
      on a closed session it does nothing. */
  lemma RetryEffect<K>(s: State<K>, drains: map<K, Drain>, next: State<K>)
    requires Steps(s, Label.RetryFires(drains), next)
    ensures if s.closed then next == s.(retry := Retry(false, s.retry.callbacks - 1))
      else
        && Pays(s, false, drains, next.subs)
        && next == s.(subs := next.subs,
                      retry := if exists k :: k in s.subs && s.subs[k].life.attached && !s.subs[k].life.done && s.subs[k].missed
                                              && |s.subs[k].chan.queue| >= s.subs[k].chan.capacity
                               then Retry(true, s.retry.callbacks) else Retry(false, s.retry.callbacks - 1))
  {
    if !s.closed {
      FlushPays(Fired(s), false, drains);
      StillOwing(s);
    }
  }

  lemma StillOwing<K>(s: State<K>)
    ensures (exists k :: k in s.subs && s.subs[k].life.attached && Owed(s.subs[k]) && Full(s.subs[k]) && !false)
       <==> (exists k :: k in s.subs && s.subs[k].life.attached && !s.subs[k].life.done && s.subs[k].missed
                         && |s.subs[k].chan.queue| >= s.subs[k].chan.capacity)
  {
    if k :| k in s.subs && s.subs[k].life.attached && Owed(s.subs[k]) && Full(s.subs[k]) {
      assert |s.subs[k].chan.queue| >= s.subs[k].chan.capacity;
    }
    if k :| k in s.subs && s.subs[k].life.attached && !s.subs[k].life.done && s.subs[k].missed
            && |s.subs[k].chan.queue| >= s.subs[k].chan.capacity {
      assert Owed(s.subs[k]) && Full(s.subs[k]);
    }
  }

  /** What the last call of the read loop makes of one subscription. */
  predicate Dismissed(sub: Sub, after: Sub) {
    after == if !sub.life.attached then sub
             else sub.(missed := sub.life.done && sub.missed,
                       chan := sub.chan.(closes := if sub.life.done then sub.chan.closes else sub.chan.closes + 1),
                       life := sub.life.(done := true, attached := false))
  }

  /** The stream ends: everyone owed state is paid, whoever is listed is finished,
      and nobody is listed any more. */
  lemma EndStreamEffect<K>(s: State<K>, drains: map<K, Drain>, next: State<K>) returns (paid: map<K, Sub>)
    requires Steps(s, Label.EndStream(drains), next)
    ensures Pays(s, true, drains, paid)
    ensures next.subs.Keys == paid.Keys && forall k :: k in paid ==> Dismissed(paid[k], next.subs[k])
    ensures next == s.(subs := next.subs, tape := s.tape.(ended := true))
  {
    paid := FlushedAll(s, true, drains).subs;
    FlushPays(s, true, drains);
    ForcedArmsNothing(s, drains);
    forall k | k in paid
      ensures Dismissed(paid[k], next.subs[k])
    {
      FinishedDismisses(paid[k]);
    }
  }

  lemma FinishedDismisses(sub: Sub)
    ensures Dismissed(sub, if sub.life.attached then Delisted(Finished(sub)) else sub)
  {
  }

  lemma ForcedArmsNothing<K>(s: State<K>, drains: map<K, Drain>)
    ensures FlushedAll(s, true, drains) == s.(subs := FlushedAll(s, true, drains).subs)
  {
  }

  /** The session closes, once: everyone owed state is paid, and whoever is listed
      is taken off the list, to be finished; a held retry is dropped. */
  lemma CloseEffect<K>(s: State<K>, drains: map<K, Drain>, stopped: bool, next: State<K>) returns (paid: map<K, Sub>)
    requires Steps(s, CloseSession(drains, stopped), next)
    ensures s.closed ==> next == s
    ensures !s.closed ==>
      && Pays(s, true, drains, paid)
      && next.subs.Keys == paid.Keys
      && (forall k :: k in paid ==>
            next.subs[k] == if paid[k].life.attached then paid[k].(life := paid[k].life.(attached := false, orphan := true)) else paid[k])
      && next == s.(subs := next.subs, closed := true,
                    retry := Retry(false, if s.retry.timer && stopped && s.retry.callbacks > 0 then s.retry.callbacks - 1
                                          else s.retry.callbacks))
  {
    paid := FlushedAll(s, true, drains).subs;
    FlushPays(s, true, drains);
    ForcedArmsNothing(s, drains);
  }

  // ----- one subscription's own steps ---------------------------------------------------------------

  /** A consumer takes the oldest message. */
  lemma ReceiveEffect<K>(s: State<K>, k: K, next: State<K>)
    requires Steps(s, Receive(k), next)
    ensures var chan := s.subs[k].chan;
      next == s.(subs := s.subs[k := s.subs[k].(chan := chan.(taken := chan.taken + [chan.queue[0]], queue := chan.queue[1..]))])
  {
    var chan := s.subs[k].chan;
    assert chan.queue[..1] == [chan.queue[0]];
  }

  /** Closing ends the stream, clears the debt and takes the retirement. */
  lemma CloseSubEffect<K>(s: State<K>, k: K, next: State<K>)
    requires Steps(s, CloseSub(k), next)
    ensures var sub := s.subs[k];
      next == s.(subs := s.subs[k := sub.(
        missed := sub.life.done && sub.missed,
        chan := sub.chan.(closes := if sub.life.done then sub.chan.closes else sub.chan.closes + 1),
        life := sub.life.(done := true, shut := true),
        token := sub.token.(retire := false, retiring := sub.token.retiring || sub.token.retire))])
  {
  }

  /** The retirement delists, and withdraws the statement, leaving a settle if there
      was one. */
  lemma RetireEffect<K>(s: State<K>, k: K, next: State<K>)
    requires Steps(s, RetireSub(k), next)
    ensures var sub := s.subs[k];
      && next.subs == s.subs[k := sub.(life := sub.life.(attached := false),
                                       token := sub.token.(retiring := false, retired := sub.token.retired + 1))]
      && next.geo == s.geo.(views := next.geo.views, settles := s.geo.settles + if k in s.geo.views then 1 else 0)
      && next.geo.views.Keys == s.geo.views.Keys - {k}
      && (forall j :: j in next.geo.views ==> next.geo.views[j] == s.geo.views[j])
      && next == s.(subs := next.subs, geo := next.geo)
  {
  }

  /** Whom a close took off the list is finished. */
  lemma FinishOrphanEffect<K>(s: State<K>, k: K, next: State<K>)
    requires Steps(s, Label.FinishOrphan(k), next)
    ensures var sub := s.subs[k];
      next == s.(subs := s.subs[k := sub.(
        missed := sub.life.done && sub.missed,
        chan := sub.chan.(closes := if sub.life.done then sub.chan.closes else sub.chan.closes + 1),
        life := sub.life.(done := true, orphan := false))])
  {
  }

  lemma ExitEffect<K>(s: State<K>, next: State<K>)
    requires Steps(s, Exit, next)
    ensures next == s.(exited := true)
  {
  }

  /** Where every run starts, and how it goes on. */
  lemma RunsGoOn<K>(cols: int, rows: int, s: State<K>, run: seq<Label<K>>, l: Label<K>, next: State<K>)
    requires Enabled(Exec(s, run), l) && Steps(Exec(s, run), l, next)
    ensures Exec(s, run + [l]) == next && Exec(s, []) == s
    ensures Init<K>(cols, rows)
         == State(Term(cols, rows, Blank(cols, rows), [], Tracking.Modes(0, 0, false, 0, 0, false, false, false, false)),
                  Tape([], [], false, false), map[], Retry(false, 0),
                  Geo([Statement(None, cols, rows)], map[], 0, View(cols, rows, 0), 0), false, false)
  {
    assert (run + [l])[..|run|] == run;
  }
}
