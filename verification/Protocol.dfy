/** One session and its subscriptions as a state machine (session.go).

    Each step is one region the source runs under a lock, or one receive by a
    consumer. Subscriptions are known by keys of any type. */
module Protocol {
  import opened Bytes
  import opened Terminal

  // ----- subscriptions -----------------------------------------------------------

  /** The channel: what the consumer has received, and what waits. */
  datatype Chan = Chan(
    capacity: nat,
    taken: seq<Message>,
    queue: seq<Message>,
    closes: nat)             // times it was closed

  datatype Life = Life(
    done: bool,
    lagged: bool,
    attached: bool,          // listed by the session
    orphan: bool,            // delisted by the session's close, not finished yet
    entered: bool,           // was ever listed
    shut: bool)              // Close was called

  /** The retirement closure. */
  datatype Token = Token(
    retire: bool,            // still held
    retiring: bool,          // taken by Close, not run yet
    retired: nat)            // times it has run

  datatype Sub = Sub(
    resync: bool,
    seed: Snapshot,          // the state handed back by the attach
    since: nat,              // how much had been broadcast before the attach
    missed: bool,            // output was dropped and exact state is owed
    chan: Chan,
    life: Life,
    token: Token)

  predicate Full(sub: Sub) {
    |sub.chan.queue| >= sub.chan.capacity
  }

  /** The replica of a consumer that applies everything sent to it so far. */
  ghost function Replica(sub: Sub): Term {
    AllShown(Restored(sub.seed), sub.chan.taken + sub.chan.queue)
  }

  predicate Listening(sub: Sub) {
    !sub.life.done && !sub.missed
  }

  predicate Drops(sub: Sub) {
    Listening(sub) && Full(sub) && !sub.resync
  }

  predicate FallsBehind(sub: Sub) {
    Listening(sub) && Full(sub) && sub.resync
  }

  function Queued(sub: Sub, queue: seq<Message>): Sub {
    sub.(chan := sub.chan.(queue := queue))
  }

  function Delisted(sub: Sub): Sub {
    sub.(life := sub.life.(attached := false))
  }

  function Stranded(sub: Sub): Sub {
    sub.(life := sub.life.(attached := false, orphan := true))
  }

  /** The list is thrown away, and this subscription with it if it was there. */
  function WhenDelisted(sub: Sub, orphaned: bool): Sub {
    if !sub.life.attached then sub
    else if orphaned then Stranded(sub)
    else Delisted(sub)
  }

  function Claimed(sub: Sub): Sub {
    sub.(life := sub.life.(orphan := false))
  }

  function Delivered(sub: Sub, m: Message): Sub {
    if !Listening(sub) then sub
    else if !Full(sub) then Queued(sub, sub.chan.queue + [m])
    else if sub.resync then sub.(missed := true)
    else Lagged(sub)
  }

  /** Dropped for lag: the closure is discarded and its work done on the spot. */
  function Lagged(sub: Sub): Sub {
    Withdrawing(CutOff(sub))
  }

  function CutOff(sub: Sub): Sub {
    sub.(chan := sub.chan.(closes := sub.chan.closes + 1),
         life := sub.life.(lagged := true, done := true),
         token := sub.token.(retire := false))
  }

  /** A retirement, as far as the subscription itself goes. */
  function Withdrawing(sub: Sub): Sub {
    sub.(life := sub.life.(attached := false), token := sub.token.(retired := sub.token.retired + 1))
  }

  /** The consumer receives up to `n` messages. */
  function Drained(sub: Sub, n: nat): Sub {
    var k := if n <= |sub.chan.queue| then n else |sub.chan.queue|;
    sub.(chan := sub.chan.(taken := sub.chan.taken + sub.chan.queue[..k], queue := sub.chan.queue[k..]))
  }

  function Evicted(sub: Sub): Sub {
    if sub.chan.queue == [] then sub else Queued(sub, sub.chan.queue[1..])
  }

  predicate Owed(sub: Sub) {
    !sub.life.done && sub.missed
  }

  /** What the consumer receives while a flush serves its subscription: between
      the room check and the eviction, and between the eviction and the push. */
  datatype Drain = Drain(before: nat, after: nat)

  function Flushed(sub: Sub, state: Snapshot, force: bool, drain: Drain): Sub {
    if !Owed(sub) then sub
    else if !Full(sub) then Resynced(Drained(sub, drain.before), state)
    else if force then Resynced(Drained(Evicted(Drained(sub, drain.before)), drain.after), state)
    else sub
  }

  function Resynced(sub: Sub, state: Snapshot): Sub {
    Queued(sub, sub.chan.queue + [Resync(state)]).(missed := false)
  }

  function Finished(sub: Sub): Sub {
    if sub.life.done then sub else sub.(missed := false, life := sub.life.(done := true), chan := sub.chan.(closes := sub.chan.closes + 1))
  }

  /** The half of Close that runs under the subscription's own lock. */
  function Shut(sub: Sub): Sub {
    var finished := Finished(sub);
    finished.(life := finished.life.(shut := true),
              token := sub.token.(retire := false, retiring := sub.token.retiring || sub.token.retire))
  }

  /** The half of Close that runs under the session's lock. */
  function Retired(sub: Sub): Sub {
    var withdrawn := Withdrawing(sub);
    withdrawn.(token := withdrawn.token.(retiring := false))
  }

  // ----- size statements ------------------------------------------------------------

  /** A viewer's stated geometry, or the base's, stamped with when it was stated. */
  datatype View = View(cols: int, rows: int, stamp: nat)

  /** Everything ever stated, oldest first; no owner means the base. */
  datatype Statement<K> = Statement(owner: Option<K>, cols: int, rows: int)

  type History<!K(==)> = h: seq<Statement<K>> | |h| > 0 witness [Statement(None, 0, 0)]

  /** The newest statement that still stands when only `live` viewers' count. */
  function LastStanding<K(==)>(said: History<K>, live: set<K>): Statement<K>
    decreases |said|
  {
    var last := said[|said| - 1];
    if |said| == 1 || last.owner.None? || last.owner.value in live then last
    else LastStanding(said[..|said| - 1], live)
  }

  // ----- the session ------------------------------------------------------------------

  datatype Tape = Tape(
    writes: seq<seq<byte>>,   // the chunks written so far
    log: seq<Message>,        // everything broadcast so far
    draining: bool,           // the unfinished remnant of the stream was flushed
    ended: bool)              // the read loop has returned

  datatype Retry = Retry(
    timer: bool,              // a retry is held in resyncTimer
    callbacks: nat)           // retries scheduled that have not run

  datatype Geo<!K(==)> = Geo(
    said: History<K>,
    views: map<K, View>,
    viewSeq: nat,
    base: View,
    settles: nat)             // settling goroutines that have not run

  datatype State<!K(==)> = State(
    term: Term,
    tape: Tape,
    subs: map<K, Sub>,        // every subscription ever made
    retry: Retry,
    geo: Geo<K>,
    exited: bool,
    closed: bool)

  function Init<K(==)>(cols: int, rows: int): State<K> {
    State(Fresh(cols, rows), Tape([], [], false, false), map[], Retry(false, 0),
          Geo([Statement(None, cols, rows)], map[], 0, View(cols, rows, 0), 0), false, false)
  }

  function Effective<K(==)>(s: State<K>): Statement<K> {
    LastStanding(s.geo.said, s.geo.views.Keys)
  }

  /** At most one retry is ever scheduled. */
  function Scheduled(retry: Retry, wanted: bool): Retry {
    if !wanted || retry.timer then retry else Retry(true, retry.callbacks + 1)
  }

  function Armed<K(==)>(s: State<K>, wanted: bool): State<K> {
    s.(retry := Scheduled(s.retry, wanted && !s.closed))
  }

  /** Who a broadcast drops for lag. */
  function Laggards<K(==)>(s: State<K>): set<K> {
    set k | k in s.subs && s.subs[k].life.attached && Drops(s.subs[k])
  }

  /** Hands `m` to every listed subscription. A dropped one takes its size
      statement with it, and that is settled later. */
  function Broadcast<K(==)>(s: State<K>, m: Message): State<K> {
    var dropped := Laggards(s);
    var behind := exists k :: k in s.subs && s.subs[k].life.attached && FallsBehind(s.subs[k]);
    Armed(s.(tape := s.tape.(log := s.tape.log + [m]),
             subs := map k | k in s.subs :: if s.subs[k].life.attached then Delivered(s.subs[k], m) else s.subs[k],
             geo := Without(s.geo, dropped)),
          behind)
  }

  /** The statements of `gone` are withdrawn, each leaving a settle to run. */
  function Without<K(==)>(geo: Geo<K>, gone: set<K>): Geo<K> {
    geo.(views := geo.views - gone, settles := geo.settles + |gone * geo.views.Keys|)
  }

  /** One viewer's statement is withdrawn, if there is one. */
  function WithoutOne<K(==)>(geo: Geo<K>, k: K): Geo<K> {
    geo.(views := geo.views - {k}, settles := geo.settles + if k in geo.views then 1 else 0)
  }

  function Recorded<K(==)>(s: State<K>, chunk: seq<byte>): State<K> {
    s.(tape := s.tape.(writes := s.tape.writes + [chunk]))
  }

  function Draining<K(==)>(s: State<K>): State<K> {
    s.(tape := s.tape.(draining := true))
  }

  function Woken<K(==)>(s: State<K>): State<K>
    requires s.geo.settles > 0
  {
    s.(geo := s.geo.(settles := s.geo.settles - 1))
  }

  function Fired<K(==)>(s: State<K>): State<K>
    requires s.retry.callbacks > 0
  {
    s.(retry := Retry(false, s.retry.callbacks - 1))
  }

  function Written<K(==)>(s: State<K>, chunk: seq<byte>): State<K> {
    Broadcast(Recorded(s.(term := Printed(s.term, chunk)), chunk), Output(chunk))
  }

  /** Moves the terminal to the size the statements resolve to. `accepted` says
      whether the PTY takes the size. */
  function Sized<K(==)>(s: State<K>, accepted: bool): State<K> {
    var want := Effective(s);
    if (want.cols == s.term.cols && want.rows == s.term.rows) || !accepted then s
    else
      var moved := Moved(s.term, want.cols, want.rows);
      Broadcast(s.(term := moved), Repaint(Taken(moved)))
  }

  function DrainOf<K(==)>(drains: map<K, Drain>, k: K): Drain {
    if k in drains then drains[k] else Drain(0, 0)
  }

  function FlushedAll<K(==)>(s: State<K>, force: bool, drains: map<K, Drain>): State<K> {
    var state := Taken(s.term);
    var owed := exists k :: k in s.subs && s.subs[k].life.attached && Owed(s.subs[k]) && Full(s.subs[k]) && !force;
    Armed(s.(subs := map k | k in s.subs ::
                 if s.subs[k].life.attached then Flushed(s.subs[k], state, force, DrainOf(drains, k)) else s.subs[k]),
          owed)
  }

  // ----- steps -----------------------------------------------------------------------

  datatype Label<K> =
    | Write(chunk: seq<byte>)
    | FlushRemnant(chunk: seq<byte>)
    | EndStream(drains: map<K, Drain>)
    | Attach(sub: K, buffer: int, resync: bool, cols: int, rows: int, accepted: bool)
    | SetBase(cols: int, rows: int, accepted: bool)
    | SetView(sub: K, cols: int, rows: int, accepted: bool)
    | Settle(accepted: bool)
    | RetryFires(drains: map<K, Drain>)
    | Receive(sub: K)
    | CloseSub(sub: K)
    | RetireSub(sub: K)
    | FinishOrphan(sub: K)
    | Exit
    | CloseSession(drains: map<K, Drain>, stopped: bool)

  /** What the program's own control flow guarantees of each step. */
  predicate Enabled<K(==)>(s: State<K>, l: Label<K>) {
    match l
    case Write(chunk) => !s.tape.draining && !s.tape.ended && chunk != []
    case FlushRemnant(chunk) => !s.tape.draining && !s.tape.ended && chunk != []
    case EndStream(_) => !s.tape.ended
    case Attach(k, _, _, _, _, _) => k !in s.subs
    case SetBase(_, _, _) => true
    case SetView(k, _, _, _) => k in s.subs
    case Settle(_) => s.geo.settles > 0
    case RetryFires(_) => s.retry.callbacks > 0
    case Receive(k) => k in s.subs && s.subs[k].chan.queue != []
    case CloseSub(k) => k in s.subs
    case RetireSub(k) => k in s.subs && s.subs[k].token.retiring
    case FinishOrphan(k) => k in s.subs && s.subs[k].life.orphan
    case Exit => true
    case CloseSession(_, _) => true
  }

  predicate IsSize(cols: int, rows: int) {
    cols >= 2 && rows >= 2
  }

  /** A subscription as it is made, before any session knows of it. */
  function Unlisted(capacity: nat, resync: bool, seed: Snapshot, since: nat): Sub {
    Sub(resync, seed, since, false,
        Chan(capacity, [], [], 0),
        Life(false, false, false, false, false, false),
        Token(false, false, 0))
  }

  function Enlisted(sub: Sub): Sub {
    sub.(life := sub.life.(attached := true, entered := true), token := sub.token.(retire := true))
  }

  function CapacityFor(buffer: int): nat {
    if buffer <= 0 then 64 else buffer
  }

  /** A subscription as an attach to a live session creates it. */
  function NewSub(buffer: int, resync: bool, seed: Snapshot, since: nat): Sub {
    Enlisted(Unlisted(CapacityFor(buffer), resync, seed, since))
  }

  /** A subscription whose stream was over before it began. */
  function SpentSub(buffer: int, resync: bool, seed: Snapshot, since: nat): Sub {
    Finished(Unlisted(CapacityFor(buffer), resync, seed, since))
  }

  function Seeded<K(==)>(s: State<K>, k: K): State<K>
    requires k in s.subs
  {
    WithSub(s, k, s.subs[k].(seed := Taken(s.term)))
  }

  /** The subscription is listed, and its statement made, before the state it
      gets back is taken. */
  function Attached<K(==)>(s: State<K>, k: K, buffer: int, resync: bool, cols: int, rows: int, accepted: bool): State<K> {
    if s.exited || s.closed then WithSub(s, k, SpentSub(buffer, resync, Taken(s.term), |s.tape.log|))
    else
      var listed := WithSub(s, k, NewSub(buffer, resync, Taken(s.term), |s.tape.log|));
      if IsSize(cols, rows) then Introduced(listed, k, cols, rows, accepted) else listed
  }

  function Introduced<K(==)>(s: State<K>, k: K, cols: int, rows: int, accepted: bool): State<K>
    requires k in s.subs
  {
    Seeded(Sized(ViewStated(s, k, cols, rows), accepted), k)
  }

  function ViewStated<K(==)>(s: State<K>, k: K, cols: int, rows: int): State<K> {
    s.(geo := s.geo.(viewSeq := s.geo.viewSeq + 1,
                     views := s.geo.views[k := View(cols, rows, s.geo.viewSeq + 1)],
                     said := s.geo.said + [Statement(Some(k), cols, rows)]))
  }

  function BaseStated<K(==)>(s: State<K>, cols: int, rows: int): State<K> {
    s.(geo := s.geo.(viewSeq := s.geo.viewSeq + 1,
                     base := View(cols, rows, s.geo.viewSeq + 1),
                     said := s.geo.said + [Statement(None, cols, rows)]))
  }

  /** The control plane's resize. */
  function BaseSized<K(==)>(s: State<K>, cols: int, rows: int, accepted: bool): State<K> {
    if IsSize(cols, rows) then Sized(BaseStated(s, cols, rows), accepted) else s
  }

  /** A viewer's resize; a statement from an attachment that ended is dropped. */
  function ViewSized<K(==)>(s: State<K>, k: K, cols: int, rows: int, accepted: bool): State<K> {
    if IsSize(cols, rows) && k in s.subs && s.subs[k].life.attached then Sized(ViewStated(s, k, cols, rows), accepted) else s
  }

  function Settled<K(==)>(s: State<K>, accepted: bool): State<K>
    requires s.geo.settles > 0
  {
    var woken := Woken(s);
    if s.closed || s.exited then woken else Sized(woken, accepted)
  }

  function Retried<K(==)>(s: State<K>, drains: map<K, Drain>): State<K>
    requires s.retry.callbacks > 0
  {
    var fired := Fired(s);
    if s.closed then fired else FlushedAll(fired, false, drains)
  }

  function WithSub<K(==)>(s: State<K>, k: K, sub: Sub): State<K> {
    s.(subs := s.subs[k := sub])
  }

  /** Withdraws a departed viewer's statement. */
  function Withdrawn<K(==)>(s: State<K>, k: K): State<K>
    requires k in s.subs
  {
    WithSub(s.(geo := WithoutOne(s.geo, k)), k, Retired(s.subs[k]))
  }

  function StreamEnded<K(==)>(s: State<K>, drains: map<K, Drain>): State<K> {
    var flushed := FlushedAll(s, true, drains);
    flushed.(tape := flushed.tape.(ended := true),
             subs := map k | k in flushed.subs ::
               if flushed.subs[k].life.attached then Delisted(Finished(flushed.subs[k])) else flushed.subs[k])
  }

  function SessionClosed<K(==)>(s: State<K>, drains: map<K, Drain>, stopped: bool): State<K> {
    if s.closed then s else Dissolved(FlushedAll(s, true, drains), stopped)
  }

  function Dissolved<K(==)>(s: State<K>, stopped: bool): State<K> {
    Orphaning(s.(closed := true, retry := RetryDropped(s.retry, stopped)))
  }

  /** `stopped` says whether stopping a held retry came in time. */
  function RetryDropped(retry: Retry, stopped: bool): Retry {
    Retry(false, if retry.timer && stopped && retry.callbacks > 0 then retry.callbacks - 1 else retry.callbacks)
  }

  function Orphaning<K(==)>(s: State<K>): State<K> {
    s.(subs := map k | k in s.subs :: WhenDelisted(s.subs[k], true))
  }

  function Next<K(==)>(s: State<K>, l: Label<K>): State<K>
    requires Enabled(s, l)
  {
    match l
    case Write(chunk) => Written(s, chunk)
    case FlushRemnant(chunk) => Draining(Written(s, chunk))
    case EndStream(drains) => StreamEnded(s, drains)
    case Attach(k, buffer, resync, cols, rows, accepted) => Attached(s, k, buffer, resync, cols, rows, accepted)
    case SetBase(cols, rows, accepted) => BaseSized(s, cols, rows, accepted)
    case SetView(k, cols, rows, accepted) => ViewSized(s, k, cols, rows, accepted)
    case Settle(accepted) => Settled(s, accepted)
    case RetryFires(drains) => Retried(s, drains)
    case Receive(k) => WithSub(s, k, Drained(s.subs[k], 1))
    case CloseSub(k) => WithSub(s, k, Shut(s.subs[k]))
    case RetireSub(k) => Withdrawn(s, k)
    case FinishOrphan(k) => WithSub(s, k, Claimed(Finished(s.subs[k])))
    case Exit => s.(exited := true)
    case CloseSession(drains, stopped) => SessionClosed(s, drains, stopped)
  }

  /** The state after a run of steps; a step that is not enabled does nothing. */
  function Exec<K(==)>(s: State<K>, run: seq<Label<K>>): State<K> {
    if run == [] then s
    else
      var before := Exec(s, run[..|run| - 1]);
      if Enabled(before, run[|run| - 1]) then Next(before, run[|run| - 1]) else before
  }

  predicate Steps<K(==)>(s: State<K>, l: Label<K>, next: State<K>) {
    Enabled(s, l) && next == Next(s, l)
  }

  /** The run leads from one state to the other. */
  predicate Leads<K(==)>(s: State<K>, run: seq<Label<K>>, next: State<K>) {
    next == Exec(s, run)
  }

  /** The run leads there from a session's start. */
  predicate Reaches<K(==)>(cols: int, rows: int, run: seq<Label<K>>, s: State<K>) {
    s == Exec(Init<K>(cols, rows), run)
  }
}
