/** The engine's event feed (engine.go): who hears of what, and in what order.

    Each step is one region run under the engine's lock or a subscription's, or
    one receive by a reader. */
module Events {
  import opened Delivery

  datatype Event =
    | Spawned(id: string, command: string)
    | Exited(id: string, code: int)
    | Removed(id: string)
    | Idle(id: string)
    | Busy(id: string)

  // ----- one feed ------------------------------------------------------------------

  datatype Feed = Feed(
    capacity: nat,
    since: nat,              // how much had been published before it subscribed
    taken: seq<Event>,       // what its reader has received
    queue: seq<Event>,
    listed: bool,
    done: bool,
    lagged: bool,
    closes: nat)             // times its channel was closed

  function Sent(f: Feed): seq<Event> {
    f.taken + f.queue
  }

  function NewFeed(buffer: int, since: nat): Feed {
    Feed(if buffer <= 0 then 64 else buffer, since, [], [], true, false, false, 0)
  }

  /** A feed subscribed to after the engine closed. */
  function SpentFeed(buffer: int, since: nat): Feed {
    Finished(Unlisted(NewFeed(buffer, since)))
  }

  function Unlisted(f: Feed): Feed {
    f.(listed := false)
  }

  function Finished(f: Feed): Feed {
    if f.done then f else f.(done := true, closes := f.closes + 1)
  }

  /** A full buffer is never waited for. */
  function Offered(f: Feed, e: Event): Feed {
    if f.done then f
    else if |f.queue| < f.capacity then f.(queue := f.queue + [e])
    else f.(lagged := true, done := true, closes := f.closes + 1, listed := false)
  }

  function Received(f: Feed): Feed {
    if f.queue == [] then f else f.(taken := f.taken + [f.queue[0]], queue := f.queue[1..])
  }

  // ----- the engine ------------------------------------------------------------------

  /** How far a spawn has come. */
  datatype Phase =
    | Asked        // the engine was open when it looked
    | Started      // the process runs; its events wait at the gate
    | Registered
    | Announced    // the spawned event has been published, or dropped
    | Open         // the gate is open
    | Doomed       // the engine had closed meanwhile: the gate is open all the same
    | Failed       // there is no process

  datatype Bus<!K(==)> = Bus(
    log: seq<Event>,           // everything published so far
    feeds: map<K, Feed>,
    phases: map<string, Phase>,
    sessions: set<string>,
    leaving: set<string>,      // removed from the registry, not announced yet
    exits: set<string>,        // exits announced
    closed: bool)

  function Init<K(==)>(): Bus<K> {
    Bus([], map[], map[], {}, {}, {}, false)
  }

  function Listed<K(==)>(b: Bus<K>): set<K> {
    set k | k in b.feeds && b.feeds[k].listed
  }

  function OfferedTo<K(==)>(b: Bus<K>, served: set<K>, e: Event): Bus<K> {
    b.(feeds := map k | k in b.feeds :: if k in served then Offered(b.feeds[k], e) else b.feeds[k])
  }

  /** A closed engine publishes nothing. */
  function Publish<K(==)>(b: Bus<K>, e: Event): Bus<K> {
    if b.closed then b else OfferedTo(b, Listed(b), e).(log := b.log + [e])
  }

  function PhaseOf<K(==)>(b: Bus<K>, id: string): Phase {
    if id in b.phases then b.phases[id] else Failed
  }

  function Phased<K(==)>(b: Bus<K>, id: string, phase: Phase): Bus<K> {
    b.(phases := b.phases[id := phase])
  }

  function WithFeed<K(==)>(b: Bus<K>, k: K, f: Feed): Bus<K> {
    b.(feeds := b.feeds[k := f])
  }

  function Subscribed<K(==)>(b: Bus<K>, k: K, buffer: int): Bus<K> {
    WithFeed(b, k, if b.closed then SpentFeed(buffer, |b.log|) else NewFeed(buffer, |b.log|))
  }

  function Registers<K(==)>(b: Bus<K>, id: string): Bus<K> {
    if b.closed then Phased(b, id, Doomed) else Phased(b, id, Registered).(sessions := b.sessions + {id})
  }

  function Unregisters<K(==)>(b: Bus<K>, id: string): Bus<K> {
    if id in b.sessions then b.(sessions := b.sessions - {id}, leaving := b.leaving + {id}) else b
  }

  function Closes<K(==)>(b: Bus<K>): Bus<K> {
    b.(closed := true, sessions := {}, feeds := map k | k in b.feeds :: Unlisted(b.feeds[k]))
  }

  datatype Label<K> =
    | Ask(id: string)
    | Start(id: string, started: bool)
    | Register(id: string)
    | Announce(id: string, command: string)
    | OpenGate(id: string)
    | Speak(id: string, busy: bool)
    | SayExited(id: string, code: int)
    | Unregister(id: string)
    | SayRemoved(id: string)
    | Subscribe(feed: K, buffer: int)
    | Receive(feed: K)
    | Leave(feed: K)
    | Finish(feed: K)
    | Close

  /** What the program's control flow and the gate guarantee. */
  predicate Enabled<K(==)>(b: Bus<K>, l: Label<K>) {
    match l
    case Ask(id) => id !in b.phases
    case Start(id, _) => PhaseOf(b, id) == Asked
    case Register(id) => PhaseOf(b, id) == Started
    case Announce(id, _) => PhaseOf(b, id) == Registered
    case OpenGate(id) => PhaseOf(b, id) == Announced
    case Speak(id, _) => PhaseOf(b, id) in {Open, Doomed}
    case SayExited(id, _) => PhaseOf(b, id) == Open && id !in b.exits
    case Unregister(_) => true
    case SayRemoved(id) => id in b.leaving
    case Subscribe(k, _) => k !in b.feeds
    case Receive(k) => k in b.feeds && b.feeds[k].queue != []
    case Leave(k) => k in b.feeds
    case Finish(k) => k in b.feeds && !b.feeds[k].listed
    case Close => true
  }

  function Next<K(==)>(b: Bus<K>, l: Label<K>): Bus<K>
    requires Enabled(b, l)
  {
    match l
    case Ask(id) => Phased(b, id, if b.closed then Failed else Asked)
    case Start(id, started) => Phased(b, id, if started then Started else Failed)
    case Register(id) => Registers(b, id)
    case Announce(id, command) => Publish(Phased(b, id, Announced), Spawned(id, command))
    case OpenGate(id) => Phased(b, id, Open)
    case Speak(id, busy) => Publish(b, if busy then Busy(id) else Idle(id))
    case SayExited(id, code) => Publish(b.(exits := b.exits + {id}), Exited(id, code))
    case Unregister(id) => Unregisters(b, id)
    case SayRemoved(id) => Publish(b.(leaving := b.leaving - {id}), Removed(id))
    case Subscribe(k, buffer) => Subscribed(b, k, buffer)
    case Receive(k) => WithFeed(b, k, Received(b.feeds[k]))
    case Leave(k) => WithFeed(b, k, Unlisted(b.feeds[k]))
    case Finish(k) => WithFeed(b, k, Finished(b.feeds[k]))
    case Close => Closes(b)
  }

  function Exec<K(==)>(b: Bus<K>, run: seq<Label<K>>): Bus<K> {
    if run == [] then b
    else
      var before := Exec(b, run[..|run| - 1]);
      if Enabled(before, run[|run| - 1]) then Next(before, run[|run| - 1]) else before
  }

  /** The run leads there from the engine's start. */
  predicate Reaches<K(==)>(run: seq<Label<K>>, b: Bus<K>) {
    b == Exec(Init<K>(), run)
  }

  // ----- what every step keeps ----------------------------------------------------------

  predicate FeedOk(f: Feed, log: seq<Event>) {
    && 1 <= f.capacity && |f.queue| <= f.capacity
    && f.closes == Count(f.done)
    && (f.lagged ==> f.done)
    && (f.listed ==> !f.done)
    && f.since + |Sent(f)| <= |log|
    && Sent(f) == log[f.since..f.since + |Sent(f)|]
    && (f.listed ==> f.since + |Sent(f)| == |log|)
  }

  predicate Announces(e: Event, id: string) {
    e.Spawned? && e.id == id
  }

  /** News of a session that already exists. */
  predicate Reports(e: Event) {
    e.Idle? || e.Busy? || e.Exited?
  }

  predicate Heard(log: seq<Event>, id: string) {
    exists j :: 0 <= j < |log| && Announces(log[j], id)
  }

  /** Every report comes after the spawned event it depends on. */
  ghost predicate InOrder(log: seq<Event>) {
    forall i :: 0 <= i < |log| && Reports(log[i]) ==> Heard(log[..i], log[i].id)
  }

  predicate PhaseOk<K(==)>(b: Bus<K>, id: string) {
    && (PhaseOf(b, id) in {Announced, Open} ==> b.closed || Heard(b.log, id))
    && (PhaseOf(b, id) == Doomed ==> b.closed)
    && (Heard(b.log, id) ==> PhaseOf(b, id) in {Announced, Open})
  }

  ghost predicate Ok<K>(b: Bus<K>) {
    && (forall k :: k in b.feeds ==> FeedOk(b.feeds[k], b.log))
    && (b.closed ==> Listed(b) == {} && b.sessions == {})
    && InOrder(b.log)
    && (forall id :: PhaseOk(b, id))
  }

  lemma HeardMore(log: seq<Event>, e: Event, id: string)
    ensures Heard(log + [e], id) <==> Heard(log, id) || Announces(e, id)
  {
    if Heard(log, id) {
      var j :| 0 <= j < |log| && Announces(log[j], id);
      assert Announces((log + [e])[j], id);
    }
    if Announces(e, id) {
      assert Announces((log + [e])[|log|], id);
    }
  }

  lemma InOrderMore(log: seq<Event>, e: Event)
    requires InOrder(log) && (Reports(e) ==> Heard(log, e.id))
    ensures InOrder(log + [e])
  {
    var more := log + [e];
    forall i | 0 <= i < |more| && Reports(more[i])
      ensures Heard(more[..i], more[i].id)
    {
      assert more[..i] == if i < |log| then log[..i] else log;
    }
  }

  lemma OfferedOk(f: Feed, log: seq<Event>, e: Event)
    requires FeedOk(f, log)
    ensures FeedOk(if f.listed then Offered(f, e) else f, log + [e])
  {
    var next := if f.listed then Offered(f, e) else f;
    var n := f.since + |Sent(f)|;
    assert (log + [e])[f.since..n] == log[f.since..n];
    if next.queue != f.queue {
      assert Sent(next) == Sent(f) + [e];
    }
  }

  lemma PublishFeeds<K>(b: Bus<K>, e: Event, k: K)
    requires k in b.feeds && FeedOk(b.feeds[k], b.log)
    ensures k in Publish(b, e).feeds && FeedOk(Publish(b, e).feeds[k], Publish(b, e).log)
  {
    OfferedOk(b.feeds[k], b.log, e);
  }

  lemma PublishOk<K>(b: Bus<K>, e: Event)
    requires Ok(b) && (Reports(e) && !b.closed ==> Heard(b.log, e.id))
    requires e.Spawned? ==> PhaseOf(b, e.id) in {Announced, Open}
    ensures Ok(Publish(b, e))
  {
    if !b.closed {
      var next := Publish(b, e);
      InOrderMore(b.log, e);
      forall k | k in next.feeds
        ensures FeedOk(next.feeds[k], next.log)
      {
        PublishFeeds(b, e, k);
      }
      forall id
        ensures PhaseOk(next, id)
      {
        assert PhaseOk(b, id);
        HeardMore(b.log, e, id);
      }
    }
  }

  /** The announcement itself: the one publication that makes a session heard. */
  lemma AnnounceOk<K>(b: Bus<K>, id: string, command: string)
    requires Ok(b) && PhaseOf(b, id) == Registered
    ensures Ok(Publish(Phased(b, id, Announced), Spawned(id, command)))
  {
    var e := Spawned(id, command);
    var next := Publish(Phased(b, id, Announced), e);
    if !b.closed {
      InOrderMore(b.log, e);
    }
    forall k | k in next.feeds
      ensures FeedOk(next.feeds[k], next.log)
    {
      PublishFeeds(Phased(b, id, Announced), e, k);
    }
    forall other
      ensures PhaseOk(next, other)
    {
      assert PhaseOk(b, other);
      HeardMore(b.log, e, other);
    }
  }

  lemma PhasedOk<K>(b: Bus<K>, id: string, phase: Phase)
    requires Ok(b)
    requires phase in {Announced, Open} ==> PhaseOf(b, id) in {Announced, Open}
    requires phase == Doomed ==> b.closed
    requires phase !in {Announced, Open} ==> !Heard(b.log, id)
    ensures Ok(Phased(b, id, phase))
  {
    var next := Phased(b, id, phase);
    assert PhaseOk(b, id);
    forall other
      ensures PhaseOk(next, other)
    {
      assert PhaseOk(b, other);
    }
  }

  lemma SpawnStepOk<K>(b: Bus<K>, l: Label<K>)
    requires Ok(b) && Enabled(b, l)
    requires l.Ask? || l.Start? || l.Register? || l.Announce? || l.OpenGate?
    ensures Ok(Next(b, l))
  {
    assert PhaseOk(b, l.id);
    match l
    case Ask(id) => PhasedOk(b, id, if b.closed then Failed else Asked);
    case Start(id, started) => PhasedOk(b, id, if started then Started else Failed);
    case Register(id) =>
      PhasedOk(b, id, if b.closed then Doomed else Registered);
      SamePhasesOk(Phased(b, id, if b.closed then Doomed else Registered), Next(b, l));
    case Announce(id, command) => AnnounceOk(b, id, command);
    case OpenGate(id) => PhasedOk(b, id, Open);
  }

  /** Steps that touch neither the phases nor what was published. */
  lemma SamePhasesOk<K>(b: Bus<K>, next: Bus<K>)
    requires Ok(b) && next.phases == b.phases && next.log == b.log && (b.closed ==> next.closed)
    requires forall k :: k in next.feeds ==> FeedOk(next.feeds[k], next.log)
    requires next.closed ==> Listed(next) == {} && next.sessions == {}
    ensures Ok(next)
  {
    forall id
      ensures PhaseOk(next, id)
    {
      assert PhaseOk(b, id);
    }
  }

  lemma NewsOk<K>(b: Bus<K>, l: Label<K>)
    requires Ok(b) && Enabled(b, l)
    requires l.Speak? || l.SayExited? || l.Unregister? || l.SayRemoved?
    ensures Ok(Next(b, l))
  {
    assert PhaseOk(b, l.id);
    match l
    case Speak(id, busy) => PublishOk(b, if busy then Busy(id) else Idle(id));
    case SayExited(id, code) =>
      var said := b.(exits := b.exits + {id});
      SamePhasesOk(b, said);
      PublishOk(said, Exited(id, code));
    case Unregister(id) => SamePhasesOk(b, Unregisters(b, id));
    case SayRemoved(id) =>
      var left := b.(leaving := b.leaving - {id});
      SamePhasesOk(b, left);
      PublishOk(left, Removed(id));
  }

  lemma ReceivedOk(f: Feed, log: seq<Event>)
    requires FeedOk(f, log)
    ensures FeedOk(Received(f), log)
  {
    if f.queue != [] {
      assert Sent(Received(f)) == Sent(f);
    }
  }

  lemma WithFeedOk<K>(b: Bus<K>, k: K, f: Feed)
    requires Ok(b) && FeedOk(f, b.log)
    requires f.listed ==> !b.closed
    ensures Ok(WithFeed(b, k, f))
  {
    var next := WithFeed(b, k, f);
    assert forall j :: j in Listed(next) ==> j == k || j in Listed(b);
    SamePhasesOk(b, next);
  }

  lemma ClosesOk<K>(b: Bus<K>)
    requires Ok(b)
    ensures Ok(Closes(b))
  {
    forall k | k in b.feeds
      ensures FeedOk(Unlisted(b.feeds[k]), b.log)
    {
      assert FeedOk(b.feeds[k], b.log);
    }
    SamePhasesOk(b, Closes(b));
  }

  lemma ListedWhileOpen<K>(b: Bus<K>, k: K)
    requires Ok(b) && k in b.feeds && b.feeds[k].listed
    ensures !b.closed
  {
    assert k in Listed(b);
  }

  lemma FeedStepOk<K>(b: Bus<K>, l: Label<K>)
    requires Ok(b) && Enabled(b, l)
    requires l.Subscribe? || l.Receive? || l.Leave? || l.Finish? || l.Close?
    ensures Ok(Next(b, l))
  {
    match l
    case Subscribe(k, buffer) =>
      assert b.log[|b.log|..|b.log|] == [];
      WithFeedOk(b, k, if b.closed then SpentFeed(buffer, |b.log|) else NewFeed(buffer, |b.log|));
    case Receive(k) =>
      ReceivedOk(b.feeds[k], b.log);
      if b.feeds[k].listed {
        ListedWhileOpen(b, k);
      }
      WithFeedOk(b, k, Received(b.feeds[k]));
    case Leave(k) => WithFeedOk(b, k, Unlisted(b.feeds[k]));
    case Finish(k) => WithFeedOk(b, k, Finished(b.feeds[k]));
    case Close => ClosesOk(b);
  }

  lemma StepOk<K>(b: Bus<K>, l: Label<K>, next: Bus<K>)
    requires Ok(b) && Enabled(b, l) && next == Next(b, l)
    ensures Ok(next)
  {
    if l.Ask? || l.Start? || l.Register? || l.Announce? || l.OpenGate? {
      SpawnStepOk(b, l);
    } else if l.Speak? || l.SayExited? || l.Unregister? || l.SayRemoved? {
      NewsOk(b, l);
    } else {
      FeedStepOk(b, l);
    }
  }

  lemma {:induction false} AlwaysOk<K>(run: seq<Label<K>>)
    ensures Ok(Exec(Init<K>(), run))
  {
    if run != [] {
      var before := Exec(Init<K>(), run[..|run| - 1]);
      AlwaysOk(run[..|run| - 1]);
      if Enabled(before, run[|run| - 1]) {
        StepOk(before, run[|run| - 1], Next(before, run[|run| - 1]));
      }
    }
  }

  /** Where a session can be on its way through the registry: once in, once out,
      and announced as removed at most once. */
  predicate RegistryOk<K(==)>(b: Bus<K>, id: string) {
    && (id in b.sessions || id in b.leaving || Removed(id) in b.log ==> PhaseOf(b, id) in {Registered, Announced, Open})
    && (id in b.sessions ==> id !in b.leaving && Removed(id) !in b.log)
    && (id in b.leaving ==> Removed(id) !in b.log)
  }

  lemma StepRegistry<K>(b: Bus<K>, l: Label<K>, id: string)
    requires RegistryOk(b, id) && Enabled(b, l)
    ensures RegistryOk(Next(b, l), id)
  {
  }

  lemma {:induction false} AlwaysRegistry<K>(run: seq<Label<K>>, id: string)
    ensures RegistryOk(Exec(Init<K>(), run), id)
  {
    if run != [] {
      var before := Exec(Init<K>(), run[..|run| - 1]);
      AlwaysRegistry(run[..|run| - 1], id);
      if Enabled(before, run[|run| - 1]) {
        StepRegistry(before, run[|run| - 1], id);
      }
    }
  }

  lemma {:induction false} LogOnlyGrows<K>(b: Bus<K>, run: seq<Label<K>>)
    ensures b.log <= Exec(b, run).log
  {
    if run != [] {
      LogOnlyGrows(b, run[..|run| - 1]);
    }
  }

  // ----- the promises ---------------------------------------------------------------------

  /** No idle, busy or exited event of a session is ever published before its
      spawned event. */
  lemma ReportsFollowSpawned<K>(run: seq<Label<K>>, b: Bus<K>, i: nat)
    requires Reaches(run, b) && i < |b.log| && Reports(b.log[i])
    ensures exists j :: 0 <= j < i && Announces(b.log[j], b.log[i].id)
  {
    AlwaysOk(run);
    assert Heard(b.log[..i], b.log[i].id);
    var j :| 0 <= j < i && Announces(b.log[..i][j], b.log[i].id);
    assert Announces(b.log[j], b.log[i].id);
  }

  /** A feed is a gap-free run of what was published since it subscribed: all of
      it while it is listed, a prefix once it was dropped or closed. Its queue
      never exceeds its capacity, and its channel closes once at most. */
  lemma FeedsHaveNoGap<K>(run: seq<Label<K>>, b: Bus<K>, k: K)
    requires Reaches(run, b) && k in b.feeds
    ensures var f := b.feeds[k];
      && f.since <= |b.log| && Sent(f) <= b.log[f.since..]
      && (f.listed ==> Sent(f) == b.log[f.since..])
      && |f.queue| <= f.capacity && f.closes == Count(f.done) <= 1
      && (f.lagged ==> f.done) && (b.closed ==> !f.listed)
  {
    AlwaysOk(run);
    var f := b.feeds[k];
    assert FeedOk(f, b.log);
    assert b.log[f.since..][..|Sent(f)|] == b.log[f.since..f.since + |Sent(f)|];
    assert f.listed ==> k in Listed(b);
  }

  /** So a reader hears of a session before it hears reports of it, unless the
      session was announced before the reader subscribed. */
  lemma ReadersHearSpawnedFirst<K>(run: seq<Label<K>>, b: Bus<K>, k: K, i: nat)
    requires Reaches(run, b) && k in b.feeds
    requires i < |Sent(b.feeds[k])| && Reports(Sent(b.feeds[k])[i])
    ensures var f := b.feeds[k];
      && f.since <= |b.log|
      && (Heard(b.log[..f.since], Sent(f)[i].id) || Heard(Sent(f)[..i], Sent(f)[i].id))
  {
    AlwaysOk(run);
    HeardByReader(b.log, b.feeds[k], i);
  }

  lemma HeardByReader(log: seq<Event>, f: Feed, i: nat)
    requires InOrder(log) && FeedOk(f, log) && i < |Sent(f)| && Reports(Sent(f)[i])
    ensures f.since <= |log|
    ensures Heard(log[..f.since], Sent(f)[i].id) || Heard(Sent(f)[..i], Sent(f)[i].id)
  {
    var sent, at := Sent(f), f.since + i;
    assert log[at] == sent[i];
    var j :| 0 <= j < at && Announces(log[..at][j], sent[i].id);
    if j < f.since {
      assert Announces(log[..f.since][j], sent[i].id);
    } else {
      assert Announces(sent[..i][j - f.since], sent[i].id);
    }
  }

  /** The removed event is another matter, whatever the documentation of the
      feed says. At the moment it is published, the session has been announced
      exactly if its spawn has come that far. */
  lemma RemovedAtPublication<K>(run: seq<Label<K>>, b: Bus<K>, id: string)
    requires Reaches(run, b) && !b.closed && Enabled(b, SayRemoved(id))
    ensures Next(b, SayRemoved(id)).log == b.log + [Removed(id)]
    ensures Heard(b.log, id) <==> PhaseOf(b, id) in {Announced, Open}
  {
    AlwaysOk(run);
    assert PhaseOk(b, id);
  }

  predicate RemovedAfterSpawned(log: seq<Event>, id: string) {
    forall i :: 0 <= i < |log| && log[i] == Removed(id) ==> Heard(log[..i], id)
  }

  /** At the call, while the engine is open and the session in its registry: the
      removed event comes after the spawned one however the program goes on,
      exactly if the spawn has announced the session already, as it has before
      it returns. A removal in the meantime can be published first. */
  lemma RemovedFollowsSpawned<K>(run: seq<Label<K>>, b: Bus<K>, id: string)
    requires Reaches(run, b) && !b.closed && id in b.sessions
    ensures PhaseOf(b, id) in {Registered, Announced, Open}
    ensures (forall more :: RemovedAfterSpawned(Exec(b, more).log, id)) <==> PhaseOf(b, id) in {Announced, Open}
  {
    AlwaysOk(run);
    AlwaysRegistry(run, id);
    assert PhaseOk(b, id);
    if Heard(b.log, id) {
      forall more
        ensures RemovedAfterSpawned(Exec(b, more).log, id)
      {
        AnnouncedStays(b, more, id);
      }
    } else {
      RemovalGoesFirst(b, id);
    }
  }

  lemma AnnouncedStays<K>(b: Bus<K>, more: seq<Label<K>>, id: string)
    requires Heard(b.log, id) && Removed(id) !in b.log
    ensures RemovedAfterSpawned(Exec(b, more).log, id)
  {
    LogOnlyGrows(b, more);
    var log := Exec(b, more).log;
    var j :| 0 <= j < |b.log| && Announces(b.log[j], id);
    forall i | 0 <= i < |log| && log[i] == Removed(id)
      ensures Heard(log[..i], id)
    {
      assert i >= |b.log|;
      assert Announces(log[..i][j], id);
    }
  }

  /** The continuation that shows it: both halves of the removal, at once. */
  lemma RemovalGoesFirst<K>(b: Bus<K>, id: string)
    requires !b.closed && id in b.sessions && !Heard(b.log, id)
    ensures !RemovedAfterSpawned(Exec(b, [Unregister(id)] + [SayRemoved(id)]).log, id)
  {
    var first: seq<Label<K>> := [Unregister(id)];
    Ran(b, [], Unregister(id));
    assert [] + first == first;
    Ran(b, first, SayRemoved(id));
    var log := Exec(b, first + [SayRemoved(id)]).log;
    assert log == b.log + [Removed(id)];
    assert log[..|b.log|] == b.log;
  }

  /** A spawn registers its session before it announces it, so a removal can slip
      in between and be published first. */
  lemma RemovedCanComeFirst(id: string, command: string)
    ensures Exec(Init<nat>(), [Ask(id), Start(id, true), Register(id), Unregister(id), SayRemoved(id), Announce(id, command)]).log
         == [Removed(id), Spawned(id, command)]
  {
    var asked: seq<Label<nat>> := [Ask(id)];
    var started := asked + [Start(id, true)];
    var registered := started + [Register(id)];
    var unregistered := registered + [Unregister(id)];
    var removed := unregistered + [SayRemoved(id)];
    Ran(Init<nat>(), [], Ask(id));
    Ran(Init<nat>(), asked, Start(id, true));
    assert Exec(Init<nat>(), started) == Phased(Phased(Init<nat>(), id, Asked), id, Started);
    Ran(Init<nat>(), started, Register(id));
    Ran(Init<nat>(), registered, Unregister(id));
    var b := Exec(Init<nat>(), unregistered);
    assert id in b.leaving && !b.closed && PhaseOf(b, id) == Registered && b.log == [];
    Ran(Init<nat>(), unregistered, SayRemoved(id));
    Ran(Init<nat>(), removed, Announce(id, command));
    assert removed + [Announce(id, command)]
        == [Ask(id), Start(id, true), Register(id), Unregister(id), SayRemoved(id), Announce(id, command)];
  }

  lemma Ran<K>(b: Bus<K>, run: seq<Label<K>>, l: Label<K>)
    ensures Exec(b, run + [l]) == if Enabled(Exec(b, run), l) then Next(Exec(b, run), l) else Exec(b, run)
  {
    assert (run + [l])[..|run|] == run;
  }
}
