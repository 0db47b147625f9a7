/** The metadata bag of a session and its revision (session.go): conditional
    writes, and what they promise writers that race each other. */
module Metadata {
  import opened Bytes

  type Bag = map<string, string>

  /** What a session keeps: the bag in force, and how many have been. */
  datatype Store = Store(metadata: Bag, revision: nat)

  function Spawned(bag: Bag): Store {
    Store(bag, 1)
  }

  function Put(s: Store, bag: Bag): Store {
    Store(bag, s.revision + 1)
  }

  function PutIf(s: Store, expected: nat, bag: Bag): Store {
    if s.revision == expected then Put(s, bag) else s
  }

  class SessionMetadata {
    var metadata: Bag
    var revision: nat
    ghost var history: seq<Bag>   // every bag that was ever in force

    /** A revision names one bag, forever. */
    ghost predicate Valid()
      reads this
    {
      revision == |history| && history != [] && metadata == history[revision - 1]
    }

    ghost function Value(): Store
      reads this
    {
      Store(metadata, revision)
    }

    constructor (bag: Bag)
      ensures Valid() && history == [bag] && Value() == Spawned(bag)
    {
      metadata, revision, history := bag, 1, [bag];
    }

    method Metadata() returns (bag: Bag)
      requires Valid()
      ensures bag == history[revision - 1]
    {
      bag := metadata;
    }

    method Revision() returns (current: nat)
      requires Valid()
      ensures current == |history|
    {
      current := revision;
    }

    method SetMetadata(bag: Bag) returns (current: nat)
      requires Valid()
      modifies this
      ensures Valid() && history == old(history) + [bag]
      ensures current == |history| && Value() == Put(old(Value()), bag)
    {
      metadata := bag;
      revision := revision + 1;
      history := history + [bag];
      current := revision;
    }

    /** A refused write changes nothing and reports the revision that beat it. */
    method SetMetadataIf(expected: nat, bag: Bag) returns (current: nat, written: bool)
      requires Valid()
      modifies this
      ensures Valid() && history == if written then old(history) + [bag] else old(history)
      ensures written <==> expected == |old(history)|
      ensures current == |history| && Value() == PutIf(old(Value()), expected, bag)
    {
      if revision != expected {
        return revision, false;
      }
      metadata := bag;
      revision := revision + 1;
      history := history + [bag];
      return revision, true;
    }

    /** Others write while nobody holds the lock. */
    method Interfere(writes: seq<Bag>)
      requires Valid()
      modifies this
      ensures Valid() && history == old(history) + writes
    {
      for i := 0 to |writes|
        invariant Valid() && history == old(history) + writes[..i]
      {
        var _ := SetMetadata(writes[i]);
      }
    }

    /** What a client is told (server.go): the bag is read first, and the revision
        after it, each under the lock by itself; `between` is what others write in
        the meantime. */
    method Describe(between: seq<Bag>) returns (info: Store)
      requires Valid()
      modifies this
      ensures Valid() && history == old(history) + between
      ensures info == Store(old(history)[|old(history)| - 1], |history|)
    {
      var bag := Metadata();
      Interfere(between);
      var current := Revision();
      info := Store(bag, current);
    }

    /** The set_metadata request (server.go): a stale condition is a conflict, and
        either way the answer describes the session, `before` and `between` being
        what others write before that and during it. The bag it carries was in
        force once the write was decided, but need not be that of its revision. */
    method HandleSetMetadata(ifRevision: Option<nat>, bag: Bag, before: seq<Bag>, between: seq<Bag>)
      returns (conflict: bool, info: Store)
      requires Valid()
      modifies this
      ensures Valid()
      ensures conflict <==> ifRevision.Some? && ifRevision.value != |old(history)|
      ensures history == (if conflict then old(history) else old(history) + [bag]) + before + between
      ensures info == Store(history[|history| - |between| - 1], |history|)
    {
      conflict := false;
      if ifRevision.Some? {
        var _, written := SetMetadataIf(ifRevision.value, bag);
        conflict := !written;
      } else {
        var _ := SetMetadata(bag);
      }
      Interfere(before);
      info := Describe(between);
    }
  }

  // ----- racing writers ---------------------------------------------------------------

  /** One attempt at a conditional write: what has been read for it so far, which
      revision the bag was read at, and when each was read. */
  datatype Attempt = Attempt(
    revision: Option<nat>,
    revisionAt: nat,
    bag: Option<Bag>,
    source: nat,
    bagAt: nat)

  const FRESH := Attempt(None, 0, None, 0, 0)

  /** An accepted write, as its writer meant it: an edit of the bag of some
      revision, or a bag to put in place of whatever there is. */
  datatype Accepted =
    | Edited(edit: Bag -> Bag, source: nat)
    | Overwritten(bag: Bag)

  datatype System = System(store: Store, attempts: map<nat, Attempt>, accepted: seq<Accepted>, clock: nat)

  datatype Label =
    | TakeRevision(writer: nat)
    | TakeBag(writer: nat)
    | WriteIf(writer: nat, edit: Bag -> Bag)
    | Overwrite(bag: Bag)

  function AttemptOf(s: System, writer: nat): Attempt {
    if writer in s.attempts then s.attempts[writer] else FRESH
  }

  predicate Ready(a: Attempt) {
    a.revision.Some? && a.bag.Some?
  }

  predicate Lands(s: System, writer: nat) {
    Ready(AttemptOf(s, writer)) && AttemptOf(s, writer).revision.value == s.store.revision
  }

  predicate Accepts(s: System, l: Label) {
    l.Overwrite? || (l.WriteIf? && Lands(s, l.writer))
  }

  function Next(s: System, l: Label): System {
    Acted(s, l).(clock := s.clock + 1)
  }

  function Acted(s: System, l: Label): System {
    match l
    case TakeRevision(w) =>
      s.(attempts := s.attempts[w := AttemptOf(s, w).(revision := Some(s.store.revision), revisionAt := s.clock)])
    case TakeBag(w) =>
      s.(attempts := s.attempts[w := AttemptOf(s, w).(bag := Some(s.store.metadata), source := s.store.revision, bagAt := s.clock)])
    case WriteIf(w, edit) =>
      var a := AttemptOf(s, w);
      if !Ready(a) then s
      else s.(store := PutIf(s.store, a.revision.value, edit(a.bag.value)),
              attempts := s.attempts[w := FRESH],
              accepted := if Lands(s, w) then s.accepted + [Edited(edit, a.source)] else s.accepted)
    case Overwrite(bag) => s.(store := Put(s.store, bag), accepted := s.accepted + [Overwritten(bag)])
  }

  function Start(bag: Bag): System {
    System(Spawned(bag), map[], [], 0)
  }

  function Exec(s: System, run: seq<Label>): System {
    if run == [] then s else Next(Exec(s, run[..|run| - 1]), run[|run| - 1])
  }

  ghost predicate Leads(s: System, run: seq<Label>, next: System) {
    next == Exec(s, run)
  }

  /** What writers do: they read, and note what and when; an attempt goes through if
      the revision noted is the one in force, and is over in any case. */
  lemma WritersAct(s: System, w: nat, edit: Bag -> Bag, bag: Bag)
    ensures var next := Next(s, TakeRevision(w));
      next == s.(clock := s.clock + 1, attempts := next.attempts)
      && next.attempts == s.attempts[w := AttemptOf(s, w).(revision := Some(s.store.revision), revisionAt := s.clock)]
    ensures var next := Next(s, TakeBag(w));
      next == s.(clock := s.clock + 1, attempts := next.attempts)
      && next.attempts == s.attempts[w := AttemptOf(s, w).(bag := Some(s.store.metadata), source := s.store.revision, bagAt := s.clock)]
    ensures var a, next := AttemptOf(s, w), Next(s, WriteIf(w, edit));
      && (a.revision.None? || a.bag.None? ==> next == s.(clock := s.clock + 1))
      && (a.revision.Some? && a.bag.Some? ==>
            var through := a.revision.value == s.store.revision;
            && AttemptOf(next, w).revision.None? && AttemptOf(next, w).bag.None?
            && (forall j :: j != w ==> AttemptOf(next, j) == AttemptOf(s, j))
            && next.store == (if through then Store(edit(a.bag.value), s.store.revision + 1) else s.store)
            && next.accepted == s.accepted + if through then [Edited(edit, a.source)] else [])
    ensures var next := Next(s, Overwrite(bag));
      next == s.(clock := s.clock + 1, store := Store(bag, s.store.revision + 1), accepted := s.accepted + [Overwritten(bag)])
    ensures Start(bag) == System(Store(bag, 1), map[], [], 0)
  {
    assert s.accepted + [] == s.accepted;
  }

  // ----- where every bag comes from -----------------------------------------------------

  /** The bag of a revision, as the accepted writes make it: each edit is applied
      to the bag of the revision it was derived from. */
  function BagOf(initial: Bag, accepted: seq<Accepted>, revision: nat): Bag
    requires 1 <= revision <= |accepted| + 1
    decreases revision
  {
    if revision == 1 then initial
    else
      match accepted[revision - 2]
      case Overwritten(bag) => bag
      case Edited(edit, source) =>
        if 1 <= source < revision then edit(BagOf(initial, accepted, source)) else initial
  }

  /** What is accepted later does not change it. */
  lemma {:induction false} BagOfPrefix(initial: Bag, accepted: seq<Accepted>, n: nat, revision: nat)
    requires n <= |accepted| && 1 <= revision <= n + 1
    ensures BagOf(initial, accepted[..n], revision) == BagOf(initial, accepted, revision)
    decreases revision
  {
    if revision > 1 && accepted[revision - 2].Edited? && 1 <= accepted[revision - 2].source < revision {
      BagOfPrefix(initial, accepted, n, accepted[revision - 2].source);
    }
  }

  lemma BagOfMore(initial: Bag, accepted: seq<Accepted>, a: Accepted, revision: nat)
    requires 1 <= revision <= |accepted| + 1
    ensures BagOf(initial, accepted + [a], revision) == BagOf(initial, accepted, revision)
  {
    assert (accepted + [a])[..|accepted|] == accepted;
    BagOfPrefix(initial, accepted + [a], |accepted|, revision);
  }

  ghost predicate Derived(initial: Bag, s: System, a: Attempt) {
    && (a.revision.Some? ==> a.revision.value <= s.store.revision)
    && (a.bag.Some? ==> 1 <= a.source <= |s.accepted| + 1 && a.bag.value == BagOf(initial, s.accepted, a.source))
  }

  ghost predicate Traced(initial: Bag, s: System) {
    && s.store.revision == |s.accepted| + 1
    && s.store.metadata == BagOf(initial, s.accepted, s.store.revision)
    && forall w :: w in s.attempts ==> Derived(initial, s, s.attempts[w])
  }

  lemma TracedStep(initial: Bag, s: System, l: Label)
    requires Traced(initial, s)
    ensures Traced(initial, Next(s, l))
  {
    var next := Next(s, l);
    forall w | w in next.attempts
      ensures Derived(initial, next, next.attempts[w])
    {
      if next.accepted != s.accepted && w in s.attempts && s.attempts[w].bag.Some? {
        BagOfMore(initial, s.accepted, next.accepted[|s.accepted|], s.attempts[w].source);
      }
    }
    if l.WriteIf? && Lands(s, l.writer) {
      var a := s.attempts[l.writer];
      BagOfMore(initial, s.accepted, Edited(l.edit, a.source), a.source);
    }
  }

  /** Over all interleavings, in whatever order writers read: the bag in force is
      what the accepted writes make it, each edit applied to the bag its writer
      read, and the revision counts them. */
  lemma {:induction false} EveryBagIsDerived(initial: Bag, run: seq<Label>)
    ensures Traced(initial, Exec(Start(initial), run))
  {
    if run != [] {
      EveryBagIsDerived(initial, run[..|run| - 1]);
      TracedStep(initial, Exec(Start(initial), run[..|run| - 1]), run[|run| - 1]);
    }
  }

  // ----- when an edit is derived from the bag it replaces ---------------------------------

  /** No write was accepted from one moment of a run to another. */
  ghost predicate Quiet(initial: Bag, run: seq<Label>, lo: nat, hi: nat)
    requires hi <= |run|
  {
    forall m :: lo <= m < hi ==> !AcceptedAt(initial, run, m)
  }

  predicate AcceptedAt(initial: Bag, run: seq<Label>, m: nat)
    requires m < |run|
  {
    Accepts(Exec(Start(initial), run[..m]), run[m])
  }

  function Earlier(i: nat, j: nat): nat {
    if i <= j then i else j
  }

  function Later(i: nat, j: nat): nat {
    if i <= j then j else i
  }

  function RevisionAt(initial: Bag, run: seq<Label>, m: nat): nat
    requires m <= |run|
  {
    Exec(Start(initial), run[..m]).store.revision
  }

  lemma OneLater(initial: Bag, run: seq<Label>, m: nat)
    requires m < |run|
    ensures RevisionAt(initial, run, m + 1)
         == RevisionAt(initial, run, m) + if AcceptedAt(initial, run, m) then 1 else 0
  {
    assert run[..m + 1][..m] == run[..m];
  }

  lemma {:induction false} QuietMeaning(initial: Bag, run: seq<Label>, lo: nat, hi: nat)
    requires lo <= hi <= |run|
    ensures RevisionAt(initial, run, lo) <= RevisionAt(initial, run, hi)
    ensures RevisionAt(initial, run, lo) == RevisionAt(initial, run, hi) <==> Quiet(initial, run, lo, hi)
    decreases hi
  {
    if lo < hi {
      QuietMeaning(initial, run, lo, hi - 1);
      OneLater(initial, run, hi - 1);
      assert Quiet(initial, run, lo, hi) <==> Quiet(initial, run, lo, hi - 1) && !AcceptedAt(initial, run, hi - 1);
    }
  }

  /** An attempt's marks say when its writer made its reads. */
  ghost predicate Dated(initial: Bag, run: seq<Label>, w: nat, a: Attempt) {
    && (a.revision.Some? ==>
          a.revisionAt < |run| && run[a.revisionAt] == TakeRevision(w) && a.revision.value == RevisionAt(initial, run, a.revisionAt))
    && (a.bag.Some? ==>
          a.bagAt < |run| && run[a.bagAt] == TakeBag(w) && a.source == RevisionAt(initial, run, a.bagAt))
  }

  lemma DatedLater(initial: Bag, run: seq<Label>, l: Label, w: nat, a: Attempt)
    requires Dated(initial, run, w, a)
    ensures Dated(initial, run + [l], w, a)
  {
    if a.revision.Some? {
      assert (run + [l])[..a.revisionAt] == run[..a.revisionAt];
    }
    if a.bag.Some? {
      assert (run + [l])[..a.bagAt] == run[..a.bagAt];
    }
  }

  /** A writer that reads now reads what is in force. */
  lemma DatedNow(initial: Bag, run: seq<Label>, s: System, l: Label)
    requires Leads(Start(initial), run, s)
    ensures (run + [l])[|run|] == l && RevisionAt(initial, run + [l], |run|) == s.store.revision
  {
    assert (run + [l])[..|run|] == run;
  }

  lemma DatedStep(initial: Bag, run: seq<Label>, s: System, l: Label, w: nat)
    requires Leads(Start(initial), run, s) && s.clock == |run| && Dated(initial, run, w, AttemptOf(s, w))
    ensures Dated(initial, run + [l], w, AttemptOf(Next(s, l), w))
  {
    DatedLater(initial, run, l, w, AttemptOf(s, w));
    DatedNow(initial, run, s, l);
  }

  lemma OneStepMore(initial: Bag, run: seq<Label>, s: System, l: Label, next: System)
    requires Leads(Start(initial), run, s) && next == Next(s, l)
    ensures Leads(Start(initial), run + [l], next)
  {
    assert (run + [l])[..|run|] == run;
  }

  lemma {:induction false} AttemptsAreDated(initial: Bag, run: seq<Label>, w: nat)
    ensures Dated(initial, run, w, AttemptOf(Exec(Start(initial), run), w))
    ensures Exec(Start(initial), run).clock == |run|
  {
    if run != [] {
      var shorter, l := run[..|run| - 1], run[|run| - 1];
      AttemptsAreDated(initial, shorter, w);
      DatedStep(initial, shorter, Exec(Start(initial), shorter), l, w);
      assert shorter + [l] == run;
    }
  }

  /** Exactly when an update is safe. An edit that lands was derived from the bag
      of the revision its writer read the bag at, and that is the revision it
      replaces exactly if no write was accepted between the writer's two reads,
      whichever came first. (A description of a session, server.go, reads the bag
      first.) */
  lemma SafeEdits(initial: Bag, run: seq<Label>, s: System, writer: nat)
    requires Leads(Start(initial), run, s) && Lands(s, writer)
    ensures var a := AttemptOf(s, writer);
      && 1 <= a.source <= s.store.revision == |s.accepted| + 1
      && a.bag.value == BagOf(initial, s.accepted, a.source)
      && a.bagAt < |run| && run[a.bagAt] == TakeBag(writer)
      && a.revisionAt < |run| && run[a.revisionAt] == TakeRevision(writer)
      && (a.source == s.store.revision <==> Quiet(initial, run, Earlier(a.bagAt, a.revisionAt), Later(a.bagAt, a.revisionAt)))
  {
    EveryBagIsDerived(initial, run);
    AttemptsAreDated(initial, run, writer);
    var a := AttemptOf(s, writer);
    assert writer in s.attempts && Derived(initial, s, a);
    QuietMeaning(initial, run, Earlier(a.bagAt, a.revisionAt), Later(a.bagAt, a.revisionAt));
  }

  /** And what becomes of the others: the edit of an old bag goes in force, and
      whatever was accepted since that bag is as if it had never been. */
  lemma StaleEditsUndo(initial: Bag, run: seq<Label>, s: System, writer: nat, edit: Bag -> Bag)
    requires Leads(Start(initial), run, s) && Lands(s, writer)
    ensures var a, next := AttemptOf(s, writer), Next(s, WriteIf(writer, edit));
      && 1 <= a.source <= |s.accepted| + 1
      && next.accepted == s.accepted + [Edited(edit, a.source)]
      && 0 <= a.source - 1 && next.store.metadata == edit(BagOf(initial, s.accepted[..a.source - 1], a.source))
  {
    SafeEdits(initial, run, s, writer);
    var a := AttemptOf(s, writer);
    BagOfPrefix(initial, s.accepted, a.source - 1, a.source);
  }

  // ----- no lost update -------------------------------------------------------------------

  /** The accepted writes one after another, each edit applied to what the one
      before it left. */
  function Serially(bag: Bag, accepted: seq<Accepted>): Bag {
    if accepted == [] then bag
    else
      match accepted[|accepted| - 1]
      case Edited(edit, _) => edit(Serially(bag, accepted[..|accepted| - 1]))
      case Overwritten(written) => written
  }

  /** Every accepted edit was derived from the revision it replaced. */
  predicate UpToDate(accepted: seq<Accepted>) {
    forall i :: 0 <= i < |accepted| && accepted[i].Edited? ==> accepted[i].source == i + 1
  }

  /** A history whose every edit replaced what it was derived from is serial. */
  lemma {:induction false} UpToDateIsSerial(initial: Bag, accepted: seq<Accepted>)
    requires UpToDate(accepted)
    ensures BagOf(initial, accepted, |accepted| + 1) == Serially(initial, accepted)
  {
    if accepted != [] {
      var n := |accepted| - 1;
      UpToDateIsSerial(initial, accepted[..n]);
      BagOfPrefix(initial, accepted, n, n + 1);
    }
  }

  /** Every write that lands in this run found its writer's two reads undisturbed. */
  ghost predicate Undisturbed(initial: Bag, run: seq<Label>) {
    forall m :: 0 <= m < |run| ==> UndisturbedAt(initial, run, m)
  }

  ghost predicate UndisturbedAt(initial: Bag, run: seq<Label>, m: nat)
    requires m < |run|
  {
    var s := Exec(Start(initial), run[..m]);
    run[m].WriteIf? && Lands(s, run[m].writer) ==>
      var a := AttemptOf(s, run[m].writer);
      Later(a.bagAt, a.revisionAt) <= m && Quiet(initial, run[..m], Earlier(a.bagAt, a.revisionAt), Later(a.bagAt, a.revisionAt))
  }

  /** The runs that lose nothing are exactly those: what the interleaving must
      avoid is a write between the two reads of one that lands. */
  lemma {:induction false} UndisturbedIsUpToDate(initial: Bag, run: seq<Label>)
    ensures UpToDate(Exec(Start(initial), run).accepted) <==> Undisturbed(initial, run)
  {
    if run != [] {
      var n := |run| - 1;
      var before := Exec(Start(initial), run[..n]);
      UndisturbedIsUpToDate(initial, run[..n]);
      UndisturbedPrefix(initial, run);
      EveryBagIsDerived(initial, run[..n]);
      if run[n].WriteIf? && Lands(before, run[n].writer) {
        SafeEdits(initial, run[..n], before, run[n].writer);
      }
      UpToDateMore(before.accepted, Exec(Start(initial), run).accepted);
    }
  }

  lemma UndisturbedPrefix(initial: Bag, run: seq<Label>)
    requires run != []
    ensures Undisturbed(initial, run) <==> Undisturbed(initial, run[..|run| - 1]) && UndisturbedAt(initial, run, |run| - 1)
  {
    var shorter := run[..|run| - 1];
    forall m | 0 <= m < |shorter|
      ensures UndisturbedAt(initial, shorter, m) == UndisturbedAt(initial, run, m)
    {
      assert shorter[..m] == run[..m];
    }
  }

  lemma UpToDateMore(accepted: seq<Accepted>, more: seq<Accepted>)
    requires accepted == more || (|more| == |accepted| + 1 && accepted == more[..|accepted|])
    ensures UpToDate(more) <==>
      UpToDate(accepted) && (more != accepted && more[|accepted|].Edited? ==> more[|accepted|].source == |more|)
  {
  }

  /** So in those runs, whatever order the reads were in, the accepted writes
      might have been made one after another. */
  lemma UndisturbedIsSerial(initial: Bag, run: seq<Label>, s: System)
    requires Leads(Start(initial), run, s) && Undisturbed(initial, run)
    ensures s.store.metadata == Serially(initial, s.accepted) && s.store.revision == 1 + |s.accepted|
  {
    EveryBagIsDerived(initial, run);
    UndisturbedIsUpToDate(initial, run);
    UpToDateIsSerial(initial, s.accepted);
  }

  /** The revision is read first, and the bag after it; starting over starts
      over with both. */
  predicate RevisionFirst(s: System, l: Label) {
    && (l.TakeRevision? ==> AttemptOf(s, l.writer).bag.None?)
    && (l.TakeBag? ==> AttemptOf(s, l.writer).revision.Some?)
  }

  predicate Disciplined(s: System, run: seq<Label>) {
    forall i :: 0 <= i < |run| ==> RevisionFirst(Exec(s, run[..i]), run[i])
  }

  /** A bag read after its revision is no older than that. */
  ghost predicate Orderly(s: System) {
    && UpToDate(s.accepted) && s.store.revision == |s.accepted| + 1
    && forall w :: w in s.attempts && s.attempts[w].bag.Some? ==>
         s.attempts[w].revision.Some? && s.attempts[w].revision.value <= s.attempts[w].source <= s.store.revision
  }

  lemma {:induction false} DisciplineKeepsOrder(initial: Bag, run: seq<Label>)
    requires Disciplined(Start(initial), run)
    ensures Orderly(Exec(Start(initial), run))
  {
    if run != [] {
      var shorter := run[..|run| - 1];
      forall i | 0 <= i < |shorter|
        ensures RevisionFirst(Exec(Start(initial), shorter[..i]), shorter[i])
      {
        assert shorter[..i] == run[..i];
      }
      EveryBagIsDerived(initial, shorter);
      DisciplineKeepsOrder(initial, shorter);
      OrderlyStep(initial, Exec(Start(initial), shorter), run[|run| - 1]);
    }
  }

  lemma OrderlyStep(initial: Bag, s: System, l: Label)
    requires Orderly(s) && Traced(initial, s) && RevisionFirst(s, l)
    ensures Orderly(Next(s, l))
  {
    if l.WriteIf? && Lands(s, l.writer) {
      assert l.writer in s.attempts;
    }
  }

  /** No update is lost. However writers that read the revision first interleave,
      with each other and with writers that overwrite without looking, the bag is
      what the accepted writes make of it one after another, the revision counts
      them, and a conditional write that lands was derived from exactly the bag it
      replaces while one that does not land changes nothing. */
  lemma NoLostUpdate(initial: Bag, run: seq<Label>, s: System, writer: nat, edit: Bag -> Bag)
    requires Disciplined(Start(initial), run) && Leads(Start(initial), run, s)
    ensures s.store.metadata == Serially(initial, s.accepted)
    ensures s.store.revision == 1 + |s.accepted|
    ensures Lands(s, writer) ==> AttemptOf(s, writer).bag.value == s.store.metadata
    ensures Next(s, WriteIf(writer, edit)).store == if Lands(s, writer) then Put(s.store, edit(s.store.metadata)) else s.store
  {
    EveryBagIsDerived(initial, run);
    DisciplineKeepsOrder(initial, run);
    UpToDateIsSerial(initial, s.accepted);
    assert Lands(s, writer) ==> writer in s.attempts;
  }

  /** The count of writes that each bump a counter is the count they leave. */
  lemma {:induction false} EveryBumpCounts(initial: Bag, accepted: seq<Accepted>, count: Bag -> int)
    requires forall i :: 0 <= i < |accepted| ==> accepted[i].Edited?
    requires forall i, bag :: 0 <= i < |accepted| ==> count(accepted[i].edit(bag)) == count(bag) + 1
    ensures count(Serially(initial, accepted)) == count(initial) + |accepted|
  {
    if accepted != [] {
      EveryBumpCounts(initial, accepted[..|accepted| - 1], count);
    }
  }

  /** While the revision stands, so does the bag. */
  lemma {:induction false} RevisionNamesOneBag(s: System, run: seq<Label>)
    ensures Exec(s, run).store.revision >= s.store.revision
    ensures Exec(s, run).store.revision == s.store.revision ==> Exec(s, run).store.metadata == s.store.metadata
  {
    if run != [] {
      RevisionNamesOneBag(s, run[..|run| - 1]);
    }
  }

  /** A writer that reads the bag first can undo a write it never saw. */
  lemma BagFirstLosesAnUpdate(initial: Bag, written: Bag, writer: nat, edit: Bag -> Bag)
    ensures var s := Exec(Start(initial), [TakeBag(writer), Overwrite(written), TakeRevision(writer), WriteIf(writer, edit)]);
      && s.accepted == [Overwritten(written), Edited(edit, 1)]
      && s.store.metadata == edit(initial)
      && Serially(initial, s.accepted) == edit(written)
  {
    var tried, last := BothRead(initial, written, writer), WriteIf(writer, edit);
    BothReadReached(initial, written, writer);
    var run: seq<Label> := [TakeBag(writer), Overwrite(written), TakeRevision(writer)];
    OneStepMore(initial, run, tried, last, Next(tried, last));
    assert run + [last] == [TakeBag(writer), Overwrite(written), TakeRevision(writer), last];
    SerialPair(initial, written, edit);
  }

  /** Its run, one step at a time: the bag is read, overwritten, and only then
      is the revision read. */
  function BagRead(initial: Bag, writer: nat): System {
    System(Spawned(initial), map[writer := Attempt(None, 0, Some(initial), 1, 0)], [], 1)
  }

  function BagOverwritten(initial: Bag, written: Bag, writer: nat): System {
    System(Store(written, 2), map[writer := Attempt(None, 0, Some(initial), 1, 0)], [Overwritten(written)], 2)
  }

  function BothRead(initial: Bag, written: Bag, writer: nat): System {
    System(Store(written, 2), map[writer := Attempt(Some(2), 2, Some(initial), 1, 0)], [Overwritten(written)], 3)
  }

  lemma BothReadReached(initial: Bag, written: Bag, writer: nat)
    ensures Leads(Start(initial), [TakeBag(writer), Overwrite(written), TakeRevision(writer)], BothRead(initial, written, writer))
  {
    var one: seq<Label> := [TakeBag(writer)];
    var two := one + [Overwrite(written)];
    OneStepMore(initial, [], Start(initial), TakeBag(writer), BagRead(initial, writer));
    assert [] + one == one;
    OneStepMore(initial, one, BagRead(initial, writer), Overwrite(written), BagOverwritten(initial, written, writer));
    OneStepMore(initial, two, BagOverwritten(initial, written, writer), TakeRevision(writer), BothRead(initial, written, writer));
    assert two + [TakeRevision(writer)] == [TakeBag(writer), Overwrite(written), TakeRevision(writer)];
  }

  lemma SerialPair(initial: Bag, written: Bag, edit: Bag -> Bag)
    ensures Serially(initial, [Overwritten(written), Edited(edit, 1)]) == edit(written)
  {
    var accepted := [Overwritten(written), Edited(edit, 1)];
    assert accepted[..1] == [Overwritten(written)];
  }
}
