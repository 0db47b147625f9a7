/** What a subscriber of a session may count on, over whole runs. */
module Guarantees {
  import opened Bytes
  import opened Boundary
  import opened Reading
  import opened Terminal
  import opened Protocol
  import opened Delivery
  import opened Convergence
  import opened Moves
  import Repainting

  function Sent(sub: Sub): seq<Message> {
    sub.chan.taken + sub.chan.queue
  }

  // ----- convergence for clean streams ------------------------------------------------

  /** What a step does to the record of writes and to the parser. */
  predicate SameParser<K(==)>(s: State<K>, next: State<K>) {
    next.tape.writes == s.tape.writes && next.term.partial == s.term.partial
  }

  lemma SizedParser<K>(s: State<K>, accepted: bool)
    ensures SameParser(s, Sized(s, accepted))
  {
  }

  lemma StepParser<K>(s: State<K>, l: Label<K>)
    requires Enabled(s, l)
    ensures if l.Write? || l.FlushRemnant?
            then Next(s, l).tape.writes == s.tape.writes + [l.chunk] && Next(s, l).term.partial == Fed(s.term, l.chunk).partial
            else SameParser(s, Next(s, l))
  {
    if l.Attach? || l.SetBase? || l.SetView? || l.Settle? {
      SizeStepParser(s, l);
    }
  }

  lemma SizeStepParser<K>(s: State<K>, l: Label<K>)
    requires Enabled(s, l) && (l.Attach? || l.SetBase? || l.SetView? || l.Settle?)
    ensures SameParser(s, Next(s, l))
  {
    match l
    case Attach(k, buffer, resync, cols, rows, accepted) =>
      SizedParser(ViewStated(WithSub(s, k, NewSub(buffer, resync, Taken(s.term), |s.tape.log|)), k, cols, rows), accepted);
    case SetBase(cols, rows, accepted) => SizedParser(BaseStated(s, cols, rows), accepted);
    case SetView(k, cols, rows, accepted) => SizedParser(ViewStated(s, k, cols, rows), accepted);
    case Settle(accepted) => SizedParser(Woken(s), accepted);
  }

  /** The parser holds what the chunks written so far leave unfinished. */
  lemma {:induction false} ParserFollowsWrites<K>(cols: int, rows: int, run: seq<Label<K>>)
    ensures var s := Exec(Init<K>(cols, rows), run);
      AtGround(s.term) <==> Whole(Flatten(s.tape.writes))
    ensures var s := Exec(Init<K>(cols, rows), run);
      s.term.partial == Fed(Fresh(cols, rows), Flatten(s.tape.writes)).partial
  {
    var s := Exec(Init<K>(cols, rows), run);
    if run != [] {
      var before, l := Exec(Init<K>(cols, rows), run[..|run| - 1]), run[|run| - 1];
      ParserFollowsWrites(cols, rows, run[..|run| - 1]);
      if Enabled(before, l) {
        StepParser(before, l);
        if l.Write? || l.FlushRemnant? {
          FlattenAppend(before.tape.writes, l.chunk);
          FedConcat(Fresh(cols, rows), Flatten(before.tape.writes), l.chunk);
          PartialIgnoresScreen(before.term, Fed(Fresh(cols, rows), Flatten(before.tape.writes)), l.chunk);
        }
      }
    }
    GroundIffWhole(Fresh(cols, rows), Flatten(s.tape.writes));
  }

  /** However a clean stream is read, as long as no overgrown tail is flushed,
      the parser is at ground whenever the session's lock is free. */
  lemma {:induction false} CleanStreamsStayGrounded<K>(cols: int, rows: int, inputs: seq<seq<byte>>, run: seq<Label<K>>)
    requires Clean(Flatten(inputs)) && !Overflows(inputs)
    requires Exec(Init<K>(cols, rows), run).tape.writes <= Writes(inputs)
    ensures Grounded(Init(cols, rows), run)
    ensures AtGround(Exec(Init<K>(cols, rows), run).term)
  {
    var s := Exec(Init<K>(cols, rows), run);
    if run != [] {
      var before, l := Exec(Init<K>(cols, rows), run[..|run| - 1]), run[|run| - 1];
      if Enabled(before, l) {
        StepParser(before, l);
      }
      assert before.tape.writes <= s.tape.writes;
      CleanStreamsStayGrounded(cols, rows, inputs, run[..|run| - 1]);
    }
    assert s.tape.writes == Writes(inputs)[..|s.tape.writes|];
    CleanWritesAreWhole(inputs, |s.tape.writes|);
    ParserFollowsWrites(cols, rows, run);
  }

  /** The main claim. Take any stream free of torn runes and any way its reads
      fall that does not overflow; take any run of attaches, resizes, deliveries,
      receives, retries, detaches and closes around those writes. Every listed
      subscriber that is owed nothing has been sent the session's terminal. */
  lemma ReplicaConvergence<K>(cols: int, rows: int, inputs: seq<seq<byte>>, run: seq<Label<K>>, s: State<K>)
    requires Clean(Flatten(inputs)) && !Overflows(inputs)
    requires Reaches(cols, rows, run, s) && s.tape.writes <= Writes(inputs)
    ensures forall k :: k in s.subs && s.subs[k].life.attached && !s.subs[k].life.done && !s.subs[k].missed
                        ==> Replica(s.subs[k]) == s.term
  {
    CleanStreamsStayGrounded(cols, rows, inputs, run);
    RunConverges(Init<K>(cols, rows), run);
    assert forall k :: k in s.subs ==> Follows(s.subs[k], s.term);
  }

  // ----- who is sent what ------------------------------------------------------------

  /** A subscription in debt is sent nothing, or exact state. */
  ghost predicate SilentOrRestored(before: Sub, after: Sub, term: Term) {
    || (Sent(after) == Sent(before) && (after.missed || after.life.done))
    || (Replica(after) == Restored(Taken(term)) && Sent(after) != []
        && Sent(after)[|Sent(after)| - 1] == Resync(Taken(term)))
  }

  lemma RestoredBy(sub: Sub, after: Sub, term: Term, force: bool, drain: Drain)
    requires Served(sub, force)
    requires var next := Flushed(sub, Taken(term), force, drain);
      after.seed == next.seed && after.chan.taken == next.chan.taken && after.chan.queue == next.chan.queue
    ensures SilentOrRestored(sub, after, term)
  {
    var next := Flushed(sub, Taken(term), force, drain);
    FlushedReplica(sub, Taken(term), force, drain);
    assert Replica(after) == Replica(next) && Sent(after) == Sent(next);
    assert next.chan.queue[|next.chan.queue| - 1] == Resync(Taken(term));
  }

  lemma MoveIsQuiet(sub: Sub, move: Move, term: Term)
    requires SubOk(sub)
    ensures var after := Made(sub, move, Taken(term));
      && (sub.life.done ==> after.life.done && Sent(after) == Sent(sub))
      && (sub.missed ==> SilentOrRestored(sub, after, term))
  {
    var after := Made(sub, move, Taken(term));
    match move
    case Flush(force, drain) =>
      if Served(sub, force) {
        RestoredBy(sub, after, term, force, drain);
      }
    case Leave(drain) =>
      if Served(sub, true) {
        RestoredBy(sub, after, term, true, drain);
      }
    case Strand(drain) =>
      if Served(sub, true) {
        RestoredBy(sub, after, term, true, drain);
      }
    case Pull => DrainedSame(sub, 1);
    case _ =>
  }

  /** In every step: nothing is sent on a stream that has ended, and a subscriber
      in debt is sent nothing until a resync that carries the session's state. */
  lemma StepIsQuiet<K>(s: State<K>, l: Label<K>, next: State<K>, k: K)
    requires Inv(s) && Steps(s, l, next) && k in s.subs
    ensures k in next.subs
    ensures s.subs[k].life.done ==> next.subs[k].life.done && Sent(next.subs[k]) == Sent(s.subs[k])
    ensures s.subs[k].missed ==> SilentOrRestored(s.subs[k], next.subs[k], s.term)
  {
    var move := StepMove(s, l, k);
    MoveIsQuiet(s.subs[k], move, s.term);
  }

  /** Once delisted, a subscription's replica is what it will ever be. */
  lemma MoveOfDelisted(sub: Sub, move: Move, state: Snapshot)
    requires !sub.life.attached && !move.Deliver? && !move.Flush? && !move.Leave? && !move.Strand?
    ensures var after := Made(sub, move, state);
      && !after.life.attached && Sent(after) == Sent(sub) && after.seed == sub.seed && (sub.life.done ==> after.life.done)
  {
    DrainedSame(sub, 1);
  }

  lemma {:induction false} DelistedIsFinal<K>(s: State<K>, run: seq<Label<K>>, k: K)
    requires k in s.subs && !s.subs[k].life.attached
    ensures var next := Exec(s, run);
      k in next.subs && !next.subs[k].life.attached && Sent(next.subs[k]) == Sent(s.subs[k]) && next.subs[k].seed == s.subs[k].seed
  {
    if run != [] {
      var before, l := Exec(s, run[..|run| - 1]), run[|run| - 1];
      DelistedIsFinal(s, run[..|run| - 1], k);
      if Enabled(before, l) {
        var move := StepMove(before, l, k);
        MoveOfDelisted(before.subs[k], move, Taken(before.term));
      }
    }
  }

  // ----- the last word ----------------------------------------------------------------

  /** A subscriber that is owed nothing shows what the terminal shows, whatever
      their parsers hold. */
  ghost predicate Resembles(sub: Sub, term: Term) {
    sub.life.attached && Listening(sub) ==> Taken(Replica(sub)) == Taken(term)
  }

  lemma MoveResembles(sub: Sub, move: Move, term: Term)
    requires Resembles(sub, term) && !move.Deliver?
    ensures Resembles(Made(sub, move, Taken(term)), term)
  {
    match move
    case Flush(force, drain) => FlushedReplica(sub, Taken(term), force, drain);
    case Leave(drain) => FlushedReplica(sub, Taken(term), true, drain);
    case Pull => DrainedReplica(sub, 1);
    case _ =>
  }

  ghost predicate AllResemble<K>(s: State<K>) {
    forall k :: k in s.subs ==> Resembles(s.subs[k], s.term)
  }

  lemma NewcomerResembles<K>(s: State<K>, k: K, buffer: int, resync: bool, cols: int, rows: int, accepted: bool)
    requires k !in s.subs
    requires Attached(s, k, buffer, resync, cols, rows, accepted).tape.log == s.tape.log
    ensures Resembles(Attached(s, k, buffer, resync, cols, rows, accepted).subs[k], s.term)
  {
    var sub := NewSub(buffer, resync, Taken(s.term), |s.tape.log|);
    assert sub.chan.taken + sub.chan.queue == [];
    if !s.exited && !s.closed && IsSize(cols, rows) {
      SizedSilently(ViewStated(WithSub(s, k, sub), k, cols, rows), accepted);
    }
  }

  /** A resize that broadcasts nothing did nothing. */
  lemma SizedSilently<K>(s: State<K>, accepted: bool)
    ensures s.tape.log <= Sized(s, accepted).tape.log
    ensures Sized(s, accepted).tape.log == s.tape.log ==> Sized(s, accepted) == s
    ensures Sized(s, accepted).subs.Keys == s.subs.Keys
  {
    var want := Effective(s);
    var moved := s.(term := Moved(s.term, want.cols, want.rows));
    BroadcastShape(moved, Repaint(Taken(moved.term)));
    assert |s.tape.log + [Repaint(Taken(moved.term))]| != |s.tape.log|;
  }

  /** A step only adds to the log, moves the terminal only by broadcasting, and
      brings in a subscription only by an attach. */
  predicate Framed<K(==)>(s: State<K>, newcomers: set<K>, next: State<K>) {
    && s.tape.log <= next.tape.log
    && (next.tape.log == s.tape.log ==> next.term == s.term)
    && next.subs.Keys == s.subs.Keys + newcomers
  }

  function Newcomers<K(==)>(l: Label<K>): set<K> {
    if l.Attach? then {l.sub} else {}
  }

  lemma AttachedFramed<K>(s: State<K>, k: K, buffer: int, resync: bool, cols: int, rows: int, accepted: bool)
    ensures Framed(s, {k}, Attached(s, k, buffer, resync, cols, rows, accepted))
  {
    var spent := SpentSub(buffer, resync, Taken(s.term), |s.tape.log|);
    var listed := WithSub(s, k, NewSub(buffer, resync, Taken(s.term), |s.tape.log|));
    WithSubFramed(s, k, spent);
    WithSubFramed(s, k, NewSub(buffer, resync, Taken(s.term), |s.tape.log|));
    if !s.exited && !s.closed && IsSize(cols, rows) {
      var sized := Sized(ViewStated(listed, k, cols, rows), accepted);
      SizedSilently(ViewStated(listed, k, cols, rows), accepted);
      WithSubFramed(sized, k, sized.subs[k].(seed := Taken(sized.term)));
    }
  }

  lemma WithSubFramed<K>(s: State<K>, k: K, sub: Sub)
    ensures Framed(s, {k}, WithSub(s, k, sub))
  {
  }

  lemma BaseSizedFramed<K>(s: State<K>, cols: int, rows: int, accepted: bool)
    ensures Framed(s, {}, BaseSized(s, cols, rows, accepted))
  {
    SizedSilently(BaseStated(s, cols, rows), accepted);
  }

  lemma ViewSizedFramed<K>(s: State<K>, k: K, cols: int, rows: int, accepted: bool)
    ensures Framed(s, {}, ViewSized(s, k, cols, rows, accepted))
  {
    SizedSilently(ViewStated(s, k, cols, rows), accepted);
  }

  lemma SettledFramed<K>(s: State<K>, accepted: bool)
    requires s.geo.settles > 0
    ensures Framed(s, {}, Settled(s, accepted))
  {
    SizedSilently(Woken(s), accepted);
  }

  lemma SizeStepFramed<K>(s: State<K>, l: Label<K>)
    requires Enabled(s, l) && (l.Attach? || l.SetBase? || l.SetView? || l.Settle?)
    ensures Framed(s, Newcomers(l), Next(s, l))
  {
    match l
    case Attach(k, buffer, resync, cols, rows, accepted) => AttachedFramed(s, k, buffer, resync, cols, rows, accepted);
    case SetBase(cols, rows, accepted) => BaseSizedFramed(s, cols, rows, accepted);
    case SetView(k, cols, rows, accepted) => ViewSizedFramed(s, k, cols, rows, accepted);
    case Settle(accepted) => SettledFramed(s, accepted);
  }

  lemma StreamStepFramed<K>(s: State<K>, l: Label<K>)
    requires Enabled(s, l) && (l.Write? || l.FlushRemnant? || l.EndStream? || l.CloseSession? || l.RetryFires?)
    ensures Framed(s, Newcomers(l), Next(s, l))
  {
    if l.Write? || l.FlushRemnant? {
      BroadcastShape(Recorded(s.(term := Printed(s.term, l.chunk)), l.chunk), Output(l.chunk));
      assert |s.tape.log + [Output(l.chunk)]| != |s.tape.log|;
    }
  }

  lemma StepFramed<K>(s: State<K>, l: Label<K>)
    requires Enabled(s, l)
    ensures Framed(s, Newcomers(l), Next(s, l))
  {
    if l.Attach? || l.SetBase? || l.SetView? || l.Settle? {
      SizeStepFramed(s, l);
    } else if l.Write? || l.FlushRemnant? || l.EndStream? || l.CloseSession? || l.RetryFires? {
      StreamStepFramed(s, l);
    }
  }

  lemma {:induction false} LogGrows<K>(s: State<K>, run: seq<Label<K>>)
    ensures s.tape.log <= Exec(s, run).tape.log
  {
    if run != [] {
      LogGrows(s, run[..|run| - 1]);
      var before, l := Exec(s, run[..|run| - 1]), run[|run| - 1];
      if Enabled(before, l) {
        StepFramed(before, l);
      }
    }
  }

  lemma CalmStep<K>(s: State<K>, l: Label<K>)
    requires AllResemble(s) && Enabled(s, l) && Next(s, l).tape.log == s.tape.log
    ensures AllResemble(Next(s, l))
  {
    var next := Next(s, l);
    StepFramed(s, l);
    forall k | k in next.subs
      ensures Resembles(next.subs[k], next.term)
    {
      if k in s.subs {
        var move := StepMove(s, l, k);
        MoveResembles(s.subs[k], move, s.term);
      } else {
        NewcomerResembles(s, k, l.buffer, l.resync, l.cols, l.rows, l.accepted);
      }
    }
  }

  /** While nothing is broadcast, resemblance is kept: by retries, receives,
      detaches and new attaches. */
  lemma {:induction false} CalmKeepsResemblance<K>(s: State<K>, run: seq<Label<K>>)
    requires AllResemble(s) && Exec(s, run).tape.log == s.tape.log
    ensures AllResemble(Exec(s, run))
  {
    if run != [] {
      var before, l := Exec(s, run[..|run| - 1]), run[|run| - 1];
      LogGrows(s, run[..|run| - 1]);
      if Enabled(before, l) {
        StepFramed(before, l);
      }
      CalmKeepsResemblance(s, run[..|run| - 1]);
      if Enabled(before, l) {
        CalmStep(before, l);
      }
    }
  }

  predicate Ends<K(==)>(s: State<K>, l: Label<K>) {
    (l.EndStream? && !s.tape.ended) || (l.CloseSession? && !s.closed)
  }

  lemma LastCall(sub: Sub, term: Term, drain: Drain)
    requires Listening(sub) || Owed(sub)
    requires Listening(sub) ==> Taken(Replica(sub)) == Taken(term)
    ensures Taken(Replica(Made(sub, Leave(drain), Taken(term)))) == Taken(term)
    ensures Taken(Replica(Made(sub, Strand(drain), Taken(term)))) == Taken(term)
    ensures AtGround(term) && (Listening(sub) ==> Replica(sub) == term) ==>
      Replica(Made(sub, Leave(drain), Taken(term))) == Replica(Made(sub, Strand(drain), Taken(term))) == term
  {
    FlushedReplica(sub, Taken(term), true, drain);
    var flushed := Flushed(sub, Taken(term), true, drain);
    assert Replica(Made(sub, Leave(drain), Taken(term))) == Replica(flushed);
    assert Replica(Made(sub, Strand(drain), Taken(term))) == Replica(flushed);
  }

  /** Both endings leave every listed subscriber with the state of that moment,
      paying debts at the cost of queued messages. */
  lemma EndingHandsOver<K>(s: State<K>, l: Label<K>, k: K)
    requires Ends(s, l) && k in s.subs && s.subs[k].life.attached && !s.subs[k].life.done
    requires Resembles(s.subs[k], s.term)
    ensures k in Next(s, l).subs && !Next(s, l).subs[k].life.attached
    ensures Taken(Replica(Next(s, l).subs[k])) == Taken(s.term)
    ensures Follows(s.subs[k], s.term) && AtGround(s.term) ==> Replica(Next(s, l).subs[k]) == s.term
  {
    LastCall(s.subs[k], s.term, DrainOf(l.drains, k));
    EndingMakes(s, l, k);
  }

  lemma EndingMakes<K>(s: State<K>, l: Label<K>, k: K)
    requires Ends(s, l) && k in s.subs && s.subs[k].life.attached
    ensures k in Next(s, l).subs
    ensures Next(s, l).subs[k]
         == Made(s.subs[k], if l.EndStream? then Leave(DrainOf(l.drains, k)) else Strand(DrainOf(l.drains, k)), Taken(s.term))
  {
    if l.EndStream? {
      var ended, _ := EndingMove(s, l.drains, false, k);
      assert Next(s, l) == StreamEnded(s, l.drains);
    } else {
      var _, closed := EndingMove(s, l.drains, l.stopped, k);
      assert Next(s, l) == SessionClosed(s, l.drains, l.stopped);
    }
  }

  /** The last word, for whom the forced flush exists: on every run whatsoever,
      torn, overflowed or garbled, a subscriber that is owed state when the stream
      ends or the session closes, and drains its channel, shows what the session
      showed. */
  lemma LastWordForDebtors<K>(s: State<K>, ending: Label<K>, ended: State<K>, later: seq<Label<K>>, last: State<K>, k: K)
    requires k in s.subs && s.subs[k].life.attached && Owed(s.subs[k])
    requires Ends(s, ending) && Steps(s, ending, ended) && Leads(ended, later, last)
    ensures k in last.subs && Taken(Replica(last.subs[k])) == Taken(s.term)
    ensures last.subs[k].chan.queue == [] ==>
      Taken(AllShown(Restored(last.subs[k].seed), last.subs[k].chan.taken)) == Taken(s.term)
  {
    EndingHandsOver(s, ending, k);
    DelistedIsFinal(ended, later, k);
    DrainedShows(last.subs[k]);
  }

  lemma DrainedShows(sub: Sub)
    ensures sub.chan.queue == [] ==> Replica(sub) == AllShown(Restored(sub.seed), sub.chan.taken)
  {
    if sub.chan.queue == [] {
      assert sub.chan.taken + [] == sub.chan.taken;
    }
  }

  /** For a subscriber that is owed nothing the ending changes nothing, so it
      depends on what came before. What can spoil it is a resize while the parser
      is in the middle of something: a replica in step stays in step exactly if
      the repaint meets it at ground, and shows what the terminal shows in one
      case more, in a string that swallows the repaint. */
  lemma RepaintNeedsGround(sub: Sub, term: Term, cols: int, rows: int)
    requires Listening(sub) && !Full(sub) && Replica(sub) == term
    ensures var moved := Moved(term, cols, rows);
      var replica := Replica(Delivered(sub, Repaint(Taken(moved))));
      && (replica == moved <==> AtGround(term))
      && (Taken(replica) == Taken(moved) <==> AtGround(term) || Swallows(term.partial, Taken(moved)))
  {
    var moved := Moved(term, cols, rows);
    var paint := Taken(moved);
    SentMore(sub, Repaint(paint));
    assert Shown(term, Repaint(paint)) == Painted(moved, paint);
    if !AtGround(term) {
      FedDraws(moved, RepaintBytes(paint));
      PaintedOffGround(moved, paint);
      NeverTheSame(moved, paint);
    }
  }

  /** Between the flush of a torn remnant and the last call the lock is free, and a
      resize may land there. A replica that was in step and is owed nothing then
      shows the session's last state exactly if the parser was at ground, or in a
      string that swallows the repaint. */
  lemma ResizedBeforeTheEnd<K>(s: State<K>, k: K, cols: int, rows: int, resized: State<K>,
                               ending: Label<K>, ended: State<K>)
    requires k in s.subs && s.subs[k].life.attached && Listening(s.subs[k]) && !Full(s.subs[k])
    requires Replica(s.subs[k]) == s.term && IsSize(cols, rows) && !(cols == s.term.cols && rows == s.term.rows)
    requires Steps(s, SetBase(cols, rows, true), resized) && Ends(resized, ending) && Steps(resized, ending, ended)
    ensures k in ended.subs
    ensures Taken(Replica(ended.subs[k])) == Taken(resized.term)
       <==> AtGround(s.term) || Swallows(s.term.partial, Taken(resized.term))
  {
    BaseResized(s, k, cols, rows, resized);
    RepaintNeedsGround(s.subs[k], s.term, cols, rows);
    EndingSpares(resized, ending, ended, k);
  }

  lemma EndingSpares<K>(s: State<K>, ending: Label<K>, ended: State<K>, k: K)
    requires k in s.subs && s.subs[k].life.attached && Listening(s.subs[k])
    requires Ends(s, ending) && Steps(s, ending, ended)
    ensures k in ended.subs && Replica(ended.subs[k]) == Replica(s.subs[k])
  {
    EndingMakes(s, ending, k);
    EndingSparesListeners(s.subs[k], s.term, DrainOf(ending.drains, k));
  }

  lemma BaseResized<K>(s: State<K>, k: K, cols: int, rows: int, resized: State<K>)
    requires k in s.subs && s.subs[k].life.attached && Listening(s.subs[k]) && !Full(s.subs[k])
    requires IsSize(cols, rows) && !(cols == s.term.cols && rows == s.term.rows) && Steps(s, SetBase(cols, rows, true), resized)
    ensures resized.term == Moved(s.term, cols, rows)
    ensures k in resized.subs && resized.subs[k] == Delivered(s.subs[k], Repaint(Taken(resized.term)))
    ensures resized.subs[k].life.attached && Listening(resized.subs[k])
  {
    var stated, moved := BaseStated(s, cols, rows), Moved(s.term, cols, rows);
    assert Effective(stated) == Statement(None, cols, rows);
    assert resized == Broadcast(stated.(term := moved), Repaint(Taken(moved)));
    BroadcastShape(stated.(term := moved), Repaint(Taken(moved)));
  }

  lemma EndingSparesListeners(sub: Sub, term: Term, drain: Drain)
    requires Listening(sub)
    ensures Replica(Made(sub, Leave(drain), Taken(term))) == Replica(sub)
    ensures Replica(Made(sub, Strand(drain), Taken(term))) == Replica(sub)
  {
    FlushedReplica(sub, Taken(term), true, drain);
  }

  /** Such a replica and a parser off ground do meet: a viewer attaches, and the
      stream ends after a lone ESC, which is no string. */
  lemma TornRemnantIsReachable(s: State<nat>)
    requires s == Next(Next(Init<nat>(80, 24), Attach(0, 2, true, 0, 0, true)), FlushRemnant([ESC]))
    ensures 0 in s.subs && s.subs[0].life.attached && Listening(s.subs[0]) && !Full(s.subs[0])
    ensures Replica(s.subs[0]) == s.term && s.term.partial == [ESC]
    ensures !AtGround(s.term) && !Repainting.InString(s.term.partial)
  {
    var start := Init<nat>(80, 24);
    var sub := NewSub(2, true, Taken(start.term), 0);
    var attached := WithSub(start, 0, sub);
    assert Next(start, Attach(0, 2, true, 0, 0, true)) == attached;
    assert s == Draining(Written(attached, [ESC]));
    BroadcastShape(Recorded(attached.(term := Printed(attached.term, [ESC])), [ESC]), Output([ESC]));
    NewReplica(sub, attached.term);
    LoneEsc(attached.term);
  }

  lemma NewReplica(sub: Sub, term: Term)
    requires sub.seed == Taken(term) && AtGround(term) && Listening(sub) && !Full(sub)
    requires sub.chan.taken == [] && sub.chan.queue == []
    ensures Replica(Delivered(sub, Output([ESC]))) == Printed(term, [ESC])
  {
    assert sub.chan.taken + sub.chan.queue == [];
    SentMore(sub, Output([ESC]));
  }

  lemma LoneEsc(t: Term)
    requires AtGround(t)
    ensures Printed(t, [ESC]).partial == [ESC] && Run(Ground, [ESC]) == Escape
  {
    assert [ESC][..0] == [];
    assert Run(Ground, [ESC]) == Escape;
    assert Fed(t, [ESC]) == Feed(t, ESC);
    assert t.partial + [ESC] == [ESC];
  }

  /** The last word, for everyone. Let a run keep the parser at ground up to its
      last step, which may flush a torn remnant; then let anything happen that broadcasts
      nothing; then let the stream end or the session close. Whatever happens
      afterwards, a subscriber listed at the end that drains its channel shows
      exactly what the session showed. */
  lemma LastWord<K>(cols: int, rows: int, run: seq<Label<K>>, grounded: State<K>, calm: seq<Label<K>>, s: State<K>,
                    ending: Label<K>, ended: State<K>, later: seq<Label<K>>, last: State<K>, k: K)
    requires Grounded(Init<K>(cols, rows), run) && Reaches(cols, rows, run, grounded)
    requires Leads(grounded, calm, s) && s.tape.log == grounded.tape.log
    requires k in s.subs && s.subs[k].life.attached && !s.subs[k].life.done
    requires Ends(s, ending) && Steps(s, ending, ended) && Leads(ended, later, last)
    ensures k in last.subs && Taken(Replica(last.subs[k])) == Taken(s.term)
    ensures last.subs[k].chan.queue == [] ==>
      Taken(AllShown(Restored(last.subs[k].seed), last.subs[k].chan.taken)) == Taken(s.term)
  {
    RunConverges(Init<K>(cols, rows), run);
    assert forall j :: j in grounded.subs && Follows(grounded.subs[j], grounded.term) ==> Resembles(grounded.subs[j], grounded.term);
    CalmKeepsResemblance(grounded, calm);
    EndingHandsOver(s, ending, k);
    DelistedIsFinal(ended, later, k);
    assert Replica(last.subs[k]) == Replica(ended.subs[k]);
    DrainedShows(last.subs[k]);
  }

  /** If the parser is at ground to the very end, the match is exact: no later
      byte could tell the replica from the session. */
  lemma LastWordExact<K>(cols: int, rows: int, run: seq<Label<K>>, s: State<K>, ending: Label<K>, ended: State<K>,
                         later: seq<Label<K>>, last: State<K>, k: K)
    requires Grounded(Init<K>(cols, rows), run) && Reaches(cols, rows, run, s) && AtGround(s.term)
    requires k in s.subs && s.subs[k].life.attached && !s.subs[k].life.done
    requires Ends(s, ending) && Steps(s, ending, ended) && Leads(ended, later, last)
    ensures k in last.subs && Replica(last.subs[k]) == s.term
  {
    RunConverges(Init<K>(cols, rows), run);
    assert Follows(s.subs[k], s.term);
    EndingHandsOver(s, ending, k);
    DelistedIsFinal(ended, later, k);
  }

  // ----- endings, gaps, bounds and debts, over any run -------------------------------

  /** Queues are bounded, a channel closes once, a retirement runs at most once
      and, when the subscription was closed or dropped, does not go missing. */
  lemma EverySubscription<K>(cols: int, rows: int, run: seq<Label<K>>, s: State<K>, k: K)
    requires Reaches(cols, rows, run, s) && k in s.subs
    ensures var sub := s.subs[k];
      && 1 <= sub.chan.capacity && |sub.chan.queue| <= sub.chan.capacity
      && sub.chan.closes <= 1 && (sub.chan.closes == 1 <==> sub.life.done)
      && (sub.life.lagged ==> sub.life.done && !sub.resync)
      && sub.token.retired <= 1
      && (sub.life.lagged ==> sub.token.retired == 1)
      && (sub.life.shut && sub.life.entered ==> sub.token.retired + Count(sub.token.retiring) == 1)
  {
    InvAlways(cols, rows, run);
    assert Fits(s.subs[k], s.tape.log, s.retry.timer, s.tape.ended, s.closed);
  }

  /** A subscriber that must see every byte sees a contiguous run of what was
      broadcast since it attached, and all of it until it is dropped or closed. */
  lemma PlainStreamsHaveNoGap<K>(cols: int, rows: int, run: seq<Label<K>>, s: State<K>, k: K)
    requires Reaches(cols, rows, run, s) && k in s.subs && !s.subs[k].resync
    ensures s.subs[k].since <= |s.tape.log|
    ensures Sent(s.subs[k]) <= s.tape.log[s.subs[k].since..]
    ensures s.subs[k].life.attached && !s.subs[k].life.done ==> Sent(s.subs[k]) == s.tape.log[s.subs[k].since..]
  {
    InvAlways(cols, rows, run);
    var sub := s.subs[k];
    assert Fits(sub, s.tape.log, s.retry.timer, s.tape.ended, s.closed);
    assert s.tape.log[sub.since..][..|Sent(sub)|] == s.tape.log[sub.since..sub.since + |Sent(sub)|];
  }

  /** Somebody owed state always has a retry coming, and never two. */
  lemma NoStrandedDebt<K>(cols: int, rows: int, run: seq<Label<K>>, s: State<K>, k: K)
    requires Reaches(cols, rows, run, s) && k in s.subs
    ensures s.retry.callbacks <= 1
    ensures !s.closed && s.subs[k].life.attached && Owed(s.subs[k]) ==> s.retry.timer && s.retry.callbacks == 1
  {
    InvAlways(cols, rows, run);
    assert Fits(s.subs[k], s.tape.log, s.retry.timer, s.tape.ended, s.closed);
  }

  /** A retry re-arms itself exactly when it leaves somebody owed. */
  lemma RetryStopsWhenPaid<K>(s: State<K>, drains: map<K, Drain>)
    requires Inv(s) && s.retry.callbacks > 0 && !s.closed
    ensures var next := Retried(s, drains);
      next.retry.timer <==> exists k :: k in next.subs && next.subs[k].life.attached && Owed(next.subs[k])
  {
    var next := Retried(s, drains);
    forall k | k in s.subs
      ensures next.subs[k].life.attached == s.subs[k].life.attached
      ensures s.subs[k].life.attached ==> (Owed(next.subs[k]) <==> Owed(s.subs[k]) && Full(s.subs[k]))
    {
      var sub := s.subs[k];
      assert Fits(sub, s.tape.log, s.retry.timer, s.tape.ended, s.closed);
      if sub.life.attached {
        FlushedReplica(sub, Taken(s.term), false, DrainOf(drains, k));
        AttachedSurvivesFlush(sub, Taken(s.term), false, DrainOf(drains, k));
      }
    }
    if next.retry.timer {
      var k :| k in s.subs && s.subs[k].life.attached && Owed(s.subs[k]) && Full(s.subs[k]);
      assert Owed(next.subs[k]);
    }
    if k :| k in next.subs && next.subs[k].life.attached && Owed(next.subs[k]) {
      assert Owed(s.subs[k]) && Full(s.subs[k]);
    }
  }

  /** A debtor that closes stops counting at once. */
  lemma ClosingClearsDebt<K>(s: State<K>, k: K, next: State<K>)
    requires Inv(s) && k in s.subs && Steps(s, CloseSub(k), next)
    ensures k in next.subs && !Owed(next.subs[k])
    ensures forall j :: j in s.subs && j != k ==> j in next.subs && next.subs[j] == s.subs[j]
  {
  }
}
