/** The emulator and its replicas, as far as the protocol depends on them.

    The cell semantics of the emulator are not part of this model. A screen is
    kept as the record of what drew it, which is the freest deterministic
    emulator there is: screens that are equal here are equal under any
    emulator that draws one whole unit at a time. */
module Terminal {
  import opened Sequences
  import opened Bytes
  import opened Boundary
  import Tracking
  import Repainting

  datatype Screen =
    | Blank(cols: int, rows: int)
    | Drawn(under: Screen, unit: seq<byte>)                         // one whole sequence, rune or control
    | Rewrapped(under: Screen, cols: int, rows: int)

  /** A terminal: what it shows, the unfinished unit its parser holds, and the
      modes tracked beside it. */
  datatype Term = Term(cols: int, rows: int, screen: Screen, partial: seq<byte>, modes: Tracking.Modes)

  /** A serialized terminal. What the parser holds is not in it. */
  datatype Snapshot = Snapshot(cols: int, rows: int, screen: Screen, modes: Tracking.Modes)

  function Fresh(cols: int, rows: int): Term {
    Term(cols, rows, Blank(cols, rows), [], Tracking.FRESH)
  }

  function Taken(t: Term): Snapshot {
    Snapshot(t.cols, t.rows, t.screen, t.modes)
  }

  function Restored(s: Snapshot): Term {
    Term(s.cols, s.rows, s.screen, [], s.modes)
  }

  predicate AtGround(t: Term) {
    t.partial == []
  }

  function Feed(t: Term, b: byte): Term {
    var unit := t.partial + [b];
    if Whole(unit) then t.(screen := Drawn(t.screen, unit), partial := []) else t.(partial := unit)
  }

  function Fed(t: Term, bytes: seq<byte>): Term {
    if bytes == [] then t else Feed(Fed(t, bytes[..|bytes| - 1]), bytes[|bytes| - 1])
  }

  /** One write: the tracker reads the chunk by itself, the emulator byte by byte. */
  function Printed(t: Term, chunk: seq<byte>): Term {
    Fed(t, chunk).(modes := Tracking.Observed(t.modes, chunk))
  }

  /** A resize re-wraps the screen, drops the margins and leaves the parser where
      it is. */
  function Moved(t: Term, cols: int, rows: int): Term {
    t.(cols := cols, rows := rows, screen := Rewrapped(t.screen, cols, rows), modes := Tracking.Resized(t.modes))
  }

  // ----- messages and replicas ---------------------------------------------------

  /** One delivery on a subscription. */
  datatype Message =
    | Output(bytes: seq<byte>)
    | Repaint(paint: Snapshot)    // a new size, with the repaint that rides along
    | Resync(state: Snapshot)     // exact state in place of everything unread

  /** What a repaint may write after its head: whole sequences, runes and
      controls. */
  ghost predicate WritesWhole(body: Snapshot -> seq<byte>) {
    forall s: Snapshot :: Whole(body(s))
  }

  lemma SomeBodyWritesWhole()
    ensures exists body: Snapshot -> seq<byte> :: WritesWhole(body)
  {
    var silent: Snapshot -> seq<byte> := (s: Snapshot) => [];
    assert WritesWhole(silent);
  }

  /** Cells, modes and cursor, as the emulator writes them. Nothing else is known
      of these bytes. */
  ghost function Rendering(): (body: Snapshot -> seq<byte>)
    ensures WritesWhole(body)
  {
    SomeBodyWritesWhole();
    var body: Snapshot -> seq<byte> :| WritesWhole(body);
    body
  }

  ghost function RepaintBytes(paint: Snapshot): seq<byte> {
    Repainting.REPAINT_HEAD + Rendering()(paint)
  }

  /** A repaint is terminal output like any other. If its head clears the screen,
      the cells that follow make it the one painted; if it does not, the screen is
      whatever those bytes draw. It ends with the modes it was taken with;
      `Shadows` reads them off its bytes. */
  ghost function Painted(t: Term, paint: Snapshot): (painted: Term)
    ensures AtGround(t) ==> painted == t.(screen := paint.screen, modes := paint.modes)
    ensures !AtGround(t) ==> painted == Fed(t, RepaintBytes(paint)).(modes := paint.modes)
  {
    Repainting.WipesAtGround(t.partial);
    RepaintIsWhole(t, paint);
    FedDraws(t, RepaintBytes(paint));
    var fed := Fed(t, RepaintBytes(paint)).(modes := paint.modes);
    if Repainting.Wipes(t.partial) then fed.(screen := paint.screen) else fed
  }

  /** What a message makes of a replica: a repaint first resizes it, a resync
      replaces it wholesale. */
  ghost function Shown(replica: Term, m: Message): Term {
    match m
    case Output(bytes) => Printed(replica, bytes)
    case Repaint(paint) => Painted(Moved(replica, paint.cols, paint.rows), paint)
    case Resync(state) => Restored(state)
  }

  ghost function AllShown(replica: Term, messages: seq<Message>): Term {
    if messages == [] then replica
    else Shown(AllShown(replica, messages[..|messages| - 1]), messages[|messages| - 1])
  }

  lemma ShownAppend(replica: Term, messages: seq<Message>, m: Message)
    ensures AllShown(replica, messages + [m]) == Shown(AllShown(replica, messages), m)
  {
  }

  // ----- when the parser is at ground ----------------------------------------------

  lemma {:induction false} FedConcat(t: Term, left: seq<byte>, right: seq<byte>)
    ensures Fed(t, left + right) == Fed(Fed(t, left), right)
    decreases |right|
  {
    if right == [] {
      assert left + right == left;
    } else {
      var shorter := right[..|right| - 1];
      assert (left + right)[..|left + right| - 1] == left + shorter;
      FedConcat(t, left, shorter);
    }
  }

  lemma WholeConcat(left: seq<byte>, right: seq<byte>)
    requires Whole(left)
    ensures Whole(left + right) <==> Whole(right)
  {
    RunConcat(Ground, left, right);
    TailOfSuffix(left, right);
  }

  /** `held` is what remains of `bytes` after a whole part, and is not whole. */
  predicate Splits(bytes: seq<byte>, drawn: seq<byte>, held: seq<byte>) {
    bytes == drawn + held && Whole(drawn) && (held != [] ==> !Whole(held))
  }

  lemma SplitsOneMore(bytes: seq<byte>, drawn: seq<byte>, held: seq<byte>, b: byte)
    requires Splits(bytes, drawn, held)
    ensures if Whole(held + [b]) then Splits(bytes + [b], bytes + [b], []) else Splits(bytes + [b], drawn, held + [b])
  {
    var unit := held + [b];
    assert bytes + [b] == drawn + unit;
    if Whole(unit) {
      WholeConcat(drawn, unit);
      assert bytes + [b] + [] == bytes + [b];
    }
  }

  lemma NothingIsWhole()
    ensures Splits([], [], [])
  {
  }

  lemma HeldOneMore(t: Term, bytes: seq<byte>, b: byte, earlier: seq<byte>) returns (drawn: seq<byte>)
    requires Splits(bytes, earlier, t.partial)
    ensures Splits(bytes + [b], drawn, Feed(t, b).partial)
  {
    SplitsOneMore(bytes, earlier, t.partial, b);
    FeedHolds(t, b);
    drawn := if Whole(t.partial + [b]) then bytes + [b] else earlier;
  }

  /** What a parser holds is the rest of the stream after its last whole part. */
  lemma {:induction false} HeldByParser(t: Term, bytes: seq<byte>) returns (drawn: seq<byte>)
    requires AtGround(t)
    ensures Splits(bytes, drawn, Fed(t, bytes).partial)
  {
    if bytes == [] {
      drawn := [];
      NothingIsWhole();
    } else {
      var shorter, b := bytes[..|bytes| - 1], bytes[|bytes| - 1];
      drawn := HeldByParser(t, shorter);
      drawn := HeldOneMore(Fed(t, shorter), shorter, b, drawn);
      LastApart(bytes);
    }
  }

  lemma FeedHolds(t: Term, b: byte)
    ensures Feed(t, b).partial == if Whole(t.partial + [b]) then [] else t.partial + [b]
  {
  }

  /** Bytes fed to a terminal at ground leave it there exactly when they are
      whole: the condition under which a snapshot misses nothing. */
  lemma GroundIffWhole(t: Term, bytes: seq<byte>)
    requires AtGround(t)
    ensures AtGround(Fed(t, bytes)) <==> Whole(bytes)
  {
    var held := Fed(t, bytes).partial;
    var drawn := HeldByParser(t, bytes);
    WholeConcat(drawn, held);
    assert drawn + [] == drawn;
  }

  lemma {:induction false} PartialIgnoresScreen(t: Term, u: Term, bytes: seq<byte>)
    requires t.partial == u.partial
    ensures Fed(t, bytes).partial == Fed(u, bytes).partial
  {
    if bytes != [] {
      PartialIgnoresScreen(t, u, bytes[..|bytes| - 1]);
    }
  }

  // ----- what is drawn --------------------------------------------------------------

  function AllDrawn(screen: Screen, units: seq<seq<byte>>): Screen {
    if units == [] then screen else Drawn(AllDrawn(screen, units[..|units| - 1]), units[|units| - 1])
  }

  /** A screen is the record of what was drawn on it, unit by unit. */
  lemma {:induction false} FedDraws(t: Term, bytes: seq<byte>)
    ensures var drawn := Repainting.Drawn(Repainting.Drawing([], t.partial), bytes);
      Fed(t, bytes) == t.(screen := AllDrawn(t.screen, drawn.units), partial := drawn.held)
  {
    if bytes != [] {
      var shorter, b := bytes[..|bytes| - 1], bytes[|bytes| - 1];
      var drawn := Repainting.Drawn(Repainting.Drawing([], t.partial), shorter);
      FedDraws(t, shorter);
      AllDrawnMore(t.screen, drawn.units, drawn.held + [b]);
    }
  }

  lemma AllDrawnMore(screen: Screen, units: seq<seq<byte>>, unit: seq<byte>)
    ensures AllDrawn(screen, units + [unit]) == Drawn(AllDrawn(screen, units), unit)
  {
    assert (units + [unit])[..|units|] == units;
  }

  function Layers(screen: Screen): nat {
    match screen
    case Blank(_, _) => 0
    case Drawn(under, _) => Layers(under) + 1
    case Rewrapped(under, _, _) => Layers(under) + 1
  }

  lemma {:induction false} DrawingShows(screen: Screen, units: seq<seq<byte>>)
    ensures Layers(AllDrawn(screen, units)) == Layers(screen) + |units|
    ensures AllDrawn(screen, units) == screen <==> units == []
  {
    if units != [] {
      DrawingShows(screen, units[..|units| - 1]);
    }
  }

  lemma RepaintIsWhole(t: Term, paint: Snapshot)
    ensures AtGround(t) ==> AtGround(Fed(t, RepaintBytes(paint)))
  {
    HeadIsWhole();
    WholeConcat(Repainting.REPAINT_HEAD, Rendering()(paint));
    if AtGround(t) {
      GroundIffWhole(t, RepaintBytes(paint));
    }
  }

  lemma HeadIsWhole()
    ensures Whole(Repainting.REPAINT_HEAD)
  {
    var blank := Fresh(0, 0);
    Repainting.WipesAtGround([]);
    FedDraws(blank, Repainting.REPAINT_HEAD);
    GroundIffWhole(blank, Repainting.REPAINT_HEAD);
  }

  /** The repaint falls inside a string, and nothing in it ends that. */
  ghost predicate Swallows(held: seq<byte>, paint: Snapshot) {
    Repainting.InString(held) && Repainting.Unterminated(Str, Rendering()(paint))
  }

  /** A repaint that finds the parser in the middle of something shows nothing
      exactly if it is swallowed; then the parser is left holding it. */
  lemma PaintedOffGround(t: Term, paint: Snapshot)
    requires !AtGround(t)
    ensures Painted(t, paint).screen == t.screen <==> Swallows(t.partial, paint)
    ensures Swallows(t.partial, paint) ==> Painted(t, paint).partial == t.partial + RepaintBytes(paint)
  {
    FedDraws(t, RepaintBytes(paint));
    DrawingShows(t.screen, Repainting.Drawn(Repainting.Drawing([], t.partial), RepaintBytes(paint)).units);
    Repainting.SwallowedExactly(t.partial, Rendering()(paint));
    Repainting.FirstUnitBegins(t.partial, RepaintBytes(paint));
  }

  lemma NeverTheSame(t: Term, paint: Snapshot)
    requires !AtGround(t)
    ensures Painted(t, paint).screen != t.screen || Painted(t, paint).partial != t.partial
  {
    PaintedOffGround(t, paint);
    assert |RepaintBytes(paint)| > 0;
  }
}
