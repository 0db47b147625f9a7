/** The printer inverts the parser: what `replay` prints, `observe` reads back
    as the very state that was printed. */
module Replay {
  import opened Bytes
  import opened Tracking
  import Repainting

  lemma {:induction false} TrackConcat(m: Machine, left: seq<byte>, right: seq<byte>)
    ensures Track(m, left + right) == Track(Track(m, left), right)
    decreases |left|
  {
    if left == [] {
      assert left + right == right;
    } else {
      assert (left + right)[1..] == left[1..] + right;
      TrackConcat(Next(m, left[0]), left[1..], right);
    }
  }

  lemma TrackOne(m: Machine, b: byte)
    ensures Track(m, [b]) == Next(m, b)
  {
  }

  // ----- every reachable state is sound -------------------------------------

  /** Everything that happens to a tracker: chunks and resizes. */
  datatype Happening = Seen(chunk: seq<byte>) | Moved

  function After(history: seq<Happening>): Modes {
    if history == [] then FRESH
    else
      var earlier := After(history[..|history| - 1]);
      match history[|history| - 1]
      case Seen(chunk) => Observed(earlier, chunk)
      case Moved => Resized(earlier)
  }

  predicate SoundMachine(m: Machine) {
    && Sound(m.modes)
    && (m.place.InCsi? ==>
          IsInt(m.place.current) && forall i :: 0 <= i < |m.place.params| ==> IsInt(m.place.params[i]))
  }

  lemma {:induction false} SetModesSound(t: Modes, modes: seq<int>, on: bool)
    requires Sound(t)
    ensures Sound(SetModes(t, modes, on))
  {
    if modes != [] {
      SetModesSound(t, modes[..|modes| - 1], on);
      SetModeSound(SetModes(t, modes[..|modes| - 1], on), modes[|modes| - 1], on);
    }
  }

  lemma SetModeSound(t: Modes, mode: int, on: bool)
    requires Sound(t)
    ensures Sound(SetMode(t, mode, on))
  {
  }

  lemma WrapIsInt(n: int)
    ensures IsInt(Wrap(n))
    ensures IsInt(n) ==> Wrap(n) == n
  {
  }

  lemma AppliedSound(t: Modes, private: bool, intermediates: seq<byte>, params: seq<int>, final: byte)
    requires Sound(t) && forall i :: 0 <= i < |params| ==> IsInt(params[i])
    ensures Sound(Applied(t, private, intermediates, params, final))
  {
    SetModesSound(t, params, final == 'h' as int);
  }

  lemma NextSound(m: Machine, b: byte)
    requires SoundMachine(m)
    ensures SoundMachine(Next(m, b))
  {
    if m.place.InCsi? {
      var place := m.place;
      var all := if place.hasCurrent then place.params + [place.current] else place.params;
      AppliedSound(m.modes, place.private, place.intermediates, all, b);
      WrapIsInt(place.current * 10 + (b - '0' as int));
    }
  }

  lemma {:induction false} TrackSound(m: Machine, bytes: seq<byte>)
    requires SoundMachine(m)
    ensures SoundMachine(Track(m, bytes))
    decreases |bytes|
  {
    if bytes != [] {
      NextSound(m, bytes[0]);
      TrackSound(Next(m, bytes[0]), bytes[1..]);
    }
  }

  /** Margins are absent or increasing, and column margins need DECLRMM, after
      any run of chunks and resizes whatsoever. */
  lemma {:induction false} ReachableIsSound(history: seq<Happening>)
    ensures Sound(After(history))
  {
    if history != [] {
      var earlier := history[..|history| - 1];
      ReachableIsSound(earlier);
      if history[|history| - 1].Seen? {
        TrackSound(Machine(After(earlier), Rest), history[|history| - 1].chunk);
      }
    }
  }

  // ----- numbers --------------------------------------------------------------

  /** Printed digits read back as the number printed: no prefix of them can
      wrap. */
  lemma DigitReads(t: Modes, place: Place, n: nat, b: byte)
    requires place.InCsi? && IsDigit(b) && place.current == n
    requires n * 10 + (b - '0' as int) < INT_LIMIT
    ensures Next(Machine(t, place), b)
         == Machine(t, place.(first := false, current := n * 10 + (b - '0' as int), hasCurrent := true))
  {
  }

  lemma {:induction false} NumberRoundTrip(t: Modes, place: Place, n: nat)
    requires place.InCsi? && place.current == 0 && n < INT_LIMIT
    ensures Track(Machine(t, place), Itoa(n)) == Machine(t, place.(first := false, current := n, hasCurrent := true))
  {
    var digit: byte := '0' as int + n % 10;
    if n < 10 {
      TrackOne(Machine(t, place), digit);
      DigitReads(t, place, 0, digit);
    } else {
      NumberRoundTrip(t, place, n / 10);
      TrackConcat(Machine(t, place), Itoa(n / 10), [digit]);
      var shorter := place.(first := false, current := n / 10, hasCurrent := true);
      TrackOne(Machine(t, shorter), digit);
      DigitReads(t, shorter, n / 10, digit);
    }
  }

  lemma BracketOpens(t: Modes, body: seq<byte>)
    ensures Track(Machine(t, Rest), BRACKET + body) == Track(Machine(t, CSI_START), body)
  {
  }

  lemma FlagReads(t: Modes, mode: nat, on: bool)
    requires mode < INT_LIMIT
    ensures Track(Machine(t, Rest), Flag(mode, on)) == Machine(SetMode(t, mode, on), Rest)
  {
    var final := if on then 'h' as int else 'l' as int;
    var body := ['?' as int] + Itoa(mode) + [final];
    assert Flag(mode, on) == BRACKET + body;
    BracketOpens(t, body);
    var m := Machine(t, CSI_START);
    TrackConcat(m, ['?' as int] + Itoa(mode), [final]);
    TrackConcat(m, ['?' as int], Itoa(mode));
    TrackOne(m, '?' as int);
    var place := CSI_START.(first := false, private := true);
    NumberRoundTrip(t, place, mode);
    TrackOne(Machine(t, place.(current := mode, hasCurrent := true)), final);
    assert SetModes(t, [mode], on) == SetMode(t, mode, on) by {
      assert [mode][..0] == [];
    }
  }

  lemma PairReads(t: Modes, low: nat, high: nat, final: byte)
    requires low < INT_LIMIT && high < INT_LIMIT && 0x40 <= final <= 0x7e
    ensures Track(Machine(t, Rest), Pair(low, high, final)) == Machine(Applied(t, false, [], [low, high], final), Rest)
  {
    var semi := [';' as int];
    var body := Itoa(low) + semi + Itoa(high) + [final];
    assert Pair(low, high, final) == BRACKET + body;
    BracketOpens(t, body);
    var m := Machine(t, CSI_START);
    TrackConcat(m, Itoa(low) + semi + Itoa(high), [final]);
    TrackConcat(m, Itoa(low) + semi, Itoa(high));
    TrackConcat(m, Itoa(low), semi);
    NumberRoundTrip(t, CSI_START, low);
    TrackOne(Machine(t, CSI_START.(first := false, current := low, hasCurrent := true)), semi[0]);
    var place := CSI_START.(first := false, params := [low]);
    assert [] + [low] == [low];
    NumberRoundTrip(t, place, high);
    TrackOne(Machine(t, place.(current := high, hasCurrent := true)), final);
    assert [low] + [high] == [low, high];
  }

  lemma BareReads(t: Modes, final: byte)
    requires 0x40 <= final <= 0x7e
    ensures Track(Machine(t, Rest), BRACKET + [final]) == Machine(Applied(t, false, [], [], final), Rest)
  {
    BracketOpens(t, [final]);
    TrackOne(Machine(t, CSI_START), final);
  }

  lemma SingleReads(t: Modes, n: nat, final: byte)
    requires n < INT_LIMIT && 0x40 <= final <= 0x7e
    ensures Track(Machine(t, Rest), BRACKET + Itoa(n) + [final]) == Machine(Applied(t, false, [], [n], final), Rest)
  {
    assert BRACKET + Itoa(n) + [final] == BRACKET + (Itoa(n) + [final]);
    BracketOpens(t, Itoa(n) + [final]);
    TrackConcat(Machine(t, CSI_START), Itoa(n), [final]);
    NumberRoundTrip(t, CSI_START, n);
    TrackOne(Machine(t, CSI_START.(first := false, current := n, hasCurrent := true)), final);
    assert [] + [n] == [n];
  }

  // ----- the round trip ---------------------------------------------------------

  /** Observing `out` in state `t` leaves the machine at rest in `result`. */
  predicate Reads(t: Modes, out: seq<byte>, result: Modes) {
    Track(Machine(t, Rest), out) == Machine(result, Rest)
  }

  lemma ReadsThen(t: Modes, left: seq<byte>, middle: Modes, right: seq<byte>, result: Modes)
    requires Reads(t, left, middle) && Reads(middle, right, result)
    ensures Reads(t, left + right, result)
  {
    TrackConcat(Machine(t, Rest), left, right);
  }

  /** The terminals a replay of `t` is meant for: a blank one already on the
      right screen, or one that shows `t` with its row margins lifted. */
  predicate Replayable(from: Modes, t: Modes) {
    from == FRESH.(alt := t.alt) || from == t.(top := 0, bottom := 0)
  }

  lemma ReplayReads(t: Modes, from: Modes)
    requires Sound(t) && Replayable(from, t)
    ensures Reads(from, Replayed(t), t)
  {
    var shown := from.(autowrapOff := t.autowrapOff, cursorHide := t.cursorHide);
    var screen := Flag(7, !t.autowrapOff) + Flag(25, !t.cursorHide);
    ScreenReads(from, t.autowrapOff, t.cursorHide);
    var split := shown.(lrEnabled := t.lrEnabled, left := t.left, right := t.right);
    var columns := ColumnsRead(t, from, shown, screen);
    var marked := split.(top := t.top, bottom := t.bottom);
    var rows := columns;
    if t.top > 0 {
      PairReads(split, t.top, t.bottom, 'r' as int);
      ReadsThen(from, columns, split, Pair(t.top, t.bottom, 'r' as int), marked);
      rows := columns + Pair(t.top, t.bottom, 'r' as int);
    }
    if t.origin {
      FlagReads(marked, 6, true);
      ReadsThen(from, rows, marked, Flag(6, true), t);
    }
  }

  lemma ScreenReads(from: Modes, autowrapOff: bool, cursorHide: bool)
    ensures Reads(from, Flag(7, !autowrapOff) + Flag(25, !cursorHide),
                  from.(autowrapOff := autowrapOff, cursorHide := cursorHide))
  {
    var wrapped := from.(autowrapOff := autowrapOff);
    FlagReads(from, 7, !autowrapOff);
    FlagReads(wrapped, 25, !cursorHide);
    ReadsThen(from, Flag(7, !autowrapOff), wrapped, Flag(25, !cursorHide), wrapped.(cursorHide := cursorHide));
  }

  lemma ColumnsRead(t: Modes, from: Modes, shown: Modes, screen: seq<byte>) returns (columns: seq<byte>)
    requires Sound(t) && Replayable(from, t) && Reads(from, screen, shown)
    requires shown == from.(autowrapOff := t.autowrapOff, cursorHide := t.cursorHide)
    ensures Reads(from, columns, shown.(lrEnabled := t.lrEnabled, left := t.left, right := t.right))
    ensures columns ==
      if !t.lrEnabled then screen
      else if t.left > 0 then screen + Flag(69, true) + Pair(t.left, t.right, 's' as int)
      else screen + Flag(69, true)
  {
    columns := screen;
    if t.lrEnabled {
      var enabled := shown.(lrEnabled := true);
      FlagReads(shown, 69, true);
      ReadsThen(from, screen, shown, Flag(69, true), enabled);
      columns := screen + Flag(69, true);
      if t.left > 0 {
        var split := enabled.(left := t.left, right := t.right);
        PairReads(enabled, t.left, t.right, 's' as int);
        ReadsThen(from, columns, enabled, Pair(t.left, t.right, 's' as int), split);
        columns := columns + Pair(t.left, t.right, 's' as int);
      }
    }
  }

  lemma AltSwitchReads(t: Modes)
    ensures Reads(FRESH, AltSwitch(t), FRESH.(alt := t.alt))
  {
    if t.alt {
      FlagReads(FRESH, 1049, true);
    }
  }

  /** Bytes the tracker does not care about, such as rendered cells or the final
      cursor address. */
  ghost predicate Inert(bytes: seq<byte>) {
    forall t: Modes :: Reads(t, bytes, t)
  }

  /** Observing the alternate-screen switch and the replay from the zero state
      gives back any state any run can reach. */
  lemma ReplayRoundTrip(history: seq<Happening>)
    ensures var t := After(history);
      Sound(t) && Observed(FRESH, AltSwitch(t) + Replayed(t)) == t
  {
    var t := After(history);
    ReachableIsSound(history);
    AltSwitchReads(t);
    ReplayReads(t, FRESH.(alt := t.alt));
    ReadsThen(FRESH, AltSwitch(t), FRESH.(alt := t.alt), Replayed(t), t);
  }

  // ----- repaints ---------------------------------------------------------------

  /** Attributes off, cursor addressed. */
  function Park(row: nat, column: nat): seq<byte> {
    (BRACKET + Itoa(0) + ['m' as int]) + Pair(row, column, 'H' as int)
  }

  lemma ParkReads(t: Modes, row: nat, column: nat)
    requires row < INT_LIMIT && column < INT_LIMIT
    ensures Reads(t, Park(row, column), t)
  {
    SingleReads(t, 0, 'm' as int);
    PairReads(t, row, column, 'H' as int);
    ReadsThen(t, BRACKET + Itoa(0) + ['m' as int], t, Pair(row, column, 'H' as int), t);
  }

  lemma RepaintHeadReads(t: Modes)
    ensures Reads(t, Repainting.REPAINT_HEAD, t.(top := 0, bottom := 0))
  {
    var lifted := t.(top := 0, bottom := 0);
    var sgr, margins := Repainting.RESET, Repainting.LIFT;
    var home, clear := Repainting.HOME, Repainting.CLEAR;
    assert sgr == BRACKET + Itoa(0) + ['m' as int] && margins == BRACKET + ['r' as int];
    assert home == BRACKET + ['H' as int] && clear == BRACKET + Itoa(2) + ['J' as int];
    SingleReads(t, 0, 'm' as int);
    BareReads(t, 'r' as int);
    BareReads(lifted, 'H' as int);
    SingleReads(lifted, 2, 'J' as int);
    ReadsThen(t, sgr, t, margins, lifted);
    ReadsThen(t, sgr + margins, lifted, home, lifted);
    ReadsThen(t, sgr + margins + home, lifted, clear, lifted);
  }

  /** The bytes of a snapshot: lines of scrollback, the switch to the screen the
      cells belong to, the cells, the tracked state, the cursor. */
  function SnapshotBytes(t: Modes, lines: seq<byte>, cells: seq<byte>, row: nat, column: nat): seq<byte>
    requires Sound(t)
  {
    lines + AltSwitch(t) + cells + Replayed(t) + Park(row, column)
  }

  lemma SnapshotSeeds(t: Modes, lines: seq<byte>, cells: seq<byte>, row: nat, column: nat)
    requires Sound(t) && Inert(lines) && Inert(cells) && row < INT_LIMIT && column < INT_LIMIT
    ensures Observed(FRESH, SnapshotBytes(t, lines, cells, row, column)) == t
  {
    var seeded := FRESH.(alt := t.alt);
    AltSwitchReads(t);
    ReadsThen(FRESH, lines, FRESH, AltSwitch(t), seeded);
    ReadsThen(FRESH, lines + AltSwitch(t), seeded, cells, seeded);
    ReplayReads(t, seeded);
    ReadsThen(FRESH, lines + AltSwitch(t) + cells, seeded, Replayed(t), t);
    ParkReads(t, row, column);
    ReadsThen(FRESH, lines + AltSwitch(t) + cells + Replayed(t), t, Park(row, column), t);
  }

  /** A snapshot seeds a blank terminal with exactly the tracked state, for any
      state any run can reach and whatever the lines and cells in it are. */
  lemma SnapshotCarriesModes(history: seq<Happening>, lines: seq<byte>, cells: seq<byte>, row: nat, column: nat)
    requires Inert(lines) && Inert(cells) && row < INT_LIMIT && column < INT_LIMIT
    ensures var t := After(history);
      Sound(t) && Observed(FRESH, SnapshotBytes(t, lines, cells, row, column)) == t
  {
    ReachableIsSound(history);
    SnapshotSeeds(After(history), lines, cells, row, column);
  }

  /** The bytes of a repaint: no scrollback, which every replica has, and no
      switch, since it is painted where it is. */
  function RepaintBytes(t: Modes, cells: seq<byte>, row: nat, column: nat): seq<byte>
    requires Sound(t)
  {
    Repainting.REPAINT_HEAD + cells + Replayed(t) + Park(row, column)
  }

  lemma RepaintRestores(t: Modes, cells: seq<byte>, row: nat, column: nat)
    requires Sound(t) && Inert(cells) && row < INT_LIMIT && column < INT_LIMIT
    ensures Observed(t, RepaintBytes(t, cells, row, column)) == t
  {
    var lifted := t.(top := 0, bottom := 0);
    RepaintHeadReads(t);
    ReadsThen(t, Repainting.REPAINT_HEAD, lifted, cells, lifted);
    ReplayReads(t, lifted);
    ReadsThen(t, Repainting.REPAINT_HEAD + cells, lifted, Replayed(t), t);
    ParkReads(t, row, column);
    ReadsThen(t, Repainting.REPAINT_HEAD + cells + Replayed(t), t, Park(row, column), t);
  }

  /** A repaint broadcast into a stream leaves a reader that tracks the modes
      the session tracks exactly where it was, even painting through margins. */
  lemma RepaintKeepsModes(history: seq<Happening>, cells: seq<byte>, row: nat, column: nat)
    requires Inert(cells) && row < INT_LIMIT && column < INT_LIMIT
    ensures var t := After(history);
      Sound(t) && Observed(t, RepaintBytes(t, cells, row, column)) == t
  {
    ReachableIsSound(history);
    RepaintRestores(After(history), cells, row, column);
  }
}
