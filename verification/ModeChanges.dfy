/** What each sequence does to the shadowed terminal state, in bytes and in
    fields: the switches a program sends, and that nothing else matters. */
module ModeChanges {
  import opened Bytes
  import opened Tracking
  import opened Replay
  import opened Sequences
  import Repainting

  // ----- single switches -----------------------------------------------------------------

  /** ESC [ ? digits h, and the same with l. */
  function Set(digits: seq<byte>): seq<byte> {
    [0x1b, '[' as int, '?' as int] + digits + ['h' as int]
  }

  function Reset(digits: seq<byte>): seq<byte> {
    [0x1b, '[' as int, '?' as int] + digits + ['l' as int]
  }

  lemma Typed(t: Modes, digits: seq<byte>, mode: nat)
    requires digits == Itoa(mode) && mode < INT_LIMIT
    ensures Observed(t, Set(digits)) == SetMode(t, mode, true)
    ensures Observed(t, Reset(digits)) == SetMode(t, mode, false)
  {
    assert Set(digits) == Flag(mode, true);
    assert Reset(digits) == Flag(mode, false);
    FlagReads(t, mode, true);
    FlagReads(t, mode, false);
  }

  lemma TwoDigits(a: nat, b: nat)
    requires 1 <= a < 10 && b < 10
    ensures Itoa(a * 10 + b) == ['0' as int + a, '0' as int + b]
  {
  }

  lemma FourDigits(a: nat, b: nat, c: nat, d: nat)
    requires 1 <= a < 10 && b < 10 && c < 10 && d < 10
    ensures Itoa(a * 1000 + b * 100 + c * 10 + d) == ['0' as int + a, '0' as int + b, '0' as int + c, '0' as int + d]
  {
    var n := a * 1000 + b * 100 + c * 10 + d;
    assert n / 10 == a * 100 + b * 10 + c && n % 10 == d;
    assert n / 10 / 10 == a * 10 + b && n / 10 % 10 == c;
    TwoDigits(a, b);
  }

  /** Origin mode, wrapping and the cursor. */
  lemma DisplaySwitches(t: Modes)
    ensures Observed(t, Set(['6' as int])) == t.(origin := true)
    ensures Observed(t, Reset(['6' as int])) == t.(origin := false)
    ensures Observed(t, Set(['7' as int])) == t.(autowrapOff := false)
    ensures Observed(t, Reset(['7' as int])) == t.(autowrapOff := true)
    ensures Observed(t, Set(['2' as int, '5' as int])) == t.(cursorHide := false)
    ensures Observed(t, Reset(['2' as int, '5' as int])) == t.(cursorHide := true)
  {
    TwoDigits(2, 5);
    Typed(t, ['6' as int], 6);
    Typed(t, ['7' as int], 7);
    Typed(t, ['2' as int, '5' as int], 25);
  }

  /** The alternate screen, in its three spellings, entered and left. */
  lemma ScreenSwitches(t: Modes, digits: seq<byte>)
    requires || digits == ['4' as int, '7' as int]
             || digits == ['1' as int, '0' as int, '4' as int, '7' as int]
             || digits == ['1' as int, '0' as int, '4' as int, '9' as int]
    ensures Observed(t, Set(digits)) == t.(alt := true)
    ensures Observed(t, Reset(digits)) == t.(alt := false)
  {
    TwoDigits(4, 7);
    FourDigits(1, 0, 4, 7);
    FourDigits(1, 0, 4, 9);
    Typed(t, digits, if |digits| == 2 then 47 else if digits[3] == '7' as int then 1047 else 1049);
  }

  /** Column margins: allowing them, and forbidding them, which drops any there are. */
  lemma ColumnSwitches(t: Modes)
    ensures Observed(t, Set(['6' as int, '9' as int])) == t.(lrEnabled := true)
    ensures Observed(t, Reset(['6' as int, '9' as int])) == t.(lrEnabled := false, left := 0, right := 0)
  {
    TwoDigits(6, 9);
    Typed(t, ['6' as int, '9' as int], 69);
  }

  /** Every other mode is somebody else's business. */
  lemma OtherSwitches(t: Modes, mode: nat)
    requires mode < INT_LIMIT && mode !in {6, 7, 25, 47, 69, 1047, 1049}
    ensures Observed(t, Set(Itoa(mode))) == t && Observed(t, Reset(Itoa(mode))) == t
  {
    Typed(t, Itoa(mode), mode);
  }

  const BLANK := Modes(0, 0, false, 0, 0, false, false, false, false)

  /** Full and soft resets. */
  lemma Resets(t: Modes)
    ensures Observed(t, [0x1b, 'c' as int]) == BLANK
    ensures Observed(t, [0x1b, '[' as int, '!' as int, 'p' as int]) == BLANK
  {
    var soft: seq<byte> := ['!' as int, 'p' as int];
    assert [0x1b, '[' as int, '!' as int, 'p' as int] == BRACKET + soft;
    BracketOpens(t, soft);
    assert soft[1..] == ['p' as int];
    assert [0x1b, 'c' as int][1..] == ['c' as int];
    TrackOne(Machine(t, AfterEsc), 'c' as int);
    TrackOne(Machine(t, InCsi(false, false, [] + ['!' as int], [], 0, false)), 'p' as int);
  }

  // ----- parameters --------------------------------------------------------------------------

  /** Numbers with semicolons between them. */
  function Listed(params: seq<nat>): seq<byte> {
    if params == [] then []
    else if |params| == 1 then Itoa(params[0])
    else Listed(params[..|params| - 1]) + [';' as int] + Itoa(params[|params| - 1])
  }

  predicate Small(params: seq<nat>) {
    forall i :: 0 <= i < |params| ==> params[i] < INT_LIMIT
  }

  /** Where the tracker is after such a list. */
  lemma {:induction false} ListReads(t: Modes, private: bool, params: seq<nat>)
    requires params != [] && Small(params)
    ensures var first := params[..|params| - 1];
      Track(Machine(t, InCsi(!private, private, [], [], 0, false)), Listed(params))
      == Machine(t, InCsi(false, private, [], first, params[|params| - 1], true))
  {
    var m := Machine(t, InCsi(!private, private, [], [], 0, false));
    var first, last := params[..|params| - 1], params[|params| - 1];
    if first == [] {
      NumberRoundTrip(t, m.place, last);
    } else {
      var semi: seq<byte> := [';' as int];
      ListReads(t, private, first);
      TrackConcat(m, Listed(first) + semi, Itoa(last));
      TrackConcat(m, Listed(first), semi);
      var open := InCsi(false, private, [], first[..|first| - 1], first[|first| - 1], true);
      TrackOne(Machine(t, open), semi[0]);
      assert first[..|first| - 1] + [first[|first| - 1]] == first;
      NumberRoundTrip(t, InCsi(false, private, [], first, 0, false), last);
    }
  }

  lemma ListApplies(t: Modes, private: bool, params: seq<nat>, final: byte)
    requires Small(params) && 0x40 <= final <= 0x7e
    ensures Observed(t, BRACKET + (if private then ['?' as int] else []) + Listed(params) + [final]) == Applied(t, private, [], params, final)
  {
    var mark: seq<byte> := if private then ['?' as int] else [];
    var m := Machine(t, Rest);
    var open := InCsi(!private, private, [], [], 0, false);
    TrackConcat(m, BRACKET + mark + Listed(params), [final]);
    TrackConcat(m, BRACKET + mark, Listed(params));
    BracketOpens(t, mark);
    if private {
      TrackOne(Machine(t, CSI_START), '?' as int);
    }
    assert Track(m, BRACKET + mark) == Machine(t, open);
    if params == [] {
      TrackOne(Machine(t, open), final);
    } else {
      ListReads(t, private, params);
      var first, last := params[..|params| - 1], params[|params| - 1];
      TrackOne(Machine(t, InCsi(false, private, [], first, last, true)), final);
      assert first + [last] == params;
    }
  }

  /** Several modes in one sequence are switched one after another. */
  lemma SwitchesActInOrder(t: Modes, modes: seq<nat>, mode: nat)
    requires modes != [] && Small(modes) && mode < INT_LIMIT
    ensures Observed(t, Set(Listed(modes + [mode]))) == Observed(Observed(t, Set(Listed(modes))), Set(Itoa(mode)))
    ensures Observed(t, Reset(Listed(modes + [mode]))) == Observed(Observed(t, Reset(Listed(modes))), Reset(Itoa(mode)))
  {
    var more := modes + [mode];
    assert more[..|modes|] == modes;
    forall ps | ps == modes || ps == more
      ensures Observed(t, Set(Listed(ps))) == SetModes(t, ps, true)
      ensures Observed(t, Reset(Listed(ps))) == SetModes(t, ps, false)
    {
      SwitchesApply(t, ps);
    }
    Typed(Observed(t, Set(Listed(modes))), Itoa(mode), mode);
    Typed(Observed(t, Reset(Listed(modes))), Itoa(mode), mode);
  }

  lemma SwitchesApply(t: Modes, modes: seq<nat>)
    requires Small(modes)
    ensures Observed(t, Set(Listed(modes))) == SetModes(t, modes, true)
    ensures Observed(t, Reset(Listed(modes))) == SetModes(t, modes, false)
  {
    ListApplies(t, true, modes, 'h' as int);
    ListApplies(t, true, modes, 'l' as int);
    assert Set(Listed(modes)) == BRACKET + ['?' as int] + Listed(modes) + ['h' as int];
    assert Reset(Listed(modes)) == BRACKET + ['?' as int] + Listed(modes) + ['l' as int];
  }

  /** Margins, of rows with r and of columns, where those are allowed, with s: the
      first two parameters if they are increasing and positive, and none otherwise. */
  lemma MarginSwitches(t: Modes, params: seq<nat>)
    requires Small(params)
    ensures var increasing := |params| >= 2 && 1 <= params[0] < params[1];
      && Observed(t, BRACKET + Listed(params) + ['r' as int])
           == (if increasing then t.(top := params[0], bottom := params[1]) else t.(top := 0, bottom := 0))
      && Observed(t, BRACKET + Listed(params) + ['s' as int])
           == (if !t.lrEnabled then t
               else if increasing then t.(left := params[0], right := params[1])
               else t.(left := 0, right := 0))
  {
    ListApplies(t, false, params, 'r' as int);
    ListApplies(t, false, params, 's' as int);
    assert BRACKET + [] == BRACKET;
  }

  // ----- nothing else ------------------------------------------------------------------------------

  predicate Marked(body: seq<byte>) {
    body != [] && body[0] == '?' as int
  }

  predicate Plain(body: seq<byte>) {
    forall i :: 0 <= i < |body| ==> !(0x20 <= body[i] <= 0x2f)
  }

  /** One exclamation mark among the digits, and no other intermediate. */
  predicate Exclaims(body: seq<byte>) {
    exists i :: 0 <= i < |body| && body[i] == '!' as int
             && forall j :: 0 <= j < |body| && j != i ==> !(0x20 <= body[j] <= 0x2f)
  }

  /** What the tracker may have gathered from a body that nothing has ended. */
  predicate Gathered(place: Place, body: seq<byte>) {
    place.InCsi? ==>
      && place.first == (body == [])
      && place.private == Marked(body)
      && (place.intermediates == [] <==> Plain(body))
      && (place.intermediates == ['!' as int] ==> Exclaims(body))
  }

  lemma PlainMore(body: seq<byte>, b: byte)
    ensures Plain(body + [b]) <==> Plain(body) && !(0x20 <= b <= 0x2f)
    ensures Plain(body) && b == '!' as int ==> Exclaims(body + [b])
    ensures Exclaims(body) && !(0x20 <= b <= 0x2f) ==> Exclaims(body + [b])
    ensures Marked(body + [b]) <==> if body == [] then b == '?' as int else Marked(body)
  {
    var more := body + [b];
    assert more[|body|] == b;
    if Plain(more) {
      assert forall i :: 0 <= i < |body| ==> body[i] == more[i];
    }
    if Exclaims(body) && !(0x20 <= b <= 0x2f) {
      var i :| 0 <= i < |body| && body[i] == '!' as int && forall j :: 0 <= j < |body| && j != i ==> !(0x20 <= body[j] <= 0x2f);
      assert more[i] == '!' as int;
    }
  }

  lemma {:induction false} BodyGathers(t: Modes, body: seq<byte>)
    requires forall i :: 0 <= i < |body| ==> 0x20 <= body[i] <= 0x3f
    ensures var m := Track(Machine(t, CSI_START), body);
      m.modes == t && (m.place == Rest || m.place.InCsi?) && Gathered(m.place, body)
  {
    if body != [] {
      var shorter, b := body[..|body| - 1], body[|body| - 1];
      BodyGathers(t, shorter);
      assert shorter + [b] == body;
      TrackConcat(Machine(t, CSI_START), shorter, [b]);
      var before := Track(Machine(t, CSI_START), shorter);
      TrackOne(before, b);
      PlainMore(shorter, b);
      if before.place.InCsi? && before.place.intermediates + [b] == ['!' as int] {
        assert |before.place.intermediates + [b]| == 1 && (before.place.intermediates + [b])[0] == '!' as int;
      }
    }
  }

  /** Whatever a control sequence holds between its introducer and its final byte,
      it changes nothing unless it is a soft reset, margins, or a private switch. */
  lemma NothingElseMatters(t: Modes, body: seq<byte>, final: byte)
    requires forall i :: 0 <= i < |body| ==> 0x20 <= body[i] <= 0x3f
    requires 0x40 <= final <= 0x7e && Observed(t, BRACKET + body + [final]) != t
    ensures || (final == 'p' as int && Exclaims(body))
            || (final == 'r' as int && Plain(body) && !Marked(body))
            || (final == 's' as int && Plain(body) && !Marked(body) && t.lrEnabled)
            || (final in {'h' as int, 'l' as int} && Plain(body) && Marked(body))
  {
    var m := Track(Machine(t, CSI_START), body);
    assert BRACKET + body + [final] == BRACKET + (body + [final]);
    BracketOpens(t, body + [final]);
    TrackConcat(Machine(t, CSI_START), body, [final]);
    BodyGathers(t, body);
    TrackOne(m, final);
  }

  /** Other escapes change nothing, and text does not either. */
  lemma OtherEscapes(t: Modes, b: byte, text: seq<byte>)
    requires b != 'c' as int && b != '[' as int && b != 0x1b && 0x1b !in text
    ensures Observed(t, [0x1b, b] + text) == t && Observed(t, text) == t
  {
    TextKeeps(t, text);
    var bytes := [0x1b, b] + text;
    assert bytes[1..][0] == b && bytes[1..][1..] == text;
    assert Track(Machine(t, Rest), bytes) == Track(Machine(t, AfterEsc), bytes[1..]);
  }

  lemma {:induction false} TextKeeps(t: Modes, text: seq<byte>)
    requires 0x1b !in text
    ensures Track(Machine(t, Rest), text) == Machine(t, Rest)
  {
    if text != [] {
      TextKeeps(t, text[1..]);
    }
  }

  /** A resize drops the four margins, and a chunk or a resize more is a chunk or a
      resize after all the others. */
  lemma HistoryGoesOn(history: seq<Happening>, chunk: seq<byte>)
    ensures After([]) == BLANK
    ensures After(history + [Seen(chunk)]) == Observed(After(history), chunk)
    ensures After(history + [Moved]) == After(history).(top := 0, bottom := 0, left := 0, right := 0)
  {
    assert (history + [Seen(chunk)])[..|history|] == history;
    assert (history + [Moved])[..|history|] == history;
  }

  /** A digit read is a digit more of the number, in 64 bits. */
  lemma DigitsWrap(m: Machine, b: byte) returns (turns: int)
    requires m.place.InCsi? && '0' as int <= b <= '9' as int
    ensures var next := Next(m, b).place;
      && next.InCsi? && next.hasCurrent && next.params == m.place.params
      && -0x8000_0000_0000_0000 <= next.current < 0x8000_0000_0000_0000
      && m.place.current * 10 + (b - '0' as int) == next.current + turns * 0x1_0000_0000_0000_0000
  {
    turns := (m.place.current * 10 + (b - '0' as int) + INT_LIMIT) / (2 * INT_LIMIT);
  }

  // ----- what a snapshot and a repaint do in between --------------------------------------------

  /** Attributes off, the cursor addressed. */
  function Parking(row: nat, column: nat): seq<byte> {
    [0x1b, '[' as int, '0' as int, 'm' as int] + [0x1b, '[' as int] + Itoa(row) + [';' as int] + Itoa(column) + ['H' as int]
  }

  lemma ParkingParks(row: nat, column: nat)
    ensures Park(row, column) == Parking(row, column)
  {
    assert Park(row, column) == (BRACKET + Itoa(0) + ['m' as int]) + Tracking.Pair(row, column, 'H' as int);
    assert BRACKET + Itoa(0) + ['m' as int] == [0x1b, '[' as int, '0' as int, 'm' as int];
    assert Tracking.Pair(row, column, 'H' as int) == [0x1b, '[' as int] + Itoa(row) + [';' as int] + Itoa(column) + ['H' as int];
    var one: seq<byte>, two: seq<byte> := [0x1b, '[' as int, '0' as int, 'm' as int], [0x1b, '[' as int];
    Regrouped(one, two + Itoa(row) + [';' as int] + Itoa(column), ['H' as int]);
    Regrouped(one, two + Itoa(row) + [';' as int], Itoa(column));
    Regrouped(one, two + Itoa(row), [';' as int]);
    Regrouped(one, two, Itoa(row));
  }

  /** To the alternate screen, from the main one. */
  function Entering(t: Modes): seq<byte> {
    if t.alt then Set(['1' as int, '0' as int, '4' as int, '9' as int]) else []
  }

  lemma EnteringSwitches(t: Modes)
    ensures AltSwitch(t) == Entering(t)
  {
    FourDigits(1, 0, 4, 9);
    if t.alt {
      assert Flag(1049, true) == BRACKET + ['?' as int] + ['1' as int, '0' as int, '4' as int, '9' as int] + ['h' as int];
      assert BRACKET + ['?' as int] == [0x1b, '[' as int, '?' as int];
    }
  }

  /** The cells of a snapshot are painted on a blank terminal that shows the right
      screen; the modes come after them, and the cursor is parked last. */
  lemma SnapshotInOrder(t: Modes, lines: seq<byte>, cells: seq<byte>, row: nat, column: nat) returns (modes: seq<byte>)
    requires Sound(t) && Inert(lines)
    ensures SnapshotBytes(t, lines, cells, row, column) == lines + Entering(t) + cells + modes + Parking(row, column)
    ensures Reads(BLANK, lines + Entering(t), BLANK.(alt := t.alt))
    ensures Reads(BLANK.(alt := t.alt), modes, t)
  {
    modes := Replayed(t);
    EnteringSwitches(t);
    AltSwitchReads(t);
    ReadsThen(FRESH, lines, FRESH, AltSwitch(t), FRESH.(alt := t.alt));
    ReplayReads(t, FRESH.(alt := t.alt));
    ParkingParks(row, column);
  }

  const CLEARING: seq<byte> := [0x1b, '[' as int, '0' as int, 'm' as int, 0x1b, '[' as int, 'r' as int,
                                0x1b, '[' as int, 'H' as int, 0x1b, '[' as int, '2' as int, 'J' as int]

  lemma ClearingClears()
    ensures Repainting.REPAINT_HEAD == CLEARING
  {
  }

  /** The cells of a repaint are painted with attributes off, no row margins, and
      the screen cleared from its home. */
  lemma RepaintInOrder(t: Modes, cells: seq<byte>, row: nat, column: nat) returns (modes: seq<byte>)
    requires Sound(t)
    ensures RepaintBytes(t, cells, row, column) == CLEARING + cells + modes + Parking(row, column)
    ensures Reads(t, CLEARING, t.(top := 0, bottom := 0))
    ensures Reads(t.(top := 0, bottom := 0), modes, t)
  {
    modes := Replayed(t);
    ClearingClears();
    RepaintHeadReads(t);
    ReplayReads(t, t.(top := 0, bottom := 0));
    ParkingParks(row, column);
  }

  lemma SwitchBytes(on: bool)
    ensures Flag(7, on) == if on then Set(['7' as int]) else Reset(['7' as int])
    ensures Flag(25, on) == if on then Set(['2' as int, '5' as int]) else Reset(['2' as int, '5' as int])
    ensures Flag(6, true) == Set(['6' as int])
  {
    TwoDigits(2, 5);
    assert Itoa(7) == ['7' as int] && Itoa(6) == ['6' as int];
  }

  /** Wrapping and the cursor are restored in any case, and origin mode, which
      homes the cursor, comes last. */
  lemma ReplayOrder(t: Modes) returns (margins: seq<byte>)
    requires Sound(t)
    ensures Replayed(t)
         == (if t.autowrapOff then Reset(['7' as int]) else Set(['7' as int]))
          + (if t.cursorHide then Reset(['2' as int, '5' as int]) else Set(['2' as int, '5' as int]))
          + margins
          + (if t.origin then Set(['6' as int]) else [])
  {
    SwitchBytes(!t.autowrapOff);
    SwitchBytes(!t.cursorHide);
    var screen := Flag(7, !t.autowrapOff) + Flag(25, !t.cursorHide);
    margins := ReplayedMargins(t, screen);
    if !t.origin {
      assert screen + margins + [] == screen + margins;
    }
  }

  lemma ReplayedMargins(t: Modes, screen: seq<byte>) returns (margins: seq<byte>)
    requires Sound(t) && screen == Flag(7, !t.autowrapOff) + Flag(25, !t.cursorHide)
    ensures Replayed(t) == if t.origin then screen + margins + Flag(6, true) else screen + margins
  {
    var allow: seq<byte> := if t.lrEnabled then Flag(69, true) else [];
    var columns: seq<byte> := if t.lrEnabled && t.left > 0 then Tracking.Pair(t.left, t.right, 's' as int) else [];
    var rows: seq<byte> := if t.top > 0 then Tracking.Pair(t.top, t.bottom, 'r' as int) else [];
    margins := allow + columns + rows;
    Empties(screen, allow, columns, rows);
    Regrouped(screen, allow + columns, rows);
    Regrouped(screen, allow, columns);
  }

  lemma Empties<T>(one: seq<T>, two: seq<T>, three: seq<T>, four: seq<T>)
    ensures two == [] ==> one + two == one
    ensures three == [] ==> one + two + three == one + two
    ensures four == [] ==> one + two + three + four == one + two + three
  {
  }
}
