/** The shadowed terminal state (termstate.go): `observe` is its parser and
    `replay` its printer. */
module Tracking {
  import opened Bytes

  /** Go's int: 64 bits, wrapping. */
  const INT_LIMIT: int := 0x8000_0000_0000_0000

  function Wrap(n: int): int {
    (n + INT_LIMIT) % (2 * INT_LIMIT) - INT_LIMIT
  }

  predicate IsInt(n: int) {
    -INT_LIMIT <= n < INT_LIMIT
  }

  datatype Modes = Modes(
    top: int, bottom: int,    // DECSTBM margins, 1-based inclusive; zero is the full screen
    lrEnabled: bool,          // DECLRMM
    left: int, right: int,    // DECSLRM margins
    origin: bool,             // DECOM
    autowrapOff: bool,        // DECAWM reset
    cursorHide: bool,         // DECTCEM reset
    alt: bool)                // alternate screen

  const FRESH := Modes(0, 0, false, 0, 0, false, false, false, false)

  // ----- what one sequence does ------------------------------------------

  predicate SetsMargins(params: seq<int>) {
    |params| >= 2 && params[0] >= 1 && params[1] > params[0]
  }

  function SetMode(t: Modes, mode: int, on: bool): Modes {
    if mode == 6 then t.(origin := on)
    else if mode == 7 then t.(autowrapOff := !on)
    else if mode == 25 then t.(cursorHide := !on)
    else if mode == 47 || mode == 1047 || mode == 1049 then t.(alt := on)
    else if mode == 69 then
      if on then t.(lrEnabled := true) else t.(lrEnabled := false, left := 0, right := 0)
    else t
  }

  function SetModes(t: Modes, modes: seq<int>, on: bool): Modes {
    if modes == [] then t
    else SetMode(SetModes(t, modes[..|modes| - 1], on), modes[|modes| - 1], on)
  }

  function Applied(t: Modes, private: bool, intermediates: seq<byte>, params: seq<int>, final: byte): Modes {
    if intermediates == ['!' as int] && final == 'p' as int then FRESH
    else if intermediates != [] then t
    else if !private && final == 'r' as int then
      if SetsMargins(params) then t.(top := params[0], bottom := params[1]) else t.(top := 0, bottom := 0)
    else if !private && final == 's' as int && t.lrEnabled then
      if SetsMargins(params) then t.(left := params[0], right := params[1]) else t.(left := 0, right := 0)
    else if private && (final == 'h' as int || final == 'l' as int) then
      SetModes(t, params, final == 'h' as int)
    else t
  }

  function Resized(t: Modes): Modes {
    t.(top := 0, bottom := 0, left := 0, right := 0)
  }

  // ----- the parser as a machine over single bytes --------------------------

  datatype Place =
    | Rest
    | AfterEsc
    | InCsi(first: bool, private: bool, intermediates: seq<byte>, params: seq<int>, current: int, hasCurrent: bool)

  const CSI_START := InCsi(true, false, [], [], 0, false)

  datatype Machine = Machine(modes: Modes, place: Place)

  predicate IsDigit(b: byte) {
    '0' as int <= b <= '9' as int
  }

  function Next(m: Machine, b: byte): Machine {
    match m.place
    case Rest => if b == ESC then m.(place := AfterEsc) else m
    case AfterEsc =>
      if b == 'c' as int then Machine(FRESH, Rest)
      else if b == '[' as int then m.(place := CSI_START)
      else if b == ESC then m
      else m.(place := Rest)
    case InCsi(first, private, intermediates, params, current, hasCurrent) =>
      if b == '?' as int && first then
        m.(place := InCsi(false, true, intermediates, params, current, hasCurrent))
      else if IsDigit(b) then
        m.(place := InCsi(false, private, intermediates, params, Wrap(current * 10 + (b - '0' as int)), true))
      else if b == ';' as int then
        m.(place := InCsi(false, private, intermediates, params + [current], 0, false))
      else if 0x20 <= b <= 0x2f then
        m.(place := InCsi(false, private, intermediates + [b], params, current, hasCurrent))
      else if 0x40 <= b <= 0x7e then
        var all := if hasCurrent then params + [current] else params;
        Machine(Applied(m.modes, private, intermediates, all, b), Rest)
      else m.(place := Rest)
  }

  function Track(m: Machine, bytes: seq<byte>): Machine
    decreases |bytes|
  {
    if bytes == [] then m else Track(Next(m, bytes[0]), bytes[1..])
  }

  /** The tracked state after one chunk; an unfinished sequence is forgotten. */
  function Observed(t: Modes, chunk: seq<byte>): Modes {
    Track(Machine(t, Rest), chunk).modes
  }

  // ----- the printer ----------------------------------------------------------

  function Itoa(n: nat): seq<byte> {
    if n < 10 then ['0' as int + n] else Itoa(n / 10) + ['0' as int + n % 10]
  }

  function Flag(mode: nat, on: bool): seq<byte> {
    BRACKET + ['?' as int] + Itoa(mode) + [if on then 'h' as int else 'l' as int]
  }

  function Pair(low: nat, high: nat, final: byte): seq<byte> {
    BRACKET + Itoa(low) + [';' as int] + Itoa(high) + [final]
  }

  function AltSwitch(t: Modes): seq<byte> {
    if t.alt then Flag(1049, true) else []
  }

  /** Each margin a terminal can hold: none, or an increasing pair. */
  predicate Margin(low: int, high: int) {
    (low == 0 && high == 0) || 1 <= low < high < INT_LIMIT
  }

  predicate Sound(t: Modes) {
    && Margin(t.top, t.bottom)
    && Margin(t.left, t.right)
    && (!t.lrEnabled ==> t.left == 0)
  }

  function Replayed(t: Modes): seq<byte>
    requires Sound(t)
  {
    var screen := Flag(7, !t.autowrapOff) + Flag(25, !t.cursorHide);
    var columns :=
      if !t.lrEnabled then screen
      else if t.left > 0 then screen + Flag(69, true) + Pair(t.left, t.right, 's' as int)
      else screen + Flag(69, true);
    var rows := if t.top > 0 then columns + Pair(t.top, t.bottom, 'r' as int) else columns;
    if t.origin then rows + Flag(6, true) else rows
  }

  // ----- the tracker as the source writes it ------------------------------------

  class TermState {
    var top: int
    var bottom: int
    var lrEnabled: bool
    var left: int
    var right: int
    var origin: bool
    var autowrapOff: bool
    var cursorHide: bool
    var alt: bool

    function Abs(): Modes
      reads this
    {
      Modes(top, bottom, lrEnabled, left, right, origin, autowrapOff, cursorHide, alt)
    }

    constructor ()
      ensures Abs() == FRESH
    {
      top, bottom, lrEnabled, left, right := 0, 0, false, 0, 0;
      origin, autowrapOff, cursorHide, alt := false, false, false, false;
    }

    method Reset()
      modifies this
      ensures Abs() == FRESH
    {
      top, bottom, lrEnabled, left, right := 0, 0, false, 0, 0;
      origin, autowrapOff, cursorHide, alt := false, false, false, false;
    }

    /** Scans a chunk; the loop looks one byte ahead for what follows an ESC. */
    method Observe(chunk: seq<byte>)
      modifies this
      ensures Abs() == Observed(old(Abs()), chunk)
    {
      var index := 0;
      while index < |chunk|
        invariant index <= |chunk|
        invariant Track(Machine(old(Abs()), Rest), chunk).modes == Track(Machine(Abs(), Rest), chunk[index..]).modes
      {
        ghost var rest := chunk[index..];
        if chunk[index] != ESC {
          index := index + 1;
        } else if index + 1 >= |chunk| {
          assert rest == [ESC];
          return;
        } else if chunk[index + 1] == 'c' as int {
          assert rest[1..][1..] == chunk[index + 2..];
          Reset();
          index := index + 2;
        } else if chunk[index + 1] == '[' as int {
          assert rest[1..][1..] == chunk[index + 2..];
          var consumed := ObserveCsi(chunk[index + 2..]);
          assert chunk[index + 2..][consumed..] == chunk[index + 2 + consumed..];
          index := index + 2 + consumed;
        } else {
          assert rest[1..] == chunk[index + 1..];
          EscapeAbandoned(Abs(), rest[1..]);
          index := index + 1;
        }
      }
    }

    /** Reads one control sequence after its bracket and says how much of `rest`
        it used up. */
    method ObserveCsi(rest: seq<byte>) returns (consumed: nat)
      modifies this
      ensures consumed <= |rest|
      ensures Track(Machine(old(Abs()), CSI_START), rest).modes == Track(Machine(Abs(), Rest), rest[consumed..]).modes
    {
      var private := false;
      var params: seq<int> := [];
      var current, hasCurrent := 0, false;
      var intermediates: seq<byte> := [];
      var index := 0;
      while index < |rest|
        invariant index <= |rest|
        invariant Abs() == old(Abs())
        invariant Track(Machine(Abs(), CSI_START), rest)
               == Track(Machine(Abs(), InCsi(index == 0, private, intermediates, params, current, hasCurrent)), rest[index..])
      {
        var b := rest[index];
        assert rest[index..][1..] == rest[index + 1..];
        if b == '?' as int && index == 0 {
          private := true;
        } else if IsDigit(b) {
          current := Wrap(current * 10 + (b - '0' as int));
          hasCurrent := true;
        } else if b == ';' as int {
          params := params + [current];
          current, hasCurrent := 0, false;
        } else if 0x20 <= b <= 0x2f {
          intermediates := intermediates + [b];
        } else if 0x40 <= b <= 0x7e {
          if hasCurrent {
            params := params + [current];
          }
          Apply(private, intermediates, params, b);
          return index + 1;
        } else {
          return index + 1;
        }
        index := index + 1;
      }
      return index;
    }

    method Apply(private: bool, intermediates: seq<byte>, params: seq<int>, final: byte)
      modifies this
      ensures Abs() == Applied(old(Abs()), private, intermediates, params, final)
    {
      if |intermediates| == 1 && intermediates[0] == '!' as int && final == 'p' as int {
        Reset();
        return;
      }
      if |intermediates| > 0 {
        return;
      }
      if !private && final == 'r' as int {
        top, bottom := 0, 0;
        if |params| >= 2 && params[0] >= 1 && params[1] > params[0] {
          top, bottom := params[0], params[1];
        }
      } else if !private && final == 's' as int && lrEnabled {
        left, right := 0, 0;
        if |params| >= 2 && params[0] >= 1 && params[1] > params[0] {
          left, right := params[0], params[1];
        }
      } else if private && (final == 'h' as int || final == 'l' as int) {
        var on := final == 'h' as int;
        for i := 0 to |params|
          invariant Abs() == SetModes(old(Abs()), params[..i], on)
        {
          assert params[..i + 1][..i] == params[..i];
          Switch(params[i], on);
        }
        assert params[..|params|] == params;
      }
    }

    method Switch(mode: int, on: bool)
      modifies this
      ensures Abs() == SetMode(old(Abs()), mode, on)
    {
      if mode == 6 {
        origin := on;
      } else if mode == 7 {
        autowrapOff := !on;
      } else if mode == 25 {
        cursorHide := !on;
      } else if mode == 47 || mode == 1047 || mode == 1049 {
        alt := on;
      } else if mode == 69 {
        lrEnabled := on;
        if !on {
          left, right := 0, 0;
        }
      }
    }

    method Resize()
      modifies this
      ensures Abs() == Resized(old(Abs()))
      ensures Abs() == old(Abs()).(top := 0, bottom := 0, left := 0, right := 0)
    {
      top, bottom := 0, 0;
      left, right := 0, 0;
    }

    method Replay() returns (out: seq<byte>)
      requires Sound(Abs())
      ensures out == Replayed(Abs())
    {
      out := Flag(7, !autowrapOff);
      out := out + Flag(25, !cursorHide);
      if lrEnabled {
        out := out + Flag(69, true);
        if left > 0 {
          out := out + Pair(left, right, 's' as int);
        }
      }
      if top > 0 {
        out := out + Pair(top, bottom, 'r' as int);
      }
      if origin {
        out := out + Flag(6, true);
      }
    }
  }

  /** An ESC that introduces nothing the tracker knows might as well not have
      been seen. */
  lemma EscapeAbandoned(t: Modes, bytes: seq<byte>)
    requires bytes == [] || (bytes[0] != 'c' as int && bytes[0] != '[' as int)
    ensures Track(Machine(t, AfterEsc), bytes).modes == Track(Machine(t, Rest), bytes).modes
  {
  }
}
