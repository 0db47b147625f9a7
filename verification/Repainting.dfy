/** What becomes of the bytes of a repaint that reach a parser which may be in the
    middle of something. */
module Repainting {
  import opened Bytes
  import opened Boundary
  import opened Sequences

  // A repaint starts by turning attributes off, lifting the margins, homing the
  // cursor and clearing the screen.
  const RESET: seq<byte> := [ESC, '[' as int, '0' as int, 'm' as int]
  const LIFT: seq<byte> := [ESC, '[' as int, 'r' as int]
  const HOME: seq<byte> := [ESC, '[' as int, 'H' as int]
  const CLEAR: seq<byte> := [ESC, '[' as int, '2' as int, 'J' as int]

  const REPAINT_HEAD: seq<byte> := RESET + LIFT + HOME + CLEAR

  /** What a parser has drawn, unit by unit, and the unfinished unit it holds. */
  datatype Drawing = Drawing(units: seq<seq<byte>>, held: seq<byte>)

  function Draw(d: Drawing, b: byte): Drawing {
    var unit := d.held + [b];
    if Whole(unit) then Drawing(d.units + [unit], []) else d.(held := unit)
  }

  function Drawn(d: Drawing, bytes: seq<byte>): Drawing {
    if bytes == [] then d else Draw(Drawn(d, bytes[..|bytes| - 1]), bytes[|bytes| - 1])
  }

  lemma {:induction false} DrawnConcat(d: Drawing, left: seq<byte>, right: seq<byte>)
    ensures Drawn(d, left + right) == Drawn(Drawn(d, left), right)
    decreases |right|
  {
    if right == [] {
      assert left + right == left;
    } else {
      var shorter := right[..|right| - 1];
      assert (left + right)[..|left + right| - 1] == left + shorter;
      DrawnConcat(d, left, shorter);
    }
  }

  /** What was drawn before stays, and what comes next does not depend on it. */
  lemma {:induction false} DrawnApart(d: Drawing, bytes: seq<byte>)
    ensures Drawn(d, bytes).units == d.units + Drawn(Drawing([], d.held), bytes).units
    ensures Drawn(d, bytes).held == Drawn(Drawing([], d.held), bytes).held
  {
    if bytes != [] {
      DrawnApart(d, bytes[..|bytes| - 1]);
    }
  }

  /** Not whole, and never was since its first byte. */
  predicate Unfinished(held: seq<byte>) {
    forall k :: 0 < k <= |held| ==> !Whole(held[..k])
  }

  /** Whole, and not before its last byte. */
  predicate IsUnit(unit: seq<byte>) {
    unit != [] && Whole(unit) && Unfinished(unit[..|unit| - 1])
  }

  /** From ground, the units drawn and the bytes held are the stream, and it can be
      divided in no other way: each unit ends where it first can. */
  lemma {:induction false} DrawingDivides(bytes: seq<byte>)
    ensures var d := Drawn(Drawing([], []), bytes);
      && Flatten(d.units) + d.held == bytes
      && (forall i :: 0 <= i < |d.units| ==> IsUnit(d.units[i]))
      && Unfinished(d.held)
  {
    if bytes != [] {
      var shorter, b := bytes[..|bytes| - 1], bytes[|bytes| - 1];
      var before := Drawn(Drawing([], []), shorter);
      DrawingDivides(shorter);
      LastApart(bytes);
      OneByteDivides(before, b);
      Regrouped(Flatten(before.units), before.held, [b]);
    }
  }

  lemma OneByteDivides(d: Drawing, b: byte)
    requires (forall i :: 0 <= i < |d.units| ==> IsUnit(d.units[i])) && Unfinished(d.held)
    ensures var next := Draw(d, b);
      && Flatten(next.units) + next.held == Flatten(d.units) + (d.held + [b])
      && (forall i :: 0 <= i < |next.units| ==> IsUnit(next.units[i]))
      && Unfinished(next.held)
  {
    var unit := d.held + [b];
    assert unit[..|unit| - 1] == d.held;
    if Whole(unit) {
      FlattenAppend(d.units, unit);
    } else {
      forall k | 0 < k <= |unit|
        ensures !Whole(unit[..k])
      {
        assert k <= |d.held| ==> unit[..k] == d.held[..k];
        assert k == |unit| ==> unit[..k] == unit;
      }
    }
  }

  // ----- byte by byte -------------------------------------------------------------------------

  predicate Draws(d: Drawing, bytes: seq<byte>, result: Drawing) {
    Drawn(d, bytes) == result
  }

  lemma DrawsThen(d: Drawing, left: seq<byte>, middle: Drawing, right: seq<byte>, result: Drawing)
    requires Draws(d, left, middle) && Draws(middle, right, result)
    ensures Draws(d, left + right, result)
  {
    DrawnConcat(d, left, right);
  }

  /** No rune is torn after an ASCII byte, so the scanner decides. */
  lemma AsciiEnds(held: seq<byte>, b: byte)
    requires b < 0x80
    ensures Run(Ground, held + [b]) == Step(Run(Ground, held), b)
    ensures Whole(held + [b]) <==> Step(Run(Ground, held), b) == Ground
  {
    assert (held + [b])[..|held|] == held;
  }

  lemma Holds(units: seq<seq<byte>>, held: seq<byte>, b: byte)
    requires b < 0x80 && Step(Run(Ground, held), b) != Ground
    ensures Draws(Drawing(units, held), [b], Drawing(units, held + [b]))
    ensures Run(Ground, held + [b]) == Step(Run(Ground, held), b)
  {
    AsciiEnds(held, b);
    assert [b][..0] == [];
  }

  lemma Finishes(units: seq<seq<byte>>, held: seq<byte>, b: byte)
    requires b < 0x80 && Step(Run(Ground, held), b) == Ground
    ensures Draws(Drawing(units, held), [b], Drawing(units + [held + [b]], []))
  {
    AsciiEnds(held, b);
    assert [b][..0] == [];
  }

  lemma TextDraws(units: seq<seq<byte>>, text: byte)
    requires text < 0x80 && text != ESC
    ensures Draws(Drawing(units, []), [text], Drawing(units + [[text]], []))
  {
    Finishes(units, [], text);
    assert [] + [text] == [text];
  }

  // ----- the head, sequence by sequence ---------------------------------------------------------

  /** An introducer after a torn rune, or after nothing. */
  lemma BracketOpens(units: seq<seq<byte>>, held: seq<byte>)
    requires Run(Ground, held) == Ground
    ensures Draws(Drawing(units, held), BRACKET, Drawing(units, held + BRACKET))
    ensures Run(Ground, held + BRACKET) == Csi
  {
    Holds(units, held, ESC);
    Holds(units, held + [ESC], '[' as int);
    DrawsThen(Drawing(units, held), [ESC], Drawing(units, held + [ESC]), ['[' as int], Drawing(units, held + [ESC] + ['[' as int]));
    Pair(ESC, '[' as int);
    AppendTwo(held, ESC, '[' as int);
  }

  /** A sequence that ends right after its introducer, or one digit later. */
  lemma ShortDraws(units: seq<seq<byte>>, held: seq<byte>, final: byte)
    requires Run(Ground, held) == Ground && IsFinal(final)
    ensures Draws(Drawing(units, held), BRACKET + [final], Drawing(units + [held + (BRACKET + [final])], []))
  {
    BracketOpens(units, held);
    Finishes(units, held + BRACKET, final);
    Regrouped(held, BRACKET, [final]);
    DrawsThen(Drawing(units, held), BRACKET, Drawing(units, held + BRACKET), [final], Drawing(units + [held + BRACKET + [final]], []));
  }

  lemma DigitDraws(units: seq<seq<byte>>, held: seq<byte>, digit: byte, final: byte)
    requires Run(Ground, held) == Ground && '0' as int <= digit <= '9' as int && IsFinal(final)
    ensures Draws(Drawing(units, held), BRACKET + [digit, final], Drawing(units + [held + (BRACKET + [digit, final])], []))
  {
    var open := held + BRACKET;
    BracketOpens(units, held);
    Holds(units, open, digit);
    Finishes(units, open + [digit], final);
    DrawsThen(Drawing(units, open), [digit], Drawing(units, open + [digit]), [final], Drawing(units + [open + [digit] + [final]], []));
    AppendTwo(open, digit, final);
    Regrouped(held, BRACKET, [digit, final]);
    Pair(digit, final);
    DrawsThen(Drawing(units, held), BRACKET, Drawing(units, open), [digit, final], Drawing(units + [held + (BRACKET + [digit, final])], []));
  }

  lemma TwoTexts(units: seq<seq<byte>>, one: byte, two: byte)
    requires one < 0x80 && one != ESC && two < 0x80 && two != ESC
    ensures Draws(Drawing(units, []), [one, two], Drawing(units + [[one], [two]], []))
  {
    TextDraws(units, one);
    TextDraws(units + [[one]], two);
    DrawsThen(Drawing(units, []), [one], Drawing(units + [[one]], []), [two], Drawing(units + [[one]] + [[two]], []));
    Pair(one, two);
    AppendTwo(units, [one], [two]);
  }

  /** An introducer that meets an unfinished escape or control sequence ends it. */
  lemma BracketIsText(held: seq<byte>)
    requires Run(Ground, held) == Escape
    ensures Draws(Drawing([], held), BRACKET, Drawing([held + [ESC], ['[' as int]], []))
  {
    Finishes([], held, ESC);
    TextDraws([held + [ESC]], '[' as int);
    DrawsThen(Drawing([], held), [ESC], Drawing([held + [ESC]], []), ['[' as int], Drawing([held + [ESC]] + [['[' as int]], []));
    Pair(ESC, '[' as int);
    Pair(held + [ESC], ['[' as int]);
  }

  lemma BracketEnds(held: seq<byte>)
    requires Run(Ground, held) == Csi
    ensures Draws(Drawing([], held), BRACKET, Drawing([held + BRACKET], []))
  {
    Holds([], held, ESC);
    Finishes([], held + [ESC], '[' as int);
    Pair(ESC, '[' as int);
    AppendTwo(held, ESC, '[' as int);
    DrawsThen(Drawing([], held), [ESC], Drawing([], held + [ESC]), ['[' as int], Drawing([held + BRACKET], []));
  }

  predicate InString(held: seq<byte>) {
    Run(Ground, held) == Str || Run(Ground, held) == StrEscape
  }

  const RESET_AS_TEXT: seq<seq<byte>> := [['0' as int], ['m' as int]]

  /** What a parser makes of the first sequence: it is appended to a torn rune, or
      it cuts an escape or a control sequence short and its rest is text. */
  function Spoiled(held: seq<byte>): seq<seq<byte>> {
    match Run(Ground, held)
    case Escape => [held + [ESC], ['[' as int]] + RESET_AS_TEXT
    case Csi => [held + BRACKET] + RESET_AS_TEXT
    case _ => [held + RESET]
  }

  lemma BracketCuts(held: seq<byte>, cut: seq<seq<byte>>)
    requires Draws(Drawing([], held), BRACKET, Drawing(cut, []))
    ensures Draws(Drawing([], held), RESET, Drawing(cut + RESET_AS_TEXT, []))
  {
    TwoTexts(cut, '0' as int, 'm' as int);
    DrawsThen(Drawing([], held), BRACKET, Drawing(cut, []), ['0' as int, 'm' as int], Drawing(cut + RESET_AS_TEXT, []));
    assert BRACKET + ['0' as int, 'm' as int] == RESET;
  }

  lemma ResetDraws(held: seq<byte>)
    requires !InString(held)
    ensures Draws(Drawing([], held), RESET, Drawing(Spoiled(held), []))
  {
    if Run(Ground, held) == Ground {
      DigitDraws([], held, '0' as int, 'm' as int);
      assert BRACKET + ['0' as int, 'm' as int] == RESET;
    } else if Run(Ground, held) == Escape {
      BracketIsText(held);
      BracketCuts(held, [held + [ESC], ['[' as int]]);
    } else {
      BracketEnds(held);
      BracketCuts(held, [held + BRACKET]);
    }
  }

  /** The other three draw themselves once the parser is at ground. */
  lemma RestDraws(units: seq<seq<byte>>)
    ensures Draws(Drawing(units, []), LIFT + HOME + CLEAR, Drawing(units + [LIFT, HOME, CLEAR], []))
  {
    var lifted, home := units + [LIFT], units + [LIFT] + [HOME];
    assert BRACKET + ['r' as int] == LIFT && BRACKET + ['H' as int] == HOME && BRACKET + ['2' as int, 'J' as int] == CLEAR;
    assert [] + LIFT == LIFT && [] + HOME == HOME && [] + CLEAR == CLEAR;
    ShortDraws(units, [], 'r' as int);
    ShortDraws(lifted, [], 'H' as int);
    DigitDraws(home, [], '2' as int, 'J' as int);
    DrawsThen(Drawing(units, []), LIFT, Drawing(lifted, []), HOME, Drawing(home, []));
    DrawsThen(Drawing(units, []), LIFT + HOME, Drawing(home, []), CLEAR, Drawing(home + [CLEAR], []));
    AppendThree(units, LIFT, HOME, CLEAR);
  }

  // ----- strings ------------------------------------------------------------------------------------

  /** None of these bytes ends the string that is open. */
  predicate Unterminated(state: Scan, bytes: seq<byte>) {
    forall k :: 0 <= k <= |bytes| ==> Run(state, bytes[..k]) != Ground
  }

  lemma UnterminatedPrefix(state: Scan, bytes: seq<byte>)
    requires bytes != []
    ensures Unterminated(state, bytes) <==> Unterminated(state, bytes[..|bytes| - 1]) && Run(state, bytes) != Ground
  {
    var shorter := bytes[..|bytes| - 1];
    forall k | 0 <= k <= |shorter|
      ensures shorter[..k] == bytes[..k]
    {
    }
    assert bytes[..|bytes|] == bytes;
    if Unterminated(state, bytes) {
      forall k | 0 <= k <= |shorter|
        ensures Run(state, shorter[..k]) != Ground
      {
        assert Run(state, bytes[..k]) != Ground;
      }
    }
    if Unterminated(state, shorter) && Run(state, bytes) != Ground {
      forall k | 0 <= k <= |bytes|
        ensures Run(state, bytes[..k]) != Ground
      {
        if k < |bytes| {
          assert Run(state, shorter[..k]) != Ground;
        }
      }
    }
  }

  lemma NothingEndsNothing(state: Scan)
    requires state != Ground
    ensures Unterminated(state, [])
  {
  }

  lemma {:induction false} StringGoesOn(state: Scan, bytes: seq<byte>)
    requires state in {Str, StrEscape} && Unterminated(state, bytes)
    ensures Run(state, bytes) in {Str, StrEscape}
  {
    if bytes != [] {
      UnterminatedPrefix(state, bytes);
      StringGoesOn(state, bytes[..|bytes| - 1]);
    }
  }

  /** A string takes in whatever does not end it. */
  lemma {:induction false} StringSwallows(units: seq<seq<byte>>, held: seq<byte>, bytes: seq<byte>)
    requires InString(held) && Unterminated(Run(Ground, held), bytes)
    ensures Draws(Drawing(units, held), bytes, Drawing(units, held + bytes))
    ensures InString(held + bytes)
  {
    RunConcat(Ground, held, bytes);
    StringGoesOn(Run(Ground, held), bytes);
    if bytes == [] {
      assert held + bytes == held;
    } else {
      var shorter, b := bytes[..|bytes| - 1], bytes[|bytes| - 1];
      UnterminatedPrefix(Run(Ground, held), bytes);
      StringSwallows(units, held, shorter);
      LastApart(bytes);
      Regrouped(held, shorter, [b]);
    }
  }

  /** What does end it draws it. */
  lemma {:induction false} StringEnds(held: seq<byte>, bytes: seq<byte>)
    requires InString(held) && !Unterminated(Run(Ground, held), bytes)
    ensures Drawn(Drawing([], held), bytes).units != []
  {
    var state := Run(Ground, held);
    NothingEndsNothing(state);
    var shorter, b := bytes[..|bytes| - 1], bytes[|bytes| - 1];
    UnterminatedPrefix(state, bytes);
    if Unterminated(state, shorter) {
      StringGoesOn(state, shorter);
      StringSwallows([], held, shorter);
      RunConcat(Ground, held, shorter);
      Finishes([], held + shorter, b);
      DrawsThen(Drawing([], held), shorter, Drawing([], held + shorter), [b], Drawing([] + [held + shorter + [b]], []));
      LastApart(bytes);
    } else {
      StringEnds(held, shorter);
    }
  }

  // ----- the whole repaint ----------------------------------------------------------------------

  /** The head's own four sequences. */
  const WIPING: seq<seq<byte>> := [RESET] + [LIFT, HOME, CLEAR]

  predicate Wipes(held: seq<byte>) {
    Drawn(Drawing([], held), REPAINT_HEAD) == Drawing(WIPING, [])
  }

  lemma HeadApart()
    ensures REPAINT_HEAD == RESET + (LIFT + HOME + CLEAR)
  {
  }

  /** Outside a string, the head's first sequence may be spoiled, and the others
      are not. */
  lemma HeadDraws(held: seq<byte>)
    requires !InString(held)
    ensures Draws(Drawing([], held), REPAINT_HEAD, Drawing(Spoiled(held) + [LIFT, HOME, CLEAR], []))
  {
    ResetDraws(held);
    RestDraws(Spoiled(held));
    DrawsThen(Drawing([], held), RESET, Drawing(Spoiled(held), []), LIFT + HOME + CLEAR, Drawing(Spoiled(held) + [LIFT, HOME, CLEAR], []));
    HeadApart();
  }

  lemma {:induction false} HeadEndsNoString(state: Scan, k: nat)
    requires state in {Str, StrEscape} && k <= |REPAINT_HEAD|
    ensures Run(state, REPAINT_HEAD[..k]) in {Str, StrEscape}
  {
    if k > 0 {
      HeadEndsNoString(state, k - 1);
      assert REPAINT_HEAD[..k][..k - 1] == REPAINT_HEAD[..k - 1];
    }
  }

  /** Inside a string, all of the head is swallowed. */
  lemma HeadSwallowed(held: seq<byte>)
    requires InString(held)
    ensures Draws(Drawing([], held), REPAINT_HEAD, Drawing([], held + REPAINT_HEAD))
    ensures Run(Ground, held + REPAINT_HEAD) == Str
  {
    var state := Run(Ground, held);
    forall k | 0 <= k <= |REPAINT_HEAD|
      ensures Run(state, REPAINT_HEAD[..k]) != Ground
    {
      HeadEndsNoString(state, k);
    }
    StringSwallows([], held, REPAINT_HEAD);
    RunConcat(Ground, held, REPAINT_HEAD);
    HeadEndsNoString(state, |REPAINT_HEAD| - 1);
  }

  /** The head clears the screen exactly if it finds the parser at ground. */
  lemma WipesAtGround(held: seq<byte>)
    ensures Wipes(held) <==> held == []
  {
    if InString(held) {
      HeadSwallowed(held);
    } else {
      HeadDraws(held);
      SpoiledUnlessGround(held);
      assert (Spoiled(held) + [LIFT, HOME, CLEAR])[0] == Spoiled(held)[0] && WIPING[0] == RESET;
    }
  }

  lemma SpoiledUnlessGround(held: seq<byte>)
    ensures held == [] ==> Spoiled(held) == [RESET]
    ensures held != [] ==> Spoiled(held)[0] != RESET
  {
    var first := Spoiled(held)[0];
    if Run(Ground, held) == Escape {
      assert first[|first| - 1] == ESC;
    } else if Run(Ground, held) == Csi {
      assert first[|first| - 1] == '[' as int;
    } else if held == [] {
      assert held + RESET == RESET;
    }
  }

  lemma {:induction false} FirstUnitBegins(held: seq<byte>, bytes: seq<byte>)
    ensures var units := Drawn(Drawing([], held), bytes).units;
      units != [] ==> |units[0]| > |held|
    ensures Drawn(Drawing([], held), bytes).units == [] ==> Drawn(Drawing([], held), bytes).held == held + bytes
  {
    if bytes == [] {
      assert held + bytes == held;
    } else {
      FirstUnitBegins(held, bytes[..|bytes| - 1]);
      LastApart(bytes);
      Regrouped(held, bytes[..|bytes| - 1], [bytes[|bytes| - 1]]);
    }
  }

  /** What the head left drawn stays in front of what the body draws. */
  lemma BodyDraws(held: seq<byte>, head: Drawing, body: seq<byte>)
    requires Draws(Drawing([], held), REPAINT_HEAD, head)
    ensures Drawn(Drawing([], held), REPAINT_HEAD + body) == Drawn(head, body)
    ensures head.units != [] ==>
      var units := Drawn(head, body).units;
      units != [] && units[0] == head.units[0]
  {
    DrawnConcat(Drawing([], held), REPAINT_HEAD, body);
    DrawnApart(head, body);
  }

  /** Whatever follows its head, a repaint draws what it is made of exactly if it
      finds the parser at ground. */
  lemma RepaintDrawsItself(held: seq<byte>, body: seq<byte>)
    ensures Drawn(Drawing([], held), REPAINT_HEAD + body) == Drawn(Drawing(WIPING, []), body) <==> held == []
  {
    WipesAtGround(held);
    WipedFirst(body);
    if held != [] {
      FirstUnitIsOther(held, body);
    } else {
      BodyDraws(held, Drawing(WIPING, []), body);
    }
  }

  lemma WipedFirst(body: seq<byte>)
    ensures var units := Drawn(Drawing(WIPING, []), body).units;
      units != [] && units[0] == RESET
  {
    WipesAtGround([]);
    BodyDraws([], Drawing(WIPING, []), body);
  }

  lemma FirstUnitIsOther(held: seq<byte>, body: seq<byte>)
    requires held != []
    ensures var units := Drawn(Drawing([], held), REPAINT_HEAD + body).units;
      units != [] ==> units[0] != RESET
  {
    if InString(held) {
      HeadSwallowed(held);
      BodyDraws(held, Drawing([], held + REPAINT_HEAD), body);
      FirstUnitBegins(held + REPAINT_HEAD, body);
    } else {
      var head := Drawing(Spoiled(held) + [LIFT, HOME, CLEAR], []);
      HeadDraws(held);
      BodyDraws(held, head, body);
      SpoiledUnlessGround(held);
      assert head.units[0] == Spoiled(held)[0];
    }
  }

  /** It draws nothing at all exactly if it falls inside a string that nothing in
      it ends. */
  lemma SwallowedExactly(held: seq<byte>, body: seq<byte>)
    ensures Drawn(Drawing([], held), REPAINT_HEAD + body).units == [] <==> InString(held) && Unterminated(Str, body)
  {
    if InString(held) {
      HeadSwallowed(held);
      BodyDraws(held, Drawing([], held + REPAINT_HEAD), body);
      if Unterminated(Str, body) {
        StringSwallows([], held + REPAINT_HEAD, body);
      } else {
        StringEnds(held + REPAINT_HEAD, body);
      }
    } else {
      HeadDraws(held);
      BodyDraws(held, Drawing(Spoiled(held) + [LIFT, HOME, CLEAR], []), body);
    }
  }
}
