/** The tracker and the scanner read the same sequences: where no ESC is nested,
    observing a stream applies exactly the sequences the scanner delimits, one
    after another. */
module Controls {
  import opened Bytes
  import opened Boundary
  import opened Tracking
  import opened Replay

  // ----- what a control sequence says ----------------------------------------------------

  /** Parameters, separators and intermediates, with a private marker in front at
      most: any other byte makes the tracker give the sequence up. */
  predicate Legible(body: seq<byte>) {
    forall i :: 0 <= i < |body| ==>
      IsDigit(body[i]) || body[i] == ';' as int || IsIntermediate(body[i]) || (i == 0 && body[i] == '?' as int)
  }

  predicate IsPrivate(body: seq<byte>) {
    body != [] && body[0] == '?' as int
  }

  function Intermediates(body: seq<byte>): seq<byte> {
    if body == [] then []
    else
      var rest, b := body[..|body| - 1], body[|body| - 1];
      if IsIntermediate(b) then Intermediates(rest) + [b] else Intermediates(rest)
  }

  /** The number the body ends in; bytes between its digits do not interrupt it. */
  function Current(body: seq<byte>): int {
    if body == [] then 0
    else
      var rest, b := body[..|body| - 1], body[|body| - 1];
      if IsDigit(b) then Wrap(Current(rest) * 10 + (b - '0' as int))
      else if b == ';' as int then 0
      else Current(rest)
  }

  predicate HasCurrent(body: seq<byte>) {
    body != [] &&
    var rest, b := body[..|body| - 1], body[|body| - 1];
    IsDigit(b) || (b != ';' as int && HasCurrent(rest))
  }

  /** The parameters that a separator follows. */
  function Separated(body: seq<byte>): seq<int> {
    if body == [] then []
    else
      var rest, b := body[..|body| - 1], body[|body| - 1];
      if b == ';' as int then Separated(rest) + [Current(rest)] else Separated(rest)
  }

  function Params(body: seq<byte>): seq<int> {
    if HasCurrent(body) then Separated(body) + [Current(body)] else Separated(body)
  }

  /** What one whole sequence does: ESC c resets, a control sequence that can be
      read is applied, and nothing else matters. */
  function Effect(t: Modes, unit: seq<byte>): Modes {
    if unit == [ESC, 'c' as int] then FRESH
    else if |unit| >= 3 && unit[1] == '[' as int then Controlled(t, unit[2..|unit| - 1], unit[|unit| - 1])
    else t
  }

  function Controlled(t: Modes, body: seq<byte>, final: byte): Modes {
    if Legible(body) then Applied(t, IsPrivate(body), Intermediates(body), Params(body), final) else t
  }

  // ----- the sequences the scanner delimits -------------------------------------------------

  /** What the scanner is in the middle of. */
  function Open(stream: seq<byte>): seq<byte> {
    if Run(Ground, stream) == Ground then [] else stream[OpenedAt(stream)..]
  }

  /** Every sequence the scanner has seen from ground back to ground. */
  function Units(stream: seq<byte>): seq<seq<byte>> {
    if stream == [] then []
    else
      var shorter, b := stream[..|stream| - 1], stream[|stream| - 1];
      if Open(shorter) != [] && Open(stream) == [] then Units(shorter) + [Open(shorter) + [b]] else Units(shorter)
  }

  function Folded(t: Modes, units: seq<seq<byte>>): Modes {
    if units == [] then t else Effect(Folded(t, units[..|units| - 1]), units[|units| - 1])
  }

  lemma OpenOneMore(shorter: seq<byte>, b: byte)
    ensures Open(shorter) != [] <==> Run(Ground, shorter) != Ground
    ensures Open(shorter + [b]) ==
      if Run(Ground, shorter + [b]) == Ground then []
      else if Run(Ground, shorter) == Ground then [ESC]
      else Open(shorter) + [b]
  {
    var stream := shorter + [b];
    assert stream[..|stream| - 1] == shorter;
  }

  /** An unfinished sequence begins with its ESC and has been off ground since. */
  lemma OpenIsUnfinished(stream: seq<byte>)
    requires Run(Ground, stream) != Ground
    ensures var open := Open(stream);
      && open != [] && open[0] == ESC && Run(Ground, open) == Run(Ground, stream)
      && forall k :: 0 < k <= |open| ==> Run(Ground, open[..k]) != Ground
  {
    CutBeforeSequence(stream);
    RestartAtCut(stream, []);
    var open := Open(stream);
    assert stream + [] == stream && open + [] == open;
    OpenedAtMeaning(open);
  }

  predicate IsSequence(unit: seq<byte>) {
    && |unit| >= 2 && unit[0] == ESC && Run(Ground, unit) == Ground
    && forall k :: 0 < k < |unit| ==> Run(Ground, unit[..k]) != Ground
  }

  /** They are sequences, each by itself. */
  lemma {:induction false} UnitsAreSequences(stream: seq<byte>)
    ensures forall i :: 0 <= i < |Units(stream)| ==> IsSequence(Units(stream)[i])
  {
    if stream != [] {
      var shorter, b := stream[..|stream| - 1], stream[|stream| - 1];
      UnitsAreSequences(shorter);
      if Open(shorter) != [] && Open(stream) == [] {
        OpenEnds(shorter, b);
        assert shorter + [b] == stream;
      }
    }
  }

  lemma OpenEnds(shorter: seq<byte>, b: byte)
    requires Run(Ground, shorter) != Ground && Run(Ground, shorter + [b]) == Ground
    ensures IsSequence(Open(shorter) + [b])
  {
    OpenIsUnfinished(shorter);
    var open := Open(shorter);
    var unit := open + [b];
    assert (shorter + [b])[..|shorter|] == shorter && unit[..|open|] == open;
    assert forall k :: 0 < k <= |open| ==> unit[..k] == open[..k];
  }

  // ----- where the tracker is meanwhile --------------------------------------------------------

  /** No ESC is nested, and a string holds none but the one that ends it. */
  predicate Orderly(stream: seq<byte>) {
    forall i :: 0 <= i < |stream| && stream[i] == ESC ==> OrderlyAt(stream, i)
  }

  predicate OrderlyAt(stream: seq<byte>, i: nat)
    requires i < |stream|
  {
    || Run(Ground, stream[..i]) == Ground
    || (Run(Ground, stream[..i]) == Str && (i + 1 < |stream| ==> stream[i + 1] == '\\' as int))
  }

  /** The tracker in the middle of a control sequence, or past caring about it. */
  function Midway(body: seq<byte>): Place {
    if Legible(body) then InCsi(body == [], IsPrivate(body), Intermediates(body), Separated(body), Current(body), HasCurrent(body))
    else Rest
  }

  function Expected(scan: Scan, open: seq<byte>): Place {
    match scan
    case Ground => Rest
    case Escape => if |open| == 1 then AfterEsc else Rest
    case Csi => if |open| >= 2 && open[1] == '[' as int then Midway(open[2..]) else Rest
    case Str => Rest
    case StrEscape => AfterEsc
  }

  /** What an unfinished sequence looks like in each state. */
  predicate OpenAs(scan: Scan, open: seq<byte>) {
    match scan
    case Ground => open == []
    case Escape => |open| >= 1 && open[0] == ESC && (|open| >= 2 ==> IsIntermediate(open[1]))
    case Csi => |open| >= 2 && open[0] == ESC && (open[1] == '[' as int || IsIntermediate(open[1]))
    case _ => |open| >= 2 && open[0] == ESC && open[1] != '[' as int
  }

  lemma LegibleMore(body: seq<byte>, b: byte)
    ensures Legible(body + [b]) <==>
      Legible(body) && (IsDigit(b) || b == ';' as int || IsIntermediate(b) || (body == [] && b == '?' as int))
  {
    var more := body + [b];
    assert more[|body|] == b;
    assert forall i :: 0 <= i < |body| ==> more[i] == body[i];
  }

  /** One more byte of a control sequence that does not end it. */
  lemma MidwayNext(t: Modes, body: seq<byte>, b: byte)
    requires !IsFinal(b) && b != ESC
    ensures Next(Machine(t, Midway(body)), b) == Machine(t, Midway(body + [b]))
  {
    LegibleMore(body, b);
    assert (body + [b])[..|body|] == body;
  }

  lemma MidwayEnds(t: Modes, body: seq<byte>, final: byte)
    requires IsFinal(final)
    ensures Next(Machine(t, Midway(body)), final) == Machine(Controlled(t, body, final), Rest)
  {
  }

  /** The open sequence after one more byte, and what the tracker makes of it. */
  function Grown(scan: Scan, open: seq<byte>, b: byte): seq<byte> {
    if Step(scan, b) == Ground then [] else if scan == Ground then [b] else open + [b]
  }

  predicate Ends(scan: Scan, b: byte) {
    scan != Ground && Step(scan, b) == Ground
  }

  lemma GrowsAs(scan: Scan, open: seq<byte>, b: byte)
    requires OpenAs(scan, open)
    ensures OpenAs(Step(scan, b), Grown(scan, open, b))
  {
  }

  lemma CsiNext(t: Modes, open: seq<byte>, b: byte)
    requires OpenAs(Csi, open) && b != ESC
    ensures Next(Machine(t, Expected(Csi, open)), b)
         == Machine(if Ends(Csi, b) then Effect(t, open + [b]) else t, Expected(Step(Csi, b), Grown(Csi, open, b)))
  {
    var unit := open + [b];
    if open[1] == '[' as int {
      assert unit[2..|unit| - 1] == open[2..] && unit[2..] == open[2..] + [b];
      if IsFinal(b) {
        MidwayEnds(t, open[2..], b);
      } else {
        MidwayNext(t, open[2..], b);
      }
    }
  }

  lemma OthersNext(t: Modes, scan: Scan, open: seq<byte>, b: byte)
    requires OpenAs(scan, open) && scan != Csi
    requires b == ESC ==> scan == Ground || scan == Str
    requires scan == StrEscape ==> b == '\\' as int
    ensures Next(Machine(t, Expected(scan, open)), b)
         == Machine(if Ends(scan, b) then Effect(t, open + [b]) else t, Expected(Step(scan, b), Grown(scan, open, b)))
  {
    var unit := open + [b];
    if scan == Escape && |open| == 1 {
      assert unit == [ESC, b];
      assert unit[2..] == [];
    }
  }

  /** Side by side along a stream, the scanner and the tracker stay in step. */
  lemma {:induction false} TrackerFollowsScanner(t: Modes, stream: seq<byte>)
    requires Orderly(stream)
    ensures OpenAs(Run(Ground, stream), Open(stream))
    ensures Track(Machine(t, Rest), stream)
         == Machine(Folded(t, Units(stream)), Expected(Run(Ground, stream), Open(stream)))
  {
    if stream != [] {
      var shorter, b := stream[..|stream| - 1], stream[|stream| - 1];
      var scan, open, modes := Run(Ground, shorter), Open(shorter), Folded(t, Units(shorter));
      OrderlyPrefix(stream);
      TrackerFollowsScanner(t, shorter);
      assert shorter + [b] == stream;
      TrackConcat(Machine(t, Rest), shorter, [b]);
      TrackOne(Machine(modes, Expected(scan, open)), b);
      OpenOneMore(shorter, b);
      GrowsAs(scan, open, b);
      LastIsOrderly(stream);
      if scan == Csi {
        CsiNext(modes, open, b);
      } else {
        OthersNext(modes, scan, open, b);
      }
      UnitsOneMore(t, stream);
    }
  }

  lemma UnitsGrow(stream: seq<byte>)
    requires stream != []
    ensures var shorter, b := stream[..|stream| - 1], stream[|stream| - 1];
      Units(stream) == if Ends(Run(Ground, shorter), b) then Units(shorter) + [Open(shorter) + [b]] else Units(shorter)
  {
    var shorter, b := stream[..|stream| - 1], stream[|stream| - 1];
    OpenOneMore(shorter, b);
    assert shorter + [b] == stream;
  }

  lemma FoldedMore(t: Modes, units: seq<seq<byte>>, unit: seq<byte>)
    ensures Folded(t, units + [unit]) == Effect(Folded(t, units), unit)
  {
    assert (units + [unit])[..|units|] == units;
  }

  lemma UnitsOneMore(t: Modes, stream: seq<byte>)
    requires stream != []
    ensures var shorter, b := stream[..|stream| - 1], stream[|stream| - 1];
      Folded(t, Units(stream)) ==
        if Ends(Run(Ground, shorter), b) then Effect(Folded(t, Units(shorter)), Open(shorter) + [b]) else Folded(t, Units(shorter))
  {
    var shorter, b := stream[..|stream| - 1], stream[|stream| - 1];
    UnitsGrow(stream);
    FoldedMore(t, Units(shorter), Open(shorter) + [b]);
  }

  lemma OrderlyPrefix(stream: seq<byte>)
    requires Orderly(stream) && stream != []
    ensures Orderly(stream[..|stream| - 1])
  {
    var shorter := stream[..|stream| - 1];
    forall i | 0 <= i < |shorter| && shorter[i] == ESC
      ensures OrderlyAt(shorter, i)
    {
      assert OrderlyAt(stream, i) && shorter[..i] == stream[..i];
    }
  }

  lemma LastIsOrderly(stream: seq<byte>)
    requires Orderly(stream) && stream != []
    ensures var scan, b := Run(Ground, stream[..|stream| - 1]), stream[|stream| - 1];
      && (b == ESC ==> scan == Ground || scan == Str)
      && (scan == StrEscape ==> b == '\\' as int)
  {
    var n := |stream| - 1;
    var shorter, b := stream[..n], stream[n];
    if b == ESC {
      assert OrderlyAt(stream, n);
    }
    if Run(Ground, shorter) == StrEscape {
      assert shorter[..n - 1] == stream[..n - 1];
      assert OrderlyAt(stream, n - 1);
    }
  }

  /** For every state and every orderly stream, the tracked modes are the fold of
      what the scanner's own sequences say. */
  lemma ObservedIsFolded(t: Modes, stream: seq<byte>)
    requires Orderly(stream)
    ensures Observed(t, stream) == Folded(t, Units(stream))
  {
    TrackerFollowsScanner(t, stream);
  }
}
