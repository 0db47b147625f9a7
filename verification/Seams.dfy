/** Why the tracker may read the stream in the chunks the read loop writes:
    cuts fall where it holds nothing between its bytes. */
module Seams {
  import opened Bytes
  import opened Boundary
  import opened Reading
  import opened Tracking
  import opened Replay

  /** An ESC never arrives while an escape or control sequence is unfinished. */
  predicate NoNestedEsc(stream: seq<byte>) {
    forall i :: 0 <= i < |stream| && stream[i] == ESC ==> Run(Ground, stream[..i]) !in {Escape, Csi}
  }

  /** What the tracker can be in the middle of, for each state of the scanner
      that decides the cuts. */
  predicate Together(scan: Scan, place: Place) {
    match scan
    case Ground => place == Rest
    case Escape => place == Rest || place == AfterEsc
    case Csi => place == Rest || place.InCsi?
    case Str => true
    case StrEscape => place == Rest || place == AfterEsc
  }

  lemma StepsTogether(scan: Scan, m: Machine, b: byte)
    requires Together(scan, m.place)
    requires b == ESC ==> scan !in {Escape, Csi}
    ensures Together(Step(scan, b), Next(m, b).place)
  {
  }

  lemma {:induction false} StayTogether(t: Modes, stream: seq<byte>)
    requires NoNestedEsc(stream)
    ensures Together(Run(Ground, stream), Track(Machine(t, Rest), stream).place)
  {
    if stream != [] {
      var shorter, last := stream[..|stream| - 1], stream[|stream| - 1];
      assert stream == shorter + [last];
      assert forall i :: 0 <= i < |shorter| ==> shorter[..i] == stream[..i];
      StayTogether(t, shorter);
      TrackConcat(Machine(t, Rest), shorter, [last]);
      TrackOne(Track(Machine(t, Rest), shorter), last);
      StepsTogether(Run(Ground, shorter), Track(Machine(t, Rest), shorter), last);
    }
  }

  lemma SeamIsInvisible(t: Modes, left: seq<byte>, right: seq<byte>)
    requires NoNestedEsc(left)
    requires Run(Ground, left) == Ground
             || (Run(Ground, left) == Escape && (right == [] || IsLead(right[0])))
    ensures Observed(t, left + right) == Observed(Observed(t, left), right)
  {
    StayTogether(t, left);
    TrackConcat(Machine(t, Rest), left, right);
    EscapeAbandonedAt(Track(Machine(t, Rest), left), right);
  }

  lemma EscapeAbandonedAt(m: Machine, right: seq<byte>)
    requires m.place == Rest || (m.place == AfterEsc && (right == [] || IsLead(right[0])))
    ensures Track(m, right).modes == Observed(m.modes, right)
  {
  }

  lemma NoNestedEscPrefix(stream: seq<byte>, k: nat)
    requires NoNestedEsc(stream) && k <= |stream|
    ensures NoNestedEsc(stream[..k])
  {
    assert forall i :: 0 <= i < k ==> stream[..k][..i] == stream[..i];
  }

  /** A cut is invisible to the tracker, whatever is written after it. */
  lemma CutIsInvisible(t: Modes, stream: seq<byte>, more: seq<byte>)
    requires NoNestedEsc(stream)
    requires CutOf(stream) < |stream| && more != [] ==> more[0] == stream[CutOf(stream)]
    ensures Observed(t, stream[..CutOf(stream)] + more) == Observed(Observed(t, stream[..CutOf(stream)]), more)
  {
    var cut := CutOf(stream);
    NoNestedEscPrefix(stream, cut);
    if Run(Ground, stream) != Ground {
      CutBeforeSequence(stream);
    } else if cut < |stream| {
      CutBeforeRune(stream);
    } else {
      assert stream[..cut] == stream;
    }
    SeamIsInvisible(t, stream[..cut], more);
  }

  // ----- which seams are safe ---------------------------------------------------

  /** What the tracker is in the middle of after these bytes. */
  function PlaceAfter(bytes: seq<byte>): Place {
    Track(Machine(FRESH, Rest), bytes).place
  }

  lemma {:induction false} PlaceIgnoresModes(m: Machine, other: Modes, bytes: seq<byte>)
    ensures Track(m, bytes).place == Track(m.(modes := other), bytes).place
    decreases |bytes|
  {
    if bytes != [] {
      var here, there := Next(m, bytes[0]), Next(m.(modes := other), bytes[0]);
      PlaceIgnoresModes(here, there.modes, bytes[1..]);
    }
  }

  /** A seam is harmless for every state and every continuation exactly when the
      tracker is in the middle of nothing there. */
  lemma SafeSeams(left: seq<byte>)
    ensures PlaceAfter(left) == Rest <==>
      forall t, right :: Observed(t, left + right) == Observed(Observed(t, left), right)
  {
    if PlaceAfter(left) == Rest {
      forall t: Modes, right: seq<byte>
        ensures Observed(t, left + right) == Observed(Observed(t, left), right)
      {
        TrackConcat(Machine(t, Rest), left, right);
        PlaceIgnoresModes(Machine(FRESH, Rest), t, left);
      }
    } else {
      var right := UnsafeContinuation(left);
      assert Observed(FRESH, left + right) != Observed(Observed(FRESH, left), right);
    }
  }

  lemma UnsafeContinuation(left: seq<byte>) returns (right: seq<byte>)
    requires PlaceAfter(left) != Rest
    ensures Observed(FRESH, left + right) != Observed(Observed(FRESH, left), right)
  {
    var m := Track(Machine(FRESH, Rest), left);
    var on := !m.modes.origin;
    var flag := Flag(6, on);
    FlagReads(m.modes, 6, on);
    assert flag == [ESC] + flag[1..];
    var tail := flag[1..];
    FlagTailIsText(m.modes, on);
    if m.place == AfterEsc {
      right := tail;
      TrackConcat(Machine(m.modes, Rest), [ESC], tail);
      TrackOne(Machine(m.modes, Rest), ESC);
    } else {
      right := flag;
      TrackConcat(m, [ESC], tail);
      TrackOne(m, ESC);
    }
    TrackConcat(Machine(FRESH, Rest), left, right);
  }

  lemma {:induction false} TextTracksNothing(t: Modes, text: seq<byte>)
    requires ESC !in text
    ensures Track(Machine(t, Rest), text) == Machine(t, Rest)
  {
    if text != [] {
      TextTracksNothing(t, text[1..]);
    }
  }

  lemma FlagTailIsText(t: Modes, on: bool)
    ensures Track(Machine(t, Rest), Flag(6, on)[1..]) == Machine(t, Rest)
  {
    assert Itoa(6) == ['6' as int];
    TextTracksNothing(t, Flag(6, on)[1..]);
  }

  // ----- which of the read loop's cuts are safe ---------------------------------------------

  lemma {:induction false} NoFinals(m: Machine, bytes: seq<byte>)
    requires forall i :: 0 <= i < |bytes| ==> !IsFinal(bytes[i])
    ensures Track(m, bytes).modes == m.modes
    ensures !m.place.InCsi? ==> !Track(m, bytes).place.InCsi?
    decreases |bytes|
  {
    if bytes != [] {
      NoFinals(Next(m, bytes[0]), bytes[1..]);
    }
  }

  /** What can come of reading the same bytes on from two places. */
  predicate Apart(one: Machine, other: Machine) {
    one.modes == other.modes && (one.place != other.place ==> !one.place.InCsi? || !other.place.InCsi?)
  }

  /** After an ESC that one reader took for the start of a sequence and another for
      the end of one, as long as the scanner sees that sequence open. */
  lemma EscTwoWays(t: Modes, rest: seq<byte>)
    requires forall k :: 0 <= k <= |rest| ==> Run(Escape, rest[..k]) != Ground
    ensures Apart(Track(Machine(t, Rest), rest), Track(Machine(t, AfterEsc), rest))
  {
    if rest != [] {
      assert Run(Escape, rest[..1]) == Step(Escape, rest[0]) by {
        assert rest[..1][..0] == [];
      }
      if rest[0] == '[' as int {
        var body := rest[1..];
        OpenCsiHasNoFinal(rest);
        NoFinals(Machine(t, Rest), body);
        NoFinals(Machine(t, CSI_START), body);
      }
    }
  }

  lemma OpenCsiHasNoFinal(rest: seq<byte>)
    requires rest != [] && rest[0] == '[' as int
    requires forall k :: 0 <= k <= |rest| ==> Run(Escape, rest[..k]) != Ground
    ensures forall i :: 0 <= i < |rest[1..]| ==> !IsFinal(rest[1..][i])
  {
    forall k | 1 <= k <= |rest|
      ensures Run(Escape, rest[..k]) == Csi
    {
      StaysInCsi(rest, k);
    }
    forall i | 0 <= i < |rest[1..]|
      ensures !IsFinal(rest[1..][i])
    {
      assert rest[..i + 2][..i + 1] == rest[..i + 1];
      assert Run(Escape, rest[..i + 1]) == Csi && Run(Escape, rest[..i + 2]) == Csi;
    }
  }

  lemma {:induction false} StaysInCsi(rest: seq<byte>, k: nat)
    requires 1 <= k <= |rest| && rest[0] == '[' as int
    requires forall k :: 0 <= k <= |rest| ==> Run(Escape, rest[..k]) != Ground
    ensures Run(Escape, rest[..k]) == Csi
  {
    assert rest[..k][..k - 1] == rest[..k - 1];
    if k == 1 {
      assert rest[..0] == [];
    } else {
      StaysInCsi(rest, k - 1);
    }
  }

  /** What the read loop holds back never changes the modes, and is read on from
      the middle of a sequence only as `Apart` allows. */
  lemma HeldReadsApart(m: Machine, stream: seq<byte>)
    ensures var held := stream[CutOf(stream)..];
      Apart(Track(m, held), Track(Machine(m.modes, Rest), held))
  {
    var held := stream[CutOf(stream)..];
    if Run(Ground, stream) != Ground {
      CutBeforeSequence(stream);
      HeldSequenceReadsApart(m, stream, held);
    } else if held != [] {
      CutBeforeRune(stream);
      assert held[0] == stream[CutOf(stream)];
    }
  }

  lemma HeldSequenceReadsApart(m: Machine, stream: seq<byte>, held: seq<byte>)
    requires Run(Ground, stream) != Ground && held == stream[CutOf(stream)..]
    ensures Apart(Track(m, held), Track(Machine(m.modes, Rest), held))
  {
    CutBeforeSequence(stream);
    RestartAtCut(stream, []);
    assert stream + [] == stream && held + [] == held;
    StaysOpen(held);
    EscTwoWays(m.modes, held[1..]);
  }

  lemma StaysOpen(held: seq<byte>)
    requires Run(Ground, held) != Ground && OpenedAt(held) == 0
    ensures held[0] == ESC
    ensures forall k :: 0 <= k <= |held| - 1 ==> Run(Escape, held[1..][..k]) != Ground
  {
    OpenedAtMeaning(held);
    forall k | 0 <= k <= |held| - 1
      ensures Run(Escape, held[1..][..k]) != Ground
    {
      RunAfterEsc(held, k);
    }
  }

  lemma {:induction false} RunAfterEsc(held: seq<byte>, k: nat)
    requires k < |held| && held[0] == ESC
    ensures Run(Ground, held[..k + 1]) == Run(Escape, held[1..][..k])
  {
    assert held[..k + 1][..k] == held[..k];
    if k == 0 {
      assert held[..0] == [];
    } else {
      RunAfterEsc(held, k - 1);
      assert held[1..][..k][..k - 1] == held[1..][..k - 1];
    }
  }

  /** Two readers that differ only in where they are can be told apart. */
  lemma ToldApart(one: Machine, other: Machine) returns (more: seq<byte>)
    requires Apart(one, other) && one.place != other.place
    ensures Track(one, more).modes != Track(other, more).modes
  {
    if !one.place.InCsi? {
      more := TellsApart(one, other);
    } else {
      more := TellsApart(other, one);
    }
  }

  lemma TellsApart(one: Machine, other: Machine) returns (more: seq<byte>)
    requires one.modes == other.modes && one.place != other.place && !one.place.InCsi?
    ensures Track(one, more).modes != Track(other, more).modes
  {
    var t := one.modes;
    var on := !t.origin;
    var flag := Flag(6, on);
    FlagReads(t, 6, on);
    FlagTailIsText(t, on);
    assert flag == [ESC] + flag[1..];
    if one.place == AfterEsc {
      more := flag[1..];
      assert Track(Machine(t, Rest), flag) == Track(Machine(t, AfterEsc), more);
      BracketEndsCsi(other, more);
    } else if other.place == AfterEsc {
      more := flag[1..];
      assert Track(Machine(t, Rest), flag) == Track(Machine(t, AfterEsc), more);
    } else {
      more := flag;
    }
  }

  /** A bracket is a final byte that does nothing. */
  lemma BracketEndsCsi(m: Machine, tail: seq<byte>)
    requires m.place.InCsi? || m.place == Rest
    requires tail != [] && tail[0] == '[' as int && Track(Machine(m.modes, Rest), tail) == Machine(m.modes, Rest)
    ensures Track(m, tail).modes == m.modes
  {
    assert Track(Machine(m.modes, Rest), tail) == Track(Machine(m.modes, Rest), tail[1..]);
  }

  /** Nothing can come of the seam a cut makes, whatever the state and whatever
      follows. */
  ghost predicate Harmless(stream: seq<byte>) {
    forall t: Modes, more: seq<byte> ::
      Observed(t, stream[..CutOf(stream)] + (stream[CutOf(stream)..] + more))
      == Observed(Observed(t, stream[..CutOf(stream)]), stream[CutOf(stream)..] + more)
  }

  /** The tracker is after the whole stream where what is held alone would take it. */
  predicate SafeAt(stream: seq<byte>) {
    PlaceAfter(stream) == PlaceAfter(stream[CutOf(stream)..])
  }

  lemma TwoReaders(t: Modes, sent: seq<byte>, held: seq<byte>, more: seq<byte>)
    ensures var m := Track(Machine(t, Rest), sent);
      && Observed(t, sent + (held + more)) == Track(Track(m, held), more).modes
      && Observed(Observed(t, sent), held + more) == Track(Track(Machine(m.modes, Rest), held), more).modes
  {
    var m := Track(Machine(t, Rest), sent);
    TrackConcat(Machine(t, Rest), sent, held + more);
    TrackConcat(m, held, more);
    TrackConcat(Machine(m.modes, Rest), held, more);
  }

  lemma PlacesAgree(t: Modes, stream: seq<byte>)
    ensures var m, held := Track(Machine(t, Rest), stream[..CutOf(stream)]), stream[CutOf(stream)..];
      SafeAt(stream) <==> Track(m, held).place == Track(Machine(m.modes, Rest), held).place
  {
    var sent, held := stream[..CutOf(stream)], stream[CutOf(stream)..];
    var m := Track(Machine(t, Rest), sent);
    assert sent + held == stream;
    TrackConcat(Machine(t, Rest), sent, held);
    PlaceIgnoresModes(Machine(FRESH, Rest), t, stream);
    PlaceIgnoresModes(Machine(FRESH, Rest), m.modes, held);
  }

  /** Exactly which cuts of the read loop are harmless. */
  lemma SafeCutsExactly(stream: seq<byte>)
    ensures Harmless(stream) <==> SafeAt(stream)
  {
    var sent, held := stream[..CutOf(stream)], stream[CutOf(stream)..];
    if SafeAt(stream) {
      forall t: Modes, more: seq<byte>
        ensures Observed(t, sent + (held + more)) == Observed(Observed(t, sent), held + more)
      {
        TwoReaders(t, sent, held, more);
        PlacesAgree(t, stream);
        HeldReadsApart(Track(Machine(t, Rest), sent), stream);
      }
    } else {
      var m := Track(Machine(FRESH, Rest), sent);
      PlacesAgree(FRESH, stream);
      HeldReadsApart(m, stream);
      var more := ToldApart(Track(m, held), Track(Machine(m.modes, Rest), held));
      TwoReaders(FRESH, sent, held, more);
      assert Observed(FRESH, sent + (held + more)) != Observed(Observed(FRESH, sent), held + more);
    }
  }

  lemma SafeSeam(t: Modes, stream: seq<byte>, sent: seq<byte>, held: seq<byte>, more: seq<byte>)
    requires SafeAt(stream) && sent == stream[..CutOf(stream)] && held == stream[CutOf(stream)..]
    ensures Observed(t, sent + (held + more)) == Observed(Observed(t, sent), held + more)
  {
    SafeCutsExactly(stream);
  }

  /** Safe at every moment of a stream's arrival. */
  predicate CutsSafe(stream: seq<byte>) {
    forall k :: 0 <= k <= |stream| ==> SafeAt(stream[..k])
  }

  /** The streams whose every possible cut is harmless. */
  lemma SafeStreamsExactly(stream: seq<byte>)
    ensures CutsSafe(stream) <==> forall k :: 0 <= k <= |stream| ==> Harmless(stream[..k])
  {
    forall k | 0 <= k <= |stream|
      ensures SafeAt(stream[..k]) <==> Harmless(stream[..k])
    {
      SafeCutsExactly(stream[..k]);
    }
  }

  /** Streams without nested escapes are among them. */
  lemma NoNestedEscIsSafe(stream: seq<byte>)
    requires NoNestedEsc(stream)
    ensures CutsSafe(stream)
  {
    forall k | 0 <= k <= |stream|
      ensures SafeAt(stream[..k])
    {
      var bytes := stream[..k];
      NoNestedEscPrefix(stream, k);
      forall t: Modes, more: seq<byte>
        ensures Observed(t, bytes[..CutOf(bytes)] + (bytes[CutOf(bytes)..] + more))
             == Observed(Observed(t, bytes[..CutOf(bytes)]), bytes[CutOf(bytes)..] + more)
      {
        CutIsInvisible(t, bytes, bytes[CutOf(bytes)..] + more);
      }
      SafeCutsExactly(bytes);
    }
  }

  /** Others are too: here an ESC is nested twice, and no harm is done. */
  lemma NestedEscCanBeSafe()
    ensures !NoNestedEsc([ESC, ESC, ESC]) && SafeAt([ESC, ESC, ESC]) && PlaceAfter([ESC, ESC]) != Rest
  {
    var thrice: seq<byte> := [ESC, ESC, ESC];
    assert thrice[..1] == [ESC] && thrice[..2] == [ESC, ESC] && thrice[..2][..1] == [ESC] && [ESC][..0] == [];
    assert Run(Ground, [ESC]) == Escape && Run(Ground, thrice[..2]) == Ground && Run(Ground, thrice) == Escape;
    assert thrice[2..] == [ESC];
    TrackOne(Machine(FRESH, Rest), ESC);
    assert thrice == [ESC] + [ESC] + [ESC];
    TrackConcat(Machine(FRESH, Rest), [ESC] + [ESC], [ESC]);
    TrackConcat(Machine(FRESH, Rest), [ESC], [ESC]);
    TrackOne(Machine(FRESH, AfterEsc), ESC);
    assert [ESC, ESC] == [ESC] + [ESC];
  }

  /** The read loop can cut at a seam the tracker is not ready for when an ESC
      is nested: after ESC ESC, and after ESC [ > ESC [, nothing is held, yet
      the mode change that follows is lost. */
  lemma NestedEscLosesModes()
    ensures var left: seq<byte> := [ESC, ESC];
      && CutOf(left) == |left|
      && exists right :: Observed(FRESH, left + right) != Observed(Observed(FRESH, left), right)
    ensures var left: seq<byte> := [ESC, '[' as int, '>' as int, ESC, '[' as int];
      && CutOf(left) == |left|
      && exists right :: Observed(FRESH, left + right) != Observed(Observed(FRESH, left), right)
  {
    var twice: seq<byte> := [ESC, ESC];
    assert twice[..1] == [ESC];
    assert Run(Ground, [ESC]) == Escape;
    var m0 := Machine(FRESH, Rest);
    TrackConcat(m0, [ESC], [ESC]);
    assert [ESC] + [ESC] == twice;
    TrackOne(m0, ESC);
    TrackOne(Machine(FRESH, AfterEsc), ESC);
    var r1 := UnsafeContinuation(twice);

    var nested: seq<byte> := [ESC, '[' as int, '>' as int, ESC, '[' as int];
    assert nested[..4][..3] == nested[..3] && nested[..3][..2] == nested[..2] && nested[..2][..1] == [ESC];
    assert Run(Ground, nested[..2]) == Csi;
    assert Run(Ground, nested[..4]) == Csi;
    TrackConcat(m0, BRACKET, ['>' as int]);
    TrackConcat(m0, BRACKET + ['>' as int], BRACKET);
    BracketOpens(FRESH, []);
    assert BRACKET + [] == BRACKET;
    TrackOne(Machine(FRESH, CSI_START), '>' as int);
    assert BRACKET + ['>' as int] + BRACKET == nested;
    var r2 := UnsafeContinuation(nested);
  }

  // ----- readings ---------------------------------------------------------------------

  /** The tracker fed one chunk after another, as the read loop feeds it. */
  function ObservedEach(t: Modes, chunks: seq<seq<byte>>): Modes {
    if chunks == [] then t
    else Observed(ObservedEach(t, chunks[..|chunks| - 1]), chunks[|chunks| - 1])
  }

  lemma CutsSafePrefix(stream: seq<byte>, k: nat)
    requires CutsSafe(stream) && k <= |stream|
    ensures CutsSafe(stream[..k])
  {
    assert forall i :: 0 <= i <= k ==> stream[..k][..i] == stream[..i];
  }

  /** One more write: it starts with all that was held, so the seam before it is
      one of those the condition is about. */
  lemma OneWriteMore(t: Modes, earlier: seq<seq<byte>>, last: seq<byte>, n: nat)
    requires CutsSafe(Flatten(earlier)) && !Overflows(earlier)
    requires n == CutOf(Pending(earlier) + last) && n > 0
    ensures var sent, written := Flatten(Writes(earlier)), (Pending(earlier) + last)[..n];
      Observed(t, sent + written) == Observed(Observed(t, sent), written)
  {
    var before := Flatten(earlier);
    var held := Pending(earlier);
    ReadsMatchOneScan(earlier);
    CutCoversHeld(before, last);
    assert SafeAt(before) by {
      assert before[..|before|] == before;
    }
    TakenAcross(held, last, n);
    SafeSeam(t, before, Flatten(Writes(earlier)), held, last[..n - |held|]);
  }

  lemma TakenAcross(held: seq<byte>, last: seq<byte>, n: nat)
    requires |held| <= n <= |held + last|
    ensures (held + last)[..n] == held + last[..n - |held|]
  {
  }

  lemma {:induction false} ChunksLikeOneChunk(t: Modes, inputs: seq<seq<byte>>)
    requires CutsSafe(Flatten(inputs)) && !Overflows(inputs)
    ensures ObservedEach(t, Writes(inputs)) == Observed(t, Flatten(Writes(inputs)))
  {
    if inputs != [] {
      var earlier, last := inputs[..|inputs| - 1], inputs[|inputs| - 1];
      var before := Flatten(earlier);
      assert Flatten(inputs)[..|before|] == before;
      CutsSafePrefix(Flatten(inputs), |before|);
      ChunksLikeOneChunk(t, earlier);
      if Writes(inputs) != Writes(earlier) {
        var n := WrittenLength(Chunk(inputs));
        OneWriteMore(t, earlier, last, n);
        FlattenAppend(Writes(earlier), Chunk(inputs)[..n]);
      }
    }
  }

  /** The tracked state does not depend on how the PTY's reads fell, for every
      stream whose cuts are safe. */
  lemma SeamIndependence(t: Modes, one: seq<seq<byte>>, other: seq<seq<byte>>)
    requires Flatten(one) == Flatten(other) && CutsSafe(Flatten(one))
    requires !Overflows(one) && !Overflows(other)
    ensures ObservedEach(t, Writes(one)) == ObservedEach(t, Writes(other))
    ensures ObservedEach(t, AllWrites(one)) == Observed(t, Flatten(one)) == ObservedEach(t, AllWrites(other))
  {
    ChunksLikeOneChunk(t, one);
    ChunksLikeOneChunk(t, other);
    ChunkIndependence(one, other);
    EndLikeOneChunk(t, one);
    EndLikeOneChunk(t, other);
  }

  lemma EndLikeOneChunk(t: Modes, inputs: seq<seq<byte>>)
    requires CutsSafe(Flatten(inputs)) && !Overflows(inputs)
    ensures ObservedEach(t, AllWrites(inputs)) == Observed(t, Flatten(inputs))
  {
    var stream, sent, held := Flatten(inputs), Flatten(Writes(inputs)), Pending(inputs);
    ChunksLikeOneChunk(t, inputs);
    ReadsMatchOneScan(inputs);
    NothingIsLost(inputs);
    assert SafeAt(stream) by {
      assert stream[..|stream|] == stream;
    }
    SafeSeam(t, stream, sent, held, []);
    assert held + [] == held;
  }
}
