/** The read loop of a session (session.go, `readLoop`): PTY reads go in,
    writes that end on sequence boundaries come out, an unfinished tail is
    carried from one read to the next. */
module Reading {
  import opened Sequences
  import opened Bytes
  import opened Boundary

  const READ_SIZE: nat := 32 * 1024
  const MAX_HOLDBACK: nat := 64 * 1024

  /** The reads a PTY can hand out: none longer than the buffer. */
  predicate FitsBuffer(inputs: seq<seq<byte>>) {
    forall i :: 0 <= i < |inputs| ==> |inputs[i]| <= READ_SIZE
  }

  predicate Dammed(chunk: seq<byte>) {
    CutOf(chunk) == 0 && |chunk| > MAX_HOLDBACK
  }

  /** How much of a chunk is written: its cut, or all of it once an unfinished
      tail has grown past the bound. */
  function WrittenLength(chunk: seq<byte>): (n: nat)
    ensures n <= |chunk|
  {
    if Dammed(chunk) then |chunk| else CutOf(chunk)
  }

  /** The tail held after these inputs. */
  function Pending(inputs: seq<seq<byte>>): seq<byte> {
    if inputs == [] then []
    else
      var chunk := Chunk(inputs);
      if inputs[|inputs| - 1] == [] then Pending(inputs[..|inputs| - 1]) else chunk[WrittenLength(chunk)..]
  }

  /** What the last read completes: the tail held before it, and the read. */
  function Chunk(inputs: seq<seq<byte>>): seq<byte>
    requires inputs != []
    decreases inputs, 0
  {
    Pending(inputs[..|inputs| - 1]) + inputs[|inputs| - 1]
  }

  /** The chunks written during these inputs. */
  function Writes(inputs: seq<seq<byte>>): seq<seq<byte>> {
    if inputs == [] then []
    else
      var earlier := Writes(inputs[..|inputs| - 1]);
      var chunk := Chunk(inputs);
      if inputs[|inputs| - 1] == [] || WrittenLength(chunk) == 0 then earlier
      else earlier + [chunk[..WrittenLength(chunk)]]
  }

  /** The chunks written by the time the stream has ended: a remnant is flushed
      even though nobody is left to finish it. */
  function AllWrites(inputs: seq<seq<byte>>): seq<seq<byte>> {
    if Pending(inputs) == [] then Writes(inputs) else Writes(inputs) + [Pending(inputs)]
  }

  /** Where to cut: a tail that has grown past the bound goes out torn. */
  method ChooseCut(chunk: seq<byte>) returns (cut: nat)
    ensures cut == WrittenLength(chunk)
  {
    cut := CompleteBoundary(chunk);
    if cut == 0 && |chunk| > MAX_HOLDBACK {
      cut := |chunk|;
    }
  }

  /** The loop itself; `inputs` are what the PTY returns until it fails. */
  method ReadLoop(inputs: seq<seq<byte>>) returns (writes: seq<seq<byte>>)
    ensures writes == AllWrites(inputs)
  {
    var pending: seq<byte> := [];
    writes := [];
    for i := 0 to |inputs|
      invariant pending == Pending(inputs[..i])
      invariant writes == Writes(inputs[..i])
    {
      assert inputs[..i + 1][..i] == inputs[..i];
      if |inputs[i]| > 0 {
        var chunk := pending + inputs[i];
        var cut := ChooseCut(chunk);
        if cut > 0 {
          writes := writes + [chunk[..cut]];
        }
        pending := chunk[cut..];
      }
    }
    assert inputs[..|inputs|] == inputs;
    if |pending| > 0 {
      writes := writes + [pending];
    }
  }

  /** What one read does: it lets go of what is whole, of everything if that is
      nothing and more than 64 KiB wait, and otherwise of nothing. */
  lemma OneRead(inputs: seq<seq<byte>>, input: seq<byte>)
    ensures var chunk, after := Pending(inputs) + input, inputs + [input];
      var cut := CutOf(chunk);
      && (input == [] ==> Writes(after) == Writes(inputs) && Pending(after) == Pending(inputs))
      && (input != [] && cut > 0 ==> Writes(after) == Writes(inputs) + [chunk[..cut]] && Pending(after) == chunk[cut..])
      && (input != [] && cut == 0 && |chunk| > 0x1_0000 ==> Writes(after) == Writes(inputs) + [chunk] && Pending(after) == [])
      && (input != [] && cut == 0 && |chunk| <= 0x1_0000 ==> Writes(after) == Writes(inputs) && Pending(after) == chunk)
  {
    assert (inputs + [input])[..|inputs|] == inputs;
    var chunk := Pending(inputs) + input;
    assert chunk[..|chunk|] == chunk;
  }

  /** Before the first read nothing is held, and after the last what is held is
      written, as one chunk. */
  lemma BothEnds(inputs: seq<seq<byte>>)
    ensures Writes([]) == [] && Pending([]) == []
    ensures Pending(inputs) == [] ==> AllWrites(inputs) == Writes(inputs)
    ensures Pending(inputs) != [] ==> AllWrites(inputs) == Writes(inputs) + [Pending(inputs)]
  {
  }

  // ----- conservation -----------------------------------------------------

  lemma {:induction false} NothingIsLost(inputs: seq<seq<byte>>)
    ensures Flatten(Writes(inputs)) + Pending(inputs) == Flatten(inputs)
  {
    if inputs != [] {
      var earlier, last := inputs[..|inputs| - 1], inputs[|inputs| - 1];
      NothingIsLost(earlier);
      var chunk := Chunk(inputs);
      var n := WrittenLength(chunk);
      FlattenAppend(Writes(earlier), chunk[..n]);
      Regrouped(Flatten(Writes(earlier)), chunk[..n], chunk[n..]);
      Rejoined(chunk, n);
      Regrouped(Flatten(Writes(earlier)), Pending(earlier), last);
    }
  }

  /** At the end of the stream everything read has been written, in order. */
  lemma EverythingIsWritten(inputs: seq<seq<byte>>)
    ensures Flatten(AllWrites(inputs)) == Flatten(inputs)
  {
    NothingIsLost(inputs);
    FlattenAppend(Writes(inputs), Pending(inputs));
  }

  // ----- the bound ----------------------------------------------------------

  /** What can be held: a rune's first bytes, or one sequence that has not
      closed since its very first byte. */
  predicate Holdable(held: seq<byte>) {
    |held| <= 3 || (Run(Ground, held) != Ground && OpenedAt(held) == 0)
  }

  lemma CutLeavesHoldable(chunk: seq<byte>)
    ensures Holdable(chunk[CutOf(chunk)..])
  {
    if Run(Ground, chunk) != Ground {
      CutBeforeSequence(chunk);
      RestartAtCut(chunk, []);
      assert chunk + [] == chunk;
      assert chunk[CutOf(chunk)..] + [] == chunk[CutOf(chunk)..];
    }
  }

  /** A positive cut closes the sequence that was held, so what it leaves came
      with the new read, but for the three bytes of a rune at most. */
  lemma PositiveCutLeavesLittle(held: seq<byte>, input: seq<byte>)
    requires Holdable(held) && CutOf(held + input) > 0
    ensures |held + input| - CutOf(held + input) <= |input| + 2
  {
    var chunk := held + input;
    var cut := CutOf(chunk);
    if |held| > 3 && Run(Ground, chunk) != Ground && cut < |held| {
      CutBeforeSequence(chunk);
      OpenedAtMeaning(held);
      assert chunk[..cut] == held[..cut];
    } else if Run(Ground, chunk) == Ground && input == [] {
      assert chunk == held;
    }
  }

  lemma {:induction false} HoldbackIsBounded(inputs: seq<seq<byte>>)
    requires forall i :: 0 <= i < |inputs| ==> |inputs[i]| <= 0x8000
    ensures |Pending(inputs)| <= 0x1_0000
    ensures Holdable(Pending(inputs))
    ensures forall w :: w in Writes(inputs) ==> |w| <= 0x1_8000
    ensures forall w :: w in AllWrites(inputs) ==> |w| <= 0x1_8000
  {
    if inputs != [] {
      var earlier, last := inputs[..|inputs| - 1], inputs[|inputs| - 1];
      HoldbackIsBounded(earlier);
      assert |last| <= 0x8000;
      var chunk := Chunk(inputs);
      if last != [] && !Dammed(chunk) {
        CutLeavesHoldable(chunk);
        if CutOf(chunk) > 0 {
          PositiveCutLeavesLittle(Pending(earlier), last);
        }
      }
    }
  }

  // ----- chunk independence -----------------------------------------------

  /** The flush of an overgrown tail was taken during these inputs. */
  predicate Overflows(inputs: seq<seq<byte>>) {
    inputs != [] && (Overflows(inputs[..|inputs| - 1]) || (inputs[|inputs| - 1] != [] && Dammed(Chunk(inputs))))
  }

  /** Reading piecemeal writes and holds what one scan of the whole stream
      would. */
  lemma {:induction false} ReadsMatchOneScan(inputs: seq<seq<byte>>)
    requires !Overflows(inputs)
    ensures var stream := Flatten(inputs);
      && Flatten(Writes(inputs)) == stream[..CutOf(stream)]
      && Pending(inputs) == stream[CutOf(stream)..]
  {
    var stream := Flatten(inputs);
    if inputs != [] {
      var earlier, last := inputs[..|inputs| - 1], inputs[|inputs| - 1];
      ReadsMatchOneScan(earlier);
      if last == [] {
        assert stream == Flatten(earlier);
      } else {
        RestartAtCut(Flatten(earlier), last);
      }
    }
    NothingIsLost(inputs);
  }

  /** However the inputs fell, the same bytes are out and the same are held. */
  lemma ChunkIndependence(one: seq<seq<byte>>, other: seq<seq<byte>>)
    requires Flatten(one) == Flatten(other)
    requires !Overflows(one) && !Overflows(other)
    ensures Flatten(Writes(one)) == Flatten(Writes(other))
    ensures Pending(one) == Pending(other)
  {
    ReadsMatchOneScan(one);
    ReadsMatchOneScan(other);
  }

  /** No moment of the stream's arrival leaves more than the bound waiting. */
  predicate Bounded(stream: seq<byte>) {
    forall k :: 0 <= k <= |stream| ==> k - CutOf(stream[..k]) <= MAX_HOLDBACK
  }

  function Singles(stream: seq<byte>): (inputs: seq<seq<byte>>)
    ensures FitsBuffer(inputs)
  {
    seq(|stream|, i requires 0 <= i < |stream| => [stream[i]])
  }

  lemma {:induction false} SinglesFlatten(stream: seq<byte>, k: nat)
    requires k <= |stream|
    ensures Flatten(Singles(stream)[..k]) == stream[..k]
  {
    if k > 0 {
      SinglesFlatten(stream, k - 1);
      assert Singles(stream)[..k][..k - 1] == Singles(stream)[..k - 1];
      assert stream[..k] == stream[..k - 1] + [stream[k - 1]];
    }
  }

  lemma {:induction false} OverflowsLater(inputs: seq<seq<byte>>, k: nat)
    requires k <= |inputs| && Overflows(inputs[..k])
    ensures Overflows(inputs)
    decreases |inputs| - k
  {
    if k == |inputs| {
      assert inputs[..k] == inputs;
    } else {
      assert inputs[..k + 1][..k] == inputs[..k];
      OverflowsLater(inputs, k + 1);
    }
  }

  lemma {:induction false} BoundedNeverOverflows(inputs: seq<seq<byte>>)
    requires Bounded(Flatten(inputs))
    ensures !Overflows(inputs)
  {
    if inputs != [] {
      var earlier, last := inputs[..|inputs| - 1], inputs[|inputs| - 1];
      var before, stream := Flatten(earlier), Flatten(inputs);
      forall k | 0 <= k <= |before|
        ensures k - CutOf(before[..k]) <= MAX_HOLDBACK
      {
        assert before[..k] == stream[..k];
      }
      BoundedNeverOverflows(earlier);
      ReadsMatchOneScan(earlier);
      RestartAtCut(before, last);
      assert stream[..|stream|] == stream;
    }
  }

  /** The streams no reading can make overflow are exactly the bounded ones, so
      chunk independence is a matter of the stream alone. */
  lemma OverflowDependsOnStream(stream: seq<byte>)
    ensures Bounded(stream) <==>
      forall inputs :: FitsBuffer(inputs) && Flatten(inputs) == stream ==> !Overflows(inputs)
  {
    if Bounded(stream) {
      forall inputs | FitsBuffer(inputs) && Flatten(inputs) == stream
        ensures !Overflows(inputs)
      {
        BoundedNeverOverflows(inputs);
      }
    }
    if forall inputs :: FitsBuffer(inputs) && Flatten(inputs) == stream ==> !Overflows(inputs) {
      var singles := Singles(stream);
      assert singles[..|stream|] == singles && stream[..|stream|] == stream;
      SinglesFlatten(stream, |stream|);
      forall k | 0 <= k <= |stream|
        ensures k - CutOf(stream[..k]) <= MAX_HOLDBACK
      {
        if Overflows(singles[..k]) {
          OverflowsLater(singles, k);
        }
        SinglesFlatten(stream, k);
        ReadsMatchOneScan(singles[..k]);
        HoldbackIsBounded(singles[..k]);
      }
    }
  }

  // ----- clean streams ------------------------------------------------------

  /** In a clean stream every write, not only the last, leaves nothing waiting. */
  lemma {:induction false} CleanWritesAreWhole(inputs: seq<seq<byte>>, j: nat)
    requires Clean(Flatten(inputs)) && !Overflows(inputs)
    requires j <= |Writes(inputs)|
    ensures Whole(Flatten(Writes(inputs)[..j]))
  {
    if j == |Writes(inputs)| {
      assert Writes(inputs)[..j] == Writes(inputs);
      ReadsMatchOneScan(inputs);
      CleanCutIsWhole(Flatten(inputs));
    } else {
      var earlier := inputs[..|inputs| - 1];
      assert Flatten(inputs)[..|Flatten(earlier)|] == Flatten(earlier);
      CleanPrefix(Flatten(inputs), |Flatten(earlier)|);
      assert Writes(earlier)[..j] == Writes(inputs)[..j];
      CleanWritesAreWhole(earlier, j);
    }
  }
}
