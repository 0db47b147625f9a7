/** Which streams replicas survive: for exactly the clean streams that never leave
    too much waiting, every reading and every run converges. */
module Streams {
  import opened Bytes
  import opened Boundary
  import opened Reading
  import opened Terminal
  import opened Protocol
  import opened Guarantees

  // ----- a torn moment ----------------------------------------------------------------------

  lemma {:induction false} WritesPrefix(inputs: seq<seq<byte>>, j: nat)
    requires j <= |inputs|
    ensures Writes(inputs[..j]) <= Writes(inputs)
    decreases |inputs|
  {
    if j == |inputs| {
      assert inputs[..j] == inputs;
    } else {
      var shorter := inputs[..|inputs| - 1];
      assert shorter[..j] == inputs[..j];
      WritesPrefix(shorter, j);
    }
  }

  lemma {:induction false} WritesSaySomething(inputs: seq<seq<byte>>)
    ensures [] !in Writes(inputs)
  {
    if inputs != [] {
      WritesSaySomething(inputs[..|inputs| - 1]);
    }
  }

  lemma {:induction false} FirstOverflow(inputs: seq<seq<byte>>) returns (j: nat)
    requires Overflows(inputs)
    ensures 0 < j <= |inputs| && Overflows(inputs[..j]) && !Overflows(inputs[..j - 1])
  {
    var shorter := inputs[..|inputs| - 1];
    if Overflows(shorter) {
      j := FirstOverflow(shorter);
      assert shorter[..j] == inputs[..j] && shorter[..j - 1] == inputs[..j - 1];
    } else {
      j := |inputs|;
      assert inputs[..j] == inputs;
    }
  }

  /** Flushing an overgrown tail lets go of something unfinished. */
  lemma OverflowIsTorn(inputs: seq<seq<byte>>)
    requires Overflows(inputs) && !Overflows(inputs[..|inputs| - 1])
    ensures !Whole(Flatten(Writes(inputs)))
  {
    var earlier, last := inputs[..|inputs| - 1], inputs[|inputs| - 1];
    var before := Flatten(earlier);
    ReadsMatchOneScan(earlier);
    RestartAtCut(before, last);
    FlushedEverything(inputs);
    ShortCutIsTorn(before + last);
  }

  lemma FlushedEverything(inputs: seq<seq<byte>>)
    requires inputs != [] && inputs[|inputs| - 1] != [] && Dammed(Chunk(inputs))
    ensures Flatten(Writes(inputs)) == Flatten(inputs)
  {
    NothingIsLost(inputs);
    assert Pending(inputs) == [];
    assert Flatten(Writes(inputs)) + [] == Flatten(Writes(inputs));
  }

  lemma ShortCutIsTorn(bytes: seq<byte>)
    ensures CutOf(bytes) < |bytes| ==> !Whole(bytes)
  {
  }

  /** Unless a stream is clean and bounded, reading it byte by byte comes to a
      moment when what has been written is not whole. */
  lemma TornMoment(stream: seq<byte>) returns (j: nat)
    requires !(Clean(stream) && Bounded(stream))
    ensures j <= |stream| && !Whole(Flatten(Writes(Singles(stream)[..j])))
  {
    var singles := Singles(stream);
    if Overflows(singles) {
      j := FirstOverflow(singles);
      assert singles[..j][..j - 1] == singles[..j - 1];
      OverflowIsTorn(singles[..j]);
    } else {
      if Clean(stream) {
        NeverOverflowsIsBounded(stream);
      }
      CleanIffCutsAreWhole(stream);
      j :| 0 <= j <= |stream| && !Whole(stream[..j][..CutOf(stream[..j])]);
      NoOverflowPrefix(singles, j);
      SinglesFlatten(stream, j);
      ReadsMatchOneScan(singles[..j]);
    }
  }

  lemma NoOverflowPrefix(inputs: seq<seq<byte>>, j: nat)
    requires !Overflows(inputs) && j <= |inputs|
    ensures !Overflows(inputs[..j])
  {
    if Overflows(inputs[..j]) {
      OverflowsLater(inputs, j);
    }
  }

  lemma NeverOverflowsIsBounded(stream: seq<byte>)
    requires !Overflows(Singles(stream))
    ensures Bounded(stream)
  {
    forall k | 0 <= k <= |stream|
      ensures k - CutOf(stream[..k]) <= MAX_HOLDBACK
    {
      NoOverflowPrefix(Singles(stream), k);
      SinglesFlatten(stream, k);
      ReadsMatchOneScan(Singles(stream)[..k]);
      HoldbackIsBounded(Singles(stream)[..k]);
    }
  }

  // ----- the run that shows it -----------------------------------------------------------------

  function WritingRun(chunks: seq<seq<byte>>): seq<Label<nat>> {
    seq(|chunks|, i requires 0 <= i < |chunks| => Write(chunks[i]))
  }

  predicate Alone(s: State<nat>) {
    s.subs == map[] && !s.tape.draining && !s.tape.ended && !s.exited && !s.closed
  }

  lemma WrittenAlone(s: State<nat>, chunk: seq<byte>)
    requires Alone(s)
    ensures Alone(Written(s, chunk)) && Written(s, chunk).tape.writes == s.tape.writes + [chunk]
  {
    assert Written(s, chunk).subs == map[];
  }

  lemma OneStepMore(s: State<nat>, run: seq<Label<nat>>, before: State<nat>, l: Label<nat>)
    requires Leads(s, run, before) && Enabled(before, l)
    ensures Leads(s, run + [l], Next(before, l))
  {
    assert (run + [l])[..|run|] == run;
  }

  lemma {:induction false} WritingRunWrites(cols: int, rows: int, chunks: seq<seq<byte>>) returns (s: State<nat>)
    requires [] !in chunks
    ensures Leads(Init<nat>(cols, rows), WritingRun(chunks), s) && Alone(s) && s.tape.writes == chunks
  {
    if chunks == [] {
      s := Init<nat>(cols, rows);
    } else {
      var shorter, last := chunks[..|chunks| - 1], chunks[|chunks| - 1];
      var before := WritingRunWrites(cols, rows, shorter);
      assert last in chunks;
      WrittenAlone(before, last);
      s := Written(before, last);
      OneStepMore(Init<nat>(cols, rows), WritingRun(shorter), before, Write(last));
      WritingRunMore(chunks);
    }
  }

  lemma WritingRunMore(chunks: seq<seq<byte>>)
    requires chunks != []
    ensures WritingRun(chunks) == WritingRun(chunks[..|chunks| - 1]) + [Write(chunks[|chunks| - 1])]
  {
  }

  /** Whoever attaches at a torn moment is handed less than the terminal. */
  lemma AttachedTooSoon(s: State<nat>)
    requires Alone(s) && !AtGround(s.term)
    ensures var next := Attached(s, 0, 64, true, 0, 0, true);
      && 0 in next.subs && next.subs[0].life.attached && Listening(next.subs[0])
      && Replica(next.subs[0]) != next.term && next.tape == s.tape
  {
    var sub := NewSub(64, true, Taken(s.term), |s.tape.log|);
    assert sub.chan.taken + sub.chan.queue == [];
  }

  // ----- the condition -----------------------------------------------------------------------------

  /** In this run around the writes of this reading, everyone listed and owed
      nothing has been sent the terminal. */
  ghost predicate Converges(inputs: seq<seq<byte>>, cols: int, rows: int, run: seq<Label<nat>>, s: State<nat>) {
    Reaches(cols, rows, run, s) && s.tape.writes <= Writes(inputs) ==>
      forall k :: k in s.subs && s.subs[k].life.attached && Listening(s.subs[k]) ==> Replica(s.subs[k]) == s.term
  }

  /** Every reading of a stream converges in every run, exactly if the stream is
      clean and never leaves more than the bound waiting. */
  lemma ConvergenceDependsOnStream(stream: seq<byte>, cols: int, rows: int)
    ensures Clean(stream) && Bounded(stream) <==>
      forall inputs, run, s :: FitsBuffer(inputs) && Flatten(inputs) == stream ==> Converges(inputs, cols, rows, run, s)
  {
    if Clean(stream) && Bounded(stream) {
      forall inputs, run: seq<Label<nat>>, s | FitsBuffer(inputs) && Flatten(inputs) == stream
        ensures Converges(inputs, cols, rows, run, s)
      {
        BoundedNeverOverflows(inputs);
        if Reaches(cols, rows, run, s) && s.tape.writes <= Writes(inputs) {
          ReplicaConvergence(cols, rows, inputs, run, s);
        }
      }
    } else {
      var run, s := OutOfStep(stream, cols, rows);
      var singles := Singles(stream);
      SinglesFlatten(stream, |stream|);
      assert singles[..|stream|] == singles && stream[..|stream|] == stream;
      assert !Converges(singles, cols, rows, run, s);
    }
  }

  lemma OutOfStep(stream: seq<byte>, cols: int, rows: int) returns (run: seq<Label<nat>>, s: State<nat>)
    requires !(Clean(stream) && Bounded(stream))
    ensures !Converges(Singles(stream), cols, rows, run, s)
  {
    var j := TornMoment(stream);
    var singles := Singles(stream);
    var chunks := Writes(singles[..j]);
    WritesPrefix(singles, j);
    WritesSaySomething(singles[..j]);
    var torn := WritingRunWrites(cols, rows, chunks);
    ParserFollowsWrites(cols, rows, WritingRun(chunks));
    AttachedTooSoon(torn);
    s := Attached(torn, 0, 64, true, 0, 0, true);
    run := WritingRun(chunks) + [Attach(0, 64, true, 0, 0, true)];
    OneStepMore(Init<nat>(cols, rows), WritingRun(chunks), torn, Attach(0, 64, true, 0, 0, true));
    NotConverged(singles, cols, rows, run, s, 0);
  }

  lemma NotConverged(inputs: seq<seq<byte>>, cols: int, rows: int, run: seq<Label<nat>>, s: State<nat>, k: nat)
    requires Reaches(cols, rows, run, s) && s.tape.writes <= Writes(inputs)
    requires k in s.subs && s.subs[k].life.attached && Listening(s.subs[k]) && Replica(s.subs[k]) != s.term
    ensures !Converges(inputs, cols, rows, run, s)
  {
  }
}
