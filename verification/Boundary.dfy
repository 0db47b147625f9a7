/** Where PTY output may be cut: the scanner of `completeBoundary` and the
    three-byte look-back of `incompleteRuneTail` (session.go). */
module Boundary {
  import opened Bytes

  // ----- the scanner ---------------------------------------------------

  datatype Scan =
    | Ground
    | Escape     // ESC seen
    | Csi        // ESC [ ... until a final byte 0x40..0x7E
    | Str        // OSC, DCS, APC, PM or SOS ... until BEL or ST
    | StrEscape  // ESC inside a string: the first half of ST

  predicate IsIntermediate(b: byte) {
    0x20 <= b <= 0x2f
  }

  predicate IsFinal(b: byte) {
    0x40 <= b <= 0x7e
  }

  predicate OpensString(b: byte) {
    b == ']' as int || b == 'P' as int || b == '^' as int || b == '_' as int || b == 'X' as int
  }

  function Step(state: Scan, b: byte): Scan {
    match state
    case Ground => if b == ESC then Escape else Ground
    case Escape =>
      if b == '[' as int then Csi
      else if OpensString(b) then Str
      else if IsIntermediate(b) then Escape
      else Ground
    case Csi => if IsFinal(b) then Ground else Csi
    case Str => if b == BEL then Ground else if b == ESC then StrEscape else Str
    case StrEscape => if b == '\\' as int then Ground else Str
  }

  /** The scanner's state after `bytes`, started in `state`. */
  function Run(state: Scan, bytes: seq<byte>): Scan {
    if bytes == [] then state
    else Step(Run(state, bytes[..|bytes| - 1]), bytes[|bytes| - 1])
  }

  lemma {:induction false} RunConcat(state: Scan, left: seq<byte>, right: seq<byte>)
    ensures Run(state, left + right) == Run(Run(state, left), right)
    decreases |right|
  {
    if right == [] {
      assert left + right == left;
    } else {
      var shorter := right[..|right| - 1];
      assert (left + right)[..|left + right| - 1] == left + shorter;
      RunConcat(state, left, shorter);
    }
  }

  /** Where the last sequence to leave ground began. */
  function OpenedAt(bytes: seq<byte>): (start: nat)
    ensures bytes == [] || start < |bytes|
  {
    if bytes == [] then 0
    else
      var shorter := bytes[..|bytes| - 1];
      if Run(Ground, shorter) == Ground && bytes[|bytes| - 1] == ESC then |shorter|
      else OpenedAt(shorter)
  }

  // ----- the look-back -------------------------------------------------

  predicate IsContinuation(b: byte) {
    0x80 <= b < 0xc0
  }

  /** The length a rune's first byte announces; 0 for a byte that starts none.
      The ranges are the masks of the source (0xc0, 0x80, 0xe0, 0xf0, 0xf8);
      RFC 3629, section 3, gives the lengths. */
  function Announced(b: byte): nat {
    if b < 0x80 then 1
    else if 0xc0 <= b < 0xe0 then 2
    else if 0xe0 <= b < 0xf0 then 3
    else if 0xf0 <= b < 0xf8 then 4
    else 0
  }

  predicate IsLead(b: byte) {
    Announced(b) >= 2
  }

  /** The last `back` bytes begin a rune whose remainder has not arrived. */
  predicate TornRune(bytes: seq<byte>, back: nat) {
    && 1 <= back <= |bytes|
    && Announced(bytes[|bytes| - back]) > back
    && forall i :: |bytes| - back < i < |bytes| ==> IsContinuation(bytes[i])
  }

  /** How long a torn rune the bytes end in, looking at three of them at most. */
  function TornTail(bytes: seq<byte>): (back: nat)
    ensures back <= 3 && back <= |bytes|
  {
    var n := |bytes|;
    if n >= 1 && Announced(bytes[n - 1]) > 1 then 1
    else if n >= 2 && IsContinuation(bytes[n - 1]) && Announced(bytes[n - 2]) > 2 then 2
    else if n >= 3 && IsContinuation(bytes[n - 1]) && IsContinuation(bytes[n - 2]) && Announced(bytes[n - 3]) > 3 then 3
    else 0
  }

  // ----- the cut -------------------------------------------------------

  /** How much of a chunk may be written now. */
  function CutOf(bytes: seq<byte>): (cut: nat)
    ensures cut <= |bytes|
  {
    if Run(Ground, bytes) != Ground then OpenedAt(bytes)
    else |bytes| - TornTail(bytes)
  }

  /** Nothing in `bytes` is left waiting for a remainder. */
  predicate Whole(bytes: seq<byte>) {
    Run(Ground, bytes) == Ground && TornTail(bytes) == 0
  }

  // ----- facts about the look-back --------------------------------------

  /** Three steps back are enough to find any rune that could be torn. */
  lemma TornTailMeaning(bytes: seq<byte>)
    ensures TornTail(bytes) > 0 ==> TornRune(bytes, TornTail(bytes))
    ensures forall k: nat :: TornRune(bytes, k) ==> k == TornTail(bytes)
  {
  }

  /** In bytes: the last one to three of them begin a rune of two, three or four
      (RFC 3629, section 3) and are fewer than that. */
  lemma TornTailInBytes(bytes: seq<byte>, k: nat)
    requires 1 <= k <= 3
    ensures TornTail(bytes) == k <==>
      && k <= |bytes|
      && (forall i :: |bytes| - k < i < |bytes| ==> 0x80 <= bytes[i] <= 0xbf)
      && var b := bytes[|bytes| - k];
         (k < 2 && 0xc0 <= b <= 0xdf) || (k < 3 && 0xe0 <= b <= 0xef) || (k < 4 && 0xf0 <= b <= 0xf7)
  {
    TornTailMeaning(bytes);
    if TornTail(bytes) == k {
      assert forall i :: |bytes| - k < i < |bytes| ==> IsContinuation(bytes[i]);
    }
  }

  /** The first byte, looking back, that is not a continuation decides. */
  lemma TailDecidedAt(bytes: seq<byte>, back: nat)
    requires 1 <= back <= 3 && back <= |bytes| && !IsContinuation(bytes[|bytes| - back])
    requires forall i :: |bytes| - back < i < |bytes| ==> IsContinuation(bytes[i])
    ensures TornTail(bytes) == if Announced(bytes[|bytes| - back]) > back then back else 0
  {
  }

  /** The look-back never reads past a byte that is not a continuation, nor
      past a point where no rune was waiting. */
  lemma TailOfSuffix(left: seq<byte>, right: seq<byte>)
    requires TornTail(left) == 0 || (right != [] && !IsContinuation(right[0]))
    ensures TornTail(left + right) == TornTail(right)
  {
  }

  // ----- facts about the scanner ----------------------------------------

  /** An unfinished sequence began at a ground ESC and has stayed off ground
      ever since. */
  lemma {:induction false} OpenedAtMeaning(bytes: seq<byte>)
    requires Run(Ground, bytes) != Ground
    ensures bytes[OpenedAt(bytes)] == ESC
    ensures Run(Ground, bytes[..OpenedAt(bytes)]) == Ground
    ensures forall k :: OpenedAt(bytes) < k <= |bytes| ==> Run(Ground, bytes[..k]) != Ground
  {
    var shorter := bytes[..|bytes| - 1];
    assert forall k :: 0 <= k <= |shorter| ==> shorter[..k] == bytes[..k];
    assert bytes[..|bytes|] == bytes;
    if Run(Ground, shorter) != Ground {
      OpenedAtMeaning(shorter);
    }
  }

  /** The converse: those three facts pin the opening position down. */
  lemma OpenedAtUnique(bytes: seq<byte>, start: nat)
    requires start < |bytes| && Run(Ground, bytes[..start]) == Ground
    requires forall k :: start < k <= |bytes| ==> Run(Ground, bytes[..k]) != Ground
    ensures OpenedAt(bytes) == start
  {
    assert bytes[..|bytes|] == bytes;
    OpenedAtMeaning(bytes);
  }

  /** Bytes that begin no ASCII control leave only these ways to ground. */
  lemma {:induction false} HighBytesRun(state: Scan, bytes: seq<byte>)
    requires forall i :: 0 <= i < |bytes| ==> bytes[i] >= 0x80
    requires bytes != []
    ensures Run(state, bytes) == Ground <==> state == Ground || state == Escape
  {
    var shorter := bytes[..|bytes| - 1];
    if shorter == [] {
      assert Run(state, shorter) == state;
    } else {
      HighBytesRun(state, shorter);
    }
  }

  /** The cut before an unfinished sequence. */
  lemma CutBeforeSequence(bytes: seq<byte>)
    requires Run(Ground, bytes) != Ground
    ensures var cut := CutOf(bytes);
      && cut < |bytes| && bytes[cut] == ESC
      && Run(Ground, bytes[..cut]) == Ground
      && Run(Ground, bytes[cut..]) == Run(Ground, bytes)
  {
    OpenedAtMeaning(bytes);
    RunFromGround(bytes, OpenedAt(bytes));
  }

  lemma RunFromGround(bytes: seq<byte>, at: nat)
    requires at <= |bytes| && Run(Ground, bytes[..at]) == Ground
    ensures Run(Ground, bytes[at..]) == Run(Ground, bytes)
  {
    assert bytes == bytes[..at] + bytes[at..];
    RunConcat(Ground, bytes[..at], bytes[at..]);
  }

  /** A torn rune has no ASCII byte in it. */
  lemma TornRuneIsHigh(bytes: seq<byte>, back: nat)
    requires TornRune(bytes, back)
    ensures back <= 3 && IsLead(bytes[|bytes| - back])
    ensures forall i :: |bytes| - back <= i < |bytes| ==> bytes[i] >= 0x80
  {
  }

  /** The cut before an unfinished rune: the scanner need not be at ground
      there, because the rune's lead byte may be what ended an escape. */
  lemma CutBeforeRune(bytes: seq<byte>)
    requires Run(Ground, bytes) == Ground && TornTail(bytes) > 0
    ensures var cut := CutOf(bytes);
      && |bytes| - 3 <= cut < |bytes| && IsLead(bytes[cut])
      && Run(Ground, bytes[..cut]) in {Ground, Escape}
      && Run(Ground, bytes[cut..]) == Ground
  {
    var torn := TornTail(bytes);
    TornTailMeaning(bytes);
    TornRuneIsHigh(bytes, torn);
    HighTail(bytes, |bytes| - torn);
  }

  /** Above 0x7f the scanner only ever moves from an escape to ground. */
  lemma HighTail(bytes: seq<byte>, at: nat)
    requires at < |bytes| && Run(Ground, bytes) == Ground
    requires forall i :: at <= i < |bytes| ==> bytes[i] >= 0x80
    ensures Run(Ground, bytes[..at]) in {Ground, Escape} && Run(Ground, bytes[at..]) == Ground
  {
    var sent, held := bytes[..at], bytes[at..];
    assert bytes == sent + held;
    RunConcat(Ground, sent, held);
    HighBytesRun(Ground, held);
    HighBytesRun(Run(Ground, sent), held);
  }

  // ----- the two loops --------------------------------------------------

  /** `completeBoundary`: one pass, remembering where the open sequence began. */
  method CompleteBoundary(chunk: seq<byte>) returns (cut: nat)
    ensures cut == CutOf(chunk)
  {
    var state := Ground;
    var start := 0;
    for index := 0 to |chunk|
      invariant state == Run(Ground, chunk[..index])
      invariant state != Ground ==> start == OpenedAt(chunk[..index])
    {
      var b := chunk[index];
      assert chunk[..index + 1][..index] == chunk[..index];
      match state {
        case Ground =>
          if b == ESC {
            state, start := Escape, index;
          }
        case Escape =>
          if b == '[' as int {
            state := Csi;
          } else if OpensString(b) {
            state := Str;
          } else if IsIntermediate(b) {
            // Intermediates continue the sequence.
          } else {
            state := Ground;
          }
        case Csi =>
          if IsFinal(b) {
            state := Ground;
          }
        case Str =>
          if b == BEL {
            state := Ground;
          } else if b == ESC {
            state := StrEscape;
          }
        case StrEscape =>
          if b == '\\' as int {
            state := Ground;
          } else {
            state := Str;
          }
      }
    }
    assert chunk[..|chunk|] == chunk;
    if state != Ground {
      return start;
    }
    var torn := IncompleteRuneTail(chunk);
    return |chunk| - torn;
  }

  /** `incompleteRuneTail`: at most three steps back. */
  method IncompleteRuneTail(chunk: seq<byte>) returns (torn: nat)
    ensures torn == TornTail(chunk)
  {
    var back := 1;
    while back <= 3 && back <= |chunk|
      invariant 1 <= back <= 4
      invariant forall i :: |chunk| - back < i < |chunk| ==> 0 <= i && IsContinuation(chunk[i])
    {
      var b := chunk[|chunk| - back];
      if !IsContinuation(b) {
        TailDecidedAt(chunk, back);
        return if Announced(b) > back then back else 0;
      }
      back := back + 1;
    }
    return 0;
  }

  /** What a cut is: if a sequence is unfinished, the one place where it began;
      otherwise the end, less a torn rune. */
  lemma CutMeaning(bytes: seq<byte>, cut: nat)
    requires cut <= |bytes|
    ensures Run(Ground, bytes) != Ground ==>
      (cut == CutOf(bytes) <==>
         && cut < |bytes| && bytes[cut] == 0x1b && Run(Ground, bytes[..cut]) == Ground
         && forall k :: cut < k <= |bytes| ==> Run(Ground, bytes[..k]) != Ground)
    ensures Run(Ground, bytes) == Ground ==>
      (cut == CutOf(bytes) <==> if cut == |bytes| then TornTail(bytes) == 0 else TornTail(bytes) == |bytes| - cut)
  {
    if Run(Ground, bytes) != Ground {
      OpenedAtMeaning(bytes);
      if cut < |bytes| && Run(Ground, bytes[..cut]) == Ground && forall k :: cut < k <= |bytes| ==> Run(Ground, bytes[..k]) != Ground {
        OpenedAtUnique(bytes, cut);
      }
    }
  }

  // ----- restarting at a cut ---------------------------------------------

  lemma OpenedAtAfter(left: seq<byte>, right: seq<byte>)
    requires Run(Ground, left) == Ground && Run(Ground, right) != Ground
    ensures OpenedAt(left + right) == |left| + OpenedAt(right)
  {
    var all, start := left + right, OpenedAt(right);
    OpenedAtMeaning(right);
    forall k | 0 <= k <= |right|
      ensures Run(Ground, all[..|left| + k]) == Run(Ground, right[..k])
    {
      assert all[..|left| + k] == left + right[..k];
      RunConcat(Ground, left, right[..k]);
    }
    forall k | |left| + start < k <= |all|
      ensures Run(Ground, all[..k]) != Ground
    {
      assert Run(Ground, all[..|left| + (k - |left|)]) == Run(Ground, right[..k - |left|]);
    }
    assert Run(Ground, all[..|left| + start]) == Run(Ground, right[..start]);
    OpenedAtUnique(all, |left| + start);
  }

  /** Cutting early loses nothing: scanning only what an earlier cut held back,
      followed by more bytes, finds the cut a scan of the whole stream finds.
      No assumption is made about the stream. */
  lemma RestartAtCut(early: seq<byte>, more: seq<byte>)
    ensures var cut := CutOf(early);
      CutOf(early + more) == cut + CutOf(early[cut..] + more)
  {
    var cut := CutOf(early);
    var sent, held := early[..cut], early[cut..];
    assert early == sent + held;
    assert early + more == sent + (held + more);
    if Run(Ground, early) != Ground {
      CutBeforeSequence(early);
    } else if cut < |early| {
      CutBeforeRune(early);
    }
    RunConcat(Ground, early, more);
    RunConcat(Ground, held, more);
    if Run(Ground, early + more) == Ground {
      TailOfSuffix(sent, held + more);
    } else if Run(Ground, early) != Ground {
      OpenedAtAfter(sent, held + more);
    } else {
      OpenedAtAfter(early, more);
      OpenedAtAfter(held, more);
    }
  }

  /** What a later cut lets go of includes all that was held. */
  lemma CutCoversHeld(early: seq<byte>, more: seq<byte>)
    ensures var held := early[CutOf(early)..];
      CutOf(held + more) > 0 ==> CutOf(held + more) >= |held|
  {
    var held := early[CutOf(early)..];
    if Run(Ground, early) != Ground {
      CutBeforeSequence(early);
      RestartAtCut(early, []);
      assert early + [] == early && held + [] == held;
      SequenceIsCutWhole(held, more);
    } else if held != [] {
      TornTailMeaning(early);
      RuneIsCutWhole(held, more) by {
        assert forall i :: 0 <= i < |held| ==> held[i] == early[CutOf(early) + i];
      }
    }
  }

  lemma SequenceIsCutWhole(held: seq<byte>, more: seq<byte>)
    requires Run(Ground, held) != Ground && OpenedAt(held) == 0
    ensures CutOf(held + more) > 0 ==> CutOf(held + more) >= |held|
  {
    var chunk, cut := held + more, CutOf(held + more);
    if 0 < cut < |held| {
      OpenedAtMeaning(held);
      assert chunk[..cut] == held[..cut];
      if Run(Ground, chunk) != Ground {
        CutBeforeSequence(chunk);
      } else {
        TornTailMeaning(chunk);
        TornRuneIsHigh(chunk, |chunk| - cut);
        assert forall i :: cut <= i < |held| ==> held[i] == chunk[i];
        HighTail(chunk, cut);
        HighEnds(held, cut);
      }
    }
  }

  lemma HighEnds(bytes: seq<byte>, at: nat)
    requires at < |bytes| && Run(Ground, bytes[..at]) in {Ground, Escape}
    requires forall i :: at <= i < |bytes| ==> bytes[i] >= 0x80
    ensures Run(Ground, bytes) == Ground
  {
    assert bytes == bytes[..at] + bytes[at..];
    RunConcat(Ground, bytes[..at], bytes[at..]);
    HighBytesRun(Run(Ground, bytes[..at]), bytes[at..]);
  }

  lemma RuneIsCutWhole(held: seq<byte>, more: seq<byte>)
    requires forall i :: 0 < i < |held| ==> IsContinuation(held[i])
    ensures CutOf(held + more) > 0 ==> CutOf(held + more) >= |held|
  {
    var chunk, cut := held + more, CutOf(held + more);
    if 0 < cut < |held| {
      assert chunk[cut] == held[cut];
      if Run(Ground, chunk) != Ground {
        CutBeforeSequence(chunk);
      } else {
        CutBeforeRune(chunk);
      }
    }
  }

  // ----- maximality and soundness ------------------------------------------

  /** No longer prefix is both at ground and free of a torn rune, whatever the
      bytes are. */
  lemma CutIsMaximal(bytes: seq<byte>, longer: nat)
    requires CutOf(bytes) < longer <= |bytes|
    ensures !Whole(bytes[..longer])
  {
    if Run(Ground, bytes) != Ground {
      OpenedAtMeaning(bytes);
    } else {
      var cut := CutOf(bytes);
      var prefix := bytes[..longer];
      assert TornRune(bytes, |bytes| - cut);
      assert prefix[cut] == bytes[cut];
      forall i | cut < i < longer
        ensures IsContinuation(prefix[i])
      {
        assert IsContinuation(bytes[i]);
      }
      assert TornRune(prefix, longer - cut);
    }
  }

  /** From `e` the bytes are a ground ESC and nothing but intermediates. */
  predicate OpenEscape(bytes: seq<byte>, e: nat) {
    && e < |bytes| && Run(Ground, bytes[..e]) == Ground && bytes[e] == 0x1b
    && forall i :: e < i < |bytes| ==> 0x20 <= bytes[i] <= 0x2f
  }

  /** The scanner sits in an unfinished escape exactly when the bytes end in
      one. */
  lemma EscapeShape(bytes: seq<byte>)
    ensures Run(Ground, bytes) == Escape <==> exists e: nat :: OpenEscape(bytes, e)
  {
    if Run(Ground, bytes) == Escape {
      EscapeEndsInIntermediates(bytes);
      OpenedAtMeaning(bytes);
      assert OpenEscape(bytes, OpenedAt(bytes));
    }
    if e: nat :| OpenEscape(bytes, e) {
      IntermediatesKeepEscape(bytes, e);
    }
  }

  lemma {:induction false} EscapeEndsInIntermediates(bytes: seq<byte>)
    requires Run(Ground, bytes) == Escape
    ensures forall i :: OpenedAt(bytes) < i < |bytes| ==> IsIntermediate(bytes[i])
  {
    var shorter := bytes[..|bytes| - 1];
    if Run(Ground, shorter) != Ground {
      EscapeEndsInIntermediates(shorter);
    }
  }

  lemma {:induction false} IntermediatesKeepEscape(bytes: seq<byte>, e: nat)
    requires OpenEscape(bytes, e)
    ensures Run(Ground, bytes) == Escape
  {
    var shorter := bytes[..|bytes| - 1];
    if e == |bytes| - 1 {
      assert shorter == bytes[..e];
    } else {
      assert shorter[..e] == bytes[..e];
      IntermediatesKeepEscape(shorter, e);
    }
  }

  /** From `e` the bytes are an ESC, intermediates, a bracket at `f`, and nothing
      that could end the control sequence (the shape of ECMA-48, section 5.4, but
      with any non-final bytes for parameters, and intermediates allowed before
      the bracket). */
  predicate OpenCsi(bytes: seq<byte>, e: nat, f: nat) {
    && e < f < |bytes| && Run(Ground, bytes[..e]) == Ground && bytes[e] == 0x1b
    && (forall i :: e < i < f ==> 0x20 <= bytes[i] <= 0x2f)
    && bytes[f] == '[' as int
    && (forall i :: f < i < |bytes| ==> !(0x40 <= bytes[i] <= 0x7e))
  }

  /** The scanner sits in a control sequence exactly when the bytes end in an
      unfinished one; an ESC inside does not restart it. */
  lemma CsiShape(bytes: seq<byte>)
    ensures Run(Ground, bytes) == Csi <==> exists e: nat, f: nat :: OpenCsi(bytes, e, f)
  {
    if Run(Ground, bytes) == Csi {
      var e, f := CsiOpens(bytes);
    }
    if e: nat, f: nat :| OpenCsi(bytes, e, f) {
      OpenCsiRuns(bytes, e, f);
    }
  }

  lemma {:induction false} CsiOpens(bytes: seq<byte>) returns (e: nat, f: nat)
    requires Run(Ground, bytes) == Csi
    ensures OpenCsi(bytes, e, f)
  {
    var shorter := bytes[..|bytes| - 1];
    if Run(Ground, shorter) == Csi {
      e, f := CsiOpens(shorter);
      assert bytes[..e] == shorter[..e];
    } else {
      e, f := OpenedAt(shorter), |shorter|;
      EscapeEndsInIntermediates(shorter);
      OpenedAtMeaning(shorter);
      assert bytes[..e] == shorter[..e];
    }
  }

  lemma {:induction false} OpenCsiRuns(bytes: seq<byte>, e: nat, f: nat)
    requires OpenCsi(bytes, e, f)
    ensures Run(Ground, bytes) == Csi
  {
    var shorter := bytes[..|bytes| - 1];
    assert shorter[..e] == bytes[..e];
    if f == |bytes| - 1 {
      IntermediatesKeepEscape(shorter, e);
    } else {
      OpenCsiRuns(shorter, e, f);
    }
  }

  /** In a string opened at `f`: an ESC, unless the byte before it is one. */
  predicate StringEsc(bytes: seq<byte>, f: nat, i: nat)
    requires i < |bytes|
  {
    i > f && bytes[i] == 0x1b && !StringEsc(bytes, f, i - 1)
  }

  /** The byte that ends it: a BEL, but not behind such an ESC, or a backslash
      behind one. */
  predicate StringEnd(bytes: seq<byte>, f: nat, i: nat)
    requires f < i < |bytes|
  {
    if StringEsc(bytes, f, i - 1) then bytes[i] == '\\' as int else bytes[i] == 0x07
  }

  /** From `e` the bytes are an ESC, intermediates, the introducer of a string (an
      operating system command, a device control string, a privacy message, an
      application program command, or a start of string) at `f`, and nothing that
      ends it. */
  predicate OpenString(bytes: seq<byte>, e: nat, f: nat) {
    && e < f < |bytes| && Run(Ground, bytes[..e]) == Ground && bytes[e] == 0x1b
    && (forall i :: e < i < f ==> 0x20 <= bytes[i] <= 0x2f)
    && (bytes[f] == ']' as int || bytes[f] == 'P' as int || bytes[f] == '^' as int || bytes[f] == '_' as int || bytes[f] == 'X' as int)
    && (forall i :: f < i < |bytes| ==> !StringEnd(bytes, f, i))
  }

  /** The scanner sits in a string exactly when the bytes end in an unfinished one,
      and half-way through its terminator exactly when they end in its ESC. */
  lemma StrShape(bytes: seq<byte>)
    ensures Run(Ground, bytes) in {Str, StrEscape} <==> exists e: nat, f: nat :: OpenString(bytes, e, f)
    ensures Run(Ground, bytes) == StrEscape <==>
      exists e: nat, f: nat :: OpenString(bytes, e, f) && StringEsc(bytes, f, |bytes| - 1)
    ensures Run(Ground, bytes) == Str <==>
      exists e: nat, f: nat :: OpenString(bytes, e, f) && !StringEsc(bytes, f, |bytes| - 1)
  {
    if Run(Ground, bytes) in {Str, StrEscape} {
      var e, f := StringOpens(bytes);
    }
    if e: nat, f: nat :| OpenString(bytes, e, f) {
      OpenStringRuns(bytes, e, f);
    }
    if e: nat, f: nat :| OpenString(bytes, e, f) && StringEsc(bytes, f, |bytes| - 1) {
      OpenStringRuns(bytes, e, f);
    }
    if e: nat, f: nat :| OpenString(bytes, e, f) && !StringEsc(bytes, f, |bytes| - 1) {
      OpenStringRuns(bytes, e, f);
    }
  }

  lemma {:induction false} StringEscPrefix(bytes: seq<byte>, f: nat, i: nat)
    requires i < |bytes| - 1
    ensures StringEsc(bytes[..|bytes| - 1], f, i) == StringEsc(bytes, f, i)
  {
    if i > f {
      StringEscPrefix(bytes, f, i - 1);
    }
  }

  /** One more byte of a string. */
  lemma OpenStringMore(bytes: seq<byte>, e: nat, f: nat)
    requires f < |bytes| - 1
    ensures OpenString(bytes, e, f) <==> OpenString(bytes[..|bytes| - 1], e, f) && !StringEnd(bytes, f, |bytes| - 1)
  {
    var shorter := bytes[..|bytes| - 1];
    assert e < f ==> shorter[..e] == bytes[..e];
    forall i | f < i < |shorter|
      ensures StringEnd(shorter, f, i) == StringEnd(bytes, f, i)
    {
      StringEscPrefix(bytes, f, i - 1);
    }
    if OpenString(shorter, e, f) && !StringEnd(bytes, f, |bytes| - 1) {
      forall i | f < i < |bytes|
        ensures !StringEnd(bytes, f, i)
      {
        if i < |shorter| {
          assert !StringEnd(shorter, f, i);
        }
      }
    }
    if OpenString(bytes, e, f) {
      forall i | f < i < |shorter|
        ensures !StringEnd(shorter, f, i)
      {
        assert !StringEnd(bytes, f, i);
      }
    }
  }

  lemma {:induction false} StringOpens(bytes: seq<byte>) returns (e: nat, f: nat)
    requires Run(Ground, bytes) in {Str, StrEscape}
    ensures OpenString(bytes, e, f)
    ensures Run(Ground, bytes) == StrEscape <==> StringEsc(bytes, f, |bytes| - 1)
  {
    var shorter := bytes[..|bytes| - 1];
    if Run(Ground, shorter) in {Str, StrEscape} {
      e, f := StringOpens(shorter);
      StringEscPrefix(bytes, f, |shorter| - 1);
      OpenStringMore(bytes, e, f);
    } else {
      e, f := OpenedAt(shorter), |shorter|;
      EscapeEndsInIntermediates(shorter);
      OpenedAtMeaning(shorter);
      assert bytes[..e] == shorter[..e];
    }
  }

  lemma {:induction false} OpenStringRuns(bytes: seq<byte>, e: nat, f: nat)
    requires OpenString(bytes, e, f)
    ensures Run(Ground, bytes) == if StringEsc(bytes, f, |bytes| - 1) then StrEscape else Str
  {
    var shorter := bytes[..|bytes| - 1];
    if f == |bytes| - 1 {
      assert shorter[..e] == bytes[..e];
      IntermediatesKeepEscape(shorter, e);
    } else {
      OpenStringMore(bytes, e, f);
      OpenStringRuns(shorter, e, f);
      StringEscPrefix(bytes, f, |shorter| - 1);
    }
  }

  /** No rune starts inside an unfinished escape. */
  predicate RunesAvoidEscapes(stream: seq<byte>) {
    forall i :: 0 <= i < |stream| && IsLead(stream[i]) ==> Run(Ground, stream[..i]) != Escape
  }

  /** Exactly when every cut, however much of the stream has arrived, leaves the
      scanner at ground. */
  lemma CutsReachGround(stream: seq<byte>)
    ensures RunesAvoidEscapes(stream) <==>
      forall k :: 0 <= k <= |stream| ==> Run(Ground, stream[..k][..CutOf(stream[..k])]) == Ground
  {
    if RunesAvoidEscapes(stream) {
      forall k | 0 <= k <= |stream|
        ensures Run(Ground, stream[..k][..CutOf(stream[..k])]) == Ground
      {
        CutReachesGround(stream, k);
      }
    } else {
      var i :| 0 <= i < |stream| && IsLead(stream[i]) && Run(Ground, stream[..i]) == Escape;
      LeadIsHeld(stream, i);
      assert stream[..i + 1][..i] == stream[..i];
    }
  }

  lemma CutReachesGround(stream: seq<byte>, k: nat)
    requires RunesAvoidEscapes(stream) && k <= |stream|
    ensures Run(Ground, stream[..k][..CutOf(stream[..k])]) == Ground
  {
    var bytes := stream[..k];
    var cut := CutOf(bytes);
    assert bytes[..cut] == stream[..cut];
    if Run(Ground, bytes) != Ground {
      CutBeforeSequence(bytes);
    } else if cut == k {
      assert bytes[..cut] == bytes;
    } else {
      CutBeforeRune(bytes);
      assert stream[cut] == bytes[cut];
    }
  }

  /** A lead byte that ends a ground or escaped prefix is held by itself. */
  lemma LeadIsHeld(stream: seq<byte>, i: nat)
    requires i < |stream| && IsLead(stream[i]) && Run(Ground, stream[..i]) in {Ground, Escape}
    ensures CutOf(stream[..i + 1]) == i
  {
    var bytes := stream[..i + 1];
    assert bytes[..i] == stream[..i];
    assert TornRune(bytes, 1);
  }

  /** "No ESC is directly followed by a lead byte" would not be enough: an
      intermediate may stand between them. */
  lemma DirectEscapeIsNotEnough()
    ensures var bytes: seq<byte> := [ESC, 0x28, 0xe2];
      && (forall i :: 0 <= i < |bytes| - 1 && bytes[i] == ESC ==> !IsLead(bytes[i + 1]))
      && CutOf(bytes) == 2
      && Run(Ground, bytes[..2]) == Escape
  {
    var bytes: seq<byte> := [ESC, 0x28, 0xe2];
    assert bytes[..1] == [ESC];
    assert bytes[..2] == [ESC, 0x28];
    assert bytes[..2][..1] == [ESC];
    assert Run(Ground, [ESC]) == Escape;
    assert Run(Ground, bytes[..2]) == Escape;
    LeadIsHeld(bytes, 2);
    assert bytes[..3] == bytes;
  }

  /** Runes start at ground or inside a sequence, never inside an escape, and
      nothing interrupts one that started at ground. */
  predicate Clean(stream: seq<byte>) {
    forall i :: 0 <= i < |stream| ==> CleanAt(stream, i)
  }

  predicate CleanAt(stream: seq<byte>, i: nat)
    requires i < |stream|
  {
    && (IsLead(stream[i]) ==> Run(Ground, stream[..i]) != Escape)
    && ((IsLead(stream[i]) || stream[i] == ESC) && Run(Ground, stream[..i]) == Ground
        ==> TornTail(stream[..i]) == 0)
  }

  lemma CleanPrefix(stream: seq<byte>, k: nat)
    requires Clean(stream) && k <= |stream|
    ensures Clean(stream[..k])
  {
    forall i | 0 <= i < k
      ensures CleanAt(stream[..k], i)
    {
      assert stream[..k][..i] == stream[..i];
      assert CleanAt(stream, i);
    }
  }

  lemma CleanCutIsWhole(stream: seq<byte>)
    requires Clean(stream)
    ensures Whole(stream[..CutOf(stream)])
  {
    var cut := CutOf(stream);
    if Run(Ground, stream) != Ground {
      CutBeforeSequence(stream);
      assert CleanAt(stream, cut);
    } else if cut == |stream| {
      assert stream[..cut] == stream;
    } else {
      CutBeforeRune(stream);
      assert CleanAt(stream, cut);
    }
  }

  /** Exactly the clean streams are cut between whole sequences and whole runes
      at every moment of their arrival; with `CutIsMaximal`, every cut of a clean
      stream is its longest whole prefix. */
  lemma CleanIffCutsAreWhole(stream: seq<byte>)
    ensures Clean(stream) <==>
      forall k :: 0 <= k <= |stream| ==> Whole(stream[..k][..CutOf(stream[..k])])
  {
    if Clean(stream) {
      forall k | 0 <= k <= |stream|
        ensures Whole(stream[..k][..CutOf(stream[..k])])
      {
        CleanPrefix(stream, k);
        CleanCutIsWhole(stream[..k]);
      }
    }
    if forall k :: 0 <= k <= |stream| ==> Whole(stream[..k][..CutOf(stream[..k])]) {
      forall i | 0 <= i < |stream|
        ensures CleanAt(stream, i)
      {
        assert stream[..i + 1][..i] == stream[..i];
        assert Whole(stream[..i + 1][..CutOf(stream[..i + 1])]);
        if IsLead(stream[i]) && Run(Ground, stream[..i]) in {Ground, Escape} {
          LeadIsHeld(stream, i);
        } else if stream[i] == ESC && Run(Ground, stream[..i]) == Ground {
          assert OpenedAt(stream[..i + 1]) == i;
        }
      }
    }
  }
}
