# Windrunner, modelled and verified

Windrunner keeps terminal sessions alive in a daemon. One goroutine per session reads the PTY, feeds a
terminal emulator and fans the output out to bounded subscriber queues; slow readers are dropped or handed
exact state; the terminal's size follows whichever attached viewer spoke last. This project models that core
and proves what it promises its readers.

`dafny verify dfyconfig.toml` checks everything.

## How it is laid out

| file | what it models |
|---|---|
| `Boundary.dfy` | where output may be cut: the scanner of `completeBoundary` and the look-back of `incompleteRuneTail` |
| `Reading.dfy` | the read loop: what is written, what is held back, and why the way reads fall does not matter |
| `Tracking.dfy`, `Replay.dfy`, `ModeChanges.dfy` | the shadowed terminal state: its parser, its printer, that the printer inverts the parser, and what each sequence does |
| `Seams.dfy`, `Controls.dfy` | which of the read loop's cuts the tracker survives, and that it reads the scanner's own sequences |
| `Terminal.dfy`, `Repainting.dfy` | the emulator, snapshots, messages and replicas, and what a repaint's bytes do to a parser that may be in the middle of something |
| `Protocol.dfy` | a session and its subscriptions as a state machine, one step per region run under a lock |
| `Effects.dfy` | what every step of the protocol does, field by field |
| `Delivery.dfy`, `Convergence.dfy`, `Moves.dfy`, `Guarantees.dfy` | what every step keeps, and what subscribers may count on over whole runs |
| `Streams.dfy`, `Shadows.dfy` | exactly which streams replicas survive, and that subscribers track the session's modes whatever the stream |
| `Geometry.dfy` | whose size statement wins, and that deferred settling gets the terminal there |
| `Ordering.dfy`, `Interruptions.dfy`, `InterruptedLoops.dfy` | that the loops over the subscriber map may run in any order, and what may go on beside them |
| `Session.dfy` | `Session` and `Subscription` as mutable objects; every method is proved to make a step of the protocol |
| `OutputLoop.dfy` | the goroutine that reads the PTY, turn by turn, with the session it writes to |
| `Activity.dfy` | when a session is reported busy or idle, and in what order that is heard |
| `Metadata.dfy` | the metadata bag, conditional writes and racing writers |
| `Events.dfy`, `FeedEffects.dfy`, `Engine.dfy` | the event feed, as a state machine, step by step, and as mutable objects |
| `Wire.dfy`, `Control.dfy`, `Pump.dfy` | frames, the request loop of a control connection, and the path of a message to a remote client |
| `Bytes.dfy`, `Sequences.dfy` | shared basics |

Three decisions shape the model.

* **Steps.** The protocol is a state machine whose steps are the regions the program runs under a lock, plus
  one receive by a consumer. What a consumer does *while* a flush serves its queue is a parameter of the flush,
  so evictions and pushes are proved to find room whatever is received in between. Runs are arbitrary lists of
  steps; a theorem about `Exec(Init(...), run)` is about every reachable state.
* **The emulator.** Its cells are not modelled. A screen is the record of what drew it, and the parser holds
  the bytes of the unit it is in the middle of. This is the freest deterministic emulator: replicas that are
  equal here are equal under any emulator that draws one whole unit at a time. A snapshot carries the screen
  but not what the parser holds, so it is exact only at ground, which is what ties the cutting of output to the
  correctness of replicas. A repaint is bytes like any other: four known sequences, then whatever the emulator renders,
  of which only that it is whole is known (`Terminal.Rendering`). If those four are drawn, the screen is cleared and
  what follows makes it the one painted; if not, the screen is what the bytes draw.
* **Objects.** `Session`, `Subscription`, `Engine`, `EventSubscription` and `TermState` are classes whose fields are
  those of the source. A ghost field holds the protocol's view of each object, and `Valid` ties the two. The
  constructors of `Session` and `Engine` establish their invariants and every method that is a whole step keeps them
  (`Safe`), ensuring that the ghost state has made exactly that step, so the theorems about runs are about
  these objects. A session's `TermState` object is kept in step with its terminal (`Tracked`).

## What was found

* `completeBoundary` is documented to end "on a whole-sequence, whole-rune boundary". That is not so for every
  stream: after `ESC ( 0xE2` the cut falls inside the escape, because the lead byte both ends the escape and
  begins a rune. Requiring that no ESC is directly followed by a lead byte does not help
  (`Boundary.DirectEscapeIsNotEnough`). `CutsReachGround` and `CleanIffCutsAreWhole` give the exact conditions.
  The cut is maximal for every input all the same (`CutIsMaximal`).
* The tracker and the read loop disagree about nested escapes: after `ESC ESC`, and after `ESC [ > ESC [`, nothing
  is held back but the mode change that follows is lost (`Seams.NestedEscLosesModes`). `SafeCutsExactly` and
  `SafeStreamsExactly` say exactly which of the read loop's cuts, and which streams, are harmless.
* The documentation of `Engine.Subscribe` says a session's spawned event precedes every other event about it. A
  removal that lands between registration and announcement is published first (`Events.RemovedCanComeFirst`).
  `RemovedFollowsSpawned` gives the exact condition at the call of `Remove`: the spawn must have announced the session,
  as it has before it returns. The promise does hold for idle, busy and exited events.
* `describe` reads the metadata bag before its revision, and a client that loses a race rebuilds its write from that
  description. Such a writer can undo a write it never saw (`Metadata.BagFirstLosesAnUpdate`). An edit is safe exactly
  if no write is accepted between the two reads it rests on, in whatever order they are made (`SafeEdits`), and a run
  loses nothing exactly if that holds of every edit in it (`UndisturbedIsUpToDate`).
* A repaint draws what it is made of exactly if it finds the parser at ground (`Repainting.RepaintDrawsItself`). After a
  torn rune, an escape or a control sequence its first sequence is spoiled and the others are not (`HeadDraws`); inside a
  string all of it vanishes unless something in it ends the string (`SwallowedExactly`). So a resize that lands between
  the flush of a torn remnant and the last call spoils the replica of a viewer that is owed nothing, save in that last
  case, and the ending does not repair it (`Guarantees.ResizedBeforeTheEnd`, `TornRemnantIsReachable`). A viewer in debt
  ends up right on every run (`LastWordForDebtors`).
* "The first event is always an idle" holds of what a session decides to report, and not of what is heard: reports are
  published without the lock, so that output can overtake the idle report before it, and a listener is left with the wrong
  idea (`Activity.BusyCanComeFirst`). `HeardAlternates` says exactly when what is heard alternates.
* `ReadFrame` reports a stream that ends right after a header as a clean close (`Wire.CleanCloseOrBareHeader`).

## Model

| member | source | states |
|---|---|---|
| `Boundary.CompleteBoundary` | session.go:342-397 | The one-pass loop finds the cut: where the unfinished sequence began, or else the end less an unfinished rune |
| `Boundary.IncompleteRuneTail` | session.go:399-426 | The look-back finds the torn rune the chunk ends in, in at most three steps |
| `Boundary.TornTailMeaning` | session.go:399-426 | Three bytes of look-back find every rune that can be torn, and it is the only one |
| `Boundary.TornTailInBytes` | session.go:399-426 | The bytes end in a torn rune of one to three bytes exactly if those are a first byte 0xc0-0xdf, 0xe0-0xef or 0xf0-0xf7 that announces more, and bytes 0x80 to 0xbf |
| `Boundary.RestartAtCut` | session.go:298-312 | For any bytes, scanning only what an earlier cut held back plus what follows finds the cut of the whole stream |
| `Boundary.CutCoversHeld` | session.go:298-312 | A later cut lets go of all that was held or of nothing |
| `Boundary.CutIsMaximal` | session.go:338-341 | For any bytes, no prefix longer than the cut is both at ground and free of a torn rune |
| `Boundary.EscapeShape` | session.go:356-371 | The scanner sits in an escape exactly when the bytes end in an ESC at ground followed by bytes 0x20 to 0x2f only |
| `Boundary.CsiShape` | session.go:357-375 | The scanner sits in a control sequence exactly when the bytes end in an ESC at ground, intermediates, a bracket, and no byte 0x40 to 0x7e |
| `Boundary.StrShape` | session.go:362-387 | The scanner sits in a string exactly when the bytes end in an ESC at ground, intermediates, one of ] P ^ _ X, and neither a BEL nor a backslash behind an ESC of the string's that ends it; and half-way through the terminator exactly when they end in such an ESC |
| `Boundary.CutMeaning` | session.go:388-397 | If a sequence is unfinished the cut is the one place where it began, and otherwise it is the end less a torn rune |
| `Boundary.CutsReachGround` | session.go:338-397 | Every cut of an arriving stream leaves the scanner at ground exactly if no rune starts inside an unfinished escape |
| `Boundary.DirectEscapeIsNotEnough` | session.go:364-371 | A stream in which no lead byte directly follows an ESC, and whose cut still falls inside an escape |
| `Boundary.CleanIffCutsAreWhole` | session.go:338-397 | Exactly the clean streams are cut between whole sequences and whole runes at every moment of their arrival |
| `Reading.ReadLoop` | session.go:296-331 | The loop writes the chunks the specification says and flushes the remnant at the end |
| `Reading.OneRead` | session.go:298-312 | A read lets go of what is whole; of everything if that is nothing and more than 64 KiB wait; and otherwise of nothing |
| `Reading.BothEnds` | session.go:297-316 | Nothing is held before the first read, and what is held after the last is written as one chunk |
| `Reading.NothingIsLost` | session.go:298-312 | For all reads, the bytes written followed by the bytes held are the bytes read |
| `Reading.EverythingIsWritten` | session.go:313-316 | At the end of the stream everything read has been written, in order |
| `Reading.HoldbackIsBounded` | session.go:298-336 | For all reads of at most 32 KiB, at most 64 KiB are held and no write exceeds 96 KiB |
| `Reading.ReadsMatchOneScan` | session.go:298-312 | Unless an overgrown tail was flushed, what is out and what is held are the one-shot split of the whole stream |
| `Reading.ChunkIndependence` | session.go:298-312 | Two ways of splitting a stream into reads write the same bytes and hold the same tail |
| `Reading.OverflowDependsOnStream` | session.go:301-306 | No way of reading a stream overflows exactly if no moment of its arrival leaves more than 64 KiB waiting |
| `Reading.CleanWritesAreWhole` | session.go:268-277 | Every write of a clean stream, not only the last, leaves nothing waiting |
| `Tracking.TermState.Observe` | termstate.go:28-45 | The look-ahead scan of a chunk leaves the state the byte-at-a-time machine reaches |
| `Tracking.TermState.ObserveCsi` | termstate.go:49-79 | Reads one control sequence and reports how much it used, so that the machine continues from there |
| `Tracking.TermState.Apply` | termstate.go:81-120 | Soft reset, margins and private modes, parameter by parameter |
| `Tracking.TermState.Resize` | termstate.go:123-126 | A resize drops both kinds of margins and keeps every mode |
| `Tracking.TermState.Replay` | termstate.go:131-159 | Prints the sequences that restore the state, in the order the reader needs |
| `ModeChanges.DisplaySwitches` | termstate.go:104-109 | ESC [ ? 6, 7 and 25 h and l set and clear origin mode, wrapping and the cursor, and nothing else |
| `ModeChanges.ScreenSwitches` | termstate.go:110-111 | ESC [ ? 47, 1047 and 1049 h enter the alternate screen, and l leaves it |
| `ModeChanges.ColumnSwitches` | termstate.go:112-116 | ESC [ ? 69 h allows column margins, and l forbids and drops them |
| `ModeChanges.OtherSwitches` | termstate.go:101-118 | Any other private mode changes nothing |
| `ModeChanges.SwitchesActInOrder` | termstate.go:101-118 | Several modes in one sequence act one after another |
| `ModeChanges.Resets` | termstate.go:37-39 | ESC c and ESC [ ! p leave a blank state |
| `ModeChanges.MarginSwitches` | termstate.go:90-99 | r sets the row margins, and s the column margins where they are allowed, to the first two parameters if those are positive and increasing, and to none otherwise |
| `ModeChanges.NothingElseMatters` | termstate.go:81-120 | Whatever a control sequence holds, it changes nothing unless it is a soft reset, margins, or a private switch |
| `ModeChanges.OtherEscapes` | termstate.go:28-45 | Text changes nothing, and neither do other escapes |
| `ModeChanges.DigitsWrap` | termstate.go:59-61 | Numbers are read digit by digit in 64 bits |
| `ModeChanges.HistoryGoesOn` | termstate.go:123-126 | A history starts blank, goes on chunk by chunk, and a resize drops the four margins and nothing else |
| `Replay.ReachableIsSound` | termstate.go:28-126 | After any run of chunks and resizes, margins are absent or increasing and column margins need DECLRMM |
| `Replay.NumberRoundTrip` | termstate.go:59-63 | Every printed number reparses to itself, whatever its size, without wrapping on the way |
| `Replay.ReplayRoundTrip` | termstate.go:131-159 | Observing the alternate-screen switch and the replay from the zero state restores any reachable state exactly |
| `Replay.SnapshotCarriesModes` | session.go:862-896 | A snapshot, scrollback lines first, seeds a blank terminal with the tracked state, whatever lines and cells are painted in between |
| `Replay.RepaintKeepsModes` | session.go:738-759 | A repaint broadcast into the stream leaves a reader's modes as they were, even painting through margins |
| `ModeChanges.SnapshotInOrder` | session.go:862-896 | The cells of a snapshot are painted on a blank terminal showing the right screen; the modes come after them, and attributes off and the cursor address last |
| `ModeChanges.RepaintInOrder` | session.go:738-759 | The cells of a repaint are painted with attributes off, no row margins and the screen cleared; the modes and the cursor come after them |
| `ModeChanges.ReplayOrder` | termstate.go:131-159 | Wrapping and the cursor are restored first and in any case, and origin mode last |
| `Seams.CutIsInvisible` | session.go:287-312 | Absent nested escapes, a cut does not change what the tracker makes of the stream |
| `Seams.SafeCutsExactly` | session.go:287-312 | The seam a cut of the read loop makes is harmless, for every state and continuation, exactly if the tracker is after the whole stream where what is held alone would take it |
| `Seams.SafeStreamsExactly` | session.go:287-312 | The streams whose every possible cut is harmless are exactly those where that holds at every moment of arrival |
| `Seams.NoNestedEscIsSafe` | termstate.go:28-45 | Streams in which no ESC arrives inside an escape or control sequence are among them |
| `Seams.NestedEscCanBeSafe` | termstate.go:28-45 | So are some others |
| `Seams.SeamIndependence` | termstate.go:28-79 | For every stream whose cuts are safe, absent overflow, the tracked state does not depend on how the reads fell |
| `Controls.UnitsAreSequences` | session.go:342-397 | What the scanner delimits are whole sequences, each by itself |
| `Controls.ObservedIsFolded` | termstate.go:28-120 | For streams without nested escapes, observing applies exactly the scanner's sequences, each read from its bytes, one after another |
| `Seams.SafeSeams` | termstate.go:28-45 | A seam is harmless for every state and continuation exactly if the tracker is in the middle of nothing there |
| `Seams.NestedEscLosesModes` | termstate.go:32-44 | Two streams at whose cut the tracker loses the mode change that follows |
| `Terminal.GroundIffWhole` | session.go:268-277 | A terminal at ground stays there exactly if the bytes fed to it are whole |
| `Delivery.InvAlways` | session.go:1052-1161 | In every reachable state: bounded queues, single endings, no gap in plain streams, no debt without a retry |
| `Effects.WriteEffect` | session.go:281-295 | A write feeds tracker and emulator and reaches everyone listed and nobody else: queued if there is room, or else a drop, with the statement withdrawn, or a debt, with one retry coming |
| `Effects.AttachEffect` | session.go:935-964 | An attach lists an open newcomer exactly if the session lives, and only then may it state a size, which is applied before the state handed back is taken; otherwise it hands out a finished subscription and changes nothing |
| `Effects.LateAttachIsDone` | session.go:943-948 | Over all runs, whoever attaches after the exit or the close is done from the start and is never listed nor sent anything |
| `Effects.SetBaseEffect` | session.go:626-635 | The base's statement is stamped, recorded, and moves the terminal, with a repaint of that size, unless it is there or refused |
| `Effects.SetViewEffect` | session.go:646-658 | The same of a listed viewer's; nothing happens for one not listed |
| `Effects.SettleEffect` | session.go:725-733 | A settle moves the terminal to the greatest stamp's size while the session lives, and does nothing once it has exited or closed |
| `Effects.BaseGetsItsSize` | session.go:626-635 | After an accepted resize the terminal has that size, and the base the greatest stamp |
| `Effects.ViewerGetsItsSize` | session.go:646-658 | The same of a listed viewer, unless its own repaint drops it; a refusal leaves the terminal alone |
| `Effects.NewcomerGetsItsSize` | session.go:949-964 | The same of an attach, whose newcomer is never dropped by it |
| `Effects.RetryEffect` | session.go:844-852 | A retry pays whom there is room for and comes back if that is not everyone; on a closed session it does nothing |
| `Effects.EndStreamEffect` | session.go:317-329 | Everyone owed is paid, at the cost of the oldest message still queued if need be, and whoever is listed is finished and delisted |
| `Effects.CloseEffect` | session.go:991-1006 | Once: everyone owed is paid, the listed are taken off the list unfinished, and a held retry is dropped |
| `Effects.ReceiveEffect` | session.go:1069-1072 | A consumer takes the oldest message |
| `Effects.CloseSubEffect` | session.go:1086-1099 | Closing ends the stream once, clears the debt and takes the retirement |
| `Effects.RetireEffect` | session.go:716-723 | A retirement delists and withdraws the statement, leaving a settle if there was one |
| `Effects.FinishOrphanEffect` | session.go:1153-1161 | Finishing ends the stream once and clears the debt |
| `Effects.RunsGoOn` | session.go:193-211 | Where runs start, and that each enabled step is taken |
| `Moves.StepMove` | session.go:1086-1161 | Every step, seen from one subscription, is one of nine moves, and only a broadcast sends output |
| `Convergence.FlushedReplica` | session.go:799-825 | Serving a debt restores the replica whatever was dropped, evicted or received meanwhile; others are untouched |
| `Convergence.RunConverges` | session.go:1105-1150 | Along any run with the parser at ground, every listed subscriber owed nothing has been sent the terminal |
| `Guarantees.ParserFollowsWrites` | session.go:281-295 | In every reachable state the parser is at ground exactly if the chunks written so far are whole |
| `Guarantees.CleanStreamsStayGrounded` | session.go:268-277 | However a clean stream is read, the parser is at ground whenever the lock is free |
| `Guarantees.ReplicaConvergence` | session.go:1105-1150 | For any clean stream, any reads without overflow and any run of everything else, listed subscribers owed nothing have been sent the session's terminal |
| `Streams.ConvergenceDependsOnStream` | session.go:268-312 | Every reading of a stream converges in every run exactly if the stream is clean and never leaves more than 64 KiB waiting |
| `Shadows.SubscribersTrackTheSession` | session.go:862-896 | In every reachable state of every run, a listed subscriber owed nothing that runs the tracker over the bytes it was sent tracks the session's modes |
| `Guarantees.StepIsQuiet` | session.go:1116-1150 | Nothing is sent on an ended stream, and a subscriber in debt is sent nothing until a resync that carries the state |
| `Guarantees.DelistedIsFinal` | session.go:1153-1161 | Once delisted, a subscription is never sent anything more |
| `Guarantees.LastWordForDebtors` | session.go:317-327 | On every run whatsoever, a subscriber owed state when the stream ends or the session closes, and that drains its channel, shows what the session showed |
| `Repainting.RepaintDrawsItself` | session.go:738-745 | From whatever bytes a parser holds and whatever follows the head, a repaint draws the units it is made of exactly if the parser holds nothing |
| `Repainting.HeadDraws` | session.go:742 | Outside a string, only the first of the head's sequences is spoiled, and how |
| `Repainting.SwallowedExactly` | session.go:738-759 | A repaint draws nothing at all exactly if the parser is inside a string that nothing after the head ends |
| `Repainting.DrawingDivides` | session.go:268-277 | The units drawn and the bytes held make up the stream, and each unit ends at its first chance |
| `Terminal.FedDraws` | session.go:288 | A terminal's screen is the record of the units drawn, and its parser holds the rest |
| `Terminal.PaintedOffGround` | session.go:738-759 | Painting on a parser in the middle of something leaves the screen alone exactly if the repaint is swallowed, and then the parser holds it |
| `Guarantees.RepaintNeedsGround` | session.go:690-706 | A replica in step stays in step exactly if the repaint meets it at ground, and shows what the terminal shows exactly if it does or the repaint is swallowed |
| `Guarantees.ResizedBeforeTheEnd` | session.go:313-327 | After a resize just before the end, a replica owed nothing shows the last state exactly if the resize met the parser at ground or in a string that swallows the repaint |
| `Guarantees.TornRemnantIsReachable` | session.go:313-316 | A run in which such a replica meets a parser off ground and in no string |
| `Guarantees.LastWord` | session.go:317-327 | For everyone: after a run grounded up to a last torn remnant and anything that broadcasts nothing, whoever is listed at the end and drains its channel shows what the session showed |
| `Guarantees.LastWordExact` | session.go:997-1015 | With the parser at ground, the match includes what later bytes could tell apart |
| `Guarantees.EverySubscription` | session.go:1086-1161 | Queues are bounded, channels close once, retirements run at most once and exactly once after a close or a drop |
| `Guarantees.PlainStreamsHaveNoGap` | session.go:1129-1143 | A subscriber that did not ask to resync gets a contiguous run of the broadcasts since its attach |
| `Guarantees.NoStrandedDebt` | session.go:831-853 | While somebody listed is owed state a retry is armed, and there is never more than one |
| `Guarantees.RetryStopsWhenPaid` | session.go:783-829 | A retry re-arms itself exactly if it leaves somebody owed |
| `Guarantees.ClosingClearsDebt` | session.go:1086-1098 | Closing a subscription in debt clears the debt and touches nobody else |
| `Geometry.NewestIsLastStanding` | session.go:660-674 | Whatever order the views are looked at in, the greatest stamp names the last statement whose owner has not retired |
| `Geometry.EffectiveIgnoresTheRetired` | session.go:95-109 | The resolved size is the last word of everyone who has not retired, the base never retiring |
| `Geometry.GeoAlways` | session.go:95-109 | In every reachable state each view is its owner's last statement, and exactly the unretired speakers have one |
| `Geometry.NewestStatementWins` | session.go:660-674 | In every reachable state the newest stamp agrees with the history less the retired, and until the end every view's owner is listed |
| `Geometry.BroadcastSettles` | session.go:710-723 | Every statement a broadcast withdraws leaves exactly one settle behind |
| `Geometry.AlwaysSettling` | session.go:676-733 | While the session lives and the PTY accepts sizes, the terminal fits the statements or a settle is pending |
| `Geometry.SettlesAreBounded` | session.go:710-733 | Without new statements, settles plus views bound the settles still to come, whatever else happens |
| `Geometry.SettlesEndFitted` | session.go:725-733 | Run to the end, the settles leave the terminal at the resolved size, even if their repaints drop viewers |
| `Ordering.OrderDoesNotMatter` | session.go:289-291 | Served one at a time in any order, the listed subscribers end up as one atomic broadcast leaves them |
| `Interruptions.InterruptedBroadcast` | session.go:1086-1098 | A broadcast interrupted anywhere by receives and closes is the broadcast whole, after those of subscribers not reached and before the rest |
| `Interruptions.TouchIsAStep` | session.go:1086-1098 | What falls beside the loops are the protocol's own receives and closes |
| `Interruptions.EveryTurnCounts` | session.go:1086-1098 | Every turn of a loop, and every step beside it, is accounted for before or after |
| `InterruptedLoops.TurnsSort` | session.go:799-825 | The same of any loop whose turns change one subscription each |
| `InterruptedLoops.InterruptedFlush` | session.go:783-829 | A flush interrupted anywhere is the flush whole, between the steps of subscriptions not reached and the rest, retry included |
| `InterruptedLoops.InterruptedEnding` | session.go:317-327 | An ending, whose flush and whose finishing are interrupted anywhere, is the ending whole, between those steps |
| `InterruptedLoops.InterruptedClose` | session.go:991-1006 | The same of closing the session |
| `Session.Subscription.Deliver` | session.go:1116-1150 | Never waits: a full queue drops the subscriber or puts it in debt, with the retirement or retry that entails |
| `Session.Subscription.Flush` | session.go:799-825 | Serves a debt with room always found, whatever the consumer receives between check, eviction and push |
| `Session.Subscription.Finish` | session.go:1153-1161 | Ends the stream once |
| `Session.Subscription.Close` | session.go:1086-1103 | Ends the stream once and hands the retirement over at most once |
| `Session.Session.constructor` | session.go:193-211 | A session starts with the base's statement and nobody attached |
| `Session.Session.BroadcastLocked` | session.go:289-291 | The loop over the subscriber map, in any order and with delivery deleting from it, makes the atomic broadcast |
| `Session.Session.WriteChunk` | session.go:281-295 | One write: tracker, emulator, every listed subscriber, and whether to announce that the session turned busy |
| `Session.Session.WriteRemnant` | session.go:313-316 | The same for what an ended stream left unfinished |
| `Session.Session.GoIdle` | session.go:493-502 | An idle timeout keeps the reports alternating and telling of a live session whether it is busy; its result says whether there is one more |
| `Activity.ReportsAlternate` | engine.go:33-38 | Over every run of output, idle timeouts, exits and closes, the reports decided alternate, starting with an idle one, and the last tells whether a live session is busy |
| `Activity.WhenReported` | session.go:281-295 | Output is reported exactly if the session was idle and has not exited, and a quiet spell exactly if it was busy, has not exited and is not closed |
| `Activity.HeardAlternates` | session.go:281-295 | What is heard, in whatever order it is published, alternates exactly if nothing took the place of a report of the other kind |
| `Activity.ListenersKnow` | engine.go:33-38 | Whoever has heard all reports in the order decided knows whether a live session is busy |
| `Activity.ExitIsTheLastWord` | session.go:488-502 | After the exit nothing more is reported, whatever is still drained or times out |
| `Activity.BusyCanComeFirst` | session.go:493-502 | A run in which busy is heard first and idle last of a session that is busy |
| `OutputLoop.ReadLoop.Turn` | session.go:296-312 | One read: what the session has been written and what is held are those of the reads so far |
| `OutputLoop.ReadLoop.End` | session.go:313-329 | At the end of the input the session has been written everything read, and its stream has ended |
| `OutputLoop.OthersLeaveTheTape` | session.go:278-332 | Nothing else a session does comes between the loop and what it has written |
| `Session.Session.EffectiveLocked` | session.go:665-674 | The loop over the views, in any order, finds the last standing statement of the history |
| `Session.Session.ApplySizeLocked` | session.go:678-708 | Moves tracker and terminal and broadcasts the repaint, unless it is there already; a refusal by the PTY changes nothing and is reported |
| `Session.Session.Resize` | session.go:626-635 | A legal size is the base's, under the greatest stamp, and the terminal's if the PTY takes it; too small a size, or a refused one, is an error |
| `Session.Session.ResizeViewer` | session.go:646-658 | A listed viewer's legal size is recorded under the greatest stamp, unless its own repaint drops it, and is the terminal's if the PTY takes it; anything else changes nothing |
| `Session.Session.RetireViewerLocked` | session.go:716-723 | Delists a viewer and withdraws its statement, leaving a settle if it had one |
| `Session.Session.SettleSize` | session.go:726-733 | Follows the newest statement while the session lives |
| `Session.Session.ArmResyncRetryLocked` | session.go:840-853 | At most one retry at a time, none once closed |
| `Session.Session.FlushResyncsLocked` | session.go:783-829 | The loop over the subscriber map hands one snapshot to everyone owed and re-arms the retry if someone still is |
| `Session.Session.RetryFires` | session.go:844-852 | A fired retry frees the slot and flushes unless the session closed |
| `Session.Session.AttachWith` | session.go:935-964 | After exit or close: a finished subscription, not listed, nothing stated, nothing moved. Otherwise a listed, open one; a legal size is recorded under the greatest stamp and is the terminal's if the PTY takes it; the state handed back is the terminal's after that |
| `Session.Session.ReceiveFrom` | session.go:1069-1072 | The consumer takes the oldest queued message, without a lock |
| `Session.Session.CloseSubscription` | session.go:1086-1099 | The half of a close under the subscription's lock |
| `Session.Session.RetireViewer` | session.go:968-972 | The half of a close under the session's lock |
| `Session.Session.FinishOrphan` | session.go:1013-1015 | A subscription that a close took off the list is finished |
| `Session.Session.EndStream` | session.go:313-329 | Forced flush, everyone finished, nobody listed |
| `Session.Session.Close` | session.go:991-1015 | Forced flush, everyone delisted for finishing, the retry dropped; a second close does nothing |
| `Metadata.SessionMetadata.SetMetadata` | session.go:533-539 | Replaces the bag under the next revision |
| `Metadata.SessionMetadata.SetMetadataIf` | session.go:553-562 | Writes exactly if the revision is the expected one; a refusal changes nothing and reports the revision in force |
| `Metadata.SessionMetadata.HandleSetMetadata` | server/server.go:220-239 | A conflict is reported exactly for a stale condition; the answer pairs a bag in force after the decision with the revision read later, whatever others write in between |
| `Metadata.EveryBagIsDerived` | session.go:541-562 | Over all interleavings, in whatever order writers read, the bag is what the accepted writes make it, each edit applied to the bag its writer read, and the revision counts them |
| `Metadata.WritersAct` | session.go:553-562 | An attempt goes through exactly if the revision it noted is in force, and is over in any case |
| `Metadata.UndisturbedIsUpToDate` | session.go:541-562 | Every accepted edit of a run replaced what it was derived from exactly if no write was accepted between the two reads of one that landed |
| `Metadata.UndisturbedIsSerial` | session.go:541-562 | In those runs the bag is the accepted writes applied one after another |
| `Metadata.NoLostUpdate` | session.go:541-562 | Over all interleavings of writers that read the revision first, that is so; a landing write was derived from the bag it replaced, a refused one changes nothing |
| `Metadata.EveryBumpCounts` | engine_test.go:1004-1030 | If every accepted write bumps a counter once, the counter shows how many there were |
| `Metadata.RevisionNamesOneBag` | session.go:519-528 | The revision never falls, and while it stands so does the bag |
| `Metadata.SafeEdits` | server/server.go:281-282 | A landing edit was derived from the bag of a known revision, which is the one it replaces exactly if no write was accepted between its writer's two reads, whichever came first |
| `Metadata.StaleEditsUndo` | server/server.go:281-282 | Otherwise the edit of the old bag goes in force, as if nothing had been accepted since |
| `Metadata.BagFirstLosesAnUpdate` | client/client.go:210-229 | A run in which a writer that reads the bag first undoes a write it never saw |
| `Events.AlwaysOk` | engine.go:53-126 | In every reachable state: gap-free feeds, reports after announcements, nobody listed once closed |
| `FeedEffects.SpawnEffect` | engine.go:86-126 | What each region of a spawn does: nothing is registered nor announced on an engine that has closed |
| `FeedEffects.NewsEffect` | engine.go:73-82 | What is said of a session goes to every listed feed with room, drops those without, and is said by an open engine only |
| `FeedEffects.FeedEffect` | engine.go:58-71 | A feed comes open and listed, or finished on a closed engine; closing the engine delists everyone |
| `FeedEffects.LaggedMeansDropped` | engine.go:219-233 | A feed is marked lagged exactly by a publication that finds it listed and full, which ends and delists it |
| `FeedEffects.RunsGoOn` | engine.go:22-27 | Where runs start, and that each enabled step is taken |
| `Events.ReportsFollowSpawned` | engine.go:99-126 | No idle, busy or exited event is published before the session's spawned event |
| `Events.FeedsHaveNoGap` | engine.go:216-243 | A feed is a gap-free run of the events since it subscribed, all of them while listed; its channel closes once |
| `Events.ReadersHearSpawnedFirst` | engine.go:53-57 | A reader hears of a session before reports of it, unless it was announced before the reader subscribed |
| `Events.AlwaysRegistry` | engine.go:111-161 | In every reachable state a session is registered once, leaves once and is announced as removed at most once |
| `Events.RemovedFollowsSpawned` | engine.go:118-121 | At the call of a removal: however the program goes on, removed comes after spawned, exactly if the spawn has announced the session already |
| `Events.RemovedCanComeFirst` | engine.go:118-121 | A run in which the removed event precedes the spawned one |
| `Engine.EventSubscription.Deliver` | engine.go:219-233 | Never waits: with room the event is queued; without, the reader is marked lagged, ended and delisted |
| `Engine.EventSubscription.Finish` | engine.go:236-243 | Ends the feed once |
| `Engine.Engine.Subscribe` | engine.go:58-71 | Lists a new feed, or hands back a finished one once closed |
| `Engine.Engine.PublishEvent` | engine.go:73-82 | The loop over the readers, in any order and with delivery deleting from it, makes the atomic publication |
| `Engine.Engine.Register` | engine.go:111-119 | A spawn enters the registry unless the engine closed meanwhile |
| `Engine.Engine.Unregister` | engine.go:153-157 | Deletes the session and says whether it was there, so that it is announced as removed once |
| `Engine.Engine.Close` | engine.go:165-182 | Refuses everything from then on and delists every feed for finishing |
| `Engine.Engine.LeaveFeed` | engine.go:209-212 | Closing a feed delists it under the engine's lock |
| `Engine.Engine.FinishFeed` | engine.go:213-214 | And ends it once under its own |
| `Engine.Engine.Announce` | engine.go:120 | The spawned event goes out once the session is registered |
| `Engine.Engine.Speak` | engine.go:102-105 | Idle and busy events go out past the gate only |
| `Engine.Engine.SayExited` | engine.go:122-125 | The exited event goes out after the gate has opened |
| `Engine.Engine.SayRemoved` | engine.go:157-160 | A removal is announced once the session has left the registry |
| `Wire.LengthRoundTrip` | wire/wire.go:195-196 | Four big-endian bytes read back as the length they were made of |
| `Wire.FrameBytes` | wire/wire.go:189-201 | A frame is its type, four bytes of length, most significant first, and a payload of up to 32 MiB |
| `Wire.FirstInBytes` | wire/wire.go:213-227 | How reading a frame ends, for any bytes |
| `Wire.FrameRoundTrip` | wire/wire.go:189-227 | A frame reads back as itself whatever follows, and the reader is left on what follows |
| `Wire.StreamRoundTrip` | wire/wire.go:189-227 | Reading a list of written frames gives back exactly the list, then a clean end |
| `Wire.StreamsDiffer` | wire/wire.go:189-227 | Different lists of frames are different on the wire |
| `Wire.TruncatedStream` | wire/wire.go:213-227 | A stream cut anywhere yields exactly its complete frames, then fails as an ended stream |
| `Wire.CleanCloseOrBareHeader` | wire/wire.go:213-227 | Reading reports a clean end exactly at the end of the input or right after a bare header |
| `Wire.Writer.WriteFrame` | wire/wire.go:189-201 | Writes header and payload as far as the connection takes them, or refuses an oversize frame before writing any of it |
| `Wire.Reader.ReadFrame` | wire/wire.go:213-227 | For any input, returns the first frame of what is left, or how reading it fails, and moves past what it used |
| `Control.ServeConn` | server/server.go:58-112 | Over a connection that takes it all: each request is carried out on what the one before left, what reads back is one response each, in order, and then an error for a frame that is out of place or cannot be read |
| `Control.ServedInOrder` | server/server.go:58-112 | The same of what the loop serves and says, for any frames |
| `Control.WroteWhatWasServed` | server/server.go:58-112 | What is on the wire is what the loop had to say as far as it got, and the engine has served the requests up to there |
| `Control.RefusalsCostNothingElse` | server/server.go:66-88 | One response per request; refused requests leave the engine and every other response as if never sent |
| `Control.ConnectionSurvivesRefusals` | server/server.go:66-88 | On the wire, a client reads back one response per request even if some were refused |
| `Pump.PumpOutput` | server/server.go:390-424 | The pump sends the frames of the messages, up to the point where the connection breaks |
| `Pump.WhatServersSend` | server/server.go:393-424 | Each message goes out as one frame of its kind, and a repaint as two, its size first |
| `Pump.ReadMessages` | client/client.go:467-508 | The client's loop yields the messages of the frames, ending at a snapshot it cannot decode |
| `Pump.WhatClientsMakeOf` | client/client.go:467-508 | Each frame yields one message; an exit notice or a senseless frame yields none, and a snapshot that does not decode ends the stream |
| `Pump.PumpKeepsMeaning` | server/server.go:393-424 | For all messages, the replica built from the client's messages is the one built from the engine's |
| `Pump.ExitIsSilent` | server/server.go:419-423 | The exit notice adds nothing to the terminal stream |
| `Pump.BrokenPump` | client/client.go:334-342 | A connection that breaks anywhere leaves the replica after some prefix of the messages, or that plus one resize |
| `Pump.RemoteConvergence` | client/client.go:475-497 | End to end: a remote client of a drained subscription owed nothing shows the session's terminal |
| `Pump.RemoteLastWord` | client/client.go:475-497 | A remote client that has applied every frame of a drained, ended subscription, exit notice included, shows the last state, after any run grounded up to a last torn remnant |
| `Pump.RemoteLastWordForDebtors` | client/client.go:475-497 | One that was owed state does so on every run |

## Left out

- Terminal.Shown: the emulator's cells, SGR rendering and scrollback text are not modelled. The emulator's parser is taken to be the scanner of `completeBoundary` with its look-back; where a real one would treat a broken sequence differently, so would its replicas.
- Replay.SnapshotCarriesModes: rendered lines and cells are any bytes the tracker passes over; that rendering only produces such bytes is not part of this model, nor is where the cursor is parked under DECOM. `Shadows` says the same of its renderer.
- Session.Session.ApplySizeLocked: whether the PTY takes a size is a parameter; its narrowing to 16 bits is not modelled.
- Session.Session.BroadcastLocked: runs without interruption; that receives and closes beside it come to the same as before or after it is proved of the protocol (`Interruptions.InterruptedBroadcast`).
- Session.Session.FlushResyncsLocked: the same, as are EndStream and Close; see `InterruptedLoops`.
- Session.Session.Close: stopping timers, killing the child and closing the PTY and the emulator's pipe are not modelled; whether a held retry was stopped in time is a parameter.
- Metadata.NoLostUpdate: revisions and view stamps are unbounded naturals; the 64-bit counters of the source could wrap.
- Events.ReportsFollowSpawned: session IDs are taken to be distinct; how they are drawn is not modelled.
- Control.ServeConn: decoding and carrying out a request are parameters; what happens on a connection handed to an attachment or a subscription is not part of it.
- Pump.PumpOutput: frames are kept as what they decode to; JSON, deadlines and the input half of the attach connection are not modelled, and the exit code channel is not either.
- Idle and busy timing: when the idle timer fires is up to the run.
- PTY and process handling, exit codes, query responses, environment assembly, listing and kill: I/O or plain list facts.
- Any relation between the process exiting and the end of the stream: the source sets the two independently.
- `EventStream.readLoop`, `EnsureDaemon`, `Interactive`, auditing and the command line: plumbing around the parts modelled here.
