/** When a session is said to be busy or idle (session.go): the reports it decides
    on under its lock, and the order they are published in, after the lock is
    gone. */
module Activity {
  datatype Report = Idle | Busy

  /** What decides reports, and the reports decided so far. */
  datatype Desk = Desk(busy: bool, exited: bool, closed: bool, decided: seq<Report>)

  datatype Happening =
    | Output       // a write of the read loop
    | Quiet        // the idle timer fires
    | Exit
    | Close

  function Opened(): Desk {
    Desk(true, false, false, [])
  }

  function Happened(d: Desk, h: Happening): Desk {
    match h
    case Output => if d.busy || d.exited then d.(busy := true) else d.(busy := true, decided := d.decided + [Busy])
    case Quiet => if d.closed || d.exited || !d.busy then d else d.(busy := false, decided := d.decided + [Idle])
    case Exit => d.(exited := true)
    case Close => d.(closed := true)
  }

  /** The first report is an idle one, and no two in a row are the same. */
  predicate Alternating(reports: seq<Report>) {
    && (reports != [] ==> reports[0] == Idle)
    && forall i :: 0 < i < |reports| ==> reports[i] != reports[i - 1]
  }

  /** What somebody who has heard these reports takes the session to be. */
  predicate SaysBusy(reports: seq<Report>) {
    reports == [] || reports[|reports| - 1] == Busy
  }

  /** The reports alternate, and tell of a live session what it is. */
  predicate Telling(d: Desk) {
    Alternating(d.decided) && (!d.exited ==> (d.busy <==> SaysBusy(d.decided)))
  }

  lemma KeepsTelling(d: Desk, h: Happening)
    requires Telling(d)
    ensures Telling(Happened(d, h))
  {
  }

  /** Output makes a session busy, and that is reported if it was not and the
      program has not exited; a quiet spell makes it idle, and that is reported, if
      it was busy, has not exited and is not closed. Nothing else is. */
  lemma WhenReported(d: Desk)
    ensures var next := Happened(d, Output);
      next == d.(busy := true, decided := next.decided)
      && next.decided == d.decided + if !d.busy && !d.exited then [Busy] else []
    ensures var next := Happened(d, Quiet); var idles := d.busy && !d.exited && !d.closed;
      next == d.(busy := d.busy && !idles, decided := next.decided)
      && next.decided == d.decided + if idles then [Idle] else []
    ensures Happened(d, Exit) == d.(exited := true) && Happened(d, Close) == d.(closed := true)
    ensures Opened() == Desk(true, false, false, [])
  {
    assert d.decided + [] == d.decided;
  }

  // ----- publication -----------------------------------------------------------------------

  /** `out` says which of the reports decided have been published, in what order. */
  datatype Feed = Feed(desk: Desk, out: seq<nat>)

  datatype Label = Occurs(happening: Happening) | Publish(report: nat)

  function Started(): Feed {
    Feed(Opened(), [])
  }

  predicate Unpublished(w: Feed, i: nat) {
    i < |w.desk.decided| && i !in w.out
  }

  /** The read loop is one goroutine: its last report is out before it writes
      again. An idle report is its timer's own business. */
  predicate Enabled(w: Feed, l: Label) {
    match l
    case Occurs(h) => h.Output? ==> forall i :: 0 <= i < |w.desk.decided| && Unpublished(w, i) ==> w.desk.decided[i] == Idle
    case Publish(i) => Unpublished(w, i)
  }

  function Next(w: Feed, l: Label): Feed {
    match l
    case Occurs(h) => w.(desk := Happened(w.desk, h))
    case Publish(i) => w.(out := w.out + [i])
  }

  function Exec(w: Feed, run: seq<Label>): Feed {
    if run == [] then w
    else
      var before := Exec(w, run[..|run| - 1]);
      if Enabled(before, run[|run| - 1]) then Next(before, run[|run| - 1]) else before
  }

  ghost predicate Leads(w: Feed, run: seq<Label>, next: Feed) {
    next == Exec(w, run)
  }

  predicate Ok(w: Feed) {
    Telling(w.desk) && forall m :: 0 <= m < |w.out| ==> w.out[m] < |w.desk.decided|
  }

  /** What subscribers have heard. */
  function Heard(w: Feed): (log: seq<Report>)
    requires Ok(w)
    ensures |log| == |w.out|
  {
    seq(|w.out|, m requires 0 <= m < |w.out| => w.desk.decided[w.out[m]])
  }

  /** Over every run of output, quiet spells, exits and closes: the reports
      alternate, starting with an idle one, and the last of them says of a live
      session whether it is busy. */
  lemma {:induction false} ReportsAlternate(run: seq<Label>)
    ensures Ok(Exec(Started(), run))
  {
    if run != [] {
      var before, l := Exec(Started(), run[..|run| - 1]), run[|run| - 1];
      ReportsAlternate(run[..|run| - 1]);
      if l.Occurs? {
        KeepsTelling(before.desk, l.happening);
      }
    }
  }

  /** A session that has exited has nothing more to report. */
  lemma {:induction false} ExitIsTheLastWord(w: Feed, run: seq<Label>)
    requires w.desk.exited
    ensures Exec(w, run).desk.exited && Exec(w, run).desk.decided == w.desk.decided
  {
    if run != [] {
      ExitIsTheLastWord(w, run[..|run| - 1]);
    }
  }

  function DueAt(i: nat): Report {
    if i % 2 == 0 then Idle else Busy
  }

  predicate OnBeat(reports: seq<Report>) {
    forall i :: 0 <= i < |reports| ==> reports[i] == DueAt(i)
  }

  lemma {:induction false} AlternatingMeaning(reports: seq<Report>)
    ensures Alternating(reports) <==> OnBeat(reports)
  {
    if OnBeat(reports) {
      forall i | 0 < i < |reports|
        ensures reports[i] != reports[i - 1]
      {
        assert reports[i] == DueAt(i) && reports[i - 1] == DueAt(i - 1);
      }
    } else if reports != [] && Alternating(reports) {
      assert Alternating(reports[..|reports| - 1]);
      AlternatingMeaning(reports[..|reports| - 1]);
      LastBeat(reports);
    }
  }

  lemma LastBeat(reports: seq<Report>)
    requires reports != [] && Alternating(reports) && OnBeat(reports[..|reports| - 1])
    ensures OnBeat(reports)
  {
    var n := |reports| - 1;
    assert n > 0 ==> reports[..n][n - 1] == DueAt(n - 1);
    forall i | 0 <= i < n
      ensures reports[i] == DueAt(i)
    {
      assert reports[..n][i] == DueAt(i);
    }
  }

  /** What was published at this place is of the kind decided at this place. */
  predicate InPlace(w: Feed, m: nat) {
    m < |w.out| && w.out[m] < |w.desk.decided| && m < |w.desk.decided| && w.desk.decided[w.out[m]] == w.desk.decided[m]
  }

  /** Since reports are published without the lock, what is heard alternates
      exactly if none has taken the place of one of the other kind. */
  lemma HeardAlternates(run: seq<Label>, w: Feed)
    requires Leads(Started(), run, w)
    ensures Ok(w)
    ensures Alternating(Heard(w)) <==>
      forall m :: 0 <= m < |w.out| ==> InPlace(w, m)
  {
    ReportsAlternate(run);
    AlternatingMeaning(w.desk.decided);
    AlternatingMeaning(Heard(w));
    OutIsDistinct(run);
    EnoughDecided(w.out, |w.desk.decided|);
    forall m | 0 <= m < |w.out|
      ensures Heard(w)[m] == DueAt(m) <==> InPlace(w, m)
    {
      assert w.desk.decided[m] == DueAt(m);
    }
  }

  predicate Distinct(out: seq<nat>) {
    forall i, j :: 0 <= i < j < |out| ==> out[i] != out[j]
  }

  lemma {:induction false} OutIsDistinct(run: seq<Label>)
    ensures Distinct(Exec(Started(), run).out)
  {
    if run != [] {
      OutIsDistinct(run[..|run| - 1]);
    }
  }

  /** Each report is published once. */
  lemma {:induction false} EnoughDecided(out: seq<nat>, n: nat)
    requires Distinct(out) && forall m :: 0 <= m < |out| ==> out[m] < n
    ensures |out| <= n
    decreases n
  {
    if out != [] {
      assert out[0] < n;
      if m :| 0 <= m < |out| && out[m] == n - 1 {
        var rest := out[..m] + out[m + 1..];
        forall i | 0 <= i < |rest|
          ensures rest[i] < n - 1
        {
          assert rest[i] == out[if i < m then i else i + 1];
        }
        EnoughDecided(rest, n - 1);
      } else {
        EnoughDecided(out, n - 1);
      }
    }
  }

  /** Once all is out in the order decided, whoever has listened knows. */
  lemma ListenersKnow(run: seq<Label>, w: Feed)
    requires Leads(Started(), run, w) && w.out == seq(|w.desk.decided|, m => m)
    ensures Ok(w) && Heard(w) == w.desk.decided
    ensures !w.desk.exited ==> (w.desk.busy <==> SaysBusy(Heard(w)))
  {
    ReportsAlternate(run);
  }

  /** The session goes quiet, and output overtakes the report of it: the first
      thing heard is that it is busy, and the last that it is idle, which it is
      not. */
  lemma BusyCanComeFirst(w: Feed)
    requires Leads(Started(), [Occurs(Quiet), Occurs(Output), Publish(1), Publish(0)], w)
    ensures Ok(w) && Heard(w) == [Busy, Idle] && w.desk.busy && !w.desk.exited
  {
    var loud := Feed(Desk(true, false, false, [Idle, Busy]), []);
    var run := [Occurs(Quiet), Occurs(Output)];
    OutputOvertakes(loud);
    OneStepMore(run, loud, Publish(1), loud.(out := [1]));
    OneStepMore(run + [Publish(1)], loud.(out := [1]), Publish(0), loud.(out := [1, 0]));
    assert run + [Publish(1)] + [Publish(0)] == [Occurs(Quiet), Occurs(Output), Publish(1), Publish(0)];
  }

  lemma OutputOvertakes(loud: Feed)
    requires loud == Feed(Desk(true, false, false, [Idle, Busy]), [])
    ensures Leads(Started(), [Occurs(Quiet), Occurs(Output)], loud)
  {
    var quiet := Feed(Desk(false, false, false, [Idle]), []);
    OneStepMore([], Started(), Occurs(Quiet), quiet);
    assert [] + [Occurs(Quiet)] == [Occurs(Quiet)];
    OneStepMore([Occurs(Quiet)], quiet, Occurs(Output), loud);
    assert [Occurs(Quiet)] + [Occurs(Output)] == [Occurs(Quiet), Occurs(Output)];
  }

  lemma OneStepMore(run: seq<Label>, w: Feed, l: Label, next: Feed)
    requires Leads(Started(), run, w) && Enabled(w, l) && next == Next(w, l)
    ensures Leads(Started(), run + [l], next)
  {
    assert (run + [l])[..|run|] == run;
  }
}
