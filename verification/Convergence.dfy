/** What every schedule of crashes, pauses and new attempts leads to. */
module Convergence {
  import opened Basics
  import opened Durable
  import opened Capture
  import opened Recovery
  import opened CrashSafety

  /** One attempt: the clock it reads, the planned pause, and how many of its
      writes survive. */
  datatype Try = Try(clock: Clock, left: Option<nat>, kept: nat)

  /** What one attempt writes before it ends or is killed. */
  function WrittenBy(w: World, d: Disk, t: Try): seq<Op> {
    var log := Attempt(w, d, t.clock, t.left).log;
    log[..Min(t.kept, |log|)]
  }

  /** The disk after one attempt, cut short by a crash or not. */
  function AfterTry(w: World, d: Disk, t: Try): Disk {
    Land(d, WrittenBy(w, d, t))
  }

  function After(w: World, d: Disk, tries: seq<Try>): Disk
    decreases |tries|
  {
    if tries == [] then d
    else AfterTry(w, After(w, d, tries[..|tries| - 1]), tries[|tries| - 1])
  }

  /** A job that has been created and never run. */
  ghost predicate Created(d: Disk) {
    d.control == Control(None, Planned, []) && d.data.rows == []
  }

  // ------------------------------------------------------------- clocks

  /** Readings increase from page to page, inside the window (low, high]. */
  ghost predicate Rising(w: World, c: Clock, low: int, high: int) {
    && (forall i: nat | 1 <= i <= w.maxPages :: low < c(i) <= high)
    && (forall i: nat, j: nat | 1 <= i < j <= w.maxPages :: c(i) < c(j))
  }

  /** The same for the first `n` pages alone. */
  ghost predicate RisesTo(c: Clock, n: nat, low: int, high: int) {
    && (forall i: nat | 1 <= i <= n :: low < c(i) <= high)
    && (forall i: nat, j: nat | 1 <= i < j <= n :: c(i) < c(j))
  }

  /** The same for the pages whose metadata these writes store. */
  ghost predicate RisesIn(c: Clock, log: seq<Op>, low: int, high: int) {
    && (forall i: nat | Stores(log, i) :: low < c(i) <= high)
    && (forall i: nat, j: nat | i < j && Stores(log, i) && Stores(log, j) :: c(i) < c(j))
  }

  /** Later attempts read later times, on the pages they store before they end or
      are killed; `until[i + 1]` is a time after attempt `i`. */
  ghost predicate InOrder(w: World, d: Disk, tries: seq<Try>, until: seq<int>) {
    && |until| == |tries| + 1
    && forall i | 0 <= i < |tries| ::
         && until[i] <= until[i + 1]
         && RisesIn(tries[i].clock, WrittenBy(w, After(w, d, tries[..i]), tries[i]), until[i], until[i + 1])
  }

  lemma InOrderFront(w: World, d: Disk, tries: seq<Try>, until: seq<int>)
    requires InOrder(w, d, tries, until) && tries != []
    ensures var n := |tries| - 1;
            && InOrder(w, d, tries[..n], until[..n + 1]) && until[n] <= until[n + 1]
            && RisesIn(tries[n].clock, WrittenBy(w, After(w, d, tries[..n]), tries[n]), until[n], until[n + 1])
  {
    hide WrittenBy, After, RisesIn;
    var n := |tries| - 1;
    forall i | 0 <= i < n
      ensures RisesIn(tries[..n][i].clock, WrittenBy(w, After(w, d, tries[..n][..i]), tries[..n][i]),
                      until[..n + 1][i], until[..n + 1][i + 1])
    {
      assert tries[..n][..i] == tries[..i];
    }
  }

  lemma SplicedRises(
    c': Clock, c: Clock, cut: nat, now: Clock, n: nat, log: seq<Op>, low: int, mid: int, high: int)
    requires Spliced(c', c, cut, now) && RisesTo(c, cut, low, mid) && low <= mid <= high
    requires RisesIn(now, log, mid, high) && forall i | cut < i <= n :: Stores(log, i)
    ensures RisesTo(c', n, low, high)
  {
    hide Stores;
  }

  lemma UntilRises(w: World, d: Disk, tries: seq<Try>, until: seq<int>)
    requires InOrder(w, d, tries, until)
    ensures until[0] <= until[|tries|]
    decreases |tries|
  {
    if tries != [] {
      InOrderFront(w, d, tries, until);
      UntilRises(w, d, tries[..|tries| - 1], until[..|tries|]);
    }
  }

  /** Times beyond those a run stores can be anything: a clock that rises over those
      it stores has one that rises throughout and gives the same run. */
  function Extend(c: Clock, n: nat, high: int): Clock {
    (j: nat) => if j <= n then c(j) else high + j
  }

  lemma ExtendRises(w: World, c: Clock, n: nat, low: int, high: int)
    requires RisesTo(c, n, low, high) && low <= high
    ensures Rising(w, Extend(c, n, high), low, high + Max(n, if w.maxPages < 0 then 0 else w.maxPages))
  {
  }

  /** A page refused before its metadata is stored is refused at any time. */
  lemma Unstamped(w: World, p: Position, c: Clock, c': Clock)
    requires Exec(p.data, PageOps(w, p, c)).done < 2 && StepTo(w, p, c).None?
    ensures StepTo(w, p, c').None? && EndOf(w, p, c') == EndOf(w, p, c)
    ensures Exec(p.data, PageOps(w, p, c')).data == Exec(p.data, PageOps(w, p, c)).data
  {
    hide OpsAt, Exec, Judge, PageCapture;
    var page := w.fetch(p.cursor);
    if page.Rendered? {
      var id := PageCapture(w, p, page);
      var at, at' := TimeFor(p.data, id, c(p.done + 1)), TimeFor(p.data, id, c'(p.done + 1));
      if id !in p.data.tables.captures {
        RefusedFirst(w, p, page, at, at');
      }
    }
  }

  lemma RefusedFirst(w: World, p: Position, page: Fetch, at: int, at': int)
    requires page.Rendered? && PageCapture(w, p, page) !in p.data.tables.captures
    requires Exec(p.data, OpsAt(w, p, page, at)).done < 2
    ensures Exec(p.data, OpsAt(w, p, page, at')) == Exec(p.data, OpsAt(w, p, page, at))
    ensures Exec(p.data, OpsAt(w, p, page, at)).refusal.Some?
  {
    hide Exec, PersistOps, CheckpointOps, Judge, PageCapture;
    var ops, ops' := OpsAt(w, p, page, at), OpsAt(w, p, page, at');
    var id := PageCapture(w, p, page);
    var first := WriteFile(id, page.raw);
    assert ops[0] == first && ops'[0] == first && ops[..0] == [];
    assert ops[1] == AddCapture(id, PageMeta(w, id, page.raw, at));
    ExecNothing(p.data);
    ExecStep(p.data, ops, 0);
    if Exec(p.data, ops).done == 1 {
      assert ops[..1] == [first];
      ExecOne(p.data, first);
      ExecStep(p.data, ops, 1);
    }
    assert ops == [first] + ops[1..] && ops' == [first] + ops'[1..];
    ExecOne(p.data, first);
    ExecSplit(p.data, [first], ops[1..]);
    ExecSplit(p.data, [first], ops'[1..]);
  }

  /** An uninterrupted run depends on the clock through the times it stores. */
  lemma {:induction false} IdealAgrees(w: World, p: Position, c: Clock, c': Clock)
    requires forall j | p.done < j <= p.done + Stamps(w, p, c) :: c(j) == c'(j)
    ensures Ideal(w, p, c') == Ideal(w, p, c)
    decreases w.maxPages - p.done
  {
    hide StepTo, EndOf, PageOps, Exec;
    if StepTo(w, p, c).Some? {
      StepAgrees(w, p, c, c');
      StepDone(w, p, c);
      IdealAgrees(w, StepTo(w, p, c).value, c, c');
    } else if Exec(p.data, PageOps(w, p, c)).done >= 2 {
      StepAgrees(w, p, c, c');
    } else {
      Unstamped(w, p, c, c');
    }
  }

  // ------------------------------------------------------------ theorems

  lemma CreatedPasses(w: World, d: Disk, c: Clock)
    requires Created(d)
    ensures Passes(w, Start(d.data), d, Mark(c, 0, 0))
  {
    hide PageOps, StepTo, EndOf, FailureAt;
    assert PageOps(w, Start(d.data), c)[..0] == [];
    ExecNothing(d.data);
  }

  /** Every disk that any schedule of attempts, pauses and crashes leads to is a
      disk that a single uninterrupted run passes through. With attempts in time
      order, that run has stored rising times. */
  lemma {:induction false} CrashesLinearize(w: World, d: Disk, tries: seq<Try>, until: seq<int>)
    returns (m: Mark)
    requires WellParsed(w) && Created(d)
    ensures Passes(w, Start(d.data), After(w, d, tries), m)
    ensures InOrder(w, d, tries, until) ==> RisesTo(m.clock, Stamped(m), until[0], until[|tries|])
    decreases |tries|
  {
    hide Passes, Attempt, Land, WellParsed, Stores, Spliced, RisesTo, RisesIn, InOrder;
    if tries == [] {
      m := Mark((j: nat) => 0, 0, 0);
      CreatedPasses(w, d, m.clock);
      if InOrder(w, d, tries, until) { RisesNowhere(w, d, m.clock, until); }
    } else {
      var n := |tries| - 1;
      var front := tries[..n];
      var t := tries[n];
      var sooner := if |until| == n + 2 then until[..n + 1] else [];
      var m0 := CrashesLinearize(w, d, front, sooner);
      var before := After(w, d, front);
      var log := Attempt(w, before, t.clock, t.left).log;
      var cut;
      m, cut := AttemptCrash(w, d.data, before, m0, t.clock, t.left, Min(t.kept, |log|));
      if InOrder(w, d, tries, until) {
        InOrderUntil(w, d, tries, until);
        InOrderFront(w, d, tries, until);
        UntilRises(w, d, front, sooner);
        SplicedRises(m.clock, m0.clock, cut, t.clock, Stamped(m), WrittenBy(w, before, t), until[0], until[n],
                     until[n + 1]);
      }
    }
  }

  lemma InOrderUntil(w: World, d: Disk, tries: seq<Try>, until: seq<int>)
    requires InOrder(w, d, tries, until)
    ensures |until| == |tries| + 1
  {
  }

  lemma RisesNowhere(w: World, d: Disk, c: Clock, until: seq<int>)
    requires InOrder(w, d, [], until)
    ensures |until| == 1 && RisesTo(c, 0, until[0], until[0])
  {
  }

  /** The last attempt is left alone, and stores times after those of all tries. */
  ghost predicate Afterwards(w: World, d: Disk, tries: seq<Try>, until: seq<int>, now: Clock, high: int) {
    && InOrder(w, d, tries, until) && until[|tries|] <= high
    && RisesIn(now, Attempt(w, After(w, d, tries), now, None).log, until[|tries|], high)
  }

  /** After any schedule, one attempt left alone ends the job with the data, the
      outcome and the job state of a run that was never interrupted; if the job
      had already ended, it had ended that way. */
  lemma {:induction false} Completes(w: World, d: Disk, tries: seq<Try>, until: seq<int>, now: Clock, high: int)
    returns (clock: Clock, top: int)
    requires WellParsed(w) && Created(d) && w.maxPages > 0
    ensures Afterwards(w, d, tries, until, now, high) ==> Rising(w, clock, until[0], top)
    ensures var last := Attempt(w, After(w, d, tries), now, None);
            var final := Land(After(w, d, tries), last.log);
            var ideal := Ideal(w, Start(d.data), clock);
            && final.data == ideal.data
            && final.control.job == JobAfter(ideal.outcome)
            && (last.outcome == ideal.outcome || (last == Run([], [], NotRunnable) && Terminal(final.control.job)))
  {
    hide Attempt, Land, WellParsed, PageOps, Exec, StepTo, EndOf, FailureAt, Ideal, Stamps, Stores, Spliced, RisesTo,
         RisesIn, InOrder, Rising;
    var m := CrashesLinearize(w, d, tries, until);
    var p := Start(d.data);
    var e := After(w, d, tries);
    var stored: Clock;
    if Runnable(e.control.job) {
      var cut;
      stored, cut := AttemptCompletes(w, d.data, e, m, now);
      if Afterwards(w, d, tries, until, now, high) {
        InOrderUntil(w, d, tries, until);
        UntilRises(w, d, tries, until);
        SplicedRises(stored, m.clock, cut, now, Stamps(w, p, stored), Attempt(w, e, now, None).log,
                     until[0], until[|tries|], high);
      }
    } else {
      stored := m.clock;
      NotRunnableStops(w, e, now);
      LandNothing(e);
      assert tries != [];
      var b := Reach(w, p, m.clock, m.pages).value;
      CompleteIsIdeal(w, p, b, m.pages, m.clock, m.writes, e.data);
      CompleteStamps(w, p, b, m.pages, m.clock, m.writes, e.data);
      if Afterwards(w, d, tries, until, now, high) {
        InOrderUntil(w, d, tries, until);
        RisesWider(stored, Stamped(m), until[0], until[|tries|], high);
      }
    }
    var n := Stamps(w, p, stored);
    clock := Extend(stored, n, high);
    top := high + Max(n, w.maxPages);
    IdealAgrees(w, p, stored, clock);
    if Afterwards(w, d, tries, until, now, high) {
      UntilRises(w, d, tries, until);
      ExtendRises(w, stored, n, until[0], high);
    }
  }

  lemma RisesWider(c: Clock, n: nat, low: int, mid: int, high: int)
    requires RisesTo(c, n, low, mid) && mid <= high
    ensures RisesTo(c, n, low, high)
  {
  }

  lemma NotRunnableStops(w: World, d: Disk, now: Clock)
    requires w.maxPages > 0 && !Runnable(d.control.job)
    ensures Attempt(w, d, now, None) == Run([], [], NotRunnable)
  {
  }

  /** A loop fetches within its page bound and within a planned pause, and it is
      paused exactly when that pause is used up by a page that neither failed nor
      was refused. */
  lemma {:induction false} LoopFetches(w: World, p: Position, clock: Clock, left: Option<nat>)
    requires p.done < w.maxPages && left != Some(0)
    ensures var run := Loop(w, p, clock, left);
            && 0 < |run.fetched| <= w.maxPages - p.done
            && (left.Some? ==> |run.fetched| <= left.value)
            && (run.outcome == Paused
                <==> left == Some(|run.fetched|) && !run.outcome.Failing? && !run.outcome.Refused?)
            && run.outcome !in {InvalidBound, NotRunnable}
    decreases w.maxPages - p.done
  {
    hide PageOps, Exec, PageCapture, Lift, Loop;
    var page := w.fetch(p.cursor);
    if page.Stopped? {
      StoppedTurn(w, p, clock, left);
    } else {
      LoopTurn(w, p, clock, left);
      var verdict := Judge(w, p, page);
      var e := Exec(p.data, PageOps(w, p, clock));
      if e.refusal.None? && verdict.Continue? && left != Some(1) {
        LoopFetches(w, Advance(p, verdict.cursor, e.data), clock, Less(left));
      }
    }
  }
}
