/** Every crash schedule stays on an uninterrupted run, and ends where it ends. */
module CrashSafety {
  import opened Basics
  import opened Durable
  import opened Capture
  import opened Recovery

  /** How far an uninterrupted run has come: its clock, the pages done, and the
      writes done of the next page. */
  datatype Mark = Mark(clock: Clock, pages: nat, writes: nat)

  /** The pages whose metadata that run has stored. */
  function Stamped(m: Mark): nat {
    m.pages + (if m.writes >= 2 then 1 else 0)
  }

  /** `data` is what the run from `b` has on disk after `i` writes of its page. */
  ghost predicate Partway(w: World, b: Position, clock: Clock, i: nat, data: Data) {
    && i <= Exec(b.data, PageOps(w, b, clock)).done
    && data == Exec(b.data, PageOps(w, b, clock)[..i]).data
  }

  /** The page after which the loop at `b` ends has all its writes. */
  ghost predicate PageComplete(w: World, b: Position, clock: Clock, i: nat) {
    i == |PageOps(w, b, clock)| && StepTo(w, b, clock).None?
  }

  /** The failure the loop records when it fails at `b`. */
  function FailureAt(w: World, b: Position): Failure {
    var page := w.fetch(b.cursor);
    match page
    case Stopped(f) => Failure(None, f)
    case Rendered(_, _) => Failure(Some(PageCapture(w, b, page)), FailureClass(Judge(w, b, page)))
  }

  /** Job state and failures agree with the data: a job succeeds or fails only
      after all the writes of the page that ends it, and every recorded failure
      is the failure of that page. */
  ghost predicate ControlFits(w: World, b: Position, clock: Clock, i: nat, ctl: Control) {
    && (ctl.job == Succeeded ==> PageComplete(w, b, clock, i) && EndOf(w, b, clock) == Success)
    && (ctl.job == Failed ==> PageComplete(w, b, clock, i) && EndOf(w, b, clock).Failing?)
    && (forall f | f in ctl.failures ::
          f == FailureAt(w, b) && PageComplete(w, b, clock, i) && EndOf(w, b, clock) == Failing(f.class_))
    && ctl.job !in {Partial, Cancelled}
  }

  /** An uninterrupted run from `p` passes through this disk. */
  ghost predicate Passes(w: World, p: Position, d: Disk, m: Mark) {
    && Reach(w, p, m.clock, m.pages).Some?
    && var b := Reach(w, p, m.clock, m.pages).value;
       && Partway(w, b, m.clock, m.writes, d.data)
       && ControlFits(w, b, m.clock, m.writes, d.control)
  }

  // ------------------------------------------------------ redoing a page

  lemma {:induction false} CapturesStay(d: Data, ops: seq<DataOp>)
    ensures forall id | id in d.tables.captures ::
              && id in Exec(d, ops).data.tables.captures
              && Exec(d, ops).data.tables.captures[id] == d.tables.captures[id]
    decreases |ops|
  {
    if ops != [] && ApplyData(d, ops[0]).Ok? {
      CapturesStay(ApplyData(d, ops[0]).value, ops[1..]);
    }
  }

  /** Once the metadata is stored, its time is the page's time for good. */
  lemma {:induction false} StoredTime(w: World, b: Position, page: Fetch, at: int, now: int, i: nat)
    requires page.Rendered? && at == TimeFor(b.data, PageCapture(w, b, page), at)
    requires 2 <= i <= Exec(b.data, OpsAt(w, b, page, at)).done
    ensures TimeFor(Exec(b.data, OpsAt(w, b, page, at)[..i]).data, PageCapture(w, b, page), now) == at
  {
    hide PersistOps, CheckpointOps, Judge, PageCapture;
    var ops := OpsAt(w, b, page, at);
    var id := PageCapture(w, b, page);
    var raw := RawOps(w, id, page.raw, at);
    ExecPrefix(b.data, ops, i);
    assert ops[..i] == raw + ops[2..i];
    ExecSplit(b.data, raw, ops[2..i]);
    ExecSplit(b.data, [raw[0]], [raw[1]]);
    assert raw == [raw[0]] + [raw[1]];
    ExecOne(b.data, raw[0]);
    ExecOne(Exec(b.data, [raw[0]]).data, raw[1]);
    CapturesStay(Exec(b.data, raw).data, ops[2..i]);
  }

  /** Before the metadata is stored, no capture has changed. */
  lemma NoTimeYet(w: World, b: Position, page: Fetch, at: int, i: nat)
    requires page.Rendered? && i < 2 && i <= Exec(b.data, OpsAt(w, b, page, at)).done
    ensures Exec(b.data, OpsAt(w, b, page, at)[..i]).data.tables == b.data.tables
    ensures forall at' :: OpsAt(w, b, page, at')[..i] == OpsAt(w, b, page, at)[..i]
  {
    hide PersistOps, CheckpointOps, Judge, PageCapture;
    var ops := OpsAt(w, b, page, at);
    if i == 1 {
      assert ops[..1] == [ops[0]];
      ExecOne(b.data, ops[0]);
    }
  }

  /** `now` reads the times of the run `c` from the first page whose time is
      not yet stored. */
  ghost predicate Follows(c: Clock, b: Position, i: nat, now: Clock) {
    forall j | j > b.done + (if i >= 2 then 1 else 0) :: c(j) == now(j)
  }

  lemma SamePageOps(w: World, b: Position, c: Clock, i: nat, data: Data, now: Clock)
    requires Partway(w, b, c, i, data) && Follows(c, b, i, now)
    ensures PageOps(w, b.(data := data), now) == PageOps(w, b, c)
  {
    hide OpsAt, Exec;
    var page := w.fetch(b.cursor);
    if page.Rendered? {
      var id := PageCapture(w, b, page);
      var at := TimeFor(b.data, id, c(b.done + 1));
      assert PageOps(w, b, c) == OpsAt(w, b, page, at);
      if i >= 2 {
        StoredTime(w, b, page, at, now(b.done + 1), i);
      } else {
        NoTimeYet(w, b, page, at, i);
      }
      OpsIgnoreData(w, b, data, page, at);
      assert TimeFor(data, id, now(b.done + 1)) == at;
    }
  }

  lemma OpsIgnoreData(w: World, b: Position, data: Data, page: Fetch, at: int)
    requires page.Rendered?
    ensures PageCapture(w, b.(data := data), page) == PageCapture(w, b, page)
    ensures Judge(w, b.(data := data), page) == Judge(w, b, page)
    ensures OpsAt(w, b.(data := data), page, at) == OpsAt(w, b, page, at)
  {
  }

  lemma PageOpsApart(w: World, b: Position, c: Clock)
    requires WellParsed(w)
    ensures AllApart(PageOps(w, b, c))
  {
    hide OpsAt, WellParsed;
    var page := w.fetch(b.cursor);
    if page.Rendered? {
      PageApart(w, b, page, TimeFor(b.data, PageCapture(w, b, page), c(b.done + 1)));
    }
  }

  /** A page started again writes the same list and ends in the same data. */
  lemma {:induction false} SamePage(w: World, b: Position, c: Clock, i: nat, data: Data, now: Clock)
    requires WellParsed(w) && Partway(w, b, c, i, data) && Follows(c, b, i, now)
    ensures PageOps(w, b.(data := data), now) == PageOps(w, b, c)
    ensures Exec(data, PageOps(w, b, c)) == Exec(b.data, PageOps(w, b, c))
    ensures StepTo(w, b.(data := data), now) == StepTo(w, b, c)
    ensures EndOf(w, b.(data := data), now) == EndOf(w, b, c)
  {
    hide PageOps, Exec, Follows, WellParsed;
    SamePageOps(w, b, c, i, data, now);
    PageOpsApart(w, b, c);
    Restart(b.data, PageOps(w, b, c), i);
    var page := w.fetch(b.cursor);
    if page.Rendered? { OpsIgnoreData(w, b, data, page, 0); }
  }

  /** After `j` writes of the second try the data is that of the further of the
      two tries. */
  lemma SamePagePrefix(w: World, b: Position, c: Clock, i: nat, data: Data, j: nat)
    requires WellParsed(w) && Partway(w, b, c, i, data)
    requires j <= Exec(b.data, PageOps(w, b, c)).done
    ensures Exec(data, PageOps(w, b, c)[..j]).refusal.None?
    ensures Partway(w, b, c, Max(i, j), Exec(data, PageOps(w, b, c)[..j]).data)
  {
    hide PageOps, Exec, WellParsed;
    var ops := PageOps(w, b, c);
    PageOpsApart(w, b, c);
    Restart(b.data, ops, i);
    RestartPrefix(b.data, ops, i, j);
    ExecPrefix(data, ops, j);
  }

  // ------------------------------------------------------------- the loop

  /** The loop's log is the page's data writes followed by `LoopTail`. */
  function LoopTail(w: World, p: Position, clock: Clock, left: Option<nat>): seq<Op> {
    var page := w.fetch(p.cursor);
    match StepTo(w, p, clock)
    case Some(q) => if left == Some(1) then PAUSE_OPS else Loop(w, q, clock, Less(left)).log
    case None =>
      match EndOf(w, p, clock)
      case Success => if left == Some(1) then PAUSE_OPS else SUCCESS_OPS
      case Failing(_) => FailOps(FailureAt(w, p).capture, FailureAt(w, p).class_)
      case _ => []
  }

  lemma LoopUnfolds(w: World, p: Position, clock: Clock, left: Option<nat>)
    ensures var ops := PageOps(w, p, clock);
            Loop(w, p, clock, left).log
            == Lift(ops[..Exec(p.data, ops).done]) + LoopTail(w, p, clock, left)
  {
    hide PageOps, Exec, PageCapture;
    var page := w.fetch(p.cursor);
    if page.Stopped? {
      assert PageOps(w, p, clock) == [] by { StoppedOps(w, p, clock); }
    }
  }

  /** One turn of the loop, told by the page, its refusal and its verdict. */
  lemma LoopTurn(w: World, p: Position, clock: Clock, left: Option<nat>)
    requires w.fetch(p.cursor).Rendered?
    ensures var page := w.fetch(p.cursor);
            var e := Exec(p.data, PageOps(w, p, clock));
            var written := Lift(PageOps(w, p, clock)[..e.done]);
            var verdict := Judge(w, p, page);
            Loop(w, p, clock, left)
            == if e.refusal.Some? then Run(written, [p.cursor], Refused(e.refusal.value))
               else if verdict.Finish? || verdict.Continue? then
                 if left == Some(1) then Run(written + PAUSE_OPS, [p.cursor], Paused)
                 else if verdict.Finish? then Run(written + SUCCESS_OPS, [p.cursor], Success)
                 else
                   var rest := Loop(w, Advance(p, verdict.cursor, e.data), clock, Less(left));
                   Run(written + rest.log, [p.cursor] + rest.fetched, rest.outcome)
               else Run(written + FailOps(Some(PageCapture(w, p, page)), FailureClass(verdict)), [p.cursor],
                        Failing(FailureClass(verdict)))
  {
    hide PageOps, Exec, PageCapture, Lift;
  }

  lemma StoppedTurn(w: World, p: Position, clock: Clock, left: Option<nat>)
    requires w.fetch(p.cursor).Stopped?
    ensures var f := w.fetch(p.cursor).failure;
            Loop(w, p, clock, left) == Run(FailOps(None, f), [p.cursor], Failing(f))
  {
  }

  lemma StoppedOps(w: World, p: Position, clock: Clock)
    requires w.fetch(p.cursor).Stopped?
    ensures PageOps(w, p, clock) == []
  {
  }

  lemma FailControl(d: Disk, f: Failure, m: nat)
    requires d.control.job == Running && m <= 3
    ensures var d' := Land(d, FailOps(f.capture, f.class_)[..m]);
            && d'.data == d.data
            && d'.control.job == (if m == 3 then Failed else Running)
            && d'.control.failures == d.control.failures + (if m == 0 then [] else [f])
            && (m == 3 ==> d'.control.task == Some(TaskFailed))
  {
    var ops := FailOps(f.capture, f.class_);
    assert ops[..1] == [ops[0]] && ops[..2] == ops[..1] + [ops[1]] && ops[..3] == ops[..2] + [ops[2]];
    LandSplit(d, ops[..1], [ops[1]]);
    LandSplit(d, ops[..2], [ops[2]]);
    LandOne(d, ops[0]);
    LandOne(Land(d, ops[..1]), ops[1]);
    LandOne(Land(d, ops[..2]), ops[2]);
  }

  lemma LandOne(d: Disk, op: Op)
    requires Apply(d, op).Ok?
    ensures Land(d, [op]) == Apply(d, op).value
  {
    hide Apply;
  }

  lemma EndControl(d: Disk, ops: seq<Op>, m: nat)
    requires d.control.job == Running && ops in {PAUSE_OPS, SUCCESS_OPS} && m <= 2
    ensures var d' := Land(d, ops[..m]);
            && d'.data == d.data
            && d'.control.job == (if m < 2 then Running else if ops == PAUSE_OPS then Interrupted else Succeeded)
            && d'.control.failures == d.control.failures
            && (m == 2 ==> d'.control.task == Some(if ops == PAUSE_OPS then TaskInterrupted else TaskSucceeded))
  {
    assert |ops| == 2;
    if m == 1 { assert ops[..1] == [ops[0]]; }
    if m == 2 { assert ops[..2] == [ops[0], ops[1]]; }
  }

  lemma LandData(d: Disk, ops: seq<DataOp>, n: nat, j: nat)
    requires j <= n <= |ops| && Exec(d.data, ops[..j]).refusal.None?
    ensures Land(d, Lift(ops[..n])[..j]) == d.(data := Exec(d.data, ops[..j]).data)
  {
    assert Lift(ops[..n])[..j] == Lift(ops[..j]);
    LandLift(d, ops[..j]);
  }

  /** A crash after any number of the writes that end the loop. */
  lemma TailCrash(w: World, p: Position, b: Position, k: nat, c: Clock, d: Disk, ops: seq<Op>, m: nat)
    requires Reach(w, p, c, k) == Some(b) && d.control.job == Running
    requires Partway(w, b, c, Exec(b.data, PageOps(w, b, c)).done, d.data)
    requires ControlFits(w, b, c, Exec(b.data, PageOps(w, b, c)).done, d.control)
    requires m <= |ops|
    requires
      || ops == []
      || ops == PAUSE_OPS
      || (ops == SUCCESS_OPS && StepTo(w, b, c).None? && EndOf(w, b, c) == Success)
      || (ops == FailOps(FailureAt(w, b).capture, FailureAt(w, b).class_) && StepTo(w, b, c).None?
          && EndOf(w, b, c) == Failing(FailureAt(w, b).class_))
    ensures Passes(w, p, Land(d, ops[..m]), Mark(c, k, Exec(b.data, PageOps(w, b, c)).done))
  {
    hide PageOps, Exec, StepTo, Reach, FailureAt, Land;
    var done := Exec(b.data, PageOps(w, b, c)).done;
    if ops == [] {
      assert Land(d, []) == d by { LandNothing(d); }
    } else if ops == PAUSE_OPS || ops == SUCCESS_OPS {
      EndControl(d, ops, m);
      if ops == SUCCESS_OPS { EndComplete(w, b, c); }
    } else {
      FailControl(d, FailureAt(w, b), m);
      EndComplete(w, b, c);
    }
  }

  lemma LandNothing(d: Disk)
    ensures Land(d, []) == d
  {
  }

  lemma EndComplete(w: World, b: Position, c: Clock)
    requires !EndOf(w, b, c).Refused?
    ensures Exec(b.data, PageOps(w, b, c)).done == |PageOps(w, b, c)|
  {
    hide PageOps;
    if w.fetch(b.cursor).Stopped? { StoppedOps(w, b, c); }
  }

  lemma FailureClasses(w: World, b: Position, c: Clock)
    requires StepTo(w, b, c).None? && EndOf(w, b, c).Failing?
    ensures EndOf(w, b, c) == Failing(FailureAt(w, b).class_)
  {
    hide PageOps, Exec;
  }

  /** Control that fits stays fitting while the same page's writes go on. */
  lemma ControlLater(w: World, b: Position, c: Clock, i: nat, j: nat, ctl: Control)
    requires ControlFits(w, b, c, i, ctl) && i <= j <= Exec(b.data, PageOps(w, b, c)).done
    ensures ControlFits(w, b, c, j, ctl)
  {
    hide PageOps, StepTo, EndOf, Exec;
  }

  lemma ExecNothing(d: Data)
    ensures Exec(d, []) == Progress(0, d, None)
  {
  }

  lemma StepComplete(w: World, b: Position, c: Clock)
    requires StepTo(w, b, c).Some?
    ensures Exec(b.data, PageOps(w, b, c)).done == |PageOps(w, b, c)|
  {
    hide PageOps;
  }

  lemma TailShape(w: World, b: Position, q: Position, c: Clock, now: Clock, left: Option<nat>)
    requires StepTo(w, q, now) == StepTo(w, b, c) && EndOf(w, q, now) == EndOf(w, b, c)
    requires q == b.(data := q.data)
    requires StepTo(w, b, c).None? || left == Some(1)
    ensures var tail := LoopTail(w, q, now, left);
      || tail == []
      || tail == PAUSE_OPS
      || (tail == SUCCESS_OPS && StepTo(w, b, c).None? && EndOf(w, b, c) == Success)
      || (tail == FailOps(FailureAt(w, b).capture, FailureAt(w, b).class_) && StepTo(w, b, c).None?
          && EndOf(w, b, c) == Failing(FailureAt(w, b).class_))
  {
    hide PageOps, Exec, StepTo, EndOf, Loop;
    if StepTo(w, b, c).None? && EndOf(w, b, c).Failing? {
      FailureClasses(w, b, c);
      var page := w.fetch(b.cursor);
      if page.Rendered? { OpsIgnoreData(w, b, q.data, page, 0); }
    }
  }

  /** These writes store the metadata of page `n`. */
  ghost predicate Stores(log: seq<Op>, n: nat) {
    exists i | 0 <= i < |log| :: log[i].OnData? && log[i].op.AddCapture? && log[i].op.id.number == n
  }

  lemma StoresLater(a: seq<Op>, b: seq<Op>, n: nat)
    requires Stores(b, n)
    ensures Stores(a + b, n)
  {
    var i :| 0 <= i < |b| && b[i].OnData? && b[i].op.AddCapture? && b[i].op.id.number == n;
    assert (a + b)[|a| + i] == b[i];
  }

  /** A loop stores the metadata of its first page with its second write. */
  lemma StoresFirst(w: World, q: Position, now: Clock, left: Option<nat>, m: nat)
    requires m <= |Loop(w, q, now, left).log| && 2 <= m && 2 <= Exec(q.data, PageOps(w, q, now)).done
    ensures Stores(Loop(w, q, now, left).log[..m], q.done + 1)
  {
    hide Exec, Loop, OpsAt, LoopTail;
    var ops := PageOps(w, q, now);
    var page := w.fetch(q.cursor);
    LoopUnfolds(w, q, now, left);
    RawFirst(w, q, page, TimeFor(q.data, PageCapture(w, q, page), now(q.done + 1)));
    var log := Loop(w, q, now, left).log;
    assert log[..m][1] == OnData(ops[1]);
  }

  lemma TwoWrites(w: World, b: Position, c: Clock)
    requires StepTo(w, b, c).Some?
    ensures |PageOps(w, b, c)| >= 2
  {
    hide OpsAt, Exec, Judge;
    var page := w.fetch(b.cursor);
    RawFirst(w, b, page, TimeFor(b.data, PageCapture(w, b, page), c(b.done + 1)));
  }

  /** A crash anywhere in the loop leaves a disk that the uninterrupted run with
      clock `c` passes through. */
  lemma {:induction false} LoopCrash(
    w: World, p: Position, b: Position, k: nat, c: Clock, i: nat, d: Disk, now: Clock, left: Option<nat>, m: nat)
    returns (mark: Mark)
    requires WellParsed(w) && Reach(w, p, c, k) == Some(b) && Follows(c, b, i, now)
    requires d.control.job == Running
    requires Partway(w, b, c, i, d.data) && ControlFits(w, b, c, i, d.control)
    requires m <= |Loop(w, b.(data := d.data), now, left).log|
    ensures mark.clock == c && Passes(w, p, Land(d, Loop(w, b.(data := d.data), now, left).log[..m]), mark)
    ensures forall n | b.done + (if i >= 2 then 1 else 0) < n <= b.done + Stamped(mark) - k ::
              Stores(Loop(w, b.(data := d.data), now, left).log[..m], n)
    decreases w.maxPages - b.done
  {
    hide PageOps, Exec, StepTo, EndOf, Loop, Land, WellParsed, FailureAt, Stores;
    var q := b.(data := d.data);
    var ops := PageOps(w, b, c);
    var done := Exec(b.data, ops).done;
    var log := Loop(w, q, now, left).log;
    SamePage(w, b, c, i, d.data, now);
    LoopUnfolds(w, q, now, left);
    if m >= 2 && done >= 2 { StoresFirst(w, q, now, left, m); }
    var written := Lift(ops[..done]);
    if m <= done {
      SamePagePrefix(w, b, c, i, d.data, m);
      LandData(d, ops, done, m);
      assert log[..m] == written[..m];
      mark := Mark(c, k, Max(i, m));
      ControlLater(w, b, c, i, Max(i, m), d.control);
    } else {
      var tail := LoopTail(w, q, now, left);
      SamePagePrefix(w, b, c, i, d.data, done);
      LandData(d, ops, done, done);
      assert written[..done] == written;
      var d1 := d.(data := Exec(d.data, ops[..done]).data);
      assert log[..m] == written + tail[..m - done];
      LandSplit(d, written, tail[..m - done]);
      ControlLater(w, b, c, i, done, d.control);
      assert Land(d, log[..m]) == Land(d1, tail[..m - done]);
      if StepTo(w, b, c).Some? && left != Some(1) {
        var next := StepTo(w, b, c).value;
        ReachStep(w, p, c, k, b);
        StepDone(w, b, c);
        StepComplete(w, b, c);
        NextData(w, b, c, d1.data, next);
        NextControl(w, b, c, done, next, d1.control);
        mark := LoopCrash(w, p, next, k + 1, c, 0, d1, now, Less(left), m - done);
        TwoWrites(w, b, c);
        forall n | b.done + (if i >= 2 then 1 else 0) < n <= b.done + Stamped(mark) - k ensures Stores(log[..m], n) {
          if n > b.done + 1 { StoresLater(written, tail[..m - done], n); }
        }
      } else {
        TailShape(w, b, q, c, now, left);
        TailCrash(w, p, b, k, c, d1, tail, m - done);
        mark := Mark(c, k, done);
      }
    }
  }

  // ---------------------------------------------------------- one attempt

  /** The times of `c` for the pages whose time is stored, then those of `now`. */
  function Splice(c: Clock, b: Position, i: nat, now: Clock): Clock {
    (j: nat) => if j <= b.done + (if i >= 2 then 1 else 0) then c(j) else now(j)
  }

  lemma SplicePartway(w: World, b: Position, c: Clock, i: nat, data: Data, now: Clock)
    requires Partway(w, b, c, i, data)
    ensures Partway(w, b, Splice(c, b, i, now), i, data)
  {
    hide OpsAt, Exec;
    var c' := Splice(c, b, i, now);
    var page := w.fetch(b.cursor);
    if i >= 2 {
      StepAgrees(w, b, c, c');
    } else if page.Rendered? {
      var id := PageCapture(w, b, page);
      var ops := PageOps(w, b, c);
      var ops' := PageOps(w, b, c');
      NoTimeYet(w, b, page, TimeFor(b.data, id, c(b.done + 1)), i);
      RawFirst(w, b, page, TimeFor(b.data, id, c'(b.done + 1)));
      assert ops'[..i] == ops[..i];
      ExecPrefix(b.data, ops, i);
      assert ops' == ops'[..i] + ops'[i..];
      ExecSplit(b.data, ops'[..i], ops'[i..]);
    }
  }

  lemma RawFirst(w: World, b: Position, page: Fetch, at: int)
    requires page.Rendered?
    ensures |OpsAt(w, b, page, at)| >= 2
    ensures var op := OpsAt(w, b, page, at)[1]; op.AddCapture? && op.id.number == b.done + 1
  {
  }

  lemma SpliceFits(w: World, b: Position, c: Clock, i: nat, now: Clock, ctl: Control)
    requires ControlFits(w, b, c, i, ctl)
    ensures ControlFits(w, b, Splice(c, b, i, now), i, ctl)
  {
    hide OpsAt, Exec, FailureAt, Judge;
    var c' := Splice(c, b, i, now);
    var page := w.fetch(b.cursor);
    if i >= 2 {
      StepAgrees(w, b, c, c');
    } else if page.Rendered? {
      RawFirst(w, b, page, TimeFor(b.data, PageCapture(w, b, page), c(b.done + 1)));
      assert !PageComplete(w, b, c, i);
    }
  }

  /** A disk the run with clock `c` passes through is one the run passes through
      whose later times are read from `now`. */
  lemma SplicePasses(w: World, p: Position, d: Disk, m: Mark, b: Position, now: Clock)
    requires Passes(w, p, d, m) && Reach(w, p, m.clock, m.pages) == Some(b)
    ensures Passes(w, p, d, m.(clock := Splice(m.clock, b, m.writes, now)))
    ensures Reach(w, p, Splice(m.clock, b, m.writes, now), m.pages) == Some(b)
    ensures Follows(Splice(m.clock, b, m.writes, now), b, m.writes, now)
  {
    hide PageOps, Exec, StepTo, EndOf, FailureAt, PageComplete, ControlFits, Partway;
    var c' := Splice(m.clock, b, m.writes, now);
    ReachDone(w, p, m.clock, m.pages);
    ReachAgrees(w, p, m.clock, c', m.pages);
    SplicePartway(w, b, m.clock, m.writes, d.data, now);
    SpliceFits(w, b, m.clock, m.writes, now, d.control);
  }

  /** A finished page that goes on is the next page not yet begun. */
  lemma Normalise(w: World, p: Position, d: Disk, m: Mark) returns (m': Mark)
    requires Passes(w, p, d, m)
    ensures Passes(w, p, d, m') && m'.clock == m.clock
    ensures var b := Reach(w, p, m'.clock, m'.pages).value;
            m'.writes == |PageOps(w, b, m'.clock)| ==> StepTo(w, b, m'.clock).None?
    ensures Stamped(m') == Stamped(m)
  {
    hide Exec, StepTo, EndOf, FailureAt, OpsAt, Judge;
    var b := Reach(w, p, m.clock, m.pages).value;
    m' := m;
    if StepTo(w, b, m.clock).Some? && m.writes == |PageOps(w, b, m.clock)| {
      if w.fetch(b.cursor).Stopped? { StopEnds(w, b, m.clock); }
      var next := StepTo(w, b, m.clock).value;
      ReachStep(w, p, m.clock, m.pages, b);
      m' := Mark(m.clock, m.pages + 1, 0);
      RawFirst(w, b, w.fetch(b.cursor), TimeFor(b.data, PageCapture(w, b, w.fetch(b.cursor)), m.clock(b.done + 1)));
      NextData(w, b, m.clock, d.data, next);
      NextControl(w, b, m.clock, m.writes, next, d.control);
      if w.fetch(next.cursor).Stopped? {
        StopEnds(w, next, m.clock);
      } else {
        RawFirst(w, next, w.fetch(next.cursor),
                 TimeFor(next.data, PageCapture(w, next, w.fetch(next.cursor)), m.clock(next.done + 1)));
      }
    }
  }

  lemma StopEnds(w: World, b: Position, c: Clock)
    requires w.fetch(b.cursor).Stopped?
    ensures StepTo(w, b, c).None?
  {
  }

  lemma NextData(w: World, b: Position, c: Clock, data: Data, next: Position)
    requires StepTo(w, b, c) == Some(next) && Partway(w, b, c, |PageOps(w, b, c)|, data)
    ensures next.data == data && Partway(w, next, c, 0, data)
  {
    hide PageOps, EndOf, Exec;
    var ops := PageOps(w, b, c);
    assert ops[..|ops|] == ops;
    assert PageOps(w, next, c)[..0] == [];
    ExecNothing(next.data);
  }

  lemma NextControl(w: World, b: Position, c: Clock, i: nat, next: Position, ctl: Control)
    requires StepTo(w, b, c) == Some(next) && ControlFits(w, b, c, i, ctl)
    ensures ctl.failures == [] && ctl.job !in {Succeeded, Failed}
    ensures ControlFits(w, next, c, 0, ctl)
  {
    hide PageOps, EndOf, Exec, FailureAt;
    FirstIsIn(ctl.failures);
  }

  /** The rebuilt position: the loop's own one, or past the terminal row. */
  lemma ResumePartway(w: World, b: Position, c: Clock, i: nat, data: Data)
    requires WellParsed(w) && Settled(w, b) && Partway(w, b, c, i, data)
    requires i == |PageOps(w, b, c)| ==> StepTo(w, b, c).None?
    ensures if i == |PageOps(w, b, c)| && EndOf(w, b, c) == Success
            then Resume(data) == Position(b.done + 1, None, Cursors(data.rows), data)
            else Resume(data) == b.(data := data)
  {
    hide Exec, OpsAt, Standing, WellParsed;
    var page := w.fetch(b.cursor);
    if page.Stopped? {
      ResumeSettled(b);
      ExecNothing(b.data);
    } else {
      var at := TimeFor(b.data, PageCapture(w, b, page), c(b.done + 1));
      PageApart(w, b, page, at);
      if i <= |BeforeRow(w, b, page, at)| {
        RowsBefore(w, b, page, at, i);
        SameRows(w, b, data);
        if i == |PageOps(w, b, c)| { NoRow(w, b, c); }
      } else {
        assert i == |OpsAt(w, b, page, at)|;
        assert OpsAt(w, b, page, at)[..i] == OpsAt(w, b, page, at);
        RowsAfter(w, b, page, at);
      }
    }
  }

  lemma SameRows(w: World, b: Position, data: Data)
    requires Settled(w, b) && data.rows == b.data.rows
    ensures Resume(data) == b.(data := data)
  {
    hide Standing;
    ResumeSettled(b);
  }

  /** A page whose writes end before the row does not end the run in success. */
  lemma NoRow(w: World, b: Position, c: Clock)
    requires w.fetch(b.cursor).Rendered?
    requires var page := w.fetch(b.cursor);
             |PageOps(w, b, c)|
             <= |BeforeRow(w, b, page, TimeFor(b.data, PageCapture(w, b, page), c(b.done + 1)))|
    ensures EndOf(w, b, c) != Success
  {
    hide RawOps, PersistOps, Exec, Judge;
  }

  lemma StartControl(d: Disk, m: nat)
    requires Runnable(d.control.job) && m <= |StartOps(d.control.job)|
    ensures var d' := Land(d, StartOps(d.control.job)[..m]);
            && d'.data == d.data
            && d'.control.failures == d.control.failures
            && d'.control.job in {d.control.job, Running}
            && (m == |StartOps(d.control.job)| ==> d'.control.job == Running)
            && (m > 0 ==> d'.control.job == Running) && (m == 0 ==> d' == d)
  {
    var ops := StartOps(d.control.job);
    if m > 0 {
      assert ops[..1] == [ops[0]];
      LandOne(d, ops[0]);
    }
    if m == 2 {
      assert ops[..2] == ops[..1] + [ops[1]];
      LandSplit(d, ops[..1], [ops[1]]);
      LandOne(Land(d, ops[..1]), ops[1]);
    }
  }

  /** What an attempt writes after its start. */
  function AttemptTail(w: World, data: Data, now: Clock, left: Option<nat>): seq<Op> {
    var q := Resume(data);
    if q.cursor.None? && q.done > 0 then SUCCESS_OPS else Loop(w, q, now, left).log
  }

  lemma AttemptUnfolds(w: World, d: Disk, now: Clock, left: Option<nat>)
    ensures Attempt(w, d, now, left).log
            == if w.maxPages <= 0 || left == Some(0) || !Runnable(d.control.job) then []
               else StartOps(d.control.job) + AttemptTail(w, d.data, now, left)
  {
    hide Loop, Resume;
  }

  /** Where a new job starts: nothing checkpointed. */
  function Start(data: Data): Position {
    Position(0, None, {}, data)
  }

  lemma StartSettled(w: World, data: Data)
    requires data.rows == []
    ensures Settled(w, Start(data))
  {
  }

  /** A run that follows `c` up to page `cut` and `now` after it. */
  ghost predicate Spliced(c': Clock, c: Clock, cut: nat, now: Clock) {
    forall j: nat :: c'(j) == if j <= cut then c(j) else now(j)
  }

  /** A crash after any number of an attempt's writes leaves a disk that an
      uninterrupted run passes through. */
  lemma {:induction false} AttemptCrash(w: World, data0: Data, d: Disk, m0: Mark, now: Clock, left: Option<nat>, m: nat)
    returns (mark: Mark, cut: nat)
    requires WellParsed(w) && data0.rows == [] && Passes(w, Start(data0), d, m0)
    requires m <= |Attempt(w, d, now, left).log|
    ensures Passes(w, Start(data0), Land(d, Attempt(w, d, now, left).log[..m]), mark)
    ensures Spliced(mark.clock, m0.clock, cut, now) && cut == Stamped(m0)
    ensures forall n | cut < n <= Stamped(mark) :: Stores(Attempt(w, d, now, left).log[..m], n)
  {
    hide Exec, StepTo, EndOf, FailureAt, OpsAt, Judge, Land, Attempt, Loop, Reach, WellParsed, Resume, Standing,
         PageOps, Stores;
    AttemptUnfolds(w, d, now, left);
    var log := Attempt(w, d, now, left).log;
    var p := Start(data0);
    var m1 := Normalise(w, p, d, m0);
    var b := Reach(w, p, m1.clock, m1.pages).value;
    ReachDone(w, p, m1.clock, m1.pages);
    SplicePasses(w, p, d, m1, b, now);
    var c := Splice(m1.clock, b, m1.writes, now);
    mark := m1.(clock := c);
    cut := b.done + (if m1.writes >= 2 then 1 else 0);
    if log == [] {
      assert log[..m] == [];
      LandNothing(d);
      return;
    }
    var start := StartOps(d.control.job);
    if m <= |start| {
      StartControl(d, m);
      assert log[..m] == start[..m];
      return;
    }
    StartControl(d, |start|);
    assert start[..|start|] == start;
    var d1 := Land(d, start);
    var tail := AttemptTail(w, d.data, now, left);
    assert log[..m] == start + tail[..m - |start|];
    LandSplit(d, start, tail[..m - |start|]);
    StartSettled(w, data0);
    ReachSettled(w, p, m1.clock, m1.pages, b);
    TailCases(w, b, m1.clock, m1.writes, d.data, now, left);
    if m1.writes == |PageOps(w, b, m1.clock)| && EndOf(w, b, m1.clock) == Success {
      EndControl(d1, SUCCESS_OPS, m - |start|);
      SuccessFits(w, b, m1.clock, m1.writes, d.control);
      SpliceFits(w, b, m1.clock, m1.writes, now, d.control.(job := Succeeded));
      SpliceFits(w, b, m1.clock, m1.writes, now, d.control.(job := Running));
    } else {
      mark := LoopCrash(w, p, b, m1.pages, c, m1.writes, d1, now, left, m - |start|);
      forall n | cut < n <= Stamped(mark) ensures Stores(log[..m], n) {
        StoresLater(start, tail[..m - |start|], n);
      }
    }
  }

  lemma TailCases(w: World, b: Position, c: Clock, i: nat, data: Data, now: Clock, left: Option<nat>)
    requires WellParsed(w) && Settled(w, b) && Partway(w, b, c, i, data)
    requires i == |PageOps(w, b, c)| ==> StepTo(w, b, c).None?
    ensures AttemptTail(w, data, now, left)
            == if i == |PageOps(w, b, c)| && EndOf(w, b, c) == Success then SUCCESS_OPS
               else Loop(w, b.(data := data), now, left).log
  {
    hide Exec, PageOps, WellParsed, Loop, EndOf, StepTo;
    ResumePartway(w, b, c, i, data);
  }

  lemma SuccessFits(w: World, b: Position, c: Clock, i: nat, ctl: Control)
    requires ControlFits(w, b, c, i, ctl) && StepTo(w, b, c).None?
    requires i == |PageOps(w, b, c)| && EndOf(w, b, c) == Success
    ensures ControlFits(w, b, c, i, ctl.(job := Succeeded)) && ControlFits(w, b, c, i, ctl.(job := Running))
  {
    hide PageOps, StepTo, EndOf;
  }

  /** The job state an unpaused attempt leaves. */
  function JobAfter(outcome: Outcome): JobState {
    match outcome
    case Success => Succeeded
    case Failing(_) => Failed
    case _ => Running
  }

  lemma LoopOutcome(w: World, p: Position, clock: Clock)
    ensures Loop(w, p, clock, None).outcome
            == match StepTo(w, p, clock)
               case Some(q) => Loop(w, q, clock, None).outcome
               case None => EndOf(w, p, clock)
  {
    hide PageOps, Exec, PageCapture;
  }

  lemma ExecDone(d: Data, ops: seq<DataOp>)
    ensures Exec(d, ops[..Exec(d, ops).done]).data == Exec(d, ops).data
  {
    hide ApplyData;
    ExecPrefix(d, ops, Exec(d, ops).done);
  }

  lemma TailLands(w: World, q: Position, now: Clock, d: Disk)
    requires StepTo(w, q, now).None? && d.control.job == Running
    ensures Land(d, LoopTail(w, q, now, None)).data == d.data
    ensures Land(d, LoopTail(w, q, now, None)).control.job == JobAfter(EndOf(w, q, now))
  {
    hide PageOps, Exec, Loop, Land, StepTo;
    var tail := LoopTail(w, q, now, None);
    match EndOf(w, q, now)
    case Success =>
      EndControl(d, SUCCESS_OPS, 2);
      assert SUCCESS_OPS[..2] == SUCCESS_OPS;
    case Failing(_) =>
      var ops := FailOps(FailureAt(w, q).capture, FailureAt(w, q).class_);
      FailControl(d, FailureAt(w, q), 3);
      assert ops[..3] == ops;
    case _ => LandNothing(d);
  }

  /** The pages whose metadata an uninterrupted run from `p` stores. */
  function Stamps(w: World, p: Position, clock: Clock): nat
    decreases w.maxPages - p.done
  {
    match StepTo(w, p, clock)
    case Some(q) => 1 + Stamps(w, q, clock)
    case None => if Exec(p.data, PageOps(w, p, clock)).done >= 2 then 1 else 0
  }

  lemma {:induction false} StampsFromReach(w: World, p: Position, clock: Clock, k: nat)
    requires Reach(w, p, clock, k).Some?
    ensures Stamps(w, p, clock) == k + Stamps(w, Reach(w, p, clock, k).value, clock)
  {
    hide StepTo, PageOps, Exec;
    if k > 0 { StampsFromReach(w, p, clock, k - 1); }
  }

  /** The loop, left alone, ends where the uninterrupted run ends. */
  lemma {:induction false} LoopCompletes(w: World, b: Position, c: Clock, i: nat, d: Disk, now: Clock)
    requires WellParsed(w) && Follows(c, b, i, now) && d.control.job == Running
    requires Partway(w, b, c, i, d.data)
    ensures var run := Loop(w, b.(data := d.data), now, None);
            && run.outcome == Ideal(w, b, c).outcome
            && Land(d, run.log).data == Ideal(w, b, c).data
            && Land(d, run.log).control.job == JobAfter(run.outcome)
            && forall n | b.done + (if i >= 2 then 1 else 0) < n <= b.done + Stamps(w, b, c) :: Stores(run.log, n)
    decreases w.maxPages - b.done
  {
    hide PageOps, Exec, StepTo, EndOf, Loop, Land, WellParsed, FailureAt, Stores;
    var q := b.(data := d.data);
    var ops := PageOps(w, b, c);
    var done := Exec(b.data, ops).done;
    SamePage(w, b, c, i, d.data, now);
    LoopUnfolds(w, q, now, None);
    LoopOutcome(w, q, now);
    SamePagePrefix(w, b, c, i, d.data, done);
    LandData(d, ops, done, done);
    var written := Lift(ops[..done]);
    assert written[..done] == written;
    var tail := LoopTail(w, q, now, None);
    var d1 := d.(data := Exec(d.data, ops[..done]).data);
    LandSplit(d, written, tail);
    assert Land(d, Loop(w, q, now, None).log) == Land(d1, tail);
    var log := Loop(w, q, now, None).log;
    if done >= 2 {
      StoresFirst(w, q, now, None, |log|);
      assert log[..|log|] == log;
    }
    if StepTo(w, b, c).Some? {
      var next := StepTo(w, b, c).value;
      StepDone(w, b, c);
      StepComplete(w, b, c);
      NextData(w, b, c, d1.data, next);
      LoopCompletes(w, next, c, 0, d1, now);
      TwoWrites(w, b, c);
      forall n | b.done + 1 < n <= b.done + Stamps(w, b, c) ensures Stores(log, n) {
        StoresLater(written, tail, n);
      }
    } else {
      TailLands(w, q, now, d1);
      ExecDone(b.data, ops);
    }
  }

  /** When the page that ends the run is complete, its data is the final data. */
  lemma CompleteIsIdeal(w: World, p: Position, b: Position, k: nat, c: Clock, i: nat, data: Data)
    requires Reach(w, p, c, k) == Some(b) && Partway(w, b, c, i, data) && PageComplete(w, b, c, i)
    ensures Ideal(w, p, c) == Finished(data, EndOf(w, b, c))
  {
    hide PageOps, Exec, StepTo, EndOf, Reach;
    IdealFromReach(w, p, c, k);
    var ops := PageOps(w, b, c);
    assert ops[..i] == ops;
  }

  /** And all its metadata is stored. */
  lemma CompleteStamps(w: World, p: Position, b: Position, k: nat, c: Clock, i: nat, data: Data)
    requires Reach(w, p, c, k) == Some(b) && Partway(w, b, c, i, data) && PageComplete(w, b, c, i)
    ensures Stamps(w, p, c) == Stamped(Mark(c, k, i))
  {
    hide PageOps, Exec, StepTo, Reach;
    StampsFromReach(w, p, c, k);
  }

  /** An attempt left alone on a runnable job ends where an uninterrupted run
      ends. */
  lemma {:induction false} AttemptCompletes(w: World, data0: Data, d: Disk, m0: Mark, now: Clock)
    returns (clock: Clock, cut: nat)
    requires WellParsed(w) && data0.rows == [] && Passes(w, Start(data0), d, m0)
    requires w.maxPages > 0 && Runnable(d.control.job)
    ensures var run := Attempt(w, d, now, None);
            var ideal := Ideal(w, Start(data0), clock);
            && run.outcome == ideal.outcome
            && Land(d, run.log).data == ideal.data
            && Land(d, run.log).control.job == JobAfter(ideal.outcome)
    ensures Spliced(clock, m0.clock, cut, now) && cut == Stamped(m0)
    ensures forall n | cut < n <= Stamps(w, Start(data0), clock) :: Stores(Attempt(w, d, now, None).log, n)
  {
    hide Exec, StepTo, EndOf, FailureAt, OpsAt, Judge, Land, Attempt, Loop, Reach, WellParsed, Resume, Standing,
         PageOps, Ideal, Stores, Stamps;
    AttemptUnfolds(w, d, now, None);
    AttemptOutcome(w, d, now);
    var log := Attempt(w, d, now, None).log;
    var p := Start(data0);
    var m := Normalise(w, p, d, m0);
    var b := Reach(w, p, m.clock, m.pages).value;
    ReachDone(w, p, m.clock, m.pages);
    SplicePasses(w, p, d, m, b, now);
    clock := Splice(m.clock, b, m.writes, now);
    cut := b.done + (if m.writes >= 2 then 1 else 0);
    var start := StartOps(d.control.job);
    StartControl(d, |start|);
    assert start[..|start|] == start;
    var d1 := Land(d, start);
    var tail := AttemptTail(w, d.data, now, None);
    LandSplit(d, start, tail);
    StartSettled(w, data0);
    ReachSettled(w, p, m.clock, m.pages, b);
    TailCases(w, b, m.clock, m.writes, d.data, now, None);
    OutcomeCases(w, b, m.clock, m.writes, d.data, now);
    if m.writes == |PageOps(w, b, m.clock)| && EndOf(w, b, m.clock) == Success {
      EndControl(d1, SUCCESS_OPS, 2);
      assert SUCCESS_OPS[..2] == SUCCESS_OPS;
      SuccessFits(w, b, m.clock, m.writes, d.control);
      SpliceFits(w, b, m.clock, m.writes, now, d.control.(job := Succeeded));
      CompleteIsIdeal(w, p, b, m.pages, clock, m.writes, d.data);
      CompleteStamps(w, p, b, m.pages, clock, m.writes, d.data);
    } else {
      LoopCompletes(w, b, clock, m.writes, d1, now);
      IdealFromReach(w, p, clock, m.pages);
      StampsFromReach(w, p, clock, m.pages);
      forall n | cut < n <= Stamps(w, p, clock) ensures Stores(log, n) {
        StoresLater(start, tail, n);
      }
    }
  }

  function TailOutcome(w: World, data: Data, now: Clock): Outcome {
    var q := Resume(data);
    if q.cursor.None? && q.done > 0 then Success else Loop(w, q, now, None).outcome
  }

  lemma AttemptOutcome(w: World, d: Disk, now: Clock)
    requires w.maxPages > 0 && Runnable(d.control.job)
    ensures Attempt(w, d, now, None).outcome == TailOutcome(w, d.data, now)
  {
    hide Loop, Resume;
  }

  lemma OutcomeCases(w: World, b: Position, c: Clock, i: nat, data: Data, now: Clock)
    requires WellParsed(w) && Settled(w, b) && Partway(w, b, c, i, data)
    requires i == |PageOps(w, b, c)| ==> StepTo(w, b, c).None?
    ensures TailOutcome(w, data, now)
            == if i == |PageOps(w, b, c)| && EndOf(w, b, c) == Success then Success
               else Loop(w, b.(data := data), now, None).outcome
  {
    hide Exec, PageOps, WellParsed, Loop, EndOf, StepTo;
    ResumePartway(w, b, c, i, data);
  }
}
