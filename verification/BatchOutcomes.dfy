/** What a batch run records of each capture, told by the capture's own end. */
module BatchOutcomes {
  import opened Basics
  import opened Sorting
  import opened Strings
  import opened TextOrder
  import opened Batch
  import opened BatchResume

  /** The settled and incomplete entries a run starts from. */
  function Loads(d: Files, ordered: seq<Target>, resume: bool): map<Target, Entry> {
    if resume && Previous(d, ordered).Ok? then Previous(d, ordered).value.previous else map[]
  }

  /** The entry says how the capture ended. */
  ghost predicate Tells(e: Entry, a: Attempted) {
    && (e.state == Succeeded <==> a.Captured?)
    && (e.state == Incomplete <==> a.Interrupt? || a.Recoverable?)
    && (e.state == Stopped <==> a.Stop?)
    && (e.state == Failed <==> a.Broken?)
    && (a.Captured? ==> e.errorType == None)
    && (a.Interrupt? ==> e.errorType == Some("KeyboardInterrupt"))
    && (a.Stop? || a.Recoverable? || a.Broken? ==> e.errorType == Some(a.errorType))
    && e.stopReason == (if a.Stop? then Some(a.reason) else None)
  }

  /** The entry holds what the capture returned. */
  ghost predicate Holds(e: Entry, c: CaptureResult) {
    var ids := set i | i in c.identifiers;
    && e.runId == Some(RunHash(c.runId))
    && e.count == |ids| && e.identifierHash == Some(SetHash(ids))
    && e.normalized == Some(c.normalized) && e.raw == Some(c.raw)
  }

  lemma EntryTells(t: Target, previous: map<Target, Entry>, capture: Target -> Attempted)
    requires t !in previous || previous[t].state == Incomplete
    ensures var e := EntryFor(t, previous, capture);
            && e.target == t && Tells(e, capture(t))
            && e.attempts == (if t in previous then previous[t].attempts + 1 else 1)
            && (capture(t).Captured? ==> Holds(e, capture(t).result))
            && (!capture(t).Captured? ==>
                  e.count == 0 && (e.runId, e.identifierHash, e.normalized, e.raw) == (None, None, None, None))
  {
    hide SortedUnique;
    if capture(t).Captured? {
      var ids := capture(t).result.identifiers;
      UniqueIsSorted(ids);
      DistinctSize(SortedUnique(ids));
      assert Elements(ids) == set i | i in ids;
    }
  }

  /** Every entry of a run: of a captured target, how the capture ended and what it
      returned, with one attempt more; of another, the settled entry it had. */
  lemma {:induction false} EveryEntryTells(
    d: Files, targets: seq<Target>, https: string -> bool, capture: Target -> Attempted, resume: bool, k: nat)
    requires !RunBatch(d, targets, https, capture, resume).ended.Rejected?
    requires k < |GroupsOf(RunBatch(d, targets, https, capture, resume).ended)|
    ensures var run := RunBatch(d, targets, https, capture, resume);
            var ordered := OrderedTargets(targets, https).value;
            var previous := Loads(d, ordered, resume);
            var e := GroupsOf(run.ended)[k];
            && k < |ordered| && e.target == ordered[k]
            && (ordered[k] in run.called <==>
                  ordered[k] !in previous || previous[ordered[k]].state == Incomplete)
            && (ordered[k] !in run.called ==> e == previous[ordered[k]])
            && (ordered[k] in run.called ==>
                  && Tells(e, capture(ordered[k]))
                  && e.attempts == (if ordered[k] in previous then previous[ordered[k]].attempts + 1 else 1)
                  && (capture(ordered[k]).Captured? ==> Holds(e, capture(ordered[k]).result))
                  && (!capture(ordered[k]).Captured? ==>
                        e.count == 0 && (e.runId, e.identifierHash, e.normalized, e.raw) == (None, None, None, None)))
  {
    hide OrderedTargets, Loop, Previous, Fits, EndsAt, ToCapture, EntryFor, Tells, Holds, ProgressOps;
    var ordered := OrderedTargets(targets, https).value;
    var run := RunBatch(d, targets, https, capture, resume);
    RunOutline(d, targets, https, capture, resume);
    var previous := Loads(d, ordered, resume);
    var t := ordered[k];
    CapturedAre(ordered[..|GroupsOf(run.ended)|], previous, t);
    if t in previous && previous[t].state != Incomplete {
      SettledEntry(t, previous, capture);
    } else {
      EntryTells(t, previous, capture);
    }
  }

  lemma SettledEntry(t: Target, previous: map<Target, Entry>, capture: Target -> Attempted)
    requires t in previous && previous[t].state != Incomplete
    ensures EntryFor(t, previous, capture) == previous[t]
  {
  }

  /** A run's outline, over the entries it loads. */
  lemma RunOutline(
    d: Files, targets: seq<Target>, https: string -> bool, capture: Target -> Attempted, resume: bool)
    requires !RunBatch(d, targets, https, capture, resume).ended.Rejected?
    ensures OrderedTargets(targets, https).Ok?
    ensures var run := RunBatch(d, targets, https, capture, resume);
            var ordered := OrderedTargets(targets, https).value;
            var n := |GroupsOf(run.ended)|;
            && Distinct(ordered) && n <= |ordered|
            && Outline(ordered, 0, Loads(d, ordered, resume), capture, run)
            && (forall k | 0 <= k < n :: GroupsOf(run.ended)[k].target == ordered[k])
            && run.called == ToCapture(ordered[..n], Loads(d, ordered, resume))
  {
    hide OrderedTargets, Loop, Previous, Fits, EndsAt, ToCapture, EntryFor, ProgressOps, TargetBefore;
    var ordered := OrderedTargets(targets, https).value;
    OrderedTargetsSorted(targets, targets, https);
    var run := RunBatch(d, targets, https, capture, resume);
    if resume {
      var loaded := Previous(d, ordered).value;
      LoadedFits(d, ordered);
      LoopOutline(ordered, 0, Work([], loaded.identifiers), loaded.previous, capture);
    } else {
      FreshFits(ordered);
      LoopOutline(ordered, 0, Work([], map[]), map[], capture);
    }
    assert ordered[0..|GroupsOf(run.ended)|] == ordered[..|GroupsOf(run.ended)|];
  }

  /** The target's capture lets the run go on, or it was settled without a stop. */
  ghost predicate GoesOn(run: BatchRun, t: Target, e: Entry, capture: Target -> Attempted) {
    if t in run.called then !capture(t).Interrupt? && !capture(t).Stop? else e.state != Stopped
  }

  /** A run leaves targets out exactly behind a stop or an interrupt. */
  lemma {:induction false} LeavesOutBehind(
    d: Files, targets: seq<Target>, https: string -> bool, capture: Target -> Attempted, resume: bool, k: nat)
    requires !RunBatch(d, targets, https, capture, resume).ended.Rejected?
    requires k < |GroupsOf(RunBatch(d, targets, https, capture, resume).ended)|
    ensures var run := RunBatch(d, targets, https, capture, resume);
            var ordered := OrderedTargets(targets, https).value;
            var groups := GroupsOf(run.ended);
            var n := |groups|;
            && n <= |ordered|
            && (k < n - 1 ==> GoesOn(run, ordered[k], groups[k], capture))
            && (k == n - 1 && n < |ordered| ==> !GoesOn(run, ordered[k], groups[k], capture))
            && (run.ended.Interrupted? <==> ordered[n - 1] in run.called && capture(ordered[n - 1]).Interrupt?)
  {
    hide OrderedTargets, Loop, Previous, Fits, EntryFor, Tells, Holds, ProgressOps, ToCapture;
    var ordered := OrderedTargets(targets, https).value;
    var run := RunBatch(d, targets, https, capture, resume);
    RunOutline(d, targets, https, capture, resume);
    EveryEntryTells(d, targets, https, capture, resume, k);
    EveryEntryTells(d, targets, https, capture, resume, |GroupsOf(run.ended)| - 1);
  }

  /** After a run left alone, a resume captures again exactly what was interrupted or
      failed recoverably and what was not reached, as far as it gets; so never a
      target that broke, stopped or succeeded. */
  lemma {:induction false} CapturedAgain(
    d: Files, targets: seq<Target>, https: string -> bool, capture: Target -> Attempted, resume: bool,
    later: Target -> Attempted, k: nat)
    requires !RunBatch(d, targets, https, capture, resume).ended.Rejected?
    requires var left := PutAll(d, RunBatch(d, targets, https, capture, resume).log);
             k < |GroupsOf(RunBatch(left, targets, https, later, true).ended)|
    ensures var run := RunBatch(d, targets, https, capture, resume);
            var ordered := OrderedTargets(targets, https).value;
            var groups := GroupsOf(run.ended);
            var again := RunBatch(PutAll(d, run.log), targets, https, later, true);
            && k < |ordered|
            && (ordered[k] in again.called <==> k >= |groups| || groups[k].state == Incomplete)
            && (ordered[k] in run.called && (capture(ordered[k]).Broken? || capture(ordered[k]).Stop?
                                             || capture(ordered[k]).Captured?) ==>
                  ordered[k] !in again.called && GroupsOf(again.ended)[k] == groups[k])
  {
    hide OrderedTargets, Loop, Fits, EndsAt, ToCapture, EntryFor, Holds, ProgressOps, PutAll, Outline;
    var ordered := OrderedTargets(targets, https).value;
    var run := RunBatch(d, targets, https, capture, resume);
    var e := PutAll(d, run.log);
    RunOutline(d, targets, https, capture, resume);
    RunResumes(d, targets, https, capture, resume);
    RunOutline(e, targets, https, later, true);
    EveryEntryTells(e, targets, https, later, true, k);
    var n := |GroupsOf(run.ended)|;
    if k < n {
      EveryEntryTells(d, targets, https, capture, resume, k);
    } else {
      assert ordered[k] !in ordered[..n];
      CapturedAre(ordered[..n], Loads(d, ordered, resume), ordered[k]);
    }
  }

  // -------------------------------------------------------------- the hashes

  /** The aggregate hashes are over the succeeded entries' own hashes. */
  ghost predicate HashesTell(groups: seq<Entry>, h: Hashes) {
    && (forall i :: i in h.identifiers.values <==>
          exists e | e in groups ::
            e.state == Succeeded && e.identifierHash.Some? && i in e.identifierHash.value.values)
    && (forall x :: x in h.normalized.values <==>
          x != "" && exists e | e in groups :: e.state == Succeeded && e.normalized == Some(x))
    && (forall x :: x in h.raw.values <==>
          x != "" && exists e | e in groups :: e.state == Succeeded && e.raw == Some(x))
  }

  lemma WorkHashesTell(ordered: seq<Target>, i: nat, work: Work, previous: map<Target, Entry>)
    requires Fits(ordered, i, work, previous)
    ensures HashesTell(work.groups, HashesOf(work.groups, work.identifiers))
  {
    var h := HashesOf(work.groups, work.identifiers);
    forall e | e in work.groups ensures Matched(work.identifiers, e) {
      var k :| 0 <= k < i && work.groups[k] == e;
    }
    forall x ensures x in h.identifiers.values <==>
                       exists e | e in work.groups ::
                         e.state == Succeeded && e.identifierHash.Some? && x in e.identifierHash.value.values
    {
      if x in h.identifiers.values {
        var e :| e in Results(work.groups) && e.target in work.identifiers && x in work.identifiers[e.target];
        assert x in Elements(work.identifiers[e.target]);
      }
      if exists e | e in work.groups ::
           e.state == Succeeded && e.identifierHash.Some? && x in e.identifierHash.value.values
      {
        var e :| e in work.groups && e.state == Succeeded && e.identifierHash.Some?
          && x in e.identifierHash.value.values;
        assert e in Results(work.groups) && x in work.identifiers[e.target];
      }
    }
    forall x ensures x in h.normalized.values <==>
                       x != "" && exists e | e in work.groups :: e.state == Succeeded && e.normalized == Some(x)
    {
      if exists e | e in work.groups :: e.state == Succeeded && e.normalized == Some(x) {
        var e :| e in work.groups && e.state == Succeeded && e.normalized == Some(x);
        assert e in Results(work.groups);
      }
    }
    forall x ensures x in h.raw.values <==>
                       x != "" && exists e | e in work.groups :: e.state == Succeeded && e.raw == Some(x)
    {
      if exists e | e in work.groups :: e.state == Succeeded && e.raw == Some(x) {
        var e :| e in work.groups && e.state == Succeeded && e.raw == Some(x);
        assert e in Results(work.groups);
      }
    }
  }

  lemma {:induction false} LoopHashesTell(
    ordered: seq<Target>, i: nat, work: Work, previous: map<Target, Entry>, capture: Target -> Attempted)
    requires i <= |ordered| && Fits(ordered, i, work, previous)
    requires Loop(ordered, i, work, previous, capture).ended.Finished?
    ensures var ended := Loop(ordered, i, work, previous, capture).ended;
            HashesTell(ended.groups, ended.hashes)
    decreases |ordered| - i
  {
    hide EntryFor, ProgressOps, TurnWork, EndsAt, Loop, TurnOps, Fits, HashesTell, HashesOf;
    if i == |ordered| {
      LoopDone(ordered, work, previous, capture);
      WorkHashesTell(ordered, i, work, previous);
    } else {
      var next := TurnWork(work, ordered[i], previous, capture);
      TurnFits(ordered, i, work, previous, capture);
      LoopTurn(ordered, i, work, previous, capture);
      if EndsAt(ordered[i], previous, capture) {
        WorkHashesTell(ordered, i + 1, next, previous);
      } else {
        LoopHashesTell(ordered, i + 1, next, previous, capture);
      }
    }
  }

  /** Whatever it started from, a finished run's aggregate hashes are over exactly
      what its succeeded entries hold. */
  lemma {:induction false} FinishedHashesTell(
    d: Files, targets: seq<Target>, https: string -> bool, capture: Target -> Attempted, resume: bool)
    requires RunBatch(d, targets, https, capture, resume).ended.Finished?
    ensures var ended := RunBatch(d, targets, https, capture, resume).ended;
            HashesTell(ended.groups, ended.hashes)
  {
    hide OrderedTargets, Loop, Previous, Fits, HashesTell, ProgressOps, TargetBefore;
    var ordered := OrderedTargets(targets, https).value;
    OrderedTargetsSorted(targets, targets, https);
    if resume {
      var loaded := Previous(d, ordered).value;
      LoadedFits(d, ordered);
      LoopHashesTell(ordered, 0, Work([], loaded.identifiers), loaded.previous, capture);
    } else {
      FreshFits(ordered);
      LoopHashesTell(ordered, 0, Work([], map[]), map[], capture);
    }
  }

  // ------------------------------------------------------------ the receipts

  /** Receipts say that the batch is running until the one that ends a finished run,
      which has the hashes. */
  ghost predicate ReceiptsSay(run: BatchRun) {
    forall i | 0 <= i < |run.log| && run.log[i].PutReceipt? ::
      var r := run.log[i].receipt;
      if run.ended.Finished? && i == |run.log| - 1 then
        r.status != Running && r.hashes == Some(run.ended.hashes) && r.groups == run.ended.groups
      else r.status == Running && r.hashes == None
  }

  lemma ReceiptsLater(ops: seq<FileOp>, calls: seq<Target>, run: BatchRun)
    requires ReceiptsSay(run) && (run.ended.Finished? ==> run.log != [])
    requires forall op | op in ops && op.PutReceipt? :: op.receipt.status == Running && op.receipt.hashes == None
    ensures ReceiptsSay(Then(ops, calls, run))
  {
    var log := ops + run.log;
    forall i | 0 <= i < |log| && log[i].PutReceipt?
      ensures var r := log[i].receipt;
              if run.ended.Finished? && i == |log| - 1 then
                r.status != Running && r.hashes == Some(run.ended.hashes) && r.groups == run.ended.groups
              else r.status == Running && r.hashes == None
    {
      if i < |ops| { assert log[i] in ops; } else { assert log[i] == run.log[i - |ops|]; }
    }
  }

  lemma ProgressRuns(ordered: seq<Target>, work: Work)
    ensures forall op | op in ProgressOps(ordered, work) && op.PutReceipt? ::
              op.receipt.status == Running && op.receipt.hashes == None
  {
  }

  lemma FinishSays(ordered: seq<Target>, i: nat, work: Work, previous: map<Target, Entry>)
    requires Fits(ordered, i, work, previous)
    ensures ReceiptsSay(Finish(ordered, work)) && Finish(ordered, work).log != []
  {
    hide Fits, HashesOf;
    FinishFits(ordered, i, work, previous);
  }

  lemma {:induction false} LoopSays(
    ordered: seq<Target>, i: nat, work: Work, previous: map<Target, Entry>, capture: Target -> Attempted)
    requires i <= |ordered| && Fits(ordered, i, work, previous)
    ensures var run := Loop(ordered, i, work, previous, capture);
            ReceiptsSay(run) && (run.ended.Finished? ==> run.log != [])
    decreases |ordered| - i
  {
    hide EntryFor, ProgressOps, TurnWork, EndsAt, Loop, Fits, ReceiptsSay, Finish, Settled;
    if i == |ordered| {
      LoopDone(ordered, work, previous, capture);
      FinishSays(ordered, i, work, previous);
    } else {
      var t := ordered[i];
      var next := TurnWork(work, t, previous, capture);
      var ops := TurnOps(ordered, next, t, previous);
      var calls := if Settled(previous, t) then [] else [t];
      TurnFits(ordered, i, work, previous, capture);
      LoopTurn(ordered, i, work, previous, capture);
      ProgressRuns(ordered, next);
      if EndsAt(t, previous, capture) {
        FinishSays(ordered, i + 1, next, previous);
        ReceiptsLater(ops, calls, Finish(ordered, next));
        InterruptedSays(BatchRun(ops, calls, Interrupted(next.groups)));
      } else {
        LoopSays(ordered, i + 1, next, previous, capture);
        var rest := Loop(ordered, i + 1, next, previous, capture);
        ReceiptsLater(ops, calls, rest);
        assert Loop(ordered, i, work, previous, capture) == Then(ops, calls, rest);
        assert |Then(ops, calls, rest).log| == |ops| + |rest.log|;
      }
    }
  }

  lemma InterruptedSays(run: BatchRun)
    requires run.ended.Interrupted?
    requires forall op | op in run.log && op.PutReceipt? :: op.receipt.status == Running && op.receipt.hashes == None
    ensures ReceiptsSay(run)
  {
  }

  /** So, wherever a run is killed, its receipt says running, and only that of a
      finished run has an end and its hashes. */
  lemma {:induction false} EveryReceiptSays(
    d: Files, targets: seq<Target>, https: string -> bool, capture: Target -> Attempted, resume: bool)
    ensures ReceiptsSay(RunBatch(d, targets, https, capture, resume))
  {
    hide OrderedTargets, Loop, Previous, Fits, ReceiptsSay, ProgressOps, TargetBefore;
    NothingSaid(RunBatch(d, targets, https, capture, resume));
    if OrderedTargets(targets, https).Ok? {
      var ordered := OrderedTargets(targets, https).value;
      OrderedTargetsSorted(targets, targets, https);
      if !resume {
        FreshFits(ordered);
        LoopSays(ordered, 0, Work([], map[]), map[], capture);
        ProgressRuns(ordered, Work([], map[]));
        ReceiptsLater(ProgressOps(ordered, Work([], map[])), [], Loop(ordered, 0, Work([], map[]), map[], capture));
      } else if Previous(d, ordered).Ok? {
        var loaded := Previous(d, ordered).value;
        LoadedFits(d, ordered);
        LoopSays(ordered, 0, Work([], loaded.identifiers), loaded.previous, capture);
      }
    }
  }

  lemma NothingSaid(run: BatchRun)
    ensures run.log == [] ==> ReceiptsSay(run)
  {
  }

  /** Receipt and sidecar take turns, the receipt first. */
  ghost predicate TakesTurns(log: seq<FileOp>) {
    forall i | 0 <= i < |log| :: log[i].PutReceipt? <==> i % 2 == 0
  }

  lemma TurnsLater(a: seq<FileOp>, b: seq<FileOp>)
    requires TakesTurns(a) && TakesTurns(b) && |a| % 2 == 0
    ensures TakesTurns(a + b)
  {
    forall i | 0 <= i < |a + b| ensures (a + b)[i].PutReceipt? <==> i % 2 == 0 {
      if i >= |a| { assert (a + b)[i] == b[i - |a|]; }
    }
  }

  lemma {:induction false} LoopTakesTurns(
    ordered: seq<Target>, i: nat, work: Work, previous: map<Target, Entry>, capture: Target -> Attempted)
    requires i <= |ordered| && Fits(ordered, i, work, previous)
    ensures TakesTurns(Loop(ordered, i, work, previous, capture).log)
    decreases |ordered| - i
  {
    hide EntryFor, TurnWork, EndsAt, Loop, Fits, Finish, Settled, ReceiptOf, SidecarOf;
    if i == |ordered| {
      LoopDone(ordered, work, previous, capture);
      FinishFits(ordered, i, work, previous);
    } else {
      var t := ordered[i];
      var next := TurnWork(work, t, previous, capture);
      var ops := TurnOps(ordered, next, t, previous);
      TurnFits(ordered, i, work, previous, capture);
      LoopTurn(ordered, i, work, previous, capture);
      if EndsAt(t, previous, capture) {
        FinishFits(ordered, i + 1, next, previous);
        TurnsLater(ops, Finish(ordered, next).log);
      } else {
        LoopTakesTurns(ordered, i + 1, next, previous, capture);
        TurnsLater(ops, Loop(ordered, i + 1, next, previous, capture).log);
      }
    }
  }

  /** So a kill leaves a sidecar that is never ahead of its receipt. */
  lemma {:induction false} EveryRunTakesTurns(
    d: Files, targets: seq<Target>, https: string -> bool, capture: Target -> Attempted, resume: bool)
    ensures TakesTurns(RunBatch(d, targets, https, capture, resume).log)
  {
    hide OrderedTargets, Loop, Previous, Fits, TargetBefore, ReceiptOf, SidecarOf;
    if OrderedTargets(targets, https).Ok? {
      var ordered := OrderedTargets(targets, https).value;
      OrderedTargetsSorted(targets, targets, https);
      if !resume {
        FreshFits(ordered);
        LoopTakesTurns(ordered, 0, Work([], map[]), map[], capture);
        TurnsLater(ProgressOps(ordered, Work([], map[])), Loop(ordered, 0, Work([], map[]), map[], capture).log);
      } else if Previous(d, ordered).Ok? {
        var loaded := Previous(d, ordered).value;
        LoadedFits(d, ordered);
        LoopTakesTurns(ordered, 0, Work([], loaded.identifiers), loaded.previous, capture);
      }
    }
  }

  // ------------------------------------------------------ targets and resumes

  /** What a batch accepts: one to ten targets with Groups and absolute URLs, no
      Group and no URL twice; and that it takes them in the order of their Groups. */
  lemma {:induction false} AcceptedTargets(targets: seq<Target>, https: string -> bool)
    ensures OrderedTargets(targets, https).Ok? ==>
              var ordered := OrderedTargets(targets, https).value;
              && (forall t :: t in ordered <==> t in targets) && |ordered| == |targets|
              && (forall i, j | 0 <= i < j < |ordered| :: Before(ordered[i].groupId, ordered[j].groupId))
    ensures OrderedTargets(targets, https).Ok?
            <==> && 1 <= |targets| <= 10
                 && (forall t | t in targets :: Strip(t.groupId) != "" && Strip(t.url) != "" && https(t.url))
                 && (forall i, j | 0 <= i < j < |targets| ::
                       targets[i].groupId != targets[j].groupId && targets[i].url != targets[j].url)
  {
    hide Strip, Sort, Before;
    Faultless(targets, https);
    if OrderedTargets(targets, https).Ok? { GroupsInOrder(targets, https); }
    assert forall i | 0 <= i < |targets| :: GroupIds(targets)[i] == targets[i].groupId;
    assert forall i | 0 <= i < |targets| :: Urls(targets)[i] == targets[i].url;
  }

  lemma GroupsInOrder(targets: seq<Target>, https: string -> bool)
    requires OrderedTargets(targets, https).Ok?
    ensures var ordered := OrderedTargets(targets, https).value;
            && (forall t :: t in ordered <==> t in targets) && |ordered| == |targets|
            && (forall i, j | 0 <= i < j < |ordered| :: Before(ordered[i].groupId, ordered[j].groupId))
  {
    hide Strip, Sort, Before, FirstFault;
    var ordered := OrderedTargets(targets, https).value;
    OrderedTargetsSorted(targets, targets, https);
    forall t ensures t in ordered <==> t in targets {
      assert t in Elements(ordered) <==> t in Elements(targets);
    }
    forall i, j | 0 <= i < j < |ordered| ensures Before(ordered[i].groupId, ordered[j].groupId) {
      assert TargetBefore(ordered[i], ordered[j]) && ordered[i] != ordered[j];
      assert ordered[i] in ordered && ordered[j] in ordered;
      var a :| 0 <= a < |targets| && targets[a] == ordered[i];
      var b :| 0 <= b < |targets| && targets[b] == ordered[j];
      assert GroupIds(targets)[a] != GroupIds(targets)[b];
    }
  }

  lemma {:induction false} Faultless(targets: seq<Target>, https: string -> bool)
    ensures FirstFault(targets, https).None?
            <==> forall t | t in targets :: Strip(t.groupId) != "" && Strip(t.url) != "" && https(t.url)
  {
    hide Strip;
    if targets != [] { Faultless(targets[1..], https); }
  }

  /** A resume trusts receipt and sidecar exactly when both are about these targets,
      the receipt lists each at most once, and every succeeded entry has its own
      identifiers in the sidecar; then it loads just those. */
  lemma {:induction false} TrustedFiles(d: Files, expected: seq<Target>)
    requires forall i, j | 0 <= i < j < |expected| :: expected[i] != expected[j]
    ensures Previous(d, expected).Ok?
            <==> d.receipt.Some? && d.sidecar.Some?
                 && var (r, s) := (d.receipt.value, d.sidecar.value);
                    && r.targets == expected && s.targets == expected
                    && r.targetHash == SetHash(Elements(expected)) == s.targetHash
                    && (forall t | t in s.identifiers :: t in expected && Distinct(s.identifiers[t]))
                    && (forall k | 0 <= k < |r.groups| ::
                          && r.groups[k].target in expected
                          && (forall j | 0 <= j < k :: r.groups[j].target != r.groups[k].target)
                          && EntryBacked(s.identifiers, r.groups[k]))
    ensures Previous(d, expected).Ok? ==>
              var loaded := Previous(d, expected).value;
              && loaded.identifiers == d.sidecar.value.identifiers
              && (forall t, e :: t in loaded.previous && loaded.previous[t] == e
                                 <==> e in d.receipt.value.groups && e.target == t)
  {
    hide Elements;
    if d.receipt.Some? && d.sidecar.Some? {
      EntriesCollected(d.receipt.value.groups, expected, d.sidecar.value.identifiers);
    }
  }

  /** A succeeded entry names as many identifiers as are kept, and the same ones. */
  predicate EntryBacked(ids: Identifiers, e: Entry) {
    e.state == Succeeded ==>
      && e.target in ids && e.count == |ids[e.target]|
      && e.identifierHash == Some(SetHash(set i | i in ids[e.target]))
  }

  lemma {:induction false} EntriesCollected(groups: seq<Entry>, expected: seq<Target>, ids: Identifiers)
    ensures CollectEntries(groups, expected, ids).Ok?
            <==> forall k | 0 <= k < |groups| ::
                   && groups[k].target in expected
                   && (forall j | 0 <= j < k :: groups[j].target != groups[k].target)
                   && EntryBacked(ids, groups[k])
    ensures CollectEntries(groups, expected, ids).Ok? ==>
              forall t, e :: t in CollectEntries(groups, expected, ids).value
                             && CollectEntries(groups, expected, ids).value[t] == e
                             <==> e in groups && e.target == t
    decreases |groups|
  {
    hide EntryBacked, Matched;
    if groups != [] {
      var n := |groups| - 1;
      var front := groups[..n];
      EntriesCollected(front, expected, ids);
      BackedMatched(ids, groups[n]);
      assert groups == front + [groups[n]];
      assert forall k | 0 <= k < n :: front[k] == groups[k];
      if CollectEntries(front, expected, ids).Ok? {
        var found := CollectEntries(front, expected, ids).value;
        if groups[n].target in found {
          var e := found[groups[n].target];
          assert e in front;
        }
        if j :| 0 <= j < n && groups[j].target == groups[n].target {
          assert front[j] in front;
        }
      }
    }
  }

  lemma BackedMatched(ids: Identifiers, e: Entry)
    ensures EntryBacked(ids, e) <==> Matched(ids, e)
    ensures e.state == Succeeded && e.target !in ids ==> !Matched(ids, e)
  {
  }
}
