/** Batches over any sequence of runs and resumes, each cut short anywhere. */
module BatchHistory {
  import opened Basics
  import opened TextOrder
  import opened Sorting
  import opened Batch
  import opened BatchResume

  /** One run or resume: what its captures return, and how many of its file
      replacements survive. */
  datatype Session = Session(
    targets: seq<Target>, https: string -> bool, capture: Target -> Attempted, resume: bool, kept: nat)

  function LogOf(d: Files, s: Session): seq<FileOp> {
    RunBatch(d, s.targets, s.https, s.capture, s.resume).log
  }

  function AfterSession(d: Files, s: Session): Files {
    PutAll(d, LogOf(d, s)[..Min(s.kept, |LogOf(d, s)|)])
  }

  function AfterSessions(sessions: seq<Session>): Files
    decreases |sessions|
  {
    if sessions == [] then Files(None, None)
    else AfterSession(AfterSessions(sessions[..|sessions| - 1]), sessions[|sessions| - 1])
  }

  // ---------------------------------------------------------------- origin

  /** The targets session `j` captured. */
  function CalledIn(sessions: seq<Session>, j: nat): seq<Target>
    requires j < |sessions|
  {
    var s := sessions[j];
    RunBatch(AfterSessions(sessions[..j]), s.targets, s.https, s.capture, s.resume).called
  }

  /** Session `j` captured the entry's target, and the entry is what that capture
      returned. */
  predicate MadeIn(sessions: seq<Session>, j: nat, e: Entry)
    requires j < |sessions|
  {
    e.target in CalledIn(sessions, j) && e == EntryOf(e.target, sessions[j].capture(e.target), e.attempts)
  }

  ghost predicate MadeBy(sessions: seq<Session>, e: Entry) {
    exists j | 0 <= j < |sessions| :: MadeIn(sessions, j, e)
  }

  predicate KeptIn(sessions: seq<Session>, j: nat, t: Target, ids: seq<string>)
    requires j < |sessions|
  {
    && t in CalledIn(sessions, j) && sessions[j].capture(t).Captured?
    && ids == SortedUnique(sessions[j].capture(t).result.identifiers)
  }

  ghost predicate KeptBy(sessions: seq<Session>, t: Target, ids: seq<string>) {
    exists j | 0 <= j < |sessions| :: KeptIn(sessions, j, t, ids)
  }

  ghost predicate HonestEntries(sessions: seq<Session>, groups: seq<Entry>) {
    forall e | e in groups :: MadeBy(sessions, e)
  }

  ghost predicate HonestIdentifiers(sessions: seq<Session>, ids: Identifiers) {
    forall t | t in ids :: KeptBy(sessions, t, ids[t])
  }

  /** Every receipt lists a first part of its sorted targets, once each in order,
      with entries its captures made; every sidecar holds captured identifiers. */
  ghost predicate HonestOp(sessions: seq<Session>, op: FileOp) {
    match op
    case PutReceipt(r) =>
      Increasing(TargetBefore, r.targets) && PrefixReceipt(r.targets, r) && HonestEntries(sessions, r.groups)
    case PutSidecar(s) => HonestIdentifiers(sessions, s.identifiers)
  }

  ghost predicate Honest(sessions: seq<Session>, d: Files) {
    && (d.receipt.Some? ==> HonestOp(sessions, PutReceipt(d.receipt.value)))
    && (d.sidecar.Some? ==> HonestOp(sessions, PutSidecar(d.sidecar.value)))
  }

  lemma CalledLater(sessions: seq<Session>, s: Session, j: nat)
    requires j < |sessions|
    ensures CalledIn(sessions + [s], j) == CalledIn(sessions, j)
  {
    hide AfterSessions, RunBatch;
    assert (sessions + [s])[..j] == sessions[..j];
  }

  lemma HonestLater(sessions: seq<Session>, s: Session, d: Files)
    requires Honest(sessions, d)
    ensures Honest(sessions + [s], d)
  {
    hide CalledIn, EntryOf, SortedUnique;
    var more := sessions + [s];
    if d.receipt.Some? {
      forall e | e in d.receipt.value.groups ensures MadeBy(more, e) {
        var j :| 0 <= j < |sessions| && MadeIn(sessions, j, e);
        CalledLater(sessions, s, j);
        assert MadeIn(more, j, e);
      }
    }
    if d.sidecar.Some? {
      var ids := d.sidecar.value.identifiers;
      forall t | t in ids ensures KeptBy(more, t, ids[t]) {
        var j :| 0 <= j < |sessions| && KeptIn(sessions, j, t, ids[t]);
        CalledLater(sessions, s, j);
        assert KeptIn(more, j, t, ids[t]);
      }
    }
  }

  // --------------------------------------------------------------- one run

  ghost predicate HonestWork(sessions: seq<Session>, work: Work) {
    HonestEntries(sessions, work.groups) && HonestIdentifiers(sessions, work.identifiers)
  }

  ghost predicate HonestPrevious(sessions: seq<Session>, previous: map<Target, Entry>) {
    forall t | t in previous :: MadeBy(sessions, previous[t])
  }

  lemma TurnHonest(
    sessions: seq<Session>, j: nat, t: Target, work: Work, previous: map<Target, Entry>)
    requires j < |sessions| && HonestWork(sessions, work) && HonestPrevious(sessions, previous)
    requires !Settled(previous, t) ==> t in CalledIn(sessions, j)
    ensures HonestWork(sessions, TurnWork(work, t, previous, sessions[j].capture))
  {
    hide SortedUnique, CalledIn;
    var capture := sessions[j].capture;
    var next := TurnWork(work, t, previous, capture);
    var e := EntryFor(t, previous, capture);
    assert next.groups == work.groups + [e];
    if !Settled(previous, t) { assert MadeIn(sessions, j, e); }
    forall u | u in next.identifiers ensures KeptBy(sessions, u, next.identifiers[u]) {
      if !Settled(previous, t) && u == t && capture(t).Captured? {
        assert KeptIn(sessions, j, t, next.identifiers[t]);
      }
    }
  }

  lemma ProgressHonest(sessions: seq<Session>, ordered: seq<Target>, i: nat, work: Work, previous: map<Target, Entry>)
    requires Fits(ordered, i, work, previous) && HonestWork(sessions, work) && Increasing(TargetBefore, ordered)
    ensures forall op | op in ProgressOps(ordered, work) :: HonestOp(sessions, op)
    ensures forall op | op in Finish(ordered, work).log :: HonestOp(sessions, op)
  {
    hide TargetBefore, Finish;
    FinishFits(ordered, i, work, previous);
  }

  lemma {:induction false} LoopHonest(
    sessions: seq<Session>, j: nat, ordered: seq<Target>, i: nat, work: Work, previous: map<Target, Entry>)
    requires j < |sessions| && i <= |ordered| && Fits(ordered, i, work, previous)
    requires HonestWork(sessions, work) && HonestPrevious(sessions, previous) && Increasing(TargetBefore, ordered)
    requires forall t | t in Loop(ordered, i, work, previous, sessions[j].capture).called :: t in CalledIn(sessions, j)
    ensures forall op | op in Loop(ordered, i, work, previous, sessions[j].capture).log :: HonestOp(sessions, op)
    decreases |ordered| - i
  {
    hide Fits, HonestWork, HonestPrevious, TargetBefore, HonestOp, Finish, ProgressOps, TurnWork, Loop, EndsAt,
         CalledIn;
    var capture := sessions[j].capture;
    if i == |ordered| {
      LoopDone(ordered, work, previous, capture);
      ProgressHonest(sessions, ordered, i, work, previous);
    } else {
      var t := ordered[i];
      var next := TurnWork(work, t, previous, capture);
      TurnFits(ordered, i, work, previous, capture);
      LoopTurn(ordered, i, work, previous, capture);
      assert !Settled(previous, t) ==> t in Loop(ordered, i, work, previous, capture).called;
      TurnHonest(sessions, j, t, work, previous);
      ProgressHonest(sessions, ordered, i + 1, next, previous);
      if !EndsAt(t, previous, capture) { LoopHonest(sessions, j, ordered, i + 1, next, previous); }
    }
  }

  lemma LoadedHonest(sessions: seq<Session>, d: Files, ordered: seq<Target>)
    requires Honest(sessions, d) && Previous(d, ordered).Ok?
    ensures HonestWork(sessions, Work([], Previous(d, ordered).value.identifiers))
    ensures HonestPrevious(sessions, Previous(d, ordered).value.previous)
  {
    hide Elements, TargetBefore;
    CollectedMatch(d.receipt.value.groups, ordered, Previous(d, ordered).value.identifiers);
  }

  /** Whatever a session writes is honest, given what it starts from. */
  lemma SessionHonest(sessions: seq<Session>, j: nat, d: Files)
    requires j < |sessions| && Honest(sessions, d) && d == AfterSessions(sessions[..j])
    ensures forall op | op in LogOf(d, sessions[j]) :: HonestOp(sessions, op)
  {
    hide Loop, OrderedTargets, Previous, TargetBefore, Honest, HonestOp, Fits, ProgressOps, AfterSessions;
    var s := sessions[j];
    if OrderedTargets(s.targets, s.https).Ok? {
      var ordered := OrderedTargets(s.targets, s.https).value;
      OrderedTargetsSorted(s.targets, s.targets, s.https);
      if s.resume {
        if Previous(d, ordered).Ok? {
          var loaded := Previous(d, ordered).value;
          LoadedHonest(sessions, d, ordered);
          LoadedFits(d, ordered);
          LoopHonest(sessions, j, ordered, 0, Work([], loaded.identifiers), loaded.previous);
        }
      } else {
        FreshFits(ordered);
        ProgressHonest(sessions, ordered, 0, Work([], map[]), map[]);
        LoopHonest(sessions, j, ordered, 0, Work([], map[]), map[]);
      }
    }
  }

  lemma {:induction false} PutHonest(sessions: seq<Session>, d: Files, ops: seq<FileOp>)
    requires Honest(sessions, d) && forall op | op in ops :: HonestOp(sessions, op)
    ensures Honest(sessions, PutAll(d, ops))
    decreases |ops|
  {
    hide HonestOp;
    if ops != [] {
      assert ops[|ops| - 1] in ops;
      PutHonest(sessions, d, ops[..|ops| - 1]);
    }
  }

  /** Over any sequence of runs, resumes and crashes the files stay honest. */
  lemma {:induction false} EveryHistoryIsHonest(sessions: seq<Session>)
    ensures Honest(sessions, AfterSessions(sessions))
    decreases |sessions|
  {
    hide HonestOp, LogOf;
    if sessions != [] {
      var n := |sessions| - 1;
      var d := AfterSessions(sessions[..n]);
      EveryHistoryIsHonest(sessions[..n]);
      assert sessions == sessions[..n] + [sessions[n]];
      HonestLater(sessions[..n], sessions[n], d);
      SessionHonest(sessions, n, d);
      var log := LogOf(d, sessions[n]);
      PutHonest(sessions, d, log[..Min(sessions[n].kept, |log|)]);
    }
  }

  /** Session `j` captured `t`, and that produced the entry and the identifiers. */
  ghost predicate Produced(sessions: seq<Session>, j: nat, loaded: Loaded, t: Target)
    requires j < |sessions|
  {
    && t in CalledIn(sessions, j) && sessions[j].capture(t).Captured?
    && var c := sessions[j].capture(t).result;
       && t in loaded.previous && loaded.previous[t] == SuccessEntry(t, c, loaded.previous[t].attempts)
       && t in loaded.identifiers && loaded.identifiers[t] == SortedUnique(c.identifiers)
  }

  /** No resume mixes generations: whenever the two files are accepted, after any
      history, the identifiers loaded for a succeeded entry are exactly those
      returned by the session's capture that produced the entry. */
  lemma {:induction false} ResumeNeverMixes(sessions: seq<Session>, expected: seq<Target>, t: Target)
    requires var p := Previous(AfterSessions(sessions), expected);
             p.Ok? && t in p.value.previous && p.value.previous[t].state == Succeeded
    ensures var loaded := Previous(AfterSessions(sessions), expected).value;
            exists j | 0 <= j < |sessions| :: Produced(sessions, j, loaded, t)
  {
    hide AfterSessions, Elements, Before, SortedUnique, Honest, EntryOf, Previous, CalledIn;
    var d := AfterSessions(sessions);
    var loaded := Previous(d, expected).value;
    EveryHistoryIsHonest(sessions);
    LoadedHonest(sessions, d, expected);
    LoadedMatch(d, expected);
    var j := OneOrigin(sessions, loaded, t);
    assert Produced(sessions, j, loaded, t);
  }

  lemma LoadedMatch(d: Files, expected: seq<Target>)
    requires Previous(d, expected).Ok?
    ensures var loaded := Previous(d, expected).value;
            forall t | t in loaded.previous ::
              loaded.previous[t].target == t && Matched(loaded.identifiers, loaded.previous[t])
  {
    hide Elements;
    CollectedMatch(d.receipt.value.groups, expected, Previous(d, expected).value.identifiers);
  }

  lemma OneOrigin(sessions: seq<Session>, loaded: Loaded, t: Target) returns (j: nat)
    requires HonestPrevious(sessions, loaded.previous) && HonestIdentifiers(sessions, loaded.identifiers)
    requires t in loaded.previous && loaded.previous[t].target == t && loaded.previous[t].state == Succeeded
    requires Matched(loaded.identifiers, loaded.previous[t])
    ensures j < |sessions| && t in CalledIn(sessions, j) && sessions[j].capture(t).Captured?
    ensures var c := sessions[j].capture(t).result;
            && loaded.previous[t] == SuccessEntry(t, c, loaded.previous[t].attempts)
            && t in loaded.identifiers && loaded.identifiers[t] == SortedUnique(c.identifiers)
  {
    hide Elements, SortedUnique, CalledIn;
    var e := loaded.previous[t];
    j :| 0 <= j < |sessions| && MadeIn(sessions, j, e);
    var i :| 0 <= i < |sessions| && KeptIn(sessions, i, t, loaded.identifiers[t]);
    SameListing(sessions[j].capture(t).result.identifiers, sessions[i].capture(t).result.identifiers);
  }

  lemma SameListing(a: seq<string>, b: seq<string>)
    requires Elements(SortedUnique(a)) == Elements(SortedUnique(b))
    ensures SortedUnique(a) == SortedUnique(b)
  {
    hide Before, Sort;
    TextIsOrdered();
    UniqueIsSorted(a);
    UniqueIsSorted(b);
    OneListing(Before, SortedUnique(a), SortedUnique(b));
  }

  // ------------------------------------------------------------ convergence

  /** Captures of a target return the same result whenever they return one. */
  ghost predicate Plain(capture: Target -> Attempted, result: Target -> CaptureResult) {
    forall t :: capture(t) == Captured(result(t)) || capture(t).Interrupt? || capture(t).Recoverable?
  }

  ghost predicate Steady(capture: Target -> Attempted, result: Target -> CaptureResult) {
    forall t :: capture(t) == Captured(result(t))
  }

  /** The aggregate hashes of all targets' results. */
  ghost function FullHashes(ordered: seq<Target>, result: Target -> CaptureResult): Hashes {
    Hashes(
      SetHash(set t, i | t in ordered && i in result(t).identifiers :: i),
      SetHash(set t | t in ordered && result(t).normalized != "" :: result(t).normalized),
      SetHash(set t | t in ordered && result(t).raw != "" :: result(t).raw))
  }

  ghost predicate Captures(t: Target, e: Entry, ids: Identifiers, result: Target -> CaptureResult) {
    e == SuccessEntry(t, result(t), e.attempts) && t in ids && ids[t] == SortedUnique(result(t).identifiers)
  }

  /** All entries so far are successes with those results. */
  ghost predicate AllCaptured(
    ordered: seq<Target>, i: nat, work: Work, previous: map<Target, Entry>, result: Target -> CaptureResult)
  {
    && |work.groups| == i <= |ordered|
    && (forall k | 0 <= k < i :: Captures(ordered[k], work.groups[k], work.identifiers, result))
    && (forall k | i <= k < |ordered| && Settled(previous, ordered[k]) ::
          Captures(ordered[k], previous[ordered[k]], work.identifiers, result))
  }

  lemma TurnCaptured(
    ordered: seq<Target>, i: nat, work: Work, previous: map<Target, Entry>, capture: Target -> Attempted,
    result: Target -> CaptureResult)
    requires AllCaptured(ordered, i, work, previous, result) && i < |ordered| && Distinct(ordered)
    requires Steady(capture, result)
    ensures AllCaptured(ordered, i + 1, TurnWork(work, ordered[i], previous, capture), previous, result)
    ensures !EndsAt(ordered[i], previous, capture)
  {
    hide SortedUnique;
    var t := ordered[i];
    assert capture(t) == Captured(result(t));
  }

  lemma CapturedHashes(
    ordered: seq<Target>, work: Work, previous: map<Target, Entry>, result: Target -> CaptureResult)
    requires AllCaptured(ordered, |ordered|, work, previous, result)
    ensures HashesOf(work.groups, work.identifiers) == FullHashes(ordered, result)
  {
    hide SortedUnique;
    var groups, ids := work.groups, work.identifiers;
    forall e | e in Results(groups) ensures e.target in ordered && Captures(e.target, e, ids, result) {
      var k :| 0 <= k < |ordered| && groups[k] == e;
    }
    forall t | t in ordered ensures exists e :: e in Results(groups) && e.target == t {
      var k :| 0 <= k < |ordered| && ordered[k] == t;
      assert groups[k] in Results(groups) && groups[k].target == t;
    }
    forall t | t in ordered ensures t in ids && Elements(ids[t]) == Elements(result(t).identifiers) {
      var k :| 0 <= k < |ordered| && ordered[k] == t;
      assert Captures(t, groups[k], ids, result);
      UniqueIsSorted(result(t).identifiers);
    }
    var h, f := HashesOf(groups, ids), FullHashes(ordered, result);
    assert h.normalized == f.normalized && h.raw == f.raw;
    forall i ensures i in h.identifiers.values <==> i in f.identifiers.values {
      if i in h.identifiers.values {
        var e :| e in Results(groups) && e.target in ids && i in ids[e.target];
        assert i in Elements(ids[e.target]);
      }
      if i in f.identifiers.values {
        var t :| t in ordered && i in result(t).identifiers;
        assert i in Elements(ids[t]);
      }
    }
  }

  /** With steady captures the run goes through all targets. */
  lemma {:induction false} LoopCaptured(
    ordered: seq<Target>, i: nat, work: Work, previous: map<Target, Entry>, capture: Target -> Attempted,
    result: Target -> CaptureResult)
    requires i <= |ordered| && Fits(ordered, i, work, previous) && AllCaptured(ordered, i, work, previous, result)
    requires Steady(capture, result)
    ensures var run := Loop(ordered, i, work, previous, capture);
            && run.ended.Finished? && run.ended.hashes == FullHashes(ordered, result)
            && |run.ended.groups| == |ordered|
            && forall e | e in run.ended.groups :: e.state == Succeeded
    decreases |ordered| - i
  {
    hide Fits, AllCaptured, Steady, TurnWork, EndsAt, Loop, FullHashes, EntryFor;
    if i == |ordered| {
      LoopDone(ordered, work, previous, capture);
      FinishFits(ordered, i, work, previous);
      CapturedHashes(ordered, work, previous, result);
      FinishHashes(ordered, work);
      AllSucceeded(ordered, work, previous, result);
    } else {
      TurnFits(ordered, i, work, previous, capture);
      FitsDistinct(ordered, i, work, previous);
      TurnCaptured(ordered, i, work, previous, capture, result);
      LoopTurn(ordered, i, work, previous, capture);
      LoopCaptured(ordered, i + 1, TurnWork(work, ordered[i], previous, capture), previous, capture, result);
    }
  }

  lemma FitsDistinct(ordered: seq<Target>, i: nat, work: Work, previous: map<Target, Entry>)
    requires Fits(ordered, i, work, previous)
    ensures Distinct(ordered)
  {
  }

  lemma FinishHashes(ordered: seq<Target>, work: Work)
    requires Finish(ordered, work).ended.Finished?
    ensures Finish(ordered, work).ended.hashes == HashesOf(work.groups, work.identifiers)
  {
    hide HashesOf;
  }

  lemma AllSucceeded(ordered: seq<Target>, work: Work, previous: map<Target, Entry>, result: Target -> CaptureResult)
    requires AllCaptured(ordered, |ordered|, work, previous, result)
    ensures |work.groups| == |ordered| && forall e | e in work.groups :: e.state == Succeeded
  {
    forall e | e in work.groups ensures e.state == Succeeded {
      var k :| 0 <= k < |ordered| && work.groups[k] == e;
      assert Captures(ordered[k], e, work.identifiers, result);
    }
  }

  /** What a resume loads after plain sessions: settled entries are successes. */
  lemma LoadedCaptured(
    sessions: seq<Session>, ordered: seq<Target>, result: Target -> CaptureResult)
    requires Previous(AfterSessions(sessions), ordered).Ok?
    requires forall j | 0 <= j < |sessions| :: Plain(sessions[j].capture, result)
    ensures var loaded := Previous(AfterSessions(sessions), ordered).value;
            AllCaptured(ordered, 0, Work([], loaded.identifiers), loaded.previous, result)
  {
    hide AfterSessions, Previous, SortedUnique, Honest, CalledIn;
    var d := AfterSessions(sessions);
    var loaded := Previous(d, ordered).value;
    EveryHistoryIsHonest(sessions);
    LoadedHonest(sessions, d, ordered);
    LoadedMatch(d, ordered);
    forall k | 0 <= k < |ordered| && Settled(loaded.previous, ordered[k])
      ensures Captures(ordered[k], loaded.previous[ordered[k]], loaded.identifiers, result)
    {
      var t := ordered[k];
      var e := loaded.previous[t];
      PlainEntry(sessions, e, result);
      var j := OneOrigin(sessions, loaded, t);
      assert Plain(sessions[j].capture, result) && sessions[j].capture(t) == Captured(result(t));
    }
  }

  lemma PlainEntry(sessions: seq<Session>, e: Entry, result: Target -> CaptureResult)
    requires MadeBy(sessions, e) && e.state != Incomplete
    requires forall j | 0 <= j < |sessions| :: Plain(sessions[j].capture, result)
    ensures e.state == Succeeded
  {
    hide SortedUnique, CalledIn;
    var j :| 0 <= j < |sessions| && MadeIn(sessions, j, e);
    assert Plain(sessions[j].capture, result);
    assert sessions[j].capture(e.target) == Captured(result(e.target)) || sessions[j].capture(e.target).Interrupt?
           || sessions[j].capture(e.target).Recoverable?;
  }

  /** Any chain of runs and resumes over steady results, interrupted, failing
      recoverably or killed anywhere, followed by one run or resume that is left
      alone, ends with the hashes of one uninterrupted batch, unless that resume
      is refused. */
  lemma {:induction false} ChainsConverge(
    sessions: seq<Session>, targets: seq<Target>, https: string -> bool, result: Target -> CaptureResult,
    capture: Target -> Attempted, resume: bool)
    requires forall j | 0 <= j < |sessions| :: Plain(sessions[j].capture, result)
    requires Steady(capture, result) && OrderedTargets(targets, https).Ok?
    ensures var run := RunBatch(AfterSessions(sessions), targets, https, capture, resume);
            var smooth := RunBatch(Files(None, None), targets, https, capture, false);
            && smooth.ended.Finished? && |smooth.ended.groups| == |targets|
            && (forall e | e in smooth.ended.groups :: e.state == Succeeded)
            && (run.ended.Rejected? ||
                (run.ended.Finished? && run.ended.hashes == smooth.ended.hashes
                 && |run.ended.groups| == |targets| && forall e | e in run.ended.groups :: e.state == Succeeded))
    ensures !resume || Previous(AfterSessions(sessions), OrderedTargets(targets, https).value).Ok? ==>
              !RunBatch(AfterSessions(sessions), targets, https, capture, resume).ended.Rejected?
  {
    hide AfterSessions, Loop, OrderedTargets, Previous, Fits, AllCaptured, Steady, Plain, FullHashes, ProgressOps,
         Before;
    var ordered := OrderedTargets(targets, https).value;
    OrderedTargetsSorted(targets, targets, https);
    FreshFits(ordered);
    FreshCaptured(ordered, result);
    LoopCaptured(ordered, 0, Work([], map[]), map[], capture, result);
    if resume && Previous(AfterSessions(sessions), ordered).Ok? {
      var loaded := Previous(AfterSessions(sessions), ordered).value;
      LoadedCaptured(sessions, ordered, result);
      LoadedFits(AfterSessions(sessions), ordered);
      LoopCaptured(ordered, 0, Work([], loaded.identifiers), loaded.previous, capture, result);
    }
  }

  lemma FreshCaptured(ordered: seq<Target>, result: Target -> CaptureResult)
    ensures AllCaptured(ordered, 0, Work([], map[]), map[], result)
  {
  }

  /** Where a kill leaves receipt and sidecar written together. */
  predicate Whole(kept: nat, log: seq<FileOp>) {
    kept % 2 == 0 || kept >= |log|
  }

  lemma {:induction false} FinishStops(
    ordered: seq<Target>, i: nat, work: Work, previous: map<Target, Entry>, d: Files, n: nat)
    requires Fits(ordered, i, work, previous) && d.sidecar == Some(SidecarOf(ordered, work.identifiers))
    requires Previous(d, ordered).Ok? && n <= |Finish(ordered, work).log|
    ensures Previous(PutAll(d, Finish(ordered, work).log[..n]), ordered).Ok?
  {
    hide Fits, Previous, Found, SidecarOf, Finish, PutAll;
    var log := Finish(ordered, work).log;
    FinishFits(ordered, i, work, previous);
    if n == 0 {
      assert log[..0] == [];
      NothingPut(d);
    } else {
      assert log[..n] == log;
      FinishResumes(ordered, i, work, previous, d);
    }
  }

  /** A loop killed between two entries leaves files a resume accepts. */
  lemma {:induction false} LoopStops(
    ordered: seq<Target>, i: nat, work: Work, previous: map<Target, Entry>, capture: Target -> Attempted, d: Files,
    n: nat)
    requires i <= |ordered| && Fits(ordered, i, work, previous)
    requires d.sidecar == Some(SidecarOf(ordered, work.identifiers)) && Previous(d, ordered).Ok?
    requires n <= |Loop(ordered, i, work, previous, capture).log|
    requires Whole(n, Loop(ordered, i, work, previous, capture).log)
    ensures Previous(PutAll(d, Loop(ordered, i, work, previous, capture).log[..n]), ordered).Ok?
    decreases |ordered| - i
  {
    hide EntryFor, ProgressOps, Finish, PutAll, Fits, TurnWork, EndsAt, Loop, SidecarOf, Previous, Found, ReceiptOf;
    var log := Loop(ordered, i, work, previous, capture).log;
    if i == |ordered| {
      LoopDone(ordered, work, previous, capture);
      FinishStops(ordered, i, work, previous, d, n);
      return;
    }
    var t := ordered[i];
    var next := TurnWork(work, t, previous, capture);
    var ops := TurnOps(ordered, next, t, previous);
    TurnFits(ordered, i, work, previous, capture);
    LoopTurn(ordered, i, work, previous, capture);
    EndsInterrupted(t, previous, capture);
    TurnFiles(ordered, i, work, previous, capture, d);
    var d1 := PutAll(d, ops);
    if n < |ops| {
      assert log[..n] == [];
      NothingPut(d);
      return;
    }
    var rest := log[|ops|..];
    assert log == ops + rest && log[..n] == ops + rest[..n - |ops|];
    PutSplit(d, ops, rest[..n - |ops|]);
    if EndsAt(t, previous, capture) {
      if !Settled(previous, t) && capture(t).Interrupt? {
        assert rest[..n - |ops|] == [];
        NothingPut(d1);
      } else {
        assert rest == Finish(ordered, next).log;
        FinishStops(ordered, i + 1, next, previous, d1, n - |ops|);
      }
    } else {
      assert rest == Loop(ordered, i + 1, next, previous, capture).log;
      LoopStops(ordered, i + 1, next, previous, capture, d1, n - |ops|);
    }
  }

  /** The files after one turn of the loop. */
  lemma TurnFiles(
    ordered: seq<Target>, i: nat, work: Work, previous: map<Target, Entry>, capture: Target -> Attempted, d: Files)
    requires i < |ordered| && Fits(ordered, i, work, previous)
    requires d.sidecar == Some(SidecarOf(ordered, work.identifiers)) && Previous(d, ordered).Ok?
    ensures var next := TurnWork(work, ordered[i], previous, capture);
            var ops := TurnOps(ordered, next, ordered[i], previous);
            var d1 := PutAll(d, ops);
            && |ops| in {0, 2} && Previous(d1, ordered).Ok?
            && d1.sidecar == Some(SidecarOf(ordered, next.identifiers))
  {
    hide PutAll, Fits, TurnWork, SidecarOf, Previous, Found, ReceiptOf, Settled;
    var next := TurnWork(work, ordered[i], previous, capture);
    TurnFits(ordered, i, work, previous, capture);
    ProgressPuts(d, ordered, next);
    SettledKeepsIdentifiers(work, ordered[i], previous, capture);
    NothingPut(d);
    WholeProgressResumes(d, ordered, i + 1, next, previous);
  }

  /** A session killed between two entries, on files a resume accepts, or a fresh
      run killed after its first two writes, leaves files a resume accepts. */
  lemma {:induction false} SessionStops(d: Files, s: Session)
    requires OrderedTargets(s.targets, s.https).Ok? && Whole(s.kept, LogOf(d, s))
    requires s.resume || s.kept < 2 ==> Previous(d, OrderedTargets(s.targets, s.https).value).Ok?
    ensures Previous(AfterSession(d, s), OrderedTargets(s.targets, s.https).value).Ok?
  {
    hide OrderedTargets, Loop, Previous, Found, PutAll, Fits, TargetBefore, SidecarOf, ReceiptOf;
    var ordered := OrderedTargets(s.targets, s.https).value;
    OrderedTargetsSorted(s.targets, s.targets, s.https);
    var log := LogOf(d, s);
    var n := Min(s.kept, |log|);
    if s.resume {
      var loaded := Previous(d, ordered).value;
      LoadedFits(d, ordered);
      LoadedSidecar(d, ordered);
      LoopStops(ordered, 0, Work([], loaded.identifiers), loaded.previous, s.capture, d, n);
    } else if n < 2 {
      assert log[..n] == [];
      NothingPut(d);
    } else {
      var start := Work([], map[]);
      var ops := ProgressOps(ordered, start);
      var rest := Loop(ordered, 0, start, map[], s.capture).log;
      FreshFits(ordered);
      ProgressPuts(d, ordered, start);
      WholeProgressResumes(d, ordered, 0, start, map[]);
      assert log == ops + rest && log[..n] == ops + rest[..n - 2];
      PutSplit(d, ops, rest[..n - 2]);
      LoopStops(ordered, 0, start, map[], s.capture, PutAll(d, ops), n - 2);
    }
  }

  /** All sessions work on the same targets, the first is a fresh run that gets to
      its first two writes, and no kill falls between a receipt and its sidecar. */
  ghost predicate WholeSessions(sessions: seq<Session>, targets: seq<Target>, https: string -> bool) {
    && sessions != [] && !sessions[0].resume && sessions[0].kept >= 2
    && forall j | 0 <= j < |sessions| ::
         && sessions[j].targets == targets && sessions[j].https == https
         && Whole(sessions[j].kept, LogOf(AfterSessions(sessions[..j]), sessions[j]))
  }

  /** Interrupts, failures and kills between two entries never make a resume
      refuse. */
  lemma {:induction false} WholeChainsResume(sessions: seq<Session>, targets: seq<Target>, https: string -> bool)
    requires WholeSessions(sessions, targets, https) && OrderedTargets(targets, https).Ok?
    ensures Previous(AfterSessions(sessions), OrderedTargets(targets, https).value).Ok?
    decreases |sessions|
  {
    hide OrderedTargets, Previous, LogOf, AfterSession;
    var n := |sessions| - 1;
    var front := sessions[..n];
    var s := sessions[n];
    assert s.targets == targets && s.https == https;
    if n > 0 {
      forall j | 0 <= j < n
        ensures front[j].targets == targets && front[j].https == https
                && Whole(front[j].kept, LogOf(AfterSessions(front[..j]), front[j]))
      {
        assert front[..j] == sessions[..j] && front[j] == sessions[j];
      }
      WholeChainsResume(front, targets, https);
    }
    assert sessions[..n] == front;
    SessionStops(AfterSessions(front), s);
  }
}
