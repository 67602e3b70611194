/** What resuming a batch can rely on, whatever was interrupted before. */
module BatchResume {
  import opened Basics
  import opened TextOrder
  import opened Sorting
  import opened Batch
  import opened BatchWorkflow

  // ------------------------------------------------------- inside one run

  /** The work after `i` targets: an entry each, in order, each succeeded one with
      its identifiers; and every earlier entry still to come is backed too. */
  ghost predicate Fits(ordered: seq<Target>, i: nat, work: Work, previous: map<Target, Entry>) {
    && Distinct(ordered)
    && |work.groups| == i <= |ordered|
    && (forall k | 0 <= k < i :: work.groups[k].target == ordered[k] && Matched(work.identifiers, work.groups[k]))
    && (forall k | i <= k < |ordered| && ordered[k] in previous ::
          previous[ordered[k]].target == ordered[k] && Matched(work.identifiers, previous[ordered[k]]))
    && (forall t | t in work.identifiers :: t in ordered && Distinct(work.identifiers[t]))
  }

  lemma UniqueIsSorted(ids: seq<string>)
    ensures Increasing(Before, SortedUnique(ids)) && Distinct(SortedUnique(ids))
    ensures Elements(SortedUnique(ids)) == Elements(ids)
  {
    hide Before, Sort;
    TextIsOrdered();
    SortSorts(Before, ids);
    IncreasingDistinct(Before, SortedUnique(ids));
  }

  lemma SettledFits(ordered: seq<Target>, i: nat, work: Work, previous: map<Target, Entry>)
    requires Fits(ordered, i, work, previous) && i < |ordered| && Settled(previous, ordered[i])
    ensures Fits(ordered, i + 1, work.(groups := work.groups + [previous[ordered[i]]]), previous)
  {
  }

  lemma CaptureFits(ordered: seq<Target>, i: nat, work: Work, previous: map<Target, Entry>, a: Attempted)
    requires Fits(ordered, i, work, previous) && i < |ordered|
    ensures var t := ordered[i];
            Fits(ordered, i + 1, AfterCapture(work, t, a, Attempts(previous, t)), previous)
  {
    if a.Captured? { UniqueIsSorted(a.result.identifiers); }
  }

  lemma {:induction false} CollectFits(ordered: seq<Target>, groups: seq<Entry>, ids: Identifiers)
    requires Distinct(ordered) && |groups| <= |ordered|
    requires forall k | 0 <= k < |groups| :: groups[k].target == ordered[k] && Matched(ids, groups[k])
    ensures var c := CollectEntries(groups, ordered, ids);
            && c.Ok?
            && (forall k | 0 <= k < |groups| :: ordered[k] in c.value && c.value[ordered[k]] == groups[k])
            && (forall t | t in c.value :: t in ordered[..|groups|])
    decreases |groups|
  {
    if groups != [] {
      var n := |groups| - 1;
      CollectFits(ordered, groups[..n], ids);
      assert groups[n].target == ordered[n] && Matched(ids, groups[n]);
      assert ordered[n] !in ordered[..n];
      assert groups == groups[..n] + [groups[n]];
      CollectOne(groups[..n], groups[n], ordered, ids);
      assert ordered[..n + 1] == ordered[..n] + [ordered[n]];
    }
  }

  /** The entries a resume finds are exactly the first targets'. */
  ghost predicate Found(ordered: seq<Target>, groups: seq<Entry>, previous: map<Target, Entry>) {
    && |groups| <= |ordered|
    && (forall k | 0 <= k < |groups| :: ordered[k] in previous && previous[ordered[k]] == groups[k])
    && (forall t | t in previous :: t in ordered[..|groups|])
  }

  lemma AllIdentifiersKept(ordered: seq<Target>, i: nat, work: Work, previous: map<Target, Entry>)
    requires Fits(ordered, i, work, previous)
    ensures SidecarOf(ordered, work.identifiers).identifiers == work.identifiers
  {
  }

  /** Files with these targets, entries and identifiers are accepted. */
  lemma FilesResume(d: Files, ordered: seq<Target>, i: nat, work: Work, previous: map<Target, Entry>)
    requires Fits(ordered, i, work, previous) && d.sidecar == Some(SidecarOf(ordered, work.identifiers))
    requires d.receipt.Some? && d.receipt.value.targets == ordered && d.receipt.value.groups == work.groups
    requires d.receipt.value.targetHash == SetHash(Elements(ordered))
    ensures var p := Previous(d, ordered);
            p.Ok? && p.value.identifiers == work.identifiers && Found(ordered, work.groups, p.value.previous)
  {
    hide CollectEntries, Elements, Matched;
    CollectFits(ordered, work.groups, work.identifiers);
    AllIdentifiersKept(ordered, i, work, previous);
  }

  /** Progress written whole can always be resumed, with exactly the entries and
      the identifiers written. */
  lemma {:induction false} WholeProgressResumes(
    d: Files, ordered: seq<Target>, i: nat, work: Work, previous: map<Target, Entry>)
    requires Fits(ordered, i, work, previous)
    ensures var p := Previous(PutAll(d, ProgressOps(ordered, work)), ordered);
            p.Ok? && p.value.identifiers == work.identifiers && Found(ordered, work.groups, p.value.previous)
  {
    hide Fits, Previous, Found, SidecarOf, ProgressOps, PutAll;
    ProgressPuts(d, ordered, work);
    FilesResume(PutAll(d, ProgressOps(ordered, work)), ordered, i, work, previous);
  }

  /** Between the two writes of one more entry, a resume is accepted exactly when
      that entry needs no identifiers or the older sidecar holds the same ones;
      otherwise it is refused. */
  lemma {:induction false} TornProgress(
    d: Files, ordered: seq<Target>, i: nat, work: Work, previous: map<Target, Entry>, a: Attempted)
    requires Fits(ordered, i, work, previous) && i < |ordered|
    requires d.sidecar == Some(SidecarOf(ordered, work.identifiers))
    ensures var t := ordered[i];
            var next := AfterCapture(work, t, a, Attempts(previous, t));
            var torn := Put(d, PutReceipt(ReceiptOf(ordered, next.groups)));
            && (Previous(torn, ordered).Ok? <==>
                  a.Captured? ==>
                    t in work.identifiers && Elements(work.identifiers[t]) == Elements(a.result.identifiers))
            && (Previous(torn, ordered).Ok? ==> Found(ordered, next.groups, Previous(torn, ordered).value.previous))
  {
    hide CollectEntries, Elements, Sort;
    var t := ordered[i];
    var next := AfterCapture(work, t, a, Attempts(previous, t));
    var e := next.groups[i];
    AllIdentifiersKept(ordered, i, work, previous);
    CollectFits(ordered, work.groups, work.identifiers);
    CollectOne(work.groups, e, ordered, work.identifiers);
    assert t !in ordered[..i];
    if a.Captured? {
      UniqueIsSorted(a.result.identifiers);
      if t in work.identifiers {
        DistinctSize(work.identifiers[t]);
        DistinctSize(SortedUnique(a.result.identifiers));
      }
    }
    if Matched(work.identifiers, e) { CollectFits(ordered, next.groups, work.identifiers); }
  }

  // -------------------------------------------------------- the whole run

  function GroupsOf(ended: Ended): seq<Entry> {
    match ended
    case Finished(groups, _) => groups
    case Interrupted(groups) => groups
    case _ => []
  }

  /** The entry the run makes for a target. */
  function EntryFor(t: Target, previous: map<Target, Entry>, capture: Target -> Attempted): Entry {
    if Settled(previous, t) then previous[t] else EntryOf(t, capture(t), Attempts(previous, t))
  }

  /** The run goes no further after this target. */
  predicate EndsAt(t: Target, previous: map<Target, Entry>, capture: Target -> Attempted) {
    if Settled(previous, t) then previous[t].state == Stopped else capture(t).Interrupt? || capture(t).Stop?
  }

  /** The targets among these that are captured. */
  function ToCapture(targets: seq<Target>, previous: map<Target, Entry>): seq<Target> {
    if targets == [] then []
    else
      var rest := ToCapture(targets[1..], previous);
      if Settled(previous, targets[0]) then rest else [targets[0]] + rest
  }

  /** A run without its loop: one entry a target, in order, up to the first that
      ends it; captured are exactly those without a settled entry. */
  ghost predicate Outline(
    ordered: seq<Target>, i: nat, previous: map<Target, Entry>, capture: Target -> Attempted, run: BatchRun)
  {
    var n := |GroupsOf(run.ended)|;
    && (run.ended.Finished? || run.ended.Interrupted?)
    && i <= n <= |ordered|
    && (forall k | i <= k < n :: GroupsOf(run.ended)[k] == EntryFor(ordered[k], previous, capture))
    && (forall k | i <= k < n - 1 :: !EndsAt(ordered[k], previous, capture))
    && (n < |ordered| ==> i < n && EndsAt(ordered[n - 1], previous, capture))
    && run.called == ToCapture(ordered[i..n], previous)
    && (run.ended.Interrupted? <==>
          i < n && !Settled(previous, ordered[n - 1]) && capture(ordered[n - 1]).Interrupt?)
  }

  lemma FinishFits(ordered: seq<Target>, i: nat, work: Work, previous: map<Target, Entry>)
    requires Fits(ordered, i, work, previous)
    ensures Finish(ordered, work).ended.Finished? && GroupsOf(Finish(ordered, work).ended) == work.groups
    ensures Finish(ordered, work).called == [] && |Finish(ordered, work).log| == 1
    ensures Finish(ordered, work).log[0].PutReceipt?
    ensures var r := Finish(ordered, work).log[0].receipt;
            r.targets == ordered && r.groups == work.groups && r.targetHash == SetHash(Elements(ordered))
  {
    forall e | e in work.groups && e.state == Succeeded ensures e.target in work.identifiers {
      var k :| 0 <= k < i && work.groups[k] == e;
    }
  }

  /** The work after one more target. */
  function TurnWork(work: Work, t: Target, previous: map<Target, Entry>, capture: Target -> Attempted): Work {
    if Settled(previous, t) then work.(groups := work.groups + [previous[t]])
    else AfterCapture(work, t, capture(t), Attempts(previous, t))
  }

  function TurnOps(ordered: seq<Target>, next: Work, t: Target, previous: map<Target, Entry>): seq<FileOp> {
    if Settled(previous, t) then [] else ProgressOps(ordered, next)
  }

  lemma TurnFits(
    ordered: seq<Target>, i: nat, work: Work, previous: map<Target, Entry>, capture: Target -> Attempted)
    requires Fits(ordered, i, work, previous) && i < |ordered|
    ensures Fits(ordered, i + 1, TurnWork(work, ordered[i], previous, capture), previous)
    ensures TurnWork(work, ordered[i], previous, capture).groups
            == work.groups + [EntryFor(ordered[i], previous, capture)]
  {
    hide Fits;
    if Settled(previous, ordered[i]) {
      SettledFits(ordered, i, work, previous);
    } else {
      CaptureFits(ordered, i, work, previous, capture(ordered[i]));
    }
  }

  /** One turn of the loop. */
  lemma LoopTurn(
    ordered: seq<Target>, i: nat, work: Work, previous: map<Target, Entry>, capture: Target -> Attempted)
    requires i < |ordered|
    ensures var t := ordered[i];
            var next := TurnWork(work, t, previous, capture);
            var ops := TurnOps(ordered, next, t, previous);
            var calls := if Settled(previous, t) then [] else [t];
            Loop(ordered, i, work, previous, capture)
            == if !EndsAt(t, previous, capture) then
                 Then(ops, calls, Loop(ordered, i + 1, next, previous, capture))
               else if !Settled(previous, t) && capture(t).Interrupt? then
                 BatchRun(ops, calls, Interrupted(next.groups))
               else Then(ops, calls, Finish(ordered, next))
  {
    hide Finish, ProgressOps, EntryOf, AfterCapture;
    var next := TurnWork(work, ordered[i], previous, capture);
    ThenNothing(Finish(ordered, next));
    ThenNothing(Loop(ordered, i + 1, next, previous, capture));
  }

  lemma FitsInOrder(ordered: seq<Target>, i: nat, work: Work, previous: map<Target, Entry>)
    requires Fits(ordered, i, work, previous)
    ensures |work.groups| == i <= |ordered| && forall k | 0 <= k < i :: work.groups[k].target == ordered[k]
  {
  }

  /** Every run of the loop follows its outline; identifiers are never missing
      when the aggregate is taken, and it is never taken over no entries. */
  lemma {:induction false} LoopOutline(
    ordered: seq<Target>, i: nat, work: Work, previous: map<Target, Entry>, capture: Target -> Attempted)
    requires i <= |ordered| && Fits(ordered, i, work, previous)
    ensures var run := Loop(ordered, i, work, previous, capture);
            && Outline(ordered, i, previous, capture, run)
            && i <= |GroupsOf(run.ended)| <= |ordered|
            && GroupsOf(run.ended)[..i] == work.groups
            && (forall k | 0 <= k < |GroupsOf(run.ended)| :: GroupsOf(run.ended)[k].target == ordered[k])
    decreases |ordered| - i
  {
    hide EntryFor, ProgressOps, Finish, Outline, TurnWork, EndsAt, Loop, TurnOps, Fits;
    var run := Loop(ordered, i, work, previous, capture);
    FitsInOrder(ordered, i, work, previous);
    if i == |ordered| {
      LoopDone(ordered, work, previous, capture);
      FinishFits(ordered, i, work, previous);
      AllOutline(ordered, i, previous, capture, run);
    } else {
      var t := ordered[i];
      var next := TurnWork(work, t, previous, capture);
      TurnFits(ordered, i, work, previous, capture);
      FitsInOrder(ordered, i + 1, next, previous);
      LoopTurn(ordered, i, work, previous, capture);
      if EndsAt(t, previous, capture) {
        FinishFits(ordered, i + 1, next, previous);
        EndsInterrupted(t, previous, capture);
        LastOutline(ordered, i, previous, capture, run);
      } else {
        LoopOutline(ordered, i + 1, next, previous, capture);
        var rest := Loop(ordered, i + 1, next, previous, capture);
        assert GroupsOf(rest.ended)[..i + 1][i] == next.groups[i];
        LaterOutline(ordered, i, previous, capture, run, rest);
        assert work.groups == next.groups[..i];
      }
    }
  }

  lemma LoopDone(ordered: seq<Target>, work: Work, previous: map<Target, Entry>, capture: Target -> Attempted)
    ensures Loop(ordered, |ordered|, work, previous, capture) == Finish(ordered, work)
  {
    hide Finish;
  }

  lemma EndsInterrupted(t: Target, previous: map<Target, Entry>, capture: Target -> Attempted)
    ensures EndsAt(t, previous, capture) && Settled(previous, t) ==> previous[t].state == Stopped
  {
  }

  lemma AllOutline(
    ordered: seq<Target>, i: nat, previous: map<Target, Entry>, capture: Target -> Attempted, run: BatchRun)
    requires i == |ordered| == |GroupsOf(run.ended)| && run.ended.Finished? && run.called == []
    ensures Outline(ordered, i, previous, capture, run)
  {
    assert ordered[i..i] == [];
  }

  lemma LastOutline(
    ordered: seq<Target>, i: nat, previous: map<Target, Entry>, capture: Target -> Attempted, run: BatchRun)
    requires i < |ordered| && |GroupsOf(run.ended)| == i + 1 && (run.ended.Finished? || run.ended.Interrupted?)
    requires GroupsOf(run.ended)[i] == EntryFor(ordered[i], previous, capture)
    requires EndsAt(ordered[i], previous, capture)
    requires run.called == if Settled(previous, ordered[i]) then [] else [ordered[i]]
    requires run.ended.Interrupted? <==> !Settled(previous, ordered[i]) && capture(ordered[i]).Interrupt?
    ensures Outline(ordered, i, previous, capture, run)
  {
    hide EntryFor, EndsAt, ToCapture, Settled;
    assert ordered[i..i + 1] == [ordered[i]];
    CaptureOne(ordered[i], previous);
  }

  lemma CaptureOne(t: Target, previous: map<Target, Entry>)
    ensures ToCapture([t], previous) == if Settled(previous, t) then [] else [t]
  {
    assert [t][1..] == [];
  }

  /** The outline of the rest, with one more target in front. */
  lemma LaterOutline(
    ordered: seq<Target>, i: nat, previous: map<Target, Entry>, capture: Target -> Attempted,
    run: BatchRun, rest: BatchRun)
    requires i < |ordered| && Outline(ordered, i + 1, previous, capture, rest) && run.ended == rest.ended
    requires run.called == (if Settled(previous, ordered[i]) then [] else [ordered[i]]) + rest.called
    requires !EndsAt(ordered[i], previous, capture)
    requires GroupsOf(rest.ended)[i] == EntryFor(ordered[i], previous, capture)
    ensures Outline(ordered, i, previous, capture, run)
  {
    hide EntryFor, ToCapture, Settled;
    var n := |GroupsOf(run.ended)|;
    assert ordered[i..n] == [ordered[i]] + ordered[i + 1..n];
    CaptureFirst(ordered[i], ordered[i + 1..n], previous);
  }

  lemma CaptureFirst(t: Target, rest: seq<Target>, previous: map<Target, Entry>)
    ensures ToCapture([t] + rest, previous) == (if Settled(previous, t) then [] else [t]) + ToCapture(rest, previous)
  {
    assert ([t] + rest)[1..] == rest;
    assert [] + ToCapture(rest, previous) == ToCapture(rest, previous);
  }

  // ------------------------------------------------------ a resume's calls

  lemma {:induction false} CapturedAre(targets: seq<Target>, previous: map<Target, Entry>, t: Target)
    ensures t in ToCapture(targets, previous) <==> t in targets && !Settled(previous, t)
  {
    if targets != [] { CapturedAre(targets[1..], previous, t); }
  }

  lemma LoadedFits(d: Files, ordered: seq<Target>)
    requires Previous(d, ordered).Ok? && Distinct(ordered)
    ensures var loaded := Previous(d, ordered).value;
            Fits(ordered, 0, Work([], loaded.identifiers), loaded.previous)
  {
    var loaded := Previous(d, ordered).value;
    CollectedMatch(d.receipt.value.groups, ordered, loaded.identifiers);
  }

  lemma {:induction false} CollectedMatch(groups: seq<Entry>, expected: seq<Target>, ids: Identifiers)
    requires CollectEntries(groups, expected, ids).Ok?
    ensures forall t | t in CollectEntries(groups, expected, ids).value ::
              var e := CollectEntries(groups, expected, ids).value[t];
              e.target == t && Matched(ids, e) && e in groups
    decreases |groups|
  {
    if groups != [] { CollectedMatch(groups[..|groups| - 1], expected, ids); }
  }

  /** A resume captures exactly the targets, up to where it ends, that have no
      entry or an incomplete one; so none at or after the first stopped entry.
      Settled entries before its end come out unchanged. */
  lemma {:induction false} ResumeCalls(d: Files, ordered: seq<Target>, capture: Target -> Attempted, stop: nat)
    requires Distinct(ordered) && Previous(d, ordered).Ok?
    ensures var loaded := Previous(d, ordered).value;
            var run := Loop(ordered, 0, Work([], loaded.identifiers), loaded.previous, capture);
            var n := |GroupsOf(run.ended)|;
            && !run.ended.MissingIdentifiers? && n <= |ordered| && (ordered != [] ==> n > 0)
            && (forall t :: t in run.called <==> t in ordered[..n] && !Settled(loaded.previous, t))
            && (forall k | 0 <= k < n && Settled(loaded.previous, ordered[k]) ::
                  GroupsOf(run.ended)[k] == loaded.previous[ordered[k]])
            && (stop < |ordered| && ordered[stop] in loaded.previous
                && loaded.previous[ordered[stop]].state == Stopped ==>
                  n <= stop + 1 && forall k | stop <= k < |ordered| :: ordered[k] !in run.called)
  {
    hide Loop, Previous, Matched, EntryOf;
    var loaded := Previous(d, ordered).value;
    var run := Loop(ordered, 0, Work([], loaded.identifiers), loaded.previous, capture);
    var n := |GroupsOf(run.ended)|;
    LoadedFits(d, ordered);
    LoopOutline(ordered, 0, Work([], loaded.identifiers), loaded.previous, capture);
    assert ordered[0..n] == ordered[..n];
    forall t ensures t in run.called <==> t in ordered[..n] && !Settled(loaded.previous, t) {
      CapturedAre(ordered[..n], loaded.previous, t);
    }
    if stop < |ordered| && ordered[stop] in loaded.previous && loaded.previous[ordered[stop]].state == Stopped {
      assert EndsAt(ordered[stop], loaded.previous, capture);
      forall k | stop <= k < |ordered| ensures ordered[k] !in run.called {
        if ordered[k] in ordered[..n] {
          var j :| 0 <= j < n && ordered[j] == ordered[k];
        }
      }
    }
  }

  // ------------------------------------------------------ what a run writes

  /** The receipt lists a first part of the ordered targets, once each in order. */
  predicate PrefixReceipt(ordered: seq<Target>, r: Receipt) {
    && r.targets == ordered && |r.groups| <= |ordered|
    && forall k | 0 <= k < |r.groups| :: r.groups[k].target == ordered[k]
  }

  lemma NothingPut(d: Files)
    ensures PutAll(d, []) == d
  {
  }

  lemma {:induction false} PutSplit(d: Files, a: seq<FileOp>, b: seq<FileOp>)
    ensures PutAll(d, a + b) == PutAll(PutAll(d, a), b)
    decreases |b|
  {
    if b == [] {
      assert a + b == a;
    } else {
      PutSplit(d, a, b[..|b| - 1]);
      assert (a + b)[..|a + b| - 1] == a + b[..|b| - 1];
    }
  }

  lemma ProgressPuts(d: Files, ordered: seq<Target>, work: Work)
    ensures PutAll(d, ProgressOps(ordered, work))
            == Files(Some(ReceiptOf(ordered, work.groups)), Some(SidecarOf(ordered, work.identifiers)))
  {
    PutMore(d, [PutReceipt(ReceiptOf(ordered, work.groups))], PutSidecar(SidecarOf(ordered, work.identifiers)));
    PutMore(d, [], PutReceipt(ReceiptOf(ordered, work.groups)));
    assert ProgressOps(ordered, work)
           == [] + [PutReceipt(ReceiptOf(ordered, work.groups))] + [PutSidecar(SidecarOf(ordered, work.identifiers))];
  }

  /** Two Groups: the first failed recoverably, the second succeeded. A resume
      that is interrupted on the first rewrites the receipt without the second,
      so a later resume captures it again. */
  lemma {:induction false} InterruptedResumeDrops(a: Target, b: Target, done: Entry, ids: Identifiers, d: Files)
    requires a != b && done.target == b && done.state == Succeeded && Matched(ids, done)
    requires ids.Keys == {b} && Distinct(ids[b])
    ensures var before := Files(Some(ReceiptOf([a, b], [TerminalEntry(a, Incomplete, 1, "e", None), done])),
                                Some(SidecarOf([a, b], ids)));
            var loaded := Previous(before, [a, b]);
            && loaded.Ok? && b in loaded.value.previous
            && var run := Loop([a, b], 0, Work([], loaded.value.identifiers), loaded.value.previous, _ => Interrupt);
               var again := Previous(PutAll(before, run.log), [a, b]);
               again.Ok? && b !in again.value.previous
  {
    hide CollectEntries, Elements, PutAll;
    var ordered := [a, b];
    var groups := [TerminalEntry(a, Incomplete, 1, "e", None), done];
    var work := Work(groups, ids);
    var before := Files(Some(ReceiptOf(ordered, groups)), Some(SidecarOf(ordered, ids)));
    assert Fits(ordered, 2, work, map[]);
    WholeProgressResumes(before, ordered, 2, work, map[]);
    ProgressPuts(before, ordered, work);
    var loaded := Previous(before, ordered).value;
    assert loaded.previous[ordered[0]] == groups[0] && loaded.previous[ordered[1]] == groups[1];
    var start := Work([], loaded.identifiers);
    LoadedFits(before, ordered);
    CaptureFits(ordered, 0, start, loaded.previous, Interrupt);
    var next := AfterCapture(start, a, Interrupt, Attempts(loaded.previous, a));
    WholeProgressResumes(before, ordered, 1, next, loaded.previous);
    assert Loop(ordered, 0, start, loaded.previous, _ => Interrupt).log == ProgressOps(ordered, next);
    assert b !in ordered[..1];
  }

  /** A run that is not killed leaves files a resume accepts, with exactly the
      entries it ended with. */
  lemma {:induction false} LoopResumes(
    ordered: seq<Target>, i: nat, work: Work, previous: map<Target, Entry>, capture: Target -> Attempted, d: Files)
    requires i <= |ordered| && Fits(ordered, i, work, previous)
    requires d.sidecar == Some(SidecarOf(ordered, work.identifiers))
    ensures var run := Loop(ordered, i, work, previous, capture);
            var p := Previous(PutAll(d, run.log), ordered);
            p.Ok? && Found(ordered, GroupsOf(run.ended), p.value.previous)
    decreases |ordered| - i
  {
    hide EntryFor, ProgressOps, Finish, PutAll, Fits, TurnWork, EndsAt, Loop, SidecarOf, Previous, Found, ReceiptOf;
    var run := Loop(ordered, i, work, previous, capture);
    if i == |ordered| {
      LoopDone(ordered, work, previous, capture);
      FinishResumes(ordered, i, work, previous, d);
    } else {
      var t := ordered[i];
      var next := TurnWork(work, t, previous, capture);
      var ops := TurnOps(ordered, next, t, previous);
      TurnFits(ordered, i, work, previous, capture);
      LoopTurn(ordered, i, work, previous, capture);
      ProgressPuts(d, ordered, next);
      SettledKeepsIdentifiers(work, t, previous, capture);
      NothingPut(d);
      var d1 := PutAll(d, ops);
      if EndsAt(t, previous, capture) {
        EndsInterrupted(t, previous, capture);
        if !Settled(previous, t) && capture(t).Interrupt? {
          WholeProgressResumes(d, ordered, i + 1, next, previous);
        } else {
          FinishResumes(ordered, i + 1, next, previous, d1);
          PutSplit(d, ops, Finish(ordered, next).log);
        }
      } else {
        LoopResumes(ordered, i + 1, next, previous, capture, d1);
        PutSplit(d, ops, Loop(ordered, i + 1, next, previous, capture).log);
      }
    }
  }

  lemma SettledKeepsIdentifiers(work: Work, t: Target, previous: map<Target, Entry>, capture: Target -> Attempted)
    ensures Settled(previous, t) ==> TurnWork(work, t, previous, capture).identifiers == work.identifiers
  {
  }

  lemma FinishResumes(ordered: seq<Target>, i: nat, work: Work, previous: map<Target, Entry>, d: Files)
    requires Fits(ordered, i, work, previous) && d.sidecar == Some(SidecarOf(ordered, work.identifiers))
    ensures var run := Finish(ordered, work);
            var p := Previous(PutAll(d, run.log), ordered);
            p.Ok? && Found(ordered, GroupsOf(run.ended), p.value.previous)
  {
    hide Fits, Previous, Found, SidecarOf, Finish, Elements;
    FinishFits(ordered, i, work, previous);
    PutMore(d, [], Finish(ordered, work).log[0]);
    assert Finish(ordered, work).log == [] + [Finish(ordered, work).log[0]];
    FilesResume(PutAll(d, Finish(ordered, work).log), ordered, i, work, previous);
  }

  /** The sidecar a resume was loaded from is the one its identifiers write. */
  lemma LoadedSidecar(d: Files, ordered: seq<Target>)
    requires Previous(d, ordered).Ok?
    ensures d.sidecar == Some(SidecarOf(ordered, Previous(d, ordered).value.identifiers))
  {
    hide CollectEntries, Elements;
    var s := d.sidecar.value;
    assert s.identifiers == map t | t in s.identifiers && t in ordered :: s.identifiers[t];
  }

  /** So a run or resume that is not killed can always be resumed. */
  lemma {:induction false} RunResumes(
    d: Files, targets: seq<Target>, https: string -> bool, capture: Target -> Attempted, resume: bool)
    requires !RunBatch(d, targets, https, capture, resume).ended.Rejected?
    ensures var run := RunBatch(d, targets, https, capture, resume);
            var ordered := OrderedTargets(targets, https).value;
            var p := Previous(PutAll(d, run.log), ordered);
            p.Ok? && Found(ordered, GroupsOf(run.ended), p.value.previous)
  {
    hide OrderedTargets, Loop, Previous, Found, ProgressOps, PutAll, Fits, TargetBefore, SidecarOf, ReceiptOf;
    var ordered := OrderedTargets(targets, https).value;
    OrderedTargetsSorted(targets, targets, https);
    if resume {
      var loaded := Previous(d, ordered).value;
      LoadedFits(d, ordered);
      LoadedSidecar(d, ordered);
      LoopResumes(ordered, 0, Work([], loaded.identifiers), loaded.previous, capture, d);
    } else {
      var ops := ProgressOps(ordered, Work([], map[]));
      FreshFits(ordered);
      ProgressPuts(d, ordered, Work([], map[]));
      LoopResumes(ordered, 0, Work([], map[]), map[], capture, PutAll(d, ops));
      PutSplit(d, ops, Loop(ordered, 0, Work([], map[]), map[], capture).log);
    }
  }

  lemma FreshFits(ordered: seq<Target>)
    requires Distinct(ordered)
    ensures Fits(ordered, 0, Work([], map[]), map[])
  {
  }

  /** A settled entry outlives a resume that is not killed exactly when no target
      before it ends the resume; then it comes out unchanged, and the next resume
      finds it. */
  lemma {:induction false} SettledOutlives(
    d: Files, targets: seq<Target>, https: string -> bool, capture: Target -> Attempted, k: nat)
    requires !RunBatch(d, targets, https, capture, true).ended.Rejected?
    requires var ordered := OrderedTargets(targets, https).value;
             k < |ordered| && Settled(Previous(d, ordered).value.previous, ordered[k])
    ensures var run := RunBatch(d, targets, https, capture, true);
            var ordered := OrderedTargets(targets, https).value;
            var previous := Previous(d, ordered).value.previous;
            var p := Previous(PutAll(d, run.log), ordered);
            var outlives := forall i | 0 <= i < k :: !EndsAt(ordered[i], previous, capture);
            && p.Ok?
            && (ordered[k] in p.value.previous <==> outlives)
            && (previous[ordered[k]] in GroupsOf(run.ended) <==> outlives)
            && (outlives ==> p.value.previous[ordered[k]] == previous[ordered[k]])
  {
    hide OrderedTargets, Loop, Previous, PutAll, Fits, TargetBefore, EndsAt, Outline, EntryOf;
    var ordered := OrderedTargets(targets, https).value;
    var loaded := Previous(d, ordered).value;
    var run := RunBatch(d, targets, https, capture, true);
    var n := |GroupsOf(run.ended)|;
    OrderedTargetsSorted(targets, targets, https);
    RunResumes(d, targets, https, capture, true);
    LoadedFits(d, ordered);
    LoadedTarget(d, ordered, ordered[k]);
    LoopOutline(ordered, 0, Work([], loaded.identifiers), loaded.previous, capture);
    OutlineReaches(ordered, loaded.previous, capture, run, k);
    if n <= k { assert ordered[k] !in ordered[..n]; }
  }

  lemma OutlineReaches(
    ordered: seq<Target>, previous: map<Target, Entry>, capture: Target -> Attempted, run: BatchRun, k: nat)
    requires Outline(ordered, 0, previous, capture, run) && k < |ordered| && Settled(previous, ordered[k])
    ensures k < |GroupsOf(run.ended)| <==> forall i | 0 <= i < k :: !EndsAt(ordered[i], previous, capture)
    ensures k < |GroupsOf(run.ended)| ==> GroupsOf(run.ended)[k] == previous[ordered[k]]
  {
    hide ToCapture, EndsAt, EntryOf;
    var n := |GroupsOf(run.ended)|;
    if n <= k { assert EndsAt(ordered[n - 1], previous, capture); }
  }

  lemma LoadedTarget(d: Files, ordered: seq<Target>, t: Target)
    requires Previous(d, ordered).Ok? && t in Previous(d, ordered).value.previous
    ensures Previous(d, ordered).value.previous[t].target == t
  {
    CollectedMatch(d.receipt.value.groups, ordered, Previous(d, ordered).value.identifiers);
  }

  /** The last write of a finished run is the aggregate receipt over its entries. */
  lemma {:induction false} LastWrite(
    ordered: seq<Target>, i: nat, work: Work, previous: map<Target, Entry>, capture: Target -> Attempted)
    requires i <= |ordered| && Fits(ordered, i, work, previous)
    requires Loop(ordered, i, work, previous, capture).ended.Finished?
    ensures var run := Loop(ordered, i, work, previous, capture);
            && run.log != [] && run.log[|run.log| - 1].PutReceipt?
            && var r := run.log[|run.log| - 1].receipt;
               && r.groups == run.ended.groups && r.hashes == Some(run.ended.hashes)
               && (r.status == BatchStopped <==> exists e | e in r.groups :: e.state == Stopped)
               && (r.status == Completed <==> r.status != BatchStopped)
    decreases |ordered| - i
  {
    hide EntryFor, ProgressOps, Finish, TurnWork, EndsAt, Loop, TurnOps, Fits;
    if i == |ordered| {
      LoopDone(ordered, work, previous, capture);
      FinishFits(ordered, i, work, previous);
      FinishWrites(ordered, work);
    } else {
      var t := ordered[i];
      var next := TurnWork(work, t, previous, capture);
      TurnFits(ordered, i, work, previous, capture);
      LoopTurn(ordered, i, work, previous, capture);
      if EndsAt(t, previous, capture) {
        FinishFits(ordered, i + 1, next, previous);
        FinishWrites(ordered, next);
      } else {
        LastWrite(ordered, i + 1, next, previous, capture);
      }
    }
  }

  lemma FinishWrites(ordered: seq<Target>, work: Work)
    requires Finish(ordered, work).ended.Finished?
    ensures var run := Finish(ordered, work);
            && |run.log| == 1 && run.log[0].PutReceipt?
            && run.log[0].receipt.groups == run.ended.groups && run.log[0].receipt.hashes == Some(run.ended.hashes)
            && run.log[0].receipt.status in {BatchStopped, Completed}
            && (run.log[0].receipt.status == BatchStopped <==> exists e | e in run.ended.groups :: e.state == Stopped)
  {
  }

  /** A finished batch is marked stopped exactly when its last entry is stopped;
      a batch that left targets out is. */
  lemma {:induction false} StoppedStatus(
    ordered: seq<Target>, ids: Identifiers, previous: map<Target, Entry>, capture: Target -> Attempted)
    requires ordered != [] && Fits(ordered, 0, Work([], ids), previous)
    requires Loop(ordered, 0, Work([], ids), previous, capture).ended.Finished?
    ensures var run := Loop(ordered, 0, Work([], ids), previous, capture);
            var groups := run.ended.groups;
            && groups != [] && run.log != [] && run.log[|run.log| - 1].PutReceipt?
            && (run.log[|run.log| - 1].receipt.status == BatchStopped <==> groups[|groups| - 1].state == Stopped)
            && (|groups| < |ordered| ==> groups[|groups| - 1].state == Stopped)
  {
    hide Loop, Fits, ToCapture;
    LoopOutline(ordered, 0, Work([], ids), previous, capture);
    LastWrite(ordered, 0, Work([], ids), previous, capture);
    var groups := Loop(ordered, 0, Work([], ids), previous, capture).ended.groups;
    forall k | 0 <= k < |groups| ensures groups[k].state == Stopped ==> EndsAt(ordered[k], previous, capture) {
      assert groups[k] == EntryFor(ordered[k], previous, capture);
    }
    assert groups[|groups| - 1] == EntryFor(ordered[|groups| - 1], previous, capture);
  }
}
