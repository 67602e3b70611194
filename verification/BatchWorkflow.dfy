/** The operator batch, step by step, over its two files. */
module BatchWorkflow {
  import opened Basics
  import opened Sorting
  import opened Batch

  lemma PutMore(d: Files, a: seq<FileOp>, op: FileOp)
    ensures PutAll(d, a + [op]) == Put(PutAll(d, a), op)
  {
    assert (a + [op])[..|a|] == a;
  }

  lemma ThenMore(log: seq<FileOp>, called: seq<Target>, ops: seq<FileOp>, calls: seq<Target>, rest: BatchRun)
    ensures Then(log, called, Then(ops, calls, rest)) == Then(log + ops, called + calls, rest)
  {
    assert log + (ops + rest.log) == log + ops + rest.log;
    assert called + (calls + rest.called) == called + calls + rest.called;
  }

  lemma ThenNothing(run: BatchRun)
    ensures Then([], [], run) == run
  {
    assert [] + run.log == run.log && [] + run.called == run.called;
  }

  lemma ThenEnd(log: seq<FileOp>, called: seq<Target>, ops: seq<FileOp>, calls: seq<Target>, ended: Ended)
    ensures Then(log, called, BatchRun(ops, calls, ended)) == BatchRun(log + ops, called + calls, ended)
    ensures log + [] == log && called + [] == called
  {
  }

  class OperatorBatchWorkflow {
    var receipt: Option<Receipt>
    var sidecar: Option<Sidecar>
    var identifiers: Identifiers
    var called: seq<Target>
    ghost var log: seq<FileOp>

    constructor (receipt: Option<Receipt>, sidecar: Option<Sidecar>)
      ensures Files() == Batch.Files(receipt, sidecar) && log == [] && called == []
    {
      this.receipt, this.sidecar, this.identifiers, this.called, this.log := receipt, sidecar, map[], [], [];
    }

    function Files(): Files
      reads this
    {
      Batch.Files(receipt, sidecar)
    }

    method ReplaceReceipt(r: Receipt)
      modifies this`receipt, this`log
      ensures log == old(log) + [PutReceipt(r)] && Files() == Put(old(Files()), PutReceipt(r))
    {
      receipt := Some(r);
      log := log + [PutReceipt(r)];
    }

    method ReplaceSidecar(s: Sidecar)
      modifies this`sidecar, this`log
      ensures log == old(log) + [PutSidecar(s)] && Files() == Put(old(Files()), PutSidecar(s))
    {
      sidecar := Some(s);
      log := log + [PutSidecar(s)];
    }

    method WriteProgress(ordered: seq<Target>, groups: seq<Entry>, ghost d0: Batch.Files)
      requires Files() == PutAll(d0, log)
      modifies this`receipt, this`sidecar, this`log
      ensures log == old(log) + ProgressOps(ordered, Work(groups, identifiers))
      ensures Files() == PutAll(d0, log)
    {
      PutMore(d0, log, PutReceipt(ReceiptOf(ordered, groups)));
      ReplaceReceipt(ReceiptOf(ordered, groups));
      PutMore(d0, log, PutSidecar(SidecarOf(ordered, identifiers)));
      ReplaceSidecar(SidecarOf(ordered, identifiers));
    }

    method LoadIdentifierState(expected: seq<Target>) returns (error: Option<BatchError>)
      modifies this`identifiers
      ensures match LoadIdentifiers(sidecar, expected)
              case Ok(ids) => error == None && identifiers == ids
              case Err(e) => error == Some(e)
    {
      if sidecar.None? {
        return Some(SidecarMissing);
      }
      var s := sidecar.value;
      if s.targets != expected {
        return Some(SidecarTargetsDiffer);
      }
      if s.targetHash != SetHash(Elements(s.targets)) {
        return Some(SidecarHashInvalid);
      }
      var state: Identifiers := map[];
      var left := s.identifiers.Keys;
      while left != {}
        invariant left <= s.identifiers.Keys
        invariant state == map t | t in s.identifiers && t !in left :: s.identifiers[t]
        invariant forall t | t in state :: t in expected && Distinct(state[t])
        decreases |left|
      {
        var t :| t in left;
        if t !in expected || !Distinct(s.identifiers[t]) {
          return Some(SidecarEntryInvalid);
        }
        state := state[t := s.identifiers[t]];
        left := left - {t};
      }
      assert state == s.identifiers;
      identifiers := state;
      return None;
    }

    method LoadPrevious(expected: seq<Target>) returns (r: Result<map<Target, Entry>, BatchError>)
      modifies this`identifiers
      ensures match Previous(Files(), expected)
              case Ok(loaded) => r == Ok(loaded.previous) && identifiers == loaded.identifiers
              case Err(e) => r == Err(e)
    {
      hide CollectEntries, LoadIdentifiers, Distinct, Elements;
      if receipt.None? {
        return Err(NoReceipt);
      }
      var payload := receipt.value;
      if !Distinct(payload.targets) {
        return Err(ReceiptDuplicateTargets);
      }
      if payload.targets != expected {
        return Err(ReceiptTargetsDiffer);
      }
      if payload.targetHash != SetHash(Elements(payload.targets)) {
        return Err(ReceiptHashInvalid);
      }
      var error := LoadIdentifierState(expected);
      if error.Some? {
        return Err(error.value);
      }
      r := CheckEntries(payload.groups, expected);
    }

    /** The receipt's entries, one by one, against the identifiers just loaded. */
    method CheckEntries(groups: seq<Entry>, expected: seq<Target>) returns (r: Result<map<Target, Entry>, BatchError>)
      ensures r == CollectEntries(groups, expected, identifiers)
    {
      var results: map<Target, Entry> := map[];
      for i := 0 to |groups|
        invariant CollectEntries(groups[..i], expected, identifiers) == Ok(results)
      {
        var entry := groups[i];
        CollectOne(groups[..i], entry, expected, identifiers);
        assert groups[..i + 1] == groups[..i] + [entry];
        CollectStops(groups, expected, identifiers, i + 1);
        if entry.target !in expected {
          return Err(ReceiptUnknownTarget);
        }
        if entry.target in results {
          return Err(ReceiptDuplicateEntry);
        }
        if entry.state == Succeeded {
          if entry.target !in identifiers {
            return Err(IdentifiersIncomplete);
          }
          var ids := identifiers[entry.target];
          if entry.count != |ids| || entry.identifierHash != Some(SetHash(Elements(ids))) {
            return Err(IdentifiersInvalid);
          }
        }
        results := results[entry.target := entry];
      }
      assert groups[..|groups|] == groups;
      return Ok(results);
    }

    /** Runs or resumes the batch. What it writes, which Groups it captures and
        how it ends are those of `RunBatch`, whatever files it finds. */
    method Run(targets: seq<Target>, https: string -> bool, capture: Target -> Attempted, resume: bool)
      returns (ended: Ended)
      requires log == [] && called == []
      modifies this
      ensures BatchRun(log, called, ended) == RunBatch(old(Files()), targets, https, capture, resume)
      ensures Files() == PutAll(old(Files()), log)
    {
      hide OrderedTargets, Previous, Loop, Finish, ProgressOps, PutAll, Then;
      ghost var d0 := Files();
      PutNothing(d0);
      ghost var whole := RunBatch(d0, targets, https, capture, resume);
      var accepted := OrderedTargets(targets, https);
      if accepted.Err? {
        return Rejected(accepted.error);
      }
      var ordered := accepted.value;
      var previous: map<Target, Entry> := map[];
      if resume {
        var loaded := LoadPrevious(ordered);
        if loaded.Err? {
          return Rejected(loaded.error);
        }
        previous := loaded.value;
        ThenNothing(Loop(ordered, 0, Work([], identifiers), previous, capture));
      } else {
        identifiers := map[];
        WriteProgress(ordered, [], d0);
        assert log == ProgressOps(ordered, Work([], map[]));
      }
      ended := Targets(ordered, previous, capture, d0, whole);
    }

    /** The loop over the ordered targets, then the aggregate receipt. */
    method Targets(ordered: seq<Target>, previous: map<Target, Entry>, capture: Target -> Attempted,
                   ghost d0: Batch.Files, ghost whole: BatchRun)
      returns (ended: Ended)
      requires Files() == PutAll(d0, log)
      requires whole == Then(log, called, Loop(ordered, 0, Work([], identifiers), previous, capture))
      modifies this
      ensures BatchRun(log, called, ended) == whole && Files() == PutAll(d0, log)
    {
      hide Finish, ProgressOps, PutAll, Then, EntryOf, Attempts;
      var groups: seq<Entry> := [];
      var i := 0;
      while i < |ordered|
        invariant i <= |ordered| && Files() == PutAll(d0, log)
        invariant whole == Then(log, called, Loop(ordered, i, Work(groups, identifiers), previous, capture))
      {
        var t := ordered[i];
        if Settled(previous, t) {
          groups := groups + [previous[t]];
          if previous[t].state == Stopped {
            ended := Conclude(ordered, groups, d0, whole);
            return;
          }
        } else {
          ghost var log0, called0, work0 := log, called, Work(groups, identifiers);
          var a := capture(t);
          called := called + [t];
          groups := groups + [EntryOf(t, a, Attempts(previous, t))];
          if a.Captured? {
            identifiers := identifiers[t := SortedUnique(a.result.identifiers)];
          }
          assert Work(groups, identifiers) == AfterCapture(work0, t, a, Attempts(previous, t));
          WriteProgress(ordered, groups, d0);
          ghost var ops := ProgressOps(ordered, Work(groups, identifiers));
          ThenMore(log0, called0, ops, [t], Finish(ordered, Work(groups, identifiers)));
          ThenMore(log0, called0, ops, [t], Loop(ordered, i + 1, Work(groups, identifiers), previous, capture));
          ThenEnd(log0, called0, ops, [t], Interrupted(groups));
          if a.Interrupt? {
            return Interrupted(groups);
          }
          if a.Stop? {
            ended := Conclude(ordered, groups, d0, whole);
            return;
          }
        }
        i := i + 1;
      }
      ended := Conclude(ordered, groups, d0, whole);
    }

    method Conclude(ordered: seq<Target>, groups: seq<Entry>, ghost d0: Batch.Files, ghost whole: BatchRun)
      returns (ended: Ended)
      requires Files() == PutAll(d0, log)
      requires whole == Then(log, called, Finish(ordered, Work(groups, identifiers)))
      modifies this`receipt, this`log
      ensures BatchRun(log, called, ended) == whole && Files() == PutAll(d0, log)
    {
      hide PutAll;
      var run := Finish(ordered, Work(groups, identifiers));
      ThenEnd(log, called, run.log, run.called, run.ended);
      if run.ended.Finished? {
        PutMore(d0, log, run.log[0]);
        ReplaceReceipt(run.log[0].receipt);
      }
      return run.ended;
    }

    lemma PutNothing(d: Batch.Files)
      ensures PutAll(d, []) == d
    {
    }
  }

  lemma CollectOne(groups: seq<Entry>, e: Entry, expected: seq<Target>, ids: Identifiers)
    requires CollectEntries(groups, expected, ids).Ok?
    ensures var found := CollectEntries(groups, expected, ids).value;
            CollectEntries(groups + [e], expected, ids)
            == if e.target !in expected then Err(ReceiptUnknownTarget)
               else if e.target in found then Err(ReceiptDuplicateEntry)
               else if e.state == Succeeded && e.target !in ids then Err(IdentifiersIncomplete)
               else if !Matched(ids, e) then Err(IdentifiersInvalid)
               else Ok(found[e.target := e])
  {
    assert (groups + [e])[..|groups|] == groups;
  }

  lemma {:induction false} CollectStops(groups: seq<Entry>, expected: seq<Target>, ids: Identifiers, i: nat)
    requires i <= |groups|
    ensures CollectEntries(groups[..i], expected, ids).Err? ==>
              CollectEntries(groups, expected, ids) == CollectEntries(groups[..i], expected, ids)
    decreases |groups|
  {
    if i < |groups| {
      assert groups[..|groups| - 1][..i] == groups[..i];
      CollectStops(groups[..|groups| - 1], expected, ids, i);
    } else {
      assert groups[..i] == groups;
    }
  }
}
