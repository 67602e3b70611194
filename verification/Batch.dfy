/** The sequential operator batch: a receipt and an identifier sidecar, written
    one after the other, and a resume that trusts them only together. */
module Batch {
  import opened Basics
  import opened TextOrder
  import opened Sorting
  import opened Strings

  /** A selected Group; being hashed without collisions, it is its own key. */
  datatype Target = Target(groupId: string, url: string)

  datatype CaptureResult = CaptureResult(runId: string, identifiers: seq<string>, normalized: string, raw: string)

  /** How one capture call ends. */
  datatype Attempted =
    | Captured(result: CaptureResult)
    | Interrupt
    | Stop(errorType: string, reason: string)
    | Recoverable(errorType: string)
    | Broken(errorType: string)

  datatype State = Succeeded | Incomplete | Failed | Stopped

  /** The hash of a set of values, without collisions. */
  datatype SetHash<T> = SetHash(values: set<T>)

  datatype RunHash = RunHash(runId: string)

  datatype Entry = Entry(
    target: Target,
    state: State,
    attempts: nat,
    runId: Option<RunHash>,
    count: nat,
    identifierHash: Option<SetHash<string>>,
    normalized: Option<string>,
    raw: Option<string>,
    errorType: Option<string>,
    stopReason: Option<string>)

  type Identifiers = map<Target, seq<string>>

  datatype Status = Running | BatchStopped | Completed

  datatype Hashes = Hashes(identifiers: SetHash<string>, normalized: SetHash<string>, raw: SetHash<string>)

  datatype Receipt = Receipt(
    targets: seq<Target>, targetHash: SetHash<Target>, groups: seq<Entry>, status: Status, hashes: Option<Hashes>)

  datatype Sidecar = Sidecar(targets: seq<Target>, targetHash: SetHash<Target>, identifiers: Identifiers)

  /** The two progress files. */
  datatype Files = Files(receipt: Option<Receipt>, sidecar: Option<Sidecar>)

  datatype FileOp = PutReceipt(receipt: Receipt) | PutSidecar(sidecar: Sidecar)

  function Put(d: Files, op: FileOp): Files {
    match op
    case PutReceipt(r) => d.(receipt := Some(r))
    case PutSidecar(s) => d.(sidecar := Some(s))
  }

  function PutAll(d: Files, ops: seq<FileOp>): Files
    decreases |ops|
  {
    if ops == [] then d else Put(PutAll(d, ops[..|ops| - 1]), ops[|ops| - 1])
  }

  // ---------------------------------------------------------------- targets

  datatype BatchError =
    | WrongCount
    | MissingGroup
    | MissingUrl
    | NotHttps
    | DuplicateTargets
    | DuplicateGroups
    | DuplicateUrls
    | NoReceipt
    | ReceiptDuplicateTargets
    | ReceiptTargetsDiffer
    | ReceiptHashInvalid
    | SidecarMissing
    | SidecarTargetsDiffer
    | SidecarHashInvalid
    | SidecarEntryInvalid
    | ReceiptUnknownTarget
    | ReceiptDuplicateEntry
    | IdentifiersIncomplete
    | IdentifiersInvalid

  const MAX_GROUPS := 10

  predicate TargetBefore(a: Target, b: Target) {
    Before(a.groupId, b.groupId) || (a.groupId == b.groupId && Before(a.url, b.url))
  }

  /** The first target that is not acceptable on its own, if any. */
  function FirstFault(targets: seq<Target>, https: string -> bool): Option<BatchError> {
    if targets == [] then None
    else if Strip(targets[0].groupId) == "" then Some(MissingGroup)
    else if Strip(targets[0].url) == "" then Some(MissingUrl)
    else if !https(targets[0].url) then Some(NotHttps)
    else FirstFault(targets[1..], https)
  }

  predicate Distinct<T(==)>(s: seq<T>) {
    forall i, j | 0 <= i < j < |s| :: s[i] != s[j]
  }

  function GroupIds(targets: seq<Target>): seq<string> {
    seq(|targets|, i requires 0 <= i < |targets| => targets[i].groupId)
  }

  function Urls(targets: seq<Target>): seq<string> {
    seq(|targets|, i requires 0 <= i < |targets| => targets[i].url)
  }

  function OrderedTargets(targets: seq<Target>, https: string -> bool): Result<seq<Target>, BatchError> {
    if !(1 <= |targets| <= MAX_GROUPS) then Err(WrongCount)
    else
      match FirstFault(targets, https)
      case Some(e) => Err(e)
      case None =>
        if !Distinct(targets) then Err(DuplicateTargets)
        else if !Distinct(GroupIds(targets)) then Err(DuplicateGroups)
        else if !Distinct(Urls(targets)) then Err(DuplicateUrls)
        else Ok(Sort(TargetBefore, targets))
  }

  lemma TextIsOrdered()
    ensures StrictOrder(Before)
  {
    forall a: string ensures !Before(a, a) { NotBeforeItself(a); }
    forall a: string, b: string, c: string | Before(a, b) && Before(b, c) ensures Before(a, c) {
      BeforeChains(a, b, c);
    }
    forall a: string, b: string ensures a == b || Before(a, b) || Before(b, a) {
      if a != b { OneComesFirst(a, b); }
    }
  }

  lemma TargetsAreOrdered()
    ensures StrictOrder(TargetBefore)
  {
    hide Before;
    TextIsOrdered();
    forall a: Target, b: Target ensures a == b || TargetBefore(a, b) || TargetBefore(b, a) {
      assert a.groupId == b.groupId || Before(a.groupId, b.groupId) || Before(b.groupId, a.groupId);
      assert a.url == b.url || Before(a.url, b.url) || Before(b.url, a.url);
    }
  }

  /** The accepted order: each given target once, sorted, whatever order they
      came in. */
  lemma {:induction false} OrderedTargetsSorted(a: seq<Target>, b: seq<Target>, https: string -> bool)
    requires OrderedTargets(a, https).Ok?
    ensures var r := OrderedTargets(a, https).value;
            && Increasing(TargetBefore, r) && Distinct(r)
            && Elements(r) == Elements(a) && |r| == |a|
            && (OrderedTargets(b, https).Ok? ==>
                  (OrderedTargets(b, https).value == r <==> Elements(a) == Elements(b)))
  {
    hide Before, TargetBefore, FirstFault;
    TargetsAreOrdered();
    SortSorts(TargetBefore, a);
    IncreasingDistinct(TargetBefore, Sort(TargetBefore, a));
    DistinctSize(a);
    if OrderedTargets(b, https).Ok? {
      SortSorts(TargetBefore, b);
      if Elements(a) == Elements(b) { SortByElements(TargetBefore, a, b); }
    }
  }

  // ---------------------------------------------------------------- entries

  function SortedUnique(ids: seq<string>): seq<string> {
    Sort(Before, ids)
  }

  function SuccessEntry(t: Target, c: CaptureResult, attempts: nat): Entry {
    var ids := SortedUnique(c.identifiers);
    Entry(t, Succeeded, attempts, Some(RunHash(c.runId)), |ids|, Some(SetHash(Elements(ids))),
          Some(c.normalized), Some(c.raw), None, None)
  }

  function TerminalEntry(t: Target, state: State, attempts: nat, errorType: string, reason: Option<string>): Entry {
    Entry(t, state, attempts, None, 0, None, None, None, Some(errorType), reason)
  }

  function EntryOf(t: Target, a: Attempted, attempts: nat): Entry {
    match a
    case Captured(c) => SuccessEntry(t, c, attempts)
    case Interrupt => TerminalEntry(t, Incomplete, attempts, "KeyboardInterrupt", None)
    case Stop(e, reason) => TerminalEntry(t, Stopped, attempts, e, Some(reason))
    case Recoverable(e) => TerminalEntry(t, Incomplete, attempts, e, None)
    case Broken(e) => TerminalEntry(t, Failed, attempts, e, None)
  }

  /** A succeeded entry's identifiers are the ones kept for its target. */
  predicate Matched(ids: Identifiers, e: Entry) {
    e.state == Succeeded ==>
      && e.target in ids
      && e.count == |ids[e.target]|
      && e.identifierHash == Some(SetHash(Elements(ids[e.target])))
  }

  // ----------------------------------------------------------------- resume

  /** What a resume starts from. */
  datatype Loaded = Loaded(previous: map<Target, Entry>, identifiers: Identifiers)

  function LoadIdentifiers(sidecar: Option<Sidecar>, expected: seq<Target>): Result<Identifiers, BatchError> {
    match sidecar
    case None => Err(SidecarMissing)
    case Some(s) =>
      if s.targets != expected then Err(SidecarTargetsDiffer)
      else if s.targetHash != SetHash(Elements(s.targets)) then Err(SidecarHashInvalid)
      else if exists t | t in s.identifiers :: t !in expected || !Distinct(s.identifiers[t]) then
        Err(SidecarEntryInvalid)
      else Ok(s.identifiers)
  }

  /** Collects the receipt's entries, each checked against the identifiers. */
  function CollectEntries(groups: seq<Entry>, expected: seq<Target>, ids: Identifiers)
    : Result<map<Target, Entry>, BatchError>
  {
    if groups == [] then Ok(map[])
    else
      match CollectEntries(groups[..|groups| - 1], expected, ids)
      case Err(e) => Err(e)
      case Ok(found) =>
        var entry := groups[|groups| - 1];
        if entry.target !in expected then Err(ReceiptUnknownTarget)
        else if entry.target in found then Err(ReceiptDuplicateEntry)
        else if entry.state == Succeeded && entry.target !in ids then Err(IdentifiersIncomplete)
        else if !Matched(ids, entry) then Err(IdentifiersInvalid)
        else Ok(found[entry.target := entry])
  }

  /** Reads both files back, or refuses to resume. */
  function Previous(d: Files, expected: seq<Target>): Result<Loaded, BatchError> {
    match d.receipt
    case None => Err(NoReceipt)
    case Some(r) =>
      if !Distinct(r.targets) then Err(ReceiptDuplicateTargets)
      else if r.targets != expected then Err(ReceiptTargetsDiffer)
      else if r.targetHash != SetHash(Elements(r.targets)) then Err(ReceiptHashInvalid)
      else
        match LoadIdentifiers(d.sidecar, expected)
        case Err(e) => Err(e)
        case Ok(ids) =>
          match CollectEntries(r.groups, expected, ids)
          case Err(e) => Err(e)
          case Ok(previous) => Ok(Loaded(previous, ids))
  }

  // ---------------------------------------------------------------- the run

  /** The entries so far and the identifiers kept. */
  datatype Work = Work(groups: seq<Entry>, identifiers: Identifiers)

  function ReceiptOf(ordered: seq<Target>, groups: seq<Entry>): Receipt {
    Receipt(ordered, SetHash(Elements(ordered)), groups, Running, None)
  }

  function SidecarOf(ordered: seq<Target>, ids: Identifiers): Sidecar {
    Sidecar(ordered, SetHash(Elements(ordered)), map t | t in ids && t in ordered :: ids[t])
  }

  /** The receipt first, then the sidecar. */
  function ProgressOps(ordered: seq<Target>, work: Work): seq<FileOp> {
    [PutReceipt(ReceiptOf(ordered, work.groups)), PutSidecar(SidecarOf(ordered, work.identifiers))]
  }

  predicate Settled(previous: map<Target, Entry>, t: Target) {
    t in previous && previous[t].state != Incomplete
  }

  function Attempts(previous: map<Target, Entry>, t: Target): nat {
    if t in previous then previous[t].attempts + 1 else 1
  }

  /** The work after one target has been captured. */
  function AfterCapture(work: Work, t: Target, a: Attempted, attempts: nat): Work {
    Work(work.groups + [EntryOf(t, a, attempts)],
         if a.Captured? then work.identifiers[t := SortedUnique(a.result.identifiers)] else work.identifiers)
  }

  datatype Ended =
    | Finished(groups: seq<Entry>, hashes: Hashes)
    | Interrupted(groups: seq<Entry>)
    | Rejected(error: BatchError)
    | MissingIdentifiers

  /** What a run wrote, which targets it captured, and how it ended. */
  datatype BatchRun = BatchRun(log: seq<FileOp>, called: seq<Target>, ended: Ended)

  function Results(groups: seq<Entry>): set<Entry> {
    set e | e in groups && e.state == Succeeded
  }

  function HashesOf(groups: seq<Entry>, ids: Identifiers): Hashes {
    Hashes(
      SetHash(set e, i | e in Results(groups) && e.target in ids && i in ids[e.target] :: i),
      SetHash(set e | e in Results(groups) && e.normalized.Some? && e.normalized.value != "" :: e.normalized.value),
      SetHash(set e | e in Results(groups) && e.raw.Some? && e.raw.value != "" :: e.raw.value))
  }

  /** The aggregate receipt; a succeeded entry without identifiers would be an
      error. */
  function Finish(ordered: seq<Target>, work: Work): BatchRun {
    if exists e | e in work.groups :: e.state == Succeeded && e.target !in work.identifiers then
      BatchRun([], [], MissingIdentifiers)
    else
      var hashes := HashesOf(work.groups, work.identifiers);
      var status := if exists e | e in work.groups :: e.state == Stopped then BatchStopped else Completed;
      BatchRun([PutReceipt(Receipt(ordered, SetHash(Elements(ordered)), work.groups, status, Some(hashes)))],
               [], Finished(work.groups, hashes))
  }

  function Then(log: seq<FileOp>, called: seq<Target>, rest: BatchRun): BatchRun {
    BatchRun(log + rest.log, called + rest.called, rest.ended)
  }

  function Loop(ordered: seq<Target>, i: nat, work: Work, previous: map<Target, Entry>, capture: Target -> Attempted)
    : BatchRun
    requires i <= |ordered|
    decreases |ordered| - i
  {
    if i == |ordered| then Finish(ordered, work)
    else
      var t := ordered[i];
      if Settled(previous, t) then
        var next := work.(groups := work.groups + [previous[t]]);
        if previous[t].state == Stopped then Finish(ordered, next)
        else Loop(ordered, i + 1, next, previous, capture)
      else
        var a := capture(t);
        var next := AfterCapture(work, t, a, Attempts(previous, t));
        var ops := ProgressOps(ordered, next);
        if a.Interrupt? then BatchRun(ops, [t], Interrupted(next.groups))
        else if a.Stop? then Then(ops, [t], Finish(ordered, next))
        else Then(ops, [t], Loop(ordered, i + 1, next, previous, capture))
  }

  function RunBatch(
    d: Files, targets: seq<Target>, https: string -> bool, capture: Target -> Attempted, resume: bool): BatchRun
  {
    match OrderedTargets(targets, https)
    case Err(e) => BatchRun([], [], Rejected(e))
    case Ok(ordered) =>
      if resume then
        match Previous(d, ordered)
        case Err(e) => BatchRun([], [], Rejected(e))
        case Ok(loaded) => Loop(ordered, 0, Work([], loaded.identifiers), loaded.previous, capture)
      else
        Then(ProgressOps(ordered, Work([], map[])), [], Loop(ordered, 0, Work([], map[]), map[], capture))
  }
}
