/** A store over any history: capture jobs whose attempts, each cut short
    anywhere, are interleaved with one another and with cleanups. */
module Histories {
  import opened Basics
  import opened Storage
  import opened Durable
  import opened Capture
  import opened Recovery
  import opened Convergence
  import opened ReachableStates
  import opened Retention
  import opened Replay

  /** What the database holds of one job. */
  datatype Job = Job(rows: seq<Row>, control: Control)

  datatype Store = Store(files: map<CaptureId, Bytes>, tables: Tables, jobs: map<string, Job>)

  /** One attempt of a job, or a cleanup. The pages, the parser and the bounds may
      be others at every attempt, of the same job too. */
  datatype Event =
    | Attempted(world: World, attempt: Try)
    | CleanRecords(cutoff: int)
    | CleanFiles(cutoff: int)

  const NEW_JOB := Job([], Control(None, Planned, []))

  function JobOf(s: Store, job: string): Job {
    if job in s.jobs then s.jobs[job] else NEW_JOB
  }

  /** What an attempt of this job finds. */
  function DiskOf(s: Store, job: string): Disk {
    Disk(Data(s.files, s.tables, JobOf(s, job).rows), JobOf(s, job).control)
  }

  function Put(s: Store, job: string, d: Disk): Store {
    Store(d.data.files, d.data.tables, s.jobs[job := Job(d.data.rows, d.control)])
  }

  function Happen(s: Store, e: Event): Store {
    match e
    case Attempted(w, t) => Put(s, w.job, AfterTry(w, DiskOf(s, w.job), t))
    case CleanRecords(cutoff) =>
      (match Clean(s.tables, cutoff) case Some(t) => s.(tables := t) case None => s)
    case CleanFiles(cutoff) => s.(files := s.files - Expired(s.tables.captures, cutoff).Values)
  }

  function History(s: Store, events: seq<Event>): Store
    decreases |events|
  {
    if events == [] then s else Happen(History(s, events[..|events| - 1]), events[|events| - 1])
  }

  ghost predicate AllParsed(events: seq<Event>) {
    forall e | e in events && e.Attempted? :: WellParsed(e.world)
  }

  ghost predicate AllNested(events: seq<Event>) {
    forall e | e in events && e.Attempted? :: Nested(e.world)
  }

  // ------------------------------------------------------------- the tables

  lemma HappenOrderly(s: Store, e: Event)
    requires Orderly(s.tables) && AllParsed([e]) && AllNested([e])
    ensures Orderly(Happen(s, e).tables)
  {
    hide Sound, Ordered, Clean, AfterTry, WellParsed, Nested;
    assert e in [e];
    match e
    case Attempted(w, t) => TryOrderly(w, DiskOf(s, w.job), t);
    case CleanRecords(cutoff) =>
      CleanupSafeWhenOrdered(s.tables);
      CleanKeepsInvariants(s.tables, cutoff);
    case CleanFiles(_) =>
  }

  /** However many jobs run, whatever crashes, in whatever order their attempts
      and the cleanups come: foreign keys hold, no current counter is missing, no
      observation is an orphan, and the next cleanup goes through at any cutoff
      with the count of the rows it removes. */
  lemma {:induction false} EveryStoreCanBeCleaned(s: Store, events: seq<Event>, cutoff: int)
    requires Orderly(s.tables) && AllParsed(events) && AllNested(events)
    ensures var t := History(s, events).tables;
            && Sound(t) && Ordered(t)
            && Clean(t, cutoff) == Some(Survivors(t, cutoff))
            && CountOld(t, cutoff) == |t.records| - |Survivors(t, cutoff).records|
    decreases |events|
  {
    hide Sound, Ordered, Clean, Survivors, Happen, CountOld, WellParsed, Nested;
    if events != [] {
      var n := |events| - 1;
      EveryStoreCanBeCleaned(s, events[..n], cutoff);
      HappenOrderly(History(s, events[..n]), events[n]);
    }
    var t := History(s, events).tables;
    CleanupSafeWhenOrdered(t);
    CleanSucceedsWhen(t, cutoff);
    DeletedCountIsRowsRemoved(t, cutoff);
  }

  // ----------------------------------------------------------- the evidence

  /** The latest cutoff of the raw cleanups. */
  function LatestCut(cut: Option<int>, events: seq<Event>): (r: Option<int>)
    decreases |events|
  {
    if events == [] then cut
    else
      var before := LatestCut(cut, events[..|events| - 1]);
      match events[|events| - 1]
      case CleanFiles(c) => if before.Some? && before.value >= c then before else Some(c)
      case _ => before
  }

  /** Evidence before records and checkpoints, for every job of the store. */
  ghost predicate AllSealed(s: Store, cut: Option<int>) {
    && Evidenced(s.files, s.tables.captures, cut)
    && forall j | j in s.jobs :: Named(j, s.tables.captures, s.jobs[j].rows)
  }

  lemma AttemptSealed(s: Store, w: World, t: Try, cut: Option<int>)
    requires AllSealed(s, cut) && WellParsed(w)
    ensures AllSealed(Happen(s, Attempted(w, t)), cut)
  {
    hide AfterTry, WellParsed, Evidenced;
    var d := DiskOf(s, w.job);
    TrySealed(w, d, t, cut);
    TryKeepsCaptures(w, d, t);
  }

  /** An attempt never drops a capture. */
  lemma {:induction false} TryKeepsCaptures(w: World, d: Disk, t: Try)
    ensures forall id | id in d.data.tables.captures :: id in AfterTry(w, d, t).data.tables.captures
  {
    hide Attempt, Land;
    LandKeepsCaptures(d, Attempt(w, d, t.clock, t.left).log[..Min(t.kept, |Attempt(w, d, t.clock, t.left).log|)]);
  }

  lemma {:induction false} LandKeepsCaptures(d: Disk, ops: seq<Op>)
    ensures forall id | id in d.data.tables.captures :: id in Land(d, ops).data.tables.captures
    decreases |ops|
  {
    hide ApplyData;
    if ops != [] {
      var next := match Apply(d, ops[0]) case Ok(d') => d' case Err(_) => d;
      if ops[0].OnData? && Apply(d, ops[0]).Ok? { FileStays(d.data, ops[0].op); }
      LandKeepsCaptures(next, ops[1..]);
    }
  }

  lemma CleanRecordsSealed(s: Store, cutoff: int, cut: Option<int>)
    requires AllSealed(s, cut)
    ensures AllSealed(Happen(s, CleanRecords(cutoff)), cut)
  {
    hide Evidenced, Named, KeysHold;
    CleanPhases(s.tables, cutoff);
  }

  lemma CleanFilesSealed(s: Store, cutoff: int, cut: Option<int>, cut': Option<int>)
    requires AllSealed(s, cut) && cut'.Some? && cutoff <= cut'.value
    requires cut.Some? ==> cut.value <= cut'.value
    ensures AllSealed(Happen(s, CleanFiles(cutoff)), cut')
  {
    var s' := Happen(s, CleanFiles(cutoff));
    forall id | id in s.tables.captures && id !in s'.files ensures Outlived(s.tables.captures[id], cut') {
      if id in s.files {
        var other :| other in Expired(s.tables.captures, cutoff) && Expired(s.tables.captures, cutoff)[other] == id;
        assert other == id;
      }
    }
  }

  /** In every such history, whatever names a capture finds it, with the digest
      and size of its raw bytes; and the raw bytes are still there unless a raw
      cleanup has passed the capture's time. */
  lemma {:induction false} EvidenceStays(s: Store, events: seq<Event>, cut: Option<int>)
    requires AllSealed(s, cut) && AllParsed(events)
    ensures AllSealed(History(s, events), LatestCut(cut, events))
    decreases |events|
  {
    hide AllSealed, Happen, WellParsed;
    if events != [] {
      var n := |events| - 1;
      var before := History(s, events[..n]);
      var cut0 := LatestCut(cut, events[..n]);
      EvidenceStays(s, events[..n], cut);
      assert events[n] in events;
      match events[n]
      case Attempted(w, t) => AttemptSealed(before, w, t, cut0);
      case CleanRecords(cutoff) => CleanRecordsSealed(before, cutoff, cut0);
      case CleanFiles(cutoff) => CleanFilesSealed(before, cutoff, cut0, LatestCut(cut, events));
    }
  }

  /** So every record of every job can be traced back: its capture reads back as
      the bytes its identifier was made from, unless a raw cleanup has passed it. */
  lemma {:induction false} RecordsReadBack(s: Store, events: seq<Event>, cut: Option<int>, k: Key)
    requires Orderly(s.tables) && AllSealed(s, cut) && AllParsed(events) && AllNested(events)
    requires k in History(s, events).tables.records
    ensures var e := History(s, events);
            var id := e.tables.records[k].capture;
            && id in e.tables.captures
            && (Outlived(e.tables.captures[id], LatestCut(cut, events))
                || ReadCapture(DiskOf(e, id.job).data, id) == Ok(id.digest.preimage))
  {
    hide Happen, WellParsed, Nested, Ordered;
    EveryStoreCanBeCleaned(s, events, 0);
    EvidenceStays(s, events, cut);
  }

  // --------------------------------------------------------------- the jobs

  /** Every job's checkpoints are gapless and repeat no cursor, it has succeeded
      only behind a terminal one, and its task row and failures fit its state. */
  ghost predicate JobsFit(bound: int, s: Store) {
    forall j | j in s.jobs ::
      RowsAndJobFit(bound, DiskOf(s, j)) && TaskFits(s.jobs[j].control)
  }

  lemma NewJobFits(s: Store, job: string, bound: int)
    requires JobsFit(bound, s)
    ensures RowsAndJobFit(bound, DiskOf(s, job)) && TaskFits(DiskOf(s, job).control)
  {
    hide RowsAndJobFit, TaskFits;
    if job !in s.jobs { EmptyFits(DiskOf(s, job), bound); }
  }

  lemma EmptyFits(d: Disk, bound: int)
    requires d.data.rows == NEW_JOB.rows && d.control == NEW_JOB.control
    ensures RowsAndJobFit(bound, d) && TaskFits(d.control)
  {
  }

  lemma FitsAlike(d: Disk, e: Disk, bound: int)
    requires RowsAndJobFit(bound, d) && d.data.rows == e.data.rows && d.control == e.control
    ensures RowsAndJobFit(bound, e)
  {
  }

  lemma HappenFits(s: Store, e: Event, bound: int)
    requires JobsFit(bound, s) && AllParsed([e]) && (e.Attempted? ==> e.world.maxPages <= bound)
    ensures JobsFit(bound, Happen(s, e))
  {
    hide RowsAndJobFit, TaskFits, WellParsed, Clean, Attempt, Land;
    assert e in [e];
    if e.Attempted? {
      var w, t := e.world, e.attempt;
      var d := DiskOf(s, w.job);
      NewJobFits(s, w.job, bound);
      TryRowsFit(w, d, t, bound);
      AttemptTaskFits(w, d, t.clock, t.left, Min(t.kept, |Attempt(w, d, t.clock, t.left).log|));
      FitsAlike(AfterTry(w, d, t), DiskOf(Happen(s, e), w.job), bound);
    }
    var s' := Happen(s, e);
    forall j | j in s'.jobs ensures RowsAndJobFit(bound, DiskOf(s', j)) && TaskFits(s'.jobs[j].control) {
      if !(e.Attempted? && j == e.world.job) { FitsAlike(DiskOf(s, j), DiskOf(s', j), bound); }
    }
  }

  /** In every such history, with page bounds up to `bound`. */
  lemma {:induction false} EveryJobFits(s: Store, events: seq<Event>, bound: int)
    requires JobsFit(bound, s) && AllParsed(events)
    requires forall e | e in events && e.Attempted? :: e.world.maxPages <= bound
    ensures JobsFit(bound, History(s, events))
    decreases |events|
  {
    hide JobsFit, Happen, WellParsed;
    if events != [] {
      var n := |events| - 1;
      EveryJobFits(s, events[..n], bound);
      assert events[n] in events;
      HappenFits(History(s, events[..n]), events[n], bound);
    }
  }

  /** A job that has ended keeps its checkpoints and its state, and from then on
      its attempts change nothing at all. */
  lemma {:induction false} EndedJobStays(s: Store, events: seq<Event>, job: string)
    requires job in s.jobs && Terminal(s.jobs[job].control.job)
    ensures var e := History(s, events); job in e.jobs && e.jobs[job] == s.jobs[job]
    ensures events != [] && events[|events| - 1].Attempted? && events[|events| - 1].world.job == job ==>
              History(s, events) == History(s, events[..|events| - 1])
    decreases |events|
  {
    hide AfterTry, Clean;
    if events != [] {
      var n := |events| - 1;
      EndedJobStays(s, events[..n], job);
      var before := History(s, events[..n]);
      match events[n]
      case Attempted(w, t) =>
        if w.job == job {
          EndedStays(w, DiskOf(before, job), t);
          assert before.jobs[job := before.jobs[job]] == before.jobs;
        }
      case CleanRecords(_) =>
      case CleanFiles(_) =>
    }
  }

  // ----------------------------------------------------------- step by step

  function AttemptsOf(w: World, tries: seq<Try>): seq<Event> {
    seq(|tries|, i requires 0 <= i < |tries| => Attempted(w, tries[i]))
  }

  /** With nothing in between, a job's attempts do to the store what they do to the
      disk the job finds, and other jobs keep what they have. */
  lemma {:induction false} OneJobsHistory(s: Store, w: World, tries: seq<Try>)
    ensures DiskOf(History(s, AttemptsOf(w, tries)), w.job) == After(w, DiskOf(s, w.job), tries)
    ensures forall j | j != w.job :: JobOf(History(s, AttemptsOf(w, tries)), j) == JobOf(s, j)
    decreases |tries|
  {
    hide AfterTry;
    if tries != [] {
      var n := |tries| - 1;
      assert AttemptsOf(w, tries)[..n] == AttemptsOf(w, tries[..n]);
      OneJobsHistory(s, w, tries[..n]);
    }
  }

  /** A cleanup touches no job; a record cleanup leaves the rows at or after the
      cutoff, a raw cleanup takes the files of the captures collected before it. */
  lemma {:induction false} CleanupsDo(s: Store, cutoff: int, k: Key, f: CaptureId)
    requires Orderly(s.tables)
    ensures var r := Happen(s, CleanRecords(cutoff));
            && r.jobs == s.jobs && r.files == s.files && r.tables.captures == s.tables.captures
            && (k in r.tables.records <==> k in s.tables.records && cutoff <= s.tables.records[k].observedAt)
            && (k in r.tables.records ==> r.tables.records[k] == s.tables.records[k])
    ensures var r := Happen(s, CleanFiles(cutoff));
            && r.jobs == s.jobs && r.tables == s.tables
            && (f in r.files <==>
                  f in s.files
                  && !exists id | id in s.tables.captures ::
                       s.tables.captures[id].path == Some(f) && s.tables.captures[id].collectedAt < cutoff)
            && (f in r.files ==> r.files[f] == s.files[f])
  {
    hide Clean, Sound, Ordered;
    CleanupSafeWhenOrdered(s.tables);
    CleanLeaves(s.tables, cutoff, k, CounterKey(k, "", 0));
    ExpiredNames(s.tables.captures, cutoff, f);
  }
}
