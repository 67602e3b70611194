/** What a captured page leaves in the store, and how its turn ends, told by the
    page's own fields. */
module CapturedPages {
  import opened Basics
  import opened Storage
  import opened Durable
  import opened Capture
  import opened Recovery
  import opened CrashSafety
  import opened Convergence
  import opened ReachableStates
  import opened ClockIndependence

  // --------------------------------------------------------------- the page

  /** The page shows the Group the job is about, under the job's own URL. */
  ghost predicate Expected(w: World, p: Parse) {
    p.Parsed? && p.group.key == Key(Group, w.groupId) && w.sameUrl(p.url)
  }

  /** A Post published at or after the lower bound. */
  ghost predicate Recent(w: World, p: Parse, d: Draft)
    requires p.Parsed?
  {
    d in p.posts && d.published.Some? && w.lowerBound <= d.published.value
  }

  /** What is to be recorded of a page: its Group, its recent Posts, and the Comments
      on those. */
  ghost predicate ToRecord(w: World, p: Parse, d: Draft)
    requires p.Parsed?
  {
    || d == p.group
    || Recent(w, p, d)
    || (d in p.comments && d.parents != [] && exists post :: Recent(w, p, post) && post.key == d.parents[0])
  }

  /** The draft is on record, field by field. */
  ghost predicate OnRecord(t: Tables, d: Draft, at: int, id: CaptureId) {
    && d.key in t.records
    && var r := t.records[d.key];
       r.key == d.key && r.parents == d.parents && r.body == d.body && r.metrics == d.metrics && r.observedAt == at
       && r.capture == id
  }

  /** Each metric of the draft is in the counter history. */
  ghost predicate Measures(t: Tables, d: Draft, at: int, id: CaptureId) {
    forall m | m in d.metrics ::
      && CounterKey(d.key, m.name, at) in t.counters
      && t.counters[CounterKey(d.key, m.name, at)] == Observation(m.value, id)
  }

  /** The identity of the page's capture. */
  function IdOf(w: World, b: Position, raw: Bytes): CaptureId {
    CaptureId(w.job, b.done + 1, if b.cursor == None then "group-root" else b.cursor.value, Sha256(raw))
  }

  lemma {:induction false} KeptAre(w: World, p: Parse, d: Draft)
    requires p.Parsed?
    ensures d in Kept(w, p) <==> ToRecord(w, p, d)
  {
    var posts := SelectedPosts(p.posts, w.lowerBound);
    var comments := KeptComments(p.comments, Keys(posts));
    assert d in Kept(w, p) <==> d == p.group || d in posts || d in comments;
    forall x | x in posts ensures Recent(w, p, x) {
    }
    if d in p.comments && d.parents != [] {
      if exists post :: Recent(w, p, post) && post.key == d.parents[0] {
        var post :| Recent(w, p, post) && post.key == d.parents[0];
        assert post in posts;
      }
      if d.parents[0] in Keys(posts) {
        var post :| post in posts && post.key == d.parents[0];
      }
    }
  }

  lemma AllAbsorbed(w: World, b: Position, page: Fetch, at: int, i: nat)
    requires WellParsed(w) && page.Rendered? && i < |OpsAt(w, b, page, at)|
    requires Exec(b.data, OpsAt(w, b, page, at)).refusal.None?
    ensures Absorbed(Exec(b.data, OpsAt(w, b, page, at)).data, OpsAt(w, b, page, at)[i])
  {
    hide Exec, OpsAt, WellParsed, Absorbed;
    var ops := OpsAt(w, b, page, at);
    PageApart(w, b, page, at);
    DoneIsAbsorbed(b.data, ops, |ops|);
    assert ops[..|ops|] == ops;
  }

  /** A finished page has its Group, its recent Posts and the Comments on them on
      record, with everything the page shows of them. */
  lemma {:induction false} PageOnRecord(w: World, b: Position, page: Fetch, at: int, d: Draft)
    requires WellParsed(w) && page.Rendered? && Expected(w, w.parse(page.raw)) && ToRecord(w, w.parse(page.raw), d)
    requires Exec(b.data, OpsAt(w, b, page, at)).refusal.None?
    ensures var t := Exec(b.data, OpsAt(w, b, page, at)).data.tables;
            OnRecord(t, d, at, IdOf(w, b, page.raw)) && Measures(t, d, at, IdOf(w, b, page.raw))
  {
    hide Exec, OpsAt, WellParsed, Kept, ToRecord;
    KeptAre(w, w.parse(page.raw), d);
    var kept := Kept(w, w.parse(page.raw));
    var j :| 0 <= j < |kept| && kept[j] == d;
    SaveAt(w, b, page, at, j);
    AllAbsorbed(w, b, page, at, j + 3);
    AbsorbedRecord(Exec(b.data, OpsAt(w, b, page, at)).data, OpsAt(w, b, page, at)[j + 3]);
  }

  lemma AbsorbedRecord(d: Data, op: DataOp)
    requires Absorbed(d, op) && op.SaveRecord?
    ensures var r := op.record;
            r.key in d.tables.records && d.tables.records[r.key] == r && Counted(d.tables, r)
  {
    hide Save;
    AbsorbedSave(d.tables, op.record);
  }

  // ------------------------------------------------------ and nothing else

  /** What any writes leave as it was: every observation, and every record they do
      not save. */
  lemma {:induction false} ExecKeeps(d: Data, ops: seq<DataOp>)
    ensures var e := Exec(d, ops).data.tables;
            && (forall c | c in d.tables.counters :: c in e.counters && e.counters[c] == d.tables.counters[c])
            && (forall k | k in d.tables.records && (forall op | op in ops && op.SaveRecord? :: op.record.key != k) ::
                  k in e.records && e.records[k] == d.tables.records[k])
    decreases |ops|
  {
    hide ApplyData;
    if ops != [] && ApplyData(d, ops[0]).Ok? {
      OpKeeps(d, ops[0]);
      ExecKeeps(ApplyData(d, ops[0]).value, ops[1..]);
      assert forall op | op in ops[1..] :: op in ops;
      assert ops[0] in ops;
    }
  }

  lemma OpKeeps(d: Data, op: DataOp)
    requires ApplyData(d, op).Ok?
    ensures var e := ApplyData(d, op).value.tables;
            && (forall c | c in d.tables.counters :: c in e.counters && e.counters[c] == d.tables.counters[c])
            && (forall k | k in d.tables.records && (op.SaveRecord? ==> op.record.key != k) ::
                  k in e.records && e.records[k] == d.tables.records[k])
  {
  }

  /** After `i` writes, an observation is an old one or one a save has made. */
  lemma {:induction false} CountersFrom(d: Data, ops: seq<DataOp>, i: nat, c: CounterKey)
    requires i <= Exec(d, ops).done && c in Exec(d, ops[..i]).data.tables.counters
    ensures c in d.tables.counters
            || exists j | 0 <= j < i :: ops[j].SaveRecord? && MakesOne(ops[j].record, c)
  {
    hide Exec, ApplyData;
    if i == 0 {
      assert ops[..0] == [];
      ExecNothing(d);
    } else {
      ExecStep(d, ops, i - 1);
      var before := Exec(d, ops[..i - 1]).data;
      if c in before.tables.counters {
        CountersFrom(d, ops, i - 1, c);
      } else {
        OneMore(before, ops[i - 1], c);
      }
    }
  }

  ghost predicate MakesOne(r: Record, c: CounterKey) {
    exists m | m in r.metrics :: c == CounterKey(r.key, m.name, r.observedAt)
  }

  lemma OneMore(d: Data, op: DataOp, c: CounterKey)
    requires ApplyData(d, op).Ok? && c !in d.tables.counters && c in ApplyData(d, op).value.tables.counters
    ensures op.SaveRecord? && MakesOne(op.record, c)
  {
    if op.SaveRecord? {
      var r := op.record;
      AddCountersAppends(d.tables.counters, r.key, r.observedAt, r.capture, r.metrics);
    }
  }

  /** A page changes no other record, and makes no other observation; so a Post
      without a time or before the bound leaves no trace. */
  lemma {:induction false} PageNothingElse(w: World, b: Position, page: Fetch, at: int, k: Key)
    requires page.Rendered?
    requires w.parse(page.raw).Parsed? ==> forall d | ToRecord(w, w.parse(page.raw), d) :: d.key != k
    ensures var t, t' := b.data.tables, Exec(b.data, OpsAt(w, b, page, at)).data.tables;
            && (k in t'.records <==> k in t.records) && (k in t.records ==> t'.records[k] == t.records[k])
            && forall c: CounterKey | c.entity == k :: c in t'.counters <==> c in t.counters
  {
    hide Exec, OpsAt, Kept, ToRecord;
    var ops := OpsAt(w, b, page, at);
    var done := Exec(b.data, ops).done;
    forall i | 0 <= i < |ops| && ops[i].SaveRecord? ensures ops[i].record.key != k {
      SaveFrom(w, b, page, at, i);
      KeptAre(w, w.parse(page.raw), Kept(w, w.parse(page.raw))[i - 3]);
    }
    ExecKeeps(b.data, ops);
    ExecDone(b.data, ops);
    RecordsFrom(b.data, ops, done);
    forall c: CounterKey | c.entity == k && c in Exec(b.data, ops).data.tables.counters
      ensures c in b.data.tables.counters
    {
      CountersFrom(b.data, ops, done, c);
    }
  }

  /** The same, told of one Post that is out of bounds. */
  lemma {:induction false} OldPostsLeaveNothing(w: World, b: Position, page: Fetch, at: int, d: Draft)
    requires WellParsed(w) && page.Rendered? && w.parse(page.raw).Parsed? && d in w.parse(page.raw).posts
    requires d.published == None || d.published.value < w.lowerBound
    ensures var t, t' := b.data.tables, Exec(b.data, OpsAt(w, b, page, at)).data.tables;
            && (d.key in t'.records <==> d.key in t.records)
            && (d.key in t.records ==> t'.records[d.key] == t.records[d.key])
            && forall c: CounterKey | c.entity == d.key :: c in t'.counters <==> c in t.counters
  {
    hide Exec, OpsAt;
    var p := w.parse(page.raw);
    forall x | ToRecord(w, p, x) ensures x.key != d.key {
      if x in p.posts {
        var i :| 0 <= i < |p.posts| && p.posts[i] == x;
        var j :| 0 <= j < |p.posts| && p.posts[j] == d;
      }
    }
    PageNothingElse(w, b, page, at, d.key);
  }

  /** The page's raw file, its metadata and its checkpoint. */
  lemma {:induction false} PageEvidenceIs(w: World, b: Position, page: Fetch, now: int)
    requires WellParsed(w) && page.Rendered? && Standing(b)
    requires var at := TimeFor(b.data, IdOf(w, b, page.raw), now);
             Exec(b.data, OpsAt(w, b, page, at)).refusal.None?
    ensures var id := IdOf(w, b, page.raw);
            var at := TimeFor(b.data, id, now);
            var e := Exec(b.data, OpsAt(w, b, page, at)).data;
            && id in e.files && e.files[id] == page.raw
            && id in e.tables.captures
            && e.tables.captures[id] == Meta(Sha256(page.raw), w.url, at, Some(id), Some(|page.raw|))
            && (id in b.data.tables.captures ==> e.tables.captures[id] == b.data.tables.captures[id])
            && (id !in b.data.tables.captures ==> at == now)
            && e.rows
               == b.data.rows
                  + if !Expected(w, w.parse(page.raw)) then []
                    else if page.next == None then [Row(b.done + 1, None, id)]
                    else if b.done + 1 < w.maxPages && page.next.value !in b.seen then
                      [Row(b.done + 1, page.next, id)]
                    else []
  {
    hide Exec, OpsAt, WellParsed, Standing;
    var id := IdOf(w, b, page.raw);
    assert id == PageCapture(w, b, page);
    var at := TimeFor(b.data, id, now);
    var ops := OpsAt(w, b, page, at);
    var e := Exec(b.data, ops).data;
    RawWrites(w, b, page, at);
    AllAbsorbed(w, b, page, at, 0);
    AllAbsorbed(w, b, page, at, 1);
    AbsorbedEvidence(e, ops[0], ops[1]);
    StoredTime(w, b, page, at, at + 1, |ops|);
    assert ops[..|ops|] == ops;
    CapturesStay(b.data, ops);
    RowsAfter(w, b, page, at);
  }

  lemma RawWrites(w: World, b: Position, page: Fetch, at: int)
    requires page.Rendered?
    ensures var ops := OpsAt(w, b, page, at);
            var id := IdOf(w, b, page.raw);
            && |ops| >= 2 && ops[0] == WriteFile(id, page.raw)
            && ops[1] == AddCapture(id, Meta(Sha256(page.raw), w.url, at, Some(id), Some(|page.raw|)))
  {
    hide PersistOps, CheckpointOps, Judge;
  }

  lemma AbsorbedEvidence(d: Data, file: DataOp, meta: DataOp)
    requires Absorbed(d, file) && file.WriteFile? && Absorbed(d, meta) && meta.AddCapture? && meta.meta.path.Some?
    ensures file.id in d.files && d.files[file.id] == file.raw
    ensures meta.id in d.tables.captures
    ensures var stored := d.tables.captures[meta.id]; stored == meta.meta.(collectedAt := stored.collectedAt)
  {
    assert file.id in d.files[file.id := file.raw];
    assert meta.id in d.tables.captures[meta.id := meta.meta];
  }

  // ------------------------------------------------------- how a turn ends

  /** One turn of the loop on a running job, from the page's own fields: what it
      ends with, and what that leaves of task, job and failures; or the next turn. */
  lemma {:induction false} TurnEnds(w: World, p: Position, clock: Clock, left: Option<nat>, d: Disk)
    requires d.data == p.data && d.control.job == Running
    ensures var page := w.fetch(p.cursor);
            var run := Loop(w, p, clock, left);
            var after := Land(d, run.log);
            match page
            case Stopped(f) => Ends(d, run, after, p.data, Failing(f), Failed, Some(Failure(None, f)))
            case Rendered(raw, next) =>
              var id := Some(IdOf(w, p, raw));
              var e := Exec(p.data, PageOps(w, p, clock));
              if e.refusal.Some? then
                run.outcome == Refused(e.refusal.value) && after == Disk(e.data, d.control)
              else if !Expected(w, w.parse(raw)) then
                Ends(d, run, after, e.data, Failing("parser_drift"), Failed, Some(Failure(id, "parser_drift")))
              else if next.Some? && p.done + 1 >= w.maxPages then
                Ends(d, run, after, e.data, Failing("page_limit"), Failed, Some(Failure(id, "page_limit")))
              else if next.Some? && next.value in p.seen then
                Ends(d, run, after, e.data, Failing("pagination_loop"), Failed, Some(Failure(id, "pagination_loop")))
              else if left == Some(1) then Ends(d, run, after, e.data, Paused, Interrupted, None)
              else if next.None? then Ends(d, run, after, e.data, Success, Succeeded, None)
              else
                var rest := Loop(w, Position(p.done + 1, next, p.seen + {next.value}, e.data), clock, Less(left));
                && run.outcome == rest.outcome && run.fetched == [p.cursor] + rest.fetched
                && after == Land(d.(data := e.data), rest.log)
  {
    hide PageOps, Exec, Loop, Land, LoopTail, Expected, FailOps, FailureClass, Judge, PageCapture, Ends, IdOf;
    var page := w.fetch(p.cursor);
    var e := Exec(p.data, PageOps(w, p, clock));
    var d1 := d.(data := e.data);
    var run := Loop(w, p, clock, left);
    LoopLands(w, p, clock, left, d);
    LandNothing(d1);
    TailIs(w, p, clock, left);
    PausesWith(d, d1, run);
    SucceedsWith(d, d1, run);
    if page.Stopped? {
      StoppedTurn(w, p, clock, left);
      StoppedOps(w, p, clock);
      ExecNothing(p.data);
      FailsWith(d, d1, run, Failure(None, page.failure));
    } else {
      LoopTurn(w, p, clock, left);
      JudgedBy(w, p, page);
      FailsWith(d, d1, run, Failure(Some(IdOf(w, p, page.raw)), FailureClass(Judge(w, p, page))));
    }
  }

  lemma LoopLands(w: World, p: Position, clock: Clock, left: Option<nat>, d: Disk)
    requires d.data == p.data
    ensures Land(d, Loop(w, p, clock, left).log)
            == Land(d.(data := Exec(p.data, PageOps(w, p, clock)).data), LoopTail(w, p, clock, left))
  {
    hide PageOps, Exec, Loop, Land, LoopTail;
    var e := Exec(p.data, PageOps(w, p, clock));
    var log, tail := Loop(w, p, clock, left).log, LoopTail(w, p, clock, left);
    LoopRest(w, p, clock, left, d, |tail|);
    LoopUnfolds(w, p, clock, left);
    assert log[..e.done + |tail|] == log && tail[..|tail|] == tail;
  }

  /** The run ends so, with this data, leaving job, task and failures so. */
  ghost predicate Ends(
    before: Disk, run: Run, after: Disk, data: Data, outcome: Outcome, job: JobState, f: Option<Failure>)
  {
    && run.outcome == outcome && after.data == data && after.control.job == job
    && after.control.task == Some(if job == Failed then TaskFailed else if job == Succeeded then TaskSucceeded
                                  else TaskInterrupted)
    && after.control.failures == before.control.failures + (if f.Some? then [f.value] else [])
  }

  lemma FailsWith(before: Disk, d: Disk, run: Run, f: Failure)
    requires d.control == before.control && d.control.job == Running
    ensures run.outcome == Failing(f.class_) ==>
              Ends(before, run, Land(d, FailOps(f.capture, f.class_)), d.data, Failing(f.class_), Failed, Some(f))
  {
    hide Land;
    var ops := FailOps(f.capture, f.class_);
    FailControl(d, f, 3);
    assert ops[..3] == ops;
  }

  lemma PausesWith(before: Disk, d: Disk, run: Run)
    requires d.control == before.control && d.control.job == Running
    ensures run.outcome == Paused ==> Ends(before, run, Land(d, PAUSE_OPS), d.data, Paused, Interrupted, None)
  {
    hide Land;
    EndControl(d, PAUSE_OPS, 2);
    assert PAUSE_OPS[..2] == PAUSE_OPS;
  }

  lemma SucceedsWith(before: Disk, d: Disk, run: Run)
    requires d.control == before.control && d.control.job == Running
    ensures run.outcome == Success ==> Ends(before, run, Land(d, SUCCESS_OPS), d.data, Success, Succeeded, None)
  {
    hide Land;
    EndControl(d, SUCCESS_OPS, 2);
    assert SUCCESS_OPS[..2] == SUCCESS_OPS;
  }

  lemma JudgedBy(w: World, p: Position, page: Fetch)
    requires page.Rendered?
    ensures PageCapture(w, p, page) == IdOf(w, p, page.raw)
    ensures var v := Judge(w, p, page);
            if !Expected(w, w.parse(page.raw)) then v == ParserDrift && FailureClass(v) == "parser_drift"
            else if page.next.Some? && p.done + 1 >= w.maxPages then v == PageLimit && FailureClass(v) == "page_limit"
            else if page.next.Some? && page.next.value in p.seen then
              v == CursorLoop && FailureClass(v) == "pagination_loop"
            else if page.next.None? then v == Finish
            else v == Continue(page.next.value)
  {
  }

  lemma TailIs(w: World, p: Position, clock: Clock, left: Option<nat>)
    ensures var page := w.fetch(p.cursor);
            var e := Exec(p.data, PageOps(w, p, clock));
            var tail := LoopTail(w, p, clock, left);
            match page
            case Stopped(f) => tail == FailOps(None, f)
            case Rendered(_, _) =>
              if e.refusal.Some? then tail == []
              else
                match Judge(w, p, page)
                case Finish => tail == (if left == Some(1) then PAUSE_OPS else SUCCESS_OPS)
                case Continue(next) =>
                  tail == (if left == Some(1) then PAUSE_OPS
                           else Loop(w, Advance(p, next, e.data), clock, Less(left)).log)
                case v => tail == FailOps(Some(PageCapture(w, p, page)), FailureClass(v))
  {
    hide PageOps, Exec, Loop, Judge, PageCapture;
  }

  /** When an attempt starts at all, and where. */
  lemma {:induction false} AttemptStarts(w: World, d: Disk, clock: Clock, left: Option<nat>)
    ensures var run := Attempt(w, d, clock, left);
            if w.maxPages <= 0 || left == Some(0) then run == Run([], [], InvalidBound)
            else if d.control.job in {Succeeded, Failed, Cancelled} then run == Run([], [], NotRunnable)
            else
              var start := Control(Some(TaskRunning), Running, d.control.failures);
              if TerminalRow(d.data.rows) && d.data.rows[|d.data.rows| - 1].number > 0 then
                && run.outcome == Success && run.fetched == []
                && Land(d, run.log) == Disk(d.data, Control(Some(TaskSucceeded), Succeeded, d.control.failures))
              else
                var loop := Loop(w, Resume(d.data), clock, left);
                && run.outcome == loop.outcome && run.fetched == loop.fetched
                && Land(d, run.log) == Land(Disk(d.data, start), loop.log)
  {
    hide Loop, Land, Resume;
    assert Runnable(d.control.job) || d.control.job in {Succeeded, Failed, Cancelled} by {
      match d.control.job case Planned => case Running => case Partial => case Succeeded => case Failed =>
      case Interrupted => case Cancelled =>
    }
    if w.maxPages > 0 && left != Some(0) && Runnable(d.control.job) {
      var p := Resume(d.data);
      var start := StartOps(d.control.job);
      var d1 := Disk(d.data, Control(Some(TaskRunning), Running, d.control.failures));
      StartLands(d);
      LandSplit(d, start, SUCCESS_OPS);
      LandSplit(d, start, Loop(w, p, clock, left).log);
      EndControl(d1, SUCCESS_OPS, 2);
      assert SUCCESS_OPS[..2] == SUCCESS_OPS;
      ResumesAt(d.data);
    }
  }

  lemma StartLands(d: Disk)
    requires Runnable(d.control.job)
    ensures Land(d, StartOps(d.control.job)) == Disk(d.data, Control(Some(TaskRunning), Running, d.control.failures))
  {
    var ops := StartOps(d.control.job);
    if |ops| == 2 {
      assert ops == [ops[0]] + [ops[1]];
      LandSplit(d, [ops[0]], [ops[1]]);
      LandOne(d, ops[0]);
      LandOne(Apply(d, ops[0]).value, ops[1]);
    } else {
      assert ops == [SetTask(TaskRunning)];
      LandOne(d, ops[0]);
    }
  }

  /** Where an attempt takes up again: behind the last checkpoint, with all its
      cursors seen. */
  lemma {:induction false} ResumesAt(data: Data)
    ensures var p := Resume(data);
            && p.data == data
            && (data.rows == [] ==> p.done == 0 && p.cursor == None && p.seen == {})
            && (data.rows != [] ==>
                  var last := data.rows[|data.rows| - 1];
                  p.done == last.number && p.cursor == last.cursor
                  && forall c :: c in p.seen <==> exists r | r in data.rows :: r.cursor == Some(c))
  {
    var p := Resume(data);
    forall c | exists r | r in data.rows :: r.cursor == Some(c) ensures data.rows != [] ==> c in p.seen {
      var r :| r in data.rows && r.cursor == Some(c);
    }
  }

  // ---------------------------------------------------------- the whole run

  lemma {:induction false} ReachShift(w: World, p: Position, c: Clock, q: Position, k: nat)
    requires StepTo(w, p, c) == Some(q)
    ensures Reach(w, p, c, k + 1) == Reach(w, q, c, k)
  {
    hide StepTo;
    if k == 0 {
      assert Reach(w, p, c, 0) == Some(p);
    } else {
      ReachShift(w, p, c, q, k - 1);
    }
  }

  /** No page the run comes to from here shows this key. */
  ghost predicate NotShown(w: World, p: Position, c: Clock, k: Key) {
    forall n: nat, b: Position, raw: Bytes |
      Reach(w, p, c, n) == Some(b) && w.fetch(b.cursor).Rendered? && raw == w.fetch(b.cursor).raw
      && w.parse(raw).Parsed? ::
      forall d | ToRecord(w, w.parse(raw), d) :: d.key != k
  }

  lemma NotShownNow(w: World, p: Position, c: Clock, k: Key)
    requires NotShown(w, p, c, k) && w.fetch(p.cursor).Rendered? && w.parse(w.fetch(p.cursor).raw).Parsed?
    ensures forall d | ToRecord(w, w.parse(w.fetch(p.cursor).raw), d) :: d.key != k
  {
    assert Reach(w, p, c, 0) == Some(p);
  }

  lemma NotShownNext(w: World, p: Position, c: Clock, k: Key, q: Position)
    requires NotShown(w, p, c, k) && StepTo(w, p, c) == Some(q)
    ensures NotShown(w, q, c, k)
  {
    hide StepTo, ToRecord;
    forall n: nat, b: Position, raw: Bytes |
      Reach(w, q, c, n) == Some(b) && w.fetch(b.cursor).Rendered? && raw == w.fetch(b.cursor).raw
      && w.parse(raw).Parsed?
      ensures forall d | ToRecord(w, w.parse(raw), d) :: d.key != k
    {
      ReachShift(w, p, c, q, n);
    }
  }

  /** Through the rest of a run no observation is lost, and a record that no later
      page shows stays as it is; nor is a capture changed. */
  lemma {:induction false} IdealKeeps(w: World, p: Position, c: Clock, k: Key)
    ensures var t, t' := p.data.tables, Ideal(w, p, c).data.tables;
            && (forall x | x in t.counters :: x in t'.counters && t'.counters[x] == t.counters[x])
            && (forall x | x in t.captures :: x in t'.captures && t'.captures[x] == t.captures[x])
            && (NotShown(w, p, c, k) && k in t.records ==> k in t'.records && t'.records[k] == t.records[k])
    decreases w.maxPages - p.done
  {
    hide Exec, OpsAt, EndOf, StepTo, NotShown;
    var page := w.fetch(p.cursor);
    ExecKeeps(p.data, PageOps(w, p, c));
    CapturesStay(p.data, PageOps(w, p, c));
    if NotShown(w, p, c, k) && page.Rendered? {
      if w.parse(page.raw).Parsed? { NotShownNow(w, p, c, k); }
      PageNothingElse(w, p, page, TimeFor(p.data, PageCapture(w, p, page), c(p.done + 1)), k);
    }
    if page.Stopped? {
      StoppedOps(w, p, c);
      ExecNothing(p.data);
    }
    if StepTo(w, p, c).Some? {
      var q := StepTo(w, p, c).value;
      StepDone(w, p, c);
      StepData(w, p, c);
      if NotShown(w, p, c, k) { NotShownNext(w, p, c, k, q); }
      IdealKeeps(w, q, c, k);
    }
  }

  lemma StepData(w: World, p: Position, c: Clock)
    requires StepTo(w, p, c).Some?
    ensures StepTo(w, p, c).value.data == Exec(p.data, PageOps(w, p, c)).data
  {
    hide Exec, PageOps;
  }

  /** The page the run comes to after `k` others is written whole and shows the
      draft. */
  ghost predicate ShownOn(w: World, b: Position, c: Clock, d: Draft) {
    var page := w.fetch(b.cursor);
    && page.Rendered? && Expected(w, w.parse(page.raw)) && ToRecord(w, w.parse(page.raw), d)
    && Exec(b.data, PageOps(w, b, c)).refusal.None?
  }

  /** No later page of the run shows the draft's key again. */
  ghost predicate LastShown(w: World, b: Position, c: Clock, k: Key) {
    StepTo(w, b, c).Some? ==> NotShown(w, StepTo(w, b, c).value, c, k)
  }

  /** What a run shows is in its final data: every observation of every page, and
      each record as the last page that showed it. */
  lemma {:induction false} RunOnRecord(w: World, p: Position, c: Clock, k: nat, b: Position, d: Draft)
    requires WellParsed(w) && Reach(w, p, c, k) == Some(b) && ShownOn(w, b, c, d)
    ensures var t := Ideal(w, p, c).data.tables;
            var id := IdOf(w, b, w.fetch(b.cursor).raw);
            && id in t.captures
            && Measures(t, d, t.captures[id].collectedAt, id)
            && (LastShown(w, b, c, d.key) ==> OnRecord(t, d, t.captures[id].collectedAt, id))
  {
    hide Exec, OpsAt, WellParsed, EndOf, StepTo, NotShown, ToRecord, Reach;
    var page := w.fetch(b.cursor);
    var id := IdOf(w, b, page.raw);
    assert id == PageCapture(w, b, page);
    var at := TimeFor(b.data, id, c(b.done + 1));
    var e := Exec(b.data, PageOps(w, b, c)).data;
    IdealFromReach(w, p, c, k);
    PageOnRecord(w, b, page, at, d);
    RawWrites(w, b, page, at);
    AllAbsorbed(w, b, page, at, 0);
    AllAbsorbed(w, b, page, at, 1);
    AbsorbedEvidence(e, OpsAt(w, b, page, at)[0], OpsAt(w, b, page, at)[1]);
    StoredTime(w, b, page, at, at + 1, |OpsAt(w, b, page, at)|);
    assert OpsAt(w, b, page, at)[..|OpsAt(w, b, page, at)|] == OpsAt(w, b, page, at);
    if StepTo(w, b, c).Some? {
      StepData(w, b, c);
      IdealKeeps(w, StepTo(w, b, c).value, c, d.key);
    }
  }

  /** So, whatever crashes, pauses and attempts came before, the data of a job whose
      last attempt is left alone holds what the pages of one run show. */
  lemma {:induction false} JobOnRecord(w: World, d: Disk, tries: seq<Try>, now: Clock, k: nat, draft: Draft)
    returns (clock: Clock)
    requires WellParsed(w) && Created(d) && w.maxPages > 0
    ensures var final := Uninterrupted(w, After(w, d, tries), now).data;
            var reached := Reach(w, Start(d.data), clock, k);
            && final == Ideal(w, Start(d.data), clock).data
            && (reached.Some? && ShownOn(w, reached.value, clock, draft) ==>
                  var b := reached.value;
                  var id := IdOf(w, b, w.fetch(b.cursor).raw);
                  && id in final.tables.captures
                  && Measures(final.tables, draft, final.tables.captures[id].collectedAt, id)
                  && (LastShown(w, b, clock, draft.key) ==>
                        OnRecord(final.tables, draft, final.tables.captures[id].collectedAt, id)))
  {
    hide Attempt, Land, Exec, Ideal, WellParsed, ShownOn, LastShown, OnRecord, Measures, After, Reach;
    var top;
    clock, top := Completes(w, d, tries, [], now, 0);
    var reached := Reach(w, Start(d.data), clock, k);
    if reached.Some? && ShownOn(w, reached.value, clock, draft) {
      RunOnRecord(w, Start(d.data), clock, k, reached.value, draft);
    }
  }
}
