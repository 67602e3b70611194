/** The resumable page loop, step by step, with the order of its durable writes
    kept in a log. */
module CaptureWorkflow {
  import opened Basics
  import opened Storage
  import opened Durable
  import opened Capture
  import opened Stores
  import opened CrashSafety

  lemma ExecExtend(d: Data, ops: seq<DataOp>, i: nat)
    requires i < |ops| && Exec(d, ops[..i]).refusal.None?
    ensures var next := ApplyData(Exec(d, ops[..i]).data, ops[i]);
            && (next.Ok? ==> Exec(d, ops[..i + 1]) == Progress(i + 1, next.value, None))
            && (next.Err? ==> Exec(d, ops) == Progress(i, Exec(d, ops[..i]).data, Some(next.error)))
  {
    hide ApplyData, Exec;
    var mid := Exec(d, ops[..i]).data;
    ExecOne(mid, ops[i]);
    assert ops[..i + 1] == ops[..i] + [ops[i]];
    ExecSplit(d, ops[..i], [ops[i]]);
    assert ops == ops[..i + 1] + ops[i + 1..];
    ExecSplit(d, ops[..i + 1], ops[i + 1..]);
  }

  lemma SavesSplit(w: World, id: CaptureId, raw: Bytes, at: int)
    requires Accepted(w, w.parse(raw))
    ensures var p := w.parse(raw);
            var posts := SelectedPosts(p.posts, w.lowerBound);
            PersistOps(w, id, raw, at)
            == [AddCapture(id, PageMeta(w, id, raw, at)), SaveRecord(Stamp(p.group, id, at))]
               + Saves(StampAll(posts, id, at))
               + Saves(StampAll(KeptComments(p.comments, Keys(posts)), id, at))
  {
    hide SelectedPosts, KeptComments;
    var p := w.parse(raw);
    var posts := SelectedPosts(p.posts, w.lowerBound);
    var comments := KeptComments(p.comments, Keys(posts));
    assert Saves(StampAll([p.group] + posts + comments, id, at))
           == [SaveRecord(Stamp(p.group, id, at))] + Saves(StampAll(posts, id, at)) + Saves(StampAll(comments, id, at));
  }

  lemma ExecNone(d: Data)
    ensures Exec(d, []) == Progress(0, d, None) && Lift([]) == []
  {
  }

  lemma LiftOne(op: DataOp)
    ensures Lift([op]) == [OnData(op)] && Lift([op][..1]) == [OnData(op)] && Lift([op][..0]) == []
  {
  }

  lemma LiftAppend(a: seq<DataOp>, b: seq<DataOp>)
    ensures Lift(a + b) == Lift(a) + Lift(b)
  {
  }

  lemma NoPersist(w: World, id: CaptureId, raw: Bytes, at: int, number: nat)
    requires !Accepted(w, w.parse(raw))
    ensures PersistOps(w, id, raw, at) == [] && CheckpointOps(ParserDrift, number, id) == []
  {
  }

  lemma LandTwo(d: Disk, a: Op, b: Op)
    requires Apply(d, a).Ok? && Apply(Apply(d, a).value, b).Ok?
    ensures Land(d, [a, b]) == Apply(Apply(d, a).value, b).value
  {
    hide Apply;
    LandOne(d, a);
    LandOne(Apply(d, a).value, b);
    assert [a, b] == [a] + [b];
    LandSplit(d, [a], [b]);
  }

  /** A list of writes run after `a`, with `c` still to come. */
  lemma Chain(d: Data, a: seq<DataOp>, b: seq<DataOp>, c: seq<DataOp>)
    requires Exec(d, a).refusal.None?
    ensures var e := Exec(Exec(d, a).data, b);
            && (e.refusal.None? ==> Exec(d, a + b) == Progress(|a| + |b|, e.data, None))
            && (e.refusal.Some? ==> Exec(d, a + b + c) == Progress(|a| + e.done, e.data, e.refusal))
            && (a + b + c)[..|a| + e.done] == a + b[..e.done]
            && Lift(a + b[..e.done]) == Lift(a) + Lift(b[..e.done])
            && (e.refusal.None? ==> b[..e.done] == b)
  {
    hide ApplyData, Exec;
    ExecSplit(d, a, b);
    ExecSplit(d, a + b, c);
  }

  /** The pages still allowed before the planned pause. */
  function Remaining(left: Option<nat>, pages: nat): Option<nat>
    requires left.Some? ==> pages <= left.value
  {
    match left
    case None => None
    case Some(n) => Some(n - pages)
  }

  lemma LandWritten(d0: Disk, log: seq<Op>, ops: seq<DataOp>)
    ensures var d := Land(d0, log);
            var e := Exec(d.data, ops);
            Land(d0, log + Lift(ops[..e.done])) == d.(data := e.data)
  {
    hide ApplyData, Exec, Land;
    var d := Land(d0, log);
    var e := Exec(d.data, ops);
    ExecPrefix(d.data, ops, e.done);
    ExecDone(d.data, ops);
    LandSplit(d0, log, Lift(ops[..e.done]));
    LandLift(d, ops[..e.done]);
  }

  class LiveCaptureWorkflow {
    const world: World
    const raw: RawStore
    const database: Database
    ghost var log: seq<Op>
    var fetched: seq<Option<string>>

    constructor (world: World, raw: RawStore, database: Database)
      ensures this.world == world && this.raw == raw && this.database == database
      ensures log == [] && fetched == []
    {
      this.world, this.raw, this.database, this.log, this.fetched := world, raw, database, [], [];
    }

    function Data(): Data
      reads raw, database
    {
      Durable.Data(raw.files, database.Tables(), database.rows)
    }

    function Disk(): Disk
      reads raw, database
    {
      Durable.Disk(Data(), database.Control())
    }

    /** One durable data write. */
    method Perform(op: DataOp) returns (refusal: Option<Refusal>)
      modifies raw, database, this`log
      ensures ApplyData(old(Data()), op).Ok? ==>
                refusal == None && Data() == ApplyData(old(Data()), op).value && log == old(log) + [OnData(op)]
      ensures ApplyData(old(Data()), op).Err? ==>
                refusal == Some(ApplyData(old(Data()), op).error) && Data() == old(Data()) && log == old(log)
      ensures database.Control() == old(database.Control())
    {
      match op {
        case WriteFile(id, bytes) =>
          refusal := raw.Write(id, bytes);
          assert id in old(raw.files) && refusal.None? ==> old(raw.files)[id := bytes] == old(raw.files);
        case AddCapture(id, meta) => refusal := database.AddCapture(id, meta);
        case SaveRecord(r) => refusal := database.SaveRecord(r);
        case PutRow(row) => refusal := database.PutRow(row);
      }
      if refusal.None? {
        log := log + [OnData(op)];
      }
    }

    /** Saves drafts one transaction each, up to the first refusal. */
    method SaveAll(drafts: seq<Draft>, id: CaptureId, at: int) returns (refusal: Option<Refusal>)
      modifies raw, database, this`log
      ensures var ops := Saves(StampAll(drafts, id, at));
              var e := Exec(old(Data()), ops);
              && refusal == e.refusal && Data() == e.data
              && log == old(log) + Lift(ops[..e.done])
      ensures database.Control() == old(database.Control())
    {
      hide ApplyData, Exec;
      ghost var start := Data();
      ghost var ops := Saves(StampAll(drafts, id, at));
      assert ops[..0] == [] && Lift([]) == [];
      ExecNone(start);
      for i := 0 to |drafts|
        invariant Exec(start, ops[..i]) == Progress(i, Data(), None)
        invariant log == old(log) + Lift(ops[..i])
        invariant database.Control() == old(database.Control())
      {
        ExecExtend(start, ops, i);
        refusal := Perform(SaveRecord(Stamp(drafts[i], id, at)));
        if refusal.Some? {
          return;
        }
        assert ops[..i + 1] == ops[..i] + [ops[i]];
        LiftAppend(ops[..i], [ops[i]]);
      }
      assert ops[..|drafts|] == ops;
      refusal := None;
    }

    /** Everything from `d0` on has been the writes `ops`, none refused. */
    ghost predicate Wrote(d0: Durable.Data, l0: seq<Op>, ops: seq<DataOp>)
      reads this, raw, database
    {
      Exec(d0, ops) == Progress(|ops|, Data(), None) && log == l0 + Lift(ops)
    }

    /** The writes `ops`, up to the first that is refused. */
    ghost predicate Tried(d0: Durable.Data, l0: seq<Op>, ops: seq<DataOp>, refusal: Option<Refusal>)
      reads this, raw, database
    {
      var e := Exec(d0, ops);
      refusal == e.refusal && Data() == e.data && log == l0 + Lift(ops[..e.done])
    }

    /** The metadata again, then the Group, the Posts inside the boundary and
        their Comments. */
    method PersistPage(id: CaptureId, html: Bytes, at: int) returns (refusal: Option<Refusal>)
      requires Accepted(world, world.parse(html))
      modifies raw, database, this`log
      ensures Tried(old(Data()), old(log), PersistOps(world, id, html, at), refusal)
      ensures database.Control() == old(database.Control())
    {
      hide ApplyData, Exec, Lift, Saves, StampAll, SelectedPosts, KeptComments, PersistOps;
      var parsed := world.parse(html);
      var posts := SelectedPosts(parsed.posts, world.lowerBound);
      var comments := KeptComments(parsed.comments, Keys(posts));
      var again := AddCapture(id, PageMeta(world, id, html, at));
      var group := SaveRecord(Stamp(parsed.group, id, at));
      ghost var d0, l0 := Data(), log;
      ghost var all := PersistOps(world, id, html, at);
      ghost var savePosts := Saves(StampAll(posts, id, at));
      ghost var saveComments := Saves(StampAll(comments, id, at));
      SavesSplit(world, id, html, at);
      ExecNone(d0);
      assert [] + [again] == [again] && [again] + [group] == [again, group];
      assert all == [again] + ([group] + savePosts + saveComments);
      assert all == [again, group] + (savePosts + saveComments);
      assert all == [again, group] + savePosts + saveComments + [];

      refusal := PerformAfter(again, d0, l0, [], [group] + savePosts + saveComments);
      if refusal.Some? { return; }
      refusal := PerformAfter(group, d0, l0, [again], savePosts + saveComments);
      if refusal.Some? { return; }
      refusal := SaveAllAfter(posts, id, at, d0, l0, [again, group], saveComments);
      if refusal.Some? { return; }
      refusal := SaveAllAfter(comments, id, at, d0, l0, [again, group] + savePosts, []);
    }

    method PerformAfter(op: DataOp,
                        ghost d0: Durable.Data, ghost l0: seq<Op>, ghost before: seq<DataOp>, ghost after: seq<DataOp>)
      returns (refusal: Option<Refusal>)
      requires Wrote(d0, l0, before)
      modifies raw, database, this`log
      ensures refusal.None? ==> Wrote(d0, l0, before + [op])
      ensures refusal.Some? || after == [] ==> Tried(d0, l0, before + [op] + after, refusal)
      ensures database.Control() == old(database.Control())
    {
      hide ApplyData, Exec, Lift;
      ExecOne(Data(), op);
      Chain(d0, before, [op], after);
      LiftOne(op);
      assert after == [] ==> before + [op] + after == before + [op];
      refusal := Perform(op);
    }

    method SaveAllAfter(drafts: seq<Draft>, id: CaptureId, at: int,
                        ghost d0: Durable.Data, ghost l0: seq<Op>, ghost before: seq<DataOp>, ghost after: seq<DataOp>)
      returns (refusal: Option<Refusal>)
      requires Wrote(d0, l0, before)
      modifies raw, database, this`log
      ensures refusal.None? ==> Wrote(d0, l0, before + Saves(StampAll(drafts, id, at)))
      ensures refusal.Some? || after == [] ==>
                Tried(d0, l0, before + Saves(StampAll(drafts, id, at)) + after, refusal)
      ensures database.Control() == old(database.Control())
    {
      hide ApplyData, Exec, Lift, Saves, StampAll;
      ghost var ops := Saves(StampAll(drafts, id, at));
      Chain(d0, before, ops, after);
      assert after == [] ==> before + ops + after == before + ops;
      refusal := SaveAll(drafts, id, at);
    }

    /** The raw file, then its metadata, before any parser sees the bytes. */
    method StoreRaw(id: CaptureId, html: Bytes, at: int,
                    ghost d0: Durable.Data, ghost l0: seq<Op>, ghost after: seq<DataOp>)
      returns (refusal: Option<Refusal>)
      requires Wrote(d0, l0, [])
      modifies raw, database, this`log
      ensures refusal.None? ==> Wrote(d0, l0, RawOps(world, id, html, at))
      ensures refusal.Some? ==> Tried(d0, l0, RawOps(world, id, html, at) + after, refusal)
      ensures database.Control() == old(database.Control())
    {
      hide Wrote, Tried;
      var file, add := WriteFile(id, html), AddCapture(id, PageMeta(world, id, html, at));
      assert [] + [file] == [file] && [file] + [add] == RawOps(world, id, html, at);
      assert [] + [file] + ([add] + after) == RawOps(world, id, html, at) + after;
      refusal := PerformAfter(file, d0, l0, [], [add] + after);
      if refusal.Some? { return; }
      refusal := PerformAfter(add, d0, l0, [file], after);
    }

    /** What follows a parsed page. */
    method Decide(number: nat, next: Option<string>, seen: set<string>) returns (verdict: Verdict)
      ensures forall p: Position, page: Fetch
                | p.done + 1 == number && p.seen == seen && page.Rendered? && page.next == next
                  && Accepted(world, world.parse(page.raw)) :: verdict == Judge(world, p, page)
    {
      match next {
        case None => verdict := Finish;
        case Some(cursor) =>
          if number >= world.maxPages {
            verdict := PageLimit;
          } else if cursor in seen {
            verdict := CursorLoop;
          } else {
            verdict := Continue(cursor);
          }
      }
    }

    /** The checkpoint of a page that ends the capture or goes on. */
    method Checkpoint(verdict: Verdict, number: nat, id: CaptureId,
                      ghost d0: Durable.Data, ghost l0: seq<Op>, ghost before: seq<DataOp>)
      returns (refusal: Option<Refusal>)
      requires Wrote(d0, l0, before)
      modifies raw, database, this`log
      ensures Tried(d0, l0, before + CheckpointOps(verdict, number, id), refusal)
      ensures database.Control() == old(database.Control())
    {
      hide Wrote, Tried;
      ghost var ops := CheckpointOps(verdict, number, id);
      assert before + ops + [] == before + ops;
      if verdict.Finish? || verdict.Continue? {
        var cursor := if verdict.Finish? then None else Some(verdict.cursor);
        refusal := PerformAfter(PutRow(Row(number, cursor, id)), d0, l0, before, []);
      } else {
        assert before + ops == before;
        WroteIsTried(d0, l0, before);
        refusal := None;
      }
    }

    method PersistAfter(id: CaptureId, html: Bytes, at: int,
                        ghost d0: Durable.Data, ghost l0: seq<Op>, ghost before: seq<DataOp>, ghost after: seq<DataOp>)
      returns (refusal: Option<Refusal>)
      requires Wrote(d0, l0, before) && Accepted(world, world.parse(html))
      modifies raw, database, this`log
      ensures refusal.None? ==> Wrote(d0, l0, before + PersistOps(world, id, html, at))
      ensures refusal.Some? ==> Tried(d0, l0, before + PersistOps(world, id, html, at) + after, refusal)
      ensures database.Control() == old(database.Control())
    {
      hide ApplyData, Exec, Lift, PersistOps;
      Chain(d0, before, PersistOps(world, id, html, at), after);
      refusal := PersistPage(id, html, at);
    }

    /** All data writes of one rendered page, checkpoint last. */
    method WritePage(done: nat, cursor: Option<string>, seen: set<string>, page: Fetch, now: Clock)
      returns (refusal: Option<Refusal>, verdict: Verdict)
      requires page == world.fetch(cursor) && page.Rendered?
      modifies raw, database, this`log
      ensures Tried(old(Data()), old(log), PageOps(world, Position(done, cursor, seen, old(Data())), now), refusal)
      ensures refusal.None? ==> verdict == Judge(world, Position(done, cursor, seen, old(Data())), page)
      ensures database.Control() == old(database.Control())
    {
      hide Wrote, Tried, RawOps, PersistOps, CheckpointOps, Accepted;
      ghost var d0, l0 := Data(), log;
      ghost var p := Position(done, cursor, seen, d0);
      var number := done + 1;
      var id := CaptureOf(world, number, cursor, page.raw);
      var at := if id in database.captures then database.captures[id].collectedAt else now(number);
      ghost var store := RawOps(world, id, page.raw, at);
      ghost var persist := PersistOps(world, id, page.raw, at);
      ghost var row := CheckpointOps(Judge(world, p, page), number, id);
      verdict := ParserDrift;
      assert PageOps(world, p, now) == store + persist + row;
      assert store + persist + row == store + (persist + row);
      NothingWrote(d0, l0);

      refusal := StoreRaw(id, page.raw, at, d0, l0, persist + row);
      if refusal.Some? { return; }
      if !Accepted(world, world.parse(page.raw)) {
        NoPersist(world, id, page.raw, at, number);
        assert store + persist + row == store;
        WroteIsTried(d0, l0, store);
        return;
      }
      refusal := PersistAfter(id, page.raw, at, d0, l0, store, row);
      if refusal.Some? { return; }
      verdict := Decide(number, page.next, seen);
      refusal := Checkpoint(verdict, number, id, d0, l0, store + persist);
    }

    lemma NothingWrote(d0: Durable.Data, l0: seq<Op>)
      requires d0 == Data() && l0 == log
      ensures Wrote(d0, l0, [])
    {
      ExecNone(d0);
    }

    lemma WroteIsTried(d0: Durable.Data, l0: seq<Op>, ops: seq<DataOp>)
      requires Wrote(d0, l0, ops)
      ensures Tried(d0, l0, ops, None)
    {
      assert ops[..|ops|] == ops;
    }

    method Pause()
      requires database.job == Running
      modifies database, this`log
      ensures Disk() == Land(old(Disk()), PAUSE_OPS) && log == old(log) + PAUSE_OPS
    {
      LandTwo(Disk(), PAUSE_OPS[0], PAUSE_OPS[1]);
      assert PAUSE_OPS == [PAUSE_OPS[0], PAUSE_OPS[1]];
      database.SetTask(TaskInterrupted);
      var _ := database.Transition(Interrupted);
      log := log + PAUSE_OPS;
    }

    method Succeed()
      requires database.job == Running
      modifies database, this`log
      ensures Disk() == Land(old(Disk()), SUCCESS_OPS) && log == old(log) + SUCCESS_OPS
    {
      LandTwo(Disk(), SUCCESS_OPS[0], SUCCESS_OPS[1]);
      assert SUCCESS_OPS == [SUCCESS_OPS[0], SUCCESS_OPS[1]];
      database.SetTask(TaskSucceeded);
      var _ := database.Transition(Succeeded);
      log := log + SUCCESS_OPS;
    }

    method Fail(capture: Option<CaptureId>, class_: string)
      requires database.job == Running
      modifies database, this`log
      ensures Disk() == Land(old(Disk()), FailOps(capture, class_)) && log == old(log) + FailOps(capture, class_)
    {
      ghost var ops := FailOps(capture, class_);
      LandTwo(Disk(), ops[0], ops[1]);
      assert ops == [ops[0], ops[1]] + [ops[2]];
      LandSplit(Disk(), [ops[0], ops[1]], [ops[2]]);
      database.RecordFailure(Failure(capture, class_));
      database.SetTask(TaskFailed);
      LandOne(Disk(), ops[2]);
      var _ := database.Transition(Failed);
      log := log + ops;
    }

    /** Takes the job into the running state, if it is runnable. */
    method Begin() returns (runnable: bool)
      requires log == []
      modifies database, this`log
      ensures runnable == Runnable(old(database.job))
      ensures log == (if runnable then StartOps(old(database.job)) else [])
      ensures Disk() == Land(old(Disk()), log) && Data() == old(Data())
      ensures runnable ==> database.job == Running
    {
      ghost var d0 := Disk();
      LandNothing(d0);
      if database.job in {Planned, Interrupted, Partial} {
        LandOne(d0, Transition(Running));
        var _ := database.Transition(Running);
        log := [Transition(Running)];
      }
      if database.job != Running {
        return false;
      }
      LandOne(Disk(), SetTask(TaskRunning));
      LandSplit(d0, log, [SetTask(TaskRunning)]);
      database.SetTask(TaskRunning);
      log := log + [SetTask(TaskRunning)];
      return true;
    }

    /** The cursor to go on from, the pages done and the cursors seen. */
    method ResumePosition() returns (cursor: Option<string>, done: nat, seen: set<string>)
      ensures Position(done, cursor, seen, Data()) == Resume(Data())
    {
      var rows := database.rows;
      if rows == [] {
        return None, 0, {};
      }
      var latest := rows[|rows| - 1];
      if latest.cursor.None? {
        LastRowOnly(rows);
        return None, latest.number, set r | r in rows[..|rows| - 1] && r.cursor.Some? :: r.cursor.value;
      }
      var nonTerminal: seq<Row> := [];
      for i := 0 to |rows|
        invariant forall r :: r in nonTerminal <==> r in rows[..i] && r.cursor.Some?
        invariant i > 0 && rows[i - 1].cursor.Some? ==>
                    nonTerminal != [] && nonTerminal[|nonTerminal| - 1] == rows[i - 1]
      {
        assert rows[..i + 1] == rows[..i] + [rows[i]];
        if rows[i].cursor.Some? { nonTerminal := nonTerminal + [rows[i]]; }
      }
      assert rows[..|rows|] == rows;
      latest := nonTerminal[|nonTerminal| - 1];
      seen := set r | r in nonTerminal :: r.cursor.value;
      assert seen == Cursors(rows);
      return latest.cursor, latest.number, seen;
    }

    /** A terminal row adds no cursor. */
    lemma LastRowOnly(rows: seq<Row>)
      requires rows != [] && rows[|rows| - 1].cursor.None?
      ensures Cursors(rows) == set r | r in rows[..|rows| - 1] && r.cursor.Some? :: r.cursor.value
    {
      assert rows == rows[..|rows| - 1] + [rows[|rows| - 1]];
    }

    /** What a turn of the loop leaves: the writes `wrote`, and either the end of
        the run or the position of the next turn. */
    twostate predicate Turned(
      p: Position, clock: Clock, left: Option<nat>,
      new wrote: seq<Op>, new ended: Option<Outcome>, new next: string)
      reads this, raw, database
    {
      var run := Loop(world, p, clock, left);
      && log == old(log) + wrote && Disk() == Land(old(Disk()), wrote) && fetched == old(fetched) + [p.cursor]
      && match ended
         case Some(outcome) => run == Run(wrote, [p.cursor], outcome)
         case None =>
           var rest := Loop(world, Advance(p, next, Data()), clock, Less(left));
           && run == Run(wrote + rest.log, [p.cursor] + rest.fetched, rest.outcome)
           && database.job == Running && p.done + 1 < world.maxPages && left != Some(1)
    }

    /** One turn of the loop: fetch, store, parse, save, checkpoint, and either
        end or name the next cursor. */
    method Turn(done: nat, cursor: Option<string>, seen: set<string>, clock: Clock, left: Option<nat>)
      returns (ended: Option<Outcome>, next: string, ghost wrote: seq<Op>)
      requires database.job == Running
      modifies raw, database, this`log, this`fetched
      ensures Turned(Position(done, cursor, seen, old(Data())), clock, left, wrote, ended, next)
    {
      hide Loop, Land, Exec, PageOps, Lift;
      ghost var p := Position(done, cursor, seen, Data());
      ghost var d := Disk();
      var page := world.fetch(cursor);
      fetched := fetched + [cursor];
      next := "";
      if page.Stopped? {
        StoppedTurn(world, p, clock, left);
        wrote := FailOps(None, page.failure);
        Fail(None, page.failure);
        return Some(Failing(page.failure)), next, wrote;
      }
      LoopTurn(world, p, clock, left);
      LandNothing(d);
      LandWritten(d, [], PageOps(world, p, clock));
      wrote := Lift(PageOps(world, p, clock)[..Exec(p.data, PageOps(world, p, clock)).done]);
      assert [] + wrote == wrote;
      var refusal, verdict := WritePage(done, cursor, seen, page, clock);
      if refusal.Some? {
        return Some(Refused(refusal.value)), next, wrote;
      }
      if verdict.Continue? && left != Some(1) {
        return None, verdict.cursor, wrote;
      }
      ghost var tail;
      ended, tail := End(verdict, CaptureOf(world, done + 1, cursor, page.raw), left == Some(1));
      LandSplit(d, wrote, tail);
      wrote := wrote + tail;
    }

    /** The end of a run: a pause after a checkpoint, success, or a failure. */
    method End(verdict: Verdict, id: CaptureId, pausing: bool) returns (ended: Option<Outcome>, ghost tail: seq<Op>)
      requires database.job == Running && (verdict.Continue? ==> pausing)
      modifies database, this`log
      ensures log == old(log) + tail && Disk() == Land(old(Disk()), tail)
      ensures (tail, ended)
              == if pausing && (verdict.Finish? || verdict.Continue?) then (PAUSE_OPS, Some(Paused))
                 else if verdict.Finish? then (SUCCESS_OPS, Some(Success))
                 else (FailOps(Some(id), FailureClass(verdict)), Some(Failing(FailureClass(verdict))))
    {
      hide Land, FailOps;
      if verdict.Finish? || verdict.Continue? {
        if pausing {
          Pause();
          return Some(Paused), PAUSE_OPS;
        }
        Succeed();
        return Some(Success), SUCCESS_OPS;
      }
      Fail(Some(id), FailureClass(verdict));
      return Some(Failing(FailureClass(verdict))), FailOps(Some(id), FailureClass(verdict));
    }

    /** The page loop. Its writes, its fetches and its outcome are those of
        `Attempt`, whatever is on disk when it starts. */
    method CapturePages(clock: Clock, left: Option<nat>) returns (outcome: Outcome)
      requires log == [] && fetched == []
      modifies raw, database, this`log, this`fetched
      ensures Run(log, fetched, outcome) == Attempt(world, old(Disk()), clock, left)
      ensures Disk() == Land(old(Disk()), log)
    {
      hide Loop, Land, StartOps, Resume;
      ghost var d0 := Disk();
      LandNothing(d0);
      if world.maxPages <= 0 || left == Some(0) {
        return InvalidBound;
      }
      var runnable := Begin();
      if !runnable {
        return NotRunnable;
      }
      var cursor, done, seen := ResumePosition();
      if cursor.None? && done > 0 {
        LandSplit(d0, log, SUCCESS_OPS);
        Succeed();
        return Success;
      }
      ghost var run := Attempt(world, d0, clock, left);
      var pages := 0;
      while true
        invariant database.job == Running && (left.Some? ==> pages < left.value)
        invariant Disk() == Land(d0, log)
        invariant var rest := Loop(world, Position(done, cursor, seen, Data()), clock, Remaining(left, pages));
                  run == Run(log + rest.log, fetched + rest.fetched, rest.outcome)
        decreases world.maxPages - done
      {
        ghost var log0 := log;
        var ended, next, wrote := Turn(done, cursor, seen, clock, Remaining(left, pages));
        LandSplit(d0, log0, wrote);
        if ended.Some? {
          return ended.value;
        }
        pages := pages + 1;
        seen := seen + {next};
        cursor := Some(next);
        done := done + 1;
      }
    }
  }
}
