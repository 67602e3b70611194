/** Crash recovery of the page loop.

    A crash keeps a prefix of an attempt's writes. `Passes` says that a disk is
    one that a single uninterrupted run passes through; the main lemmas show that
    every schedule of crashes, pauses and new attempts stays on such a run, and
    that it ends where that run ends. */
module Recovery {
  import opened Basics
  import opened Storage
  import opened Durable
  import opened Capture

  // ----------------------------------------------- the uninterrupted run

  datatype Finished = Finished(data: Data, outcome: Outcome)

  /** The position after the next page, when the loop goes on. */
  function StepTo(w: World, p: Position, clock: Clock): Option<Position> {
    var page := w.fetch(p.cursor);
    if page.Stopped? then None
    else
      var e := Exec(p.data, PageOps(w, p, clock));
      if e.refusal.Some? then None
      else
        match Judge(w, p, page)
        case Continue(next) => Some(Advance(p, next, e.data))
        case _ => None
  }

  /** How the loop ends when it does not go on. */
  function EndOf(w: World, p: Position, clock: Clock): Outcome {
    var page := w.fetch(p.cursor);
    if page.Stopped? then Failing(page.failure)
    else
      var e := Exec(p.data, PageOps(w, p, clock));
      if e.refusal.Some? then Refused(e.refusal.value)
      else
        match Judge(w, p, page)
        case Finish => Success
        case v => Failing(FailureClass(v))
  }

  function Ideal(w: World, p: Position, clock: Clock): Finished
    decreases w.maxPages - p.done
  {
    match StepTo(w, p, clock)
    case Some(q) => Ideal(w, q, clock)
    case None => Finished(Exec(p.data, PageOps(w, p, clock)).data, EndOf(w, p, clock))
  }

  /** The position after `k` pages, if the run gets that far. */
  function Reach(w: World, p: Position, clock: Clock, k: nat): Option<Position> {
    if k == 0 then Some(p)
    else
      match Reach(w, p, clock, k - 1)
      case None => None
      case Some(q) => StepTo(w, q, clock)
  }

  lemma StepDone(w: World, p: Position, clock: Clock)
    requires StepTo(w, p, clock).Some?
    ensures StepTo(w, p, clock).value.done == p.done + 1 < w.maxPages
  {
    hide PageOps, Exec;
  }

  lemma {:induction false} IdealFromReach(w: World, p: Position, clock: Clock, k: nat)
    requires Reach(w, p, clock, k).Some?
    ensures Ideal(w, p, clock) == Ideal(w, Reach(w, p, clock, k).value, clock)
  {
    hide StepTo, EndOf, PageOps, Exec;
    if k > 0 { IdealFromReach(w, p, clock, k - 1); }
  }

  lemma {:induction false} ReachDone(w: World, p: Position, clock: Clock, k: nat)
    requires Reach(w, p, clock, k).Some?
    ensures Reach(w, p, clock, k).value.done == p.done + k
  {
    hide StepTo;
    if k > 0 {
      ReachDone(w, p, clock, k - 1);
      StepDone(w, Reach(w, p, clock, k - 1).value, clock);
    }
  }

  /** A page depends on the clock only through its own reading. */
  lemma StepAgrees(w: World, p: Position, c: Clock, c': Clock)
    requires c(p.done + 1) == c'(p.done + 1)
    ensures PageOps(w, p, c) == PageOps(w, p, c')
    ensures StepTo(w, p, c) == StepTo(w, p, c') && EndOf(w, p, c) == EndOf(w, p, c')
  {
    hide Exec, OpsAt, Judge;
  }

  lemma ReachStep(w: World, p: Position, clock: Clock, k: nat, q: Position)
    requires Reach(w, p, clock, k) == Some(q)
    ensures Reach(w, p, clock, k + 1) == StepTo(w, q, clock)
  {
  }

  /** Only the times of the pages already done matter. */
  lemma {:induction false} ReachAgrees(w: World, p: Position, c: Clock, c': Clock, k: nat)
    requires forall j | p.done < j <= p.done + k :: c(j) == c'(j)
    ensures Reach(w, p, c, k) == Reach(w, p, c', k)
  {
    hide StepTo, EndOf, PageOps;
    if k > 0 {
      ReachAgrees(w, p, c, c', k - 1);
      match Reach(w, p, c, k - 1)
      case None =>
      case Some(q) =>
        ReachDone(w, p, c, k - 1);
        StepAgrees(w, q, c, c');
        ReachStep(w, p, c, k - 1, q);
        ReachStep(w, p, c', k - 1, q);
    }
  }

  // ------------------------------------------------------- a page's writes

  predicate DistinctKeys(ds: seq<Draft>) {
    forall i, j | 0 <= i < j < |ds| :: ds[i].key != ds[j].key
  }

  /** What the extraction adapter guarantees about one parsed page. */
  ghost predicate WellParsed(w: World) {
    forall raw | w.parse(raw).Parsed? ::
      && w.parse(raw).group.key.kind == Group
      && (forall d | d in w.parse(raw).posts :: d.key.kind == Post)
      && (forall d | d in w.parse(raw).comments :: d.key.kind == Comment)
      && DistinctKeys(w.parse(raw).posts)
      && DistinctKeys(w.parse(raw).comments)
  }

  lemma {:induction false} SelectedDistinct(posts: seq<Draft>, lowerBound: int)
    requires DistinctKeys(posts)
    ensures DistinctKeys(SelectedPosts(posts, lowerBound))
  {
    if posts != [] {
      SelectedDistinct(posts[1..], lowerBound);
      var rest := SelectedPosts(posts[1..], lowerBound);
      forall i | 0 <= i < |rest| ensures rest[i].key != posts[0].key {
        assert rest[i] in posts[1..];
      }
    }
  }

  lemma {:induction false} KeptDistinct(comments: seq<Draft>, posts: set<Key>)
    requires DistinctKeys(comments)
    ensures DistinctKeys(KeptComments(comments, posts))
  {
    if comments != [] {
      KeptDistinct(comments[1..], posts);
      var rest := KeptComments(comments[1..], posts);
      forall i | 0 <= i < |rest| ensures rest[i].key != comments[0].key {
        assert rest[i] in comments[1..];
      }
    }
  }

  lemma PageDistinct(w: World, raw: Bytes)
    requires WellParsed(w) && w.parse(raw).Parsed?
    ensures DistinctKeys(Kept(w, w.parse(raw)))
  {
    var parse := w.parse(raw);
    var posts := SelectedPosts(parse.posts, w.lowerBound);
    var comments := KeptComments(parse.comments, Keys(posts));
    SelectedDistinct(parse.posts, w.lowerBound);
    KeptDistinct(parse.comments, Keys(posts));
    forall i | 0 <= i < |posts| ensures posts[i].key.kind == Post { assert posts[i] in parse.posts; }
    forall i | 0 <= i < |comments| ensures comments[i].key.kind == Comment {
      assert comments[i] in parse.comments;
    }
  }

  lemma SavesApart(records: seq<Record>)
    requires forall i, j | 0 <= i < j < |records| :: records[i].key != records[j].key
    ensures AllApart(Saves(records))
  {
  }

  lemma PersistApart(w: World, id: CaptureId, raw: Bytes, at: int)
    requires WellParsed(w)
    ensures AllApart(PersistOps(w, id, raw, at))
    ensures forall op | op in PersistOps(w, id, raw, at) :: op.AddCapture? || op.SaveRecord?
  {
    hide Kept, WellParsed;
    var parse := w.parse(raw);
    if Accepted(w, parse) {
      PageDistinct(w, raw);
      var records := StampAll(Kept(w, parse), id, at);
      SavesApart(records);
      AppendApart([AddCapture(id, PageMeta(w, id, raw, at))], Saves(records));
    }
  }

  /** The writes before the checkpoint touch no checkpoint row. */
  predicate Rowless(ops: seq<DataOp>) {
    forall op | op in ops :: !op.PutRow?
  }

  /** A page's writes, with the checkpoint last. */
  function BeforeRow(w: World, p: Position, page: Fetch, at: int): seq<DataOp>
    requires page.Rendered?
  {
    RawOps(w, PageCapture(w, p, page), page.raw, at) + PersistOps(w, PageCapture(w, p, page), page.raw, at)
  }

  lemma {:induction false} PageApart(w: World, p: Position, page: Fetch, at: int)
    requires WellParsed(w) && page.Rendered?
    ensures AllApart(OpsAt(w, p, page, at))
    ensures Rowless(BeforeRow(w, p, page, at))
    ensures OpsAt(w, p, page, at)
            == BeforeRow(w, p, page, at)
               + CheckpointOps(Judge(w, p, page), p.done + 1, PageCapture(w, p, page))
  {
    hide PersistOps, PageCapture, Judge;
    var id := PageCapture(w, p, page);
    PersistApart(w, id, page.raw, at);
    AppendApart(RawOps(w, id, page.raw, at), PersistOps(w, id, page.raw, at));
    AppendApart(BeforeRow(w, p, page, at), CheckpointOps(Judge(w, p, page), p.done + 1, id));
  }

  /** Lists whose writes cannot undo each other can be joined when only one of
      them saves records and only one writes rows. */
  lemma AppendApart(a: seq<DataOp>, b: seq<DataOp>)
    requires AllApart(a) && AllApart(b)
    requires (forall op | op in a :: !op.SaveRecord?) || (forall op | op in b :: !op.SaveRecord?)
    requires Rowless(a) || Rowless(b)
    ensures AllApart(a + b)
  {
    var ops := a + b;
    forall i, j | 0 <= i < j < |ops| ensures Apart(ops[i], ops[j]) {
      if j < |a| {
        assert Apart(a[i], a[j]);
      } else if |a| <= i {
        assert Apart(b[i - |a|], b[j - |a|]);
      } else {
        assert ops[i] in a && ops[j] in b;
      }
    }
  }

  // -------------------------------------------------- the stored position

  /** The stored checkpoints are numbered 1..n without gap, name the position,
      and no cursor occurs twice. */
  ghost predicate Standing(p: Position) {
    && |p.data.rows| == p.done
    && (forall j | 0 <= j < p.done ::
          && p.data.rows[j].number == j + 1
          && p.data.rows[j].cursor.Some?)
    && (forall i, j | 0 <= i < j < p.done :: p.data.rows[i].cursor != p.data.rows[j].cursor)
    && p.cursor == (if p.done == 0 then None else p.data.rows[p.done - 1].cursor)
    && p.seen == Cursors(p.data.rows)
  }

  /** The loop stands at its checkpoints, and a further page is within the bound. */
  ghost predicate Settled(w: World, p: Position) {
    Standing(p) && (p.done == 0 || p.done < w.maxPages)
  }

  /** Reloading the stored checkpoints gives back the loop's own variables. */
  lemma {:induction false} ResumeSettled(p: Position)
    requires Standing(p)
    ensures Resume(p.data) == p
  {
    if p.done > 0 { assert p.data.rows[p.done - 1].number == p.done; }
  }

  lemma {:induction false} RowlessExec(d: Data, ops: seq<DataOp>)
    requires Rowless(ops)
    ensures Exec(d, ops).data.rows == d.rows
    decreases |ops|
  {
    if ops != [] {
      match ApplyData(d, ops[0])
      case Err(_) =>
      case Ok(d') => assert ops[0] in ops; RowlessExec(d', ops[1..]);
    }
  }

  /** A partly done page leaves the checkpoints alone. */
  lemma RowsBefore(w: World, p: Position, page: Fetch, at: int, i: nat)
    requires WellParsed(w) && page.Rendered?
    requires i <= |BeforeRow(w, p, page, at)|
    ensures Exec(p.data, OpsAt(w, p, page, at)[..i]).data.rows == p.data.rows
  {
    PageApart(w, p, page, at);
    var before := BeforeRow(w, p, page, at);
    assert OpsAt(w, p, page, at)[..i] == before[..i];
    assert Rowless(before[..i]);
    RowlessExec(p.data, before[..i]);
  }

  lemma AppendRow(p: Position, d: Data, row: Row)
    requires Standing(p) && d.rows == p.data.rows && row.number == p.done + 1
    ensures Exec(d, [PutRow(row)]).refusal.None? ==> Exec(d, [PutRow(row)]).data.rows == p.data.rows + [row]
  {
    hide Exec;
    ExecOne(d, PutRow(row));
    if p.done > 0 { assert d.rows[p.done - 1].number == p.done; }
  }

  /** A finished page adds exactly its own checkpoint row. */
  lemma RowsAfter(w: World, p: Position, page: Fetch, at: int)
    requires WellParsed(w) && page.Rendered? && Standing(p)
    requires Exec(p.data, OpsAt(w, p, page, at)).refusal.None?
    ensures Exec(p.data, OpsAt(w, p, page, at)).data.rows
            == p.data.rows + CheckpointRows(Judge(w, p, page), p.done + 1, PageCapture(w, p, page))
  {
    hide Exec, OpsAt, BeforeRow, Judge, PageCapture, Standing;
    PageApart(w, p, page, at);
    var before := BeforeRow(w, p, page, at);
    var id := PageCapture(w, p, page);
    var ops := CheckpointOps(Judge(w, p, page), p.done + 1, id);
    var rows := CheckpointRows(Judge(w, p, page), p.done + 1, id);
    RowlessExec(p.data, before);
    ExecSplit(p.data, before, ops);
    var d := Exec(p.data, before).data;
    if rows == [] {
      assert before + ops == before && p.data.rows + [] == p.data.rows;
    } else {
      assert ops == [PutRow(rows[0])] && rows == [rows[0]];
      AppendRow(p, d, rows[0]);
    }
  }

  lemma CursorsGrow(rows: seq<Row>, row: Row)
    requires row.cursor.Some?
    ensures Cursors(rows + [row]) == Cursors(rows) + {row.cursor.value}
  {
    forall c | c in Cursors(rows) + {row.cursor.value} ensures c in Cursors(rows + [row]) {
      if c in Cursors(rows) {
        var r :| r in rows && r.cursor == Some(c);
        assert r in rows + [row];
      } else {
        assert row in rows + [row];
      }
    }
  }

  lemma StandingAdvance(p: Position, next: string, data: Data, id: CaptureId)
    requires Standing(p) && next !in p.seen
    requires data.rows == p.data.rows + CheckpointRows(Continue(next), p.done + 1, id)
    ensures Standing(Advance(p, next, data))
  {
    CursorsGrow(p.data.rows, Row(p.done + 1, Some(next), id));
    forall i | 0 <= i < p.done ensures p.data.rows[i].cursor != Some(next) {
      assert p.data.rows[i] in p.data.rows;
      assert p.data.rows[i].cursor.value in Cursors(p.data.rows);
    }
  }

  lemma StepSettled(w: World, p: Position, clock: Clock)
    requires WellParsed(w) && Standing(p) && StepTo(w, p, clock).Some?
    ensures Settled(w, StepTo(w, p, clock).value)
  {
    hide Standing, Exec, OpsAt, PageCapture;
    var page := w.fetch(p.cursor);
    var id := PageCapture(w, p, page);
    var at := TimeFor(p.data, id, clock(p.done + 1));
    RowsAfter(w, p, page, at);
    var q := StepTo(w, p, clock).value;
    StandingAdvance(p, q.cursor.value, q.data, id);
  }

  lemma {:induction false} ReachSettled(w: World, p: Position, clock: Clock, k: nat, q: Position)
    requires WellParsed(w) && Settled(w, p) && Reach(w, p, clock, k) == Some(q)
    ensures Settled(w, q)
  {
    hide StepTo;
    if k > 0 {
      var before := Reach(w, p, clock, k - 1).value;
      ReachSettled(w, p, clock, k - 1, before);
      ReachStep(w, p, clock, k - 1, before);
      StepSettled(w, before, clock);
    }
  }
}
