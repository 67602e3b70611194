/** The resumable page loop as a list of durable writes.

    `Attempt` is what one call of the workflow writes, in order; the imperative
    form in `CaptureWorkflow` performs exactly these writes. */
module Capture {
  import opened Basics
  import opened Storage
  import opened Durable

  /** A parsed record before it is stamped with its capture and its time. */
  datatype Draft = Draft(
    key: Key, parents: seq<Key>, published: Option<int>, metrics: seq<Metric>, body: string)

  datatype Parse =
    | Drift
    | Parsed(group: Draft, url: string, posts: seq<Draft>, comments: seq<Draft>)

  /** What the browser returns for a cursor. */
  datatype Fetch =
    | Stopped(failure: string)
    | Rendered(raw: Bytes, next: Option<string>)

  /** One job and its surroundings: a deterministic page source and parser. */
  datatype World = World(
    job: string,
    groupId: string,
    url: string,
    lowerBound: int,
    maxPages: int,
    fetch: Option<string> -> Fetch,
    parse: Bytes -> Parse,
    sameUrl: string -> bool)

  type Clock = nat -> int

  // ------------------------------------------------------------ one page

  function Place(cursor: Option<string>): string {
    match cursor case None => "group-root" case Some(c) => c
  }

  function CaptureOf(w: World, number: nat, cursor: Option<string>, raw: Bytes): CaptureId {
    CaptureId(w.job, number, Place(cursor), Sha256(raw))
  }

  function Stamp(d: Draft, id: CaptureId, at: int): Record {
    Record(d.key, d.parents, at, id, d.metrics, d.body)
  }

  function StampAll(ds: seq<Draft>, id: CaptureId, at: int): (r: seq<Record>)
    ensures |r| == |ds| && forall i | 0 <= i < |ds| :: r[i] == Stamp(ds[i], id, at)
  {
    seq(|ds|, i requires 0 <= i < |ds| => Stamp(ds[i], id, at))
  }

  predicate InBoundary(d: Draft, lowerBound: int) {
    d.published.Some? && lowerBound <= d.published.value
  }

  /** The Posts inside the collection boundary, in page order. */
  function SelectedPosts(posts: seq<Draft>, lowerBound: int): (r: seq<Draft>)
    ensures forall d :: d in r <==> d in posts && InBoundary(d, lowerBound)
  {
    if posts == [] then []
    else
      var rest := SelectedPosts(posts[1..], lowerBound);
      if InBoundary(posts[0], lowerBound) then [posts[0]] + rest else rest
  }

  function Keys(ds: seq<Draft>): set<Key> {
    set d | d in ds :: d.key
  }

  /** The Comments whose Post is kept. */
  function KeptComments(comments: seq<Draft>, posts: set<Key>): (r: seq<Draft>)
    ensures forall d :: d in r <==> d in comments && d.parents != [] && d.parents[0] in posts
  {
    if comments == [] then []
    else
      var rest := KeptComments(comments[1..], posts);
      if comments[0].parents != [] && comments[0].parents[0] in posts then [comments[0]] + rest else rest
  }

  /** The drafts a page saves: its Group, then Posts, then their Comments. */
  function Kept(w: World, p: Parse): seq<Draft>
    requires p.Parsed?
  {
    var posts := SelectedPosts(p.posts, w.lowerBound);
    [p.group] + posts + KeptComments(p.comments, Keys(posts))
  }

  predicate Accepted(w: World, p: Parse) {
    p.Parsed? && p.group.key == Key(Group, w.groupId) && w.sameUrl(p.url)
  }

  function Saves(records: seq<Record>): (r: seq<DataOp>)
    ensures |r| == |records| && forall i | 0 <= i < |r| :: r[i] == SaveRecord(records[i])
  {
    seq(|records|, i requires 0 <= i < |records| => SaveRecord(records[i]))
  }

  // --------------------------------------------------------- the position

  /** Where the loop stands: pages done, next cursor, cursors seen, and the data
      on disk. */
  datatype Position = Position(done: nat, cursor: Option<string>, seen: set<string>, data: Data)

  datatype Verdict =
    | ParserDrift
    | Finish
    | PageLimit
    | CursorLoop
    | Continue(cursor: string)

  function Judge(w: World, p: Position, page: Fetch): Verdict
    requires page.Rendered?
  {
    if !Accepted(w, w.parse(page.raw)) then ParserDrift
    else
      match page.next
      case None => Finish
      case Some(next) =>
        if p.done + 1 >= w.maxPages then PageLimit
        else if next in p.seen then CursorLoop
        else Continue(next)
  }

  /** The capture identity of the page the loop is about to process. */
  function PageCapture(w: World, p: Position, page: Fetch): CaptureId
    requires page.Rendered?
  {
    CaptureOf(w, p.done + 1, p.cursor, page.raw)
  }

  /** The time stamped on a page: the stored one when the capture is known. */
  function TimeFor(d: Data, id: CaptureId, now: int): int {
    if id in d.tables.captures then d.tables.captures[id].collectedAt else now
  }

  /** What is recorded of a stored page. */
  function PageMeta(w: World, id: CaptureId, raw: Bytes, at: int): Meta {
    Meta(Sha256(raw), w.url, at, Some(id), Some(|raw|))
  }

  /** The raw file, then its metadata. */
  function RawOps(w: World, id: CaptureId, raw: Bytes, at: int): seq<DataOp> {
    [WriteFile(id, raw), AddCapture(id, PageMeta(w, id, raw, at))]
  }

  /** The metadata again, then Group, Posts and Comments. */
  function PersistOps(w: World, id: CaptureId, raw: Bytes, at: int): seq<DataOp> {
    var parse := w.parse(raw);
    if Accepted(w, parse) then
      [AddCapture(id, PageMeta(w, id, raw, at))] + Saves(StampAll(Kept(w, parse), id, at))
    else []
  }

  /** The checkpoint row a verdict calls for, if any. */
  function CheckpointRows(verdict: Verdict, number: nat, id: CaptureId): seq<Row> {
    match verdict
    case Finish => [Row(number, None, id)]
    case Continue(next) => [Row(number, Some(next), id)]
    case _ => []
  }

  function CheckpointOps(verdict: Verdict, number: nat, id: CaptureId): seq<DataOp> {
    var rows := CheckpointRows(verdict, number, id);
    if rows == [] then [] else [PutRow(rows[0])]
  }

  /** Every data write of one page, stamped with time `at`. */
  function OpsAt(w: World, p: Position, page: Fetch, at: int): seq<DataOp>
    requires page.Rendered?
  {
    var id := PageCapture(w, p, page);
    RawOps(w, id, page.raw, at) + PersistOps(w, id, page.raw, at)
      + CheckpointOps(Judge(w, p, page), p.done + 1, id)
  }

  /** Every data write of the next page; a browser stop writes none. */
  function PageOps(w: World, p: Position, clock: Clock): seq<DataOp> {
    var page := w.fetch(p.cursor);
    match page
    case Stopped(_) => []
    case Rendered(_, _) =>
      OpsAt(w, p, page, TimeFor(p.data, PageCapture(w, p, page), clock(p.done + 1)))
  }

  // ------------------------------------------------------------- the loop

  datatype Outcome =
    | InvalidBound
    | NotRunnable
    | Success
    | Failing(class_: string)
    | Refused(why: Refusal)
    | Paused

  /** What one attempt wrote, which cursors it fetched, and how it ended. */
  datatype Run = Run(log: seq<Op>, fetched: seq<Option<string>>, outcome: Outcome)

  function FailOps(capture: Option<CaptureId>, class_: string): seq<Op> {
    [RecordFailure(Failure(capture, class_)), SetTask(TaskFailed), Transition(Failed)]
  }

  const PAUSE_OPS: seq<Op> := [SetTask(TaskInterrupted), Transition(Interrupted)]

  const SUCCESS_OPS: seq<Op> := [SetTask(TaskSucceeded), Transition(Succeeded)]

  function FailureClass(v: Verdict): string {
    match v
    case PageLimit => "page_limit"
    case CursorLoop => "pagination_loop"
    case _ => "parser_drift"
  }

  /** The next position, once all writes of a page that goes on are done. */
  function Advance(p: Position, next: string, data: Data): Position {
    Position(p.done + 1, Some(next), p.seen + {next}, data)
  }

  /** The page loop from `p`; `left` counts the pages before a planned pause. */
  function Loop(w: World, p: Position, clock: Clock, left: Option<nat>): Run
    decreases w.maxPages - p.done
  {
    var page := w.fetch(p.cursor);
    match page
    case Stopped(f) => Run(FailOps(None, f), [p.cursor], Failing(f))
    case Rendered(_, _) =>
      var ops := PageOps(w, p, clock);
      var e := Exec(p.data, ops);
      var id := PageCapture(w, p, page);
      var written := Lift(ops[..e.done]);
      if e.refusal.Some? then Run(written, [p.cursor], Refused(e.refusal.value))
      else
        match Judge(w, p, page)
        case Finish =>
          if left == Some(1) then Run(written + PAUSE_OPS, [p.cursor], Paused)
          else Run(written + SUCCESS_OPS, [p.cursor], Success)
        case Continue(next) =>
          if left == Some(1) then Run(written + PAUSE_OPS, [p.cursor], Paused)
          else
            var rest := Loop(w, Advance(p, next, e.data), clock, Less(left));
            Run(written + rest.log, [p.cursor] + rest.fetched, rest.outcome)
        case v => Run(written + FailOps(Some(id), FailureClass(v)), [p.cursor], Failing(FailureClass(v)))
  }

  function Less(left: Option<nat>): Option<nat> {
    match left
    case None => None
    case Some(n) => Some(if n == 0 then 0 else n - 1)
  }

  // ---------------------------------------------------------- one attempt

  function Cursors(rows: seq<Row>): set<string> {
    set r | r in rows && r.cursor.Some? :: r.cursor.value
  }

  /** The position rebuilt from the stored checkpoints. */
  function Resume(data: Data): Position {
    if data.rows == [] then Position(0, None, {}, data)
    else
      var last := data.rows[|data.rows| - 1];
      Position(last.number, last.cursor, Cursors(data.rows), data)
  }

  function StartOps(job: JobState): seq<Op> {
    (if job in {Planned, Interrupted, Partial} then [Transition(Running)] else []) + [SetTask(TaskRunning)]
  }

  predicate Runnable(job: JobState) { job in {Planned, Interrupted, Partial, Running} }

  /** One call of the workflow on `d`. */
  function Attempt(w: World, d: Disk, clock: Clock, left: Option<nat>): Run {
    if w.maxPages <= 0 || left == Some(0) then Run([], [], InvalidBound)
    else if !Runnable(d.control.job) then Run([], [], NotRunnable)
    else
      var p := Resume(d.data);
      if p.cursor.None? && p.done > 0 then Run(StartOps(d.control.job) + SUCCESS_OPS, [], Success)
      else
        var run := Loop(w, p, clock, left);
        run.(log := StartOps(d.control.job) + run.log)
  }
}
