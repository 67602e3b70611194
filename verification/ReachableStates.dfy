/** What holds on every disk a capture job can leave, whatever crashed. */
module ReachableStates {
  import opened Basics
  import opened Storage
  import opened Durable
  import opened Capture
  import opened Recovery
  import opened CrashSafety
  import opened Convergence

  /** Parsed Posts name their page's Group, parsed Comments a Post and that
      Group. */
  ghost predicate Nested(w: World) {
    forall raw | w.parse(raw).Parsed? ::
      var p := w.parse(raw);
      && p.group.parents == []
      && (forall d | d in p.posts :: d.parents == [p.group.key])
      && (forall d | d in p.comments ::
            |d.parents| == 2 && d.parents[0].kind == Post && d.parents[1] == p.group.key)
  }

  ghost predicate Orderly(t: Tables) {
    Sound(t) && Ordered(t)
  }

  /** Collected before the last cleanup of raw files. */
  predicate Outlived(m: Meta, cut: Option<int>) {
    cut.Some? && m.collectedAt < cut.value
  }

  /** Every raw file is what its identifier says, and so is every capture; its
      raw file is there unless a cleanup of raw files has passed its time. */
  ghost predicate Evidenced(files: map<CaptureId, Bytes>, captures: map<CaptureId, Meta>, cut: Option<int>) {
    && (forall id | id in files :: Sha256(files[id]) == id.digest)
    && (forall id | id in captures ::
          && captures[id].digest == id.digest
          && captures[id].path == Some(id)
          && captures[id].size == Some(|id.digest.preimage|)
          && (id in files || Outlived(captures[id], cut)))
  }

  /** Every checkpoint of a job names a stored capture of that job. */
  ghost predicate Named(job: string, captures: map<CaptureId, Meta>, rows: seq<Row>) {
    forall r | r in rows :: r.capture in captures && r.capture.job == job
  }

  /** Evidence before records and checkpoints. */
  ghost predicate Sealed(job: string, d: Data, cut: Option<int>) {
    Evidenced(d.files, d.tables.captures, cut) && Named(job, d.tables.captures, d.rows)
  }

  // ------------------------------------------------------------- one page

  /** Every kept draft comes after the parents it names. */
  lemma ParentsFirst(w: World, raw: Bytes, j: nat, p: Key) returns (k: nat)
    requires WellParsed(w) && Nested(w) && w.parse(raw).Parsed?
    requires j < |Kept(w, w.parse(raw))| && p in Kept(w, w.parse(raw))[j].parents
    ensures k < j && Kept(w, w.parse(raw))[k].key == p
  {
    hide WellParsed;
    var parse := w.parse(raw);
    var posts := SelectedPosts(parse.posts, w.lowerBound);
    var d := Kept(w, parse)[j];
    k := 0;
    if |posts| < j && p == d.parents[0] {
      KeptComment(w, raw, j);
      k := PostIndex(posts, p);
    } else if 0 < j <= |posts| {
      assert d == posts[j - 1] && d in parse.posts;
    } else if |posts| < j {
      KeptComment(w, raw, j);
    }
  }

  lemma KeptComment(w: World, raw: Bytes, j: nat)
    requires Nested(w) && w.parse(raw).Parsed?
    requires |SelectedPosts(w.parse(raw).posts, w.lowerBound)| < j < |Kept(w, w.parse(raw))|
    ensures var parse := w.parse(raw);
            var d := Kept(w, parse)[j];
            && d in parse.comments
            && |d.parents| == 2 && d.parents[1] == parse.group.key
            && d.parents[0] in Keys(SelectedPosts(parse.posts, w.lowerBound))
  {
    var parse := w.parse(raw);
    var posts := SelectedPosts(parse.posts, w.lowerBound);
    var comments := KeptComments(parse.comments, Keys(posts));
    assert Kept(w, parse)[j] == comments[j - 1 - |posts|];
    assert comments[j - 1 - |posts|] in comments;
  }

  lemma PostIndex(posts: seq<Draft>, p: Key) returns (k: nat)
    requires p in Keys(posts)
    ensures 0 < k <= |posts| && posts[k - 1].key == p
  {
    var i :| 0 <= i < |posts| && posts[i].key == p;
    k := i + 1;
  }

  lemma KeptShaped(w: World, raw: Bytes, id: CaptureId, at: int, j: nat)
    requires WellParsed(w) && Nested(w) && Accepted(w, w.parse(raw))
    requires j < |Kept(w, w.parse(raw))|
    ensures Shaped(Stamp(Kept(w, w.parse(raw))[j], id, at))
  {
    var parse := w.parse(raw);
    var posts := SelectedPosts(parse.posts, w.lowerBound);
    var comments := KeptComments(parse.comments, Keys(posts));
    var d := Kept(w, parse)[j];
    if j > 0 {
      if j <= |posts| {
        assert d == posts[j - 1] && d in parse.posts;
      } else {
        assert d == comments[j - 1 - |posts|] && d in comments && d in parse.comments;
      }
    }
  }

  /** The position of a saved draft among the page's writes. */
  lemma SaveAt(w: World, b: Position, page: Fetch, at: int, j: nat)
    requires page.Rendered? && Accepted(w, w.parse(page.raw)) && j < |Kept(w, w.parse(page.raw))|
    ensures j + 3 < |OpsAt(w, b, page, at)|
    ensures OpsAt(w, b, page, at)[j + 3]
            == SaveRecord(Stamp(Kept(w, w.parse(page.raw))[j], PageCapture(w, b, page), at))
  {
    hide Kept, Judge, PageCapture;
    var id := PageCapture(w, b, page);
    var kept := Kept(w, w.parse(page.raw));
    var persist := PersistOps(w, id, page.raw, at);
    assert persist[j + 1] == SaveRecord(Stamp(kept[j], id, at));
  }

  /** A save among the page's writes is the save of a kept draft. */
  lemma SaveFrom(w: World, b: Position, page: Fetch, at: int, i: nat)
    requires page.Rendered? && i < |OpsAt(w, b, page, at)| && OpsAt(w, b, page, at)[i].SaveRecord?
    ensures Accepted(w, w.parse(page.raw)) && 3 <= i < 3 + |Kept(w, w.parse(page.raw))|
    ensures OpsAt(w, b, page, at)[i].record
            == Stamp(Kept(w, w.parse(page.raw))[i - 3], PageCapture(w, b, page), at)
  {
    hide Kept, PageCapture;
    var id := PageCapture(w, b, page);
    var persist := PersistOps(w, id, page.raw, at);
    if i < 2 + |persist| { assert OpsAt(w, b, page, at)[i] == persist[i - 2]; }
  }

  /** When a page saves a record, its parents were saved with the same time. */
  lemma {:induction false} SaveCovered(w: World, b: Position, page: Fetch, at: int, i: nat)
    requires WellParsed(w) && Nested(w) && page.Rendered?
    requires i < Exec(b.data, OpsAt(w, b, page, at)).done && OpsAt(w, b, page, at)[i].SaveRecord?
    ensures var r := OpsAt(w, b, page, at)[i].record;
            Shaped(r) && Covered(Exec(b.data, OpsAt(w, b, page, at)[..i]).data.tables, r)
  {
    hide Exec, OpsAt, Kept, WellParsed, PageCapture;
    var ops := OpsAt(w, b, page, at);
    var id := PageCapture(w, b, page);
    var d := Exec(b.data, ops[..i]).data;
    SaveFrom(w, b, page, at, i);
    var r := ops[i].record;
    KeptShaped(w, page.raw, id, at, i - 3);
    PageApart(w, b, page, at);
    DoneIsAbsorbed(b.data, ops, i);
    forall p | p in r.parents ensures p in d.tables.records && d.tables.records[p].observedAt == at {
      var k := ParentsFirst(w, page.raw, i - 3, p);
      SaveAt(w, b, page, at, k);
      AbsorbedOp(d, ops[k + 3]);
    }
  }

  lemma AbsorbedOp(d: Data, op: DataOp)
    requires Absorbed(d, op) && op.SaveRecord?
    ensures op.record.key in d.tables.records && d.tables.records[op.record.key] == op.record
  {
    hide Save;
    AbsorbedSave(d.tables, op.record);
  }

  lemma FileStays(d: Data, op: DataOp)
    requires ApplyData(d, op).Ok?
    ensures forall id | id in d.files ::
              id in ApplyData(d, op).value.files && ApplyData(d, op).value.files[id] == d.files[id]
    ensures forall id | id in d.tables.captures ::
              && id in ApplyData(d, op).value.tables.captures
              && ApplyData(d, op).value.tables.captures[id] == d.tables.captures[id]
  {
  }

  lemma {:induction false} UpsertRows(rows: seq<Row>, row: Row)
    ensures forall r | r in Upsert(rows, row) :: r == row || r in rows
    decreases |rows|
  {
    if rows != [] { UpsertRows(rows[..|rows| - 1], row); }
  }

  /** One more write of a page keeps the evidence in place. */
  lemma OpKeepsSealed(w: World, d: Data, op: DataOp, id: CaptureId, raw: Bytes, at: int, cut: Option<int>)
    requires Sealed(w.job, d, cut) && ApplyData(d, op).Ok?
    requires id.job == w.job && id.digest == Sha256(raw)
    requires
      || op == WriteFile(id, raw)
      || (op == AddCapture(id, PageMeta(w, id, raw, at)) && id in d.files && d.files[id] == raw)
      || op.SaveRecord?
      || (op.PutRow? && op.row.capture == id)
    ensures Sealed(w.job, ApplyData(d, op).value, cut)
  {
    hide Save, Upsert;
    if op.PutRow? { UpsertRows(d.rows, op.row); }
    if op.SaveRecord? { SaveKeepsCaptures(d.tables, op.record); }
  }

  lemma SaveKeepsCaptures(t: Tables, r: Record)
    requires Save(t, r).Ok?
    ensures Save(t, r).value.captures == t.captures
  {
  }

  lemma OpKeepsTables(d: Data, op: DataOp)
    requires Sound(d.tables) && Ordered(d.tables) && ApplyData(d, op).Ok?
    requires op.SaveRecord? ==> Shaped(op.record) && Covered(d.tables, op.record)
    ensures Sound(ApplyData(d, op).value.tables) && Ordered(ApplyData(d, op).value.tables)
  {
    hide Save, Covered;
    match op
    case WriteFile(_, _) =>
    case PutRow(_) =>
    case SaveRecord(r) =>
      SaveKeepsSound(d.tables, r);
      SaveKeepsOrder(d.tables, r);
    case AddCapture(id, meta) => MetaKeepsSound(d.tables, id, meta);
  }

  lemma MetaKeepsSound(t: Tables, id: CaptureId, meta: Meta)
    requires Sound(t) && AddMeta(t.captures, id, meta).Ok?
    ensures Sound(t.(captures := AddMeta(t.captures, id, meta).value))
  {
    var t' := t.(captures := AddMeta(t.captures, id, meta).value);
    forall k | k in t'.records ensures Counted(t', t'.records[k]) {
      assert Counted(t, t.records[k]);
    }
  }

  /** The kinds of write a page performs. */
  lemma PageOpKinds(w: World, b: Position, page: Fetch, at: int, i: nat)
    requires page.Rendered? && i < |OpsAt(w, b, page, at)|
    ensures var op := OpsAt(w, b, page, at)[i];
            var id := PageCapture(w, b, page);
            || (i == 0 && op == WriteFile(id, page.raw))
            || (i > 0 && op == AddCapture(id, PageMeta(w, id, page.raw, at)))
            || (i > 0 && op.SaveRecord?)
            || (i > 0 && op.PutRow? && op.row.capture == id)
  {
    hide Kept, Judge, PageCapture;
    var id := PageCapture(w, b, page);
    var persist := PersistOps(w, id, page.raw, at);
    if 2 <= i < 2 + |persist| { assert OpsAt(w, b, page, at)[i] == persist[i - 2]; }
  }

  lemma PageFile(w: World, b: Position, page: Fetch, at: int, i: nat)
    requires WellParsed(w) && page.Rendered? && 0 < i <= Exec(b.data, OpsAt(w, b, page, at)).done
    ensures var d := Exec(b.data, OpsAt(w, b, page, at)[..i]).data;
            var id := PageCapture(w, b, page);
            id in d.files && d.files[id] == page.raw
  {
    hide Exec, OpsAt, WellParsed, PageCapture;
    PageApart(w, b, page, at);
    DoneIsAbsorbed(b.data, OpsAt(w, b, page, at), i);
    PageOpKinds(w, b, page, at, 0);
    AbsorbedFile(Exec(b.data, OpsAt(w, b, page, at)[..i]).data, OpsAt(w, b, page, at)[0]);
  }

  lemma AbsorbedFile(d: Data, op: DataOp)
    requires Absorbed(d, op) && op.WriteFile?
    ensures op.id in d.files && d.files[op.id] == op.raw
  {
    assert op.id in d.files[op.id := op.raw];
  }

  /** Every prefix of a page's writes keeps the tables sound and parents at least
      as recent as children. */
  lemma {:induction false} PrefixOrderly(w: World, b: Position, page: Fetch, at: int, i: nat)
    requires WellParsed(w) && Nested(w) && page.Rendered? && Orderly(b.data.tables)
    requires i <= Exec(b.data, OpsAt(w, b, page, at)).done
    ensures Orderly(Exec(b.data, OpsAt(w, b, page, at)[..i]).data.tables)
  {
    hide Exec, OpsAt, WellParsed, Nested, Sound, Ordered, ApplyData;
    var ops := OpsAt(w, b, page, at);
    if i == 0 {
      assert ops[..0] == [];
      ExecNothing(b.data);
    } else {
      PrefixOrderly(w, b, page, at, i - 1);
      ExecStep(b.data, ops, i - 1);
      if ops[i - 1].SaveRecord? { SaveCovered(w, b, page, at, i - 1); }
      OpKeepsTables(Exec(b.data, ops[..i - 1]).data, ops[i - 1]);
    }
  }

  /** Every prefix of a page's writes keeps evidence before records. */
  lemma {:induction false} PrefixSealed(w: World, b: Position, page: Fetch, at: int, i: nat, cut: Option<int>)
    requires WellParsed(w) && page.Rendered? && Sealed(w.job, b.data, cut)
    requires i <= Exec(b.data, OpsAt(w, b, page, at)).done
    ensures Sealed(w.job, Exec(b.data, OpsAt(w, b, page, at)[..i]).data, cut)
  {
    hide Exec, OpsAt, WellParsed, PageCapture, Sealed, ApplyData;
    var ops := OpsAt(w, b, page, at);
    if i == 0 {
      assert ops[..0] == [];
      ExecNothing(b.data);
    } else {
      PrefixSealed(w, b, page, at, i - 1, cut);
      ExecStep(b.data, ops, i - 1);
      PageOpKinds(w, b, page, at, i - 1);
      if i > 1 { PageFile(w, b, page, at, i - 1); }
      CaptureIdentity(w, b, page);
      OpKeepsSealed(w, Exec(b.data, ops[..i - 1]).data, ops[i - 1], PageCapture(w, b, page), page.raw, at, cut);
    }
  }

  lemma CaptureIdentity(w: World, b: Position, page: Fetch)
    requires page.Rendered?
    ensures PageCapture(w, b, page).job == w.job && PageCapture(w, b, page).digest == Sha256(page.raw)
  {
  }

  lemma PartwayOrderly(w: World, b: Position, c: Clock, i: nat, data: Data)
    requires WellParsed(w) && Nested(w) && Orderly(b.data.tables) && Partway(w, b, c, i, data)
    ensures Orderly(data.tables)
  {
    hide Exec, OpsAt, WellParsed, Nested, Orderly, PageCapture;
    var page := w.fetch(b.cursor);
    if page.Stopped? {
      ExecNothing(b.data);
    } else {
      PrefixOrderly(w, b, page, TimeFor(b.data, PageCapture(w, b, page), c(b.done + 1)), i);
    }
  }

  lemma StepPartway(w: World, a: Position, c: Clock, b: Position)
    requires StepTo(w, a, c) == Some(b)
    ensures Partway(w, a, c, |PageOps(w, a, c)|, b.data)
  {
    hide PageOps;
    StepComplete(w, a, c);
    var ops := PageOps(w, a, c);
    assert ops[..|ops|] == ops;
  }

  // ----------------------------------------------------- loops and attempts

  /** Every prefix of a page's writes keeps `inv`, whatever the page. */
  ghost predicate PagesKeep(w: World, inv: Data -> bool) {
    forall b: Position, page: Fetch, at: int, i: nat
      | page.Rendered? && inv(b.data) && i <= Exec(b.data, OpsAt(w, b, page, at)).done ::
        inv(Exec(b.data, OpsAt(w, b, page, at)[..i]).data)
  }

  lemma NextPageKeeps(w: World, inv: Data -> bool, p: Position, clock: Clock, i: nat)
    requires PagesKeep(w, inv) && inv(p.data) && i <= Exec(p.data, PageOps(w, p, clock)).done
    ensures inv(Exec(p.data, PageOps(w, p, clock)[..i]).data)
  {
    hide Exec, OpsAt, PageCapture;
    if w.fetch(p.cursor).Stopped? { ExecNothing(p.data); }
  }

  predicate ControlOnly(ops: seq<Op>) {
    forall op | op in ops :: !op.OnData?
  }

  lemma {:induction false} ControlKeepsData(d: Disk, ops: seq<Op>)
    requires ControlOnly(ops)
    ensures Land(d, ops).data == d.data
    decreases |ops|
  {
    if ops != [] {
      assert ops[0] in ops;
      ControlKeepsData(match Apply(d, ops[0]) case Ok(d') => d' case Err(_) => d, ops[1..]);
    }
  }

  /** After the page's own writes the loop goes on, or only control is written. */
  lemma TailControls(w: World, p: Position, clock: Clock, left: Option<nat>)
    requires StepTo(w, p, clock).None? || left == Some(1)
    ensures ControlOnly(LoopTail(w, p, clock, left))
  {
    hide PageOps, StepTo, EndOf, Loop, FailureAt;
  }

  /** The disk `m` writes into a loop that starts with `d.data`, when they are
      writes of its first page. */
  lemma LoopHead(w: World, p: Position, clock: Clock, left: Option<nat>, d: Disk, m: nat)
    requires d.data == p.data && m <= Exec(p.data, PageOps(w, p, clock)).done
    ensures |Loop(w, p, clock, left).log|
            == Exec(p.data, PageOps(w, p, clock)).done + |LoopTail(w, p, clock, left)|
    ensures Land(d, Loop(w, p, clock, left).log[..m])
            == d.(data := Exec(p.data, PageOps(w, p, clock)[..m]).data)
  {
    hide PageOps, Exec, Loop, Land, LoopTail;
    var ops := PageOps(w, p, clock);
    var done := Exec(p.data, ops).done;
    LoopUnfolds(w, p, clock, left);
    ExecPrefix(p.data, ops, m);
    LandData(d, ops, done, m);
    assert Loop(w, p, clock, left).log[..m] == Lift(ops[..done])[..m];
  }

  /** The disk after the first page of a loop and `m` more writes. */
  lemma LoopRest(w: World, p: Position, clock: Clock, left: Option<nat>, d: Disk, m: nat)
    requires d.data == p.data && m <= |LoopTail(w, p, clock, left)|
    ensures var e := Exec(p.data, PageOps(w, p, clock));
            && e.done + m <= |Loop(w, p, clock, left).log|
            && Land(d, Loop(w, p, clock, left).log[..e.done + m])
               == Land(d.(data := e.data), LoopTail(w, p, clock, left)[..m])
  {
    hide PageOps, Exec, Loop, Land, LoopTail;
    var ops := PageOps(w, p, clock);
    var done := Exec(p.data, ops).done;
    LoopUnfolds(w, p, clock, left);
    ExecPrefix(p.data, ops, done);
    ExecDone(p.data, ops);
    LandData(d, ops, done, done);
    var written := Lift(ops[..done]);
    var tail := LoopTail(w, p, clock, left);
    assert written[..done] == written;
    assert Loop(w, p, clock, left).log[..done + m] == written + tail[..m];
    LandSplit(d, written, tail[..m]);
  }

  /** What the pages keep holds after any number of a loop's writes. */
  lemma {:induction false} LoopKeeps(
    w: World, inv: Data -> bool, p: Position, clock: Clock, left: Option<nat>, d: Disk, m: nat)
    requires PagesKeep(w, inv) && inv(p.data) && d.data == p.data && m <= |Loop(w, p, clock, left).log|
    ensures inv(Land(d, Loop(w, p, clock, left).log[..m]).data)
    decreases w.maxPages - p.done
  {
    hide PageOps, Exec, Loop, Land, PagesKeep, EndOf, FailureAt, StepTo, LoopTail;
    var ops := PageOps(w, p, clock);
    var e := Exec(p.data, ops);
    LoopHead(w, p, clock, left, d, Min(m, e.done));
    NextPageKeeps(w, inv, p, clock, Min(m, e.done));
    if m > e.done {
      var rest := m - e.done;
      var tail := LoopTail(w, p, clock, left);
      LoopRest(w, p, clock, left, d, rest);
      ExecDone(p.data, ops);
      var d1 := d.(data := e.data);
      if StepTo(w, p, clock).None? || left == Some(1) {
        TailControls(w, p, clock, left);
        ControlKeepsData(d1, tail[..rest]);
      } else {
        TailLoops(w, p, clock, left);
        LoopKeeps(w, inv, StepTo(w, p, clock).value, clock, Less(left), d1, rest);
      }
    }
  }

  lemma TailLoops(w: World, p: Position, clock: Clock, left: Option<nat>)
    requires StepTo(w, p, clock).Some? && left != Some(1)
    ensures LoopTail(w, p, clock, left) == Loop(w, StepTo(w, p, clock).value, clock, Less(left)).log
    ensures var q := StepTo(w, p, clock).value;
            q.data == Exec(p.data, PageOps(w, p, clock)).data && q.done == p.done + 1 < w.maxPages
  {
    hide PageOps, Exec, Loop;
  }

  /** What the pages keep holds after any number of an attempt's writes. */
  lemma {:induction false} AttemptKeeps(
    w: World, inv: Data -> bool, d: Disk, clock: Clock, left: Option<nat>, m: nat)
    requires PagesKeep(w, inv) && inv(d.data) && m <= |Attempt(w, d, clock, left).log|
    ensures inv(Land(d, Attempt(w, d, clock, left).log[..m]).data)
  {
    hide Attempt, Loop, Land, PagesKeep;
    AttemptUnfolds(w, d, clock, left);
    var log := Attempt(w, d, clock, left).log;
    if log == [] {
      assert log[..m] == [];
      LandNothing(d);
      return;
    }
    var start := StartOps(d.control.job);
    var tail := AttemptTail(w, d.data, clock, left);
    if m <= |start| {
      assert log[..m] == start[..m];
      ControlKeepsData(d, start[..m]);
    } else {
      var rest := m - |start|;
      assert log[..m] == start + tail[..rest];
      LandSplit(d, start, tail[..rest]);
      ControlKeepsData(d, start);
      var d1 := Land(d, start);
      if tail == SUCCESS_OPS {
        ControlKeepsData(d1, tail[..rest]);
      } else {
        LoopKeeps(w, inv, Resume(d.data), clock, left, d1, rest);
      }
    }
  }

  lemma OrderlyPagesKeep(w: World)
    requires WellParsed(w) && Nested(w)
    ensures PagesKeep(w, (d: Data) => Orderly(d.tables))
  {
    hide Exec, OpsAt, WellParsed, Nested, Orderly;
    forall b: Position, page: Fetch, at: int, i: nat
      | page.Rendered? && Orderly(b.data.tables) && i <= Exec(b.data, OpsAt(w, b, page, at)).done
      ensures Orderly(Exec(b.data, OpsAt(w, b, page, at)[..i]).data.tables)
    {
      PrefixOrderly(w, b, page, at, i);
    }
  }

  lemma SealedPagesKeep(w: World, cut: Option<int>)
    requires WellParsed(w)
    ensures PagesKeep(w, (d: Data) => Sealed(w.job, d, cut))
  {
    hide Exec, OpsAt, WellParsed, Sealed;
    forall b: Position, page: Fetch, at: int, i: nat
      | page.Rendered? && Sealed(w.job, b.data, cut) && i <= Exec(b.data, OpsAt(w, b, page, at)).done
      ensures Sealed(w.job, Exec(b.data, OpsAt(w, b, page, at)[..i]).data, cut)
    {
      PrefixSealed(w, b, page, at, i, cut);
    }
  }

  /** One attempt, cut short anywhere, on any disk, keeps the tables in order. */
  lemma {:induction false} TryOrderly(w: World, d: Disk, t: Try)
    requires WellParsed(w) && Nested(w) && Orderly(d.data.tables)
    ensures Orderly(AfterTry(w, d, t).data.tables)
  {
    hide Attempt, Land, Orderly, WellParsed, Nested, PagesKeep;
    OrderlyPagesKeep(w);
    AttemptKeeps(w, (d: Data) => Orderly(d.tables), d, t.clock, t.left,
                 Min(t.kept, |Attempt(w, d, t.clock, t.left).log|));
  }

  /** And it stores evidence before records and checkpoints. */
  lemma {:induction false} TrySealed(w: World, d: Disk, t: Try, cut: Option<int>)
    requires WellParsed(w) && Sealed(w.job, d.data, cut)
    ensures Sealed(w.job, AfterTry(w, d, t).data, cut)
  {
    hide Attempt, Land, Sealed, WellParsed, PagesKeep;
    SealedPagesKeep(w, cut);
    AttemptKeeps(w, (d: Data) => Sealed(w.job, d, cut), d, t.clock, t.left,
                 Min(t.kept, |Attempt(w, d, t.clock, t.left).log|));
  }

  lemma {:induction false} TriesOrderly(w: World, d: Disk, tries: seq<Try>)
    requires WellParsed(w) && Nested(w) && Orderly(d.data.tables)
    ensures Orderly(After(w, d, tries).data.tables)
    decreases |tries|
  {
    hide AfterTry, Orderly, WellParsed, Nested;
    if tries != [] {
      TriesOrderly(w, d, tries[..|tries| - 1]);
      TryOrderly(w, After(w, d, tries[..|tries| - 1]), tries[|tries| - 1]);
    }
  }

  /** A loop stores metadata of the pages it comes to, all within the bound. */
  lemma {:induction false} LoopStores(w: World, p: Position, clock: Clock, left: Option<nat>, n: nat)
    requires Stores(Loop(w, p, clock, left).log, n)
    ensures p.done < n && (n == p.done + 1 || n <= w.maxPages)
    decreases w.maxPages - p.done
  {
    hide PageOps, Exec, Loop, StepTo, EndOf, FailureAt, LoopTail;
    var ops := PageOps(w, p, clock);
    var written := Lift(ops[..Exec(p.data, ops).done]);
    var tail := LoopTail(w, p, clock, left);
    LoopUnfolds(w, p, clock, left);
    if StepTo(w, p, clock).None? || left == Some(1) {
      TailControls(w, p, clock, left);
      ControlStores(written, tail, n);
    } else if !Stores(written, n) {
      TailLoops(w, p, clock, left);
      StoresOne(written, tail, n);
      LoopStores(w, StepTo(w, p, clock).value, clock, Less(left), n);
    }
    if Stores(written, n) {
      var i :| 0 <= i < |written| && written[i].OnData? && written[i].op.AddCapture?
        && written[i].op.id.number == n;
      PageStores(w, p, clock, i);
    }
  }

  lemma StoresOne(a: seq<Op>, b: seq<Op>, n: nat)
    requires Stores(a + b, n)
    ensures Stores(a, n) || Stores(b, n)
  {
    var log := a + b;
    var i :| 0 <= i < |log| && log[i].OnData? && log[i].op.AddCapture? && log[i].op.id.number == n;
    if i < |a| { assert a[i] == log[i]; } else { assert b[i - |a|] == log[i]; }
  }

  lemma ControlStores(a: seq<Op>, b: seq<Op>, n: nat)
    requires ControlOnly(b) && Stores(a + b, n)
    ensures Stores(a, n)
  {
    forall i | 0 <= i < |b| ensures !b[i].OnData? {
      assert b[i] in b;
    }
    var log := a + b;
    var i :| 0 <= i < |log| && log[i].OnData? && log[i].op.AddCapture? && log[i].op.id.number == n;
    assert i < |a| && a[i] == log[i];
  }

  lemma PageStores(w: World, p: Position, clock: Clock, i: nat)
    requires i < |PageOps(w, p, clock)| && PageOps(w, p, clock)[i].AddCapture?
    ensures PageOps(w, p, clock)[i].id.number == p.done + 1
  {
    hide OpsAt;
    var page := w.fetch(p.cursor);
    PageOpKinds(w, p, page, TimeFor(p.data, PageCapture(w, p, page), clock(p.done + 1)), i);
  }

  /** So a clock that rises over all pages of a new job is in order. */
  lemma {:induction false} RisingIsInOrder(w: World, d: Disk, clock: Clock, left: Option<nat>, low: int, high: int)
    requires Created(d) && w.maxPages > 0 && Rising(w, clock, low, high)
    ensures RisesIn(clock, Attempt(w, d, clock, left).log, low, high)
  {
    hide Attempt, Loop, Stores;
    AttemptUnfolds(w, d, clock, left);
    var log := Attempt(w, d, clock, left).log;
    forall n: nat | Stores(log, n) ensures 1 <= n <= w.maxPages {
      AttemptStores(w, d, clock, left, n);
    }
  }

  lemma AttemptStores(w: World, d: Disk, clock: Clock, left: Option<nat>, n: nat)
    requires Created(d) && w.maxPages > 0 && Stores(Attempt(w, d, clock, left).log, n)
    ensures 1 <= n <= w.maxPages
  {
    hide Attempt, Loop;
    AttemptUnfolds(w, d, clock, left);
    var log := Attempt(w, d, clock, left).log;
    var start := StartOps(d.control.job);
    var tail := Loop(w, Resume(d.data), clock, left).log;
    assert log != [] && log == start + tail;
    StoresOne(start, tail, n);
    LoopStores(w, Resume(d.data), clock, left, n);
  }

  // ------------------------------------------------------- checkpoint rows

  ghost predicate TerminalRow(rows: seq<Row>) {
    rows != [] && rows[|rows| - 1].cursor.None?
  }

  /** The checkpoint rows: numbered 1..n without gap, no cursor twice, only the
      last may be terminal, and a page more is within the bound unless it is. */
  ghost predicate RowsFit(bound: int, rows: seq<Row>) {
    && (forall j | 0 <= j < |rows| :: rows[j].number == j + 1)
    && (forall j | 0 <= j < |rows| - 1 :: rows[j].cursor.Some?)
    && (forall i, j | 0 <= i < j < |rows| :: rows[i].cursor != rows[j].cursor)
    && (rows != [] ==> |rows| + (if TerminalRow(rows) then 0 else 1) <= bound)
  }

  lemma StandingFits(p: Position, bound: int, verdict: Verdict, id: CaptureId)
    requires Standing(p) && (p.done == 0 || p.done < bound) && 0 < bound
    requires verdict.Continue? ==> verdict.cursor !in p.seen && p.done + 1 < bound
    ensures RowsFit(bound, p.data.rows)
    ensures RowsFit(bound, p.data.rows + CheckpointRows(verdict, p.done + 1, id))
    ensures verdict.Finish? ==> TerminalRow(p.data.rows + CheckpointRows(verdict, p.done + 1, id))
  {
    if verdict.Continue? {
      forall i | 0 <= i < p.done ensures p.data.rows[i].cursor != Some(verdict.cursor) {
        assert p.data.rows[i] in p.data.rows;
      }
    }
  }

  lemma FitsStanding(data: Data, bound: int)
    requires RowsFit(bound, data.rows) && !TerminalRow(data.rows)
    ensures Standing(Resume(data)) && (Resume(data).done == 0 || Resume(data).done < bound)
    ensures Resume(data).data == data
  {
  }

  /** A page's row is there once all its writes are done, and not before. */
  lemma PageRows(w: World, p: Position, clock: Clock, i: nat)
    requires WellParsed(w) && Standing(p) && i <= Exec(p.data, PageOps(w, p, clock)).done
    ensures var page := w.fetch(p.cursor);
            Exec(p.data, PageOps(w, p, clock)[..i]).data.rows
            == if page.Rendered? && i == |PageOps(w, p, clock)| then
                 p.data.rows + CheckpointRows(Judge(w, p, page), p.done + 1, PageCapture(w, p, page))
               else p.data.rows
  {
    hide Exec, OpsAt, Standing, WellParsed, PageCapture, Judge, BeforeRow;
    var page := w.fetch(p.cursor);
    if page.Stopped? {
      ExecNothing(p.data);
    } else {
      var at := TimeFor(p.data, PageCapture(w, p, page), clock(p.done + 1));
      var ops := OpsAt(w, p, page, at);
      PageApart(w, p, page, at);
      if i == |ops| {
        assert ops[..i] == ops;
        RowsAfter(w, p, page, at);
      } else {
        RowsBefore(w, p, page, at, i);
      }
    }
  }

  ghost predicate RowsAndJobFit(bound: int, d: Disk) {
    RowsFit(bound, d.data.rows) && (d.control.job == Succeeded ==> TerminalRow(d.data.rows))
  }

  lemma JudgeGoesOn(w: World, p: Position, page: Fetch)
    requires page.Rendered? && Judge(w, p, page).Continue?
    ensures Judge(w, p, page).cursor !in p.seen && p.done + 1 < w.maxPages
  {
  }

  lemma PageRowsFit(w: World, p: Position, clock: Clock, i: nat, bound: int)
    requires WellParsed(w) && Standing(p) && 0 < w.maxPages <= bound && (p.done == 0 || p.done < bound)
    requires i <= Exec(p.data, PageOps(w, p, clock)).done
    ensures RowsFit(bound, Exec(p.data, PageOps(w, p, clock)[..i]).data.rows)
    ensures i == |PageOps(w, p, clock)| && EndOf(w, p, clock) == Success ==>
              TerminalRow(Exec(p.data, PageOps(w, p, clock)[..i]).data.rows)
  {
    hide Exec, PageOps, Standing, WellParsed, PageCapture, Judge, RowsFit, TerminalRow;
    var page := w.fetch(p.cursor);
    PageRows(w, p, clock, i);
    StandingFits(p, bound, Finish, CaptureId("", 0, "", Sha256([])));
    if page.Rendered? {
      if Judge(w, p, page).Continue? { JudgeGoesOn(w, p, page); }
      StandingFits(p, bound, Judge(w, p, page), PageCapture(w, p, page));
    }
  }

  lemma TailRowsFit(w: World, p: Position, clock: Clock, left: Option<nat>, d: Disk, m: nat, bound: int)
    requires StepTo(w, p, clock).None? || left == Some(1)
    requires d.control.job == Running && RowsFit(bound, d.data.rows) && m <= |LoopTail(w, p, clock, left)|
    requires StepTo(w, p, clock).None? && EndOf(w, p, clock) == Success ==> TerminalRow(d.data.rows)
    ensures RowsAndJobFit(bound, Land(d, LoopTail(w, p, clock, left)[..m]))
  {
    hide PageOps, StepTo, EndOf, Loop, Land, RowsFit, TerminalRow, FailureAt;
    var tail := LoopTail(w, p, clock, left);
    if tail == [] {
      LandNothing(d);
    } else if tail == PAUSE_OPS || tail == SUCCESS_OPS {
      EndControl(d, tail, m);
    } else {
      FailControl(d, FailureAt(w, p), m);
    }
  }

  /** After any number of a loop's writes the rows fit. */
  lemma {:induction false} LoopRowsFit(
    w: World, p: Position, clock: Clock, left: Option<nat>, d: Disk, m: nat, bound: int)
    requires WellParsed(w) && Standing(p) && 0 < w.maxPages <= bound && (p.done == 0 || p.done < bound)
    requires d.data == p.data && d.control.job == Running && m <= |Loop(w, p, clock, left).log|
    ensures RowsAndJobFit(bound, Land(d, Loop(w, p, clock, left).log[..m]))
    decreases w.maxPages - p.done
  {
    hide PageOps, Exec, Loop, Land, EndOf, FailureAt, StepTo, LoopTail, WellParsed, Standing, RowsFit, TerminalRow;
    var ops := PageOps(w, p, clock);
    var e := Exec(p.data, ops);
    LoopHead(w, p, clock, left, d, Min(m, e.done));
    PageRowsFit(w, p, clock, Min(m, e.done), bound);
    if m > e.done {
      LoopRest(w, p, clock, left, d, m - e.done);
      ExecDone(p.data, ops);
      PageRowsFit(w, p, clock, e.done, bound);
      var d1 := d.(data := e.data);
      if StepTo(w, p, clock).None? || left == Some(1) {
        if EndOf(w, p, clock) == Success { EndComplete(w, p, clock); }
        TailRowsFit(w, p, clock, left, d1, m - e.done, bound);
      } else {
        TailLoops(w, p, clock, left);
        StepSettled(w, p, clock);
        LoopRowsFit(w, StepTo(w, p, clock).value, clock, Less(left), d1, m - e.done, bound);
      }
    }
  }

  /** One attempt on any fitting disk, cut short anywhere, leaves a fitting disk. */
  lemma {:induction false} TryRowsFit(w: World, d: Disk, t: Try, bound: int)
    requires WellParsed(w) && w.maxPages <= bound && RowsAndJobFit(bound, d)
    ensures RowsAndJobFit(bound, AfterTry(w, d, t))
  {
    hide Attempt, Loop, Land, Standing, WellParsed, StartOps, RowsFit, TerminalRow, Resume;
    AttemptUnfolds(w, d, t.clock, t.left);
    var log := Attempt(w, d, t.clock, t.left).log;
    var m := Min(t.kept, |log|);
    if log == [] {
      assert log[..m] == [];
      LandNothing(d);
      return;
    }
    var start := StartOps(d.control.job);
    if m <= |start| {
      StartControl(d, m);
      assert log[..m] == start[..m];
    } else {
      StartControl(d, |start|);
      assert start[..|start|] == start;
      var d1 := Land(d, start);
      var tail := AttemptTail(w, d.data, t.clock, t.left);
      assert log[..m] == start + tail[..m - |start|];
      LandSplit(d, start, tail[..m - |start|]);
      if TerminalRow(d.data.rows) {
        TerminalResumes(d.data, bound);
        EndControl(d1, SUCCESS_OPS, m - |start|);
      } else {
        FitsStanding(d.data, bound);
        StandingCursor(Resume(d.data));
        LoopRowsFit(w, Resume(d.data), t.clock, t.left, d1, m - |start|, bound);
      }
    }
  }

  lemma TerminalResumes(data: Data, bound: int)
    requires RowsFit(bound, data.rows) && TerminalRow(data.rows)
    ensures Resume(data).cursor.None? && Resume(data).done > 0
  {
  }

  lemma StandingCursor(p: Position)
    requires Standing(p)
    ensures p.cursor.None? ==> p.done == 0
  {
  }

  lemma PartwayRows(w: World, b: Position, c: Clock, i: nat, data: Data)
    requires WellParsed(w) && Standing(b) && Partway(w, b, c, i, data)
    requires i == |PageOps(w, b, c)| ==> StepTo(w, b, c).None?
    ensures data.rows != b.data.rows ==>
              var n := |b.data.rows|;
              n < |data.rows| && data.rows == b.data.rows + [Row(b.done + 1, None, data.rows[n].capture)]
  {
    hide Exec, PageOps, Standing, WellParsed, PageCapture, Judge;
    PageRows(w, b, c, i);
  }

  /** An ended job is never touched again. */
  lemma {:induction false} EndedStays(w: World, d: Disk, t: Try)
    requires Terminal(d.control.job)
    ensures AfterTry(w, d, t) == d
  {
    LandNothing(d);
  }

  // ------------------------------------------------------ job, task, failures

  /** A job's row says how it ended or paused, and a failed job has its failure
      on record. */
  predicate TaskFits(c: Control) {
    && (c.job == Succeeded ==> c.task == Some(TaskSucceeded))
    && (c.job == Failed ==> c.task == Some(TaskFailed) && c.failures != [])
    && (c.job == Interrupted ==> c.task == Some(TaskInterrupted))
  }

  lemma {:induction false} LiftControl(d: Disk, ops: seq<DataOp>)
    ensures Land(d, Lift(ops)).control == d.control
    decreases |ops|
  {
    hide ApplyData;
    if ops != [] {
      assert Lift(ops)[1..] == Lift(ops[1..]) && Lift(ops)[0] == OnData(ops[0]);
      LiftControl(match Apply(d, OnData(ops[0])) case Ok(d') => d' case Err(_) => d, ops[1..]);
    }
  }

  lemma TailTaskFits(d: Disk, ops: seq<Op>, f: Failure, m: nat)
    requires d.control.job == Running && m <= |ops|
    requires ops in {[], PAUSE_OPS, SUCCESS_OPS, FailOps(f.capture, f.class_)}
    ensures TaskFits(Land(d, ops[..m]).control)
  {
    hide Land;
    if ops == [] {
      LandNothing(d);
    } else if ops == FailOps(f.capture, f.class_) {
      FailControl(d, f, m);
    } else {
      EndControl(d, ops, m);
    }
  }

  lemma {:induction false} LoopTaskFits(w: World, p: Position, clock: Clock, left: Option<nat>, d: Disk, m: nat)
    requires d.control.job == Running && m <= |Loop(w, p, clock, left).log|
    ensures TaskFits(Land(d, Loop(w, p, clock, left).log[..m]).control)
    decreases w.maxPages - p.done
  {
    hide PageOps, Exec, StepTo, EndOf, Loop, Land, FailureAt, TaskFits, FailOps, Lift;
    LoopUnfolds(w, p, clock, left);
    var log := Loop(w, p, clock, left).log;
    var done := PageOps(w, p, clock)[..Exec(p.data, PageOps(w, p, clock)).done];
    LiftPrefix(done, m);
    if m <= |done| {
      assert log[..m] == Lift(done)[..m];
      LiftControl(d, done[..m]);
      RunningFits(Land(d, log[..m]).control);
    } else {
      var tail := LoopTail(w, p, clock, left);
      assert log[..m] == Lift(done) + tail[..m - |done|];
      LandSplit(d, Lift(done), tail[..m - |done|]);
      LiftControl(d, done);
      var d1 := Land(d, Lift(done));
      if StepTo(w, p, clock).Some? && left != Some(1) {
        StepDone(w, p, clock);
        LoopTaskFits(w, StepTo(w, p, clock).value, clock, Less(left), d1, m - |done|);
      } else {
        TailTaskFits(d1, tail, FailureAt(w, p), m - |done|);
      }
    }
  }

  lemma LiftPrefix(ops: seq<DataOp>, m: nat)
    ensures |Lift(ops)| == |ops| && (m <= |ops| ==> Lift(ops)[..m] == Lift(ops[..m]))
  {
  }

  lemma RunningFits(c: Control)
    requires c.job == Running
    ensures TaskFits(c)
  {
  }

  lemma AttemptTaskFits(w: World, d: Disk, clock: Clock, left: Option<nat>, m: nat)
    requires TaskFits(d.control) && m <= |Attempt(w, d, clock, left).log|
    ensures TaskFits(Land(d, Attempt(w, d, clock, left).log[..m]).control)
  {
    hide Attempt, Loop, Land, Resume, TaskFits, StartOps, FailOps;
    AttemptUnfolds(w, d, clock, left);
    var log := Attempt(w, d, clock, left).log;
    if log == [] {
      assert log[..m] == [];
      LandNothing(d);
      return;
    }
    var start := StartOps(d.control.job);
    if m <= |start| {
      StartControl(d, m);
      assert log[..m] == start[..m];
      if m > 0 { RunningFits(Land(d, log[..m]).control); }
    } else {
      StartControl(d, |start|);
      assert start[..|start|] == start;
      var d1 := Land(d, start);
      var tail := AttemptTail(w, d.data, clock, left);
      assert log[..m] == start + tail[..m - |start|];
      LandSplit(d, start, tail[..m - |start|]);
      if tail == SUCCESS_OPS {
        TailTaskFits(d1, tail, Failure(None, ""), m - |start|);
      } else {
        LoopTaskFits(w, Resume(d.data), clock, left, d1, m - |start|);
      }
    }
  }

  /** On every reachable disk a job's row matches its ended or paused state, and
      no job has failed without its failure being on record first. */
  lemma {:induction false} EveryTaskFits(w: World, d: Disk, tries: seq<Try>)
    requires Created(d)
    ensures TaskFits(After(w, d, tries).control)
    decreases |tries|
  {
    hide Attempt, Land;
    if tries != [] {
      var n := |tries| - 1;
      var before := After(w, d, tries[..n]);
      EveryTaskFits(w, d, tries[..n]);
      AttemptTaskFits(w, before, tries[n].clock, tries[n].left,
                      Min(tries[n].kept, |Attempt(w, before, tries[n].clock, tries[n].left).log|));
    }
  }
}
