/** Offline replay of the checkpointed captures: a second implementation that
    rebuilds the records from the stored bytes and must agree with the tables the
    page loop filled save by save. */
module Replay {
  import opened Basics
  import opened Storage
  import opened Durable
  import opened Capture
  import opened Recovery
  import opened CrashSafety
  import opened Convergence
  import opened ReachableStates
  import opened ClockIndependence
  import opened Stores

  datatype ReplayError = NoPages | BadPath | BadDigest | BadSize | Unsupported | WrongGroup

  /** The records rebuilt so far. */
  datatype Rebuilt = Rebuilt(group: Option<Record>, posts: map<Key, Record>, comments: map<Key, Record>)

  function Overlay(m: map<Key, Record>, rs: seq<Record>): map<Key, Record>
    decreases |rs|
  {
    if rs == [] then m else Overlay(m, rs[..|rs| - 1])[rs[|rs| - 1].key := rs[|rs| - 1]]
  }

  /** The bytes of a stored capture, if they are what its metadata says. */
  function ReadCapture(d: Data, id: CaptureId): Result<Bytes, ReplayError>
    requires id in d.tables.captures
  {
    var meta := d.tables.captures[id];
    if meta.path != Some(id) then Err(BadPath)
    else if id !in d.files || Sha256(d.files[id]) != meta.digest then Err(BadDigest)
    else if meta.size.Some? && |d.files[id]| != meta.size.value then Err(BadSize)
    else Ok(d.files[id])
  }

  /** Adds one parsed page to the records rebuilt so far. Comments are kept when
      their Post has been kept on this page or before. */
  function AddPage(w: World, acc: Rebuilt, p: Parse, id: CaptureId, at: int): Rebuilt
    requires p.Parsed?
  {
    var posts := Overlay(acc.posts, StampAll(SelectedPosts(p.posts, w.lowerBound), id, at));
    Rebuilt(
      if acc.group.None? then Some(Stamp(p.group, id, at)) else acc.group,
      posts,
      Overlay(acc.comments, StampAll(KeptComments(p.comments, posts.Keys), id, at)))
  }

  /** One checkpoint row, joined with its capture metadata. */
  function ReplayRow(w: World, d: Data, acc: Rebuilt, id: CaptureId): Result<Rebuilt, ReplayError> {
    if id !in d.tables.captures then Ok(acc)
    else
      match ReadCapture(d, id)
      case Err(e) => Err(e)
      case Ok(raw) =>
        var p := w.parse(raw);
        if p.Drift? then Err(Unsupported)
        else if p.group.key != Key(Group, w.groupId) then Err(WrongGroup)
        else Ok(AddPage(w, acc, p, id, d.tables.captures[id].collectedAt))
  }

  function ReplayRows(w: World, d: Data, rows: seq<Row>): Result<Rebuilt, ReplayError>
    decreases |rows|
  {
    if rows == [] then Ok(Rebuilt(None, map[], map[]))
    else
      match ReplayRows(w, d, rows[..|rows| - 1])
      case Err(e) => Err(e)
      case Ok(acc) => ReplayRow(w, d, acc, rows[|rows| - 1].capture)
  }

  function ReplayAll(w: World, d: Data): Result<Rebuilt, ReplayError> {
    match ReplayRows(w, d, d.rows)
    case Err(e) => Err(e)
    case Ok(r) => if r.group.None? then Err(NoPages) else Ok(r)
  }

  // ------------------------------------------------------- step by step

  /** The replay workflow; it reads the stores and changes neither. */
  class StoredHtmlReplay {
    const world: World
    const raw: RawStore
    const database: Database

    constructor (world: World, raw: RawStore, database: Database)
      ensures this.world == world && this.raw == raw && this.database == database
    {
      this.world, this.raw, this.database := world, raw, database;
    }

    function Data(): Data
      reads raw, database
    {
      Durable.Data(raw.files, database.Tables(), database.rows)
    }

    method Collect(m: map<Key, Record>, drafts: seq<Draft>, id: CaptureId, at: int)
      returns (r: map<Key, Record>)
      ensures r == Overlay(m, StampAll(drafts, id, at))
    {
      r := m;
      ghost var stamped := StampAll(drafts, id, at);
      for i := 0 to |drafts|
        invariant r == Overlay(m, stamped[..i])
      {
        assert stamped[..i + 1][..i] == stamped[..i];
        r := r[drafts[i].key := Stamp(drafts[i], id, at)];
      }
      assert stamped[..|drafts|] == stamped;
    }

    method ReplayJob() returns (r: Result<Rebuilt, ReplayError>)
      ensures r == ReplayAll(world, Data())
    {
      hide Overlay, StampAll, SelectedPosts, KeptComments;
      var group: Option<Record> := None;
      var posts, comments := map[], map[];
      var rows := database.rows;
      for i := 0 to |rows|
        invariant ReplayRows(world, Data(), rows[..i]) == Ok(Rebuilt(group, posts, comments))
      {
        assert rows[..i + 1][..i] == rows[..i];
        Stops(world, Data(), rows, i + 1);
        var id := rows[i].capture;
        if id in database.captures {
          var meta := database.captures[id];
          if meta.path != Some(id) { return Err(BadPath); }
          var bytes := raw.Read(id, meta.digest);
          if bytes.Err? { return Err(BadDigest); }
          if meta.size.Some? && |bytes.value| != meta.size.value { return Err(BadSize); }
          var parsed := world.parse(bytes.value);
          if parsed.Drift? { return Err(Unsupported); }
          if parsed.group.key != Key(Group, world.groupId) { return Err(WrongGroup); }
          if group.None? { group := Some(Stamp(parsed.group, id, meta.collectedAt)); }
          posts := Collect(posts, SelectedPosts(parsed.posts, world.lowerBound), id, meta.collectedAt);
          comments := Collect(comments, KeptComments(parsed.comments, posts.Keys), id, meta.collectedAt);
        }
      }
      assert rows[..|rows|] == rows;
      if group.None? { return Err(NoPages); }
      return Ok(Rebuilt(group, posts, comments));
    }
  }

  /** The first bad page decides. */
  lemma {:induction false} Stops(w: World, d: Data, rows: seq<Row>, i: nat)
    requires i <= |rows|
    ensures ReplayRows(w, d, rows[..i]).Err? ==> ReplayRows(w, d, rows) == ReplayRows(w, d, rows[..i])
    decreases |rows|
  {
    hide ReplayRow;
    if i < |rows| {
      var front := rows[..|rows| - 1];
      assert front[..i] == rows[..i];
      Stops(w, d, front, i);
    } else {
      assert rows[..i] == rows;
    }
  }

  // --------------------------------------------- agreement with the tables

  /** What the extraction adapter of the APP guarantees: it skips Posts outside
      the collection boundary, and reads Comments inside their Post. */
  ghost predicate Bounded(w: World) {
    forall raw | w.parse(raw).Parsed? ::
      && (forall d | d in w.parse(raw).posts :: InBoundary(d, w.lowerBound))
      && (forall d | d in w.parse(raw).comments :: d.parents != [] && d.parents[0] in Keys(w.parse(raw).posts))
  }

  /** The current records of one kind that belong to a Group. */
  function Of(records: map<Key, Record>, kind: Kind, group: Key): map<Key, Record> {
    map k | k in records && k.kind == kind && group in records[k].parents :: records[k]
  }

  lemma {:induction false} SavesOverlay(d: Data, rs: seq<Record>)
    requires Exec(d, Saves(rs)).refusal.None?
    ensures Exec(d, Saves(rs)).data.tables.records == Overlay(d.tables.records, rs)
    decreases |rs|
  {
    hide ApplyData, Exec;
    if rs == [] {
      ExecNothing(d);
    } else {
      var n := |rs| - 1;
      var ops := Saves(rs);
      assert ops[..n] == Saves(rs[..n]) && ops[..n + 1] == ops;
      ExecPrefix(d, ops, n);
      ExecStep(d, ops, n);
      SavesOverlay(d, rs[..n]);
      RecordsStep(Exec(d, ops[..n]).data, ops[n]);
    }
  }

  lemma {:induction false} OverlayMany(m: map<Key, Record>, a: seq<Record>, b: seq<Record>)
    ensures Overlay(m, a + b) == Overlay(Overlay(m, a), b)
    decreases |b|
  {
    if b == [] {
      assert a + b == a;
    } else {
      assert (a + b)[..|a + b| - 1] == a + b[..|b| - 1];
      OverlayMany(m, a, b[..|b| - 1]);
    }
  }

  lemma OfUpdate(m: map<Key, Record>, r: Record, kind: Kind, group: Key)
    requires group in r.parents
    ensures Of(m[r.key := r], kind, group)
            == if r.key.kind == kind then Of(m, kind, group)[r.key := r] else Of(m, kind, group)
  {
  }

  /** Saving records of one kind and Group shows up in that kind, and nowhere else. */
  lemma {:induction false} OverlayOf(m: map<Key, Record>, rs: seq<Record>, saved: Kind, kind: Kind, group: Key)
    requires forall r | r in rs :: r.key.kind == saved && group in r.parents
    ensures Of(Overlay(m, rs), kind, group)
            == if kind == saved then Overlay(Of(m, kind, group), rs) else Of(m, kind, group)
    decreases |rs|
  {
    if rs != [] {
      var last := rs[|rs| - 1];
      assert last in rs;
      OverlayOf(m, rs[..|rs| - 1], saved, kind, group);
      OfUpdate(Overlay(m, rs[..|rs| - 1]), last, kind, group);
    }
  }

  lemma GroupOf(m: map<Key, Record>, r: Record, kind: Kind, group: Key)
    requires r.key.kind == Group && kind != Group
    ensures Of(Overlay(m, [r]), kind, group) == Of(m, kind, group)
  {
    assert Overlay(m, [r][..0]) == m;
    assert Overlay(m, [r]) == m[r.key := r];
  }

  lemma {:induction false} SelectAll(posts: seq<Draft>, lowerBound: int)
    requires forall d | d in posts :: InBoundary(d, lowerBound)
    ensures SelectedPosts(posts, lowerBound) == posts
  {
    if posts != [] { SelectAll(posts[1..], lowerBound); }
  }

  lemma {:induction false} KeepAll(comments: seq<Draft>, posts: set<Key>)
    requires forall d | d in comments :: d.parents != [] && d.parents[0] in posts
    ensures KeptComments(comments, posts) == comments
  {
    if comments != [] { KeepAll(comments[1..], posts); }
  }

  lemma {:induction false} OverlayKeys(m: map<Key, Record>, ds: seq<Draft>, id: CaptureId, at: int)
    ensures Overlay(m, StampAll(ds, id, at)).Keys == m.Keys + Keys(ds)
    decreases |ds|
  {
    if ds != [] {
      var n := |ds| - 1;
      assert StampAll(ds, id, at)[..n] == StampAll(ds[..n], id, at);
      OverlayKeys(m, ds[..n], id, at);
      assert ds == ds[..n] + [ds[n]];
    }
  }

  /** On such pages both filters keep everything. */
  lemma AllKept(w: World, p: Parse, acc: Rebuilt, raw: Bytes, id: CaptureId, at: int)
    requires Bounded(w) && p == w.parse(raw) && p.Parsed?
    ensures Kept(w, p) == [p.group] + p.posts + p.comments
    ensures AddPage(w, acc, p, id, at)
            == Rebuilt(if acc.group.None? then Some(Stamp(p.group, id, at)) else acc.group,
                       Overlay(acc.posts, StampAll(p.posts, id, at)),
                       Overlay(acc.comments, StampAll(p.comments, id, at)))
  {
    hide Overlay, StampAll, SelectedPosts, KeptComments;
    SelectAll(p.posts, w.lowerBound);
    KeepAll(p.comments, Keys(p.posts));
    OverlayKeys(acc.posts, p.posts, id, at);
    KeepAll(p.comments, acc.posts.Keys + Keys(p.posts));
  }

  /** Stamped drafts of one kind that name the page's Group. */
  lemma StampedKind(ds: seq<Draft>, id: CaptureId, at: int, kind: Kind, group: Key)
    requires forall d | d in ds :: d.key.kind == kind && group in d.parents
    ensures forall r | r in StampAll(ds, id, at) :: r.key.kind == kind && group in r.parents
  {
    forall r | r in StampAll(ds, id, at) ensures r.key.kind == kind && group in r.parents {
      var i :| 0 <= i < |ds| && r == StampAll(ds, id, at)[i];
      assert ds[i] in ds;
    }
  }

  /** What one page's saves do to the Group's Posts and Comments. */
  lemma KeptOf(w: World, raw: Bytes, m: map<Key, Record>, id: CaptureId, at: int)
    requires WellParsed(w) && Nested(w) && Bounded(w) && Accepted(w, w.parse(raw))
    ensures var p := w.parse(raw);
            var m' := Overlay(m, StampAll(Kept(w, p), id, at));
            && Of(m', Post, p.group.key) == Overlay(Of(m, Post, p.group.key), StampAll(p.posts, id, at))
            && Of(m', Comment, p.group.key) == Overlay(Of(m, Comment, p.group.key), StampAll(p.comments, id, at))
  {
    hide Overlay, Kept, Of;
    var p := w.parse(raw);
    var g := p.group.key;
    AllKept(w, p, Rebuilt(None, map[], map[]), raw, id, at);
    var group := [Stamp(p.group, id, at)];
    var posts := StampAll(p.posts, id, at);
    var comments := StampAll(p.comments, id, at);
    assert StampAll(Kept(w, p), id, at) == group + posts + comments;
    OverlayMany(m, group + posts, comments);
    OverlayMany(m, group, posts);
    var m1 := Overlay(m, group);
    var m2 := Overlay(m1, posts);
    forall kind | kind in {Post, Comment} ensures Of(m1, kind, g) == Of(m, kind, g) {
      GroupOf(m, group[0], kind, g);
    }
    StampedKind(p.posts, id, at, Post, g);
    StampedKind(p.comments, id, at, Comment, g);
    OverlayOf(m1, posts, Post, Post, g);
    OverlayOf(m1, posts, Post, Comment, g);
    OverlayOf(m2, comments, Comment, Post, g);
    OverlayOf(m2, comments, Comment, Comment, g);
  }

  // ------------------------------------------------------------- evidence

  ghost predicate Readable(d: Data, rows: seq<Row>) {
    forall r | r in rows :: r.capture in d.tables.captures && r.capture in d.files
  }

  /** Nothing stored for a capture is ever changed. */
  ghost predicate Grows(d: Data, e: Data) {
    && (forall id | id in d.files :: id in e.files && e.files[id] == d.files[id])
    && (forall id | id in d.tables.captures ::
          id in e.tables.captures && e.tables.captures[id] == d.tables.captures[id])
  }

  lemma {:induction false} ExecGrows(d: Data, ops: seq<DataOp>)
    ensures Grows(d, Exec(d, ops).data)
    decreases |ops|
  {
    hide ApplyData;
    if ops != [] && ApplyData(d, ops[0]).Ok? {
      FileStays(d, ops[0]);
      ExecGrows(ApplyData(d, ops[0]).value, ops[1..]);
    }
  }

  lemma {:induction false} ReplayStays(w: World, d: Data, e: Data, rows: seq<Row>)
    requires Grows(d, e) && Readable(d, rows)
    ensures ReplayRows(w, e, rows) == ReplayRows(w, d, rows)
    decreases |rows|
  {
    hide AddPage;
    if rows != [] {
      assert rows[|rows| - 1] in rows;
      ReplayStays(w, d, e, rows[..|rows| - 1]);
    }
  }

  /** A finished page's capture can be read back, with the page's own time. */
  lemma {:induction false} PageEvidence(w: World, b: Position, page: Fetch, at: int)
    requires WellParsed(w) && page.Rendered? && at == TimeFor(b.data, PageCapture(w, b, page), at)
    requires Exec(b.data, OpsAt(w, b, page, at)).refusal.None?
    ensures var e := Exec(b.data, OpsAt(w, b, page, at)).data;
            var id := PageCapture(w, b, page);
            && id in e.files && id in e.tables.captures && e.tables.captures[id].collectedAt == at
            && ReadCapture(e, id) == Ok(page.raw)
  {
    hide Exec, OpsAt, WellParsed, PageCapture;
    var ops := OpsAt(w, b, page, at);
    var n := |ops|;
    assert ops[..n] == ops;
    RawThenMeta(w, b, page, at);
    PageFile(w, b, page, at, n);
    PageApart(w, b, page, at);
    StoredTime(w, b, page, at, at + 1, n);
    DoneIsAbsorbed(b.data, ops, n);
    AbsorbedMeta(Exec(b.data, ops).data, ops[1]);
  }

  lemma RawThenMeta(w: World, b: Position, page: Fetch, at: int)
    requires page.Rendered?
    ensures |OpsAt(w, b, page, at)| >= 2
    ensures OpsAt(w, b, page, at)[1]
            == AddCapture(PageCapture(w, b, page), PageMeta(w, PageCapture(w, b, page), page.raw, at))
  {
    hide PersistOps, CheckpointOps, PageCapture, Judge;
  }

  lemma AbsorbedMeta(d: Data, op: DataOp)
    requires Absorbed(d, op) && op.AddCapture?
    ensures op.id in d.tables.captures
    ensures var stored := d.tables.captures[op.id];
            stored.digest == op.meta.digest
            && (op.meta.path.Some? ==> stored.path == op.meta.path && stored.size == op.meta.size)
  {
    assert op.id in d.tables.captures[op.id := op.meta];
  }

  /** A finished page's records are its kept drafts laid over the earlier ones. */
  lemma {:induction false} PageRecords(w: World, b: Position, page: Fetch, at: int)
    requires page.Rendered? && Accepted(w, w.parse(page.raw))
    requires Exec(b.data, OpsAt(w, b, page, at)).refusal.None?
    ensures Exec(b.data, OpsAt(w, b, page, at)).data.tables.records
            == Overlay(b.data.tables.records,
                       StampAll(Kept(w, w.parse(page.raw)), PageCapture(w, b, page), at))
  {
    hide ApplyData, Exec, Kept, PageCapture, Overlay, RawOps, StampAll, CheckpointOps;
    var id := PageCapture(w, b, page);
    var stamped := StampAll(Kept(w, w.parse(page.raw)), id, at);
    var head := RawOps(w, id, page.raw, at) + [AddCapture(id, PageMeta(w, id, page.raw, at))];
    var row := CheckpointOps(Judge(w, b, page), b.done + 1, id);
    Ordering(w, id, page.raw, at, row, stamped, head);
    ExecSplit(b.data, head + Saves(stamped), row);
    ExecSplit(b.data, head, Saves(stamped));
    var d1 := Exec(b.data, head).data;
    var d2 := Exec(d1, Saves(stamped)).data;
    forall op | op in head ensures !op.SaveRecord? { HeadKinds(w, id, page.raw, at, op); }
    forall op | op in row ensures !op.SaveRecord? { RowKinds(Judge(w, b, page), b.done + 1, id, op); }
    NoSaves(b.data, head);
    SavesOverlay(d1, stamped);
    NoSaves(d2, row);
  }

  lemma Ordering(
    w: World, id: CaptureId, raw: Bytes, at: int, row: seq<DataOp>, stamped: seq<Record>, head: seq<DataOp>)
    requires Accepted(w, w.parse(raw)) && stamped == StampAll(Kept(w, w.parse(raw)), id, at)
    requires head == RawOps(w, id, raw, at) + [AddCapture(id, PageMeta(w, id, raw, at))]
    ensures RawOps(w, id, raw, at) + PersistOps(w, id, raw, at) + row == head + Saves(stamped) + row
  {
    hide RawOps, Kept, StampAll, Saves;
  }

  lemma HeadKinds(w: World, id: CaptureId, raw: Bytes, at: int, op: DataOp)
    requires op in RawOps(w, id, raw, at) + [AddCapture(id, PageMeta(w, id, raw, at))]
    ensures !op.SaveRecord?
  {
  }

  lemma RowKinds(verdict: Verdict, number: nat, id: CaptureId, op: DataOp)
    requires op in CheckpointOps(verdict, number, id)
    ensures !op.SaveRecord?
  {
  }

  lemma {:induction false} NoSaves(d: Data, ops: seq<DataOp>)
    requires forall op | op in ops :: !op.SaveRecord?
    ensures Exec(d, ops).data.tables.records == d.tables.records
    decreases |ops|
  {
    hide ApplyData;
    if ops != [] && ApplyData(d, ops[0]).Ok? {
      assert ops[0] in ops;
      RecordsStep(d, ops[0]);
      NoSaves(ApplyData(d, ops[0]).value, ops[1..]);
    }
  }

  // --------------------------------------------------------- the agreement

  /** The captures checkpointed so far rebuild what the tables hold of the Group,
      except that the tables keep the last page's Group record and replay keeps
      the first's. */
  ghost predicate Rebuilds(w: World, d: Data) {
    var g := Key(Group, w.groupId);
    var rows := d.rows;
    var replayed := ReplayRows(w, d, rows);
    && Readable(d, rows)
    && replayed.Ok?
    && replayed.value.posts == Of(d.tables.records, Post, g)
    && replayed.value.comments == Of(d.tables.records, Comment, g)
    && (replayed.value.group.Some? <==> rows != [])
    && (rows != [] ==>
          && g in d.tables.records
          && replayed.value.group.value.capture == rows[0].capture
          && d.tables.records[g].capture == rows[|rows| - 1].capture
          && (|rows| == 1 ==> replayed.value.group.value == d.tables.records[g]))
    && forall j | 0 <= j < |rows| :: rows[j].capture.number == j + 1
  }

  /** The Group record of a page replaces the one before it. */
  lemma GroupAfter(w: World, raw: Bytes, m: map<Key, Record>, id: CaptureId, at: int)
    requires WellParsed(w) && Bounded(w) && Accepted(w, w.parse(raw))
    ensures var g := Key(Group, w.groupId);
            var m' := Overlay(m, StampAll(Kept(w, w.parse(raw)), id, at));
            g in m' && m'[g] == Stamp(w.parse(raw).group, id, at)
  {
    hide Overlay, Kept, WellParsed, Bounded;
    var p := w.parse(raw);
    AllKept(w, p, Rebuilt(None, map[], map[]), raw, id, at);
    var group := [Stamp(p.group, id, at)];
    var rest := StampAll(p.posts + p.comments, id, at);
    assert StampAll(Kept(w, p), id, at) == group + rest;
    OverlayMany(m, group, rest);
    OverlayGroup(m, group[0]);
    RestKinds(w, raw, id, at);
    OverlayElsewhere(Overlay(m, group), rest, p.group.key);
  }

  lemma RestKinds(w: World, raw: Bytes, id: CaptureId, at: int)
    requires WellParsed(w) && w.parse(raw).Parsed?
    ensures var p := w.parse(raw);
            forall r | r in StampAll(p.posts + p.comments, id, at) :: r.key != p.group.key
  {
    var p := w.parse(raw);
    var rest := StampAll(p.posts + p.comments, id, at);
    forall r | r in rest ensures r.key.kind != Group {
      var i :| 0 <= i < |rest| && rest[i] == r;
      assert (p.posts + p.comments)[i] in p.posts || (p.posts + p.comments)[i] in p.comments;
    }
  }

  lemma OverlayGroup(m: map<Key, Record>, r: Record)
    ensures Overlay(m, [r]) == m[r.key := r]
  {
    assert [r][..0] == [];
  }

  lemma {:induction false} OverlayElsewhere(m: map<Key, Record>, rs: seq<Record>, k: Key)
    requires k in m && forall r | r in rs :: r.key != k
    ensures k in Overlay(m, rs) && Overlay(m, rs)[k] == m[k]
    decreases |rs|
  {
    if rs != [] { OverlayElsewhere(m, rs[..|rs| - 1], k); }
  }

  /** One more replayable row, whose page the tables took in. */
  lemma RowRebuilds(w: World, d: Data, e: Data, row: Row, raw: Bytes, at: int)
    requires Bounded(w) && Rebuilds(w, d) && Grows(d, e) && e.rows == d.rows + [row]
    requires row.capture.number == |d.rows| + 1 && row.capture in e.files && row.capture in e.tables.captures
    requires e.tables.captures[row.capture].collectedAt == at && ReadCapture(e, row.capture) == Ok(raw)
    requires Accepted(w, w.parse(raw))
    requires var g := Key(Group, w.groupId);
             var p := w.parse(raw);
             && Of(e.tables.records, Post, g)
                == Overlay(Of(d.tables.records, Post, g), StampAll(p.posts, row.capture, at))
             && Of(e.tables.records, Comment, g)
                == Overlay(Of(d.tables.records, Comment, g), StampAll(p.comments, row.capture, at))
             && g in e.tables.records && e.tables.records[g] == Stamp(p.group, row.capture, at)
    ensures Rebuilds(w, e)
  {
    hide Bounded, Overlay, Of, Kept, AddPage, StampAll, ReadCapture;
    assert e.rows[..|e.rows| - 1] == d.rows;
    ReplayStays(w, d, e, d.rows);
    var acc := ReplayRows(w, d, d.rows).value;
    AllKept(w, w.parse(raw), acc, raw, row.capture, at);
    assert ReplayRows(w, e, e.rows) == Ok(AddPage(w, acc, w.parse(raw), row.capture, at));
  }

  lemma PageRebuilds(w: World, b: Position, page: Fetch, at: int)
    requires WellParsed(w) && Nested(w) && Bounded(w) && Settled(w, b) && Rebuilds(w, b.data)
    requires page.Rendered? && at == TimeFor(b.data, PageCapture(w, b, page), at)
    requires Exec(b.data, OpsAt(w, b, page, at)).refusal.None?
    requires Judge(w, b, page).Finish? || Judge(w, b, page).Continue?
    ensures Rebuilds(w, Exec(b.data, OpsAt(w, b, page, at)).data)
  {
    hide Exec, OpsAt, PageCapture, WellParsed, Nested, Bounded, Overlay, Of, Kept, StampAll, ReadCapture, Standing,
         Rebuilds, Grows, TimeFor;
    var e := Exec(b.data, OpsAt(w, b, page, at)).data;
    var id := PageCapture(w, b, page);
    RowsAfter(w, b, page, at);
    ExecGrows(b.data, OpsAt(w, b, page, at));
    PageEvidence(w, b, page, at);
    PageRecords(w, b, page, at);
    KeptOf(w, page.raw, b.data.tables.records, id, at);
    GroupAfter(w, page.raw, b.data.tables.records, id, at);
    PageNumber(w, b, page);
    RowRebuilds(w, b.data, e, e.rows[|e.rows| - 1], page.raw, at);
  }

  lemma PageNumber(w: World, b: Position, page: Fetch)
    requires Settled(w, b) && page.Rendered?
    ensures PageCapture(w, b, page).number == |b.data.rows| + 1
  {
  }

  lemma {:induction false} IdealRebuilds(w: World, p: Position, c: Clock)
    requires WellParsed(w) && Nested(w) && Bounded(w) && Settled(w, p) && Rebuilds(w, p.data)
    requires Ideal(w, p, c).outcome == Success
    ensures Rebuilds(w, Ideal(w, p, c).data) && Ideal(w, p, c).data.rows != []
    decreases w.maxPages - p.done
  {
    hide Exec, OpsAt, PageCapture, WellParsed, Nested, Bounded, Standing, Rebuilds;
    var page := w.fetch(p.cursor);
    var id := PageCapture(w, p, page);
    var at := TimeFor(p.data, id, c(p.done + 1));
    PageRebuilds(w, p, page, at);
    if StepTo(w, p, c).Some? {
      var q := StepTo(w, p, c).value;
      StepSettled(w, p, c);
      StepDone(w, p, c);
      IdealRebuilds(w, q, c);
    } else {
      RowsAfter(w, p, page, at);
    }
  }

  /** A job whose Group nothing else has recorded. */
  ghost predicate NewGroup(w: World, d: Data) {
    var g := Key(Group, w.groupId);
    Of(d.tables.records, Post, g) == map[] && Of(d.tables.records, Comment, g) == map[]
  }

  lemma RowKindsOfRecords(w: World, d: Data)
    requires Sound(d.tables)
    ensures Identifiers(d.tables, w.groupId)
            == {Key(Group, w.groupId)} + Of(d.tables.records, Post, Key(Group, w.groupId)).Keys
               + Of(d.tables.records, Comment, Key(Group, w.groupId)).Keys
  {
  }

  /** Whatever crashed on the way, replaying the captures of a job that succeeded
      gives exactly the Posts and Comments the tables hold of its Group, and the
      identifiers the job returned. The Group record is the stored one exactly
      when there was one page. */
  lemma {:induction false} ReplayAgrees(w: World, d: Disk, tries: seq<Try>, now: Clock)
    requires WellParsed(w) && Nested(w) && Bounded(w) && w.maxPages > 0
    requires Created(d) && Orderly(d.data.tables) && NewGroup(w, d.data)
    requires Uninterrupted(w, After(w, d, tries), now).control.job == Succeeded
    ensures var e := Uninterrupted(w, After(w, d, tries), now).data;
            var g := Key(Group, w.groupId);
            && ReplayAll(w, e).Ok?
            && var r := ReplayAll(w, e).value;
               && r.posts == Of(e.tables.records, Post, g)
               && r.comments == Of(e.tables.records, Comment, g)
               && {g} + r.posts.Keys + r.comments.Keys == Identifiers(e.tables, w.groupId)
               && g in e.tables.records && (r.group == Some(e.tables.records[g]) <==> |e.rows| == 1)
  {
    hide Attempt, Land, WellParsed, Nested, Bounded, Ideal, After, Standing, ReplayRow, Of, Identifiers;
    var c, _ := Completes(w, d, tries, [], now, 0);
    StartSettled(w, d.data);
    StartRebuilds(w, d.data);
    assert Ideal(w, Start(d.data), c).outcome == Success;
    IdealRebuilds(w, Start(d.data), c);
    var e := Uninterrupted(w, After(w, d, tries), now).data;
    var all := AsTry(w, d, tries, now);
    TriesOrderly(w, d, all);
    RowKindsOfRecords(w, e);
    FirstAndLast(w, e);
  }

  lemma FirstAndLast(w: World, e: Data)
    requires Rebuilds(w, e) && e.rows != []
    ensures ReplayAll(w, e) == ReplayRows(w, e, e.rows)
    ensures var g := Key(Group, w.groupId);
            ReplayAll(w, e).value.group == Some(e.tables.records[g]) <==> |e.rows| == 1
  {
    hide ReplayRows, Of;
    assert e.rows[0].capture.number == 1;
    assert e.rows[|e.rows| - 1].capture.number == |e.rows|;
  }

  lemma StartRebuilds(w: World, d: Data)
    requires d.rows == [] && NewGroup(w, d)
    ensures Rebuilds(w, Start(d).data)
  {
  }

  /** An attempt that does not crash keeps all its writes. */
  lemma AsTry(w: World, d: Disk, tries: seq<Try>, now: Clock) returns (all: seq<Try>)
    ensures After(w, d, all) == Uninterrupted(w, After(w, d, tries), now)
  {
    hide Attempt, Land;
    var log := Attempt(w, After(w, d, tries), now, None).log;
    all := tries + [Try(now, None, |log|)];
    assert all[..|tries|] == tries && log[..|log|] == log;
  }

  // ------------------------------------------------------------- an example

  /** Two pages that show the Group and nothing else. */
  function TwoPages(): World {
    World("job", "g", "u", 0, 2,
          (cursor: Option<string>) => if cursor.None? then Rendered([1], Some("n")) else Rendered([2], None),
          _ => Parsed(Draft(Key(Group, "g"), [], None, [], ""), "u", [], []),
          _ => true)
  }

  const EMPTY_DISK := Disk(Data(map[], Tables(map[], map[], map[]), []), Control(None, Planned, []))

  lemma ExecFirst(d: Data, op: DataOp, rest: seq<DataOp>)
    requires ApplyData(d, op).Ok?
    ensures Exec(d, [op] + rest).data == Exec(ApplyData(d, op).value, rest).data
    ensures Exec(d, [op] + rest).refusal == Exec(ApplyData(d, op).value, rest).refusal
  {
    hide ApplyData;
    assert ([op] + rest)[1..] == rest;
  }

  /** A page that shows only its Group is written whole when it is new and the
      Group's record is older. */
  lemma BarePage(w: World, p: Position, page: Fetch, at: int, group: Draft)
    requires page.Rendered? && Accepted(w, w.parse(page.raw)) && Kept(w, w.parse(page.raw)) == [group]
    requires group.parents == [] && group.metrics == []
    requires PageCapture(w, p, page) !in p.data.files && PageCapture(w, p, page) !in p.data.tables.captures
    requires var records := p.data.tables.records;
             group.key in records ==> records[group.key].parents == [] && records[group.key].observedAt < at
    ensures var e := Exec(p.data, OpsAt(w, p, page, at));
            var id := PageCapture(w, p, page);
            && e.refusal.None?
            && e.data.files == p.data.files[id := page.raw]
            && e.data.tables.captures == p.data.tables.captures[id := PageMeta(w, id, page.raw, at)]
            && e.data.tables.records == p.data.tables.records[group.key := Stamp(group, id, at)]
  {
    hide Kept, Judge, PageCapture, Exec, ApplyData, OpsAt;
    var id := PageCapture(w, p, page);
    var meta := PageMeta(w, id, page.raw, at);
    var save := SaveRecord(Stamp(group, id, at));
    var row := CheckpointOps(Judge(w, p, page), p.done + 1, id);
    BareOps(w, p, page, at, group);
    BareExec(p.data, id, page.raw, meta, Stamp(group, id, at), row);
  }

  /** The writes of such a page. */
  function BareList(id: CaptureId, raw: Bytes, meta: Meta, group: Record, row: seq<DataOp>): seq<DataOp> {
    [WriteFile(id, raw)] + ([AddCapture(id, meta)] + ([AddCapture(id, meta)] + ([SaveRecord(group)] + row)))
  }

  lemma BareOps(w: World, p: Position, page: Fetch, at: int, group: Draft)
    requires page.Rendered? && Accepted(w, w.parse(page.raw)) && Kept(w, w.parse(page.raw)) == [group]
    ensures var id := PageCapture(w, p, page);
            OpsAt(w, p, page, at)
            == BareList(id, page.raw, PageMeta(w, id, page.raw, at), Stamp(group, id, at),
                        CheckpointOps(Judge(w, p, page), p.done + 1, id))
  {
    hide Kept, Judge, PageCapture;
    var id := PageCapture(w, p, page);
    assert StampAll([group], id, at) == [Stamp(group, id, at)];
    assert Saves([Stamp(group, id, at)]) == [SaveRecord(Stamp(group, id, at))];
  }

  lemma BareExec(d: Data, id: CaptureId, raw: Bytes, meta: Meta, group: Record, row: seq<DataOp>)
    requires id !in d.files && id !in d.tables.captures && group.capture == id
    requires group.parents == [] && group.metrics == []
    requires group.key in d.tables.records ==>
               d.tables.records[group.key].parents == []
               && d.tables.records[group.key].observedAt < group.observedAt
    requires row == [] || exists r :: row == [PutRow(r)] && r.capture == id
    ensures var e := Exec(d, BareList(id, raw, meta, group, row));
            && e.refusal.None?
            && e.data.files == d.files[id := raw]
            && e.data.tables.captures == d.tables.captures[id := meta]
            && e.data.tables.records == d.tables.records[group.key := group]
  {
    hide Exec, Upsert;
    var d1 := ApplyData(d, WriteFile(id, raw)).value;
    var d2 := ApplyData(d1, AddCapture(id, meta)).value;
    assert ApplyData(d2, AddCapture(id, meta)) == Ok(d2);
    var d3 := ApplyData(d2, SaveRecord(group)).value;
    ExecFirst(d, WriteFile(id, raw), [AddCapture(id, meta)] + ([AddCapture(id, meta)] + ([SaveRecord(group)] + row)));
    ExecFirst(d1, AddCapture(id, meta), [AddCapture(id, meta)] + ([SaveRecord(group)] + row));
    ExecFirst(d2, AddCapture(id, meta), [SaveRecord(group)] + row);
    ExecFirst(d2, SaveRecord(group), row);
    if row == [] { ExecNothing(d3); } else { ExecOne(d3, row[0]); }
  }

  /** A job over two pages succeeds, and replay gives another Group record than the
      tables hold: the first page's, not the last's. */
  lemma {:induction false} GroupRecordDiffers()
    ensures var w := TwoPages();
            var e := Uninterrupted(w, EMPTY_DISK, n => n);
            var g := Key(Group, w.groupId);
            && e.control.job == Succeeded && |e.data.rows| == 2
            && ReplayAll(w, e.data).Ok? && g in e.data.tables.records
            && ReplayAll(w, e.data).value.group != Some(e.data.tables.records[g])
  {
    hide Attempt, Land, Exec, OpsAt, ReplayRows, After, Resume, Ideal, WellParsed, Nested, Bounded, Orderly, NewGroup,
         Of, Identifiers;
    var w := TwoPages();
    var now: Clock := n => n;
    TwoPagesFit();
    var c, _ := Completes(w, EMPTY_DISK, [], [0], now, 2);
    assert After(w, EMPTY_DISK, []) == EMPTY_DISK by { AfterNothing(w, EMPTY_DISK); }
    RisingIsInOrder(w, EMPTY_DISK, now, None, 0, 2);
    assert Afterwards(w, EMPTY_DISK, [], [0], now, 2);
    assert c(1) < c(2);
    TwoPagesSucceed(c);
    ReplayAgrees(w, EMPTY_DISK, [], now);
  }

  lemma TwoPagesFit()
    ensures var w := TwoPages();
            && WellParsed(w) && Nested(w) && Bounded(w)
            && Orderly(EMPTY_DISK.data.tables) && NewGroup(w, EMPTY_DISK.data)
  {
  }

  lemma TwoPagesSucceed(c: Clock)
    requires c(1) < c(2)
    ensures var ideal := Ideal(TwoPages(), Start(EMPTY_DISK.data), c);
            ideal.outcome == Success && |ideal.data.rows| == 2
  {
    hide Exec, OpsAt, Standing;
    var w := TwoPages();
    var group := Draft(Key(Group, "g"), [], None, [], "");
    var p := Start(EMPTY_DISK.data);
    var page := w.fetch(None);
    assert Kept(w, w.parse(page.raw)) == [group];
    BarePage(w, p, page, c(1), group);
    var q := StepTo(w, p, c).value;
    StartSettled(w, EMPTY_DISK.data);
    RowsAfter(w, p, page, c(1));
    var page2 := w.fetch(q.cursor);
    BarePage(w, q, page2, c(2), group);
    StepSettled(w, p, c);
    RowsAfter(w, q, page2, c(2));
  }
}
