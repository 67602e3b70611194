/** What replay takes of each stored page, and when it refuses. */
module ReplayedPages {
  import opened Basics
  import opened Storage
  import opened Durable
  import opened Capture
  import opened Recovery
  import opened Replay
  import opened CapturedPages

  /** The draft, stamped, is the value of its key. */
  ghost predicate Rebuilds(m: map<Key, Record>, d: Draft, at: int, id: CaptureId) {
    && d.key in m
    && var r := m[d.key];
       r.key == d.key && r.parents == d.parents && r.body == d.body && r.metrics == d.metrics && r.observedAt == at
       && r.capture == id
  }

  ghost predicate Same(m: map<Key, Record>, m': map<Key, Record>, k: Key) {
    (k in m' <==> k in m) && (k in m ==> m'[k] == m[k])
  }

  /** Why a stored page cannot be replayed, if so. */
  function Fault(w: World, d: Data, id: CaptureId): Option<ReplayError>
    requires id in d.tables.captures
  {
    var meta := d.tables.captures[id];
    if meta.path != Some(id) then Some(BadPath)
    else if id !in d.files || Sha256(d.files[id]) != meta.digest then Some(BadDigest)
    else if meta.size != None && meta.size != Some(|d.files[id]|) then Some(BadSize)
    else if w.parse(d.files[id]) == Drift then Some(Unsupported)
    else if w.parse(d.files[id]).group.key != Key(Group, w.groupId) then Some(WrongGroup)
    else None
  }

  lemma {:induction false} OverlayIs(m: map<Key, Record>, rs: seq<Record>, i: nat)
    requires i < |rs| && forall a, b | 0 <= a < b < |rs| :: rs[a].key != rs[b].key
    ensures rs[i].key in Overlay(m, rs) && Overlay(m, rs)[rs[i].key] == rs[i]
    decreases |rs|
  {
    if i < |rs| - 1 { OverlayIs(m, rs[..|rs| - 1], i); }
  }

  lemma {:induction false} OverlayNot(m: map<Key, Record>, rs: seq<Record>, k: Key)
    requires forall r | r in rs :: r.key != k
    ensures Same(m, Overlay(m, rs), k)
    decreases |rs|
  {
    if rs != [] {
      assert rs[|rs| - 1] in rs;
      OverlayNot(m, rs[..|rs| - 1], k);
    }
  }

  lemma OverlayDrafts(m: map<Key, Record>, ds: seq<Draft>, id: CaptureId, at: int, k: Key)
    requires DistinctKeys(ds)
    ensures var m' := Overlay(m, StampAll(ds, id, at));
            && (forall d | d in ds :: Rebuilds(m', d, at, id))
            && ((forall d | d in ds :: d.key != k) ==> Same(m, m', k))
  {
    hide Overlay, Rebuilds, Same;
    var rs := StampAll(ds, id, at);
    var m' := Overlay(m, rs);
    forall d | d in ds ensures Rebuilds(m', d, at, id) {
      var i :| 0 <= i < |ds| && ds[i] == d;
      OverlayIs(m, rs, i);
      StampRebuilds(m', d, at, id);
    }
    if forall d | d in ds :: d.key != k {
      forall r | r in rs ensures r.key != k {
        var i :| 0 <= i < |rs| && rs[i] == r;
        assert ds[i] in ds;
      }
      OverlayNot(m, rs, k);
    }
  }

  lemma StampRebuilds(m: map<Key, Record>, d: Draft, at: int, id: CaptureId)
    requires d.key in m && m[d.key] == Stamp(d, id, at)
    ensures Rebuilds(m, d, at, id)
  {
  }

  /** One more stored page: refused for its fault, or taken with its recent Posts and
      the Comments on any Post kept so far, over what was rebuilt before; the Group
      stays the first page's. */
  lemma {:induction false} ReplayedPage(w: World, d: Data, rows: seq<Row>, row: Row, k: Key)
    requires WellParsed(w) && ReplayRows(w, d, rows).Ok? && row.capture in d.tables.captures
    ensures var before := ReplayRows(w, d, rows).value;
            var after := ReplayRows(w, d, rows + [row]);
            var id := row.capture;
            if Fault(w, d, id).Some? then after == Err(Fault(w, d, id).value)
            else
              var p := w.parse(d.files[id]);
              var at := d.tables.captures[id].collectedAt;
              && after.Ok?
              && (before.group.Some? ==> after.value.group == before.group)
              && (before.group.None? ==>
                    after.value.group.Some? && Rebuilds(map[p.group.key := after.value.group.value], p.group, at, id))
              && (forall x | Recent(w, p, x) :: Rebuilds(after.value.posts, x, at, id))
              && ((forall x | Recent(w, p, x) :: x.key != k) ==> Same(before.posts, after.value.posts, k))
              && (forall x | x in p.comments && x.parents != [] && x.parents[0] in after.value.posts ::
                    Rebuilds(after.value.comments, x, at, id))
              && ((forall x | x in p.comments && x.parents != [] && x.parents[0] in after.value.posts :: x.key != k) ==>
                    Same(before.comments, after.value.comments, k))
  {
    hide Overlay, StampAll, Rebuilds, Same;
    assert (rows + [row])[..|rows|] == rows;
    var before := ReplayRows(w, d, rows).value;
    var id := row.capture;
    if Fault(w, d, id).None? {
      var p := w.parse(d.files[id]);
      var at := d.tables.captures[id].collectedAt;
      var posts := SelectedPosts(p.posts, w.lowerBound);
      SelectedDistinct(p.posts, w.lowerBound);
      OverlayDrafts(before.posts, posts, id, at, k);
      var kept := Overlay(before.posts, StampAll(posts, id, at));
      KeptDistinct(p.comments, kept.Keys);
      OverlayDrafts(before.comments, KeptComments(p.comments, kept.Keys), id, at, k);
      StampRebuilds(map[p.group.key := Stamp(p.group, id, at)], p.group, at, id);
    }
  }

  /** Replay goes through exactly when there is a stored page and none has a fault. */
  lemma {:induction false} ReplayGoesThrough(w: World, d: Data)
    ensures ReplayAll(w, d).Ok?
            <==> && (exists r | r in d.rows :: r.capture in d.tables.captures)
                 && forall r | r in d.rows && r.capture in d.tables.captures :: Fault(w, d, r.capture).None?
  {
    RowsGoThrough(w, d, d.rows);
  }

  lemma {:induction false} RowsGoThrough(w: World, d: Data, rows: seq<Row>)
    ensures ReplayRows(w, d, rows).Ok?
            <==> forall r | r in rows && r.capture in d.tables.captures :: Fault(w, d, r.capture).None?
    ensures ReplayRows(w, d, rows).Ok? ==>
              (ReplayRows(w, d, rows).value.group.Some? <==> exists r | r in rows :: r.capture in d.tables.captures)
    decreases |rows|
  {
    hide Overlay, StampAll, SelectedPosts, KeptComments;
    if rows != [] {
      var front, last := rows[..|rows| - 1], rows[|rows| - 1];
      assert rows == front + [last];
      RowsGoThrough(w, d, front);
    }
  }
}
