/** Retention cleanup of normalized records and of raw capture files. */
module Retention {
  import opened Basics
  import opened Storage
  import opened Stores

  datatype Category = Raw | Normalized

  datatype Receipt = Receipt(category: Category, cutoff: int, deletedCount: nat, dryRun: bool)

  // -------------------------------------------------------- normalized rows

  function OlderThan(t: Tables, kind: Kind, cutoff: int): set<Key> {
    set k | k in t.records && k.kind == kind && t.records[k].observedAt < cutoff
  }

  /** No foreign key of a record dangles. */
  predicate KeysHold(records: map<Key, Record>) {
    forall k | k in records :: forall p | p in records[k].parents :: p in records
  }

  /** `t` without its old records and old observations of these kinds. */
  function Without(t: Tables, kinds: set<Kind>, cutoff: int): Tables {
    Tables(
      t.captures,
      map k | k in t.records && !(k.kind in kinds && t.records[k].observedAt < cutoff) :: t.records[k],
      map c | c in t.counters && !(c.entity.kind in kinds && c.at < cutoff) :: t.counters[c])
  }

  /** The two deletes of one kind: its old observations, then its old records.
      The second is refused when a record that stays names a deleted one. */
  function DeleteKind(t: Tables, kind: Kind, cutoff: int): Option<Tables> {
    var t' := Without(t, {kind}, cutoff);
    if KeysHold(t'.records) then Some(t') else None
  }

  /** Children first: Comments, Posts, Groups, in one transaction. */
  function Clean(t: Tables, cutoff: int): Option<Tables> {
    match DeleteKind(t, Comment, cutoff)
    case None => None
    case Some(t1) =>
      match DeleteKind(t1, Post, cutoff)
      case None => None
      case Some(t2) => DeleteKind(t2, Group, cutoff)
  }

  function CountOld(t: Tables, cutoff: int): nat {
    |OlderThan(t, Comment, cutoff)| + |OlderThan(t, Post, cutoff)| + |OlderThan(t, Group, cutoff)|
  }

  /** The rows and observations at or after the cutoff. */
  function Survivors(t: Tables, cutoff: int): Tables {
    Tables(
      t.captures,
      map k | k in t.records && cutoff <= t.records[k].observedAt :: t.records[k],
      map c | c in t.counters && cutoff <= c.at :: t.counters[c])
  }

  /** No record that stays names one that goes. */
  ghost predicate NoSurvivorOrphaned(t: Tables, cutoff: int) {
    forall k, p | k in t.records && p in t.records[k].parents && p in t.records ::
      t.records[p].observedAt < cutoff ==> t.records[k].observedAt < cutoff
  }

  // ------------------------------------------------------------- the result

  lemma WithoutMore(t: Tables, kinds: set<Kind>, kind: Kind, cutoff: int)
    ensures Without(Without(t, kinds, cutoff), {kind}, cutoff) == Without(t, kinds + {kind}, cutoff)
  {
    var a := Without(Without(t, kinds, cutoff), {kind}, cutoff);
    var b := Without(t, kinds + {kind}, cutoff);
    assert a.records == b.records && a.counters == b.counters;
  }

  lemma WithoutAll(t: Tables, cutoff: int)
    ensures Without(t, {Comment, Post, Group}, cutoff) == Survivors(t, cutoff)
  {
    var a := Without(t, {Comment, Post, Group}, cutoff);
    var b := Survivors(t, cutoff);
    forall k: Key ensures k.kind in {Comment, Post, Group} {
      match k.kind case Comment => case Post => case Group =>
    }
    assert a.records == b.records && a.counters == b.counters;
  }

  /** The three phases, each on top of the ones before. */
  lemma CleanPhases(t: Tables, cutoff: int)
    ensures Clean(t, cutoff)
            == if KeysHold(Without(t, {Comment}, cutoff).records)
                  && KeysHold(Without(t, {Comment, Post}, cutoff).records)
                  && KeysHold(Survivors(t, cutoff).records)
               then Some(Survivors(t, cutoff)) else None
  {
    hide Without, Survivors, KeysHold;
    WithoutMore(t, {Comment}, Post, cutoff);
    WithoutMore(t, {Comment, Post}, Group, cutoff);
    WithoutAll(t, cutoff);
    assert {Comment} + {Post} == {Comment, Post} && {Comment, Post} + {Group} == {Comment, Post, Group};
  }

  /** A cleanup that goes through leaves exactly what is at or after the cutoff;
      it goes through exactly when no record that stays names one that goes. */
  lemma {:induction false} CleanSucceedsWhen(t: Tables, cutoff: int)
    requires Sound(t)
    ensures Clean(t, cutoff) == if NoSurvivorOrphaned(t, cutoff) then Some(Survivors(t, cutoff)) else None
  {
    hide Clean, Without, Survivors, KeysHold, Sound, NoSurvivorOrphaned;
    CleanPhases(t, cutoff);
    if NoSurvivorOrphaned(t, cutoff) {
      PhaseHolds(t, {Comment}, cutoff);
      PhaseHolds(t, {Comment, Post}, cutoff);
      PhaseHolds(t, {Comment, Post, Group}, cutoff);
      WithoutAll(t, cutoff);
    } else if KeysHold(Survivors(t, cutoff).records) {
      KeptKeysHold(t, cutoff);
    }
  }

  lemma KeptKeysHold(t: Tables, cutoff: int)
    requires KeysHold(Survivors(t, cutoff).records)
    ensures NoSurvivorOrphaned(t, cutoff)
  {
    var left := Survivors(t, cutoff).records;
    forall k, p | k in t.records && p in t.records[k].parents && p in t.records && cutoff <= t.records[k].observedAt
      ensures cutoff <= t.records[p].observedAt
    {
      assert k in left && p in left[k].parents;
    }
  }

  lemma ParentKinds(r: Record, p: Key)
    requires Shaped(r) && p in r.parents
    ensures (r.key.kind, p.kind) in {(Post, Group), (Comment, Post), (Comment, Group)}
  {
  }

  /** Each phase is allowed: the children have gone before their parents. */
  lemma PhaseHolds(t: Tables, kinds: set<Kind>, cutoff: int)
    requires Sound(t) && NoSurvivorOrphaned(t, cutoff)
    requires kinds in {{Comment}, {Comment, Post}, {Comment, Post, Group}}
    ensures KeysHold(Without(t, kinds, cutoff).records)
  {
    var left := Without(t, kinds, cutoff).records;
    assert forall a, b | (a, b) in {(Post, Group), (Comment, Post), (Comment, Group)} :: b in kinds ==> a in kinds;
    forall k, p | k in left && p in left[k].parents ensures p in left {
      hide NoSurvivorOrphaned, Shaped, Counted;
      ParentKinds(t.records[k], p);
      Unorphaned(t, cutoff, k, p);
    }
  }

  lemma Unorphaned(t: Tables, cutoff: int, k: Key, p: Key)
    requires NoSurvivorOrphaned(t, cutoff) && k in t.records && p in t.records[k].parents && p in t.records
    ensures t.records[p].observedAt < cutoff ==> t.records[k].observedAt < cutoff
  {
  }

  lemma OrderedOrphansNone(t: Tables, cutoff: int)
    requires Ordered(t)
    ensures NoSurvivorOrphaned(t, cutoff)
  {
  }

  /** A child that is newer than its parent is orphaned at the cutoff just after
      the parent. */
  lemma NewerChildOrphaned(t: Tables, k: Key, p: Key)
    requires Sound(t) && k in t.records && p in t.records[k].parents
    requires NoSurvivorOrphaned(t, t.records[p].observedAt + 1)
    ensures t.records[k].observedAt <= t.records[p].observedAt
  {
  }

  /** Cleanup goes through at every cutoff exactly when parents are at least as
      recent as their children. */
  lemma {:induction false} CleanupSafeWhenOrdered(t: Tables)
    requires Sound(t)
    ensures (forall cutoff: int :: Clean(t, cutoff).Some?) <==> Ordered(t)
  {
    hide Clean, Survivors, NoSurvivorOrphaned, Sound;
    if Ordered(t) {
      forall cutoff: int ensures Clean(t, cutoff).Some? {
        CleanSucceedsWhen(t, cutoff);
        OrderedOrphansNone(t, cutoff);
      }
    }
    if forall cutoff: int :: Clean(t, cutoff).Some? {
      forall k, p | k in t.records && p in t.records[k].parents
        ensures p in t.records && t.records[k].observedAt <= t.records[p].observedAt
      {
        SoundParents(t, k);
        var cutoff := t.records[p].observedAt + 1;
        assert Clean(t, cutoff).Some?;
        CleanSucceedsWhen(t, cutoff);
        NewerChildOrphaned(t, k, p);
      }
    }
  }

  lemma SoundParents(t: Tables, k: Key)
    requires Sound(t) && k in t.records
    ensures forall p | p in t.records[k].parents :: p in t.records
  {
  }

  /** Cleanup keeps foreign keys, counters and the time order. */
  lemma {:induction false} CleanKeepsInvariants(t: Tables, cutoff: int)
    requires Sound(t) && Clean(t, cutoff).Some?
    ensures Sound(Clean(t, cutoff).value)
    ensures Ordered(t) ==> Ordered(Clean(t, cutoff).value)
  {
    hide Clean;
    CleanSucceedsWhen(t, cutoff);
    var after := Survivors(t, cutoff);
    forall k | k in after.records ensures Counted(after, after.records[k]) {
      assert Counted(t, t.records[k]);
    }
  }

  lemma DisjointSizes<T>(a: set<T>, b: set<T>)
    requires a !! b
    ensures |a + b| == |a| + |b|
  {
  }

  lemma FourParts<T>(a: set<T>, b: set<T>, c: set<T>, d: set<T>, whole: set<T>)
    requires a !! b !! c !! d && a + b + c + d == whole
    ensures |a| + |b| + |c| + |d| == |whole|
  {
    DisjointSizes(a, b);
    DisjointSizes(a + b, c);
    DisjointSizes(a + b + c, d);
  }

  lemma KeyParts(t: Tables, cutoff: int)
    ensures var stay := Survivors(t, cutoff).records.Keys;
            var comments, posts, groups :=
              OlderThan(t, Comment, cutoff), OlderThan(t, Post, cutoff), OlderThan(t, Group, cutoff);
            stay !! comments !! posts !! groups && stay + comments + posts + groups == t.records.Keys
  {
  }

  lemma CountRemoved(t: Tables, cutoff: int)
    ensures |Survivors(t, cutoff).records| + CountOld(t, cutoff) == |t.records|
  {
    hide Survivors, OlderThan;
    KeyParts(t, cutoff);
    FourParts(Survivors(t, cutoff).records.Keys, OlderThan(t, Comment, cutoff), OlderThan(t, Post, cutoff),
              OlderThan(t, Group, cutoff), t.records.Keys);
  }

  /** The count on the receipt is the number of rows removed. */
  lemma {:induction false} DeletedCountIsRowsRemoved(t: Tables, cutoff: int)
    requires Clean(t, cutoff).Some?
    ensures CountOld(t, cutoff) == |t.records| - |Clean(t, cutoff).value.records|
  {
    hide Clean, KeysHold;
    CleanPhases(t, cutoff);
    CountRemoved(t, cutoff);
  }

  // -------------------------------------------------------------- raw files

  /** The captures the raw cleanup matches, with their raw files: collected before
      the cutoff, and with a raw file on record. */
  function Expired(captures: map<CaptureId, Meta>, cutoff: int): map<CaptureId, CaptureId> {
    map id | id in captures && captures[id].collectedAt < cutoff && captures[id].path.Some? :: captures[id].path.value
  }

  /** The raw count is the number of captures matched; it is the number of files
      removed exactly when all of those were still there and no two captures
      share one. */
  lemma {:induction false} RawCountExact(captures: map<CaptureId, Meta>, files: map<CaptureId, Bytes>, cutoff: int)
    ensures var expired := Expired(captures, cutoff);
            |expired| == |files| - |files - expired.Values|
            <==> && (forall id | id in expired :: expired[id] in files)
                 && (forall a, b | a in expired && b in expired && a != b :: expired[a] != expired[b])
  {
    hide Expired, Image, Distinct;
    var expired := Expired(captures, cutoff);
    ImageSize(expired, expired.Keys);
    WholeImage(expired, files.Keys);
    RemovedCount(files.Keys, expired.Values);
    assert (files - expired.Values).Keys == files.Keys - expired.Values;
  }

  /** Two raw cleanups in a row: the second counts the capture again and removes
      nothing. */
  lemma {:induction false} RawCountTwice(id: CaptureId, meta: Meta, raw: Bytes, cutoff: int)
    requires meta.collectedAt < cutoff && meta.path == Some(id)
    ensures var expired := Expired(map[id := meta], cutoff);
            var files := map[id := raw];
            && |expired| == 1 && |files| - |files - expired.Values| == 1
            && var left := files - expired.Values;
               |left| - |left - expired.Values| == 0
  {
    var expired := Expired(map[id := meta], cutoff);
    var files := map[id := raw];
    assert expired == map[id := id] && id in files;
    assert expired[id] in expired.Values;
    assert (files - expired.Values).Keys == {};
    assert files - expired.Values == map[];
  }

  lemma ExpiredNames(captures: map<CaptureId, Meta>, cutoff: int, f: CaptureId)
    ensures f in Expired(captures, cutoff).Values
            <==> exists id | id in captures :: captures[id].path == Some(f) && captures[id].collectedAt < cutoff
  {
    var m := Expired(captures, cutoff);
    if exists id | id in captures :: captures[id].path == Some(f) && captures[id].collectedAt < cutoff {
      var id :| id in captures && captures[id].path == Some(f) && captures[id].collectedAt < cutoff;
      assert m[id] == f;
    }
    if f in m.Values {
      var id :| id in m && m[id] == f;
    }
  }

  lemma WholeImage<S, T>(m: map<S, T>, all: set<T>)
    ensures Image(m, m.Keys) == m.Values && |m| == |m.Keys|
    ensures m.Values <= all <==> forall x | x in m :: m[x] in all
    ensures Distinct(m, m.Keys) <==> forall a, b | a in m && b in m && a != b :: m[a] != m[b]
  {
    if forall x | x in m :: m[x] in all {
      forall y | y in m.Values ensures y in all {
        var x :| x in m && m[x] == y;
      }
    }
    if m.Values <= all {
      forall x | x in m ensures m[x] in all {
        assert m[x] in m.Values;
      }
    }
  }

  function Image<S, T>(f: map<S, T>, s: set<S>): set<T>
    requires s <= f.Keys
  {
    set x | x in s :: f[x]
  }

  ghost predicate Distinct<S, T>(f: map<S, T>, s: set<S>)
    requires s <= f.Keys
  {
    forall a, b | a in s && b in s && a != b :: f[a] != f[b]
  }

  /** An image is as large as its source exactly when nothing is merged. */
  lemma {:induction false} ImageSize<S, T>(f: map<S, T>, s: set<S>)
    requires s <= f.Keys
    ensures |Image(f, s)| <= |s|
    ensures |Image(f, s)| == |s| <==> Distinct(f, s)
    decreases |s|
  {
    if s != {} {
      var x :| x in s;
      var rest := s - {x};
      ImageSize(f, rest);
      assert s == rest + {x};
      assert Image(f, s) == Image(f, rest) + {f[x]};
      if f[x] in Image(f, rest) {
        var y :| y in rest && f[y] == f[x];
        assert Image(f, s) == Image(f, rest);
        assert !Distinct(f, s);
      } else {
        forall y | y in rest ensures f[y] != f[x] {
          assert f[y] in Image(f, rest);
        }
      }
    }
  }

  lemma RemovedCount<T>(all: set<T>, gone: set<T>)
    ensures |gone| == |all| - |all - gone| <==> gone <= all
    ensures |all| - |all - gone| <= |gone|
  {
    DisjointSizes(all - gone, all * gone);
    DisjointSizes(all * gone, gone - all);
    assert (all - gone) + all * gone == all && all * gone + (gone - all) == gone;
    if gone - all == {} {
      assert gone <= all;
    }
  }

  // ----------------------------------------------------------- step by step

  class RetentionService {
    const database: Database
    const raw: RawStore
    var receipts: seq<Receipt>

    constructor (database: Database, raw: RawStore)
      ensures this.database == database && this.raw == raw && receipts == []
    {
      this.database, this.raw, this.receipts := database, raw, [];
    }

    /** One transaction over the three kinds; a broken foreign key rolls it back
        and no receipt is written. */
    method CleanNormalized(cutoff: int, dryRun: bool) returns (receipt: Option<Receipt>)
      modifies this`receipts, database`records, database`counters
      ensures var t := old(database.Tables());
              receipt == if dryRun || Clean(t, cutoff).Some?
                         then Some(Receipt(Normalized, cutoff, CountOld(t, cutoff), dryRun)) else None
      ensures database.Tables()
              == if dryRun || receipt.None? then old(database.Tables()) else Clean(old(database.Tables()), cutoff).value
      ensures receipts == old(receipts) + if receipt.Some? then [receipt.value] else []
    {
      hide CountOld, KeysHold;
      var t := database.Tables();
      var count := CountOld(t, cutoff);
      if !dryRun {
        for i := 0 to 3
          invariant i == 0 ==> Clean(t, cutoff) == Clean(database.Tables(), cutoff) && database.Tables() == t
          invariant i == 1 ==> DeleteKind(t, Comment, cutoff) == Some(database.Tables())
          invariant i == 2 ==>
                      var t1 := DeleteKind(t, Comment, cutoff);
                      t1.Some? && DeleteKind(t1.value, Post, cutoff) == Some(database.Tables())
          invariant i == 3 ==> Clean(t, cutoff) == Some(database.Tables())
          invariant receipts == old(receipts)
        {
          var kind := [Comment, Post, Group][i];
          var left := Without(database.Tables(), {kind}, cutoff);
          if !KeysHold(left.records) {
            database.counters, database.records := t.counters, t.records;
            return None;
          }
          database.counters, database.records := left.counters, left.records;
        }
      }
      receipt := Some(Receipt(Normalized, cutoff, count, dryRun));
      receipts := receipts + [receipt.value];
    }

    method CleanRaw(cutoff: int, dryRun: bool) returns (receipt: Receipt)
      modifies this`receipts, raw
      ensures receipt == Receipt(Raw, cutoff, |Expired(database.captures, cutoff)|, dryRun)
      ensures raw.files == if dryRun then old(raw.files) else old(raw.files) - Expired(database.captures, cutoff).Values
      ensures !dryRun ==>
                forall f :: f in raw.files <==>
                  f in old(raw.files)
                  && !exists id | id in database.captures ::
                       database.captures[id].path == Some(f) && database.captures[id].collectedAt < cutoff
      ensures receipts == old(receipts) + [receipt]
    {
      var expired := Expired(database.captures, cutoff);
      if !dryRun {
        ghost var gone := {};
        var left := expired.Keys;
        while left != {}
          invariant left <= expired.Keys
          invariant gone == Image(expired, expired.Keys - left)
          invariant raw.files == old(raw.files) - gone && receipts == old(receipts)
          decreases |left|
        {
          var id :| id in left;
          var path := expired[id];
          gone := gone + {path};
          if path in raw.files {
            raw.files := raw.files - {path};
          }
          left := left - {id};
        }
        assert expired.Keys - left == expired.Keys && Image(expired, expired.Keys) == expired.Values;
        forall f ensures f in expired.Values
                         <==> exists id | id in database.captures ::
                                database.captures[id].path == Some(f) && database.captures[id].collectedAt < cutoff
        {
          ExpiredNames(database.captures, cutoff, f);
        }
      }
      receipt := Receipt(Raw, cutoff, |expired|, dryRun);
      receipts := receipts + [receipt];
    }
  }

  // ------------------------------------------------------------ row by row

  /** What a cleanup that goes through leaves, row by row. */
  lemma {:induction false} CleanLeaves(t: Tables, cutoff: int, k: Key, c: CounterKey)
    requires Sound(t) && Clean(t, cutoff).Some?
    ensures var e := Clean(t, cutoff).value;
            && e.captures == t.captures
            && (k in e.records <==> k in t.records && cutoff <= t.records[k].observedAt)
            && (k in e.records ==> e.records[k] == t.records[k])
            && (c in e.counters <==> c in t.counters && cutoff <= c.at)
            && (c in e.counters ==> e.counters[c] == t.counters[c])
  {
    hide Clean;
    CleanSucceedsWhen(t, cutoff);
  }

  /** The count, on a dry run too, is the number of rows before the cutoff. */
  lemma {:induction false} CountIsOldRows(t: Tables, cutoff: int)
    ensures CountOld(t, cutoff) == |set k | k in t.records && t.records[k].observedAt < cutoff|
  {
    var comments, posts, groups :=
      OlderThan(t, Comment, cutoff), OlderThan(t, Post, cutoff), OlderThan(t, Group, cutoff);
    var old_ := set k | k in t.records && t.records[k].observedAt < cutoff;
    forall k | k in old_ ensures k in comments + posts + groups {
      match k.kind case Comment => case Post => case Group =>
    }
    assert comments + posts + groups == old_;
    DisjointSizes(comments, posts);
    DisjointSizes(comments + posts, groups);
  }
}
