/** The times read from the clock do not decide anything: two uninterrupted runs
    that read rising clocks end alike and store the same, times apart. */
module ClockIndependence {
  import opened Basics
  import opened Storage
  import opened Durable
  import opened Capture
  import opened Recovery
  import opened CrashSafety
  import opened Convergence
  import opened ReachableStates

  function Untimed(r: Record): Record { r.(observedAt := 0) }

  function UntimedMeta(m: Meta): Meta { m.(collectedAt := 0) }

  /** `f` pairs the observations of two histories: same counter, same value, same
      capture, and the same order in time. */
  ghost predicate Pairs(
    f: map<CounterKey, CounterKey>, a: map<CounterKey, Observation>, b: map<CounterKey, Observation>)
  {
    && f.Keys == a.Keys && f.Values == b.Keys
    && (forall k | k in a :: SameCounter(k, f[k]) && f[k] in b && b[f[k]] == a[k])
    && (forall k, l | k in a && l in a && SameCounter(k, l) :: k.at < l.at <==> f[k].at < f[l].at)
  }

  predicate SameCounter(k: CounterKey, l: CounterKey) {
    k.entity == l.entity && k.metric == l.metric
  }

  /** The same counter history, times apart. */
  ghost predicate SimilarHistory(a: map<CounterKey, Observation>, b: map<CounterKey, Observation>) {
    exists f: map<CounterKey, CounterKey> :: Pairs(f, a, b)
  }

  ghost predicate SimilarTables(s: Tables, t: Tables) {
    && SimilarHistory(s.counters, t.counters)
    && s.captures.Keys == t.captures.Keys
    && s.records.Keys == t.records.Keys
    && (forall id | id in s.captures :: UntimedMeta(s.captures[id]) == UntimedMeta(t.captures[id]))
    && (forall k | k in s.records :: Untimed(s.records[k]) == Untimed(t.records[k]))
  }

  /** The same files, checkpoints, captures and records, times apart. */
  ghost predicate Similar(d: Data, e: Data) {
    d.files == e.files && d.rows == e.rows && SimilarTables(d.tables, e.tables)
  }

  /** The metrics of one draft never contradict each other. */
  ghost predicate Measured(w: World) {
    forall raw, d | w.parse(raw).Parsed? && d in Kept(w, w.parse(raw)) :: Consistent(d.metrics)
  }

  /** `r` is newer than the current record of its key. */
  ghost predicate Newer(t: Tables, r: Record) {
    Consistent(r.metrics) && (r.key in t.records ==> t.records[r.key].observedAt < r.observedAt)
  }

  lemma CounterTime(t: Tables, k: CounterKey)
    requires Sound(t) && k in t.counters
    ensures k.entity in t.records && k.at <= t.records[k.entity].observedAt
  {
  }

  /** A newer save is refused only for a changed parent or a missing row. */
  lemma {:induction false} SaveNewer(t: Tables, r: Record)
    requires Sound(t) && Newer(t, r)
    ensures Save(t, r).Err? <==>
              || (r.key in t.records && t.records[r.key].parents != r.parents)
              || r.capture !in t.captures
              || exists p | p in r.parents :: p !in t.records
    ensures Save(t, r).Err? ==>
              Save(t, r).error == if r.key in t.records && t.records[r.key].parents != r.parents
                                  then IdentityConflict else MissingReference
    ensures Save(t, r).Ok? ==>
              Save(t, r).value.records == t.records[r.key := r] && Save(t, r).value.captures == t.captures
  {
    forall m | m in r.metrics ensures CounterKey(r.key, m.name, r.observedAt) !in t.counters {
      var k := CounterKey(r.key, m.name, r.observedAt);
      if k in t.counters { CounterTime(t, k); }
    }
    AddCountersFresh(t.counters, r.key, r.observedAt, r.capture, r.metrics);
  }

  /** `b` is `a` with the observations of one save. */
  ghost predicate Appended(
    a: map<CounterKey, Observation>, b: map<CounterKey, Observation>, key: Key, at: int, capture: CaptureId,
    metrics: seq<Metric>)
  {
    && (forall k | k in a :: k in b && b[k] == a[k])
    && (forall m | m in metrics ::
          CounterKey(key, m.name, at) in b && b[CounterKey(key, m.name, at)] == Observation(m.value, capture))
    && (forall k | k in b && k !in a :: exists m :: m in metrics && k == CounterKey(key, m.name, at))
  }

  lemma {:induction false} AddCountersAppends(
    counters: map<CounterKey, Observation>, key: Key, at: int, capture: CaptureId, metrics: seq<Metric>)
    requires AddCounters(counters, key, at, capture, metrics).Ok?
    ensures Appended(counters, AddCounters(counters, key, at, capture, metrics).value, key, at, capture, metrics)
    decreases |metrics|
  {
    if metrics != [] {
      var k := CounterKey(key, metrics[0].name, at);
      var next := counters[k := Observation(metrics[0].value, capture)];
      AddCountersAppends(next, key, at, capture, metrics[1..]);
      var b := AddCounters(counters, key, at, capture, metrics).value;
      forall l | l in b && l !in counters ensures exists m :: m in metrics && l == CounterKey(key, m.name, at) {
        if l == k {
          assert metrics[0] in metrics;
        } else {
          var m :| m in metrics[1..] && l == CounterKey(key, m.name, at);
          assert m in metrics;
        }
      }
    }
  }

  /** The observations paired so far, and the new ones with the other time. */
  function Stretch(
    f: map<CounterKey, CounterKey>, a: map<CounterKey, Observation>, at: int): map<CounterKey, CounterKey>
  {
    map k | k in a :: if k in f then f[k] else k.(at := at)
  }

  /** Every observation of `key` was made before `at`. */
  ghost predicate Before(counters: map<CounterKey, Observation>, key: Key, at: int) {
    forall k | k in counters && k.entity == key :: k.at < at
  }

  /** What a new observation is paired with. */
  lemma PairsNew(
    f: map<CounterKey, CounterKey>, a: map<CounterKey, Observation>, a': map<CounterKey, Observation>,
    b: map<CounterKey, Observation>, b': map<CounterKey, Observation>, r: Record, at': int, k: CounterKey)
    requires Pairs(f, a, b) && k in a' && k !in a
    requires Appended(a, a', r.key, r.observedAt, r.capture, r.metrics)
    requires Appended(b, b', r.key, at', r.capture, r.metrics)
    ensures var l := k.(at := at');
            && k.entity == r.key && k.at == r.observedAt && SameCounter(k, l)
            && Stretch(f, a', at')[k] == l && l in b' && b'[l] == a'[k]
  {
    var m :| m in r.metrics && k == CounterKey(r.key, m.name, r.observedAt);
    assert k.(at := at') == CounterKey(r.key, m.name, at');
  }

  lemma PairsOld(
    f: map<CounterKey, CounterKey>, a: map<CounterKey, Observation>, a': map<CounterKey, Observation>,
    b: map<CounterKey, Observation>, b': map<CounterKey, Observation>, r: Record, at': int, k: CounterKey)
    requires Pairs(f, a, b) && k in a
    requires Appended(a, a', r.key, r.observedAt, r.capture, r.metrics)
    requires Appended(b, b', r.key, at', r.capture, r.metrics)
    ensures k in a' && a'[k] == a[k] && Stretch(f, a', at')[k] == f[k] && f[k] in b' && b'[f[k]] == b[f[k]]
    ensures SameCounter(k, f[k])
  {
  }

  /** New observations come after the old ones of the same counter on both sides. */
  lemma PairsInTime(
    f: map<CounterKey, CounterKey>, a: map<CounterKey, Observation>, a': map<CounterKey, Observation>,
    b: map<CounterKey, Observation>, b': map<CounterKey, Observation>, r: Record, at': int, k: CounterKey,
    l: CounterKey)
    requires Pairs(f, a, b) && Before(a, r.key, r.observedAt) && Before(b, r.key, at')
    requires Appended(a, a', r.key, r.observedAt, r.capture, r.metrics)
    requires Appended(b, b', r.key, at', r.capture, r.metrics)
    requires k in a' && l in a' && SameCounter(k, l)
    ensures var f' := Stretch(f, a', at');
            k in f' && l in f' && (k.at < l.at <==> f'[k].at < f'[l].at)
  {
    hide Appended;
    if k in a { PairsOld(f, a, a', b, b', r, at', k); } else { PairsNew(f, a, a', b, b', r, at', k); }
    if l in a { PairsOld(f, a, a', b, b', r, at', l); } else { PairsNew(f, a, a', b, b', r, at', l); }
  }

  /** Every observation on the other side is paired. */
  lemma PairsOnto(
    f: map<CounterKey, CounterKey>, a: map<CounterKey, Observation>, a': map<CounterKey, Observation>,
    b: map<CounterKey, Observation>, b': map<CounterKey, Observation>, r: Record, at': int, l: CounterKey)
    requires Pairs(f, a, b) && Before(a, r.key, r.observedAt) && l in b'
    requires Appended(a, a', r.key, r.observedAt, r.capture, r.metrics)
    requires Appended(b, b', r.key, at', r.capture, r.metrics)
    ensures l in Stretch(f, a', at').Values
  {
    if l in b {
      assert l in f.Values;
      var k :| k in f && f[k] == l;
      assert Stretch(f, a', at')[k] == l;
    } else {
      var m :| m in r.metrics && l == CounterKey(r.key, m.name, at');
      var k := CounterKey(r.key, m.name, r.observedAt);
      assert k !in a && k in a';
      assert Stretch(f, a', at')[k] == k.(at := at') == l;
    }
  }

  /** One save at two times extends paired histories alike. */
  lemma {:induction false} HistoriesPair(
    f: map<CounterKey, CounterKey>, a: map<CounterKey, Observation>, a': map<CounterKey, Observation>,
    b: map<CounterKey, Observation>, b': map<CounterKey, Observation>, r: Record, at': int)
    requires Pairs(f, a, b) && Before(a, r.key, r.observedAt) && Before(b, r.key, at')
    requires Appended(a, a', r.key, r.observedAt, r.capture, r.metrics)
    requires Appended(b, b', r.key, at', r.capture, r.metrics)
    ensures Pairs(Stretch(f, a', at'), a', b')
  {
    hide Appended, Before, SameCounter, Stretch;
    var f' := Stretch(f, a', at');
    StretchKeys(f, a', at');
    forall k | k in a' ensures SameCounter(k, f'[k]) && f'[k] in b' && b'[f'[k]] == a'[k] {
      if k in a { PairsOld(f, a, a', b, b', r, at', k); } else { PairsNew(f, a, a', b, b', r, at', k); }
    }
    forall l | l in b' ensures l in f'.Values {
      PairsOnto(f, a, a', b, b', r, at', l);
    }
    forall k, l | k in a' && l in a' && SameCounter(k, l) ensures k.at < l.at <==> f'[k].at < f'[l].at {
      PairsInTime(f, a, a', b, b', r, at', k, l);
    }
    assert f'.Values == b'.Keys;
  }

  lemma StretchKeys(f: map<CounterKey, CounterKey>, a: map<CounterKey, Observation>, at: int)
    ensures Stretch(f, a, at).Keys == a.Keys
  {
  }

  lemma NewerThanCounters(t: Tables, r: Record)
    requires Sound(t) && Newer(t, r)
    ensures Before(t.counters, r.key, r.observedAt)
  {
    forall k | k in t.counters && k.entity == r.key ensures k.at < r.observedAt { CounterTime(t, k); }
  }

  lemma SavedCounters(t: Tables, r: Record)
    requires Save(t, r).Ok?
    ensures Appended(t.counters, Save(t, r).value.counters, r.key, r.observedAt, r.capture, r.metrics)
  {
    AddCountersAppends(t.counters, r.key, r.observedAt, r.capture, r.metrics);
  }

  lemma SaveSimilar(s: Tables, t: Tables, r: Record, q: Record)
    requires Sound(s) && Sound(t) && SimilarTables(s, t)
    requires Newer(s, r) && Newer(t, q) && Untimed(r) == Untimed(q)
    ensures Save(s, r).Ok? == Save(t, q).Ok?
    ensures Save(s, r).Ok? ==> SimilarTables(Save(s, r).value, Save(t, q).value)
    ensures Save(s, r).Err? ==> Save(s, r).error == Save(t, q).error
  {
    hide Save, Sound, Newer, Pairs, Before, Appended;
    SaveNewer(s, r);
    SaveNewer(t, q);
    assert r.key == q.key && r.parents == q.parents && r.capture == q.capture;
    if r.key in s.records {
      assert Untimed(s.records[r.key]).parents == s.records[r.key].parents;
      assert Untimed(t.records[r.key]).parents == t.records[r.key].parents;
    }
    if Save(s, r).Ok? && Save(t, q).Ok? {
      SavedCounters(s, r);
      SavedCounters(t, q);
      NewerThanCounters(s, r);
      NewerThanCounters(t, q);
      var f: map<CounterKey, CounterKey> :| Pairs(f, s.counters, t.counters);
      HistoriesPair(f, s.counters, Save(s, r).value.counters, t.counters, Save(t, q).value.counters, r, q.observedAt);
    }
  }

  /** The same write, times apart. */
  predicate SimilarOp(a: DataOp, b: DataOp) {
    match (a, b)
    case (AddCapture(id, m), AddCapture(id', m')) => id == id' && UntimedMeta(m) == UntimedMeta(m')
    case (SaveRecord(r), SaveRecord(q)) => Untimed(r) == Untimed(q)
    case _ => a == b
  }

  ghost predicate FreshOp(d: Data, op: DataOp) {
    Sound(d.tables) && (op.SaveRecord? ==> Newer(d.tables, op.record))
  }

  lemma OpSimilar(d: Data, e: Data, a: DataOp, b: DataOp)
    requires Similar(d, e) && SimilarOp(a, b) && FreshOp(d, a) && FreshOp(e, b)
    ensures ApplyData(d, a).Ok? == ApplyData(e, b).Ok?
    ensures ApplyData(d, a).Ok? ==> Similar(ApplyData(d, a).value, ApplyData(e, b).value)
    ensures ApplyData(d, a).Err? ==> ApplyData(d, a).error == ApplyData(e, b).error
  {
    hide Save, Sound, Newer, Upsert, Untimed, SimilarHistory;
    if a.SaveRecord? {
      SaveSimilar(d.tables, e.tables, a.record, b.record);
    } else if a.AddCapture? && a.id in d.tables.captures {
      assert UntimedMeta(d.tables.captures[a.id]) == UntimedMeta(e.tables.captures[a.id]);
    }
  }

  // ------------------------------------------------------------- one page

  /** Every record was observed before `at`. */
  ghost predicate Older(d: Data, at: int) {
    forall k | k in d.tables.records :: d.tables.records[k].observedAt < at
  }

  /** No capture of this job is numbered after page `n`. */
  ghost predicate NumberedUpTo(w: World, d: Data, n: nat) {
    forall id | id in d.tables.captures && id.job == w.job :: id.number <= n
  }

  /** After `i` writes, a record is the old one or one of the writes. */
  lemma {:induction false} RecordsFrom(d: Data, ops: seq<DataOp>, i: nat)
    requires i <= Exec(d, ops).done
    ensures var e := Exec(d, ops[..i]).data;
            forall k | k in e.tables.records ::
              || (k in d.tables.records && e.tables.records[k] == d.tables.records[k])
              || (exists j | 0 <= j < i :: ops[j].SaveRecord? && ops[j].record == e.tables.records[k]
                                           && ops[j].record.key == k)
  {
    hide Exec, ApplyData;
    if i == 0 {
      assert ops[..0] == [];
      ExecNothing(d);
    } else {
      RecordsFrom(d, ops, i - 1);
      ExecStep(d, ops, i - 1);
      RecordsStep(Exec(d, ops[..i - 1]).data, ops[i - 1]);
    }
  }

  lemma RecordsStep(d: Data, op: DataOp)
    requires ApplyData(d, op).Ok?
    ensures ApplyData(d, op).value.tables.records
            == if op.SaveRecord? then d.tables.records[op.record.key := op.record] else d.tables.records
  {
  }

  /** The save at place `i` is newer than what its key holds by then. */
  lemma PageSavesNewer(w: World, b: Position, page: Fetch, at: int, i: nat)
    requires WellParsed(w) && Nested(w) && Measured(w) && page.Rendered?
    requires Orderly(b.data.tables) && Older(b.data, at)
    requires i < |OpsAt(w, b, page, at)| && i <= Exec(b.data, OpsAt(w, b, page, at)).done
    ensures FreshOp(Exec(b.data, OpsAt(w, b, page, at)[..i]).data, OpsAt(w, b, page, at)[i])
  {
    hide Exec, OpsAt, WellParsed, PageCapture, Nested, Sound, Ordered, Kept;
    var ops := OpsAt(w, b, page, at);
    PrefixOrderly(w, b, page, at, i);
    if ops[i].SaveRecord? {
      SaveFrom(w, b, page, at, i);
      PageApart(w, b, page, at);
      RecordsFrom(b.data, ops, i);
      var e := Exec(b.data, ops[..i]).data;
      var key := ops[i].record.key;
      if key in e.tables.records {
        forall j | 0 <= j < i && ops[j].SaveRecord? ensures ops[j].record.key != key {
          assert Apart(ops[j], ops[i]);
        }
      }
    }
  }

  lemma PageOpsSimilar(w: World, b: Position, a: Position, page: Fetch, at: int, at': int)
    requires page.Rendered? && a == b.(data := a.data)
    ensures |OpsAt(w, b, page, at)| == |OpsAt(w, a, page, at')|
    ensures forall i | 0 <= i < |OpsAt(w, b, page, at)| ::
              SimilarOp(OpsAt(w, b, page, at)[i], OpsAt(w, a, page, at')[i])
  {
    hide Kept, Judge, PageCapture;
    OpsIgnoreData(w, b, a.data, page, at);
    var id := PageCapture(w, b, page);
    var p := PersistOps(w, id, page.raw, at);
    var q := PersistOps(w, id, page.raw, at');
    assert |p| == |q|;
    forall i | 0 <= i < |p| ensures SimilarOp(p[i], q[i]) {
    }
    var ops := OpsAt(w, b, page, at);
    var ops' := OpsAt(w, a, page, at');
    forall i | 0 <= i < |ops| ensures SimilarOp(ops[i], ops'[i]) {
      if 2 <= i < 2 + |p| { assert ops[i] == p[i - 2] && ops'[i] == q[i - 2]; }
    }
  }

  /** From similar data, a page is written alike to its end. */
  lemma {:induction false} PageSimilar(w: World, b: Position, a: Position, page: Fetch, at: int, at': int, i: nat)
    requires WellParsed(w) && Nested(w) && Measured(w) && page.Rendered? && a == b.(data := a.data)
    requires Orderly(b.data.tables) && Older(b.data, at) && Orderly(a.data.tables) && Older(a.data, at')
    requires i <= Exec(b.data, OpsAt(w, b, page, at)).done && i <= Exec(a.data, OpsAt(w, a, page, at')).done
    requires Similar(Exec(b.data, OpsAt(w, b, page, at)[..i]).data, Exec(a.data, OpsAt(w, a, page, at')[..i]).data)
    ensures var e := Exec(b.data, OpsAt(w, b, page, at));
            var f := Exec(a.data, OpsAt(w, a, page, at'));
            e.done == f.done && e.refusal == f.refusal && Similar(e.data, f.data)
    decreases |OpsAt(w, b, page, at)| - i
  {
    hide Exec, OpsAt, WellParsed, Nested, Measured, Orderly, Older, Similar, ApplyData, FreshOp, SimilarOp;
    var ops := OpsAt(w, b, page, at);
    var ops' := OpsAt(w, a, page, at');
    PageOpsSimilar(w, b, a, page, at, at');
    if i == |ops| {
      assert ops[..i] == ops && ops'[..i] == ops';
    } else {
      PageSavesNewer(w, b, page, at, i);
      PageSavesNewer(w, a, page, at', i);
      OpSimilar(Exec(b.data, ops[..i]).data, Exec(a.data, ops'[..i]).data, ops[i], ops'[i]);
      ExecStep(b.data, ops, i);
      ExecStep(a.data, ops', i);
      if i < Exec(b.data, ops).done && i < Exec(a.data, ops').done {
        PageSimilar(w, b, a, page, at, at', i + 1);
      }
    }
  }

  lemma {:induction false} CapturesFrom(d: Data, ops: seq<DataOp>, i: nat)
    requires i <= Exec(d, ops).done
    ensures forall id | id in Exec(d, ops[..i]).data.tables.captures ::
              id in d.tables.captures || exists j | 0 <= j < i :: ops[j].AddCapture? && ops[j].id == id
  {
    hide Exec, ApplyData;
    if i == 0 {
      assert ops[..0] == [];
      ExecNothing(d);
    } else {
      CapturesFrom(d, ops, i - 1);
      ExecStep(d, ops, i - 1);
      CapturesStep(Exec(d, ops[..i - 1]).data, ops[i - 1]);
    }
  }

  lemma CapturesStep(d: Data, op: DataOp)
    requires ApplyData(d, op).Ok?
    ensures forall id | id in ApplyData(d, op).value.tables.captures ::
              id in d.tables.captures || (op.AddCapture? && op.id == id)
  {
  }

  /** A page stamps its own time and its own number, nothing later. */
  lemma PageAfter(w: World, b: Position, page: Fetch, at: int, later: int)
    requires page.Rendered? && Older(b.data, at) && at < later && NumberedUpTo(w, b.data, b.done)
    ensures Older(Exec(b.data, OpsAt(w, b, page, at)).data, later)
    ensures NumberedUpTo(w, Exec(b.data, OpsAt(w, b, page, at)).data, b.done + 1)
  {
    hide Exec, OpsAt, Kept;
    var ops := OpsAt(w, b, page, at);
    var done := Exec(b.data, ops).done;
    ExecDone(b.data, ops);
    RecordsFrom(b.data, ops, done);
    CapturesFrom(b.data, ops, done);
    forall j | 0 <= j < done && ops[j].SaveRecord? ensures ops[j].record.observedAt == at {
      SaveFrom(w, b, page, at, j);
    }
    forall j | 0 <= j < done && ops[j].AddCapture? ensures ops[j].id.number == b.done + 1 {
      PageOpKinds(w, b, page, at, j);
    }
  }

  /** A page not yet begun is stamped with the clock's own reading. */
  lemma FreshTime(w: World, p: Position, c: Clock)
    requires w.fetch(p.cursor).Rendered? && NumberedUpTo(w, p.data, p.done)
    ensures PageOps(w, p, c) == OpsAt(w, p, w.fetch(p.cursor), c(p.done + 1))
  {
    hide OpsAt;
  }

  // -------------------------------------------------------- the whole run

  ghost predicate Ready(w: World, p: Position, c: Clock) {
    && Orderly(p.data.tables) && NumberedUpTo(w, p.data, p.done)
    && Older(p.data, c(p.done + 1))
    && p.done < w.maxPages
    && forall i: nat, j: nat | 1 <= i < j <= w.maxPages :: c(i) < c(j)
  }

  lemma NextReady(w: World, p: Position, c: Clock, q: Position)
    requires WellParsed(w) && Nested(w) && Ready(w, p, c) && StepTo(w, p, c) == Some(q)
    ensures Ready(w, q, c)
  {
    hide OpsAt, Exec, WellParsed, Nested, Orderly, Older, NumberedUpTo, Judge, PageCapture;
    StepDone(w, p, c);
    StepPartway(w, p, c, q);
    PartwayOrderly(w, p, c, |PageOps(w, p, c)|, q.data);
    FreshTime(w, p, c);
    PageAfter(w, p, w.fetch(p.cursor), c(p.done + 1), c(p.done + 2));
  }

  /** One step of two runs from similar data. */
  lemma StepSimilar(w: World, p: Position, q: Position, c: Clock, c': Clock)
    requires WellParsed(w) && Nested(w) && Measured(w) && q == p.(data := q.data)
    requires Ready(w, p, c) && Ready(w, q, c') && Similar(p.data, q.data)
    ensures StepTo(w, p, c).Some? == StepTo(w, q, c').Some?
    ensures StepTo(w, p, c).Some? ==>
              var p' := StepTo(w, p, c).value;
              var q' := StepTo(w, q, c').value;
              q' == p'.(data := q'.data) && Similar(p'.data, q'.data)
    ensures EndOf(w, p, c) == EndOf(w, q, c')
    ensures Similar(Exec(p.data, PageOps(w, p, c)).data, Exec(q.data, PageOps(w, q, c')).data)
  {
    hide PageOps, OpsAt, Exec, WellParsed, Nested, Measured, Orderly, Older, NumberedUpTo, Similar;
    var page := w.fetch(p.cursor);
    if page.Stopped? {
      StoppedOps(w, p, c);
      StoppedOps(w, q, c');
      ExecNothing(p.data);
      ExecNothing(q.data);
    } else {
      FreshTime(w, p, c);
      FreshTime(w, q, c');
      OpsIgnoreData(w, p, q.data, page, 0);
      ExecNothing(p.data);
      ExecNothing(q.data);
      var at := c(p.done + 1);
      var at' := c'(p.done + 1);
      assert OpsAt(w, p, page, at)[..0] == [] && OpsAt(w, q, page, at')[..0] == [];
      PageSimilar(w, p, q, page, at, at', 0);
    }
  }

  lemma {:induction false} IdealSimilar(w: World, p: Position, q: Position, c: Clock, c': Clock)
    requires WellParsed(w) && Nested(w) && Measured(w) && q == p.(data := q.data)
    requires Ready(w, p, c) && Ready(w, q, c') && Similar(p.data, q.data)
    ensures Ideal(w, p, c).outcome == Ideal(w, q, c').outcome
    ensures Similar(Ideal(w, p, c).data, Ideal(w, q, c').data)
    decreases w.maxPages - p.done
  {
    hide StepTo, EndOf, PageOps, Exec, WellParsed, Nested, Measured, Ready, Similar;
    StepSimilar(w, p, q, c, c');
    if StepTo(w, p, c).Some? {
      NextReady(w, p, c, StepTo(w, p, c).value);
      NextReady(w, q, c', StepTo(w, q, c').value);
      StepDone(w, p, c);
      IdealSimilar(w, StepTo(w, p, c).value, StepTo(w, q, c').value, c, c');
    }
  }

  // ----------------------------------------------------------- convergence

  function Identifiers(t: Tables, groupId: string): set<Key> {
    {Key(Group, groupId)}
    + set k | k in t.records && k.kind != Group && Key(Group, groupId) in t.records[k].parents
  }

  lemma SimilarIdentifiers(s: Tables, t: Tables, groupId: string)
    requires SimilarTables(s, t)
    ensures Identifiers(s, groupId) == Identifiers(t, groupId)
  {
    forall k | k in s.records ensures s.records[k].parents == t.records[k].parents {
      assert Untimed(s.records[k]).parents == Untimed(t.records[k]).parents;
    }
  }

  /** The disk of a job that crashes nowhere. */
  function Uninterrupted(w: World, d: Disk, clock: Clock): Disk {
    Land(d, Attempt(w, d, clock, None).log)
  }

  /** A new job: no capture of it is stored and every record is older than `low`. */
  ghost predicate NewJob(w: World, d: Disk, low: int) {
    && Created(d) && Orderly(d.data.tables)
    && (forall id | id in d.data.tables.captures :: id.job != w.job)
    && (forall k | k in d.data.tables.records :: d.data.tables.records[k].observedAt <= low)
  }

  /** Any schedule of crashes, pauses and attempts in time order, followed by one
      attempt left alone, ends with the files, checkpoints, captures, records,
      identifiers, counter history and job state of one uninterrupted attempt, times
      apart. Only the times that are stored have to be in order. */
  lemma {:induction false} EverythingConverges(
    w: World, d: Disk, tries: seq<Try>, until: seq<int>, now: Clock, high: int, alone: Clock, top: int)
    requires WellParsed(w) && Nested(w) && Measured(w) && w.maxPages > 0
    requires Afterwards(w, d, tries, until, now, high) && NewJob(w, d, until[0])
    requires Afterwards(w, d, [], [until[0]], alone, top)
    ensures var crashed := Uninterrupted(w, After(w, d, tries), now);
            var smooth := Uninterrupted(w, d, alone);
            && Similar(crashed.data, smooth.data)
            && crashed.control.job == smooth.control.job
            && Identifiers(crashed.data.tables, w.groupId) == Identifiers(smooth.data.tables, w.groupId)
  {
    hide Attempt, Land, WellParsed, Nested, Measured, Ideal, Similar, Orderly, After;
    var c, last := Completes(w, d, tries, until, now, high);
    var c', last' := Completes(w, d, [], [until[0]], alone, top);
    assert After(w, d, []) == d by { AfterNothing(w, d); }
    StartReady(w, d, c, until[0], last);
    StartReady(w, d, c', until[0], last');
    SelfSimilar(d.data);
    IdealSimilar(w, Start(d.data), Start(d.data), c, c');
    var crashed := Uninterrupted(w, After(w, d, tries), now);
    var smooth := Uninterrupted(w, d, alone);
    SimilarData(crashed.data, smooth.data);
    SimilarIdentifiers(crashed.data.tables, smooth.data.tables, w.groupId);
  }

  lemma SimilarData(d: Data, e: Data)
    requires Similar(d, e)
    ensures SimilarTables(d.tables, e.tables)
  {
  }

  lemma AfterNothing(w: World, d: Disk)
    ensures After(w, d, []) == d
  {
  }

  lemma SelfSimilar(d: Data)
    ensures Similar(d, d)
  {
    var f := map k | k in d.tables.counters :: k;
    forall k | k in d.tables.counters ensures k in f.Values {
      assert f[k] == k;
    }
    assert Pairs(f, d.tables.counters, d.tables.counters);
  }

  lemma StartReady(w: World, d: Disk, c: Clock, low: int, high: int)
    requires NewJob(w, d, low) && Rising(w, c, low, high) && w.maxPages > 0
    ensures Ready(w, Start(d.data), c)
  {
    hide Orderly;
  }
}
