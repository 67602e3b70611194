/** The canonical tables of the scanner database and the rules a save obeys.

    A Group, a Post and a Comment are one `Record` here, told apart by the kind
    in the key; `parents` lists the rows its foreign keys name and `metrics` the
    counters its save appends, so one `Save` stands for the three save methods,
    which differ only in those two lists. Times are integers (microseconds);
    module `Timestamps` shows that comparing their stored text gives the same
    answers. */
module Storage {
  import opened Basics

  datatype Kind = Group | Post | Comment

  datatype Key = Key(kind: Kind, id: string)

  /** A hash without collisions: the constructor is injective. */
  datatype Digest = Sha256(preimage: Bytes)

  datatype CaptureId = CaptureId(job: string, number: nat, place: string, digest: Digest)

  datatype Metric = Metric(name: string, value: nat)

  datatype Record = Record(
    key: Key,
    parents: seq<Key>,
    observedAt: int,
    capture: CaptureId,
    metrics: seq<Metric>,
    body: string)

  /** Capture metadata; `path` is the raw file `<capture id>.html.gz` it names. */
  datatype Meta = Meta(digest: Digest, url: string, collectedAt: int, path: Option<CaptureId>, size: Option<nat>)

  datatype CounterKey = CounterKey(entity: Key, metric: string, at: int)

  datatype Observation = Observation(value: nat, capture: CaptureId)

  datatype Tables = Tables(
    captures: map<CaptureId, Meta>,
    records: map<Key, Record>,
    counters: map<CounterKey, Observation>)

  datatype Refusal =
    | StaleObservation
    | ObservationConflict
    | IdentityConflict
    | CounterConflict
    | MissingReference
    | MetadataConflict
    | FileConflict
    | InvalidTransition

  // ---------------------------------------------------------------- saves

  /** What forbids replacing the current record by `r`. */
  function Guard(records: map<Key, Record>, r: Record): Option<Refusal> {
    if r.key !in records then None
    else
      var current := records[r.key];
      if current.parents != r.parents then Some(IdentityConflict)
      else if r.observedAt < current.observedAt then Some(StaleObservation)
      else if r.observedAt == current.observedAt && r != current then Some(ObservationConflict)
      else None
  }

  /** Appends one observation a metric; an existing observation must agree. */
  function AddCounters(
    counters: map<CounterKey, Observation>, key: Key, at: int, capture: CaptureId, metrics: seq<Metric>)
    : (r: Result<map<CounterKey, Observation>, Refusal>)
    ensures r.Ok? ==> forall k | k in counters :: k in r.value && r.value[k] == counters[k]
    ensures r.Ok? ==> forall m | m in metrics ::
                        && CounterKey(key, m.name, at) in r.value
                        && r.value[CounterKey(key, m.name, at)] == Observation(m.value, capture)
    ensures r.Ok? ==> forall k | k in r.value && k !in counters ::
                        k.entity == key && k.at == at && r.value[k].capture == capture
    ensures r.Err? ==> r.error == CounterConflict
    decreases |metrics|
  {
    if metrics == [] then Ok(counters)
    else
      var k := CounterKey(key, metrics[0].name, at);
      var o := Observation(metrics[0].value, capture);
      if k in counters && counters[k] != o then Err(CounterConflict)
      else AddCounters(counters[k := o], key, at, capture, metrics[1..])
  }

  /** One save transaction: all of it, or nothing. */
  function Save(t: Tables, r: Record): Result<Tables, Refusal> {
    match Guard(t.records, r)
    case Some(e) => Err(e)
    case None =>
      if r.capture !in t.captures || exists p | p in r.parents :: p !in t.records then
        Err(MissingReference)
      else
        match AddCounters(t.counters, r.key, r.observedAt, r.capture, r.metrics)
        case Err(e) => Err(e)
        case Ok(counters) => Ok(t.(records := t.records[r.key := r], counters := counters))
  }

  /** Insert capture metadata, or verify the immutable row. */
  function AddMeta(captures: map<CaptureId, Meta>, id: CaptureId, meta: Meta)
    : Result<map<CaptureId, Meta>, Refusal>
  {
    if id !in captures then Ok(captures[id := meta])
    else if captures[id].digest != meta.digest || captures[id].url != meta.url then Err(MetadataConflict)
    else if (meta.path, meta.size) != (None, None) && (captures[id].path, captures[id].size) != (meta.path, meta.size)
    then Err(MetadataConflict)
    else Ok(captures)
  }

  // ----------------------------------------------------------- invariants

  predicate Shaped(r: Record) {
    match r.key.kind
    case Group => r.parents == []
    case Post => |r.parents| == 1 && r.parents[0].kind == Group
    case Comment => |r.parents| == 2 && r.parents[0].kind == Post && r.parents[1].kind == Group
  }

  /** The record's own counters are in the history at its own observed time. */
  ghost predicate Counted(t: Tables, r: Record) {
    forall m | m in r.metrics ::
      && CounterKey(r.key, m.name, r.observedAt) in t.counters
      && t.counters[CounterKey(r.key, m.name, r.observedAt)] == Observation(m.value, r.capture)
  }

  /** Foreign keys hold, no current counter is missing and no observation is
      an orphan or newer than its record. */
  ghost predicate Sound(t: Tables) {
    && (forall k | k in t.records ::
          && t.records[k].key == k
          && Shaped(t.records[k])
          && t.records[k].capture in t.captures
          && (forall p | p in t.records[k].parents :: p in t.records)
          && Counted(t, t.records[k]))
    && (forall c | c in t.counters ::
          && c.entity in t.records
          && c.at <= t.records[c.entity].observedAt
          && t.counters[c].capture in t.captures)
  }

  /** A parent was observed no earlier than its children. */
  ghost predicate Ordered(t: Tables) {
    forall k, p | k in t.records && p in t.records[k].parents ::
      p in t.records && t.records[k].observedAt <= t.records[p].observedAt
  }

  lemma {:induction false} SaveKeepsSound(t: Tables, r: Record)
    requires Sound(t) && Shaped(r) && Save(t, r).Ok?
    ensures Sound(Save(t, r).value)
  {
    var t' := Save(t, r).value;
    assert t'.captures == t.captures && t'.records == t.records[r.key := r];
    forall k | k in t'.records
      ensures (forall p | p in t'.records[k].parents :: p in t'.records) && Counted(t', t'.records[k])
    {
      if k != r.key {
        assert Counted(t, t.records[k]);
      }
    }
    forall c | c in t'.counters
      ensures c.entity in t'.records && c.at <= t'.records[c.entity].observedAt
      ensures t'.counters[c].capture in t'.captures
    {
      if c in t.counters { assert t.counters[c].capture in t.captures; }
    }
  }

  /** `r` is no newer than the parents it names. */
  ghost predicate Covered(t: Tables, r: Record) {
    forall p | p in r.parents :: p in t.records && r.observedAt <= t.records[p].observedAt
  }

  lemma ParentsDiffer(r: Record, p: Key)
    requires Shaped(r) && p in r.parents
    ensures p.kind != r.key.kind
  {
  }

  lemma SavedRecords(t: Tables, r: Record)
    requires Save(t, r).Ok?
    ensures Save(t, r).value.records == t.records[r.key := r] && Save(t, r).value.captures == t.captures
    ensures forall p | p in r.parents :: p in t.records
    ensures r.key in t.records ==> t.records[r.key].observedAt <= r.observedAt
  {
  }

  /** Saving keeps parents at least as recent as children exactly when the saved
      record is no newer than the parents it names. */
  lemma {:induction false} SaveKeepsOrder(t: Tables, r: Record)
    requires Sound(t) && Ordered(t) && Shaped(r) && Save(t, r).Ok?
    ensures Ordered(Save(t, r).value) <==> Covered(t, r)
  {
    hide Save, Counted;
    var records := t.records[r.key := r];
    SavedRecords(t, r);
    forall p | p in r.parents ensures p in t.records && records[p] == t.records[p] {
      ParentsDiffer(r, p);
    }
    if Ordered(Save(t, r).value) {
      forall p | p in r.parents ensures r.observedAt <= t.records[p].observedAt {
        assert r.key in records && records[r.key] == r;
      }
    }
    if Covered(t, r) {
      forall k, p | k in records && p in records[k].parents
        ensures p in records && records[k].observedAt <= records[p].observedAt
      {
        if k != r.key { assert k in t.records && p in t.records[k].parents; }
      }
    }
  }

  // ---------------------------------------------------- repeating a save

  lemma {:induction false} AddCountersAgain(
    counters: map<CounterKey, Observation>, key: Key, at: int, capture: CaptureId, metrics: seq<Metric>)
    requires forall m | m in metrics ::
               && CounterKey(key, m.name, at) in counters
               && counters[CounterKey(key, m.name, at)] == Observation(m.value, capture)
    ensures AddCounters(counters, key, at, capture, metrics) == Ok(counters)
    decreases |metrics|
  {
    if metrics != [] {
      var k := CounterKey(key, metrics[0].name, at);
      assert metrics[0] in metrics;
      assert counters[k := Observation(metrics[0].value, capture)] == counters;
      AddCountersAgain(counters, key, at, capture, metrics[1..]);
    }
  }

  /** A save repeated is a no-op: no record changes, no observation is added. */
  lemma SaveAgain(t: Tables, r: Record)
    requires r.key in t.records && t.records[r.key] == r && Counted(t, r)
    requires r.capture in t.captures && forall p | p in r.parents :: p in t.records
    ensures Save(t, r) == Ok(t)
  {
    AddCountersAgain(t.counters, r.key, r.observedAt, r.capture, r.metrics);
    assert t.records[r.key := r] == t.records;
  }

  lemma {:induction false} SaveTwice(t: Tables, r: Record)
    requires Save(t, r).Ok?
    ensures Save(Save(t, r).value, r) == Save(t, r)
  {
    var t' := Save(t, r).value;
    assert t'.records[r.key] == r && Counted(t', r);
    SaveAgain(t', r);
  }

  lemma MetaTwice(captures: map<CaptureId, Meta>, id: CaptureId, meta: Meta)
    requires AddMeta(captures, id, meta).Ok?
    ensures AddMeta(AddMeta(captures, id, meta).value, id, meta) == AddMeta(captures, id, meta)
  {
  }

  /** Metrics of one record never contradict each other. */
  predicate Consistent(metrics: seq<Metric>) {
    forall m, m' | m in metrics && m' in metrics && m.name == m'.name :: m == m'
  }

  lemma {:induction false} AddCountersFresh(
    counters: map<CounterKey, Observation>, key: Key, at: int, capture: CaptureId, metrics: seq<Metric>)
    requires Consistent(metrics)
    requires forall m | m in metrics && CounterKey(key, m.name, at) in counters ::
               counters[CounterKey(key, m.name, at)] == Observation(m.value, capture)
    ensures AddCounters(counters, key, at, capture, metrics).Ok?
    decreases |metrics|
  {
    if metrics != [] {
      var k := CounterKey(key, metrics[0].name, at);
      assert metrics[0] in metrics;
      var next := counters[k := Observation(metrics[0].value, capture)];
      forall m | m in metrics[1..] && CounterKey(key, m.name, at) in next
        ensures next[CounterKey(key, m.name, at)] == Observation(m.value, capture)
      {
        assert m in metrics;
      }
      AddCountersFresh(next, key, at, capture, metrics[1..]);
    }
  }

  // ---------------------------------------------------------- many saves

  /** The tables after any saves, refused ones leaving them as they are. */
  function AfterSaves(t: Tables, rs: seq<Record>): Tables
    decreases |rs|
  {
    if rs == [] then t
    else
      var before := AfterSaves(t, rs[..|rs| - 1]);
      match Save(before, rs[|rs| - 1]) case Ok(after) => after case Err(_) => before
  }

  /** Whatever is saved in whatever order, a record is never lost, never moves to
      other parents, never goes back in time, and at one time has one content;
      no observation is ever changed. */
  lemma {:induction false} SavesMoveForward(t: Tables, rs: seq<Record>, k: Key, c: CounterKey)
    ensures k in t.records ==>
              && k in AfterSaves(t, rs).records
              && AfterSaves(t, rs).records[k].parents == t.records[k].parents
              && t.records[k].observedAt <= AfterSaves(t, rs).records[k].observedAt
              && (AfterSaves(t, rs).records[k].observedAt == t.records[k].observedAt ==>
                    AfterSaves(t, rs).records[k] == t.records[k])
    ensures c in t.counters ==>
              c in AfterSaves(t, rs).counters && AfterSaves(t, rs).counters[c] == t.counters[c]
    decreases |rs|
  {
    if rs != [] {
      var before := AfterSaves(t, rs[..|rs| - 1]);
      SavesMoveForward(t, rs[..|rs| - 1], k, c);
      if Save(before, rs[|rs| - 1]).Ok? { OneSaveForward(before, rs[|rs| - 1], k, c); }
    }
  }

  lemma OneSaveForward(t: Tables, r: Record, k: Key, c: CounterKey)
    requires Save(t, r).Ok?
    ensures k in t.records ==>
              && k in Save(t, r).value.records
              && Save(t, r).value.records[k].parents == t.records[k].parents
              && t.records[k].observedAt <= Save(t, r).value.records[k].observedAt
              && (Save(t, r).value.records[k].observedAt == t.records[k].observedAt ==>
                    Save(t, r).value.records[k] == t.records[k])
    ensures c in t.counters ==> c in Save(t, r).value.counters && Save(t, r).value.counters[c] == t.counters[c]
  {
  }

  // --------------------------------------------------- what a save answers

  /** A save goes through exactly when the record is new, or keeps its parents and
      is newer or the very same; when what it names is stored; and when no stored
      observation contradicts it. */
  lemma {:induction false} SaveAccepted(t: Tables, r: Record)
    requires Consistent(r.metrics)
    ensures Save(t, r).Ok?
            <==> && (r.key in t.records ==>
                       var current := t.records[r.key];
                       current.parents == r.parents && (current.observedAt < r.observedAt || current == r))
                 && r.capture in t.captures && (forall p | p in r.parents :: p in t.records)
                 && (forall m | m in r.metrics && CounterKey(r.key, m.name, r.observedAt) in t.counters ::
                       t.counters[CounterKey(r.key, m.name, r.observedAt)] == Observation(m.value, r.capture))
    ensures Save(t, r).Ok? ==>
              var e := Save(t, r).value;
              && e.captures == t.captures && e.records == t.records[r.key := r]
              && (forall c | c in t.counters :: c in e.counters && e.counters[c] == t.counters[c])
              && (forall m | m in r.metrics ::
                    CounterKey(r.key, m.name, r.observedAt) in e.counters
                    && e.counters[CounterKey(r.key, m.name, r.observedAt)] == Observation(m.value, r.capture))
  {
    hide Guard;
    GuardIs(t, r);
    if forall m | m in r.metrics && CounterKey(r.key, m.name, r.observedAt) in t.counters ::
         t.counters[CounterKey(r.key, m.name, r.observedAt)] == Observation(m.value, r.capture)
    {
      AddCountersFresh(t.counters, r.key, r.observedAt, r.capture, r.metrics);
    }
  }

  /** Why a save is refused. */
  lemma {:induction false} SaveRefused(t: Tables, r: Record)
    requires Save(t, r).Err?
    ensures Save(t, r).error
            == if r.key in t.records && t.records[r.key].parents != r.parents then IdentityConflict
               else if r.key in t.records && r.observedAt < t.records[r.key].observedAt then StaleObservation
               else if r.key in t.records && r.observedAt == t.records[r.key].observedAt && t.records[r.key] != r then
                 ObservationConflict
               else if r.capture !in t.captures || (exists p | p in r.parents :: p !in t.records) then MissingReference
               else CounterConflict
  {
    hide AddCounters;
    if Guard(t.records, r).None? && AddCounters(t.counters, r.key, r.observedAt, r.capture, r.metrics).Err? {
      var e := AddCounters(t.counters, r.key, r.observedAt, r.capture, r.metrics).error;
      assert e == CounterConflict;
    }
  }

  lemma GuardIs(t: Tables, r: Record)
    ensures Guard(t.records, r).None?
            <==> (r.key in t.records ==>
                    var current := t.records[r.key];
                    current.parents == r.parents && (current.observedAt < r.observedAt || current == r))
  {
  }

  /** Metadata is new, or agrees with the stored row in digest and URL and, when it
      names a file or a size, in both; the stored row stays. */
  lemma {:induction false} MetaAccepted(captures: map<CaptureId, Meta>, id: CaptureId, meta: Meta)
    ensures AddMeta(captures, id, meta).Ok?
            <==> id in captures ==>
                   && captures[id].digest == meta.digest && captures[id].url == meta.url
                   && (meta.path != None || meta.size != None ==>
                         captures[id].path == meta.path && captures[id].size == meta.size)
    ensures AddMeta(captures, id, meta).Ok? ==>
              AddMeta(captures, id, meta).value == if id in captures then captures else captures[id := meta]
    ensures AddMeta(captures, id, meta).Err? ==> AddMeta(captures, id, meta).error == MetadataConflict
  {
  }
}
