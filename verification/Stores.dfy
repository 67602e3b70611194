/** The mutable stores: the raw capture directory and the scanner database. */
module Stores {
  import opened Basics
  import opened Storage
  import opened Durable

  datatype ReadError = Unreadable | DigestMismatch

  /** Raw bytes a capture, outside the database. Compression is its own inverse
      and is left out; a file appears whole or not at all. */
  class RawStore {
    var files: map<CaptureId, Bytes>

    constructor ()
      ensures files == map[]
    {
      files := map[];
    }

    /** The stored bytes, if they are there and match the recorded digest. */
    method Read(id: CaptureId, expected: Digest) returns (r: Result<Bytes, ReadError>)
      ensures r.Ok? <==> id in files && Sha256(files[id]) == expected
      ensures r.Ok? ==> r.value == files[id]
      ensures r == Err(Unreadable) <==> id !in files
    {
      if id !in files {
        return Err(Unreadable);
      }
      var raw := files[id];
      if Sha256(raw) != expected {
        return Err(DigestMismatch);
      }
      return Ok(raw);
    }

    /** Stores new bytes; bytes already stored must be the same. */
    method Write(id: CaptureId, raw: Bytes) returns (refusal: Option<Refusal>)
      modifies this
      ensures refusal == if id in old(files) && old(files)[id] != raw then Some(FileConflict) else None
      ensures files == if refusal.None? then old(files)[id := raw] else old(files)
    {
      if id in files {
        var existing := Read(id, Sha256(raw));
        if existing.Err? || existing.value != raw {
          return Some(FileConflict);
        }
        assert files == files[id := raw];
      } else {
        files := files[id := raw];
      }
      return None;
    }
  }

  class Database {
    var captures: map<CaptureId, Meta>
    var records: map<Key, Record>
    var counters: map<CounterKey, Observation>
    var rows: seq<Row>
    var task: Option<TaskState>
    var job: JobState
    var failures: seq<Failure>

    constructor ()
      ensures Tables() == Storage.Tables(map[], map[], map[])
      ensures Control() == Durable.Control(None, Planned, []) && rows == []
    {
      captures, records, counters, rows := map[], map[], map[], [];
      task, job, failures := None, Planned, [];
    }

    function Tables(): Tables
      reads this
    {
      Storage.Tables(captures, records, counters)
    }

    function Control(): Control
      reads this
    {
      Durable.Control(task, job, failures)
    }

    method AddCapture(id: CaptureId, meta: Meta) returns (refusal: Option<Refusal>)
      modifies this`captures
      ensures match AddMeta(old(captures), id, meta)
              case Ok(c) => refusal == None && captures == c
              case Err(e) => refusal == Some(e) && captures == old(captures)
    {
      if id in captures {
        var row := captures[id];
        if row.digest != meta.digest || row.url != meta.url {
          return Some(MetadataConflict);
        }
        var location, requested := (row.path, row.size), (meta.path, meta.size);
        if requested != (None, None) && location != requested {
          return Some(MetadataConflict);
        }
      } else {
        captures := captures[id := meta];
      }
      return None;
    }

    /** One transaction: the guard, the upsert, then the counters one by one; a
        conflict rolls everything back. */
    method SaveRecord(r: Record) returns (refusal: Option<Refusal>)
      modifies this`records, this`counters
      ensures match Save(old(Tables()), r)
              case Ok(t) => refusal == None && Tables() == t
              case Err(e) => refusal == Some(e) && Tables() == old(Tables())
    {
      if r.key in records {
        var current := records[r.key];
        if current.parents != r.parents {
          return Some(IdentityConflict);
        }
        if r.observedAt < current.observedAt {
          return Some(StaleObservation);
        }
        if r.observedAt == current.observedAt && r != current {
          return Some(ObservationConflict);
        }
      }
      if r.capture !in captures || exists p | p in r.parents :: p !in records {
        return Some(MissingReference);
      }
      var history := counters;
      for i := 0 to |r.metrics|
        invariant AddCounters(counters, r.key, r.observedAt, r.capture, r.metrics)
                  == AddCounters(history, r.key, r.observedAt, r.capture, r.metrics[i..])
        invariant Tables() == old(Tables())
      {
        var k := CounterKey(r.key, r.metrics[i].name, r.observedAt);
        var o := Observation(r.metrics[i].value, r.capture);
        assert r.metrics[i..][1..] == r.metrics[i + 1..];
        if k in history && history[k] != o {
          return Some(CounterConflict);
        }
        history := history[k := o];
      }
      records := records[r.key := r];
      counters := history;
      return None;
    }

    method PutRow(row: Row) returns (refusal: Option<Refusal>)
      modifies this`rows
      ensures refusal == if row.capture in captures then None else Some(MissingReference)
      ensures rows == if refusal.None? then Upsert(old(rows), row) else old(rows)
    {
      if row.capture !in captures {
        return Some(MissingReference);
      }
      rows := Upsert(rows, row);
      return None;
    }

    method SetTask(state: TaskState)
      modifies this`task
      ensures task == Some(state)
    {
      task := Some(state);
    }

    method Transition(target: JobState) returns (refusal: Option<Refusal>)
      modifies this`job
      ensures refusal == if target in AllowedTransitions(old(job)) then None else Some(InvalidTransition)
      ensures job == if refusal.None? then target else old(job)
    {
      if target !in AllowedTransitions(job) {
        return Some(InvalidTransition);
      }
      job := target;
      return None;
    }

    method RecordFailure(f: Failure)
      modifies this`failures
      ensures failures == old(failures) + [f]
    {
      failures := failures + [f];
    }
  }
}
