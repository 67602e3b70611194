/** Everything a capture job leaves on disk, and the single durable writes that
    change it. A crash keeps a prefix of the writes, so the theorems about
    recovery are theorems about prefixes of write lists. */
module Durable {
  import opened Basics
  import opened Storage

  datatype JobState = Planned | Running | Partial | Succeeded | Failed | Interrupted | Cancelled

  function AllowedTransitions(s: JobState): set<JobState> {
    match s
    case Planned => {Running, Cancelled}
    case Running => {Partial, Succeeded, Failed, Interrupted, Cancelled}
    case Partial => {Running, Succeeded, Failed, Cancelled}
    case Interrupted => {Running, Cancelled}
    case Succeeded | Failed | Cancelled => {}
  }

  predicate Terminal(s: JobState) { s in {Succeeded, Failed, Cancelled} }

  datatype TaskState = TaskRunning | TaskInterrupted | TaskSucceeded | TaskFailed

  /** One row of the checkpoint table: the next cursor, if there is one. */
  datatype Row = Row(number: nat, cursor: Option<string>, capture: CaptureId)

  /** A recorded failure; a browser stop names no capture. */
  datatype Failure = Failure(capture: Option<CaptureId>, class_: string)

  datatype Data = Data(files: map<CaptureId, Bytes>, tables: Tables, rows: seq<Row>)

  datatype Control = Control(task: Option<TaskState>, job: JobState, failures: seq<Failure>)

  datatype Disk = Disk(data: Data, control: Control)

  datatype DataOp =
    | WriteFile(id: CaptureId, raw: Bytes)
    | AddCapture(id: CaptureId, meta: Meta)
    | SaveRecord(record: Record)
    | PutRow(row: Row)

  datatype Op =
    | OnData(op: DataOp)
    | SetTask(state: TaskState)
    | Transition(target: JobState)
    | RecordFailure(failure: Failure)

  /** The rows in interaction order, with `row` inserted or replacing its number. */
  function Upsert(rows: seq<Row>, row: Row): (r: seq<Row>)
    ensures row in r
  {
    if rows == [] then [row]
    else
      var last := rows[|rows| - 1];
      if last.number < row.number then rows + [row]
      else if last.number == row.number then rows[..|rows| - 1] + [row]
      else Upsert(rows[..|rows| - 1], row) + [last]
  }

  function ApplyData(d: Data, op: DataOp): Result<Data, Refusal> {
    match op
    case WriteFile(id, raw) =>
      if id !in d.files then Ok(d.(files := d.files[id := raw]))
      else if d.files[id] == raw then Ok(d)
      else Err(FileConflict)
    case AddCapture(id, meta) =>
      (match AddMeta(d.tables.captures, id, meta)
       case Err(e) => Err(e)
       case Ok(captures) => Ok(d.(tables := d.tables.(captures := captures))))
    case SaveRecord(r) =>
      (match Save(d.tables, r)
       case Err(e) => Err(e)
       case Ok(tables) => Ok(d.(tables := tables)))
    case PutRow(row) =>
      if row.capture !in d.tables.captures then Err(MissingReference)
      else Ok(d.(rows := Upsert(d.rows, row)))
  }

  function Apply(d: Disk, op: Op): Result<Disk, Refusal> {
    match op
    case OnData(o) =>
      (match ApplyData(d.data, o)
       case Err(e) => Err(e)
       case Ok(data) => Ok(d.(data := data)))
    case SetTask(s) => Ok(d.(control := d.control.(task := Some(s))))
    case Transition(target) =>
      if target in AllowedTransitions(d.control.job) then Ok(d.(control := d.control.(job := target)))
      else Err(InvalidTransition)
    case RecordFailure(f) => Ok(d.(control := d.control.(failures := d.control.failures + [f])))
  }

  /** The disk after a list of writes; a refused write changes nothing. */
  function Land(d: Disk, ops: seq<Op>): Disk
    decreases |ops|
  {
    if ops == [] then d
    else Land(match Apply(d, ops[0]) case Ok(d') => d' case Err(_) => d, ops[1..])
  }

  /** How far a list of data writes gets before one is refused. */
  datatype Progress = Progress(done: nat, data: Data, refusal: Option<Refusal>)

  function Exec(d: Data, ops: seq<DataOp>): (p: Progress)
    ensures p.done <= |ops|
    ensures p.refusal.None? <==> p.done == |ops|
    decreases |ops|
  {
    if ops == [] then Progress(0, d, None)
    else
      match ApplyData(d, ops[0])
      case Err(e) => Progress(0, d, Some(e))
      case Ok(d') => var p := Exec(d', ops[1..]); p.(done := p.done + 1)
  }

  function Lift(ops: seq<DataOp>): seq<Op> {
    seq(|ops|, i requires 0 <= i < |ops| => OnData(ops[i]))
  }

  // --------------------------------------------------------- composition

  lemma {:induction false} LandSplit(d: Disk, a: seq<Op>, b: seq<Op>)
    ensures Land(d, a + b) == Land(Land(d, a), b)
    decreases |a|
  {
    if a == [] {
      assert a + b == b;
    } else {
      assert (a + b)[0] == a[0] && (a + b)[1..] == a[1..] + b;
      LandSplit(match Apply(d, a[0]) case Ok(d') => d' case Err(_) => d, a[1..], b);
    }
  }

  lemma {:induction false} ExecSplit(d: Data, a: seq<DataOp>, b: seq<DataOp>)
    ensures Exec(d, a).refusal.Some? ==> Exec(d, a + b) == Exec(d, a)
    ensures Exec(d, a).refusal.None? ==>
              Exec(d, a + b) == (var p := Exec(Exec(d, a).data, b); p.(done := p.done + |a|))
    decreases |a|
  {
    if a == [] {
      assert a + b == b;
    } else {
      assert (a + b)[0] == a[0] && (a + b)[1..] == a[1..] + b;
      match ApplyData(d, a[0])
      case Err(_) =>
      case Ok(d') => ExecSplit(d', a[1..], b);
    }
  }

  /** Every prefix up to the first refused write runs to its end. */
  lemma ExecPrefix(d: Data, ops: seq<DataOp>, i: nat)
    requires i <= Exec(d, ops).done
    ensures Exec(d, ops[..i]).refusal.None?
    ensures Exec(d, ops) == (var p := Exec(Exec(d, ops[..i]).data, ops[i..]); p.(done := p.done + i))
  {
    assert ops == ops[..i] + ops[i..];
    ExecSplit(d, ops[..i], ops[i..]);
  }

  lemma ExecOne(d: Data, op: DataOp)
    ensures ApplyData(d, op).Ok? ==> Exec(d, [op]) == Progress(1, ApplyData(d, op).value, None)
    ensures ApplyData(d, op).Err? ==> Exec(d, [op]) == Progress(0, d, Some(ApplyData(d, op).error))
  {
    hide ApplyData;
    if ApplyData(d, op).Ok? {
      assert Exec(ApplyData(d, op).value, []) == Progress(0, ApplyData(d, op).value, None);
    }
  }

  lemma ExecStep(d: Data, ops: seq<DataOp>, i: nat)
    requires i < |ops| && i <= Exec(d, ops).done
    ensures i < Exec(d, ops).done ==>
              ApplyData(Exec(d, ops[..i]).data, ops[i]) == Ok(Exec(d, ops[..i + 1]).data)
    ensures i == Exec(d, ops).done ==>
              && ApplyData(Exec(d, ops[..i]).data, ops[i]) == Err(Exec(d, ops).refusal.value)
              && Exec(d, ops).data == Exec(d, ops[..i]).data
  {
    hide ApplyData, Exec;
    var mid := Exec(d, ops[..i]).data;
    ExecPrefix(d, ops, i);
    if i < Exec(d, ops).done { ExecPrefix(d, ops, i + 1); }
    assert ops[..i + 1] == ops[..i] + [ops[i]];
    ExecSplit(d, ops[..i], [ops[i]]);
    ExecOne(mid, ops[i]);
    assert ops[i..] == [ops[i]] + ops[i + 1..];
    ExecSplit(mid, [ops[i]], ops[i + 1..]);
  }

  lemma {:induction false} LandLift(d: Disk, ops: seq<DataOp>)
    requires Exec(d.data, ops).refusal.None?
    ensures Land(d, Lift(ops)) == d.(data := Exec(d.data, ops).data)
    decreases |ops|
  {
    if ops != [] {
      assert Lift(ops)[1..] == Lift(ops[1..]);
      LandLift(d.(data := ApplyData(d.data, ops[0]).value), ops[1..]);
    }
  }

  // --------------------------------------------- re-processing is a no-op

  ghost predicate Absorbed(d: Data, op: DataOp) {
    ApplyData(d, op) == Ok(d)
  }

  /** `b` cannot undo `a`. */
  predicate Apart(a: DataOp, b: DataOp) {
    && (a.SaveRecord? && b.SaveRecord? ==> a.record.key != b.record.key)
    && !(a.PutRow? && b.PutRow?)
  }

  ghost predicate AllApart(ops: seq<DataOp>) {
    forall i, j | 0 <= i < j < |ops| :: Apart(ops[i], ops[j])
  }

  lemma {:induction false} UpsertAgain(rows: seq<Row>, row: Row)
    ensures Upsert(Upsert(rows, row), row) == Upsert(rows, row)
    decreases |rows|
  {
    if rows != [] {
      var front := rows[..|rows| - 1];
      var last := rows[|rows| - 1];
      var once := Upsert(rows, row);
      if last.number <= row.number {
        assert once == once[..|once| - 1] + [row];
      } else {
        assert once == Upsert(front, row) + [last];
        assert once[..|once| - 1] == Upsert(front, row) && once[|once| - 1] == last;
        UpsertAgain(front, row);
      }
    }
  }

  /** Row numbers rise. */
  predicate Numbered(rows: seq<Row>) {
    forall i, j | 0 <= i < j < |rows| :: rows[i].number < rows[j].number
  }

  /** The checkpoint table stays in order; a row replaces the one of its number and
      no other. */
  lemma {:induction false} UpsertInOrder(rows: seq<Row>, row: Row)
    requires Numbered(rows)
    ensures Numbered(Upsert(rows, row))
    ensures forall r :: r in Upsert(rows, row) <==> r == row || (r in rows && r.number != row.number)
    decreases |rows|
  {
    if rows != [] {
      var front, last := rows[..|rows| - 1], rows[|rows| - 1];
      assert rows == front + [last];
      assert forall r | r in front :: r.number < last.number;
      if row.number < last.number {
        UpsertInOrder(front, row);
        assert forall r | r in Upsert(front, row) :: r.number < last.number;
      }
    }
  }

  lemma {:induction false} AppliedIsAbsorbed(d: Data, op: DataOp)
    requires ApplyData(d, op).Ok?
    ensures Absorbed(ApplyData(d, op).value, op)
  {
    hide Save, Upsert, AddMeta;
    match op
    case WriteFile(_, _) =>
    case AddCapture(id, meta) => MetaTwice(d.tables.captures, id, meta);
    case SaveRecord(r) => SaveTwice(d.tables, r);
    case PutRow(row) => UpsertAgain(d.rows, row);
  }

  /** An absorbed save has its record and its counters in the tables. */
  lemma AbsorbedSave(t: Tables, r: Record)
    requires Save(t, r) == Ok(t)
    ensures r.key in t.records && t.records[r.key] == r && Counted(t, r)
    ensures r.capture in t.captures && forall p | p in r.parents :: p in t.records
  {
    assert t.records[r.key := r] == t.records;
    assert r.key in t.records[r.key := r];
    assert t.records[r.key := r][r.key] == r;
  }

  lemma StaysAbsorbed(d: Data, a: DataOp, b: DataOp)
    requires Absorbed(d, a) && ApplyData(d, b).Ok? && Apart(a, b)
    ensures Absorbed(ApplyData(d, b).value, a)
  {
    if a.SaveRecord? {
      AbsorbedSave(d.tables, a.record);
      SaveAgain(ApplyData(d, b).value.tables, a.record);
    }
  }

  /** After `i` writes of a page, its first `i` writes are all absorbed. */
  lemma {:induction false} DoneIsAbsorbed(d: Data, ops: seq<DataOp>, i: nat)
    requires AllApart(ops) && i <= Exec(d, ops).done
    ensures forall j | 0 <= j < i :: Absorbed(Exec(d, ops[..i]).data, ops[j])
  {
    if i > 0 {
      DoneIsAbsorbed(d, ops, i - 1);
      ExecStep(d, ops, i - 1);
      var before := Exec(d, ops[..i - 1]).data;
      forall j | 0 <= j < i ensures Absorbed(Exec(d, ops[..i]).data, ops[j]) {
        if j == i - 1 {
          AppliedIsAbsorbed(before, ops[j]);
        } else {
          StaysAbsorbed(before, ops[j], ops[i - 1]);
        }
      }
    }
  }

  lemma {:induction false} AbsorbedRun(d: Data, ops: seq<DataOp>)
    requires forall j | 0 <= j < |ops| :: Absorbed(d, ops[j])
    ensures Exec(d, ops) == Progress(|ops|, d, None)
    decreases |ops|
  {
    if ops != [] {
      assert Absorbed(d, ops[0]);
      forall j | 0 <= j < |ops[1..]| ensures Absorbed(d, ops[1..][j]) {
        assert ops[1..][j] == ops[j + 1];
      }
      AbsorbedRun(d, ops[1..]);
    }
  }

  lemma RedonePrefix(d: Data, ops: seq<DataOp>, i: nat, j: nat)
    requires AllApart(ops) && i <= Exec(d, ops).done && j <= i
    ensures Exec(Exec(d, ops[..i]).data, ops[..j]) == Progress(j, Exec(d, ops[..i]).data, None)
  {
    hide ApplyData, Exec;
    DoneIsAbsorbed(d, ops, i);
    AbsorbedRun(Exec(d, ops[..i]).data, ops[..j]);
  }

  /** Starting a page again after any number of its writes ends as if it had
      never stopped. */
  lemma {:induction false} Restart(d: Data, ops: seq<DataOp>, i: nat)
    requires AllApart(ops) && i <= Exec(d, ops).done
    ensures Exec(Exec(d, ops[..i]).data, ops) == Exec(d, ops)
  {
    hide ApplyData, Exec;
    var mid := Exec(d, ops[..i]).data;
    RedonePrefix(d, ops, i, i);
    ExecPrefix(d, ops, i);
    assert ops == ops[..i] + ops[i..];
    ExecSplit(mid, ops[..i], ops[i..]);
  }

  /** No prefix of the second try goes back behind the first. */
  lemma {:induction false} RestartPrefix(d: Data, ops: seq<DataOp>, i: nat, j: nat)
    requires AllApart(ops) && i <= Exec(d, ops).done && j <= Exec(d, ops).done
    ensures Exec(Exec(d, ops[..i]).data, ops[..j]).data == Exec(d, ops[..Max(i, j)]).data
  {
    hide ApplyData, Exec;
    if j <= i {
      RedonePrefix(d, ops, i, j);
    } else {
      var head := ops[..j];
      ExecPrefix(d, ops, j);
      assert head[..i] == ops[..i];
      forall a, b | 0 <= a < b < |head| ensures Apart(head[a], head[b]) {
        assert Apart(ops[a], ops[b]);
      }
      Restart(d, head, i);
    }
  }

  /** Told by where a job goes: it is interrupted or left partial only while running,
      ends well or badly from running or partial, runs from any state it can be taken
      up in, and is cancelled from any state that has not ended. */
  lemma {:induction false} AllowedMoves(s: JobState, t: JobState)
    ensures t in AllowedTransitions(s)
            <==> match t
                 case Planned => false
                 case Running => s == Planned || s == Interrupted || s == Partial
                 case Partial => s == Running
                 case Interrupted => s == Running
                 case Succeeded => s == Running || s == Partial
                 case Failed => s == Running || s == Partial
                 case Cancelled => s != Succeeded && s != Failed && s != Cancelled
  {
    match s case Planned => case Running => case Partial => case Succeeded => case Failed => case Interrupted =>
    case Cancelled =>
  }

  /** No list of writes takes a job out of a terminal state. */
  lemma {:induction false} TerminalForever(d: Disk, ops: seq<Op>)
    requires Terminal(d.control.job)
    ensures Land(d, ops).control.job == d.control.job
    decreases |ops|
  {
    if ops != [] {
      TerminalForever(match Apply(d, ops[0]) case Ok(d') => d' case Err(_) => d, ops[1..]);
    }
  }
}
