/** The simple cursor loop, and how the resumable loop relates to it. */
module Pagination {
  import opened Basics
  import opened Durable
  import opened Capture
  import opened Recovery
  import opened CrashSafety
  import opened Convergence
  import opened ReachableStates

  datatype Ending = Complete | LimitExceeded | LoopDetected

  /** The cursors fetched, the cursors checkpointed with their numbers, and how
      pagination ended. */
  datatype Trace = Trace(fetched: seq<Option<string>>, checkpoints: seq<(string, nat)>, ending: Ending)

  type Links = Option<string> -> Option<string>

  function Paginate(next: Links, maxPages: int, cursor: Option<string>, seen: set<string>, done: nat): Trace
    decreases maxPages - done
  {
    match next(cursor)
    case None => Trace([cursor], [], Complete)
    case Some(c) =>
      if done + 1 >= maxPages then Trace([cursor], [], LimitExceeded)
      else if c in seen then Trace([cursor], [], LoopDetected)
      else
        var rest := Paginate(next, maxPages, Some(c), seen + {c}, done + 1);
        Trace([cursor] + rest.fetched, [(c, done + 1)] + rest.checkpoints, rest.ending)
  }

  function Seeds(initial: Option<string>): set<string> {
    match initial case None => {} case Some(c) => {c}
  }

  /** The trace still to come when `t` has been recorded of the whole. */
  ghost predicate Continues(whole: Trace, fetched: seq<Option<string>>, checkpoints: seq<(string, nat)>, t: Trace) {
    whole == Trace(fetched + t.fetched, checkpoints + t.checkpoints, t.ending)
  }

  lemma ContinuesStep(
    whole: Trace, fetched: seq<Option<string>>, checkpoints: seq<(string, nat)>,
    next: Links, maxPages: int, cursor: Option<string>, seen: set<string>)
    requires |fetched| < maxPages
    requires Continues(whole, fetched, checkpoints, Paginate(next, maxPages, cursor, seen, |fetched|))
    ensures if next(cursor).None? then whole == Trace(fetched + [cursor], checkpoints, Complete)
            else if |fetched| + 1 >= maxPages then whole == Trace(fetched + [cursor], checkpoints, LimitExceeded)
            else
              var c := next(cursor).value;
              if c in seen then whole == Trace(fetched + [cursor], checkpoints, LoopDetected)
              else
                Continues(whole, fetched + [cursor], checkpoints + [(c, |fetched| + 1)],
                          Paginate(next, maxPages, Some(c), seen + {c}, |fetched| + 1))
  {
    assert checkpoints + [] == checkpoints;
    if next(cursor).Some? && |fetched| + 1 < maxPages && next(cursor).value !in seen {
      var c := next(cursor).value;
      ContinuesMore(whole, fetched, checkpoints, cursor, (c, |fetched| + 1),
                    Paginate(next, maxPages, Some(c), seen + {c}, |fetched| + 1));
    }
  }

  lemma ContinuesMore(
    whole: Trace, fetched: seq<Option<string>>, checkpoints: seq<(string, nat)>,
    cursor: Option<string>, row: (string, nat), t: Trace)
    requires Continues(whole, fetched, checkpoints, Trace([cursor] + t.fetched, [row] + t.checkpoints, t.ending))
    ensures Continues(whole, fetched + [cursor], checkpoints + [row], t)
  {
    assert fetched + ([cursor] + t.fetched) == fetched + [cursor] + t.fetched;
    assert checkpoints + ([row] + t.checkpoints) == checkpoints + [row] + t.checkpoints;
  }

  /** The loop: a bad bound is refused, nothing else is fetched or recorded. */
  method PaginatePages(next: Links, maxPages: int, initial: Option<string>) returns (t: Option<Trace>)
    ensures t == if maxPages <= 0 then None else Some(Paginate(next, maxPages, initial, Seeds(initial), 0))
  {
    hide Continues;
    if maxPages <= 0 {
      return None;
    }
    var cursor := initial;
    var seen := if initial.Some? then {initial.value} else {};
    var fetched: seq<Option<string>>, checkpoints: seq<(string, nat)> := [], [];
    ghost var whole := Paginate(next, maxPages, initial, Seeds(initial), 0);
    StartsWhole(whole);
    while true
      invariant |fetched| < maxPages
      invariant Continues(whole, fetched, checkpoints, Paginate(next, maxPages, cursor, seen, |fetched|))
      decreases maxPages - |fetched|
    {
      ContinuesStep(whole, fetched, checkpoints, next, maxPages, cursor, seen);
      fetched := fetched + [cursor];
      match next(cursor) {
        case None => return Some(Trace(fetched, checkpoints, Complete));
        case Some(c) =>
          if |fetched| >= maxPages {
            return Some(Trace(fetched, checkpoints, LimitExceeded));
          }
          if c in seen {
            return Some(Trace(fetched, checkpoints, LoopDetected));
          }
          checkpoints := checkpoints + [(c, |fetched|)];
          seen := seen + {c};
          cursor := Some(c);
      }
    }
  }

  lemma StartsWhole(t: Trace)
    ensures Continues(t, [], [], t)
  {
    assert [] + t.fetched == t.fetched && [] + t.checkpoints == t.checkpoints;
  }

  /** The cursors of a trace's checkpoints before place `n`. */
  predicate Recorded(t: Trace, n: nat, c: string)
    requires n <= |t.checkpoints|
  {
    exists i | 0 <= i < n :: t.checkpoints[i].0 == c
  }

  /** What a trace is, without the loop: it follows the links, records each
      cursor before fetching it, never records one twice, stays inside the
      bound, and ends for the first reason there is. */
  ghost predicate Follows(next: Links, maxPages: int, cursor: Option<string>, seen: set<string>, done: nat, t: Trace) {
    var n := |t.checkpoints|;
    && |t.fetched| == n + 1 <= maxPages - done
    && t.fetched[0] == cursor
    && (forall i | 0 <= i < n ::
          && t.checkpoints[i].1 == done + i + 1
          && next(t.fetched[i]) == Some(t.checkpoints[i].0)
          && t.fetched[i + 1] == Some(t.checkpoints[i].0)
          && t.checkpoints[i].0 !in seen
          && !Recorded(t, i, t.checkpoints[i].0))
    && t.ending == (if next(t.fetched[n]).None? then Complete
                    else if n + 1 == maxPages - done then LimitExceeded
                    else LoopDetected)
    && (t.ending == LoopDetected ==>
          var c := next(t.fetched[n]).value; c in seen || Recorded(t, n, c))
  }

  lemma {:induction false} PaginateFollows(
    next: Links, maxPages: int, cursor: Option<string>, seen: set<string>, done: nat)
    requires done < maxPages
    ensures Follows(next, maxPages, cursor, seen, done, Paginate(next, maxPages, cursor, seen, done))
    decreases maxPages - done
  {
    var t := Paginate(next, maxPages, cursor, seen, done);
    if next(cursor).Some? && done + 1 < maxPages && next(cursor).value !in seen {
      var c := next(cursor).value;
      var rest := Paginate(next, maxPages, Some(c), seen + {c}, done + 1);
      PaginateFollows(next, maxPages, Some(c), seen + {c}, done + 1);
      var n := |t.checkpoints|;
      forall i | 0 <= i < n
        ensures && t.checkpoints[i].1 == done + i + 1
                && next(t.fetched[i]) == Some(t.checkpoints[i].0)
                && t.fetched[i + 1] == Some(t.checkpoints[i].0)
                && t.checkpoints[i].0 !in seen
                && !Recorded(t, i, t.checkpoints[i].0)
      {
        if i > 0 {
          assert t.checkpoints[i] == rest.checkpoints[i - 1];
          forall j | 0 <= j < i ensures t.checkpoints[j].0 != t.checkpoints[i].0 {
            if j > 0 {
              assert t.checkpoints[j] == rest.checkpoints[j - 1];
              assert !Recorded(rest, i - 1, rest.checkpoints[i - 1].0);
            }
          }
        }
      }
      assert t.fetched[n] == rest.fetched[n - 1];
      if t.ending == LoopDetected {
        var last := next(t.fetched[n]).value;
        if last == c {
          assert t.checkpoints[0].0 == c;
        } else if last !in seen {
          var i :| 0 <= i < |rest.checkpoints| && rest.checkpoints[i].0 == last;
          assert t.checkpoints[i + 1].0 == last;
        }
      }
    }
  }

  lemma {:induction false} FollowsAlike(
    next: Links, maxPages: int, cursor: Option<string>, seen: set<string>, done: nat, s: Trace, t: Trace, k: nat)
    requires Follows(next, maxPages, cursor, seen, done, s) && Follows(next, maxPages, cursor, seen, done, t)
    requires k <= |s.checkpoints| && k <= |t.checkpoints|
    ensures s.fetched[k] == t.fetched[k]
    ensures forall i | 0 <= i < k :: s.fetched[i] == t.fetched[i] && s.checkpoints[i] == t.checkpoints[i]
  {
    if k > 0 { FollowsAlike(next, maxPages, cursor, seen, done, s, t, k - 1); }
  }

  /** Only one trace fits. */
  lemma {:induction false} FollowsOnce(
    next: Links, maxPages: int, cursor: Option<string>, seen: set<string>, done: nat, s: Trace, t: Trace)
    requires Follows(next, maxPages, cursor, seen, done, s) && Follows(next, maxPages, cursor, seen, done, t)
    ensures s == t
    decreases |s.checkpoints| > |t.checkpoints|
  {
    if |s.checkpoints| > |t.checkpoints| {
      FollowsOnce(next, maxPages, cursor, seen, done, t, s);
      return;
    }
    var k := |s.checkpoints|;
    FollowsAlike(next, maxPages, cursor, seen, done, s, t, k);
    if k < |t.checkpoints| {
      SameRecorded(s, t, k, t.checkpoints[k].0);
      assert false;
    }
  }

  lemma SameRecorded(s: Trace, t: Trace, k: nat, c: string)
    requires k <= |s.checkpoints| && k <= |t.checkpoints|
    requires forall i | 0 <= i < k :: s.checkpoints[i] == t.checkpoints[i]
    ensures Recorded(s, k, c) <==> Recorded(t, k, c)
  {
    if Recorded(s, k, c) {
      var i :| 0 <= i < k && s.checkpoints[i].0 == c;
      assert t.checkpoints[i].0 == c;
    }
    if Recorded(t, k, c) {
      var i :| 0 <= i < k && t.checkpoints[i].0 == c;
      assert s.checkpoints[i].0 == c;
    }
  }

  /** Pagination fetches no cursor twice, and detects a loop exactly when the last
      page leads back to a cursor it has fetched. */
  lemma {:induction false} FetchesOnce(next: Links, maxPages: int, initial: Option<string>)
    requires maxPages > 0
    ensures var t := Paginate(next, maxPages, initial, Seeds(initial), 0);
            && t.fetched != [] && t.fetched[0] == initial
            && (forall i, j | 0 <= i < j < |t.fetched| :: t.fetched[i] != t.fetched[j])
            && (t.ending == LoopDetected
                <==> next(t.fetched[|t.fetched| - 1]).Some? && |t.fetched| < maxPages
                     && next(t.fetched[|t.fetched| - 1]) in t.fetched)
  {
    var t := Paginate(next, maxPages, initial, Seeds(initial), 0);
    PaginateFollows(next, maxPages, initial, Seeds(initial), 0);
    var n := |t.checkpoints|;
    forall i, j | 0 <= i < j < |t.fetched| ensures t.fetched[i] != t.fetched[j] {
      assert t.fetched[j] == Some(t.checkpoints[j - 1].0);
      assert !Recorded(t, j - 1, t.checkpoints[j - 1].0);
      if i > 0 { assert t.fetched[i] == Some(t.checkpoints[i - 1].0); }
    }
    var last := next(t.fetched[n]);
    if t.ending == LoopDetected && last.value !in Seeds(initial) {
      var i :| 0 <= i < n && t.checkpoints[i].0 == last.value;
      assert t.fetched[i + 1] == last;
    }
  }

  // -------------------------------------------------- what a seed forgets

  /** Seeding fewer seen cursors makes no difference exactly when no cursor the
      run records is a forgotten one. */
  lemma {:induction false} SeedsMatter(
    next: Links, maxPages: int, cursor: Option<string>, seeded: set<string>, seen: set<string>, done: nat)
    requires seeded <= seen && done < maxPages
    ensures var t := Paginate(next, maxPages, cursor, seeded, done);
            Paginate(next, maxPages, cursor, seen, done) == t
            <==> forall i | 0 <= i < |t.checkpoints| :: t.checkpoints[i].0 !in seen
    decreases maxPages - done
  {
    var t := Paginate(next, maxPages, cursor, seeded, done);
    var u := Paginate(next, maxPages, cursor, seen, done);
    PaginateFollows(next, maxPages, cursor, seeded, done);
    if next(cursor).Some? && done + 1 < maxPages && next(cursor).value !in seeded {
      var c := next(cursor).value;
      assert t.checkpoints[0].0 == c;
      if c !in seen {
        SeedsMatter(next, maxPages, Some(c), seeded + {c}, seen + {c}, done + 1);
        var rest := Paginate(next, maxPages, Some(c), seeded + {c}, done + 1);
        var rest' := Paginate(next, maxPages, Some(c), seen + {c}, done + 1);
        PaginateFollows(next, maxPages, Some(c), seeded + {c}, done + 1);
        assert t.fetched[1..] == rest.fetched && t.checkpoints[1..] == rest.checkpoints;
        assert u.fetched[1..] == rest'.fetched && u.checkpoints[1..] == rest'.checkpoints;
        assert u == t <==> rest' == rest;
        forall i | 0 <= i < |rest.checkpoints| ensures rest.checkpoints[i].0 != c {
        }
        if forall i | 0 <= i < |t.checkpoints| :: t.checkpoints[i].0 !in seen {
          forall i | 0 <= i < |rest.checkpoints| ensures rest.checkpoints[i].0 !in seen + {c} {
            assert rest.checkpoints[i] == t.checkpoints[i + 1];
          }
        }
      }
    }
  }

  /** The cursor `n` links after the one the page at `cursor` names. */
  function Chain(next: Links, cursor: Option<string>, n: nat): Option<string> {
    if n == 0 then next(cursor)
    else
      var before := Chain(next, cursor, n - 1);
      if before.None? then None else next(before)
  }

  /** The links lead on `n` times inside the bound, to cursors that are neither
      seeded nor repeated. */
  ghost predicate LeadsOn(
    next: Links, maxPages: int, cursor: Option<string>, seeded: set<string>, done: nat, n: nat)
  {
    && done + n + 1 < maxPages
    && (forall i | 0 <= i <= n :: Chain(next, cursor, i).Some? && Chain(next, cursor, i).value !in seeded)
    && (forall i, j | 0 <= i < j <= n :: Chain(next, cursor, i) != Chain(next, cursor, j))
  }

  /** The cursors recorded are those the links lead on to, and no others. */
  lemma {:induction false} RecordsChain(
    next: Links, maxPages: int, cursor: Option<string>, seeded: set<string>, done: nat, t: Trace, n: nat)
    requires Follows(next, maxPages, cursor, seeded, done, t)
    ensures n < |t.checkpoints| <==> LeadsOn(next, maxPages, cursor, seeded, done, n)
    ensures n < |t.checkpoints| ==> Chain(next, cursor, n) == Some(t.checkpoints[n].0)
    ensures n <= |t.checkpoints| ==> Chain(next, cursor, n) == next(t.fetched[n])
  {
    if n > 0 {
      RecordsChain(next, maxPages, cursor, seeded, done, t, n - 1);
      forall i | 0 <= i < n ensures i < |t.checkpoints| ==> Chain(next, cursor, i) == Some(t.checkpoints[i].0) {
        RecordsChain(next, maxPages, cursor, seeded, done, t, i);
      }
    }
    if n < |t.checkpoints| {
      assert Chain(next, cursor, n) == next(t.fetched[n]) == Some(t.checkpoints[n].0);
      forall i | 0 <= i <= n ensures Chain(next, cursor, i) == Some(t.checkpoints[i].0) {
      }
      forall i, j | 0 <= i < j <= n ensures Chain(next, cursor, i) != Chain(next, cursor, j) {
        assert !Recorded(t, j, t.checkpoints[j].0);
      }
    } else if n == |t.checkpoints| {
      assert Chain(next, cursor, n) == next(t.fetched[n]);
      if t.ending == LoopDetected {
        var c := next(t.fetched[n]).value;
        if c !in seeded {
          var i :| 0 <= i < n && t.checkpoints[i].0 == c;
          assert Chain(next, cursor, i) == Some(c);
        }
      }
    } else if LeadsOn(next, maxPages, cursor, seeded, done, n) {
      assert LeadsOn(next, maxPages, cursor, seeded, done, n - 1);
    }
  }

  /** Seeding fewer seen cursors makes no difference exactly when the links never
      lead back to a forgotten one. */
  lemma {:induction false} ForgottenCursors(
    next: Links, maxPages: int, cursor: Option<string>, seeded: set<string>, seen: set<string>, done: nat)
    requires seeded <= seen && done < maxPages
    ensures Paginate(next, maxPages, cursor, seen, done) == Paginate(next, maxPages, cursor, seeded, done)
            <==> forall n: nat | LeadsOn(next, maxPages, cursor, seeded, done, n) ::
                   Chain(next, cursor, n).value !in seen
  {
    hide Paginate, Follows, LeadsOn;
    var t := Paginate(next, maxPages, cursor, seeded, done);
    SeedsMatter(next, maxPages, cursor, seeded, seen, done);
    PaginateFollows(next, maxPages, cursor, seeded, done);
    forall n: nat
      ensures n < |t.checkpoints| <==> LeadsOn(next, maxPages, cursor, seeded, done, n)
      ensures n < |t.checkpoints| ==> Chain(next, cursor, n) == Some(t.checkpoints[n].0)
    {
      RecordsChain(next, maxPages, cursor, seeded, done, t, n);
    }
  }

  /** Two pages that point at each other: a resume that remembers only its own
      cursor goes round once more before it notices. */
  lemma {:induction false} ForgottenExample()
    ensures var next: Links := c => if c == Some("a") then Some("b") else Some("a");
            && Paginate(next, 5, Some("b"), {"a", "b"}, 2) == Trace([Some("b")], [], LoopDetected)
            && Paginate(next, 5, Some("b"), {"b"}, 2).fetched == [Some("b"), Some("a")]
  {
    var next: Links := c => if c == Some("a") then Some("b") else Some("a");
    assert next(Some("b")) == Some("a") && next(Some("a")) == Some("b");
    assert Paginate(next, 5, Some("a"), {"b"} + {"a"}, 3) == Trace([Some("a")], [], LoopDetected);
  }

  // ----------------------------------------------------- the resumable loop

  /** The cursor each page names, as the simple loop sees the page source. */
  function LinksOf(w: World): Links {
    c => match w.fetch(c) case Stopped(_) => None case Rendered(_, next) => next
  }

  /** The cursors a list of writes checkpoints. */
  function Checkpointed(log: seq<Op>): seq<(string, nat)> {
    if log == [] then []
    else
      var last := log[|log| - 1];
      var front := Checkpointed(log[..|log| - 1]);
      if last.OnData? && last.op.PutRow? && last.op.row.cursor.Some? then
        front + [(last.op.row.cursor.value, last.op.row.number)]
      else front
  }

  lemma {:induction false} CheckpointedAppend(a: seq<Op>, b: seq<Op>)
    ensures Checkpointed(a + b) == Checkpointed(a) + Checkpointed(b)
    decreases |b|
  {
    if b == [] {
      assert a + b == a;
    } else {
      assert (a + b)[..|a + b| - 1] == a + b[..|b| - 1];
      CheckpointedAppend(a, b[..|b| - 1]);
    }
  }

  lemma {:induction false} NothingCheckpointed(log: seq<Op>)
    requires forall op | op in log :: !(op.OnData? && op.op.PutRow? && op.op.row.cursor.Some?)
    ensures Checkpointed(log) == []
  {
    if log != [] {
      assert log[|log| - 1] in log;
      NothingCheckpointed(log[..|log| - 1]);
    }
  }

  /** A page checkpoints the cursor it goes on to, and nothing when it is cut
      short or ends the run. */
  lemma PageCheckpoints(w: World, p: Position, page: Fetch, at: int, n: nat)
    requires WellParsed(w) && page.Rendered? && n <= |OpsAt(w, p, page, at)|
    ensures Checkpointed(Lift(OpsAt(w, p, page, at)[..n]))
            == if n == |OpsAt(w, p, page, at)| && Judge(w, p, page).Continue?
               then [(Judge(w, p, page).cursor, p.done + 1)] else []
  {
    hide OpsAt, BeforeRow, Judge, PageCapture, WellParsed;
    PageApart(w, p, page, at);
    var ops := OpsAt(w, p, page, at);
    var before := BeforeRow(w, p, page, at);
    var row := CheckpointOps(Judge(w, p, page), p.done + 1, PageCapture(w, p, page));
    if n <= |before| {
      assert ops[..n] == before[..n];
      NothingCheckpointed(Lift(before[..n]));
    } else {
      assert ops[..n] == before + row && |row| == 1;
      assert Lift(before + row) == Lift(before) + [OnData(row[0])];
      CheckpointedAppend(Lift(before), [OnData(row[0])]);
      NothingCheckpointed(Lift(before));
      assert [OnData(row[0])][..0] == [];
    }
  }

  /** The outcome that stands for an ending of the simple loop. */
  function OutcomeOf(e: Ending): Outcome {
    match e
    case Complete => Success
    case LimitExceeded => Failing("page_limit")
    case LoopDetected => Failing("pagination_loop")
  }

  lemma EndsCheckpointNothing(f: Failure)
    ensures Checkpointed(FailOps(f.capture, f.class_)) == []
    ensures Checkpointed(PAUSE_OPS) == [] && Checkpointed(SUCCESS_OPS) == []
  {
    NothingCheckpointed(FailOps(f.capture, f.class_));
    NothingCheckpointed(PAUSE_OPS);
    NothingCheckpointed(SUCCESS_OPS);
  }

  /** The cursor a turn of the loop checkpoints, if any. */
  lemma TurnCheckpoints(w: World, p: Position, clock: Clock)
    requires WellParsed(w) && w.fetch(p.cursor).Rendered?
    ensures var page := w.fetch(p.cursor);
            var e := Exec(p.data, PageOps(w, p, clock));
            Checkpointed(Lift(PageOps(w, p, clock)[..e.done]))
            == if e.refusal.None? && Judge(w, p, page).Continue? then [(Judge(w, p, page).cursor, p.done + 1)] else []
  {
    hide WellParsed, OpsAt, Exec, Judge;
    var page := w.fetch(p.cursor);
    var e := Exec(p.data, PageOps(w, p, clock));
    PageCheckpoints(w, p, page, TimeFor(p.data, PageCapture(w, p, page), clock(p.done + 1)), e.done);
  }

  /** The run ended as the trace does, having fetched and checkpointed the same. */
  ghost predicate Mirrors(run: Run, t: Trace) {
    run.fetched == t.fetched && Checkpointed(run.log) == t.checkpoints && run.outcome == OutcomeOf(t.ending)
  }

  /** The run was cut short: refused, paused, on a page it does not accept, or by
      a stop of the last page it fetched. */
  predicate CutShort(w: World, run: Run) {
    || run.outcome.Refused? || run.outcome == Paused || run.outcome == Failing("parser_drift")
    || (run.fetched != [] && w.fetch(run.fetched[|run.fetched| - 1]).Stopped?)
  }

  /** The run follows the trace, and mirrors it exactly when it is not cut short. */
  ghost predicate Shadows(w: World, run: Run, t: Trace) {
    && run.fetched != [] && run.fetched <= t.fetched && Checkpointed(run.log) <= t.checkpoints
    && (Mirrors(run, t) <==> !CutShort(w, run))
  }

  /** The turn ends the run: refused, done, failed, or paused. */
  predicate LastTurn(w: World, p: Position, clock: Clock, left: Option<nat>)
    requires w.fetch(p.cursor).Rendered?
  {
    Exec(p.data, PageOps(w, p, clock)).refusal.Some? || !Judge(w, p, w.fetch(p.cursor)).Continue? || left == Some(1)
  }

  lemma LastTurnShape(w: World, p: Position, clock: Clock, left: Option<nat>)
    requires WellParsed(w) && w.fetch(p.cursor).Rendered? && LastTurn(w, p, clock, left)
    ensures var run := Loop(w, p, clock, left);
            var verdict := Judge(w, p, w.fetch(p.cursor));
            var refused := Exec(p.data, PageOps(w, p, clock)).refusal;
            && run.fetched == [p.cursor]
            && Checkpointed(run.log)
               == (if refused.None? && verdict.Continue? then [(verdict.cursor, p.done + 1)] else [])
            && run.outcome == if refused.Some? then Refused(refused.value)
                              else if left == Some(1) && (verdict.Finish? || verdict.Continue?) then Paused
                              else if verdict.Finish? then Success
                              else Failing(FailureClass(verdict))
  {
    hide WellParsed, PageOps, Exec, Loop, Checkpointed, Lift, FailOps, Judge, PageCapture;
    LoopTurn(w, p, clock, left);
    TurnCheckpoints(w, p, clock);
    var page := w.fetch(p.cursor);
    var written := Lift(PageOps(w, p, clock)[..Exec(p.data, PageOps(w, p, clock)).done]);
    var failure := Failure(Some(PageCapture(w, p, page)), FailureClass(Judge(w, p, page)));
    EndsCheckpointNothing(failure);
    CheckpointedAppend(written, PAUSE_OPS);
    CheckpointedAppend(written, SUCCESS_OPS);
    CheckpointedAppend(written, FailOps(failure.capture, failure.class_));
  }

  /** The first cursor of a trace, or its end. */
  lemma TraceStart(w: World, p: Position)
    requires p.done < w.maxPages && w.fetch(p.cursor).Rendered? && Accepted(w, w.parse(w.fetch(p.cursor).raw))
    ensures var t := Paginate(LinksOf(w), w.maxPages, p.cursor, p.seen, p.done);
            match Judge(w, p, w.fetch(p.cursor))
            case Continue(next) => [p.cursor] <= t.fetched && [(next, p.done + 1)] <= t.checkpoints
            case Finish => t == Trace([p.cursor], [], Complete)
            case PageLimit => t == Trace([p.cursor], [], LimitExceeded)
            case CursorLoop => t == Trace([p.cursor], [], LoopDetected)
            case ParserDrift => false
  {
  }

  lemma LastTurnFollows(w: World, p: Position, clock: Clock, left: Option<nat>)
    requires WellParsed(w) && p.done < w.maxPages && w.fetch(p.cursor).Rendered? && LastTurn(w, p, clock, left)
    ensures Shadows(w, Loop(w, p, clock, left), Paginate(LinksOf(w), w.maxPages, p.cursor, p.seen, p.done))
  {
    hide WellParsed, PageOps, Exec, Loop, Checkpointed, Paginate;
    LastTurnShape(w, p, clock, left);
    PaginateFollows(LinksOf(w), w.maxPages, p.cursor, p.seen, p.done);
    if Accepted(w, w.parse(w.fetch(p.cursor).raw)) { TraceStart(w, p); }
  }

  /** One more turn in front of a run and in front of its trace. */
  lemma OneTurnMore(w: World, p: Position, run: Run, rest: Run, next: string)
    requires LinksOf(w)(p.cursor) == Some(next) && p.done + 1 < w.maxPages && next !in p.seen
    requires run.fetched == [p.cursor] + rest.fetched && run.outcome == rest.outcome
    requires Checkpointed(run.log) == [(next, p.done + 1)] + Checkpointed(rest.log)
    requires Shadows(w, rest, Paginate(LinksOf(w), w.maxPages, Some(next), p.seen + {next}, p.done + 1))
    ensures Shadows(w, run, Paginate(LinksOf(w), w.maxPages, p.cursor, p.seen, p.done))
  {
    hide LinksOf, Checkpointed;
    var t := Paginate(LinksOf(w), w.maxPages, p.cursor, p.seen, p.done);
    var t' := Paginate(LinksOf(w), w.maxPages, Some(next), p.seen + {next}, p.done + 1);
    assert t.fetched == [p.cursor] + t'.fetched && t.checkpoints == [(next, p.done + 1)] + t'.checkpoints;
    assert run.fetched[1..] == rest.fetched && t.fetched[1..] == t'.fetched;
    assert Checkpointed(run.log)[1..] == Checkpointed(rest.log) && t.checkpoints[1..] == t'.checkpoints;
  }

  /** The resumable loop fetches and checkpoints what the simple loop does, as
      far as it gets, and gets to the end unless it is cut short. */
  lemma {:induction false} LoopFollowsLinks(w: World, p: Position, clock: Clock, left: Option<nat>)
    requires WellParsed(w) && p.done < w.maxPages
    ensures Shadows(w, Loop(w, p, clock, left), Paginate(LinksOf(w), w.maxPages, p.cursor, p.seen, p.done))
    decreases w.maxPages - p.done
  {
    hide WellParsed, PageOps, Exec, Loop, Checkpointed, Lift, FailOps;
    var run := Loop(w, p, clock, left);
    var t := Paginate(LinksOf(w), w.maxPages, p.cursor, p.seen, p.done);
    var page := w.fetch(p.cursor);
    if page.Stopped? {
      StoppedTurn(w, p, clock, left);
      EndsCheckpointNothing(Failure(None, page.failure));
    } else {
      var e := Exec(p.data, PageOps(w, p, clock));
      var verdict := Judge(w, p, page);
      if LastTurn(w, p, clock, left) {
        LastTurnFollows(w, p, clock, left);
      } else {
        var rest := Loop(w, Advance(p, verdict.cursor, e.data), clock, Less(left));
        LoopTurn(w, p, clock, left);
        TurnCheckpoints(w, p, clock);
        LoopFollowsLinks(w, Advance(p, verdict.cursor, e.data), clock, Less(left));
        CheckpointedAppend(Lift(PageOps(w, p, clock)[..e.done]), rest.log);
        OneTurnMore(w, p, run, rest, verdict.cursor);
      }
    }
  }

  lemma TraceOfStart(w: World, data: Data)
    requires data.rows == []
    ensures Resume(data) == Start(data)
  {
  }

  /** A first attempt fetches and checkpoints a first part of what
      `paginate_pages` does over the same links; all of it, with the same ending,
      exactly when it is not cut short. */
  lemma {:induction false} FirstAttemptPaginates(w: World, d: Disk, clock: Clock, left: Option<nat>)
    requires WellParsed(w) && Created(d) && w.maxPages > 0 && left != Some(0)
    ensures var run := Attempt(w, d, clock, left);
            var t := Paginate(LinksOf(w), w.maxPages, None, {}, 0);
            && run.fetched <= t.fetched && Checkpointed(run.log) <= t.checkpoints
            && (Mirrors(run, t) <==> !CutShort(w, run))
  {
    hide WellParsed, Loop, Resume, Checkpointed;
    TraceOfStart(w, d.data);
    var run := Loop(w, Start(d.data), clock, left);
    LoopFollowsLinks(w, Start(d.data), clock, left);
    NothingCheckpointed(StartOps(d.control.job));
    CheckpointedAppend(StartOps(d.control.job), run.log);
  }

  /** The cursors stored in the checkpoint table. */
  function StoredCursors(rows: seq<Row>): seq<(string, nat)> {
    if rows == [] then []
    else
      var last := rows[|rows| - 1];
      var front := StoredCursors(rows[..|rows| - 1]);
      if last.cursor.Some? then front + [(last.cursor.value, last.number)] else front
  }

  lemma StoredAppend(rows: seq<Row>, row: Row)
    ensures StoredCursors(rows + [row])
            == StoredCursors(rows) + if row.cursor.Some? then [(row.cursor.value, row.number)] else []
  {
    assert (rows + [row])[..|rows|] == rows;
  }

  /** Each step of an uninterrupted run is a step of the simple loop. */
  lemma {:induction false} ReachFollowsLinks(w: World, d: Data, c: Clock, k: nat, b: Position)
    returns (fetched: seq<Option<string>>)
    requires WellParsed(w) && d.rows == [] && w.maxPages > 0 && Reach(w, Start(d), c, k) == Some(b)
    ensures |fetched| == b.done == k < w.maxPages
    ensures Continues(Paginate(LinksOf(w), w.maxPages, None, {}, 0), fetched, StoredCursors(b.data.rows),
                      Paginate(LinksOf(w), w.maxPages, b.cursor, b.seen, b.done))
  {
    hide WellParsed, Continues, Paginate, StepTo, Standing, StoredCursors, PageOps, Exec;
    if k == 0 {
      fetched := [];
      StoredNothing();
      StartsWhole(Paginate(LinksOf(w), w.maxPages, None, {}, 0));
    } else {
      var a := Reach(w, Start(d), c, k - 1).value;
      fetched := ReachFollowsLinks(w, d, c, k - 1, a);
      ReachStep(w, Start(d), c, k - 1, a);
      StartSettled(w, d);
      ReachSettled(w, Start(d), c, k - 1, a);
      StepLinks(w, a, c, b);
      var whole := Paginate(LinksOf(w), w.maxPages, None, {}, 0);
      ContinuesStep(whole, fetched, StoredCursors(a.data.rows), LinksOf(w), w.maxPages, a.cursor, a.seen);
      fetched := fetched + [a.cursor];
    }
  }

  lemma StoredNothing()
    ensures StoredCursors([]) == []
  {
  }

  lemma StepLinks(w: World, a: Position, c: Clock, b: Position)
    requires WellParsed(w) && Settled(w, a) && StepTo(w, a, c) == Some(b)
    ensures b.done == a.done + 1 < w.maxPages
    ensures var next := LinksOf(w)(a.cursor);
            && next.Some? && next.value !in a.seen && b.cursor == next && b.seen == a.seen + {next.value}
            && StoredCursors(b.data.rows) == StoredCursors(a.data.rows) + [(next.value, b.done)]
  {
    hide WellParsed, Standing, Exec, OpsAt, PageCapture, StoredCursors;
    var page := w.fetch(a.cursor);
    var id := PageCapture(w, a, page);
    RowsAfter(w, a, page, TimeFor(a.data, id, c(a.done + 1)));
    StoredAppend(a.data.rows, Row(a.done + 1, b.cursor, id));
  }

  /** Whatever crashes, pauses and resumes, the checkpoint table holds a first
      part of what the simple loop checkpoints over the same links. */
  lemma {:induction false} CheckpointsFollowLinks(w: World, d: Disk, tries: seq<Try>)
    requires WellParsed(w) && Created(d) && w.maxPages > 0
    ensures StoredCursors(After(w, d, tries).data.rows) <= Paginate(LinksOf(w), w.maxPages, None, {}, 0).checkpoints
  {
    hide Exec, PageOps, StepTo, EndOf, FailureAt, WellParsed, Standing, Reach, Paginate,
         StoredCursors, After;
    var m0 := CrashesLinearize(w, d, tries, []);
    var p := Start(d.data);
    var e := After(w, d, tries);
    var m := Normalise(w, p, e, m0);
    var b := Reach(w, p, m.clock, m.pages).value;
    StartSettled(w, d.data);
    ReachSettled(w, p, m.clock, m.pages, b);
    PartwayRows(w, b, m.clock, m.writes, e.data);
    var fetched := ReachFollowsLinks(w, d.data, m.clock, m.pages, b);
    if e.data.rows != b.data.rows {
      StoredAppend(b.data.rows, e.data.rows[|b.data.rows|]);
      assert StoredCursors(e.data.rows) == StoredCursors(b.data.rows);
    }
  }
}
