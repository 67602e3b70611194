/** What a run left alone achieves: its click, its transition, its selection. */
module JoinOutcomes {
  import opened Basics
  import opened Strings
  import opened TextOrder
  import opened Join
  import opened JoinRuns
  import opened JoinService

  // ------------------------------------------------------------ resolution

  predicate NamedBy(f: Found, selector: string) {
    selector == f.id || selector == f.hit.group || selector == Decimal(f.hit.rank)
  }

  lemma {:induction false} MatchingOne(found: seq<Found>, selector: string, i: nat)
    requires i < |found| && NamedBy(found[i], selector)
    ensures |Matching(found, selector)| >= 1
    ensures |Matching(found, selector)| == 1 <==> forall j | 0 <= j < |found| && j != i :: !NamedBy(found[j], selector)
    ensures |Matching(found, selector)| == 1 ==> Matching(found, selector)[0] == found[i]
  {
    var rest := found[1..];
    if i == 0 {
      MatchingNone(rest, selector);
      assert forall j | 0 <= j < |rest| :: rest[j] == found[j + 1];
    } else {
      MatchingOne(rest, selector, i - 1);
      assert forall j | 0 <= j < |rest| :: rest[j] == found[j + 1];
      assert rest[i - 1] == found[i];
      if NamedBy(found[0], selector) {
        assert |Matching(found, selector)| >= 2;
      } else {
        assert Matching(found, selector) == Matching(rest, selector);
      }
    }
  }

  lemma {:induction false} MatchingNone(found: seq<Found>, selector: string)
    ensures Matching(found, selector) == [] <==> forall j | 0 <= j < |found| :: !NamedBy(found[j], selector)
  {
    if found != [] {
      MatchingNone(found[1..], selector);
      assert forall j | 0 <= j < |found| - 1 :: found[1..][j] == found[j + 1];
    }
  }

  /** A selector other than `lowest-volume` names the one candidate with that
      identifier, Group or rank, and nothing when there is none or more. */
  lemma {:induction false} SelectorNames(found: seq<Found>, selector: string)
    requires selector != "lowest-volume"
    ensures forall i | 0 <= i < |found| && NamedBy(found[i], selector) ::
              Resolve(found, selector)
              == if forall j | 0 <= j < |found| && j != i :: !NamedBy(found[j], selector) then Some(found[i]) else None
    ensures (forall i | 0 <= i < |found| :: !NamedBy(found[i], selector)) ==> Resolve(found, selector) == None
  {
    hide Matching;
    MatchingNone(found, selector);
    forall i | 0 <= i < |found| && NamedBy(found[i], selector)
      ensures Resolve(found, selector)
              == if forall j | 0 <= j < |found| && j != i :: !NamedBy(found[j], selector) then Some(found[i]) else None
    {
      MatchingOne(found, selector, i);
    }
  }

  /** The automatic choice: the least activity, then rank, then Group, among those
      whose activity is shown; without any, the only candidate there is. */
  lemma {:induction false} LowestVolume(found: seq<Found>)
    ensures var r := Resolve(found, "lowest-volume");
            if forall f | f in found :: f.hit.activity == None then
              r == if |found| == 1 then Some(found[0]) else None
            else
              && r.Some? && r.value in found && r.value.hit.activity.Some?
              && var h := r.value.hit;
                 forall g | g in found && g.hit.activity.Some? ::
                   || h.activity.value < g.hit.activity.value
                   || (h.activity.value == g.hit.activity.value && h.rank < g.hit.rank)
                   || (h.activity.value == g.hit.activity.value && h.rank == g.hit.rank
                       && !Before(g.hit.group, h.group))
  {
    hide Before, Measured, Matching;
    MeasuredAre(found);
    if Measured(found) != [] { assert Measured(found)[0] in found; }
  }

  // ------------------------------------------------------- what is discovered

  /** Discovery shows new candidates, each under its own identifier, no Group twice
      in the campaign. */
  ghost predicate News(db: Db, d: Discovery) {
    && (forall f | f in d.found :: f.id !in db.hits)
    && (forall i, j | 0 <= i < j < |d.found| ::
          d.found[i].id != d.found[j].id && d.found[i].hit.group != d.found[j].hit.group)
    && (forall f, h | f in d.found && h in db.hits && db.hits[h].campaign == d.campaign ::
          db.hits[h].group != f.hit.group)
  }

  /** The candidates as they are stored. */
  ghost predicate Stored(db: Db, e: Db, d: Discovery, n: nat)
    requires n <= |d.found|
  {
    && e.transitions == db.transitions && e.selections == db.selections
    && (forall h :: h in e.hits <==> h in db.hits || exists i | 0 <= i < n :: d.found[i].id == h)
    && (forall h | h in db.hits :: h in e.hits && e.hits[h] == db.hits[h])
    && (forall i | 0 <= i < n :: d.found[i].id in e.hits
          && e.hits[d.found[i].id]
             == d.found[i].hit.(campaign := d.campaign, membership := d.found[i].hit.seen))
  }

  lemma {:induction false} AddsStore(w: World, d: Discovery, n: nat)
    requires News(w.db, d) && n <= |d.found|
    ensures Goes(w, AddOps(d)[..n])
    ensures var e := Land(w, AddOps(d)[..n]);
            e.clicks == w.clicks && Stored(w.db, e.db, d, n)
  {
    hide Goes, Land;
    if n == 0 {
      assert AddOps(d)[..0] == [];
      NothingLands(w);
    } else {
      AddsStore(w, d, n - 1);
      assert AddOps(d)[..n] == AddOps(d)[..n - 1] + [AddOps(d)[n - 1]];
      LandMore(w, AddOps(d)[..n - 1], AddOps(d)[n - 1]);
      var before := Land(w, AddOps(d)[..n - 1]);
      AddStores(w, d, n, before);
    }
  }

  lemma NothingLands(w: World)
    ensures Goes(w, []) && Land(w, []) == w
  {
  }

  lemma AddStores(w: World, d: Discovery, n: nat, before: World)
    requires News(w.db, d) && 0 < n <= |d.found| && Stored(w.db, before.db, d, n - 1) && before.clicks == w.clicks
    ensures var r := Apply(before, AddOps(d)[n - 1]);
            r.Ok? && r.value.clicks == w.clicks && Stored(w.db, r.value.db, d, n)
  {
    hide News, Stored, AddHit;
    var f := d.found[n - 1];
    NewToAll(w.db, before.db, d, n);
    var h := f.hit.(campaign := d.campaign, membership := f.hit.seen);
    AddHitGoes(before.db, f.id, h);
    StoredMore(w.db, before.db, d, n, h);
  }

  lemma NewToAll(db: Db, before: Db, d: Discovery, n: nat)
    requires News(db, d) && 0 < n <= |d.found| && Stored(db, before, d, n - 1)
    ensures d.found[n - 1].id !in before.hits
    ensures forall k | k in before.hits ::
              !(before.hits[k].campaign == d.campaign && before.hits[k].group == d.found[n - 1].hit.group)
  {
    var f := d.found[n - 1];
    assert f in d.found;
    forall k | k in before.hits
      ensures !(before.hits[k].campaign == d.campaign && before.hits[k].group == f.hit.group)
    {
      if k in db.hits {
        assert before.hits[k] == db.hits[k];
      } else {
        var i :| 0 <= i < n - 1 && d.found[i].id == k;
        assert before.hits[d.found[i].id].group == d.found[i].hit.group;
      }
    }
  }

  lemma AddHitGoes(db: Db, id: string, h: Hit)
    requires id !in db.hits
    requires forall k | k in db.hits :: !(db.hits[k].campaign == h.campaign && db.hits[k].group == h.group)
    ensures AddHit(db, id, h) == Ok(db.(hits := db.hits[id := h]))
  {
  }

  lemma StoredMore(db: Db, before: Db, d: Discovery, n: nat, h: Hit)
    requires News(db, d) && 0 < n <= |d.found| && Stored(db, before, d, n - 1)
    requires d.found[n - 1].id !in before.hits
    requires h == d.found[n - 1].hit.(campaign := d.campaign, membership := d.found[n - 1].hit.seen)
    ensures Stored(db, before.(hits := before.hits[d.found[n - 1].id := h]), d, n)
  {
    hide News;
    var id := d.found[n - 1].id;
    var hits := before.hits[id := h];
    forall i | 0 <= i < n
      ensures d.found[i].id in hits
      ensures hits[d.found[i].id] == d.found[i].hit.(campaign := d.campaign, membership := d.found[i].hit.seen)
    {
      if i < n - 1 { assert d.found[i].id in before.hits; }
    }
  }

  // ---------------------------------------------------------- what is achieved

  /** Two steps that go through, and what follows them. */
  lemma LandStep(w: World, op: Op, rest: seq<Op>)
    ensures Land(w, [op] + rest) == if Apply(w, op).Ok? then Land(Apply(w, op).value, rest) else w
  {
    hide Apply;
    assert ([op] + rest)[1..] == rest;
  }

  lemma LandLast(w: World, op: Op)
    ensures Land(w, [op]) == if Apply(w, op).Ok? then Apply(w, op).value else w
  {
    hide Apply;
    assert [op][1..] == [];
    if Apply(w, op).Ok? { NothingLands(Apply(w, op).value); }
  }

  lemma RunLands(w: World, d: Discovery)
    requires News(w.db, d)
    ensures var stored := Land(w, AddOps(d));
            && stored.clicks == w.clicks && Stored(w.db, stored.db, d, |d.found|)
            && Land(w, RunOps(w, d)) == Land(stored, TargetOps(stored.db, d))
  {
    hide Land, Goes, TargetOps, Stored;
    AddsStore(w, d, |d.found|);
    assert AddOps(d)[..|d.found|] == AddOps(d);
    LandThen(w, AddOps(d), TargetOps(Land(w, AddOps(d)).db, d));
  }

  /** The Group f may be clicked: nobody has reserved it, and the campaign has no
      transition. */
  ghost predicate Free(db: Db, campaign: string, f: Found) {
    && Strip(f.hit.group) != ""
    && forall t | t in db.transitions :: Strip(t.group) != Strip(f.hit.group) && t.campaign != campaign && t.hit != f.id
  }

  /** What the outcome leaves of the transition; nothing ends it when the browser
      breaks. */
  function LeftAs(outcome: Outcome): TransitionState {
    match outcome
    case StopsBefore => Stopped
    case StopsAfter => Stopped
    case BreaksBefore => Planned
    case BreaksAfter => Planned
    case Answers(state) => state
  }

  predicate ClickedIn(outcome: Outcome) {
    outcome.StopsAfter? || outcome.BreaksAfter? || outcome.Answers?
  }

  lemma PlanGoes(w: World, d: Discovery, f: Found)
    requires f.id in w.db.hits && w.db.hits[f.id].campaign == d.campaign && w.db.hits[f.id].group == f.hit.group
    requires w.db.hits[f.id].membership == JoinAvailable && Free(w.db, d.campaign, f)
    ensures Apply(w, Plan(d.campaign, f.id))
            == Ok(World(w.db.(transitions := w.db.transitions + [Transition(d.campaign, f.id, f.hit.group, Planned)]),
                        w.clicks))
  {
    hide Strip;
  }

  /** The planned transition, now last, takes the state; the others stay. */
  lemma CompleteGoes(w: World, ts: seq<Transition>, d: Discovery, f: Found, state: TransitionState)
    requires f.id in w.db.hits && w.db.hits[f.id].campaign == d.campaign
    requires w.db.transitions == ts + [Transition(d.campaign, f.id, f.hit.group, Planned)]
    requires forall t | t in ts :: t.campaign != d.campaign
    ensures Apply(w, Complete(d.campaign, f.id, state))
            == Ok(World(Db(if state == Confirmed then w.db.hits[f.id := w.db.hits[f.id].(membership := Joined)]
                           else w.db.hits,
                           ts + [Transition(d.campaign, f.id, f.hit.group, state)], w.db.selections),
                        w.clicks))
  {
    var planned := Transition(d.campaign, f.id, f.hit.group, Planned);
    assert planned in w.db.transitions;
    forall i | 0 <= i < |ts| ensures !Awaiting(w.db.transitions[i], d.campaign, f.id) {
      assert ts[i] in ts;
    }
    assert Completed(w.db.transitions, d.campaign, f.id, state)
           == ts + [Transition(d.campaign, f.id, f.hit.group, state)];
  }

  /** A run whose discovery is new, shows no joined Group and resolves to a free one
      clicks that Group when the browser gets so far, records exactly one transition
      with the outcome, and selects the Group when it is confirmed. */
  lemma {:induction false} JoinAchieves(w: World, d: Discovery, f: Found)
    requires News(w.db, d) && (forall g | g in d.found :: g.hit.seen != Joined)
    requires Resolve(WithMembership(d.found, JoinAvailable), d.selector) == Some(f) && Free(w.db, d.campaign, f)
    ensures var e := Land(w, RunOps(w, d));
            && (d.outcome.StopsBefore? || d.outcome.BreaksBefore? ==> e.clicks == w.clicks)
            && (d.outcome.StopsAfter? || d.outcome.BreaksAfter? || d.outcome.Answers? ==>
                  e.clicks == w.clicks + [f.hit.group])
            && (d.outcome.StopsBefore? || d.outcome.StopsAfter? ==>
                  e.db.transitions == w.db.transitions + [Transition(d.campaign, f.id, f.hit.group, Stopped)])
            && (d.outcome.BreaksBefore? || d.outcome.BreaksAfter? ==>
                  e.db.transitions == w.db.transitions + [Transition(d.campaign, f.id, f.hit.group, Planned)])
            && (d.outcome.Answers? ==>
                  e.db.transitions == w.db.transitions + [Transition(d.campaign, f.id, f.hit.group, d.outcome.state)])
            && f.id in e.db.hits
            && e.db.hits[f.id].membership == (if d.outcome == Answers(Confirmed) then Joined else JoinAvailable)
            && (d.outcome == Answers(Confirmed) && (forall s | s in w.db.selections :: s.campaign != d.campaign) ==>
                  e.db.selections == w.db.selections + [Selection(d.campaign, f.id)])
            && (d.outcome != Answers(Confirmed) ==> e.db.selections == w.db.selections)
  {
    hide Strip, Resolve, Land, Apply, Goes, AddOps, Attempted, News;
    RunLands(w, d);
    WithMembershipAre(d.found, Joined);
    WithMembershipAre(d.found, JoinAvailable);
    FirstIsIn(WithMembership(d.found, Joined));
    var stored := Land(w, AddOps(d));
    var k :| 0 <= k < |d.found| && d.found[k] == f;
    NotAttempted(stored.db, f, d.campaign);
    var plan := Plan(d.campaign, f.id);
    var ops := OutcomeOps(d.campaign, f, d.outcome);
    PlanGoes(stored, d, f);
    LandStep(stored, plan, ops);
    var planned := Apply(stored, plan).value;
    NothingLands(planned);
    OutcomeLands(planned, w.db.transitions, d, f);
  }

  lemma NotAttempted(db: Db, f: Found, campaign: string)
    requires Free(db, campaign, f)
    ensures Strip(f.hit.group) !in Attempted(db)
  {
    hide Strip;
  }

  /** From the reservation on. */
  lemma OutcomeLands(w: World, ts: seq<Transition>, d: Discovery, f: Found)
    requires f.id in w.db.hits && w.db.hits[f.id].campaign == d.campaign
    requires w.db.hits[f.id].membership == JoinAvailable
    requires w.db.transitions == ts + [Transition(d.campaign, f.id, f.hit.group, Planned)]
    requires forall t | t in ts :: t.campaign != d.campaign
    ensures var e := Land(w, OutcomeOps(d.campaign, f, d.outcome));
            && e.clicks == w.clicks + (if ClickedIn(d.outcome) then [f.hit.group] else [])
            && e.db.transitions == ts + [Transition(d.campaign, f.id, f.hit.group, LeftAs(d.outcome))]
            && f.id in e.db.hits
            && e.db.hits[f.id].membership == (if d.outcome == Answers(Confirmed) then Joined else JoinAvailable)
            && (d.outcome == Answers(Confirmed) && (forall s | s in w.db.selections :: s.campaign != d.campaign) ==>
                  e.db.selections == w.db.selections + [Selection(d.campaign, f.id)])
            && (d.outcome != Answers(Confirmed) ==> e.db.selections == w.db.selections)
  {
    hide Land, CompleteJoin, PlanJoin, AddHit;
    var click := Click(f.hit.group);
    var clicked := World(w.db, w.clicks + [f.hit.group]);
    assert Apply(w, click) == Ok(clicked);
    match d.outcome
    case StopsBefore =>
      CompleteGoes(w, ts, d, f, Stopped);
      LandLast(w, Complete(d.campaign, f.id, Stopped));
    case StopsAfter =>
      CompleteGoes(clicked, ts, d, f, Stopped);
      LandStep(w, click, [Complete(d.campaign, f.id, Stopped)]);
      assert OutcomeOps(d.campaign, f, d.outcome) == [click] + [Complete(d.campaign, f.id, Stopped)];
      LandLast(clicked, Complete(d.campaign, f.id, Stopped));
    case BreaksBefore => NothingLands(w);
    case BreaksAfter => LandLast(w, click);
    case Answers(state) =>
      var complete := Complete(d.campaign, f.id, state);
      var choose := if state == Confirmed then [Choose(d.campaign, f.id)] else [];
      CompleteGoes(clicked, ts, d, f, state);
      LandStep(w, click, [complete] + choose);
      assert OutcomeOps(d.campaign, f, d.outcome) == [click] + ([complete] + choose);
      LandStep(clicked, complete, choose);
      var completed := Apply(clicked, complete).value;
      NothingLands(completed);
      LandLast(completed, Choose(d.campaign, f.id));
  }

  /** A discovery that resolves to a joined Group selects it and clicks nothing. */
  lemma {:induction false} JoinedIsSelected(w: World, d: Discovery, f: Found)
    requires News(w.db, d) && (exists g | g in d.found :: g.hit.seen == Joined)
    requires Resolve(WithMembership(d.found, Joined), d.selector) == Some(f)
    requires forall s | s in w.db.selections :: s.campaign != d.campaign
    ensures var e := Land(w, RunOps(w, d));
            && e.clicks == w.clicks && e.db.transitions == w.db.transitions
            && e.db.selections == w.db.selections + [Selection(d.campaign, f.id)]
  {
    hide Strip, Resolve, Land, Goes, AddOps, Attempted, News, Apply;
    RunLands(w, d);
    WithMembershipAre(d.found, Joined);
    var stored := Land(w, AddOps(d));
    var k :| 0 <= k < |d.found| && d.found[k] == f;
    LandLast(stored, Choose(d.campaign, f.id));
    ChooseGoes(stored, d, f);
  }

  lemma ChooseGoes(w: World, d: Discovery, f: Found)
    requires f.id in w.db.hits && w.db.hits[f.id].campaign == d.campaign && w.db.hits[f.id].membership == Joined
    requires forall s | s in w.db.selections :: s.campaign != d.campaign
    ensures Apply(w, Choose(d.campaign, f.id))
            == Ok(World(w.db.(selections := w.db.selections + [Selection(d.campaign, f.id)]), w.clicks))
  {
  }

  /** When nothing resolves, or what resolves is taken, only discovery is stored. */
  lemma {:induction false} NothingToJoin(w: World, d: Discovery)
    requires News(w.db, d)
    requires
      var joined := WithMembership(d.found, Joined);
      var open := Resolve(WithMembership(d.found, JoinAvailable), d.selector);
      if joined != [] then Resolve(joined, d.selector) == None
      else open == None || Strip(open.value.hit.group) == ""
           || exists t | t in w.db.transitions :: Strip(t.group) == Strip(open.value.hit.group)
    ensures var e := Land(w, RunOps(w, d));
            e.clicks == w.clicks && e.db.transitions == w.db.transitions && e.db.selections == w.db.selections
  {
    hide Strip, Resolve, Land, Goes, AddOps, News;
    RunLands(w, d);
    NothingLands(Land(w, AddOps(d)));
  }
}
