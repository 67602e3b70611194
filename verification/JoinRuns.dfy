/** The join branch of a run, and its clicks over any sequence of runs. */
module JoinRuns {
  import opened Basics
  import opened Strings
  import opened TextOrder
  import opened Join

  // ---------------------------------------------------------------- the guard

  datatype GuardError = BlankGroup | AccountStop | NoMatch | AlreadyAttempted | BudgetSpent

  /** Reserves actions: one in all, and never the same Group again. */
  class JoinActionGuard {
    var attempted: set<string>
    var reserved: nat

    constructor (groups: set<string>)
      ensures attempted == (set g | g in groups :: Strip(g)) && reserved == 0
    {
      attempted, reserved := set g | g in groups :: Strip(g), 0;
    }

    method Reserve(group: string, matchesKeyword: bool, matchesLocation: bool, stop: Option<string>)
      returns (r: Result<string, GuardError>)
      modifies this
      ensures r.Ok? <==>
                && Strip(group) != "" && stop.None? && matchesKeyword && matchesLocation
                && Strip(group) !in old(attempted) && old(reserved) < 1
      ensures r.Ok? ==>
                r.value == Strip(group) && attempted == old(attempted) + {r.value} && reserved == old(reserved) + 1
      ensures r.Err? ==> attempted == old(attempted) && reserved == old(reserved)
    {
      var normalized := Strip(group);
      if normalized == "" {
        return Err(BlankGroup);
      }
      if stop.Some? {
        return Err(AccountStop);
      }
      if !matchesKeyword || !matchesLocation {
        return Err(NoMatch);
      }
      if normalized in attempted {
        return Err(AlreadyAttempted);
      }
      if reserved >= 1 {
        return Err(BudgetSpent);
      }
      attempted := attempted + {normalized};
      reserved := reserved + 1;
      return Ok(normalized);
    }
  }

  // -------------------------------------------------------------- resolution

  datatype Found = Found(id: string, hit: Hit)

  /** Lower volume first, then rank, then Group. */
  predicate Quieter(a: Hit, b: Hit)
    requires a.activity.Some? && b.activity.Some?
  {
    a.activity.value < b.activity.value || (a.activity.value == b.activity.value &&
    (a.rank < b.rank || (a.rank == b.rank && Before(a.group, b.group))))
  }

  function Measured(found: seq<Found>): seq<Found> {
    if found == [] then []
    else (if found[0].hit.activity.Some? then [found[0]] else []) + Measured(found[1..])
  }

  /** The first of the quietest. */
  function Quietest(found: seq<Found>): (r: Found)
    requires found != [] && forall f | f in found :: f.hit.activity.Some?
    ensures r in found && forall f | f in found :: !Quieter(f.hit, r.hit)
  {
    if |found| == 1 then
      NotBeforeItself(found[0].hit.group);
      found[0]
    else
      var rest := Quietest(found[1..]);
      QuieterOrder(rest.hit, found[0].hit, found[1..]);
      NotBeforeItself(found[0].hit.group);
      if Quieter(rest.hit, found[0].hit) then rest else found[0]
  }

  lemma QuieterOrder(rest: Hit, first: Hit, found: seq<Found>)
    requires rest.activity.Some? && first.activity.Some? && forall f | f in found :: f.hit.activity.Some?
    requires forall f | f in found :: !Quieter(f.hit, rest)
    ensures !Quieter(rest, first) ==> forall f | f in found :: !Quieter(f.hit, first)
    ensures Quieter(rest, first) ==> !Quieter(first, rest)
  {
    forall f | f in found && Quieter(f.hit, first) ensures Quieter(rest, first) {
      if f.hit.group != rest.group { OneComesFirst(f.hit.group, rest.group); }
      if Before(rest.group, f.hit.group) && Before(f.hit.group, first.group) {
        BeforeChains(rest.group, f.hit.group, first.group);
      }
    }
    if Before(rest.group, first.group) && Before(first.group, rest.group) {
      BeforeChains(rest.group, first.group, rest.group);
      NotBeforeItself(rest.group);
    }
  }

  predicate Named(f: Found, selector: string) {
    selector == f.id || selector == f.hit.group || selector == Decimal(f.hit.rank)
  }

  function Matching(found: seq<Found>, selector: string): seq<Found> {
    if found == [] then []
    else (if Named(found[0], selector) then [found[0]] else []) + Matching(found[1..], selector)
  }

  lemma {:induction false} MeasuredAre(found: seq<Found>)
    ensures forall f :: f in Measured(found) <==> f in found && f.hit.activity.Some?
  {
    if found != [] { MeasuredAre(found[1..]); }
  }

  lemma {:induction false} MatchingAre(found: seq<Found>, selector: string)
    ensures forall f :: f in Matching(found, selector) <==> f in found && Named(f, selector)
  {
    if found != [] { MatchingAre(found[1..], selector); }
  }

  /** The candidate a selector names, or nothing when it is not exactly one. */
  function Resolve(found: seq<Found>, selector: string): (r: Option<Found>)
    ensures r.Some? ==> r.value in found
  {
    MeasuredAre(found);
    MatchingAre(found, selector);
    if selector == "lowest-volume" then
      if Measured(found) == [] then (if |found| == 1 then Some(found[0]) else None)
      else Some(Quietest(Measured(found)))
    else if |Matching(found, selector)| == 1 then Some(Matching(found, selector)[0])
    else None
  }

  // --------------------------------------------------------------- the run

  /** What the browser does with the reserved Join. */
  datatype Outcome =
    | StopsBefore
    | StopsAfter
    | BreaksBefore
    | BreaksAfter
    | Answers(state: TransitionState)

  /** One run in live-join mode: what discovery returned, and the outcome. */
  datatype Discovery = Discovery(campaign: string, found: seq<Found>, selector: string, outcome: Outcome)

  function AddOps(d: Discovery): seq<Op> {
    seq(|d.found|, i requires 0 <= i < |d.found| => Add(d.found[i].id, d.found[i].hit.(campaign := d.campaign)))
  }

  function WithMembership(found: seq<Found>, m: Membership): seq<Found> {
    if found == [] then []
    else (if found[0].hit.seen == m then [found[0]] else []) + WithMembership(found[1..], m)
  }

  /** Group identities that must never receive another click. */
  function Attempted(db: Db): set<string> {
    set t | t in db.transitions :: Strip(t.group)
  }

  function OutcomeOps(campaign: string, f: Found, outcome: Outcome): seq<Op> {
    match outcome
    case StopsBefore => [Complete(campaign, f.id, Stopped)]
    case StopsAfter => [Click(f.hit.group), Complete(campaign, f.id, Stopped)]
    case BreaksBefore => []
    case BreaksAfter => [Click(f.hit.group)]
    case Answers(state) =>
      [Click(f.hit.group), Complete(campaign, f.id, state)]
      + if state == Confirmed then [Choose(campaign, f.id)] else []
  }

  /** What follows discovery: a joined Group is selected; otherwise one joinable
      Group is reserved, durably, before it is clicked. */
  function TargetOps(db: Db, d: Discovery): seq<Op> {
    var joined := WithMembership(d.found, Joined);
    if joined != [] then
      match Resolve(joined, d.selector)
      case None => []
      case Some(f) => [Choose(d.campaign, f.id)]
    else
      match Resolve(WithMembership(d.found, JoinAvailable), d.selector)
      case None => []
      case Some(f) =>
        if Strip(f.hit.group) == "" || Strip(f.hit.group) in Attempted(db) then []
        else [Plan(d.campaign, f.id)] + OutcomeOps(d.campaign, f, d.outcome)
  }

  /** All steps of a run; the decisions read the tables once discovery is in. */
  function RunOps(w: World, d: Discovery): seq<Op> {
    AddOps(d) + TargetOps(Land(w, AddOps(d)).db, d)
  }

  /** A run cut short after some of its steps. */
  datatype Run = Run(discovery: Discovery, kept: nat)

  function AfterRun(w: World, r: Run): World {
    var ops := RunOps(w, r.discovery);
    Land(w, ops[..Min(r.kept, |ops|)])
  }

  function AfterRuns(w: World, runs: seq<Run>): World
    decreases |runs|
  {
    if runs == [] then w else AfterRun(AfterRuns(w, runs[..|runs| - 1]), runs[|runs| - 1])
  }

  // ------------------------------------------------------- clicks are reserved

  /** No Group was clicked twice, and every clicked one is durably reserved. */
  ghost predicate Reserved(w: World) {
    && (forall i, j | 0 <= i < j < |w.clicks| :: Strip(w.clicks[i]) != Strip(w.clicks[j]))
    && (forall g | g in w.clicks :: Strip(g) in Attempted(w.db))
  }

  lemma AttemptedGrows(w: World, op: Op)
    requires Apply(w, op).Ok?
    ensures Attempted(w.db) <= Attempted(Apply(w, op).value.db)
  {
    hide Strip;
    var db' := Apply(w, op).value.db;
    forall t | t in w.db.transitions ensures Strip(t.group) in Attempted(db') {
      var i :| 0 <= i < |w.db.transitions| && w.db.transitions[i] == t;
      assert db'.transitions[i].group == t.group && db'.transitions[i] in db'.transitions;
    }
  }

  /** Steps that click only Groups reserved and not clicked before. */
  ghost predicate Guarded(w: World, ops: seq<Op>)
    decreases |ops|
  {
    ops == [] ||
    match Apply(w, ops[0])
    case Err(_) => true
    case Ok(next) =>
      && (ops[0].Click? ==>
            Strip(ops[0].group) in Attempted(w.db) && forall g | g in w.clicks :: Strip(g) != Strip(ops[0].group))
      && Guarded(next, ops[1..])
  }

  lemma {:induction false} GuardedKeeps(w: World, ops: seq<Op>, n: nat)
    requires Guarded(w, ops) && Reserved(w) && n <= |ops|
    ensures Reserved(Land(w, ops[..n]))
    decreases |ops|
  {
    hide Apply, Strip, Attempted;
    if n > 0 && Apply(w, ops[0]).Ok? {
      var next := Apply(w, ops[0]).value;
      AttemptedGrows(w, ops[0]);
      ClicksGrow(w, ops[0]);
      assert ops[..n][1..] == ops[1..][..n - 1];
      GuardedKeeps(next, ops[1..], n - 1);
    }
  }

  lemma ClicksGrow(w: World, op: Op)
    requires Apply(w, op).Ok?
    ensures Apply(w, op).value.clicks == w.clicks + if op.Click? then [op.group] else []
    ensures op.Click? ==> Apply(w, op).value.db == w.db
  {
    hide PlanJoin, AddHit, CompleteJoin, Select;
  }

  predicate Clickless(ops: seq<Op>) {
    forall op | op in ops :: !op.Click?
  }

  lemma {:induction false} ClicklessGuarded(w: World, ops: seq<Op>)
    requires Clickless(ops)
    ensures Guarded(w, ops)
    decreases |ops|
  {
    hide Apply, Attempted, Strip;
    if ops != [] && Apply(w, ops[0]).Ok? {
      assert ops[0] in ops;
      ClicklessGuarded(Apply(w, ops[0]).value, ops[1..]);
    }
  }

  lemma {:induction false} ClicklessLand(w: World, ops: seq<Op>)
    requires Clickless(ops)
    ensures Land(w, ops).clicks == w.clicks && Attempted(w.db) <= Attempted(Land(w, ops).db)
    decreases |ops|
  {
    hide Apply, Attempted, Strip;
    if ops != [] && Apply(w, ops[0]).Ok? {
      assert ops[0] in ops;
      ClicksGrow(w, ops[0]);
      AttemptedGrows(w, ops[0]);
      ClicklessLand(Apply(w, ops[0]).value, ops[1..]);
    }
  }

  /** No step of the list fails. */
  predicate Goes(w: World, ops: seq<Op>)
    decreases |ops|
  {
    ops == [] || (Apply(w, ops[0]).Ok? && Goes(Apply(w, ops[0]).value, ops[1..]))
  }

  /** Steps without clicks, then guarded ones. */
  lemma {:induction false} ThenGuarded(w: World, a: seq<Op>, b: seq<Op>)
    requires Clickless(a) && (Goes(w, a) ==> Guarded(Land(w, a), b))
    ensures Guarded(w, a + b)
    decreases |a|
  {
    hide Apply, Attempted, Strip;
    if a == [] {
      assert a + b == b;
    } else if Apply(w, a[0]).Ok? {
      assert (a + b)[0] == a[0] && (a + b)[1..] == a[1..] + b && a[0] in a;
      ThenGuarded(Apply(w, a[0]).value, a[1..], b);
    }
  }

  /** The reservation is durable before the click, and names the clicked Group. */
  lemma {:induction false} PlanGuards(w: World, campaign: string, f: Found, outcome: Outcome)
    requires Reserved(w) && Strip(f.hit.group) !in Attempted(w.db)
    requires InCampaign(w.db, campaign, f.id) ==> w.db.hits[f.id].group == f.hit.group
    ensures Guarded(w, [Plan(campaign, f.id)] + OutcomeOps(campaign, f, outcome))
  {
    hide Strip;
    var plan := Plan(campaign, f.id);
    var rest := OutcomeOps(campaign, f, outcome);
    var ops := [plan] + rest;
    assert ops[1..] == rest;
    if Apply(w, plan).Ok? {
      var next := Apply(w, plan).value;
      var t := Transition(campaign, f.id, f.hit.group, Planned);
      assert t in next.db.transitions && Strip(t.group) in Attempted(next.db);
      OutcomeGuarded(next, campaign, f, outcome);
    }
  }

  lemma OutcomeGuarded(w: World, campaign: string, f: Found, outcome: Outcome)
    requires Strip(f.hit.group) in Attempted(w.db) && forall g | g in w.clicks :: Strip(g) != Strip(f.hit.group)
    ensures Guarded(w, OutcomeOps(campaign, f, outcome))
  {
    hide Strip, Attempted, Apply;
    var ops := OutcomeOps(campaign, f, outcome);
    if ops != [] && ops[0].Click? {
      if Apply(w, ops[0]).Ok? { ClicklessGuarded(Apply(w, ops[0]).value, ops[1..]); }
    } else {
      ClicklessGuarded(w, ops);
    }
  }

  lemma {:induction false} WithMembershipAre(found: seq<Found>, m: Membership)
    ensures forall f :: f in WithMembership(found, m) <==> f in found && f.hit.seen == m
  {
    if found != [] { WithMembershipAre(found[1..], m); }
  }

  /** Once discovery is stored, every found Group is there under its identity. */
  lemma {:induction false} FoundStored(w: World, ops: seq<Op>, f: string, h: Hit)
    requires Goes(w, ops) && (Add(f, h) in ops || (f in w.db.hits && w.db.hits[f].group == h.group))
    requires forall op | op in ops :: op.Add?
    ensures var db := Land(w, ops).db;
            f in db.hits && db.hits[f].group == h.group
    decreases |ops|
  {
    hide Strip;
    if ops != [] {
      assert ops[0] in ops && ops[0].Add?;
      var next := Apply(w, ops[0]).value;
      FoundStored(next, ops[1..], f, h);
    }
  }

  lemma AddsAreAdds(d: Discovery, f: Found)
    ensures forall op | op in AddOps(d) :: op.Add?
    ensures f in d.found ==> Add(f.id, f.hit.(campaign := d.campaign)) in AddOps(d)
  {
    if f in d.found {
      var i :| 0 <= i < |d.found| && d.found[i] == f;
      assert AddOps(d)[i] == Add(f.id, f.hit.(campaign := d.campaign));
    }
  }

  lemma TargetGuarded(w: World, d: Discovery)
    requires Reserved(w) && forall f | f in d.found :: f.id in w.db.hits && w.db.hits[f.id].group == f.hit.group
    ensures Guarded(w, TargetOps(w.db, d))
  {
    hide Strip, Attempted, Resolve, Reserved, Guarded;
    WithMembershipAre(d.found, JoinAvailable);
    var joined := WithMembership(d.found, Joined);
    var f := Resolve(WithMembership(d.found, JoinAvailable), d.selector);
    if joined == [] && f.Some? && Strip(f.value.hit.group) != "" && Strip(f.value.hit.group) !in Attempted(w.db) {
      PlanGuards(w, d.campaign, f.value, d.outcome);
    } else {
      ClicklessGuarded(w, TargetOps(w.db, d));
    }
  }

  lemma RunGuarded(w: World, d: Discovery)
    requires Reserved(w)
    ensures Guarded(w, RunOps(w, d))
  {
    hide Strip, Attempted, Reserved, Guarded, TargetOps, AddOps, Goes;
    AddsAreAdds(d, Found("", Hit("", "", 0, None, Joined, Joined)));
    var adds := AddOps(d);
    var w1 := Land(w, adds);
    if Goes(w, adds) {
      ClicklessLand(w, adds);
      StillReserved(w, w1);
      forall f | f in d.found ensures f.id in w1.db.hits && w1.db.hits[f.id].group == f.hit.group {
        AddsAreAdds(d, f);
        FoundStored(w, adds, f.id, f.hit.(campaign := d.campaign));
      }
      TargetGuarded(w1, d);
    }
    ThenGuarded(w, adds, TargetOps(w1.db, d));
  }

  lemma StillReserved(w: World, w': World)
    requires Reserved(w) && w'.clicks == w.clicks && Attempted(w.db) <= Attempted(w'.db)
    ensures Reserved(w')
  {
    hide Strip, Attempted;
  }

  // --------------------------------------------------------- one click a run

  predicate OneClick(ops: seq<Op>) {
    forall i, j | 0 <= i < j < |ops| :: !(ops[i].Click? && ops[j].Click?)
  }

  lemma {:induction false} OneClickLands(w: World, ops: seq<Op>)
    requires OneClick(ops)
    ensures |Land(w, ops).clicks| <= |w.clicks| + 1
    decreases |ops|
  {
    hide Apply;
    if ops != [] && Apply(w, ops[0]).Ok? {
      var next := Apply(w, ops[0]).value;
      ClicksGrow(w, ops[0]);
      if ops[0].Click? {
        ClicklessLand(next, ops[1..]);
      } else {
        OneClickLands(next, ops[1..]);
      }
    }
  }

  lemma OutcomeOneClick(campaign: string, f: Found, outcome: Outcome)
    ensures OneClick(OutcomeOps(campaign, f, outcome))
  {
  }

  lemma ClicklessFirst(a: seq<Op>, b: seq<Op>)
    requires Clickless(a) && OneClick(b)
    ensures OneClick(a + b)
  {
    forall i, j | 0 <= i < j < |a + b| ensures !((a + b)[i].Click? && (a + b)[j].Click?) {
      if i < |a| {
        assert (a + b)[i] in a;
      } else {
        assert (a + b)[i] == b[i - |a|] && (a + b)[j] == b[j - |a|];
      }
    }
  }

  lemma RunOneClick(w: World, d: Discovery)
    ensures OneClick(RunOps(w, d))
  {
    hide Strip, Attempted, Resolve, AddOps, OneClick, OutcomeOps;
    AddsAreAdds(d, Found("", Hit("", "", 0, None, Joined, Joined)));
    var db := Land(w, AddOps(d)).db;
    var f := Resolve(WithMembership(d.found, JoinAvailable), d.selector);
    if f.Some? {
      OutcomeOneClick(d.campaign, f.value, d.outcome);
      ClicklessFirst([Plan(d.campaign, f.value.id)], OutcomeOps(d.campaign, f.value, d.outcome));
    }
    ShortOneClick(TargetOps(db, d));
    ClicklessFirst(AddOps(d), TargetOps(db, d));
  }

  lemma ShortOneClick(ops: seq<Op>)
    ensures |ops| < 2 ==> OneClick(ops)
  {
  }

  ghost predicate Fresh(w: World) {
    w == World(Db(map[], [], []), [])
  }

  /** Over any sequence of runs, each cut short anywhere, a Group is clicked at
      most once. */
  lemma {:induction false} EachGroupClickedOnce(w: World, runs: seq<Run>)
    requires Fresh(w)
    ensures Reserved(AfterRuns(w, runs)) && Sound(AfterRuns(w, runs).db)
    ensures forall i, j | 0 <= i < j < |AfterRuns(w, runs).clicks| ::
              AfterRuns(w, runs).clicks[i] != AfterRuns(w, runs).clicks[j]
    decreases |runs|
  {
    hide Strip, Attempted, Guarded, Sound, RunOps;
    if runs == [] {
      assert Sound(w.db) by { FreshSound(w); }
    } else {
      var n := |runs| - 1;
      EachGroupClickedOnce(w, runs[..n]);
      var before := AfterRuns(w, runs[..n]);
      var ops := RunOps(before, runs[n].discovery);
      RunGuarded(before, runs[n].discovery);
      GuardedKeeps(before, ops, Min(runs[n].kept, |ops|));
      EveryStoreIsSound(before, ops[..Min(runs[n].kept, |ops|)]);
    }
  }

  lemma FreshSound(w: World)
    requires Fresh(w)
    ensures Sound(w.db)
  {
  }

  /** And every run clicks at most once. */
  lemma {:induction false} EachRunClicksOnce(w: World, r: Run)
    ensures |AfterRun(w, r).clicks| <= |w.clicks| + 1
  {
    hide RunOps;
    RunOneClick(w, r.discovery);
    OneClickLands(w, RunOps(w, r.discovery)[..Min(r.kept, |RunOps(w, r.discovery)|)]);
  }

  /** A run clicks only when discovery showed no joined Group, and then only a
      Group it showed as joinable and that no run has attempted. */
  lemma {:induction false} ClicksOnlyWhenNeeded(w: World, d: Discovery, g: string)
    requires Click(g) in RunOps(w, d)
    ensures forall f | f in d.found :: f.hit.seen != Joined
    ensures exists f | f in d.found :: f.hit.seen == JoinAvailable && f.hit.group == g
    ensures Strip(g) !in Attempted(Land(w, AddOps(d)).db)
  {
    hide Strip, Attempted, Resolve, AddOps, WithMembership, Land;
    AddsAreAdds(d, Found("", Hit("", "", 0, None, Joined, Joined)));
    WithMembershipAre(d.found, Joined);
    WithMembershipAre(d.found, JoinAvailable);
    var db := Land(w, AddOps(d)).db;
    InLater(AddOps(d), TargetOps(db, d), Click(g));
    TargetClicks(db, d, g);
  }

  lemma InLater(a: seq<Op>, b: seq<Op>, op: Op)
    requires op in a + b && op !in a
    ensures op in b
  {
  }

  lemma TargetClicks(db: Db, d: Discovery, g: string)
    requires Click(g) in TargetOps(db, d)
    ensures WithMembership(d.found, Joined) == []
    ensures var f := Resolve(WithMembership(d.found, JoinAvailable), d.selector);
            f.Some? && f.value.hit.group == g && Strip(g) !in Attempted(db)
  {
    hide Strip, Attempted, Resolve, WithMembership;
    var f := Resolve(WithMembership(d.found, JoinAvailable), d.selector);
    if f.Some? {
      var ops := OutcomeOps(d.campaign, f.value, d.outcome);
      assert forall op | op in ops && op.Click? :: op.group == f.value.hit.group;
    }
  }
}
