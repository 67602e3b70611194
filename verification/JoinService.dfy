/** Target preparation and the join branch of a run, step by step. */
module JoinService {
  import opened Basics
  import opened Strings
  import opened Join
  import opened JoinRuns

  class TargetPreparationService {
    var hits: map<string, Hit>
    var transitions: seq<Transition>
    var selections: seq<Selection>

    constructor ()
      ensures Tables() == Db(map[], [], [])
    {
      hits, transitions, selections := map[], [], [];
    }

    function Tables(): Db
      reads this
    {
      Db(hits, transitions, selections)
    }

    method AddCandidate(id: string, h: Hit) returns (error: Option<JoinError>)
      modifies this`hits
      ensures var r := AddHit(old(Tables()), id, h);
              && (r.Ok? ==> error == None && Tables() == r.value)
              && (r.Err? ==> error == Some(r.error) && Tables() == old(Tables()))
    {
      if id in hits || exists k | k in hits :: hits[k].campaign == h.campaign && hits[k].group == h.group {
        return Some(HitExists);
      }
      hits := hits[id := h];
      return None;
    }

    method PlanOnce(campaign: string, hit: string) returns (error: Option<JoinError>)
      modifies this`transitions
      ensures var r := PlanJoin(old(Tables()), campaign, hit);
              && (r.Ok? ==> error == None && Tables() == r.value)
              && (r.Err? ==> error == Some(r.error) && Tables() == old(Tables()))
    {
      if hit !in hits || hits[hit].campaign != campaign {
        return Some(NotInCampaign);
      }
      if hits[hit].membership != JoinAvailable {
        return Some(NotAvailable);
      }
      if exists t | t in transitions :: t.campaign == campaign || t.hit == hit {
        return Some(AlreadyPlanned);
      }
      transitions := transitions + [Transition(campaign, hit, hits[hit].group, Planned)];
      return None;
    }

    /** Updates the planned row, wherever it is, and counts the rows updated. */
    method RecordOutcome(campaign: string, hit: string, state: TransitionState) returns (error: Option<JoinError>)
      modifies this`hits, this`transitions
      ensures var r := CompleteJoin(old(Tables()), campaign, hit, state);
              && (r.Ok? ==> error == None && Tables() == r.value)
              && (r.Err? ==> error == Some(r.error) && Tables() == old(Tables()))
    {
      if hit !in hits || hits[hit].campaign != campaign {
        return Some(NotInCampaign);
      }
      var updated: seq<Transition> := [];
      var count := 0;
      ghost var done := Completed(transitions, campaign, hit, state);
      for i := 0 to |transitions|
        invariant updated == done[..i]
        invariant count > 0 <==> exists t | t in transitions[..i] :: Awaiting(t, campaign, hit)
      {
        var t := transitions[i];
        assert transitions[..i + 1] == transitions[..i] + [t];
        if Awaiting(t, campaign, hit) {
          updated := updated + [t.(state := state)];
          count := count + 1;
        } else {
          updated := updated + [t];
        }
      }
      assert transitions[..|transitions|] == transitions && done[..|transitions|] == done;
      if count == 0 {
        return Some(NotAwaiting);
      }
      transitions := updated;
      if state == Confirmed {
        hits := hits[hit := hits[hit].(membership := Joined)];
      }
      return None;
    }

    /** Group identities reserved by any run so far. */
    method AttemptedGroupIds() returns (groups: set<string>)
      ensures groups == set t | t in transitions :: t.group
    {
      groups := {};
      for i := 0 to |transitions|
        invariant groups == set t | t in transitions[..i] :: t.group
      {
        assert transitions[..i + 1] == transitions[..i] + [transitions[i]];
        groups := groups + {transitions[i].group};
      }
      assert transitions[..|transitions|] == transitions;
    }

    method SelectOne(campaign: string, hit: string) returns (error: Option<JoinError>)
      modifies this`selections
      ensures var r := Select(old(Tables()), campaign, hit);
              && (r.Ok? ==> error == None && Tables() == r.value)
              && (r.Err? ==> error == Some(r.error) && Tables() == old(Tables()))
    {
      if hit !in hits || hits[hit].campaign != campaign {
        return Some(NotInCampaign);
      }
      if hits[hit].membership != Joined {
        return Some(NotJoined);
      }
      for i := 0 to |selections|
        invariant forall s | s in selections[..i] :: s.campaign != campaign || s.hit != hit
      {
        assert selections[..i + 1] == selections[..i] + [selections[i]];
        if selections[i].campaign == campaign && selections[i].hit == hit {
          assert Selection(campaign, hit) == selections[i];
          return None;
        }
      }
      assert selections[..|selections|] == selections;
      if exists s | s in selections :: s.campaign == campaign {
        return Some(OtherSelected);
      }
      selections := selections + [Selection(campaign, hit)];
      return None;
    }
  }

  lemma {:induction false} LandMore(w: World, ops: seq<Op>, op: Op)
    requires Goes(w, ops)
    ensures Land(w, ops + [op]) == if Apply(Land(w, ops), op).Ok? then Apply(Land(w, ops), op).value else Land(w, ops)
    ensures Goes(w, ops + [op]) == Apply(Land(w, ops), op).Ok?
    decreases |ops|
  {
    hide Apply;
    if ops == [] {
      assert [] + [op] == [op] && [op][1..] == [];
    } else {
      assert (ops + [op])[0] == ops[0] && (ops + [op])[1..] == ops[1..] + [op];
      LandMore(Apply(w, ops[0]).value, ops[1..], op);
    }
  }

  /** Nothing happens after the step that fails. */
  lemma {:induction false} LandStops(w: World, a: seq<Op>, b: seq<Op>)
    requires !Goes(w, a)
    ensures Land(w, a + b) == Land(w, a)
    decreases |a|
  {
    hide Apply;
    if a != [] {
      assert (a + b)[0] == a[0] && (a + b)[1..] == a[1..] + b;
      if Apply(w, a[0]).Ok? { LandStops(Apply(w, a[0]).value, a[1..], b); }
    }
  }

  lemma {:induction false} LandThen(w: World, a: seq<Op>, b: seq<Op>)
    requires Goes(w, a)
    ensures Land(w, a + b) == Land(Land(w, a), b)
    decreases |a|
  {
    hide Apply;
    if a == [] {
      assert a + b == b;
    } else {
      assert (a + b)[0] == a[0] && (a + b)[1..] == a[1..] + b;
      LandThen(Apply(w, a[0]).value, a[1..], b);
    }
  }

  /** One run in live-join mode, over the target tables and the browser. */
  class JoinRun {
    const targets: TargetPreparationService
    var clicks: seq<string>

    constructor (targets: TargetPreparationService)
      ensures this.targets == targets && clicks == []
    {
      this.targets, this.clicks := targets, [];
    }

    function Now(): World
      reads this, targets
    {
      World(targets.Tables(), clicks)
    }

    method Do(op: Op) returns (ok: bool)
      modifies this, targets
      ensures var r := Apply(old(Now()), op);
              ok == r.Ok? && Now() == if r.Ok? then r.value else old(Now())
    {
      hide AddHit, PlanJoin, CompleteJoin, Select;
      var error: Option<JoinError> := None;
      match op {
        case Add(id, h) => error := targets.AddCandidate(id, h.(membership := h.seen));
        case Plan(campaign, hit) => error := targets.PlanOnce(campaign, hit);
        case Click(group) => clicks := clicks + [group];
        case Complete(campaign, hit, state) => error := targets.RecordOutcome(campaign, hit, state);
        case Choose(campaign, hit) => error := targets.SelectOne(campaign, hit);
      }
      return error.None?;
    }

    /** Does steps in order, up to the first that fails. */
    method DoAll(ops: seq<Op>) returns (ok: bool)
      modifies this, targets
      ensures Now() == Land(old(Now()), ops) && ok == Goes(old(Now()), ops)
    {
      hide Apply;
      ghost var start := Now();
      for i := 0 to |ops|
        invariant Goes(start, ops[..i]) && Now() == Land(start, ops[..i])
      {
        assert ops[..i + 1] == ops[..i] + [ops[i]];
        LandMore(start, ops[..i], ops[i]);
        ok := Do(ops[i]);
        if !ok {
          LandStops(start, ops[..i + 1], ops[i + 1..]);
          GoesFirst(start, ops[..i + 1], ops[i + 1..]);
          assert ops == ops[..i + 1] + ops[i + 1..];
          return;
        }
      }
      assert ops[..|ops|] == ops;
      ok := true;
    }

    lemma {:induction false} GoesFirst(w: World, a: seq<Op>, b: seq<Op>)
      ensures Goes(w, a + b) ==> Goes(w, a)
      decreases |a|
    {
      hide Apply;
      if a != [] {
        assert (a + b)[0] == a[0] && (a + b)[1..] == a[1..] + b;
        if Apply(w, a[0]).Ok? { GoesFirst(Apply(w, a[0]).value, a[1..], b); }
      }
    }

    /** Stores what was discovered, then selects a joined Group, or reserves and
        clicks one that can be joined. */
    method PrepareTarget(d: Discovery)
      modifies this, targets
      ensures Now() == Land(old(Now()), RunOps(old(Now()), d))
    {
      hide Land, Goes, Resolve, Strip, AddOps, Attempted, OutcomeOps;
      ghost var w := Now();
      var stored := DoAll(AddOps(d));
      LandStopsOrGoes(w, AddOps(d), TargetOps(Land(w, AddOps(d)).db, d));
      if !stored {
        return;
      }
      ghost var w1 := Now();
      LandNone(w1);
      var joined := WithMembership(d.found, Joined);
      if joined != [] {
        var chosen := Resolve(joined, d.selector);
        if chosen.Some? {
          var _ := DoAll([Choose(d.campaign, chosen.value.id)]);
        }
        return;
      }
      var candidate := Resolve(WithMembership(d.found, JoinAvailable), d.selector);
      if candidate.None? {
        return;
      }
      var groups := targets.AttemptedGroupIds();
      var guard := new JoinActionGuard(groups);
      GuardKnows(groups);
      var action := guard.Reserve(candidate.value.hit.group, true, true, None);
      if action.Err? {
        return;
      }
      var _ := DoAll([Plan(d.campaign, candidate.value.id)] + OutcomeOps(d.campaign, candidate.value, d.outcome));
    }

    lemma LandNone(w: World)
      ensures Land(w, []) == w
    {
    }

    lemma LandStopsOrGoes(w: World, a: seq<Op>, b: seq<Op>)
      ensures Land(w, a + b) == if Goes(w, a) then Land(Land(w, a), b) else Land(w, a)
    {
      hide Land, Goes;
      if Goes(w, a) {
        LandThen(w, a, b);
      } else {
        LandStops(w, a, b);
      }
    }

    lemma GuardKnows(groups: set<string>)
      requires groups == set t | t in targets.transitions :: t.group
      ensures (set g | g in groups :: Strip(g)) == Attempted(targets.Tables())
    {
      hide Strip;
    }
  }
}
