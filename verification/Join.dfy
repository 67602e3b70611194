/** At most one Join click a Group, over all runs, and the selection of targets. */
module Join {
  import opened Basics

  datatype Membership = Joined | JoinAvailable | JoinRequested

  /** A discovered Group of one campaign: `seen` is what discovery saw, and
      `membership` what holds now. */
  datatype Hit = Hit(
    campaign: string, group: string, rank: nat, activity: Option<nat>, seen: Membership, membership: Membership)

  datatype TransitionState = Planned | Confirmed | Pending | Rejected | Stopped

  datatype Transition = Transition(campaign: string, hit: string, group: string, state: TransitionState)

  datatype Selection = Selection(campaign: string, hit: string)

  datatype Db = Db(hits: map<string, Hit>, transitions: seq<Transition>, selections: seq<Selection>)

  datatype JoinError =
    | HitExists
    | NotInCampaign
    | NotAvailable
    | AlreadyPlanned
    | NotAwaiting
    | NotJoined
    | OtherSelected

  // ------------------------------------------------------------- operations

  predicate InCampaign(db: Db, campaign: string, hit: string) {
    hit in db.hits && db.hits[hit].campaign == campaign
  }

  function AddHit(db: Db, id: string, h: Hit): Result<Db, JoinError> {
    if id in db.hits || exists k | k in db.hits :: db.hits[k].campaign == h.campaign && db.hits[k].group == h.group then
      Err(HitExists)
    else Ok(db.(hits := db.hits[id := h]))
  }

  /** Reserves the one Join of a campaign and of a candidate. */
  function PlanJoin(db: Db, campaign: string, hit: string): Result<Db, JoinError> {
    if !InCampaign(db, campaign, hit) then Err(NotInCampaign)
    else if db.hits[hit].membership != JoinAvailable then Err(NotAvailable)
    else if exists t | t in db.transitions :: t.campaign == campaign || t.hit == hit then Err(AlreadyPlanned)
    else Ok(db.(transitions := db.transitions + [Transition(campaign, hit, db.hits[hit].group, Planned)]))
  }

  predicate Awaiting(t: Transition, campaign: string, hit: string) {
    t.campaign == campaign && t.hit == hit && t.state == Planned
  }

  function Completed(ts: seq<Transition>, campaign: string, hit: string, state: TransitionState): (r: seq<Transition>)
    ensures |r| == |ts|
    ensures forall i | 0 <= i < |ts| ::
              r[i] == if Awaiting(ts[i], campaign, hit) then ts[i].(state := state) else ts[i]
  {
    seq(|ts|, i requires 0 <= i < |ts| => if Awaiting(ts[i], campaign, hit) then ts[i].(state := state) else ts[i])
  }

  /** Records the outcome; a confirmed candidate may be selected from now on. */
  function CompleteJoin(db: Db, campaign: string, hit: string, state: TransitionState): Result<Db, JoinError> {
    if !InCampaign(db, campaign, hit) then Err(NotInCampaign)
    else if !exists t | t in db.transitions :: Awaiting(t, campaign, hit) then Err(NotAwaiting)
    else
      var hits := if state == Confirmed then db.hits[hit := db.hits[hit].(membership := Joined)] else db.hits;
      Ok(db.(hits := hits, transitions := Completed(db.transitions, campaign, hit, state)))
  }

  /** Selects the one target of a campaign; selecting it again is fine. */
  function Select(db: Db, campaign: string, hit: string): Result<Db, JoinError> {
    if !InCampaign(db, campaign, hit) then Err(NotInCampaign)
    else if db.hits[hit].membership != Joined then Err(NotJoined)
    else if Selection(campaign, hit) in db.selections then Ok(db)
    else if exists s | s in db.selections :: s.campaign == campaign then Err(OtherSelected)
    else Ok(db.(selections := db.selections + [Selection(campaign, hit)]))
  }

  // -------------------------------------------------------------- invariant

  ghost predicate ConfirmedFor(db: Db, hit: string) {
    exists t | t in db.transitions :: t.hit == hit && t.state == Confirmed
  }

  /** A Group once a campaign; one selection a campaign, always of a Group seen as
      joined or confirmed as joined; one transition a campaign and a candidate, of a
      Group seen as joinable and under its own name. */
  ghost predicate Sound(db: Db) {
    HitsSound(db) && TransitionsSound(db) && SelectionsSound(db)
  }

  ghost predicate HitsSound(db: Db) {
    && (forall g, h | g in db.hits && h in db.hits && g != h && db.hits[g].campaign == db.hits[h].campaign ::
          db.hits[g].group != db.hits[h].group)
    && (forall h | h in db.hits :: db.hits[h].membership == db.hits[h].seen || db.hits[h].membership == Joined)
    && (forall h | h in db.hits && db.hits[h].membership == Joined :: db.hits[h].seen == Joined || ConfirmedFor(db, h))
  }

  ghost predicate TransitionsSound(db: Db) {
    && (forall i, j | 0 <= i < j < |db.transitions| ::
          db.transitions[i].campaign != db.transitions[j].campaign && db.transitions[i].hit != db.transitions[j].hit)
    && (forall t | t in db.transitions ::
          InCampaign(db, t.campaign, t.hit) && db.hits[t.hit].group == t.group && db.hits[t.hit].seen == JoinAvailable)
  }

  ghost predicate SelectionsSound(db: Db) {
    && (forall i, j | 0 <= i < j < |db.selections| :: db.selections[i].campaign != db.selections[j].campaign)
    && (forall s | s in db.selections :: InCampaign(db, s.campaign, s.hit) && db.hits[s.hit].membership == Joined)
  }

  datatype Op =
    | Add(id: string, hit: Hit)
    | Plan(campaign: string, hitId: string)
    | Click(group: string)
    | Complete(campaign: string, hitId: string, state: TransitionState)
    | Choose(campaign: string, hitId: string)

  /** The tables, and the clicks made so far. */
  datatype World = World(db: Db, clicks: seq<string>)

  function ApplyDb(db: Db, op: Op): Result<Db, JoinError> {
    match op
    case Add(id, h) => AddHit(db, id, h.(membership := h.seen))
    case Plan(c, h) => PlanJoin(db, c, h)
    case Click(_) => Ok(db)
    case Complete(c, h, state) => CompleteJoin(db, c, h, state)
    case Choose(c, h) => Select(db, c, h)
  }

  function Apply(w: World, op: Op): Result<World, JoinError> {
    match ApplyDb(w.db, op)
    case Err(e) => Err(e)
    case Ok(db) => Ok(World(db, if op.Click? then w.clicks + [op.group] else w.clicks))
  }

  /** The steps of a run in order; the first that fails ends it. */
  function Land(w: World, ops: seq<Op>): World
    decreases |ops|
  {
    if ops == [] then w
    else
      match Apply(w, ops[0])
      case Err(_) => w
      case Ok(next) => Land(next, ops[1..])
  }

  /** A confirmation stays one while transitions only grow. */
  lemma ConfirmedStays(db: Db, db': Db, hit: string)
    requires ConfirmedFor(db, hit) && db.transitions <= db'.transitions
    ensures ConfirmedFor(db', hit)
  {
    var i :| 0 <= i < |db.transitions| && db.transitions[i].hit == hit && db.transitions[i].state == Confirmed;
    assert db'.transitions[i] == db.transitions[i] && db'.transitions[i] in db'.transitions;
  }

  lemma AddKeepsSound(db: Db, id: string, h: Hit)
    requires Sound(db) && AddHit(db, id, h).Ok? && h.membership == h.seen
    ensures Sound(AddHit(db, id, h).value)
  {
    hide HitsSound, TransitionsSound, SelectionsSound;
    AddKeepsHits(db, id, h);
    AddKeepsRest(db, id, h);
  }

  lemma AddKeepsHits(db: Db, id: string, h: Hit)
    requires HitsSound(db) && AddHit(db, id, h).Ok? && h.membership == h.seen
    ensures HitsSound(AddHit(db, id, h).value)
  {
    hide ConfirmedFor;
    var db' := AddHit(db, id, h).value;
    forall k | k in db'.hits && db'.hits[k].membership == Joined
      ensures db'.hits[k].seen == Joined || ConfirmedFor(db', k)
    {
      if k != id && ConfirmedFor(db, k) { ConfirmedStays(db, db', k); }
    }
  }

  lemma AddKeepsRest(db: Db, id: string, h: Hit)
    requires TransitionsSound(db) && SelectionsSound(db) && AddHit(db, id, h).Ok?
    ensures TransitionsSound(AddHit(db, id, h).value) && SelectionsSound(AddHit(db, id, h).value)
  {
  }

  lemma {:induction false} PlanKeepsSound(db: Db, campaign: string, hit: string)
    requires Sound(db) && PlanJoin(db, campaign, hit).Ok?
    ensures Sound(PlanJoin(db, campaign, hit).value)
  {
    hide HitsSound, TransitionsSound, SelectionsSound;
    PlanKeepsHits(db, campaign, hit);
    PlanKeepsTransitions(db, campaign, hit);
    PlanKeepsSelections(db, campaign, hit);
  }

  lemma PlanKeepsHits(db: Db, campaign: string, hit: string)
    requires HitsSound(db) && PlanJoin(db, campaign, hit).Ok?
    ensures HitsSound(PlanJoin(db, campaign, hit).value)
  {
    hide ConfirmedFor;
    var db' := PlanJoin(db, campaign, hit).value;
    forall k | k in db'.hits && db'.hits[k].membership == Joined
      ensures db'.hits[k].seen == Joined || ConfirmedFor(db', k)
    {
      if ConfirmedFor(db, k) { ConfirmedStays(db, db', k); }
    }
  }

  lemma PlanKeepsTransitions(db: Db, campaign: string, hit: string)
    requires HitsSound(db) && TransitionsSound(db) && PlanJoin(db, campaign, hit).Ok?
    ensures TransitionsSound(PlanJoin(db, campaign, hit).value)
  {
    hide ConfirmedFor;
  }

  lemma PlanKeepsSelections(db: Db, campaign: string, hit: string)
    requires SelectionsSound(db) && PlanJoin(db, campaign, hit).Ok?
    ensures SelectionsSound(PlanJoin(db, campaign, hit).value)
  {
  }

  /** A candidate keeps its campaign, its Group and what discovery saw. */
  lemma CompletedHits(db: Db, campaign: string, hit: string, state: TransitionState)
    requires CompleteJoin(db, campaign, hit, state).Ok?
    ensures var hits := CompleteJoin(db, campaign, hit, state).value.hits;
            && hits.Keys == db.hits.Keys
            && forall h | h in hits ::
                 hits[h].campaign == db.hits[h].campaign && hits[h].group == db.hits[h].group
                 && hits[h].seen == db.hits[h].seen
                 && hits[h].membership == if state == Confirmed && h == hit then Joined else db.hits[h].membership
  {
  }

  /** So does a transition, but for its state; selections stay. */
  lemma CompletedTransitions(db: Db, campaign: string, hit: string, state: TransitionState)
    requires CompleteJoin(db, campaign, hit, state).Ok?
    ensures var db' := CompleteJoin(db, campaign, hit, state).value;
            var ts := db'.transitions;
            && db'.selections == db.selections && |ts| == |db.transitions|
            && forall i | 0 <= i < |ts| ::
                 ts[i].campaign == db.transitions[i].campaign && ts[i].hit == db.transitions[i].hit
                 && ts[i].group == db.transitions[i].group
  {
  }

  lemma CompletedMembership(db: Db, campaign: string, hit: string, state: TransitionState, k: string)
    requires HitsSound(db) && CompleteJoin(db, campaign, hit, state).Ok?
    requires k in db.hits && CompleteJoin(db, campaign, hit, state).value.hits[k].membership == Joined
    ensures var db' := CompleteJoin(db, campaign, hit, state).value;
            db'.hits[k].seen == Joined || ConfirmedFor(db', k)
  {
    var db' := CompleteJoin(db, campaign, hit, state).value;
    if state == Confirmed && k == hit {
      var a :| 0 <= a < |db.transitions| && Awaiting(db.transitions[a], campaign, hit);
      assert db'.transitions[a] in db'.transitions;
    } else if ConfirmedFor(db, k) {
      var i :| 0 <= i < |db.transitions| && db.transitions[i].hit == k && db.transitions[i].state == Confirmed;
      assert db'.transitions[i] == db.transitions[i] && db'.transitions[i] in db'.transitions;
    }
  }

  lemma {:induction false} CompleteKeepsSound(db: Db, campaign: string, hit: string, state: TransitionState)
    requires Sound(db) && CompleteJoin(db, campaign, hit, state).Ok?
    ensures Sound(CompleteJoin(db, campaign, hit, state).value)
  {
    hide HitsSound, TransitionsSound, SelectionsSound, CompleteJoin;
    CompleteKeepsHits(db, campaign, hit, state);
    CompleteKeepsTransitions(db, campaign, hit, state);
    CompleteKeepsSelections(db, campaign, hit, state);
  }

  lemma CompleteKeepsHits(db: Db, campaign: string, hit: string, state: TransitionState)
    requires HitsSound(db) && CompleteJoin(db, campaign, hit, state).Ok?
    ensures HitsSound(CompleteJoin(db, campaign, hit, state).value)
  {
    hide ConfirmedFor, CompleteJoin;
    var db' := CompleteJoin(db, campaign, hit, state).value;
    CompletedHits(db, campaign, hit, state);
    forall k | k in db'.hits && db'.hits[k].membership == Joined
      ensures db'.hits[k].seen == Joined || ConfirmedFor(db', k)
    {
      CompletedMembership(db, campaign, hit, state, k);
    }
  }

  lemma CompleteKeepsTransitions(db: Db, campaign: string, hit: string, state: TransitionState)
    requires TransitionsSound(db) && CompleteJoin(db, campaign, hit, state).Ok?
    ensures TransitionsSound(CompleteJoin(db, campaign, hit, state).value)
  {
    hide CompleteJoin;
    var db' := CompleteJoin(db, campaign, hit, state).value;
    CompletedHits(db, campaign, hit, state);
    CompletedTransitions(db, campaign, hit, state);
    forall t | t in db'.transitions
      ensures InCampaign(db', t.campaign, t.hit) && db'.hits[t.hit].group == t.group
      ensures db'.hits[t.hit].seen == JoinAvailable
    {
      var i :| 0 <= i < |db'.transitions| && db'.transitions[i] == t;
      assert db.transitions[i] in db.transitions;
    }
  }

  lemma CompleteKeepsSelections(db: Db, campaign: string, hit: string, state: TransitionState)
    requires SelectionsSound(db) && CompleteJoin(db, campaign, hit, state).Ok?
    ensures SelectionsSound(CompleteJoin(db, campaign, hit, state).value)
  {
    hide CompleteJoin;
    CompletedHits(db, campaign, hit, state);
    CompletedTransitions(db, campaign, hit, state);
  }

  lemma {:induction false} SelectKeepsSound(db: Db, campaign: string, hit: string)
    requires Sound(db) && Select(db, campaign, hit).Ok?
    ensures Sound(Select(db, campaign, hit).value)
    ensures forall s | s in db.selections :: s in Select(db, campaign, hit).value.selections
  {
    hide ConfirmedFor;
    var db' := Select(db, campaign, hit).value;
    assert HitsSound(db') by {
      hide SelectionsSound, TransitionsSound;
      forall k | k in db'.hits && db'.hits[k].membership == Joined
        ensures db'.hits[k].seen == Joined || ConfirmedFor(db', k)
      {
        if ConfirmedFor(db, k) { ConfirmedStays(db, db', k); }
      }
    }
    assert TransitionsSound(db') by { hide HitsSound, SelectionsSound; }
  }

  lemma ApplyKeepsSound(w: World, op: Op)
    requires Sound(w.db) && Apply(w, op).Ok?
    ensures Sound(Apply(w, op).value.db)
  {
    hide Sound, AddHit, PlanJoin, CompleteJoin, Select;
    match op {
      case Add(id, h) => AddKeepsSound(w.db, id, h.(membership := h.seen));
      case Plan(c, h) => PlanKeepsSound(w.db, c, h);
      case Click(_) =>
      case Complete(c, h, state) => CompleteKeepsSound(w.db, c, h, state);
      case Choose(c, h) => SelectKeepsSound(w.db, c, h);
    }
  }

  /** Whatever operations are tried in whatever order, a campaign has at most one
      selected target, and it is a Group seen as joined or confirmed as joined. */
  lemma {:induction false} EveryStoreIsSound(w: World, ops: seq<Op>)
    requires Sound(w.db)
    ensures Sound(Land(w, ops).db)
    decreases |ops|
  {
    hide Sound, Apply;
    if ops != [] && Apply(w, ops[0]).Ok? {
      ApplyKeepsSound(w, ops[0]);
      EveryStoreIsSound(Apply(w, ops[0]).value, ops[1..]);
    }
  }
}
