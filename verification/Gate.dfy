/** The exclusive gate of operator captures, with its pause between Groups, as
    many processes use it at once. */
module Gate {
  import opened Basics

  type Process = nat

  /** Where a process stands: it holds the lock file in every phase but the
      first and the last. */
  datatype Phase =
    | Outside
    | Locked(group: string, pause: nat)
    | Sleeping(group: string, pause: nat, wake: int)
    | Capturing(group: string)
    | Leaving
    | Dead

  datatype Event = Started(group: string, pause: nat, at: int) | Succeeded(group: string, at: int)

  datatype State = State(lock: Option<Process>, phases: map<Process, Phase>, now: int, log: seq<Event>)

  datatype Step =
    | Acquire(p: Process, group: string, pause: nat)
    | Look(p: Process)
    | Start(p: Process)
    | Succeed(p: Process)
    | Fail(p: Process)
    | Release(p: Process)
    | Crash(p: Process)
    | Tick(passed: nat)

  function PhaseOf(s: State, p: Process): Phase {
    if p in s.phases then s.phases[p] else Outside
  }

  // ---------------------------------------------------------------- waiting

  /** The finish of the latest succeeded capture of another Group. */
  function Latest(log: seq<Event>, group: string): Option<int> {
    if log == [] then None
    else
      var before := Latest(log[..|log| - 1], group);
      var e := log[|log| - 1];
      if e.Succeeded? && e.group != group && (before.None? || before.value < e.at) then Some(e.at) else before
  }

  function Remaining(log: seq<Event>, group: string, pause: nat, now: int): nat {
    match Latest(log, group)
    case None => 0
    case Some(at) => if now - at < pause then pause - (now - at) else 0
  }

  /** Looks for the latest finish and says how long to sleep: exactly until the
      pause after every succeeded capture of another Group is over. */
  method WaitBetweenGroups(log: seq<Event>, group: string, pause: nat, now: int) returns (wait: nat)
    ensures wait == Remaining(log, group, pause, now)
    ensures forall i | 0 <= i < |log| && log[i].Succeeded? && log[i].group != group :: log[i].at + pause <= now + wait
    ensures wait > 0 ==>
              exists i | 0 <= i < |log| :: log[i].Succeeded? && log[i].group != group && log[i].at + pause == now + wait
  {
    var latest: Option<int> := None;
    for k := 0 to |log|
      invariant latest == Latest(log[..k], group)
      invariant forall i | 0 <= i < k && log[i].Succeeded? && log[i].group != group ::
                  latest.Some? && log[i].at <= latest.value
      invariant latest.Some? ==>
                  exists i | 0 <= i < k :: log[i].Succeeded? && log[i].group != group && log[i].at == latest.value
    {
      assert log[..k + 1][..k] == log[..k];
      var e := log[k];
      if e.Succeeded? && e.group != group && (latest.None? || latest.value < e.at) {
        latest := Some(e.at);
      }
    }
    assert log[..|log|] == log;
    if latest.None? {
      return 0;
    }
    var elapsed := now - latest.value;
    wait := if elapsed < pause then pause - elapsed else 0;
  }

  lemma {:induction false} LatestCovers(log: seq<Event>, group: string, i: nat)
    requires i < |log| && log[i].Succeeded? && log[i].group != group
    ensures Latest(log, group).Some? && log[i].at <= Latest(log, group).value
    decreases |log|
  {
    if i < |log| - 1 { LatestCovers(log[..|log| - 1], group, i); }
  }

  // ------------------------------------------------------------------ steps

  function SetPhase(s: State, p: Process, phase: Phase): State {
    s.(phases := s.phases[p := phase])
  }

  /** One step; a step that is not possible changes nothing. */
  function Next(s: State, step: Step): State {
    match step
    case Acquire(p, g, pause) =>
      if PhaseOf(s, p).Outside? && s.lock.None? then SetPhase(s, p, Locked(g, pause)).(lock := Some(p)) else s
    case Look(p) =>
      (match PhaseOf(s, p)
       case Locked(g, pause) => SetPhase(s, p, Sleeping(g, pause, s.now + Remaining(s.log, g, pause, s.now)))
       case _ => s)
    case Start(p) =>
      (match PhaseOf(s, p)
       case Sleeping(g, pause, wake) =>
         if wake <= s.now then SetPhase(s, p, Capturing(g)).(log := s.log + [Started(g, pause, s.now)]) else s
       case _ => s)
    case Succeed(p) =>
      (match PhaseOf(s, p)
       case Capturing(g) => SetPhase(s, p, Leaving).(log := s.log + [Succeeded(g, s.now)])
       case _ => s)
    case Fail(p) => if PhaseOf(s, p).Capturing? then SetPhase(s, p, Leaving) else s
    case Release(p) =>
      if PhaseOf(s, p).Outside? || PhaseOf(s, p).Dead? then s
      else SetPhase(s, p, Outside).(lock := None)
    case Crash(p) => SetPhase(s, p, Dead)
    case Tick(passed) => s.(now := s.now + passed)
  }

  function After(s: State, steps: seq<Step>): State
    decreases |steps|
  {
    if steps == [] then s else Next(After(s, steps[..|steps| - 1]), steps[|steps| - 1])
  }

  // -------------------------------------------------------------- invariants

  predicate Inside(phase: Phase) { !phase.Outside? && !phase.Dead? }

  /** Whoever is inside holds the lock, so nobody else is inside. */
  ghost predicate Exclusive(s: State) {
    forall p: Process | Inside(PhaseOf(s, p)) :: s.lock == Some(p)
  }

  /** Nothing finished later than now, and a sleeper wakes late enough. */
  ghost predicate Timed(s: State) {
    && (forall i | 0 <= i < |s.log| && s.log[i].Succeeded? :: s.log[i].at <= s.now)
    && (forall p: Process | PhaseOf(s, p).Sleeping? ::
          var sleeper := PhaseOf(s, p);
          forall i | 0 <= i < |s.log| && s.log[i].Succeeded? && s.log[i].group != sleeper.group ::
            s.log[i].at + sleeper.pause <= sleeper.wake)
  }

  /** Every capture started at least its pause after every earlier success of
      another Group. */
  ghost predicate Spaced(log: seq<Event>) {
    forall i, j | 0 <= i < j < |log| && log[i].Succeeded? && log[j].Started? && log[i].group != log[j].group ::
      log[i].at + log[j].pause <= log[j].at
  }

  ghost predicate Kept(s: State) {
    Exclusive(s) && Timed(s) && Spaced(s.log)
  }

  lemma ExclusiveStep(s: State, step: Step)
    requires Exclusive(s)
    ensures Exclusive(Next(s, step))
  {
    hide Remaining;
    var t := Next(s, step);
    forall p: Process | Inside(PhaseOf(t, p)) ensures t.lock == Some(p) {
      if Inside(PhaseOf(s, p)) { assert s.lock == Some(p); }
      match step
      case Release(q) => assert Inside(PhaseOf(s, q)) ==> s.lock == Some(q);
      case _ =>
    }
  }

  /** While somebody sleeps inside the gate, no other process can succeed. */
  lemma OneSleeper(s: State, p: Process, q: Process)
    requires Exclusive(s) && Inside(PhaseOf(s, p)) && Inside(PhaseOf(s, q))
    ensures p == q
  {
  }

  lemma LookWaits(s: State, g: string, pause: nat, i: nat)
    requires i < |s.log| && s.log[i].Succeeded? && s.log[i].group != g
    ensures s.log[i].at + pause <= s.now + Remaining(s.log, g, pause, s.now)
  {
    LatestCovers(s.log, g, i);
  }

  lemma TimedStep(s: State, step: Step)
    requires Exclusive(s) && Timed(s)
    ensures Timed(Next(s, step))
  {
    hide Remaining;
    var t := Next(s, step);
    forall p: Process | PhaseOf(t, p).Sleeping?
      ensures var sleeper := PhaseOf(t, p);
              forall i | 0 <= i < |t.log| && t.log[i].Succeeded? && t.log[i].group != sleeper.group ::
                t.log[i].at + sleeper.pause <= sleeper.wake
    {
      var sleeper := PhaseOf(t, p);
      forall i | 0 <= i < |t.log| && t.log[i].Succeeded? && t.log[i].group != sleeper.group
        ensures t.log[i].at + sleeper.pause <= sleeper.wake
      {
        if step == Look(p) && PhaseOf(s, p).Locked? {
          LookWaits(s, sleeper.group, sleeper.pause, i);
        } else {
          assert PhaseOf(s, p) == sleeper;
          if i == |s.log| { OneSleeper(s, p, step.p); }
        }
      }
    }
  }

  lemma SpacedStep(s: State, step: Step)
    requires Timed(s) && Spaced(s.log)
    ensures Spaced(Next(s, step).log)
  {
    hide Remaining;
    var t := Next(s, step);
    if |t.log| > |s.log| && step.Start? {
      var sleeper := PhaseOf(s, step.p);
      assert sleeper.Sleeping?;
    }
  }

  /** In every interleaving of processes, crashes included, at most one is inside
      the gate, and a capture of a Group starts at least its pause after the end
      of every succeeded capture of another Group. */
  lemma {:induction false} EveryInterleavingKept(s: State, steps: seq<Step>)
    requires Kept(s)
    ensures Kept(After(s, steps))
    ensures var t := After(s, steps);
            forall p: Process, q: Process | Inside(PhaseOf(t, p)) && Inside(PhaseOf(t, q)) :: p == q
    decreases |steps|
  {
    hide Next, Exclusive, Timed, Spaced;
    if steps != [] {
      var before := After(s, steps[..|steps| - 1]);
      EveryInterleavingKept(s, steps[..|steps| - 1]);
      ExclusiveStep(before, steps[|steps| - 1]);
      TimedStep(before, steps[|steps| - 1]);
      SpacedStep(before, steps[|steps| - 1]);
    }
    var t := After(s, steps);
    forall p: Process, q: Process | Inside(PhaseOf(t, p)) && Inside(PhaseOf(t, q)) ensures p == q {
      OneSleeper(t, p, q);
    }
  }

  lemma {:induction false} LogGrows(s: State, steps: seq<Step>, i: nat, j: nat)
    requires i <= j <= |steps|
    ensures After(s, steps[..i]).log <= After(s, steps[..j]).log
    decreases j
  {
    hide Remaining;
    if i < j {
      LogGrows(s, steps, i, j - 1);
      assert steps[..j][..j - 1] == steps[..j - 1];
    }
  }

  /** A process that is capturing `g` succeeds with this step. */
  ghost predicate SucceedsAt(s: State, steps: seq<Step>, i: nat, g: string)
    requires i < |steps|
  {
    steps[i].Succeed? && PhaseOf(After(s, steps[..i]), steps[i].p) == Capturing(g)
  }

  /** A process that asked for `h` with this pause starts its capture with this
      step. */
  ghost predicate StartsAt(s: State, steps: seq<Step>, j: nat, h: string, pause: nat)
    requires j < |steps|
  {
    && steps[j].Start?
    && PhaseOf(After(s, steps[..j]), steps[j].p).Sleeping?
    && PhaseOf(After(s, steps[..j]), steps[j].p).pause == pause
    && PhaseOf(After(s, steps[..j + 1]), steps[j].p) == Capturing(h)
  }

  /** Told by phases and clock alone: once a capture of `g` has succeeded, a capture
      of another Group starts no sooner than its pause after that, whatever
      happens in between. */
  lemma {:induction false} SuccessHoldsOthers(
    s: State, steps: seq<Step>, i: nat, g: string, j: nat, h: string, pause: nat)
    requires Kept(s) && i < j < |steps| && g != h
    requires SucceedsAt(s, steps, i, g) && StartsAt(s, steps, j, h, pause)
    ensures After(s, steps[..i]).now + pause <= After(s, steps[..j]).now
  {
    hide Remaining, Exclusive, Spaced;
    var before, done := After(s, steps[..i]), After(s, steps[..i + 1]);
    assert steps[..i + 1][..i] == steps[..i];
    assert done.log[|before.log|] == Succeeded(g, before.now);
    LogGrows(s, steps, i + 1, j);
    EveryInterleavingKept(s, steps[..j]);
    assert steps[..j + 1][..j] == steps[..j];
    var t := After(s, steps[..j]);
    assert t.log[|before.log|] == Succeeded(g, before.now);
    assert PhaseOf(t, steps[j].p).wake <= t.now;
  }

  /** What a process asks for at the lock is what it sleeps and starts with. */
  lemma {:induction false} AskedIsStarted(s: State, p: Process, g: string, pause: nat)
    requires PhaseOf(s, p).Outside? && s.lock.None?
    ensures PhaseOf(Next(s, Acquire(p, g, pause)), p) == Locked(g, pause)
    ensures var t := Next(Next(s, Acquire(p, g, pause)), Look(p));
            && PhaseOf(t, p).Sleeping? && PhaseOf(t, p).group == g && PhaseOf(t, p).pause == pause
            && (PhaseOf(t, p).wake <= t.now ==> PhaseOf(Next(t, Start(p)), p) == Capturing(g))
  {
    hide Remaining;
  }

  /** A process that dies inside leaves the lock behind: nobody enters again. */
  lemma {:induction false} StaleLockBlocks(s: State, p: Process, steps: seq<Step>)
    requires Exclusive(s) && s.lock == Some(p) && PhaseOf(s, p).Dead?
    ensures var t := After(s, steps);
            Exclusive(t) && t.lock == Some(p) && PhaseOf(t, p).Dead? && forall q: Process :: !Inside(PhaseOf(t, q))
    decreases |steps|
  {
    hide Remaining;
    if steps != [] {
      var before := After(s, steps[..|steps| - 1]);
      StaleLockBlocks(s, p, steps[..|steps| - 1]);
      ExclusiveStep(before, steps[|steps| - 1]);
    }
    var t := After(s, steps);
    forall q: Process ensures !Inside(PhaseOf(t, q)) {
      assert Inside(PhaseOf(t, q)) ==> t.lock == Some(q);
    }
  }

  // ----------------------------------------------------------- step by step

  /** The gate as one process uses it; other processes act between its calls. */
  class OperatorCaptureGate {
    var state: State

    constructor (state: State)
      ensures this.state == state
    {
      this.state := state;
    }

    /** Takes the lock file or fails, looks, sleeps, and lets the capture start. */
    method Enter(p: Process, group: string, pause: nat) returns (waited: Option<nat>)
      requires PhaseOf(state, p).Outside?
      modifies this
      ensures old(state).lock.Some? ==> waited == None && state == old(state)
      ensures old(state).lock.None? ==>
                && waited == Some(Remaining(old(state).log, group, pause, old(state).now))
                && state == After(old(state), [Acquire(p, group, pause), Look(p), Tick(waited.value), Start(p)])
                && state.log == old(state).log + [Started(group, pause, old(state).now + waited.value)]
                && state.now == old(state).now + waited.value && state.lock == Some(p)
                && state.phases == old(state).phases[p := Capturing(group)]
    {
      hide After, Next, Remaining;
      if state.lock.Some? {
        return None;
      }
      ghost var s := state;
      ghost var others := state.phases;
      state := state.(lock := Some(p), phases := state.phases[p := Locked(group, pause)]);
      var wait := WaitBetweenGroups(state.log, group, pause, state.now);
      state := state.(phases := state.phases[p := Sleeping(group, pause, state.now + wait)]);
      state := state.(now := state.now + wait);
      state := state.(phases := state.phases[p := Capturing(group)],
                      log := state.log + [Started(group, pause, state.now)]);
      EnterSteps(s, p, group, pause);
      assert state.phases == others[p := Capturing(group)];
      return Some(wait);
    }

    /** The capture is over; a success is recorded with its Group and its time, and
        the lock file goes whatever the result. */
    method Leave(p: Process, succeeded: bool)
      requires PhaseOf(state, p).Capturing?
      modifies this
      ensures state == Next(Next(old(state), if succeeded then Succeed(p) else Fail(p)), Release(p))
      ensures state.log
              == old(state).log + if succeeded then [Succeeded(PhaseOf(old(state), p).group, old(state).now)] else []
      ensures state.lock.None? && state.now == old(state).now && state.phases == old(state).phases[p := Outside]
    {
      if succeeded {
        state := state.(log := state.log + [Succeeded(state.phases[p].group, state.now)]);
      }
      state := state.(lock := None, phases := state.phases[p := Outside]);
      assert state.phases == old(state).phases[p := Leaving][p := Outside];
    }
  }

  /** Entering a free gate, step by step. */
  lemma EnterSteps(s: State, p: Process, group: string, pause: nat)
    requires PhaseOf(s, p).Outside? && s.lock.None?
    ensures var wait := Remaining(s.log, group, pause, s.now);
            After(s, [Acquire(p, group, pause), Look(p), Tick(wait), Start(p)])
            == State(Some(p),
                     s.phases[p := Locked(group, pause)][p := Sleeping(group, pause, s.now + wait)]
                       [p := Capturing(group)],
                     s.now + wait, s.log + [Started(group, pause, s.now + wait)])
  {
    hide Remaining;
    var wait := Remaining(s.log, group, pause, s.now);
    FourSteps(s, Acquire(p, group, pause), Look(p), Tick(wait), Start(p));
  }

  lemma FourSteps(s: State, a: Step, b: Step, c: Step, d: Step)
    ensures After(s, [a, b, c, d]) == Next(Next(Next(Next(s, a), b), c), d)
  {
    hide Next;
    assert [a, b, c, d][..3] == [a, b, c] && [a, b, c][..2] == [a, b] && [a, b][..1] == [a] && [a][..0] == [];
    assert After(s, [a]) == Next(s, a);
    assert After(s, [a, b]) == Next(Next(s, a), b);
  }
}
