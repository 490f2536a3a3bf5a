/**
 The turn that matters most: a routine commits. Its own knowledge stays correct, and so does
 that of every other routine.
 */
module ControllerCommits {
  import opened Names
  import opened Lifecycle
  import opened Store
  import opened Invariants
  import opened MutationEvolves
  import opened StoreInvariant
  import opened Runs
  import opened Protocol
  import opened Causes
  import opened Controller
  import opened ControllerInvariant
  import opened ControllerSteps

  // The others

  /** A delete worker for another provider's record only ever gives it up. */
  lemma MismatchedUndisturbs(cfg: Config, f: Facts, m: Mutation, r: Record, now: Time, maxAttempts: int)
    requires f.start.provider != cfg.provider && MayDelete(cfg, f, m)
    requires LifecycleInv(false, r, maxAttempts) && Disciplined(false, r, m, now, maxAttempts) && !r.claim.Provision?
    ensures Undisturbed(false, r, Mutate(m, r, now))
  {
    MutationEvolvesRecord(false, m, r, now, maxAttempts);
  }

  /** While it holds its claim, a worker is alone on its record with every routine that may commit to it. */
  lemma OthersLeaveHeldAlone(cfg: Config, limits: Limits, w: World, rt: Routine, other: Routine, now: Time)
    requires Configured(cfg, limits) && StoreInv(w.moment.state, w.moment.ledger, limits)
    requires RoutineInv(cfg, w.moment, rt) && RoutineInv(cfg, w.moment, other) && rt.key == other.key
    requires !(Holder(cfg, rt) && Holder(cfg, other)) && !rt.facts.role.Reaper? && Holds(rt.facts.history)
    requires Commits(w, other) && Timely(w, other) && now != ZERO_TIME
    ensures other.program.action.Alter?
    ensures Undisturbed(rt.facts.start.provider == cfg.provider,
                        Records(w)[rt.key], Mutate(other.program.action.mutation, Records(w)[rt.key], now))
  {
    var r := Records(w)[rt.key];
    assert RecordInv(rt.key, r, limits.maxAttempts);
    CommitIsDisciplined(cfg, limits, w, other, now);
    SafeCommits(cfg, other.facts, other.program);
    match other.facts.role
    case Provisioner(_) =>
    case Deleter(_) =>
      MismatchedUndisturbs(cfg, other.facts, other.program.action.mutation, r, now, limits.maxAttempts);
    case Reaper(_, _) => ReaperUndisturbs(cfg, other.facts, other.program.action.mutation, r, now, limits.maxAttempts);
  }

  lemma CommitElsewhere(s: State, key: string, action: Action, now: Time, k: string)
    requires k in s.records && !IsMarkerKey(k) && k != key
    ensures k in Apply(s, OpOf(key, action, now)).records
    ensures Apply(s, OpOf(key, action, now)).records[k] == s.records[k]
  {
    if action.Register? {
      RegistrationLeavesOthers(s, OpOf(key, action, now), k);
    }
  }

  lemma CommitLeavesRoutine(cfg: Config, limits: Limits, w: World, actor: Routine, now: Time, m': Moment, rt: Routine)
    requires Configured(cfg, limits) && StoreInv(w.moment.state, w.moment.ledger, limits)
    requires RoutineInv(cfg, w.moment, actor) && RoutineInv(cfg, w.moment, rt)
    requires Commits(w, actor) && Timely(w, actor) && now != ZERO_TIME
    requires RunStep(w.moment, OpOf(actor.key, actor.program.action, now), m', limits)
    requires rt.key == actor.key ==> !(Holder(cfg, rt) && Holder(cfg, actor))
    ensures RoutineInv(cfg, m', rt)
  {
    var op := OpOf(actor.key, actor.program.action, now);
    KeysStay(w.moment.state, op, rt.key);
    if IsMarkerKey(rt.key) {
      UntouchedStays(cfg, limits, w.moment, op, m', rt);
    } else if rt.key != actor.key {
      CommitElsewhere(w.moment.state, actor.key, actor.program.action, now, rt.key);
      UntouchedStays(cfg, limits, w.moment, op, m', rt);
    } else {
      CommitLeavesSharer(cfg, limits, w, actor, now, m', rt);
    }
  }

  /** Another routine on the same record. */
  lemma CommitLeavesSharer(cfg: Config, limits: Limits, w: World, actor: Routine, now: Time, m': Moment, rt: Routine)
    requires Configured(cfg, limits) && StoreInv(w.moment.state, w.moment.ledger, limits)
    requires RoutineInv(cfg, w.moment, actor) && RoutineInv(cfg, w.moment, rt) && !IsMarkerKey(rt.key)
    requires Commits(w, actor) && Timely(w, actor) && now != ZERO_TIME && rt.key in m'.state.records
    requires RunStep(w.moment, OpOf(actor.key, actor.program.action, now), m', limits)
    requires rt.key == actor.key && !(Holder(cfg, rt) && Holder(cfg, actor))
    ensures RoutineInv(cfg, m', rt)
  {
    SharerIsUndisturbed(cfg, limits, w, actor, now, m', rt);
    BystanderStays(cfg, limits, w.moment, OpOf(actor.key, actor.program.action, now), m', rt);
  }

  lemma SharerIsUndisturbed(cfg: Config, limits: Limits, w: World, actor: Routine, now: Time, m': Moment, rt: Routine)
    requires Configured(cfg, limits) && StoreInv(w.moment.state, w.moment.ledger, limits)
    requires RoutineInv(cfg, w.moment, actor) && RoutineInv(cfg, w.moment, rt) && !IsMarkerKey(rt.key)
    requires Commits(w, actor) && Timely(w, actor) && now != ZERO_TIME && rt.key in m'.state.records
    requires Step(w.moment.state, OpOf(actor.key, actor.program.action, now), m'.state)
    requires rt.key == actor.key && !(Holder(cfg, rt) && Holder(cfg, actor))
    ensures !rt.facts.role.Reaper? && Holds(rt.facts.history) ==>
      Undisturbed(rt.facts.start.provider == cfg.provider, Records(w)[rt.key], m'.state.records[rt.key])
  {
    if !rt.facts.role.Reaper? && Holds(rt.facts.history) {
      OthersLeaveHeldAlone(cfg, limits, w, rt, actor, now);
    }
  }

  // The routine itself

  lemma HeldAfterRegistration(f: Facts, s: State, key: string, runnerID: int, name: string, now: Time, c: Commitment)
    requires key in s.records && !IsMarkerKey(key) && HeldBy(f, s.records[key]) && !s.records[key].Terminal()
    ensures key in MarkJITCreated(s, key, runnerID, name, now).records
    ensures HeldBy(f.Now(Did(Register(runnerID, name), c)), MarkJITCreated(s, key, runnerID, name, now).records[key])
  {
    var r := s.records[key];
    MarkerKeyInjective(r.job.owner, r.job.repository, runnerID, "", "", 0);
  }

  /** A provision worker that goes on keeps its claim and knows the registration its commit left. */
  lemma HeldAfterCommit(cfg: Config, f: Facts, action: Action, s: State, key: string, now: Time, c: Commitment,
                        maxAttempts: int)
    requires MayDo(cfg, f, action) && f.role.Provisioner? && key in s.records && HeldBy(f, s.records[key])
    requires RecordInv(key, s.records[key], maxAttempts) && !IsMarkerKey(key)
    requires Holds(f.Now(Did(action, c)).history)
    ensures key in Apply(s, OpOf(key, action, now)).records
    ensures HeldBy(f.Now(Did(action, c)), Apply(s, OpOf(key, action, now)).records[key])
  {
    if action.Register? {
      HeldAfterRegistration(f, s, key, action.runnerID, action.runnerName, now, c);
    }
  }

  /** A delete worker that goes on keeps its record on the way out, and remembers a journaled acceptance. */
  lemma DeletedAfterCommit(cfg: Config, f: Facts, m: Mutation, r: Record, now: Time, c: Commitment)
    requires MayDo(cfg, f, Alter(m)) && f.role.Deleter? && DeletedBy(cfg, f, r)
    requires Holds(f.Now(Did(Alter(m), c)).history)
    ensures DeletedBy(cfg, f.Now(Did(Alter(m), c)), Mutate(m, r, now))
  {
    assert m.ClearJIT? || m.AcceptDeletion?;
  }

  lemma StillDescends(m: Moment, op: Op, m': Moment, limits: Limits, start: Record, k: string)
    requires StoreInv(m.state, m.ledger, limits) && RunStep(m, op, m', limits)
    requires k in m.state.records && k in m'.state.records && !IsMarkerKey(k) && Descends(start, m.state.records[k])
    ensures Descends(start, m'.state.records[k])
  {
    StepOnRecord(m.state, op, m'.state, m.ledger, limits, k);
    DescendsFurther(start, m.state.records[k], m'.state.records[k]);
  }

  lemma ActorStays(cfg: Config, limits: Limits, w: World, rt: Routine, now: Time, m': Moment, c: Commitment)
    requires Configured(cfg, limits) && StoreInv(w.moment.state, w.moment.ledger, limits)
    requires RoutineInv(cfg, w.moment, rt) && Commits(w, rt) && Timely(w, rt) && now != ZERO_TIME
    requires RunStep(w.moment, OpOf(rt.key, rt.program.action, now), m', limits)
    ensures rt.key in m'.state.records
    ensures Related(cfg, m'.state.records, Advance(rt, Did(rt.program.action, c), rt.program.saved(c)))
  {
    var op := OpOf(rt.key, rt.program.action, now);
    var f' := rt.facts.Now(Did(rt.program.action, c));
    assert RecordInv(rt.key, Records(w)[rt.key], limits.maxAttempts);
    KeysStay(w.moment.state, op, rt.key);
    SafeCommits(cfg, rt.facts, rt.program);
    match rt.facts.role
    case Provisioner(_) =>
      if Holds(f'.history) {
        HeldAfterCommit(cfg, rt.facts, rt.program.action, w.moment.state, rt.key, now, c, limits.maxAttempts);
      }
    case Deleter(_) =>
      StillDescends(w.moment, op, m', limits, rt.facts.start, rt.key);
      if Holds(f'.history) {
        DeletedAfterCommit(cfg, rt.facts, rt.program.action.mutation, Records(w)[rt.key], now, c);
      }
    case Reaper(_, _) =>
      if !IsMarkerKey(rt.key) {
        StillDescends(w.moment, op, m', limits, rt.facts.start, rt.key);
      }
  }

  lemma CommitIsGrounded(cfg: Config, ledger: Ledger, rt: Routine, c: Commitment)
    requires Grounded(ledger, rt, cfg.maxAttempts) && rt.program.Commit?
    ensures Grounded(ledger, Advance(rt, Did(rt.program.action, c), rt.program.saved(c)), cfg.maxAttempts)
  {
  }

  lemma CommitLeavesOthers(cfg: Config, limits: Limits, w: World, i: nat, now: Time, m': Moment)
    requires Configured(cfg, limits) && WorldInv(cfg, limits, w) && i in w.routines
    requires Commits(w, w.routines[i]) && Timely(w, w.routines[i]) && now != ZERO_TIME
    requires RunStep(w.moment, OpOf(w.routines[i].key, w.routines[i].program.action, now), m', limits)
    ensures RoutinesHold(cfg, World(m', w.routines - {i}))
  {
    assert RoutineInv(cfg, w.moment, w.routines[i]);
    forall j, rt | j in w.routines - {i} && (w.routines - {i})[j] == rt ensures RoutineInv(cfg, m', rt) {
      assert RoutineInv(cfg, w.moment, w.routines[j]);
      CommitLeavesRoutine(cfg, limits, w, w.routines[i], now, m', rt);
    }
  }

  lemma CommitMovesActor(cfg: Config, limits: Limits, w: World, rt: Routine, now: Time, c: Commitment, m': Moment)
    requires Configured(cfg, limits) && StoreInv(w.moment.state, w.moment.ledger, limits)
    requires RoutineInv(cfg, w.moment, rt) && Commits(w, rt) && Timely(w, rt) && now != ZERO_TIME
    requires RunStep(w.moment, OpOf(rt.key, rt.program.action, now), m', limits)
    ensures RoutineInv(cfg, m', Advance(rt, Did(rt.program.action, c), rt.program.saved(c)))
  {
    ActorStays(cfg, limits, w, rt, now, m', c);
    CommitIsGrounded(cfg, w.moment.ledger, rt, c);
    GroundedStays(w.moment.ledger, m'.ledger, Advance(rt, Did(rt.program.action, c), rt.program.saved(c)),
        cfg.maxAttempts);
  }

  lemma CommitKeepsExclusion(cfg: Config, w: World, i: nat, c: Commitment, w': World)
    requires Exclusive(cfg, w.routines) && i in w.routines && w.routines[i].program.Commit?
    requires w'.routines == w.routines[i :=
        Advance(w.routines[i], Did(w.routines[i].program.action, c), w.routines[i].program.saved(c))]
    ensures Exclusive(cfg, w'.routines)
  {
    ExclusiveStays(cfg, w.routines, i, w'.routines[i], w'.routines);
  }

  lemma RoutinesHoldAround(cfg: Config, m': Moment, routines: map<nat, Routine>, i: nat, rt': Routine)
    requires RoutinesHold(cfg, World(m', routines - {i})) && RoutineInv(cfg, m', rt')
    ensures RoutinesHold(cfg, World(m', routines[i := rt']))
  {
    var routines' := routines[i := rt'];
    forall j, rt | j in routines' && routines'[j] == rt ensures RoutineInv(cfg, m', rt) {
      assert j == i || World(m', routines - {i}).routines[j] == rt;
    }
  }

  lemma SavesKeeps(cfg: Config, limits: Limits, w: World, i: nat, now: Time, c: Commitment, w': World)
    requires Configured(cfg, limits) && WorldInv(cfg, limits, w) && i in w.routines
    requires Commits(w, w.routines[i]) && Timely(w, w.routines[i]) && now != ZERO_TIME
    requires RunStep(w.moment, OpOf(w.routines[i].key, w.routines[i].program.action, now), w'.moment, limits)
    requires w'.routines == w.routines[i :=
        Advance(w.routines[i], Did(w.routines[i].program.action, c), w.routines[i].program.saved(c))]
    ensures WorldInv(cfg, limits, w')
  {
    var rt, rt' := w.routines[i], w'.routines[i];
    assert RoutinesHold(cfg, w') by {
      assert RoutineInv(cfg, w.moment, rt);
      CommitLeavesOthers(cfg, limits, w, i, now, w'.moment);
      CommitMovesActor(cfg, limits, w, rt, now, c, w'.moment);
      RoutinesHoldAround(cfg, w'.moment, w.routines, i, rt');
      assert w' == World(w'.moment, w.routines[i := rt']);
    }
    assert StoreInv(w'.moment.state, w'.moment.ledger, limits) by {
      RunStepKeeps(w.moment, OpOf(rt.key, rt.program.action, now), w'.moment, limits);
    }
    CommitKeepsExclusion(cfg, w, i, c, w');
  }
}
