/**
 Every turn of the controller keeps its invariant: the routine that moves stays within the
 rules, and every other routine keeps what it relies on.
 */
module ControllerSteps {
  import opened Names
  import opened Lifecycle
  import opened Store
  import opened Invariants
  import opened StoreInvariant
  import opened Runs
  import opened Protocol
  import opened Causes
  import opened WorkerRules
  import opened ReaperRules
  import opened Controller
  import opened ControllerInvariant

  // Routines that do not move

  lemma DescendsFurther(start: Record, r: Record, r': Record)
    requires Descends(start, r) && Follows(false, r, r')
    ensures Descends(start, r')
  {
  }

  /** A worker's claim survives a step that does not disturb its record. */
  lemma RelatedStays(cfg: Config, records: map<string, Record>, records': map<string, Record>, rt: Routine)
    requires Related(cfg, records, rt) && rt.key in records'
    requires !IsMarkerKey(rt.key) ==> Follows(false, records[rt.key], records'[rt.key])
    requires !rt.facts.role.Reaper? && Holds(rt.facts.history) ==>
      Undisturbed(rt.facts.start.provider == cfg.provider, records[rt.key], records'[rt.key])
    ensures Related(cfg, records', rt)
  {
    if !IsMarkerKey(rt.key) && !rt.facts.role.Provisioner? {
      DescendsFurther(rt.facts.start, records[rt.key], records'[rt.key]);
    }
  }

  lemma GroundedStays(ledger: Ledger, ledger': Ledger, rt: Routine, maxAttempts: int)
    requires Grounded(ledger, rt, maxAttempts) && LedgerGrows(ledger, ledger')
    ensures Grounded(ledger', rt, maxAttempts)
  {
  }

  /** A disciplined step that leaves a worker's claim alone keeps a routine's invariant. */
  lemma BystanderStays(cfg: Config, limits: Limits, m: Moment, op: Op, m': Moment, rt: Routine)
    requires Configured(cfg, limits) && StoreInv(m.state, m.ledger, limits)
    requires RunStep(m, op, m', limits) && RoutineInv(cfg, m, rt) && rt.key in m'.state.records
    requires !IsMarkerKey(rt.key) && !rt.facts.role.Reaper? && Holds(rt.facts.history) ==>
      Undisturbed(rt.facts.start.provider == cfg.provider, m.state.records[rt.key], m'.state.records[rt.key])
    ensures RoutineInv(cfg, m', rt)
  {
    if !IsMarkerKey(rt.key) {
      StepOnRecord(m.state, op, m'.state, m.ledger, limits, rt.key);
    }
    RelatedStays(cfg, m.state.records, m'.state.records, rt);
    GroundedStays(m.ledger, m'.ledger, rt, cfg.maxAttempts);
  }

  /** The same for a step that does not touch the routine's record at all. */
  lemma UntouchedStays(cfg: Config, limits: Limits, m: Moment, op: Op, m': Moment, rt: Routine)
    requires Configured(cfg, limits) && StoreInv(m.state, m.ledger, limits)
    requires RunStep(m, op, m', limits) && RoutineInv(cfg, m, rt)
    requires rt.key in m'.state.records
    requires !IsMarkerKey(rt.key) ==> m'.state.records[rt.key] == m.state.records[rt.key]
    ensures RoutineInv(cfg, m', rt)
  {
    BystanderStays(cfg, limits, m, op, m', rt);
  }

  lemma KeysStay(s: State, op: Op, k: string)
    requires !op.Restart? && k in s.records && (op.Prune? ==> !Prunable(s.records[k], op.pruneBefore))
    ensures k in Apply(s, op).records
  {
  }

  /** Only the acting routine changes, and it gains no claim. */
  ghost predicate OneMoves(routines: map<nat, Routine>, i: nat, rt': Routine, routines': map<nat, Routine>) {
    && i in routines && routines' == routines[i := rt']
    && rt'.key == routines[i].key && rt'.facts.role == routines[i].facts.role
    && rt'.facts.start == routines[i].facts.start
    && (Holds(rt'.facts.history) ==> Holds(routines[i].facts.history))
  }

  lemma ExclusiveStays(cfg: Config, routines: map<nat, Routine>, i: nat, rt': Routine, routines': map<nat, Routine>)
    requires Exclusive(cfg, routines) && OneMoves(routines, i, rt', routines')
    ensures Exclusive(cfg, routines')
  {
    forall a, b | a in routines' && b in routines' && Holder(cfg, routines'[a]) && Holder(cfg, routines'[b])
                  && routines'[a].key == routines'[b].key
      ensures a == b
    {
      assert Holder(cfg, routines[a]) && Holder(cfg, routines[b]);
    }
  }

  // Turns of the outside

  lemma OutsideLeavesRoutine(cfg: Config, limits: Limits, w: World, op: Op, m': Moment, rt: Routine)
    requires Configured(cfg, limits) && StoreInv(w.moment.state, w.moment.ledger, limits) && Ambient(w, op)
    requires RunStep(w.moment, op, m', limits) && RoutineInv(cfg, w.moment, rt)
    requires op.Prune? ==> rt.key in Records(w) && !Prunable(Records(w)[rt.key], op.pruneBefore)
    ensures RoutineInv(cfg, m', rt)
  {
    KeysStay(w.moment.state, op, rt.key);
    if !IsMarkerKey(rt.key) {
      AmbientUndisturbs(w, op, limits, rt.key);
    }
    BystanderStays(cfg, limits, w.moment, op, m', rt);
  }

  lemma OutsideKeeps(cfg: Config, limits: Limits, w: World, op: Op, w': World)
    requires Configured(cfg, limits) && WorldInv(cfg, limits, w) && Ambient(w, op)
    requires RunStep(w.moment, op, w'.moment, limits) && w'.routines == w.routines
    ensures WorldInv(cfg, limits, w')
  {
    RunStepKeeps(w.moment, op, w'.moment, limits);
    forall id, rt | id in w.routines && w.routines[id] == rt ensures RoutineInv(cfg, w'.moment, rt) {
      assert RoutineInv(cfg, w.moment, rt);
      OutsideLeavesRoutine(cfg, limits, w, op, w'.moment, rt);
    }
  }

  lemma ReopensKeeps(cfg: Config, limits: Limits, w: World, op: Op, w': World)
    requires WorldInv(cfg, limits, w) && RunStep(w.moment, op, w'.moment, limits) && w'.routines == map[]
    ensures WorldInv(cfg, limits, w')
  {
    RunStepKeeps(w.moment, op, w'.moment, limits);
  }

  // Turns that start a routine

  lemma GrantUndisturbs(w: World, key: string, kind: Work, now: Time, limits: Limits, owned: bool)
    requires Claimable(w, key, kind, now, limits)
    ensures Undisturbed(owned, Records(w)[key], Mutate(Grant(kind, limits.maxAttempts), Records(w)[key], now))
  {
    HeldIsNotClaimable(w, key, kind, now, limits);
  }

  /** No other worker holds a record that ClaimNext may hand out. */
  lemma ClaimableIsFree(cfg: Config, limits: Limits, w: World, key: string, kind: Work, now: Time, i: nat)
    requires RoutinesHold(cfg, w) && Claimable(w, key, kind, now, limits)
    requires i in w.routines && w.routines[i].key == key
    ensures !Holder(cfg, w.routines[i])
  {
    assert RoutineInv(cfg, w.moment, w.routines[i]);
    HeldIsNotClaimable(w, key, kind, now, limits);
  }

  /** A worker starts with the record as the grant left it. */
  lemma WorkerStarts(cfg: Config, limits: Limits, m: Moment, key: string, kind: Work, canceled: bool)
    requires Configured(cfg, limits) && StoreInv(m.state, m.ledger, limits)
    requires key in m.state.records && !kind.NoWork? && m.state.records[key].claim == kind
    requires kind.Provision? || m.state.records[key].status.Deleting?
    ensures RoutineInv(cfg, m, Worker(cfg, key, m.state.records[key], kind, canceled))
  {
    var r := m.state.records[key];
    assert RecordInv(key, r, limits.maxAttempts);
    ProcessingIsSafe(cfg, Worker(cfg, key, r, kind, canceled).facts, kind, canceled);
  }

  lemma Granted(w: World, key: string, kind: Work, now: Time, limits: Limits)
    requires Claimable(w, key, kind, now, limits)
    ensures var r' := Mutate(Grant(kind, limits.maxAttempts), Records(w)[key], now);
      r'.claim == kind && (kind.Delete? ==> r'.status.Deleting?)
  {
  }

  lemma GrantUndisturbsAny(w: World, key: string, kind: Work, now: Time, limits: Limits, owned: bool, k: string)
    requires Claimable(w, key, kind, now, limits) && k in Records(w)
    ensures var records' := Store.Update(w.moment.state, key, Grant(kind, limits.maxAttempts), now).records;
      k in records' && Undisturbed(owned, Records(w)[k], records'[k])
  {
    if k == key {
      GrantUndisturbs(w, key, kind, now, limits, owned);
    } else {
      UndisturbedItself(owned, Records(w)[k]);
    }
  }

  lemma GrantLeavesRoutine(cfg: Config, limits: Limits, w: World, key: string, kind: Work, now: Time, m': Moment,
                           rt: Routine)
    requires Configured(cfg, limits) && StoreInv(w.moment.state, w.moment.ledger, limits)
    requires Claimable(w, key, kind, now, limits) && RoutineInv(cfg, w.moment, rt)
    requires RunStep(w.moment, Change(key, Grant(kind, limits.maxAttempts), now), m', limits)
    ensures RoutineInv(cfg, m', rt)
  {
    GrantUndisturbsAny(w, key, kind, now, limits, rt.facts.start.provider == cfg.provider, rt.key);
    BystanderStays(cfg, limits, w.moment, Change(key, Grant(kind, limits.maxAttempts), now), m', rt);
  }

  lemma ExclusiveWithNew(cfg: Config, routines: map<nat, Routine>, id: nat, rt: Routine)
    requires Exclusive(cfg, routines) && id !in routines
    requires forall i | i in routines && routines[i].key == rt.key :: !Holder(cfg, routines[i])
    ensures Exclusive(cfg, routines[id := rt])
  {
  }

  lemma GrantLeavesRoutines(cfg: Config, limits: Limits, w: World, key: string, kind: Work, now: Time, m': Moment)
    requires Configured(cfg, limits) && StoreInv(w.moment.state, w.moment.ledger, limits) && RoutinesHold(cfg, w)
    requires Claimable(w, key, kind, now, limits)
    requires RunStep(w.moment, Change(key, Grant(kind, limits.maxAttempts), now), m', limits)
    ensures RoutinesHold(cfg, World(m', w.routines))
  {
    forall i, rt | i in w.routines && w.routines[i] == rt ensures RoutineInv(cfg, m', rt) {
      assert RoutineInv(cfg, w.moment, rt);
      GrantLeavesRoutine(cfg, limits, w, key, kind, now, m', rt);
    }
  }

  lemma HoldsWithNew(cfg: Config, w: World, id: nat, rt: Routine, w': World)
    requires RoutinesHold(cfg, World(w'.moment, w.routines)) && RoutineInv(cfg, w'.moment, rt)
    requires w'.routines == w.routines[id := rt]
    ensures RoutinesHold(cfg, w')
  {
    forall i, other | i in w'.routines && w'.routines[i] == other ensures RoutineInv(cfg, w'.moment, other) {
      assert i == id || World(w'.moment, w.routines).routines[i] == other;
    }
  }

  lemma ClaimsKeeps(cfg: Config, limits: Limits, w: World, id: nat, key: string, kind: Work, canceled: bool,
                    now: Time, w': World)
    requires Configured(cfg, limits) && WorldInv(cfg, limits, w) && Claimable(w, key, kind, now, limits)
    requires id !in w.routines
    requires RunStep(w.moment, Change(key, Grant(kind, limits.maxAttempts), now), w'.moment, limits)
    requires key in Records(w') && w'.routines == w.routines[id := Worker(cfg, key, Records(w')[key], kind, canceled)]
    ensures WorldInv(cfg, limits, w')
  {
    var worker := Worker(cfg, key, Records(w')[key], kind, canceled);
    RunStepKeeps(w.moment, Change(key, Grant(kind, limits.maxAttempts), now), w'.moment, limits);
    NewWorker(cfg, limits, w, key, kind, canceled, now, w'.moment);
    GrantLeavesRoutines(cfg, limits, w, key, kind, now, w'.moment);
    HoldsWithNew(cfg, w, id, worker, w');
    forall i | i in w.routines && w.routines[i].key == key ensures !Holder(cfg, w.routines[i]) {
      ClaimableIsFree(cfg, limits, w, key, kind, now, i);
    }
    ExclusiveWithNew(cfg, w.routines, id, worker);
  }

  lemma NewWorker(cfg: Config, limits: Limits, w: World, key: string, kind: Work, canceled: bool, now: Time, m': Moment)
    requires Configured(cfg, limits) && Claimable(w, key, kind, now, limits)
    requires RunStep(w.moment, Change(key, Grant(kind, limits.maxAttempts), now), m', limits)
    requires StoreInv(m'.state, m'.ledger, limits)
    ensures key in m'.state.records && RoutineInv(cfg, m', Worker(cfg, key, m'.state.records[key], kind, canceled))
  {
    Granted(w, key, kind, now, limits);
    WorkerStarts(cfg, limits, m', key, kind, canceled);
  }

  lemma UndisturbedItself(owned: bool, r: Record)
    ensures Undisturbed(owned, r, r)
  {
  }

  lemma ReaperStarts(cfg: Config, limits: Limits, m: Moment, key: string, listing: Listing, now: Time)
    requires Configured(cfg, limits) && StoreInv(m.state, m.ledger, limits)
    requires key in m.state.records && Selected(m.state.records[key], listing, now)
    ensures RoutineInv(cfg, m, ReaperRoutine(cfg, key, m.state.records[key], listing, now))
  {
    var r := m.state.records[key];
    assert RecordInv(key, r, limits.maxAttempts);
    ReapingIsSafe(cfg, Facts(Reaper(listing, now), r, Begin), listing, now);
  }

  lemma ListsKeeps(cfg: Config, limits: Limits, w: World, id: nat, key: string, listing: Listing, now: Time, w': World)
    requires Configured(cfg, limits) && WorldInv(cfg, limits, w) && id !in w.routines
    requires key in Records(w) && Selected(Records(w)[key], listing, now) && w'.moment == w.moment
    requires w'.routines == w.routines[id := ReaperRoutine(cfg, key, Records(w)[key], listing, now)]
    ensures WorldInv(cfg, limits, w')
  {
    ReaperStarts(cfg, limits, w.moment, key, listing, now);
    assert World(w'.moment, w.routines) == w;
    HoldsWithNew(cfg, w, id, ReaperRoutine(cfg, key, Records(w)[key], listing, now), w');
  }

  // Turns of a routine

  /** Learning something that commits nothing leaves the claim, the registration and the origin as they were. */
  lemma LearningKeepsRelated(cfg: Config, records: map<string, Record>, rt: Routine, x: Happening, next: Program)
    requires Related(cfg, records, rt) && !x.Did?
    ensures Related(cfg, records, Advance(rt, x, next))
    ensures Holds(Advance(rt, x, next).facts.history) <==> Holds(rt.facts.history)
  {
  }

  lemma MoveKeeps(cfg: Config, limits: Limits, w: World, i: nat, rt': Routine, w': World)
    requires WorldInv(cfg, limits, w) && w'.moment.state == w.moment.state
    requires LedgerGrows(w.moment.ledger, w'.moment.ledger)
    requires OneMoves(w.routines, i, rt', w'.routines) && RoutineInv(cfg, w'.moment, rt')
    ensures WorldInv(cfg, limits, w')
  {
    LedgerGrowthKeeps(w.moment.state, w.moment.ledger, w'.moment.ledger, limits);
    forall j, rt | j in w'.routines && w'.routines[j] == rt ensures RoutineInv(cfg, w'.moment, rt) {
      if j != i {
        assert RoutineInv(cfg, w.moment, w.routines[j]);
        GroundedStays(w.moment.ledger, w'.moment.ledger, rt, cfg.maxAttempts);
      }
    }
    ExclusiveStays(cfg, w.routines, i, rt', w'.routines);
  }

  lemma LooksKeeps(cfg: Config, limits: Limits, w: World, i: nat, tick: Tick, w': World)
    requires Configured(cfg, limits) && WorldInv(cfg, limits, w) && i in w.routines && w.routines[i].program.Get?
    requires w'.moment == w.moment
    requires w'.routines == w.routines[i := Advance(w.routines[i], Read(Current(w, w.routines[i].key), tick),
                                                    w.routines[i].program.next(Current(w, w.routines[i].key), tick))]
    ensures WorldInv(cfg, limits, w')
  {
    var rt := w.routines[i];
    var x := Read(Current(w, rt.key), tick);
    assert RoutineInv(cfg, w.moment, rt);
    assert RecordInv(rt.key, Records(w)[rt.key], limits.maxAttempts);
    LearningKeepsRelated(cfg, Records(w), rt, x, w'.routines[i].program);
    MoveKeeps(cfg, limits, w, i, w'.routines[i], w');
  }

  lemma FailsToSaveKeeps(cfg: Config, limits: Limits, w: World, i: nat, tick: Tick, w': World)
    requires Configured(cfg, limits) && WorldInv(cfg, limits, w) && i in w.routines && w.routines[i].program.Commit?
    requires w'.moment == w.moment
    requires w'.routines == w.routines[i :=
        Advance(w.routines[i], DidNot(w.routines[i].program.action, tick), w.routines[i].program.failed(tick))]
    ensures WorldInv(cfg, limits, w')
  {
    var rt := w.routines[i];
    assert RoutineInv(cfg, w.moment, rt);
    LearningKeepsRelated(cfg, Records(w), rt, DidNot(rt.program.action, tick), w'.routines[i].program);
    MoveKeeps(cfg, limits, w, i, w'.routines[i], w');
  }

  /** The registration GitHub issues is recorded as issued to this job. */
  lemma IssueIsBound(cfg: Config, ledger: Ledger, rt: Routine, answer: Answer)
    requires Grounded(ledger, rt, cfg.maxAttempts) && LedgerInv(ledger) && rt.program.Call? && !IsMarkerKey(rt.key)
    requires MayAsk(cfg, rt.facts, rt.program.request) && Plausible(rt.program.request, answer)
    requires IssuesFresh(ledger, rt.program.request, answer)
    ensures LedgerGrows(ledger, LedgerAfter(ledger, rt, rt.program.request, answer))
  {
  }

  lemma AnswerIsGrounded(cfg: Config, ledger: Ledger, rt: Routine, answer: Answer, tick: Tick, next: Program)
    requires Grounded(ledger, rt, cfg.maxAttempts) && rt.program.Call?
    requires MayAsk(cfg, rt.facts, rt.program.request) && Plausible(rt.program.request, answer)
    requires LedgerGrows(ledger, LedgerAfter(ledger, rt, rt.program.request, answer))
    ensures Grounded(LedgerAfter(ledger, rt, rt.program.request, answer),
        Advance(rt, Asked(rt.program.request, answer, tick), next),
                     cfg.maxAttempts)
  {
  }

  lemma AnswersKeeps(cfg: Config, limits: Limits, w: World, i: nat, answer: Answer, tick: Tick, w': World)
    requires Configured(cfg, limits) && WorldInv(cfg, limits, w) && i in w.routines && w.routines[i].program.Call?
    requires Plausible(w.routines[i].program.request, answer)
    requires IssuesFresh(w.moment.ledger, w.routines[i].program.request, answer)
    requires w'.moment.state == w.moment.state
    requires w'.moment.ledger == LedgerAfter(w.moment.ledger, w.routines[i], w.routines[i].program.request, answer)
    requires w'.routines == w.routines[i := Advance(w.routines[i], Asked(w.routines[i].program.request, answer, tick),
                                                    w.routines[i].program.answered(answer, tick))]
    ensures WorldInv(cfg, limits, w') && LedgerGrows(w.moment.ledger, w'.moment.ledger)
  {
    var rt := w.routines[i];
    assert RoutineInv(cfg, w.moment, rt);
    AnsweredRoutine(cfg, w.moment, rt, answer, tick);
    MoveKeeps(cfg, limits, w, i, w'.routines[i], w');
  }

  /** The answered routine keeps its invariant, over the ledger that its answer may have extended. */
  lemma AnsweredRoutine(cfg: Config, m: Moment, rt: Routine, answer: Answer, tick: Tick)
    requires RoutineInv(cfg, m, rt) && LedgerInv(m.ledger) && rt.program.Call?
    requires Plausible(rt.program.request, answer) && IssuesFresh(m.ledger, rt.program.request, answer)
    ensures var rt' := Advance(rt, Asked(rt.program.request, answer, tick), rt.program.answered(answer, tick));
      var ledger' := LedgerAfter(m.ledger, rt, rt.program.request, answer);
      && LedgerGrows(m.ledger, ledger') && RoutineInv(cfg, Moment(m.state, ledger'), rt')
      && (Holds(rt'.facts.history) <==> Holds(rt.facts.history))
  {
    var next := rt.program.answered(answer, tick);
    SafeAsks(cfg, rt.facts, rt.program);
    if rt.program.request.GenerateJITConfig? {
      IssueIsBound(cfg, m.ledger, rt, answer);
    }
    AnswerIsGrounded(cfg, m.ledger, rt, answer, tick, next);
    LearningKeepsRelated(cfg, m.state.records, rt, Asked(rt.program.request, answer, tick), next);
  }

  lemma EndsKeeps(cfg: Config, limits: Limits, w: World, i: nat, w': World)
    requires WorldInv(cfg, limits, w) && w'.moment == w.moment && w'.routines == w.routines - {i}
    ensures WorldInv(cfg, limits, w')
  {
    forall j, rt | j in w'.routines && w'.routines[j] == rt ensures RoutineInv(cfg, w'.moment, rt) {
      assert w.routines[j] == rt && RoutineInv(cfg, w.moment, rt);
    }
  }
}
