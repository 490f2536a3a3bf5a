/**
 Runs of the whole controller, turn by turn, that show what the general results leave open: a job
 created twice in one epoch because its orphan was lost, an instance released although the sweep was
 told to spare it, and a demand that is dropped because it arose during the deletion.
 */
module ControllerExamples {
  import opened Wrappers
  import opened Names
  import opened Lifecycle
  import opened Store
  import opened Invariants
  import opened StoreInvariant
  import opened Runs
  import opened Examples
  import opened Protocol
  import opened Workers
  import opened Reapers
  import opened Controller
  import opened ControllerLaws

  const RUNNER_NAME: string := "eph-r"

  /** One attempt, one runner, and a provider that cannot confirm absence. */
  const CFG: Config := Config(1, AWS, false, 0, 1, 0, 0, (t: Time) => t, (job: Job) => RUNNER_NAME)
  const ALONE := Limits(1, 1)

  // Building a run turn by turn

  datatype Play = Play(worlds: seq<World>, turns: seq<Turn>)

  ghost predicate Plays(p: Play) { IsControllerRun(CFG, ALONE, p.worlds, p.turns) }

  function Now(p: Play): World
    requires p.worlds != []
  {
    p.worlds[|p.worlds| - 1]
  }

  ghost predicate Grows(p: Play, q: Play) {
    && |p.worlds| <= |q.worlds| && |p.turns| <= |q.turns|
    && (forall i | 0 <= i < |p.worlds| :: q.worlds[i] == p.worlds[i])
    && (forall i | 0 <= i < |p.turns| :: q.turns[i] == p.turns[i])
  }

  lemma TurnAtStays(p: Play, q: Play, i: nat)
    requires Plays(p) && Grows(p, q) && |q.worlds| == |q.turns| + 1 && i < |p.turns|
    ensures TurnAt(CFG, ALONE, q.worlds, q.turns, i)
  {
    assert TurnAt(CFG, ALONE, p.worlds, p.turns, i);
  }

  lemma Extended(p: Play, turn: Turn, w: World) returns (q: Play)
    requires Plays(p) && Takes(CFG, ALONE, Now(p), turn, w)
    ensures Plays(q) && Grows(p, q) && Now(q) == w && q.turns == p.turns + [turn]
  {
    q := Play(p.worlds + [w], p.turns + [turn]);
    forall i: nat | i < |q.turns| ensures TurnAt(CFG, ALONE, q.worlds, q.turns, i) {
      if i < |p.turns| {
        TurnAtStays(p, q, i);
      }
    }
  }

  function Alone(m: Moment, rt: Routine): World { World(m, map[0 := rt]) }

  /** A turn that leaves the store alone is a step of it that does nothing. */
  lemma NothingHappens(s: State)
    ensures Step(s, SweepOrphans(Unbound, 0, 0), s)
  {
    assert ReleaseSweptOrphans(s.records, Unbound, 0, 0) == s.records;
  }

  const TICK := Tick(1, false)

  lemma Hears(p: Play, m: Moment, rt: Routine, answer: Answer) returns (q: Play)
    requires Plays(p) && Now(p) == Alone(m, rt) && rt.program.Call? && Plausible(rt.program.request, answer)
    requires !rt.program.request.GenerateJITConfig?
    ensures Plays(q) && Grows(p, q) && q.turns == p.turns + [Answers(0, answer, TICK)]
    ensures Now(q) == Alone(m, Advance(rt, Asked(rt.program.request, answer, TICK), rt.program.answered(answer, TICK)))
  {
    NothingHappens(m.state);
    var rt' := Advance(rt, Asked(rt.program.request, answer, TICK), rt.program.answered(answer, TICK));
    assert map[0 := rt][0 := rt'] == map[0 := rt'];
    q := Extended(p, Answers(0, answer, TICK), Alone(m, rt'));
  }

  lemma Reads(p: Play, m: Moment, rt: Routine) returns (q: Play)
    requires Plays(p) && Now(p) == Alone(m, rt) && rt.program.Get?
    ensures Plays(q) && Grows(p, q)
    ensures var current := Current(Alone(m, rt), rt.key);
      Now(q) == Alone(m, Advance(rt, Read(current, TICK), rt.program.next(current, TICK)))
  {
    NothingHappens(m.state);
    var current := Current(Alone(m, rt), rt.key);
    var rt' := Advance(rt, Read(current, TICK), rt.program.next(current, TICK));
    assert map[0 := rt][0 := rt'] == map[0 := rt'];
    q := Extended(p, Looks(0, TICK), Alone(m, rt'));
  }

  /** The demand gate is passed: two turns. */
  lemma PassesGate(p: Play, m: Moment, f: Facts, r: Record, proceed: Program) returns (q: Play, g: Facts)
    requires Plays(p) && Now(p) == Alone(m, Routine(FIRST, f, RequireQueuedJob(CFG, r, proceed)))
    requires FIRST in m.state.records && !m.state.records[FIRST].jobCompleted
    ensures Plays(q) && Grows(p, q) && Now(q) == Alone(m, Routine(FIRST, g, proceed))
    ensures g.role == f.role && g.start == f.start
  {
    var rt := Routine(FIRST, f, RequireQueuedJob(CFG, r, proceed));
    var read := Reads(p, m, rt);
    var rt1 := Advance(rt, Read(Some(m.state.records[FIRST]), TICK),
        rt.program.next(Some(m.state.records[FIRST]), TICK));
    q := Hears(read, m, rt1, JobIs(JobQueued));
    g := rt1.facts.Now(Asked(rt1.program.request, JobIs(JobQueued), TICK));
  }

  lemma Saved(p: Play, m: Moment, rt: Routine, now: Time) returns (q: Play, c: Commitment)
    requires Plays(p) && Now(p) == Alone(m, rt) && now != ZERO_TIME
    requires rt.program.Commit? && rt.program.action.Alter? && !rt.program.action.mutation.AcceptDeletion?
    requires rt.key in m.state.records
    requires rt.facts.role.Reaper? ==> m.state.records[rt.key].epoch == rt.facts.start.epoch
    ensures Plays(q) && Grows(p, q) && q.turns == p.turns + [Saves(0, now)]
    ensures Now(q) == Alone(Moment(Update(m.state, rt.key, rt.program.action.mutation, now), m.ledger),
                            Advance(rt, Did(rt.program.action, c), rt.program.saved(c)))
    ensures c.now == now && c.before == m.state.records[rt.key]
  {
    var s' := Update(m.state, rt.key, rt.program.action.mutation, now);
    c := Commitment(m.state.records[rt.key], s'.records[rt.key], now);
    var rt' := Advance(rt, Did(rt.program.action, c), rt.program.saved(c));
    assert map[0 := rt][0 := rt'] == map[0 := rt'];
    q := Extended(p, Saves(0, now), Alone(Moment(s', m.ledger), rt'));
  }

  lemma Stops(p: Play, m: Moment, rt: Routine) returns (q: Play)
    requires Plays(p) && Now(p) == Alone(m, rt) && rt.program.Done?
    ensures Plays(q) && Grows(p, q) && Now(q) == World(m, map[])
  {
    NothingHappens(m.state);
    assert map[0 := rt] - {0} == map[];
    q := Extended(p, Ends(0), World(m, map[]));
  }

  /** The outside acts; s' is what its operation makes of the store. */
  lemma Happens(p: Play, m: Moment, routines: map<nat, Routine>, op: Op, s': State) returns (q: Play)
    requires Plays(p) && Now(p) == World(m, routines) && Ambient(World(m, routines), op) && Step(m.state, op, s')
    ensures Plays(q) && Grows(p, q) && q.turns == p.turns + [Outside(op)]
    ensures Now(q) == World(Moment(s', m.ledger), routines)
  {
    q := Extended(p, Outside(op), World(Moment(s', m.ledger), routines));
  }

  /** The lone record is claimed, and its worker starts. */
  lemma IsClaimed(p: Play, r: Record, index: map<string, string>, ledger: Ledger, kind: Work, now: Time)
    returns (q: Play)
    requires Plays(p) && Now(p) == World(Moment(State(map[FIRST := r], index), ledger), map[])
    requires Claimable(Now(p), FIRST, kind, now, ALONE)
    ensures var r' := Mutate(Grant(kind, 1), r, now);
      && Plays(q) && Grows(p, q) && q.turns == p.turns + [Claims(0, FIRST, kind, false, now)]
      && Now(q) == Alone(Moment(State(map[FIRST := r'], index), ledger), Worker(CFG, FIRST, r', kind, false))
  {
    var r' := Mutate(Grant(kind, 1), r, now);
    assert map[FIRST := r][FIRST := r'] == map[FIRST := r'];
    assert map[][0 := Worker(CFG, FIRST, r', kind, false)] == map[0 := Worker(CFG, FIRST, r', kind, false)];
    q := Extended(p, Claims(0, FIRST, kind, false, now),
                  Alone(Moment(State(map[FIRST := r'], index), ledger), Worker(CFG, FIRST, r', kind, false)));
  }

  /** A registration for the first job, as GitHub issues it. */
  function Issuing(ledger: Ledger, runnerID: int): Ledger {
    ledger[RunnerIdentity("o", "r", runnerID) := Issue(FIRST, FullName("o", "r"), 1, runnerID)]
  }

  lemma IsIssued(p: Play, m: Moment, f: Facts, r: Record, runnerID: int) returns (q: Play, g: Facts)
    requires Plays(p) && Now(p) == Alone(m, Routine(FIRST, f, GenerateConfig(CFG, r)))
    requires r.job == Event(1, 0).job == f.start.job && runnerID != 0
    requires RunnerIdentity("o", "r", runnerID) !in m.ledger
    ensures Plays(q) && Grows(p, q) && g.role == f.role && g.start == f.start
    ensures Now(q) == Alone(Moment(m.state, Issuing(m.ledger, runnerID)),
                            Routine(FIRST, g, GenerateConfig(CFG, r).answered(Issued(runnerID), TICK)))
  {
    NothingHappens(m.state);
    var rt := Routine(FIRST, f, GenerateConfig(CFG, r));
    var rt' := Advance(rt, Asked(rt.program.request, Issued(runnerID), TICK),
        rt.program.answered(Issued(runnerID), TICK));
    assert map[0 := rt][0 := rt'] == map[0 := rt'];
    q := Extended(p, Answers(0, Issued(runnerID), TICK), Alone(Moment(m.state, Issuing(m.ledger, runnerID)), rt'));
    g := rt'.facts;
  }

  function View(r: Record, runnerID: int): Record {
    r.(runnerID := runnerID, runnerOwned := true, runnerName := RUNNER_NAME)
  }

  function Indexing(index: map<string, string>, runnerID: int): map<string, string> {
    index[RunnerIdentity("o", "r", runnerID) := FIRST]
  }

  lemma RegistrationOf(r: Record, index: map<string, string>, runnerID: int, now: Time)
    requires r.job == Event(1, 0).job && !r.Terminal()
    ensures MarkJITCreated(State(map[FIRST := r], index), FIRST, runnerID, RUNNER_NAME, now)
         == State(map[FIRST := Registered(r, runnerID, RUNNER_NAME, now)], Indexing(index, runnerID))
  {
    ExampleNames();
    MarkerKeyInjective("o", "r", runnerID, "", "", 0);
    assert MarkerKey("o", "r", runnerID) !in map[FIRST := r];
    assert map[FIRST := r][FIRST := Registered(r, runnerID, RUNNER_NAME, now)]
        == map[FIRST := Registered(r, runnerID, RUNNER_NAME, now)];
  }

  /** The issued registration is saved: the worker stands before its second gate. */
  lemma IsRegistered(p: Play, r: Record, index: map<string, string>, ledger: Ledger, f: Facts, view: Record,
                     runnerID: int, now: Time) returns (q: Play, g: Facts)
    requires Plays(p) && now != ZERO_TIME && r.job == Event(1, 0).job && !r.Terminal() && !f.role.Reaper?
    requires Now(p) == Alone(Moment(State(map[FIRST := r], index), ledger),
                             Routine(FIRST, f, GenerateConfig(CFG, view).answered(Issued(runnerID), TICK)))
    ensures Plays(q) && Grows(p, q) && g.role == f.role && g.start == f.start
    ensures Now(q) == Alone(
      Moment(State(map[FIRST := Registered(r, runnerID, RUNNER_NAME, now)], Indexing(index, runnerID)), ledger),
      Routine(FIRST, g, RequireQueuedJob(CFG, View(view, runnerID), CreateInstance(CFG, View(view, runnerID)))))
  {
    RegistrationOf(r, index, runnerID, now);
    var rt := Routine(FIRST, f, GenerateConfig(CFG, view).answered(Issued(runnerID), TICK));
    var s' := State(map[FIRST := Registered(r, runnerID, RUNNER_NAME, now)], Indexing(index, runnerID));
    var c := Commitment(r, s'.records[FIRST], now);
    var rt' := Advance(rt, Did(rt.program.action, c), rt.program.saved(c));
    assert map[0 := rt][0 := rt'] == map[0 := rt'];
    q := Extended(p, Saves(0, now), Alone(Moment(s', ledger), rt'));
    g := rt'.facts;
  }

  /** From an unregistered claim to the request for the instance. */
  lemma Prepares(p: Play, r: Record, index: map<string, string>, ledger: Ledger, f: Facts, view: Record,
                 runnerID: int, now: Time) returns (q: Play, g: Facts)
    requires Plays(p) && now != ZERO_TIME && r.job == view.job == f.start.job == Event(1, 0).job
    requires !r.Terminal() && !r.jobCompleted && !f.role.Reaper?
    requires runnerID != 0 && RunnerIdentity("o", "r", runnerID) !in ledger
    requires Now(p)
      == Alone(Moment(State(map[FIRST := r], index), ledger), Routine(FIRST, f, GenerateConfig(CFG, view)))
    ensures Plays(q) && Grows(p, q) && g.role == f.role && g.start == f.start
    ensures Now(q) == Alone(
      Moment(State(map[FIRST := Registered(r, runnerID, RUNNER_NAME, now)], Indexing(index, runnerID)),
          Issuing(ledger, runnerID)),
      Routine(FIRST, g, CreateInstance(CFG, View(view, runnerID))))
  {
    var m := Moment(State(map[FIRST := r], index), ledger);
    var p1, f1 := IsIssued(p, m, f, view, runnerID);
    var p2, f2 := IsRegistered(p1, r, index, Issuing(ledger, runnerID), f1, view, runnerID, now);
    var m2 := Moment(State(map[FIRST := Registered(r, runnerID, RUNNER_NAME, now)], Indexing(index, runnerID)),
        Issuing(ledger, runnerID));
    q, g := PassesGate(p2, m2, f2, View(view, runnerID), CreateInstance(CFG, View(view, runnerID)));
  }

  /** From a started provision worker to the replacement of a stale registration. */
  lemma Finds(p: Play, m: Moment, r: Record) returns (q: Play, g: Facts)
    requires Plays(p) && Now(p) == Alone(m, Worker(CFG, FIRST, r, Provision, false))
    requires FIRST in m.state.records && !m.state.records[FIRST].jobCompleted && r.provider == AWS
    ensures Plays(q) && Grows(p, q) && Now(q) == Alone(m, Routine(FIRST, g, ReplaceStaleRunner(CFG, r)))
    ensures g.role == Provisioner(false) && g.start == r
  {
    var rt := Worker(CFG, FIRST, r, Provision, false);
    var p1 := Hears(p, m, rt, NotLocated);
    var rt1 := Advance(rt, Asked(rt.program.request, NotLocated, TICK), rt.program.answered(NotLocated, TICK));
    q, g := PassesGate(p1, m, rt1.facts, r, ReplaceStaleRunner(CFG, r));
  }

  lemma GrowsFurther(p: Play, q: Play, r: Play)
    requires Grows(p, q) && Grows(q, r)
    ensures Grows(p, r)
  {
  }

  // The common beginning: the job is queued, claimed and registered, and its instance asked for

  const START := World(Moment(State(map[], map[]), map[]), map[])
  const INDEX: map<string, string> := map[RUNNER := FIRST]
  const BOUND: Record := Registered(Claimed(1, 1, 2), 7, RUNNER_NAME, 3)
  const ASKING: Program := CreateInstance(CFG, View(Claimed(1, 1, 2), 7))

  lemma NothingYet() returns (p: Play)
    ensures Plays(p) && Now(p) == World(START.moment, map[])
  {
    p := Play([START], []);
  }

  lemma FirstDelivery()
    ensures Ambient(START, Create(Event(1, 0), 1))
    ensures Apply(START.moment.state, Create(Event(1, 0), 1)) == State(map[FIRST := Queued(1, 1)], map[])
  {
    ExampleNames();
    assert map[][FIRST := Queued(1, 1)] == map[FIRST := Queued(1, 1)];
  }

  lemma IsQueued() returns (p: Play)
    ensures Plays(p) && Now(p) == World(Moment(State(map[FIRST := Queued(1, 1)], map[]), map[]), map[])
  {
    var empty := NothingYet();
    FirstDelivery();
    p := Happens(empty, START.moment, map[], Create(Event(1, 0), 1), State(map[FIRST := Queued(1, 1)], map[]));
  }

  lemma IsClaimable()
    ensures Claimable(World(Moment(State(map[FIRST := Queued(1, 1)], map[]), map[]), map[]), FIRST, Provision, 2, ALONE)
    ensures Mutate(Grant(Provision, 1), Queued(1, 1), 2) == Claimed(1, 1, 2)
  {
    assert LiveKeys(map[FIRST := Queued(1, 1)]) == {};
  }

  lemma AsksForInstance() returns (p: Play, g: Facts)
    ensures Plays(p) && g.role == Provisioner(false) && g.start == Claimed(1, 1, 2)
    ensures Now(p) == Alone(Moment(State(map[FIRST := BOUND], INDEX), ISSUED), Routine(FIRST, g, ASKING))
  {
    var queued := IsQueued();
    IsClaimable();
    var claimed := IsClaimed(queued, Queued(1, 1), map[], map[], Provision, 2);
    var m := Moment(State(map[FIRST := Claimed(1, 1, 2)], map[]), map[]);
    var found, f := Finds(claimed, m, Claimed(1, 1, 2));
    assert ReplaceStaleRunner(CFG, Claimed(1, 1, 2)) == GenerateConfig(CFG, Claimed(1, 1, 2));
    p, g := Prepares(found, Claimed(1, 1, 2), map[], map[], f, Claimed(1, 1, 2), 7, 3);
    assert Indexing(map[], 7) == INDEX && Issuing(map[], 7) == ISSUED;
  }

  // A lost orphan

  lemma IsReopened(p: Play, r: Record, index: map<string, string>, ledger: Ledger, rt: Routine, now: Time)
    returns (q: Play)
    requires Plays(p) && Now(p) == Alone(Moment(State(map[FIRST := r], index), ledger), rt)
    requires RecoverRecord(r, now, 0) == Keep(Recovered(r, now), true)
    requires IsRebuiltIndex(map[FIRST := Recovered(r, now)], index)
    ensures Plays(q) && Grows(p, q)
    ensures Now(q) == World(Moment(State(map[FIRST := Recovered(r, now)], index), ledger), map[])
  {
    assert RecoverRecords(map[FIRST := r], now, 0) == map[FIRST := Recovered(r, now)];
    q := Extended(p, Reopens(now, 0), World(Moment(State(map[FIRST := Recovered(r, now)], index), ledger), map[]));
  }

  const REVIVED: Record := Recovered(BOUND, 5)
  const AGAIN: Record := REVIVED.(status := Provisioning, attempts := 1, updatedAt := 6,
    nextAttemptAt := ZERO_TIME, claim := Provision)
  const CLEARED: Record := AGAIN.(runnerID := 0, runnerOwned := false, updatedAt := 7)

  lemma RevivedIsIndexed()
    ensures RecoverRecord(BOUND, 5, 0) == Keep(REVIVED, true) && IsRebuiltIndex(map[FIRST := REVIVED], INDEX)
  {
    ExampleNames();
    assert IndexWorthy(FIRST, REVIVED) && REVIVED.Identity() == RUNNER;
  }

  lemma RevivedIsClaimable()
    ensures Claimable(World(Moment(State(map[FIRST := REVIVED], INDEX), ISSUED), map[]), FIRST, Provision, 6, ALONE)
    ensures Mutate(Grant(Provision, 1), REVIVED, 6) == AGAIN
  {
    assert LiveKeys(map[FIRST := REVIVED]) == {FIRST};
  }

  lemma StaleIsCleared()
    ensures Mutate(ClearJIT, AGAIN, 7) == CLEARED
    ensures Update(State(map[FIRST := AGAIN], INDEX), FIRST, ClearJIT, 7) == State(map[FIRST := CLEARED], INDEX)
  {
    assert map[FIRST := AGAIN][FIRST := CLEARED] == map[FIRST := CLEARED];
  }

  /** The second worker finds the registration of the first, removes it and forgets it. */
  lemma ReplacesStale(p: Play) returns (q: Play, g: Facts)
    requires Plays(p)
    requires Now(p)
      == Alone(Moment(State(map[FIRST := AGAIN], INDEX), ISSUED), Worker(CFG, FIRST, AGAIN, Provision, false))
    ensures Plays(q) && Grows(p, q) && g.role == Provisioner(false) && g.start == AGAIN
    ensures Now(q)
      == Alone(Moment(State(map[FIRST := CLEARED], INDEX), ISSUED), Routine(FIRST, g, GenerateConfig(CFG, AGAIN)))
  {
    var m := Moment(State(map[FIRST := AGAIN], INDEX), ISSUED);
    var p1, f1 := Finds(p, m, AGAIN);
    var rt1 := Routine(FIRST, f1, ReplaceStaleRunner(CFG, AGAIN));
    var p2 := Hears(p1, m, rt1, Agreed);
    var rt2 := Advance(rt1, Asked(rt1.program.request, Agreed, TICK), rt1.program.answered(Agreed, TICK));
    StaleIsCleared();
    var c;
    q, c := Saved(p2, m, rt2, 7);
    g := rt2.facts.Now(Did(rt2.program.action, c));
  }

  /** The turn answers a request to create an instance for the first job. */
  predicate Creates(p: Play, n: nat, epoch: int, answer: Answer) {
    && n < |p.worlds| && n < |p.turns| && p.turns[n] == Answers(0, answer, TICK) && 0 in p.worlds[n].routines
    && p.worlds[n].routines[0].program.Call?
    && p.worlds[n].routines[0].program.request == CreateRunner(FIRST, epoch, RUNNER_NAME)
  }

  /** The first creation: its outcome is unknown, and the store is opened again before the orphan is saved. */
  lemma LosesOrphan() returns (p: Play, m: nat)
    ensures Plays(p) && Now(p) == World(Moment(State(map[FIRST := REVIVED], INDEX), ISSUED), map[])
    ensures Creates(p, m, 0, Faulted(OutcomeUnknown))
  {
    var asking, g := AsksForInstance();
    m := |asking.turns|;
    var now, rt := Moment(State(map[FIRST := BOUND], INDEX), ISSUED), Routine(FIRST, g, ASKING);
    var heard := Hears(asking, now, rt, Faulted(OutcomeUnknown));
    assert Creates(heard, m, 0, Faulted(OutcomeUnknown));
    RevivedIsIndexed();
    p := IsReopened(heard, BOUND, INDEX, ISSUED, Advance(rt, Asked(rt.program.request, Faulted(OutcomeUnknown), TICK),
                    rt.program.answered(Faulted(OutcomeUnknown), TICK)), 5);
  }

  const SECOND_ASK: Moment :=
    Moment(State(map[FIRST := Registered(CLEARED, 8, RUNNER_NAME, 8)], Indexing(INDEX, 8)), Issuing(ISSUED, 8))

  lemma EightIsNew()
    ensures RunnerIdentity("o", "r", 8) !in ISSUED
  {
    IdentityOfInjective(FullName("o", "r"), 7, FullName("o", "r"), 8);
  }

  lemma StartsOver(p: Play) returns (q: Play, g: Facts)
    requires Plays(p) && Now(p) == World(Moment(State(map[FIRST := REVIVED], INDEX), ISSUED), map[])
    ensures Plays(q) && Grows(p, q) && g.role == Provisioner(false) && g.start == AGAIN
    ensures Now(q)
      == Alone(Moment(State(map[FIRST := CLEARED], INDEX), ISSUED), Routine(FIRST, g, GenerateConfig(CFG, AGAIN)))
  {
    RevivedIsClaimable();
    var p1 := IsClaimed(p, REVIVED, INDEX, ISSUED, Provision, 6);
    q, g := ReplacesStale(p1);
    GrowsFurther(p, p1, q);
  }

  /** The second creation, by the next worker. */
  lemma CreatesAgain(p: Play) returns (q: Play, n: nat)
    requires Plays(p) && Now(p) == World(Moment(State(map[FIRST := REVIVED], INDEX), ISSUED), map[])
    ensures Plays(q) && Grows(p, q) && |p.turns| <= n && Creates(q, n, 0, Created(Instance("i")))
  {
    var p2, f2 := StartsOver(p);
    EightIsNew();
    var p3, f3 := Prepares(p2, CLEARED, INDEX, ISSUED, f2, AGAIN, 8, 8);
    n := |p3.turns|;
    q := Hears(p3, SECOND_ASK, Routine(FIRST, f3, CreateInstance(CFG, View(AGAIN, 8))), Created(Instance("i")));
    GrowsFurther(p2, p3, q);
    GrowsFurther(p, p2, q);
  }

  /**
   A run in which an unknown outcome is retried as a fresh creation: the worker hears it, the store is
   opened again before the orphan is saved, and the next worker creates an instance in the same epoch.
   */
  lemma LostOrphanIsCreatedAgain() returns (p: Play, m: nat, n: nat)
    ensures IsControllerRun(CFG, ALONE, p.worlds, p.turns) && m < n
    ensures Creates(p, m, 0, Faulted(OutcomeUnknown)) && Creates(p, n, 0, Created(Instance("i")))
  {
    var lost;
    lost, m := LosesOrphan();
    p, n := CreatesAgain(lost);
    assert m < |lost.turns| && p.turns[m] == lost.turns[m] && p.worlds[m] == lost.worlds[m];
  }

  // A provisioned runner

  const THERE: InstanceID := Instance("i")
  const PROVISIONED: Record := Mutate(MarkProvisioned(THERE, 7, RUNNER_NAME), BOUND, 4)

  lemma ProvisionedIsSaved()
    ensures Update(State(map[FIRST := BOUND], INDEX), FIRST, MarkProvisioned(THERE, 7, RUNNER_NAME), 4)
         == State(map[FIRST := PROVISIONED], INDEX)
  {
    ExampleNames();
    assert map[FIRST := BOUND][FIRST := PROVISIONED] == map[FIRST := PROVISIONED];
    assert INDEX[RUNNER := FIRST] == INDEX;
  }

  /** The instance is created and recorded, and the worker stops. */
  lemma Provisions(p: Play, m: Moment, g: Facts, view: Record, now: Time) returns (q: Play)
    requires Plays(p) && Now(p) == Alone(m, Routine(FIRST, g, CreateInstance(CFG, view)))
    requires FIRST in m.state.records && !g.role.Reaper? && now != ZERO_TIME
    ensures Plays(q) && Grows(p, q)
    ensures Now(q) == World(
      Moment(Update(m.state, FIRST, MarkProvisioned(THERE, view.runnerID, view.runnerName), now), m.ledger), map[])
  {
    var rt := Routine(FIRST, g, CreateInstance(CFG, view));
    var p1 := Hears(p, m, rt, Created(THERE));
    var rt1 := Advance(rt, Asked(rt.program.request, Created(THERE), TICK),
        RecordInstance(CFG, view, THERE, view.runnerName));
    assert Now(p1) == Alone(m, rt1);
    var p2, c := Saved(p1, m, rt1, now);
    q := Stops(p2,
        Moment(Update(m.state, FIRST, MarkProvisioned(THERE, view.runnerID, view.runnerName), now), m.ledger),
               Advance(rt1, Did(rt1.program.action, c), Done));
    GrowsFurther(p1, p2, q);
    GrowsFurther(p, p1, q);
  }

  /** A provisioned record as the examples go on from it. */
  predicate Running(r: Record) {
    && r.job == Event(1, 0).job && r.provider.AWS? && r.status.Provisioned? && r.claim.NoWork?
    && r.instanceID == THERE && r.runnerID == 7 && r.runnerOwned && r.epoch == 0 && r.deleteAttempts == 0
    && 0 < r.provisionedAt < 50 && r.nextAttemptAt == ZERO_TIME && !r.jobCompleted && !r.recheckDemand
       && !r.deferDeletion
  }

  function Lone(r: Record): Moment { Moment(State(map[FIRST := r], INDEX), ISSUED) }

  lemma ProvisionedRuns()
    ensures Running(PROVISIONED)
  {
    assert BOUND.job == Event(1, 0).job && BOUND.provider.AWS? && BOUND.status.Provisioning?;
  }

  lemma IsProvisioned() returns (p: Play, r: Record)
    ensures Plays(p) && Now(p) == World(Lone(r), map[]) && Running(r)
  {
    var asking, g := AsksForInstance();
    ProvisionedIsSaved();
    ProvisionedRuns();
    p := Provisions(asking, Lone(BOUND), g, View(Claimed(1, 1, 2), 7), 4);
    r := PROVISIONED;
  }

  /** A mutation of the lone record. */
  lemma LoneUpdate(r: Record, m: Mutation, now: Time)
    requires !m.MarkProvisioned?
    ensures Update(Lone(r).state, FIRST, m, now) == Lone(Mutate(m, r, now)).state
  {
    assert map[FIRST := r][FIRST := Mutate(m, r, now)] == map[FIRST := Mutate(m, r, now)];
  }

  // An instance the sweep was told to spare

  lemma RunnerFinishes(r: Record) returns (r': Record, op: Op)
    requires Running(r)
    ensures Ambient(World(Lone(r), map[]), op) && Step(Lone(r).state, op, Lone(r').state)
    ensures r' == RunnerCompleted(r, Event(1, 7), 5)
  {
    ExampleNames();
    op, r' := Complete(Event(1, 7), 5), RunnerCompleted(r, Event(1, 7), 5);
    assert RunnerMatched(Lone(r).state, Event(1, 7)) && IndexedKey(Lone(r).state, Event(1, 7)) == FIRST;
    assert map[FIRST := r][FIRST := r'] == map[FIRST := r'];
  }

  /** The outside acts on the lone record while no routine is running. */
  lemma LoneHappens(p: Play, r: Record, op: Op, r': Record) returns (q: Play)
    requires Plays(p) && Now(p) == World(Lone(r), map[])
    requires Ambient(World(Lone(r), map[]), op) && Step(Lone(r).state, op, Lone(r').state)
    ensures Plays(q) && Grows(p, q) && Now(q) == World(Lone(r'), map[])
  {
    q := Happens(p, Lone(r), map[], op, Lone(r').state);
  }

  lemma JobFinishes(p: Play, r: Record) returns (q: Play, r': Record)
    requires Plays(p) && Now(p) == World(Lone(r), map[]) && Running(r)
    ensures Plays(q) && Grows(p, q) && Now(q) == World(Lone(r'), map[]) && r' == RunnerCompleted(r, Event(1, 7), 5)
  {
    var op;
    r', op := RunnerFinishes(r);
    q := LoneHappens(p, r, op, r');
  }

  /** Claimed for the last deletion attempt. */
  predicate LastAttempt(r: Record) {
    && r.status.Deleting? && r.claim.Delete? && r.deleteAttempts == 1 && r.provider.AWS?
    && r.instanceID == THERE && 0 < r.provisionedAt < 50
  }

  lemma DeletionGranted(r: Record)
    requires Running(r)
    ensures var r' := RunnerCompleted(r, Event(1, 7), 5);
      && Claimable(World(Lone(r'), map[]), FIRST, Delete, 6, ALONE)
      && LastAttempt(Mutate(Grant(Delete, 1), r', 6))
  {
  }

  lemma IsBeingDeleted() returns (p: Play, r: Record)
    ensures Plays(p) && Now(p) == Alone(Lone(r), Worker(CFG, FIRST, r, Delete, false)) && LastAttempt(r)
  {
    var provisioned, r0 := IsProvisioned();
    var finished, r1 := JobFinishes(provisioned, r0);
    DeletionGranted(r0);
    r := Mutate(Grant(Delete, 1), r1, 6);
    p := IsClaimed(finished, r1, INDEX, ISSUED, Delete, 6);
  }

  /** The deletion is refused by the provider, and the failure is saved. */
  lemma FailsToDelete(p: Play, r: Record, now: Time) returns (q: Play, rt: Routine)
    requires Plays(p) && Now(p) == Alone(Lone(r), Worker(CFG, FIRST, r, Delete, false))
    requires r.provider.AWS? && now != ZERO_TIME
    ensures Plays(q) && Grows(p, q) && |p.turns| < |q.turns|
    ensures Now(q) == Alone(Lone(Mutate(MarkDeleteFailed(Cause("delete"), 1, 1), r, now)), rt)
  {
    var rt0 := Worker(CFG, FIRST, r, Delete, false);
    var p1 := Hears(p, Lone(r), rt0, Faulted(OtherFailure));
    var rt1 := Advance(rt0, Asked(rt0.program.request, Faulted(OtherFailure), TICK),
        RetryDelete(CFG, OtherFailure, TICK));
    assert Now(p1) == Alone(Lone(r), rt1);
    LoneUpdate(r, MarkDeleteFailed(Cause("delete"), 1, 1), now);
    var c;
    q, c := Saved(p1, Lone(r), rt1, now);
    rt := Advance(rt1, Did(rt1.program.action, c), rt1.program.saved(c));
    GrowsFurther(p, p1, q);
  }

  lemma GivenUpIsSweepable(r: Record, now: Time)
    requires LastAttempt(r)
    ensures Knows(r)
    ensures var r' := Mutate(MarkDeleteFailed(Cause("delete"), 1, 1), r, now);
      r'.instanceID == THERE && Sweepable(r', AWS, 100)
  {
  }

  lemma IsSwept(p: Play, r: Record, rt: Routine) returns (q: Play)
    requires Plays(p) && Now(p) == Alone(Lone(r), rt) && Sweepable(r, AWS, 100)
    ensures Plays(q) && Grows(p, q) && q.turns == p.turns + [Outside(SweepOrphans(AWS, 100, 8))]
    ensures FIRST in Records(Now(q)) && Records(Now(q))[FIRST].instanceID.NoInstance?
  {
    q := Happens(p, Lone(r), map[0 := rt], SweepOrphans(AWS, 100, 8),
                 State(ReleaseSweptOrphans(map[FIRST := r], AWS, 100, 8), INDEX));
  }

  /**
   A run in which the sweep's release takes an instance that the sweep was told to spare: it is known
   when instances are listed at i, the delete worker then gives up, and the release at j clears it.
   */
  lemma SparedInstanceIsReleased() returns (p: Play, i: nat, j: nat)
    ensures IsControllerRun(CFG, ALONE, p.worlds, p.turns) && i < j < |p.turns|
    ensures FIRST in Records(p.worlds[i]) && Knows(Records(p.worlds[i])[FIRST])
    ensures Records(p.worlds[i])[FIRST].instanceID == THERE
    ensures p.turns[j] == Outside(SweepOrphans(AWS, 100, 8))
    ensures FIRST in Records(p.worlds[j]) && Records(p.worlds[j])[FIRST].instanceID == THERE
    ensures FIRST in Records(p.worlds[j + 1]) && Records(p.worlds[j + 1])[FIRST].instanceID.NoInstance?
  {
    var listed, r := IsBeingDeleted();
    i := |listed.turns|;
    GivenUpIsSweepable(r, 7);
    var orphaned, rt := FailsToDelete(listed, r, 7);
    j := |orphaned.turns|;
    p := IsSwept(orphaned, Mutate(MarkDeleteFailed(Cause("delete"), 1, 1), r, 7), rt);
    assert p.worlds[i] == Now(listed) && p.worlds[j] == Now(orphaned) && p.worlds[j + 1] == Now(p);
  }

  // A debt that arises during the deletion

  lemma IsListed(p: Play, r: Record) returns (q: Play)
    requires Plays(p) && Now(p) == World(Lone(r), map[]) && Running(r)
    ensures Plays(q) && Grows(p, q)
    ensures Now(q) == Alone(Lone(r), Routine(FIRST, Facts(Reaper(ListedExpired(100), 50), r, Begin), ScheduleLast()))
  {
    var rt := ReaperRoutine(CFG, FIRST, r, ListedExpired(100), 50);
    assert rt == Routine(FIRST, Facts(Reaper(ListedExpired(100), 50), r, Begin), ScheduleLast());
    NothingHappens(Lone(r).state);
    assert map[][0 := rt] == map[0 := rt];
    q := Extended(p, Lists(0, FIRST, ListedExpired(100), 50), Alone(Lone(r), rt));
  }

  /** The reaper expires the runner by age. */
  lemma Expires(p: Play, r: Record) returns (q: Play)
    requires Plays(p) && Now(p) == World(Lone(r), map[]) && Running(r)
    ensures Plays(q) && Grows(p, q) && Now(q) == World(Lone(Mutate(ScheduleDeletion, r, 51)), map[])
  {
    var listed := IsListed(p, r);
    var rt := Routine(FIRST, Facts(Reaper(ListedExpired(100), 50), r, Begin), ScheduleLast());
    LoneUpdate(r, ScheduleDeletion, 51);
    var saved, c := Saved(listed, Lone(r), rt, 51);
    q := Stops(saved, Lone(Mutate(ScheduleDeletion, r, 51)),
        Advance(rt, Did(rt.program.action, c), rt.program.saved(c)));
    GrowsFurther(listed, saved, q);
    GrowsFurther(p, listed, q);
  }

  /** Being deleted by age, for a job that has not completed. */
  predicate Expiring(r: Record) {
    && r.job == Event(1, 0).job && r.provider.AWS? && r.status.Deleting? && r.claim.Delete?
    && r.runnerID == 7 && r.runnerOwned && !r.jobCompleted && !r.recheckDemand
  }

  /** Expired by age, and waiting for its deletion to be claimed. */
  predicate Expired(r: Record) {
    && r.job == Event(1, 0).job && r.provider.AWS? && r.status.Completed? && r.claim.NoWork?
    && !r.deferDeletion && r.instanceID == THERE && r.deleteAttempts == 0 && r.nextAttemptAt == ZERO_TIME
    && r.runnerID == 7 && r.runnerOwned && !r.jobCompleted && !r.recheckDemand
  }

  lemma ExpiryCompletes(r: Record)
    requires Running(r)
    ensures Expired(Mutate(ScheduleDeletion, r, 51))
  {
  }

  lemma ExpiredIsClaimable(r: Record)
    requires Expired(r)
    ensures Claimable(World(Lone(r), map[]), FIRST, Delete, 52, ALONE)
    ensures Expiring(Mutate(Grant(Delete, 1), r, 52))
  {
  }

  /** A worker claims the deletion of the expired runner. */
  lemma IsExpired() returns (p: Play, r: Record)
    ensures Plays(p) && Now(p) == Alone(Lone(r), Worker(CFG, FIRST, r, Delete, false)) && Expiring(r)
  {
    var provisioned, r0 := IsProvisioned();
    var expired := Expires(provisioned, r0);
    var r1 := Mutate(ScheduleDeletion, r0, 51);
    ExpiryCompletes(r0);
    ExpiredIsClaimable(r1);
    r := Mutate(Grant(Delete, 1), r1, 52);
    p := IsClaimed(expired, r1, INDEX, ISSUED, Delete, 52);
  }

  function Both(r: Record): Moment {
    Moment(State(map[FIRST := RunnerCompleted(r, Event(2, 7), 53), SECOND := Tombstone(Event(2, 7), 53)], INDEX),
        ISSUED)
  }

  lemma AnotherJobFinishes(r: Record, rt: Routine)
    requires Expiring(r) && rt.key == FIRST
    ensures Ambient(Alone(Lone(r), rt), Complete(Event(2, 7), 53))
    ensures Step(Lone(r).state, Complete(Event(2, 7), 53), Both(r).state)
  {
    ExampleNames();
    var r' := RunnerCompleted(r, Event(2, 7), 53);
    assert RunnerMatched(Lone(r).state, Event(2, 7)) && IndexedKey(Lone(r).state, Event(2, 7)) == FIRST;
    assert map[FIRST := r][FIRST := r'] == map[FIRST := r'];
    assert map[FIRST := r'][SECOND := Tombstone(Event(2, 7), 53)] == Both(r).state.records;
  }

  lemma BecomesOwing(p: Play, r: Record, rt: Routine) returns (q: Play)
    requires Plays(p) && Now(p) == Alone(Lone(r), rt) && rt.key == FIRST && Expiring(r)
    ensures Plays(q) && Grows(p, q) && Now(q) == Alone(Both(r), rt)
  {
    AnotherJobFinishes(r, rt);
    q := Happens(p, Lone(r), map[0 := rt], Complete(Event(2, 7), 53), Both(r).state);
  }

  /** Owes a recheck that nothing has settled. */
  predicate Owing(r: Record) { r.recheckDemand && !r.jobCompleted && !r.Terminal() }

  lemma RunnerOwes(r: Record)
    requires Expiring(r)
    ensures FIRST in Both(r).state.records && Owing(Both(r).state.records[FIRST])
  {
    ExampleNames();
    assert Owing(RunnerCompleted(r, Event(2, 7), 53));
  }

  lemma DebtIsDropped(r: Record)
    requires Owing(r)
    ensures Mutate(FinishDeletedRunner(false), r, 54).status.Deleted?
  {
  }

  /** The worker cleans up as its snapshot tells it to: it never asks for the original demand. */
  lemma CleansUp(p: Play, m: Moment, r: Record) returns (q: Play, rt: Routine)
    requires Plays(p) && Now(p) == Alone(m, Worker(CFG, FIRST, r, Delete, false)) && Expiring(r)
    ensures Plays(q) && Grows(p, q) && Now(q) == Alone(m, rt)
    ensures rt.key == FIRST && rt.facts.role.Deleter? && rt.program == FinishDeleted(CFG, false)
  {
    var rt0 := Worker(CFG, FIRST, r, Delete, false);
    var p1 := Hears(p, m, rt0, Agreed);
    var rt1 := Advance(rt0, Asked(rt0.program.request, Agreed, TICK), CleanUpDuplicates(CFG, r));
    assert Now(p1) == Alone(m, rt1);
    var p2 := Hears(p1, m, rt1, Agreed);
    var rt2 := Advance(rt1, Asked(rt1.program.request, Agreed, TICK), RemoveDeletedRunner(CFG, r));
    assert Now(p2) == Alone(m, rt2);
    q := Hears(p2, m, rt2, Agreed);
    rt := Advance(rt2, Asked(rt2.program.request, Agreed, TICK), RecheckDemand(CFG, r));
    GrowsFurther(p1, p2, q);
    GrowsFurther(p, p1, q);
  }

  lemma FinishesOwing(p: Play, m: Moment, r: Record) returns (q: Play, n: nat)
    requires Plays(p) && Now(p) == Alone(m, Worker(CFG, FIRST, r, Delete, false)) && Expiring(r)
    requires FIRST in m.state.records && Owing(m.state.records[FIRST])
    ensures Plays(q) && n < |q.turns| && q.turns[n] == Saves(0, 54)
    ensures FIRST in Records(q.worlds[n]) && FIRST in Records(q.worlds[n + 1])
    ensures Owing(Records(q.worlds[n])[FIRST]) && Records(q.worlds[n + 1])[FIRST].status.Deleted?
  {
    var cleaned, rt := CleansUp(p, m, r);
    n := |cleaned.turns|;
    DebtIsDropped(m.state.records[FIRST]);
    var c;
    q, c := Saved(cleaned, m, rt, 54);
    assert q.worlds[n] == Now(cleaned) && q.worlds[n + 1] == Now(q);
  }

  /**
   A run in which a demand is dropped: another job's completion makes the record owe a recheck while its
   runner is being deleted, and the deletion is finished without one.
   */
  lemma DebtDuringDeletionIsDropped() returns (p: Play, n: nat)
    ensures IsControllerRun(CFG, ALONE, p.worlds, p.turns) && n < |p.turns| && p.turns[n] == Saves(0, 54)
    ensures FIRST in Records(p.worlds[n]) && FIRST in Records(p.worlds[n + 1])
    ensures Owing(Records(p.worlds[n])[FIRST]) && Records(p.worlds[n + 1])[FIRST].status.Deleted?
  {
    var expired, r := IsExpired();
    RunnerOwes(r);
    var indebted := BecomesOwing(expired, r, Worker(CFG, FIRST, r, Delete, false));
    p, n := FinishesOwing(indebted, Both(r), r);
  }
}
