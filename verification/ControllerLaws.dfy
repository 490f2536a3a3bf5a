/**
 The controller's promises over every run: the store sees only disciplined steps, workers are
 alone on their records, a replacement follows a finished cleanup, an instance is created only
 behind the demand gate, an accepted deletion is never repeated, and only issued runners are removed.
 */
module ControllerLaws {
  import opened Lifecycle
  import opened Store
  import opened Invariants
  import opened Runs
  import opened Protocol
  import opened Causes
  import opened Controller
  import opened ControllerInvariant
  import opened ControllerSteps
  import opened ControllerCommits

  // One turn

  lemma AnswerGrowsLedger(cfg: Config, limits: Limits, w: World, i: nat, answer: Answer)
    requires WorldInv(cfg, limits, w) && i in w.routines && w.routines[i].program.Call?
    requires Plausible(w.routines[i].program.request, answer)
    requires IssuesFresh(w.moment.ledger, w.routines[i].program.request, answer)
    ensures LedgerGrows(w.moment.ledger,
        LedgerAfter(w.moment.ledger, w.routines[i], w.routines[i].program.request, answer))
  {
    assert RoutineInv(cfg, w.moment, w.routines[i]);
    SafeAsks(cfg, w.routines[i].facts, w.routines[i].program);
    if w.routines[i].program.request.GenerateJITConfig? {
      IssueIsBound(cfg, w.moment.ledger, w.routines[i], answer);
    }
  }

  /** Every turn of the controller is a disciplined step of the store. */
  lemma TurnIsStoreStep(cfg: Config, limits: Limits, w: World, turn: Turn, w': World)
    requires Configured(cfg, limits) && WorldInv(cfg, limits, w) && Takes(cfg, limits, w, turn, w')
    ensures RunStep(w.moment, StoreOp(w, turn, limits), w'.moment, limits)
  {
    TurnIsDisciplined(cfg, limits, w, turn);
    if turn.Answers? {
      AnswerGrowsLedger(cfg, limits, w, turn.id, turn.answer);
    }
  }

  lemma ActingTurnKeeps(cfg: Config, limits: Limits, w: World, turn: Turn, w': World)
    requires Configured(cfg, limits) && WorldInv(cfg, limits, w) && Takes(cfg, limits, w, turn, w')
    requires turn.Answers? || turn.Looks? || turn.FailsToSave? || turn.Ends?
    ensures WorldInv(cfg, limits, w')
  {
    QuietTurn(w.moment.state, w'.moment.state);
    match turn
    case Answers(i, answer, tick) => AnswersKeeps(cfg, limits, w, i, answer, tick, w');
    case Looks(i, tick) => LooksKeeps(cfg, limits, w, i, tick, w');
    case FailsToSave(i, tick) => FailsToSaveKeeps(cfg, limits, w, i, tick, w');
    case Ends(i) => EndsKeeps(cfg, limits, w, i, w');
  }

  /** Asking, reading, listing and failing leave the store alone. */
  lemma QuietTurn(s: State, s': State)
    requires Step(s, SweepOrphans(Unbound, 0, 0), s')
    ensures s' == s
  {
    assert s'.records == s.records;
  }

  lemma SavingKeepsKey(cfg: Config, limits: Limits, w: World, i: nat, now: Time, w': World)
    requires Takes(cfg, limits, w, Saves(i, now), w')
    ensures w.routines[i].key in Records(w) && w.routines[i].key in Records(w')
  {
    KeysStay(w.moment.state, StoreOp(w, Saves(i, now), limits), w.routines[i].key);
  }

  lemma SavingTurnKeeps(cfg: Config, limits: Limits, w: World, i: nat, now: Time, w': World)
    requires Configured(cfg, limits) && WorldInv(cfg, limits, w) && Takes(cfg, limits, w, Saves(i, now), w')
    ensures WorldInv(cfg, limits, w')
  {
    TurnIsStoreStep(cfg, limits, w, Saves(i, now), w');
    var rt := w.routines[i];
    SavingKeepsKey(cfg, limits, w, i, now, w');
    SavesKeeps(cfg, limits, w, i, now, Commitment(Records(w)[rt.key], Records(w')[rt.key], now), w');
  }

  lemma StartingTurnKeeps(cfg: Config, limits: Limits, w: World, turn: Turn, w': World)
    requires Configured(cfg, limits) && WorldInv(cfg, limits, w) && Takes(cfg, limits, w, turn, w')
    requires turn.Claims? || turn.Lists?
    ensures WorldInv(cfg, limits, w')
  {
    if turn.Claims? {
      TurnIsStoreStep(cfg, limits, w, turn, w');
      ClaimsKeeps(cfg, limits, w, turn.id, turn.key, turn.kind, turn.canceled, turn.now, w');
    } else {
      QuietTurn(w.moment.state, w'.moment.state);
      ListsKeeps(cfg, limits, w, turn.id, turn.key, turn.listing, turn.now, w');
    }
  }

  lemma StoreTurnKeeps(cfg: Config, limits: Limits, w: World, turn: Turn, w': World)
    requires Configured(cfg, limits) && WorldInv(cfg, limits, w) && Takes(cfg, limits, w, turn, w')
    requires turn.Outside? || turn.Reopens?
    ensures WorldInv(cfg, limits, w')
  {
    TurnIsStoreStep(cfg, limits, w, turn, w');
    if turn.Outside? {
      OutsideKeeps(cfg, limits, w, turn.op, w');
    } else {
      ReopensKeeps(cfg, limits, w, StoreOp(w, turn, limits), w');
    }
  }

  /** Every turn keeps the invariant of the whole controller. */
  lemma TurnKeeps(cfg: Config, limits: Limits, w: World, turn: Turn, w': World)
    requires Configured(cfg, limits) && WorldInv(cfg, limits, w) && Takes(cfg, limits, w, turn, w')
    ensures WorldInv(cfg, limits, w')
  {
    if turn.Outside? || turn.Reopens? {
      StoreTurnKeeps(cfg, limits, w, turn, w');
    } else if turn.Claims? || turn.Lists? {
      StartingTurnKeeps(cfg, limits, w, turn, w');
    } else if turn.Saves? {
      SavingTurnKeeps(cfg, limits, w, turn.id, turn.now, w');
    } else {
      ActingTurnKeeps(cfg, limits, w, turn, w');
    }
  }

  /** What a saving turn does, and what its routine knows. */
  lemma SavingTurn(cfg: Config, limits: Limits, w: World, i: nat, now: Time, w': World)
    requires Takes(cfg, limits, w, Saves(i, now), w')
    ensures i in w.routines && Commits(w, w.routines[i]) && Timely(w, w.routines[i]) && now != ZERO_TIME
    ensures Step(w.moment.state, OpOf(w.routines[i].key, w.routines[i].program.action, now), w'.moment.state)
  {
  }

  lemma RoutineHolds(cfg: Config, limits: Limits, w: World, i: nat)
    requires WorldInv(cfg, limits, w) && i in w.routines
    ensures RoutineInv(cfg, w.moment, w.routines[i])
  {
  }

  // Runs

  /** The i-th turn of a run, phrased so that it unfolds only where a turn is spoken of. */
  ghost predicate TurnAt(cfg: Config, limits: Limits, worlds: seq<World>, turns: seq<Turn>, i: nat)
    requires |worlds| == |turns| + 1 && i < |turns|
  {
    forall w, w' {:trigger Takes(cfg, limits, w, turns[i], w')} ::
      w == worlds[i] && w' == worlds[i + 1] ==> Takes(cfg, limits, w, turns[i], w')
  }

  /** A run of the controller from an empty state file. */
  ghost predicate IsControllerRun(cfg: Config, limits: Limits, worlds: seq<World>, turns: seq<Turn>) {
    && Configured(cfg, limits) && |worlds| == |turns| + 1
    && worlds[0] == World(Moment(State(map[], map[]), map[]), map[])
    && forall i | 0 <= i < |turns| :: TurnAt(cfg, limits, worlds, turns, i)
  }

  lemma TurnAtKeeps(cfg: Config, limits: Limits, worlds: seq<World>, turns: seq<Turn>, i: nat)
    requires |worlds| == |turns| + 1 && i < |turns| && TurnAt(cfg, limits, worlds, turns, i)
    requires Configured(cfg, limits) && WorldInv(cfg, limits, worlds[i])
    ensures WorldInv(cfg, limits, worlds[i + 1])
    ensures RunStep(worlds[i].moment, StoreOp(worlds[i], turns[i], limits), worlds[i + 1].moment, limits)
  {
    assert Takes(cfg, limits, worlds[i], turns[i], worlds[i + 1]);
    TurnKeeps(cfg, limits, worlds[i], turns[i], worlds[i + 1]);
    TurnIsStoreStep(cfg, limits, worlds[i], turns[i], worlds[i + 1]);
  }

  lemma RunTurn(cfg: Config, limits: Limits, worlds: seq<World>, turns: seq<Turn>, i: nat)
    requires IsControllerRun(cfg, limits, worlds, turns) && i < |turns|
    ensures TurnAt(cfg, limits, worlds, turns, i) && Configured(cfg, limits)
  {
  }

  lemma RunTurnKeeps(cfg: Config, limits: Limits, worlds: seq<World>, turns: seq<Turn>, i: nat)
    requires IsControllerRun(cfg, limits, worlds, turns) && i < |turns| && WorldInv(cfg, limits, worlds[i])
    ensures WorldInv(cfg, limits, worlds[i + 1])
  {
    RunTurn(cfg, limits, worlds, turns, i);
    TurnAtKeeps(cfg, limits, worlds, turns, i);
  }

  lemma StartHolds(cfg: Config, limits: Limits)
    ensures WorldInv(cfg, limits, World(Moment(State(map[], map[]), map[]), map[]))
  {
    EmptyStoreHolds(limits);
  }

  lemma {:induction false} ControllerRunHolds(cfg: Config, limits: Limits, worlds: seq<World>, turns: seq<Turn>, i: nat)
    requires IsControllerRun(cfg, limits, worlds, turns) && i < |worlds|
    ensures WorldInv(cfg, limits, worlds[i])
  {
    if i == 0 {
      StartHolds(cfg, limits);
    } else {
      ControllerRunHolds(cfg, limits, worlds, turns, i - 1);
      RunTurnKeeps(cfg, limits, worlds, turns, i - 1);
    }
  }

  function Moments(worlds: seq<World>): seq<Moment> {
    seq(|worlds|, i requires 0 <= i < |worlds| => worlds[i].moment)
  }

  function StoreOps(worlds: seq<World>, turns: seq<Turn>, limits: Limits): seq<Op>
    requires |worlds| == |turns| + 1
  {
    seq(|turns|, i requires 0 <= i < |turns| => StoreOp(worlds[i], turns[i], limits))
  }

  /** A run of the controller, whatever its interleaving, is a disciplined run of its store. */
  lemma ControllerRunIsStoreRun(cfg: Config, limits: Limits, worlds: seq<World>, turns: seq<Turn>)
    requires IsControllerRun(cfg, limits, worlds, turns)
    ensures IsRun(Moments(worlds), StoreOps(worlds, turns, limits), limits)
  {
    var trace, ops := Moments(worlds), StoreOps(worlds, turns, limits);
    forall i: nat | i < |ops| ensures StepAt(trace, ops, limits, i) {
      ControllerRunHolds(cfg, limits, worlds, turns, i);
      TurnAtKeeps(cfg, limits, worlds, turns, i);
      StepAtHolds(trace, ops, limits, i);
    }
  }

  lemma StepAtHolds(trace: seq<Moment>, ops: seq<Op>, limits: Limits, i: nat)
    requires |trace| == |ops| + 1 && i < |ops| && RunStep(trace[i], ops[i], trace[i + 1], limits)
    ensures StepAt(trace, ops, limits, i)
  {
  }

  /** In every interleaving, instances held plus creations in flight never exceed the limit. */
  lemma ControllerFleetCeiling(cfg: Config, limits: Limits, worlds: seq<World>, turns: seq<Turn>, i: nat)
    requires IsControllerRun(cfg, limits, worlds, turns) && i < |worlds|
    ensures |set k | k in Records(worlds[i]) && HoldsSlot(Records(worlds[i])[k])| <= limits.maxLive
  {
    ControllerRunIsStoreRun(cfg, limits, worlds, turns);
    FleetCeiling(Moments(worlds), StoreOps(worlds, turns, limits), limits, i);
  }
}
