/**
 The whole controller: the store, the workers and reaper routines interleaving over it, webhook
 deliveries, and crashes. A routine acts on the store through atomic commits only.
 */
module Controller {
  import opened Wrappers
  import opened Names
  import opened Lifecycle
  import opened Store
  import opened Invariants
  import opened StoreInvariant
  import opened Runs
  import opened Protocol
  import opened Workers
  import opened Reapers

  datatype Routine = Routine(key: string, facts: Facts, program: Program)

  datatype World = World(moment: Moment, routines: map<nat, Routine>)

  /** Who moves next: the outside, ClaimNext, a listing, one routine, or a crash. */
  datatype Turn =
    | Outside(op: Op)
    | Claims(id: nat, key: string, kind: Work, canceled: bool, now: Time)
    | Lists(id: nat, key: string, listing: Listing, now: Time)
    | Answers(id: nat, answer: Answer, tick: Tick)
    | Looks(id: nat, tick: Tick)
    | Saves(id: nat, now: Time)
    | FailsToSave(id: nat, tick: Tick)
    | Ends(id: nat)
    | Reopens(now: Time, retention: nat)

  function Records(w: World): map<string, Record> { w.moment.state.records }

  /** Deliveries, backstops, sweeps, and pruning that spares the records routines are working on. */
  predicate Ambient(w: World, op: Op) {
    match op
    case Create(r, _) => FreshEvent(r) && r.runnerID == 0
    case Complete(completion, _) => FreshEvent(completion)
    case SweepOrphans(_, _, _) => true
    case Prune(cutoff) =>
      forall id | id in w.routines && w.routines[id].key in Records(w) ::
        !Prunable(Records(w)[w.routines[id].key], cutoff)
    case Change(_, m, _) => m.ExhaustProvisioning? || m.ExhaustDeletion?
    case _ => false
  }

  function Grant(kind: Work, maxAttempts: int): Mutation {
    if kind.Provision? then GrantProvision(maxAttempts) else GrantDelete(maxAttempts)
  }

  /** ClaimNext hands the record to a worker. */
  predicate Claimable(w: World, key: string, kind: Work, now: Time, limits: Limits) {
    && key in Records(w) && Due(Records(w)[key], now)
    && match kind
       case NoWork => false
       case Provision =>
         && ProvisionEligible(Records(w)[key], limits.maxAttempts)
         && CanProvision(Records(w), Records(w)[key], limits.maxLive)
       case Delete => DeleteEligible(Records(w)[key], limits.maxAttempts)
  }

  function Worker(cfg: Config, key: string, start: Record, kind: Work, canceled: bool): Routine {
    Routine(key, Facts(if kind.Provision? then Provisioner(canceled) else Deleter(canceled), start, Begin),
        Process(cfg, start, kind, canceled))
  }

  function ReaperRoutine(cfg: Config, key: string, start: Record, listing: Listing, now: Time): Routine {
    Routine(key, Facts(Reaper(listing, now), start, Begin), Reap(cfg, start, listing, now))
  }

  function OpOf(key: string, action: Action, now: Time): Op {
    match action
    case Register(runnerID, runnerName) => MarkJIT(key, runnerID, runnerName, now)
    case Alter(m) => Change(key, m, now)
  }

  /** The commit is possible: the record exists, and a deletion is accepted only for a claimed instance. */
  predicate Commits(w: World, rt: Routine) {
    && rt.program.Commit? && rt.key in Records(w)
    && (rt.program.action.Alter? && rt.program.action.mutation.AcceptDeletion? ==>
         AcceptsDeletion(Records(w)[rt.key], rt.program.action.mutation.instanceID))
  }

  /** A reaper works on a listing: its commits land in the epoch it listed. Workers need no such assumption. */
  predicate Timely(w: World, rt: Routine) {
    rt.facts.role.Reaper? && rt.key in Records(w) ==> Records(w)[rt.key].epoch == rt.facts.start.epoch
  }

  /** Registrations are new when GitHub issues them. */
  function LedgerAfter(ledger: Ledger, rt: Routine, request: Request, answer: Answer): Ledger {
    if request.GenerateJITConfig? && answer.Issued? then
      ledger[RunnerIdentity(request.owner, request.repository, answer.runnerID) :=
        Issue(rt.key, FullName(request.owner, request.repository), rt.facts.start.job.jobID, answer.runnerID)]
    else ledger
  }

  predicate IssuesFresh(ledger: Ledger, request: Request, answer: Answer) {
    request.GenerateJITConfig? && answer.Issued? ==>
      RunnerIdentity(request.owner, request.repository, answer.runnerID) !in ledger
  }

  function Advance(rt: Routine, x: Happening, next: Program): Routine {
    rt.(facts := rt.facts.Now(x), program := next)
  }

  function Current(w: World, key: string): Option<Record> {
    if key in Records(w) then Some(Records(w)[key]) else None
  }

  /** The store's part in a turn; turns that leave it alone count as a sweep that finds nothing. */
  function StoreOp(w: World, turn: Turn, limits: Limits): Op {
    match turn
    case Outside(op) => op
    case Claims(_, key, kind, _, now) => Change(key, Grant(kind, limits.maxAttempts), now)
    case Saves(id, now) =>
      if id in w.routines && w.routines[id].program.Commit?
      then OpOf(w.routines[id].key, w.routines[id].program.action, now) else SweepOrphans(Unbound, 0, 0)
    case Reopens(now, retention) => Restart(now, retention)
    case _ => SweepOrphans(Unbound, 0, 0)
  }

  function LedgerNext(w: World, turn: Turn): Ledger {
    if turn.Answers? && turn.id in w.routines && w.routines[turn.id].program.Call?
    then LedgerAfter(w.moment.ledger, w.routines[turn.id], w.routines[turn.id].program.request, turn.answer)
    else w.moment.ledger
  }

  ghost predicate Enabled(w: World, turn: Turn, limits: Limits) {
    match turn
    case Outside(op) => Ambient(w, op)
    case Claims(id, key, kind, _, now) => id !in w.routines && Claimable(w, key, kind, now, limits)
    case Lists(id, key, listing, now) => id !in w.routines && key in Records(w)
      && Selected(Records(w)[key], listing, now)
    case Answers(id, answer, _) =>
      && id in w.routines && w.routines[id].program.Call? && Plausible(w.routines[id].program.request, answer)
      && IssuesFresh(w.moment.ledger, w.routines[id].program.request, answer)
    case Looks(id, _) => id in w.routines && w.routines[id].program.Get?
    case Saves(id, now) => id in w.routines && Commits(w, w.routines[id]) && Timely(w, w.routines[id])
      && now != ZERO_TIME
    case FailsToSave(id, _) => id in w.routines && w.routines[id].program.Commit?
    case Ends(id) => id in w.routines && w.routines[id].program.Done?
    case Reopens(_, _) => true
  }

  function RoutinesNext(cfg: Config, w: World, turn: Turn, state': State, limits: Limits): map<nat, Routine> {
    match turn
    case Outside(_) => w.routines
    case Claims(id, key, kind, canceled, _) =>
      if key in state'.records then w.routines[id := Worker(cfg, key, state'.records[key], kind, canceled)]
        else w.routines
    case Lists(id, key, listing, now) =>
      if key in Records(w) then w.routines[id := ReaperRoutine(cfg, key, Records(w)[key], listing, now)] else w.routines
    case Reopens(_, _) => map[]
    case Ends(id) => w.routines - {id}
    case _ =>
      if turn.id !in w.routines then w.routines
      else w.routines[turn.id := Moved(w, turn, w.routines[turn.id], state')]
  }

  /** The acting routine after its turn. */
  function Moved(w: World, turn: Turn, rt: Routine, state': State): Routine {
    match turn
    case Answers(_, answer, tick) =>
      if rt.program.Call? then Advance(rt, Asked(rt.program.request, answer, tick), rt.program.answered(answer, tick))
      else rt
    case Looks(_, tick) =>
      if rt.program.Get? then Advance(rt, Read(Current(w, rt.key), tick), rt.program.next(Current(w, rt.key), tick))
      else rt
    case Saves(_, now) =>
      if rt.program.Commit? && rt.key in Records(w) && rt.key in state'.records then
        var c := Commitment(Records(w)[rt.key], state'.records[rt.key], now);
        Advance(rt, Did(rt.program.action, c), rt.program.saved(c))
      else rt
    case FailsToSave(_, tick) =>
      if rt.program.Commit? then Advance(rt, DidNot(rt.program.action, tick), rt.program.failed(tick)) else rt
    case _ => rt
  }

  /** One step of the controller. */
  ghost predicate Takes(cfg: Config, limits: Limits, w: World, turn: Turn, w': World) {
    && Enabled(w, turn, limits)
    && Step(w.moment.state, StoreOp(w, turn, limits), w'.moment.state)
    && w'.moment.ledger == LedgerNext(w, turn)
    && w'.routines == RoutinesNext(cfg, w, turn, w'.moment.state, limits)
  }

  predicate Configured(cfg: Config, limits: Limits) {
    cfg.maxAttempts == limits.maxAttempts && 0 <= limits.maxAttempts
  }
}
