/**
 The DigitalOcean adapter where it decides about resources: recovering an ambiguous creation,
 and deleting only what this controller owns. Other actors may remove droplets at any call.
 */
module Droplets {
  import opened Wrappers

  datatype Droplet = Droplet(id: nat, name: string, tags: seq<string>)

  // Recovering an ambiguous creation

  /** What one poll for the droplet by name sees. */
  datatype Sight = Seen(droplet: Droplet) | Clean | Unclear

  /** One poll, and whether the recovery deadline has passed when it is over. */
  datatype Poll = Poll(sight: Sight, expired: bool)

  datatype Recovery = Recovered(droplet: Droplet) | ConfirmedAbsent | Exhausted

  const CONFIRMED_ABSENCE_OBSERVATIONS: nat := 3

  /** The last three of the first n polls saw nothing and met no error. */
  predicate CleanRun(polls: nat -> Poll, n: nat) {
    n >= CONFIRMED_ABSENCE_OBSERVATIONS
    && forall i | n - CONFIRMED_ABSENCE_OBSERVATIONS <= i < n :: polls(i).sight.Clean?
  }

  /** One error or sighting among the last three polls, or fewer than three polls, leave absence open. */
  lemma CleanRunIsThree(polls: nat -> Poll, n: nat)
    ensures CleanRun(polls, n) <==>
      n >= 3 && polls(n - 1).sight.Clean? && polls(n - 2).sight.Clean? && polls(n - 3).sight.Clean?
  {
  }

  predicate Stops(polls: nat -> Poll, n: nat)
    requires n > 0
  {
    polls(n - 1).sight.Seen? || CleanRun(polls, n) || polls(n - 1).expired
  }

  /** The number of polls already clean in a row. */
  function Streak(polls: nat -> Poll, n: nat): (s: nat)
    ensures s <= n && forall i | n - s <= i < n :: polls(i).sight.Clean?
    ensures s < n ==> !polls(n - s - 1).sight.Clean?
  {
    if n > 0 && polls(n - 1).sight.Clean? then Streak(polls, n - 1) + 1 else 0
  }

  lemma {:induction false} StreakIsCleanRun(polls: nat -> Poll, n: nat)
    ensures CleanRun(polls, n) <==> Streak(polls, n) >= CONFIRMED_ABSENCE_OBSERVATIONS
  {
    if CleanRun(polls, n) {
      assert Streak(polls, n) < n ==> !polls(n - Streak(polls, n) - 1).sight.Clean?;
    }
  }

  /**
   Polls until the droplet is seen, absence is confirmed, or the deadline passes; absence is
   confirmed exactly when the last three polls were clean, and never after a sighting.
   */
  method ReconcileAmbiguousCreate(polls: nat -> Poll, deadline: nat) returns (recovery: Recovery, observations: nat)
    requires polls(deadline).expired
    ensures 0 < observations && Stops(polls, observations)
    ensures forall n | 0 < n < observations :: !Stops(polls, n)
    ensures recovery.ConfirmedAbsent? <==> CleanRun(polls, observations)
    ensures recovery.ConfirmedAbsent? ==> forall i | 0 <= i < observations :: !polls(i).sight.Seen?
    ensures forall droplet :: recovery == Recovered(droplet) <==> polls(observations - 1).sight == Seen(droplet)
  {
    observations := 0;
    var consecutiveClean := 0;
    while true
      invariant observations <= deadline
      invariant forall n | 0 < n <= observations :: !Stops(polls, n)
      invariant consecutiveClean == Streak(polls, observations) < CONFIRMED_ABSENCE_OBSERVATIONS
      decreases deadline - observations
    {
      var poll := polls(observations);
      observations := observations + 1;
      StreakIsCleanRun(polls, observations);
      if poll.sight.Seen? {
        NoSightingBefore(polls, observations - 1);
        return Recovered(poll.sight.droplet), observations;
      }
      if poll.sight.Clean? {
        consecutiveClean := consecutiveClean + 1;
        if consecutiveClean >= CONFIRMED_ABSENCE_OBSERVATIONS {
          NoSightingBefore(polls, observations - 1);
          return ConfirmedAbsent, observations;
        }
      } else if !poll.expired {
        consecutiveClean := 0;
      }
      if poll.expired {
        return Exhausted, observations;
      }
    }
  }

  lemma NoSightingBefore(polls: nat -> Poll, n: nat)
    requires forall m | 0 < m <= n :: !Stops(polls, m)
    ensures forall i | 0 <= i < n :: !polls(i).sight.Seen?
  {
    forall i | 0 <= i < n ensures !polls(i).sight.Seen? {
      assert !Stops(polls, i + 1);
    }
  }

  // Creating

  datatype CreateError = Definite | Ambiguous

  /** What the provider answered to the creation itself. */
  datatype Creation = CreatedDroplet(droplet: Droplet) | CreationFailed(error: CreateError)

  datatype Lookup = Found(droplet: Droplet) | NotFound | LookupFailed

  /** What CreateRunner returns; OutcomeUnknown is the error that is never retried as a fresh creation. */
  datatype Outcome = Running(droplet: Droplet) | Rejected | OutcomeUnknown

  /** prepared says that the firewall check and the rendering of the user data succeeded. */
  method CreateRunner(lookup: Lookup, prepared: bool, creation: Creation, polls: nat -> Poll, deadline: nat)
    returns (outcome: Outcome, observations: nat)
    requires polls(deadline).expired
    ensures lookup.Found? ==> outcome == Running(lookup.droplet)
    ensures lookup.LookupFailed? || (lookup.NotFound? && !prepared) ==> outcome == Rejected
    ensures lookup.NotFound? && prepared && creation.CreatedDroplet? ==> outcome == Running(creation.droplet)
    ensures lookup.NotFound? && prepared && creation == CreationFailed(Definite) ==> outcome == Rejected
    ensures lookup.NotFound? && prepared && creation == CreationFailed(Ambiguous) ==>
      && 0 < observations && Stops(polls, observations) && (forall n | 0 < n < observations :: !Stops(polls, n))
      && (outcome.Rejected? <==> CleanRun(polls, observations))
      && (forall droplet :: outcome == Running(droplet) <==> polls(observations - 1).sight == Seen(droplet))
      && (outcome.OutcomeUnknown? <==> !CleanRun(polls, observations) && !polls(observations - 1).sight.Seen?)
    ensures outcome.OutcomeUnknown? ==> lookup.NotFound? && prepared && creation == CreationFailed(Ambiguous)
  {
    observations := 0;
    match lookup
    case LookupFailed => return Rejected, 0;
    case Found(droplet) => return Running(droplet), 0;
    case NotFound =>
      if !prepared { return Rejected, 0; }
      match creation
      case CreatedDroplet(droplet) => return Running(droplet), 0;
      case CreationFailed(error) =>
        if error.Definite? { return Rejected, 0; }
        var recovery;
        recovery, observations := ReconcileAmbiguousCreate(polls, deadline);
        match recovery
        case Recovered(droplet) => return Running(droplet), observations;
        case ConfirmedAbsent => return Rejected, observations;
        case Exhausted => return OutcomeUnknown, observations;
  }

  /** The only droplet with the name, if the listing holds exactly one; two make the poll unclear. */
  method FindByName(droplets: seq<Droplet>, name: string) returns (sight: Sight)
    ensures sight.Clean? <==> forall i | 0 <= i < |droplets| :: droplets[i].name != name
    ensures sight.Seen? <==> exists i | 0 <= i < |droplets| ::
      && droplets[i].name == name && sight == Seen(droplets[i])
      && forall j | 0 <= j < |droplets| && droplets[j].name == name :: j == i
    ensures sight.Unclear? <==>
      exists i, j | 0 <= i < j < |droplets| :: droplets[i].name == name && droplets[j].name == name
  {
    var only: Option<nat> := None;
    for i := 0 to |droplets|
      invariant only.None? <==> forall j | 0 <= j < i :: droplets[j].name != name
      invariant only.Some? ==> only.value < i && droplets[only.value].name == name
      invariant only.Some? ==> forall j | 0 <= j < i && droplets[j].name == name :: j == only.value
    {
      if droplets[i].name == name {
        if only.Some? {
          assert droplets[only.value].name == name;
          return Unclear;
        }
        only := Some(i);
      }
    }
    if only.None? { return Clean; }
    return Seen(droplets[only.value]);
  }

  // Deleting: the provider accepts a deletion first and carries it out later

  /** How the calls of one deletion go, and what the provider and other actors do after the first of them. */
  datatype Calls = Calls(getFails: bool, confirmFails: bool, deleteFails: bool, tookEffect: bool, meanwhile: Meanwhile)

  /** Droplets that disappear, and accepted ones that lose their tags before they do. */
  datatype Meanwhile = Meanwhile(gone: set<nat>, stripped: set<nat>)

  datatype Removal = Removed | OwnershipMismatch | Unavailable

  /** The provider's droplets, and the ids whose deletion it has accepted but may not have carried out. */
  datatype Cloud = Cloud(droplets: map<nat, Droplet>, accepted: set<nat>)

  function Stripped(d: Droplet): Droplet { d.(tags := []) }

  function Passed(cloud: Cloud, meanwhile: Meanwhile): Cloud {
    Cloud(map id | id in cloud.droplets && id !in meanwhile.gone ::
            if id in meanwhile.stripped && id in cloud.accepted
            then Stripped(cloud.droplets[id]) else cloud.droplets[id],
          cloud.accepted)
  }

  function Accepting(cloud: Cloud, id: nat): Cloud { cloud.(accepted := cloud.accepted + {id}) }

  /** Nothing is left of the droplet but, at most, a deletion that the provider has accepted. */
  predicate GoneOrAccepted(cloud: Cloud, id: nat) { id !in cloud.droplets || id in cloud.accepted }

  predicate Owned(controllerTag: string, d: Droplet, jobTag: string) {
    controllerTag in d.tags && jobTag in d.tags
  }

  datatype Deletion = Deletion(removal: Removal, cloud: Cloud)

  /** What one deletion answers and leaves: only an owned droplet is ever asked for. */
  function Deleting(controllerTag: string, cloud: Cloud, id: nat, jobTag: string, calls: Calls): Deletion {
    if id == 0 || calls.getFails then Deletion(Unavailable, cloud)
    else if id !in cloud.droplets then Deletion(Removed, cloud)
    else
      var passed := Passed(cloud, calls.meanwhile);
      if Owned(controllerTag, cloud.droplets[id], jobTag) then
        Deletion(if calls.deleteFails then Unavailable else Removed,
                 if calls.deleteFails && !calls.tookEffect then passed else Accepting(passed, id))
      else
        Deletion(if calls.confirmFails then Unavailable
                 else if id in passed.droplets then OwnershipMismatch else Removed,
                 passed)
  }

  /** Success means absence, or an accepted deletion of a droplet that carried both tags. */
  lemma DeletionSucceeds(controllerTag: string, cloud: Cloud, id: nat, jobTag: string, calls: Calls)
    ensures var d := Deleting(controllerTag, cloud, id, jobTag, calls);
      d.removal.Removed? ==>
        && id != 0 && GoneOrAccepted(d.cloud, id)
        && (id in d.cloud.droplets ==>
             id in cloud.droplets && controllerTag in cloud.droplets[id].tags && jobTag in cloud.droplets[id].tags)
  {
  }

  /** The provider is asked for a deletion exactly if the droplet is found and carries both tags. */
  lemma DeletionIsAskedFor(controllerTag: string, cloud: Cloud, id: nat, jobTag: string, calls: Calls)
    ensures var asked := id != 0 && !calls.getFails && id in cloud.droplets
        && controllerTag in cloud.droplets[id].tags && jobTag in cloud.droplets[id].tags;
      Deleting(controllerTag, cloud, id, jobTag, calls).cloud.accepted
      == cloud.accepted + if asked && (!calls.deleteFails || calls.tookEffect) then {id} else {}
  {
  }

  /**
   Why absence is awaited instead of deleting again: while an accepted deletion is carried out the
   droplet may show no tags, and asking again then ends in an ownership mismatch exactly when both
   lookups are answered and the droplet is still there.
   */
  lemma DeletingAgainMismatches(controllerTag: string, cloud: Cloud, id: nat, jobTag: string, calls: Calls)
    requires id != 0 && id in cloud.droplets && id in cloud.accepted
    requires cloud.droplets[id] == Stripped(cloud.droplets[id])
    ensures Deleting(controllerTag, cloud, id, jobTag, calls).removal.OwnershipMismatch?
       <==> !calls.getFails && !calls.confirmFails && id !in calls.meanwhile.gone
  {
    assert cloud.droplets[id].tags == [];
  }

  /**
   From one moment to a later one droplets only disappear and lose tags, accepted deletions stay
   accepted, and a droplet without both tags is left to its owner: no deletion of it is accepted, and
   it is there unless others removed it.
   */
  ghost predicate Spares(controllerTag: string, was: Cloud, cloud: Cloud, jobTag: string, calls: nat -> Calls) {
    && was.accepted <= cloud.accepted
    && (forall id | id in cloud.droplets :: id in was.droplets
         && (cloud.droplets[id] == was.droplets[id] || cloud.droplets[id] == Stripped(was.droplets[id])))
    && (forall id | id in was.droplets && !Owned(controllerTag, was.droplets[id], jobTag) ::
         id in cloud.accepted <==> id in was.accepted)
    && (forall id | id in was.droplets && !Owned(controllerTag, was.droplets[id], jobTag)
                    && (forall i :: id !in calls(i).meanwhile.gone) :: id in cloud.droplets)
  }

  lemma SparesOneMore(controllerTag: string, was: Cloud, cloud: Cloud, id: nat, jobTag: string, calls: nat -> Calls,
                      i: nat)
    requires Spares(controllerTag, was, cloud, jobTag, calls)
    ensures var cloud' := Deleting(controllerTag, cloud, id, jobTag, calls(i)).cloud;
      && Spares(controllerTag, was, cloud', jobTag, calls)
      && forall j :: GoneOrAccepted(cloud, j) ==> GoneOrAccepted(cloud', j)
  {
    var passed := Passed(cloud, calls(i).meanwhile);
    assert Spares(controllerTag, was, passed, jobTag, calls);
  }

  class DropletClient {
    const controllerTag: string
    var cloud: Cloud

    constructor (controllerTag: string, cloud: Cloud)
      ensures this.controllerTag == controllerTag && this.cloud == cloud
    {
      this.controllerTag, this.cloud := controllerTag, cloud;
    }

    /** Absence by id, whatever the tags say: an accepted deletion is not absence yet. */
    method RunnerAbsent(id: nat, getFails: bool) returns (absent: Option<bool>)
      ensures absent == Some(true) ==> id !in cloud.droplets
      ensures absent == Some(false) ==> id in cloud.droplets
      ensures absent.None? <==> id == 0 || getFails
    {
      if id == 0 || getFails { return None; }
      return Some(id !in cloud.droplets);
    }

    /**
     Asks for the deletion of one droplet, if both ownership tags are on it; a missing droplet counts
     as deleted. Success means absence, or a deletion of an owned droplet that has been accepted.
     */
    method DeleteRunner(id: nat, jobTag: string, calls: Calls) returns (removal: Removal)
      modifies this`cloud
      ensures Deletion(removal, cloud) == Deleting(controllerTag, old(cloud), id, jobTag, calls)
      ensures removal.Removed? ==> id != 0 && GoneOrAccepted(cloud, id)
      ensures removal.OwnershipMismatch? ==>
        id in cloud.droplets && !Owned(controllerTag, old(cloud).droplets[id], jobTag)
    {
      DeletionSucceeds(controllerTag, cloud, id, jobTag, calls);
      if id == 0 || calls.getFails { return Unavailable; }
      if id !in cloud.droplets { return Removed; }
      var owned := Owned(controllerTag, cloud.droplets[id], jobTag);
      cloud := Passed(cloud, calls.meanwhile);
      if !owned {
        if calls.confirmFails { return Unavailable; }
        return if id in cloud.droplets then OwnershipMismatch else Removed;
      }
      if !calls.deleteFails || calls.tookEffect {
        cloud := Accepting(cloud, id);
      }
      return if calls.deleteFails then Unavailable else Removed;
    }

    /**
     Asks for the deletion of every listed droplet of the job but one. The listing may be stale; a
     listed droplet of another controller stops the cleanup before anything is asked for. Success
     means that each of the others is absent or its deletion accepted.
     */
    method CleanupRunnerExcept(jobTag: string, excluded: Option<nat>, listing: Option<seq<Droplet>>,
                               calls: nat -> Calls)
      returns (removal: Removal)
      modifies this`cloud
      ensures removal.Removed? ==> listing.Some? && forall i | 0 <= i < |listing.value| ::
        excluded == Some(listing.value[i].id) || GoneOrAccepted(cloud, listing.value[i].id)
      ensures listing.None? ==> removal.Unavailable? && cloud == old(cloud)
      ensures listing.Some? && (exists i | 0 <= i < |listing.value| ::
        excluded != Some(listing.value[i].id) && controllerTag !in listing.value[i].tags) ==>
          removal.OwnershipMismatch? && cloud == old(cloud)
      ensures Spares(controllerTag, old(cloud), cloud, jobTag, calls)
    {
      if listing.None? { return Unavailable; }
      var owned := OwnListing(listing.value, excluded);
      if !owned { return OwnershipMismatch; }
      removal := DeleteListed(jobTag, excluded, listing.value, calls);
    }

    /** Whether every listed droplet but the excluded one carries this controller's tag. */
    method OwnListing(listed: seq<Droplet>, excluded: Option<nat>) returns (owned: bool)
      ensures owned <==> forall i | 0 <= i < |listed| ::
        excluded == Some(listed[i].id) || controllerTag in listed[i].tags
    {
      for i := 0 to |listed|
        invariant forall j | 0 <= j < i :: excluded == Some(listed[j].id) || controllerTag in listed[j].tags
      {
        if excluded != Some(listed[i].id) && controllerTag !in listed[i].tags { return false; }
      }
      return true;
    }

    method DeleteListed(jobTag: string, excluded: Option<nat>, listed: seq<Droplet>, calls: nat -> Calls)
      returns (removal: Removal)
      modifies this`cloud
      ensures removal.Removed? ==> forall i | 0 <= i < |listed| ::
        excluded == Some(listed[i].id) || GoneOrAccepted(cloud, listed[i].id)
      ensures Spares(controllerTag, old(cloud), cloud, jobTag, calls)
    {
      for i := 0 to |listed|
        invariant forall j | 0 <= j < i :: excluded == Some(listed[j].id) || GoneOrAccepted(cloud, listed[j].id)
        invariant Spares(controllerTag, old(cloud), cloud, jobTag, calls)
      {
        if excluded != Some(listed[i].id) {
          SparesOneMore(controllerTag, old(cloud), cloud, listed[i].id, jobTag, calls, i);
          removal := DeleteRunner(listed[i].id, jobTag, calls(i));
          if !removal.Removed? { return; }
        }
      }
      return Removed;
    }
  }
}
