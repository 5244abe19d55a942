/**
 A connection's dialog-filter recovery record.  The server replaces the record as
 a whole by compare-and-swap; each function here is the replacement one such swap
 installs.
 */
module FilterRecovery {
  import opened Common

  const MAX_ATTEMPTS: nat := 3
  const FIRST_RETRY: nat := 20
  const SECOND_RETRY: nat := 40
  const UNSET_TIME: int := 0

  datatype Recovery = Recovery(owner: int, session: int, generation: nat, covered: nat,
                               initialized: bool, firstDifference: bool, pushEligible: bool,
                               attempts: nat, nextAttempt: int, inFlight: bool, claim: nat)

  predicate Bound(r: Recovery, owner: int, session: int) {
    r.owner == owner && r.session == session
  }

  /** Some invalidation marked here, or the replica-wide epoch, is not covered. */
  predicate Pending(r: Recovery, epoch: nat) {
    Max(r.generation, epoch) > r.covered
  }

  predicate AttemptPending(r: Recovery, owner: int, session: int, epoch: nat) {
    Bound(r, owner, session) && r.initialized && r.pushEligible && r.attempts < MAX_ATTEMPTS && Pending(r, epoch)
  }

  function Fresh(owner: int, session: int, covered: nat, initialized: bool): Recovery {
    Recovery(owner, session, 0, covered, initialized, true, false, 0, UNSET_TIME, false, 0)
  }

  /** A change of owner, session or auth key. */
  function Reset(owner: int, session: int): Recovery {
    Fresh(owner, session, 0, false)
  }

  function Ensured(r: Recovery, owner: int, session: int, coverage: nat): Recovery {
    if Bound(r, owner, session) && r.initialized then r else Fresh(owner, session, coverage, true)
  }

  function Marked(r: Recovery, generation: nat, epoch: nat): Recovery
    requires generation > 0
  {
    var start := if r.initialized then r else Fresh(r.owner, r.session, Max(generation - 1, epoch), true);
    var next := start.(generation := Max(start.generation, generation));
    if !Pending(start, epoch) && Pending(next, epoch) then next.(attempts := 0, nextAttempt := UNSET_TIME) else next
  }

  predicate Fetches(r: Recovery, owner: int, session: int) {
    Bound(r, owner, session) && r.initialized
  }

  function Fetched(r: Recovery, captured: nat, epoch: nat): Recovery {
    var next := r.(covered := Max(r.covered, captured), pushEligible := true);
    if Pending(next, epoch) then next
    else next.(attempts := 0, nextAttempt := UNSET_TIME, inFlight := false, claim := 0)
  }

  predicate Differs(r: Recovery, owner: int, session: int) {
    Bound(r, owner, session) && r.initialized && r.firstDifference
  }

  function Differenced(r: Recovery): Recovery {
    r.(firstDifference := false, pushEligible := true)
  }

  predicate Claimable(r: Recovery, owner: int, session: int, epoch: nat, now: int) {
    && AttemptPending(r, owner, session, epoch)
    && !r.inFlight
    && (r.attempts > 0 ==> r.nextAttempt <= now)
  }

  function Claimed(r: Recovery, now: int, claim: nat): Recovery {
    var n := r.attempts + 1;
    r.(attempts := n, inFlight := true, claim := claim,
    nextAttempt := if n == 1 then now + FIRST_RETRY else if n == 2 then now + SECOND_RETRY else UNSET_TIME)
  }

  predicate Finishes(r: Recovery, owner: int, session: int, claim: nat) {
    Bound(r, owner, session) && r.inFlight && r.claim == claim
  }

  function Finished(r: Recovery): Recovery {
    r.(inFlight := false, claim := 0)
  }
}
