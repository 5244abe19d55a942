/**
 The invalidation clock and the recovery record as the server keeps them: atomic
 pointers to immutable values, replaced by compare-and-swap loops that other
 goroutines race.
 */
module FilterSync {
  import opened Common
  import opened FilterRecovery
  import opened FilterClock

  datatype Capture = Capture(owner: int, session: int, generation: nat, firstDifference: bool, pending: bool)

  const NO_CAPTURE := Capture(0, 0, 0, false, false)

  /** An entry of the registry's list: this connection, as it is bound when looked at, or another one. */
  datatype Listed = ThisOne(boundOwner: int, session: int) | AnotherOne

  /** The record a step leaves, as long as it is about the record. */
  function Replaced(r: Recovery, s: Step): Recovery {
    match s
    case Rebind(owner, session) => Reset(owner, session)
    case Ensure(owner, session, at) => Ensured(r, owner, session, at.sequence)
    case Mark(owner, session, at) =>
      if Bound(r, owner, session) && at.sequence > 0 then Marked(r, at.sequence, at.epoch) else r
    case Fetch(owner, session, at, now) =>
      if Fetches(r, owner, session) then Fetched(r, Max(at.sequence, at.epoch), now.epoch) else r
    case Difference(owner, session) => if Differs(r, owner, session) then Differenced(r) else r
    case Claim(owner, session, at, time, claim) =>
      if Claimable(r, owner, session, at.epoch, time) then Claimed(r, time, claim) else r
    case Finish(owner, session, claim) => if Finishes(r, owner, session, claim) then Finished(r) else r
    case _ => r
  }

  lemma ApplyReplaces(w: World, s: Step)
    requires w.clocks != [] && Possible(w.clocks, s)
    ensures Apply(w, s).rec == Replaced(w.rec, s)
    ensures !Installs(s) ==> Apply(w, s).clocks == w.clocks
  {
  }

  /** One step took a number and a later one marked the binding with it. */
  ghost predicate Invalidated(from: seq<Step>, story: seq<Step>, owner: int, session: int, taking: seq<Step>,
                              marking: seq<Step>) {
    && from <= taking && taking + [Number] <= marking
    && marking + [Mark(owner, session, Ticked(Last(After(taking)), Number))] <= story
    && Bound(After(marking).rec, owner, session)
  }

  /** A listed connection of the owner was marked with the number taken, or was not bound to
      that owner and session at some moment of the call. */
  ghost predicate Answered(from: seq<Step>, story: seq<Step>, owner: int, c: Listed, taking: seq<Step>) {
    c.ThisOne? && c.boundOwner == owner ==>
      || (exists marking :: Invalidated(from, story, owner, c.session, taking, marking))
      || (exists upto :: from <= upto <= story && !Bound(After(upto).rec, owner, c.session))
  }

  lemma AnsweredStays(from: seq<Step>, story: seq<Step>, later: seq<Step>, owner: int, c: Listed, taking: seq<Step>)
    requires Answered(from, story, owner, c, taking) && story <= later
    ensures Answered(from, later, owner, c, taking)
  {
    if c.ThisOne? && c.boundOwner == owner {
      if marking :| Invalidated(from, story, owner, c.session, taking, marking) {
        assert Invalidated(from, later, owner, c.session, taking, marking);
      } else {
        var upto :| from <= upto <= story && !Bound(After(upto).rec, owner, c.session);
        assert from <= upto <= later;
      }
    }
  }

  ghost predicate AllAnswered(from: seq<Step>, story: seq<Step>, owner: int, conns: seq<Listed>, taking: seq<Step>) {
    forall i :: 0 <= i < |conns| ==> Answered(from, story, owner, conns[i], taking)
  }

  lemma OneMoreAnswered(from: seq<Step>, story: seq<Step>, later: seq<Step>, owner: int, conns: seq<Listed>, k: nat,
                        taking: seq<Step>)
    requires k < |conns| && AllAnswered(from, story, owner, conns[..k], taking) && story <= later
    requires Answered(from, later, owner, conns[k], taking)
    ensures AllAnswered(from, later, owner, conns[..k + 1], taking)
  {
    forall i | 0 <= i < k ensures Answered(from, later, owner, conns[i], taking) {
      assert conns[..k][i] == conns[i];
      AnsweredStays(from, story, later, owner, conns[i], taking);
    }
  }

  class Replica {
    var clock: Pointer<Clock>
    var state: Pointer<Recovery>
    /** The clock values some goroutine may still hold. */
    var installed: seq<Clock>
    /** Every step taken so far, by this goroutine and the others. */
    ghost var story: seq<Step>

    ghost predicate Valid()
      reads this
    {
      && installed == After(story).clocks
      && clock == Pointer(|installed|, Last(After(story)))
      && state.value == After(story).rec
    }

    constructor ()
      ensures Valid() && story == []
    {
      clock, state, installed, story := Pointer(1, Clock(0, 0)), Pointer(0, Reset(0, 0)), [Clock(0, 0)], [];
    }

    ghost method Note(s: Step)
      requires Possible(After(story).clocks, s)
      modifies this`story
      ensures story == old(story) + [s]
      ensures After(story) == Apply(After(old(story)), s)
    {
      story := story + [s];
      assert story[..|story| - 1] == old(story);
    }

    /** CompareAndSwap on the clock. */
    method SwapClock(current: Pointer<Clock>, next: Clock, ghost s: Step) returns (swapped: bool)
      requires Valid() && Installs(s)
      requires current.id == clock.id ==> next == Ticked(clock.value, s)
      modifies this
      ensures Valid() && state == old(state) && old(installed) <= installed
      ensures swapped == (current.id == old(clock.id))
      ensures swapped ==> next in installed && next == Last(After(story))
      ensures story == if swapped then old(story) + [s] else old(story)
    {
      swapped := clock.id == current.id;
      if swapped {
        clock, installed := Pointer(clock.id + 1, next), installed + [next];
        Note(s);
      }
    }

    /** CompareAndSwap on the recovery record. */
    method SwapState(current: Pointer<Recovery>, next: Recovery, ghost s: Step) returns (swapped: bool)
      requires Valid() && !Installs(s) && Possible(installed, s)
      requires current.id == state.id ==> next == Replaced(state.value, s)
      modifies this
      ensures Valid() && clock == old(clock) && installed == old(installed)
      ensures swapped == (current.id == old(state.id))
      ensures story == if swapped then old(story) + [s] else old(story)
    {
      swapped := state.id == current.id;
      if swapped {
        state := Pointer(state.id + 1, next);
        ApplyReplaces(After(story), s);
        Note(s);
      }
    }

    /** Another goroutine takes a step, if it is one it could take. */
    method Suffer(s: Step)
      requires Valid()
      modifies this
      ensures Moved(old(clock), old(state), old(installed), old(story))
    {
      if Installs(s) {
        var next := Ticked(clock.value, s);
        clock, installed := Pointer(clock.id + 1, next), installed + [next];
        Note(s);
      } else if Possible(installed, s) {
        state := Pointer(state.id + 1, Replaced(state.value, s));
        ApplyReplaces(After(story), s);
        Note(s);
      }
    }

    /** Steps were taken; a pointer that is still the same still has its value. */
    ghost predicate Moved(clock0: Pointer<Clock>, state0: Pointer<Recovery>, installed0: seq<Clock>, story0: seq<Step>)
      reads this
    {
      && Valid() && story0 <= story && installed0 <= installed
      && clock0.id <= clock.id && (clock.id == clock0.id ==> clock == clock0)
      && state0.id <= state.id && (state.id == state0.id ==> state == state0)
    }

    /** The point between two steps where others run. */
    method Yield(env: Schedule<Step>)
      requires Valid()
      modifies this, env
      ensures Moved(old(clock), old(state), old(installed), old(story))
      ensures env.rest == if old(env.rest) == [] then [] else old(env.rest)[1..]
      ensures old(env.rest) == [] ==> story == old(story) && clock == old(clock) && state == old(state)
    {
      var steps := env.Next();
      for i := 0 to |steps|
        invariant Moved(old(clock), old(state), old(installed), old(story))
        invariant env.rest == if old(env.rest) == [] then [] else old(env.rest)[1..]
        invariant steps == [] ==> story == old(story) && clock == old(clock) && state == old(state)
      {
        Suffer(steps[i]);
      }
    }

    /** Take the next number, in one step of its own after `before`. */
    method Next(env: Schedule<Step>) returns (taken: Clock, ghost before: seq<Step>)
      requires Valid()
      modifies this, env
      ensures Valid() && old(installed) <= installed
      ensures old(story) <= before && before + [Number] <= story
      ensures taken == Ticked(Last(After(before)), Number) && taken in installed && taken.epoch < taken.sequence
    {
      while true
        invariant Valid() && old(story) <= story && old(installed) <= installed
        decreases |env.rest|
      {
        var current := clock;
        Yield(env);
        taken := Clock(current.value.sequence + 1, current.value.epoch);
        before := story;
        var swapped := SwapClock(current, taken, Number);
        if swapped {
          EpochWithinSequence(before);
          return;
        }
      }
    }

    /** Advance the reconnect epoch to a number of its own. */
    method ListenerReconnected(env: Schedule<Step>) returns (ghost before: seq<Step>)
      requires Valid()
      modifies this, env
      ensures Valid() && old(installed) <= installed
      ensures old(story) <= before && before + [Reconnect] <= story
    {
      while true
        invariant Valid() && old(story) <= story && old(installed) <= installed
        decreases |env.rest|
      {
        var current := clock;
        Yield(env);
        var generation := current.value.sequence + 1;
        before := story;
        var swapped := SwapClock(current, Clock(generation, generation), Reconnect);
        if swapped {
          return;
        }
      }
    }

    /** EnsureDialogFilterRecoveryBinding with the clock the caller loaded.  The
        connection was bound after the steps `upto`. */
    method EnsureRecovery(env: Schedule<Step>, owner: int, session: int, loaded: Clock) returns (ghost upto: seq<Step>)
      requires Valid() && loaded in installed
      modifies this, env
      ensures Valid() && old(installed) <= installed
      ensures old(story) <= upto <= story && Fetches(After(upto).rec, owner, session)
    {
      while true
        invariant Valid() && old(story) <= story && old(installed) <= installed
        decreases |env.rest|
      {
        var current := state;
        upto := story;
        if Bound(current.value, owner, session) && current.value.initialized {
          return;
        }
        Yield(env);
        var next := Fresh(owner, session, loaded.sequence, true);
        var swapped := SwapState(current, next, Ensure(owner, session, loaded));
        if swapped {
          upto := story;
          return;
        }
      }
    }

    /** MarkDialogFilterRecovery: false when the connection is bound to someone else. */
    method MarkRecovery(env: Schedule<Step>, owner: int, session: int, taken: Clock)
      returns (marked: bool, ghost before: seq<Step>)
      requires Valid() && taken in installed && taken.epoch < taken.sequence
      modifies this, env
      ensures Valid() && old(story) <= story && old(installed) <= installed
      ensures marked ==> old(story) <= before && before + [Mark(owner, session, taken)] <= story
      ensures old(story) <= before <= story && marked == Bound(After(before).rec, owner, session)
    {
      before := story;
      while true
        invariant Valid() && old(story) <= story && old(installed) <= installed
        decreases |env.rest|
      {
        var current := state;
        before := story;
        if !Bound(current.value, owner, session) {
          return false, before;
        }
        var next := Marked(current.value, taken.sequence, taken.epoch);
        Yield(env);
        before := story;
        marked := SwapState(current, next, Mark(owner, session, taken));
        if marked {
          return;
        }
      }
    }

    /** AcknowledgeDialogFilterFetch: false when the connection is bound to someone else. */
    method CoverRecovery(env: Schedule<Step>, owner: int, session: int, captured: nat, ghost at: Clock, now: Clock)
      returns (covered: bool, ghost before: seq<Step>)
      requires Valid() && at in installed && now in installed && captured == Max(at.sequence, at.epoch)
      modifies this, env
      ensures Valid() && old(story) <= story && old(installed) <= installed
      ensures covered ==> old(story) <= before && before + [Fetch(owner, session, at, now)] <= story
      ensures covered ==> Fetches(After(before).rec, owner, session)
    {
      before := story;
      while true
        invariant Valid() && old(story) <= story && old(installed) <= installed
        decreases |env.rest|
      {
        var current := state;
        if !Fetches(current.value, owner, session) {
          return false, before;
        }
        var next := Fetched(current.value, captured, now.epoch);
        Yield(env);
        before := story;
        covered := SwapState(current, next, Fetch(owner, session, at, now));
        if covered {
          return;
        }
      }
    }

    /** What the connection had to cover when a fetch or difference began.  The clock was
        loaded after the steps `loading`. */
    method CaptureState(env: Schedule<Step>, owner: int, session: int, provisional: bool)
      returns (c: Capture, ghost loading: seq<Step>)
      requires Valid()
      modifies this, env
      ensures Valid() && old(installed) <= installed
      ensures old(story) <= loading <= story && Last(After(loading)) in installed
      ensures c == NO_CAPTURE || (c.owner == owner != 0 && c.session == session
                                  && c.generation == Last(After(loading)).sequence)
    {
      loading := story;
      if owner == 0 || provisional {
        return NO_CAPTURE, loading;
      }
      var loaded := clock.value;
      EpochWithinSequence(story);
      Yield(env);
      ghost var _ := EnsureRecovery(env, owner, session, loaded);
      Yield(env);
      var r := state.value;
      if !Fetches(r, owner, session) {
        return NO_CAPTURE, loading;
      }
      c := Capture(owner, session, Max(loaded.sequence, loaded.epoch), r.firstDifference, Pending(r, loaded.epoch));
    }

    method EnsureBinding(env: Schedule<Step>, owner: int, session: int, provisional: bool)
      returns (ghost upto: seq<Step>)
      requires Valid()
      modifies this, env
      ensures Valid() && old(story) <= upto <= story && old(installed) <= installed
      ensures owner != 0 && !provisional ==> Fetches(After(upto).rec, owner, session)
    {
      upto := story;
      if owner != 0 && !provisional {
        var loaded := clock.value;
        Yield(env);
        upto := EnsureRecovery(env, owner, session, loaded);
      }
    }

    /** AcknowledgeFetch: covers what was captured, and asks for another recovery
        attempt when the connection still has something to cover. */
    method AcknowledgeFetch(env: Schedule<Step>, owner: int, session: int, expired: bool, c: Capture, ghost at: Clock)
      returns (enqueue: bool, ghost covered: bool, ghost before: seq<Step>, ghost now: Clock)
      requires Valid() && at in installed && at.epoch <= at.sequence
      requires c.generation == at.sequence
      modifies this, env
      ensures Valid() && old(story) <= story
      ensures expired || c.owner != owner || c.session != session ==> !covered
      ensures covered ==> old(story) <= before && before + [Fetch(owner, session, at, now)] <= story
      ensures !covered ==> !enqueue
    {
      enqueue, covered, before, now := false, false, story, clock.value;
      if expired || c.owner != owner || c.session != session {
        return;
      }
      var current := clock.value;
      Yield(env);
      var ok;
      ok, before := CoverRecovery(env, owner, session, c.generation, at, current);
      covered := ok;
      if ok {
        Yield(env);
        var later := clock.value;
        Yield(env);
        enqueue := AttemptPending(state.value, owner, session, later.epoch);
      }
    }

    /** A folder fetch from capture to acknowledgement.  The database read begins after
        `begun` steps; numbers handed out from then on are not covered by it. */
    method GetDialogFilters(env: Schedule<Step>, owner: int, session: int, provisional: bool, readFails: bool,
                            expired: bool)
      returns (enqueue: bool, ghost begun: nat, ghost covered: bool, ghost k: nat)
      requires Valid()
      modifies this, env
      ensures Valid() && old(story) <= story
      ensures covered ==> begun <= k < |story| && story[k].Fetch? && LeavesNewer(story, begun, k)
    {
      enqueue, begun, covered, k := false, 0, false, 0;
      if owner == 0 || provisional {
        return;
      }
      ghost var _ := EnsureBinding(env, owner, session, provisional);
      var c;
      ghost var loading;
      c, loading := CaptureState(env, owner, session, provisional);
      begun := |story|;
      Yield(env);
      if readFails {
        return;
      }
      EpochWithinSequence(loading);
      StartIsInstalled(story);
      ghost var at := if c == NO_CAPTURE then Clock(0, 0) else Last(After(loading));
      ghost var before, now;
      enqueue, covered, before, now := AcknowledgeFetch(env, owner, session, expired, c, at);
      k := |before|;
      if covered {
        FetchedLeavesNewer(story, loading, before, Fetch(owner, session, at, now), begun);
      }
    }

    /** RequesterRepair: the reply to a change was lost, so mark the requester itself. */
    method RequesterRepair(env: Schedule<Step>, owner: int, session: int, provisional: bool)
      returns (enqueue: bool, ghost taking: seq<Step>, ghost marking: seq<Step>)
      requires Valid()
      modifies this, env
      ensures Valid() && old(story) <= story
      ensures enqueue ==> Invalidated(old(story), story, owner, session, taking, marking)
    {
      enqueue, taking, marking := false, story, story;
      if owner != 0 && !provisional {
        ghost var _ := EnsureBinding(env, owner, session, provisional);
        var taken;
        taken, taking := Next(env);
        Yield(env);
        enqueue, marking := MarkRecovery(env, owner, session, taken);
      }
    }

    /** Mark one listed connection with the number taken, if it is this one under the owner. */
    method MarkListed(env: Schedule<Step>, owner: int, c: Listed, taken: Clock, ghost from: seq<Step>,
                      ghost taking: seq<Step>)
      returns (marked: bool, ghost before: seq<Step>)
      requires Valid() && taken in installed && taken.epoch < taken.sequence
      requires from <= taking && taking + [Number] <= story && taken == Ticked(Last(After(taking)), Number)
      modifies this, env
      ensures Valid() && old(story) <= story && old(installed) <= installed
      ensures marked ==> c.ThisOne? && c.boundOwner == owner
                         && Invalidated(from, story, owner, c.session, taking, before)
      ensures Answered(from, story, owner, c, taking)
    {
      marked, before := false, story;
      Yield(env);
      if c.ThisOne? && c.boundOwner == owner {
        marked, before := MarkRecovery(env, owner, c.session, taken);
        if marked {
          assert Invalidated(from, story, owner, c.session, taking, before);
        }
      }
    }

    /** OwnerInvalidation: one number for all the connections the registry lists under the
        owner, of which this one is marked whenever it is listed and still bound to the owner. */
    method OwnerInvalidation(env: Schedule<Step>, owner: int, conns: seq<Listed>)
      returns (enqueue: bool, ghost session: int, ghost taking: seq<Step>, ghost marking: seq<Step>)
      requires Valid()
      modifies this, env
      ensures Valid() && old(story) <= story
      ensures enqueue ==> ThisOne(owner, session) in conns &&
                          Invalidated(old(story), story, owner, session, taking, marking)
      ensures owner > 0 ==> AllAnswered(old(story), story, owner, conns, taking)
    {
      enqueue, session, taking, marking := false, 0, story, story;
      if owner <= 0 {
        return;
      }
      var taken;
      taken, taking := Next(env);
      for i := 0 to |conns|
        invariant Valid() && taking + [Number] <= story && taken in installed
        invariant enqueue ==> ThisOne(owner, session) in conns &&
                              Invalidated(old(story), story, owner, session, taking, marking)
        invariant AllAnswered(old(story), story, owner, conns[..i], taking)
      {
        ghost var was := story;
        var marked;
        ghost var before;
        marked, before := MarkListed(env, owner, conns[i], taken, old(story), taking);
        OneMoreAnswered(old(story), was, story, owner, conns, i, taking);
        if marked {
          enqueue, session, marking := true, conns[i].session, before;
        }
      }
      assert conns[..|conns|] == conns;
    }
  }
}
