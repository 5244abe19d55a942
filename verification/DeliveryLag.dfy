/**
 Publication of delivery-lag samples: concurrent attempts replace one immutable
 state by compare-and-swap, newer attempts winning, and the last full sample is
 carried along by those that are not.
 */
module DeliveryLag {
  import opened Common

  datatype State = Available | Stale | Unavailable
  datatype Coverage = Full | Partial | Nothing

  datatype Sample = Sample(worstPts: int, eligible: nat, sampled: nat, complete: bool)

  datatype LagState = LagState(attempt: nat, hasFull: bool, fullWorst: int, fullAt: int,
                               state: State, coverage: Coverage, eligible: nat, sampled: nat)

  datatype Response = Response(worst: Option<int>, state: State, coverage: Coverage,
                               eligible: nat, sampled: nat, at: Option<int>)

  const UNSET_TIME: int := 0
  const NEVER := LagState(0, false, 0, UNSET_TIME, Unavailable, Nothing, 0, 0)

  function CoverageOf(s: Sample): Coverage {
    if !s.complete then (if s.sampled == 0 then Nothing else Partial)
    else if s.sampled == s.eligible then Full
    else if s.sampled == 0 then Nothing
    else Partial
  }

  /** Full means every eligible connection of a complete sample, nothing means that not
      one was sampled of some that should have been or of an incomplete sample. */
  lemma CoverageIff(s: Sample)
    ensures CoverageOf(s) == Full <==> s.complete && s.sampled == s.eligible
    ensures CoverageOf(s) == Nothing <==> s.sampled == 0 && (s.eligible > 0 || !s.complete)
    ensures CoverageOf(s) == Partial <==> s.sampled > 0 && (s.sampled != s.eligible || !s.complete)
  {
  }

  function Respond(s: LagState): Response {
    Response(if s.hasFull then Some(s.fullWorst) else None, s.state, s.coverage, s.eligible, s.sampled,
             if s.hasFull then Some(s.fullAt) else None)
  }

  /** A state that was installed: whose attempt it was, what it sampled and when. */
  datatype Install = Install(attempt: nat, raw: Sample, at: int)

  predicate IsFull(i: Install) {
    CoverageOf(i.raw) == Full
  }

  /** The state an attempt wants to put after `prior`. */
  function Successor(prior: LagState, i: Install): LagState {
    var base := LagState(i.attempt, false, 0, UNSET_TIME, Unavailable,
                         CoverageOf(i.raw), i.raw.eligible, i.raw.sampled);
    if IsFull(i) then
      base.(hasFull := true, fullWorst := i.raw.worstPts, fullAt := i.at, state := Available)
    else
      base.(hasFull := prior.hasFull, fullWorst := prior.fullWorst, fullAt := prior.fullAt,
      state := if prior.hasFull then Stale else Unavailable)
  }

  /** The last full install, or -1. */
  function LatestFull(h: seq<Install>): (i: int)
    ensures -1 <= i < |h|
    ensures 0 <= i ==> IsFull(h[i])
    ensures forall j :: i < j < |h| ==> !IsFull(h[j])
  {
    if h == [] then -1
    else if IsFull(h[|h| - 1]) then |h| - 1
    else LatestFull(h[..|h| - 1])
  }

  predicate Increasing(h: seq<Install>) {
    forall i, j :: 0 <= i < j < |h| ==> h[i].attempt < h[j].attempt
  }

  /** The state says what the history of installs says. */
  predicate Describes(s: LagState, h: seq<Install>) {
    var k := LatestFull(h);
    && s.hasFull == (k >= 0)
    && (k >= 0 ==> s.fullWorst == h[k].raw.worstPts && s.fullAt == h[k].at)
    && (s.state == Available <==> h != [] && IsFull(h[|h| - 1]))
    && (s.state == Stale <==> k >= 0 && !IsFull(h[|h| - 1]))
    && (s.state == Unavailable <==> k < 0)
    && (h == [] ==> s == NEVER)
    && (h != [] ==>
          var last := h[|h| - 1];
          && s.attempt == last.attempt && s.coverage == CoverageOf(last.raw)
          && s.eligible == last.raw.eligible && s.sampled == last.raw.sampled)
  }

  lemma SuccessorDescribes(s: LagState, h: seq<Install>, i: Install)
    requires Describes(s, h)
    ensures Describes(Successor(s, i), h + [i])
  {
    assert (h + [i])[..|h|] == h;
  }

  lemma IncreasingSnoc(h: seq<Install>, i: Install)
    requires Increasing(h) && (h != [] ==> h[|h| - 1].attempt < i.attempt)
    ensures Increasing(h + [i])
  {
    forall k | 0 <= k < |h| ensures h[k].attempt < i.attempt {
      assert h[k].attempt <= h[|h| - 1].attempt;
    }
  }

  /** What the other samplers do between two steps: start attempts and install states. */
  datatype Step = Begin | Put(i: Install)

  class Sampler {
    var counter: nat
    var state: Pointer<LagState>
    /** Attempts begun whose publication has not ended. */
    var open: set<nat>
    ghost var installs: seq<Install>

    ghost predicate Valid()
      reads this
    {
      && Describes(state.value, installs) && Increasing(installs)
      && (forall a :: a in open ==> a <= counter)
      && state.value.attempt <= counter
      && (forall i :: 0 <= i < |installs| ==> installs[i].attempt !in open)
    }

    constructor ()
      ensures Valid() && counter == 0 && open == {} && installs == []
    {
      counter, state, open, installs := 0, Pointer(0, NEVER), {}, [];
    }

    /** A fresh attempt number. */
    method BeginAttempt() returns (attempt: nat)
      requires Valid()
      modifies this`counter, this`open
      ensures Valid() && attempt == counter == old(counter) + 1 && open == old(open) + {attempt}
      ensures attempt !in old(open)
      ensures forall i :: 0 <= i < |installs| ==> installs[i].attempt < attempt
    {
      counter := counter + 1;
      attempt := counter;
      open := open + {attempt};
      forall i | 0 <= i < |installs| ensures installs[i].attempt < attempt {
        assert installs[i].attempt <= state.value.attempt;
      }
    }

    /** CompareAndSwap: succeeds only if nobody replaced the state since `prior` was loaded. */
    method Swap(prior: Pointer<LagState>, i: Install) returns (swapped: bool)
      requires Valid() && i.attempt in open
      requires prior.id == state.id ==> prior == state && state.value.attempt <= i.attempt
      modifies this`state, this`open, this`installs
      ensures Valid() && swapped == (prior.id == old(state.id))
      ensures swapped ==> state == Pointer(old(state.id) + 1, Successor(prior.value, i))
                          && installs == old(installs) + [i] && open == old(open) - {i.attempt}
      ensures !swapped ==> state == old(state) && installs == old(installs) && open == old(open)
    {
      swapped := state.id == prior.id;
      if swapped {
        SuccessorDescribes(state.value, installs, i);
        IncreasingSnoc(installs, i);
        state := Pointer(state.id + 1, Successor(prior.value, i));
        installs := installs + [i];
        open := open - {i.attempt};
      }
    }

    /** Another sampler takes a step, if it is one it could take. */
    method Suffer(s: Step, mine: nat)
      requires Valid() && mine in open
      modifies this
      ensures Moved(old(state), old(installs), mine)
    {
      match s {
        case Begin =>
          var _ := BeginAttempt();
        case Put(i) =>
          SufferPut(i, mine);
      }
    }

    method SufferPut(i: Install, mine: nat)
      requires Valid() && mine in open
      modifies this
      ensures Moved(old(state), old(installs), mine)
    {
      if i.attempt in open && i.attempt != mine && state.value.attempt <= i.attempt {
        var _ := Swap(state, i);
      }
    }

    /** Others took steps; a pointer that is still the same still has its value. */
    ghost predicate Moved(state0: Pointer<LagState>, installs0: seq<Install>, mine: nat)
      reads this
    {
      && Valid() && mine in open && installs0 <= installs
      && state0.id <= state.id && (state.id == state0.id ==> state == state0 && installs == installs0)
    }

    method Yield(env: Schedule<Step>, mine: nat)
      requires Valid() && mine in open
      modifies this, env
      ensures Moved(old(state), old(installs), mine)
      ensures env.rest == if old(env.rest) == [] then [] else old(env.rest)[1..]
      ensures old(env.rest) == [] ==> state == old(state)
    {
      var steps := env.Next();
      for k := 0 to |steps|
        invariant Moved(old(state), old(installs), mine)
        invariant env.rest == if old(env.rest) == [] then [] else old(env.rest)[1..]
        invariant steps == [] ==> state == old(state)
      {
        Suffer(steps[k], mine);
      }
    }

    /** The response is what some moment of the call says: the installs up to then
        were `h`, and the last of them is this attempt or one begun later. */
    ghost predicate Reports(r: Response, i: Install, h: seq<Install>, seen: LagState)
      reads this
    {
      && h != [] && h <= installs
      && Describes(seen, h) && r == Respond(seen)
      && (h[|h| - 1] == i || h[|h| - 1].attempt > i.attempt)
    }

    /** Try to install over the state just loaded, others acting meanwhile. */
    method TryInstall(env: Schedule<Step>, prior: Pointer<LagState>, i: Install) returns (swapped: bool)
      requires Valid() && i.attempt in open && prior == state && prior.value.attempt <= i.attempt
      modifies this, env
      ensures Valid() && old(installs) <= installs
      ensures swapped ==> i.attempt !in open && Reports(Respond(state.value), i, installs, state.value)
      ensures !swapped ==> i.attempt in open && |env.rest| < |old(env.rest)|
    {
      Yield(env, i.attempt);
      swapped := Swap(prior, i);
    }

    /** Leave the state of a later attempt in place. */
    method GiveWay(i: Install)
      requires Valid() && i.attempt in open && state.value.attempt > i.attempt
      modifies this`open
      ensures Valid() && i.attempt !in open && Reports(Respond(state.value), i, installs, state.value)
    {
      open := open - {i.attempt};
    }

    /** Publish an attempt, unless an attempt begun later was already published. */
    method Publish(env: Schedule<Step>, i: Install) returns (r: Response, ghost h: seq<Install>, ghost seen: LagState)
      requires Valid() && i.attempt in open
      modifies this, env
      ensures Valid() && i.attempt !in open && old(installs) <= h && Reports(r, i, h, seen)
    {
      while true
        invariant Valid() && i.attempt in open && old(installs) <= installs
        decreases |env.rest|
      {
        var prior := state;
        if prior.value.attempt > i.attempt {
          GiveWay(i);
          return Respond(prior.value), installs, prior.value;
        }
        var swapped := TryInstall(env, prior, i);
        if swapped {
          return Respond(state.value), installs, state.value;
        }
      }
    }

    /** One sampling attempt; the clock is read only for a full sample. */
    method SampleLag(env: Schedule<Step>, raw: Sample, now: int)
      returns (r: Response, ghost i: Install, ghost h: seq<Install>, ghost seen: LagState)
      requires Valid()
      modifies this, env
      ensures i.raw == raw && (IsFull(i) ==> i.at == now) && i.attempt > old(counter)
      ensures Valid() && old(installs) <= h && Reports(r, i, h, seen)
    {
      var attempt := BeginAttempt();
      Yield(env, attempt);
      var sampledAt := if raw.complete && raw.sampled == raw.eligible then now else UNSET_TIME;
      var install := Install(attempt, raw, sampledAt);
      i := install;
      r, h, seen := Publish(env, install);
    }
  }

  /** For every published state: a retained value is present exactly when some install
      was full, it is that of the latest such install, and the state tells which. */
  lemma RespondTells(s: LagState, h: seq<Install>)
    requires Describes(s, h)
    ensures Respond(s).worst.Some? == Respond(s).at.Some? == (exists k :: 0 <= k < |h| && IsFull(h[k]))
    ensures Respond(s).state == Unavailable <==> Respond(s).worst.None?
    ensures forall k :: 0 <= k < |h| && IsFull(h[k]) && (forall j :: k < j < |h| ==> !IsFull(h[j])) ==>
                          Respond(s).worst == Some(h[k].raw.worstPts) && Respond(s).at == Some(h[k].at)
                          && (Respond(s).state == Available <==> k == |h| - 1)
  {
  }
}
