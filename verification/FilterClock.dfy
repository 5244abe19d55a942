/**
 The replica's invalidation clock and one connection's coverage of it.

 Every committed folder change and every listener reconnect takes the next number
 of the clock.  A folder fetch remembers the number it saw before reading the
 database and, once its reply is written, covers numbers up to that one.  The
 claim is that coverage never hides a change the client has not been shown.
 */
module FilterClock {
  import opened Common
  import opened FilterRecovery

  datatype Clock = Clock(sequence: nat, epoch: nat)

  /** `clocks` are the clocks installed so far, the current one last.  For the
      binding in force, `start` is the clock its coverage began at, `seen` are
      the clocks its acknowledged fetches captured, `marks` the numbers marked. */
  datatype World = World(clocks: seq<Clock>, rec: Recovery,
                         start: nat, seen: set<nat>, marks: set<nat>)

  /** One atomic step of any goroutine.  `at` and `now` are clocks it loaded or installed earlier. */
  datatype Step =
    | Number
    | Reconnect
    | Rebind(owner: int, session: int)
    | Ensure(owner: int, session: int, at: Clock)
    | Mark(owner: int, session: int, at: Clock)
    | Fetch(owner: int, session: int, at: Clock, now: Clock)
    | Difference(owner: int, session: int)
    | Claim(owner: int, session: int, at: Clock, time: int, claim: nat)
    | Finish(owner: int, session: int, claim: nat)

  function Last(w: World): Clock
    requires w.clocks != []
  {
    w.clocks[|w.clocks| - 1]
  }

  predicate Ticks(c: seq<Clock>) {
    && c != []
    && (forall i :: 0 <= i < |c| ==> c[i].sequence == i && c[i].epoch <= i)
    && (forall i, j :: 0 <= i <= j < |c| ==> c[i].epoch <= c[j].epoch)
  }

  /** The clock of a step is one that was there to load; a mark carries a number taken by `next`. */
  predicate Possible(clocks: seq<Clock>, s: Step) {
    match s
    case Ensure(_, _, at) => at in clocks
    case Mark(_, _, at) => at in clocks && at.epoch < at.sequence
    case Fetch(_, _, at, now) => at in clocks && now in clocks
    case Claim(_, _, at, _, _) => at in clocks
    case _ => true
  }

  predicate Installs(s: Step) {
    s.Number? || s.Reconnect?
  }

  /** The clock that follows `c`: a reconnect takes its number as the epoch too. */
  function Ticked(c: Clock, s: Step): Clock {
    Clock(c.sequence + 1, if s.Reconnect? then c.sequence + 1 else c.epoch)
  }

  function Tick(w: World, c: Clock): World {
    w.(clocks := w.clocks + [c])
  }

  function Apply(w: World, s: Step): World
    requires w.clocks != [] && Possible(w.clocks, s)
  {
    match s
    case Number => Tick(w, Ticked(Last(w), s))
    case Reconnect => Tick(w, Ticked(Last(w), s))
    case Rebind(owner, session) => World(w.clocks, Reset(owner, session), 0, {}, {})
    case Ensure(owner, session, at) =>
      if Bound(w.rec, owner, session) && w.rec.initialized then w
      else World(w.clocks, Ensured(w.rec, owner, session, at.sequence), at.sequence, {}, {})
    case Mark(owner, session, at) =>
      if !Bound(w.rec, owner, session) then w
      else
        var rec := Marked(w.rec, at.sequence, at.epoch);
        if w.rec.initialized then w.(rec := rec, marks := w.marks + {at.sequence})
        else World(w.clocks, rec, at.sequence - 1, {}, {at.sequence})
    case Fetch(owner, session, at, now) =>
      if !Fetches(w.rec, owner, session) then w
      else w.(rec := Fetched(w.rec, Max(at.sequence, at.epoch), now.epoch),
           seen := w.seen + {at.sequence})
    case Difference(owner, session) =>
      if Differs(w.rec, owner, session) then w.(rec := Differenced(w.rec)) else w
    case Claim(owner, session, at, time, claim) =>
      if Claimable(w.rec, owner, session, at.epoch, time) then w.(rec := Claimed(w.rec, time, claim)) else w
    case Finish(owner, session, claim) =>
      if Finishes(w.rec, owner, session, claim) then w.(rec := Finished(w.rec)) else w
  }

  /** The replica starts at zero with an unbound connection. */
  const START := World([Clock(0, 0)], Reset(0, 0), 0, {}, {})

  /** The world a run leads to; a step naming a clock that was never there does nothing. */
  ghost function After(story: seq<Step>): (w: World)
    ensures w.clocks != []
    decreases |story|, 0
  {
    if story == [] then START
    else
      var w := After(story[..|story| - 1]);
      if Possible(w.clocks, story[|story| - 1]) then Apply(w, story[|story| - 1]) else w
  }

  // ----- what every reachable world satisfies -----

  /** Coverage is the newest clock among the start of the binding and its fetches. */
  predicate CoverageIsEvidence(w: World) {
    && w.start <= w.rec.covered && (forall r :: r in w.seen ==> r <= w.rec.covered)
    && (w.rec.covered == w.start || w.rec.covered in w.seen)
  }

  /** The generation is the newest number marked. */
  predicate GenerationIsMarks(w: World) {
    && (forall m :: m in w.marks ==> m <= w.rec.generation)
    && (w.rec.generation == 0 || w.rec.generation in w.marks)
  }

  predicate Sound(w: World) {
    && Ticks(w.clocks)
    && w.rec.covered < |w.clocks| && w.rec.generation < |w.clocks|
    && (w.rec.initialized ==> CoverageIsEvidence(w) && GenerationIsMarks(w))
  }

  lemma TickIsSound(w: World, c: Clock)
    requires Sound(w) && c.sequence == |w.clocks| && Last(w).epoch <= c.epoch <= c.sequence
    ensures Sound(Tick(w, c))
  {
    var n := |w.clocks|;
    forall i | 0 <= i < n ensures w.clocks[i].epoch <= c.epoch {
      assert w.clocks[i].epoch <= w.clocks[n - 1].epoch;
    }
  }

  lemma InstalledIs(w: World, c: Clock)
    requires Sound(w) && c in w.clocks
    ensures c.epoch <= c.sequence < |w.clocks|
  {
  }

  lemma EnsureIsSound(w: World, owner: int, session: int, at: Clock)
    requires Sound(w) && at in w.clocks
    ensures Sound(Apply(w, Ensure(owner, session, at)))
  {
    InstalledIs(w, at);
  }

  lemma MarkIsSound(w: World, owner: int, session: int, at: Clock)
    requires Sound(w) && Possible(w.clocks, Mark(owner, session, at))
    ensures Sound(Apply(w, Mark(owner, session, at)))
  {
    InstalledIs(w, at);
    if Bound(w.rec, owner, session) {
      var rec := Marked(w.rec, at.sequence, at.epoch);
      assert w.rec.initialized ==> rec.covered == w.rec.covered && rec.generation == Max(w.rec.generation, at.sequence);
      assert !w.rec.initialized ==> rec.covered == at.sequence - 1 && rec.generation == at.sequence;
    }
  }

  lemma FetchIsSound(w: World, owner: int, session: int, at: Clock, now: Clock)
    requires Sound(w) && at in w.clocks && now in w.clocks
    ensures Sound(Apply(w, Fetch(owner, session, at, now)))
  {
    InstalledIs(w, at);
  }

  lemma StepKeepsSound(w: World, s: Step)
    requires Sound(w) && Possible(w.clocks, s)
    ensures Sound(Apply(w, s))
  {
    match s {
      case Number => TickIsSound(w, Ticked(Last(w), s));
      case Reconnect => TickIsSound(w, Ticked(Last(w), s));
      case Ensure(owner, session, at) => EnsureIsSound(w, owner, session, at);
      case Mark(owner, session, at) => MarkIsSound(w, owner, session, at);
      case Fetch(owner, session, at, now) => FetchIsSound(w, owner, session, at, now);
      case _ =>
    }
  }

  lemma {:induction false} RunIsSound(story: seq<Step>)
    ensures Sound(After(story))
  {
    if story != [] {
      var before, s := story[..|story| - 1], story[|story| - 1];
      RunIsSound(before);
      if Possible(After(before).clocks, s) {
        StepKeepsSound(After(before), s);
      }
    }
  }

  lemma EpochWithinSequence(story: seq<Step>)
    ensures Last(After(story)).epoch <= Last(After(story)).sequence
  {
    RunIsSound(story);
  }

  lemma StartIsInstalled(story: seq<Step>)
    ensures Clock(0, 0) in After(story).clocks
  {
    RunIsSound(story);
    assert After(story).clocks[0] == Clock(0, 0);
  }

  /** `n` is newer than everything the client of this binding was shown. */
  predicate Unseen(w: World, n: nat) {
    n > w.start && forall r :: r in w.seen ==> n > r
  }

  /** In every reachable world a bound connection is pending exactly when a number
      marked on it, or the reconnect epoch, is newer than its start and than every
      fetch acknowledged for it. */
  lemma NothingIsHidden(story: seq<Step>, epoch: nat)
    requires After(story).rec.initialized
    ensures Pending(After(story).rec, epoch)
       <==> Unseen(After(story), epoch) || exists m :: m in After(story).marks && Unseen(After(story), m)
  {
    RunIsSound(story);
    var w := After(story);
    if Pending(w.rec, epoch) && !Unseen(w, epoch) {
      assert w.rec.generation in w.marks;
    }
  }

  // ----- numbers and the order of steps -----

  /** The number of the clock current after the first `k` steps. */
  ghost function Reading(story: seq<Step>, k: nat): nat
    requires k <= |story|
  {
    Last(After(story[..k])).sequence
  }

  lemma ReadingSteps(story: seq<Step>, k: nat)
    requires k < |story|
    ensures Reading(story, k + 1) == Reading(story, k) + (if Installs(story[k]) then 1 else 0)
    ensures After(story[..k]).clocks <= After(story[..k + 1]).clocks
  {
    assert story[..k + 1][..k] == story[..k];
  }

  lemma {:induction false} ReadingGrows(story: seq<Step>, j: nat, k: nat)
    requires j <= k <= |story|
    ensures Reading(story, j) <= Reading(story, k)
    ensures After(story[..j]).clocks <= After(story[..k]).clocks
    decreases k - j
  {
    if j < k {
      ReadingGrows(story, j, k - 1);
      ReadingSteps(story, k - 1);
    }
  }

  /** Numbers are handed out strictly increasing, so no two steps take the same one. */
  lemma NumbersIncrease(story: seq<Step>, i: nat, j: nat)
    requires i < j < |story| && Installs(story[i]) && Installs(story[j])
    ensures Reading(story, i + 1) < Reading(story, j + 1)
  {
    ReadingGrows(story, i + 1, j);
    ReadingSteps(story, j);
  }

  /** A fetch that loaded the clock after `j` steps and was acknowledged at step `k`
      newly covers a number only if step `i` gave that number out before the load. */
  lemma FetchCoversOnlyOlder(story: seq<Step>, i: nat, j: nat, k: nat)
    requires i < |story| && j <= k < |story| && Installs(story[i])
    requires story[k].Fetch? && story[k].at == Last(After(story[..j]))
    requires After(story[..k]).rec.covered < Reading(story, i + 1) <= After(story[..k + 1]).rec.covered
    ensures i < j
  {
    RunIsSound(story[..j]);
    assert story[..k + 1][..k] == story[..k];
    assert After(story[..k + 1]).rec.covered <= Max(After(story[..k]).rec.covered, Reading(story, j));
    if j <= i {
      ReadingGrows(story, j, i);
      ReadingSteps(story, i);
    }
  }

  /** The fetch acknowledged at step `k` covers no number handed out after `begun` steps. */
  ghost predicate LeavesNewer(story: seq<Step>, begun: nat, k: nat) {
    && k < |story|
    && forall i :: begun <= i < |story| && Installs(story[i]) ==>
                     (After(story[..k]).rec.covered < Reading(story, i + 1)
                      ==> After(story[..k + 1]).rec.covered < Reading(story, i + 1))
  }

  lemma FetchLeavesNewer(story: seq<Step>, j: nat, begun: nat, k: nat)
    requires j <= begun <= k < |story|
    requires story[k].Fetch? && story[k].at == Last(After(story[..j]))
    ensures LeavesNewer(story, begun, k)
  {
    forall i | begun <= i < |story| && Installs(story[i]) && After(story[..k]).rec.covered < Reading(story, i + 1)
      ensures After(story[..k + 1]).rec.covered < Reading(story, i + 1)
    {
      if Reading(story, i + 1) <= After(story[..k + 1]).rec.covered {
        FetchCoversOnlyOlder(story, i, j, k);
      }
    }
  }

  /** The same, by the steps before the load and before the acknowledgement. */
  lemma FetchedLeavesNewer(story: seq<Step>, loading: seq<Step>, before: seq<Step>, s: Step, begun: nat)
    requires loading <= story && before + [s] <= story && |loading| <= begun <= |before|
    requires s.Fetch? && s.at == Last(After(loading))
    ensures |before| < |story| && story[|before|] == s && LeavesNewer(story, begun, |before|)
  {
    assert story[..|loading|] == loading;
    assert story[|before|] == (before + [s])[|before|];
    FetchLeavesNewer(story, |loading|, begun, |before|);
  }

  // ----- how often a connection is nudged -----

  /** The step reserves a push attempt. */
  predicate Claims(w: World, s: Step) {
    s.Claim? && s.at in w.clocks && Claimable(w.rec, s.owner, s.session, s.at.epoch, s.time)
  }

  /** The step gives the connection its attempts back. */
  predicate Resets(w: World, s: Step)
    requires w.clocks != []
  {
    Possible(w.clocks, s) && Apply(w, s).rec.attempts < w.rec.attempts
  }

  lemma StepAttempts(w: World, s: Step)
    requires w.clocks != [] && Possible(w.clocks, s) && w.rec.attempts <= MAX_ATTEMPTS && !Resets(w, s)
    ensures Claims(w, s) ==> Apply(w, s).rec == Claimed(w.rec, s.time, s.claim) && w.rec.attempts < MAX_ATTEMPTS
    ensures !Claims(w, s) ==> Apply(w, s).rec.attempts == w.rec.attempts
    ensures !Claims(w, s) && w.rec.attempts > 0 ==> Apply(w, s).rec.nextAttempt == w.rec.nextAttempt
  {
  }

  /** How many attempts the steps from `i` to `j` reserve. */
  ghost function ClaimsIn(story: seq<Step>, i: nat, j: nat): nat
    requires i <= j <= |story|
  {
    if i == j then 0
    else ClaimsIn(story, i, j - 1) + if Claims(After(story[..j - 1]), story[j - 1]) then 1 else 0
  }

  ghost predicate NoReset(story: seq<Step>, i: nat, j: nat)
    requires i <= j <= |story|
  {
    forall k :: i <= k < j ==> !Resets(After(story[..k]), story[k])
  }

  function Next(w: World, s: Step): World
    requires w.clocks != []
  {
    if Possible(w.clocks, s) then Apply(w, s) else w
  }

  lemma AfterNext(story: seq<Step>, k: nat)
    requires k < |story|
    ensures After(story[..k + 1]) == Next(After(story[..k]), story[k])
  {
    assert story[..k + 1][..k] == story[..k];
  }

  lemma ClaimCounts(w: World, s: Step)
    requires w.clocks != [] && w.rec.attempts <= MAX_ATTEMPTS && !Resets(w, s)
    ensures Next(w, s).rec.attempts == w.rec.attempts + if Claims(w, s) then 1 else 0
  {
    if Possible(w.clocks, s) {
      StepAttempts(w, s);
    }
  }

  /** A step that neither reserves an attempt nor gives any back leaves the delay alone. */
  lemma DelayStandsOnce(w: World, s: Step)
    requires w.clocks != [] && 0 < w.rec.attempts <= MAX_ATTEMPTS && !Resets(w, s) && !Claims(w, s)
    ensures Next(w, s).rec.attempts == w.rec.attempts && Next(w, s).rec.nextAttempt == w.rec.nextAttempt
  {
    if Possible(w.clocks, s) {
      StepAttempts(w, s);
    }
  }

  lemma {:induction false} AttemptsAreFew(story: seq<Step>)
    ensures After(story).rec.attempts <= MAX_ATTEMPTS
  {
    if story != [] {
      AttemptsAreFew(story[..|story| - 1]);
    }
  }

  /** Until it is given its attempts back, a connection gets at most three. */
  lemma {:induction false} ClaimsBetweenResets(story: seq<Step>, i: nat, j: nat)
    requires i <= j <= |story| && NoReset(story, i, j)
    ensures After(story[..j]).rec.attempts == After(story[..i]).rec.attempts + ClaimsIn(story, i, j)
    ensures ClaimsIn(story, i, j) <= MAX_ATTEMPTS
    decreases j - i
  {
    AttemptsAreFew(story[..j]);
    if i < j {
      ClaimsBetweenResets(story, i, j - 1);
      AttemptsAreFew(story[..j - 1]);
      AfterNext(story, j - 1);
      ClaimCounts(After(story[..j - 1]), story[j - 1]);
    }
  }

  lemma {:induction false} DelayStands(story: seq<Step>, i: nat, j: nat)
    requires i <= j <= |story| && NoReset(story, i, j) && ClaimsIn(story, i, j) == 0
    requires After(story[..i]).rec.attempts > 0
    ensures After(story[..j]).rec.attempts == After(story[..i]).rec.attempts
    ensures After(story[..j]).rec.nextAttempt == After(story[..i]).rec.nextAttempt
    decreases j - i
  {
    if i < j {
      DelayStands(story, i, j - 1);
      AttemptsAreFew(story[..j - 1]);
      AfterNext(story, j - 1);
      DelayStandsOnce(After(story[..j - 1]), story[j - 1]);
    }
  }

  /** The second attempt comes no sooner than 20 seconds after the first, the third no
      sooner than 40 seconds after the second. */
  lemma ClaimsAreSpaced(story: seq<Step>, i: nat, j: nat)
    requires i < j < |story| && NoReset(story, i, j) && ClaimsIn(story, i + 1, j) == 0
    requires Claims(After(story[..i]), story[i]) && Claims(After(story[..j]), story[j])
    ensures story[j].time >= story[i].time
                             + if After(story[..i]).rec.attempts == 0 then FIRST_RETRY else SECOND_RETRY
  {
    var w := After(story[..i]);
    AttemptsAreFew(story[..i]);
    AfterNext(story, i);
    StepAttempts(w, story[i]);
    DelayStands(story, i + 1, j);
  }
}
