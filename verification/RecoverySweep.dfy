/**
 The recovery sweep: it takes waiting connections from the queue, claims one push
 attempt for each under a bounded number of slots, and hands the push to a goroutine
 that looks again when it is done.  Meanwhile other goroutines mark, fetch, rebind
 and reconnect.  The claim is that no connection with an attempt to spend is lost.
 */
module RecoverySweep {
  import opened Common
  import opened FilterRecovery
  import opened RecoveryQueue

  const SWEEP_BATCH: nat := 64
  const MAX_SLOTS: nat := 16

  /** A connection: the owner and session it is bound to, and its recovery record. */
  datatype Link = Link(owner: int, session: int, rec: Recovery)

  const UNBOUND := Link(0, 0, Reset(0, 0))

  datatype Stage = Writing | Checking | Enqueueing | Releasing

  /** What a goroutine still has to do for a connection.  `since` is the epoch when it began. */
  datatype Job = Job(conn: nat, owner: int, session: int, claim: nat, since: nat, stage: Stage)

  /** `flights` hold a slot each, `errands` none. */
  datatype Scene = Scene(links: map<nat, Link>, flights: seq<Job>, errands: seq<Job>, epoch: nat, queue: seq<nat>)

  /** One step of a goroutine other than the sweep. */
  datatype Step =
    | Reconnect(epoch: nat)
    | Rebind(conn: nat, owner: int, session: int)
    | Ensure(conn: nat, owner: int, session: int, coverage: nat)
    | Mark(conn: nat, owner: int, session: int, generation: nat, epoch: nat)
    | Fetch(conn: nat, owner: int, session: int, captured: nat, epoch: nat)
    | Difference(conn: nat, owner: int, session: int)
    | FlightStep(index: nat, seen: nat)
    | ErrandStep(index: nat, seen: nat)

  function LinkOf(s: Scene, c: nat): Link {
    if c in s.links then s.links[c] else UNBOUND
  }

  function SetRec(s: Scene, c: nat, r: Recovery): Scene {
    s.(links := s.links[c := LinkOf(s, c).(rec := r)])
  }

  /** An attempt the sweep of epoch `e` would have to spend on the connection. */
  predicate Due(s: Scene, c: nat, e: nat) {
    var l := LinkOf(s, c);
    l.owner > 0 && AttemptPending(l.rec, l.owner, l.session, e)
  }

  /** The goroutine will put the connection back in the queue if it is still due. */
  predicate Minds(j: Job, l: Link, c: nat, e: nat) {
    && j.conn == c && j.since >= e
    && match j.stage
       case Enqueueing => true
       case Releasing => false
       case _ => j.owner == l.owner && j.session == l.session
  }

  predicate Minded(s: Scene, c: nat, e: nat) {
    || (exists i :: 0 <= i < |s.flights| && Minds(s.flights[i], LinkOf(s, c), c, e))
    || (exists i :: 0 <= i < |s.errands| && Minds(s.errands[i], LinkOf(s, c), c, e))
  }

  predicate Kept(s: Scene, c: nat, e: nat) {
    Due(s, c, e) ==> c in s.queue || Minded(s, c, e)
  }

  // ----- the steps of other goroutines -----

  function Begin(s: Scene, j: Job): Scene {
    s.(errands := s.errands + [j])
  }

  /** The next stage of a job: a flight finishes its claim, then checks, enqueues and releases. */
  function Advanced(s: Scene, j: Job, seen: nat): Stage {
    match j.stage
    case Writing => Checking
    case Checking =>
      if AttemptPending(LinkOf(s, j.conn).rec, j.owner, j.session, seen) then Enqueueing else Releasing
    case _ => Releasing
  }

  /** What the job leaves behind besides its own stage. */
  function Effect(s: Scene, j: Job): Scene {
    var r := LinkOf(s, j.conn).rec;
    match j.stage
    case Writing => if Finishes(r, j.owner, j.session, j.claim) then SetRec(s, j.conn, Finished(r)) else s
    case Enqueueing => s.(queue := Queued(s.queue, [Some(j.conn)]))
    case _ => s
  }

  predicate Possible(s: Scene, x: Step) {
    match x
    case Reconnect(epoch) => s.epoch <= epoch
    case Mark(_, _, _, generation, _) => generation > 0
    case FlightStep(i, seen) => i < |s.flights| && s.flights[i].since <= seen
    case ErrandStep(i, seen) => i < |s.errands| && s.errands[i].since <= seen
    case _ => true
  }

  function Apply(s: Scene, x: Step): Scene
    requires Possible(s, x)
  {
    match x
    case Reconnect(epoch) => s.(epoch := epoch)
    case Rebind(c, owner, session) => s.(links := s.links[c := Link(owner, session, Reset(owner, session))])
    case Ensure(c, owner, session, coverage) => SetRec(s, c, Ensured(LinkOf(s, c).rec, owner, session, coverage))
    case Mark(c, owner, session, generation, epoch) =>
      if Bound(LinkOf(s, c).rec, owner, session) then
        Begin(SetRec(s, c, Marked(LinkOf(s, c).rec, generation, epoch)), Job(c, owner, session, 0, s.epoch, Enqueueing))
      else s
    case Fetch(c, owner, session, captured, epoch) =>
      if Fetches(LinkOf(s, c).rec, owner, session) then
        Begin(SetRec(s, c, Fetched(LinkOf(s, c).rec, captured, epoch)), Job(c, owner, session, 0, s.epoch, Checking))
      else s
    case Difference(c, owner, session) =>
      if Differs(LinkOf(s, c).rec, owner, session) then
        Begin(SetRec(s, c, Differenced(LinkOf(s, c).rec)), Job(c, owner, session, 0, s.epoch, Checking))
      else s
    case FlightStep(i, seen) =>
      var j := s.flights[i];
      var t := Effect(s, j);
      if j.stage == Releasing then t.(flights := s.flights[..i] + s.flights[i + 1..])
      else t.(flights := s.flights[i := j.(stage := Advanced(s, j, seen))])
    case ErrandStep(i, seen) =>
      var j := s.errands[i];
      Effect(s, j).(errands := s.errands[i := j.(stage := Advanced(s, j, seen))])
  }

  lemma {:induction false} QueuedIs(q: seq<nat>, more: seq<Option<nat>>)
    ensures forall c :: c in q ==> c in Queued(q, more)
    ensures forall i :: 0 <= i < |more| && more[i].Some? ==> more[i].value in Queued(q, more)
  {
    var r := Queued(q, more);
    forall i | 0 <= i < |more| && more[i].Some? ensures more[i].value in r {
      assert more[i] in more && more[i].value in Members(r);
    }
  }

  /** A job's own step makes nobody due, and if it was the one minding `c` it still
      is, has just put `c` back, or has seen that `c` is not due. */
  lemma JobHandsOver(s: Scene, j: Job, seen: nat, c: nat, e: nat)
    requires j.since <= seen
    ensures Due(Effect(s, j), c, e) == Due(s, c, e)
    ensures c in s.queue ==> c in Effect(s, j).queue
    ensures Due(s, c, e) && Minds(j, LinkOf(s, c), c, e) ==>
              c in Effect(s, j).queue || Minds(j.(stage := Advanced(s, j, seen)), LinkOf(Effect(s, j), c), c, e)
  {
    QueuedIs(s.queue, [Some(j.conn)]);
  }

  lemma FlightKeeps(s: Scene, i: nat, seen: nat, c: nat, e: nat)
    requires Possible(s, FlightStep(i, seen)) && Kept(s, c, e)
    ensures Kept(Apply(s, FlightStep(i, seen)), c, e)
  {
    var t := Apply(s, FlightStep(i, seen));
    JobHandsOver(s, s.flights[i], seen, c, e);
    if Due(t, c, e) && c !in s.queue {
      if k :| 0 <= k < |s.flights| && Minds(s.flights[k], LinkOf(s, c), c, e) {
        if k < i || s.flights[i].stage != Releasing {
          assert c in t.queue || Minds(t.flights[k], LinkOf(t, c), c, e);
        } else {
          assert t.flights[k - 1] == s.flights[k];
        }
      } else {
        var k :| 0 <= k < |s.errands| && Minds(s.errands[k], LinkOf(s, c), c, e);
        assert Minds(t.errands[k], LinkOf(t, c), c, e);
      }
    }
  }

  lemma ErrandKeeps(s: Scene, i: nat, seen: nat, c: nat, e: nat)
    requires Possible(s, ErrandStep(i, seen)) && Kept(s, c, e)
    ensures Kept(Apply(s, ErrandStep(i, seen)), c, e)
  {
    var t := Apply(s, ErrandStep(i, seen));
    JobHandsOver(s, s.errands[i], seen, c, e);
    if Due(t, c, e) && c !in s.queue {
      if k :| 0 <= k < |s.flights| && Minds(s.flights[k], LinkOf(s, c), c, e) {
        assert Minds(t.flights[k], LinkOf(t, c), c, e);
      } else {
        var k :| 0 <= k < |s.errands| && Minds(s.errands[k], LinkOf(s, c), c, e);
        assert c in t.queue || Minds(t.errands[k], LinkOf(t, c), c, e);
      }
    }
  }

  /** Whatever makes a connection due leaves a goroutine behind that minds it. */
  lemma EventKeeps(s: Scene, x: Step, c: nat, e: nat)
    requires Possible(s, x) && Kept(s, c, e) && e <= s.epoch
    requires !x.FlightStep? && !x.ErrandStep?
    ensures Kept(Apply(s, x), c, e)
  {
    var t := Apply(s, x);
    assert t.queue == s.queue && t.flights == s.flights && s.errands <= t.errands;
    if Due(t, c, e) && c !in s.queue {
      if |t.errands| > |s.errands| && x.conn == c {
        assert Minds(t.errands[|s.errands|], LinkOf(t, c), c, e);
      } else {
        assert Due(s, c, e) && LinkOf(t, c).owner == LinkOf(s, c).owner && LinkOf(t, c).session == LinkOf(s, c).session;
        if k :| 0 <= k < |s.flights| && Minds(s.flights[k], LinkOf(s, c), c, e) {
          assert Minds(t.flights[k], LinkOf(t, c), c, e);
        } else {
          var k :| 0 <= k < |s.errands| && Minds(s.errands[k], LinkOf(s, c), c, e);
          assert Minds(t.errands[k], LinkOf(t, c), c, e);
        }
      }
    }
  }

  lemma StepKeeps(s: Scene, x: Step, c: nat, e: nat)
    requires Possible(s, x) && Kept(s, c, e) && e <= s.epoch
    ensures Kept(Apply(s, x), c, e) && e <= Apply(s, x).epoch
  {
    match x {
      case FlightStep(i, seen) => FlightKeeps(s, i, seen, c, e);
      case ErrandStep(i, seen) => ErrandKeeps(s, i, seen, c, e);
      case _ => EventKeeps(s, x, c, e);
    }
  }

  // ----- what the sweep holds on to -----

  /** The binding under which the sweep is dealing with a connection. */
  datatype Grip = Nothing | Grip(conn: nat, owner: int, session: int)

  /** Kept, or still bound the way the sweep found it. */
  predicate Gripped(s: Scene, g: Grip, e: nat) {
    g.Grip? ==> Kept(s, g.conn, e) || (LinkOf(s, g.conn).owner == g.owner && LinkOf(s, g.conn).session == g.session)
  }

  /** Every connection cared for is kept unless it is still in the sweep's hand. */
  predicate Safe(s: Scene, care: set<nat>, hand: seq<nat>, g: Grip, e: nat) {
    && e <= s.epoch
    && Gripped(s, g, e)
    && forall c :: c in care && c !in hand ==> Kept(s, c, e)
  }

  lemma StepKeepsSafe(s: Scene, x: Step, care: set<nat>, hand: seq<nat>, g: Grip, e: nat)
    requires Possible(s, x) && Safe(s, care, hand, g, e)
    ensures Safe(Apply(s, x), care, hand, g, e)
  {
    forall c | Kept(s, c, e) ensures Kept(Apply(s, x), c, e) {
      StepKeeps(s, x, c, e);
    }
    if g.Grip? && LinkOf(Apply(s, x), g.conn).(rec := Reset(0, 0)) != LinkOf(s, g.conn).(rec := Reset(0, 0)) {
      assert x.Rebind? && !Due(Apply(s, x), g.conn, e);
    }
  }

  function Adding(q: seq<nat>, more: seq<nat>): seq<nat> {
    Queued(q, if more == [] then [] else [Some(more[0])])
  }

  lemma EffectEnqueues(s: Scene, j: Job)
    ensures var t := Effect(s.(queue := []), j);
            && Effect(s, j) == t.(queue := Adding(s.queue, t.queue))
            && t.flights == s.flights && t.errands == s.errands
  {
  }

  /** Steps touch the queue only by adding one connection. */
  lemma StepsEnqueue(s: Scene, x: Step)
    requires Possible(s, x)
    ensures Possible(s.(queue := []), x)
    ensures var t := Apply(s.(queue := []), x);
            Apply(s, x) == t.(queue := Adding(s.queue, t.queue))
    ensures |s.flights| - 1 <= |Apply(s, x).flights| <= |s.flights|
  {
    match x {
      case FlightStep(i, seen) => EffectEnqueues(s, s.flights[i]);
      case ErrandStep(i, seen) => EffectEnqueues(s, s.errands[i]);
      case _ =>
    }
  }

  lemma MoreKept(s: Scene, t: Scene, c: nat, e: nat)
    requires Kept(s, c, e) && t.links == s.links && s.flights <= t.flights && t.errands == s.errands
    requires forall d :: d in s.queue ==> d in t.queue
    ensures Kept(t, c, e)
  {
    if Due(t, c, e) && c !in t.queue {
      if k :| 0 <= k < |s.flights| && Minds(s.flights[k], LinkOf(s, c), c, e) {
        assert t.flights[k] == s.flights[k];
      }
    }
  }

  lemma TakeIsSafe(s: Scene, care: set<nat>, taken: seq<nat>, rest: seq<nat>, e: nat)
    requires Safe(s, care, [], Nothing, e) && s.queue == taken + rest
    ensures Safe(s.(queue := rest), care, taken, Nothing, e)
  {
    forall c | c in care && c !in taken ensures Kept(s.(queue := rest), c, e) {
      assert Kept(s, c, e);
      if Due(s, c, e) && c !in s.queue {
        assert Minded(s.(queue := rest), c, e);
      }
    }
  }

  lemma EnqueueIsSafe(s: Scene, care: set<nat>, hand: seq<nat>, g: Grip, e: nat, conn: nat)
    requires Safe(s, care, hand, g, e)
    ensures Safe(s.(queue := Queued(s.queue, [Some(conn)])), care, hand, g, e)
    ensures Kept(s.(queue := Queued(s.queue, [Some(conn)])), conn, e)
  {
    var t := s.(queue := Queued(s.queue, [Some(conn)]));
    QueuedIs(s.queue, [Some(conn)]);
    assert conn in t.queue;
    forall c | Kept(s, c, e) ensures Kept(t, c, e) {
      MoreKept(s, t, c, e);
    }
  }

  lemma ClaimIsSafe(s: Scene, care: set<nat>, hand: seq<nat>, g: Grip, e: nat, now: int, claim: nat)
    requires Safe(s, care, hand, g, e) && g.Grip?
    requires Claimable(LinkOf(s, g.conn).rec, g.owner, g.session, e, now)
    ensures Safe(SetRec(s, g.conn, Claimed(LinkOf(s, g.conn).rec, now, claim)), care, hand, g, e)
  {
    var t := SetRec(s, g.conn, Claimed(LinkOf(s, g.conn).rec, now, claim));
    forall c | Kept(s, c, e) ensures Kept(t, c, e) {
      if Due(t, c, e) && c !in t.queue {
        if k :| 0 <= k < |s.flights| && Minds(s.flights[k], LinkOf(s, c), c, e) {
          assert Minds(t.flights[k], LinkOf(t, c), c, e);
        } else {
          var k :| 0 <= k < |s.errands| && Minds(s.errands[k], LinkOf(s, c), c, e);
          assert Minds(t.errands[k], LinkOf(t, c), c, e);
        }
      }
    }
  }

  lemma LaunchIsSafe(s: Scene, care: set<nat>, hand: seq<nat>, g: Grip, e: nat, claim: nat)
    requires Safe(s, care, hand, g, e) && g.Grip?
    ensures var t := s.(flights := s.flights + [Job(g.conn, g.owner, g.session, claim, s.epoch, Writing)]);
            Safe(t, care, hand, Nothing, e) && Kept(t, g.conn, e)
  {
    var j := Job(g.conn, g.owner, g.session, claim, s.epoch, Writing);
    var t := s.(flights := s.flights + [j]);
    forall c | Kept(s, c, e) ensures Kept(t, c, e) {
      MoreKept(s, t, c, e);
    }
    if Due(t, g.conn, e) && !Kept(s, g.conn, e) {
      assert Minds(t.flights[|s.flights|], LinkOf(t, g.conn), g.conn, e);
    }
  }

  /** Nothing is lost by putting down a connection that is kept. */
  lemma PutDown(s: Scene, care: set<nat>, hand: seq<nat>, i: nat, g: Grip, e: nat)
    requires i < |hand| && Safe(s, care, hand[i..], g, e) && Kept(s, hand[i], e)
    ensures Safe(s, care, hand[i + 1..], Nothing, e)
  {
    forall c | c in care && c !in hand[i + 1..] ensures Kept(s, c, e) {
      assert hand[i..] == [hand[i]] + hand[i + 1..];
    }
  }

  // ----- the sweep -----

  class Updater {
    const queue: Queue<nat>
    var links: map<nat, Link>
    var flights: seq<Job>
    var errands: seq<Job>
    var epoch: nat
    var slots: nat
    var claims: nat
    var scanEpoch: nat
    var scanRemaining: nat

    ghost function Now(): Scene
      requires queue.Valid()
      reads this, queue
    {
      Scene(links, flights, errands, epoch, queue.Contents())
    }

    /** Slots in use are those of the flights and the one the sweep may hold. */
    ghost predicate Valid(held: nat)
      reads this, queue
    {
      queue.Valid() && slots == |flights| + held <= MAX_SLOTS
    }

    constructor (links: map<nat, Link>)
      ensures Valid(0) && fresh(queue)
    {
      queue := new Queue();
      this.links, flights, errands, epoch := links, [], [], 0;
      slots, claims, scanEpoch, scanRemaining := 0, 0, 0, 0;
    }

    /** Another goroutine takes a step, if it is one it could take. */
    method Suffer(x: Step, ghost held: nat, ghost care: set<nat>, ghost hand: seq<nat>, ghost g: Grip, ghost e: nat)
      requires Valid(held) && Safe(Now(), care, hand, g, e)
      modifies this`links, this`flights, this`errands, this`epoch, this`slots, this`claims, queue
      ensures Valid(held) && Safe(Now(), care, hand, g, e)
    {
      ghost var before := Now();
      var s := Scene(links, flights, errands, epoch, []);
      if Possible(s, x) {
        StepsEnqueue(before, x);
        StepKeepsSafe(before, x, care, hand, g, e);
        var t := Apply(s, x);
        slots := slots - (|flights| - |t.flights|);
        links, flights, errands, epoch := t.links, t.flights, t.errands, t.epoch;
        queue.EnqueueBatch(if t.queue == [] then [] else [Some(t.queue[0])]);
        assert Now() == Apply(before, x);
      }
    }

    method Yield(env: Schedule<Step>, ghost held: nat, ghost care: set<nat>, ghost hand: seq<nat>, ghost g: Grip,
                 ghost e: nat)
      requires Valid(held) && Safe(Now(), care, hand, g, e)
      modifies this`links, this`flights, this`errands, this`epoch, this`slots, this`claims, queue, env
      ensures Valid(held) && Safe(Now(), care, hand, g, e)
    {
      var steps := env.Next();
      for i := 0 to |steps|
        invariant Valid(held) && Safe(Now(), care, hand, g, e)
      {
        Suffer(steps[i], held, care, hand, g, e);
      }
    }

    /** Put one connection into the queue. */
    method Enqueue(conn: nat, ghost held: nat, ghost care: set<nat>, ghost hand: seq<nat>, ghost g: Grip, ghost e: nat)
      requires Valid(held) && Safe(Now(), care, hand, g, e)
      modifies queue
      ensures Valid(held) && Safe(Now(), care, hand, g, e) && Kept(Now(), conn, e)
    {
      ghost var before := Now();
      EnqueueIsSafe(before, care, hand, g, e, conn);
      queue.Enqueue(Some(conn));
      assert Now() == before.(queue := Queued(before.queue, [Some(conn)]));
    }

    /** Put back what is left in hand, other goroutines running in between. */
    method EnqueueAll(env: Schedule<Step>, conns: seq<nat>, ghost care: set<nat>, ghost e: nat)
      requires Valid(0) && Safe(Now(), care, conns, Nothing, e)
      modifies this`links, this`flights, this`errands, this`epoch, this`slots, this`claims, queue, env
      ensures Valid(0) && Safe(Now(), care, [], Nothing, e)
    {
      assert conns[0..] == conns;
      for i := 0 to |conns|
        invariant Valid(0) && Safe(Now(), care, conns[i..], Nothing, e)
      {
        Enqueue(conns[i], 0, care, conns[i..], Nothing, e);
        PutDown(Now(), care, conns, i, Nothing, e);
        Yield(env, 0, care, conns[i + 1..], Nothing, e);
      }
      assert conns[|conns|..] == [];
    }

    /** Reserve one attempt if the connection still has one to spend. */
    method Claim(g: Grip, e: nat, now: int, ghost care: set<nat>, ghost hand: seq<nat>) returns (claim: nat, ok: bool)
      requires g.Grip? && Valid(1) && Safe(Now(), care, hand, g, e)
      modifies this`links, this`claims
      ensures Valid(1) && Safe(Now(), care, hand, g, e)
      ensures ok == Claimable(LinkOf(old(Now()), g.conn).rec, g.owner, g.session, e, now)
      ensures !ok ==> Now() == old(Now())
      ensures ok ==> claim > old(claims) &&
                     Now() == SetRec(old(Now()), g.conn, Claimed(LinkOf(old(Now()), g.conn).rec, now, claim))
    {
      ghost var before := Now();
      var l := if g.conn in links then links[g.conn] else UNBOUND;
      claim, ok := 0, Claimable(l.rec, g.owner, g.session, e, now);
      if ok {
        claims := claims + 1;
        claim := claims;
        links := links[g.conn := l.(rec := Claimed(l.rec, now, claim))];
        ClaimIsSafe(before, care, hand, g, e, now, claim);
        assert Now() == SetRec(before, g.conn, Claimed(LinkOf(before, g.conn).rec, now, claim));
      }
    }

    /** A slot was acquired for the connection: start its push, or give the slot back. */
    method Attempt(env: Schedule<Step>, now: int, ghost care: set<nat>, ghost hand: seq<nat>, g: Grip, e: nat)
      requires g.Grip? && Valid(1) && Safe(Now(), care, hand, g, e)
      modifies this`links, this`flights, this`errands, this`epoch, this`slots, this`claims, queue, env
      ensures Valid(0) && Safe(Now(), care, hand, Nothing, e) && Kept(Now(), g.conn, e)
    {
      var claim, ok := Claim(g, e, now, care, hand);
      Yield(env, 1, care, hand, g, e);
      if ok {
        LaunchIsSafe(Now(), care, hand, g, e, claim);
        flights := flights + [Job(g.conn, g.owner, g.session, claim, epoch, Writing)];
        return;
      }
      slots := slots - 1;
      Yield(env, 0, care, hand, g, e);
      var l := if g.conn in links then links[g.conn] else UNBOUND;
      if AttemptPending(l.rec, g.owner, g.session, e) {
        Yield(env, 0, care, hand, g, e);
        Enqueue(g.conn, 0, care, hand, g, e);
      }
    }

    /** One sweep.  `listed` is what the registry offers next, `total` how many it has. */
    method Sweep(env: Schedule<Step>, now: int, total: nat, listed: seq<nat>)
      returns (ghost e: nat, ghost scanned: seq<nat>)
      requires Valid(0)
      modifies this, queue, env
      ensures Valid(0)
      ensures forall c :: c in old(queue.Contents()) || c in scanned ==> Kept(Now(), c, e)
      ensures scanEpoch == e
      ensures var todo := if e == old(scanEpoch) then old(scanRemaining) else total;
              && scanned == listed[..Min(Min(SWEEP_BATCH, todo), |listed|)]
              && scanRemaining == if |scanned| < Min(SWEEP_BATCH, todo) then 0 else todo - |scanned|
    {
      var current := epoch;
      e := current;
      scanned := [];
      ghost var care := Members(queue.Contents());
      Yield(env, 0, care, [], Nothing, e);
      if current != scanEpoch {
        scanEpoch := current;
        scanRemaining := total;
      }
      if scanRemaining > 0 {
        var limit := Min(SWEEP_BATCH, scanRemaining);
        var candidates := listed[..Min(limit, |listed|)];
        care := care + Members(candidates);
        scanned := candidates;
        EnqueueAll(env, candidates, care, current);
        scanRemaining := if |candidates| < limit then 0 else scanRemaining - |candidates|;
      }
      ghost var before := Now();
      var taken := queue.Take(SWEEP_BATCH);
      TakeIsSafe(before, care, taken, queue.Contents(), e);
      assert Now() == before.(queue := queue.Contents());
      SweepTaken(env, now, taken, care, current);
    }

    method SweepTaken(env: Schedule<Step>, now: int, taken: seq<nat>, ghost care: set<nat>, e: nat)
      requires Valid(0) && Safe(Now(), care, taken, Nothing, e)
      modifies this`links, this`flights, this`errands, this`epoch, this`slots, this`claims, queue, env
      ensures Valid(0) && Safe(Now(), care, [], Nothing, e)
    {
      assert taken[0..] == taken;
      var i := 0;
      while i < |taken|
        invariant i <= |taken| && Valid(0) && Safe(Now(), care, taken[i..], Nothing, e)
      {
        var l := if taken[i] in links then links[taken[i]] else UNBOUND;
        if l.owner > 0 {
          var g := Grip(taken[i], l.owner, l.session);
          Yield(env, 0, care, taken[i..], g, e);
          if slots == MAX_SLOTS {
            EnqueueAll(env, taken[i..], care, e);
            return;
          }
          slots := slots + 1;
          Yield(env, 1, care, taken[i..], g, e);
          Attempt(env, now, care, taken[i..], g, e);
        }
        PutDown(Now(), care, taken, i, Nothing, e);
        i := i + 1;
        Yield(env, 0, care, taken[i..], Nothing, e);
      }
      assert taken[|taken|..] == [];
    }
  }
}
