/**
 When an event is accounted because its RPC result was written: what the ready
 flag of a barrier stands for, over whole runs.
 */
module ResultFacts {
  import opened Transport
  import opened PushHistory
  import opened BarrierFacts

  /** The events of the barriers that are marked ready. */
  function ReadyPts(q: seq<Barrier>): set<nat> {
    set i | 0 <= i < |q| && q[i].ready :: q[i].pts
  }

  predicate NoneReady(q: seq<Barrier>) {
    forall i :: 0 <= i < |q| ==> !q[i].ready
  }

  lemma ReadyWithout(q: seq<Barrier>, k: nat)
    requires k < |q|
    ensures ReadyPts(Without(q, k)) <= ReadyPts(q)
  {
    forall p | p in ReadyPts(Without(q, k)) ensures p in ReadyPts(q) {
      var i :| 0 <= i < |q| - 1 && Without(q, k)[i].ready && Without(q, k)[i].pts == p;
      assert Without(q, k)[i] == q[if i < k then i else i + 1];
    }
  }

  lemma ReadyReadied(q: seq<Barrier>, pts: int, removed: bool)
    ensures ReadyPts(Resolved(q, LastIndex(q, pts), removed))
         <= ReadyPts(q) + if LastIndex(q, pts) >= 0 then {pts} else {}
  {
    var i := LastIndex(q, pts);
    if i >= 0 {
      var r := Readied(q, i);
      forall p | p in ReadyPts(r) ensures p in ReadyPts(q) + {pts} {
        var k :| 0 <= k < |r| && r[k].ready && r[k].pts == p;
        assert k != i ==> r[k] == q[k];
      }
      ReadyWithout(r, i);
    }
  }

  lemma ReadyQueue(s: State)
    ensures ReadyPts(Queue(s)) == ReadyPts(s.pending) + ReadyPts(s.overflow)
  {
    forall p | p in ReadyPts(s.overflow) ensures p in ReadyPts(Queue(s)) {
      var i :| 0 <= i < |s.overflow| && s.overflow[i].ready && s.overflow[i].pts == p;
      assert Queue(s)[|s.pending| + i] == s.overflow[i];
    }
    forall p | p in ReadyPts(s.pending) ensures p in ReadyPts(Queue(s)) {
      var i :| 0 <= i < |s.pending| && s.pending[i].ready && s.pending[i].pts == p;
      assert Queue(s)[i] == s.pending[i];
    }
  }

  predicate TookEffect(s: State, a: Action) {
    a.Result? && a.pts > 0 && a.owner == s.owner && a.key == s.authKey
  }

  lemma ResultReadies(s: State, owner: int, key: int, pts: int)
    ensures var t := ApplyResult(s, owner, key, pts).0;
            && ReadyPts(t.pending) + ReadyPts(t.overflow) <=
               ReadyPts(s.pending) + ReadyPts(s.overflow)
               + if TookEffect(s, Result(owner, key, pts)) then {pts} else {}
  {
    if TookEffect(s, Result(owner, key, pts)) {
      var p, q := ResultResolves(s, owner, key, pts);
      ReadyReadied(s.pending, pts, p);
      ReadyReadied(s.overflow, pts, q);
    }
  }

  lemma MarkReadies(s: State, owner: int, key: int, pts: int)
    ensures var t := ApplyMark(s, owner, key, pts).0;
            ReadyPts(t.pending) <= ReadyPts(s.pending) && ReadyPts(t.overflow) <= ReadyPts(s.overflow)
  {
    if s.pending != [] {
      assert s.pending[1..] == Without(s.pending, 0);
      ReadyWithout(s.pending, 0);
    }
    if s.overflow != [] {
      assert s.overflow[1..] == Without(s.overflow, 0);
      ReadyWithout(s.overflow, 0);
    }
  }

  lemma ClearReadies(s: State, r: Reservation)
    ensures var t := ApplyClear(s, r).0;
            ReadyPts(t.pending) <= ReadyPts(s.pending) && ReadyPts(t.overflow) <= ReadyPts(s.overflow)
  {
    if FirstWithId(s.pending, r.id) < |s.pending| {
      ReadyWithout(s.pending, FirstWithId(s.pending, r.id));
    }
    if FirstWithId(s.overflow, r.id) < |s.overflow| {
      ReadyWithout(s.overflow, FirstWithId(s.overflow, r.id));
    }
  }

  /** Naming an unready barrier changes no ready one. */
  lemma ReadyRenamed(q: seq<Barrier>, i: nat, x: Barrier)
    requires i < |q| && !x.ready
    ensures ReadyPts(q[i := x]) <= ReadyPts(q)
  {
  }

  lemma SetPtsReadies(s: State, r: Reservation, pts: int)
    requires 0 !in ReadyPts(s.pending) && 0 !in ReadyPts(s.overflow)
    ensures var t := ApplySetPts(s, r, pts).0;
            ReadyPts(t.pending) <= ReadyPts(s.pending) && ReadyPts(t.overflow) <= ReadyPts(s.overflow)
  {
    var i, j := FirstWithId(s.pending, r.id), FirstWithId(s.overflow, r.id);
    if pts > 0 && i < |s.pending| && s.pending[i].pts == 0 {
      assert !s.pending[i].ready;
      ReadyRenamed(s.pending, i, s.pending[i].(pts := pts));
    }
    if pts > 0 && j < |s.overflow| && s.overflow[j].pts == 0 {
      assert !s.overflow[j].ready;
      ReadyRenamed(s.overflow, j, s.overflow[j].(pts := pts));
    }
  }

  lemma BeginReadies(s: State, owner: int, key: int, pts: int)
    ensures var t := ApplyBegin(s, owner, key, pts).0;
            ReadyPts(t.pending) <= ReadyPts(s.pending) && ReadyPts(t.overflow) <= ReadyPts(s.overflow)
  {
  }

  /** Only a result for its event that took effect makes a barrier ready. */
  lemma StepReadies(s: State, a: Action)
    requires 0 !in ReadyPts(Queue(s))
    ensures ReadyPts(Queue(Apply(s, a))) <= ReadyPts(Queue(s)) + if TookEffect(s, a) then {a.pts} else {}
  {
    ReadyQueue(s);
    ReadyQueue(Apply(s, a));
    match a {
      case Push(_, _, _, _, _) =>
      case Mark(owner, key, pts) => MarkReadies(s, owner, key, pts);
      case Result(owner, key, pts) => ResultReadies(s, owner, key, pts);
      case Begin(owner, key, pts) => BeginReadies(s, owner, key, pts);
      case SetPts(r, pts) => SetPtsReadies(s, r, pts);
      case Clear(r) => ClearReadies(s, r);
      case SetOwner(_) =>
      case SetKey(_) =>
    }
  }

  lemma BindingDrops(s: State, a: Action)
    ensures var t := Apply(s, a);
            t.owner != s.owner || t.authKey != s.authKey ==> Queue(t) == []
  {
  }

  /** In every run a barrier is ready only if a result for its event was written to this owner
      under this key. */
  lemma {:induction false} ReadyIsWritten(n: Node, acts: seq<Action>, pts: nat)
    requires NoneReady(Queue(n.st)) && pts in ReadyPts(Queue(Play(n, acts).st))
    ensures pts > 0 && Result(Play(n, acts).st.owner, Play(n, acts).st.authKey, pts) in acts
  {
    if acts != [] {
      var before, a := acts[..|acts| - 1], acts[|acts| - 1];
      var s := Play(n, before).st;
      if 0 in ReadyPts(Queue(s)) {
        ReadyIsWritten(n, before, 0);
        assert false;
      }
      StepReadies(s, a);
      BindingDrops(s, a);
      if pts in ReadyPts(Queue(s)) {
        ReadyIsWritten(n, before, pts);
      }
      assert acts == before + [a];
    }
  }

  // ----- the first barrier between two readings -----

  /** `y` is what became of barrier `x`. */
  predicate Became(x: Barrier, y: Barrier) {
    y.id == x.id && (x.pts > 0 ==> y.pts == x.pts) && (x.ready ==> y.ready)
  }

  /** The first barrier of one queue stays first or is gone. */
  predicate Front(q: seq<Barrier>, t: seq<Barrier>) {
    q != [] ==> (t != [] && Became(q[0], t[0])) || q[0].id !in Ids(t)
  }

  lemma WithoutFront(q: seq<Barrier>, k: nat)
    requires k < |q| && DistinctIds(q)
    ensures Front(q, Without(q, k))
  {
    if k == 0 {
      DropsOneId(q, 0);
    }
  }

  lemma ResolvedFront(q: seq<Barrier>, pts: int, removed: bool)
    requires DistinctIds(q)
    ensures Front(q, Resolved(q, LastIndex(q, pts), removed))
  {
    var i := LastIndex(q, pts);
    if i >= 0 {
      WithoutFront(Readied(q, i), i);
    }
  }

  lemma MarkFront(s: State, owner: int, key: int, pts: int)
    requires FreshIds(s)
    ensures var t := ApplyMark(s, owner, key, pts).0; Front(s.pending, t.pending) && Front(s.overflow, t.overflow)
  {
    if s.pending != [] {
      assert s.pending[1..] == Without(s.pending, 0);
      WithoutFront(s.pending, 0);
    }
    if s.overflow != [] {
      assert s.overflow[1..] == Without(s.overflow, 0);
      WithoutFront(s.overflow, 0);
    }
  }

  lemma ResultFront(s: State, owner: int, key: int, pts: int)
    requires FreshIds(s)
    ensures var t := ApplyResult(s, owner, key, pts).0; Front(s.pending, t.pending) && Front(s.overflow, t.overflow)
  {
    var p, q := ResultResolves(s, owner, key, pts);
    ResolvedFront(s.pending, pts, p);
    ResolvedFront(s.overflow, pts, q);
  }

  lemma ClearFront(s: State, r: Reservation)
    requires FreshIds(s)
    ensures var t := ApplyClear(s, r).0; Front(s.pending, t.pending) && Front(s.overflow, t.overflow)
  {
    if FirstWithId(s.pending, r.id) < |s.pending| {
      WithoutFront(s.pending, FirstWithId(s.pending, r.id));
    }
    if FirstWithId(s.overflow, r.id) < |s.overflow| {
      WithoutFront(s.overflow, FirstWithId(s.overflow, r.id));
    }
  }

  lemma FrontStays(s: State, a: Action)
    requires FreshIds(s)
    ensures Front(s.pending, Apply(s, a).pending) && Front(s.overflow, Apply(s, a).overflow)
    ensures s.pending == [] && s.overflow != [] ==> Apply(s, a).pending == []
  {
    match a {
      case Push(_, _, _, _, _) =>
      case Mark(owner, key, pts) => MarkFront(s, owner, key, pts);
      case Result(owner, key, pts) => ResultFront(s, owner, key, pts);
      case Begin(owner, key, pts) =>
      case SetPts(r, pts) =>
      case Clear(r) => ClearFront(s, r);
      case SetOwner(_) =>
      case SetKey(_) =>
    }
  }

  /** The first barrier stays first, and what it was, as long as it is there. */
  lemma FirstStays(s: State, a: Action)
    requires FreshIds(s) && s.nextId <= Apply(s, a).nextId
    requires Queue(s) != [] && Queue(s)[0].id in Ids(Queue(Apply(s, a)))
    ensures Queue(Apply(s, a)) != [] && Became(Queue(s)[0], Queue(Apply(s, a))[0])
  {
    var t := Apply(s, a);
    FrontStays(s, a);
    QueueIds(t);
    if s.pending != [] {
      assert s.pending[0].id !in Ids(s.overflow);
      StaysOut(s, a, s.pending[0].id);
    }
  }

  /** An id that one of the queues did not hold does not get there later. */
  lemma StaysOut(s: State, a: Action, id: nat)
    requires s.nextId <= Apply(s, a).nextId && id <= s.nextId && id !in Ids(s.overflow)
    ensures id !in Ids(Apply(s, a).overflow)
  {
    if !a.Begin? {
      ActionsThin(s, a);
      ThinnedIds(s.overflow, Apply(s, a).overflow);
    }
  }

  /** If a barrier is first now and first again later in a run, it was there, first, all the
      time, keeping its event and its flag. */
  lemma {:induction false} FirstThroughout(n: Node, p: seq<Action>, q: seq<Action>)
    requires FreshIds(n.st) && n.st.nextId + |q| < ID_SPACE && p <= q
    requires Queue(Play(n, p).st) != [] && Queue(Play(n, p).st)[0].id in Ids(Queue(Play(n, q).st))
    ensures Queue(Play(n, q).st) != [] && Became(Queue(Play(n, p).st)[0], Queue(Play(n, q).st)[0])
    decreases |q|
  {
    if |p| < |q| {
      var before, a := q[..|q| - 1], q[|q| - 1];
      var s := Play(n, before).st;
      RunKeepsFresh(n, before);
      CounterMoves(n, q);
      FirstWasThere(n, p, q);
      assert p <= before;
      FirstThroughout(n, p, before);
      FirstStays(s, a);
    } else {
      assert p == q;
    }
  }

  lemma FirstWasThere(n: Node, p: seq<Action>, q: seq<Action>)
    requires FreshIds(n.st) && n.st.nextId + |q| < ID_SPACE && p < q
    requires Queue(Play(n, p).st) != [] && Queue(Play(n, p).st)[0].id in Ids(Queue(Play(n, q).st))
    ensures Queue(Play(n, p).st)[0].id in Ids(Queue(Play(n, q[..|q| - 1]).st))
  {
    var before, a := q[..|q| - 1], q[|q| - 1];
    var id := Queue(Play(n, p).st)[0].id;
    RunKeepsFresh(n, p);
    assert p <= before;
    CounterGrows(n, p, before);
    CounterMoves(n, q);
    IdsAreOld(Play(n, before).st, a, id);
  }

  /** A delivery reads a first barrier for `pts` after `p`, finds the first barrier ready after
      `q`, and accounts `pts` after `r`.  If the barrier it read is still first then, a result
      for that event was written before. */
  lemma AccountedWasWritten(n: Node, p: seq<Action>, q: seq<Action>, r: seq<Action>, owner: int, pts: nat)
    requires NoneReady(Queue(n.st)) && FreshIds(n.st) && n.st.nextId + |r| < ID_SPACE && p <= q <= r
    requires pts > 0 && Pending(Play(n, p).st, owner) == (pts, true)
    requires PendingReady(Play(n, q).st, owner)
    requires Queue(Play(n, r).st) != [] && Queue(Play(n, r).st)[0].id == Queue(Play(n, p).st)[0].id
    ensures Result(Play(n, r).st.owner, Play(n, r).st.authKey, pts) in r
  {
    var s, m, t := Play(n, p).st, Play(n, q).st, Play(n, r).st;
    ThereBetween(n, p, q, r);
    FirstThroughout(n, p, q);
    FirstThroughout(n, q, r);
    assert Queue(t)[0].ready && Queue(t)[0].pts == pts;
    assert pts in ReadyPts(Queue(t));
    ReadyIsWritten(n, r, pts);
  }

  lemma {:induction false} ThereBetween(n: Node, p: seq<Action>, q: seq<Action>, r: seq<Action>)
    requires FreshIds(n.st) && n.st.nextId + |r| < ID_SPACE && p <= q <= r
    requires Queue(Play(n, p).st) != [] && Queue(Play(n, p).st)[0].id in Ids(Queue(Play(n, r).st))
    ensures Queue(Play(n, p).st)[0].id in Ids(Queue(Play(n, q).st))
    decreases |r|
  {
    if |q| < |r| {
      FirstWasThere(n, p, r);
      assert p <= r[..|r| - 1] && q <= r[..|r| - 1];
      ThereBetween(n, p, q, r[..|r| - 1]);
    } else {
      assert q == r;
    }
  }

  /** Barriers for event 5, unready, and 7, ready.  The delivery reads event 5; its attempt is
      aborted; the flag read is that of 7, whose attempt is aborted too; and event 5, of which
      no result was written, is accounted. */
  lemma FlagOfAnother(s: State, m: State, t: State)
    requires s == State(1, 7, 4, [Barrier(1, 5, false), Barrier(2, 7, true)], [], false, 2)
    requires m == Apply(s, Clear(Reservation(1, 7, 1, true, false)))
    requires t == Apply(m, Clear(Reservation(1, 7, 2, true, false)))
    ensures Pending(s, 1) == (5, true) && !PendingReady(s, 1)
    ensures PendingReady(m, 1) && Queue(t) == []
    ensures ApplyMark(t, 1, 7, 5).1 && t.watermark == 4 && ApplyMark(t, 1, 7, 5).0.watermark == 5
  {
    assert Without(s.pending, 0) == [Barrier(2, 7, true)];
    assert m.pending == [Barrier(2, 7, true)];
    assert Without(m.pending, 0) == [];
  }
}
