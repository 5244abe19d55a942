/**
 The barrier queues over whole runs: they stay bounded, and no request attempt
 can release a barrier that another attempt holds.
 */
module BarrierFacts {
  import opened Transport
  import opened PushHistory

  predicate WithinCaps(s: State) {
    |s.pending| <= MAX_PENDING && |s.overflow| <= MAX_OVERFLOW
  }

  predicate DistinctIds(q: seq<Barrier>) {
    forall i, j :: 0 <= i < j < |q| ==> q[i].id != q[j].id
  }

  predicate IdsUpTo(q: seq<Barrier>, limit: nat) {
    forall i :: 0 <= i < |q| ==> 0 < q[i].id <= limit
  }

  predicate Apart(p: seq<Barrier>, q: seq<Barrier>) {
    forall i, j :: 0 <= i < |p| && 0 <= j < |q| ==> p[i].id != q[j].id
  }

  /** Every barrier has its own id, and the counter is past all of them. */
  predicate FreshIds(s: State) {
    && DistinctIds(s.pending) && DistinctIds(s.overflow) && Apart(s.pending, s.overflow)
    && IdsUpTo(s.pending, s.nextId) && IdsUpTo(s.overflow, s.nextId)
  }

  function Ids(q: seq<Barrier>): set<nat> {
    set i | 0 <= i < |q| :: q[i].id
  }

  predicate SameIds(q: seq<Barrier>, t: seq<Barrier>) {
    |t| == |q| && forall i :: 0 <= i < |q| ==> t[i].id == q[i].id
  }

  predicate Dropped(q: seq<Barrier>, t: seq<Barrier>, k: int) {
    0 <= k < |q| && SameIds(Without(q, k), t)
  }

  /** `t` holds the barriers of `q`, all but one of them, or none. */
  ghost predicate Thinned(q: seq<Barrier>, t: seq<Barrier>) {
    t == [] || SameIds(q, t) || exists k :: Dropped(q, t, k)
  }

  ghost predicate OnlyThinned(s: State, t: State) {
    t.nextId == s.nextId && Thinned(s.pending, t.pending) && Thinned(s.overflow, t.overflow)
  }

  lemma ThinnedKeeps(q: seq<Barrier>, t: seq<Barrier>, other: seq<Barrier>, limit: nat)
    requires Thinned(q, t) && DistinctIds(q) && IdsUpTo(q, limit) && Apart(q, other)
    ensures |t| <= |q| && DistinctIds(t) && IdsUpTo(t, limit) && Apart(t, other) && Apart(other, t)
  {
  }

  lemma ThinnedIds(q: seq<Barrier>, t: seq<Barrier>)
    requires Thinned(q, t)
    ensures Ids(t) <= Ids(q)
  {
    forall id | id in Ids(t) ensures id in Ids(q) {
      var i :| 0 <= i < |t| && t[i].id == id;
      if !SameIds(q, t) {
        var k :| Dropped(q, t, k);
        assert q[if i < k then i else i + 1].id == id;
      } else {
        assert q[i].id == id;
      }
    }
  }

  lemma OnlyThinnedKeeps(s: State, t: State)
    requires OnlyThinned(s, t) && FreshIds(s)
    ensures FreshIds(t)
  {
    ThinnedKeeps(s.pending, t.pending, s.overflow, s.nextId);
    ThinnedKeeps(s.overflow, t.overflow, t.pending, s.nextId);
  }

  lemma MarkThins(s: State, owner: int, key: int, pts: int)
    ensures OnlyThinned(s, ApplyMark(s, owner, key, pts).0)
  {
    var t := ApplyMark(s, owner, key, pts).0;
    if t.pending != s.pending {
      assert Dropped(s.pending, t.pending, 0);
    }
    if t.overflow != s.overflow {
      assert Dropped(s.overflow, t.overflow, 0);
    }
  }

  lemma ReadiedThins(q: seq<Barrier>, i: int)
    requires i < |q|
    ensures Thinned(q, q) && Thinned(q, Readied(q, i))
    ensures 0 <= i ==> Thinned(q, Without(Readied(q, i), i))
  {
    if 0 <= i {
      assert Dropped(q, Without(Readied(q, i), i), i);
    }
  }

  /** What an RPC result leaves of one queue, given the barrier it found there. */
  function Resolved(q: seq<Barrier>, i: int, removed: bool): seq<Barrier>
    requires i < |q|
  {
    if removed && 0 <= i then Without(Readied(q, i), i) else Readied(q, i)
  }

  lemma ResultResolves(s: State, owner: int, key: int, pts: int) returns (p: bool, q: bool)
    ensures var t := ApplyResult(s, owner, key, pts).0;
            && t.nextId == s.nextId
            && (t.pending == s.pending || t.pending == Resolved(s.pending, LastIndex(s.pending, pts), p))
            && (t.overflow == s.overflow || t.overflow == Resolved(s.overflow, LastIndex(s.overflow, pts), q))
  {
    p := pts <= s.watermark + 1;
    q := p && LastIndex(s.pending, pts) < 0;
  }

  lemma ResultThins(s: State, owner: int, key: int, pts: int)
    ensures OnlyThinned(s, ApplyResult(s, owner, key, pts).0)
  {
    var _, _ := ResultResolves(s, owner, key, pts);
    ReadiedThins(s.pending, LastIndex(s.pending, pts));
    ReadiedThins(s.overflow, LastIndex(s.overflow, pts));
  }

  lemma ClearThins(s: State, r: Reservation)
    ensures OnlyThinned(s, ApplyClear(s, r).0)
  {
    var t := ApplyClear(s, r).0;
    if |t.pending| < |s.pending| {
      assert Dropped(s.pending, t.pending, FirstWithId(s.pending, r.id));
    }
    if |t.overflow| < |s.overflow| {
      assert Dropped(s.overflow, t.overflow, FirstWithId(s.overflow, r.id));
    }
  }

  /** Apart from starting an attempt, actions only thin the queues out. */
  lemma ActionsThin(s: State, a: Action)
    requires !a.Begin?
    ensures OnlyThinned(s, Apply(s, a))
  {
    match a {
      case Push(_, _, _, _, _) =>
      case Mark(owner, key, pts) => MarkThins(s, owner, key, pts);
      case Result(owner, key, pts) => ResultThins(s, owner, key, pts);
      case SetPts(_, _) =>
      case Clear(r) => ClearThins(s, r);
      case SetOwner(_) =>
      case SetKey(_) =>
    }
  }

  lemma QueueIds(s: State)
    ensures Ids(Queue(s)) == Ids(s.pending) + Ids(s.overflow)
  {
    forall id | id in Ids(s.overflow) ensures id in Ids(Queue(s)) {
      var i :| 0 <= i < |s.overflow| && s.overflow[i].id == id;
      assert Queue(s)[|s.pending| + i].id == id;
    }
    forall id | id in Ids(s.pending) ensures id in Ids(Queue(s)) {
      var i :| 0 <= i < |s.pending| && s.pending[i].id == id;
      assert Queue(s)[i].id == id;
    }
  }

  /** No barrier comes back under an id it had before. */
  lemma IdsAreOld(s: State, a: Action, id: nat)
    requires s.nextId <= Apply(s, a).nextId
    requires id in Ids(Queue(Apply(s, a))) && id <= s.nextId
    ensures id in Ids(Queue(s))
  {
    var t := Apply(s, a);
    var i :| 0 <= i < |Queue(t)| && Queue(t)[i].id == id;
    if !a.Begin? {
      ActionsThin(s, a);
      ThinnedIds(s.pending, t.pending);
      ThinnedIds(s.overflow, t.overflow);
    }
    QueueIds(s);
    QueueIds(t);
  }

  lemma BeginKeeps(s: State, owner: int, key: int, pts: int)
    ensures WithinCaps(s) ==> WithinCaps(ApplyBegin(s, owner, key, pts).0)
    ensures FreshIds(s) && s.nextId + 1 < ID_SPACE ==>
              FreshIds(ApplyBegin(s, owner, key, pts).0)
              && ApplyBegin(s, owner, key, pts).0.nextId <= s.nextId + 1
  {
  }

  /** Neither queue ever outgrows its cap. */
  lemma {:induction false} RunKeepsCaps(n: Node, acts: seq<Action>)
    requires WithinCaps(n.st)
    ensures WithinCaps(Play(n, acts).st)
  {
    if acts != [] {
      var before, a := acts[..|acts| - 1], acts[|acts| - 1];
      RunKeepsCaps(n, before);
      var s := Play(n, before).st;
      if a.Begin? {
        BeginKeeps(s, a.owner, a.key, a.pts);
      } else {
        ActionsThin(s, a);
      }
    }
  }

  /** Ids stay distinct over every run short enough for the 64-bit counter. */
  lemma {:induction false} RunKeepsFresh(n: Node, acts: seq<Action>)
    requires FreshIds(n.st) && n.st.nextId + |acts| < ID_SPACE
    ensures FreshIds(Play(n, acts).st) && Play(n, acts).st.nextId <= n.st.nextId + |acts|
  {
    if acts != [] {
      var before, a := acts[..|acts| - 1], acts[|acts| - 1];
      RunKeepsFresh(n, before);
      var s := Play(n, before).st;
      if a.Begin? {
        BeginKeeps(s, a.owner, a.key, a.pts);
      } else {
        ActionsThin(s, a);
        OnlyThinnedKeeps(s, Apply(s, a));
      }
    }
  }

  lemma DropsOneId(q: seq<Barrier>, k: nat)
    requires k < |q| && DistinctIds(q)
    ensures Ids(Without(q, k)) == Ids(q) - {q[k].id}
  {
    var t := Without(q, k);
    forall id | id in Ids(q) - {q[k].id} ensures id in Ids(t) {
      var i :| 0 <= i < |q| && q[i].id == id;
      assert t[if i < k then i else i - 1].id == id;
    }
    forall id | id in Ids(t) ensures id in Ids(q) - {q[k].id} {
      var i :| 0 <= i < |t| && t[i].id == id;
      assert q[if i < k then i else i + 1].id == id;
    }
  }

  /** Aborting an attempt releases its own barrier and no other; an attempt that
      only deduplicated against an earlier one releases nothing. */
  lemma AbortReleasesItsOwn(s: State, r: Reservation)
    requires FreshIds(s)
    ensures var (t, done) := ApplyClear(s, r);
            && (done ==> r.owned)
            && Ids(t.pending) + Ids(t.overflow)
               == Ids(s.pending) + Ids(s.overflow) - (if done then {r.id} else {})
  {
    var (t, done) := ApplyClear(s, r);
    if done {
      if r.overflow {
        var k := FirstWithId(s.overflow, r.id);
        assert s.overflow[k].id == r.id;
        DropsOneId(s.overflow, k);
        assert r.id !in Ids(s.pending);
      } else {
        var k := FirstWithId(s.pending, r.id);
        assert s.pending[k].id == r.id;
        DropsOneId(s.pending, k);
        assert r.id !in Ids(s.overflow);
      }
    }
  }

  /** The reservation an attempt gets when it starts after the run `acts`. */
  function ReservationAfter(n: Node, acts: seq<Action>, a: Action): Reservation
    requires a.Begin?
  {
    ApplyBegin(Play(n, acts).st, a.owner, a.key, a.pts).1
  }

  lemma CounterSteps(s: State, a: Action)
    requires s.nextId + 1 < ID_SPACE
    ensures s.nextId <= Apply(s, a).nextId <= s.nextId + 1
    ensures a.Begin? && ApplyBegin(s, a.owner, a.key, a.pts).1.owned ==>
              ApplyBegin(s, a.owner, a.key, a.pts).1.id == Apply(s, a).nextId == s.nextId + 1
  {
    if !a.Begin? {
      ActionsThin(s, a);
    }
  }

  lemma CounterMoves(n: Node, q: seq<Action>)
    requires q != [] && Play(n, q[..|q| - 1]).st.nextId + 1 < ID_SPACE
    ensures var before := Play(n, q[..|q| - 1]).st.nextId;
            before <= Play(n, q).st.nextId <= before + 1
  {
    CounterSteps(Play(n, q[..|q| - 1]).st, q[|q| - 1]);
  }

  lemma {:induction false} CounterGrows(n: Node, p: seq<Action>, q: seq<Action>)
    requires p <= q && n.st.nextId + |q| < ID_SPACE
    ensures Play(n, p).st.nextId <= Play(n, q).st.nextId <= n.st.nextId + |q|
    decreases |q|
  {
    if q != [] {
      var before := q[..|q| - 1];
      if p == q {
        CounterGrows(n, before, before);
      } else {
        assert p <= before;
        CounterGrows(n, p, before);
      }
      CounterMoves(n, q);
    }
  }

  /** Of two attempts in one run, the later one owns a barrier under a higher id. */
  lemma OwnedIdsDiffer(n: Node, p: seq<Action>, a: Action, q: seq<Action>, b: Action)
    requires a.Begin? && b.Begin? && p + [a] <= q && n.st.nextId + |q| + 1 < ID_SPACE
    requires ReservationAfter(n, p, a).owned && ReservationAfter(n, q, b).owned
    ensures ReservationAfter(n, p, a).id < ReservationAfter(n, q, b).id
  {
    CounterGrows(n, p, p);
    CounterGrows(n, p + [a], q);
    assert (p + [a])[..|p|] == p;
    CounterSteps(Play(n, p).st, a);
    CounterSteps(Play(n, q).st, b);
  }
}
