/**
 One notification: build a window from the lowest watermark, give every
 connection its share, then one more window for those already past it.
 */
module Fanout {
  import opened Common
  import opened Transport
  import opened PushHistory
  import opened Connection
  import opened Window
  import opened Delivery

  const MAX_DELIVERY_ROUNDS: nat := 2
  const MAX_DELIVERY_RETRIES: nat := 4

  /** What a build reads: it may fail, see a shorter log, or find messages gone. */
  datatype Snapshot = Snapshot(fails: bool, head: nat, vanished: set<nat>)

  /** The store, as the coming builds of one notification see it.  None sees past the horizon. */
  datatype Store = Store(horizon: nat, snapshots: seq<Snapshot>)

  method Build(src: Store, acct: Account, from: nat) returns (ok: bool, b: Batch, rest: Store)
    requires src.horizon <= |acct.log|
    ensures Covers(acct, from, b) && Reaches(from, b) && b.head <= src.horizon == rest.horizon
    ensures src.snapshots == [] ==> ok && rest == src && Full(acct, src.horizon, from, b)
  {
    var s := Snapshot(false, src.horizon, acct.gone);
    rest := src;
    if src.snapshots != [] {
      s, rest := src.snapshots[0], src.(snapshots := src.snapshots[1..]);
    }
    b := BuildUpdates(acct, Min(s.head, src.horizon), s.vanished * acct.gone, from);
    ok := !s.fails;
  }

  /** A window over everything up to `head`, as it stands at the end. */
  predicate Full(acct: Account, head: nat, from: nat, b: Batch) {
    Covers(acct, from, b) && Reaches(from, b) && b.head == head && forall p: nat :: p in b.pts ==> p !in acct.gone
  }

  ghost predicate Good(c: Conn, acct: Account, orderly: bool)
    reads c
  {
    c.acct == acct && c.Valid() && c.told.lawful && Tidy(acct, c.due, orderly, c.told.st)
  }

  /** The connections are distinct and stand as `view` says. */
  ghost predicate Seen(conns: seq<Conn>, acct: Account, orderly: bool, view: seq<Chronicle>)
    reads conns
  {
    && |view| == |conns|
    && (forall i, j :: 0 <= i < j < |conns| ==> conns[i] != conns[j])
    && (forall i :: 0 <= i < |conns| ==> Good(conns[i], acct, orderly) && conns[i].told == view[i])
  }

  /** Indices of connections, in order. */
  predicate Among(active: seq<nat>, n: nat) {
    Ascending(active) && forall k :: 0 <= k < |active| ==> active[k] < n
  }

  /** The story went on; under order no push of the notification crossed a barrier meanwhile,
      unless blindly, which only a keyed one does. */
  ghost predicate Moved(orderly: bool, keyed: bool, was: Chronicle, now: Chronicle) {
    && now.story.init == was.story.init && was.story.history <= now.story.history
    && (orderly ==> now.crossed == was.crossed)
    && (now.blind ==> was.blind || keyed)
  }

  ghost predicate Grown(orderly: bool, keyed: bool, was: seq<Chronicle>, now: seq<Chronicle>) {
    |was| == |now| && forall i :: 0 <= i < |was| ==> Moved(orderly, keyed, was[i], now[i])
  }

  lemma GrownAnyway(orderly: bool, keyed: bool, was: seq<Chronicle>, now: seq<Chronicle>)
    requires Grown(orderly, false, was, now)
    ensures Grown(orderly, keyed, was, now)
  {
    forall i | 0 <= i < |was| ensures Moved(orderly, keyed, was[i], now[i]) {
      assert Moved(orderly, false, was[i], now[i]);
    }
  }

  lemma GrownOn(orderly: bool, keyed: bool, was: seq<Chronicle>, mid: seq<Chronicle>, now: seq<Chronicle>)
    requires Grown(orderly, keyed, was, mid) && Grown(orderly, keyed, mid, now)
    ensures Grown(orderly, keyed, was, now)
  {
    forall i | 0 <= i < |was| ensures Moved(orderly, keyed, was[i], now[i]) {
      assert Moved(orderly, keyed, was[i], mid[i]) && Moved(orderly, keyed, mid[i], now[i]);
    }
  }

  /** Nobody else is about and every write succeeds. */
  ghost predicate Quiet(sched: Traffic, sup: Suppressed)
    reads sched
  {
    sched.rest == [] && sched.sends == [] && sup.key == 0
  }

  ghost predicate AllFree(acct: Account, view: seq<Chronicle>) {
    forall i :: 0 <= i < |view| ==> Free(acct, view[i].st)
  }

  function Mark(c: Chronicle): nat {
    c.st.watermark
  }

  // ----- one window -----

  /** What handing out one window did: idle connections did not move and, if nothing
      interfered, the served ones took exactly their share. */
  ghost predicate HandedOut(was: seq<Chronicle>, active: seq<nat>, from: nat, b: Batch,
                            now: seq<Chronicle>, shares: seq<Share>, quiet: bool)
    requires Ascending(b.pts) && Among(active, |was|)
  {
    && |now| == |was| && |shares| <= |active|
    && (forall i :: 0 <= i < |was| && i !in active[..|shares|] ==> now[i] == was[i])
    && (quiet ==> forall k :: 0 <= k < |shares| ==>
                                (now[active[k]].st, shares[k]) == QuietShare(was[active[k]].st, from, b))
  }

  lemma HandOutOne(was: seq<Chronicle>, active: seq<nat>, from: nat, b: Batch, now: seq<Chronicle>, shares: seq<Share>,
                   quiet: bool, c: Chronicle, share: Share)
    requires Ascending(b.pts) && Among(active, |was|)
    requires HandedOut(was, active, from, b, now, shares, quiet) && |shares| < |active|
    requires quiet ==> (c.st, share) == QuietShare(now[active[|shares|]].st, from, b)
    ensures HandedOut(was, active, from, b, now[active[|shares|] := c], shares + [share], quiet)
  {
    var k := |shares|;
    assert active[..k + 1] == active[..k] + [active[k]];
    assert now[active[k]] == was[active[k]];
  }

  lemma GrownOne(orderly: bool, keyed: bool, was: seq<Chronicle>, now: seq<Chronicle>, i: nat, c: Chronicle)
    requires Grown(orderly, keyed, was, now) && i < |now| && Moved(orderly, keyed, now[i], c)
    ensures Grown(orderly, keyed, was, now[i := c])
  {
    assert Moved(orderly, keyed, was[i], now[i]);
  }

  method Serve(c: Conn, acct: Account, sched: Traffic, from: nat, b: Batch, sup: Suppressed) returns (share: Share)
    requires Good(c, acct, sched.orderly) && Covers(acct, from, b)
    modifies c, sched
    ensures Good(c, acct, sched.orderly) && Moved(sched.orderly, sup.key != 0, old(c.told), c.told)
    ensures old(Quiet(sched, sup)) && Free(acct, old(c.told.st)) ==>
              Quiet(sched, sup) && (c.told.st, share) == QuietShare(old(c.told.st), from, b)
  {
    share := DeliverConn(c, sched, from, b, sup);
  }

  /** Give every active connection its share of one window; the shares touch
      disjoint connections, so their order is immaterial. */
  method Fan(conns: seq<Conn>, active: seq<nat>, acct: Account, sched: Traffic, from: nat, b: Batch, sup: Suppressed,
             ghost was: seq<Chronicle>, ghost quiet: bool)
    returns (shares: seq<Share>, ghost now: seq<Chronicle>)
    requires Seen(conns, acct, sched.orderly, was) && Among(active, |conns|) && Covers(acct, from, b)
    requires quiet ==> Quiet(sched, sup) && AllFree(acct, was)
    modifies conns, sched
    ensures Seen(conns, acct, sched.orderly, now) && Grown(sched.orderly, sup.key != 0, was, now)
    ensures |shares| == |active|
    ensures HandedOut(was, active, from, b, now, shares, quiet)
    ensures quiet ==> Quiet(sched, sup)
  {
    shares, now := [], was;
    for k := 0 to |active|
      invariant |shares| == k && Seen(conns, acct, sched.orderly, now) && Grown(sched.orderly, sup.key != 0, was, now)
      invariant HandedOut(was, active, from, b, now, shares, quiet)
      invariant quiet ==> Quiet(sched, sup)
    {
      var c := conns[active[k]];
      assert active[k] !in active[..k];
      var share := Serve(c, acct, sched, from, b, sup);
      HandOutOne(was, active, from, b, now, shares, quiet, c.told, share);
      GrownOne(sched.orderly, sup.key != 0, was, now, active[k], c.told);
      shares, now := shares + [share], now[active[k] := c.told];
    }
  }

  /** The connections to serve in a further window, and whether this one must be rebuilt. */
  method Collect(active: seq<nat>, n: nat, shares: seq<Share>) returns (ahead: seq<nat>, retry: bool)
    requires |active| == |shares| && Among(active, n)
    ensures retry == exists k :: 0 <= k < |shares| && shares[k].retry
    ensures Among(ahead, n)
    ensures forall i :: i in ahead <==> exists k :: 0 <= k < |active| && active[k] == i && shares[k].ahead
  {
    ahead, retry := [], false;
    for k := 0 to |active|
      invariant retry == exists j :: 0 <= j < k && shares[j].retry
      invariant Among(ahead, n) && (forall i :: i in ahead ==> i in active[..k])
      invariant forall i :: i in ahead <==> exists j :: 0 <= j < k && active[j] == i && shares[j].ahead
    {
      if shares[k].retry {
        retry := true;
      }
      if shares[k].ahead {
        assert forall j :: 0 <= j < |ahead| ==> ahead[j] in active[..k];
        ahead := ahead + [active[k]];
      }
    }
  }

  // ----- placing windows -----

  /** Within one batch of the head. */
  predicate Near(w: nat, head: nat) {
    head <= w + MAX_DIFF_EVENTS
  }

  predicate Extremes(marks: seq<nat>, lo: nat, hi: nat) {
    lo in marks && hi in marks && forall k :: 0 <= k < |marks| ==> lo <= marks[k] <= hi
  }

  /** Where a window starts for connections between `lo` and `hi`. */
  function Placed(round: nat, lo: nat, hi: nat, head: nat): nat {
    var tail := head - MAX_DIFF_EVENTS;
    if round == 0 then lo else if hi < tail then hi else if lo > tail then lo else tail
  }

  /** A window serves somebody; the first one serves everybody; a later one, if anybody is
      within a batch of the head, reaches the head and serves everybody who is. */
  lemma PlacedServes(marks: seq<nat>, lo: nat, hi: nat, round: nat, head: nat)
    requires Extremes(marks, lo, hi) && lo <= hi
    ensures exists k :: 0 <= k < |marks| && Placed(round, lo, hi, head) <= marks[k]
    ensures round == 0 ==> forall k :: 0 <= k < |marks| ==> Placed(round, lo, hi, head) <= marks[k]
    ensures round > 0 ==> forall k :: 0 <= k < |marks| && Near(marks[k], head) ==>
                                        && Placed(round, lo, hi, head) <= marks[k]
                                        && Near(Placed(round, lo, hi, head), head)
  {
    var k :| 0 <= k < |marks| && marks[k] == hi;
  }

  /** Read one watermark, others acting until then. */
  method Peek(c: Conn, acct: Account, sched: Traffic) returns (w: nat)
    requires Good(c, acct, sched.orderly)
    modifies c, sched`rest
    ensures Good(c, acct, sched.orderly) && Moved(sched.orderly, false, old(c.told), c.told) && w == Mark(c.told)
    ensures old(sched.rest) == [] ==> sched.rest == [] && c.told == old(c.told)
  {
    c.Enter(sched.orderly, false);
    c.Yield(sched);
    w := c.LastPushedPts();
  }

  ghost predicate MarksRead(active: seq<nat>, marks: seq<nat>, now: seq<Chronicle>)
    requires Among(active, |now|)
  {
    |marks| <= |active| && forall k :: 0 <= k < |marks| ==> marks[k] == Mark(now[active[k]])
  }

  lemma ReadOneMore(active: seq<nat>, marks: seq<nat>, now: seq<Chronicle>, c: Chronicle)
    requires Among(active, |now|) && MarksRead(active, marks, now) && |marks| < |active|
    ensures MarksRead(active, marks + [Mark(c)], now[active[|marks|] := c])
  {
    var k := |marks|;
    forall j | 0 <= j < k ensures active[j] != active[k] {
    }
  }

  /** The watermarks as they were read one after another. */
  method ReadMarks(conns: seq<Conn>, active: seq<nat>, acct: Account, sched: Traffic, ghost was: seq<Chronicle>)
    returns (marks: seq<nat>, ghost now: seq<Chronicle>)
    requires Seen(conns, acct, sched.orderly, was) && Among(active, |conns|)
    modifies conns, sched`rest
    ensures Seen(conns, acct, sched.orderly, now) && Grown(sched.orderly, false, was, now)
    ensures |marks| == |active| && MarksRead(active, marks, now)
    ensures old(sched.rest) == [] ==> sched.rest == [] && now == was
  {
    marks, now := [], was;
    for k := 0 to |active|
      invariant Seen(conns, acct, sched.orderly, now) && Grown(sched.orderly, false, was, now)
      invariant |marks| == k && MarksRead(active, marks, now)
      invariant old(sched.rest) == [] ==> sched.rest == [] && now == was
    {
      var c := conns[active[k]];
      var w := Peek(c, acct, sched);
      ReadOneMore(active, marks, now, c.told);
      GrownOne(sched.orderly, false, was, now, active[k], c.told);
      marks, now := marks + [w], now[active[k] := c.told];
    }
  }

  /** Place the window from the watermarks read. */
  method WindowStart(marks: seq<nat>, round: nat, head: nat) returns (from: nat, lo: nat, hi: nat)
    requires marks != []
    ensures Extremes(marks, lo, hi) && lo <= hi && from == Placed(round, lo, hi, head)
  {
    lo, hi := marks[0], marks[0];
    for k := 1 to |marks|
      invariant lo in marks && hi in marks && lo <= hi
      invariant forall j :: 0 <= j < k ==> lo <= marks[j] <= hi
    {
      var w := marks[k];
      lo, hi := if w < lo then w else lo, if w > hi then w else hi;
    }
    from := lo;
    if round > 0 {
      var tail := head - MAX_DIFF_EVENTS;
      from := if lo > tail then lo else tail;
      if hi < tail {
        from := hi;
      }
    }
  }

  // ----- where an undisturbed notification leaves everybody -----

  /** Something between the two renders. */
  ghost predicate Shows(acct: Account, lo: nat, hi: nat) {
    exists p: nat :: lo < p <= hi && p !in acct.gone
  }

  function WindowEnd(from: nat, head: nat): nat {
    if head > from + MAX_DIFF_EVENTS then from + MAX_DIFF_EVENTS else head
  }

  /** Where the window from `from` takes a connection at `w`. */
  ghost function Carried(acct: Account, head: nat, from: nat, w: nat): nat {
    if from <= w && Shows(acct, w, WindowEnd(from, head)) then WindowEnd(from, head) else w
  }

  /** Whether it leaves the connection to a further window. */
  ghost predicate LeftAhead(acct: Account, head: nat, from: nat, w: nat) {
    from <= w && head > from + MAX_DIFF_EVENTS && !Shows(acct, w, WindowEnd(from, head))
  }

  lemma WindowCarries(acct: Account, head: nat, from: nat, b: Batch, s: State)
    requires Full(acct, head, from, b)
    ensures QuietShare(s, from, b)
         == (s.(watermark := Carried(acct, head, from, s.watermark)),
             Share(LeftAhead(acct, head, from, s.watermark), false))
  {
    var w := s.watermark;
    var start := SearchInts(b.pts, w + 1);
    assert b.statePts == WindowEnd(from, head);
    if from <= w {
      if start < |b.pts| {
        assert b.pts[start] in b.pts;
        assert w < b.pts[start] <= b.statePts;
      } else {
        forall p: nat | w < p <= b.statePts ensures p in acct.gone {
          assert p in acct.gone || p in b.pts;
        }
      }
    }
  }

  function Marks(view: seq<Chronicle>): (m: seq<nat>)
    ensures |m| == |view| && forall i :: 0 <= i < |m| ==> m[i] == Mark(view[i])
  {
    seq(|view|, i requires 0 <= i < |view| => Mark(view[i]))
  }

  datatype Outcome = Halt | Rebuild | Advance(ahead: seq<nat>)

  /** What a pass with nothing in its way does to the watermarks. */
  ghost predicate Swept(acct: Account, head: nat, m: seq<nat>, active: seq<nat>, from: nat, n: seq<nat>,
                        next: Outcome) {
    && |n| == |m|
    && (forall i :: 0 <= i < |m| ==> n[i] == if i in active then Carried(acct, head, from, m[i]) else m[i])
    && match next
       case Halt => head <= from + MAX_DIFF_EVENTS
       case Rebuild => false
       case Advance(ahead) => forall i :: 0 <= i < |m| ==>
                                            (i in ahead <==> i in active && LeftAhead(acct, head, from, m[i]))
  }

  lemma HandedOutSweeps(acct: Account, head: nat, was: seq<Chronicle>, active: seq<nat>, from: nat, b: Batch,
                        now: seq<Chronicle>, shares: seq<Share>, ahead: seq<nat>)
    requires Full(acct, head, from, b) && Among(active, |was|) && |shares| == |active|
    requires HandedOut(was, active, from, b, now, shares, true) && AllFree(acct, was)
    requires forall i :: i in ahead <==> exists k :: 0 <= k < |active| && active[k] == i && shares[k].ahead
    ensures Swept(acct, head, Marks(was), active, from, Marks(now), Advance(ahead)) && AllFree(acct, now)
    ensures forall k :: 0 <= k < |shares| ==> !shares[k].retry
  {
    assert active[..|shares|] == active;
    forall k | 0 <= k < |active|
      ensures now[active[k]].st == was[active[k]].st.(watermark := Carried(acct, head, from, Mark(was[active[k]])))
      ensures shares[k] == Share(LeftAhead(acct, head, from, Mark(was[active[k]])), false)
    {
      WindowCarries(acct, head, from, b, was[active[k]].st);
    }
    forall i | 0 <= i < |was|
      ensures Marks(now)[i] == if i in active then Carried(acct, head, from, Marks(was)[i]) else Marks(was)[i]
      ensures Free(acct, now[i].st)
    {
      assert Free(acct, was[i].st);
      if i in active {
        var k :| 0 <= k < |active| && active[k] == i;
      }
    }
  }

  /** An empty window that reaches the head moves nobody. */
  lemma EmptySweeps(acct: Account, head: nat, was: seq<Chronicle>, active: seq<nat>, from: nat, b: Batch)
    requires Full(acct, head, from, b) && b.ups == [] && !b.more
    ensures Swept(acct, head, Marks(was), active, from, Marks(was), Halt)
  {
    forall w: nat | from <= w ensures !Shows(acct, w, WindowEnd(from, head)) {
      forall p: nat | w < p <= head ensures p in acct.gone {
        assert p in acct.gone || p in b.pts;
      }
    }
  }

  /** Hand a built window out and decide how to go on. */
  method HandOut(conns: seq<Conn>, active: seq<nat>, acct: Account, sched: Traffic, sup: Suppressed, from: nat,
                 b: Batch, ghost was: seq<Chronicle>, ghost head: nat, ghost quiet: bool)
    returns (next: Outcome, ghost now: seq<Chronicle>)
    requires Seen(conns, acct, sched.orderly, was) && Among(active, |conns|) && Covers(acct, from, b)
    requires quiet ==> Quiet(sched, sup) && AllFree(acct, was) && Full(acct, head, from, b)
    modifies conns, sched
    ensures Seen(conns, acct, sched.orderly, now) && Grown(sched.orderly, sup.key != 0, was, now)
    ensures next.Advance? ==> Among(next.ahead, |conns|)
    ensures quiet ==>
              Quiet(sched, sup) && AllFree(acct, now) && Swept(acct, head, Marks(was), active, from, Marks(now), next)
  {
    next, now := Halt, was;
    if b.ups == [] && !b.more {
      if quiet {
        EmptySweeps(acct, head, was, active, from, b);
      }
      return;
    }
    var shares;
    shares, now := Fan(conns, active, acct, sched, from, b, sup, was, quiet);
    var ahead, retry := Collect(active, |conns|, shares);
    next := if retry then Rebuild else Advance(ahead);
    if quiet {
      HandedOutSweeps(acct, head, was, active, from, b, now, shares, ahead);
    }
  }

  predicate Lowest(m: seq<nat>, w: nat) {
    w in m && forall i :: 0 <= i < |m| ==> w <= m[i]
  }

  /** The connections left ahead by the window from `first` lie between `lo` and `hi`. */
  ghost predicate Spread(acct: Account, head: nat, m: seq<nat>, first: nat, lo: nat, hi: nat) {
    && (exists i :: 0 <= i < |m| && m[i] == lo && LeftAhead(acct, head, first, m[i]))
    && (exists i :: 0 <= i < |m| && m[i] == hi && LeftAhead(acct, head, first, m[i]))
    && (forall i :: 0 <= i < |m| && LeftAhead(acct, head, first, m[i]) ==> lo <= m[i] <= hi)
  }

  /** The two windows of an undisturbed notification: from the lowest watermark, then, if
      anybody is left ahead, where those are best served. */
  ghost predicate Windows(acct: Account, head: nat, m: seq<nat>, first: nat, second: nat) {
    && Lowest(m, first)
    && ((forall i :: 0 <= i < |m| ==> !LeftAhead(acct, head, first, m[i]))
        || exists lo, hi :: Spread(acct, head, m, first, lo, hi) && second == Placed(1, lo, hi, head))
  }

  /** Where they leave a connection that stood at `w`. */
  ghost function EndPoint(acct: Account, head: nat, first: nat, second: nat, w: nat): nat {
    Carried(acct, head, if LeftAhead(acct, head, first, w) then second else first, w)
  }

  ghost predicate Ended(acct: Account, head: nat, m: seq<nat>, first: nat, second: nat, n: seq<nat>) {
    && |n| == |m| && Windows(acct, head, m, first, second)
    && forall i :: 0 <= i < |m| ==> n[i] == EndPoint(acct, head, first, second, m[i])
  }

  /** At the head, unless nothing above renders. */
  ghost function CatchUp(acct: Account, head: nat, w: nat): nat {
    if Shows(acct, w, head) then head else w
  }

  /** Everybody within a batch of the head catches up, if the first window reaches the
      head or leaves them ahead. */
  lemma NearCatchUp(acct: Account, head: nat, m: seq<nat>, first: nat, second: nat, n: seq<nat>, i: nat)
    requires Ended(acct, head, m, first, second, n) && i < |m| && Near(m[i], head)
    requires Near(first, head) || LeftAhead(acct, head, first, m[i])
    ensures n[i] == CatchUp(acct, head, m[i])
  {
    if LeftAhead(acct, head, first, m[i]) {
      var lo, hi :| Spread(acct, head, m, first, lo, hi) && second == Placed(1, lo, hi, head);
      assert lo <= m[i] <= hi && second <= m[i] && Near(second, head);
    }
  }

  predicate Everybody(active: seq<nat>, n: nat) {
    |active| == n && forall i :: 0 <= i < n ==> active[i] == i
  }

  /** How far an undisturbed notification is at the start of a round. */
  ghost predicate OnCourse(acct: Account, head: nat, m: seq<nat>, round: nat, first: nat, second: nat,
                           active: seq<nat>, n: seq<nat>) {
    match round
    case 0 => n == m && Everybody(active, |m|)
    case 1 => Lowest(m, first) && Swept(acct, head, m, seq(|m|, i => i), first, n, Advance(active))
    case _ => Ended(acct, head, m, first, second, n)
  }

  /** How an undisturbed pass may end. */
  ghost predicate Onward(acct: Account, head: nat, m: seq<nat>, round: nat, first: nat, second: nat,
                         n: seq<nat>, next: Outcome) {
    match next
    case Halt => Ended(acct, head, m, first, second, n)
    case Rebuild => false
    case Advance(ahead) => OnCourse(acct, head, m, round + 1, first, second, ahead, n)
  }

  /** A first pass leaves everybody where its window takes them. */
  lemma FirstPass(acct: Account, head: nat, m: seq<nat>, active: seq<nat>, from: nat, second: nat, n: seq<nat>,
                  next: Outcome)
    requires Everybody(active, |m|) && Lowest(m, from) && Swept(acct, head, m, active, from, n, next)
    ensures Onward(acct, head, m, 0, from, second, n, next)
  {
    assert active == seq(|m|, i => i);
    forall i | 0 <= i < |m| ensures i in active {
      assert active[i] == i;
    }
  }

  lemma LeftAheadStays(acct: Account, head: nat, m: seq<nat>, first: nat, active: seq<nat>, mid: seq<nat>, i: nat)
    requires OnCourse(acct, head, m, 1, first, 0, active, mid) && i < |m|
    ensures i in active <==> LeftAhead(acct, head, first, m[i])
    ensures mid[i] == Carried(acct, head, first, m[i])
    ensures i in active ==> mid[i] == m[i]
  {
    assert seq(|m|, i => i)[i] == i;
  }

  /** What is read of those left ahead spans them. */
  lemma ReadSpread(acct: Account, head: nat, m: seq<nat>, first: nat, active: seq<nat>, mid: seq<nat>, marks: seq<nat>,
                   lo: nat, hi: nat)
    requires OnCourse(acct, head, m, 1, first, 0, active, mid) && Among(active, |m|)
    requires |marks| == |active| && (forall k :: 0 <= k < |marks| ==> marks[k] == mid[active[k]])
    requires Extremes(marks, lo, hi)
    ensures Spread(acct, head, m, first, lo, hi)
  {
    forall k | 0 <= k < |marks| ensures marks[k] == m[active[k]] && LeftAhead(acct, head, first, m[active[k]]) {
      LeftAheadStays(acct, head, m, first, active, mid, active[k]);
    }
    forall i | 0 <= i < |m| && LeftAhead(acct, head, first, m[i]) ensures lo <= m[i] <= hi {
      LeftAheadStays(acct, head, m, first, active, mid, i);
      var k :| 0 <= k < |active| && active[k] == i;
      assert lo <= marks[k] <= hi;
    }
    var k :| 0 <= k < |marks| && marks[k] == lo;
    var l :| 0 <= l < |marks| && marks[l] == hi;
    assert m[active[k]] == lo && m[active[l]] == hi;
  }

  /** A second pass takes those left ahead to their end points. */
  lemma SecondPass(acct: Account, head: nat, m: seq<nat>, first: nat, active: seq<nat>, mid: seq<nat>, lo: nat, hi: nat,
                   n: seq<nat>, next: Outcome)
    requires OnCourse(acct, head, m, 1, first, 0, active, mid) && Lowest(m, first)
    requires Spread(acct, head, m, first, lo, hi) && Swept(acct, head, mid, active, Placed(1, lo, hi, head), n, next)
    ensures Onward(acct, head, m, 1, first, Placed(1, lo, hi, head), n, next)
  {
    var second := Placed(1, lo, hi, head);
    forall i | 0 <= i < |m| ensures n[i] == EndPoint(acct, head, first, second, m[i]) {
      LeftAheadStays(acct, head, m, first, active, mid, i);
    }
    assert Windows(acct, head, m, first, second);
  }

  lemma NobodyAhead(acct: Account, head: nat, m: seq<nat>, first: nat, second: nat, n: seq<nat>)
    requires OnCourse(acct, head, m, 1, first, 0, [], n)
    ensures Ended(acct, head, m, first, second, n)
  {
    forall i | 0 <= i < |m|
      ensures !LeftAhead(acct, head, first, m[i]) && n[i] == EndPoint(acct, head, first, second, m[i])
    {
      LeftAheadStays(acct, head, m, first, [], n, i);
    }
  }

  /** An undisturbed pass stays on course. */
  lemma StaysOnCourse(acct: Account, head: nat, m: seq<nat>, round: nat, first: nat, active: seq<nat>, mid: seq<nat>,
                      marks: seq<nat>, lo: nat, hi: nat, from: nat, n: seq<nat>, next: Outcome)
    requires round < MAX_DELIVERY_ROUNDS && Among(active, |m|)
    requires OnCourse(acct, head, m, round, first, 0, active, mid)
    requires |marks| == |active| && |mid| == |m| && (forall k :: 0 <= k < |marks| ==> marks[k] == mid[active[k]])
    requires Extremes(marks, lo, hi) && from == Placed(round, lo, hi, head)
    requires Swept(acct, head, mid, active, from, n, next)
    ensures if round == 0 then Onward(acct, head, m, 0, from, 0, n, next)
            else Onward(acct, head, m, 1, first, from, n, next)
  {
    if round == 0 {
      assert marks == m;
      FirstPass(acct, head, m, active, from, 0, n, next);
    } else {
      ReadSpread(acct, head, m, first, active, mid, marks, lo, hi);
      SecondPass(acct, head, m, first, active, mid, lo, hi, n, next);
    }
  }

  /** A window start with the watermarks it was placed by. */
  datatype Placing = Placing(marks: seq<nat>, lo: nat, hi: nat, from: nat)

  ghost predicate PlacedFor(p: Placing, active: seq<nat>, round: nat, head: nat, now: seq<Chronicle>)
    requires Among(active, |now|)
  {
    && |p.marks| == |active| && MarksRead(active, p.marks, now)
    && Extremes(p.marks, p.lo, p.hi) && p.lo <= p.hi && p.from == Placed(round, p.lo, p.hi, head)
  }

  /** Read the watermarks, place a window and build it. */
  method Place(conns: seq<Conn>, active: seq<nat>, acct: Account, sched: Traffic, src: Store, round: nat, head: nat,
               ghost was: seq<Chronicle>)
    returns (ok: bool, b: Batch, rest: Store, placing: Placing, ghost now: seq<Chronicle>)
    requires Seen(conns, acct, sched.orderly, was) && Among(active, |conns|) && active != []
    requires src.horizon <= |acct.log|
    modifies conns, sched`rest
    ensures Seen(conns, acct, sched.orderly, now) && Grown(sched.orderly, false, was, now)
    ensures PlacedFor(placing, active, round, head, now)
    ensures Covers(acct, placing.from, b) && rest.horizon == src.horizon
    ensures old(sched.rest) == [] ==> sched.rest == [] && now == was
    ensures src.snapshots == [] ==> ok && rest == src && Full(acct, src.horizon, placing.from, b)
  {
    var marks;
    marks, now := ReadMarks(conns, active, acct, sched, was);
    var from, lo, hi := WindowStart(marks, round, head);
    placing := Placing(marks, lo, hi, from);
    ok, b, rest := Build(src, acct, from);
  }

  lemma PlacedOnCourse(acct: Account, horizon: nat, m: seq<nat>, round: nat, head: nat, first: nat, active: seq<nat>,
                       mid: seq<Chronicle>, p: Placing, now: seq<Chronicle>, next: Outcome)
    requires round < MAX_DELIVERY_ROUNDS && Among(active, |mid|) && |m| == |mid|
    requires OnCourse(acct, horizon, m, round, first, 0, active, Marks(mid)) && (round > 0 ==> head == horizon)
    requires PlacedFor(p, active, round, head, mid)
    requires Swept(acct, horizon, Marks(mid), active, p.from, Marks(now), next)
    ensures if round == 0 then Onward(acct, horizon, m, 0, p.from, 0, Marks(now), next)
            else Onward(acct, horizon, m, 1, first, p.from, Marks(now), next)
  {
    assert p.from == Placed(round, p.lo, p.hi, horizon);
    StaysOnCourse(acct, horizon, m, round, first, active, Marks(mid), p.marks, p.lo, p.hi, p.from, Marks(now), next);
  }

  /** One pass: place a window, build it, hand it out. */
  method Pass(conns: seq<Conn>, active: seq<nat>, acct: Account, sched: Traffic, src: Store, sup: Suppressed,
              round: nat, head: nat, ghost m: seq<nat>, ghost mid: seq<Chronicle>, ghost first: nat, ghost quiet: bool)
    returns (next: Outcome, head': nat, rest: Store, ghost now: seq<Chronicle>, ghost from: nat)
    requires Seen(conns, acct, sched.orderly, mid) && Among(active, |conns|) && active != []
    requires src.horizon <= |acct.log|
    requires round < MAX_DELIVERY_ROUNDS && |m| == |conns|
    requires quiet ==> Quiet(sched, sup) && src.snapshots == [] && AllFree(acct, mid)
    requires quiet ==> OnCourse(acct, src.horizon, m, round, first, 0, active, Marks(mid))
    requires quiet && round > 0 ==> head == src.horizon
    modifies conns, sched
    ensures Seen(conns, acct, sched.orderly, now) && Grown(sched.orderly, sup.key != 0, mid, now)
    ensures rest.horizon == src.horizon
    ensures next.Advance? ==> Among(next.ahead, |conns|)
    ensures quiet ==> Quiet(sched, sup) && rest == src && AllFree(acct, now) && head' == src.horizon
    ensures quiet ==>
              if round == 0 then Onward(acct, src.horizon, m, 0, from, 0, Marks(now), next)
              else Onward(acct, src.horizon, m, 1, first, from, Marks(now), next)
  {
    var ok, b, p;
    ghost var seen;
    ok, b, rest, p, seen := Place(conns, active, acct, sched, src, round, head, mid);
    next, head', now, from := Halt, b.head, seen, p.from;
    GrownAnyway(sched.orderly, sup.key != 0, mid, seen);
    if ok {
      next, now := HandOut(conns, active, acct, sched, sup, p.from, b, seen, src.horizon, quiet);
      GrownOn(sched.orderly, sup.key != 0, mid, seen, now);
      if quiet {
        PlacedOnCourse(acct, src.horizon, m, round, head, first, active, mid, p, now, next);
      }
    }
  }

  /** The whole notification.  Whatever happens meanwhile, it costs a bounded number of
      builds, every connection moves only by lawful actions and, under order, no push but
      a blind one crosses a barrier; undisturbed, everybody ends exactly where the two windows lead. */
  method Deliver(conns: seq<Conn>, acct: Account, sched: Traffic, src: Store, sup: Suppressed,
                 ghost was: seq<Chronicle>)
    returns (builds: nat, ghost now: seq<Chronicle>, ghost first: nat, ghost second: nat)
    requires Seen(conns, acct, sched.orderly, was)
    requires src.horizon <= |acct.log|
    modifies conns, sched
    ensures builds <= MAX_DELIVERY_ROUNDS * (MAX_DELIVERY_RETRIES + 1)
    ensures Seen(conns, acct, sched.orderly, now) && Grown(sched.orderly, sup.key != 0, was, now)
    ensures old(Quiet(sched, sup)) && src.snapshots == [] && AllFree(acct, was) && was != [] ==>
              Ended(acct, src.horizon, Marks(was), first, second, Marks(now))
  {
    ghost var m, quiet := Marks(was), Quiet(sched, sup) && src.snapshots == [] && AllFree(acct, was);
    builds, now, first, second := 0, was, 0, 0;
    var head, retries, round, rest := 0, 0, 0, src;
    var active: seq<nat> := seq(|conns|, i => i);
    while round < MAX_DELIVERY_ROUNDS && active != []
      invariant Seen(conns, acct, sched.orderly, now) && Grown(sched.orderly, sup.key != 0, was, now)
      invariant Among(active, |conns|)
      invariant round <= MAX_DELIVERY_ROUNDS && retries <= MAX_DELIVERY_RETRIES && rest.horizon == src.horizon
      invariant builds <= if round == 0 then retries else if round == 1 then MAX_DELIVERY_RETRIES + 1 + retries else 10
      invariant quiet ==> Quiet(sched, sup) && rest == src && AllFree(acct, now)
      invariant quiet ==> OnCourse(acct, src.horizon, m, round, first, second, active, Marks(now))
      invariant quiet ==> (round > 0 ==> head == src.horizon) && (round < 2 ==> second == 0)
      decreases MAX_DELIVERY_ROUNDS - round, MAX_DELIVERY_RETRIES + 1 - retries
    {
      var next;
      ghost var mid, from := now, 0;
      next, head, rest, now, from := Pass(conns, active, acct, sched, rest, sup, round, head, m, mid, first, quiet);
      GrownOn(sched.orderly, sup.key != 0, was, mid, now);
      if round == 0 {
        first := from;
      } else {
        second := from;
      }
      builds := builds + 1;
      match next {
        case Halt =>
          return;
        case Rebuild =>
          retries := retries + 1;
          if retries > MAX_DELIVERY_RETRIES {
            return;
          }
        case Advance(ahead) =>
          retries, active, round := 0, ahead, round + 1;
      }
    }
    if quiet && round == 1 {
      NobodyAhead(acct, src.horizon, m, first, second, Marks(now));
    }
  }
}
