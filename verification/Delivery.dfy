/**
 One connection's share of a delivery window: release the result barriers that
 can be released, push what is not held back, and leave the rest.  Between any
 two critical sections other goroutines may act on the connection.
 */
module Delivery {
  import opened Common
  import opened Transport
  import opened PushHistory
  import opened BarrierFacts
  import opened Connection
  import opened Window

  /** The keyed notification's identity of the event its sender already received. */
  datatype Suppressed = Suppressed(key: int, pts: int)

  datatype Verdict = Again | Done | Stale

  /** What a connection's share of a window leaves: a further window to serve it, or a rebuild. */
  datatype Share = Share(ahead: bool, retry: bool)

  function Gap(b: Batch, wm: nat): nat {
    if b.statePts > wm then b.statePts - wm else 0
  }

  /** A delivery of the window from `from` believes `conn` stands at `wm` or beyond. */
  ghost predicate At(conn: Conn, from: nat, wm: nat)
    reads conn
  {
    && conn.In()
    && (conn.owner == conn.acct.owner ==> from <= wm <= conn.watermark)
  }

  /** `b` is the window, from `from`, that the delivery works through. */
  ghost predicate Fits(conn: Conn, sched: Traffic, from: nat, b: Batch)
    reads conn
  {
    Covers(conn.acct, from, b) && sched.orderly == conn.ctx.orderly
  }

  /** A first barrier with a known event is for a message that renders. */
  predicate FirstRenders(acct: Account, pts: int, pending: bool) {
    pending && 0 < pts <= |acct.log| ==> pts !in acct.gone && IsRPCResult(acct.log[pts - 1])
  }

  /** What the delivery read of the first barrier: where none was pending, or a known one was
      first, that is the floor of the last look. */
  ghost predicate Read(conn: Conn, b: Batch, pts: int, pending: bool)
    reads conn
  {
    && 0 <= pts
    && (!pending ==> conn.look.floor == b.statePts + 1)
    && (pending && pts > 0 ==> conn.look.floor == pts)
    && (conn.ctx.orderly ==> FirstRenders(conn.acct, pts, pending))
  }

  /** In order, a known first barrier is for the lowest event. */
  lemma HeadIsLowest(acct: Account, due: Promise, s: State)
    requires Disciplined(acct, due, s) && Queue(s) != [] && Queue(s)[0].pts > 0
    ensures forall id :: id in Ids(Queue(s)) && Due(due, id) > 0 ==> Queue(s)[0].pts <= Due(due, id)
  {
    var q := Queue(s);
    assert Kept(acct, due, q[0]);
    forall id | id in Ids(q) && Due(due, id) > 0 ensures q[0].pts <= Due(due, id) {
      var i :| 0 <= i < |q| && q[i].id == id;
    }
  }

  lemma PendingIsHead(s: State, owner: int)
    requires s.owner == owner
    ensures if Queue(s) == [] then Pending(s, owner) == (0, s.saturated)
            else Pending(s, owner) == (Queue(s)[0].pts, true)
  {
  }

  /** Accounting releases the first barrier or none. */
  lemma MarkTakesHead(s: State, owner: int, key: int, pts: int)
    ensures ApplyMark(s, owner, key, pts).0.saturated == s.saturated
    ensures ApplyMark(s, owner, key, pts).0.nextId == s.nextId
    ensures var (t, ok) := ApplyMark(s, owner, key, pts);
            if ok && Queue(s) != [] && Queue(s)[0].pts == pts then Queue(t) == Queue(s)[1..] else Queue(t) == Queue(s)
    ensures ApplyMark(s, owner, key, pts).1 && Queue(s) != [] ==> Queue(s)[0].pts > 0
  {
    var t := ApplyMark(s, owner, key, pts).0;
    if s.pending != [] {
      assert Queue(s)[1..] == s.pending[1..] + s.overflow;
    } else {
      assert Queue(s) == s.overflow && Queue(t) == t.overflow;
    }
  }

  lemma TailKeepsOrder(acct: Account, due: Promise, s: State, t: State)
    requires Disciplined(acct, due, s) && t.nextId == s.nextId
    requires Queue(t) == Queue(s) || (Queue(s) != [] && Queue(t) == Queue(s)[1..])
    ensures Disciplined(acct, due, t)
  {
  }

  /** Releasing a barrier leaves the others in order. */
  lemma MarkKeepsOrder(acct: Account, due: Promise, s: State, owner: int, key: int, pts: int)
    requires Disciplined(acct, due, s)
    ensures Disciplined(acct, due, ApplyMark(s, owner, key, pts).0)
  {
    MarkTakesHead(s, owner, key, pts);
    TailKeepsOrder(acct, due, s, ApplyMark(s, owner, key, pts).0);
  }

  /** The look that a reading of the first barrier is. */
  function LookOf(s: State, owner: int, look: Look, limit: nat): Look {
    var (pts, pending) := Pending(s, owner);
    if !pending then Look(limit + 1, s.nextId, s.authKey)
    else if pts > 0 then Look(pts, s.nextId, s.authKey)
    else look
  }

  lemma PendingIsLook(acct: Account, due: Promise, ctx: Context, look: Look, s: State, limit: nat)
    requires Holds(acct, due, ctx, look, s)
    ensures Holds(acct, due, ctx, LookOf(s, acct.owner, look, limit), s)
    ensures ctx.orderly ==> FirstRenders(acct, Pending(s, acct.owner).0, Pending(s, acct.owner).1)
  {
    if ctx.orderly && s.owner == acct.owner {
      PendingIsHead(s, acct.owner);
      if Queue(s) != [] && Queue(s)[0].pts > 0 {
        assert Kept(acct, due, Queue(s)[0]);
        HeadIsLowest(acct, due, s);
      }
    }
  }

  /** Note what the first barrier shows at this moment. */
  ghost method LookNow(conn: Conn, limit: nat)
    requires conn.In()
    modifies conn`look
    ensures conn.In() && conn.look == LookOf(conn.told.st, conn.acct.owner, old(conn.look), limit)
    ensures var (pts, pending) := Pending(conn.told.st, conn.acct.owner);
            conn.ctx.orderly ==> FirstRenders(conn.acct, pts, pending)
  {
    PendingIsLook(conn.acct, conn.due, conn.ctx, conn.look, conn.told.st, limit);
    conn.See(LookOf(conn.told.st, conn.acct.owner, conn.look, limit));
  }

  /** Read the first barrier.  Under order the barriers registered so far start there. */
  method ReadFirst(conn: Conn, sched: Traffic, from: nat, b: Batch, wm: nat) returns (pts: int, pending: bool)
    requires At(conn, from, wm) && Fits(conn, sched, from, b)
    modifies conn, sched`rest
    ensures At(conn, from, wm) && conn.ctx == old(conn.ctx)
    ensures Read(conn, b, pts, pending)
    ensures |sched.rest| <= |old(sched.rest)|
    ensures old(sched.rest) == [] ==>
              conn.told.st == old(conn.told.st) && (pts, pending) == Pending(conn.told.st, conn.acct.owner)
  {
    conn.Yield(sched);
    pts, pending := conn.PendingRPCUpdate(conn.acct.owner);
    LookNow(conn, b.statePts);
  }

  /** Read the first barrier and whether its result reached the wire. */
  method ReadPending(conn: Conn, sched: Traffic, from: nat, b: Batch, wm: nat)
    returns (pts: int, pending: bool, ready: bool)
    requires At(conn, from, wm) && Fits(conn, sched, from, b)
    modifies conn, sched`rest
    ensures At(conn, from, wm) && conn.ctx == old(conn.ctx)
    ensures Read(conn, b, pts, pending)
    ensures |sched.rest| <= |old(sched.rest)|
    ensures old(sched.rest) == [] ==>
              conn.told.st == old(conn.told.st) && (pts, pending) == Pending(conn.told.st, conn.acct.owner)
    ensures old(sched.rest) == [] && pending ==> ready == PendingReady(conn.told.st, conn.acct.owner)
  {
    pts, pending := ReadFirst(conn, sched, from, b, wm);
    ready := true;
    if pending {
      conn.Yield(sched);
      ready := conn.PendingRPCUpdateReady(conn.acct.owner);
    }
  }

  /** A slice of the window, from where the connection stands, is one a delivery may push. */
  lemma SlicePermitted(acct: Account, due: Promise, ctx: Context, look: Look, s: State, from: nat, b: Batch, wm: nat,
                       start: nat, end: nat, hi: nat, wire: Wire)
    requires Covers(acct, from, b) && from <= wm
    requires Holds(acct, due, ctx, look, s) && s.owner == acct.owner
    requires start < end <= |b.pts|
    requires forall j :: 0 <= j < start ==> b.pts[j] <= wm
    requires wm < b.pts[start]
    requires b.pts[end - 1] <= hi <= b.statePts
    requires end < |b.pts| ==> hi < b.pts[end]
    ensures Permitted(acct, due, ctx.orderly, s, Push(acct.owner, wm, b.pts[start..end], hi, wire))
  {
    var a := Push(acct.owner, wm, b.pts[start..end], hi, wire);
    SliceIsWhole(acct, from, b, wm, start, end, hi);
    assert Queue(Apply(s, a)) == Queue(s);
  }

  /** A slice below the floor of the last look crosses nothing. */
  lemma SliceBelow(due: Promise, look: Look, s: State, pts: seq<nat>, start: nat, end: nat, a: Action)
    requires Above(due, look, s) && Ascending(pts) && start < end <= |pts| && pts[end - 1] < look.floor
    requires a.Push? && a.items == pts[start..end]
    ensures !Crosses(due, look.mark, s, a)
  {
    forall p | p in a.items ensures p < look.floor {
      var i :| 0 <= i < |a.items| && a.items[i] == p;
      assert p == pts[start + i];
    }
  }

  /** What a delivery may push from `wm`: a slice of its window that, unless it is a blind one,
      stays below the floor of the last look. */
  ghost predicate Slice(conn: Conn, from: nat, b: Batch, wm: nat, start: nat, end: nat, hi: nat, blind: bool)
    reads conn
  {
    && Covers(conn.acct, from, b)
    && start < end <= |b.pts|
    && (forall j :: 0 <= j < start ==> b.pts[j] <= wm)
    && wm < b.pts[start] && b.pts[end - 1] <= hi <= b.statePts
    && (end < |b.pts| ==> hi < b.pts[end])
    && (blind ==> conn.ctx.keyed)
    && (conn.ctx.orderly && !blind && conn.owner == conn.acct.owner ==> b.pts[end - 1] < conn.look.floor)
  }

  /** Push a slice to a connection that stands where it stands now, and judge the push. */
  method PushNow(conn: Conn, from: nat, b: Batch, wm: nat, start: nat, end: nat, hi: nat, wire: Wire, ghost blind: bool)
    returns (pushed: bool, stale: bool, failed: bool)
    requires At(conn, from, wm) && Slice(conn, from, b, wm, start, end, hi, blind)
    modifies conn`watermark, conn`told
    ensures At(conn, from, if pushed then hi else wm) && old(conn.watermark) <= conn.watermark
    ensures pushed ==> conn.owner == conn.acct.owner && conn.watermark == hi
    ensures !pushed ==> conn.watermark == old(conn.watermark)
    ensures failed ==> !pushed && !stale
    ensures conn.told.st == old(conn.told.st).(watermark := conn.watermark)
    ensures wire == Sent && conn.owner == conn.acct.owner && old(conn.watermark) == wm ==> pushed && !stale
  {
    ghost var s := conn.told.st;
    ghost var a := Push(conn.acct.owner, wm, b.pts[start..end], hi, wire);
    if conn.owner == conn.acct.owner {
      SlicePermitted(conn.acct, conn.due, conn.ctx, conn.look, s, from, b, wm, start, end, hi, wire);
      if conn.ctx.orderly && !blind {
        SliceBelow(conn.due, conn.look, s, b.pts, start, end, a);
      }
    }
    pushed, stale, failed := conn.PushToAtWatermark(conn.acct.owner, wm, b.pts[start..end], hi, wire);
    conn.Judge(s, a, blind);
  }

  /** An ordered push of one slice of the window, written only if the connection
      still stands at `wm`. */
  method PushOrdered(conn: Conn, sched: Traffic, from: nat, b: Batch, wm: nat, start: nat, end: nat, hi: nat,
                     ghost blind: bool)
    returns (pushed: bool, stale: bool, failed: bool)
    requires At(conn, from, wm) && Fits(conn, sched, from, b)
    requires Slice(conn, from, b, wm, start, end, hi, blind)
    modifies conn, sched
    ensures At(conn, from, if pushed then hi else wm) && conn.ctx == old(conn.ctx) && conn.look == old(conn.look)
    ensures pushed ==> conn.owner == conn.acct.owner && conn.watermark == hi
    ensures failed ==> !pushed && !stale
    ensures conn.owner == conn.acct.owner ==>
              old(conn.owner) == conn.acct.owner && old(conn.watermark) <= conn.watermark
    ensures |sched.rest| <= |old(sched.rest)|
    ensures old(sched.rest) == [] ==> conn.told.st == old(conn.told.st).(watermark := conn.watermark)
    ensures old(sched.rest) == [] && !pushed ==> conn.watermark == old(conn.watermark)
    ensures old(sched.sends) == [] ==> sched.sends == []
    ensures old(sched.rest) == [] && old(sched.sends) == [] && old(conn.owner) == conn.acct.owner &&
            old(conn.watermark) == wm ==>
              pushed && !stale
  {
    var wire := sched.NextSend();
    conn.Yield(sched);
    pushed, stale, failed := PushNow(conn, from, b, wm, start, end, hi, wire, blind);
  }

  /** Accounting an event the delivery stands just before, or has passed, is permitted. */
  lemma MarkPermitted(acct: Account, due: Promise, ctx: Context, look: Look, s: State, wm: nat, key: int, pts: int)
    requires Holds(acct, due, ctx, look, s)
    requires s.owner == acct.owner ==>
               wm <= s.watermark && (pts <= wm || (pts <= |acct.log| && Renders(acct, wm, pts - 1, [])))
    ensures Permitted(acct, due, ctx.orderly, s, Mark(acct.owner, key, pts))
  {
    if ctx.orderly && s.owner == acct.owner {
      MarkKeepsOrder(acct, due, s, acct.owner, key, pts);
      MarkTakesHead(s, acct.owner, key, pts);
    }
  }

  /** Release a known barrier once delivery has reached the event before it. */
  method AccountPending(conn: Conn, sched: Traffic, from: nat, b: Batch, wm: nat, pendingPts: int)
    returns (next: nat, accounted: bool)
    requires At(conn, from, wm) && Fits(conn, sched, from, b)
    modifies conn, sched`rest
    ensures At(conn, from, next) && conn.ctx == old(conn.ctx) && conn.look == old(conn.look)
    ensures |sched.rest| <= |old(sched.rest)|
    ensures !accounted ==> next == wm
    ensures accounted && old(sched.rest) != [] ==> |sched.rest| < |old(sched.rest)|
    ensures old(sched.rest) == [] ==>
              QuietMark(old(conn.told.st), conn.acct.owner, pendingPts, conn.told.st, next, accounted)
  {
    next, accounted := wm, false;
    if pendingPts <= 0 {
      return;
    }
    if pendingPts > wm {
      if pendingPts != wm + 1 {
        return;
      }
      var target := SearchInts(b.pts, pendingPts);
      var start := SearchInts(b.pts, wm + 1);
      if target >= |b.pts| || b.pts[target] != pendingPts || target < start {
        return;
      }
      if !IsRPCResult(b.ups[target]) {
        return;
      }
    }
    accounted := MarkReached(conn, sched, from, wm, pendingPts);
    if accounted {
      conn.Yield(sched);
      next := conn.LastPushedPts();
    }
  }

  /** Accounting with nobody else about. */
  ghost predicate QuietMark(s: State, owner: int, pts: int, t: State, next: nat, ok: bool) {
    if ok then (t, true) == ApplyMark(s, owner, s.authKey, pts) && next == t.watermark else t == s
  }

  method ReadKey(conn: Conn, sched: Traffic, ghost from: nat, ghost wm: nat) returns (key: int)
    requires At(conn, from, wm) && sched.orderly == conn.ctx.orderly
    modifies conn, sched`rest
    ensures At(conn, from, wm) && conn.ctx == old(conn.ctx) && conn.look == old(conn.look) && key == conn.authKey
    ensures old(sched.rest) == [] ==> sched.rest == [] && conn.told.st == old(conn.told.st)
    ensures old(sched.rest) != [] ==> |sched.rest| < |old(sched.rest)|
  {
    conn.Yield(sched);
    key := conn.authKey;
  }

  /** Account one event under the key the connection holds at the time. */
  method MarkReached(conn: Conn, sched: Traffic, ghost from: nat, wm: nat, pts: int) returns (ok: bool)
    requires At(conn, from, wm) && sched.orderly == conn.ctx.orderly
    requires 0 < pts <= wm || (pts == wm + 1 && pts <= |conn.acct.log|)
    modifies conn, sched`rest
    ensures At(conn, from, wm) && conn.ctx == old(conn.ctx) && conn.look == old(conn.look)
    ensures |sched.rest| <= |old(sched.rest)|
    ensures old(sched.rest) != [] ==> |sched.rest| < |old(sched.rest)|
    ensures old(sched.rest) == [] ==>
              QuietMark(old(conn.told.st), conn.acct.owner, pts, conn.told.st, conn.watermark, ok)
  {
    var key := ReadKey(conn, sched, from, wm);
    ok := MarkNext(conn, sched, from, wm, key, pts);
  }

  method MarkNext(conn: Conn, sched: Traffic, ghost from: nat, wm: nat, key: int, pts: int) returns (ok: bool)
    requires At(conn, from, wm) && sched.orderly == conn.ctx.orderly
    requires 0 < pts <= wm || (pts == wm + 1 && pts <= |conn.acct.log|)
    modifies conn, sched`rest
    ensures At(conn, from, wm) && conn.ctx == old(conn.ctx) && conn.look == old(conn.look)
    ensures |sched.rest| <= |old(sched.rest)|
    ensures old(sched.rest) == [] ==> (conn.told.st, ok) == ApplyMark(old(conn.told.st), conn.acct.owner, key, pts)
  {
    conn.Yield(sched);
    ok := MarkNow(conn, from, wm, key, pts);
  }

  method MarkNow(conn: Conn, ghost from: nat, ghost wm: nat, key: int, pts: int) returns (ok: bool)
    requires At(conn, from, wm)
    requires conn.owner == conn.acct.owner ==>
               pts <= wm || (pts <= |conn.acct.log| && Renders(conn.acct, wm, pts - 1, []))
    modifies conn
    ensures At(conn, from, wm) && conn.ctx == old(conn.ctx) && conn.look == old(conn.look)
    ensures (conn.told.st, ok) == ApplyMark(old(conn.told.st), conn.acct.owner, key, pts)
  {
    MarkPermitted(conn.acct, conn.due, conn.ctx, conn.look, conn.told.st, wm, key, pts);
    ok := conn.MarkRPCUpdate(conn.acct.owner, key, pts);
  }

  lemma QuietMarkShrinks(s: State, owner: int, pts: int, t: State, next: nat)
    requires QuietMark(s, owner, pts, t, next, true)
    requires Pending(s, owner) == (pts, true)
    ensures |Queue(t)| < |Queue(s)| && s.watermark <= t.watermark
  {
    MarkTakesHead(s, owner, s.authKey, pts);
  }

  /** Push the events before a barrier that delivery has not reached yet. */
  method DeliverBeforePending(conn: Conn, sched: Traffic, from: nat, b: Batch, wm: nat, target: nat)
    returns (stale: bool)
    requires At(conn, from, wm) && Fits(conn, sched, from, b)
    requires target < |b.pts| && conn.look.floor == b.pts[target]
    modifies conn, sched
    ensures At(conn, from, wm) && conn.ctx == old(conn.ctx) && conn.look == old(conn.look)
    ensures |sched.rest| <= |old(sched.rest)|
    ensures old(sched.rest) == [] ==>
              && conn.told.st == old(conn.told.st).(watermark := conn.watermark)
              && (conn.watermark == old(conn.watermark) || old(conn.watermark) < conn.watermark <= b.statePts)
  {
    var start := SearchInts(b.pts, wm + 1);
    if target <= start {
      return false;
    }
    var _, gone, _ := PushOrdered(conn, sched, from, b, wm, start, target, b.pts[target - 1], false);
    return gone;
  }

  predicate Keyed(sup: Suppressed, key: int, pendingPts: int, wm: nat) {
    pendingPts > 0 && sup.key != 0 && sup.pts == pendingPts && sup.pts > wm && key == sup.key
  }

  /** One turn at the first barrier: account it, or push up to it, or stop. */
  method BarrierTurn(conn: Conn, sched: Traffic, from: nat, b: Batch, sup: Suppressed, wm: nat, pendingPts: int,
                     ready: bool)
    returns (wm': nat, v: Verdict)
    requires At(conn, from, wm) && Fits(conn, sched, from, b)
    requires 0 <= pendingPts && (pendingPts > 0 ==> conn.look.floor == pendingPts)
    modifies conn, sched
    ensures At(conn, from, wm') && conn.ctx == old(conn.ctx) && conn.look == old(conn.look)
    ensures v != Again ==> wm' == wm
    ensures |sched.rest| <= |old(sched.rest)|
    ensures v == Again && old(sched.rest) != [] ==> |sched.rest| < |old(sched.rest)|
    ensures v == Again && old(sched.rest) == [] ==>
              Progress(old(conn.told.st), conn.acct.owner, b, wm, pendingPts, conn.told.st, wm')
    ensures !ready || pendingPts == 0 || pendingPts > b.statePts ==> v == Done
    ensures old(sched.rest) == [] && (!ready || pendingPts == 0 || pendingPts > b.statePts ||
                                      Keyed(sup, old(conn.authKey), pendingPts, wm)) ==>
              v == Done && conn.told == old(conn.told)
  {
    wm', v := wm, Done;
    conn.Yield(sched);
    if Keyed(sup, conn.authKey, pendingPts, wm) || !ready || pendingPts == 0 || pendingPts > b.statePts {
      return;
    }
    wm', v := ReadyTurn(conn, sched, from, b, wm, pendingPts);
  }

  /** A turn at a known barrier whose result was written. */
  method ReadyTurn(conn: Conn, sched: Traffic, from: nat, b: Batch, wm: nat, pendingPts: int)
    returns (wm': nat, v: Verdict)
    requires At(conn, from, wm) && Fits(conn, sched, from, b)
    requires conn.look.floor == pendingPts
    modifies conn, sched
    ensures At(conn, from, wm') && conn.ctx == old(conn.ctx) && conn.look == old(conn.look)
    ensures v != Again ==> wm' == wm
    ensures |sched.rest| <= |old(sched.rest)|
    ensures v == Again && old(sched.rest) != [] ==> |sched.rest| < |old(sched.rest)|
    ensures v == Again && old(sched.rest) == [] ==>
              Progress(old(conn.told.st), conn.acct.owner, b, wm, pendingPts, conn.told.st, wm')
  {
    wm', v := wm, Done;
    var next, accounted := AccountPending(conn, sched, from, b, wm, pendingPts);
    if accounted {
      if Pending(old(conn.told.st), conn.acct.owner) == (pendingPts, true) && old(sched.rest) == [] {
        QuietMarkShrinks(old(conn.told.st), conn.acct.owner, pendingPts, conn.told.st, next);
      }
      return next, Again;
    }
    wm', v := PrefixTurn(conn, sched, from, b, wm, pendingPts);
  }

  method PrefixTurn(conn: Conn, sched: Traffic, from: nat, b: Batch, wm: nat, pendingPts: int)
    returns (wm': nat, v: Verdict)
    requires At(conn, from, wm) && Fits(conn, sched, from, b)
    requires conn.look.floor == pendingPts
    modifies conn, sched
    ensures At(conn, from, wm') && conn.ctx == old(conn.ctx) && conn.look == old(conn.look)
    ensures v != Again ==> wm' == wm
    ensures |sched.rest| <= |old(sched.rest)|
    ensures v == Again && old(sched.rest) != [] ==> |sched.rest| < |old(sched.rest)|
    ensures v == Again && old(sched.rest) == [] ==>
              Progress(old(conn.told.st), conn.acct.owner, b, wm, pendingPts, conn.told.st, wm')
  {
    wm', v := wm, Done;
    var target := SearchInts(b.pts, pendingPts);
    if pendingPts > wm && target < |b.pts| && b.pts[target] == pendingPts && IsRPCResult(b.ups[target]) {
      var stale := DeliverBeforePending(conn, sched, from, b, wm, target);
      if stale {
        return wm, Stale;
      }
      conn.Yield(sched);
      var now := conn.LastPushedPts();
      if now > wm {
        return now, Again;
      }
    }
  }

  /** With nobody else about: the reading of the watermark is current again, and if
      it and the barrier were, a barrier is gone or the window is further covered. */
  ghost predicate Progress(s: State, owner: int, b: Batch, wm: nat, pts: int, t: State, wm': nat) {
    && t.watermark == wm'
    && (Settled(s, owner, wm, pts, true) ==> Left(t, b, wm') < Left(s, b, wm))
  }

  /** The delivery's reading of the connection is current. */
  ghost predicate Settled(s: State, owner: int, wm: nat, pts: int, pending: bool) {
    Pending(s, owner) == (pts, pending) && s.watermark == wm
  }

  /** Outstanding barriers plus the window still to cover. */
  ghost function Left(s: State, b: Batch, wm: nat): nat {
    |Queue(s)| + Gap(b, wm)
  }

  /** The reading of the first barrier that goes with a turn that goes on: others have taken
      steps, or it is current and less is left than before, if the one before was current. */
  ghost predicate Closer(b: Batch, owner: int, s: State, wm: nat, pts: int, rest: nat,
                         t: State, wm': nat, pts': int, pending': bool, rest': nat) {
    || rest' < rest
    || (rest' == rest && Settled(t, owner, wm', pts', pending') &&
        (Settled(s, owner, wm, pts, true) ==> Left(t, b, wm') < Left(s, b, wm)))
  }

  /** A turn at the first barrier and, if it goes on, a new reading. */
  method TurnAndRead(conn: Conn, sched: Traffic, from: nat, b: Batch, sup: Suppressed, wm: nat, pts: int, ready: bool)
    returns (wm': nat, v: Verdict, pts': int, pending': bool, ready': bool)
    requires At(conn, from, wm) && Fits(conn, sched, from, b) && Read(conn, b, pts, true)
    modifies conn, sched
    ensures At(conn, from, wm') && conn.ctx == old(conn.ctx) && Read(conn, b, pts', pending')
    ensures |sched.rest| <= |old(sched.rest)|
    ensures v != Again ==> wm' == wm && pts' == pts && pending'
    ensures v == Again ==> Closer(b, conn.acct.owner, old(conn.told.st), wm, pts, |old(sched.rest)|,
                                  conn.told.st, wm', pts', pending', |sched.rest|)
  {
    wm', v := BarrierTurn(conn, sched, from, b, sup, wm, pts, ready);
    pts', pending', ready' := pts, true, ready;
    if v == Again {
      pts', pending', ready' := ReadPending(conn, sched, from, b, wm');
    }
  }

  /** Work through the barriers of the window, lowest first, until one has to be waited for. */
  method DrainBarriers(conn: Conn, sched: Traffic, from: nat, b: Batch, sup: Suppressed, wm0: nat)
    returns (wm: nat, pts: int, pending: bool, stale: bool)
    requires At(conn, from, wm0) && Fits(conn, sched, from, b)
    modifies conn, sched
    ensures At(conn, from, wm) && conn.ctx == old(conn.ctx)
    ensures Read(conn, b, pts, pending)
    ensures |sched.rest| <= |old(sched.rest)|
    ensures old(sched.rest) == [] && !Pending(old(conn.told.st), conn.acct.owner).1 ==>
              conn.told.st == old(conn.told.st) && wm == wm0 && !pending && !stale && sched.sends == old(sched.sends)
  {
    var ready: bool;
    wm, stale := wm0, false;
    pts, pending, ready := ReadPending(conn, sched, from, b, wm);
    if pending {
      wm, pts, pending, stale := DrainFrom(conn, sched, from, b, sup, wm, pts, ready);
    }
  }

  /** The loop over the barriers, from one that is pending. */
  method DrainFrom(conn: Conn, sched: Traffic, from: nat, b: Batch, sup: Suppressed, wm0: nat, pts0: int, ready0: bool)
    returns (wm: nat, pts: int, pending: bool, stale: bool)
    requires At(conn, from, wm0) && Fits(conn, sched, from, b) && Read(conn, b, pts0, true)
    modifies conn, sched
    ensures At(conn, from, wm) && conn.ctx == old(conn.ctx)
    ensures Read(conn, b, pts, pending)
    ensures |sched.rest| <= |old(sched.rest)|
  {
    var ready: bool;
    wm, pts, pending, ready, stale := wm0, pts0, true, ready0, false;
    while pending
      invariant At(conn, from, wm) && conn.ctx == old(conn.ctx) && Read(conn, b, pts, pending)
      invariant |sched.rest| <= |old(sched.rest)|
      decreases |sched.rest|,
                if Settled(conn.told.st, conn.acct.owner, wm, pts, pending) then 0 else 1,
                Left(conn.told.st, b, wm)
    {
      var v: Verdict;
      wm, v, pts, pending, ready := TurnAndRead(conn, sched, from, b, sup, wm, pts, ready);
      if v != Again {
        stale := v == Stale;
        break;
      }
    }
  }

  /** No renderable event lies between where a reader stands and the next one of its window. */
  lemma NothingBefore(acct: Account, from: nat, b: Batch, lo: nat, target: nat)
    requires Covers(acct, from, b) && from <= lo
    requires target < |b.pts|
    requires forall j :: 0 <= j < target ==> b.pts[j] <= lo
    ensures Renders(acct, lo, b.pts[target] - 1, [])
  {
    assert forall k :: 0 <= k < |b.pts| ==> b.pts[k] <= lo || b.pts[target] <= b.pts[k];
    assert forall p: nat :: lo < p < b.pts[target] ==> p !in b.pts;
  }

  /** Account the suppressed event from where the delivery stands. */
  method MarkSuppressed(conn: Conn, sched: Traffic, from: nat, b: Batch, lo: nat, target: nat, sup: Suppressed)
    returns (ok: bool)
    requires At(conn, from, lo) && Fits(conn, sched, from, b)
    requires target < |b.pts| && b.pts[target] == sup.pts
    requires forall j :: 0 <= j < target ==> b.pts[j] <= lo
    requires lo < sup.pts
    modifies conn, sched`rest
    ensures conn.ctx == old(conn.ctx)
    ensures At(conn, from, if ok then sup.pts else lo)
    ensures |sched.rest| <= |old(sched.rest)|
  {
    conn.Yield(sched);
    if conn.owner == conn.acct.owner {
      NothingBefore(conn.acct, from, b, lo, target);
    }
    ok := MarkNow(conn, from, lo, sup.key, sup.pts);
  }

  /** How far a share may push from `wm` by its reading of the first barrier: up to a
      barrier that lies ahead; beyond any other reading only when nothing is pending or
      right after its keyed event. */
  function PushEnd(pts: seq<nat>, wm: nat, next: int, pending: bool, after: bool): (end: nat)
    requires Ascending(pts)
    ensures SearchInts(pts, wm + 1) <= end <= |pts|
    ensures pending && wm < next ==> forall i :: 0 <= i < end ==> pts[i] < next
  {
    SearchGrows(pts, wm + 1, if wm < next then next else wm + 1);
    if pending && wm < next then SearchInts(pts, next)
    else if !pending || after then |pts|
    else SearchInts(pts, wm + 1)
  }

  /** Where the updates after an accounted event end: at the next barrier, if it is
      reported beyond the event and lies within the window. */
  function SuffixEnd(pts: seq<nat>, target: nat, sup: nat, next: int, pending: bool): (end: nat)
    requires Ascending(pts) && target < |pts| && pts[target] == sup
    ensures target + 1 <= end <= |pts|
    ensures pending && next > sup ==> forall i :: target < i < end ==> pts[i] < next
    ensures end == PushEnd(pts, sup, next, pending, true)
  {
    var nextTarget := SearchInts(pts, next);
    assert next > sup ==> target < nextTarget;
    if pending && next > sup && target + 1 <= nextTarget < |pts| then nextTarget else |pts|
  }

  /** Push what follows an accounted event, up to the next barrier; blindly if the reading of
      that barrier names no event ahead. */
  method PushSuffix(conn: Conn, sched: Traffic, from: nat, b: Batch, target: nat, sup: Suppressed) returns (stale: bool)
    requires sup.pts > 0 && At(conn, from, sup.pts) && Fits(conn, sched, from, b) && conn.ctx.keyed
    requires target < |b.pts| && b.pts[target] == sup.pts
    modifies conn, sched
    ensures conn.In() && conn.ctx == old(conn.ctx)
  {
    var nextPts, pending := ReadFirst(conn, sched, from, b, sup.pts);
    var suffixEnd := SuffixEnd(b.pts, target, sup.pts, nextPts, pending);
    if target + 1 >= suffixEnd {
      return false;
    }
    var _, gone, _ := PushOrdered(conn, sched, from, b, sup.pts, target + 1, suffixEnd, b.pts[suffixEnd - 1],
                                  pending && nextPts <= sup.pts);
    return gone;
  }

  method AccountThenSuffix(conn: Conn, sched: Traffic, from: nat, b: Batch, lo: nat, target: nat, sup: Suppressed)
    returns (stale: bool)
    requires At(conn, from, lo) && Fits(conn, sched, from, b) && conn.ctx.keyed
    requires target < |b.pts| && b.pts[target] == sup.pts
    requires forall j :: 0 <= j < target ==> b.pts[j] <= lo
    requires lo < sup.pts
    modifies conn, sched
    ensures conn.In() && conn.ctx == old(conn.ctx)
  {
    var ok := MarkSuppressed(conn, sched, from, b, lo, target, sup);
    if !ok {
      return false;
    }
    stale := PushSuffix(conn, sched, from, b, target, sup);
  }

  lemma PrefixIsBelow(pts: seq<nat>, target: nat)
    requires Ascending(pts) && 0 < target < |pts|
    ensures pts[target - 1] < pts[target]
    ensures forall j :: 0 <= j < target ==> pts[j] <= pts[target - 1]
  {
  }

  /** Push what precedes the suppressed event, account the event, and push what
      follows it up to the next barrier.  True asks for a rebuilt window. */
  method DeliverWithSuppression(conn: Conn, sched: Traffic, from: nat, b: Batch, wm: nat, start: nat, target: nat,
                                sup: Suppressed)
    returns (retry: bool)
    requires At(conn, from, wm) && Fits(conn, sched, from, b) && conn.ctx.keyed
    requires start == SearchInts(b.pts, wm + 1) <= target < |b.pts| && b.pts[target] == sup.pts
    requires conn.ctx.orderly && conn.owner == conn.acct.owner ==> sup.pts <= conn.look.floor
    modifies conn, sched
    ensures conn.In() && conn.ctx == old(conn.ctx)
  {
    if target <= start {
      retry := AccountThenSuffix(conn, sched, from, b, wm, target, sup);
      return;
    }
    var prefixPts := b.pts[target - 1];
    PrefixIsBelow(b.pts, target);
    var pushed, stale, failed := PushOrdered(conn, sched, from, b, wm, start, target, prefixPts, false);
    if stale || failed {
      return true;
    }
    if !pushed {
      return false;
    }
    retry := AccountThenSuffix(conn, sched, from, b, prefixPts, target, sup);
  }

  /** What a delivery asks of the barriers under order, and leaves behind. */
  predicate Tidy(acct: Account, due: Promise, orderly: bool, s: State) {
    orderly && s.owner == acct.owner ==> Disciplined(acct, due, s)
  }

  /** Under order: no barrier of the last look is for an event of the window, or only the keyed
      notification's own and later ones, under the key it names. */
  ghost predicate Cleared(conn: Conn, b: Batch, sup: Suppressed, wm: nat)
    reads conn
  {
    conn.ctx.orderly && conn.owner == conn.acct.owner && conn.look.floor <= b.statePts ==>
      OnlyKeyed(conn.acct, conn.look, b, sup, wm)
  }

  predicate OnlyKeyed(acct: Account, look: Look, b: Batch, sup: Suppressed, wm: nat) {
    && look.floor == sup.pts && wm < sup.pts <= |acct.log|
    && sup.pts in b.pts && IsRPCResult(acct.log[sup.pts - 1])
    && sup.key != 0 && sup.key == look.key
  }

  /** A first barrier that does not make the delivery wait is beyond the window, dropped
      with its key, or the keyed notification's own. */
  lemma NotHeldIsKeyed(acct: Account, look: Look, from: nat, b: Batch, sup: Suppressed, wm: nat)
    requires Covers(acct, from, b) && from <= wm && 0 < look.floor <= b.statePts
    requires look.floor !in acct.gone && IsRPCResult(acct.log[look.floor - 1])
    requires Keyed(sup, look.key, look.floor, wm)
    ensures OnlyKeyed(acct, look, b, sup, wm)
  {
  }

  /** Under order a change of key has dropped the barriers of the last look. */
  ghost method NoteKey(conn: Conn, limit: nat)
    requires conn.In()
    modifies conn`look
    ensures conn.In()
    ensures conn.look == if conn.authKey == old(conn.look.key) then old(conn.look)
                         else old(conn.look).(floor := limit + 1)
  {
    if conn.authKey != conn.look.key {
      conn.See(conn.look.(floor := limit + 1));
    }
  }

  lemma ClearedTargets(conn: Conn, from: nat, b: Batch, sup: Suppressed, wm: nat, start: nat)
    requires Covers(conn.acct, from, b) && Cleared(conn, b, sup, wm)
    requires start == SearchInts(b.pts, wm + 1)
    requires conn.ctx.orderly && conn.owner == conn.acct.owner && conn.look.floor <= b.statePts
    ensures var target := SearchInts(b.pts, sup.pts);
            start <= target < |b.pts| && b.pts[target] == sup.pts && IsRPCResult(b.ups[target])
  {
    var k :| 0 <= k < |b.pts| && b.pts[k] == sup.pts;
    SearchFinds(b.pts, k);
    SearchGrows(b.pts, wm + 1, sup.pts);
  }

  /** The keyed notification's own event, if the window has it and the connection holds the key. */
  method TrySuppressed(conn: Conn, sched: Traffic, from: nat, b: Batch, sup: Suppressed, wm: nat, start: nat)
    returns (handled: bool, retry: bool)
    requires At(conn, from, wm) && Fits(conn, sched, from, b)
    requires start == SearchInts(b.pts, wm + 1) < |b.pts|
    requires Cleared(conn, b, sup, wm) && sup.pts > wm && conn.ctx.keyed
    modifies conn, sched
    ensures conn.In() && conn.ctx == old(conn.ctx)
    ensures !handled ==> At(conn, from, wm)
    ensures !handled && conn.ctx.orderly && conn.owner == conn.acct.owner ==> b.statePts < conn.look.floor
  {
    if conn.ctx.orderly && conn.owner == conn.acct.owner && conn.look.floor <= b.statePts {
      ClearedTargets(conn, from, b, sup, wm, start);
    }
    conn.Yield(sched);
    var key := conn.authKey;
    NoteKey(conn, b.statePts);
    var target := SearchInts(b.pts, sup.pts);
    handled := key == sup.key && start <= target < |b.pts| && b.pts[target] == sup.pts && IsRPCResult(b.ups[target]);
    retry := false;
    if handled {
      retry := DeliverWithSuppression(conn, sched, from, b, wm, start, target, sup);
    }
  }

  /** A delivery that does not wait has nothing of the window in its way. */
  ghost method NoteCleared(conn: Conn, from: nat, b: Batch, sup: Suppressed, wm: nat, pts: int, pending: bool,
                           hold: bool)
    requires At(conn, from, wm) && Covers(conn.acct, from, b) && Read(conn, b, pts, pending)
    requires hold == (pending && !Keyed(sup, conn.authKey, pts, wm) && (pts == 0 || pts <= b.statePts))
    modifies conn`look
    ensures At(conn, from, wm) && (!hold ==> Cleared(conn, b, sup, wm))
  {
    NoteKey(conn, b.statePts);
    if !hold && conn.ctx.orderly && conn.owner == conn.acct.owner && conn.look.floor <= b.statePts {
      NotHeldIsKeyed(conn.acct, conn.look, from, b, sup, wm);
    }
  }

  /** Whether the first barrier left makes the delivery wait. */
  method MustHold(conn: Conn, sched: Traffic, from: nat, b: Batch, sup: Suppressed, wm: nat, pts: int, pending: bool)
    returns (hold: bool)
    requires At(conn, from, wm) && Fits(conn, sched, from, b)
    requires Read(conn, b, pts, pending)
    modifies conn, sched`rest
    ensures At(conn, from, wm) && conn.ctx == old(conn.ctx)
    ensures !hold ==> Cleared(conn, b, sup, wm)
    ensures !pending ==> !hold
    ensures |sched.rest| <= |old(sched.rest)|
    ensures old(sched.rest) == [] ==> conn.told.st == old(conn.told.st)
  {
    conn.Yield(sched);
    var keyed := pending && Keyed(sup, conn.authKey, pts, wm);
    hold := pending && !keyed && (pts == 0 || pts <= b.statePts);
    NoteCleared(conn, from, b, sup, wm, pts, pending, hold);
  }

  /** Nothing holds the connection back. */
  predicate Free(acct: Account, s: State) {
    s.owner == acct.owner && Queue(s) == [] && !s.saturated
  }

  /** What one delivery does when nothing else touches the connection and nothing holds it back. */
  function QuietShare(s: State, from: nat, b: Batch): (State, Share)
    requires Ascending(b.pts)
  {
    var w := s.watermark;
    var empty := SearchInts(b.pts, w + 1) == |b.pts|;
    (s.(watermark := if from <= w < b.statePts && !empty then b.statePts else w),
     Share(from <= w && b.more && (w >= b.statePts || empty), false))
  }

  /** One connection's share of the window `b` built from `from`, under any interference. */
  method DeliverConn(conn: Conn, sched: Traffic, from: nat, b: Batch, sup: Suppressed) returns (share: Share)
    requires conn.Valid() && conn.told.lawful
    requires Covers(conn.acct, from, b)
    requires Tidy(conn.acct, conn.due, sched.orderly, conn.told.st)
    modifies conn, sched
    ensures conn.Valid() && conn.told.lawful && Tidy(conn.acct, conn.due, sched.orderly, conn.told.st)
    ensures conn.told.story.init == old(conn.told.story.init) && old(conn.told.story.history) <= conn.told.story.history
    ensures sched.orderly ==> conn.told.crossed == old(conn.told.crossed)
    ensures sup.key == 0 && conn.told.blind ==> old(conn.told.blind)
    ensures old(sched.rest) == [] && old(sched.sends) == [] && sup.key == 0 &&
            Free(conn.acct, old(conn.told.st)) ==>
              (conn.told.st, share) == QuietShare(old(conn.told.st), from, b) && sched.rest == [] && sched.sends == []
  {
    conn.Enter(sched.orderly, sup.key != 0);
    share := DeliverFrom(conn, sched, from, b, sup);
  }

  /** Leave a connection the window does not serve alone. */
  method DeliverFrom(conn: Conn, sched: Traffic, from: nat, b: Batch, sup: Suppressed) returns (share: Share)
    requires conn.In() && Fits(conn, sched, from, b)
    requires sup.key != 0 ==> conn.ctx.keyed
    modifies conn, sched
    ensures conn.In() && conn.ctx == old(conn.ctx)
    ensures old(sched.rest) == [] && old(sched.sends) == [] && sup.key == 0 && Free(conn.acct, old(conn.told.st)) ==>
              (conn.told.st, share) == QuietShare(old(conn.told.st), from, b) && sched.rest == [] && sched.sends == []
  {
    conn.Yield(sched);
    var wm := conn.LastPushedPts();
    if wm < from {
      return Share(false, false);
    }
    if wm >= b.statePts {
      return Share(b.more, false);
    }
    share := DeliverHere(conn, sched, from, b, sup, wm);
  }

  method DeliverHere(conn: Conn, sched: Traffic, from: nat, b: Batch, sup: Suppressed, wm0: nat)
    returns (share: Share)
    requires At(conn, from, wm0) && from <= wm0 && Fits(conn, sched, from, b)
    requires sup.key != 0 ==> conn.ctx.keyed
    modifies conn, sched
    ensures conn.In() && conn.ctx == old(conn.ctx)
    ensures old(sched.rest) == [] && old(sched.sends) == [] && sup.key == 0 &&
            old(conn.watermark) == wm0 < b.statePts &&
            old(conn.owner) == conn.acct.owner && !Pending(old(conn.told.st), conn.acct.owner).1 ==>
              (conn.told.st, share) == QuietShare(old(conn.told.st), from, b) && sched.rest == [] && sched.sends == []
  {
    var wm, pts, pending, stale := DrainBarriers(conn, sched, from, b, sup, wm0);
    if stale {
      return Share(false, true);
    }
    share := AfterBarriers(conn, sched, from, b, sup, wm, pts, pending);
  }

  lemma QuietCases(s: State, from: nat, b: Batch)
    requires Ascending(b.pts) && from <= s.watermark < b.statePts
    ensures QuietShare(s, from, b) ==
            if SearchInts(b.pts, s.watermark + 1) == |b.pts| then (s, Share(b.more, false))
            else (s.(watermark := b.statePts), Share(false, false))
  {
  }

  /** Push everything above `wm` in one go. */
  method PushPlain(conn: Conn, sched: Traffic, from: nat, b: Batch, wm: nat, start: nat) returns (share: Share)
    requires At(conn, from, wm) && Fits(conn, sched, from, b)
    requires start == SearchInts(b.pts, wm + 1) < |b.pts|
    requires conn.ctx.orderly && conn.owner == conn.acct.owner ==> b.statePts < conn.look.floor
    modifies conn, sched
    ensures conn.In() && conn.ctx == old(conn.ctx)
    ensures old(sched.rest) == [] && old(sched.sends) == [] && old(conn.owner) == conn.acct.owner &&
            old(conn.watermark) == wm ==>
              conn.told.st == old(conn.told.st).(watermark := b.statePts) && share == Share(false, false) &&
              sched.rest == [] && sched.sends == []
  {
    var _, stale, _ := PushOrdered(conn, sched, from, b, wm, start, |b.pts|, b.statePts, false);
    share := Share(false, stale);
  }

  /** Push nothing more; a truncated window leaves a connection short of its end ahead. */
  method LeaveBe(conn: Conn, sched: Traffic, b: Batch) returns (share: Share)
    requires conn.In() && sched.orderly == conn.ctx.orderly
    modifies conn, sched`rest
    ensures conn.In() && conn.ctx == old(conn.ctx)
    ensures share == Share(b.more && conn.watermark < b.statePts, false)
    ensures old(sched.rest) == [] ==> sched.rest == [] && conn.told.st == old(conn.told.st)
  {
    conn.Yield(sched);
    share := Share(b.more && conn.watermark < b.statePts, false);
  }

  /** Push around the suppressed event if the window has it, and in one go if not. */
  method PushAround(conn: Conn, sched: Traffic, from: nat, b: Batch, sup: Suppressed, wm: nat, start: nat)
    returns (share: Share)
    requires At(conn, from, wm) && Fits(conn, sched, from, b)
    requires start == SearchInts(b.pts, wm + 1) < |b.pts|
    requires Cleared(conn, b, sup, wm) && sup.pts > wm && conn.ctx.keyed
    modifies conn, sched
    ensures conn.In() && conn.ctx == old(conn.ctx)
  {
    var handled, retry := TrySuppressed(conn, sched, from, b, sup, wm, start);
    if !handled {
      share := PushPlain(conn, sched, from, b, wm, start);
    } else if retry {
      share := Share(false, true);
    } else {
      share := LeaveBe(conn, sched, b);
    }
  }

  /** Push whatever the window holds above `wm`. */
  method PushRest(conn: Conn, sched: Traffic, from: nat, b: Batch, sup: Suppressed, wm: nat) returns (share: Share)
    requires At(conn, from, wm) && Fits(conn, sched, from, b)
    requires Cleared(conn, b, sup, wm)
    requires sup.key != 0 ==> conn.ctx.keyed
    modifies conn, sched
    ensures conn.In() && conn.ctx == old(conn.ctx)
    ensures old(sched.rest) == [] && old(sched.sends) == [] && sup.key == 0 &&
            old(conn.owner) == conn.acct.owner && from <= old(conn.watermark) == wm < b.statePts ==>
              (conn.told.st, share) == QuietShare(old(conn.told.st), from, b) && sched.rest == [] && sched.sends == []
  {
    ghost var s := conn.told.st;
    var start := SearchInts(b.pts, wm + 1);
    if start == |b.pts| {
      share := LeaveBe(conn, sched, b);
    } else if sup.key != 0 && sup.pts > wm {
      share := PushAround(conn, sched, from, b, sup, wm, start);
    } else {
      share := PushPlain(conn, sched, from, b, wm, start);
    }
    if from <= s.watermark < b.statePts {
      QuietCases(s, from, b);
    }
  }

  /** What is left once the barriers that can be released are: wait, or push the rest. */
  method AfterBarriers(conn: Conn, sched: Traffic, from: nat, b: Batch, sup: Suppressed, wm: nat, pts: int,
                       pending: bool)
    returns (share: Share)
    requires At(conn, from, wm) && Fits(conn, sched, from, b)
    requires Read(conn, b, pts, pending)
    requires sup.key != 0 ==> conn.ctx.keyed
    modifies conn, sched
    ensures conn.In() && conn.ctx == old(conn.ctx)
    ensures old(sched.rest) == [] && old(sched.sends) == [] && sup.key == 0 &&
            from <= old(conn.watermark) == wm < b.statePts &&
            old(conn.owner) == conn.acct.owner && !pending ==>
              (conn.told.st, share) == QuietShare(old(conn.told.st), from, b) && sched.rest == [] && sched.sends == []
  {
    var hold := MustHold(conn, sched, from, b, sup, wm, pts, pending);
    if hold {
      return Share(false, false);
    }
    share := PushRest(conn, sched, from, b, sup, wm);
  }
}
