/**
 What the delivery protocol gives a client, over whole runs, and exactly where
 its promises stop.
 */
module DeliveryFacts {
  import opened Common
  import opened Transport
  import opened PushHistory
  import opened BarrierFacts
  import opened Connection
  import opened Window
  import opened Delivery

  /** No gap: wherever a connection's lawful story leads, everything renderable
      between its base and its watermark was pushed to it or accounted as an RPC
      result, each exactly once and in order. */
  lemma StoryIsSound(story: Story)
    requires Sound(story.acct, story.init)
    ensures Sound(story.acct, story.node)
  {
    RunKeepsSound(story.acct, story.init, story.history);
  }

  /** Pushes cover disjoint ranges, in order. */
  lemma {:induction false} PushesAreDisjoint(base: nat, trace: seq<Entry>, i: nat, j: nat)
    requires Consecutive(base, trace) && i < j < |trace|
    requires trace[i].Pushed? && trace[j].Pushed?
    ensures trace[i].hi <= trace[j].lo
    decreases |trace|
  {
    var before := trace[..|trace| - 1];
    if j < |trace| - 1 {
      PushesAreDisjoint(base, before, i, j);
    } else {
      EndsGrow(base, before, i);
    }
  }

  lemma {:induction false} EndsGrow(base: nat, trace: seq<Entry>, i: nat)
    requires Consecutive(base, trace) && i < |trace| && trace[i].Pushed?
    ensures trace[i].hi <= End(base, trace)
  {
    if i < |trace| - 1 {
      EndsGrow(base, trace[..|trace| - 1], i);
    }
  }

  // ----- where accounting is sound -----

  /** Accounting keeps a sound connection sound exactly when it steps over nothing renderable. */
  lemma MarkIsSoundIff(acct: Account, n: Node, key: int, pts: int)
    requires Sound(acct, n) && n.st.owner == acct.owner
    requires Apply(n.st, Mark(acct.owner, key, pts)).watermark > n.st.watermark
    ensures Sound(acct, Record(n, Mark(acct.owner, key, pts))) <==> Renders(acct, n.st.watermark, pts - 1, [])
  {
    var a := Mark(acct.owner, key, pts);
    var m := Record(n, a);
    var w := n.st.watermark;
    assert m == Node(Apply(n.st, a), n.base, n.trace + [Accounted(pts)]);
    GivenSnoc(n.trace, Accounted(pts));
    if Renders(acct, w, pts - 1, []) {
      AdvanceKeepsSound(acct, n, m.st, Accounted(pts));
    } else {
      var p: nat :| w < p <= pts - 1 && p !in acct.gone && p !in [];
      assert p !in Given(n.trace);
      assert p !in Given(m.trace);
    }
  }

  /** An account that leaves the connection and comes back while a delivery is under
      way undoes what the delivery read: the accounting it was about to do, safe
      when it looked, then steps over the whole log. */
  lemma RebindReopensGap(due: Promise)
    ensures
      var acct := Account(1, [NewMessage, NewMessage, NewMessage], {});
      var s := State(1, 7, 2, [], [], false, 0);
      var a := Mark(1, 7, 3);
      && Sound(acct, Node(s, 2, []))
      && Permitted(acct, due, false, s, a)
      && Sound(acct, Record(Node(s, 2, []), a))
      && Play(Node(s, 2, []), [SetOwner(0), SetOwner(1), a]).st.watermark == 3
      && !Sound(acct, Play(Node(s, 2, []), [SetOwner(0), SetOwner(1), a]))
  {
    var acct := Account(1, [NewMessage, NewMessage, NewMessage], {});
    var s := State(1, 7, 2, [], [], false, 0);
    var n := Node(s, 2, []);
    var a := Mark(1, 7, 3);
    SafeWithoutLeaving(acct, due, n, a);
    LeaveAndReturn(n, a);
    LastOfThreeLeavesGap(acct, Play(n, [SetOwner(0), SetOwner(1), a]));
  }

  lemma SafeWithoutLeaving(acct: Account, due: Promise, n: Node, a: Action)
    requires acct == Account(1, [NewMessage, NewMessage, NewMessage], {})
    requires n == Node(State(1, 7, 2, [], [], false, 0), 2, []) && a == Mark(1, 7, 3)
    ensures Sound(acct, n) && Permitted(acct, due, false, n.st, a) && Sound(acct, Record(n, a))
  {
    StepKeepsSound(acct, n, a);
  }

  lemma LastOfThreeLeavesGap(acct: Account, n: Node)
    requires acct == Account(1, [NewMessage, NewMessage, NewMessage], {})
    requires n == Node(State(1, 7, 3, [], [], false, 0), 0, [Accounted(3)])
    ensures !Sound(acct, n)
  {
    GivenSnoc([], Accounted(3));
    assert Given([Accounted(3)]) == [3] by { assert [] + [Accounted(3)] == [Accounted(3)]; }
    assert 1 !in [3] && 1 !in acct.gone;
  }

  lemma LeaveAndReturn(n: Node, a: Action)
    requires n == Node(State(1, 7, 2, [], [], false, 0), 2, []) && a == Mark(1, 7, 3)
    ensures Play(n, [SetOwner(0), SetOwner(1), a]) == Node(State(1, 7, 3, [], [], false, 0), 0, [Accounted(3)])
  {
    var one, two, three := [SetOwner(0)], [SetOwner(0), SetOwner(1)], [SetOwner(0), SetOwner(1), a];
    assert three[..2] == two && two[..1] == one && one[..0] == [];
    assert Play(n, one).st == State(0, 7, 0, [], [], false, 0);
    assert Play(n, two) == Node(State(1, 7, 0, [], [], false, 0), 0, []);
  }

  /** A push of everything a window has above `wm`, made by a connection that still stands
      there, is whole exactly when nothing renderable lies between `wm` and the window. */
  lemma PushIsWholeIff(acct: Account, from: nat, b: Batch, wm: nat)
    requires Covers(acct, from, b) && wm < b.statePts
    ensures Whole(acct, wm, b.pts[SearchInts(b.pts, wm + 1)..], b.statePts) <==>
            Renders(acct, wm, Min(from, b.statePts), [])
  {
    var items := b.pts[SearchInts(b.pts, wm + 1)..];
    ItemsAbove(b.pts, wm);
    ItemsRenderIff(acct, from, b, wm, items);
    forall i | 0 <= i < |items| ensures wm < items[i] <= b.statePts {
      assert items[i] in b.pts;
    }
  }

  lemma ItemsRenderIff(acct: Account, from: nat, b: Batch, wm: nat, items: seq<nat>)
    requires Covers(acct, from, b) && wm < b.statePts
    requires forall p: nat :: p in items <==> p in b.pts && wm < p
    ensures Renders(acct, wm, b.statePts, items) <==> Renders(acct, wm, Min(from, b.statePts), [])
  {
    if Renders(acct, wm, Min(from, b.statePts), []) {
      forall p: nat | wm < p <= b.statePts && p !in acct.gone ensures p in items {
        assert p > from ==> p in b.pts;
        assert p <= from ==> p in [];
      }
    } else {
      var p: nat :| wm < p <= Min(from, b.statePts) && p !in acct.gone;
      assert p !in b.pts;
    }
  }

  lemma ItemsAbove(pts: seq<nat>, wm: nat)
    requires Ascending(pts)
    ensures Ascending(pts[SearchInts(pts, wm + 1)..])
    ensures forall p: nat :: p in pts[SearchInts(pts, wm + 1)..] <==> p in pts && wm < p
  {
    var start := SearchInts(pts, wm + 1);
    var items := pts[start..];
    forall p: nat | p in pts && wm < p ensures p in items {
      var k :| 0 <= k < |pts| && pts[k] == p;
      assert items[k - start] == p;
    }
  }

  /** An account that leaves and comes back between an accounting and the reading that
      follows it makes that reading zero; a push of the window from there skips the
      events before the window. */
  lemma ReturnLowersReading(acct: Account, b: Batch, s: State, t: State, a: Action)
    requires acct == Account(1, [NewMessage, NewMessage, NewMessage, NewMessage], {})
    requires b == Batch([NewMessage, NewMessage], [3, 4], 4, 4, false)
    requires s == State(1, 7, 2, [Barrier(1, 3, true)], [], false, 1)
    requires t == Apply(Apply(Apply(s, Mark(1, 7, 3)), SetOwner(0)), SetOwner(1))
    requires a == Push(1, t.watermark, b.pts[SearchInts(b.pts, t.watermark + 1)..], b.statePts, Sent)
    ensures Covers(acct, 2, b) && t.watermark == 0 && Writes(t, a) && !Lawful(acct, t, a)
  {
    LastTwoOfFour(acct, b);
    assert t.watermark == 0 && t.owner == 1;
    PushIsWholeIff(acct, 2, b, 0);
    assert 1 !in acct.gone;
  }

  lemma LastTwoOfFour(acct: Account, b: Batch)
    requires acct == Account(1, [NewMessage, NewMessage, NewMessage, NewMessage], {})
    requires b == Batch([NewMessage, NewMessage], [3, 4], 4, 4, false)
    ensures Covers(acct, 2, b)
  {
    assert b.pts[0] == 3 && b.pts[1] == 4;
  }

  // ----- where barriers hold -----

  /** What the share pushes holds none of the events still owed as results. */
  ghost predicate HoldsBack(pts: seq<nat>, wm: nat, next: int, pending: bool, after: bool, owed: set<nat>)
    requires Ascending(pts)
  {
    forall e: nat :: e in owed ==> e !in pts[SearchInts(pts, wm + 1)..PushEnd(pts, wm, next, pending, after)]
  }

  /** The push of a share whose barriers are not waited for goes to the end of the window,
      that before a barrier goes up to it, and that after the keyed event as `SuffixEnd` says:
      all three end at `PushEnd`. */
  lemma PushEnds(pts: seq<nat>, statePts: nat, wm: nat, next: int, pending: bool, target: nat)
    requires Ascending(pts) && Bounded(pts, -1, statePts)
    ensures !pending || (next > statePts && next > wm) ==> PushEnd(pts, wm, next, pending, false) == |pts|
    ensures pending && target < |pts| && wm < pts[target] == next ==> PushEnd(pts, wm, next, pending, false) == target
    ensures target < |pts| ==>
              SuffixEnd(pts, target, pts[target], next, pending) == PushEnd(pts, pts[target], next, pending, true)
  {
    if target < |pts| {
      SearchFinds(pts, target);
    }
    if next > statePts {
      SearchPast(pts, next);
    }
  }

  /** For every window: no push of a share holds an event still owed if and only if each such
      event above the watermark lies at or beyond a barrier read ahead, or the share waits. */
  lemma ShareHoldsBackIff(pts: seq<nat>, wm: nat, next: int, pending: bool, after: bool, owed: set<nat>)
    requires Ascending(pts)
    ensures HoldsBack(pts, wm, next, pending, after, owed) <==>
            forall e: nat :: e in owed && e in pts && e > wm ==>
                               pending && (wm < next <= e || (next <= wm && !after))
  {
    var start, end := SearchInts(pts, wm + 1), PushEnd(pts, wm, next, pending, after);
    forall e: nat | e in pts
      ensures e in pts[start..end] <==> e > wm && !(pending && (wm < next <= e || (next <= wm && !after)))
    {
      InShareIff(pts, wm, next, pending, after, e);
    }
  }

  lemma InShareIff(pts: seq<nat>, wm: nat, next: int, pending: bool, after: bool, e: nat)
    requires Ascending(pts) && e in pts
    ensures e in pts[SearchInts(pts, wm + 1)..PushEnd(pts, wm, next, pending, after)] <==>
            e > wm && !(pending && (wm < next <= e || (next <= wm && !after)))
  {
    var start, end := SearchInts(pts, wm + 1), PushEnd(pts, wm, next, pending, after);
    var k :| 0 <= k < |pts| && pts[k] == e;
    assert e in pts[start..end] <==> start <= k < end by {
      if start <= k < end {
        assert pts[start..end][k - start] == e;
      }
    }
  }

  /** The events that outstanding barriers are for, named or not. */
  function Owed(due: Promise, s: State): set<nat> {
    set id | id in Ids(Queue(s)) && Due(due, id) > 0 :: Due(due, id)
  }

  /** A push holds one of them. */
  ghost predicate Takes(a: Action, owed: set<nat>)
    requires a.Push?
  {
    exists p: nat :: p in owed && p in a.items
  }

  /** A push that skips nothing holds an event owed if and only if one that renders lies in its
      range, which it could test of the named barriers when it tests the watermark. */
  lemma PushTakesIff(acct: Account, a: Action, owed: set<nat>)
    requires a.Push? && Whole(acct, a.expected, a.items, a.hi)
    requires forall p: nat :: p in owed && p <= |acct.log| ==> p !in acct.gone
    ensures Takes(a, owed) <==> exists p: nat :: p in owed && a.expected < p <= a.hi
  {
    if p: nat :| p in owed && a.expected < p <= a.hi {
      assert p in a.items;
    }
    if p: nat :| p in owed && p in a.items {
      assert a.expected < p <= a.hi;
    }
  }

  /** So a push below the floor of the last look goes wrong if and only if a barrier registered
      after the look is for an event in its range. */
  lemma RaceIff(acct: Account, due: Promise, look: Look, s: State, a: Action)
    requires Disciplined(acct, due, s) && Above(due, look, s)
    requires a.Push? && Whole(acct, a.expected, a.items, a.hi) && a.hi < look.floor
    ensures Takes(a, Owed(due, s)) <==>
            exists id :: id in Ids(Queue(s)) && id > look.mark && a.expected < Due(due, id) <= a.hi
  {
    var owed := Owed(due, s);
    forall p: nat | p in owed && p <= |acct.log| ensures p !in acct.gone {
      var i :| 0 <= i < |Queue(s)| && Due(due, Queue(s)[i].id) == p;
      assert Kept(acct, due, Queue(s)[i]);
    }
    PushTakesIff(acct, a, owed);
    if id :| id in Ids(Queue(s)) && id > look.mark && a.expected < Due(due, id) <= a.hi {
      assert Due(due, id) in owed;
    }
    if p: nat :| p in owed && a.expected < p <= a.hi {
      var id :| id in Ids(Queue(s)) && Due(due, id) == p;
      assert id > look.mark;
    }
  }

  /** A reading that shows nothing pending, a retry that registers its known event 2, and then
      the push that was decided by the reading: all barriers are in order, and event 2 goes out. */
  lemma RaceCrosses(acct: Account, due: Promise, s: State, t: State, a: Action)
    requires acct == Account(1, [NewMessage, NewMessage, NewMessage], {}) && Due(due, 1) == 2
    requires s == State(1, 7, 1, [], [], false, 0) && t == Apply(s, Begin(1, 7, 2))
    requires a == Push(1, 1, [2, 3], 3, Sent)
    ensures Pending(s, 1) == (0, false) && Lawful(acct, t, a) && Writes(t, a)
    ensures Permitted(acct, due, true, s, Begin(1, 7, 2)) && Takes(a, Owed(due, t))
  {
    assert Queue(t) == [Barrier(1, 2, false)];
    assert Queue(t)[0].id in Ids(Queue(t));
    assert Due(due, 1) in Owed(due, t) && a.items[0] == 2;
    assert a.items[1] == 3;
  }

  /** Barriers for events 2, one not named yet, and 4: once 2 is accounted, the suffix after
      it runs over the unnamed barrier and takes event 4 along. */
  lemma SuffixCrosses(due: Promise)
    requires Due(due, 3) == 4
    ensures
      var s := State(1, 7, 1, [Barrier(1, 2, true), Barrier(2, 0, false), Barrier(3, 4, false)], [], false, 3);
      var t := Apply(s, Mark(1, 7, 2));
      var pts := [2, 3, 4];
      && t.watermark == 2 && Pending(t, 1) == (0, true)
      && SuffixEnd(pts, 0, 2, 0, true) == 3
      && Crosses(due, 3, t, Push(1, 2, pts[1..3], 4, Sent))
  {
    var q := [Barrier(1, 2, true), Barrier(2, 0, false), Barrier(3, 4, false)];
    var s := State(1, 7, 1, q, [], false, 3);
    var t := Apply(s, Mark(1, 7, 2));
    var pts := [2, 3, 4];
    assert t.pending == q[1..] && t.pending[1] == Barrier(3, 4, false);
    assert Queue(t)[1].id in Ids(Queue(t));
    assert pts[1..3][1] == 4;
  }

  /** Barriers for events 9 and 2 reported in that order: in a window that ends at 3 nothing
      is waited for, and the push takes event 2 along. */
  lemma PlainCrosses(due: Promise)
    requires Due(due, 2) == 2
    ensures
      var s := State(1, 7, 1, [Barrier(1, 9, false), Barrier(2, 2, false)], [], false, 2);
      var pts := [2, 3];
      && Pending(s, 1) == (9, true)
      && PushEnd(pts, 1, 9, true, false) == 2
      && Crosses(due, 2, s, Push(1, 1, pts[0..2], 3, Sent))
  {
    var s := State(1, 7, 1, [Barrier(1, 9, false), Barrier(2, 2, false)], [], false, 2);
    var pts := [2, 3];
    assert SearchInts(pts, 9) == 2;
    assert Queue(s)[1].id in Ids(Queue(s));
    assert pts[0..2][0] == 2;
  }

  /** Barriers for event 2, which no longer renders, and 3.  The keyed notification of 2 does not
      wait for its own barrier, finds its event missing from the window, and takes 3 along. */
  lemma UnrenderedCrosses(due: Promise)
    requires Due(due, 2) == 3
    ensures
      var acct := Account(1, [NewMessage, NewMessage, NewMessage], {2});
      var b := Batch([NewMessage], [3], 3, 3, false);
      var s := State(1, 7, 1, [Barrier(1, 2, true), Barrier(2, 3, false)], [], false, 2);
      && Covers(acct, 1, b) && Pending(s, 1) == (2, true) && Keyed(Suppressed(7, 2), s.authKey, 2, s.watermark)
      && b.pts[SearchInts(b.pts, 2)] != 2
      && Crosses(due, 2, s, Push(1, 1, b.pts, 3, Sent))
  {
    var b := Batch([NewMessage], [3], 3, 3, false);
    var s := State(1, 7, 1, [Barrier(1, 2, true), Barrier(2, 3, false)], [], false, 2);
    assert b.pts[0] == 3;
    assert Queue(s)[1].id in Ids(Queue(s));
  }

  /** A log whose only event no longer renders leaves a connection below the head. */
  lemma StaysBelowHead(key: int)
    ensures
      var acct := Account(1, [NewMessage], {1});
      var b := Batch([], [], 1, 1, false);
      && Covers(acct, 0, b) && Reaches(0, b)
      && QuietShare(State(1, key, 0, [], [], false, 0), 0, b)
         == (State(1, key, 0, [], [], false, 0), Share(false, false))
  {
  }
}
