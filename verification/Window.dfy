/**
 One hydrated window of an account's log, shared by all of the account's
 connections, and the slices of it a connection can be pushed.
 */
module Window {
  import opened Common
  import opened Transport
  import opened PushHistory

  const MAX_DIFF_EVENTS: nat := 500

  datatype Batch = Batch(ups: seq<Kind>, pts: seq<nat>, statePts: nat, head: nat, more: bool)

  /** The least index whose element is at least `x`. */
  function SearchInts(s: seq<nat>, x: int): (i: nat)
    requires Ascending(s)
    ensures i <= |s|
    ensures forall j :: 0 <= j < i ==> s[j] < x
    ensures forall j :: i <= j < |s| ==> s[j] >= x
  {
    if s == [] || s[0] >= x then 0 else 1 + SearchInts(s[1..], x)
  }

  lemma {:induction false} SearchGrows(s: seq<nat>, x: int, y: int)
    requires Ascending(s) && x <= y
    ensures SearchInts(s, x) <= SearchInts(s, y)
  {
    if s != [] && s[0] < x {
      SearchGrows(s[1..], x, y);
    }
  }

  lemma {:induction false} SearchPast(s: seq<nat>, x: int)
    requires Ascending(s) && forall i :: 0 <= i < |s| ==> s[i] < x
    ensures SearchInts(s, x) == |s|
  {
    if s != [] {
      SearchPast(s[1..], x);
    }
  }

  lemma {:induction false} SearchFinds(s: seq<nat>, k: nat)
    requires Ascending(s) && k < |s|
    ensures SearchInts(s, s[k]) == k
  {
    if k > 0 {
      SearchFinds(s[1..], k - 1);
    }
  }

  /** `b` holds every renderable event of `(from, b.statePts]`, in order. */
  predicate Covers(acct: Account, from: nat, b: Batch) {
    && |b.ups| == |b.pts|
    && Ascending(b.pts)
    && Bounded(b.pts, from, b.statePts)
    && b.statePts <= b.head <= |acct.log|
    && (forall i :: 0 <= i < |b.pts| ==> b.ups[i] == acct.log[b.pts[i] - 1])
    && Renders(acct, from, b.statePts, b.pts)
  }

  /** How far a window reaches: to the head it was read at, or one full batch. */
  predicate Reaches(from: nat, b: Batch) {
    && b.more == (b.head > from + MAX_DIFF_EVENTS)
    && b.statePts == if b.more then from + MAX_DIFF_EVENTS else b.head
  }

  /** buildUpdates: read the head, fetch one event past the cap, render what can be rendered. */
  method BuildUpdates(acct: Account, head: nat, vanished: set<nat>, from: nat) returns (b: Batch)
    requires head <= |acct.log| && vanished <= acct.gone
    ensures Covers(acct, from, b) && Reaches(from, b) && b.head == head
    ensures forall p: nat :: p in b.pts ==> p !in vanished
  {
    var last := Min(head, from + MAX_DIFF_EVENTS + 1);
    var more := last > from + MAX_DIFF_EVENTS;
    if more {
      last := from + MAX_DIFF_EVENTS;
    }
    var ups: seq<Kind>, pts: seq<nat> := [], [];
    var p := from;
    while p < last
      invariant from <= p && (p <= last || p == from)
      invariant |ups| == |pts| && Ascending(pts) && Bounded(pts, from, p)
      invariant forall i :: 0 <= i < |pts| ==> 0 < pts[i] <= |acct.log| && ups[i] == acct.log[pts[i] - 1]
      invariant Renders(acct, from, p, pts)
      invariant forall q: nat :: q in pts ==> q !in vanished
    {
      p := p + 1;
      if p !in vanished {
        ups, pts := ups + [acct.log[p - 1]], pts + [p];
      }
    }
    b := Batch(ups, pts, if more then last else head, head, more);
  }

  lemma SliceIsBounded(pts: seq<nat>, lo: nat, start: nat, end: nat, hi: nat)
    requires Ascending(pts) && start < end <= |pts| && lo < pts[start] && pts[end - 1] <= hi
    ensures Ascending(pts[start..end]) && Bounded(pts[start..end], lo, hi) && lo < hi
  {
    var items := pts[start..end];
    assert forall i :: 0 <= i < |items| ==> items[i] == pts[start + i];
    forall i | 0 <= i < |items| ensures lo < items[i] <= hi {
      assert pts[start] <= pts[start + i] <= pts[end - 1];
    }
  }

  lemma SliceHas(pts: seq<nat>, lo: nat, start: nat, end: nat, hi: nat, p: nat)
    requires Ascending(pts) && start < end <= |pts| && p in pts && lo < p <= hi
    requires forall j :: 0 <= j < start ==> pts[j] <= lo
    requires end < |pts| ==> hi < pts[end]
    ensures p in pts[start..end]
  {
    var k :| 0 <= k < |pts| && pts[k] == p;
    assert start <= k && (end < |pts| ==> pts[k] < pts[end]);
    assert k < end;
    assert pts[start..end][k - start] == p;
  }

  /** A contiguous slice of a window, taken from where the reader stands, is whole. */
  lemma SliceIsWhole(acct: Account, from: nat, b: Batch, lo: nat, start: nat, end: nat, hi: nat)
    requires Covers(acct, from, b) && from <= lo
    requires start < end <= |b.pts|
    requires forall j :: 0 <= j < start ==> b.pts[j] <= lo
    requires lo < b.pts[start]
    requires b.pts[end - 1] <= hi <= b.statePts
    requires end < |b.pts| ==> hi < b.pts[end]
    ensures Whole(acct, lo, b.pts[start..end], hi)
  {
    SliceIsBounded(b.pts, lo, start, end, hi);
    forall p: nat | lo < p <= hi && p !in acct.gone ensures p in b.pts[start..end] {
      assert p in b.pts;
      SliceHas(b.pts, lo, start, end, hi, p);
    }
  }
}
