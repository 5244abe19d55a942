/**
 The login limiter: per address, a slice of recent attempts that is filtered in
 place on every call.  It answers as if it kept every attempt ever made.
 Times are in nanoseconds.
 */
module LoginLimit {

  const WINDOW: int := 30_000_000_000
  const MAX_ATTEMPTS: nat := 5
  const DELAY: int := 2_000_000_000

  /** A Go slice: the first `len` cells of its backing array. */
  datatype Slice = Slice(cells: array<int>, len: nat)

  /** The attempts later than a moment, in order. */
  function Later(times: seq<int>, start: int): seq<int> {
    if times == [] then []
    else
      var n := |times| - 1;
      Later(times[..n], start) + if times[n] > start then [times[n]] else []
  }

  /** Filtering a filtered list by a later moment is filtering the whole list. */
  lemma {:induction false} LaterTwice(times: seq<int>, start: int, later: int)
    requires start <= later
    ensures Later(Later(times, start), later) == Later(times, later)
  {
    if times != [] {
      var n := |times| - 1;
      LaterTwice(times[..n], start, later);
      if times[n] > start {
        LaterSnoc(Later(times[..n], start), times[n], later);
      } else {
        assert Later(times, start) == Later(times[..n], start);
      }
    }
  }

  lemma LaterSnoc(times: seq<int>, t: int, start: int)
    ensures Later(times + [t], start) == Later(times, start) + if t > start then [t] else []
  {
    assert (times + [t])[..|times|] == times;
  }

  /** Keep the attempts after `start`, writing them over the front of the same array. */
  method Prune(times: Slice, start: int) returns (kept: Slice)
    requires times.len <= times.cells.Length
    modifies times.cells
    ensures kept.cells == times.cells && kept.len <= times.len
    ensures kept.cells[..kept.len] == Later(old(times.cells[..times.len]), start)
  {
    var a, k := times.cells, 0;
    ghost var was := a[..times.len];
    for i := 0 to times.len
      invariant k <= i && a[..k] == Later(was[..i], start)
      invariant forall j :: i <= j < times.len ==> a[j] == was[j]
    {
      assert was[..i + 1][..i] == was[..i];
      if a[i] > start {
        a[k] := a[i];
        k := k + 1;
      }
    }
    assert was[..times.len] == was;
    kept := Slice(a, k);
  }

  /** Go's append: in place while there is room, otherwise into a larger array. */
  method Append(s: Slice, t: int) returns (r: Slice)
    requires s.len <= s.cells.Length
    modifies s.cells
    ensures r.len == s.len + 1 <= r.cells.Length
    ensures r.cells == s.cells || fresh(r.cells)
    ensures r.cells[..r.len] == old(s.cells[..s.len]) + [t]
  {
    if s.len < s.cells.Length {
      s.cells[s.len] := t;
      return Slice(s.cells, s.len + 1);
    }
    var bigger := new int[2 * s.len + 1];
    forall i | 0 <= i < s.len {
      bigger[i] := s.cells[i];
    }
    bigger[s.len] := t;
    return Slice(bigger, s.len + 1);
  }

  /** The attempts inside the window that ends at the last of them. */
  function Recent(times: seq<int>): seq<int> {
    if times == [] then [] else Later(times, times[|times| - 1] - WINDOW)
  }

  lemma RecentOf(times: seq<int>, now: int)
    ensures Recent(times + [now]) == Later(times, now - WINDOW) + [now]
  {
    LaterSnoc(times, now, now - WINDOW);
  }

  lemma RecentSnoc(times: seq<int>, now: int)
    requires times != [] ==> times[|times| - 1] <= now
    ensures Recent(times + [now]) == Later(Recent(times), now - WINDOW) + [now]
  {
    RecentOf(times, now);
    if times != [] {
      LaterTwice(times, times[|times| - 1] - WINDOW, now - WINDOW);
    }
  }

  /** The slice holds exactly these values. */
  ghost predicate Reads(s: Slice, values: seq<int>)
    reads s.cells
  {
    s.len == |values| <= s.cells.Length && s.cells[..s.len] == values
  }

  /** Drop what has left the window, then add this attempt. */
  method Renew(s: Slice, now: int, ghost past: seq<int>) returns (r: Slice)
    requires Reads(s, Recent(past)) && (past != [] ==> past[|past| - 1] <= now)
    modifies s.cells
    ensures Reads(r, Recent(past + [now])) && (r.cells == s.cells || fresh(r.cells))
  {
    RecentSnoc(past, now);
    r := Prune(s, now - WINDOW);
    r := Append(r, now);
  }

  class RateLimiter {
    var attempts: map<string, Slice>
    /** Every attempt ever recorded. */
    ghost var history: map<string, seq<int>>
    /** The address each backing array belongs to. */
    ghost var owner: map<array<int>, string>

    /** The slice of an address is its own and holds the recent attempts of all it recorded. */
    ghost predicate Holds(addr: string)
      reads this, owner.Keys
    {
      && addr in attempts && addr in history
      && attempts[addr].cells in owner && owner[attempts[addr].cells] == addr
      && Reads(attempts[addr], Recent(history[addr]))
    }

    ghost predicate Valid()
      reads this, owner.Keys
    {
      && history.Keys == attempts.Keys
      && forall a :: a in attempts ==> Holds(a)
    }

    constructor ()
      ensures Valid() && history == map[]
    {
      attempts, history, owner := map[], map[], map[];
    }

    /** Record an attempt; the clock does not run backwards. */
    method Record(addr: string, now: int) returns (delay: int)
      requires Valid()
      requires addr in history && history[addr] != [] ==> history[addr][|history[addr]| - 1] <= now
      modifies this, owner.Keys
      ensures Valid() && fresh(owner.Keys - old(owner.Keys))
      ensures history == old(history)[addr := (if addr in old(history) then old(history)[addr] else []) + [now]]
      ensures delay == if |Recent(history[addr])| > MAX_ATTEMPTS then DELAY else 0
    {
      var s;
      if addr in attempts {
        assert Holds(addr);
        s := Renew(attempts[addr], now, history[addr]);
      } else {
        var none := new int[0];
        s := Renew(Slice(none, 0), now, []);
      }
      Install(addr, s, now);
      delay := if s.len > MAX_ATTEMPTS then DELAY else 0;
    }

    method Install(addr: string, s: Slice, ghost now: int)
      requires history.Keys == attempts.Keys
      requires forall a :: a in attempts && a != addr ==> Holds(a) && attempts[a].cells != s.cells
      requires Reads(s, Recent((if addr in history then history[addr] else []) + [now]))
      modifies this
      ensures Valid()
      ensures history == old(history)[addr := (if addr in old(history) then old(history)[addr] else []) + [now]]
      ensures attempts == old(attempts)[addr := s] && owner == old(owner)[s.cells := addr]
    {
      history := history[addr := (if addr in history then history[addr] else []) + [now]];
      attempts := attempts[addr := s];
      owner := owner[s.cells := addr];
    }
  }
}
