/**
 The recovery queue: an array with a head index whose taken entries are cleared and
 now and then compacted away, beside a membership map.  It behaves as a FIFO
 without duplicates.
 */
module RecoveryQueue {
  import opened Common

  const COMPACT_AT: nat := 256

  predicate AllSome<T>(s: seq<Option<T>>) {
    forall i :: 0 <= i < |s| ==> s[i].Some?
  }

  function Values<T>(s: seq<Option<T>>): (v: seq<T>)
    requires AllSome(s)
    ensures |v| == |s|
  {
    seq(|s|, i requires 0 <= i < |s| => s[i].value)
  }

  predicate Distinct<T(==)>(s: seq<T>) {
    forall i, j :: 0 <= i < j < |s| ==> s[i] != s[j]
  }

  function Members<T>(s: seq<T>): set<T> {
    set x | x in s
  }

  /** The FIFO: entries not already present go to the back, in order. */
  function Queued<T(==)>(q: seq<T>, more: seq<Option<T>>): (r: seq<T>)
    ensures Distinct(q) ==> Distinct(r)
    ensures q <= r
    ensures Members(r) == Members(q) + set x | x in more && x.Some? :: x.value
    decreases |more|
  {
    if more == [] then q
    else
      assert more == [more[0]] + more[1..];
      Queued(if more[0].None? || more[0].value in q then q else q + [more[0].value], more[1..])
  }

  class Queue<T(==)> {
    var items: seq<Option<T>>
    var head: nat
    var queued: set<T>

    ghost predicate Shaped()
      reads this
    {
      && head <= |items|
      && AllSome(items[head..])
      && (forall i :: 0 <= i < head ==> items[i].None?)
    }

    ghost function Contents(): seq<T>
      requires Shaped()
      reads this
    {
      Values(items[head..])
    }

    ghost predicate Valid()
      reads this
    {
      && Shaped()
      && Distinct(Contents())
      && queued == Members(Contents())
      && (head < COMPACT_AT || head * 2 < |items|)
    }

    constructor ()
      ensures Valid() && Contents() == []
    {
      items, head, queued := [], 0, {};
    }

    /** Add a connection at the back unless it is missing or already waiting. */
    method Enqueue(conn: Option<T>)
      requires Valid()
      modifies this
      ensures Valid() && Contents() == Queued(old(Contents()), [conn])
    {
      if conn.None? || conn.value in queued {
        return;
      }
      ghost var before := Contents();
      queued := queued + {conn.value};
      items := items + [conn];
      assert Contents() == before + [conn.value];
    }

    method EnqueueBatch(conns: seq<Option<T>>)
      requires Valid()
      modifies this
      ensures Valid() && Contents() == Queued(old(Contents()), conns)
    {
      for i := 0 to |conns|
        invariant Valid() && Queued(Contents(), conns[i..]) == Queued(old(Contents()), conns)
      {
        assert conns[i..][0] == conns[i] && conns[i..][1..] == conns[i + 1..];
        Enqueue(conns[i]);
      }
    }

    /** Clear the entry at the head and step over it. */
    method Pop() returns (conn: T)
      requires Shaped() && Distinct(Contents()) && queued == Members(Contents())
      requires head < |items|
      modifies this
      ensures Shaped() && |items| == |old(items)| && head == old(head) + 1
      ensures old(Contents()) == [conn] + Contents()
      ensures Distinct(Contents()) && queued == Members(Contents())
    {
      ghost var before := Contents();
      conn := items[head].value;
      items := items[head := None];
      head := head + 1;
      queued := queued - {conn};
      assert items[head..] == old(items[head..])[1..];
      assert before == [conn] + Contents();
      forall x | x in Contents() ensures x != conn {
        var i :| 0 <= i < |Contents()| && Contents()[i] == x;
        assert before[0] != before[i + 1];
      }
      forall i, j | 0 <= i < j < |Contents()| ensures Contents()[i] != Contents()[j] {
        assert before[i + 1] != before[j + 1];
      }
    }

    /** Take up to `limit` connections from the front, oldest first. */
    method Take(limit: int) returns (out: seq<T>)
      requires Valid()
      modifies this
      ensures Valid()
      ensures |out| == if limit <= 0 then 0 else Min(limit, |old(Contents())|)
      ensures old(Contents()) == out + Contents()
    {
      out := [];
      if limit <= 0 {
        return;
      }
      var count := Min(limit, |items| - head);
      if count == 0 {
        return;
      }
      while |out| < count
        invariant Shaped() && |out| <= count == Min(limit, |old(Contents())|)
        invariant old(Contents()) == out + Contents()
        invariant Distinct(Contents()) && queued == Members(Contents())
      {
        var conn := Pop();
        out := out + [conn];
      }
      if head == |items| {
        items, head := [], 0;
      } else if head >= COMPACT_AT && head * 2 >= |items| {
        items, head := items[head..], 0;
      }
    }
  }
}
