/**
 Assembling an upload: the recorded parts are checked to be exactly the ones
 announced, streamed in index order through a reader that holds one part at a
 time, and the file completes only if every recorded byte was written.
 */
module Upload {
  import opened Common

  type Byte = bv8

  datatype Error = MediaInvalid | FileQuota | Internal

  /** A part as recorded: its index, the key of its bytes (empty if none) and their count. */
  datatype Ref = Ref(index: int, key: string, size: int)

  /** What one read gave: `n` bytes, the end of the stream, or an error. */
  datatype Outcome = Filled(n: nat) | Eof | Failed

  // ----- the set of recorded parts -----

  function Upto(k: nat): (s: set<int>)
    ensures |s| == k && forall i :: i in s <==> 0 <= i < k
  {
    if k == 0 then {} else Upto(k - 1) + {k - 1}
  }

  function Indexes(rows: seq<Ref>): (s: set<int>)
    ensures forall x :: x in s <==> exists i :: 0 <= i < |rows| && rows[i].index == x
  {
    if rows == [] then {}
    else
      assert forall i :: 0 <= i < |rows| - 1 ==> rows[i] == rows[..|rows| - 1][i];
      Indexes(rows[..|rows| - 1]) + {rows[|rows| - 1].index}
  }

  /** The primary key: no index twice, none negative. */
  predicate Keyed(rows: seq<Ref>) {
    && (forall i :: 0 <= i < |rows| ==> rows[i].index >= 0)
    && (forall i, j :: 0 <= i < j < |rows| ==> rows[i].index != rows[j].index)
  }

  /** coalesce(max(part_index), -1) */
  function Largest(rows: seq<Ref>): (m: int)
    ensures forall i :: 0 <= i < |rows| ==> rows[i].index <= m
    ensures m == -1 || m in Indexes(rows)
  {
    if rows == [] then -1
    else
      var m, last := Largest(rows[..|rows| - 1]), rows[|rows| - 1].index;
      assert forall i :: 0 <= i < |rows| - 1 ==> rows[i] == rows[..|rows| - 1][i];
      if m >= last then m else if last < -1 then -1 else last
  }

  function Total(rows: seq<Ref>): int {
    if rows == [] then 0 else Total(rows[..|rows| - 1]) + rows[|rows| - 1].size
  }

  lemma {:induction false} IndexCount(rows: seq<Ref>)
    requires Keyed(rows)
    ensures |Indexes(rows)| == |rows|
  {
    if rows != [] {
      var before, last := rows[..|rows| - 1], rows[|rows| - 1].index;
      IndexCount(before);
      assert last !in Indexes(before);
    }
  }

  lemma {:induction false} SubsetSize<T>(a: set<T>, b: set<T>)
    requires a <= b
    ensures |a| <= |b| && (|a| == |b| ==> a == b)
  {
    if x :| x in a {
      SubsetSize(a - {x}, b - {x});
      assert a == a - {x} + {x} && b == b - {x} + {x};
    }
  }

  /** As many parts as announced, the highest index one less: exactly parts 0, 1, and so on. */
  lemma CountAndMaximum(rows: seq<Ref>, parts: nat)
    requires Keyed(rows) && parts > 0
    ensures |rows| == parts && Largest(rows) == parts - 1 <==> Indexes(rows) == Upto(parts)
  {
    IndexCount(rows);
    if |rows| == parts && Largest(rows) == parts - 1 {
      forall x | x in Indexes(rows) ensures x in Upto(parts) {
        var i :| 0 <= i < |rows| && rows[i].index == x;
      }
      SubsetSize(Indexes(rows), Upto(parts));
    }
    if Indexes(rows) == Upto(parts) {
      assert parts - 1 in Indexes(rows);
      var i :| 0 <= i < |rows| && rows[i].index == parts - 1;
    }
  }

  // ----- the stream -----

  /** ReadUploadPart: the bytes under the key, if they are as many as recorded. */
  function Fetch(ref: Ref, bytes: Option<seq<Byte>>): Option<seq<Byte>> {
    if ref.key == "" || bytes.None? || |bytes.value| != ref.size then None else bytes
  }

  predicate Readable(refs: seq<Ref>, blobs: seq<Option<seq<Byte>>>) {
    && |refs| == |blobs|
    && forall i :: 0 <= i < |refs| ==> Fetch(refs[i], blobs[i]).Some?
  }

  function Concat(refs: seq<Ref>, blobs: seq<Option<seq<Byte>>>): (r: seq<Byte>)
    requires Readable(refs, blobs)
    ensures |r| == Total(refs)
  {
    if refs == [] then []
    else Concat(refs[..|refs| - 1], blobs[..|refs| - 1]) + blobs[|refs| - 1].value
  }

  /** Streams the parts; `blobs[i]` is what the store answers when part `i` is fetched. */
  class PartsReader {
    const refs: seq<Ref>
    const blobs: seq<Option<seq<Byte>>>
    const size: int
    var next: nat
    var buf: seq<Byte>
    ghost var given: seq<Byte>

    /** What was handed out and what is buffered are the parts fetched so far, in order. */
    ghost predicate Valid()
      reads this
    {
      && next <= |refs| == |blobs|
      && Readable(refs[..next], blobs[..next])
      && given + buf == Concat(refs[..next], blobs[..next])
    }

    constructor (refs: seq<Ref>, blobs: seq<Option<seq<Byte>>>, size: int)
      requires |refs| == |blobs|
      ensures Valid() && given == [] && next == 0
      ensures this.refs == refs && this.blobs == blobs && this.size == size
    {
      this.refs, this.blobs, this.size := refs, blobs, size;
      next, buf, given := 0, [], [];
    }

    /** The announced size, or the sum of the recorded ones when it is zero. */
    method Size() returns (n: int)
      ensures n == if size != 0 then size else Total(refs)
    {
      if size != 0 {
        return size;
      }
      n := 0;
      for i := 0 to |refs|
        invariant n == Total(refs[..i])
      {
        assert refs[..i + 1][..i] == refs[..i];
        n := n + refs[i].size;
      }
      assert refs[..|refs|] == refs;
    }

    /** Fetch the next part into the empty buffer. */
    method Load() returns (ok: bool)
      requires Valid() && buf == [] && next < |refs|
      modifies this
      ensures Valid() && given == old(given)
      ensures ok == Fetch(refs[old(next)], blobs[old(next)]).Some?
      ensures next == if ok then old(next) + 1 else old(next)
      ensures !ok ==> buf == []
    {
      var payload := Fetch(refs[next], blobs[next]);
      ok := payload.Some?;
      if ok {
        assert refs[..next + 1][..next] == refs[..next] && blobs[..next + 1][..next] == blobs[..next];
        buf := payload.value;
        next := next + 1;
      }
    }

    /** Fill the front of `b`; the rest of it is left alone. */
    method Read(b: array<Byte>) returns (r: Outcome)
      requires Valid()
      modifies this, b
      ensures Valid() && old(next) <= next
      ensures r.Filled? ==> r.n <= b.Length && given == old(given) + b[..r.n] && b[r.n..] == old(b[..])[r.n..]
      ensures r.Filled? && b.Length > 0 ==> r.n > 0
      ensures r.Filled? && next == old(next) ==> |buf| == |old(buf)| - r.n
      ensures r.Eof? ==> next == |refs| && buf == [] && given == old(given)
      ensures r.Failed? ==> next < |refs| && Fetch(refs[next], blobs[next]).None? && given == old(given)
    {
      while buf == []
        invariant Valid() && given == old(given) && old(next) <= next && b[..] == old(b[..])
        invariant next == old(next) ==> buf == old(buf)
        decreases |refs| - next
      {
        if next >= |refs| {
          return Eof;
        }
        var ok := Load();
        if !ok {
          return Failed;
        }
      }
      var n := if b.Length <= |buf| then b.Length else |buf|;
      forall i | 0 <= i < n {
        b[i] := buf[i];
      }
      assert b[..n] == buf[..n] && b[n..] == old(b[..])[n..];
      given := given + buf[..n];
      buf := buf[n..];
      return Filled(n);
    }
  }

  /** A blob writer: reads with whatever buffer sizes it likes until the stream ends.
      Its own write may fail after any number of reads. */
  method Put(reader: PartsReader, sizes: seq<nat>, breaks: Option<nat>) returns (r: Option<seq<Byte>>)
    requires reader.Valid() && reader.next == 0 && reader.given == []
    modifies reader
    ensures r.Some? ==> Readable(reader.refs, reader.blobs) && r.value == Concat(reader.refs, reader.blobs)
    ensures breaks.None? && Readable(reader.refs, reader.blobs) ==> r.Some?
  {
    var out := [];
    var i, turns := 0, 0;
    while true
      invariant reader.Valid() && out == reader.given && i <= |sizes|
      decreases |sizes| - i, |reader.refs| - reader.next, |reader.buf|
    {
      if breaks == Some(turns) {
        return None;
      }
      turns := turns + 1;
      var b := new Byte[if i < |sizes| then sizes[i] else 512];
      i := if i < |sizes| then i + 1 else i;
      var o := reader.Read(b);
      match o {
        case Filled(n) =>
          out := out + b[..n];
        case Eof =>
          assert reader.refs[..reader.next] == reader.refs && reader.blobs[..reader.next] == reader.blobs;
          return Some(out);
        case Failed =>
          return None;
      }
    }
  }

  // ----- assembly -----

  /** The rows that will be read are parts 0, 1, ... in that order, each with bytes. */
  predicate InOrder(refs: seq<Ref>, parts: int) {
    |refs| == parts && forall i :: 0 <= i < |refs| ==> refs[i].index == i && refs[i].size > 0
  }

  /** What goes wrong outside the parts: reading their summary or their list, and the blob
      write, after how many reads. */
  datatype Faults = Faults(summary: bool, listing: bool, breaks: Option<nat>)

  /** When an assembly whose stores do not fail completes. */
  predicate Completes(rows: seq<Ref>, refs: seq<Ref>, blobs: seq<Option<seq<Byte>>>, parts: int, quota: bool) {
    && parts > 0 && Indexes(rows) == Upto(parts) && Total(rows) > 0
    && InOrder(refs, parts)
    && quota
    && Readable(refs, blobs) && Total(refs) == Total(rows)
  }

  method CheckRows(rows: seq<Ref>, parts: int) returns (ok: bool)
    requires Keyed(rows)
    ensures ok == (parts > 0 && Indexes(rows) == Upto(parts) && Total(rows) > 0)
  {
    if parts > 0 {
      CountAndMaximum(rows, parts);
    }
    var n, maxIndex, total := |rows|, Largest(rows), Total(rows);
    ok := !(n != parts || maxIndex != parts - 1 || total <= 0);
  }

  method CheckRefs(refs: seq<Ref>, parts: int) returns (ok: bool)
    ensures ok == InOrder(refs, parts)
  {
    if |refs| != parts {
      return false;
    }
    for i := 0 to |refs|
      invariant forall k :: 0 <= k < i ==> refs[k].index == k && refs[k].size > 0
    {
      if refs[i].index != i || refs[i].size <= 0 {
        return false;
      }
    }
    return true;
  }

  /** Assemble a file.  `rows` are the parts when they were summed up, `refs` when they
      were listed and `blobs` the bytes when they were fetched; uploads may race all three. */
  method AssembleFile(rows: seq<Ref>, refs: seq<Ref>, blobs: seq<Option<seq<Byte>>>, parts: int, quota: bool,
                      sizes: seq<nat>, faults: Faults)
    returns (r: Result<seq<Byte>, Error>)
    requires Keyed(rows) && |refs| == |blobs|
    ensures r.Success? ==> Completes(rows, refs, blobs, parts, quota)
    ensures r.Success? ==> r.value == Concat(refs, blobs) && |r.value| == Total(rows)
    ensures faults == Faults(false, false, None) && Completes(rows, refs, blobs, parts, quota) ==> r.Success?
    ensures faults.summary || faults.listing ==> r.Failure?
    ensures r == Failure(MediaInvalid) <==>
            && !faults.summary
            && (|| !(parts > 0 && Indexes(rows) == Upto(parts) && Total(rows) > 0)
                || (!faults.listing && !InOrder(refs, parts)))
    ensures r == Failure(FileQuota) ==> !quota
  {
    if faults.summary {
      return Failure(Internal);
    }
    var known := CheckRows(rows, parts);
    if !known {
      return Failure(MediaInvalid);
    }
    if faults.listing {
      return Failure(Internal);
    }
    var listed := CheckRefs(refs, parts);
    if !listed {
      return Failure(MediaInvalid);
    }
    if !quota {
      return Failure(FileQuota);
    }
    r := StoreFile(refs, blobs, Total(rows), sizes, faults.breaks);
  }

  /** Write the parts and compare what was written with the recorded total. */
  method StoreFile(refs: seq<Ref>, blobs: seq<Option<seq<Byte>>>, total: int, sizes: seq<nat>, breaks: Option<nat>)
    returns (r: Result<seq<Byte>, Error>)
    requires |refs| == |blobs|
    ensures r.Success? ==> Readable(refs, blobs) && Total(refs) == total && r.value == Concat(refs, blobs)
    ensures r.Failure? ==> r.error == Internal
    ensures breaks.None? && Readable(refs, blobs) && Total(refs) == total ==> r.Success?
  {
    var reader := new PartsReader(refs, blobs, total);
    var written := Put(reader, sizes, breaks);
    if written.None? || |written.value| != total {
      return Failure(Internal);
    }
    return Success(written.value);
  }
}
