/**
 The dashboard broadcaster: one-slot mailboxes that always end up holding the
 newest payload, filled under a lock while their readers drain them without it.
 A payload is known by its publish number; 0 stands for none published yet.
 */
module Broadcaster {
  import opened Common

  const MAX_STREAMS: nat := 32

  datatype Refusal = StreamCapReached | BroadcasterClosed

  /** A stream: its mailbox channel, and what its client was shown, the snapshot it
      started from first. */
  datatype Stream = Stream(slot: Option<nat>, closed: bool, shown: seq<nat>)

  type Streams = map<nat, Stream>

  /** The newest payload a stream was shown or has waiting. */
  function Newest(s: Stream): nat
    requires s.shown != []
  {
    if s.slot.Some? then s.slot.value else s.shown[|s.shown| - 1]
  }

  /** Payloads reach a stream in publishing order, none twice. */
  predicate Orderly(s: Stream, last: nat) {
    && s.shown != [] && Ascending(s.shown)
    && (s.slot.Some? ==> s.shown[|s.shown| - 1] < s.slot.value)
    && Newest(s) <= last
  }

  /** What the client has been or will be shown is a strictly increasing sequence of
      publishes that starts with its snapshot. */
  lemma OrderlyShows(s: Stream, last: nat)
    requires Orderly(s, last)
    ensures Ascending(s.shown + if s.slot.Some? then [s.slot.value] else [])
  {
    if s.slot.Some? {
      AscendingSnoc(s.shown, s.slot.value);
    }
  }

  lemma AscendingSnoc(s: seq<nat>, x: nat)
    requires Ascending(s) && (s != [] ==> s[|s| - 1] < x)
    ensures Ascending(s + [x])
  {
    forall i | 0 <= i < |s| ensures s[i] < x {
      assert s[i] <= s[|s| - 1];
    }
  }

  // ----- what happens to one stream -----

  function Received(s: Stream): Stream {
    if s.slot.Some? then s.(shown := s.shown + [s.slot.value], slot := None) else s
  }

  /** Its reader took what was waiting, or did not. */
  predicate OnlyRead(s: Stream, t: Stream) {
    t == s || t == Received(s)
  }

  /** The payload is next to be shown, or has been; at most the one waiting before it was
      dropped, and only if it had not been read. */
  predicate Replaced(s: Stream, t: Stream, payload: nat) {
    || OnlyRead(s.(slot := Some(payload)), t)
    || OnlyRead(Received(s).(slot := Some(payload)), t)
  }

  lemma ReceivedIsOrderly(s: Stream, last: nat)
    requires Orderly(s, last)
    ensures Orderly(Received(s), last) && Newest(Received(s)) == Newest(s)
  {
    if s.slot.Some? {
      AscendingSnoc(s.shown, s.slot.value);
    }
  }

  lemma ReplacedIsOrderly(s: Stream, t: Stream, last: nat, payload: nat)
    requires Orderly(s, last) && last < payload && Replaced(s, t, payload)
    ensures Orderly(t, payload) && Newest(t) == payload
  {
    ReceivedIsOrderly(s, last);
    ReceivedIsOrderly(s.(slot := Some(payload)), payload);
    ReceivedIsOrderly(Received(s).(slot := Some(payload)), payload);
  }

  /** Closed or not, the client keeps what it was shown. */
  predicate Ended(s: Stream, t: Stream, gone: bool) {
    OnlyRead(s.(closed := s.closed || gone), t)
  }

  // ----- what happens to all of them -----

  /** Only reading happened, except on the streams in `but`. */
  predicate AllRead(a: Streams, b: Streams, but: set<nat>) {
    a.Keys == b.Keys && forall k :: k in a && k !in but ==> OnlyRead(a[k], b[k])
  }

  lemma ReadsCompose(a: Streams, b: Streams, c: Streams, but: set<nat>, more: set<nat>)
    requires AllRead(a, b, but) && AllRead(b, c, more)
    ensures AllRead(a, c, but + more)
  {
    forall k | k in a && k !in but + more ensures OnlyRead(a[k], c[k]) {
      assert OnlyRead(a[k], b[k]) && OnlyRead(b[k], c[k]);
    }
  }

  /** Every stream is orderly, and for every live one the newest publish is shown or waiting. */
  predicate Good(subs: set<nat>, streams: Streams, last: nat) {
    && (forall id :: id in streams ==> Orderly(streams[id], last))
    && (forall id :: id in subs ==> id in streams && !streams[id].closed && Newest(streams[id]) == last)
  }

  lemma ReadIsGood(subs: set<nat>, streams: Streams, last: nat, id: nat)
    requires id in streams && Good(subs, streams, last)
    ensures Good(subs, streams[id := Received(streams[id])], last)
  {
    ReceivedIsOrderly(streams[id], last);
  }

  lemma JoinIsGood(subs: set<nat>, streams: Streams, last: nat, id: nat)
    requires Good(subs, streams, last) && id !in streams
    ensures Good(subs + {id}, streams[id := Stream(None, false, [last])], last)
    ensures |subs + {id}| == |subs| + 1 && (|subs + {id}| == 1 <==> subs == {})
  {
    assert id !in subs;
  }

  lemma LeaveIsGood(subs: set<nat>, streams: Streams, last: nat, id: nat)
    requires Good(subs, streams, last)
    ensures Good(subs - {id}, streams, last) && |subs - {id}| <= |subs|
  {
    if id in subs {
      assert subs - {id} + {id} == subs;
    } else {
      assert subs - {id} == subs;
    }
  }

  /** A fan-out with the streams in `todo` still to be served. */
  predicate Underway(subs: set<nat>, todo: set<nat>, a: Streams, b: Streams, payload: nat) {
    && AllRead(a, b, subs - todo)
    && forall id :: id in subs - todo ==> id in a && Replaced(a[id], b[id], payload)
  }

  /** One turn of the fan-out: `id` got the payload, the others were at most read. */
  lemma FanoutStep(subs: set<nat>, todo: set<nat>, id: nat, a: Streams, b: Streams, c: Streams, payload: nat)
    requires id in todo && todo <= subs <= a.Keys
    requires Underway(subs, todo, a, b, payload)
    requires AllRead(b, c, {id}) && id in b && Replaced(b[id], c[id], payload)
    ensures Underway(subs, todo - {id}, a, c, payload)
  {
    ReadsCompose(a, b, c, subs - todo, {id});
    assert subs - todo + {id} == subs - (todo - {id});
    assert OnlyRead(a[id], b[id]);
    forall k | k in subs - todo ensures Replaced(a[k], c[k], payload) {
      assert Replaced(a[k], b[k], payload) && OnlyRead(b[k], c[k]);
    }
  }

  lemma FanoutIsGood(subs: set<nat>, a: Streams, b: Streams, last: nat, payload: nat)
    requires Good(subs, a, last) && last < payload && Underway(subs, {}, a, b, payload)
    ensures Good(subs, b, payload)
  {
    assert subs - {} == subs;
    forall id | id in b ensures Orderly(b[id], payload) && (id in subs ==> !b[id].closed && Newest(b[id]) == payload) {
      if id in subs {
        ReplacedIsOrderly(a[id], b[id], last, payload);
      } else {
        assert OnlyRead(a[id], b[id]);
        ReceivedIsOrderly(a[id], last);
      }
    }
  }

  /** The streams in `gone` were closed. */
  predicate Shut(a: Streams, b: Streams, gone: set<nat>) {
    a.Keys == b.Keys && forall k :: k in a ==> Ended(a[k], b[k], k in gone)
  }

  lemma ShutIsGood(subs: set<nat>, a: Streams, b: Streams, last: nat)
    requires Good(subs, a, last) && Shut(a, b, subs)
    ensures Good({}, b, last) && forall id :: id in subs ==> id in b && b[id].closed
  {
    forall id | id in b ensures Orderly(b[id], last) {
      ReceivedIsOrderly(a[id].(closed := a[id].closed || id in subs), last);
    }
  }

  lemma ShutCompose(a: Streams, b: Streams, c: Streams, gone: set<nat>, id: nat)
    requires Shut(a, b, gone) && Shut(b, c, {id})
    ensures Shut(a, c, gone + {id})
  {
    forall k | k in a ensures Ended(a[k], c[k], k in gone + {id}) {
      assert Ended(a[k], b[k], k in gone) && Ended(b[k], c[k], k in {id});
    }
  }

  /** No client is shown less than before. */
  predicate Onward(a: Streams, b: Streams) {
    forall k :: k in a ==> k in b && a[k].shown <= b[k].shown
  }

  lemma OnwardOn(a: Streams, b: Streams, c: Streams)
    requires Onward(a, b) && Onward(b, c)
    ensures Onward(a, c)
  {
  }

  lemma FanoutGoesOn(subs: set<nat>, a: Streams, b: Streams, payload: nat)
    requires Underway(subs, {}, a, b, payload)
    ensures Onward(a, b)
  {
    forall k | k in a ensures a[k].shown <= b[k].shown {
      assert if k in subs - {} then Replaced(a[k], b[k], payload) else OnlyRead(a[k], b[k]);
    }
  }

  lemma ShutGoesOn(a: Streams, b: Streams, gone: set<nat>)
    requires Shut(a, b, gone)
    ensures Onward(a, b)
  {
    forall k | k in a ensures a[k].shown <= b[k].shown {
      assert Ended(a[k], b[k], k in gone);
    }
  }

  lemma UpdateGoesOn(a: Streams, id: nat, s: Stream)
    requires id in a ==> a[id].shown <= s.shown
    ensures Onward(a, a) && Onward(a, a[id := s])
  {
  }

  /** What the rest of the server asks of the broadcaster. */
  datatype Call = Publish | Join(id: nat) | Leave(id: nat) | Read(id: nat) | Shutdown

  /** The reads that happen between two steps of the goroutine holding the lock. */
  type Readers = Schedule<nat>

  class Broadcaster {
    var subs: set<nat>
    var streams: Streams
    var last: nat
    var closed: bool
    var wake: bool
    const maxClient: nat

    ghost predicate Valid()
      reads this
    {
      Good(subs, streams, last) && |subs| <= maxClient && (closed ==> subs == {})
    }

    constructor (maxClients: int)
      ensures Valid() && subs == {} && !closed && last == 0
      ensures maxClient == if maxClients <= 0 then MAX_STREAMS else maxClients
    {
      maxClient := if maxClients <= 0 then MAX_STREAMS else maxClients;
      subs, streams, last, closed, wake := {}, map[], 0, false, false;
    }

    /** A reader takes what its channel holds. */
    method Receive(id: nat) returns (payload: Option<nat>, open: bool)
      modifies this`streams
      ensures streams == if id in old(streams) then old(streams)[id := Received(old(streams)[id])] else old(streams)
      ensures id in streams ==> payload == old(streams[id].slot) && open == (payload.Some? || !streams[id].closed)
      ensures old(Valid()) ==> Valid()
    {
      payload, open := None, false;
      if id in streams {
        payload, open := streams[id].slot, streams[id].slot.Some? || !streams[id].closed;
        if Good(subs, streams, last) {
          ReadIsGood(subs, streams, last, id);
        }
        streams := streams[id := Received(streams[id])];
      }
    }

    method Yield(env: Readers)
      modifies this`streams, env
      ensures AllRead(old(streams), streams, {})
    {
      var ids := env.Next();
      for i := 0 to |ids|
        invariant AllRead(old(streams), streams, {})
      {
        ghost var here := streams;
        var _, _ := Receive(ids[i]);
        ReadsCompose(old(streams), here, streams, {}, {});
      }
    }

    /** A non-blocking send; a closed channel must never be sent on. */
    method TrySend(id: nat, payload: nat) returns (sent: bool)
      requires id in streams && !streams[id].closed
      modifies this`streams
      ensures sent == old(streams[id]).slot.None?
      ensures streams == if sent then old(streams)[id := old(streams[id]).(slot := Some(payload))] else old(streams)
    {
      sent := streams[id].slot.None?;
      if sent {
        streams := streams[id := streams[id].(slot := Some(payload))];
      }
    }

    /** The three non-blocking selects for one subscriber, its reader racing them. */
    method Offer(id: nat, payload: nat, env: Readers)
      requires id in streams && !streams[id].closed
      modifies this`streams, env
      ensures AllRead(old(streams), streams, {id})
      ensures Replaced(old(streams[id]), streams[id], payload)
    {
      ghost var a := streams;
      var sent := TrySend(id, payload);
      if !sent {
        Yield(env);
        ghost var b := streams;
        assert OnlyRead(a[id], b[id]);
        streams := streams[id := streams[id].(slot := None)];
        ghost var c := streams;
        Yield(env);
        ghost var d := streams;
        assert OnlyRead(c[id], d[id]);
        sent := TrySend(id, payload);
        ReadsCompose(a, b, c, {}, {id});
        ReadsCompose(a, c, d, {id}, {});
      }
    }

    /** Record the payload as the newest and put it in every mailbox. */
    method Fanout(env: Readers)
      requires Valid()
      modifies this`streams, this`last, env
      ensures Valid() && last == old(last) + 1
      ensures Underway(subs, {}, old(streams), streams, last)
    {
      ghost var before := streams;
      last := last + 1;
      FanoutAll(env);
      FanoutIsGood(subs, before, streams, last - 1, last);
    }

    method FanoutAll(env: Readers)
      requires subs <= streams.Keys && forall id :: id in subs ==> !streams[id].closed
      modifies this`streams, env
      ensures Underway(subs, {}, old(streams), streams, last)
    {
      ghost var before := streams;
      var todo := subs;
      while todo != {}
        invariant todo <= subs && Underway(subs, todo, before, streams, last)
        decreases |todo|
      {
        var id :| id in todo;
        ghost var here := streams;
        assert OnlyRead(before[id], here[id]);
        Offer(id, last, env);
        FanoutStep(subs, todo, id, before, here, streams, last);
        todo := todo - {id};
      }
    }

    /** Register a stream: it starts from the newest payload there is. */
    method Subscribe(id: nat) returns (r: Result<nat, Refusal>)
      requires Valid() && id !in streams
      modifies this`subs, this`streams, this`wake
      ensures Valid()
      ensures r == if closed then Failure(BroadcasterClosed)
                   else if |old(subs)| >= maxClient then Failure(StreamCapReached)
                   else Success(last)
      ensures subs == if r.Success? then old(subs) + {id} else old(subs)
      ensures streams == if r.Success? then old(streams)[id := Stream(None, false, [last])] else old(streams)
      ensures wake == (old(wake) || (r.Success? && old(subs) == {}))
    {
      if closed {
        return Failure(BroadcasterClosed);
      }
      if |subs| >= maxClient {
        return Failure(StreamCapReached);
      }
      JoinIsGood(subs, streams, last, id);
      Register(id, Stream(None, false, [last]));
      r := Success(last);
    }

    method Register(id: nat, s: Stream)
      modifies this`subs, this`streams, this`wake
      ensures subs == old(subs) + {id} && streams == old(streams)[id := s]
      ensures wake == (old(wake) || |subs| == 1)
    {
      streams := streams[id := s];
      subs := subs + {id};
      if |subs| == 1 {
        wake := true;
      }
    }

    method Unsubscribe(id: nat)
      requires Valid()
      modifies this`subs
      ensures Valid() && subs == old(subs) - {id}
    {
      LeaveIsGood(subs, streams, last, id);
      subs := subs - {id};
    }

    method Close(id: nat, env: Readers)
      requires id in streams
      modifies this`streams, env
      ensures Shut(old(streams), streams, {id})
    {
      streams := streams[id := streams[id].(closed := true)];
      ghost var shut := streams;
      Yield(env);
      forall k | k in shut ensures Ended(old(streams)[k], streams[k], k in {id}) {
        assert OnlyRead(shut[k], streams[k]);
      }
    }

    method CloseSubscribers(env: Readers)
      requires subs <= streams.Keys
      modifies this`streams, this`subs, env
      ensures subs == {} && Shut(old(streams), streams, old(subs))
    {
      ghost var before, all := streams, subs;
      while subs != {}
        invariant subs <= all && subs <= streams.Keys && Shut(before, streams, all - subs)
        decreases |subs|
      {
        var id :| id in subs;
        ghost var here := streams;
        Close(id, env);
        ShutCompose(before, here, streams, all - subs, id);
        assert all - subs + {id} == all - (subs - {id});
        subs := subs - {id};
      }
      assert all - subs == all;
    }

    /** End every stream and refuse new ones, readers draining meanwhile. */
    method CloseAll(env: Readers)
      requires Valid()
      modifies this`streams, this`subs, this`closed, env
      ensures Valid() && closed && subs == {}
      ensures Shut(old(streams), streams, old(subs))
    {
      closed := true;
      CloseSubscribers(env);
      ShutIsGood(old(subs), old(streams), streams, last);
    }

    /** Any sequence of calls; reads also happen in the middle of a publish or a shutdown. */
    method Live(calls: seq<Call>, env: Readers)
      requires Valid()
      modifies this, env
      ensures Valid() && old(last) <= last && (old(closed) ==> closed)
      ensures Onward(old(streams), streams)
    {
      for i := 0 to |calls|
        invariant Valid() && old(last) <= last && (old(closed) ==> closed)
        invariant Onward(old(streams), streams)
      {
        ghost var here := streams;
        Serve(calls[i], env);
        OnwardOn(old(streams), here, streams);
      }
    }

    method Serve(call: Call, env: Readers)
      requires Valid()
      modifies this, env
      ensures Valid() && old(last) <= last && (old(closed) ==> closed)
      ensures Onward(old(streams), streams)
    {
      match call {
        case Publish => ServePublish(env);
        case Join(id) => ServeJoin(id);
        case Leave(id) => ServeLeave(id);
        case Read(id) => ServeRead(id);
        case Shutdown => ServeShutdown(env);
      }
    }

    method ServePublish(env: Readers)
      requires Valid()
      modifies this`streams, this`last, env
      ensures Valid() && last == old(last) + 1 && Onward(old(streams), streams)
    {
      ghost var before := streams;
      Fanout(env);
      FanoutGoesOn(subs, before, streams, last);
    }

    method ServeJoin(id: nat)
      requires Valid()
      modifies this`subs, this`streams, this`wake
      ensures Valid() && Onward(old(streams), streams)
    {
      if id !in streams {
        UpdateGoesOn(streams, id, Stream(None, false, [last]));
        var _ := Subscribe(id);
      }
    }

    method ServeLeave(id: nat)
      requires Valid()
      modifies this`subs
      ensures Valid() && Onward(old(streams), streams)
    {
      Unsubscribe(id);
    }

    method ServeRead(id: nat)
      requires Valid()
      modifies this`streams
      ensures Valid() && Onward(old(streams), streams)
    {
      if id in streams {
        UpdateGoesOn(streams, id, Received(streams[id]));
      }
      var _, _ := Receive(id);
    }

    method ServeShutdown(env: Readers)
      requires Valid()
      modifies this`streams, this`subs, this`closed, env
      ensures Valid() && closed && Onward(old(streams), streams)
    {
      ghost var before, all := streams, subs;
      CloseAll(env);
      ShutGoesOn(before, streams, all);
    }
  }
}
