/**
 The push state of one served connection: its watermark, and the sender-result
 barriers that hold back updates the client receives in an RPC reply.  Every
 operation here is one critical section of the connection's write lock.
 */
module Transport {

  const MAX_PENDING: nat := 64
  const MAX_OVERFLOW: nat := 64
  const ID_SPACE: nat := 0x1_0000_0000_0000_0000

  /** What an event renders to, as far as delivery distinguishes it. */
  datatype Kind = NewMessage | EditMessage | OtherKind

  predicate IsRPCResult(k: Kind) {
    k.NewMessage? || k.EditMessage?
  }

  /** A sender-result barrier.  `pts == 0` until the store commit returns;
      `ready` once the RPC result reached the wire. */
  datatype Barrier = Barrier(id: nat, pts: nat, ready: bool)

  datatype Reservation = Reservation(owner: int, key: int, id: nat, owned: bool, overflow: bool)

  datatype State = State(owner: int, authKey: int, watermark: nat,
                         pending: seq<Barrier>, overflow: seq<Barrier>,
                         saturated: bool, nextId: nat)

  /** How a write goes: through, broken off by the socket, or refused before any check
      because it could not be encoded or its context was over. */
  datatype Wire = Sent | Broken | Refused

  /** The atomic operations a connection is subject to, from any goroutine.
      `wire` says how the socket write of a push goes. */
  datatype Action =
    | Push(owner: int, expected: nat, items: seq<nat>, hi: nat, wire: Wire)
    | Mark(owner: int, key: int, pts: int)
    | Result(owner: int, key: int, pts: int)
    | Begin(owner: int, key: int, pts: int)
    | SetPts(r: Reservation, pts: int)
    | Clear(r: Reservation)
    | SetOwner(user: int)
    | SetKey(key: int)

  /** The barriers in the order they are reported. */
  function Queue(s: State): seq<Barrier> {
    s.pending + s.overflow
  }

  function Without(q: seq<Barrier>, i: nat): seq<Barrier>
    requires i < |q|
  {
    q[..i] + q[i + 1..]
  }

  // ----- pushes -----

  predicate Writes(s: State, a: Action) {
    a.Push? && a.wire == Sent && a.owner == s.owner && a.expected == s.watermark
  }

  function ApplyPush(s: State, a: Action): State
    requires a.Push?
  {
    if Writes(s, a) && a.hi > s.watermark then s.(watermark := a.hi) else s
  }

  // ----- RPC-result accounting -----

  function Raise(s: State, pts: nat): State {
    if pts > s.watermark then s.(watermark := pts) else s
  }

  /** MarkRPCUpdate: release the head barrier, or report that `pts` is already covered. */
  function ApplyMark(s: State, owner: int, key: int, pts: int): (r: (State, bool))
    ensures r.0.owner == s.owner && r.0.authKey == s.authKey
    ensures r.0.watermark == s.watermark || (r.1 && r.0.watermark == pts > s.watermark)
    ensures r.1 ==> pts <= r.0.watermark
  {
    if key == 0 || pts <= 0 || s.owner != owner || s.authKey != key then (s, false)
    else if s.pending != [] then
      if s.pending[0].pts == 0 then (s, false)
      else if s.pending[0].pts != pts then (s, pts <= s.watermark)
      else (Raise(s, pts).(pending := s.pending[1..]), true)
    else if s.overflow != [] then
      if s.overflow[0].pts == 0 then (s, false)
      else if s.overflow[0].pts != pts then (s, pts <= s.watermark)
      else (Raise(s, pts).(overflow := s.overflow[1..]), true)
    else (Raise(s, pts), true)
  }

  /** The rightmost barrier for `pts`, or -1. */
  function LastIndex(q: seq<Barrier>, pts: int): (i: int)
    ensures -1 <= i < |q|
    ensures 0 <= i ==> q[i].pts == pts
    ensures forall j :: i < j < |q| ==> q[j].pts != pts
  {
    if q == [] then -1
    else if q[|q| - 1].pts == pts then |q| - 1
    else LastIndex(q[..|q| - 1], pts)
  }

  function Readied(q: seq<Barrier>, i: int): seq<Barrier>
    requires i < |q|
  {
    if i < 0 then q else q[i := q[i].(ready := true)]
  }

  /** Remove the barrier found in the regular queue, or else the one found in the overflow. */
  function Drop(s: State, i: int, j: int): State
    requires i < |s.pending| && j < |s.overflow|
  {
    if i >= 0 then s.(pending := Without(s.pending, i))
    else if j >= 0 then s.(overflow := Without(s.overflow, j))
    else s
  }

  /** markRPCResultLocked: an RPC result carrying `pts` was written. */
  function ApplyResult(s: State, owner: int, key: int, pts: int): (r: (State, bool))
    ensures r.0.owner == s.owner && r.0.authKey == s.authKey
    ensures r.0.watermark == s.watermark || (r.1 && r.0.watermark == pts == s.watermark + 1)
  {
    if key == 0 || pts <= 0 || s.owner != owner || s.authKey != key then (s, false)
    else
      var i := LastIndex(s.pending, pts);
      var j := LastIndex(s.overflow, pts);
      var t := s.(pending := Readied(s.pending, i), overflow := Readied(s.overflow, j));
      if pts > s.watermark + 1 then (t, true)
      else
        (Drop(Raise(t, pts), i, j), true)
  }

  // ----- barrier bookkeeping -----

  /** Barrier bookkeeping moves neither the binding nor the watermark. */
  predicate SameBinding(s: State, t: State) {
    t.owner == s.owner && t.authKey == s.authKey && t.watermark == s.watermark
  }

  function FirstWithPts(q: seq<Barrier>, pts: int): (i: nat)
    ensures i <= |q|
    ensures i < |q| ==> q[i].pts == pts
    ensures forall j :: 0 <= j < i ==> q[j].pts != pts
  {
    if q == [] || q[0].pts == pts then 0 else 1 + FirstWithPts(q[1..], pts)
  }

  function FirstWithId(q: seq<Barrier>, id: nat): (i: nat)
    ensures i <= |q|
    ensures i < |q| ==> q[i].id == id
    ensures forall j :: 0 <= j < i ==> q[j].id != id
  {
    if q == [] || q[0].id == id then 0 else 1 + FirstWithId(q[1..], id)
  }

  function NextId(id: nat): nat {
    if id + 1 == ID_SPACE then 1 else id + 1
  }

  /** BeginRPCUpdateAttempt: the new state, the reservation and the reported success. */
  function ApplyBegin(s: State, owner: int, key: int, pts: int): (r: (State, Reservation, bool))
    ensures SameBinding(s, r.0)
  {
    if owner <= 0 || key == 0 || pts < 0 || s.owner != owner || s.authKey != key then
      (s, Reservation(0, 0, 0, false, false), false)
    else
      var i := FirstWithPts(s.pending, pts);
      var j := FirstWithPts(s.overflow, pts);
      if pts > 0 && i < |s.pending| then
        (s, Reservation(owner, key, s.pending[i].id, false, false), true)
      else if pts > 0 && j < |s.overflow| then
        (s, Reservation(owner, key, s.overflow[j].id, false, true), true)
      else if s.saturated then
        (s, Reservation(owner, key, 0, false, true), false)
      else if |s.overflow| >= MAX_OVERFLOW then
        (s.(saturated := true), Reservation(owner, key, 0, false, true), false)
      else
        var id := NextId(s.nextId);
        if s.overflow != [] || |s.pending| >= MAX_PENDING then
          (s.(nextId := id, overflow := s.overflow + [Barrier(id, 0, false)]),
           Reservation(owner, key, id, true, true), false)
        else
          (s.(nextId := id, pending := s.pending + [Barrier(id, pts, false)]),
           Reservation(owner, key, id, true, false), true)
  }

  /** SetRPCUpdatePtsAttempt: name the committed event on the attempt's own barrier. */
  function ApplySetPts(s: State, r: Reservation, pts: int): (t: (State, bool))
    ensures SameBinding(s, t.0)
  {
    if pts <= 0 || s.owner != r.owner || s.authKey != r.key then (s, false)
    else if r.overflow then
      if r.id == 0 then (s, s.saturated)
      else
        var i := FirstWithId(s.overflow, r.id);
        if i == |s.overflow| then (s, false)
        else if r.owned && s.overflow[i].pts == 0 then
          (s.(overflow := s.overflow[i := s.overflow[i].(pts := pts)]), true)
        else (s, s.overflow[i].pts == pts)
    else if !r.owned then (s, false)
    else
      var i := FirstWithId(s.pending, r.id);
      if i == |s.pending| then (s, false)
      else if s.pending[i].pts == 0 then
        (s.(pending := s.pending[i := s.pending[i].(pts := pts)]), true)
      else (s, s.pending[i].pts == pts)
  }

  /** ClearRPCUpdateAttempt: release the attempt's own barrier. */
  function ApplyClear(s: State, r: Reservation): (t: (State, bool))
    ensures SameBinding(s, t.0)
  {
    if !r.owned || s.owner != r.owner || s.authKey != r.key then (s, false)
    else if r.overflow then
      var i := FirstWithId(s.overflow, r.id);
      if r.id == 0 || i == |s.overflow| then (s, false)
      else (s.(overflow := Without(s.overflow, i)), true)
    else
      var i := FirstWithId(s.pending, r.id);
      if i == |s.pending| then (s, false)
      else (s.(pending := Without(s.pending, i)), true)
  }

  // ----- rebinding -----

  function NoBarriers(s: State): State {
    s.(pending := [], overflow := [], saturated := false)
  }

  function ApplySetOwner(s: State, user: int): State {
    if s.owner == user then s else NoBarriers(s).(owner := user, watermark := 0)
  }

  function ApplySetKey(s: State, key: int): State {
    if s.authKey == key then s else NoBarriers(s).(authKey := key)
  }

  /** What the delivery path reads: the first barrier, and whether its result was written. */
  function Pending(s: State, owner: int): (int, bool) {
    if s.owner != owner then (0, false)
    else if s.pending != [] then (s.pending[0].pts, true)
    else if s.overflow != [] then (s.overflow[0].pts, true)
    else (0, s.saturated)
  }

  function PendingReady(s: State, owner: int): bool {
    s.owner == owner && Queue(s) != [] && Queue(s)[0].ready
  }

  function Apply(s: State, a: Action): State {
    match a
    case Push(_, _, _, _, _) => ApplyPush(s, a)
    case Mark(owner, key, pts) => ApplyMark(s, owner, key, pts).0
    case Result(owner, key, pts) => ApplyResult(s, owner, key, pts).0
    case Begin(owner, key, pts) => ApplyBegin(s, owner, key, pts).0
    case SetPts(r, pts) => ApplySetPts(s, r, pts).0
    case Clear(r) => ApplyClear(s, r).0
    case SetOwner(user) => ApplySetOwner(s, user)
    case SetKey(key) => ApplySetKey(s, key)
  }
}
