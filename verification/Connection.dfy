/**
 The served connection with its fields as the server keeps them: three parallel
 slices for the regular barriers, a bounded overflow list and the watermark.
 Each method is one critical section; other goroutines run between them.
 */
module Connection {
  import opened Transport
  import opened PushHistory
  import opened BarrierFacts

  /** The event each barrier id turns out to be for, if its attempt ever commits. */
  type Promise = map<nat, nat>

  /** That event, or 0. */
  function Due(due: Promise, id: nat): nat {
    if id in due then due[id] else 0
  }

  /** A barrier is named for the event promised, and registered for a message that renders. */
  predicate Kept(acct: Account, due: Promise, x: Barrier) {
    && (x.pts > 0 ==> Due(due, x.id) == x.pts)
    && (0 < Due(due, x.id) <= |acct.log| ==> Due(due, x.id) !in acct.gone && IsRPCResult(acct.log[Due(due, x.id) - 1]))
  }

  /** Barriers, named or not, stand in the order of the events they are for. */
  predicate Disciplined(acct: Account, due: Promise, s: State) {
    var q := Queue(s);
    && (forall i :: 0 <= i < |q| ==> q[i].id <= s.nextId && Kept(acct, due, q[i]))
    && (forall i, j :: 0 <= i < j < |q| && Due(due, q[i].id) > 0 && Due(due, q[j].id) > 0 ==>
                         Due(due, q[i].id) < Due(due, q[j].id))
  }

  predicate KeepsOrder(acct: Account, due: Promise, s: State, a: Action) {
    Disciplined(acct, due, Apply(s, a)) && s.nextId <= Apply(s, a).nextId
  }

  /** An action another goroutine may take: lawful, and not a rebind back to the account.
      A caller may ask for barriers that stay in order besides. */
  predicate Permitted(acct: Account, due: Promise, orderly: bool, s: State, a: Action) {
    && Lawful(acct, s, a)
    && a != SetOwner(acct.owner)
    && (orderly && s.owner == acct.owner ==> KeepsOrder(acct, due, s, a))
  }

  /** Where a delivery began, whether it relies on order and whether it is keyed. */
  datatype Context = Context(orderly: bool, keyed: bool, start: State, init: Node, before: seq<Action>,
                             crossed: bool, blind: bool)

  /** What the last look at the barriers showed: of those registered by then, which have ids
      up to `mark`, the ones left are for events from `floor` on, under the same key. */
  datatype Look = Look(floor: int, mark: nat, key: int)

  ghost predicate Above(due: Promise, look: Look, s: State) {
    && look.mark <= s.nextId
    && forall id :: id in Ids(Queue(s)) && id <= look.mark && Due(due, id) > 0 ==>
                      look.floor <= Due(due, id) && s.authKey == look.key
  }

  /** The account does not come back once lost; while it stays, the watermark only
      rises.  Under order, the barriers are in order and the last look still tells. */
  ghost predicate Holds(acct: Account, due: Promise, ctx: Context, look: Look, s: State) {
    s.owner == acct.owner ==>
      && ctx.start.owner == acct.owner
      && ctx.start.watermark <= s.watermark
      && (ctx.orderly ==> Disciplined(acct, due, s) && Above(due, look, s))
  }

  /** A change of key drops every barrier. */
  lemma KeyDrops(s: State, a: Action)
    ensures Apply(s, a).authKey != s.authKey ==> Queue(Apply(s, a)) == []
  {
  }

  lemma AboveStays(due: Promise, look: Look, s: State, a: Action)
    requires Above(due, look, s) && s.nextId <= Apply(s, a).nextId
    ensures Above(due, look, Apply(s, a))
  {
    var t := Apply(s, a);
    KeyDrops(s, a);
    forall id | id in Ids(Queue(t)) && id <= look.mark && Due(due, id) > 0
      ensures look.floor <= Due(due, id) && t.authKey == look.key
    {
      IdsAreOld(s, a, id);
    }
  }

  lemma PermittedKeeps(acct: Account, due: Promise, ctx: Context, look: Look, s: State, a: Action)
    requires Holds(acct, due, ctx, look, s) && Permitted(acct, due, ctx.orderly, s, a)
    ensures Holds(acct, due, ctx, look, Apply(s, a))
    ensures Apply(s, a).owner == acct.owner ==> s.owner == acct.owner && s.watermark <= Apply(s, a).watermark
  {
    if !a.SetOwner? {
      WatermarkMoves(s, a);
    }
    if ctx.orderly && s.owner == acct.owner {
      AboveStays(due, look, s, a);
    }
  }

  /** A push reaching the wire holds the event of an outstanding barrier, named or not, that was
      registered before the last look. */
  ghost predicate Crosses(due: Promise, mark: nat, s: State, a: Action) {
    Writes(s, a) && exists id :: id in Ids(Queue(s)) && id <= mark && Due(due, id) > 0 && Due(due, id) in a.items
  }

  /** The state reached, how it was reached while all was lawful, whether a push of the deliveries
      under study crossed a barrier, and whether one of them pushed blindly: after its keyed event,
      when its reading of the next barrier named no event ahead. */
  datatype Chronicle = Chronicle(st: State, story: Story, lawful: bool, crossed: bool, blind: bool)

  predicate Coherent(acct: Account, c: Chronicle) {
    c.lawful ==> c.story.acct == acct && c.story.node.st == c.st
  }

  function Tell(acct: Account, c: Chronicle, a: Action): (t: Chronicle)
    requires Coherent(acct, c)
    ensures Coherent(acct, t) && t.st == Apply(c.st, a)
  {
    var lawful := c.lawful && Lawful(acct, c.st, a);
    Chronicle(Apply(c.st, a),
              if lawful then Extend(c.story, a) else c.story,
              lawful, c.crossed, c.blind)
  }

  /** A delivery under way: everything so far is lawful, what it relies on still holds, and of
      its own pushes only blind ones crossed a barrier. */
  ghost predicate Ongoing(acct: Account, due: Promise, c: Chronicle, ctx: Context, look: Look) {
    && c.lawful
    && c.story.init == ctx.init && ctx.before <= c.story.history
    && Holds(acct, due, ctx, look, c.st)
    && (ctx.orderly ==> c.crossed == ctx.crossed)
    && (c.blind ==> ctx.blind || ctx.keyed)
  }

  /** What a goroutine may do is what every other one can rely on. */
  lemma OngoingStep(acct: Account, due: Promise, c: Chronicle, ctx: Context, look: Look, a: Action)
    requires Coherent(acct, c) && Ongoing(acct, due, c, ctx, look)
    requires Permitted(acct, due, ctx.orderly, c.st, a)
    ensures Ongoing(acct, due, Tell(acct, c, a), ctx, look)
  {
    PermittedKeeps(acct, due, ctx, look, c.st, a);
  }

  ghost predicate Continues(acct: Account, due: Promise, ctx: Context, look: Look, c: Chronicle, a: Action,
                            t: Chronicle) {
    Ongoing(acct, due, c, ctx, look) && Permitted(acct, due, ctx.orderly, c.st, a) ==> Ongoing(acct, due, t, ctx, look)
  }

  lemma TellContinues(acct: Account, due: Promise, ctx: Context, look: Look, c: Chronicle, a: Action)
    requires Coherent(acct, c)
    ensures Continues(acct, due, ctx, look, c, a, Tell(acct, c, a))
  {
    if Ongoing(acct, due, c, ctx, look) && Permitted(acct, due, ctx.orderly, c.st, a) {
      OngoingStep(acct, due, c, ctx, look, a);
    }
  }

  function Zip(pts: seq<nat>, ids: seq<nat>, ready: seq<bool>): (q: seq<Barrier>)
    requires |pts| == |ids| == |ready|
    ensures |q| == |pts|
    ensures forall i :: 0 <= i < |q| ==> q[i] == Barrier(ids[i], pts[i], ready[i])
  {
    seq(|pts|, i requires 0 <= i < |pts| => Barrier(ids[i], pts[i], ready[i]))
  }

  /** What the rest of the process does, and which socket writes succeed, while a delivery runs. */
  class Traffic {
    const orderly: bool
    var rest: seq<seq<Action>>
    var sends: seq<Wire>

    constructor (orderly: bool, rest: seq<seq<Action>>, sends: seq<Wire>)
      ensures this.orderly == orderly && this.rest == rest && this.sends == sends
    {
      this.orderly, this.rest, this.sends := orderly, rest, sends;
    }

    method NextSend() returns (wire: Wire)
      modifies this`sends
      ensures sends == if old(sends) == [] then [] else old(sends)[1..]
      ensures wire == if old(sends) == [] then Sent else old(sends)[0]
    {
      wire := Sent;
      if sends != [] {
        wire, sends := sends[0], sends[1..];
      }
    }
  }

  class Conn {
    const acct: Account
    const due: Promise
    var owner: int
    var authKey: int
    var watermark: nat
    var pendingOwner: int
    var pendingAuthKey: int
    var pendingPts: seq<nat>
    var pendingIDs: seq<nat>
    var pendingReady: seq<bool>
    var overflow: seq<Barrier>
    var saturated: bool
    var nextId: nat
    ghost var told: Chronicle
    ghost var ctx: Context
    ghost var look: Look

    function View(): State
      requires |pendingPts| == |pendingIDs| == |pendingReady|
      reads this
    {
      State(owner, authKey, watermark, Zip(pendingPts, pendingIDs, pendingReady), overflow, saturated, nextId)
    }

    ghost predicate Valid()
      reads this
    {
      && |pendingPts| == |pendingIDs| == |pendingReady|
      && (pendingPts != [] ==> pendingOwner == owner && pendingAuthKey == authKey)
      && told.st == View()
      && told.st.owner == owner && told.st.authKey == authKey && told.st.watermark == watermark
      && Coherent(acct, told)
    }

    /** The delivery under way sees the connection as it expects. */
    ghost predicate In()
      reads this
    {
      Valid() && Ongoing(acct, due, told, ctx, look)
    }

    /** Begin a delivery. */
    ghost method Enter(orderly: bool, keyed: bool)
      requires Valid() && told.lawful
      requires orderly && owner == acct.owner ==> Disciplined(acct, due, told.st)
      modifies this`ctx, this`look
      ensures In() && look == Look(0, told.st.nextId, authKey)
      ensures ctx == Context(orderly, keyed, told.st, told.story.init, told.story.history, told.crossed, told.blind)
    {
      ctx := Context(orderly, keyed, told.st, told.story.init, told.story.history, told.crossed, told.blind);
      look := Look(0, told.st.nextId, authKey);
    }

    constructor (acct: Account, due: Promise, user: int, key: int, watermark: nat)
      ensures Valid() && this.acct == acct && this.due == due
      ensures told.lawful && !told.crossed && !told.blind && told.st == State(user, key, watermark, [], [], false, 0)
      ensures told.story == Story(acct, Node(told.st, watermark, []), [], Node(told.st, watermark, []))
    {
      this.acct, this.due := acct, due;
      owner, authKey, this.watermark := user, key, watermark;
      pendingOwner, pendingAuthKey := 0, 0;
      pendingPts, pendingIDs, pendingReady, overflow, saturated, nextId := [], [], [], [], false, 0;
      ghost var s := State(user, key, watermark, [], [], false, 0);
      told := Chronicle(s, Story(acct, Node(s, watermark, []), [], Node(s, watermark, [])), true, false, false);
      ctx, look := Context(false, false, s, Node(s, watermark, []), [], false, false), Look(0, 0, key);
    }

    /** Record an action whose effect on the fields is already in place. */
    ghost method Note(a: Action)
      requires |pendingPts| == |pendingIDs| == |pendingReady|
      requires pendingPts != [] ==> pendingOwner == owner && pendingAuthKey == authKey
      requires Coherent(acct, told) && View() == Apply(told.st, a)
      modifies this`told
      ensures Valid() && told == Tell(acct, old(told), a)
      ensures Continues(acct, due, ctx, look, old(told), a, told)
    {
      TellContinues(acct, due, ctx, look, told, a);
      told := Tell(acct, told, a);
    }

    /** Take what the barriers show now as the last look. */
    ghost method See(look': Look)
      requires In() && Holds(acct, due, ctx, look', told.st)
      modifies this`look
      ensures In() && look == look'
    {
      look := look';
    }

    /** Judge a push of the delivery under way by the state it met. */
    ghost method Judge(s: State, a: Action, blind: bool)
      requires In() && (blind ==> ctx.keyed)
      requires ctx.orderly && !blind && s.owner == acct.owner ==> !Crosses(due, look.mark, s, a)
      modifies this`told
      ensures In()
      ensures told.st == old(told.st) && told.blind == (old(told.blind) || blind)
      ensures told.crossed <==> old(told.crossed) || (s.owner == acct.owner && !blind && Crosses(due, look.mark, s, a))
    {
      var crosses := s.owner == acct.owner && !blind && Crosses(due, look.mark, s, a);
      told := told.(crossed := told.crossed || crosses, blind := told.blind || blind);
    }

    // ----- reads -----

    method LastPushedPts() returns (pts: nat)
      ensures pts == watermark
    {
      pts := watermark;
    }

    method PendingRPCUpdate(user: int) returns (pts: int, pending: bool)
      requires Valid()
      ensures (pts, pending) == Pending(told.st, user)
    {
      if pendingOwner == user && |pendingPts| > 0 {
        return pendingPts[0], true;
      }
      if owner == user {
        if |overflow| > 0 {
          return overflow[0].pts, true;
        }
        if saturated {
          return 0, true;
        }
      }
      return 0, false;
    }

    method PendingRPCUpdateReady(user: int) returns (ready: bool)
      requires Valid()
      ensures ready == PendingReady(told.st, user)
    {
      if pendingOwner == user && |pendingPts| > 0 {
        return |pendingReady| > 0 && pendingReady[0];
      }
      if owner == user && |overflow| > 0 {
        return overflow[0].ready;
      }
      return false;
    }

    // ----- writes -----

    method PushToAtWatermark(user: int, expected: nat, items: seq<nat>, pts: nat, wire: Wire)
      returns (pushed: bool, stale: bool, failed: bool)
      requires Valid()
      modifies this`watermark, this`told
      ensures Valid() && watermark >= old(watermark)
      ensures told.st == ApplyPush(old(told.st), Push(user, expected, items, pts, wire))
      ensures pushed == Writes(old(told.st), Push(user, expected, items, pts, wire))
      ensures stale == (wire != Refused && old(owner) == user && old(watermark) != expected)
      ensures failed == (wire == Refused || (wire == Broken && old(owner) == user && old(watermark) == expected))
      ensures Continues(acct, due, ctx, look, old(told), Push(user, expected, items, pts, wire), told)
    {
      pushed, stale, failed := false, false, false;
      if wire == Refused {
        failed := true;
      } else if owner == user {
        if watermark != expected {
          stale := true;
        } else if wire == Broken {
          failed := true;
        } else {
          if pts > watermark {
            watermark := pts;
          }
          pushed := true;
        }
      }
      Note(Push(user, expected, items, pts, wire));
    }

    method RemovePendingAt(index: nat)
      requires index < |pendingPts| == |pendingIDs| == |pendingReady|
      modifies this`pendingPts, this`pendingIDs, this`pendingReady, this`pendingOwner, this`pendingAuthKey
      ensures |pendingPts| == |pendingIDs| == |pendingReady|
      ensures View() == old(View()).(pending := Without(old(View()).pending, index))
      ensures pendingPts != [] ==> pendingOwner == old(pendingOwner) && pendingAuthKey == old(pendingAuthKey)
    {
      pendingPts := pendingPts[..index] + pendingPts[index + 1..];
      pendingIDs := pendingIDs[..index] + pendingIDs[index + 1..];
      pendingReady := pendingReady[..index] + pendingReady[index + 1..];
      assert Zip(pendingPts, pendingIDs, pendingReady)
          == Without(Zip(old(pendingPts), old(pendingIDs), old(pendingReady)), index);
      if |pendingPts| == 0 {
        pendingOwner, pendingAuthKey := 0, 0;
      }
    }

    method MarkRPCUpdateLocked(user: int, key: int, pts: int) returns (ok: bool)
      requires Valid()
      modifies this`watermark, this`pendingPts, this`pendingIDs, this`pendingReady, this`pendingOwner,
               this`pendingAuthKey, this`overflow
      ensures |pendingPts| == |pendingIDs| == |pendingReady|
      ensures pendingPts != [] ==> pendingOwner == owner && pendingAuthKey == authKey
      ensures (View(), ok) == ApplyMark(old(View()), user, key, pts)
    {
      if key == 0 || pts <= 0 || owner != user || authKey != key {
        return false;
      }
      if |pendingPts| > 0 {
        if pendingPts[0] == 0 {
          return false;
        }
        if pendingPts[0] != pts {
          return pts <= watermark;
        }
        if pts > watermark {
          watermark := pts;
        }
        assert Without(View().pending, 0) == View().pending[1..];
        RemovePendingAt(0);
        return true;
      }
      if |overflow| > 0 {
        if overflow[0].pts == 0 {
          return false;
        }
        if overflow[0].pts != pts {
          return pts <= watermark;
        }
        if pts > watermark {
          watermark := pts;
        }
        overflow := overflow[1..];
        return true;
      }
      if pts > watermark {
        watermark := pts;
      }
      return true;
    }

    method MarkRPCUpdate(user: int, key: int, pts: int) returns (ok: bool)
      requires Valid()
      modifies this`watermark, this`pendingPts, this`pendingIDs, this`pendingReady, this`pendingOwner,
               this`pendingAuthKey, this`overflow, this`told
      ensures watermark >= old(watermark)
      ensures Valid()
      ensures told.st == ApplyMark(old(told.st), user, key, pts).0
      ensures ok == ApplyMark(old(told.st), user, key, pts).1
      ensures Continues(acct, due, ctx, look, old(told), Mark(user, key, pts), told)
    {
      ok := MarkRPCUpdateLocked(user, key, pts);
      Note(Mark(user, key, pts));
    }

    /** Find the rightmost barriers for `pts` and mark them ready. */
    method ReadyResult(pts: int) returns (i: int, j: int)
      requires |pendingPts| == |pendingIDs| == |pendingReady|
      modifies this`pendingReady, this`overflow
      ensures |pendingPts| == |pendingIDs| == |pendingReady|
      ensures i == LastIndex(old(View()).pending, pts) && j == LastIndex(old(View()).overflow, pts)
      ensures View() == old(View()).(pending := Readied(old(View()).pending, i),
                        overflow := Readied(old(View()).overflow, j))
    {
      ghost var was := View();
      i := |pendingPts| - 1;
      while i >= 0 && pendingPts[i] != pts
        invariant -1 <= i < |pendingPts|
        invariant forall k :: i < k < |pendingPts| ==> was.pending[k].pts != pts
      {
        i := i - 1;
      }
      j := |overflow| - 1;
      while j >= 0 && overflow[j].pts != pts
        invariant -1 <= j < |overflow|
        invariant forall k :: j < k < |overflow| ==> was.overflow[k].pts != pts
      {
        j := j - 1;
      }
      if i >= 0 {
        pendingReady := pendingReady[i := true];
      }
      if j >= 0 {
        overflow := overflow[j := overflow[j].(ready := true)];
      }
      assert View().pending == Readied(was.pending, i);
    }

    method DropResolved(i: int, j: int)
      requires |pendingPts| == |pendingIDs| == |pendingReady|
      requires i < |pendingPts| && j < |overflow|
      modifies this`pendingPts, this`pendingIDs, this`pendingReady, this`pendingOwner, this`pendingAuthKey,
               this`overflow
      ensures |pendingPts| == |pendingIDs| == |pendingReady|
      ensures View() == Drop(old(View()), i, j)
      ensures pendingPts != [] ==> pendingOwner == old(pendingOwner) && pendingAuthKey == old(pendingAuthKey)
    {
      if i >= 0 {
        RemovePendingAt(i);
      } else if j >= 0 {
        overflow := overflow[..j] + overflow[j + 1..];
      }
    }

    method MarkRPCResultLocked(user: int, key: int, pts: int) returns (ok: bool)
      requires |pendingPts| == |pendingIDs| == |pendingReady|
      requires pendingPts != [] ==> pendingOwner == owner && pendingAuthKey == authKey
      modifies this`watermark, this`pendingPts, this`pendingIDs, this`pendingReady, this`pendingOwner,
               this`pendingAuthKey, this`overflow
      ensures |pendingPts| == |pendingIDs| == |pendingReady|
      ensures pendingPts != [] ==> pendingOwner == owner && pendingAuthKey == authKey
      ensures (View(), ok) == ApplyResult(old(View()), user, key, pts)
    {
      if key == 0 || pts <= 0 || owner != user || authKey != key {
        return false;
      }
      var i, j := ReadyResult(pts);
      ghost var t := View();
      if pts <= watermark + 1 {
        if pts == watermark + 1 {
          watermark := pts;
        }
        assert View() == Raise(t, pts);
        DropResolved(i, j);
      }
      return true;
    }

    /** The result write and its accounting, in one critical section. */
    method SendResultAndMark(user: int, key: int, pts: int) returns (ok: bool)
      requires Valid()
      modifies this`owner, this`authKey, this`watermark, this`pendingOwner, this`pendingAuthKey, this`pendingPts,
               this`pendingIDs, this`pendingReady, this`overflow, this`saturated, this`nextId,
               this`told
      ensures Valid()
      ensures told.st == ApplyResult(old(told.st), user, key, pts).0
      ensures ok == ApplyResult(old(told.st), user, key, pts).1
      ensures Continues(acct, due, ctx, look, old(told), Result(user, key, pts), told)
    {
      ok := MarkRPCResultLocked(user, key, pts);
      Note(Result(user, key, pts));
    }

    method AppendBarrier(user: int, key: int, pts: nat) returns (r: Reservation, ok: bool)
      requires Valid() && user == owner && key == authKey
      modifies this`pendingPts, this`pendingIDs, this`pendingReady, this`pendingOwner, this`pendingAuthKey, this`nextId
      ensures |pendingPts| == |pendingIDs| == |pendingReady|
      ensures pendingOwner == owner && pendingAuthKey == authKey
      ensures nextId == NextId(old(nextId)) && r == Reservation(user, key, nextId, true, false) && ok
      ensures View() == old(View()).(nextId := nextId, pending := old(View()).pending + [Barrier(nextId, pts, false)])
    {
      nextId := NextId(nextId);
      pendingOwner, pendingAuthKey := user, key;
      pendingPts, pendingIDs, pendingReady := pendingPts + [pts], pendingIDs + [nextId], pendingReady + [false];
      assert View().pending == old(View()).pending + [Barrier(nextId, pts, false)];
      return Reservation(user, key, nextId, true, false), true;
    }

    method ReserveBarrier(user: int, key: int, pts: int) returns (r: Reservation, ok: bool)
      requires Valid()
      modifies this`pendingPts, this`pendingIDs, this`pendingReady, this`pendingOwner, this`pendingAuthKey,
               this`overflow, this`saturated, this`nextId
      ensures |pendingPts| == |pendingIDs| == |pendingReady|
      ensures pendingPts != [] ==> pendingOwner == owner && pendingAuthKey == authKey
      ensures (View(), r, ok) == ApplyBegin(old(View()), user, key, pts)
    {
      if user <= 0 || key == 0 || pts < 0 || owner != user || authKey != key {
        return Reservation(0, 0, 0, false, false), false;
      }
      var i := FirstWithPts(View().pending, pts);
      var j := FirstWithPts(overflow, pts);
      if pts > 0 && i < |pendingPts| {
        return Reservation(user, key, pendingIDs[i], false, false), true;
      }
      if pts > 0 && j < |overflow| {
        return Reservation(user, key, overflow[j].id, false, true), true;
      }
      if saturated || |overflow| >= MAX_OVERFLOW {
        saturated := true;
        return Reservation(user, key, 0, false, true), false;
      }
      if |overflow| > 0 || |pendingPts| >= MAX_PENDING {
        nextId := NextId(nextId);
        overflow := overflow + [Barrier(nextId, 0, false)];
        return Reservation(user, key, nextId, true, true), false;
      }
      r, ok := AppendBarrier(user, key, pts);
    }

    method BeginRPCUpdateAttempt(user: int, key: int, pts: int) returns (r: Reservation, ok: bool)
      requires Valid()
      modifies this`owner, this`authKey, this`watermark, this`pendingOwner, this`pendingAuthKey, this`pendingPts,
               this`pendingIDs, this`pendingReady, this`overflow, this`saturated, this`nextId,
               this`told
      ensures Valid()
      ensures (told.st, r, ok) == ApplyBegin(old(told.st), user, key, pts)
      ensures Continues(acct, due, ctx, look, old(told), Begin(user, key, pts), told)
    {
      r, ok := ReserveBarrier(user, key, pts);
      Note(Begin(user, key, pts));
    }

    method NameBarrier(r: Reservation, pts: int) returns (ok: bool)
      requires Valid()
      modifies this`pendingPts, this`overflow
      ensures |pendingPts| == |pendingIDs| == |pendingReady|
      ensures pendingPts != [] ==> pendingOwner == owner && pendingAuthKey == authKey
      ensures (View(), ok) == ApplySetPts(old(View()), r, pts)
    {
      if pts <= 0 || owner != r.owner || authKey != r.key {
        return false;
      }
      if r.overflow {
        if r.id == 0 {
          return saturated;
        }
        var i := FirstWithId(overflow, r.id);
        if i == |overflow| {
          return false;
        }
        if r.owned && overflow[i].pts == 0 {
          overflow := overflow[i := overflow[i].(pts := pts)];
          return true;
        }
        return overflow[i].pts == pts;
      }
      if !r.owned {
        return false;
      }
      var i := FirstWithId(View().pending, r.id);
      if i == |pendingPts| {
        return false;
      }
      if pendingPts[i] == 0 {
        pendingPts := pendingPts[i := pts];
        assert View().pending == old(View()).pending[i := old(View()).pending[i].(pts := pts)];
        return true;
      }
      return pendingPts[i] == pts;
    }

    method SetRPCUpdatePtsAttempt(r: Reservation, pts: int) returns (ok: bool)
      requires Valid()
      modifies this`owner, this`authKey, this`watermark, this`pendingOwner, this`pendingAuthKey, this`pendingPts,
               this`pendingIDs, this`pendingReady, this`overflow, this`saturated, this`nextId,
               this`told
      ensures Valid()
      ensures told.st == ApplySetPts(old(told.st), r, pts).0
      ensures ok == ApplySetPts(old(told.st), r, pts).1
      ensures Continues(acct, due, ctx, look, old(told), SetPts(r, pts), told)
    {
      ok := NameBarrier(r, pts);
      Note(SetPts(r, pts));
    }

    method ReleaseBarrier(r: Reservation) returns (ok: bool)
      requires Valid()
      modifies this`pendingPts, this`pendingIDs, this`pendingReady, this`pendingOwner, this`pendingAuthKey,
               this`overflow
      ensures |pendingPts| == |pendingIDs| == |pendingReady|
      ensures pendingPts != [] ==> pendingOwner == owner && pendingAuthKey == authKey
      ensures (View(), ok) == ApplyClear(old(View()), r)
    {
      if !r.owned || owner != r.owner || authKey != r.key {
        return false;
      }
      if r.overflow {
        var i := FirstWithId(overflow, r.id);
        if r.id == 0 || i == |overflow| {
          return false;
        }
        overflow := overflow[..i] + overflow[i + 1..];
        return true;
      }
      var i := FirstWithId(View().pending, r.id);
      if i == |pendingPts| {
        return false;
      }
      RemovePendingAt(i);
      return true;
    }

    method ClearRPCUpdateAttempt(r: Reservation) returns (ok: bool)
      requires Valid()
      modifies this`owner, this`authKey, this`watermark, this`pendingOwner, this`pendingAuthKey, this`pendingPts,
               this`pendingIDs, this`pendingReady, this`overflow, this`saturated, this`nextId,
               this`told
      ensures Valid()
      ensures told.st == ApplyClear(old(told.st), r).0
      ensures ok == ApplyClear(old(told.st), r).1
      ensures Continues(acct, due, ctx, look, old(told), Clear(r), told)
    {
      ok := ReleaseBarrier(r);
      Note(Clear(r));
    }

    method DropBarriers()
      modifies this`pendingOwner, this`pendingAuthKey, this`pendingPts, this`pendingIDs, this`pendingReady,
               this`overflow, this`saturated
      ensures pendingPts == [] && pendingIDs == [] && pendingReady == [] && overflow == [] && !saturated
    {
      pendingOwner, pendingAuthKey := 0, 0;
      pendingPts, pendingIDs, pendingReady, overflow, saturated := [], [], [], [], false;
    }

    method RebindOwner(user: int)
      requires Valid()
      modifies this`owner, this`watermark, this`pendingOwner, this`pendingAuthKey, this`pendingPts, this`pendingIDs,
               this`pendingReady, this`overflow, this`saturated
      ensures |pendingPts| == |pendingIDs| == |pendingReady|
      ensures pendingPts != [] ==> pendingOwner == owner && pendingAuthKey == authKey
      ensures View() == ApplySetOwner(old(View()), user)
    {
      if owner != user {
        owner, watermark := user, 0;
        DropBarriers();
      }
    }

    method SetOwnerTo(user: int)
      requires Valid()
      modifies this`owner, this`authKey, this`watermark, this`pendingOwner, this`pendingAuthKey, this`pendingPts,
               this`pendingIDs, this`pendingReady, this`overflow, this`saturated, this`nextId,
               this`told
      ensures Valid()
      ensures told.st == ApplySetOwner(old(told.st), user)
      ensures Continues(acct, due, ctx, look, old(told), SetOwner(user), told)
    {
      RebindOwner(user);
      Note(SetOwner(user));
    }

    method SetKeyTo(key: int)
      requires Valid()
      modifies this`owner, this`authKey, this`watermark, this`pendingOwner, this`pendingAuthKey, this`pendingPts,
               this`pendingIDs, this`pendingReady, this`overflow, this`saturated, this`nextId,
               this`told
      ensures Valid()
      ensures told.st == ApplySetKey(old(told.st), key)
      ensures Continues(acct, due, ctx, look, old(told), SetKey(key), told)
    {
      if authKey != key {
        authKey := key;
        DropBarriers();
      }
      Note(SetKey(key));
    }

    // ----- interference -----

    /** One action of another goroutine, if it is one that goroutine may take. */
    method Suffer(orderly: bool, a: Action)
      requires In() && orderly == ctx.orderly
      modifies this`owner, this`authKey, this`watermark, this`pendingOwner, this`pendingAuthKey, this`pendingPts,
               this`pendingIDs, this`pendingReady, this`overflow, this`saturated, this`nextId,
               this`told
      ensures In()
      ensures owner == acct.owner ==> old(owner) == acct.owner && old(watermark) <= watermark
    {
      if !Permitted(acct, due, orderly, View(), a) {
        return;
      }
      PermittedKeeps(acct, due, ctx, look, told.st, a);
      match a {
        case Push(user, expected, items, hi, wire) =>
          var _, _, _ := PushToAtWatermark(user, expected, items, hi, wire);
        case Mark(user, key, pts) => var _ := MarkRPCUpdate(user, key, pts);
        case Result(user, key, pts) => var _ := SendResultAndMark(user, key, pts);
        case Begin(user, key, pts) => var _, _ := BeginRPCUpdateAttempt(user, key, pts);
        case SetPts(r, pts) => var _ := SetRPCUpdatePtsAttempt(r, pts);
        case Clear(r) => var _ := ClearRPCUpdateAttempt(r);
        case SetOwner(user) => SetOwnerTo(user);
        case SetKey(key) => SetKeyTo(key);
      }
    }

    /** Everything other goroutines do before the caller's next critical section. */
    method Yield(sched: Traffic)
      requires In() && sched.orderly == ctx.orderly
      modifies this`owner, this`authKey, this`watermark, this`pendingOwner, this`pendingAuthKey, this`pendingPts,
               this`pendingIDs, this`pendingReady, this`overflow, this`saturated, this`nextId,
               this`told, sched`rest
      ensures In()
      ensures owner == acct.owner ==> old(owner) == acct.owner && old(watermark) <= watermark
      ensures old(sched.rest) == [] ==> sched.rest == [] && told == old(told)
      ensures old(sched.rest) != [] ==> |sched.rest| < |old(sched.rest)|
    {
      if sched.rest == [] {
        return;
      }
      var acts := sched.rest[0];
      sched.rest := sched.rest[1..];
      for k := 0 to |acts|
        invariant In() && sched.rest == old(sched.rest)[1..]
        invariant owner == acct.owner ==> old(owner) == acct.owner && old(watermark) <= watermark
      {
        Suffer(sched.orderly, acts[k]);
      }
    }
  }
}
