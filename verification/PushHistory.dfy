/**
 Whole runs of one connection, seen from one account.  A run is a sequence of
 atomic actions taken by any number of goroutines; `Lawful` is what each of them
 guarantees about its own actions, and what it may therefore rely on in others.
 */
module PushHistory {
  import opened Common
  import opened Transport

  /** The account a run is about: its event log (event i has pts i + 1), and the
      pts of the events some build of the run found nothing to render for. */
  datatype Account = Account(owner: int, log: seq<Kind>, gone: set<nat>)

  /** One advance of the watermark. */
  datatype Entry = Pushed(lo: nat, hi: nat, items: seq<nat>) | Accounted(pts: nat)

  /** A connection with what it was given since its current owner took it over,
      `base` being the watermark at that point. */
  datatype Node = Node(st: State, base: nat, trace: seq<Entry>)

  predicate Bounded(s: seq<nat>, lo: int, hi: int) {
    forall i :: 0 <= i < |s| ==> lo < s[i] <= hi
  }

  /** `items` are all the renderable events of `(lo, hi]`, in order. */
  predicate Whole(acct: Account, lo: nat, items: seq<nat>, hi: nat) {
    && lo < hi <= |acct.log|
    && Ascending(items)
    && Bounded(items, lo, hi)
    && Renders(acct, lo, hi, items)
  }

  predicate Renders(acct: Account, lo: nat, hi: int, items: seq<nat>) {
    forall p: nat :: lo < p <= hi && p !in acct.gone ==> p in items
  }

  /** A push that reaches the wire is whole; accounting that raises the watermark
      steps over nothing renderable; a result names a committed event. */
  predicate Lawful(acct: Account, s: State, a: Action) {
    s.owner == acct.owner ==>
      match a
      case Push(_, expected, items, hi, _) => Writes(s, a) ==> Whole(acct, expected, items, hi)
      case Mark(owner, key, pts) =>
        ApplyMark(s, owner, key, pts).0.watermark > s.watermark ==>
          pts <= |acct.log| && Renders(acct, s.watermark, pts - 1, [])
      case Result(_, _, pts) => pts <= |acct.log|
      case _ => true
  }

  /** What a node records of one action. */
  function Record(n: Node, a: Action): (m: Node)
    ensures m.st == Apply(n.st, a)
  {
    var t := Apply(n.st, a);
    if a.SetOwner? then
      if t.owner == n.st.owner then n else Node(t, 0, [])
    else if t.watermark == n.st.watermark then n.(st := t)
    else if a.Push? then Node(t, n.base, n.trace + [Pushed(n.st.watermark, t.watermark, a.items)])
    else Node(t, n.base, n.trace + [Accounted(t.watermark)])
  }

  function Play(n: Node, acts: seq<Action>): Node {
    if acts == [] then n else Record(Play(n, acts[..|acts| - 1]), acts[|acts| - 1])
  }

  /** Every action was lawful when it was taken. */
  predicate LawfulRun(acct: Account, n: Node, acts: seq<Action>) {
    acts != [] ==>
      var before := acts[..|acts| - 1];
      LawfulRun(acct, n, before) && Lawful(acct, Play(n, before).st, acts[|acts| - 1])
  }

  lemma RunSnoc(acct: Account, n: Node, acts: seq<Action>, a: Action)
    ensures Play(n, acts + [a]) == Record(Play(n, acts), a)
    ensures LawfulRun(acct, n, acts + [a]) == (LawfulRun(acct, n, acts) && Lawful(acct, Play(n, acts).st, a))
  {
    assert (acts + [a])[..|acts|] == acts;
  }

  /** A recorded run, lawful throughout. */
  datatype Telling = Story(acct: Account, init: Node, history: seq<Action>, node: Node)

  predicate Told(r: Telling) {
    LawfulRun(r.acct, r.init, r.history) && r.node == Play(r.init, r.history)
  }

  type Story = r: Telling | Told(r)
    witness Story(Account(0, [], {}), Node(State(0, 0, 0, [], [], false, 0), 0, []), [],
                  Node(State(0, 0, 0, [], [], false, 0), 0, []))

  function Extend(r: Story, a: Action): (t: Story)
    requires Lawful(r.acct, r.node.st, a)
    ensures t.acct == r.acct && t.init == r.init && t.history == r.history + [a]
    ensures t.node == Record(r.node, a)
  {
    RunSnoc(r.acct, r.init, r.history, a);
    Story(r.acct, r.init, r.history + [a], Record(r.node, a))
  }

  // ----- what the connection was given -----

  function Items(e: Entry): seq<nat> {
    match e
    case Pushed(_, _, items) => items
    case Accounted(pts) => [pts]
  }

  function Given(trace: seq<Entry>): seq<nat> {
    if trace == [] then [] else Given(trace[..|trace| - 1]) + Items(trace[|trace| - 1])
  }

  function End(base: nat, trace: seq<Entry>): nat {
    if trace == [] then base
    else match trace[|trace| - 1]
         case Pushed(_, hi, _) => hi
         case Accounted(pts) => pts
  }

  /** Each push starts exactly where what came before it ends. */
  predicate Consecutive(base: nat, trace: seq<Entry>) {
    trace != [] ==>
      var before := trace[..|trace| - 1];
      && Consecutive(base, before)
      && match trace[|trace| - 1]
         case Pushed(lo, hi, items) => End(base, before) == lo < hi && Bounded(items, lo, hi)
         case Accounted(pts) => End(base, before) < pts
  }

  /** The advertised pts never runs past an update the connection was not given,
      and nothing is given twice. */
  predicate Sound(acct: Account, n: Node) {
    n.st.owner == acct.owner ==>
      && n.base <= n.st.watermark
      && Consecutive(n.base, n.trace)
      && End(n.base, n.trace) == n.st.watermark
      && Ascending(Given(n.trace))
      && Bounded(Given(n.trace), n.base, n.st.watermark)
      && Renders(acct, n.base, n.st.watermark, Given(n.trace))
  }

  lemma GivenSnoc(trace: seq<Entry>, e: Entry)
    ensures Given(trace + [e]) == Given(trace) + Items(e)
  {
    assert (trace + [e])[..|trace|] == trace;
  }

  lemma ConsecutiveSnoc(base: nat, trace: seq<Entry>, e: Entry)
    requires Consecutive(base, trace)
    requires match e
             case Pushed(lo, hi, items) => End(base, trace) == lo < hi && Bounded(items, lo, hi)
             case Accounted(pts) => End(base, trace) < pts
    ensures Consecutive(base, trace + [e])
  {
    assert (trace + [e])[..|trace|] == trace;
  }

  /** How an action that keeps the owner moves the watermark, if it does. */
  lemma WatermarkMoves(s: State, a: Action)
    requires !a.SetOwner?
    ensures Apply(s, a).owner == s.owner
    ensures Apply(s, a).watermark >= s.watermark
    ensures Apply(s, a).watermark != s.watermark ==>
              match a
              case Push(_, _, _, hi, _) => Writes(s, a) && Apply(s, a).watermark == hi
              case Mark(_, _, pts) => Apply(s, a).watermark == pts
              case Result(_, _, pts) => Apply(s, a).watermark == pts == s.watermark + 1
              case _ => false
  {
  }

  lemma AdvanceKeepsSound(acct: Account, n: Node, t: State, e: Entry)
    requires Sound(acct, n) && n.st.owner == t.owner == acct.owner
    requires n.st.watermark < t.watermark
    requires e == Accounted(t.watermark) || (e.Pushed? && e.lo == n.st.watermark && e.hi == t.watermark)
    requires Ascending(Items(e)) && Bounded(Items(e), n.st.watermark, t.watermark)
    requires Renders(acct, n.st.watermark, t.watermark, Items(e))
    ensures Sound(acct, Node(t, n.base, n.trace + [e]))
  {
    GivenSnoc(n.trace, e);
    ConsecutiveSnoc(n.base, n.trace, e);
  }

  /** The heart of the no-gap claim: one lawful action, by anyone, keeps a sound node sound. */
  lemma StepKeepsSound(acct: Account, n: Node, a: Action)
    requires Sound(acct, n) && Lawful(acct, n.st, a)
    ensures Sound(acct, Record(n, a))
  {
    var t := Apply(n.st, a);
    if n.st.owner == acct.owner && !a.SetOwner? {
      WatermarkMoves(n.st, a);
      if t.watermark != n.st.watermark {
        var e := if a.Push? then Pushed(n.st.watermark, t.watermark, a.items) else Accounted(t.watermark);
        AdvanceKeepsSound(acct, n, t, e);
      }
    }
  }

  /** No gap and no duplicate, over every interleaving of lawful actions. */
  lemma {:induction false} RunKeepsSound(acct: Account, n: Node, acts: seq<Action>)
    requires Sound(acct, n) && LawfulRun(acct, n, acts)
    ensures Sound(acct, Play(n, acts))
  {
    if acts != [] {
      var before := acts[..|acts| - 1];
      RunKeepsSound(acct, n, before);
      StepKeepsSound(acct, Play(n, before), acts[|acts| - 1]);
    }
  }
}
