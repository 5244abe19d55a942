/**
 The secret-chat handshake on one chat row: any number of accept and discard
 handlers, each reading the row, issuing one guarded update and telling the other
 party, with their steps interleaved in any way and the store failing at will.
 */
module SecretChat {
  import opened Common

  datatype ChatState = Requested | Active | Discarded

  /** Key material as the responder supplied it. */
  datatype Keys = Keys(gB: seq<bv8>, fingerprint: int)

  datatype Chat = Chat(admin: int, participant: int, state: ChatState, keys: Option<Keys>)

  datatype Call = Accept(user: int, keys: Keys) | Discard(user: int)

  datatype Answer = Accepted(chat: Chat) | Gone | IdInvalid | AlreadyDeclined | AlreadyAccepted | StoreFailed

  /** Where a handler is: about to read, to update, to read again, to notify, or done. */
  datatype Phase = Fresh | Checked | Stale | Notifying(to: int, answer: Answer) | Done(answer: Answer)

  datatype Task = Task(call: Call, phase: Phase)

  /** How a store call goes: as asked, refused, or done but reported as failed. */
  datatype Fault = Fine | Refused | Unreported

  datatype Notice = Notice(accept: bool, to: int)

  /** `accepts` and `discards` count the updates that matched the row. */
  datatype World = World(row: Option<Chat>, tasks: seq<Task>, notices: seq<Notice>, accepts: nat, discards: nat)

  function Other(c: Chat, user: int): int {
    if user == c.admin then c.participant else c.admin
  }

  predicate Party(c: Chat, user: int) {
    user == c.admin || user == c.participant
  }

  // ----- the statements on the row -----

  predicate CanAccept(row: Option<Chat>, user: int) {
    row.Some? && row.value.participant == user && row.value.state == Requested
  }

  predicate CanDiscard(row: Option<Chat>) {
    row.Some? && row.value.state != Discarded
  }

  // ----- one step of one handler -----

  function Go(w: World, i: nat, p: Phase): World
    requires i < |w.tasks|
  {
    w.(tasks := w.tasks[i := w.tasks[i].(phase := p)])
  }

  function ReadFirst(w: World, i: nat, fault: Fault): World
    requires i < |w.tasks|
  {
    var call := w.tasks[i].call;
    if fault != Fine then Go(w, i, Done(StoreFailed))
    else if w.row.None? then Go(w, i, Done(IdInvalid))
    else if call.Accept? && call.user != w.row.value.participant then Go(w, i, Done(IdInvalid))
    else if call.Accept? && w.row.value.state == Discarded then Go(w, i, Done(AlreadyDeclined))
    else if call.Discard? && !Party(w.row.value, call.user) then Go(w, i, Done(IdInvalid))
    else Go(w, i, Checked)
  }

  function UpdateAccept(w: World, i: nat, fault: Fault): World
    requires i < |w.tasks| && w.tasks[i].call.Accept?
  {
    var call := w.tasks[i].call;
    if fault == Refused then Go(w, i, Done(StoreFailed))
    else if !CanAccept(w.row, call.user) then
      Go(w, i, if fault == Fine then Stale else Done(StoreFailed))
    else
      var chat := w.row.value.(state := Active, keys := Some(call.keys));
      Go(w, i, if fault == Fine then Notifying(chat.admin, Accepted(chat)) else Done(StoreFailed))
      .(row := Some(chat), accepts := w.accepts + 1)
  }

  function UpdateDiscard(w: World, i: nat, fault: Fault): World
    requires i < |w.tasks| && w.tasks[i].call.Discard?
  {
    if fault == Refused then Go(w, i, Done(StoreFailed))
    else if !CanDiscard(w.row) then
      Go(w, i, Done(if fault == Fine then Gone else StoreFailed))
    else
      var chat := w.row.value.(state := Discarded);
      Go(w, i, if fault == Fine then Notifying(Other(chat, w.tasks[i].call.user), Gone) else Done(StoreFailed))
      .(row := Some(chat), discards := w.discards + 1)
  }

  /** staleAcceptError: read the row again to tell why the accept matched nothing. */
  function ReadAgain(w: World, i: nat, fault: Fault): World
    requires i < |w.tasks|
  {
    Go(w, i, Done(if fault != Fine then StoreFailed
                  else if w.row.None? then IdInvalid
                  else if w.row.value.state == Discarded then AlreadyDeclined
                  else AlreadyAccepted))
  }

  /** Best effort: a notice that cannot be sent is dropped. */
  function Notify(w: World, i: nat, fault: Fault): World
    requires i < |w.tasks| && w.tasks[i].phase.Notifying?
  {
    var t := w.tasks[i];
    var sent := if fault == Refused then [] else [Notice(t.call.Accept?, t.phase.to)];
    Go(w, i, Done(t.phase.answer)).(notices := w.notices + sent)
  }

  function Step(w: World, i: nat, fault: Fault): World {
    if i >= |w.tasks| then w
    else match w.tasks[i].phase
         case Fresh => ReadFirst(w, i, fault)
         case Checked => if w.tasks[i].call.Accept? then UpdateAccept(w, i, fault) else UpdateDiscard(w, i, fault)
         case Stale => ReadAgain(w, i, fault)
         case Notifying(_, _) => Notify(w, i, fault)
         case Done(_) => w
  }

  /** A run: which handler moves next, and how its store call goes. */
  function Run(w: World, moves: seq<(nat, Fault)>): World {
    if moves == [] then w
    else Step(Run(w, moves[..|moves| - 1]), moves[|moves| - 1].0, moves[|moves| - 1].1)
  }

  /** Any stored chat, and handlers that have not begun. */
  predicate Start(w: World) {
    && (forall i :: 0 <= i < |w.tasks| ==> w.tasks[i].phase == Fresh)
    && w.notices == [] && w.accepts == 0 && w.discards == 0
  }

  // ----- what every reachable world satisfies -----

  function Telling(t: Task, accept: bool): nat {
    if t.phase.Notifying? && t.call.Accept? == accept then 1 else 0
  }

  /** Notices of one kind that handlers are about to send. */
  function Owed(tasks: seq<Task>, accept: bool): nat {
    if tasks == [] then 0 else Owed(tasks[..|tasks| - 1], accept) + Telling(tasks[|tasks| - 1], accept)
  }

  function Sent(notices: seq<Notice>, accept: bool): nat {
    if notices == [] then 0
    else Sent(notices[..|notices| - 1], accept) + if notices[|notices| - 1].accept == accept then 1 else 0
  }

  /** The answer a handler has settled on, if any. */
  function Settled(t: Task): Option<Answer> {
    match t.phase
    case Notifying(_, answer) => Some(answer)
    case Done(answer) => Some(answer)
    case _ => None
  }

  /** What an answer says about the row is true of it. */
  predicate AnswerHolds(call: Call, answer: Answer, row: Option<Chat>) {
    match answer
    case Accepted(_) => call.Accept? && row.Some? && row.value.state != Requested && row.value.keys == Some(call.keys)
    case Gone => call.Discard? && row.Some? && row.value.state == Discarded
    case AlreadyAccepted => call.Accept? && row.Some? && row.value.state != Requested
    case AlreadyDeclined => call.Accept? && row.Some? && row.value.state == Discarded
    case IdInvalid => row.None? || !Allowed(call, row.value)
    case StoreFailed => true
  }

  /** Only the responder may accept, either party may discard. */
  predicate Allowed(call: Call, c: Chat) {
    if call.Accept? then call.user == c.participant else Party(c, call.user)
  }

  /** A checked handler may act, a stale accept met a chat that had moved on, a settled
      answer is true, and a notice goes to the party that did not act. */
  predicate TaskSound(t: Task, row: Option<Chat>) {
    && (t.phase in {Checked, Stale} || t.phase.Notifying? ==> row.Some? && Allowed(t.call, row.value))
    && (t.phase == Stale ==> t.call.Accept? && row.value.state != Requested)
    && (t.phase.Notifying? ==>
          && (t.phase.answer.Accepted? || t.phase.answer == Gone)
          && t.phase.to == if t.call.Accept? then row.value.admin else Other(row.value, t.call.user))
    && (Settled(t).Some? ==> AnswerHolds(t.call, Settled(t).value, row))
  }

  /** Accepts are told to the initiator, discards to a party of the chat. */
  predicate Addressed(n: Notice, row: Option<Chat>) {
    row.Some? && if n.accept then n.to == row.value.admin else Party(row.value, n.to)
  }

  /** At most one update of each kind matched, and each pays for at most one notice. */
  predicate Counted(w: World) {
    && w.accepts <= 1 && (w.accepts == 1 ==> w.row.Some? && w.row.value.state != Requested)
    && w.discards <= 1 && (w.discards == 1 ==> w.row.Some? && w.row.value.state == Discarded)
    && Sent(w.notices, true) + Owed(w.tasks, true) <= w.accepts
    && Sent(w.notices, false) + Owed(w.tasks, false) <= w.discards
  }

  predicate Sound(w: World) {
    && (forall i :: 0 <= i < |w.tasks| ==> TaskSound(w.tasks[i], w.row))
    && (forall i :: 0 <= i < |w.notices| ==> Addressed(w.notices[i], w.row))
    && Counted(w)
  }

  lemma {:induction false} OwedUpdate(tasks: seq<Task>, i: nat, t: Task, accept: bool)
    requires i < |tasks|
    ensures Owed(tasks[i := t], accept) == Owed(tasks, accept) - Telling(tasks[i], accept) + Telling(t, accept)
  {
    var n := |tasks| - 1;
    if i < n {
      OwedUpdate(tasks[..n], i, t, accept);
      assert tasks[i := t][..n] == tasks[..n][i := t];
    } else {
      assert tasks[i := t][..n] == tasks[..n];
    }
  }

  lemma {:induction false} NoneOwed(tasks: seq<Task>, accept: bool)
    requires forall i :: 0 <= i < |tasks| ==> tasks[i].phase == Fresh
    ensures Owed(tasks, accept) == 0
  {
    if tasks != [] {
      NoneOwed(tasks[..|tasks| - 1], accept);
    }
  }

  lemma SentOne(notices: seq<Notice>, n: Notice, accept: bool)
    ensures Sent(notices + [n], accept) == Sent(notices, accept) + if n.accept == accept then 1 else 0
  {
    assert (notices + [n])[..|notices|] == notices;
  }

  /** What may become of the row: nothing, keyed once, or discarded for good with its keys. */
  predicate Evolves(a: Option<Chat>, b: Option<Chat>) {
    || a == b
    || (&& a.Some? && b.Some? && a.value.admin == b.value.admin && a.value.participant == b.value.participant
        && (|| (a.value.state == Requested && b.value.state == Active)
            || (a.value.state != Discarded && b.value.state == Discarded && a.value.keys == b.value.keys)))
  }

  lemma TaskEvolves(t: Task, a: Option<Chat>, b: Option<Chat>)
    requires TaskSound(t, a) && Evolves(a, b)
    ensures TaskSound(t, b)
  {
  }

  lemma StepEvolves(w: World, i: nat, fault: Fault)
    ensures Evolves(w.row, Step(w, i, fault).row)
    ensures i < |w.tasks| ==>
              |Step(w, i, fault).tasks| == |w.tasks| &&
              Step(w, i, fault).tasks == w.tasks[i := Step(w, i, fault).tasks[i]]
  {
  }

  /** The handler that moved is as sound as before. */
  lemma MoverIsSound(w: World, i: nat, fault: Fault)
    requires i < |w.tasks| && TaskSound(w.tasks[i], w.row)
    ensures i < |Step(w, i, fault).tasks| && TaskSound(Step(w, i, fault).tasks[i], Step(w, i, fault).row)
  {
  }

  lemma TasksStaySound(w: World, i: nat, fault: Fault)
    requires forall k :: 0 <= k < |w.tasks| ==> TaskSound(w.tasks[k], w.row)
    ensures forall k :: 0 <= k < |Step(w, i, fault).tasks| ==>
                          TaskSound(Step(w, i, fault).tasks[k], Step(w, i, fault).row)
  {
    if i < |w.tasks| {
      var v := Step(w, i, fault);
      StepEvolves(w, i, fault);
      MoverIsSound(w, i, fault);
      forall k | 0 <= k < |v.tasks| ensures TaskSound(v.tasks[k], v.row) {
        if k != i {
          TaskEvolves(w.tasks[k], w.row, v.row);
        }
      }
    }
  }

  /** A handler comes to owe a notice only by an update that matched. */
  lemma OwingIsPaid(w: World, i: nat, fault: Fault, accept: bool)
    requires i < |w.tasks| && !w.tasks[i].phase.Notifying?
    ensures var v := Step(w, i, fault);
            && v.notices == w.notices && i < |v.tasks|
            && Telling(v.tasks[i], accept) <= if accept then v.accepts - w.accepts else v.discards - w.discards
  {
  }

  /** Each matching update pays for at most one notice, sent or owed. */
  lemma StepPays(w: World, i: nat, fault: Fault, accept: bool)
    ensures var v := Step(w, i, fault);
            var paid := if accept then v.accepts - w.accepts else v.discards - w.discards;
            Sent(v.notices, accept) + Owed(v.tasks, accept) <= Sent(w.notices, accept) + Owed(w.tasks, accept) + paid
  {
    if i < |w.tasks| {
      StepEvolves(w, i, fault);
      OwedUpdate(w.tasks, i, Step(w, i, fault).tasks[i], accept);
      if w.tasks[i].phase.Notifying? {
        SentOne(w.notices, Notice(w.tasks[i].call.Accept?, w.tasks[i].phase.to), accept);
        assert w.notices + [] == w.notices;
      } else {
        OwingIsPaid(w, i, fault, accept);
      }
    }
  }

  lemma NoticesStayAddressed(w: World, i: nat, fault: Fault)
    requires forall k :: 0 <= k < |w.tasks| ==> TaskSound(w.tasks[k], w.row)
    requires forall k :: 0 <= k < |w.notices| ==> Addressed(w.notices[k], w.row)
    ensures forall k :: 0 <= k < |Step(w, i, fault).notices| ==>
                          Addressed(Step(w, i, fault).notices[k], Step(w, i, fault).row)
  {
    StepEvolves(w, i, fault);
  }

  lemma StepKeepsSound(w: World, i: nat, fault: Fault)
    requires Sound(w)
    ensures Sound(Step(w, i, fault))
  {
    TasksStaySound(w, i, fault);
    NoticesStayAddressed(w, i, fault);
    StepCounts(w, i, fault);
  }

  /** An update matches only a row that no update of its kind matched before. */
  lemma UpdatesMatchOnce(w: World, i: nat, fault: Fault)
    ensures var v := Step(w, i, fault);
            && (v.accepts == w.accepts || (v.accepts == w.accepts + 1
                                           && w.row.Some? && w.row.value.state == Requested
                                           && v.row.Some? && v.row.value.state == Active))
            && (v.discards == w.discards || (v.discards == w.discards + 1
                                             && w.row.Some? && w.row.value.state != Discarded
                                             && v.row.Some? && v.row.value.state == Discarded))
  {
  }

  lemma StepCounts(w: World, i: nat, fault: Fault)
    requires Counted(w)
    ensures Counted(Step(w, i, fault))
  {
    StepPays(w, i, fault, true);
    StepPays(w, i, fault, false);
    StepEvolves(w, i, fault);
    UpdatesMatchOnce(w, i, fault);
  }

  lemma {:induction false} RunIsSound(w: World, moves: seq<(nat, Fault)>)
    requires Start(w)
    ensures Sound(Run(w, moves))
  {
    if moves == [] {
      NoneOwed(w.tasks, true);
      NoneOwed(w.tasks, false);
    } else {
      var m := moves[|moves| - 1];
      RunIsSound(w, moves[..|moves| - 1]);
      StepKeepsSound(Run(w, moves[..|moves| - 1]), m.0, m.1);
    }
  }

  // ----- the promises -----

  /** However the handlers interleave, one update accepts and one discards at most, and
      at most one notice of each kind goes out. */
  lemma AtMostOnce(w: World, moves: seq<(nat, Fault)>)
    requires Start(w)
    ensures Run(w, moves).accepts <= 1 && Run(w, moves).discards <= 1
    ensures Sent(Run(w, moves).notices, true) <= 1 && Sent(Run(w, moves).notices, false) <= 1
  {
    RunIsSound(w, moves);
  }

  /** Keys are written once, and never after the chat left the requested state; a
      discarded row never changes again. */
  lemma {:induction false} SettledStays(w: World, moves: seq<(nat, Fault)>, k: nat)
    requires k <= |moves|
    ensures var a, b := Run(w, moves[..k]).row, Run(w, moves).row;
            && (a.Some? && a.value.state != Requested ==>
                  b.Some? && b.value.keys == a.value.keys && b.value.state != Requested)
            && (a.Some? && a.value.state == Discarded ==> b == a)
  {
    if k == |moves| {
      assert moves[..k] == moves;
    } else {
      var before, m := moves[..|moves| - 1], moves[|moves| - 1];
      SettledStays(w, before, k);
      assert before[..k] == moves[..k];
      StepEvolves(Run(w, before), m.0, m.1);
    }
  }

  /** What a step that ends a handler's call answers it. */
  lemma StepAnswers(u: World, i: nat, fault: Fault)
    requires i < |u.tasks| && TaskSound(u.tasks[i], u.row) && !u.tasks[i].phase.Done?
    ensures i < |Step(u, i, fault).tasks|
    ensures Step(u, i, fault).tasks[i].phase == Done(AlreadyAccepted) ==>
              u.tasks[i].phase == Stale && u.row.Some? && u.row.value.state == Active
  {
  }

  /** In every run an accept is told "already accepted" only by a re-read that found the
      chat active. */
  lemma AcceptedMeansActive(w: World, moves: seq<(nat, Fault)>, i: nat, fault: Fault)
    requires Start(w) && i < |Run(w, moves).tasks| && !Run(w, moves).tasks[i].phase.Done?
    ensures var u, v := Run(w, moves), Step(Run(w, moves), i, fault);
            && i < |v.tasks|
            && (v.tasks[i].phase == Done(AlreadyAccepted) ==>
                  u.tasks[i].phase == Stale && u.row.Some? && u.row.value.state == Active)
  {
    RunIsSound(w, moves);
    StepAnswers(Run(w, moves), i, fault);
  }

  /** In every run what a handler was answered is true of the row ever after, and every
      notice went to the party it was for. */
  lemma AnswersAreTrue(w: World, moves: seq<(nat, Fault)>, i: nat)
    requires Start(w) && i < |Run(w, moves).tasks| && Run(w, moves).tasks[i].phase.Done?
    ensures AnswerHolds(Run(w, moves).tasks[i].call, Run(w, moves).tasks[i].phase.answer, Run(w, moves).row)
    ensures forall k :: 0 <= k < |Run(w, moves).notices| ==> Addressed(Run(w, moves).notices[k], Run(w, moves).row)
  {
    RunIsSound(w, moves);
    assert Settled(Run(w, moves).tasks[i]) == Some(Run(w, moves).tasks[i].phase.answer);
  }
}
