/** Replies to runtime commands of one active generation. A command runs for a while, then its reply
    is encoded and offered to the outbound queue: a result, a snapshot rejection when the result does
    not fit in a frame, or a failure when anything threw. The command stays pending until the reply's
    write settles. When a rejection or a failure cannot be queued either, the command goes on after an
    await of its own. Other traffic, send outcomes and closings interleave freely. */
module CommandReplies {
  import Outbox

  datatype Kind = Result | Failure | Rejection
  datatype Reply = Reply(task: nat, kind: Kind, frame: nat)

  /** `Rejecting`: the rejection was refused, the failure is still to be reported. `Doomed`: the failure
      was refused too. `Lost`: that command gave up its id, and its generation is about to close. */
  datatype Phase = Running | Rejecting | Doomed | Writing(frame: nat) | Lost | Done
  datatype Task = Task(command: nat, control: bool, phase: Phase)

  /** `replies` logs every reply frame the queue accepted, in order. */
  datatype Desk = Desk(box: Outbox.Box, tasks: seq<Task>, pending: set<nat>, replies: seq<Reply>)

  const EmptyDesk := Desk(Outbox.EmptyBox, [], {}, [])

  /** How encoding a message ends: a frame, one above the codec's limit, or a validation error. */
  datatype Encoded = Fits(size: nat) | Oversized | Malformed

  /** What the surroundings decide when a command ends. */
  datatype Ending = Ending(succeeded: bool, identity: bool, snapshot: bool,
                           result: Encoded, rejection: Encoded, failure: Encoded)

  datatype Action =
    | Accept(command: nat, control: bool)
    | Finish(task: nat, ending: Ending)
    | Recover(task: nat, ending: Ending)
    | GiveUp(task: nat)
    | Collapse(task: nat)
    | Wake(task: nat)
    | Traffic(action: Outbox.Action)

  /** Framing and admission. `tooLarge` marks the frame-limit error. */
  datatype Posting = Wrote(box: Outbox.Box, frame: nat) | Threw(tooLarge: bool)

  function Post(l: Outbox.Limits, box: Outbox.Box, message: Encoded, control: bool): Posting {
    match message
    case Malformed => Threw(false)
    case Oversized => Threw(box.open)
    case Fits(size) =>
      var (after, verdict) := Outbox.Offer(l, box, size, control);
      if verdict.Accepted? then Wrote(after, verdict.id) else Threw(verdict.TooLarge?)
  }

  function SetPhase(d: Desk, t: nat, phase: Phase): Desk
    requires t < |d.tasks|
  {
    d.(tasks := d.tasks[t := d.tasks[t].(phase := phase)])
  }

  function Shut(d: Desk): Desk {
    if d.box.open then d.(box := Outbox.Close(d.box), pending := {}) else d
  }

  predicate Over(phase: Phase) { phase.Lost? || phase.Done? }

  /** No reply has been queued so far. */
  predicate Unreplied(phase: Phase) { phase.Running? || phase.Rejecting? || phase.Doomed? }

  /** A command is over: its id is free again. */
  function Retire(d: Desk, t: nat, phase: Phase): Desk
    requires t < |d.tasks|
  {
    SetPhase(d, t, phase).(pending := d.pending - {d.tasks[t].command})
  }

  function Written(d: Desk, t: nat, kind: Kind, p: Posting): Desk
    requires t < |d.tasks| && p.Wrote?
  {
    SetPhase(d, t, Writing(p.frame)).(box := p.box, replies := d.replies + [Reply(t, kind, p.frame)])
  }

  /** Report a failure to the host; when even that cannot be queued, the generation will close. */
  function Fallback(l: Outbox.Limits, d: Desk, t: nat, e: Ending): Desk
    requires t < |d.tasks|
  {
    if !d.box.open then Retire(d, t, Done)
    else if !e.identity then Retire(Shut(d), t, Done)
    else
      var p := Post(l, d.box, e.failure, d.tasks[t].control);
      if p.Wrote? then Written(d, t, Failure, p) else SetPhase(d, t, Doomed)
  }

  function Answer(l: Outbox.Limits, d: Desk, t: nat, e: Ending): Desk
    requires t < |d.tasks|
  {
    var p := Post(l, d.box, e.result, d.tasks[t].control);
    if p.Wrote? then Written(d, t, Result, p)
    else if p.tooLarge then
      var q := Post(l, d.box, e.rejection, true);
      if q.Wrote? then Written(d, t, Rejection, q) else SetPhase(d, t, Rejecting)
    else Fallback(l, d, t, e)
  }

  function Conclude(l: Outbox.Limits, d: Desk, t: nat, e: Ending): Desk
    requires t < |d.tasks|
  {
    if !d.box.open then Retire(d, t, Done)
    else if !e.identity then Retire(Shut(d), t, Done)
    else if e.succeeded && e.snapshot then Answer(l, d, t, e)
    else Fallback(l, d, t, e)
  }

  function AcceptCommand(d: Desk, command: nat, control: bool): Desk {
    if !d.box.open then d
    else if command in d.pending then Shut(d)
    else d.(tasks := d.tasks + [Task(command, control, Running)], pending := d.pending + {command})
  }

  function Deliver(l: Outbox.Limits, d: Desk, a: Outbox.Action): Desk {
    var box := Outbox.Step(l, d.box, a);
    d.(box := box, pending := if box.open then d.pending else {})
  }

  function Step(l: Outbox.Limits, d: Desk, a: Action): Desk {
    match a
    case Accept(command, control) => AcceptCommand(d, command, control)
    case Finish(t, e) => if t < |d.tasks| && d.tasks[t].phase == Running then Conclude(l, d, t, e) else d
    case Recover(t, e) => if t < |d.tasks| && d.tasks[t].phase == Rejecting then Fallback(l, d, t, e) else d
    case GiveUp(t) => if t < |d.tasks| && d.tasks[t].phase == Doomed then Retire(d, t, Lost) else d
    case Collapse(t) => if t < |d.tasks| && d.tasks[t].phase == Lost then SetPhase(Shut(d), t, Done) else d
    case Wake(t) =>
      if t < |d.tasks| && d.tasks[t].phase.Writing? && d.tasks[t].phase.frame in d.box.settled
      then Retire(d, t, Done) else d
    case Traffic(b) => Deliver(l, d, b)
  }

  function Run(l: Outbox.Limits, d: Desk, actions: seq<Action>): Desk
    decreases |actions|
  {
    if actions == [] then d else Run(l, Step(l, d, actions[0]), actions[1..])
  }

  // ----- Invariant -----

  predicate Answered(d: Desk, t: nat, f: nat) {
    exists i :: 0 <= i < |d.replies| && d.replies[i].task == t && d.replies[i].frame == f
  }

  predicate Delivered(d: Desk, t: nat) {
    exists i :: 0 <= i < |d.replies| && d.replies[i].task == t && d.replies[i].frame in d.box.completed
  }

  predicate HasReply(phase: Phase) { phase.Writing? || phase.Done? }

  /** The log answers only commands that got as far as a reply, and none twice. */
  predicate LogInv(d: Desk) {
    && (forall i :: 0 <= i < |d.replies| ==> d.replies[i].task < |d.tasks| && HasReply(d.tasks[d.replies[i].task].phase))
    && (forall i, j :: 0 <= i < j < |d.replies| ==> d.replies[i].task != d.replies[j].task)
  }

  predicate TaskInv(d: Desk, t: nat)
    requires t < |d.tasks|
  {
    match d.tasks[t].phase
    case Writing(f) => Answered(d, t, f) && f < |d.box.accepted|
    case Done => d.box.open ==> Delivered(d, t)
    case _ => true
  }

  /** While the generation is open, the pending ids are those of the unfinished commands, each once. */
  predicate PendingInv(d: Desk) {
    && (forall t :: 0 <= t < |d.tasks| && !Over(d.tasks[t].phase) ==> d.tasks[t].command in d.pending)
    && (forall c :: c in d.pending ==> exists t :: 0 <= t < |d.tasks| && !Over(d.tasks[t].phase) && d.tasks[t].command == c)
    && (forall t, u :: 0 <= t < u < |d.tasks| && !Over(d.tasks[t].phase) && !Over(d.tasks[u].phase)
          ==> d.tasks[t].command != d.tasks[u].command)
  }

  ghost predicate Inv(l: Outbox.Limits, d: Desk) {
    && Outbox.Inv(l, d.box) && LogInv(d)
    && (forall t :: 0 <= t < |d.tasks| ==> TaskInv(d, t))
    && if d.box.open then PendingInv(d) else d.pending == {}
  }

  /** Nothing but the queue moved: what was delivered stays delivered. */
  lemma BoxMoves(l: Outbox.Limits, d: Desk, box: Outbox.Box)
    requires Inv(l, d) && Outbox.Inv(l, box)
    requires d.box.completed <= box.completed && |d.box.accepted| <= |box.accepted| && (box.open ==> d.box.open)
    ensures Inv(l, d.(box := box, pending := if box.open then d.pending else {}))
  {
    var after := d.(box := box, pending := if box.open then d.pending else {});
    forall t | 0 <= t < |d.tasks|
      ensures TaskInv(after, t)
    {
      assert TaskInv(d, t);
      TaskCarries(d, after, t);
    }
  }

  lemma TaskCarries(d: Desk, after: Desk, t: nat)
    requires t < |d.tasks| && t < |after.tasks| && TaskInv(d, t) && after.tasks[t] == d.tasks[t]
    requires d.replies <= after.replies && d.box.completed <= after.box.completed
    requires |d.box.accepted| <= |after.box.accepted| && (after.box.open ==> d.box.open)
    ensures TaskInv(after, t)
  {
    match d.tasks[t].phase
    case Writing(f) =>
      var i :| 0 <= i < |d.replies| && d.replies[i].task == t && d.replies[i].frame == f;
      assert after.replies[i] == d.replies[i];
    case Done =>
      if after.box.open {
        var i :| 0 <= i < |d.replies| && d.replies[i].task == t && d.replies[i].frame in d.box.completed;
        assert after.replies[i] == d.replies[i];
      }
    case _ =>
  }

  lemma ShutInv(l: Outbox.Limits, d: Desk)
    requires Inv(l, d)
    ensures Inv(l, Shut(d))
  {
    if d.box.open {
      Outbox.CloseInv(l, d.box);
      BoxMoves(l, d, Outbox.Close(d.box));
    }
  }

  lemma RetireInv(l: Outbox.Limits, d: Desk, t: nat, phase: Phase)
    requires Inv(l, d) && t < |d.tasks| && !Over(d.tasks[t].phase) && Over(phase)
    requires if phase.Lost? then Unreplied(d.tasks[t].phase) else d.box.open ==> Delivered(d, t)
    ensures Inv(l, Retire(d, t, phase))
  {
    var after := Retire(d, t, phase);
    forall u | 0 <= u < |d.tasks|
      ensures TaskInv(after, u)
    {
      assert TaskInv(d, u);
      if u != t {
        TaskCarries(d, after, u);
      } else if d.box.open && phase.Done? {
        var i :| 0 <= i < |d.replies| && d.replies[i].task == t && d.replies[i].frame in d.box.completed;
        assert after.replies[i] == d.replies[i];
      }
    }
    if d.box.open {
      RetirePending(d, t, phase);
    }
  }

  lemma RetirePending(d: Desk, t: nat, phase: Phase)
    requires PendingInv(d) && t < |d.tasks| && !Over(d.tasks[t].phase) && Over(phase)
    ensures PendingInv(Retire(d, t, phase))
  {
    var after := Retire(d, t, phase);
    forall c | c in after.pending
      ensures exists u :: 0 <= u < |after.tasks| && !Over(after.tasks[u].phase) && after.tasks[u].command == c
    {
      var u :| 0 <= u < |d.tasks| && !Over(d.tasks[u].phase) && d.tasks[u].command == c;
      assert after.tasks[u] == d.tasks[u];
    }
    forall u | 0 <= u < |after.tasks| && !Over(after.tasks[u].phase)
      ensures after.tasks[u].command in after.pending
    {
      assert u != t && d.tasks[u] == after.tasks[u];
    }
  }

  lemma PostKeeps(l: Outbox.Limits, box: Outbox.Box, message: Encoded, control: bool)
    requires Outbox.Inv(l, box) && Outbox.ValidLimits(l)
    ensures var p := Post(l, box, message, control);
            p.Wrote? ==>
              && box.open && p.box.open && Outbox.Inv(l, p.box) && p.box.completed == box.completed
              && |box.accepted| == p.frame && |p.box.accepted| == p.frame + 1
  {
    if message.Fits? {
      Outbox.OfferInv(l, box, message.size, control);
    }
  }

  lemma WrittenInv(l: Outbox.Limits, d: Desk, t: nat, kind: Kind, message: Encoded, control: bool)
    requires Inv(l, d) && Outbox.ValidLimits(l) && t < |d.tasks| && Unreplied(d.tasks[t].phase)
    requires Post(l, d.box, message, control).Wrote?
    ensures Inv(l, Written(d, t, kind, Post(l, d.box, message, control)))
  {
    PostKeeps(l, d.box, message, control);
    var after := Written(d, t, kind, Post(l, d.box, message, control));
    forall u | 0 <= u < |d.tasks|
      ensures TaskInv(after, u)
    {
      assert TaskInv(d, u);
      if u != t {
        TaskCarries(d, after, u);
      } else {
        assert after.replies[|d.replies|].task == t;
      }
    }
    WrittenPending(d, after, t);
  }

  lemma WrittenPending(d: Desk, after: Desk, t: nat)
    requires PendingInv(d) && t < |d.tasks| && !Over(d.tasks[t].phase) && after.pending == d.pending
    requires |after.tasks| == |d.tasks| && !Over(after.tasks[t].phase)
    requires forall u :: 0 <= u < |d.tasks| ==>
               after.tasks[u].command == d.tasks[u].command && (u != t ==> after.tasks[u] == d.tasks[u])
    ensures PendingInv(after)
  {
    forall c | c in after.pending
      ensures exists u :: 0 <= u < |after.tasks| && !Over(after.tasks[u].phase) && after.tasks[u].command == c
    {
      var u :| 0 <= u < |d.tasks| && !Over(d.tasks[u].phase) && d.tasks[u].command == c;
      assert after.tasks[u].command == c;
    }
  }

  /** A command goes on without a reply. */
  lemma MoveInv(l: Outbox.Limits, d: Desk, t: nat, phase: Phase)
    requires Inv(l, d) && d.box.open && t < |d.tasks| && Unreplied(d.tasks[t].phase) && Unreplied(phase)
    ensures Inv(l, SetPhase(d, t, phase))
  {
    var after := SetPhase(d, t, phase);
    forall u | 0 <= u < |d.tasks|
      ensures TaskInv(after, u)
    {
      assert TaskInv(d, u);
      if u != t {
        TaskCarries(d, after, u);
      }
    }
    WrittenPending(d, after, t);
  }

  /** A lost command's generation closes. */
  lemma CollapseInv(l: Outbox.Limits, d: Desk, t: nat)
    requires Inv(l, d) && t < |d.tasks| && d.tasks[t].phase == Lost
    ensures Inv(l, SetPhase(Shut(d), t, Done))
  {
    ShutInv(l, d);
    var e, after := Shut(d), SetPhase(Shut(d), t, Done);
    forall u | 0 <= u < |d.tasks|
      ensures TaskInv(after, u)
    {
      assert TaskInv(e, u);
      if u != t {
        TaskCarries(e, after, u);
      }
    }
  }

  lemma FallbackInv(l: Outbox.Limits, d: Desk, t: nat, e: Ending)
    requires Inv(l, d) && Outbox.ValidLimits(l) && t < |d.tasks| && Unreplied(d.tasks[t].phase)
    ensures Inv(l, Fallback(l, d, t, e))
  {
    var p := Post(l, d.box, e.failure, d.tasks[t].control);
    if !d.box.open {
      RetireInv(l, d, t, Done);
    } else if !e.identity {
      ShutInv(l, d);
      RetireInv(l, Shut(d), t, Done);
    } else if p.Wrote? {
      WrittenInv(l, d, t, Failure, e.failure, d.tasks[t].control);
    } else {
      MoveInv(l, d, t, Doomed);
    }
  }

  lemma ConcludeInv(l: Outbox.Limits, d: Desk, t: nat, e: Ending)
    requires Inv(l, d) && Outbox.ValidLimits(l) && t < |d.tasks| && d.tasks[t].phase == Running
    ensures Inv(l, Conclude(l, d, t, e))
  {
    FallbackInv(l, d, t, e);
    if !d.box.open {
      RetireInv(l, d, t, Done);
    } else if !e.identity {
      ShutInv(l, d);
      RetireInv(l, Shut(d), t, Done);
    } else if e.succeeded && e.snapshot {
      var p := Post(l, d.box, e.result, d.tasks[t].control);
      if p.Wrote? {
        WrittenInv(l, d, t, Result, e.result, d.tasks[t].control);
      } else if p.tooLarge && Post(l, d.box, e.rejection, true).Wrote? {
        WrittenInv(l, d, t, Rejection, e.rejection, true);
      } else if p.tooLarge {
        MoveInv(l, d, t, Rejecting);
      }
    }
  }

  lemma AcceptInv(l: Outbox.Limits, d: Desk, command: nat, control: bool)
    requires Inv(l, d)
    ensures Inv(l, AcceptCommand(d, command, control))
  {
    if d.box.open && command in d.pending {
      ShutInv(l, d);
    } else if d.box.open {
      var after := AcceptCommand(d, command, control);
      forall u | 0 <= u < |d.tasks|
        ensures TaskInv(after, u)
      {
        assert TaskInv(d, u);
        TaskCarries(d, after, u);
      }
      forall c | c in after.pending
        ensures exists u :: 0 <= u < |after.tasks| && !Over(after.tasks[u].phase) && after.tasks[u].command == c
      {
        if c == command {
          assert after.tasks[|d.tasks|].command == c;
        } else {
          var u :| 0 <= u < |d.tasks| && !Over(d.tasks[u].phase) && d.tasks[u].command == c;
          assert after.tasks[u] == d.tasks[u];
        }
      }
    }
  }

  lemma DeliverInv(l: Outbox.Limits, d: Desk, a: Outbox.Action)
    requires Inv(l, d) && Outbox.ValidLimits(l)
    ensures Inv(l, Deliver(l, d, a))
  {
    Outbox.StepInv(l, d.box, a);
    BoxMoves(l, d, Outbox.Step(l, d.box, a));
  }

  /** A write that settled while the generation is open completed. */
  lemma WakeInv(l: Outbox.Limits, d: Desk, t: nat)
    requires Inv(l, d) && t < |d.tasks| && d.tasks[t].phase.Writing? && d.tasks[t].phase.frame in d.box.settled
    ensures Inv(l, Retire(d, t, Done))
  {
    var f := d.tasks[t].phase.frame;
    assert TaskInv(d, t);
    var i :| 0 <= i < |d.replies| && d.replies[i].task == t && d.replies[i].frame == f;
    if d.box.open {
      assert d.box.settled[f];
    }
    RetireInv(l, d, t, Done);
  }

  lemma StepInv(l: Outbox.Limits, d: Desk, a: Action)
    requires Inv(l, d) && Outbox.ValidLimits(l)
    ensures Inv(l, Step(l, d, a))
  {
    match a
    case Accept(command, control) => AcceptInv(l, d, command, control);
    case Finish(t, e) => if t < |d.tasks| && d.tasks[t].phase == Running { ConcludeInv(l, d, t, e); }
    case Recover(t, e) => if t < |d.tasks| && d.tasks[t].phase == Rejecting { FallbackInv(l, d, t, e); }
    case GiveUp(t) => if t < |d.tasks| && d.tasks[t].phase == Doomed { RetireInv(l, d, t, Lost); }
    case Collapse(t) => if t < |d.tasks| && d.tasks[t].phase == Lost { CollapseInv(l, d, t); }
    case Wake(t) =>
      if t < |d.tasks| && d.tasks[t].phase.Writing? && d.tasks[t].phase.frame in d.box.settled { WakeInv(l, d, t); }
    case Traffic(b) => DeliverInv(l, d, b);
  }

  lemma {:induction false} RunInv(l: Outbox.Limits, d: Desk, actions: seq<Action>)
    requires Inv(l, d) && Outbox.ValidLimits(l)
    ensures Inv(l, Run(l, d, actions))
    decreases |actions|
  {
    if actions != [] {
      StepInv(l, d, actions[0]);
      RunInv(l, Step(l, d, actions[0]), actions[1..]);
    }
  }

  // ----- Whole runs -----

  /** Over every run no command is answered twice, whatever kinds the two replies have. */
  lemma AtMostOneReply(l: Outbox.Limits, actions: seq<Action>, i: nat, j: nat)
    requires Outbox.ValidLimits(l)
    requires var d := Run(l, EmptyDesk, actions);
             i < |d.replies| && j < |d.replies| && d.replies[i].task == d.replies[j].task
    ensures i == j
  {
    RunInv(l, EmptyDesk, actions);
  }

  /** Over every run, a command that ended while its generation is still open has been answered and
      the answer's send completed. */
  lemma FinishedMeansDelivered(l: Outbox.Limits, actions: seq<Action>, t: nat)
    requires Outbox.ValidLimits(l)
    requires var d := Run(l, EmptyDesk, actions); t < |d.tasks| && d.tasks[t].phase == Done && d.box.open
    ensures Delivered(Run(l, EmptyDesk, actions), t)
  {
    assert TaskInv(Run(l, EmptyDesk, actions), t) by { RunInv(l, EmptyDesk, actions); }
    DoneDelivered(Run(l, EmptyDesk, actions), t);
  }

  lemma DoneDelivered(d: Desk, t: nat)
    requires t < |d.tasks| && TaskInv(d, t) && d.tasks[t].phase == Done && d.box.open
    ensures Delivered(d, t)
  {
  }

  predicate FrameSized(l: Outbox.Limits, message: Encoded) {
    message.Fits? && message.size <= l.maxFrame
  }

  /** How a stretch of a command without a reply ends in an open generation. */
  datatype Stretch = Replied(kind: Kind, frame: nat) | Waits(phase: Phase) | Closed

  /** Exactly one reply was queued, or none and the command goes on, or none and the generation closed. */
  predicate Stretched(d: Desk, f: Desk, t: nat, o: Stretch) {
    t < |f.tasks| &&
    match o
    case Replied(kind, frame) =>
      f.box.open && f.replies == d.replies + [Reply(t, kind, frame)] && f.tasks[t].phase == Writing(frame)
    case Waits(phase) => f.box.open && f.replies == d.replies && f.tasks[t].phase == phase
    case Closed => !f.box.open && f.replies == d.replies && f.tasks[t].phase == Done && f.pending == {}
  }

  /** The message is a frame of legal size that fits in its share of the byte budget. */
  predicate Room(l: Outbox.Limits, box: Outbox.Box, message: Encoded, control: bool) {
    FrameSized(l, message)
    && Outbox.Bytes(Outbox.Outstanding(box)) + message.size <= l.maxQueued - if control then 0 else l.reserve
  }

  /** A message is queued exactly if there is room; what is too large is reported as such. */
  lemma PostIff(l: Outbox.Limits, box: Outbox.Box, message: Encoded, control: bool)
    requires Outbox.ValidLimits(l) && box.open
    ensures var p := Post(l, box, message, control);
            && (p.Wrote? <==> Room(l, box, message, control))
            && (p.Threw? ==> (p.tooLarge <==> TooLarge(l, message)))
  {
  }

  predicate TooLarge(l: Outbox.Limits, message: Encoded) {
    message.Oversized? || (message.Fits? && message.size > l.maxFrame)
  }

  /** What reporting a failure leads to. */
  function FallbackStretch(l: Outbox.Limits, d: Desk, t: nat, e: Ending): Stretch
    requires t < |d.tasks|
  {
    if !e.identity then Closed
    else if Room(l, d.box, e.failure, d.tasks[t].control) then Replied(Failure, |d.box.accepted|)
    else Waits(Doomed)
  }

  lemma FallbackAnswers(l: Outbox.Limits, d: Desk, t: nat, e: Ending)
    requires Outbox.ValidLimits(l) && Outbox.Inv(l, d.box) && d.box.open && t < |d.tasks|
    ensures Stretched(d, Fallback(l, d, t, e), t, FallbackStretch(l, d, t, e))
  {
    PostKeeps(l, d.box, e.failure, d.tasks[t].control);
    PostIff(l, d.box, e.failure, d.tasks[t].control);
  }

  /** What the end of a command leads to, by what there is room for: a result in hand is the reply if
      there is room; one too large for any frame is rejected, or waits; anything else is a failure. */
  function EndingStretch(l: Outbox.Limits, d: Desk, t: nat, e: Ending): Stretch
    requires t < |d.tasks|
  {
    var inHand := e.succeeded && e.snapshot;
    if e.identity && inHand && Room(l, d.box, e.result, d.tasks[t].control) then Replied(Result, |d.box.accepted|)
    else if e.identity && inHand && TooLarge(l, e.result) then
      if Room(l, d.box, e.rejection, true) then Replied(Rejection, |d.box.accepted|) else Waits(Rejecting)
    else FallbackStretch(l, d, t, e)
  }

  lemma EndingAnswers(l: Outbox.Limits, d: Desk, t: nat, e: Ending)
    requires Outbox.ValidLimits(l) && Outbox.Inv(l, d.box) && d.box.open && t < |d.tasks|
    ensures Stretched(d, Conclude(l, d, t, e), t, EndingStretch(l, d, t, e))
  {
    FallbackAnswers(l, d, t, e);
    if e.identity && e.succeeded && e.snapshot {
      AnswerAnswers(l, d, t, e);
    }
  }

  lemma AnswerAnswers(l: Outbox.Limits, d: Desk, t: nat, e: Ending)
    requires Outbox.ValidLimits(l) && Outbox.Inv(l, d.box) && d.box.open && t < |d.tasks|
    requires e.identity && e.succeeded && e.snapshot
    ensures Stretched(d, Answer(l, d, t, e), t, EndingStretch(l, d, t, e))
  {
    var control := d.tasks[t].control;
    FallbackAnswers(l, d, t, e);
    PostIff(l, d.box, e.result, control);
    PostIff(l, d.box, e.rejection, true);
    PostKeeps(l, d.box, e.result, control);
    PostKeeps(l, d.box, e.rejection, true);
  }

  /** When a running command ends in an open generation: exactly one reply is queued, of the kind its
      ending calls for, or the command waits to report a failure, or the generation closes. */
  lemma EndingAnswersOnce(l: Outbox.Limits, actions: seq<Action>, t: nat, e: Ending)
    requires Outbox.ValidLimits(l)
    requires var d := Run(l, EmptyDesk, actions); d.box.open && t < |d.tasks| && d.tasks[t].phase == Running
    ensures var d := Run(l, EmptyDesk, actions); Stretched(d, Step(l, d, Finish(t, e)), t, EndingStretch(l, d, t, e))
  {
    assert Outbox.Inv(l, Run(l, EmptyDesk, actions).box) by { RunInv(l, EmptyDesk, actions); }
    EndingAnswers(l, Run(l, EmptyDesk, actions), t, e);
  }

  /** After a refused rejection: one failure reply, or the command is doomed, or the generation closes. */
  lemma RecoveryAnswersOnce(l: Outbox.Limits, actions: seq<Action>, t: nat, e: Ending)
    requires Outbox.ValidLimits(l)
    requires var d := Run(l, EmptyDesk, actions); d.box.open && t < |d.tasks| && d.tasks[t].phase == Rejecting
    ensures var d := Run(l, EmptyDesk, actions); Stretched(d, Step(l, d, Recover(t, e)), t, FallbackStretch(l, d, t, e))
  {
    assert Outbox.Inv(l, Run(l, EmptyDesk, actions).box) by { RunInv(l, EmptyDesk, actions); }
    FallbackAnswers(l, Run(l, EmptyDesk, actions), t, e);
  }

  /** Doomed or lost, and over only in a closed generation. */
  predicate Perishes(d: Desk, t: nat) {
    t < |d.tasks|
    && (d.tasks[t].phase == Doomed || d.tasks[t].phase == Lost || (d.tasks[t].phase == Done && !d.box.open))
  }

  lemma StepPerishes(l: Outbox.Limits, d: Desk, a: Action, t: nat)
    requires Perishes(d, t)
    ensures Perishes(Step(l, d, a), t)
  {
    match a
    case Finish(u, e) => if u < |d.tasks| && d.tasks[u].phase == Running { OthersKept(l, d, u, e, t); }
    case Recover(u, e) => if u < |d.tasks| && d.tasks[u].phase == Rejecting { OthersKept(l, d, u, e, t); }
    case _ =>
  }

  /** Another command's reply does not reopen a generation or move this command. */
  lemma OthersKept(l: Outbox.Limits, d: Desk, u: nat, e: Ending, t: nat)
    requires u < |d.tasks| && t < |d.tasks| && t != u
    ensures var f := Conclude(l, d, u, e); |f.tasks| == |d.tasks| && f.tasks[t] == d.tasks[t] && (f.box.open ==> d.box.open)
    ensures var f := Fallback(l, d, u, e); |f.tasks| == |d.tasks| && f.tasks[t] == d.tasks[t] && (f.box.open ==> d.box.open)
  {
  }

  /** Over every run from there, a command whose failure could not be queued is done only once its
      generation is closed: it never ends silently in an open one. */
  lemma {:induction false} DoomedCloses(l: Outbox.Limits, d: Desk, more: seq<Action>, t: nat)
    requires Perishes(d, t)
    ensures Perishes(Run(l, d, more), t)
    decreases |more|
  {
    if more != [] {
      StepPerishes(l, d, more[0], t);
      DoomedCloses(l, Step(l, d, more[0]), more[1..], t);
    }
  }

  /** Exactly one reply: over every run, a command whose reply is being written or that is done while
      its generation is open has one entry in the log, and any other command has none. */
  lemma ExactlyOneReply(l: Outbox.Limits, actions: seq<Action>, t: nat)
    requires Outbox.ValidLimits(l)
    requires var d := Run(l, EmptyDesk, actions); t < |d.tasks| && d.box.open
    ensures var d := Run(l, EmptyDesk, actions);
            if d.tasks[t].phase.Writing? || d.tasks[t].phase.Done?
            then exists i :: 0 <= i < |d.replies| && d.replies[i].task == t
                             && forall j :: 0 <= j < |d.replies| && d.replies[j].task == t ==> j == i
            else forall i :: 0 <= i < |d.replies| ==> d.replies[i].task != t
  {
    RunInv(l, EmptyDesk, actions);
    OneReply(Run(l, EmptyDesk, actions), t);
  }

  lemma OneReply(d: Desk, t: nat)
    requires LogInv(d) && t < |d.tasks| && TaskInv(d, t) && d.box.open
    ensures if d.tasks[t].phase.Writing? || d.tasks[t].phase.Done?
            then exists i :: 0 <= i < |d.replies| && d.replies[i].task == t
                             && forall j :: 0 <= j < |d.replies| && d.replies[j].task == t ==> j == i
            else forall i :: 0 <= i < |d.replies| ==> d.replies[i].task != t
  {
    if d.tasks[t].phase.Writing? || d.tasks[t].phase.Done? {
      var i :| 0 <= i < |d.replies| && d.replies[i].task == t;
      assert forall j :: 0 <= j < |d.replies| && d.replies[j].task == t ==> j == i;
    }
  }

  /** An abort's result that fits in what outstanding control frames leave of the reserve is always
      queued, however much ordinary traffic there is. */
  lemma AbortAlwaysAnswered(l: Outbox.Limits, actions: seq<Action>, t: nat, e: Ending)
    requires Outbox.ValidLimits(l) && e.succeeded && e.identity && e.snapshot && e.result.Fits?
    requires var d := Run(l, EmptyDesk, actions);
             && d.box.open && t < |d.tasks| && d.tasks[t].phase == Running && d.tasks[t].control
             && e.result.size <= l.maxFrame && Outbox.Controls(Outbox.Outstanding(d.box)) + e.result.size <= l.reserve
    ensures var d := Run(l, EmptyDesk, actions); var f := Step(l, d, Finish(t, e));
            f.box.open && f.replies == d.replies + [Reply(t, Result, |d.box.accepted|)]
  {
    assert Outbox.Inv(l, Run(l, EmptyDesk, actions).box) by { RunInv(l, EmptyDesk, actions); }
    AbortAnswered(l, Run(l, EmptyDesk, actions), t, e);
  }

  lemma AbortAnswered(l: Outbox.Limits, d: Desk, t: nat, e: Ending)
    requires Outbox.ValidLimits(l) && Outbox.Inv(l, d.box) && d.box.open && t < |d.tasks| && d.tasks[t].control
    requires e.succeeded && e.identity && e.snapshot && FrameSized(l, e.result)
    requires Outbox.Controls(Outbox.Outstanding(d.box)) + e.result.size <= l.reserve
    ensures var f := Conclude(l, d, t, e);
            f.box.open && f.replies == d.replies + [Reply(t, Result, |d.box.accepted|)]
  {
    ControlPosts(l, d.box, e.result.size);
  }

  lemma ControlPosts(l: Outbox.Limits, box: Outbox.Box, size: nat)
    requires Outbox.ValidLimits(l) && Outbox.Inv(l, box) && box.open
    requires size <= l.maxFrame && Outbox.Controls(Outbox.Outstanding(box)) + size <= l.reserve
    ensures var p := Post(l, box, Fits(size), true); p.Wrote? && p.frame == |box.accepted| && p.box.open
  {
    Outbox.Shares(Outbox.Outstanding(box));
    PostKeeps(l, box, Fits(size), true);
  }

  /** While open, the pending table is exactly the unfinished commands; two unfinished commands never
      share an id. */
  lemma PendingTable(l: Outbox.Limits, actions: seq<Action>)
    requires Outbox.ValidLimits(l)
    ensures var d := Run(l, EmptyDesk, actions);
            if d.box.open then
              && d.pending == UnfinishedCommands(d)
              && forall t, u :: 0 <= t < u < |d.tasks| && !Over(d.tasks[t].phase) && !Over(d.tasks[u].phase)
                   ==> d.tasks[t].command != d.tasks[u].command
            else d.pending == {}
  {
    RunInv(l, EmptyDesk, actions);
    PendingIsUnfinished(Run(l, EmptyDesk, actions));
  }

  ghost function UnfinishedCommands(d: Desk): set<nat> {
    set t | 0 <= t < |d.tasks| && !Over(d.tasks[t].phase) :: d.tasks[t].command
  }

  lemma PendingIsUnfinished(d: Desk)
    ensures PendingInv(d) ==> d.pending == UnfinishedCommands(d)
  {
  }

  // ----- Which commands are taken on -----

  /** Some unfinished command has this id. */
  predicate InUse(d: Desk, command: nat) {
    exists t :: 0 <= t < |d.tasks| && !Over(d.tasks[t].phase) && d.tasks[t].command == command
  }

  function Identities(tasks: seq<Task>): seq<(nat, bool)> {
    seq(|tasks|, t requires 0 <= t < |tasks| => (tasks[t].command, tasks[t].control))
  }

  /** An arrival at an open generation under an id that is free. */
  function TakenNow(d: Desk, a: Action): seq<(nat, bool)> {
    if a.Accept? && d.box.open && !InUse(d, a.command) then [(a.command, a.control)] else []
  }

  function TakenOn(l: Outbox.Limits, actions: seq<Action>): seq<(nat, bool)> {
    if actions == [] then []
    else
      var front := actions[..|actions| - 1];
      TakenOn(l, front) + TakenNow(Run(l, EmptyDesk, front), actions[|actions| - 1])
  }

  lemma ConcludeIdentities(l: Outbox.Limits, d: Desk, t: nat, e: Ending)
    requires t < |d.tasks|
    ensures Identities(Conclude(l, d, t, e).tasks) == Identities(d.tasks) == Identities(Fallback(l, d, t, e).tasks)
  {
  }

  lemma StepIdentities(l: Outbox.Limits, d: Desk, a: Action)
    requires d.box.open ==> PendingInv(d)
    ensures Identities(Step(l, d, a).tasks) == Identities(d.tasks) + TakenNow(d, a)
  {
    match a
    case Accept(command, control) => assert d.box.open ==> (command in d.pending <==> InUse(d, command));
    case Finish(t, e) => if t < |d.tasks| { ConcludeIdentities(l, d, t, e); }
    case Recover(t, e) => if t < |d.tasks| { ConcludeIdentities(l, d, t, e); }
    case _ =>
  }

  lemma {:induction false} RunLast(l: Outbox.Limits, d: Desk, front: seq<Action>, a: Action)
    ensures Run(l, d, front + [a]) == Step(l, Run(l, d, front), a)
    decreases |front|
  {
    if front == [] {
      assert [] + [a] == [a];
      assert Run(l, d, [a]) == Run(l, Step(l, d, a), []);
    } else {
      RunLast(l, Step(l, d, front[0]), front[1..], a);
      assert (front + [a])[1..] == front[1..] + [a];
    }
  }

  /** Over every run, the commands on record are exactly those that arrived while the generation was
      open under an id not in use, in order of arrival. */
  lemma {:induction false} CommandsTakenOn(l: Outbox.Limits, actions: seq<Action>)
    requires Outbox.ValidLimits(l)
    ensures Identities(Run(l, EmptyDesk, actions).tasks) == TakenOn(l, actions)
  {
    if actions != [] {
      var front, a := actions[..|actions| - 1], actions[|actions| - 1];
      CommandsTakenOn(l, front);
      var d := Run(l, EmptyDesk, front);
      assert d.box.open ==> PendingInv(d) by { RunInv(l, EmptyDesk, front); }
      StepIdentities(l, d, a);
      assert front + [a] == actions;
      RunLast(l, EmptyDesk, front, a);
    }
  }

  /** A new command starts running; one that reuses the id of an unfinished command closes the generation. */
  lemma ArrivalDecides(l: Outbox.Limits, actions: seq<Action>, command: nat, control: bool)
    requires Outbox.ValidLimits(l) && Run(l, EmptyDesk, actions).box.open
    ensures var d := Run(l, EmptyDesk, actions); var f := Step(l, d, Accept(command, control));
            && (InUse(d, command) <==> !f.box.open)
            && (f.box.open ==> f.box == d.box && f.replies == d.replies && f.tasks == d.tasks + [Task(command, control, Running)] && command in f.pending)
            && (!f.box.open ==> f.pending == {} && f.tasks == d.tasks)
  {
    RunInv(l, EmptyDesk, actions);
    ArrivalStep(Run(l, EmptyDesk, actions), command, control);
  }

  lemma ArrivalStep(d: Desk, command: nat, control: bool)
    requires PendingInv(d) && d.box.open
    ensures var f := AcceptCommand(d, command, control);
            && (InUse(d, command) <==> !f.box.open)
            && (f.box.open ==> f.box == d.box && f.replies == d.replies && f.tasks == d.tasks + [Task(command, control, Running)] && command in f.pending)
            && (!f.box.open ==> f.pending == {} && f.tasks == d.tasks)
  {
    assert command in d.pending <==> InUse(d, command);
  }

  /** Once its reply's write has settled a command gives its id back, and the id can be used again. */
  lemma SettledFreesId(l: Outbox.Limits, actions: seq<Action>, t: nat)
    requires Outbox.ValidLimits(l)
    requires var d := Run(l, EmptyDesk, actions);
             d.box.open && t < |d.tasks| && d.tasks[t].phase.Writing? && d.tasks[t].phase.frame in d.box.settled
    ensures var d := Run(l, EmptyDesk, actions); var f := Step(l, d, Wake(t));
            f.tasks[t].phase == Done && f.box.open && !InUse(f, d.tasks[t].command) && d.tasks[t].command !in f.pending
  {
    var d := Run(l, EmptyDesk, actions);
    assert PendingInv(d) by { RunInv(l, EmptyDesk, actions); }
    WakeFrees(l, d, t);
  }

  lemma WakeFrees(l: Outbox.Limits, d: Desk, t: nat)
    requires PendingInv(d) && t < |d.tasks| && d.tasks[t].phase.Writing? && d.tasks[t].phase.frame in d.box.settled
    ensures var f := Step(l, d, Wake(t));
            t < |f.tasks| && f.tasks[t].phase == Done && f.box == d.box && !InUse(f, d.tasks[t].command) && d.tasks[t].command !in f.pending
  {
    RetireFrees(d, t);
  }

  lemma RetireFrees(d: Desk, t: nat)
    requires PendingInv(d) && t < |d.tasks| && !Over(d.tasks[t].phase)
    ensures var f := Retire(d, t, Done);
            f.tasks[t].phase == Done && f.box == d.box && !InUse(f, d.tasks[t].command) && d.tasks[t].command !in f.pending
  {
    var f := Retire(d, t, Done);
    forall u | 0 <= u < |f.tasks| && !Over(f.tasks[u].phase)
      ensures f.tasks[u].command != d.tasks[t].command
    {
      assert u != t && f.tasks[u] == d.tasks[u];
    }
  }
}
