/** What a run's events say about its turns: the open turn of the transcript is the message whose
    calls are being settled, a turn_end carries the results ended since its turn began, and an
    agent_end everything ended since the run began. */
module AgentTurns {
  import opened Options
  import opened Transcript
  import opened EventGrammar
  import opened AgentSession
  import opened AgentTranscripts
  import opened AgentInvariant
  import ToolBatch

  // ----- Reading a trace -----

  /** The messages a trace has ended, in order. */
  function EndedMessages(trace: seq<Event>): seq<Message> {
    if trace == [] then []
    else
      var front, e := EndedMessages(trace[..|trace| - 1]), trace[|trace| - 1];
      if e.MessageEnd? then front + [e.message] else front
  }

  /** The tool results ended since the last turn_start, in order. */
  function TurnResults(trace: seq<Event>): seq<Message> {
    if trace == [] then []
    else NextResults(TurnResults(trace[..|trace| - 1]), trace[|trace| - 1])
  }

  function NextResults(results: seq<Message>, e: Event): seq<Message> {
    if e.TurnStart? then []
    else if e.MessageEnd? && e.message.ToolResult? then results + [e.message]
    else results
  }

  function ResultsOf(events: seq<Event>): seq<Message> {
    if events == [] then []
    else
      var front, e := ResultsOf(events[..|events| - 1]), events[|events| - 1];
      if e.MessageEnd? && e.message.ToolResult? then front + [e.message] else front
  }

  /** Reading back from `n` to the turn's start at `h`. */
  lemma {:induction false} ResultsSince(trace: seq<Event>, h: nat, n: nat)
    requires h < n <= |trace| && trace[h].TurnStart? && forall k :: h < k < n ==> !trace[k].TurnStart?
    ensures TurnResults(trace[..n]) == ResultsOf(trace[h + 1..n])
    decreases n
  {
    assert trace[..n][..n - 1] == trace[..n - 1];
    if h + 1 < n {
      ResultsSince(trace, h, n - 1);
      assert trace[h + 1..n][..n - h - 2] == trace[h + 1..n - 1];
    }
  }

  /** Results that answer calls of `m`. */
  predicate Answers(results: seq<Message>, m: Message) {
    m.Assistant? && forall i :: 0 <= i < |results| ==> results[i].ToolResult? && results[i].callId in Ids(Calls(m.content))
  }

  predicate Truthful(e: Event, past: seq<Event>) {
    match e
    case TurnEnd(m, results) => results == TurnResults(past) && Answers(results, m)
    case AgentEnd(messages) => messages == EndedMessages(past)
    case _ => true
  }

  predicate Honest(trace: seq<Event>) {
    forall k {:trigger trace[k]} :: 0 <= k < |trace| ==> Truthful(trace[k], trace[..k])
  }

  lemma HonestAppend(trace: seq<Event>, e: Event)
    requires Honest(trace) && Truthful(e, trace)
    ensures Honest(trace + [e])
    ensures TurnResults(trace + [e]) == NextResults(TurnResults(trace), e)
    ensures EndedMessages(trace + [e]) == if e.MessageEnd? then EndedMessages(trace) + [e.message] else EndedMessages(trace)
  {
    var all := trace + [e];
    assert all[..|trace|] == trace;
    forall k | 0 <= k < |all|
      ensures Truthful(all[k], all[..k])
    {
      if k < |trace| {
        assert all[k] == trace[k] && all[..k] == trace[..k];
      }
    }
  }

  // ----- Invariant -----

  /** Inside a turn and before its batch. */
  predicate Calm(run: Locals) {
    || run.pc.Prompting? || run.pc.PrepareInitial? || run.pc.SteeringHook? || run.pc.Injecting? || run.pc.Request?
    || run.pc.Streaming? || run.pc.Closing? || run.pc.Answered? || (run.pc.LoopCheck? && !run.turnDone)
  }

  /** The trace tells the truth and accounts for the transcript. */
  predicate Told(l: Log) {
    Honest(l.trace) && l.agent.messages == l.start + EndedMessages(l.trace)
  }

  predicate OpenAt(ms: seq<Message>, run: Locals) {
    && (run.resume.Some? ==> TurnOf(ms, run.resume.value.assistant))
    && (run.pc.Answered? ==> TurnOf(ms, run.pc.message))
    && (run.pc.InBatch? ==>
          TurnOf(ms, run.pc.message) && Ids(run.pc.batch.calls) <= Ids(Calls(run.pc.message.content)))
  }

  predicate ResultsAt(trace: seq<Event>, run: Locals) {
    && (Calm(run) ==> TurnResults(trace) == [])
    && (run.pc.InBatch? ==> TurnResults(trace) == run.pc.batch.messages)
  }

  predicate TurnInv(s: Session) {
    !s.run.pc.Idle? ==> Told(s.log) && OpenAt(s.log.agent.messages, s.run) && ResultsAt(s.log.trace, s.run)
  }

  // ----- One lemma per kind of step, over explicit logs and locals -----

  predicate SameStory(l: Log, t: Log) {
    t.trace == l.trace && t.start == l.start && t.agent.messages == l.agent.messages
  }

  /** No event: the run only moves on. */
  lemma Still(s: Session, t: Session)
    requires TurnInv(s) && !s.run.pc.Idle? && SameStory(s.log, t.log) && !t.run.pc.InBatch? && !t.run.pc.Answered?
    requires t.run.resume == s.run.resume && (Calm(t.run) ==> Calm(s.run))
    ensures TurnInv(t)
  {
  }

  predicate Emits(l: Log, t: Log, e: Event) {
    && t.trace == l.trace + [e] && t.start == l.start
    && t.agent.messages == if e.MessageEnd? then l.agent.messages + [e.message] else l.agent.messages
  }

  lemma EmitTold(l: Log, t: Log, e: Event)
    requires Told(l) && Emits(l, t, e) && Truthful(e, l.trace)
    ensures Told(t) && TurnResults(t.trace) == NextResults(TurnResults(l.trace), e)
  {
    HonestAppend(l.trace, e);
  }

  /** One event outside a batch. */
  lemma Tells(s: Session, t: Session, e: Event)
    requires TurnInv(s) && !s.run.pc.Idle? && Emits(s.log, t.log, e) && Truthful(e, s.log.trace)
    requires !t.run.pc.InBatch? && (t.run.pc.Answered? ==> TurnOf(t.log.agent.messages, t.run.pc.message))
    requires t.run.resume.Some? ==> t.run.resume == s.run.resume && !e.MessageEnd?
    requires Calm(t.run) ==> e.TurnStart? || (Calm(s.run) && (e.MessageEnd? ==> !e.message.ToolResult?))
    ensures TurnInv(t)
  {
    EmitTold(s.log, t.log, e);
  }

  lemma FinalIsOpen(ms: seq<Message>, f: Message)
    requires f.Assistant?
    ensures TurnOf(ms + [f], f)
  {
    OpenTurnAppend(ms, f);
  }

  lemma ResultKeepsOpen(ms: seq<Message>, m: Message, r: Message)
    requires TurnOf(ms, m) && r.ToolResult?
    ensures TurnOf(ms + [r], m)
  {
    OpenTurnAppend(ms, r);
  }

  // ----- The loop -----

  lemma EntryTurns(s: Session, r: RunAction)
    requires Inv(s) && TurnInv(s) && (s.run.pc.Begin? || s.run.pc.BeginTurn? || s.run.pc.TurnOpening?)
    ensures TurnInv(Advance(s, r))
  {
    Tells(s, Advance(s, r), if s.run.pc.Begin? then AgentStart else TurnStart);
  }

  lemma PromptTurns(s: Session, i: nat)
    requires TurnInv(s) && s.run.pc.Prompting? && s.run.resume.None?
    requires i < |s.log.newMessages| && Injectable(s.log.newMessages[i])
    ensures TurnInv(AnnouncePrompt(s, i)) && TurnInv(ConfirmPrompt(s, i))
  {
    var m := s.log.newMessages[i];
    Tells(s, AnnouncePrompt(s, i), MessageStart(m));
    Tells(s, ConfirmPrompt(s, i), MessageEnd(m));
  }

  lemma PrepareTurns(s: Session, r: RunAction)
    requires TurnInv(s) && (s.run.pc.PrepareInitial? || s.run.pc.PrepareNext?) && FlowAt(s.run)
    ensures TurnInv(Advance(s, r))
  {
    Still(s, Advance(s, r));
  }

  lemma CheckTurns(s: Session)
    requires TurnInv(s) && (s.run.pc.LoopCheck? || s.run.pc.FollowUpPoll?) && FlowAt(s.run)
    ensures s.run.pc.LoopCheck? ==> TurnInv(CheckLoop(s))
    ensures s.run.pc.FollowUpPoll? ==> TurnInv(PollFollowUps(s))
  {
    if s.run.pc.LoopCheck? { Still(s, CheckLoop(s)); } else { Still(s, PollFollowUps(s)); }
  }

  lemma HookTurns(s: Session, extras: seq<Message>)
    requires TurnInv(s) && s.run.pc.SteeringHook?
    ensures TurnInv(Go(s, s.log, Request)) && TurnInv(BeginInjecting(s, extras))
  {
    Still(s, Go(s, s.log, Request));
    Still(s, BeginInjecting(s, extras));
  }

  lemma InjectTurns(s: Session)
    requires TurnInv(s) && s.run.pc.Injecting? && s.run.resume.None?
    requires AllInjectable(s.run.pc.queued) && AllInjectable(s.run.pc.extras)
    ensures var queued, extras, begun := s.run.pc.queued, s.run.pc.extras, s.run.pc.begun;
            && (queued != [] ==> TurnInv(InjectQueued(s, queued, extras, begun)))
            && (queued == [] && extras != [] ==> TurnInv(InjectExtra(s, extras, begun)))
            && (queued == [] && extras == [] ==> TurnInv(EndInjecting(s)))
  {
    var queued, extras, begun := s.run.pc.queued, s.run.pc.extras, s.run.pc.begun;
    if queued != [] {
      QueuedEmits(s, queued, extras, begun);
      InjectedTurns(s, InjectQueued(s, queued, extras, begun), queued[0]);
    } else if extras != [] {
      ExtraEmits(s, extras, begun);
      InjectedTurns(s, InjectExtra(s, extras, begun), extras[0]);
    } else {
      Still(s, EndInjecting(s));
    }
  }

  lemma QueuedEmits(s: Session, queued: seq<Message>, extras: seq<Message>, begun: bool)
    requires queued != []
    ensures var t := InjectQueued(s, queued, extras, begun);
            && t.run.pc.Injecting? && t.run.resume == s.run.resume
            && Emits(s.log, t.log, if begun then MessageEnd(queued[0]) else MessageStart(queued[0]))
  {
  }

  lemma ExtraEmits(s: Session, extras: seq<Message>, begun: bool)
    requires extras != []
    ensures var t := InjectExtra(s, extras, begun);
            && t.run.pc.Injecting? && t.run.resume == s.run.resume
            && Emits(s.log, t.log, if begun then MessageEnd(extras[0]) else MessageStart(extras[0]))
  {
  }

  lemma InjectedTurns(s: Session, t: Session, m: Message)
    requires TurnInv(s) && s.run.pc.Injecting? && t.run.pc.Injecting? && t.run.resume.None? && Injectable(m)
    requires Emits(s.log, t.log, if s.run.pc.begun then MessageEnd(m) else MessageStart(m))
    ensures TurnInv(t)
  {
    Tells(s, t, if s.run.pc.begun then MessageEnd(m) else MessageStart(m));
  }

  lemma RequestTurns(s: Session, r: RunAction)
    requires TurnInv(s) && s.run.pc.Request?
    ensures TurnInv(Advance(s, r))
  {
  }

  lemma PartialTurns(s: Session, m: Message, quiet: bool)
    requires TurnInv(s) && s.run.pc.Streaming? && s.run.resume.None?
    ensures TurnInv(StartPartial(s, m)) && TurnInv(UpdatePartial(s, m, quiet))
  {
    Tells(s, StartPartial(s, m), MessageStart(m));
    if quiet {
      Still(s, UpdatePartial(s, m, quiet));
    } else {
      Tells(s, UpdatePartial(s, m, quiet), MessageUpdate(m));
    }
  }

  lemma WholeTurns(s: Session, f: Message)
    requires TurnInv(s) && s.run.pc.Streaming? && s.run.resume.None? && f.Assistant?
    ensures TurnInv(FinishPartial(s, f)) && TurnInv(StartWhole(s, f))
  {
    FinalIsOpen(s.log.agent.messages, f);
    Tells(s, FinishPartial(s, f), MessageEnd(f));
    Tells(s, StartWhole(s, f), MessageStart(f));
  }

  lemma StreamTurns(s: Session, r: RunAction)
    requires TurnInv(s) && s.run.pc.Streaming? && s.run.resume.None?
    ensures TurnInv(OnStream(s, s.run.pc.partial, r))
  {
    match r
    case StreamStart(p) => PartialTurns(s, p, false);
    case StreamDelta(p, prose) => PartialTurns(s, p, s.suppress && prose);
    case StreamEnd(m) => if Streamable(m) { WholeTurns(s, Final(s.suppress, m)); }
    case _ =>
  }

  lemma ClosingTurns(s: Session, f: Message)
    requires TurnInv(s) && s.run.pc == Closing(f) && f.Assistant? && s.run.resume.None?
    ensures TurnInv(Go(s, Emit(s.log, MessageEnd(f)), Answered(f, true)))
  {
    FinalIsOpen(s.log.agent.messages, f);
    Tells(s, Go(s, Emit(s.log, MessageEnd(f)), Answered(f, true)), MessageEnd(f));
  }

  lemma BareTurns(s: Session, m: Message, isNew: bool)
    requires TurnInv(s) && s.run.pc == Answered(m, isNew) && m.Assistant?
    ensures TurnInv(FailTurn(s, m, isNew)) && TurnInv(EndTurn(s, m, isNew))
  {
    Tells(s, FailTurn(s, m, isNew), TurnEnd(m, []));
    Tells(s, EndTurn(s, m, isNew), TurnEnd(m, []));
  }

  /** The plan's calls are calls of the open turn. */
  lemma PlanWithin(s: Session, m: Message, isNew: bool, safe: set<string>)
    requires Inv(s) && TurnInv(s) && s.run.pc == Answered(m, isNew)
    ensures Ids(BatchPlan(s.run.resume, m, isNew, safe).calls) <= Ids(Calls(m.content))
  {
    var plan := BatchPlan(s.run.resume, m, isNew, safe);
    PlanSettles(s, m, isNew, safe);
    assert plan.calls[0..] == plan.calls;
    var t := OpenTurn(s.log.agent.messages).value;
    UnansweredIds(Calls(t.assistant.content), t.answered);
  }

  lemma ToolsTurns(s: Session, m: Message, isNew: bool, r: RunAction)
    requires Inv(s) && TurnInv(s) && s.run.pc == Answered(m, isNew) && r.BeginTools?
    ensures TurnInv(StartTools(s, m, isNew, r))
  {
    PlanWithin(s, m, isNew, r.safe);
    var plan := BatchPlan(s.run.resume, m, isNew, r.safe);
    BeginTurns(s, m, isNew, ToolBatch.Begin(plan.calls, r.scripts, plan.forced, r.parallel));
  }

  lemma BeginTurns(s: Session, m: Message, isNew: bool, b: ToolBatch.Batch)
    requires TurnInv(s) && s.run.pc == Answered(m, isNew) && b.messages == [] && Ids(b.calls) <= Ids(Calls(m.content))
    ensures TurnInv(BeginBatch(s, m, isNew, b))
  {
  }

  lemma AnswerTurns(s: Session, r: RunAction)
    requires Inv(s) && TurnInv(s) && s.run.pc.Answered?
    ensures TurnInv(OnAnswer(s, s.run.pc.message, s.run.pc.isNew, r))
  {
    var m, isNew := s.run.pc.message, s.run.pc.isNew;
    BareTurns(s, m, isNew);
    if r.BeginTools? { ToolsTurns(s, m, isNew, r); }
  }

  /** A batch step that reports no result. */
  lemma QuietBatchTurns(s: Session, m: Message, b: ToolBatch.Batch, c: ToolBatch.Batch, l: Log, e: Event)
    requires TurnInv(s) && s.run.pc == InBatch(m, b) && s.run.resume.None?
    requires c.calls == b.calls && c.messages == b.messages && Emits(s.log, l, e)
    requires !e.TurnStart? && !e.TurnEnd? && !e.AgentEnd? && !e.MessageEnd?
    ensures TurnInv(Go(s, l, InBatch(m, c)))
  {
    EmitTold(s.log, l, e);
  }

  lemma ResultTurns(s: Session, m: Message, b: ToolBatch.Batch, c: ToolBatch.Batch, l: Log, r: Message)
    requires TurnInv(s) && s.run.pc == InBatch(m, b) && s.run.resume.None? && r.ToolResult?
    requires c.calls == b.calls && c.messages == b.messages + [r] && Emits(s.log, l, MessageEnd(r))
    ensures TurnInv(Go(s, l, InBatch(m, c)))
  {
    EmitTold(s.log, l, MessageEnd(r));
    ResultKeepsOpen(s.log.agent.messages, m, r);
  }

  lemma EmitsOne(l: Log, es: seq<Event>)
    requires |es| == 1
    ensures Emits(l, EmitAll(l, es), es[0])
  {
    EmitAllOne(l, es);
    assert es == [es[0]];
  }

  lemma SteppedTurns(s: Session, m: Message, b: ToolBatch.Batch, c: ToolBatch.Batch, es: seq<Event>)
    requires TurnInv(s) && s.run.pc == InBatch(m, b) && s.run.resume.None? && c.calls == b.calls
    requires Reports(b.messages, c.messages, es)
    requires c.messages != b.messages ==> c.messages[|b.messages|].ToolResult?
    requires es != [] ==> !es[0].TurnStart? && !es[0].TurnEnd? && !es[0].AgentEnd?
    ensures TurnInv(Go(s, EmitAll(s.log, es), InBatch(m, c)))
  {
    if es == [] {
      SilentBatchTurns(s, m, b, c);
    } else {
      EmitsOne(s.log, es);
      if c.messages == b.messages {
        QuietBatchTurns(s, m, b, c, EmitAll(s.log, es), es[0]);
      } else {
        GrownByOne(b.messages, c.messages);
        ResultTurns(s, m, b, c, EmitAll(s.log, es), c.messages[|b.messages|]);
      }
    }
  }

  lemma SilentBatchTurns(s: Session, m: Message, b: ToolBatch.Batch, c: ToolBatch.Batch)
    requires TurnInv(s) && s.run.pc == InBatch(m, b) && s.run.resume.None? && c.calls == b.calls && c.messages == b.messages
    ensures TurnInv(Go(s, s.log, InBatch(m, c)))
  {
  }

  lemma GrownByOne(before: seq<Message>, after: seq<Message>)
    requires |after| == |before| + 1 && after[..|before|] == before
    ensures after == before + [after[|before|]]
  {
  }

  lemma StepBatchTurns(s: Session, m: Message, b: ToolBatch.Batch, a: ToolBatch.Action)
    requires TurnInv(s) && s.run.pc == InBatch(m, b) && s.run.resume.None? && ToolBatch.Inv(b)
    ensures TurnInv(StepBatch(s, m, b, a))
  {
    var c, es := ToolBatch.Step(b, a, s.run.aborted).0, ToolBatch.Step(b, a, s.run.aborted).1;
    ToolBatch.StepInv(b, a, s.run.aborted);
    ToolBatch.StepReports(b, a, s.run.aborted);
    ToolBatch.StepEmitsOne(b, a, s.run.aborted);
    ToolBatch.ReportsInOrder(c);
    SteppedTurns(s, m, b, c, es);
  }

  lemma FinishBatchTurns(s: Session, m: Message, b: ToolBatch.Batch)
    requires TurnInv(s) && s.run.pc == InBatch(m, b) && s.run.resume.None? && m.Assistant?
    requires ToolBatch.Inv(b) && b.phase.Finished?
    ensures TurnInv(FinishBatch(s, m, b))
  {
    ResultsAnswer(b, m);
    Tells(s, FinishBatch(s, m, b), TurnEnd(m, b.messages));
  }

  lemma ResultsAnswer(b: ToolBatch.Batch, m: Message)
    requires ToolBatch.Inv(b) && m.Assistant? && Ids(b.calls) <= Ids(Calls(m.content))
    ensures Answers(b.messages, m)
  {
    ToolBatch.ReportsInOrder(b);
    forall i | 0 <= i < |b.messages|
      ensures b.messages[i].callId in Ids(Calls(m.content))
    {
      assert b.calls[i].id in Ids(b.calls);
    }
  }

  lemma BatchTurns(s: Session, r: RunAction)
    requires TurnInv(s) && s.run.pc.InBatch? && s.run.resume.None? && ToolBatch.Inv(s.run.pc.batch)
    requires s.run.pc.message.Assistant?
    ensures TurnInv(OnBatch(s, s.run.pc.message, s.run.pc.batch, r))
  {
    var m, b := s.run.pc.message, s.run.pc.batch;
    if b.phase.Finished? {
      FinishBatchTurns(s, m, b);
    } else if r.Tool? {
      StepBatchTurns(s, m, b, r.action);
    }
  }

  lemma StopTurns(s: Session)
    requires TurnInv(s) && s.run.pc.StopCheck? && s.run.resume.None? && AgreeAt(s.log, StopCheck)
    ensures TurnInv(StopRun(s)) && TurnInv(PollAfterTurn(s))
  {
    EverythingEnded(s.log);
    Tells(s, StopRun(s), AgentEnd(s.log.newMessages));
    Still(s, PollAfterTurn(s));
  }

  lemma EverythingEnded(l: Log)
    requires Told(l) && l.agent.messages == l.start + l.newMessages
    ensures EndedMessages(l.trace) == l.newMessages
  {
    var n := |l.start|;
    assert (l.start + EndedMessages(l.trace))[n..] == EndedMessages(l.trace) && (l.start + l.newMessages)[n..] == l.newMessages;
  }

  lemma EndingTurns(s: Session)
    requires TurnInv(s) && s.run.pc.Ending? && s.run.resume.None? && AgreeAt(s.log, Ending)
    ensures TurnInv(Go(s, Emit(s.log, AgentEnd(s.log.newMessages)), Over))
  {
    EverythingEnded(s.log);
    Tells(s, Go(s, Emit(s.log, AgentEnd(s.log.newMessages)), Over), AgentEnd(s.log.newMessages));
  }

  /** Past the point where a recorded answer is taken, nothing is being resumed. */
  lemma NothingResumed(s: Session)
    requires ResumeAt(s.log, s.run) && !s.run.pc.Idle?
    requires s.run.pc.Prompting? || s.run.pc.Injecting? || s.run.pc.Streaming? || s.run.pc.Closing? || s.run.pc.InBatch?
             || s.run.pc.StopCheck? || s.run.pc.Ending?
    ensures s.run.resume.None?
  {
  }

  lemma InjectingTurns(s: Session, r: RunAction)
    requires Inv(s) && TurnInv(s) && s.run.pc.Injecting?
    ensures TurnInv(Advance(s, r))
  {
    NothingResumed(s);
    InjectTurns(s);
  }

  lemma StreamingTurns(s: Session, r: RunAction)
    requires Inv(s) && TurnInv(s) && s.run.pc.Streaming?
    ensures TurnInv(Advance(s, r))
  {
    NothingResumed(s);
    StreamTurns(s, r);
  }

  lemma SettlingTurns(s: Session, r: RunAction)
    requires Inv(s) && TurnInv(s) && (s.run.pc.Closing? || s.run.pc.InBatch?)
    ensures TurnInv(Advance(s, r))
  {
    NothingResumed(s);
    if s.run.pc.Closing? { ClosingTurns(s, s.run.pc.final); } else { BatchTurns(s, r); }
  }

  lemma LeavingTurns(s: Session, r: RunAction)
    requires Inv(s) && TurnInv(s) && (s.run.pc.StopCheck? || s.run.pc.Ending?)
    ensures TurnInv(Advance(s, r))
  {
    NothingResumed(s);
    if s.run.pc.StopCheck? { StopTurns(s); } else { EndingTurns(s); }
  }

  lemma PromptingTurns(s: Session, r: RunAction)
    requires Inv(s) && TurnInv(s) && s.run.pc.Prompting?
    ensures TurnInv(Advance(s, r))
  {
    NothingResumed(s);
    assert Injectable(s.log.newMessages[s.run.pc.i]);
    PromptTurns(s, s.run.pc.i);
  }

  lemma CheckingTurns(s: Session, r: RunAction)
    requires Inv(s) && TurnInv(s) && (s.run.pc.LoopCheck? || s.run.pc.FollowUpPoll? || s.run.pc.SteeringHook?)
    ensures TurnInv(Advance(s, r))
  {
    if s.run.pc.SteeringHook? { HookTurns(s, if r.Extras? then r.extras else []); } else { CheckTurns(s); }
  }

  lemma AdvanceTurns(s: Session, r: RunAction)
    requires Inv(s) && TurnInv(s)
    ensures TurnInv(Advance(s, r))
  {
    match s.run.pc
    case Idle =>
    case Begin => EntryTurns(s, r);
    case BeginTurn => EntryTurns(s, r);
    case Prompting(_, _) => PromptingTurns(s, r);
    case PrepareInitial => PrepareTurns(s, r);
    case LoopCheck => CheckingTurns(s, r);
    case FollowUpPoll => CheckingTurns(s, r);
    case PrepareNext => PrepareTurns(s, r);
    case TurnOpening => EntryTurns(s, r);
    case SteeringHook => CheckingTurns(s, r);
    case Injecting(_, _, _) => InjectingTurns(s, r);
    case Request => RequestTurns(s, r);
    case Streaming(_) => StreamingTurns(s, r);
    case Closing(_) => SettlingTurns(s, r);
    case Answered(_, _) => AnswerTurns(s, r);
    case InBatch(_, _) => SettlingTurns(s, r);
    case StopCheck => LeavingTurns(s, r);
    case Ending => LeavingTurns(s, r);
    case Over =>
  }

  // ----- Actions from outside the run -----

  lemma StartTurns(s: Session, prompts: seq<Message>, origins: seq<Origin>, skip: bool, resume: Option<Pending>)
    requires Balanced(s.log) && (resume.Some? ==> resume == PendingCalls(s.log.agent.messages))
    ensures TurnInv(StartRun(s, prompts, origins, skip, resume))
  {
    PendingIsOpen(s.log.agent.messages);
    var l := StartRun(s, prompts, origins, skip, resume).log;
    assert l.start + [] == l.start;
  }

  lemma ContinueTurns(s: Session)
    requires TurnInv(s) && Balanced(s.log) && s.run.pc.Idle?
    ensures TurnInv(StartContinue(s))
  {
    var taken := Take(s.mail.follow);
    StartTurns(s, [], [], false, None);
    StartTurns(s.(mail := s.mail.(follow := Rest(s.mail.follow))), taken, Repeat(FollowedUp, |taken|), false, None);
  }

  lemma PreludeTurns(s: Session, extras: seq<Message>)
    requires TurnInv(s) && Balanced(s.log) && s.mail.prelude.Some?
    ensures TurnInv(FinishPrelude(s, extras))
  {
    var batch, t := s.mail.prelude.value, s.(mail := s.mail.(prelude := None));
    StartTurns(t, batch + extras, Repeat(Steered, |batch|) + Repeat(Extra, |extras|), true, None);
  }

  lemma StepTurns(s: Session, a: Action)
    requires Inv(s) && TurnInv(s)
    ensures TurnInv(Step(s, a))
  {
    match a
    case Prompt(ms) => StartTurns(s, ms, Repeat(Prompted, |ms|), false, None);
    case Continue => if s.run.pc.Idle? { ContinueTurns(s); }
    case HookReturned(xs) => if s.mail.prelude.Some? { PreludeTurns(s, xs); }
    case Resume => StartTurns(s, [], [], false, PendingCalls(s.log.agent.messages));
    case Proceed(r) => AdvanceTurns(s, r);
    case _ =>
  }
}
