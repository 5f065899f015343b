/** Every action of the session machine keeps its invariant: one lemma per way a step can go. */
module AgentInvariant {
  import opened Options
  import opened Transcript
  import opened EventGrammar
  import opened AgentSession
  import opened AgentTranscripts
  import ToolBatch

  /** Everything waiting to be injected is a user or custom message. */
  predicate MailAt(s: Session) {
    && AllInjectable(s.mail.steer.messages) && AllInjectable(s.mail.follow.messages)
    && (s.mail.prelude.Some? ==> AllInjectable(s.mail.prelude.value))
    && AllInjectable(s.run.pending)
    && (s.run.pc.Injecting? ==> AllInjectable(s.run.pc.queued) && AllInjectable(s.run.pc.extras))
    && (s.run.pc.Begin? || s.run.pc.BeginTurn? || s.run.pc.Prompting? ==> AllInjectable(s.log.newMessages))
  }

  predicate Inv(s: Session) {
    && AgreeAt(s.log, s.run.pc)
    && GrammarAt(s.log, s.run.pc, s.run.turnDone)
    && LegalAt(s.log, s.run)
    && ResumeAt(s.log, s.run)
    && FlowAt(s.run)
    && MailAt(s)
  }

  lemma BeginKeeps(s: Session)
    requires Inv(s) && s.run.pc.Begin?
    ensures Inv(Go(s, Emit(s.log, AgentStart), BeginTurn))
  {
    EmitSync(s.log, AgentStart);
  }

  lemma BeginTurnKeeps(s: Session)
    requires Inv(s) && s.run.pc.BeginTurn?
    ensures Inv(Go(s, Emit(s.log, TurnStart), PromptAt(s.log, 0)))
  {
    EmitSync(s.log, TurnStart);
    assert s.log.newMessages[..0] == [];
  }

  lemma AnnouncePromptKeeps(s: Session)
    requires Inv(s) && s.run.pc.Prompting? && !s.run.pc.begun
    ensures Inv(AnnouncePrompt(s, s.run.pc.i))
  {
    EmitSync(s.log, MessageStart(s.log.newMessages[s.run.pc.i]));
    PromptAgrees(s, s.run.pc.i);
  }

  lemma ConfirmPromptKeeps(s: Session)
    requires Inv(s) && s.run.pc.Prompting? && s.run.pc.begun
    ensures Inv(ConfirmPrompt(s, s.run.pc.i))
  {
    var m := s.log.newMessages[s.run.pc.i];
    EmitSync(s.log, MessageEnd(m));
    PromptAgrees(s, s.run.pc.i);
    AppendLegal(s.log.agent.messages, m);
  }

  lemma PrepareRunKeeps(s: Session, replacement: Option<seq<Message>>)
    requires Inv(s) && s.run.pc.PrepareInitial?
    ensures Inv(PrepareRun(s, replacement))
  {
  }

  lemma PrepareTurnKeeps(s: Session, replacement: Option<seq<Message>>)
    requires Inv(s) && s.run.pc.PrepareNext?
    ensures Inv(PrepareTurn(s, replacement))
  {
  }

  lemma CheckLoopKeeps(s: Session)
    requires Inv(s) && s.run.pc.LoopCheck?
    ensures Inv(CheckLoop(s))
  {
  }

  lemma PollFollowUpsKeeps(s: Session)
    requires Inv(s) && s.run.pc.FollowUpPoll?
    ensures Inv(PollFollowUps(s))
  {
    NoFollowUpsKeeps(s);
    TakeFollowUpsKeeps(s, Take(s.mail.follow), Rest(s.mail.follow));
  }

  lemma NoFollowUpsKeeps(s: Session)
    requires Inv(s) && s.run.pc.FollowUpPoll?
    ensures Inv(Go(s, s.log, Ending))
  {
  }

  lemma TakeFollowUpsKeeps(s: Session, taken: seq<Message>, rest: Queue)
    requires Inv(s) && s.run.pc.FollowUpPoll? && AllInjectable(taken) && AllInjectable(rest.messages)
    ensures Inv(s.(run := s.run.(pending := taken, pendingIsSteering := false, hasMore := true, pc := LoopCheck),
                   mail := s.mail.(follow := rest)))
  {
  }

  lemma TurnOpeningKeeps(s: Session)
    requires Inv(s) && s.run.pc.TurnOpening?
    ensures Inv(Go(s, Emit(s.log, TurnStart), SteeringHook))
  {
    EmitSync(s.log, TurnStart);
  }

  lemma SteeringHookKeeps(s: Session, extras: seq<Message>)
    requires Inv(s) && s.run.pc.SteeringHook? && AllInjectable(extras)
    ensures s.run.pending == [] ==> Inv(Go(s, s.log, Request))
    ensures s.run.pending != [] ==> Inv(BeginInjecting(s, extras))
  {
  }

  lemma AnnounceInjected(s: Session, m: Message)
    requires Inv(s) && s.run.pc.Injecting? && !s.run.pc.begun && s.run.pc.queued + s.run.pc.extras != []
    ensures Inv(Go(s, Emit(s.log, MessageStart(m)), Injecting(s.run.pc.queued, s.run.pc.extras, true)))
  {
    EmitSync(s.log, MessageStart(m));
  }

  lemma ConfirmInjected(s: Session, m: Message, o: Origin, queued: seq<Message>, extras: seq<Message>)
    requires Inv(s) && s.run.pc.Injecting? && s.run.pc.begun
    requires Injectable(m) && AllInjectable(queued) && AllInjectable(extras)
    ensures Inv(Go(s, Said(s.log, m, o), Injecting(queued, extras, false)))
  {
    var next := Injecting(queued, extras, false);
    InjectedLog(s.log, m, o, s.run.pc, next, s.run.turnDone);
    AppendLegal(s.log.agent.messages, m);
    InjectedKeeps(s, Said(s.log, m, o), next);
  }

  lemma InjectedKeeps(s: Session, l: Log, next: Control)
    requires Inv(s) && s.run.pc.Injecting? && next.Injecting? && !next.begun
    requires AllInjectable(next.queued) && AllInjectable(next.extras)
    requires AgreeAt(l, next) && GrammarAt(l, next, s.run.turnDone) && Legal(l.agent.messages) && AllStreamable(l.agent.messages)
    ensures Inv(Go(s, l, next))
  {
  }

  lemma InjectedLog(l: Log, m: Message, o: Origin, pc: Control, next: Control, turnDone: bool)
    requires AgreeAt(l, pc) && GrammarAt(l, pc, turnDone) && pc.Injecting? && pc.begun && next.Injecting? && !next.begun
    requires Injectable(m)
    ensures AgreeAt(Said(l, m, o), next) && GrammarAt(Said(l, m, o), next, turnDone)
    ensures Said(l, m, o).agent.messages == l.agent.messages + [m]
  {
    EmitSync(l, MessageEnd(m));
    SaidAgrees(l, m, o);
  }

  lemma EndInjectingKeeps(s: Session)
    requires Inv(s) && s.run.pc == Injecting([], [], false)
    ensures Inv(EndInjecting(s))
  {
  }

  lemma RequestKeeps(s: Session)
    requires Inv(s) && s.run.pc.Request?
    ensures Inv(MakeRequest(s))
  {
  }

  lemma StartPartialKeeps(s: Session, p: Message)
    requires Inv(s) && s.run.pc == Streaming(false)
    ensures Inv(StartPartial(s, p))
  {
    PartialAgrees(s, p, false);
    StartPartialLog(s, p);
  }

  lemma StartPartialLog(s: Session, p: Message)
    requires GrammarAt(s.log, Streaming(false), s.run.turnDone)
    ensures GrammarAt(StartPartial(s, p).log, Streaming(true), s.run.turnDone)
    ensures StartPartial(s, p).log.agent.messages == s.log.agent.messages
  {
    EmitSync(s.log.(context := s.log.context + [p]), MessageStart(p));
  }

  lemma UpdatePartialKeeps(s: Session, p: Message, quiet: bool)
    requires Inv(s) && s.run.pc == Streaming(true)
    ensures Inv(UpdatePartial(s, p, quiet))
  {
    PartialAgrees(s, p, quiet);
    if !quiet {
      EmitSync(s.log.(context := SetLast(s.log.context, p)), MessageUpdate(p));
    }
  }

  lemma FinishPartialKeeps(s: Session, f: Message)
    requires Inv(s) && s.run.pc == Streaming(true) && Streamable(f)
    ensures Inv(FinishPartial(s, f))
  {
    WholeAgrees(s, f);
    EmitSync(s.log.(context := SetLast(s.log.context, f)), MessageEnd(f));
    AppendLegal(s.log.agent.messages, f);
    OutstandingAppend(s.log.agent.messages, f);
  }

  lemma StartWholeKeeps(s: Session, f: Message)
    requires Inv(s) && s.run.pc == Streaming(false) && Streamable(f)
    ensures Inv(StartWhole(s, f))
  {
    WholeAgrees(s, f);
    EmitSync(s.log.(context := s.log.context + [f]), MessageStart(f));
  }

  lemma ClosingLog(l: Log, f: Message, turnDone: bool)
    requires AgreeAt(l, Closing(f)) && GrammarAt(l, Closing(f), turnDone)
    ensures var t := Emit(l, MessageEnd(f));
            && AgreeAt(t, Answered(f, true)) && GrammarAt(t, Answered(f, true), turnDone)
            && t.agent.messages == l.agent.messages + [f] && t.newMessages == l.newMessages
  {
    Assoc(l.start, l.newMessages, [f]);
    EmitSync(l, MessageEnd(f));
  }

  lemma ClosingKeeps(s: Session)
    requires Inv(s) && s.run.pc.Closing?
    ensures Inv(Go(s, Emit(s.log, MessageEnd(s.run.pc.final)), Answered(s.run.pc.final, true)))
  {
    var f := s.run.pc.final;
    ClosingLog(s.log, f, s.run.turnDone);
    FinalLegal(s.log.agent.messages, f);
  }

  lemma FinalLegal(ms: seq<Message>, f: Message)
    requires Legal(ms) && AllStreamable(ms) && Streamable(f)
    ensures Legal(ms + [f]) && AllStreamable(ms + [f]) && Outstanding(ms + [f]) == Ids(Calls(f.content))
  {
    AppendLegal(ms, f);
    OutstandingAppend(ms, f);
  }

  lemma EndTurnLog(l: Log, m: Message, isNew: bool, turnDone: bool)
    requires AgreeAt(l, Answered(m, isNew)) && GrammarAt(l, Answered(m, isNew), turnDone)
    ensures var t := Emit(Adopt(l, m, isNew), TurnEnd(m, []));
            && t.agent.messages == l.agent.messages
            && AgreeAt(t, Ending) && GrammarAt(t, Ending, turnDone) && AgreeAt(t, StopCheck) && GrammarAt(t, StopCheck, turnDone)
  {
    EndTurnAgrees(l, m, isNew);
    EmitSync(Adopt(l, m, isNew), TurnEnd(m, []));
  }

  lemma EndTurnAgrees(l: Log, m: Message, isNew: bool)
    requires AgreeAt(l, Answered(m, isNew))
    ensures var t := Emit(Adopt(l, m, isNew), TurnEnd(m, [])); AgreeAt(t, Ending) && AgreeAt(t, StopCheck)
  {
    AdoptAgrees(l, m, isNew);
  }

  lemma FailTurnKeeps(s: Session, m: Message)
    requires Inv(s) && s.run.pc == Answered(m, true)
    ensures Inv(FailTurn(s, m, true))
  {
    EndTurnLog(s.log, m, true, s.run.turnDone);
    FailedKeeps(s, Emit(Adopt(s.log, m, true), TurnEnd(m, [])));
  }

  lemma FailedKeeps(s: Session, log: Log)
    requires Inv(s) && s.run.pc.Answered? && s.run.pc.isNew && log.agent.messages == s.log.agent.messages
    requires AgreeAt(log, Ending) && GrammarAt(log, Ending, s.run.turnDone)
    ensures Inv(Go(s, log, Ending))
  {
  }

  lemma EndTurnKeeps(s: Session, m: Message)
    requires Inv(s) && s.run.pc == Answered(m, true)
    ensures Inv(EndTurn(s, m, true))
  {
    EndTurnLog(s.log, m, true, s.run.turnDone);
    EndedKeeps(s, Emit(Adopt(s.log, m, true), TurnEnd(m, [])));
  }

  lemma EndedKeeps(s: Session, log: Log)
    requires Inv(s) && s.run.pc.Answered? && s.run.pc.isNew && log.agent.messages == s.log.agent.messages
    requires AgreeAt(log, StopCheck) && GrammarAt(log, StopCheck, s.run.turnDone)
    ensures Inv(s.(log := log, run := s.run.(hasMore := false, pc := StopCheck)))
  {
  }

  /** The plan settles exactly the calls that are outstanding. */
  lemma PlanSettles(s: Session, m: Message, isNew: bool, safe: set<string>)
    requires Inv(s) && s.run.pc == Answered(m, isNew)
    ensures var plan := BatchPlan(s.run.resume, m, isNew, safe);
            && DistinctIds(plan.calls) && plan.forced <= |plan.calls|
            && Ids(plan.calls[0..]) == Outstanding(s.log.agent.messages)
  {
    var plan := BatchPlan(s.run.resume, m, isNew, safe);
    if !isNew {
      ResumePlanRearranges(s.run.resume.value.calls, safe);
    }
    assert plan.calls[0..] == plan.calls;
  }

  lemma BeginSeen(calls: seq<ToolCall>, scripts: seq<ToolBatch.Script>, forced: nat, parallel: bool, m: Monitor)
    requires Talking(m, false)
    ensures var b := ToolBatch.Begin(calls, scripts, forced, parallel);
            && b.slots == [] && b.messages == [] && b.calls == calls && !b.phase.Prepare? && ToolBatch.Seen(b, m)
  {
  }

  lemma BatchLog(l: Log, m: Message, isNew: bool, b: ToolBatch.Batch, turnDone: bool)
    requires AgreeAt(l, Answered(m, isNew)) && GrammarAt(l, Answered(m, isNew), turnDone)
    requires ToolBatch.Inv(b) && b.messages == [] && ToolBatch.Seen(b, Watch(l.trace))
    ensures var t := Adopt(l, m, isNew);
            && t.agent == l.agent && AgreeAt(t, InBatch(m, b)) && GrammarAt(t, InBatch(m, b), turnDone)
  {
    AdoptAgrees(l, m, isNew);
    assert Adopt(l, m, isNew).newMessages + [] == Adopt(l, m, isNew).newMessages;
  }

  lemma BeginBatchKeeps(s: Session, m: Message, isNew: bool, b: ToolBatch.Batch)
    requires Inv(s) && s.run.pc == Answered(m, isNew)
    requires ToolBatch.Inv(b) && ToolBatch.Clean(b) && b.messages == [] && ToolBatch.Seen(b, Watch(s.log.trace))
    requires Ids(b.calls[0..]) == Outstanding(s.log.agent.messages)
    ensures Inv(BeginBatch(s, m, isNew, b))
  {
    BatchLog(s.log, m, isNew, b, s.run.turnDone);
    BegunKeeps(s, Adopt(s.log, m, isNew), m, b);
  }

  lemma BegunKeeps(s: Session, log: Log, m: Message, b: ToolBatch.Batch)
    requires Inv(s) && s.run.pc.Answered? && log.agent == s.log.agent
    requires ToolBatch.Inv(b) && ToolBatch.Clean(b) && b.messages == []
    requires Ids(b.calls[0..]) == Outstanding(s.log.agent.messages)
    requires AgreeAt(log, InBatch(m, b)) && GrammarAt(log, InBatch(m, b), s.run.turnDone)
    ensures Inv(s.(log := log, run := s.run.(resume := None, pc := InBatch(m, b))))
  {
  }

  lemma FinishBatchLog(s: Session, m: Message, b: ToolBatch.Batch)
    requires ToolBatch.Inv(b) && b.phase.Finished?
    requires AgreeAt(s.log, InBatch(m, b)) && GrammarAt(s.log, InBatch(m, b), s.run.turnDone)
    ensures var t := FinishBatch(s, m, b);
            && t.log.agent.messages == s.log.agent.messages
            && AgreeAt(t.log, StopCheck) && GrammarAt(t.log, StopCheck, t.run.turnDone)
  {
    FinishBatchAgrees(s, m, b);
    var l := Append(s.log, b.messages, Generated);
    assert ToolBatch.LiveIds(b.calls, b.slots) == {};
    EmitSync(l.(context := l.context + b.messages), TurnEnd(m, b.messages));
  }

  lemma FinishBatchKeeps(s: Session, m: Message, b: ToolBatch.Batch)
    requires Inv(s) && s.run.pc == InBatch(m, b) && b.phase.Finished?
    ensures Inv(FinishBatch(s, m, b))
  {
    FinishBatchLog(s, m, b);
    var t := FinishBatch(s, m, b);
    FinishedKeeps(s, t.log, t.run.hasMore);
  }

  lemma FinishedKeeps(s: Session, log: Log, hasMore: bool)
    requires Inv(s) && s.run.pc.InBatch? && log.agent.messages == s.log.agent.messages
    requires AgreeAt(log, StopCheck) && GrammarAt(log, StopCheck, s.run.turnDone)
    ensures Inv(s.(log := log, run := s.run.(hasMore := hasMore, pc := StopCheck)))
  {
  }

  lemma ReportLegal(ms: seq<Message>, calls: seq<ToolCall>, before: seq<Message>, after: seq<Message>, es: seq<Event>)
    requires Legal(ms) && AllStreamable(ms) && DistinctIds(calls) && |after| <= |calls|
    requires Reports(before, after, es) && Outstanding(ms) == Ids(calls[|before|..])
    requires forall i :: 0 <= i < |after| ==> after[i].ToolResult? && after[i].callId == calls[i].id
    ensures var more := if after == before then ms else ms + [after[|before|]];
            Legal(more) && AllStreamable(more) && Outstanding(more) == Ids(calls[|after|..])
  {
    if after != before {
      var k := |before|;
      IdsTail(calls, k);
      AppendLegal(ms, after[k]);
      OutstandingAppend(ms, after[k]);
    }
  }

  lemma EmittedMessages(l: Log, before: seq<Message>, after: seq<Message>, es: seq<Event>)
    requires Reports(before, after, es)
    ensures EmitAll(l, es) == l.(agent := EmitAll(l, es).agent, trace := EmitAll(l, es).trace)
    ensures EmitAll(l, es).agent.messages == if after == before then l.agent.messages else l.agent.messages + [after[|before|]]
  {
    EmitAllOne(l, es);
  }

  lemma StepBatchKeeps(s: Session, m: Message, b: ToolBatch.Batch, a: ToolBatch.Action)
    requires Inv(s) && s.run.pc == InBatch(m, b)
    ensures Inv(StepBatch(s, m, b, a))
  {
    var (c, es) := ToolBatch.Step(b, a, s.run.aborted);
    ToolBatch.StepInv(b, a, s.run.aborted);
    ToolBatch.StepReports(b, a, s.run.aborted);
    ToolBatch.ReportsInOrder(c);
    BatchGrammar(s.log, m, b, a, s.run.aborted, s.run.turnDone);
    SteppedKeeps(s, m, b, c, es);
  }

  lemma SteppedKeeps(s: Session, m: Message, b: ToolBatch.Batch, c: ToolBatch.Batch, es: seq<Event>)
    requires Inv(s) && s.run.pc == InBatch(m, b)
    requires ToolBatch.Inv(c) && c.calls == b.calls && Reports(b.messages, c.messages, es)
    requires ToolBatch.AnsweredInOrder(c, c.messages) && (!s.run.aborted ==> ToolBatch.Clean(c))
    requires GrammarAt(EmitAll(s.log, es), InBatch(m, c), s.run.turnDone)
    ensures Inv(Go(s, EmitAll(s.log, es), InBatch(m, c)))
  {
    ReportAgrees(s.log, m, b, c, es);
    ReportLegal(s.log.agent.messages, b.calls, b.messages, c.messages, es);
    EmittedMessages(s.log, b.messages, c.messages, es);
  }

  lemma StopRunKeeps(s: Session)
    requires Inv(s) && s.run.pc.StopCheck?
    ensures Inv(StopRun(s))
  {
    EmitSync(s.log, AgentEnd(s.log.newMessages));
  }

  lemma EndRunKeeps(s: Session)
    requires Inv(s) && s.run.pc.Ending?
    ensures Inv(Go(s, Emit(s.log, AgentEnd(s.log.newMessages)), Over))
  {
    EmitSync(s.log, AgentEnd(s.log.newMessages));
  }

  lemma PollAfterTurnKeeps(s: Session)
    requires Inv(s) && s.run.pc.StopCheck?
    ensures Inv(PollAfterTurn(s))
  {
  }

  lemma FinishRunKeeps(s: Session)
    requires Inv(s) && s.run.pc.Over?
    ensures Inv(FinishRun(s))
  {
  }

  // ----- Dispatch -----

  lemma StreamKeeps(s: Session, r: RunAction)
    requires Inv(s) && s.run.pc.Streaming?
    ensures Inv(OnStream(s, s.run.pc.partial, r))
  {
    match r
    case StreamStart(p) => if !s.run.pc.partial { StartPartialKeeps(s, p); }
    case StreamDelta(p, prose) => if s.run.pc.partial { UpdatePartialKeeps(s, p, s.suppress && prose); }
    case StreamEnd(m) =>
      if Streamable(m) {
        var f := Final(s.suppress, m);
        if s.run.pc.partial { FinishPartialKeeps(s, f); } else { StartWholeKeeps(s, f); }
      }
    case _ =>
  }

  lemma AnswerKeeps(s: Session, r: RunAction)
    requires Inv(s) && s.run.pc.Answered?
    ensures Inv(OnAnswer(s, s.run.pc.message, s.run.pc.isNew, r))
  {
    var m, isNew := s.run.pc.message, s.run.pc.isNew;
    if m.stop.Failed? || m.stop.Cancelled? {
      FailTurnKeeps(s, m);
    } else if Calls(m.content) == [] {
      EndTurnKeeps(s, m);
    } else if r.BeginTools? {
      var plan := BatchPlan(s.run.resume, m, isNew, r.safe);
      if Fits(plan, r.scripts) {
        PlanSettles(s, m, isNew, r.safe);
        ToolBatch.BeginInv(plan.calls, r.scripts, plan.forced, r.parallel);
        BeginSeen(plan.calls, r.scripts, plan.forced, r.parallel, Watch(s.log.trace));
        BeginBatchKeeps(s, m, isNew, ToolBatch.Begin(plan.calls, r.scripts, plan.forced, r.parallel));
      }
    }
  }

  lemma BatchKeeps(s: Session, r: RunAction)
    requires Inv(s) && s.run.pc.InBatch?
    ensures Inv(OnBatch(s, s.run.pc.message, s.run.pc.batch, r))
  {
    var m, b := s.run.pc.message, s.run.pc.batch;
    if b.phase.Finished? {
      FinishBatchKeeps(s, m, b);
    } else if r.Tool? {
      StepBatchKeeps(s, m, b, r.action);
    }
  }

  lemma InjectKeeps(s: Session)
    requires Inv(s) && s.run.pc.Injecting?
    ensures var (queued, extras, begun) := (s.run.pc.queued, s.run.pc.extras, s.run.pc.begun);
            && (queued != [] ==> Inv(InjectQueued(s, queued, extras, begun)))
            && (queued == [] && extras != [] ==> Inv(InjectExtra(s, extras, begun)))
            && (queued == [] && extras == [] ==> Inv(EndInjecting(s)))
  {
    var queued, extras := s.run.pc.queued, s.run.pc.extras;
    if queued == [] && extras == [] {
      EndInjectingKeeps(s);
    } else if !s.run.pc.begun {
      AnnounceInjected(s, (queued + extras)[0]);
    } else if queued != [] {
      ConfirmInjected(s, queued[0], if s.run.pendingIsSteering then Steered else FollowedUp, queued[1..], extras);
    } else {
      ConfirmInjected(s, extras[0], Extra, [], extras[1..]);
    }
  }

  lemma EntryKeeps(s: Session, r: RunAction)
    requires Inv(s) && (s.run.pc.Begin? || s.run.pc.BeginTurn? || s.run.pc.TurnOpening?)
    ensures Inv(Advance(s, r))
  {
    match s.run.pc
    case Begin => BeginKeeps(s);
    case BeginTurn => BeginTurnKeeps(s);
    case TurnOpening => TurnOpeningKeeps(s);
  }

  lemma PromptKeeps(s: Session, r: RunAction)
    requires Inv(s) && s.run.pc.Prompting?
    ensures Inv(Advance(s, r))
  {
    if s.run.pc.begun { ConfirmPromptKeeps(s); } else { AnnouncePromptKeeps(s); }
  }

  lemma PrepareKeeps(s: Session, r: RunAction)
    requires Inv(s) && (s.run.pc.PrepareInitial? || s.run.pc.PrepareNext?)
    ensures Inv(Advance(s, r))
  {
    if r.Prepared? {
      if s.run.pc.PrepareInitial? { PrepareRunKeeps(s, r.replacement); } else { PrepareTurnKeeps(s, r.replacement); }
    }
  }

  lemma LoopKeeps(s: Session, r: RunAction)
    requires Inv(s) && (s.run.pc.LoopCheck? || s.run.pc.FollowUpPoll? || s.run.pc.SteeringHook?)
    ensures Inv(Advance(s, r))
  {
    match s.run.pc
    case LoopCheck => CheckLoopKeeps(s);
    case FollowUpPoll => PollFollowUpsKeeps(s);
    case SteeringHook => SteeringHookKeeps(s, if r.Extras? && AllInjectable(r.extras) then r.extras else []);
  }

  lemma TalkKeeps(s: Session, r: RunAction)
    requires Inv(s) && (s.run.pc.Injecting? || s.run.pc.Request? || s.run.pc.Streaming? || s.run.pc.Closing?)
    ensures Inv(Advance(s, r))
  {
    match s.run.pc
    case Injecting(_, _, _) => InjectKeeps(s);
    case Request => RequestKeeps(s);
    case Streaming(_) => StreamKeeps(s, r);
    case Closing(_) => ClosingKeeps(s);
  }

  lemma StopKeeps(s: Session, r: RunAction)
    requires Inv(s) && s.run.pc.StopCheck?
    ensures Inv(Advance(s, r))
  {
    if !r.Decide? {
      assert Advance(s, r) == s;
    } else if r.stop {
      assert Advance(s, r) == StopRun(s);
      StopRunKeeps(s);
    } else {
      assert Advance(s, r) == PollAfterTurn(s);
      PollAfterTurnKeeps(s);
    }
  }

  lemma EndKeeps(s: Session, r: RunAction)
    requires Inv(s) && (s.run.pc.Ending? || s.run.pc.Over?)
    ensures Inv(Advance(s, r))
  {
    if s.run.pc.Ending? { EndRunKeeps(s); } else { FinishRunKeeps(s); }
  }

  lemma AdvanceKeeps(s: Session, r: RunAction)
    requires Inv(s)
    ensures Inv(Advance(s, r))
  {
    match s.run.pc
    case Idle =>
    case Begin => EntryKeeps(s, r);
    case BeginTurn => EntryKeeps(s, r);
    case Prompting(_, _) => PromptKeeps(s, r);
    case PrepareInitial => PrepareKeeps(s, r);
    case LoopCheck => LoopKeeps(s, r);
    case FollowUpPoll => LoopKeeps(s, r);
    case PrepareNext => PrepareKeeps(s, r);
    case TurnOpening => EntryKeeps(s, r);
    case SteeringHook => LoopKeeps(s, r);
    case Injecting(_, _, _) => TalkKeeps(s, r);
    case Request => TalkKeeps(s, r);
    case Streaming(_) => TalkKeeps(s, r);
    case Closing(_) => TalkKeeps(s, r);
    case Answered(_, _) => AnswerKeeps(s, r);
    case InBatch(_, _) => BatchKeeps(s, r);
    case StopCheck => StopKeeps(s, r);
    case Ending => EndKeeps(s, r);
    case Over => EndKeeps(s, r);
  }

  // ----- Actions from outside the run -----

  lemma StartKeeps(s: Session, prompts: seq<Message>, origins: seq<Origin>, skip: bool, resume: Option<Pending>)
    requires Inv(s) && s.run.pc.Idle? && |prompts| == |origins| && AllInjectable(prompts)
    requires resume.Some? ==> resume == PendingCalls(s.log.agent.messages) && prompts == []
    ensures Inv(StartRun(s, prompts, origins, skip, resume))
  {
    if resume.Some? {
      ResumedTurn(s.log.agent.messages);
    }
  }

  lemma OpenTurnIsRecorded(ms: seq<Message>)
    ensures OpenTurn(ms).Some? ==> OpenTurn(ms).value.assistant in ms
  {
  }

  lemma ResumedTurn(ms: seq<Message>)
    requires AllStreamable(ms) && PendingCalls(ms).Some?
    ensures var p := PendingCalls(ms).value;
            && Streamable(p.assistant) && p.assistant.stop == ToolUse && DistinctIds(p.calls) && p.calls != []
            && Outstanding(ms) == Ids(p.calls) && Calls(p.assistant.content) != []
  {
    PendingIsOpen(ms);
    OpenTurnIsRecorded(ms);
  }

  lemma ContinueKeeps(s: Session)
    requires Inv(s) && s.run.pc.Idle?
    ensures Inv(StartContinue(s))
  {
    StartKeeps(s, [], [], false, None);
    var taken := Take(s.mail.follow);
    StartKeeps(s.(mail := s.mail.(follow := Rest(s.mail.follow))), taken, Repeat(FollowedUp, |taken|), false, None);
  }

  lemma PreludeKeeps(s: Session, extras: seq<Message>)
    requires Inv(s) && s.mail.prelude.Some? && AllInjectable(extras)
    ensures Inv(FinishPrelude(s, extras))
  {
    var batch, t := s.mail.prelude.value, s.(mail := s.mail.(prelude := None));
    if s.run.pc.Idle? {
      StartKeeps(t, batch + extras, Repeat(Steered, |batch|) + Repeat(Extra, |extras|), true, None);
    }
  }

  lemma MailKeeps(s: Session, mail: Mail)
    requires Inv(s) && AllInjectable(mail.steer.messages) && AllInjectable(mail.follow.messages)
    requires mail.prelude == s.mail.prelude
    ensures Inv(s.(mail := mail))
  {
  }

  lemma AbortKeeps(s: Session)
    requires Inv(s)
    ensures Inv(s.(run := s.run.(aborted := true)))
  {
  }

  lemma CrashKeeps(s: Session)
    requires Inv(s)
    ensures Inv(Crashed(s))
  {
  }

  lemma StepKeeps(s: Session, a: Action)
    requires Inv(s)
    ensures Inv(Step(s, a))
  {
    match a
    case Steer(m) =>
      MailKeeps(s, s.mail.(steer := if Injectable(m) then Enqueue(s.mail.steer, m) else s.mail.steer,
                           steered := s.mail.steered + [m]));
    case FollowUp(m) =>
      MailKeeps(s, s.mail.(follow := if Injectable(m) then Enqueue(s.mail.follow, m) else s.mail.follow,
                           followed := s.mail.followed + [m]));
    case Abort => AbortKeeps(s);
    case Prompt(ms) =>
      if s.run.pc.Idle? && AllInjectable(ms) { StartKeeps(s, ms, Repeat(Prompted, |ms|), false, None); }
    case Continue => if s.run.pc.Idle? && s.mail.prelude.None? { ContinueKeeps(s); }
    case HookReturned(xs) => if s.mail.prelude.Some? && AllInjectable(xs) { PreludeKeeps(s, xs); }
    case Resume => if s.run.pc.Idle? { StartKeeps(s, [], [], false, PendingCalls(s.log.agent.messages)); }
    case Crash => CrashKeeps(s);
    case Proceed(r) => AdvanceKeeps(s, r);
  }
}
