/** Further promises of a run: which calls of an answer execute, what the wrapper shows while a
    message streams, what suppression leaves of an answer, and what is injected before a request. */
module AgentConduct {
  import opened Options
  import opened Transcript
  import opened EventGrammar
  import opened AgentSession
  import opened AgentMail
  import opened AgentTranscripts
  import opened AgentInvariant
  import opened AgentTurns
  import opened AgentTheorems
  import ToolBatch

  // ----- What one step of the loop can do -----

  /** At most one event, and the wrapper reduces it. */
  predicate Grown(l: Log, t: Log) {
    || (t.trace == l.trace && t.agent == l.agent)
    || (t.trace != [] && t.trace[..|t.trace| - 1] == l.trace && t.agent == Reduce(l.agent, t.trace[|t.trace| - 1]))
  }

  predicate AnswerEnd(e: Event) {
    e.MessageEnd? && e.message.Assistant?
  }

  /** Before the first poll of a run. */
  predicate Early(pc: Control) {
    pc.Begin? || pc.BeginTurn? || pc.Prompting? || pc.PrepareInitial?
  }

  /** Only the first poll can be skipped. */
  predicate SkipKept(run: Locals, next: Locals) {
    next.skipPoll && !next.aborted ==>
      run.skipPoll && !run.aborted && (Early(run.pc) && run.resume.None? ==> Early(next.pc) && next.resume.None?)
  }

  /** An answer ends, or is about to, only as the stream delivered it. */
  predicate Conducts(s: Session, t: Session) {
    && t.suppress == s.suppress && Grown(s.log, t.log) && SkipKept(s.run, t.run)
    && (t.log.trace != s.log.trace && t.log.trace != [] && AnswerEnd(t.log.trace[|t.log.trace| - 1]) ==>
          var m := t.log.trace[|t.log.trace| - 1].message;
          s.run.pc == Closing(m) || (s.run.pc.Streaming? && (s.suppress ==> Bare(m.content))))
    && (t.run.pc.Closing? ==>
          t.run.pc == s.run.pc || (s.run.pc.Streaming? && t.run.pc.final.Assistant? && (s.suppress ==> Bare(t.run.pc.final.content))))
    && (t.run.pc.InBatch? ==> s.run.pc.InBatch? || s.run.pc.Answered?)
  }

  lemma Silent(s: Session, t: Session)
    requires t.suppress == s.suppress && t.log.trace == s.log.trace && t.log.agent == s.log.agent && SkipKept(s.run, t.run)
    requires !t.run.pc.Closing? && (t.run.pc.InBatch? ==> s.run.pc.InBatch? || s.run.pc.Answered?)
    ensures Conducts(s, t)
  {
  }

  lemma Speaks(s: Session, t: Session, e: Event)
    requires t.suppress == s.suppress && t.log.trace == s.log.trace + [e] && t.log.agent == Reduce(s.log.agent, e)
    requires SkipKept(s.run, t.run)
    requires !t.run.pc.Closing? && (t.run.pc.InBatch? ==> s.run.pc.InBatch? || s.run.pc.Answered?)
    requires AnswerEnd(e) ==> s.run.pc == Closing(e.message) || (s.run.pc.Streaming? && (s.suppress ==> Bare(e.message.content)))
    ensures Conducts(s, t)
  {
  }

  lemma PromptConducts(s: Session, i: nat)
    requires s.run.pc.Prompting? && i < |s.log.newMessages| && Injectable(s.log.newMessages[i])
    ensures Conducts(s, AnnouncePrompt(s, i)) && Conducts(s, ConfirmPrompt(s, i))
  {
    Speaks(s, AnnouncePrompt(s, i), MessageStart(s.log.newMessages[i]));
    Speaks(s, ConfirmPrompt(s, i), MessageEnd(s.log.newMessages[i]));
  }

  lemma PrepareConducts(s: Session, replacement: Option<seq<Message>>)
    ensures s.run.pc.PrepareInitial? ==> Conducts(s, PrepareRun(s, replacement))
    ensures s.run.pc.PrepareNext? ==> Conducts(s, PrepareTurn(s, replacement))
  {
    if s.run.pc.PrepareInitial? { Silent(s, PrepareRun(s, replacement)); }
    if s.run.pc.PrepareNext? { Silent(s, PrepareTurn(s, replacement)); }
  }

  lemma PollConducts(s: Session)
    requires !Early(s.run.pc)
    ensures Conducts(s, PollFollowUps(s)) && Conducts(s, PollAfterTurn(s))
  {
    Silent(s, PollFollowUps(s));
    Silent(s, PollAfterTurn(s));
  }

  lemma QueuedConducts(s: Session, queued: seq<Message>, extras: seq<Message>, begun: bool)
    requires queued != [] && Injectable(queued[0]) && s.run.pc.Injecting?
    ensures Conducts(s, InjectQueued(s, queued, extras, begun))
  {
    Speaks(s, InjectQueued(s, queued, extras, begun), if begun then MessageEnd(queued[0]) else MessageStart(queued[0]));
  }

  lemma ExtraConducts(s: Session, extras: seq<Message>, begun: bool)
    requires extras != [] && Injectable(extras[0]) && s.run.pc.Injecting?
    ensures Conducts(s, InjectExtra(s, extras, begun))
  {
    Speaks(s, InjectExtra(s, extras, begun), if begun then MessageEnd(extras[0]) else MessageStart(extras[0]));
  }

  lemma StreamConducts(s: Session, partial: bool, r: RunAction)
    requires s.run.pc == Streaming(partial)
    ensures Conducts(s, OnStream(s, partial, r))
  {
    match r
    case StreamStart(p) => Speaks(s, StartPartial(s, p), MessageStart(p)); Silent(s, s);
    case StreamDelta(p, prose) => DeltaConducts(s, p, s.suppress && prose); Silent(s, s);
    case StreamEnd(m) => if Streamable(m) { EndConducts(s, Final(s.suppress, m)); } else { Silent(s, s); }
    case _ => Silent(s, s);
  }

  lemma DeltaConducts(s: Session, p: Message, quiet: bool)
    requires s.run.pc.Streaming?
    ensures Conducts(s, UpdatePartial(s, p, quiet))
  {
    if quiet { Silent(s, UpdatePartial(s, p, quiet)); } else { Speaks(s, UpdatePartial(s, p, quiet), MessageUpdate(p)); }
  }

  lemma EndConducts(s: Session, f: Message)
    requires s.run.pc.Streaming? && f.Assistant? && (s.suppress ==> Bare(f.content))
    ensures Conducts(s, FinishPartial(s, f)) && Conducts(s, StartWhole(s, f))
  {
    Speaks(s, FinishPartial(s, f), MessageEnd(f));
  }

  lemma BareConducts(s: Session, m: Message, isNew: bool)
    requires s.run.pc.Answered?
    ensures Conducts(s, FailTurn(s, m, isNew)) && Conducts(s, EndTurn(s, m, isNew))
  {
    Speaks(s, FailTurn(s, m, isNew), TurnEnd(m, []));
    Speaks(s, EndTurn(s, m, isNew), TurnEnd(m, []));
  }

  lemma BeginConducts(s: Session, m: Message, isNew: bool, b: ToolBatch.Batch)
    requires s.run.pc.Answered?
    ensures Conducts(s, BeginBatch(s, m, isNew, b))
  {
    Silent(s, BeginBatch(s, m, isNew, b));
  }

  lemma ToolsConduct(s: Session, m: Message, isNew: bool, r: RunAction)
    requires s.run.pc.Answered? && !s.run.pc.Closing? && m.Assistant? && r.BeginTools?
    ensures Conducts(s, StartTools(s, m, isNew, r))
  {
    var plan := BatchPlan(s.run.resume, m, isNew, r.safe);
    BeginConducts(s, m, isNew, ToolBatch.Begin(plan.calls, r.scripts, plan.forced, r.parallel));
    Still(s);
  }

  /** A step that does not apply. */
  lemma Still(s: Session)
    ensures Conducts(s, s)
  {
  }

  lemma AnswerConducts(s: Session, m: Message, isNew: bool, r: RunAction)
    requires s.run.pc == Answered(m, isNew)
    ensures Conducts(s, OnAnswer(s, m, isNew, r))
  {
    Still(s);
    BareConducts(s, m, isNew);
    if m.Assistant? && r.BeginTools? { ToolsConduct(s, m, isNew, r); }
  }

  lemma BatchConducts(s: Session, m: Message, b: ToolBatch.Batch, r: RunAction)
    requires s.run.pc == InBatch(m, b)
    ensures Conducts(s, OnBatch(s, m, b, r))
  {
    Silent(s, s);
    if ToolBatch.Inv(b) && b.phase.Finished? {
      Speaks(s, FinishBatch(s, m, b), TurnEnd(m, b.messages));
    } else if ToolBatch.Inv(b) && r.Tool? {
      ToolConducts(s, m, b, r.action);
    }
  }

  lemma ToolConducts(s: Session, m: Message, b: ToolBatch.Batch, a: ToolBatch.Action)
    requires s.run.pc == InBatch(m, b) && ToolBatch.Inv(b)
    ensures Conducts(s, StepBatch(s, m, b, a))
  {
    var c, es := ToolBatch.Step(b, a, s.run.aborted).0, ToolBatch.Step(b, a, s.run.aborted).1;
    ToolBatch.StepEmitsOne(b, a, s.run.aborted);
    if es != [] { ResultsOnly(b, a, s.run.aborted); }
    EventsConduct(s, m, c, es);
  }

  lemma EventsConduct(s: Session, m: Message, c: ToolBatch.Batch, es: seq<Event>)
    requires s.run.pc.InBatch? && |es| <= 1 && (es != [] ==> !AnswerEnd(es[0]))
    ensures Conducts(s, Go(s, EmitAll(s.log, es), InBatch(m, c)))
  {
    EmitAllOne(s.log, es);
    var t := Go(s, EmitAll(s.log, es), InBatch(m, c));
    if es == [] { Silent(s, t); } else { Speaks(s, t, es[0]); }
  }

  /** The messages a batch ends are tool results. */
  lemma ResultsOnly(b: ToolBatch.Batch, a: ToolBatch.Action, aborted: bool)
    requires ToolBatch.Inv(b) && ToolBatch.Step(b, a, aborted).1 != []
    ensures !AnswerEnd(ToolBatch.Step(b, a, aborted).1[0])
  {
    if !b.phase.Report? { ToolBatch.QuietStep(b, a, aborted); }
  }

  lemma GoConducts(s: Session, e: Event, pc: Control)
    requires !pc.Closing? && !pc.InBatch? && !AnswerEnd(e) && (Early(s.run.pc) ==> Early(pc))
    ensures Conducts(s, Go(s, Emit(s.log, e), pc))
  {
    Speaks(s, Go(s, Emit(s.log, e), pc), e);
  }

  lemma MoveConducts(s: Session, extras: seq<Message>)
    requires !Early(s.run.pc)
    ensures Conducts(s, CheckLoop(s)) && Conducts(s, MakeRequest(s)) && Conducts(s, Go(s, s.log, Request))
    ensures Conducts(s, BeginInjecting(s, extras))
  {
    Silent(s, CheckLoop(s));
    Silent(s, MakeRequest(s));
    Silent(s, Go(s, s.log, Request));
    Silent(s, BeginInjecting(s, extras));
  }

  lemma StopConducts(s: Session)
    requires s.run.pc.StopCheck?
    ensures Conducts(s, StopRun(s))
  {
    Speaks(s, StopRun(s), AgentEnd(s.log.newMessages));
  }

  lemma ClosingConducts(s: Session, f: Message)
    requires s.run.pc == Closing(f)
    ensures Conducts(s, Go(s, Emit(s.log, MessageEnd(f)), Answered(f, true)))
  {
    Speaks(s, Go(s, Emit(s.log, MessageEnd(f)), Answered(f, true)), MessageEnd(f));
  }

  lemma EntryConducts(s: Session, r: RunAction)
    requires s.run.pc.Begin? || s.run.pc.BeginTurn? || s.run.pc.TurnOpening? || s.run.pc.Ending?
    ensures Conducts(s, Advance(s, r))
  {
    match s.run.pc
    case Begin => GoConducts(s, AgentStart, BeginTurn);
    case BeginTurn => GoConducts(s, TurnStart, PromptAt(s.log, 0));
    case TurnOpening => GoConducts(s, TurnStart, SteeringHook);
    case Ending => GoConducts(s, AgentEnd(s.log.newMessages), Over);
  }

  lemma OpeningConducts(s: Session, r: RunAction)
    requires MailAt(s) && !TurnBegun(s.run.pc) && !s.run.pc.Idle? && !s.run.pc.Over?
    ensures Conducts(s, Advance(s, r))
  {
    Still(s);
    match s.run.pc
    case Prompting(i, _) => if i < |s.log.newMessages| { PromptConducts(s, i); }
    case PrepareInitial => if r.Prepared? { PrepareConducts(s, r.replacement); }
    case LoopCheck => MoveConducts(s, []);
    case FollowUpPoll => PollConducts(s);
    case PrepareNext => if r.Prepared? { PrepareConducts(s, r.replacement); }
    case SteeringHook => MoveConducts(s, if r.Extras? then r.extras else []);
    case _ => EntryConducts(s, r);
  }

  lemma InjectingConducts(s: Session, r: RunAction)
    requires MailAt(s) && s.run.pc.Injecting?
    ensures Conducts(s, Advance(s, r))
  {
    var queued, extras, begun := s.run.pc.queued, s.run.pc.extras, s.run.pc.begun;
    if queued != [] {
      assert Advance(s, r) == InjectQueued(s, queued, extras, begun);
      QueuedConducts(s, queued, extras, begun);
    } else if extras != [] {
      assert Advance(s, r) == InjectExtra(s, extras, begun);
      ExtraConducts(s, extras, begun);
    } else {
      assert Advance(s, r) == EndInjecting(s);
      Silent(s, EndInjecting(s));
    }
  }

  lemma DecisionConducts(s: Session, r: RunAction)
    requires s.run.pc.StopCheck?
    ensures Conducts(s, Advance(s, r))
  {
    Still(s);
    StopConducts(s);
    PollConducts(s);
  }

  lemma RequestConducts(s: Session, r: RunAction)
    requires s.run.pc.Request?
    ensures Conducts(s, Advance(s, r))
  {
    MoveConducts(s, []);
    assert Advance(s, r) == MakeRequest(s);
  }

  lemma StreamingConducts(s: Session, r: RunAction)
    requires s.run.pc.Streaming?
    ensures Conducts(s, Advance(s, r))
  {
    StreamConducts(s, s.run.pc.partial, r);
    assert Advance(s, r) == OnStream(s, s.run.pc.partial, r);
  }

  lemma AnsweredConducts(s: Session, r: RunAction)
    requires s.run.pc.Answered?
    ensures Conducts(s, Advance(s, r))
  {
    AnswerConducts(s, s.run.pc.message, s.run.pc.isNew, r);
    assert Advance(s, r) == OnAnswer(s, s.run.pc.message, s.run.pc.isNew, r);
  }

  lemma SettlingConducts(s: Session, r: RunAction)
    requires s.run.pc.InBatch?
    ensures Conducts(s, Advance(s, r))
  {
    BatchConducts(s, s.run.pc.message, s.run.pc.batch, r);
    assert Advance(s, r) == OnBatch(s, s.run.pc.message, s.run.pc.batch, r);
  }

  lemma ClosedConducts(s: Session, r: RunAction)
    requires s.run.pc.Closing?
    ensures Conducts(s, Advance(s, r))
  {
    ClosingConducts(s, s.run.pc.final);
    assert Advance(s, r) == Go(s, Emit(s.log, MessageEnd(s.run.pc.final)), Answered(s.run.pc.final, true));
  }

  lemma AskingConducts(s: Session, r: RunAction)
    requires s.run.pc.Request? || s.run.pc.Streaming? || s.run.pc.Closing?
    ensures Conducts(s, Advance(s, r))
  {
    if s.run.pc.Request? { RequestConducts(s, r); }
    else if s.run.pc.Streaming? { StreamingConducts(s, r); }
    else { ClosedConducts(s, r); }
  }

  lemma TurnConducts(s: Session, r: RunAction)
    requires MailAt(s) && TurnBegun(s.run.pc)
    ensures Conducts(s, Advance(s, r))
  {
    if s.run.pc.Injecting? { InjectingConducts(s, r); }
    else if s.run.pc.StopCheck? { DecisionConducts(s, r); }
    else if s.run.pc.Answered? { AnsweredConducts(s, r); }
    else if s.run.pc.InBatch? { SettlingConducts(s, r); }
    else { AskingConducts(s, r); }
  }

  // ----- The calls of an answer -----

  predicate AnsweredWith(script: ToolBatch.Script, text: string) {
    script.prep == ToolBatch.Answered(text)
  }

  /** The batch of a streamed answer takes its calls in order; a truncated answer's are all answered
      in advance, any other's none. */
  predicate TakesCalls(m: Message, b: ToolBatch.Batch) {
    && m.Assistant? && b.calls == Calls(m.content) && |b.scripts| == |b.calls|
    && forall i :: 0 <= i < |b.calls| ==>
         if m.stop.Length? then AnsweredWith(b.scripts[i], Truncated(b.calls[i])) else !b.scripts[i].prep.Answered?
  }

  /** A batch without a new message is a resumed one. */
  predicate PlanInv(s: Session) {
    s.run.pc.InBatch? ==>
      if s.log.newMessages == [] then s.run.pc.message.Assistant? && s.run.pc.message.stop == ToolUse
      else TakesCalls(s.run.pc.message, s.run.pc.batch)
  }

  lemma FitsTakes(m: Message, scripts: seq<ToolBatch.Script>, parallel: bool)
    requires m.Assistant?
    requires var plan := BatchPlan(None, m, true, {}); Fits(plan, scripts)
    ensures var plan := BatchPlan(None, m, true, {});
            TakesCalls(m, ToolBatch.Begin(plan.calls, scripts, plan.forced, parallel))
  {
  }

  lemma ToolsPlan(s: Session, m: Message, isNew: bool, r: RunAction)
    requires ResumeAt(s.log, s.run) && LegalAt(s.log, s.run) && s.run.pc == Answered(m, isNew) && r.BeginTools?
    ensures PlanInv(StartTools(s, m, isNew, r))
  {
    var plan := BatchPlan(s.run.resume, m, isNew, r.safe);
    if isNew && Fits(plan, r.scripts) {
      FitsTakes(m, r.scripts, r.parallel);
    }
  }

  lemma SamePlanTakes(m: Message, b: ToolBatch.Batch, c: ToolBatch.Batch)
    requires TakesCalls(m, b) && ToolBatch.SamePlan(b, c)
    ensures TakesCalls(m, c)
  {
  }

  lemma ToolKeepsPlan(s: Session, m: Message, b: ToolBatch.Batch, a: ToolBatch.Action)
    requires ToolBatch.Inv(b) && PlanInv(s) && s.run.pc == InBatch(m, b)
    ensures PlanInv(StepBatch(s, m, b, a))
  {
    ToolBatch.StepPlan(b, a, s.run.aborted);
    SamePlanKeeps(s, m, b, ToolBatch.Step(b, a, s.run.aborted).0, ToolBatch.Step(b, a, s.run.aborted).1);
  }

  lemma SamePlanKeeps(s: Session, m: Message, b: ToolBatch.Batch, c: ToolBatch.Batch, es: seq<Event>)
    requires PlanInv(s) && s.run.pc == InBatch(m, b) && ToolBatch.SamePlan(b, c)
    ensures PlanInv(Go(s, EmitAll(s.log, es), InBatch(m, c)))
  {
    EmitAllQuiet(s.log, es);
    if s.log.newMessages != [] { SamePlanTakes(m, b, c); }
  }

  lemma BatchKeepsPlan(s: Session, m: Message, b: ToolBatch.Batch, r: RunAction)
    requires PlanInv(s) && s.run.pc == InBatch(m, b)
    ensures PlanInv(OnBatch(s, m, b, r))
  {
    if ToolBatch.Inv(b) && !b.phase.Finished? && r.Tool? {
      ToolKeepsPlan(s, m, b, r.action);
    }
  }

  lemma BarePlan(s: Session, m: Message, isNew: bool)
    ensures PlanInv(FailTurn(s, m, isNew)) && PlanInv(EndTurn(s, m, isNew))
  {
  }

  lemma AnswerPlan(s: Session, m: Message, isNew: bool, r: RunAction)
    requires Inv(s) && PlanInv(s) && s.run.pc == Answered(m, isNew)
    ensures PlanInv(OnAnswer(s, m, isNew, r))
  {
    BarePlan(s, m, isNew);
    if m.Assistant? && r.BeginTools? { ToolsPlan(s, m, isNew, r); }
  }

  lemma AdvancePlan(s: Session, r: RunAction)
    requires Inv(s) && PlanInv(s)
    ensures PlanInv(Advance(s, r))
  {
    if s.run.pc.InBatch? {
      BatchKeepsPlan(s, s.run.pc.message, s.run.pc.batch, r);
    } else if s.run.pc.Answered? {
      AnswerPlan(s, s.run.pc.message, s.run.pc.isNew, r);
    } else {
      OthersBeginNone(s, r);
    }
  }

  lemma OthersBeginNone(s: Session, r: RunAction)
    requires MailAt(s) && !s.run.pc.InBatch? && !s.run.pc.Answered?
    ensures !Advance(s, r).run.pc.InBatch?
  {
    if !s.run.pc.Idle? && !s.run.pc.Over? {
      AdvanceConducts(s, r);
    }
  }

  /** Every step of a run in progress. */
  lemma AdvanceConducts(s: Session, r: RunAction)
    requires MailAt(s)
    ensures s.run.pc.Idle? || s.run.pc.Over? || Conducts(s, Advance(s, r))
  {
    if TurnBegun(s.run.pc) {
      TurnConducts(s, r);
    } else if !s.run.pc.Idle? && !s.run.pc.Over? {
      OpeningConducts(s, r);
    }
  }

  // ----- What the wrapper shows and what suppression leaves -----

  /** The message on show: the last one begun or updated, until it ends. */
  function Shown(trace: seq<Event>): Option<Message> {
    if trace == [] then None
    else
      match trace[|trace| - 1]
      case MessageStart(m) => Some(m)
      case MessageUpdate(m) => Some(m)
      case MessageEnd(_) => None
      case AgentEnd(_) => None
      case _ => Shown(trace[..|trace| - 1])
  }

  /** No answer ended with anything but calls. */
  predicate Muted(trace: seq<Event>) {
    forall k :: 0 <= k < |trace| && AnswerEnd(trace[k]) ==> Bare(trace[k].message.content)
  }

  predicate ShowInv(s: Session) {
    && (!s.run.pc.Idle? ==> s.log.agent.streaming == Shown(s.log.trace))
    && (s.suppress ==> Muted(s.log.trace) && (s.run.pc.Closing? && s.run.pc.final.Assistant? ==> Bare(s.run.pc.final.content)))
  }

  predicate SkipInv(run: Locals) {
    run.skipPoll && !run.aborted && !run.pc.Idle? ==> Early(run.pc) && run.resume.None?
  }

  lemma ConductsShow(s: Session, t: Session)
    requires ShowInv(s) && Conducts(s, t) && !s.run.pc.Idle?
    ensures ShowInv(t) && (SkipInv(s.run) ==> SkipInv(t.run))
  {
    if t.log.trace != s.log.trace {
      var e := t.log.trace[|t.log.trace| - 1];
      assert t.log.trace == s.log.trace + [e];
    }
  }

  lemma AdvanceShow(s: Session, r: RunAction)
    requires Inv(s) && ShowInv(s) && SkipInv(s.run)
    ensures ShowInv(Advance(s, r)) && SkipInv(Advance(s, r).run)
  {
    if !s.run.pc.Idle? && !s.run.pc.Over? {
      AdvanceConducts(s, r);
      ConductsShow(s, Advance(s, r));
    }
  }

  lemma OutsidePlan(s: Session, a: Action)
    requires PlanInv(s) && !a.Proceed?
    ensures PlanInv(Step(s, a))
  {
  }

  lemma OutsideShow(s: Session, a: Action)
    requires ShowInv(s) && !a.Proceed?
    ensures ShowInv(Step(s, a))
  {
  }

  lemma OutsideSkip(s: Session, a: Action)
    requires SkipInv(s.run) && !a.Proceed?
    ensures SkipInv(Step(s, a).run)
  {
  }

  ghost predicate ConductInv(s: Session) {
    PlanInv(s) && ShowInv(s) && SkipInv(s.run)
  }

  lemma StepConduct(s: Session, a: Action)
    requires Inv(s) && ConductInv(s)
    ensures ConductInv(Step(s, a))
  {
    if a.Proceed? {
      AdvancePlan(s, a.run);
      AdvanceShow(s, a.run);
    } else {
      OutsidePlan(s, a);
      OutsideShow(s, a);
      OutsideSkip(s, a);
    }
  }

  lemma {:induction false} RunConduct(s: Session, actions: seq<Action>)
    requires Sound(s) && ConductInv(s)
    ensures Sound(Run(s, actions)) && ConductInv(Run(s, actions))
  {
    RunSound(s, actions);
    if actions != [] {
      var front := actions[..|actions| - 1];
      RunConduct(s, front);
      StepConduct(Run(s, front), actions[|actions| - 1]);
    }
  }

  lemma ReachableConduct(s: Session)
    requires Reachable(s)
    ensures ConductInv(s)
    ensures s.run.pc.InBatch? ==> ToolBatch.Inv(s.run.pc.batch)
  {
    var messages, m1, m2, suppress, actions :|
      Storable(messages) && s == Run(InitialSession(messages, m1, m2, suppress), actions);
    InitialSound(messages, m1, m2, suppress);
    RunConduct(InitialSession(messages, m1, m2, suppress), actions);
    if s.run.pc.InBatch? { SoundBatch(s); }
  }

  /** Over every run: while it lasts the wrapper shows exactly the message being streamed or reported,
      and with suppression no answer ends with anything but its calls. */
  lemma ShowsWhatStreams(s: Session)
    requires Reachable(s)
    ensures !s.run.pc.Idle? ==> s.log.agent.streaming == Shown(s.log.trace)
    ensures s.suppress ==> Muted(s.log.trace)
  {
    ReachableConduct(s);
  }

  predicate ReportsTruncated(m: Message, call: ToolCall) {
    m == ToolResult(call.id, call.name, Truncated(call), true)
  }

  /** Over every run: no call of a truncated answer executes, and each that is reported says why. */
  lemma TruncatedNeverExecutes(s: Session, i: nat)
    requires Reachable(s) && s.run.pc.InBatch? && s.run.pc.message.Assistant? && s.run.pc.message.stop.Length?
    ensures var m, b := s.run.pc.message, s.run.pc.batch;
            && b.calls == Calls(m.content)
            && (i < |b.slots| ==> b.slots[i].Settled?)
            && (i < |b.messages| && i < |b.calls| ==> ReportsTruncated(b.messages[i], b.calls[i]))
  {
    TruncatedBatch(s);
    TruncatedSlots(s.run.pc.message, s.run.pc.batch, i);
  }

  lemma TruncatedBatch(s: Session)
    requires Reachable(s) && s.run.pc.InBatch? && s.run.pc.message.Assistant? && s.run.pc.message.stop.Length?
    ensures ToolBatch.Inv(s.run.pc.batch) && TakesCalls(s.run.pc.message, s.run.pc.batch)
  {
    ReachableConduct(s);
  }

  lemma TruncatedSlots(m: Message, b: ToolBatch.Batch, i: nat)
    requires ToolBatch.Inv(b) && TakesCalls(m, b) && m.stop.Length?
    ensures b.calls == Calls(m.content)
    ensures i < |b.slots| ==> b.slots[i].Settled?
    ensures i < |b.messages| ==> ReportsTruncated(b.messages[i], b.calls[i])
  {
    if i < |b.slots| {
      AnsweredSlot(b, i, Truncated(b.calls[i]));
    }
  }

  lemma AnsweredSlot(b: ToolBatch.Batch, i: nat, text: string)
    requires ToolBatch.Inv(b) && i < |b.slots| && b.scripts[i].prep == ToolBatch.Answered(text)
    ensures b.slots[i].Settled?
    ensures i < |b.messages| ==> b.messages[i] == ToolResult(b.calls[i].id, b.calls[i].name, text, true)
  {
    assert ToolBatch.SlotOk(b.calls[i], b.scripts[i], b.slots[i], false);
  }

  /** Any other streamed answer's calls are all up for execution, in order. */
  lemma StreamedCallsExecute(s: Session)
    requires Reachable(s) && s.run.pc.InBatch? && s.log.newMessages != []
    ensures var m, b := s.run.pc.message, s.run.pc.batch;
            && m.Assistant? && b.calls == Calls(m.content)
            && (!m.stop.Length? ==> b.forced == 0)
  {
    ReachableConduct(s);
    NothingForced(s.run.pc.message, s.run.pc.batch);
  }

  lemma NothingForced(m: Message, b: ToolBatch.Batch)
    requires ToolBatch.Inv(b) && TakesCalls(m, b)
    ensures !m.stop.Length? ==> b.forced == 0
  {
    assert b.forced > 0 ==> b.scripts[0].prep.Answered?;
  }

  // ----- Before a request -----

  function Ticks(s: Session, n: nat): Session
    decreases n
  {
    if n == 0 then s else Ticks(Step(s, Proceed(Tick)), n - 1)
  }

  predicate Injected(s: Session, t: Session, ms: seq<Message>) {
    t.run.pc.Request? && t.log.newMessages == s.log.newMessages + ms && t.log.context == s.log.context + ms && t.mail == s.mail
  }

  /** One message joined the context and the new messages. */
  predicate Joined(s: Session, t: Session, m: Message, queued: seq<Message>, extras: seq<Message>) {
    && t.run.pc == Injecting(queued, extras, false) && t.mail == s.mail
    && t.log.newMessages == s.log.newMessages + [m] && t.log.context == s.log.context + [m]
  }

  lemma InjectTwice(s: Session)
    ensures Ticks(s, 2) == Step(Step(s, Proceed(Tick)), Proceed(Tick))
  {
    assert Ticks(s, 2) == Ticks(Step(s, Proceed(Tick)), 1);
  }

  lemma InjectOneQueued(s: Session, queued: seq<Message>, extras: seq<Message>)
    requires s.run.pc == Injecting(queued, extras, false) && queued != []
    ensures Joined(s, Ticks(s, 2), queued[0], queued[1..], extras)
  {
    InjectTwice(s);
    assert Step(s, Proceed(Tick)) == InjectQueued(s, queued, extras, false);
  }

  lemma InjectOneExtra(s: Session, extras: seq<Message>)
    requires s.run.pc == Injecting([], extras, false) && extras != []
    ensures Joined(s, Ticks(s, 2), extras[0], [], extras[1..])
  {
    InjectTwice(s);
    assert Step(s, Proceed(Tick)) == InjectExtra(s, extras, false);
  }

  lemma {:induction false} TicksAdd(s: Session, i: nat, j: nat)
    ensures Ticks(s, i + j) == Ticks(Ticks(s, i), j)
    decreases i
  {
    if i > 0 { TicksAdd(Step(s, Proceed(Tick)), i - 1, j); }
  }

  lemma JoinedInjected(s: Session, t: Session, u: Session, m: Message, queued: seq<Message>, extras: seq<Message>)
    requires Joined(s, t, m, queued, extras) && Injected(t, u, queued + extras)
    ensures Injected(s, u, [m] + queued + extras)
  {
    assert [m] + queued + extras == [m] + (queued + extras);
  }

  lemma InjectFirst(s: Session, queued: seq<Message>, extras: seq<Message>)
    returns (m: Message, queue: seq<Message>, more: seq<Message>)
    requires s.run.pc == Injecting(queued, extras, false) && (queued != [] || extras != [])
    ensures Joined(s, Ticks(s, 2), m, queue, more) && [m] + queue + more == queued + extras
    ensures |queue| + |more| < |queued| + |extras|
  {
    if queued != [] {
      m, queue, more := queued[0], queued[1..], extras;
      InjectOneQueued(s, queued, extras);
    } else {
      m, queue, more := extras[0], [], extras[1..];
      InjectOneExtra(s, extras);
    }
  }

  lemma {:induction false} InjectsAll(s: Session, queued: seq<Message>, extras: seq<Message>) returns (n: nat)
    requires s.run.pc == Injecting(queued, extras, false)
    ensures Injected(s, Ticks(s, n), queued + extras)
    decreases |queued| + |extras|
  {
    if queued == [] && extras == [] {
      n := 1;
      assert Ticks(s, 1) == Step(s, Proceed(Tick));
      assert queued + extras == [];
    } else {
      var m, queue, more := InjectFirst(s, queued, extras);
      var rest := InjectsAll(Ticks(s, 2), queue, more);
      n := 2 + rest;
      TicksAdd(s, 2, rest);
      JoinedInjected(s, Ticks(s, 2), Ticks(s, n), m, queue, more);
    }
  }

  /** Everything taken from a queue is in the context when the model is asked, in order, followed by
      what the hook added; a hook adds to steering only. */
  lemma HookDelivers(s: Session, extras: seq<Message>) returns (n: nat)
    requires s.run.pc.SteeringHook? && s.run.pending != [] && AllInjectable(extras)
    ensures Injected(s, Ticks(Step(s, Proceed(Extras(extras))), n),
                     s.run.pending + if s.run.pendingIsSteering then extras else [])
  {
    var t := Step(s, Proceed(Extras(extras)));
    n := InjectsAll(t, s.run.pending, if s.run.pendingIsSteering then extras else []);
  }

  /** Steering that waits when an unaborted run looks for it is taken: at the end of a turn, and before
      the next if none was found then; only a run begun by `continue` skips its first look. */
  lemma SteeringIsTaken(s: Session, replacement: Option<seq<Message>>)
    requires Reachable(s) && !s.run.aborted
    ensures s.run.pc.StopCheck? ==> TookSteering(s, Step(s, Proceed(Decide(false))))
    ensures s.run.pc.PrepareNext? && s.run.pending == [] ==> TookSteering(s, Step(s, Proceed(Prepared(replacement))))
    ensures s.run.pc.PrepareInitial? && s.run.resume.None? ==>
              var t := Step(s, Proceed(Prepared(replacement)));
              if s.run.skipPoll then t.run.pending == [] && t.mail == s.mail && !t.run.skipPoll else TookSteering(s, t)
  {
    assert SkipInv(s.run) by { ReachableConduct(s); }
    PollTakes(s);
  }

  lemma PollTakes(s: Session)
    requires !s.run.aborted
    ensures if s.run.skipPoll then Poll(s).run.pending == [] && Poll(s).mail == s.mail && !Poll(s).run.skipPoll else TookSteering(s, Poll(s))
  {
  }

  predicate TookSteering(s: Session, t: Session) {
    t.run.pending == Take(s.mail.steer) && t.run.pending + t.mail.steer.messages == s.mail.steer.messages && t.mail.follow == s.mail.follow
  }

  /** A hook that returns a context has it used; one that does not leaves it alone. */
  lemma PreparedContext(s: Session, replacement: Option<seq<Message>>)
    requires s.run.pc.PrepareInitial? || s.run.pc.PrepareNext?
    ensures var t := Step(s, Proceed(Prepared(replacement)));
            t.log.context == (if replacement.Some? then replacement.value else s.log.context)
            && t.log.newMessages == s.log.newMessages && t.log.agent == s.log.agent && t.log.trace == s.log.trace
  {
  }

  /** Suppressed prose changes the answer under way and tells nobody. */
  lemma ProseIsQuiet(s: Session, p: Message)
    requires s.run.pc == Streaming(true) && s.log.context != [] && p.Assistant?
    ensures var t := Step(s, Proceed(StreamDelta(p, true)));
            && t.log.context == s.log.context[..|s.log.context| - 1] + [p]
            && t.log.trace == (if s.suppress then s.log.trace else s.log.trace + [MessageUpdate(p)])
  {
  }

  // ----- Continuing -----

  /** What there is to continue with. */
  predicate CanContinue(s: Session) {
    var ms := s.log.agent.messages;
    ms != [] && (!ms[|ms| - 1].Assistant? || s.mail.steer.messages != [] || s.mail.follow.messages != [])
  }

  /** An idle agent continues exactly if its last message waits for an answer or something is queued:
      queued steering goes first and leaves the follow-ups alone. */
  lemma ContinueIff(s: Session)
    requires s.run.pc.Idle? && s.mail.prelude.None?
    ensures var t, ms := Step(s, Continue), s.log.agent.messages;
            && (!CanContinue(s) ==> t == s)
            && (CanContinue(s) && !ms[|ms| - 1].Assistant? ==>
                  t.run.pc.Begin? && t.log.newMessages == [] && t.log.context == ms
                  && t.mail.steer == s.mail.steer && t.mail.follow == s.mail.follow)
            && (CanContinue(s) && ms[|ms| - 1].Assistant? && s.mail.steer.messages != [] ==>
                  t.run.pc.Idle? && t.mail.prelude.Some? && t.mail.prelude.value != []
                  && t.mail.prelude.value + t.mail.steer.messages == s.mail.steer.messages && t.mail.follow == s.mail.follow)
            && (CanContinue(s) && ms[|ms| - 1].Assistant? && s.mail.steer.messages == [] ==>
                  t.run.pc.Begin? && t.log.newMessages != [] && t.log.context == ms + t.log.newMessages
                  && t.log.newMessages + t.mail.follow.messages == s.mail.follow.messages)
  {
  }
}
