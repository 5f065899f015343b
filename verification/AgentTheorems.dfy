/** What every run of the agent promises, for all action sequences from any stored transcript. */
module AgentTheorems {
  import opened Options
  import opened Transcript
  import opened EventGrammar
  import opened AgentSession
  import opened AgentTranscripts
  import opened AgentInvariant
  import opened AgentMail
  import opened AgentTurns
  import opened MailLedger
  import ToolBatch

  ghost predicate Sound(s: Session) {
    Inv(s) && MailInv(s) && TurnInv(s)
  }

  lemma StepSound(s: Session, a: Action)
    requires Sound(s)
    ensures Sound(Step(s, a))
  {
    StepKeeps(s, a);
    StepMoves(s, a);
    StepTurns(s, a);
  }

  function Run(s: Session, actions: seq<Action>): Session {
    if actions == [] then s else Step(Run(s, actions[..|actions| - 1]), actions[|actions| - 1])
  }

  lemma {:induction false} RunSound(s: Session, actions: seq<Action>)
    requires Sound(s)
    ensures Sound(Run(s, actions))
  {
    if actions != [] {
      RunSound(s, actions[..|actions| - 1]);
      StepSound(Run(s, actions[..|actions| - 1]), actions[|actions| - 1]);
    }
  }

  /** A transcript the process can be started on: each result recorded once, distinct call ids. */
  predicate Storable(messages: seq<Message>) {
    Legal(messages) && AllStreamable(messages)
  }

  ghost predicate Reachable(s: Session) {
    exists messages, m1, m2, suppress, actions ::
      Storable(messages) && s == Run(InitialSession(messages, m1, m2, suppress), actions)
  }

  lemma InitialSound(messages: seq<Message>, m1: Mode, m2: Mode, suppress: bool)
    requires Storable(messages)
    ensures Sound(InitialSession(messages, m1, m2, suppress))
  {
  }

  lemma ReachableSound(s: Session)
    requires Reachable(s)
    ensures Sound(s)
  {
    var messages, m1, m2, suppress, actions :|
      Storable(messages) && s == Run(InitialSession(messages, m1, m2, suppress), actions);
    InitialSound(messages, m1, m2, suppress);
    RunSound(InitialSession(messages, m1, m2, suppress), actions);
  }

  /** Reachable sessions exist and are closed under every action. */
  lemma ReachableCloses(s: Session, a: Action)
    requires Reachable(s)
    ensures Reachable(Step(s, a))
  {
    var messages, m1, m2, suppress, actions :|
      Storable(messages) && s == Run(InitialSession(messages, m1, m2, suppress), actions);
    var init := InitialSession(messages, m1, m2, suppress);
    assert (actions + [a])[..|actions|] == actions;
    assert Run(init, actions + [a]) == Step(s, a);
  }

  lemma ReachableStarts(messages: seq<Message>, m1: Mode, m2: Mode, suppress: bool)
    requires Storable(messages)
    ensures Reachable(InitialSession(messages, m1, m2, suppress))
  {
    assert Run(InitialSession(messages, m1, m2, suppress), []) == InitialSession(messages, m1, m2, suppress);
  }

  // ----- Agreement of the copies -----

  predicate AtBoundary(l: Log) {
    l.trace != [] && (l.trace[|l.trace| - 1].TurnEnd? || l.trace[|l.trace| - 1].AgentEnd?)
  }

  /** At every turn_end and at agent_end, for every entry point, the wrapper's transcript is the
      starting transcript followed by the run's new messages, and so is the loop's context unless a
      hook replaced it. */
  lemma CopiesAgree(s: Session)
    requires Reachable(s) && !s.run.pc.Idle? && AtBoundary(s.log)
    ensures s.log.agent.messages == s.log.start + s.log.newMessages
    ensures !s.log.replaced ==> s.log.context == s.log.start + s.log.newMessages
    ensures s.log.agent.pendingToolCalls == {} && s.log.agent.streaming.None?
  {
    ReachableSound(s);
    var trace := s.log.trace;
    var m := Watch(trace[..|trace| - 1]);
    assert Watch(trace) == Observe(m, trace[|trace| - 1]);
    PrefixAccepted(trace, |trace| - 1);
    InsideTurn(trace[..|trace| - 1]);
    assert Watch(trace).stage.Between? || Watch(trace).stage.Ended?;
  }

  /** Every prefix of a run's trace is in the grammar, and the trace of a run that is over is a
      complete word of it. */
  lemma TraceInGrammar(s: Session)
    requires Reachable(s) && !s.run.pc.Idle?
    ensures Watch(s.log.trace).Watching?
    ensures s.run.pc.Over? ==> Complete(s.log.trace)
    ensures s.log.agent.pendingToolCalls == Watch(s.log.trace).running
  {
    ReachableSound(s);
  }

  /** Anywhere in a run's trace, a turn_end carries exactly the tool results ended since its turn's
      start, in order, each answering a call of its message, and an agent_end carries exactly the
      messages ended since the run's start. */
  lemma ClosingEventsTruthful(s: Session, k: nat)
    requires Reachable(s) && !s.run.pc.Idle? && k < |s.log.trace|
    ensures var trace := s.log.trace;
            && (trace[k].TurnEnd? ==>
                  exists h :: IsTurnSpan(trace, h, k) && trace[k].results == ResultsOf(trace[h + 1..k])
                              && Answers(trace[k].results, trace[k].message))
            && (trace[k].AgentEnd? ==> trace[k].messages == EndedMessages(trace[..k]))
  {
    assert Watch(s.log.trace).Watching? && Honest(s.log.trace) by { ReachableSound(s); }
    ClosingTruth(s.log.trace, k);
  }

  lemma ClosingTruth(trace: seq<Event>, k: nat)
    requires Watch(trace).Watching? && Honest(trace) && k < |trace|
    ensures trace[k].TurnEnd? ==>
              exists h :: IsTurnSpan(trace, h, k) && trace[k].results == ResultsOf(trace[h + 1..k])
                          && Answers(trace[k].results, trace[k].message)
    ensures trace[k].AgentEnd? ==> trace[k].messages == EndedMessages(trace[..k])
  {
    assert Truthful(trace[k], trace[..k]);
    if trace[k].TurnEnd? {
      PrefixAccepted(trace, k + 1);
      At(trace, k);
      var h := TurnOpened(trace, k);
      ResultsSince(trace, h, k);
      assert IsTurnSpan(trace, h, k);
    }
  }

  // ----- Exactly-once tool results across crashes and resumes -----

  /** However often the process crashes and resumes, no call is ever answered twice. */
  lemma NeverAnsweredTwice(s: Session, i: nat, j: nat)
    requires Reachable(s)
    requires var ms := s.log.agent.messages;
             i < j < |ms| && ms[i].ToolResult? && ms[j].ToolResult? && ms[i].callId == ms[j].callId
    ensures exists k :: i < k < j && s.log.agent.messages[k].Assistant?
  {
    ReachableSound(s);
    AnsweredAtMostOnce(s.log.agent.messages, i, j);
  }

  /** The calls of `m` against the transcript: the open ones have no result, every other exactly one. */
  ghost predicate Accounted(ms: seq<Message>, pos: nat, m: Message, open: set<string>) {
    && OpensAt(ms, pos, m)
    && forall c :: c in Calls(m.content) ==> if c.id in open then AnsweredNever(ms, pos, c.id) else AnsweredOnce(ms, pos, c.id)
  }

  lemma BatchAccount(l: Log, run: Locals) returns (pos: nat)
    requires LegalAt(l, run) && run.pc.InBatch? && TurnOf(l.agent.messages, run.pc.message)
    ensures Accounted(l.agent.messages, pos, run.pc.message, Ids(run.pc.batch.calls[|run.pc.batch.messages|..]))
  {
    pos := TurnAccount(l.agent.messages, run.pc.message);
  }

  lemma BatchOutstanding(l: Log, run: Locals)
    requires LegalAt(l, run) && run.pc.InBatch?
    ensures var b := run.pc.batch;
            && |b.messages| <= |b.calls| && Outstanding(l.agent.messages) == Ids(b.calls[|b.messages|..])
            && (b.phase.Finished? && !run.aborted ==> |b.messages| == |b.calls|)
  {
    ToolBatch.FinishedReportsAll(run.pc.batch);
  }

  /** At any moment of a batch, aborted or not, the batch's unreported calls have no result and every
      other call of its message has exactly one; so when an unaborted batch is over, every call of
      the message has exactly one result and nothing is pending. */
  lemma BatchSettles(s: Session)
    requires Reachable(s) && s.run.pc.InBatch?
    ensures var m, b, ms := s.run.pc.message, s.run.pc.batch, s.log.agent.messages;
            && |b.messages| <= |b.calls|
            && (exists pos :: Accounted(ms, pos, m, Ids(b.calls[|b.messages|..])))
            && (b.phase.Finished? && !s.run.aborted ==>
                  (exists pos :: Accounted(ms, pos, m, {})) && PendingCalls(ms).None?)
  {
    ReachableSound(s);
    BatchSettled(s.log, s.run);
  }

  lemma BatchSettled(l: Log, run: Locals)
    requires LegalAt(l, run) && OpenAt(l.agent.messages, run) && run.pc.InBatch?
    ensures var m, b, ms := run.pc.message, run.pc.batch, l.agent.messages;
            && |b.messages| <= |b.calls|
            && (exists pos :: Accounted(ms, pos, m, Ids(b.calls[|b.messages|..])))
            && (b.phase.Finished? && !run.aborted ==> (exists pos :: Accounted(ms, pos, m, {})) && PendingCalls(ms).None?)
  {
    var b := run.pc.batch;
    var pos := BatchAccount(l, run);
    BatchOutstanding(l, run);
    PendingIds(l.agent.messages);
    if b.phase.Finished? && !run.aborted {
      assert b.calls[|b.messages|..] == [];
    }
  }

  /** A crash in a batch of a tool-use message leaves exactly the unreported calls pending, and those
      are exactly its calls without a result. */
  lemma CrashLeavesPending(s: Session)
    requires Reachable(s) && s.run.pc.InBatch? && s.run.pc.message.Assistant? && s.run.pc.message.stop == ToolUse
    ensures var m, ms := s.run.pc.message, Crashed(s).log.agent.messages;
            var found := if PendingCalls(ms).Some? then Ids(PendingCalls(ms).value.calls) else {};
            && |s.run.pc.batch.messages| <= |s.run.pc.batch.calls|
            && found == Ids(s.run.pc.batch.calls[|s.run.pc.batch.messages|..])
            && exists pos :: Accounted(ms, pos, m, found)
  {
    ReachableSound(s);
    assert Crashed(s).log.agent.messages == s.log.agent.messages;
    CrashFinds(s.log, s.run);
  }

  lemma CrashFinds(l: Log, run: Locals)
    requires LegalAt(l, run) && OpenAt(l.agent.messages, run) && run.pc.InBatch?
    requires run.pc.message.Assistant? && run.pc.message.stop == ToolUse
    ensures var ms, b := l.agent.messages, run.pc.batch;
            var found := if PendingCalls(ms).Some? then Ids(PendingCalls(ms).value.calls) else {};
            && |b.messages| <= |b.calls| && found == Ids(b.calls[|b.messages|..])
            && exists pos :: Accounted(ms, pos, run.pc.message, found)
  {
    var pos := BatchAccount(l, run);
    BatchOutstanding(l, run);
    PendingIds(l.agent.messages);
  }

  // ----- From resume to the end of the resumed batch -----

  lemma {:induction false} ResultsKeepTurn(ms: seq<Message>, results: seq<Message>)
    requires OpenTurn(ms).Some? && forall i :: 0 <= i < |results| ==> results[i].ToolResult?
    ensures OpenTurn(ms + results).Some? && OpenTurn(ms + results).value.assistant == OpenTurn(ms).value.assistant
    decreases |results|
  {
    if results == [] {
      assert ms + results == ms;
    } else {
      var front, last := results[..|results| - 1], results[|results| - 1];
      ResultsKeepTurn(ms, front);
      OpenTurnAppend(ms + front, last);
      assert ms + results == ms + front + [last];
    }
  }

  /** The resumed batch's transcript is the stored one followed by the results reported so far. */
  lemma ResumedMessage(l: Log, run: Locals, p: Pending)
    requires LegalAt(l, run) && AgreeAt(l, run.pc) && OpenAt(l.agent.messages, run) && run.pc.InBatch?
    requires l.newMessages == [] && PendingCalls(l.start) == Some(p)
    ensures run.pc.message == p.assistant && l.agent.messages == l.start + run.pc.batch.messages
  {
    var b := run.pc.batch;
    assert [] + b.messages == b.messages;
    ToolBatch.ReportsInOrder(b);
    PendingIsOpen(l.start);
    ResultsKeepTurn(l.start, b.messages);
  }

  /** Crash and resume is exactly-once: resume a session with pending calls and run it, under any
      schedule, to the end of the resumed batch (nothing new has been recorded before it). The
      transcript is the old one followed by results, in which every call of the interrupted message,
      answered before the crash or after it, has exactly one result, and nothing is pending. */
  lemma ResumeSettlesExactlyOnce(s: Session, p: Pending, actions: seq<Action>)
    requires Sound(s) && s.run.pc.Idle? && PendingCalls(s.log.agent.messages) == Some(p)
    requires Lasts(Step(s, Resume), actions)
    requires var t := Run(Step(s, Resume), actions);
             t.run.pc.InBatch? && t.run.pc.batch.phase.Finished? && !t.run.aborted && t.log.newMessages == []
    ensures var t := Run(Step(s, Resume), actions);
            && t.run.pc.message == p.assistant
            && t.log.agent.messages == s.log.agent.messages + t.run.pc.batch.messages
            && (exists pos :: Accounted(t.log.agent.messages, pos, p.assistant, {}))
            && PendingCalls(t.log.agent.messages).None?
  {
    var t := Run(Step(s, Resume), actions);
    StartLasts(Step(s, Resume), actions);
    ResumeStarts(s);
    StepSound(s, Resume);
    RunSound(Step(s, Resume), actions);
    SoundParts(t);
    ResumedDone(t.log, t.run, p);
  }

  lemma ResumeStarts(s: Session)
    requires s.run.pc.Idle? && PendingCalls(s.log.agent.messages).Some?
    ensures Step(s, Resume).log.start == s.log.agent.messages
  {
  }

  lemma SoundParts(s: Session)
    requires Sound(s) && !s.run.pc.Idle?
    ensures LegalAt(s.log, s.run) && AgreeAt(s.log, s.run.pc) && OpenAt(s.log.agent.messages, s.run)
  {
  }

  lemma ResumedDone(l: Log, run: Locals, p: Pending)
    requires LegalAt(l, run) && AgreeAt(l, run.pc) && OpenAt(l.agent.messages, run)
    requires run.pc.InBatch? && run.pc.batch.phase.Finished? && !run.aborted
    requires l.newMessages == [] && PendingCalls(l.start) == Some(p)
    ensures run.pc.message == p.assistant && l.agent.messages == l.start + run.pc.batch.messages
    ensures (exists pos :: Accounted(l.agent.messages, pos, p.assistant, {})) && PendingCalls(l.agent.messages).None?
  {
    ResumedMessage(l, run, p);
    BatchSettled(l, run);
  }

  /** Only the start of a run changes the transcript it started from. */
  lemma StartKept(s: Session, a: Action)
    requires !s.run.pc.Idle? && !a.Crash?
    ensures Step(s, a).log.start == s.log.start
  {
    if a.Proceed? {
      AdvanceStart(s, a.run);
    }
  }

  lemma AdvanceStart(s: Session, r: RunAction)
    ensures Advance(s, r).log.start == s.log.start
  {
    if TurnBegun(s.run.pc) {
      TurnStartKept(s, r);
    } else if s.run.pc.Begin? || s.run.pc.BeginTurn? || s.run.pc.Prompting? || s.run.pc.TurnOpening? || s.run.pc.Ending? {
      EmitStartKept(s, r);
    } else if s.run.pc.PrepareInitial? || s.run.pc.LoopCheck? || s.run.pc.FollowUpPoll? || s.run.pc.PrepareNext? {
      PollStartKept(s, if r.Prepared? then r.replacement else None);
    }
  }

  lemma EmitStartKept(s: Session, r: RunAction)
    requires s.run.pc.Begin? || s.run.pc.BeginTurn? || s.run.pc.Prompting? || s.run.pc.TurnOpening? || s.run.pc.Ending?
    ensures Advance(s, r).log.start == s.log.start
  {
  }

  lemma PollStartKept(s: Session, replacement: Option<seq<Message>>)
    ensures PrepareRun(s, replacement).log.start == PrepareTurn(s, replacement).log.start == s.log.start
    ensures PollFollowUps(s).log.start == CheckLoop(s).log.start == PollAfterTurn(s).log.start == s.log.start
  {
  }

  lemma StreamStartKept(s: Session, partial: bool, r: RunAction)
    ensures OnStream(s, partial, r).log.start == s.log.start
  {
  }

  lemma AnswerStartKept(s: Session, m: Message, isNew: bool, r: RunAction)
    ensures OnAnswer(s, m, isNew, r).log.start == s.log.start
  {
  }

  lemma BatchStartKept(s: Session, m: Message, b: ToolBatch.Batch, r: RunAction)
    ensures OnBatch(s, m, b, r).log.start == s.log.start
  {
    if r.Tool? && ToolBatch.Inv(b) {
      EmitAllQuiet(s.log, ToolBatch.Step(b, r.action, s.run.aborted).1);
    }
  }

  lemma TurnStartKept(s: Session, r: RunAction)
    requires TurnBegun(s.run.pc)
    ensures Advance(s, r).log.start == s.log.start
  {
    match s.run.pc
    case Streaming(partial) => StreamStartKept(s, partial, r);
    case Answered(m, isNew) => AnswerStartKept(s, m, isNew, r);
    case InBatch(m, b) => BatchStartKept(s, m, b, r);
    case StopCheck => PollStartKept(s, None);
    case _ =>
  }

  lemma {:induction false} StartLasts(s: Session, actions: seq<Action>)
    requires Lasts(s, actions)
    ensures Run(s, actions).log.start == s.log.start
  {
    if actions != [] {
      StartLasts(s, actions[..|actions| - 1]);
      StartKept(Run(s, actions[..|actions| - 1]), actions[|actions| - 1]);
    }
  }

  /** A resumed batch answers the calls that are not replay-safe in advance, as interrupted. */
  predicate Replays(b: ToolBatch.Batch, safe: set<string>) {
    && b.forced <= |b.calls| && |b.scripts| == |b.calls|
    && (forall i :: 0 <= i < |b.calls| ==> (b.calls[i].id in safe <==> i >= b.forced))
    && (forall i :: 0 <= i < b.forced ==> b.scripts[i].prep == ToolBatch.Answered(Interrupted(b.calls[i])))
  }

  /** The batch that a resumed run begins settles exactly the outstanding calls. */
  lemma ResumedBatchPlan(s: Session, m: Message, r: RunAction)
    requires Sound(s) && s.run.pc == Answered(m, false) && m.Assistant? && r.BeginTools?
    requires StartTools(s, m, false, r) != s
    ensures var t := StartTools(s, m, false, r);
            && t.run.pc.InBatch? && Replays(t.run.pc.batch, r.safe)
            && Ids(t.run.pc.batch.calls) == Outstanding(s.log.agent.messages)
  {
    PlanOfResume(s, m, r);
  }

  lemma PlanOfResume(s: Session, m: Message, r: RunAction)
    requires m.Assistant? && r.BeginTools? && s.run.resume.Some? && DistinctIds(s.run.resume.value.calls)
    requires Outstanding(s.log.agent.messages) == Ids(s.run.resume.value.calls) && StartTools(s, m, false, r) != s
    ensures var t := StartTools(s, m, false, r);
            && t.run.pc.InBatch? && Replays(t.run.pc.batch, r.safe)
            && Ids(t.run.pc.batch.calls) == Outstanding(s.log.agent.messages)
  {
    PlanReplays(s.run.resume.value.calls, r.safe, r.scripts, r.parallel);
  }

  lemma PlanReplays(calls: seq<ToolCall>, safe: set<string>, scripts: seq<ToolBatch.Script>, parallel: bool)
    requires DistinctIds(calls) && Fits(ResumePlan(calls, safe), scripts)
    ensures var plan := ResumePlan(calls, safe);
            var b := ToolBatch.Begin(plan.calls, scripts, plan.forced, parallel);
            Replays(b, safe) && Ids(b.calls) == Ids(calls)
  {
    ResumePlanRearranges(calls, safe);
  }

  lemma BatchPlanKept(s: Session, a: Action, safe: set<string>)
    requires s.run.pc.InBatch? && ToolBatch.Inv(s.run.pc.batch) && Step(s, a).run.pc.InBatch?
    requires Replays(s.run.pc.batch, safe)
    ensures Replays(Step(s, a).run.pc.batch, safe)
  {
    var b := s.run.pc.batch;
    StepInBatch(s, a);
    if a.Proceed? && a.run.Tool? && !b.phase.Finished? {
      PlanKept(b, a.run.action, s.run.aborted, safe);
    }
  }

  lemma PlanKept(b: ToolBatch.Batch, a: ToolBatch.Action, aborted: bool, safe: set<string>)
    requires ToolBatch.Inv(b) && Replays(b, safe)
    ensures Replays(ToolBatch.Step(b, a, aborted).0, safe)
  {
    ToolBatch.StepPlan(b, a, aborted);
    SamePlanReplays(b, ToolBatch.Step(b, a, aborted).0, safe);
  }

  lemma SamePlanReplays(b: ToolBatch.Batch, c: ToolBatch.Batch, safe: set<string>)
    requires ToolBatch.SamePlan(b, c) && Replays(b, safe)
    ensures Replays(c, safe)
  {
  }

  /** Between two reports of a batch only its own tools move it. */
  lemma StepInBatch(s: Session, a: Action)
    requires s.run.pc.InBatch? && ToolBatch.Inv(s.run.pc.batch)
    ensures var t, m, b := Step(s, a), s.run.pc.message, s.run.pc.batch;
            t.run.pc.InBatch? ==>
              t.run.pc == if a.Proceed? && a.run.Tool? && !b.phase.Finished?
                          then InBatch(m, ToolBatch.Step(b, a.run.action, s.run.aborted).0) else s.run.pc
  {
    if a.Proceed? {
      BatchMovesItself(s, s.run.pc.message, s.run.pc.batch, a.run);
    } else {
      OutsideKeepsPc(s, a);
    }
  }

  lemma OutsideKeepsPc(s: Session, a: Action)
    requires !s.run.pc.Idle? && !a.Proceed?
    ensures Step(s, a).run.pc == s.run.pc || Step(s, a).run.pc.Idle?
  {
  }

  lemma BatchMovesItself(s: Session, m: Message, b: ToolBatch.Batch, r: RunAction)
    requires s.run.pc == InBatch(m, b) && ToolBatch.Inv(b)
    ensures var t := OnBatch(s, m, b, r);
            t.run.pc.InBatch? ==>
              t.run.pc == if r.Tool? && !b.phase.Finished?
                          then InBatch(m, ToolBatch.Step(b, r.action, s.run.aborted).0) else s.run.pc
  {
  }

  /** The session is in a batch after each of the actions. */
  predicate StaysInBatch(s: Session, actions: seq<Action>) {
    Run(s, actions).run.pc.InBatch? && (actions != [] ==> StaysInBatch(s, actions[..|actions| - 1]))
  }

  /** From the moment a resumed turn's batch begins and for as long as it lasts, whatever else
      happens, only replay-safe tools execute and every other call is reported with its
      interruption. */
  lemma {:induction false} ResumeReplaysOnlySafe(s: Session, actions: seq<Action>, safe: set<string>, i: nat)
    requires Sound(s) && s.run.pc.InBatch? && Replays(s.run.pc.batch, safe)
    requires StaysInBatch(s, actions)
    ensures var b := Run(s, actions).run.pc.batch;
            && Replays(b, safe)
            && (i < |b.slots| && !b.slots[i].Settled? ==> i < |b.calls| && b.calls[i].id in safe)
            && (i < |b.messages| && i < |b.calls| && b.calls[i].id !in safe ==>
                  b.messages[i] == ToolBatch.ResultMessage(ToolBatch.ErrorResult(b.calls[i], Interrupted(b.calls[i]))))
  {
    PlanLasts(s, actions, safe);
    RunSound(s, actions);
    SoundBatch(Run(s, actions));
    SafeSlots(Run(s, actions).run.pc.batch, safe, i);
  }

  lemma SoundBatch(s: Session)
    requires Sound(s) && s.run.pc.InBatch?
    ensures ToolBatch.Inv(s.run.pc.batch)
  {
  }

  lemma {:induction false} PlanLasts(s: Session, actions: seq<Action>, safe: set<string>)
    requires Sound(s) && s.run.pc.InBatch? && Replays(s.run.pc.batch, safe)
    requires StaysInBatch(s, actions)
    ensures Replays(Run(s, actions).run.pc.batch, safe)
  {
    if actions != [] {
      var front := actions[..|actions| - 1];
      PlanLasts(s, front, safe);
      RunSound(s, front);
      SoundBatch(Run(s, front));
      BatchPlanKept(Run(s, front), actions[|actions| - 1], safe);
    }
  }

  lemma SafeSlots(b: ToolBatch.Batch, safe: set<string>, i: nat)
    requires ToolBatch.Inv(b) && Replays(b, safe)
    ensures i < |b.slots| && !b.slots[i].Settled? ==> i < |b.calls| && b.calls[i].id in safe
    ensures i < |b.messages| && i < |b.calls| && b.calls[i].id !in safe ==>
              b.messages[i] == ToolBatch.ResultMessage(ToolBatch.ErrorResult(b.calls[i], Interrupted(b.calls[i])))
  {
    if i < |b.slots| && !b.slots[i].Settled? {
      UnsettledIsReady(b, i);
    }
    if i < |b.messages| && i < b.forced {
      ForcedReport(b, i);
    }
  }

  lemma UnsettledIsReady(b: ToolBatch.Batch, i: nat)
    requires ToolBatch.Inv(b) && i < |b.slots| && !b.slots[i].Settled?
    ensures i >= b.forced
  {
    assert ToolBatch.SlotOk(b.calls[i], b.scripts[i], b.slots[i], false);
  }

  lemma ForcedReport(b: ToolBatch.Batch, i: nat)
    requires ToolBatch.Inv(b) && i < |b.messages| && i < b.forced
    ensures b.scripts[i].prep.Answered?
    ensures b.messages[i] == ToolBatch.ResultMessage(ToolBatch.ErrorResult(b.calls[i], b.scripts[i].prep.answer))
  {
    ToolBatch.ReportsInOrder(b);
  }

  // ----- Queues -----

  /** Over all runs of a process: follow-ups are conserved always; steering is conserved, nothing lost
      and nothing out of order, if no steering was drained while a prelude of `continue` was held and
      no hook of `continue` returned to a busy agent; and, the messages being distinct, only if. */
  lemma QueuesConserved(s: Session)
    requires Reachable(s)
    ensures s.mail.orderly ==> Conserved(s)
    ensures Distinct(s.mail.steered) ==> (Conserved(s) <==> s.mail.orderly)
    ensures s.mail.followed == FollowFront(s) + s.mail.follow.messages
    ensures s.run.pc.Over? ==> Held(s.run, true) == [] && Held(s.run, false) == []
  {
    ReachableSound(s);
    if Distinct(s.mail.steered) {
      LedgerExact(s.mail.steered, Front(s), PreludeOf(s.mail), s.mail.steer.messages, s.mail.orderly);
    }
  }

  /** The step drains the steering queue. */
  predicate PollsSteering(s: Session, r: RunAction) {
    && !s.run.aborted && !s.run.skipPoll
    && (|| (s.run.pc.PrepareInitial? && r.Prepared? && s.run.resume.None?)
        || (s.run.pc.PrepareNext? && r.Prepared? && s.run.pending == [])
        || (s.run.pc.StopCheck? && r.Decide? && !r.stop))
  }

  /** A run's poll finds steering, or a hook returns. */
  predicate Disturbs(s: Session, a: Action) {
    || (a.Proceed? && PollsSteering(s, a.run) && Take(s.mail.steer) != [])
    || (a.HookReturned? && AllInjectable(a.extras))
  }

  /** The flag is lowered by exactly two kinds of step: while a prelude is held and a run is active, a
      poll that takes steering, and the return of the hook. */
  lemma OrderlyHistory(s: Session, a: Action)
    requires s.mail.orderly && !a.Crash?
    ensures !Step(s, a).mail.orderly <==> s.mail.prelude.Some? && !s.run.pc.Idle? && Disturbs(s, a)
  {
    if a.Proceed? {
      AdvanceHistory(s, a.run);
    }
  }

  lemma AdvanceHistory(s: Session, r: RunAction)
    requires s.mail.orderly
    ensures !Advance(s, r).mail.orderly <==> s.mail.prelude.Some? && PollsSteering(s, r) && Take(s.mail.steer) != []
  {
    if TurnBegun(s.run.pc) { TurnHistory(s, r); }
  }

  lemma TurnHistory(s: Session, r: RunAction)
    requires TurnBegun(s.run.pc) && s.mail.orderly
    ensures !Advance(s, r).mail.orderly <==> s.mail.prelude.Some? && PollsSteering(s, r) && Take(s.mail.steer) != []
  {
    match s.run.pc
    case Streaming(partial) => StreamUntouched(s, partial, r);
    case Answered(m, isNew) => AnswerUntouched(s, m, isNew, r);
    case InBatch(m, b) => BatchUntouched(s, m, b, r);
    case _ =>
  }

  /** At the hook's return the condition is the caller's to check: conservation survives exactly if
      the agent is idle then. */
  lemma HookReturnConserves(s: Session, extras: seq<Message>)
    requires MailInv(s) && Conserved(s) && s.mail.prelude.Some? && AllInjectable(extras)
    ensures Conserved(Step(s, HookReturned(extras))) <==> s.run.pc.Idle?
  {
    if s.run.pc.Idle? {
      PreludePasses(s, extras);
      var before, batch, queued := Front(s), s.mail.prelude.value, s.mail.steer.messages;
      assert (before + batch) + [] + queued == before + batch + queued;
    } else {
      var t := Step(s, HookReturned(extras));
      assert Front(t) == Front(s);
      assert |Front(t) + PreludeOf(t.mail) + t.mail.steer.messages| < |s.mail.steered|;
    }
  }

  /** In one-at-a-time mode at most one message per queue enters between two requests. */
  lemma OneAtATimeHolds(s: Session)
    requires Reachable(s) && !s.run.pc.Idle?
    ensures Balanced(s.log) && s.log.requestAt <= |s.log.newMessages|
    ensures s.mail.steer.mode.OneAtATime? ==> |Since(s.log, Steered)| <= 1
    ensures s.mail.follow.mode.OneAtATime? ==> |Since(s.log, FollowedUp)| <= 1
  {
    ReachableSound(s);
  }

  function Passed(actions: seq<Action>, steering: bool): seq<Message> {
    if actions == [] then []
    else
      var a, front := actions[|actions| - 1], Passed(actions[..|actions| - 1], steering);
      if (if steering then a.Steer? else a.FollowUp?) && Injectable(a.message) then front + [a.message] else front
  }

  /** The run goes on or is over, and no queue was touched. */
  predicate Untouched(s: Session, t: Session) {
    t.mail == s.mail && t.run.aborted == s.run.aborted
  }

  lemma StreamUntouched(s: Session, partial: bool, r: RunAction)
    ensures Untouched(s, OnStream(s, partial, r))
  {
  }

  lemma AnswerUntouched(s: Session, m: Message, isNew: bool, r: RunAction)
    ensures Untouched(s, OnAnswer(s, m, isNew, r))
  {
  }

  lemma BatchUntouched(s: Session, m: Message, b: ToolBatch.Batch, r: RunAction)
    ensures Untouched(s, OnBatch(s, m, b, r))
  {
  }

  lemma PollsUntouched(s: Session, replacement: Option<seq<Message>>)
    requires s.run.aborted
    ensures Untouched(s, PrepareRun(s, replacement)) && Untouched(s, PrepareTurn(s, replacement))
    ensures Untouched(s, PollFollowUps(s)) && Untouched(s, PollAfterTurn(s))
  {
  }

  lemma InjectUntouched(s: Session, queued: seq<Message>, extras: seq<Message>, begun: bool)
    ensures queued != [] ==> Untouched(s, InjectQueued(s, queued, extras, begun))
    ensures extras != [] ==> Untouched(s, InjectExtra(s, extras, begun))
  {
  }

  lemma GoUntouched(s: Session, log: Log, pc: Control)
    ensures Untouched(s, Go(s, log, pc))
  {
  }

  lemma PromptUntouched(s: Session, i: nat)
    requires i < |s.log.newMessages|
    ensures Untouched(s, AnnouncePrompt(s, i)) && Untouched(s, ConfirmPrompt(s, i))
  {
  }

  lemma PlainUntouched(s: Session, extras: seq<Message>)
    ensures Untouched(s, BeginInjecting(s, extras)) && Untouched(s, EndInjecting(s)) && Untouched(s, MakeRequest(s))
    ensures Untouched(s, CheckLoop(s)) && Untouched(s, StopRun(s)) && Untouched(s, FinishRun(s))
  {
  }

  lemma AbortedOpening(s: Session, r: RunAction)
    requires s.run.aborted && !TurnBegun(s.run.pc)
    ensures Untouched(s, Advance(s, r))
  {
    match s.run.pc
    case Begin => GoUntouched(s, Emit(s.log, AgentStart), BeginTurn);
    case BeginTurn => GoUntouched(s, Emit(s.log, TurnStart), PromptAt(s.log, 0));
    case Prompting(i, _) => if i < |s.log.newMessages| { PromptUntouched(s, i); }
    case PrepareInitial => if r.Prepared? { PollsUntouched(s, r.replacement); }
    case LoopCheck => PlainUntouched(s, []);
    case FollowUpPoll => PollsUntouched(s, None);
    case PrepareNext => if r.Prepared? { PollsUntouched(s, r.replacement); }
    case TurnOpening => GoUntouched(s, Emit(s.log, TurnStart), SteeringHook);
    case SteeringHook => GoUntouched(s, s.log, Request); if r.Extras? { PlainUntouched(s, r.extras); }
    case Ending => GoUntouched(s, Emit(s.log, AgentEnd(s.log.newMessages)), Over);
    case _ => PlainUntouched(s, []);
  }

  lemma InjectingUntouched(s: Session, r: RunAction)
    requires s.run.pc.Injecting?
    ensures Untouched(s, Advance(s, r))
  {
    InjectUntouched(s, s.run.pc.queued, s.run.pc.extras, s.run.pc.begun);
    PlainUntouched(s, []);
  }

  lemma AbortedTurn(s: Session, r: RunAction)
    requires s.run.aborted && TurnBegun(s.run.pc)
    ensures Untouched(s, Advance(s, r))
  {
    match s.run.pc
    case Injecting(_, _, _) => InjectingUntouched(s, r);
    case Request => PlainUntouched(s, []);
    case Streaming(partial) => StreamUntouched(s, partial, r);
    case Closing(f) => GoUntouched(s, Emit(s.log, MessageEnd(f)), Answered(f, true));
    case Answered(m, isNew) => AnswerUntouched(s, m, isNew, r);
    case InBatch(m, b) => BatchUntouched(s, m, b, r);
    case _ => PollsUntouched(s, None); PlainUntouched(s, []);
  }

  lemma AbortedAdvance(s: Session, r: RunAction)
    requires s.run.aborted
    ensures Untouched(s, Advance(s, r))
  {
    if TurnBegun(s.run.pc) { AbortedTurn(s, r); } else { AbortedOpening(s, r); }
  }

  lemma AbortedStep(s: Session, a: Action)
    requires s.run.aborted && !s.run.pc.Idle? && !a.Crash?
    ensures var t := Step(s, a);
            && t.mail.steer.messages == s.mail.steer.messages + Passed([a], true)
            && t.mail.follow.messages == s.mail.follow.messages + Passed([a], false)
            && t.run.aborted
  {
    assert Passed([], true) == [] && Passed([], false) == [];
    if a.Proceed? {
      AbortedAdvance(s, a.run);
    }
  }

  /** The run has not come to its end before the last of the actions. */
  predicate Lasts(s: Session, actions: seq<Action>) {
    actions != [] ==>
      var front := actions[..|actions| - 1];
      !actions[|actions| - 1].Crash? && !Run(s, front).run.pc.Idle? && Lasts(s, front)
  }

  lemma PassedOne(actions: seq<Action>, steering: bool)
    requires actions != []
    ensures Passed(actions, steering) == Passed(actions[..|actions| - 1], steering) + Passed([actions[|actions| - 1]], steering)
  {
    var a := actions[|actions| - 1];
    assert [a][..0] == [] && Passed([a][..0], steering) == [];
  }

  /** While an aborted run lasts, its queues only grow by what is passed in. */
  lemma {:induction false} AbortFreezesQueues(s: Session, actions: seq<Action>)
    requires s.run.aborted && !s.run.pc.Idle? && Lasts(s, actions)
    ensures var t := Run(s, actions);
            && t.mail.steer.messages == s.mail.steer.messages + Passed(actions, true)
            && t.mail.follow.messages == s.mail.follow.messages + Passed(actions, false)
            && t.run.aborted
  {
    if actions != [] {
      var front, a := actions[..|actions| - 1], actions[|actions| - 1];
      AbortFreezesQueues(s, front);
      AbortedStep(Run(s, front), a);
      PassedOne(actions, true);
      PassedOne(actions, false);
    }
  }
}
