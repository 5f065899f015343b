/** When a run goes on and when it ends. A run on its way to a request cannot end before it makes it;
    after a turn it goes on for tool results, steering or follow-ups, and ends otherwise. */
module AgentProgress {
  import opened Options
  import opened Transcript
  import opened EventGrammar
  import opened AgentSession
  import opened AgentMail
  import opened AgentTranscripts
  import opened AgentInvariant
  import opened AgentTurns
  import opened AgentTheorems
  import ToolBatch

  // ----- On the way to a request -----

  /** After a completed turn, on the way to the next request. */
  predicate Bound(run: Locals) {
    run.turnDone &&
    (|| (run.pc.LoopCheck? && (run.hasMore || run.pending != []))
     || run.pc.PrepareNext? || run.pc.TurnOpening? || run.pc.SteeringHook? || run.pc.Injecting?)
  }

  lemma BoundAdvance(s: Session, r: RunAction)
    requires Bound(s.run)
    ensures Bound(Advance(s, r).run) || Advance(s, r).run.pc.Request?
  {
  }

  lemma BoundStep(s: Session, a: Action)
    requires Bound(s.run) && !a.Crash?
    ensures Bound(Step(s, a).run) || Step(s, a).run.pc.Request?
  {
    if a.Proceed? {
      BoundAdvance(s, a.run);
    } else {
      OutsideKeepsRun(s, a);
    }
  }

  /** From outside, a run in progress can only be aborted. */
  lemma OutsideKeepsRun(s: Session, a: Action)
    requires !s.run.pc.Idle? && !a.Proceed? && !a.Crash?
    ensures Step(s, a).run == s.run || Step(s, a).run == s.run.(aborted := true)
  {
  }

  /** No request is made and the process does not die. */
  predicate NeverAsks(s: Session, actions: seq<Action>) {
    && !Run(s, actions).run.pc.Request?
    && (actions != [] ==> !actions[|actions| - 1].Crash? && NeverAsks(s, actions[..|actions| - 1]))
  }

  /** Whatever happens, the run does not end, nor wait for anything but its way to the request, before
      the request is made. */
  lemma {:induction false} AsksBeforeEnding(s: Session, actions: seq<Action>)
    requires Bound(s.run) && NeverAsks(s, actions)
    ensures Bound(Run(s, actions).run)
  {
    if actions != [] {
      var front := actions[..|actions| - 1];
      AsksBeforeEnding(s, front);
      BoundStep(Run(s, front), actions[|actions| - 1]);
    }
  }

  ghost predicate CanAsk(s: Session) {
    exists actions :: Run(s, actions).run.pc.Request?
  }

  lemma {:induction false} RunFirst(s: Session, a: Action, rest: seq<Action>)
    ensures Run(s, [a] + rest) == Run(Step(s, a), rest)
    decreases |rest|
  {
    var all := [a] + rest;
    if rest == [] {
      assert all[..0] == [] && all == [a];
      assert Run(s, []) == s;
    } else {
      RunFirst(s, a, rest[..|rest| - 1]);
      assert all[..|all| - 1] == [a] + rest[..|rest| - 1];
    }
  }

  lemma AskLater(s: Session, a: Action)
    requires CanAsk(Step(s, a))
    ensures CanAsk(s)
  {
    var actions :| Run(Step(s, a), actions).run.pc.Request?;
    RunFirst(s, a, actions);
    assert Run(s, [a] + actions).run.pc.Request?;
  }

  lemma AskNow(s: Session)
    requires s.run.pc.Request?
    ensures CanAsk(s)
  {
    assert Run(s, []) == s;
  }

  lemma {:induction false} InjectingCanAsk(s: Session)
    requires s.run.pc.Injecting?
    ensures CanAsk(s)
    decreases |s.run.pc.queued| + |s.run.pc.extras|, if s.run.pc.begun then 0 else 1
  {
    var t := Step(s, Proceed(Tick));
    if s.run.pc.queued == [] && s.run.pc.extras == [] {
      AskNow(t);
    } else {
      InjectingCanAsk(t);
    }
    AskLater(s, Proceed(Tick));
  }

  lemma HookCanAsk(s: Session)
    requires s.run.pc.SteeringHook?
    ensures CanAsk(s)
  {
    var t := Step(s, Proceed(Extras([])));
    if s.run.pending == [] { AskNow(t); } else { InjectingCanAsk(t); }
    AskLater(s, Proceed(Extras([])));
  }

  /** And it can make the request: some continuation does. */
  lemma BoundCanAsk(s: Session)
    requires Bound(s.run)
    ensures CanAsk(s)
  {
    match s.run.pc
    case Injecting(_, _, _) => InjectingCanAsk(s);
    case SteeringHook => HookCanAsk(s);
    case TurnOpening => OpeningCanAsk(s);
    case PrepareNext => PrepareCanAsk(s);
    case LoopCheck =>
      PrepareCanAsk(Step(s, Proceed(Tick)));
      AskLater(s, Proceed(Tick));
  }

  lemma OpeningCanAsk(s: Session)
    requires s.run.pc.TurnOpening?
    ensures CanAsk(s)
  {
    HookCanAsk(Step(s, Proceed(Tick)));
    AskLater(s, Proceed(Tick));
  }

  lemma PrepareCanAsk(s: Session)
    requires s.run.pc.PrepareNext?
    ensures CanAsk(s)
  {
    OpeningCanAsk(Step(s, Proceed(Prepared(None))));
    AskLater(s, Proceed(Prepared(None)));
  }

  // ----- On the way out -----

  predicate NothingQueued(s: Session) {
    s.mail.steer.messages == [] && s.mail.follow.messages == []
  }

  /** After a completed turn with nothing left to do. */
  predicate Leaving(s: Session) {
    || s.run.pc.Ending? || s.run.pc.Over? || s.run.pc.Idle?
    || (NothingQueued(s) && s.run.turnDone && !s.run.hasMore && s.run.pending == [] && (s.run.pc.LoopCheck? || s.run.pc.FollowUpPoll?))
  }

  /** Nobody adds to the queues or starts another run. */
  predicate Undriven(actions: seq<Action>) {
    forall i :: 0 <= i < |actions| ==> actions[i].Proceed? || actions[i].Abort?
  }

  lemma LeavingStep(s: Session, a: Action)
    requires Leaving(s) && (a.Proceed? || a.Abort?)
    ensures Leaving(Step(s, a))
  {
  }

  /** A run on its way out makes no further request. */
  lemma {:induction false} LeavesForGood(s: Session, actions: seq<Action>)
    requires Leaving(s) && Undriven(actions)
    ensures Leaving(Run(s, actions))
  {
    if actions != [] {
      LeavesForGood(s, actions[..|actions| - 1]);
      LeavingStep(Run(s, actions[..|actions| - 1]), actions[|actions| - 1]);
    }
  }

  /** And it gets out: three steps lead to the final event. */
  lemma LeavesSoon(s: Session)
    requires Leaving(s) && s.run.pc.LoopCheck?
    ensures var t := Step(Step(Step(s, Proceed(Tick)), Proceed(Tick)), Proceed(Tick));
            t.run.pc.Over? && t.log.trace == s.log.trace + [AgentEnd(s.log.newMessages)]
  {
  }

  // ----- After a turn -----

  /** The end of a turn, decided: with more to do, or steering to deliver, the run is bound for a
      request; with neither and nothing queued it leaves; and the stop hook ends it at once. */
  lemma TurnDecided(s: Session)
    requires s.run.pc.StopCheck? && s.run.pending == []
    ensures s.run.hasMore ==> Bound(Step(s, Proceed(Decide(false))).run)
    ensures !s.run.aborted && !s.run.skipPoll && s.mail.steer.messages != [] ==>
              var t := Step(s, Proceed(Decide(false))); Bound(t.run) && t.run.pending == Take(s.mail.steer)
    ensures !s.run.hasMore && NothingQueued(s) ==>
              var t := Step(s, Proceed(Decide(false))); Leaving(t) && t.run.pc.LoopCheck?
    ensures Step(s, Proceed(Decide(true))).run.pc.Over?
  {
  }

  /** Follow-ups found when the run would stop keep it going; an aborted run takes none. */
  lemma FollowUpsDecide(s: Session)
    requires s.run.pc.FollowUpPoll? && s.run.turnDone
    ensures var t := Step(s, Proceed(Tick));
            if !s.run.aborted && s.mail.follow.messages != []
            then Bound(t.run) && t.run.pending == Take(s.mail.follow)
            else t.run.pc.Ending? && t.mail == s.mail
  {
  }

  lemma ReachableBatch(s: Session)
    requires Reachable(s) && s.run.pc.InBatch?
    ensures ToolBatch.Inv(s.run.pc.batch) && (!s.run.aborted ==> ToolBatch.Clean(s.run.pc.batch)) && s.run.pending == []
  {
    ReachableSound(s);
  }

  /** Over every run: when an unaborted batch is over, the run has more to do exactly unless nothing was
      answered in advance and its calls vote to end it. */
  lemma BatchDecidesRun(s: Session)
    requires Reachable(s) && s.run.pc.InBatch? && s.run.pc.batch.phase.Finished? && !s.run.aborted
    ensures var t, b := Step(s, Proceed(Tick)), s.run.pc.batch;
            && t.run.pc.StopCheck? && t.run.pending == [] && t.mail == s.mail
            && (t.run.hasMore <==> !ToolBatch.EndsRun(b.forced, b.scripts))
  {
    ReachableBatch(s);
    ToolBatch.TerminatesIff(s.run.pc.batch);
    FinishedBatchStep(s, s.run.pc.message, s.run.pc.batch);
  }

  lemma FinishedBatchStep(s: Session, m: Message, b: ToolBatch.Batch)
    requires s.run.pc == InBatch(m, b) && ToolBatch.Inv(b) && b.phase.Finished?
    ensures Step(s, Proceed(Tick)) == FinishBatch(s, m, b)
  {
    assert Step(s, Proceed(Tick)) == Advance(s, Tick) == OnBatch(s, m, b, Tick);
  }

  /** The results of an ordinary batch reach the model: whatever happens after it, the run makes
      another request before it ends, and it can. */
  lemma ResultsAreAnswered(s: Session, actions: seq<Action>)
    requires Reachable(s) && s.run.pc.InBatch? && s.run.pc.batch.phase.Finished? && !s.run.aborted
    requires !ToolBatch.EndsRun(s.run.pc.batch.forced, s.run.pc.batch.scripts)
    requires NeverAsks(Step(Step(s, Proceed(Tick)), Proceed(Decide(false))), actions)
    ensures var t := Run(Step(Step(s, Proceed(Tick)), Proceed(Decide(false))), actions); Bound(t.run) && CanAsk(t)
  {
    BatchDecidesRun(s);
    var u := Step(s, Proceed(Tick));
    TurnDecided(u);
    AsksBeforeEnding(Step(u, Proceed(Decide(false))), actions);
    BoundCanAsk(Run(Step(u, Proceed(Decide(false))), actions));
  }

  /** A batch whose calls vote to end the run does end it when nothing is queued. */
  lemma TerminatingBatchEnds(s: Session, actions: seq<Action>)
    requires Reachable(s) && s.run.pc.InBatch? && s.run.pc.batch.phase.Finished? && !s.run.aborted && NothingQueued(s)
    requires ToolBatch.EndsRun(s.run.pc.batch.forced, s.run.pc.batch.scripts) && Undriven(actions)
    ensures var u := Step(Step(s, Proceed(Tick)), Proceed(Decide(false)));
            && Leaving(Run(u, actions))
            && Step(Step(Step(u, Proceed(Tick)), Proceed(Tick)), Proceed(Tick)).run.pc.Over?
  {
    BatchDecidesRun(s);
    var u := Step(s, Proceed(Tick));
    TurnDecided(u);
    LeavesForGood(Step(u, Proceed(Decide(false))), actions);
    LeavesSoon(Step(u, Proceed(Decide(false))));
  }

  lemma AnswerWithoutCalls(s: Session, m: Message, isNew: bool)
    requires s.run.pc == Answered(m, isNew) && m.Assistant? && s.run.pending == []
    ensures m.stop.Failed? || m.stop.Cancelled? ==> Step(s, Proceed(Tick)).run.pc.Ending?
    ensures !m.stop.Failed? && !m.stop.Cancelled? && Calls(m.content) == [] ==>
              var t := Step(s, Proceed(Tick)); t.run.pc.StopCheck? && !t.run.hasMore && t.run.pending == [] && t.mail == s.mail
  {
  }

  /** An answer without tool calls ends the run when nothing is queued; a failed or aborted answer ends
      it whatever is queued. */
  lemma PlainAnswerEnds(s: Session, actions: seq<Action>)
    requires Reachable(s) && s.run.pc.Answered? && s.run.pc.message.Assistant? && Undriven(actions)
    ensures var m, t := s.run.pc.message, Step(s, Proceed(Tick));
            if m.stop.Failed? || m.stop.Cancelled? then Leaving(Run(t, actions))
            else Calls(m.content) == [] && NothingQueued(s) ==>
              var u := Step(t, Proceed(Decide(false)));
              Leaving(Run(u, actions)) && Step(Step(Step(u, Proceed(Tick)), Proceed(Tick)), Proceed(Tick)).run.pc.Over?
  {
    var m, t := s.run.pc.message, Step(s, Proceed(Tick));
    assert s.run.pending == [] by { ReachableSound(s); }
    AnswerWithoutCalls(s, m, s.run.pc.isNew);
    if m.stop.Failed? || m.stop.Cancelled? {
      LeavesForGood(t, actions);
    } else if Calls(m.content) == [] && NothingQueued(s) {
      TurnDecided(t);
      LeavesForGood(Step(t, Proceed(Decide(false))), actions);
      LeavesSoon(Step(t, Proceed(Decide(false))));
    }
  }

  // ----- Starting, aborting and steering -----

  /** A prompt starts a run exactly if none is active: it is what the run adds to the transcript, and
      the run is not aborted. An abort takes hold of a run in progress and of nothing else. */
  lemma PromptsAndAborts(s: Session, prompts: seq<Message>)
    requires AllInjectable(prompts)
    ensures var t := Step(s, Prompt(prompts));
            if s.run.pc.Idle?
            then t.run.pc.Begin? && !t.run.aborted && t.log.newMessages == prompts && t.log.trace == []
                 && t.log.context == s.log.agent.messages + prompts && t.mail.steer == s.mail.steer && t.mail.follow == s.mail.follow
            else t == s
    ensures var t := Step(s, Abort); if s.run.pc.Idle? then t == s else t == s.(run := t.run) && t.run == s.run.(aborted := true)
  {
  }
}
