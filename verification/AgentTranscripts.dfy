/** Over every run of the session machine: the copies of the transcript agree, events follow the
    grammar, and no tool call is answered twice. */
module AgentTranscripts {
  import opened Options
  import opened Transcript
  import opened EventGrammar
  import opened AgentSession
  import ToolBatch

  // ----- Agreement of the copies -----

  /** What the wrapper has recorded since the run began, at each program point. */
  function Recorded(l: Log, pc: Control): seq<Message>
    requires pc.Prompting? ==> pc.i <= |l.newMessages|
  {
    match pc
    case Begin => []
    case BeginTurn => []
    case Prompting(i, _) => l.newMessages[..i]
    case Answered(m, isNew) => if isNew then l.newMessages + [m] else l.newMessages
    case InBatch(_, b) => l.newMessages + b.messages
    case _ => l.newMessages
  }

  /** What the loop context holds beyond the new messages. */
  predicate ContextAt(l: Log, pc: Control) {
    match pc
    case Streaming(true) => l.context != [] && l.context[..|l.context| - 1] == l.start + l.newMessages
    case Closing(f) => l.context == l.start + l.newMessages + [f]
    case Answered(m, true) => l.context == l.start + l.newMessages + [m]
    case _ => l.context == l.start + l.newMessages
  }

  /** The three copies are equal (the context unless a hook replaced it). */
  predicate Agreed(l: Log) {
    l.agent.messages == l.start + l.newMessages && (!l.replaced ==> l.context == l.start + l.newMessages)
  }

  predicate AgreeAt(l: Log, pc: Control) {
    && Balanced(l)
    && (pc.Prompting? ==> pc.i < |l.newMessages|)
    && (!pc.Idle? ==>
          && l.agent.messages == l.start + Recorded(l, pc)
          && (!l.replaced ==> ContextAt(l, pc)))
  }

  lemma Assoc(a: seq<Message>, b: seq<Message>, c: seq<Message>)
    ensures a + (b + c) == a + b + c
  {
  }

  lemma PromptAgrees(s: Session, i: nat)
    requires AgreeAt(s.log, s.run.pc) && s.run.pc.Prompting? && s.run.pc.i == i
    ensures var t := AnnouncePrompt(s, i); AgreeAt(t.log, t.run.pc)
    ensures var t := ConfirmPrompt(s, i); AgreeAt(t.log, t.run.pc)
  {
    var ms := s.log.newMessages;
    assert ms[..i + 1] == ms[..i] + [ms[i]];
    assert ms[..|ms|] == ms;
    Assoc(s.log.start, ms[..i], [ms[i]]);
  }

  lemma SaidAgrees(l: Log, m: Message, o: Origin)
    requires Balanced(l) && Agreed(l)
    ensures Balanced(Said(l, m, o)) && Agreed(Said(l, m, o))
  {
    Assoc(l.start, l.newMessages, [m]);
  }

  lemma PartialAgrees(s: Session, m: Message, quiet: bool)
    ensures AgreeAt(s.log, Streaming(false)) ==> AgreeAt(StartPartial(s, m).log, Streaming(true))
    ensures AgreeAt(s.log, Streaming(true)) ==> AgreeAt(UpdatePartial(s, m, quiet).log, Streaming(true))
  {
  }

  lemma WholeAgrees(s: Session, m: Message)
    ensures AgreeAt(s.log, Streaming(true)) ==> AgreeAt(FinishPartial(s, m).log, Answered(m, true))
    ensures AgreeAt(s.log, Streaming(false)) ==> AgreeAt(StartWhole(s, m).log, Closing(m))
  {
    Assoc(s.log.start, s.log.newMessages, [m]);
  }

  lemma AdoptAgrees(l: Log, m: Message, isNew: bool)
    requires AgreeAt(l, Answered(m, isNew))
    ensures Balanced(Adopt(l, m, isNew)) && Agreed(Adopt(l, m, isNew))
  {
    Assoc(l.start, l.newMessages, [m]);
  }

  lemma EmitAllOne(l: Log, es: seq<Event>)
    requires |es| <= 1
    ensures EmitAll(l, es) == if es == [] then l else Emit(l, es[0])
  {
    assert es == [] || es == [es[0]];
  }

  /** `es` ends the message of every result that `after` has and `before` has not. */
  predicate Reports(before: seq<Message>, after: seq<Message>, es: seq<Event>) {
    || (after == before && (es == [] || (|es| == 1 && !es[0].MessageEnd?)))
    || (|after| == |before| + 1 && after[..|before|] == before && es == [MessageEnd(after[|before|])])
  }

  lemma ReportAgrees(l: Log, m: Message, b: ToolBatch.Batch, c: ToolBatch.Batch, es: seq<Event>)
    requires AgreeAt(l, InBatch(m, b)) && Reports(b.messages, c.messages, es)
    ensures AgreeAt(EmitAll(l, es), InBatch(m, c))
  {
    EmitAllOne(l, es);
    if c.messages != b.messages {
      var last := [c.messages[|b.messages|]];
      assert c.messages == b.messages + last;
      Assoc(l.newMessages, b.messages, last);
      Assoc(l.start, l.newMessages + b.messages, last);
    }
  }

  lemma FinishBatchAgrees(s: Session, m: Message, b: ToolBatch.Batch)
    requires AgreeAt(s.log, InBatch(m, b)) && ToolBatch.Inv(b) && b.phase.Finished?
    ensures var t := FinishBatch(s, m, b); AgreeAt(t.log, t.run.pc)
  {
    Assoc(s.log.start, s.log.newMessages, b.messages);
  }

  // ----- Events follow the grammar -----

  /** The wrapper's pending calls and streaming message are what the monitor sees. */
  predicate InStep(a: AgentState, m: Monitor) {
    m.Watching? && a.pendingToolCalls == m.running && (a.streaming.Some? <==> m.open)
  }

  predicate Sync(l: Log) {
    InStep(l.agent, Watch(l.trace))
  }

  predicate Paused(m: Monitor, stage: Stage) {
    m.Watching? && m.stage == stage && !m.open && m.running == {}
  }

  predicate Talking(m: Monitor, open: bool) {
    m == Watching(InTurn, open, {}, {})
  }

  /** What the monitor has seen at each program point. */
  predicate StageAt(pc: Control, turnDone: bool, m: Monitor) {
    match pc
    case Idle => true
    case Begin => m == InitialMonitor
    case BeginTurn => Paused(m, Started)
    case Prompting(_, begun) => Talking(m, begun)
    case LoopCheck => if turnDone then Paused(m, Between) else Talking(m, false)
    case FollowUpPoll => Paused(m, Between)
    case PrepareNext => Paused(m, Between)
    case TurnOpening => Paused(m, Between)
    case Injecting(_, _, begun) => Talking(m, begun)
    case Streaming(partial) => Talking(m, partial)
    case Closing(_) => Talking(m, true)
    case InBatch(_, b) => ToolBatch.Inv(b) && ToolBatch.Seen(b, m)
    case StopCheck => Paused(m, Between)
    case Ending => Paused(m, Between)
    case Over => Paused(m, Ended)
    case _ => Talking(m, false)
  }

  predicate GrammarAt(l: Log, pc: Control, turnDone: bool) {
    if pc.Idle? then l.agent.pendingToolCalls == {} else Sync(l) && StageAt(pc, turnDone, Watch(l.trace))
  }

  lemma ReduceInStep(a: AgentState, m: Monitor, e: Event)
    requires InStep(a, m) && Observe(m, e).Watching? && (e.AgentEnd? ==> !m.open)
    ensures InStep(Reduce(a, e), Observe(m, e))
  {
    match e
    case MessageStart(_) =>
    case MessageUpdate(_) =>
    case MessageEnd(_) =>
    case ToolStart(_) =>
    case ToolEnd(_, _) =>
    case AgentEnd(_) =>
    case _ =>
  }

  lemma EmitSync(l: Log, e: Event)
    requires Sync(l) && Observe(Watch(l.trace), e).Watching? && (e.AgentEnd? ==> !Watch(l.trace).open)
    ensures Sync(Emit(l, e)) && Watch(Emit(l, e).trace) == Observe(Watch(l.trace), e)
  {
    WatchAppend(l.trace, e);
    ReduceInStep(l.agent, Watch(l.trace), e);
  }

  lemma BatchGrammar(l: Log, m: Message, b: ToolBatch.Batch, a: ToolBatch.Action, aborted: bool, turnDone: bool)
    requires ToolBatch.Inv(b) && GrammarAt(l, InBatch(m, b), turnDone)
    ensures var (c, es) := ToolBatch.Step(b, a, aborted); GrammarAt(EmitAll(l, es), InBatch(m, c), turnDone)
  {
    var c, es := ToolBatch.Step(b, a, aborted).0, ToolBatch.Step(b, a, aborted).1;
    ToolBatch.StepSeen(b, a, aborted, Watch(l.trace));
    ToolBatch.StepEmitsOne(b, a, aborted);
    SeenGrammar(l, c, es, turnDone, m);
  }

  lemma SeenGrammar(l: Log, c: ToolBatch.Batch, es: seq<Event>, turnDone: bool, m: Message)
    requires Sync(l) && |es| <= 1 && (es != [] ==> !es[0].AgentEnd?)
    requires ToolBatch.Inv(c) && ToolBatch.Seen(c, ToolBatch.ObserveAll(Watch(l.trace), es))
    ensures GrammarAt(EmitAll(l, es), InBatch(m, c), turnDone)
  {
    EmitAllOne(l, es);
    if es != [] {
      assert es == [es[0]];
      ToolBatch.ObserveOne(Watch(l.trace), es[0]);
      EmitSync(l, es[0]);
    }
  }

  // ----- No call is answered twice -----

  predicate AllStreamable(ms: seq<Message>) {
    forall i :: 0 <= i < |ms| && ms[i].Assistant? ==> Streamable(ms[i])
  }

  /** The transcript is legal, and during a batch exactly its unreported calls are outstanding. */
  predicate LegalAt(l: Log, run: Locals) {
    var ms := l.agent.messages;
    && Legal(ms) && AllStreamable(ms)
    && match run.pc
       case Closing(f) => Streamable(f)
       case Answered(m, isNew) =>
         && Streamable(m)
         && (isNew ==> Outstanding(ms) == Ids(Calls(m.content)))
         && (!isNew ==> run.resume.Some? && run.resume.value.assistant == m && Calls(m.content) != [])
       case InBatch(m, b) =>
         && ToolBatch.Inv(b) && (!run.aborted ==> ToolBatch.Clean(b))
         && Outstanding(ms) == Ids(b.calls[|b.messages|..])
       case _ => true
  }

  /** A run that resumes a turn keeps that turn's calls outstanding until their batch begins. */
  predicate ResumeAt(l: Log, run: Locals) {
    run.resume.Some? && !run.pc.Idle? ==>
      var p := run.resume.value;
      && Streamable(p.assistant) && p.assistant.stop == ToolUse && DistinctIds(p.calls) && p.calls != []
      && Outstanding(l.agent.messages) == Ids(p.calls) && Calls(p.assistant.content) != []
      && l.newMessages == [] && run.pending == []
      && (run.pc.Begin? || run.pc.BeginTurn? || run.pc.PrepareInitial? || run.pc.LoopCheck?
          || run.pc.SteeringHook? || run.pc.Request? || run.pc == Answered(p.assistant, false))
  }

  /** The first turn always happens, and only then is nothing completed yet. */
  predicate FlowAt(run: Locals) {
    && (run.resume.Some? && !run.pc.Idle? ==> run.hasMore && !run.turnDone)
    && (run.pc.Begin? || run.pc.BeginTurn? || run.pc.Prompting? || run.pc.PrepareInitial? ==> run.hasMore && !run.turnDone)
    && (run.pc.LoopCheck? && !run.turnDone ==> run.hasMore)
    && (run.pc.FollowUpPoll? || run.pc.PrepareNext? || run.pc.TurnOpening? ==> run.turnDone)
    && (run.pc.Injecting? && run.pc.begun ==> run.pc.queued != [] || run.pc.extras != [])
  }

  lemma AppendLegal(ms: seq<Message>, m: Message)
    requires Legal(ms) && AllStreamable(ms)
    requires Injectable(m) || Streamable(m) || (m.ToolResult? && m.callId in Outstanding(ms))
    ensures Legal(ms + [m]) && AllStreamable(ms + [m])
  {
    LegalAppend(ms, m);
  }

  lemma IdsTail(calls: seq<ToolCall>, k: nat)
    requires DistinctIds(calls) && k < |calls|
    ensures calls[k].id in Ids(calls[k..]) && Ids(calls[k + 1..]) == Ids(calls[k..]) - {calls[k].id}
  {
    var all, rest := calls[k..], calls[k + 1..];
    assert all == [calls[k]] + rest;
    forall id
      ensures id in Ids(all) <==> id == calls[k].id || id in Ids(rest)
      ensures id in Ids(rest) ==> id != calls[k].id
    {
      if i :| 0 <= i < |rest| && rest[i].id == id {
        assert all[i + 1].id == id && calls[k + 1 + i].id == id;
      }
      if i :| 0 <= i < |all| && all[i].id == id && i > 0 {
        assert rest[i - 1].id == id;
      }
      assert all[0].id == calls[k].id;
    }
  }

  /** The settling order of a resumed turn is a rearrangement of its pending calls in which the
      executed calls are exactly the replay-safe ones. */
  lemma ResumePlanRearranges(calls: seq<ToolCall>, safe: set<string>)
    requires DistinctIds(calls)
    ensures var plan := ResumePlan(calls, safe);
            && DistinctIds(plan.calls) && Ids(plan.calls) == Ids(calls) && plan.forced <= |plan.calls|
            && (forall c {:trigger c in calls} :: c in plan.calls <==> c in calls)
            && (forall i :: 0 <= i < |plan.calls| ==> (plan.calls[i].id in safe <==> i >= plan.forced))
  {
    var first := Unanswered(calls, safe);
    var second := Unanswered(calls, Ids(first));
    UnansweredIds(calls, safe);
    UnansweredIds(calls, Ids(first));
    var all := first + second;
    forall c
      ensures c in all <==> c in calls
    {
      if c in calls && c.id in Ids(first) {
        var i :| 0 <= i < |first| && first[i].id == c.id;
        assert first[i] in calls;
        var p :| 0 <= p < |calls| && calls[p] == c;
        var q :| 0 <= q < |calls| && calls[q] == first[i];
        assert p == q;
      }
    }
    forall i | 0 <= i < |all|
      ensures all[i].id in safe <==> i >= |first|
    {
      if i < |first| {
        assert first[i] in first;
      } else {
        assert second[i - |first|] in second;
      }
    }
    forall i, j | 0 <= i < j < |all|
      ensures all[i].id != all[j].id
    {
      if i < |first| <= j {
        assert first[i].id in Ids(first);
        assert second[j - |first|] in second;
      }
    }
    SameMembersSameIds(all, calls);
  }

  lemma SameMembersSameIds(a: seq<ToolCall>, b: seq<ToolCall>)
    requires forall c :: c in a <==> c in b
    ensures Ids(a) == Ids(b)
  {
    forall id
      ensures id in Ids(a) <==> id in Ids(b)
    {
      if id in Ids(a) {
        var i :| 0 <= i < |a| && a[i].id == id;
        assert a[i] in b;
      }
      if id in Ids(b) {
        var i :| 0 <= i < |b| && b[i].id == id;
        assert b[i] in a;
      }
    }
  }
}
