/** The agent loop and its stateful wrapper as one state machine. One step is the code between two
    awaits (a step may be split further, never merged across an await that another step could
    observe). The caller, the model stream, tools, hooks and crashes are the adversary: every
    sequence of actions is a run, and an action that does not apply changes nothing. */
module AgentSession {
  import opened Options
  import opened Transcript
  import opened EventGrammar
  import ToolBatch

  // ----- Queues (`PendingMessageQueue`) -----

  datatype Mode = All | OneAtATime

  datatype Queue = Queue(messages: seq<Message>, mode: Mode)

  function Enqueue(q: Queue, m: Message): Queue {
    q.(messages := q.messages + [m])
  }

  /** What a drain takes and what it leaves. */
  function Take(q: Queue): (taken: seq<Message>)
    ensures |taken| <= |q.messages| && taken + q.messages[|taken|..] == q.messages
    ensures if q.mode.All? then taken == q.messages else |taken| == if q.messages == [] then 0 else 1
  {
    if q.mode.All? || |q.messages| <= 1 then q.messages else q.messages[..1]
  }

  function Rest(q: Queue): Queue {
    q.(messages := q.messages[|Take(q)|..])
  }

  // ----- The wrapper's state, rebuilt from events (`processEvents`) -----

  datatype AgentState = AgentState(messages: seq<Message>, streaming: Option<Message>, pendingToolCalls: set<string>)

  function Reduce(a: AgentState, e: Event): AgentState {
    match e
    case MessageStart(m) => a.(streaming := Some(m))
    case MessageUpdate(m) => a.(streaming := Some(m))
    case MessageEnd(m) => a.(streaming := None, messages := a.messages + [m])
    case ToolStart(id) => a.(pendingToolCalls := a.pendingToolCalls + {id})
    case ToolEnd(id, _) => a.(pendingToolCalls := a.pendingToolCalls - {id})
    case AgentEnd(_) => a.(streaming := None)
    case _ => a
  }

  // ----- Session -----

  /** Where a new message of a run came from. */
  datatype Origin = Prompted | Steered | FollowedUp | Extra | Generated

  datatype Control =
    | Idle
    | Begin
    | BeginTurn
    | Prompting(i: nat, begun: bool)
    | PrepareInitial
    | LoopCheck
    | FollowUpPoll
    | PrepareNext
    | TurnOpening
    | SteeringHook
    | Injecting(queued: seq<Message>, extras: seq<Message>, begun: bool)
    | Request
    | Streaming(partial: bool)
    | Closing(final: Message)
    | Answered(message: Message, isNew: bool)
    | InBatch(message: Message, batch: ToolBatch.Batch)
    | StopCheck
    | Ending
    | Over

  /** Every copy of the transcript, with what is observed about the run but not stored by it. */
  datatype Log = Log(
    agent: AgentState,
    trace: seq<Event>,
    context: seq<Message>,           // the loop's context
    newMessages: seq<Message>,
    origins: seq<Origin>,            // parallel to newMessages
    start: seq<Message>,             // transcript when the run began
    replaced: bool,                  // a hook installed another context
    requestAt: nat)                  // how many new messages existed at the last answer request

  /** The run's program counter and its other local variables. */
  datatype Locals = Locals(
    pc: Control,
    aborted: bool,
    pending: seq<Message>,
    pendingIsSteering: bool,
    hasMore: bool,
    turnDone: bool,
    skipPoll: bool,
    resume: Option<Pending>)

  /** The queues and the ledger of what went through them. */
  datatype Mail = Mail(
    steer: Queue,
    follow: Queue,
    prelude: Option<seq<Message>>,   // steering drained by `continue`, waiting for its hook
    steered: seq<Message>,           // everything ever passed to steer()
    followed: seq<Message>,          // everything ever passed to followUp()
    priorSteered: seq<Message>,      // steering delivered by earlier runs
    priorFollowed: seq<Message>,
    orderly: bool)                   // nothing overtook a prelude, and none was dropped

  datatype Session = Session(log: Log, run: Locals, mail: Mail, suppress: bool)

  datatype RunAction =
    | Tick
    | Prepared(replacement: Option<seq<Message>>)
    | Extras(extras: seq<Message>)
    | StreamStart(partial: Message)
    | StreamDelta(partial: Message, prose: bool)
    | StreamEnd(message: Message)
    | BeginTools(scripts: seq<ToolBatch.Script>, parallel: bool, safe: set<string>)
    | Tool(action: ToolBatch.Action)
    | Decide(stop: bool)

  datatype Action =
    | Steer(message: Message)
    | FollowUp(message: Message)
    | Abort
    | Prompt(messages: seq<Message>)
    | Continue
    | HookReturned(extras: seq<Message>)
    | Resume
    | Crash
    | Proceed(run: RunAction)

  /** Callers and hooks supply user or custom messages; assistant and tool-result messages come only
      from the stream and the tools. */
  predicate Injectable(m: Message) {
    m.User? || m.Custom?
  }

  predicate AllInjectable(ms: seq<Message>) {
    forall i :: 0 <= i < |ms| ==> Injectable(ms[i])
  }

  function Repeat(o: Origin, n: nat): (os: seq<Origin>)
    ensures |os| == n && forall i :: 0 <= i < n ==> os[i] == o
  {
    seq(n, _ => o)
  }

  /** The messages of one origin, in order. */
  function Select(ms: seq<Message>, os: seq<Origin>, o: Origin): seq<Message> {
    if ms == [] || os == [] then []
    else
      var front := Select(ms[..|ms| - 1], os[..|os| - 1], o);
      if os[|os| - 1] == o then front + [ms[|ms| - 1]] else front
  }

  function Emit(l: Log, e: Event): Log {
    l.(trace := l.trace + [e], agent := Reduce(l.agent, e))
  }

  function EmitAll(l: Log, es: seq<Event>): Log {
    if es == [] then l else Emit(EmitAll(l, es[..|es| - 1]), es[|es| - 1])
  }

  function Append(l: Log, ms: seq<Message>, o: Origin): Log {
    l.(newMessages := l.newMessages + ms, origins := l.origins + Repeat(o, |ms|))
  }

  function Replace(l: Log, replacement: Option<seq<Message>>): Log {
    if replacement.None? then l else l.(context := replacement.value, replaced := true)
  }

  function Go(s: Session, log: Log, pc: Control): Session {
    s.(log := log, run := s.run.(pc := pc))
  }

  /** Draining the steering queue overtakes what a prelude still holds. */
  function TakeSteering(m: Mail): Mail {
    m.(steer := Rest(m.steer), orderly := m.orderly && (m.prelude.None? || Take(m.steer) == []))
  }

  /** `takeSteering`: nothing once aborted; the first poll after `continue` is skipped. */
  function Poll(s: Session): (t: Session)
    ensures t.log == s.log && t.suppress == s.suppress
    ensures t.run == s.run.(pending := t.run.pending, skipPoll := t.run.skipPoll)
    ensures t.mail == s.mail.(steer := t.mail.steer, orderly := t.mail.orderly)
  {
    if s.run.aborted then s.(run := s.run.(pending := []))
    else if s.run.skipPoll then s.(run := s.run.(pending := [], skipPoll := false))
    else s.(run := s.run.(pending := Take(s.mail.steer)), mail := TakeSteering(s.mail))
  }

  predicate Balanced(l: Log) {
    |l.newMessages| == |l.origins|
  }

  function Delivered(l: Log, o: Origin): seq<Message> {
    Select(l.newMessages, l.origins, o)
  }

  // ----- Entry points -----

  function StartLog(l: Log, prompts: seq<Message>, origins: seq<Origin>): Log {
    var ms := l.agent.messages;
    Log(l.agent.(streaming := None), [], ms + prompts, prompts, origins, ms, false, 0)
  }

  /** `runWithLifecycle` plus an entry point: prompts enter context and new messages at once. */
  function StartRun(s: Session, prompts: seq<Message>, origins: seq<Origin>, skip: bool, resume: Option<Pending>): Session {
    Session(
      StartLog(s.log, prompts, origins),
      Locals(Begin, false, [], true, true, false, skip, resume),
      s.mail.(priorSteered := s.mail.priorSteered + Delivered(s.log, Steered),
              priorFollowed := s.mail.priorFollowed + Delivered(s.log, FollowedUp)),
      s.suppress)
  }

  /** `Agent.continue` on an idle agent. */
  function StartContinue(s: Session): Session {
    var ms, steering, following := s.log.agent.messages, Take(s.mail.steer), Take(s.mail.follow);
    if ms == [] then s
    else if !ms[|ms| - 1].Assistant? then StartRun(s, [], [], false, None)
    else if steering != [] then s.(mail := s.mail.(prelude := Some(steering), steer := Rest(s.mail.steer)))
    else if following != [] then
      StartRun(s.(mail := s.mail.(follow := Rest(s.mail.follow))), following, Repeat(FollowedUp, |following|), false, None)
    else s
  }

  /** The steering hook of `continue` returns. If another run was started meanwhile the drained
      messages are dropped with the error. */
  function FinishPrelude(s: Session, extras: seq<Message>): Session
    requires s.mail.prelude.Some?
  {
    var batch, t := s.mail.prelude.value, s.(mail := s.mail.(prelude := None));
    if s.run.pc.Idle? then
      StartRun(t, batch + extras, Repeat(Steered, |batch|) + Repeat(Extra, |extras|), true, None)
    else t.(mail := t.mail.(orderly := false))
  }

  /** The process dies: what remains is the recorded transcript. Queues and their ledger begin anew. */
  function Crashed(s: Session): Session {
    Session(
      s.log.(agent := s.log.agent.(streaming := None, pendingToolCalls := {}), newMessages := [], origins := []),
      s.run.(pc := Idle, pending := [], pendingIsSteering := true),
      EmptyMail(s.mail.steer.mode, s.mail.follow.mode),
      s.suppress)
  }

  function EmptyMail(steerMode: Mode, followMode: Mode): Mail {
    Mail(Queue([], steerMode), Queue([], followMode), None, [], [], [], [], true)
  }

  function Step(s: Session, a: Action): Session {
    match a
    case Steer(m) =>
      if Injectable(m) then s.(mail := s.mail.(steer := Enqueue(s.mail.steer, m), steered := s.mail.steered + [m])) else s
    case FollowUp(m) =>
      if Injectable(m) then s.(mail := s.mail.(follow := Enqueue(s.mail.follow, m), followed := s.mail.followed + [m])) else s
    case Abort => if s.run.pc.Idle? then s else s.(run := s.run.(aborted := true))
    case Prompt(ms) =>
      if s.run.pc.Idle? && AllInjectable(ms) then StartRun(s, ms, Repeat(Prompted, |ms|), false, None) else s
    case Continue => if s.run.pc.Idle? && s.mail.prelude.None? then StartContinue(s) else s
    case HookReturned(xs) => if s.mail.prelude.Some? && AllInjectable(xs) then FinishPrelude(s, xs) else s
    case Resume =>
      if s.run.pc.Idle? && PendingCalls(s.log.agent.messages).Some?
      then StartRun(s, [], [], false, PendingCalls(s.log.agent.messages)) else s
    case Crash => Crashed(s)
    case Proceed(r) => Advance(s, r)
  }

  // ----- The loop: one small function per way a step can go -----

  function PromptAt(l: Log, i: nat): Control {
    if i < |l.newMessages| then Prompting(i, false) else PrepareInitial
  }

  function AnnouncePrompt(s: Session, i: nat): Session
    requires i < |s.log.newMessages|
  {
    Go(s, Emit(s.log, MessageStart(s.log.newMessages[i])), Prompting(i, true))
  }

  function ConfirmPrompt(s: Session, i: nat): Session
    requires i < |s.log.newMessages|
  {
    Go(s, Emit(s.log, MessageEnd(s.log.newMessages[i])), PromptAt(s.log, i + 1))
  }

  function PrepareRun(s: Session, replacement: Option<seq<Message>>): Session {
    var t := if s.run.resume.Some? then s else Poll(s);
    Go(t, Replace(s.log, replacement), LoopCheck)
  }

  function PrepareTurn(s: Session, replacement: Option<seq<Message>>): Session {
    var t := if s.run.pending == [] then Poll(s) else s;
    Go(t, Replace(s.log, replacement), TurnOpening)
  }

  function CheckLoop(s: Session): Session {
    Go(s, s.log, if !s.run.hasMore && s.run.pending == [] then FollowUpPoll
                 else if s.run.turnDone then PrepareNext else SteeringHook)
  }

  function PollFollowUps(s: Session): Session {
    if s.run.aborted || Take(s.mail.follow) == [] then Go(s, s.log, Ending)
    else s.(run := s.run.(pending := Take(s.mail.follow), pendingIsSteering := false, hasMore := true, pc := LoopCheck),
            mail := s.mail.(follow := Rest(s.mail.follow)))
  }

  function BeginInjecting(s: Session, extras: seq<Message>): Session {
    s.(run := s.run.(pending := [],
                     pc := Injecting(s.run.pending, if s.run.pendingIsSteering then extras else [], false)))
  }

  /** A message joins context and new messages when its end is emitted. */
  function Said(l: Log, m: Message, o: Origin): Log {
    var t := Append(Emit(l, MessageEnd(m)), [m], o);
    t.(context := t.context + [m])
  }

  function InjectQueued(s: Session, queued: seq<Message>, extras: seq<Message>, begun: bool): Session
    requires queued != []
  {
    if !begun then Go(s, Emit(s.log, MessageStart(queued[0])), Injecting(queued, extras, true))
    else Go(s, Said(s.log, queued[0], if s.run.pendingIsSteering then Steered else FollowedUp),
            Injecting(queued[1..], extras, false))
  }

  function InjectExtra(s: Session, extras: seq<Message>, begun: bool): Session
    requires extras != []
  {
    if !begun then Go(s, Emit(s.log, MessageStart(extras[0])), Injecting([], extras, true))
    else Go(s, Said(s.log, extras[0], Extra), Injecting([], extras[1..], false))
  }

  function EndInjecting(s: Session): Session {
    s.(run := s.run.(pc := Request, pendingIsSteering := true))
  }

  /** A resumed run takes its recorded answer; any other asks the model. */
  function MakeRequest(s: Session): Session {
    Go(s, s.log.(requestAt := |s.log.newMessages|),
       if s.run.resume.Some? then Answered(s.run.resume.value.assistant, false) else Streaming(false))
  }

  predicate Bare(content: seq<Block>) {
    forall i :: 0 <= i < |content| ==> content[i].Call?
  }

  /** `suppressAssistantText` keeps only the tool calls of a final message. */
  function OnlyCalls(content: seq<Block>): (calls: seq<Block>)
    ensures Calls(calls) == Calls(content) && Bare(calls)
  {
    if content == [] then []
    else
      var last, front := content[|content| - 1], OnlyCalls(content[..|content| - 1]);
      assert (front + [last])[..|front|] == front;
      if last.Call? then front + [last] else front
  }

  function Final(suppress: bool, m: Message): (f: Message)
    requires m.Assistant?
    ensures f.Assistant? && f.stop == m.stop && Calls(f.content) == Calls(m.content)
    ensures if suppress then Bare(f.content) else f == m
  {
    if suppress then m.(content := OnlyCalls(m.content)) else m
  }

  function SetLast(ms: seq<Message>, m: Message): seq<Message> {
    if ms == [] then ms else ms[|ms| - 1 := m]
  }

  function StartPartial(s: Session, p: Message): Session {
    Go(s, Emit(s.log.(context := s.log.context + [p]), MessageStart(p)), Streaming(true))
  }

  function UpdatePartial(s: Session, p: Message, quiet: bool): Session {
    var l := s.log.(context := SetLast(s.log.context, p));
    Go(s, if quiet then l else Emit(l, MessageUpdate(p)), Streaming(true))
  }

  function FinishPartial(s: Session, f: Message): Session {
    Go(s, Emit(s.log.(context := SetLast(s.log.context, f)), MessageEnd(f)), Answered(f, true))
  }

  function StartWhole(s: Session, f: Message): Session {
    Go(s, Emit(s.log.(context := s.log.context + [f]), MessageStart(f)), Closing(f))
  }

  predicate Streamable(m: Message) {
    m.Assistant? && DistinctIds(Calls(m.content))
  }

  function OnStream(s: Session, partial: bool, r: RunAction): Session {
    match r
    case StreamStart(p) => if !partial && p.Assistant? then StartPartial(s, p) else s
    case StreamDelta(p, prose) => if partial && p.Assistant? then UpdatePartial(s, p, s.suppress && prose) else s
    case StreamEnd(m) =>
      if !Streamable(m) then s
      else if partial then FinishPartial(s, Final(s.suppress, m)) else StartWhole(s, Final(s.suppress, m))
    case _ => s
  }

  /** The calls of a batch in settling order and how many of them are answered without execution,
      because they were interrupted or else because the message was truncated. */
  datatype Plan = Plan(calls: seq<ToolCall>, forced: nat, resumed: bool)

  function Interrupted(c: ToolCall): string {
    "Tool call \"" + c.name + "\" was interrupted before its result was recorded and was not re-run. "
    + "Its effects, if any, are unknown; check the current state before re-issuing it."
  }

  function Truncated(c: ToolCall): string {
    "Tool call \"" + c.name + "\" was not executed: the response hit the output token limit, so its "
    + "arguments may be truncated. Re-issue the tool call with complete arguments."
  }

  /** Resumed calls that are not replay-safe come first. */
  function ResumePlan(calls: seq<ToolCall>, safe: set<string>): Plan {
    var interrupted := Unanswered(calls, safe);
    Plan(interrupted + Unanswered(calls, Ids(interrupted)), |interrupted|, true)
  }

  function BatchPlan(resume: Option<Pending>, m: Message, isNew: bool, safe: set<string>): Plan
    requires m.Assistant?
  {
    if !isNew && resume.Some? then ResumePlan(resume.value.calls, safe)
    else Plan(Calls(m.content), if m.stop.Length? then |Calls(m.content)| else 0, false)
  }

  predicate Fits(plan: Plan, scripts: seq<ToolBatch.Script>) {
    && |scripts| == |plan.calls|
    && (forall i :: 0 <= i < |scripts| ==> (scripts[i].prep.Answered? <==> i < plan.forced))
    && (forall i :: 0 <= i < |scripts| && scripts[i].prep.Answered? ==>
          scripts[i].prep.answer == if plan.resumed then Interrupted(plan.calls[i]) else Truncated(plan.calls[i]))
  }

  /** A streamed answer joins the new messages; a recorded one is already in the transcript. */
  function Adopt(l: Log, m: Message, isNew: bool): Log {
    if isNew then Append(l, [m], Generated) else l
  }

  function FailTurn(s: Session, m: Message, isNew: bool): Session {
    Go(s, Emit(Adopt(s.log, m, isNew), TurnEnd(m, [])), Ending)
  }

  function EndTurn(s: Session, m: Message, isNew: bool): Session {
    s.(log := Emit(Adopt(s.log, m, isNew), TurnEnd(m, [])), run := s.run.(hasMore := false, pc := StopCheck))
  }

  function BeginBatch(s: Session, m: Message, isNew: bool, b: ToolBatch.Batch): Session {
    s.(log := Adopt(s.log, m, isNew), run := s.run.(resume := None, pc := InBatch(m, b)))
  }

  function OnAnswer(s: Session, m: Message, isNew: bool, r: RunAction): Session {
    if !m.Assistant? then s
    else if m.stop.Failed? || m.stop.Cancelled? then FailTurn(s, m, isNew)
    else if Calls(m.content) == [] then EndTurn(s, m, isNew)
    else if r.BeginTools? then StartTools(s, m, isNew, r) else s
  }

  function StartTools(s: Session, m: Message, isNew: bool, r: RunAction): Session
    requires m.Assistant? && r.BeginTools?
  {
    var plan := BatchPlan(s.run.resume, m, isNew, r.safe);
    if Fits(plan, r.scripts)
    then BeginBatch(s, m, isNew, ToolBatch.Begin(plan.calls, r.scripts, plan.forced, r.parallel)) else s
  }

  function FinishBatch(s: Session, m: Message, b: ToolBatch.Batch): Session
    requires ToolBatch.Inv(b) && b.phase.Finished?
  {
    var l := Append(s.log, b.messages, Generated);
    s.(log := Emit(l.(context := l.context + b.messages), TurnEnd(m, b.messages)),
       run := s.run.(hasMore := !ToolBatch.Terminates(b), pc := StopCheck))
  }

  function StepBatch(s: Session, m: Message, b: ToolBatch.Batch, a: ToolBatch.Action): Session
    requires ToolBatch.Inv(b)
  {
    var (c, es) := ToolBatch.Step(b, a, s.run.aborted);
    Go(s, EmitAll(s.log, es), InBatch(m, c))
  }

  function OnBatch(s: Session, m: Message, b: ToolBatch.Batch, r: RunAction): Session {
    if !ToolBatch.Inv(b) then s
    else if b.phase.Finished? then FinishBatch(s, m, b)
    else if r.Tool? then StepBatch(s, m, b, r.action)
    else s
  }

  function StopRun(s: Session): Session {
    s.(log := Emit(s.log, AgentEnd(s.log.newMessages)), run := s.run.(turnDone := true, pc := Over))
  }

  function PollAfterTurn(s: Session): Session {
    var t := Poll(s);
    t.(run := t.run.(turnDone := true, pc := LoopCheck))
  }

  function FinishRun(s: Session): Session {
    Go(s, s.log.(agent := s.log.agent.(streaming := None, pendingToolCalls := {})), Idle)
  }

  function Advance(s: Session, r: RunAction): Session {
    match s.run.pc
    case Idle => s
    case Begin => Go(s, Emit(s.log, AgentStart), BeginTurn)
    case BeginTurn => Go(s, Emit(s.log, TurnStart), PromptAt(s.log, 0))
    case Prompting(i, begun) =>
      if i >= |s.log.newMessages| then s else if begun then ConfirmPrompt(s, i) else AnnouncePrompt(s, i)
    case PrepareInitial => if r.Prepared? then PrepareRun(s, r.replacement) else s
    case LoopCheck => CheckLoop(s)
    case FollowUpPoll => PollFollowUps(s)
    case PrepareNext => if r.Prepared? then PrepareTurn(s, r.replacement) else s
    case TurnOpening => Go(s, Emit(s.log, TurnStart), SteeringHook)
    case SteeringHook =>
      if s.run.pending == [] then Go(s, s.log, Request)
      else if r.Extras? && AllInjectable(r.extras) then BeginInjecting(s, r.extras) else s
    case Injecting(queued, extras, begun) =>
      if queued != [] then InjectQueued(s, queued, extras, begun)
      else if extras != [] then InjectExtra(s, extras, begun) else EndInjecting(s)
    case Request => MakeRequest(s)
    case Streaming(partial) => OnStream(s, partial, r)
    case Closing(f) => Go(s, Emit(s.log, MessageEnd(f)), Answered(f, true))
    case Answered(m, isNew) => OnAnswer(s, m, isNew, r)
    case InBatch(m, b) => OnBatch(s, m, b, r)
    case StopCheck => if !r.Decide? then s else if r.stop then StopRun(s) else PollAfterTurn(s)
    case Ending => Go(s, Emit(s.log, AgentEnd(s.log.newMessages)), Over)
    case Over => FinishRun(s)
  }

  /** Between the first injection of a turn and the decision that ends it. */
  predicate TurnBegun(pc: Control) {
    pc.Injecting? || pc.Request? || pc.Streaming? || pc.Closing? || pc.Answered? || pc.InBatch? || pc.StopCheck?
  }

  /** A fresh process over a stored transcript. */
  function InitialSession(messages: seq<Message>, steerMode: Mode, followMode: Mode, suppress: bool): Session {
    Session(
      Log(AgentState(messages, None, {}), [], [], [], [], [], false, 0),
      Locals(Idle, false, [], true, true, false, false, None),
      EmptyMail(steerMode, followMode),
      suppress)
  }
}
