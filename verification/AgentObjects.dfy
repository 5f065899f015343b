/** The mutable objects of the agent wrapper. Their methods are proved against the functions the
    session machine is built from. */
module AgentObjects {
  import opened Options
  import opened Transcript
  import opened EventGrammar
  import opened AgentSession

  class PendingMessageQueue {
    var messages: seq<Message>
    var mode: Mode

    ghost function Value(): Queue
      reads this
    {
      Queue(messages, mode)
    }

    constructor (mode: Mode)
      ensures Value() == Queue([], mode)
    {
      this.messages := [];
      this.mode := mode;
    }

    method Enqueue(message: Message)
      modifies this
      ensures Value() == AgentSession.Enqueue(old(Value()), message)
    {
      messages := messages + [message];
    }

    method HasItems() returns (has: bool)
      ensures has <==> Take(Value()) != []
    {
      has := |messages| > 0;
    }

    /** Everything, or the first message: the front of the queue, in order; the rest stays. */
    method Drain() returns (drained: seq<Message>)
      modifies this
      ensures drained == Take(old(Value())) && Value() == Rest(old(Value()))
      ensures drained + messages == old(messages)
      ensures drained == [] <==> old(messages) == []
      ensures if mode.All? then messages == [] else |drained| <= 1
    {
      if mode.All? {
        drained := messages;
        messages := [];
        return;
      }
      if |messages| == 0 { return []; }
      drained := [messages[0]];
      messages := messages[1..];
    }

    method Clear()
      modifies this
      ensures messages == [] && mode == old(mode)
    {
      messages := [];
    }
  }

  datatype Admission = Admitted | Busy

  class Agent {
    const steeringQueue: PendingMessageQueue
    const followUpQueue: PendingMessageQueue
    var messages: seq<Message>
    var isStreaming: bool
    var streamingMessage: Option<Message>
    var pendingToolCalls: set<string>
    var activeRun: Option<bool>     // the active run's abort flag

    ghost function State(): AgentState
      reads this
    {
      AgentState(messages, streamingMessage, pendingToolCalls)
    }

    constructor (transcript: seq<Message>, steeringMode: Mode, followUpMode: Mode)
      ensures State() == AgentState(transcript, None, {}) && activeRun.None?
      ensures fresh(steeringQueue) && fresh(followUpQueue)
      ensures steeringQueue.Value() == Queue([], steeringMode) && followUpQueue.Value() == Queue([], followUpMode)
    {
      steeringQueue := new PendingMessageQueue(steeringMode);
      followUpQueue := new PendingMessageQueue(followUpMode);
      messages := transcript;
      isStreaming, streamingMessage, pendingToolCalls, activeRun := false, None, {}, None;
    }

    /** `runWithLifecycle` up to the executor: one run at a time. */
    method BeginRun() returns (admission: Admission)
      modifies this
      ensures messages == old(messages)
      ensures admission.Busy? <==> old(activeRun).Some?
      ensures admission.Busy? ==> State() == old(State()) && activeRun == old(activeRun) && isStreaming == old(isStreaming)
      ensures admission.Admitted? ==>
                activeRun == Some(false) && isStreaming && State() == AgentState(old(messages), None, old(pendingToolCalls))
    {
      if activeRun.Some? { return Busy; }
      activeRun := Some(false);
      isStreaming := true;
      streamingMessage := None;
      return Admitted;
    }

    method Abort()
      modifies this`activeRun
      ensures activeRun == if old(activeRun).Some? then Some(true) else None
    {
      if activeRun.Some? { activeRun := Some(true); }
    }

    /** The reducer of `processEvents`. An event outside a run is reduced and then reported. */
    method ProcessEvent(event: Event) returns (insideRun: bool)
      modifies this
      ensures State() == Reduce(old(State()), event)
      ensures insideRun == activeRun.Some? && activeRun == old(activeRun) && isStreaming == old(isStreaming)
    {
      match event {
        case MessageStart(m) => streamingMessage := Some(m);
        case MessageUpdate(m) => streamingMessage := Some(m);
        case MessageEnd(m) =>
          streamingMessage := None;
          messages := messages + [m];
        case ToolStart(id) => pendingToolCalls := pendingToolCalls + {id};
        case ToolEnd(id, _) => pendingToolCalls := pendingToolCalls - {id};
        case AgentEnd(_) => streamingMessage := None;
        case _ =>
      }
      insideRun := activeRun.Some?;
    }

    /** Whatever happened in the run, thrown errors included, the agent is idle afterwards and its
        transcript is kept. */
    method FinishRun()
      modifies this
      ensures activeRun.None? && !isStreaming && State() == AgentState(old(messages), None, {})
    {
      isStreaming := false;
      streamingMessage := None;
      pendingToolCalls := {};
      activeRun := None;
    }
  }

  /** The steering source handed to the loop: nothing once aborted, and the first poll after
      `continue` is skipped because its messages are already the prompts. */
  class SteeringSource {
    const queue: PendingMessageQueue
    var skipInitialPoll: bool

    constructor (queue: PendingMessageQueue, skip: bool)
      ensures this.queue == queue && skipInitialPoll == skip
    {
      this.queue := queue;
      skipInitialPoll := skip;
    }

    method TakeSteering(aborted: bool) returns (taken: seq<Message>)
      modifies this, queue
      ensures aborted ==> taken == [] && skipInitialPoll == old(skipInitialPoll) && queue.Value() == old(queue.Value())
      ensures !aborted && old(skipInitialPoll) ==> taken == [] && !skipInitialPoll && queue.Value() == old(queue.Value())
      ensures !aborted && !old(skipInitialPoll) ==>
                taken == Take(old(queue.Value())) && queue.Value() == Rest(old(queue.Value())) && !skipInitialPoll
    {
      if aborted { return []; }
      if skipInitialPoll {
        skipInitialPoll := false;
        return [];
      }
      taken := queue.Drain();
    }
  }
}
