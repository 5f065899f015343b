/** One tool batch of the agent loop as a state machine. A step is the code between two awaits; the
    scheduler chooses which running tool moves and what the abort signal says. */
module ToolBatch {
  import opened Options
  import opened Transcript
  import opened EventGrammar

  /** A tool result's `terminate` field: absent, `true` or `"any"`. */
  datatype Terminate = Unset | Agree | Force

  /** What preparing a call leads to. `Answered` calls (truncated or interrupted) never execute;
      `Failing` covers a missing tool, invalid arguments and a throwing hook. */
  datatype Preparation =
    | Answered(answer: string)
    | Failing(problem: string)
    | Blocked(reason: string, terminate: bool)
    | Ready

  /** Everything tool snapshot, validator, hooks and tool decide about one call. */
  datatype Script = Script(prep: Preparation, text: string, isError: bool, terminate: Terminate)

  datatype Finalized = Finalized(call: ToolCall, text: string, isError: bool, terminate: Terminate)

  function ErrorResult(call: ToolCall, text: string): Finalized {
    Finalized(call, text, true, Unset)
  }

  /** `prepareToolCall`: an immediate outcome, or None when the call goes on to execute. */
  function Immediate(call: ToolCall, script: Script, aborted: bool): Option<Finalized> {
    match script.prep
    case Answered(text) => Some(ErrorResult(call, text))
    case Failing(text) => Some(ErrorResult(call, text))
    case Blocked(reason, terminate) =>
      if aborted then Some(ErrorResult(call, "Operation aborted"))
      else Some(Finalized(call, reason, true, if terminate then Agree else Unset))
    case Ready => if aborted then Some(ErrorResult(call, "Operation aborted")) else None
  }

  function Executed(call: ToolCall, script: Script): Finalized {
    Finalized(call, script.text, script.isError, script.terminate)
  }

  function Outcome(call: ToolCall, script: Script, aborted: bool): (f: Finalized)
    ensures f.call == call
  {
    var now := Immediate(call, script, aborted);
    if now.Some? then now.value else Executed(call, script)
  }

  function ResultMessage(f: Finalized): Message {
    ToolResult(f.call.id, f.call.name, f.text, f.isError)
  }

  /** One `"any"` suffices; `true` must be unanimous and the batch non-empty. */
  predicate ShouldTerminate(fs: seq<Finalized>) {
    (exists i :: 0 <= i < |fs| && fs[i].terminate == Force)
    || (fs != [] && forall i :: 0 <= i < |fs| ==> fs[i].terminate == Agree)
  }

  // ----- State -----

  datatype Slot = Executing | Returned | Settled(result: Finalized)

  datatype Phase =
    | Start(k: nat)                   // about to announce call k
    | Prepare(k: nat)                 // call k announced, being prepared
    | Exec(k: nat)                    // sequential: call k executing
    | Check(k: nat)                   // about to look at the abort signal after call k
    | Running                         // parallel: awaiting all started calls
    | Report(k: nat, begun: bool)     // emitting call k's result message
    | Finished

  /** The first `forced` calls are answered without execution, one after the other; the others run
      sequentially or in parallel. */
  datatype Batch = Batch(
    calls: seq<ToolCall>, scripts: seq<Script>, forced: nat, parallel: bool,
    slots: seq<Slot>, phase: Phase, messages: seq<Message>)
  {
    predicate InOrder(k: nat) { !parallel || k < forced }

    function Settlements(): seq<Finalized>
      requires forall i :: 0 <= i < |slots| ==> slots[i].Settled?
    {
      seq(|slots|, i requires 0 <= i < |slots| => slots[i].result)
    }
  }

  datatype Action = Tick | Update(i: nat, partial: string) | Return(i: nat) | Settle(i: nat)

  function Begin(calls: seq<ToolCall>, scripts: seq<Script>, forced: nat, parallel: bool): Batch {
    Goto(Batch(calls, scripts, forced, parallel, [], Finished, []), 0)
  }

  function Goto(b: Batch, k: nat): Batch {
    b.(phase := if k < |b.calls| then Start(k) else if b.parallel then Running else Finished)
  }

  /** One step: the new state and the events it emits (at most one). */
  function Step(b: Batch, a: Action, aborted: bool): (Batch, seq<Event>)
    requires Inv(b)
  {
    match b.phase
    case Start(k) => if a.Tick? then (b.(phase := Prepare(k)), [ToolStart(b.calls[k].id)]) else (b, [])
    case Prepare(_) => if a.Tick? then PrepareStep(b, aborted) else (b, [])
    case Exec(_) => ExecStep(b, a)
    case Check(_) => if a.Tick? then (CheckStep(b, aborted), []) else (b, [])
    case Running => if a.Tick? then (AwaitStep(b), []) else ToolStep(b, a)
    case Report(_, _) => if a.Tick? then ReportStep(b) else (b, [])
    case Finished => (b, [])
  }

  /** The call fails, is blocked or answered at once, or starts executing. */
  function PrepareStep(b: Batch, aborted: bool): (Batch, seq<Event>)
    requires Inv(b) && b.phase.Prepare?
  {
    var k := b.phase.k;
    var now := Immediate(b.calls[k], b.scripts[k], aborted);
    if now.Some? then (AddSlot(b, Settled(now.value)), [ToolEnd(b.calls[k].id, now.value.isError)])
    else (AddSlot(b, Executing), [])
  }

  function AddSlot(b: Batch, slot: Slot): Batch
    requires b.phase.Prepare?
  {
    var k := b.phase.k;
    b.(slots := b.slots + [slot],
       phase := if !b.InOrder(k) then Check(k) else if slot.Settled? then Report(k, false) else Exec(k))
  }

  /** In order, the call at hand is reported as soon as it is finalized. */
  function ExecStep(b: Batch, a: Action): (Batch, seq<Event>)
    requires Inv(b) && b.phase.Exec?
  {
    var (c, es) := ToolStep(b, a);
    (if c.slots[b.phase.k].Settled? then c.(phase := Report(b.phase.k, false)) else c, es)
  }

  /** An aborted batch starts no further call, except those answered in advance. */
  function CheckStep(b: Batch, aborted: bool): Batch
    requires b.phase.Check?
  {
    if aborted && b.forced <= b.phase.k then b.(phase := if b.parallel then Running else Finished)
    else Goto(b, b.phase.k + 1)
  }

  function AwaitStep(b: Batch): Batch {
    if forall i :: 0 <= i < |b.slots| ==> b.slots[i].Settled?
    then b.(phase := if b.forced < |b.slots| then Report(b.forced, false) else Finished)
    else b
  }

  function ReportStep(b: Batch): (Batch, seq<Event>)
    requires Inv(b) && b.phase.Report?
  {
    var k, m := b.phase.k, ResultMessage(b.slots[b.phase.k].result);
    if b.phase.begun then (Reported(b, m), [MessageEnd(m)]) else (b.(phase := Report(k, true)), [MessageStart(m)])
  }

  function Reported(b: Batch, m: Message): Batch
    requires b.phase.Report?
  {
    var k := b.phase.k;
    b.(messages := b.messages + [m],
       phase := if b.InOrder(k) then Check(k) else if k + 1 < |b.slots| then Report(k + 1, false) else Finished)
  }

  /** A tool reports progress, returns, or is finalized. Progress after the return is dropped. */
  function ToolStep(b: Batch, a: Action): (Batch, seq<Event>)
    requires Inv(b)
  {
    if a.Tick? || a.i >= |b.slots| then (b, [])
    else
      match a
      case Update(i, p) => if b.slots[i].Executing? then (b, [ToolUpdate(b.calls[i].id, p)]) else (b, [])
      case Return(i) => if b.slots[i].Executing? then (b.(slots := b.slots[i := Returned]), []) else (b, [])
      case Settle(i) =>
        if b.slots[i].Returned? then
          var f := Executed(b.calls[i], b.scripts[i]);
          (b.(slots := b.slots[i := Settled(f)]), [ToolEnd(b.calls[i].id, f.isError)])
        else (b, [])
  }

  // ----- Invariant -----

  /** A settled slot holds its own call's outcome, as seen with or without the abort signal. */
  predicate SlotOk(call: ToolCall, script: Script, slot: Slot, clean: bool) {
    match slot
    case Settled(f) => f == Outcome(call, script, false) || (!clean && f == Outcome(call, script, true))
    case _ => script.prep.Ready?
  }

  predicate Shape(b: Batch) {
    && |b.scripts| == |b.calls| && DistinctIds(b.calls)
    && b.forced <= |b.calls| && |b.slots| <= |b.calls|
    && (forall i :: 0 <= i < |b.calls| ==> (b.scripts[i].prep.Answered? <==> i < b.forced))
    && |b.messages| <= |b.slots|
    && (forall i :: 0 <= i < |b.slots| ==> SlotOk(b.calls[i], b.scripts[i], b.slots[i], false))
    && (forall i :: 0 <= i < |b.messages| ==>
          b.slots[i].Settled? && b.messages[i] == ResultMessage(b.slots[i].result))
    && (forall i :: 0 <= i < |b.slots| && b.InOrder(i) && b.phase != Exec(i) ==> b.slots[i].Settled?)
  }

  predicate Inv(b: Batch) {
    && Shape(b)
    && match b.phase
       case Start(k) => k < |b.calls| && |b.slots| == k && |b.messages| == (if b.InOrder(k) then k else b.forced)
       case Prepare(k) => k < |b.calls| && |b.slots| == k && |b.messages| == (if b.InOrder(k) then k else b.forced)
       case Exec(k) =>
         b.InOrder(k) && |b.slots| == k + 1 && |b.messages| == k && !b.slots[k].Settled?
       case Check(k) => |b.slots| == k + 1 && |b.messages| == (if b.InOrder(k) then k + 1 else b.forced)
       case Running => b.parallel && b.forced <= |b.slots| && |b.messages| == b.forced
       case Report(k, _) =>
         && k < |b.slots| && |b.messages| == k
         && (b.InOrder(k) ==> |b.slots| == k + 1)
         && (forall i :: 0 <= i < |b.slots| ==> b.slots[i].Settled?)
       case Finished =>
         |b.messages| == |b.slots| && (forall i :: 0 <= i < |b.slots| ==> b.slots[i].Settled?)
  }

  /** The signal has not been aborted so far: every call gets its slot and its own outcome. */
  predicate Clean(b: Batch) {
    && |b.scripts| == |b.calls| && |b.slots| <= |b.calls|
    && (forall i :: 0 <= i < |b.slots| ==> SlotOk(b.calls[i], b.scripts[i], b.slots[i], true))
    && (b.phase.Running? || b.phase.Finished? || (b.phase.Report? && !b.InOrder(b.phase.k)) ==>
          |b.slots| == |b.calls|)
  }

  lemma BeginInv(calls: seq<ToolCall>, scripts: seq<Script>, forced: nat, parallel: bool)
    requires |scripts| == |calls| && DistinctIds(calls) && forced <= |calls|
    requires forall i :: 0 <= i < |calls| ==> (scripts[i].prep.Answered? <==> i < forced)
    ensures Inv(Begin(calls, scripts, forced, parallel))
    ensures Clean(Begin(calls, scripts, forced, parallel))
  {
  }

  lemma FinishedReportsAll(b: Batch)
    requires Inv(b)
    ensures |b.messages| <= |b.calls| && (b.phase.Finished? && Clean(b) ==> |b.messages| == |b.calls|)
  {
  }

  predicate SamePlan(b: Batch, c: Batch) {
    c.calls == b.calls && c.scripts == b.scripts && c.forced == b.forced && c.parallel == b.parallel
  }

  /** The successor is well formed, and undisturbed if nothing was aborted. */
  predicate Follows(b: Batch, c: Batch, aborted: bool) {
    Inv(c) && (Clean(b) && !aborted ==> Clean(c))
  }

  /** What one step keeps. */
  predicate StepKeeps(b: Batch, a: Action, aborted: bool)
    requires Inv(b)
  {
    var c := Step(b, a, aborted).0;
    Follows(b, c, aborted) && SamePlan(b, c) && b.messages <= c.messages
  }

  lemma StepInv(b: Batch, a: Action, aborted: bool)
    requires Inv(b)
    ensures StepKeeps(b, a, aborted)
  {
    StepPlan(b, a, aborted);
    StepFollows(b, a, aborted);
  }

  lemma StepPlan(b: Batch, a: Action, aborted: bool)
    requires Inv(b)
    ensures var c := Step(b, a, aborted).0; SamePlan(b, c) && b.messages <= c.messages
  {
    if b.phase.Exec? || b.phase.Running? {
      ToolStepFrame(b, a);
    }
  }

  /** A moving tool touches its own slot and emits its own events. */
  lemma ToolStepFrame(b: Batch, a: Action)
    requires Inv(b)
    ensures var (c, es) := ToolStep(b, a);
            && SamePlan(b, c) && c.messages == b.messages && c.phase == b.phase && |c.slots| == |b.slots|
            && (es == [] || (|es| == 1 && (es[0].ToolUpdate? || es[0].ToolEnd?)))
  {
  }

  lemma StepFollows(b: Batch, a: Action, aborted: bool)
    requires Inv(b)
    ensures Follows(b, Step(b, a, aborted).0, aborted)
  {
    match b.phase
    case Start(k) => StartFollows(b);
    case Prepare(_) => PrepareFollows(b, aborted);
    case Exec(_) => ToolFollows(b, a, aborted);
    case Check(_) => CheckFollows(b, aborted);
    case Running => AwaitFollows(b); ToolFollows(b, a, aborted);
    case Report(_, _) => ReportFollows(b);
    case Finished =>
  }

  lemma StartFollows(b: Batch)
    requires Inv(b) && b.phase.Start?
    ensures var c := b.(phase := Prepare(b.phase.k)); Inv(c) && (Clean(b) ==> Clean(c))
  {
  }

  lemma CheckFollows(b: Batch, aborted: bool)
    requires Inv(b) && b.phase.Check?
    ensures Follows(b, CheckStep(b, aborted), aborted)
  {
  }

  lemma AwaitFollows(b: Batch)
    requires Inv(b) && b.phase.Running?
    ensures Inv(AwaitStep(b)) && (Clean(b) ==> Clean(AwaitStep(b)))
  {
  }

  lemma PrepareFollows(b: Batch, aborted: bool)
    requires Inv(b) && b.phase.Prepare?
    ensures Follows(b, PrepareStep(b, aborted).0, aborted)
  {
    var now := Immediate(b.calls[b.phase.k], b.scripts[b.phase.k], aborted);
    AddSlotFollows(b, if now.Some? then Settled(now.value) else Executing, aborted);
  }

  lemma AddSlotFollows(b: Batch, slot: Slot, aborted: bool)
    requires Inv(b) && b.phase.Prepare?
    requires SlotOk(b.calls[b.phase.k], b.scripts[b.phase.k], slot, !aborted)
    ensures Follows(b, AddSlot(b, slot), aborted)
  {
    var slots := b.slots + [slot];
    assert forall i :: 0 <= i < |b.slots| ==> slots[i] == b.slots[i];
    assert slots[|b.slots|] == slot;
    AddSlotShape(b, slot, aborted);
  }

  lemma AddSlotShape(b: Batch, slot: Slot, aborted: bool)
    requires Inv(b) && b.phase.Prepare?
    requires SlotOk(b.calls[b.phase.k], b.scripts[b.phase.k], slot, !aborted)
    ensures Shape(AddSlot(b, slot))
  {
    var slots := b.slots + [slot];
    assert forall i :: 0 <= i < |b.slots| ==> slots[i] == b.slots[i];
    assert slots[|b.slots|] == slot;
  }

  lemma ToolFollows(b: Batch, a: Action, aborted: bool)
    requires Inv(b) && (b.phase.Exec? || b.phase.Running?)
    ensures Follows(b, if b.phase.Exec? then ExecStep(b, a).0 else ToolStep(b, a).0, aborted)
  {
    var c := ToolStep(b, a).0;
    if !a.Tick? && a.i < |b.slots| && !b.slots[a.i].Settled? && c.slots != b.slots {
      assert SlotOk(b.calls[a.i], b.scripts[a.i], b.slots[a.i], false);
      SetSlotFollows(b, a.i, c.slots[a.i]);
    }
  }

  /** A tool under way moves on; in sequential execution it is the last one started. */
  lemma SetSlotFollows(b: Batch, i: nat, slot: Slot)
    requires Inv(b) && (b.phase.Exec? || b.phase.Running?) && i < |b.slots| && !b.slots[i].Settled?
    requires SlotOk(b.calls[i], b.scripts[i], slot, true)
    ensures var c := b.(slots := b.slots[i := slot]);
            var d := if b.phase.Exec? && c.slots[b.phase.k].Settled? then c.(phase := Report(b.phase.k, false)) else c;
            Inv(d) && (Clean(b) ==> Clean(d))
  {
    if b.phase.Exec? {
      assert i == b.phase.k;
    }
    assert forall j :: 0 <= j < |b.slots| && j != i ==> b.slots[i := slot][j] == b.slots[j];
  }

  lemma ReportFollows(b: Batch)
    requires Inv(b) && b.phase.Report?
    ensures Inv(ReportStep(b).0) && (Clean(b) ==> Clean(ReportStep(b).0))
  {
    ReportedFollows(b, ResultMessage(b.slots[b.phase.k].result));
  }

  lemma ReportedFollows(b: Batch, m: Message)
    requires Inv(b) && b.phase.Report? && m == ResultMessage(b.slots[b.phase.k].result)
    ensures Inv(Reported(b, m)) && (Clean(b) ==> Clean(Reported(b, m)))
  {
    var messages := b.messages + [m];
    assert messages[|b.messages|] == m;
    assert forall i :: 0 <= i < |b.messages| ==> messages[i] == b.messages[i];
  }

  // ----- Agreement with the event grammar -----

  function LiveIds(calls: seq<ToolCall>, slots: seq<Slot>): set<string>
    requires |slots| <= |calls|
  {
    set i | 0 <= i < |slots| && !slots[i].Settled? :: calls[i].id
  }

  function OverIds(calls: seq<ToolCall>, slots: seq<Slot>): set<string>
    requires |slots| <= |calls|
  {
    set i | 0 <= i < |slots| && slots[i].Settled? :: calls[i].id
  }

  lemma UnusedId(calls: seq<ToolCall>, slots: seq<Slot>, k: nat)
    requires DistinctIds(calls) && |slots| <= k < |calls|
    ensures calls[k].id !in LiveIds(calls, slots) + OverIds(calls, slots)
  {
  }

  lemma PushSlot(calls: seq<ToolCall>, slots: seq<Slot>, slot: Slot)
    requires |slots| < |calls|
    ensures var id := {calls[|slots|].id};
            && LiveIds(calls, slots + [slot]) == LiveIds(calls, slots) + (if slot.Settled? then {} else id)
            && OverIds(calls, slots + [slot]) == OverIds(calls, slots) + (if slot.Settled? then id else {})
  {
    var more := slots + [slot];
    assert forall i :: 0 <= i < |slots| ==> more[i] == slots[i];
    assert more[|slots|] == slot;
  }

  lemma ChangeSlot(calls: seq<ToolCall>, slots: seq<Slot>, i: nat, slot: Slot)
    requires DistinctIds(calls) && i < |slots| <= |calls| && !slots[i].Settled?
    ensures calls[i].id in LiveIds(calls, slots)
    ensures var after := slots[i := slot];
            if slot.Settled?
            then LiveIds(calls, after) == LiveIds(calls, slots) - {calls[i].id}
                 && OverIds(calls, after) == OverIds(calls, slots) + {calls[i].id}
            else LiveIds(calls, after) == LiveIds(calls, slots) && OverIds(calls, after) == OverIds(calls, slots)
  {
    var after := slots[i := slot];
    assert after[i] == slot;
    assert forall j :: 0 <= j < |slots| && j != i ==> after[j] == slots[j] && calls[j].id != calls[i].id;
  }

  /** The monitor's view of the batch: calls announced and not ended, calls ended, open message. */
  predicate Seen(b: Batch, m: Monitor)
    requires |b.slots| <= |b.calls| && (b.phase.Prepare? ==> b.phase.k < |b.calls|)
  {
    && m.Watching? && m.stage.InTurn?
    && m.running == LiveIds(b.calls, b.slots) + (if b.phase.Prepare? then {b.calls[b.phase.k].id} else {})
    && m.finished == OverIds(b.calls, b.slots)
    && m.open == (b.phase.Report? && b.phase.begun)
  }

  function ObserveAll(m: Monitor, es: seq<Event>): Monitor {
    if es == [] then m else Observe(ObserveAll(m, es[..|es| - 1]), es[|es| - 1])
  }

  lemma ObserveOne(m: Monitor, e: Event)
    ensures ObserveAll(m, [e]) == Observe(m, e)
  {
  }

  /** Every event of a batch is accepted, whatever the schedule, and keeps the monitor in step. */
  lemma StepSeen(b: Batch, a: Action, aborted: bool, m: Monitor)
    requires Inv(b) && Seen(b, m)
    ensures Inv(Step(b, a, aborted).0)
    ensures Seen(Step(b, a, aborted).0, ObserveAll(m, Step(b, a, aborted).1))
  {
    StepInv(b, a, aborted);
    match b.phase
    case Start(k) =>
      UnusedId(b.calls, b.slots, k);
      ObserveOne(m, ToolStart(b.calls[k].id));
    case Prepare(k) =>
      PrepareSeen(b, a, aborted, m);
    case Exec(k) => ToolStepSeen(b, a, m);
    case Running => if !a.Tick? { ToolStepSeen(b, a, m); }
    case Report(k, begun) =>
      ReportSeen(b, a, aborted, m);
    case Check(_) =>
    case Finished =>
  }

  lemma PrepareSeen(b: Batch, a: Action, aborted: bool, m: Monitor)
    requires Inv(b) && b.phase.Prepare? && Seen(b, m) && Inv(Step(b, a, aborted).0)
    ensures Seen(Step(b, a, aborted).0, ObserveAll(m, Step(b, a, aborted).1))
  {
    var k := b.phase.k;
    if a.Tick? {
      var now := Immediate(b.calls[k], b.scripts[k], aborted);
      UnusedId(b.calls, b.slots, k);
      PushSlot(b.calls, b.slots, if now.Some? then Settled(now.value) else Executing);
      if now.Some? {
        ObserveOne(m, ToolEnd(b.calls[k].id, now.value.isError));
      }
    }
  }

  lemma ReportSeen(b: Batch, a: Action, aborted: bool, m: Monitor)
    requires Inv(b) && b.phase.Report? && Seen(b, m) && Inv(Step(b, a, aborted).0)
    ensures Seen(Step(b, a, aborted).0, ObserveAll(m, Step(b, a, aborted).1))
  {
    var r := ResultMessage(b.slots[b.phase.k].result);
    assert LiveIds(b.calls, b.slots) == {};
    ObserveOne(m, if b.phase.begun then MessageEnd(r) else MessageStart(r));
  }

  lemma ToolStepSeen(b: Batch, a: Action, m: Monitor)
    requires Inv(b) && Seen(b, m) && (b.phase.Exec? || b.phase.Running?)
    ensures var (c, es) := ToolStep(b, a);
            |c.slots| <= |c.calls| && c.phase == b.phase && Seen(c, ObserveAll(m, es))
  {
    if !a.Tick? && a.i < |b.slots| && !b.slots[a.i].Settled? {
      var c := ToolStep(b, a).0;
      ChangeSlot(b.calls, b.slots, a.i, c.slots[a.i]);
      if a.Update? {
        ObserveOne(m, ToolUpdate(b.calls[a.i].id, a.partial));
      } else if a.Settle? {
        ObserveOne(m, ToolEnd(b.calls[a.i].id, b.scripts[a.i].isError));
      }
    }
  }

  // ----- Runs of a batch -----

  datatype Scheduled = Scheduled(action: Action, aborted: bool)

  ghost function Run(b: Batch, schedule: seq<Scheduled>): (r: (Batch, seq<Event>))
    requires Inv(b)
    ensures Inv(r.0)
  {
    if schedule == [] then (b, [])
    else
      var last := schedule[|schedule| - 1];
      var (mid, trace) := Run(b, schedule[..|schedule| - 1]);
      StepInv(mid, last.action, last.aborted);
      var (c, es) := Step(mid, last.action, last.aborted);
      (c, trace + es)
  }

  ghost predicate Undisturbed(schedule: seq<Scheduled>) {
    forall i :: 0 <= i < |schedule| ==> !schedule[i].aborted
  }

  /** The result messages an undisturbed batch must produce, in the assistant's source order. */
  function Expected(calls: seq<ToolCall>, scripts: seq<Script>): seq<Message>
    requires |scripts| == |calls|
  {
    seq(|calls|, i requires 0 <= i < |calls| => ResultMessage(Outcome(calls[i], scripts[i], false)))
  }

  function Outcomes(calls: seq<ToolCall>, scripts: seq<Script>): seq<Finalized>
    requires |scripts| == |calls|
  {
    seq(|calls|, i requires 0 <= i < |calls| => Outcome(calls[i], scripts[i], false))
  }

  function Terminates(b: Batch): bool
    requires Inv(b) && b.phase.Finished?
  {
    b.forced == 0 && ShouldTerminate(b.Settlements())
  }

  function MessageEvents(trace: seq<Event>): seq<Event> {
    if trace == [] then []
    else
      var front, last := MessageEvents(trace[..|trace| - 1]), trace[|trace| - 1];
      if last.MessageStart? || last.MessageEnd? then front + [last] else front
  }

  function Pairs(messages: seq<Message>): seq<Event> {
    if messages == [] then []
    else Pairs(messages[..|messages| - 1]) +
         [MessageStart(messages[|messages| - 1]), MessageEnd(messages[|messages| - 1])]
  }

  function Announcement(b: Batch): seq<Event>
    requires Inv(b)
  {
    if b.phase.Report? && b.phase.begun then [MessageStart(ResultMessage(b.slots[b.phase.k].result))] else []
  }

  lemma MessageEventsAppend(trace: seq<Event>, e: Event)
    ensures MessageEvents(trace + [e]) ==
            MessageEvents(trace) + (if e.MessageStart? || e.MessageEnd? then [e] else [])
  {
    assert (trace + [e])[..|trace|] == trace;
  }

  /** Outside the reporting phases a step emits no message event and reports no result. */
  lemma QuietStep(b: Batch, a: Action, aborted: bool)
    requires Inv(b) && !b.phase.Report?
    ensures var (c, es) := Step(b, a, aborted);
            && c.messages == b.messages && !(c.phase.Report? && c.phase.begun)
            && (es == [] || (|es| == 1 && !es[0].MessageStart? && !es[0].MessageEnd?))
  {
    if b.phase.Exec? || b.phase.Running? {
      ToolStepFrame(b, a);
    }
  }

  /** The message events a step emits are exactly the growth of its reported messages. */
  lemma StepMessages(b: Batch, a: Action, aborted: bool, trace: seq<Event>)
    requires Inv(b) && StepKeeps(b, a, aborted)
    requires MessageEvents(trace) == Pairs(b.messages) + Announcement(b)
    ensures var (c, es) := Step(b, a, aborted);
            MessageEvents(trace + es) == Pairs(c.messages) + Announcement(c)
  {
    var es := Step(b, a, aborted).1;
    if b.phase.Report? {
      ReportMessages(b, a, aborted, trace);
    } else {
      QuietStep(b, a, aborted);
      if es == [] {
        assert trace + es == trace;
      } else {
        assert es == [es[0]];
        MessageEventsAppend(trace, es[0]);
      }
    }
  }

  lemma ReportMessages(b: Batch, a: Action, aborted: bool, trace: seq<Event>)
    requires Inv(b) && b.phase.Report? && Inv(Step(b, a, aborted).0)
    requires MessageEvents(trace) == Pairs(b.messages) + Announcement(b)
    ensures var (c, es) := Step(b, a, aborted);
            MessageEvents(trace + es) == Pairs(c.messages) + Announcement(c)
  {
    var m := ResultMessage(b.slots[b.phase.k].result);
    if !a.Tick? {
      assert trace + [] == trace;
    } else {
      ReportTick(b, aborted, m);
      if b.phase.begun {
        MessageEventsAppend(trace, MessageEnd(m));
        PairsAppend(b.messages, m);
      } else {
        MessageEventsAppend(trace, MessageStart(m));
        assert Pairs(b.messages) + [] == Pairs(b.messages);
      }
    }
  }

  lemma ReportTick(b: Batch, aborted: bool, m: Message)
    requires Inv(b) && b.phase.Report? && m == ResultMessage(b.slots[b.phase.k].result) && Inv(Step(b, Tick, aborted).0)
    ensures var (c, es) := Step(b, Tick, aborted);
            if b.phase.begun then c.messages == b.messages + [m] && es == [MessageEnd(m)] && Announcement(c) == []
            else c.messages == b.messages && es == [MessageStart(m)] && Announcement(c) == [MessageStart(m)]
  {
  }

  lemma PairsAppend(messages: seq<Message>, m: Message)
    ensures Pairs(messages) + [MessageStart(m)] + [MessageEnd(m)] == Pairs(messages + [m]) + []
  {
    assert (messages + [m])[..|messages|] == messages;
  }

  /** A step emits at most one event, and reports a result exactly when that event ends its message. */
  lemma StepReports(b: Batch, a: Action, aborted: bool)
    requires Inv(b)
    ensures var (c, es) := Step(b, a, aborted);
            || (c.messages == b.messages && (es == [] || (|es| == 1 && !es[0].MessageEnd?)))
            || (|c.messages| == |b.messages| + 1 && c.messages[..|b.messages|] == b.messages
                && es == [MessageEnd(c.messages[|b.messages|])])
  {
    if !b.phase.Report? {
      QuietStep(b, a, aborted);
    }
  }

  lemma StepEmitsOne(b: Batch, a: Action, aborted: bool)
    requires Inv(b)
    ensures |Step(b, a, aborted).1| <= 1
    ensures var es := Step(b, a, aborted).1; es != [] ==> !es[0].AgentEnd? && !es[0].TurnStart? && !es[0].TurnEnd?
  {
    if b.phase.Exec? || b.phase.Running? {
      ToolStepFrame(b, a);
    }
  }

  ghost predicate RunKeeps(b: Batch, schedule: seq<Scheduled>)
    requires Inv(b)
  {
    var (c, trace) := Run(b, schedule);
    && SamePlan(b, c)
    && MessageEvents(trace) == Pairs(c.messages) + Announcement(c)
    && (Clean(b) && Undisturbed(schedule) ==> Clean(c))
  }

  lemma {:induction false} RunFacts(b: Batch, schedule: seq<Scheduled>)
    requires Inv(b) && b.messages == [] && Announcement(b) == []
    ensures RunKeeps(b, schedule)
  {
    if schedule != [] {
      var front, last := schedule[..|schedule| - 1], schedule[|schedule| - 1];
      RunFacts(b, front);
      var mid, trace := Run(b, front).0, Run(b, front).1;
      RunStep(b, mid, trace, last.action, last.aborted);
    }
  }

  /** One more scheduled action. */
  lemma RunStep(b: Batch, mid: Batch, trace: seq<Event>, a: Action, aborted: bool)
    requires Inv(mid) && SamePlan(b, mid) && MessageEvents(trace) == Pairs(mid.messages) + Announcement(mid)
    ensures var (c, es) := Step(mid, a, aborted);
            && Inv(c) && SamePlan(b, c) && MessageEvents(trace + es) == Pairs(c.messages) + Announcement(c)
            && (Clean(mid) && !aborted ==> Clean(c))
  {
    StepInv(mid, a, aborted);
    StepMessages(mid, a, aborted, trace);
  }

  /** Schedule independence: whatever order concurrent tools move in, an undisturbed parallel batch
      yields the sequential batch's result messages, message events and terminate flag. */
  lemma ParallelMatchesSequential(calls: seq<ToolCall>, scripts: seq<Script>, forced: nat,
                                  parallelSchedule: seq<Scheduled>, sequentialSchedule: seq<Scheduled>)
    requires |scripts| == |calls| && DistinctIds(calls) && forced <= |calls|
    requires forall i :: 0 <= i < |calls| ==> (scripts[i].prep.Answered? <==> i < forced)
    requires Undisturbed(parallelSchedule) && Undisturbed(sequentialSchedule)
    requires Run(Begin(calls, scripts, forced, true), parallelSchedule).0.phase.Finished?
    requires Run(Begin(calls, scripts, forced, false), sequentialSchedule).0.phase.Finished?
    ensures var (p, ptrace) := Run(Begin(calls, scripts, forced, true), parallelSchedule);
            var (s, strace) := Run(Begin(calls, scripts, forced, false), sequentialSchedule);
            && p.messages == s.messages == Expected(calls, scripts)
            && MessageEvents(ptrace) == MessageEvents(strace) == Pairs(Expected(calls, scripts))
            && Terminates(p) == Terminates(s) == (forced == 0 && ShouldTerminate(Outcomes(calls, scripts)))
  {
    UndisturbedOutcome(calls, scripts, forced, true, parallelSchedule);
    UndisturbedOutcome(calls, scripts, forced, false, sequentialSchedule);
  }

  lemma UndisturbedOutcome(calls: seq<ToolCall>, scripts: seq<Script>, forced: nat, parallel: bool, schedule: seq<Scheduled>)
    requires |scripts| == |calls| && DistinctIds(calls) && forced <= |calls|
    requires forall i :: 0 <= i < |calls| ==> (scripts[i].prep.Answered? <==> i < forced)
    requires Undisturbed(schedule)
    requires Run(Begin(calls, scripts, forced, parallel), schedule).0.phase.Finished?
    ensures var (c, trace) := Run(Begin(calls, scripts, forced, parallel), schedule);
            && c.messages == Expected(calls, scripts)
            && MessageEvents(trace) == Pairs(Expected(calls, scripts))
            && Terminates(c) == (forced == 0 && ShouldTerminate(Outcomes(calls, scripts)))
  {
    BeginInv(calls, scripts, forced, parallel);
    RunFacts(Begin(calls, scripts, forced, parallel), schedule);
    var (c, trace) := Run(Begin(calls, scripts, forced, parallel), schedule);
    assert c.Settlements() == Outcomes(calls, scripts);
    assert c.messages == Expected(calls, scripts);
  }

  /** Whatever the signal does, a finished batch has answered a prefix of its calls, in source
      order, each exactly once, the calls answered in advance with their prescribed answer. */
  predicate AnsweredInOrder(b: Batch, messages: seq<Message>)
    requires |b.scripts| == |b.calls|
    requires forall i :: 0 <= i < |b.calls| && i < b.forced ==> b.scripts[i].prep.Answered?
  {
    && |messages| <= |b.calls|
    && (forall i :: 0 <= i < |messages| ==> messages[i].ToolResult? && messages[i].callId == b.calls[i].id)
    && (forall i :: 0 <= i < |messages| && i < b.forced ==>
          messages[i] == ResultMessage(ErrorResult(b.calls[i], b.scripts[i].prep.answer)))
  }

  lemma AnswersPrefix(b: Batch, schedule: seq<Scheduled>)
    requires Inv(b) && b.messages == [] && Announcement(b) == []
    requires Run(b, schedule).0.phase.Finished?
    ensures AnsweredInOrder(b, Run(b, schedule).0.messages)
    ensures Clean(b) && Undisturbed(schedule) ==> |Run(b, schedule).0.messages| == |b.calls|
  {
    RunFacts(b, schedule);
    ReportsInOrder(Run(b, schedule).0);
  }

  lemma ReportsInOrder(c: Batch)
    requires Inv(c)
    ensures AnsweredInOrder(c, c.messages)
  {
    forall i | 0 <= i < |c.messages|
      ensures c.messages[i].ToolResult? && c.messages[i].callId == c.calls[i].id
      ensures i < c.forced ==> c.messages[i] == ResultMessage(ErrorResult(c.calls[i], c.scripts[i].prep.answer))
    {
      assert SlotOk(c.calls[i], c.scripts[i], c.slots[i], false);
    }
  }

  // ----- When a batch ends the run -----

  /** What a call has to say about ending the run, read off its script: a call that was answered or
      failed says nothing, a blocked one agrees if its hook asked to, an executed one as its result says. */
  function Vote(script: Script): Terminate {
    match script.prep
    case Answered(_) => Unset
    case Failing(_) => Unset
    case Blocked(_, terminate) => if terminate then Agree else Unset
    case Ready => script.terminate
  }

  /** Nothing was answered in advance, and some call insists or all of at least one call agree. */
  predicate EndsRun(forced: nat, scripts: seq<Script>) {
    && forced == 0
    && (|| (exists i :: 0 <= i < |scripts| && Vote(scripts[i]) == Force)
        || (scripts != [] && forall i :: 0 <= i < |scripts| ==> Vote(scripts[i]) == Agree))
  }

  /** A finished batch that was not disturbed ends the run exactly if its scripts say so. */
  lemma TerminatesIff(b: Batch)
    requires Inv(b) && Clean(b) && b.phase.Finished?
    ensures Terminates(b) <==> EndsRun(b.forced, b.scripts)
  {
    var fs := b.Settlements();
    assert forall i :: 0 <= i < |fs| ==> fs[i].terminate == Vote(b.scripts[i]) by {
      forall i | 0 <= i < |fs| ensures fs[i].terminate == Vote(b.scripts[i]) {
        assert SlotOk(b.calls[i], b.scripts[i], b.slots[i], true);
      }
    }
    VotesDecide(fs, b.scripts);
  }

  lemma VotesDecide(fs: seq<Finalized>, scripts: seq<Script>)
    requires |fs| == |scripts| && forall i :: 0 <= i < |fs| ==> fs[i].terminate == Vote(scripts[i])
    ensures ShouldTerminate(fs) <==> EndsRun(0, scripts)
  {
    if i :| 0 <= i < |scripts| && Vote(scripts[i]) == Force {
      assert fs[i].terminate == Force;
    }
  }

  // ----- Every batch can finish -----

  /** How far the tools under way are from being finalized. */
  function Weight(slots: seq<Slot>): nat {
    if slots == [] then 0
    else Weight(slots[..|slots| - 1]) + match slots[|slots| - 1] case Executing => 2 case Returned => 1 case Settled(_) => 0
  }

  lemma {:induction false} WeightDrops(slots: seq<Slot>, i: nat, slot: Slot)
    requires i < |slots| && (if slots[i].Executing? then slot.Returned? else slots[i].Returned? && slot.Settled?)
    ensures Weight(slots[i := slot]) < Weight(slots)
  {
    var n := |slots| - 1;
    if i == n {
      assert slots[i := slot][..n] == slots[..n];
    } else {
      assert slots[i := slot][..n] == slots[..n][i := slot];
      WeightDrops(slots[..n], i, slot);
    }
  }

  function Rank(phase: Phase): nat {
    match phase
    case Check(_) => 6
    case Start(_) => 5
    case Prepare(_) => 4
    case Exec(_) => 3
    case Running => 3
    case Report(_, begun) => if begun then 1 else 2
    case Finished => 0
  }

  /** Closer to the end: more calls started, or tools further on, or more reported, or a later phase. */
  predicate Closer(c: Batch, b: Batch) {
    && |c.calls| == |b.calls| && |b.slots| <= |c.slots| <= |c.calls| && |c.messages| <= |c.slots| && |b.messages| <= |b.slots|
    && (|| |c.slots| > |b.slots|
        || Weight(c.slots) < Weight(b.slots)
        || (Weight(c.slots) == Weight(b.slots) && |c.messages| > |b.messages|)
        || (Weight(c.slots) == Weight(b.slots) && |c.messages| == |b.messages| && Rank(c.phase) < Rank(b.phase)))
  }

  /** An unsettled slot can always move on. */
  lemma ToolProgress(b: Batch, i: nat) returns (a: Action)
    requires Inv(b) && (b.phase.Exec? || b.phase.Running?) && i < |b.slots| && !b.slots[i].Settled?
    ensures !a.Tick? && ToolStep(b, a).0.slots == b.slots[i := ToolStep(b, a).0.slots[i]]
    ensures Weight(ToolStep(b, a).0.slots) < Weight(b.slots)
  {
    a := if b.slots[i].Executing? then Return(i) else Settle(i);
    WeightDrops(b.slots, i, ToolStep(b, a).0.slots[i]);
  }

  lemma Progress(b: Batch) returns (a: Action)
    requires Inv(b) && !b.phase.Finished?
    ensures Closer(Step(b, a, false).0, b)
  {
    StepPhaseShape(b);
    if b.phase.Exec? {
      a := ToolProgress(b, b.phase.k);
      ToolStepFrame(b, a);
    } else if b.phase.Running? && exists i :: 0 <= i < |b.slots| && !b.slots[i].Settled? {
      var i :| 0 <= i < |b.slots| && !b.slots[i].Settled?;
      a := ToolProgress(b, i);
      ToolStepFrame(b, a);
    } else {
      a := Tick;
      TickProgress(b);
    }
  }

  lemma StepPhaseShape(b: Batch)
    requires Inv(b)
    ensures |b.messages| <= |b.slots| <= |b.calls|
  {
  }

  lemma TickProgress(b: Batch)
    requires Inv(b) && !b.phase.Finished? && !b.phase.Exec?
    requires b.phase.Running? ==> forall i :: 0 <= i < |b.slots| ==> b.slots[i].Settled?
    ensures Closer(Step(b, Tick, false).0, b)
  {
    if b.phase.Report? { ReportProgress(b); } else if b.phase.Prepare? { PrepareProgress(b); } else { MoveProgress(b); }
  }

  lemma ReportProgress(b: Batch)
    requires Inv(b) && b.phase.Report?
    ensures Closer(Step(b, Tick, false).0, b)
  {
  }

  lemma PrepareProgress(b: Batch)
    requires Inv(b) && b.phase.Prepare?
    ensures Closer(Step(b, Tick, false).0, b)
  {
  }

  lemma MoveProgress(b: Batch)
    requires Inv(b) && (b.phase.Start? || b.phase.Check? || b.phase.Running?)
    requires b.phase.Running? ==> forall i :: 0 <= i < |b.slots| ==> b.slots[i].Settled?
    ensures Closer(Step(b, Tick, false).0, b)
  {
  }

  lemma {:induction false} RunFrom(b: Batch, first: Scheduled, rest: seq<Scheduled>)
    requires Inv(b)
    ensures Inv(Step(b, first.action, first.aborted).0)
    ensures Run(b, [first] + rest).0 == Run(Step(b, first.action, first.aborted).0, rest).0
    decreases |rest|
  {
    StepFollows(b, first.action, first.aborted);
    var all := [first] + rest;
    RunLast(b, all);
    if rest == [] {
      assert all[..0] == [];
    } else {
      RunFrom(b, first, rest[..|rest| - 1]);
      RunLast(Step(b, first.action, first.aborted).0, rest);
      assert all[..|all| - 1] == [first] + rest[..|rest| - 1];
    }
  }

  lemma RunLast(b: Batch, schedule: seq<Scheduled>)
    requires Inv(b) && schedule != []
    ensures var last := schedule[|schedule| - 1];
            Run(b, schedule).0 == Step(Run(b, schedule[..|schedule| - 1]).0, last.action, last.aborted).0
  {
  }

  /** From every state of a batch some undisturbed schedule finishes it. */
  lemma {:induction false} CanFinish(b: Batch) returns (schedule: seq<Scheduled>)
    requires Inv(b)
    ensures Undisturbed(schedule) && Run(b, schedule).0.phase.Finished?
    decreases |b.calls| - |b.slots|, Weight(b.slots), |b.slots| - |b.messages|, Rank(b.phase)
  {
    if b.phase.Finished? {
      return [];
    }
    var a := Progress(b);
    var c := NextState(b, a);
    var rest := CanFinish(c);
    schedule := Prepend(b, a, c, rest);
  }

  lemma Prepend(b: Batch, a: Action, c: Batch, rest: seq<Scheduled>) returns (schedule: seq<Scheduled>)
    requires Inv(b) && c == Step(b, a, false).0 && Inv(c) && Undisturbed(rest)
    ensures Undisturbed(schedule) && Run(b, schedule).0 == Run(c, rest).0
  {
    schedule := [Scheduled(a, false)] + rest;
    RunFrom(b, Scheduled(a, false), rest);
  }

  lemma NextState(b: Batch, a: Action) returns (c: Batch)
    requires Inv(b)
    ensures c == Step(b, a, false).0 && Inv(c)
  {
    c := Step(b, a, false).0;
    StepFollows(b, a, false);
  }

  /** `executeToolCallsSequential` as its loop, with the abort signal sampled at call k's preparation
      (`signal(2k)`) and after its result (`signal(2k + 1)`). */
  method ExecuteSequential(calls: seq<ToolCall>, scripts: seq<Script>, signal: nat -> bool)
    returns (messages: seq<Message>, terminate: bool)
    requires |scripts| == |calls|
    ensures |messages| <= |calls|
    ensures forall i :: 0 <= i < |messages| ==> messages[i] == ResultMessage(Outcome(calls[i], scripts[i], signal(2 * i)))
    ensures forall i :: 0 <= i < |messages| - 1 ==> !signal(2 * i + 1)
    ensures |messages| < |calls| ==> messages != [] && signal(2 * |messages| - 1)
    ensures (forall t :: !signal(t)) ==>
              messages == Expected(calls, scripts) && terminate == ShouldTerminate(Outcomes(calls, scripts))
  {
    messages := [];
    var finalized: seq<Finalized> := [];
    var k := 0;
    while k < |calls|
      invariant 0 <= k <= |calls| && |messages| == |finalized| == k
      invariant forall i :: 0 <= i < k ==> finalized[i] == Outcome(calls[i], scripts[i], signal(2 * i))
      invariant forall i :: 0 <= i < k ==> messages[i] == ResultMessage(finalized[i])
      invariant forall i :: 0 <= i < k ==> !signal(2 * i + 1)
    {
      var now := Immediate(calls[k], scripts[k], signal(2 * k));
      var f := if now.Some? then now.value else Executed(calls[k], scripts[k]);
      finalized := finalized + [f];
      messages := messages + [ResultMessage(f)];
      if signal(2 * k + 1) { break; }
      k := k + 1;
    }
    terminate := ShouldTerminate(finalized);
    if forall t :: !signal(t) {
      AllExecuted(calls, scripts, finalized, messages);
    }
  }

  lemma AllExecuted(calls: seq<ToolCall>, scripts: seq<Script>, finalized: seq<Finalized>, messages: seq<Message>)
    requires |scripts| == |calls| == |finalized| == |messages|
    requires forall i :: 0 <= i < |calls| ==> finalized[i] == Outcome(calls[i], scripts[i], false)
    requires forall i :: 0 <= i < |calls| ==> messages[i] == ResultMessage(finalized[i])
    ensures finalized == Outcomes(calls, scripts) && messages == Expected(calls, scripts)
  {
  }
}
