/** What a tool batch does with its calls, read off the scripts and the trace: what each result says,
    which calls execute, what an abort stops, and what the closing events report. */
module BatchConduct {
  import opened Options
  import opened Transcript
  import opened EventGrammar
  import opened ToolBatch

  // ----- Results -----

  /** The text and error flag a call earns when nothing is aborted. */
  function Said(script: Script): (string, bool) {
    match script.prep
    case Answered(text) => (text, true)
    case Failing(text) => (text, true)
    case Blocked(reason, _) => (reason, true)
    case Ready => (script.text, script.isError)
  }

  predicate Tells(m: Message, call: ToolCall, said: (string, bool)) {
    m == ToolResult(call.id, call.name, said.0, said.1)
  }

  /** A call may be cut short only before it executes, and not if its answer or failure is known. */
  predicate CanBeCut(script: Script) {
    script.prep.Blocked? || script.prep.Ready?
  }

  /** Every reported result is its call's own, or says that the call was cut short by an abort. */
  lemma ResultsSay(b: Batch, i: nat)
    requires Inv(b) && i < |b.messages|
    ensures || Tells(b.messages[i], b.calls[i], Said(b.scripts[i]))
            || (CanBeCut(b.scripts[i]) && Tells(b.messages[i], b.calls[i], ("Operation aborted", true)))
    ensures Clean(b) ==> Tells(b.messages[i], b.calls[i], Said(b.scripts[i]))
  {
    assert SlotOk(b.calls[i], b.scripts[i], b.slots[i], false);
    if Clean(b) {
      assert SlotOk(b.calls[i], b.scripts[i], b.slots[i], true);
    }
  }

  /** In any run, aborted or not; without an abort every call is answered, with its own result. */
  lemma RunSays(calls: seq<ToolCall>, scripts: seq<Script>, forced: nat, parallel: bool, schedule: seq<Scheduled>)
    requires |scripts| == |calls| && DistinctIds(calls) && forced <= |calls|
    requires forall i :: 0 <= i < |calls| ==> (scripts[i].prep.Answered? <==> i < forced)
    ensures var c := Run(Begin(calls, scripts, forced, parallel), schedule).0;
            && |c.messages| <= |calls|
            && (forall i :: 0 <= i < |c.messages| ==>
                  || Tells(c.messages[i], calls[i], Said(scripts[i]))
                  || (CanBeCut(scripts[i]) && Tells(c.messages[i], calls[i], ("Operation aborted", true))))
            && (Undisturbed(schedule) ==> forall i :: 0 <= i < |c.messages| ==> Tells(c.messages[i], calls[i], Said(scripts[i])))
            && (Undisturbed(schedule) && c.phase.Finished? ==> |c.messages| == |calls|)
  {
    BeginInv(calls, scripts, forced, parallel);
    var b := Begin(calls, scripts, forced, parallel);
    RunFacts(b, schedule);
    var c := Run(b, schedule).0;
    FinishedReportsAll(c);
    forall i | 0 <= i < |c.messages|
      ensures || Tells(c.messages[i], calls[i], Said(scripts[i]))
              || (CanBeCut(scripts[i]) && Tells(c.messages[i], calls[i], ("Operation aborted", true)))
      ensures Undisturbed(schedule) ==> Tells(c.messages[i], calls[i], Said(scripts[i]))
    {
      ResultsSay(c, i);
    }
  }

  // ----- Execution -----

  predicate Underway(b: Batch, i: nat) {
    i < |b.slots| && !b.slots[i].Settled?
  }

  /** A step that lets a call execute: the call was announced, nothing stood against it, and the
      signal was not aborted. */
  lemma StartsOnlyReady(b: Batch, a: Action, aborted: bool, i: nat)
    requires Inv(b) && Underway(Step(b, a, aborted).0, i) && !Underway(b, i)
    ensures !aborted && a.Tick? && b.phase == Prepare(i) && i < |b.scripts| && b.scripts[i].prep.Ready?
  {
    if b.phase.Exec? || b.phase.Running? {
      ToolStepFrame(b, a);
    }
  }

  /** And conversely. */
  lemma ReadyStarts(b: Batch, i: nat)
    requires Inv(b) && b.phase == Prepare(i)
    ensures Underway(Step(b, Tick, false).0, i) <==> b.scripts[i].prep.Ready?
  {
  }

  /** A call that was let execute keeps its own result, aborted or not, and its end is announced. */
  lemma ExecutionKeepsResult(b: Batch, a: Action, aborted: bool, i: nat)
    requires Inv(b) && Underway(b, i) && !Underway(Step(b, a, aborted).0, i)
    ensures var (c, es) := Step(b, a, aborted);
            && i < |c.slots| && c.slots[i].Settled?
            && Tells(ResultMessage(c.slots[i].result), b.calls[i], (b.scripts[i].text, b.scripts[i].isError))
            && es == [ToolEnd(b.calls[i].id, b.scripts[i].isError)]
  {
    if b.phase.Exec? || b.phase.Running? {
      ToolStepFrame(b, a);
    }
  }

  /** Progress is passed on exactly while the tool has not returned. */
  lemma UpdatesWhileExecuting(b: Batch, i: nat, partial: string, aborted: bool)
    requires Inv(b) && (b.phase.Exec? || b.phase.Running?)
    ensures Step(b, Update(i, partial), aborted)
         == (b, if i < |b.slots| && b.slots[i].Executing? then [ToolUpdate(b.calls[i].id, partial)] else [])
  {
  }

  lemma OnlyUpdatesUpdate(b: Batch, a: Action, aborted: bool)
    requires Inv(b) && exists e :: e in Step(b, a, aborted).1 && e.ToolUpdate?
    ensures a.Update? && a.i < |b.slots| && b.slots[a.i].Executing?
    ensures Step(b, a, aborted).1 == [ToolUpdate(b.calls[a.i].id, a.partial)]
  {
  }

  // ----- One after the other, or together -----

  /** In sequential execution at most one call is under way. */
  lemma OneAtATime(b: Batch, i: nat, j: nat)
    requires Inv(b) && !b.parallel && Underway(b, i) && Underway(b, j)
    ensures i == j
  {
  }

  /** All calls started so far are executing, and all others are free to. */
  predicate AllExecuting(b: Batch) {
    && b.parallel && b.forced == 0 && |b.scripts| == |b.calls|
    && (forall i :: 0 <= i < |b.scripts| ==> b.scripts[i].prep.Ready?)
    && (forall i :: 0 <= i < |b.slots| ==> b.slots[i].Executing?)
    && if |b.slots| < |b.calls| then b.phase == Start(|b.slots|) else b.phase == Running
  }

  /** The next call starts without waiting for the others. */
  lemma StartsNext(b: Batch) returns (b1: Batch, b2: Batch, b3: Batch)
    requires Inv(b) && AllExecuting(b) && b.phase.Start?
    ensures Inv(b1) && b1 == Step(b, Tick, false).0
    ensures Inv(b2) && b2 == Step(b1, Tick, false).0
    ensures Inv(b3) && b3 == Step(b2, Tick, false).0
    ensures AllExecuting(b3) && |b3.slots| == |b.slots| + 1 && b3.calls == b.calls
  {
    b1 := Step(b, Tick, false).0;
    StepInv(b, Tick, false);
    b2 := Step(b1, Tick, false).0;
    StepInv(b1, Tick, false);
    b3 := Step(b2, Tick, false).0;
    StepInv(b2, Tick, false);
    assert b2.slots == b.slots + [Executing];
  }

  lemma {:induction false} TogetherFrom(b: Batch) returns (schedule: seq<Scheduled>)
    requires Inv(b) && AllExecuting(b)
    ensures Undisturbed(schedule) && AllExecuting(Run(b, schedule).0) && Run(b, schedule).0.phase.Running?
    ensures Run(b, schedule).0.calls == b.calls
    decreases |b.calls| - |b.slots|
  {
    if b.phase.Running? {
      schedule := [];
    } else {
      var b1, b2, b3 := StartsNext(b);
      var rest := TogetherFrom(b3);
      schedule := Prepend(b2, Tick, b3, rest);
      schedule := Prepend(b1, Tick, b2, schedule);
      schedule := Prepend(b, Tick, b1, schedule);
    }
  }

  /** In parallel execution all calls of a batch can be executing at once. */
  lemma ParallelRunsTogether(calls: seq<ToolCall>, scripts: seq<Script>) returns (schedule: seq<Scheduled>)
    requires |scripts| == |calls| && DistinctIds(calls) && forall i :: 0 <= i < |calls| ==> scripts[i].prep.Ready?
    ensures Inv(Begin(calls, scripts, 0, true)) && Undisturbed(schedule)
    ensures var c := Run(Begin(calls, scripts, 0, true), schedule).0;
            |c.slots| == |calls| && forall i :: 0 <= i < |calls| ==> Underway(c, i)
  {
    BeginInv(calls, scripts, 0, true);
    schedule := TogetherFrom(Begin(calls, scripts, 0, true));
  }

  // ----- After an abort -----

  ghost predicate Aborted(schedule: seq<Scheduled>) {
    forall i :: 0 <= i < |schedule| ==> schedule[i].aborted
  }

  /** Nothing past `limit` calls can be announced any more. */
  predicate Stopping(b: Batch, limit: nat) {
    && |b.slots| <= limit && b.forced < limit
    && match b.phase
       case Start(k) => k < limit
       case Prepare(k) => k < limit
       case _ => true
  }

  lemma ToolsFinish(b: Batch, a: Action)
    requires Inv(b)
    ensures forall i :: Underway(ToolStep(b, a).0, i) ==> Underway(b, i)
  {
  }

  lemma StopsStep(b: Batch, a: Action, limit: nat)
    requires Inv(b) && Stopping(b, limit)
    ensures Stopping(Step(b, a, true).0, limit)
    ensures forall i :: Underway(Step(b, a, true).0, i) ==> Underway(b, i)
  {
    if b.phase.Exec? || b.phase.Running? {
      ToolStepFrame(b, a);
      ToolsFinish(b, a);
    } else if b.phase.Prepare? {
      forall i | Underway(Step(b, a, true).0, i)
        ensures Underway(b, i)
      {
        if !Underway(b, i) { StartsOnlyReady(b, a, true, i); }
      }
    }
  }

  /** Once the signal is aborted no further call executes, and beyond the calls answered in advance
      at most one more is announced. */
  lemma {:induction false} AbortStopsCalls(b: Batch, schedule: seq<Scheduled>)
    requires Inv(b) && Aborted(schedule)
    ensures var c := Run(b, schedule).0;
            && |c.slots| <= (if |b.slots| < b.forced then b.forced else |b.slots|) + 1
            && forall i :: Underway(c, i) ==> Underway(b, i)
  {
    AbortStopping(b, schedule, (if |b.slots| < b.forced then b.forced else |b.slots|) + 1);
  }

  lemma {:induction false} AbortStopping(b: Batch, schedule: seq<Scheduled>, limit: nat)
    requires Inv(b) && Aborted(schedule) && Stopping(b, limit)
    ensures var c := Run(b, schedule).0; Stopping(c, limit) && forall i :: Underway(c, i) ==> Underway(b, i)
  {
    if schedule != [] {
      var last := schedule[|schedule| - 1];
      AbortStopping(b, schedule[..|schedule| - 1], limit);
      StopsStep(Run(b, schedule[..|schedule| - 1]).0, last.action, limit);
    }
  }

  // ----- Closing events -----

  predicate Ended(calls: seq<ToolCall>, slots: seq<Slot>, id: string, isError: bool)
    requires |slots| <= |calls|
  {
    exists i :: 0 <= i < |slots| && slots[i].Settled? && calls[i].id == id && slots[i].result.isError == isError
  }

  lemma PushEnds(calls: seq<ToolCall>, slots: seq<Slot>, slot: Slot, id: string, isError: bool)
    requires |slots| < |calls|
    ensures Ended(calls, slots + [slot], id, isError)
       <==> Ended(calls, slots, id, isError) || (slot.Settled? && calls[|slots|].id == id && slot.result.isError == isError)
  {
    var more := slots + [slot];
    assert more[|slots|] == slot;
    if i :| 0 <= i < |slots| && slots[i].Settled? && calls[i].id == id && slots[i].result.isError == isError {
      assert more[i] == slots[i];
    }
  }

  lemma ChangeEnds(calls: seq<ToolCall>, slots: seq<Slot>, k: nat, slot: Slot, id: string, isError: bool)
    requires k < |slots| <= |calls| && !slots[k].Settled?
    ensures Ended(calls, slots[k := slot], id, isError)
       <==> Ended(calls, slots, id, isError) || (slot.Settled? && calls[k].id == id && slot.result.isError == isError)
  {
    var after := slots[k := slot];
    assert after[k] == slot;
    if i :| 0 <= i < |slots| && slots[i].Settled? && calls[i].id == id && slots[i].result.isError == isError {
      assert after[i] == slots[i];
    }
  }

  lemma ToolStepEnds(b: Batch, a: Action, id: string, isError: bool)
    requires Inv(b)
    ensures var (c, es) := ToolStep(b, a);
            && c.calls == b.calls && |c.slots| == |b.slots|
            && (Ended(b.calls, c.slots, id, isError) <==> Ended(b.calls, b.slots, id, isError) || ToolEnd(id, isError) in es)
  {
    if !a.Tick? && a.i < |b.slots| && !b.slots[a.i].Settled? {
      ChangeEnds(b.calls, b.slots, a.i, ToolStep(b, a).0.slots[a.i], id, isError);
    }
  }

  lemma StepEnds(b: Batch, a: Action, aborted: bool, id: string, isError: bool)
    requires Inv(b)
    ensures var (c, es) := Step(b, a, aborted);
            && Inv(c) && c.calls == b.calls
            && (Ended(c.calls, c.slots, id, isError) <==> Ended(b.calls, b.slots, id, isError) || ToolEnd(id, isError) in es)
  {
    StepInv(b, a, aborted);
    if b.phase.Exec? || b.phase.Running? {
      ToolStepEnds(b, a, id, isError);
    } else if b.phase.Prepare? && a.Tick? {
      PrepareEnds(b, aborted, id, isError);
    }
  }

  lemma PrepareEnds(b: Batch, aborted: bool, id: string, isError: bool)
    requires Inv(b) && b.phase.Prepare?
    ensures var (c, es) := PrepareStep(b, aborted);
            && c.calls == b.calls && |c.slots| <= |b.calls|
            && (Ended(b.calls, c.slots, id, isError) <==> Ended(b.calls, b.slots, id, isError) || ToolEnd(id, isError) in es)
  {
    var now := Immediate(b.calls[b.phase.k], b.scripts[b.phase.k], aborted);
    PushEnds(b.calls, b.slots, if now.Some? then Settled(now.value) else Executing, id, isError);
  }

  /** A call's end is in the trace exactly if the call is settled, with its result's error flag. */
  lemma {:induction false} EndsTruthful(b: Batch, schedule: seq<Scheduled>, id: string, isError: bool)
    requires Inv(b) && b.slots == []
    ensures var (c, trace) := Run(b, schedule);
            && |c.slots| <= |c.calls|
            && (ToolEnd(id, isError) in trace <==> Ended(c.calls, c.slots, id, isError))
  {
    if schedule != [] {
      var front, last := schedule[..|schedule| - 1], schedule[|schedule| - 1];
      EndsTruthful(b, front, id, isError);
      StepEnds(Run(b, front).0, last.action, last.aborted, id, isError);
    }
  }
}
