/** Mutual exclusion of runtime commands. Each command is an async function suspended at its one
    await; `Work` holds the locals of a suspended command. The specification only knows which
    commands are suspended; class `CommandGate` keeps the flags and the counter the code consults. */
module CommandGate {
  datatype Work = Prompt(extension: bool, accepted: bool) | Steer | SetModel

  type Running = map<nat, Work>

  /** Commands that need the session to themselves. */
  predicate Owner(w: Work) { w.Prompt? || w.SetModel? }

  predicate Owned(r: Running) {
    exists id :: id in r && Owner(r[id])
  }

  datatype Event =
    | BeginPrompt(id: nat, extension: bool, usable: bool, busy: bool)
    | Preflight(id: nat, ok: bool)
    | BeginSteer(id: nat, usable: bool)
    | BeginSetModel(id: nat, usable: bool, busy: bool, known: bool)
    | RunSetThinking(usable: bool, busy: bool, known: bool)
    | End(id: nat)

  predicate Admits(max: nat, r: Running, usable: bool) { usable && |r| < max }

  function Step(max: nat, r: Running, e: Event): Running {
    match e
    case BeginPrompt(id, extension, usable, busy) =>
      if id !in r && Admits(max, r, usable) && !busy && !Owned(r) then r[id := Prompt(extension, false)] else r
    case Preflight(id, ok) =>
      if id in r && r[id].Prompt? && ok then r[id := r[id].(accepted := true)] else r
    case BeginSteer(id, usable) =>
      if id !in r && Admits(max, r, usable) then r[id := Steer] else r
    case BeginSetModel(id, usable, busy, known) =>
      if id !in r && Admits(max, r, usable) && !busy && known && !Owned(r) then r[id := SetModel] else r
    case RunSetThinking(_, _, _) => r
    case End(id) => r - {id}
  }

  function Run(max: nat, events: seq<Event>): Running {
    if events == [] then map[] else Step(max, Run(max, events[..|events| - 1]), events[|events| - 1])
  }

  predicate OneOwner(r: Running) {
    forall i, j :: i in r && j in r && Owner(r[i]) && Owner(r[j]) ==> i == j
  }

  lemma StepSafe(max: nat, r: Running, e: Event)
    requires |r| <= max && OneOwner(r)
    ensures |Step(max, r, e)| <= max && OneOwner(Step(max, r, e))
  {
    match e
    case End(id) => Without(r, id);
    case Preflight(id, ok) =>
      if id in r && r[id].Prompt? {
        With(r, id, r[id].(accepted := true));
      }
    case BeginPrompt(id, extension, _, _) => if !Owned(r) { With(r, id, Prompt(extension, false)); }
    case BeginSteer(id, _) => if id !in r { With(r, id, Steer); }
    case BeginSetModel(id, _, _, _) => if !Owned(r) { With(r, id, SetModel); }
    case RunSetThinking(_, _, _) =>
  }

  lemma With(r: Running, id: nat, w: Work)
    requires OneOwner(r) && (Owner(w) ==> !Owned(r) || (id in r && Owner(r[id])))
    ensures OneOwner(r[id := w]) && |r[id := w]| == |r| + if id in r then 0 else 1
  {
    assert r[id := w].Keys == r.Keys + {id};
  }

  lemma Without(r: Running, id: nat)
    ensures |r - {id}| == |r| - if id in r then 1 else 0
    ensures forall k :: k in r - {id} ==> k in r && (r - {id})[k] == r[k]
  {
    assert (r - {id}).Keys == r.Keys - {id};
  }

  /** Under every interleaving at most one prompt or model change owns the session, and no more than
      `max` ordinary commands are suspended. */
  lemma {:induction false} AlwaysOneOwner(max: nat, events: seq<Event>)
    ensures OneOwner(Run(max, events)) && |Run(max, events)| <= max
  {
    if events != [] {
      AlwaysOneOwner(max, events[..|events| - 1]);
      StepSafe(max, Run(max, events[..|events| - 1]), events[|events| - 1]);
    }
  }

  // ----- Who is let in -----

  /** The session is free: whatever is suspended only steers. */
  predicate OnlySteering(r: Running) {
    forall id :: id in r ==> r[id].Steer?
  }

  /** A prompt or a model change needs a free, idle session; steering only a slot. */
  predicate Granted(max: nat, r: Running, e: Event, id: nat) {
    match e
    case BeginPrompt(i, _, usable, busy) => i == id && usable && |r| < max && !busy && OnlySteering(r)
    case BeginSteer(i, usable) => i == id && usable && |r| < max
    case BeginSetModel(i, usable, busy, known) => i == id && usable && |r| < max && !busy && known && OnlySteering(r)
    case _ => false
  }

  /** What an event does to the command `id`. */
  lemma StepGrants(max: nat, r: Running, e: Event, id: nat)
    ensures id in Step(max, r, e) <==> Granted(max, r, e, id) || (id in r && e != End(id))
    ensures id in r && id in Step(max, r, e) && !(e.Preflight? && e.id == id) ==> Step(max, r, e)[id] == r[id]
    ensures id !in r && id in Step(max, r, e) ==>
              Step(max, r, e)[id] == match e case BeginPrompt(_, extension, _, _) => Prompt(extension, false)
                                             case BeginSteer(_, _) => Steer
                                             case _ => SetModel
    ensures id in r && r[id].Prompt? && e.Preflight? && e.id == id ==>
              Step(max, r, e)[id] == Prompt(r[id].extension, r[id].accepted || e.ok)
  {
    OnlySteeringFree(r);
  }

  lemma OnlySteeringFree(r: Running)
    ensures OnlySteering(r) <==> !Owned(r)
  {
  }

  ghost predicate Holds(max: nat, events: seq<Event>, id: nat) {
    exists k :: 0 <= k < |events| && Granted(max, Run(max, events[..k]), events[k], id)
                && forall j :: k < j < |events| ==> events[j] != End(id)
  }

  /** Over every run, a command is suspended exactly if it was let in and has not ended since. */
  lemma {:induction false} SuspendedIff(max: nat, events: seq<Event>, id: nat)
    ensures id in Run(max, events) <==> Holds(max, events, id)
  {
    if events != [] {
      var front, e := events[..|events| - 1], events[|events| - 1];
      SuspendedIff(max, front, id);
      StepGrants(max, Run(max, front), e, id);
      HoldsAppend(max, front, e, id);
      assert front + [e] == events;
    }
  }

  lemma HoldsAppend(max: nat, front: seq<Event>, e: Event, id: nat)
    ensures Holds(max, front + [e], id) <==> Granted(max, Run(max, front), e, id) || (Holds(max, front, id) && e != End(id))
  {
    if Granted(max, Run(max, front), e, id) {
      HoldsNow(max, front, e, id);
    } else if Holds(max, front, id) && e != End(id) {
      HoldsStill(max, front, e, id);
    } else if Holds(max, front + [e], id) {
      HeldBefore(max, front, e, id);
    }
  }

  lemma HoldsNow(max: nat, front: seq<Event>, e: Event, id: nat)
    requires Granted(max, Run(max, front), e, id)
    ensures Holds(max, front + [e], id)
  {
    var events := front + [e];
    assert events[..|front|] == front && events[|front|] == e;
  }

  lemma HoldsStill(max: nat, front: seq<Event>, e: Event, id: nat)
    requires Holds(max, front, id) && e != End(id)
    ensures Holds(max, front + [e], id)
  {
    var events := front + [e];
    var k :| 0 <= k < |front| && Granted(max, Run(max, front[..k]), front[k], id)
             && forall j :: k < j < |front| ==> front[j] != End(id);
    assert events[..k] == front[..k] && events[k] == front[k];
  }

  lemma HeldBefore(max: nat, front: seq<Event>, e: Event, id: nat)
    requires Holds(max, front + [e], id) && !Granted(max, Run(max, front), e, id)
    ensures Holds(max, front, id) && e != End(id)
  {
    var events := front + [e];
    assert events[..|front|] == front && events[|front|] == e;
    var k :| 0 <= k < |events| && Granted(max, Run(max, events[..k]), events[k], id)
             && forall j :: k < j < |events| ==> events[j] != End(id);
    assert k < |front|;
    assert events[..k] == front[..k] && events[k] == front[k];
    assert forall j :: k < j < |front| ==> front[j] == events[j];
  }

  // ----- Flags -----

  datatype Flags = Flags(preflight: bool, active: bool, extension: bool, configuration: bool)

  const NoFlags := Flags(false, false, false, false)

  function FlagsFor(w: Work): Flags {
    match w
    case Prompt(extension, accepted) => Flags(!accepted, accepted, accepted && extension, false)
    case Steer => NoFlags
    case SetModel => Flags(false, false, false, true)
  }

  /** A flag is set exactly while a command that sets it is suspended. */
  ghost function FlagsOf(r: Running): Flags {
    Flags(exists id :: id in r && FlagsFor(r[id]).preflight, exists id :: id in r && FlagsFor(r[id]).active,
          exists id :: id in r && FlagsFor(r[id]).extension, exists id :: id in r && FlagsFor(r[id]).configuration)
  }

  lemma FlagsOwned(r: Running)
    ensures var f := FlagsOf(r);
            (Owned(r) <==> f.preflight || f.active || f.configuration) && (f.extension ==> f.active)
  {
    if id :| id in r && Owner(r[id]) {
      assert FlagsFor(r[id]).preflight || FlagsFor(r[id]).active || FlagsFor(r[id]).configuration;
    }
  }

  /** With one owner its flags are all there are. */
  lemma FlagsOfOwner(r: Running, id: nat)
    requires id in r && forall k :: k in r && k != id ==> !Owner(r[k])
    ensures FlagsOf(r) == FlagsFor(r[id])
  {
    assert forall k :: k in r && k != id ==> FlagsFor(r[k]) == NoFlags;
  }

  lemma FlagsOfNone(r: Running)
    requires !Owned(r)
    ensures FlagsOf(r) == NoFlags
  {
    assert forall k :: k in r ==> FlagsFor(r[k]) == NoFlags;
  }

  /** Commands without flags do not matter. */
  lemma FlagsOfSteer(r: Running, id: nat)
    requires id !in r
    ensures FlagsOf(r[id := Steer]) == FlagsOf(r)
  {
    var s := r[id := Steer];
    assert forall k :: k in r ==> k in s && s[k] == r[k];
    assert forall k :: k in s ==> k == id || k in r;
    assert FlagsFor(s[id]) == NoFlags;
  }

  datatype Outcome = Proceeds | Locked | Busy | Invalid

  class CommandGate {
    const maxPending: nat
    var promptPreflight: bool
    var activePrompt: bool
    var extensionBusy: bool
    var configurationInFlight: bool
    var abortInFlight: bool
    var ordinaryInFlight: int
    var running: Running
    ghost var aborts: nat

    /** Every flag is set exactly while a command that owns it is suspended. */
    ghost predicate Valid()
      reads this
    {
      && ordinaryInFlight == |running| && |running| <= maxPending && OneOwner(running)
      && Flags(promptPreflight, activePrompt, extensionBusy, configurationInFlight) == FlagsOf(running)
      && aborts == (if abortInFlight then 1 else 0)
    }

    constructor (maxPending: nat)
      ensures Valid() && running == map[] && this.maxPending == maxPending
    {
      this.maxPending := maxPending;
      promptPreflight, activePrompt, extensionBusy, configurationInFlight, abortInFlight := false, false, false, false, false;
      ordinaryInFlight, running, aborts := 0, map[], 0;
    }

    method ReserveOrdinary(usable: bool) returns (outcome: Outcome)
      modifies this`ordinaryInFlight
      ensures outcome == if !usable then Locked else if old(ordinaryInFlight) >= maxPending then Busy else Proceeds
      ensures ordinaryInFlight == old(ordinaryInFlight) + if outcome == Proceeds then 1 else 0
    {
      if !usable { return Locked; }
      if ordinaryInFlight >= maxPending { return Busy; }
      ordinaryInFlight := ordinaryInFlight + 1;
      return Proceeds;
    }

    method BeginPrompt(id: nat, extension: bool, usable: bool, busy: bool) returns (outcome: Outcome)
      requires Valid() && id !in running
      modifies this
      ensures Valid() && running == Step(maxPending, old(running), Event.BeginPrompt(id, extension, usable, busy))
      ensures outcome == if !usable then Locked else if id in running then Proceeds else Busy
      ensures abortInFlight == old(abortInFlight)
    {
      FlagsOwned(running);
      outcome := ReserveOrdinary(usable);
      if outcome != Proceeds { return; }
      if promptPreflight || activePrompt || extensionBusy || configurationInFlight || busy {
        ordinaryInFlight := ordinaryInFlight - 1;
        return Busy;
      }
      promptPreflight := true;
      Suspend(id, Prompt(extension, false));
      FlagsOfOwner(running, id);
    }

    /** The session accepted or refused the prompt before running it. */
    method Preflight(id: nat, ok: bool)
      requires Valid() && id in running && running[id].Prompt?
      modifies this
      ensures Valid() && running == Step(maxPending, old(running), Event.Preflight(id, ok))
      ensures abortInFlight == old(abortInFlight)
    {
      if !ok { return; }
      FlagsOfOwner(running, id);
      promptPreflight := false;
      activePrompt := true;
      if running[id].extension { extensionBusy := true; }
      With(running, id, running[id].(accepted := true));
      running := running[id := running[id].(accepted := true)];
      FlagsOfOwner(running, id);
    }

    method EndPrompt(id: nat) returns (outcome: Outcome)
      requires Valid() && id in running && running[id].Prompt?
      modifies this
      ensures Valid() && running == Step(maxPending, old(running), End(id))
      ensures abortInFlight == old(abortInFlight) && outcome == if old(running)[id].accepted then Proceeds else Invalid
    {
      FlagsOfOwner(running, id);
      outcome := if running[id].accepted then Proceeds else Invalid;
      promptPreflight := false;
      activePrompt := false;
      if running[id].extension { extensionBusy := false; }
      ordinaryInFlight := ordinaryInFlight - 1;
      Drop(id);
      FlagsOfNone(running);
    }

    method BeginSteer(id: nat, usable: bool) returns (outcome: Outcome)
      requires Valid() && id !in running
      modifies this
      ensures Valid() && running == Step(maxPending, old(running), Event.BeginSteer(id, usable))
      ensures outcome == if !usable then Locked else if id in running then Proceeds else Busy
      ensures abortInFlight == old(abortInFlight)
    {
      outcome := ReserveOrdinary(usable);
      if outcome == Proceeds {
        FlagsOfSteer(running, id);
        Suspend(id, Steer);
      }
    }

    method EndSteer(id: nat)
      requires Valid() && id in running && running[id].Steer?
      modifies this
      ensures Valid() && running == Step(maxPending, old(running), End(id)) && abortInFlight == old(abortInFlight)
    {
      ordinaryInFlight := ordinaryInFlight - 1;
      Drop(id);
      FlagsOfSteer(running, id);
      assert running[id := Steer] == old(running);
    }

    method BeginSetModel(id: nat, usable: bool, busy: bool, known: bool) returns (outcome: Outcome)
      requires Valid() && id !in running
      modifies this
      ensures Valid() && running == Step(maxPending, old(running), Event.BeginSetModel(id, usable, busy, known))
      ensures outcome == Proceeds <==> id in running
      ensures outcome == Locked <==> !usable
      ensures outcome == Invalid <==> Admits(maxPending, old(running), usable) && !busy && !Owned(old(running)) && !known
      ensures abortInFlight == old(abortInFlight)
    {
      FlagsOwned(running);
      outcome := ReserveOrdinary(usable);
      if outcome != Proceeds { return; }
      if configurationInFlight || promptPreflight || activePrompt || extensionBusy || busy {
        ordinaryInFlight := ordinaryInFlight - 1;
        return Busy;
      }
      if !known {
        ordinaryInFlight := ordinaryInFlight - 1;
        return Invalid;
      }
      configurationInFlight := true;
      Suspend(id, SetModel);
      FlagsOfOwner(running, id);
    }

    method EndSetModel(id: nat)
      requires Valid() && id in running && running[id].SetModel?
      modifies this
      ensures Valid() && running == Step(maxPending, old(running), End(id)) && abortInFlight == old(abortInFlight)
    {
      FlagsOfOwner(running, id);
      configurationInFlight := false;
      ordinaryInFlight := ordinaryInFlight - 1;
      Drop(id);
      FlagsOfNone(running);
    }

    /** Changing the thinking level never suspends: it takes the slot and gives it back. */
    method RunSetThinking(usable: bool, busy: bool, known: bool) returns (outcome: Outcome)
      requires Valid()
      modifies this
      ensures Valid() && running == Step(maxPending, old(running), Event.RunSetThinking(usable, busy, known))
      ensures outcome == Proceeds <==> Admits(maxPending, old(running), usable) && !busy && !Owned(old(running)) && known
      ensures outcome == Locked <==> !usable
      ensures abortInFlight == old(abortInFlight)
    {
      FlagsOwned(running);
      outcome := ReserveOrdinary(usable);
      if outcome != Proceeds { return; }
      if configurationInFlight || promptPreflight || activePrompt || extensionBusy || busy { outcome := Busy; }
      else if !known { outcome := Invalid; }
      else {
        configurationInFlight := true;
        configurationInFlight := false;
      }
      ordinaryInFlight := ordinaryInFlight - 1;
    }

    /** Abort is not counted as ordinary, runs at most once at a time, and never during a prompt's
        preflight or an extension command. */
    method BeginAbort(usable: bool) returns (outcome: Outcome)
      requires Valid()
      modifies this`abortInFlight, this`aborts
      ensures Valid() && aborts == old(aborts) + if outcome == Proceeds then 1 else 0
      ensures outcome == Proceeds <==>
                usable && old(aborts) == 0
                && forall id :: id in running && running[id].Prompt? ==> running[id].accepted && !running[id].extension
    {
      if !usable { return Locked; }
      if abortInFlight || promptPreflight || extensionBusy { return Busy; }
      abortInFlight := true;
      aborts := aborts + 1;
      return Proceeds;
    }

    method EndAbort()
      requires Valid() && aborts > 0
      modifies this`abortInFlight, this`aborts
      ensures Valid() && aborts == old(aborts) - 1
    {
      abortInFlight := false;
      aborts := aborts - 1;
    }

    /** Record a command whose flags are already set. */
    method Suspend(id: nat, w: Work)
      requires id !in running && OneOwner(running) && (Owner(w) ==> !Owned(running))
      modifies this`running
      ensures running == old(running)[id := w] && |running| == |old(running)| + 1 && OneOwner(running)
    {
      With(running, id, w);
      running := running[id := w];
    }

    method Drop(id: nat)
      requires id in running && OneOwner(running)
      modifies this`running
      ensures running == old(running) - {id} && |running| == |old(running)| - 1 && OneOwner(running)
    {
      Without(running, id);
      running := running - {id};
    }
  }
}
