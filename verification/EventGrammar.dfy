/** Loop events and the grammar of a run's event trace. `Watch` is an acceptor; the lemmas after it
    say what acceptance means for the positions of a trace. */
module EventGrammar {
  import opened Transcript

  datatype Event =
    | AgentStart
    | AgentEnd(messages: seq<Message>)
    | TurnStart
    | TurnEnd(message: Message, results: seq<Message>)
    | MessageStart(message: Message)
    | MessageUpdate(message: Message)
    | MessageEnd(message: Message)
    | ToolStart(id: string)
    | ToolUpdate(id: string, partial: string)
    | ToolEnd(id: string, isError: bool)

  datatype Stage = Fresh | Started | InTurn | Between | Ended

  /** `open`: a message has started and not ended. `running`/`finished`: tool calls of this turn. */
  datatype Monitor =
    | Rejected
    | Watching(stage: Stage, open: bool, running: set<string>, finished: set<string>)
  {
    predicate Idle() { Watching? && stage.InTurn? && !open }
  }

  const InitialMonitor := Watching(Fresh, false, {}, {})

  function Observe(m: Monitor, e: Event): Monitor {
    if m.Rejected? then Rejected
    else
      match e
      case AgentStart => if m.stage.Fresh? then m.(stage := Started) else Rejected
      case TurnStart =>
        if m.stage.Started? || m.stage.Between? then m.(stage := InTurn, finished := {}) else Rejected
      case TurnEnd(_, _) => if m.Idle() && m.running == {} then m.(stage := Between) else Rejected
      case AgentEnd(_) => if m.stage.Between? then m.(stage := Ended) else Rejected
      case MessageStart(_) => if m.Idle() && m.running == {} then m.(open := true) else Rejected
      case MessageUpdate(_) => if m.open then m else Rejected
      case MessageEnd(_) => if m.open then m.(open := false) else Rejected
      case ToolStart(id) =>
        if m.Idle() && id !in m.running + m.finished then m.(running := m.running + {id}) else Rejected
      case ToolUpdate(id, _) => if m.Idle() && id in m.running then m else Rejected
      case ToolEnd(id, _) =>
        if m.Idle() && id in m.running
        then m.(running := m.running - {id}, finished := m.finished + {id}) else Rejected
  }

  function Watch(trace: seq<Event>): Monitor {
    if trace == [] then InitialMonitor
    else Observe(Watch(trace[..|trace| - 1]), trace[|trace| - 1])
  }

  lemma WatchAppend(trace: seq<Event>, e: Event)
    ensures Watch(trace + [e]) == Observe(Watch(trace), e)
  {
    assert (trace + [e])[..|trace|] == trace;
  }

  // ----- What acceptance means -----

  lemma At(trace: seq<Event>, n: nat)
    requires n < |trace|
    ensures Watch(trace[..n + 1]) == Observe(Watch(trace[..n]), trace[n])
  {
    assert trace[..n + 1] == trace[..n] + [trace[n]];
    WatchAppend(trace[..n], trace[n]);
  }

  lemma {:induction false} PrefixAccepted(trace: seq<Event>, n: nat)
    requires n <= |trace| && Watch(trace).Watching?
    ensures Watch(trace[..n]).Watching?
    decreases |trace| - n
  {
    if n < |trace| {
      PrefixAccepted(trace, n + 1);
      At(trace, n);
    } else {
      assert trace[..n] == trace;
    }
  }

  /** Messages and running tool calls exist only inside a turn. */
  lemma {:induction false} InsideTurn(trace: seq<Event>)
    requires Watch(trace).Watching?
    ensures var m := Watch(trace); (m.open || m.running != {} ==> m.stage.InTurn?) && (m.open ==> m.running == {})
  {
    if trace != [] {
      InsideTurn(trace[..|trace| - 1]);
    }
  }

  ghost predicate Complete(trace: seq<Event>) {
    Watch(trace).Watching? && Watch(trace).stage.Ended?
  }

  predicate TurnBoundary(e: Event) {
    e.TurnStart? || e.TurnEnd?
  }

  predicate About(e: Event, id: string) {
    (e.ToolStart? || e.ToolUpdate? || e.ToolEnd?) && e.id == id
  }

  /** A complete trace is `agent_start` ... `agent_end`, and neither occurs anywhere else. */
  lemma {:induction false} OneAgentSpan(trace: seq<Event>)
    requires Complete(trace)
    ensures |trace| >= 2 && trace[0] == AgentStart && trace[|trace| - 1].AgentEnd?
    ensures forall i :: 0 < i < |trace| - 1 ==> !trace[i].AgentStart? && !trace[i].AgentEnd?
  {
    var last := |trace| - 1;
    assert trace != [];
    PrefixAccepted(trace, last);
    InsideTurn(trace[..last]);
    FreshMeansEmpty(trace[..last]);
    forall i | 0 < i < last
      ensures !trace[i].AgentStart? && !trace[i].AgentEnd?
    {
      PrefixAccepted(trace, i + 1);
      At(trace, i);
      assert trace[..i + 1] <= trace[..last];
      assert Watch(trace[..last]).stage.Between?;
      NotEndedBefore(trace[..last], i + 1);
      assert trace[..last][..i + 1] == trace[..i + 1];
      FreshMeansEmpty(trace[..i]);
    }
    PrefixAccepted(trace, 1);
    At(trace, 0);
    assert trace[..0] == [];
  }

  lemma {:induction false} FreshMeansEmpty(trace: seq<Event>)
    requires Watch(trace).Watching?
    ensures Watch(trace).stage.Fresh? <==> trace == []
  {
    if trace != [] {
      FreshMeansEmpty(trace[..|trace| - 1]);
    }
  }

  lemma {:induction false} NotEndedBefore(trace: seq<Event>, n: nat)
    requires n <= |trace| && Watch(trace).Watching? && !Watch(trace).stage.Ended?
    ensures Watch(trace[..n]).Watching? && !Watch(trace[..n]).stage.Ended?
    decreases |trace| - n
  {
    PrefixAccepted(trace, n);
    if n < |trace| {
      NotEndedBefore(trace, n + 1);
      At(trace, n);
      InsideTurn(trace[..n]);
    } else {
      assert trace[..n] == trace;
    }
  }

  ghost predicate IsTurnSpan(trace: seq<Event>, i: int, j: int) {
    0 <= i < j < |trace| && trace[i].TurnStart? && trace[j].TurnEnd?
    && forall k :: i < k < j ==> !TurnBoundary(trace[k]) && !trace[k].AgentEnd?
  }

  /** From inside a turn of a complete trace the next turn boundary is its `turn_end`. */
  lemma {:induction false} TurnCloses(trace: seq<Event>, n: nat) returns (j: nat)
    requires Complete(trace) && n <= |trace|
    requires Watch(trace[..n]).Watching? && Watch(trace[..n]).stage.InTurn?
    ensures n <= j < |trace| && trace[j].TurnEnd?
    ensures forall k :: n <= k < j ==> !TurnBoundary(trace[k]) && !trace[k].AgentEnd?
    decreases |trace| - n
  {
    assert trace[..|trace|] == trace;
    assert n < |trace|;
    PrefixAccepted(trace, n + 1);
    At(trace, n);
    if trace[n].TurnEnd? {
      j := n;
    } else {
      j := TurnCloses(trace, n + 1);
    }
  }

  /** Turns strictly alternate: every `turn_start` is closed by the next turn boundary, and every
      `turn_end` is opened by the previous one. */
  lemma TurnsAlternate(trace: seq<Event>, i: nat)
    requires Complete(trace) && i < |trace|
    ensures trace[i].TurnStart? ==> exists j :: IsTurnSpan(trace, i, j)
    ensures trace[i].TurnEnd? ==> exists h :: IsTurnSpan(trace, h, i)
  {
    PrefixAccepted(trace, i + 1);
    At(trace, i);
    if trace[i].TurnStart? {
      var j := TurnCloses(trace, i + 1);
      assert IsTurnSpan(trace, i, j);
    } else if trace[i].TurnEnd? {
      var h := TurnOpened(trace, i);
      assert IsTurnSpan(trace, h, i);
    }
  }

  lemma {:induction false} TurnOpened(trace: seq<Event>, n: nat) returns (h: nat)
    requires n <= |trace| && Watch(trace[..n]).Watching? && Watch(trace[..n]).stage.InTurn?
    ensures h < n && trace[h].TurnStart?
    ensures forall k :: h < k < n ==> !TurnBoundary(trace[k]) && !trace[k].AgentEnd?
  {
    assert n > 0;
    At(trace, n - 1);
    if trace[n - 1].TurnStart? {
      h := n - 1;
    } else {
      InsideTurn(trace[..n - 1]);
      h := TurnOpened(trace, n - 1);
    }
  }

  ghost predicate IsMessageSpan(trace: seq<Event>, i: int, j: int) {
    0 <= i < j < |trace| && trace[i].MessageStart? && trace[j].MessageEnd?
    && forall k :: i < k < j ==> trace[k].MessageUpdate?
  }

  lemma {:induction false} MessageCloses(trace: seq<Event>, n: nat) returns (j: nat)
    requires Complete(trace) && n <= |trace|
    requires Watch(trace[..n]).Watching? && Watch(trace[..n]).open
    ensures n <= j < |trace| && trace[j].MessageEnd?
    ensures forall k :: n <= k < j ==> trace[k].MessageUpdate?
    decreases |trace| - n
  {
    InsideTurn(trace[..n]);
    assert trace[..|trace|] == trace;
    assert n < |trace|;
    PrefixAccepted(trace, n + 1);
    At(trace, n);
    if trace[n].MessageEnd? {
      j := n;
    } else {
      j := MessageCloses(trace, n + 1);
    }
  }

  lemma {:induction false} MessageOpened(trace: seq<Event>, n: nat) returns (i: nat)
    requires n <= |trace| && Watch(trace[..n]).Watching? && Watch(trace[..n]).open
    ensures i < n && trace[i].MessageStart? && forall k :: i < k < n ==> trace[k].MessageUpdate?
  {
    assert n > 0;
    At(trace, n - 1);
    if trace[n - 1].MessageStart? {
      i := n - 1;
    } else {
      InsideTurn(trace[..n - 1]);
      i := MessageOpened(trace, n - 1);
    }
  }

  /** Message pairs never overlap: every start, update and end of a message lies on one span, and
      between a start and its end there are only updates. */
  lemma MessagesNest(trace: seq<Event>, k: nat)
    requires Complete(trace) && k < |trace|
    requires trace[k].MessageStart? || trace[k].MessageUpdate? || trace[k].MessageEnd?
    ensures exists i, j :: i <= k <= j && IsMessageSpan(trace, i, j)
  {
    PrefixAccepted(trace, k + 1);
    At(trace, k);
    var i, j := k, k;
    if !trace[k].MessageStart? {
      i := MessageOpened(trace, k);
    }
    if !trace[k].MessageEnd? {
      j := MessageCloses(trace, k + 1);
    }
    assert IsMessageSpan(trace, i, j);
  }

  /** Start at i, end at j, same turn, and no other start or end of this call in between. */
  ghost predicate IsToolSpan(trace: seq<Event>, id: string, i: int, j: int) {
    0 <= i < j < |trace| && trace[i] == ToolStart(id) && trace[j].ToolEnd? && trace[j].id == id
    && forall k :: i < k < j ==> !TurnBoundary(trace[k]) && (About(trace[k], id) ==> trace[k].ToolUpdate?)
  }

  lemma {:induction false} ToolCloses(trace: seq<Event>, id: string, n: nat) returns (j: nat)
    requires Complete(trace) && n <= |trace|
    requires Watch(trace[..n]).Watching? && id in Watch(trace[..n]).running
    ensures n <= j < |trace| && trace[j].ToolEnd? && trace[j].id == id
    ensures forall k :: n <= k < j ==> !TurnBoundary(trace[k]) && (About(trace[k], id) ==> trace[k].ToolUpdate?)
    decreases |trace| - n
  {
    InsideTurn(trace[..n]);
    assert trace[..|trace|] == trace;
    assert n < |trace|;
    PrefixAccepted(trace, n + 1);
    At(trace, n);
    if trace[n].ToolEnd? && trace[n].id == id {
      j := n;
    } else {
      j := ToolCloses(trace, id, n + 1);
    }
  }

  lemma {:induction false} ToolOpened(trace: seq<Event>, id: string, n: nat) returns (i: nat)
    requires n <= |trace| && Watch(trace[..n]).Watching? && id in Watch(trace[..n]).running
    ensures i < n && trace[i] == ToolStart(id)
    ensures forall k :: i < k < n ==> !TurnBoundary(trace[k]) && (About(trace[k], id) ==> trace[k].ToolUpdate?)
  {
    assert n > 0;
    At(trace, n - 1);
    if trace[n - 1] == ToolStart(id) {
      i := n - 1;
    } else {
      InsideTurn(trace[..n - 1]);
      i := ToolOpened(trace, id, n - 1);
    }
  }

  /** Every start, update and end of a call lies on one span of one turn. */
  lemma ToolEventsNest(trace: seq<Event>, k: nat)
    requires Complete(trace) && k < |trace|
    requires trace[k].ToolStart? || trace[k].ToolUpdate? || trace[k].ToolEnd?
    ensures exists i, j :: i <= k <= j && IsToolSpan(trace, trace[k].id, i, j)
  {
    var id := trace[k].id;
    PrefixAccepted(trace, k + 1);
    At(trace, k);
    var i, j := k, k;
    if !trace[k].ToolStart? {
      i := ToolOpened(trace, id, k);
    }
    if !trace[k].ToolEnd? {
      j := ToolCloses(trace, id, k + 1);
    }
    assert IsToolSpan(trace, id, i, j);
  }

  /** Once a call has ended, its turn mentions it no more: a start has exactly one end. */
  lemma {:induction false} EndedOnce(trace: seq<Event>, id: string, n: nat, k: nat)
    requires n <= k < |trace| && Watch(trace).Watching?
    requires Watch(trace[..n]).Watching? && id in Watch(trace[..n]).finished && id !in Watch(trace[..n]).running
    requires forall q :: n <= q <= k ==> !trace[q].TurnStart?
    ensures !About(trace[k], id)
    decreases k - n
  {
    PrefixAccepted(trace, n + 1);
    At(trace, n);
    if n < k {
      EndedOnce(trace, id, n + 1, k);
    }
  }

  lemma ToolSpanUnique(trace: seq<Event>, id: string, i: nat, j: nat, k: nat)
    requires Complete(trace) && IsToolSpan(trace, id, i, j) && j < k < |trace|
    requires forall q :: j < q <= k ==> !trace[q].TurnStart?
    ensures !About(trace[k], id)
  {
    PrefixAccepted(trace, j + 1);
    PrefixAccepted(trace, j);
    At(trace, j);
    EndedOnce(trace, id, j + 1, k);
  }
}
