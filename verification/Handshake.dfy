/** Connection generations of the browser executor. A generation goes through connecting, hello,
    bootstrap and active, and may close at any point. Transports, timers, the host and the session
    owner are adversarial: they choose every action, and late callbacks of old generations may
    arrive at any time. A generation's identity is its index, which stands for its fresh UUID. */
module Handshake {
  import opened Options
  import Outbox

  datatype Stage = Connecting | Hello | Bootstrap | Active | Closed

  /** The stage a host rejection is about. */
  datatype Subject = AtHello | AtBootstrap | AtSnapshot

  datatype Message =
    | Ready(session: nat, generation: nat, binding: string)
    | Ack(session: nat, generation: nat, binding: string)
    | Command(session: nat, generation: nat, binding: string, command: nat)
    | Reject(session: nat, generation: nat, binding: string, about: Subject, version: bool)
    | Release(session: nat, generation: nat, binding: string)

  /** How publishing the initial snapshot went: it could not be built, the outbound queue refused it
      (too large or full), or the queue accepted it. */
  datatype Snapshot = Unbuilt | Refused | Queued

  /** An attempt to publish the initial snapshot: building fails, or the snapshot, `size` bytes as a
      frame, is offered to the generation's outbound queue as an ordinary frame. */
  datatype Publication = Fails | Offers(limits: Outbox.Limits, queue: Outbox.Box, size: nat)

  function Published(p: Publication): Snapshot {
    match p
    case Fails => Unbuilt
    case Offers(l, q, size) =>
      if Outbox.Admit(l, q.open, Outbox.Bytes(Outbox.Outstanding(q)), size, false).None? then Queued else Refused
  }

  /** `heard` records, in order, the host messages this generation acted on without closing. */
  datatype Generation = Generation(stage: Stage, binding: string, snapshot: Snapshot, heard: seq<Message>)

  const Newborn := Generation(Connecting, "", Unbuilt, [])

  /** `connecting` is the generation whose connect promise is still unsettled. `identityHolds` says
      whether the wrapped session still carries the session id the executor was started for. */
  datatype Exec = Exec(generations: seq<Generation>, current: Option<nat>, connecting: Option<nat>,
                       terminal: bool, disposed: bool, identityHolds: bool)

  const Start := Exec([], None, None, false, false, true)

  /** `publication` is what becomes of the initial snapshot if the message is a ready message, and
      `unused` says whether a command's id is not already pending. */
  datatype Action =
    | Connect
    | Opened(g: nat)
    | Failed(g: nat, fatal: bool)
    | Data(g: nat, message: Message, publication: Publication, unused: bool)
    | Malformed(g: nat)
    | Settled(g: nat)
    | Identity(holds: bool)
    | VerifySession
    | Dispose

  predicate Open(e: Exec, g: nat) {
    g < |e.generations| && e.generations[g].stage != Closed
  }

  /** Input is looked at only when it belongs to the current, open generation. */
  predicate Live(e: Exec, g: nat) {
    Open(e, g) && e.current == Some(g)
  }

  function Put(e: Exec, g: nat, n: Generation): Exec
    requires g < |e.generations|
  {
    e.(generations := e.generations[g := n])
  }

  function Fail(e: Exec, g: nat, fatal: bool): Exec {
    if !Open(e, g) then e
    else Put(e, g, e.generations[g].(stage := Closed))
         .(current := if e.current == Some(g) then None else e.current, terminal := e.terminal || fatal)
  }

  function Verify(e: Exec): Exec {
    if e.identityHolds then e
    else if e.current.Some? && Open(e, e.current.value) then Fail(e, e.current.value, true)
    else e.(terminal := true)
  }

  function BeginConnect(e: Exec): Exec {
    e.(generations := e.generations + [Newborn], current := Some(|e.generations|), connecting := Some(|e.generations|))
  }

  function TryConnect(e: Exec): Exec {
    if e.disposed || e.terminal then e
    else if !e.identityHolds then Verify(e)
    else if e.current.Some? && Open(e, e.current.value)
            && (e.generations[e.current.value].stage == Active || e.connecting.Some?) then e
    else BeginConnect(e)
  }

  function OpenTransport(e: Exec, g: nat): Exec {
    if !Live(e, g) || e.disposed || e.generations[g].stage != Connecting then e
    else if !e.identityHolds then Fail(Put(e, g, e.generations[g].(stage := Hello)), g, true)
    else Put(e, g, e.generations[g].(stage := Hello))
  }

  /** The identity every host message after the hello must carry. */
  predicate Addressed(session: nat, g: nat, n: Generation, m: Message) {
    m.session == session && m.generation == g && (m.Ready? || m.binding == n.binding)
  }

  /** What a live generation does with a message; `None` closes it. An acknowledgement only needs a
      snapshot that was built: the code sets its flag before it offers the snapshot to the queue. */
  function Heard(session: nat, g: nat, n: Generation, m: Message, p: Publication, unused: bool,
                 identityHolds: bool): Option<Generation>
  {
    if !Addressed(session, g, n, m) then None
    else match m
      case Ready(_, _, binding) =>
        if n.stage == Hello && identityHolds
        then Some(n.(stage := Bootstrap, binding := binding, snapshot := Published(p), heard := n.heard + [m])) else None
      case Ack(_, _, _) =>
        if n.stage == Bootstrap && n.snapshot != Unbuilt && identityHolds
        then Some(n.(stage := Active, heard := n.heard + [m])) else None
      case Command(_, _, _, _) =>
        if n.stage == Active && unused then Some(n.(heard := n.heard + [m])) else None
      case Reject(_, _, _, _, _) => None
      case Release(_, _, _) => None
  }

  /** A well-placed rejection is fatal only when it is about the version; every other closing message is fatal. */
  predicate Fatal(session: nat, g: nat, n: Generation, m: Message) {
    m.Reject? ==>
      || m.session != session || m.generation != g || m.version
      || (m.about == AtHello && n.stage != Hello)
      || (m.about == AtBootstrap && (n.stage != Bootstrap || m.binding != n.binding))
      || (m.about == AtSnapshot && ((n.stage != Bootstrap && n.stage != Active) || m.binding != n.binding))
  }

  function Receive(session: nat, e: Exec, g: nat, m: Message, p: Publication, unused: bool): Exec {
    if !Live(e, g) then e
    else if e.generations[g].stage == Connecting then Fail(e, g, true)
    else
      var next := Heard(session, g, e.generations[g], m, p, unused, e.identityHolds);
      if next.Some? then Put(e, g, next.value) else Fail(e, g, Fatal(session, g, e.generations[g], m))
  }

  function Settle(e: Exec, g: nat): Exec {
    if e.connecting == Some(g) && g < |e.generations| && e.generations[g].stage in {Active, Closed}
    then e.(connecting := None) else e
  }

  function Shut(e: Exec): Exec {
    if e.disposed then e
    else (if e.current.Some? then Fail(e, e.current.value, false) else e).(disposed := true, terminal := true)
  }

  function Step(session: nat, e: Exec, a: Action): Exec {
    match a
    case Connect => TryConnect(e)
    case Opened(g) => OpenTransport(e, g)
    case Failed(g, fatal) => Fail(e, g, fatal)
    case Data(g, m, p, unused) => Receive(session, e, g, m, p, unused)
    case Malformed(g) => if Live(e, g) then Fail(e, g, true) else e
    case Settled(g) => Settle(e, g)
    case Identity(holds) => e.(identityHolds := holds)
    case VerifySession => Verify(e)
    case Dispose => Shut(e)
  }

  function Run(session: nat, e: Exec, actions: seq<Action>): Exec
    decreases |actions|
  {
    if actions == [] then e else Run(session, Step(session, e, actions[0]), actions[1..])
  }

  // ----- Invariant -----

  /** A legal conversation: ready, then its acknowledgement, then commands, all carrying this
      session, this generation and the binding that the ready message announced. */
  predicate Conversation(session: nat, g: nat, binding: string, heard: seq<Message>) {
    && (|heard| > 0 ==> heard[0] == Ready(session, g, binding))
    && (|heard| > 1 ==> heard[1] == Ack(session, g, binding))
    && (forall i :: 2 <= i < |heard| ==>
          heard[i].Command? && heard[i].session == session && heard[i].generation == g && heard[i].binding == binding)
  }

  predicate Lawful(session: nat, g: nat, n: Generation) {
    && Conversation(session, g, n.binding, n.heard)
    && (n.stage in {Connecting, Hello} ==> n.heard == [])
    && (n.stage == Bootstrap ==> |n.heard| == 1)
    && (n.stage == Active ==> |n.heard| >= 2)
    && (|n.heard| >= 2 ==> n.snapshot != Unbuilt)
  }

  predicate Inv(session: nat, e: Exec) {
    && (forall g :: 0 <= g < |e.generations| ==> Lawful(session, g, e.generations[g]))
    && (forall g :: 0 <= g < |e.generations| && e.generations[g].stage != Closed ==> e.current == Some(g))
    && (e.current.Some? ==> Open(e, e.current.value))
    && (e.current.Some? && e.generations[e.current.value].stage != Active ==> e.connecting == e.current)
    && (e.disposed ==> e.terminal)
    && (e.terminal ==> e.current.None?)
  }

  lemma FailInv(session: nat, e: Exec, g: nat, fatal: bool)
    requires Inv(session, e)
    ensures Inv(session, Fail(e, g, fatal))
  {
  }

  /** Replacing the current generation by a lawful open successor. */
  lemma PutInv(session: nat, e: Exec, g: nat, n: Generation)
    requires Inv(session, e) && Live(e, g) && Lawful(session, g, n) && n.stage != Closed
    requires n.stage == Active || e.generations[g].stage != Active
    ensures Inv(session, Put(e, g, n))
  {
  }

  lemma HeardLawful(session: nat, g: nat, n: Generation, m: Message, p: Publication, unused: bool,
                    identityHolds: bool)
    requires Lawful(session, g, n) && n.stage != Closed
    ensures var next := Heard(session, g, n, m, p, unused, identityHolds);
            next.Some? ==> Lawful(session, g, next.value) && next.value.stage in {Bootstrap, Active}
                           && (n.stage == Active ==> next.value.stage == Active)
  {
  }

  lemma StepInv(session: nat, e: Exec, a: Action)
    requires Inv(session, e)
    ensures Inv(session, Step(session, e, a))
  {
    match a
    case Data(g, m, p, unused) =>
      if Live(e, g) {
        FailInv(session, e, g, true);
        FailInv(session, e, g, Fatal(session, g, e.generations[g], m));
        HeardLawful(session, g, e.generations[g], m, p, unused, e.identityHolds);
        var next := Heard(session, g, e.generations[g], m, p, unused, e.identityHolds);
        if next.Some? {
          PutInv(session, e, g, next.value);
        }
      }
    case Opened(g) =>
      if Live(e, g) && e.generations[g].stage == Connecting {
        var ready := e.generations[g].(stage := Hello);
        PutInv(session, e, g, ready);
        FailInv(session, Put(e, g, ready), g, true);
      }
    case Failed(g, fatal) => FailInv(session, e, g, fatal);
    case Malformed(g) => FailInv(session, e, g, true);
    case VerifySession => VerifyInv(session, e);
    case Connect => VerifyInv(session, e);
    case _ =>
  }

  lemma VerifyInv(session: nat, e: Exec)
    requires Inv(session, e)
    ensures Inv(session, Verify(e))
  {
  }

  lemma {:induction false} RunInv(session: nat, e: Exec, actions: seq<Action>)
    requires Inv(session, e)
    ensures Inv(session, Run(session, e, actions))
    decreases |actions|
  {
    if actions != [] {
      StepInv(session, e, actions[0]);
      RunInv(session, Step(session, e, actions[0]), actions[1..]);
    }
  }

  // ----- Whole runs -----

  /** Over every run at most one generation is open, and it is the current one. */
  lemma OneOpenGeneration(session: nat, actions: seq<Action>, g: nat, h: nat)
    requires var e := Run(session, Start, actions); Open(e, g) && Open(e, h)
    ensures g == h && Run(session, Start, actions).current == Some(g)
  {
    RunInv(session, Start, actions);
  }

  /** What one action may do to a generation that exists: nothing once it is closed, and nothing
      unless it is the current one. */
  lemma StepSpares(session: nat, e: Exec, a: Action, g: nat)
    requires Inv(session, e) && g < |e.generations|
    ensures var f := Step(session, e, a);
            && |f.generations| >= |e.generations|
            && (e.generations[g].stage == Closed || e.current != Some(g) ==> f.generations[g] == e.generations[g])
            && (f.generations[g].heard == e.generations[g].heard
                || exists m :: f.generations[g].heard == e.generations[g].heard + [m]
                               && (m.Command? ==> e.generations[g].stage == Active && e.current == Some(g)))
  {
    if a.Data? && Live(e, a.g) {
      HeardGrows(session, a.g, e.generations[a.g], a.message, a.publication, a.unused, e.identityHolds);
    }
    var f := Step(session, e, a);
    if f.generations[g].heard != e.generations[g].heard {
      assert f.generations[g].heard == e.generations[g].heard + [a.message];
    }
  }

  lemma HeardGrows(session: nat, g: nat, n: Generation, m: Message, p: Publication, unused: bool,
                    identityHolds: bool)
    ensures var next := Heard(session, g, n, m, p, unused, identityHolds);
            next.Some? ==> next.value.heard == n.heard + [m] && (m.Command? ==> n.stage == Active)
  {
  }

  /** Closed is absorbing: the generation's whole record never changes again. */
  lemma {:induction false} ClosedAbsorbs(session: nat, e: Exec, more: seq<Action>, g: nat)
    requires Inv(session, e) && g < |e.generations| && e.generations[g].stage == Closed
    ensures g < |Run(session, e, more).generations| && Run(session, e, more).generations[g] == e.generations[g]
    decreases |more|
  {
    if more != [] {
      StepInv(session, e, more[0]);
      StepSpares(session, e, more[0], g);
      ClosedAbsorbs(session, Step(session, e, more[0]), more[1..], g);
    }
  }

  /** In every run an active generation has heard exactly one ready message, then one
      acknowledgement, then only commands, each carrying this session, this generation and the
      binding of that ready message; and its initial snapshot had been built. */
  lemma ActiveAfterHandshake(session: nat, actions: seq<Action>, g: nat)
    requires var e := Run(session, Start, actions); g < |e.generations| && e.generations[g].stage == Active
    ensures var n := Run(session, Start, actions).generations[g];
            && |n.heard| >= 2 && n.snapshot != Unbuilt
            && n.heard[0] == Ready(session, g, n.binding) && n.heard[1] == Ack(session, g, n.binding)
            && forall i :: 2 <= i < |n.heard| ==> n.heard[i].Command? && Addressed(session, g, n, n.heard[i])
  {
    RunInv(session, Start, actions);
  }

  /** The snapshot of a generation is settled once the ready message has been heard. */
  lemma {:induction false} SnapshotKept(session: nat, e: Exec, more: seq<Action>, g: nat)
    requires Inv(session, e) && g < |e.generations| && e.generations[g].stage !in {Connecting, Hello}
    ensures var f := Run(session, e, more);
            && g < |f.generations| && f.generations[g].stage !in {Connecting, Hello}
            && f.generations[g].snapshot == e.generations[g].snapshot
    decreases |more|
  {
    if more != [] {
      var f := Step(session, e, more[0]);
      StepInv(session, e, more[0]);
      StepKeepsSnapshot(session, e, more[0], g);
      SnapshotKept(session, f, more[1..], g);
    }
  }

  lemma StepKeepsSnapshot(session: nat, e: Exec, a: Action, g: nat)
    requires g < |e.generations| && e.generations[g].stage !in {Connecting, Hello}
    ensures var f := Step(session, e, a);
            && g < |f.generations| && f.generations[g].stage !in {Connecting, Hello}
            && f.generations[g].snapshot == e.generations[g].snapshot
  {
    match a
    case Data(h, m, p, unused) =>
      if Live(e, h) { HeardKeepsSnapshot(session, h, e.generations[h], m, p, unused, e.identityHolds); }
    case _ =>
  }

  lemma HeardKeepsSnapshot(session: nat, g: nat, n: Generation, m: Message, p: Publication, unused: bool,
                    identityHolds: bool)
    ensures var next := Heard(session, g, n, m, p, unused, identityHolds);
            next.Some? && n.stage !in {Connecting, Hello} ==>
              next.value.snapshot == n.snapshot && next.value.stage !in {Connecting, Hello}
  {
  }

  /** A generation may become active although the queue refused its initial snapshot: from a live
      bootstrap generation that is possible if and only if the snapshot was built and refused, in the
      time until the refusal closes the generation. */
  lemma ActiveWithoutSnapshotIff(session: nat, e: Exec, g: nat)
    requires Inv(session, e) && Live(e, g) && e.generations[g].stage == Bootstrap
    ensures MayActivateUnqueued(session, e, g) <==> e.generations[g].snapshot == Refused
  {
    if e.generations[g].snapshot == Refused {
      var more := AckAnyway(session, e, g);
      assert ActiveUnqueued(Run(session, e, more), g);
    }
    if MayActivateUnqueued(session, e, g) {
      var more: seq<Action> :| ActiveUnqueued(Run(session, e, more), g);
      SnapshotKept(session, e, more, g);
      RunInv(session, e, more);
      assert Lawful(session, g, Run(session, e, more).generations[g]);
    }
  }

  ghost predicate MayActivateUnqueued(session: nat, e: Exec, g: nat) {
    exists more: seq<Action> :: ActiveUnqueued(Run(session, e, more), g)
  }

  lemma AckAnyway(session: nat, e: Exec, g: nat) returns (more: seq<Action>)
    requires Live(e, g) && e.generations[g].stage == Bootstrap && e.generations[g].snapshot == Refused
    ensures ActiveUnqueued(Run(session, e, more), g)
  {
    more := [Identity(true), Data(g, Ack(session, g, e.generations[g].binding), Fails, true)];
    var e1 := Step(session, e, more[0]);
    var e2 := Step(session, e1, more[1]);
    assert Run(session, e1, more[1..]) == Run(session, e2, []) by { assert more[1..][1..] == []; }
    assert Run(session, e, more) == e2;
  }

  /** The queue of any run refuses the snapshot exactly if it is larger than a frame or does not fit
      beside what is outstanding in the ordinary share of the budget. */
  lemma RefusedIff(l: Outbox.Limits, actions: seq<Outbox.Action>, size: nat)
    requires Outbox.ValidLimits(l) && Outbox.Run(l, actions).open
    ensures var q := Outbox.Run(l, actions);
            Published(Offers(l, q, size)) == Refused
            <==> size > l.maxFrame || Outbox.Bytes(Outbox.Outstanding(q)) + size > l.maxQueued - l.reserve
  {
  }

  /** From the start: a generation whose snapshot is larger than a frame is live in bootstrap with the
      snapshot refused, and the next acknowledgement activates it. */
  lemma OversizedSnapshotActivates(session: nat, binding: string, l: Outbox.Limits, hello: nat, size: nat)
    requires Outbox.ValidLimits(l) && hello <= l.maxFrame < size
    ensures var q := Outbox.Run(l, [Outbox.Enqueue(hello, false)]);
            var e := Run(session, Start, [Connect, Opened(0), Data(0, Ready(session, 0, binding), Offers(l, q, size), true)]);
            && q.open && Live(e, 0) && e.generations[0].stage == Bootstrap && e.generations[0].snapshot == Refused
            && ActiveUnqueued(Step(session, e, Data(0, Ack(session, 0, binding), Fails, true)), 0)
  {
    var q := Outbox.Run(l, [Outbox.Enqueue(hello, false)]);
    assert [Outbox.Enqueue(hello, false)][..0] == [];
    var actions := [Connect, Opened(0), Data(0, Ready(session, 0, binding), Offers(l, q, size), true)];
    RunThree(session, Start, actions);
  }

  lemma RunThree(session: nat, e: Exec, s: seq<Action>)
    requires |s| == 3
    ensures Run(session, e, s) == Step(session, Step(session, Step(session, e, s[0]), s[1]), s[2])
  {
    var e1 := Step(session, e, s[0]);
    var e2 := Step(session, e1, s[1]);
    var e3 := Step(session, e2, s[2]);
    assert Run(session, e1, s[1..]) == Run(session, e2, s[2..]) by { assert s[1..][1..] == s[2..]; }
    assert Run(session, e2, s[2..]) == Run(session, e3, []) by { assert s[2..][1..] == []; }
  }

  predicate ActiveUnqueued(e: Exec, g: nat) {
    g < |e.generations| && e.generations[g].stage == Active && e.generations[g].snapshot != Queued
  }

  /** A host command is acted on only by the current generation while it is active. */
  lemma CommandsOnlyWhileActive(session: nat, actions: seq<Action>, a: Action, g: nat)
    requires g < |Run(session, Start, actions).generations|
    ensures var e := Run(session, Start, actions); var f := Step(session, e, a);
            g < |f.generations| && |f.generations[g].heard| >= |e.generations[g].heard|
    ensures var e := Run(session, Start, actions); var f := Step(session, e, a);
            forall i :: |e.generations[g].heard| <= i < |f.generations[g].heard| && f.generations[g].heard[i].Command?
              ==> e.generations[g].stage == Active && e.current == Some(g)
  {
    RunInv(session, Start, actions);
    StepSpares(session, Run(session, Start, actions), a, g);
  }

  /** Callbacks of a generation that is no longer current change nothing at all. */
  lemma OldInputIsInert(session: nat, actions: seq<Action>, a: Action)
    requires (a.Opened? || a.Failed? || a.Data? || a.Malformed?)
    requires Run(session, Start, actions).current != Some(a.g)
    ensures Step(session, Run(session, Start, actions), a) == Run(session, Start, actions)
  {
    RunInv(session, Start, actions);
  }

  /** Once terminal or disposed, every generation is closed and none is ever created. */
  lemma {:induction false} TerminalFreezes(session: nat, e: Exec, more: seq<Action>)
    requires Inv(session, e) && (e.terminal || e.disposed)
    ensures var f := Run(session, e, more);
            && f.generations == e.generations && f.terminal
            && forall g :: 0 <= g < |f.generations| ==> f.generations[g].stage == Closed
    decreases |more|
  {
    if more != [] {
      var next := Step(session, e, more[0]);
      StepInv(session, e, more[0]);
      assert next.generations == e.generations && next.terminal;
      TerminalFreezes(session, next, more[1..]);
    }
  }

  // ----- The executor's own fields -----

  /** The executor's closure state, updated by its handlers in the code's own branch order. */
  class Executor {
    const session: nat
    var generations: seq<Generation>
    var current: Option<nat>
    var connecting: Option<nat>
    var terminal: bool
    var disposed: bool
    var identityHolds: bool

    function View(): Exec
      reads this
    {
      Exec(generations, current, connecting, terminal, disposed, identityHolds)
    }

    ghost predicate Valid()
      reads this
    {
      Inv(session, View())
    }

    constructor (session: nat)
      ensures Valid() && View() == Start && this.session == session
    {
      this.session := session;
      generations, current, connecting := [], None, None;
      terminal, disposed, identityHolds := false, false, true;
    }

    method FailGeneration(g: nat, fatal: bool)
      requires g < |generations|
      modifies this
      ensures View() == Fail(old(View()), g, fatal)
    {
      if generations[g].stage == Closed { return; }
      generations := generations[g := generations[g].(stage := Closed)];
      if current == Some(g) { current := None; }
      if fatal { terminal := true; }
    }

    method HandleMessage(g: nat, m: Message, p: Publication, unused: bool)
      requires Valid() && g < |generations|
      modifies this
      ensures Valid() && View() == Step(session, old(View()), Data(g, m, p, unused))
    {
      StepInv(session, View(), Data(g, m, p, unused));
      if generations[g].stage == Closed || current != Some(g) { return; }
      if generations[g].stage == Connecting { FailGeneration(g, true); return; }
      match m {
        case Ready(_, _, _) => HandleReady(g, m, p);
        case Reject(_, _, _, _, _) => HandleReject(g, m);
        case Ack(_, _, _) => HandleAck(g, m);
        case Command(_, _, _, _) => HandleCommand(g, m, unused);
        case Release(_, _, _) => FailGeneration(g, true);
      }
    }

    method HandleReady(g: nat, m: Message, p: Publication)
      requires Live(View(), g) && generations[g].stage != Connecting && m.Ready?
      modifies this
      ensures forall unused :: View() == Receive(session, old(View()), g, m, p, unused)
    {
      var n := generations[g];
      if n.stage != Hello || m.session != session || m.generation != g { FailGeneration(g, true); return; }
      if !identityHolds { FailGeneration(g, true); return; }
      generations := generations[g := n.(binding := m.binding, stage := Bootstrap, snapshot := Published(p), heard := n.heard + [m])];
    }

    method HandleReject(g: nat, m: Message)
      requires Live(View(), g) && generations[g].stage != Connecting && m.Reject?
      modifies this
      ensures forall p, unused :: View() == Receive(session, old(View()), g, m, p, unused)
    {
      var n := generations[g];
      var invalidStage :=
        || (m.about == AtHello && n.stage != Hello)
        || (m.about == AtBootstrap && (n.stage != Bootstrap || m.binding != n.binding))
        || (m.about == AtSnapshot && ((n.stage != Bootstrap && n.stage != Active) || m.binding != n.binding));
      if m.session != session || m.generation != g || invalidStage { FailGeneration(g, true); return; }
      FailGeneration(g, m.version);
    }

    method HandleAck(g: nat, m: Message)
      requires Live(View(), g) && generations[g].stage != Connecting && m.Ack?
      modifies this
      ensures forall p, unused :: View() == Receive(session, old(View()), g, m, p, unused)
    {
      var n := generations[g];
      if n.stage != Bootstrap || n.snapshot == Unbuilt || m.session != session || m.binding != n.binding || m.generation != g {
        FailGeneration(g, true);
        return;
      }
      if !identityHolds { FailGeneration(g, true); return; }
      generations := generations[g := n.(stage := Active, heard := n.heard + [m])];
    }

    method HandleCommand(g: nat, m: Message, unused: bool)
      requires Live(View(), g) && generations[g].stage != Connecting && m.Command?
      modifies this
      ensures forall p :: View() == Receive(session, old(View()), g, m, p, unused)
    {
      var n := generations[g];
      if m.session != session || m.binding != n.binding || m.generation != g { FailGeneration(g, true); return; }
      if n.stage != Active { FailGeneration(g, true); return; }
      if !unused { FailGeneration(g, true); return; }
      generations := generations[g := n.(heard := n.heard + [m])];
    }

    method VerifyLogicalSession() returns (ok: bool)
      requires Valid()
      modifies this
      ensures Valid() && View() == Verify(old(View())) && ok == old(identityHolds)
    {
      if identityHolds { return true; }
      StepInv(session, View(), VerifySession);
      if current.Some? && generations[current.value].stage != Closed { FailGeneration(current.value, true); }
      else { terminal := true; }
      return false;
    }

    method TryConnect()
      requires Valid()
      modifies this
      ensures Valid() && View() == Step(session, old(View()), Connect)
    {
      StepInv(session, View(), Connect);
      if disposed || terminal { return; }
      var ok := VerifyLogicalSession();
      if !ok { return; }
      if current.Some? && generations[current.value].stage != Closed && generations[current.value].stage == Active { return; }
      if connecting.Some? && current.Some? && generations[current.value].stage != Closed { return; }
      current := Some(|generations|);
      connecting := current;
      generations := generations + [Newborn];
    }

    method Dispose()
      requires Valid()
      modifies this
      ensures Valid() && View() == Step(session, old(View()), Action.Dispose)
    {
      StepInv(session, View(), Action.Dispose);
      if disposed { return; }
      disposed := true;
      if current.Some? && generations[current.value].stage != Closed { FailGeneration(current.value, false); }
      terminal := true;
    }
  }
}
