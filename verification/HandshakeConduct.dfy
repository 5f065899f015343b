/** What moves a generation on, what closes it and what ends the executor, over every run. */
module HandshakeConduct {
  import opened Options
  import opened Handshake
  import Outbox

  ghost predicate Reachable(session: nat, e: Exec) {
    exists actions :: e == Run(session, Start, actions)
  }

  lemma ReachableInv(session: nat, e: Exec)
    requires Reachable(session, e)
    ensures Inv(session, e)
  {
    var actions :| e == Run(session, Start, actions);
    RunInv(session, Start, actions);
  }

  // ----- Messages -----

  /** The message continues the conversation so far, and what it needs is in place: the session for
      the handshake, a built snapshot for its acknowledgement, an unused id for a command. */
  predicate Continues(session: nat, g: nat, n: Generation, m: Message, unused: bool, identityHolds: bool) {
    && Conversation(session, g, if n.heard == [] && m.Ready? then m.binding else n.binding, n.heard + [m])
    && (if m.Command? then unused else identityHolds)
    && (m.Ack? ==> n.snapshot != Unbuilt)
  }

  predicate Listening(e: Exec, g: nat) {
    Live(e, g) && e.generations[g].stage != Connecting
  }

  lemma HeardIff(session: nat, g: nat, n: Generation, m: Message, p: Publication, unused: bool, identityHolds: bool)
    requires Lawful(session, g, n) && n.stage != Closed && n.stage != Connecting
    ensures var next := Heard(session, g, n, m, p, unused, identityHolds);
            && (next.Some? <==> Continues(session, g, n, m, unused, identityHolds))
            && (next.Some? ==> next.value.heard == n.heard + [m])
            && (next.Some? && m.Ready? ==> next.value.snapshot == Published(p) && next.value.binding == m.binding)
            && (next.Some? && !m.Ready? ==> next.value.snapshot == n.snapshot && next.value.binding == n.binding)
  {
    var all := n.heard + [m];
    assert all[|n.heard|] == m;
    assert forall i :: 0 <= i < |n.heard| ==> all[i] == n.heard[i];
  }

  /** A message keeps its generation open exactly if it continues the conversation, and is recorded;
      any other closes it. */
  lemma MessageDecides(session: nat, e: Exec, g: nat, m: Message, p: Publication, unused: bool)
    requires Reachable(session, e) && Listening(e, g)
    ensures var n, f := e.generations[g], Step(session, e, Data(g, m, p, unused));
            && |f.generations| == |e.generations|
            && (Live(f, g) <==> Continues(session, g, n, m, unused, e.identityHolds))
            && (Live(f, g) ==> f.generations[g].heard == n.heard + [m] && f.terminal == e.terminal
                               && f.generations[g].stage == if |n.heard| == 0 then Bootstrap else Active)
            && (Live(f, g) && m.Ready? ==> f.generations[g].snapshot == Published(p))
            && (!Live(f, g) ==> f.current.None? && f.generations[g] == n.(stage := Closed))
  {
    ReachableInv(session, e);
    StepInv(session, e, Data(g, m, p, unused));
    HeardIff(session, g, e.generations[g], m, p, unused, e.identityHolds);
  }

  /** A rejection of this generation, at the stage it is about and not for its version. */
  predicate Polite(session: nat, g: nat, n: Generation, m: Message) {
    && m.Reject? && m.session == session && m.generation == g && !m.version
    && match m.about
       case AtHello => n.heard == []
       case AtBootstrap => |n.heard| == 1 && m.binding == n.binding
       case AtSnapshot => n.heard != [] && m.binding == n.binding
  }

  /** A message that closes the generation ends the executor unless it is such a rejection. */
  lemma ClosingDecides(session: nat, e: Exec, g: nat, m: Message, p: Publication, unused: bool)
    requires Reachable(session, e) && Listening(e, g) && !Continues(session, g, e.generations[g], m, unused, e.identityHolds)
    ensures Step(session, e, Data(g, m, p, unused)).terminal <==> !Polite(session, g, e.generations[g], m)
  {
    ReachableInv(session, e);
    HeardIff(session, g, e.generations[g], m, p, unused, e.identityHolds);
  }

  // ----- Connections -----

  /** A new generation begins exactly if the executor is not at its end, its session is the one it
      was started for, and no generation is open. */
  lemma ConnectIff(session: nat, e: Exec)
    requires Reachable(session, e)
    ensures var f := Step(session, e, Connect);
            if !e.terminal && !e.disposed && e.identityHolds && e.current.None?
            then f.generations == e.generations + [Newborn] && f.current == Some(|e.generations|) && !f.terminal
            else |f.generations| == |e.generations|
    ensures !e.disposed && !e.identityHolds ==> Step(session, e, Connect).terminal
    ensures e.identityHolds ==> Step(session, e, Connect).terminal == e.terminal
  {
    ReachableInv(session, e);
  }

  /** An open transport brings the hello, unless the session was lost meanwhile. */
  lemma OpenedDecides(session: nat, e: Exec, g: nat)
    requires Reachable(session, e) && Live(e, g) && e.generations[g].stage == Connecting
    ensures var f := Step(session, e, Opened(g));
            if e.identityHolds then f == Put(e, g, Newborn.(stage := Hello, binding := e.generations[g].binding, snapshot := e.generations[g].snapshot))
            else f.terminal && f.current.None?
  {
    ReachableInv(session, e);
  }

  predicate AllClosed(e: Exec) {
    forall g :: 0 <= g < |e.generations| ==> e.generations[g].stage == Closed
  }

  /** A failure of the open generation closes it; the executor is at its end exactly if it was fatal. */
  lemma FailureDecides(session: nat, e: Exec, g: nat, fatal: bool)
    requires Reachable(session, e) && Live(e, g)
    ensures var f := Step(session, e, Failed(g, fatal)); AllClosed(f) && f.current.None? && (f.terminal <==> fatal)
    ensures var f := Step(session, e, Malformed(g)); AllClosed(f) && f.current.None? && f.terminal
    ensures e.generations[g].stage == Connecting ==>
              forall m, p, unused :: var f := Step(session, e, Data(g, m, p, unused)); AllClosed(f) && f.current.None? && f.terminal
  {
    ReachableInv(session, e);
  }

  /** A lost session ends the executor when it is looked at, and disposal ends it always. */
  lemma EndsTheExecutor(session: nat, e: Exec)
    requires Reachable(session, e)
    ensures var f := Step(session, e, VerifySession);
            if e.identityHolds then f == e else AllClosed(f) && f.terminal && f.current.None?
    ensures var f := Step(session, e, Dispose); AllClosed(f) && f.terminal && f.disposed && f.current.None?
  {
    ReachableInv(session, e);
  }

  /** After a generation was closed without ending the executor, the next attempt gets a new one. */
  lemma ReconnectsAfterRejection(session: nat, e: Exec, g: nat, m: Message, p: Publication, unused: bool)
    requires Reachable(session, e) && Listening(e, g) && e.identityHolds && Polite(session, g, e.generations[g], m)
    ensures var f := Step(session, Step(session, e, Data(g, m, p, unused)), Connect);
            |f.generations| == |e.generations| + 1 && Live(f, |e.generations|)
  {
    ReachableInv(session, e);
    assert !Continues(session, g, e.generations[g], m, unused, e.identityHolds) by {
      HeardIff(session, g, e.generations[g], m, p, unused, e.identityHolds);
    }
    MessageDecides(session, e, g, m, p, unused);
    ClosingDecides(session, e, g, m, p, unused);
  }

  /** From the start, for every session and binding: the handshake completes and a command is heard. */
  lemma HandshakeCompletes(session: nat, binding: string, p: Publication, command: nat)
    requires Published(p) != Unbuilt
    ensures var e := Run(session, Start, [Connect, Opened(0), Data(0, Ready(session, 0, binding), p, true)]);
            var f := Step(session, e, Data(0, Ack(session, 0, binding), Fails, true));
            var h := Step(session, f, Data(0, Command(session, 0, binding, command), Fails, true));
            && Live(h, 0) && h.generations[0].stage == Active && h.generations[0].snapshot == Published(p)
            && h.generations[0].heard == [Ready(session, 0, binding), Ack(session, 0, binding), Command(session, 0, binding, command)]
  {
    var e1 := Step(session, Start, Connect);
    assert e1.generations == [Newborn] && e1.current == Some(0) && e1.identityHolds && !e1.disposed;
    var e2 := Step(session, e1, Opened(0));
    assert e2.generations == [Generation(Hello, "", Unbuilt, [])] && e2.current == Some(0);
    RunThree(session, Start, [Connect, Opened(0), Data(0, Ready(session, 0, binding), p, true)]);
    var e := Step(session, e2, Data(0, Ready(session, 0, binding), p, true));
    assert e.generations[0] == Generation(Bootstrap, binding, Published(p), [] + [Ready(session, 0, binding)]);
    assert [] + [Ready(session, 0, binding)] == [Ready(session, 0, binding)];
  }
}
