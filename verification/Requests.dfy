/** Requests over a connection that may drop and come back. Connections are numbered; callbacks of old
    connections may arrive at any time. The server, the transport and the caller choose every action;
    listeners do not connect from inside a callback. A request's id is its index in `issued`. */
module Requests {
  import opened Options

  datatype Lifecycle = Disconnected | Connecting(id: nat, transport: bool) | Connected(id: nat)

  type Command = nat

  datatype Issued = Issued(command: Command, connection: nat)

  datatype Outcome = Resolved(command: Command) | ServerError | Mismatch | Unsent | Lost

  /** `settlements` counts how often each request's promise was settled, `outcomes` how it ended;
      `handshakes` does the same for the promises returned by `connect`. */
  datatype Client = Client(
    lifecycle: Lifecycle,
    connections: nat,
    issued: seq<Issued>,
    pending: set<nat>,
    disposed: bool,
    settlements: multiset<nat>,
    outcomes: map<nat, Outcome>,
    handshakes: multiset<nat>)

  const Idle := Client(Disconnected, 0, [], {}, false, multiset{}, map[], multiset{})

  datatype Message = Hello | HelloError | Response(request: nat, ok: bool, command: Command) | Event

  datatype Action =
    | Connect
    | Opened(connection: nat)
    | Data(connection: nat, messages: seq<Message>)
    | Dropped(connection: nat)
    | Request(command: Command, encodes: bool, sends: bool)
    | Disconnect
    | Dispose

  function ConnectionOf(c: Client): Option<nat> {
    match c.lifecycle
    case Disconnected => None
    case Connecting(id, _) => Some(id)
    case Connected(id) => Some(id)
  }

  function Settle(c: Client, r: nat, o: Outcome): Client {
    c.(pending := c.pending - {r}, settlements := c.settlements + multiset{r}, outcomes := c.outcomes[r := o])
  }

  function RejectPending(c: Client): Client {
    c.(pending := {}, settlements := c.settlements + multiset(c.pending),
       outcomes := c.outcomes + Losses(c.pending))
  }

  function Losses(requests: set<nat>): map<nat, Outcome> {
    map r | r in requests :: Lost
  }

  function Fail(c: Client): Client {
    if c.lifecycle.Disconnected? then c
    else
      var d := RejectPending(c).(lifecycle := Disconnected);
      if c.lifecycle.Connecting? then d.(handshakes := c.handshakes + multiset{c.lifecycle.id}) else d
  }

  function Open(c: Client): Client {
    if c.disposed || !c.lifecycle.Disconnected? then c
    else c.(lifecycle := Connecting(c.connections, false), connections := c.connections + 1)
  }

  function Respond(c: Client, r: nat, ok: bool, command: Command): Client {
    if r !in c.pending || |c.issued| <= r then Fail(c)
    else if !ok then Settle(c, r, ServerError)
    else if command != c.issued[r].command then Fail(Settle(c, r, Mismatch))
    else Settle(c, r, Resolved(command))
  }

  function Handle(c: Client, m: Message): Client {
    match c.lifecycle
    case Disconnected => c
    case Connecting(id, _) =>
      if m.Hello? then c.(lifecycle := Connected(id), handshakes := c.handshakes + multiset{id}) else Fail(c)
    case Connected(_) =>
      (match m
       case Response(r, ok, command) => Respond(c, r, ok, command)
       case Event => c
       case _ => Fail(c))
  }

  function HandleAll(c: Client, ms: seq<Message>): Client
    decreases |ms|
  {
    if ms == [] then c else HandleAll(Handle(c, ms[0]), ms[1..])
  }

  /** Data of an old connection is ignored; data before the client's own hello is an error. */
  function Receive(c: Client, connection: nat, ms: seq<Message>): Client {
    if ConnectionOf(c) != Some(connection) then c
    else if c.lifecycle == Connecting(connection, false) then Fail(c)
    else HandleAll(c, ms)
  }

  function Issue(c: Client, command: Command, encodes: bool, sends: bool): Client {
    if c.disposed || !c.lifecycle.Connected? then c
    else
      var d := Register(c, command);
      if !encodes then Settle(d, |c.issued|, Unsent) else if !sends then Fail(d) else d
  }

  function Register(c: Client, command: Command): Client
    requires c.lifecycle.Connected?
  {
    c.(issued := c.issued + [Issued(command, c.lifecycle.id)], pending := c.pending + {|c.issued|})
  }

  function Step(c: Client, a: Action): Client {
    match a
    case Connect => Open(c)
    case Opened(id) => if c.lifecycle == Connecting(id, false) then c.(lifecycle := Connecting(id, true)) else c
    case Data(id, ms) => Receive(c, id, ms)
    case Dropped(id) => if ConnectionOf(c) == Some(id) then Fail(c) else c
    case Request(command, encodes, sends) => Issue(c, command, encodes, sends)
    case Disconnect => Fail(c)
    case Dispose => Fail(RejectPending(c.(disposed := true)))
  }

  function Run(c: Client, actions: seq<Action>): Client
    decreases |actions|
  {
    if actions == [] then c else Run(Step(c, actions[0]), actions[1..])
  }

  // ----- Invariant -----

  /** An issued request is pending on the present connection or settled once; any other id is unused. */
  predicate Sound(c: Client, r: nat) {
    if r < |c.issued| then
      && c.settlements[r] == (if r in c.pending then 0 else 1)
      && (r in c.outcomes <==> r !in c.pending)
      && (r in c.outcomes && c.outcomes[r].Resolved? ==> c.outcomes[r].command == c.issued[r].command)
      && (r in c.pending ==> c.lifecycle == Connected(c.issued[r].connection))
      && c.issued[r].connection < c.connections
    else c.settlements[r] == 0 && r !in c.outcomes && r !in c.pending
  }

  predicate HandshakeSound(c: Client, id: nat) {
    c.handshakes[id] == if id < c.connections && !(c.lifecycle.Connecting? && c.lifecycle.id == id) then 1 else 0
  }

  ghost predicate Inv(c: Client) {
    && (forall r: nat :: Sound(c, r))
    && (ConnectionOf(c).Some? ==> ConnectionOf(c).value < c.connections)
    && (forall id: nat :: HandshakeSound(c, id))
  }

  lemma SettleInv(c: Client, r: nat, o: Outcome)
    requires Inv(c) && r < |c.issued| && r in c.pending && (o.Resolved? ==> o.command == c.issued[r].command)
    ensures Inv(Settle(c, r, o))
  {
    var d := Settle(c, r, o);
    forall q: nat
      ensures Sound(d, q)
    {
      assert Sound(c, q);
    }
    HandshakesKept(c, d);
  }

  lemma HandshakesKept(c: Client, d: Client)
    requires forall id: nat :: HandshakeSound(c, id)
    requires d.handshakes == c.handshakes && d.lifecycle == c.lifecycle && d.connections == c.connections
    ensures forall id: nat :: HandshakeSound(d, id)
  {
    forall id: nat
      ensures HandshakeSound(d, id)
    {
      assert HandshakeSound(c, id);
    }
  }

  lemma RejectPendingInv(c: Client)
    requires Inv(c)
    ensures Inv(RejectPending(c))
  {
    var d := RejectPending(c);
    forall q: nat
      ensures Sound(d, q)
    {
      assert Sound(c, q);
    }
    HandshakesKept(c, d);
  }

  lemma FailInv(c: Client)
    requires Inv(c)
    ensures Inv(Fail(c)) && Fail(c).pending == {}
  {
    if !c.lifecycle.Disconnected? {
      var d := Fail(c);
      RejectPendingInv(c);
      forall q: nat
        ensures Sound(d, q)
      {
        assert Sound(RejectPending(c), q);
      }
      forall id: nat
        ensures HandshakeSound(d, id)
      {
        assert HandshakeSound(c, id);
      }
    } else {
      NothingPending(c);
    }
  }

  lemma NothingPending(c: Client)
    requires Inv(c) && !c.lifecycle.Connected?
    ensures c.pending == {}
  {
    assert forall r :: r in c.pending ==> Sound(c, r);
  }

  lemma RespondInv(c: Client, r: nat, ok: bool, command: Command)
    requires Inv(c)
    ensures Inv(Respond(c, r, ok, command))
  {
    FailInv(c);
    assert Sound(c, r);
    if r in c.pending {
      if !ok {
        SettleInv(c, r, ServerError);
      } else if command != c.issued[r].command {
        SettleInv(c, r, Mismatch);
        FailInv(Settle(c, r, Mismatch));
      } else {
        SettleInv(c, r, Resolved(command));
      }
    }
  }

  lemma ConnectedInv(c: Client)
    requires Inv(c) && c.lifecycle.Connecting?
    ensures Inv(Handle(c, Hello))
  {
    var d := Handle(c, Hello);
    NothingPending(c);
    forall q: nat
      ensures Sound(d, q)
    {
      assert Sound(c, q);
    }
    forall id: nat
      ensures HandshakeSound(d, id)
    {
      assert HandshakeSound(c, id);
    }
  }

  lemma HandleInv(c: Client, m: Message)
    requires Inv(c)
    ensures Inv(Handle(c, m))
  {
    match c.lifecycle
    case Disconnected =>
    case Connecting(_, _) =>
      if m.Hello? { ConnectedInv(c); } else { FailInv(c); }
    case Connected(_) =>
      if m.Response? { RespondInv(c, m.request, m.ok, m.command); } else { FailInv(c); }
  }

  lemma {:induction false} HandleAllInv(c: Client, ms: seq<Message>)
    requires Inv(c)
    ensures Inv(HandleAll(c, ms))
    decreases |ms|
  {
    if ms != [] {
      HandleInv(c, ms[0]);
      HandleAllInv(Handle(c, ms[0]), ms[1..]);
    }
  }

  lemma IssueInv(c: Client, command: Command, encodes: bool, sends: bool)
    requires Inv(c)
    ensures Inv(Issue(c, command, encodes, sends))
  {
    if !c.disposed && c.lifecycle.Connected? {
      RegisterInv(c, command);
      SettleInv(Register(c, command), |c.issued|, Unsent);
      FailInv(Register(c, command));
    }
  }

  lemma RegisterInv(c: Client, command: Command)
    requires Inv(c) && c.lifecycle.Connected?
    ensures Inv(Register(c, command))
  {
    var d := Register(c, command);
    forall q: nat
      ensures Sound(d, q)
    {
      assert Sound(c, q);
    }
    HandshakesKept(c, d);
  }

  lemma StepInv(c: Client, a: Action)
    requires Inv(c)
    ensures Inv(Step(c, a))
  {
    match a
    case Connect => OpenInv(c);
    case Opened(id) => OpenedInv(c, id);
    case Data(id, ms) =>
      FailInv(c);
      HandleAllInv(c, ms);
    case Dropped(_) => FailInv(c);
    case Request(command, encodes, sends) => IssueInv(c, command, encodes, sends);
    case Disconnect => FailInv(c);
    case Dispose =>
      DisposedInv(c);
      RejectPendingInv(c.(disposed := true));
      FailInv(RejectPending(c.(disposed := true)));
  }

  /** Changes that touch no request and no handshake. */
  lemma OpenInv(c: Client)
    requires Inv(c)
    ensures Inv(Open(c))
  {
    var d := Open(c);
    if d != c {
      NothingPending(c);
      forall q: nat
        ensures Sound(d, q)
      {
        assert Sound(c, q);
      }
      forall id: nat
        ensures HandshakeSound(d, id)
      {
        assert HandshakeSound(c, id);
      }
    }
  }

  lemma OpenedInv(c: Client, id: nat)
    requires Inv(c)
    ensures Inv(Step(c, Opened(id)))
  {
    var d := Step(c, Opened(id));
    if d != c {
      NothingPending(c);
      forall q: nat
        ensures Sound(d, q)
      {
        assert Sound(c, q);
      }
      forall k: nat
        ensures HandshakeSound(d, k)
      {
        assert HandshakeSound(c, k);
      }
    }
  }

  lemma DisposedInv(c: Client)
    requires Inv(c)
    ensures Inv(c.(disposed := true))
  {
    var d := c.(disposed := true);
    forall q: nat
      ensures Sound(d, q)
    {
      assert Sound(c, q);
    }
    HandshakesKept(c, d);
  }

  lemma {:induction false} RunInv(c: Client, actions: seq<Action>)
    requires Inv(c)
    ensures Inv(Run(c, actions))
    decreases |actions|
  {
    if actions != [] {
      StepInv(c, actions[0]);
      RunInv(Step(c, actions[0]), actions[1..]);
    }
  }

  // ----- What a step may settle -----

  /** Earlier requests and outcomes are kept; a new outcome belongs to a request that was pending. */
  predicate Extends(c: Client, d: Client) {
    && c.issued <= d.issued
    && (forall r :: r in c.outcomes ==> r in d.outcomes && d.outcomes[r] == c.outcomes[r])
    && (forall r :: r in d.outcomes && r !in c.outcomes ==> r in c.pending || |c.issued| <= r)
  }

  lemma FailExtends(c: Client)
    requires Inv(c)
    ensures Extends(c, Fail(c)) && Fail(c).issued == c.issued
  {
    forall r | r in c.pending
      ensures r !in c.outcomes
    {
      assert Sound(c, r);
    }
  }

  lemma SettleExtends(c: Client, r: nat, o: Outcome)
    requires Inv(c) && r < |c.issued| && r in c.pending
    ensures Extends(c, Settle(c, r, o))
  {
    assert Sound(c, r);
  }

  lemma HandleExtends(c: Client, m: Message)
    requires Inv(c)
    ensures Extends(c, Handle(c, m)) && Handle(c, m).issued == c.issued
    ensures Handle(c, m).pending <= c.pending
  {
    FailExtends(c);
    if c.lifecycle.Connected? && m.Response? {
      RespondExtends(c, m.request, m.ok, m.command);
    }
  }

  lemma RespondExtends(c: Client, r: nat, ok: bool, command: Command)
    requires Inv(c)
    ensures var d := Respond(c, r, ok, command); Extends(c, d) && d.issued == c.issued && d.pending <= c.pending
  {
    FailExtends(c);
    if r in c.pending && r < |c.issued| {
      SettleExtends(c, r, if ok then Resolved(command) else ServerError);
      if ok && command != c.issued[r].command {
        SettleExtends(c, r, Mismatch);
        SettleInv(c, r, Mismatch);
        FailExtends(Settle(c, r, Mismatch));
      }
    }
  }

  lemma {:induction false} HandleAllExtends(c: Client, ms: seq<Message>)
    requires Inv(c)
    ensures Extends(c, HandleAll(c, ms)) && HandleAll(c, ms).issued == c.issued
    ensures HandleAll(c, ms).pending <= c.pending
    decreases |ms|
  {
    if ms != [] {
      HandleInv(c, ms[0]);
      HandleExtends(c, ms[0]);
      HandleAllExtends(Handle(c, ms[0]), ms[1..]);
    }
  }

  lemma IssueExtends(c: Client, command: Command, encodes: bool, sends: bool)
    requires Inv(c)
    ensures Extends(c, Issue(c, command, encodes, sends))
  {
    forall r | r in c.pending || r == |c.issued|
      ensures r !in c.outcomes
    {
      assert Sound(c, r);
    }
  }

  lemma StepExtends(c: Client, a: Action)
    requires Inv(c)
    ensures Extends(c, Step(c, a))
  {
    FailExtends(c);
    match a
    case Data(_, ms) => HandleAllExtends(c, ms);
    case Request(command, encodes, sends) => IssueExtends(c, command, encodes, sends);
    case Dispose => DisposeExtends(c);
    case _ =>
  }

  lemma DisposeExtends(c: Client)
    requires Inv(c)
    ensures Extends(c, Step(c, Dispose))
  {
    forall r | r in c.pending
      ensures r !in c.outcomes
    {
      assert Sound(c, r);
    }
  }

  // ----- Whole runs -----

  /** Over every run each request is pending or has been settled exactly once, a resolved one carries
      its own command, and nothing is pending unless the connection is up. */
  lemma SettledExactlyOnce(actions: seq<Action>, r: nat)
    requires r < |Run(Idle, actions).issued|
    ensures var c := Run(Idle, actions);
            && c.settlements[r] == (if r in c.pending then 0 else 1)
            && (r in c.outcomes && c.outcomes[r].Resolved? ==> c.outcomes[r].command == c.issued[r].command)
            && (!c.lifecycle.Connected? ==> c.pending == {})
  {
    RunInv(Idle, actions);
    var c := Run(Idle, actions);
    assert Sound(c, r);
    if !c.lifecycle.Connected? {
      NothingPending(c);
    }
  }

  /** A settled request's outcome is final and its id is never given to another request. */
  lemma {:induction false} OutcomeIsFinal(c: Client, more: seq<Action>, r: nat)
    requires Inv(c)
    ensures var d := Run(c, more);
            c.issued <= d.issued && (r in c.outcomes ==> r in d.outcomes && d.outcomes[r] == c.outcomes[r])
    decreases |more|
  {
    if more != [] {
      StepInv(c, more[0]);
      StepExtends(c, more[0]);
      OutcomeIsFinal(Step(c, more[0]), more[1..], r);
    }
  }

  /** Data settles only requests that were issued on the connection it arrived on. */
  lemma AnsweredByOwnConnection(actions: seq<Action>, connection: nat, ms: seq<Message>, r: nat)
    requires var c := Run(Idle, actions); r !in c.outcomes && r in Step(c, Data(connection, ms)).outcomes
    ensures var c := Run(Idle, actions); r < |c.issued| && c.issued[r].connection == connection
  {
    var c := Run(Idle, actions);
    RunInv(Idle, actions);
    var d := Step(c, Data(connection, ms));
    FailExtends(c);
    HandleAllExtends(c, ms);
    StepInv(c, Data(connection, ms));
    assert Sound(c, r) && Sound(d, r);
  }

  // ----- Why a request ended as it did -----

  /** A message that ends request `r` this way. */
  predicate Answers(m: Message, r: nat, own: Command, o: Outcome) {
    m.Response? && m.request == r &&
    match o
    case Resolved(command) => m.ok && m.command == command == own
    case ServerError => !m.ok
    case Mismatch => m.ok && m.command != own
    case _ => false
  }

  lemma HandleCause(c: Client, m: Message, r: nat)
    requires Inv(c) && r !in c.outcomes && r in Handle(c, m).outcomes
    ensures r < |c.issued| && r in c.pending
    ensures var d := Handle(c, m);
            Answers(m, r, c.issued[r].command, d.outcomes[r]) || (d.outcomes[r] == Lost && d.lifecycle.Disconnected?)
  {
    HandleInv(c, m);
    assert Sound(c, r) && Sound(Handle(c, m), r);
    HandleExtends(c, m);
  }

  lemma {:induction false} HandleAllCause(c: Client, ms: seq<Message>, r: nat)
    requires Inv(c) && r !in c.outcomes && r in HandleAll(c, ms).outcomes
    ensures r < |c.issued| && r in c.pending
    ensures var d := HandleAll(c, ms);
            (exists m :: m in ms && Answers(m, r, c.issued[r].command, d.outcomes[r]))
            || (d.outcomes[r] == Lost && d.lifecycle.Disconnected?)
    decreases |ms|
  {
    if ms != [] {
      var next := Handle(c, ms[0]);
      HandleInv(c, ms[0]);
      HandleExtends(c, ms[0]);
      if r in next.outcomes {
        HandleCause(c, ms[0], r);
        HandleAllExtends(next, ms[1..]);
        if next.lifecycle.Disconnected? {
          DownIgnores(next, ms[1..]);
        }
      } else {
        HandleAllCause(next, ms[1..], r);
      }
    }
  }

  /** What a step must have been for `r` to end this way in it. */
  ghost predicate Caused(c: Client, a: Action, r: nat, own: Issued, o: Outcome) {
    match o
    case Lost => Step(c, a).lifecycle.Disconnected?
    case Unsent => a.Request? && !a.encodes && r == |c.issued|
    case _ => a.Data? && a.connection == own.connection && exists m :: m in a.messages && Answers(m, r, own.command, o)
  }

  lemma StepCause(c: Client, a: Action, r: nat)
    requires Inv(c) && r !in c.outcomes && r in Step(c, a).outcomes
    ensures r < |Step(c, a).issued| && Caused(c, a, r, Step(c, a).issued[r], Step(c, a).outcomes[r])
  {
    StepInv(c, a);
    assert Sound(c, r) && Sound(Step(c, a), r);
    match a
    case Data(id, ms) => DataCause(c, id, ms, r);
    case _ =>
  }

  lemma DataCause(c: Client, connection: nat, ms: seq<Message>, r: nat)
    requires Inv(c) && r !in c.outcomes && r in Receive(c, connection, ms).outcomes
    ensures var d := Receive(c, connection, ms);
            r < |d.issued| && Caused(c, Data(connection, ms), r, d.issued[r], d.outcomes[r])
  {
    assert Sound(c, r);
    if c.lifecycle == Connecting(connection, false) {
      FailExtends(c);
    } else {
      HandleAllCause(c, ms, r);
      HandleAllExtends(c, ms);
    }
  }

  /** Read off the actions alone: a request resolves only if data of its own connection carried a
      successful response for its id and its command. */
  lemma {:induction false} ResolvedOnlyByResponse(c: Client, actions: seq<Action>, r: nat)
    requires Inv(c) && r !in c.outcomes
    requires r in Run(c, actions).outcomes && Run(c, actions).outcomes[r].Resolved?
    ensures r < |Run(c, actions).issued|
    ensures var own := Run(c, actions).issued[r];
            exists i :: 0 <= i < |actions| && actions[i].Data? && actions[i].connection == own.connection
                        && Response(r, true, own.command) in actions[i].messages
    decreases |actions|
  {
    var next := Step(c, actions[0]);
    StepInv(c, actions[0]);
    if r in next.outcomes {
      StepCause(c, actions[0], r);
      OutcomeIsFinal(next, actions[1..], r);
    } else {
      ResolvedOnlyByResponse(next, actions[1..], r);
      var own := Run(c, actions).issued[r];
      var j :| 0 <= j < |actions[1..]| && actions[1..][j].Data? && actions[1..][j].connection == own.connection
               && Response(r, true, own.command) in actions[1..][j].messages;
      assert actions[j + 1] == actions[1..][j];
    }
  }

  function Verdict(own: Command, ok: bool, command: Command): Outcome {
    if !ok then ServerError else if command == own then Resolved(command) else Mismatch
  }

  /** The other way: a response to a pending request on its own connection ends it, as an error, as
      resolved, or as a mismatch, whatever follows in the chunk and ever after; only a mismatch takes
      the connection down, and other pending requests are untouched otherwise. */
  lemma ResponseEnds(c: Client, r: nat, ok: bool, command: Command, rest: seq<Message>, more: seq<Action>)
    requires Inv(c) && r in c.pending
    ensures r < |c.issued|
    ensures var o, own := Verdict(c.issued[r].command, ok, command), c.issued[r].connection;
            var one := Handle(c, Response(r, ok, command));
            var d := Run(Step(c, Data(own, [Response(r, ok, command)] + rest)), more);
            && r in d.outcomes && d.outcomes[r] == o
            && one.lifecycle == (if o.Mismatch? then Disconnected else c.lifecycle)
            && (!o.Mismatch? ==> one.pending == c.pending - {r})
  {
    assert Sound(c, r);
    var m, own := Response(r, ok, command), c.issued[r].connection;
    var one := Handle(c, m);
    HandleInv(c, m);
    RespondVerdict(c, r, ok, command);
    assert ([m] + rest)[1..] == rest;
    HandleAllInv(one, rest);
    HandleAllExtends(one, rest);
    OutcomeIsFinal(HandleAll(one, rest), more, r);
  }

  lemma RespondVerdict(c: Client, r: nat, ok: bool, command: Command)
    requires Inv(c) && r in c.pending && r < |c.issued|
    ensures var d, o := Respond(c, r, ok, command), Verdict(c.issued[r].command, ok, command);
            && r in d.outcomes && d.outcomes[r] == o
            && d.lifecycle == (if o.Mismatch? then Disconnected else c.lifecycle)
            && (!o.Mismatch? ==> d.pending == c.pending - {r})
  {
    assert Sound(c, r);
    if ok && command != c.issued[r].command {
      SettleInv(c, r, Mismatch);
      FailExtends(Settle(c, r, Mismatch));
    }
  }

  /** A response to no pending request, or a second hello, takes the connection down; an event does not. */
  lemma StrayMessages(c: Client, m: Message)
    requires c.lifecycle.Connected? && (m.Response? ==> m.request !in c.pending)
    ensures Handle(c, m).lifecycle == if m.Event? then c.lifecycle else Disconnected
  {
  }

  /** A connection that goes down loses every pending request. */
  lemma DownLoses(c: Client, a: Action, r: nat)
    requires Inv(c) && r in c.pending && (a.Disconnect? || a.Dispose? || (a.Dropped? && ConnectionOf(c) == Some(a.connection)))
    ensures var d := Step(c, a); r in d.outcomes && d.outcomes[r] == Lost && d.lifecycle.Disconnected?
  {
    assert Sound(c, r);
  }

  /** On a connected client a request is numbered, bound to the connection, and pending exactly if it
      could be encoded and sent. */
  lemma RequestPends(c: Client, command: Command, encodes: bool, sends: bool)
    requires Inv(c) && c.lifecycle.Connected? && !c.disposed
    ensures var d, r := Step(c, Request(command, encodes, sends)), |c.issued|;
            && d.issued == c.issued + [Issued(command, c.lifecycle.id)]
            && (r in d.pending <==> encodes && sends)
            && (!encodes ==> r in d.outcomes && d.outcomes[r] == Unsent && d.lifecycle == c.lifecycle)
            && (encodes && !sends ==> r in d.outcomes && d.outcomes[r] == Lost && d.lifecycle.Disconnected?)
  {
    assert Sound(c, |c.issued|);
  }

  /** Connecting takes a transport and then the server's hello, nothing else. */
  lemma ConnectingWorks(c: Client, m: Message)
    requires Inv(c) && c.lifecycle.Disconnected? && !c.disposed
    ensures var d := Step(c, Connect); var e := Step(d, Opened(c.connections));
            && d.lifecycle == Connecting(c.connections, false) && e.lifecycle == Connecting(c.connections, true)
            && Step(d, Data(c.connections, [m])).lifecycle == Disconnected
            && Step(e, Data(c.connections, [m])).lifecycle == if m.Hello? then Connected(c.connections) else Disconnected
  {
    var e := Step(Step(c, Connect), Opened(c.connections));
    assert [m][1..] == [];
    assert HandleAll(e, [m]) == HandleAll(Handle(e, m), []);
  }

  /** Every promise returned by `connect` is settled exactly once, as soon as its connection is no
      longer connecting. */
  lemma HandshakeSettlesOnce(actions: seq<Action>, id: nat)
    requires id < Run(Idle, actions).connections
    ensures var c := Run(Idle, actions);
            c.handshakes[id] == if c.lifecycle.Connecting? && c.lifecycle.id == id then 0 else 1
  {
    RunInv(Idle, actions);
    assert HandshakeSound(Run(Idle, actions), id);
  }

  // ----- The client object -----

  /** The client's lifecycle and pending table as the code keeps them; `outcomes` holds the state of
      the promises it handed out, which keep their first outcome. */
  class RequestClient {
    var lifecycle: Lifecycle
    var sequence: nat
    var requestSequence: nat
    var pendingRequests: map<nat, Command>
    var disposed: bool
    var outcomes: map<nat, Outcome>
    ghost var client: Client

    ghost predicate Valid()
      reads this
    {
      Inv(client) && Mirrors()
    }

    ghost predicate Mirrors()
      reads this
    {
      && lifecycle == client.lifecycle && sequence == client.connections && disposed == client.disposed
      && requestSequence == |client.issued| && outcomes == client.outcomes
      && pendingRequests.Keys == client.pending
      && (forall r :: r in pendingRequests ==> r < |client.issued| && pendingRequests[r] == client.issued[r].command)
    }

    constructor ()
      ensures Valid() && client == Idle
    {
      lifecycle, sequence, requestSequence := Disconnected, 0, 0;
      pendingRequests, disposed, outcomes := map[], false, map[];
      client := Idle;
    }

    method SettlePromise(r: nat, o: Outcome)
      modifies this`outcomes
      ensures outcomes == if r in old(outcomes) then old(outcomes) else old(outcomes)[r := o]
    {
      if r !in outcomes { outcomes := outcomes[r := o]; }
    }

    /** Empty the table, then reject what it held, in any order. */
    method RejectPendingRequests()
      requires forall r :: r in pendingRequests ==> r !in outcomes
      modifies this`pendingRequests, this`outcomes
      ensures pendingRequests == map[]
      ensures outcomes == old(outcomes) + Losses(old(pendingRequests).Keys)
    {
      var requests := pendingRequests.Keys;
      pendingRequests := map[];
      while requests != {}
        invariant pendingRequests == map[] && requests <= old(pendingRequests).Keys
        invariant forall r :: r in requests ==> r !in outcomes
        invariant outcomes == old(outcomes) + Losses(old(pendingRequests).Keys - requests)
        decreases requests
      {
        var r :| r in requests;
        SettlePromise(r, Lost);
        requests := requests - {r};
      }
      assert old(pendingRequests).Keys - requests == old(pendingRequests).Keys;
    }

    method FailConnection()
      requires Valid()
      modifies this
      ensures Valid() && client == Fail(old(client))
    {
      FailInv(client);
      PendingUnsettled(client);
      if lifecycle.Disconnected? { return; }
      lifecycle := Disconnected;
      RejectPendingRequests();
      client := Fail(client);
    }

    method HandleResponse(r: nat, ok: bool, command: Command)
      requires Valid()
      modifies this
      ensures Valid() && client == Respond(old(client), r, ok, command)
    {
      RespondInv(client, r, ok, command);
      PendingUnsettled(client);
      if r !in pendingRequests { FailConnection(); return; }
      var expected := pendingRequests[r];
      pendingRequests := pendingRequests - {r};
      if !ok {
        SettlePromise(r, ServerError);
        client := Settle(client, r, ServerError);
      } else if command != expected {
        SettleInv(client, r, Mismatch);
        SettlePromise(r, Mismatch);
        client := Settle(client, r, Mismatch);
        FailConnection();
      } else {
        SettlePromise(r, Resolved(command));
        client := Settle(client, r, Resolved(command));
      }
    }

    method HandleMessage(m: Message)
      requires Valid()
      modifies this
      ensures Valid() && client == Handle(old(client), m)
    {
      HandleInv(client, m);
      if lifecycle.Connecting? {
        if !m.Hello? { FailConnection(); return; }
        lifecycle := Connected(lifecycle.id);
        client := Handle(client, m);
      } else if lifecycle.Connected? {
        if m.Response? { HandleResponse(m.request, m.ok, m.command); }
        else if !m.Event? { FailConnection(); }
      }
    }

    /** The messages of one chunk, until the connection goes down. */
    method HandleData(connection: nat, messages: seq<Message>)
      requires Valid()
      modifies this
      ensures Valid() && client == Step(old(client), Data(connection, messages))
    {
      if lifecycle.Disconnected? || lifecycle.id != connection { return; }
      if lifecycle == Connecting(connection, false) { FailConnection(); return; }
      var n := 0;
      while n < |messages|
        invariant n <= |messages| && Valid()
        invariant HandleAll(old(client), messages) == HandleAll(client, messages[n..])
      {
        if lifecycle.Disconnected? {
          DownIgnores(client, messages[n..]);
          return;
        }
        assert messages[n..][1..] == messages[n + 1..];
        HandleMessage(messages[n]);
        n := n + 1;
      }
    }

    method Request(command: Command, encodes: bool, sends: bool)
      requires Valid()
      modifies this
      ensures Valid() && client == Step(old(client), Action.Request(command, encodes, sends))
    {
      if disposed || !lifecycle.Connected? { return; }
      var id := AddPending(command);
      if !encodes {
        SettleInv(client, id, Unsent);
        PendingUnsettled(client);
        pendingRequests := pendingRequests - {id};
        SettlePromise(id, Unsent);
        client := Settle(client, id, Unsent);
      } else if !sends {
        FailConnection();
      }
    }

    method AddPending(command: Command) returns (id: nat)
      requires Valid() && lifecycle.Connected?
      modifies this
      ensures Valid() && client == Register(old(client), command) && id == |old(client).issued|
    {
      RegisterInv(client, command);
      PendingUnsettled(client);
      id := requestSequence;
      requestSequence := requestSequence + 1;
      pendingRequests := pendingRequests[id := command];
      client := Register(client, command);
    }

    method Connect()
      requires Valid()
      modifies this
      ensures Valid() && client == Step(old(client), Action.Connect)
    {
      StepInv(client, Action.Connect);
      if disposed || !lifecycle.Disconnected? { return; }
      lifecycle := Connecting(sequence, false);
      sequence := sequence + 1;
      client := Open(client);
    }
  }

  lemma PendingUnsettled(c: Client)
    requires Inv(c)
    ensures forall r :: r in c.pending ==> r < |c.issued| && r !in c.outcomes
  {
    assert forall r :: r in c.pending ==> Sound(c, r);
  }

  lemma {:induction false} DownIgnores(c: Client, ms: seq<Message>)
    requires c.lifecycle.Disconnected?
    ensures HandleAll(c, ms) == c
    decreases |ms|
  {
    if ms != [] {
      DownIgnores(c, ms[1..]);
    }
  }
}
