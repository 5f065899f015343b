/** The executor's outbound queue of one connection generation, from the moment its transport is
    attached: admission by byte budget with a reserve for control frames, one send at a time, and
    the fate of every accepted frame's promise. `Box` is the specification; class `OutboundQueue`
    keeps the code's own representation (a queue with holes, a head index and a byte counter). */
module Outbox {
  import opened Options

  /** The queue only needs a frame's size and priority; `id` numbers accepted frames. */
  datatype Frame = Frame(id: nat, size: nat, control: bool)

  /** `minAbort` is the protocol's smallest admissible abort-control budget. */
  datatype Limits = Limits(maxQueued: nat, reserve: nat, maxFrame: nat, minAbort: nat)

  /** The bounds that `startBrowserExecutor` enforces. */
  predicate ValidLimits(l: Limits) {
    l.reserve >= l.maxFrame + l.minAbort && l.maxQueued >= l.maxFrame + l.reserve
  }

  datatype Verdict = Accepted(id: nat) | TooLarge | Full | Unavailable

  datatype Box = Box(
    open: bool,
    waiting: seq<Frame>,
    inFlight: Option<Frame>,
    settled: map<nat, bool>,    // promise outcomes: true = resolved
    accepted: seq<Frame>,       // every frame ever accepted
    sent: seq<Frame>,           // every frame handed to the transport
    completed: set<nat>)        // frames whose send returned while the generation was open

  const EmptyBox := Box(true, [], None, map[], [], [], {})

  function Bytes(fs: seq<Frame>): nat {
    if fs == [] then 0 else fs[0].size + Bytes(fs[1..])
  }

  function Ordinary(fs: seq<Frame>): nat {
    if fs == [] then 0 else (if fs[0].control then 0 else fs[0].size) + Ordinary(fs[1..])
  }

  function Outstanding(b: Box): seq<Frame> {
    (if b.inFlight.Some? then [b.inFlight.value] else []) + b.waiting
  }

  /** Admission: size first, then the whole budget, then the ordinary share. */
  function Admit(l: Limits, open: bool, queued: nat, size: nat, control: bool): Option<Verdict> {
    if !open then Some(Unavailable)
    else if size > l.maxFrame || size > l.maxQueued then Some(TooLarge)
    else if queued + size > l.maxQueued || (!control && queued + size > l.maxQueued - l.reserve) then Some(Full)
    else None
  }

  /** Hand the next waiting frame to the transport when none is in flight. */
  function Pump(b: Box): Box {
    if b.open && b.inFlight.None? && b.waiting != [] then
      b.(inFlight := Some(b.waiting[0]), waiting := b.waiting[1..], sent := b.sent + [b.waiting[0]])
    else b
  }

  function Added(b: Box, f: Frame): Box {
    b.(waiting := b.waiting + [f], accepted := b.accepted + [f])
  }

  /** The in-flight frame's send completed. */
  function Finished(b: Box): Box
    requires b.inFlight.Some?
  {
    var id := b.inFlight.value.id;
    b.(inFlight := None, settled := b.settled[id := true], completed := b.completed + {id})
  }

  function Offer(l: Limits, b: Box, size: nat, control: bool): (Box, Verdict) {
    var refusal := Admit(l, b.open, Bytes(Outstanding(b)), size, control);
    if refusal.Some? then (b, refusal.value)
    else
      var f := Frame(|b.accepted|, size, control);
      (Pump(Added(b, f)), Accepted(f.id))
  }

  function RejectAll(settled: map<nat, bool>, fs: seq<Frame>): map<nat, bool>
    decreases |fs|
  {
    if fs == [] then settled
    else RejectAll(if fs[0].id in settled then settled else settled[fs[0].id := false], fs[1..])
  }

  function Close(b: Box): Box {
    if !b.open then b
    else b.(open := false, waiting := [], inFlight := None, settled := RejectAll(b.settled, Outstanding(b)))
  }

  /** The transport's send returns. After the generation closed this changes nothing. */
  function SendReturned(b: Box, ok: bool): Box {
    if !b.open || b.inFlight.None? then b
    else if ok then Pump(Finished(b))
    else Close(b)
  }

  // ----- Invariant -----

  predicate Numbered(fs: seq<Frame>) {
    forall i :: 0 <= i < |fs| ==> fs[i].id == i
  }

  /** Sent frames, then waiting frames, are the accepted frames in order; only the last sent frame is
      unsettled; budgets hold; an open queue never stalls. */
  ghost predicate Inv(l: Limits, b: Box) {
    && Numbered(b.accepted) && b.sent <= b.accepted
    && (forall id :: id in b.settled ==> (b.settled[id] <==> id in b.completed))
    && (forall id :: id in b.completed ==> id in b.settled)
    && if b.open then
         && b.accepted == b.sent + b.waiting
         && (b.inFlight.Some? ==> b.sent != [] && b.inFlight.value == b.sent[|b.sent| - 1])
         && (b.waiting != [] ==> b.inFlight.Some?)
         && (forall id :: id in b.settled <==> 0 <= id < |b.sent| - (if b.inFlight.Some? then 1 else 0))
         && (forall id :: id in b.settled ==> b.settled[id])
         && Bytes(Outstanding(b)) <= l.maxQueued
         && Ordinary(Outstanding(b)) <= l.maxQueued - l.reserve
       else
         b.waiting == [] && b.inFlight.None? && (forall id :: id in b.settled <==> 0 <= id < |b.accepted|)
  }

  lemma {:induction false} BytesAppend(fs: seq<Frame>, gs: seq<Frame>)
    ensures Bytes(fs + gs) == Bytes(fs) + Bytes(gs) && Ordinary(fs + gs) == Ordinary(fs) + Ordinary(gs)
  {
    if fs == [] {
      assert fs + gs == gs;
    } else {
      assert (fs + gs)[1..] == fs[1..] + gs;
      BytesAppend(fs[1..], gs);
    }
  }

  function Controls(fs: seq<Frame>): nat {
    if fs == [] then 0 else (if fs[0].control then fs[0].size else 0) + Controls(fs[1..])
  }

  lemma {:induction false} Shares(fs: seq<Frame>)
    ensures Bytes(fs) == Ordinary(fs) + Controls(fs)
  {
    if fs != [] {
      Shares(fs[1..]);
    }
  }

  /** The invariant with no frame in flight, before the next one is handed over. */
  ghost predicate Between(l: Limits, b: Box) {
    && b.open && b.inFlight.None? && Numbered(b.accepted) && b.accepted == b.sent + b.waiting
    && (forall id :: id in b.settled <==> 0 <= id < |b.sent|)
    && (forall id :: id in b.settled ==> b.settled[id] && id in b.completed)
    && (forall id :: id in b.completed ==> id in b.settled)
    && Bytes(b.waiting) <= l.maxQueued && Ordinary(b.waiting) <= l.maxQueued - l.reserve
  }

  lemma PumpInv(l: Limits, b: Box)
    requires Between(l, b)
    ensures Inv(l, Pump(b))
  {
    if b.waiting == [] {
      assert Outstanding(b) == b.waiting;
    } else {
      PumpNext(l, b, b.waiting[0], b.waiting[1..]);
    }
  }

  lemma PumpNext(l: Limits, b: Box, f: Frame, rest: seq<Frame>)
    requires Between(l, b) && b.waiting == [f] + rest
    ensures Inv(l, b.(inFlight := Some(f), waiting := rest, sent := b.sent + [f]))
  {
    var c := b.(inFlight := Some(f), waiting := rest, sent := b.sent + [f]);
    assert Outstanding(c) == b.waiting;
    assert b.accepted == c.sent + rest;
    assert |c.sent| - 1 == |b.sent|;
  }

  lemma AddedBytes(b: Box, f: Frame)
    ensures Bytes(Outstanding(Added(b, f))) == Bytes(Outstanding(b)) + f.size
    ensures Ordinary(Outstanding(Added(b, f))) == Ordinary(Outstanding(b)) + if f.control then 0 else f.size
  {
    BytesAppend(Outstanding(b), [f]);
    assert Outstanding(Added(b, f)) == Outstanding(b) + [f];
  }

  lemma FinishedBytes(b: Box)
    requires b.inFlight.Some?
    ensures Bytes(Outstanding(Finished(b))) == Bytes(Outstanding(b)) - b.inFlight.value.size
  {
    BytesAppend([b.inFlight.value], b.waiting);
    assert Outstanding(Finished(b)) == b.waiting;
  }

  lemma OfferInv(l: Limits, b: Box, size: nat, control: bool)
    requires Inv(l, b) && ValidLimits(l)
    ensures Inv(l, Offer(l, b, size, control).0)
  {
    var f := Frame(|b.accepted|, size, control);
    if Admit(l, b.open, Bytes(Outstanding(b)), size, control).None? {
      AddedBytes(b, f);
      Shares(Outstanding(b));
      AddedInv(l, b, f);
    }
  }

  lemma AddedInv(l: Limits, b: Box, f: Frame)
    requires Inv(l, b) && b.open && f.id == |b.accepted|
    requires Bytes(Outstanding(Added(b, f))) <= l.maxQueued && Ordinary(Outstanding(Added(b, f))) <= l.maxQueued - l.reserve
    ensures Inv(l, Pump(Added(b, f)))
  {
    var c := Added(b, f);
    assert c.accepted == c.sent + c.waiting;
    if b.inFlight.None? {
      assert Outstanding(c) == c.waiting;
      PumpInv(l, c);
    }
  }

  lemma {:induction false} RejectAllMeaning(settled: map<nat, bool>, fs: seq<Frame>)
    ensures var after := RejectAll(settled, fs);
            && (forall id :: id in after <==> id in settled || exists i :: 0 <= i < |fs| && fs[i].id == id)
            && (forall id :: id in settled ==> id in after && after[id] == settled[id])
            && (forall id :: id in after && id !in settled ==> !after[id])
    decreases |fs|
  {
    if fs != [] {
      var next := if fs[0].id in settled then settled else settled[fs[0].id := false];
      RejectAllMeaning(next, fs[1..]);
      var after := RejectAll(next, fs[1..]);
      assert after == RejectAll(settled, fs);
      forall id
        ensures id in after <==> id in settled || exists i :: 0 <= i < |fs| && fs[i].id == id
      {
        if id in after && id !in settled && id != fs[0].id {
          var i :| 0 <= i < |fs[1..]| && fs[1..][i].id == id;
          assert fs[i + 1].id == id;
        } else if i :| 0 <= i < |fs| && fs[i].id == id && i > 0 {
          assert fs[1..][i - 1].id == id;
        }
      }
    }
  }

  ghost function FrameIds(fs: seq<Frame>): set<nat> {
    set i | 0 <= i < |fs| :: fs[i].id
  }

  /** Rejecting settles exactly the frames given, and changes no earlier outcome. */
  lemma RejectAllKeys(settled: map<nat, bool>, fs: seq<Frame>)
    ensures var after := RejectAll(settled, fs);
            after.Keys == settled.Keys + FrameIds(fs) && forall id :: id in after ==> after[id] == (id in settled && settled[id])
  {
    RejectAllMeaning(settled, fs);
  }

  lemma CloseInv(l: Limits, b: Box)
    requires Inv(l, b)
    ensures Inv(l, Close(b))
  {
    if b.open {
      var fs := Outstanding(b);
      RejectAllMeaning(b.settled, fs);
      forall id
        ensures id in Close(b).settled <==> 0 <= id < |b.accepted|
      {
        if id !in b.settled && 0 <= id < |b.accepted| {
          var i := id - (|b.sent| - (if b.inFlight.Some? then 1 else 0));
          assert fs[i] == b.accepted[id];
        }
        if i :| 0 <= i < |fs| && fs[i].id == id {
          assert fs[i] == b.accepted[i + (|b.sent| - (if b.inFlight.Some? then 1 else 0))];
        }
      }
    }
  }

  lemma SendReturnedInv(l: Limits, b: Box, ok: bool)
    requires Inv(l, b)
    ensures Inv(l, SendReturned(b, ok))
  {
    CloseInv(l, b);
    if b.open && b.inFlight.Some? && ok {
      var f := b.inFlight.value;
      assert Outstanding(b) == [f] + b.waiting;
      BytesAppend([f], b.waiting);
      PumpInv(l, Finished(b));
    }
  }

  // ----- Runs -----

  datatype Action = Enqueue(size: nat, control: bool) | Returned(ok: bool) | Fail

  function Step(l: Limits, b: Box, a: Action): Box {
    match a
    case Enqueue(size, control) => Offer(l, b, size, control).0
    case Returned(ok) => SendReturned(b, ok)
    case Fail => Close(b)
  }

  function Run(l: Limits, actions: seq<Action>): Box {
    if actions == [] then EmptyBox
    else Step(l, Run(l, actions[..|actions| - 1]), actions[|actions| - 1])
  }

  lemma StepInv(l: Limits, b: Box, a: Action)
    requires Inv(l, b) && ValidLimits(l)
    ensures Inv(l, Step(l, b, a))
  {
    match a
    case Enqueue(size, control) => OfferInv(l, b, size, control);
    case Returned(ok) => SendReturnedInv(l, b, ok);
    case Fail => CloseInv(l, b);
  }

  lemma {:induction false} RunInv(l: Limits, actions: seq<Action>)
    requires ValidLimits(l)
    ensures Inv(l, Run(l, actions))
  {
    if actions != [] {
      RunInv(l, actions[..|actions| - 1]);
      StepInv(l, Run(l, actions[..|actions| - 1]), actions[|actions| - 1]);
    }
  }

  /** Over every run frames go out one at a time, in the order they were accepted, none twice. */
  lemma SentInOrder(l: Limits, actions: seq<Action>)
    requires ValidLimits(l)
    ensures var b := Run(l, actions);
            && b.sent <= b.accepted && Numbered(b.accepted)
            && (b.open && b.sent != b.accepted ==> b.sent != [] && b.inFlight == Some(b.sent[|b.sent| - 1]))
  {
    RunInv(l, actions);
  }

  /** Every accepted frame's promise is settled once its send has returned or the generation has
      closed, and it is resolved exactly when the send completed while the generation was open. */
  lemma PromisesSettle(l: Limits, actions: seq<Action>, id: nat)
    requires ValidLimits(l) && id < |Run(l, actions).accepted|
    ensures var b := Run(l, actions);
            && (!b.open ==> id in b.settled)
            && (b.open && id < |b.sent| && b.inFlight != Some(b.sent[id]) ==> id in b.settled)
            && (id in b.settled ==> (b.settled[id] <==> id in b.completed))
            && (id in b.completed ==> id < |b.sent|)
  {
    RunInv(l, actions);
    SettledWasSent(l, actions);
    PromiseSettles(l, Run(l, actions), id);
  }

  lemma PromiseSettles(l: Limits, b: Box, id: nat)
    requires Inv(l, b) && id < |b.accepted|
    ensures !b.open ==> id in b.settled
    ensures b.open && id < |b.sent| && b.inFlight != Some(b.sent[id]) ==> id in b.settled
    ensures id in b.settled ==> (b.settled[id] <==> id in b.completed)
  {
  }

  lemma {:induction false} SettledWasSent(l: Limits, actions: seq<Action>)
    requires ValidLimits(l)
    ensures forall id :: id in Run(l, actions).completed ==> id < |Run(l, actions).sent|
  {
    if actions != [] {
      SettledWasSent(l, actions[..|actions| - 1]);
      RunInv(l, actions[..|actions| - 1]);
    }
  }

  /** Frame `id` is with the transport of an open generation. */
  predicate AtTransport(b: Box, id: nat) {
    b.open && b.inFlight.Some? && b.inFlight.value.id == id
  }

  predicate Resolved(b: Box, id: nat) {
    id in b.settled && b.settled[id]
  }

  lemma StepResolves(l: Limits, b: Box, a: Action, id: nat)
    requires Inv(l, b)
    ensures Resolved(Step(l, b, a), id) <==> Resolved(b, id) || (a == Returned(true) && AtTransport(b, id))
  {
    RejectAllMeaning(b.settled, Outstanding(b));
  }

  /** A send that returned while its frame was at the transport of the open generation. */
  ghost predicate SendCompleted(l: Limits, actions: seq<Action>, id: nat) {
    exists k :: 0 <= k < |actions| && actions[k] == Returned(true) && AtTransport(Run(l, actions[..k]), id)
  }

  /** Read off the actions alone: a promise is resolved exactly if its frame's send returned without
      an error while the frame was with the transport of the open generation. */
  lemma {:induction false} ResolvedIffSent(l: Limits, actions: seq<Action>, id: nat)
    requires ValidLimits(l)
    ensures Resolved(Run(l, actions), id) <==> SendCompleted(l, actions, id)
  {
    if actions != [] {
      var n := |actions| - 1;
      ResolvedIffSent(l, actions[..n], id);
      SendCompletedLast(l, actions, id);
      assert Inv(l, Run(l, actions[..n])) by { RunInv(l, actions[..n]); }
      StepResolves(l, Run(l, actions[..n]), actions[n], id);
    }
  }

  lemma SendCompletedLast(l: Limits, actions: seq<Action>, id: nat)
    requires actions != []
    ensures var n := |actions| - 1;
            SendCompleted(l, actions, id)
            <==> SendCompleted(l, actions[..n], id) || (actions[n] == Returned(true) && AtTransport(Run(l, actions[..n]), id))
  {
    var n := |actions| - 1;
    var front := actions[..n];
    assert forall k :: 0 <= k < n ==> front[..k] == actions[..k];
    if SendCompleted(l, front, id) {
      var k :| 0 <= k < n && front[k] == Returned(true) && AtTransport(Run(l, front[..k]), id);
      assert actions[k] == Returned(true) && AtTransport(Run(l, actions[..k]), id);
    }
    if SendCompleted(l, actions, id) {
      var k :| 0 <= k < |actions| && actions[k] == Returned(true) && AtTransport(Run(l, actions[..k]), id);
      if k < n {
        assert front[k] == Returned(true) && AtTransport(Run(l, front[..k]), id);
      }
    }
  }

  /** A send that throws closes the generation and rejects its frame and every frame behind it. */
  lemma FailedSendCloses(l: Limits, actions: seq<Action>, id: nat)
    requires ValidLimits(l)
    requires var b := Run(l, actions); b.open && b.inFlight.Some? && b.inFlight.value.id <= id < |b.accepted|
    ensures var c := Run(l, actions + [Returned(false)]); !c.open && id in c.settled && !c.settled[id]
  {
    var b, all := Run(l, actions), actions + [Returned(false)];
    assert all[..|actions|] == actions;
    RunInv(l, actions);
    StepInv(l, b, Returned(false));
    StepResolves(l, b, Returned(false), id);
  }

  /** A control frame of legal size that fits in what outstanding control frames leave of the reserve
      is never refused, however many ordinary frames are queued. */
  lemma ControlAlwaysFits(l: Limits, actions: seq<Action>, size: nat)
    requires ValidLimits(l) && Run(l, actions).open
    requires size <= l.maxFrame && Controls(Outstanding(Run(l, actions))) + size <= l.reserve
    ensures Offer(l, Run(l, actions), size, true).1.Accepted?
  {
    RunInv(l, actions);
    Shares(Outstanding(Run(l, actions)));
  }
}
