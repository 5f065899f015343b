/** The outbound queue as the code keeps it: a growing list whose consumed entries are blanked, a
    head index, a running byte counter and a draining flag. Every method is proved against `Outbox`. */
module OutboundQueues {
  import opened Options
  import opened Outbox

  /** The list is blank before the head and holds exactly the waiting frames from it. */
  predicate Represents(queue: seq<Option<Frame>>, head: nat, waiting: seq<Frame>) {
    && head <= |queue| && |queue| - head == |waiting|
    && (forall i :: 0 <= i < head ==> queue[i].None?)
    && (forall i :: 0 <= i < |waiting| ==> queue[head + i] == Some(waiting[i]))
  }

  lemma RepresentsPush(queue: seq<Option<Frame>>, head: nat, waiting: seq<Frame>, f: Frame)
    requires Represents(queue, head, waiting)
    ensures Represents(queue + [Some(f)], head, waiting + [f])
  {
  }

  lemma RepresentsPop(queue: seq<Option<Frame>>, head: nat, waiting: seq<Frame>)
    requires Represents(queue, head, waiting) && head < |queue|
    ensures waiting != [] && queue[head] == Some(waiting[0]) && Represents(queue[head := None], head + 1, waiting[1..])
  {
    assert queue[head + 0] == Some(waiting[0]);
    forall i | 0 <= i < |waiting[1..]|
      ensures queue[head := None][head + 1 + i] == Some(waiting[1..][i])
    {
      assert queue[head + (i + 1)] == Some(waiting[i + 1]);
    }
  }

  class OutboundQueue {
    const limits: Limits
    var queue: seq<Option<Frame>>
    var queueHead: nat
    var queuedBytes: int
    var draining: bool
    var inFlight: Option<Frame>
    var closed: bool
    var nextId: nat
    var settled: map<nat, bool>
    ghost var box: Box

    /** The unconsumed part of the list is exactly the waiting frames. */
    ghost predicate Mirrors()
      reads this
    {
      Structure() && settled == box.settled
    }

    ghost predicate Structure()
      reads this
    {
      && ValidLimits(limits) && nextId == |box.accepted| && closed == !box.open
      && inFlight == box.inFlight && Represents(queue, queueHead, box.waiting)
    }

    /** The representation is the box's: frames, counter and draining flag. */
    ghost predicate Tracks()
      reads this
    {
      && Mirrors()
      && (!closed ==> queuedBytes == Bytes(Outstanding(box)) && draining == inFlight.Some?)
    }

    ghost predicate Valid()
      reads this
    {
      Tracks() && Inv(limits, box)
    }

    constructor (limits: Limits)
      requires ValidLimits(limits)
      ensures Valid() && this.limits == limits && box == EmptyBox
    {
      this.limits := limits;
      queue, queueHead, queuedBytes, draining, inFlight := [], 0, 0, false, None;
      closed, nextId, settled := false, 0, map[];
      box := EmptyBox;
    }

    method Enqueue(size: nat, control: bool) returns (verdict: Verdict)
      requires Valid()
      modifies this
      ensures Valid() && (box, verdict) == Offer(limits, old(box), size, control)
    {
      OfferInv(limits, box, size, control);
      if closed { return Unavailable; }
      if size > (if limits.maxFrame < limits.maxQueued then limits.maxFrame else limits.maxQueued) { return TooLarge; }
      var ordinaryLimit := limits.maxQueued - limits.reserve;
      if queuedBytes > limits.maxQueued - size || (!control && queuedBytes > ordinaryLimit - size) { return Full; }
      verdict := Accepted(nextId);
      Append(Frame(nextId, size, control));
    }

    method Append(frame: Frame)
      requires Tracks() && !closed && frame.id == nextId
      modifies this
      ensures Tracks() && box == Pump(Added(old(box), frame))
    {
      AddedBytes(box, frame);
      RepresentsPush(queue, queueHead, box.waiting, frame);
      queuedBytes := queuedBytes + frame.size;
      queue := queue + [Some(frame)];
      nextId := nextId + 1;
      box := Added(box, frame);
      DrainWrites();
    }

    /** Start draining unless a send is already under way. */
    method DrainWrites()
      requires Mirrors() && !closed && draining == inFlight.Some? && queuedBytes == Bytes(Outstanding(box))
      modifies this`queue, this`queueHead, this`draining, this`inFlight, this`box
      ensures Tracks() && box == Pump(old(box))
    {
      if draining { return; }
      draining := true;
      Advance();
    }

    /** One round of the draining loop: hand the head to the transport, or stop and compact. */
    method Advance()
      requires Mirrors() && !closed && draining && inFlight.None? && queuedBytes == Bytes(Outstanding(box))
      modifies this`queue, this`queueHead, this`draining, this`inFlight, this`box
      ensures Tracks() && box == Pump(old(box))
    {
      if queueHead < |queue| {
        RepresentsPop(queue, queueHead, box.waiting);
        var entry := queue[queueHead];
        queue := queue[queueHead := None];
        queueHead := queueHead + 1;
        inFlight := entry;
        ghost var was := box;
        box := Pump(box);
        assert Outstanding(box) == Outstanding(was);
      } else {
        assert box.waiting == [];
        queue := [];
        queueHead := 0;
        draining := false;
      }
    }

    /** A promise keeps its first outcome. */
    method Settle(id: nat, resolved: bool)
      modifies this`settled
      ensures settled == if id in old(settled) then old(settled) else old(settled)[id := resolved]
    {
      if id !in settled { settled := settled[id := resolved]; }
    }

    /** The awaited send of `entry` returns or throws. */
    method SendReturned(entry: Frame, ok: bool)
      requires Valid() && (!closed ==> inFlight == Some(entry)) && (closed ==> entry.id in settled)
      modifies this
      ensures Valid() && box == Outbox.SendReturned(old(box), ok)
    {
      SendReturnedInv(limits, box, ok);
      if !ok {
        Settle(entry.id, false);
        FailGeneration();
        draining := false;
      } else if closed {
        draining := false;
      } else {
        Completed(entry);
      }
    }

    method Completed(entry: Frame)
      requires Tracks() && !closed && inFlight == Some(entry) && entry.id !in settled
      modifies this
      ensures Tracks() && box == Outbox.SendReturned(old(box), true)
    {
      FinishedBytes(box);
      Settle(entry.id, true);
      inFlight := None;
      queuedBytes := queuedBytes - entry.size;
      box := Finished(box);
      Advance();
    }

    /** Close the generation: every unsettled promise is rejected. The in-flight frame may have been
        rejected already. */
    method FailGeneration()
      requires Structure()
      requires settled == box.settled
               || (box.open && inFlight.Some? && inFlight.value.id !in box.settled
                   && settled == box.settled[inFlight.value.id := false])
      modifies this
      ensures Tracks() && closed && box == (if old(closed) then old(box) else Close(old(box)))
    {
      if closed { return; }
      closed := true;
      queuedBytes := 0;
      RejectPending();
      queue := [];
      queueHead := 0;
      inFlight := None;
      box := Close(box);
    }

    /** Reject what waits and what is in flight. */
    method RejectPending()
      requires Represents(queue, queueHead, box.waiting) && box.open && inFlight == box.inFlight
      requires settled == box.settled
               || (inFlight.Some? && inFlight.value.id !in box.settled && settled == box.settled[inFlight.value.id := false])
      modifies this`settled
      ensures settled == Close(box).settled
    {
      RejectWaiting();
      if inFlight.Some? { Settle(inFlight.value.id, false); }
      RejectsOutstanding(box, old(settled), settled);
    }

    method RejectWaiting()
      requires Represents(queue, queueHead, box.waiting)
      modifies this`settled
      ensures settled.Keys == old(settled).Keys + FrameIds(box.waiting)
      ensures forall id :: id in settled ==> settled[id] == (id in old(settled) && old(settled)[id])
    {
      var index := queueHead;
      while index < |queue|
        invariant queueHead <= index <= |queue|
        invariant settled.Keys == old(settled).Keys + FrameIds(box.waiting[..index - queueHead])
        invariant forall id :: id in settled ==> settled[id] == (id in old(settled) && old(settled)[id])
      {
        ghost var k := index - queueHead;
        assert queue[queueHead + k] == Some(box.waiting[k]);
        NextFrameId(box.waiting, k);
        if queue[index].Some? { Settle(queue[index].value.id, false); }
        index := index + 1;
      }
      assert box.waiting[..|box.waiting|] == box.waiting;
    }
  }

  lemma NextFrameId(fs: seq<Frame>, k: nat)
    requires k < |fs|
    ensures FrameIds(fs[..k + 1]) == FrameIds(fs[..k]) + {fs[k].id}
  {
    FrameIdsAppend(fs[..k], fs[k]);
    assert fs[..k + 1] == fs[..k] + [fs[k]];
  }

  lemma FrameIdsAppend(fs: seq<Frame>, f: Frame)
    ensures FrameIds(fs + [f]) == FrameIds(fs) + {f.id}
  {
    var all := fs + [f];
    assert all[|fs|] == f;
    assert forall i :: 0 <= i < |fs| ==> all[i] == fs[i];
  }

  /** Any outcome map that rejects exactly the outstanding frames is the specified one. */
  lemma RejectsOutstanding(b: Box, before: map<nat, bool>, after: map<nat, bool>)
    requires b.open
    requires before == b.settled
             || (b.inFlight.Some? && b.inFlight.value.id !in b.settled && before == b.settled[b.inFlight.value.id := false])
    requires after.Keys == before.Keys + FrameIds(b.waiting) + (if b.inFlight.Some? then {b.inFlight.value.id} else {})
    requires forall id :: id in after ==> after[id] == (id in before && before[id])
    ensures after == Close(b).settled
  {
    var fs := Outstanding(b);
    RejectAllKeys(b.settled, fs);
    OutstandingIds(b);
    var spec := RejectAll(b.settled, fs);
    assert after.Keys == spec.Keys;
    assert forall id :: id in spec ==> after[id] == spec[id];
  }

  lemma OutstandingIds(b: Box)
    ensures FrameIds(Outstanding(b)) == FrameIds(b.waiting) + (if b.inFlight.Some? then {b.inFlight.value.id} else {})
  {
    if b.inFlight.Some? {
      var fs := Outstanding(b);
      assert fs[0] == b.inFlight.value;
      assert forall i :: 0 <= i < |b.waiting| ==> fs[i + 1] == b.waiting[i];
      forall id
        ensures id in FrameIds(fs) <==> id == b.inFlight.value.id || id in FrameIds(b.waiting)
      {
        if i :| 0 <= i < |fs| && fs[i].id == id && i > 0 {
          assert b.waiting[i - 1].id == id;
        }
        if i :| 0 <= i < |b.waiting| && b.waiting[i].id == id {
          assert fs[i + 1].id == id;
        }
        assert fs[0].id in FrameIds(fs);
      }
    } else {
      assert Outstanding(b) == b.waiting;
    }
  }
}
