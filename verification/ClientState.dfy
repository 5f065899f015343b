/** The client's snapshot cache: revision-ordered session snapshots, the set of attached sessions and
    the server snapshot, together with the table of attaches in flight. Results and events arrive in
    any order; an attach forgets the session's snapshot and puts it back if it fails. */
module ClientState {
  import opened Options

  datatype Snapshot = Snapshot(id: string, revision: nat, attached: bool, body: nat)

  datatype Cache = Cache(sessions: map<string, Snapshot>, attached: set<string>, server: Option<nat>)

  const EmptyCache := Cache(map[], {}, None)

  function Store(c: Cache, s: Snapshot): Cache {
    c.(sessions := c.sessions[s.id := s], attached := if s.attached then c.attached + {s.id} else c.attached - {s.id})
  }

  /** An older revision than the stored one is ignored. */
  function Apply(c: Cache, s: Snapshot): Cache {
    if s.id in c.sessions && s.revision < c.sessions[s.id].revision then c else Store(c, s)
  }

  function Detach(c: Cache, id: string): Cache {
    var d := c.(attached := c.attached - {id});
    if id in c.sessions then Store(d, c.sessions[id].(attached := false)) else d
  }

  function Remove(c: Cache, id: string): Cache {
    c.(sessions := c.sessions - {id}, attached := c.attached - {id})
  }

  function Forget(c: Cache, id: string): Cache {
    c.(sessions := c.sessions - {id})
  }

  function Restore(c: Cache, s: Snapshot): Cache {
    if s.id in c.sessions then c else c.(sessions := c.sessions[s.id := s])
  }

  function ApplyServer(c: Cache, revision: nat): Cache {
    if c.server.Some? && revision < c.server.value then c else c.(server := Some(revision))
  }

  /** An attach request: what it forgot, and whether it is still in flight. */
  datatype Attach = Attach(id: string, held: Option<Snapshot>, open: bool)

  datatype Action =
    | Arrived(snapshot: Snapshot)
    | Detached(id: string)
    | Removed(id: string)
    | ServerArrived(revision: nat)
    | Acquire(id: string)                // an acquire finds the session not attached
    | Ended(n: nat, ok: bool)            // attach n's request resolves or rejects
    | Resumed(n: nat)                    // an acquire that awaited attach n goes on
    | ClearAttachments
    | Reset

  /** The cache, every attach ever made, and the attach that acquires of a session share. */
  datatype World = World(cache: Cache, attaches: seq<Attach>, table: map<string, nat>)

  const Origin := World(EmptyCache, [], map[])

  function Lookup(c: Cache, id: string): Option<Snapshot> {
    if id in c.sessions then Some(c.sessions[id]) else None
  }

  /** Acquires of one session share the attach in flight; only a new one forgets the snapshot. */
  function BeginAttach(w: World, id: string): World {
    if id in w.table then w
    else World(Forget(w.cache, id), w.attaches + [Attach(id, Lookup(w.cache, id), true)], w.table[id := |w.attaches|])
  }

  function EndAttach(w: World, n: nat, ok: bool): World
    requires n < |w.attaches|
  {
    var a := w.attaches[n];
    w.(cache := if !ok && a.held.Some? then Restore(w.cache, a.held.value) else w.cache,
       attaches := w.attaches[n := a.(open := false)])
  }

  function Step(w: World, a: Action): World {
    match a
    case Arrived(s) => w.(cache := Apply(w.cache, s))
    case Detached(id) => w.(cache := Detach(w.cache, id))
    case Removed(id) => w.(cache := Remove(w.cache, id))
    case ServerArrived(r) => w.(cache := ApplyServer(w.cache, r))
    case Acquire(id) => BeginAttach(w, id)
    case Ended(n, ok) => if n < |w.attaches| && w.attaches[n].open then EndAttach(w, n, ok) else w
    case Resumed(n) =>
      if n < |w.attaches| && !w.attaches[n].open && w.attaches[n].id in w.table && w.table[w.attaches[n].id] == n
      then w.(table := w.table - {w.attaches[n].id}) else w
    case ClearAttachments => w.(cache := w.cache.(attached := {}))
    case Reset => w.(cache := EmptyCache)
  }

  function Run(w: World, actions: seq<Action>): World
    decreases |actions|
  {
    if actions == [] then w else Run(Step(w, actions[0]), actions[1..])
  }

  /** An attach in flight is the one its session's acquires share. */
  predicate TableInv(w: World) {
    && (forall n :: 0 <= n < |w.attaches| && w.attaches[n].open ==>
          w.attaches[n].id in w.table && w.table[w.attaches[n].id] == n)
    && (forall id :: id in w.table ==> w.table[id] < |w.attaches| && w.attaches[w.table[id]].id == id)
  }

  /** Stored and held under its own id; a marked session's stored snapshot says attached, and so does
      the one that an attach in flight would put back. */
  predicate CacheInv(w: World) {
    && (forall id :: id in w.cache.sessions ==> w.cache.sessions[id].id == id)
    && (forall id :: id in w.cache.attached && id in w.cache.sessions ==> w.cache.sessions[id].attached)
    && (forall n :: 0 <= n < |w.attaches| && w.attaches[n].open && w.attaches[n].held.Some? ==>
          && w.attaches[n].held.value.id == w.attaches[n].id
          && (w.attaches[n].id in w.cache.attached && w.attaches[n].id !in w.cache.sessions ==> w.attaches[n].held.value.attached))
  }

  predicate Inv(w: World) {
    TableInv(w) && CacheInv(w)
  }

  lemma StepTable(w: World, a: Action)
    requires TableInv(w)
    ensures TableInv(Step(w, a))
  {
  }

  lemma AcquireInv(w: World, id: string)
    requires Inv(w)
    ensures CacheInv(BeginAttach(w, id))
  {
  }

  lemma EndInv(w: World, n: nat, ok: bool)
    requires Inv(w) && n < |w.attaches| && w.attaches[n].open
    ensures CacheInv(EndAttach(w, n, ok))
  {
  }

  lemma StepInv(w: World, a: Action)
    requires Inv(w)
    ensures Inv(Step(w, a))
  {
    StepTable(w, a);
    match a
    case Acquire(id) => AcquireInv(w, id);
    case Ended(n, ok) => if n < |w.attaches| && w.attaches[n].open { EndInv(w, n, ok); }
    case _ =>
  }

  lemma {:induction false} RunInv(w: World, actions: seq<Action>)
    requires Inv(w)
    ensures Inv(Run(w, actions))
    decreases |actions|
  {
    if actions != [] {
      StepInv(w, actions[0]);
      RunInv(Step(w, actions[0]), actions[1..]);
    }
  }

  /** Over every run at most one attach per session is in flight. */
  lemma OneAttachInFlight(actions: seq<Action>, i: nat, j: nat)
    requires var w := Run(Origin, actions);
             && i < |w.attaches| && j < |w.attaches| && w.attaches[i].id == w.attaches[j].id
             && w.attaches[i].open && w.attaches[j].open
    ensures i == j
  {
    RunInv(Origin, actions);
  }

  /** Over every run a session marked attached never has a stored snapshot that says otherwise. */
  lemma AttachedAgrees(actions: seq<Action>, id: string)
    requires var c := Run(Origin, actions).cache; id in c.attached && id in c.sessions
    ensures Run(Origin, actions).cache.sessions[id].attached
  {
    RunInv(Origin, actions);
  }

  /** Sharing is what this rests on: two attaches of one session in flight could disagree. */
  lemma OverlappingBracketsDisagree()
    ensures var detached := Snapshot("s", 1, false, 0);
            var c := Restore(Forget(Apply(Forget(Apply(EmptyCache, detached), "s"), Snapshot("s", 2, true, 0)), "s"), detached);
            "s" in c.attached && "s" in c.sessions && !c.sessions["s"].attached
  {
  }

  /** The actions that may lower a session's revision. */
  predicate Drops(a: Action, id: string) {
    a == Acquire(id) || a == Removed(id) || a.Reset?
  }

  /** A session's stored revision never decreases, and the snapshot stays stored, until an explicit
      forget, removal or reset. */
  lemma {:induction false} RevisionNeverDecreases(w: World, actions: seq<Action>, id: string)
    requires Inv(w) && id in w.cache.sessions
    requires forall i :: 0 <= i < |actions| ==> !Drops(actions[i], id)
    ensures var c := Run(w, actions).cache;
            id in c.sessions && c.sessions[id].revision >= w.cache.sessions[id].revision
    decreases |actions|
  {
    if actions != [] {
      assert !Drops(actions[0], id);
      StepInv(w, actions[0]);
      RevisionNeverDecreases(Step(w, actions[0]), actions[1..], id);
    }
  }

  lemma {:induction false} ServerRevisionNeverDecreases(w: World, actions: seq<Action>)
    requires w.cache.server.Some? && forall i :: 0 <= i < |actions| ==> !actions[i].Reset?
    ensures var c := Run(w, actions).cache; c.server.Some? && c.server.value >= w.cache.server.value
    decreases |actions|
  {
    if actions != [] {
      assert !actions[0].Reset?;
      ServerRevisionNeverDecreases(Step(w, actions[0]), actions[1..]);
    }
  }

  // ----- Delivery order -----

  function ApplyAll(c: Cache, ss: seq<Snapshot>): Cache {
    if ss == [] then c else Apply(ApplyAll(c, ss[..|ss| - 1]), ss[|ss| - 1])
  }

  /** Whatever the delivery order, the cache ends with the newest snapshot delivered for the id. */
  lemma {:induction false} NewestWins(ss: seq<Snapshot>, id: string)
    ensures var c := ApplyAll(EmptyCache, ss);
            && (id in c.sessions <==> exists i :: 0 <= i < |ss| && ss[i].id == id)
            && (id in c.sessions ==>
                  && c.sessions[id] in ss && c.sessions[id].id == id
                  && (id in c.attached <==> c.sessions[id].attached)
                  && forall i :: 0 <= i < |ss| && ss[i].id == id ==> ss[i].revision <= c.sessions[id].revision)
  {
    if ss != [] {
      var n := |ss| - 1;
      NewestWins(ss[..n], id);
      var before := ApplyAll(EmptyCache, ss[..n]);
      if id in before.sessions {
        var k :| 0 <= k < n && ss[..n][k] == before.sessions[id];
        assert ss[k] == before.sessions[id];
      }
      if ss[n].id != id {
        assert forall i :: 0 <= i < |ss| && ss[i].id == id ==> i < n && ss[..n][i] == ss[i];
      }
      assert forall i :: 0 <= i < n ==> ss[i] == ss[..n][i];
    }
  }

  /** Two deliveries of the same snapshots in different orders, where a revision names one snapshot,
      leave the same stored snapshot. */
  lemma DeliveryOrderIrrelevant(ss: seq<Snapshot>, ts: seq<Snapshot>, id: string)
    requires forall s :: s in ss <==> s in ts
    requires forall s, t :: s in ss && t in ss && s.id == t.id && s.revision == t.revision ==> s == t
    ensures Lookup(ApplyAll(EmptyCache, ss), id) == Lookup(ApplyAll(EmptyCache, ts), id)
  {
    NewestWins(ss, id);
    NewestWins(ts, id);
    var c, d := ApplyAll(EmptyCache, ss), ApplyAll(EmptyCache, ts);
    if id in c.sessions {
      var k :| 0 <= k < |ts| && ts[k] == c.sessions[id];
      var j :| 0 <= j < |ss| && ss[j] == d.sessions[id];
      assert c.sessions[id].revision == d.sessions[id].revision;
    }
  }

  // ----- The cache object -----

  class ClientState {
    var sessionSnapshots: map<string, Snapshot>
    var attachedSessionIds: set<string>
    var serverRevision: Option<nat>

    function View(): Cache
      reads this
    {
      Cache(sessionSnapshots, attachedSessionIds, serverRevision)
    }

    constructor ()
      ensures View() == EmptyCache
    {
      sessionSnapshots, attachedSessionIds, serverRevision := map[], {}, None;
    }

    method ApplySessionSnapshot(snapshot: Snapshot, force: bool)
      modifies this
      ensures View() == if force then Store(old(View()), snapshot) else Apply(old(View()), snapshot)
    {
      if !force && snapshot.id in sessionSnapshots && snapshot.revision < sessionSnapshots[snapshot.id].revision { return; }
      sessionSnapshots := sessionSnapshots[snapshot.id := snapshot];
      if snapshot.attached { attachedSessionIds := attachedSessionIds + {snapshot.id}; }
      else { attachedSessionIds := attachedSessionIds - {snapshot.id}; }
    }

    method ApplyDetach(id: string)
      requires forall k :: k in sessionSnapshots ==> sessionSnapshots[k].id == k
      modifies this
      ensures View() == Detach(old(View()), id)
    {
      attachedSessionIds := attachedSessionIds - {id};
      if id in sessionSnapshots { ApplySessionSnapshot(sessionSnapshots[id].(attached := false), true); }
    }

    method ApplyRemoved(id: string)
      modifies this
      ensures View() == Remove(old(View()), id)
    {
      sessionSnapshots := sessionSnapshots - {id};
      attachedSessionIds := attachedSessionIds - {id};
    }

    method ApplyServerSnapshot(revision: nat)
      modifies this
      ensures View() == ApplyServer(old(View()), revision)
    {
      if serverRevision.Some? && revision < serverRevision.value { return; }
      serverRevision := Some(revision);
    }

    method ForgetSessionSnapshot(id: string) returns (previous: Option<Snapshot>)
      modifies this
      ensures View() == Forget(old(View()), id) && previous == Lookup(old(View()), id)
    {
      previous := if id in sessionSnapshots then Some(sessionSnapshots[id]) else None;
      sessionSnapshots := sessionSnapshots - {id};
    }

    method RestoreSessionSnapshot(snapshot: Snapshot)
      modifies this
      ensures View() == Restore(old(View()), snapshot)
    {
      if snapshot.id !in sessionSnapshots { sessionSnapshots := sessionSnapshots[snapshot.id := snapshot]; }
    }
  }

  /** A failed attach with nothing in between leaves the cache as it was. */
  lemma FailedAttachUndone(w: World, id: string)
    requires Inv(w) && id !in w.table
    ensures EndAttach(BeginAttach(w, id), |w.attaches|, false).cache == w.cache
  {
    var after := EndAttach(BeginAttach(w, id), |w.attaches|, false);
    assert after.cache.sessions == w.cache.sessions;
  }

  // ----- Reset -----

  /** An attach in flight would put a snapshot of the session back. */
  predicate Haunted(w: World, id: string) {
    exists n :: 0 <= n < |w.attaches| && w.attaches[n].open && w.attaches[n].id == id && w.attaches[n].held.Some?
  }

  predicate Brings(a: Action, id: string) {
    a.Arrived? && a.snapshot.id == id
  }

  predicate NothingBrings(more: seq<Action>, id: string) {
    forall i :: 0 <= i < |more| ==> !Brings(more[i], id)
  }

  lemma {:induction false} StaysGone(w: World, more: seq<Action>, id: string)
    requires Inv(w) && id !in w.cache.sessions && !Haunted(w, id) && NothingBrings(more, id)
    ensures id !in Run(w, more).cache.sessions
    decreases |more|
  {
    if more != [] {
      assert !Brings(more[0], id);
      StepInv(w, more[0]);
      StepGone(w, more[0], id);
      StaysGone(Step(w, more[0]), more[1..], id);
    }
  }

  lemma StepGone(w: World, a: Action, id: string)
    requires Inv(w) && id !in w.cache.sessions && !Haunted(w, id) && !Brings(a, id)
    ensures id !in Step(w, a).cache.sessions && !Haunted(Step(w, a), id)
  {
    var t := Step(w, a);
    forall n | 0 <= n < |t.attaches| && t.attaches[n].open && t.attaches[n].id == id
      ensures t.attaches[n].held.None?
    {
      if n < |w.attaches| {
        assert t.attaches[n] == w.attaches[n];
      }
    }
    if a.Ended? && a.n < |w.attaches| && w.attaches[a.n].open && w.attaches[a.n].held.Some? {
      assert w.attaches[a.n].id != id;
    }
  }

  /** Nothing stored before a reset survives it, whatever happens until the server sends the session
      again, if and only if no attach in flight at the reset holds a snapshot of the session. */
  lemma ResetExact(w: World, id: string)
    requires Inv(w)
    ensures (forall more :: NothingBrings(more, id) ==> id !in Run(Step(w, Reset), more).cache.sessions) <==> !Haunted(w, id)
  {
    var clean := Step(w, Reset);
    StepInv(w, Reset);
    if Haunted(w, id) {
      var n :| 0 <= n < |w.attaches| && w.attaches[n].open && w.attaches[n].id == id && w.attaches[n].held.Some?;
      var more := [Ended(n, false)];
      assert more[1..] == [];
      assert Run(clean, more) == Run(Step(clean, more[0]), []);
      assert NothingBrings(more, id);
      assert id in Run(clean, more).cache.sessions;
    } else {
      forall more | NothingBrings(more, id)
        ensures id !in Run(clean, more).cache.sessions
      {
        StaysGone(clean, more, id);
      }
    }
  }

  /** The consequence: a snapshot of the old connection comes back after the reset, and the new
      connection's snapshot, with its lower revision, is ignored. */
  lemma OldSnapshotShadowsNew(stale: Snapshot, next: Snapshot)
    requires next.id == stale.id && next.revision < stale.revision
    ensures var before := Step(Step(Origin, Arrived(stale)), Acquire(stale.id));
            var t := Step(Step(Step(before, Reset), Ended(0, false)), Arrived(next));
            Lookup(t.cache, next.id) == Some(stale)
  {
  }
}
