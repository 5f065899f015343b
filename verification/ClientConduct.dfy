/** What each event leaves in the client's cache, and when an acquire makes a request of its own. */
module ClientConduct {
  import opened Options
  import opened ClientState

  // ----- The server's snapshot -----

  /** The greatest server revision to arrive since the last reset. */
  function NewestServer(actions: seq<Action>): Option<nat> {
    if actions == [] then None
    else
      var before, a := NewestServer(actions[..|actions| - 1]), actions[|actions| - 1];
      if a.Reset? then None
      else if a.ServerArrived? && (before.None? || before.value <= a.revision) then Some(a.revision)
      else before
  }

  lemma {:induction false} RunLast(w: World, front: seq<Action>, a: Action)
    ensures Run(w, front + [a]) == Step(Run(w, front), a)
    decreases |front|
  {
    if front == [] {
      assert [] + [a] == [a];
      assert Run(w, [a]) == Run(Step(w, a), []);
    } else {
      RunLast(Step(w, front[0]), front[1..], a);
      assert (front + [a])[1..] == front[1..] + [a];
    }
  }

  lemma StepServer(w: World, a: Action)
    ensures Step(w, a).cache.server
         == if a.Reset? then None
            else if a.ServerArrived? && (w.cache.server.None? || w.cache.server.value <= a.revision) then Some(a.revision)
            else w.cache.server
  {
  }

  /** Over every run the server snapshot is the newest that arrived. */
  lemma {:induction false} ServerIsNewest(actions: seq<Action>)
    ensures Run(Origin, actions).cache.server == NewestServer(actions)
  {
    if actions != [] {
      var front, a := actions[..|actions| - 1], actions[|actions| - 1];
      ServerIsNewest(front);
      assert front + [a] == actions;
      RunLast(Origin, front, a);
      StepServer(Run(Origin, front), a);
    }
  }

  // ----- Sessions -----

  /** Nothing about any other session changes. */
  ghost predicate OnlyAbout(w: World, v: World, id: string) {
    forall other :: other != id ==>
      Lookup(v.cache, other) == Lookup(w.cache, other) && (other in v.cache.attached <==> other in w.cache.attached)
  }

  /** A detach takes the mark away and the stored snapshot says so, with the rest of it untouched. */
  lemma DetachTakesMark(w: World, id: string)
    requires Inv(w)
    ensures var v, before := Step(w, Detached(id)), Lookup(w.cache, id);
            && id !in v.cache.attached && OnlyAbout(w, v, id)
            && Lookup(v.cache, id) == (if before.Some? then Some(Snapshot(id, before.value.revision, false, before.value.body)) else None)
  {
  }

  /** A removed session leaves neither mark nor snapshot. */
  lemma RemovalForgets(w: World, id: string)
    ensures var v := Step(w, Removed(id));
            id !in v.cache.attached && Lookup(v.cache, id) == None && OnlyAbout(w, v, id)
  {
  }

  /** A snapshot is taken in exactly if the stored one is not newer, with its mark. */
  lemma ArrivalIff(w: World, s: Snapshot)
    ensures var v, before := Step(w, Arrived(s)), Lookup(w.cache, s.id);
            && OnlyAbout(w, v, s.id)
            && if before.None? || before.value.revision <= s.revision
               then Lookup(v.cache, s.id) == Some(s) && (s.id in v.cache.attached <==> s.attached)
               else v == w
  {
  }

  /** Losing the connection takes every mark and no snapshot; a reset takes everything. */
  lemma ConnectionLost(w: World)
    ensures var v := Step(w, ClearAttachments); v.cache.attached == {} && v.cache.sessions == w.cache.sessions && v.cache.server == w.cache.server
    ensures Step(w, Reset).cache == EmptyCache
  {
  }

  // ----- Attaching -----

  /** Some acquire of the session still waits for a shared attach. */
  predicate Shared(w: World, id: string) { id in w.table }

  /** An acquire makes a request of its own exactly if there is none to share, and then the stored
      snapshot is set aside. */
  lemma AcquireIff(w: World, id: string)
    ensures var v := Step(w, Acquire(id));
            if Shared(w, id) then v == w
            else |v.attaches| == |w.attaches| + 1 && v.attaches[|w.attaches|] == Attach(id, Lookup(w.cache, id), true)
                 && Lookup(v.cache, id) == None && Shared(v, id) && OnlyAbout(w, v, id)
                 && (id in v.cache.attached <==> id in w.cache.attached)
  {
  }

  /** A successful attach leaves the cache alone; a failed one puts back what it set aside unless
      something arrived meanwhile. */
  lemma EndDecides(w: World, n: nat, ok: bool)
    requires Inv(w) && n < |w.attaches| && w.attaches[n].open
    ensures var v, a := Step(w, Ended(n, ok)), w.attaches[n];
            && n < |v.attaches| && !v.attaches[n].open && Shared(v, a.id)
            && v.cache.attached == w.cache.attached && v.cache.server == w.cache.server && OnlyAbout(w, v, a.id)
            && Lookup(v.cache, a.id) == if !ok && Lookup(w.cache, a.id).None? then a.held else Lookup(w.cache, a.id)
  {
  }

  /** Once the first of its waiters goes on, an attach that has ended is not shared any longer: the next
      acquire makes a request again. */
  lemma EndedIsNotReused(w: World, id: string)
    requires Inv(w) && Shared(w, id) && !w.attaches[w.table[id]].open
    ensures var v := Step(w, Resumed(w.table[id]));
            !Shared(v, id) && v.cache == w.cache && |Step(v, Acquire(id)).attaches| == |w.attaches| + 1
  {
  }

  /** One still in flight stays shared. */
  lemma OpenIsShared(w: World, n: nat, m: nat)
    requires Inv(w) && n < |w.attaches| && w.attaches[n].open
    ensures Shared(Step(w, Resumed(m)), w.attaches[n].id)
  {
  }
}
