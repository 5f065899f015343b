/** Refreshing one provider's model list. Refreshes carry a generation; their publications run one
    after another on the provider's chain, and each re-checks its generation before it touches the
    store and again before it touches memory. Which refresh publishes what, when a store operation
    lands, returns or throws, and when the provider is replaced or deleted is adversarial. */
module ModelCatalog {
  import opened Options

  type Models = seq<nat>

  /** Store effect of a publication: none, deletion, or a write. */
  datatype Persist = Keep | Remove | Write(models: Models)

  datatype Phase = Queued | Storing(landed: bool) | Settled(updated: bool)

  /** `instance` is the provider object whose in-memory list the publication's update assigns. */
  datatype Publication = Publication(generation: nat, instance: nat, persist: Persist, update: Models, phase: Phase)

  datatype Refresh = Refresh(generation: nat, instance: nat)

  datatype Update = Update(generation: nat, instance: nat, models: Models)

  datatype Lane = Lane(
    generation: nat,
    installed: Option<nat>,
    controller: Option<nat>,       // generation of the refresh that may still be aborted
    aborted: set<nat>,             // generations whose signal has fired
    refreshes: seq<Refresh>,
    chain: seq<Publication>,
    begun: seq<nat>,               // generations of store mutations, as they start
    landed: seq<nat>,              // generations of store mutations, as they take effect
    stored: Option<Models>,
    updates: seq<Update>)          // in-memory updates, as they run

  const EmptyLane := Lane(0, None, None, {}, [], [], [], [], None, [])

  datatype Action =
    | Install(instance: nat)
    | Delete
    | Clear
    | Begin
    | Finish(generation: nat)
    | Abort(generation: nat)
    | Publish(refresh: nat, persist: Persist, update: Models)
    | Turn(k: nat)
    | Land(k: nat)
    | Return(k: nat, ok: bool)

  function Supersede(l: Lane): Lane {
    l.(generation := l.generation + 1, controller := None,
       aborted := if l.controller.Some? then l.aborted + {l.controller.value} else l.aborted)
  }

  function BeginRefresh(l: Lane): Lane {
    if l.installed.None? then l
    else
      var s := Supersede(l);
      s.(controller := Some(s.generation), refreshes := s.refreshes + [Refresh(s.generation, s.installed.value)])
  }

  /** A publication goes on only while its signal is quiet and its generation is the newest. */
  predicate Current(l: Lane, p: Publication) {
    p.generation !in l.aborted && p.generation == l.generation
  }

  function SetPhase(l: Lane, k: nat, phase: Phase): Lane
    requires k < |l.chain|
  {
    l.(chain := l.chain[k := l.chain[k].(phase := phase)])
  }

  /** The end of a publication: update memory if it is still current. */
  function Complete(l: Lane, k: nat): Lane
    requires k < |l.chain|
  {
    var p := l.chain[k];
    if Current(l, p) then SetPhase(l, k, Settled(true)).(updates := l.updates + [Update(p.generation, p.instance, p.update)])
    else SetPhase(l, k, Settled(false))
  }

  predicate MyTurn(l: Lane, k: nat) {
    k < |l.chain| && l.chain[k].phase == Queued && (k > 0 ==> l.chain[k - 1].phase.Settled?)
  }

  function TakeTurn(l: Lane, k: nat): Lane
    requires MyTurn(l, k)
  {
    var p := l.chain[k];
    if !Current(l, p) then SetPhase(l, k, Settled(false))
    else if p.persist.Keep? then Complete(l, k)
    else SetPhase(l, k, Storing(false)).(begun := l.begun + [p.generation])
  }

  function LandStore(l: Lane, k: nat): Lane
    requires k < |l.chain|
  {
    var p := l.chain[k];
    SetPhase(l, k, Storing(true))
    .(landed := l.landed + [p.generation], stored := if p.persist.Write? then Some(p.persist.models) else None)
  }

  function Step(l: Lane, a: Action): Lane {
    match a
    case Install(i) => Supersede(l).(installed := Some(i))
    case Delete => Supersede(l).(installed := None)
    case Clear => (if l.installed.Some? || l.controller.Some? then Supersede(l) else l).(installed := None)
    case Begin => BeginRefresh(l)
    case Finish(g) => if l.controller == Some(g) then l.(controller := None) else l
    case Abort(g) => l.(aborted := l.aborted + {g})
    case Publish(r, persist, update) =>
      if r < |l.refreshes|
      then l.(chain := l.chain + [Publication(l.refreshes[r].generation, l.refreshes[r].instance, persist, update, Queued)])
      else l
    case Turn(k) => if MyTurn(l, k) then TakeTurn(l, k) else l
    case Land(k) => if k < |l.chain| && l.chain[k].phase == Storing(false) then LandStore(l, k) else l
    case Return(k, ok) =>
      if k < |l.chain| && l.chain[k].phase.Storing? && (ok ==> l.chain[k].phase.landed) then
        if ok then Complete(l, k) else SetPhase(l, k, Settled(false))
      else l
  }

  function Run(l: Lane, actions: seq<Action>): Lane
    decreases |actions|
  {
    if actions == [] then l else Run(Step(l, actions[0]), actions[1..])
  }

  // ----- Invariant -----

  predicate Sorted(s: seq<nat>) {
    forall i, j :: 0 <= i < j < |s| ==> s[i] <= s[j]
  }

  /** The chain is settled up to one point, then at most one publication is storing, then all wait. */
  predicate ChainInv(chain: seq<Publication>) {
    forall i, j :: 0 <= i < j < |chain| && chain[j].phase != Queued ==> chain[i].phase.Settled?
  }

  predicate StoringAt(chain: seq<Publication>, k: int) {
    0 <= k < |chain| && chain[k].phase.Storing?
  }

  /** Store mutations start and land with non-decreasing generations, and the one in flight, if any,
      is the last that started. */
  ghost predicate StoreInv(l: Lane) {
    && Sorted(l.begun) && Sorted(l.landed)
    && (forall i :: 0 <= i < |l.begun| ==> l.begun[i] <= l.generation)
    && (l.begun == [] ==> l.landed == [])
    && (forall i :: 0 <= i < |l.landed| ==> l.begun != [] && l.landed[i] <= l.begun[|l.begun| - 1])
    && (forall k :: StoringAt(l.chain, k) ==>
          l.begun != [] && l.begun[|l.begun| - 1] == l.chain[k].generation && !l.chain[k].persist.Keep?)
  }

  /** A refresh of the current generation works on the installed provider object. */
  predicate RefreshInv(l: Lane) {
    && (forall r :: 0 <= r < |l.refreshes| ==> l.refreshes[r].generation <= l.generation)
    && (forall r :: 0 <= r < |l.refreshes| && l.refreshes[r].generation == l.generation
          ==> l.installed == Some(l.refreshes[r].instance))
    && (forall k :: 0 <= k < |l.chain| ==> Refresh(l.chain[k].generation, l.chain[k].instance) in l.refreshes)
  }

  predicate UpdateInv(l: Lane) {
    && (forall i :: 0 <= i < |l.updates| ==> l.updates[i].generation <= l.generation)
    && (forall i, j :: 0 <= i < j < |l.updates| ==> l.updates[i].generation <= l.updates[j].generation)
  }

  ghost predicate Inv(l: Lane) {
    ChainInv(l.chain) && StoreInv(l) && RefreshInv(l) && UpdateInv(l)
  }

  /** Without a provider there is nothing to abort, so clearing supersedes every live refresh. */
  predicate InstalledInv(l: Lane) {
    l.installed.None? ==> l.controller.None?
  }

  lemma SupersedeInv(l: Lane, installed: Option<nat>)
    requires Inv(l)
    ensures Inv(Supersede(l).(installed := installed))
  {
    var s := Supersede(l).(installed := installed);
    assert forall k :: StoringAt(s.chain, k) ==> StoringAt(l.chain, k);
    assert forall k :: 0 <= k < |s.chain| ==> Refresh(s.chain[k].generation, s.chain[k].instance) in l.refreshes;
  }

  lemma BeginInv(l: Lane)
    requires Inv(l) && l.installed.Some?
    ensures Inv(BeginRefresh(l))
  {
    SupersedeInv(l, l.installed);
    var s := Supersede(l);
    var t := BeginRefresh(l);
    assert s.(installed := l.installed) == s;
    assert forall k :: StoringAt(t.chain, k) ==> StoringAt(s.chain, k);
    forall k | 0 <= k < |t.chain|
      ensures Refresh(t.chain[k].generation, t.chain[k].instance) in t.refreshes
    {
      assert Refresh(s.chain[k].generation, s.chain[k].instance) in s.refreshes;
    }
  }

  lemma SettleInv(l: Lane, k: nat, ok: bool)
    requires Inv(l) && k < |l.chain| && (MyTurn(l, k) || StoringAt(l.chain, k))
    ensures Inv(SetPhase(l, k, Settled(ok)))
  {
    var s := SetPhase(l, k, Settled(ok));
    assert forall j :: StoringAt(s.chain, j) ==> j != k && StoringAt(l.chain, j);
    SetPhaseRefreshes(l, k, Settled(ok));
  }

  lemma SetPhaseRefreshes(l: Lane, k: nat, phase: Phase)
    requires RefreshInv(l) && k < |l.chain|
    ensures RefreshInv(SetPhase(l, k, phase))
  {
    var s := SetPhase(l, k, phase);
    forall j | 0 <= j < |s.chain|
      ensures Refresh(s.chain[j].generation, s.chain[j].instance) in s.refreshes
    {
      assert Refresh(l.chain[j].generation, l.chain[j].instance) in l.refreshes;
    }
  }

  lemma CompleteInv(l: Lane, k: nat)
    requires Inv(l) && k < |l.chain| && (MyTurn(l, k) || StoringAt(l.chain, k))
    ensures Inv(Complete(l, k))
  {
    SettleInv(l, k, Current(l, l.chain[k]));
    var s := SetPhase(l, k, Settled(Current(l, l.chain[k])));
    var t := Complete(l, k);
    assert t.chain == s.chain && t.begun == s.begun && t.landed == s.landed && t.refreshes == s.refreshes;
    assert forall j :: StoringAt(t.chain, j) ==> StoringAt(s.chain, j);
  }

  lemma StoringInv(l: Lane, k: nat)
    requires Inv(l) && MyTurn(l, k) && Current(l, l.chain[k]) && !l.chain[k].persist.Keep?
    ensures Inv(SetPhase(l, k, Storing(false)).(begun := l.begun + [l.chain[k].generation]))
  {
    var s := SetPhase(l, k, Storing(false)).(begun := l.begun + [l.chain[k].generation]);
    SetPhaseRefreshes(l, k, Storing(false));
    forall j | StoringAt(s.chain, j)
      ensures j == k
    {
    }
    forall i | 0 <= i < |s.landed|
      ensures s.landed[i] <= l.chain[k].generation
    {
      assert s.landed[i] <= l.begun[|l.begun| - 1] <= l.generation;
    }
    assert ChainInv(s.chain);
  }

  lemma LandInv(l: Lane, k: nat)
    requires Inv(l) && StoringAt(l.chain, k)
    ensures Inv(LandStore(l, k))
  {
    var s := LandStore(l, k);
    SetPhaseRefreshes(l, k, Storing(true));
    assert l.begun[|l.begun| - 1] == l.chain[k].generation;
    forall j | StoringAt(s.chain, j)
      ensures s.begun[|s.begun| - 1] == s.chain[j].generation
    {
      assert StoringAt(l.chain, j);
    }
    assert ChainInv(s.chain);
  }

  lemma PublishInv(l: Lane, r: nat, persist: Persist, update: Models)
    requires Inv(l) && r < |l.refreshes|
    ensures Inv(Step(l, Publish(r, persist, update)))
  {
    var s := Step(l, Publish(r, persist, update));
    assert forall j :: StoringAt(s.chain, j) ==> StoringAt(l.chain, j) && s.chain[j] == l.chain[j];
    forall j | 0 <= j < |s.chain|
      ensures Refresh(s.chain[j].generation, s.chain[j].instance) in s.refreshes
    {
      if j < |l.chain| {
        assert Refresh(l.chain[j].generation, l.chain[j].instance) in l.refreshes;
      } else {
        assert s.refreshes[r] == Refresh(s.chain[j].generation, s.chain[j].instance);
      }
    }
    assert ChainInv(s.chain);
  }

  lemma QuietInv(l: Lane, m: Lane)
    requires Inv(l) && m.chain == l.chain && m.generation == l.generation && m.refreshes == l.refreshes
    requires m.begun == l.begun && m.landed == l.landed && m.updates == l.updates && m.installed == l.installed
    ensures Inv(m)
  {
    assert forall k :: StoringAt(m.chain, k) ==> StoringAt(l.chain, k);
  }

  lemma StepInv(l: Lane, a: Action)
    requires Inv(l) && InstalledInv(l)
    ensures Inv(Step(l, a)) && InstalledInv(Step(l, a))
  {
    StepInstalled(l, a);
    match a
    case Install(i) => SupersedeInv(l, Some(i));
    case Delete => SupersedeInv(l, None);
    case Clear => SupersedeInv(l, None);
    case Begin => if l.installed.Some? { BeginInv(l); }
    case Finish(g) => QuietInv(l, Step(l, a));
    case Abort(g) => QuietInv(l, Step(l, a));
    case Publish(r, persist, update) => if r < |l.refreshes| { PublishInv(l, r, persist, update); }
    case Turn(k) =>
      if MyTurn(l, k) {
        if !Current(l, l.chain[k]) {
          SettleInv(l, k, false);
        } else if l.chain[k].persist.Keep? {
          CompleteInv(l, k);
        } else {
          StoringInv(l, k);
        }
      }
    case Land(k) => if k < |l.chain| && l.chain[k].phase == Storing(false) { LandInv(l, k); }
    case Return(k, ok) =>
      if k < |l.chain| && l.chain[k].phase.Storing? && (ok ==> l.chain[k].phase.landed) {
        if ok { CompleteInv(l, k); } else { SettleInv(l, k, false); }
      }
  }

  lemma StepInstalled(l: Lane, a: Action)
    requires InstalledInv(l)
    ensures InstalledInv(Step(l, a))
  {
  }

  lemma {:induction false} RunInv(l: Lane, actions: seq<Action>)
    requires Inv(l) && InstalledInv(l)
    ensures Inv(Run(l, actions)) && InstalledInv(Run(l, actions))
    decreases |actions|
  {
    if actions != [] {
      StepInv(l, actions[0]);
      RunInv(Step(l, actions[0]), actions[1..]);
    }
  }

  // ----- What a publication achieves -----

  /** The in-memory updates that a chain's publications settled as updated stand for, in chain order. */
  function UpdatesOf(chain: seq<Publication>): seq<Update> {
    if chain == [] then []
    else
      var front, p := UpdatesOf(chain[..|chain| - 1]), chain[|chain| - 1];
      if p.phase == Settled(true) then front + [Update(p.generation, p.instance, p.update)] else front
  }

  lemma {:induction false} NoUpdatesFrom(chain: seq<Publication>, k: nat)
    requires k <= |chain| && forall i :: k <= i < |chain| ==> chain[i].phase != Settled(true)
    ensures UpdatesOf(chain) == UpdatesOf(chain[..k])
    decreases |chain|
  {
    if k < |chain| {
      NoUpdatesFrom(chain[..|chain| - 1], k);
      assert chain[..|chain| - 1][..k] == chain[..k];
    } else {
      assert chain[..k] == chain;
    }
  }

  /** Settling the publication whose turn it is: everything after it still waits. */
  lemma UpdatesAfterSettling(chain: seq<Publication>, k: nat, updated: bool)
    requires ChainInv(chain) && k < |chain| && !chain[k].phase.Settled?
    ensures var p := chain[k];
            UpdatesOf(chain[k := p.(phase := Settled(updated))])
            == UpdatesOf(chain) + if updated then [Update(p.generation, p.instance, p.update)] else []
  {
    var p := chain[k].(phase := Settled(updated));
    var after := chain[k := p];
    assert forall i :: k < i < |chain| ==> chain[i].phase == Queued;
    NoUpdatesFrom(chain, k);
    NoUpdatesFrom(after, k + 1);
    assert after[..k + 1][..k] == chain[..k];
    assert UpdatesOf(chain) + [] == UpdatesOf(chain);
  }

  lemma {:induction false} PhaseChangeKeepsUpdates(chain: seq<Publication>, k: nat, phase: Phase)
    requires k < |chain| && chain[k].phase != Settled(true) && phase != Settled(true)
    ensures UpdatesOf(chain[k := chain[k].(phase := phase)]) == UpdatesOf(chain)
    decreases |chain|
  {
    var n := |chain| - 1;
    var after := chain[k := chain[k].(phase := phase)];
    if k == n {
      assert after[..n] == chain[..n];
    } else {
      assert after[..n] == chain[..n][k := chain[..n][k].(phase := phase)];
      PhaseChangeKeepsUpdates(chain[..n], k, phase);
    }
  }

  lemma CompleteRecords(l: Lane, k: nat)
    requires ChainInv(l.chain) && k < |l.chain| && !l.chain[k].phase.Settled? && l.updates == UpdatesOf(l.chain)
    ensures Complete(l, k).updates == UpdatesOf(Complete(l, k).chain)
  {
    UpdatesAfterSettling(l.chain, k, Current(l, l.chain[k]));
    assert UpdatesOf(l.chain) + [] == UpdatesOf(l.chain);
  }

  lemma StepRecords(l: Lane, a: Action)
    requires ChainInv(l.chain) && l.updates == UpdatesOf(l.chain)
    ensures Step(l, a).updates == UpdatesOf(Step(l, a).chain)
  {
    match a
    case Publish(r, persist, update) =>
      var c := Step(l, a).chain;
      if r < |l.refreshes| { assert c[..|c| - 1] == l.chain; }
    case Turn(k) =>
      if MyTurn(l, k) {
        CompleteRecords(l, k);
        PhaseChangeKeepsUpdates(l.chain, k, Settled(false));
        PhaseChangeKeepsUpdates(l.chain, k, Storing(false));
      }
    case Land(k) =>
      if k < |l.chain| && l.chain[k].phase == Storing(false) { PhaseChangeKeepsUpdates(l.chain, k, Storing(true)); }
    case Return(k, ok) =>
      if k < |l.chain| && l.chain[k].phase.Storing? {
        CompleteRecords(l, k);
        PhaseChangeKeepsUpdates(l.chain, k, Settled(false));
      }
    case _ =>
  }

  /** Over every run the in-memory updates are exactly those of the publications settled as updated:
      each once, in chain order, on its own provider object and with its own list. */
  lemma {:induction false} UpdatesAreSettled(l: Lane, actions: seq<Action>)
    requires Inv(l) && InstalledInv(l) && l.updates == UpdatesOf(l.chain)
    ensures Run(l, actions).updates == UpdatesOf(Run(l, actions).chain)
    decreases |actions|
  {
    if actions != [] {
      StepInv(l, actions[0]);
      StepRecords(l, actions[0]);
      UpdatesAreSettled(Step(l, actions[0]), actions[1..]);
    }
  }

  /** A publication whose turn comes is dropped if its refresh is superseded or aborted; otherwise it
      starts its store operation, or with nothing to store it is settled as updated. */
  lemma TurnDecides(l: Lane, k: nat)
    requires MyTurn(l, k)
    ensures var p, m := l.chain[k], Step(l, Turn(k));
            && k < |m.chain|
            && (p.generation != l.generation || p.generation in l.aborted ==> m.chain[k].phase == Settled(false))
            && (p.generation == l.generation && p.generation !in l.aborted ==>
                  m.chain[k].phase == if p.persist.Keep? then Settled(true) else Storing(false))
  {
  }

  /** A store operation that returns settles its publication as updated exactly if it took effect
      without an error and the refresh is still the newest and not aborted. */
  lemma ReturnDecides(l: Lane, k: nat, ok: bool)
    requires k < |l.chain| && l.chain[k].phase.Storing? && (ok ==> l.chain[k].phase.landed)
    ensures var p, m := l.chain[k], Step(l, Return(k, ok));
            && k < |m.chain| && m.chain[k].phase.Settled?
            && (m.chain[k].phase.updated <==> ok && p.generation == l.generation && p.generation !in l.aborted)
  {
  }

  /** Replacing, deleting and refreshing move the generation on, and abort the refresh under way. */
  lemma SupersessionAborts(l: Lane, a: Action)
    requires a.Install? || a.Delete? || (a.Begin? && l.installed.Some?) || (a.Clear? && l.installed.Some?)
    ensures var m := Step(l, a);
            && m.generation == l.generation + 1
            && (l.controller.Some? ==> l.controller.value in m.aborted)
            && m.installed == (match a case Install(i) => Some(i) case Begin => l.installed case _ => None)
  {
  }

  /** A refresh works on the provider that is installed when it begins, under the new generation, and
      everything it publishes joins the end of the chain under that generation. */
  lemma RefreshPublishes(l: Lane, persist: Persist, update: Models)
    requires l.installed.Some?
    ensures var m := Step(l, Begin);
            var n := Step(m, Publish(|l.refreshes|, persist, update));
            n.chain == l.chain + [Publication(l.generation + 1, l.installed.value, persist, update, Queued)]
            && m.controller == Some(l.generation + 1)
  {
  }

  // ----- Whole runs -----

  /** Over every run, store mutations never overlap. */
  lemma StoreNeverOverlaps(actions: seq<Action>, i: nat, j: nat)
    requires StoringAt(Run(EmptyLane, actions).chain, i) && StoringAt(Run(EmptyLane, actions).chain, j)
    ensures i == j
  {
    RunInv(EmptyLane, actions);
  }

  /** Over every run, store mutations start and take effect with non-decreasing generations, and so
      do in-memory updates. */
  lemma GenerationsNeverDecrease(actions: seq<Action>)
    ensures var l := Run(EmptyLane, actions);
            && Sorted(l.begun) && Sorted(l.landed)
            && forall i, j :: 0 <= i < j < |l.updates| ==> l.updates[i].generation <= l.updates[j].generation
  {
    RunInv(EmptyLane, actions);
  }

  /** What one action may do: an in-memory update runs only for the current generation and only on
      the installed provider; a store mutation starts only for the current generation; and one takes
      effect only for the publication already storing. */
  lemma StepTouches(l: Lane, a: Action)
    requires Inv(l)
    ensures var m := Step(l, a);
            && m.generation >= l.generation
            && (m.updates == l.updates
                || exists u :: m.updates == l.updates + [u] && u.generation == l.generation
                               && l.installed == Some(u.instance) && u.generation !in l.aborted)
            && (m.begun == l.begun || m.begun == l.begun + [l.generation])
            && ((m.landed == l.landed && m.stored == l.stored)
                || exists k :: 0 <= k < |l.chain| && l.chain[k].phase == Storing(false)
                               && m.landed == l.landed + [l.chain[k].generation]
                               && (if l.chain[k].persist.Remove? then m.stored.None?
                                   else l.chain[k].persist.Write? && m.stored == Some(l.chain[k].persist.models)))
  {
    match a
    case Turn(k) => if MyTurn(l, k) { CompleteTouches(l, k); }
    case Return(k, ok) => if k < |l.chain| { CompleteTouches(l, k); }
    case _ =>
  }

  lemma CompleteTouches(l: Lane, k: nat)
    requires Inv(l) && k < |l.chain|
    ensures var m := Complete(l, k);
            m.updates == l.updates
            || exists u :: m.updates == l.updates + [u] && u.generation == l.generation
                           && l.installed == Some(u.instance) && u.generation !in l.aborted
  {
    var p := l.chain[k];
    assert Refresh(p.generation, p.instance) in l.refreshes;
    if Current(l, p) {
      assert Complete(l, k).updates == l.updates + [Update(p.generation, p.instance, p.update)];
    }
  }

  function UpdatesBelow(us: seq<Update>, g: nat): seq<Update> {
    if us == [] then []
    else UpdatesBelow(us[..|us| - 1], g) + if us[|us| - 1].generation < g then [us[|us| - 1]] else []
  }

  function CountBelow(s: seq<nat>, g: nat): nat {
    if s == [] then 0 else CountBelow(s[..|s| - 1], g) + if s[|s| - 1] < g then 1 else 0
  }

  /** After a refresh, replacement or deletion moves the generation past `g`, no refresh older than it
      ever updates memory or starts a store mutation again, whatever happens next. */
  lemma {:induction false} SupersededStaysSilent(l: Lane, more: seq<Action>, g: nat)
    requires Inv(l) && InstalledInv(l) && g <= l.generation
    ensures UpdatesBelow(Run(l, more).updates, g) == UpdatesBelow(l.updates, g)
    ensures CountBelow(Run(l, more).begun, g) == CountBelow(l.begun, g)
    decreases |more|
  {
    if more != [] {
      var m := Step(l, more[0]);
      StepInv(l, more[0]);
      StepTouches(l, more[0]);
      if u :| m.updates == l.updates + [u] && u.generation == l.generation {
        assert m.updates[..|m.updates| - 1] == l.updates;
      }
      if m.begun == l.begun + [l.generation] {
        assert m.begun[..|m.begun| - 1] == l.begun;
      }
      SupersededStaysSilent(m, more[1..], g);
    }
  }

  /** No publication older than `g` has a store operation in flight that has yet to take effect. */
  predicate NoStaleStore(l: Lane, g: nat) {
    forall k :: 0 <= k < |l.chain| && l.chain[k].phase == Storing(false) ==> l.chain[k].generation >= g
  }

  lemma NewestStores(l: Lane, a: Action, g: nat)
    requires Inv(l) && g <= l.generation && NoStaleStore(l, g)
    ensures NoStaleStore(Step(l, a), g)
  {
    var m := Step(l, a);
    forall k | 0 <= k < |m.chain| && m.chain[k].phase == Storing(false)
      ensures m.chain[k].generation >= g
    {
      assert l.chain[k].phase == Storing(false) || Current(l, l.chain[k]);
    }
  }

  /** The persistent list: an older publication can change the store after supersession in some
      future exactly when its operation is already in flight and has yet to take effect. */
  lemma StoreFreshIff(l: Lane, g: nat)
    requires Inv(l) && InstalledInv(l) && g <= l.generation
    ensures (forall more :: CountBelow(Run(l, more).landed, g) == CountBelow(l.landed, g)) <==> NoStaleStore(l, g)
  {
    if NoStaleStore(l, g) {
      forall more
        ensures CountBelow(Run(l, more).landed, g) == CountBelow(l.landed, g)
      {
        StoreStaysFresh(l, more, g);
      }
    } else {
      var k :| 0 <= k < |l.chain| && l.chain[k].phase == Storing(false) && l.chain[k].generation < g;
      StaleStoreLands(l, g, k);
    }
  }

  lemma {:induction false} StoreStaysFresh(l: Lane, more: seq<Action>, g: nat)
    requires Inv(l) && InstalledInv(l) && g <= l.generation && NoStaleStore(l, g)
    ensures CountBelow(Run(l, more).landed, g) == CountBelow(l.landed, g)
    decreases |more|
  {
    if more != [] {
      var m := Step(l, more[0]);
      StepInv(l, more[0]);
      StepTouches(l, more[0]);
      if k :| 0 <= k < |l.chain| && l.chain[k].phase == Storing(false) && m.landed == l.landed + [l.chain[k].generation] {
        assert m.landed[..|m.landed| - 1] == l.landed;
      }
      NewestStores(l, more[0], g);
      StoreStaysFresh(m, more[1..], g);
    }
  }

  lemma StaleStoreLands(l: Lane, g: nat, k: nat)
    requires Inv(l) && g <= l.generation && k < |l.chain|
    requires l.chain[k].phase == Storing(false) && l.chain[k].generation < g
    ensures CountBelow(Run(l, [Land(k)]).landed, g) == CountBelow(l.landed, g) + 1
  {
    var m := LandStore(l, k);
    assert Run(l, [Land(k)]) == Run(m, [Land(k)][1..]) == m;
    assert m.landed[..|m.landed| - 1] == l.landed;
  }

  /** A deleted provider's list can reappear in the store: install, refresh, publish, start storing,
      delete, and only then does the write take effect. */
  lemma StaleStoreReachable(models: Models)
    ensures var before := [Install(0), Begin, Publish(0, Write(models), models), Turn(0), Delete];
            var l := Run(EmptyLane, before);
            l.installed.None? && l.stored.None? && Run(EmptyLane, before + [Land(0)]).stored == Some(models)
  {
    var l1 := Step(EmptyLane, Install(0));
    var l2 := Step(l1, Begin);
    var l3 := Step(l2, Publish(0, Write(models), models));
    var l4 := Step(l3, Turn(0));
    var l5 := Step(l4, Delete);
    var l6 := Step(l5, Land(0));
    assert l3.chain == [Publication(2, 0, Write(models), models, Queued)];
    assert l4.chain == [Publication(2, 0, Write(models), models, Storing(false))];
    var before := [Install(0), Begin, Publish(0, Write(models), models), Turn(0), Delete];
    RunSix(EmptyLane, before + [Land(0)], l6);
    RunFive(EmptyLane, before, l5);
  }

  lemma RunFive(l: Lane, s: seq<Action>, m: Lane)
    requires |s| == 5 && m == Step(Step(Step(Step(Step(l, s[0]), s[1]), s[2]), s[3]), s[4])
    ensures Run(l, s) == m
  {
    RunTwo(l, s);
    RunTwo(Step(Step(l, s[0]), s[1]), s[2..]);
    assert s[2..][2..] == [s[4]];
  }

  lemma RunSix(l: Lane, s: seq<Action>, m: Lane)
    requires |s| == 6 && m == Step(Step(Step(Step(Step(Step(l, s[0]), s[1]), s[2]), s[3]), s[4]), s[5])
    ensures Run(l, s) == m
  {
    assert s[1..][1..] == s[2..];
    RunFive(Step(l, s[0]), s[1..], m);
  }

  lemma RunTwo(l: Lane, s: seq<Action>)
    requires |s| >= 2
    ensures Run(l, s) == Run(Step(Step(l, s[0]), s[1]), s[2..])
  {
    assert s[1..][1..] == s[2..];
  }

  // ----- The catalog's own maps -----

  /** `ModelsImpl`: installed providers, generations and abort controllers by provider id. The
      controllers' generation stands for the controller object. */
  class Catalog {
    var providers: map<string, nat>
    var refreshGenerations: map<string, nat>
    var refreshControllers: map<string, nat>
    var aborted: set<(string, nat)>

    function Generation(id: string): nat
      reads this
    {
      if id in refreshGenerations then refreshGenerations[id] else 0
    }

    /** What a provider's lane knows of the catalog. */
    function Slot(id: string): (nat, Option<nat>, Option<nat>)
      reads this
    {
      (Generation(id),
       if id in providers then Some(providers[id]) else None,
       if id in refreshControllers then Some(refreshControllers[id]) else None)
    }

    predicate Matches(id: string, l: Lane)
      reads this
    {
      && Slot(id) == (l.generation, l.installed, l.controller)
      && (forall g :: g in l.aborted ==> (id, g) in aborted)
      && (forall p :: p in aborted && p.0 == id ==> p.1 in l.aborted)
    }

    constructor ()
      ensures forall id :: Matches(id, EmptyLane)
    {
      providers, refreshGenerations, refreshControllers, aborted := map[], map[], map[], {};
    }

    method SupersedeProviderRefresh(id: string) returns (generation: nat)
      modifies this`refreshGenerations, this`refreshControllers, this`aborted
      ensures generation == old(Generation(id)) + 1
      ensures forall l: Lane :: old(Matches(id, l)) ==> Matches(id, Supersede(l))
      ensures forall other, l: Lane :: other != id && old(Matches(other, l)) ==> Matches(other, l)
    {
      generation := Generation(id) + 1;
      refreshGenerations := refreshGenerations[id := generation];
      if id in refreshControllers {
        aborted := aborted + {(id, refreshControllers[id])};
        refreshControllers := refreshControllers - {id};
      }
    }

    method SetProvider(id: string, instance: nat)
      modifies this
      ensures forall l: Lane :: old(Matches(id, l)) ==> Matches(id, Step(l, Install(instance)))
      ensures forall other, l: Lane :: other != id && old(Matches(other, l)) ==> Matches(other, l)
    {
      var _ := SupersedeProviderRefresh(id);
      providers := providers[id := instance];
    }

    method DeleteProvider(id: string)
      modifies this
      ensures forall l: Lane :: old(Matches(id, l)) ==> Matches(id, Step(l, Delete))
      ensures forall other, l: Lane :: other != id && old(Matches(other, l)) ==> Matches(other, l)
    {
      var _ := SupersedeProviderRefresh(id);
      providers := providers - {id};
    }

    /** Supersede whatever is installed or refreshing, in any order, then drop every provider. */
    method ClearProviders()
      modifies this
      ensures providers == map[]
      ensures forall id, l: Lane :: old(Matches(id, l)) ==> Matches(id, Step(l, Clear))
    {
      var ids := providers.Keys + refreshControllers.Keys;
      ghost var all := ids;
      while ids != {}
        invariant ids <= all && providers == old(providers)
        invariant forall id, l: Lane :: old(Matches(id, l)) ==> Matches(id, if id in all && id !in ids then Supersede(l) else l)
        decreases ids
      {
        var id :| id in ids;
        var _ := SupersedeProviderRefresh(id);
        ids := ids - {id};
      }
      providers := map[];
    }

    /** The start of a refresh of an installed provider. */
    method BeginProviderRefresh(id: string) returns (generation: nat)
      requires id in providers
      modifies this
      ensures generation == old(Generation(id)) + 1
      ensures forall l: Lane :: old(Matches(id, l)) ==>
                Matches(id, BeginRefresh(l)) && Refresh(generation, providers[id]) in BeginRefresh(l).refreshes
      ensures forall other, l: Lane :: other != id && old(Matches(other, l)) ==> Matches(other, l)
    {
      generation := SupersedeProviderRefresh(id);
      refreshControllers := refreshControllers[id := generation];
    }

    method FinishRefresh(id: string, generation: nat)
      modifies this`refreshControllers
      ensures forall l: Lane :: old(Matches(id, l)) ==> Matches(id, Step(l, Finish(generation)))
      ensures forall other, l: Lane :: other != id && old(Matches(other, l)) ==> Matches(other, l)
    {
      if id in refreshControllers && refreshControllers[id] == generation {
        refreshControllers := refreshControllers - {id};
      }
    }
  }

  // ----- The merged list -----

  datatype Model = Model(id: string, payload: nat)

  function FindFirst(ms: seq<Model>, id: string): Option<Model> {
    if ms == [] then None else if ms[0].id == id then Some(ms[0]) else FindFirst(ms[1..], id)
  }

  function FindLast(ms: seq<Model>, id: string): Option<Model> {
    if ms == [] then None
    else if ms[|ms| - 1].id == id then Some(ms[|ms| - 1]) else FindLast(ms[..|ms| - 1], id)
  }

  /** The last dynamic entry for an id wins over the baseline. */
  function Overlay(baseline: seq<Model>, dynamic: seq<Model>, id: string): Option<Model> {
    if FindLast(dynamic, id).Some? then FindLast(dynamic, id) else FindFirst(baseline, id)
  }

  predicate NewIds(merged: seq<Model>, n: nat)
    requires n <= |merged|
  {
    forall i, j :: 0 <= i < j < |merged| && n <= j ==> merged[i].id != merged[j].id
  }

  lemma {:induction false} FirstAfterReplace(ms: seq<Model>, k: nat, m: Model, id: string)
    requires k < |ms| && ms[k].id == m.id && (forall i :: 0 <= i < k ==> ms[i].id != m.id)
    ensures FindFirst(ms[k := m], id) == if id == m.id then Some(m) else FindFirst(ms, id)
  {
    if k > 0 {
      assert ms[k := m][1..] == ms[1..][k - 1 := m];
      FirstAfterReplace(ms[1..], k - 1, m, id);
    } else {
      assert ms[k := m][1..] == ms[1..];
    }
  }

  lemma {:induction false} FirstAfterPush(ms: seq<Model>, m: Model, id: string)
    requires forall i :: 0 <= i < |ms| ==> ms[i].id != m.id
    ensures FindFirst(ms + [m], id) == if id == m.id then Some(m) else FindFirst(ms, id)
  {
    if ms != [] {
      assert (ms + [m])[1..] == ms[1..] + [m];
      FirstAfterPush(ms[1..], m, id);
    }
  }

  /** The list a provider shows: every id looks up to its last dynamic entry, or else to the
      baseline; baseline positions and ids are kept; appended ids are new and distinct. */
  method CurrentModels(baseline: seq<Model>, dynamic: seq<Model>) returns (merged: seq<Model>)
    ensures forall id :: FindFirst(merged, id) == Overlay(baseline, dynamic, id)
    ensures |merged| >= |baseline| && NewIds(merged, |baseline|)
    ensures forall i :: 0 <= i < |baseline| ==> merged[i].id == baseline[i].id
  {
    merged := baseline;
    var n := 0;
    while n < |dynamic|
      invariant n <= |dynamic|
      invariant forall id :: FindFirst(merged, id) == Overlay(baseline, dynamic[..n], id)
      invariant |merged| >= |baseline| && NewIds(merged, |baseline|)
      invariant forall i :: 0 <= i < |baseline| ==> merged[i].id == baseline[i].id
    {
      var model := dynamic[n];
      assert dynamic[..n + 1][..n] == dynamic[..n];
      var index := FindIndex(merged, model.id);
      ghost var was := merged;
      if index < |merged| {
        merged := merged[index := model];
      } else {
        merged := merged + [model];
      }
      forall id
        ensures FindFirst(merged, id) == Overlay(baseline, dynamic[..n + 1], id)
      {
        if index < |was| { FirstAfterReplace(was, index, model, id); } else { FirstAfterPush(was, model, id); }
        assert FindFirst(was, id) == Overlay(baseline, dynamic[..n], id);
        assert FindLast(dynamic[..n + 1], id) == if model.id == id then Some(model) else FindLast(dynamic[..n], id);
      }
      n := n + 1;
    }
    assert dynamic[..n] == dynamic;
  }

  method FindIndex(ms: seq<Model>, id: string) returns (k: nat)
    ensures k <= |ms| && (k < |ms| ==> ms[k].id == id) && forall i :: 0 <= i < k ==> ms[i].id != id
  {
    k := 0;
    while k < |ms| && ms[k].id != id
      invariant k <= |ms| && forall i :: 0 <= i < k ==> ms[i].id != id
    {
      k := k + 1;
    }
  }
}
