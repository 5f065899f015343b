/** The lease ledger of one session: a count, at most one exclusive token, and a generation that moves
    on when the session is removed or the connection drops. Acquiring and releasing take several
    steps; a token records how far its acquire or release has come. */
module Leases {
  import opened Options

  datatype Mode = Shared | Exclusive

  /** An acquire remembers the release whose detach request it found in flight and waits for; a handle
      remembers the generation it was created in. */
  datatype Phase = Reserved(after: Option<nat>) | Held(generation: nat) | Releasing(generation: nat) | Released

  datatype Token = Token(mode: Mode, phase: Phase)

  /** `detaching` is the release whose detach request new acquires wait for. */
  datatype Ledger = Ledger(count: nat, exclusive: Option<nat>, generation: nat, attached: bool, tokens: seq<Token>,
                           detaching: Option<nat>)

  const EmptyLedger := Ledger(0, None, 0, false, [], None)

  datatype Action =
    | Reserve(mode: Mode)
    | Grant(t: nat)
    | Abandon(t: nat)
    | Create
    | Release(t: nat)
    | DetachDone(t: nat)
    | DetachFailed(t: nat, relinquish: bool)
    | Removed
    | Disconnected
    | Attachment(attached: bool)

  predicate Free(l: Ledger, mode: Mode) {
    if mode == Exclusive then l.count == 0 else l.exclusive.None?
  }

  /** Append the token that was just reserved. */
  function ReserveLease(l: Ledger, mode: Mode): Ledger {
    if !Free(l, mode) then l
    else l.(count := l.count + 1, tokens := l.tokens + [Token(mode, Reserved(l.detaching))],
            exclusive := if mode == Exclusive then Some(|l.tokens|) else l.exclusive)
  }

  function SetPhase(l: Ledger, t: nat, phase: Phase): Ledger
    requires t < |l.tokens|
  {
    l.(tokens := l.tokens[t := l.tokens[t].(phase := phase)])
  }

  /** Give the lease back: the code decrements whatever count it finds. */
  function ReleaseLease(l: Ledger, t: nat): Ledger
    requires t < |l.tokens|
  {
    SetPhase(l, t, Phase.Released)
    .(count := if l.count <= 1 then 0 else l.count - 1, exclusive := if l.exclusive == Some(t) then None else l.exclusive)
  }

  function GrantLease(l: Ledger, t: nat): Ledger
    requires t < |l.tokens|
  {
    SetPhase(l, t, Held(l.generation))
  }

  /** The detach request of a release settled. */
  function Undetach(l: Ledger, t: nat): Ledger {
    l.(detaching := if l.detaching == Some(t) then None else l.detaching)
  }

  /** Invalidation leaves the requests in flight alone. */
  function Invalidate(l: Ledger): Ledger {
    l.(count := 0, exclusive := None, generation := l.generation + 1)
  }

  predicate Is(l: Ledger, t: nat, phase: Phase) {
    t < |l.tokens| && l.tokens[t].phase == phase
  }

  predicate Acquiring(l: Ledger, t: nat) {
    t < |l.tokens| && l.tokens[t].phase.Reserved?
  }

  /** The detach request that the acquire found in flight has settled. */
  predicate MayGrant(l: Ledger, t: nat)
    requires Acquiring(l, t)
  {
    var after := l.tokens[t].phase.after;
    after.Some? && after.value < |l.tokens| ==> !l.tokens[after.value].phase.Releasing?
  }

  /** What a handle's holder may rely on. */
  predicate Active(l: Ledger, t: nat) {
    Is(l, t, Held(l.generation)) && l.attached
  }

  /** A failed detach keeps the handle, unless its holder gives up; an outdated handle changes nothing. */
  function FailRelease(l: Ledger, t: nat, relinquish: bool): Ledger
    requires t < |l.tokens| && l.tokens[t].phase.Releasing?
  {
    var g := l.tokens[t].phase.generation;
    if g == l.generation && relinquish then ReleaseLease(l, t) else SetPhase(l, t, Held(g))
  }

  function Step(l: Ledger, a: Action): Ledger {
    match a
    case Reserve(mode) => ReserveLease(l, mode)
    case Grant(t) => if Acquiring(l, t) && MayGrant(l, t) then GrantLease(l, t) else l
    case Abandon(t) => if Acquiring(l, t) then ReleaseLease(l, t) else l
    case Create => if Free(l, Exclusive) then GrantLease(ReserveLease(l, Exclusive), |l.tokens|) else l
    case Release(t) =>
      if !Active(l, t) then l
      else if l.count <= 1 then SetPhase(l, t, Releasing(l.generation)).(detaching := Some(t))
      else ReleaseLease(l, t)
    case DetachDone(t) => if t < |l.tokens| && l.tokens[t].phase.Releasing? then Undetach(ReleaseLease(l, t), t) else l
    case DetachFailed(t, relinquish) =>
      if t < |l.tokens| && l.tokens[t].phase.Releasing? then Undetach(FailRelease(l, t, relinquish), t) else l
    case Removed => Invalidate(l).(attached := false)
    case Disconnected => (if l.count > 0 then Invalidate(l) else l).(attached := false)
    case Attachment(b) => l.(attached := b)
  }

  function Run(l: Ledger, actions: seq<Action>): Ledger
    decreases |actions|
  {
    if actions == [] then l else Run(Step(l, actions[0]), actions[1..])
  }

  /** No acquire or release is under way. */
  predicate Quiet(l: Ledger) {
    forall t :: 0 <= t < |l.tokens| ==> l.tokens[t].phase.Held? || l.tokens[t].phase.Released?
  }

  /** Every invalidation of the run finds the ledger quiet. */
  predicate QuietRun(l: Ledger, actions: seq<Action>)
    decreases |actions|
  {
    actions == []
    || ((actions[0].Removed? || actions[0].Disconnected? ==> Quiet(l)) && QuietRun(Step(l, actions[0]), actions[1..]))
  }

  // ----- Balance -----

  predicate Live(k: Token, generation: nat) {
    match k.phase
    case Reserved(_) => true
    case Held(g) => g == generation
    case Releasing(g) => g == generation
    case Released => false
  }

  function LiveCount(ts: seq<Token>, generation: nat): nat {
    if ts == [] then 0 else LiveCount(ts[..|ts| - 1], generation) + if Live(ts[|ts| - 1], generation) then 1 else 0
  }

  lemma {:induction false} LiveCountUpdate(ts: seq<Token>, t: nat, k: Token, generation: nat)
    requires t < |ts|
    ensures LiveCount(ts[t := k], generation) + (if Live(ts[t], generation) then 1 else 0)
         == LiveCount(ts, generation) + (if Live(k, generation) then 1 else 0)
  {
    var n := |ts| - 1;
    if t == n {
      assert ts[t := k][..n] == ts[..n];
    } else {
      assert ts[t := k][..n] == ts[..n][t := k];
      LiveCountUpdate(ts[..n], t, k, generation);
    }
  }

  lemma {:induction false} LiveCountBound(ts: seq<Token>, generation: nat)
    ensures LiveCount(ts, generation) == 0 <==> forall t :: 0 <= t < |ts| ==> !Live(ts[t], generation)
    ensures forall t :: 0 <= t < |ts| && Live(ts[t], generation) ==> LiveCount(ts, generation) >= 1
  {
    if ts != [] {
      var n := |ts| - 1;
      LiveCountBound(ts[..n], generation);
      assert forall t :: 0 <= t < n ==> ts[..n][t] == ts[t];
    }
  }

  predicate Stamped(k: Token, generation: nat) {
    (k.phase.Held? || k.phase.Releasing?) ==> k.phase.generation <= generation
  }

  /** The count is the number of live tokens, and exclusivity is real. */
  predicate Inv(l: Ledger) {
    && l.count == LiveCount(l.tokens, l.generation)
    && (forall t :: 0 <= t < |l.tokens| ==> Stamped(l.tokens[t], l.generation))
    && (l.exclusive.Some? ==>
          l.exclusive.value < |l.tokens| && Live(l.tokens[l.exclusive.value], l.generation)
          && l.tokens[l.exclusive.value].mode == Exclusive && l.count == 1)
    && (forall t :: 0 <= t < |l.tokens| && Live(l.tokens[t], l.generation) && l.tokens[t].mode == Exclusive
          ==> l.exclusive == Some(t))
  }

  lemma ReserveInv(l: Ledger, mode: Mode)
    requires Inv(l)
    ensures Inv(ReserveLease(l, mode))
  {
    LiveCountBound(l.tokens, l.generation);
    if Free(l, mode) {
      var m := ReserveLease(l, mode);
      assert m.tokens[..|m.tokens| - 1] == l.tokens;
    }
  }

  /** Moving a live token between live phases keeps the balance. */
  lemma MoveInv(l: Ledger, t: nat, phase: Phase)
    requires Inv(l) && t < |l.tokens| && Live(l.tokens[t], l.generation)
    requires Live(Token(l.tokens[t].mode, phase), l.generation)
    ensures Inv(SetPhase(l, t, phase))
  {
    LiveCountUpdate(l.tokens, t, l.tokens[t].(phase := phase), l.generation);
  }

  lemma ReleaseInv(l: Ledger, t: nat)
    requires Inv(l) && t < |l.tokens| && Live(l.tokens[t], l.generation)
    ensures Inv(ReleaseLease(l, t))
  {
    var gone := l.tokens[t].(phase := Phase.Released);
    LiveCountUpdate(l.tokens, t, gone, l.generation);
    LiveCountBound(l.tokens, l.generation);
    LiveCountBound(l.tokens[t := gone], l.generation);
  }

  lemma InvalidateInv(l: Ledger)
    requires Inv(l) && Quiet(l)
    ensures Inv(Invalidate(l)) && Invalidate(l).count == 0
  {
    var m := Invalidate(l);
    forall t | 0 <= t < |l.tokens|
      ensures !Live(l.tokens[t], m.generation)
    {
      assert Stamped(l.tokens[t], l.generation);
    }
    LiveCountBound(l.tokens, m.generation);
  }

  /** A release under way at an unchanged generation is of a live token: no invalidation straddles it. */
  predicate Fresh(l: Ledger) {
    forall t :: 0 <= t < |l.tokens| && l.tokens[t].phase.Releasing? ==> l.tokens[t].phase.generation == l.generation
  }

  lemma StepInv(l: Ledger, a: Action)
    requires Inv(l) && Fresh(l) && (a.Removed? || a.Disconnected? ==> Quiet(l))
    ensures Inv(Step(l, a))
  {
    match a
    case Reserve(mode) => ReserveInv(l, mode);
    case Grant(t) => if Acquiring(l, t) { MoveInv(l, t, Held(l.generation)); }
    case Abandon(t) => if Acquiring(l, t) { ReleaseInv(l, t); }
    case Create => CreateInv(l);
    case Release(t) => BeginReleaseInv(l, t);
    case DetachDone(t) => if t < |l.tokens| && l.tokens[t].phase.Releasing? { ReleaseInv(l, t); }
    case DetachFailed(t, relinquish) =>
      if t < |l.tokens| && l.tokens[t].phase.Releasing? { FailReleaseInv(l, t, relinquish); }
    case Removed => AttachmentInv(l); InvalidateInv(l.(attached := false));
    case Disconnected => AttachmentInv(l); InvalidateInv(l.(attached := false));
    case Attachment(_) =>
  }

  lemma FailReleaseInv(l: Ledger, t: nat, relinquish: bool)
    requires Inv(l) && Fresh(l) && t < |l.tokens| && l.tokens[t].phase.Releasing?
    ensures Inv(Undetach(FailRelease(l, t, relinquish), t))
  {
    if relinquish { ReleaseInv(l, t); } else { MoveInv(l, t, Held(l.generation)); }
  }

  lemma CreateInv(l: Ledger)
    requires Inv(l)
    ensures Inv(Step(l, Create))
  {
    ReserveInv(l, Exclusive);
    if Free(l, Exclusive) { MoveInv(ReserveLease(l, Exclusive), |l.tokens|, Held(l.generation)); }
  }

  lemma BeginReleaseInv(l: Ledger, t: nat)
    requires Inv(l)
    ensures Inv(Step(l, Action.Release(t)))
  {
    if Active(l, t) {
      if l.count <= 1 { MoveInv(l, t, Releasing(l.generation)); } else { ReleaseInv(l, t); }
    }
  }

  lemma AttachmentInv(l: Ledger)
    requires Inv(l)
    ensures Inv(l.(attached := false))
  {
  }

  lemma StepFresh(l: Ledger, a: Action)
    requires Fresh(l) && (a.Removed? || a.Disconnected? ==> Quiet(l))
    ensures Fresh(Step(l, a))
  {
  }

  lemma {:induction false} RunInv(l: Ledger, actions: seq<Action>)
    requires Inv(l) && Fresh(l) && QuietRun(l, actions)
    ensures Inv(Run(l, actions)) && Fresh(Run(l, actions))
    decreases |actions|
  {
    if actions != [] {
      StepInv(l, actions[0]);
      StepFresh(l, actions[0]);
      RunInv(Step(l, actions[0]), actions[1..]);
    }
  }

  // ----- Whole runs -----

  /** The count always equals the number of live tokens, and an exclusive token is alone. */
  lemma LedgerBalances(actions: seq<Action>, t: nat)
    requires QuietRun(EmptyLedger, actions)
    ensures var l := Run(EmptyLedger, actions);
            && l.count == LiveCount(l.tokens, l.generation)
            && (t < |l.tokens| && Live(l.tokens[t], l.generation) && l.tokens[t].mode == Exclusive
                ==> l.count == 1 && l.exclusive == Some(t)
                    && forall u :: 0 <= u < |l.tokens| && Live(l.tokens[u], l.generation) ==> u == t)
  {
    var l := Run(EmptyLedger, actions);
    RunInv(EmptyLedger, actions);
    forall u | t < |l.tokens| && Live(l.tokens[t], l.generation) && l.tokens[t].mode == Exclusive
               && 0 <= u < |l.tokens| && Live(l.tokens[u], l.generation)
      ensures u == t
    {
      if u != t {
        var gone := l.tokens[t].(phase := Phase.Released);
        assert l.tokens[t := gone][u] == l.tokens[u];
        LiveCountUpdate(l.tokens, t, gone, l.generation);
        LiveCountBound(l.tokens[t := gone], l.generation);
      }
    }
  }

  /** No handle is stamped with a generation to come. */
  predicate AllStamped(l: Ledger) {
    forall t :: 0 <= t < |l.tokens| ==> Stamped(l.tokens[t], l.generation)
  }

  lemma StepStamped(l: Ledger, a: Action)
    requires AllStamped(l)
    ensures AllStamped(Step(l, a))
  {
  }

  lemma {:induction false} StampsPast(l: Ledger, actions: seq<Action>)
    requires AllStamped(l)
    ensures AllStamped(Run(l, actions))
    decreases |actions|
  {
    if actions != [] {
      StepStamped(l, actions[0]);
      StampsPast(Step(l, actions[0]), actions[1..]);
    }
  }

  /** A removal deactivates every handle, whatever acquires and releases are under way. */
  lemma RemovalDeactivates(actions: seq<Action>, t: nat)
    requires var l := Run(EmptyLedger, actions); t < |l.tokens| && l.tokens[t].phase.Held?
    ensures var l := Step(Run(EmptyLedger, actions), Removed);
            !Active(l, t) && l.tokens[t].phase.Held? && l.tokens[t].phase.generation < l.generation
  {
    StampsPast(EmptyLedger, actions);
    var l := Run(EmptyLedger, actions);
    assert Stamped(l.tokens[t], l.generation);
  }

  /** Every handle is outdated. */
  predicate AllOutdated(l: Ledger) {
    forall t :: 0 <= t < |l.tokens| && l.tokens[t].phase.Held? ==> l.tokens[t].phase.generation < l.generation
  }

  /** A disconnection moves on only sessions that have a count: in any run it deactivates every handle
      for good if and only if the count is positive or no handle is of the present generation. */
  lemma DisconnectionDeactivatesIff(actions: seq<Action>)
    ensures var l := Run(EmptyLedger, actions);
            AllOutdated(Step(l, Disconnected)) <==> l.count > 0 || forall t :: 0 <= t < |l.tokens| ==> !Is(l, t, Held(l.generation))
  {
    StampsPast(EmptyLedger, actions);
    var l, m := Run(EmptyLedger, actions), Step(Run(EmptyLedger, actions), Disconnected);
    forall t | 0 <= t < |l.tokens| && l.tokens[t].phase.Held?
      ensures l.tokens[t].phase.generation < m.generation <==> l.count > 0 || !Is(l, t, Held(l.generation))
    {
      assert Stamped(l.tokens[t], l.generation);
    }
    if l.count == 0 && exists t :: 0 <= t < |l.tokens| && Is(l, t, Held(l.generation)) {
      var t :| 0 <= t < |l.tokens| && Is(l, t, Held(l.generation));
      assert m.tokens[t].phase.Held? && m.tokens[t].phase.generation == m.generation;
    }
  }

  /** So on a run that keeps the count right it deactivates every handle. */
  lemma DisconnectionDeactivates(actions: seq<Action>)
    requires QuietRun(EmptyLedger, actions)
    ensures AllOutdated(Step(Run(EmptyLedger, actions), Disconnected))
  {
    var l := Run(EmptyLedger, actions);
    RunInv(EmptyLedger, actions);
    LiveCountBound(l.tokens, l.generation);
    DisconnectionDeactivatesIff(actions);
  }

  predicate Outdated(l: Ledger, t: nat) {
    t < |l.tokens| && !l.tokens[t].phase.Reserved?
    && ((l.tokens[t].phase.Held? || l.tokens[t].phase.Releasing?) ==> l.tokens[t].phase.generation < l.generation)
  }

  lemma StepOutdated(l: Ledger, a: Action, t: nat)
    requires Outdated(l, t)
    ensures Outdated(Step(l, a), t)
  {
  }

  /** Once outdated, a handle is never active again, whatever happens later: re-attaching, new
      leases, further removals, even invalidations that straddle an acquire or a release. */
  lemma {:induction false} InvalidatedForever(l: Ledger, more: seq<Action>, t: nat)
    requires Outdated(l, t)
    ensures Outdated(Run(l, more), t) && !Active(Run(l, more), t)
    decreases |more|
  {
    if more != [] {
      StepOutdated(l, more[0], t);
      InvalidatedForever(Step(l, more[0]), more[1..], t);
    }
  }

  // ----- The hypothesis is exact -----

  predicate Balanced(l: Ledger) {
    l.count == LiveCount(l.tokens, l.generation)
  }

  /** However the session is used from here on, quiet invalidations keep the count right. */
  ghost predicate StaysBalanced(l: Ledger) {
    forall more :: QuietRun(l, more) ==> Balanced(Run(l, more))
  }

  lemma ReservedUnbalances(l: Ledger, t: nat)
    requires Inv(l) && Acquiring(l, t)
    ensures !Balanced(Invalidate(l))
  {
    LiveCountBound(l.tokens, l.generation + 1);
    assert Live(l.tokens[t], l.generation + 1);
  }

  /** A release under way gives back the next holder's lease. */
  lemma ReleasingUnbalances(l: Ledger, t: nat)
    requires l.count == 0 && l.exclusive.None? && LiveCount(l.tokens, l.generation) == 0
    requires t < |l.tokens| && l.tokens[t].phase.Releasing?
    ensures !Balanced(Step(Step(l, Reserve(Shared)), DetachDone(t)))
  {
    var m := Step(l, Reserve(Shared));
    var n := Step(m, DetachDone(t));
    LiveCountBound(n.tokens, n.generation);
    assert n.tokens[|l.tokens|] == Token(Shared, Reserved(l.detaching));
  }

  lemma RunTwo(l: Ledger, a: Action, b: Action)
    ensures Run(l, [a, b]) == Step(Step(l, a), b)
    ensures !(a.Removed? || a.Disconnected? || b.Removed? || b.Disconnected?) ==> QuietRun(l, [a, b])
  {
    assert [a, b][1..] == [b] && [b][1..] == [];
    assert QuietRun(Step(Step(l, a), b), []);
    assert Run(Step(l, a), [b]) == Run(Step(Step(l, a), b), []);
  }

  lemma UnquietBreaks(l: Ledger, m: Ledger, t: nat)
    requires Inv(l) && m == Invalidate(l).(attached := false)
    requires t < |l.tokens| && (l.tokens[t].phase.Reserved? || l.tokens[t].phase.Releasing?)
    ensures !StaysBalanced(m)
  {
    assert QuietRun(m, []) && Run(m, []) == m;
    if Balanced(m) {
      LiveCountBound(l.tokens, m.generation);
      assert l.tokens[t].phase.Releasing? by {
        if l.tokens[t].phase.Reserved? { ReservedUnbalances(l, t); }
      }
      ReleasingUnbalances(m, t);
      RunTwo(m, Reserve(Shared), DetachDone(t));
    }
  }

  lemma QuietKeeps(l: Ledger, a: Action)
    requires Inv(l) && Fresh(l) && (a.Removed? || a.Disconnected? ==> Quiet(l))
    ensures StaysBalanced(Step(l, a))
  {
    StepInv(l, a);
    StepFresh(l, a);
    forall more | QuietRun(Step(l, a), more)
      ensures Balanced(Run(Step(l, a), more))
    {
      RunInv(Step(l, a), more);
    }
  }

  /** After a removal every further use keeps the count right if and only if no acquire or release
      was under way when it happened. */
  lemma RemovalExact(l: Ledger)
    requires Inv(l) && Fresh(l)
    ensures StaysBalanced(Step(l, Removed)) <==> Quiet(l)
  {
    if Quiet(l) {
      QuietKeeps(l, Removed);
    } else {
      var t :| 0 <= t < |l.tokens| && !(l.tokens[t].phase.Held? || l.tokens[t].phase.Released?);
      UnquietBreaks(l, Step(l, Removed), t);
    }
  }

  /** The same holds of a disconnection; without leases it finds the ledger quiet. */
  lemma DisconnectionExact(l: Ledger)
    requires Inv(l) && Fresh(l)
    ensures StaysBalanced(Step(l, Disconnected)) <==> Quiet(l)
  {
    LiveCountBound(l.tokens, l.generation);
    if Quiet(l) {
      QuietKeeps(l, Disconnected);
    } else {
      var t :| 0 <= t < |l.tokens| && !(l.tokens[t].phase.Held? || l.tokens[t].phase.Released?);
      assert Live(l.tokens[t], l.generation);
      UnquietBreaks(l, Step(l, Disconnected), t);
    }
  }

  // ----- What goes wrong -----

  /** An acquire that straddles a removal ends in a live handle that the count misses, so that an
      exclusive lease is granted beside it. */
  lemma StraddlingAcquireMiscounts()
    ensures var before := Run(EmptyLedger, [Reserve(Shared), Removed, Grant(0), Reserve(Exclusive)]);
            var l := Step(before, Grant(1));
            l.count == 1 && LiveCount(l.tokens, l.generation) == 2 && l.exclusive == Some(1)
  {
    RunFour(EmptyLedger, [Reserve(Shared), Removed, Grant(0), Reserve(Exclusive)]);
    var l3 := Step(Step(Step(EmptyLedger, Reserve(Shared)), Removed), Grant(0));
    assert l3.tokens == [Token(Shared, Held(1))];
    var l4 := Step(l3, Reserve(Exclusive));
    assert l4.tokens == [Token(Shared, Held(1)), Token(Exclusive, Reserved(None))];
    var l5 := Step(l4, Grant(1));
    assert l5.tokens == [Token(Shared, Held(1)), Token(Exclusive, Held(1))];
    LiveCountUnfold(l5.tokens, 1);
  }

  /** A release that straddles a removal gives back the lease of an acquire that waited for it. */
  lemma StraddlingReleaseMiscounts()
    ensures var l := StraddledRelease(); l.count == 0 && Active(l, 1)
  {
    RunFour(EmptyLedger, [Create, Attachment(true), Release(0), Removed]);
    var l := Run(EmptyLedger, [Create, Attachment(true), Release(0), Removed]);
    assert l.tokens == [Token(Exclusive, Releasing(0))] && l.detaching == Some(0);
    RunFour(l, [Reserve(Shared), DetachDone(0), Grant(1), Attachment(true)]);
  }

  function StraddledRelease(): Ledger {
    Run(Run(EmptyLedger, [Create, Attachment(true), Release(0), Removed]),
        [Reserve(Shared), DetachDone(0), Grant(1), Attachment(true)])
  }

  /** Such a handle survives a disconnection: once the session is attached again it is active. */
  lemma MiscountedSurvivesDisconnection()
    ensures Active(Step(Step(StraddledRelease(), Disconnected), Attachment(true)), 1)
  {
    StraddlingReleaseMiscounts();
  }

  lemma LiveCountUnfold(ts: seq<Token>, generation: nat)
    requires |ts| == 2 && Live(ts[0], generation) && Live(ts[1], generation)
    ensures LiveCount(ts, generation) == 2
  {
    assert ts[..1][..0] == [];
    assert LiveCount(ts[..1], generation) == 1;
  }

  lemma RunFour(l: Ledger, s: seq<Action>)
    requires |s| == 4
    ensures Run(l, s) == Step(Step(Step(Step(l, s[0]), s[1]), s[2]), s[3])
  {
    var l1 := Step(l, s[0]);
    var l2 := Step(l1, s[1]);
    var l3 := Step(l2, s[2]);
    assert Run(l1, s[1..]) == Run(l2, s[2..]) by { assert s[1..][1..] == s[2..]; }
    assert Run(l2, s[2..]) == Run(l3, s[3..]) by { assert s[2..][1..] == s[3..]; }
    var l4 := Step(l3, s[3]);
    assert Run(l3, s[3..]) == Run(l4, []) by { assert s[3..][1..] == []; }
  }

  // ----- The client's own maps -----

  class LeaseTable {
    var counts: map<string, nat>
    var exclusive: map<string, nat>
    var generations: map<string, nat>

    /** The ledger fields this table stores for one session. */
    predicate Matches(id: string, l: Ledger)
      reads this
    {
      && l.count == (if id in counts then counts[id] else 0) && (id in counts ==> counts[id] > 0)
      && l.exclusive == (if id in exclusive then Some(exclusive[id]) else None)
      && l.generation == (if id in generations then generations[id] else 0)
    }

    constructor ()
      ensures forall id :: Matches(id, EmptyLedger)
    {
      counts, exclusive, generations := map[], map[], map[];
    }

    method ReserveSessionLease(id: string, mode: Mode, token: nat) returns (ok: bool)
      modifies this
      ensures forall l: Ledger :: old(Matches(id, l)) && |l.tokens| == token
                ==> Matches(id, ReserveLease(l, mode)) && ok == Free(l, mode)
      ensures forall other, l: Ledger :: other != id && old(Matches(other, l)) ==> Matches(other, l)
    {
      var count := if id in counts then counts[id] else 0;
      if mode == Exclusive && count > 0 { return false; }
      if mode == Shared && id in exclusive { return false; }
      counts := counts[id := count + 1];
      if mode == Exclusive { exclusive := exclusive[id := token]; }
      return true;
    }

    method ReleaseSessionLease(id: string, token: nat)
      modifies this
      ensures forall l: Ledger :: old(Matches(id, l)) && token < |l.tokens| ==> Matches(id, ReleaseLease(l, token))
      ensures forall other, l: Ledger :: other != id && old(Matches(other, l)) ==> Matches(other, l)
    {
      var count := if id in counts then counts[id] else 0;
      if count <= 1 { counts := counts - {id}; } else { counts := counts[id := count - 1]; }
      if id in exclusive && exclusive[id] == token { exclusive := exclusive - {id}; }
    }

    method InvalidateSessionLeases(id: string)
      modifies this
      ensures forall l: Ledger :: old(Matches(id, l)) ==> Matches(id, Invalidate(l))
      ensures forall other, l: Ledger :: other != id && old(Matches(other, l)) ==> Matches(other, l)
      ensures counts == old(counts) - {id}
    {
      counts := counts - {id};
      exclusive := exclusive - {id};
      generations := generations[id := (if id in generations then generations[id] else 0) + 1];
    }

    /** Invalidate every session that has a lease. */
    method InvalidateAllSessionLeases()
      modifies this
      ensures counts == map[]
      ensures forall id, l: Ledger :: old(Matches(id, l)) ==> Matches(id, if l.count > 0 then Invalidate(l) else l)
    {
      var ids := counts.Keys;
      while ids != {}
        invariant ids <= old(counts).Keys && ids == counts.Keys
        invariant forall id, l: Ledger :: old(Matches(id, l)) ==>
                    Matches(id, if id in old(counts) && id !in ids then Invalidate(l) else l)
        decreases ids
      {
        var id :| id in ids;
        InvalidateSessionLeases(id);
        ids := ids - {id};
      }
    }
  }
}
