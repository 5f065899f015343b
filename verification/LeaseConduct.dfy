/** Which leases are given out and what becomes of a release, over every run whose invalidations find
    the ledger quiet. */
module LeaseConduct {
  import opened Options
  import opened Leases

  ghost predicate Reachable(l: Ledger) {
    exists actions :: QuietRun(EmptyLedger, actions) && l == Run(EmptyLedger, actions)
  }

  lemma ReachableInv(l: Ledger)
    requires Reachable(l)
    ensures Inv(l) && Fresh(l)
  {
    var actions :| QuietRun(EmptyLedger, actions) && l == Run(EmptyLedger, actions);
    RunInv(EmptyLedger, actions);
  }

  predicate IsLive(l: Ledger, t: nat) {
    t < |l.tokens| && Live(l.tokens[t], l.generation)
  }

  /** No other holder stands against a lease of this mode: nobody at all, or nobody exclusive. */
  predicate Unopposed(l: Ledger, mode: Mode) {
    forall t :: 0 <= t < |l.tokens| && IsLive(l, t) ==> mode == Shared && l.tokens[t].mode == Shared
  }

  lemma FreeIff(l: Ledger, mode: Mode)
    requires Inv(l)
    ensures Free(l, mode) <==> Unopposed(l, mode)
  {
    LiveCountBound(l.tokens, l.generation);
  }

  /** A lease is reserved exactly if nobody stands against it: shared leases go together, an exclusive
      one stands alone. The acquire waits for the release that is under way, if any. */
  lemma ReserveIff(l: Ledger, mode: Mode)
    requires Reachable(l)
    ensures var m := Step(l, Reserve(mode));
            if Unopposed(l, mode)
            then |m.tokens| == |l.tokens| + 1 && m.tokens[..|l.tokens|] == l.tokens && m.tokens[|l.tokens|].mode == mode
                 && Is(m, |l.tokens|, Reserved(l.detaching)) && m.generation == l.generation && m.attached == l.attached
            else m == l
  {
    ReachableInv(l);
    FreeIff(l, mode);
  }

  /** A created session is held exclusively at once. */
  lemma CreateIff(l: Ledger)
    requires Reachable(l)
    ensures var m := Step(l, Create);
            if Unopposed(l, Exclusive)
            then |m.tokens| == |l.tokens| + 1 && m.tokens[..|l.tokens|] == l.tokens
                 && m.tokens[|l.tokens|] == Token(Exclusive, Held(l.generation)) && (l.attached ==> Active(m, |l.tokens|))
            else m == l
  {
    ReachableInv(l);
    FreeIff(l, Exclusive);
  }

  /** An acquire is granted exactly when the detach request it found in flight has settled; its handle
      is then active while the session is attached. */
  lemma GrantIff(l: Ledger, t: nat)
    requires Acquiring(l, t)
    ensures var m, after := Step(l, Grant(t)), l.tokens[t].phase.after;
            if after.Some? && after.value < |l.tokens| && l.tokens[after.value].phase.Releasing? then m == l
            else Is(m, t, Held(l.generation)) && (Active(m, t) <==> l.attached)
                 && m == l.(tokens := l.tokens[t := Token(l.tokens[t].mode, Held(l.generation))])
  {
  }

  /** The last holder's release asks the server to detach; any other is over at once. */
  lemma ReleaseDecides(l: Ledger, t: nat)
    requires Reachable(l) && Active(l, t)
    ensures var m := Step(l, Action.Release(t));
            if exists u :: 0 <= u < |l.tokens| && u != t && IsLive(l, u)
            then Is(m, t, Phase.Released) && m.detaching == l.detaching
            else Is(m, t, Releasing(l.generation)) && m.detaching == Some(t)
    ensures var m := Step(l, Action.Release(t));
            |m.tokens| == |l.tokens| && forall u :: 0 <= u < |l.tokens| && u != t ==> m.tokens[u] == l.tokens[u]
  {
    ReachableInv(l);
    Others(l, t);
  }

  lemma Others(l: Ledger, t: nat)
    requires Inv(l) && IsLive(l, t)
    ensures l.count > 1 <==> exists u :: 0 <= u < |l.tokens| && u != t && IsLive(l, u)
  {
    var gone := l.tokens[t].(phase := Phase.Released);
    var rest := l.tokens[t := gone];
    LiveCountUpdate(l.tokens, t, gone, l.generation);
    LiveCountBound(rest, l.generation);
    assert l.count > 1 <==> LiveCount(rest, l.generation) > 0;
    if u :| 0 <= u < |l.tokens| && u != t && IsLive(l, u) {
      assert rest[u] == l.tokens[u] && Live(rest[u], l.generation);
    }
    if LiveCount(rest, l.generation) > 0 {
      var u :| 0 <= u < |rest| && Live(rest[u], l.generation);
      assert u != t && rest[u] == l.tokens[u] && IsLive(l, u);
    }
  }

  /** The detach request succeeded: the lease is over. It failed: the handle is as good as before, or
      given up if its holder so decided. Either way no acquire waits for it any longer. */
  lemma DetachDecides(l: Ledger, t: nat, relinquish: bool)
    requires Reachable(l) && t < |l.tokens| && l.tokens[t].phase.Releasing?
    ensures var m := Step(l, DetachDone(t)); Is(m, t, Phase.Released) && m.detaching != Some(t)
    ensures var m := Step(l, DetachFailed(t, relinquish));
            && m.detaching != Some(t)
            && (if relinquish then Is(m, t, Phase.Released)
                else m.tokens == l.tokens[t := Token(l.tokens[t].mode, Held(l.generation))] && m.count == l.count && m.exclusive == l.exclusive)
  {
    ReachableInv(l);
  }

  /** An abandoned acquire is over. */
  lemma AbandonFrees(l: Ledger, t: nat)
    requires Acquiring(l, t)
    ensures Is(Step(l, Abandon(t)), t, Phase.Released) && !IsLive(Step(l, Abandon(t)), t)
  {
  }

  lemma RunFive(l: Ledger, s: seq<Action>)
    requires |s| == 5
    ensures Run(l, s) == Step(Step(Step(Step(Step(l, s[0]), s[1]), s[2]), s[3]), s[4])
  {
    var l1 := Step(l, s[0]);
    var l2 := Step(l1, s[1]);
    var l3 := Step(l2, s[2]);
    var l4 := Step(l3, s[3]);
    assert Run(l1, s[1..]) == Run(l2, s[2..]) by { assert s[1..][1..] == s[2..]; }
    assert Run(l2, s[2..]) == Run(l3, s[3..]) by { assert s[2..][1..] == s[3..]; }
    assert Run(l3, s[3..]) == Run(l4, s[4..]) by { assert s[3..][1..] == s[4..]; }
    assert Run(l4, s[4..]) == Run(Step(l4, s[4]), []) by { assert s[4..][1..] == []; }
  }

  /** Two shared leases are active side by side. */
  lemma SharedLeasesCoexist()
    ensures var l := Run(EmptyLedger, [Attachment(true), Reserve(Shared), Reserve(Shared), Grant(0), Grant(1)]);
            Active(l, 0) && Active(l, 1) && l.count == 2
  {
    RunFive(EmptyLedger, [Attachment(true), Reserve(Shared), Reserve(Shared), Grant(0), Grant(1)]);
  }
}
