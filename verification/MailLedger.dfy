/** The order book of a queue with a side entrance: everything ever passed in, against what is in
    front (delivered or held), what a prelude holds, and what is still queued. */
module MailLedger {
  predicate Distinct<T(==)>(all: seq<T>) {
    forall i, j :: 0 <= i < j < |all| ==> all[i] != all[j]
  }

  /** Somewhere in front a message was let through before an earlier one. */
  predicate Overtaken<T(==)>(all: seq<T>, front: seq<T>) {
    exists i, a, b :: 0 <= a < b < |all| && 0 <= i < |front| && front[i] == all[b] && all[a] !in front[..i]
  }

  /** A message is missing, or one was overtaken. */
  predicate Broken<T(==)>(all: seq<T>, front: seq<T>, side: seq<T>, queue: seq<T>) {
    |front| + |side| + |queue| < |all| || Overtaken(all, front)
  }

  predicate Ledger<T(==)>(all: seq<T>, front: seq<T>, side: seq<T>, queue: seq<T>, orderly: bool) {
    && (orderly ==> all == front + side + queue)
    && (!orderly && Distinct(all) ==> Broken(all, front, side, queue))
  }

  /** With distinct messages the flag says exactly whether nothing is lost and nothing out of order. */
  lemma LedgerExact<T>(all: seq<T>, front: seq<T>, side: seq<T>, queue: seq<T>, orderly: bool)
    requires Ledger(all, front, side, queue, orderly) && Distinct(all)
    ensures all == front + side + queue <==> orderly
  {
    if all == front + side + queue {
      assert front <= all;
      InOrder(all, front);
    }
  }

  lemma InOrder<T>(all: seq<T>, front: seq<T>)
    requires Distinct(all) && front <= all
    ensures !Overtaken(all, front)
  {
    forall i, a, b | 0 <= a < b < |all| && 0 <= i < |front| && front[i] == all[b]
      ensures all[a] in front[..i]
    {
      assert all[i] == all[b];
      assert front[..i][a] == all[a];
    }
  }

  lemma OvertakenGrows<T>(all: seq<T>, front: seq<T>, more: seq<T>, ahead: seq<T>)
    requires Overtaken(all, front)
    ensures Overtaken(all + more, front + ahead)
  {
    var i, a, b :| 0 <= a < b < |all| && 0 <= i < |front| && front[i] == all[b] && all[a] !in front[..i];
    assert (front + ahead)[..i] == front[..i] && (front + ahead)[i] == (all + more)[b] && (all + more)[a] == all[a];
  }

  lemma LedgerEnqueue<T>(all: seq<T>, front: seq<T>, side: seq<T>, queue: seq<T>, orderly: bool, m: T)
    requires Ledger(all, front, side, queue, orderly)
    ensures Ledger(all + [m], front, side, queue + [m], orderly)
  {
    if !orderly && Distinct(all + [m]) {
      assert forall i :: 0 <= i < |all| ==> (all + [m])[i] == all[i];
      if Overtaken(all, front) {
        OvertakenGrows(all, front, [m], []);
        assert front + [] == front;
      }
    }
  }

  /** The queue hands over its front; a waiting side entry is overtaken. */
  lemma LedgerTake<T>(all: seq<T>, front: seq<T>, side: seq<T>, taken: seq<T>, rest: seq<T>, orderly: bool)
    requires Ledger(all, front, side, taken + rest, orderly)
    ensures Ledger(all, front + taken, side, rest, orderly && (side == [] || taken == []))
  {
    if orderly && side != [] && taken != [] {
      if Distinct(all) {
        var i, b := |front|, |front| + |side|;
        assert (front + taken)[i] == taken[0] == all[b] && all[i] == side[0];
        assert (front + taken)[..i] == front;
        assert forall k :: 0 <= k < i ==> front[k] == all[k];
      }
    } else if orderly {
      assert front + taken + side + rest == front + side + (taken + rest);
    } else if Distinct(all) && Overtaken(all, front) {
      OvertakenGrows(all, front, [], taken);
      assert all + [] == all;
    }
  }

  lemma LedgerOpen<T>(all: seq<T>, front: seq<T>, taken: seq<T>, rest: seq<T>, orderly: bool)
    requires Ledger(all, front, [], taken + rest, orderly)
    ensures Ledger(all, front, taken, rest, orderly)
  {
    assert front + [] + (taken + rest) == front + taken + rest;
  }

  /** The side entry goes to the front. */
  lemma LedgerPass<T>(all: seq<T>, front: seq<T>, side: seq<T>, queue: seq<T>, orderly: bool)
    requires Ledger(all, front, side, queue, orderly)
    ensures Ledger(all, front + side, [], queue, orderly)
  {
    assert front + side + [] + queue == front + side + queue;
    if !orderly && Distinct(all) && Overtaken(all, front) {
      OvertakenGrows(all, front, [], side);
      assert all + [] == all;
    }
  }

  lemma LedgerDrop<T>(all: seq<T>, front: seq<T>, side: seq<T>, queue: seq<T>, orderly: bool)
    requires Ledger(all, front, side, queue, orderly) && side != []
    ensures Ledger(all, front, [], queue, false)
  {
  }
}
