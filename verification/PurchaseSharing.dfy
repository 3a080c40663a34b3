/** Seat exclusivity depends on each of its conditions: without it two live orders get one ticket holder. */
module PurchaseSharing {
  import opened Runs
  import opened Orders
  import opened SeatStore
  import opened PurchaseSaga
  import opened PurchaseHazards
  import opened PurchaseExclusivity

  /** Order 1 is live and its key is free: order 2 takes the key and gets its row. */
  lemma SaveSecond(s0: State, acts: seq<Action>, s: State, category: int) returns (more: seq<Action>, s': State)
    requires Reachable(s0, acts, s) && s.req == map[1 := OneTicket(category)] && LiveRow(s, 1) && 2 !in s.orders
    requires s.store.owners == map[] && 2 !in s.store.locks && Stock(s.store, category) >= 1
    requires 2 !in s.creators && 2 !in s.handlers && forall h :: h in s.handlers ==> s.handlers[h].order == 1
    ensures Reachable(s0, more, s') && !Exclusive(s')
  {
    more, s' := SellSecond(s0, acts, s, category);
    more, s' := SaveTwo(s0, more, s', s.now);
    assert HOLDER in s'.req[1].keys && HOLDER in s'.req[2].keys && LiveRow(s', 1) && LiveRow(s', 2);
  }

  lemma SaveTwo(s0: State, acts: seq<Action>, s: State, createdAt: int) returns (more: seq<Action>, s': State)
    requires Reachable(s0, acts, s) && (2, createdAt) in s.events && !Late(s, createdAt) && 2 in s.req && 2 !in s.orders
    requires 2 !in s.handlers && forall h :: h in s.handlers ==> s.handlers[h].order == 1
    ensures Reachable(s0, more, s') && s'.orders == s.orders[2 := NoPay] && s'.req == s.req
  {
    more, s' := ExtendRun(Step, s0, acts, s, Consuming(Deliver(2, 2, createdAt)));
    more, s' := ExtendRun(Step, s0, more, s', Consuming(Look(2)));
    more, s' := ExtendRun(Step, s0, more, s', Consuming(SaveRow(2)));
  }

  lemma SellSecond(s0: State, acts: seq<Action>, s: State, category: int) returns (more: seq<Action>, s': State)
    requires Reachable(s0, acts, s) && s.req == map[1 := OneTicket(category)]
    requires s.store.owners == map[] && 2 !in s.store.locks && Stock(s.store, category) >= 1 && 2 !in s.creators
    ensures Reachable(s0, more, s') && s'.policy == s.policy && s'.maxDelay == s.maxDelay && s'.now == s.now
    ensures s'.req == s.req[2 := OneTicket(category)] && s'.orders == s.orders && s'.handlers == s.handlers
    ensures (2, s.now) in s'.events
  {
    more, s' := ExtendRun(Step, s0, acts, s, Submitting(Submit(2, OneTicket(category))));
    more, s' := ExtendRun(Step, s0, more, s', Submitting(Publish(2, true)));
  }

  /** The key of an unpaid order expires and somebody else buys the seat. */
  lemma ExpiredKeyShares(s0: State, category: int) returns (acts: seq<Action>, s: State)
    requires Opening(s0) && Stock(s0.store, category) >= 2 && !s0.policy.keysOutlive
    ensures Reachable(s0, acts, s) && !Exclusive(s)
  {
    acts, s := SellOne(s0, category);
    acts, s := SaveOne(s0, acts, s, s0.now);
    acts, s := ExtendRun(Step, s0, acts, s, Elapsing(KeyExpires(HOLDER)));
    assert s.store.owners == map[];
    acts, s := SaveSecond(s0, acts, s, category);
  }

  /** Live orders never share a seat or a ticket holder, in any run, exactly under these conditions. */
  lemma ExclusiveIff(s0: State, category: int)
    requires Opening(s0) && Stock(s0.store, category) >= 2
    ensures (forall acts, s :: Reachable(s0, acts, s) ==> Exclusive(s)) <==> s0.policy.keysOutlive && Orderly(s0)
  {
    if s0.policy.keysOutlive && Orderly(s0) {
      forall acts, s | Reachable(s0, acts, s) ensures Exclusive(s) { SeatsAreExclusive(s0, acts, s); }
    } else if !s0.policy.keysOutlive {
      var acts, s := ExpiredKeyShares(s0, category);
    } else if !s0.policy.serialHandlers {
      var acts, s := OverlappingHandlersOversell(s0, category);
      acts, s := SaveSecond(s0, acts, s, category);
    } else {
      var acts, s := CarelessRetryOversells(s0, category);
      acts, s := SaveSecond(s0, acts, s, category);
    }
  }
}
