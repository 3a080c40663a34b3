/** Each point of the policy is needed: without it there is a run that oversells. */
module PurchaseHazards {
  import opened Runs
  import opened Orders
  import opened SeatStore
  import opened FiniteSets
  import opened PurchaseSaga
  import opened PurchaseBacking

  const HOLDER := TicketUser(1, 1)

  /** One ticket of the category, for one ticket holder. */
  function OneTicket(category: int): Request {
    Request(category, 1, [HOLDER])
  }

  lemma TicketsOfOne(s: State, category: int)
    requires s.req == map[1 := OneTicket(category)]
    ensures Tickets(s, category) == TicketsOf(s, category, 1)
  {
    var f := (o: int) => TicketsOf(s, category, o);
    SumRemove(s.req.Keys, f, 1);
    assert s.req.Keys - {1} == {};
  }

  /** The store while order 1 holds its ticket. */
  function HoldingOne(inventory: map<int, int>): Store {
    Store(inventory, {1}, {}, {}, map[HOLDER := Locked(1)])
  }

  lemma LockOne(st: Store, category: int)
    requires st.owners == map[] && 1 !in st.locks && Stock(st, category) >= 1
    requires st.locks == {} && st.rolledBack <= {1} && st.released <= {1}
    ensures LockScript(st, 1, OneTicket(category)) ==
              (HoldingOne(st.inventory[category := Stock(st, category) - 1]), Reserved)
  {
    var (st', result) := LockScript(st, 1, OneTicket(category));
    assert st'.rolledBack == {} && st'.released == {} && st'.locks == {1};
    assert st'.owners == map[HOLDER := Locked(1)];
  }

  lemma GiveBackOne(inventory: map<int, int>, category: int)
    ensures var st := HoldingOne(inventory);
            var back := inventory[category := Stock(st, category) + 1];
            && RollbackScript(st, 1, OneTicket(category)) == (Store(back, {}, {1}, {}, map[]), Done)
            && ReleaseScript(st, 1, OneTicket(category)) == (Store(back, {}, {}, {1}, map[]), Done)
  {
    var st := HoldingOne(inventory);
    var back := inventory[category := Stock(st, category) + 1];
    assert NoForeign(st, [HOLDER], 1, false);
    assert RollbackScript(st, 1, OneTicket(category)).0 == Store(back, {}, {1}, {}, map[]);
    assert ReleaseScript(st, 1, OneTicket(category)).0 == Store(back, {}, {}, {1}, map[]);
  }

  /** Order 1 is reserved and its event published. */
  lemma SellOne(s0: State, category: int) returns (acts: seq<Action>, s: State)
    requires Opening(s0) && Stock(s0.store, category) >= 1
    ensures Reachable(s0, acts, s)
    ensures s == s0.(store := HoldingOne(s0.store.inventory[category := Stock(s0.store, category) - 1]),
                     req := map[1 := OneTicket(category)], holds := map[1 := 1], events := {(1, s0.now)})
  {
    LockOne(s0.store, category);
    acts, s := ExtendRun(Step, s0, [], s0, Submitting(Submit(1, OneTicket(category))));
    acts, s := ExtendRun(Step, s0, acts, s, Submitting(Publish(1, true)));
    assert s.creators == map[];
  }

  /** The handler of event (1, createdAt) saves the order and acknowledges. */
  lemma SaveOne(s0: State, acts: seq<Action>, s: State, createdAt: int) returns (more: seq<Action>, s': State)
    requires Reachable(s0, acts, s)
    requires s.events == {(1, createdAt)} && !Late(s, createdAt) && s.handlers == map[] && s.orders == map[]
    requires 1 in s.req
    ensures Reachable(s0, more, s')
    ensures s' == s.(orders := map[1 := NoPay], events := {})
  {
    more, s' := ExtendRun(Step, s0, acts, s, Consuming(Deliver(0, 1, createdAt)));
    more, s' := ExtendRun(Step, s0, more, s', Consuming(Look(0)));
    more, s' := SaveAndAck(s0, more, s', createdAt);
  }

  lemma SaveAndAck(s0: State, acts: seq<Action>, s: State, createdAt: int) returns (more: seq<Action>, s': State)
    requires Reachable(s0, acts, s) && s.events == {(1, createdAt)} && s.orders == map[] && 1 in s.req
    requires s.handlers == map[0 := Handler(1, createdAt, false, Saving)]
    ensures Reachable(s0, more, s') && s' == s.(orders := map[1 := NoPay], events := {}, handlers := map[])
  {
    more, s' := ExtendRun(Step, s0, acts, s, Consuming(SaveRow(0)));
    more, s' := ExtendRun(Step, s0, more, s', Consuming(Ack(0)));
    assert s'.events == {} && s'.handlers == map[];
  }

  /** A handler finds event (1, createdAt) late. */
  lemma FindLate(s0: State, acts: seq<Action>, s: State, h: int, createdAt: int) returns (more: seq<Action>, s': State)
    requires Reachable(s0, acts, s) && h !in s.handlers && (s.policy.serialHandlers ==> s.handlers == map[])
    requires (1, createdAt) in s.events && Late(s, createdAt) && s.orders == map[] && 1 in s.req
    ensures Reachable(s0, more, s')
    ensures s' == s.(handlers := s.handlers[h := Handler(1, createdAt, true, Discarding)])
  {
    more, s' := ExtendRun(Step, s0, acts, s, Consuming(Deliver(h, 1, createdAt)));
    more, s' := ExtendRun(Step, s0, more, s', Consuming(Look(h)));
  }

  /** ... and rolls its reservation back. */
  lemma RollBackOne(s0: State, acts: seq<Action>, s: State, h: int, category: int, createdAt: int)
    returns (more: seq<Action>, s': State)
    requires Reachable(s0, acts, s) && h !in s.handlers && (s.policy.serialHandlers ==> s.handlers == map[])
    requires (1, createdAt) in s.events && Late(s, createdAt) && s.orders == map[]
    requires s.req == map[1 := OneTicket(category)] && s.holds == map[1 := 1]
    requires s.store == HoldingOne(s.store.inventory)
    ensures Reachable(s0, more, s')
    ensures s' == s.(handlers := s.handlers[h := Handler(1, createdAt, true, Recording)], holds := map[1 := 0], store := s'.store)
    ensures s'.store == Store(s.store.inventory[category := Stock(s.store, category) + 1], {}, {1}, {}, map[])
  {
    more, s' := FindLate(s0, acts, s, h, createdAt);
    more, s' := RollBackFound(s0, more, s', h, category);
  }

  lemma RollBackFound(s0: State, acts: seq<Action>, s: State, h: int, category: int)
    returns (more: seq<Action>, s': State)
    requires Reachable(s0, acts, s) && Is(s, h, Discarding) && s.handlers[h].order == 1
    requires s.req == map[1 := OneTicket(category)] && s.holds == map[1 := 1]
    requires s.store == HoldingOne(s.store.inventory)
    ensures Reachable(s0, more, s')
    ensures s' == s.(handlers := s.handlers[h := s.handlers[h].(pc := Recording)], holds := map[1 := 0],
                     store := Store(s.store.inventory[category := Stock(s.store, category) + 1], {}, {1}, {}, map[]))
  {
    RollbackOfOne(s.(handlers := s.handlers[h := s.handlers[h].(pc := Recording)]), category);
    more, s' := ExtendRun(Step, s0, acts, s, Consuming(RollBack(h)));
  }

  lemma RollbackOfOne(s: State, category: int)
    requires s.holds == map[1 := 1] && s.store == HoldingOne(s.store.inventory)
    ensures RunRollback(s, 1, OneTicket(category)) ==
            s.(holds := map[1 := 0], store := Store(s.store.inventory[category := Stock(s.store, category) + 1], {}, {1}, {}, map[]))
  {
    GiveBackOne(s.store.inventory, category);
  }

  /** A cancellation that is repeated after its marker expired gives the ticket back twice. */
  lemma ExpiredMarkerOversells(s0: State, category: int) returns (acts: seq<Action>, s: State)
    requires Opening(s0) && Stock(s0.store, category) >= 1 && !s0.policy.markersOutlive
    ensures Reachable(s0, acts, s) && !NoOversell(s0, s)
  {
    acts, s := SellOne(s0, category);
    acts, s := SaveOne(s0, acts, s, s0.now);
    GiveBackOne(s.store.inventory, category);
    acts, s := ExtendRun(Step, s0, acts, s, Canceling(CancelRead(0, 1)));
    acts, s := ExtendRun(Step, s0, acts, s, Canceling(CancelUpdate(0)));
    acts, s := ExtendRun(Step, s0, acts, s, Canceling(CancelRelease(0)));
    assert s.store == Store(s.store.inventory, {}, {}, {1}, map[]) && Stock(s.store, category) == Stock(s0.store, category);
    acts, s := CancelAgain(s0, acts, s, category);
    TicketsOfOne(s, category);
    assert Tickets(s, category) + Stock(s.store, category) > Stock(s0.store, category);
  }

  lemma CancelAgain(s0: State, acts: seq<Action>, s: State, category: int) returns (more: seq<Action>, s': State)
    requires Reachable(s0, acts, s) && !s.policy.markersOutlive && 0 !in s.cancels
    requires s.req == map[1 := OneTicket(category)] && s.orders == map[1 := Cancel] && 1 in s.holds
    requires s.store == Store(s.store.inventory, {}, {}, {1}, map[])
    ensures Reachable(s0, more, s') && s'.req == s.req && s'.orders == s.orders
    ensures Stock(s'.store, category) == Stock(s.store, category) + 1
  {
    more, s' := ExtendRun(Step, s0, acts, s, Elapsing(MarkersExpire(1)));
    more, s' := ExtendRun(Step, s0, more, s', Canceling(CancelRead(0, 1)));
    more, s' := ExtendRun(Step, s0, more, s', Canceling(CancelRelease(0)));
  }

  /** Order 1 has its row, but neither its ticket nor its seat. */
  ghost predicate SavedWithoutSeat(s0: State, s: State, category: int) {
    && s.req == map[1 := OneTicket(category)] && s.orders == map[1 := NoPay]
    && s.store == Store(s.store.inventory, {}, {1}, {}, map[]) && Stock(s.store, category) == Stock(s0.store, category)
    && s.creators == map[] && 2 !in s.handlers && (forall h :: h in s.handlers ==> s.handlers[h].order == 1)
  }

  lemma WithoutSeatIsOversold(s0: State, s: State, category: int)
    requires SavedWithoutSeat(s0, s, category)
    ensures !NoOversell(s0, s)
  {
    TicketsOfOne(s, category);
    assert Tickets(s, category) + Stock(s.store, category) > Stock(s0.store, category);
  }

  /** Two handlers of one event: one is about to save, the other finds the event late and rolls it back. */
  lemma OverlappingHandlersOversell(s0: State, category: int) returns (acts: seq<Action>, s: State)
    requires Opening(s0) && Stock(s0.store, category) >= 1 && !s0.policy.serialHandlers && s0.maxDelay > 0
    ensures Reachable(s0, acts, s) && SavedWithoutSeat(s0, s, category) && !NoOversell(s0, s)
  {
    acts, s := SellOne(s0, category);
    acts, s := FindInTime(s0, acts, s, s0.now);
    acts, s := RollBackOne(s0, acts, s, 1, category, s0.now);
    acts, s := ExtendRun(Step, s0, acts, s, Consuming(SaveRow(0)));
    WithoutSeatIsOversold(s0, s, category);
  }

  /** A handler reads the event in time and then stalls until the event is late. */
  lemma FindInTime(s0: State, acts: seq<Action>, s: State, createdAt: int) returns (more: seq<Action>, s': State)
    requires Reachable(s0, acts, s) && s.events == {(1, createdAt)} && s.now == createdAt && s.maxDelay > 0
    requires s.handlers == map[] && s.orders == map[] && 1 in s.req
    ensures Reachable(s0, more, s')
    ensures s' == s.(handlers := map[0 := Handler(1, createdAt, false, Saving)], now := s.now + s.maxDelay + 1)
  {
    more, s' := ExtendRun(Step, s0, acts, s, Consuming(Deliver(0, 1, createdAt)));
    more, s' := ExtendRun(Step, s0, more, s', Consuming(Look(0)));
    more, s' := ExtendRun(Step, s0, more, s', Elapsing(Tick(s.maxDelay + 1)));
  }

  /** The late event of order 1 is rolled back, recorded as discarded and acknowledged. */
  lemma DiscardOne(s0: State, category: int) returns (acts: seq<Action>, s: State)
    requires Opening(s0) && Stock(s0.store, category) >= 1 && s0.maxDelay > 0
    ensures Reachable(s0, acts, s)
    ensures s == s0.(store := s.store, req := map[1 := OneTicket(category)], holds := map[1 := 0], discards := {1}, now := s.now)
    ensures s.store == Store(s.store.inventory, {}, {1}, {}, map[])
    ensures Stock(s.store, category) == Stock(s0.store, category)
  {
    acts, s := SellOne(s0, category);
    acts, s := ExtendRun(Step, s0, acts, s, Elapsing(Tick(s0.maxDelay + 1)));
    acts, s := RollBackOne(s0, acts, s, 0, category, s0.now);
    acts, s := RecordAndAck(s0, acts, s, s0.now);
  }

  lemma RecordAndAck(s0: State, acts: seq<Action>, s: State, createdAt: int) returns (more: seq<Action>, s': State)
    requires Reachable(s0, acts, s) && s.events == {(1, createdAt)} && s.discards == {} && 1 in s.req
    requires s.handlers == map[0 := Handler(1, createdAt, true, Recording)]
    ensures Reachable(s0, more, s') && s' == s.(events := {}, handlers := map[], discards := {1})
  {
    more, s' := ExtendRun(Step, s0, acts, s, Consuming(Record(0)));
    more, s' := ExtendRun(Step, s0, more, s', Consuming(Ack(0)));
    assert s'.events == {} && s'.handlers == map[];
  }

  lemma ReserveAgain(s: State, category: int)
    requires s.req == map[1 := OneTicket(category)] && s.discards == {1} && s.holds == map[1 := 0]
    requires s.retries == map[] && s.orders == map[] && s.events == {} && 1 in s.store.rolledBack
    requires LockScript(s.store, 1, OneTicket(category)).1 == Reserved
    ensures Step(s, Compensating(RetryReserve(0, 1))) ==
              Some(s.(store := LockScript(s.store, 1, OneTicket(category)).0, holds := map[1 := 1],
                      retries := map[0 := Retry(1, s.now, RetryHolding)]))
  {
    assert RetryAllowed(s, 1);
    assert s.holds[1 := 1] == map[1 := 1];
    assert s.retries[0 := Retry(1, s.now, RetryHolding)] == map[0 := Retry(1, s.now, RetryHolding)];
  }

  /** The discarded order is reserved again and published, but the retry stops before it is marked. */
  lemma RetryOne(s0: State, category: int) returns (acts: seq<Action>, s: State)
    requires Opening(s0) && Stock(s0.store, category) >= 1 && s0.maxDelay > 0
    ensures Reachable(s0, acts, s)
    ensures s == s0.(store := s.store, req := map[1 := OneTicket(category)], holds := map[1 := 1], discards := {1}, now := s.now,
                     events := {(1, s.now)})
    ensures s.store == HoldingOne(s.store.inventory)
    ensures Stock(s.store, category) == Stock(s0.store, category) - 1
  {
    acts, s := DiscardOne(s0, category);
    LockOne(s.store, category);
    ReserveAgain(s, category);
    acts, s := ExtendRun(Step, s0, acts, s, Compensating(RetryReserve(0, 1)));
    acts, s := ExtendRun(Step, s0, acts, s, Compensating(RetryPublish(0, true)));
    acts, s := ExtendRun(Step, s0, acts, s, Compensating(RetryDies(0)));
    assert s.retries == map[];
  }

  /** The unmarked retry is repeated after the order was saved; its publish fails and it rolls back. */
  lemma CarelessRetryOversells(s0: State, category: int) returns (acts: seq<Action>, s: State)
    requires Opening(s0) && Stock(s0.store, category) >= 1 && !s0.policy.carefulRetries && s0.maxDelay > 0
    ensures Reachable(s0, acts, s) && SavedWithoutSeat(s0, s, category) && !NoOversell(s0, s)
  {
    acts, s := RetryOne(s0, category);
    acts, s := SaveOne(s0, acts, s, s.now);
    GiveBackOne(s.store.inventory, category);
    acts, s := ExtendRun(Step, s0, acts, s, Compensating(RetryReserve(0, 1)));
    acts, s := ExtendRun(Step, s0, acts, s, Compensating(RetryPublish(0, false)));
    acts, s := ExtendRun(Step, s0, acts, s, Compensating(RetryUndo(0)));
    WithoutSeatIsOversold(s0, s, category);
  }

  /**
   A sale that has something to sell is never oversold, in any run, if and only if its operators
   keep to the policy.
   */
  lemma NeverOversoldIffPrudent(s0: State, category: int)
    requires Opening(s0) && Stock(s0.store, category) >= 1
    ensures (forall acts, s :: Reachable(s0, acts, s) ==> NoOversell(s0, s)) <==> Prudent(s0)
  {
    if Prudent(s0) {
      forall acts, s | Reachable(s0, acts, s) ensures NoOversell(s0, s) { NeverOversold(s0, acts, s); }
    } else if !s0.policy.markersOutlive {
      var acts, s := ExpiredMarkerOversells(s0, category);
    } else if !s0.policy.serialHandlers {
      var acts, s := OverlappingHandlersOversell(s0, category);
    } else {
      var acts, s := CarelessRetryOversells(s0, category);
    }
  }
}
