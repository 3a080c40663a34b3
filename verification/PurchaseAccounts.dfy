/**
 The accounts of a sale: the stock and the tickets of the orders that still hold some, each order
 counted once, add up to what was seeded. An order holds while it is unpaid or paid, and before
 that while its reservation was taken and not given back.
 */
module PurchaseAccounts {
  import opened Runs
  import opened SeatStore
  import opened FiniteSets
  import opened PurchaseSaga
  import opened PurchaseSafety
  import opened PurchaseBacking
  import opened PurchaseHazards

  ghost predicate StillHolds(s: State, o: int) {
    LiveRow(s, o) || (o in s.holds && s.holds[o] >= 1)
  }

  ghost function TicketsHeld(s: State, category: int, o: int): int {
    if o in s.req && s.req[o].category == category && StillHolds(s, o) then s.req[o].count else 0
  }

  ghost function HeldOnce(s: State, category: int): int {
    Sum(s.req.Keys, (o: int) => TicketsHeld(s, category, o))
  }

  ghost predicate AddsUp(s0: State, s: State) {
    forall c :: Stock(s.store, c) + HeldOnce(s, c) == Stock(s0.store, c)
  }

  /** Prudent, and a retry that stopped before publishing is repeated only while its lock record is alive. */
  ghost predicate Tidy(s: State) {
    Prudent(s) && (s.maxDelay <= 0 || s.policy.repeatsLocked)
  }

  // ----- No order is reserved twice -----

  ghost predicate Single(s: State) {
    && (forall o :: o in s.holds ==> s.holds[o] <= 1)
    && (forall o :: o in s.holds && (o in s.store.rolledBack || o in s.store.released) ==> s.holds[o] == 0)
  }

  ghost predicate Accounts(s: State) {
    Tidy(s) && Inv(s) && Single(s)
  }

  ghost predicate MarksKept(s: State, s': State) {
    s'.holds == s.holds && s'.store.rolledBack == s.store.rolledBack && s'.store.released == s.store.released
  }

  /** A rollback that takes effect ends the one reservation. */
  lemma RollbackSingle(s: State, t: State, o: int, r: Request)
    requires Single(s) && MarksKept(s, t) && o in t.holds
    requires forall x :: x in RunRollback(t, o, r).holds ==> RunRollback(t, o, r).holds[x] >= 0
    ensures Single(RunRollback(t, o, r))
  {
    RollbackEffect(t, o, r);
  }

  lemma ReleaseSingle(s: State, t: State, o: int, r: Request)
    requires Single(s) && MarksKept(s, t) && o in t.holds
    requires forall x :: x in RunRelease(t, o, r).holds ==> RunRelease(t, o, r).holds[x] >= 0
    ensures Single(RunRelease(t, o, r))
  {
    ReleaseEffect(t, o, r);
  }

  lemma NotNegative(s: State)
    requires Inv(s)
    ensures forall o :: o in s.holds ==> s.holds[o] >= 0
  {
    forall o | o in s.holds ensures s.holds[o] >= 0 { assert OrderOk(s, o); }
  }

  lemma SubmitSingle(s: State, o: int, r: Request)
    requires Inv(s) && Single(s) && DoSubmit(s, o, r).Some?
    ensures Single(DoSubmit(s, o, r).value)
  {
    SubmitEffect(s, o, r);
    SubmitOutcomeSingle(s, DoSubmit(s, o, r).value, o, r);
  }

  lemma SubmitOutcomeSingle(s: State, s': State, o: int, r: Request)
    requires Inv(s) && Single(s) && o !in s.req && SubmitOutcome(s, s', o, r)
    ensures Single(s')
  {
  }

  lemma UndoSubmitSingle(s: State, o: int)
    requires Inv(s) && Single(s) && DoUndoSubmit(s, o).Some? && Inv(DoUndoSubmit(s, o).value)
    ensures Single(DoUndoSubmit(s, o).value)
  {
    NotNegative(DoUndoSubmit(s, o).value);
    RollbackSingle(s, s.(creators := s.creators - {o}), o, s.req[o]);
  }

  lemma SubmissionSingle(s: State, a: Submission)
    requires Inv(s) && Single(s) && StepSubmission(s, a).Some? && Inv(StepSubmission(s, a).value)
    ensures Single(StepSubmission(s, a).value)
  {
    match a
    case Submit(o, r) => SubmitSingle(s, o, r);
    case UndoSubmit(o) => UndoSubmitSingle(s, o);
    case Publish(o, ok) => assert MarksKept(s, DoPublish(s, o, ok).value);
    case CreatorDies(o) =>
  }

  lemma ConsumptionSingle(s: State, a: Consumption)
    requires Inv(s) && Single(s) && StepConsumption(s, a).Some? && Inv(StepConsumption(s, a).value)
    ensures Single(StepConsumption(s, a).value)
  {
    if a.RollBack? {
      var o := s.handlers[a.h].order;
      NotNegative(StepConsumption(s, a).value);
      RollbackSingle(s, s.(handlers := s.handlers[a.h := s.handlers[a.h].(pc := Recording)]), o, s.req[o]);
    } else {
      assert MarksKept(s, StepConsumption(s, a).value);
    }
  }

  /** A reservation is repeated only while its lock record is alive, which the script recognises. */
  lemma RetrySingle(s: State, t: int, o: int)
    requires Accounts(s) && DoRetryReserve(s, t, o).Some?
    ensures Single(DoRetryReserve(s, t, o).value)
  {
    RetryEffect(s, t, o);
    LockEffect(s.store, o, s.req[o]);
    RetryOutcomeSingle(s, DoRetryReserve(s, t, o).value, t, o);
  }

  lemma RetryOutcomeSingle(s: State, s': State, t: int, o: int)
    requires Single(s) && o in s.holds && RetryOutcome(s, s', t, o) && (o in s.store.locks || o in s.store.rolledBack)
    requires o in s.store.locks ==> s'.store == s.store && s'.holds == s.holds
    ensures Single(s')
  {
  }

  lemma CompensationSingle(s: State, a: Compensation)
    requires Accounts(s) && StepCompensation(s, a).Some? && Inv(StepCompensation(s, a).value)
    ensures Single(StepCompensation(s, a).value)
  {
    match a
    case RetryReserve(t, o) => RetrySingle(s, t, o);
    case RetryUndo(t) =>
      NotNegative(StepCompensation(s, a).value);
      RollbackSingle(s, s.(retries := s.retries - {t}), s.retries[t].order, s.req[s.retries[t].order]);
    case _ => assert MarksKept(s, StepCompensation(s, a).value);
  }

  lemma CancellationSingle(s: State, a: Cancellation)
    requires Inv(s) && Single(s) && StepCancellation(s, a).Some? && Inv(StepCancellation(s, a).value)
    ensures Single(StepCancellation(s, a).value)
  {
    if a.CancelRelease? {
      CancelReleaseSingle(s, a.c);
    } else {
      CancelMarksKept(s, a);
    }
  }

  lemma CancelMarksKept(s: State, a: Cancellation)
    requires StepCancellation(s, a).Some? && !a.CancelRelease?
    ensures MarksKept(s, StepCancellation(s, a).value)
  {
  }

  lemma CancelReleaseSingle(s: State, c: int)
    requires Inv(s) && Single(s) && DoCancelRelease(s, c).Some? && Inv(DoCancelRelease(s, c).value)
    ensures Single(DoCancelRelease(s, c).value)
  {
    var o := s.cancels[c].order;
    NotNegative(DoCancelRelease(s, c).value);
    ReleaseSingle(s, s.(cancels := s.cancels - {c}), o, s.req[o]);
  }

  lemma SettlementSingle(s: State, a: Settlement)
    requires Single(s) && StepSettlement(s, a).Some?
    ensures Single(StepSettlement(s, a).value)
  {
    match a
    case PayUpdate(p) => PayUpdateEffect(s, p);
    case PayConfirm(p) => assert MarksKept(s, DoPayConfirm(s, p).value);
    case PayRead(p, o) => assert MarksKept(s, DoPayRead(s, p, o).value);
    case PayDies(p) =>
    case RefundRow(o) =>
  }

  lemma PassingSingle(s: State, a: Passing)
    requires Single(s) && s.policy.markersOutlive && StepPassing(s, a).Some?
    ensures Single(StepPassing(s, a).value)
  {
    assert MarksKept(s, StepPassing(s, a).value);
  }

  lemma StepKeepsSingle(s: State, a: Action)
    requires Accounts(s) && Step(s, a).Some? && Inv(Step(s, a).value)
    ensures Single(Step(s, a).value)
  {
    match a
    case Submitting(b) => SubmissionSingle(s, b);
    case Consuming(b) => ConsumptionSingle(s, b);
    case Compensating(b) => CompensationSingle(s, b);
    case Canceling(b) => CancellationSingle(s, b);
    case Settling(b) => SettlementSingle(s, b);
    case Elapsing(b) => PassingSingle(s, b);
  }

  lemma StepKeepsAccounts(s: State, a: Action)
    requires Accounts(s) && Step(s, a).Some?
    ensures Accounts(Step(s, a).value)
  {
    StepKeeps(s, a);
    StepFixed(s, a);
    StepKeepsSingle(s, a);
  }

  // ----- The accounts add up -----

  lemma HeldOnceIsHeld(s: State, category: int)
    requires Accounts(s)
    ensures HeldOnce(s, category) == Held(s, category)
  {
    forall o | o in s.req.Keys ensures TicketsHeld(s, category, o) == Weight(s, category, o) {
      assert OrderOk(s, o);
      assert s.holds[o] == 0 || s.holds[o] == 1;
    }
    SumSame(s.req.Keys, (o: int) => TicketsHeld(s, category, o), (o: int) => Weight(s, category, o));
  }

  lemma TidyRunsKeep(s0: State, acts: seq<Action>, s: State)
    requires Opening(s0) && Tidy(s0) && Reachable(s0, acts, s)
    ensures Accounts(s)
  {
    forall t, a | Accounts(t) && Step(t, a).Some? ensures Accounts(Step(t, a).value) { StepKeepsAccounts(t, a); }
    InvariantOfRun(Step, Accounts, s0, acts);
  }

  lemma StockAddsUp(s0: State, acts: seq<Action>, s: State)
    requires Opening(s0) && Tidy(s0) && Reachable(s0, acts, s)
    ensures AddsUp(s0, s) && forall c :: Stock(s.store, c) >= 0
    ensures forall o :: o in s.req ==> o in s.holds && 0 <= s.holds[o] <= 1
    ensures forall o :: o in s.store.rolledBack + s.store.released ==> !StillHolds(s, o)
  {
    TidyRunsKeep(s0, acts, s);
    forall c ensures Stock(s.store, c) + HeldOnce(s, c) == Stock(s0.store, c) && Stock(s.store, c) >= 0 {
      StockIsConserved(s0, acts, s, c);
      HeldOnceIsHeld(s, c);
    }
    NotNegative(s);
    forall o | o in s.store.rolledBack + s.store.released ensures !StillHolds(s, o) { assert OrderOk(s, o); }
  }

  // ----- Each condition is needed -----

  lemma TicketsStillHeld(s: State, category: int)
    ensures Tickets(s, category) <= HeldOnce(s, category)
  {
    SumAtMost(s.req.Keys, (o: int) => TicketsOf(s, category, o), (o: int) => TicketsHeld(s, category, o));
  }

  /** A sale that is oversold does not add up. */
  lemma OversoldDoesNotAddUp(s0: State, s: State)
    requires !NoOversell(s0, s)
    ensures !AddsUp(s0, s)
  {
    var c :| Tickets(s, c) + Stock(s.store, c) > Stock(s0.store, c);
    TicketsStillHeld(s, c);
  }

  lemma HeldOfOne(s: State, category: int)
    requires s.req == map[1 := OneTicket(category)] && 1 in s.holds && s.holds[1] >= 1
    ensures HeldOnce(s, category) == 1
  {
    var f := (o: int) => TicketsHeld(s, category, o);
    SumRemove(s.req.Keys, f, 1);
    assert s.req.Keys - {1} == {};
  }

  /**
   A retry reserves and stops; its lock record and its seat key expire; the next retry reserves
   again. Two tickets are out of the stock for an order of one.
   */
  lemma LapsedRetryReservesTwice(s0: State, category: int) returns (acts: seq<Action>, s: State)
    requires Opening(s0) && Stock(s0.store, category) >= 2 && s0.maxDelay > 0 && !s0.policy.repeatsLocked
    ensures Reachable(s0, acts, s) && s.req == map[1 := OneTicket(category)] && s.orders == map[]
    ensures 1 in s.holds && s.holds[1] == 2 && Stock(s.store, category) == Stock(s0.store, category) - 2
  {
    acts, s := DiscardOne(s0, category);
    LockOne(s.store, category);
    ReserveAgain(s, category);
    acts, s := ExtendRun(Step, s0, acts, s, Compensating(RetryReserve(0, 1)));
    acts, s := StopAndLapse(s0, acts, s);
    LockOne(s.store, category);
    assert RetryAllowed(s, 1);
    acts, s := ExtendRun(Step, s0, acts, s, Compensating(RetryReserve(0, 1)));
  }

  lemma StopAndLapse(s0: State, acts: seq<Action>, s: State) returns (more: seq<Action>, s': State)
    requires Reachable(s0, acts, s) && s.store == HoldingOne(s.store.inventory) && s.retries.Keys == {0}
    requires s.orders == map[] && s.creators == map[] && s.events == {}
    ensures Reachable(s0, more, s') && s' == s.(store := Store(s.store.inventory, {}, {}, {}, map[]), retries := map[])
  {
    more, s' := ExtendRun(Step, s0, acts, s, Compensating(RetryDies(0)));
    assert s'.retries == map[];
    more, s' := ExtendRun(Step, s0, more, s', Elapsing(LockExpires(1)));
    assert !Open(s', 1);
    more, s' := ExtendRun(Step, s0, more, s', Elapsing(KeyExpires(HOLDER)));
    assert s'.store == Store(s.store.inventory, {}, {}, {}, map[]);
  }

  /** The accounts add up in every run exactly under these conditions. */
  lemma AddsUpIffTidy(s0: State, category: int)
    requires Opening(s0) && Stock(s0.store, category) >= 2
    ensures (forall acts, s :: Reachable(s0, acts, s) ==> AddsUp(s0, s)) <==> Tidy(s0)
  {
    if Tidy(s0) {
      forall acts, s | Reachable(s0, acts, s) ensures AddsUp(s0, s) { StockAddsUp(s0, acts, s); }
    } else if Prudent(s0) {
      var acts, s := LapsedRetryReservesTwice(s0, category);
      HeldOfOne(s, category);
    } else {
      NeverOversoldIffPrudent(s0, category);
      var acts, s :| Reachable(s0, acts, s) && !NoOversell(s0, s);
      OversoldDoesNotAddUp(s0, s);
    }
  }
}
