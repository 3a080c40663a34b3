/** What every run of the purchase saga keeps. */
module PurchaseSafety {
  import opened Runs
  import opened Orders
  import opened SeatStore
  import opened FiniteSets
  import opened PurchaseSaga

  // ----- What no step changes -----

  ghost predicate Fixed(s: State, s': State) {
    s'.policy == s.policy && s'.maxDelay == s.maxDelay && s.now <= s'.now
  }

  lemma SubmissionFixed(s: State, a: Submission)
    requires StepSubmission(s, a).Some?
    ensures Fixed(s, StepSubmission(s, a).value)
  {
    match a
    case Submit(o, r) => SubmittedFixed(s, o, r, LockScript(s.store, o, r).0, LockScript(s.store, o, r).1);
    case UndoSubmit(o) => RollbackFixed(s.(creators := s.creators - {o}), o, s.req[o]);
    case Publish(o, ok) =>
    case CreatorDies(o) =>
  }

  lemma SubmittedFixed(s: State, o: int, r: Request, store: Store, result: LockResult)
    ensures Fixed(s, Submitted(s, o, r, store, result))
  {
  }

  lemma SetHoldFixed(s: State, o: int, store: Store, delta: int)
    ensures Fixed(s, SetHold(s, o, store, delta))
  {
  }

  lemma RollbackFixed(s: State, o: int, r: Request)
    ensures Fixed(s, RunRollback(s, o, r))
  {
    var (store, reply) := RollbackScript(s.store, o, r);
    SetHoldFixed(s, o, store, if reply == Done then -1 else 0);
  }

  lemma ReleaseFixed(s: State, o: int, r: Request)
    ensures Fixed(s, RunRelease(s, o, r))
  {
    var (store, reply) := ReleaseScript(s.store, o, r);
    SetHoldFixed(s, o, store, if reply == Done then -1 else 0);
  }

  lemma ConsumptionFixed(s: State, a: Consumption)
    requires StepConsumption(s, a).Some?
    ensures Fixed(s, StepConsumption(s, a).value)
  {
    if a.RollBack? {
      var o := s.handlers[a.h].order;
      RollbackFixed(s.(handlers := s.handlers[a.h := s.handlers[a.h].(pc := Recording)]), o, s.req[o]);
    }
  }

  lemma RetriedFixed(s: State, t: int, o: int, store: Store, result: LockResult)
    ensures Fixed(s, Retried(s, t, o, store, result))
  {
  }

  lemma CompensationFixed(s: State, a: Compensation)
    requires StepCompensation(s, a).Some?
    ensures Fixed(s, StepCompensation(s, a).value)
  {
    match a
    case RetryReserve(t, o) => RetriedFixed(s, t, o, LockScript(s.store, o, s.req[o]).0, LockScript(s.store, o, s.req[o]).1);
    case RetryUndo(t) => RollbackFixed(s.(retries := s.retries - {t}), s.retries[t].order, s.req[s.retries[t].order]);
    case _ =>
  }

  lemma CancellationFixed(s: State, a: Cancellation)
    requires StepCancellation(s, a).Some?
    ensures Fixed(s, StepCancellation(s, a).value)
  {
    if a.CancelRelease? {
      ReleaseFixed(s.(cancels := s.cancels - {a.c}), s.cancels[a.c].order, s.req[s.cancels[a.c].order]);
    }
  }

  lemma SettlementFixed(s: State, a: Settlement)
    requires StepSettlement(s, a).Some?
    ensures Fixed(s, StepSettlement(s, a).value)
  {
    if a.PayUpdate? {
      assert Fixed(s, DoPayUpdate(s, a.p).value);
    }
  }

  lemma PassingFixed(s: State, a: Passing)
    requires StepPassing(s, a).Some?
    ensures Fixed(s, StepPassing(s, a).value)
  {
  }

  lemma StepFixed(s: State, a: Action)
    requires Step(s, a).Some?
    ensures Fixed(s, Step(s, a).value)
  {
    match a
    case Submitting(b) => SubmissionFixed(s, b);
    case Consuming(b) => ConsumptionFixed(s, b);
    case Compensating(b) => CompensationFixed(s, b);
    case Canceling(b) => CancellationFixed(s, b);
    case Settling(b) => SettlementFixed(s, b);
    case Elapsing(b) => PassingFixed(s, b);
  }

  // ----- Seats follow orders, whatever the operators do -----

  ghost predicate Closed(s: State, o: int) {
    o in s.orders && (s.orders[o] == Cancel || s.orders[o] == Refund)
  }

  ghost predicate Paid(s: State, o: int) {
    o in s.orders && s.orders[o] == Pay
  }

  ghost predicate SeatsInv(s: State) {
    && (forall k :: k in s.store.owners && s.store.owners[k].Sold? ==> Paid(s, s.store.owners[k].order))
    && (forall o :: o in s.store.released ==> Closed(s, o))
    && (forall c :: c in s.cancels && s.cancels[c].pc == Applying ==> Closed(s, s.cancels[c].order))
    && (forall p :: p in s.pays && s.pays[p].pc == Applying ==> Paid(s, s.pays[p].order))
  }

  /** Rows keep being closed or paid, and nothing is sold or released against its row. */
  lemma SeatsInvFrame(s: State, s': State)
    requires SeatsInv(s)
    requires forall o :: (Closed(s, o) ==> Closed(s', o)) && (Paid(s, o) ==> Paid(s', o))
    requires forall k :: k in s'.store.owners && s'.store.owners[k].Sold? ==>
               (k in s.store.owners && s.store.owners[k] == s'.store.owners[k]) || Paid(s', s'.store.owners[k].order)
    requires forall o :: o in s'.store.released ==> o in s.store.released || Closed(s', o)
    requires forall c :: c in s'.cancels && s'.cancels[c].pc == Applying ==>
               (c in s.cancels && s.cancels[c] == s'.cancels[c]) || Closed(s', s'.cancels[c].order)
    requires forall p :: p in s'.pays && s'.pays[p].pc == Applying ==>
               (p in s.pays && s.pays[p] == s'.pays[p]) || Paid(s', s'.pays[p].order)
    ensures SeatsInv(s')
  {
  }

  /** A script that neither sells nor releases keeps the seats in line with the rows. */
  lemma SeatsInvStore(s: State, s': State)
    requires SeatsInv(s) && RowsAndCommandsKept(s, s')
    requires SoldKept(s'.store, s.store) && s'.store.released <= s.store.released
    ensures SeatsInv(s')
  {
  }

  lemma SubmitRunsLock(s: State, o: int, r: Request)
    requires DoSubmit(s, o, r).Some?
    ensures var s' := DoSubmit(s, o, r).value;
            s'.store == LockScript(s.store, o, r).0 && RowsAndCommandsKept(s, s')
  {
    SubmittedKeeps(s, o, r, LockScript(s.store, o, r).0, LockScript(s.store, o, r).1);
  }

  ghost predicate RowsAndCommandsKept(s: State, s': State) {
    s'.orders == s.orders && s'.cancels == s.cancels && s'.pays == s.pays
  }

  lemma SubmittedKeeps(s: State, o: int, r: Request, store: Store, result: LockResult)
    ensures var s' := Submitted(s, o, r, store, result); s'.store == store && RowsAndCommandsKept(s, s')
  {
  }

  lemma RetriedKeeps(s: State, t: int, o: int, store: Store, result: LockResult)
    ensures var s' := Retried(s, t, o, store, result); s'.store == store && RowsAndCommandsKept(s, s')
  {
  }

  lemma SeatsInvSubmit(s: State, o: int, r: Request)
    requires SeatsInv(s) && DoSubmit(s, o, r).Some?
    ensures SeatsInv(DoSubmit(s, o, r).value) && SoldKept(s.store, DoSubmit(s, o, r).value.store)
  {
    SubmitRunsLock(s, o, r);
    LockSellsNothing(s.store, o, r);
    SeatsInvStore(s, DoSubmit(s, o, r).value);
  }

  lemma SeatsInvSubmission(s: State, a: Submission)
    requires SeatsInv(s) && StepSubmission(s, a).Some?
    ensures SeatsInv(StepSubmission(s, a).value) && SoldKept(s.store, StepSubmission(s, a).value.store)
  {
    match a
    case Submit(o, r) => SeatsInvSubmit(s, o, r);
    case UndoSubmit(o) => SeatsInvRollback(s, o, s.req[o], s.(creators := s.creators - {o}));
    case Publish(o, ok) => SeatsInvStore(s, DoPublish(s, o, ok).value);
    case CreatorDies(o) => SeatsInvStore(s, s.(creators := s.creators - {o}));
  }

  /** A rollback by a process that has taken itself off the list first. */
  lemma SeatsInvRollback(s: State, o: int, r: Request, t: State)
    requires SeatsInv(s) && t.store == s.store && RowsAndCommandsKept(s, t)
    ensures SeatsInv(RunRollback(t, o, r)) && SoldKept(s.store, RunRollback(t, o, r).store)
  {
    RollbackSellsNothing(s.store, o, r);
    SeatsInvStore(s, RunRollback(t, o, r));
  }

  lemma SeatsInvConsumption(s: State, a: Consumption)
    requires SeatsInv(s) && StepConsumption(s, a).Some?
    ensures SeatsInv(StepConsumption(s, a).value) && SoldKept(s.store, StepConsumption(s, a).value.store)
  {
    if a.RollBack? {
      var o := s.handlers[a.h].order;
      RollbackSellsNothing(s.store, o, s.req[o]);
    }
    SeatsInvFrame(s, StepConsumption(s, a).value);
  }

  lemma RetryRunsLock(s: State, t: int, o: int)
    requires DoRetryReserve(s, t, o).Some?
    ensures var s' := DoRetryReserve(s, t, o).value;
            s'.store == LockScript(s.store, o, s.req[o]).0 && RowsAndCommandsKept(s, s')
  {
    RetriedKeeps(s, t, o, LockScript(s.store, o, s.req[o]).0, LockScript(s.store, o, s.req[o]).1);
  }

  lemma SeatsInvRetry(s: State, t: int, o: int)
    requires SeatsInv(s) && DoRetryReserve(s, t, o).Some?
    ensures SeatsInv(DoRetryReserve(s, t, o).value) && SoldKept(s.store, DoRetryReserve(s, t, o).value.store)
  {
    RetryRunsLock(s, t, o);
    LockSellsNothing(s.store, o, s.req[o]);
    SeatsInvStore(s, DoRetryReserve(s, t, o).value);
  }

  lemma SeatsInvCompensation(s: State, a: Compensation)
    requires SeatsInv(s) && StepCompensation(s, a).Some?
    ensures SeatsInv(StepCompensation(s, a).value) && SoldKept(s.store, StepCompensation(s, a).value.store)
  {
    match a
    case RetryReserve(t, o) => SeatsInvRetry(s, t, o);
    case RetryUndo(t) => SeatsInvRollback(s, s.retries[t].order, s.req[s.retries[t].order], s.(retries := s.retries - {t}));
    case _ => SeatsInvStore(s, StepCompensation(s, a).value);
  }

  lemma SeatsInvRelease(s: State, c: int)
    requires SeatsInv(s) && DoCancelRelease(s, c).Some?
    ensures SeatsInv(DoCancelRelease(s, c).value) && SoldKept(s.store, DoCancelRelease(s, c).value.store)
  {
    var o := s.cancels[c].order;
    ReleaseSellsNothing(s.store, o, s.req[o]);
    assert Closed(s, o);
    SeatsInvFrame(s, DoCancelRelease(s, c).value);
  }

  lemma SeatsInvConfirm(s: State, p: int)
    requires SeatsInv(s) && DoPayConfirm(s, p).Some?
    ensures SeatsInv(DoPayConfirm(s, p).value) && SoldKept(s.store, DoPayConfirm(s, p).value.store)
  {
    var o := s.pays[p].order;
    ConfirmSellsToItsOrder(s.store, o, s.req[o]);
    assert Paid(s, o);
    SeatsInvFrame(s, DoPayConfirm(s, p).value);
  }

  lemma SeatsInvCancellation(s: State, a: Cancellation)
    requires SeatsInv(s) && StepCancellation(s, a).Some?
    ensures SeatsInv(StepCancellation(s, a).value) && SoldKept(s.store, StepCancellation(s, a).value.store)
  {
    match a
    case CancelRead(c, o) => SeatsInvCancelRead(s, c, o);
    case CancelUpdate(c) =>
      CancelUpdateEffect(s, c);
      SeatsInvCanceled(s, DoCancelUpdate(s, c).value, c);
    case CancelRelease(c) => SeatsInvRelease(s, c);
    case CancelDies(c) => SeatsInvFrame(s, s.(cancels := s.cancels - {c}));
  }

  lemma SeatsInvCancelRead(s: State, c: int, o: int)
    requires SeatsInv(s) && DoCancelRead(s, c, o).Some?
    ensures SeatsInv(DoCancelRead(s, c, o).value) && DoCancelRead(s, c, o).value.store == s.store
  {
    SeatsInvFrame(s, DoCancelRead(s, c, o).value);
  }

  /** A compare-and-set on the row that was accepted, or one that was refused and ends the command. */
  ghost predicate CancelOutcome(s: State, s': State, c: int) {
    && c in s.cancels
    && var o := s.cancels[c].order;
       || (Accepts(s.orders, o, Cancel) && s' == s.(orders := s.orders[o := Cancel], cancels := s.cancels[c := Command(o, Applying)]))
       || s' == s.(cancels := s.cancels - {c})
  }

  ghost predicate PayOutcome(s: State, s': State, p: int) {
    && p in s.pays
    && var o := s.pays[p].order;
       || (Accepts(s.orders, o, Pay) && s' == s.(orders := s.orders[o := Pay], pays := s.pays[p := Command(o, Applying)]))
       || s' == s.(pays := s.pays - {p})
  }

  lemma CancelUpdateEffect(s: State, c: int)
    requires DoCancelUpdate(s, c).Some?
    ensures CancelOutcome(s, DoCancelUpdate(s, c).value, c)
  {
  }

  lemma PayUpdateEffect(s: State, p: int)
    requires DoPayUpdate(s, p).Some?
    ensures PayOutcome(s, DoPayUpdate(s, p).value, p)
  {
  }

  lemma SeatsInvCanceled(s: State, s': State, c: int)
    requires SeatsInv(s) && CancelOutcome(s, s', c)
    ensures SeatsInv(s') && s'.store == s.store
  {
    RowMovesKeepPaidAndClosed(s, s', s.cancels[c].order, Cancel);
    SeatsInvFrame(s, s');
  }

  /** A compare-and-set that is refused changes no row; one that is accepted unsettles none. */
  lemma RowMovesKeepPaidAndClosed(s: State, s': State, o: int, target: Status)
    requires s'.orders == s.orders || (Accepts(s.orders, o, target) && s'.orders == s.orders[o := target])
    ensures forall x :: (Closed(s, x) ==> Closed(s', x)) && (Paid(s, x) ==> Paid(s', x))
  {
  }

  lemma SeatsInvPaid(s: State, s': State, p: int)
    requires SeatsInv(s) && PayOutcome(s, s', p)
    ensures SeatsInv(s') && s'.store == s.store
  {
    RowMovesKeepPaidAndClosed(s, s', s.pays[p].order, Pay);
    SeatsInvFrame(s, s');
  }

  lemma SeatsInvSettlement(s: State, a: Settlement)
    requires SeatsInv(s) && StepSettlement(s, a).Some?
    ensures SeatsInv(StepSettlement(s, a).value) && SoldKept(s.store, StepSettlement(s, a).value.store)
  {
    match a
    case PayConfirm(p) => SeatsInvConfirm(s, p);
    case PayUpdate(p) =>
      PayUpdateEffect(s, p);
      SeatsInvPaid(s, DoPayUpdate(s, p).value, p);
    case PayRead(p, o) => SeatsInvFrame(s, DoPayRead(s, p, o).value);
    case PayDies(p) => SeatsInvFrame(s, s.(pays := s.pays - {p}));
    case RefundRow(o) => SeatsInvFrame(s, s.(orders := s.orders[o := Refund]));
  }

  lemma SeatsInvPassing(s: State, a: Passing)
    requires SeatsInv(s) && StepPassing(s, a).Some?
    ensures SeatsInv(StepPassing(s, a).value) && SoldKept(s.store, StepPassing(s, a).value.store)
  {
  }

  lemma SeatsInvStep(s: State, a: Action)
    requires SeatsInv(s) && Step(s, a).Some?
    ensures SeatsInv(Step(s, a).value)
    ensures SoldKept(s.store, Step(s, a).value.store)
  {
    match a
    case Submitting(b) => SeatsInvSubmission(s, b);
    case Consuming(b) => SeatsInvConsumption(s, b);
    case Compensating(b) => SeatsInvCompensation(s, b);
    case Canceling(b) => SeatsInvCancellation(s, b);
    case Settling(b) => SeatsInvSettlement(s, b);
    case Elapsing(b) => SeatsInvPassing(s, b);
  }

  /** A key holding sold:o means that order o is paid; an order whose seats were released is canceled or refunded. */
  lemma SeatsFollowOrders(s0: State, acts: seq<Action>, s: State)
    requires Opening(s0) && Reachable(s0, acts, s)
    ensures forall k :: k in s.store.owners && s.store.owners[k].Sold? ==> Paid(s, s.store.owners[k].order)
    ensures forall o :: o in s.store.released ==> Closed(s, o)
    ensures forall k :: k in s.store.owners && s.store.owners[k].Sold? ==> s.store.owners[k].order !in s.store.released
  {
    forall t, a | SeatsInv(t) && Step(t, a).Some? ensures SeatsInv(Step(t, a).value) { SeatsInvStep(t, a); }
    InvariantOfRun(Step, SeatsInv, s0, acts);
  }

  /** Once sold to o, a key stays sold to o under every script, expiry and interleaving. */
  lemma SoldIsForever(s0: State, acts: seq<Action>, s: State, more: seq<Action>, s': State)
    requires Opening(s0) && Reachable(s0, acts, s) && Reachable(s, more, s')
    ensures SoldKept(s.store, s'.store)
  {
    forall t, a | SeatsInv(t) && Step(t, a).Some? ensures SeatsInv(Step(t, a).value) { SeatsInvStep(t, a); }
    InvariantOfRun(Step, SeatsInv, s0, acts);
    var rel := (t: State, u: State) => SoldKept(t.store, u.store);
    forall t, a | SeatsInv(t) && Step(t, a).Some? ensures SeatsInv(Step(t, a).value) && rel(t, Step(t, a).value) {
      SeatsInvStep(t, a);
    }
    RelationOfRun(Step, SeatsInv, rel, s, more);
  }

  // ----- The ledger: stock and the reservations taken and not given back balance -----

  function Weight(s: State, category: int, o: int): int {
    if o in s.req && o in s.holds && s.req[o].category == category then s.req[o].count * s.holds[o] else 0
  }

  /** Tickets of a category that are reserved and not given back. */
  ghost function Held(s: State, category: int): int {
    Sum(s.req.Keys, (o: int) => Weight(s, category, o))
  }

  ghost predicate Conserves(s: State, category: int, seeded: int) {
    s.holds.Keys == s.req.Keys && Stock(s.store, category) + Held(s, category) == seeded && Stock(s.store, category) >= 0
  }

  lemma HeldUnchanged(s: State, s': State, category: int)
    requires s'.req == s.req && s'.holds == s.holds
    ensures Held(s', category) == Held(s, category)
  {
    SumSame(s.req.Keys, (o: int) => Weight(s, category, o), (o: int) => Weight(s', category, o));
  }

  /** Changing one order's count of reservations by `delta` changes the held tickets accordingly. */
  lemma HeldChanges(s: State, s': State, o: int, delta: int, category: int)
    requires o in s.req && o in s.holds && s'.req == s.req && s'.holds == s.holds[o := s.holds[o] + delta]
    ensures Held(s', category) ==
            Held(s, category) + (if s.req[o].category == category then s.req[o].count * delta else 0)
  {
    SumChange(s.req.Keys, (x: int) => Weight(s, category, x), (x: int) => Weight(s', category, x), o);
    assert s.req[o].count * (s.holds[o] + delta) == s.req[o].count * s.holds[o] + s.req[o].count * delta;
  }

  /** A newly issued order number with no reservation yet weighs nothing. */
  lemma HeldOfNewOrder(s: State, s': State, o: int, r: Request, category: int)
    requires o !in s.req && s.holds.Keys == s.req.Keys && s'.req == s.req[o := r] && s'.holds == s.holds[o := 0]
    ensures Held(s', category) == Held(s, category)
  {
    SumRemove(s'.req.Keys, (x: int) => Weight(s', category, x), o);
    assert s'.req.Keys - {o} == s.req.Keys;
    SumSame(s.req.Keys, (x: int) => Weight(s, category, x), (x: int) => Weight(s', category, x));
  }

  /** A script that takes or gives back one reservation of order `o`. */
  lemma ScriptConserves(s: State, s': State, o: int, delta: int, category: int, seeded: int)
    requires Conserves(s, category, seeded) && o in s.req && s'.req == s.req
    requires s'.holds == s.holds[o := s.holds[o] + delta]
    requires forall c :: Stock(s'.store, c) == Stock(s.store, c) - (if c == s.req[o].category then s.req[o].count * delta else 0)
    requires Stock(s'.store, category) >= 0
    ensures Conserves(s', category, seeded)
  {
    HeldChanges(s, s', o, delta, category);
  }

  lemma RollbackConserves(s: State, s': State, o: int, category: int, seeded: int)
    requires Conserves(s, category, seeded) && o in s.req && s'.req == s.req
    requires s'.store == RunRollback(s, o, s.req[o]).store && s'.holds == RunRollback(s, o, s.req[o]).holds
    ensures Conserves(s', category, seeded)
  {
    ScriptConserves(s, s', o, if RollbackScript(s.store, o, s.req[o]).1 == Done then -1 else 0, category, seeded);
  }

  /** The lock script takes exactly the requested tickets out of the stock, or changes no stock. */
  lemma LockTakes(st: Store, o: int, r: Request, category: int)
    requires Stock(st, category) >= 0
    ensures var (st', result) := LockScript(st, o, r);
            && Stock(st', category) == Stock(st, category) - (if category == r.category && result == Reserved then r.count else 0)
            && Stock(st', category) >= 0
  {
  }

  lemma SubmitConserves(s: State, o: int, r: Request, category: int, seeded: int)
    requires Conserves(s, category, seeded) && DoSubmit(s, o, r).Some?
    ensures Conserves(DoSubmit(s, o, r).value, category, seeded)
  {
    var (store, result) := LockScript(s.store, o, r);
    LockTakes(s.store, o, r, category);
    SubmittedConserves(s, o, r, store, result, category, seeded);
  }

  lemma SubmittedConserves(s: State, o: int, r: Request, store: Store, result: LockResult, category: int, seeded: int)
    requires Conserves(s, category, seeded) && o !in s.req && Stock(store, category) >= 0
    requires Stock(store, category) ==
             Stock(s.store, category) - (if category == r.category && result == Reserved then r.count else 0)
    ensures Conserves(Submitted(s, o, r, store, result), category, seeded)
  {
    var issued := s.(req := s.req[o := r], holds := s.holds[o := 0]);
    HeldOfNewOrder(s, issued, o, r, category);
    HeldChanges(issued, Submitted(s, o, r, store, result), o, if result == Reserved then 1 else 0, category);
  }

  lemma RetryConserves(s: State, t: int, o: int, category: int, seeded: int)
    requires Conserves(s, category, seeded) && DoRetryReserve(s, t, o).Some?
    ensures Conserves(DoRetryReserve(s, t, o).value, category, seeded)
  {
    var (store, result) := LockScript(s.store, o, s.req[o]);
    LockTakes(s.store, o, s.req[o], category);
    RetriedConserves(s, t, o, store, result, category, seeded);
  }

  lemma RetriedConserves(s: State, t: int, o: int, store: Store, result: LockResult, category: int, seeded: int)
    requires Conserves(s, category, seeded) && o in s.req && Stock(store, category) >= 0
    requires Stock(store, category) == Stock(s.store, category) -
               (if category == s.req[o].category && result == Reserved then s.req[o].count else 0)
    ensures Conserves(Retried(s, t, o, store, result), category, seeded)
  {
    HeldChanges(s, Retried(s, t, o, store, result), o, if result == Reserved then 1 else 0, category);
  }

  lemma ReleaseConserves(s: State, c: int, category: int, seeded: int)
    requires Conserves(s, category, seeded) && DoCancelRelease(s, c).Some?
    ensures Conserves(DoCancelRelease(s, c).value, category, seeded)
  {
    var o := s.cancels[c].order;
    var delta := if ReleaseScript(s.store, o, s.req[o]).1 == Done then -1 else 0;
    ScriptConserves(s, DoCancelRelease(s, c).value, o, delta, category, seeded);
  }

  ghost predicate LedgerKept(s: State, s': State) {
    s'.req == s.req && s'.holds == s.holds && s'.store.inventory == s.store.inventory
  }

  lemma CancellationKeepsLedger(s: State, a: Cancellation)
    requires StepCancellation(s, a).Some? && !a.CancelRelease?
    ensures LedgerKept(s, StepCancellation(s, a).value)
  {
    match a
    case CancelRead(c, o) => assert LedgerKept(s, DoCancelRead(s, c, o).value);
    case CancelUpdate(c) => CancelUpdateEffect(s, c);
    case CancelDies(c) =>
  }

  lemma SettlementKeepsLedger(s: State, a: Settlement)
    requires StepSettlement(s, a).Some?
    ensures LedgerKept(s, StepSettlement(s, a).value)
  {
    match a
    case PayUpdate(p) => PayUpdateEffect(s, p);
    case PayConfirm(p) => assert LedgerKept(s, DoPayConfirm(s, p).value);
    case PayRead(p, o) => assert LedgerKept(s, DoPayRead(s, p, o).value);
    case PayDies(p) =>
    case RefundRow(o) =>
  }

  lemma ConsumptionKeepsLedger(s: State, a: Consumption)
    requires StepConsumption(s, a).Some? && !a.RollBack?
    ensures LedgerKept(s, StepConsumption(s, a).value)
  {
  }

  lemma SubmissionConserves(s: State, a: Submission, category: int, seeded: int)
    requires Conserves(s, category, seeded) && StepSubmission(s, a).Some?
    ensures Conserves(StepSubmission(s, a).value, category, seeded)
  {
    match a
    case Submit(o, r) => SubmitConserves(s, o, r, category, seeded);
    case UndoSubmit(o) => RollbackConserves(s, DoUndoSubmit(s, o).value, o, category, seeded);
    case Publish(o, ok) => HeldUnchanged(s, DoPublish(s, o, ok).value, category);
    case CreatorDies(o) => HeldUnchanged(s, s.(creators := s.creators - {o}), category);
  }

  lemma ConsumptionConserves(s: State, a: Consumption, category: int, seeded: int)
    requires Conserves(s, category, seeded) && StepConsumption(s, a).Some?
    ensures Conserves(StepConsumption(s, a).value, category, seeded)
  {
    var s' := StepConsumption(s, a).value;
    if a.RollBack? {
      RollbackConserves(s, s', s.handlers[a.h].order, category, seeded);
    } else {
      ConsumptionKeepsLedger(s, a);
      HeldUnchanged(s, s', category);
    }
  }

  lemma CompensationConserves(s: State, a: Compensation, category: int, seeded: int)
    requires Conserves(s, category, seeded) && StepCompensation(s, a).Some?
    ensures Conserves(StepCompensation(s, a).value, category, seeded)
  {
    var s' := StepCompensation(s, a).value;
    match a
    case RetryReserve(t, o) => RetryConserves(s, t, o, category, seeded);
    case RetryUndo(t) => RollbackConserves(s, s', s.retries[t].order, category, seeded);
    case _ => HeldUnchanged(s, s', category);
  }

  lemma CancellationConserves(s: State, a: Cancellation, category: int, seeded: int)
    requires Conserves(s, category, seeded) && StepCancellation(s, a).Some?
    ensures Conserves(StepCancellation(s, a).value, category, seeded)
  {
    if a.CancelRelease? {
      ReleaseConserves(s, a.c, category, seeded);
    } else {
      CancellationKeepsLedger(s, a);
      HeldUnchanged(s, StepCancellation(s, a).value, category);
    }
  }

  lemma PassingConserves(s: State, a: Passing, category: int, seeded: int)
    requires Conserves(s, category, seeded) && StepPassing(s, a).Some?
    ensures Conserves(StepPassing(s, a).value, category, seeded)
  {
    HeldUnchanged(s, StepPassing(s, a).value, category);
  }

  lemma ConservesStep(s: State, a: Action, category: int, seeded: int)
    requires Conserves(s, category, seeded) && Step(s, a).Some?
    ensures Conserves(Step(s, a).value, category, seeded)
  {
    match a
    case Submitting(b) => SubmissionConserves(s, b, category, seeded);
    case Consuming(b) => ConsumptionConserves(s, b, category, seeded);
    case Compensating(b) => CompensationConserves(s, b, category, seeded);
    case Canceling(b) => CancellationConserves(s, b, category, seeded);
    case Settling(b) =>
      SettlementKeepsLedger(s, b);
      HeldUnchanged(s, StepSettlement(s, b).value, category);
    case Elapsing(b) => PassingConserves(s, b, category, seeded);
  }

  /** In every state the stock is non-negative, and stock plus held tickets is the seeded total. */
  lemma StockIsConserved(s0: State, acts: seq<Action>, s: State, category: int)
    requires Opening(s0) && Reachable(s0, acts, s)
    ensures Stock(s.store, category) >= 0
    ensures Stock(s.store, category) + Held(s, category) == Stock(s0.store, category)
  {
    var seeded := Stock(s0.store, category);
    assert Held(s0, category) == 0;
    var inv := (t: State) => Conserves(t, category, seeded);
    forall t, a | inv(t) && Step(t, a).Some? ensures inv(Step(t, a).value) { ConservesStep(t, a, category, seeded); }
    InvariantOfRun(Step, inv, s0, acts);
  }
}
