/**
 The submission, the discarding consumer, the compensation loop and the order commands as they are
 written, each running against other processes: between any two of their own actions the others
 may take any steps of PurchaseSaga, given by a schedule with one list of steps for each such
 point. Every execution is a run of that protocol, so what every run keeps holds throughout.
 */
module PurchaseProcesses {
  import opened Runs
  import opened Orders
  import opened SeatStore
  import opened PurchaseSaga
  import opened PurchaseSafety

  /** The process whose own records the others leave alone. */
  datatype Self = Submitter(o: int) | Consumer(h: int) | Retrier(t: int) | Canceler(c: int) | Payer(p: int)

  predicate Mine(a: Action, me: Self) {
    match me
    case Submitter(o) => a.Submitting? && a.submission.o == o
    case Consumer(h) => a.Consuming? && a.consumption.h == h
    case Retrier(t) => a.Compensating? && a.compensation.t == t
    case Canceler(c) => a.Canceling? && a.cancellation.c == c
    case Payer(p) => a.Settling? && !a.settlement.RefundRow? && a.settlement.p == p
  }

  ghost predicate SelfKept(s: State, s': State, me: Self) {
    match me
    case Submitter(o) => Untouched(s.creators, s'.creators, o)
    case Consumer(h) => Untouched(s.handlers, s'.handlers, h)
    case Retrier(t) => Untouched(s.retries, s'.retries, t)
    case Canceler(c) => Untouched(s.cancels, s'.cancels, c)
    case Payer(p) => Untouched(s.pays, s'.pays, p)
  }

  // ----- The records of one process belong to it -----

  ghost predicate Untouched<T(!new)>(m: map<int, T>, m': map<int, T>, k: int) {
    (k in m <==> k in m') && (k in m ==> m'[k] == m[k])
  }

  lemma SubmittedIsOwn(s: State, o: int, r: Request, store: Store, result: LockResult, x: int)
    ensures var s' := Submitted(s, o, r, store, result);
            && s'.handlers == s.handlers && s'.retries == s.retries && s'.cancels == s.cancels && s'.pays == s.pays
            && (x != o ==> Untouched(s.creators, s'.creators, x))
  {
  }

  ghost predicate ProcessesKept(s: State, s': State) {
    s'.creators == s.creators && s'.handlers == s.handlers && s'.retries == s.retries && s'.cancels == s.cancels && s'.pays == s.pays
  }

  lemma SetHoldIsOwn(s: State, o: int, store: Store, delta: int)
    ensures ProcessesKept(s, SetHold(s, o, store, delta))
  {
  }

  lemma SubmissionIsOwn(s: State, b: Submission, x: int)
    requires StepSubmission(s, b).Some?
    ensures var s' := StepSubmission(s, b).value;
            && s'.handlers == s.handlers && s'.retries == s.retries && s'.cancels == s.cancels && s'.pays == s.pays
            && (x != b.o ==> Untouched(s.creators, s'.creators, x))
  {
    match b
    case Submit(o, r) => SubmittedIsOwn(s, o, r, LockScript(s.store, o, r).0, LockScript(s.store, o, r).1, x);
    case UndoSubmit(o) => UndoIsOwn(s.(creators := s.creators - {o}), o, s.req[o]);
    case Publish(o, ok) => PublishIsOwn(s, o, ok, x);
    case CreatorDies(o) =>
  }

  lemma PublishIsOwn(s: State, o: int, ok: bool, x: int)
    requires DoPublish(s, o, ok).Some?
    ensures var s' := DoPublish(s, o, ok).value;
            && s'.handlers == s.handlers && s'.retries == s.retries && s'.cancels == s.cancels && s'.pays == s.pays
            && (x != o ==> Untouched(s.creators, s'.creators, x))
  {
  }

  lemma ConsumptionIsOwn(s: State, b: Consumption, x: int)
    requires StepConsumption(s, b).Some?
    ensures var s' := StepConsumption(s, b).value;
            && s'.creators == s.creators && s'.retries == s.retries && s'.cancels == s.cancels && s'.pays == s.pays
            && (x != b.h ==> Untouched(s.handlers, s'.handlers, x))
  {
  }

  lemma RetriedIsOwn(s: State, t: int, o: int, store: Store, result: LockResult, x: int)
    ensures var s' := Retried(s, t, o, store, result);
            && s'.creators == s.creators && s'.handlers == s.handlers && s'.cancels == s.cancels && s'.pays == s.pays
            && (x != t ==> Untouched(s.retries, s'.retries, x))
  {
  }

  lemma RetryPublishIsOwn(s: State, t: int, ok: bool, x: int)
    requires DoRetryPublish(s, t, ok).Some?
    ensures var s' := DoRetryPublish(s, t, ok).value;
            && s'.creators == s.creators && s'.handlers == s.handlers && s'.cancels == s.cancels && s'.pays == s.pays
            && (x != t ==> Untouched(s.retries, s'.retries, x))
  {
  }

  lemma CompensationIsOwn(s: State, b: Compensation, x: int)
    requires StepCompensation(s, b).Some?
    ensures var s' := StepCompensation(s, b).value;
            && s'.creators == s.creators && s'.handlers == s.handlers && s'.cancels == s.cancels && s'.pays == s.pays
            && (x != b.t ==> Untouched(s.retries, s'.retries, x))
  {
    match b
    case RetryReserve(t, o) => RetriedIsOwn(s, t, o, LockScript(s.store, o, s.req[o]).0, LockScript(s.store, o, s.req[o]).1, x);
    case RetryPublish(t, ok) => RetryPublishIsOwn(s, t, ok, x);
    case RetryUndo(t) => UndoIsOwn(s.(retries := s.retries - {t}), s.retries[t].order, s.req[s.retries[t].order]);
    case RetryMark(t) =>
    case RetryDies(t) =>
  }

  lemma UndoIsOwn(s: State, o: int, r: Request)
    ensures ProcessesKept(s, RunRollback(s, o, r))
  {
    var (store, reply) := RollbackScript(s.store, o, r);
    SetHoldIsOwn(s, o, store, if reply == Done then -1 else 0);
  }

  lemma GiveBackIsOwn(s: State, o: int, r: Request)
    ensures ProcessesKept(s, RunRelease(s, o, r))
  {
    var (store, reply) := ReleaseScript(s.store, o, r);
    SetHoldIsOwn(s, o, store, if reply == Done then -1 else 0);
  }

  lemma CancellationIsOwn(s: State, b: Cancellation, x: int)
    requires StepCancellation(s, b).Some?
    ensures var s' := StepCancellation(s, b).value;
            && s'.creators == s.creators && s'.handlers == s.handlers && s'.retries == s.retries && s'.pays == s.pays
            && (x != b.c ==> Untouched(s.cancels, s'.cancels, x))
  {
    match b
    case CancelRelease(c) => GiveBackIsOwn(s.(cancels := s.cancels - {c}), s.cancels[c].order, s.req[s.cancels[c].order]);
    case CancelUpdate(c) => CancelUpdateEffect(s, c);
    case CancelRead(c, o) => assert DoCancelRead(s, c, o).value.cancels - {c} == s.cancels - {c};
    case CancelDies(c) =>
  }

  lemma SettlementIsOwn(s: State, b: Settlement, x: int)
    requires StepSettlement(s, b).Some?
    ensures var s' := StepSettlement(s, b).value;
            && s'.creators == s.creators && s'.handlers == s.handlers && s'.retries == s.retries && s'.cancels == s.cancels
            && (b.RefundRow? || x != b.p ==> Untouched(s.pays, s'.pays, x))
  {
    if b.PayUpdate? {
      PayUpdateIsOwn(s, b.p, x);
    }
  }

  lemma PayUpdateIsOwn(s: State, p: int, x: int)
    requires DoPayUpdate(s, p).Some?
    ensures var s' := DoPayUpdate(s, p).value;
            && s'.creators == s.creators && s'.handlers == s.handlers && s'.retries == s.retries && s'.cancels == s.cancels
            && (x != p ==> Untouched(s.pays, s'.pays, x))
  {
    PayUpdateEffect(s, p);
  }

  lemma PassingIsOwn(s: State, b: Passing)
    requires StepPassing(s, b).Some?
    ensures var s' := StepPassing(s, b).value;
            && s'.creators == s.creators && s'.handlers == s.handlers && s'.retries == s.retries
            && s'.cancels == s.cancels && s'.pays == s.pays
  {
  }

  function Number(me: Self): int {
    match me
    case Submitter(o) => o
    case Consumer(h) => h
    case Retrier(t) => t
    case Canceler(c) => c
    case Payer(p) => p
  }

  /** No row disappears or leaves its path. */
  ghost predicate RowsStay(s: State, s': State) {
    forall o :: o in s.orders ==> o in s'.orders && Reaches(s.orders[o], s'.orders[o])
  }

  lemma SubmissionRows(s: State, b: Submission)
    requires StepSubmission(s, b).Some?
    ensures StepSubmission(s, b).value.orders == s.orders
  {
    match b
    case Submit(o, r) => SubmittedKeeps(s, o, r, LockScript(s.store, o, r).0, LockScript(s.store, o, r).1);
    case UndoSubmit(o) => RollbackRows(s.(creators := s.creators - {o}), o, s.req[o]);
    case Publish(o, ok) =>
    case CreatorDies(o) =>
  }

  lemma RollbackRows(s: State, o: int, r: Request)
    ensures RunRollback(s, o, r).orders == s.orders && RunRelease(s, o, r).orders == s.orders
  {
  }

  lemma ConsumptionRows(s: State, b: Consumption)
    requires StepConsumption(s, b).Some?
    ensures RowsStay(s, StepConsumption(s, b).value)
  {
    if b.RollBack? {
      var o := s.handlers[b.h].order;
      RollbackRows(s.(handlers := s.handlers[b.h := s.handlers[b.h].(pc := Recording)]), o, s.req[o]);
    }
  }

  lemma CompensationRows(s: State, b: Compensation)
    requires StepCompensation(s, b).Some?
    ensures StepCompensation(s, b).value.orders == s.orders
  {
    match b
    case RetryReserve(t, o) => RetriedKeeps(s, t, o, LockScript(s.store, o, s.req[o]).0, LockScript(s.store, o, s.req[o]).1);
    case RetryUndo(t) => RollbackRows(s.(retries := s.retries - {t}), s.retries[t].order, s.req[s.retries[t].order]);
    case RetryPublish(t, ok) =>
    case RetryMark(t) =>
    case RetryDies(t) =>
  }

  lemma CancellationRows(s: State, b: Cancellation)
    requires StepCancellation(s, b).Some?
    ensures RowsStay(s, StepCancellation(s, b).value)
  {
    match b
    case CancelRelease(c) => RollbackRows(s.(cancels := s.cancels - {c}), s.cancels[c].order, s.req[s.cancels[c].order]);
    case CancelUpdate(c) => CancelUpdateEffect(s, c);
    case CancelRead(c, o) => assert DoCancelRead(s, c, o).value.orders == s.orders;
    case CancelDies(c) =>
  }

  lemma SettlementRows(s: State, b: Settlement)
    requires StepSettlement(s, b).Some?
    ensures RowsStay(s, StepSettlement(s, b).value)
  {
    match b
    case PayUpdate(p) => PayUpdateEffect(s, p);
    case PayConfirm(p) => assert DoPayConfirm(s, p).value.orders == s.orders;
    case PayRead(p, o) => assert DoPayRead(s, p, o).value.orders == s.orders;
    case PayDies(p) =>
    case RefundRow(o) =>
  }

  lemma PassingRows(s: State, b: Passing)
    requires StepPassing(s, b).Some?
    ensures StepPassing(s, b).value.orders == s.orders
  {
  }

  lemma StepRows(s: State, a: Action)
    requires Step(s, a).Some?
    ensures RowsStay(s, Step(s, a).value)
  {
    match a
    case Submitting(b) => SubmissionRows(s, b);
    case Consuming(b) => ConsumptionRows(s, b);
    case Compensating(b) => CompensationRows(s, b);
    case Canceling(b) => CancellationRows(s, b);
    case Settling(b) => SettlementRows(s, b);
    case Elapsing(b) => PassingRows(s, b);
  }

  lemma OthersKeepSelf(s: State, a: Action, me: Self)
    requires Step(s, a).Some? && !Mine(a, me)
    ensures SelfKept(s, Step(s, a).value, me)
  {
    match a
    case Submitting(b) => SubmissionIsOwn(s, b, Number(me));
    case Consuming(b) => ConsumptionIsOwn(s, b, Number(me));
    case Compensating(b) => CompensationIsOwn(s, b, Number(me));
    case Canceling(b) => CancellationIsOwn(s, b, Number(me));
    case Settling(b) => SettlementIsOwn(s, b, Number(me));
    case Elapsing(b) => PassingIsOwn(s, b);
  }

  // ----- Rows and commands are of submitted orders -----

  ghost predicate RowsKnown(s: State) {
    && (forall o :: o in s.orders ==> o in s.req)
    && (forall h :: h in s.handlers ==> s.handlers[h].order in s.req)
    && (forall o :: o in s.creators ==> o in s.req)
  }

  ghost predicate CommandsKnown(s: State) {
    && (forall t :: t in s.retries ==> s.retries[t].order in s.req)
    && (forall c :: c in s.cancels ==> s.cancels[c].order in s.req)
    && (forall p :: p in s.pays ==> s.pays[p].order in s.req)
  }

  ghost predicate EventsKnown(s: State) {
    forall e :: e in s.events ==> e.0 in s.req
  }

  ghost predicate Known(s: State) {
    RowsKnown(s) && CommandsKnown(s) && EventsKnown(s)
  }

  lemma SetHoldKnown(s: State, o: int, store: Store, delta: int)
    requires Known(s)
    ensures Known(SetHold(s, o, store, delta))
  {
  }

  /** More submitted orders do no harm. */
  lemma IssuedKnown(s: State, o: int, r: Request)
    requires Known(s)
    ensures Known(s.(req := s.req[o := r]))
  {
    var s' := s.(req := s.req[o := r]);
    assert RowsKnown(s');
    assert CommandsKnown(s');
    assert EventsKnown(s');
  }

  lemma CreatorKnown(s: State, o: int, creator: Creator)
    requires Known(s) && o in s.req
    ensures Known(s.(creators := s.creators[o := creator]))
  {
    var s' := s.(creators := s.creators[o := creator]);
    assert RowsKnown(s');
    assert CommandsKnown(s');
    assert EventsKnown(s');
  }

  lemma SubmittedKnown(s: State, o: int, r: Request, store: Store, result: LockResult)
    requires Known(s)
    ensures Known(Submitted(s, o, r, store, result))
  {
    var issued := s.(req := s.req[o := r]);
    IssuedKnown(s, o, r);
    var held := SetHold(issued, o, store, if result == Reserved then 1 else 0);
    SetHoldKnown(issued, o, store, if result == Reserved then 1 else 0);
    CreatorKnown(held, o, Creator(s.now, Holding));
    assert held.creators == s.creators;
  }

  lemma RollbackKnown(s: State, o: int, r: Request)
    requires Known(s)
    ensures Known(RunRollback(s, o, r))
  {
    var (store, reply) := RollbackScript(s.store, o, r);
    SetHoldKnown(s, o, store, if reply == Done then -1 else 0);
  }

  lemma ReleaseKnown(s: State, o: int, r: Request)
    requires Known(s)
    ensures Known(RunRelease(s, o, r))
  {
    var (store, reply) := ReleaseScript(s.store, o, r);
    SetHoldKnown(s, o, store, if reply == Done then -1 else 0);
  }

  lemma SubmissionKnown(s: State, b: Submission)
    requires Known(s) && StepSubmission(s, b).Some?
    ensures Known(StepSubmission(s, b).value)
  {
    match b
    case Submit(o, r) => SubmittedKnown(s, o, r, LockScript(s.store, o, r).0, LockScript(s.store, o, r).1);
    case UndoSubmit(o) => RollbackKnown(s.(creators := s.creators - {o}), o, s.req[o]);
    case Publish(o, ok) => PublishKnown(s, o, ok);
    case CreatorDies(o) =>
  }

  lemma PublishKnown(s: State, o: int, ok: bool)
    requires Known(s) && DoPublish(s, o, ok).Some?
    ensures Known(DoPublish(s, o, ok).value)
  {
  }

  lemma ConsumptionKnown(s: State, b: Consumption)
    requires Known(s) && StepConsumption(s, b).Some?
    ensures Known(StepConsumption(s, b).value)
  {
    if b.Deliver? {
      assert (b.o, b.createdAt) in s.events;
    }
  }

  lemma RetriedKnown(s: State, t: int, o: int, store: Store, result: LockResult)
    requires Known(s) && o in s.req
    ensures Known(Retried(s, t, o, store, result))
  {
  }

  lemma CompensationKnown(s: State, b: Compensation)
    requires Known(s) && StepCompensation(s, b).Some?
    ensures Known(StepCompensation(s, b).value)
  {
    match b
    case RetryReserve(t, o) => RetriedKnown(s, t, o, LockScript(s.store, o, s.req[o]).0, LockScript(s.store, o, s.req[o]).1);
    case RetryUndo(t) => RollbackKnown(s.(retries := s.retries - {t}), s.retries[t].order, s.req[s.retries[t].order]);
    case RetryPublish(t, ok) => RetryPublishKnown(s, t, ok);
    case RetryMark(t) =>
    case RetryDies(t) =>
  }

  lemma RetryPublishKnown(s: State, t: int, ok: bool)
    requires Known(s) && DoRetryPublish(s, t, ok).Some?
    ensures Known(DoRetryPublish(s, t, ok).value)
  {
  }

  lemma CancellationKnown(s: State, b: Cancellation)
    requires Known(s) && StepCancellation(s, b).Some?
    ensures Known(StepCancellation(s, b).value)
  {
    match b
    case CancelRelease(c) => ReleaseKnown(s.(cancels := s.cancels - {c}), s.cancels[c].order, s.req[s.cancels[c].order]);
    case CancelUpdate(c) =>
      CancelUpdateEffect(s, c);
      CancelUpdateKnown(s, DoCancelUpdate(s, c).value, c);
    case CancelRead(c, o) =>
    case CancelDies(c) =>
  }

  lemma CancelUpdateKnown(s: State, s': State, c: int)
    requires Known(s) && CancelOutcome(s, s', c)
    ensures Known(s')
  {
    assert RowsKnown(s');
    assert CommandsKnown(s');
  }

  lemma SettlementKnown(s: State, b: Settlement)
    requires Known(s) && StepSettlement(s, b).Some?
    ensures Known(StepSettlement(s, b).value)
  {
    if b.PayUpdate? {
      PayUpdateEffect(s, b.p);
      PayUpdateKnown(s, DoPayUpdate(s, b.p).value, b.p);
    }
  }

  lemma PayUpdateKnown(s: State, s': State, p: int)
    requires Known(s) && PayOutcome(s, s', p)
    ensures Known(s')
  {
    assert RowsKnown(s');
    assert CommandsKnown(s');
  }

  lemma PassingKnown(s: State, b: Passing)
    requires Known(s) && StepPassing(s, b).Some?
    ensures Known(StepPassing(s, b).value)
  {
  }

  lemma StepKeepsKnown(s: State, a: Action)
    requires Known(s) && Step(s, a).Some?
    ensures Known(Step(s, a).value)
  {
    match a
    case Submitting(b) => SubmissionKnown(s, b);
    case Consuming(b) => ConsumptionKnown(s, b);
    case Compensating(b) => CompensationKnown(s, b);
    case Canceling(b) => CancellationKnown(s, b);
    case Settling(b) => SettlementKnown(s, b);
    case Elapsing(b) => PassingKnown(s, b);
  }

  datatype Outcome = Performed | Missing | Refused | ScriptRefused

  datatype SubmitOutcome = Sent | NoSeats | RolledBack

  /** What became of one discarded order. */
  datatype Retrial = Republished | NotPending | NotReserved | Undone | Unmarked

  class Sale {
    ghost const s0: State
    var s: State
    var schedule: seq<seq<Action>>
    ghost var acts: seq<Action>

    constructor (s0: State, schedule: seq<seq<Action>>)
      requires Opening(s0)
      ensures this.s0 == s0 && s == s0 && Live() && this.schedule == schedule
    {
      this.s0 := s0;
      s, this.schedule := s0, schedule;
      acts := [];
    }

    /** The state was reached by the run `acts` of the protocol. */
    ghost predicate Live()
      reads this
    {
      Opening(s0) && Reachable(s0, acts, s) && Known(s)
    }

    method Do(a: Action)
      requires Live() && Step(s, a).Some?
      modifies this
      ensures Live() && Step(old(s), a) == Some(s) && acts == old(acts) + [a] && schedule == old(schedule)
      ensures forall b :: Times(b) == old(Times(b)) + (if a == b then 1 else 0)
    {
      CountNext(acts, a);
      StepKeepsKnown(s, a);
      ghost var more, next := ExtendRun(Step, s0, acts, s, a);
      s := Step(s, a).value;
      acts := more;
    }

    /** Steps of other processes: those of the schedule's next list that are possible and not ours. */
    method Others(me: Self)
      requires Live()
      modifies this
      ensures Live() && SelfKept(old(s), s, me) && RowsStay(old(s), s)
      ensures forall a :: Mine(a, me) ==> Times(a) == old(Times(a))
      ensures schedule == if old(schedule) == [] then [] else old(schedule)[1..]
    {
      if schedule == [] { return; }
      var env := schedule[0];
      schedule := schedule[1..];
      var i := 0;
      while i < |env|
        invariant 0 <= i <= |env| && schedule == old(schedule)[1..]
        invariant Live() && SelfKept(old(s), s, me) && RowsStay(old(s), s)
        invariant forall a :: Mine(a, me) ==> Times(a) == old(Times(a))
      {
        if !Mine(env[i], me) && Step(s, env[i]).Some? {
          OthersKeepSelf(s, env[i], me);
          StepRows(s, env[i]);
          Do(env[i]);
        }
        i := i + 1;
      }
    }

    // ----- Order commands -----

    /**
     cancel: on success the order is closed and its seats are released. It is missing only if it has
     no row, refused only if it is paid or refunded, and fails in the script only on a seat that
     somebody else holds or has bought.
     */
    method Cancel(c: int, o: int) returns (r: Outcome)
      requires Live() && c !in s.cancels
      modifies this
      ensures Live()
      ensures r == Performed ==> Closed(s, o) && o in s.store.released
      ensures r == ScriptRefused ==> Closed(s, o) && o in s.req && !NoForeign(s.store, s.req[o].keys, o, false)
      ensures r == Missing ==> o !in s.orders && o !in old(s.orders)
      ensures r == Refused ==> o in s.orders && (s.orders[o] == Pay || s.orders[o] == Status.Refund)
    {
      Others(Canceler(c));
      if o !in s.orders { return Missing; }
      if s.orders[o] != NoPay && s.orders[o] != Status.Cancel { return Refused; }
      Do(Canceling(CancelRead(c, o)));
      if s.cancels[c].pc == Updating {
        var ok := CancelRow(c, o);
        if !ok { return Refused; }
      }
      r := Release(c, o);
    }

    /** The compare-and-set of a cancellation. */
    method CancelRow(c: int, ghost o: int) returns (ok: bool)
      requires Live() && c in s.cancels && s.cancels[c] == Command(o, Updating) && o in s.orders
      modifies this
      ensures Live()
      ensures !ok ==> o in s.orders && (s.orders[o] == Pay || s.orders[o] == Status.Refund)
      ensures ok ==> c in s.cancels && s.cancels[c] == Command(o, Applying)
    {
      Others(Canceler(c));
      ok := CancelRowNow(c, o);
    }

    method CancelRowNow(c: int, ghost o: int) returns (ok: bool)
      requires Live() && c in s.cancels && s.cancels[c] == Command(o, Updating) && o in s.orders
      modifies this
      ensures Live()
      ensures !ok ==> o in s.orders && (s.orders[o] == Pay || s.orders[o] == Status.Refund)
      ensures ok ==> c in s.cancels && s.cancels[c] == Command(o, Applying)
    {
      Do(Canceling(CancelUpdate(c)));
      return c in s.cancels;
    }

    /** The row is closed by now; the script gives the seats back, or says that it did, or refuses. */
    method Release(c: int, o: int) returns (r: Outcome)
      requires Live() && c in s.cancels && s.cancels[c] == Command(o, Applying)
      modifies this
      ensures Live() && Closed(s, o) && r in {Performed, ScriptRefused}
      ensures r == Performed ==> o in s.store.released
      ensures r == ScriptRefused ==> o in s.req && !NoForeign(s.store, s.req[o].keys, o, false)
    {
      Others(Canceler(c));
      ReachableSeats(s0, acts, s);
      var reply := ReleaseScript(s.store, o, s.req[o]).1;
      Do(Canceling(CancelRelease(c)));
      return if reply == Foreign then ScriptRefused else Performed;
    }

    /**
     persistPaid: on success the order is paid and every seat of it is sold to it. It is missing only
     if it has no row, refused only if it is canceled or refunded, and fails in the script only on a
     seat that somebody else holds or has bought.
     */
    method PersistPaid(p: int, o: int) returns (r: Outcome)
      requires Live() && p !in s.pays
      modifies this
      ensures Live()
      ensures r == Performed ==> Paid(s, o) && o in s.req && AllSold(s, o)
      ensures r == ScriptRefused ==> Paid(s, o) && o in s.req && !NoForeign(s.store, s.req[o].keys, o, true)
      ensures r == Missing ==> o !in s.orders && o !in old(s.orders)
      ensures r == Refused ==> o in s.orders && (s.orders[o] == Status.Cancel || s.orders[o] == Status.Refund)
    {
      Others(Payer(p));
      if o !in s.orders { return Missing; }
      if s.orders[o] != NoPay && s.orders[o] != Pay { return Refused; }
      Do(Settling(PayRead(p, o)));
      if s.pays[p].pc == Updating {
        var ok := PayRow(p, o);
        if !ok { return Refused; }
      }
      r := Confirm(p, o);
    }

    /** The compare-and-set of a payment. */
    method PayRow(p: int, ghost o: int) returns (ok: bool)
      requires Live() && p in s.pays && s.pays[p] == Command(o, Updating) && o in s.orders
      modifies this
      ensures Live()
      ensures !ok ==> o in s.orders && (s.orders[o] == Status.Cancel || s.orders[o] == Status.Refund)
      ensures ok ==> p in s.pays && s.pays[p] == Command(o, Applying)
    {
      Others(Payer(p));
      ok := PayRowNow(p, o);
    }

    method PayRowNow(p: int, ghost o: int) returns (ok: bool)
      requires Live() && p in s.pays && s.pays[p] == Command(o, Updating) && o in s.orders
      modifies this
      ensures Live()
      ensures !ok ==> o in s.orders && (s.orders[o] == Status.Cancel || s.orders[o] == Status.Refund)
      ensures ok ==> p in s.pays && s.pays[p] == Command(o, Applying)
    {
      Do(Settling(PayUpdate(p)));
      return p in s.pays;
    }

    method Confirm(p: int, o: int) returns (r: Outcome)
      requires Live() && p in s.pays && s.pays[p] == Command(o, Applying)
      modifies this
      ensures Live() && Paid(s, o) && o in s.req && r in {Performed, ScriptRefused}
      ensures r == Performed ==> AllSold(s, o)
      ensures r == ScriptRefused ==> !NoForeign(s.store, s.req[o].keys, o, true)
    {
      Others(Payer(p));
      ReachableSeats(s0, acts, s);
      var reply := ConfirmScript(s.store, o, s.req[o]).1;
      Do(Settling(PayConfirm(p)));
      return if reply == Foreign then ScriptRefused else Performed;
    }

    // ----- Submission and compensation -----

    /** How often the run so far contains an action. */
    ghost function Times(a: Action): nat
      reads this
    {
      Count(acts, a)
    }

    /**
     LockSeats, Publish, and RollbackSeats exactly if publishing failed; the seats are taken unless
     the script says no.
     */
    method Submit(o: int, r: Request, sent: bool) returns (outcome: SubmitOutcome)
      requires Live() && o !in s.req && o !in s.creators && r.count > 0
      modifies this
      ensures Live() && o !in s.creators
      ensures outcome == NoSeats <==> LockScript(old(s.store), o, r).1 != Reserved
      ensures outcome == NoSeats ==> s.store == old(s.store)
      ensures outcome == Sent ==> HasEvent(s, o)
      ensures outcome == RolledBack ==> o in s.store.rolledBack
      ensures Times(Submitting(PurchaseSaga.Submit(o, r))) == old(Times(Submitting(PurchaseSaga.Submit(o, r)))) + 1
      ensures Times(Submitting(Publish(o, true))) ==
              old(Times(Submitting(Publish(o, true)))) + (if outcome == Sent then 1 else 0)
      ensures Times(Submitting(UndoSubmit(o))) ==
              old(Times(Submitting(UndoSubmit(o)))) + (if outcome == RolledBack then 1 else 0)
      ensures outcome != NoSeats ==> (outcome == Sent <==> sent)
    {
      LockSeats(o, r);
      if o !in s.creators { return NoSeats; }
      outcome := PublishOrRollBack(o, r, sent);
    }

    /** The submission after its seats are locked. */
    method PublishOrRollBack(o: int, ghost r: Request, sent: bool) returns (outcome: SubmitOutcome)
      requires Live() && o in s.creators && s.creators[o].pc == Holding
      modifies this
      ensures Live() && o !in s.creators
      ensures outcome == if sent then Sent else RolledBack
      ensures if sent then HasEvent(s, o) else o in s.store.rolledBack
      ensures Times(Submitting(PurchaseSaga.Submit(o, r))) == old(Times(Submitting(PurchaseSaga.Submit(o, r))))
      ensures Times(Submitting(Publish(o, true))) == old(Times(Submitting(Publish(o, true)))) + (if sent then 1 else 0)
      ensures Times(Submitting(UndoSubmit(o))) == old(Times(Submitting(UndoSubmit(o)))) + (if sent then 0 else 1)
    {
      Others(Submitter(o));
      PublishNow(o, sent);
      if sent { return Sent; }
      RollBackUnpublished(o, r);
      return RolledBack;
    }

    method RollBackUnpublished(o: int, ghost r: Request)
      requires Live() && o in s.creators && s.creators[o].pc == Unpublished
      modifies this
      ensures Live() && o !in s.creators && o in s.store.rolledBack
      ensures Times(Submitting(PurchaseSaga.Submit(o, r))) == old(Times(Submitting(PurchaseSaga.Submit(o, r))))
      ensures Times(Submitting(Publish(o, true))) == old(Times(Submitting(Publish(o, true))))
      ensures Times(Submitting(UndoSubmit(o))) == old(Times(Submitting(UndoSubmit(o)))) + 1
    {
      Others(Submitter(o));
      RollbackSeats(o);
    }

    method RollbackSeats(o: int)
      requires Live() && o in s.creators && s.creators[o].pc == Unpublished
      modifies this
      ensures Live() && o !in s.creators && o in s.store.rolledBack
      ensures forall b :: Times(b) == old(Times(b)) + (if b == Submitting(UndoSubmit(o)) then 1 else 0)
    {
      Do(Submitting(UndoSubmit(o)));
    }

    /** The lock script; a submission that got its seats goes on to publish. */
    method LockSeats(o: int, r: Request)
      requires Live() && o !in s.req && o !in s.creators && r.count > 0
      modifies this
      ensures Live()
      ensures forall b :: Times(b) == old(Times(b)) + (if b == Submitting(PurchaseSaga.Submit(o, r)) then 1 else 0)
      ensures o in s.creators <==> LockScript(old(s.store), o, r).1 == Reserved
      ensures if o in s.creators then s.creators[o].pc == Holding else s.store == old(s.store)
    {
      ReachableLocks(s0, acts, s);
      LockSeatsEffect(s, o, r, LockScript(s.store, o, r).0, LockScript(s.store, o, r).1);
      LockKnown(s.store, o, r);
      Do(Submitting(PurchaseSaga.Submit(o, r)));
    }

    method PublishNow(o: int, sent: bool)
      requires Live() && o in s.creators && s.creators[o].pc == Holding
      modifies this
      ensures Live()
      ensures forall b :: Times(b) == old(Times(b)) + (if b == Submitting(Publish(o, sent)) then 1 else 0)
      ensures if sent then o !in s.creators && HasEvent(s, o) else o in s.creators && s.creators[o].pc == Unpublished
    {
      ghost var e := (o, s.creators[o].createdAt);
      Do(Submitting(Publish(o, sent)));
      assert sent ==> e in s.events && e.0 == o;
    }

    /** One discarded order: reserve, publish or roll back, mark. */
    method RetryOne(t: int, o: int, sent: bool, marked: bool) returns (r: Retrial)
      requires Live() && t !in s.retries
      modifies this
      ensures Live() && t !in s.retries
      ensures r == Republished ==> o !in s.discards
      ensures r == Undone ==> o in s.store.rolledBack
      ensures r == NotPending ==> o !in s.discards || o !in s.req || !RetryPermitted(s, o)
      ensures r == NotReserved ==> o in s.req && LockScript(s.store, o, s.req[o]).1 in {NotEnough, Unavailable}
      ensures Times(Compensating(RetryReserve(t, o))) ==
              old(Times(Compensating(RetryReserve(t, o)))) + (if r == NotPending then 0 else 1)
      ensures Times(Compensating(RetryPublish(t, true))) ==
              old(Times(Compensating(RetryPublish(t, true)))) + (if r == Republished || r == Unmarked then 1 else 0)
      ensures Times(Compensating(RetryUndo(t))) ==
              old(Times(Compensating(RetryUndo(t)))) + (if r == Undone then 1 else 0)
      ensures r in {Republished, Undone, Unmarked} ==>
                r == if !sent then Undone else if marked then Republished else Unmarked
    {
      Others(Retrier(t));
      if o !in s.discards || o !in s.req || !RetryPermitted(s, o) { return NotPending; }
      ReserveAgain(t, o);
      if t !in s.retries { return NotReserved; }
      r := PublishAndMark(t, o, sent, marked);
    }

    method ReserveAgain(t: int, o: int)
      requires Live() && t !in s.retries && o in s.discards && o in s.req && RetryPermitted(s, o)
      modifies this
      ensures Live() && o in s.req
      ensures forall b :: Times(b) == old(Times(b)) + (if b == Compensating(RetryReserve(t, o)) then 1 else 0)
      ensures if t in s.retries then s.retries[t].pc == RetryHolding && s.retries[t].order == o
              else LockScript(s.store, o, s.req[o]).1 in {NotEnough, Unavailable}
    {
      LockKnown(s.store, o, s.req[o]);
      RetriedEffect(s, t, o, LockScript(s.store, o, s.req[o]).0, LockScript(s.store, o, s.req[o]).1);
      Do(Compensating(RetryReserve(t, o)));
    }

    method PublishAndMark(t: int, o: int, sent: bool, marked: bool) returns (r: Retrial)
      requires Live() && t in s.retries && s.retries[t].pc == RetryHolding && s.retries[t].order == o
      modifies this
      ensures Live() && t !in s.retries
      ensures r == if !sent then Undone else if marked then Republished else Unmarked
      ensures r == Republished ==> o !in s.discards
      ensures r == Undone ==> o in s.store.rolledBack
      ensures Times(Compensating(RetryReserve(t, o))) == old(Times(Compensating(RetryReserve(t, o))))
      ensures Times(Compensating(RetryPublish(t, true))) ==
              old(Times(Compensating(RetryPublish(t, true)))) + (if sent then 1 else 0)
      ensures Times(Compensating(RetryUndo(t))) == old(Times(Compensating(RetryUndo(t)))) + (if sent then 0 else 1)
    {
      Others(Retrier(t));
      PublishRetry(t, o, sent);
      r := FinishRetry(t, o, sent, marked);
    }

    method FinishRetry(t: int, o: int, sent: bool, marked: bool) returns (r: Retrial)
      requires Live() && t in s.retries && s.retries[t].order == o
      requires s.retries[t].pc == if sent then RetryPublished else RetryUnpublished
      modifies this
      ensures Live() && t !in s.retries
      ensures r == if !sent then Undone else if marked then Republished else Unmarked
      ensures r == Republished ==> o !in s.discards
      ensures r == Undone ==> o in s.store.rolledBack
      ensures Times(Compensating(RetryReserve(t, o))) == old(Times(Compensating(RetryReserve(t, o))))
      ensures Times(Compensating(RetryPublish(t, true))) == old(Times(Compensating(RetryPublish(t, true))))
      ensures Times(Compensating(RetryUndo(t))) == old(Times(Compensating(RetryUndo(t)))) + (if sent then 0 else 1)
    {
      Others(Retrier(t));
      if !sent {
        UndoRetry(t, o);
        return Undone;
      }
      if !marked {
        StopRetry(t);
        return Unmarked;
      }
      MarkRetry(t, o);
      return Republished;
    }

    method StopRetry(t: int)
      requires Live()
      modifies this
      ensures Live() && t !in s.retries
      ensures forall b :: Times(b) == old(Times(b)) + (if b == Compensating(RetryDies(t)) then 1 else 0)
    {
      Do(Compensating(RetryDies(t)));
    }

    method PublishRetry(t: int, ghost o: int, sent: bool)
      requires Live() && t in s.retries && s.retries[t].pc == RetryHolding && s.retries[t].order == o
      modifies this
      ensures Live() && t in s.retries && s.retries[t].order == o
      ensures s.retries[t].pc == if sent then RetryPublished else RetryUnpublished
      ensures forall b :: Times(b) == old(Times(b)) + (if b == Compensating(RetryPublish(t, sent)) then 1 else 0)
    {
      Do(Compensating(RetryPublish(t, sent)));
    }

    method UndoRetry(t: int, o: int)
      requires Live() && t in s.retries && s.retries[t].pc == RetryUnpublished && s.retries[t].order == o
      modifies this
      ensures Live() && t !in s.retries && o in s.store.rolledBack
      ensures forall b :: Times(b) == old(Times(b)) + (if b == Compensating(RetryUndo(t)) then 1 else 0)
    {
      Do(Compensating(RetryUndo(t)));
    }

    method MarkRetry(t: int, o: int)
      requires Live() && t in s.retries && s.retries[t].pc == RetryPublished && s.retries[t].order == o
      modifies this
      ensures Live() && t !in s.retries && o !in s.discards
      ensures forall b :: Times(b) == old(Times(b)) + (if b == Compensating(RetryMark(t)) then 1 else 0)
    {
      Do(Compensating(RetryMark(t)));
    }

    /**
     The loop over discarded orders (number and user): it skips orders without a user and stops at
     the first error. Everything counted as retried was published, and nothing else was, unless
     the last one was published and not marked.
     */
    method RetryAll(t: int, items: seq<(int, int)>, sent: int -> bool, marked: int -> bool)
      returns (retried: nat, skipped: nat, last: Retrial)
      requires Live() && t !in s.retries
      modifies this
      ensures Live() && t !in s.retries
      ensures if last == Republished then retried + skipped == |items| && skipped == Unowned(items)
              else retried + skipped < |items| && skipped == Unowned(items[..retried + skipped])
      ensures Times(Compensating(RetryPublish(t, true))) ==
              old(Times(Compensating(RetryPublish(t, true)))) + retried + (if last == Unmarked then 1 else 0)
    {
      retried, skipped, last := 0, 0, Republished;
      var i := 0;
      while i < |items|
        invariant 0 <= i <= |items| && retried + skipped == i && last == Republished
        invariant Live() && t !in s.retries && skipped == Unowned(items[..i])
        invariant Times(Compensating(RetryPublish(t, true))) ==
                  old(Times(Compensating(RetryPublish(t, true)))) + retried
      {
        UnownedNext(items, i);
        if items[i].1 <= 0 {
          skipped := skipped + 1;
        } else {
          last := RetryOne(t, items[i].0, sent(items[i].0), marked(items[i].0));
          if last != Republished { return; }
          retried := retried + 1;
        }
        i := i + 1;
      }
      assert items[..|items|] == items;
    }

    // ----- The consumer -----

    /** Handle: on success the event may be acknowledged, and the order has a row or was discarded as late. */
    method Handle(h: int, failsAt: nat) returns (ok: bool)
      requires Live() && Is(s, h, Looking)
      modifies this
      ensures Live() && h in s.handlers
      ensures ok ==> Is(s, h, Finished) && (s.handlers[h].order in s.orders || s.handlers[h].order in s.discards)
      ensures !ok ==> failsAt < 3
    {
      Others(Consumer(h));
      if failsAt == 0 { return false; }
      FindOrder(h);
      if s.handlers[h].pc == Finished { return true; }
      Others(Consumer(h));
      if failsAt == 1 { return false; }
      if s.handlers[h].pc == Discarding {
        ok := DiscardLate(h, failsAt == 2);
      } else {
        SaveOrder(h);
        ok := true;
      }
    }

    /** An order that is there needs nothing; another is discarded if its event is late, else saved. */
    method FindOrder(h: int)
      requires Live() && Is(s, h, Looking)
      modifies this
      ensures Live() && h in s.handlers
      ensures (Is(s, h, Finished) && s.handlers[h].order in s.orders) || Is(s, h, Discarding) || Is(s, h, Saving)
    {
      Do(Consuming(Look(h)));
    }

    method SaveOrder(h: int)
      requires Live() && Is(s, h, Saving)
      modifies this
      ensures Live() && Is(s, h, Finished) && s.handlers[h].order in s.orders
    {
      Do(Consuming(SaveRow(h)));
    }

    /** The reservation is given back before the discard is recorded. */
    method DiscardLate(h: int, fails: bool) returns (ok: bool)
      requires Live() && Is(s, h, Discarding)
      modifies this
      ensures Live() && h in s.handlers && ok == !fails
      ensures ok ==> Is(s, h, Finished) && s.handlers[h].order in s.discards
    {
      Do(Consuming(RollBack(h)));
      Others(Consumer(h));
      if fails { return false; }
      Do(Consuming(Record(h)));
      return true;
    }
  }

  predicate AllSold(s: State, o: int)
    requires o in s.req
  {
    forall k :: k in s.req[o].keys ==> k in s.store.owners && s.store.owners[k] == Sold(o)
  }

  lemma RetriedEffect(s: State, t: int, o: int, store: Store, result: LockResult)
    requires result != Reserved ==> store == s.store
    requires t !in s.retries
    ensures var s' := Retried(s, t, o, store, result);
            && s'.req == s.req && (t in s'.retries <==> result == Reserved || result == Already)
            && (if t in s'.retries then s'.retries[t] == Retry(o, s.now, RetryHolding) else s'.store == s.store)
  {
  }

  lemma LockSeatsEffect(s: State, o: int, r: Request, store: Store, result: LockResult)
    requires o !in s.creators && (result != Reserved ==> store == s.store)
    ensures var s' := Submitted(s, o, r, store, result);
            && (o in s'.creators <==> result == Reserved || result == Already)
            && if o in s'.creators then s'.creators[o].pc == Holding else s'.store == s.store
  {
  }

  // ----- Lock records are of submitted orders -----

  ghost predicate LocksKnown(s: State) {
    s.store.locks <= s.req.Keys
  }

  lemma LockKnown(st: Store, o: int, r: Request)
    ensures LockScript(st, o, r).0.locks <= st.locks + {o}
    ensures LockScript(st, o, r).1 == Already <==> o in st.locks
    ensures LockScript(st, o, r).1 != Reserved ==> LockScript(st, o, r).0 == st
  {
  }

  lemma RollbackLocks(s: State, o: int, r: Request)
    ensures var s' := RunRollback(s, o, r); s'.store.locks <= s.store.locks && s'.req == s.req
  {
  }

  lemma ReleaseLocks(s: State, o: int, r: Request)
    ensures var s' := RunRelease(s, o, r); s'.store.locks <= s.store.locks && s'.req == s.req
  {
  }

  lemma SubmittedLocks(s: State, o: int, r: Request, store: Store, result: LockResult)
    ensures var s' := Submitted(s, o, r, store, result); s'.store == store && s'.req == s.req[o := r]
  {
  }

  lemma RetriedLocks(s: State, t: int, o: int, store: Store, result: LockResult)
    ensures var s' := Retried(s, t, o, store, result); s'.store == store && s'.req == s.req
  {
  }

  lemma SubmissionLocks(s: State, b: Submission)
    requires LocksKnown(s) && StepSubmission(s, b).Some?
    ensures LocksKnown(StepSubmission(s, b).value)
  {
    match b
    case Submit(o, r) =>
      LockKnown(s.store, o, r);
      SubmittedLocks(s, o, r, LockScript(s.store, o, r).0, LockScript(s.store, o, r).1);
    case UndoSubmit(o) => RollbackLocks(s.(creators := s.creators - {o}), o, s.req[o]);
    case Publish(o, ok) =>
    case CreatorDies(o) =>
  }

  lemma ConsumptionLocks(s: State, b: Consumption)
    requires LocksKnown(s) && StepConsumption(s, b).Some?
    ensures LocksKnown(StepConsumption(s, b).value)
  {
    if b.RollBack? {
      var o := s.handlers[b.h].order;
      RollbackLocks(s.(handlers := s.handlers[b.h := s.handlers[b.h].(pc := Recording)]), o, s.req[o]);
    }
  }

  lemma CompensationLocks(s: State, b: Compensation)
    requires LocksKnown(s) && StepCompensation(s, b).Some?
    ensures LocksKnown(StepCompensation(s, b).value)
  {
    match b
    case RetryReserve(t, o) =>
      LockKnown(s.store, o, s.req[o]);
      RetriedLocks(s, t, o, LockScript(s.store, o, s.req[o]).0, LockScript(s.store, o, s.req[o]).1);
    case RetryUndo(t) => RollbackLocks(s.(retries := s.retries - {t}), s.retries[t].order, s.req[s.retries[t].order]);
    case RetryPublish(t, ok) =>
    case RetryMark(t) =>
    case RetryDies(t) =>
  }

  lemma CancellationLocks(s: State, b: Cancellation)
    requires LocksKnown(s) && StepCancellation(s, b).Some?
    ensures LocksKnown(StepCancellation(s, b).value)
  {
    match b
    case CancelRelease(c) => ReleaseLocks(s.(cancels := s.cancels - {c}), s.cancels[c].order, s.req[s.cancels[c].order]);
    case CancelUpdate(c) => CancelUpdateEffect(s, c);
    case CancelRead(c, o) => assert LocksKnown(DoCancelRead(s, c, o).value);
    case CancelDies(c) =>
  }

  lemma SettlementLocks(s: State, b: Settlement)
    requires LocksKnown(s) && StepSettlement(s, b).Some?
    ensures LocksKnown(StepSettlement(s, b).value)
  {
    match b
    case PayUpdate(p) => PayUpdateEffect(s, p);
    case PayConfirm(p) => ConfirmLocks(s.store, s.pays[p].order, s.req[s.pays[p].order]);
    case PayRead(p, o) => assert LocksKnown(DoPayRead(s, p, o).value);
    case PayDies(p) =>
    case RefundRow(o) =>
  }

  lemma ConfirmLocks(st: Store, o: int, r: Request)
    ensures ConfirmScript(st, o, r).0.locks <= st.locks
  {
  }

  lemma PassingLocks(s: State, b: Passing)
    requires LocksKnown(s) && StepPassing(s, b).Some?
    ensures LocksKnown(StepPassing(s, b).value)
  {
  }

  lemma StepLocks(s: State, a: Action)
    requires LocksKnown(s) && Step(s, a).Some?
    ensures LocksKnown(Step(s, a).value)
  {
    match a
    case Submitting(b) => SubmissionLocks(s, b);
    case Consuming(b) => ConsumptionLocks(s, b);
    case Compensating(b) => CompensationLocks(s, b);
    case Canceling(b) => CancellationLocks(s, b);
    case Settling(b) => SettlementLocks(s, b);
    case Elapsing(b) => PassingLocks(s, b);
  }

  lemma ReachableLocks(s0: State, acts: seq<Action>, s: State)
    requires Opening(s0) && Reachable(s0, acts, s)
    ensures LocksKnown(s)
  {
    forall t, a | LocksKnown(t) && Step(t, a).Some? ensures LocksKnown(Step(t, a).value) { StepLocks(t, a); }
    InvariantOfRun(Step, LocksKnown, s0, acts);
  }

  function Count(acts: seq<Action>, a: Action): nat {
    if acts == [] then 0 else Count(acts[..|acts| - 1], a) + (if acts[|acts| - 1] == a then 1 else 0)
  }

  lemma CountNext(acts: seq<Action>, b: Action)
    ensures forall a :: Count(acts + [b], a) == Count(acts, a) + (if a == b then 1 else 0)
  {
    assert (acts + [b])[..|acts|] == acts;
  }

  lemma ReachableSeats(s0: State, acts: seq<Action>, s: State)
    requires Opening(s0) && Reachable(s0, acts, s)
    ensures SeatsInv(s)
  {
    forall t, a | SeatsInv(t) && Step(t, a).Some? ensures SeatsInv(Step(t, a).value) { SeatsInvStep(t, a); }
    InvariantOfRun(Step, SeatsInv, s0, acts);
  }

  /** Items without a user. */
  function Unowned(items: seq<(int, int)>): nat {
    if items == [] then 0 else Unowned(items[..|items| - 1]) + (if items[|items| - 1].1 <= 0 then 1 else 0)
  }

  lemma UnownedNext(items: seq<(int, int)>, i: nat)
    requires i < |items|
    ensures Unowned(items[..i + 1]) == Unowned(items[..i]) + (if items[i].1 <= 0 then 1 else 0)
  {
    assert items[..i + 1][..i] == items[..i];
  }
}
