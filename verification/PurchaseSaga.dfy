/**
 From seat lock to sale: the submission that locks seats and publishes a create event, the
 consumer that saves or discards the order, the compensation that retries a discarded order, and
 the commands that cancel, pay and refund it. The stores are the Redis keys of module SeatStore,
 the order rows and the broker. Every action is one script, one row statement or one publish, and
 every process may stop for good between any two of its actions.
 */
module PurchaseSaga {
  import opened Runs
  import opened Orders
  import opened SeatStore

  /** What the operators keep to; one or the other safety of the sale depends on each point. */
  datatype Policy = Policy(
    serialHandlers: bool,  // one handler at a time works on the create event of an order
    carefulRetries: bool,  // a discarded order is retried only while it has no row, no event and no other retry
    markersOutlive: bool,  // rollback and release are not repeated after their marker has expired
    repeatsLocked: bool,   // a discarded order that was not rolled back is retried only while its lock record is alive
    keysOutlive: bool)     // the seat key of an open order does not expire

  datatype CreatorPc = Holding | Unpublished

  datatype Creator = Creator(createdAt: int, pc: CreatorPc)

  datatype HandlerPc = Looking | Discarding | Recording | Saving | Finished

  datatype Handler = Handler(order: int, createdAt: int, delayed: bool, pc: HandlerPc)

  datatype RetryPc = RetryHolding | RetryUnpublished | RetryPublished

  datatype Retry = Retry(order: int, createdAt: int, pc: RetryPc)

  /** A cancel or pay command that still has to update the row, or whose row is updated. */
  datatype CommandPc = Updating | Applying

  datatype Command = Command(order: int, pc: CommandPc)

  /** `holds` counts, per order, the reservations that were taken and not given back. */
  datatype State = State(
    policy: Policy,
    maxDelay: int,
    now: int,
    store: Store,
    req: map<int, Request>,
    holds: map<int, int>,
    orders: map<int, Status>,
    events: set<(int, int)>,
    discards: set<int>,
    creators: map<int, Creator>,
    handlers: map<int, Handler>,
    retries: map<int, Retry>,
    cancels: map<int, Command>,
    pays: map<int, Command>)

  /** The submission of one order. */
  datatype Submission =
    | Submit(o: int, r: Request)
    | Publish(o: int, ok: bool)
    | UndoSubmit(o: int)
    | CreatorDies(o: int)

  /** The consumer of create events. */
  datatype Consumption =
    | Deliver(h: int, o: int, createdAt: int)
    | Look(h: int)
    | RollBack(h: int)
    | Record(h: int)
    | SaveRow(h: int)
    | Ack(h: int)
    | HandlerDies(h: int)

  /** The retry of a discarded order. */
  datatype Compensation =
    | RetryReserve(t: int, o: int)
    | RetryPublish(t: int, ok: bool)
    | RetryUndo(t: int)
    | RetryMark(t: int)
    | RetryDies(t: int)

  /** The cancellation of an order, by its user or because it expired. */
  datatype Cancellation =
    | CancelRead(c: int, o: int)
    | CancelUpdate(c: int)
    | CancelRelease(c: int)
    | CancelDies(c: int)

  /** The paid callback, and the refund of an order that was canceled before. */
  datatype Settlement =
    | PayRead(p: int, o: int)
    | PayUpdate(p: int)
    | PayConfirm(p: int)
    | PayDies(p: int)
    | RefundRow(o: int)

  datatype Passing =
    | Tick(d: nat)
    | LockExpires(o: int)
    | KeyExpires(k: Key)
    | MarkersExpire(o: int)

  datatype Action =
    | Submitting(submission: Submission)
    | Consuming(consumption: Consumption)
    | Compensating(compensation: Compensation)
    | Canceling(cancellation: Cancellation)
    | Settling(settlement: Settlement)
    | Elapsing(passing: Passing)

  // ----- The stores -----

  predicate HasEvent(s: State, o: int) {
    exists e :: e in s.events && e.0 == o
  }

  function SetHold(s: State, o: int, store: Store, delta: int): State {
    s.(store := store, holds := s.holds[o := (if o in s.holds then s.holds[o] else 0) + delta])
  }

  function RunRollback(s: State, o: int, r: Request): State {
    var (store, reply) := RollbackScript(s.store, o, r);
    SetHold(s, o, store, if reply == Done then -1 else 0)
  }

  function RunRelease(s: State, o: int, r: Request): State {
    var (store, reply) := ReleaseScript(s.store, o, r);
    SetHold(s, o, store, if reply == Done then -1 else 0)
  }

  // ----- Submission -----

  /** LockSeats refuses an empty request; order numbers are never reused. */
  function DoSubmit(s: State, o: int, r: Request): Option<State> {
    if o !in s.req && r.count > 0 then
      Some(Submitted(s, o, r, LockScript(s.store, o, r).0, LockScript(s.store, o, r).1))
    else None
  }

  function Submitted(s: State, o: int, r: Request, store: Store, result: LockResult): State {
    var s' := SetHold(s.(req := s.req[o := r]), o, store, if result == Reserved then 1 else 0);
    if result == Reserved || result == Already then s'.(creators := s.creators[o := Creator(s.now, Holding)]) else s'
  }

  function DoPublish(s: State, o: int, ok: bool): Option<State> {
    if o in s.creators && s.creators[o].pc == Holding then
      Some(if ok then s.(events := s.events + {(o, s.creators[o].createdAt)}, creators := s.creators - {o})
           else s.(creators := s.creators[o := s.creators[o].(pc := Unpublished)]))
    else None
  }

  function DoUndoSubmit(s: State, o: int): Option<State> {
    if o in s.creators && s.creators[o].pc == Unpublished && o in s.req then
      Some(RunRollback(s.(creators := s.creators - {o}), o, s.req[o]))
    else None
  }

  // ----- The consumer of create events -----

  predicate Late(s: State, createdAt: int) {
    s.maxDelay > 0 && s.now - createdAt > s.maxDelay
  }

  predicate HandlerFree(s: State, o: int) {
    forall h :: h in s.handlers ==> s.handlers[h].order != o
  }

  function DoDeliver(s: State, h: int, o: int, createdAt: int): Option<State> {
    if h !in s.handlers && (o, createdAt) in s.events && (s.policy.serialHandlers ==> HandlerFree(s, o)) then
      Some(s.(handlers := s.handlers[h := Handler(o, createdAt, Late(s, createdAt), Looking)]))
    else None
  }

  predicate Is(s: State, h: int, pc: HandlerPc) {
    h in s.handlers && s.handlers[h].pc == pc && s.handlers[h].order in s.req
  }

  function DoLook(s: State, h: int): Option<State> {
    if Is(s, h, Looking) then
      var next := if s.handlers[h].order in s.orders then Finished
                  else if s.handlers[h].delayed then Discarding else Saving;
      Some(s.(handlers := s.handlers[h := s.handlers[h].(pc := next)]))
    else None
  }

  function DoRollBack(s: State, h: int): Option<State> {
    if Is(s, h, Discarding) then
      var o := s.handlers[h].order;
      Some(RunRollback(s.(handlers := s.handlers[h := s.handlers[h].(pc := Recording)]), o, s.req[o]))
    else None
  }

  function DoRecord(s: State, h: int): Option<State> {
    if Is(s, h, Recording) then
      Some(s.(discards := s.discards + {s.handlers[h].order},
              handlers := s.handlers[h := s.handlers[h].(pc := Finished)]))
    else None
  }

  function DoSaveRow(s: State, h: int): Option<State> {
    if Is(s, h, Saving) then
      var o := s.handlers[h].order;
      Some(s.(orders := if o in s.orders then s.orders else s.orders[o := NoPay],
              handlers := s.handlers[h := s.handlers[h].(pc := Finished)]))
    else None
  }

  function DoAck(s: State, h: int): Option<State> {
    if Is(s, h, Finished) then
      Some(s.(events := s.events - {(s.handlers[h].order, s.handlers[h].createdAt)}, handlers := s.handlers - {h}))
    else None
  }

  // ----- Compensation of discarded orders -----

  predicate RetryAllowed(s: State, o: int) {
    && o !in s.orders
    && !HasEvent(s, o)
    && (forall t :: t in s.retries ==> s.retries[t].order != o)
  }

  predicate RetryPermitted(s: State, o: int) {
    && (s.policy.carefulRetries ==> RetryAllowed(s, o))
    && (s.policy.repeatsLocked ==> o in s.store.locks || o in s.store.rolledBack)
  }

  function DoRetryReserve(s: State, t: int, o: int): Option<State> {
    if t !in s.retries && o in s.discards && o in s.req && RetryPermitted(s, o) then
      Some(Retried(s, t, o, LockScript(s.store, o, s.req[o]).0, LockScript(s.store, o, s.req[o]).1))
    else None
  }

  function Retried(s: State, t: int, o: int, store: Store, result: LockResult): State {
    var s' := SetHold(s, o, store, if result == Reserved then 1 else 0);
    if result == Reserved || result == Already then s'.(retries := s.retries[t := Retry(o, s.now, RetryHolding)]) else s'
  }

  predicate RetryIs(s: State, t: int, pc: RetryPc) {
    t in s.retries && s.retries[t].pc == pc && s.retries[t].order in s.req
  }

  function DoRetryPublish(s: State, t: int, ok: bool): Option<State> {
    if RetryIs(s, t, RetryHolding) then
      var r := s.retries[t];
      Some(if ok then s.(events := s.events + {(r.order, r.createdAt)}, retries := s.retries[t := r.(pc := RetryPublished)])
           else s.(retries := s.retries[t := r.(pc := RetryUnpublished)]))
    else None
  }

  function DoRetryUndo(s: State, t: int): Option<State> {
    if RetryIs(s, t, RetryUnpublished) then
      var o := s.retries[t].order;
      Some(RunRollback(s.(retries := s.retries - {t}), o, s.req[o]))
    else None
  }

  function DoRetryMark(s: State, t: int): Option<State> {
    if RetryIs(s, t, RetryPublished) then
      Some(s.(discards := s.discards - {s.retries[t].order}, retries := s.retries - {t}))
    else None
  }

  // ----- Commands on the order row -----

  function DoCancelRead(s: State, c: int, o: int): Option<State> {
    if c !in s.cancels && o in s.orders && (s.orders[o] == NoPay || s.orders[o] == Cancel) then
      Some(s.(cancels := s.cancels[c := Command(o, if s.orders[o] == NoPay then Updating else Applying)]))
    else None
  }

  function DoCancelUpdate(s: State, c: int): Option<State> {
    if c in s.cancels && s.cancels[c].pc == Updating then
      var o := s.cancels[c].order;
      Some(if Accepts(s.orders, o, Cancel) then s.(orders := s.orders[o := Cancel], cancels := s.cancels[c := Command(o, Applying)])
           else s.(cancels := s.cancels - {c}))
    else None
  }

  function DoCancelRelease(s: State, c: int): Option<State> {
    if c in s.cancels && s.cancels[c].pc == Applying && s.cancels[c].order in s.req then
      var o := s.cancels[c].order;
      Some(RunRelease(s.(cancels := s.cancels - {c}), o, s.req[o]))
    else None
  }

  function DoPayRead(s: State, p: int, o: int): Option<State> {
    if p !in s.pays && o in s.orders && (s.orders[o] == NoPay || s.orders[o] == Pay) then
      Some(s.(pays := s.pays[p := Command(o, if s.orders[o] == NoPay then Updating else Applying)]))
    else None
  }

  function DoPayUpdate(s: State, p: int): Option<State> {
    if p in s.pays && s.pays[p].pc == Updating then
      var o := s.pays[p].order;
      Some(if Accepts(s.orders, o, Pay) then s.(orders := s.orders[o := Pay], pays := s.pays[p := Command(o, Applying)])
           else s.(pays := s.pays - {p}))
    else None
  }

  function DoPayConfirm(s: State, p: int): Option<State> {
    if p in s.pays && s.pays[p].pc == Applying && s.pays[p].order in s.req then
      var o := s.pays[p].order;
      Some(s.(store := ConfirmScript(s.store, o, s.req[o]).0, pays := s.pays - {p}))
    else None
  }

  // ----- Expiry -----

  /** Unpaid or paid. */
  predicate LiveRow(s: State, o: int) {
    o in s.orders && (s.orders[o] == NoPay || s.orders[o] == Pay)
  }

  /** The event can still become a row: it is not late, or a handler has found it in time. */
  predicate Savable(s: State, e: (int, int)) {
    !Late(s, e.1) ||
    exists h :: h in s.handlers && s.handlers[h].order == e.0 && s.handlers[h].createdAt == e.1 && !s.handlers[h].delayed
  }

  /** The order has a live row, or may still get one without locking its seats again. */
  predicate Open(s: State, o: int) {
    if o in s.orders then LiveRow(s, o)
    else
      || (o in s.creators && s.creators[o].pc == Holding)
      || (exists e :: e in s.events && e.0 == o && Savable(s, e))
      || (exists t :: t in s.retries && s.retries[t].order == o && s.retries[t].pc == RetryHolding)
      || (o in s.discards && o in s.store.locks)
  }

  function DoKeyExpires(s: State, k: Key): Option<State> {
    if k in s.store.owners && s.store.owners[k].Locked? && !(s.policy.keysOutlive && Open(s, s.store.owners[k].order)) then
      Some(s.(store := s.store.(owners := s.store.owners - {k})))
    else None
  }

  /** Under the policy the markers last; PurchaseMarkers lets them expire and forbids only what that would repeat. */
  function DoMarkersExpire(s: State, o: int): Option<State> {
    if s.policy.markersOutlive then None
    else Some(s.(store := s.store.(rolledBack := s.store.rolledBack - {o}, released := s.store.released - {o})))
  }

  function StepSubmission(s: State, a: Submission): Option<State> {
    match a
    case Submit(o, r) => DoSubmit(s, o, r)
    case Publish(o, ok) => DoPublish(s, o, ok)
    case UndoSubmit(o) => DoUndoSubmit(s, o)
    case CreatorDies(o) => Some(s.(creators := s.creators - {o}))
  }

  function StepConsumption(s: State, a: Consumption): Option<State> {
    match a
    case Deliver(h, o, createdAt) => DoDeliver(s, h, o, createdAt)
    case Look(h) => DoLook(s, h)
    case RollBack(h) => DoRollBack(s, h)
    case Record(h) => DoRecord(s, h)
    case SaveRow(h) => DoSaveRow(s, h)
    case Ack(h) => DoAck(s, h)
    case HandlerDies(h) => Some(s.(handlers := s.handlers - {h}))
  }

  function StepCompensation(s: State, a: Compensation): Option<State> {
    match a
    case RetryReserve(t, o) => DoRetryReserve(s, t, o)
    case RetryPublish(t, ok) => DoRetryPublish(s, t, ok)
    case RetryUndo(t) => DoRetryUndo(s, t)
    case RetryMark(t) => DoRetryMark(s, t)
    case RetryDies(t) => Some(s.(retries := s.retries - {t}))
  }

  function StepCancellation(s: State, a: Cancellation): Option<State> {
    match a
    case CancelRead(c, o) => DoCancelRead(s, c, o)
    case CancelUpdate(c) => DoCancelUpdate(s, c)
    case CancelRelease(c) => DoCancelRelease(s, c)
    case CancelDies(c) => Some(s.(cancels := s.cancels - {c}))
  }

  function StepSettlement(s: State, a: Settlement): Option<State> {
    match a
    case PayRead(p, o) => DoPayRead(s, p, o)
    case PayUpdate(p) => DoPayUpdate(s, p)
    case PayConfirm(p) => DoPayConfirm(s, p)
    case PayDies(p) => Some(s.(pays := s.pays - {p}))
    case RefundRow(o) => if Accepts(s.orders, o, Refund) then Some(s.(orders := s.orders[o := Refund])) else None
  }

  function StepPassing(s: State, a: Passing): Option<State> {
    match a
    case Tick(d) => Some(s.(now := s.now + d))
    case LockExpires(o) => Some(s.(store := s.store.(locks := s.store.locks - {o})))
    case KeyExpires(k) => DoKeyExpires(s, k)
    case MarkersExpire(o) => DoMarkersExpire(s, o)
  }

  function Step(s: State, a: Action): Option<State> {
    match a
    case Submitting(b) => StepSubmission(s, b)
    case Consuming(b) => StepConsumption(s, b)
    case Compensating(b) => StepCompensation(s, b)
    case Canceling(b) => StepCancellation(s, b)
    case Settling(b) => StepSettlement(s, b)
    case Elapsing(b) => StepPassing(s, b)
  }

  /** A sale that has not begun; the stock counters are the seeded totals. */
  ghost predicate Opening(s: State) {
    && s.store == Store(s.store.inventory, {}, {}, {}, map[])
    && (forall c :: Stock(s.store, c) >= 0)
    && s.req == map[] && s.holds == map[] && s.orders == map[] && s.events == {} && s.discards == {}
    && s.creators == map[] && s.handlers == map[] && s.retries == map[] && s.cancels == map[] && s.pays == map[]
  }

  ghost predicate Reachable(s0: State, acts: seq<Action>, s: State) {
    Exec(Step, s0, acts) == Some(s)
  }
}
