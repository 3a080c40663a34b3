/**
 No unpaid order is forgotten. The consumer saves an order and then enqueues its cancel check; a
 worker claims the check, closes the order and only then acknowledges. Events are redelivered
 until acknowledged, any number of handlers and workers run at once, every process may stop
 between any two actions, and clocks are left free. The queue is any lease queue; as on Redis a
 worker reads the data of a claimed id in a second command and acknowledges an id without data.
 */
module OrderExpiry {
  import opened Runs
  import opened Orders
  import FiniteSets
  import Queues = LeaseQueue

  datatype HandlerPc = Looking | Saving | Enqueuing | Discarding | Kept | Discarded

  datatype Handler = Handler(event: int, order: int, pc: HandlerPc)

  datatype JobPc = Fetching | Reading | Canceling | Updating | Releasing | Acking

  datatype Job = Job(order: int, pc: JobPc)

  /** An acknowledged event, and whether its order was discarded. */
  datatype Past = Past(order: int, discarded: bool)

  datatype Config = Config(
    cancelIn: int,
    maxDelay: int,
    serial: bool)  // one handler at a time works on an event

  /** `released` are the orders whose seats went back, `promised` those whose check was ever enqueued. */
  datatype State = State(
    config: Config,
    orders: map<int, Status>,
    queue: Queues.Queue<int>,
    data: set<int>,
    events: map<int, int>,
    past: map<int, Past>,
    handlers: map<int, Handler>,
    jobs: map<int, Job>,
    released: set<int>,
    promised: set<int>)

  datatype Consumption =
    | Publish(e: int, o: int)
    | Deliver(h: int, e: int)
    | Look(h: int, late: bool)
    | SaveRow(h: int)
    | Enqueue(h: int)
    | Discard(h: int)
    | AckEvent(h: int)
    | Restart(h: int)
    | HandlerDies(h: int)

  datatype Work =
    | Claim(now: int, deadline: int, moved: set<int>, taken: set<int>, ws: map<int, int>)
    | Fetch(w: int)
    | Read(w: int)
    | CancelRead(w: int)
    | CancelUpdate(w: int)
    | Release(w: int)
    | AckMessage(w: int)
    | StoreData(w: int)
    | JobDies(w: int)

  datatype Action =
    | Consuming(consumption: Consumption)
    | Working(work: Work)
    | Moving(o: int, target: Status)
    | Returning(o: int)

  predicate Closed(s: State, o: int) {
    o in s.orders && s.orders[o] != NoPay
  }

  /** Nothing is left to do for an expired order: it is paid or refunded, or it is closed and its seats went back. */
  predicate Settled(s: State, o: int) {
    Closed(s, o) && (s.orders[o] == Pay || s.orders[o] == Refund || o in s.released)
  }

  // ----- The consumer -----

  predicate Is(s: State, h: int, pc: HandlerPc) {
    h in s.handlers && s.handlers[h].pc == pc
  }

  function GoHandler(s: State, h: int, pc: HandlerPc): State
    requires h in s.handlers
  {
    s.(handlers := s.handlers[h := s.handlers[h].(pc := pc)])
  }

  function DoDeliver(s: State, h: int, e: int): Option<State> {
    if h !in s.handlers && e in s.events && (s.config.serial ==> forall k :: k in s.handlers ==> s.handlers[k].event != e) then
      Some(s.(handlers := s.handlers[h := Handler(e, s.events[e], Looking)]))
    else None
  }

  /** An event can be late only where a delay limit is set. */
  function DoLook(s: State, h: int, late: bool): Option<State> {
    if Is(s, h, Looking) && (late ==> s.config.maxDelay > 0) then
      var o := s.handlers[h].order;
      Some(GoHandler(s, h, if o in s.orders then (if s.orders[o] == NoPay then Enqueuing else Kept)
                           else if late then Discarding else Saving))
    else None
  }

  /** Insert if absent. */
  function DoSaveRow(s: State, h: int): Option<State> {
    if Is(s, h, Saving) then
      var o := s.handlers[h].order;
      Some(GoHandler(s.(orders := if o in s.orders then s.orders else s.orders[o := NoPay]), h, Enqueuing))
    else None
  }

  /** Nothing is enqueued when no delay is configured. */
  function DoEnqueue(s: State, h: int): Option<State> {
    if Is(s, h, Enqueuing) then
      var o := s.handlers[h].order;
      Some(GoHandler(if s.config.cancelIn <= 0 then s
                     else s.(queue := Queues.Step(s.queue, Queues.Enqueue(o)).value, data := s.data + {o},
                             promised := s.promised + {o}), h, Kept))
    else None
  }

  function DoAckEvent(s: State, h: int): Option<State> {
    if Is(s, h, Kept) || Is(s, h, Discarded) then
      var x := s.handlers[h];
      Some(s.(events := s.events - {x.event},
              past := s.past[x.event := Past(x.order, x.pc == Discarded)],
              handlers := s.handlers - {h}))
    else None
  }

  function StepConsumption(s: State, a: Consumption): Option<State> {
    match a
    case Publish(e, o) => if e in s.events || e in s.past then None else Some(s.(events := s.events[e := o]))
    case Deliver(h, e) => DoDeliver(s, h, e)
    case Look(h, late) => DoLook(s, h, late)
    case SaveRow(h) => DoSaveRow(s, h)
    case Enqueue(h) => DoEnqueue(s, h)
    case Discard(h) => if Is(s, h, Discarding) then Some(GoHandler(s, h, Discarded)) else None
    case AckEvent(h) => DoAckEvent(s, h)
    case Restart(h) => if h in s.handlers then Some(GoHandler(s, h, Looking)) else None
    case HandlerDies(h) => Some(s.(handlers := s.handlers - {h}))
  }

  // ----- The workers; every claimed message is a job of its own -----

  predicate At(s: State, w: int, pc: JobPc) {
    w in s.jobs && s.jobs[w].pc == pc
  }

  function GoJob(s: State, w: int, pc: JobPc): State
    requires w in s.jobs
  {
    s.(jobs := s.jobs[w := s.jobs[w].(pc := pc)])
  }

  function EndJob(s: State, w: int): State {
    s.(jobs := s.jobs - {w})
  }

  /** The claim script; the job `w` of the claiming worker is about message `ws[w]`. */
  function DoClaim(s: State, now: int, deadline: int, moved: set<int>, taken: set<int>,
                   ws: map<int, int>): Option<State> {
    match Queues.Step(s.queue, Queues.Claim(now, deadline, moved, taken))
    case None => None
    case Some(q) =>
      if ws.Keys !! s.jobs.Keys && ws.Values <= taken then
        Some(s.(queue := q, jobs := map w | w in ws.Keys + s.jobs.Keys :: if w in ws then Job(ws[w], Fetching) else s.jobs[w]))
      else None
  }

  function DoFetch(s: State, w: int): Option<State> {
    if At(s, w, Fetching) then Some(GoJob(s, w, if s.jobs[w].order in s.data then Reading else Acking)) else None
  }

  /** CloseExpired: a missing, paid or refunded order needs no closing. */
  function DoRead(s: State, w: int): Option<State> {
    if At(s, w, Reading) then
      var o := s.jobs[w].order;
      Some(GoJob(s, w, if o in s.orders && (s.orders[o] == NoPay || s.orders[o] == Cancel) then Canceling else Acking))
    else None
  }

  /** cancel: it reads again, and fails on a missing, paid or refunded order. */
  function DoCancelRead(s: State, w: int): Option<State> {
    if At(s, w, Canceling) then
      var o := s.jobs[w].order;
      Some(if o in s.orders && s.orders[o] == NoPay then GoJob(s, w, Updating)
           else if o in s.orders && s.orders[o] == Cancel then GoJob(s, w, Releasing)
           else EndJob(s, w))
    else None
  }

  function DoCancelUpdate(s: State, w: int): Option<State> {
    if At(s, w, Updating) then
      var o := s.jobs[w].order;
      Some(if Accepts(s.orders, o, Cancel) then GoJob(s.(orders := s.orders[o := Cancel]), w, Releasing) else EndJob(s, w))
    else None
  }

  function DoRelease(s: State, w: int): Option<State> {
    if At(s, w, Releasing) then Some(GoJob(s.(released := s.released + {s.jobs[w].order}), w, Acking)) else None
  }

  function DoAckMessage(s: State, w: int): Option<State> {
    if At(s, w, Acking) then
      var o := s.jobs[w].order;
      Some(EndJob(s.(queue := Queues.Step(s.queue, Queues.Ack(o)).value, data := s.data - {o}), w))
    else None
  }

  function StepWork(s: State, a: Work): Option<State> {
    match a
    case Claim(now, deadline, moved, taken, ws) => DoClaim(s, now, deadline, moved, taken, ws)
    case Fetch(w) => DoFetch(s, w)
    case Read(w) => DoRead(s, w)
    case CancelRead(w) => DoCancelRead(s, w)
    case CancelUpdate(w) => DoCancelUpdate(s, w)
    case Release(w) => DoRelease(s, w)
    case AckMessage(w) => DoAckMessage(s, w)
    case StoreData(w) => if At(s, w, Reading) then Some(s.(data := s.data + {s.jobs[w].order})) else None
    case JobDies(w) => Some(EndJob(s, w))
  }

  function Step(s: State, a: Action): Option<State> {
    match a
    case Consuming(b) => StepConsumption(s, b)
    case Working(b) => StepWork(s, b)
    case Moving(o, target) => if Accepts(s.orders, o, target) then Some(s.(orders := s.orders[o := target])) else None
    case Returning(o) =>
      if o in s.orders && (s.orders[o] == Cancel || s.orders[o] == Refund) then Some(s.(released := s.released + {o})) else None
  }

  function Opening(config: Config): State {
    State(config, map[], Queues.Empty(), {}, map[], map[], map[], map[], {}, {})
  }

  predicate Reachable(config: Config, acts: seq<Action>, s: State) {
    Exec(Step, Opening(config), acts) == Some(s)
  }

  // ----- The invariant -----

  /** The cancel check of `o` will be handed out, with its data. */
  predicate Checked(s: State, o: int) {
    o in Queues.Ids(s.queue) && o in s.data
  }

  predicate NotForgotten(s: State, o: int) {
    s.config.cancelIn <= 0 || Closed(s, o) || (o in s.orders && Checked(s, o))
  }

  ghost predicate QueueInv(s: State) {
    && Queues.Disjoint(s.queue)
    && Queues.Ids(s.queue) <= s.data
    && (forall o :: o in s.data ==> o in s.orders)
  }

  predicate JobOk(s: State, j: Job) {
    && j.order in s.orders
    && (j.pc == Fetching ==> j.order in s.data || Settled(s, j.order))
    && (j.pc == Releasing ==> Closed(s, j.order))
    && (j.pc == Acking ==> Settled(s, j.order))
  }

  ghost predicate JobInv(s: State) {
    forall w :: w in s.jobs ==> JobOk(s, s.jobs[w])
  }

  predicate HandlerOk(s: State, h: Handler) {
    && (h.pc == Enqueuing ==> h.order in s.orders)
    && (h.pc == Kept ==> NotForgotten(s, h.order))
  }

  ghost predicate HandlerInv(s: State) {
    forall h :: h in s.handlers ==> HandlerOk(s, s.handlers[h])
  }

  ghost predicate PastInv(s: State) {
    forall e :: e in s.past && !s.past[e].discarded ==> NotForgotten(s, s.past[e].order)
  }

  /** A check that was enqueued is in the queue until its order is settled. */
  ghost predicate PromiseInv(s: State) {
    forall o :: o in s.promised ==> Checked(s, o) || Settled(s, o)
  }

  ghost predicate Inv(s: State) {
    QueueInv(s) && JobInv(s) && HandlerInv(s) && PastInv(s) && PromiseInv(s)
  }

  /** What an action may do to the things the invariant speaks of. */
  ghost predicate Keeps(s: State, s': State) {
    && s'.config == s.config && s.released <= s'.released
    && (forall o :: o in s.orders ==> o in s'.orders && Reaches(s.orders[o], s'.orders[o]))
    && (forall o :: o in Queues.Ids(s.queue) && o !in Queues.Ids(s'.queue) ==> Settled(s, o))
    && (forall o :: o in s.data && o !in s'.data ==> Settled(s, o))
  }

  lemma KeepsAll(s: State, s': State)
    requires Keeps(s, s')
    ensures forall o :: NotForgotten(s, o) ==> NotForgotten(s', o)
    ensures forall o :: Settled(s, o) ==> Settled(s', o)
    ensures forall o :: Checked(s, o) ==> Checked(s', o) || Settled(s', o)
    ensures forall j :: JobOk(s, j) ==> JobOk(s', j)
    ensures forall h :: HandlerOk(s, h) ==> HandlerOk(s', h)
  {
  }

  lemma EnqueueKeepsInv(s: State, h: int)
    requires Inv(s) && DoEnqueue(s, h).Some?
    ensures Inv(DoEnqueue(s, h).value)
  {
    var o := s.handlers[h].order;
    assert HandlerOk(s, s.handlers[h]);
    if s.config.cancelIn > 0 {
      Queues.StepKeeps(s.queue, Queues.Enqueue(o));
      assert [Queues.Enqueue(o)][1..] == [];
    }
    KeepsAll(s, DoEnqueue(s, h).value);
  }

  lemma ConsumptionKeepsInv(s: State, a: Consumption)
    requires Inv(s) && StepConsumption(s, a).Some?
    ensures Inv(StepConsumption(s, a).value)
  {
    if a.Enqueue? {
      EnqueueKeepsInv(s, a.h);
    } else {
      KeepsAll(s, StepConsumption(s, a).value);
    }
  }

  /** A job moves on, or is dropped, over rows and a queue that only progress. */
  lemma JobStepKeepsInv(s: State, s': State, w: int)
    requires Inv(s) && QueueInv(s') && Keeps(s, s') && s'.handlers == s.handlers && s'.past == s.past
    requires s'.promised == s.promised
    requires s'.jobs == s.jobs - {w} || (w in s'.jobs && s'.jobs == s.jobs[w := s'.jobs[w]] && JobOk(s', s'.jobs[w]))
    ensures Inv(s')
  {
    KeepsAll(s, s');
  }

  lemma FetchKeepsInv(s: State, w: int)
    requires Inv(s) && DoFetch(s, w).Some?
    ensures Inv(DoFetch(s, w).value)
  {
    assert JobOk(s, s.jobs[w]);
    JobStepKeepsInv(s, DoFetch(s, w).value, w);
  }

  lemma ReadKeepsInv(s: State, w: int)
    requires Inv(s) && DoRead(s, w).Some?
    ensures Inv(DoRead(s, w).value)
  {
    assert JobOk(s, s.jobs[w]);
    JobStepKeepsInv(s, DoRead(s, w).value, w);
  }

  lemma CancelReadKeepsInv(s: State, w: int)
    requires Inv(s) && DoCancelRead(s, w).Some?
    ensures Inv(DoCancelRead(s, w).value)
  {
    assert JobOk(s, s.jobs[w]);
    JobStepKeepsInv(s, DoCancelRead(s, w).value, w);
  }

  lemma CancelUpdateKeepsInv(s: State, w: int)
    requires Inv(s) && DoCancelUpdate(s, w).Some?
    ensures Inv(DoCancelUpdate(s, w).value)
  {
    assert JobOk(s, s.jobs[w]);
    JobStepKeepsInv(s, DoCancelUpdate(s, w).value, w);
  }

  lemma ReleaseKeepsInv(s: State, w: int)
    requires Inv(s) && DoRelease(s, w).Some?
    ensures Inv(DoRelease(s, w).value)
  {
    assert JobOk(s, s.jobs[w]);
    JobStepKeepsInv(s, DoRelease(s, w).value, w);
  }

  lemma WorkKeepsInv(s: State, a: Work)
    requires Inv(s) && StepWork(s, a).Some?
    ensures Inv(StepWork(s, a).value)
  {
    match a
    case Claim(_, _, _, _, _) => ClaimKeepsInv(s, a);
    case Fetch(w) => FetchKeepsInv(s, w);
    case Read(w) => ReadKeepsInv(s, w);
    case CancelRead(w) => CancelReadKeepsInv(s, w);
    case CancelUpdate(w) => CancelUpdateKeepsInv(s, w);
    case Release(w) => ReleaseKeepsInv(s, w);
    case AckMessage(w) => AckKeepsInv(s, w);
    case StoreData(w) => StoreKeepsInv(s, w);
    case JobDies(w) => JobStepKeepsInv(s, EndJob(s, w), w);
  }

  lemma StoreKeepsInv(s: State, w: int)
    requires Inv(s) && At(s, w, Reading)
    ensures Inv(s.(data := s.data + {s.jobs[w].order}))
  {
    KeepsAll(s, s.(data := s.data + {s.jobs[w].order}));
  }

  lemma AckKeepsInv(s: State, w: int)
    requires Inv(s) && DoAckMessage(s, w).Some?
    ensures Inv(DoAckMessage(s, w).value)
  {
    Queues.StepKeeps(s.queue, Queues.Ack(s.jobs[w].order));
    KeepsAll(s, DoAckMessage(s, w).value);
  }

  lemma ClaimKeepsInv(s: State, a: Work)
    requires Inv(s) && a.Claim? && StepWork(s, a).Some?
    ensures Inv(StepWork(s, a).value)
  {
    var s' := StepWork(s, a).value;
    var b := Queues.Claim(a.now, a.deadline, a.moved, a.taken);
    Queues.StepKeeps(s.queue, b);
    assert Queues.Outstanding(Queues.Ids(s.queue), [b]) == Queues.Ids(s.queue) by {
      assert [b][1..] == [];
    }
    KeepsAll(s, s');
  }

  lemma StepKeepsInv(s: State, a: Action)
    requires Inv(s) && Step(s, a).Some?
    ensures Inv(Step(s, a).value)
  {
    match a
    case Consuming(b) => ConsumptionKeepsInv(s, b);
    case Working(b) => WorkKeepsInv(s, b);
    case Moving(o, target) => KeepsAll(s, Step(s, a).value);
    case Returning(o) => KeepsAll(s, Step(s, a).value);
  }

  lemma StepKeepsConfig(s: State, a: Action)
    requires Step(s, a).Some?
    ensures Step(s, a).value.config == s.config
  {
    match a
    case Consuming(b) => assert StepConsumption(s, b).value.config == s.config;
    case Working(b) => assert StepWork(s, b).value.config == s.config;
    case Moving(o, target) =>
    case Returning(o) =>
  }

  lemma ReachableInv(config: Config, acts: seq<Action>, s: State)
    requires Reachable(config, acts, s)
    ensures Inv(s) && s.config == config
  {
    var inv := (t: State) => Inv(t) && t.config == config;
    forall t, a | inv(t) && Step(t, a).Some? ensures inv(Step(t, a).value) {
      StepKeepsInv(t, a);
      StepKeepsConfig(t, a);
    }
    InvariantOfRun(Step, inv, Opening(config), acts);
  }

  /**
   The order of every acknowledged create event that was not discarded is closed, or its cancel
   check is in the queue, ready or claimed, with its data. Handlers and workers may overlap.
   */
  lemma NoUnpaidOrderIsForgotten(config: Config, acts: seq<Action>, s: State, e: int)
    requires Reachable(config, acts, s) && config.cancelIn > 0
    requires e in s.past && !s.past[e].discarded
    ensures s.past[e].order in s.orders
    ensures s.orders[s.past[e].order] == NoPay ==> Checked(s, s.past[e].order)
  {
    ReachableInv(config, acts, s);
  }

  /** A check is acknowledged, and its data deleted, only when its order is paid, refunded or released. */
  lemma AcknowledgedIsSettled(config: Config, acts: seq<Action>, s: State, w: int)
    requires Reachable(config, acts, s) && Step(s, Working(AckMessage(w))).Some?
    ensures Settled(s, s.jobs[w].order)
  {
    ReachableInv(config, acts, s);
    assert JobOk(s, s.jobs[w]);
  }

  /**
   The check of an order, once enqueued, stays in the queue with its data until the order is paid or
   refunded, or it is canceled and its seats went back: no crash, failed release or overlap of
   workers loses it before.
   */
  lemma CheckLastsUntilSettled(config: Config, acts: seq<Action>, s: State, o: int)
    requires Reachable(config, acts, s) && o in s.promised
    ensures Checked(s, o) || Settled(s, o)
  {
    ReachableInv(config, acts, s);
  }

  // ----- Every unpaid row, whatever became of its events -----

  /** An unpaid row is checked, or an event of its order is still to be delivered. */
  ghost predicate Watched(s: State) {
    forall o :: o in s.orders && s.orders[o] == NoPay && !Checked(s, o) ==> exists e :: e in s.events && s.events[e] == o
  }

  predicate Discards(h: Handler) {
    h.pc == Discarding || h.pc == Discarded
  }

  /** `e` is unacknowledged and not about to be acknowledged as discarded. */
  ghost predicate Pending(s: State, e: int, o: int) {
    && e in s.events && s.events[e] == o
    && forall h :: h in s.handlers && s.handlers[h].event == e ==> !Discards(s.handlers[h])
  }

  /** Handlers work on events that are out, one on each. */
  ghost predicate Serial(s: State) {
    && s.config.serial && s.config.cancelIn > 0
    && (forall h :: h in s.handlers ==> s.handlers[h].event in s.events && s.events[s.handlers[h].event] == s.handlers[h].order)
    && (forall h, k :: h in s.handlers && k in s.handlers && s.handlers[h].event == s.handlers[k].event ==> h == k)
  }

  ghost predicate SerialInv(s: State) {
    && Serial(s)
    && (forall o :: o in s.orders && s.orders[o] == NoPay && !Checked(s, o) ==> exists e :: Pending(s, e, o))
  }

  lemma PendingStays(s: State, s': State, o: int)
    requires exists e :: Pending(s, e, o)
    requires forall e :: Pending(s, e, o) ==> Pending(s', e, o)
    ensures exists e :: Pending(s', e, o)
  {
    var e :| Pending(s, e, o);
    assert Pending(s', e, o);
  }

  /** Actions that touch neither events nor handlers and take no check from an unpaid row. */
  lemma QuietKeepsSerial(s: State, s': State)
    requires SerialInv(s) && s'.config == s.config && s'.events == s.events && s'.handlers == s.handlers
    requires forall o :: o in s'.orders && s'.orders[o] == NoPay ==>
               o in s.orders && s.orders[o] == NoPay && (Checked(s, o) ==> Checked(s', o))
    ensures SerialInv(s')
  {
    forall o | o in s'.orders && s'.orders[o] == NoPay && !Checked(s', o) ensures exists e :: Pending(s', e, o) {
      PendingStays(s, s', o);
    }
  }

  lemma ConsumptionStaysSerial(s: State, a: Consumption)
    requires Serial(s) && StepConsumption(s, a).Some?
    ensures Serial(StepConsumption(s, a).value)
  {
  }

  lemma ConsumptionKeepsSerial(s: State, a: Consumption)
    requires Inv(s) && SerialInv(s) && StepConsumption(s, a).Some?
    ensures SerialInv(StepConsumption(s, a).value)
  {
    var s' := StepConsumption(s, a).value;
    ConsumptionStaysSerial(s, a);
    forall o | o in s'.orders && s'.orders[o] == NoPay && !Checked(s', o) ensures exists e :: Pending(s', e, o) {
      PendingAfter(s, a, o);
    }
  }

  /** An unpaid row without a check has a pending event: the one it was saved from, or the one it had. */
  lemma PendingAfter(s: State, a: Consumption, o: int)
    requires Inv(s) && SerialInv(s) && StepConsumption(s, a).Some?
    requires var s' := StepConsumption(s, a).value; o in s'.orders && s'.orders[o] == NoPay && !Checked(s', o)
    ensures exists e :: Pending(StepConsumption(s, a).value, e, o)
  {
    var s' := StepConsumption(s, a).value;
    if a.SaveRow? && o == s.handlers[a.h].order {
      assert Pending(s', s.handlers[a.h].event, o);
    } else {
      assert !Checked(s, o);
      var e :| Pending(s, e, o);
      assert Pending(s', e, o);
    }
  }

  lemma WorkKeepsSerial(s: State, a: Work)
    requires Inv(s) && SerialInv(s) && StepWork(s, a).Some?
    ensures SerialInv(StepWork(s, a).value)
  {
    var s' := StepWork(s, a).value;
    if a.Claim? {
      var b := Queues.Claim(a.now, a.deadline, a.moved, a.taken);
      Queues.StepKeeps(s.queue, b);
      assert [b][1..] == [];
    }
    QuietKeepsSerial(s, s');
  }

  lemma StepKeepsSerial(s: State, a: Action)
    requires Inv(s) && SerialInv(s) && Step(s, a).Some?
    ensures SerialInv(Step(s, a).value)
  {
    match a
    case Consuming(b) => ConsumptionKeepsSerial(s, b);
    case Working(b) => WorkKeepsSerial(s, b);
    case Moving(o, target) => QuietKeepsSerial(s, Step(s, a).value);
    case Returning(o) => QuietKeepsSerial(s, Step(s, a).value);
  }

  lemma EveryUnpaidOrderIsWatched(config: Config, acts: seq<Action>, s: State)
    requires Reachable(config, acts, s) && config.cancelIn > 0 && config.serial
    ensures Watched(s)
  {
    var inv := (t: State) => Inv(t) && SerialInv(t);
    forall t, a | inv(t) && Step(t, a).Some? ensures inv(Step(t, a).value) {
      StepKeepsInv(t, a);
      StepKeepsSerial(t, a);
    }
    InvariantOfRun(Step, inv, Opening(config), acts);
    forall o | o in s.orders && s.orders[o] == NoPay && !Checked(s, o)
      ensures exists e :: e in s.events && s.events[e] == o
    {
      var e :| Pending(s, e, o);
      assert e in s.events && s.events[e] == o;
    }
  }

  // ----- Without a delay limit nothing is discarded, and handlers may overlap -----

  /** The event of a handler is still out, or was acknowledged after its order was saved and checked. */
  ghost predicate UnlimitedInv(s: State) {
    && s.config.maxDelay <= 0 && s.config.cancelIn > 0
    && (forall h :: h in s.handlers ==> !Discards(s.handlers[h]))
    && (forall h :: h in s.handlers ==> Traced(s, s.handlers[h]))
    && (forall e :: e in s.past ==> !s.past[e].discarded)
    && Watched(s)
  }

  predicate Traced(s: State, h: Handler) {
    if h.event in s.events then s.events[h.event] == h.order else h.event in s.past && s.past[h.event].order == h.order
  }

  lemma ConsumptionKeepsTraces(s: State, a: Consumption)
    requires UnlimitedInv(s) && StepConsumption(s, a).Some?
    ensures var s' := StepConsumption(s, a).value; forall h :: h in s'.handlers ==> Traced(s', s'.handlers[h])
  {
    var s' := StepConsumption(s, a).value;
    forall h | h in s'.handlers ensures Traced(s', s'.handlers[h]) {
      assert h in s.handlers ==> Traced(s, s.handlers[h]);
    }
  }

  lemma ConsumptionKeepsUnlimited(s: State, a: Consumption)
    requires Inv(s) && UnlimitedInv(s) && StepConsumption(s, a).Some? && Inv(StepConsumption(s, a).value)
    ensures UnlimitedInv(StepConsumption(s, a).value)
  {
    var s' := StepConsumption(s, a).value;
    ConsumptionKeepsTraces(s, a);
    forall o | o in s'.orders && s'.orders[o] == NoPay && !Checked(s', o)
      ensures exists e :: e in s'.events && s'.events[e] == o
    {
      WatchedAfter(s, a, o);
    }
  }

  /** An unpaid row without a check has an event: the one it was saved from, or the one it had. */
  lemma WatchedAfter(s: State, a: Consumption, o: int)
    requires Inv(s) && UnlimitedInv(s) && StepConsumption(s, a).Some? && Inv(StepConsumption(s, a).value)
    requires var s' := StepConsumption(s, a).value; o in s'.orders && s'.orders[o] == NoPay && !Checked(s', o)
    ensures var s' := StepConsumption(s, a).value; exists e :: e in s'.events && s'.events[e] == o
  {
    var s' := StepConsumption(s, a).value;
    if a.SaveRow? && o !in s.orders {
      assert Traced(s, s.handlers[a.h]);
      assert s.handlers[a.h].event in s'.events;
    } else {
      assert !Checked(s, o);
      var e :| e in s.events && s.events[e] == o;
      if a.AckEvent? {
        assert HandlerOk(s, s.handlers[a.h]) && Traced(s, s.handlers[a.h]);
        assert s.handlers[a.h].order != o;
      }
      assert e in s'.events && s'.events[e] == o;
    }
  }

  /** Steps that touch neither events, handlers nor past, and take no check from an unpaid row. */
  lemma QuietKeepsUnlimited(s: State, s': State)
    requires UnlimitedInv(s) && s'.config == s.config && s'.events == s.events && s'.handlers == s.handlers
    requires s'.past == s.past
    requires forall o :: o in s'.orders && s'.orders[o] == NoPay ==>
               o in s.orders && s.orders[o] == NoPay && (Checked(s, o) ==> Checked(s', o))
    ensures UnlimitedInv(s')
  {
    forall h | h in s'.handlers ensures Traced(s', s'.handlers[h]) { assert Traced(s, s.handlers[h]); }
  }

  lemma WorkKeepsUnlimited(s: State, a: Work)
    requires Inv(s) && UnlimitedInv(s) && StepWork(s, a).Some?
    ensures UnlimitedInv(StepWork(s, a).value)
  {
    var s' := StepWork(s, a).value;
    if a.Claim? {
      var b := Queues.Claim(a.now, a.deadline, a.moved, a.taken);
      Queues.StepKeeps(s.queue, b);
      assert [b][1..] == [];
    }
    QuietKeepsUnlimited(s, s');
  }

  lemma StepKeepsUnlimited(s: State, a: Action)
    requires Inv(s) && UnlimitedInv(s) && Step(s, a).Some? && Inv(Step(s, a).value)
    ensures UnlimitedInv(Step(s, a).value)
  {
    match a
    case Consuming(b) => ConsumptionKeepsUnlimited(s, b);
    case Working(b) => WorkKeepsUnlimited(s, b);
    case Moving(o, target) => QuietKeepsUnlimited(s, Step(s, a).value);
    case Returning(o) => QuietKeepsUnlimited(s, Step(s, a).value);
  }

  lemma UnlimitedOrdersAreWatched(config: Config, acts: seq<Action>, s: State)
    requires Reachable(config, acts, s) && config.cancelIn > 0 && config.maxDelay <= 0
    ensures Watched(s)
  {
    var inv := (t: State) => Inv(t) && UnlimitedInv(t);
    forall t, a | inv(t) && Step(t, a).Some? ensures inv(Step(t, a).value) {
      StepKeepsInv(t, a);
      StepKeepsUnlimited(t, a);
    }
    InvariantOfRun(Step, inv, Opening(config), acts);
  }

  // ----- The exact condition -----

  /** An event is published, and its handler saves the row. */
  lemma SaveSeven(config: Config) returns (acts: seq<Action>, s: State)
    ensures Reachable(config, acts, s)
    ensures s == Opening(config).(orders := map[7 := NoPay], events := map[0 := 7], handlers := map[0 := Handler(0, 7, Enqueuing)])
  {
    var s0 := Opening(config);
    acts, s := ExtendRun(Step, s0, [], s0, Consuming(Publish(0, 7)));
    acts, s := ExtendRun(Step, s0, acts, s, Consuming(Deliver(0, 0)));
    acts, s := ExtendRun(Step, s0, acts, s, Consuming(Look(0, false)));
    acts, s := ExtendRun(Step, s0, acts, s, Consuming(SaveRow(0)));
  }

  /** Without a delay no check is ever enqueued. */
  lemma NoDelayForgets(config: Config) returns (acts: seq<Action>, s: State)
    requires config.cancelIn <= 0
    ensures Reachable(config, acts, s) && !Watched(s)
  {
    var s0 := Opening(config);
    acts, s := SaveSeven(config);
    acts, s := ExtendRun(Step, s0, acts, s, Consuming(Enqueue(0)));
    acts, s := ExtendRun(Step, s0, acts, s, Consuming(AckEvent(0)));
    assert 7 in s.orders && s.orders[7] == NoPay && !Checked(s, 7);
    assert s.events == map[];
  }

  /**
   Two handlers of one event around the delay limit: the second sees no row, discards and
   acknowledges; the first then saves the row and stops before it enqueues the check.
   */
  lemma OverlappingHandlersForget(config: Config) returns (acts: seq<Action>, s: State)
    requires !config.serial && config.maxDelay > 0
    ensures Reachable(config, acts, s) && !Watched(s)
  {
    var s0 := Opening(config);
    acts, s := FindSevenTwice(config);
    acts, s := ExtendRun(Step, s0, acts, s, Consuming(Discard(1)));
    acts, s := ExtendRun(Step, s0, acts, s, Consuming(AckEvent(1)));
    acts, s := ExtendRun(Step, s0, acts, s, Consuming(SaveRow(0)));
    assert 7 in s.orders && s.orders[7] == NoPay && !Checked(s, 7);
    assert s.events == map[];
  }

  /** The first handler finds the event in time, the second finds it late. */
  lemma FindSevenTwice(config: Config) returns (acts: seq<Action>, s: State)
    requires !config.serial && config.maxDelay > 0
    ensures Reachable(config, acts, s)
    ensures s == Opening(config).(events := map[0 := 7],
                                  handlers := map[0 := Handler(0, 7, Saving), 1 := Handler(0, 7, Discarding)])
  {
    var s0 := Opening(config);
    acts, s := ExtendRun(Step, s0, [], s0, Consuming(Publish(0, 7)));
    acts, s := ExtendRun(Step, s0, acts, s, Consuming(Deliver(0, 0)));
    acts, s := ExtendRun(Step, s0, acts, s, Consuming(Look(0, false)));
    acts, s := ExtendRun(Step, s0, acts, s, Consuming(Deliver(1, 0)));
    acts, s := ExtendRun(Step, s0, acts, s, Consuming(Look(1, true)));
  }

  /** Every unpaid row stays watched in every run, exactly under these conditions. */
  lemma WatchedIff(config: Config)
    ensures (forall acts, s :: Reachable(config, acts, s) ==> Watched(s)) <==>
              config.cancelIn > 0 && (config.serial || config.maxDelay <= 0)
  {
    if config.cancelIn > 0 && config.maxDelay <= 0 {
      forall acts, s | Reachable(config, acts, s) ensures Watched(s) {
        UnlimitedOrdersAreWatched(config, acts, s);
      }
    } else if config.cancelIn > 0 && config.serial {
      forall acts, s | Reachable(config, acts, s) ensures Watched(s) {
        EveryUnpaidOrderIsWatched(config, acts, s);
      }
    } else if config.cancelIn <= 0 {
      var acts, s := NoDelayForgets(config);
    } else {
      var acts, s := OverlappingHandlersForget(config);
    }
  }

  // ----- A check is worth having -----

  /** From every state of every run, one worker alone can close a checked unpaid order. */
  lemma CheckedOrderCanBeClosed(config: Config, acts: seq<Action>, s: State, o: int)
    returns (more: seq<Action>, s': State)
    requires Reachable(config, acts, s) && o in s.orders && s.orders[o] == NoPay && Checked(s, o)
    ensures Reachable(config, more, s') && acts <= more
    ensures s'.orders == s.orders[o := Cancel] && Queues.Ids(s'.queue) == Queues.Ids(s.queue) - {o}
    ensures s'.released == s.released + {o} && s'.data == s.data - {o}
    ensures s'.events == s.events && s'.handlers == s.handlers && s'.jobs == s.jobs
  {
    ReachableInv(config, acts, s);
    var w := FreshKey(s.jobs.Keys);
    var claim, s1 := ClaimOne(s, o, w);
    more, s' := ExtendRun(Step, Opening(config), acts, s, Working(claim));
    assert s' == s1;
    more, s' := CloseRun(config, more, s1, o, w);
    more, s' := AckRun(config, more, s', o, w);
    assert s'.jobs == s.jobs;
  }

  /** A claim, late enough, hands out any message of the queue. */
  lemma ClaimOne(s: State, o: int, w: int) returns (a: Work, s': State)
    requires QueueInv(s) && o in Queues.Ids(s.queue) && w !in s.jobs
    ensures StepWork(s, a) == Some(s')
    ensures s' == s.(queue := s'.queue, jobs := s.jobs[w := Job(o, Fetching)])
    ensures Queues.Ids(s'.queue) == Queues.Ids(s.queue)
  {
    var claim, q := ClaimLate(s.queue, o);
    a := Claim(claim.now, claim.deadline, claim.moved, claim.taken, map[w := o]);
    s' := s.(queue := q, jobs := s.jobs[w := Job(o, Fetching)]);
    assert DoClaim(s, claim.now, claim.deadline, claim.moved, claim.taken, map[w := o]).value.jobs == s'.jobs;
  }

  lemma ClaimLate(q: Queues.Queue<int>, o: int) returns (claim: Queues.Act<int>, q': Queues.Queue<int>)
    requires Queues.Disjoint(q) && o in Queues.Ids(q)
    ensures claim.Claim? && claim.taken == {o} && Queues.Step(q, claim) == Some(q') && Queues.Ids(q') == Queues.Ids(q)
  {
    var moved := if o in q.claimed then {o} else {};
    var now := if o in q.claimed then q.claimed[o] else 0;
    claim := Queues.Claim(now, now, moved, {o});
    assert Queues.Expired(q, now, moved);
    q' := Queues.Claimed(q, now, moved, {o});
    Queues.StepKeeps(q, claim);
    assert [claim][1..] == [];
  }

  lemma CloseRun(config: Config, acts: seq<Action>, s: State, o: int, w: int) returns (more: seq<Action>, s': State)
    requires Reachable(config, acts, s) && w in s.jobs && s.jobs[w] == Job(o, Fetching)
    requires o in s.data && o in s.orders && s.orders[o] == NoPay
    ensures Reachable(config, more, s') && acts <= more
    ensures s' == s.(orders := s.orders[o := Cancel], jobs := s.jobs[w := Job(o, Releasing)])
  {
    var s0 := Opening(config);
    more, s' := ExtendRun(Step, s0, acts, s, Working(Fetch(w)));
    more, s' := ExtendRun(Step, s0, more, s', Working(Read(w)));
    assert s' == s.(jobs := s.jobs[w := Job(o, Canceling)]);
    more, s' := CancelRun(config, more, s', o, w);
  }

  lemma CancelRun(config: Config, acts: seq<Action>, s: State, o: int, w: int) returns (more: seq<Action>, s': State)
    requires Reachable(config, acts, s) && w in s.jobs && s.jobs[w] == Job(o, Canceling)
    requires o in s.orders && s.orders[o] == NoPay
    ensures Reachable(config, more, s') && acts <= more
    ensures s' == s.(orders := s.orders[o := Cancel], jobs := s.jobs[w := Job(o, Releasing)])
  {
    var s0 := Opening(config);
    more, s' := ExtendRun(Step, s0, acts, s, Working(CancelRead(w)));
    more, s' := ExtendRun(Step, s0, more, s', Working(CancelUpdate(w)));
  }

  lemma AckRun(config: Config, acts: seq<Action>, s: State, o: int, w: int) returns (more: seq<Action>, s': State)
    requires Reachable(config, acts, s) && w in s.jobs && s.jobs[w] == Job(o, Releasing)
    ensures Reachable(config, more, s') && acts <= more
    ensures s' == s.(queue := s'.queue, data := s.data - {o}, jobs := s.jobs - {w}, released := s.released + {o})
    ensures Queues.Ids(s'.queue) == Queues.Ids(s.queue) - {o}
  {
    var s0 := Opening(config);
    more, s' := ExtendRun(Step, s0, acts, s, Working(Release(w)));
    more, s' := ExtendRun(Step, s0, more, s', Working(AckMessage(w)));
    assert s'.jobs == s.jobs - {w};
  }

  lemma FreshKey(keys: set<int>) returns (w: int)
    ensures w !in keys
  {
    var m := FiniteSets.Maximum(keys, 0);
    w := m + 1;
  }
}
