/**
 No oversell: while the operators keep to the policy, every order that is unpaid or paid is backed
 by a reservation of its own, so the tickets sold never exceed what was seeded.
 */
module PurchaseBacking {
  import opened Runs
  import opened Orders
  import opened SeatStore
  import opened FiniteSets
  import opened PurchaseSaga
  import opened PurchaseSafety

  /** What the operators must guarantee; without a delay limit no event is ever discarded or retried. */
  ghost predicate Prudent(s: State) {
    s.policy.markersOutlive && (s.maxDelay <= 0 || (s.policy.serialHandlers && s.policy.carefulRetries))
  }

  /** Only issued order numbers occur anywhere. */
  ghost predicate Issued(s: State) {
    && s.holds.Keys == s.req.Keys
    && s.orders.Keys <= s.req.Keys
    && s.store.locks + s.store.rolledBack + s.store.released + s.discards <= s.req.Keys
    && (forall o :: o in s.creators ==> o in s.req)
  }

  ghost predicate OrderOk(s: State, o: int)
    requires o in s.holds
  {
    && s.holds[o] >= 0
    && (o in s.orders && !(Closed(s, o) && o in s.store.released) ==> s.holds[o] >= 1)
    && (o in s.store.locks ==> s.holds[o] >= 1 && o !in s.store.rolledBack && o !in s.store.released)
    && (o in s.store.rolledBack ==> o !in s.orders)
  }

  ghost predicate EventOk(s: State, e: (int, int)) {
    && e.0 in s.req && e.0 in s.holds
    && (e.0 !in s.orders && e.0 !in s.store.rolledBack ==> s.holds[e.0] >= 1)
    && (e.0 in s.store.rolledBack ==> Late(s, e.1))
  }

  /** Reserved, with neither a row nor an event. */
  ghost predicate Pristine(s: State, o: int) {
    o in s.req && o in s.holds && s.holds[o] >= 1 && o !in s.orders && o !in s.store.rolledBack && !HasEvent(s, o)
  }

  ghost predicate HandlerOk(s: State, h: Handler) {
    && ((h.order, h.createdAt) in s.events || (s.maxDelay <= 0 && h.order in s.orders))
    && (h.pc == Finished && s.maxDelay <= 0 ==> h.order in s.orders)
    && (h.delayed ==> Late(s, h.createdAt))
    && (h.pc == Looking && !h.delayed ==> h.order !in s.store.rolledBack)
    && (h.pc == Saving ==> !h.delayed && h.order !in s.store.rolledBack)
    && (h.pc == Discarding || h.pc == Recording ==> h.delayed && h.order !in s.orders)
  }

  ghost predicate RetryOk(s: State, t: Retry) {
    t.order in s.req && t.order !in s.creators && (t.pc != RetryPublished ==> Pristine(s, t.order))
  }

  ghost predicate OrdersOk(s: State)
    requires s.holds.Keys == s.req.Keys
  {
    forall o :: o in s.req ==> OrderOk(s, o)
  }

  ghost predicate EventsOk(s: State) {
    && (forall e :: e in s.events ==> EventOk(s, e))
    && (forall e, f :: e in s.events && f in s.events && e.0 == f.0 ==> e == f)
  }

  ghost predicate CreatorsOk(s: State) {
    forall o :: o in s.creators ==> Pristine(s, o) && o !in s.discards
  }

  ghost predicate HandlersOk(s: State) {
    && (forall h :: h in s.handlers ==> HandlerOk(s, s.handlers[h]))
    && (s.maxDelay > 0 ==>
          forall h, g :: h in s.handlers && g in s.handlers && s.handlers[h].order == s.handlers[g].order ==> h == g)
  }

  ghost predicate RetriesOk(s: State) {
    && (s.maxDelay <= 0 ==> s.discards == {} && forall t :: t !in s.retries)
    && (forall t :: t in s.retries ==> RetryOk(s, s.retries[t]))
    && (forall t, u :: t in s.retries && u in s.retries && s.retries[t].order == s.retries[u].order ==> t == u)
  }

  ghost predicate Inv(s: State) {
    Prudent(s) && SeatsInv(s) && Issued(s) && OrdersOk(s) && EventsOk(s) && CreatorsOk(s) && HandlersOk(s) && RetriesOk(s)
  }

  // ----- What orders, events and processes are judged by -----

  /**
   Nothing that an order, an event or a process is judged by changes; locks may expire and events may
   be acknowledged.
   */
  ghost predicate SameStanding(s: State, s': State) {
    && s'.policy == s.policy && s'.maxDelay == s.maxDelay && s.now <= s'.now
    && s'.req == s.req && s'.holds == s.holds
    && s'.orders.Keys == s.orders.Keys && (forall o :: Closed(s, o) ==> Closed(s', o))
    && s'.store.rolledBack == s.store.rolledBack && s'.store.released == s.store.released && s'.store.locks <= s.store.locks
    && s'.events <= s.events
  }

  lemma OrdersStay(s: State, s': State)
    requires SameStanding(s, s') && s.holds.Keys == s.req.Keys && OrdersOk(s)
    ensures OrdersOk(s')
  {
    forall o | o in s'.req ensures OrderOk(s', o) { assert OrderOk(s, o); }
  }

  lemma EventsStay(s: State, s': State)
    requires SameStanding(s, s') && EventsOk(s)
    ensures EventsOk(s')
  {
    forall e | e in s'.events ensures EventOk(s', e) { assert EventOk(s, e); }
  }

  lemma PristineStays(s: State, s': State, o: int)
    requires SameStanding(s, s') && Pristine(s, o)
    ensures Pristine(s', o)
  {
  }

  lemma CreatorsStay(s: State, s': State)
    requires SameStanding(s, s') && CreatorsOk(s)
    requires forall o :: o in s'.creators ==> o in s.creators && o !in s'.discards
    ensures CreatorsOk(s')
  {
    forall o | o in s'.creators ensures Pristine(s', o) { PristineStays(s, s', o); }
  }

  /** A handler that was fine stays fine while its event is in the broker. */
  lemma HandlerStays(s: State, s': State, h: Handler)
    requires SameStanding(s, s') && HandlerOk(s, h)
    requires (h.order, h.createdAt) in s.events ==> (h.order, h.createdAt) in s'.events
    ensures HandlerOk(s', h)
  {
  }

  lemma HandlersStay(s: State, s': State)
    requires SameStanding(s, s') && s'.events == s.events && HandlersOk(s)
    requires forall h :: h in s'.handlers ==> h in s.handlers && s'.handlers[h].order == s.handlers[h].order
    requires forall h :: h in s'.handlers ==> HandlerOk(s, s'.handlers[h])
    ensures HandlersOk(s')
  {
    forall h | h in s'.handlers ensures HandlerOk(s', s'.handlers[h]) { HandlerStays(s, s', s'.handlers[h]); }
  }

  lemma RetriesStay(s: State, s': State)
    requires SameStanding(s, s') && RetriesOk(s)
    requires forall o :: o in s'.creators ==> o in s.creators
    requires s'.maxDelay <= 0 ==> s'.discards == {}
    requires forall t :: t in s'.retries ==> t in s.retries && s'.retries[t].order == s.retries[t].order
    requires forall t :: t in s'.retries ==> RetryOk(s, s'.retries[t])
    ensures RetriesOk(s')
  {
    forall t | t in s'.retries ensures RetryOk(s', s'.retries[t]) {
      if s'.retries[t].pc != RetryPublished { PristineStays(s, s', s'.retries[t].order); }
    }
  }

  /** Time, expiry of locks and keys, sales, closed rows: the processes see none of it. */
  lemma UnseenKeeps(s: State, s': State)
    requires Inv(s) && SeatsInv(s') && SameStanding(s, s')
    requires s'.events == s.events && s'.discards == s.discards
    requires s'.creators == s.creators && s'.handlers == s.handlers && s'.retries == s.retries
    ensures Inv(s')
  {
    OrdersStay(s, s');
    EventsStay(s, s');
    CreatorsStay(s, s');
    HandlersStay(s, s');
    RetriesStay(s, s');
  }

  // ----- Only one order changes -----

  /** The records of order `x` are the same in both states. */
  ghost predicate Alike(s: State, s': State, x: int) {
    && (x in s'.req <==> x in s.req)
    && (x in s'.holds <==> x in s.holds) && (x in s.holds ==> s'.holds[x] == s.holds[x])
    && (x in s'.orders <==> x in s.orders) && (x in s.orders ==> s'.orders[x] == s.orders[x])
    && (x in s'.store.locks <==> x in s.store.locks)
    && (x in s'.store.rolledBack <==> x in s.store.rolledBack)
    && (x in s'.store.released <==> x in s.store.released)
    && (HasEvent(s', x) ==> HasEvent(s, x))
  }

  ghost predicate OthersAlike(s: State, s': State, o: int) {
    && s'.policy == s.policy && s'.maxDelay == s.maxDelay && s'.now == s.now
    && (forall x :: x != o ==> Alike(s, s', x))
  }

  lemma OrdersBut(s: State, s': State, o: int)
    requires OthersAlike(s, s', o) && s.holds.Keys == s.req.Keys && OrdersOk(s)
    requires s'.holds.Keys == s'.req.Keys && (o in s'.req ==> OrderOk(s', o))
    ensures OrdersOk(s')
  {
    forall x | x in s'.req ensures OrderOk(s', x) {
      if x != o { assert Alike(s, s', x) && OrderOk(s, x); }
    }
  }

  /** The events of other orders stay as they are. */
  lemma EventsBut(s: State, s': State, o: int)
    requires OthersAlike(s, s', o) && EventsOk(s)
    requires forall e :: e in s'.events && e.0 != o ==> e in s.events
    requires forall e :: e in s'.events && e.0 == o ==> EventOk(s', e)
    requires forall e, f :: e in s'.events && f in s'.events && e.0 == o && f.0 == o ==> e == f
    ensures EventsOk(s')
  {
    forall e | e in s'.events ensures EventOk(s', e) {
      if e.0 != o { assert Alike(s, s', e.0) && EventOk(s, e); }
    }
  }

  lemma CreatorsBut(s: State, s': State, o: int)
    requires OthersAlike(s, s', o) && CreatorsOk(s) && s'.discards == s.discards
    requires forall x :: x in s'.creators && x != o ==> x in s.creators
    requires o in s'.creators ==> Pristine(s', o) && o !in s.discards
    ensures CreatorsOk(s')
  {
    forall x | x in s'.creators ensures Pristine(s', x) && x !in s'.discards {
      if x != o { assert Alike(s, s', x) && Pristine(s, x); }
    }
  }

  lemma HandlersBut(s: State, s': State, o: int)
    requires OthersAlike(s, s', o) && HandlersOk(s) && s.events <= s'.events && s'.handlers.Keys == s.handlers.Keys
    requires forall h :: h in s.handlers ==> s'.handlers[h].order == s.handlers[h].order
    requires forall h :: h in s.handlers && s.handlers[h].order != o ==> s'.handlers[h] == s.handlers[h]
    requires forall h :: h in s.handlers && s.handlers[h].order == o ==> HandlerOk(s', s'.handlers[h])
    ensures HandlersOk(s')
  {
    forall h | h in s'.handlers ensures HandlerOk(s', s'.handlers[h]) {
      if s.handlers[h].order != o { assert Alike(s, s', s.handlers[h].order) && HandlerOk(s, s.handlers[h]); }
    }
  }

  lemma RetriesBut(s: State, s': State, o: int)
    requires OthersAlike(s, s', o) && RetriesOk(s) && s'.discards == s.discards
    requires s.maxDelay <= 0 ==> forall t :: t in s'.retries ==> t in s.retries
    requires forall x :: x in s'.creators && x != o ==> x in s.creators
    requires forall t :: t in s'.retries && s'.retries[t].order != o ==> t in s.retries && s'.retries[t] == s.retries[t]
    requires forall t :: t in s'.retries && s'.retries[t].order == o ==> RetryOk(s', s'.retries[t])
    requires forall t, u :: t in s'.retries && u in s'.retries && s'.retries[t].order == o && s'.retries[u].order == o ==> t == u
    ensures RetriesOk(s')
  {
    forall t | t in s'.retries ensures RetryOk(s', s'.retries[t]) {
      if s'.retries[t].order != o { assert Alike(s, s', s'.retries[t].order) && RetryOk(s, s.retries[t]); }
    }
  }

  // ----- The effect of a script on the records of one order -----

  lemma RollbackEffect(s: State, o: int, r: Request)
    requires o in s.holds
    ensures var s' := RunRollback(s, o, r);
            && s' == s.(store := s'.store, holds := s'.holds)
            && s'.store.released == s.store.released
            && (o in s.store.rolledBack ==> s'.store == s.store && s'.holds == s.holds)
            && (o !in s.store.rolledBack ==>
                  && s'.store.locks == s.store.locks - {o}
                  && s'.store.rolledBack == s.store.rolledBack + {o}
                  && s'.holds == s.holds[o := s.holds[o] - 1])
  {
  }

  lemma ReleaseEffect(s: State, o: int, r: Request)
    requires o in s.holds
    ensures var s' := RunRelease(s, o, r);
            && s' == s.(store := s'.store, holds := s'.holds)
            && s'.store.rolledBack == s.store.rolledBack
            && ((s'.store == s.store && s'.holds == s.holds)
                || (&& o !in s.store.released
                    && s'.store.locks == s.store.locks - {o}
                    && s'.store.released == s.store.released + {o}
                    && s'.holds == s.holds[o := s.holds[o] - 1]))
  {
  }

  // ----- Giving a reservation back keeps the invariant -----

  /** A rollback of an order that has no row, from whoever may call it. */
  lemma RollbackKeeps(s: State, s': State, o: int)
    requires Inv(s) && o in s.req && o !in s.orders
    requires o !in s.store.rolledBack ==> s.holds[o] >= 1
    requires s' == RunRollback(s, o, s.req[o])
    requires forall e :: e in s.events && e.0 == o ==> Late(s, e.1)
    requires forall h :: h in s.handlers && s.handlers[h].order == o ==> s.handlers[h].delayed
    requires forall t :: t in s.retries && s.retries[t].order == o ==> s.retries[t].pc == RetryPublished
    requires o !in s.creators
    ensures Inv(s')
  {
    RollbackEffect(s, o, s.req[o]);
    if o in s.store.rolledBack {
      assert s' == s;
    } else {
      RollbackSellsNothing(s.store, o, s.req[o]);
      SeatsInvStore(s, s');
      GivenBackKeeps(s, s', o);
    }
  }

  /** The reservation of an order without a row is given back, and the order is marked as rolled back. */
  lemma GivenBackKeeps(s: State, s': State, o: int)
    requires Inv(s) && SeatsInv(s') && o in s.req && o !in s.orders && o !in s.creators
    requires s' == s.(store := s'.store, holds := s'.holds) && s'.store.released == s.store.released
    requires o !in s.store.rolledBack && s.holds[o] >= 1 && s'.holds == s.holds[o := s.holds[o] - 1]
    requires s'.store.locks == s.store.locks - {o} && s'.store.rolledBack == s.store.rolledBack + {o}
    requires forall e :: e in s.events && e.0 == o ==> Late(s, e.1)
    requires forall h :: h in s.handlers && s.handlers[h].order == o ==> s.handlers[h].delayed
    requires forall t :: t in s.retries && s.retries[t].order == o ==> s.retries[t].pc == RetryPublished
    ensures Inv(s')
  {
    assert OrderOk(s, o);
    OrdersBut(s, s', o);
    forall e | e in s.events && e.0 == o ensures EventOk(s', e) { assert EventOk(s, e); }
    EventsBut(s, s', o);
    CreatorsBut(s, s', o);
    forall h | h in s.handlers && s.handlers[h].order == o
      ensures HandlerOk(s', s.handlers[h])
    {
      assert HandlerOk(s, s.handlers[h]);
    }
    HandlersBut(s, s', o);
    forall t | t in s.retries && s.retries[t].order == o
      ensures RetryOk(s', s.retries[t])
    {
      assert RetryOk(s, s.retries[t]);
    }
    RetriesBut(s, s', o);
  }

  /** Dropping a process, or moving its program counter, is seen by nobody else. */
  lemma SameRecords(s: State, s': State)
    requires Inv(s)
    requires s' == s.(creators := s'.creators, handlers := s'.handlers, retries := s'.retries, cancels := s'.cancels, pays := s'.pays)
    requires forall o :: o in s'.creators ==> o in s.creators
    requires forall h :: h in s'.handlers ==> h in s.handlers && s'.handlers[h].order == s.handlers[h].order
    requires forall h :: h in s'.handlers ==> HandlerOk(s, s'.handlers[h])
    requires forall t :: t in s'.retries ==> t in s.retries && s'.retries[t].order == s.retries[t].order
    requires forall t :: t in s'.retries ==> RetryOk(s, s'.retries[t])
    requires SeatsInv(s')
    ensures Inv(s')
  {
    OrdersStay(s, s');
    EventsStay(s, s');
    CreatorsStay(s, s');
    HandlersStay(s, s');
    RetriesStay(s, s');
  }

  // ----- Submission -----

  /** An order with neither row nor event may take a reservation, and a process may start to work on it. */
  lemma ReservedKeeps(s: State, s': State, o: int)
    requires Inv(s) && o !in s.orders && !HasEvent(s, o)
    requires s' ==
             s.(store := s'.store, req := s'.req, holds := s'.holds, creators := s'.creators, retries := s'.retries)
    requires OthersAlike(s, s', o) && SeatsInv(s') && Issued(s') && o in s'.req && OrderOk(s', o)
    requires forall x :: x in s'.creators && x != o ==> x in s.creators
    requires o in s'.creators ==> Pristine(s', o) && o !in s.discards
    requires forall t :: t in s'.retries && s'.retries[t].order != o ==> t in s.retries && s'.retries[t] == s.retries[t]
    requires forall t :: t in s'.retries && s'.retries[t].order == o ==> RetryOk(s', s'.retries[t])
    requires forall t, u :: t in s'.retries && u in s'.retries && s'.retries[t].order == o && s'.retries[u].order == o ==> t == u
    requires s.maxDelay <= 0 ==> s'.retries == s.retries
    ensures Inv(s')
  {
    OrdersBut(s, s', o);
    EventsBut(s, s', o);
    CreatorsBut(s, s', o);
    forall h | h in s.handlers ensures s.handlers[h].order != o { assert HandlerOk(s, s.handlers[h]); }
    HandlersBut(s, s', o);
    RetriesBut(s, s', o);
  }

  /** The order number is issued, with a reservation and a process to publish it. */
  ghost predicate SubmitReserves(s: State, s': State, o: int, r: Request) {
    && s' == s.(store := s'.store, req := s.req[o := r], holds := s.holds[o := 1],
                creators := s.creators[o := Creator(s.now, Holding)])
    && s'.store.locks == s.store.locks + {o}
    && s'.store.rolledBack == s.store.rolledBack - {o}
    && s'.store.released == s.store.released - {o}
  }

  /** With a reservation and a process, or with neither. */
  ghost predicate SubmitOutcome(s: State, s': State, o: int, r: Request) {
    SubmitReserves(s, s', o, r) || s' == s.(req := s.req[o := r], holds := s.holds[o := 0])
  }

  lemma SubmitEffect(s: State, o: int, r: Request)
    requires DoSubmit(s, o, r).Some? && s.holds.Keys == s.req.Keys && o !in s.store.locks
    ensures SubmitOutcome(s, DoSubmit(s, o, r).value, o, r)
  {
    var (store, result) := LockScript(s.store, o, r);
    LockEffect(s.store, o, r);
    SubmittedEffect(s, o, r, store, result);
  }

  lemma SubmittedEffect(s: State, o: int, r: Request, store: Store, result: LockResult)
    requires o !in s.holds && result != Already && (result != Reserved ==> store == s.store)
    requires result == Reserved ==>
               && store.locks == s.store.locks + {o}
               && store.rolledBack == s.store.rolledBack - {o}
               && store.released == s.store.released - {o}
    ensures SubmitOutcome(s, Submitted(s, o, r, store, result), o, r)
  {
  }

  lemma SubmitOutcomeKeeps(s: State, s': State, o: int, r: Request)
    requires Inv(s) && o !in s.req && SubmitOutcome(s, s', o, r) && SeatsInv(s')
    ensures Inv(s')
  {
    NewOrderIsUnknown(s, o);
    if SubmitReserves(s, s', o, r) {
      SubmitReservesKeeps(s, s', o, r);
    } else {
      assert OthersAlike(s, s', o);
      ReservedKeeps(s, s', o);
    }
  }

  lemma SubmitReservesKeeps(s: State, s': State, o: int, r: Request)
    requires Inv(s) && o !in s.req && SubmitReserves(s, s', o, r) && SeatsInv(s')
    ensures Inv(s')
  {
    NewOrderIsUnknown(s, o);
    assert OthersAlike(s, s', o);
    ReservedKeeps(s, s', o);
  }

  lemma NewOrderIsUnknown(s: State, o: int)
    requires Inv(s) && o !in s.req
    ensures o !in s.orders && !HasEvent(s, o) && o !in s.creators
    ensures o !in s.store.locks + s.store.rolledBack + s.store.released + s.discards
    ensures forall t :: t in s.retries ==> s.retries[t].order != o
  {
    assert forall e :: e in s.events ==> EventOk(s, e);
    assert forall t :: t in s.retries ==> RetryOk(s, s.retries[t]);
  }

  lemma SubmitKeeps(s: State, o: int, r: Request)
    requires Inv(s) && DoSubmit(s, o, r).Some?
    ensures Inv(DoSubmit(s, o, r).value)
  {
    SubmitEffect(s, o, r);
    SeatsInvSubmit(s, o, r);
    SubmitOutcomeKeeps(s, DoSubmit(s, o, r).value, o, r);
  }

  /** A new event for an order that is reserved and has neither row nor event. */
  lemma PublishedKeeps(s: State, s': State, o: int, createdAt: int)
    requires Inv(s) && Pristine(s, o)
    requires s' == s.(events := s.events + {(o, createdAt)}, creators := s'.creators, retries := s'.retries)
    requires s'.creators.Keys <= s.creators.Keys - {o}
    requires forall t :: t in s'.retries && s'.retries[t].order != o ==> t in s.retries && s'.retries[t] == s.retries[t]
    requires forall t :: t in s'.retries && s'.retries[t].order == o ==>
               t in s.retries && s.retries[t].order == o && s'.retries[t].pc == RetryPublished
    ensures Inv(s')
  {
    assert OthersAlike(s, s', o);
    assert OrderOk(s, o);
    OrdersBut(s, s', o);
    EventsBut(s, s', o);
    CreatorsBut(s, s', o);
    forall h | h in s.handlers ensures s.handlers[h].order != o { assert HandlerOk(s, s.handlers[h]); }
    HandlersBut(s, s', o);
    RetriesBut(s, s', o);
  }

  lemma PublishKeeps(s: State, o: int, ok: bool)
    requires Inv(s) && DoPublish(s, o, ok).Some?
    ensures Inv(DoPublish(s, o, ok).value)
  {
    assert Pristine(s, o);
    if ok {
      forall t | t in s.retries ensures s.retries[t].order != o { assert RetryOk(s, s.retries[t]); }
      PublishedKeeps(s, DoPublish(s, o, ok).value, o, s.creators[o].createdAt);
    } else {
      SameRecords(s, DoPublish(s, o, ok).value);
    }
  }

  lemma UndoSubmitKeeps(s: State, o: int, dropped: State)
    requires Inv(s) && o in s.creators && dropped == s.(creators := s.creators - {o})
    ensures Inv(RunRollback(dropped, o, s.req[o]))
  {
    assert Pristine(s, o);
    SameRecords(s, dropped);
    forall t | t in s.retries ensures s.retries[t].order != o { assert RetryOk(s, s.retries[t]); }
    forall h | h in s.handlers ensures s.handlers[h].order != o { assert HandlerOk(s, s.handlers[h]); }
    RollbackKeeps(dropped, RunRollback(dropped, o, s.req[o]), o);
  }

  lemma SubmissionKeeps(s: State, a: Submission)
    requires Inv(s) && StepSubmission(s, a).Some?
    ensures Inv(StepSubmission(s, a).value)
  {
    match a
    case Submit(o, r) => SubmitKeeps(s, o, r);
    case Publish(o, ok) => PublishKeeps(s, o, ok);
    case UndoSubmit(o) => UndoSubmitKeeps(s, o, s.(creators := s.creators - {o}));
    case CreatorDies(o) => SameRecords(s, s.(creators := s.creators - {o}));
  }

  // ----- Consumption -----

  lemma DeliverKeeps(s: State, h: int, o: int, createdAt: int)
    requires Inv(s) && DoDeliver(s, h, o, createdAt).Some?
    ensures Inv(DoDeliver(s, h, o, createdAt).value)
  {
    var s' := DoDeliver(s, h, o, createdAt).value;
    OrdersStay(s, s');
    EventsStay(s, s');
    CreatorsStay(s, s');
    DeliverKeepsHandlers(s, h, o, createdAt, s');
    RetriesStay(s, s');
  }

  lemma DeliverKeepsHandlers(s: State, h: int, o: int, createdAt: int, s': State)
    requires Prudent(s) && HandlersOk(s) && EventsOk(s) && DoDeliver(s, h, o, createdAt) == Some(s')
    ensures HandlersOk(s')
  {
    assert EventOk(s, (o, createdAt));
    forall g | g in s'.handlers ensures HandlerOk(s', s'.handlers[g]) { assert g != h ==> HandlerOk(s, s.handlers[g]); }
  }

  lemma LookKeeps(s: State, h: int)
    requires Inv(s) && DoLook(s, h).Some?
    ensures Inv(DoLook(s, h).value)
  {
    forall g | g in s.handlers
      ensures HandlerOk(s, DoLook(s, h).value.handlers[g])
    {
      assert HandlerOk(s, s.handlers[g]);
    }
    SameRecords(s, DoLook(s, h).value);
  }

  /** The rollback of the delayed event at handler `h`, with the handler moved on. */
  lemma RollBackKeeps(s: State, h: int, moved: State)
    requires Inv(s) && Is(s, h, Discarding)
    requires moved == s.(handlers := s.handlers[h := s.handlers[h].(pc := Recording)])
    ensures Inv(RunRollback(moved, s.handlers[h].order, s.req[s.handlers[h].order]))
  {
    MovedOnKeeps(s, h, moved);
    DiscardRollsBack(moved, h, moved.handlers[h].order);
  }

  lemma MovedOnKeeps(s: State, h: int, moved: State)
    requires Inv(s) && Is(s, h, Discarding)
    requires moved == s.(handlers := s.handlers[h := s.handlers[h].(pc := Recording)])
    ensures Inv(moved)
  {
    forall g | g in s.handlers ensures HandlerOk(s, moved.handlers[g]) { assert HandlerOk(s, s.handlers[g]); }
    SameRecords(s, moved);
  }

  lemma DiscardRollsBack(s: State, h: int, o: int)
    requires Inv(s) && Is(s, h, Recording) && s.handlers[h].order == o
    ensures Inv(RunRollback(s, o, s.req[o]))
  {
    assert HandlerOk(s, s.handlers[h]);
    assert EventOk(s, (o, s.handlers[h].createdAt));
    assert HasEvent(s, o);
    forall t | t in s.retries && s.retries[t].order == o
      ensures s.retries[t].pc == RetryPublished
    {
      assert RetryOk(s, s.retries[t]);
    }
    RollbackKeeps(s, RunRollback(s, o, s.req[o]), o);
  }

  lemma RecordKeeps(s: State, h: int)
    requires Inv(s) && DoRecord(s, h).Some?
    ensures Inv(DoRecord(s, h).value)
  {
    var s' := DoRecord(s, h).value;
    assert HandlerOk(s, s.handlers[h]);
    assert HasEvent(s, s.handlers[h].order);
    OrdersStay(s, s');
    EventsStay(s, s');
    CreatorsStay(s, s');
    RecordKeepsHandlers(s, h, s');
    RetriesStay(s, s');
  }

  lemma RecordKeepsHandlers(s: State, h: int, s': State)
    requires HandlersOk(s) && DoRecord(s, h) == Some(s') && s.maxDelay > 0
    ensures HandlersOk(s')
  {
    forall g | g in s'.handlers ensures HandlerOk(s, s'.handlers[g]) { assert HandlerOk(s, s.handlers[g]); }
    HandlersStay(s, s');
  }

  lemma SaveRowKeeps(s: State, h: int)
    requires Inv(s) && DoSaveRow(s, h).Some?
    ensures Inv(DoSaveRow(s, h).value)
  {
    var o := s.handlers[h].order;
    var s' := DoSaveRow(s, h).value;
    assert HandlerOk(s, s.handlers[h]);
    SeatsInvFrame(s, s');
    if o in s.orders {
      SavedAgainKeeps(s, s', h);
    } else {
      assert EventOk(s, (o, s.handlers[h].createdAt));
      SavedKeeps(s, s', h, o);
    }
  }

  /** The insert of a row that exists changes nothing; the handler moves on. */
  lemma SavedAgainKeeps(s: State, s': State, h: int)
    requires Inv(s) && SeatsInv(s') && h in s.handlers && s.handlers[h].order in s.orders
    requires s' == s.(handlers := s.handlers[h := s.handlers[h].(pc := Finished)])
    ensures Inv(s')
  {
    forall g | g in s'.handlers ensures HandlerOk(s, s'.handlers[g]) { assert HandlerOk(s, s.handlers[g]); }
    SameRecords(s, s');
  }

  /** The first insert of the row of an order that is reserved. */
  lemma SavedKeeps(s: State, s': State, h: int, o: int)
    requires Inv(s) && SeatsInv(s') && Is(s, h, Saving) && s.handlers[h].order == o && o !in s.orders
    requires s.holds[o] >= 1 && o !in s.store.rolledBack && HasEvent(s, o)
    requires s' == s.(orders := s.orders[o := NoPay], handlers := s.handlers[h := s.handlers[h].(pc := Finished)])
    ensures Inv(s')
  {
    assert OrderOk(s, o);
    OrdersBut(s, s', o);
    forall e | e in s.events && e.0 == o ensures EventOk(s', e) { assert EventOk(s, e); }
    EventsBut(s, s', o);
    CreatorsBut(s, s', o);
    SavedKeepsHandlers(s, s', h, o);
    forall t | t in s.retries && s.retries[t].order == o
      ensures RetryOk(s', s.retries[t])
    {
      assert RetryOk(s, s.retries[t]);
    }
    RetriesBut(s, s', o);
  }

  lemma SavedKeepsHandlers(s: State, s': State, h: int, o: int)
    requires HandlersOk(s) && Is(s, h, Saving) && s.handlers[h].order == o
    requires s' == s.(orders := s.orders[o := NoPay], handlers := s.handlers[h := s.handlers[h].(pc := Finished)])
    requires OthersAlike(s, s', o)
    ensures HandlersOk(s')
  {
    forall g | g in s.handlers && s.handlers[g].order == o ensures HandlerOk(s', s'.handlers[g]) {
      assert HandlerOk(s, s.handlers[g]);
    }
    HandlersBut(s, s', o);
  }

  lemma AckKeeps(s: State, h: int)
    requires Inv(s) && DoAck(s, h).Some?
    ensures Inv(DoAck(s, h).value)
  {
    var s' := DoAck(s, h).value;
    OrdersStay(s, s');
    EventsStay(s, s');
    CreatorsStay(s, s');
    AckKeepsHandlers(s, h, s');
    RetriesStay(s, s');
  }

  /** Another handler of the acknowledged event exists only without a delay limit, and then the order has its row. */
  lemma AckKeepsHandlers(s: State, h: int, s': State)
    requires HandlersOk(s) && DoAck(s, h) == Some(s')
    ensures HandlersOk(s')
  {
    forall g | g in s'.handlers ensures HandlerOk(s', s'.handlers[g]) {
      assert HandlerOk(s, s.handlers[g]);
      assert HandlerOk(s, s.handlers[h]);
    }
  }

  lemma ConsumptionKeeps(s: State, a: Consumption)
    requires Inv(s) && StepConsumption(s, a).Some?
    ensures Inv(StepConsumption(s, a).value)
  {
    match a
    case Deliver(h, o, createdAt) => DeliverKeeps(s, h, o, createdAt);
    case Look(h) => LookKeeps(s, h);
    case RollBack(h) => RollBackKeeps(s, h, s.(handlers := s.handlers[h := s.handlers[h].(pc := Recording)]));
    case Record(h) => RecordKeeps(s, h);
    case SaveRow(h) => SaveRowKeeps(s, h);
    case Ack(h) => AckKeeps(s, h);
    case HandlerDies(h) => SameRecords(s, s.(handlers := s.handlers - {h}));
  }

  // ----- Compensation -----

  /** A new reservation and a process for it. */
  ghost predicate RetryReserves(s: State, s': State, t: int, o: int)
    requires o in s.holds
  {
    && s' == s.(store := s'.store, holds := s.holds[o := s.holds[o] + 1], retries := s.retries[t := Retry(o, s.now, RetryHolding)])
    && s'.store.locks == s.store.locks + {o}
    && s'.store.rolledBack == s.store.rolledBack - {o}
    && s'.store.released == s.store.released - {o}
  }

  /** A new reservation and a process for it, or the old reservation with or without a process. */
  ghost predicate RetryOutcome(s: State, s': State, t: int, o: int)
    requires o in s.holds
  {
    || RetryReserves(s, s', t, o)
    || s' == s
    || (o in s.store.locks && s' == s.(retries := s.retries[t := Retry(o, s.now, RetryHolding)]))
  }

  lemma RetryEffect(s: State, t: int, o: int)
    requires DoRetryReserve(s, t, o).Some? && o in s.holds
    ensures RetryOutcome(s, DoRetryReserve(s, t, o).value, t, o)
  {
    var (store, result) := LockScript(s.store, o, s.req[o]);
    LockEffect(s.store, o, s.req[o]);
    RetriedEffect(s, t, o, store, result);
  }

  lemma LockEffect(st: Store, o: int, r: Request)
    ensures var (st', result) := LockScript(st, o, r);
            && (result == Already <==> o in st.locks)
            && (result != Reserved ==> st' == st)
            && (result == Reserved ==>
                  st'.locks == st.locks + {o} && st'.rolledBack == st.rolledBack - {o} && st'.released == st.released - {o})
  {
  }

  lemma RetriedEffect(s: State, t: int, o: int, store: Store, result: LockResult)
    requires o in s.holds && (result == Already ==> o in s.store.locks) && (result != Reserved ==> store == s.store)
    requires result == Reserved ==>
               && store.locks == s.store.locks + {o}
               && store.rolledBack == s.store.rolledBack - {o}
               && store.released == s.store.released - {o}
    ensures RetryOutcome(s, Retried(s, t, o, store, result), t, o)
  {
  }

  lemma RetryOutcomeKeeps(s: State, s': State, t: int, o: int)
    requires Inv(s) && o in s.discards && o in s.req && t !in s.retries && RetryAllowed(s, o) && s.maxDelay > 0
    requires RetryOutcome(s, s', t, o) && SeatsInv(s')
    ensures Inv(s')
  {
    if RetryReserves(s, s', t, o) {
      RetryReservesKeeps(s, s', t, o);
    } else if s' != s {
      assert OrderOk(s, o);
      ReservedKeeps(s, s', o);
    }
  }

  lemma RetryReservesKeeps(s: State, s': State, t: int, o: int)
    requires Inv(s) && o in s.discards && o in s.req && t !in s.retries && RetryAllowed(s, o) && s.maxDelay > 0
    requires RetryReserves(s, s', t, o) && SeatsInv(s')
    ensures Inv(s')
  {
    assert OrderOk(s, o);
    assert OthersAlike(s, s', o);
    ReservedKeeps(s, s', o);
  }

  lemma RetryReserveKeeps(s: State, t: int, o: int)
    requires Inv(s) && DoRetryReserve(s, t, o).Some?
    ensures Inv(DoRetryReserve(s, t, o).value)
  {
    RetryEffect(s, t, o);
    SeatsInvRetry(s, t, o);
    RetryOutcomeKeeps(s, DoRetryReserve(s, t, o).value, t, o);
  }

  lemma RetryPublishKeeps(s: State, t: int, ok: bool)
    requires Inv(s) && DoRetryPublish(s, t, ok).Some?
    ensures Inv(DoRetryPublish(s, t, ok).value)
  {
    var s' := DoRetryPublish(s, t, ok).value;
    assert RetryOk(s, s.retries[t]);
    if ok {
      PublishedKeeps(s, s', s.retries[t].order, s.retries[t].createdAt);
    } else {
      forall u | u in s.retries ensures RetryOk(s, s'.retries[u]) { assert RetryOk(s, s.retries[u]); }
      SameRecords(s, s');
    }
  }

  lemma RetryUndoKeeps(s: State, t: int)
    requires Inv(s) && DoRetryUndo(s, t).Some?
    ensures Inv(DoRetryUndo(s, t).value)
  {
    var o := s.retries[t].order;
    assert RetryOk(s, s.retries[t]);
    var dropped := s.(retries := s.retries - {t});
    SameRecords(s, dropped);
    forall h | h in s.handlers ensures s.handlers[h].order != o { assert HandlerOk(s, s.handlers[h]); }
    RollbackKeeps(dropped, RunRollback(dropped, o, s.req[o]), o);
  }

  lemma RetryMarkKeeps(s: State, t: int)
    requires Inv(s) && DoRetryMark(s, t).Some?
    ensures Inv(DoRetryMark(s, t).value)
  {
    var s' := DoRetryMark(s, t).value;
    OrdersStay(s, s');
    EventsStay(s, s');
    CreatorsStay(s, s');
    HandlersStay(s, s');
    RetriesStay(s, s');
  }

  lemma CompensationKeeps(s: State, a: Compensation)
    requires Inv(s) && StepCompensation(s, a).Some?
    ensures Inv(StepCompensation(s, a).value)
  {
    match a
    case RetryReserve(t, o) => RetryReserveKeeps(s, t, o);
    case RetryPublish(t, ok) => RetryPublishKeeps(s, t, ok);
    case RetryUndo(t) => RetryUndoKeeps(s, t);
    case RetryMark(t) => RetryMarkKeeps(s, t);
    case RetryDies(t) => SameRecords(s, s.(retries := s.retries - {t}));
  }

  // ----- Commands on the row -----

  /** A row moves along its path; an order with a row is seen by handlers and events only as existing. */
  lemma RowMoveKeeps(s: State, s': State)
    requires Inv(s) && SeatsInv(s')
    requires s' == s.(orders := s'.orders, cancels := s'.cancels, pays := s'.pays)
    requires s'.orders.Keys == s.orders.Keys
    requires forall o :: Closed(s, o) ==> Closed(s', o)
    ensures Inv(s')
  {
    UnseenKeeps(s, s');
  }

  lemma ReleaseKeeps(s: State, c: int)
    requires Inv(s) && DoCancelRelease(s, c).Some?
    ensures Inv(DoCancelRelease(s, c).value)
  {
    var s' := DoCancelRelease(s, c).value;
    var o := s.cancels[c].order;
    assert Closed(s, o);
    SeatsInvRelease(s, c);
    ReleaseEffect(s, o, s.req[o]);
    ReleasedKeeps(s, s', o);
  }

  /** The reservation of a closed order is given back. */
  lemma ReleasedKeeps(s: State, s': State, o: int)
    requires Inv(s) && SeatsInv(s') && o in s.req && Closed(s, o)
    requires s' == s.(store := s'.store, holds := s'.holds, cancels := s'.cancels)
    requires s'.store.rolledBack == s.store.rolledBack
    requires || (s'.store == s.store && s'.holds == s.holds)
             || (&& o !in s.store.released && s'.store.released == s.store.released + {o}
                 && s'.store.locks == s.store.locks - {o}
                 && s'.holds == s.holds[o := s.holds[o] - 1])
    ensures Inv(s')
  {
    assert OthersAlike(s, s', o);
    assert OrderOk(s, o);
    OrdersBut(s, s', o);
    forall e | e in s.events && e.0 == o ensures EventOk(s', e) { assert EventOk(s, e); }
    EventsBut(s, s', o);
    CreatorsBut(s, s', o);
    forall h | h in s.handlers && s.handlers[h].order == o
      ensures HandlerOk(s', s.handlers[h])
    {
      assert HandlerOk(s, s.handlers[h]);
    }
    HandlersBut(s, s', o);
    forall t | t in s.retries && s.retries[t].order == o
      ensures RetryOk(s', s.retries[t])
    {
      assert RetryOk(s, s.retries[t]);
    }
    RetriesBut(s, s', o);
  }

  lemma CancelUpdateKeeps(s: State, c: int, s': State)
    requires Inv(s) && CancelOutcome(s, s', c)
    ensures Inv(s')
  {
    SeatsInvCanceled(s, s', c);
    RowMovesKeepPaidAndClosed(s, s', s.cancels[c].order, Cancel);
    RowMoveKeeps(s, s');
  }

  lemma CancelReadKeeps(s: State, c: int, o: int)
    requires Inv(s) && DoCancelRead(s, c, o).Some?
    ensures Inv(DoCancelRead(s, c, o).value)
  {
    SeatsInvCancelRead(s, c, o);
    RowMoveKeeps(s, DoCancelRead(s, c, o).value);
  }

  lemma CancelDiesKeeps(s: State, c: int, s': State)
    requires Inv(s) && s' == s.(cancels := s.cancels - {c})
    ensures Inv(s')
  {
    SeatsInvFrame(s, s');
    RowMoveKeeps(s, s');
  }

  lemma CancellationKeeps(s: State, a: Cancellation)
    requires Inv(s) && StepCancellation(s, a).Some?
    ensures Inv(StepCancellation(s, a).value)
  {
    match a
    case CancelRead(c, o) => CancelReadKeeps(s, c, o);
    case CancelUpdate(c) =>
      CancelUpdateEffect(s, c);
      CancelUpdateKeeps(s, c, DoCancelUpdate(s, c).value);
    case CancelRelease(c) => ReleaseKeeps(s, c);
    case CancelDies(c) => CancelDiesKeeps(s, c, s.(cancels := s.cancels - {c}));
  }

  lemma ConfirmKeeps(s: State, p: int)
    requires Inv(s) && DoPayConfirm(s, p).Some?
    ensures Inv(DoPayConfirm(s, p).value)
  {
    SeatsInvConfirm(s, p);
    UnseenKeeps(s, DoPayConfirm(s, p).value);
  }

  lemma SettlementKeeps(s: State, a: Settlement)
    requires Inv(s) && StepSettlement(s, a).Some?
    ensures Inv(StepSettlement(s, a).value)
  {
    match a
    case PayConfirm(p) => ConfirmKeeps(s, p);
    case PayRead(p, o) =>
      SeatsInvSettlement(s, a);
      RowMoveKeeps(s, DoPayRead(s, p, o).value);
    case PayUpdate(p) =>
      PayUpdateEffect(s, p);
      PayUpdateKeeps(s, p, DoPayUpdate(s, p).value);
    case PayDies(p) =>
      SeatsInvSettlement(s, a);
      RowMoveKeeps(s, s.(pays := s.pays - {p}));
    case RefundRow(o) =>
      SeatsInvSettlement(s, a);
      RowMoveKeeps(s, s.(orders := s.orders[o := Refund]));
  }

  lemma PayUpdateKeeps(s: State, p: int, s': State)
    requires Inv(s) && PayOutcome(s, s', p)
    ensures Inv(s')
  {
    SeatsInvPaid(s, s', p);
    RowMovesKeepPaidAndClosed(s, s', s.pays[p].order, Pay);
    RowMoveKeeps(s, s');
  }

  lemma PassingKeeps(s: State, a: Passing)
    requires Inv(s) && StepPassing(s, a).Some?
    ensures Inv(StepPassing(s, a).value)
  {
    SeatsInvPassing(s, a);
    UnseenKeeps(s, StepPassing(s, a).value);
  }

  lemma StepKeeps(s: State, a: Action)
    requires Inv(s) && Step(s, a).Some?
    ensures Inv(Step(s, a).value)
  {
    match a
    case Submitting(b) => SubmissionKeeps(s, b);
    case Consuming(b) => ConsumptionKeeps(s, b);
    case Compensating(b) => CompensationKeeps(s, b);
    case Canceling(b) => CancellationKeeps(s, b);
    case Settling(b) => SettlementKeeps(s, b);
    case Elapsing(b) => PassingKeeps(s, b);
  }

  // ----- No oversell -----

  function TicketsOf(s: State, category: int, o: int): int {
    if o in s.req && o in s.orders && s.req[o].category == category && (s.orders[o] == NoPay || s.orders[o] == Pay)
    then s.req[o].count else 0
  }

  /** Tickets of a category that belong to unpaid or paid orders. */
  ghost function Tickets(s: State, category: int): int {
    Sum(s.req.Keys, (o: int) => TicketsOf(s, category, o))
  }

  /** Live orders and remaining stock together never exceed the seeded total. */
  ghost predicate NoOversell(s0: State, s: State) {
    forall c :: Tickets(s, c) + Stock(s.store, c) <= Stock(s0.store, c)
  }

  lemma TicketsAreHeld(s: State, category: int)
    requires Inv(s)
    ensures Tickets(s, category) <= Held(s, category)
  {
    forall o | o in s.req.Keys ensures TicketsOf(s, category, o) <= Weight(s, category, o) {
      assert OrderOk(s, o);
      assert s.holds[o] >= 1 ==> s.req[o].count * s.holds[o] >= s.req[o].count * 1;
      assert s.req[o].count * s.holds[o] >= 0;
    }
    SumAtMost(s.req.Keys, (o: int) => TicketsOf(s, category, o), (o: int) => Weight(s, category, o));
  }

  lemma PrudentRunsKeep(s0: State, acts: seq<Action>, s: State)
    requires Opening(s0) && Prudent(s0) && Reachable(s0, acts, s)
    ensures Inv(s)
  {
    forall t, a | Inv(t) && Step(t, a).Some? ensures Inv(Step(t, a).value) { StepKeeps(t, a); }
    InvariantOfRun(Step, Inv, s0, acts);
  }

  /** In every run of a prudently operated sale, stock never goes negative and every live order has its reservation. */
  lemma NeverOversold(s0: State, acts: seq<Action>, s: State)
    requires Opening(s0) && Prudent(s0) && Reachable(s0, acts, s)
    ensures NoOversell(s0, s)
    ensures forall c :: Stock(s.store, c) >= 0
    ensures forall o :: o in s.orders && (s.orders[o] == NoPay || s.orders[o] == Pay) ==>
              o in s.holds && s.holds[o] >= 1
  {
    PrudentRunsKeep(s0, acts, s);
    forall c ensures Tickets(s, c) + Stock(s.store, c) <= Stock(s0.store, c) && Stock(s.store, c) >= 0 {
      StockIsConserved(s0, acts, s, c);
      TicketsAreHeld(s, c);
    }
    forall o | o in s.orders && (s.orders[o] == NoPay || s.orders[o] == Pay) ensures o in s.holds && s.holds[o] >= 1 {
      assert OrderOk(s, o);
    }
  }
}
