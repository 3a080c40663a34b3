/**
 Seat exclusivity: no two unpaid or paid orders share a seat or a ticket holder. What keeps them
 apart is the ownership key in Redis, so it depends on that key outliving the order; and it does
 not depend on the markers.
 */
module PurchaseExclusivity {
  import opened Runs
  import opened Orders
  import opened SeatStore
  import opened PurchaseSaga
  import opened PurchaseSafety

  ghost predicate Exclusive(s: State) {
    forall o, p, k :: o in s.req && p in s.req && LiveRow(s, o) && LiveRow(s, p) && k in s.req[o].keys && k in s.req[p].keys ==> o == p
  }

  /** Nothing is discarded, or handlers are serial and retries careful. */
  ghost predicate Orderly(s: State) {
    s.maxDelay <= 0 || (s.policy.serialHandlers && s.policy.carefulRetries)
  }

  // ----- Who works on which order -----

  ghost predicate Known(s: State) {
    && (forall o :: o in s.orders ==> o in s.req)
    && (forall o :: o in s.store.locks ==> o in s.req)
    && (forall o :: o in s.discards ==> o in s.req)
    && (forall o :: o in s.store.rolledBack ==> o !in s.store.locks)
  }

  /** Submitted, with neither a row nor an event. */
  ghost predicate Fresh(s: State, o: int) {
    o in s.req && o !in s.orders && !HasEvent(s, o)
  }

  ghost predicate EventsSane(s: State) {
    && (forall e :: e in s.events ==> e.0 in s.req)
    && (forall e, f :: e in s.events && f in s.events && e.0 == f.0 ==> e == f)
  }

  ghost predicate CreatorsSane(s: State) {
    forall o :: o in s.creators ==> Fresh(s, o) && o !in s.discards
  }

  ghost predicate HandlerSane(s: State, h: Handler) {
    && ((h.order, h.createdAt) in s.events || (s.maxDelay <= 0 && h.order in s.orders))
    && (h.delayed ==> Late(s, h.createdAt))
    && (h.pc == Saving ==> !h.delayed)
    && (h.pc == Finished && s.maxDelay <= 0 ==> h.order in s.orders)
    && (h.pc == Discarding || h.pc == Recording ==> h.delayed && h.order !in s.orders)
    && (h.pc == Recording ==> h.order !in s.store.locks)
  }

  ghost predicate HandlersSane(s: State) {
    && (forall h :: h in s.handlers ==> HandlerSane(s, s.handlers[h]))
    && (s.maxDelay > 0 ==>
          forall h, g :: h in s.handlers && g in s.handlers && s.handlers[h].order == s.handlers[g].order ==> h == g)
  }

  ghost predicate RetrySane(s: State, t: Retry) {
    t.order in s.req && t.order !in s.creators && (t.pc != RetryPublished ==> Fresh(s, t.order))
  }

  ghost predicate RetriesSane(s: State) {
    && (s.maxDelay <= 0 ==> s.discards == {} && forall t :: t !in s.retries)
    && (forall t :: t in s.retries ==> RetrySane(s, s.retries[t]))
    && (forall t, u :: t in s.retries && u in s.retries && s.retries[t].order == s.retries[u].order ==> t == u)
  }

  ghost predicate Sane(s: State) {
    Orderly(s) && Known(s) && EventsSane(s) && CreatorsSane(s) && HandlersSane(s) && RetriesSane(s)
  }

  /** Processes move on or go, keys and markers change, but no order becomes locked. */
  lemma SameSane(s: State, s': State)
    requires Sane(s) && s' == s.(store := s'.store, holds := s'.holds, creators := s'.creators, handlers := s'.handlers,
                                 retries := s'.retries, cancels := s'.cancels, pays := s'.pays)
    requires forall o :: o in s'.store.locks ==> o in s.store.locks
    requires forall o :: o in s'.store.rolledBack ==> o !in s'.store.locks
    requires forall o :: o in s'.creators ==> o in s.creators
    requires forall h :: h in s'.handlers ==> h in s.handlers && s'.handlers[h].order == s.handlers[h].order
    requires forall h :: h in s'.handlers ==> HandlerSane(s', s'.handlers[h])
    requires forall t :: t in s'.retries ==> t in s.retries && s'.retries[t].order == s.retries[t].order
    requires forall t :: t in s'.retries ==> s.retries[t].pc == RetryPublished ==> s'.retries[t].pc == RetryPublished
    ensures Sane(s')
  {
    forall t | t in s'.retries ensures RetrySane(s', s'.retries[t]) { assert RetrySane(s, s.retries[t]); }
    forall o | o in s'.creators ensures Fresh(s', o) { assert Fresh(s, o); }
  }

  lemma HandlersStay(s: State, s': State)
    requires Sane(s) && s'.handlers == s.handlers && s'.events == s.events && s'.orders == s.orders
    requires s'.maxDelay == s.maxDelay && s.now <= s'.now
    requires forall h :: h in s.handlers && s.handlers[h].order in s'.store.locks ==>
               s.handlers[h].order in s.store.locks
    ensures forall h :: h in s'.handlers ==> HandlerSane(s', s'.handlers[h])
  {
    forall h | h in s'.handlers ensures HandlerSane(s', s'.handlers[h]) { assert HandlerSane(s, s.handlers[h]); }
  }

  // ----- Scripts -----

  /** What a script may do to the store while it works for order `o`. */
  ghost predicate GivesBack(st: Store, st': Store, o: int) {
    && st'.locks <= st.locks
    && (st' == st || o !in st'.locks)
    && (forall x :: x in st'.rolledBack ==> x in st.rolledBack || (x == o && o !in st'.locks))
    && (forall k :: k in st.owners && st.owners[k].order != o ==> k in st'.owners && st'.owners[k] == st.owners[k])
  }

  lemma RollbackGivesBack(st: Store, o: int, r: Request)
    ensures GivesBack(st, RollbackScript(st, o, r).0, o)
    ensures o in RollbackScript(st, o, r).0.rolledBack
  {
  }

  lemma ReleaseGivesBack(st: Store, o: int, r: Request)
    ensures GivesBack(st, ReleaseScript(st, o, r).0, o)
  {
  }

  // ----- Seats of open orders -----

  ghost predicate Owns(s: State, o: int) {
    o in s.req && forall k :: k in s.req[o].keys ==> k in s.store.owners && s.store.owners[k].order == o
  }

  ghost predicate KeysOk(s: State) {
    forall o :: Open(s, o) ==> Owns(s, o)
  }

  ghost predicate Apart(s: State) {
    s.policy.keysOutlive && SeatsInv(s) && Sane(s) && KeysOk(s)
  }

  lemma OwnersAreExclusive(s: State)
    requires KeysOk(s)
    ensures Exclusive(s)
  {
    forall o, p, k | o in s.req && p in s.req && LiveRow(s, o) && LiveRow(s, p) && k in s.req[o].keys && k in s.req[p].keys
      ensures o == p
    {
      assert Open(s, o) && Open(s, p);
    }
  }

  /** Nothing opens and no key changes. */
  lemma KeysStay(s: State, s': State)
    requires KeysOk(s) && s'.store.owners == s.store.owners && s'.req == s.req
    requires forall o :: Open(s', o) ==> Open(s, o)
    ensures KeysOk(s')
  {
    forall o | Open(s', o) ensures Owns(s', o) { assert Owns(s, o); }
  }

  /** Work for order `o` leaves the keys of other orders alone. */
  lemma KeysOfOthersStay(s: State, s': State, o: int)
    requires KeysOk(s) && forall p :: p != o && p in s.req ==> p in s'.req && s'.req[p] == s.req[p]
    requires forall p :: p != o && Open(s', p) ==> Open(s, p)
    requires forall k :: k in s.store.owners && s.store.owners[k].order != o ==>
               k in s'.store.owners && s'.store.owners[k] == s.store.owners[k]
    requires Open(s', o) ==> Owns(s', o)
    ensures KeysOk(s')
  {
    forall p | Open(s', p) ensures Owns(s', p) {
      if p != o { assert Owns(s, p); }
    }
  }

  // ----- Scripts that give seats back -----

  /** Handlers may be gone or further on; the others work on the same events. */
  ghost predicate HandlersMovedOn(s: State, s': State) {
    forall h :: h in s'.handlers ==>
      && h in s.handlers
      && s'.handlers[h].order == s.handlers[h].order
      && s'.handlers[h].createdAt == s.handlers[h].createdAt
      && s'.handlers[h].delayed == s.handlers[h].delayed
  }

  /** A script for `o` by a process that then is done with it, when `o` does not stay open. */
  lemma GivingBackKeepsApart(s: State, t: State, s': State, o: int)
    requires Apart(s) && GivesBack(s.store, s'.store, o) && SeatsInv(s')
    requires t == s.(creators := t.creators, handlers := t.handlers, retries := t.retries, cancels := t.cancels)
    requires s' == t.(store := s'.store, holds := s'.holds)
    requires forall x :: x in t.creators ==> x in s.creators && t.creators[x] == s.creators[x]
    requires forall h :: h in t.handlers ==> HandlerSane(s', t.handlers[h])
    requires HandlersMovedOn(s, t)
    requires forall u :: u in t.retries ==> u in s.retries && t.retries[u] == s.retries[u]
    requires s'.store != s.store ==> !Open(s', o)
    ensures Sane(s') && KeysOk(s')
  {
    assert forall x :: x in s'.store.rolledBack ==> x !in s'.store.locks;
    SameSane(s, s');
    OpeningNothing(s, s');
    if s'.store == s.store {
      KeysStay(s, s');
    } else {
      KeysOfOthersStay(s, s', o);
    }
  }

  /** Dropping processes and locks, and moving processes on, opens no order. */
  lemma OpeningNothing(s: State, s': State)
    requires s'.orders == s.orders && s'.events == s.events && s'.discards == s.discards && s'.maxDelay == s.maxDelay
    requires s.now <= s'.now
    requires forall o :: o in s'.store.locks ==> o in s.store.locks
    requires forall o :: o in s'.creators && s'.creators[o].pc == Holding ==>
               o in s.creators && s.creators[o].pc == Holding
    requires HandlersMovedOn(s, s')
    requires forall t :: t in s'.retries && s'.retries[t].pc == RetryHolding ==>
               t in s.retries && s.retries[t] == s'.retries[t]
    ensures forall o :: Open(s', o) ==> Open(s, o)
  {
    forall o | Open(s', o) ensures Open(s, o) {
      if o !in s.orders && exists e :: e in s'.events && e.0 == o && Savable(s', e) {
        var e :| e in s'.events && e.0 == o && Savable(s', e);
        SavableBefore(s, s', e);
      }
    }
  }

  lemma SavableBefore(s: State, s': State, e: (int, int))
    requires Savable(s', e) && s'.maxDelay == s.maxDelay && s.now <= s'.now
    requires HandlersMovedOn(s, s')
    ensures Savable(s, e)
  {
    if Late(s', e.1) {
      var h :| h in s'.handlers && s'.handlers[h].order == e.0 && s'.handlers[h].createdAt == e.1 && !s'.handlers[h].delayed;
      assert h in s.handlers;
    }
  }

  lemma UndoSubmitApart(s: State, o: int)
    requires Apart(s) && DoUndoSubmit(s, o).Some? && SeatsInv(DoUndoSubmit(s, o).value)
    ensures Sane(DoUndoSubmit(s, o).value) && KeysOk(DoUndoSubmit(s, o).value)
  {
    var t, s' := s.(creators := s.creators - {o}), DoUndoSubmit(s, o).value;
    RollbackGivesBack(s.store, o, s.req[o]);
    assert Fresh(s, o);
    forall u | u in s.retries ensures s.retries[u].order != o { assert RetrySane(s, s.retries[u]); }
    HandlersStay(s, s');
    GivingBackKeepsApart(s, t, s', o);
  }

  lemma RetryUndoApart(s: State, t: int)
    requires Apart(s) && DoRetryUndo(s, t).Some? && SeatsInv(DoRetryUndo(s, t).value)
    ensures Sane(DoRetryUndo(s, t).value) && KeysOk(DoRetryUndo(s, t).value)
  {
    var o := s.retries[t].order;
    var before, s' := s.(retries := s.retries - {t}), DoRetryUndo(s, t).value;
    RollbackGivesBack(s.store, o, s.req[o]);
    assert RetrySane(s, s.retries[t]);
    HandlersStay(s, s');
    GivingBackKeepsApart(s, before, s', o);
  }

  /** The late event of a discarded order is not savable any more. */
  lemma RollBackApart(s: State, h: int)
    requires Apart(s) && DoRollBack(s, h).Some? && SeatsInv(DoRollBack(s, h).value)
    ensures Sane(DoRollBack(s, h).value) && KeysOk(DoRollBack(s, h).value)
  {
    var o := s.handlers[h].order;
    var t, s' := s.(handlers := s.handlers[h := s.handlers[h].(pc := Recording)]), DoRollBack(s, h).value;
    RollbackGivesBack(s.store, o, s.req[o]);
    assert HandlerSane(s, s.handlers[h]);
    assert o !in s'.store.locks;
    forall g | g in t.handlers ensures HandlerSane(s', t.handlers[g]) { assert HandlerSane(s, s.handlers[g]); }
    if s'.store != s.store {
      NotOpenWhenLate(s, s', h);
    }
    GivingBackKeepsApart(s, t, s', o);
  }

  lemma NotOpenWhenLate(s: State, s': State, h: int)
    requires Sane(s) && Is(s, h, Discarding)
    requires s' ==
             s.(store := s'.store, holds := s'.holds, handlers := s.handlers[h := s.handlers[h].(pc := Recording)])
    requires s.handlers[h].order !in s'.store.locks
    ensures !Open(s', s.handlers[h].order)
  {
    var o, e := s.handlers[h].order, (s.handlers[h].order, s.handlers[h].createdAt);
    assert HandlerSane(s, s.handlers[h]);
    assert e in s.events && e.0 == o && HasEvent(s, o);
    assert o !in s.creators by { assert o in s.creators ==> Fresh(s, o); }
    forall t | t in s.retries && s.retries[t].order == o
      ensures s.retries[t].pc == RetryPublished
    {
      assert RetrySane(s, s.retries[t]);
    }
    forall f | f in s'.events && f.0 == o ensures !Savable(s', f) {
      assert f == e;
    }
  }

  lemma ReleaseApart(s: State, c: int)
    requires Apart(s) && DoCancelRelease(s, c).Some? && SeatsInv(DoCancelRelease(s, c).value)
    ensures Sane(DoCancelRelease(s, c).value) && KeysOk(DoCancelRelease(s, c).value)
  {
    var o := s.cancels[c].order;
    var t, s' := s.(cancels := s.cancels - {c}), DoCancelRelease(s, c).value;
    ReleaseGivesBack(s.store, o, s.req[o]);
    assert Closed(s, o);
    HandlersStay(s, s');
    GivingBackKeepsApart(s, t, s', o);
  }

  // ----- Scripts that take seats -----

  /** What the lock script does for `o`: nothing, or all keys and the lock record. */
  lemma LockTakesKeys(st: Store, o: int, r: Request)
    ensures var (st', result) := LockScript(st, o, r);
            && (result == Already <==> o in st.locks)
            && (result != Reserved ==> st' == st)
            && (result == Reserved ==>
                  && st'.locks == st.locks + {o} && st'.rolledBack == st.rolledBack - {o}
                  && (forall k :: k in st.owners ==> k in st'.owners && st'.owners[k] == st.owners[k])
                  && (forall k :: k in r.keys ==> k in st'.owners && st'.owners[k] == Locked(o)))
  {
  }

  /** `s'` is `s` after a lock script for `o` with this result, and perhaps a process that works on it. */
  ghost predicate LocksFor(s: State, s': State, o: int, result: LockResult) {
    && s' == s.(store := s'.store, holds := s'.holds, req := s'.req, creators := s'.creators, retries := s'.retries)
    && o in s'.req && (forall x :: x != o ==> (x in s'.req <==> x in s.req))
    && (forall x :: x in s.req ==> x in s'.req && s'.req[x] == s.req[x])
    && (result == Already <==> o in s.store.locks)
    && (result != Reserved ==> s'.store == s.store)
    && (result == Reserved ==>
          && s'.store.locks == s.store.locks + {o} && s'.store.rolledBack == s.store.rolledBack - {o}
          && (forall k :: k in s.store.owners ==> k in s'.store.owners && s'.store.owners[k] == s.store.owners[k])
          && (forall k :: k in s'.req[o].keys ==> k in s'.store.owners && s'.store.owners[k] == Locked(o)))
  }

  /** The order is fresh, so nobody works on it who would mind. */
  lemma LockingIsSane(s: State, s': State, o: int, result: LockResult)
    requires Sane(s) && LocksFor(s, s', o, result) && o !in s.orders && !HasEvent(s, o) && o !in s.creators
    requires forall x :: x in s'.creators ==>
               || x in s.creators
               || (x == o && o !in s.discards && forall t :: t in s'.retries ==> s'.retries[t].order != o)
    requires forall t :: t in s'.retries ==>
               (t in s.retries && s'.retries[t] == s.retries[t]) || (s'.retries[t].order == o && o !in s'.creators)
    requires forall t :: t in s.retries ==> s.retries[t].order != o
    requires forall t, u :: t in s'.retries && u in s'.retries && s'.retries[t].order == o && s'.retries[u].order == o ==> t == u
    requires s.maxDelay <= 0 ==> s'.retries == s.retries
    ensures Sane(s')
  {
    forall t | t in s'.retries
      ensures RetrySane(s', s'.retries[t])
    {
      assert t in s.retries ==> RetrySane(s, s.retries[t]);
    }
    forall x | x in s'.creators ensures Fresh(s', x) && x !in s'.discards { assert x in s.creators ==> Fresh(s, x); }
    forall h | h in s'.handlers ensures HandlerSane(s', s'.handlers[h]) {
      assert HandlerSane(s, s.handlers[h]);
      assert (s.handlers[h].order, s.handlers[h].createdAt) in s.events ==> HasEvent(s, s.handlers[h].order);
    }
  }

  lemma LockingKeepsKeys(s: State, s': State, o: int, result: LockResult)
    requires KeysOk(s) && LocksFor(s, s', o, result) && o !in s.orders && !HasEvent(s, o)
    requires result == Reserved || (Open(s', o) ==> Open(s, o))
    requires forall x :: x != o && x in s'.creators ==> x in s.creators && s'.creators[x] == s.creators[x]
    requires forall t :: t in s'.retries && s'.retries[t].order != o ==> t in s.retries && s'.retries[t] == s.retries[t]
    ensures KeysOk(s')
  {
    forall p | p != o && Open(s', p) ensures Open(s, p) {
      if p !in s.orders && exists e :: e in s'.events && e.0 == p && Savable(s', e) {
        var e :| e in s'.events && e.0 == p && Savable(s', e);
        SavableBefore(s, s', e);
      }
    }
    if result == Reserved {
      KeysOfOthersStay(s, s', o);
    } else {
      forall p | Open(s', p) ensures Owns(s', p) { assert Owns(s, p); }
    }
  }

  lemma SubmitApart(s: State, o: int, r: Request)
    requires Apart(s) && DoSubmit(s, o, r).Some?
    ensures Sane(DoSubmit(s, o, r).value) && KeysOk(DoSubmit(s, o, r).value)
  {
    var (store, result) := LockScript(s.store, o, r);
    LockTakesKeys(s.store, o, r);
    SubmittedLocks(s, o, r, store, result);
    SubmitLocksApart(s, DoSubmit(s, o, r).value, o, result);
  }

  lemma SubmitLocksApart(s: State, s': State, o: int, result: LockResult)
    requires Apart(s) && LocksFor(s, s', o, result) && o !in s.req && s'.retries == s.retries && result != Already
    requires s'.creators == if result == Reserved then s.creators[o := Creator(s.now, Holding)] else s.creators
    ensures Sane(s') && KeysOk(s')
  {
    NewOrderHasNothing(s, o);
    LockingIsSane(s, s', o, result);
    LockingKeepsKeys(s, s', o, result);
  }

  lemma NewOrderHasNothing(s: State, o: int)
    requires Apart(s) && o !in s.req
    ensures !HasEvent(s, o) && o !in s.creators && forall t :: t in s.retries ==> s.retries[t].order != o
  {
    assert o !in s.creators by { assert o in s.creators ==> Fresh(s, o); }
    forall t | t in s.retries ensures s.retries[t].order != o { assert RetrySane(s, s.retries[t]); }
  }

  lemma SubmittedLocks(s: State, o: int, r: Request, store: Store, result: LockResult)
    requires o !in s.req && o !in s.store.locks
    requires result == Already <==> o in s.store.locks
    requires result != Reserved ==> store == s.store
    requires result == Reserved ==>
               && store.locks == s.store.locks + {o} && store.rolledBack == s.store.rolledBack - {o}
               && (forall k :: k in s.store.owners ==> k in store.owners && store.owners[k] == s.store.owners[k])
               && (forall k :: k in r.keys ==> k in store.owners && store.owners[k] == Locked(o))
    ensures var s' := Submitted(s, o, r, store, result);
            && LocksFor(s, s', o, result) && s'.retries == s.retries
            && s'.creators == if result == Reserved then s.creators[o := Creator(s.now, Holding)] else s.creators
  {
  }

  lemma RetryReserveApart(s: State, t: int, o: int)
    requires Apart(s) && DoRetryReserve(s, t, o).Some?
    ensures Sane(DoRetryReserve(s, t, o).value) && KeysOk(DoRetryReserve(s, t, o).value)
  {
    var (store, result) := LockScript(s.store, o, s.req[o]);
    LockTakesKeys(s.store, o, s.req[o]);
    RetriedLocks(s, t, o, store, result);
    RetryLocksApart(s, DoRetryReserve(s, t, o).value, t, o, result);
  }

  lemma RetryLocksApart(s: State, s': State, t: int, o: int, result: LockResult)
    requires Apart(s) && LocksFor(s, s', o, result) && s'.creators == s.creators
    requires o in s.discards && t !in s.retries && RetryPermitted(s, o)
    requires s'.retries == if result == Reserved || result == Already then s.retries[t := Retry(o, s.now, RetryHolding)] else s.retries
    ensures Sane(s') && KeysOk(s')
  {
    assert s.maxDelay > 0 && RetryAllowed(s, o);
    assert o !in s.creators;
    LockingIsSane(s, s', o, result);
    assert result == Already ==> Open(s, o);
    LockingKeepsKeys(s, s', o, result);
  }

  lemma RetriedLocks(s: State, t: int, o: int, store: Store, result: LockResult)
    requires o in s.req
    requires result == Already <==> o in s.store.locks
    requires result != Reserved ==> store == s.store
    requires result == Reserved ==>
               && store.locks == s.store.locks + {o} && store.rolledBack == s.store.rolledBack - {o}
               && (forall k :: k in s.store.owners ==> k in store.owners && store.owners[k] == s.store.owners[k])
               && (forall k :: k in s.req[o].keys ==> k in store.owners && store.owners[k] == Locked(o))
    ensures var s' := Retried(s, t, o, store, result);
            && LocksFor(s, s', o, result) && s'.creators == s.creators
            && s'.retries ==
               if result == Reserved || result == Already then s.retries[t := Retry(o, s.now, RetryHolding)] else s.retries
  {
  }

  // ----- Publishing -----

  /** A new event for a fresh order that was open already. */
  lemma PublishedApart(s: State, s': State, o: int, createdAt: int)
    requires Apart(s) && Fresh(s, o) && Open(s, o)
    requires s' == s.(events := s.events + {(o, createdAt)}, creators := s'.creators, retries := s'.retries)
    requires forall x :: x in s'.creators ==> x in s.creators && x != o && s'.creators[x] == s.creators[x]
    requires forall t :: t in s'.retries ==> t in s.retries && s'.retries[t].order == s.retries[t].order
    requires forall t :: t in s'.retries ==> s'.retries[t] == s.retries[t] || s'.retries[t].pc == RetryPublished
    requires forall t :: t in s'.retries && s'.retries[t].order == o ==> s'.retries[t].pc == RetryPublished
    ensures Sane(s') && KeysOk(s')
  {
    assert forall x :: x != o && !HasEvent(s, x) ==> !HasEvent(s', x);
    forall h | h in s'.handlers ensures HandlerSane(s', s'.handlers[h]) { assert HandlerSane(s, s.handlers[h]); }
    forall t | t in s'.retries ensures RetrySane(s', s'.retries[t]) { assert RetrySane(s, s.retries[t]); }
    forall x | x in s'.creators ensures Fresh(s', x) { assert Fresh(s, x); }
    forall p | p != o && Open(s', p) ensures Open(s, p) {
      if p !in s.orders && exists e :: e in s'.events && e.0 == p && Savable(s', e) {
        var e :| e in s'.events && e.0 == p && Savable(s', e);
        assert e in s.events && Savable(s, e);
      }
    }
    forall p | Open(s', p) ensures Owns(s', p) { assert Owns(s, p); }
  }

  lemma PublishApart(s: State, o: int, ok: bool)
    requires Apart(s) && DoPublish(s, o, ok).Some?
    ensures Sane(DoPublish(s, o, ok).value) && KeysOk(DoPublish(s, o, ok).value)
  {
    var s' := DoPublish(s, o, ok).value;
    assert Fresh(s, o);
    if ok {
      forall t | t in s.retries ensures s.retries[t].order != o { assert RetrySane(s, s.retries[t]); }
      PublishedApart(s, s', o, s.creators[o].createdAt);
    } else {
      MovingOnApart(s, s');
    }
  }

  /** Processes stop, or move on without effect on anything shared. */
  lemma MovingOnApart(s: State, s': State)
    requires Apart(s)
    requires s' == s.(creators := s'.creators, handlers := s'.handlers, retries := s'.retries, cancels := s'.cancels, pays := s'.pays)
    requires forall o :: o in s'.creators ==>
               o in s.creators && (s'.creators[o].pc == Holding ==> s.creators[o].pc == Holding)
    requires HandlersMovedOn(s, s')
    requires forall h :: h in s'.handlers ==> HandlerSane(s, s'.handlers[h])
    requires forall t :: t in s'.retries ==> t in s.retries && s'.retries[t].order == s.retries[t].order
    requires forall t :: t in s'.retries ==> s.retries[t].pc == RetryPublished ==> s'.retries[t].pc == RetryPublished
    requires forall t :: t in s'.retries && s'.retries[t].pc == RetryHolding ==> s.retries[t] == s'.retries[t]
    ensures Sane(s') && KeysOk(s')
  {
    forall h | h in s'.handlers ensures HandlerSane(s', s'.handlers[h]) { assert HandlerSane(s, s'.handlers[h]); }
    SameSane(s, s');
    OpeningNothing(s, s');
    KeysStay(s, s');
  }

  lemma RetryPublishApart(s: State, t: int, ok: bool)
    requires Apart(s) && DoRetryPublish(s, t, ok).Some?
    ensures Sane(DoRetryPublish(s, t, ok).value) && KeysOk(DoRetryPublish(s, t, ok).value)
  {
    var s' := DoRetryPublish(s, t, ok).value;
    assert RetrySane(s, s.retries[t]);
    assert forall h :: h in s.handlers ==> HandlerSane(s, s.handlers[h]);
    if ok {
      assert Open(s, s.retries[t].order);
      PublishedApart(s, s', s.retries[t].order, s.retries[t].createdAt);
    } else {
      MovingOnApart(s, s');
    }
  }

  lemma RetryMarkApart(s: State, t: int)
    requires Apart(s) && DoRetryMark(s, t).Some?
    ensures Sane(DoRetryMark(s, t).value) && KeysOk(DoRetryMark(s, t).value)
  {
    var s' := DoRetryMark(s, t).value;
    forall h | h in s'.handlers ensures HandlerSane(s', s'.handlers[h]) { assert HandlerSane(s, s.handlers[h]); }
    forall u | u in s'.retries ensures RetrySane(s', s'.retries[u]) { assert RetrySane(s, s.retries[u]); }
    forall x | x in s'.creators ensures Fresh(s', x) { assert Fresh(s, x); }
    var marked := s.(retries := s'.retries);
    OpeningNothing(s, marked);
    forall o | Open(s', o) ensures Owns(s', o) {
      assert Open(marked, o) by {
        if o !in s.orders && exists e :: e in s'.events && e.0 == o && Savable(s', e) {
          var e :| e in s'.events && e.0 == o && Savable(s', e);
          assert Savable(marked, e);
        }
      }
      assert Owns(s, o);
    }
  }

  // ----- The consumer -----

  lemma DeliverApart(s: State, h: int, o: int, createdAt: int)
    requires Apart(s) && DoDeliver(s, h, o, createdAt).Some?
    ensures Sane(DoDeliver(s, h, o, createdAt).value) && KeysOk(DoDeliver(s, h, o, createdAt).value)
  {
    var s' := DoDeliver(s, h, o, createdAt).value;
    forall g | g in s'.handlers
      ensures HandlerSane(s', s'.handlers[g])
    {
      assert g != h ==> HandlerSane(s, s.handlers[g]);
    }
    forall t | t in s'.retries ensures RetrySane(s', s'.retries[t]) { assert RetrySane(s, s.retries[t]); }
    forall x | x in s'.creators ensures Fresh(s', x) { assert Fresh(s, x); }
    forall p | Open(s', p) ensures Owns(s', p) {
      if p !in s.orders && exists e :: e in s'.events && e.0 == p && Savable(s', e) {
        var e :| e in s'.events && e.0 == p && Savable(s', e);
        assert Savable(s, e);
      }
      assert Open(s, p);
      assert Owns(s, p);
    }
  }

  lemma LookApart(s: State, h: int)
    requires Apart(s) && DoLook(s, h).Some?
    ensures Sane(DoLook(s, h).value) && KeysOk(DoLook(s, h).value)
  {
    forall g | g in s.handlers
      ensures HandlerSane(s, DoLook(s, h).value.handlers[g])
    {
      assert HandlerSane(s, s.handlers[g]);
    }
    MovingOnApart(s, DoLook(s, h).value);
  }

  /** The lock record of a discarded order is gone by the time it is recorded. */
  lemma RecordApart(s: State, h: int)
    requires Apart(s) && DoRecord(s, h).Some?
    ensures Sane(DoRecord(s, h).value) && KeysOk(DoRecord(s, h).value)
  {
    assert HandlerSane(s, s.handlers[h]);
    RecordSane(s, DoRecord(s, h).value, h);
    RecordKeys(s, DoRecord(s, h).value, h);
  }

  ghost predicate Recorded(s: State, s': State, h: int) {
    && Is(s, h, Recording)
    && s' == s.(discards := s.discards + {s.handlers[h].order}, handlers := s.handlers[h := s.handlers[h].(pc := Finished)])
  }

  lemma RecordSane(s: State, s': State, h: int)
    requires Sane(s) && Recorded(s, s', h)
    ensures Sane(s')
  {
    var o := s.handlers[h].order;
    assert HandlerSane(s, s.handlers[h]);
    assert (o, s.handlers[h].createdAt) in s.events && HasEvent(s, o);
    forall g | g in s'.handlers ensures HandlerSane(s', s'.handlers[g]) { assert HandlerSane(s, s.handlers[g]); }
    forall t | t in s'.retries ensures RetrySane(s', s'.retries[t]) { assert RetrySane(s, s.retries[t]); }
    forall x | x in s'.creators ensures Fresh(s', x) && x !in s'.discards { assert Fresh(s, x); }
  }

  lemma RecordKeys(s: State, s': State, h: int)
    requires KeysOk(s) && Recorded(s, s', h) && s.handlers[h].order !in s.store.locks
    ensures KeysOk(s')
  {
    var moved := s.(handlers := s'.handlers);
    OpeningNothing(s, moved);
    SameSavable(moved, s');
    forall p | Open(s', p) ensures Owns(s', p) {
      assert Open(moved, p);
      assert Owns(s, p);
    }
  }

  lemma SameSavable(s: State, s': State)
    requires s'.handlers == s.handlers && s'.now == s.now && s'.maxDelay == s.maxDelay
    ensures forall e :: Savable(s', e) <==> Savable(s, e)
  {
  }

  ghost predicate RowSaved(s: State, s': State, h: int) {
    && Is(s, h, Saving)
    && var o := s.handlers[h].order;
    && s' == s.(orders := s'.orders, handlers := s.handlers[h := s.handlers[h].(pc := Finished)])
    && s'.orders == if o in s.orders then s.orders else s.orders[o := NoPay]
  }

  /** A row is saved from an event that was found in time, so its order was open. */
  lemma SaveRowApart(s: State, h: int)
    requires Apart(s) && DoSaveRow(s, h).Some?
    ensures Sane(DoSaveRow(s, h).value) && KeysOk(DoSaveRow(s, h).value)
  {
    var s', o, e := DoSaveRow(s, h).value, s.handlers[h].order, (s.handlers[h].order, s.handlers[h].createdAt);
    assert HandlerSane(s, s.handlers[h]);
    if o !in s.orders {
      assert e in s.events && e.0 == o && Savable(s, e);
      assert Open(s, o);
    }
    SaveRowSane(s, s', h);
    SaveRowKeys(s, s', h);
  }

  lemma SaveRowSane(s: State, s': State, h: int)
    requires Sane(s) && RowSaved(s, s', h)
    ensures Sane(s')
  {
    var o := s.handlers[h].order;
    assert HandlerSane(s, s.handlers[h]);
    assert (o, s.handlers[h].createdAt) in s.events ==> HasEvent(s, o);
    forall g | g in s'.handlers ensures HandlerSane(s', s'.handlers[g]) { assert HandlerSane(s, s.handlers[g]); }
    forall t | t in s'.retries ensures RetrySane(s', s'.retries[t]) { assert RetrySane(s, s.retries[t]); }
    forall x | x in s'.creators ensures Fresh(s', x) { assert Fresh(s, x); }
  }

  lemma SaveRowKeys(s: State, s': State, h: int)
    requires KeysOk(s) && RowSaved(s, s', h) && (s.handlers[h].order in s.orders || Open(s, s.handlers[h].order))
    ensures KeysOk(s')
  {
    var moved := s.(handlers := s'.handlers);
    OpeningNothing(s, moved);
    SameSavable(moved, s');
    forall p | Open(s', p) ensures Owns(s', p) {
      assert p != s.handlers[h].order ==> Open(moved, p);
      assert Owns(s, p);
    }
  }

  lemma AckApart(s: State, h: int)
    requires Apart(s) && DoAck(s, h).Some?
    ensures Sane(DoAck(s, h).value) && KeysOk(DoAck(s, h).value)
  {
    var s' := DoAck(s, h).value;
    assert HandlerSane(s, s.handlers[h]);
    assert forall x :: !HasEvent(s, x) ==> !HasEvent(s', x);
    forall g | g in s'.handlers ensures HandlerSane(s', s'.handlers[g]) { assert HandlerSane(s, s.handlers[g]); }
    forall t | t in s'.retries ensures RetrySane(s', s'.retries[t]) { assert RetrySane(s, s.retries[t]); }
    forall x | x in s'.creators ensures Fresh(s', x) { assert Fresh(s, x); }
    forall p | Open(s', p) ensures Owns(s', p) {
      if p !in s.orders && exists e :: e in s'.events && e.0 == p && Savable(s', e) {
        var e :| e in s'.events && e.0 == p && Savable(s', e);
        SavableBefore(s, s', e);
      }
      assert Open(s, p);
      assert Owns(s, p);
    }
  }

  // ----- Commands on the row -----

  /** A row moves along its path; no closed row becomes live. */
  lemma RowMoveApart(s: State, s': State)
    requires Apart(s) && s' == s.(orders := s'.orders, cancels := s'.cancels, pays := s'.pays)
    requires forall o :: o in s'.orders <==> o in s.orders
    requires forall o :: LiveRow(s', o) ==> LiveRow(s, o)
    ensures Sane(s') && KeysOk(s')
  {
    forall h | h in s'.handlers ensures HandlerSane(s', s'.handlers[h]) { assert HandlerSane(s, s.handlers[h]); }
    forall t | t in s'.retries ensures RetrySane(s', s'.retries[t]) { assert RetrySane(s, s.retries[t]); }
    forall x | x in s'.creators ensures Fresh(s', x) { assert Fresh(s, x); }
    SameSavable(s, s');
    forall p | Open(s', p) ensures Owns(s', p) {
      assert Open(s, p);
      assert Owns(s, p);
    }
  }

  /** Confirming sells only keys that are free or the order's own. */
  lemma ConfirmApart(s: State, p: int)
    requires Apart(s) && DoPayConfirm(s, p).Some?
    ensures Sane(DoPayConfirm(s, p).value) && KeysOk(DoPayConfirm(s, p).value)
  {
    var s', o := DoPayConfirm(s, p).value, s.pays[p].order;
    HandlersStay(s, s');
    SameSane(s, s');
    OpeningNothing(s, s');
    assert Open(s', o) ==> Open(s, o);
    KeysOfOthersStay(s, s', o);
  }

  // ----- Time -----

  lemma PassingApart(s: State, a: Passing)
    requires Apart(s) && StepPassing(s, a).Some?
    ensures Sane(StepPassing(s, a).value) && KeysOk(StepPassing(s, a).value)
  {
    match a
    case Tick(d) => TickApart(s, d);
    case LockExpires(o) => LapseApart(s, s.(store := s.store.(locks := s.store.locks - {o})));
    case MarkersExpire(o) => LapseApart(s, DoMarkersExpire(s, o).value);
    case KeyExpires(k) => KeyExpiresApart(s, k);
  }

  lemma TickApart(s: State, d: nat)
    requires Apart(s)
    ensures Sane(s.(now := s.now + d)) && KeysOk(s.(now := s.now + d))
  {
    var s' := s.(now := s.now + d);
    HandlersStay(s, s');
    forall t | t in s'.retries ensures RetrySane(s', s'.retries[t]) { assert RetrySane(s, s.retries[t]); }
    forall x | x in s'.creators ensures Fresh(s', x) { assert Fresh(s, x); }
    OpeningNothing(s, s');
    KeysStay(s, s');
  }

  lemma LapseApart(s: State, s': State)
    requires Apart(s)
    requires s' == s.(store := s.store.(locks := s'.store.locks, rolledBack := s'.store.rolledBack, released := s'.store.released))
    requires s'.store.locks <= s.store.locks && s'.store.rolledBack <= s.store.rolledBack
    ensures Sane(s') && KeysOk(s')
  {
    HandlersStay(s, s');
    SameSane(s, s');
    OpeningNothing(s, s');
    KeysStay(s, s');
  }

  lemma KeyExpiresApart(s: State, k: Key)
    requires Apart(s) && DoKeyExpires(s, k).Some?
    ensures Sane(DoKeyExpires(s, k).value) && KeysOk(DoKeyExpires(s, k).value)
  {
    var s' := DoKeyExpires(s, k).value;
    HandlersStay(s, s');
    SameSane(s, s');
    OpeningNothing(s, s');
    KeysOfOthersStay(s, s', s.store.owners[k].order);
  }

  // ----- Every step, every run -----

  lemma SubmissionApart(s: State, a: Submission)
    requires Apart(s) && StepSubmission(s, a).Some? && SeatsInv(StepSubmission(s, a).value)
    ensures Sane(StepSubmission(s, a).value) && KeysOk(StepSubmission(s, a).value)
  {
    match a
    case Submit(o, r) => SubmitApart(s, o, r);
    case Publish(o, ok) => PublishApart(s, o, ok);
    case UndoSubmit(o) => UndoSubmitApart(s, o);
    case CreatorDies(o) => DyingApart(s, s.(creators := s.creators - {o}));
  }

  lemma DyingApart(s: State, s': State)
    requires Apart(s)
    requires s' == s.(creators := s'.creators, handlers := s'.handlers, retries := s'.retries, cancels := s'.cancels, pays := s'.pays)
    requires forall o :: o in s'.creators ==> o in s.creators && s'.creators[o] == s.creators[o]
    requires forall h :: h in s'.handlers ==> h in s.handlers && s'.handlers[h] == s.handlers[h]
    requires forall t :: t in s'.retries ==> t in s.retries && s'.retries[t] == s.retries[t]
    ensures Sane(s') && KeysOk(s')
  {
    assert forall h :: h in s.handlers ==> HandlerSane(s, s.handlers[h]);
    MovingOnApart(s, s');
  }

  lemma ConsumptionApart(s: State, a: Consumption)
    requires Apart(s) && StepConsumption(s, a).Some? && SeatsInv(StepConsumption(s, a).value)
    ensures Sane(StepConsumption(s, a).value) && KeysOk(StepConsumption(s, a).value)
  {
    match a
    case Deliver(h, o, createdAt) => DeliverApart(s, h, o, createdAt);
    case Look(h) => LookApart(s, h);
    case RollBack(h) => RollBackApart(s, h);
    case Record(h) => RecordApart(s, h);
    case SaveRow(h) => SaveRowApart(s, h);
    case Ack(h) => AckApart(s, h);
    case HandlerDies(h) => DyingApart(s, s.(handlers := s.handlers - {h}));
  }

  lemma CompensationApart(s: State, a: Compensation)
    requires Apart(s) && StepCompensation(s, a).Some? && SeatsInv(StepCompensation(s, a).value)
    ensures Sane(StepCompensation(s, a).value) && KeysOk(StepCompensation(s, a).value)
  {
    match a
    case RetryReserve(t, o) => RetryReserveApart(s, t, o);
    case RetryPublish(t, ok) => RetryPublishApart(s, t, ok);
    case RetryUndo(t) => RetryUndoApart(s, t);
    case RetryMark(t) => RetryMarkApart(s, t);
    case RetryDies(t) => DyingApart(s, s.(retries := s.retries - {t}));
  }

  lemma CancelUpdateApart(s: State, s': State, c: int)
    requires Apart(s) && CancelOutcome(s, s', c)
    ensures Sane(s') && KeysOk(s')
  {
    RowMoveApart(s, s');
  }

  lemma PayUpdateApart(s: State, s': State, p: int)
    requires Apart(s) && PayOutcome(s, s', p)
    ensures Sane(s') && KeysOk(s')
  {
    RowMoveApart(s, s');
  }

  lemma CancellationApart(s: State, a: Cancellation)
    requires Apart(s) && StepCancellation(s, a).Some? && SeatsInv(StepCancellation(s, a).value)
    ensures Sane(StepCancellation(s, a).value) && KeysOk(StepCancellation(s, a).value)
  {
    match a
    case CancelRead(c, o) => RowMoveApart(s, DoCancelRead(s, c, o).value);
    case CancelUpdate(c) =>
      CancelUpdateEffect(s, c);
      CancelUpdateApart(s, DoCancelUpdate(s, c).value, c);
    case CancelRelease(c) => ReleaseApart(s, c);
    case CancelDies(c) => RowMoveApart(s, s.(cancels := s.cancels - {c}));
  }

  lemma SettlementApart(s: State, a: Settlement)
    requires Apart(s) && StepSettlement(s, a).Some?
    ensures Sane(StepSettlement(s, a).value) && KeysOk(StepSettlement(s, a).value)
  {
    match a
    case PayRead(p, o) => RowMoveApart(s, DoPayRead(s, p, o).value);
    case PayUpdate(p) =>
      PayUpdateEffect(s, p);
      PayUpdateApart(s, DoPayUpdate(s, p).value, p);
    case PayConfirm(p) => ConfirmApart(s, p);
    case PayDies(p) => RowMoveApart(s, s.(pays := s.pays - {p}));
    case RefundRow(o) => RowMoveApart(s, s.(orders := s.orders[o := Refund]));
  }

  lemma StepApart(s: State, a: Action)
    requires Apart(s) && Step(s, a).Some?
    ensures Apart(Step(s, a).value)
  {
    SeatsInvStep(s, a);
    StepFixed(s, a);
    match a
    case Submitting(b) => SubmissionApart(s, b);
    case Consuming(b) => ConsumptionApart(s, b);
    case Compensating(b) => CompensationApart(s, b);
    case Canceling(b) => CancellationApart(s, b);
    case Settling(b) => SettlementApart(s, b);
    case Elapsing(b) => PassingApart(s, b);
  }

  lemma ReachableApart(s0: State, acts: seq<Action>, s: State)
    requires Opening(s0) && Orderly(s0) && s0.policy.keysOutlive && Reachable(s0, acts, s)
    ensures Apart(s)
  {
    OpeningApart(s0);
    forall t, a | Apart(t) && Step(t, a).Some? ensures Apart(Step(t, a).value) { StepApart(t, a); }
    InvariantOfRun(Step, Apart, s0, acts);
  }

  lemma OpeningApart(s0: State)
    requires Opening(s0) && Orderly(s0) && s0.policy.keysOutlive
    ensures Apart(s0)
  {
    assert forall o :: !Open(s0, o);
  }

  /** While keys outlive their orders, no two live orders share a seat or a ticket holder, in any run. */
  lemma SeatsAreExclusive(s0: State, acts: seq<Action>, s: State)
    requires Opening(s0) && Orderly(s0) && s0.policy.keysOutlive && Reachable(s0, acts, s)
    ensures Exclusive(s)
    ensures forall o, k :: LiveRow(s, o) && o in s.req && k in s.req[o].keys ==>
              k in s.store.owners && s.store.owners[k].order == o
  {
    ReachableApart(s0, acts, s);
    OwnersAreExclusive(s);
    forall o, k | LiveRow(s, o) && o in s.req && k in s.req[o].keys
      ensures k in s.store.owners && s.store.owners[k].order == o
    {
      assert Open(s, o);
    }
  }
}
