/**
 Markers that expire. The scripts recognise a repeated rollback or release by a marker that Redis
 keeps for a while only. Here every marker may expire at any time; the policy point `markersOutlive`
 then means that no script gives a reservation back a second time after its marker has lapsed, and
 nothing more: an order whose marker has lapsed may still be retried, saved, canceled and paid.
 A run under that policy is a run of PurchaseSaga in which the markers last.
 */
module PurchaseMarkers {
  import opened Runs
  import opened SeatStore
  import opened FiniteSets
  import opened PurchaseSaga
  import Safety = PurchaseSafety
  import Backing = PurchaseBacking
  import Hazards = PurchaseHazards
  import Ledger = PurchaseAccounts

  /** The sale, and the orders whose rollback or release marker has expired since it was set. */
  datatype Sale = Sale(s: State, rolledBack: set<int>, released: set<int>)

  // ----- The protocol with expiring markers -----

  /** The action would give back a reservation that was given back before, since the marker of that has lapsed. */
  predicate GivesBackAgain(x: Sale, a: Action) {
    match a
    case Submitting(UndoSubmit(o)) => o in x.rolledBack
    case Consuming(RollBack(h)) => h in x.s.handlers && x.s.handlers[h].order in x.rolledBack
    case Compensating(RetryUndo(t)) => t in x.s.retries && x.s.retries[t].order in x.rolledBack
    case Canceling(CancelRelease(c)) =>
      && c in x.s.cancels && x.s.cancels[c].order in x.released && x.s.cancels[c].order in x.s.req
      && ReleaseScript(x.s.store, x.s.cancels[c].order, x.s.req[x.s.cancels[c].order]).1 == Done
    case _ => false
  }

  /** A discarded order was rolled back also if the marker of that is gone. */
  predicate MayRetry(x: Sale, t: int, o: int) {
    && t !in x.s.retries && o in x.s.discards && o in x.s.req
    && (x.s.policy.carefulRetries ==> RetryAllowed(x.s, o))
    && (x.s.policy.repeatsLocked ==> o in x.s.store.locks || o in x.s.store.rolledBack || o in x.rolledBack)
  }

  function Expired(x: Sale, o: int): Sale {
    var st := x.s.store;
    Sale(x.s.(store := st.(rolledBack := st.rolledBack - {o}, released := st.released - {o})),
         if o in st.rolledBack then x.rolledBack + {o} else x.rolledBack,
         if o in st.released then x.released + {o} else x.released)
  }

  /** The lock script, when it reserves, deletes the markers of its order. */
  function Locked(x: Sale, o: int, result: LockResult, s': State): Sale {
    if result == Reserved then Sale(s', x.rolledBack - {o}, x.released - {o}) else x.(s := s')
  }

  function SaleStep(x: Sale, a: Action): Option<Sale> {
    if x.s.policy.markersOutlive && GivesBackAgain(x, a) then None
    else
      match a
      case Elapsing(MarkersExpire(o)) => Some(Expired(x, o))
      case Submitting(Submit(o, r)) =>
        (match DoSubmit(x.s, o, r)
         case None => None
         case Some(s') => Some(Locked(x, o, LockScript(x.s.store, o, r).1, s')))
      case Compensating(RetryReserve(t, o)) =>
        if MayRetry(x, t, o) then
          var (store, result) := LockScript(x.s.store, o, x.s.req[o]);
          Some(Locked(x, o, result, Retried(x.s, t, o, store, result)))
        else None
      case _ =>
        match Step(x.s, a)
        case None => None
        case Some(s') => Some(x.(s := s'))
  }

  function Begin(s0: State): Sale {
    Sale(s0, {}, {})
  }

  ghost predicate Reached(s0: State, acts: seq<Action>, x: Sale) {
    Exec(SaleStep, Begin(s0), acts) == Some(x)
  }

  // ----- The same sale with markers that last -----

  function Marked(st: Store, rolledBack: set<int>, released: set<int>): Store {
    st.(rolledBack := st.rolledBack + rolledBack, released := st.released + released)
  }

  function Lasting(s: State, rolledBack: set<int>, released: set<int>): State {
    s.(store := Marked(s.store, rolledBack, released))
  }

  /** The state with every lapsed marker put back. */
  function Full(x: Sale): State {
    Lasting(x.s, x.rolledBack, x.released)
  }

  lemma LockLasts(st: Store, o: int, r: Request, rb: set<int>, rel: set<int>)
    ensures var (st', result) := LockScript(st, o, r);
            LockScript(Marked(st, rb, rel), o, r) ==
              (if result == Reserved then Marked(st', rb - {o}, rel - {o}) else Marked(st', rb, rel), result)
  {
    var (st', result) := LockScript(st, o, r);
    var (mt, mresult) := LockScript(Marked(st, rb, rel), o, r);
    assert result == mresult;
    if result == Reserved {
      assert mt.rolledBack == st'.rolledBack + (rb - {o});
      assert mt.released == st'.released + (rel - {o});
    }
  }

  lemma RollbackLasts(st: Store, o: int, r: Request, rb: set<int>, rel: set<int>)
    requires o !in rb
    ensures RollbackScript(Marked(st, rb, rel), o, r).0 == Marked(RollbackScript(st, o, r).0, rb, rel)
    ensures RollbackScript(Marked(st, rb, rel), o, r).1 == RollbackScript(st, o, r).1
  {
    assert st.rolledBack + rb + {o} == st.rolledBack + {o} + rb;
  }

  lemma ReleaseLasts(st: Store, o: int, r: Request, rb: set<int>, rel: set<int>)
    requires o in rel ==> ReleaseScript(st, o, r).1 != Done
    ensures ReleaseScript(Marked(st, rb, rel), o, r).0 == Marked(ReleaseScript(st, o, r).0, rb, rel)
    ensures (ReleaseScript(Marked(st, rb, rel), o, r).1 == Done) == (ReleaseScript(st, o, r).1 == Done)
  {
    assert st.released + rel + {o} == st.released + {o} + rel;
  }

  /** What a script that gives seats back does to the sale, by its result. */
  function Replied(s: State, o: int, result: (Store, Reply)): State {
    SetHold(s, o, result.0, if result.1 == Done then -1 else 0)
  }

  lemma RepliedLasts(s: State, o: int, again: (Store, Reply), result: (Store, Reply), rb: set<int>, rel: set<int>)
    requires again.0 == Marked(result.0, rb, rel) && (again.1 == Done <==> result.1 == Done)
    ensures Replied(Lasting(s, rb, rel), o, again) == Lasting(Replied(s, o, result), rb, rel)
  {
  }

  lemma RollbackReplies(s: State, o: int, r: Request)
    ensures RunRollback(s, o, r) == Replied(s, o, RollbackScript(s.store, o, r))
  {
  }

  lemma ReleaseReplies(s: State, o: int, r: Request)
    ensures RunRelease(s, o, r) == Replied(s, o, ReleaseScript(s.store, o, r))
  {
  }

  lemma RunRollbackLasts(s: State, o: int, r: Request, rb: set<int>, rel: set<int>)
    requires o !in rb
    ensures RunRollback(Lasting(s, rb, rel), o, r) == Lasting(RunRollback(s, o, r), rb, rel)
  {
    RollbackReplies(s, o, r);
    RollbackReplies(Lasting(s, rb, rel), o, r);
    RollbackLasts(s.store, o, r, rb, rel);
    RepliedLasts(s, o, RollbackScript(Marked(s.store, rb, rel), o, r), RollbackScript(s.store, o, r), rb, rel);
  }

  lemma RunReleaseLasts(s: State, o: int, r: Request, rb: set<int>, rel: set<int>)
    requires o in rel ==> ReleaseScript(s.store, o, r).1 != Done
    ensures RunRelease(Lasting(s, rb, rel), o, r) == Lasting(RunRelease(s, o, r), rb, rel)
  {
    ReleaseReplies(s, o, r);
    ReleaseReplies(Lasting(s, rb, rel), o, r);
    ReleaseLasts(s.store, o, r, rb, rel);
    RepliedLasts(s, o, ReleaseScript(Marked(s.store, rb, rel), o, r), ReleaseScript(s.store, o, r), rb, rel);
  }

  // ----- A step with expiring markers is a step with lasting ones, or none -----

  lemma SubmitLasts(x: Sale, o: int, r: Request, x': Sale)
    requires SaleStep(x, Submitting(Submit(o, r))) == Some(x')
    ensures DoSubmit(Full(x), o, r) == Some(Full(x'))
  {
    var (store, result) := LockScript(x.s.store, o, r);
    LockLasts(x.s.store, o, r, x.rolledBack, x.released);
    SubmittedLasts(x.s, o, r, store, result, x.rolledBack, x.released, x'.rolledBack, x'.released);
  }

  lemma SubmittedLasts(s: State, o: int, r: Request, store: Store, result: LockResult,
                       rb: set<int>, rel: set<int>, rb': set<int>, rel': set<int>)
    ensures Submitted(Lasting(s, rb, rel), o, r, Marked(store, rb', rel'), result) ==
            Lasting(Submitted(s, o, r, store, result), rb', rel')
  {
  }

  lemma SubmissionLasts(x: Sale, b: Submission, x': Sale)
    requires x.s.policy.markersOutlive && SaleStep(x, Submitting(b)) == Some(x')
    ensures StepSubmission(Full(x), b) == Some(Full(x'))
  {
    match b
    case Submit(o, r) => SubmitLasts(x, o, r, x');
    case UndoSubmit(o) => RunRollbackLasts(x.s.(creators := x.s.creators - {o}), o, x.s.req[o], x.rolledBack, x.released);
    case Publish(o, ok) => PublishLasts(x.s, o, ok, x.rolledBack, x.released);
    case CreatorDies(o) =>
  }

  lemma PublishLasts(s: State, o: int, ok: bool, rb: set<int>, rel: set<int>)
    requires DoPublish(s, o, ok).Some?
    ensures DoPublish(Lasting(s, rb, rel), o, ok) == Some(Lasting(DoPublish(s, o, ok).value, rb, rel))
  {
  }

  lemma ConsumptionLasts(x: Sale, b: Consumption, x': Sale)
    requires x.s.policy.markersOutlive && SaleStep(x, Consuming(b)) == Some(x')
    ensures StepConsumption(Full(x), b) == Some(Full(x'))
  {
    match b
    case RollBack(h) =>
      var o := x.s.handlers[h].order;
      var moved := x.s.(handlers := x.s.handlers[h := x.s.handlers[h].(pc := Recording)]);
      RunRollbackLasts(moved, o, x.s.req[o], x.rolledBack, x.released);
    case Deliver(h, o, createdAt) => assert DoDeliver(Full(x), h, o, createdAt) == Some(Full(x'));
    case Look(h) => assert DoLook(Full(x), h) == Some(Full(x'));
    case Record(h) => assert DoRecord(Full(x), h) == Some(Full(x'));
    case SaveRow(h) => assert DoSaveRow(Full(x), h) == Some(Full(x'));
    case Ack(h) => assert DoAck(Full(x), h) == Some(Full(x'));
    case HandlerDies(h) =>
  }

  lemma RetryLasts(x: Sale, t: int, o: int, x': Sale)
    requires SaleStep(x, Compensating(RetryReserve(t, o))) == Some(x')
    ensures DoRetryReserve(Full(x), t, o) == Some(Full(x'))
  {
    var (store, result) := LockScript(x.s.store, o, x.s.req[o]);
    LockLasts(x.s.store, o, x.s.req[o], x.rolledBack, x.released);
    RetriedLasts(x.s, t, o, store, result, x.rolledBack, x.released, x'.rolledBack, x'.released);
    assert RetryAllowed(x.s, o) ==> RetryAllowed(Full(x), o);
  }

  lemma RetriedLasts(s: State, t: int, o: int, store: Store, result: LockResult,
                     rb: set<int>, rel: set<int>, rb': set<int>, rel': set<int>)
    ensures Retried(Lasting(s, rb, rel), t, o, Marked(store, rb', rel'), result) ==
            Lasting(Retried(s, t, o, store, result), rb', rel')
  {
  }

  lemma CompensationLasts(x: Sale, b: Compensation, x': Sale)
    requires x.s.policy.markersOutlive && SaleStep(x, Compensating(b)) == Some(x')
    ensures StepCompensation(Full(x), b) == Some(Full(x'))
  {
    match b
    case RetryReserve(t, o) => RetryLasts(x, t, o, x');
    case RetryUndo(t) =>
      var o := x.s.retries[t].order;
      RunRollbackLasts(x.s.(retries := x.s.retries - {t}), o, x.s.req[o], x.rolledBack, x.released);
    case RetryPublish(t, ok) => assert DoRetryPublish(Full(x), t, ok) == Some(Full(x'));
    case RetryMark(t) => assert DoRetryMark(Full(x), t) == Some(Full(x'));
    case RetryDies(t) =>
  }

  lemma CancellationLasts(x: Sale, b: Cancellation, x': Sale)
    requires x.s.policy.markersOutlive && SaleStep(x, Canceling(b)) == Some(x')
    ensures StepCancellation(Full(x), b) == Some(Full(x'))
  {
    match b
    case CancelRelease(c) =>
      var o := x.s.cancels[c].order;
      RunReleaseLasts(x.s.(cancels := x.s.cancels - {c}), o, x.s.req[o], x.rolledBack, x.released);
    case CancelRead(c, o) => assert DoCancelRead(Full(x), c, o) == Some(Full(x'));
    case CancelUpdate(c) => assert DoCancelUpdate(Full(x), c) == Some(Full(x'));
    case CancelDies(c) =>
  }

  lemma SettlementLasts(x: Sale, b: Settlement, x': Sale)
    requires SaleStep(x, Settling(b)) == Some(x')
    ensures StepSettlement(Full(x), b) == Some(Full(x'))
  {
    match b
    case PayRead(p, o) => assert DoPayRead(Full(x), p, o) == Some(Full(x'));
    case PayUpdate(p) => assert DoPayUpdate(Full(x), p) == Some(Full(x'));
    case PayConfirm(p) => assert DoPayConfirm(Full(x), p) == Some(Full(x'));
    case PayDies(p) =>
    case RefundRow(o) =>
  }

  lemma PassingLasts(x: Sale, b: Passing, x': Sale)
    requires SaleStep(x, Elapsing(b)) == Some(x') && !b.MarkersExpire?
    ensures StepPassing(Full(x), b) == Some(Full(x'))
  {
    match b
    case KeyExpires(k) => KeyLasts(x.s, k, x.rolledBack, x.released);
    case Tick(d) =>
    case LockExpires(o) =>
  }

  lemma KeyLasts(s: State, k: Key, rb: set<int>, rel: set<int>)
    requires DoKeyExpires(s, k).Some?
    ensures DoKeyExpires(Lasting(s, rb, rel), k) == Some(Lasting(DoKeyExpires(s, k).value, rb, rel))
  {
    var o := s.store.owners[k].order;
    if Open(Lasting(s, rb, rel), o) { OpenLasts(s, o, rb, rel); }
  }

  lemma OpenLasts(s: State, o: int, rb: set<int>, rel: set<int>)
    requires Open(Lasting(s, rb, rel), o)
    ensures Open(s, o)
  {
    var l := Lasting(s, rb, rel);
    if o !in s.orders && exists e :: e in l.events && e.0 == o && Savable(l, e) {
      var e :| e in l.events && e.0 == o && Savable(l, e);
      assert e in s.events && Savable(s, e);
    }
  }

  /** The expiry of a marker that is kept on record changes nothing. */
  lemma ExpiryLasts(x: Sale, o: int)
    ensures Full(Expired(x, o)) == Full(x)
  {
    var x' := Expired(x, o);
    assert Full(x').store.rolledBack == Full(x).store.rolledBack;
    assert Full(x').store.released == Full(x).store.released;
  }

  lemma StepLasts(x: Sale, a: Action, x': Sale)
    requires x.s.policy.markersOutlive && SaleStep(x, a) == Some(x')
    ensures if a.Elapsing? && a.passing.MarkersExpire? then Full(x') == Full(x) else Step(Full(x), a) == Some(Full(x'))
  {
    match a
    case Submitting(b) => SubmissionLasts(x, b, x');
    case Consuming(b) => ConsumptionLasts(x, b, x');
    case Compensating(b) => CompensationLasts(x, b, x');
    case Canceling(b) => CancellationLasts(x, b, x');
    case Settling(b) => SettlementLasts(x, b, x');
    case Elapsing(MarkersExpire(o)) => ExpiryLasts(x, o);
    case Elapsing(b) => PassingLasts(x, b, x');
  }

  /** A run under the policy is, expiries of markers aside, a run in which they last. */
  lemma {:induction false} RunLasts(x: Sale, acts: seq<Action>, x': Sale) returns (lasting: seq<Action>)
    requires x.s.policy.markersOutlive && Exec(SaleStep, x, acts) == Some(x')
    ensures Exec(Step, Full(x), lasting) == Some(Full(x'))
    decreases acts
  {
    if acts == [] {
      lasting := [];
    } else {
      var a, next := acts[0], SaleStep(x, acts[0]).value;
      StepLasts(x, a, next);
      PolicyLasts(x, a, next);
      var rest := RunLasts(next, acts[1..], x');
      if a.Elapsing? && a.passing.MarkersExpire? {
        lasting := rest;
      } else {
        lasting := [a] + rest;
        assert lasting[1..] == rest;
      }
    }
  }

  lemma PolicyLasts(x: Sale, a: Action, x': Sale)
    requires x.s.policy.markersOutlive && (Full(x') == Full(x) || Step(Full(x), a) == Some(Full(x')))
    ensures x'.s.policy.markersOutlive
  {
    if Full(x') != Full(x) {
      Safety.StepFixed(Full(x), a);
    }
    assert Full(x').policy == x'.s.policy;
  }

  // ----- Every run with lasting markers is a run with expiring ones -----

  lemma StepLifts(x: Sale, a: Action, s': State)
    requires Step(x.s, a) == Some(s') && (x.s.policy.markersOutlive ==> x.rolledBack == {} && x.released == {})
    ensures SaleStep(x, a).Some? && SaleStep(x, a).value.s == s'
    ensures s'.policy.markersOutlive ==> SaleStep(x, a).value.rolledBack == {} && SaleStep(x, a).value.released == {}
  {
    Safety.StepFixed(x.s, a);
    assert x.s.policy.markersOutlive ==> !GivesBackAgain(x, a);
  }

  lemma {:induction false} RunLifts(x: Sale, acts: seq<Action>, s': State) returns (x': Sale)
    requires Exec(Step, x.s, acts) == Some(s') && (x.s.policy.markersOutlive ==> x.rolledBack == {} && x.released == {})
    ensures Exec(SaleStep, x, acts) == Some(x') && x'.s == s'
    decreases acts
  {
    if acts == [] {
      x' := x;
    } else {
      StepLifts(x, acts[0], Step(x.s, acts[0]).value);
      x' := RunLifts(SaleStep(x, acts[0]).value, acts[1..], s');
    }
  }

  // ----- No oversell -----

  lemma SameTickets(x: Sale, category: int)
    ensures Backing.Tickets(x.s, category) == Backing.Tickets(Full(x), category)
    ensures Stock(x.s.store, category) == Stock(Full(x).store, category)
  {
    SumSame(x.s.req.Keys, (o: int) => Backing.TicketsOf(x.s, category, o), (o: int) => Backing.TicketsOf(Full(x), category, o));
  }

  lemma OpeningRunLasts(s0: State, acts: seq<Action>, x: Sale) returns (lasting: seq<Action>)
    requires s0.policy.markersOutlive && Reached(s0, acts, x)
    ensures Reachable(s0, lasting, Full(x))
  {
    lasting := RunLasts(Begin(s0), acts, x);
    assert Full(Begin(s0)) == s0 by {
      assert s0.store.rolledBack + {} == s0.store.rolledBack && s0.store.released + {} == s0.store.released;
    }
  }

  /**
   In every run of a prudently operated sale, stock never goes negative, live orders and remaining
   stock never exceed the seeded total, and every live order has its reservation.
   */
  lemma NeverOversold(s0: State, acts: seq<Action>, x: Sale)
    requires Opening(s0) && Backing.Prudent(s0) && Reached(s0, acts, x)
    ensures Backing.NoOversell(s0, x.s)
    ensures forall c :: Stock(x.s.store, c) >= 0
    ensures forall o :: LiveRow(x.s, o) ==> o in x.s.holds && x.s.holds[o] >= 1
  {
    var lasting := OpeningRunLasts(s0, acts, x);
    Backing.NeverOversold(s0, lasting, Full(x));
    forall c ensures Backing.Tickets(x.s, c) + Stock(x.s.store, c) <= Stock(s0.store, c) && Stock(x.s.store, c) >= 0 {
      SameTickets(x, c);
      assert Stock(Full(x).store, c) >= 0;
    }
    forall o | LiveRow(x.s, o) ensures o in x.s.holds && x.s.holds[o] >= 1 {
      assert o in Full(x).orders;
    }
  }

  /**
   A sale that has something to sell is never oversold, in any run, if and only if its operators keep
   to the policy.
   */
  lemma NeverOversoldIffPrudent(s0: State, category: int)
    requires Opening(s0) && Stock(s0.store, category) >= 1
    ensures (forall acts, x :: Reached(s0, acts, x) ==> Backing.NoOversell(s0, x.s)) <==> Backing.Prudent(s0)
  {
    if Backing.Prudent(s0) {
      forall acts, x | Reached(s0, acts, x) ensures Backing.NoOversell(s0, x.s) { NeverOversold(s0, acts, x); }
    } else {
      Hazards.NeverOversoldIffPrudent(s0, category);
      var acts, s :| Reachable(s0, acts, s) && !Backing.NoOversell(s0, s);
      var x := RunLifts(Begin(s0), acts, s);
      assert Reached(s0, acts, x);
    }
  }

  // ----- The accounts -----

  lemma SameHeld(x: Sale, category: int)
    ensures Ledger.HeldOnce(x.s, category) == Ledger.HeldOnce(Full(x), category)
    ensures Stock(x.s.store, category) == Stock(Full(x).store, category)
  {
    SumSame(x.s.req.Keys, (o: int) => Ledger.TicketsHeld(x.s, category, o), (o: int) => Ledger.TicketsHeld(Full(x), category, o));
  }

  /** Stock and the tickets of the orders that still hold some, each counted once, are what was seeded. */
  lemma StockAddsUp(s0: State, acts: seq<Action>, x: Sale)
    requires Opening(s0) && Ledger.Tidy(s0) && Reached(s0, acts, x)
    ensures Ledger.AddsUp(s0, x.s) && forall c :: Stock(x.s.store, c) >= 0
    ensures forall o :: o in x.s.req ==> o in x.s.holds && 0 <= x.s.holds[o] <= 1
    ensures forall o :: o in x.s.store.rolledBack + x.s.store.released + x.rolledBack + x.released ==>
              !Ledger.StillHolds(x.s, o)
  {
    var lasting := OpeningRunLasts(s0, acts, x);
    Ledger.StockAddsUp(s0, lasting, Full(x));
    forall c ensures Stock(x.s.store, c) + Ledger.HeldOnce(x.s, c) == Stock(s0.store, c) && Stock(x.s.store, c) >= 0 {
      SameHeld(x, c);
      assert Stock(Full(x).store, c) >= 0;
    }
    forall o | o in x.s.store.rolledBack + x.s.store.released + x.rolledBack + x.released
      ensures !Ledger.StillHolds(x.s, o)
    {
      assert o in Full(x).store.rolledBack + Full(x).store.released;
      assert !Ledger.StillHolds(Full(x), o);
    }
    forall o | o in x.s.req ensures o in x.s.holds && 0 <= x.s.holds[o] <= 1 { assert o in Full(x).req; }
  }

  /** The accounts add up in every run exactly under these conditions. */
  lemma AddsUpIffTidy(s0: State, category: int)
    requires Opening(s0) && Stock(s0.store, category) >= 2
    ensures (forall acts, x :: Reached(s0, acts, x) ==> Ledger.AddsUp(s0, x.s)) <==> Ledger.Tidy(s0)
  {
    if Ledger.Tidy(s0) {
      forall acts, x | Reached(s0, acts, x) ensures Ledger.AddsUp(s0, x.s) { StockAddsUp(s0, acts, x); }
    } else {
      Ledger.AddsUpIffTidy(s0, category);
      var acts, s :| Reachable(s0, acts, s) && !Ledger.AddsUp(s0, s);
      var x := RunLifts(Begin(s0), acts, s);
      assert Reached(s0, acts, x);
    }
  }
}
