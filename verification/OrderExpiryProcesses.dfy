/**
 The consumer, its retry loop and the cancel worker as they are written, each running against
 other processes: between any two of their own actions the others may take any steps of the
 protocol in OrderExpiry, given by a schedule with one list of steps for each such point. Every
 execution is a run of that protocol.
 */
module OrderExpiryProcesses {
  import opened Runs
  import opened Orders
  import opened OrderExpiry

  /** The jobs that an action belongs to. */
  predicate OfJobs(a: Action, mine: set<int>) {
    a.Working? && (if a.work.Claim? then !(a.work.ws.Keys !! mine) else a.work.w in mine)
  }

  /** The action belongs to handler `h`. */
  predicate OfHandler(a: Action, h: int) {
    a.Consuming? && !a.consumption.Publish? && a.consumption.h == h
  }

  ghost predicate JobsKept(s: State, s': State, mine: set<int>) {
    forall w :: w in mine ==> (w in s.jobs <==> w in s'.jobs) && (w in s.jobs ==> s'.jobs[w] == s.jobs[w])
  }

  /** The order was paid or refunded in the meantime. */
  predicate Decided(s: State, o: int) {
    o in s.orders && (s.orders[o] == Pay || s.orders[o] == Refund)
  }

  /** What is closed, decided or settled stays so. */
  ghost predicate RowsSettle(s: State, s': State) {
    && (forall o :: Closed(s, o) ==> Closed(s', o))
    && (forall o :: Decided(s, o) ==> Decided(s', o))
    && (forall o :: Settled(s, o) ==> Settled(s', o))
  }

  lemma StepSettlesRows(s: State, a: Action)
    requires Step(s, a).Some?
    ensures RowsSettle(s, Step(s, a).value)
  {
    match a
    case Consuming(b) => ConsumptionSettlesRows(s, b);
    case Working(b) => WorkSettlesRows(s, b);
    case Moving(o, target) =>
    case Returning(o) =>
  }

  lemma ConsumptionSettlesRows(s: State, b: Consumption)
    requires StepConsumption(s, b).Some?
    ensures RowsSettle(s, StepConsumption(s, b).value)
  {
    assert StepConsumption(s, b).value.released == s.released;
    if !b.SaveRow? {
      assert StepConsumption(s, b).value.orders == s.orders;
    }
  }

  lemma WorkSettlesRows(s: State, b: Work)
    requires StepWork(s, b).Some?
    ensures RowsSettle(s, StepWork(s, b).value)
  {
    assert s.released <= StepWork(s, b).value.released;
    if !b.CancelUpdate? {
      assert StepWork(s, b).value.orders == s.orders;
    }
  }

  /** What the steps of others leave alone. */
  ghost predicate Undisturbed(s: State, s': State, h: int, mine: set<int>) {
    && s'.config == s.config
    && (h in s.handlers <==> h in s'.handlers) && (h in s.handlers ==> s'.handlers[h] == s.handlers[h])
    && JobsKept(s, s', mine) && RowsSettle(s, s')
  }

  lemma ConsumptionDoesNotDisturb(s: State, b: Consumption, h: int, mine: set<int>)
    requires StepConsumption(s, b).Some? && !OfHandler(Consuming(b), h)
    ensures Undisturbed(s, StepConsumption(s, b).value, h, mine)
  {
    var s' := StepConsumption(s, b).value;
    assert s'.jobs == s.jobs;
    ConsumptionSettlesRows(s, b);
  }

  lemma WorkDoesNotDisturb(s: State, b: Work, h: int, mine: set<int>)
    requires StepWork(s, b).Some? && !OfJobs(Working(b), mine)
    ensures Undisturbed(s, StepWork(s, b).value, h, mine)
  {
    var s' := StepWork(s, b).value;
    assert s'.handlers == s.handlers;
    WorkSettlesRows(s, b);
  }

  lemma OthersDoNotDisturb(s: State, a: Action, h: int, mine: set<int>)
    requires Step(s, a).Some? && !OfJobs(a, mine) && !OfHandler(a, h)
    ensures Undisturbed(s, Step(s, a).value, h, mine)
  {
    match a
    case Consuming(b) => ConsumptionDoesNotDisturb(s, b, h, mine);
    case Working(b) => WorkDoesNotDisturb(s, b, h, mine);
    case Moving(o, target) =>
    case Returning(o) =>
  }

  /** How one attempt of the runner goes. */
  datatype Attempt = Attempt(late: bool, failsAt: nat, acked: bool)

  class Services {
    const config: Config
    var s: State
    var schedule: seq<seq<Action>>
    ghost var acts: seq<Action>

    constructor (config: Config, schedule: seq<seq<Action>>)
      ensures this.config == config && Live() && s == Opening(config) && this.schedule == schedule
    {
      this.config, s, this.schedule := config, Opening(config), schedule;
      acts := [];
    }

    /** The state was reached by a run of the protocol. */
    ghost predicate Live()
      reads this
    {
      Reachable(config, acts, s) && s.config == config
    }

    method Do(a: Action)
      requires Live() && Step(s, a).Some?
      modifies this
      ensures Live() && Step(old(s), a) == Some(s) && RowsSettle(old(s), s) && schedule == old(schedule)
    {
      StepSettlesRows(s, a);
      StepKeepsConfig(s, a);
      ghost var more, next := ExtendRun(Step, Opening(config), acts, s, a);
      s := Step(s, a).value;
      acts := more;
    }

    /** Steps of other processes: those of the schedule's next list that are possible and not ours. */
    method Others(h: int, mine: set<int>)
      requires Live()
      modifies this
      ensures Live() && Undisturbed(old(s), s, h, mine)
      ensures schedule == if old(schedule) == [] then [] else old(schedule)[1..]
    {
      if schedule == [] { return; }
      var env := schedule[0];
      schedule := schedule[1..];
      var i := 0;
      while i < |env|
        invariant 0 <= i <= |env| && schedule == old(schedule)[1..]
        invariant Live() && Undisturbed(old(s), s, h, mine)
      {
        if !OfJobs(env[i], mine) && !OfHandler(env[i], h) && Step(s, env[i]).Some? {
          OthersDoNotDisturb(s, env[i], h, mine);
          Do(env[i]);
        }
        i := i + 1;
      }
    }

    // ----- The consumer of create events -----

    /** Handle: on success the event may be acknowledged; it can fail at its find, its write and its enqueue. */
    method Handle(h: int, late: bool, failsAt: nat) returns (ok: bool)
      requires Live() && Is(s, h, Looking)
      modifies this
      ensures Live() && h in s.handlers && s.handlers[h].event == old(s.handlers[h].event)
      ensures ok <==> Is(s, h, Kept) || Is(s, h, Discarded)
      ensures !ok ==> failsAt < 3
      ensures ok && (!late || config.maxDelay <= 0) ==> Is(s, h, Kept)
    {
      Others(h, {});
      if failsAt == 0 { return false; }
      Do(Consuming(Look(h, late && config.maxDelay > 0)));
      if Is(s, h, Kept) { return true; }
      Others(h, {});
      if failsAt == 1 { return false; }
      if Is(s, h, Discarding) {
        Do(Consuming(Discard(h)));
        return true;
      }
      ok := SaveAndEnqueue(h, failsAt == 2);
    }

    method SaveAndEnqueue(h: int, fails: bool) returns (ok: bool)
      requires Live() && (Is(s, h, Saving) || Is(s, h, Enqueuing))
      modifies this
      ensures Live() && ok == !fails && Is(s, h, if ok then Kept else Enqueuing)
      ensures s.handlers[h].event == old(s.handlers[h].event)
    {
      if Is(s, h, Saving) {
        Do(Consuming(SaveRow(h)));
        Others(h, {});
      }
      if fails { return false; }
      Do(Consuming(Enqueue(h)));
      return true;
    }

    /** The runner handles an event until that and the acknowledgement succeed, or it is told to stop. */
    method HandleCreateOrder(h: int, e: int, attempts: seq<Attempt>) returns (done: bool)
      requires Live() && e in s.events && h !in s.handlers
      requires s.config.serial ==> forall k :: k in s.handlers ==> s.handlers[k].event != e
      modifies this
      ensures Live()
      ensures done ==> e in s.past
      ensures done && config.cancelIn > 0 && !s.past[e].discarded ==>
                Closed(s, s.past[e].order) || Checked(s, s.past[e].order)
      ensures !done ==> forall i :: 0 <= i < |attempts| ==> attempts[i].failsAt < 3 || !attempts[i].acked
    {
      Do(Consuming(Deliver(h, e)));
      var i := 0;
      while i < |attempts|
        invariant 0 <= i <= |attempts|
        invariant Live() && Is(s, h, Looking) && s.handlers[h].event == e
        invariant forall j :: 0 <= j < i ==> attempts[j].failsAt < 3 || !attempts[j].acked
      {
        var ok := Handle(h, attempts[i].late, attempts[i].failsAt);
        if ok && attempts[i].acked {
          AckHandled(h, e);
          return true;
        }
        StartAgain(h);
        i := i + 1;
      }
      return false;
    }

    method AckHandled(h: int, e: int)
      requires Live() && (Is(s, h, Kept) || Is(s, h, Discarded)) && s.handlers[h].event == e
      modifies this
      ensures Live() && e in s.past
      ensures config.cancelIn > 0 && !s.past[e].discarded ==> Closed(s, s.past[e].order) || Checked(s, s.past[e].order)
    {
      Do(Consuming(AckEvent(h)));
      AckedIsChecked(e);
    }

    method StartAgain(h: int)
      requires Live() && h in s.handlers
      modifies this
      ensures Live() && Is(s, h, Looking) && s.handlers[h].event == old(s.handlers[h].event)
    {
      Others(h, {});
      Do(Consuming(Restart(h)));
    }

    lemma AckedIsChecked(e: int)
      requires Live() && e in s.past
      ensures config.cancelIn > 0 && !s.past[e].discarded ==> Closed(s, s.past[e].order) || Checked(s, s.past[e].order)
    {
      if config.cancelIn > 0 && !s.past[e].discarded {
        NoUnpaidOrderIsForgotten(config, acts, s, e);
      }
    }

    // ----- The cancel worker -----

    /** cancel: read again, update if unpaid, release. */
    method Cancel(w: int, released: bool, mine: set<int>) returns (ok: bool)
      requires Live() && At(s, w, Canceling) && w in mine
      modifies this
      ensures Live() && JobsKept(old(s), s, mine - {w}) && RowsSettle(old(s), s)
      ensures ok ==> At(s, w, Acking) && s.jobs[w].order == old(s.jobs[w].order) && Settled(s, s.jobs[w].order)
      ensures !ok ==> w !in s.jobs && (!released || Decided(s, old(s.jobs[w].order)))
    {
      Others(-1, mine);
      ReachableInv(config, acts, s);
      assert JobOk(s, s.jobs[w]);
      Do(Working(CancelRead(w)));
      if w !in s.jobs { return false; }
      if At(s, w, Updating) {
        ok := UpdateRow(w, mine);
        if !ok { return false; }
      }
      ok := ReleaseSeats(w, released, mine);
    }

    /** The compare-and-set of the row. */
    method UpdateRow(w: int, mine: set<int>) returns (ok: bool)
      requires Live() && At(s, w, Updating) && w in mine
      modifies this
      ensures Live() && JobsKept(old(s), s, mine - {w}) && RowsSettle(old(s), s)
      ensures ok ==> At(s, w, Releasing) && s.jobs[w].order == old(s.jobs[w].order)
      ensures !ok ==> w !in s.jobs && Decided(s, old(s.jobs[w].order))
    {
      Others(-1, mine);
      ReachableInv(config, acts, s);
      assert JobOk(s, s.jobs[w]);
      Do(Working(CancelUpdate(w)));
      return w in s.jobs;
    }

    method ReleaseSeats(w: int, released: bool, mine: set<int>) returns (ok: bool)
      requires Live() && At(s, w, Releasing) && w in mine
      modifies this
      ensures Live() && JobsKept(old(s), s, mine - {w}) && RowsSettle(old(s), s) && ok == released
      ensures ok ==> At(s, w, Acking) && s.jobs[w].order == old(s.jobs[w].order) && s.jobs[w].order in s.released
      ensures ok ==> Settled(s, s.jobs[w].order)
      ensures !ok ==> w !in s.jobs
    {
      Others(-1, mine);
      if released {
        ReachableInv(config, acts, s);
        assert JobOk(s, s.jobs[w]);
        Do(Working(Release(w)));
      } else {
        Do(Working(JobDies(w)));
      }
      return released;
    }

    /**
     CloseExpired: on success the order is paid or refunded, or canceled with its seats given back,
     and the message may be acknowledged. It fails only if the release does, or if the order was
     paid or refunded under its hands.
     */
    method CloseExpired(w: int, released: bool, mine: set<int>) returns (ok: bool)
      requires Live() && At(s, w, Reading) && w in mine
      modifies this
      ensures Live() && JobsKept(old(s), s, mine - {w}) && RowsSettle(old(s), s)
      ensures ok ==> At(s, w, Acking) && s.jobs[w].order == old(s.jobs[w].order) && Settled(s, s.jobs[w].order)
      ensures !ok ==> w !in s.jobs && (!released || Decided(s, old(s.jobs[w].order)))
    {
      Others(-1, mine);
      Do(Working(Read(w)));
      if At(s, w, Acking) {
        ReachableInv(config, acts, s);
        assert JobOk(s, s.jobs[w]);
        return true;
      }
      ok := Cancel(w, released, mine);
    }

    /** One message of a claim: it is acknowledged only when its order is settled. */
    method HandleMessage(w: int, released: bool, mine: set<int>) returns (ok: bool)
      requires Live() && At(s, w, Fetching) && w in mine
      modifies this
      ensures Live() && w !in s.jobs && JobsKept(old(s), s, mine - {w}) && RowsSettle(old(s), s)
      ensures ok ==> Settled(s, old(s.jobs[w].order))
      ensures !ok ==> !released || Decided(s, old(s.jobs[w].order))
    {
      Others(-1, mine);
      Do(Working(Fetch(w)));
      if At(s, w, Reading) {
        ok := CloseExpired(w, released, mine);
        if !ok { return false; }
      }
      Acknowledge(w, mine);
      return true;
    }

    method Acknowledge(w: int, mine: set<int>)
      requires Live() && At(s, w, Acking) && w in mine
      modifies this
      ensures Live() && w !in s.jobs && JobsKept(old(s), s, mine - {w}) && RowsSettle(old(s), s)
      ensures Settled(s, old(s.jobs[w].order))
    {
      ReachableInv(config, acts, s);
      assert JobOk(s, s.jobs[w]);
      Others(-1, mine);
      Do(Working(AckMessage(w)));
    }

    /**
     Poll: claim, then message after message until one fails. Every message before that one is of
     a settled order, and it fails only on a failed release or on an order that was paid or refunded.
     `ws` are the numbers of the jobs that the claimed messages become.
     */
    method Poll(now: int, deadline: int, moved: set<int>, orders: seq<int>, ws: seq<int>, released: int -> bool)
      returns (handled: nat)
      requires Live() && Claims(s, now, moved, orders, ws)
      modifies this
      ensures Live() && handled <= |orders|
      ensures AllSettled(s, orders[..handled])
      ensures handled < |orders| ==>
                ws[handled] !in s.jobs && (!released(orders[handled]) || Decided(s, orders[handled]))
    {
      ClaimAll(now, deadline, moved, orders, ws);
      handled := 0;
      while handled < |ws|
        invariant handled <= |ws| && Live()
        invariant Waiting(s, ws, orders, handled)
        invariant AllSettled(s, orders[..handled])
      {
        var mine := set i | handled <= i < |ws| :: ws[i];
        ghost var before := s;
        var ok := HandleMessage(ws[handled], released(orders[handled]), mine);
        OthersWait(before, s, ws, orders, handled);
        AllStaySettled(before, s, orders[..handled]);
        if !ok { return; }
        assert orders[..handled + 1] == orders[..handled] + [orders[handled]];
        handled := handled + 1;
      }
    }

    /** The claim of the queue; every claimed message becomes a job. */
    method ClaimAll(now: int, deadline: int, moved: set<int>, orders: seq<int>, ws: seq<int>)
      requires Live() && Claims(s, now, moved, orders, ws)
      modifies this
      ensures Live() && Waiting(s, ws, orders, 0)
    {
      JobsAreNew(s, ws, orders);
      var taken := set o | o in orders;
      Do(Working(Claim(now, deadline, moved, taken, JobsOf(ws, orders))));
    }
  }

  /** The jobs of a claim and their orders. */
  function JobsOf(ws: seq<int>, orders: seq<int>): map<int, int>
    requires |ws| == |orders|
  {
    if ws == [] then map[]
    else JobsOf(ws[..|ws| - 1], orders[..|ws| - 1])[ws[|ws| - 1] := orders[|ws| - 1]]
  }

  lemma {:induction false} JobsAreNew(s: State, ws: seq<int>, orders: seq<int>)
    requires |ws| == |orders| && (forall i, j :: 0 <= i < j < |ws| ==> ws[i] != ws[j])
    requires (forall w :: w in ws ==> w !in s.jobs)
    ensures forall w :: w in JobsOf(ws, orders) <==> w in ws
    ensures forall i :: 0 <= i < |ws| ==> JobsOf(ws, orders)[ws[i]] == orders[i]
    ensures JobsOf(ws, orders).Values <= (set o | o in orders) && JobsOf(ws, orders).Keys !! s.jobs.Keys
  {
    if ws != [] {
      var n := |ws| - 1;
      JobsAreNew(s, ws[..n], orders[..n]);
      assert ws == ws[..n] + [ws[n]] && orders == orders[..n] + [orders[n]];
      forall i | 0 <= i < n ensures JobsOf(ws, orders)[ws[i]] == orders[i] {
        assert ws[..n][i] == ws[i] && orders[..n][i] == orders[i] && ws[i] != ws[n];
      }
    }
  }

  /** A claim that the queue allows, with job numbers that nobody uses. */
  ghost predicate Claims(s: State, now: int, moved: set<int>, orders: seq<int>, ws: seq<int>) {
    && Queues.Expired(s.queue, now, moved)
    && (forall o :: o in orders ==> o in s.queue.ready || o in moved)
    && |ws| == |orders| && (forall i, j :: 0 <= i < j < |ws| ==> ws[i] != ws[j]) && (forall w :: w in ws ==> w !in s.jobs)
  }

  ghost predicate AllSettled(s: State, orders: seq<int>) {
    forall i :: 0 <= i < |orders| ==> Settled(s, orders[i])
  }

  lemma AllStaySettled(s: State, s': State, orders: seq<int>)
    requires AllSettled(s, orders) && RowsSettle(s, s')
    ensures AllSettled(s', orders)
  {
  }

  /** The jobs from position `n` on have not begun. */
  ghost predicate Waiting(s: State, ws: seq<int>, orders: seq<int>, n: nat)
    requires |ws| == |orders|
  {
    forall i :: n <= i < |ws| ==> ws[i] in s.jobs && s.jobs[ws[i]] == Job(orders[i], Fetching)
  }

  lemma OthersWait(s: State, s': State, ws: seq<int>, orders: seq<int>, n: nat)
    requires |ws| == |orders| && n < |ws| && Waiting(s, ws, orders, n)
    requires forall i, j :: 0 <= i < j < |ws| ==> ws[i] != ws[j]
    requires JobsKept(s, s', (set i | n <= i < |ws| :: ws[i]) - {ws[n]})
    ensures Waiting(s', ws, orders, n + 1)
  {
    forall i | n < i < |ws| ensures ws[i] in s'.jobs && s'.jobs[ws[i]] == Job(orders[i], Fetching) {
      assert ws[i] in (set i | n <= i < |ws| :: ws[i]) - {ws[n]};
    }
  }
}
