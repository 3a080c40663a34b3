/**
 The payment of one order: any number of overlapping gateway callbacks and payment starts, the
 order commands they call, cancellations and manual refunds. The payment and order locks are not
 part of the model, so everything below also holds when they lapse. Every action is one row
 statement, one read or one remote call; a call may stop for good between any two of its actions.
 */
module PaymentSaga {
  import opened Runs
  import opened Orders
  import opened Decimals

  datatype PaymentStatus = Created | Paid | Closed | Refunded

  datatype Payment = Payment(amount: int, status: PaymentStatus)

  /** A refund the gateway was asked for. */
  datatype GatewayRefund = GatewayRefund(requestId: string, amount: int, manual: bool)

  datatype Pc =
    | FindPayment
    | AskOrder
    | PayRow
    | Confirm
    | SavePayment(status: PaymentStatus)
    | AskRefund
    | SaveRefunded
    | MarkRead
    | MarkRow

  datatype Call = Call(paid: bool, amount: int, pc: Pc)

  /** `starts` are payment starts past their checks; `settled` records that a paid callback succeeded. */
  datatype State = State(
    number: nat,
    row: Option<Status>,
    amount: int,
    payment: Option<Payment>,
    refunds: seq<GatewayRefund>,
    calls: map<int, Call>,
    starts: set<int>,
    settled: bool)

  datatype Action =
    | CreateRow
    | CancelRow
    | PayRowDirectly
    | StartPayment(id: int, amount: int)
    | SaveStarted(id: int)
    | ManualRefund(amount: int)
    | Callback(id: int, paid: bool, amount: int)
    | Advance(id: int)
    | Fails(id: int)

  function RefundRequestId(number: nat): string {
    "late-payment-" + Decimal(number)
  }

  /** The status column of the upsert: a refund is final, a payment only gives way to a refund. */
  function StickyStatus(current: PaymentStatus, update: PaymentStatus): PaymentStatus {
    if current == Refunded then current
    else if current == Paid && (update == Created || update == Closed) then current
    else update
  }

  function SavedPayment(row: Option<Payment>, update: Payment): Option<Payment> {
    match row
    case None => Some(update)
    case Some(p) => Some(Payment(update.amount, StickyStatus(p.status, update.status)))
  }

  function Save(s: State, amount: int, status: PaymentStatus): State {
    s.(payment := SavedPayment(s.payment, Payment(amount, status)))
  }

  predicate RowAccepts(s: State, target: Status) {
    s.row.Some? && (s.row.value == target || AllowedPrevious(target) == Some(s.row.value))
  }

  function Goto(s: State, id: int, c: Call, pc: Pc): State {
    s.(calls := s.calls[id := c.(pc := pc)])
  }

  /** The call returns: successfully, or with an error. */
  function Return(s: State, id: int, c: Call, ok: bool): State {
    s.(calls := s.calls - {id}, settled := s.settled || (ok && c.paid))
  }

  /** One action of a callback that meets no failure. */
  function AdvanceCall(s: State, id: int, c: Call): State {
    match c.pc
    case FindPayment =>
      if s.payment.Some? && s.payment.value.status == Refunded then
        if c.paid then Goto(s, id, c, MarkRead) else Return(s, id, c, true)
      else if s.payment.Some? && s.payment.value.status == Paid && !c.paid then Return(s, id, c, true)
      else Goto(s, id, c, AskOrder)
    case AskOrder =>
      if s.row.None? || c.amount != s.amount then Return(s, id, c, false)
      else if !c.paid then Goto(s, id, c, SavePayment(Closed))
      else
        (match s.row.value
         case Cancel => Goto(s, id, c, AskRefund)
         case Refund => Goto(s, id, c, SavePayment(Paid))
         case NoPay => Goto(s, id, c, PayRow)
         case Pay => Goto(s, id, c, Confirm))
    case PayRow =>
      if RowAccepts(s, Pay) then Goto(s.(row := Some(Pay)), id, c, Confirm) else Return(s, id, c, false)
    case Confirm => Goto(s, id, c, SavePayment(Paid))
    case SavePayment(status) => Return(Save(s, c.amount, status), id, c, true)
    case AskRefund =>
      var amount := if s.amount <= 0 then c.amount else s.amount;
      Goto(s.(refunds := s.refunds + [GatewayRefund(RefundRequestId(s.number), amount, false)]), id, c, SaveRefunded)
    case SaveRefunded =>
      var amount := if s.amount <= 0 then c.amount else s.amount;
      Goto(Save(s, amount, Refunded), id, c, MarkRead)
    case MarkRead =>
      if s.row == Some(Refund) then Return(s, id, c, true)
      else if s.row == Some(Cancel) then Goto(s, id, c, MarkRow)
      else Return(s, id, c, false)
    case MarkRow =>
      if RowAccepts(s, Refund) then Return(s.(row := Some(Refund)), id, c, true) else Return(s, id, c, false)
  }

  function Step(s: State, a: Action): Option<State> {
    match a
    case CreateRow => if s.row.None? then Some(s.(row := Some(NoPay))) else None
    case CancelRow => if RowAccepts(s, Cancel) then Some(s.(row := Some(Cancel))) else None
    case PayRowDirectly => if RowAccepts(s, Pay) then Some(s.(row := Some(Pay))) else None
    case StartPayment(id, amount) =>
      if s.row == Some(NoPay) && amount == s.amount then Some(s.(starts := s.starts + {id})) else None
    case SaveStarted(id) =>
      if id in s.starts then Some(Save(s, s.amount, Created).(starts := s.starts - {id})) else None
    case ManualRefund(amount) =>
      Some(Save(s, amount, Refunded).(refunds := s.refunds + [GatewayRefund(RefundRequestId(s.number), amount, true)]))
    case Callback(id, paid, amount) =>
      if id in s.calls then None else Some(s.(calls := s.calls[id := Call(paid, amount, FindPayment)]))
    case Advance(id) => if id in s.calls then Some(AdvanceCall(s, id, s.calls[id])) else None
    case Fails(id) => if id in s.calls then Some(s.(calls := s.calls - {id})) else None
  }

  ghost predicate Initial(s: State) {
    s.row.None? && s.payment.None? && s.refunds == [] && s.calls == map[] && s.starts == {} && !s.settled
  }

  ghost predicate Reachable(s0: State, acts: seq<Action>, s: State) {
    Exec(Step, s0, acts) == Some(s)
  }

  // ----- The invariant -----

  predicate PaymentIs(s: State, status: PaymentStatus) {
    s.payment.Some? && s.payment.value.status == status
  }

  /** Refunded rows have refunded payments, and paid payments have paid rows. */
  predicate Agree(s: State) {
    && (s.row == Some(Refund) ==> PaymentIs(s, Refunded))
    && (PaymentIs(s, Paid) ==> s.row == Some(Pay))
  }

  /** Money and order are in their final state. */
  predicate Final(s: State) {
    || (s.row == Some(Pay) && (PaymentIs(s, Paid) || PaymentIs(s, Refunded)))
    || (s.row == Some(Refund) && PaymentIs(s, Refunded))
  }

  predicate CallOk(s: State, c: Call) {
    match c.pc
    case FindPayment => true
    case AskOrder => true
    case PayRow => c.paid
    case Confirm => c.paid && s.row == Some(Pay)
    case SavePayment(status) =>
      if status == Paid then s.row == Some(Pay) || s.row == Some(Refund) else status == Closed && !c.paid
    case AskRefund => c.paid && c.amount == s.amount && (s.row == Some(Cancel) || s.row == Some(Refund))
    case SaveRefunded => c.paid && c.amount == s.amount && (s.row == Some(Cancel) || s.row == Some(Refund))
    case MarkRead => c.paid && PaymentIs(s, Refunded)
    case MarkRow => c.paid && PaymentIs(s, Refunded)
  }

  predicate RefundsOk(s: State) {
    forall i :: 0 <= i < |s.refunds| ==>
      s.refunds[i].requestId == RefundRequestId(s.number) && (!s.refunds[i].manual ==> s.refunds[i].amount == s.amount)
  }

  predicate Inv(s: State) {
    && Agree(s)
    && (s.settled ==> Final(s))
    && RefundsOk(s)
    && (forall id :: id in s.calls ==> CallOk(s, s.calls[id]))
  }

  /** Rows and payments never leave the states that the waiting calls rely on. */
  ghost predicate Progress(s: State, s': State) {
    && s'.amount == s.amount && s'.number == s.number
    && (s.row == Some(Pay) ==> s'.row == s.row)
    && (s.row == Some(Cancel) || s.row == Some(Refund) ==> s'.row == Some(Cancel) || s'.row == Some(Refund))
    && (s.row == Some(Refund) ==> s'.row == s.row)
    && (PaymentIs(s, Refunded) ==> PaymentIs(s', Refunded))
  }

  lemma CallSurvives(s: State, s': State, c: Call)
    requires CallOk(s, c) && Progress(s, s')
    ensures CallOk(s', c)
  {
  }

  /** What one action of a callback does: rows, payments and refunds stay in line, and the call moves on or ends. */
  ghost predicate Advanced(s: State, s': State, id: int) {
    && Progress(s, s') && Agree(s') && (s'.settled ==> Final(s')) && RefundsOk(s')
    && (s'.calls == s.calls - {id} || (id in s'.calls && s'.calls == s.calls[id := s'.calls[id]] && CallOk(s', s'.calls[id])))
  }

  /** The rows of a state with its calls in progress left aside. */
  ghost predicate RowsOk(s: State) {
    Agree(s) && (s.settled ==> Final(s)) && RefundsOk(s)
  }

  lemma LookingEffect(s: State, id: int, c: Call)
    requires RowsOk(s) && CallOk(s, c) && (c.pc == FindPayment || c.pc == AskOrder)
    ensures Advanced(s, AdvanceCall(s, id, c), id)
  {
  }

  lemma PayingEffect(s: State, id: int, c: Call)
    requires RowsOk(s) && CallOk(s, c) && (c.pc == PayRow || c.pc == Confirm)
    ensures Advanced(s, AdvanceCall(s, id, c), id)
  {
  }

  lemma SavingEffect(s: State, id: int, c: Call)
    requires RowsOk(s) && CallOk(s, c) && c.pc.SavePayment?
    ensures Advanced(s, AdvanceCall(s, id, c), id)
  {
  }

  lemma RefundingEffect(s: State, id: int, c: Call)
    requires RowsOk(s) && CallOk(s, c) && (c.pc == AskRefund || c.pc == SaveRefunded)
    ensures Advanced(s, AdvanceCall(s, id, c), id)
  {
  }

  lemma MarkingEffect(s: State, id: int, c: Call)
    requires RowsOk(s) && CallOk(s, c) && (c.pc == MarkRead || c.pc == MarkRow)
    ensures Advanced(s, AdvanceCall(s, id, c), id)
  {
  }

  /** The own effect of one action of a callback. */
  lemma AdvanceEffect(s: State, id: int, c: Call)
    requires RowsOk(s) && CallOk(s, c)
    ensures Advanced(s, AdvanceCall(s, id, c), id)
  {
    match c.pc
    case FindPayment => LookingEffect(s, id, c);
    case AskOrder => LookingEffect(s, id, c);
    case PayRow => PayingEffect(s, id, c);
    case Confirm => PayingEffect(s, id, c);
    case SavePayment(_) => SavingEffect(s, id, c);
    case AskRefund => RefundingEffect(s, id, c);
    case SaveRefunded => RefundingEffect(s, id, c);
    case MarkRead => MarkingEffect(s, id, c);
    case MarkRow => MarkingEffect(s, id, c);
  }

  lemma AdvanceKeepsInv(s: State, id: int)
    requires Inv(s) && id in s.calls
    ensures Inv(AdvanceCall(s, id, s.calls[id]))
  {
    var s' := AdvanceCall(s, id, s.calls[id]);
    AdvanceEffect(s, id, s.calls[id]);
    forall k | k in s'.calls ensures CallOk(s', s'.calls[k]) {
      if k != id { CallSurvives(s, s', s.calls[k]); }
    }
  }

  lemma StepKeepsInv(s: State, a: Action)
    requires Inv(s) && Step(s, a).Some?
    ensures Inv(Step(s, a).value)
  {
    if a.Advance? {
      AdvanceKeepsInv(s, a.id);
    } else {
      var s' := Step(s, a).value;
      forall k | k in s'.calls ensures CallOk(s', s'.calls[k]) {
        if k in s.calls { CallSurvives(s, s', s.calls[k]); }
      }
    }
  }

  lemma ReachableInv(s0: State, acts: seq<Action>, s: State)
    requires Initial(s0) && Reachable(s0, acts, s)
    ensures Inv(s)
  {
    forall t, a | Inv(t) && Step(t, a).Some? ensures Inv(Step(t, a).value) { StepKeepsInv(t, a); }
    InvariantOfRun(Step, Inv, s0, acts);
  }

  /** In every interleaving payment and order agree, and every automatic refund is the same request. */
  lemma PaymentAndOrderAgree(s0: State, acts: seq<Action>, s: State)
    requires Initial(s0) && Reachable(s0, acts, s)
    ensures s.row == Some(Refund) ==> PaymentIs(s, Refunded)
    ensures PaymentIs(s, Paid) ==> s.row == Some(Pay)
    ensures forall i :: 0 <= i < |s.refunds| && !s.refunds[i].manual ==>
              s.refunds[i] == GatewayRefund(RefundRequestId(s.number), s.amount, false)
  {
    ReachableInv(s0, acts, s);
  }

  /** Once any paid callback has reported success, payment and order are final and stay final. */
  lemma SuccessIsFinal(s0: State, acts: seq<Action>, s: State, more: seq<Action>, s': State)
    requires Initial(s0) && Reachable(s0, acts, s) && Reachable(s, more, s')
    requires s.settled
    ensures Final(s) && Final(s') && s'.row == s.row
  {
    ReachableInv(s0, acts, s);
    var inv := (t: State) => Inv(t) && t.settled && t.row == s.row;
    forall t, a | inv(t) && Step(t, a).Some? ensures inv(Step(t, a).value) { StepKeepsInv(t, a); }
    InvariantOfRun(Step, inv, s, more);
  }

  // ----- A payment that arrives after the cancellation -----

  function Repeat(a: Action, n: nat): seq<Action> {
    seq(n, i => a)
  }

  /** `n` undisturbed actions of one call. */
  function Alone(s: State, id: int, n: nat): Option<State> {
    Exec(Step, s, Repeat(Advance(id), n))
  }

  lemma AloneStep(s: State, id: int, n: nat)
    requires n > 0 && id in s.calls
    ensures Alone(s, id, n) == Alone(AdvanceCall(s, id, s.calls[id]), id, n - 1)
  {
    assert Repeat(Advance(id), n)[1..] == Repeat(Advance(id), n - 1);
  }

  /** From the point where the refund is recorded, the callback closes the order. */
  lemma MarkingConverges(s: State, id: int) returns (n: nat, s': State)
    requires Inv(s) && id in s.calls && s.calls[id].pc == MarkRead
    requires s.row == Some(Cancel) || s.row == Some(Refund)
    ensures n <= 2 && Alone(s, id, n) == Some(s') && id !in s'.calls && s'.settled
    ensures s'.row == Some(Refund) && PaymentIs(s', Refunded) && s'.refunds == s.refunds
  {
    assert CallOk(s, s.calls[id]);
    if s.row == Some(Refund) {
      n := 1;
      AloneStep(s, id, 1);
      s' := AdvanceCall(s, id, s.calls[id]);
    } else {
      n := 2;
      AloneStep(s, id, 2);
      var t := AdvanceCall(s, id, s.calls[id]);
      AloneStep(t, id, 1);
      s' := AdvanceCall(t, id, t.calls[id]);
    }
    assert Alone(s', id, 0) == Some(s');
  }

  /**
   Whatever crash the callback of a canceled order left behind, running the paid callback once
   more to its end refunds the payment and the order, asking the gateway at most once more and
   only for the same request and the order's amount.
   */
  lemma LatePaymentConverges(s0: State, acts: seq<Action>, s: State, id: int) returns (n: nat, s': State)
    requires Initial(s0) && Reachable(s0, acts, s) && id !in s.calls
    requires s.row == Some(Cancel) || s.row == Some(Refund)
    ensures Exec(Step, s, [Callback(id, true, s.amount)] + Repeat(Advance(id), n)) == Some(s')
    ensures id !in s'.calls && s'.settled && s'.row == Some(Refund) && PaymentIs(s', Refunded)
    ensures s'.refunds == s.refunds || s'.refunds == s.refunds + [GatewayRefund(RefundRequestId(s.number), s.amount, false)]
  {
    ReachableInv(s0, acts, s);
    var begin := Callback(id, true, s.amount);
    var t := Step(s, begin).value;
    StepKeepsInv(s, begin);
    AdvanceKeepsInv(t, id);
    var u := AdvanceCall(t, id, t.calls[id]);
    if PaymentIs(s, Refunded) {
      n, s' := MarkingConverges(u, id);
      AloneStep(t, id, n + 1);
      n := n + 1;
    } else {
      var m;
      m, s' := RefundingConverges(u, id);
      AloneStep(t, id, m + 1);
      n := m + 1;
    }
    assert ([begin] + Repeat(Advance(id), n))[1..] == Repeat(Advance(id), n);
  }

  lemma RefundingConverges(s: State, id: int) returns (n: nat, s': State)
    requires Inv(s) && id in s.calls && s.calls[id] == Call(true, s.amount, AskOrder) && s.row == Some(Cancel)
    ensures Alone(s, id, n) == Some(s') && id !in s'.calls && s'.settled
    ensures s'.row == Some(Refund) && PaymentIs(s', Refunded)
    ensures s'.refunds == s.refunds + [GatewayRefund(RefundRequestId(s.number), s.amount, false)]
  {
    AdvanceKeepsInv(s, id);
    var t := AdvanceCall(s, id, s.calls[id]);
    AdvanceKeepsInv(t, id);
    var u := AdvanceCall(t, id, t.calls[id]);
    AdvanceKeepsInv(u, id);
    var v := AdvanceCall(u, id, u.calls[id]);
    n, s' := MarkingConverges(v, id);
    AloneStep(u, id, n + 1);
    AloneStep(t, id, n + 2);
    AloneStep(s, id, n + 3);
    n := n + 3;
  }

  // ----- A payment in time, and callbacks that change nothing -----

  /** From the point where the order is paid, the callback confirms the seats and records the payment. */
  lemma PaidRowSettles(s: State, id: int) returns (n: nat, s': State)
    requires id in s.calls && s.calls[id] == Call(true, s.amount, Confirm) && s.row == Some(Pay)
    requires !PaymentIs(s, Refunded)
    ensures Alone(s, id, n) == Some(s') && id !in s'.calls && s'.settled
    ensures s'.row == Some(Pay) && s'.payment == Some(Payment(s.amount, Paid)) && s'.refunds == s.refunds
  {
    n := 2;
    AloneStep(s, id, 2);
    var t := AdvanceCall(s, id, s.calls[id]);
    AloneStep(t, id, 1);
    s' := AdvanceCall(t, id, t.calls[id]);
    assert Alone(s', id, 0) == Some(s');
  }

  lemma PayableSettles(s: State, id: int) returns (n: nat, s': State)
    requires id in s.calls && s.calls[id] == Call(true, s.amount, AskOrder) && !PaymentIs(s, Refunded)
    requires s.row == Some(NoPay) || s.row == Some(Pay)
    ensures Alone(s, id, n) == Some(s') && id !in s'.calls && s'.settled
    ensures s'.row == Some(Pay) && s'.payment == Some(Payment(s.amount, Paid)) && s'.refunds == s.refunds
  {
    var t := AdvanceCall(s, id, s.calls[id]);
    if s.row == Some(Pay) {
      n, s' := PaidRowSettles(t, id);
      AloneStep(s, id, n + 1);
      n := n + 1;
    } else {
      var u := AdvanceCall(t, id, t.calls[id]);
      n, s' := PaidRowSettles(u, id);
      AloneStep(t, id, n + 1);
      AloneStep(s, id, n + 2);
      n := n + 2;
    }
  }

  /**
   Whatever crash an earlier callback of an unpaid or paid order left behind, running the paid
   callback once more to its end pays the order and records the payment at its amount, without
   any refund.
   */
  lemma PromptPaymentSettles(s0: State, acts: seq<Action>, s: State, id: int) returns (n: nat, s': State)
    requires Initial(s0) && Reachable(s0, acts, s) && id !in s.calls
    requires (s.row == Some(NoPay) || s.row == Some(Pay)) && !PaymentIs(s, Refunded)
    ensures Exec(Step, s, [Callback(id, true, s.amount)] + Repeat(Advance(id), n)) == Some(s')
    ensures id !in s'.calls && s'.settled && s'.row == Some(Pay)
    ensures s'.payment == Some(Payment(s.amount, Paid)) && s'.refunds == s.refunds
  {
    var begin := Callback(id, true, s.amount);
    var t := Step(s, begin).value;
    var u := AdvanceCall(t, id, t.calls[id]);
    n, s' := PayableSettles(u, id);
    AloneStep(t, id, n + 1);
    n := n + 1;
    assert ([begin] + Repeat(Advance(id), n))[1..] == Repeat(Advance(id), n);
  }

  /** A callback that reports no payment closes what is not paid or refunded, and touches nothing else. */
  lemma UnpaidCallbackCloses(s: State, id: int) returns (n: nat, s': State)
    requires id !in s.calls && s.row.Some?
    ensures Exec(Step, s, [Callback(id, false, s.amount)] + Repeat(Advance(id), n)) == Some(s')
    ensures s'.row == s.row && s'.refunds == s.refunds && s'.calls == s.calls && s'.settled == s.settled
    ensures s'.payment == if PaymentIs(s, Paid) || PaymentIs(s, Refunded) then s.payment else Some(Payment(s.amount, Closed))
  {
    var begin := Callback(id, false, s.amount);
    var t := Step(s, begin).value;
    var u := AdvanceCall(t, id, t.calls[id]);
    if PaymentIs(s, Paid) || PaymentIs(s, Refunded) {
      n, s' := 1, u;
      AloneStep(t, id, 1);
    } else {
      var v := AdvanceCall(u, id, u.calls[id]);
      n, s' := 3, AdvanceCall(v, id, v.calls[id]);
      AloneStep(t, id, 3);
      AloneStep(u, id, 2);
      AloneStep(v, id, 1);
    }
    assert s'.calls == s.calls;
    assert Alone(s', id, 0) == Some(s');
    assert ([begin] + Repeat(Advance(id), n))[1..] == Repeat(Advance(id), n);
  }

  /** A callback with another amount changes nothing, unless the payment is settled already. */
  lemma WrongAmountChangesNothing(s: State, id: int, paid: bool, amount: int) returns (n: nat, s': State)
    requires id !in s.calls && amount != s.amount && !PaymentIs(s, Refunded)
    ensures Exec(Step, s, [Callback(id, paid, amount)] + Repeat(Advance(id), n)) == Some(s') && s' == s
  {
    var begin := Callback(id, paid, amount);
    var t := Step(s, begin).value;
    var u := AdvanceCall(t, id, t.calls[id]);
    if PaymentIs(s, Paid) && !paid {
      n, s' := 1, u;
      AloneStep(t, id, 1);
    } else {
      n, s' := 2, AdvanceCall(u, id, u.calls[id]);
      AloneStep(t, id, 2);
      AloneStep(u, id, 1);
    }
    assert s'.calls == s.calls;
    assert Alone(s', id, 0) == Some(s');
    assert ([begin] + Repeat(Advance(id), n))[1..] == Repeat(Advance(id), n);
  }

  /** A manual refund asks the gateway for the amount and records it, whatever the payment was. */
  lemma ManualRefundIsRecorded(s: State, amount: int)
    ensures var s' := Step(s, ManualRefund(amount)).value;
            && s'.payment == Some(Payment(amount, Refunded)) && s'.row == s.row
            && |s'.refunds| == |s.refunds| + 1 && s'.refunds[|s.refunds|].amount == amount && s'.refunds[|s.refunds|].manual
  {
  }

  // ----- The callback as it is written, against the rows of one order -----

  datatype Reply = Accepted | Failed

  class PayUsecase {
    const number: nat
    const amount: int
    var row: Option<Status>
    var payment: Option<Payment>
    var refunds: seq<GatewayRefund>
    ghost var settled: bool  // a paid callback has succeeded

    predicate Valid()
      reads this
    {
      && (row == Some(Refund) ==> payment.Some? && payment.value.status == Refunded)
      && (payment.Some? && payment.value.status == Paid ==> row == Some(Pay))
    }

    constructor (number: nat, amount: int)
      ensures Valid() && this.number == number && this.amount == amount
      ensures row == None && payment == None && refunds == [] && !settled
    {
      this.number, this.amount := number, amount;
      row, payment, refunds, settled := None, None, [], false;
    }

    /** A refund is final, a payment only gives way to a refund, anything else is overwritten. */
    method SavePayment(amount: int, status: PaymentStatus)
      modifies `payment
      ensures payment == SavedPayment(old(payment), Payment(amount, status))
      ensures payment.Some? && payment.value.amount == amount
      ensures old(payment).Some? && old(payment.value.status) == Refunded ==> payment.value.status == Refunded
      ensures old(payment).Some? && old(payment.value.status) == Paid && status != Refunded ==>
                payment.value.status == Paid
      ensures old(payment).None? || old(payment.value.status) in {Created, Closed} || status == Refunded ==>
                payment.value.status == status
    {
      if payment.None? {
        payment := Some(Payment(amount, status));
      } else {
        var kept := payment.value.status == Refunded
                    || (payment.value.status == Paid && (status == Created || status == Closed));
        payment := Some(Payment(amount, if kept then payment.value.status else status));
      }
    }

    method MarkRefunded() returns (r: Reply)
      modifies `row
      ensures r == Accepted <==> old(row) == Some(Cancel) || old(row) == Some(Refund)
      ensures row == if r == Accepted then Some(Refund) else old(row)
    {
      if row == Some(Refund) { return Accepted; }
      if row != Some(Cancel) { return Failed; }
      row := Some(Refund);
      return Accepted;
    }

    /** The order side of a callback: its outcome, and whether the money must go back. */
    method HandlePaymentCallback(callAmount: int, paid: bool, confirmed: bool) returns (r: Reply, refundRequired: bool)
      modifies `row
      ensures r == Accepted && paid ==> (refundRequired <==> old(row) == Some(Cancel))
      ensures r == Accepted && paid && !refundRequired ==> row == Some(Pay) || (row == old(row) == Some(Refund))
      ensures r == Accepted ==> callAmount == amount && row.Some?
      ensures !paid ==> !refundRequired
      ensures row == if paid && callAmount == amount && old(row) == Some(NoPay) then Some(Pay) else old(row)
      ensures r == Accepted <==> old(row).Some? && callAmount == amount &&
                                 (!paid || confirmed || old(row) == Some(Cancel) || old(row) == Some(Refund))
    {
      if row.None? || callAmount != amount { return Failed, false; }
      if !paid { return Accepted, false; }
      match row.value
      case Cancel => return Accepted, true;
      case Refund => return Accepted, false;
      case _ =>
        row := Some(Pay);
        if !confirmed { return Failed, false; }
        return Accepted, false;
    }

    predicate Has(status: PaymentStatus)
      reads this
    {
      payment.Some? && payment.value.status == status
    }

    /** The payment does not answer the callback by itself. */
    predicate Open(paid: bool)
      reads this
    {
      !Has(Refunded) && (Has(Paid) ==> paid)
    }

    /** The rows as a state of the protocol with no call under way. */
    ghost function View(): State
      reads this
    {
      State(number, row, amount, payment, refunds, map[], {}, settled)
    }

    /**
     `confirmed` and `refundOk` are the answers of the seat confirmation and of the gateway. A paid
     callback that succeeds leaves money and order final; one that fails can be sent again. What the
     callback does is what the protocol does when this call runs alone.
     */
    method Callback(callAmount: int, paid: bool, confirmed: bool, refundOk: bool) returns (r: Reply)
      requires Valid()
      modifies `row, `payment, `refunds, `settled
      ensures Valid() && (View(), r == Accepted) == Ended(old(View()), paid, callAmount, confirmed, refundOk)
      ensures old(Has(Refunded)) && !paid ==> r == Accepted && View() == old(View())
      ensures old(Has(Refunded)) && paid ==>
                && (r == Accepted <==> old(row) == Some(Cancel) || old(row) == Some(Refund))
                && row == (if r == Accepted then Some(Refund) else old(row)) && unchanged(`payment) && unchanged(`refunds)
      ensures old(Has(Paid)) && !paid ==> r == Accepted && View() == old(View())
      ensures old(Open(paid)) && (old(row).None? || callAmount != amount) ==> r == Failed && View() == old(View())
      ensures old(Open(paid)) && old(row).Some? && callAmount == amount && !paid ==>
                r == Accepted && payment == Some(Payment(amount, Closed)) && unchanged(`row) && unchanged(`refunds)
      ensures old(Open(paid)) && old(row) in {Some(NoPay), Some(Pay)} && callAmount == amount && paid ==>
                && row == Some(Pay) && (r == Accepted <==> confirmed) && unchanged(`refunds)
                && payment == if confirmed then Some(Payment(amount, Paid)) else old(payment)
      ensures old(Open(paid)) && old(row) == Some(Cancel) && callAmount == amount && paid ==>
                && (r == Accepted <==> refundOk)
                && (!refundOk ==> View() == old(View()))
                && (refundOk ==> row == Some(Refund) && payment == Some(Payment(amount, Refunded))
                                 && refunds == old(refunds) + [GatewayRefund(RefundRequestId(number), amount, false)])
    {
      if payment.Some? && payment.value.status == Refunded {
        if paid {
          r := MarkRefunded();
          settled := settled || r == Accepted;
          return;
        }
        return Accepted;
      }
      if payment.Some? && payment.value.status == Paid && !paid { return Accepted; }
      var handled, refundRequired := HandlePaymentCallback(callAmount, paid, confirmed);
      if handled == Failed { return Failed; }
      if !refundRequired {
        SavePayment(callAmount, if paid then Paid else Closed);
        settled := settled || paid;
        return Accepted;
      }
      var refundAmount := if amount <= 0 then callAmount else amount;
      if !refundOk { return Failed; }
      refunds := refunds + [GatewayRefund(RefundRequestId(number), refundAmount, false)];
      SavePayment(refundAmount, Refunded);
      r := MarkRefunded();
      settled := settled || r == Accepted;
    }
  }

  // ----- What a callback running alone does, and that the protocol does it -----

  function Marked(s: State): (State, bool) {
    if s.row == Some(Cancel) || s.row == Some(Refund) then (s.(row := Some(Refund), settled := true), true) else (s, false)
  }

  function Ended(s: State, paid: bool, amount: int, confirmed: bool, refundOk: bool): (State, bool) {
    if PaymentIs(s, Refunded) then (if paid then Marked(s) else (s, true))
    else if PaymentIs(s, Paid) && !paid then (s, true)
    else if s.row.None? || amount != s.amount then (s, false)
    else if !paid then (Save(s, amount, Closed), true)
    else
      match s.row.value
      case Cancel =>
        if !refundOk then (s, false)
        else Marked(Save(s.(refunds := s.refunds + [GatewayRefund(RefundRequestId(s.number), amount, false)]), amount, Refunded))
      case Refund => (Save(s, amount, Paid).(settled := true), true)
      case _ =>
        if confirmed then (Save(s.(row := Some(Pay)), amount, Paid).(settled := true), true)
        else (s.(row := Some(Pay)), false)
  }

  /** One call is at `pc`, and no other is under way. */
  function Waiting(s: State, c: Call, pc: Pc): State {
    s.(calls := map[0 := c.(pc := pc)])
  }

  /** Actions of call 0 after it has begun. */
  predicate Own(acts: seq<Action>) {
    forall i :: 0 <= i < |acts| ==> acts[i] == Advance(0) || acts[i] == Fails(0)
  }

  lemma OwnRun(s: State, a: Action, s': State, rest: seq<Action>, end: State) returns (run: seq<Action>)
    requires Step(s, a) == Some(s') && Exec(Step, s', rest) == Some(end) && Own(rest)
    requires (a == Advance(0) || a == Fails(0))
    ensures Exec(Step, s, run) == Some(end) && Own(run)
  {
    run := [a] + rest;
    assert run[1..] == rest;
  }

  lemma MarkRun(s: State, c: Call) returns (run: seq<Action>)
    requires s.calls == map[] && c.paid
    ensures Exec(Step, Waiting(s, c, MarkRead), run) == Some(Marked(s).0) && Own(run)
  {
    var w, end := Waiting(s, c, MarkRead), Marked(s).0;
    if s.row == Some(Cancel) {
      var v := Waiting(s, c, MarkRow);
      assert AdvanceCall(w, 0, w.calls[0]) == v;
      assert AdvanceCall(v, 0, v.calls[0]).calls == map[];
      run := OwnRun(v, Advance(0), end, [], end);
      run := OwnRun(w, Advance(0), v, run, end);
    } else {
      assert AdvanceCall(w, 0, w.calls[0]).calls == map[];
      run := OwnRun(w, Advance(0), end, [], end);
    }
  }

  lemma SaveRun(s: State, c: Call, status: PaymentStatus) returns (run: seq<Action>)
    requires s.calls == map[]
    ensures Exec(Step, Waiting(s, c, SavePayment(status)), run) ==
            Some(Save(s, c.amount, status).(settled := s.settled || c.paid)) && Own(run)
  {
    var w, end := Waiting(s, c, SavePayment(status)), Save(s, c.amount, status).(settled := s.settled || c.paid);
    assert AdvanceCall(w, 0, w.calls[0]).calls == map[];
    run := OwnRun(w, Advance(0), end, [], end);
  }

  lemma ConfirmRun(s: State, c: Call, confirmed: bool) returns (run: seq<Action>)
    requires s.calls == map[] && c.paid
    ensures Own(run)
    ensures Exec(Step, Waiting(s, c, Confirm), run) ==
            Some(if confirmed then Save(s, c.amount, Paid).(settled := true) else s)
  {
    var w := Waiting(s, c, Confirm);
    if confirmed {
      var v := Waiting(s, c, SavePayment(Paid));
      assert AdvanceCall(w, 0, w.calls[0]) == v;
      run := SaveRun(s, c, Paid);
      run := OwnRun(w, Advance(0), v, run, Save(s, c.amount, Paid).(settled := true));
    } else {
      assert w.calls - {0} == map[];
      run := OwnRun(w, Fails(0), s, [], s);
    }
  }

  lemma RefundRun(s: State, c: Call, refundOk: bool) returns (run: seq<Action>)
    requires s.calls == map[] && c.paid && c.amount == s.amount
    ensures Own(run)
    ensures Exec(Step, Waiting(s, c, AskRefund), run) ==
            Some(if !refundOk then s
                 else Marked(Save(s.(refunds := s.refunds + [GatewayRefund(RefundRequestId(s.number), s.amount, false)]),
                                  s.amount, Refunded)).0)
  {
    var w := Waiting(s, c, AskRefund);
    if refundOk {
      var asked := s.(refunds := s.refunds + [GatewayRefund(RefundRequestId(s.number), s.amount, false)]);
      var saved := Save(asked, s.amount, Refunded);
      var v, u := Waiting(asked, c, SaveRefunded), Waiting(saved, c, MarkRead);
      assert AdvanceCall(w, 0, w.calls[0]) == v;
      assert AdvanceCall(v, 0, v.calls[0]) == u;
      run := MarkRun(saved, c);
      run := OwnRun(v, Advance(0), u, run, Marked(saved).0);
      run := OwnRun(w, Advance(0), v, run, Marked(saved).0);
    } else {
      assert w.calls - {0} == map[];
      run := OwnRun(w, Fails(0), s, [], s);
    }
  }

  lemma AskRun(s: State, c: Call, confirmed: bool, refundOk: bool) returns (run: seq<Action>)
    requires s.calls == map[] && !PaymentIs(s, Refunded) && (PaymentIs(s, Paid) ==> c.paid)
    ensures Exec(Step, Waiting(s, c, AskOrder), run) == Some(Ended(s, c.paid, c.amount, confirmed, refundOk).0)
    ensures Own(run)
  {
    var w, end := Waiting(s, c, AskOrder), Ended(s, c.paid, c.amount, confirmed, refundOk).0;
    if s.row.None? || c.amount != s.amount {
      assert AdvanceCall(w, 0, w.calls[0]).calls == map[];
      run := OwnRun(w, Advance(0), s, [], s);
    } else if !c.paid || s.row == Some(Refund) {
      var v := Waiting(s, c, SavePayment(if c.paid then Paid else Closed));
      assert AdvanceCall(w, 0, w.calls[0]) == v;
      run := SaveRun(s, c, if c.paid then Paid else Closed);
      run := OwnRun(w, Advance(0), v, run, end);
    } else if s.row == Some(Cancel) {
      var v := Waiting(s, c, AskRefund);
      assert AdvanceCall(w, 0, w.calls[0]) == v;
      run := RefundRun(s, c, refundOk);
      run := OwnRun(w, Advance(0), v, run, end);
    } else {
      run := PayRun(s, c, confirmed);
    }
  }

  lemma PayRun(s: State, c: Call, confirmed: bool) returns (run: seq<Action>)
    requires s.calls == map[] && c.paid && c.amount == s.amount && (s.row == Some(NoPay) || s.row == Some(Pay))
    ensures Own(run)
    ensures Exec(Step, Waiting(s, c, AskOrder), run) ==
            Some(if confirmed then Save(s.(row := Some(Pay)), c.amount, Paid).(settled := true) else s.(row := Some(Pay)))
  {
    var p := s.(row := Some(Pay));
    var end := if confirmed then Save(p, c.amount, Paid).(settled := true) else p;
    var w, v, u := Waiting(s, c, AskOrder), Waiting(s, c, PayRow), Waiting(p, c, Confirm);
    run := ConfirmRun(p, c, confirmed);
    if s.row == Some(NoPay) {
      assert AdvanceCall(w, 0, w.calls[0]) == v;
      assert AdvanceCall(v, 0, v.calls[0]) == u;
      run := OwnRun(v, Advance(0), u, run, end);
      run := OwnRun(w, Advance(0), v, run, end);
    } else {
      assert AdvanceCall(w, 0, w.calls[0]) == u;
      run := OwnRun(w, Advance(0), u, run, end);
    }
  }

  lemma FindRun(s: State, c: Call, confirmed: bool, refundOk: bool) returns (run: seq<Action>)
    requires s.calls == map[] && c.pc == FindPayment
    ensures Exec(Step, Waiting(s, c, FindPayment), run) == Some(Ended(s, c.paid, c.amount, confirmed, refundOk).0)
    ensures Own(run)
  {
    var w, end := Waiting(s, c, FindPayment), Ended(s, c.paid, c.amount, confirmed, refundOk).0;
    if !c.paid && (PaymentIs(s, Refunded) || PaymentIs(s, Paid)) {
      assert AdvanceCall(w, 0, w.calls[0]).calls == map[];
      run := OwnRun(w, Advance(0), s, [], s);
    } else if PaymentIs(s, Refunded) {
      var v := Waiting(s, c, MarkRead);
      assert AdvanceCall(w, 0, w.calls[0]) == v;
      run := MarkRun(s, c);
      run := OwnRun(w, Advance(0), v, run, end);
    } else {
      var v := Waiting(s, c, AskOrder);
      assert AdvanceCall(w, 0, w.calls[0]) == v;
      run := AskRun(s, c, confirmed, refundOk);
      run := OwnRun(w, Advance(0), v, run, end);
    }
  }

  /** What the written callback does is a run of the protocol, by its own actions. */
  lemma CallbackIsRun(s: State, paid: bool, amount: int, confirmed: bool, refundOk: bool) returns (run: seq<Action>)
    requires s.calls == map[]
    ensures Exec(Step, s, [Callback(0, paid, amount)] + run) == Some(Ended(s, paid, amount, confirmed, refundOk).0)
    ensures Own(run)
  {
    var c := Call(paid, amount, FindPayment);
    run := FindRun(s, c, confirmed, refundOk);
    assert ([Callback(0, paid, amount)] + run)[1..] == run;
    assert Step(s, Callback(0, paid, amount)) == Some(Waiting(s, c, FindPayment));
  }
}
