/**
 The order entity, its status machine, and the two statements every order table offers:
 insert-if-absent and the compare-and-set status update.
 */
module Orders {
  import opened Runs

  datatype Status = NoPay | Pay | Cancel | Refund

  datatype Order = Order(
    number: int,
    programId: int,
    userId: int,
    categoryId: int,
    seatIds: seq<int>,
    ticketUserIds: seq<int>,
    amountCent: int,
    status: Status,
    createdAt: int,
    paidAt: Option<int>,
    canceledAt: Option<int>,
    refundedAt: Option<int>)
  {
    function TicketCount(): nat {
      if |seatIds| > 0 then |seatIds| else |ticketUserIds|
    }
  }

  /** The columns that belong to an order for good. */
  predicate SameOrder(a: Order, b: Order) {
    && a.number == b.number && a.programId == b.programId && a.userId == b.userId && a.categoryId == b.categoryId
    && a.seatIds == b.seatIds && a.ticketUserIds == b.ticketUserIds && a.amountCent == b.amountCent
  }

  /** The time of each change of status is recorded exactly if that change has happened. */
  predicate Timed(o: Order) {
    && (o.paidAt.Some? <==> o.status == Pay)
    && (o.canceledAt.Some? <==> o.status == Cancel || o.status == Refund)
    && (o.refundedAt.Some? <==> o.status == Refund)
  }

  function NewOrder(number: int, programId: int, userId: int, categoryId: int, seatIds: seq<int>,
                    ticketUserIds: seq<int>, amountCent: int, now: int): (o: Order)
    ensures Timed(o) && o.createdAt == now
  {
    Order(number, programId, userId, categoryId, seatIds, ticketUserIds, amountCent, NoPay, now, None, None, None)
  }

  datatype Result = Ok | Conflict

  /** The order object that the commands change in place before they store it. */
  class OrderEntity {
    const loaded: Order
    var status: Status
    var paidAt: Option<int>
    var canceledAt: Option<int>
    var refundedAt: Option<int>

    constructor (item: Order)
      ensures loaded == item && Item() == item
    {
      loaded := item;
      status, paidAt, canceledAt, refundedAt := item.status, item.paidAt, item.canceledAt, item.refundedAt;
    }

    /** The order as it is stored next. */
    function Item(): Order
      reads this
    {
      loaded.(status := status, paidAt := paidAt, canceledAt := canceledAt, refundedAt := refundedAt)
    }

    method MarkPaid(now: int) returns (r: Result)
      modifies `status, `paidAt
      ensures r == Ok <==> Reaches(old(status), Pay)
      ensures r == Ok ==> status == Pay
      ensures r == Ok && old(status) != Pay ==> paidAt == Some(now)
      ensures r == Conflict || old(status) == Pay ==> unchanged(`status) && unchanged(`paidAt)
      ensures old(Timed(Item())) ==> Timed(Item())
    {
      if status == Pay { return Ok; }
      if status == Cancel { return Conflict; }
      if status != NoPay { return Conflict; }
      status, paidAt := Pay, Some(now);
      return Ok;
    }

    method MarkCanceled(now: int) returns (r: Result)
      modifies `status, `canceledAt
      ensures r == Ok <==> Reaches(old(status), Cancel)
      ensures r == Ok ==> status == Cancel
      ensures r == Ok && old(status) != Cancel ==> canceledAt == Some(now)
      ensures r == Conflict || old(status) == Cancel ==> unchanged(`status) && unchanged(`canceledAt)
      ensures old(Timed(Item())) ==> Timed(Item())
    {
      if status == Cancel { return Ok; }
      if status != NoPay { return Conflict; }
      status, canceledAt := Cancel, Some(now);
      return Ok;
    }

    /** Only a canceled order can be refunded: a fresh one is refused although it could get there. */
    method MarkRefund(now: int) returns (r: Result)
      modifies `status, `refundedAt
      ensures r == Ok <==> Reaches(Cancel, old(status))
      ensures r == Ok ==> status == Refund
      ensures r == Ok && old(status) != Refund ==> refundedAt == Some(now)
      ensures r == Conflict || old(status) == Refund ==> unchanged(`status) && unchanged(`refundedAt)
      ensures old(Timed(Item())) ==> Timed(Item())
    {
      if status == Refund { return Ok; }
      if status != Cancel { return Conflict; }
      status, refundedAt := Refund, Some(now);
      return Ok;
    }
  }

  /** The status a row must have for the compare-and-set to move it to `target`. */
  function AllowedPrevious(target: Status): Option<Status> {
    match target
    case Pay => Some(NoPay)
    case Cancel => Some(NoPay)
    case Refund => Some(Cancel)
    case NoPay => None
  }

  /** The compare-and-set on a row's status: it moves to `target`, or is there already. */
  predicate Accepts(rows: map<int, Status>, o: int, target: Status) {
    o in rows && (rows[o] == target || AllowedPrevious(target) == Some(rows[o]))
  }

  /** One legal change of status. */
  predicate Edge(a: Status, b: Status) {
    AllowedPrevious(b) == Some(a)
  }

  /** `b` lies on a legal path from `a`. */
  predicate Reaches(a: Status, b: Status) {
    a == b || a == NoPay || (a == Cancel && b == Refund)
  }

  predicate IsPath(p: seq<Status>) {
    |p| > 0 && forall i :: 0 <= i < |p| - 1 ==> Edge(p[i], p[i + 1])
  }

  /** Reaches is exactly "there is a path of legal changes". */
  lemma ReachesIsPath(a: Status, b: Status)
    ensures Reaches(a, b) <==> exists p :: IsPath(p) && p[0] == a && p[|p| - 1] == b
  {
    if Reaches(a, b) {
      var p := if a == b then [a] else if Edge(a, b) then [a, b] else [a, Cancel, b];
      assert IsPath(p) && p[0] == a && p[|p| - 1] == b;
    }
    forall p | IsPath(p) && p[0] == a && p[|p| - 1] == b
      ensures Reaches(a, b)
    {
      PathReaches(p);
    }
  }

  lemma {:induction false} PathReaches(p: seq<Status>)
    requires IsPath(p)
    ensures Reaches(p[0], p[|p| - 1])
  {
    if |p| > 1 {
      assert IsPath(p[1..]);
      PathReaches(p[1..]);
      assert Edge(p[0], p[0 + 1]);
    }
  }

  type Table = map<int, Order>

  /** Every row lies under its own number. */
  predicate Keyed(t: Table) {
    forall n :: n in t ==> t[n].number == n
  }

  /** INSERT IGNORE, and INSERT ... ON DUPLICATE KEY UPDATE order_number = order_number. */
  function InsertIgnore(t: Table, item: Order): Table {
    if item.number in t then t else t[item.number := item]
  }

  /** The WHERE clause of the compare-and-set: right owner, previous or already the target status. */
  predicate CasMatches(t: Table, item: Order) {
    && item.number in t
    && t[item.number].userId == item.userId
    && (t[item.number].status == item.status || AllowedPrevious(item.status) == Some(t[item.number].status))
  }

  function CasUpdate(t: Table, item: Order): Table {
    if CasMatches(t, item) then
      t[item.number := t[item.number].(status := item.status, paidAt := item.paidAt,
                                       canceledAt := item.canceledAt, refundedAt := item.refundedAt)]
    else t
  }

  /** What an update of the row writes: status and times of the item, and nothing else. */
  predicate Recorded(row: Order, item: Order) {
    && row.status == item.status
    && row.paidAt == item.paidAt && row.canceledAt == item.canceledAt && row.refundedAt == item.refundedAt
  }

  /** The row belongs to the item's user and may move to its status. */
  predicate MayMove(row: Order, item: Order) {
    row.userId == item.userId && (row.status == item.status || Edge(row.status, item.status))
  }

  /** The compare-and-set records the item in its row exactly if the row may move, and changes nothing else. */
  lemma CasRecords(t: Table, item: Order)
    ensures var u, n := CasUpdate(t, item), item.number;
            && u.Keys == t.Keys && (forall m :: m in t && m != n ==> u[m] == t[m])
            && (n in t ==> SameOrder(u[n], t[n]) && u[n].createdAt == t[n].createdAt)
            && (n in t && MayMove(t[n], item) ==> Recorded(u[n], item))
            && (n !in t || !MayMove(t[n], item) ==> u == t)
  {
  }

  /** The upsert of some rows of another table: a row that is already there keeps only its creation time. */
  function Upserted(source: Table, target: Table, keys: set<int>): Table {
    map n | n in target.Keys + (keys * source.Keys) ::
      if n !in keys || n !in source then target[n]
      else if n in target then source[n].(createdAt := target[n].createdAt) else source[n]
  }

  /** The SELECT that follows an update which changed no row. */
  predicate Confirms(t: Table, item: Order) {
    item.number in t && t[item.number].userId == item.userId && t[item.number].status == item.status
  }

  /** Every order of `t` is in `u`, at the same status or further along a legal path. */
  predicate Advances(t: Table, u: Table) {
    forall n :: n in t ==> n in u && Reaches(t[n].status, u[n].status)
  }

  /** Neither statement loses a row or moves one off its path. */
  lemma StatementsAdvance(t: Table, item: Order)
    ensures Advances(t, InsertIgnore(t, item))
    ensures AllowedPrevious(item.status).Some? ==> Advances(t, CasUpdate(t, item))
    ensures Keyed(t) ==> Keyed(InsertIgnore(t, item)) && Keyed(CasUpdate(t, item))
  {
  }
}
