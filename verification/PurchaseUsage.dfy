/**
 What the usage query of the order service counts is what the sale has reserved: an order uses as
 many tickets as its lock script took.
 */
module PurchaseUsage {
  import opened Orders
  import opened SeatStore
  import opened FiniteSets
  import opened PurchaseSaga
  import Backing = PurchaseBacking
  import Markers = PurchaseMarkers
  import Usages = OrderUsage

  function SeatKeys(program: int, ids: seq<int>): seq<Key> {
    seq(|ids|, i requires 0 <= i < |ids| => Seat(program, ids[i]))
  }

  function UserKeys(program: int, ids: seq<int>): seq<Key> {
    seq(|ids|, i requires 0 <= i < |ids| => TicketUser(program, ids[i]))
  }

  /** What LockSeats and RollbackSeats hand to their scripts for a purchase. */
  function RequestFor(program: int, category: int, seatIds: seq<int>, ticketUserIds: seq<int>): Request {
    var count := if |seatIds| > 0 then |seatIds| else |ticketUserIds|;
    Request(category, count, SeatKeys(program, seatIds) + UserKeys(program, ticketUserIds))
  }

  /** The rows of one program are the orders of the sale, each with the request it was sold under. */
  ghost predicate Mirrors(t: Table, program: int, s: State) {
    && t.Keys == s.orders.Keys && s.orders.Keys <= s.req.Keys
    && forall n :: n in t ==>
         && t[n].programId == program && t[n].status == s.orders[n]
         && s.req[n] == RequestFor(program, t[n].categoryId, t[n].seatIds, t[n].ticketUserIds)
  }

  /** Per category, the tickets in use are the tickets of the unpaid and paid orders. */
  lemma UsageIsTickets(t: Table, program: int, s: State, category: int)
    requires Mirrors(t, program, s) && category > 0
    ensures Usages.Count(Usages.Usage(t, program), category) == Backing.Tickets(s, category)
  {
    var rows := Usages.Rows(t, program, category);
    var f := (o: int) => Backing.TicketsOf(s, category, o);
    var g := n => if n in t then t[n].TicketCount() else 0;
    Usages.CountIsOccupied(t, program, category);
    SumOfPart(s.req.Keys, rows, f);
    SumSame(rows, f, g);
  }

  /** In a prudently operated sale the usage and the stock together never exceed what was seeded. */
  lemma UsageFitsTheSeed(s0: State, acts: seq<Action>, x: Markers.Sale, t: Table, program: int, category: int)
    requires Opening(s0) && Backing.Prudent(s0) && Markers.Reached(s0, acts, x)
    requires Mirrors(t, program, x.s) && category > 0
    ensures Usages.Count(Usages.Usage(t, program), category) + Stock(x.s.store, category) <= Stock(s0.store, category)
  {
    Markers.NeverOversold(s0, acts, x);
    UsageIsTickets(t, program, x.s, category);
  }
}
