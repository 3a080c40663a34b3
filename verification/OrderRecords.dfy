/**
 What order rows look like after any history of saves and commands. Orders are saved new; a command
 reads a row, marks its copy of it, and later updates the tables it is routed to, while other
 commands do the same. A table is any table that some router names.
 */
module OrderRecords {
  import opened Runs
  import opened Orders
  import opened ShardMappings
  import opened OrderUsage
  import opened ShardedRepository

  /** The tables, and the copies that commands hold between their read and their update. */
  datatype Book = Book(dbs: set<string>, tables: Tables, held: map<int, Order>)

  datatype Action =
    | SaveNew(places: seq<Place>, item: Order)
    | Load(id: int, p: Place, number: int)
    | Change(id: int, mark: Mark, clock: int)
    | Store(id: int, places: seq<Place>)
    | Forget(id: int)

  predicate IsNew(item: Order) {
    item.status == NoPay && item.paidAt == None && item.canceledAt == None && item.refundedAt == None
  }

  /** What the entity's methods do to a copy; None is a conflict. */
  function Marked(item: Order, mark: Mark, clock: int): Option<Order> {
    if item.status == Target(mark) then Some(item)
    else if !Edge(item.status, Target(mark)) then None
    else
      match mark
      case ToPaid => Some(item.(status := Pay, paidAt := Some(clock)))
      case ToCanceled => Some(item.(status := Cancel, canceledAt := Some(clock)))
      case ToRefunded => Some(item.(status := Refund, refundedAt := Some(clock)))
  }

  function Step(b: Book, a: Action): Option<Book> {
    match a
    case SaveNew(places, item) => if IsNew(item) then Some(b.(tables := SaveAll(b.dbs, b.tables, places, item).0)) else None
    case Load(id, p, number) =>
      if id !in b.held && number in At(b.tables, p) then Some(b.(held := b.held[id := At(b.tables, p)[number]])) else None
    case Change(id, mark, clock) =>
      if id in b.held && Marked(b.held[id], mark, clock).Some? then
        Some(b.(held := b.held[id := Marked(b.held[id], mark, clock).value]))
      else None
    case Store(id, places) =>
      if id in b.held then Some(b.(tables := UpdateAll(b.dbs, b.tables, places, b.held[id]).0)) else None
    case Forget(id) => Some(b.(held := b.held - {id}))
  }

  ghost predicate Reachable(b0: Book, acts: seq<Action>, b: Book) {
    Exec(Step, b0, acts) == Some(b)
  }

  ghost predicate Empty(b: Book) {
    b.held == map[] && forall p :: At(b.tables, p) == map[]
  }

  // ----- Times fit statuses -----

  ghost predicate AllTimed(t: Table) {
    forall n :: n in t ==> t[n].number == n && Timed(t[n])
  }

  ghost predicate Inv(b: Book) {
    (forall p :: AllTimed(At(b.tables, p))) && (forall id :: id in b.held ==> Timed(b.held[id]))
  }

  lemma SaveKeepsInv(b: Book, places: seq<Place>, item: Order)
    requires Inv(b) && IsNew(item)
    ensures Inv(b.(tables := SaveAll(b.dbs, b.tables, places, item).0))
  {
    SaveReachesAll(b.dbs, b.tables, places, item);
    var after := SaveAll(b.dbs, b.tables, places, item).0;
    forall p ensures AllTimed(At(after, p)) {
      assert AllTimed(At(b.tables, p));
    }
  }

  lemma StoreKeepsInv(b: Book, id: int, places: seq<Place>)
    requires Inv(b) && id in b.held
    ensures Inv(b.(tables := UpdateAll(b.dbs, b.tables, places, b.held[id]).0))
  {
    UpdateTouchesItem(b.dbs, b.tables, places, b.held[id]);
    var after := UpdateAll(b.dbs, b.tables, places, b.held[id]).0;
    forall p ensures AllTimed(At(after, p)) {
      assert AllTimed(At(b.tables, p)) && OnlyItem(At(b.tables, p), At(after, p), b.held[id]);
    }
  }

  lemma StepKeepsInv(b: Book, a: Action)
    requires Inv(b) && Step(b, a).Some?
    ensures Inv(Step(b, a).value)
  {
    match a
    case SaveNew(places, item) => SaveKeepsInv(b, places, item);
    case Store(id, places) => StoreKeepsInv(b, id, places);
    case Load(id, p, number) => assert AllTimed(At(b.tables, p));
    case Change(id, mark, clock) =>
    case Forget(id) =>
  }

  /**
   After any history, in every table a row has a paid time exactly if it is paid, a cancel time
   exactly if it is canceled or refunded, and a refund time exactly if it is refunded.
   */
  lemma TimesFitStatuses(b0: Book, acts: seq<Action>, b: Book, p: Place, n: int)
    requires Empty(b0) && Reachable(b0, acts, b) && n in At(b.tables, p)
    ensures var row := At(b.tables, p)[n];
            && row.number == n
            && (row.paidAt.Some? <==> row.status == Pay)
            && (row.canceledAt.Some? <==> row.status == Cancel || row.status == Refund)
            && (row.refundedAt.Some? <==> row.status == Refund)
  {
    forall t, a | Inv(t) && Step(t, a).Some? ensures Inv(Step(t, a).value) { StepKeepsInv(t, a); }
    InvariantOfRun(Step, Inv, b0, acts);
    assert AllTimed(At(b.tables, p));
  }

  // ----- Rows are for good -----

  /** No row is lost, goes back on its path, or changes a column other than status and times. */
  ghost predicate Lasts(b: Book, b': Book) {
    forall p, n :: n in At(b.tables, p) ==>
      && n in At(b'.tables, p) && SameRow(At(b.tables, p)[n], At(b'.tables, p)[n])
      && Reaches(At(b.tables, p)[n].status, At(b'.tables, p)[n].status)
  }

  lemma StepLasts(b: Book, a: Action)
    requires Step(b, a).Some?
    ensures Lasts(b, Step(b, a).value)
  {
    var b' := Step(b, a).value;
    match a
    case SaveNew(places, item) => SaveReachesAll(b.dbs, b.tables, places, item);
    case Store(id, places) =>
      UpdateTouchesItem(b.dbs, b.tables, places, b.held[id]);
      forall p, n | n in At(b.tables, p)
        ensures n in At(b'.tables, p) && SameRow(At(b.tables, p)[n], At(b'.tables, p)[n])
        ensures Reaches(At(b.tables, p)[n].status, At(b'.tables, p)[n].status)
      {
        assert OnlyItem(At(b.tables, p), At(b'.tables, p), b.held[id]) && Advances(At(b.tables, p), At(b'.tables, p));
      }
    case _ =>
  }

  lemma RowsLast(b: Book, acts: seq<Action>, b': Book)
    requires Reachable(b, acts, b')
    ensures Lasts(b, b')
  {
    var always := (t: Book) => true;
    forall t, a | always(t) && Step(t, a).Some?
      ensures always(Step(t, a).value) && Lasts(t, Step(t, a).value)
    {
      StepLasts(t, a);
    }
    forall t, u, v | Lasts(t, u) && Lasts(u, v) ensures Lasts(t, v) { LastsThrough(t, u, v); }
    RelationOfRun(Step, always, Lasts, b, acts);
  }

  lemma LastsThrough(a: Book, b: Book, c: Book)
    requires Lasts(a, b) && Lasts(b, c)
    ensures Lasts(a, c)
  {
    forall p, n | n in At(a.tables, p)
      ensures n in At(c.tables, p) && SameRow(At(a.tables, p)[n], At(c.tables, p)[n])
      ensures Reaches(At(a.tables, p)[n].status, At(c.tables, p)[n].status)
    {
      assert n in At(b.tables, p);
    }
  }

  // ----- The time of a command is the time in the row -----

  /**
   A command reads a row of `p`, marks its copy at `clock`, and its update of `p` and other tables is
   acknowledged; in between others may do anything. Then the row of `p` has the mark's status, the
   time is `clock`, and its other columns are those that were read.
   */
  lemma MarkedTimeIsStored(b0: Book, b: Book, p: Place, n: int, mark: Mark, clock: int, acts: seq<Action>,
                           places: seq<Place>)
    requires n in At(b0.tables, p) && At(b0.tables, p)[n].number == n && Reachable(b0, acts, b) && p in places
    requires Edge(At(b0.tables, p)[n].status, Target(mark))
    requires var item := Marked(At(b0.tables, p)[n], mark, clock).value;
             UpdateAll(b.dbs, b.tables, places, item).1 == Saved
    ensures var item := Marked(At(b0.tables, p)[n], mark, clock).value;
            var t := At(UpdateAll(b.dbs, b.tables, places, item).0, p);
            && n in t && t[n].status == Target(mark) && SameRow(At(b0.tables, p)[n], t[n])
            && (mark == ToPaid ==> t[n].paidAt == Some(clock))
            && (mark == ToCanceled ==> t[n].canceledAt == Some(clock))
            && (mark == ToRefunded ==> t[n].refundedAt == Some(clock))
  {
    var item := Marked(At(b0.tables, p)[n], mark, clock).value;
    RowsLast(b0, acts, b);
    UpdateReachesAll(b.dbs, b.tables, places, item);
    UpdateTouchesItem(b.dbs, b.tables, places, item);
    var after := UpdateAll(b.dbs, b.tables, places, item).0;
    assert OnlyItem(At(b.tables, p), At(after, p), item) && Holds(At(after, p), item);
  }
}
