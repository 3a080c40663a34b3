/** The repository that writes every table its router names, one after the other. */
module ShardedRepository {
  import opened Runs
  import opened Orders
  import opened ShardMappings
  import opened OrderUsage
  import opened Routing
  import ShardMigration

  const MAX_STALENESS := ShardMigration.MAX_STALENESS

  datatype Reply = Saved | Stale | Broken | Conflicting | Missing

  datatype Lookup = FoundRow(item: Order) | NotFound | StaleMapping | BadLocation

  /** The three commands that change an order. */
  datatype Mark = ToPaid | ToCanceled | ToRefunded

  function Target(mark: Mark): Status {
    match mark
    case ToPaid => Pay
    case ToCanceled => Cancel
    case ToRefunded => Refund
  }

  predicate Owned(t: Table, number: int, userId: int) {
    number in t && t[number].userId == userId
  }

  /** The row has the mark's status, at its time unless it had it before; all else is as it was. */
  predicate IsMarked(row: Order, row': Order, mark: Mark, clock: int) {
    if row.status == Target(mark) then row' == row
    else
      match mark
      case ToPaid => row' == row.(status := Pay, paidAt := Some(clock))
      case ToCanceled => row' == row.(status := Cancel, canceledAt := Some(clock))
      case ToRefunded => row' == row.(status := Refund, refundedAt := Some(clock))
  }

  function PlaceOf(l: Location): Place {
    Place(l.database, l.table)
  }

  function PlacesOf(ls: seq<Location>): seq<Place> {
    seq(|ls|, i requires 0 <= i < |ls| => PlaceOf(ls[i]))
  }

  // ----- What the loops do -----

  function SaveAll(dbs: set<string>, tables: Tables, places: seq<Place>, item: Order): (Tables, Reply)
    decreases places
  {
    if places == [] then (tables, Saved)
    else if !Resolvable(dbs, places[0]) then (tables, Broken)
    else SaveAll(dbs, tables[places[0] := InsertIgnore(At(tables, places[0]), item)], places[1..], item)
  }

  /** Insert if absent, then compare-and-set, then look whether it had to change anything. */
  function UpdateAt(t: Table, item: Order): (Table, Reply) {
    var inserted := InsertIgnore(t, item);
    if AllowedPrevious(item.status) == None then (inserted, Broken)
    else
      var t' := CasUpdate(inserted, item);
      (t', if t' != inserted || Confirms(t', item) then Saved else Conflicting)
  }

  function UpdateAll(dbs: set<string>, tables: Tables, places: seq<Place>, item: Order): (Tables, Reply)
    decreases places
  {
    if places == [] then (tables, Saved)
    else if !Resolvable(dbs, places[0]) then (tables, Broken)
    else
      var (t, reply) := UpdateAt(At(tables, places[0]), item);
      var tables' := tables[places[0] := t];
      if reply != Saved then (tables', reply) else UpdateAll(dbs, tables', places[1..], item)
  }

  // ----- What they promise -----

  /** Every order of every table is still there, at its status or further along a legal path. */
  ghost predicate AllAdvance(before: Tables, after: Tables) {
    forall p :: Advances(At(before, p), At(after, p))
  }

  lemma AdvancesTransitive(a: Table, b: Table, c: Table)
    requires Advances(a, b) && Advances(b, c)
    ensures Advances(a, c)
  {
  }

  lemma AllAdvanceThrough(a: Tables, b: Tables, c: Tables)
    requires AllAdvance(a, b) && AllAdvance(b, c)
    ensures AllAdvance(a, c)
  {
    forall p ensures Advances(At(a, p), At(c, p)) {
      AdvancesTransitive(At(a, p), At(b, p), At(c, p));
    }
  }

  lemma OneTableAdvances(tables: Tables, p: Place, t: Table)
    requires Advances(At(tables, p), t)
    ensures AllAdvance(tables, tables[p := t])
  {
  }

  predicate SameRow(a: Order, b: Order) {
    SameOrder(a, b) && a.createdAt == b.createdAt
  }

  /** An acknowledged save is in every table it was to reach: as given, or as it was there before. */
  lemma {:induction false} SaveReachesAll(dbs: set<string>, tables: Tables, places: seq<Place>, item: Order)
    ensures var (after, reply) := SaveAll(dbs, tables, places, item);
            && AllAdvance(tables, after)
            && (reply == Saved <==> AllResolvable(dbs, places))
            && (reply == Saved ==> forall p :: p in places ==> item.number in At(after, p))
            && (forall p, m :: m in At(tables, p) ==> m in At(after, p) && At(after, p)[m] == At(tables, p)[m])
            && (forall p, m :: m in At(after, p) && m !in At(tables, p) ==> p in places && At(after, p)[m] == item && m == item.number)
    decreases places
  {
    if places != [] && Resolvable(dbs, places[0]) {
      var p, t := places[0], InsertIgnore(At(tables, places[0]), item);
      StatementsAdvance(At(tables, p), item);
      OneTableAdvances(tables, p, t);
      SaveReachesAll(dbs, tables[p := t], places[1..], item);
      var (after, reply) := SaveAll(dbs, tables, places, item);
      AllAdvanceThrough(tables, tables[p := t], after);
      assert item.number in At(after, p) by {
        assert Advances(At(tables[p := t], p), At(after, p));
      }
      assert places == [p] + places[1..];
    }
  }

  lemma UpdateAtAdvances(t: Table, item: Order)
    ensures Advances(t, UpdateAt(t, item).0)
  {
    StatementsAdvance(t, item);
    StatementsAdvance(InsertIgnore(t, item), item);
  }

  /** The row is not there, or it may move to the item's status. */
  predicate Accepting(t: Table, item: Order) {
    item.number in t ==> MayMove(t[item.number], item)
  }

  /** The row has the item's status and times. */
  predicate Holds(t: Table, item: Order) {
    item.number in t && t[item.number].userId == item.userId && Recorded(t[item.number], item)
  }

  /** At most the row of the item changes, and of that only status and times, to the item's; a new row is the item. */
  ghost predicate OnlyItem(t: Table, u: Table, item: Order) {
    && (forall m :: m in t && m != item.number ==> m in u && u[m] == t[m])
    && (forall m :: m in u && m !in t ==> m == item.number && u[m] == item)
    && (item.number in t ==> item.number in u && Rerecorded(t[item.number], u[item.number], item))
  }

  predicate Rerecorded(row: Order, row': Order, item: Order) {
    row' == row || (SameRow(row, row') && Recorded(row', item))
  }

  /** One table accepts an update exactly if its row is not there or may move, and then records it. */
  lemma UpdateAtRecords(t: Table, item: Order)
    ensures var (u, reply) := UpdateAt(t, item);
            && OnlyItem(t, u, item)
            && (reply == Saved <==> AllowedPrevious(item.status).Some? && Accepting(t, item))
            && (reply == Saved ==> Holds(u, item))
            && (reply != Saved && item.number in t ==> u == t)
  {
    CasRecords(InsertIgnore(t, item), item);
  }

  /** Recording the same item again changes nothing. */
  lemma HoldsAccepts(t: Table, item: Order)
    requires Holds(t, item)
    ensures Accepting(t, item)
  {
  }

  /** In every table at most the row of the item changes, and only in the tables that were named. */
  ghost predicate OnlyItemIn(before: Tables, after: Tables, places: seq<Place>, item: Order) {
    && (forall p :: OnlyItem(At(before, p), At(after, p), item))
    && (forall p :: p !in places ==> At(after, p) == At(before, p))
  }

  lemma OnlyItemThrough(a: Table, b: Table, c: Table, item: Order)
    requires OnlyItem(a, b, item) && OnlyItem(b, c, item)
    ensures OnlyItem(a, c, item)
  {
  }

  /** Every location resolves, and every row that is there belongs to the user and may move. */
  ghost predicate Updatable(dbs: set<string>, tables: Tables, places: seq<Place>, item: Order) {
    && AllResolvable(dbs, places) && (places != [] ==> AllowedPrevious(item.status).Some?)
    && (forall p :: p in places ==> Accepting(At(tables, p), item))
  }

  /** No other row and no other column changes, and every row stays on its path. */
  lemma {:induction false} UpdateTouchesItem(dbs: set<string>, tables: Tables, places: seq<Place>, item: Order)
    ensures var after := UpdateAll(dbs, tables, places, item).0;
            AllAdvance(tables, after) && OnlyItemIn(tables, after, places, item)
    decreases places
  {
    if places != [] && Resolvable(dbs, places[0]) {
      var p := places[0];
      var (t, first) := UpdateAt(At(tables, p), item);
      UpdateAtAdvances(At(tables, p), item);
      UpdateAtRecords(At(tables, p), item);
      OneTableAdvances(tables, p, t);
      assert places == [p] + places[1..];
      if first == Saved {
        var next, after := tables[p := t], UpdateAll(dbs, tables, places, item).0;
        UpdateTouchesItem(dbs, next, places[1..], item);
        AllAdvanceThrough(tables, next, after);
        forall q ensures OnlyItem(At(tables, q), At(after, q), item) {
          assert OnlyItem(At(next, q), At(after, q), item);
          OnlyItemThrough(At(tables, q), At(next, q), At(after, q), item);
        }
      }
    }
  }

  lemma UpdatableNext(dbs: set<string>, tables: Tables, places: seq<Place>, item: Order, t: Table)
    requires places != [] && Resolvable(dbs, places[0]) && AllowedPrevious(item.status).Some?
    requires Accepting(At(tables, places[0]), item) && Holds(t, item)
    ensures Updatable(dbs, tables, places, item) <==> Updatable(dbs, tables[places[0] := t], places[1..], item)
  {
    var p, rest, next := places[0], places[1..], tables[places[0] := t];
    HoldsAccepts(t, item);
    assert forall q :: q != p ==> At(next, q) == At(tables, q);
    if Updatable(dbs, tables, places, item) {
      assert forall i :: 0 <= i < |rest| ==> rest[i] == places[i + 1];
      assert forall q :: q in rest ==> q in places;
    }
    if Updatable(dbs, next, rest, item) {
      assert forall i :: 0 < i < |places| ==> places[i] == rest[i - 1];
      forall q | q in places ensures Accepting(At(tables, q), item) {
        assert q == p || q in rest;
      }
    }
  }

  /**
   An update is acknowledged exactly if every location resolves and every row that is there belongs to
   the user and may move; then every table that was named has the item's status and times.
   */
  lemma {:induction false} UpdateReachesAll(dbs: set<string>, tables: Tables, places: seq<Place>, item: Order)
    ensures var (after, reply) := UpdateAll(dbs, tables, places, item);
            && (reply == Saved <==> Updatable(dbs, tables, places, item))
            && (reply == Saved ==> forall p :: p in places ==> Holds(At(after, p), item))
    decreases places
  {
    if places != [] && Resolvable(dbs, places[0]) {
      var p, rest := places[0], places[1..];
      var (t, first) := UpdateAt(At(tables, p), item);
      UpdateAtRecords(At(tables, p), item);
      assert places == [p] + rest;
      if first == Saved {
        UpdatableNext(dbs, tables, places, item, t);
        UpdateReachesAll(dbs, tables[p := t], rest, item);
        UpdateTouchesItem(dbs, tables[p := t], rest, item);
        var after := UpdateAll(dbs, tables, places, item).0;
        assert p !in rest ==> At(after, p) == t;
      }
    }
  }

  /** The same locations, by their keys, and so resolvable or not together. */
  ghost predicate SameLocations(dbs: set<string>, a: seq<Place>, b: seq<Place>) {
    SeenKeys(a) == SeenKeys(b) && (AllResolvable(dbs, a) <==> AllResolvable(dbs, b))
  }

  ghost predicate OthersKept(before: Tables, after: Tables, number: int) {
    forall p, m :: m != number && m in At(before, p) ==> m in At(after, p) && At(after, p)[m] == At(before, p)[m]
  }

  /** The row is at the mark's status, or may move there in every table it is written to. */
  ghost predicate MayChange(dbs: set<string>, tables: Tables, places: seq<Place>, row: Order, mark: Mark) {
    || row.status == Target(mark)
    || (Edge(row.status, Target(mark)) && Updatable(dbs, tables, places, row.(status := Target(mark))))
  }

  lemma SameMembersResolveAlike(dbs: set<string>, a: seq<Place>, b: seq<Place>)
    requires forall p :: p in a <==> p in b
    ensures AllResolvable(dbs, a) <==> AllResolvable(dbs, b)
  {
    assert forall i :: 0 <= i < |a| ==> a[i] in b;
    assert forall i :: 0 <= i < |b| ==> b[i] in a;
  }

  /** A table that resolves shares its key with no other, so lists with the same keys resolve alike. */
  lemma SameKeysResolveAlike(dbs: set<string>, a: seq<Place>, b: seq<Place>)
    requires SeenKeys(a) == SeenKeys(b)
    ensures AllResolvable(dbs, a) <==> AllResolvable(dbs, b)
  {
    if AllResolvable(dbs, a) { KeysResolve(dbs, a, b); }
    if AllResolvable(dbs, b) { KeysResolve(dbs, b, a); }
  }

  lemma KeysResolve(dbs: set<string>, a: seq<Place>, b: seq<Place>)
    requires SeenKeys(a) == SeenKeys(b) && AllResolvable(dbs, a)
    ensures AllResolvable(dbs, b)
  {
    forall i | 0 <= i < |b| ensures Resolvable(dbs, b[i]) {
      assert SeenKey(b[i]) in SeenKeys(b);
      var p :| p in a && SeenKey(p) == SeenKey(b[i]);
      SeenKeyInjective(p, b[i]);
    }
  }

  // ----- The repository as it is written -----

  class ShardedOrderRepository {
    const databases: set<string>
    const router: MappingOrderRouter
    var tables: Tables

    constructor (databases: set<string>, router: MappingOrderRouter)
      ensures this.databases == databases && this.router == router && tables == map[]
    {
      this.databases, this.router, tables := databases, router, map[];
    }

    ghost function Targets(item: Order): seq<Place>
      reads router
    {
      PlacesOf(Writes(router.fallback, router.mappings, VirtualShard(router.fallback, item.number, item.userId)))
    }

    method WriteLocations(item: Order) returns (places: seq<Place>)
      ensures AllResolvable(databases, Targets(item)) ==> places == Unique(Targets(item))
      ensures SeenKeys(places) == SeenKeys(Targets(item))
    {
      var ls := router.RouteOrderWrites(item.number, item.userId);
      places := UniqueLocations(databases, PlacesOf(ls));
    }

    /** Saved means that the order is in every target, as it was there or as given; nothing else changes. */
    method Save(item: Order, now: int) returns (r: Reply, ghost places: seq<Place>)
      modifies `tables
      ensures !router.MappingFresh(MAX_STALENESS, now) ==> r == Stale && tables == old(tables)
      ensures router.MappingFresh(MAX_STALENESS, now) ==> (tables, r) == SaveAll(databases, old(tables), places, item)
      ensures r == Saved <==> router.MappingFresh(MAX_STALENESS, now) && AllResolvable(databases, Targets(item))
      ensures AllResolvable(databases, Targets(item)) ==> places == Unique(Targets(item))
      ensures router.MappingFresh(MAX_STALENESS, now) ==> SameLocations(databases, places, Targets(item))
      ensures r == Saved ==> forall p :: p in Targets(item) ==> item.number in At(tables, p)
      ensures forall p, m :: m in At(old(tables), p) ==> m in At(tables, p) && At(tables, p)[m] == At(old(tables), p)[m]
      ensures forall p, m :: m in At(tables, p) && m !in At(old(tables), p) ==>
                At(tables, p)[m] == item && m == item.number
    {
      UniqueIsSet(Targets(item));
      places := Unique(Targets(item));
      if !router.MappingFresh(MAX_STALENESS, now) { return Stale, places; }
      var todo := WriteLocations(item);
      places := todo;
      SameKeysResolveAlike(databases, places, Targets(item));
      SaveReachesAll(databases, tables, places, item);
      while todo != []
        invariant SaveAll(databases, tables, todo, item) == SaveAll(databases, old(tables), places, item)
        decreases |todo|
      {
        var p := todo[0];
        if !Resolvable(databases, p) { return Broken, places; }
        tables := tables[p := InsertIgnore(At(tables, p), item)];
        todo := todo[1..];
      }
      return Saved, places;
    }

    lemma TargetsAreUnique(item: Order)
      ensures Updatable(databases, tables, Targets(item), item) <==>
              Updatable(databases, tables, Unique(Targets(item)), item)
      ensures forall p :: p in Unique(Targets(item)) <==> p in Targets(item)
    {
      var all := Targets(item);
      UniqueIsSet(all);
      assert all != [] && all[0] in Unique(all);
      SameMembersResolveAlike(databases, all, Unique(all));
    }

    /** Saved means that every target has the item's status and times; in any case nothing else changes. */
    method Update(item: Order, now: int) returns (r: Reply, ghost places: seq<Place>)
      modifies `tables
      ensures !router.MappingFresh(MAX_STALENESS, now) ==> r == Stale && tables == old(tables)
      ensures router.MappingFresh(MAX_STALENESS, now) ==> (tables, r) == UpdateAll(databases, old(tables), places, item)
      ensures r == Saved <==>
                router.MappingFresh(MAX_STALENESS, now) && Updatable(databases, old(tables), Targets(item), item)
      ensures r == Saved ==> forall p :: p in Targets(item) ==> Holds(At(tables, p), item)
      ensures forall p :: OnlyItem(At(old(tables), p), At(tables, p), item)
      ensures AllAdvance(old(tables), tables)
      ensures r != Missing && (router.MappingFresh(MAX_STALENESS, now) ==> r != Stale)
      ensures AllResolvable(databases, Targets(item)) ==> places == Unique(Targets(item))
      ensures router.MappingFresh(MAX_STALENESS, now) ==> SameLocations(databases, places, Targets(item))
    {
      TargetsAreUnique(item);
      places := Unique(Targets(item));
      if !router.MappingFresh(MAX_STALENESS, now) { return Stale, places; }
      var todo := WriteLocations(item);
      places := todo;
      SameKeysResolveAlike(databases, places, Targets(item));
      UpdateReachesAll(databases, tables, places, item);
      UpdateTouchesItem(databases, tables, places, item);
      while todo != []
        invariant UpdateAll(databases, tables, todo, item) == UpdateAll(databases, old(tables), places, item)
        decreases |todo|
      {
        var p := todo[0];
        if !Resolvable(databases, p) { return Broken, places; }
        var inserted := InsertIgnore(At(tables, p), item);
        if AllowedPrevious(item.status) == None {
          tables := tables[p := inserted];
          return Broken, places;
        }
        var updated := CasUpdate(inserted, item);
        tables := tables[p := updated];
        if updated == inserted && !Confirms(updated, item) { return Conflicting, places; }
        todo := todo[1..];
      }
      return Saved, places;
    }

    /** FindByOrderNumber: the row at the primary of the order's shard, if it belongs to the user. */
    method Find(number: int, userId: int, now: int) returns (r: Lookup)
      ensures r.StaleMapping? <==> !router.MappingFresh(MAX_STALENESS, now)
      ensures r.BadLocation? <==>
                router.MappingFresh(MAX_STALENESS, now) && !Resolvable(databases, Home(number, userId))
      ensures r.FoundRow? <==>
                && router.MappingFresh(MAX_STALENESS, now) && Resolvable(databases, Home(number, userId))
                && Owned(At(tables, Home(number, userId)), number, userId)
      ensures r.FoundRow? ==> r.item == At(tables, Home(number, userId))[number]
    {
      if !router.MappingFresh(MAX_STALENESS, now) { return StaleMapping; }
      var l := router.RouteOrder(number, userId);
      var p := PlaceOf(l);
      if !Resolvable(databases, p) { return BadLocation; }
      var t := At(tables, p);
      if number !in t || t[number].userId != userId { return NotFound; }
      return FoundRow(t[number]);
    }

    ghost function Home(number: int, userId: int): Place
      reads router
    {
      PlaceOf(Writes(router.fallback, router.mappings, VirtualShard(router.fallback, number, userId))[0])
    }

    lemma HomeIsTarget(item: Order)
      ensures Home(item.number, item.userId) in Targets(item)
    {
      assert Targets(item)[0] == Home(item.number, item.userId);
    }

    /**
     A command on an order: find it, mark the entity, and store it unless it was there already.
     `clock` is the time that the mark records. When it succeeds, the row that the next lookup
     finds has the new status and that time, and every other column as before.
     */
    method Change(number: int, userId: int, mark: Mark, clock: int, now: int) returns (r: Reply)
      requires forall p :: Keyed(At(tables, p))
      modifies `tables
      ensures AllAdvance(old(tables), tables) && OthersKept(old(tables), tables, number)
      ensures r == Stale <==> !router.MappingFresh(MAX_STALENESS, now)
      ensures router.MappingFresh(MAX_STALENESS, now) && !Resolvable(databases, Home(number, userId)) ==> r == Broken
      ensures router.MappingFresh(MAX_STALENESS, now) && Resolvable(databases, Home(number, userId)) ==>
                if Owned(At(old(tables), Home(number, userId)), number, userId) then
                  && (r == Saved <==>
                        old(MayChange(databases, tables, Targets(At(tables, Home(number, userId))[number]),
                                      At(tables, Home(number, userId))[number], mark)))
                  && (r == Saved ==> Owned(At(tables, Home(number, userId)), number, userId)
                                     && IsMarked(At(old(tables), Home(number, userId))[number],
                                                 At(tables, Home(number, userId))[number], mark, clock))
                else r == Missing && tables == old(tables)
    {
      var found := Find(number, userId, now);
      match found
      case StaleMapping => return Stale;
      case BadLocation => return Broken;
      case NotFound => return Missing;
      case FoundRow(item) =>
        assert Keyed(At(tables, Home(number, userId)));
        r := ChangeRow(item, mark, clock, now);
    }

    /** The command after its row was found. */
    method ChangeRow(item: Order, mark: Mark, clock: int, now: int) returns (r: Reply)
      requires router.MappingFresh(MAX_STALENESS, now)
      requires var t := At(tables, Home(item.number, item.userId)); item.number in t && t[item.number] == item
      modifies `tables
      ensures AllAdvance(old(tables), tables) && OthersKept(old(tables), tables, item.number)
      ensures r != Stale && r != Missing
      ensures r == Saved <==> MayChange(databases, old(tables), Targets(item), item, mark)
      ensures r == Saved ==> var t := At(tables, Home(item.number, item.userId));
                             item.number in t && IsMarked(item, t[item.number], mark, clock)
    {
      var entity := new OrderEntity(item);
      var marked := MarkEntity(entity, mark, clock);
      if marked == Conflict { return Conflicting; }
      if item.status == Target(mark) { return Saved; }
      var next := entity.Item();
      r := StoreRow(item, next, mark, clock, now);
    }

    method StoreRow(ghost item: Order, next: Order, ghost mark: Mark, ghost clock: int, now: int) returns (r: Reply)
      requires router.MappingFresh(MAX_STALENESS, now)
      requires var t := At(tables, Home(item.number, item.userId)); item.number in t && t[item.number] == item
      requires IsMarked(item, next, mark, clock) && Edge(item.status, Target(mark))
      modifies `tables
      ensures AllAdvance(old(tables), tables) && OthersKept(old(tables), tables, item.number)
      ensures r != Stale && r != Missing
      ensures r == Saved <==> Updatable(databases, old(tables), Targets(item), item.(status := Target(mark)))
      ensures r == Saved ==>
                var t := At(tables, Home(item.number, item.userId)); item.number in t && t[item.number] == next
    {
      HomeIsTarget(next);
      SameTargets(item, next);
      ghost var home, before := Home(item.number, item.userId), tables;
      ghost var places;
      r, places := Update(next, now);
      assert OnlyItem(At(before, home), At(tables, home), next);
    }

    lemma SameTargets(item: Order, next: Order)
      requires item.number == next.number && item.userId == next.userId
      ensures Targets(item) == Targets(next)
      ensures Updatable(databases, tables, Targets(item), item.(status := next.status)) <==>
              Updatable(databases, tables, Targets(next), next)
    {
      assert forall t :: Accepting(t, item.(status := next.status)) <==> Accepting(t, next);
    }

    method MarkEntity(entity: OrderEntity, mark: Mark, clock: int) returns (r: Result)
      modifies entity
      ensures r == Ok ==> IsMarked(old(entity.Item()), entity.Item(), mark, clock)
      ensures r == Conflict ==> entity.Item() == old(entity.Item())
      ensures r == Ok <==> old(entity.status) == Target(mark) || Edge(old(entity.status), Target(mark))
    {
      match mark
      case ToPaid => r := entity.MarkPaid(clock);
      case ToCanceled => r := entity.MarkCanceled(clock);
      case ToRefunded => r := entity.MarkRefund(clock);
    }

    /** The current primaries, counted once each; nothing on a stale mapping. */
    method ListUsage(program: int, now: int) returns (r: Option<Outcome>)
      ensures r.Some? <==> router.MappingFresh(MAX_STALENESS, now)
      ensures r.Some? ==> var places := PlacesOf(AllPrimaries(router.fallback, router.mappings));
                          && (r.value.Usages? <==> AllResolvable(databases, places))
                          && (r.value.Usages? ==> ListsCounts(r.value.rows, UsageSum(tables, Unique(places), program)))
    {
      if !router.MappingFresh(MAX_STALENESS, now) { return None; }
      var ls := router.PrimaryLocations();
      var usage := ListInventoryUsage(databases, tables, PlacesOf(ls), program);
      return Some(usage);
    }
  }
}
