/** Tickets in use per category, over one table or over the primary tables of all shards. */
module OrderUsage {
  import opened Orders
  import opened FiniteSets
  import opened ShardMappings

  // ----- The aggregate of one table -----

  predicate Counted(o: Order, program: int) {
    o.programId == program && o.categoryId > 0 && (o.status == NoPay || o.status == Pay)
  }

  function Rows(t: Table, program: int, c: int): set<int> {
    set n | n in t && Counted(t[n], program) && t[n].categoryId == c
  }

  function Categories(t: Table, program: int): set<int> {
    set n | n in t && Counted(t[n], program) :: t[n].categoryId
  }

  ghost function Occupied(t: Table, program: int, c: int): int {
    Sum(Rows(t, program, c), n => if n in t then t[n].TicketCount() else 0)
  }

  /** The categories with at least one counted order, each with the sum of their tickets. */
  ghost function Usage(t: Table, program: int): map<int, int> {
    map c | c in Categories(t, program) :: Occupied(t, program, c)
  }

  function Count(u: map<int, int>, c: int): int {
    if c in u then u[c] else 0
  }

  function Plus(u: map<int, int>, v: map<int, int>): map<int, int> {
    map c | c in u.Keys + v.Keys :: Count(u, c) + Count(v, c)
  }

  lemma OccupiedElsewhere(t: Table, program: int, c: int)
    requires c !in Categories(t, program)
    ensures Occupied(t, program, c) == 0
  {
    assert forall n :: n in t && Counted(t[n], program) ==> t[n].categoryId in Categories(t, program);
    assert Rows(t, program, c) == {};
  }

  /** The usage of two tables without a common order is the sum of their usages. */
  lemma UsageOfUnion(t: Table, u: Table, program: int)
    requires t.Keys !! u.Keys
    ensures Usage(t + u, program) == Plus(Usage(t, program), Usage(u, program))
  {
    var both := t + u;
    forall c ensures c in Categories(both, program) <==> c in Categories(t, program) || c in Categories(u, program) {
      CategoryOfUnion(t, u, program, c);
    }
    forall c ensures Count(Usage(both, program), c) == Count(Usage(t, program), c) + Count(Usage(u, program), c) {
      CountIsOccupied(both, program, c);
      CountIsOccupied(t, program, c);
      CountIsOccupied(u, program, c);
      OccupiedOfUnion(t, u, program, c);
    }
    IsPlus(Usage(both, program), Usage(t, program), Usage(u, program));
  }

  lemma IsPlus(w: map<int, int>, u: map<int, int>, v: map<int, int>)
    requires w.Keys == u.Keys + v.Keys
    requires forall c :: Count(w, c) == Count(u, c) + Count(v, c)
    ensures w == Plus(u, v)
  {
    assert forall c :: c in w ==> w[c] == Count(w, c);
    SameMap(w, Plus(u, v));
  }

  lemma CountIsOccupied(t: Table, program: int, c: int)
    ensures Count(Usage(t, program), c) == Occupied(t, program, c)
  {
    if c !in Categories(t, program) {
      OccupiedElsewhere(t, program, c);
    }
  }

  lemma CategoryOfUnion(t: Table, u: Table, program: int, c: int)
    requires t.Keys !! u.Keys
    ensures c in Categories(t + u, program) <==> c in Categories(t, program) || c in Categories(u, program)
  {
    var both := t + u;
    if c in Categories(t, program) {
      var n :| n in t && Counted(t[n], program) && t[n].categoryId == c;
      assert both[n] == t[n];
    }
    if c in Categories(u, program) {
      var n :| n in u && Counted(u[n], program) && u[n].categoryId == c;
      assert both[n] == u[n];
    }
  }

  lemma OccupiedOfUnion(t: Table, u: Table, program: int, c: int)
    requires t.Keys !! u.Keys
    ensures Occupied(t + u, program, c) == Occupied(t, program, c) + Occupied(u, program, c)
  {
    var both := t + u;
    var f := n => if n in both then both[n].TicketCount() else 0;
    var a, b := Rows(t, program, c), Rows(u, program, c);
    assert Rows(both, program, c) == a + b;
    SumUnion(a, b, f);
    SumSame(a, f, n => if n in t then t[n].TicketCount() else 0);
    SumSame(b, f, n => if n in u then u[n].TicketCount() else 0);
  }

  lemma UsageOfOne(n: int, o: Order, program: int)
    ensures Usage(map[n := o], program) == if Counted(o, program) then map[o.categoryId := o.TicketCount()] else map[]
  {
    var t := map[n := o];
    var f := k => if k in t then t[k].TicketCount() else 0;
    if Counted(o, program) {
      assert t[n] == o;
      assert Categories(t, program) == {o.categoryId};
      assert Rows(t, program, o.categoryId) == {n};
      SumRemove({n}, f, n);
      assert {n} - {n} == {};
    } else {
      assert Categories(t, program) == {};
    }
  }

  // ----- The simple repository: one pass over one map -----

  lemma UsageGrows(t: Table, n: int, o: Order, program: int)
    requires n !in t
    ensures Usage(t[n := o], program) == Grown(Usage(t, program), o, program)
  {
    assert t[n := o] == t + map[n := o];
    UsageOfUnion(t, map[n := o], program);
    UsageOfOne(n, o, program);
    PlusGrows(Usage(t, program), Usage(map[n := o], program), o, program);
  }

  /** What the loop does to its counts for one order. */
  function Grown(u: map<int, int>, o: Order, program: int): map<int, int> {
    if Counted(o, program) then u[o.categoryId := Count(u, o.categoryId) + o.TicketCount()] else u
  }

  lemma PlusGrows(u: map<int, int>, v: map<int, int>, o: Order, program: int)
    requires v == if Counted(o, program) then map[o.categoryId := o.TicketCount()] else map[]
    ensures Plus(u, v) == Grown(u, o, program)
  {
    PlusOne(u, o.categoryId, o.TicketCount());
  }

  lemma PlusOne(u: map<int, int>, c: int, k: int)
    ensures Plus(u, map[]) == u && Plus(u, map[c := k]) == u[c := Count(u, c) + k]
  {
  }

  method ListInventoryUsageSimple(orders: Table, program: int) returns (counts: map<int, int>)
    ensures counts == Usage(orders, program)
  {
    counts := map[];
    var todo := orders.Keys;
    ghost var done: Table := map[];
    assert Usage(done, program) == map[];
    while todo != {}
      invariant todo <= orders.Keys && done.Keys == orders.Keys - todo
      invariant PartOf(done, orders)
      invariant counts == Usage(done, program)
      decreases todo
    {
      var n := PickOne(todo);
      var item := orders[n];
      UsageGrows(done, n, item, program);
      PartGrows(done, orders, n);
      if item.programId == program && item.categoryId > 0 && (item.status == NoPay || item.status == Pay) {
        counts := counts[item.categoryId := Count(counts, item.categoryId) + item.TicketCount()];
      }
      todo, done := todo - {n}, done[n := item];
    }
    SameMap(done, orders);
  }

  // ----- The sharded repository -----

  type Tables = map<Place, Table>

  function At(tables: Tables, p: Place): Table {
    if p in tables then tables[p] else map[]
  }

  predicate IdentifierChar(c: char) {
    'A' <= c <= 'Z' || 'a' <= c <= 'z' || '0' <= c <= '9' || c == '_'
  }

  predicate Identifier(s: string) {
    s != "" && forall i :: 0 <= i < |s| ==> IdentifierChar(s[i])
  }

  predicate Resolvable(databases: set<string>, p: Place) {
    Identifier(p.database) && Identifier(p.table) && p.database in databases
  }

  /** The text under which a table is remembered as seen. */
  function SeenKey(p: Place): string {
    p.database + "." + p.table
  }

  /** A proper table shares its key with no other place. */
  lemma SeenKeyInjective(p: Place, q: Place)
    requires Identifier(p.database) && Identifier(p.table) && SeenKey(p) == SeenKey(q)
    ensures p == q
  {
    var i, j := |p.database|, |q.database|;
    OneDot(p, j);
    assert SeenKey(q)[j] == '.';
    assert SeenKey(p)[..i] == p.database && SeenKey(q)[..j] == q.database;
    assert SeenKey(p)[i + 1..] == p.table && SeenKey(q)[j + 1..] == q.table;
  }

  lemma OneDot(p: Place, k: nat)
    requires Identifier(p.database) && Identifier(p.table) && k < |SeenKey(p)|
    ensures SeenKey(p)[k] == '.' <==> k == |p.database|
  {
    var i := |p.database|;
    if k < i {
      assert SeenKey(p)[k] == p.database[k] && IdentifierChar(p.database[k]);
    } else if k > i {
      assert SeenKey(p)[k] == p.table[k - i - 1] && IdentifierChar(p.table[k - i - 1]);
    }
  }

  function SeenKeys(places: seq<Place>): set<string> {
    set p | p in places :: SeenKey(p)
  }

  /** All orders of the listed tables as one map. */
  function Merged(tables: Tables, places: seq<Place>): Table {
    if places == [] then map[] else Merged(tables, places[..|places| - 1]) + At(tables, places[|places| - 1])
  }

  /** No order lies in two different tables of the list. */
  ghost predicate Apart(tables: Tables, places: seq<Place>) {
    forall i, j :: 0 <= i < |places| && 0 <= j < |places| && places[i] != places[j] ==>
      At(tables, places[i]).Keys !! At(tables, places[j]).Keys
  }

  lemma {:induction false} InMerged(tables: Tables, places: seq<Place>, n: int)
    ensures n in Merged(tables, places) <==> exists i :: 0 <= i < |places| && n in At(tables, places[i])
    ensures Apart(tables, places) ==>
              forall i :: 0 <= i < |places| && n in At(tables, places[i]) ==>
                Merged(tables, places)[n] == At(tables, places[i])[n]
  {
    if places != [] {
      var k := |places| - 1;
      var front := places[..k];
      InMerged(tables, front, n);
      assert forall i :: 0 <= i < k ==> front[i] == places[i];
      assert Apart(tables, places) ==> Apart(tables, front);
    }
  }

  // ----- First occurrences -----

  function Unique(places: seq<Place>): seq<Place> {
    if places == [] then []
    else
      var front, p := Unique(places[..|places| - 1]), places[|places| - 1];
      if p in front then front else front + [p]
  }

  /** The same tables, each once. */
  lemma {:induction false} UniqueIsSet(places: seq<Place>)
    ensures forall p :: p in Unique(places) <==> p in places
    ensures forall i, j :: 0 <= i < j < |Unique(places)| ==> Unique(places)[i] != Unique(places)[j]
  {
    if places != [] {
      UniqueIsSet(places[..|places| - 1]);
      assert places == places[..|places| - 1] + [places[|places| - 1]];
    }
  }

  predicate AllResolvable(databases: set<string>, places: seq<Place>) {
    forall i :: 0 <= i < |places| ==> Resolvable(databases, places[i])
  }

  /** The loop that drops repeated locations, by their keys. */
  method UniqueLocations(databases: set<string>, places: seq<Place>) returns (r: seq<Place>)
    ensures SeenKeys(r) == SeenKeys(places)
    ensures AllResolvable(databases, places) ==> r == Unique(places)
  {
    r := [];
    var seen: set<string> := {};
    var i := 0;
    while i < |places|
      invariant 0 <= i <= |places|
      invariant seen == SeenKeys(places[..i]) == SeenKeys(r)
      invariant AllResolvable(databases, places[..i]) ==> r == Unique(places[..i])
    {
      assert places[..i + 1] == places[..i] + [places[i]];
      if AllResolvable(databases, places[..i + 1]) {
        AllButLast(databases, places, i);
        UniqueNext(databases, places, i);
      }
      if SeenKey(places[i]) !in seen {
        seen := seen + {SeenKey(places[i])};
        r := r + [places[i]];
      }
      i := i + 1;
    }
    assert places[..|places|] == places;
  }

  lemma AllButLast(databases: set<string>, places: seq<Place>, i: nat)
    requires i < |places|
    ensures AllResolvable(databases, places[..i + 1]) <==>
              AllResolvable(databases, places[..i]) && Resolvable(databases, places[i])
  {
    assert places[..i + 1] == places[..i] + [places[i]];
    assert places[..i + 1][i] == places[i];
    assert forall j :: 0 <= j < i ==> places[..i + 1][j] == places[..i][j];
  }

  /** A proper table is remembered exactly if its key is. */
  lemma UniqueNext(databases: set<string>, places: seq<Place>, i: nat)
    requires i < |places| && AllResolvable(databases, places[..i])
    ensures SeenKeys(places[..i + 1]) == SeenKeys(places[..i]) + {SeenKey(places[i])}
    ensures Unique(places[..i + 1]) ==
            if SeenKey(places[i]) in SeenKeys(places[..i]) then Unique(places[..i]) else Unique(places[..i]) + [places[i]]
    ensures SeenKey(places[i]) in SeenKeys(places[..i]) ==> Resolvable(databases, places[i])
  {
    var front, p := places[..i], places[i];
    assert places[..i + 1] == front + [p] && places[..i + 1][..i] == front;
    UniqueIsSet(front);
    if SeenKey(p) in SeenKeys(front) {
      var q :| q in front && SeenKey(q) == SeenKey(p);
      SeenKeyInjective(q, p);
    } else {
      assert p in front ==> SeenKey(p) in SeenKeys(front);
    }
  }

  // ----- The sharded query -----

  ghost function UsageSum(tables: Tables, places: seq<Place>, program: int): map<int, int> {
    if places == [] then map[]
    else Plus(UsageSum(tables, places[..|places| - 1], program), Usage(At(tables, places[|places| - 1]), program))
  }

  datatype UsageRow = UsageRow(category: int, occupied: int)

  /** The counts as a list, by category. */
  ghost predicate ListsCounts(rows: seq<UsageRow>, counts: map<int, int>) {
    && (forall i, j :: 0 <= i < j < |rows| ==> rows[i].category < rows[j].category)
    && (forall r :: r in rows <==> r.category in counts && counts[r.category] == r.occupied)
  }

  method InsertRow(rows: seq<UsageRow>, row: UsageRow) returns (r: seq<UsageRow>)
    requires forall i, j :: 0 <= i < j < |rows| ==> rows[i].category < rows[j].category
    requires forall i :: 0 <= i < |rows| ==> rows[i].category != row.category
    ensures forall i, j :: 0 <= i < j < |r| ==> r[i].category < r[j].category
    ensures forall x :: x in r <==> x in rows || x == row
  {
    var i := 0;
    while i < |rows| && rows[i].category < row.category
      invariant 0 <= i <= |rows|
      invariant forall j :: 0 <= j < i ==> rows[j].category < row.category
    {
      i := i + 1;
    }
    r := rows[..i] + [row] + rows[i..];
    assert rows == rows[..i] + rows[i..];
  }

  method SortRows(counts: map<int, int>) returns (rows: seq<UsageRow>)
    ensures ListsCounts(rows, counts)
  {
    rows := [];
    var todo := counts.Keys;
    while todo != {}
      invariant todo <= counts.Keys
      invariant forall i, j :: 0 <= i < j < |rows| ==> rows[i].category < rows[j].category
      invariant forall r :: r in rows <==>
                  r.category in counts && r.category !in todo && counts[r.category] == r.occupied
      decreases todo
    {
      var c := PickOne(todo);
      rows := InsertRow(rows, UsageRow(c, counts[c]));
      todo := todo - {c};
    }
  }

  datatype Outcome = Usages(rows: seq<UsageRow>) | Unresolved

  method ListInventoryUsage(databases: set<string>, tables: Tables, places: seq<Place>, program: int)
    returns (r: Outcome)
    ensures r.Usages? <==> AllResolvable(databases, places)
    ensures r.Usages? ==> ListsCounts(r.rows, UsageSum(tables, Unique(places), program))
  {
    var counts: map<int, int> := map[];
    var seen: set<string> := {};
    var i := 0;
    while i < |places|
      invariant 0 <= i <= |places|
      invariant seen == SeenKeys(places[..i])
      invariant AllResolvable(databases, places[..i])
      invariant counts == UsageSum(tables, Unique(places[..i]), program)
    {
      UniqueNext(databases, places, i);
      AllButLast(databases, places, i);
      var p := places[i];
      if SeenKey(p) !in seen {
        seen := seen + {SeenKey(p)};
        if !Resolvable(databases, p) { return Unresolved; }
        var rows := ListInventoryUsageSimple(At(tables, p), program);
        counts := Plus(counts, rows);
        SumNext(tables, Unique(places[..i]), p, program);
      }
      i := i + 1;
    }
    assert places[..|places|] == places;
    var rows := SortRows(counts);
    return Usages(rows);
  }

  lemma SumNext(tables: Tables, places: seq<Place>, p: Place, program: int)
    ensures UsageSum(tables, places + [p], program) ==
            Plus(UsageSum(tables, places, program), Usage(At(tables, p), program))
  {
    assert (places + [p])[..|places|] == places;
  }

  /** If no order lies in two tables, the sharded query equals the simple one over all orders. */
  lemma {:induction false} SumIsUsage(tables: Tables, places: seq<Place>, program: int)
    requires Apart(tables, places)
    ensures UsageSum(tables, Unique(places), program) == Usage(Merged(tables, places), program)
  {
    if places == [] {
      assert Usage(map[], program) == map[];
    } else {
      var k := |places| - 1;
      var front, p := places[..k], places[k];
      assert Apart(tables, front) by {
        assert forall i :: 0 <= i < k ==> front[i] == places[i];
      }
      SumIsUsage(tables, front, program);
      UniqueIsSet(front);
      if p in front {
        MergedAgain(tables, front, p);
      } else {
        SumNext(tables, Unique(front), p, program);
        MergedApart(tables, places);
        UsageOfUnion(Merged(tables, front), At(tables, p), program);
      }
    }
  }

  lemma MergedAgain(tables: Tables, front: seq<Place>, p: Place)
    requires Apart(tables, front) && p in front
    ensures Merged(tables, front) + At(tables, p) == Merged(tables, front)
  {
    var j :| 0 <= j < |front| && front[j] == p;
    forall n | n in At(tables, p) ensures n in Merged(tables, front) && Merged(tables, front)[n] == At(tables, p)[n] {
      InMerged(tables, front, n);
      assert n in At(tables, front[j]);
    }
  }

  lemma MergedApart(tables: Tables, places: seq<Place>)
    requires places != [] && Apart(tables, places) && places[|places| - 1] !in places[..|places| - 1]
    ensures Merged(tables, places[..|places| - 1]).Keys !! At(tables, places[|places| - 1]).Keys
  {
    var k := |places| - 1;
    assert forall i :: 0 <= i < k ==> places[i] == places[..k][i] && places[i] in places[..k];
    forall n | n in At(tables, places[k]) ensures n !in Merged(tables, places[..k]) {
      InMerged(tables, places[..k], n);
    }
  }
}
