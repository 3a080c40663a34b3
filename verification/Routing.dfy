/** From an order to its tables: the gene router, and the router that follows a mapping table. */
module Routing {
  import opened Runs
  import opened OrderNumbers
  import opened Decimals

  datatype Location = Location(database: string, table: string, dbIndex: int, tblIndex: int)

  datatype GeneRouter = GeneRouter(dbPrefix: string, tablePrefix: string, dbCount: int, tableCount: int)
  {
    function Databases(): (n: int)
      ensures n > 0
    {
      if dbCount <= 0 then 1 else dbCount
    }

    function Tables(): (n: int)
      ensures n > 0
    {
      if tableCount <= 0 then 1 else tableCount
    }

    function Shards(): (n: int)
      ensures n > 0
    {
      Databases() * Tables()
    }

    function At(dbIndex: nat, tblIndex: nat): Location {
      Location(dbPrefix + "_" + Decimal(dbIndex), tablePrefix + "_" + Decimal(tblIndex), dbIndex, tblIndex)
    }

    /** The entry of the catalogue for a virtual shard. */
    function Slot(v: nat): Location {
      At(v / Tables(), v % Tables())
    }

    function RouteOrder(orderNumber: int, userId: int): (l: Location)
      ensures 0 <= l.dbIndex < Databases() && 0 <= l.tblIndex < Tables()
    {
      var extracted := ExtractUserGene(orderNumber);
      var gene := if extracted == 0 then UserGene(userId) else extracted;
      At((gene / Tables()) % Databases(), gene % Tables())
    }

    function Catalogue(n: nat): seq<Location> {
      seq(n, v requires 0 <= v < n => Slot(v))
    }

    lemma NextSlot(d: nat, t: nat, base: nat)
      requires t < Tables() && base == d * Tables()
      ensures Catalogue(base + t) + [At(d, t)] == Catalogue(base + t + 1)
    {
      OrderNumbers.Digit(d, t, Tables());
    }

    /** The catalogue, database by database and table by table. */
    method PrimaryLocations() returns (locations: seq<Location>)
      ensures locations == Catalogue(Shards())
    {
      locations := [];
      var d := 0;
      ghost var base := 0;
      while d < Databases()
        invariant 0 <= d <= Databases() && 0 <= base == d * Tables()
        invariant locations == Catalogue(base)
      {
        locations := AddDatabase(d, base, locations);
        NextBase(d, Tables());
        base := base + Tables();
        d := d + 1;
      }
    }

    /** The inner loop: the tables of one database. */
    method AddDatabase(d: nat, ghost base: nat, before: seq<Location>) returns (locations: seq<Location>)
      requires base == d * Tables() && before == Catalogue(base)
      ensures locations == Catalogue(base + Tables())
    {
      locations := before;
      var t := 0;
      while t < Tables()
        invariant 0 <= t <= Tables()
        invariant locations == Catalogue(base + t)
      {
        NextSlot(d, t, base);
        locations := locations + [At(d, t)];
        t := t + 1;
      }
    }
  }

  lemma NextBase(d: int, n: int)
    ensures (d + 1) * n == d * n + n
  {
  }

  /** The index of an order's location in the catalogue. */
  function VirtualShard(r: GeneRouter, orderNumber: int, userId: int): nat {
    var l := r.RouteOrder(orderNumber, userId);
    l.dbIndex * r.Tables() + l.tblIndex
  }

  lemma VirtualShardInRange(r: GeneRouter, orderNumber: int, userId: int)
    ensures VirtualShard(r, orderNumber, userId) < r.Shards()
  {
    var l := r.RouteOrder(orderNumber, userId);
    TwoDigits(l.dbIndex, l.tblIndex, r.Databases(), r.Tables());
  }

  lemma TwoDigits(high: int, low: int, highs: int, lows: int)
    requires 0 <= high < highs && 0 <= low < lows
    ensures high * lows + low < highs * lows
  {
    var k := highs - high - 1;
    assert highs * lows == high * lows + lows + k * lows;
    assert k * lows >= 0;
  }

  lemma RemainderInTwoDigits(gene: nat, databases: int, tables: int)
    requires databases > 0 && tables > 0
    ensures (gene / tables) % databases * tables + gene % tables == gene % (databases * tables)
  {
    var q := gene / tables;
    var low := q % databases * tables + gene % tables;
    var high := q / databases;
    assert gene == q * tables + gene % tables;
    assert q == high * databases + q % databases;
    assert q * tables == high * databases * tables + q % databases * tables;
    assert high * databases * tables == high * (databases * tables);
    assert 0 <= low < databases * tables by {
      assert (q % databases) * tables <= (databases - 1) * tables;
    }
    OrderNumbers.Digit(high, low, databases * tables);
  }

  /** The order number was made for this user. */
  predicate MadeFor(orderNumber: int, userId: int) {
    ExtractUserGene(orderNumber) == UserGene(userId)
  }

  /** Lookups by order and user, by user alone and by order alone meet in one table. */
  lemma LookupsAgree(r: GeneRouter, orderNumber: int, userId: int)
    requires MadeFor(orderNumber, userId)
    ensures r.RouteOrder(orderNumber, userId) == r.RouteOrder(0, userId) == r.RouteOrder(orderNumber, 0)
    ensures VirtualShard(r, orderNumber, userId) == UserGene(userId) % r.Shards()
    ensures r.Slot(VirtualShard(r, orderNumber, userId)) == r.RouteOrder(orderNumber, userId)
  {
    assert UserGene(0) == 0 && ExtractUserGene(0) == 0;
    var gene := UserGene(userId);
    RemainderInTwoDigits(gene, r.Databases(), r.Tables());
    OrderNumbers.Digit((gene / r.Tables()) % r.Databases(), gene % r.Tables(), r.Tables());
  }

  /** Every number of every run of a generator routes alike on all lookups. */
  lemma GeneratedLookupsAgree(r: GeneRouter, node: int, t: Ticker, calls: seq<Call>, i: nat)
    requires Proper(node, t) && i < |Replies(node, t, calls)| && Replies(node, t, calls)[i].Number?
    ensures var n, userId := Replies(node, t, calls)[i].n, calls[i].userId;
            && MadeFor(n, userId)
            && r.RouteOrder(n, userId) == r.RouteOrder(0, userId) == r.RouteOrder(n, 0)
            && VirtualShard(r, n, userId) == UserGene(userId) % r.Shards()
            && r.Slot(VirtualShard(r, n, userId)) == r.RouteOrder(n, userId)
  {
    NumbersDecode(node, t, calls, i);
    LookupsAgree(r, Replies(node, t, calls)[i].n, calls[i].userId);
  }

  lemma DistinctIndexesDistinctTables(r: GeneRouter, a: nat, b: nat, c: nat, d: nat)
    requires r.At(a, b).database == r.At(c, d).database && r.At(a, b).table == r.At(c, d).table
    ensures a == c && b == d
  {
    var p, q := r.dbPrefix + "_", r.tablePrefix + "_";
    assert (p + Decimal(a))[|p|..] == Decimal(a) && (p + Decimal(c))[|p|..] == Decimal(c);
    assert (q + Decimal(b))[|q|..] == Decimal(b) && (q + Decimal(d))[|q|..] == Decimal(d);
    DecimalInjective(a, c);
    DecimalInjective(b, d);
  }

  /** A name is the prefix of its own kind, an underscore, and its index in decimal. */
  lemma NamesCarryPrefixAndIndex(r: GeneRouter, d: nat, t: nat)
    ensures var l := r.At(d, t);
            && |r.dbPrefix| < |l.database| && l.database[..|r.dbPrefix|] == r.dbPrefix && l.database[|r.dbPrefix|] == '_'
            && |r.tablePrefix| < |l.table| && l.table[..|r.tablePrefix|] == r.tablePrefix && l.table[|r.tablePrefix|] == '_'
            && AllDigits(l.database[|r.dbPrefix| + 1..]) && Value(l.database[|r.dbPrefix| + 1..]) == d == l.dbIndex
            && AllDigits(l.table[|r.tablePrefix| + 1..]) && Value(l.table[|r.tablePrefix| + 1..]) == t == l.tblIndex
  {
    var l := r.At(d, t);
    ValueOfDecimal(d);
    ValueOfDecimal(t);
    assert l.database[|r.dbPrefix| + 1..] == Decimal(d);
    assert l.table[|r.tablePrefix| + 1..] == Decimal(t);
  }

  /**
   Users are spread over the shards by their number modulo 1024: different remainders modulo the
   shards, different tables.
   */
  lemma UsersSpread(r: GeneRouter, a: nat, b: nat)
    requires a % 1024 % r.Shards() != b % 1024 % r.Shards()
    ensures var l, m := r.RouteOrder(0, a), r.RouteOrder(0, b); l.database != m.database || l.table != m.table
    ensures VirtualShard(r, 0, a) == a % 1024 % r.Shards()
  {
    GenesSpread(a, b);
    var g, h := UserGene(a), UserGene(b);
    RemainderInTwoDigits(g, r.Databases(), r.Tables());
    RemainderInTwoDigits(h, r.Databases(), r.Tables());
    assert ExtractUserGene(0) == 0;
    var l, m := r.RouteOrder(0, a), r.RouteOrder(0, b);
    if l.database == m.database && l.table == m.table {
      DistinctIndexesDistinctTables(r, l.dbIndex, l.tblIndex, m.dbIndex, m.tblIndex);
    }
  }

  // ----- The router with a mapping table -----

  datatype WriteMode = Unset | PrimaryOnly | DualWrite | Unsupported

  datatype Mapping = Mapping(virtualShard: int, primary: Location, shadow: Option<Location>, mode: WriteMode, version: int)

  predicate Acceptable(m: Mapping, shards: int) {
    && 0 <= m.virtualShard < shards
    && m.primary.database != "" && m.primary.table != ""
    && m.mode != Unsupported
    && (m.mode == DualWrite ==> m.shadow.Some?)
  }

  function Normal(m: Mapping): Mapping {
    if m.mode == Unset then m.(mode := PrimaryOnly) else m
  }

  /** The table after reading the rows in turn: the last row of a shard wins. */
  function TableOf(rows: seq<Mapping>): map<int, Mapping> {
    if rows == [] then map[]
    else TableOf(rows[..|rows| - 1])[rows[|rows| - 1].virtualShard := Normal(rows[|rows| - 1])]
  }

  /** `m` is the last row for its shard. */
  predicate IsLastRow(rows: seq<Mapping>, i: int) {
    0 <= i < |rows| && forall j :: i < j < |rows| ==> rows[j].virtualShard != rows[i].virtualShard
  }

  lemma {:induction false} LastRowWins(rows: seq<Mapping>, v: int)
    ensures v in TableOf(rows) <==> exists i :: IsLastRow(rows, i) && rows[i].virtualShard == v
    ensures forall i :: IsLastRow(rows, i) && rows[i].virtualShard == v ==>
              v in TableOf(rows) && TableOf(rows)[v] == Normal(rows[i])
  {
    if rows != [] {
      var n := |rows| - 1;
      LastRowWins(rows[..n], v);
      if rows[n].virtualShard == v {
        assert IsLastRow(rows, n);
        assert forall i :: IsLastRow(rows, i) && rows[i].virtualShard == v ==> i == n;
      } else {
        forall i
          ensures IsLastRow(rows, i) && rows[i].virtualShard == v <==>
                    IsLastRow(rows[..n], i) && rows[..n][i].virtualShard == v
        {
          LastRowOfFront(rows, i, v);
        }
      }
    }
  }

  lemma LastRowOfFront(rows: seq<Mapping>, i: int, v: int)
    requires rows != [] && rows[|rows| - 1].virtualShard != v
    ensures IsLastRow(rows, i) && rows[i].virtualShard == v <==>
              IsLastRow(rows[..|rows| - 1], i) && rows[..|rows| - 1][i].virtualShard == v
  {
    var front := rows[..|rows| - 1];
    assert forall k :: 0 <= k < |front| ==> front[k] == rows[k];
  }

  /** The primary of a shard: its mapping row, or the gene router's table. */
  function Primary(r: GeneRouter, mappings: map<int, Mapping>, v: nat): Location {
    if v in mappings then mappings[v].primary else r.Slot(v)
  }

  function AllPrimaries(r: GeneRouter, mappings: map<int, Mapping>): seq<Location> {
    seq(r.Shards(), v requires 0 <= v => Primary(r, mappings, v))
  }

  /** Where a write to a shard goes: the primary, then the shadow of a dual-write row. */
  function Writes(r: GeneRouter, mappings: map<int, Mapping>, v: nat): seq<Location> {
    [Primary(r, mappings, v)] +
    (if v in mappings && mappings[v].mode == DualWrite && mappings[v].shadow.Some? then [mappings[v].shadow.value] else [])
  }

  /** With any mapping table the three lookups meet in one shard, whose catalogue entry is where the order is read. */
  lemma MappedLookupsAgree(r: GeneRouter, mappings: map<int, Mapping>, orderNumber: int, userId: int)
    requires MadeFor(orderNumber, userId)
    ensures var v := VirtualShard(r, orderNumber, userId);
            && v == VirtualShard(r, 0, userId) == VirtualShard(r, orderNumber, 0) == UserGene(userId) % r.Shards()
            && v < r.Shards()
            && AllPrimaries(r, mappings)[v] == Writes(r, mappings, v)[0]
            && (v !in mappings ==> AllPrimaries(r, mappings)[v] == r.RouteOrder(orderNumber, userId))
  {
    LookupsAgree(r, orderNumber, userId);
    VirtualShardInRange(r, orderNumber, userId);
  }

  class MappingOrderRouter {
    const fallback: GeneRouter
    var mappings: map<int, Mapping>
    var refreshedAt: Option<int>

    constructor (fallback: GeneRouter)
      ensures this.fallback == fallback && mappings == map[] && refreshedAt == None
    {
      this.fallback, mappings, refreshedAt := fallback, map[], None;
    }

    /** All rows or none: a bad row leaves the old table and its age. */
    method ReplaceMappings(rows: seq<Mapping>, now: int) returns (ok: bool)
      modifies this
      ensures ok <==> forall i :: 0 <= i < |rows| ==> Acceptable(rows[i], fallback.Shards())
      ensures ok ==> mappings == TableOf(rows) && refreshedAt == Some(now)
      ensures !ok ==> unchanged(this)
    {
      var next: map<int, Mapping> := map[];
      var i := 0;
      while i < |rows|
        invariant 0 <= i <= |rows|
        invariant forall j :: 0 <= j < i ==> Acceptable(rows[j], fallback.Shards())
        invariant next == TableOf(rows[..i])
        invariant unchanged(this)
      {
        var m := rows[i];
        if m.virtualShard < 0 || m.virtualShard >= fallback.Shards() { return false; }
        if m.primary.database == "" || m.primary.table == "" { return false; }
        if m.mode == Unset { m := m.(mode := PrimaryOnly); }
        if m.mode != PrimaryOnly && m.mode != DualWrite { return false; }
        if m.mode == DualWrite && m.shadow == None { return false; }
        next := next[m.virtualShard := m];
        i := i + 1;
        assert rows[..i][..i - 1] == rows[..i - 1];
      }
      assert rows[..|rows|] == rows;
      mappings, refreshedAt := next, Some(now);
      return true;
    }

    predicate MappingFresh(maxAge: int, now: int)
      reads this
    {
      maxAge > 0 && refreshedAt.Some? && now - refreshedAt.value <= maxAge
    }

    method RouteOrder(orderNumber: int, userId: int) returns (l: Location)
      ensures l == Writes(fallback, mappings, VirtualShard(fallback, orderNumber, userId))[0]
    {
      var gene := fallback.RouteOrder(orderNumber, userId);
      var v := gene.dbIndex * fallback.Tables() + gene.tblIndex;
      OrderNumbers.Digit(gene.dbIndex, gene.tblIndex, fallback.Tables());
      l := if v in mappings then mappings[v].primary else gene;
    }

    method RouteOrderWrites(orderNumber: int, userId: int) returns (ls: seq<Location>)
      ensures ls == Writes(fallback, mappings, VirtualShard(fallback, orderNumber, userId))
      ensures var v := VirtualShard(fallback, orderNumber, userId);
              && (v !in mappings ==> ls == [fallback.RouteOrder(orderNumber, userId)])
              && (v in mappings ==> ls[0] == mappings[v].primary)
              && (v in mappings && mappings[v].mode == DualWrite && mappings[v].shadow.Some? ==>
                    |ls| == 2 && ls[1] == mappings[v].shadow.value)
              && (v in mappings && (mappings[v].mode != DualWrite || mappings[v].shadow.None?) ==> |ls| == 1)
    {
      var gene := fallback.RouteOrder(orderNumber, userId);
      var v := gene.dbIndex * fallback.Tables() + gene.tblIndex;
      OrderNumbers.Digit(gene.dbIndex, gene.tblIndex, fallback.Tables());
      if v !in mappings { return [gene]; }
      ls := [mappings[v].primary];
      if mappings[v].mode == DualWrite && mappings[v].shadow.Some? {
        ls := ls + [mappings[v].shadow.value];
      }
    }

    /** The catalogue at the index of an order's shard is where the order is read and first written. */
    method PrimaryLocations() returns (ls: seq<Location>)
      ensures ls == AllPrimaries(fallback, mappings)
    {
      var base := fallback.PrimaryLocations();
      ls := [];
      var v := 0;
      while v < |base|
        invariant 0 <= v <= |base| && |ls| == v
        invariant forall k :: 0 <= k < v ==> ls[k] == Primary(fallback, mappings, k)
      {
        ls := ls + [if v in mappings then mappings[v].primary else base[v]];
        v := v + 1;
      }
    }
  }
}
