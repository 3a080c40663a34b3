/**
 The order tables of all shards while shards migrate. Statements come from routers of any age, so
 a statement for an order may hit any table that ever belonged to the order's shard. The question
 is whether the primary tables together are one table: each order once, under the simple queries.
 */
module ShardedOrders {
  import opened Runs
  import opened Orders
  import opened ShardMappings
  import opened OrderUsage
  import opened FiniteSets
  import Routing

  /** `homes` records every table that a shard ever owned, as primary or as shadow. */
  datatype State = State(
    cleanTargets: bool,  // a target never belonged to another shard
    router: Routing.GeneRouter,
    rows: seq<Row>,
    tables: Tables,
    homes: set<(int, Place)>)

  datatype Action =
    | Remap(act: Act)
    | Insert(p: Place, item: Order)
    | Cas(p: Place, item: Order)
    | Copy(k: nat, keys: set<int>)

  function ShardOf(s: State, n: int): nat {
    Routing.VirtualShard(s.router, n, 0)
  }

  predicate HomeOf(s: State, v: int, p: Place) {
    (v, p) in s.homes
  }

  ghost predicate Clean(s: State, v: int, target: Place) {
    forall u :: HomeOf(s, u, target) ==> u == v
  }

  ghost function DoRemap(s: State, a: Act): Option<State> {
    match ShardMappings.Step(true, s.rows, a)
    case None => None
    case Some(rows) =>
      if a.Complete? then Some(s.(rows := rows))
      else if s.cleanTargets && !Clean(s, a.v, a.target) then None
      else Some(s.(rows := rows, homes := s.homes + {(a.v, a.target)}))
  }

  /** Copying goes from the primary to the shadow of a dual-write shard; it takes over what it finds. */
  function DoCopy(s: State, k: nat, keys: set<int>): Option<State> {
    if k < |s.rows| && s.rows[k].dual then
      var row := s.rows[k];
      Some(s.(tables := s.tables[row.shadow := Upserted(At(s.tables, row.physical), At(s.tables, row.shadow), keys)]))
    else None
  }

  ghost function Step(s: State, a: Action): Option<State> {
    match a
    case Remap(act) => DoRemap(s, act)
    case Insert(p, item) =>
      if HomeOf(s, ShardOf(s, item.number), p) then Some(s.(tables := s.tables[p := InsertIgnore(At(s.tables, p), item)])) else None
    case Cas(p, item) =>
      if HomeOf(s, ShardOf(s, item.number), p) then Some(s.(tables := s.tables[p := CasUpdate(At(s.tables, p), item)])) else None
    case Copy(k, keys) => DoCopy(s, k, keys)
  }

  // ----- The invariant -----

  function Primaries(rows: seq<Row>): seq<Place> {
    seq(|rows|, v requires 0 <= v < |rows| => rows[v].physical)
  }

  /** Every shard has its row, under its number. */
  ghost predicate Numbered(s: State) {
    |s.rows| == s.router.Shards() && forall v :: 0 <= v < |s.rows| ==> s.rows[v].virtualShard == v
  }

  ghost predicate RowsHome(s: State) {
    forall v :: 0 <= v < |s.rows| ==> HomeOf(s, v, s.rows[v].physical) && (s.rows[v].dual ==> HomeOf(s, v, s.rows[v].shadow))
  }

  ghost predicate Placed(s: State) {
    forall p, n :: n in At(s.tables, p) ==> HomeOf(s, ShardOf(s, n), p)
  }

  /** A table belongs to one shard for good. */
  ghost predicate OneOwner(s: State) {
    forall u, v, p :: HomeOf(s, u, p) && HomeOf(s, v, p) ==> u == v
  }

  ghost predicate Inv(s: State) {
    && Separate(s.rows) && Numbered(s) && RowsHome(s)
    && (s.cleanTargets ==> OneOwner(s) && Placed(s))
  }

  /** Tables that start with every order in the primary of its shard, and nobody migrating. */
  ghost predicate Opening(s: State) {
    && Separate(s.rows) && Numbered(s)
    && (forall v :: 0 <= v < |s.rows| ==> !s.rows[v].dual)
    && (forall u, p :: HomeOf(s, u, p) <==> 0 <= u < |s.rows| && s.rows[u].physical == p)
    && Placed(s)
  }

  lemma OpeningInv(s: State)
    requires Opening(s)
    ensures Inv(s)
  {
    forall u, v, p | HomeOf(s, u, p) && HomeOf(s, v, p) ensures u == v {
      assert 0 <= u < |s.rows| && 0 <= v < |s.rows| && s.rows[u].physical == s.rows[v].physical;
      assert s.rows[u].physical in Places(s.rows[u]) && s.rows[v].physical in Places(s.rows[v]);
    }
  }

  lemma RemapKeepsInv(s: State, a: Act)
    requires Inv(s) && DoRemap(s, a).Some?
    ensures Inv(DoRemap(s, a).value)
  {
    StepKeepsSeparate(true, s.rows, a);
    var s' := DoRemap(s, a).value;
    assert s'.homes == s.homes || (a.Activate? && s'.homes == s.homes + {(a.v, a.target)});
    assert s.rows[a.k].virtualShard == a.k == a.v;
    assert forall u, p :: HomeOf(s, u, p) ==> HomeOf(s', u, p);
    assert forall n :: ShardOf(s', n) == ShardOf(s, n);
    if s.cleanTargets {
      forall u, v, p | HomeOf(s', u, p) && HomeOf(s', v, p) ensures u == v {
        assert HomeOf(s, u, p) || (u == a.v && p == a.target);
        assert HomeOf(s, v, p) || (v == a.v && p == a.target);
      }
    }
  }

  lemma WriteKeepsInv(s: State, a: Action)
    requires Inv(s) && !a.Remap? && Step(s, a).Some?
    ensures Inv(Step(s, a).value)
  {
    var s' := Step(s, a).value;
    assert s' == s.(tables := s'.tables);
    assert forall v, p :: HomeOf(s', v, p) <==> HomeOf(s, v, p);
    if s.cleanTargets {
      forall p, n | n in At(s'.tables, p) ensures HomeOf(s', ShardOf(s', n), p) {
        assert ShardOf(s', n) == ShardOf(s, n);
        if n !in At(s.tables, p) && a.Copy? {
          CopyStaysHome(s, a.k, n);
        }
      }
    }
  }

  /** A copied row comes from a table of its shard and goes to a table of the same shard. */
  lemma CopyStaysHome(s: State, k: nat, n: int)
    requires Inv(s) && s.cleanTargets && k < |s.rows| && s.rows[k].dual && n in At(s.tables, s.rows[k].physical)
    ensures HomeOf(s, ShardOf(s, n), s.rows[k].shadow)
  {
    assert HomeOf(s, k, s.rows[k].physical) && HomeOf(s, ShardOf(s, n), s.rows[k].physical);
  }

  ghost predicate Reachable(s0: State, acts: seq<Action>, s: State) {
    Opening(s0) && Exec(Step, s0, acts) == Some(s)
  }

  lemma ReachableInv(s0: State, acts: seq<Action>, s: State)
    requires Reachable(s0, acts, s)
    ensures Inv(s) && s.cleanTargets == s0.cleanTargets && s.router == s0.router
  {
    var inv := (t: State) => Inv(t) && t.cleanTargets == s0.cleanTargets && t.router == s0.router;
    OpeningInv(s0);
    forall t, a | inv(t) && Step(t, a).Some? ensures inv(Step(t, a).value) {
      if a.Remap? {
        RemapKeepsInv(t, a.act);
      } else {
        WriteKeepsInv(t, a);
      }
    }
    InvariantOfRun(Step, inv, s0, acts);
  }

  // ----- One logical table -----

  /** The primary tables, taken together. */
  function Logical(s: State): Table {
    Merged(s.tables, Primaries(s.rows))
  }

  ghost predicate UsageIsExact(s: State) {
    forall program :: UsageSum(s.tables, Unique(Primaries(s.rows)), program) == Usage(Logical(s), program)
  }

  /** A list with one table of each shard, current or of an old snapshot. */
  ghost predicate IsSnapshot(s: State, places: seq<Place>) {
    |places| == |s.rows| && forall v :: 0 <= v < |places| ==> HomeOf(s, v, places[v])
  }

  /** What a lookup of one order finds. */
  function Look(s: State, places: seq<Place>, n: int): Option<Order> {
    var v := ShardOf(s, n);
    if v < |places| && n in At(s.tables, places[v]) then Some(At(s.tables, places[v])[n]) else None
  }

  /** An order is found in the table of its own shard and in no other. */
  lemma LookupInSnapshot(s: State, places: seq<Place>, n: int)
    requires Inv(s) && s.cleanTargets && IsSnapshot(s, places)
    ensures Apart(s.tables, places)
    ensures n in Merged(s.tables, places) <==> Look(s, places, n).Some?
    ensures n in Merged(s.tables, places) ==> Some(Merged(s.tables, places)[n]) == Look(s, places, n)
  {
    SnapshotApart(s, places);
    Routing.VirtualShardInRange(s.router, n, 0);
    InMerged(s.tables, places, n);
    forall i | 0 <= i < |places| && n in At(s.tables, places[i]) ensures ShardOf(s, n) == i {
      InOwnTable(s, places, i, n);
    }
  }

  lemma InOwnTable(s: State, places: seq<Place>, i: nat, n: int)
    requires Inv(s) && s.cleanTargets && IsSnapshot(s, places) && i < |places| && n in At(s.tables, places[i])
    ensures ShardOf(s, n) == i
  {
    assert HomeOf(s, ShardOf(s, n), places[i]) && HomeOf(s, i, places[i]);
  }

  lemma OwnOrdersOnly(s: State, places: seq<Place>, i: nat)
    requires Inv(s) && s.cleanTargets && IsSnapshot(s, places) && i < |places|
    ensures forall n :: n in At(s.tables, places[i]) ==> ShardOf(s, n) == i
  {
    forall n | n in At(s.tables, places[i]) ensures ShardOf(s, n) == i {
      InOwnTable(s, places, i, n);
    }
  }

  lemma SnapshotApart(s: State, places: seq<Place>)
    requires Inv(s) && s.cleanTargets && IsSnapshot(s, places)
    ensures Apart(s.tables, places)
  {
    forall i, j | 0 <= i < |places| && 0 <= j < |places| && places[i] != places[j]
      ensures At(s.tables, places[i]).Keys !! At(s.tables, places[j]).Keys
    {
      OwnOrdersOnly(s, places, i);
      OwnOrdersOnly(s, places, j);
      DisjointByTag(At(s.tables, places[i]).Keys, At(s.tables, places[j]).Keys, n => ShardOf(s, n), i, j);
    }
  }

  /** With clean targets the sharded query equals the simple one in every state, for every snapshot. */
  lemma UsageStaysExact(s0: State, acts: seq<Action>, s: State, places: seq<Place>, program: int)
    requires Reachable(s0, acts, s) && s.cleanTargets && IsSnapshot(s, places)
    ensures UsageSum(s.tables, Unique(places), program) == Usage(Merged(s.tables, places), program)
  {
    ReachableInv(s0, acts, s);
    LookupInSnapshot(s, places, 0);
    SumIsUsage(s.tables, places, program);
  }

  lemma CurrentIsSnapshot(s: State)
    requires Inv(s)
    ensures IsSnapshot(s, Primaries(s.rows))
  {
  }

  // ----- Statements on the shards are statements on the logical table -----

  ghost predicate Agrees(s: State, t: Table, n: int) {
    Look(s, Primaries(s.rows), n) == if n in t then Some(t[n]) else None
  }

  lemma LogicalIs(s: State, t: Table)
    requires Inv(s) && s.cleanTargets && forall n :: Agrees(s, t, n)
    ensures Logical(s) == t
  {
    CurrentIsSnapshot(s);
    forall n ensures n in Logical(s) <==> n in t {
      LookupInSnapshot(s, Primaries(s.rows), n);
      assert Agrees(s, t, n);
    }
    forall n | n in t ensures Logical(s)[n] == t[n] {
      LookupInSnapshot(s, Primaries(s.rows), n);
      assert Agrees(s, t, n);
    }
    assert Logical(s).Keys == t.Keys;
    SameMap(Logical(s), t);
  }

  lemma LogicalAgrees(s: State, n: int)
    requires Inv(s) && s.cleanTargets
    ensures Agrees(s, Logical(s), n)
  {
    CurrentIsSnapshot(s);
    LookupInSnapshot(s, Primaries(s.rows), n);
  }

  predicate AtPrimary(s: State, p: Place, n: int) {
    ShardOf(s, n) < |s.rows| && s.rows[ShardOf(s, n)].physical == p
  }

  /** A statement on an order's primary is that statement on the logical table; any other is invisible. */
  lemma StatementRefines(s: State, a: Action)
    requires Inv(s) && s.cleanTargets && (a.Insert? || a.Cas?) && Step(s, a).Some?
    ensures Logical(Step(s, a).value) ==
            if !AtPrimary(s, a.p, a.item.number) then Logical(s)
            else if a.Insert? then InsertIgnore(Logical(s), a.item) else CasUpdate(Logical(s), a.item)
  {
    var t := if !AtPrimary(s, a.p, a.item.number) then Logical(s)
             else if a.Insert? then InsertIgnore(Logical(s), a.item) else CasUpdate(Logical(s), a.item);
    WriteKeepsInv(s, a);
    forall n ensures Agrees(Step(s, a).value, t, n) {
      StatementAgrees(s, a, t, n);
    }
    LogicalIs(Step(s, a).value, t);
  }

  lemma StatementAgrees(s: State, a: Action, t: Table, n: int)
    requires Inv(s) && s.cleanTargets && (a.Insert? || a.Cas?) && Step(s, a).Some?
    requires t == if !AtPrimary(s, a.p, a.item.number) then Logical(s)
                  else if a.Insert? then InsertIgnore(Logical(s), a.item) else CasUpdate(Logical(s), a.item)
    ensures Agrees(Step(s, a).value, t, n)
  {
    LogicalAgrees(s, n);
    if n == a.item.number {
      OwnRowAgrees(s, a, t);
    } else {
      OtherRowAgrees(s, a, t, n);
    }
  }

  lemma OwnRowAgrees(s: State, a: Action, t: Table)
    requires (a.Insert? || a.Cas?) && Step(s, a).Some? && Agrees(s, Logical(s), a.item.number)
    requires t == if !AtPrimary(s, a.p, a.item.number) then Logical(s)
                  else if a.Insert? then InsertIgnore(Logical(s), a.item) else CasUpdate(Logical(s), a.item)
    ensures Agrees(Step(s, a).value, t, a.item.number)
  {
    assert ShardOf(Step(s, a).value, a.item.number) == ShardOf(s, a.item.number);
  }

  lemma OtherRowAgrees(s: State, a: Action, t: Table, n: int)
    requires (a.Insert? || a.Cas?) && Step(s, a).Some? && Agrees(s, Logical(s), n) && n != a.item.number
    requires n in t <==> n in Logical(s)
    requires n in t ==> t[n] == Logical(s)[n]
    ensures Agrees(Step(s, a).value, t, n)
  {
    assert ShardOf(Step(s, a).value, n) == ShardOf(s, n);
  }

  /** Copying and the start of a migration are invisible. */
  lemma CopyIsInvisible(s: State, a: Action)
    requires Inv(s) && s.cleanTargets && (a.Copy? || (a.Remap? && a.act.Activate?)) && Step(s, a).Some?
    ensures Logical(Step(s, a).value) == Logical(s)
  {
    var s' := Step(s, a).value;
    if a.Copy? {
      WriteKeepsInv(s, a);
    } else {
      RemapKeepsInv(s, a.act);
    }
    forall n ensures Agrees(s', Logical(s), n) {
      LogicalAgrees(s, n);
      var v := ShardOf(s, n);
      assert ShardOf(s', n) == v;
      assert v < |s.rows| ==> s'.rows[v].physical == s.rows[v].physical;
      if a.Copy? && v < |s.rows| && s.rows[v].physical == s.rows[a.k].shadow {
        assert HomeOf(s, v, s.rows[v].physical) && HomeOf(s, a.k, s.rows[a.k].shadow);
        ShadowIsNotPrimary(s, a.k, n);
      }
    }
    LogicalIs(s', Logical(s));
  }

  /** Even where a shadow is its shard's own primary, copying it onto itself changes nothing. */
  lemma ShadowIsNotPrimary(s: State, k: nat, n: int)
    requires Inv(s) && s.cleanTargets && k < |s.rows| && s.rows[k].dual
    requires ShardOf(s, n) < |s.rows| && s.rows[ShardOf(s, n)].physical == s.rows[k].shadow
    ensures s.rows[k].shadow == s.rows[k].physical
  {
    assert HomeOf(s, ShardOf(s, n), s.rows[k].shadow) && HomeOf(s, k, s.rows[k].shadow);
  }

  /** The cutover is invisible exactly when the shadow has become the primary's equal. */
  lemma CutOverIsInvisibleIffEqual(s: State, a: Action)
    requires Inv(s) && s.cleanTargets && a.Remap? && a.act.Complete? && Step(s, a).Some?
    ensures Logical(Step(s, a).value) == Logical(s) <==>
            At(s.tables, s.rows[a.act.k].shadow) == At(s.tables, s.rows[a.act.k].physical)
  {
    var s', k := Step(s, a).value, a.act.k;
    var before, after := At(s.tables, s.rows[k].physical), At(s.tables, s.rows[k].shadow);
    RemapKeepsInv(s, a.act);
    assert s'.rows[k].physical == s.rows[k].shadow;
    if before == after {
      forall n ensures Agrees(s', Logical(s), n) {
        LogicalAgrees(s, n);
        assert ShardOf(s', n) == ShardOf(s, n);
      }
      LogicalIs(s', Logical(s));
    }
    if Logical(s') == Logical(s) {
      forall n | n in before || n in after ensures n in before && n in after {
        OnlyOwnOrders(s, k, n);
        LogicalAgrees(s, n);
        LogicalAgrees(s', n);
        assert ShardOf(s', n) == ShardOf(s, n);
      }
      forall n | n in before ensures before[n] == after[n] {
        OnlyOwnOrders(s, k, n);
        LogicalAgrees(s, n);
        LogicalAgrees(s', n);
        assert ShardOf(s', n) == ShardOf(s, n);
      }
      assert before.Keys == after.Keys;
      SameMap(before, after);
    }
  }

  lemma OnlyOwnOrders(s: State, k: nat, n: int)
    requires Inv(s) && s.cleanTargets && k < |s.rows| && s.rows[k].dual
    requires n in At(s.tables, s.rows[k].physical) || n in At(s.tables, s.rows[k].shadow)
    ensures ShardOf(s, n) == k
  {
    assert HomeOf(s, k, s.rows[k].physical) && HomeOf(s, k, s.rows[k].shadow);
    assert HomeOf(s, ShardOf(s, n), s.rows[k].physical) || HomeOf(s, ShardOf(s, n), s.rows[k].shadow);
  }

  // ----- Whole runs on one logical table -----

  /** What an action means for the logical table: a statement on a primary is applied, nothing else is seen. */
  function Effect(s: State, a: Action, t: Table): Table {
    match a
    case Insert(p, item) => if AtPrimary(s, p, item.number) then InsertIgnore(t, item) else t
    case Cas(p, item) => if AtPrimary(s, p, item.number) then CasUpdate(t, item) else t
    case Remap(_) => t
    case Copy(_, _) => t
  }

  /** The statements on primaries, in the order of the run. */
  ghost function Replayed(s: State, acts: seq<Action>, t: Table): Table
    requires Exec(Step, s, acts).Some?
    decreases acts
  {
    if acts == [] then t else Replayed(Step(s, acts[0]).value, acts[1..], Effect(s, acts[0], t))
  }

  /** Every cutover of the run finds a shadow that is its primary's equal. */
  ghost predicate EqualCutOvers(s: State, acts: seq<Action>)
    requires Exec(Step, s, acts).Some?
    decreases acts
  {
    acts == [] ||
    (&& (acts[0].Remap? && acts[0].act.Complete? ==> EqualAt(s, acts[0].act.k))
     && EqualCutOvers(Step(s, acts[0]).value, acts[1..]))
  }

  ghost predicate EqualAt(s: State, k: nat) {
    k < |s.rows| && At(s.tables, s.rows[k].shadow) == At(s.tables, s.rows[k].physical)
  }

  lemma StepRefines(s: State, a: Action)
    requires Inv(s) && s.cleanTargets && Step(s, a).Some?
    requires a.Remap? && a.act.Complete? ==> EqualAt(s, a.act.k)
    ensures Logical(Step(s, a).value) == Effect(s, a, Logical(s))
    ensures Inv(Step(s, a).value) && Step(s, a).value.cleanTargets
  {
    if a.Insert? || a.Cas? {
      WriteKeepsInv(s, a);
      StatementRefines(s, a);
    } else if a.Copy? {
      WriteKeepsInv(s, a);
      CopyIsInvisible(s, a);
    } else {
      RemapKeepsInv(s, a.act);
      if a.act.Complete? { CutOverIsInvisibleIffEqual(s, a); } else { CopyIsInvisible(s, a); }
    }
  }

  /**
   Dual writes of any routers, activations, copies and cutovers together do to the logical table
   exactly what the statements on primaries do to one table.
   */
  lemma {:induction false} RunRefines(s: State, acts: seq<Action>, s': State)
    requires Inv(s) && s.cleanTargets && Exec(Step, s, acts) == Some(s') && EqualCutOvers(s, acts)
    ensures Logical(s') == Replayed(s, acts, Logical(s))
    decreases acts
  {
    if acts != [] {
      StepRefines(s, acts[0]);
      RunRefines(Step(s, acts[0]).value, acts[1..], s');
    }
  }

  // ----- A reused target -----

  function Letters(n: nat): (r: string)
    ensures |r| == n
  {
    seq(n, _ => 'a')
  }

  lemma NewPlace(used: set<Place>) returns (p: Place)
    ensures p !in used && p != NOWHERE
  {
    var lengths := set q | q in used :: |q.table|;
    var m := Maximum(lengths, 0);
    p := Place("d", Letters(m + 1));
    assert p in used ==> |p.table| in lengths;
  }

  /** Every table that a row or a statement has to do with. */
  ghost function Known(s: State): set<Place> {
    s.tables.Keys + (set h | h in s.homes :: h.1) +
    (set k | 0 <= k < |s.rows| :: s.rows[k].physical) + (set k | 0 <= k < |s.rows| :: s.rows[k].shadow)
  }

  /** No row names the table, and it is empty. */
  ghost predicate Free(s: State, p: Place) {
    p != NOWHERE && At(s.tables, p) == map[] && forall k :: 0 <= k < |s.rows| ==> s.rows[k].physical != p && s.rows[k].shadow != p
  }

  lemma UnknownIsFree(s: State, p: Place)
    requires p !in Known(s) && p != NOWHERE
    ensures Free(s, p)
  {
    forall k | 0 <= k < |s.rows| ensures s.rows[k].physical in Known(s) && s.rows[k].shadow in Known(s) {
    }
  }

  /** An order that no table has, of a program that no order is of. */
  lemma NewOrder(tables: Tables) returns (item: Order)
    ensures forall p, n :: p in tables && n in tables[p] ==>
              n != item.number && tables[p][n].programId != item.programId
    ensures Counted(item, item.programId) && item.categoryId == 1 && item.TicketCount() == 1
  {
    var numbers := set p, n | p in tables && n in tables[p] :: n;
    var programs := set p, n | p in tables && n in tables[p] :: tables[p][n].programId;
    var number := Maximum(numbers, 0);
    var program := Maximum(programs, 0);
    item := Order(number + 1, program + 1, 1, 1, [1], [], 100, NoPay, 0, None, None, None);
    forall p, n | p in tables && n in tables[p] ensures n <= number && tables[p][n].programId <= program {
      assert n in numbers && tables[p][n].programId in programs;
    }
  }

  /** A whole migration of one shard, which copies some of the rows. */
  lemma MoveShard(s0: State, acts: seq<Action>, s: State, v: nat, target: Place, keys: set<int>)
    returns (more: seq<Action>, s': State)
    requires Reachable(s0, acts, s) && !s.cleanTargets && v < |s.rows| && !s.rows[v].dual && s.rows[v].virtualShard == v
    requires !Taken(s.rows, v, target)
    ensures Reachable(s0, more, s')
    ensures s' == s.(rows := s.rows[v := Row(v, target, NOWHERE, false, s.rows[v].version + 2)], homes := s'.homes,
                     tables := s.tables[target := Upserted(At(s.tables, s.rows[v].physical), At(s.tables, target), keys)])
  {
    more, s' := ExtendRun(Step, s0, acts, s, Remap(Activate(v, v, s.rows[v].physical, target)));
    more, s' := ExtendRun(Step, s0, more, s', Copy(v, keys));
    more, s' := ExtendRun(Step, s0, more, s', Remap(Complete(v, v, target)));
  }

  lemma CopiedOne(source: Table, n: int)
    requires n in source
    ensures Upserted(source, map[], {n}) == map[n := source[n]]
  {
    assert Upserted(source, map[], {n}).Keys == {n};
  }

  lemma CopiedNone(source: Table, target: Table)
    ensures Upserted(source, target, {}) == target
  {
    assert Upserted(source, target, {}).Keys == target.Keys;
    SameMap(Upserted(source, target, {}), target);
  }

  /** A migration to an empty table that copies one order. */
  lemma MoveOrder(s0: State, acts: seq<Action>, s: State, v: nat, target: Place, n: int)
    returns (more: seq<Action>, s': State)
    requires Reachable(s0, acts, s) && !s.cleanTargets && v < |s.rows| && !s.rows[v].dual && s.rows[v].virtualShard == v
    requires !Taken(s.rows, v, target) && At(s.tables, target) == map[] && n in At(s.tables, s.rows[v].physical)
    ensures Reachable(s0, more, s')
    ensures s' == s.(rows := s.rows[v := Row(v, target, NOWHERE, false, s.rows[v].version + 2)], homes := s'.homes,
                     tables := s.tables[target := map[n := At(s.tables, s.rows[v].physical)[n]]])
  {
    more, s' := MoveShard(s0, acts, s, v, target, {n});
    CopiedOne(At(s.tables, s.rows[v].physical), n);
  }

  /**
   Shard v moves twice, to c and to d; then shard w moves to c. The mapping allows it, but c still
   holds an old order of shard v, which is now counted in c and in d.
   */
  lemma ReusedTargetCountsTwice(s0: State) returns (acts: seq<Action>, s: State)
    requires Opening(s0) && !s0.cleanTargets && |s0.rows| >= 2
    ensures Reachable(s0, acts, s) && !UsageIsExact(s)
  {
    var item := NewOrder(s0.tables);
    var v := ShardOf(s0, item.number);
    var w := if v == 0 then 1 else 0;
    Routing.VirtualShardInRange(s0.router, item.number, 0);
    var c := NewPlace(Known(s0));
    var d := NewPlace(Known(s0) + {c});
    UnknownIsFree(s0, c);
    UnknownIsFree(s0, d);
    acts, s := LeaveTwice(s0, item, v, c, d);
    var s1 := s;
    acts, s := MoveShard(s0, acts, s1, w, c, {});
    CopiedNone(At(s1.tables, s1.rows[w].physical), At(s1.tables, c));
    OnlyTwoHaveIt(s0, s, item, v, w, c, d);
    TwoCopies(s.tables, Primaries(s.rows), w, v, item);
  }

  ghost predicate Strange(t: Table, item: Order) {
    forall n :: n in t ==> n != item.number && t[n].programId != item.programId
  }

  /** The order is saved and its shard moves to `c`; what it leaves behind stays there. */
  lemma LeaveOnce(s0: State, item: Order, v: nat, c: Place) returns (acts: seq<Action>, s: State)
    requires Opening(s0) && !s0.cleanTargets && v < |s0.rows| && v == ShardOf(s0, item.number) && Free(s0, c)
    requires forall p, n :: p in s0.tables && n in s0.tables[p] ==> n != item.number
    ensures Reachable(s0, acts, s) && !s.cleanTargets
    ensures s.rows == s0.rows[v := Row(v, c, NOWHERE, false, s0.rows[v].version + 2)]
    ensures At(s.tables, c) == map[item.number := item]
    ensures forall p :: p != c && p != s0.rows[v].physical ==> At(s.tables, p) == At(s0.tables, p)
  {
    var home := s0.rows[v].physical;
    assert HomeOf(s0, v, home);
    var s1: State;
    acts, s1 := ExtendRun(Step, s0, [], s0, Insert(home, item));
    assert At(s1.tables, home)[item.number] == item;
    acts, s := MoveOrder(s0, acts, s1, v, c, item.number);
  }

  /** From `c` it moves on to `d`. */
  lemma LeaveTwice(s0: State, item: Order, v: nat, c: Place, d: Place) returns (acts: seq<Action>, s: State)
    requires Opening(s0) && !s0.cleanTargets && v < |s0.rows| && v == ShardOf(s0, item.number)
    requires Free(s0, c) && Free(s0, d) && c != d
    requires forall p, n :: p in s0.tables && n in s0.tables[p] ==> n != item.number
    ensures Reachable(s0, acts, s) && !s.cleanTargets
    ensures s.rows == s0.rows[v := Row(v, d, NOWHERE, false, s0.rows[v].version + 4)]
    ensures At(s.tables, c) == At(s.tables, d) == map[item.number := item]
    ensures forall p :: p != c && p != d && p != s0.rows[v].physical ==> At(s.tables, p) == At(s0.tables, p)
  {
    var s1: State;
    acts, s1 := LeaveOnce(s0, item, v, c);
    acts, s := MoveOrder(s0, acts, s1, v, d, item.number);
  }

  lemma OnlyTwoHaveIt(s0: State, s: State, item: Order, v: nat, w: nat, c: Place, d: Place)
    requires Opening(s0) && v < |s0.rows| && w < |s0.rows| && v != w && |s.rows| == |s0.rows|
    requires Free(s0, c) && Free(s0, d) && c != d
    requires forall k :: 0 <= k < |s.rows| ==>
               s.rows[k].physical == if k == v then d else if k == w then c else s0.rows[k].physical
    requires forall p :: p != c && p != d && p != s0.rows[v].physical ==> At(s.tables, p) == At(s0.tables, p)
    requires forall p, n :: p in s0.tables && n in s0.tables[p] ==>
               n != item.number && s0.tables[p][n].programId != item.programId
    ensures forall k :: 0 <= k < |s.rows| && k != v && k != w ==>
              Strange(At(s.tables, Primaries(s.rows)[k]), item) && Primaries(s.rows)[k] != c && Primaries(s.rows)[k] != d
  {
    forall k | 0 <= k < |s.rows| && k != v && k != w
      ensures Strange(At(s.tables, s.rows[k].physical), item) && s.rows[k].physical != c && s.rows[k].physical != d
    {
      assert s0.rows[k].physical in Places(s0.rows[k]) && s0.rows[v].physical in Places(s0.rows[v]);
      assert At(s.tables, s.rows[k].physical) == At(s0.tables, s.rows[k].physical);
    }
  }

  // ----- One order in two tables: the sum counts its ticket twice, the logical table once -----

  ghost predicate InTwo(tables: Tables, places: seq<Place>, i: nat, j: nat, item: Order) {
    && i < |places| && j < |places| && places[i] != places[j]
    && Counted(item, item.programId) && item.categoryId == 1 && item.TicketCount() == 1
    && At(tables, places[i]) == At(tables, places[j]) == map[item.number := item]
    && (forall k :: 0 <= k < |places| && k != i && k != j ==> Strange(At(tables, places[k]), item))
  }

  lemma TwoCopies(tables: Tables, places: seq<Place>, i: nat, j: nat, item: Order)
    requires InTwo(tables, places, i, j, item)
    ensures UsageSum(tables, Unique(places), item.programId) != Usage(Merged(tables, places), item.programId)
  {
    SummedTwice(tables, places, i, j, item);
    MergedOnce(tables, places, i, j, item);
  }

  /** No table has a negative count, and a sum of counts is at least the counts of two of them. */
  lemma {:induction false} SumCountsAll(tables: Tables, places: seq<Place>, program: int, c: int, p: Place, q: Place)
    requires forall x :: x in places ==> Count(Usage(At(tables, x), program), c) >= 0
    requires p != q
    ensures Count(UsageSum(tables, places, program), c) >=
              (if p in places then Count(Usage(At(tables, p), program), c) else 0) +
              (if q in places then Count(Usage(At(tables, q), program), c) else 0)
    decreases |places|
  {
    if places != [] {
      var k := |places| - 1;
      var front, x := places[..k], places[k];
      assert places == front + [x];
      SumCountsAll(tables, front, program, c, p, q);
      SumNext(tables, front, x, program);
      PlusCounts(UsageSum(tables, front, program), Usage(At(tables, x), program), c);
    }
  }

  lemma PlusCounts(u: map<int, int>, v: map<int, int>, c: int)
    ensures Count(Plus(u, v), c) == Count(u, c) + Count(v, c)
  {
  }

  lemma UsageOfStrange(t: Table, item: Order)
    requires Strange(t, item)
    ensures Usage(t, item.programId) == map[]
  {
    assert Categories(t, item.programId) == {};
  }

  lemma SummedTwice(tables: Tables, places: seq<Place>, i: nat, j: nat, item: Order)
    requires InTwo(tables, places, i, j, item)
    ensures Count(UsageSum(tables, Unique(places), item.programId), 1) >= 2
  {
    UsageOfOne(item.number, item, item.programId);
    UniqueIsSet(places);
    forall x | x in Unique(places) ensures Count(Usage(At(tables, x), item.programId), 1) >= 0 {
      var k :| 0 <= k < |places| && places[k] == x;
      if k != i && k != j { UsageOfStrange(At(tables, x), item); }
    }
    SumCountsAll(tables, Unique(places), item.programId, 1, places[i], places[j]);
  }

  /** What the merged table has, it has from one of the tables. */
  lemma {:induction false} MergedFrom(tables: Tables, places: seq<Place>, n: int) returns (k: nat)
    requires n in Merged(tables, places)
    ensures k < |places| && n in At(tables, places[k]) && Merged(tables, places)[n] == At(tables, places[k])[n]
    decreases |places|
  {
    var last := |places| - 1;
    if n in At(tables, places[last]) {
      k := last;
    } else {
      k := MergedFrom(tables, places[..last], n);
    }
  }

  lemma MergedOnce(tables: Tables, places: seq<Place>, i: nat, j: nat, item: Order)
    requires InTwo(tables, places, i, j, item)
    ensures Count(Usage(Merged(tables, places), item.programId), 1) == 1
  {
    var t, n := Merged(tables, places), item.number;
    InMerged(tables, places, n);
    assert n in At(tables, places[i]);
    forall m | m in t ensures if m == n then t[m] == item else t[m].programId != item.programId {
      var k := MergedFrom(tables, places, m);
      assert k != i && k != j ==> Strange(At(tables, places[k]), item);
    }
    assert Rows(t, item.programId, 1) == {n};
    CountIsOccupied(t, item.programId, 1);
    var f := x => if x in t then t[x].TicketCount() else 0;
    SumRemove({n}, f, n);
    assert {n} - {n} == {};
  }

  // ----- The exact condition -----

  /**
   The usage is exact in every run, exactly if no target ever belonged to another shard, or there is
   no other shard.
   */
  lemma UsageExactIffCleanTargets(s0: State)
    requires Opening(s0)
    ensures (forall acts, s :: Reachable(s0, acts, s) ==> UsageIsExact(s)) <==> s0.cleanTargets || |s0.rows| < 2
  {
    if s0.cleanTargets || |s0.rows| < 2 {
      forall acts, s | Reachable(s0, acts, s) ensures UsageIsExact(s) {
        ReachableInv(s0, acts, s);
        CurrentIsSnapshot(s);
        forall program ensures UsageSum(s.tables, Unique(Primaries(s.rows)), program) == Usage(Logical(s), program) {
          if s0.cleanTargets {
            UsageStaysExact(s0, acts, s, Primaries(s.rows), program);
          } else {
            SumIsUsage(s.tables, Primaries(s.rows), program);
          }
        }
      }
    } else {
      var acts, s := ReusedTargetCountsTwice(s0);
    }
  }
}
