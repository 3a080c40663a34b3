/**
 The Redis keys behind a sale: one inventory counter per ticket category, and per order a lock
 record, a rollback marker and a release marker, and per seat or ticket holder one ownership key.
 Each Lua script is one atomic function on that store; class RedisSeats runs the scripts key by
 key as they are written.
 */
module SeatStore {

  /** A seat, or a person who is to get a ticket, of one program. */
  datatype Key = Seat(program: int, id: int) | TicketUser(program: int, id: int)

  datatype Owner = Locked(order: int) | Sold(order: int)

  /** What a purchase asks for; `keys` are its seat keys followed by its ticket-user keys. */
  datatype Request = Request(category: int, count: nat, keys: seq<Key>)

  /** `locks` holds the orders whose lock hash carries their own order number. */
  datatype Store = Store(
    inventory: map<int, int>,
    locks: set<int>,
    rolledBack: set<int>,
    released: set<int>,
    owners: map<Key, Owner>)

  /** The scripts' replies -1, 0 and 1. */
  datatype Reply = Foreign | Repeated | Done

  datatype LockResult = Already | NotEnough | Unavailable | Reserved

  function Stock(st: Store, category: int): int {
    if category in st.inventory then st.inventory[category] else 0
  }

  function AddStock(st: Store, category: int, delta: int): Store {
    st.(inventory := st.inventory[category := Stock(st, category) + delta])
  }

  /** Every key is free. */
  predicate AllFree(st: Store, keys: seq<Key>) {
    forall k :: k in keys ==> k !in st.owners
  }

  /** No key belongs to somebody else; a key sold to this order counts as foreign unless `soldIsMine`. */
  predicate NoForeign(st: Store, keys: seq<Key>, o: int, soldIsMine: bool) {
    forall k :: k in keys && k in st.owners ==> st.owners[k] == Locked(o) || (soldIsMine && st.owners[k] == Sold(o))
  }

  function SetOwners(st: Store, keys: seq<Key>, owner: Owner): Store {
    st.(owners := st.owners + map k | k in keys :: owner)
  }

  /** Deletes the keys that are still locked by this order. */
  function FreeMine(st: Store, keys: seq<Key>, o: int): Store {
    st.(owners := map k | k in st.owners && !(k in keys && st.owners[k] == Locked(o)) :: st.owners[k])
  }

  function LockScript(st: Store, o: int, r: Request): (Store, LockResult) {
    if o in st.locks then (st, Already)
    else if Stock(st, r.category) < r.count then (st, NotEnough)
    else if !AllFree(st, r.keys) then (st, Unavailable)
    else
      var taken := AddStock(st, r.category, 0 - r.count);
      (SetOwners(taken.(locks := st.locks + {o}, rolledBack := st.rolledBack - {o}, released := st.released - {o}),
                 r.keys, Locked(o)), Reserved)
  }

  function GiveBack(st: Store, o: int, r: Request): Store {
    FreeMine(AddStock(st, r.category, r.count).(locks := st.locks - {o}), r.keys, o)
  }

  function RollbackScript(st: Store, o: int, r: Request): (Store, Reply) {
    if o in st.rolledBack then (st, Repeated)
    else (GiveBack(st.(rolledBack := st.rolledBack + {o}), o, r), Done)
  }

  function ConfirmScript(st: Store, o: int, r: Request): (Store, Reply) {
    if !NoForeign(st, r.keys, o, true) then (st, Foreign)
    else (SetOwners(st, r.keys, Sold(o)), Done)
  }

  function ReleaseScript(st: Store, o: int, r: Request): (Store, Reply) {
    if !NoForeign(st, r.keys, o, false) then (st, Foreign)
    else if o in st.released then (st, Repeated)
    else (GiveBack(st.(released := st.released + {o}), o, r), Done)
  }

  /** The scripts, statement by statement. */
  class RedisSeats {
    var inventory: map<int, int>
    var locks: set<int>
    var rolledBack: set<int>
    var released: set<int>
    var owners: map<Key, Owner>

    function View(): Store
      reads this
    {
      Store(inventory, locks, rolledBack, released, owners)
    }

    constructor (seeded: map<int, int>)
      ensures View() == Store(seeded, {}, {}, {}, map[])
    {
      inventory, locks, rolledBack, released, owners := seeded, {}, {}, {}, map[];
    }

    method IncrBy(category: int, delta: int)
      modifies `inventory
      ensures View() == AddStock(old(View()), category, delta)
    {
      var current := if category in inventory then inventory[category] else 0;
      inventory := inventory[category := current + delta];
    }

    method SetAll(keys: seq<Key>, owner: Owner)
      modifies `owners
      ensures View() == SetOwners(old(View()), keys, owner)
    {
      var i := 0;
      while i < |keys|
        invariant 0 <= i <= |keys|
        invariant owners == old(owners) + map k | k in keys[..i] :: owner
      {
        owners := owners[keys[i] := owner];
        i := i + 1;
        assert keys[..i] == keys[..i - 1] + [keys[i - 1]];
      }
      assert keys[..|keys|] == keys;
    }

    method DeleteMine(keys: seq<Key>, o: int)
      modifies `owners
      ensures View() == FreeMine(old(View()), keys, o)
    {
      var i := 0;
      while i < |keys|
        invariant 0 <= i <= |keys|
        invariant owners == map k | k in old(owners) && !(k in keys[..i] && old(owners)[k] == Locked(o)) :: old(owners)[k]
      {
        if keys[i] in owners && owners[keys[i]] == Locked(o) {
          owners := owners - {keys[i]};
        }
        i := i + 1;
        assert keys[..i] == keys[..i - 1] + [keys[i - 1]];
      }
      assert keys[..|keys|] == keys;
    }

    method LockInventory(o: int, r: Request) returns (result: LockResult)
      modifies this
      ensures (View(), result) == LockScript(old(View()), o, r)
    {
      var stock := if r.category in inventory then inventory[r.category] else 0;
      if o in locks { return Already; }
      if stock < r.count { return NotEnough; }
      var i := 0;
      while i < |r.keys|
        invariant 0 <= i <= |r.keys|
        invariant forall j :: 0 <= j < i ==> r.keys[j] !in owners
      {
        if r.keys[i] in owners { return Unavailable; }
        i := i + 1;
      }
      IncrBy(r.category, 0 - r.count);
      locks := locks + {o};
      rolledBack, released := rolledBack - {o}, released - {o};
      SetAll(r.keys, Locked(o));
      return Reserved;
    }

    method RollbackCreateOrder(o: int, r: Request) returns (reply: Reply)
      modifies this
      ensures (View(), reply) == RollbackScript(old(View()), o, r)
    {
      if o in rolledBack { return Repeated; }
      rolledBack := rolledBack + {o};
      IncrBy(r.category, r.count);
      locks := locks - {o};
      DeleteMine(r.keys, o);
      return Done;
    }

    method ConfirmSeatsSold(o: int, r: Request) returns (reply: Reply)
      modifies this
      ensures (View(), reply) == ConfirmScript(old(View()), o, r)
    {
      var i := 0;
      while i < |r.keys|
        invariant 0 <= i <= |r.keys|
        invariant NoForeign(View(), r.keys[..i], o, true)
      {
        if r.keys[i] in owners && owners[r.keys[i]] != Locked(o) && owners[r.keys[i]] != Sold(o) { return Foreign; }
        i := i + 1;
        assert r.keys[..i] == r.keys[..i - 1] + [r.keys[i - 1]];
      }
      assert r.keys[..|r.keys|] == r.keys;
      SetAll(r.keys, Sold(o));
      return Done;
    }

    method ReleaseSeats(o: int, r: Request) returns (reply: Reply)
      modifies this
      ensures (View(), reply) == ReleaseScript(old(View()), o, r)
    {
      var i := 0;
      while i < |r.keys|
        invariant 0 <= i <= |r.keys|
        invariant NoForeign(View(), r.keys[..i], o, false)
      {
        if r.keys[i] in owners && owners[r.keys[i]] != Locked(o) { return Foreign; }
        i := i + 1;
        assert r.keys[..i] == r.keys[..i - 1] + [r.keys[i - 1]];
      }
      assert r.keys[..|r.keys|] == r.keys;
      if o in released { return Repeated; }
      released := released + {o};
      IncrBy(r.category, r.count);
      locks := locks - {o};
      DeleteMine(r.keys, o);
      return Done;
    }
  }

  // ----- What the scripts do, key by key -----

  /** Stock changes in one category only. */
  ghost predicate StockMoves(st: Store, st': Store, category: int, delta: int) {
    forall c :: Stock(st', c) == Stock(st, c) + (if c == category then delta else 0)
  }

  ghost predicate SameOwner(st: Store, st': Store, k: Key) {
    (k in st'.owners <==> k in st.owners) && (k in st.owners ==> st'.owners[k] == st.owners[k])
  }

  /** The lock script takes exactly the tickets and the keys that were asked for, or nothing. */
  lemma LockTakesWhatIsAsked(st: Store, o: int, r: Request)
    ensures var (st', result) := LockScript(st, o, r);
            && (result == Already <==> o in st.locks)
            && (result == NotEnough <==> o !in st.locks && Stock(st, r.category) < r.count)
            && (result == Unavailable <==>
                  o !in st.locks && Stock(st, r.category) >= r.count && exists k :: k in r.keys && k in st.owners)
            && (result != Reserved ==> st' == st)
            && (result == Reserved ==>
                  && StockMoves(st, st', r.category, 0 - r.count)
                  && (forall k :: if k in r.keys then k in st'.owners && st'.owners[k] == Locked(o) else SameOwner(st, st', k))
                  && st'.locks == st.locks + {o} && st'.rolledBack == st.rolledBack - {o} && st'.released == st.released - {o})
  {
  }

  /** What a rollback or a release that takes effect does besides setting its marker. */
  ghost predicate GivesBackTo(st: Store, st': Store, o: int, r: Request) {
    && StockMoves(st, st', r.category, r.count) && st'.locks == st.locks - {o}
    && (forall k :: if k in r.keys && k in st.owners && st.owners[k] == Locked(o) then k !in st'.owners else SameOwner(st, st', k))
  }

  /** A rollback gives back once per marker, and frees only keys that this order still locks. */
  lemma RollbackGivesBackOnce(st: Store, o: int, r: Request)
    ensures var (st', reply) := RollbackScript(st, o, r);
            && (reply == Repeated <==> o in st.rolledBack) && (reply == Done <==> o !in st.rolledBack)
            && (reply == Repeated ==> st' == st)
            && (reply == Done ==> GivesBackTo(st, st', o, r) && st'.rolledBack == st.rolledBack + {o} && st'.released == st.released)
  {
  }

  /** Some key is held by another order, or sold. */
  ghost predicate Contested(st: Store, o: int, r: Request) {
    exists k :: k in r.keys && k in st.owners && st.owners[k] != Locked(o)
  }

  /** A release refuses contested keys, and otherwise gives back once per marker. */
  lemma ReleaseGivesBackOnce(st: Store, o: int, r: Request)
    ensures var (st', reply) := ReleaseScript(st, o, r);
            && (reply == Foreign <==> Contested(st, o, r))
            && (reply == Repeated <==> !Contested(st, o, r) && o in st.released)
            && (reply != Done ==> st' == st)
            && (reply == Done ==> GivesBackTo(st, st', o, r) && st'.released == st.released + {o} && st'.rolledBack == st.rolledBack)
  {
  }

  /** A confirmation sells every key of the request, or refuses because one belongs to another order. */
  lemma ConfirmSellsAllOrNothing(st: Store, o: int, r: Request)
    ensures var (st', reply) := ConfirmScript(st, o, r);
            && (reply == Foreign <==> exists k :: k in r.keys && k in st.owners && st.owners[k].order != o)
            && (reply == Foreign ==> st' == st)
            && (reply != Foreign ==>
                  && reply == Done && st'.inventory == st.inventory && st'.locks == st.locks
                  && st'.rolledBack == st.rolledBack && st'.released == st.released
                  && (forall k :: if k in r.keys then k in st'.owners && st'.owners[k] == Sold(o) else SameOwner(st, st', k)))
  {
  }

  /** A key that is sold stays sold to the same order under every script. */
  ghost predicate SoldKept(st: Store, st': Store) {
    forall k :: k in st.owners && st.owners[k].Sold? ==> k in st'.owners && st'.owners[k] == st.owners[k]
  }

  lemma LockSellsNothing(st: Store, o: int, r: Request)
    ensures var st' := LockScript(st, o, r).0;
            SoldKept(st, st') && SoldKept(st', st) && st'.released <= st.released
  {
  }

  lemma RollbackSellsNothing(st: Store, o: int, r: Request)
    ensures var st' := RollbackScript(st, o, r).0;
            SoldKept(st, st') && SoldKept(st', st) && st'.released == st.released
  {
  }

  lemma ReleaseSellsNothing(st: Store, o: int, r: Request)
    ensures var st' := ReleaseScript(st, o, r).0;
            SoldKept(st, st') && SoldKept(st', st) && st.released <= st'.released <= st.released + {o}
  {
  }

  /** A confirmation sells only to its own order, and never a key that is sold already. */
  lemma ConfirmSellsToItsOrder(st: Store, o: int, r: Request)
    ensures var st' := ConfirmScript(st, o, r).0;
            && SoldKept(st, st') && st'.released == st.released
            && forall k :: k in st'.owners && st'.owners[k].Sold? ==>
                 st'.owners[k] == Sold(o) || (k in st.owners && st.owners[k] == st'.owners[k])
  {
  }

  /** Locking and then giving back, by rollback or by release, restores counter and keys. */
  lemma GiveBackUndoesLock(st: Store, o: int, r: Request)
    requires LockScript(st, o, r).1 == Reserved
    ensures var locked := LockScript(st, o, r).0;
            var (back, done) := RollbackScript(locked, o, r);
            var (freed, did) := ReleaseScript(locked, o, r);
            && done == Done && did == Done
            && Stock(back, r.category) == Stock(st, r.category) == Stock(freed, r.category)
            && back.owners == st.owners == freed.owners
            && back.locks == st.locks == freed.locks
  {
    var locked := LockScript(st, o, r).0;
    assert FreeMine(locked, r.keys, o).owners == st.owners;
  }
}
