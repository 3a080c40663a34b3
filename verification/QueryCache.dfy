/**
 The cached reads of one program: a local cache per node, Redis, and the source rows. Readers race
 with invalidations. A reader stores to Redis only if the generation it read before loading is
 still current, and to its local cache only under the stripe lock after comparing generations; an
 invalidation raises the generation and is announced to the nodes, which delete under that lock.
 Every action is one Redis command or script, one source read, or one step under a held lock.

 Ghost data: `inval[b]` is the version of the source when the b-th invalidation script ran, and an
 entry remembers the version it was loaded from and the number of invalidations before its load.
 */
module QueryCache {
  import opened Runs
  import FiniteSets

  datatype Key = Info | Categories

  datatype Entry = Entry(key: Key, gen: nat, bump: nat, version: nat)

  datatype Pc =
    | HasData(entry: Entry)          // read from Redis before taking the lock
    | Locked
    | LockedData(entry: Entry)       // read from Redis under the lock, or carried into it
    | HasGen(gen: nat, bump: nat)    // generation read, source not loaded yet
    | Loaded(entry: Entry)
    | Storing(entry: Entry)          // accepted; the local store is next

  datatype Reader = Reader(node: int, key: Key, pc: Pc)

  /** The keys that the handling of announcement `bump` has still to clear. */
  datatype Clearing = Clearing(bump: nat, keys: set<Key>)

  datatype State = State(
    quietExpiry: bool,
    src: nat,
    gen: Option<nat>,
    inval: seq<nat>,
    redis: map<Key, Entry>,
    local: map<(int, Key), Entry>,
    locks: map<(int, Key), int>,
    readers: map<int, Reader>,
    unsent: set<nat>,
    inbox: set<(int, nat)>,
    clearing: map<int, Clearing>,
    cleared: map<(int, Key), nat>)

  datatype Reading =
    | FetchUnlocked(id: int, node: int, key: Key)
    | Lock(id: int, node: int, key: Key)
    | LockWithData(id: int)
    | FetchLocked(id: int)
    | CheckGen(id: int)
    | ReadGen(id: int)
    | LoadSource(id: int)
    | StoreRedis(id: int)
    | StoreLocal(id: int)
    | Leave(id: int)

  datatype Action =
    | Read(reading: Reading)
    | WriteSource
    | Invalidate
    | Announce(bump: nat, nodes: set<int>)
    | Receive(node: int, bump: nat)
    | ClearKey(node: int, key: Key)
    | EvictLocal(node: int, key: Key)
    | EvictRedis(key: Key)
    | ExpireGen

  /** A missing generation key reads as "0". */
  function Current(gen: Option<nat>): nat {
    match gen
    case None => 0
    case Some(g) => g
  }

  function Bumps(s: State): int {
    |s.inval| - 1
  }

  // ----- The two scripts -----

  function InvalidateScript(gen: Option<nat>, redis: map<Key, Entry>, keys: seq<Key>): (Option<nat>, map<Key, Entry>) {
    (Some(Current(gen) + 1), redis - set k | k in keys)
  }

  function StoreScript(gen: Option<nat>, redis: map<Key, Entry>, key: Key, entry: Entry): (map<Key, Entry>, bool) {
    if Current(gen) != entry.gen then (redis, false) else (redis[key := entry], true)
  }

  const CACHE_KEYS: seq<Key> := [Info, Categories]

  /** The scripts as they run in Redis. */
  class RedisCache {
    var gen: Option<nat>
    var redis: map<Key, Entry>

    method RunInvalidate(keys: seq<Key>)
      modifies this
      ensures (gen, redis) == InvalidateScript(old(gen), old(redis), keys)
      ensures gen == Some(if old(gen).Some? then old(gen.value) + 1 else 1)
      ensures forall k :: k in redis <==> k in old(redis) && k !in keys
      ensures forall k :: k in redis ==> redis[k] == old(redis)[k]
    {
      gen := Some(Current(gen) + 1);
      var i := 0;
      while i < |keys|
        invariant 0 <= i <= |keys|
        invariant gen == Some(Current(old(gen)) + 1)
        invariant redis == old(redis) - set k | k in keys[..i]
      {
        redis := redis - {keys[i]};
        i := i + 1;
        assert keys[..i] == keys[..i - 1] + [keys[i - 1]];
      }
      assert keys[..|keys|] == keys;
    }

    method RunStore(key: Key, entry: Entry) returns (stored: bool)
      modifies `redis
      ensures (redis, stored) == StoreScript(gen, old(redis), key, entry)
      ensures stored <==> entry.gen == if gen.Some? then gen.value else 0
      ensures redis == if stored then old(redis)[key := entry] else old(redis)
    {
      if Current(gen) != entry.gen { return false; }
      redis := redis[key := entry];
      return true;
    }
  }

  // ----- Readers -----

  function Goto(s: State, id: int, pc: Pc): State
    requires id in s.readers
  {
    s.(readers := s.readers[id := s.readers[id].(pc := pc)])
  }

  /** The reader returns; the deferred unlock runs. */
  function DoLeave(s: State, id: int): State
    requires id in s.readers
  {
    var slot := (s.readers[id].node, s.readers[id].key);
    var freed := if slot in s.locks && s.locks[slot] == id then s.(locks := s.locks - {slot}) else s;
    freed.(readers := s.readers - {id})
  }

  function StepReading(s: State, a: Reading): Option<State> {
    match a
    case FetchUnlocked(id, node, key) =>
      if id !in s.readers && key in s.redis then
        Some(s.(readers := s.readers[id := Reader(node, key, HasData(s.redis[key]))]))
      else None
    case Lock(id, node, key) =>
      if id !in s.readers && (node, key) !in s.locks then
        Some(s.(readers := s.readers[id := Reader(node, key, Locked)], locks := s.locks[(node, key) := id]))
      else None
    case LockWithData(id) =>
      if id in s.readers && s.readers[id].pc.HasData? && (s.readers[id].node, s.readers[id].key) !in s.locks then
        Some(Goto(s, id, LockedData(s.readers[id].pc.entry)).(locks := s.locks[(s.readers[id].node, s.readers[id].key) := id]))
      else None
    case FetchLocked(id) =>
      if id in s.readers && s.readers[id].pc.Locked? && s.readers[id].key in s.redis then
        Some(Goto(s, id, LockedData(s.redis[s.readers[id].key])))
      else None
    case CheckGen(id) =>
      if id in s.readers && s.readers[id].pc.LockedData? then
        var e := s.readers[id].pc.entry;
        Some(if Current(s.gen) == e.gen then Goto(s, id, Storing(e)) else DoLeave(s, id))
      else None
    case ReadGen(id) =>
      if id in s.readers && s.readers[id].pc.Locked? && Bumps(s) >= 0 then
        Some(Goto(s, id, HasGen(Current(s.gen), Bumps(s))))
      else None
    case LoadSource(id) =>
      if id in s.readers && s.readers[id].pc.HasGen? then
        Some(Goto(s, id, Loaded(Entry(s.readers[id].key, s.readers[id].pc.gen, s.readers[id].pc.bump, s.src))))
      else None
    case StoreRedis(id) =>
      if id in s.readers && s.readers[id].pc.Loaded? then
        var (redis, stored) := StoreScript(s.gen, s.redis, s.readers[id].key, s.readers[id].pc.entry);
        Some(if stored then Goto(s, id, Storing(s.readers[id].pc.entry)).(redis := redis) else DoLeave(s, id))
      else None
    case StoreLocal(id) =>
      if id in s.readers && s.readers[id].pc.Storing? then
        var r := s.readers[id];
        Some(DoLeave(s.(local := s.local[(r.node, r.key) := r.pc.entry]), id))
      else None
    case Leave(id) => if id in s.readers then Some(DoLeave(s, id)) else None
  }

  // ----- Invalidation -----

  function DoInvalidate(s: State): State {
    var (gen, redis) := InvalidateScript(s.gen, s.redis, CACHE_KEYS);
    s.(gen := gen, redis := redis, inval := s.inval + [s.src], unsent := s.unsent + {|s.inval|})
  }

  function DoClearKey(s: State, node: int, key: Key): Option<State> {
    if node in s.clearing && key in s.clearing[node].keys && (node, key) !in s.locks then
      var c := s.clearing[node];
      var seen := if (node, key) in s.cleared then s.cleared[(node, key)] else 0;
      Some(s.(local := s.local - {(node, key)},
              clearing := s.clearing[node := c.(keys := c.keys - {key})],
              cleared := s.cleared[(node, key) := if seen < c.bump then c.bump else seen]))
    else None
  }

  /** The key of this node has been cleared for an announcement after `bump`, or one such is on its way to it. */
  predicate Overtakes(s: State, slot: (int, Key), bump: nat) {
    || ClearedUpTo(s, slot) > bump
    || (exists b :: b in s.unsent && b > bump)
    || (exists m :: m in s.inbox && m.0 == slot.0 && m.1 > bump)
    || (slot.0 in s.clearing && slot.1 in s.clearing[slot.0].keys && s.clearing[slot.0].bump > bump)
  }

  /**
   The reader still relies on a generation it has read. One that holds an entry under the stripe
   lock does so only if its node has already handled a later announcement; one that is yet to take
   the lock, only if the generation number can come round, or if such an announcement is out.
   */
  predicate Relies(s: State, r: Reader) {
    match r.pc
    case HasData(e) => e.gen > 0 || Overtakes(s, (r.node, r.key), e.bump)
    case HasGen(_, _) => true
    case Loaded(_) => true
    case LockedData(e) => ClearedUpTo(s, (r.node, r.key)) > e.bump
    case Locked => false
    case Storing(_) => false
  }

  /** The generation key expires; quietly means that no entry is filed under it and no reader relies on one. */
  predicate MayExpireGen(s: State) {
    s.quietExpiry ==>
      s.gen == None || ((forall k :: k !in s.redis) && (forall id :: id in s.readers ==> !Relies(s, s.readers[id])))
  }

  function Step(s: State, a: Action): Option<State> {
    match a
    case Read(b) => StepReading(s, b)
    case WriteSource => Some(s.(src := s.src + 1))
    case Invalidate => Some(DoInvalidate(s))
    case Announce(b, nodes) =>
      if b in s.unsent then Some(s.(unsent := s.unsent - {b}, inbox := s.inbox + set n | n in nodes :: (n, b))) else None
    case Receive(node, b) =>
      if (node, b) in s.inbox && (node in s.clearing ==> s.clearing[node].keys == {}) then
        Some(s.(inbox := s.inbox - {(node, b)}, clearing := s.clearing[node := Clearing(b, {Info, Categories})]))
      else None
    case ClearKey(node, key) => DoClearKey(s, node, key)
    case EvictLocal(node, key) => if (node, key) in s.locks then None else Some(s.(local := s.local - {(node, key)}))
    case EvictRedis(key) => Some(s.(redis := s.redis - {key}))
    case ExpireGen => if MayExpireGen(s) then Some(s.(gen := None)) else None
  }

  ghost predicate Initial(s: State) {
    && s.gen == None && s.inval == [0]
    && s.redis == map[] && s.local == map[] && s.locks == map[] && s.readers == map[]
    && s.unsent == {} && s.inbox == {} && s.clearing == map[] && s.cleared == map[]
  }

  ghost predicate Reachable(s0: State, acts: seq<Action>, s: State) {
    Exec(Step, s0, acts) == Some(s)
  }

  // ----- The invariant -----

  /** The last announcement of which this node has cleared this key. */
  function ClearedUpTo(s: State, slot: (int, Key)): nat {
    if slot in s.cleared then s.cleared[slot] else 0
  }

  /** The entry is at least as new as the source was at the invalidation it was filed under. */
  predicate Honest(s: State, e: Entry) {
    e.bump < |s.inval| && e.version >= s.inval[e.bump] && e.version <= s.src
  }

  /** Generations and invalidations have moved in step since this pair was read. */
  predicate InStep(s: State, gen: nat, bump: nat) {
    bump < |s.inval| && Bumps(s) - bump == Current(s.gen) - gen
  }

  /** An entry from before any generation passes the comparison only while nothing can overtake it. */
  predicate Unnumbered(s: State, slot: (int, Key), e: Entry) {
    e.gen == 0 && (s.gen == None ==> !Overtakes(s, slot, e.bump))
  }

  predicate ReaderOk(s: State, id: int, r: Reader) {
    && (!r.pc.HasData? ==> (r.node, r.key) in s.locks && s.locks[(r.node, r.key)] == id)
    && (match r.pc
        case HasData(e) => e.key == r.key && Honest(s, e) && (InStep(s, e.gen, e.bump) || Unnumbered(s, (r.node, r.key), e))
        case Locked => true
        case LockedData(e) =>
          && e.key == r.key && Honest(s, e)
          && (InStep(s, e.gen, e.bump) || ClearedUpTo(s, (r.node, r.key)) <= e.bump || (e.gen == 0 && s.gen.Some?))
        case HasGen(g, b) => InStep(s, g, b)
        case Loaded(e) => e.key == r.key && Honest(s, e) && InStep(s, e.gen, e.bump)
        case Storing(e) => e.key == r.key && Honest(s, e) && ClearedUpTo(s, (r.node, r.key)) <= e.bump)
  }

  /** Every live Redis entry is one of its own key that was loaded after the last invalidation. */
  predicate RedisFresh(s: State) {
    forall k :: k in s.redis ==> s.redis[k].key == k && Honest(s, s.redis[k]) && s.redis[k].bump == Bumps(s)
  }

  /** Every local entry is one of its own key, and not older than the last announcement its node has handled. */
  predicate LocalFresh(s: State) {
    forall slot :: slot in s.local ==>
      s.local[slot].key == slot.1 && Honest(s, s.local[slot]) && ClearedUpTo(s, slot) <= s.local[slot].bump
  }

  ghost predicate MessagesOk(s: State) {
    && (forall b :: b in s.unsent ==> b < |s.inval|)
    && (forall m :: m in s.inbox ==> m.1 < |s.inval|)
    && (forall n :: n in s.clearing ==> s.clearing[n].bump < |s.inval|)
    && (forall slot :: slot in s.cleared ==> s.cleared[slot] < |s.inval|)
  }

  ghost predicate ReadersOk(s: State) {
    forall id :: id in s.readers ==> ReaderOk(s, id, s.readers[id])
  }

  ghost predicate CountersOk(s: State) {
    && s.quietExpiry && (s.gen.Some? ==> s.gen.value >= 1)
    && |s.inval| > 0 && (forall b :: 0 <= b < |s.inval| ==> s.inval[b] <= s.src)
    && (forall b, c :: 0 <= b <= c < |s.inval| ==> s.inval[b] <= s.inval[c])
  }

  ghost predicate CachesOk(s: State) {
    && RedisFresh(s) && (forall k :: k in s.redis ==> s.redis[k].gen == Current(s.gen))
    && LocalFresh(s)
    && MessagesOk(s)
  }

  ghost predicate Inv(s: State) {
    CountersOk(s) && CachesOk(s) && ReadersOk(s)
  }

  /** Nothing that a waiting reader depends on changes, and no announcement comes up. */
  ghost predicate SameForReaders(s: State, s': State) {
    && s.src <= s'.src && s'.inval == s.inval && s'.gen == s.gen && s'.locks == s.locks && s'.readers == s.readers
    && (forall slot :: slot in s.locks ==> ClearedUpTo(s', slot) == ClearedUpTo(s, slot))
    && (forall slot, b :: Overtakes(s', slot, b) ==> Overtakes(s, slot, b))
  }

  lemma ReadersStay(s: State, s': State)
    requires ReadersOk(s) && SameForReaders(s, s')
    ensures ReadersOk(s')
  {
    forall id | id in s'.readers ensures ReaderOk(s', id, s'.readers[id]) { ReaderStays(s, s', id, s.readers[id]); }
  }

  lemma ReaderStays(s: State, s': State, id: int, r: Reader)
    requires ReaderOk(s, id, r) && SameForReaders(s, s')
    ensures ReaderOk(s', id, r)
  {
  }

  /** A reader moves on, taking at most a lock that was free. */
  lemma MoveKeepsInv(s: State, s': State, id: int)
    requires Inv(s) && id in s'.readers && s' == s.(readers := s.readers[id := s'.readers[id]], locks := s'.locks)
    requires s'.locks == s.locks ||
             ((s'.readers[id].node, s'.readers[id].key) !in s.locks &&
              s'.locks == s.locks[(s'.readers[id].node, s'.readers[id].key) := id])
    requires ReaderOk(s', id, s'.readers[id])
    ensures Inv(s')
  {
    forall k | k in s'.readers ensures ReaderOk(s', k, s'.readers[k]) {
      if k != id { OtherReaderStays(s, s', k, s.readers[k]); }
    }
  }

  /** Locks of others and the readers themselves do not matter to a reader. */
  lemma OtherReaderStays(s: State, s': State, k: int, r: Reader)
    requires ReaderOk(s, k, r) && s' == s.(readers := s'.readers, locks := s'.locks)
    requires forall slot :: slot in s.locks && s.locks[slot] == k ==> slot in s'.locks && s'.locks[slot] == k
    ensures ReaderOk(s', k, r)
  {
    assert forall slot, b :: Overtakes(s', slot, b) == Overtakes(s, slot, b);
  }

  lemma LeaveKeepsInv(s: State, id: int)
    requires Inv(s) && id in s.readers
    ensures Inv(DoLeave(s, id))
  {
    assert ReaderOk(s, id, s.readers[id]);
    FreeingKeepsInv(s, DoLeave(s, id), id);
  }

  /** A reader goes, and with it at most the lock that it held. */
  lemma FreeingKeepsInv(s: State, s': State, id: int)
    requires Inv(s) && id in s.readers && s' == s.(readers := s.readers - {id}, locks := s'.locks)
    requires forall slot :: slot in s.locks && s.locks[slot] != id ==>
               slot in s'.locks && s'.locks[slot] == s.locks[slot]
    ensures Inv(s')
  {
    forall k | k in s'.readers ensures ReaderOk(s', k, s'.readers[k]) {
      OtherReaderStays(s, s', k, s.readers[k]);
    }
  }

  /** Storing an honest entry that the node's announcements do not forbid. */
  lemma LocalStoreKeepsInv(s: State, s': State, slot: (int, Key), e: Entry)
    requires Inv(s) && e.key == slot.1 && Honest(s, e) && ClearedUpTo(s, slot) <= e.bump
    requires s' == s.(local := s.local[slot := e])
    ensures Inv(s')
  {
    ReadersStay(s, s');
    assert CachesOk(s');
  }

  lemma RedisStoreKeepsInv(s: State, s': State, key: Key, e: Entry)
    requires Inv(s) && e.key == key && Honest(s, e) && e.bump == Bumps(s) && e.gen == Current(s.gen)
    requires s' == s.(redis := s.redis[key := e])
    ensures Inv(s')
  {
    ReadersStay(s, s');
    assert CachesOk(s');
  }

  lemma CheckGenKeepsInv(s: State, id: int)
    requires Inv(s) && StepReading(s, CheckGen(id)).Some?
    ensures Inv(StepReading(s, CheckGen(id)).value)
  {
    var s', r := StepReading(s, CheckGen(id)).value, s.readers[id];
    assert ReaderOk(s, id, r);
    if Current(s.gen) == r.pc.entry.gen { MoveKeepsInv(s, s', id); } else { LeaveKeepsInv(s, id); }
  }

  lemma StoreRedisKeepsInv(s: State, id: int)
    requires Inv(s) && StepReading(s, StoreRedis(id)).Some?
    ensures Inv(StepReading(s, StoreRedis(id)).value)
  {
    var s', r := StepReading(s, StoreRedis(id)).value, s.readers[id];
    assert ReaderOk(s, id, r);
    if Current(s.gen) == r.pc.entry.gen {
      var stored := s.(redis := s.redis[r.key := r.pc.entry]);
      RedisStoreKeepsInv(s, stored, r.key, r.pc.entry);
      MoveKeepsInv(stored, s', id);
    } else {
      LeaveKeepsInv(s, id);
    }
  }

  lemma StoreLocalKeepsInv(s: State, id: int)
    requires Inv(s) && StepReading(s, StoreLocal(id)).Some?
    ensures Inv(StepReading(s, StoreLocal(id)).value)
  {
    var r := s.readers[id];
    assert ReaderOk(s, id, r);
    var stored := s.(local := s.local[(r.node, r.key) := r.pc.entry]);
    LocalStoreKeepsInv(s, stored, (r.node, r.key), r.pc.entry);
    LeaveKeepsInv(stored, id);
  }

  lemma ReadingKeepsInv(s: State, a: Reading)
    requires Inv(s) && StepReading(s, a).Some?
    ensures Inv(StepReading(s, a).value)
  {
    if a.StoreRedis? {
      StoreRedisKeepsInv(s, a.id);
    } else if a.StoreLocal? {
      StoreLocalKeepsInv(s, a.id);
    } else if a.CheckGen? {
      CheckGenKeepsInv(s, a.id);
    } else if a.Leave? {
      LeaveKeepsInv(s, a.id);
    } else {
      assert a.id in s.readers ==> ReaderOk(s, a.id, s.readers[a.id]);
      MoveKeepsInv(s, StepReading(s, a).value, a.id);
    }
  }

  lemma InvalidateKeepsInv(s: State)
    requires Inv(s)
    ensures Inv(DoInvalidate(s))
  {
    InvalidateClears(s);
    InvalidateKeepsReaders(s, DoInvalidate(s));
    assert CountersOk(DoInvalidate(s));
    assert CachesOk(DoInvalidate(s));
  }

  lemma InvalidateClears(s: State)
    ensures DoInvalidate(s).redis == map[]
  {
    forall k: Key ensures k in CACHE_KEYS {
      match k
      case Info => assert CACHE_KEYS[0] == k;
      case Categories => assert CACHE_KEYS[1] == k;
    }
  }

  lemma InvalidateKeepsReaders(s: State, s': State)
    requires ReadersOk(s) && s' == DoInvalidate(s)
    ensures ReadersOk(s')
  {
    forall id | id in s'.readers ensures ReaderOk(s', id, s'.readers[id]) { assert ReaderOk(s, id, s.readers[id]); }
  }

  lemma ClearKeyKeepsInv(s: State, node: int, key: Key)
    requires Inv(s) && DoClearKey(s, node, key).Some?
    ensures Inv(DoClearKey(s, node, key).value)
  {
    ClearKeyOvertakesNothing(s, node, key, DoClearKey(s, node, key).value);
    ReadersStay(s, DoClearKey(s, node, key).value);
    ClearKeyKeepsCaches(s, node, key);
  }

  lemma ClearKeyOvertakesNothing(s: State, node: int, key: Key, s': State)
    requires DoClearKey(s, node, key) == Some(s')
    ensures SameForReaders(s, s')
  {
  }

  lemma ClearKeyKeepsCaches(s: State, node: int, key: Key)
    requires CountersOk(s) && CachesOk(s) && DoClearKey(s, node, key).Some?
    ensures CountersOk(DoClearKey(s, node, key).value) && CachesOk(DoClearKey(s, node, key).value)
  {
  }

  lemma AnnounceKeepsInv(s: State, a: Action)
    requires Inv(s) && Step(s, a).Some? && (a.Announce? || a.Receive?)
    ensures Inv(Step(s, a).value)
  {
    var s' := Step(s, a).value;
    if a.Announce? { AnnounceOvertakesNothing(s, a.bump, a.nodes, s'); } else { ReceiveOvertakesNothing(s, a.node, a.bump, s'); }
    ReadersStay(s, s');
    assert RedisFresh(s');
    assert LocalFresh(s');
    assert MessagesOk(s');
  }

  lemma AnnounceOvertakesNothing(s: State, bump: nat, nodes: set<int>, s': State)
    requires Step(s, Announce(bump, nodes)) == Some(s')
    ensures SameForReaders(s, s')
  {
  }

  lemma ReceiveOvertakesNothing(s: State, node: int, bump: nat, s': State)
    requires Step(s, Receive(node, bump)) == Some(s')
    ensures SameForReaders(s, s')
  {
    forall slot, b | Overtakes(s', slot, b) ensures Overtakes(s, slot, b) {
      if slot.0 == node && bump > b { assert (node, bump) in s.inbox; }
    }
  }

  lemma EvictKeepsInv(s: State, a: Action)
    requires Inv(s) && Step(s, a).Some? && (a.EvictLocal? || a.EvictRedis? || a.WriteSource?)
    ensures Inv(Step(s, a).value)
  {
    var s' := Step(s, a).value;
    EvictOvertakesNothing(s, s');
    ReadersStay(s, s');
    EvictKeepsCaches(s, a);
  }

  lemma EvictOvertakesNothing(s: State, s': State)
    requires s.src <= s'.src && s' == s.(src := s'.src, redis := s'.redis, local := s'.local)
    ensures SameForReaders(s, s')
  {
  }

  lemma EvictKeepsCaches(s: State, a: Action)
    requires CountersOk(s) && CachesOk(s) && Step(s, a).Some? && (a.EvictLocal? || a.EvictRedis? || a.WriteSource?)
    ensures CountersOk(Step(s, a).value) && CachesOk(Step(s, a).value)
  {
    match a
    case EvictLocal(node, key) => FewerEntriesOk(s, s.(local := s.local - {(node, key)}));
    case EvictRedis(key) => FewerEntriesOk(s, s.(redis := s.redis - {key}));
    case WriteSource => FewerEntriesOk(s, s.(src := s.src + 1));
  }

  lemma FewerEntriesOk(s: State, s': State)
    requires CountersOk(s) && CachesOk(s) && s.src <= s'.src
    requires s' == s.(src := s'.src, redis := s'.redis, local := s'.local)
    requires forall k :: k in s'.redis ==> k in s.redis && s'.redis[k] == s.redis[k]
    requires forall slot :: slot in s'.local ==> slot in s.local && s'.local[slot] == s.local[slot]
    ensures CountersOk(s') && CachesOk(s')
  {
    assert MessagesOk(s');
  }

  lemma ExpireKeepsInv(s: State)
    requires Inv(s) && Step(s, ExpireGen).Some?
    ensures Inv(Step(s, ExpireGen).value)
  {
    var s' := s.(gen := None);
    if s.gen.Some? {
      forall id | id in s'.readers
        ensures ReaderOk(s', id, s'.readers[id])
      {
        ReaderLetsExpire(s, s', id, s.readers[id]);
      }
    }
  }

  lemma ReaderLetsExpire(s: State, s': State, id: int, r: Reader)
    requires ReaderOk(s, id, r) && !Relies(s, r) && s' == s.(gen := None)
    ensures ReaderOk(s', id, r)
  {
    assert forall slot, b :: Overtakes(s', slot, b) == Overtakes(s, slot, b);
  }

  lemma MessageStepsKeepInv(s: State, a: Action)
    requires Inv(s) && Step(s, a).Some? && !a.Read? && !a.Invalidate? && !a.ClearKey?
    ensures Inv(Step(s, a).value)
  {
    if a.Announce? || a.Receive? {
      AnnounceKeepsInv(s, a);
    } else if a.ExpireGen? {
      ExpireKeepsInv(s);
    } else {
      EvictKeepsInv(s, a);
    }
  }

  lemma StepKeepsInv(s: State, a: Action)
    requires Inv(s) && Step(s, a).Some?
    ensures Inv(Step(s, a).value)
  {
    match a
    case Read(b) => ReadingKeepsInv(s, b);
    case Invalidate => InvalidateKeepsInv(s);
    case ClearKey(node, key) => ClearKeyKeepsInv(s, node, key);
    case _ => MessageStepsKeepInv(s, a);
  }

  /**
   In every interleaving of readers and invalidations, every live Redis entry was loaded after the
   last invalidation, and no local entry is older than the last announcement its node has handled:
   each shows the source at least as it was then.
   */
  lemma CacheIsFresh(s0: State, acts: seq<Action>, s: State)
    requires Initial(s0) && s0.quietExpiry && Reachable(s0, acts, s)
    ensures RedisFresh(s) && LocalFresh(s)
    ensures forall k :: k in s.redis ==> s.redis[k].key == k && s.redis[k].version >= s.inval[Bumps(s)]
    ensures forall slot :: slot in s.local ==>
              && s.local[slot].key == slot.1
              && ClearedUpTo(s, slot) < |s.inval| && s.local[slot].version >= s.inval[ClearedUpTo(s, slot)]
  {
    ReachableInv(s0, acts, s);
  }

  lemma LockQuietly(s: State, id: int, node: int, key: Key) returns (acts: seq<Action>, s': State)
    requires id !in s.readers && (node, key) !in s.locks && Bumps(s) >= 0
    ensures Exec(Step, s, acts) == Some(s')
    ensures s' == s.(readers := s.readers[id := Reader(node, key, HasGen(Current(s.gen), Bumps(s)))],
                     locks := s.locks[(node, key) := id])
  {
    acts, s' := ExtendRun(Step, s, [], s, Read(Lock(id, node, key)));
    acts, s' := ExtendRun(Step, s, acts, s', Read(ReadGen(id)));
  }

  /** A reader takes the lock of its key and loads the source. */
  lemma LoadQuietly(s: State, id: int, node: int, key: Key) returns (acts: seq<Action>, s': State)
    requires id !in s.readers && (node, key) !in s.locks && Bumps(s) >= 0
    ensures Exec(Step, s, acts) == Some(s')
    ensures s' == s.(readers := s.readers[id := Reader(node, key, Loaded(Entry(key, Current(s.gen), Bumps(s), s.src)))],
                     locks := s.locks[(node, key) := id])
  {
    acts, s' := LockQuietly(s, id, node, key);
    acts, s' := ExtendRun(Step, s, acts, s', Read(LoadSource(id)));
  }

  /** A reader under its lock puts an accepted entry into its node's cache and leaves. */
  lemma StoreQuietly(t: State, acts: seq<Action>, s: State, id: int, slot: (int, Key), e: Entry)
    returns (more: seq<Action>, s': State)
    requires Exec(Step, t, acts) == Some(s)
    requires id in s.readers && s.readers[id] == Reader(slot.0, slot.1, Storing(e)) && slot in s.locks
    requires s.locks[slot] == id
    ensures Exec(Step, t, more) == Some(s')
    ensures s' == s.(local := s.local[slot := e], readers := s.readers - {id}, locks := s.locks - {slot})
  {
    more, s' := ExtendRun(Step, t, acts, s, Read(StoreLocal(id)));
  }

  /** A reader alone on its key: it loads the source as it is now and leaves it in Redis and in its node's cache. */
  lemma QuietReadCaches(s: State, id: int, node: int, key: Key) returns (acts: seq<Action>, s': State)
    requires id !in s.readers && (node, key) !in s.locks && Bumps(s) >= 0
    ensures Exec(Step, s, acts) == Some(s')
    ensures var e := Entry(key, Current(s.gen), Bumps(s), s.src);
            s' == s.(redis := s.redis[key := e], local := s.local[(node, key) := e])
  {
    var e := Entry(key, Current(s.gen), Bumps(s), s.src);
    acts, s' := LoadQuietly(s, id, node, key);
    acts, s' := ExtendRun(Step, s, acts, s', Read(StoreRedis(id)));
    acts, s' := StoreQuietly(s, acts, s', id, (node, key), e);
    assert s'.readers == s.readers;
    assert s'.locks == s.locks;
  }

  /** A reader of another node that finds the entry in Redis takes it over as it is. */
  lemma RedisEntryIsTakenOver(s: State, id: int, node: int, key: Key) returns (acts: seq<Action>, s': State)
    requires id !in s.readers && (node, key) !in s.locks && key in s.redis && s.redis[key].gen == Current(s.gen)
    ensures Exec(Step, s, acts) == Some(s') && s' == s.(local := s.local[(node, key) := s.redis[key]])
  {
    acts, s' := FetchQuietly(s, id, node, key);
    acts, s' := StoreQuietly(s, acts, s', id, (node, key), s.redis[key]);
    assert s'.readers == s.readers;
    assert s'.locks == s.locks;
  }

  lemma FetchAndLock(s: State, id: int, node: int, key: Key) returns (acts: seq<Action>, s': State)
    requires id !in s.readers && (node, key) !in s.locks && key in s.redis
    ensures Exec(Step, s, acts) == Some(s')
    ensures s' == s.(readers := s.readers[id := Reader(node, key, LockedData(s.redis[key]))], locks := s.locks[(node, key) := id])
  {
    acts, s' := ExtendRun(Step, s, [], s, Read(FetchUnlocked(id, node, key)));
    acts, s' := ExtendRun(Step, s, acts, s', Read(LockWithData(id)));
  }

  lemma FetchQuietly(s: State, id: int, node: int, key: Key) returns (acts: seq<Action>, s': State)
    requires id !in s.readers && (node, key) !in s.locks && key in s.redis && s.redis[key].gen == Current(s.gen)
    ensures Exec(Step, s, acts) == Some(s')
    ensures s' == s.(readers := s.readers[id := Reader(node, key, Storing(s.redis[key]))], locks := s.locks[(node, key) := id])
  {
    acts, s' := FetchAndLock(s, id, node, key);
    acts, s' := ExtendRun(Step, s, acts, s', Read(CheckGen(id)));
  }

  lemma ReachableInv(s0: State, acts: seq<Action>, s: State)
    requires Initial(s0) && s0.quietExpiry && Reachable(s0, acts, s)
    ensures Inv(s)
  {
    forall t, a | Inv(t) && Step(t, a).Some? ensures Inv(Step(t, a).value) { StepKeepsInv(t, a); }
    InvariantOfRun(Step, Inv, s0, acts);
  }

  // ----- When the generation key expires under live data -----

  ghost predicate AlwaysFresh(s0: State) {
    forall acts, s :: Reachable(s0, acts, s) ==> RedisFresh(s) && LocalFresh(s)
  }

  /** Generation 1 is read, expires, is reached again, and the stale load passes the comparison. */
  lemma ExpiryCanServeStale(s0: State) returns (acts: seq<Action>, s: State)
    requires Initial(s0) && !s0.quietExpiry
    ensures Reachable(s0, acts, s) && !RedisFresh(s)
  {
    acts, s := LoadAtGenerationOne(s0);
    acts, s := ExtendRun(Step, s0, acts, s, ExpireGen);
    acts, s := ExtendRun(Step, s0, acts, s, WriteSource);
    acts, s := ExtendRun(Step, s0, acts, s, Invalidate);
    acts, s := ExtendRun(Step, s0, acts, s, Read(StoreRedis(0)));
    assert Info in s.redis && s.redis[Info].bump == 1 && Bumps(s) == 2;
  }

  lemma LoadAtGenerationOne(s0: State) returns (acts: seq<Action>, s: State)
    requires Initial(s0) && !s0.quietExpiry
    ensures Reachable(s0, acts, s) && !s.quietExpiry && Bumps(s) == 1 && s.gen == Some(1)
    ensures 0 in s.readers && s.readers[0].key == Info && s.readers[0].pc.Loaded? && s.readers[0].pc.entry.gen == 1
    ensures s.readers[0].pc.entry.bump == 1
  {
    acts, s := ExtendRun(Step, s0, [], s0, Invalidate);
    acts, s := ExtendRun(Step, s0, acts, s, Read(Lock(0, 0, Info)));
    acts, s := ExtendRun(Step, s0, acts, s, Read(ReadGen(0)));
    acts, s := ExtendRun(Step, s0, acts, s, Read(LoadSource(0)));
  }

  /** The caches are fresh in every run if and only if the generation key only expires quietly. */
  lemma FreshIffExpiryIsQuiet(s0: State)
    requires Initial(s0)
    ensures AlwaysFresh(s0) <==> s0.quietExpiry
  {
    if s0.quietExpiry {
      forall acts, s | Reachable(s0, acts, s) ensures RedisFresh(s) && LocalFresh(s) { CacheIsFresh(s0, acts, s); }
    } else {
      var acts, s := ExpiryCanServeStale(s0);
    }
  }

  // ----- What a loud expiry does -----

  ghost predicate Stale(s: State) {
    !RedisFresh(s) || !LocalFresh(s)
  }

  ghost predicate CanGetStale(s: State) {
    exists acts, u :: Exec(Step, s, acts) == Some(u) && Stale(u)
  }

  /** Some invalidations in a row. */
  lemma {:induction false} InvalidateTimes(t: State, n: nat) returns (acts: seq<Action>, u: State)
    ensures Exec(Step, t, acts) == Some(u)
    ensures u == t.(gen := u.gen, redis := u.redis, inval := u.inval, unsent := u.unsent)
    ensures Current(u.gen) == Current(t.gen) + n && |u.inval| == |t.inval| + n && (n > 0 ==> |u.inval| - 1 in u.unsent)
  {
    if n == 0 {
      acts, u := [], t;
    } else {
      acts, u := InvalidateTimes(t, n - 1);
      acts, u := ExtendRun(Step, t, acts, u, Invalidate);
    }
  }

  /** A loaded entry waits until its generation number comes round again. */
  lemma LoadedGetsStale(t: State, id: int)
    requires t.gen == None && id in t.readers && t.readers[id].pc.Loaded?
    requires var e := t.readers[id].pc.entry; e.bump < |t.inval| && (e.gen > 0 || e.bump < Bumps(t))
    ensures CanGetStale(t)
  {
    var e, key := t.readers[id].pc.entry, t.readers[id].key;
    var acts, u := InvalidateTimes(t, e.gen);
    acts, u := ExtendRun(Step, t, acts, u, Read(StoreRedis(id)));
    assert key in u.redis && u.redis[key] == e && e.bump != Bumps(u);
  }

  lemma GenerationGetsStale(t: State, id: int)
    requires t.gen == None && id in t.readers && t.readers[id].pc.HasGen?
    requires var pc := t.readers[id].pc; pc.bump < |t.inval| && (pc.gen > 0 || pc.bump < Bumps(t))
    ensures CanGetStale(t)
  {
    var acts, u := ExtendRun(Step, t, [], t, Read(LoadSource(id)));
    LoadedGetsStale(u, id);
    var more, v :| Exec(Step, u, more) == Some(v) && Stale(v);
    ExecSplits(Step, t, acts, more);
  }

  lemma LockedGetsStale(t: State, id: int)
    requires t.gen == None && id in t.readers && t.readers[id].pc.LockedData? && Relies(t, t.readers[id])
    ensures CanGetStale(t)
  {
    var acts, u := InvalidateTimes(t, t.readers[id].pc.entry.gen);
    PassAndStore(t, acts, u, id);
  }

  /** An entry is fetched on a new node, which then handles an announcement before it stores the entry. */
  lemma EntryGetsStale(t: State, key: Key, id: int, node: int)
    requires t.gen == None && key in t.redis && t.redis[key].gen > 0 && t.redis[key].bump < |t.inval|
    requires id !in t.readers && node !in t.clearing && (node, key) !in t.locks && (node, key) !in t.cleared
    ensures CanGetStale(t)
  {
    var e := t.redis[key];
    var acts, u := ExtendRun(Step, t, [], t, Read(FetchUnlocked(id, node, key)));
    var t1 := u;
    var more, t2 := InvalidateTimes(t1, e.gen);
    ExecSplits(Step, t, acts, more);
    acts, u := HandleAt(t, acts + more, t2, |t2.inval| - 1, node, key);
    StoreBehind(t, acts, u, id);
  }

  /** A fetched entry is stored behind its node, since its generation number has come round again. */
  lemma StoreBehind(t: State, acts: seq<Action>, u: State, id: int)
    requires Exec(Step, t, acts) == Some(u) && id in u.readers && u.readers[id].pc.HasData?
    requires var r := u.readers[id];
             && (r.node, r.key) !in u.locks && Current(u.gen) == r.pc.entry.gen && ClearedUpTo(u, (r.node, r.key)) > r.pc.entry.bump
    ensures CanGetStale(t)
  {
    var more, v := ExtendRun(Step, t, acts, u, Read(LockWithData(id)));
    PassAndStore(t, more, v, id);
  }

  lemma PassAndStore(t: State, acts: seq<Action>, u: State, id: int)
    requires Exec(Step, t, acts) == Some(u) && id in u.readers && u.readers[id].pc.LockedData?
    requires Current(u.gen) == u.readers[id].pc.entry.gen && Relies(u, u.readers[id])
    ensures CanGetStale(t)
  {
    var more, v := ExtendRun(Step, t, acts, u, Read(CheckGen(id)));
    assert v == Goto(u, id, Storing(u.readers[id].pc.entry));
    StoreStale(t, more, v, id);
  }

  lemma StoreStale(t: State, acts: seq<Action>, u: State, id: int)
    requires Exec(Step, t, acts) == Some(u) && id in u.readers && u.readers[id].pc.Storing?
    requires ClearedUpTo(u, (u.readers[id].node, u.readers[id].key)) > u.readers[id].pc.entry.bump
    ensures CanGetStale(t)
  {
    var slot, e := (u.readers[id].node, u.readers[id].key), u.readers[id].pc.entry;
    var more, v := ExtendRun(Step, t, acts, u, Read(StoreLocal(id)));
    StoredEntry(u, id);
    BehindIsStale(v, slot);
  }

  lemma StoredEntry(u: State, id: int)
    requires id in u.readers && u.readers[id].pc.Storing?
    ensures var r, v := u.readers[id], StepReading(u, StoreLocal(id)).value;
            (r.node, r.key) in v.local && v.local[(r.node, r.key)] == r.pc.entry && v.cleared == u.cleared
  {
  }

  lemma BehindIsStale(v: State, slot: (int, Key))
    requires slot in v.local && ClearedUpTo(v, slot) > v.local[slot].bump
    ensures Stale(v)
  {
  }

  /** An announcement that is out is handled by one node, which clears the key. */
  lemma HandleAt(t: State, acts: seq<Action>, u: State, b: nat, node: int, key: Key)
    returns (more: seq<Action>, v: State)
    requires Exec(Step, t, acts) == Some(u) && (b in u.unsent || (node, b) in u.inbox)
    requires (node in u.clearing ==> u.clearing[node].keys == {}) && (node, key) !in u.locks
    ensures Exec(Step, t, more) == Some(v) && v.gen == u.gen && v.readers == u.readers && v.locks == u.locks
    ensures ClearedUpTo(v, (node, key)) >= b
  {
    more, v := acts, u;
    if (node, b) !in u.inbox {
      more, v := ExtendRun(Step, t, more, v, Announce(b, {node}));
    }
    assert (node, b) in v.inbox;
    more, v := ExtendRun(Step, t, more, v, Receive(node, b));
    more, v := ExtendRun(Step, t, more, v, ClearKey(node, key));
  }

  lemma NewNode(s: State, key: Key) returns (node: int)
    ensures node !in s.clearing && (node, key) !in s.locks && (node, key) !in s.cleared
  {
    var used := s.clearing.Keys + (set slot | slot in s.locks :: slot.0) + (set slot | slot in s.cleared :: slot.0);
    var m := FiniteSets.Maximum(used, 0);
    node := m + 1;
    assert (node, key) in s.locks ==> (node, key).0 in used;
    assert (node, key) in s.cleared ==> (node, key).0 in used;
  }

  // ----- A reader between its fetch and the lock -----

  /** Locks are held by readers of the same slot that have taken them. */
  ghost predicate Held(s: State) {
    forall slot :: slot in s.locks ==>
      && s.locks[slot] in s.readers
      && var r := s.readers[s.locks[slot]];
      (r.node, r.key) == slot && !r.pc.HasData?
  }

  /** A reader that takes a free lock, or moves on under its own, or is new. */
  lemma MoveKeepsHeld(s: State, s': State, id: int)
    requires Held(s) && id in s'.readers && s'.readers == s.readers[id := s'.readers[id]]
    requires var r := s'.readers[id];
             && (id in s.readers ==> s.readers[id].node == r.node && s.readers[id].key == r.key)
             && (s'.locks == s.locks || (s'.locks == s.locks[(r.node, r.key) := id] && !r.pc.HasData?))
             && (r.pc.HasData? ==> id !in s.readers)
    ensures Held(s')
  {
  }

  lemma LeaveKeepsHeld(s: State, id: int)
    requires Held(s) && id in s.readers
    ensures Held(DoLeave(s, id))
  {
  }

  lemma StoringKeepsHeld(s: State, a: Reading)
    requires Held(s) && (a.CheckGen? || a.StoreRedis? || a.StoreLocal?) && StepReading(s, a).Some?
    ensures Held(StepReading(s, a).value)
  {
    match a
    case CheckGen(id) =>
      LeaveKeepsHeld(s, id);
      MoveKeepsHeld(s, Goto(s, id, Storing(s.readers[id].pc.entry)), id);
    case StoreRedis(id) =>
      LeaveKeepsHeld(s, id);
      MoveKeepsHeld(s, Goto(s, id, Storing(s.readers[id].pc.entry)), id);
    case StoreLocal(id) => LeaveKeepsHeld(s.(local := s.local[(s.readers[id].node, s.readers[id].key) := s.readers[id].pc.entry]), id);
  }

  lemma ReadingKeepsHeld(s: State, a: Reading)
    requires Held(s) && StepReading(s, a).Some?
    ensures Held(StepReading(s, a).value)
  {
    if a.CheckGen? || a.StoreRedis? || a.StoreLocal? {
      StoringKeepsHeld(s, a);
    } else if a.Leave? {
      LeaveKeepsHeld(s, a.id);
    } else {
      MoveKeepsHeld(s, StepReading(s, a).value, a.id);
    }
  }

  lemma StepKeepsHeld(s: State, a: Action)
    requires Held(s) && Step(s, a).Some?
    ensures Held(Step(s, a).value)
  {
    match a
    case Read(b) => ReadingKeepsHeld(s, b);
    case _ => assert Step(s, a).value.locks == s.locks && Step(s, a).value.readers == s.readers;
  }

  lemma ReachableHeld(s0: State, acts: seq<Action>, s: State)
    requires Initial(s0) && Reachable(s0, acts, s)
    ensures Held(s)
  {
    forall t, a | Held(t) && Step(t, a).Some? ensures Held(Step(t, a).value) { StepKeepsHeld(t, a); }
    InvariantOfRun(Step, Held, s0, acts);
  }

  /** Other readers have left and pending clearings are done; reader `id` still has what it fetched. */
  ghost predicate Quieter(t: State, u: State, id: int) {
    && u.gen == t.gen && u.inval == t.inval && u.unsent == t.unsent && u.inbox == t.inbox && Held(u)
    && id in t.readers && id in u.readers && u.readers[id] == t.readers[id] && u.readers[id].pc.HasData?
    && (forall slot :: slot in u.locks ==> slot in t.locks)
    && (forall n :: n in u.clearing ==>
          && n in t.clearing && u.clearing[n].bump == t.clearing[n].bump
          && u.clearing[n].keys <= t.clearing[n].keys)
    && (forall slot :: ClearedUpTo(t, slot) <= ClearedUpTo(u, slot))
  }

  /** The holder of a lock, if any, leaves. */
  lemma FreeSlot(t: State, acts: seq<Action>, u: State, slot: (int, Key), id: int) returns (more: seq<Action>, v: State)
    requires Exec(Step, t, acts) == Some(u) && Held(u) && id in u.readers && u.readers[id].pc.HasData?
    ensures Exec(Step, t, more) == Some(v) && slot !in v.locks && Quieter(u, v, id)
    ensures v == u.(readers := v.readers, locks := v.locks)
  {
    more, v := acts, u;
    if slot in u.locks {
      more, v := ExtendRun(Step, t, acts, u, Read(Leave(u.locks[slot])));
    }
  }

  /** One key of a node is freed and, if its clearing is pending, cleared. */
  lemma ClearPending(t: State, acts: seq<Action>, u: State, slot: (int, Key), id: int)
    returns (more: seq<Action>, v: State)
    requires Exec(Step, t, acts) == Some(u) && Held(u) && id in u.readers && u.readers[id].pc.HasData?
    ensures Exec(Step, t, more) == Some(v) && slot !in v.locks && Quieter(u, v, id)
    ensures slot.0 in v.clearing ==> slot.1 !in v.clearing[slot.0].keys
    ensures forall n :: n in u.clearing ==> n in v.clearing && u.clearing[n].keys - {slot.1} <= v.clearing[n].keys
    ensures slot.0 in u.clearing && slot.1 in u.clearing[slot.0].keys ==>
              ClearedUpTo(v, slot) >= u.clearing[slot.0].bump
  {
    more, v := FreeSlot(t, acts, u, slot, id);
    if slot.0 in v.clearing && slot.1 in v.clearing[slot.0].keys {
      var w := v;
      more, v := ExtendRun(Step, t, more, v, ClearKey(slot.0, slot.1));
      ClearedIsQuieter(w, v, slot, id);
    }
  }

  lemma ClearedIsQuieter(u: State, v: State, slot: (int, Key), id: int)
    requires Held(u) && id in u.readers && u.readers[id].pc.HasData? && DoClearKey(u, slot.0, slot.1) == Some(v)
    ensures Quieter(u, v, id) && v.clearing.Keys == u.clearing.Keys
    ensures slot !in v.locks && slot.1 !in v.clearing[slot.0].keys && ClearedUpTo(v, slot) >= u.clearing[slot.0].bump
    ensures forall n :: n in u.clearing ==> n in v.clearing && u.clearing[n].keys - {slot.1} <= v.clearing[n].keys
  {
  }

  /** A node becomes idle, with its reader still before the lock. */
  lemma Quiesce(t: State, node: int, id: int) returns (acts: seq<Action>, u: State)
    requires Held(t) && id in t.readers && t.readers[id].pc.HasData?
    ensures Exec(Step, t, acts) == Some(u) && Quieter(t, u, id)
    ensures forall key :: (node, key) !in u.locks
    ensures node in u.clearing ==> u.clearing[node].keys == {}
    ensures forall key :: node in t.clearing && key in t.clearing[node].keys ==>
              ClearedUpTo(u, (node, key)) >= t.clearing[node].bump
  {
    var first: State;
    acts, first := ClearPending(t, [], t, (node, Info), id);
    acts, u := ClearPending(t, acts, first, (node, Categories), id);
    forall key ensures (node, key) !in u.locks && (node in u.clearing ==> key !in u.clearing[node].keys) {
      match key
      case Info => assert (node, Info) !in first.locks;
      case Categories =>
    }
    forall key | node in t.clearing && key in t.clearing[node].keys
      ensures ClearedUpTo(u, (node, key)) >= t.clearing[node].bump
    {
      match key
      case Info => assert ClearedUpTo(first, (node, Info)) <= ClearedUpTo(u, (node, Info));
      case Categories =>
    }
  }

  /** A fetched entry waits until its node has handled a later announcement and its number is current. */
  lemma FetchedGetsStale(t: State, id: int)
    requires Held(t) && t.gen == None && id in t.readers && t.readers[id].pc.HasData? && Relies(t, t.readers[id])
    requires t.readers[id].pc.entry.bump < |t.inval|
    ensures CanGetStale(t)
  {
    var r, e := t.readers[id], t.readers[id].pc.entry;
    var acts, u := Quiesce(t, r.node, id);
    if e.gen > 0 {
      var more, w := InvalidateTimes(u, e.gen);
      ExecSplits(Step, t, acts, more);
      acts, u := HandleAt(t, acts + more, w, |w.inval| - 1, r.node, r.key);
      StoreBehind(t, acts, u, id);
    } else if ClearedUpTo(u, (r.node, r.key)) > e.bump {
      StoreBehind(t, acts, u, id);
    } else {
      var b := Overtaking(t, u, id);
      acts, u := HandleAt(t, acts, u, b, r.node, r.key);
      StoreBehind(t, acts, u, id);
    }
  }

  /** What can still overtake the entry is an announcement that the node has not received. */
  lemma Overtaking(t: State, u: State, id: int) returns (b: nat)
    requires Quieter(t, u, id)
    requires var r := t.readers[id];
             && r.pc.HasData? && Overtakes(t, (r.node, r.key), r.pc.entry.bump)
             && ClearedUpTo(u, (r.node, r.key)) <= r.pc.entry.bump
             && (forall key :: r.node in t.clearing && key in t.clearing[r.node].keys ==>
                   ClearedUpTo(u, (r.node, key)) >= t.clearing[r.node].bump)
    ensures b > t.readers[id].pc.entry.bump && (b in u.unsent || (t.readers[id].node, b) in u.inbox)
  {
    var r := t.readers[id];
    if m :| m in t.inbox && m.0 == r.node && m.1 > r.pc.entry.bump {
      b := m.1;
    } else {
      assert ClearedUpTo(t, (r.node, r.key)) <= ClearedUpTo(u, (r.node, r.key));
      b :| b in t.unsent && b > r.pc.entry.bump;
    }
  }

  /** Wherever the guard forbids an expiry, for the sake of an entry or of a reader, the expiry could end stale. */
  lemma LoudExpiryGetsStale(s0: State, acts: seq<Action>, s: State)
    requires Initial(s0) && s0.quietExpiry && Reachable(s0, acts, s) && Step(s, ExpireGen) == None
    ensures CanGetStale(s.(gen := None))
  {
    ReachableInv(s0, acts, s);
    ReachableHeld(s0, acts, s);
    var t := s.(gen := None);
    if k :| k in s.redis {
      var ids := FiniteSets.Maximum(s.readers.Keys, 0);
      var node := NewNode(s, k);
      EntryGetsStale(t, k, ids + 1, node);
    } else {
      var id :| id in s.readers && Relies(s, s.readers[id]);
      ReaderGetsStale(s, t, id);
    }
  }

  lemma ReaderGetsStale(s: State, t: State, id: int)
    requires Inv(s) && Held(s) && s.gen.Some? && t == s.(gen := None) && id in s.readers && Relies(s, s.readers[id])
    ensures CanGetStale(t)
  {
    assert ReaderOk(s, id, s.readers[id]);
    assert Relies(t, t.readers[id]);
    match s.readers[id].pc
    case HasData(e) => FetchedGetsStale(t, id);
    case HasGen(g, b) => GenerationGetsStale(t, id);
    case Loaded(e) => LoadedGetsStale(t, id);
    case LockedData(e) => LockedGetsStale(t, id);
  }
}
