/**
 The delay queue on Redis: two sorted sets and a hash per topic, changed by three scripts, and one
 HSET per delivered message. The legacy set is taken to be empty. A script is one atomic action.
 */
module RedisDelayQueue {
  import opened Runs
  import opened DueOrder
  import LeaseQueue
  import DelayQueue

  type Message = DelayQueue.Message

  datatype Keys = Keys(ready: Scores, processing: Scores, data: map<Id, Message>)

  datatype Act =
    | Put(message: Message)
    | Drop(id: Id)
    | Take(now: int, deadline: int, limit: int, expired: seq<Id>, ids: seq<Id>)
    | Store(message: Message)

  /** Some members of one sorted set move to another, with a new score. */
  function Added(z: Scores, ids: set<Id>, score: int): Scores {
    map id | id in z.Keys + ids :: if id in ids then score else z[id]
  }

  function Back(k: Keys, now: int, expired: seq<Id>): Keys {
    k.(ready := Added(k.ready, DelayQueue.Members(expired), now), processing := k.processing - DelayQueue.Members(expired))
  }

  function Out(k: Keys, deadline: int, ids: seq<Id>): Keys {
    k.(ready := k.ready - DelayQueue.Members(ids), processing := Added(k.processing, DelayQueue.Members(ids), deadline))
  }

  function Enqueued(k: Keys, m: Message): Keys {
    Keys(k.ready[m.id := m.availableAt], k.processing - {m.id}, k.data[m.id := m])
  }

  function Acked(k: Keys, id: Id): Keys {
    Keys(k.ready - {id}, k.processing - {id}, k.data - {id})
  }

  function Step(k: Keys, a: Act): Option<Keys> {
    match a
    case Put(m) => Some(Enqueued(k, m))
    case Drop(id) => Some(Acked(k, id))
    case Take(now, deadline, limit, expired, ids) =>
      var b := Back(k, now, expired);
      if FirstDue(k.processing, now, limit, expired) && FirstDue(b.ready, now, limit, ids) then Some(Out(b, deadline, ids)) else None
    case Store(m) => Some(k.(data := k.data[m.id := m]))
  }

  // ----- The same promises as the lease queue -----

  function Leases(k: Keys): LeaseQueue.Queue<Id> {
    LeaseQueue.Queue(k.ready.Keys, k.processing)
  }

  function LeaseActs(a: Act): seq<LeaseQueue.Act<Id>> {
    match a
    case Put(m) => [LeaseQueue.Enqueue(m.id)]
    case Drop(id) => [LeaseQueue.Ack(id)]
    case Take(now, deadline, _, expired, ids) =>
      [LeaseQueue.Claim(now, deadline, DelayQueue.Members(expired), DelayQueue.Members(ids))]
    case Store(_) => []
  }

  /** The lease queue actions of a run; an HSET is none. */
  function AllLeaseActs(acts: seq<Act>): seq<LeaseQueue.Act<Id>> {
    if acts == [] then [] else LeaseActs(acts[0]) + AllLeaseActs(acts[1..])
  }

  lemma TakeIsLeaseClaim(k: Keys, now: int, deadline: int, expired: seq<Id>, ids: seq<Id>)
    requires forall id :: id in expired ==> id in k.processing && k.processing[id] <= now
    requires forall id :: id in ids ==> id in Back(k, now, expired).ready
    ensures LeaseQueue.Step(Leases(k), LeaseQueue.Claim(now, deadline, DelayQueue.Members(expired), DelayQueue.Members(ids))) ==
            Some(Leases(Out(Back(k, now, expired), deadline, ids)))
  {
    var moved, taken := DelayQueue.Members(expired), DelayQueue.Members(ids);
    var l, c := Leases(Out(Back(k, now, expired), deadline, ids)), LeaseQueue.Claimed(Leases(k), deadline, moved, taken);
    assert LeaseQueue.Expired(Leases(k), now, moved);
    assert l.ready == c.ready;
    assert l.claimed.Keys == c.claimed.Keys;
    assert l.claimed == c.claimed;
  }

  lemma StepIsLeaseStep(k: Keys, a: Act)
    requires Step(k, a).Some?
    ensures Exec(LeaseQueue.Step, Leases(k), LeaseActs(a)) == Some(Leases(Step(k, a).value))
  {
    match a
    case Put(m) => assert Leases(Enqueued(k, m)).ready == Leases(k).ready + {m.id};
    case Drop(id) => assert Leases(Acked(k, id)).ready == Leases(k).ready - {id};
    case Take(now, deadline, limit, expired, ids) =>
      DueAreThere(k.processing, now, limit, expired);
      DueAreThere(Back(k, now, expired).ready, now, limit, ids);
      TakeIsLeaseClaim(k, now, deadline, expired, ids);
    case Store(m) =>
  }

  lemma DueAreThere(z: Scores, now: int, limit: int, ids: seq<Id>)
    requires FirstDue(z, now, limit, ids)
    ensures forall id :: id in ids ==> id in z && z[id] <= now
  {
  }

  /** Every run of the scripts is a run of the lease queue. */
  lemma {:induction false} RunIsLeaseRun(k: Keys, acts: seq<Act>)
    requires Exec(Step, k, acts).Some?
    ensures Exec(LeaseQueue.Step, Leases(k), AllLeaseActs(acts)) == Some(Leases(Exec(Step, k, acts).value))
    decreases acts
  {
    if acts != [] {
      StepIsLeaseStep(k, acts[0]);
      var k' := Step(k, acts[0]).value;
      RunIsLeaseRun(k', acts[1..]);
      ExecSplits(LeaseQueue.Step, Leases(k), LeaseActs(acts[0]), AllLeaseActs(acts[1..]));
    }
  }

  /** Ids that were put and not dropped since. */
  function Outstanding(start: set<Id>, acts: seq<Act>): set<Id>
    decreases acts
  {
    if acts == [] then start
    else
      var next := match acts[0]
        case Put(m) => start + {m.id}
        case Drop(id) => start - {id}
        case Take(_, _, _, _, _) => start
        case Store(_) => start;
      Outstanding(next, acts[1..])
  }

  ghost predicate Sound(k: Keys) {
    k.ready.Keys !! k.processing.Keys && k.ready.Keys + k.processing.Keys <= k.data.Keys
  }

  lemma StepKeeps(k: Keys, a: Act)
    requires Sound(k) && Step(k, a).Some?
    ensures var k' := Step(k, a).value;
            Sound(k') && LeaseQueue.Ids(Leases(k')) == Outstanding(LeaseQueue.Ids(Leases(k)), [a])
  {
    var q, q' := Leases(k), Leases(Step(k, a).value);
    StepIsLeaseStep(k, a);
    assert [a][1..] == [];
    if !a.Store? {
      var l := LeaseActs(a)[0];
      assert LeaseActs(a) == [l];
      assert [l][1..] == [];
      assert LeaseQueue.Step(q, l) == Some(q');
      LeaseQueue.StepKeeps(q, l);
    }
  }

  /** Disjoint, complete, and every id that can be handed out has its message in the hash. */
  lemma {:induction false} NoIdIsLost(k: Keys, acts: seq<Act>)
    requires Sound(k) && Exec(Step, k, acts).Some?
    ensures var k' := Exec(Step, k, acts).value;
            Sound(k') && k'.ready.Keys + k'.processing.Keys == Outstanding(k.ready.Keys + k.processing.Keys, acts)
    decreases acts
  {
    if acts != [] {
      StepKeeps(k, acts[0]);
      assert [acts[0]][1..] == [];
      NoIdIsLost(Step(k, acts[0]).value, acts[1..]);
    }
  }

  predicate Calm(a: Act, id: Id, d: int) {
    match a
    case Put(m) => m.id != id
    case Take(now, _, _, _, _) => now < d
    case _ => true
  }

  lemma CalmLeaseActs(acts: seq<Act>, id: Id, d: int)
    requires forall i :: 0 <= i < |acts| ==> Calm(acts[i], id, d)
    ensures forall i :: 0 <= i < |AllLeaseActs(acts)| ==> LeaseQueue.Calm(AllLeaseActs(acts)[i], id, d)
  {
    if acts != [] {
      assert Calm(acts[0], id, d);
      CalmLeaseActs(acts[1..], id, d);
    }
  }

  /** A hidden id is not handed out before its deadline, unless it is put again. */
  lemma {:induction false} HiddenIsNotTaken(k: Keys, front: seq<Act>, last: Act, id: Id, d: int)
    requires LeaseQueue.Hidden(Leases(k), id, d)
    requires Exec(Step, k, front + [last]).Some? && last.Take? && last.now < d
    requires forall i :: 0 <= i < |front| ==> Calm(front[i], id, d)
    ensures id !in last.ids
  {
    PrefixRuns(Step, k, front, [last]);
    var k1 := Exec(Step, k, front).value;
    RunIsLeaseRun(k, front);
    CalmLeaseActs(front, id, d);
    LeaseQueue.HiddenStays(Leases(k), AllLeaseActs(front), id, d);
    StepIsLeaseStep(k1, last);
    assert LeaseQueue.Calm(LeaseActs(last)[0], id, d);
    LeaseQueue.HiddenStays(Leases(k1), LeaseActs(last), id, d);
    assert LeaseActs(last)[0].taken == DelayQueue.Members(last.ids);
  }

  lemma TakenIsHidden(k: Keys, a: Act, id: Id)
    requires a.Take? && Step(k, a).Some? && id in a.ids
    ensures LeaseQueue.Hidden(Leases(Step(k, a).value), id, a.deadline)
  {
  }

  /** An id handed out is not handed out again before its deadline, unless it is put again. */
  lemma TakenOnceBeforeDeadline(k: Keys, first: Act, back: seq<Act>, id: Id, j: nat)
    requires Exec(Step, k, [first] + back).Some? && first.Take? && id in first.ids
    requires forall i :: 0 <= i < |back| ==> Calm(back[i], id, first.deadline)
    requires j < |back| && back[j].Take?
    ensures id !in back[j].ids
  {
    assert ([first] + back)[1..] == back;
    var k1 := Step(k, first).value;
    TakenIsHidden(k, first, id);
    RunUpTo(Step, k1, back, j + 1);
    assert back[..j + 1] == back[..j] + [back[j]];
    assert Calm(back[j], id, first.deadline);
    HiddenIsNotTaken(k1, back[..j], back[j], id, first.deadline);
  }

  // ----- What is handed out is what was put, and never early -----

  /** The message of this id as it was last put, unless it was dropped since. */
  function LastPut(acts: seq<Act>, id: Id): Option<Message> {
    if acts == [] then None
    else
      match acts[|acts| - 1]
      case Put(m) => if m.id == id then Some(m) else LastPut(acts[..|acts| - 1], id)
      case Drop(x) => if x == id then None else LastPut(acts[..|acts| - 1], id)
      case Take(_, _, _, _, _) => LastPut(acts[..|acts| - 1], id)
      case Store(_) => LastPut(acts[..|acts| - 1], id)
  }

  /** It has been handed out since it was last put. */
  predicate TakenSince(acts: seq<Act>, id: Id) {
    acts != [] &&
    match acts[|acts| - 1]
    case Put(m) => m.id != id && TakenSince(acts[..|acts| - 1], id)
    case Drop(x) => x != id && TakenSince(acts[..|acts| - 1], id)
    case Take(_, _, _, _, ids) => id in ids || TakenSince(acts[..|acts| - 1], id)
    case Store(_) => TakenSince(acts[..|acts| - 1], id)
  }

  /** Claims come at times up to `t`, each no earlier than the one before, and end after they began. */
  predicate ClockedUpTo(acts: seq<Act>, t: int) {
    acts == [] ||
    (var a := acts[|acts| - 1];
     if a.Take? then a.now <= t && a.now <= a.deadline && ClockedUpTo(acts[..|acts| - 1], a.now)
     else ClockedUpTo(acts[..|acts| - 1], t))
  }

  /** Messages are written back with the content last put. */
  ghost predicate Regular(acts: seq<Act>, id: Id) {
    forall i :: 0 <= i < |acts| && acts[i].Store? && acts[i].message.id == id ==> WritesBack(acts, i)
  }

  predicate WritesBack(acts: seq<Act>, i: nat)
    requires i < |acts| && acts[i].Store?
  {
    var put := LastPut(acts[..i], acts[i].message.id);
    put.Some? ==> DelayQueue.SameContent(put.value, acts[i].message)
  }

  /**
   The id is in one of the sets exactly if it was put, with that content. Until it is handed out it
   is scored with its own time; afterwards it is scored no earlier, and when it is back among the
   ready ones, no later than now.
   */
  ghost predicate Kept(k: Keys, id: Id, put: Option<Message>, taken: bool, now: int) {
    && (id in k.ready || id in k.processing <==> put.Some?)
    && (put.Some? ==>
          && id in k.data && DelayQueue.SameContent(put.value, k.data[id])
          && (!taken ==> id in k.ready && id !in k.processing && k.ready[id] == put.value.availableAt)
          && (id in k.ready && taken ==> put.value.availableAt <= k.ready[id] <= now)
          && (id in k.processing ==> k.processing[id] >= put.value.availableAt))
  }

  lemma TakeKeepsContent(k: Keys, a: Act, id: Id, put: Option<Message>, taken: bool)
    requires a.Take? && Step(k, a).Some? && a.now <= a.deadline && Kept(k, id, put, taken, a.now)
    ensures Kept(Step(k, a).value, id, put, taken || id in a.ids, a.now)
    ensures id in a.ids ==> put.Some? && put.value.availableAt <= a.now
    ensures put.Some? && id in k.ready && put.value.availableAt <= a.now && id !in a.ids ==> |a.ids| == a.limit
  {
    DueAreThere(k.processing, a.now, a.limit, a.expired);
    DueAreThere(Back(k, a.now, a.expired).ready, a.now, a.limit, a.ids);
  }

  lemma OtherKeepsContent(k: Keys, acts: seq<Act>, a: Act, id: Id, now: int)
    requires !a.Take? && Kept(k, id, LastPut(acts, id), TakenSince(acts, id), now)
    requires a.Store? && a.message.id == id && LastPut(acts, id).Some? ==>
               DelayQueue.SameContent(LastPut(acts, id).value, a.message)
    ensures Kept(Step(k, a).value, id, LastPut(acts + [a], id), TakenSince(acts + [a], id), now)
  {
    assert (acts + [a])[..|acts|] == acts;
  }

  lemma KeptLater(k: Keys, id: Id, put: Option<Message>, taken: bool, now: int, later: int)
    requires Kept(k, id, put, taken, now) && now <= later
    ensures Kept(k, id, put, taken, later)
  {
  }

  lemma {:induction false} RunKeepsContent(k: Keys, acts: seq<Act>, id: Id, now: int)
    requires k == Keys(map[], map[], map[]) && Exec(Step, k, acts).Some? && Regular(acts, id) && ClockedUpTo(acts, now)
    ensures Kept(Exec(Step, k, acts).value, id, LastPut(acts, id), TakenSince(acts, id), now)
    decreases |acts|
  {
    if acts != [] {
      var front, a := acts[..|acts| - 1], acts[|acts| - 1];
      assert acts == front + [a] && [a][1..] == [];
      PrefixRuns(Step, k, front, [a]);
      RegularFront(acts, id);
      var until := if a.Take? then a.now else now;
      RunKeepsContent(k, front, id, until);
      var m := Exec(Step, k, front).value;
      if a.Take? {
        TakeKeepsContent(m, a, id, LastPut(front, id), TakenSince(front, id));
        KeptLater(Step(m, a).value, id, LastPut(front, id), TakenSince(front, id) || id in a.ids, a.now, now);
      } else {
        if a.Store? && a.message.id == id { assert WritesBack(acts, |acts| - 1); }
        OtherKeepsContent(m, front, a, id, now);
      }
    }
  }

  lemma RegularFront(acts: seq<Act>, id: Id)
    requires acts != [] && Regular(acts, id)
    ensures Regular(acts[..|acts| - 1], id)
  {
    var front := acts[..|acts| - 1];
    forall i | 0 <= i < |front| && front[i].Store? && front[i].message.id == id ensures WritesBack(front, i) {
      assert front[..i] == acts[..i] && WritesBack(acts, i);
    }
  }

  /**
   A claimed id was put, is due, and its stored message has the content that was put; and an id that
   is ready and due is claimed, unless the claim reached its limit.
   */
  lemma TakenIsDueAsPut(k: Keys, acts: seq<Act>, a: Act, id: Id)
    requires k == Keys(map[], map[], map[]) && Exec(Step, k, acts + [a]).Some? && Regular(acts + [a], id)
    requires a.Take? && ClockedUpTo(acts + [a], a.now)
    ensures var put, k' := LastPut(acts, id), Exec(Step, k, acts + [a]).value;
            && (id in a.ids ==> put.Some? && put.value.availableAt <= a.now)
            && (put.Some? ==> id in k'.data && DelayQueue.SameContent(put.value, k'.data[id]))
            && (put.Some? && !TakenSince(acts, id) && put.value.availableAt <= a.now && id !in a.ids ==> |a.ids| == a.limit)
  {
    assert (acts + [a])[..|acts|] == acts && [a][1..] == [] && (acts + [a])[|acts|] == a;
    PrefixRuns(Step, k, acts, [a]);
    RegularFront(acts + [a], id);
    RunKeepsContent(k, acts, id, a.now);
    TakeKeepsContent(Exec(Step, k, acts).value, a, id, LastPut(acts, id), TakenSince(acts, id));
  }

  // ----- The scripts and the client, as they run -----

  class RedisQueue {
    var ready: Scores
    var processing: Scores
    var data: map<Id, Message>
    const visibilityTimeout: int

    function View(): Keys
      reads this
    {
      Keys(ready, processing, data)
    }

    ghost predicate Valid()
      reads this
    {
      Sound(View()) && forall id :: id in data ==> data[id].id == id
    }

    constructor (timeout: int)
      ensures Valid() && View() == Keys(map[], map[], map[])
      ensures visibilityTimeout == if timeout > 0 then timeout else DelayQueue.DEFAULT_VISIBILITY
    {
      ready, processing, data := map[], map[], map[];
      visibilityTimeout := if timeout > 0 then timeout else DelayQueue.DEFAULT_VISIBILITY;
    }

    method Enqueue(m: Message) returns (ok: bool)
      requires Valid()
      modifies this
      ensures Valid() && ok == (m.id.text != "" && m.topic != "")
      ensures View() == if ok then Enqueued(old(View()), m) else old(View())
    {
      if m.id.text == "" || m.topic == "" { return false; }
      data := data[m.id := m];
      ready := ready[m.id := m.availableAt];
      processing := processing - {m.id};
      return true;
    }

    method Ack(id: Id)
      requires Valid()
      modifies this
      ensures Valid() && View() == Acked(old(View()), id)
    {
      ready, processing, data := ready - {id}, processing - {id}, data - {id};
    }

    /** One loop of the claim script: each id leaves `from` and enters `into` with the score. */
    method MoveAll(from: Scores, into: Scores, ids: seq<Id>, score: int) returns (f: Scores, t: Scores, moved: seq<Id>)
      requires forall i :: 0 <= i < |ids| ==> ids[i] in from
      requires forall i, j :: 0 <= i < j < |ids| ==> ids[i] != ids[j]
      ensures f == from - DelayQueue.Members(ids) && t == Added(into, DelayQueue.Members(ids), score) && moved == ids
    {
      f, t, moved := from, into, [];
      var i := 0;
      while i < |ids|
        invariant 0 <= i <= |ids|
        invariant f == from - DelayQueue.Members(ids[..i]) && t == Added(into, DelayQueue.Members(ids[..i]), score)
        invariant moved == ids[..i]
      {
        MoveOne(from, into, ids, i, score);
        if ids[i] in f {
          f := f - {ids[i]};
          t := t[ids[i] := score];
          moved := moved + [ids[i]];
        }
        i := i + 1;
      }
      assert ids[..|ids|] == ids;
    }

    method ClaimScript(now: int, deadline: int, limit: int) returns (claimed: seq<Id>, ghost expired: seq<Id>)
      requires Valid() && limit > 0
      modifies `ready, `processing
      ensures Valid() && Step(old(View()), Take(now, deadline, limit, expired, claimed)) == Some(View())
    {
      var late := SelectDue(processing, now, limit);
      expired := late;
      OrderedAllDistinct(processing, late);
      var moved;
      processing, ready, moved := MoveAll(processing, ready, late, now);
      var ids := SelectDue(ready, now, limit);
      OrderedAllDistinct(ready, ids);
      ready, processing, claimed := MoveAll(ready, processing, ids, deadline);
      StepKeeps(old(View()), Take(now, deadline, limit, expired, claimed));
    }

    /** For each claimed id: read its message, count the attempt, write it back. */
    method CountAttempts(claimed: seq<Id>) returns (due: seq<Message>)
      requires forall i :: 0 <= i < |claimed| ==> claimed[i] in data
      requires forall i, j :: 0 <= i < j < |claimed| ==> claimed[i] != claimed[j]
      requires forall id :: id in data ==> data[id].id == id
      modifies `data
      ensures DelayQueue.IdsOf(due) == claimed && data == DelayQueue.Tried(old(data), DelayQueue.Members(claimed))
      ensures forall i :: 0 <= i < |due| ==> due[i] == data[claimed[i]]
    {
      due := [];
      var values := data;
      var i := 0;
      while i < |claimed|
        invariant 0 <= i <= |claimed|
        invariant DelayQueue.IdsOf(due) == claimed[..i]
        invariant data == DelayQueue.Tried(values, DelayQueue.Members(claimed[..i]))
        invariant forall j :: 0 <= j < i ==> due[j] == DelayQueue.Delivered(values[claimed[j]])
      {
        var msg := DelayQueue.Delivered(values[claimed[i]]);
        assert DelayQueue.Members(claimed[..i + 1]) == DelayQueue.Members(claimed[..i]) + {msg.id};
        data := data[msg.id := msg];
        due := due + [msg];
        i := i + 1;
      }
      assert claimed[..|claimed|] == claimed;
    }

    method ClaimDue(now: int, limit: int) returns (due: seq<Message>, ghost expired: seq<Id>)
      requires Valid()
      modifies this
      ensures Valid()
      ensures limit <= 0 ==> due == [] && View() == old(View())
      ensures limit > 0 ==>
                Delivers(old(View()), Take(now, now + visibilityTimeout, limit, expired, DelayQueue.IdsOf(due)), View())
      ensures forall i :: 0 <= i < |due| ==> CountedUp(old(data), data, due[i])
    {
      due, expired := [], [];
      if limit > 0 {
        due, expired := ClaimSome(now, limit);
      }
    }

    method ClaimSome(now: int, limit: int) returns (due: seq<Message>, ghost expired: seq<Id>)
      requires Valid() && limit > 0
      modifies this
      ensures Valid()
      ensures Delivers(old(View()), Take(now, now + visibilityTimeout, limit, expired, DelayQueue.IdsOf(due)), View())
      ensures forall i :: 0 <= i < |due| ==> CountedUp(old(data), data, due[i])
    {
      var claimed;
      claimed, expired := ClaimScript(now, now + visibilityTimeout, limit);
      due := DeliverClaimed(old(View()), Take(now, now + visibilityTimeout, limit, expired, claimed), claimed);
    }

    /** The messages of a claim `a` that the script has just made on `k`. */
    method DeliverClaimed(ghost k: Keys, ghost a: Act, claimed: seq<Id>) returns (due: seq<Message>)
      requires Valid() && a.Take? && a.ids == claimed && Step(k, a) == Some(View())
      modifies `data
      ensures Valid() && DelayQueue.IdsOf(due) == claimed && Delivers(k, a, View())
      ensures forall i :: 0 <= i < |due| ==> CountedUp(old(data), data, due[i])
    {
      ghost var k1 := View();
      TakenAreClaimed(k, a);
      due := ReadClaimed(claimed);
      CountedDelivers(k, a, k1, View());
    }

    /** The second round trip: the claimed messages, each with its attempt counted and stored. */
    method ReadClaimed(claimed: seq<Id>) returns (due: seq<Message>)
      requires Valid() && forall i :: 0 <= i < |claimed| ==> claimed[i] in processing
      requires forall i, j :: 0 <= i < j < |claimed| ==> claimed[i] != claimed[j]
      modifies `data
      ensures Valid() && DelayQueue.IdsOf(due) == claimed
      ensures data == DelayQueue.Tried(old(data), DelayQueue.Members(claimed))
      ensures forall i :: 0 <= i < |due| ==> CountedUp(old(data), data, due[i])
    {
      ghost var k := View();
      due := CountAttempts(claimed);
      TriedStaysSound(k, DelayQueue.Members(claimed));
      forall i | 0 <= i < |due| ensures CountedUp(k.data, data, due[i]) {
        assert DelayQueue.IdsOf(due)[i] == due[i].id == claimed[i];
      }
    }
  }

  /** The stored message as it was but for one attempt more, which is also what is stored now. */
  predicate CountedUp(data: map<Id, Message>, data': map<Id, Message>, m: Message) {
    && m.id in data && DelayQueue.SameContent(data[m.id], m) && m.attempts == data[m.id].attempts + 1
    && m.id in data' && data'[m.id] == m
  }

  lemma CountedDelivers(k: Keys, a: Act, k1: Keys, k2: Keys)
    requires a.Take? && Step(k, a) == Some(k1)
    requires k2 == k1.(data := DelayQueue.Tried(k1.data, DelayQueue.Members(a.ids)))
    ensures Delivers(k, a, k2)
  {
  }

  lemma TriedStaysSound(k: Keys, ids: set<Id>)
    requires Sound(k)
    ensures Sound(k.(data := DelayQueue.Tried(k.data, ids)))
  {
  }

  /** The script's effect on the sorted sets, and one attempt more for each message handed out. */
  ghost predicate Delivers(k: Keys, a: Act, k': Keys)
    requires a.Take?
  {
    Step(k, a) == Some(k'.(data := k.data)) && k'.data == DelayQueue.Tried(k.data, DelayQueue.Members(a.ids))
  }

  lemma TakenAreClaimed(k: Keys, a: Act)
    requires a.Take? && Step(k, a).Some?
    ensures forall i :: 0 <= i < |a.ids| ==> a.ids[i] in Step(k, a).value.processing
    ensures forall i, j :: 0 <= i < j < |a.ids| ==> a.ids[i] != a.ids[j]
  {
    OrderedAllDistinct(Back(k, a.now, a.expired).ready, a.ids);
  }

  lemma MoveOne(from: Scores, into: Scores, ids: seq<Id>, i: nat, score: int)
    requires i < |ids| && ids[i] in from
    requires forall i, j :: 0 <= i < j < |ids| ==> ids[i] != ids[j]
    ensures var f, t := from - DelayQueue.Members(ids[..i]), Added(into, DelayQueue.Members(ids[..i]), score);
            && ids[i] in f && from - DelayQueue.Members(ids[..i + 1]) == f - {ids[i]}
            && Added(into, DelayQueue.Members(ids[..i + 1]), score) == t[ids[i] := score]
  {
    assert DelayQueue.Members(ids[..i + 1]) == DelayQueue.Members(ids[..i]) + {ids[i]};
    assert ids[i] !in ids[..i];
  }
}
