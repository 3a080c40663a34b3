/** The in-memory delay queue with a visibility timeout. */
module DelayQueue {
  import opened Runs
  import opened FiniteSets
  import opened DueOrder
  import LeaseQueue

  /** Two minutes, in milliseconds. */
  const DEFAULT_VISIBILITY := 120_000

  datatype Message = Message(id: Id, topic: string, payload: string, availableAt: int, attempts: int)

  datatype Claim = Claim(message: Message, visibleAt: int)

  /** One topic: messages that wait, and messages that somebody is working on. */
  datatype Topic = Topic(ready: map<Id, Message>, claimed: map<Id, Claim>)

  function DueTimes(ready: map<Id, Message>): Scores {
    map id | id in ready :: ready[id].availableAt
  }

  ghost predicate Filed(t: Topic) {
    && (forall id :: id in t.ready ==> t.ready[id].id == id)
    && (forall id :: id in t.claimed ==> t.claimed[id].message.id == id)
    && t.ready.Keys !! t.claimed.Keys
  }

  // ----- What the operations do to a topic -----

  function Enqueued(t: Topic, m: Message): Topic {
    Topic(t.ready[m.id := m], t.claimed - {m.id})
  }

  function Acked(t: Topic, id: Id): Topic {
    Topic(t.ready - {id}, t.claimed - {id})
  }

  /** Claims whose visibility has run out go back to the waiting messages, except those in `todo`. */
  function RequeuedExcept(t: Topic, now: int, todo: set<Id>): Topic {
    var back := set id | id in t.claimed && id !in todo && t.claimed[id].visibleAt <= now;
    Topic(map id | id in t.ready.Keys + back :: if id in back then t.claimed[id].message else t.ready[id], t.claimed - back)
  }

  function Requeued(t: Topic, now: int): Topic {
    RequeuedExcept(t, now, {})
  }

  lemma RequeueOne(t: Topic, now: int, todo: set<Id>, id: Id)
    requires id in todo && id in t.claimed
    ensures var r := RequeuedExcept(t, now, todo);
            RequeuedExcept(t, now, todo - {id}) ==
            if t.claimed[id].visibleAt <= now then Topic(r.ready[id := t.claimed[id].message], r.claimed - {id}) else r
  {
    var r, r' := RequeuedExcept(t, now, todo), RequeuedExcept(t, now, todo - {id});
    if t.claimed[id].visibleAt <= now {
      assert r'.ready == r.ready[id := t.claimed[id].message];
      assert r'.claimed == r.claimed - {id};
    } else {
      assert r'.ready == r.ready;
      assert r'.claimed == r.claimed;
    }
  }

  function Delivered(m: Message): Message {
    m.(attempts := m.attempts + 1)
  }

  function Taken(t: Topic, ids: set<Id>, deadline: int): Topic {
    Topic(t.ready - ids,
          map id | id in t.claimed.Keys + (ids * t.ready.Keys) ::
            if id in ids && id in t.ready then Claim(Delivered(t.ready[id]), deadline) else t.claimed[id])
  }

  lemma TakeOne(t: Topic, ids: set<Id>, id: Id, deadline: int)
    requires id in t.ready
    ensures var r := Taken(t, ids, deadline);
            Taken(t, ids + {id}, deadline) == Topic(r.ready - {id}, r.claimed[id := Claim(Delivered(t.ready[id]), deadline)])
  {
    var r, r' := Taken(t, ids, deadline), Taken(t, ids + {id}, deadline);
    assert r'.ready == r.ready - {id};
    assert r'.claimed == r.claimed[id := Claim(Delivered(t.ready[id]), deadline)];
  }

  function Members(ids: seq<Id>): set<Id> {
    set id | id in ids
  }

  /** Ids of distinct waiting messages, filed under their own ids. */
  ghost predicate Pickable(t: Topic, ids: seq<Id>) {
    && (forall i :: 0 <= i < |ids| ==> ids[i] in t.ready && t.ready[ids[i]].id == ids[i])
    && (forall i, j :: 0 <= i < j < |ids| ==> ids[i] != ids[j])
  }

  ghost function Deliveries(t: Topic, ids: seq<Id>): seq<Message>
    requires Pickable(t, ids)
  {
    seq(|ids|, i requires 0 <= i < |ids| => Delivered(t.ready[ids[i]]))
  }

  lemma DueArePickable(t: Topic, now: int, limit: int, ids: seq<Id>)
    requires Filed(t) && FirstDue(DueTimes(t.ready), now, limit, ids)
    ensures Pickable(t, ids)
  {
    OrderedAllDistinct(DueTimes(t.ready), ids);
  }

  lemma DeliveriesAreDue(t: Topic, now: int, limit: int, ids: seq<Id>)
    requires Pickable(t, ids) && FirstDue(DueTimes(t.ready), now, limit, ids)
    ensures IdsOf(Deliveries(t, ids)) == ids && IsDelivery(t, now, limit, Deliveries(t, ids))
  {
    assert IdsOf(Deliveries(t, ids)) == ids;
  }

  lemma TakeNext(t: Topic, ids: seq<Id>, i: nat, deadline: int)
    requires Pickable(t, ids) && i < |ids|
    ensures var r := Taken(t, Members(ids[..i]), deadline);
            var m := Delivered(t.ready[ids[i]]);
            && ids[i] in r.ready && r.ready[ids[i]] == t.ready[ids[i]] && m.id == ids[i]
            && Taken(t, Members(ids[..i + 1]), deadline) == Topic(r.ready - {m.id}, r.claimed[m.id := Claim(m, deadline)])
            && Deliveries(t, ids)[..i + 1] == Deliveries(t, ids)[..i] + [m]
  {
    var before := Members(ids[..i]);
    assert ids[i] !in before;
    assert Members(ids[..i + 1]) == before + {ids[i]};
    TakeOne(t, before, ids[i], deadline);
  }

  function IdsOf(due: seq<Message>): seq<Id> {
    seq(|due|, i requires 0 <= i < |due| => due[i].id)
  }

  /** One more attempt for each of `ids`. */
  function Tried(book: map<Id, Message>, ids: set<Id>): map<Id, Message> {
    map id | id in book :: if id in ids then Delivered(book[id]) else book[id]
  }

  /** `due` is what a claim hands out: the first due messages in order, each one attempt further. */
  ghost predicate IsDelivery(t: Topic, now: int, limit: int, due: seq<Message>) {
    && FirstDue(DueTimes(t.ready), now, limit, IdsOf(due))
    && forall i :: 0 <= i < |due| ==> due[i].id in t.ready && due[i] == Delivered(t.ready[due[i].id])
  }

  // ----- Runs of one topic -----

  datatype Act =
    | Put(message: Message)
    | Drop(id: Id)
    | Deliver(now: int, limit: int, due: seq<Message>)

  const NO_MESSAGES := Topic(map[], map[])

  ghost function Step(timeout: int, t: Topic, a: Act): Option<Topic> {
    match a
    case Put(m) => Some(Enqueued(t, m))
    case Drop(id) => Some(Acked(t, id))
    case Deliver(now, limit, due) =>
      var r := Requeued(t, now);
      if IsDelivery(r, now, limit, due) then Some(Taken(r, Members(IdsOf(due)), now + timeout)) else None
  }

  ghost function Run(timeout: int, t: Topic, acts: seq<Act>): Option<Topic> {
    Exec((t: Topic, a: Act) => Step(timeout, t, a), t, acts)
  }

  // ----- The record of one id: a reference without claims, deadlines or times -----

  function Lookup(t: Topic, id: Id): Option<Message> {
    if id in t.ready then Some(t.ready[id]) else if id in t.claimed then Some(t.claimed[id].message) else None
  }

  /** What an action means for the record of one id. */
  function Fate(r: Option<Message>, a: Act, id: Id): Option<Message> {
    match a
    case Put(m) => if m.id == id then Some(m) else r
    case Drop(x) => if x == id then None else r
    case Deliver(_, _, due) =>
      if r.Some? && id in Members(IdsOf(due)) then Some(r.value.(attempts := r.value.attempts + 1)) else r
  }

  /** The message of this id as it was last put, unless it was dropped since. */
  function LastPut(r: Option<Message>, acts: seq<Act>, id: Id): Option<Message> {
    if acts == [] then r
    else
      match acts[|acts| - 1]
      case Put(m) => if m.id == id then Some(m) else LastPut(r, acts[..|acts| - 1], id)
      case Drop(x) => if x == id then None else LastPut(r, acts[..|acts| - 1], id)
      case Deliver(_, _, _) => LastPut(r, acts[..|acts| - 1], id)
  }

  predicate Hands(a: Act, id: Id) {
    a.Deliver? && exists i :: 0 <= i < |a.due| && a.due[i].id == id
  }

  /** How often it was handed out since. */
  function HandedSince(acts: seq<Act>, id: Id): nat {
    if acts == [] then 0
    else
      var front, a := acts[..|acts| - 1], acts[|acts| - 1];
      if (a.Put? && a.message.id == id) || (a.Drop? && a.id == id) then 0
      else HandedSince(front, id) + (if Hands(a, id) then 1 else 0)
  }

  /** The same message but for its attempts. */
  predicate SameContent(m: Message, d: Message) {
    d.id == m.id && d.topic == m.topic && d.payload == m.payload && d.availableAt == m.availableAt
  }

  /** A step without the choice of the due messages: any ready ones may be handed out. */
  function LooseStep(timeout: int, t: Topic, a: Act): Option<Topic> {
    match a
    case Put(m) => Some(Enqueued(t, m))
    case Drop(id) => Some(Acked(t, id))
    case Deliver(now, limit, due) =>
      if Members(IdsOf(due)) <= Requeued(t, now).ready.Keys
      then Some(Taken(Requeued(t, now), Members(IdsOf(due)), now + timeout)) else None
  }

  lemma DeliveryIsReady(t: Topic, now: int, limit: int, due: seq<Message>)
    requires IsDelivery(t, now, limit, due)
    ensures Members(IdsOf(due)) <= t.ready.Keys
  {
  }

  lemma DeliverIsLoose(timeout: int, t: Topic, now: int, limit: int, due: seq<Message>)
    requires Step(timeout, t, Deliver(now, limit, due)).Some?
    ensures LooseStep(timeout, t, Deliver(now, limit, due)) == Step(timeout, t, Deliver(now, limit, due))
  {
    DeliveryIsReady(Requeued(t, now), now, limit, due);
  }

  lemma StepIsLoose(timeout: int, t: Topic, a: Act)
    requires Step(timeout, t, a).Some?
    ensures LooseStep(timeout, t, a) == Step(timeout, t, a)
  {
    match a
    case Put(_) =>
    case Drop(_) =>
    case Deliver(now, limit, due) => DeliverIsLoose(timeout, t, now, limit, due);
  }

  lemma RequeuedArePickable(t: Topic, now: int, limit: int, ids: seq<Id>)
    requires Filed(t) && FirstDue(DueTimes(Requeued(t, now).ready), now, limit, ids)
    ensures Pickable(Requeued(t, now), ids)
  {
    RequeueKeeps(t, now);
    DueArePickable(Requeued(t, now), now, limit, ids);
  }

  lemma DeliveriesAreStep(timeout: int, t: Topic, now: int, limit: int, ids: seq<Id>, r: Topic, due: seq<Message>,
                          t': Topic)
    requires Filed(t) && r == Requeued(t, now) && Pickable(r, ids) && FirstDue(DueTimes(r.ready), now, limit, ids)
    requires due == Deliveries(r, ids) && t' == Taken(r, Members(ids), now + timeout)
    ensures Filed(t') && Step(timeout, t, Deliver(now, limit, due)) == Some(t')
  {
    DeliveriesAreDue(r, now, limit, ids);
    PickedIsFiled(t, now, ids, now + timeout);
  }

  lemma PickedIsFiled(t: Topic, now: int, ids: seq<Id>, deadline: int)
    requires Filed(t) && Pickable(Requeued(t, now), ids)
    ensures Filed(Taken(Requeued(t, now), Members(ids), deadline))
  {
    RequeueKeeps(t, now);
    TakeKeeps(Requeued(t, now), Members(ids), deadline);
  }

  lemma RequeueKeeps(t: Topic, now: int)
    requires Filed(t)
    ensures Filed(Requeued(t, now)) && forall id :: Lookup(Requeued(t, now), id) == Lookup(t, id)
  {
  }

  lemma TakeKeeps(t: Topic, ids: set<Id>, deadline: int)
    requires Filed(t) && ids <= t.ready.Keys
    ensures Filed(Taken(t, ids, deadline))
    ensures forall id :: Lookup(Taken(t, ids, deadline), id) == if id in ids then Some(Delivered(t.ready[id])) else Lookup(t, id)
  {
  }

  lemma PutKeepsFate(t: Topic, m: Message, id: Id)
    requires Filed(t)
    ensures Filed(Enqueued(t, m)) && Lookup(Enqueued(t, m), id) == if m.id == id then Some(m) else Lookup(t, id)
  {
  }

  lemma DropKeepsFate(t: Topic, x: Id, id: Id)
    requires Filed(t)
    ensures Filed(Acked(t, x)) && Lookup(Acked(t, x), id) == if x == id then None else Lookup(t, id)
  {
  }

  lemma DeliverKeepsFate(t: Topic, now: int, ids: set<Id>, deadline: int, id: Id)
    requires Filed(t) && ids <= Requeued(t, now).ready.Keys
    ensures var t' := Taken(Requeued(t, now), ids, deadline);
            && Filed(t')
            && Lookup(t', id) == if Lookup(t, id).Some? && id in ids then Some(Delivered(Lookup(t, id).value)) else Lookup(t, id)
  {
    RequeueKeeps(t, now);
    assert Lookup(Requeued(t, now), id) == Lookup(t, id);
    TakeKeeps(Requeued(t, now), ids, deadline);
  }

  lemma LooseKeepsFate(timeout: int, t: Topic, a: Act, id: Id)
    requires Filed(t) && LooseStep(timeout, t, a).Some?
    ensures Filed(LooseStep(timeout, t, a).value)
    ensures Lookup(LooseStep(timeout, t, a).value, id) == Fate(Lookup(t, id), a, id)
  {
    match a
    case Put(m) => PutKeepsFate(t, m, id);
    case Drop(x) => DropKeepsFate(t, x, id);
    case Deliver(now, limit, due) => DeliverKeepsFate(t, now, Members(IdsOf(due)), now + timeout, id);
  }

  lemma StepKeepsFate(timeout: int, t: Topic, a: Act, id: Id)
    requires Filed(t) && Step(timeout, t, a).Some?
    ensures Filed(Step(timeout, t, a).value)
    ensures Lookup(Step(timeout, t, a).value, id) == Fate(Lookup(t, id), a, id)
  {
    StepIsLoose(timeout, t, a);
    LooseKeepsFate(timeout, t, a, id);
  }

  lemma {:induction false} HandsIsMember(due: seq<Message>, id: Id)
    ensures id in Members(IdsOf(due)) <==> exists i :: 0 <= i < |due| && due[i].id == id
  {
    forall i | 0 <= i < |due| && due[i].id == id ensures id in IdsOf(due) {
      assert IdsOf(due)[i] == id;
    }
  }

  /** The record is the message as put, with only its attempts raised. */
  predicate AsPut(r: Option<Message>, put: Option<Message>, handed: nat) {
    && (r.Some? <==> put.Some?)
    && (r.Some? ==> SameContent(put.value, r.value) && r.value.attempts == put.value.attempts + handed)
  }

  lemma FateKeepsRecord(start: Option<Message>, front: seq<Act>, a: Act, id: Id, r: Option<Message>)
    requires AsPut(r, LastPut(start, front, id), HandedSince(front, id))
    ensures AsPut(Fate(r, a, id), LastPut(start, front + [a], id), HandedSince(front + [a], id))
  {
    assert (front + [a])[..|front|] == front;
    if a.Deliver? { HandsIsMember(a.due, id); }
  }

  /**
   At every moment the topic holds exactly what was put and not dropped, nothing both ready and
   claimed: each message as it was last put, with only its attempts raised, by one for each time
   it was handed out since.
   */
  lemma {:induction false} NoMessageIsLost(timeout: int, t: Topic, acts: seq<Act>, id: Id)
    requires Filed(t) && Run(timeout, t, acts).Some?
    ensures Filed(Run(timeout, t, acts).value)
    ensures AsPut(Lookup(Run(timeout, t, acts).value, id), LastPut(Lookup(t, id), acts, id), HandedSince(acts, id))
    decreases |acts|
  {
    if acts != [] {
      var front, a := acts[..|acts| - 1], acts[|acts| - 1];
      assert acts == front + [a];
      var step := (t: Topic, a: Act) => Step(timeout, t, a);
      PrefixRuns(step, t, front, [a]);
      assert [a][1..] == [];
      NoMessageIsLost(timeout, t, front, id);
      var u := Run(timeout, t, front).value;
      StepKeepsFate(timeout, u, a, id);
      FateKeepsRecord(Lookup(t, id), front, a, id, Lookup(u, id));
    }
  }

  // ----- The topic is a lease queue -----

  function Leases(t: Topic): LeaseQueue.Queue<Id> {
    LeaseQueue.Queue(t.ready.Keys, map id | id in t.claimed :: t.claimed[id].visibleAt)
  }

  function LeaseAct(timeout: int, t: Topic, a: Act): LeaseQueue.Act<Id> {
    match a
    case Put(m) => LeaseQueue.Enqueue(m.id)
    case Drop(id) => LeaseQueue.Ack(id)
    case Deliver(now, _, due) =>
      LeaseQueue.Claim(now, now + timeout, Overdue(t, now), Members(IdsOf(due)))
  }

  ghost function LeaseActs(timeout: int, t: Topic, acts: seq<Act>): (r: seq<LeaseQueue.Act<Id>>)
    requires Run(timeout, t, acts).Some?
    ensures |r| == |acts|
    decreases acts
  {
    if acts == [] then [] else [LeaseAct(timeout, t, acts[0])] + LeaseActs(timeout, Step(timeout, t, acts[0]).value, acts[1..])
  }

  lemma DropIsLeaseDrop(t: Topic, id: Id)
    ensures LeaseQueue.Step(Leases(t), LeaseQueue.Ack(id)) == Some(Leases(Acked(t, id)))
  {
    assert Leases(Acked(t, id)).claimed == Leases(t).claimed - {id};
  }

  lemma PutIsLeasePut(t: Topic, m: Message)
    ensures LeaseQueue.Step(Leases(t), LeaseQueue.Enqueue(m.id)) == Some(Leases(Enqueued(t, m)))
  {
    assert Leases(Enqueued(t, m)).claimed == Leases(t).claimed - {m.id};
    assert Leases(Enqueued(t, m)).ready == Leases(t).ready + {m.id};
  }

  lemma TakeIsLeaseTake(t: Topic, ids: set<Id>, deadline: int)
    requires ids <= t.ready.Keys
    ensures Leases(Taken(t, ids, deadline)) == LeaseQueue.Claimed(Leases(t), deadline, {}, ids)
  {
    var l, c := Leases(Taken(t, ids, deadline)), LeaseQueue.Claimed(Leases(t), deadline, {}, ids);
    assert l.ready == c.ready;
    assert l.claimed.Keys == c.claimed.Keys;
    assert l.claimed == c.claimed;
  }

  function Overdue(t: Topic, now: int): set<Id> {
    set id | id in t.claimed && t.claimed[id].visibleAt <= now
  }

  lemma RequeueIsLeaseMove(t: Topic, now: int)
    ensures LeaseQueue.Expired(Leases(t), now, Overdue(t, now))
    ensures Leases(Requeued(t, now)) == LeaseQueue.Claimed(Leases(t), 0, Overdue(t, now), {})
  {
    var l, c := Leases(Requeued(t, now)), LeaseQueue.Claimed(Leases(t), 0, Overdue(t, now), {});
    assert l.ready == c.ready;
    assert l.claimed.Keys == c.claimed.Keys;
    assert l.claimed == c.claimed;
  }

  lemma ClaimIsLeaseClaim(t: Topic, now: int, ids: set<Id>, deadline: int)
    requires ids <= Requeued(t, now).ready.Keys
    ensures LeaseQueue.Step(Leases(t), LeaseQueue.Claim(now, deadline, Overdue(t, now), ids)) ==
            Some(Leases(Taken(Requeued(t, now), ids, deadline)))
  {
    RequeueIsLeaseMove(t, now);
    TakeIsLeaseTake(Requeued(t, now), ids, deadline);
    LeaseQueue.MoveThenTake(Leases(t), deadline, Overdue(t, now), ids);
    assert ids <= Leases(t).ready + Overdue(t, now);
  }

  /** The state after a delivery, and the claim that it is. */
  lemma LooseDeliver(timeout: int, t: Topic, a: Act)
    requires a.Deliver? && LooseStep(timeout, t, a).Some?
    ensures Members(IdsOf(a.due)) <= Requeued(t, a.now).ready.Keys
    ensures LooseStep(timeout, t, a).value == Taken(Requeued(t, a.now), Members(IdsOf(a.due)), a.now + timeout)
  {
  }

  lemma LeaseActOfDeliver(timeout: int, t: Topic, a: Act)
    requires a.Deliver?
    ensures LeaseAct(timeout, t, a) ==
            LeaseQueue.Claim(a.now, a.now + timeout, Overdue(t, a.now), Members(IdsOf(a.due)))
  {
  }

  lemma LeaseActIsLeaseClaim(t: Topic, now: int, ids: set<Id>, deadline: int, l: LeaseQueue.Act<Id>)
    requires ids <= Requeued(t, now).ready.Keys && l == LeaseQueue.Claim(now, deadline, Overdue(t, now), ids)
    ensures LeaseQueue.Step(Leases(t), l) == Some(Leases(Taken(Requeued(t, now), ids, deadline)))
  {
    ClaimIsLeaseClaim(t, now, ids, deadline);
  }

  lemma LooseDeliverIsLeaseClaim(timeout: int, t: Topic, a: Act)
    requires a.Deliver? && LooseStep(timeout, t, a).Some?
    ensures LeaseQueue.Step(Leases(t), LeaseAct(timeout, t, a)) == Some(Leases(LooseStep(timeout, t, a).value))
  {
    LooseDeliver(timeout, t, a);
    LeaseActOfDeliver(timeout, t, a);
    LeaseActIsLeaseClaim(t, a.now, Members(IdsOf(a.due)), a.now + timeout, LeaseAct(timeout, t, a));
  }

  lemma LooseIsLeaseStep(timeout: int, t: Topic, a: Act)
    requires LooseStep(timeout, t, a).Some?
    ensures LeaseQueue.Step(Leases(t), LeaseAct(timeout, t, a)) == Some(Leases(LooseStep(timeout, t, a).value))
  {
    match a
    case Put(m) => PutIsLeasePut(t, m);
    case Drop(id) => DropIsLeaseDrop(t, id);
    case Deliver(now, limit, due) => LooseDeliverIsLeaseClaim(timeout, t, a);
  }

  lemma StepIsLeaseStep(timeout: int, t: Topic, a: Act)
    requires Step(timeout, t, a).Some?
    ensures LeaseQueue.Step(Leases(t), LeaseAct(timeout, t, a)) == Some(Leases(Step(timeout, t, a).value))
  {
    StepIsLoose(timeout, t, a);
    LooseIsLeaseStep(timeout, t, a);
  }

  /** Every run of the topic is a run of the lease queue, action by action. */
  lemma {:induction false} RunIsLeaseRun(timeout: int, t: Topic, acts: seq<Act>)
    requires Filed(t) && Run(timeout, t, acts).Some?
    ensures Exec(LeaseQueue.Step, Leases(t), LeaseActs(timeout, t, acts)) == Some(Leases(Run(timeout, t, acts).value))
    ensures forall i :: 0 <= i < |acts| ==> Same(acts[i], LeaseActs(timeout, t, acts)[i])
    decreases acts
  {
    if acts != [] {
      StepIsLeaseStep(timeout, t, acts[0]);
      StepKeepsFate(timeout, t, acts[0], Id(""));
      RunIsLeaseRun(timeout, Step(timeout, t, acts[0]).value, acts[1..]);
      var l := LeaseActs(timeout, t, acts);
      assert l[1..] == LeaseActs(timeout, Step(timeout, t, acts[0]).value, acts[1..]);
      forall i | 0 <= i < |acts| ensures Same(acts[i], l[i]) {
        if i > 0 {
          assert acts[i] == acts[1..][i - 1] && l[i] == l[1..][i - 1];
        }
      }
    }
  }

  /** The two actions concern the same ids. */
  predicate Same(a: Act, l: LeaseQueue.Act<Id>) {
    match a
    case Put(m) => l == LeaseQueue.Enqueue(m.id)
    case Drop(id) => l == LeaseQueue.Ack(id)
    case Deliver(now, _, due) => l.Claim? && l.now == now && l.taken == Members(IdsOf(due))
  }

  predicate Calm(a: Act, id: Id, d: int) {
    match a
    case Put(m) => m.id != id
    case Drop(_) => true
    case Deliver(now, _, _) => now < d
  }

  /** A delivered message is not delivered again before its deadline, unless it is put again. */
  lemma DeliveredOnceBeforeDeadline(timeout: int, t: Topic, now: int, limit: int, due: seq<Message>, back: seq<Act>,
                                    i: nat, j: nat)
    requires Filed(t) && Run(timeout, t, [Deliver(now, limit, due)] + back).Some?
    requires i < |due| && j < |back| && back[j].Deliver?
    requires forall k :: 0 <= k < |back| ==> Calm(back[k], due[i].id, now + timeout)
    ensures due[i].id !in IdsOf(back[j].due)
  {
    var c := Deliver(now, limit, due);
    var t1 := Step(timeout, t, c).value;
    assert ([c] + back)[1..] == back;
    StepKeepsFate(timeout, t, c, due[i].id);
    RunIsLeaseRun(timeout, t1, back);
    DeliveredIsHidden(timeout, t, now, limit, due, i);
    var l := LeaseActs(timeout, t1, back);
    forall k | 0 <= k < |l| ensures LeaseQueue.Calm(l[k], due[i].id, now + timeout) {
      assert Same(back[k], l[k]) && Calm(back[k], due[i].id, now + timeout);
    }
    LeaseQueue.HiddenStays(Leases(t1), l, due[i].id, now + timeout);
    assert Same(back[j], l[j]);
  }

  lemma DeliveredIsHidden(timeout: int, t: Topic, now: int, limit: int, due: seq<Message>, i: nat)
    requires Filed(t) && Step(timeout, t, Deliver(now, limit, due)).Some? && i < |due|
    ensures LeaseQueue.Hidden(Leases(Step(timeout, t, Deliver(now, limit, due)).value), due[i].id, now + timeout)
  {
    StepIsLeaseStep(timeout, t, Deliver(now, limit, due));
    assert IdsOf(due)[i] == due[i].id;
  }

  /** A due message of the topic, as it was but for one attempt more, which is also what the topic now holds. */
  predicate HandedOut(t: Topic, t': Topic, m: Message, now: int) {
    && Lookup(t, m.id).Some? && SameContent(Lookup(t, m.id).value, m) && m.attempts == Lookup(t, m.id).value.attempts + 1
    && m.availableAt <= now && Lookup(t', m.id) == Some(m)
  }

  /** The message waits, or its claim has run out, and its time has come. */
  predicate Due(t: Topic, id: Id, now: int) {
    || (id in t.ready && t.ready[id].availableAt <= now)
    || (id in t.claimed && t.claimed[id].visibleAt <= now && t.claimed[id].message.availableAt <= now)
  }

  /** Nothing that is due is passed over below the limit, and the earliest come first. */
  lemma DeliveriesAreComplete(timeout: int, t: Topic, now: int, limit: int, due: seq<Message>)
    requires limit > 0 && Filed(t) && Step(timeout, t, Deliver(now, limit, due)).Some?
    ensures |due| <= limit && forall id :: Due(t, id, now) && id !in IdsOf(due) ==> |due| == limit
    ensures forall i, j :: 0 <= i < j < |due| ==> due[i].availableAt <= due[j].availableAt
  {
    var r := Requeued(t, now);
    var times := DueTimes(r.ready);
    assert FirstDue(times, now, limit, IdsOf(due));
    forall id | Due(t, id, now) && id !in IdsOf(due) ensures |due| == limit {
      assert id in r.ready && times[id] <= now;
    }
    forall i, j | 0 <= i < j < |due| ensures due[i].availableAt <= due[j].availableAt {
      assert IdsOf(due)[i] == due[i].id && IdsOf(due)[j] == due[j].id;
      assert times[due[i].id] == due[i].availableAt && times[due[j].id] == due[j].availableAt;
    }
  }

  lemma DeliveriesAreHandedOut(timeout: int, t: Topic, now: int, limit: int, due: seq<Message>, t': Topic)
    requires Filed(t) && Step(timeout, t, Deliver(now, limit, due)) == Some(t')
    ensures forall i :: 0 <= i < |due| ==> HandedOut(t, t', due[i], now)
  {
    var r := Requeued(t, now);
    RequeueKeeps(t, now);
    forall i | 0 <= i < |due| ensures HandedOut(t, t', due[i], now) {
      var id := due[i].id;
      assert IdsOf(due)[i] == id;
      StepKeepsFate(timeout, t, Deliver(now, limit, due), id);
      HandsIsMember(due, id);
      assert Lookup(r, id) == Lookup(t, id) == Some(r.ready[id]);
      assert DueTimes(r.ready)[id] <= now;
    }
  }

  // ----- The queue as it is written -----

  class MemoryQueue {
    var messages: map<string, map<Id, Message>>
    var processing: map<string, map<Id, Claim>>
    const visibilityTimeout: int

    function View(topic: string): Topic
      reads this
    {
      Topic(if topic in messages then messages[topic] else map[], if topic in processing then processing[topic] else map[])
    }

    ghost predicate Valid()
      reads this
    {
      forall topic :: Filed(View(topic))
    }

    constructor (timeout: int)
      ensures Valid() && visibilityTimeout == if timeout > 0 then timeout else DEFAULT_VISIBILITY
      ensures forall topic :: View(topic) == NO_MESSAGES
    {
      messages, processing := map[], map[];
      visibilityTimeout := if timeout > 0 then timeout else DEFAULT_VISIBILITY;
    }

    method Enqueue(m: Message)
      requires Valid()
      modifies this
      ensures Valid()
      ensures View(m.topic) == Enqueued(old(View(m.topic)), m)
      ensures forall topic :: topic != m.topic ==> View(topic) == old(View(topic))
    {
      assert Filed(View(m.topic));
      var ready := if m.topic in messages then messages[m.topic] else map[];
      messages := messages[m.topic := ready[m.id := m]];
      if m.topic in processing {
        processing := processing[m.topic := processing[m.topic] - {m.id}];
      }
      assert View(m.topic) == Enqueued(old(View(m.topic)), m);
      forall topic ensures Filed(View(topic)) {
        assert old(Filed(View(topic)));
        assert topic != m.topic ==> View(topic) == old(View(topic));
      }
    }

    method Ack(topic: string, id: Id)
      requires Valid()
      modifies this
      ensures Valid()
      ensures View(topic) == Acked(old(View(topic)), id)
      ensures forall other :: other != topic ==> View(other) == old(View(other))
    {
      if topic in messages { messages := messages[topic := messages[topic] - {id}]; }
      if topic in processing { processing := processing[topic := processing[topic] - {id}]; }
      assert View(topic) == Acked(old(View(topic)), id);
      forall other ensures Filed(View(other)) {
        assert old(Filed(View(other)));
        assert other != topic ==> View(other) == old(View(other));
      }
    }

    /** The loop over the claims of a topic: expired ones become ready again. */
    method RequeueExpired(t: Topic, now: int) returns (r: Topic)
      requires Filed(t)
      ensures r == Requeued(t, now)
    {
      r := t;
      var todo := t.claimed.Keys;
      assert RequeuedExcept(t, now, todo) == t;
      while todo != {}
        invariant todo <= t.claimed.Keys
        invariant r == RequeuedExcept(t, now, todo)
        decreases todo
      {
        var id := PickOne(todo);
        RequeueOne(t, now, todo, id);
        if r.claimed[id].visibleAt <= now {
          r := Topic(r.ready[id := r.claimed[id].message], r.claimed - {id});
        }
        todo := todo - {id};
      }
    }

    method ClaimTopic(t: Topic, now: int, limit: int) returns (due: seq<Message>, t': Topic)
      requires limit > 0 && Filed(t)
      ensures Filed(t') && Step(visibilityTimeout, t, Deliver(now, limit, due)) == Some(t')
    {
      var r := RequeueExpired(t, now);
      var ids := SelectDue(DueTimes(r.ready), now, limit);
      RequeuedArePickable(t, now, limit, ids);
      due, t' := TakeAll(r, ids, now + visibilityTimeout);
      DeliveriesAreStep(visibilityTimeout, t, now, limit, ids, r, due, t');
    }

    method ClaimDue(topic: string, now: int, limit: int) returns (due: seq<Message>)
      requires Valid()
      modifies this
      ensures Valid()
      ensures limit <= 0 ==> due == [] && forall t :: View(t) == old(View(t))
      ensures limit > 0 ==> Step(visibilityTimeout, old(View(topic)), Deliver(now, limit, due)) == Some(View(topic))
      ensures forall i :: 0 <= i < |due| ==> HandedOut(old(View(topic)), View(topic), due[i], now)
      ensures limit > 0 ==> |due| <= limit && forall id :: Due(old(View(topic)), id, now) && id !in IdsOf(due) ==> |due| == limit
      ensures forall i, j :: 0 <= i < j < |due| ==> due[i].availableAt <= due[j].availableAt
      ensures forall other :: other != topic ==> View(other) == old(View(other))
    {
      if limit <= 0 { return []; }
      assert Filed(View(topic));
      var t;
      due, t := ClaimTopic(View(topic), now, limit);
      DeliveriesAreHandedOut(visibilityTimeout, View(topic), now, limit, due, t);
      DeliveriesAreComplete(visibilityTimeout, View(topic), now, limit, due);
      messages := messages[topic := t.ready];
      processing := processing[topic := t.claimed];
      assert View(topic) == t;
      forall other ensures Filed(View(other)) {
        assert old(Filed(View(other)));
        assert other != topic ==> View(other) == old(View(other));
      }
    }

    /** The loop that moves the picked messages to the claims. */
    method TakeAll(t: Topic, ids: seq<Id>, deadline: int) returns (due: seq<Message>, r: Topic)
      requires Pickable(t, ids)
      ensures due == Deliveries(t, ids) && r == Taken(t, Members(ids), deadline)
    {
      r, due := t, [];
      assert Taken(t, Members(ids[..0]), deadline) == t;
      var i := 0;
      while i < |ids|
        invariant 0 <= i <= |ids|
        invariant r == Taken(t, Members(ids[..i]), deadline)
        invariant due == Deliveries(t, ids)[..i]
      {
        TakeNext(t, ids, i, deadline);
        var m := Delivered(r.ready[ids[i]]);
        due := due + [m];
        r := Topic(r.ready - {m.id}, r.claimed[m.id := Claim(m, deadline)]);
        i := i + 1;
      }
      assert ids[..|ids|] == ids;
    }
  }
}
