/**
 What every delay queue promises, whatever it stores: ids are ready, or claimed until a deadline.
 A claim first gives back some claims whose deadline has passed, then claims some ready ids.
 */
module LeaseQueue {
  import opened Runs

  datatype Queue<Id> = Queue(ready: set<Id>, claimed: map<Id, int>)

  datatype Act<Id> =
    | Enqueue(id: Id)
    | Ack(id: Id)
    | Claim(now: int, deadline: int, moved: set<Id>, taken: set<Id>)

  function Empty<Id>(): Queue<Id> {
    Queue({}, map[])
  }

  function Ids<Id>(q: Queue<Id>): set<Id> {
    q.ready + q.claimed.Keys
  }

  predicate Expired<Id>(q: Queue<Id>, now: int, ids: set<Id>) {
    forall id <- ids :: id in q.claimed && q.claimed[id] <= now
  }

  function Claimed<Id>(q: Queue<Id>, deadline: int, moved: set<Id>, taken: set<Id>): Queue<Id> {
    Queue(q.ready + moved - taken,
          map id | id in (q.claimed.Keys - moved) + taken :: if id in taken then deadline else q.claimed[id])
  }

  function Step<Id>(q: Queue<Id>, a: Act<Id>): Option<Queue<Id>> {
    match a
    case Enqueue(id) => Some(Queue(q.ready + {id}, q.claimed - {id}))
    case Ack(id) => Some(Queue(q.ready - {id}, q.claimed - {id}))
    case Claim(now, deadline, moved, taken) =>
      if Expired(q, now, moved) && taken <= q.ready + moved then Some(Claimed(q, deadline, moved, taken)) else None
  }

  /** Giving back and then taking is one claim. */
  lemma MoveThenTake<Id>(q: Queue<Id>, deadline: int, moved: set<Id>, taken: set<Id>)
    ensures Claimed(Claimed(q, 0, moved, {}), deadline, {}, taken) == Claimed(q, deadline, moved, taken)
  {
    var a, b := Claimed(Claimed(q, 0, moved, {}), deadline, {}, taken), Claimed(q, deadline, moved, taken);
    assert a.ready == b.ready;
    assert a.claimed == b.claimed;
  }

  /** The reference: a plain set of ids that were enqueued and not acknowledged since. */
  function Outstanding<Id>(start: set<Id>, acts: seq<Act<Id>>): set<Id>
    decreases acts
  {
    if acts == [] then start
    else
      var next := match acts[0]
        case Enqueue(id) => start + {id}
        case Ack(id) => start - {id}
        case Claim(_, _, _, _) => start;
      Outstanding(next, acts[1..])
  }

  predicate Disjoint<Id>(q: Queue<Id>) {
    q.ready !! q.claimed.Keys
  }

  lemma StepKeeps<Id>(q: Queue<Id>, a: Act<Id>)
    requires Disjoint(q) && Step(q, a).Some?
    ensures Disjoint(Step(q, a).value)
    ensures Ids(Step(q, a).value) == Outstanding(Ids(q), [a])
  {
    var q' := Step(q, a).value;
    assert [a][1..] == [];
    match a
    case Enqueue(id) => assert Ids(q') == Ids(q) + {id};
    case Ack(id) => assert Ids(q') == Ids(q) - {id};
    case Claim(now, deadline, moved, taken) => assert Ids(q') == Ids(q);
  }

  /** No run loses an id, keeps an acknowledged one, or holds an id both ready and claimed. */
  lemma {:induction false} NothingIsLost<Id>(q: Queue<Id>, acts: seq<Act<Id>>)
    requires Disjoint(q) && Exec(Step, q, acts).Some?
    ensures var q' := Exec(Step, q, acts).value;
            Disjoint(q') && Ids(q') == Outstanding(Ids(q), acts)
    decreases acts
  {
    if acts != [] {
      StepKeeps(q, acts[0]);
      assert [acts[0]][1..] == [];
      NothingIsLost(Step(q, acts[0]).value, acts[1..]);
    }
  }

  /** The action leaves a claim on `id` with deadline `d` alone. */
  predicate Calm<Id>(a: Act<Id>, id: Id, d: int) {
    match a
    case Enqueue(x) => x != id
    case Ack(_) => true
    case Claim(now, _, _, _) => now < d
  }

  predicate Hidden<Id>(q: Queue<Id>, id: Id, d: int) {
    id !in q.ready && (id in q.claimed ==> q.claimed[id] == d)
  }

  lemma {:induction false} HiddenStays<Id>(q: Queue<Id>, acts: seq<Act<Id>>, id: Id, d: int)
    requires Hidden(q, id, d) && Exec(Step, q, acts).Some?
    requires forall i :: 0 <= i < |acts| ==> Calm(acts[i], id, d)
    ensures forall i :: 0 <= i < |acts| && acts[i].Claim? ==> id !in acts[i].taken
    ensures Hidden(Exec(Step, q, acts).value, id, d)
    decreases acts
  {
    if acts != [] {
      assert Calm(acts[0], id, d);
      var q' := Step(q, acts[0]).value;
      assert Hidden(q', id, d);
      var rest := acts[1..];
      assert forall i :: 0 <= i < |rest| ==> rest[i] == acts[i + 1];
      HiddenStays(q', rest, id, d);
      forall i | 0 <= i < |acts| && acts[i].Claim? ensures id !in acts[i].taken {
        if i > 0 {
          assert acts[i] == rest[i - 1];
        }
      }
    }
  }

  /**
   A claimed message is not handed out again while every claim comes before its deadline,
   unless it is enqueued again.
   */
  lemma ClaimedOnceBeforeDeadline<Id>(q: Queue<Id>, front: seq<Act<Id>>, now: int, d: int, moved: set<Id>,
                                      taken: set<Id>, back: seq<Act<Id>>, id: Id)
    requires Exec(Step, q, front + [Claim(now, d, moved, taken)] + back).Some?
    requires id in taken
    requires forall i :: 0 <= i < |back| ==> Calm(back[i], id, d)
    ensures forall i :: 0 <= i < |back| && back[i].Claim? ==> id !in back[i].taken
  {
    var c := Claim(now, d, moved, taken);
    PrefixRuns(Step, q, front, [c] + back);
    assert front + [c] + back == front + ([c] + back);
    var q1 := Exec(Step, q, front).value;
    assert ([c] + back)[1..] == back;
    HiddenStays(Step(q1, c).value, back, id, d);
  }
}
