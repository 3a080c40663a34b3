/**
 The outbox: rows in id order, claimed under a lease, published to the broker, and marked. Any
 number of workers run at once and each may stop after any step. A claim may skip rows that
 another transaction has locked, so it takes any claimable rows.
 */
module Outbox {
  import opened Runs
  import opened FiniteSets

  datatype Status = Pending | Processing | Published

  datatype Row = Row(eventId: string, status: Status, availableAt: int, leaseUntil: Option<int>, attempts: nat)

  type Rows = seq<Row>

  // ----- The statements -----

  predicate Claimable(r: Row, now: int) {
    && r.availableAt <= now
    && (r.status == Pending || (r.status == Processing && r.leaseUntil.Some? && r.leaseUntil.value < now))
  }

  predicate Holds(rows: Rows, eventId: string) {
    exists i :: 0 <= i < |rows| && rows[i].eventId == eventId
  }

  function Saved(rows: Rows, eventId: string, now: int): Rows {
    if Holds(rows, eventId) then rows else rows + [Row(eventId, Pending, now, None, 0)]
  }

  function Leased(rows: Rows, taken: set<int>, until: int): Rows {
    seq(|rows|, i requires 0 <= i < |rows| =>
      if i in taken then rows[i].(status := Processing, leaseUntil := Some(until), attempts := rows[i].attempts + 1) else rows[i])
  }

  /** UPDATE ... WHERE event_id = ? AND status = 'PROCESSING' */
  function MarkedPublished(rows: Rows, i: nat): Rows {
    if i < |rows| && rows[i].status == Processing then rows[i := rows[i].(status := Published, leaseUntil := None)] else rows
  }

  function MarkedRetry(rows: Rows, i: nat, availableAt: int): Rows {
    if i < |rows| && rows[i].status == Processing then
      rows[i := rows[i].(status := Pending, availableAt := availableAt, leaseUntil := None)]
    else rows
  }

  // ----- The protocol -----

  datatype Config = Config(
    lease: int,
    retryDelay: int,
    inTime: bool,     // a worker is done with an event before its lease ends
    completes: bool)  // a worker that published goes on to mark the row

  datatype Pc = Publishing | Sent | Unsent

  datatype Job = Job(row: nat, until: int, pc: Pc)

  datatype State = State(config: Config, now: int, rows: Rows, sent: seq<nat>, jobs: map<int, Job>)

  datatype Action =
    | Save(eventId: string)
    | Claim(taken: set<int>, workers: map<int, nat>)
    | Publish(j: int, ok: bool)
    | MarkPublished(j: int)
    | MarkRetry(j: int)
    | Die(j: int)
    | Tick(d: nat)

  predicate Is(s: State, j: int, pc: Pc) {
    j in s.jobs && s.jobs[j].pc == pc
  }

  /** `workers` are the jobs the claim hands out, at most one for each row it took. */
  predicate ClaimAllowed(s: State, taken: set<int>, workers: map<int, nat>) {
    && (forall i :: i in taken ==> 0 <= i < |s.rows| && Claimable(s.rows[i], s.now))
    && workers.Keys !! s.jobs.Keys
    && (forall j :: j in workers ==> workers[j] in taken)
    && (forall j, k :: j in workers && k in workers && workers[j] == workers[k] ==> j == k)
  }

  function DoClaim(s: State, taken: set<int>, workers: map<int, nat>): Option<State> {
    if ClaimAllowed(s, taken, workers) then
      var until := s.now + s.config.lease;
      Some(s.(rows := Leased(s.rows, taken, until),
              jobs := map j | j in s.jobs.Keys + workers.Keys ::
                        if j in workers then Job(workers[j], until, Publishing) else s.jobs[j]))
    else None
  }

  function DoPublish(s: State, j: int, ok: bool): Option<State> {
    if Is(s, j, Publishing) then
      var s' := s.(jobs := s.jobs[j := s.jobs[j].(pc := if ok then Sent else Unsent)]);
      Some(if ok then s'.(sent := s.sent + [s.jobs[j].row]) else s')
    else None
  }

  function End(s: State, j: int): State {
    s.(jobs := s.jobs - {j})
  }

  predicate TickAllowed(s: State, d: nat) {
    s.config.inTime ==> forall j :: j in s.jobs ==> s.now + d <= s.jobs[j].until
  }

  function Step(s: State, a: Action): Option<State> {
    match a
    case Save(eventId) => Some(s.(rows := Saved(s.rows, eventId, s.now)))
    case Claim(taken, workers) => DoClaim(s, taken, workers)
    case Publish(j, ok) => DoPublish(s, j, ok)
    case MarkPublished(j) => if Is(s, j, Sent) then Some(End(s.(rows := MarkedPublished(s.rows, s.jobs[j].row)), j)) else None
    case MarkRetry(j) =>
      if Is(s, j, Unsent) then Some(End(s.(rows := MarkedRetry(s.rows, s.jobs[j].row, s.now + s.config.retryDelay)), j)) else None
    case Die(j) => if s.config.completes && Is(s, j, Sent) then None else Some(End(s, j))
    case Tick(d) => if TickAllowed(s, d) then Some(s.(now := s.now + d)) else None
  }

  function Opening(c: Config): State {
    State(c, 0, [], [], map[])
  }

  predicate Reachable(c: Config, acts: seq<Action>, s: State) {
    c.lease >= 0 && Exec(Step, Opening(c), acts) == Some(s)
  }

  // ----- No event is lost, none is falsely complete -----

  predicate RowOk(s: State, i: nat)
    requires i < |s.rows|
  {
    match s.rows[i].status
    case Pending => true
    case Processing => s.rows[i].leaseUntil.Some?
    case Published => i in s.sent
  }

  ghost predicate Inv(s: State) {
    && (forall i :: 0 <= i < |s.rows| ==> RowOk(s, i))
    && (forall j :: j in s.jobs ==> s.jobs[j].row < |s.rows|)
    && (forall j :: Is(s, j, Sent) ==> s.jobs[j].row in s.sent)
    && (forall i, k :: 0 <= i < k < |s.rows| ==> s.rows[i].eventId != s.rows[k].eventId)
  }

  /** Saved events stay, in their places, and a published one is done for good. */
  ghost predicate Later(s: State, s': State) {
    && s'.config == s.config
    && |s.rows| <= |s'.rows|
    && s.now <= s'.now
    && (forall i :: 0 <= i < |s.rows| ==> s'.rows[i].eventId == s.rows[i].eventId)
    && (forall i :: 0 <= i < |s.rows| && s.rows[i].status == Published ==> s'.rows[i] == s.rows[i])
    && s.sent <= s'.sent
  }

  /** An action that changes rows only, each to a sound one, and ends at most a job. */
  lemma RowsKeepInv(s: State, s': State)
    requires Inv(s) && s' == s.(rows := s'.rows, jobs := s'.jobs) && |s.rows| <= |s'.rows|
    requires forall i :: 0 <= i < |s'.rows| ==> RowOk(s', i)
    requires forall i :: 0 <= i < |s.rows| ==> s'.rows[i].eventId == s.rows[i].eventId
    requires forall i :: 0 <= i < |s.rows| && s.rows[i].status == Published ==> s'.rows[i] == s.rows[i]
    requires forall i, k :: 0 <= i < k < |s'.rows| ==> s'.rows[i].eventId != s'.rows[k].eventId
    requires forall j :: j in s'.jobs ==>
               s'.jobs[j].row < |s.rows| && (s'.jobs[j].pc == Sent ==> j in s.jobs && s'.jobs[j] == s.jobs[j])
    ensures Inv(s') && Later(s, s')
  {
    forall j | Is(s', j, Sent) ensures s'.jobs[j].row in s'.sent {
      assert Is(s, j, Sent);
    }
  }

  lemma SaveKeepsInv(s: State, eventId: string)
    requires Inv(s)
    ensures var s' := s.(rows := Saved(s.rows, eventId, s.now)); Inv(s') && Later(s, s')
  {
    var s' := s.(rows := Saved(s.rows, eventId, s.now));
    forall i | 0 <= i < |s'.rows| ensures RowOk(s', i) {
      assert i < |s.rows| ==> RowOk(s, i);
    }
    RowsKeepInv(s, s');
  }

  lemma ClaimKeepsInv(s: State, taken: set<int>, workers: map<int, nat>)
    requires Inv(s) && DoClaim(s, taken, workers).Some?
    ensures var s' := DoClaim(s, taken, workers).value; Inv(s') && Later(s, s')
  {
    var s' := DoClaim(s, taken, workers).value;
    forall i | 0 <= i < |s'.rows| ensures RowOk(s', i) {
      assert RowOk(s, i);
    }
    RowsKeepInv(s, s');
  }

  lemma MarkKeepsInv(s: State, j: int, rows: Rows)
    requires Inv(s) && j in s.jobs && |rows| == |s.rows|
    requires forall i :: 0 <= i < |rows| && i != s.jobs[j].row ==> rows[i] == s.rows[i]
    requires var i := s.jobs[j].row;
             && rows[i].eventId == s.rows[i].eventId
             && (|| rows[i] == s.rows[i]
                 || (&& s.rows[i].status == Processing
                     && (rows[i].status == Pending || (rows[i].status == Published && s.jobs[j].pc == Sent))))
    ensures var s' := End(s.(rows := rows), j); Inv(s') && Later(s, s')
  {
    var s' := End(s.(rows := rows), j);
    forall i | 0 <= i < |s'.rows| ensures RowOk(s', i) {
      assert RowOk(s, i);
      assert s.jobs[j].pc == Sent ==> Is(s, j, Sent);
    }
    RowsKeepInv(s, s');
  }

  lemma PublishKeepsInv(s: State, j: int, ok: bool)
    requires Inv(s) && DoPublish(s, j, ok).Some?
    ensures var s' := DoPublish(s, j, ok).value; Inv(s') && Later(s, s')
  {
    var s' := DoPublish(s, j, ok).value;
    assert forall i :: i in s.sent ==> i in s'.sent;
    forall i | 0 <= i < |s'.rows| ensures RowOk(s', i) {
      assert RowOk(s, i);
    }
    forall k | Is(s', k, Sent) ensures s'.jobs[k].row in s'.sent {
      assert k != j ==> Is(s, k, Sent);
    }
  }

  lemma StepKeepsInv(s: State, a: Action)
    requires Inv(s) && Step(s, a).Some?
    ensures Inv(Step(s, a).value) && Later(s, Step(s, a).value)
  {
    match a
    case Save(eventId) => SaveKeepsInv(s, eventId);
    case Claim(taken, workers) => ClaimKeepsInv(s, taken, workers);
    case Publish(j, ok) => PublishKeepsInv(s, j, ok);
    case MarkPublished(j) => MarkKeepsInv(s, j, MarkedPublished(s.rows, s.jobs[j].row));
    case MarkRetry(j) => MarkKeepsInv(s, j, MarkedRetry(s.rows, s.jobs[j].row, s.now + s.config.retryDelay));
    case Die(j) => EndKeepsInv(s, j);
    case Tick(d) => TickKeepsInv(s, d);
  }

  lemma EndKeepsInv(s: State, j: int)
    requires Inv(s)
    ensures Inv(End(s, j)) && Later(s, End(s, j))
  {
    var s' := End(s, j);
    forall i | 0 <= i < |s'.rows| ensures RowOk(s', i) {
      assert RowOk(s, i);
    }
    RowsKeepInv(s, s');
  }

  lemma TickKeepsInv(s: State, d: nat)
    requires Inv(s)
    ensures var s' := s.(now := s.now + d); Inv(s') && Later(s, s')
  {
    var s' := s.(now := s.now + d);
    forall i | 0 <= i < |s'.rows| ensures RowOk(s', i) {
      assert RowOk(s, i);
    }
    assert forall j :: Is(s', j, Sent) ==> Is(s, j, Sent);
  }

  lemma ReachableInv(c: Config, acts: seq<Action>, s: State)
    requires Reachable(c, acts, s)
    ensures Inv(s) && s.config == c
  {
    var inv := (t: State) => Inv(t) && t.config == c;
    forall t, a | inv(t) && Step(t, a).Some? ensures inv(Step(t, a).value) {
      StepKeepsInv(t, a);
    }
    InvariantOfRun(Step, inv, Opening(c), acts);
  }

  /** In every state every saved event is pending, leased, or published, and published means sent. */
  lemma PublishedMeansSent(c: Config, acts: seq<Action>, s: State, i: nat)
    requires Reachable(c, acts, s) && i < |s.rows|
    ensures RowOk(s, i)
  {
    ReachableInv(c, acts, s);
  }

  /** From any state of any run on: nothing is removed and a published row never changes again. */
  lemma PublishedIsTerminal(c: Config, acts: seq<Action>, s: State, more: seq<Action>, s': State)
    requires Reachable(c, acts, s) && Exec(Step, s, more) == Some(s')
    ensures Later(s, s')
  {
    ReachableInv(c, acts, s);
    var inv := (t: State) => Inv(t);
    var rel := (t: State, u: State) => Later(t, u);
    forall t, a | inv(t) && Step(t, a).Some? ensures inv(Step(t, a).value) && rel(t, Step(t, a).value) {
      StepKeepsInv(t, a);
    }
    RelationOfRun(Step, inv, rel, s, more);
  }

  // ----- Every unpublished event can still be published -----

  /** When the row becomes claimable if nobody touches it. */
  function DueAt(r: Row): int {
    var lease := if r.leaseUntil.Some? then r.leaseUntil.value + 1 else r.availableAt;
    if lease > r.availableAt then lease else r.availableAt
  }

  lemma DueIsClaimable(s: State, i: nat, now: int)
    requires Inv(s) && i < |s.rows| && s.rows[i].status != Published && now >= DueAt(s.rows[i])
    ensures Claimable(s.rows[i], now)
  {
    assert RowOk(s, i);
  }

  /** All workers finish or stop. */
  lemma {:induction false} Quiesce(c: Config, acts: seq<Action>, s: State, keys: set<int>)
    returns (more: seq<Action>, s': State)
    requires Reachable(c, acts, s) && keys == s.jobs.Keys
    ensures Reachable(c, more, s') && s'.jobs.Keys == {} && Later(s, s')
    decreases keys
  {
    ReachableInv(c, acts, s);
    if keys == {} {
      more, s' := acts, s;
    } else {
      var j := Pick(keys);
      var a := if Is(s, j, Sent) then MarkPublished(j) else Die(j);
      StepKeepsInv(s, a);
      var s1;
      more, s1 := ExtendRun(Step, Opening(c), acts, s, a);
      assert s1.jobs.Keys == keys - {j};
      more, s' := Quiesce(c, more, s1, keys - {j});
    }
  }

  /** From every state of every run, every saved event can still get published. */
  lemma CanStillBePublished(c: Config, acts: seq<Action>, s: State, i: nat) returns (more: seq<Action>, s': State)
    requires Reachable(c, acts, s) && i < |s.rows|
    ensures Reachable(c, more, s') && i < |s'.rows| && s'.rows[i].eventId == s.rows[i].eventId
    ensures s'.rows[i].status == Published && i in s'.sent
  {
    more, s' := Quiesce(c, acts, s, s.jobs.Keys);
    ReachableInv(c, more, s');
    if s'.rows[i].status == Published {
      assert RowOk(s', i);
    } else {
      more, s' := WaitUntilDue(c, more, s', i);
      more, s' := PublishIdle(c, more, s', i);
    }
  }

  lemma WaitUntilDue(c: Config, acts: seq<Action>, s: State, i: nat) returns (more: seq<Action>, s': State)
    requires Reachable(c, acts, s) && s.jobs.Keys == {} && i < |s.rows| && s.rows[i].status != Published
    ensures Reachable(c, more, s') && s' == s.(now := s'.now) && Claimable(s'.rows[i], s'.now)
  {
    ReachableInv(c, acts, s);
    var d := if DueAt(s.rows[i]) > s.now then DueAt(s.rows[i]) - s.now else 0;
    assert forall j :: j !in s.jobs;
    more, s' := ExtendRun(Step, Opening(c), acts, s, Tick(d));
    DueIsClaimable(s, i, s'.now);
  }

  lemma PublishIdle(c: Config, acts: seq<Action>, s: State, i: nat) returns (more: seq<Action>, s': State)
    requires Reachable(c, acts, s) && s.jobs.Keys == {} && i < |s.rows| && Claimable(s.rows[i], s.now)
    ensures Reachable(c, more, s') && i < |s'.rows| && s'.rows[i].eventId == s.rows[i].eventId
    ensures s'.rows[i].status == Published && i in s'.sent
  {
    more, s' := ExtendRun(Step, Opening(c), acts, s, Claim({i}, map[0 := i]));
    more, s' := ExtendRun(Step, Opening(c), more, s', Publish(0, true));
    more, s' := ExtendRun(Step, Opening(c), more, s', MarkPublished(0));
  }

  // ----- Published once -----

  /** Every event goes to the broker at most once. */
  ghost predicate SentOnce(s: State) {
    forall a, b :: 0 <= a < b < |s.sent| ==> s.sent[a] != s.sent[b]
  }

  ghost predicate OnceInv(s: State) {
    && Inv(s) && s.config.lease >= 0 && s.config.inTime && s.config.completes && SentOnce(s)
    && (forall j :: j in s.jobs ==> s.now <= s.jobs[j].until)
    && (forall j :: j in s.jobs ==>
          s.rows[s.jobs[j].row].status == Processing && s.rows[s.jobs[j].row].leaseUntil == Some(s.jobs[j].until))
    && (forall j, k :: j in s.jobs && k in s.jobs && s.jobs[j].row == s.jobs[k].row ==> j == k)
    && (forall i :: i in s.sent ==>
          i < |s.rows| && (s.rows[i].status == Published || exists j :: Is(s, j, Sent) && s.jobs[j].row == i))
  }

  lemma OnceSave(s: State, eventId: string)
    requires OnceInv(s)
    ensures OnceInv(s.(rows := Saved(s.rows, eventId, s.now)))
  {
    var s' := s.(rows := Saved(s.rows, eventId, s.now));
    SaveKeepsInv(s, eventId);
    SentStays(s, s');
  }

  /** Jobs and statuses stay as they are. */
  lemma SentStays(s: State, s': State)
    requires OnceInv(s) && s'.sent == s.sent && s'.jobs == s.jobs && |s.rows| <= |s'.rows|
    requires forall i :: 0 <= i < |s.rows| ==> s'.rows[i].status == s.rows[i].status
    ensures forall i :: i in s'.sent ==>
              i < |s'.rows| && (s'.rows[i].status == Published || exists j :: Is(s', j, Sent) && s'.jobs[j].row == i)
  {
    forall i | i in s'.sent && s'.rows[i].status != Published
      ensures exists j :: Is(s', j, Sent) && s'.jobs[j].row == i
    {
      var j :| Is(s, j, Sent) && s.jobs[j].row == i;
      assert Is(s', j, Sent);
    }
  }

  /** A leased row cannot be claimed again while its lease runs. */
  lemma OnceClaim(s: State, taken: set<int>, workers: map<int, nat>)
    requires OnceInv(s) && DoClaim(s, taken, workers).Some?
    ensures OnceInv(DoClaim(s, taken, workers).value)
  {
    var s' := DoClaim(s, taken, workers).value;
    ClaimKeepsInv(s, taken, workers);
    assert forall j :: j in s.jobs ==> s.jobs[j].row !in taken;
    ClaimKeepsSent(s, taken, workers);
  }

  lemma ClaimKeepsSent(s: State, taken: set<int>, workers: map<int, nat>)
    requires OnceInv(s) && DoClaim(s, taken, workers).Some? && forall j :: j in s.jobs ==> s.jobs[j].row !in taken
    ensures var s' := DoClaim(s, taken, workers).value;
            forall i :: i in s'.sent ==>
              i < |s'.rows| && (s'.rows[i].status == Published || exists j :: Is(s', j, Sent) && s'.jobs[j].row == i)
  {
    var s' := DoClaim(s, taken, workers).value;
    forall i | i in s'.sent
      ensures i < |s'.rows| && (s'.rows[i].status == Published || exists j :: Is(s', j, Sent) && s'.jobs[j].row == i)
    {
      if s.rows[i].status != Published {
        var j :| Is(s, j, Sent) && s.jobs[j].row == i;
        assert Is(s', j, Sent);
      }
    }
  }

  lemma OncePublish(s: State, j: int, ok: bool)
    requires OnceInv(s) && DoPublish(s, j, ok).Some?
    ensures OnceInv(DoPublish(s, j, ok).value)
  {
    var s' := DoPublish(s, j, ok).value;
    PublishKeepsInv(s, j, ok);
    assert s.jobs[j].row !in s.sent;
    forall i | i in s'.sent
      ensures i < |s'.rows| && (s'.rows[i].status == Published || exists k :: Is(s', k, Sent) && s'.jobs[k].row == i)
    {
      if i in s.sent {
        if s.rows[i].status != Published {
          var k :| Is(s, k, Sent) && s.jobs[k].row == i;
          assert Is(s', k, Sent);
        }
      } else {
        assert Is(s', j, Sent);
      }
    }
  }

  /** A job ends: unsent, or with its row marked. */
  lemma OnceEnd(s: State, j: int, s': State)
    requires OnceInv(s) && Inv(s') && j in s.jobs && s' == End(s.(rows := s'.rows), j) && |s'.rows| == |s.rows|
    requires forall i :: 0 <= i < |s.rows| && i != s.jobs[j].row ==> s'.rows[i] == s.rows[i]
    requires s.jobs[j].pc == Sent ==> s'.rows[s.jobs[j].row].status == Published
    ensures OnceInv(s')
  {
    forall i | i in s'.sent
      ensures i < |s'.rows| && (s'.rows[i].status == Published || exists k :: Is(s', k, Sent) && s'.jobs[k].row == i)
    {
      if s.rows[i].status != Published {
        var k :| Is(s, k, Sent) && s.jobs[k].row == i;
        assert k != j ==> Is(s', k, Sent);
      } else {
        assert i != s.jobs[j].row;
      }
    }
  }

  lemma OnceStep(s: State, a: Action)
    requires OnceInv(s) && Step(s, a).Some?
    ensures OnceInv(Step(s, a).value)
  {
    var s' := Step(s, a).value;
    StepKeepsInv(s, a);
    match a
    case Save(eventId) => OnceSave(s, eventId);
    case Claim(taken, workers) => OnceClaim(s, taken, workers);
    case Publish(j, ok) => OncePublish(s, j, ok);
    case MarkPublished(j) => OnceEnd(s, j, s');
    case MarkRetry(j) => OnceEnd(s, j, s');
    case Die(j) => if j in s.jobs { OnceEnd(s, j, s'); } else { assert s'.jobs == s.jobs; }
    case Tick(d) => SentStays(s, s');
  }

  /** A worker stops between publishing and marking; after the lease the event is sent again. */
  lemma LostMarkSendsTwice(c: Config) returns (acts: seq<Action>, s: State)
    requires c.lease >= 0 && !c.completes
    ensures Reachable(c, acts, s) && !SentOnce(s)
  {
    var s0 := Opening(c);
    acts, s := ExtendRun(Step, s0, [], s0, Save("e"));
    acts, s := ExtendRun(Step, s0, acts, s, Claim({0}, map[0 := 0]));
    acts, s := ExtendRun(Step, s0, acts, s, Publish(0, true));
    acts, s := ExtendRun(Step, s0, acts, s, Die(0));
    acts, s := SecondSend(c, acts, s);
  }

  /** The worker has published and its lease ends before it marks the row. */
  lemma SlowWorkerSendsTwice(c: Config) returns (acts: seq<Action>, s: State)
    requires c.lease >= 0 && !c.inTime
    ensures Reachable(c, acts, s) && !SentOnce(s)
  {
    var s0 := Opening(c);
    acts, s := ExtendRun(Step, s0, [], s0, Save("e"));
    acts, s := ExtendRun(Step, s0, acts, s, Claim({0}, map[0 := 0]));
    acts, s := ExtendRun(Step, s0, acts, s, Publish(0, true));
    acts, s := SecondSend(c, acts, s);
  }

  lemma SecondSend(c: Config, acts: seq<Action>, s: State) returns (more: seq<Action>, s': State)
    requires Reachable(c, acts, s) && s.config == c && s.now == 0 && s.sent == [0] && |s.rows| == 1
    requires s.rows[0].status == Processing && s.rows[0].leaseUntil == Some(c.lease) && s.rows[0].availableAt == 0
    requires 1 !in s.jobs && (!c.inTime || s.jobs.Keys == {})
    ensures Reachable(c, more, s') && !SentOnce(s')
  {
    var s0 := Opening(c);
    assert s.jobs.Keys == {} ==> forall j :: j !in s.jobs;
    more, s' := ExtendRun(Step, s0, acts, s, Tick(c.lease + 1));
    more, s' := ExtendRun(Step, s0, more, s', Claim({0}, map[1 := 0]));
    more, s' := ExtendRun(Step, s0, more, s', Publish(1, true));
    assert s'.sent[0] == s'.sent[1];
  }

  /** Delivery is exactly once, in every run, exactly under these two conditions. */
  lemma SentOnceIff(c: Config)
    requires c.lease >= 0
    ensures (forall acts, s :: Reachable(c, acts, s) ==> SentOnce(s)) <==> c.inTime && c.completes
  {
    if c.inTime && c.completes {
      var inv := (t: State) => OnceInv(t);
      forall t, a | inv(t) && Step(t, a).Some? ensures inv(Step(t, a).value) {
        OnceStep(t, a);
      }
      forall acts, s | Reachable(c, acts, s) ensures SentOnce(s) {
        InvariantOfRun(Step, inv, Opening(c), acts);
      }
    } else if !c.completes {
      var acts, s := LostMarkSendsTwice(c);
    } else {
      var acts, s := SlowWorkerSendsTwice(c);
    }
  }

  // ----- The repository and the runner, as they are written -----

  /** In id order, claimable, and any other claimable row comes after a full batch. */
  ghost predicate FirstClaimable(rows: Rows, now: int, limit: int, taken: seq<nat>) {
    && |taken| <= limit
    && (forall a, b :: 0 <= a < b < |taken| ==> taken[a] < taken[b])
    && (forall a :: 0 <= a < |taken| ==> taken[a] < |rows| && Claimable(rows[taken[a]], now))
    && (forall i :: 0 <= i < |rows| && Claimable(rows[i], now) && i !in taken ==>
          |taken| == limit && forall a :: 0 <= a < limit ==> taken[a] < i)
  }

  predicate Settled(r: Row, delivered: bool, retryAt: int) {
    if delivered then r.status == Published else r.status == Pending && r.availableAt == retryAt
  }

  /** Under a lease until then, one attempt further, and otherwise as it was. */
  predicate IsLeased(row: Row, row': Row, until: int) {
    && row'.status == Processing && row'.leaseUntil == Some(until) && row'.attempts == row.attempts + 1
    && row'.eventId == row.eventId && row'.availableAt == row.availableAt
  }

  // ----- Attempts are claims -----

  function ClaimsOf(acts: seq<Action>, i: nat): nat {
    if acts == [] then 0
    else
      var a := acts[|acts| - 1];
      ClaimsOf(acts[..|acts| - 1], i) + (if a.Claim? && i in a.taken then 1 else 0)
  }

  lemma StepCounts(s: State, a: Action, i: nat)
    requires Inv(s) && Step(s, a).Some?
    ensures var s' := Step(s, a).value;
            && |s.rows| <= |s'.rows|
            && (i < |s.rows| ==> s'.rows[i].attempts == s.rows[i].attempts + (if a.Claim? && i in a.taken then 1 else 0))
            && (|s.rows| <= i < |s'.rows| ==> s'.rows[i].attempts == 0 && !(a.Claim? && i in a.taken))
  {
  }

  /** In every run a row has as many attempts as there were claims that took it. */
  lemma {:induction false} AttemptsAreClaims(c: Config, acts: seq<Action>, s: State, i: nat)
    requires Reachable(c, acts, s)
    ensures i < |s.rows| ==> s.rows[i].attempts == ClaimsOf(acts, i)
    ensures i >= |s.rows| ==> ClaimsOf(acts, i) == 0
    decreases |acts|
  {
    if acts != [] {
      var front, a := acts[..|acts| - 1], acts[|acts| - 1];
      assert acts == front + [a] && [a][1..] == [];
      PrefixRuns(Step, Opening(c), front, [a]);
      var t := Exec(Step, Opening(c), front).value;
      AttemptsAreClaims(c, front, t, i);
      ReachableInv(c, front, t);
      StepCounts(t, a, i);
    }
  }

  class OutboxRepository {
    var rows: Rows

    constructor ()
      ensures rows == []
    {
      rows := [];
    }

    method Save(eventId: string, now: int)
      modifies this
      ensures rows == Saved(old(rows), eventId, now)
    {
      var i := 0;
      while i < |rows|
        invariant 0 <= i <= |rows| && rows == old(rows)
        invariant forall k :: 0 <= k < i ==> rows[k].eventId != eventId
      {
        if rows[i].eventId == eventId { return; }
        i := i + 1;
      }
      rows := rows + [Row(eventId, Pending, now, None, 0)];
    }

    /** The first claimable rows in id order, at most `limit` of them. */
    method Select(limit: int, now: int) returns (taken: seq<nat>)
      ensures FirstClaimable(rows, now, if limit <= 0 || limit > 500 then 100 else limit, taken)
    {
      var l := if limit <= 0 || limit > 500 then 100 else limit;
      taken := [];
      var i := 0;
      while i < |rows| && |taken| < l
        invariant 0 <= i <= |rows| && |taken| <= l
        invariant forall a, b :: 0 <= a < b < |taken| ==> taken[a] < taken[b]
        invariant forall a :: 0 <= a < |taken| ==> taken[a] < i && Claimable(rows[taken[a]], now)
        invariant forall k :: 0 <= k < i && Claimable(rows[k], now) ==> k in taken
      {
        if Claimable(rows[i], now) { taken := taken + [i]; }
        i := i + 1;
      }
    }

    method Lease(taken: seq<nat>, until: int)
      requires forall a :: 0 <= a < |taken| ==> taken[a] < |rows|
      requires forall a, b :: 0 <= a < b < |taken| ==> taken[a] < taken[b]
      modifies this
      ensures rows == Leased(old(rows), (set i | i in taken), until)
    {
      var a := 0;
      while a < |taken|
        invariant 0 <= a <= |taken|
        invariant rows == Leased(old(rows), (set i | i in taken[..a]), until)
      {
        var k := taken[a];
        assert k !in taken[..a];
        rows := rows[k := rows[k].(status := Processing, leaseUntil := Some(until), attempts := rows[k].attempts + 1)];
        a := a + 1;
        assert taken[..a] == taken[..a - 1] + [k];
      }
      assert taken[..|taken|] == taken;
    }

    method Claim(limit: int, lease: int, now: int) returns (taken: seq<nat>)
      modifies this
      ensures FirstClaimable(old(rows), now, if limit <= 0 || limit > 500 then 100 else limit, taken)
      ensures rows == Leased(old(rows), (set i | i in taken), now + lease)
      ensures |rows| == |old(rows)|
      ensures forall i :: 0 <= i < |rows| ==>
                if i in taken then IsLeased(old(rows)[i], rows[i], now + lease) else rows[i] == old(rows)[i]
    {
      taken := Select(limit, now);
      Lease(taken, now + lease);
    }

    method MarkPublished(i: nat)
      modifies this
      ensures rows == MarkedPublished(old(rows), i)
      ensures |rows| == |old(rows)| && forall k :: 0 <= k < |rows| && k != i ==> rows[k] == old(rows)[k]
      ensures i < |rows| ==> rows[i] == if old(rows)[i].status == Processing
                                        then old(rows)[i].(status := Published, leaseUntil := None) else old(rows)[i]
    {
      if i < |rows| && rows[i].status == Processing {
        rows := rows[i := rows[i].(status := Published, leaseUntil := None)];
      }
    }

    method MarkRetry(i: nat, availableAt: int)
      modifies this
      ensures rows == MarkedRetry(old(rows), i, availableAt)
      ensures |rows| == |old(rows)| && forall k :: 0 <= k < |rows| && k != i ==> rows[k] == old(rows)[k]
      ensures i < |rows| ==> rows[i] == if old(rows)[i].status == Processing
                                        then old(rows)[i].(status := Pending, availableAt := availableAt, leaseUntil := None)
                                        else old(rows)[i]
    {
      if i < |rows| && rows[i].status == Processing {
        rows := rows[i := rows[i].(status := Pending, availableAt := availableAt, leaseUntil := None)];
      }
    }

    method Settle(i: nat, delivered: bool, retryAt: int)
      requires i < |rows| && rows[i].status == Processing
      modifies this
      ensures |rows| == |old(rows)| && Settled(rows[i], delivered, retryAt)
      ensures forall k :: 0 <= k < |rows| && k != i ==> rows[k] == old(rows)[k]
    {
      if delivered {
        MarkPublished(i);
      } else {
        MarkRetry(i, retryAt);
      }
    }

    /** One round of a worker that is alone: each claimed event ends published or scheduled for a retry. */
    method Flush(lease: int, retryDelay: int, now: int, delivered: nat -> bool) returns (taken: seq<nat>)
      modifies this
      ensures |rows| == |old(rows)|
      ensures forall i :: 0 <= i < |rows| && i !in taken ==> rows[i] == old(rows)[i]
      ensures forall a :: 0 <= a < |taken| ==>
                taken[a] < |rows| && Settled(rows[taken[a]], delivered(taken[a]), now + retryDelay)
      ensures forall i :: 0 <= i < |rows| && Claimable(old(rows)[i], now) && i !in taken ==> |taken| == 100
    {
      taken := Claim(100, lease, now);
      ghost var claimed := rows;
      var a := 0;
      while a < |taken|
        invariant 0 <= a <= |taken| && |rows| == |claimed|
        invariant forall i :: 0 <= i < |rows| && i !in taken[..a] ==> rows[i] == claimed[i]
        invariant forall b :: 0 <= b < a ==> Settled(rows[taken[b]], delivered(taken[b]), now + retryDelay)
      {
        var k := taken[a];
        assert k !in taken[..a];
        assert rows[k].status == Processing;
        Settle(k, delivered(k), now + retryDelay);
        a := a + 1;
        assert taken[..a] == taken[..a - 1] + [k];
      }
      assert taken[..|taken|] == taken;
    }
  }
}
