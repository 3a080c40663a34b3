/**
 Idempotent submission, for one request key. Attempts begin, publish, and complete or abort; any
 number of them overlap and each may stop for good after any step. The key's entry is changed by
 three scripts and expires.
 */
module Idempotency {
  import opened Runs

  datatype Status = Processing | Completed(order: int)

  datatype Entry = Entry(fingerprint: string, status: Status, expiresAt: int)

  datatype BeginReply = Acquired | Busy | Known(order: int) | Refused

  function Live(e: Option<Entry>, now: int): Option<Entry> {
    if e.Some? && now < e.value.expiresAt then e else None
  }

  // ----- The scripts -----

  function BeginScript(e: Option<Entry>, now: int, fingerprint: string, ttl: int): (Option<Entry>, BeginReply) {
    match Live(e, now)
    case None => (Some(Entry(fingerprint, Processing, now + ttl)), Acquired)
    case Some(x) =>
      (e, if x.fingerprint != fingerprint then Refused else if x.status.Completed? then Known(x.status.order) else Busy)
  }

  function CompleteScript(e: Option<Entry>, now: int, fingerprint: string, order: int,
                          ttl: int): (Option<Entry>, bool) {
    match Live(e, now)
    case None => (e, false)
    case Some(x) =>
      if x.fingerprint != fingerprint then (e, false) else (Some(Entry(fingerprint, Completed(order), now + ttl)), true)
  }

  function AbortScript(e: Option<Entry>, now: int, fingerprint: string): Option<Entry> {
    match Live(e, now)
    case None => e
    case Some(x) => if x.fingerprint == fingerprint && x.status == Processing then None else e
  }

  // ----- The protocol -----

  datatype Config = Config(
    processingTtl: int,
    resultTtl: int,
    inTime: bool,     // every attempt ends before its processing entry expires
    completes: bool)  // an attempt that published goes on to complete

  predicate Proper(c: Config) {
    0 < c.processingTtl && 1 < c.resultTtl
  }

  datatype Pc = Working | Published | Failing

  datatype Attempt = Attempt(fingerprint: string, order: int, begunAt: int, pc: Pc)

  datatype Publication = Publication(order: int, fingerprint: string, at: int)

  datatype State = State(
    config: Config,
    now: int,
    entry: Option<Entry>,
    attempts: map<int, Attempt>,
    published: seq<Publication>)

  datatype Action =
    | Begin(a: int, fingerprint: string, order: int)
    | Publish(a: int, ok: bool)
    | Fail(a: int)
    | Complete(a: int)
    | Abort(a: int)
    | Crash(a: int)
    | Tick(d: nat)

  predicate Is(s: State, a: int, pc: Pc) {
    a in s.attempts && s.attempts[a].pc == pc
  }

  function Go(s: State, a: int, pc: Pc): State
    requires a in s.attempts
  {
    s.(attempts := s.attempts[a := s.attempts[a].(pc := pc)])
  }

  function DoBegin(s: State, a: int, fingerprint: string, order: int): Option<State> {
    if a !in s.attempts then
      var (e, reply) := BeginScript(s.entry, s.now, fingerprint, s.config.processingTtl);
      Some(if reply == Acquired then s.(entry := e, attempts := s.attempts[a := Attempt(fingerprint, order, s.now, Working)])
           else s.(entry := e))
    else None
  }

  function DoPublish(s: State, a: int, ok: bool): Option<State> {
    if Is(s, a, Working) then
      var x := s.attempts[a];
      Some(if ok then Go(s.(published := s.published + [Publication(x.order, x.fingerprint, s.now)]), a, Published)
           else Go(s, a, Failing))
    else None
  }

  function DoComplete(s: State, a: int): Option<State> {
    if Is(s, a, Published) then
      var x := s.attempts[a];
      Some(s.(entry := CompleteScript(s.entry, s.now, x.fingerprint, x.order, s.config.resultTtl).0, attempts := s.attempts - {a}))
    else None
  }

  function DoAbort(s: State, a: int): Option<State> {
    if Is(s, a, Failing) then
      Some(s.(entry := AbortScript(s.entry, s.now, s.attempts[a].fingerprint), attempts := s.attempts - {a}))
    else None
  }

  function DoCrash(s: State, a: int): Option<State> {
    if s.config.completes && Is(s, a, Published) then None else Some(s.(attempts := s.attempts - {a}))
  }

  predicate TickAllowed(s: State, d: nat) {
    s.config.inTime ==> forall a :: a in s.attempts ==> s.now + d < s.attempts[a].begunAt + s.config.processingTtl
  }

  function Step(s: State, a: Action): Option<State> {
    match a
    case Begin(x, fingerprint, order) => DoBegin(s, x, fingerprint, order)
    case Publish(x, ok) => DoPublish(s, x, ok)
    case Fail(x) => if Is(s, x, Working) then Some(Go(s, x, Failing)) else None
    case Complete(x) => DoComplete(s, x)
    case Abort(x) => DoAbort(s, x)
    case Crash(x) => DoCrash(s, x)
    case Tick(d) => if TickAllowed(s, d) then Some(s.(now := s.now + d)) else None
  }

  function Opening(c: Config): State {
    State(c, 0, None, map[], [])
  }

  ghost predicate Reachable(c: Config, acts: seq<Action>, s: State) {
    Proper(c) && Exec(Step, Opening(c), acts) == Some(s)
  }

  // ----- At most one publication per lifetime of a result -----

  /** Two publications for the key are at least the lifetime of a result apart. */
  ghost predicate OncePerLifetime(s: State) {
    forall i, j :: 0 <= i < j < |s.published| ==> s.published[i].at + s.config.resultTtl <= s.published[j].at
  }

  /** The one running attempt holds the live processing entry. */
  ghost predicate AttemptInv(s: State) {
    && (forall a, b :: a in s.attempts && b in s.attempts ==> a == b)
    && (forall a :: a in s.attempts ==>
          && s.now < s.attempts[a].begunAt + s.config.processingTtl
          && s.entry == Some(Entry(s.attempts[a].fingerprint, Processing, s.attempts[a].begunAt + s.config.processingTtl)))
  }

  ghost predicate InProgress(s: State, p: Publication) {
    exists a :: Is(s, a, Published) && s.attempts[a].order == p.order && s.attempts[a].fingerprint == p.fingerprint
  }

  /** The result of `p` is kept for its whole lifetime. */
  predicate Answered(s: State, p: Publication) {
    && s.entry.Some? && s.entry.value.status == Completed(p.order) && s.entry.value.fingerprint == p.fingerprint
    && p.at + s.config.resultTtl <= s.entry.value.expiresAt
  }

  ghost predicate LastInv(s: State) {
    && (forall a :: Is(s, a, Published) ==> s.published != [] && InProgress(s, s.published[|s.published| - 1]))
    && (s.published != [] ==>
          var p := s.published[|s.published| - 1];
          && p.at <= s.now
          && (InProgress(s, p) || Answered(s, p) || p.at + s.config.resultTtl <= s.now))
  }

  ghost predicate Inv(s: State) {
    && Proper(s.config) && s.config.inTime && s.config.completes
    && AttemptInv(s) && LastInv(s) && OncePerLifetime(s)
  }

  lemma BeginKeepsInv(s: State, a: int, fingerprint: string, order: int)
    requires Inv(s) && DoBegin(s, a, fingerprint, order).Some?
    ensures Inv(DoBegin(s, a, fingerprint, order).value)
  {
    var s' := DoBegin(s, a, fingerprint, order).value;
    if Live(s.entry, s.now).None? {
      assert forall b :: b !in s.attempts;
    }
  }

  lemma PublishKeepsInv(s: State, a: int, ok: bool)
    requires Inv(s) && DoPublish(s, a, ok).Some?
    ensures Inv(DoPublish(s, a, ok).value)
  {
    var s' := DoPublish(s, a, ok).value;
    if s.published != [] {
      var p := s.published[|s.published| - 1];
      assert !Answered(s, p);
      assert !InProgress(s, p);
    }
    if ok {
      var p := s'.published[|s'.published| - 1];
      assert Is(s', a, Published);
      assert InProgress(s', p);
    }
  }

  lemma CompleteKeepsInv(s: State, a: int)
    requires Inv(s) && DoComplete(s, a).Some?
    ensures Inv(DoComplete(s, a).value)
  {
    var s' := DoComplete(s, a).value;
    assert forall b :: b !in s'.attempts;
    var p := s.published[|s.published| - 1];
    assert InProgress(s, p);
    assert Answered(s', p);
  }

  lemma StepKeepsInv(s: State, a: Action)
    requires Inv(s) && Step(s, a).Some?
    ensures Inv(Step(s, a).value)
  {
    match a
    case Begin(x, fingerprint, order) => BeginKeepsInv(s, x, fingerprint, order);
    case Publish(x, ok) => PublishKeepsInv(s, x, ok);
    case Fail(x) => FailKeepsInv(s, x);
    case Complete(x) => CompleteKeepsInv(s, x);
    case Abort(x) => EndKeepsInv(s, x, AbortScript(s.entry, s.now, s.attempts[x].fingerprint));
    case Crash(x) => EndKeepsInv(s, x, s.entry);
    case Tick(d) => TickKeepsInv(s, d);
  }

  lemma FailKeepsInv(s: State, a: int)
    requires Inv(s) && Is(s, a, Working)
    ensures Inv(Go(s, a, Failing))
  {
    var s' := Go(s, a, Failing);
    if s.published != [] {
      assert !InProgress(s, s.published[|s.published| - 1]);
    }
  }

  /** An attempt that has not published ends; at most the processing entry goes with it. */
  lemma EndKeepsInv(s: State, a: int, e: Option<Entry>)
    requires Inv(s) && !Is(s, a, Published)
    requires e == s.entry || (e == None && a in s.attempts)
    ensures Inv(s.(entry := e, attempts := s.attempts - {a}))
  {
    var s' := s.(entry := e, attempts := s.attempts - {a});
    if s.published != [] {
      var p := s.published[|s.published| - 1];
      if InProgress(s, p) {
        var b :| Is(s, b, Published) && s.attempts[b].order == p.order && s.attempts[b].fingerprint == p.fingerprint;
        assert Is(s', b, Published);
      }
    }
    forall b | Is(s', b, Published) ensures s'.published != [] && InProgress(s', s'.published[|s'.published| - 1]) {
      assert Is(s, b, Published);
    }
  }

  lemma TickKeepsInv(s: State, d: nat)
    requires Inv(s) && TickAllowed(s, d)
    ensures Inv(s.(now := s.now + d))
  {
    var s' := s.(now := s.now + d);
    assert forall a :: Is(s', a, Published) <==> Is(s, a, Published);
    if s.published != [] {
      var p := s.published[|s.published| - 1];
      assert InProgress(s, p) ==> InProgress(s', p);
    }
  }

  lemma ReachableInv(c: Config, acts: seq<Action>, s: State)
    requires Reachable(c, acts, s) && c.inTime && c.completes
    ensures Inv(s) && s.config == c
  {
    var inv := (t: State) => Inv(t) && t.config == c;
    forall t, a | inv(t) && Step(t, a).Some? ensures inv(Step(t, a).value) {
      StepKeepsInv(t, a);
      StepKeepsConfig(t, a);
    }
    InvariantOfRun(Step, inv, Opening(c), acts);
  }

  lemma StepKeepsConfig(s: State, a: Action)
    requires Step(s, a).Some?
    ensures Step(s, a).value.config == s.config
  {
  }

  /**
   Once the attempt that published has ended, and until the lifetime of its result is over, every
   call with the same fingerprint gets the same order number, every other call is refused, and
   none publishes.
   */
  lemma SameAnswerForItsLifetime(c: Config, acts: seq<Action>, s: State, fingerprint: string)
    requires Reachable(c, acts, s) && c.inTime && c.completes && s.attempts == map[] && s.published != []
    ensures OncePerLifetime(s)
    ensures var p := s.published[|s.published| - 1];
            s.now < p.at + c.resultTtl ==>
              BeginScript(s.entry, s.now, fingerprint, c.processingTtl) ==
              (s.entry, if fingerprint == p.fingerprint then Known(p.order) else Refused)
  {
    ReachableInv(c, acts, s);
    var p := s.published[|s.published| - 1];
    assert !InProgress(s, p);
  }

  /** Aborting leaves a completed entry alone, in any state. */
  lemma AbortKeepsCompleted(e: Option<Entry>, now: int, fingerprint: string)
    ensures e.Some? && e.value.status.Completed? ==> AbortScript(e, now, fingerprint) == e
    ensures AbortScript(e, now, fingerprint) != e ==>
              AbortScript(e, now, fingerprint) == None && e.value.fingerprint == fingerprint
  {
  }

  // ----- The two conditions are needed -----

  /** An attempt stops between publishing and completing; after its entry expired a second one publishes. */
  lemma LostCompletionPublishesTwice(c: Config) returns (acts: seq<Action>, s: State)
    requires Proper(c) && !c.completes
    ensures Reachable(c, acts, s) && !OncePerLifetime(s)
  {
    var s0 := Opening(c);
    acts, s := ExtendRun(Step, s0, [], s0, Begin(0, "f", 7));
    acts, s := ExtendRun(Step, s0, acts, s, Tick(c.processingTtl - 1));
    acts, s := ExtendRun(Step, s0, acts, s, Publish(0, true));
    acts, s := ExtendRun(Step, s0, acts, s, Crash(0));
    assert forall a :: a !in s.attempts;
    acts, s := ExtendRun(Step, s0, acts, s, Tick(1));
    acts, s := ExtendRun(Step, s0, acts, s, Begin(1, "f", 8));
    acts, s := ExtendRun(Step, s0, acts, s, Publish(1, true));
    assert s.published[0].at + c.resultTtl > s.published[1].at;
  }

  /** An attempt outlives its entry, so that two attempts hold the key and both publish. */
  lemma SlowAttemptPublishesTwice(c: Config) returns (acts: seq<Action>, s: State)
    requires Proper(c) && !c.inTime
    ensures Reachable(c, acts, s) && !OncePerLifetime(s)
  {
    var s0 := Opening(c);
    acts, s := ExtendRun(Step, s0, [], s0, Begin(0, "f", 7));
    acts, s := ExtendRun(Step, s0, acts, s, Tick(c.processingTtl));
    acts, s := ExtendRun(Step, s0, acts, s, Begin(1, "f", 8));
    acts, s := ExtendRun(Step, s0, acts, s, Publish(0, true));
    acts, s := ExtendRun(Step, s0, acts, s, Publish(1, true));
    assert s.published[0].at + c.resultTtl > s.published[1].at;
  }

  lemma OncePerLifetimeIff(c: Config)
    requires Proper(c)
    ensures (forall acts, s :: Reachable(c, acts, s) ==> OncePerLifetime(s)) <==> c.inTime && c.completes
  {
    if c.inTime && c.completes {
      forall acts, s | Reachable(c, acts, s) ensures OncePerLifetime(s) {
        ReachableInv(c, acts, s);
      }
    } else if !c.completes {
      var acts, s := LostCompletionPublishesTwice(c);
    } else {
      var acts, s := SlowAttemptPublishesTwice(c);
    }
  }

  // ----- The store and the submission, as they run alone -----

  class IdempotencyStore {
    var entry: Option<Entry>

    constructor ()
      ensures entry == None
    {
      entry := None;
    }

    method Begin(now: int, fingerprint: string, ttl: int) returns (r: BeginReply)
      modifies this
      ensures (entry, r) == BeginScript(old(entry), now, fingerprint, ttl)
    {
      if entry.Some? && now < entry.value.expiresAt {
        if entry.value.fingerprint != fingerprint { return Refused; }
        if entry.value.status.Completed? { return Known(entry.value.status.order); }
        return Busy;
      }
      entry := Some(Entry(fingerprint, Processing, now + ttl));
      return Acquired;
    }

    method Complete(now: int, fingerprint: string, order: int, ttl: int) returns (ok: bool)
      modifies this
      ensures (entry, ok) == CompleteScript(old(entry), now, fingerprint, order, ttl)
    {
      if entry.None? || now >= entry.value.expiresAt || entry.value.fingerprint != fingerprint { return false; }
      entry := Some(Entry(fingerprint, Completed(order), now + ttl));
      return true;
    }

    method Abort(now: int, fingerprint: string)
      modifies this
      ensures entry == AbortScript(old(entry), now, fingerprint)
    {
      if entry.Some? && now < entry.value.expiresAt && entry.value.fingerprint == fingerprint && entry.value.status == Processing {
        entry := None;
      }
    }
  }

  /** What the calls into pricing, numbering, inventory and the broker will say. */
  datatype Outcomes = Outcomes(priced: bool, number: Option<int>, identified: bool, locked: bool, sent: bool, undone: bool)

  /** Everything up to the seat lock succeeds. */
  predicate Ready(out: Outcomes) {
    out.priced && out.number.Some? && out.identified && out.locked
  }

  datatype Submission = Accepted(order: int) | Duplicate | Failed

  class CreateOrder {
    const store: IdempotencyStore
    const processingTtl: int
    const resultTtl: int
    var published: seq<int>
    var held: int

    constructor (store: IdempotencyStore, processingTtl: int, resultTtl: int)
      ensures this.store == store && this.processingTtl == processingTtl && this.resultTtl == resultTtl
      ensures published == [] && held == 0
    {
      this.store, this.processingTtl, this.resultTtl, published, held := store, processingTtl, resultTtl, [], 0;
    }

    /**
     Alone and at one moment: a key that was free ends free if nothing was published, and answers
     with the published number if something was. Seats stay held exactly for a published order,
     or where giving them back failed.
     */
    method CreateAsync(now: int, fingerprint: string, out: Outcomes) returns (r: Submission)
      requires 0 < processingTtl && 0 < resultTtl
      modifies this, store
      ensures old(Live(store.entry, now)).Some? ==>
                store.entry == old(store.entry) && published == old(published) && held == old(held)
      ensures old(Live(store.entry, now)).Some? ==>
                && (r.Accepted? <==> store.entry.value.fingerprint == fingerprint && store.entry.value.status.Completed?)
                && (r.Accepted? ==> r.order == store.entry.value.status.order)
      ensures old(Live(store.entry, now)).Some? ==>
                && (r == Duplicate <==> store.entry.value.fingerprint == fingerprint && store.entry.value.status == Processing)
                && (r == Failed <==> store.entry.value.fingerprint != fingerprint)
      ensures old(Live(store.entry, now)).None? ==>
                r == if Ready(out) && out.sent then Accepted(out.number.value) else Failed
      ensures old(Live(store.entry, now)).None? ==>
                held == old(held) + (if Ready(out) && (out.sent || !out.undone) then 1 else 0)
      ensures old(Live(store.entry, now)).None? && r.Accepted? ==>
                && store.entry == Some(Entry(fingerprint, Completed(r.order), now + resultTtl))
                && published == old(published) + [r.order] && held == old(held) + 1
      ensures old(Live(store.entry, now)).None? && !r.Accepted? ==>
                store.entry == None && published == old(published)
    {
      var begun := store.Begin(now, fingerprint, processingTtl);
      if begun == Refused { return Failed; }
      if begun.Known? { return Accepted(begun.order); }
      if begun == Busy { return Duplicate; }
      var abort := true;
      r := Failed;
      if out.priced && out.number.Some? && out.identified && out.locked {
        held := held + 1;
        if !out.sent {
          if out.undone { held := held - 1; }
        } else {
          published := published + [out.number.value];
          abort := false;
          var ok := store.Complete(now, fingerprint, out.number.value, resultTtl);
          r := if ok then Accepted(out.number.value) else Failed;
        }
      }
      if abort { store.Abort(now, fingerprint); }
    }
  }
}
