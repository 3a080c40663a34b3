/**
 The migration worker as it is written. Between any two of its own actions routers and writers
 may take any steps of the protocol in ShardMigration, given by a schedule with one list of steps
 for each such point; bodies of Poll do not overlap. Every execution is a run of that protocol.
 */
module MigrationProcesses {
  import opened Runs
  import opened Orders
  import opened ShardMigration
  import opened FiniteSets

  // ----- The end of the next batch -----

  function Block(t: Table, cursor: int, next: int): set<int> {
    set n | n in t && cursor < n <= next
  }

  /** The smallest key beyond `low`. */
  method NextKey(t: Table, low: int) returns (k: Option<int>)
    ensures k.None? <==> NothingAfter(t, low)
    ensures k.Some? ==> k.value in t && low < k.value && forall n :: n in t && low < n ==> k.value <= n
  {
    k := None;
    var todo := t.Keys;
    while todo != {}
      invariant todo <= t.Keys
      invariant k.None? ==> forall n :: n in t && n !in todo ==> n <= low
      invariant k.Some? ==> k.value in t && low < k.value && forall n :: n in t && n !in todo && low < n ==> k.value <= n
      decreases todo
    {
      var n := PickOne(todo);
      if n > low && (k.None? || n < k.value) {
        k := Some(n);
      }
      todo := todo - {n};
    }
  }

  lemma BlockGrows(t: Table, cursor: int, last: int, k: int)
    requires cursor <= last < k && k in t && forall n :: n in t && last < n ==> k <= n
    ensures Block(t, cursor, k) == Block(t, cursor, last) + {k} && k !in Block(t, cursor, last)
  {
  }

  /** MAX and COUNT of the first `batch` keys beyond the cursor. */
  method FindBatch(t: Table, cursor: int, batch: nat) returns (next: int, copied: nat)
    requires batch > 0
    ensures copied == 0 <==> NothingAfter(t, cursor)
    ensures copied > 0 ==> IsBoundary(t, cursor, batch, next) && copied == |Block(t, cursor, next)|
    ensures copied > 0 ==> next in t && cursor < next && copied <= batch && (copied == batch || NothingAfter(t, next))
  {
    next, copied := cursor, 0;
    assert Block(t, cursor, cursor) == {};
    while copied < batch
      invariant cursor <= next && copied <= batch && copied == |Block(t, cursor, next)|
      invariant copied == 0 ==> next == cursor
      invariant copied > 0 ==> next in t && cursor < next
      decreases batch - copied
    {
      var k := NextKey(t, next);
      if k == None {
        return;
      }
      BlockGrows(t, cursor, next, k.value);
      next, copied := k.value, copied + 1;
    }
  }

  // ----- The worker -----

  predicate OfWorker(a: Action) {
    a.LoadTask? || a.FindBoundary? || a.CopyRows? || a.AdvanceCursor? || a.CutOver? || a.WorkerStops?
  }

  /** What routers, writers and the control plane leave to a worker that has loaded its task. */
  ghost predicate Undisturbed(s: State, s': State) {
    && s'.worker == s.worker && s'.mode == s.mode
    && (s.task.Some? ==> s'.task.Some? && s'.task.value.cursor == s.task.value.cursor && s'.task.value.batch == s.task.value.batch)
  }

  /** Everything acknowledged up to the cursor is in the target. */
  ghost predicate UpToCursor(s: State) {
    s.task.Some? ==>
      forall n, v :: (n, v) in s.acked && n <= s.task.value.cursor ==> n in s.tgt && Reaches(v, s.tgt[n].status)
  }

  lemma CursorIsCovered(s0: State, acts: seq<Action>, s: State)
    requires BeforeMigration(s0) && s0.task.None? && Reachable(s0, acts, s)
    ensures UpToCursor(s)
  {
    ReachableInv(s0, acts, s);
    if s.task.Some? {
      forall n, v | (n, v) in s.acked && n <= s.task.value.cursor ensures n in s.tgt && Reaches(v, s.tgt[n].status) {
        assert n > 0 && Covered(s, n);
      }
    }
  }

  predicate HasWork(s: State) {
    s.task.Some? && (s.task.value.status == Pending || s.task.value.status == Running)
  }

  lemma WriteDoesNotDisturb(s: State, id: int, lost: bool)
    requires DoWriteStep(s, id, lost).Some?
    ensures Undisturbed(s, DoWriteStep(s, id, lost).value)
  {
    var w := s.writes[id];
    var (t, outcome) := Statement(TableAt(s, w.site), w);
    AfterStatementDoesNotDisturb(SetTable(s, w.site, t), id, w, outcome);
  }

  lemma AfterStatementDoesNotDisturb(s: State, id: int, w: Write, outcome: Outcome)
    ensures Undisturbed(s, AfterStatement(s, id, w, outcome)) && Undisturbed(s, DropWrite(s, id))
  {
  }

  lemma OthersDoNotDisturb(s: State, a: Action)
    requires Step(s, a).Some? && !OfWorker(a) && s.mode != OnSource
    ensures Undisturbed(s, Step(s, a).value)
  {
    if a.WriteStep? {
      WriteDoesNotDisturb(s, a.id, a.replyLost);
    }
  }

  /** The call that fails, if one does; a lost reply is a failure of a statement that took effect. */
  datatype Trouble = NoTrouble | AtBoundary | AtCopy | AtAdvance | AdvanceReplyLost | AtCutOver | CutOverReplyLost

  datatype PollResult = NothingToDo | TooEarly | CopiedBatch | Completed | Broken

  class MigrationWorker {
    ghost const s0: State
    var s: State
    var schedule: seq<seq<Action>>
    ghost var acts: seq<Action>

    constructor (s0: State, schedule: seq<seq<Action>>)
      requires BeforeMigration(s0) && s0.task.None?
      ensures this.s0 == s0 && s == s0 && Live() && this.schedule == schedule
    {
      this.s0 := s0;
      s, this.schedule := s0, schedule;
      acts := [];
      RowsStayIntact(s0, [], s0);
    }

    /** The state was reached by a run of the protocol, under a new task id. */
    ghost predicate Live()
      reads this
    {
      BeforeMigration(s0) && s0.task.None? && Reachable(s0, acts, s) && Intact(s.begun, s.src) && Intact(s.begun, s.tgt)
    }

    method Do(a: Action)
      requires Live() && Step(s, a).Some?
      modifies this
      ensures Live() && Step(old(s), a) == Some(s) && schedule == old(schedule)
    {
      ghost var more, next := ExtendRun(Step, s0, acts, s, a);
      s := Step(s, a).value;
      acts := more;
      RowsStayIntact(s0, acts, s);
    }

    /** Steps of routers, writers and the control plane: those of the schedule's next list that are possible. */
    method Others()
      requires Live() && s.mode != OnSource
      modifies this
      ensures Live() && Undisturbed(old(s), s)
      ensures schedule == if old(schedule) == [] then [] else old(schedule)[1..]
    {
      if schedule == [] { return; }
      var env := schedule[0];
      schedule := schedule[1..];
      var i := 0;
      while i < |env|
        invariant 0 <= i <= |env| && schedule == old(schedule)[1..]
        invariant Live() && Undisturbed(old(s), s)
      {
        if !OfWorker(env[i]) && Step(s, env[i]).Some? {
          OthersDoNotDisturb(s, env[i]);
          Do(env[i]);
        }
        i := i + 1;
      }
    }

    /** CopyBatch: find the boundary, upsert the block, advance the cursor; each of the three can fail. */
    method CopyBatch(trouble: Trouble) returns (copied: nat, ok: bool)
      requires Live() && s.worker.Loaded? && s.task.Some? && s.mode == Dual
      modifies this
      ensures Live() && s.task.Some? && s.mode == Dual
      ensures ok && copied > 0 ==> s.worker == Idle && old(s.task.value.cursor) < s.task.value.cursor
      ensures ok && copied == 0 ==> s.worker == Drained
      ensures !ok ==> trouble != NoTrouble && s.worker != Idle
      ensures Intact(s.begun, s.tgt) && UpToCursor(s)
    {
      ReachableInv(s0, acts, s);
      Others();
      CursorIsCovered(s0, acts, s);
      if trouble == AtBoundary { return 0, false; }
      var batch := if s.task.value.batch <= 0 then DEFAULT_BATCH else s.task.value.batch;
      var next;
      next, copied := FindBatch(s.src, s.worker.cursor, batch);
      Do(FindBoundary(next));
      CursorIsCovered(s0, acts, s);
      if copied == 0 { return 0, true; }
      ok := CopyBlock(trouble);
      CursorIsCovered(s0, acts, s);
    }

    method CopyBlock(trouble: Trouble) returns (ok: bool)
      requires Live() && s.worker.Bounded? && s.worker.cursor < s.worker.next && s.task.Some? && s.mode == Dual
      modifies this
      ensures Live() && s.task.Some? && s.mode == Dual
      ensures ok ==> s.worker == Idle && s.task.value.cursor == old(s.worker.next)
      ensures !ok ==> trouble != NoTrouble && s.worker != Idle
    {
      Others();
      if trouble == AtCopy { return false; }
      Do(CopyRows);
      Others();
      if trouble == AtAdvance { return false; }
      Do(AdvanceCursor(trouble == AdvanceReplyLost));
      return trouble != AdvanceReplyLost;
    }

    /**
     Poll: after a cutover every write that was ever acknowledged is in the target. A failure pauses
     the task, unless that fails too (`pauses` is false), which Poll ignores.
     */
    method Poll(trouble: Trouble, pauses: bool) returns (r: PollResult)
      requires Live() && s.worker == Idle
      modifies this
      ensures Live() && s.worker == Idle && Intact(s.begun, s.tgt)
      ensures r == NothingToDo <==> !old(HasWork(s))
      ensures r == TooEarly <==> old(HasWork(s)) && old(s.now - s.task.value.createdAt < PROPAGATION_DELAY)
      ensures r == NothingToDo ==> s == old(s)
      ensures r != NothingToDo ==> old(s.task).Some? && s.task.Some?
      ensures r == TooEarly ==> s == old(s).(task := s.task)
      ensures r == CopiedBatch ==> s.mode == Dual && old(s.task.value.cursor) < s.task.value.cursor
      ensures r == Completed ==> s.mode == OnTarget && s.task.value.status == Done && AckedIn(s.acked, s.tgt)
      ensures r == Broken ==> trouble != NoTrouble && (pauses ==> s.task.value.status == Paused)
      ensures r == Broken && s.mode == OnTarget ==> AckedIn(s.acked, s.tgt)
    {
      if !HasWork(s) { return NothingToDo; }
      Load();
      if s.worker == Idle { return TooEarly; }
      r := Migrate(trouble, pauses);
    }

    /** LoadNextTask, and the wait for routers to catch up. */
    method Load()
      requires Live() && s.worker == Idle && HasWork(s)
      modifies this
      ensures Live() && s.task.Some? && s.task.value.cursor == old(s.task.value.cursor)
      ensures s == old(s).(task := s.task, worker := s.worker)
      ensures if old(s.now - s.task.value.createdAt < PROPAGATION_DELAY) then s.worker == Idle else s.worker.Loaded?
    {
      Do(LoadTask);
    }

    /** The body of Poll once the task is loaded. */
    method Migrate(trouble: Trouble, pauses: bool) returns (r: PollResult)
      requires Live() && s.worker.Loaded? && s.task.Some?
      modifies this
      ensures Live() && s.worker == Idle && s.task.Some?
      ensures r in {CopiedBatch, Completed, Broken}
      ensures r == CopiedBatch ==> s.mode == Dual && old(s.task.value.cursor) < s.task.value.cursor
      ensures r == Completed ==> s.mode == OnTarget && s.task.value.status == Done
      ensures r == Broken ==> trouble != NoTrouble && (pauses ==> s.task.value.status == Paused)
      ensures s.mode == OnTarget ==> AckedIn(s.acked, s.tgt)
    {
      ReachableInv(s0, acts, s);
      Others();
      var copied, ok := CopyBatch(trouble);
      if !ok {
        Do(WorkerStops(pauses));
        return Broken;
      }
      if copied > 0 { return CopiedBatch; }
      r := Complete(trouble, pauses);
    }

    /** A cutover that fails leaves the mapping; one whose reply is lost has flipped it. */
    method Complete(trouble: Trouble, pauses: bool) returns (r: PollResult)
      requires Live() && s.worker == Drained && s.mode == Dual && s.task.Some?
      modifies this
      ensures Live() && s.worker == Idle && s.task.Some?
      ensures r == Completed ==> s.mode == OnTarget && s.task.value.status == Done
      ensures r == Completed || (r == Broken && trouble != NoTrouble && (pauses ==> s.task.value.status == Paused))
      ensures s.mode == OnTarget ==> AckedIn(s.acked, s.tgt)
    {
      Others();
      if trouble == AtCutOver {
        Do(WorkerStops(pauses));
        return Broken;
      }
      Do(CutOver(trouble == CutOverReplyLost && pauses));
      CutoverLosesNothing(s0, acts, s);
      return if trouble == CutOverReplyLost then Broken else Completed;
    }
  }
}
