/**
 One shard migrates again and again. After a cutover the target is the shard's primary; the next
 task, under a new id, copies it to another empty table, while routers may still hold the mapping
 of the task before. This is that protocol from one task to the next, over any number of tasks.
 */
module MigrationChains {
  import opened Runs
  import opened Orders
  import opened ShardMigration

  // ----- From one task to the next -----

  /**
   What a mapping of the finished task means to the next one. Dual write and PRIMARY_ONLY on the
   target both end at the table that is now the source. PRIMARY_ONLY on the old source does not,
   but by now nobody can write through it: see StragglersAreStuck.
   */
  function Carried(m: Option<Snapshot>): Option<Snapshot> {
    if m.None? || m.value.mode == OnSource then None else Some(m.value.(mode := OnSource))
  }

  function CarriedRouter(r: Router): Router {
    Router(Carried(r.pending), Carried(r.current), r.refreshedAt)
  }

  /** A write that is yet to reach the new source begins there; one that is at it goes on. */
  function CarriedWrite(w: Write): Write {
    w.(snapshot := w.snapshot.(mode := OnSource), site := Source, pc := if w.site == Target then w.pc else AtInsert)
  }

  /** The finished target becomes the source of the next migration, whose task row does not exist yet. */
  function NextMigration(s: State): State {
    State(s.tgt, map[], OnSource, None, Idle,
          map r | r in s.routers :: CarriedRouter(s.routers[r]),
          map id | id in s.writes && s.writes[id].snapshot.mode != OnSource :: CarriedWrite(s.writes[id]),
          s.acked, s.begun, s.now)
  }

  datatype ChainAction = Within(a: Action) | NewTarget

  function ChainStep(s: State, a: ChainAction): Option<State> {
    match a
    case Within(b) => Step(s, b)
    case NewTarget => if s.mode == OnTarget && s.worker == Idle then Some(NextMigration(s)) else None
  }

  // ----- The writes that are left behind have no time left -----

  /** After a cutover no write through a PRIMARY_ONLY mapping of the old source can take another step. */
  lemma StragglersAreStuck(s: State, id: int, lost: bool)
    requires Inv(s) && s.mode == OnTarget && id in s.writes && s.writes[id].snapshot.mode == OnSource
    ensures Step(s, WriteStep(id, lost)) == None
  {
    NoStragglerAfterCopyStarts(s, id, lost);
  }

  // ----- What a new task keeps -----

  lemma NextKeepsRouters(s: State)
    requires RoutersOk(s)
    ensures RoutersOk(NextMigration(s))
  {
  }

  lemma NextKeepsWrites(s: State)
    requires WritesOk(s)
    ensures WritesOk(NextMigration(s))
  {
    var s' := NextMigration(s);
    forall id | id in s'.writes ensures WriteOk(s', s'.writes[id]) {
      assert WriteOk(s, s.writes[id]);
    }
  }

  lemma NextKeepsTables(s: State)
    requires TablesOk(s) && s.mode == OnTarget
    ensures TablesOk(NextMigration(s))
  {
    var s' := NextMigration(s);
    forall n, v | (n, v) in s.acked ensures n in s'.src && Reaches(v, s'.src[n].status) {
      assert n > 0 && Covered(s, n);
    }
  }

  lemma NextKeepsInv(s: State)
    requires Inv(s) && s.mode == OnTarget
    ensures Inv(NextMigration(s))
  {
    NextKeepsRouters(s);
    NextKeepsWrites(s);
    NextKeepsTables(s);
  }

  lemma ChainStepKeepsInv(s: State, a: ChainAction)
    requires Inv(s) && ChainStep(s, a).Some?
    ensures Inv(ChainStep(s, a).value)
  {
    match a
    case Within(b) => StepKeepsInv(s, b);
    case NewTarget => NextKeepsInv(s);
  }

  lemma ChainStepKeepsWritten(s: State, a: ChainAction)
    requires Written(s) && ChainStep(s, a).Some?
    ensures Written(ChainStep(s, a).value)
  {
    match a
    case Within(b) => StepKeepsWritten(s, b);
    case NewTarget =>
  }

  // ----- Whole chains -----

  ghost predicate ChainReachable(s0: State, acts: seq<ChainAction>, s: State) {
    Exec(ChainStep, s0, acts) == Some(s)
  }

  /** The table that serves the reads of the shard. */
  function Primary(s: State): Table {
    if s.mode == OnTarget then s.tgt else s.src
  }

  lemma ChainInv(s0: State, acts: seq<ChainAction>, s: State)
    requires BeforeMigration(s0) && s0.task.None? && ChainReachable(s0, acts, s)
    ensures Inv(s)
  {
    InvInitially(s0);
    forall t, a | Inv(t) && ChainStep(t, a).Some? ensures Inv(ChainStep(t, a).value) { ChainStepKeepsInv(t, a); }
    InvariantOfRun(ChainStep, Inv, s0, acts);
  }

  lemma PrimaryHasAll(s: State)
    requires TablesOk(s)
    ensures AckedIn(s.acked, Primary(s))
  {
    forall n, v | (n, v) in s.acked ensures n in Primary(s) && Reaches(v, Primary(s)[n].status) {
      assert n > 0 && (s.mode == OnTarget ==> Covered(s, n));
    }
  }

  lemma ChainWritten(s0: State, acts: seq<ChainAction>, s: State)
    requires BeforeMigration(s0) && ChainReachable(s0, acts, s)
    ensures Written(s)
  {
    forall t, a | Written(t) && ChainStep(t, a).Some?
      ensures Written(ChainStep(t, a).value)
    {
      ChainStepKeepsWritten(t, a);
    }
    InvariantOfRun(ChainStep, Written, s0, acts);
  }

  /**
   However often the shard has moved, at every moment every write that was ever acknowledged,
   during any of its migrations, is in the table that is now its primary, with the content it was
   written with, at the acknowledged status or further along its path.
   */
  lemma ChainLosesNothing(s0: State, acts: seq<ChainAction>, s: State)
    requires BeforeMigration(s0) && s0.task.None? && ChainReachable(s0, acts, s)
    ensures AckedIn(s.acked, Primary(s)) && Intact(s.begun, Primary(s))
  {
    ChainInv(s0, acts, s);
    PrimaryHasAll(s);
    ChainWritten(s0, acts, s);
    WrittenIsIntact(s.begun, Primary(s));
  }

  /** What was acknowledged stays acknowledged from one migration to the next. */
  ghost predicate Remembers(s: State, s': State) {
    s.acked <= s'.acked && s.begun <= s'.begun
  }

  lemma ChainStepRemembers(s: State, a: ChainAction)
    requires ChainStep(s, a).Some?
    ensures Remembers(s, ChainStep(s, a).value)
  {
    if a.Within? && a.a.WriteStep? {
      var w := s.writes[a.a.id];
      var (t, outcome) := Statement(TableAt(s, w.site), w);
      var s' := AfterStatement(SetTable(s, w.site, t), a.a.id, w, outcome);
      assert s.acked <= s'.acked && s'.begun == s.begun;
    }
  }

  /**
   A write acknowledged at any moment is in the primary at every later moment, however many
   cutovers lie between, and its order is there with the columns it was ever written with.
   */
  lemma AcknowledgedForGood(s0: State, acts: seq<ChainAction>, s: State, more: seq<ChainAction>, s': State,
                            n: int, v: Status, item: Order)
    requires BeforeMigration(s0) && s0.task.None? && ChainReachable(s0, acts, s) && ChainReachable(s, more, s')
    requires (n, v) in s.acked && item in s.begun && item.number == n
    ensures n in Primary(s') && Reaches(v, Primary(s')[n].status) && SameOrder(Primary(s')[n], item)
    ensures Timed(Primary(s')[n])
  {
    var always := (t: State) => true;
    forall t, a | always(t) && ChainStep(t, a).Some?
      ensures always(ChainStep(t, a).value) && Remembers(t, ChainStep(t, a).value)
    {
      ChainStepRemembers(t, a);
    }
    RelationOfRun(ChainStep, always, Remembers, s, more);
    ExecSplits(ChainStep, s0, acts, more);
    ChainLosesNothing(s0, acts + more, s');
  }
}
