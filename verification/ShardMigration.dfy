/**
 Online migration of one virtual shard from a source table to a target table.

 Routers hold snapshots of the control mapping that may be stale. Writers write every table their
 snapshot names, source before target, one SQL statement at a time. The worker copies in cursor
 order and then flips the mapping. Every action below is one SQL statement, one transaction, or
 one in-memory assignment; all of them interleave freely, and any of them may be the last thing a
 writer or the worker does.

 Time is in milliseconds and shared. A writer finishes less than PROPAGATION_DELAY after its
 mapping was fetched: that is the guard `InTime`.
 */
module ShardMigration {
  import opened Runs
  import opened Orders
  import opened FiniteSets

  const MAX_STALENESS := 15_000
  const PROPAGATION_DELAY := MAX_STALENESS + 5_000
  const DEFAULT_BATCH := 500

  /** The control row: PRIMARY_ONLY on the source, DUAL_WRITE, PRIMARY_ONLY on the target. */
  datatype Mode = OnSource | Dual | OnTarget

  datatype Site = Source | Target

  datatype Snapshot = Snapshot(mode: Mode, fetchedAt: int)

  /** `pending` was fetched and is not installed yet. */
  datatype Router = Router(pending: Option<Snapshot>, current: Option<Snapshot>, refreshedAt: int)

  datatype Kind = SaveOrder | UpdateOrder

  datatype Pc = AtInsert | AtCas | AtVerify

  datatype Write = Write(kind: Kind, item: Order, snapshot: Snapshot, site: Site, pc: Pc)

  datatype TaskStatus = Pending | Running | Paused | Done

  datatype Task = Task(createdAt: int, cursor: int, batch: int, status: TaskStatus)

  /** How far the body of Poll has come. */
  datatype Worker =
    | Idle
    | Loaded(cursor: int)
    | Bounded(cursor: int, next: int)
    | Copied(next: int)
    | Drained

  /** `acked` are the writes that were acknowledged, `begun` all that were ever begun or stored before. */
  datatype State = State(
    src: Table,
    tgt: Table,
    mode: Mode,
    task: Option<Task>,
    worker: Worker,
    routers: map<int, Router>,
    writes: map<int, Write>,
    acked: set<(int, Status)>,
    begun: set<Order>,
    now: int)

  datatype Action =
    | Tick(d: nat)
    | Fetch(router: int)
    | Install(router: int)
    | Begin(id: int, router: int, kind: Kind, item: Order)
    | WriteStep(id: int, replyLost: bool)
    | WriteFails(id: int)
    | SaveTask(batch: int)
    | LoadTask
    | FindBoundary(next: int)
    | CopyRows
    | AdvanceCursor(replyLost: bool)
    | CutOver(replyLost: bool)
    | WorkerStops(pause: bool)
    | ResumeTask

  // ----- Routers -----

  function DoFetch(s: State, r: int): Option<State> {
    var router := if r in s.routers then s.routers[r] else Router(None, None, 0);
    Some(s.(routers := s.routers[r := router.(pending := Some(Snapshot(s.mode, s.now)))]))
  }

  function DoInstall(s: State, r: int): Option<State> {
    if r in s.routers && s.routers[r].pending.Some? then
      Some(s.(routers := s.routers[r := Router(None, s.routers[r].pending, s.now)]))
    else None
  }

  predicate MappingFresh(s: State, r: int) {
    r in s.routers && s.routers[r].current.Some? && s.now - s.routers[r].refreshedAt <= MAX_STALENESS
  }

  // ----- Writers -----

  function FirstSite(m: Mode): Site {
    if m == OnTarget then Target else Source
  }

  predicate LastSite(w: Write) {
    w.snapshot.mode != Dual || w.site == Target
  }

  /** A write finishes less than the propagation delay after its mapping was fetched. */
  predicate InTime(s: State, w: Write) {
    s.now < w.snapshot.fetchedAt + PROPAGATION_DELAY
  }

  /** An order is always written with the same program, user, category, seats, ticket users and amount. */
  predicate Fits(begun: set<Order>, item: Order) {
    Timed(item) && forall b :: b in begun && b.number == item.number ==> SameOrder(b, item)
  }

  function DoBegin(s: State, id: int, r: int, kind: Kind, item: Order): Option<State> {
    if id !in s.writes && MappingFresh(s, r) && item.number > 0 && (kind == SaveOrder ==> item.status == NoPay) &&
       Fits(s.begun, item) then
      var snapshot := s.routers[r].current.value;
      Some(s.(writes := s.writes[id := Write(kind, item, snapshot, FirstSite(snapshot.mode), AtInsert)],
              begun := s.begun + {item}))
    else None
  }

  /** What one statement at one table does to the write that issued it. */
  datatype Outcome = Continue(pc: Pc) | SiteDone | Rejected

  function Statement(t: Table, w: Write): (Table, Outcome) {
    match w.pc
    case AtInsert => (InsertIgnore(t, w.item), if w.kind == SaveOrder then SiteDone else Continue(AtCas))
    case AtCas =>
      if AllowedPrevious(w.item.status) == None then (t, Rejected)
      else
        var t' := CasUpdate(t, w.item);
        (t', if t' != t then SiteDone else Continue(AtVerify))
    case AtVerify => (t, if Confirms(t, w.item) then SiteDone else Rejected)
  }

  function TableAt(s: State, site: Site): Table {
    if site == Source then s.src else s.tgt
  }

  function SetTable(s: State, site: Site, t: Table): State {
    if site == Source then s.(src := t) else s.(tgt := t)
  }

  function DropWrite(s: State, id: int): State {
    s.(writes := s.writes - {id})
  }

  function DoWriteStep(s: State, id: int, replyLost: bool): Option<State> {
    if id in s.writes && InTime(s, s.writes[id]) then
      var w := s.writes[id];
      var (t, outcome) := Statement(TableAt(s, w.site), w);
      var s' := SetTable(s, w.site, t);
      Some(if replyLost then DropWrite(s', id)
           else AfterStatement(s', id, w, outcome))
    else None
  }

  function AfterStatement(s: State, id: int, w: Write, outcome: Outcome): State {
    match outcome
    case Continue(pc) => s.(writes := s.writes[id := w.(pc := pc)])
    case Rejected => DropWrite(s, id)
    case SiteDone =>
      if LastSite(w) then DropWrite(s, id).(acked := s.acked + {(w.item.number, w.item.status)})
      else s.(writes := s.writes[id := w.(site := Target, pc := AtInsert)])
  }

  // ----- Control plane and worker -----

  /** The transaction keeps the cursor and the creation time of a row that already has this id. */
  function DoSaveTask(s: State, batch: int): Option<State> {
    if s.mode == OnSource then
      var task := match s.task
                  case None => Task(s.now, 0, batch, Pending)
                  case Some(row) => row.(batch := batch, status := Pending);
      Some(s.(mode := Dual, task := Some(task)))
    else None
  }

  function DoLoadTask(s: State): Option<State> {
    if s.worker == Idle && s.task.Some? && (s.task.value.status == Pending || s.task.value.status == Running) then
      var task := s.task.value.(status := Running);
      Some(s.(task := Some(task),
              worker := if s.now - task.createdAt < PROPAGATION_DELAY then Idle else Loaded(task.cursor)))
    else None
  }

  predicate NothingAfter(t: Table, cursor: int) {
    forall n :: n in t ==> n <= cursor
  }

  /** `next` ends the block of at most `batch` smallest keys beyond the cursor. */
  predicate IsBoundary(t: Table, cursor: int, batch: int, next: int) {
    var block := set n | n in t && cursor < n <= next;
    next in block && |block| <= batch && (|block| == batch || NothingAfter(t, next))
  }

  function DoFindBoundary(s: State, next: int): Option<State> {
    if s.worker.Loaded? && s.task.Some? then
      var batch := if s.task.value.batch <= 0 then DEFAULT_BATCH else s.task.value.batch;
      if NothingAfter(s.src, s.worker.cursor) then Some(s.(worker := Drained))
      else if IsBoundary(s.src, s.worker.cursor, batch, next) then Some(s.(worker := Bounded(s.worker.cursor, next)))
      else None
    else None
  }

  /** The upsert of one block. */
  function CopyRange(src: Table, tgt: Table, cursor: int, next: int): Table {
    Upserted(src, tgt, set n | n in src && cursor < n <= next)
  }

  function DoCopyRows(s: State): Option<State> {
    if s.worker.Bounded? then
      Some(s.(tgt := CopyRange(s.src, s.tgt, s.worker.cursor, s.worker.next), worker := Copied(s.worker.next)))
    else None
  }

  /** The cursor update commits; if its reply is lost, the worker is yet to give up. */
  function DoAdvanceCursor(s: State, replyLost: bool): Option<State> {
    if s.worker.Copied? && s.task.Some? then
      Some(s.(task := Some(s.task.value.(cursor := s.worker.next, status := Running)), worker := if replyLost then s.worker else Idle))
    else None
  }

  /** The cutover commits; if its reply is lost, Poll marks the finished task as paused. */
  function DoCutOver(s: State, replyLost: bool): Option<State> {
    if s.worker == Drained && s.mode == Dual && s.task.Some? then
      Some(s.(mode := OnTarget, worker := Idle,
              task := Some(s.task.value.(status := if replyLost then Paused else Done))))
    else None
  }

  function DoWorkerStops(s: State, pause: bool): Option<State> {
    if s.worker != Idle && s.task.Some? then
      Some(s.(worker := Idle, task := if pause then Some(s.task.value.(status := Paused)) else s.task))
    else None
  }

  function DoResumeTask(s: State): Option<State> {
    if s.task.Some? && s.task.value.status == Paused && s.mode == Dual then
      Some(s.(task := Some(s.task.value.(status := Running))))
    else None
  }

  function Step(s: State, a: Action): Option<State> {
    match a
    case Tick(d) => Some(s.(now := s.now + d))
    case Fetch(r) => DoFetch(s, r)
    case Install(r) => DoInstall(s, r)
    case Begin(id, r, kind, item) => DoBegin(s, id, r, kind, item)
    case WriteStep(id, lost) => DoWriteStep(s, id, lost)
    case WriteFails(id) => if id in s.writes then Some(DropWrite(s, id)) else None
    case SaveTask(batch) => DoSaveTask(s, batch)
    case LoadTask => DoLoadTask(s)
    case FindBoundary(next) => DoFindBoundary(s, next)
    case CopyRows => DoCopyRows(s)
    case AdvanceCursor(lost) => DoAdvanceCursor(s, lost)
    case CutOver(lost) => DoCutOver(s, lost)
    case WorkerStops(pause) => DoWorkerStops(s, pause)
    case ResumeTask => DoResumeTask(s)
  }

  // ----- The states a migration starts from -----

  /** Everything acknowledged so far is in the source. */
  ghost predicate AckedIn(acked: set<(int, Status)>, t: Table) {
    forall n, v :: (n, v) in acked ==> n in t && Reaches(v, t[n].status)
  }

  /** Everything but the creation time, which a copy does not overwrite. */
  function Undated(o: Order): Order {
    o.(createdAt := 0)
  }

  function Contents(begun: set<Order>): set<Order> {
    set b | b in begun :: Undated(b)
  }

  function Stamps(begun: set<Order>): set<(int, int)> {
    set b | b in begun :: (b.number, b.createdAt)
  }

  ghost predicate OneContent(begun: set<Order>) {
    && (forall b :: b in begun ==> Timed(b))
    && (forall b, c :: b in begun && c in begun && b.number == c.number ==> SameOrder(b, c))
  }

  /** Every row is one that was written for its order, up to a creation time that was also written for it. */
  ghost predicate Stored(begun: set<Order>, t: Table) {
    forall n :: n in t ==> t[n].number == n && Undated(t[n]) in Contents(begun) && (n, t[n].createdAt) in Stamps(begun)
  }

  /** A shard before its migration; the task row is whatever the task id already holds. */
  ghost predicate BeforeMigration(s: State) {
    && s.mode == OnSource
    && s.tgt == map[]
    && s.worker == Idle
    && s.routers == map[]
    && s.writes == map[]
    && (forall n :: n in s.src ==> n > 0)
    && AckedIn(s.acked, s.src)
    && OneContent(s.begun) && Stored(s.begun, s.src)
    && (s.task.Some? ==> s.task.value.createdAt <= s.now)
  }

  // ----- The invariant -----

  ghost predicate KnownMode(s: State, m: Snapshot) {
    && m.fetchedAt <= s.now
    && (m.mode == Dual ==> s.mode != OnSource)
    && (m.mode == OnTarget ==> s.mode == OnTarget)
    && (m.mode == OnSource && s.task.Some? ==> m.fetchedAt <= s.task.value.createdAt)
  }

  ghost predicate RoutersOk(s: State) {
    forall r :: r in s.routers ==>
      && (s.routers[r].pending.Some? ==> KnownMode(s, s.routers[r].pending.value))
      && (s.routers[r].current.Some? ==> KnownMode(s, s.routers[r].current.value))
  }

  ghost predicate WriteOk(s: State, w: Write) {
    && KnownMode(s, w.snapshot)
    && w.item.number > 0
    && (w.kind == SaveOrder ==> w.item.status == NoPay && w.pc == AtInsert)
    && (w.pc != AtInsert ==> w.item.number in TableAt(s, w.site))
    && (w.site == Source ==> w.snapshot.mode != OnTarget)
    && (w.site == Target ==> w.snapshot.mode != OnSource)
    && (w.site == Target && w.snapshot.mode == Dual ==>
          w.item.number in s.src && Reaches(w.item.status, s.src[w.item.number].status))
  }

  ghost predicate WritesOk(s: State) {
    forall id :: id in s.writes ==> WriteOk(s, s.writes[id])
  }

  ghost predicate CopyStarted(s: State) {
    s.task.Some? && s.now >= s.task.value.createdAt + PROPAGATION_DELAY
  }

  ghost predicate WorkerOk(s: State) {
    && (s.task.None? <==> s.mode == OnSource)
    && (s.task.Some? ==> s.task.value.createdAt <= s.now && s.task.value.cursor >= 0)
    && (!CopyStarted(s) ==> s.worker == Idle && s.mode != OnTarget)
    && (!CopyStarted(s) && s.task.Some? ==> s.task.value.cursor == 0)
    && (s.worker != Idle ==> s.mode == Dual)
    && (s.mode == OnTarget ==> s.task.value.status == Done || s.task.value.status == Paused)
    && (s.worker.Loaded? || s.worker.Bounded? ==> s.worker.cursor == s.task.value.cursor)
    && (s.worker.Bounded? || s.worker.Copied? ==> s.worker.next > 0)
  }

  /** The part of the key space that no longer depends on the source. */
  ghost predicate Covered(s: State, n: int) {
    || s.mode == OnTarget
    || s.worker == Drained
    || (s.worker.Copied? && n <= s.worker.next)
    || (s.task.Some? && n <= s.task.value.cursor)
  }

  ghost predicate TablesOk(s: State) {
    && (forall n :: n in s.src ==> n > 0)
    && (forall n :: n in s.tgt ==> n > 0)
    && (s.mode == OnSource ==> s.tgt == map[])
    && (s.mode != OnTarget ==> Advances(s.tgt, s.src) && AckedIn(s.acked, s.src))
    && (forall n, v :: (n, v) in s.acked && n > 0 && Covered(s, n) ==> n in s.tgt && Reaches(v, s.tgt[n].status))
    && (forall n, v :: (n, v) in s.acked ==> n > 0)
  }

  ghost predicate Inv(s: State) {
    RoutersOk(s) && WritesOk(s) && WorkerOk(s) && TablesOk(s)
  }

  lemma InvInitially(s: State)
    requires BeforeMigration(s) && s.task.None?
    ensures Inv(s)
  {
    forall n, v | (n, v) in s.acked ensures n > 0 {
      assert n in s.src;
    }
  }

  /** Once copying may start, no write through a PRIMARY_ONLY snapshot can still reach a table. */
  lemma NoStragglerAfterCopyStarts(s: State, id: int, lost: bool)
    requires Inv(s) && CopyStarted(s)
    requires id in s.writes && s.writes[id].snapshot.mode == OnSource
    ensures Step(s, WriteStep(id, lost)) == None
  {
    assert WriteOk(s, s.writes[id]);
  }

  // ----- Every action keeps the invariant -----

  /** A statement changes at most the row it is about, and moves it to the written status. */
  lemma StatementEffect(t: Table, w: Write)
    ensures var (t', outcome) := Statement(t, w);
            && Advances(t, t')
            && (forall n :: n in t' && (n !in t || t'[n] != t[n]) ==> n == w.item.number && t'[n].status == w.item.status)
            && (outcome == SiteDone && w.kind == UpdateOrder && w.pc != AtInsert ==>
                  w.item.number in t' && t'[w.item.number].status == w.item.status)
            && (w.pc == AtInsert ==> w.item.number in t')
  {
  }

  /** `t` differs from the table at `site` only in the row of `item`, which moved along to its status. */
  ghost predicate RowMoved(t: Table, t': Table, item: Order) {
    && Advances(t, t')
    && (forall n :: n in t' && (n !in t || t'[n] != t[n]) ==> n == item.number && t'[n].status == item.status)
  }

  lemma TableChangeKeepsWrites(s: State, site: Site, t: Table)
    requires WritesOk(s) && Advances(TableAt(s, site), t)
    ensures WritesOk(SetTable(s, site, t))
  {
    var s' := SetTable(s, site, t);
    forall k | k in s'.writes ensures WriteOk(s', s'.writes[k]) {
      var w := s.writes[k];
      assert WriteOk(s, w);
      assert Advances(TableAt(s, Source), TableAt(s', Source)) && Advances(TableAt(s, Target), TableAt(s', Target));
      assert w.pc != AtInsert ==> w.item.number in TableAt(s', w.site);
    }
  }

  lemma TableChangeKeepsRouters(s: State, site: Site, t: Table)
    requires RoutersOk(s) && WorkerOk(s)
    ensures RoutersOk(SetTable(s, site, t)) && WorkerOk(SetTable(s, site, t))
  {
  }

  lemma TableChangeKeepsTables(s: State, w: Write, t: Table)
    requires WorkerOk(s) && TablesOk(s) && WriteOk(s, w) && RowMoved(TableAt(s, w.site), t, w.item)
    ensures TablesOk(SetTable(s, w.site, t))
  {
    if w.site == Source {
      SourceChangeKeepsTables(s, w, t);
    } else {
      TargetChangeKeepsTables(s, w, t);
    }
  }

  lemma SourceChangeKeepsTables(s: State, w: Write, t: Table)
    requires TablesOk(s) && w.item.number > 0 && RowMoved(s.src, t, w.item)
    ensures TablesOk(s.(src := t))
  {
  }

  lemma TargetChangeKeepsTables(s: State, w: Write, t: Table)
    requires TablesOk(s) && WriteOk(s, w) && w.site == Target && RowMoved(s.tgt, t, w.item)
    ensures TablesOk(s.(tgt := t))
  {
  }

  lemma TableChangeKeepsInv(s: State, w: Write, t: Table)
    requires Inv(s) && WriteOk(s, w) && RowMoved(TableAt(s, w.site), t, w.item)
    ensures Inv(SetTable(s, w.site, t))
  {
    TableChangeKeepsRouters(s, w.site, t);
    TableChangeKeepsWrites(s, w.site, t);
    TableChangeKeepsTables(s, w, t);
  }

  /** Advancing or dropping a write is harmless; acknowledging it needs its effect in every covered table. */
  lemma AcknowledgeKeepsInv(s: State, id: int, w: Write)
    requires Inv(s) && id in s.writes && WriteOk(s, w) && LastSite(w) && InTime(s, w)
    requires w.item.number in TableAt(s, w.site) && Reaches(w.item.status, TableAt(s, w.site)[w.item.number].status)
    ensures Inv(AfterStatement(s, id, w, SiteDone))
  {
    var s' := AfterStatement(s, id, w, SiteDone);
    forall k | k in s'.writes ensures WriteOk(s', s'.writes[k]) {
      assert WriteOk(s, s.writes[k]);
    }
    if w.snapshot.mode == OnSource {
      assert !CopyStarted(s);
    }
  }

  lemma AfterStatementKeepsInv(s: State, id: int, w: Write, outcome: Outcome)
    requires Inv(s) && id in s.writes && WriteOk(s, w) && InTime(s, w)
    requires outcome == SiteDone ==>
               w.item.number in TableAt(s, w.site) && Reaches(w.item.status, TableAt(s, w.site)[w.item.number].status)
    requires outcome.Continue? ==> w.kind == UpdateOrder && w.item.number in TableAt(s, w.site)
    ensures Inv(AfterStatement(s, id, w, outcome))
  {
    if outcome == SiteDone && LastSite(w) {
      AcknowledgeKeepsInv(s, id, w);
    } else {
      var s' := AfterStatement(s, id, w, outcome);
      forall k | k in s'.writes ensures WriteOk(s', s'.writes[k]) {
        assert k in s.writes && WriteOk(s, s.writes[k]);
      }
    }
  }

  lemma WriteStepKeepsInv(s: State, id: int, lost: bool)
    requires Inv(s) && DoWriteStep(s, id, lost).Some?
    ensures Inv(DoWriteStep(s, id, lost).value)
    ensures Advances(s.tgt, DoWriteStep(s, id, lost).value.tgt)
  {
    var w := s.writes[id];
    var (t, outcome) := Statement(TableAt(s, w.site), w);
    assert WriteOk(s, w);
    StatementEffect(TableAt(s, w.site), w);
    var s' := SetTable(s, w.site, t);
    TableChangeKeepsInv(s, w, t);
    assert WriteOk(s', s'.writes[id]);
    AfterStatementKeepsInv(s', id, w, if lost then Rejected else outcome);
  }

  lemma RouterStepsKeepInv(s: State, a: Action)
    requires Inv(s) && (a.Tick? || a.Fetch? || a.Install? || a.Begin? || a.WriteFails?) && Step(s, a).Some?
    ensures Inv(Step(s, a).value)
  {
    if a.Begin? {
      BeginKeepsInv(s, a);
    } else {
      QuietStepsKeepInv(s, a);
    }
  }

  lemma BeginKeepsInv(s: State, a: Action)
    requires Inv(s) && a.Begin? && Step(s, a).Some?
    ensures Inv(Step(s, a).value)
  {
    var s' := Step(s, a).value;
    forall k | k in s'.writes ensures WriteOk(s', s'.writes[k]) {
      assert k in s.writes ==> WriteOk(s, s.writes[k]);
    }
  }

  lemma QuietStepsKeepInv(s: State, a: Action)
    requires Inv(s) && (a.Tick? || a.Fetch? || a.Install? || a.WriteFails?) && Step(s, a).Some?
    ensures Inv(Step(s, a).value)
  {
    QuietStepsKeepRouters(s, a);
    QuietStepsKeepWrites(s, a);
    QuietStepsKeepTables(s, a);
  }

  lemma QuietStepsKeepRouters(s: State, a: Action)
    requires RoutersOk(s) && WorkerOk(s) && (a.Tick? || a.Fetch? || a.Install? || a.WriteFails?) && Step(s, a).Some?
    ensures RoutersOk(Step(s, a).value)
  {
  }

  lemma QuietStepsKeepTables(s: State, a: Action)
    requires WorkerOk(s) && TablesOk(s) && (a.Tick? || a.Fetch? || a.Install? || a.WriteFails?) && Step(s, a).Some?
    ensures WorkerOk(Step(s, a).value) && TablesOk(Step(s, a).value)
  {
    assert forall n :: Covered(Step(s, a).value, n) == Covered(s, n);
  }

  lemma QuietStepsKeepWrites(s: State, a: Action)
    requires WritesOk(s) && (a.Tick? || a.Fetch? || a.Install? || a.WriteFails?) && Step(s, a).Some?
    ensures WritesOk(Step(s, a).value)
  {
    var s' := Step(s, a).value;
    forall k | k in s'.writes ensures WriteOk(s', s'.writes[k]) {
      assert WriteOk(s, s.writes[k]);
    }
  }

  lemma CopyKeepsInv(s: State)
    requires Inv(s) && DoCopyRows(s).Some?
    ensures Inv(DoCopyRows(s).value)
    ensures Advances(s.tgt, DoCopyRows(s).value.tgt)
  {
    var s' := DoCopyRows(s).value;
    forall k | k in s'.writes ensures WriteOk(s', s'.writes[k]) {
      assert WriteOk(s, s.writes[k]);
    }
  }

  /** Writes and routers only look at the tables, the mode and the creation time of the task. */
  lemma ControlStepKeepsWrites(s: State, s': State)
    requires WritesOk(s) && RoutersOk(s)
    requires s'.writes == s.writes && s'.routers == s.routers && s'.src == s.src && s'.tgt == s.tgt && s'.now == s.now
    requires s.mode == s'.mode || (s.mode == OnSource && s'.mode == Dual) || (s.mode == Dual && s'.mode == OnTarget)
    requires s.task.Some? ==> s'.task.Some? && s'.task.value.createdAt == s.task.value.createdAt
    requires s.task.None? && s'.task.Some? ==> s'.task.value.createdAt == s.now
    ensures WritesOk(s') && RoutersOk(s')
  {
    forall k | k in s'.writes ensures WriteOk(s', s'.writes[k]) {
      assert WriteOk(s, s.writes[k]);
    }
  }

  lemma DrainingKeepsInv(s: State, next: int)
    requires Inv(s) && DoFindBoundary(s, next).Some?
    ensures Inv(DoFindBoundary(s, next).value)
  {
    var s' := DoFindBoundary(s, next).value;
    ControlStepKeepsWrites(s, s');
    if s'.worker == Drained {
      forall n, v | (n, v) in s.acked ensures Covered(s, n) {
        assert n in s.src;
      }
    }
  }

  lemma WorkerStepsKeepInv(s: State, a: Action)
    requires Inv(s) && Step(s, a).Some?
    requires a.SaveTask? || a.LoadTask? || a.AdvanceCursor? || a.CutOver? || a.WorkerStops? || a.ResumeTask?
    ensures Inv(Step(s, a).value)
  {
    var s' := Step(s, a).value;
    ControlStepKeepsWrites(s, s');
    assert forall n, v :: (n, v) in s.acked && Covered(s', n) ==> Covered(s, n);
  }

  lemma StepKeepsInv(s: State, a: Action)
    requires Inv(s) && Step(s, a).Some?
    ensures Inv(Step(s, a).value)
    ensures Advances(s.tgt, Step(s, a).value.tgt)
  {
    match a
    case WriteStep(id, lost) =>
      WriteStepKeepsInv(s, id, lost);
    case CopyRows => CopyKeepsInv(s);
    case FindBoundary(next) => DrainingKeepsInv(s, next);
    case Tick(_) => RouterStepsKeepInv(s, a);
    case Fetch(_) => RouterStepsKeepInv(s, a);
    case Install(_) => RouterStepsKeepInv(s, a);
    case Begin(_, _, _, _) => RouterStepsKeepInv(s, a);
    case WriteFails(_) => RouterStepsKeepInv(s, a);
    case _ => WorkerStepsKeepInv(s, a);
  }

  // ----- What is written is what was begun -----

  ghost predicate WritesBegun(s: State) {
    forall id :: id in s.writes ==> s.writes[id].item in s.begun
  }

  ghost predicate Written(s: State) {
    OneContent(s.begun) && WritesBegun(s) && Stored(s.begun, s.src) && Stored(s.begun, s.tgt)
  }

  /** A row that was written has the lasting columns of every item of its number. */
  lemma StoredFits(begun: set<Order>, t: Table, n: int, item: Order)
    requires OneContent(begun) && Stored(begun, t) && n in t && item in begun && item.number == n
    ensures SameOrder(t[n], item) && Timed(t[n])
  {
    var b :| b in begun && Undated(b) == Undated(t[n]);
    assert SameOrder(b, item);
  }

  lemma InsertStored(begun: set<Order>, t: Table, item: Order)
    requires Stored(begun, t) && item in begun
    ensures Stored(begun, InsertIgnore(t, item))
  {
    assert Undated(item) in Contents(begun) && (item.number, item.createdAt) in Stamps(begun);
  }

  lemma CasStored(begun: set<Order>, t: Table, item: Order)
    requires OneContent(begun) && Stored(begun, t) && item in begun
    ensures Stored(begun, CasUpdate(t, item))
  {
    CasRecords(t, item);
    var n, u := item.number, CasUpdate(t, item);
    if u != t {
      StoredFits(begun, t, n, item);
      assert Undated(u[n]) == Undated(item) && Undated(item) in Contents(begun);
      assert u[n].createdAt == t[n].createdAt;
    }
  }

  lemma StatementStored(begun: set<Order>, t: Table, w: Write)
    requires OneContent(begun) && Stored(begun, t) && w.item in begun
    ensures Stored(begun, Statement(t, w).0)
  {
    match w.pc
    case AtInsert => InsertStored(begun, t, w.item);
    case AtCas => CasStored(begun, t, w.item);
    case AtVerify =>
  }

  lemma CopyStored(begun: set<Order>, src: Table, tgt: Table, keys: set<int>)
    requires Stored(begun, src) && Stored(begun, tgt)
    ensures Stored(begun, Upserted(src, tgt, keys))
  {
    var u := Upserted(src, tgt, keys);
    forall n | n in u
      ensures u[n].number == n && Undated(u[n]) in Contents(begun) && (n, u[n].createdAt) in Stamps(begun)
    {
      if n in keys && n in src {
        assert Undated(u[n]) == Undated(src[n]);
      }
    }
  }

  lemma BeginWritten(s: State, item: Order, writes: map<int, Write>)
    requires Written(s) && Fits(s.begun, item)
    requires forall id :: id in writes ==>
               writes[id].item == item || (id in s.writes && writes[id].item == s.writes[id].item)
    ensures Written(s.(writes := writes, begun := s.begun + {item}))
  {
    var more := s.begun + {item};
    assert Contents(s.begun) <= Contents(more) by {
      forall o | o in Contents(s.begun) ensures o in Contents(more) {
        var b :| b in s.begun && Undated(b) == o;
        assert b in more;
      }
    }
    assert Stamps(s.begun) <= Stamps(more) by {
      forall o | o in Stamps(s.begun) ensures o in Stamps(more) {
        var b :| b in s.begun && (b.number, b.createdAt) == o;
        assert b in more;
      }
    }
  }

  lemma WriteStepWritten(s: State, id: int, lost: bool)
    requires Written(s) && DoWriteStep(s, id, lost).Some?
    ensures Written(DoWriteStep(s, id, lost).value)
  {
    var w := s.writes[id];
    var (t, outcome) := Statement(TableAt(s, w.site), w);
    StatementStored(s.begun, TableAt(s, w.site), w);
    var moved := SetTable(s, w.site, t);
    assert Written(moved);
    AfterWritten(moved, id, w, outcome);
  }

  lemma AfterWritten(s: State, id: int, w: Write, outcome: Outcome)
    requires Written(s) && w.item in s.begun
    ensures Written(DropWrite(s, id)) && Written(AfterStatement(s, id, w, outcome))
  {
  }

  lemma QuietWritten(s: State, s': State)
    requires Written(s) && s'.src == s.src && s'.tgt == s.tgt && s'.begun == s.begun
    requires forall id :: id in s'.writes ==> id in s.writes && s'.writes[id] == s.writes[id]
    ensures Written(s')
  {
  }

  lemma StepKeepsWritten(s: State, a: Action)
    requires Written(s) && Step(s, a).Some?
    ensures Written(Step(s, a).value)
  {
    match a
    case WriteStep(id, lost) => WriteStepWritten(s, id, lost);
    case CopyRows => CopyStored(s.begun, s.src, s.tgt, set n | n in s.src && s.worker.cursor < n <= s.worker.next);
    case Begin(id, r, kind, item) => BeginWritten(s, item, Step(s, a).value.writes);
    case Tick(_) => QuietWritten(s, Step(s, a).value);
    case Fetch(_) => QuietWritten(s, Step(s, a).value);
    case Install(_) => QuietWritten(s, Step(s, a).value);
    case WriteFails(_) => QuietWritten(s, Step(s, a).value);
    case SaveTask(_) => QuietWritten(s, Step(s, a).value);
    case LoadTask => QuietWritten(s, Step(s, a).value);
    case FindBoundary(_) => QuietWritten(s, Step(s, a).value);
    case AdvanceCursor(_) => QuietWritten(s, Step(s, a).value);
    case CutOver(_) => QuietWritten(s, Step(s, a).value);
    case WorkerStops(_) => QuietWritten(s, Step(s, a).value);
    case ResumeTask => QuietWritten(s, Step(s, a).value);
  }

  /**
   Every row of the table is intact: it has the lasting columns of all writes of its order, and its
   times fit its status.
   */
  ghost predicate Intact(begun: set<Order>, t: Table) {
    && Stored(begun, t)
    && (forall n, b :: n in t && b in begun && b.number == n ==> SameOrder(t[n], b))
    && (forall n :: n in t ==> Timed(t[n]))
  }

  lemma WrittenIsIntact(begun: set<Order>, t: Table)
    requires OneContent(begun) && Stored(begun, t)
    ensures Intact(begun, t)
  {
    forall n, b | n in t && b in begun && b.number == n ensures SameOrder(t[n], b) { StoredFits(begun, t, n, b); }
    forall n | n in t ensures Timed(t[n]) {
      var b :| b in begun && Undated(b) == Undated(t[n]);
      StoredFits(begun, t, n, b);
    }
  }

  /** Whatever task id is used, in every run both tables hold only what was written for their orders. */
  lemma RowsStayIntact(s0: State, acts: seq<Action>, s: State)
    requires BeforeMigration(s0) && Reachable(s0, acts, s)
    ensures Intact(s.begun, s.src) && Intact(s.begun, s.tgt)
  {
    forall t, a | Written(t) && Step(t, a).Some? ensures Written(Step(t, a).value) { StepKeepsWritten(t, a); }
    InvariantOfRun(Step, Written, s0, acts);
    WrittenIsIntact(s.begun, s.src);
    WrittenIsIntact(s.begun, s.tgt);
  }

  /** An order that is in both tables is the same order in both. */
  lemma TablesAgreeOnContent(s0: State, acts: seq<Action>, s: State, n: int)
    requires BeforeMigration(s0) && Reachable(s0, acts, s) && n in s.src && n in s.tgt
    ensures SameOrder(s.src[n], s.tgt[n])
  {
    RowsStayIntact(s0, acts, s);
    var b :| b in s.begun && Undated(b) == Undated(s.src[n]);
    assert SameOrder(s.tgt[n], b);
  }

  // ----- Whole runs -----

  ghost predicate Reachable(s0: State, acts: seq<Action>, s: State) {
    Exec(Step, s0, acts) == Some(s)
  }

  lemma ReachableInv(s0: State, acts: seq<Action>, s: State)
    requires BeforeMigration(s0) && s0.task.None? && Reachable(s0, acts, s)
    ensures Inv(s)
  {
    InvInitially(s0);
    forall t, a | Inv(t) && Step(t, a).Some? ensures Inv(Step(t, a).value) { StepKeepsInv(t, a); }
    InvariantOfRun(Step, Inv, s0, acts);
  }

  /**
   From the moment the mapping flips, and ever after, every write that was ever acknowledged, by
   any router at any time, is visible in the target: the order is there with the content it was
   written with, at the acknowledged status or further along its path.
   */
  lemma CutoverLosesNothing(s0: State, acts: seq<Action>, s: State)
    requires BeforeMigration(s0) && s0.task.None? && Reachable(s0, acts, s)
    requires s.mode == OnTarget
    ensures AckedIn(s.acked, s.tgt) && Intact(s.begun, s.tgt)
  {
    ReachableInv(s0, acts, s);
    RowsStayIntact(s0, acts, s);
  }

  /**
   When the mapping flips, an order whose current status was acknowledged has that status and its
   content in both tables.
   */
  lemma CutoverAgrees(s0: State, acts: seq<Action>, s: State, lost: bool, n: int)
    requires BeforeMigration(s0) && s0.task.None? && Reachable(s0, acts, s)
    requires Step(s, CutOver(lost)).Some?
    requires n in s.src && (n, s.src[n].status) in s.acked
    ensures n in s.tgt && s.tgt[n].status == s.src[n].status && SameOrder(s.src[n], s.tgt[n])
  {
    ReachableInv(s0, acts, s);
    TablesAgreeOnContent(s0, acts, s, n);
  }

  /** While the worker copies, and after the cutover, no PRIMARY_ONLY snapshot of the source can write. */
  lemma NoPrimaryOnlyWriteDuringCopy(s0: State, acts: seq<Action>, s: State, id: int, lost: bool)
    requires BeforeMigration(s0) && s0.task.None? && Reachable(s0, acts, s)
    requires s.worker != Idle || s.mode == OnTarget
    requires id in s.writes && s.writes[id].snapshot.mode == OnSource
    ensures Step(s, WriteStep(id, lost)) == None
  {
    ReachableInv(s0, acts, s);
    NoStragglerAfterCopyStarts(s, id, lost);
  }

  /** Before, during and after cutover a target row is never lost and only moves along its path. */
  lemma TargetOnlyAdvances(s0: State, acts: seq<Action>, s: State, more: seq<Action>, s': State)
    requires BeforeMigration(s0) && s0.task.None? && Reachable(s0, acts, s) && Reachable(s, more, s')
    ensures Advances(s.tgt, s'.tgt)
  {
    ReachableInv(s0, acts, s);
    var rel := (t: State, u: State) => Advances(t.tgt, u.tgt);
    forall t, a | Inv(t) && Step(t, a).Some? ensures Inv(Step(t, a).value) && rel(t, Step(t, a).value) {
      StepKeepsInv(t, a);
    }
    RelationOfRun(Step, Inv, rel, s, more);
  }

  // ----- A task id that is already in use -----

  ghost predicate LossFree(s0: State) {
    forall acts, s :: Reachable(s0, acts, s) && s.mode == OnTarget ==> AckedIn(s.acked, s.tgt)
  }

  /** A batch as large as the table reaches its end. */
  lemma LargeBatchBoundary(s: State, last: int)
    requires s.worker.Loaded? && s.task.Some? && s.task.value.batch == |s.src| + 1
    requires last in s.src && last > s.worker.cursor && NothingAfter(s.src, last)
    ensures Step(s, FindBoundary(last)) == Some(s.(worker := Bounded(s.worker.cursor, last)))
  {
    var block := set n | n in s.src && s.worker.cursor < n <= last;
    assert block <= s.src.Keys;
    SubsetSize(block, s.src.Keys);
    assert IsBoundary(s.src, s.worker.cursor, s.task.value.batch, last);
  }

  lemma CopyEverything(s0: State, acts: seq<Action>, s: State) returns (more: seq<Action>, s': State)
    requires Reachable(s0, acts, s)
    requires s.worker.Bounded? && s.tgt == map[] && s.task.Some?
    ensures Reachable(s0, more, s')
    ensures s' ==
            s.(worker := Idle, tgt := s'.tgt, task := Some(s.task.value.(cursor := s.worker.next, status := Running)))
    ensures s'.tgt.Keys <= s.src.Keys
  {
    more, s' := ExtendRun(Step, s0, acts, s, CopyRows);
    more, s' := ExtendRun(Step, s0, more, s', AdvanceCursor(false));
  }

  /** Behind a used task row the worker can drain the source although a fresh mapping is still in use. */
  lemma DrainEarly(s0: State, acts: seq<Action>, s: State) returns (more: seq<Action>, s': State)
    requires Reachable(s0, acts, s)
    requires s.mode == Dual && s.worker == Idle && s.tgt == map[] && s.task.Some?
    requires s.task.value.status == Pending && s.task.value.batch == |s.src| + 1
    requires CopyStarted(s)
    ensures Reachable(s0, more, s')
    ensures s'.worker == Drained && s'.mode == Dual && s'.tgt.Keys <= s.src.Keys && s'.task.Some?
    ensures s'.src == s.src && s'.writes == s.writes && s'.now == s.now && s'.acked == s.acked
  {
    more, s' := ExtendRun(Step, s0, acts, s, LoadTask);
    var last := Maximum(s.src.Keys, s'.worker.cursor);
    assert NothingAfter(s.src, last);
    if last > s'.worker.cursor {
      LargeBatchBoundary(s', last);
      more, s' := ExtendRun(Step, s0, more, s', FindBoundary(last));
      more, s' := CopyEverything(s0, more, s');
      more, s' := ExtendRun(Step, s0, more, s', LoadTask);
    }
    more, s' := ExtendRun(Step, s0, more, s', FindBoundary(0));
  }

  /** A save through a fresh PRIMARY_ONLY snapshot is under way when the task is saved over a used row. */
  lemma SaveOverUsedTask(s0: State, item: Order) returns (acts: seq<Action>, s: State)
    requires BeforeMigration(s0) && s0.task.Some? && item.number > 0 && item.status == NoPay && Fits(s0.begun, item)
    ensures Reachable(s0, acts, s)
    ensures s.mode == Dual && s.worker == Idle && s.tgt == map[] && s.src == s0.src && s.task.Some?
    ensures s.task.value.status == Pending && s.task.value.batch == |s.src| + 1
    ensures CopyStarted(s)
    ensures 0 in s.writes && InTime(s, s.writes[0])
    ensures s.writes[0].kind == SaveOrder && s.writes[0].item == item && s.writes[0].pc == AtInsert
    ensures s.writes[0].site == Source && s.writes[0].snapshot.mode == OnSource
  {
    acts, s := [], s0;
    acts, s := ExtendRun(Step, s0, acts, s, Tick(1));
    acts, s := ExtendRun(Step, s0, acts, s, Fetch(0));
    acts, s := ExtendRun(Step, s0, acts, s, Install(0));
    var begin := Begin(0, 0, SaveOrder, item);
    acts, s := ExtendRun(Step, s0, acts, s, begin);
    var save := SaveTask(|s0.src| + 1);
    acts, s := ExtendRun(Step, s0, acts, s, save);
    var ready := s.task.value.createdAt + PROPAGATION_DELAY;
    var wait := Tick(if ready > s.now then ready - s.now else 0);
    acts, s := ExtendRun(Step, s0, acts, s, wait);
  }

  lemma UsedTaskIdCanLose(s0: State) returns (acts: seq<Action>, s: State)
    requires BeforeMigration(s0) && s0.task.Some?
    ensures Reachable(s0, acts, s) && s.mode == OnTarget && !AckedIn(s.acked, s.tgt)
  {
    var numbers := s0.src.Keys + set b | b in s0.begun :: b.number;
    var last := Maximum(numbers, 0);
    var item := Order(last + 1, 0, 0, 0, [], [], 0, NoPay, 0, None, None, None);
    assert forall b :: b in s0.begun ==> b.number in numbers;
    acts, s := SaveOverUsedTask(s0, item);
    assert item.number !in s.src;
    acts, s := DrainEarly(s0, acts, s);
    acts, s := AckThenCutOver(s0, acts, s, item);
  }

  /** A write by an old snapshot is acknowledged after the worker has seen the last row. */
  lemma AckThenCutOver(s0: State, acts: seq<Action>, s: State, item: Order) returns (more: seq<Action>, s': State)
    requires Reachable(s0, acts, s) && s.worker == Drained && s.mode == Dual && s.task.Some? && item.number !in s.tgt
    requires 0 in s.writes && InTime(s, s.writes[0]) && item.status == NoPay
    requires s.writes[0].kind == SaveOrder && s.writes[0].item == item && s.writes[0].site == Source
    requires s.writes[0].pc == AtInsert && s.writes[0].snapshot.mode == OnSource
    ensures Reachable(s0, more, s') && s'.mode == OnTarget && !AckedIn(s'.acked, s'.tgt)
  {
    more, s' := ExtendRun(Step, s0, acts, s, WriteStep(0, false));
    assert (item.number, NoPay) in s'.acked && item.number !in s'.tgt;
    more, s' := ExtendRun(Step, s0, more, s', CutOver(false));
  }

  /**
   A migration loses nothing in any run if and only if its task id is new. A used id keeps its old
   cursor and creation time, so the worker skips rows and does not wait for routers to catch up.
   */
  lemma LossFreeIffTaskIdIsNew(s0: State)
    requires BeforeMigration(s0)
    ensures LossFree(s0) <==> s0.task.None?
  {
    if s0.task.None? {
      forall acts, s | Reachable(s0, acts, s) && s.mode == OnTarget ensures AckedIn(s.acked, s.tgt) {
        CutoverLosesNothing(s0, acts, s);
      }
    } else {
      var acts, s := UsedTaskIdCanLose(s0);
    }
  }
}
