/**
 The mapping table of the migration service: which physical table serves a virtual shard, and which
 table is being filled for it. A task assigns a shadow table to a shard; its completion makes the
 shadow the primary. The in-memory repository and the SQL transactions differ in two guards, which
 `sql` switches.
 */
module ShardMappings {
  import opened Runs
  import opened FiniteSets

  datatype Place = Place(database: string, table: string)

  const NOWHERE := Place("", "")

  datatype Row = Row(virtualShard: int, physical: Place, shadow: Place, dual: bool, version: int)

  datatype TaskStatus = Pending | Running | Paused | Failed | Done

  datatype Task = Task(id: int, virtualShard: int, source: Place, target: Place, status: TaskStatus)

  // ----- The two changes of the table -----

  /** Another shard reads, or is being copied to, the target. */
  predicate Taken(rows: seq<Row>, v: int, target: Place) {
    exists i :: 0 <= i < |rows| && rows[i].virtualShard != v && (rows[i].physical == target || rows[i].shadow == target)
  }

  predicate Activatable(sql: bool, row: Row, v: int, source: Place) {
    row.virtualShard == v && row.physical == source && (sql ==> !row.dual)
  }

  predicate Completable(sql: bool, row: Row, v: int, target: Place) {
    row.virtualShard == v && row.dual && (sql ==> row.shadow == target)
  }

  function Activated(row: Row, target: Place): Row {
    row.(shadow := target, dual := true, version := row.version + 1)
  }

  function CutOver(row: Row): Row {
    row.(physical := row.shadow, shadow := NOWHERE, dual := false, version := row.version + 1)
  }

  // ----- Every run keeps the shards apart -----

  datatype Act =
    | Activate(k: nat, v: int, source: Place, target: Place)
    | Complete(k: nat, v: int, target: Place)

  function Step(sql: bool, rows: seq<Row>, a: Act): Option<seq<Row>> {
    match a
    case Activate(k, v, source, target) =>
      if !Taken(rows, v, target) && k < |rows| && Activatable(sql, rows[k], v, source) then Some(rows[k := Activated(rows[k], target)])
      else None
    case Complete(k, v, target) =>
      if k < |rows| && Completable(sql, rows[k], v, target) then Some(rows[k := CutOver(rows[k])]) else None
  }

  /** The tables that a row's orders may live in. */
  function Places(row: Row): set<Place> {
    if row.dual then {row.physical, row.shadow} else {row.physical}
  }

  ghost predicate Separate(rows: seq<Row>) {
    && (forall i, j :: 0 <= i < j < |rows| ==> rows[i].virtualShard != rows[j].virtualShard)
    && (forall i, j :: 0 <= i < j < |rows| ==> Places(rows[i]) !! Places(rows[j]))
  }

  lemma StepKeepsSeparate(sql: bool, rows: seq<Row>, a: Act)
    requires Separate(rows) && Step(sql, rows, a).Some?
    ensures Separate(Step(sql, rows, a).value)
    ensures forall i :: 0 <= i < |rows| ==> Step(sql, rows, a).value[i].virtualShard == rows[i].virtualShard
  {
    var rows' := Step(sql, rows, a).value;
    forall i, j | 0 <= i < j < |rows'| ensures Places(rows'[i]) !! Places(rows'[j]) {
      assert Places(rows[i]) !! Places(rows[j]);
      if a.Complete? {
        assert Places(CutOver(rows[a.k])) <= Places(rows[a.k]);
      } else {
        assert Places(rows'[a.k]) == {rows[a.k].physical, a.target};
        assert forall m :: 0 <= m < |rows| && m != a.k ==> a.target !in Places(rows[m]);
      }
    }
  }

  /** Primary and shadow tables of different shards stay different, on every run of either repository. */
  lemma MappingsStaySeparate(sql: bool, rows: seq<Row>, acts: seq<Act>)
    requires Separate(rows)
    requires Exec((r: seq<Row>, a: Act) => Step(sql, r, a), rows, acts).Some?
    ensures Separate(Exec((r: seq<Row>, a: Act) => Step(sql, r, a), rows, acts).value)
  {
    var step := (r: seq<Row>, a: Act) => Step(sql, r, a);
    var inv := (r: seq<Row>) => Separate(r);
    forall r, a | inv(r) && step(r, a).Some? ensures inv(step(r, a).value) {
      StepKeepsSeparate(sql, r, a);
    }
    InvariantOfRun(step, inv, rows, acts);
  }

  // ----- The in-memory repository -----

  class MigrationRepository {
    var tasks: map<int, Task>
    var mappings: seq<Row>

    constructor (mappings: seq<Row>)
      requires Separate(mappings)
      ensures Separate(this.mappings) && this.mappings == mappings && tasks == map[]
    {
      this.mappings, tasks := mappings, map[];
    }

    method SaveTask(task: Task) returns (ok: bool)
      requires Separate(mappings)
      modifies this
      ensures Separate(mappings)
      ensures ok <==> !Taken(old(mappings), task.virtualShard, task.target) &&
                      exists k :: 0 <= k < |old(mappings)| && Activatable(false, old(mappings)[k], task.virtualShard, task.source)
      ensures !ok ==> unchanged(this)
      ensures ok ==> tasks == old(tasks)[task.id := task] &&
                     exists k :: Step(false, old(mappings), Activate(k, task.virtualShard, task.source, task.target)) == Some(mappings)
    {
      var i := 0;
      while i < |mappings|
        invariant 0 <= i <= |mappings|
        invariant forall j :: 0 <= j < i ==>
                    || mappings[j].virtualShard == task.virtualShard
                    || (mappings[j].physical != task.target && mappings[j].shadow != task.target)
      {
        if mappings[i].virtualShard != task.virtualShard &&
           (mappings[i].physical == task.target || mappings[i].shadow == task.target) {
          return false;
        }
        i := i + 1;
      }
      i := 0;
      while i < |mappings|
        invariant 0 <= i <= |mappings|
        invariant unchanged(this)
        invariant forall j :: 0 <= j < i ==> !Activatable(false, mappings[j], task.virtualShard, task.source)
      {
        if mappings[i].virtualShard == task.virtualShard && mappings[i].physical == task.source {
          StepKeepsSeparate(false, mappings, Activate(i, task.virtualShard, task.source, task.target));
          mappings := mappings[i := Activated(mappings[i], task.target)];
          tasks := tasks[task.id := task];
          assert Step(false, old(mappings), Activate(i, task.virtualShard, task.source, task.target)) == Some(mappings);
          return true;
        }
        i := i + 1;
      }
      return false;
    }

    /** The oldest id among the open tasks; it is marked running. */
    method LoadNextTask() returns (task: Option<Task>)
      modifies `tasks
      ensures task.None? ==> forall id :: id in old(tasks) ==> !Open(old(tasks)[id])
      ensures task.None? ==> tasks == old(tasks)
      ensures task.Some? ==> exists id :: id in old(tasks) && Open(old(tasks)[id])
                                          && (forall k :: k in old(tasks) && Open(old(tasks)[k]) ==> id <= k)
                                          && task.value == old(tasks)[id].(status := Running)
                                          && tasks == old(tasks)[task.value.id := task.value]
    {
      var best: Option<int> := None;
      var todo := tasks.Keys;
      while todo != {}
        invariant todo <= tasks.Keys && tasks == old(tasks)
        invariant best.None? ==> forall k :: k in tasks && k !in todo ==> !Open(tasks[k])
        invariant best.Some? ==> best.value in tasks && Open(tasks[best.value])
                                 && forall k :: k in tasks && k !in todo && Open(tasks[k]) ==> best.value <= k
        decreases todo
      {
        var id := PickOne(todo);
        if Open(tasks[id]) && (best.None? || id < best.value) {
          best := Some(id);
        }
        todo := todo - {id};
      }
      if best.None? { return None; }
      var t := tasks[best.value].(status := Running);
      tasks := tasks[t.id := t];
      return Some(t);
    }

    method CompleteTask(task: Task) returns (ok: bool)
      requires Separate(mappings)
      modifies this
      ensures Separate(mappings)
      ensures ok <==> exists k :: 0 <= k < |old(mappings)| && Completable(false, old(mappings)[k], task.virtualShard, task.target)
      ensures !ok ==> unchanged(this)
      ensures ok ==> tasks == old(tasks)[task.id := Stored(old(tasks), task.id).(status := Done)] &&
                     exists k :: Step(false, old(mappings), Complete(k, task.virtualShard, task.target)) == Some(mappings)
    {
      var i := 0;
      while i < |mappings|
        invariant 0 <= i <= |mappings|
        invariant unchanged(this)
        invariant forall j :: 0 <= j < i ==> !Completable(false, mappings[j], task.virtualShard, task.target)
      {
        if mappings[i].virtualShard == task.virtualShard && mappings[i].dual {
          StepKeepsSeparate(false, mappings, Complete(i, task.virtualShard, task.target));
          mappings := mappings[i := CutOver(mappings[i])];
          tasks := tasks[task.id := Stored(tasks, task.id).(status := Done)];
          assert Step(false, old(mappings), Complete(i, task.virtualShard, task.target)) == Some(mappings);
          return true;
        }
        i := i + 1;
      }
      return false;
    }

    method FailTask(id: int) returns (ok: bool)
      modifies `tasks
      ensures ok == (id in old(tasks))
      ensures tasks == if ok then old(tasks)[id := old(tasks)[id].(status := Paused)] else old(tasks)
    {
      if id !in tasks { return false; }
      tasks := tasks[id := tasks[id].(status := Paused)];
      return true;
    }

    /** Only a stopped task is resumed; afterwards a worker will load it. */
    method ResumeTask(id: int) returns (ok: bool)
      modifies `tasks
      ensures ok ==> id in old(tasks) && !Open(old(tasks)[id]) && old(tasks)[id].status != Done
      ensures ok ==> tasks == old(tasks)[id := old(tasks)[id].(status := Running)] && Open(tasks[id])
      ensures !ok ==> tasks == old(tasks) && (id in tasks ==> Open(tasks[id]) || tasks[id].status == Done)
    {
      if id !in tasks || (tasks[id].status != Paused && tasks[id].status != Failed) { return false; }
      tasks := tasks[id := tasks[id].(status := Running)];
      return true;
    }
  }

  /** A missing task reads as an empty one. */
  function Stored(tasks: map<int, Task>, id: int): Task {
    if id in tasks then tasks[id] else Task(0, 0, NOWHERE, NOWHERE, Pending)
  }

  predicate Open(t: Task) {
    t.status == Pending || t.status == Running
  }
}
