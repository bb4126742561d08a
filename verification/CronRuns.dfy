/** Every run of the job manager: clock, tasks, deletions, restarts from the snapshot, in any order. */
module CronRuns {
  import opened Options
  import opened CronJobs

  datatype Live = Live(job: Id, begun: bool)

  /** `live` are the tasks that have not ended. History: every consumed deadline, the ids ever given out,
      the fixed deadlines of one-shot jobs, and the jobs whose deletion was completed. */
  datatype World = World(
    table: Table, live: map<nat, Live>, now: int,
    history: seq<Fire>, used: set<Id>, once: map<Id, int>, deleted: set<Id>)

  datatype Event =
    | Tick(now: int)
    | AddRecurring(id: Id, cron: Cron)
    | AddOnce(id: Id, deadline: int)
    | Due(due: seq<(Id, int)>)
    | Begin(task: nat)
    | NeverBegin(task: nat)
    | Mark(task: nat)
    | Finished(task: nat)
    | Cancelled(task: nat)
    | Ends(task: nat)
    | DeleteBegins(id: Id)
    | DeleteEnds(id: Id)
    | DeleteFails(id: Id)
    | Activate(order: seq<Id>)
    | Rezone(schedule: Schedule, order: seq<Id>)
    | Reopen(schedule: Schedule, order: seq<Id>)

  /** What the environment promises: the clock does not go back, new ids are new, and a time zone's
      firings lie after the instant asked about. A task runs its sections in any order. */
  ghost predicate Enabled(w: World, e: Event) {
    match e
    case Tick(now) => w.now <= now
    case AddRecurring(id, cron) => id !in w.used && w.table.schedule(cron, w.now).Some?
    case AddOnce(id, deadline) => id !in w.used && deadline > w.now
    case Due(due) => IsDue(due, w.table.nextFire, w.now)
    case Begin(task) => task in w.live && !w.live[task].begun
    case NeverBegin(task) => task in w.live && !w.live[task].begun
    case Mark(task) => task in w.live && w.live[task].begun
    case Finished(task) => task in w.live && w.live[task].begun
    case Cancelled(task) => task in w.live && w.live[task].begun
    case Ends(task) => task in w.live && w.live[task].begun
    case DeleteBegins(id) => id in w.table.jobs
    case DeleteEnds(id) => id in w.used
    case DeleteFails(id) => true
    case Activate(order) => IsOrder(order, w.table.saved)
    case Rezone(schedule, order) => Later(schedule) && IsOrder(order, w.table.jobs)
    case Reopen(schedule, order) =>
      Later(schedule) && IsOrder(order, w.table.saved) && Restart(w.table, schedule, order, w.now).ok
  }

  /** The tasks that the consumed deadlines started. */
  function AddLive(live: map<nat, Live>, fires: seq<Fire>): map<nat, Live> {
    if fires == [] then live
    else
      var n := |fires| - 1;
      var rest := AddLive(live, fires[..n]);
      if fires[n].task.Some? then rest[fires[n].task.value := Live(fires[n].id, false)] else rest
  }

  function AfterDue(w: World, r: DueResult): World {
    w.(table := r.table, live := AddLive(w.live, r.fires), history := w.history + r.fires)
  }

  function EndTask(w: World, task: nat): World
    requires task in w.live
  {
    w.(table := TaskEnd(w.table, w.live[task].job), live := w.live - {task})
  }

  function Apply(w: World, e: Event): World
    requires Enabled(w, e)
  {
    var t := w.table;
    match e
    case Tick(now) => w.(now := now)
    case AddRecurring(id, cron) =>
      var next := t.schedule(cron, w.now);
      w.(table := Create(t, id, Recurring(cron, next), next.value), used := w.used + {id})
    case AddOnce(id, deadline) =>
      w.(table := Create(t, id, Once(Some(deadline)), deadline), used := w.used + {id},
         once := w.once[id := deadline])
    case Due(due) => AfterDue(w, RunDue(t, due))
    case Begin(task) =>
      var job := w.live[task].job;
      if job in t.jobs then w.(live := w.live[task := Live(job, true)]) else EndTask(w, task)
    case NeverBegin(task) => w.(live := w.live - {task})
    case Mark(task) => w.(table := MarkRunning(t, w.live[task].job))
    case Finished(task) => w.(table := Finish(t, w.live[task].job))
    case Cancelled(task) => w.(table := Cancel(t, w.live[task].job))
    case Ends(task) => EndTask(w, task)
    case DeleteBegins(id) => w.(table := DeleteStart(t, id))
    case DeleteEnds(id) => w.(table := DeleteEnd(t, id), deleted := w.deleted + {id})
    case DeleteFails(id) => w.(table := DeleteFail(t, id))
    case Activate(order) => w.(table := Initialize(t, order, w.now).table)
    case Rezone(schedule, order) => w.(table := UpdateZone(t, schedule, order, w.now).table)
    case Reopen(schedule, order) => w.(table := Restart(t, schedule, order, w.now).table, live := map[])
  }

  // ---- the invariant ----

  ghost predicate Ids(w: World) {
    && w.table.jobs.Keys <= w.used && w.table.saved.Keys <= w.used && w.table.nextFire.Keys <= w.used
    && w.deleted <= w.used && w.once.Keys <= w.used
    && w.deleted !! w.table.jobs.Keys && w.deleted !! w.table.saved.Keys && w.deleted !! w.table.nextFire.Keys
    && (forall i :: 0 <= i < |w.history| ==> w.history[i].id in w.used)
  }

  /** A one-shot job keeps its kind, and its deadline until that is consumed. */
  ghost predicate JobFits(w: World, id: Id, job: Job) {
    if id in w.once then job.Once? && (job.next.Some? ==> job.next.value == w.once[id]) else job.Recurring?
  }

  ghost predicate Kinds(w: World) {
    && (forall id :: id in w.table.jobs ==> JobFits(w, id, w.table.jobs[id]))
    && (forall id :: id in w.table.saved ==> JobFits(w, id, w.table.saved[id]))
    && (forall id :: id in w.once && id in w.table.nextFire ==> w.table.nextFire[id] == w.once[id])
  }

  /** Consumed deadlines of a job go up, and the next one lies after them. */
  ghost predicate Deadlines(w: World) {
    && Later(w.table.schedule)
    && (forall i :: 0 <= i < |w.history| ==> w.history[i].at <= w.now)
    && (forall i :: 0 <= i < |w.history| && w.history[i].id in w.table.nextFire ==>
          w.history[i].at < w.table.nextFire[w.history[i].id])
    && (forall i, j :: 0 <= i < j < |w.history| && w.history[i].id == w.history[j].id ==>
          w.history[i].at < w.history[j].at)
    && (forall i :: 0 <= i < |w.history| && w.history[i].id in w.once ==>
          w.history[i].at == w.once[w.history[i].id])
  }

  /** A live task is the one that its job waits for, or its job's deletion was completed. */
  ghost predicate Tasks(w: World) {
    && (forall k :: k in w.live ==> k < w.table.nextTask)
    && (forall k :: k in w.live ==>
          var job := w.live[k].job;
          (job in w.table.tasks && w.table.tasks[job] == k) || job in w.deleted)
    && (forall k, l :: k in w.live && l in w.live && w.live[k].job == w.live[l].job ==> k == l)
    && (forall job :: job in w.table.tasks ==> w.table.tasks[job] < w.table.nextTask)
    && (forall job :: job in w.table.running ==>
          job in w.table.tasks && w.table.tasks[job] in w.live && w.live[w.table.tasks[job]] == Live(job, true))
  }

  ghost predicate Inv(w: World) {
    Ids(w) && Kinds(w) && Deadlines(w) && Tasks(w)
  }

  // ---- one due job ----

  lemma AddOneLive(live: map<nat, Live>, f: Fire)
    ensures AddLive(live, [f]) == if f.task.Some? then live[f.task.value := Live(f.id, false)] else live
  {
    assert [f][..0] == [];
  }

  lemma DueOneKeepsIds(w: World, id: Id, at: int)
    requires Ids(w) && id in w.table.nextFire
    ensures Ids(AfterDue(w, DueOne(w.table, id, at)))
  {
  }

  lemma DueOneKeepsKinds(w: World, id: Id, at: int)
    requires Kinds(w)
    ensures Kinds(AfterDue(w, DueOne(w.table, id, at)))
  {
  }

  /** What one due job does to the deadlines and the history. */
  lemma DueOneConsumes(t: Table, id: Id, at: int)
    requires Later(t.schedule) && id in t.nextFire
    ensures var r := DueOne(t, id, at);
      && r.table.schedule == t.schedule
      && (forall x :: x in r.table.nextFire && x != id ==> x in t.nextFire && r.table.nextFire[x] == t.nextFire[x])
      && (r.fires == [] || (|r.fires| == 1 && r.fires[0].id == id && r.fires[0].at == at))
      && (id in r.table.nextFire ==>
            if r.fires == [] then r.table.nextFire[id] == t.nextFire[id] else r.table.nextFire[id] > at)
  {
  }

  lemma DueOneKeepsDeadlines(w: World, id: Id, at: int)
    requires Kinds(w) && Deadlines(w) && id in w.table.nextFire && w.table.nextFire[id] == at && at <= w.now
    ensures Deadlines(AfterDue(w, DueOne(w.table, id, at)))
  {
    DueOneConsumes(w.table, id, at);
  }

  lemma LaunchKeepsTasks(w: World, t: Table, id: Id, at: int)
    requires Tasks(w) && id !in w.deleted
    requires t.tasks == w.table.tasks && t.nextTask == w.table.nextTask && t.running == w.table.running
    ensures Tasks(AfterDue(w, Launch(t, id, at)))
  {
    var w' := AfterDue(w, Launch(t, id, at));
    AddOneLive(w.live, Launch(t, id, at).fires[0]);
    if id in t.tasks {
      SameTasks(w, w');
    } else {
      NewTask(w, w', id);
    }
  }

  /** A task is started for a job that waits for none. */
  lemma NewTask(w: World, w': World, id: Id)
    requires Tasks(w) && id !in w.deleted && id !in w.table.tasks
    requires var k := w.table.nextTask;
      && w'.live == w.live[k := Live(id, false)] && w'.deleted == w.deleted
      && w'.table.tasks == w.table.tasks[id := k] && w'.table.nextTask == k + 1
      && w'.table.running == w.table.running
    ensures Tasks(w')
  {
  }

  lemma DueOneKeepsTasks(w: World, id: Id, at: int)
    requires Ids(w) && Tasks(w)
    ensures Tasks(AfterDue(w, DueOne(w.table, id, at)))
  {
    var t := w.table;
    if id in t.jobs && id !in t.deleting {
      match t.jobs[id]
      case Once(_) =>
        LaunchKeepsTasks(w, t.(nextFire := t.nextFire - {id}, jobs := t.jobs[id := Once(None)]), id, at);
      case Recurring(cron, _) =>
        var next := t.schedule(cron, at);
        if next.Some? {
          LaunchKeepsTasks(w, t.(nextFire := t.nextFire[id := next.value],
                                 jobs := t.jobs[id := Recurring(cron, next)]), id, at);
        }
    }
  }

  lemma {:induction false} AddLiveTwice(live: map<nat, Live>, a: seq<Fire>, b: seq<Fire>)
    ensures AddLive(live, a + b) == AddLive(AddLive(live, a), b)
  {
    if b == [] {
      assert a + b == a;
    } else {
      var n := |b| - 1;
      assert (a + b)[..|a + b| - 1] == a + b[..n];
      AddLiveTwice(live, a, b[..n]);
    }
  }

  lemma DueOneTouchesOnly(t: Table, id: Id, at: int, other: Id)
    requires other != id && other in t.nextFire
    ensures other in DueOne(t, id, at).table.nextFire
    ensures DueOne(t, id, at).table.nextFire[other] == t.nextFire[other]
  {
  }

  /** The deadlines that are still to come in the list are untouched. */
  lemma {:induction false} DueAllLeaves(t: Table, due: seq<(Id, int)>, k: nat, other: Id)
    requires k <= |due| && other in t.nextFire && forall i :: 0 <= i < k ==> due[i].0 != other
    ensures other in DueAll(t, due[..k]).table.nextFire
    ensures DueAll(t, due[..k]).table.nextFire[other] == t.nextFire[other]
  {
    if k > 0 {
      assert due[..k][..k - 1] == due[..k - 1];
      DueAllLeaves(t, due, k - 1, other);
      var r := DueAll(t, due[..k - 1]);
      DueOneTouchesOnly(r.table, due[k - 1].0, due[k - 1].1, other);
    }
  }

  lemma {:induction false} DueAllKeeps(w: World, due: seq<(Id, int)>, k: nat)
    requires Inv(w) && IsDue(due, w.table.nextFire, w.now) && k <= |due|
    ensures Inv(AfterDue(w, DueAll(w.table, due[..k])))
  {
    if k == 0 {
      assert due[..0] == [] && w.history + [] == w.history;
    } else {
      assert due[..k][..k - 1] == due[..k - 1];
      DueAllKeeps(w, due, k - 1);
      var r := DueAll(w.table, due[..k - 1]);
      if r.ok {
        DueAllLeaves(w.table, due, k - 1, due[k - 1].0);
        NextDueKeeps(w, r, due[k - 1].0, due[k - 1].1);
      }
    }
  }

  lemma NextDueKeeps(w: World, r: DueResult, id: Id, at: int)
    requires Inv(AfterDue(w, r))
    requires id in r.table.nextFire && r.table.nextFire[id] == at && at <= w.now
    ensures var s := DueOne(r.table, id, at);
      Inv(AfterDue(w, DueResult(s.ok, r.changed || s.changed, s.table, r.fires + s.fires)))
  {
    var w1, s := AfterDue(w, r), DueOne(r.table, id, at);
    DueOneKeepsIds(w1, id, at);
    DueOneKeepsKinds(w1, id, at);
    DueOneKeepsDeadlines(w1, id, at);
    DueOneKeepsTasks(w1, id, at);
    AfterDueTwice(w, r, s, r.changed || s.changed);
  }

  lemma AfterDueTwice(w: World, r: DueResult, s: DueResult, changed: bool)
    ensures AfterDue(AfterDue(w, r), s) == AfterDue(w, DueResult(s.ok, changed, s.table, r.fires + s.fires))
  {
    AddLiveTwice(w.live, r.fires, s.fires);
    assert w.history + r.fires + s.fires == w.history + (r.fires + s.fires);
  }

  lemma SaveKeeps(w: World)
    requires Inv(w)
    ensures Inv(w.(table := Save(w.table)))
  {
  }

  lemma DueKeeps(w: World, due: seq<(Id, int)>)
    requires Inv(w) && IsDue(due, w.table.nextFire, w.now)
    ensures Inv(AfterDue(w, RunDue(w.table, due)))
  {
    assert due[..|due|] == due;
    DueAllKeeps(w, due, |due|);
    var r := DueAll(w.table, due);
    SaveKeeps(AfterDue(w, r));
  }

  // ---- rebuilding ----

  lemma RebuildOneKeepsIds(w: World, id: Id, persist: bool)
    requires Ids(w) && Kinds(w)
    ensures var w' := w.(table := RebuildOne(w.table, id, w.now, persist).table); Ids(w') && Kinds(w')
  {
  }

  lemma RebuildOneKeepsDeadlines(w: World, id: Id, persist: bool)
    requires Kinds(w) && Deadlines(w)
    ensures Deadlines(w.(table := RebuildOne(w.table, id, w.now, persist).table))
  {
  }

  lemma SameTasks(w: World, w': World)
    requires Tasks(w) && w'.live == w.live && w.deleted <= w'.deleted
    requires w'.table.tasks == w.table.tasks && w'.table.nextTask == w.table.nextTask
    requires w'.table.running == w.table.running
    ensures Tasks(w')
  {
  }

  lemma RebuildOneKeeps(w: World, id: Id, persist: bool)
    requires Inv(w)
    ensures Inv(w.(table := RebuildOne(w.table, id, w.now, persist).table))
  {
    RebuildOneKeepsIds(w, id, persist);
    RebuildOneKeepsDeadlines(w, id, persist);
    SameTasks(w, w.(table := RebuildOne(w.table, id, w.now, persist).table));
  }

  lemma {:induction false} RebuildAllKeeps(w: World, order: seq<Id>, persist: bool)
    requires Inv(w)
    ensures Inv(w.(table := RebuildAll(w.table, order, w.now, persist).table))
  {
    if order != [] {
      var n := |order| - 1;
      RebuildAllKeeps(w, order[..n], persist);
      var r := RebuildAll(w.table, order[..n], w.now, persist);
      RebuildOneKeeps(w.(table := r.table), order[n], persist);
    }
  }

  lemma RebuildKeeps(w: World, order: seq<Id>, persist: bool)
    requires Inv(w)
    ensures Inv(w.(table := Rebuild(w.table, order, w.now, persist).table))
  {
    RebuildAllKeeps(w, order, persist);
    SaveKeeps(w.(table := RebuildAll(w.table, order, w.now, persist).table));
  }

  // ---- every event ----

  lemma ReloadKeepsInv(w: World)
    requires Inv(w)
    ensures Inv(w.(table := w.table.(jobs := w.table.saved)))
  {
  }

  lemma ActivateKeeps(w: World, order: seq<Id>)
    requires Inv(w)
    ensures Inv(w.(table := Initialize(w.table, order, w.now).table))
  {
    ReloadKeepsInv(w);
    RebuildKeeps(w.(table := w.table.(jobs := w.table.saved)), order, true);
  }

  lemma RezoneKeeps(w: World, schedule: Schedule, order: seq<Id>)
    requires Inv(w) && Later(schedule)
    ensures Inv(w.(table := UpdateZone(w.table, schedule, order, w.now).table))
  {
    RebuildKeeps(w.(table := w.table.(schedule := schedule)), order, true);
  }

  function NewProcess(w: World, schedule: Schedule): World {
    var t := w.table;
    w.(table := Table(t.saved, map[], map[], {}, {}, t.saved, schedule, t.nextTask), live := map[])
  }

  lemma NewProcessKeepsInv(w: World, schedule: Schedule)
    requires Inv(w) && Later(schedule)
    ensures Inv(NewProcess(w, schedule))
  {
  }

  lemma ReopenKeeps(w: World, schedule: Schedule, order: seq<Id>)
    requires Inv(w) && Later(schedule)
    ensures Inv(w.(table := Restart(w.table, schedule, order, w.now).table, live := map[]))
  {
    NewProcessKeepsInv(w, schedule);
    RebuildKeeps(NewProcess(w, schedule), order, false);
  }

  lemma CreateKeeps(w: World, e: Event)
    requires Inv(w) && Enabled(w, e) && (e.AddRecurring? || e.AddOnce?)
    ensures Inv(Apply(w, e))
  {
  }

  lemma EndTaskKeeps(w: World, task: nat)
    requires Inv(w) && task in w.live
    ensures Inv(EndTask(w, task))
  {
    var w' := EndTask(w, task);
    SameDeadlines(w, w');
    EndTaskKeepsTasks(w, task);
  }

  lemma EndTaskKeepsTasks(w: World, task: nat)
    requires Tasks(w) && task in w.live
    ensures Tasks(EndTask(w, task))
  {
  }

  /** Events that leave the jobs, their deadlines and the history alone. */
  lemma SameDeadlines(w: World, w': World)
    requires Ids(w) && Kinds(w) && Deadlines(w)
    requires w'.table.jobs == w.table.jobs && w'.table.saved == w.table.saved
    requires w'.table.nextFire == w.table.nextFire && w'.table.schedule == w.table.schedule
    requires w'.(table := w.table, live := w.live) == w
    ensures Ids(w') && Kinds(w') && Deadlines(w')
  {
  }

  lemma NotBegunKeeps(w: World, e: Event)
    requires Inv(w) && Enabled(w, e) && (e.Begin? || e.NeverBegin?)
    ensures Inv(Apply(w, e))
  {
    var w' := Apply(w, e);
    SameDeadlines(w, w');
    if e.Begin? && w.live[e.task].job !in w.table.jobs {
      EndTaskKeepsTasks(w, e.task);
    } else {
      FewerTasks(w, w');
    }
  }

  /** A task that begins, or ends before it began. */
  lemma FewerTasks(w: World, w': World)
    requires Tasks(w) && w'.table == w.table && w'.deleted == w.deleted
    requires forall k :: k in w'.live ==> k in w.live && w'.live[k].job == w.live[k].job
    requires forall k :: k in w.live && w.live[k].begun ==> k in w'.live && w'.live[k].begun
    ensures Tasks(w')
  {
  }

  lemma SectionKeeps(w: World, e: Event)
    requires Inv(w) && Enabled(w, e) && (e.Mark? || e.Finished? || e.Cancelled?)
    ensures Inv(Apply(w, e))
  {
    var w', id := Apply(w, e), w.live[e.task].job;
    match e
    case Mark(task) =>
      SameDeadlines(w, w');
      MarkKeepsTasks(w, task);
    case Finished(_) => FinishKeeps(w, id);
    case Cancelled(_) => CancelKeeps(w, id);
  }

  lemma DropKeeps(w: World, id: Id)
    requires Ids(w) && Kinds(w) && Deadlines(w)
    ensures var w' := w.(table := Save(Drop(w.table, id))); Ids(w') && Kinds(w') && Deadlines(w')
  {
  }

  lemma SaveKeepsJobs(w: World)
    requires Ids(w) && Kinds(w) && Deadlines(w)
    ensures var w' := w.(table := Save(w.table)); Ids(w') && Kinds(w') && Deadlines(w')
  {
  }

  lemma FinishKeepsJobs(w: World, id: Id)
    requires Ids(w) && Kinds(w) && Deadlines(w)
    ensures var w' := w.(table := Finish(w.table, id)); Ids(w') && Kinds(w') && Deadlines(w')
  {
    DropKeeps(w, id);
    SaveKeepsJobs(w);
    assert w.(table := w.table) == w;
  }

  lemma FinishKeeps(w: World, id: Id)
    requires Inv(w)
    ensures Inv(w.(table := Finish(w.table, id)))
  {
    FinishKeepsJobs(w, id);
    SameTasks(w, w.(table := Finish(w.table, id)));
  }

  lemma CancelKeepsJobs(w: World, id: Id)
    requires Ids(w) && Kinds(w) && Deadlines(w)
    ensures var w' := w.(table := Cancel(w.table, id)); Ids(w') && Kinds(w') && Deadlines(w')
  {
    DropKeeps(w, id);
    assert w.(table := w.table) == w;
  }

  lemma CancelKeeps(w: World, id: Id)
    requires Inv(w)
    ensures Inv(w.(table := Cancel(w.table, id)))
  {
    CancelKeepsJobs(w, id);
    SameTasks(w, w.(table := Cancel(w.table, id)));
  }

  lemma MarkKeepsTasks(w: World, task: nat)
    requires Ids(w) && Tasks(w) && task in w.live && w.live[task].begun
    ensures Tasks(w.(table := MarkRunning(w.table, w.live[task].job)))
  {
  }

  lemma TickKeeps(w: World, e: Event)
    requires Inv(w) && Enabled(w, e) && e.Tick?
    ensures Inv(Apply(w, e))
  {
  }

  lemma DeleteKeeps(w: World, e: Event)
    requires Inv(w) && Enabled(w, e) && (e.DeleteBegins? || e.DeleteEnds? || e.DeleteFails?)
    ensures Inv(Apply(w, e))
  {
    var w' := Apply(w, e);
    if e.DeleteEnds? {
      assert Ids(w') && Kinds(w') && Deadlines(w');
    } else {
      SameDeadlines(w, w');
    }
  }

  lemma StepKeepsInv(w: World, e: Event)
    requires Inv(w) && Enabled(w, e)
    ensures Inv(Apply(w, e))
  {
    match e
    case Due(due) => DueKeeps(w, due);
    case Activate(order) => ActivateKeeps(w, order);
    case Rezone(schedule, order) => RezoneKeeps(w, schedule, order);
    case Reopen(schedule, order) => ReopenKeeps(w, schedule, order);
    case AddRecurring(_, _) => CreateKeeps(w, e);
    case AddOnce(_, _) => CreateKeeps(w, e);
    case Tick(_) => TickKeeps(w, e);
    case DeleteBegins(_) => DeleteKeeps(w, e);
    case DeleteEnds(_) => DeleteKeeps(w, e);
    case DeleteFails(_) => DeleteKeeps(w, e);
    case Begin(_) => NotBegunKeeps(w, e);
    case NeverBegin(_) => NotBegunKeeps(w, e);
    case Ends(task) => EndTaskKeeps(w, task);
    case _ => SectionKeeps(w, e);
  }

  // ---- runs ----

  ghost predicate ValidRun(w: World, events: seq<Event>)
    decreases |events|
  {
    events == [] || (Enabled(w, events[0]) && ValidRun(Apply(w, events[0]), events[1..]))
  }

  ghost function Exec(w: World, events: seq<Event>): World
    requires ValidRun(w, events)
    decreases |events|
  {
    if events == [] then w else Exec(Apply(w, events[0]), events[1..])
  }

  /** An empty store. */
  ghost predicate Initial(w: World) {
    && w.table == Table(map[], map[], map[], {}, {}, map[], w.table.schedule, 0) && Later(w.table.schedule)
    && w.live == map[] && w.history == [] && w.used == {} && w.once == map[] && w.deleted == {}
  }

  lemma {:induction false} RunKeepsInv(w: World, events: seq<Event>)
    requires Inv(w) && ValidRun(w, events)
    ensures Inv(Exec(w, events))
    ensures w.history <= Exec(w, events).history && w.deleted <= Exec(w, events).deleted
    ensures w.once.Items <= Exec(w, events).once.Items
    decreases |events|
  {
    if events != [] {
      StepKeepsInv(w, events[0]);
      HistoryGrows(w, events[0]);
      RunKeepsInv(Apply(w, events[0]), events[1..]);
    }
  }

  lemma HistoryGrows(w: World, e: Event)
    requires Inv(w) && Enabled(w, e)
    ensures w.history <= Apply(w, e).history && w.deleted <= Apply(w, e).deleted
    ensures w.once.Items <= Apply(w, e).once.Items
  {
    if e.AddOnce? {
      assert forall id :: id in w.once ==> id in Apply(w, e).once && Apply(w, e).once[id] == w.once[id];
    }
  }

  /** A one-shot job's deadline is consumed, and so its task started, at most once in any run. */
  lemma OneShotStartsOnce(w: World, events: seq<Event>, i: nat, j: nat)
    requires Initial(w) && ValidRun(w, events)
    requires i < |Exec(w, events).history| && j < |Exec(w, events).history|
    requires Exec(w, events).history[i].id == Exec(w, events).history[j].id
    requires Exec(w, events).history[i].id in Exec(w, events).once
    ensures i == j
  {
    RunKeepsInv(w, events);
  }

  /** In every reachable state a job has at most one live task, and a job shown as running has one. */
  lemma AtMostOneLiveTask(w: World, events: seq<Event>)
    requires Initial(w) && ValidRun(w, events)
    ensures var v := Exec(w, events);
      && (forall k, l :: k in v.live && l in v.live && v.live[k].job == v.live[l].job ==> k == l)
      && (forall job :: job in v.table.running ==> exists k :: k in v.live && v.live[k] == Live(job, true))
  {
    RunKeepsInv(w, events);
    var v := Exec(w, events);
    forall job | job in v.table.running
      ensures exists k :: k in v.live && v.live[k] == Live(job, true)
    {
      assert v.table.tasks[job] in v.live;
    }
  }

  /** The consumed deadlines of a job strictly increase over any run, restarts included, and its next
      deadline lies after all of them. */
  lemma DeadlinesIncrease(w: World, events: seq<Event>)
    requires Initial(w) && ValidRun(w, events)
    ensures var v := Exec(w, events);
      && (forall i, j :: 0 <= i < j < |v.history| && v.history[i].id == v.history[j].id ==>
            v.history[i].at < v.history[j].at)
      && (forall i :: 0 <= i < |v.history| && v.history[i].id in v.table.nextFire ==>
            v.history[i].at < v.table.nextFire[v.history[i].id])
  {
    RunKeepsInv(w, events);
  }

  /** Once its deletion was completed, a job is in no later table or snapshot and is never due again. */
  lemma DeletedNeverReturns(w: World, events: seq<Event>, more: seq<Event>, id: Id)
    requires Initial(w) && ValidRun(w, events) && ValidRun(Exec(w, events), more)
    requires id in Exec(w, events).deleted
    ensures var v := Exec(Exec(w, events), more).table;
      id !in v.jobs && id !in v.saved && id !in v.nextFire
  {
    RunKeepsInv(w, events);
    RunKeepsInv(Exec(w, events), more);
  }
}
