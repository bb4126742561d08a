/** The durable table of scheduled jobs: the sections that the manager runs without interruption. */
module CronJobs {
  import opened Options

  type Id(==, !new)
  type Cron(==, !new)

  /** The next firing of an expression after an instant, in the current time zone; None is the error
      that there is none within the scan. */
  type Schedule = (Cron, int) -> Option<int>

  ghost predicate Later(schedule: Schedule) {
    forall c, t :: schedule(c, t).Some? ==> schedule(c, t).value > t
  }

  datatype Job = Recurring(cron: Cron, next: Option<int>) | Once(next: Option<int>)

  /** `saved` is the snapshot in the store. `tasks` has the task that a job waits for; tasks are numbered. */
  datatype Table = Table(
    jobs: map<Id, Job>, nextFire: map<Id, int>, tasks: map<Id, nat>, running: set<Id>, deleting: set<Id>,
    saved: map<Id, Job>, schedule: Schedule, nextTask: nat)

  /** A deadline that was consumed, and the task that it started. */
  datatype Fire = Fire(id: Id, at: int, task: Option<nat>)

  function Save(t: Table): Table {
    t.(saved := t.jobs)
  }

  // ---- starting what is due ----

  datatype DueResult = DueResult(ok: bool, changed: bool, table: Table, fires: seq<Fire>)

  /** Starts the job unless it still has a task. */
  function Launch(t: Table, id: Id, at: int): DueResult {
    if id in t.tasks then DueResult(true, true, t, [Fire(id, at, None)])
    else
      DueResult(true, true, t.(tasks := t.tasks[id := t.nextTask], nextTask := t.nextTask + 1),
                [Fire(id, at, Some(t.nextTask))])
  }

  function DueOne(t: Table, id: Id, at: int): DueResult {
    if id !in t.jobs then DueResult(true, true, t.(nextFire := t.nextFire - {id}), [])
    else if id in t.deleting then DueResult(true, false, t, [])
    else
      match t.jobs[id]
      case Once(_) => Launch(t.(nextFire := t.nextFire - {id}, jobs := t.jobs[id := Once(None)]), id, at)
      case Recurring(cron, _) =>
        var next := t.schedule(cron, at);
        if next.None? then DueResult(false, false, t, [])
        else
          Launch(t.(nextFire := t.nextFire[id := next.value],
                    jobs := t.jobs[id := Recurring(cron, next)]), id, at)
  }

  /** The due jobs in order, up to an error: then nothing is saved. */
  function DueAll(t: Table, due: seq<(Id, int)>): DueResult {
    if due == [] then DueResult(true, false, t, [])
    else
      var n := |due| - 1;
      var r := DueAll(t, due[..n]);
      if !r.ok then r
      else
        var s := DueOne(r.table, due[n].0, due[n].1);
        DueResult(s.ok, r.changed || s.changed, s.table, r.fires + s.fires)
  }

  function RunDue(t: Table, due: seq<(Id, int)>): DueResult {
    var r := DueAll(t, due);
    if r.ok && r.changed then r.(table := Save(r.table)) else r
  }

  /** The deadlines up to `moment`, each once, earliest first. */
  ghost predicate IsDue(due: seq<(Id, int)>, nextFire: map<Id, int>, moment: int) {
    && (forall i :: 0 <= i < |due| ==>
          due[i].0 in nextFire && nextFire[due[i].0] == due[i].1 && due[i].1 <= moment)
    && (forall i, j :: 0 <= i < j < |due| ==> due[i].0 != due[j].0 && due[i].1 <= due[j].1)
    && (forall id :: id in nextFire && nextFire[id] <= moment ==> (id, nextFire[id]) in due)
  }

  // ---- rebuilding the deadlines from the jobs ----

  datatype Rebuilt = Rebuilt(ok: bool, changed: bool, table: Table)

  function RebuildOne(t: Table, id: Id, now: int, persist: bool): Rebuilt {
    if id !in t.jobs then Rebuilt(true, false, t)
    else
      match t.jobs[id]
      case Recurring(cron, _) =>
        var next := t.schedule(cron, now);
        if next.None? then Rebuilt(false, false, t)
        else
          Rebuilt(true, persist, t.(nextFire := t.nextFire[id := next.value],
                                    jobs := if persist then t.jobs[id := Recurring(cron, next)] else t.jobs))
      case Once(next) =>
        if next.Some? && next.value > now then Rebuilt(true, false, t.(nextFire := t.nextFire[id := next.value]))
        else Rebuilt(true, persist, t.(jobs := if persist then t.jobs - {id} else t.jobs))
  }

  /** `order` is the order of the jobs in the table. */
  function RebuildAll(t: Table, order: seq<Id>, now: int, persist: bool): Rebuilt {
    if order == [] then Rebuilt(true, false, t.(nextFire := map[]))
    else
      var n := |order| - 1;
      var r := RebuildAll(t, order[..n], now, persist);
      if !r.ok then r
      else
        var s := RebuildOne(r.table, order[n], now, persist);
        Rebuilt(s.ok, r.changed || s.changed, s.table)
  }

  function Rebuild(t: Table, order: seq<Id>, now: int, persist: bool): Rebuilt {
    var r := RebuildAll(t, order, now, persist);
    if persist && r.ok && r.changed then r.(table := Save(r.table)) else r
  }

  ghost predicate IsOrder(order: seq<Id>, jobs: map<Id, Job>) {
    && (forall id :: id in order <==> id in jobs)
    && forall i, j :: 0 <= i < j < |order| ==> order[i] != order[j]
  }

  function Initialize(t: Table, order: seq<Id>, now: int): Rebuilt {
    Rebuild(t.(jobs := t.saved), order, now, true)
  }

  function UpdateZone(t: Table, schedule: Schedule, order: seq<Id>, now: int): Rebuilt {
    Rebuild(t.(schedule := schedule), order, now, true)
  }

  /** A new process: only the snapshot survives. */
  function Restart(t: Table, schedule: Schedule, order: seq<Id>, now: int): Rebuilt {
    Rebuild(Table(t.saved, map[], map[], {}, {}, t.saved, schedule, t.nextTask), order, now, false)
  }

  // ---- creating and deleting ----

  function Create(t: Table, id: Id, job: Job, deadline: int): Table {
    Save(t.(jobs := t.jobs[id := job], nextFire := t.nextFire[id := deadline]))
  }

  function DeleteStart(t: Table, id: Id): Table {
    t.(deleting := t.deleting + {id})
  }

  function DeleteEnd(t: Table, id: Id): Table {
    Save(t.(jobs := t.jobs - {id}, nextFire := t.nextFire - {id}, tasks := t.tasks - {id},
            running := t.running - {id})).(deleting := t.deleting - {id})
  }

  function DeleteFail(t: Table, id: Id): Table {
    t.(deleting := t.deleting - {id})
  }

  // ---- the sections of a job's task ----

  function MarkRunning(t: Table, id: Id): Table {
    if id in t.deleting || id !in t.jobs then t else t.(running := t.running + {id})
  }

  function Drop(t: Table, id: Id): Table {
    t.(jobs := t.jobs - {id}, nextFire := t.nextFire - {id})
  }

  function Finish(t: Table, id: Id): Table {
    if id in t.deleting || id !in t.jobs then t
    else Save(if t.jobs[id].Once? then Drop(t, id) else t)
  }

  function Cancel(t: Table, id: Id): Table {
    if id in t.deleting || id !in t.jobs || t.jobs[id].Recurring? then t else Save(Drop(t, id))
  }

  function TaskEnd(t: Table, id: Id): Table {
    t.(tasks := t.tasks - {id}, running := t.running - {id})
  }

  /** The manager as an object: every method is one of the sections above. */
  class CronManager {
    var jobs: map<Id, Job>
    var nextFire: map<Id, int>
    var tasks: map<Id, nat>
    var running: set<Id>
    var deleting: set<Id>
    var saved: map<Id, Job>
    var schedule: Schedule
    var nextTask: nat

    ghost function State(): Table
      reads this
    {
      Table(jobs, nextFire, tasks, running, deleting, saved, schedule, nextTask)
    }

    /** A recurring job fires by its expression. False is the error that it never does. */
    method CreateRecurring(id: Id, cron: Cron, now: int) returns (ok: bool)
      modifies this
      ensures ok <==> old(schedule)(cron, now).Some?
      ensures ok ==>
        var next := old(schedule)(cron, now);
        State() == Create(old(State()), id, Recurring(cron, next), next.value)
      ensures !ok ==> State() == old(State())
    {
      var next := schedule(cron, now);
      if next.None? {
        return false;
      }
      jobs := jobs[id := Recurring(cron, next)];
      nextFire := nextFire[id := next.value];
      saved := jobs;
      ok := true;
    }

    method CreateOnce(id: Id, deadline: int, now: int) returns (ok: bool)
      modifies this
      ensures ok <==> deadline > now
      ensures State() == if ok then Create(old(State()), id, Once(Some(deadline)), deadline) else old(State())
    {
      if deadline <= now {
        return false;
      }
      jobs := jobs[id := Once(Some(deadline))];
      nextFire := nextFire[id := deadline];
      saved := jobs;
      ok := true;
    }

    /** False is an error raised by a schedule; `fires` are the consumed deadlines. */
    method RunDueJobs(due: seq<(Id, int)>) returns (ok: bool, fires: seq<Fire>)
      modifies this
      ensures var r := RunDue(old(State()), due);
        ok == r.ok && fires == r.fires && State() == r.table
    {
      fires := [];
      var changed := false;
      for i := 0 to |due|
        invariant DueResult(true, changed, State(), fires) == DueAll(old(State()), due[..i])
      {
        var (id, at) := due[i];
        assert due[..i + 1][..i] == due[..i];
        assert due[..i + 1] == due[..i] + [due[i]];
        if id !in jobs {
          nextFire := nextFire - {id};
          changed := true;
          continue;
        }
        if id in deleting {
          continue;
        }
        var job := jobs[id];
        if job.Once? {
          nextFire := nextFire - {id};
          jobs := jobs[id := Once(None)];
        } else {
          var next := schedule(job.cron, at);
          if next.None? {
            DueStopsAt(old(State()), due, i + 1);
            return false, fires;
          }
          nextFire := nextFire[id := next.value];
          jobs := jobs[id := Recurring(job.cron, next)];
        }
        changed := true;
        if id in tasks {
          fires := fires + [Fire(id, at, None)];
        } else {
          fires := fires + [Fire(id, at, Some(nextTask))];
          tasks := tasks[id := nextTask];
          nextTask := nextTask + 1;
        }
      }
      assert due[..|due|] == due;
      if changed {
        saved := jobs;
      }
      ok := true;
    }

    /** Rebuilds the deadlines; false is an error raised by a schedule, with the rest not rebuilt. */
    method RebuildDeadlines(order: seq<Id>, now: int, persist: bool) returns (ok: bool)
      modifies this
      ensures var r := Rebuild(old(State()), order, now, persist);
        ok == r.ok && State() == r.table
    {
      nextFire := map[];
      var changed := false;
      for i := 0 to |order|
        invariant Rebuilt(true, changed, State()) == RebuildAll(old(State()), order[..i], now, persist)
      {
        var id := order[i];
        assert order[..i + 1][..i] == order[..i];
        assert order[..i + 1] == order[..i] + [order[i]];
        if id in jobs {
          var job := jobs[id];
          if job.Recurring? {
            var next := schedule(job.cron, now);
            if next.None? {
              RebuildStopsAt(old(State()), order, i + 1, now, persist);
              return false;
            }
            nextFire := nextFire[id := next.value];
            if persist {
              jobs := jobs[id := Recurring(job.cron, next)];
              changed := true;
            }
          } else if job.next.Some? && job.next.value > now {
            nextFire := nextFire[id := job.next.value];
          } else if persist {
            jobs := jobs - {id};
            changed := true;
          }
        }
      }
      assert order[..|order|] == order;
      if persist && changed {
        saved := jobs;
      }
      ok := true;
    }

    method InitializeSchedule(order: seq<Id>, now: int) returns (ok: bool)
      modifies this
      ensures var r := Initialize(old(State()), order, now);
        ok == r.ok && State() == r.table
    {
      jobs := saved;
      ok := RebuildDeadlines(order, now, true);
    }

    method UpdateTimezone(zone: Schedule, order: seq<Id>, now: int) returns (ok: bool)
      modifies this
      ensures var r := UpdateZone(old(State()), zone, order, now);
        ok == r.ok && State() == r.table
    {
      schedule := zone;
      ok := RebuildDeadlines(order, now, true);
    }

    /** The section that ends a deletion, after the job's task ended. */
    method DeleteSection(id: Id)
      modifies this
      ensures State() == DeleteEnd(old(State()), id)
    {
      jobs := jobs - {id};
      nextFire := nextFire - {id};
      tasks := tasks - {id};
      running := running - {id};
      saved := jobs;
      deleting := deleting - {id};
    }

    method FinishSection(id: Id)
      modifies this
      ensures State() == Finish(old(State()), id)
    {
      if id in deleting || id !in jobs {
        return;
      }
      if jobs[id].Once? {
        jobs := jobs - {id};
        nextFire := nextFire - {id};
      }
      saved := jobs;
    }

    method CancelSection(id: Id)
      modifies this
      ensures State() == Cancel(old(State()), id)
    {
      if id in deleting {
        return;
      }
      if id !in jobs || jobs[id].Recurring? {
        return;
      }
      jobs := jobs - {id};
      nextFire := nextFire - {id};
      saved := jobs;
    }
  }

  lemma {:induction false} DueStopsAt(t: Table, due: seq<(Id, int)>, k: nat)
    requires k <= |due| && !DueAll(t, due[..k]).ok
    ensures DueAll(t, due) == DueAll(t, due[..k])
    decreases |due|
  {
    if k < |due| {
      var n := |due| - 1;
      assert due[..n][..k] == due[..k];
      DueStopsAt(t, due[..n], k);
    } else {
      assert due[..k] == due;
    }
  }

  lemma {:induction false} RebuildStopsAt(t: Table, order: seq<Id>, k: nat, now: int, persist: bool)
    requires k <= |order| && !RebuildAll(t, order[..k], now, persist).ok
    ensures RebuildAll(t, order, now, persist) == RebuildAll(t, order[..k], now, persist)
    decreases |order|
  {
    if k < |order| {
      var n := |order| - 1;
      assert order[..n][..k] == order[..k];
      RebuildStopsAt(t, order[..n], k, now, persist);
    } else {
      assert order[..k] == order;
    }
  }
}
