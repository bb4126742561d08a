/** What a pass over the due jobs does to each job: those listed are started and get their next deadline, up to
    an error; every other job is left alone. */
module CronProgress {
  import opened Options
  import opened CronJobs
  import opened CronRuns

  /** A due job whose expression has no further firing: the pass ends there with an error. */
  predicate Fails(t: Table, id: Id, at: int) {
    id in t.jobs && id !in t.deleting && t.jobs[id].Recurring? && t.schedule(t.jobs[id].cron, at).None?
  }

  /** The pass reaches the first `n` of the due jobs and no more. */
  ghost predicate Reaches(t: Table, due: seq<(Id, int)>, n: nat) {
    && n <= |due| && (forall i :: 0 <= i < n ==> !Fails(t, due[i].0, due[i].1))
    && (n < |due| ==> Fails(t, due[n].0, due[n].1))
  }

  /** Nothing that ran is lost. */
  ghost predicate Grown(w: World, v: World) {
    && (forall k :: k in w.live ==> k in v.live && v.live[k] == w.live[k])
    && w.history <= v.history && w.table.nextTask <= v.table.nextTask
    && v.table.deleting == w.table.deleting && v.table.running == w.table.running
    && v.table.schedule == w.table.schedule
  }

  /** A job's entries, its tasks and its consumed deadlines are as before. */
  ghost predicate Kept(w: World, v: World, id: Id) {
    && (id in v.table.jobs <==> id in w.table.jobs)
    && (id in w.table.jobs ==> v.table.jobs[id] == w.table.jobs[id])
    && NoNewTask(w, v, id)
    && (id in v.table.nextFire <==> id in w.table.nextFire)
    && (id in w.table.nextFire ==> v.table.nextFire[id] == w.table.nextFire[id])
    && NoFire(w, v, id)
  }

  ghost predicate NoNewTask(w: World, v: World, id: Id) {
    && (id in v.table.tasks <==> id in w.table.tasks)
    && (id in w.table.tasks ==> v.table.tasks[id] == w.table.tasks[id])
    && forall k :: k in v.live && v.live[k].job == id ==> k in w.live
  }

  ghost predicate NoFire(w: World, v: World, id: Id) {
    forall j :: |w.history| <= j < |v.history| ==> v.history[j].id != id
  }

  /** The job has one new live task, which it now waits for. */
  ghost predicate OneNewTask(w: World, v: World, id: Id) {
    && id in v.table.tasks && v.table.tasks[id] in v.live && v.table.tasks[id] !in w.live
    && v.live[v.table.tasks[id]] == Live(id, false)
    && forall k :: k in v.live && v.live[k].job == id && k !in w.live ==> k == v.table.tasks[id]
  }

  /** A one-shot job has no deadline left, a recurring one that which follows the deadline consumed. */
  ghost predicate Advanced(w: World, v: World, id: Id, at: int)
    requires id in w.table.jobs
  {
    && id in v.table.jobs
    && match w.table.jobs[id]
       case Once(_) => v.table.jobs[id] == Once(None) && id !in v.table.nextFire
       case Recurring(cron, _) =>
         var next := w.table.schedule(cron, at);
         && next.Some? && v.table.jobs[id] == Recurring(cron, next)
         && id in v.table.nextFire && v.table.nextFire[id] == next.value
  }

  /** What the pass does to a due job: one that is gone loses its deadline, one that is being deleted is left
      alone, and any other moves on and is started, unless it still has a task. */
  ghost predicate Served(w: World, v: World, id: Id, at: int) {
    if id !in w.table.jobs then
      id !in v.table.jobs && id !in v.table.nextFire && NoNewTask(w, v, id) && NoFire(w, v, id)
    else if id in w.table.deleting then Kept(w, v, id)
    else
      && Advanced(w, v, id, at)
      && (if id in w.table.tasks then NoNewTask(w, v, id) else OneNewTask(w, v, id))
      && Consumed(w, v, Fire(id, at, if id in w.table.tasks || id !in v.table.tasks then None
                                     else Some(v.table.tasks[id])))
  }

  ghost predicate Consumed(w: World, v: World, f: Fire) {
    exists j :: |w.history| <= j < |v.history| && v.history[j] == f
  }

  // ---- one due job ----

  lemma OneGrows(w: World, id: Id, at: int)
    requires Tasks(w)
    ensures Grown(w, AfterDue(w, DueOne(w.table, id, at)))
  {
    var r := DueOne(w.table, id, at);
    if r.fires == [] {
      assert AddLive(w.live, r.fires) == w.live;
    } else {
      AddOneLive(w.live, r.fires[0]);
    }
  }

  lemma OneKeepsOthers(w: World, id: Id, at: int, other: Id)
    requires Tasks(w) && other != id
    ensures Kept(w, AfterDue(w, DueOne(w.table, id, at)), other)
  {
    OneStartsNoOther(w, id, at, other);
    OneMovesNoOther(w.table, id, at, other);
  }

  lemma OneMovesNoOther(t: Table, id: Id, at: int, other: Id)
    requires other != id
    ensures var u, fires := DueOne(t, id, at).table, DueOne(t, id, at).fires;
      && (other in u.jobs <==> other in t.jobs) && (other in t.jobs ==> u.jobs[other] == t.jobs[other])
      && (other in u.nextFire <==> other in t.nextFire)
      && (other in t.nextFire ==> u.nextFire[other] == t.nextFire[other])
      && forall j :: 0 <= j < |fires| ==> fires[j].id != other
  {
  }

  lemma OneStartsNoOther(w: World, id: Id, at: int, other: Id)
    requires Tasks(w) && other != id
    ensures NoNewTask(w, AfterDue(w, DueOne(w.table, id, at)), other)
  {
    var r := DueOne(w.table, id, at);
    if r.fires == [] {
      assert AddLive(w.live, r.fires) == w.live;
    } else {
      AddOneLive(w.live, r.fires[0]);
    }
  }

  lemma OneIsServed(w: World, id: Id, at: int)
    requires Tasks(w) && !Fails(w.table, id, at)
    ensures Served(w, AfterDue(w, DueOne(w.table, id, at)), id, at)
  {
    var r := DueOne(w.table, id, at);
    if r.fires != [] {
      AddOneLive(w.live, r.fires[0]);
      assert AfterDue(w, r).history[|w.history|] == r.fires[0];
    }
  }

  lemma OneFails(w: World, id: Id, at: int)
    requires Fails(w.table, id, at)
    ensures AfterDue(w, DueOne(w.table, id, at)) == w
    ensures !DueOne(w.table, id, at).ok && !DueOne(w.table, id, at).changed
  {
    assert w.history + [] == w.history;
  }

  // ---- the due jobs in order ----

  ghost predicate Absent(due: seq<(Id, int)>, id: Id) {
    forall i :: 0 <= i < |due| ==> due[i].0 != id
  }

  /** What the pass does to the due jobs that it reaches. */
  ghost predicate AllServed(w: World, v: World, due: seq<(Id, int)>) {
    forall i :: 0 <= i < |due| ==> Served(w, v, due[i].0, due[i].1)
  }

  /** Every other job is left alone. */
  ghost predicate OthersKept(w: World, v: World, due: seq<(Id, int)>) {
    forall id :: Absent(due, id) ==> Kept(w, v, id)
  }

  lemma SameVerdict(w: World, v: World, id: Id, at: int)
    requires Grown(w, v) && Kept(w, v, id)
    ensures Fails(v.table, id, at) <==> Fails(w.table, id, at)
  {
  }

  lemma KeptTwice(w: World, v: World, u: World, id: Id)
    requires Grown(w, v) && Grown(v, u) && Kept(w, v, id) && Kept(v, u, id)
    ensures Kept(w, u, id)
  {
  }

  lemma GrownTwice(w: World, v: World, u: World)
    requires Grown(w, v) && Grown(v, u)
    ensures Grown(w, u)
  {
  }

  lemma ServedAfter(w: World, v: World, u: World, id: Id, at: int)
    requires Grown(w, v) && Grown(v, u) && Kept(w, v, id) && Served(v, u, id, at)
    ensures Served(w, u, id, at)
  {
  }

  lemma ServedBefore(w: World, v: World, u: World, id: Id, at: int)
    requires Grown(w, v) && Grown(v, u) && Served(w, v, id, at) && Kept(v, u, id)
    ensures Served(w, u, id, at)
  {
  }

  /** The world after the first `k` due jobs. */
  function After(w: World, due: seq<(Id, int)>, k: nat): World
    requires k <= |due|
  {
    AfterDue(w, DueAll(w.table, due[..k]))
  }

  lemma AfterNone(w: World, due: seq<(Id, int)>)
    ensures After(w, due, 0) == w && DueAll(w.table, due[..0]).ok && !DueAll(w.table, due[..0]).changed
  {
    assert due[..0] == [] && w.history + [] == w.history;
  }

  lemma AfterOneMore(w: World, due: seq<(Id, int)>, k: nat)
    requires k < |due| && DueAll(w.table, due[..k]).ok
    ensures var v := After(w, due, k);
      && After(w, due, k + 1) == AfterDue(v, DueOne(v.table, due[k].0, due[k].1))
      && DueAll(w.table, due[..k + 1]).ok == DueOne(v.table, due[k].0, due[k].1).ok
      && DueAll(w.table, due[..k + 1]).changed
           == (DueAll(w.table, due[..k]).changed || DueOne(v.table, due[k].0, due[k].1).changed)
  {
    assert due[..k + 1][..k] == due[..k];
    var r := DueAll(w.table, due[..k]);
    var s := DueOne(r.table, due[k].0, due[k].1);
    AfterDueTwice(w, r, s, r.changed || s.changed);
  }

  /** The world after the first `k` due jobs, none of which fails. */
  lemma {:induction false} PassSoFar(w: World, due: seq<(Id, int)>, k: nat)
    requires Inv(w) && IsDue(due, w.table.nextFire, w.now)
    requires k <= |due| && forall i :: 0 <= i < k ==> !Fails(w.table, due[i].0, due[i].1)
    ensures DueAll(w.table, due[..k]).ok && Tasks(After(w, due, k)) && Grown(w, After(w, due, k))
    ensures AllServed(w, After(w, due, k), due[..k])
    ensures OthersKept(w, After(w, due, k), due[..k])
  {
    DueAllKeeps(w, due, k);
    if k == 0 {
      AfterNone(w, due);
    } else {
      PassSoFar(w, due, k - 1);
      NextIsServed(w, due, k - 1);
    }
  }


  lemma NextIsServed(w: World, due: seq<(Id, int)>, k: nat)
    requires IsDue(due, w.table.nextFire, w.now) && k < |due| && !Fails(w.table, due[k].0, due[k].1)
    requires DueAll(w.table, due[..k]).ok && Tasks(After(w, due, k)) && Grown(w, After(w, due, k))
    requires AllServed(w, After(w, due, k), due[..k])
    requires OthersKept(w, After(w, due, k), due[..k])
    ensures DueAll(w.table, due[..k + 1]).ok && Grown(w, After(w, due, k + 1))
    ensures AllServed(w, After(w, due, k + 1), due[..k + 1])
    ensures OthersKept(w, After(w, due, k + 1), due[..k + 1])
  {
    var v, u := After(w, due, k), After(w, due, k + 1);
    var (id, at) := due[k];
    AfterOneMore(w, due, k);
    assert Absent(due[..k], id);
    SameVerdict(w, v, id, at);
    OneSucceeds(v.table, id, at);
    OneGrows(v, id, at);
    GrownTwice(w, v, u);
    StillServed(w, v, u, due, k);
    OthersStillKept(w, v, u, due, k);
  }

  lemma OneSucceeds(t: Table, id: Id, at: int)
    requires !Fails(t, id, at)
    ensures DueOne(t, id, at).ok
  {
  }

  lemma StillServed(w: World, v: World, u: World, due: seq<(Id, int)>, k: nat)
    requires IsDue(due, w.table.nextFire, w.now) && k < |due| && Tasks(v) && Grown(w, v) && Grown(v, u)
    requires u == AfterDue(v, DueOne(v.table, due[k].0, due[k].1)) && !Fails(v.table, due[k].0, due[k].1)
    requires AllServed(w, v, due[..k]) && Kept(w, v, due[k].0)
    ensures AllServed(w, u, due[..k + 1])
  {
    var (id, at) := due[k];
    OneIsServed(v, id, at);
    ServedAfter(w, v, u, id, at);
    forall i | 0 <= i < k
      ensures Served(w, u, due[i].0, due[i].1)
    {
      assert due[..k][i] == due[i];
      OneKeepsOthers(v, id, at, due[i].0);
      ServedBefore(w, v, u, due[i].0, due[i].1);
    }
  }

  lemma OthersStillKept(w: World, v: World, u: World, due: seq<(Id, int)>, k: nat)
    requires k < |due| && Tasks(v) && Grown(w, v) && Grown(v, u)
    requires u == AfterDue(v, DueOne(v.table, due[k].0, due[k].1)) && OthersKept(w, v, due[..k])
    ensures OthersKept(w, u, due[..k + 1])
  {
    var (id, at) := due[k];
    forall other | Absent(due[..k + 1], other)
      ensures Kept(w, u, other)
    {
      assert due[..k + 1][k].0 == id && due[..k + 1][..k] == due[..k];
      assert Absent(due[..k], other);
      OneKeepsOthers(v, id, at, other);
      KeptTwice(w, v, u, other);
    }
  }

  lemma PassEnds(w: World, due: seq<(Id, int)>, n: nat)
    requires Inv(w) && IsDue(due, w.table.nextFire, w.now) && Reaches(w.table, due, n)
    ensures AfterDue(w, DueAll(w.table, due)) == After(w, due, n)
    ensures DueAll(w.table, due).ok <==> n == |due|
  {
    PassSoFar(w, due, n);
    if n < |due| {
      NextFails(w, due, n);
    }
    PassStops(w, due, n);
  }

  lemma PassStops(w: World, due: seq<(Id, int)>, n: nat)
    requires n <= |due| && DueAll(w.table, due[..n]).ok
    requires n < |due| ==> !DueAll(w.table, due[..n + 1]).ok && After(w, due, n + 1) == After(w, due, n)
    ensures AfterDue(w, DueAll(w.table, due)) == After(w, due, n)
    ensures DueAll(w.table, due).ok <==> n == |due|
  {
    if n == |due| {
      assert due[..n] == due;
    } else {
      DueStopsAt(w.table, due, n + 1);
    }
  }

  lemma NextFails(w: World, due: seq<(Id, int)>, n: nat)
    requires n < |due| && Fails(w.table, due[n].0, due[n].1)
    requires forall i :: 0 <= i < n ==> due[i].0 != due[n].0
    requires DueAll(w.table, due[..n]).ok && Grown(w, After(w, due, n)) && OthersKept(w, After(w, due, n), due[..n])
    ensures !DueAll(w.table, due[..n + 1]).ok && After(w, due, n + 1) == After(w, due, n)
  {
    var v := After(w, due, n);
    assert Absent(due[..n], due[n].0);
    SameVerdict(w, v, due[n].0, due[n].1);
    OneFails(v, due[n].0, due[n].1);
    AfterOneMore(w, due, n);
  }

  lemma SavedStillServed(w: World, v: World, due: seq<(Id, int)>)
    requires Grown(w, v) && AllServed(w, v, due) && OthersKept(w, v, due)
    ensures var u := v.(table := Save(v.table)); Grown(w, u) && AllServed(w, u, due) && OthersKept(w, u, due)
  {
    var u := v.(table := Save(v.table));
    forall i | 0 <= i < |due|
      ensures Served(w, u, due[i].0, due[i].1)
    {
      SaveServes(w, v, due[i].0, due[i].1);
    }
    forall id | Absent(due, id)
      ensures Kept(w, u, id)
    {
    }
  }

  lemma SaveServes(w: World, v: World, id: Id, at: int)
    requires Served(w, v, id, at)
    ensures Served(w, v.(table := Save(v.table)), id, at)
  {
  }

  /** The pass has something to do: not only jobs that are being deleted are due. */
  ghost predicate HasWork(t: Table, due: seq<(Id, int)>) {
    exists i :: 0 <= i < |due| && !Skipped(t, due[i].0)
  }

  predicate Skipped(t: Table, id: Id) {
    id in t.jobs && id in t.deleting
  }

  lemma OneChanges(w: World, v: World, id: Id, at: int)
    requires Grown(w, v) && Kept(w, v, id) && !Fails(w.table, id, at)
    ensures DueOne(v.table, id, at).changed <==> !Skipped(w.table, id)
    ensures DueOne(v.table, id, at).table.saved == v.table.saved
  {
  }

  lemma {:induction false} ChangedByWork(w: World, due: seq<(Id, int)>, k: nat)
    requires Inv(w) && IsDue(due, w.table.nextFire, w.now)
    requires k <= |due| && forall i :: 0 <= i < k ==> !Fails(w.table, due[i].0, due[i].1)
    ensures DueAll(w.table, due[..k]).changed <==> HasWork(w.table, due[..k])
    ensures DueAll(w.table, due[..k]).table.saved == w.table.saved
  {
    if k == 0 {
      AfterNone(w, due);
    } else {
      ChangedByWork(w, due, k - 1);
      PassSoFar(w, due, k - 1);
      ChangedByNext(w, due, k - 1);
    }
  }

  lemma ChangedByNext(w: World, due: seq<(Id, int)>, k: nat)
    requires k < |due| && !Fails(w.table, due[k].0, due[k].1)
    requires forall i :: 0 <= i < k ==> due[i].0 != due[k].0
    requires DueAll(w.table, due[..k]).ok && Grown(w, After(w, due, k)) && OthersKept(w, After(w, due, k), due[..k])
    requires DueAll(w.table, due[..k]).changed <==> HasWork(w.table, due[..k])
    requires DueAll(w.table, due[..k]).table.saved == w.table.saved
    ensures DueAll(w.table, due[..k + 1]).changed <==> HasWork(w.table, due[..k + 1])
    ensures DueAll(w.table, due[..k + 1]).table.saved == w.table.saved
  {
    AfterOneMore(w, due, k);
    WorkOfOneMore(w.table, due, k);
    assert Absent(due[..k], due[k].0);
    OneChanges(w, After(w, due, k), due[k].0, due[k].1);
  }

  lemma WorkOfOneMore(t: Table, due: seq<(Id, int)>, k: nat)
    requires k < |due|
    ensures HasWork(t, due[..k + 1]) <==> HasWork(t, due[..k]) || !Skipped(t, due[k].0)
  {
    assert due[..k + 1][k] == due[k] && forall i :: 0 <= i < k ==> due[..k + 1][i] == due[..k][i];
  }

  /** A pass over the due jobs in any reachable state. The jobs up to the first that fails are served; all
      others are left alone, and so is the snapshot when one fails. Otherwise the snapshot holds the jobs as
      they are now, if there was anything to do. */
  lemma DueJobsAreStarted(start: World, events: seq<Event>, due: seq<(Id, int)>, n: nat)
    requires Initial(start) && ValidRun(start, events)
    requires Enabled(Exec(start, events), Due(due)) && Reaches(Exec(start, events).table, due, n)
    ensures var w, v := Exec(start, events), Apply(Exec(start, events), Due(due));
      && AllServed(w, v, due[..n]) && OthersKept(w, v, due[..n]) && Grown(w, v)
      && v.table.saved == if n == |due| && HasWork(w.table, due) then v.table.jobs else w.table.saved
  {
    RunKeepsInv(start, events);
    var w := Exec(start, events);
    PassSoFar(w, due, n);
    PassEnds(w, due, n);
    ChangedByWork(w, due, n);
    if n == |due| {
      assert due[..n] == due;
      SavedStillServed(w, After(w, due, n), due);
    }
  }

  /** A recurring job whose expression has no further firing is still due after the pass that failed at it, and
      fails again: as long as it is there, no pass reaches the due jobs after it. */
  lemma FailingJobStaysDue(start: World, events: seq<Event>, due: seq<(Id, int)>, n: nat)
    requires Initial(start) && ValidRun(start, events)
    requires Enabled(Exec(start, events), Due(due)) && Reaches(Exec(start, events).table, due, n) && n < |due|
    ensures var v, id, at := Apply(Exec(start, events), Due(due)), due[n].0, due[n].1;
      id in v.table.nextFire && v.table.nextFire[id] == at && Fails(v.table, id, at)
  {
    var w, id, at := Exec(start, events), due[n].0, due[n].1;
    DueJobsAreStarted(start, events, due, n);
    assert Absent(due[..n], id);
    SameVerdict(w, Apply(w, Due(due)), id, at);
  }
}
