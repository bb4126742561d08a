/** Which jobs survive: a recurring job stays in the table and the snapshot until it is deleted, a one-shot job
    at least until its time, and while no rebuild fails, each has its deadline. */
module CronSurvival {
  import opened Options
  import opened CronJobs
  import opened CronRuns
  import opened CronProgress

  // ---- one rebuild ----

  ghost predicate SameRest(t: Table, u: Table) {
    u == t.(jobs := u.jobs, nextFire := u.nextFire)
  }

  /** What a rebuild makes of one job: a recurring one gets the firing after `now`, a one-shot one keeps a
      deadline that is still to come, and a missed one goes, from the table only if the rebuild persists. */
  ghost predicate RebuiltJob(t: Table, u: Table, id: Id, now: int, persist: bool) {
    if id !in t.jobs then id !in u.jobs && id !in u.nextFire
    else
      match t.jobs[id]
      case Recurring(cron, _) =>
        var next := t.schedule(cron, now);
        && next.Some? && id in u.nextFire && u.nextFire[id] == next.value
        && id in u.jobs && u.jobs[id] == if persist then Recurring(cron, next) else t.jobs[id]
      case Once(next) =>
        if next.Some? && next.value > now then
          id in u.nextFire && u.nextFire[id] == next.value && id in u.jobs && u.jobs[id] == t.jobs[id]
        else
          && id !in u.nextFire && (id in u.jobs <==> !persist)
          && (id in u.jobs ==> u.jobs[id] == t.jobs[id])
  }

  ghost predicate NotYet(t: Table, u: Table, id: Id) {
    && id !in u.nextFire && (id in u.jobs <==> id in t.jobs)
    && (id in t.jobs ==> u.jobs[id] == t.jobs[id])
  }

  ghost predicate Distinct(order: seq<Id>) {
    forall i, j :: 0 <= i < j < |order| ==> order[i] != order[j]
  }

  /** The part of a rebuild that is done. */
  ghost predicate RebuiltSoFar(t: Table, u: Table, order: seq<Id>, now: int, persist: bool) {
    && SameRest(t, u)
    && (forall id :: id in order ==> RebuiltJob(t, u, id, now, persist))
    && (forall id :: id !in order ==> NotYet(t, u, id))
  }

  lemma RebuildsOne(t: Table, u: Table, id: Id, now: int, persist: bool)
    requires SameRest(t, u) && NotYet(t, u, id) && RebuildOne(u, id, now, persist).ok
    ensures var v := RebuildOne(u, id, now, persist).table; SameRest(t, v) && RebuiltJob(t, v, id, now, persist)
  {
  }

  lemma RebuildLeavesOthers(u: Table, id: Id, now: int, persist: bool, other: Id)
    requires other != id
    ensures var v := RebuildOne(u, id, now, persist).table;
      && (other in v.jobs <==> other in u.jobs) && (other in u.jobs ==> v.jobs[other] == u.jobs[other])
      && (other in v.nextFire <==> other in u.nextFire)
      && (other in u.nextFire ==> v.nextFire[other] == u.nextFire[other])
  {
  }

  lemma {:induction false} RebuildsSoFar(t: Table, order: seq<Id>, now: int, persist: bool)
    requires Distinct(order) && RebuildAll(t, order, now, persist).ok
    ensures RebuiltSoFar(t, RebuildAll(t, order, now, persist).table, order, now, persist)
  {
    if order != [] {
      var n := |order| - 1;
      RebuildsSoFar(t, order[..n], now, persist);
      var u := RebuildAll(t, order[..n], now, persist).table;
      RebuildsNext(t, u, order, now, persist);
    }
  }

  lemma RebuildsNext(t: Table, u: Table, order: seq<Id>, now: int, persist: bool)
    requires Distinct(order) && order != [] && RebuiltSoFar(t, u, order[..|order| - 1], now, persist)
    requires RebuildOne(u, order[|order| - 1], now, persist).ok
    ensures RebuiltSoFar(t, RebuildOne(u, order[|order| - 1], now, persist).table, order, now, persist)
  {
    var n := |order| - 1;
    var id := order[n];
    var v := RebuildOne(u, id, now, persist).table;
    assert order == order[..n] + [id];
    assert id !in order[..n];
    RebuildsOne(t, u, id, now, persist);
    forall other | other in order
      ensures RebuiltJob(t, v, other, now, persist)
    {
      if other != id {
        assert other in order[..n];
        RebuildLeavesOthers(u, id, now, persist, other);
      }
    }
    forall other | other !in order
      ensures NotYet(t, v, other)
    {
      assert other !in order[..n];
      RebuildLeavesOthers(u, id, now, persist, other);
    }
  }

  /** The jobs that a rebuild changes in the table: the recurring ones and those that were missed. */
  predicate Moves(t: Table, id: Id, now: int) {
    id in t.jobs && (t.jobs[id].Recurring? || t.jobs[id].next.None? || t.jobs[id].next.value <= now)
  }

  ghost predicate AnyMoves(t: Table, order: seq<Id>, now: int) {
    exists i :: 0 <= i < |order| && Moves(t, order[i], now)
  }

  lemma OneMoreMoves(t: Table, order: seq<Id>, now: int)
    requires order != []
    ensures AnyMoves(t, order, now)
      <==> AnyMoves(t, order[..|order| - 1], now) || Moves(t, order[|order| - 1], now)
  {
    var n := |order| - 1;
    assert forall i :: 0 <= i < n ==> order[..n][i] == order[i];
  }

  lemma {:induction false} ChangedByMoves(t: Table, order: seq<Id>, now: int, persist: bool)
    requires Distinct(order) && RebuildAll(t, order, now, persist).ok
    ensures RebuildAll(t, order, now, persist).changed <==> persist && AnyMoves(t, order, now)
  {
    if order != [] {
      var n := |order| - 1;
      ChangedByMoves(t, order[..n], now, persist);
      RebuildsSoFar(t, order[..n], now, persist);
      OneMoreMoves(t, order, now);
      assert order[n] !in order[..n];
    }
  }

  /** A rebuild that succeeds, for every order of the jobs: each job is rebuilt by itself, and the snapshot is
      taken exactly when the rebuild persists and some job moved. */
  lemma RebuildsEachJob(t: Table, order: seq<Id>, now: int, persist: bool)
    requires IsOrder(order, t.jobs) && Rebuild(t, order, now, persist).ok
    ensures var u := Rebuild(t, order, now, persist).table;
      && (forall id :: RebuiltJob(t, u, id, now, persist))
      && u.saved == (if persist && exists id :: Moves(t, id, now) then u.jobs else t.saved)
      && u == t.(jobs := u.jobs, nextFire := u.nextFire, saved := u.saved)
  {
    RebuildsSoFar(t, order, now, persist);
    ChangedByMoves(t, order, now, persist);
    assert forall id :: Moves(t, id, now) ==> id in order;
  }

  lemma {:induction false} PrefixRebuilt(t: Table, order: seq<Id>, now: int, persist: bool) returns (n: nat)
    requires !RebuildAll(t, order, now, persist).ok
    ensures n < |order| && RebuildAll(t, order[..n], now, persist).ok
    ensures !RebuildAll(t, order[..n + 1], now, persist).ok
    ensures RebuildAll(t, order, now, persist).table == RebuildAll(t, order[..n], now, persist).table
  {
    var last := |order| - 1;
    if RebuildAll(t, order[..last], now, persist).ok {
      n := last;
      assert order[..n + 1] == order;
    } else {
      n := PrefixRebuilt(t, order[..last], now, persist);
      assert order[..last][..n] == order[..n] && order[..last][..n + 1] == order[..n + 1];
    }
  }

  /** A rebuild that fails does so at some job: that job and those after it have no deadline then. */
  lemma FailedRebuildDropsDeadlines(t: Table, order: seq<Id>, now: int, persist: bool) returns (n: nat)
    requires IsOrder(order, t.jobs) && !Rebuild(t, order, now, persist).ok
    ensures n < |order| && t.jobs[order[n]].Recurring? && t.schedule(t.jobs[order[n]].cron, now).None?
    ensures forall i :: n <= i < |order| ==> order[i] !in Rebuild(t, order, now, persist).table.nextFire
    ensures Rebuild(t, order, now, persist).table.saved == t.saved
  {
    n := PrefixRebuilt(t, order, now, persist);
    RebuildsSoFar(t, order[..n], now, persist);
    FailsAt(t, order, now, persist, n);
    forall i | n <= i < |order|
      ensures order[i] !in order[..n]
    {
    }
  }

  lemma {:induction false} FailsAt(t: Table, order: seq<Id>, now: int, persist: bool, n: nat)
    requires Distinct(order) && n < |order| && RebuildAll(t, order[..n], now, persist).ok
    requires order[n] in t.jobs && !RebuildAll(t, order[..n + 1], now, persist).ok
    ensures t.jobs[order[n]].Recurring? && t.schedule(t.jobs[order[n]].cron, now).None?
  {
    RebuildsSoFar(t, order[..n], now, persist);
    assert order[..n + 1][..n] == order[..n];
    assert NotYet(t, RebuildAll(t, order[..n], now, persist).table, order[n]);
  }

  // ---- every job has its deadline ----

  /** Activation and a change of time zone end without an error. */
  ghost predicate Smooth(w: World, e: Event) {
    match e
    case Activate(order) => Initialize(w.table, order, w.now).ok
    case Rezone(schedule, order) => UpdateZone(w.table, schedule, order, w.now).ok
    case _ => true
  }

  /** A recurring job always has a deadline; a one-shot job has its own until it is consumed or was missed. */
  ghost predicate HasDeadline(t: Table, id: Id, now: int) {
    if id !in t.jobs then id !in t.nextFire
    else
      match t.jobs[id]
      case Recurring(_, _) => id in t.nextFire
      case Once(next) =>
        if id in t.nextFire then next == Some(t.nextFire[id]) else next.None? || next.value <= now
  }

  ghost predicate Deadlined(t: Table, now: int) {
    forall id :: HasDeadline(t, id, now)
  }

  lemma DueOneDeadlined(t: Table, id: Id, at: int, now: int)
    requires Deadlined(t, now)
    ensures Deadlined(DueOne(t, id, at).table, now)
  {
    forall other
      ensures HasDeadline(DueOne(t, id, at).table, other, now)
    {
      assert HasDeadline(t, other, now);
    }
  }

  lemma {:induction false} DueDeadlined(t: Table, due: seq<(Id, int)>, now: int)
    requires Deadlined(t, now)
    ensures Deadlined(DueAll(t, due).table, now)
  {
    if due != [] {
      var n := |due| - 1;
      DueDeadlined(t, due[..n], now);
      DueOneDeadlined(DueAll(t, due[..n]).table, due[n].0, due[n].1, now);
    }
  }

  lemma RebuildDeadlined(t: Table, order: seq<Id>, now: int, persist: bool)
    requires IsOrder(order, t.jobs) && Rebuild(t, order, now, persist).ok
    ensures Deadlined(Rebuild(t, order, now, persist).table, now)
  {
    RebuildsEachJob(t, order, now, persist);
    var u := Rebuild(t, order, now, persist).table;
    forall id
      ensures HasDeadline(u, id, now)
    {
      assert RebuiltJob(t, u, id, now, persist);
    }
  }

  lemma SectionDeadlined(w: World, e: Event)
    requires Deadlined(w.table, w.now) && Enabled(w, e)
    requires !e.Due? && !e.Activate? && !e.Rezone? && !e.Reopen?
    ensures Deadlined(Apply(w, e).table, Apply(w, e).now)
  {
    var v := Apply(w, e);
    forall id
      ensures HasDeadline(v.table, id, v.now)
    {
      assert HasDeadline(w.table, id, w.now);
    }
  }

  lemma StepDeadlined(w: World, e: Event)
    requires Deadlined(w.table, w.now) && Enabled(w, e) && Smooth(w, e)
    ensures Deadlined(Apply(w, e).table, Apply(w, e).now)
  {
    match e
    case Due(due) =>
      DueDeadlined(w.table, due, w.now);
      var u := DueAll(w.table, due).table;
      forall id
        ensures HasDeadline(Save(u), id, w.now)
      {
        assert HasDeadline(u, id, w.now);
      }
    case Activate(order) => RebuildDeadlined(w.table.(jobs := w.table.saved), order, w.now, true);
    case Rezone(schedule, order) => RebuildDeadlined(w.table.(schedule := schedule), order, w.now, true);
    case Reopen(schedule, order) => RebuildDeadlined(NewProcess(w, schedule).table, order, w.now, false);
    case _ => SectionDeadlined(w, e);
  }

  ghost predicate SmoothRun(w: World, events: seq<Event>)
    requires ValidRun(w, events)
    decreases |events|
  {
    events == [] || (Smooth(w, events[0]) && SmoothRun(Apply(w, events[0]), events[1..]))
  }

  lemma {:induction false} RunDeadlined(w: World, events: seq<Event>)
    requires Deadlined(w.table, w.now) && ValidRun(w, events) && SmoothRun(w, events)
    ensures Deadlined(Exec(w, events).table, Exec(w, events).now)
    decreases |events|
  {
    if events != [] {
      StepDeadlined(w, events[0]);
      RunDeadlined(Apply(w, events[0]), events[1..]);
    }
  }

  /** In every reachable state, as long as no rebuild failed: the deadlines are those of jobs in the table,
      every recurring job has one, and a one-shot job has its own until it is consumed or its time passed. */
  lemma EveryJobHasItsDeadline(start: World, events: seq<Event>)
    requires Initial(start) && ValidRun(start, events) && SmoothRun(start, events)
    ensures Deadlined(Exec(start, events).table, Exec(start, events).now)
  {
    RunDeadlined(start, events);
  }

  /** What activation, a change of time zone and a new process rebuild: the first and the last the jobs of the
      snapshot, the last two in the zone given, and only the last without writing to the table. */
  lemma EventsRebuild(w: World, e: Event)
    requires Enabled(w, e) && Smooth(w, e) && (e.Activate? || e.Rezone? || e.Reopen?)
    ensures var v, persist := Apply(w, e), !e.Reopen?;
      var from := w.table.(jobs := if e.Rezone? then w.table.jobs else w.table.saved,
                           schedule := if e.Activate? then w.table.schedule else e.schedule);
      && v.table.schedule == from.schedule
      && (forall id :: RebuiltJob(from, v.table, id, w.now, persist))
      && v.table.saved == (if persist && exists id :: Moves(from, id, w.now) then v.table.jobs else w.table.saved)
      && (if e.Reopen? then
            v.live == map[] && v.table.tasks == map[] && v.table.running == {} && v.table.deleting == {}
          else v.live == w.live && v.table.tasks == w.table.tasks && v.table.running == w.table.running)
  {
    match e
    case Activate(order) => RebuildsEachJob(w.table.(jobs := w.table.saved), order, w.now, true);
    case Rezone(schedule, order) => RebuildsEachJob(w.table.(schedule := schedule), order, w.now, true);
    case Reopen(schedule, order) =>
      RebuildsEachJob(NewProcess(w, schedule).table, order, w.now, false);
      forall id
        ensures RebuiltJob(w.table.(jobs := w.table.saved, schedule := schedule), Apply(w, e).table, id, w.now, false)
      {
        assert RebuiltJob(NewProcess(w, schedule).table, Apply(w, e).table, id, w.now, false);
      }
  }

  // ---- recurring jobs stay ----

  predicate IsRecurring(jobs: map<Id, Job>, id: Id, cron: Cron) {
    id in jobs && jobs[id].Recurring? && jobs[id].cron == cron
  }

  predicate Stays(t: Table, id: Id, cron: Cron) {
    IsRecurring(t.jobs, id, cron) && IsRecurring(t.saved, id, cron)
  }

  lemma {:induction false} DueStays(t: Table, due: seq<(Id, int)>, id: Id, cron: Cron)
    requires Stays(t, id, cron)
    ensures Stays(DueAll(t, due).table, id, cron)
  {
    if due != [] {
      var n := |due| - 1;
      DueStays(t, due[..n], id, cron);
      OneDueStays(DueAll(t, due[..n]).table, due[n].0, due[n].1, id, cron);
    }
  }

  lemma OneDueStays(t: Table, dueId: Id, at: int, id: Id, cron: Cron)
    requires Stays(t, id, cron)
    ensures Stays(DueOne(t, dueId, at).table, id, cron)
  {
  }

  lemma {:induction false} RebuildStays(t: Table, order: seq<Id>, now: int, persist: bool, id: Id, cron: Cron)
    requires Stays(t, id, cron)
    ensures Stays(RebuildAll(t, order, now, persist).table, id, cron)
  {
    if order != [] {
      var n := |order| - 1;
      RebuildStays(t, order[..n], now, persist, id, cron);
      OneRebuildStays(RebuildAll(t, order[..n], now, persist).table, order[n], now, persist, id, cron);
    }
  }

  lemma OneRebuildStays(t: Table, other: Id, now: int, persist: bool, id: Id, cron: Cron)
    requires Stays(t, id, cron)
    ensures Stays(RebuildOne(t, other, now, persist).table, id, cron)
  {
  }

  lemma StepStays(w: World, e: Event, id: Id, cron: Cron)
    requires Stays(w.table, id, cron) && id in w.used && Enabled(w, e) && e != DeleteEnds(id)
    ensures Stays(Apply(w, e).table, id, cron) && id in Apply(w, e).used
  {
    match e
    case Due(due) => DueStays(w.table, due, id, cron);
    case Activate(order) => RebuildStays(w.table.(jobs := w.table.saved), order, w.now, true, id, cron);
    case Rezone(schedule, order) => RebuildStays(w.table.(schedule := schedule), order, w.now, true, id, cron);
    case Reopen(schedule, order) => RebuildStays(NewProcess(w, schedule).table, order, w.now, false, id, cron);
    case _ =>
  }

  lemma {:induction false} RunStays(w: World, events: seq<Event>, id: Id, cron: Cron)
    requires Stays(w.table, id, cron) && id in w.used && ValidRun(w, events) && DeleteEnds(id) !in events
    ensures Stays(Exec(w, events).table, id, cron)
    decreases |events|
  {
    if events != [] {
      StepStays(w, events[0], id, cron);
      RunStays(Apply(w, events[0]), events[1..], id, cron);
    }
  }

  /** A recurring job that was created is in the table and in the snapshot, with its expression, until its
      deletion is completed: over errors, failed deletions, changes of zone and restarts. */
  lemma CreatedRecurringStays(w: World, id: Id, cron: Cron, events: seq<Event>)
    requires Enabled(w, AddRecurring(id, cron)) && ValidRun(Apply(w, AddRecurring(id, cron)), events)
    requires DeleteEnds(id) !in events
    ensures Stays(Exec(Apply(w, AddRecurring(id, cron)), events).table, id, cron)
  {
    RunStays(Apply(w, AddRecurring(id, cron)), events, id, cron);
  }

  // ---- one-shot jobs stay until their time ----

  ghost predicate Awaits(t: Table, id: Id, deadline: int) {
    && id in t.jobs && t.jobs[id] == Once(Some(deadline)) && id in t.saved && t.saved[id] == Once(Some(deadline))
    && (id in t.nextFire ==> t.nextFire[id] == deadline)
  }

  ghost predicate NoTask(live: map<nat, Live>, id: Id) {
    forall k :: k in live ==> live[k].job != id
  }

  lemma OneDueAwaits(t: Table, dueId: Id, at: int, id: Id, deadline: int)
    requires Awaits(t, id, deadline) && dueId != id
    ensures var r := DueOne(t, dueId, at);
      Awaits(r.table, id, deadline) && forall j :: 0 <= j < |r.fires| ==> r.fires[j].id != id
  {
  }

  lemma {:induction false} DueAwaits(t: Table, due: seq<(Id, int)>, id: Id, deadline: int)
    requires Awaits(t, id, deadline) && forall i :: 0 <= i < |due| ==> due[i].0 != id
    ensures var r := DueAll(t, due);
      Awaits(r.table, id, deadline) && forall j :: 0 <= j < |r.fires| ==> r.fires[j].id != id
  {
    if due != [] {
      var n := |due| - 1;
      DueAwaits(t, due[..n], id, deadline);
      OneDueAwaits(DueAll(t, due[..n]).table, due[n].0, due[n].1, id, deadline);
    }
  }

  lemma {:induction false} NoTaskAdded(live: map<nat, Live>, fires: seq<Fire>, id: Id)
    requires NoTask(live, id) && forall j :: 0 <= j < |fires| ==> fires[j].id != id
    ensures NoTask(AddLive(live, fires), id)
  {
    if fires != [] {
      NoTaskAdded(live, fires[..|fires| - 1], id);
    }
  }

  lemma OneRebuildAwaits(t: Table, other: Id, now: int, persist: bool, id: Id, deadline: int)
    requires Awaits(t, id, deadline) && now < deadline
    ensures Awaits(RebuildOne(t, other, now, persist).table, id, deadline)
  {
  }

  lemma {:induction false} RebuildAwaits(
    t: Table, order: seq<Id>, now: int, persist: bool, id: Id, deadline: int)
    requires Awaits(t, id, deadline) && now < deadline
    ensures Awaits(RebuildAll(t, order, now, persist).table, id, deadline)
  {
    if order != [] {
      var n := |order| - 1;
      RebuildAwaits(t, order[..n], now, persist, id, deadline);
      OneRebuildAwaits(RebuildAll(t, order[..n], now, persist).table, order[n], now, persist, id, deadline);
    }
  }

  ghost predicate Waiting(w: World, id: Id, deadline: int) {
    Awaits(w.table, id, deadline) && NoTask(w.live, id) && id in w.used
  }

  lemma DueWaits(w: World, due: seq<(Id, int)>, id: Id, deadline: int)
    requires Waiting(w, id, deadline) && Enabled(w, Due(due)) && w.now < deadline
    ensures Waiting(Apply(w, Due(due)), id, deadline)
  {
    forall i | 0 <= i < |due|
      ensures due[i].0 != id
    {
    }
    DueAwaits(w.table, due, id, deadline);
    NoTaskAdded(w.live, DueAll(w.table, due).fires, id);
  }

  lemma StepWaits(w: World, e: Event, id: Id, deadline: int)
    requires Waiting(w, id, deadline) && Enabled(w, e) && e != DeleteEnds(id) && w.now < deadline
    ensures Waiting(Apply(w, e), id, deadline)
  {
    match e
    case Due(due) => DueWaits(w, due, id, deadline);
    case Activate(order) => RebuildAwaits(w.table.(jobs := w.table.saved), order, w.now, true, id, deadline);
    case Rezone(schedule, order) =>
      RebuildAwaits(w.table.(schedule := schedule), order, w.now, true, id, deadline);
    case Reopen(schedule, order) =>
      RebuildAwaits(NewProcess(w, schedule).table, order, w.now, false, id, deadline);
    case _ => SectionWaits(w, e, id, deadline);
  }

  lemma SectionWaits(w: World, e: Event, id: Id, deadline: int)
    requires Waiting(w, id, deadline) && Enabled(w, e) && e != DeleteEnds(id)
    requires !e.Due? && !e.Activate? && !e.Rezone? && !e.Reopen?
    ensures Waiting(Apply(w, e), id, deadline)
  {
  }

  lemma {:induction false} ClockGoesOn(w: World, events: seq<Event>)
    requires ValidRun(w, events)
    ensures w.now <= Exec(w, events).now
    decreases |events|
  {
    if events != [] {
      ClockGoesOn(Apply(w, events[0]), events[1..]);
    }
  }

  lemma {:induction false} RunWaits(w: World, events: seq<Event>, id: Id, deadline: int)
    requires Waiting(w, id, deadline) && ValidRun(w, events) && DeleteEnds(id) !in events
    requires Exec(w, events).now < deadline
    ensures Waiting(Exec(w, events), id, deadline)
    decreases |events|
  {
    if events != [] {
      ClockGoesOn(w, events);
      StepWaits(w, events[0], id, deadline);
      RunWaits(Apply(w, events[0]), events[1..], id, deadline);
    }
  }

  /** A one-shot job that was created is in the table and in the snapshot with its deadline, and has no task,
      until that time comes or its deletion is completed. */
  lemma CreatedOneShotWaits(start: World, before: seq<Event>, id: Id, deadline: int, events: seq<Event>)
    requires Initial(start) && ValidRun(start, before) && Enabled(Exec(start, before), AddOnce(id, deadline))
    requires ValidRun(Apply(Exec(start, before), AddOnce(id, deadline)), events) && DeleteEnds(id) !in events
    requires Exec(Apply(Exec(start, before), AddOnce(id, deadline)), events).now < deadline
    ensures var v := Exec(Apply(Exec(start, before), AddOnce(id, deadline)), events);
      Awaits(v.table, id, deadline) && NoTask(v.live, id)
  {
    NewIdHasNoTask(start, before, id);
    RunWaits(Apply(Exec(start, before), AddOnce(id, deadline)), events, id, deadline);
  }

  // ---- tasks belong to ids given out ----

  ghost predicate TasksUsed(w: World) {
    forall k :: k in w.live ==> w.live[k].job in w.used
  }

  lemma NewIdHasNoTask(start: World, events: seq<Event>, id: Id)
    requires Initial(start) && ValidRun(start, events) && id !in Exec(start, events).used
    ensures NoTask(Exec(start, events).live, id)
  {
    RunTasksUsed(start, events);
  }

  lemma {:induction false} RunTasksUsed(w: World, events: seq<Event>)
    requires Inv(w) && TasksUsed(w) && ValidRun(w, events)
    ensures TasksUsed(Exec(w, events))
    decreases |events|
  {
    if events != [] {
      StepKeepsInv(w, events[0]);
      StepTasksUsed(w, events[0]);
      RunTasksUsed(Apply(w, events[0]), events[1..]);
    }
  }

  lemma StepTasksUsed(w: World, e: Event)
    requires TasksUsed(w) && Enabled(w, e) && Inv(Apply(w, e))
    ensures TasksUsed(Apply(w, e))
  {
    if e.Due? {
      AddedTasksUsed(w.live, RunDue(w.table, e.due).fires, w.used, w.history);
    }
  }

  lemma {:induction false} AddedTasksUsed(live: map<nat, Live>, fires: seq<Fire>, used: set<Id>, history: seq<Fire>)
    requires forall k :: k in live ==> live[k].job in used
    requires forall i :: 0 <= i < |history + fires| ==> (history + fires)[i].id in used
    ensures forall k :: k in AddLive(live, fires) ==> AddLive(live, fires)[k].job in used
  {
    if fires != [] {
      var n := |fires| - 1;
      assert forall i :: 0 <= i < |history + fires[..n]| ==> (history + fires[..n])[i] == (history + fires)[i];
      assert (history + fires)[|history| + n] == fires[n];
      AddedTasksUsed(live, fires[..n], used, history);
    }
  }

  // ---- creating and ending ----

  /** A job that is created has its deadline, is saved, and leaves all others alone. */
  lemma CreatedJobIsListed(w: World, e: Event, id: Id)
    requires Enabled(w, e) && ((e.AddRecurring? && e.id == id) || (e.AddOnce? && e.id == id))
    ensures var v := Apply(w, e);
      && id in v.table.jobs && id in v.table.nextFire && v.table.saved == v.table.jobs
      && v.table.nextFire[id] == (if e.AddOnce? then e.deadline else w.table.schedule(e.cron, w.now).value)
      && v.table.jobs[id] == (if e.AddOnce? then Once(Some(e.deadline))
                              else Recurring(e.cron, w.table.schedule(e.cron, w.now)))
      && forall other :: other != id ==> Kept(w, v, other)
  {
  }

  /** A one-shot job whose task finished, or was cancelled, is gone from the table and the snapshot, unless its
      deletion is under way; a recurring one stays as it is. */
  lemma FinishedOneShotGoes(w: World, e: Event)
    requires Enabled(w, e) && (e.Finished? || e.Cancelled?)
    ensures var v, id := Apply(w, e), w.live[e.task].job;
      && (id in w.table.jobs && id !in w.table.deleting && w.table.jobs[id].Once? ==>
            id !in v.table.jobs && id !in v.table.saved && id !in v.table.nextFire)
      && (id in w.table.jobs && w.table.jobs[id].Recurring? ==> Kept(w, v, id))
      && forall other :: other != id ==> Kept(w, v, other)
  {
  }

  /** When a deletion is completed, the job has nothing left, and the others are untouched. */
  lemma DeletedJobIsGone(w: World, id: Id)
    requires Enabled(w, DeleteEnds(id))
    ensures var v := Apply(w, DeleteEnds(id));
      && id !in v.table.jobs && id !in v.table.saved && id !in v.table.nextFire && id !in v.table.tasks
      && id !in v.table.running && id !in v.table.deleting && v.table.saved == v.table.jobs
      && forall other :: other != id ==> Kept(w, v, other)
  {
  }

  // ---- a job waits for a task that is live ----

  ghost predicate Waited(w: World, id: Id) {
    id in w.table.tasks ==> w.table.tasks[id] in w.live && w.live[w.table.tasks[id]].job == id
  }

  ghost predicate AllWaited(w: World) {
    forall id :: Waited(w, id)
  }

  lemma {:induction false} PassReaches(t: Table, due: seq<(Id, int)>, k: nat) returns (n: nat)
    requires k <= |due| && forall i :: 0 <= i < k ==> !Fails(t, due[i].0, due[i].1)
    ensures Reaches(t, due, n)
    decreases |due| - k
  {
    if k == |due| || Fails(t, due[k].0, due[k].1) {
      n := k;
    } else {
      n := PassReaches(t, due, k + 1);
    }
  }

  lemma PassKeepsWaited(w: World, v: World, due: seq<(Id, int)>, id: Id)
    requires AllServed(w, v, due) && OthersKept(w, v, due) && Grown(w, v) && Waited(w, id)
    ensures Waited(v, id)
  {
    if Absent(due, id) {
      assert Kept(w, v, id);
    } else {
      var i :| 0 <= i < |due| && due[i].0 == id;
      assert Served(w, v, id, due[i].1);
    }
  }

  lemma StepWaited(start: World, events: seq<Event>, e: Event)
    requires Initial(start) && ValidRun(start, events) && Enabled(Exec(start, events), e) && !e.NeverBegin?
    requires AllWaited(Exec(start, events))
    ensures AllWaited(Apply(Exec(start, events), e))
  {
    var w := Exec(start, events);
    match e
    case Due(due) =>
      var n := PassReaches(w.table, due, 0);
      DueJobsAreStarted(start, events, due, n);
      forall id
        ensures Waited(Apply(w, e), id)
      {
        PassKeepsWaited(w, Apply(w, e), due[..n], id);
      }
    case Activate(order) =>
      SameAfterRebuild(w.table.(jobs := w.table.saved), order, w.now, true);
      SameWaited(w, Apply(w, e));
    case Rezone(schedule, order) =>
      SameAfterRebuild(w.table.(schedule := schedule), order, w.now, true);
      SameWaited(w, Apply(w, e));
    case Reopen(schedule, order) => SameAfterRebuild(NewProcess(w, schedule).table, order, w.now, false);
    case _ => SectionWaited(w, e);
  }

  lemma SameWaited(w: World, v: World)
    requires AllWaited(w) && v.table.tasks == w.table.tasks && v.live == w.live
    ensures AllWaited(v)
  {
    forall id
      ensures Waited(v, id)
    {
      assert Waited(w, id);
    }
  }

  lemma {:induction false} SameAfterRebuild(t: Table, order: seq<Id>, now: int, persist: bool)
    ensures RebuildAll(t, order, now, persist).table.tasks == t.tasks
  {
    if order != [] {
      SameAfterRebuild(t, order[..|order| - 1], now, persist);
    }
  }

  lemma SectionWaited(w: World, e: Event)
    requires AllWaited(w) && Enabled(w, e)
    requires !e.Due? && !e.Activate? && !e.Rezone? && !e.Reopen? && !e.NeverBegin?
    ensures AllWaited(Apply(w, e))
  {
    forall id
      ensures Waited(Apply(w, e), id)
    {
      assert Waited(w, id);
    }
  }

  lemma {:induction false} ExecTo(w: World, events: seq<Event>, k: nat)
    requires ValidRun(w, events) && k < |events|
    ensures ValidRun(w, events[..k]) && Enabled(Exec(w, events[..k]), events[k])
    ensures ValidRun(w, events[..k + 1]) && Exec(w, events[..k + 1]) == Apply(Exec(w, events[..k]), events[k])
    decreases |events|
  {
    if k == 0 {
      assert events[..1][0] == events[0] && events[..1][1..] == [];
    } else {
      ExecTo(Apply(w, events[0]), events[1..], k - 1);
      assert events[..k][1..] == events[1..][..k - 1] && events[..k + 1][1..] == events[1..][..k];
    }
  }

  lemma {:induction false} WaitedSoFar(start: World, events: seq<Event>, k: nat)
    requires Initial(start) && ValidRun(start, events) && k <= |events|
    requires forall e :: e in events ==> !e.NeverBegin?
    ensures ValidRun(start, events[..k]) && AllWaited(Exec(start, events[..k]))
  {
    if k > 0 {
      WaitedSoFar(start, events, k - 1);
      ExecTo(start, events, k - 1);
      assert events[k - 1] in events;
      StepWaited(start, events[..k - 1], events[k - 1]);
    }
  }

  /** As long as every task began, a job that waits for a task waits for a live one of its own: so a due job
      without a live task is started. */
  lemma WaitedTasksAreLive(start: World, events: seq<Event>, id: Id)
    requires Initial(start) && ValidRun(start, events) && forall e :: e in events ==> !e.NeverBegin?
    requires id in Exec(start, events).table.tasks
    ensures var v := Exec(start, events); v.table.tasks[id] in v.live && v.live[v.table.tasks[id]].job == id
  {
    WaitedSoFar(start, events, |events|);
    assert events[..|events|] == events;
    assert Waited(Exec(start, events), id);
  }
}
