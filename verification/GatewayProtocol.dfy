/** The turn coordinator and the IM layer as one protocol. Each event is one lock section, or one
    stretch between two awaits, of some task; the environment picks any enabled event next. */
module GatewayProtocol {
  import opened Options
  import opened GatewayTurns
  import opened ImChannel

  /** What a suspended task will do next, and on whose behalf. */
  datatype Thread =
    | Starting(turn: Turn)                                  // about to enter the dispatch callback
    | Publishing(turn: Turn, stamp: nat)                    // control installed, awaiting publication
    | Unwinding(turn: Turn, stamp: nat, advance: bool)      // publication failed
    | Failing(turn: Turn, advance: bool)                    // dispatch failed, rollback to come
    | InBus(turn: Turn)
    | Running(turn: Turn)
    | Replying(turn: Turn)                                  // finished, terminal reply being published
    | Completing(route: Route, id: Id)                      // control removed by a delivery report
    | Reserving(matcher: RouteMatcher)                      // holds the IM layer's lock

  /** Ghost record of what happened: per route the ids accepted, given to dispatch, ended by
      completion, rollback or close, and dropped while waiting; over all routes the finished ids, the
      ids given up since they were last accepted, and how many had finished at that acceptance. */
  datatype History = History(
    accepted: map<Route, seq<Id>>,
    dispatched: map<Route, seq<Id>>,
    ended: map<Route, seq<Id>>,
    dropped: map<Route, seq<Id>>,
    finished: seq<Id>,
    freed: set<Id>,
    since: map<Id, nat>)

  datatype Sys = Sys(c: Coord, im: Im, threads: map<nat, Thread>, clock: nat, h: History)

  const START := Sys(INITIAL, STARTED, map[], 0, History(map[], map[], map[], map[], [], {}, map[]))

  datatype Event =
    | Submitted(t: Turn)
    | Entered(k: nat)
    | StartCancelled(k: nat)
    | Published(k: nat)
    | PublishFailed(k: nat, cancelled: bool)
    | Unwound(k: nat)
    | RolledBack(k: nat)
    | Consumed(k: nat)
    | Finished(k: nat)
    | Replied(k: nat)
    | RunCancelled(k: nat)
    | Delivered(r: Route, id: Id)
    | Completed(k: nat)
    | Discarded(r: Route)
    | ReserveChecked(m: RouteMatcher)
    | ReserveCommitted(k: nat, token: Token)
    | Released(token: Token)
    | ImClosed
    | ImStarted
    | CloseBegun
    | Reopened

  function At(m: map<Route, seq<Id>>, r: Route): seq<Id> {
    if r in m then m[r] else []
  }

  function Log(m: map<Route, seq<Id>>, r: Route, ids: seq<Id>): map<Route, seq<Id>> {
    m[r := At(m, r) + ids]
  }

  // ---- which events may happen ----

  ghost predicate LockFree(s: Sys) {
    forall k :: k in s.threads ==> !s.threads[k].Reserving?
  }

  /** The environment's promises: a delivery report names a turn that is not still unfinished on its
      route, and the coordinator is closed and started again only when no task is left. */
  ghost predicate Enabled(s: Sys, e: Event) {
    match e
    case Submitted(t) => t.generation <= s.im.generation
    case Entered(k) => LockFree(s) && k in s.threads && s.threads[k].Starting?
    case StartCancelled(k) => k in s.threads && s.threads[k].Starting?
    case Published(k) => k in s.threads && s.threads[k].Publishing?
    case PublishFailed(k, _) => k in s.threads && s.threads[k].Publishing?
    case Unwound(k) => LockFree(s) && k in s.threads && s.threads[k].Unwinding?
    case RolledBack(k) => k in s.threads && s.threads[k].Failing?
    case Consumed(k) => k in s.threads && s.threads[k].InBus?
    case Finished(k) => k in s.threads && s.threads[k].Running?
    case Replied(k) => k in s.threads && s.threads[k].Replying?
    case RunCancelled(k) => s.c.closed && k in s.threads && s.threads[k].Running?
    case Delivered(r, id) => LockFree(s) && !UnfinishedOn(s, r, id)
    case Completed(k) => k in s.threads && s.threads[k].Completing?
    case Discarded(r) => true
    case ReserveChecked(m) => LockFree(s)
    case ReserveCommitted(k, token) =>
      k in s.threads && s.threads[k].Reserving? && token !in s.c.blocks
    case Released(token) => true
    case ImClosed => LockFree(s)
    case ImStarted => LockFree(s)
    case CloseBegun => true
    case Reopened => s.c.closed && s.im.controls == map[] && s.threads == map[]
  }

  ghost predicate UnfinishedOn(s: Sys, r: Route, id: Id) {
    exists k :: k in s.threads && Unfinished(s.threads[k]) && s.threads[k].turn.route == r && s.threads[k].turn.id == id
  }

  predicate Unfinished(th: Thread) {
    th.Starting? || th.Publishing? || th.Unwinding? || th.Failing? || th.InBus? || th.Running?
  }

  // ---- what they do ----

  function Become(s: Sys, k: nat, th: Thread): Sys {
    s.(threads := s.threads[k := th])
  }

  function Gone(s: Sys, k: nat): Sys {
    s.(threads := s.threads - {k})
  }

  function Spawn(s: Sys, th: Thread): Sys {
    s.(threads := s.threads[s.clock := th], clock := s.clock + 1)
  }

  /** Starts the dispatch of the turn that a completion or rollback made active, if any. */
  function Launch(s: Sys, next: Option<Turn>): Sys {
    match next
    case None => s
    case Some(t) =>
      Spawn(s.(h := s.h.(dispatched := Log(s.h.dispatched, t.route, [t.id]))), Starting(t))
  }

  function RecordAccepted(h: History, t: Turn): History {
    h.(accepted := Log(h.accepted, t.route, [t.id]),
       freed := h.freed - {t.id},
       since := h.since[t.id := |h.finished|])
  }

  /** The waiting ids that a rollback drops, by the branch it takes. */
  function RollbackDrops(c: Coord, r: Route, id: Id, advance: bool): seq<Id> {
    if ActiveOf(c, r) == Some(id) && !advance then Ids(PendingOf(c, r)) else []
  }

  function RecordEnded(h: History, c: Coord, r: Route, id: Id): History {
    if ActiveOf(c, r) == Some(id) then h.(ended := Log(h.ended, r, [id])) else h
  }

  function RecordDropped(h: History, r: Route, ids: seq<Id>): History {
    h.(dropped := Log(h.dropped, r, ids), freed := h.freed + set x | x in ids)
  }

  function RecordRollback(s: Sys, t: Turn, advance: bool): History {
    var h := RecordDropped(s.h, t.route, RollbackDrops(s.c, t.route, t.id, advance));
    RecordEnded(h.(freed := h.freed + {t.id}), s.c, t.route, t.id)
  }

  function Current(c: Coord, r: Route): seq<Id> {
    if r in c.active then [c.active[r]] else []
  }

  /** A close ends what is active, drops what waits and gives up what is in flight. */
  function RecordClosed(h: History, c: Coord): History {
    h.(ended := map r | r in h.ended.Keys + c.active.Keys :: At(h.ended, r) + Current(c, r),
       dropped := map r | r in h.dropped.Keys + c.pending.Keys :: At(h.dropped, r) + Ids(PendingOf(c, r)),
       freed := h.freed + c.inflight)
  }

  /** The end of a close, and the start after it. */
  function DoReopen(s: Sys): Sys {
    s.(c := CloseClear(s.c).(closed := false), h := RecordClosed(s.h, s.c))
  }

  function DoSubmit(s: Sys, t: Turn): Sys {
    var (c, result) := Submit(s.c, t);
    var h := RecordAccepted(s.h, t);
    if result.Queued? then s.(c := c, h := h)
    else if result.DispatchNow? then Launch(s.(c := c, h := h), Some(t))
    else s
  }

  function DoEnter(s: Sys, k: nat, t: Turn): Sys {
    var (im, result) := Install(s.im, t);
    match result
    case Installed(stamp) => Become(s.(im := im), k, Publishing(t, stamp))
    case _ => Become(s, k, Failing(t, true))
  }

  function DoRollback(s: Sys, k: nat, t: Turn, advance: bool): Sys {
    var (c, next) := Rollback(s.c, t.route, t.id, advance);
    Launch(Gone(s.(c := c, h := RecordRollback(s, t, advance)), k), next)
  }

  function DoComplete(s: Sys, k: nat, r: Route, id: Id): Sys {
    var (c, next) := Complete(s.c, r, id);
    Launch(Gone(s.(c := c, h := RecordEnded(s.h, s.c, r, id)), k), next)
  }

  function DoDiscard(s: Sys, r: Route): Sys {
    s.(c := Discard(s.c, r), h := RecordDropped(s.h, r, Ids(PendingOf(s.c, r))))
  }

  function DoDeliver(s: Sys, r: Route, id: Id): Sys {
    var (im, complete) := Deliver(s.im, r, id);
    if complete then Spawn(s.(im := im), Completing(r, id)) else s
  }

  function DoFinish(s: Sys, k: nat, t: Turn): Sys {
    Become(s.(c := Finish(s.c, t.id), h := s.h.(finished := s.h.finished + [t.id])), k, Replying(t))
  }

  ghost function Apply(s: Sys, e: Event): Sys
    requires Enabled(s, e)
  {
    match e
    case Submitted(t) => DoSubmit(s, t)
    case Entered(k) => DoEnter(s, k, s.threads[k].turn)
    case StartCancelled(k) => Become(s, k, Failing(s.threads[k].turn, false))
    case Published(k) => Become(s, k, InBus(s.threads[k].turn))
    case PublishFailed(k, cancelled) =>
      Become(s, k, Unwinding(s.threads[k].turn, s.threads[k].stamp, !cancelled))
    case Unwound(k) =>
      Become(s.(im := Uninstall(s.im, s.threads[k].turn.route, s.threads[k].stamp)), k,
             Failing(s.threads[k].turn, s.threads[k].advance))
    case RolledBack(k) => DoRollback(s, k, s.threads[k].turn, s.threads[k].advance)
    case Consumed(k) => Become(s, k, Running(s.threads[k].turn))
    case Finished(k) => DoFinish(s, k, s.threads[k].turn)
    case Replied(k) => Gone(s, k)
    case RunCancelled(k) => Gone(s, k)
    case Delivered(r, id) => DoDeliver(s, r, id)
    case Completed(k) => DoComplete(s, k, s.threads[k].route, s.threads[k].id)
    case Discarded(r) => DoDiscard(s, r)
    case ReserveChecked(m) => if AnyControlled(s.im, m) then s else Spawn(s, Reserving(m))
    case ReserveCommitted(k, token) => Gone(s.(c := Reserve(s.c, s.threads[k].matcher, token).0), k)
    case Released(token) => s.(c := Release(s.c, token))
    case ImClosed => s.(im := Close(s.im))
    case ImStarted => s.(im := Start(s.im))
    case CloseBegun => s.(c := s.c.(closed := true))
    case Reopened => DoReopen(s)
  }

  ghost predicate ValidRun(s: Sys, es: seq<Event>)
    decreases |es|
  {
    es == [] || (Enabled(s, es[0]) && ValidRun(Apply(s, es[0]), es[1..]))
  }

  ghost function Exec(s: Sys, es: seq<Event>): Sys
    requires ValidRun(s, es)
    decreases |es|
  {
    if es == [] then s else Exec(Apply(s, es[0]), es[1..])
  }

  // ---- the invariant ----

  /** Finished ids are not in flight. An id can be active on a route after it was forgotten, and be in
      flight again. */
  ghost predicate ActiveInv(c: Coord) {
    forall x :: x in c.terminal ==> x !in c.inflight
  }

  predicate Waits(c: Coord, r: Route, i: int) {
    r in c.pending && 0 <= i < |c.pending[r]|
  }

  /** Turns wait only behind an active turn, in flight, and no id waits twice. */
  ghost predicate PendingInv(c: Coord) {
    && (forall r :: r in c.pending ==> r in c.active && c.pending[r] != [])
    && (forall r, i :: Waits(c, r, i) ==> c.pending[r][i].route == r && c.pending[r][i].id in c.inflight)
    && (forall r1, i1, r2, i2 :: Waits(c, r1, i1) && Waits(c, r2, i2) && (r1 != r2 || i1 != i2) ==>
          c.pending[r1][i1].id != c.pending[r2][i2].id)
  }

  /** A blocked route is not active. */
  ghost predicate BlockInv(c: Coord) {
    forall token, r :: token in c.blocks && c.blocks[token](r) ==> r !in c.active
  }

  ghost predicate CoordInv(c: Coord) {
    ActiveInv(c) && PendingInv(c) && BlockInv(c)
  }

  predicate Owns(c: Coord, t: Turn) {
    t.id in c.inflight && ActiveOf(c, t.route) == Some(t.id)
  }

  /** The turn is active on its route, in flight, and does not wait. */
  ghost predicate Holder(c: Coord, t: Turn) {
    Owns(c, t) && forall r, i :: Waits(c, r, i) ==> c.pending[r][i].id != t.id
  }

  predicate Unfinishing(th: Thread, r: Route) {
    Unfinished(th) && th.turn.route == r
  }

  /** Unfinished tasks hold their routes, one each and for different ids. The task that completes a route
      after a delivery finds its id still active there and no other task on the route. */
  ghost predicate ThreadInv(s: Sys) {
    && (forall k :: k in s.threads ==> k < s.clock)
    && (forall k :: k in s.threads && Unfinished(s.threads[k]) ==> Holder(s.c, s.threads[k].turn))
    && (forall k1, k2 :: k1 in s.threads && k2 in s.threads && k1 != k2 ==>
            Unfinished(s.threads[k1]) ==> Unfinished(s.threads[k2]) ==>
            s.threads[k1].turn.id != s.threads[k2].turn.id && s.threads[k1].turn.route != s.threads[k2].turn.route)
    && (forall k :: k in s.threads && s.threads[k].Completing? ==>
            ActiveOf(s.c, s.threads[k].route) == Some(s.threads[k].id))
    && (forall k1, k2 :: k1 in s.threads && k2 in s.threads && k1 != k2 ==> s.threads[k1].Completing? ==>
            !Unfinishing(s.threads[k2], s.threads[k1].route)
            && !(s.threads[k2].Completing? && s.threads[k2].route == s.threads[k1].route))
  }

  /** What a control on route `r` excludes among the tasks. */
  predicate Compatible(r: Route, ctl: Control, th: Thread) {
    match th
    case Completing(q, _) => q != r
    case Starting(t) => t.route != r
    case Failing(t, _) => t.route != r
    case Publishing(t, stamp) => t.route == r ==> stamp == ctl.stamp && t.id == ctl.id
    case Unwinding(t, stamp, _) => t.route == r ==> stamp == ctl.stamp && t.id == ctl.id
    case _ => true
  }

  /** Each control belongs to the turn that is active on its route. */
  ghost predicate ControlInv(s: Sys) {
    && (forall r :: r in s.im.controls ==>
            ActiveOf(s.c, r) == Some(s.im.controls[r].id) && s.im.controls[r].stamp < s.im.created)
    && (forall r, k :: r in s.im.controls && k in s.threads ==> Compatible(r, s.im.controls[r], s.threads[k]))
  }

  ghost predicate Inv(s: Sys) {
    CoordInv(s.c) && ThreadInv(s) && ControlInv(s)
  }

  // ---- every section of the coordinator keeps its part ----

  lemma SubmitKeepsCoord(c: Coord, t: Turn)
    requires CoordInv(c)
    ensures CoordInv(Submit(c, t).0)
  {
    var c' := Submit(c, t).0;
    assert forall r, i :: Waits(c', r, i) ==>
        (Waits(c, r, i) && c'.pending[r][i] == c.pending[r][i]) || c'.pending[r][i] == t;
  }

  /** Also when the id that was active has just left the in-flight set, as in a rollback. */
  lemma AdvanceKeepsCoord(c: Coord, r: Route, gone: set<Id>)
    requires CoordInv(c) && r in c.active
    requires forall q, i :: Waits(c, q, i) ==> c.pending[q][i].id !in gone
    ensures CoordInv(Advance(c.(inflight := c.inflight - gone), r).0)
  {
    var c' := Advance(c.(inflight := c.inflight - gone), r).0;
    if r in c.pending {
      assert Waits(c, r, 0);
      assert forall r2, i :: Waits(c', r2, i) ==> Waits(c, r2, if r2 == r then i + 1 else i);
    } else {
      assert forall r2, i :: Waits(c', r2, i) ==> Waits(c, r2, i);
    }
  }

  lemma DiscardKeepsCoord(c: Coord, r: Route)
    requires CoordInv(c)
    ensures CoordInv(Discard(c, r))
  {
    var c' := Discard(c, r);
    forall x | x in c.inflight && x !in c'.inflight
      ensures exists i :: Waits(c, r, i) && c.pending[r][i].id == x
    {
    }
    assert forall r2, i :: Waits(c', r2, i) ==> Waits(c, r2, i);
  }

  lemma RollbackKeepsCoord(c: Coord, t: Turn, advance: bool)
    requires CoordInv(c) && Holder(c, t)
    ensures CoordInv(Rollback(c, t.route, t.id, advance).0)
  {
    var r, id := t.route, t.id;
    AdvanceKeepsCoord(c, r, {id});
    DiscardKeepsCoord(c, r);
    if !(advance && PendingOf(c, r) != []) {
      var c' := Rollback(c, r, id, advance).0;
      assert c' == Discard(c, r).(inflight := Discard(c, r).inflight - {id}, active := c.active - {r});
      assert forall r2, i :: Waits(c', r2, i) ==> Waits(Discard(c, r), r2, i);
    }
  }

  /** Recording a finished id adds it and forgets no id still in use. */
  lemma RememberMembers(terminal: seq<Id>, id: Id)
    ensures id in Remember(terminal, id)
    ensures forall x :: x in Remember(terminal, id) ==> x == id || x in terminal
  {
    var whole := Without(terminal, id) + [id];
    assert whole[|whole| - 1] == id;
    assert Remember(terminal, id)[|Remember(terminal, id)| - 1] == id;
  }

  lemma FinishKeepsCoord(c: Coord, t: Turn)
    requires CoordInv(c) && Holder(c, t)
    ensures CoordInv(Finish(c, t.id))
  {
    RememberMembers(c.terminal, t.id);
    var c' := Finish(c, t.id);
    assert forall r, i :: Waits(c', r, i) ==> Waits(c, r, i);
  }

  // ---- every event keeps the whole ----

  /** No task works on the route, and no unfinished one has the id. */
  ghost predicate Unknown(s: Sys, t: Turn) {
    && t.route !in s.im.controls
    && (forall k :: k in s.threads && Unfinished(s.threads[k]) ==>
          s.threads[k].turn.id != t.id && s.threads[k].turn.route != t.route)
    && (forall k :: k in s.threads && s.threads[k].Completing? ==> s.threads[k].route != t.route)
  }

  /** Starting the dispatch of a turn that no task and no control knows yet. */
  lemma LaunchKeepsInv(s: Sys, t: Turn)
    requires Inv(s) && Holder(s.c, t) && Unknown(s, t)
    ensures Inv(Launch(s, Some(t)))
  {
  }

  /** The tasks and controls after an input was accepted. */
  lemma AcceptKeepsTasks(s: Sys, t: Turn, h: History)
    requires CoordInv(s.c) && ThreadInv(s) && ControlInv(s)
    requires Submit(s.c, t).1.Queued? || Submit(s.c, t).1.DispatchNow?
    ensures ThreadInv(s.(c := Submit(s.c, t).0, h := h)) && ControlInv(s.(c := Submit(s.c, t).0, h := h))
  {
    var c := Submit(s.c, t).0;
    forall k | k in s.threads && Unfinished(s.threads[k])
      ensures Holder(c, s.threads[k].turn)
    {
      AcceptKeepsHolder(s.c, t, s.threads[k].turn);
    }
    SameHoldersKeepThreads(s, c, h);
  }

  lemma AcceptKeepsHolder(c: Coord, t: Turn, u: Turn)
    requires Holder(c, u) && (Submit(c, t).1.Queued? || Submit(c, t).1.DispatchNow?)
    ensures Holder(Submit(c, t).0, u)
  {
    var c' := Submit(c, t).0;
    assert forall r, i :: Waits(c', r, i) ==>
        (Waits(c, r, i) && c'.pending[r][i] == c.pending[r][i]) || c'.pending[r][i] == t;
  }

  lemma SameHoldersKeepThreads(s: Sys, c: Coord, h: History)
    requires ThreadInv(s)
    requires forall k :: k in s.threads && Unfinished(s.threads[k]) ==> Holder(c, s.threads[k].turn)
    requires forall r :: r in s.c.active ==> ActiveOf(c, r) == ActiveOf(s.c, r)
    ensures ThreadInv(s.(c := c, h := h))
  {
  }

  /** An input for a free route is not known to any task. */
  lemma AcceptedIsUnknown(s: Sys, t: Turn, h: History)
    requires CoordInv(s.c) && ThreadInv(s) && ControlInv(s) && Submit(s.c, t).1.DispatchNow?
    ensures Unknown(s.(c := Submit(s.c, t).0, h := h), t) && Holder(Submit(s.c, t).0, t)
  {
    var c := Submit(s.c, t).0;
    assert forall r, i :: Waits(c, r, i) ==> Waits(s.c, r, i) && c.pending[r][i] == s.c.pending[r][i];
    assert forall k :: k in s.threads && Unfinished(s.threads[k]) ==> Holder(s.c, s.threads[k].turn);
  }

  lemma SubmitKeepsInv(s: Sys, t: Turn)
    requires Inv(s)
    ensures Inv(DoSubmit(s, t))
  {
    var (c, result) := Submit(s.c, t);
    if result.Queued? || result.DispatchNow? {
      SubmitKeepsCoord(s.c, t);
      AcceptKeepsTasks(s, t, RecordAccepted(s.h, t));
      if result.DispatchNow? {
        AcceptedIsUnknown(s, t, RecordAccepted(s.h, t));
        LaunchKeepsInv(s.(c := c, h := RecordAccepted(s.h, t)), t);
      }
    }
  }

  lemma EnterKeepsInv(s: Sys, k: nat)
    requires Inv(s) && k in s.threads && s.threads[k].Starting?
    ensures Inv(DoEnter(s, k, s.threads[k].turn))
  {
    EnterKeepsThreads(s, k);
    EnterKeepsControls(s, k);
  }

  lemma EnterKeepsThreads(s: Sys, k: nat)
    requires ThreadInv(s) && k in s.threads && s.threads[k].Starting?
    ensures ThreadInv(DoEnter(s, k, s.threads[k].turn))
  {
  }

  lemma EnterKeepsControls(s: Sys, k: nat)
    requires CoordInv(s.c) && ThreadInv(s) && ControlInv(s) && k in s.threads && s.threads[k].Starting?
    ensures ControlInv(DoEnter(s, k, s.threads[k].turn))
  {
  }

  /** Ending one task and moving the coordinator from `s.c` to `c`, when `c` leaves all other
      tasks and all controls where they were. */
  lemma MoveKeepsInv(s: Sys, k: nat, c: Coord, h: History)
    requires Inv(s) && k in s.threads && CoordInv(c)
    requires forall j :: j in s.threads && j != k && Unfinished(s.threads[j]) ==> Holder(c, s.threads[j].turn)
    requires forall j :: j in s.threads && j != k && s.threads[j].Completing? ==>
               ActiveOf(c, s.threads[j].route) == Some(s.threads[j].id)
    requires forall r :: r in s.im.controls ==> ActiveOf(c, r) == ActiveOf(s.c, r)
    ensures Inv(Gone(s.(c := c, h := h), k))
  {
  }

  /** A turn given the route waited before; other routes keep theirs. */
  ghost predicate Handed(c: Coord, c': Coord, r: Route, next: Option<Turn>) {
    && (forall q :: q != r ==> ActiveOf(c', q) == ActiveOf(c, q))
    && (forall q, i :: Waits(c', q, i) ==> exists i' :: Waits(c, q, i') && c.pending[q][i'] == c'.pending[q][i])
    && (next.Some? ==>
          next.value.route == r && Holder(c', next.value)
          && exists i :: Waits(c, r, i) && c.pending[r][i] == next.value)
  }

  lemma AdvanceFacts(c: Coord, r: Route, gone: set<Id>)
    requires CoordInv(c) && r in c.active
    requires forall q, i :: Waits(c, q, i) ==> c.pending[q][i].id !in gone
    ensures var (c', next) := Advance(c.(inflight := c.inflight - gone), r);
            c'.inflight == c.inflight - gone && Handed(c, c', r, next)
  {
    var (c', next) := Advance(c.(inflight := c.inflight - gone), r);
    forall q, i | Waits(c', q, i)
      ensures exists i' :: Waits(c, q, i') && c.pending[q][i'] == c'.pending[q][i]
      ensures next.Some? ==> c'.pending[q][i].id != next.value.id
    {
      var i' := if q == r && r in c.pending then i + 1 else i;
      assert Waits(c, q, i') && c.pending[q][i'] == c'.pending[q][i];
      assert next.Some? ==> Waits(c, r, 0) && c.pending[r][0] == next.value;
    }
    if next.Some? {
      assert Waits(c, r, 0) && c.pending[r][0] == next.value;
    }
  }

  lemma DroppedDoNotHold(c: Coord, r: Route, t: Turn)
    requires CoordInv(c) && Holder(c, t)
    ensures t.id !in IdSet(PendingOf(c, r))
  {
    forall w | w in PendingOf(c, r)
      ensures w.id != t.id
    {
      var i :| 0 <= i < |PendingOf(c, r)| && PendingOf(c, r)[i] == w;
      assert Waits(c, r, i);
    }
  }

  lemma RollbackFacts(c: Coord, t: Turn, advance: bool)
    requires CoordInv(c) && Holder(c, t)
    ensures var (c', next) := Rollback(c, t.route, t.id, advance);
            && Handed(c, c', t.route, next)
            && (forall u :: Holder(c, u) && u.id != t.id && u.route != t.route ==> Holder(c', u))
  {
    AdvanceFacts(c, t.route, {t.id});
    var (c', next) := Rollback(c, t.route, t.id, advance);
    if !(advance && PendingOf(c, t.route) != []) {
      forall q, i | Waits(c', q, i)
        ensures Waits(c, q, i) && c.pending[q][i] == c'.pending[q][i]
      {
      }
    }
    forall u | Holder(c, u) && u.id != t.id && u.route != t.route
      ensures Holder(c', u)
    {
      DroppedDoNotHold(c, t.route, u);
    }
  }

  /** The turn that is handed the route is not known to any other task. */
  lemma HandedIsUnknown(s: Sys, k: nat, c: Coord, h: History, r: Route, next: Turn)
    requires ThreadInv(s) && k in s.threads && Handed(s.c, c, r, Some(next)) && r !in s.im.controls
    requires forall j :: j in s.threads && j != k ==>
               !Unfinishing(s.threads[j], r) && !(s.threads[j].Completing? && s.threads[j].route == r)
    ensures Unknown(Gone(s.(c := c, h := h), k), next)
  {
    var i :| Waits(s.c, r, i) && s.c.pending[r][i] == next;
  }

  lemma FailingIsAlone(s: Sys, k: nat)
    requires ThreadInv(s) && ControlInv(s) && k in s.threads && s.threads[k].Failing?
    ensures s.threads[k].turn.route !in s.im.controls
    ensures forall j :: j in s.threads && j != k ==>
              && !Unfinishing(s.threads[j], s.threads[k].turn.route)
              && !(s.threads[j].Completing? && s.threads[j].route == s.threads[k].turn.route)
  {
    forall r | r in s.im.controls
      ensures r != s.threads[k].turn.route
    {
      assert Compatible(r, s.im.controls[r], s.threads[k]);
    }
  }

  lemma CompletingIsAlone(s: Sys, k: nat)
    requires ThreadInv(s) && ControlInv(s) && k in s.threads && s.threads[k].Completing?
    ensures s.threads[k].route !in s.im.controls
    ensures forall j :: j in s.threads && j != k ==>
              && !Unfinishing(s.threads[j], s.threads[k].route)
              && !(s.threads[j].Completing? && s.threads[j].route == s.threads[k].route)
  {
    forall r | r in s.im.controls
      ensures r != s.threads[k].route
    {
      assert Compatible(r, s.im.controls[r], s.threads[k]);
    }
  }

  lemma RollbackKeepsInv(s: Sys, k: nat)
    requires Inv(s) && k in s.threads && s.threads[k].Failing?
    ensures Inv(DoRollback(s, k, s.threads[k].turn, s.threads[k].advance))
  {
    var t, advance := s.threads[k].turn, s.threads[k].advance;
    RollbackKeepsCoord(s.c, t, advance);
    RollbackFacts(s.c, t, advance);
    FailingIsAlone(s, k);
    var (c, next) := Rollback(s.c, t.route, t.id, advance);
    var h := RecordRollback(s, t, advance);
    MoveKeepsInv(s, k, c, h);
    if next.Some? {
      HandedIsUnknown(s, k, c, h, t.route, next.value);
      LaunchKeepsInv(Gone(s.(c := c, h := h), k), next.value);
    }
  }

  lemma CompleteFacts(c: Coord, r: Route)
    requires CoordInv(c) && r in c.active
    ensures var (c', next) := Advance(c, r);
            && CoordInv(c') && Handed(c, c', r, next)
            && (forall u :: Holder(c, u) && u.route != r ==> Holder(c', u))
  {
    AdvanceKeepsCoord(c, r, {});
    AdvanceFacts(c, r, {});
    assert c.(inflight := c.inflight - {}) == c;
  }

  lemma CompleteKeepsInv(s: Sys, k: nat)
    requires Inv(s) && k in s.threads && s.threads[k].Completing?
    ensures Inv(DoComplete(s, k, s.threads[k].route, s.threads[k].id))
  {
    var r, id := s.threads[k].route, s.threads[k].id;
    var (c, next) := Complete(s.c, r, id);
    var h := RecordEnded(s.h, s.c, r, id);
    CompleteFacts(s.c, r);
    CompletingIsAlone(s, k);
    MoveKeepsInv(s, k, c, h);
    if next.Some? {
      HandedIsUnknown(s, k, c, h, r, next.value);
      LaunchKeepsInv(Gone(s.(c := c, h := h), k), next.value);
    }
  }

  lemma DiscardKeepsInv(s: Sys, r: Route)
    requires Inv(s)
    ensures Inv(DoDiscard(s, r))
  {
    DiscardKeepsCoord(s.c, r);
  }

  lemma FinishKeepsInv(s: Sys, k: nat)
    requires Inv(s) && k in s.threads && s.threads[k].Running?
    ensures Inv(DoFinish(s, k, s.threads[k].turn))
  {
    FinishKeepsCoord(s.c, s.threads[k].turn);
    FinishKeepsThreads(s, k);
    FinishKeepsControls(s, k);
  }

  lemma FinishKeepsControls(s: Sys, k: nat)
    requires ControlInv(s) && k in s.threads && s.threads[k].Running?
    ensures ControlInv(DoFinish(s, k, s.threads[k].turn))
  {
  }

  lemma FinishKeepsThreads(s: Sys, k: nat)
    requires ThreadInv(s) && k in s.threads && s.threads[k].Running?
    ensures ThreadInv(DoFinish(s, k, s.threads[k].turn))
  {
    var c := Finish(s.c, s.threads[k].turn.id);
    assert forall r, i :: Waits(c, r, i) <==> Waits(s.c, r, i);
    forall j | j in s.threads && j != k && Unfinished(s.threads[j])
      ensures Holder(c, s.threads[j].turn)
    {
      assert Holder(s.c, s.threads[j].turn);
    }
  }

  /** A finished turn whose report arrives is alone on its route. */
  lemma DeliveredIsAlone(s: Sys, r: Route, id: Id)
    requires ThreadInv(s) && ControlInv(s) && !UnfinishedOn(s, r, id) && Holds(s.im, r, id)
    ensures ActiveOf(s.c, r) == Some(id)
    ensures forall k :: k in s.threads ==>
              !Unfinishing(s.threads[k], r) && !(s.threads[k].Completing? && s.threads[k].route == r)
  {
    forall k | k in s.threads
      ensures !Unfinishing(s.threads[k], r) && !(s.threads[k].Completing? && s.threads[k].route == r)
    {
      assert Compatible(r, s.im.controls[r], s.threads[k]);
    }
  }

  lemma CompletionKeepsThreads(s: Sys, r: Route, id: Id, im: Im)
    requires ThreadInv(s) && ActiveOf(s.c, r) == Some(id)
    requires forall k :: k in s.threads ==>
               !Unfinishing(s.threads[k], r) && !(s.threads[k].Completing? && s.threads[k].route == r)
    ensures ThreadInv(Spawn(s.(im := im), Completing(r, id)))
  {
  }

  lemma CompletionKeepsControls(s: Sys, r: Route, id: Id)
    requires ControlInv(s)
    ensures ControlInv(Spawn(s.(im := s.im.(controls := s.im.controls - {r})), Completing(r, id)))
  {
  }

  lemma DeliverKeepsInv(s: Sys, r: Route, id: Id)
    requires Inv(s) && !UnfinishedOn(s, r, id)
    ensures Inv(DoDeliver(s, r, id))
  {
    if Holds(s.im, r, id) {
      DeliveredIsAlone(s, r, id);
      CompletionKeepsThreads(s, r, id, Deliver(s.im, r, id).0);
      CompletionKeepsControls(s, r, id);
    }
  }

  lemma ReserveKeepsInv(s: Sys, k: nat, token: Token)
    requires Inv(s) && k in s.threads && s.threads[k].Reserving?
    ensures Inv(Gone(s.(c := Reserve(s.c, s.threads[k].matcher, token).0), k))
  {
    var c' := Reserve(s.c, s.threads[k].matcher, token).0;
    assert forall r, i :: Waits(c', r, i) ==> Waits(s.c, r, i);
  }

  lemma ReleaseKeepsInv(s: Sys, token: Token)
    requires Inv(s)
    ensures Inv(s.(c := Release(s.c, token)))
  {
    var c' := Release(s.c, token);
    assert forall r, i :: Waits(c', r, i) ==> Waits(s.c, r, i);
  }

  /** An unfinished task moves on without touching coordinator or controls. */
  lemma RelabelKeepsInv(s: Sys, k: nat, th: Thread)
    requires Inv(s) && k in s.threads && Unfinished(s.threads[k]) && Unfinished(th)
    requires th.turn == s.threads[k].turn
    requires forall r :: r in s.im.controls ==> Compatible(r, s.im.controls[r], th)
    ensures Inv(Become(s, k, th))
  {
  }

  lemma UnwindKeepsInv(s: Sys, k: nat)
    requires Inv(s) && Enabled(s, Unwound(k))
    ensures Inv(Apply(s, Unwound(k)))
  {
    var t := s.threads[k].turn;
    var s1 := s.(im := Uninstall(s.im, t.route, s.threads[k].stamp));
    assert Inv(s1);
    forall r | r in s1.im.controls
      ensures Compatible(r, s1.im.controls[r], Failing(t, s.threads[k].advance))
    {
      assert Compatible(r, s.im.controls[r], s.threads[k]);
    }
    RelabelKeepsInv(s1, k, Failing(t, s.threads[k].advance));
  }

  lemma StartCancelKeepsInv(s: Sys, k: nat)
    requires Inv(s) && k in s.threads && s.threads[k].Starting?
    ensures Inv(Become(s, k, Failing(s.threads[k].turn, false)))
  {
    forall r | r in s.im.controls
      ensures Compatible(r, s.im.controls[r], Failing(s.threads[k].turn, false))
    {
      assert Compatible(r, s.im.controls[r], s.threads[k]);
    }
    RelabelKeepsInv(s, k, Failing(s.threads[k].turn, false));
  }

  lemma PublishFailKeepsInv(s: Sys, k: nat, advance: bool)
    requires Inv(s) && k in s.threads && s.threads[k].Publishing?
    ensures Inv(Become(s, k, Unwinding(s.threads[k].turn, s.threads[k].stamp, advance)))
  {
    var th := Unwinding(s.threads[k].turn, s.threads[k].stamp, advance);
    forall r | r in s.im.controls
      ensures Compatible(r, s.im.controls[r], th)
    {
      assert Compatible(r, s.im.controls[r], s.threads[k]);
    }
    RelabelKeepsInv(s, k, th);
  }

  lemma ReserveCheckKeepsInv(s: Sys, m: RouteMatcher)
    requires Inv(s)
    ensures Inv(Spawn(s, Reserving(m)))
  {
    ReserveCheckKeepsThreads(s, m);
  }

  lemma ReserveCheckKeepsThreads(s: Sys, m: RouteMatcher)
    requires ThreadInv(s)
    ensures ThreadInv(Spawn(s, Reserving(m)))
  {
  }

  lemma LayerEventsKeepInv(s: Sys)
    requires Inv(s)
    ensures Inv(s.(im := Close(s.im))) && Inv(s.(im := Start(s.im)))
  {
  }

  lemma CloseBeginKeepsInv(s: Sys)
    requires Inv(s)
    ensures Inv(s.(c := s.c.(closed := true)))
  {
    assert forall r, i :: Waits(s.c.(closed := true), r, i) ==> Waits(s.c, r, i);
  }

  lemma ReopenKeepsInv(s: Sys)
    requires Inv(s) && s.im.controls == map[] && s.threads == map[]
    ensures Inv(DoReopen(s))
  {
  }

  lemma StepKeepsInv(s: Sys, e: Event)
    requires Inv(s) && Enabled(s, e)
    ensures Inv(Apply(s, e))
  {
    match e {
      case Submitted(t) => SubmitKeepsInv(s, t);
      case Entered(k) => EnterKeepsInv(s, k);
      case StartCancelled(k) => StartCancelKeepsInv(s, k);
      case Published(k) => RelabelKeepsInv(s, k, InBus(s.threads[k].turn));
      case PublishFailed(k, cancelled) => PublishFailKeepsInv(s, k, !cancelled);
      case Unwound(k) => UnwindKeepsInv(s, k);
      case RolledBack(k) => RollbackKeepsInv(s, k);
      case Consumed(k) => RelabelKeepsInv(s, k, Running(s.threads[k].turn));
      case Finished(k) => FinishKeepsInv(s, k);
      case Replied(k) => MoveKeepsInv(s, k, s.c, s.h);
      case RunCancelled(k) => MoveKeepsInv(s, k, s.c, s.h);
      case Delivered(r, id) => DeliverKeepsInv(s, r, id);
      case Completed(k) => CompleteKeepsInv(s, k);
      case Discarded(r) => DiscardKeepsInv(s, r);
      case ReserveChecked(m) => ReserveCheckKeepsInv(s, m);
      case ReserveCommitted(k, token) => ReserveKeepsInv(s, k, token);
      case Released(token) => ReleaseKeepsInv(s, token);
      case CloseBegun => CloseBeginKeepsInv(s);
      case Reopened => ReopenKeepsInv(s);
      case _ => LayerEventsKeepInv(s);
    }
  }
}
