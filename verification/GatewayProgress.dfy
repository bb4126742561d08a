/** What the Gateway does, not only what it avoids: for every reachable state, which inputs are accepted and
    dispatched, how a route passes on, when a block is granted, and that no route is left without anyone to
    free it. */
module GatewayProgress {
  import opened Options
  import opened GatewayTurns
  import opened ImChannel
  import opened GatewayProtocol
  import opened GatewayHistory

  /** The ids of a route in order: dispatched ones, then waiting ones. */
  function LineOf(s: Sys, r: Route): seq<Id> {
    At(s.h.dispatched, r) + Ids(PendingOf(s.c, r))
  }

  /** Nothing of the route differs. */
  ghost predicate RouteUntouched(s: Sys, s': Sys, r: Route) {
    && ActiveOf(s.c, r) == ActiveOf(s'.c, r) && PendingOf(s.c, r) == PendingOf(s'.c, r)
    && At(s.h.accepted, r) == At(s'.h.accepted, r) && At(s.h.dispatched, r) == At(s'.h.dispatched, r)
    && At(s.h.ended, r) == At(s'.h.ended, r) && At(s.h.dropped, r) == At(s'.h.dropped, r)
  }

  /** The task that starts a dispatch has been created. */
  ghost predicate DispatchStarts(s: Sys, s': Sys, t: Turn) {
    s'.clock == s.clock + 1 && s.clock in s'.threads && s'.threads[s.clock] == Starting(t)
  }

  // ---- inputs ----

  /** Whether an input has to be accepted, told from the coordinator's fields. */
  ghost predicate Acceptable(c: Coord, t: Turn) {
    && !c.closed && (forall token :: token in c.blocks ==> !c.blocks[token](t.route))
    && t.id !in c.inflight && t.id !in c.terminal
  }

  /** An input is accepted exactly when the coordinator is open, no block matches and its id is neither in
      flight nor remembered. It then goes to the end of its route's line, at once to dispatch if the route is
      free. Otherwise nothing changes. */
  lemma InputsAreAccepted(es: seq<Event>, t: Turn)
    requires ValidRun(START, es) && Enabled(Exec(START, es), Submitted(t))
    ensures var s := Exec(START, es);
            var s', r := Apply(s, Submitted(t)), t.route;
            if !Acceptable(s.c, t) then s' == s
            else
              && At(s'.h.accepted, r) == At(s.h.accepted, r) + [t.id]
              && LineOf(s', r) == LineOf(s, r) + [t.id]
              && t.id in s'.c.inflight
              && (r !in s.c.active ==>
                    At(s'.h.dispatched, r) == At(s.h.dispatched, r) + [t.id] && DispatchStarts(s, s', t))
              && (r in s.c.active ==>
                    At(s'.h.dispatched, r) == At(s.h.dispatched, r) && s'.threads == s.threads
                    && PendingOf(s'.c, r) == PendingOf(s.c, r) + [t])
              && forall q :: q != r ==> RouteUntouched(s, s', q)
  {
    ReachableStates(es);
    var s := Exec(START, es);
    HeadRoute(s.c, t.route);
    if Acceptable(s.c, t) {
      AcceptedInput(s, t);
    }
  }

  lemma AcceptedInput(s: Sys, t: Turn)
    requires Acceptable(s.c, t) && (t.route in s.c.pending ==> t.route in s.c.active)
    ensures var s', r := DoSubmit(s, t), t.route;
            && At(s'.h.accepted, r) == At(s.h.accepted, r) + [t.id]
            && LineOf(s', r) == LineOf(s, r) + [t.id]
            && t.id in s'.c.inflight
            && (r !in s.c.active ==>
                  At(s'.h.dispatched, r) == At(s.h.dispatched, r) + [t.id] && DispatchStarts(s, s', t))
            && (r in s.c.active ==>
                  At(s'.h.dispatched, r) == At(s.h.dispatched, r) && s'.threads == s.threads
                  && PendingOf(s'.c, r) == PendingOf(s.c, r) + [t])
            && forall q :: q != r ==> RouteUntouched(s, s', q)
  {
    IdsGrow(PendingOf(s.c, t.route), t);
  }

  // ---- a route passes on ----

  /** After a turn of the route ended: its oldest waiting turn is dispatched, or the route is free. */
  ghost predicate PassesOn(s: Sys, s': Sys, r: Route) {
    var waiting := PendingOf(s.c, r);
    if waiting == [] then
      r !in s'.c.active && r !in s'.c.pending && At(s'.h.dispatched, r) == At(s.h.dispatched, r)
    else
      && ActiveOf(s'.c, r) == Some(waiting[0].id) && PendingOf(s'.c, r) == waiting[1..]
      && At(s'.h.dispatched, r) == At(s.h.dispatched, r) + [waiting[0].id]
      && DispatchStarts(s, s', waiting[0])
  }

  /** The end of a delivered turn passes its route on. */
  lemma CompletionPassesOn(es: seq<Event>, k: nat)
    requires ValidRun(START, es) && Enabled(Exec(START, es), Completed(k))
    ensures var s := Exec(START, es);
            var s', r := Apply(s, Completed(k)), s.threads[k].route;
            && PassesOn(s, s', r) && k !in s'.threads
            && At(s'.h.ended, r) == At(s.h.ended, r) + [s.threads[k].id]
            && At(s'.h.dropped, r) == At(s.h.dropped, r)
            && forall q :: q != r ==> RouteUntouched(s, s', q)
  {
    ReachableStates(es);
    var s := Exec(START, es);
    var r := s.threads[k].route;
    HeadRoute(s.c, r);
    assert ActiveOf(s.c, r) == Some(s.threads[k].id);
    assert k < s.clock;
    CompletedRoute(s, k);
  }

  lemma CompletedRoute(s: Sys, k: nat)
    requires k in s.threads && s.threads[k].Completing? && k < s.clock
    requires ActiveOf(s.c, s.threads[k].route) == Some(s.threads[k].id)
    requires PendingOf(s.c, s.threads[k].route) != [] ==>
               PendingOf(s.c, s.threads[k].route)[0].route == s.threads[k].route
    ensures var s', r := DoComplete(s, k, s.threads[k].route, s.threads[k].id), s.threads[k].route;
            && PassesOn(s, s', r) && k !in s'.threads
            && At(s'.h.ended, r) == At(s.h.ended, r) + [s.threads[k].id]
            && At(s'.h.dropped, r) == At(s.h.dropped, r)
            && forall q :: q != r ==> RouteUntouched(s, s', q)
  {
  }

  /** A failed dispatch gives its id up. With `advance` the route passes on; a cancelled dispatch drops what
      waits and frees the route. */
  lemma RollbackPassesOn(es: seq<Event>, k: nat)
    requires ValidRun(START, es) && Enabled(Exec(START, es), RolledBack(k))
    ensures var s := Exec(START, es);
            var s', t := Apply(s, RolledBack(k)), s.threads[k].turn;
            && t.id !in s'.c.inflight && k !in s'.threads
            && At(s'.h.ended, t.route) == At(s.h.ended, t.route) + [t.id]
            && (if s.threads[k].advance then
                  PassesOn(s, s', t.route) && At(s'.h.dropped, t.route) == At(s.h.dropped, t.route)
                else
                  && t.route !in s'.c.active && t.route !in s'.c.pending
                  && At(s'.h.dispatched, t.route) == At(s.h.dispatched, t.route)
                  && At(s'.h.dropped, t.route) == At(s.h.dropped, t.route) + Ids(PendingOf(s.c, t.route))
                  && forall w :: w in PendingOf(s.c, t.route) ==> w.id !in s'.c.inflight)
            && forall q :: q != t.route ==> RouteUntouched(s, s', q)
  {
    ReachableStates(es);
    var s := Exec(START, es);
    assert Holder(s.c, s.threads[k].turn);
    HeadRoute(s.c, s.threads[k].turn.route);
    assert k < s.clock;
    RolledBackRoute(s, k);
  }

  lemma RolledBackRoute(s: Sys, k: nat)
    requires k in s.threads && s.threads[k].Failing? && k < s.clock && Owns(s.c, s.threads[k].turn)
    requires PendingOf(s.c, s.threads[k].turn.route) != [] ==>
               PendingOf(s.c, s.threads[k].turn.route)[0].route == s.threads[k].turn.route
    ensures var s', t := DoRollback(s, k, s.threads[k].turn, s.threads[k].advance), s.threads[k].turn;
            && t.id !in s'.c.inflight && k !in s'.threads
            && At(s'.h.ended, t.route) == At(s.h.ended, t.route) + [t.id]
            && (if s.threads[k].advance then
                  PassesOn(s, s', t.route) && At(s'.h.dropped, t.route) == At(s.h.dropped, t.route)
                else
                  && t.route !in s'.c.active && t.route !in s'.c.pending
                  && At(s'.h.dispatched, t.route) == At(s.h.dispatched, t.route)
                  && At(s'.h.dropped, t.route) == At(s.h.dropped, t.route) + Ids(PendingOf(s.c, t.route))
                  && forall w :: w in PendingOf(s.c, t.route) ==> w.id !in s'.c.inflight)
            && forall q :: q != t.route ==> RouteUntouched(s, s', q)
  {
  }

  /** Discarding drops exactly what waits on the route; the active turn goes on. */
  lemma DiscardDropsWaiting(es: seq<Event>, r: Route)
    requires ValidRun(START, es)
    ensures var s := Exec(START, es);
            var s' := Apply(s, Discarded(r));
            && PendingOf(s'.c, r) == [] && ActiveOf(s'.c, r) == ActiveOf(s.c, r)
            && At(s'.h.dropped, r) == At(s.h.dropped, r) + Ids(PendingOf(s.c, r))
            && (forall x :: x in s'.c.inflight <==> x in s.c.inflight && x !in Ids(PendingOf(s.c, r)))
            && forall q :: q != r ==> RouteUntouched(s, s', q)
  {
    var waiting := PendingOf(Exec(START, es).c, r);
    forall x
      ensures x in IdSet(waiting) <==> x in Ids(waiting)
    {
      if x in Ids(waiting) {
        var i :| 0 <= i < |waiting| && Ids(waiting)[i] == x;
        assert waiting[i] in waiting;
      }
      if x in IdSet(waiting) {
        var w :| w in waiting && w.id == x;
        var i :| 0 <= i < |waiting| && waiting[i] == w;
        assert Ids(waiting)[i] == x;
      }
    }
  }

  /** The report of a delivered turn that the IM layer controls takes the control away and completes it. */
  lemma ReportsComplete(es: seq<Event>, r: Route, id: Id)
    requires ValidRun(START, es) && Enabled(Exec(START, es), Delivered(r, id))
    ensures var s := Exec(START, es);
            var s' := Apply(s, Delivered(r, id));
            r in s.im.controls && s.im.controls[r].id == id ==>
              && r !in s'.im.controls && s'.c == s.c
              && s.clock in s'.threads && s'.threads[s.clock] == Completing(r, id)
              && forall q :: q != r && q in s.im.controls ==>
                   q in s'.im.controls && s'.im.controls[q] == s.im.controls[q]
  {
  }

  /** A dispatch in a current generation installs the control of its turn and goes on to publish it. */
  lemma DispatchesInstall(es: seq<Event>, k: nat)
    requires ValidRun(START, es) && Enabled(Exec(START, es), Entered(k))
    ensures var s := Exec(START, es);
            var s', t := Apply(s, Entered(k)), s.threads[k].turn;
            if !s.im.closed && t.generation == s.im.generation then
              && t.route in s'.im.controls && s'.im.controls[t.route].id == t.id
              && k in s'.threads && s'.threads[k].Publishing? && s'.threads[k].turn == t
            else s'.im == s.im && k in s'.threads && s'.threads[k] == Failing(t, true)
  {
    ReachableStates(es);
    var s := Exec(START, es);
    forall r | r in s.im.controls
      ensures r != s.threads[k].turn.route
    {
      assert Compatible(r, s.im.controls[r], s.threads[k]);
    }
  }

  /** A publication that failed takes its own control away again, and only that one. */
  lemma FailedPublicationsUninstall(es: seq<Event>, k: nat)
    requires ValidRun(START, es) && Enabled(Exec(START, es), Unwound(k))
    ensures var s := Exec(START, es);
            var s', t := Apply(s, Unwound(k)), s.threads[k].turn;
            && t.route !in s'.im.controls
            && (forall q :: q != t.route && q in s.im.controls ==>
                  q in s'.im.controls && s'.im.controls[q] == s.im.controls[q])
            && k in s'.threads && s'.threads[k] == Failing(t, s.threads[k].advance)
  {
    ReachableStates(es);
    var s := Exec(START, es);
    var t := s.threads[k].turn;
    if t.route in s.im.controls {
      assert Compatible(t.route, s.im.controls[t.route], s.threads[k]);
    }
  }

  /** The IM layer's generation counts its closes and starts; it is closed after a close until a start. */
  ghost function Changes(es: seq<Event>): nat {
    if es == [] then 0 else (if es[0].ImClosed? || es[0].ImStarted? then 1 else 0) + Changes(es[1..])
  }

  ghost function ClosedAfter(es: seq<Event>, closed: bool): bool {
    if es == [] then closed
    else ClosedAfter(es[1..], if es[0].ImClosed? then true else if es[0].ImStarted? then false else closed)
  }

  lemma StepGeneration(s: Sys, e: Event)
    requires Enabled(s, e)
    ensures Apply(s, e).im.generation == s.im.generation + if e.ImClosed? || e.ImStarted? then 1 else 0
    ensures Apply(s, e).im.closed == if e.ImClosed? then true else if e.ImStarted? then false else s.im.closed
  {
  }

  lemma {:induction false} GenerationCounts(s: Sys, es: seq<Event>)
    requires ValidRun(s, es)
    ensures Exec(s, es).im.generation == s.im.generation + Changes(es)
    ensures Exec(s, es).im.closed == ClosedAfter(es, s.im.closed)
    decreases |es|
  {
    if es != [] {
      StepGeneration(s, es[0]);
      GenerationCounts(Apply(s, es[0]), es[1..]);
    }
  }

  // ---- blocks ----

  /** A block is granted exactly when the coordinator is open and no matching route is active, waiting or
      controlled at its two checks. */
  lemma BlocksAreGranted(es: seq<Event>, k: nat, token: Token)
    requires ValidRun(START, es) && Enabled(Exec(START, es), ReserveCommitted(k, token))
    ensures var s := Exec(START, es);
            var s', m := Apply(s, ReserveCommitted(k, token)), s.threads[k].matcher;
            if !s.c.closed && forall r :: r in s.c.active || r in s.c.pending ==> !m(r) then
              token in s'.c.blocks && s'.c.blocks[token] == m
            else s'.c == s.c
  {
  }

  lemma ReservationsStart(es: seq<Event>, m: RouteMatcher)
    requires ValidRun(START, es) && Enabled(Exec(START, es), ReserveChecked(m))
    ensures var s := Exec(START, es);
            var s' := Apply(s, ReserveChecked(m));
            if forall r :: r in s.im.controls ==> !m(r) then
              s.clock in s'.threads && s'.threads[s.clock] == Reserving(m)
            else s' == s
  {
  }

  /** A released block is gone, and no other one. */
  lemma ReleasesFree(es: seq<Event>, token: Token)
    requires ValidRun(START, es)
    ensures var s := Exec(START, es);
            var s' := Apply(s, Released(token));
            && token !in s'.c.blocks
            && forall other :: other != token && other in s.c.blocks ==>
                 other in s'.c.blocks && s'.c.blocks[other] == s.c.blocks[other]
  {
  }

  // ---- nobody is forgotten ----

  /** Someone will free the route: a task works on it, or its turn's delivery is awaited. */
  ghost predicate Attended(s: Sys, r: Route) {
    || r in s.im.controls
    || exists k :: k in s.threads && (
         Unfinishing(s.threads[k], r) || (s.threads[k].Completing? && s.threads[k].route == r))
  }

  ghost predicate AllAttended(s: Sys) {
    forall r :: r in s.c.active ==> Attended(s, r)
  }

  /** From its installation on, an unfinished turn has a control. */
  predicate NeedsControl(th: Thread) {
    th.Publishing? || th.Unwinding? || th.InBus? || th.Running?
  }

  ghost predicate Controlled(s: Sys) {
    forall k :: k in s.threads && NeedsControl(s.threads[k]) ==> s.threads[k].turn.route in s.im.controls
  }

  /** A task that attends its route. */
  predicate Attends(th: Thread, r: Route) {
    Unfinishing(th, r) || (th.Completing? && th.route == r)
  }

  /** What attends a route after an event that leaves its control and its attending task. */
  lemma StillAttended(s: Sys, s': Sys, r: Route)
    requires Attended(s, r) && (r in s.im.controls ==> Attended(s', r))
    requires forall k :: k in s.threads && Attends(s.threads[k], r) ==> k in s'.threads && Attends(s'.threads[k], r)
    ensures Attended(s', r)
  {
    if r !in s.im.controls {
      var k :| k in s.threads && Attends(s.threads[k], r);
      assert k in s'.threads && Attends(s'.threads[k], r);
    }
  }

  /** The active routes do not change, no control goes, and tasks attend what they did. */
  lemma CalmKeepsAttended(s: Sys, s': Sys)
    requires AllAttended(s)
    requires forall r :: r in s'.c.active ==> r in s.c.active
    requires forall r :: r in s.im.controls ==> r in s'.im.controls
    requires forall k, r :: k in s.threads && Attends(s.threads[k], r) ==> k in s'.threads && Attends(s'.threads[k], r)
    ensures AllAttended(s')
  {
    forall r | r in s'.c.active
      ensures Attended(s', r)
    {
      StillAttended(s, s', r);
    }
  }

  lemma SubmitKeepsAttended(s: Sys, t: Turn)
    requires Inv(s) && AllAttended(s) && Controlled(s)
    ensures AllAttended(DoSubmit(s, t)) && Controlled(DoSubmit(s, t))
  {
    var s' := DoSubmit(s, t);
    forall r | r in s'.c.active
      ensures Attended(s', r)
    {
      if r in s.c.active {
        StillAttended(s, s', r);
      } else {
        assert s.clock in s'.threads && Attends(s'.threads[s.clock], r);
      }
    }
  }

  /** A route that passes on is attended by the new dispatch, or free. */
  lemma PassedOnIsAttended(s: Sys, s': Sys, r: Route, k: nat)
    requires PendingInv(s.c) && AllAttended(s) && Controlled(s) && PassesOn(s, s', r) && s'.im == s.im
    requires k in s.threads && forall q :: q != r ==> ActiveOf(s'.c, q) == ActiveOf(s.c, q)
    requires forall q :: q != r ==> !Attends(s.threads[k], q)
    requires forall j :: j in s.threads && j != k ==> j in s'.threads && s'.threads[j] == s.threads[j]
    requires forall j :: j in s'.threads && j != s.clock ==> j in s.threads && j != k && s'.threads[j] == s.threads[j]
    requires s.clock in s'.threads ==> s'.threads[s.clock].Starting?
    ensures AllAttended(s') && Controlled(s')
  {
    HeadRoute(s.c, r);
    forall q | q in s'.c.active
      ensures Attended(s', q)
    {
      if q == r {
        assert Attends(s'.threads[s.clock], r);
      } else {
        assert ActiveOf(s'.c, q) == ActiveOf(s.c, q);
        StillAttended(s, s', q);
      }
    }
  }

  lemma CompleteKeepsAttended(s: Sys, k: nat)
    requires Inv(s) && AllAttended(s) && Controlled(s) && k in s.threads && s.threads[k].Completing?
    ensures var s' := DoComplete(s, k, s.threads[k].route, s.threads[k].id); AllAttended(s') && Controlled(s')
  {
    HeadRoute(s.c, s.threads[k].route);
    CompletedRoute(s, k);
    PassedOnIsAttended(s, DoComplete(s, k, s.threads[k].route, s.threads[k].id), s.threads[k].route, k);
  }

  lemma RollbackKeepsAttended(s: Sys, k: nat)
    requires Inv(s) && AllAttended(s) && Controlled(s) && k in s.threads && s.threads[k].Failing?
    ensures var s' := DoRollback(s, k, s.threads[k].turn, s.threads[k].advance); AllAttended(s') && Controlled(s')
  {
    var s', r := DoRollback(s, k, s.threads[k].turn, s.threads[k].advance), s.threads[k].turn.route;
    assert Holder(s.c, s.threads[k].turn);
    HeadRoute(s.c, r);
    RolledBackRoute(s, k);
    if s.threads[k].advance {
      PassedOnIsAttended(s, s', r, k);
    } else {
      DroppedKeepsAttended(s, s', k);
    }
  }

  /** The task of a route that is freed goes. */
  lemma DroppedKeepsAttended(s: Sys, s': Sys, k: nat)
    requires AllAttended(s) && Controlled(s) && s'.im == s.im && k in s.threads && s.threads[k].Failing?
    requires s'.threads == s.threads - {k} && s.threads[k].turn.route !in s'.c.active
    requires forall q :: q in s'.c.active ==> q in s.c.active
    ensures AllAttended(s') && Controlled(s')
  {
    forall q | q in s'.c.active
      ensures Attended(s', q)
    {
      StillAttended(s, s', q);
    }
  }

  lemma FinishKeepsAttended(s: Sys, k: nat)
    requires AllAttended(s) && Controlled(s) && k in s.threads && s.threads[k].Running?
    ensures var s' := DoFinish(s, k, s.threads[k].turn); AllAttended(s') && Controlled(s')
    ensures AllAttended(Gone(s, k)) && Controlled(Gone(s, k))
  {
    var s' := DoFinish(s, k, s.threads[k].turn);
    assert NeedsControl(s.threads[k]);
    forall r | r in s.c.active
      ensures Attended(s', r) && Attended(Gone(s, k), r)
    {
      if r !in s.im.controls {
        assert s.threads[k].turn.route != r && !Attends(s.threads[k], r);
        var j :| j in s.threads && Attends(s.threads[j], r);
        assert j != k && j in s'.threads && Attends(s'.threads[j], r);
        assert j in Gone(s, k).threads && Attends(Gone(s, k).threads[j], r);
      }
    }
  }

  lemma DeliverKeepsAttended(s: Sys, r: Route, id: Id)
    requires Inv(s) && AllAttended(s) && Controlled(s) && !UnfinishedOn(s, r, id)
    ensures AllAttended(DoDeliver(s, r, id)) && Controlled(DoDeliver(s, r, id))
  {
    var s' := DoDeliver(s, r, id);
    if Holds(s.im, r, id) {
      DeliveredIsAlone(s, r, id);
      forall q | q in s'.c.active
        ensures Attended(s', q)
      {
        if q == r {
          assert s.clock in s'.threads && Attends(s'.threads[s.clock], r);
        } else {
          StillAttended(s, s', q);
        }
      }
      forall k | k in s'.threads && NeedsControl(s'.threads[k])
        ensures s'.threads[k].turn.route in s'.im.controls
      {
        assert k in s.threads && Unfinished(s.threads[k]);
      }
    }
  }

  lemma EnterKeepsAttended(s: Sys, k: nat)
    requires AllAttended(s) && Controlled(s) && k in s.threads && s.threads[k].Starting?
    ensures AllAttended(DoEnter(s, k, s.threads[k].turn)) && Controlled(DoEnter(s, k, s.threads[k].turn))
  {
    CalmKeepsAttended(s, DoEnter(s, k, s.threads[k].turn));
  }

  lemma UnwindKeepsAttended(s: Sys, k: nat)
    requires Inv(s) && AllAttended(s) && Controlled(s) && Enabled(s, Unwound(k))
    ensures AllAttended(Apply(s, Unwound(k))) && Controlled(Apply(s, Unwound(k)))
  {
    var s', t := Apply(s, Unwound(k)), s.threads[k].turn;
    forall r | r in s'.c.active
      ensures Attended(s', r)
    {
      if r == t.route {
        assert k in s'.threads && Attends(s'.threads[k], r);
      }
      StillAttended(s, s', r);
    }
    forall j | j in s'.threads && NeedsControl(s'.threads[j])
      ensures s'.threads[j].turn.route in s'.im.controls
    {
      assert j != k && j in s.threads && Unfinished(s.threads[j]);
    }
  }

  lemma RelabelKeepsAttended(s: Sys, k: nat, th: Thread)
    requires AllAttended(s) && Controlled(s) && k in s.threads && Unfinished(s.threads[k]) && Unfinished(th)
    requires th.turn == s.threads[k].turn && (NeedsControl(th) ==> NeedsControl(s.threads[k]))
    ensures AllAttended(Become(s, k, th)) && Controlled(Become(s, k, th))
  {
    CalmKeepsAttended(s, Become(s, k, th));
  }

  /** Tasks that attend nothing come and go. */
  lemma OtherKeepsAttended(s: Sys, e: Event)
    requires AllAttended(s) && Controlled(s) && Enabled(s, e) && forall k :: k in s.threads ==> k < s.clock
    requires e.Replied? || e.Discarded? || e.ReserveChecked? || e.ReserveCommitted? || e.Released? || e.ImStarted?
             || e.CloseBegun? || e.Reopened?
    ensures AllAttended(Apply(s, e)) && Controlled(Apply(s, e))
  {
    CalmKeepsAttended(s, Apply(s, e));
  }

  lemma StepKeepsAttended(s: Sys, e: Event)
    requires Inv(s) && AllAttended(s) && Controlled(s) && Enabled(s, e) && !e.ImClosed?
    ensures AllAttended(Apply(s, e)) && Controlled(Apply(s, e))
  {
    match e {
      case Submitted(t) => SubmitKeepsAttended(s, t);
      case Entered(k) => EnterKeepsAttended(s, k);
      case StartCancelled(k) => RelabelKeepsAttended(s, k, Failing(s.threads[k].turn, false));
      case Published(k) => RelabelKeepsAttended(s, k, InBus(s.threads[k].turn));
      case PublishFailed(k, cancelled) =>
        RelabelKeepsAttended(s, k, Unwinding(s.threads[k].turn, s.threads[k].stamp, !cancelled));
      case Unwound(k) => UnwindKeepsAttended(s, k);
      case RolledBack(k) => RollbackKeepsAttended(s, k);
      case Consumed(k) => RelabelKeepsAttended(s, k, Running(s.threads[k].turn));
      case Finished(k) => FinishKeepsAttended(s, k);
      case RunCancelled(k) => FinishKeepsAttended(s, k);
      case Delivered(r, id) => DeliverKeepsAttended(s, r, id);
      case Completed(k) => CompleteKeepsAttended(s, k);
      case _ => OtherKeepsAttended(s, e);
    }
  }

  lemma {:induction false} RunKeepsAttended(s: Sys, es: seq<Event>)
    requires Inv(s) && AllAttended(s) && Controlled(s) && ValidRun(s, es) && ImClosed !in es
    ensures AllAttended(Exec(s, es))
    decreases |es|
  {
    if es != [] {
      assert es[0] in es;
      StepKeepsInv(s, es[0]);
      StepKeepsAttended(s, es[0]);
      RunKeepsAttended(Apply(s, es[0]), es[1..]);
    }
  }

  /** While the IM layer is not closed, no accepted turn is ever forgotten: every route that is active, and so
      every route on which turns wait, has a task at work on it or a turn whose delivery is awaited. */
  lemma NoRouteIsForgotten(es: seq<Event>, r: Route)
    requires ValidRun(START, es) && ImClosed !in es
    requires r in Exec(START, es).c.active || r in Exec(START, es).c.pending
    ensures Attended(Exec(START, es), r)
  {
    ReachableStates(es);
    assert Inv(START);
    RunKeepsAttended(START, es);
  }
}
