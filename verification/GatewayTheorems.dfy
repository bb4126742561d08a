/** The guarantees of the Gateway, for every state that some run of the protocol reaches. */
module GatewayTheorems {
  import opened Options
  import opened GatewayTurns
  import opened ImChannel
  import opened GatewayProtocol
  import opened GatewayHistory

  /** FIFO: the ids dispatched on a route, then those still waiting there, are the accepted ids in
      order, with exactly as many missing as were dropped while waiting; none missing means equal. */
  lemma DispatchOrder(es: seq<Event>, r: Route)
    requires ValidRun(START, es)
    ensures var s := Exec(START, es);
            && IsSubseq(At(s.h.dispatched, r) + Ids(PendingOf(s.c, r)), At(s.h.accepted, r))
            && |At(s.h.dispatched, r)| + |PendingOf(s.c, r)| + |At(s.h.dropped, r)| == |At(s.h.accepted, r)|
            && (At(s.h.dropped, r) == [] ==>
                  At(s.h.dispatched, r) + Ids(PendingOf(s.c, r)) == At(s.h.accepted, r))
  {
    ReachableStates(es);
    var s := Exec(START, es);
    assert OrderAt(s, r);
    SubseqLonger(Line(s, r), At(s.h.accepted, r));
  }

  lemma DroppedGrows(s: Sys, e: Event, r: Route)
    requires Enabled(s, e)
    ensures |At(s.h.dropped, r)| <= |At(Apply(s, e).h.dropped, r)|
  {
    match e
    case Submitted(t) => SubmitDropsNothing(s, t);
    case RolledBack(k) => RollbackDropsMore(s, k, r);
    case Completed(k) => CompleteDropsNothing(s, k);
    case _ =>
  }

  lemma SubmitDropsNothing(s: Sys, t: Turn)
    ensures DoSubmit(s, t).h.dropped == s.h.dropped
  {
  }

  lemma CompleteDropsNothing(s: Sys, k: nat)
    requires k in s.threads && s.threads[k].Completing?
    ensures DoComplete(s, k, s.threads[k].route, s.threads[k].id).h.dropped == s.h.dropped
  {
  }

  lemma RollbackDropsMore(s: Sys, k: nat, r: Route)
    requires k in s.threads && s.threads[k].Failing?
    ensures |At(s.h.dropped, r)| <= |At(DoRollback(s, k, s.threads[k].turn, s.threads[k].advance).h.dropped, r)|
  {
  }

  lemma {:induction false} DroppedGrowsOverRuns(s: Sys, es: seq<Event>, r: Route)
    requires ValidRun(s, es)
    ensures |At(s.h.dropped, r)| <= |At(Exec(s, es).h.dropped, r)|
    decreases |es|
  {
    if es != [] {
      DroppedGrows(s, es[0], r);
      DroppedGrowsOverRuns(Apply(s, es[0]), es[1..], r);
    }
  }

  /** Dispatching never runs ahead of the inputs: over any further run, failing chains with inputs that
      arrive meanwhile included, a route sees at most as many new dispatches as turns were waiting there
      and were accepted there since. */
  lemma DispatchesAreBounded(es: seq<Event>, more: seq<Event>, r: Route)
    requires ValidRun(START, es) && ValidRun(Exec(START, es), more)
    ensures var s, s' := Exec(START, es), Exec(Exec(START, es), more);
            |At(s'.h.dispatched, r)| - |At(s.h.dispatched, r)|
              <= |PendingOf(s.c, r)| + |At(s'.h.accepted, r)| - |At(s.h.accepted, r)|
  {
    var s := Exec(START, es);
    ReachableStates(es);
    RunKeepsAll(s, more);
    DroppedGrowsOverRuns(s, more, r);
    assert OrderAt(s, r) && OrderAt(Exec(s, more), r);
  }

  /** A route's next turn is dispatched only after the one before was completed, rolled back or ended by a
      close. */
  lemma OneTurnAtATime(es: seq<Event>, r: Route)
    requires ValidRun(START, es)
    ensures var s := Exec(START, es);
            At(s.h.dispatched, r) == At(s.h.ended, r) + (if r in s.c.active then [s.c.active[r]] else [])
  {
    ReachableStates(es);
    assert OrderAt(Exec(START, es), r);
  }

  /** Every control belongs to the turn that is active on its route. */
  lemma ControlsAreActive(es: seq<Event>, r: Route)
    requires ValidRun(START, es)
    ensures var s := Exec(START, es);
            r in s.im.controls ==> r in s.c.active && s.c.active[r] == s.im.controls[r].id
  {
    ReachableStates(es);
  }

  /** A dispatch finds no control of another turn: it fails only when the IM layer was closed, or
      closed and started again, since its turn was accepted. */
  lemma NeverAlreadyRunning(es: seq<Event>, k: nat)
    requires ValidRun(START, es) && Enabled(Exec(START, es), Entered(k))
    ensures var s := Exec(START, es);
            var t, result := s.threads[k].turn, Install(s.im, s.threads[k].turn).1;
            && result != AlreadyRunningError
            && (result.GenerationError? <==> s.im.closed || t.generation != s.im.generation)
  {
    ReachableStates(es);
    var s := Exec(START, es);
    var t := s.threads[k].turn;
    assert Owns(s.c, t);
    forall r | r in s.im.controls
      ensures r != t.route
    {
      assert Compatible(r, s.im.controls[r], s.threads[k]);
    }
  }

  /** A delivery report for a turn that is not active on the route changes nothing, and neither
      does a second report for the same turn. */
  lemma StaleDeliveriesChangeNothing(es: seq<Event>, r: Route, id: Id)
    requires ValidRun(START, es) && Enabled(Exec(START, es), Delivered(r, id))
    ensures var s := Exec(START, es);
            && (ActiveOf(s.c, r) != Some(id) ==> Apply(s, Delivered(r, id)) == s)
            && var s' := Apply(s, Delivered(r, id));
               Enabled(s', Delivered(r, id)) && Apply(s', Delivered(r, id)) == s'
  {
    ReachableStates(es);
  }

  /** From the moment a route block is granted, no matching route is active, waiting or controlled,
      and no input is accepted there. */
  lemma BlockedRoutesAreIdle(es: seq<Event>, token: Token, t: Turn)
    requires ValidRun(START, es)
    requires var s := Exec(START, es); token in s.c.blocks && s.c.blocks[token](t.route)
    ensures var s := Exec(START, es);
            && t.route !in s.c.active && t.route !in s.c.pending && t.route !in s.im.controls
            && DoSubmit(s, t) == s
  {
    ReachableStates(es);
  }

  /** The block stays until it is released or the coordinator is closed. */
  lemma BlockStays(s: Sys, e: Event, token: Token)
    requires Enabled(s, e) && token in s.c.blocks && e != Released(token) && e != Reopened
    ensures token in Apply(s, e).c.blocks && Apply(s, e).c.blocks[token] == s.c.blocks[token]
  {
    match e
    case Submitted(t) => SubmitKeepsBlocks(s, t);
    case RolledBack(k) => RollbackKeepsBlocks(s.c, s.threads[k].turn, s.threads[k].advance);
    case Completed(k) => AdvanceKeepsBlocks(s.c, s.threads[k].route);
    case _ =>
  }

  lemma {:induction false} BlockStaysOverRuns(s: Sys, es: seq<Event>, token: Token)
    requires ValidRun(s, es) && token in s.c.blocks && Released(token) !in es && Reopened !in es
    ensures token in Exec(s, es).c.blocks && Exec(s, es).c.blocks[token] == s.c.blocks[token]
    decreases |es|
  {
    if es != [] {
      assert es[0] in es;
      BlockStays(s, es[0], token);
      BlockStaysOverRuns(Apply(s, es[0]), es[1..], token);
    }
  }

  /** From the grant of a block until its release or a close, whatever happens in between: its routes
      are neither active nor waiting nor controlled, and no input is accepted there. */
  lemma BlocksLast(es: seq<Event>, more: seq<Event>, token: Token, t: Turn)
    requires ValidRun(START, es) && ValidRun(Exec(START, es), more)
    requires token in Exec(START, es).c.blocks && Exec(START, es).c.blocks[token](t.route)
    requires Released(token) !in more && Reopened !in more
    ensures var s := Exec(Exec(START, es), more);
            && token in s.c.blocks
            && t.route !in s.c.active && t.route !in s.c.pending && t.route !in s.im.controls
            && DoSubmit(s, t) == s
  {
    ReachableStates(es);
    RunKeepsAll(Exec(START, es), more);
    BlockStaysOverRuns(Exec(START, es), more, token);
  }

  lemma AdvanceKeepsBlocks(c: Coord, r: Route)
    ensures Advance(c, r).0.blocks == c.blocks
  {
  }

  lemma SubmitKeepsBlocks(s: Sys, t: Turn)
    ensures DoSubmit(s, t).c.blocks == s.c.blocks
  {
  }

  lemma RollbackKeepsBlocks(c: Coord, t: Turn, advance: bool)
    ensures Rollback(c, t.route, t.id, advance).0.blocks == c.blocks
  {
    AdvanceKeepsBlocks(c.(inflight := c.inflight - {t.id}), t.route);
  }

  /** The coordinator's own idle report: nothing accepted is unfinished and no task is running. */
  ghost predicate GloballyIdle(s: Sys) {
    s.c.inflight == {} && forall k :: k in s.threads ==> !s.threads[k].Running? && !s.threads[k].Replying?
  }

  /** Idle means idle: no turn waits on any route, and no dispatch or run is under way. */
  lemma IdleMeansNothingWaits(es: seq<Event>)
    requires ValidRun(START, es) && GloballyIdle(Exec(START, es))
    ensures var s := Exec(START, es);
            s.c.pending == map[] && forall k :: k in s.threads ==> !Unfinished(s.threads[k])
  {
    ReachableStates(es);
    var s := Exec(START, es);
    forall r | r in s.c.pending
      ensures false
    {
      assert Waits(s.c, r, 0);
    }
  }

  // ---- when an id is accepted again ----

  /** The cache of finished turns is always exactly the last 2,048 distinct ids that finished. */
  lemma CacheIsNewestFinished(es: seq<Event>)
    requires ValidRun(START, es)
    ensures var s := Exec(START, es); s.c.terminal == Newest(Distinct(s.h.finished), TERMINAL_CACHE_LIMIT)
  {
    ReachableStates(es);
  }

  /** Where an id stands among the distinct finished ids: before exactly the distinct ids that
      finished after it. */
  lemma {:induction false} DistinctAfter(p: seq<Id>, x: Id, q: seq<Id>) returns (a: seq<Id>, b: seq<Id>)
    requires x !in q
    ensures Distinct(p + [x] + q) == a + [x] + b
    ensures forall y :: y in b <==> y in q
    decreases |q|
  {
    if q == [] {
      assert p + [x] + q == p + [x] && (p + [x])[..|p|] == p;
      a, b := Without(Distinct(p), x), [];
    } else {
      var front, y := q[..|q| - 1], q[|q| - 1];
      assert q == front + [y];
      assert p + [x] + q == (p + [x] + front) + [y];
      assert (p + [x] + q)[..|p + [x] + q| - 1] == p + [x] + front;
      var a0, b0 := DistinctAfter(p, x, front);
      WithoutParts(a0, x, b0, y);
      a, b := Without(a0, y), Without(b0, y) + [y];
      assert Without(a0, y) + [x] + Without(b0, y) + [y] == a + [x] + b;
    }
  }

  lemma WithoutParts(a: seq<Id>, x: Id, b: seq<Id>, y: Id)
    requires x != y
    ensures Without(a + [x] + b, y) == Without(a, y) + [x] + Without(b, y)
  {
    WithoutAppend(a + [x], b, y);
    WithoutAppend(a, [x], y);
  }

  function Elements(ids: seq<Id>): set<Id> {
    set y | y in ids
  }

  lemma {:induction false} CountDistinct(b: seq<Id>)
    requires NoRepeats(b)
    ensures |Elements(b)| == |b|
  {
    if b != [] {
      CountDistinct(b[1..]);
      assert Elements(b) == {b[0]} + Elements(b[1..]);
    }
  }

  lemma NewestKeeps(d: seq<Id>, n: nat)
    ensures forall j :: 0 <= j < |d| && |d| - n <= j ==> d[j] in Newest(d, n)
  {
    forall j | 0 <= j < |d| && |d| - n <= j
      ensures d[j] in Newest(d, n)
    {
      assert d[j] == Newest(d, n)[if |d| <= n then j else j - (|d| - n)];
    }
  }

  lemma {:induction false} LastOccurrence(s: seq<Id>, x: Id, from: nat) returns (i: nat)
    requires from <= |s| && x in s[from..]
    ensures from <= i < |s| && s[i] == x && x !in s[i + 1..]
    decreases |s|
  {
    if s[|s| - 1] == x {
      i := |s| - 1;
    } else {
      var front := s[..|s| - 1];
      assert s[from..] == front[from..] + [s[|s| - 1]];
      i := LastOccurrence(front, x, from);
      assert s[i + 1..] == front[i + 1..] + [s[|s| - 1]];
    }
  }

  /** `x` finished at some place of `f` from `start` on, and after that place come at least 2,048
      distinct other ids. */
  ghost predicate FinishedLongAgo(f: seq<Id>, start: nat, x: Id) {
    exists i ::
      && start <= i < |f| && f[i] == x && x !in f[i + 1..]
      && |Elements(f[i + 1..])| >= TERMINAL_CACHE_LIMIT
  }

  lemma NoRepeatsSuffix(a: seq<Id>, b: seq<Id>)
    requires NoRepeats(a + b)
    ensures NoRepeats(b)
  {
    assert forall j :: 0 <= j < |b| ==> b[j] == (a + b)[|a| + j];
  }

  lemma EvictedCount(p: seq<Id>, x: Id, q: seq<Id>)
    requires x !in q && x !in Newest(Distinct(p + [x] + q), TERMINAL_CACHE_LIMIT)
    ensures |Elements(q)| >= TERMINAL_CACHE_LIMIT
  {
    var a, b := DistinctAfter(p, x, q);
    var d := a + [x] + b;
    NewestKeeps(d, TERMINAL_CACHE_LIMIT);
    assert d[|a|] == x;
    DistinctFacts(p + [x] + q);
    NoRepeatsSuffix(a + [x], b);
    CountDistinct(b);
    assert Elements(b) == Elements(q);
  }

  lemma SplitAt(f: seq<Id>, i: nat)
    requires i < |f|
    ensures f == f[..i] + [f[i]] + f[i + 1..]
  {
  }

  lemma EvictedLongAgo(f: seq<Id>, start: nat, x: Id)
    requires start <= |f| && x in f[start..] && x !in Newest(Distinct(f), TERMINAL_CACHE_LIMIT)
    ensures FinishedLongAgo(f, start, x)
  {
    var i := LastOccurrence(f, x, start);
    SplitAt(f, i);
    EvictedCount(f[..i], x, f[i + 1..]);
  }

  /** An id that was accepted before is accepted again only if it was given up since (its dispatch
      rolled back, dropped while waiting, or in flight at a close), or it finished and after that at least
      2,048 other distinct turns finished. */
  lemma AcceptedAgain(es: seq<Event>, t: Turn, r: Route)
    requires ValidRun(START, es)
    requires var s := Exec(START, es);
             t.id in At(s.h.accepted, r) && Submit(s.c, t).1 in {Queued, DispatchNow}
    ensures var s := Exec(START, es);
            && t.id in s.h.since
            && (t.id in s.h.freed || FinishedLongAgo(s.h.finished, s.h.since[t.id], t.id))
  {
    ReachableStates(es);
    var s := Exec(START, es);
    if t.id !in s.h.freed {
      EvictedLongAgo(s.h.finished, s.h.since[t.id], t.id);
    }
  }
}
