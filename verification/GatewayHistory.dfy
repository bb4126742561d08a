/** What every run of the Gateway protocol guarantees: order and conservation per route, the exact
    contents of the cache of finished turns, and when an id can be accepted again. */
module GatewayHistory {
  import opened Options
  import opened GatewayTurns
  import opened ImChannel
  import opened GatewayProtocol

  // ---- subsequences, matched from the right ----

  predicate IsSubseq(a: seq<Id>, b: seq<Id>) {
    a == [] || (b != [] && (
        if a[|a| - 1] == b[|b| - 1] then IsSubseq(a[..|a| - 1], b[..|b| - 1])
        else IsSubseq(a, b[..|b| - 1])))
  }

  lemma {:induction false} SubseqLonger(a: seq<Id>, b: seq<Id>)
    requires IsSubseq(a, b)
    ensures |a| <= |b| && (|a| == |b| ==> a == b)
    decreases |b|
  {
    if a != [] {
      var a', b' := a[..|a| - 1], b[..|b| - 1];
      if a[|a| - 1] == b[|b| - 1] {
        SubseqLonger(a', b');
        assert a == a' + [a[|a| - 1]] && b == b' + [b[|b| - 1]];
      } else {
        SubseqLonger(a, b');
      }
    }
  }

  /** A subsequence stays one when its last element goes. */
  lemma {:induction false} SubseqShorter(a: seq<Id>, b: seq<Id>)
    requires a != [] && IsSubseq(a, b)
    ensures IsSubseq(a[..|a| - 1], b)
    decreases |b|
  {
    var a', b' := a[..|a| - 1], b[..|b| - 1];
    if a' != [] {
      if a[|a| - 1] == b[|b| - 1] {
        SubseqShorter(a', b');
      } else {
        SubseqShorter(a, b');
      }
      if a'[|a'| - 1] == b[|b| - 1] && a[|a| - 1] != b[|b| - 1] {
        SubseqShorter(a', b');
      }
    }
  }

  lemma {:induction false} SubseqPrefix(a: seq<Id>, n: nat, b: seq<Id>)
    requires n <= |a| && IsSubseq(a, b)
    ensures IsSubseq(a[..n], b)
    decreases |a|
  {
    if n < |a| {
      SubseqShorter(a, b);
      assert a[..|a| - 1][..n] == a[..n];
      SubseqPrefix(a[..|a| - 1], n, b);
    } else {
      assert a[..n] == a;
    }
  }

  lemma SubseqGrow(a: seq<Id>, b: seq<Id>, x: Id)
    requires IsSubseq(a, b)
    ensures IsSubseq(a + [x], b + [x])
  {
    assert (a + [x])[..|a|] == a && (b + [x])[..|b|] == b;
  }

  // ---- order on each route ----

  function Line(s: Sys, r: Route): seq<Id> {
    At(s.h.dispatched, r) + Ids(PendingOf(s.c, r))
  }

  /** On route `r`: what was dispatched and then what still waits is a subsequence of what was
      accepted, missing exactly the dropped ids; and every dispatch but the current one has ended,
      in dispatch order. */
  ghost predicate OrderAt(s: Sys, r: Route) {
    && IsSubseq(Line(s, r), At(s.h.accepted, r))
    && |Line(s, r)| + |At(s.h.dropped, r)| == |At(s.h.accepted, r)|
    && At(s.h.dispatched, r) == At(s.h.ended, r) + Current(s.c, r)
  }

  ghost predicate OrderInv(s: Sys) {
    forall r :: OrderAt(s, r)
  }

  /** Nothing about route `r` differs between the two states. */
  ghost predicate SameRoute(s: Sys, s': Sys, r: Route) {
    && Line(s, r) == Line(s', r) && Current(s.c, r) == Current(s'.c, r)
    && At(s.h.accepted, r) == At(s'.h.accepted, r) && At(s.h.dropped, r) == At(s'.h.dropped, r)
    && At(s.h.dispatched, r) == At(s'.h.dispatched, r) && At(s.h.ended, r) == At(s'.h.ended, r)
  }

  lemma SameOrder(s: Sys, s': Sys, r: Route)
    requires OrderAt(s, r) && SameRoute(s, s', r)
    ensures OrderAt(s', r)
  {
  }

  /** Only route `r` has changed, and there the order holds. */
  lemma OneRoute(s: Sys, s': Sys, r: Route)
    requires OrderInv(s) && OrderAt(s', r)
    requires forall q :: q != r ==> SameRoute(s, s', q)
    ensures OrderInv(s')
  {
    forall q
      ensures OrderAt(s', q)
    {
      if q != r {
        assert OrderAt(s, q);
        SameOrder(s, s', q);
      }
    }
  }

  lemma LineGrows(s: Sys, s': Sys, r: Route, id: Id)
    requires OrderAt(s, r) && Line(s', r) == Line(s, r) + [id]
    requires At(s'.h.accepted, r) == At(s.h.accepted, r) + [id] && At(s'.h.dropped, r) == At(s.h.dropped, r)
    requires At(s'.h.dispatched, r) == At(s'.h.ended, r) + Current(s'.c, r)
    ensures OrderAt(s', r)
  {
    SubseqGrow(Line(s, r), At(s.h.accepted, r), id);
  }

  lemma IdsGrow(ts: seq<Turn>, t: Turn)
    ensures Ids(ts + [t]) == Ids(ts) + [t.id]
  {
  }

  lemma LogAt(m: map<Route, seq<Id>>, r: Route, ids: seq<Id>, q: Route)
    ensures At(Log(m, r, ids), q) == if q == r then At(m, r) + ids else At(m, q)
  {
  }

  /** What a queued input does to its route in the coordinator, and to the others. */
  lemma QueueShape(c: Coord, t: Turn, q: Route)
    requires Submit(c, t).1.Queued?
    ensures var c' := Submit(c, t).0;
            && PendingOf(c', t.route) == PendingOf(c, t.route) + [t] && Current(c', t.route) == Current(c, t.route)
            && (q != t.route ==> PendingOf(c', q) == PendingOf(c, q) && Current(c', q) == Current(c, q))
  {
  }

  lemma DispatchShape(c: Coord, t: Turn, q: Route)
    requires Submit(c, t).1.DispatchNow?
    ensures var c' := Submit(c, t).0;
            && PendingOf(c', t.route) == PendingOf(c, t.route)
            && Current(c, t.route) == [] && Current(c', t.route) == [t.id]
            && (q != t.route ==> PendingOf(c', q) == PendingOf(c, q) && Current(c', q) == Current(c, q))
  {
  }

  /** The history and the coordinator after an accepted input. */
  lemma SubmitParts(s: Sys, t: Turn)
    requires Submit(s.c, t).1.Queued? || Submit(s.c, t).1.DispatchNow?
    ensures var s' := DoSubmit(s, t);
            && s'.c == Submit(s.c, t).0
            && s'.h.accepted == Log(s.h.accepted, t.route, [t.id])
            && s'.h.dropped == s.h.dropped && s'.h.ended == s.h.ended
            && s'.h.dispatched ==
                 if Submit(s.c, t).1.Queued? then s.h.dispatched else Log(s.h.dispatched, t.route, [t.id])
  {
  }

  lemma QueuedOrderAt(s: Sys, t: Turn)
    requires OrderAt(s, t.route) && Submit(s.c, t).1.Queued?
    ensures OrderAt(DoSubmit(s, t), t.route)
  {
    var s', r := DoSubmit(s, t), t.route;
    SubmitParts(s, t);
    QueueShape(s.c, t, r);
    LogAt(s.h.accepted, r, [t.id], r);
    IdsGrow(PendingOf(s.c, r), t);
    assert Line(s', r) == Line(s, r) + [t.id];
    LineGrows(s, s', r, t.id);
  }

  lemma DispatchedOrderAt(s: Sys, t: Turn)
    requires OrderAt(s, t.route) && Submit(s.c, t).1.DispatchNow? && PendingOf(s.c, t.route) == []
    ensures OrderAt(DoSubmit(s, t), t.route)
  {
    var s', r := DoSubmit(s, t), t.route;
    SubmitParts(s, t);
    DispatchShape(s.c, t, r);
    LogAt(s.h.accepted, r, [t.id], r);
    LogAt(s.h.dispatched, r, [t.id], r);
    assert Line(s', r) == Line(s, r) + [t.id];
    LineGrows(s, s', r, t.id);
  }

  lemma SubmitLeaves(s: Sys, t: Turn, q: Route)
    requires Submit(s.c, t).1.Queued? || Submit(s.c, t).1.DispatchNow?
    requires q != t.route
    ensures SameRoute(s, DoSubmit(s, t), q)
  {
    SubmitParts(s, t);
    if Submit(s.c, t).1.Queued? {
      QueueShape(s.c, t, q);
    } else {
      DispatchShape(s.c, t, q);
      LogAt(s.h.dispatched, t.route, [t.id], q);
    }
    LogAt(s.h.accepted, t.route, [t.id], q);
  }

  lemma SubmitKeepsOrder(s: Sys, t: Turn)
    requires OrderInv(s) && (t.route in s.c.pending ==> t.route in s.c.active)
    ensures OrderInv(DoSubmit(s, t))
  {
    assert OrderAt(s, t.route);
    match Submit(s.c, t).1
    case Queued =>
      QueuedOrderAt(s, t);
      AcceptedKeepsOrder(s, t);
    case DispatchNow =>
      DispatchedOrderAt(s, t);
      AcceptedKeepsOrder(s, t);
    case _ =>
  }

  lemma AcceptedKeepsOrder(s: Sys, t: Turn)
    requires OrderInv(s) && OrderAt(DoSubmit(s, t), t.route)
    requires Submit(s.c, t).1.Queued? || Submit(s.c, t).1.DispatchNow?
    ensures OrderInv(DoSubmit(s, t))
  {
    var s' := DoSubmit(s, t);
    forall q | q != t.route
      ensures SameRoute(s, s', q)
    {
      SubmitLeaves(s, t, q);
    }
    OneRoute(s, s', t.route);
  }

  /** What `Advance` does to the waiting turns and the active id of its route. */
  lemma AdvanceShape(c: Coord, r: Route)
    requires r in c.active
    ensures var (c', next) := Advance(c, r);
            var waiting := PendingOf(c, r);
            if waiting == [] then
              next == None && PendingOf(c', r) == [] && Current(c', r) == []
            else
              next == Some(waiting[0]) && PendingOf(c', r) == waiting[1..] && Current(c', r) == [waiting[0].id]
  {
  }

  lemma SameLine(s: Sys, s': Sys, r: Route)
    requires OrderAt(s, r) && Line(s', r) == Line(s, r)
    requires At(s'.h.accepted, r) == At(s.h.accepted, r) && At(s'.h.dropped, r) == At(s.h.dropped, r)
    requires At(s'.h.dispatched, r) == At(s'.h.ended, r) + Current(s'.c, r)
    ensures OrderAt(s', r)
  {
  }

  lemma MovedLine(d: seq<Id>, waiting: seq<Turn>)
    requires waiting != []
    ensures (d + [waiting[0].id]) + Ids(waiting[1..]) == d + Ids(waiting)
  {
    assert Ids(waiting) == [waiting[0].id] + Ids(waiting[1..]);
  }

  lemma AdvanceOrderAt(s: Sys, r: Route, gone: set<Id>, h: History, k: nat)
    requires OrderAt(s, r) && r in s.c.active
    requires PendingOf(s.c, r) != [] ==> PendingOf(s.c, r)[0].route == r
    requires h.accepted == s.h.accepted && h.dispatched == s.h.dispatched
    requires At(h.ended, r) == At(s.h.ended, r) + [s.c.active[r]] && At(h.dropped, r) == At(s.h.dropped, r)
    ensures var (c, next) := Advance(s.c.(inflight := s.c.inflight - gone), r);
            OrderAt(Launch(Gone(s.(c := c, h := h), k), next), r)
  {
    AdvanceShape(s.c.(inflight := s.c.inflight - gone), r);
    var (c, next) := Advance(s.c.(inflight := s.c.inflight - gone), r);
    var s' := Launch(Gone(s.(c := c, h := h), k), next);
    var waiting := PendingOf(s.c, r);
    var d := At(s.h.dispatched, r);
    assert d == At(h.ended, r);
    if waiting == [] {
      assert s'.c == c && s'.h == h;
      assert Line(s', r) == Line(s, r);
    } else {
      MovedLine(d, waiting);
      assert s'.c == c;
      assert At(s'.h.dispatched, r) == d + [waiting[0].id];
    }
    SameLine(s, s', r);
  }

  /** A route handed to its next turn, or freed: the line of ids does not change. */
  lemma AdvanceKeepsOrder(s: Sys, r: Route, gone: set<Id>, h: History, k: nat)
    requires OrderInv(s) && r in s.c.active
    requires PendingOf(s.c, r) != [] ==> PendingOf(s.c, r)[0].route == r
    requires h.accepted == s.h.accepted && h.dispatched == s.h.dispatched
    requires h.ended == Log(s.h.ended, r, [s.c.active[r]])
    requires forall q :: At(h.dropped, q) == At(s.h.dropped, q)
    ensures var (c, next) := Advance(s.c.(inflight := s.c.inflight - gone), r);
            OrderInv(Launch(Gone(s.(c := c, h := h), k), next))
  {
    assert OrderAt(s, r);
    AdvanceOrderAt(s, r, gone, h, k);
    var (c, next) := Advance(s.c.(inflight := s.c.inflight - gone), r);
    var s' := Launch(Gone(s.(c := c, h := h), k), next);
    forall q | q != r
      ensures SameRoute(s, s', q)
    {
      AdvanceLeaves(s, r, gone, h, k, q);
    }
    OneRoute(s, s', r);
  }

  lemma AdvanceOther(c: Coord, r: Route, q: Route)
    requires q != r
    ensures PendingOf(Advance(c, r).0, q) == PendingOf(c, q) && Current(Advance(c, r).0, q) == Current(c, q)
  {
  }

  lemma LaunchOther(s: Sys, next: Option<Turn>, q: Route)
    requires next.Some? ==> next.value.route != q
    ensures var s' := Launch(s, next);
            s'.c == s.c && s'.h == s.h.(dispatched := s'.h.dispatched)
            && At(s'.h.dispatched, q) == At(s.h.dispatched, q)
  {
  }

  lemma AdvanceLeaves(s: Sys, r: Route, gone: set<Id>, h: History, k: nat, q: Route)
    requires q != r && h.accepted == s.h.accepted && h.dispatched == s.h.dispatched
    requires At(h.ended, q) == At(s.h.ended, q) && At(h.dropped, q) == At(s.h.dropped, q)
    requires PendingOf(s.c, r) != [] ==> PendingOf(s.c, r)[0].route == r
    ensures var (c, next) := Advance(s.c.(inflight := s.c.inflight - gone), r);
            SameRoute(s, Launch(Gone(s.(c := c, h := h), k), next), q)
  {
    var (c, next) := Advance(s.c.(inflight := s.c.inflight - gone), r);
    AdvanceOther(s.c.(inflight := s.c.inflight - gone), r, q);
    LaunchOther(Gone(s.(c := c, h := h), k), next, q);
  }

  lemma DropKeepsOrder(s: Sys, s': Sys, r: Route)
    requires OrderInv(s)
    requires forall q :: q != r ==> SameRoute(s, s', q)
    requires PendingOf(s'.c, r) == []
    requires s'.h.accepted == s.h.accepted && s'.h.dispatched == s.h.dispatched
    requires At(s'.h.dropped, r) == At(s.h.dropped, r) + Ids(PendingOf(s.c, r))
    requires At(s'.h.ended, r) + Current(s'.c, r) == At(s.h.ended, r) + Current(s.c, r)
    ensures OrderInv(s')
  {
    assert OrderAt(s, r);
    SubseqPrefix(Line(s, r), |At(s.h.dispatched, r)|, At(s.h.accepted, r));
    assert Line(s, r)[..|At(s.h.dispatched, r)|] == At(s.h.dispatched, r) == Line(s', r);
    OneRoute(s, s', r);
  }

  lemma RollbackKeepsOrder(s: Sys, k: nat)
    requires OrderInv(s) && k in s.threads && s.threads[k].Failing?
    requires Owns(s.c, s.threads[k].turn)
    requires PendingOf(s.c, s.threads[k].turn.route) != [] ==>
               PendingOf(s.c, s.threads[k].turn.route)[0].route == s.threads[k].turn.route
    ensures OrderInv(DoRollback(s, k, s.threads[k].turn, s.threads[k].advance))
  {
    var t, advance := s.threads[k].turn, s.threads[k].advance;
    var r := t.route;
    if advance && PendingOf(s.c, r) != [] {
      AdvanceKeepsOrder(s, r, {t.id}, RecordRollback(s, t, advance), k);
    } else {
      DropKeepsOrder(s, DoRollback(s, k, t, advance), r);
    }
  }

  lemma CompleteKeepsOrder(s: Sys, k: nat)
    requires OrderInv(s) && k in s.threads && s.threads[k].Completing?
    requires PendingOf(s.c, s.threads[k].route) != [] ==>
               PendingOf(s.c, s.threads[k].route)[0].route == s.threads[k].route
    ensures OrderInv(DoComplete(s, k, s.threads[k].route, s.threads[k].id))
  {
    var r, id := s.threads[k].route, s.threads[k].id;
    if ActiveOf(s.c, r) == Some(id) {
      assert s.c.(inflight := s.c.inflight - {}) == s.c;
      AdvanceKeepsOrder(s, r, {}, RecordEnded(s.h, s.c, r, id), k);
    } else {
      QuietKeepsOrder(s, DoComplete(s, k, r, id));
    }
  }

  lemma DiscardKeepsOrder(s: Sys, r: Route)
    requires OrderInv(s)
    ensures OrderInv(DoDiscard(s, r))
  {
    DropKeepsOrder(s, DoDiscard(s, r), r);
  }

  /** Events that touch no active, waiting or recorded id of a route. */
  lemma QuietKeepsOrder(s: Sys, s': Sys)
    requires OrderInv(s)
    requires s'.c.active == s.c.active && s'.c.pending == s.c.pending
    requires s'.h == s.h.(finished := s'.h.finished)
    ensures OrderInv(s')
  {
    forall q
      ensures OrderAt(s', q)
    {
      assert OrderAt(s, q);
      SameOrder(s, s', q);
    }
  }

  lemma ReopenKeepsOrder(s: Sys)
    requires OrderInv(s)
    ensures OrderInv(DoReopen(s))
  {
    var s' := DoReopen(s);
    forall q
      ensures OrderAt(s', q)
    {
      assert OrderAt(s, q);
      assert At(s'.h.dropped, q) == At(s.h.dropped, q) + Ids(PendingOf(s.c, q));
      assert At(s'.h.ended, q) == At(s.h.ended, q) + Current(s.c, q);
      SubseqPrefix(Line(s, q), |At(s.h.dispatched, q)|, At(s.h.accepted, q));
      assert Line(s, q)[..|At(s.h.dispatched, q)|] == At(s.h.dispatched, q) == Line(s', q);
    }
  }

  lemma HeadRoute(c: Coord, r: Route)
    requires PendingInv(c)
    ensures r in c.pending ==> r in c.active
    ensures PendingOf(c, r) != [] ==> PendingOf(c, r)[0].route == r
  {
    assert PendingOf(c, r) != [] ==> Waits(c, r, 0);
  }

  lemma StepKeepsOrder(s: Sys, e: Event)
    requires PendingInv(s.c) && ThreadInv(s) && OrderInv(s) && Enabled(s, e)
    ensures OrderInv(Apply(s, e))
  {
    match e {
      case Submitted(t) => HeadRoute(s.c, t.route); SubmitKeepsOrder(s, t);
      case RolledBack(k) => HeadRoute(s.c, s.threads[k].turn.route); RollbackKeepsOrder(s, k);
      case Completed(k) => HeadRoute(s.c, s.threads[k].route); CompleteKeepsOrder(s, k);
      case Discarded(r) => DiscardKeepsOrder(s, r);
      case Reopened => ReopenKeepsOrder(s);
      case _ => QuietKeepsOrder(s, Apply(s, e));
    }
  }

  // ---- the cache of finished turns ----

  /** The distinct ids of a sequence, ordered by their last occurrence. */
  function Distinct(ids: seq<Id>): seq<Id> {
    if ids == [] then []
    else Without(Distinct(ids[..|ids| - 1]), ids[|ids| - 1]) + [ids[|ids| - 1]]
  }

  predicate NoRepeats(ids: seq<Id>) {
    forall i, j :: 0 <= i < j < |ids| ==> ids[i] != ids[j]
  }

  lemma {:induction false} WithoutAppend(a: seq<Id>, b: seq<Id>, x: Id)
    ensures Without(a + b, x) == Without(a, x) + Without(b, x)
  {
    if a == [] {
      assert a + b == b;
    } else {
      assert (a + b)[1..] == a[1..] + b;
      WithoutAppend(a[1..], b, x);
    }
  }

  lemma {:induction false} WithoutAbsent(a: seq<Id>, x: Id)
    requires x !in a
    ensures Without(a, x) == a
  {
    if a != [] {
      WithoutAbsent(a[1..], x);
    }
  }

  lemma StandsAlone(a: seq<Id>, i: nat)
    requires i < |a| && NoRepeats(a)
    ensures a[i] !in a[..i] && a[i] !in a[i + 1..]
    ensures a == a[..i] + ([a[i]] + a[i + 1..])
  {
  }

  lemma WithoutSplit(front: seq<Id>, x: Id, back: seq<Id>)
    requires x !in front && x !in back
    ensures Without(front + ([x] + back), x) == front + back
  {
    WithoutAppend(front, [x] + back, x);
    WithoutAppend([x], back, x);
    WithoutAbsent(front, x);
    WithoutAbsent(back, x);
    assert Without([x], x) == [];
  }

  /** Removing an id from a sequence without repeats takes out the one place it stands at. */
  lemma WithoutAt(a: seq<Id>, i: nat)
    requires i < |a| && NoRepeats(a)
    ensures Without(a, a[i]) == a[..i] + a[i + 1..]
  {
    StandsAlone(a, i);
    WithoutSplit(a[..i], a[i], a[i + 1..]);
  }

  lemma FewerNoRepeats(a: seq<Id>, b: seq<Id>, x: Id)
    requires NoRepeats(a + [x] + b)
    ensures NoRepeats(a + b)
  {
    forall i, j | 0 <= i < j < |a + b|
      ensures (a + b)[i] != (a + b)[j]
    {
      var all := a + [x] + b;
      assert (a + b)[i] == all[if i < |a| then i else i + 1];
      assert (a + b)[j] == all[if j < |a| then j else j + 1];
    }
  }

  lemma WithoutNoRepeats(d: seq<Id>, x: Id)
    requires NoRepeats(d)
    ensures NoRepeats(Without(d, x))
  {
    if x in d {
      var i :| 0 <= i < |d| && d[i] == x;
      WithoutAt(d, i);
      assert d == d[..i] + [x] + d[i + 1..];
      FewerNoRepeats(d[..i], d[i + 1..], x);
    } else {
      WithoutAbsent(d, x);
    }
  }

  lemma {:induction false} DistinctFacts(ids: seq<Id>)
    ensures NoRepeats(Distinct(ids)) && forall x :: x in Distinct(ids) <==> x in ids
  {
    if ids != [] {
      var front, x := ids[..|ids| - 1], ids[|ids| - 1];
      DistinctFacts(front);
      assert ids == front + [x];
      WithoutNoRepeats(Distinct(front), x);
    }
  }

  lemma RememberInside(d: seq<Id>, from: nat, i: nat)
    requires NoRepeats(d) && from <= i < |d|
    ensures Without(d[from..], d[i]) == (d[..i] + d[i + 1..])[from..]
  {
    var kept := d[from..];
    assert kept[i - from] == d[i] && NoRepeats(kept);
    WithoutAt(kept, i - from);
    assert kept[..i - from] == d[from..i] && kept[i - from + 1..] == d[i + 1..];
    assert (d[..i] + d[i + 1..])[from..] == d[..i][from..] + d[i + 1..];
  }

  lemma RememberBefore(d: seq<Id>, from: nat, i: nat)
    requires NoRepeats(d) && i < from <= |d|
    ensures Without(d[from..], d[i]) == d[from..] == (d[..i] + d[i + 1..])[from - 1..]
  {
    WithoutAbsent(d[from..], d[i]);
  }

  lemma RememberedEnd(d: seq<Id>, from: nat, x: Id)
    requires NoRepeats(d) && from <= |d|
    ensures var a, b := Without(d[from..], x), Without(d, x);
      |a| <= |b| && a == b[|b| - |a|..] && |d| - from - 1 <= |a|
  {
    if x in d {
      var i :| 0 <= i < |d| && d[i] == x;
      WithoutAt(d, i);
      if i >= from {
        RememberInside(d, from, i);
      } else {
        RememberBefore(d, from, i);
      }
    } else {
      WithoutAbsent(d, x);
      WithoutAbsent(d[from..], x);
    }
  }

  /** Trimming first and then recording an id is the same as recording it in the whole list. */
  lemma RememberNewest(d: seq<Id>, x: Id)
    requires NoRepeats(d)
    ensures Remember(Newest(d, TERMINAL_CACHE_LIMIT), x)
            == Newest(Without(d, x) + [x], TERMINAL_CACHE_LIMIT)
  {
    var n := TERMINAL_CACHE_LIMIT;
    if |d| > n {
      var from := |d| - n;
      RememberedEnd(d, from, x);
      TrimTwice(Without(d[from..], x), Without(d, x), x, n);
    }
  }

  /** Two lists of which the first is the end of the second, long enough to be trimmed alike. */
  lemma TrimTwice(a: seq<Id>, b: seq<Id>, x: Id, n: nat)
    requires |a| <= |b| && a == b[|b| - |a|..] && (|a| + 1 >= n || |a| == |b|)
    ensures Newest(a + [x], n) == Newest(b + [x], n)
  {
  }

  /** The cache holds exactly the last 2,048 distinct finished ids, oldest first. */
  ghost predicate CacheInv(s: Sys) {
    s.c.terminal == Newest(Distinct(s.h.finished), TERMINAL_CACHE_LIMIT)
  }

  lemma FinishKeepsCache(s: Sys, k: nat)
    requires CacheInv(s) && k in s.threads && s.threads[k].Running?
    ensures CacheInv(DoFinish(s, k, s.threads[k].turn))
  {
    var x := s.threads[k].turn.id;
    DistinctFacts(s.h.finished);
    RememberNewest(Distinct(s.h.finished), x);
    assert (s.h.finished + [x])[..|s.h.finished|] == s.h.finished;
  }

  lemma StepKeepsCache(s: Sys, e: Event)
    requires CacheInv(s) && Enabled(s, e)
    ensures CacheInv(Apply(s, e))
  {
    match e
    case Finished(k) => FinishKeepsCache(s, k);
    case Submitted(t) => SubmitKeepsTerminal(s, t);
    case RolledBack(k) => RollbackKeepsTerminal(s, k);
    case Completed(k) => AdvanceKeepsTerminal(s.c, s.threads[k].route);
    case _ =>
  }

  lemma AdvanceKeepsTerminal(c: Coord, r: Route)
    ensures Advance(c, r).0.terminal == c.terminal
  {
  }

  lemma SubmitKeepsTerminal(s: Sys, t: Turn)
    ensures DoSubmit(s, t).c.terminal == s.c.terminal && DoSubmit(s, t).h.finished == s.h.finished
  {
  }

  lemma RollbackKeepsTerminal(s: Sys, k: nat)
    requires k in s.threads && s.threads[k].Failing?
    ensures var s' := DoRollback(s, k, s.threads[k].turn, s.threads[k].advance);
            s'.c.terminal == s.c.terminal && s'.h.finished == s.h.finished
  {
    var t := s.threads[k].turn;
    AdvanceKeepsTerminal(s.c.(inflight := s.c.inflight - {t.id}), t.route);
  }

  // ---- what becomes of an accepted id ----

  /** An id accepted once is in flight, was given up, or finished after it was last accepted. */
  ghost predicate LifeInv(s: Sys) {
    && (forall r, x :: x in At(s.h.accepted, r) ==> x in s.h.since)
    && (forall x :: x in s.h.since ==> s.h.since[x] <= |s.h.finished|)
    && (forall x :: x in s.h.since ==>
          x in s.c.inflight || x in s.h.freed || x in s.h.finished[s.h.since[x]..])
  }

  /** Ids that leave the in-flight set were given up, and nothing else changes. */
  lemma GivingUpKeepsLife(s: Sys, s': Sys)
    requires LifeInv(s)
    requires s'.h.accepted == s.h.accepted && s'.h.since == s.h.since && s'.h.finished == s.h.finished
    requires s.h.freed <= s'.h.freed && s.c.inflight - s'.c.inflight <= s'.h.freed
    ensures LifeInv(s')
  {
  }

  lemma SubmitKeepsLife(s: Sys, t: Turn)
    requires LifeInv(s)
    ensures LifeInv(DoSubmit(s, t))
  {
    var s' := DoSubmit(s, t);
    forall r, x | x in At(s'.h.accepted, r)
      ensures x in s'.h.since
    {
      assert x in At(s.h.accepted, r) || x == t.id;
    }
  }

  lemma FinishKeepsLife(s: Sys, k: nat)
    requires LifeInv(s) && k in s.threads && s.threads[k].Running?
    ensures LifeInv(DoFinish(s, k, s.threads[k].turn))
  {
    var id := s.threads[k].turn.id;
    forall x | x in s.h.since
      ensures (s.h.finished + [id])[s.h.since[x]..] == s.h.finished[s.h.since[x]..] + [id]
    {
    }
  }

  lemma AdvanceInflight(c: Coord, r: Route)
    ensures Advance(c, r).0.inflight == c.inflight
  {
  }

  lemma RollbackKeepsLife(s: Sys, k: nat)
    requires LifeInv(s) && k in s.threads && s.threads[k].Failing?
    ensures LifeInv(DoRollback(s, k, s.threads[k].turn, s.threads[k].advance))
  {
    var t, advance := s.threads[k].turn, s.threads[k].advance;
    var s' := DoRollback(s, k, t, advance);
    AdvanceInflight(s.c.(inflight := s.c.inflight - {t.id}), t.route);
    forall x | x in s.c.inflight - s'.c.inflight
      ensures x in s'.h.freed
    {
      if x != t.id {
        assert x in IdSet(PendingOf(s.c, t.route));
        assert x in Ids(PendingOf(s.c, t.route));
      }
    }
    GivingUpKeepsLife(s, s');
  }

  lemma DiscardKeepsLife(s: Sys, r: Route)
    requires LifeInv(s)
    ensures LifeInv(DoDiscard(s, r))
  {
    var s' := DoDiscard(s, r);
    forall x | x in s.c.inflight - s'.c.inflight
      ensures x in s'.h.freed
    {
      assert x in Ids(PendingOf(s.c, r));
    }
    GivingUpKeepsLife(s, s');
  }

  lemma StepKeepsLife(s: Sys, e: Event)
    requires LifeInv(s) && Enabled(s, e)
    ensures LifeInv(Apply(s, e))
  {
    match e {
      case Submitted(t) => SubmitKeepsLife(s, t);
      case Finished(k) => FinishKeepsLife(s, k);
      case RolledBack(k) => RollbackKeepsLife(s, k);
      case Discarded(r) => DiscardKeepsLife(s, r);
      case Completed(k) =>
        AdvanceInflight(s.c, s.threads[k].route);
        GivingUpKeepsLife(s, Apply(s, e));
      case _ => GivingUpKeepsLife(s, Apply(s, e));
    }
  }

  // ---- all runs ----

  ghost predicate AllInv(s: Sys) {
    Inv(s) && OrderInv(s) && CacheInv(s) && LifeInv(s)
  }

  lemma {:induction false} RunKeepsAll(s: Sys, es: seq<Event>)
    requires AllInv(s) && ValidRun(s, es)
    ensures AllInv(Exec(s, es))
    decreases |es|
  {
    if es != [] {
      var e := es[0];
      StepKeepsInv(s, e);
      StepKeepsOrder(s, e);
      StepKeepsCache(s, e);
      StepKeepsLife(s, e);
      RunKeepsAll(Apply(s, e), es[1..]);
    }
  }

  lemma ReachableStates(es: seq<Event>)
    requires ValidRun(START, es)
    ensures AllInv(Exec(START, es))
  {
    forall r
      ensures OrderAt(START, r)
    {
      assert Line(START, r) == [];
    }
    RunKeepsAll(START, es);
  }
}
