/** The Gateway's turn coordinator: one active turn per route, a FIFO of waiting turns behind it,
    a bounded cache of finished request ids, and route blocks.

    Every section the source runs under its lock is one function on `Coord` (what the section
    means) and one method of `TurnCoordinator` (how the section does it, field by field). */
module GatewayTurns {
  import opened Options

  const TERMINAL_CACHE_LIMIT: nat := 2048

  /** A route key (principal, channel, conversation); routes are only ever compared. Session ids
      are assumed to be in bijection with route keys, so the key stands for both. */
  type Route(==, !new)

  /** A request id, only ever compared. */
  type Id(==, !new)

  /** The token of a route block. */
  type Token(==, !new)

  type RouteMatcher = Route -> bool

  /** An input together with its dispatch callback; the callback of the IM layer remembers the
      generation in which the input was accepted. */
  datatype Turn = Turn(id: Id, route: Route, generation: nat)

  datatype Coord = Coord(
    inflight: set<Id>,
    terminal: seq<Id>,
    active: map<Route, Id>,
    pending: map<Route, seq<Turn>>,
    blocks: map<Token, RouteMatcher>,
    closed: bool)

  const INITIAL := Coord({}, [], map[], map[], map[], false)

  datatype SubmitResult = ClosedError | Refused | Queued | DispatchNow

  datatype ReserveResult = ReserveClosedError | Busy | Granted

  // ---- shared vocabulary ----

  function ActiveOf(c: Coord, r: Route): Option<Id> {
    if r in c.active then Some(c.active[r]) else None
  }

  function PendingOf(c: Coord, r: Route): seq<Turn> {
    if r in c.pending then c.pending[r] else []
  }

  function Ids(ts: seq<Turn>): (ids: seq<Id>)
    ensures |ids| == |ts| && forall i :: 0 <= i < |ts| ==> ids[i] == ts[i].id
  {
    seq(|ts|, i requires 0 <= i < |ts| => ts[i].id)
  }

  function IdSet(ts: seq<Turn>): set<Id> {
    set t | t in ts :: t.id
  }

  predicate Blocked(blocks: map<Token, RouteMatcher>, r: Route) {
    exists token | token in blocks :: blocks[token](r)
  }

  function Without(ids: seq<Id>, id: Id): (rest: seq<Id>)
    ensures id !in rest && |rest| <= |ids|
    ensures forall x :: x in rest <==> x in ids && x != id
  {
    if ids == [] then []
    else if ids[0] == id then Without(ids[1..], id)
    else [ids[0]] + Without(ids[1..], id)
  }

  function Newest<T>(s: seq<T>, n: nat): seq<T> {
    if |s| <= n then s else s[|s| - n..]
  }

  // ---- the lock sections ----

  function Submit(c: Coord, t: Turn): (Coord, SubmitResult) {
    if c.closed then (c, ClosedError)
    else if Blocked(c.blocks, t.route) then (c, Refused)
    else if t.id in c.inflight || t.id in c.terminal then (c, Refused)
    else if t.route in c.active then
      (c.(inflight := c.inflight + {t.id},
          pending := c.pending[t.route := PendingOf(c, t.route) + [t]]), Queued)
    else
      (c.(inflight := c.inflight + {t.id}, active := c.active[t.route := t.id]), DispatchNow)
  }

  /** Hands the route to the oldest waiting turn, or frees it. */
  function Advance(c: Coord, r: Route): (Coord, Option<Turn>) {
    var waiting := PendingOf(c, r);
    if waiting == [] then
      (c.(active := c.active - {r}, pending := c.pending - {r}), None)
    else
      var rest := if |waiting| == 1 then c.pending - {r} else c.pending[r := waiting[1..]];
      (c.(active := c.active[r := waiting[0].id], pending := rest), Some(waiting[0]))
  }

  function Complete(c: Coord, r: Route, id: Id): (Coord, Option<Turn>) {
    if ActiveOf(c, r) != Some(id) then (c, None) else Advance(c, r)
  }

  function Discard(c: Coord, r: Route): Coord {
    c.(inflight := c.inflight - IdSet(PendingOf(c, r)), pending := c.pending - {r})
  }

  function Rollback(c: Coord, r: Route, id: Id, advance: bool): (Coord, Option<Turn>) {
    var c1 := c.(inflight := c.inflight - {id});
    if ActiveOf(c1, r) != Some(id) then (c1, None)
    else if advance && PendingOf(c1, r) != [] then Advance(c1, r)
    else
      var c2 := Discard(c1, r);
      (c2.(active := c2.active - {r}), None)
  }

  function Reserve(c: Coord, matcher: RouteMatcher, token: Token): (Coord, ReserveResult) {
    if c.closed then (c, ReserveClosedError)
    else if exists r | r in c.active.Keys + c.pending.Keys :: matcher(r) then (c, Busy)
    else (c.(blocks := c.blocks[token := matcher]), Granted)
  }

  function Release(c: Coord, token: Token): Coord {
    c.(blocks := c.blocks - {token})
  }

  function Remember(terminal: seq<Id>, id: Id): seq<Id> {
    Newest(Without(terminal, id) + [id], TERMINAL_CACHE_LIMIT)
  }

  function Finish(c: Coord, id: Id): Coord {
    c.(inflight := c.inflight - {id}, terminal := Remember(c.terminal, id))
  }

  function CloseClear(c: Coord): Coord {
    Coord({}, c.terminal, map[], map[], map[], true)
  }

  // ---- a chain of failing dispatches ----

  /** Runs dispatch after dispatch on one route while each of them fails: how many dispatches are
      attempted, and the coordinator that is left. */
  function FailingChain(c: Coord, t: Turn): (r: (nat, Coord))
    requires ActiveOf(c, t.route) == Some(t.id)
    requires forall w :: w in PendingOf(c, t.route) ==> w.route == t.route
    decreases |PendingOf(c, t.route)|
  {
    var (c1, next) := Rollback(c, t.route, t.id, true);
    if next == None then (1, c1)
    else
      var (n, last) := FailingChain(c1, next.value);
      (n + 1, last)
  }

  /** The recursion of dispatch and rollback ends: it tries each waiting turn once, and then the
      route is free and none of those ids is in flight; other routes are untouched. */
  lemma {:induction false} FailingChainEnds(c: Coord, t: Turn)
    requires ActiveOf(c, t.route) == Some(t.id)
    requires forall w :: w in PendingOf(c, t.route) ==> w.route == t.route
    ensures var (n, last) := FailingChain(c, t);
            && n == |PendingOf(c, t.route)| + 1
            && t.route !in last.active && t.route !in last.pending
            && last.inflight == c.inflight - {t.id} - IdSet(PendingOf(c, t.route))
            && last.active == c.active - {t.route}
            && last.pending == c.pending - {t.route}
    decreases |PendingOf(c, t.route)|
  {
    var waiting := PendingOf(c, t.route);
    var (c1, next) := Rollback(c, t.route, t.id, true);
    if waiting != [] {
      assert PendingOf(c1, t.route) == waiting[1..];
      FailingChainEnds(c1, waiting[0]);
      assert IdSet(waiting) == {waiting[0].id} + IdSet(waiting[1..]) by {
        assert waiting == [waiting[0]] + waiting[1..];
      }
    }
  }

  // ---- the coordinator object ----

  class TurnCoordinator {
    var inflight: set<Id>
    var terminal: seq<Id>
    var active: map<Route, Id>
    var pending: map<Route, seq<Turn>>
    var blocks: map<Token, RouteMatcher>
    var closed: bool

    ghost function View(): Coord
      reads this
    {
      Coord(inflight, terminal, active, pending, blocks, closed)
    }

    constructor ()
      ensures View() == INITIAL
    {
      inflight, terminal, active, pending, blocks, closed := {}, [], map[], map[], map[], false;
    }

    method SubmitSection(t: Turn) returns (result: SubmitResult)
      modifies this
      ensures (View(), result) == Submit(old(View()), t)
    {
      if closed {
        return ClosedError;
      }
      if exists token | token in blocks :: blocks[token](t.route) {
        return Refused;
      }
      if t.id in inflight || t.id in terminal {
        return Refused;
      }
      inflight := inflight + {t.id};
      if t.route in active {
        var queue := if t.route in pending then pending[t.route] else [];
        pending := pending[t.route := queue + [t]];
        return Queued;
      }
      active := active[t.route := t.id];
      return DispatchNow;
    }

    method CompleteSection(r: Route, id: Id) returns (next: Option<Turn>)
      modifies this
      ensures (View(), next) == Complete(old(View()), r, id)
    {
      if r !in active || active[r] != id {
        return None;
      }
      if r !in pending || pending[r] == [] {
        active := active - {r};
        pending := pending - {r};
        return None;
      }
      var queue := pending[r];
      var first := queue[0];
      queue := queue[1..];
      if queue == [] {
        pending := pending - {r};
      } else {
        pending := pending[r := queue];
      }
      active := active[r := first.id];
      return Some(first);
    }

    method RollbackSection(r: Route, id: Id, advance: bool) returns (next: Option<Turn>)
      modifies this
      ensures (View(), next) == Rollback(old(View()), r, id, advance)
    {
      inflight := inflight - {id};
      if r !in active || active[r] != id {
        return None;
      }
      if advance && r in pending && pending[r] != [] {
        var queue := pending[r];
        next := Some(queue[0]);
        active := active[r := queue[0].id];
        if |queue| == 1 {
          pending := pending - {r};
        } else {
          pending := pending[r := queue[1..]];
        }
        return;
      }
      active := active - {r};
      DiscardSection(r);
      next := None;
    }

    /** Drops the waiting turns of a route one by one. */
    method DiscardSection(r: Route)
      modifies this
      ensures View() == Discard(old(View()), r)
    {
      var dropped := if r in pending then pending[r] else [];
      pending := pending - {r};
      for i := 0 to |dropped|
        invariant inflight == old(inflight) - IdSet(dropped[..i])
        invariant terminal == old(terminal) && active == old(active) && blocks == old(blocks) && closed == old(closed)
        invariant pending == old(pending) - {r}
      {
        inflight := inflight - {dropped[i].id};
        assert dropped[..i + 1] == dropped[..i] + [dropped[i]];
      }
      assert dropped[..|dropped|] == dropped;
    }

    method ReserveSection(matcher: RouteMatcher, token: Token) returns (result: ReserveResult)
      modifies this
      ensures (View(), result) == Reserve(old(View()), matcher, token)
    {
      if closed {
        return ReserveClosedError;
      }
      if exists r | r in active.Keys + pending.Keys :: matcher(r) {
        return Busy;
      }
      blocks := blocks[token := matcher];
      return Granted;
    }

    method ReleaseSection(token: Token)
      modifies this
      ensures View() == Release(old(View()), token)
    {
      blocks := blocks - {token};
    }

    /** Records a finished turn and evicts the oldest ones beyond the limit. */
    method FinishSection(id: Id)
      modifies this
      ensures View() == Finish(old(View()), id)
    {
      inflight := inflight - {id};
      ghost var whole := Without(terminal, id) + [id];
      terminal := Without(terminal, id) + [id];
      while |terminal| > TERMINAL_CACHE_LIMIT
        invariant inflight == old(inflight) - {id}
        invariant active == old(active) && pending == old(pending) && blocks == old(blocks) && closed == old(closed)
        invariant |terminal| <= |whole| && terminal == whole[|whole| - |terminal|..]
        invariant |terminal| >= TERMINAL_CACHE_LIMIT || terminal == whole
      {
        terminal := terminal[1..];
      }
    }

    method CloseSection()
      modifies this
      ensures View() == CloseClear(old(View()))
    {
      closed := true;
      inflight, active, pending, blocks := {}, map[], map[], map[];
    }
  }
}
