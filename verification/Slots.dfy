/** The execution slots of turns. A turn takes a permit when it enters and gives one back when it leaves;
    a command-line turn also gives its permit back while it waits for an approval. */
module Slots {
  import opened Options

  type TurnId(==, !new)
  type ApprovalId(==, !new)

  /** Where the code that waits for an approval is: not there yet, at the decision, or at the slot. */
  datatype Place = Created | Waiting | Acquiring

  datatype Approval = Approval(decision: Option<bool>, place: Place)

  /** `bound` and `held` are the turn control's slot fields. */
  datatype Turn = Turn(bound: bool, held: bool, approvals: map<ApprovalId, Approval>)

  // ---- the sections of one turn's control; a semaphore is its count of free permits ----

  function Bind(t: Turn): Turn {
    t.(bound := true, held := true)
  }

  function Create(t: Turn, a: ApprovalId): Turn {
    t.(approvals := t.approvals[a := Approval(None, Created)])
  }

  predicate Releases(t: Turn) { t.bound && t.held }

  predicate Acquires(t: Turn) { t.bound && !t.held }

  function StartWait(t: Turn, a: ApprovalId): Turn
    requires a in t.approvals
  {
    t.(held := if Releases(t) then false else t.held, approvals := t.approvals[a := t.approvals[a].(place := Waiting)])
  }

  predicate Undecided(t: Turn, a: ApprovalId) {
    a in t.approvals && t.approvals[a].decision.None?
  }

  function Resolve(t: Turn, a: ApprovalId, approved: bool): Turn {
    if !Undecided(t, a) then t
    else t.(approvals := t.approvals[a := t.approvals[a].(decision := Some(approved))])
  }

  function Stop(t: Turn): Turn {
    t.(approvals := map a | a in t.approvals ::
         if t.approvals[a].decision.None? then t.approvals[a].(decision := Some(false)) else t.approvals[a])
  }

  /** The decision is there: the wait is over, unless the slot has to be acquired again. */
  function EndWait(t: Turn, a: ApprovalId): Turn
    requires a in t.approvals
  {
    t.(approvals := if Acquires(t) then t.approvals[a := t.approvals[a].(place := Acquiring)] else t.approvals - {a})
  }

  function TakeSlot(t: Turn, a: ApprovalId): Turn {
    t.(held := true, approvals := t.approvals - {a})
  }

  /** The wait for the semaphore is cancelled. */
  function GiveUp(t: Turn, a: ApprovalId): Turn {
    t.(approvals := t.approvals - {a})
  }

  class Semaphore {
    var free: nat

    constructor (limit: nat)
      ensures free == limit
    {
      free := limit;
    }

    method Release()
      modifies this
      ensures free == old(free) + 1
    {
      free := free + 1;
    }
  }

  /** A turn's control; its methods are the stretches between the points where it waits. */
  class CliTurnControl {
    var stopRequested: bool
    var semaphore: Semaphore?
    var held: bool
    var approvals: map<ApprovalId, Approval>

    ghost function State(): Turn
      reads this
    {
      Turn(semaphore != null, held, approvals)
    }

    constructor ()
      ensures State() == Turn(false, false, map[]) && !stopRequested
    {
      stopRequested, semaphore, held, approvals := false, null, false, map[];
    }

    method BindSlot(s: Semaphore)
      modifies this
      ensures State() == Bind(old(State())) && semaphore == s && stopRequested == old(stopRequested)
    {
      semaphore := s;
      held := true;
    }

    method CreateApproval(id: ApprovalId)
      modifies this
      ensures State() == Create(old(State()), id)
      ensures semaphore == old(semaphore) && stopRequested == old(stopRequested)
    {
      approvals := approvals[id := Approval(None, Created)];
    }

    method ReleaseSlot()
      modifies this, semaphore
      ensures semaphore == old(semaphore) && stopRequested == old(stopRequested) && approvals == old(approvals)
      ensures held == (old(held) && old(semaphore) == null)
      ensures semaphore != null ==>
        semaphore.free == old(semaphore.free) + if old(held) then 1 else 0
    {
      if semaphore != null && held {
        semaphore.Release();
        held := false;
      }
    }

    /** From the call of the wait up to the decision. */
    method WaitForDecision(id: ApprovalId)
      requires id in approvals
      modifies this, semaphore
      ensures State() == StartWait(old(State()), id)
      ensures semaphore == old(semaphore) && stopRequested == old(stopRequested)
      ensures semaphore != null ==>
        semaphore.free == old(semaphore.free) + if Releases(old(State())) then 1 else 0
    {
      ReleaseSlot();
      approvals := approvals[id := approvals[id].(place := Waiting)];
    }

    /** From the decision up to the end of the wait, or up to the semaphore: then `blocks`. */
    method AfterDecision(id: ApprovalId) returns (approved: bool, blocks: bool)
      requires id in approvals && approvals[id].decision.Some?
      modifies this
      ensures State() == EndWait(old(State()), id)
      ensures semaphore == old(semaphore) && stopRequested == old(stopRequested)
      ensures old(approvals)[id].decision == Some(approved) && blocks == Acquires(old(State()))
    {
      approved := approvals[id].decision.value;
      blocks := semaphore != null && !held;
      if blocks {
        approvals := approvals[id := approvals[id].(place := Acquiring)];
      } else {
        approvals := approvals - {id};
      }
    }

    /** The semaphore grants a permit. */
    method SlotGranted(id: ApprovalId)
      requires semaphore != null && semaphore.free > 0
      modifies this, semaphore
      ensures State() == TakeSlot(old(State()), id)
      ensures semaphore == old(semaphore) && semaphore.free == old(semaphore.free) - 1
      ensures stopRequested == old(stopRequested)
    {
      semaphore.free := semaphore.free - 1;
      held := true;
      approvals := approvals - {id};
    }

    method ResolveApproval(id: ApprovalId, approved: bool) returns (ok: bool)
      modifies this
      ensures State() == Resolve(old(State()), id, approved) && ok == Undecided(old(State()), id)
      ensures semaphore == old(semaphore) && stopRequested == old(stopRequested)
    {
      if id !in approvals || approvals[id].decision.Some? {
        return false;
      }
      approvals := approvals[id := approvals[id].(decision := Some(approved))];
      ok := true;
    }

    method StopTurn()
      modifies this
      ensures State() == Stop(old(State())) && stopRequested && semaphore == old(semaphore)
    {
      stopRequested := true;
      approvals := map a | a in approvals ::
        if approvals[a].decision.None? then approvals[a].(decision := Some(false)) else approvals[a];
    }
  }

  // ---- any number of turns over one semaphore ----

  /** `lost` counts the permits taken by a turn that already held one, `excess` those given back by a turn
      that held none. */
  datatype World = World(free: nat, turns: map<TurnId, Turn>, lost: nat, excess: nat)

  datatype Event =
    | Enter(turn: TurnId)
    | Binds(turn: TurnId)
    | Creates(turn: TurnId, approval: ApprovalId)
    | Waits(turn: TurnId, approval: ApprovalId)
    | Resolves(turn: TurnId, approval: ApprovalId, approved: bool)
    | Stops(turn: TurnId)
    | Decided(turn: TurnId, approval: ApprovalId)
    | Granted(turn: TurnId, approval: ApprovalId)
    | CancelledWaiting(turn: TurnId, approval: ApprovalId)
    | CancelledAcquiring(turn: TurnId, approval: ApprovalId)
    | Leaves(turn: TurnId)

  /** A turn leaves when nothing of it waits any more, its waits being over or cancelled. */
  ghost predicate Enabled(w: World, e: Event) {
    if e.Enter? then e.turn !in w.turns && w.free > 0
    else
      && e.turn in w.turns
      && var t := w.turns[e.turn];
         match e
         case Binds(_) => !t.bound && t.approvals == map[]
         case Creates(_, a) => a !in t.approvals
         case Waits(_, a) => a in t.approvals && t.approvals[a].place.Created?
         case Decided(_, a) => a in t.approvals && t.approvals[a].place.Waiting? && t.approvals[a].decision.Some?
         case Granted(_, a) => a in t.approvals && t.approvals[a].place.Acquiring? && w.free > 0
         case CancelledWaiting(_, a) => a in t.approvals && t.approvals[a].place.Waiting?
         case CancelledAcquiring(_, a) => a in t.approvals && t.approvals[a].place.Acquiring?
         case Leaves(_) => forall a :: a in t.approvals ==> t.approvals[a].place.Created?
         case _ => true
  }

  function Apply(w: World, e: Event): World
    requires Enabled(w, e)
  {
    if e.Enter? then w.(free := w.free - 1, turns := w.turns[e.turn := Turn(false, false, map[])])
    else
      var t := w.turns[e.turn];
      match e
      case Binds(_) => w.(turns := w.turns[e.turn := Bind(t)])
      case Creates(_, a) => w.(turns := w.turns[e.turn := Create(t, a)])
      case Waits(_, a) =>
        w.(free := w.free + (if Releases(t) then 1 else 0), turns := w.turns[e.turn := StartWait(t, a)])
      case Resolves(_, a, approved) => w.(turns := w.turns[e.turn := Resolve(t, a, approved)])
      case Stops(_) => w.(turns := w.turns[e.turn := Stop(t)])
      case Decided(_, a) => w.(turns := w.turns[e.turn := EndWait(t, a)])
      case Granted(_, a) =>
        w.(free := w.free - 1, turns := w.turns[e.turn := TakeSlot(t, a)],
           lost := w.lost + if t.held then 1 else 0)
      case CancelledWaiting(_, a) => w.(turns := w.turns[e.turn := EndWait(t, a)])
      case CancelledAcquiring(_, a) => w.(turns := w.turns[e.turn := GiveUp(t, a)])
      case Leaves(_) =>
        w.(free := w.free + 1, turns := w.turns - {e.turn}, excess := w.excess + if Executing(t) then 0 else 1)
  }

  /** The turns that are executing: an unbound turn always is. */
  predicate Executing(t: Turn) { t.bound ==> t.held }

  function Holders(turns: map<TurnId, Turn>): set<TurnId> {
    set id | id in turns && Executing(turns[id])
  }

  /** Only a bound turn holds a slot or comes to the semaphore. */
  ghost predicate TurnSane(t: Turn) {
    !t.bound ==> !t.held && forall a :: a in t.approvals ==> !t.approvals[a].place.Acquiring?
  }

  ghost predicate Inv(w: World, limit: nat) {
    && w.free + |Holders(w.turns)| + w.lost == limit + w.excess
    && forall id :: id in w.turns ==> TurnSane(w.turns[id])
  }

  /** Replacing one turn changes the number of executing turns by what changes for that turn. */
  lemma HoldersChange(turns: map<TurnId, Turn>, id: TurnId, t: Turn)
    requires id in turns
    ensures |Holders(turns[id := t])| + (if Executing(turns[id]) then 1 else 0)
         == |Holders(turns)| + if Executing(t) then 1 else 0
  {
    var rest := Holders(turns) - {id};
    assert Holders(turns) == if Executing(turns[id]) then rest + {id} else rest;
    assert Holders(turns[id := t]) == if Executing(t) then rest + {id} else rest;
  }

  lemma HoldersCome(turns: map<TurnId, Turn>, id: TurnId, t: Turn)
    requires id !in turns
    ensures |Holders(turns[id := t])| == |Holders(turns)| + if Executing(t) then 1 else 0
  {
    assert id !in Holders(turns);
    assert Holders(turns[id := t]) == if Executing(t) then Holders(turns) + {id} else Holders(turns);
  }

  lemma HoldersGo(turns: map<TurnId, Turn>, id: TurnId)
    requires id in turns
    ensures |Holders(turns - {id})| + (if Executing(turns[id]) then 1 else 0) == |Holders(turns)|
  {
    var rest := Holders(turns - {id});
    assert id !in rest;
    assert Holders(turns) == if Executing(turns[id]) then rest + {id} else rest;
  }

  lemma StepKeepsInv(w: World, e: Event, limit: nat)
    requires Inv(w, limit) && Enabled(w, e)
    ensures Inv(Apply(w, e), limit)
  {
    if e.Enter? {
      HoldersCome(w.turns, e.turn, Turn(false, false, map[]));
    } else if e.Leaves? {
      HoldersGo(w.turns, e.turn);
    } else {
      HoldersChange(w.turns, e.turn, Apply(w, e).turns[e.turn]);
    }
  }

  ghost predicate ValidRun(w: World, events: seq<Event>)
    decreases |events|
  {
    events == [] || (Enabled(w, events[0]) && ValidRun(Apply(w, events[0]), events[1..]))
  }

  ghost function Exec(w: World, events: seq<Event>): World
    requires ValidRun(w, events)
    decreases |events|
  {
    if events == [] then w else Exec(Apply(w, events[0]), events[1..])
  }

  function Start(limit: nat): World { World(limit, map[], 0, 0) }

  lemma {:induction false} RunKeepsInv(w: World, events: seq<Event>, limit: nat)
    requires Inv(w, limit) && ValidRun(w, events)
    ensures Inv(Exec(w, events), limit)
    decreases |events|
  {
    if events != [] {
      StepKeepsInv(w, events[0], limit);
      RunKeepsInv(Apply(w, events[0]), events[1..], limit);
    }
  }

  /** In every run, cancellations included: free permits, executing turns and lost permits add up to the
      limit and the permits given back in excess. */
  lemma PermitsAddUp(limit: nat, events: seq<Event>)
    requires ValidRun(Start(limit), events)
    ensures var w := Exec(Start(limit), events);
      && w.free + |Holders(w.turns)| + w.lost == limit + w.excess
      && (w.turns == map[] ==> w.free + w.lost == limit + w.excess)
  {
    assert Holders(map[]) == {};
    RunKeepsInv(Start(limit), events, limit);
  }

  /** No wait at the semaphore is cancelled. */
  predicate NoCancelledAcquire(events: seq<Event>) {
    forall e :: e in events ==> !e.CancelledAcquiring?
  }

  /** A bound turn without its slot has an approval on the way. */
  ghost predicate TurnOk(t: Turn) {
    t.bound && !t.held ==> exists a :: a in t.approvals && !t.approvals[a].place.Created?
  }

  lemma TurnKeeps(w: World, e: Event)
    requires Enabled(w, e) && !e.Enter? && !e.Leaves? && !e.CancelledAcquiring? && TurnOk(w.turns[e.turn])
    ensures TurnOk(Apply(w, e).turns[e.turn])
  {
    var t, t' := w.turns[e.turn], Apply(w, e).turns[e.turn];
    if e.Waits? {
      assert e.approval in t'.approvals && t'.approvals[e.approval].place.Waiting?;
    } else if t.bound && !t.held && !t'.held {
      var a :| a in t.approvals && !t.approvals[a].place.Created?;
      assert a in t'.approvals && !t'.approvals[a].place.Created?;
    }
  }

  /** Then no turn leaves without its slot. */
  lemma {:induction false} NothingInExcess(w: World, events: seq<Event>)
    requires ValidRun(w, events) && NoCancelledAcquire(events)
    requires forall id :: id in w.turns ==> TurnOk(w.turns[id])
    ensures Exec(w, events).excess == w.excess
    decreases |events|
  {
    if events != [] {
      var e, w' := events[0], Apply(w, events[0]);
      assert e in events;
      if !e.Enter? && !e.Leaves? {
        TurnKeeps(w, e);
      }
      forall id | id in w'.turns
        ensures TurnOk(w'.turns[id])
      {
      }
      NothingInExcess(w', events[1..]);
    }
  }

  /** The semaphore never grants a turn a permit while the turn's slot is held. */
  ghost predicate NeverGrantedTwice(w: World, events: seq<Event>)
    requires ValidRun(w, events)
    decreases |events|
  {
    events != [] ==>
      && !(events[0].Granted? && w.turns[events[0].turn].held)
      && NeverGrantedTwice(Apply(w, events[0]), events[1..])
  }

  lemma {:induction false} LostIffGrantedTwice(w: World, events: seq<Event>)
    requires ValidRun(w, events)
    ensures Exec(w, events).lost >= w.lost
    ensures Exec(w, events).lost == w.lost <==> NeverGrantedTwice(w, events)
    decreases |events|
  {
    if events != [] {
      LostIffGrantedTwice(Apply(w, events[0]), events[1..]);
    }
  }

  /** Unless a wait at the semaphore is cancelled, the permits are conserved at the end of a run if and only
      if no turn was granted a second one. */
  lemma ConservedIffNeverGrantedTwice(limit: nat, events: seq<Event>)
    requires ValidRun(Start(limit), events) && NoCancelledAcquire(events)
    ensures var w := Exec(Start(limit), events);
      w.free + |Holders(w.turns)| == limit <==> NeverGrantedTwice(Start(limit), events)
  {
    PermitsAddUp(limit, events);
    LostIffGrantedTwice(Start(limit), events);
    NothingInExcess(Start(limit), events);
  }

  /** A turn that is cancelled while it acquires its slot again gives back a permit that it does not hold. */
  lemma CancelledAcquireAddsAPermit(t: TurnId, a: ApprovalId)
    ensures exists events :: ValidRun(Start(1), events) && Exec(Start(1), events) == World(2, map[], 0, 1)
  {
    var last := [Resolves(t, a, true), Decided(t, a), CancelledAcquiring(t, a), Leaves(t)];
    CancelledEnd(t, a);
    OneWaits(t, a, last);
  }

  lemma OneWaits(t: TurnId, a: ApprovalId, rest: seq<Event>)
    requires ValidRun(One(1, t, true, false, map[a := Approval(None, Waiting)]), rest)
    ensures var waiting := One(1, t, true, false, map[a := Approval(None, Waiting)]);
      exists events :: ValidRun(Start(1), events) && Exec(Start(1), events) == Exec(waiting, rest)
  {
    OneUpdate(t, a);
    var w3 := One(0, t, true, true, map[a := Approval(None, Created)]);
    StepOne(w3, Waits(t, a), One(1, t, true, false, map[a := Approval(None, Waiting)]), rest);
    var e3 := [Waits(t, a)] + rest;
    var w2 := One(0, t, true, true, map[]);
    StepOne(w2, Creates(t, a), w3, e3);
    var e2 := [Creates(t, a)] + e3;
    var w1 := One(0, t, false, false, map[]);
    StepOne(w1, Binds(t), w2, e2);
    var e1 := [Binds(t)] + e2;
    StepOne(Start(1), Enter(t), w1, e1);
  }

  lemma CancelledEnd(t: TurnId, a: ApprovalId)
    ensures var w, last := One(1, t, true, false, map[a := Approval(None, Waiting)]),
                           [Resolves(t, a, true), Decided(t, a), CancelledAcquiring(t, a), Leaves(t)];
      ValidRun(w, last) && Exec(w, last) == World(2, map[], 0, 1)
  {
    OneUpdate(t, a);
    var w4 := One(1, t, true, false, map[]);
    assert Apply(w4, Leaves(t)) == World(2, map[], 0, 1);
    Then(w4, Leaves(t), []);
    assert [Leaves(t)] + [] == [Leaves(t)];
    var w3 := One(1, t, true, false, map[a := Approval(Some(true), Acquiring)]);
    StepOne(w3, CancelledAcquiring(t, a), w4, [Leaves(t)]);
    var w2 := One(1, t, true, false, map[a := Approval(Some(true), Waiting)]);
    var e3 := [CancelledAcquiring(t, a)] + [Leaves(t)];
    StepOne(w2, Decided(t, a), w3, e3);
    var w1 := One(1, t, true, false, map[a := Approval(None, Waiting)]);
    StepOne(w1, Resolves(t, a, true), w2, [Decided(t, a)] + e3);
    assert [Resolves(t, a, true)] + ([Decided(t, a)] + e3)
        == [Resolves(t, a, true), Decided(t, a), CancelledAcquiring(t, a), Leaves(t)];
  }

  lemma OneUpdate(t: TurnId, a: ApprovalId)
    ensures forall x: Approval, z :: map[a := x][a := z] == map[a := z]
    ensures forall x: Approval :: map[a := x] - {a} == map[]
    ensures forall u: Turn, v :: map[t := u][t := v] == map[t := v]
  {
  }

  function One(free: nat, t: TurnId, bound: bool, held: bool, approvals: map<ApprovalId, Approval>): World {
    World(free, map[t := Turn(bound, held, approvals)], 0, 0)
  }

  lemma StepOne(w: World, e: Event, w': World, events: seq<Event>)
    requires Enabled(w, e) && Apply(w, e) == w' && ValidRun(w', events)
    ensures ValidRun(w, [e] + events) && Exec(w, [e] + events) == Exec(w', events)
  {
    Then(w, e, events);
  }

  /** No approval comes to the semaphore while another one of the same turn is there. A turn that has one
      approval at a time meets this. */
  ghost predicate NoOverlap(w: World, events: seq<Event>)
    requires ValidRun(w, events)
    decreases |events|
  {
    events != [] ==>
      var e := events[0];
      && ((e.Decided? || e.CancelledWaiting?) && Acquires(w.turns[e.turn]) ==>
            forall b :: b in w.turns[e.turn].approvals ==> !w.turns[e.turn].approvals[b].place.Acquiring?)
      && NoOverlap(Apply(w, e), events[1..])
  }

  ghost predicate OneAtTheSemaphore(t: Turn) {
    forall a, b ::
      (a in t.approvals && b in t.approvals && t.approvals[a].place.Acquiring? && t.approvals[b].place.Acquiring?)
      ==> a == b && !t.held
  }

  lemma {:induction false} NothingIsLost(w: World, events: seq<Event>, limit: nat)
    requires Inv(w, limit) && ValidRun(w, events) && NoOverlap(w, events)
    requires forall id :: id in w.turns ==> OneAtTheSemaphore(w.turns[id])
    ensures Exec(w, events).lost == w.lost
    decreases |events|
  {
    if events != [] {
      var w' := Apply(w, events[0]);
      StepKeepsInv(w, events[0], limit);
      forall id | id in w'.turns
        ensures OneAtTheSemaphore(w'.turns[id])
      {
      }
      NothingIsLost(w', events[1..], limit);
    }
  }

  /** Without overlap the permits are conserved in every run, and all are free when no turn is left. */
  lemma PermitsAreConserved(limit: nat, events: seq<Event>)
    requires ValidRun(Start(limit), events) && NoOverlap(Start(limit), events) && NoCancelledAcquire(events)
    ensures var w := Exec(Start(limit), events);
      && w.free + |Holders(w.turns)| == limit
      && (w.turns == map[] ==> w.free == limit)
  {
    assert Holders(map[]) == {};
    PermitsAddUp(limit, events);
    NothingIsLost(Start(limit), events, limit);
    NothingInExcess(Start(limit), events);
  }

  /** Two approvals of one turn that are decided together: the turn takes two permits and gives back one. */
  lemma OverlapLosesAPermit(t: TurnId, a: ApprovalId, b: ApprovalId)
    requires a != b
    ensures exists events :: ValidRun(Start(2), events) && Exec(Start(2), events) == World(1, map[], 1, 0)
  {
    var last := [Granted(t, a), Granted(t, b), Leaves(t)];
    LastPart(t, a, b);
    MiddlePart(t, a, b, last);
    FirstPart(t, a, b, [Resolves(t, a, true), Resolves(t, b, true), Decided(t, a), Decided(t, b)] + last);
  }

  function Two(t: TurnId, a: ApprovalId, b: ApprovalId, x: Approval, y: Approval): World {
    World(2, map[t := Turn(true, false, map[a := x, b := y])], 0, 0)
  }

  lemma MapUpdates(t: TurnId, a: ApprovalId, b: ApprovalId)
    requires a != b
    ensures forall x: Approval, y, z :: map[a := x, b := y][a := z] == map[a := z, b := y]
    ensures forall x: Approval, y, z :: map[a := x, b := y][b := z] == map[a := x, b := z]
    ensures forall x: Approval, y :: map[a := x, b := y] - {a} == map[b := y]
    ensures forall u: Turn, v :: map[t := u][t := v] == map[t := v]
  {
  }

  lemma FirstPart(t: TurnId, a: ApprovalId, b: ApprovalId, rest: seq<Event>)
    requires a != b
    requires var wait := Approval(None, Waiting); ValidRun(Two(t, a, b, wait, wait), rest)
    ensures var wait := Approval(None, Waiting);
      exists events :: ValidRun(Start(2), events) && Exec(Start(2), events) == Exec(Two(t, a, b, wait, wait), rest)
  {
    MapUpdates(t, a, b);
    var made, wait := Approval(None, Created), Approval(None, Waiting);
    var e6 := rest;
    var w5 := World(2, map[t := Turn(true, false, map[a := wait, b := made])], 0, 0);
    assert Apply(w5, Waits(t, b)) == Two(t, a, b, wait, wait);
    Then(w5, Waits(t, b), e6);
    var e5 := [Waits(t, b)] + e6;
    var w4 := World(1, map[t := Turn(true, true, map[a := made, b := made])], 0, 0);
    assert Apply(w4, Waits(t, a)) == w5;
    Then(w4, Waits(t, a), e5);
    var e4 := [Waits(t, a)] + e5;
    var w3 := World(1, map[t := Turn(true, true, map[a := made])], 0, 0);
    assert Apply(w3, Creates(t, b)) == w4;
    Then(w3, Creates(t, b), e4);
    var e3 := [Creates(t, b)] + e4;
    var w2 := World(1, map[t := Turn(true, true, map[])], 0, 0);
    assert Apply(w2, Creates(t, a)) == w3;
    Then(w2, Creates(t, a), e3);
    var e2 := [Creates(t, a)] + e3;
    var w1 := World(1, map[t := Turn(false, false, map[])], 0, 0);
    assert Apply(w1, Binds(t)) == w2;
    Then(w1, Binds(t), e2);
    var e1 := [Binds(t)] + e2;
    assert Apply(Start(2), Enter(t)) == w1;
    Then(Start(2), Enter(t), e1);
  }

  lemma DecideBoth(t: TurnId, a: ApprovalId, b: ApprovalId)
    requires a != b
    ensures var free, busy := Approval(Some(true), Waiting), Approval(Some(true), Acquiring);
      && Enabled(Two(t, a, b, free, free), Decided(t, a)) && Enabled(Two(t, a, b, busy, free), Decided(t, b))
      && Apply(Two(t, a, b, free, free), Decided(t, a)) == Two(t, a, b, busy, free)
      && Apply(Two(t, a, b, busy, free), Decided(t, b)) == Two(t, a, b, busy, busy)
  {
    MapUpdates(t, a, b);
  }

  lemma ResolveBoth(t: TurnId, a: ApprovalId, b: ApprovalId)
    requires a != b
    ensures var wait, free := Approval(None, Waiting), Approval(Some(true), Waiting);
      && Enabled(Two(t, a, b, wait, wait), Resolves(t, a, true)) && Enabled(Two(t, a, b, free, wait), Resolves(t, b, true))
      && Apply(Two(t, a, b, wait, wait), Resolves(t, a, true)) == Two(t, a, b, free, wait)
      && Apply(Two(t, a, b, free, wait), Resolves(t, b, true)) == Two(t, a, b, free, free)
  {
    MapUpdates(t, a, b);
  }

  lemma TwoSteps(w: World, e: Event, w': World, f: Event, w'': World, rest: seq<Event>)
    requires Enabled(w, e) && Apply(w, e) == w' && Enabled(w', f) && Apply(w', f) == w'' && ValidRun(w'', rest)
    ensures ValidRun(w, [e, f] + rest) && Exec(w, [e, f] + rest) == Exec(w'', rest)
  {
    Then(w', f, rest);
    Then(w, e, [f] + rest);
    assert [e] + ([f] + rest) == [e, f] + rest;
  }

  lemma MiddlePart(t: TurnId, a: ApprovalId, b: ApprovalId, rest: seq<Event>)
    requires a != b
    requires var busy := Approval(Some(true), Acquiring); ValidRun(Two(t, a, b, busy, busy), rest)
    ensures var wait, busy := Approval(None, Waiting), Approval(Some(true), Acquiring);
      var all := [Resolves(t, a, true), Resolves(t, b, true), Decided(t, a), Decided(t, b)] + rest;
      ValidRun(Two(t, a, b, wait, wait), all)
      && Exec(Two(t, a, b, wait, wait), all) == Exec(Two(t, a, b, busy, busy), rest)
  {
    var wait, free, busy := Approval(None, Waiting), Approval(Some(true), Waiting), Approval(Some(true), Acquiring);
    var w1, w2, w3 := Two(t, a, b, wait, wait), Two(t, a, b, free, wait), Two(t, a, b, free, free);
    var w4, w5 := Two(t, a, b, busy, free), Two(t, a, b, busy, busy);
    DecideBoth(t, a, b);
    TwoSteps(w3, Decided(t, a), w4, Decided(t, b), w5, rest);
    ResolveBoth(t, a, b);
    TwoSteps(w1, Resolves(t, a, true), w2, Resolves(t, b, true), w3, [Decided(t, a), Decided(t, b)] + rest);
    assert [Resolves(t, a, true), Resolves(t, b, true)] + ([Decided(t, a), Decided(t, b)] + rest)
        == [Resolves(t, a, true), Resolves(t, b, true), Decided(t, a), Decided(t, b)] + rest;
  }

  lemma LastPart(t: TurnId, a: ApprovalId, b: ApprovalId)
    requires a != b
    ensures var w, last := Two(t, a, b, Approval(Some(true), Acquiring), Approval(Some(true), Acquiring)),
                           [Granted(t, a), Granted(t, b), Leaves(t)];
      ValidRun(w, last) && Exec(w, last) == World(1, map[], 1, 0)
  {
    MapUpdates(t, a, b);
    var busy := Approval(Some(true), Acquiring);
    var w := Two(t, a, b, busy, busy);
    var w1 := World(1, map[t := Turn(true, true, map[b := busy])], 0, 0);
    var w2 := World(0, map[t := Turn(true, true, map[])], 1, 0);
    assert Apply(w2, Leaves(t)) == World(1, map[], 1, 0);
    Then(w2, Leaves(t), []);
    assert Apply(w1, Granted(t, b)) == w2;
    Then(w1, Granted(t, b), [Leaves(t)]);
    assert Apply(w, Granted(t, a)) == w1;
    Then(w, Granted(t, a), [Granted(t, b)] + [Leaves(t)]);
    assert [Granted(t, a)] + ([Granted(t, b)] + [Leaves(t)]) == [Granted(t, a), Granted(t, b), Leaves(t)];
    assert [Leaves(t)] + [] == [Leaves(t)];
  }

  lemma Then(w: World, e: Event, events: seq<Event>)
    requires Enabled(w, e) && ValidRun(Apply(w, e), events)
    ensures ValidRun(w, [e] + events) && Exec(w, [e] + events) == Exec(Apply(w, e), events)
  {
    assert ([e] + events)[1..] == events;
  }
}
