/** What a turn learns and holds, over every run: the decision that its wait returns, and its slot. */
module SlotLaws {
  import opened Options
  import opened Slots

  // ---- the decision ----

  /** The decision of an approval after one more event: none when it is created, then the first resolution, or
      a denial if the turn is stopped before. */
  function NextDecision(d: Option<bool>, e: Event, turn: TurnId, a: ApprovalId): Option<bool> {
    match e
    case Creates(t, b) => if t == turn && b == a then None else d
    case Resolves(t, b, approved) => if t == turn && b == a && d.None? then Some(approved) else d
    case Stops(t) => if t == turn && d.None? then Some(false) else d
    case _ => d
  }

  function Decision(d: Option<bool>, events: seq<Event>, turn: TurnId, a: ApprovalId): Option<bool>
    decreases |events|
  {
    if events == [] then d else Decision(NextDecision(d, events[0], turn, a), events[1..], turn, a)
  }

  predicate Asked(w: World, turn: TurnId, a: ApprovalId) {
    turn in w.turns && a in w.turns[turn].approvals
  }

  lemma DecidedNext(w: World, e: Event, turn: TurnId, a: ApprovalId, d: Option<bool>)
    requires Enabled(w, e) && Asked(Apply(w, e), turn, a)
    requires Asked(w, turn, a) ==> w.turns[turn].approvals[a].decision == d
    ensures Apply(w, e).turns[turn].approvals[a].decision == NextDecision(d, e, turn, a)
  {
  }

  lemma {:induction false} DecidedSoFar(w: World, events: seq<Event>, turn: TurnId, a: ApprovalId, d: Option<bool>)
    requires ValidRun(w, events) && Asked(Exec(w, events), turn, a)
    requires Asked(w, turn, a) ==> w.turns[turn].approvals[a].decision == d
    ensures Exec(w, events).turns[turn].approvals[a].decision == Decision(d, events, turn, a)
    decreases |events|
  {
    if events != [] {
      var w', d' := Apply(w, events[0]), NextDecision(d, events[0], turn, a);
      if Asked(w', turn, a) {
        DecidedNext(w, events[0], turn, a, d);
      }
      DecidedSoFar(w', events[1..], turn, a, d');
    }
  }

  /** In every reachable state, the decision stored for an approval, which is the one that its wait returns, is
      the first resolution after its creation, or a denial if the turn was stopped before that. */
  lemma FirstDecisionCounts(limit: nat, events: seq<Event>, turn: TurnId, a: ApprovalId)
    requires ValidRun(Start(limit), events) && Asked(Exec(Start(limit), events), turn, a)
    ensures Exec(Start(limit), events).turns[turn].approvals[a].decision == Decision(None, events, turn, a)
  {
    DecidedSoFar(Start(limit), events, turn, a, None);
  }

  // ---- the slot ----

  /** A turn waits for one approval at a time. */
  ghost predicate OneWait(w: World, events: seq<Event>)
    requires ValidRun(w, events)
    decreases |events|
  {
    events != [] ==>
      && (events[0].Waits? ==> NoneWaits(w.turns[events[0].turn]))
      && OneWait(Apply(w, events[0]), events[1..])
  }

  ghost predicate NoneWaits(t: Turn) {
    forall a :: a in t.approvals ==> t.approvals[a].place.Created?
  }

  ghost predicate SlotFits(t: Turn) {
    && (forall a, b ::
          (a in t.approvals && b in t.approvals && !t.approvals[a].place.Created? && !t.approvals[b].place.Created?)
          ==> a == b)
    && (t.bound ==> (t.held <==> NoneWaits(t)))
    && (!t.bound ==> forall a :: a in t.approvals ==> !t.approvals[a].place.Acquiring?)
  }

  lemma SlotStillFits(w: World, e: Event)
    requires Enabled(w, e) && !e.Enter? && !e.Leaves? && !e.CancelledAcquiring? && SlotFits(w.turns[e.turn])
    requires e.Waits? ==> NoneWaits(w.turns[e.turn])
    ensures SlotFits(Apply(w, e).turns[e.turn])
  {
    var t, t' := w.turns[e.turn], Apply(w, e).turns[e.turn];
    match e
    case Binds(_) =>
    case Creates(_, a) => NoneWaitsWith(t, t', a);
    case Waits(_, a) => assert !t'.approvals[a].place.Created?;
    case Resolves(_, a, _) => SamePlaces(t, t');
    case Stops(_) => SamePlaces(t, t');
    case Granted(_, a) => assert NoneWaits(t');
    case Decided(_, a) => WaitEnds(t, a);
    case CancelledWaiting(_, a) => WaitEnds(t, a);
    case _ =>
  }

  lemma NoneWaitsWith(t: Turn, t': Turn, a: ApprovalId)
    requires SlotFits(t) && t' == Create(t, a) && a !in t.approvals
    ensures SlotFits(t')
  {
    assert NoneWaits(t) <==> NoneWaits(t') by {
      assert forall b :: b in t.approvals ==> b in t'.approvals && t'.approvals[b] == t.approvals[b];
    }
  }

  lemma SamePlaces(t: Turn, t': Turn)
    requires SlotFits(t) && t'.bound == t.bound && t'.held == t.held && t'.approvals.Keys == t.approvals.Keys
    requires forall a :: a in t.approvals ==> t'.approvals[a].place == t.approvals[a].place
    ensures SlotFits(t')
  {
  }

  lemma WaitEnds(t: Turn, a: ApprovalId)
    requires SlotFits(t) && a in t.approvals && t.approvals[a].place.Waiting?
    ensures SlotFits(EndWait(t, a))
  {
    var t' := EndWait(t, a);
    if t.bound {
      assert !NoneWaits(t);
      assert t'.approvals[a].place.Acquiring?;
    }
  }

  lemma {:induction false} SlotsFit(w: World, events: seq<Event>)
    requires ValidRun(w, events) && OneWait(w, events) && NoCancelledAcquire(events)
    requires forall id :: id in w.turns ==> SlotFits(w.turns[id])
    ensures forall id :: id in Exec(w, events).turns ==> SlotFits(Exec(w, events).turns[id])
    decreases |events|
  {
    if events != [] {
      var e, w' := events[0], Apply(w, events[0]);
      assert e in events;
      if !e.Enter? && !e.Leaves? {
        SlotStillFits(w, e);
      }
      forall id | id in w'.turns
        ensures SlotFits(w'.turns[id])
      {
      }
      SlotsFit(w', events[1..]);
    }
  }

  /** While a turn waits for one approval at a time, and no wait at the semaphore is cancelled: a turn that is
      bound to the semaphore holds its slot exactly when it waits for no approval and for no permit. */
  lemma SlotFollowsWaits(limit: nat, events: seq<Event>, id: TurnId)
    requires ValidRun(Start(limit), events) && OneWait(Start(limit), events) && NoCancelledAcquire(events)
    requires id in Exec(Start(limit), events).turns
    ensures var t := Exec(Start(limit), events).turns[id]; t.bound ==> (t.held <==> NoneWaits(t))
  {
    SlotsFit(Start(limit), events);
  }
}
