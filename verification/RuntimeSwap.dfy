/** The runtime supervisor: replacing the whole runtime between turns, with cancellation, failures
    and shutdown possible at every await. A runtime counts as closed once its close has begun. */
module RuntimeSwap {
  import opened Options

  type Revision(==, !new)

  /** Runtimes are numbered in the order of their creation; the initial one is 0. */
  type Runtime = nat

  /** A factory builds runtimes of one revision. */
  datatype Factory = Factory(revision: Revision)

  datatype State = Active | Pending | Applying | Failed

  /** Where the reload that holds the replace lock is suspended. */
  datatype Phase =
    | Idle
    | Making                          // building the candidate
    | Preparing(c: Runtime)
    | Starting(c: Runtime)
    | Activating(c: Runtime)
    | Discarding(c: Runtime)          // shutdown has begun: closing the candidate
    | Rejecting(c: Runtime)           // no longer idle: closing the candidate
    | ClosingOld(previous: Runtime)   // swapped: closing the replaced runtime
    | Cleanup(c: Runtime, cancelled: bool)

  /** How an await ends. */
  datatype Outcome = Ok | Raise | Cancel

  datatype Sup = Sup(
    state: State, runtime: Runtime, ready: bool, closing: bool,
    desired: Revision, active: Revision, applying: Revision,
    desiredFactory: Factory, factory: Factory,
    phase: Phase, created: nat, closed: set<Runtime>,
    before: Runtime, candidate: Option<Runtime>,    // of the latest reload: old runtime, candidate
    built: map<Runtime, Revision>,                  // what each runtime was built for
    callers: nat)                                   // reloads that were called and wait for the lock

  function Initial(rev: Revision): Sup {
    Sup(Active, 0, true, false, rev, rev, rev, Factory(rev), Factory(rev), Idle, 1, {}, 0, None, map[0 := rev], 0)
  }

  // ---- the stretches between awaits ----

  function Exit(s: Sup): Sup {
    s.(phase := Idle, ready := true)
  }

  function CloseCandidate(s: Sup, c: Runtime, next: Phase): Sup {
    s.(closed := s.closed + {c}, phase := next)
  }

  function Request(s: Sup, rev: Revision, idle: bool): Sup {
    if s.closing then s
    else if idle then s.(desired := rev, desiredFactory := Factory(rev), callers := s.callers + 1)
    else s.(desired := rev, desiredFactory := Factory(rev), state := Pending)
  }

  /** A turn has ended: a pending reload is called. */
  function NotifyIdle(s: Sup, idle: bool): Sup {
    if !s.closing && s.state.Pending? && idle then s.(callers := s.callers + 1) else s
  }

  /** A reload gets the replace lock. */
  function Begin(before: Sup, idle: bool): Sup
    requires before.callers > 0
  {
    var s := before.(callers := before.callers - 1);
    if s.closing then s
    else if !idle then s.(state := Pending)
    else s.(state := Applying, ready := false, applying := s.desired, factory := s.desiredFactory, phase := Making,
            before := s.runtime, candidate := None)
  }

  /** After the candidate exists and after each of its stages: give up on shutdown, or go on. */
  function Checked(s: Sup, c: Runtime, next: Phase): Sup {
    if s.closing then CloseCandidate(s, c, Discarding(c)) else s.(phase := next)
  }

  function CheckedIdle(s: Sup, c: Runtime, next: Phase, idle: bool): Sup {
    if s.closing then CloseCandidate(s, c, Discarding(c))
    else if !idle then CloseCandidate(s.(state := Pending), c, Rejecting(c))
    else s.(phase := next)
  }

  function Swap(s: Sup, c: Runtime): Sup {
    if s.closing then CloseCandidate(s, c, Discarding(c))
    else s.(runtime := c, active := s.applying,
            state := if s.desired == s.applying then Active else Pending,
            closed := s.closed + {s.runtime}, phase := ClosingOld(s.runtime))
  }

  function Cancelled(s: Sup): Sup {
    s.(state := if s.closing then Active else Failed)
  }

  /** A stage of the candidate raised or was cancelled: close the candidate. */
  function Broken(s: Sup, c: Runtime, cancelled: bool): Sup {
    CloseCandidate(if cancelled then s else s.(state := Failed), c, Cleanup(c, cancelled))
  }

  function Resume(s: Sup, o: Outcome, idle: bool): Sup {
    match s.phase
    case Idle => s
    case Making =>
      if o.Ok? then
        var c := s.created;
        CheckedIdle(s.(created := c + 1, candidate := Some(c), built := s.built[c := s.factory.revision]),
                    c, Preparing(c), idle)
      else if o.Raise? then Exit(s.(state := Failed))
      else Exit(Cancelled(s))
    case Preparing(c) => if o.Ok? then Checked(s, c, Starting(c)) else Broken(s, c, o.Cancel?)
    case Starting(c) => if o.Ok? then CheckedIdle(s, c, Activating(c), idle) else Broken(s, c, o.Cancel?)
    case Activating(c) => if o.Ok? then Swap(s, c) else Broken(s, c, o.Cancel?)
    case Discarding(c) => if o.Cancel? then Broken(s, c, true) else Exit(s.(state := Active))
    case Rejecting(c) => if o.Cancel? then Broken(s, c, true) else Exit(s)
    case ClosingOld(_) => if o.Cancel? then Exit(Cancelled(s)) else Exit(s)
    case Cleanup(c, cancelled) => if !o.Cancel? && cancelled then Exit(Cancelled(s)) else Exit(s)
  }

  // ---- turns and the supervisor together ----

  /** A turn as the idle probe sees it: from its acceptance to its end. */
  datatype Turn = Arrived | Waiting | Woken | Holding(r: Runtime)

  datatype Sys = Sys(sup: Sup, turns: map<nat, Turn>)

  datatype Event =
    | TurnArrives(t: nat)
    | TurnAcquires(t: nat)             // enters acquire_runtime
    | TurnResumes(t: nat)              // wakes up in it
    | TurnEnds(t: nat)
    | ReloadRequested(rev: Revision)
    | IdleNotified
    | ReloadBegins
    | ReloadResumes(o: Outcome)
    | ShutdownBegins

  predicate IdleProbe(s: Sys) {
    s.turns == map[]
  }

  predicate Enabled(s: Sys, e: Event) {
    match e
    case TurnArrives(t) => t !in s.turns
    case TurnAcquires(t) => t in s.turns && s.turns[t].Arrived?
    case TurnResumes(t) => t in s.turns && s.turns[t].Woken?
    case TurnEnds(t) => t in s.turns && (s.turns[t].Arrived? || s.turns[t].Holding?)
    case ReloadBegins => s.sup.phase.Idle? && s.sup.callers > 0
    case ReloadResumes(_) => !s.sup.phase.Idle?
    case _ => true
  }

  /** Setting the ready event wakes every turn that waits for it. */
  function Wake(before: Sup, s: Sys): Sys {
    if !before.ready && s.sup.ready
    then s.(turns := map t | t in s.turns :: if s.turns[t].Waiting? then Woken else s.turns[t])
    else s
  }

  function Apply(s: Sys, e: Event): Sys
    requires Enabled(s, e)
  {
    match e
    case TurnArrives(t) => s.(turns := s.turns[t := Arrived])
    case TurnAcquires(t) => s.(turns := s.turns[t := if s.sup.ready then Holding(s.sup.runtime) else Waiting])
    case TurnResumes(t) => s.(turns := s.turns[t := Holding(s.sup.runtime)])
    case TurnEnds(t) => s.(turns := s.turns - {t})
    case ReloadRequested(rev) => s.(sup := Request(s.sup, rev, IdleProbe(s)))
    case IdleNotified => s.(sup := NotifyIdle(s.sup, IdleProbe(s)))
    case ReloadBegins => s.(sup := Begin(s.sup, IdleProbe(s)))
    case ReloadResumes(o) => Wake(s.sup, s.(sup := Resume(s.sup, o, IdleProbe(s))))
    case ShutdownBegins => s.(sup := s.sup.(closing := true))
  }

  ghost predicate ValidRun(s: Sys, es: seq<Event>)
    decreases |es|
  {
    es == [] || (Enabled(s, es[0]) && ValidRun(Apply(s, es[0]), es[1..]))
  }

  ghost function Exec(s: Sys, es: seq<Event>): Sys
    requires ValidRun(s, es)
    decreases |es|
  {
    if es == [] then s else Exec(Apply(s, es[0]), es[1..])
  }

  // ---- the invariant ----

  /** The candidate while it is neither current nor being closed. */
  function LiveCandidate(p: Phase): Option<Runtime> {
    match p
    case Preparing(c) => Some(c)
    case Starting(c) => Some(c)
    case Activating(c) => Some(c)
    case _ => None
  }

  /** Of all runtimes ever created, exactly the current one and a live candidate are open. */
  ghost predicate OpenInv(s: Sup) {
    && s.runtime < s.created
    && (forall r :: r in s.closed ==> r < s.created)
    && (forall r: nat :: r < s.created ==>
          (r !in s.closed <==> r == s.runtime || LiveCandidate(s.phase) == Some(r)))
    && LiveCandidate(s.phase) != Some(s.runtime)
    && (s.phase.Discarding? || s.phase.Rejecting? || s.phase.Cleanup? ==> s.phase.c in s.closed)
    && (LiveCandidate(s.phase).Some? ==> LiveCandidate(s.phase).value < s.created)
  }

  /** The current runtime is the old one or the latest candidate. */
  ghost predicate ReloadInv(s: Sup) {
    && s.before < s.created
    && (s.candidate.Some? ==> s.candidate.value < s.created && s.candidate.value != s.before)
    && (s.runtime == s.before || s.candidate == Some(s.runtime))
    && (LiveCandidate(s.phase).Some? ==> LiveCandidate(s.phase) == s.candidate && s.runtime == s.before)
    && (s.phase.Making? ==> s.candidate.None?)
    && (s.phase.Discarding? || s.phase.Rejecting? || s.phase.Cleanup? ==>
          s.candidate == Some(s.phase.c) && s.runtime == s.before)
  }

  /** Turns hold only the current runtime; none holds or is about to take one during a reload, and
      none is left waiting outside one. */
  ghost predicate TurnInv(s: Sys) {
    && (s.sup.ready <==> s.sup.phase.Idle?)
    && (forall t :: t in s.turns && s.turns[t].Holding? ==> s.turns[t].r == s.sup.runtime)
    && (forall t :: t in s.turns && !s.sup.phase.Idle? ==> s.turns[t].Arrived? || s.turns[t].Waiting?)
    && (forall t :: t in s.turns && s.sup.phase.Idle? ==> !s.turns[t].Waiting?)
  }

  /** The reported revision is that of the current runtime; a live candidate is of the one applied. */
  ghost predicate RevisionInv(s: Sup) {
    && s.desiredFactory.revision == s.desired
    && (!s.phase.Idle? ==> s.factory.revision == s.applying)
    && (forall r :: r in s.built ==> r < s.created)
    && s.runtime in s.built && s.built[s.runtime] == s.active
    && (LiveCandidate(s.phase).Some? ==>
          LiveCandidate(s.phase).value in s.built && s.built[LiveCandidate(s.phase).value] == s.applying)
  }

  ghost predicate Inv(s: Sys) {
    OpenInv(s.sup) && ReloadInv(s.sup) && RevisionInv(s.sup) && TurnInv(s)
  }

  lemma MakingKeepsRevision(s: Sup, o: Outcome, idle: bool)
    requires RevisionInv(s) && s.phase.Making?
    ensures RevisionInv(Resume(s, o, idle))
  {
  }

  lemma StageKeepsRevision(s: Sup, o: Outcome, idle: bool)
    requires RevisionInv(s) && LiveCandidate(s.phase).Some?
    ensures RevisionInv(Resume(s, o, idle))
  {
  }

  lemma ClosingKeepsRevision(s: Sup, o: Outcome, idle: bool)
    requires RevisionInv(s) && !s.phase.Making? && LiveCandidate(s.phase).None?
    ensures RevisionInv(Resume(s, o, idle))
  {
  }

  lemma ResumeKeepsRevision(s: Sup, o: Outcome, idle: bool)
    requires RevisionInv(s)
    ensures RevisionInv(Resume(s, o, idle))
  {
    if s.phase.Making? {
      MakingKeepsRevision(s, o, idle);
    } else if LiveCandidate(s.phase).Some? {
      StageKeepsRevision(s, o, idle);
    } else {
      ClosingKeepsRevision(s, o, idle);
    }
  }

  lemma MakingKeepsOpen(s: Sup, o: Outcome, idle: bool)
    requires OpenInv(s) && s.phase.Making?
    ensures OpenInv(Resume(s, o, idle))
  {
  }

  lemma StageKeepsOpen(s: Sup, o: Outcome, idle: bool)
    requires OpenInv(s) && LiveCandidate(s.phase).Some?
    ensures OpenInv(Resume(s, o, idle))
  {
  }

  lemma ClosingKeepsOpen(s: Sup, o: Outcome, idle: bool)
    requires OpenInv(s) && !s.phase.Making? && LiveCandidate(s.phase).None?
    ensures OpenInv(Resume(s, o, idle))
  {
    if s.phase.Discarding? || s.phase.Rejecting? {
      assert s.closed + {s.phase.c} == s.closed;
    }
  }

  lemma ResumeKeepsOpen(s: Sup, o: Outcome, idle: bool)
    requires OpenInv(s)
    ensures OpenInv(Resume(s, o, idle))
  {
    if s.phase.Making? {
      MakingKeepsOpen(s, o, idle);
    } else if LiveCandidate(s.phase).Some? {
      StageKeepsOpen(s, o, idle);
    } else {
      ClosingKeepsOpen(s, o, idle);
    }
  }

  lemma ResumeKeepsReload(s: Sup, o: Outcome, idle: bool)
    requires ReloadInv(s) && LiveCandidate(s.phase) != Some(s.runtime)
    ensures ReloadInv(Resume(s, o, idle))
  {
  }

  lemma ResumeKeepsTurns(s: Sys, o: Outcome)
    requires TurnInv(s) && !s.sup.phase.Idle?
    ensures TurnInv(Apply(s, ReloadResumes(o)))
  {
    var sup := Resume(s.sup, o, IdleProbe(s));
    assert sup.ready <==> sup.phase.Idle?;
  }

  lemma StepKeepsInv(s: Sys, e: Event)
    requires Inv(s) && Enabled(s, e)
    ensures Inv(Apply(s, e))
  {
    if e.ReloadResumes? {
      ResumeKeepsOpen(s.sup, e.o, IdleProbe(s));
      ResumeKeepsReload(s.sup, e.o, IdleProbe(s));
      ResumeKeepsRevision(s.sup, e.o, IdleProbe(s));
      ResumeKeepsTurns(s, e.o);
    } else {
      OtherEventsKeepInv(s, e);
    }
  }

  lemma OtherEventsKeepInv(s: Sys, e: Event)
    requires Inv(s) && Enabled(s, e) && !e.ReloadResumes?
    ensures Inv(Apply(s, e))
  {
  }

  lemma {:induction false} RunKeepsInv(s: Sys, es: seq<Event>)
    requires Inv(s) && ValidRun(s, es)
    ensures Inv(Exec(s, es))
    decreases |es|
  {
    if es != [] {
      StepKeepsInv(s, es[0]);
      RunKeepsInv(Apply(s, es[0]), es[1..]);
    }
  }

  // ---- the guarantees ----

  /** No turn ever runs on a closed runtime. */
  lemma NoTurnOnAClosedRuntime(rev: Revision, es: seq<Event>, t: nat)
    requires ValidRun(Sys(Initial(rev), map[]), es)
    requires var s := Exec(Sys(Initial(rev), map[]), es); t in s.turns && s.turns[t].Holding?
    ensures var s := Exec(Sys(Initial(rev), map[]), es);
            s.turns[t].r == s.sup.runtime && s.turns[t].r !in s.sup.closed
  {
    RunKeepsInv(Sys(Initial(rev), map[]), es);
  }

  /** Only the commit of a reload changes the current runtime. */
  lemma OnlyCommitChanges(s: Sys, e: Event)
    requires Enabled(s, e) && Apply(s, e).sup.runtime != s.sup.runtime
    ensures s.sup.phase.Activating? && !s.sup.closing && Apply(s, e).sup == Swap(s.sup, s.sup.phase.c)
  {
  }

  /** When a replaced runtime's close begins, no turn holds any runtime at all. */
  lemma NoHolderAtTheSwap(rev: Revision, es: seq<Event>, o: Outcome)
    requires ValidRun(Sys(Initial(rev), map[]), es)
    requires var s := Exec(Sys(Initial(rev), map[]), es);
             Enabled(s, ReloadResumes(o)) && Apply(s, ReloadResumes(o)).sup.runtime != s.sup.runtime
    ensures var s := Exec(Sys(Initial(rev), map[]), es);
            && s.sup.runtime in Apply(s, ReloadResumes(o)).sup.closed
            && forall t :: t in s.turns ==> !s.turns[t].Holding? && !s.turns[t].Woken?
  {
    RunKeepsInv(Sys(Initial(rev), map[]), es);
    OnlyCommitChanges(Exec(Sys(Initial(rev), map[]), es), ReloadResumes(o));
  }

  /** Whenever no reload is under way, however the last one ended: exactly one runtime is open, it
      is the current one, it is the old runtime or the candidate of the last reload, the other one
      of the two is closed, and no turn is left waiting. */
  lemma EveryExitLeavesOneRuntime(rev: Revision, es: seq<Event>)
    requires ValidRun(Sys(Initial(rev), map[]), es)
    requires Exec(Sys(Initial(rev), map[]), es).sup.phase.Idle?
    ensures var s := Exec(Sys(Initial(rev), map[]), es);
            && s.sup.ready
            && (forall r: nat :: r < s.sup.created ==> (r !in s.sup.closed <==> r == s.sup.runtime))
            && (s.sup.runtime == s.sup.before || s.sup.candidate == Some(s.sup.runtime))
            && (s.sup.candidate.Some? ==> (s.sup.before in s.sup.closed <==> s.sup.candidate.value !in s.sup.closed))
            && forall t :: t in s.turns ==> !s.turns[t].Waiting?
  {
    RunKeepsInv(Sys(Initial(rev), map[]), es);
  }

  /** In every state, also during a reload and after failed or discarded ones, the revision reported as
      active is the one that the current runtime was built for. */
  lemma ReportedRevisionIsCurrent(rev: Revision, es: seq<Event>)
    requires ValidRun(Sys(Initial(rev), map[]), es)
    ensures var s := Exec(Sys(Initial(rev), map[]), es).sup;
            s.runtime in s.built && s.built[s.runtime] == s.active
  {
    RunKeepsInv(Sys(Initial(rev), map[]), es);
  }

  /** The current runtime changes only to the candidate that passed every stage, which was built for the
      revision then reported; unless another one was requested meanwhile, nothing is left pending. */
  lemma SwapIsToTheCandidate(rev: Revision, es: seq<Event>, e: Event)
    requires ValidRun(Sys(Initial(rev), map[]), es)
    requires var s := Exec(Sys(Initial(rev), map[]), es);
             Enabled(s, e) && Apply(s, e).sup.runtime != s.sup.runtime
    ensures var s := Exec(Sys(Initial(rev), map[]), es);
            var sup := Apply(s, e).sup;
            && s.sup.phase == Activating(sup.runtime) && !s.sup.closing
            && sup.runtime in s.sup.built && sup.active == s.sup.built[sup.runtime]
            && (sup.state.Active? <==> sup.desired == sup.active)
            && (sup.state.Pending? <==> sup.desired != sup.active)
  {
    RunKeepsInv(Sys(Initial(rev), map[]), es);
    OnlyCommitChanges(Exec(Sys(Initial(rev), map[]), es), e);
  }

  // ---- what was requested ----

  /** The revision of the last request before the shutdown, or `rev`. */
  ghost function LastRequested(es: seq<Event>, rev: Revision, closing: bool): Revision {
    if es == [] then rev
    else
      match es[0]
      case ReloadRequested(r) => LastRequested(es[1..], if closing then rev else r, closing)
      case ShutdownBegins => LastRequested(es[1..], rev, true)
      case _ => LastRequested(es[1..], rev, closing)
  }

  lemma ResumeKeepsDesired(s: Sup, o: Outcome, idle: bool)
    ensures Resume(s, o, idle).desired == s.desired && Resume(s, o, idle).closing == s.closing
  {
  }

  lemma StepDesires(s: Sys, e: Event)
    requires Enabled(s, e)
    ensures var s' := Apply(s, e).sup;
      && s'.desired == (if e.ReloadRequested? && !s.sup.closing then e.rev else s.sup.desired)
      && s'.closing == (s.sup.closing || e.ShutdownBegins?)
  {
    if e.ReloadResumes? {
      ResumeKeepsDesired(s.sup, e.o, IdleProbe(s));
    }
  }

  lemma {:induction false} DesiredIsRequested(s: Sys, es: seq<Event>)
    requires ValidRun(s, es)
    ensures Exec(s, es).sup.desired == LastRequested(es, s.sup.desired, s.sup.closing)
    decreases |es|
  {
    if es != [] {
      StepDesires(s, es[0]);
      DesiredIsRequested(Apply(s, es[0]), es[1..]);
    }
  }

  /** The reload aims at the last request, whenever that came. */
  lemma LastRequestIsDesired(rev: Revision, es: seq<Event>)
    requires ValidRun(Sys(Initial(rev), map[]), es)
    ensures Exec(Sys(Initial(rev), map[]), es).sup.desired == LastRequested(es, rev, false)
  {
    DesiredIsRequested(Sys(Initial(rev), map[]), es);
  }

  /** A swap leaves the supervisor active exactly when the new runtime was built for the last request, and
      pending otherwise. */
  lemma SwapMeetsTheLastRequest(rev: Revision, es: seq<Event>, e: Event)
    requires ValidRun(Sys(Initial(rev), map[]), es)
    requires var s := Exec(Sys(Initial(rev), map[]), es);
             Enabled(s, e) && Apply(s, e).sup.runtime != s.sup.runtime
    ensures var s := Exec(Sys(Initial(rev), map[]), es);
            var sup := Apply(s, e).sup;
            && sup.runtime in s.sup.built
            && sup.state == if s.sup.built[sup.runtime] == LastRequested(es, rev, false) then Active else Pending
  {
    SwapIsToTheCandidate(rev, es, e);
    LastRequestIsDesired(rev, es);
    OnlyCommitChanges(Exec(Sys(Initial(rev), map[]), es), e);
  }

  /** A supervisor that rests as active has applied what was desired. */
  ghost predicate RequestInv(s: Sup) {
    !s.closing ==>
      && (s.phase.Idle? || s.phase.ClosingOld? ==> s.state == Active ==> s.callers == 0 ==> s.desired == s.active)
      && (s.phase.Rejecting? ==> s.state == Pending)
      && (LiveCandidate(s.phase).Some? || s.phase.Making? ==> s.state == Applying || s.state == Pending)
      && (s.phase.Cleanup? ==> s.state != Active)
      && !s.phase.Discarding?
  }

  lemma ResumeKeepsRequest(s: Sup, o: Outcome, idle: bool)
    requires RequestInv(s) && !s.phase.Idle?
    ensures RequestInv(Resume(s, o, idle))
  {
  }

  lemma StepKeepsRequest(s: Sys, e: Event)
    requires RequestInv(s.sup) && Enabled(s, e)
    ensures RequestInv(Apply(s, e).sup)
  {
    if e.ReloadResumes? {
      ResumeKeepsRequest(s.sup, e.o, IdleProbe(s));
    }
  }

  lemma {:induction false} RunKeepsRequest(s: Sys, es: seq<Event>)
    requires RequestInv(s.sup) && ValidRun(s, es)
    ensures RequestInv(Exec(s, es).sup)
    decreases |es|
  {
    if es != [] {
      StepKeepsRequest(s, es[0]);
      RunKeepsRequest(Apply(s, es[0]), es[1..]);
    }
  }

  /** No request is forgotten: a supervisor that is not shut down, reports to be active and has no reload under
      way or called runs the revision of the last request. */
  lemma NoRequestIsForgotten(rev: Revision, es: seq<Event>)
    requires ValidRun(Sys(Initial(rev), map[]), es)
    requires var sup := Exec(Sys(Initial(rev), map[]), es).sup;
             !sup.closing && sup.phase.Idle? && sup.state == Active && sup.callers == 0
    ensures var sup := Exec(Sys(Initial(rev), map[]), es).sup;
            sup.runtime in sup.built && sup.built[sup.runtime] == LastRequested(es, rev, false)
  {
    RunKeepsRequest(Sys(Initial(rev), map[]), es);
    ReportedRevisionIsCurrent(rev, es);
    LastRequestIsDesired(rev, es);
  }

  /** When a pending supervisor becomes idle, a reload is called; one that was requested while idle is called
      at once. */
  lemma PendingIsTakenUp(s: Sys, rev: Revision)
    requires !s.sup.closing && IdleProbe(s)
    ensures s.sup.state == Pending ==> Apply(s, IdleNotified).sup.callers == s.sup.callers + 1
    ensures Apply(s, ReloadRequested(rev)).sup.callers == s.sup.callers + 1
  {
  }

  lemma OneStep(s: Sys, e: Event, es: seq<Event>)
    requires Enabled(s, e) && ValidRun(Apply(s, e), es)
    ensures ValidRun(s, [e] + es) && Exec(s, [e] + es) == Exec(Apply(s, e), es)
  {
    assert ([e] + es)[1..] == es;
  }

  /** The steps of a reload in which nothing goes wrong. */
  const SMOOTH: seq<Event> :=
    [ReloadBegins, ReloadResumes(Ok), ReloadResumes(Ok), ReloadResumes(Ok), ReloadResumes(Ok), ReloadResumes(Ok)]

  /** A reload for `rev` that started in the old runtime has come to `phase`, with no turn about. */
  ghost predicate Underway(s: Sys, phase: Phase, previous: Runtime, rev: Revision) {
    && s.turns == map[] && !s.sup.closing && s.sup.phase == phase
    && s.sup.runtime == previous && s.sup.desired == rev && s.sup.applying == rev
    && (LiveCandidate(phase).Some? ==>
          LiveCandidate(phase).value in s.sup.built && s.sup.built[LiveCandidate(phase).value] == rev)
  }

  lemma ReloadStarts(s: Sys)
    requires s.sup.phase.Idle? && s.sup.callers > 0 && !s.sup.closing && s.turns == map[] && RevisionInv(s.sup)
    ensures Enabled(s, ReloadBegins)
    ensures var s' := Apply(s, ReloadBegins);
      Underway(s', Making, s.sup.runtime, s.sup.desired) && s'.sup.factory.revision == s.sup.desired
      && s'.sup.created == s.sup.created
  {
  }

  lemma CandidateIsMade(s: Sys, previous: Runtime, rev: Revision)
    requires Underway(s, Making, previous, rev) && s.sup.factory.revision == rev
    ensures Underway(Apply(s, ReloadResumes(Ok)), Preparing(s.sup.created), previous, rev)
  {
  }

  lemma CandidatePasses(s: Sys, previous: Runtime, c: Runtime, rev: Revision)
    ensures Underway(s, Preparing(c), previous, rev) ==> Underway(Apply(s, ReloadResumes(Ok)), Starting(c), previous, rev)
    ensures Underway(s, Starting(c), previous, rev) ==> Underway(Apply(s, ReloadResumes(Ok)), Activating(c), previous, rev)
  {
  }

  /** The candidate is current and lets turns in again after the old runtime was closed. */
  lemma CandidateIsCommitted(s: Sys, previous: Runtime, c: Runtime, rev: Revision)
    requires Underway(s, Activating(c), previous, rev)
    ensures var s1 := Apply(s, ReloadResumes(Ok));
      Enabled(s1, ReloadResumes(Ok)) && Committed(Apply(s1, ReloadResumes(Ok)).sup, previous, c, rev)
  {
  }

  ghost predicate Committed(sup: Sup, previous: Runtime, c: Runtime, rev: Revision) {
    && sup.runtime == c && c in sup.built && sup.built[c] == rev && sup.active == rev
    && sup.state == Active && sup.ready && sup.phase.Idle? && previous in sup.closed
  }

  /** A reload that is called while nothing runs, with every stage succeeding, replaces the runtime by a new one
      of the desired revision, closes the previous one and lets turns in again. */
  lemma SmoothReloadCommits(s: Sys)
    requires s.sup.phase.Idle? && s.sup.callers > 0 && !s.sup.closing && s.turns == map[]
    requires RevisionInv(s.sup)
    ensures ValidRun(s, SMOOTH) && Committed(Exec(s, SMOOTH).sup, s.sup.runtime, s.sup.created, s.sup.desired)
  {
    var e, previous, c, rev := ReloadResumes(Ok), s.sup.runtime, s.sup.created, s.sup.desired;
    ReloadStarts(s);
    var s1 := Apply(s, ReloadBegins);
    CandidateIsMade(s1, previous, rev);
    var s2 := Apply(s1, e);
    CandidatePasses(s2, previous, c, rev);
    var s3 := Apply(s2, e);
    CandidatePasses(s3, previous, c, rev);
    var s4 := Apply(s3, e);
    CandidateIsCommitted(s4, previous, c, rev);
    FiveSteps(s1, e);
    OneStep(s, ReloadBegins, [e, e, e, e, e]);
    assert SMOOTH == [ReloadBegins] + [e, e, e, e, e];
  }

  lemma FiveSteps(s: Sys, e: Event)
    requires Enabled(s, e) && Enabled(Apply(s, e), e) && Enabled(Apply(Apply(s, e), e), e)
    requires var s3 := Apply(Apply(Apply(s, e), e), e); Enabled(s3, e) && Enabled(Apply(s3, e), e)
    ensures ValidRun(s, [e, e, e, e, e])
    ensures Exec(s, [e, e, e, e, e]) == Apply(Apply(Apply(Apply(Apply(s, e), e), e), e), e)
  {
    var s1 := Apply(s, e);
    var s2 := Apply(s1, e);
    var s3 := Apply(s2, e);
    var s4 := Apply(s3, e);
    OneStep(s4, e, []);
    assert [e] + [] == [e];
    OneStep(s3, e, [e]);
    assert [e] + [e] == [e, e];
    OneStep(s2, e, [e, e]);
    assert [e] + [e, e] == [e, e, e];
    OneStep(s1, e, [e, e, e]);
    assert [e] + [e, e, e] == [e, e, e, e];
    OneStep(s, e, [e, e, e, e]);
    assert [e] + [e, e, e, e] == [e, e, e, e, e];
  }

  /** A reload that is cancelled, and cancelled again while it closes its candidate, leaves the supervisor
      at rest in the applying state: the end of a turn does not call the reload again. */
  lemma CancelledTwiceStaysApplying(s: Sys, previous: Runtime, c: Runtime, rev: Revision)
    requires Underway(s, Preparing(c), previous, rev) && s.sup.state == Applying
    ensures var s' := Apply(Apply(s, ReloadResumes(Cancel)), ReloadResumes(Cancel));
      && s'.sup.phase.Idle? && s'.sup.state == Applying
      && Apply(s', IdleNotified).sup.callers == s'.sup.callers
  {
  }

  // ---- the supervisor object ----

  class RuntimeSupervisor {
    var state: State
    var runtime: Runtime
    var ready: bool
    var closing: bool
    var desired: Revision
    var active: Revision
    var applying: Revision
    var desiredFactory: Factory
    var factory: Factory
    var phase: Phase
    var created: nat
    var closed: set<Runtime>
    ghost var before: Runtime
    ghost var candidate: Option<Runtime>
    ghost var built: map<Runtime, Revision>
    ghost var callers: nat

    ghost function View(): Sup
      reads this
    {
      Sup(state, runtime, ready, closing, desired, active, applying, desiredFactory, factory, phase, created, closed,
          before, candidate, built, callers)
    }

    constructor (rev: Revision)
      ensures View() == Initial(rev)
    {
      state, runtime, ready, closing := Active, 0, true, false;
      desired, active, applying := rev, rev, rev;
      phase, created, closed := Idle, 1, {};
      desiredFactory, factory := Factory(rev), Factory(rev);
      before, candidate, built, callers := 0, None, map[0 := rev], 0;
    }

    method RequestReload(rev: Revision, idle: bool)
      modifies this
      ensures View() == Request(old(View()), rev, idle)
    {
      if closing {
        return;
      }
      desired := rev;
      desiredFactory := Factory(rev);
      if !idle {
        state := Pending;
        return;
      }
      callers := callers + 1;
    }

    /** Called when a turn has ended. */
    method NotifyIdleSection(idle: bool)
      modifies this
      ensures View() == NotifyIdle(old(View()), idle)
    {
      if !closing && state == Pending && idle {
        callers := callers + 1;
      }
    }

    method BeginReload(idle: bool)
      requires callers > 0
      modifies this
      ensures View() == Begin(old(View()), idle)
    {
      callers := callers - 1;
      if closing {
        return;
      }
      if !idle {
        state := Pending;
        return;
      }
      applying := desired;
      factory := desiredFactory;
      state := Applying;
      ready := false;
      phase := Making;
      before, candidate := runtime, None;
    }

    method DiscardIfClosing(c: Runtime) returns (discarded: bool)
      modifies this
      ensures discarded == old(closing)
      ensures View() == if discarded then CloseCandidate(old(View()), c, Discarding(c)) else old(View())
    {
      if closing {
        closed := closed + {c};
        phase := Discarding(c);
      }
      return closing;
    }

    method RejectCandidate(c: Runtime)
      modifies this
      ensures View() == CloseCandidate(old(View()).(state := Pending), c, Rejecting(c))
    {
      state := Pending;
      closed := closed + {c};
      phase := Rejecting(c);
    }

    method HandleFailure(c: Runtime, cancelled: bool)
      modifies this
      ensures View() == Broken(old(View()), c, cancelled)
    {
      if !cancelled {
        state := Failed;
      }
      closed := closed + {c};
      phase := Cleanup(c, cancelled);
    }

    /** After a stage of the candidate: give up on shutdown, or go on. */
    method CheckCandidate(c: Runtime, next: Phase)
      modifies this
      ensures View() == Checked(old(View()), c, next)
    {
      var discarded := DiscardIfClosing(c);
      if !discarded {
        phase := next;
      }
    }

    method CheckCandidateIdle(c: Runtime, next: Phase, idle: bool)
      modifies this
      ensures View() == CheckedIdle(old(View()), c, next, idle)
    {
      var discarded := DiscardIfClosing(c);
      if discarded {
        return;
      }
      if !idle {
        RejectCandidate(c);
        return;
      }
      phase := next;
    }

    method CommitCandidate(c: Runtime)
      modifies this
      ensures View() == Swap(old(View()), c)
    {
      var discarded := DiscardIfClosing(c);
      if discarded {
        return;
      }
      var previous := runtime;
      runtime := c;
      active := applying;
      state := if desired == applying then Active else Pending;
      closed := closed + {previous};
      phase := ClosingOld(previous);
    }

    method CandidateMade(idle: bool)
      requires phase.Making?
      modifies this
      ensures View() == Resume(old(View()), Ok, idle)
    {
      var c := created;
      created := created + 1;
      candidate := Some(c);
      built := built[c := factory.revision];
      CheckCandidateIdle(c, Preparing(c), idle);
    }

    /** The stages of a live candidate. */
    method ResumeStage(c: Runtime, o: Outcome, idle: bool)
      requires LiveCandidate(phase) == Some(c)
      modifies this
      ensures View() == Resume(old(View()), o, idle)
    {
      if !o.Ok? {
        HandleFailure(c, o.Cancel?);
      } else if phase.Preparing? {
        CheckCandidate(c, Starting(c));
      } else if phase.Starting? {
        CheckCandidateIdle(c, Activating(c), idle);
      } else {
        CommitCandidate(c);
      }
    }

    /** The end of a reload. */
    method LeaveReload(next: State)
      modifies this
      ensures View() == Exit(old(View()).(state := next))
    {
      state := next;
      phase := Idle;
      ready := true;
    }

    method ResumeReload(o: Outcome, idle: bool)
      modifies this
      ensures View() == Resume(old(View()), o, idle)
    {
      var cancelled := if closing then Active else Failed;
      match phase {
        case Idle =>
        case Making =>
          if o.Ok? {
            CandidateMade(idle);
          } else {
            LeaveReload(if o.Raise? then Failed else cancelled);
          }
        case Preparing(c) => ResumeStage(c, o, idle);
        case Starting(c) => ResumeStage(c, o, idle);
        case Activating(c) => ResumeStage(c, o, idle);
        case Discarding(c) =>
          if o.Cancel? {
            HandleFailure(c, true);
          } else {
            LeaveReload(Active);
          }
        case Rejecting(c) =>
          if o.Cancel? {
            HandleFailure(c, true);
          } else {
            LeaveReload(state);
          }
        case ClosingOld(_) => LeaveReload(if o.Cancel? then cancelled else state);
        case Cleanup(_, wasCancelled) => LeaveReload(if wasCancelled && !o.Cancel? then cancelled else state);
      }
    }
  }
}
