/** How a reload ends that does not replace the runtime: failures, cancellation, turns that arrived meanwhile,
    and shutdown. */
module RuntimeOutcomes {
  import opened Options
  import opened RuntimeSwap

  /** The reload is over: turns are let in, the runtime is still `r`, and `c` is closed. */
  ghost predicate Kept(s: Sys, r: Runtime, c: Runtime, state: State) {
    && s.sup.phase == Idle && s.sup.ready && s.sup.state == state && s.sup.runtime == r && c in s.sup.closed
    && forall t :: t in s.turns ==> !s.turns[t].Waiting?
  }

  /** Two awaits of a reload end one after the other. */
  ghost function Twice(s: Sys, first: Outcome, second: Outcome): Sys
    requires !s.sup.phase.Idle? && !Apply(s, ReloadResumes(first)).sup.phase.Idle?
  {
    Apply(Apply(s, ReloadResumes(first)), ReloadResumes(second))
  }

  /** The candidate cannot be built: nothing is created, and the supervisor has failed. When the reload is
      cancelled there, it has failed unless it is shut down. */
  lemma BuildFails(s: Sys, o: Outcome)
    requires TurnInv(s) && s.sup.phase.Making? && !o.Ok?
    ensures var s' := Apply(s, ReloadResumes(o));
      && s'.sup.phase == Idle && s'.sup.ready && s'.sup.runtime == s.sup.runtime
      && s'.sup.created == s.sup.created && s'.sup.closed == s.sup.closed
      && s'.sup.state == (if o.Cancel? && s.sup.closing then Active else Failed)
      && forall t :: t in s'.turns ==> !s'.turns[t].Waiting?
  {
    ResumeKeepsTurns(s, o);
  }

  /** A stage of the candidate raises: the candidate is closed, however that ends, and the supervisor has failed
      with its old runtime. */
  lemma StageFails(s: Sys, c: Runtime, o: Outcome)
    requires TurnInv(s) && LiveCandidate(s.sup.phase) == Some(c)
    ensures !Apply(s, ReloadResumes(Raise)).sup.phase.Idle?
    ensures Kept(Twice(s, Raise, o), s.sup.runtime, c, Failed)
  {
    ResumeKeepsTurns(s, Raise);
    ResumeKeepsTurns(Apply(s, ReloadResumes(Raise)), o);
  }

  /** A stage is cancelled, and its candidate's close is not: the supervisor has failed unless it is shut down. */
  lemma StageIsCancelled(s: Sys, c: Runtime, o: Outcome)
    requires TurnInv(s) && LiveCandidate(s.sup.phase) == Some(c) && !o.Cancel?
    ensures !Apply(s, ReloadResumes(Cancel)).sup.phase.Idle?
    ensures Kept(Twice(s, Cancel, o), s.sup.runtime, c, if s.sup.closing then Active else Failed)
  {
    ResumeKeepsTurns(s, Cancel);
    ResumeKeepsTurns(Apply(s, ReloadResumes(Cancel)), o);
  }

  /** A turn arrived while the candidate was built or started: the candidate is closed and the request stays
      pending, so that the end of the last turn calls the reload again. */
  lemma BusyCandidateIsRejected(s: Sys, o: Outcome)
    requires TurnInv(s) && (s.sup.phase.Making? || s.sup.phase.Starting?) && !s.sup.closing && s.turns != map[]
    requires !o.Cancel?
    ensures !Apply(s, ReloadResumes(Ok)).sup.phase.Idle?
    ensures Kept(Twice(s, Ok, o), s.sup.runtime, if s.sup.phase.Making? then s.sup.created else s.sup.phase.c, Pending)
  {
    ResumeKeepsTurns(s, Ok);
    ResumeKeepsTurns(Apply(s, ReloadResumes(Ok)), o);
  }

  /** After a shutdown began, a candidate is closed at the next stage that succeeds, and the old runtime stays the
      active one. */
  lemma ShutdownDiscards(s: Sys, o: Outcome)
    requires TurnInv(s) && (s.sup.phase.Making? || LiveCandidate(s.sup.phase).Some?) && s.sup.closing && !o.Cancel?
    ensures !Apply(s, ReloadResumes(Ok)).sup.phase.Idle?
    ensures Kept(Twice(s, Ok, o), s.sup.runtime, if s.sup.phase.Making? then s.sup.created else s.sup.phase.c, Active)
  {
    ResumeKeepsTurns(s, Ok);
    ResumeKeepsTurns(Apply(s, ReloadResumes(Ok)), o);
  }

  /** A quiet supervisor lets its candidate go on to the next stage. */
  lemma QuietCandidateGoesOn(s: Sys)
    requires TurnInv(s) && LiveCandidate(s.sup.phase).Some? && !s.sup.closing && s.turns == map[]
    ensures var s' := Apply(s, ReloadResumes(Ok));
      match s.sup.phase
      case Preparing(c) => s'.sup == s.sup.(phase := Starting(c))
      case Starting(c) => s'.sup == s.sup.(phase := Activating(c))
      case Activating(c) => s'.sup.runtime == c
      case _ => true
  {
  }

  lemma ResumeAfterShutdown(sup: Sup, o: Outcome, idle: bool)
    requires sup.closing
    ensures var sup' := Resume(sup, o, idle);
      && sup'.closing && sup'.runtime == sup.runtime && sup'.active == sup.active
      && (sup.phase.Idle? ==> sup' == sup)
  {
  }

  lemma StepAfterShutdown(s: Sys, e: Event)
    requires Enabled(s, e) && s.sup.closing
    ensures var sup := Apply(s, e).sup;
      && sup.closing && sup.runtime == s.sup.runtime && sup.active == s.sup.active
      && (s.sup.phase.Idle? ==> sup.phase.Idle? && sup.created == s.sup.created)
  {
    if e.ReloadResumes? {
      ResumeAfterShutdown(s.sup, e.o, IdleProbe(s));
    }
  }

  /** After a shutdown began, the runtime is never replaced, and once no reload is under way none starts again. */
  lemma {:induction false} ShutdownKeepsTheRuntime(s: Sys, es: seq<Event>)
    requires ValidRun(s, es) && s.sup.closing
    ensures var sup := Exec(s, es).sup;
      && sup.closing && sup.runtime == s.sup.runtime && sup.active == s.sup.active
      && (s.sup.phase.Idle? ==> sup.phase.Idle? && sup.created == s.sup.created)
    decreases |es|
  {
    if es != [] {
      StepAfterShutdown(s, es[0]);
      ShutdownKeepsTheRuntime(Apply(s, es[0]), es[1..]);
    }
  }

  // ---- when a reload rests in the applying state ----

  /** Once a reload is committed, given up or failed, it is not applying any more. */
  ghost predicate RestInv(s: Sup) {
    !s.closing && (s.phase.ClosingOld? || s.phase.Rejecting? || (s.phase.Cleanup? && !s.phase.cancelled)) ==>
      s.state != Applying
  }

  lemma ResumeKeepsRest(s: Sup, o: Outcome, idle: bool)
    requires RestInv(s) && (!s.closing ==> !s.phase.Discarding?)
    ensures RestInv(Resume(s, o, idle))
  {
  }

  lemma StepKeepsRest(s: Sys, e: Event)
    requires RestInv(s.sup) && RequestInv(s.sup) && Enabled(s, e)
    ensures RestInv(Apply(s, e).sup)
  {
    if e.ReloadResumes? {
      ResumeKeepsRest(s.sup, e.o, IdleProbe(s));
    }
  }

  lemma {:induction false} RunKeepsRest(s: Sys, es: seq<Event>)
    requires RestInv(s.sup) && RequestInv(s.sup) && ValidRun(s, es)
    ensures RestInv(Exec(s, es).sup) && RequestInv(Exec(s, es).sup)
    decreases |es|
  {
    if es != [] {
      StepKeepsRest(s, es[0]);
      StepKeepsRequest(s, es[0]);
      RunKeepsRest(Apply(s, es[0]), es[1..]);
    }
  }

  /** In every run, a reload that ends before a shutdown leaves the supervisor in the applying state exactly when
      it was cancelled while it closed the candidate of a cancelled stage, and nothing was requested meanwhile. */
  lemma RestsApplyingExactly(rev: Revision, es: seq<Event>, o: Outcome)
    requires ValidRun(Sys(Initial(rev), map[]), es)
    requires var s := Exec(Sys(Initial(rev), map[]), es);
             Enabled(s, ReloadResumes(o)) && !s.sup.closing && Apply(s, ReloadResumes(o)).sup.phase.Idle?
    ensures var s := Exec(Sys(Initial(rev), map[]), es);
            Apply(s, ReloadResumes(o)).sup.state == Applying <==>
              s.sup.phase.Cleanup? && s.sup.phase.cancelled && o.Cancel? && s.sup.state == Applying
  {
    RunKeepsRest(Sys(Initial(rev), map[]), es);
  }
}
