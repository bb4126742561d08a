/** How a Multi-Agent run ends, as its log shows it: what the workers' results, a stop, the deadline and the
    result budget decide, and what the parent turn decides afterwards. */
module RunOutcomes {
  import opened Options
  import opened RunLog
  import opened RunRecovery
  import opened RunEvents
  import opened RunAgreement

  predicate HasCode(node: Node) {
    node.errorCode.Some? && node.errorCode.value != ""
  }

  /** The first error code that is not empty, as a log value. */
  ghost predicate FirstCode(nodes: seq<Node>, shown: Value) {
    if exists node :: node in nodes && HasCode(node) then
      exists i :: 0 <= i < |nodes| && HasCode(nodes[i]) && shown == Str(nodes[i].errorCode.value)
        && forall j :: 0 <= j < i ==> !HasCode(nodes[j])
    else shown == Null
  }

  lemma {:induction false} FirstErrorCodeIsFirst(nodes: seq<Node>)
    ensures FirstCode(nodes, CodeShown(FirstErrorCode(nodes)))
  {
    if nodes != [] && !HasCode(nodes[0]) {
      FirstErrorCodeIsFirst(nodes[1..]);
      var rest := nodes[1..];
      assert nodes == [nodes[0]] + rest;
      if exists node :: node in rest && HasCode(node) {
        var i :| 0 <= i < |rest| && HasCode(rest[i]) && CodeShown(FirstErrorCode(rest)) == Str(rest[i].errorCode.value)
          && forall j :: 0 <= j < i ==> !HasCode(rest[j]);
        assert nodes[i + 1] == rest[i] && nodes[i + 1] in nodes;
        assert forall j :: 0 <= j < i + 1 ==> !HasCode(nodes[j]);
      }
    } else if nodes != [] {
      assert nodes[0] in nodes;
    }
  }

  function BudgetCode(overBudget: bool): Value {
    if overBudget then Str("result_context_exceeded") else Null
  }

  /** How the run stands in the view when its workers have ended. */
  ghost predicate Decided(
    view: RunView, done: bool, strategy: Strategy, nodes: seq<Node>, stop: bool, late: bool, overBudget: bool)
  {
    if stop then view.status == Cancelled && view.errorCode == BudgetCode(overBudget)
    else if late then view.status == TimedOut && view.errorCode == BudgetCode(overBudget)
    else if overBudget then view.status == Failed && view.errorCode == BudgetCode(true)
    else if (forall node :: node in nodes ==> node.status != Completed)
      || (strategy == Pipeline && exists node :: node in nodes && node.status != Completed)
    then view.status == Failed && FirstCode(nodes, view.errorCode)
    else view.status == Running && !done
  }

  /** The last row of an ended run tells how it ended. */
  ghost predicate EndIsLogged(rows: seq<Row>, status: Status) {
    rows != [] && var event := rows[|rows| - 1].event;
      if status == Completed then event == RunCompleted
      else if status == Cancelled then event == RunCancelled
      else event == RunFailed
  }

  lemma ConcludedRun(c: Ctl, nodes: seq<Node>, stop: bool, late: bool, overBudget: bool, d: nat -> Detail)
    requires c.run.status == Running && c.run.errorCode.None? && !c.terminalRun
    ensures var c' := Conclude(c, nodes, stop, late, overBudget, d);
      && c'.id == c.id && c'.released == c.released && c'.run.strategy == c.run.strategy
      && (if stop then c'.run.status == Cancelled && CodeShown(c'.run.errorCode) == BudgetCode(overBudget)
          else if late then c'.run.status == TimedOut && CodeShown(c'.run.errorCode) == BudgetCode(overBudget)
          else if overBudget then c'.run.status == Failed && CodeShown(c'.run.errorCode) == BudgetCode(true)
          else if (forall node :: node in nodes ==> node.status != Completed)
            || (c.run.strategy == Pipeline && exists node :: node in nodes && node.status != Completed)
          then c'.run.status == Failed && FirstCode(nodes, CodeShown(c'.run.errorCode))
          else c'.run.status == Running && c'.run.errorCode.None?)
      && (c'.run.status != Running ==> EndIsLogged(c'.rows, c'.run.status))
  {
    FirstErrorCodeIsFirst(nodes);
  }

  /** The run before the parent does anything, and its workers' rows. */
  lemma WorkersDone(id: RunId, strategy: Strategy, n: nat, evs: seq<NodeEvent>, nodes: seq<Node>, d: nat -> Detail)
    requires ValidTrace(FreshStages(n), evs) && Collected(StagesAfter(FreshStages(n), evs), nodes)
    ensures var c := EmitAll(Begin(id, strategy, n, d), evs, d);
      && c.run == Run(strategy, Running, QueuedNodes(n), None) && c.id == id && !c.released && !c.terminalRun
  {
    BeginAgrees(id, strategy, n, d);
    CollectedShown(Begin(id, strategy, n, d), n, evs, nodes, d);
  }

  /** A stop ends the run as cancelled; else a passed deadline as timed out; else a result over the budget as
      failed with its code; else no completed worker, or in a pipeline one that did not complete, as failed
      with the first error code; otherwise the run goes on. */
  lemma WorkersDecide(id: RunId, strategy: Strategy, n: nat, evs: seq<NodeEvent>, nodes: seq<Node>,
                      stop: bool, late: bool, overBudget: bool, d: nat -> Detail)
    requires ValidTrace(FreshStages(n), evs) && Collected(StagesAfter(FreshStages(n), evs), nodes)
    ensures var c := WholeRun(id, strategy, n, evs, nodes, stop, late, overBudget, [], d);
      && Fold(c.rows, id).Some?
      && Decided(Fold(c.rows, id).value.view, Fold(c.rows, id).value.done, strategy, nodes, stop, late, overBudget)
      && (Fold(c.rows, id).value.done ==> EndIsLogged(c.rows, Fold(c.rows, id).value.view.status))
  {
    LogAgreesWithRun(id, strategy, n, evs, nodes, stop, late, overBudget, [], d);
    WorkersDone(id, strategy, n, evs, nodes, d);
    ConcludedRun(EmitAll(Begin(id, strategy, n, d), evs, d), nodes, stop, late, overBudget, d);
  }

  // ---- the parent turn ----

  predicate Finalized(ops: seq<ParentOp>) {
    exists op :: op in ops && op.Finalize?
  }

  /** A run that goes on has no error code yet, and the events of its end follow its status. */
  ghost predicate Open(c: Ctl) {
    && (!Terminal(c.run.status) ==> c.run.errorCode.None? && !c.terminalRun)
    && (Terminal(c.run.status) ==> EndIsLogged(c.rows, c.run.status))
  }

  lemma OpKeepsOpen(c: Ctl, op: ParentOp, d: nat -> Detail)
    requires Open(c)
    ensures Open(ApplyOp(c, op, d)) && ApplyOp(c, op, d).id == c.id
  {
  }

  lemma {:induction false} OpsKeepOpen(c: Ctl, ops: seq<ParentOp>, d: nat -> Detail)
    requires Open(c)
    ensures Open(ApplyOps(c, ops, d)) && ApplyOps(c, ops, d).id == c.id
    ensures ApplyOps(c, ops, d).released <==> c.released || Finalized(ops)
  {
    if ops != [] {
      var front, op := ops[..|ops| - 1], ops[|ops| - 1];
      OpsKeepOpen(c, front, d);
      OpKeepsOpen(ApplyOps(c, front, d), op, d);
      assert ops == front + [op];
      assert Finalized(ops) <==> Finalized(front) || op.Finalize?;
    }
  }

  lemma WholeRunIsOpen(id: RunId, strategy: Strategy, n: nat, evs: seq<NodeEvent>, nodes: seq<Node>,
                       stop: bool, late: bool, overBudget: bool, ops: seq<ParentOp>, d: nat -> Detail)
    requires ValidTrace(FreshStages(n), evs) && Collected(StagesAfter(FreshStages(n), evs), nodes)
    ensures var c := WholeRun(id, strategy, n, evs, nodes, stop, late, overBudget, ops, d);
      Open(c) && c.id == id && (c.released <==> Finalized(ops))
  {
    WorkersDone(id, strategy, n, evs, nodes, d);
    var c := EmitAll(Begin(id, strategy, n, d), evs, d);
    ConcludedRun(c, nodes, stop, late, overBudget, d);
    OpsKeepOpen(Conclude(c, nodes, stop, late, overBudget, d), ops, d);
  }

  /** What one operation of the parent turn does to a run that goes on. */
  ghost predicate ParentDecided(op: ParentOp, status: Status, code: Value, before: Status) {
    match op
    case SetWaiting(waiting) => status == (if waiting then Waiting else Running)
    case CheckContext(exceeded) =>
      if exceeded then status == Failed && code == Str("result_context_exceeded") else status == before
    case Finalize(outcome, late) =>
      && code == Null
      && match outcome
         case OutCompleted => status == (if late then TimedOut else Completed)
         case OutFailed => status == Failed
         case OutCancelled => status == Cancelled
         case OutTimedOut => status == TimedOut
  }

  lemma OpDecides(c: Ctl, op: ParentOp, d: nat -> Detail)
    requires Open(c)
    ensures var c' := ApplyOp(c, op, d);
      if Terminal(c.run.status) || c.released then c'.rows == c.rows && c'.run == c.run
      else ParentDecided(op, c'.run.status, CodeShown(c'.run.errorCode), c.run.status)
  {
  }

  /** The parent turn decides a run that goes on: waiting and running follow its approvals, an exceeded
      context fails it, and its outcome ends it, a late completion as timed out. An ended or finalised run does
      not change any more. */
  lemma ParentDecides(id: RunId, strategy: Strategy, n: nat, evs: seq<NodeEvent>, nodes: seq<Node>,
                      stop: bool, late: bool, overBudget: bool, ops: seq<ParentOp>, op: ParentOp, d: nat -> Detail)
    requires ValidTrace(FreshStages(n), evs) && Collected(StagesAfter(FreshStages(n), evs), nodes)
    ensures var c := WholeRun(id, strategy, n, evs, nodes, stop, late, overBudget, ops, d);
            var c' := WholeRun(id, strategy, n, evs, nodes, stop, late, overBudget, ops + [op], d);
      && Fold(c.rows, id).Some? && Fold(c'.rows, id).Some?
      && var before, after := Fold(c.rows, id).value, Fold(c'.rows, id).value;
         if before.done || Finalized(ops) then c'.rows == c.rows
         else
           && ParentDecided(op, after.view.status, if after.done then after.view.errorCode else Null, before.view.status)
           && (after.done ==> EndIsLogged(c'.rows, after.view.status))
           && (after.done <==> Terminal(after.view.status))
  {
    LogAgreesWithRun(id, strategy, n, evs, nodes, stop, late, overBudget, ops, d);
    LogAgreesWithRun(id, strategy, n, evs, nodes, stop, late, overBudget, ops + [op], d);
    WholeRunIsOpen(id, strategy, n, evs, nodes, stop, late, overBudget, ops, d);
    WholeRunIsOpen(id, strategy, n, evs, nodes, stop, late, overBudget, ops + [op], d);
    assert (ops + [op])[..|ops|] == ops;
    OpDecides(WholeRun(id, strategy, n, evs, nodes, stop, late, overBudget, ops, d), op, d);
  }
}
