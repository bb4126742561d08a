/** The Multi-Agent coordinator's bookkeeping of one run and the events it emits to the log.
    The event sink is assumed never to fail. Labels, durations and the stored texts of an event do
    not matter here; they are arbitrary, one `Detail` per row. */
module RunEvents {
  import opened Options
  import opened RunLog

  datatype WorkerResult = WorkerResult(status: Status, content: Option<string>, error: Option<string>)

  /** A worker of the run; `index` counts from 0, its node id is worker-(index + 1). */
  datatype Node = Node(
    index: nat, status: Status, result: Option<WorkerResult>, errorCode: Option<string>)

  datatype Strategy = FanOut | Pipeline

  datatype Run = Run(strategy: Strategy, status: Status, nodes: seq<Node>, errorCode: Option<string>)

  datatype Detail = Detail(
    tag: Value, durationMs: Value, error: Value, content: Value, parentRequestId: Option<string>)

  const RESULT_CONTEXT_EXCEEDED := "result_context_exceeded"

  /** What the coordinator holds about a run, and the rows its sink has stored. */
  datatype Ctl = Ctl(
    id: RunId, run: Run, rows: seq<Row>,
    terminalNodes: set<nat>, terminalRun: bool, released: bool)

  // ---- emitting ----

  function EventFor(s: Status): EventType {
    match s
    case Queued => RunStarted
    case Running => RunStarted
    case Waiting => RunStarted
    case Completed => RunCompleted
    case Cancelled => RunCancelled
    case _ => RunFailed
  }

  function CodeValue(code: Option<string>): Value {
    if code.Some? then Str(code.value) else Absent
  }

  function StrategyText(s: Strategy): Value {
    Str(if s.FanOut? then "fan_out_fan_in" else "pipeline")
  }

  function RunRow(id: RunId, event: EventType, run: Run, d: Detail): Row {
    Row(true, event, Some(Meta(Some(id), None, Some(run.status), d.parentRequestId, d.tag,
        StrategyText(run.strategy), d.durationMs, CodeValue(run.errorCode), d.error, Absent)))
  }

  function NodeRow(id: RunId, strategy: Strategy, node: Node, d: Detail): Row {
    Row(true, NodeUpdated, Some(Meta(Some(id), Some(Worker(node.index + 1)), Some(node.status),
        d.parentRequestId, d.tag, StrategyText(strategy), d.durationMs, CodeValue(node.errorCode), d.error, d.content)))
  }

  function EmitRun(c: Ctl, event: EventType, run: Run, d: Detail): Ctl {
    if Terminal(run.status) && c.terminalRun then c
    else c.(rows := c.rows + [RunRow(c.id, event, run, d)], terminalRun := c.terminalRun || Terminal(run.status))
  }

  function EmitNode(c: Ctl, node: Node, d: Detail): Ctl {
    if Terminal(node.status) && node.index in c.terminalNodes then c
    else c.(rows := c.rows + [NodeRow(c.id, c.run.strategy, node, d)],
            terminalNodes := if Terminal(node.status) then c.terminalNodes + {node.index} else c.terminalNodes)
  }

  // ---- the life of a run ----

  function QueuedNodes(n: nat): seq<Node> {
    seq(n, i requires 0 <= i < n => Node(i, Queued, None, None))
  }

  function EmitNodes(c: Ctl, nodes: seq<Node>, d: nat -> Detail): Ctl {
    if nodes == [] then c
    else
      var before := EmitNodes(c, nodes[..|nodes| - 1], d);
      EmitNode(before, nodes[|nodes| - 1], d(|before.rows|))
  }

  function Remember(c: Ctl, run: Run, d: nat -> Detail): Ctl {
    EmitRun(c.(run := run), EventFor(run.status), run, d(|c.rows|))
  }

  /** A request with `n` tasks is accepted. */
  function Created(id: RunId, strategy: Strategy, n: nat, d: nat -> Detail): Ctl {
    var run := Run(strategy, Queued, QueuedNodes(n), None);
    Remember(Ctl(id, run, [], {}, false, false), run, d)
  }

  /** Its nodes are announced. */
  function Queue(id: RunId, strategy: Strategy, n: nat, d: nat -> Detail): Ctl {
    EmitNodes(Created(id, strategy, n, d), QueuedNodes(n), d)
  }

  /** From the acceptance of a request to the start of its workers. */
  function Begin(id: RunId, strategy: Strategy, n: nat, d: nat -> Detail): Ctl {
    Remember(Queue(id, strategy, n, d), Run(strategy, Running, QueuedNodes(n), None), d)
  }

  /** The first error code among the nodes, if any. */
  function FirstErrorCode(nodes: seq<Node>): Option<string> {
    if nodes == [] then None
    else if nodes[0].errorCode.Some? && nodes[0].errorCode.value != "" then nodes[0].errorCode
    else FirstErrorCode(nodes[1..])
  }

  predicate AnyCompleted(nodes: seq<Node>) {
    exists node :: node in nodes && node.status.Completed?
  }

  predicate AllCompleted(nodes: seq<Node>) {
    forall node :: node in nodes ==> node.status.Completed?
  }

  /** What is decided when all workers have ended: how the run ends, or None when it stays running
      for the parent to summarise. */
  function Verdict(run: Run, stop: bool, late: bool, overBudget: bool): Option<Run> {
    var run1 := if overBudget then run.(errorCode := Some(RESULT_CONTEXT_EXCEEDED)) else run;
    if stop then Some(run1.(status := Cancelled))
    else if late then Some(run1.(status := TimedOut))
    else if overBudget then Some(run1.(status := Failed))
    else if !AnyCompleted(run.nodes) || (!run.strategy.FanOut? && !AllCompleted(run.nodes)) then
      Some(run1.(status := Failed,
                 errorCode := if FirstErrorCode(run.nodes).Some? then FirstErrorCode(run.nodes) else run1.errorCode))
    else None
  }

  function Conclude(c: Ctl, nodes: seq<Node>, stop: bool, late: bool, overBudget: bool, d: nat -> Detail): Ctl {
    var run := c.run.(nodes := nodes);
    match Verdict(run, stop, late, overBudget)
    case Some(ended) => Remember(c, ended, d)
    case None => c.(run := run)
  }

  datatype Outcome = OutCompleted | OutFailed | OutCancelled | OutTimedOut

  /** What the parent turn may still do with the run; `late` says whether the deadline has passed. */
  datatype ParentOp = SetWaiting(waiting: bool) | CheckContext(exceeded: bool) | Finalize(outcome: Outcome, late: bool)

  function OutcomeStatus(outcome: Outcome, late: bool): Status {
    match outcome
    case OutCompleted => if late then TimedOut else Completed
    case OutFailed => Failed
    case OutCancelled => Cancelled
    case OutTimedOut => TimedOut
  }

  function ApplyOp(c: Ctl, op: ParentOp, d: nat -> Detail): Ctl {
    if c.released then c
    else
      match op
      case SetWaiting(waiting) =>
        var status := if waiting then Waiting else Running;
        if Terminal(c.run.status) || c.run.status == status then c
        else Remember(c, c.run.(status := status), d)
      case CheckContext(exceeded) =>
        if Terminal(c.run.status) || !exceeded then c
        else Remember(c, c.run.(status := Failed, errorCode := Some(RESULT_CONTEXT_EXCEEDED)), d)
      case Finalize(outcome, late) =>
        if Terminal(c.run.status) then c.(released := true)
        else Remember(c, c.run.(status := OutcomeStatus(outcome, late)), d).(released := true)
  }

  function ApplyOps(c: Ctl, ops: seq<ParentOp>, d: nat -> Detail): Ctl {
    if ops == [] then c else ApplyOp(ApplyOps(c, ops[..|ops| - 1], d), ops[|ops| - 1], d)
  }

  // ---- what workers emit ----

  /** How far a worker has come: nothing emitted, running emitted, end emitted. */
  datatype Stage = Unstarted | Active | Over(node: Node)

  datatype NodeEvent = Begins(i: nat) | Ends(i: nat, node: Node)

  predicate CanHappen(stages: seq<Stage>, e: NodeEvent) {
    && e.i < |stages|
    && match e
       case Begins(i) => stages[i].Unstarted?
       case Ends(i, node) => !stages[i].Over? && node.index == i && Terminal(node.status)
  }

  function After(stages: seq<Stage>, e: NodeEvent): seq<Stage>
    requires CanHappen(stages, e)
  {
    match e
    case Begins(i) => stages[i := Active]
    case Ends(i, node) => stages[i := Over(node)]
  }

  function EventNode(e: NodeEvent): Node {
    match e
    case Begins(i) => Node(i, Running, None, None)
    case Ends(i, node) => node
  }

  function Emit(c: Ctl, e: NodeEvent, d: nat -> Detail): Ctl {
    EmitNode(c, EventNode(e), d(|c.rows|))
  }

  /** The events of all workers of a run in the order in which they reached the sink. */
  ghost predicate ValidTrace(stages: seq<Stage>, evs: seq<NodeEvent>)
    decreases |evs|
  {
    evs == [] || (CanHappen(stages, evs[0]) && ValidTrace(After(stages, evs[0]), evs[1..]))
  }

  ghost function StagesAfter(stages: seq<Stage>, evs: seq<NodeEvent>): seq<Stage>
    requires ValidTrace(stages, evs)
    decreases |evs|
  {
    if evs == [] then stages else StagesAfter(After(stages, evs[0]), evs[1..])
  }

  function EmitAll(c: Ctl, evs: seq<NodeEvent>, d: nat -> Detail): Ctl
    decreases |evs|
  {
    if evs == [] then c else EmitAll(Emit(c, evs[0], d), evs[1..], d)
  }

  function FreshStages(n: nat): seq<Stage> {
    seq(n, _ => Unstarted)
  }

  /** All workers have ended, with these nodes in task order. */
  predicate Collected(stages: seq<Stage>, nodes: seq<Node>) {
    |stages| == |nodes| && forall i :: 0 <= i < |nodes| ==> stages[i] == Over(nodes[i])
  }

  // ---- the run's control object ----

  class RunControl {
    const id: RunId
    var run: Run
    var rows: seq<Row>
    var terminalNodes: set<nat>
    var terminalRun: bool
    var released: bool

    ghost function View(): Ctl
      reads this
    {
      Ctl(id, run, rows, terminalNodes, terminalRun, released)
    }

    method EmitRunEvent(event: EventType, r: Run, d: Detail)
      modifies this
      ensures View() == EmitRun(old(View()), event, r, d)
    {
      var last := false;
      if Terminal(r.status) {
        if terminalRun {
          return;
        }
        last := true;
      }
      rows := rows + [RunRow(id, event, r, d)];
      if last {
        terminalRun := true;
      }
    }

    method EmitNodeEvent(node: Node, d: Detail)
      modifies this
      ensures View() == EmitNode(old(View()), node, d)
    {
      if Terminal(node.status) && node.index in terminalNodes {
        return;
      }
      rows := rows + [NodeRow(id, run.strategy, node, d)];
      if Terminal(node.status) {
        terminalNodes := terminalNodes + {node.index};
      }
    }

    method RememberAndEmit(r: Run, d: nat -> Detail)
      modifies this
      ensures View() == Remember(old(View()), r, d)
    {
      run := r;
      EmitRunEvent(EventFor(r.status), r, d(|rows|));
    }

    constructor BeginRun(id: RunId, strategy: Strategy, n: nat, d: nat -> Detail)
      ensures View() == Begin(id, strategy, n, d)
    {
      this.id := id;
      run := Run(strategy, Queued, QueuedNodes(n), None);
      rows, terminalNodes, terminalRun, released := [], {}, false, false;
      new;
      RememberAndEmit(run, d);
      ghost var c := View();
      for i := 0 to |run.nodes|
        invariant run == c.run && View() == EmitNodes(c, run.nodes[..i], d)
      {
        assert run.nodes[..i + 1][..i] == run.nodes[..i];
        EmitNodeEvent(run.nodes[i], d(|rows|));
      }
      assert run.nodes[..|run.nodes|] == run.nodes;
      RememberAndEmit(run.(status := Running), d);
    }

    method ConcludeWorkers(nodes: seq<Node>, stop: bool, late: bool, overBudget: bool, d: nat -> Detail)
      modifies this
      ensures View() == Conclude(old(View()), nodes, stop, late, overBudget, d)
    {
      var r := run.(nodes := nodes);
      if overBudget {
        r := r.(errorCode := Some(RESULT_CONTEXT_EXCEEDED));
      }
      if stop {
        r := r.(status := Cancelled);
      } else if late {
        r := r.(status := TimedOut);
      } else if overBudget {
        r := r.(status := Failed);
      } else if !AnyCompleted(nodes) || (!r.strategy.FanOut? && !AllCompleted(nodes)) {
        var first := FirstErrorCode(nodes);
        r := r.(status := Failed, errorCode := if first.Some? then first else r.errorCode);
      } else {
        run := r;
        return;
      }
      RememberAndEmit(r, d);
    }

    method Perform(op: ParentOp, d: nat -> Detail)
      modifies this
      ensures View() == ApplyOp(old(View()), op, d)
    {
      if released {
        return;
      }
      match op {
        case SetWaiting(waiting) =>
          var status := if waiting then Waiting else Running;
          if !Terminal(run.status) && run.status != status {
            RememberAndEmit(run.(status := status), d);
          }
        case CheckContext(exceeded) =>
          if !Terminal(run.status) && exceeded {
            RememberAndEmit(run.(status := Failed, errorCode := Some(RESULT_CONTEXT_EXCEEDED)), d);
          }
        case Finalize(outcome, late) =>
          if !Terminal(run.status) {
            RememberAndEmit(run.(status := OutcomeStatus(outcome, late)), d);
          }
          released := true;
      }
    }
  }
}
