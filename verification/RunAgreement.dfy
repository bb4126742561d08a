/** The log agrees with the coordinator: for every interleaving of worker events and every
    behaviour of the parent turn, reading the log back shows the run the coordinator holds. */
module RunAgreement {
  import opened Options
  import opened RunLog
  import opened RunRecovery
  import opened RunEvents

  // ---- nothing follows an end ----

  /** No row follows the end of the run, and no row of a node follows the end of that node. */
  ghost predicate Tidy(rows: seq<Row>) {
    && (forall i :: 0 <= i < |rows| - 1 ==> !EndsItsRun(rows[i]))
    && (forall i, j, n :: 0 <= i < j < |rows| && EndsNode(rows[i], n) ==> !UpdatesNode(rows[j], n))
  }

  ghost predicate TidyInv(c: Ctl) {
    && Tidy(c.rows)
    && (forall row :: row in c.rows && EndsItsRun(row) ==> c.terminalRun)
    && (forall row, n :: row in c.rows && EndsNode(row, n) ==> n.Worker? && n.index > 0 && n.index - 1 in c.terminalNodes)
  }

  lemma RunRowTidy(c: Ctl, run: Run, d: nat -> Detail)
    requires TidyInv(c) && !c.terminalRun
    ensures TidyInv(Remember(c, run, d))
  {
    assert forall i :: 0 <= i < |c.rows| ==> c.rows[i] in c.rows;
  }

  lemma NodeRowTidy(c: Ctl, node: Node, d: Detail)
    requires TidyInv(c) && !c.terminalRun && node.index !in c.terminalNodes
    ensures TidyInv(EmitNode(c, node, d))
  {
    assert forall i :: 0 <= i < |c.rows| ==> c.rows[i] in c.rows;
  }

  // ---- what agreement is ----

  function CodeShown(code: Option<string>): Value {
    if code.Some? then Str(code.value) else Null
  }

  predicate NodeShown(view: NodeView, node: Node, i: nat) {
    view.id == Worker(i + 1) && view.status == node.status && view.errorCode == CodeShown(node.errorCode)
  }

  /** The read-back run shows node i at its place, and both sides know whether it has ended. */
  predicate ShownAt(st: RunState, ended: set<nat>, nodes: seq<Node>, i: nat)
    requires i < |nodes| == |st.view.nodes|
  {
    && NodeShown(st.view.nodes[i], nodes[i], i)
    && (Worker(i + 1) in st.doneNodes <==> Terminal(nodes[i].status))
    && (i in ended <==> Terminal(nodes[i].status))
  }

  /** The read-back run shows these nodes, in this order, and both sides know which have ended. */
  ghost predicate StateShown(st: RunState, ended: set<nat>, nodes: seq<Node>) {
    && |st.view.nodes| == |nodes|
    && (forall i: nat :: i < |nodes| ==> ShownAt(st, ended, nodes, i))
    && (forall n :: n in st.doneNodes ==> n.Worker? && 1 <= n.index <= |nodes|)
    && (forall i :: i in ended ==> i < |nodes|)
  }

  ghost predicate NodesShown(c: Ctl, nodes: seq<Node>) {
    TidyInv(c) && Fold(c.rows, c.id).Some? && StateShown(Fold(c.rows, c.id).value, c.terminalNodes, nodes)
  }

  ghost predicate RunShown(c: Ctl, run: Run) {
    && Fold(c.rows, c.id).Some?
    && var st := Fold(c.rows, c.id).value;
    && st.view.status == run.status && st.view.strategy == StrategyText(run.strategy)
    && (st.done <==> Terminal(run.status))
    && (c.terminalRun <==> Terminal(run.status))
    && (st.done ==> st.view.errorCode == CodeShown(run.errorCode))
  }

  ghost predicate Agrees(c: Ctl) {
    NodesShown(c, c.run.nodes) && RunShown(c, c.run)
  }

  // ---- one more row ----

  lemma FoldSnoc(rows: seq<Row>, row: Row, id: RunId)
    ensures Fold(rows + [row], id) == StepOption(Fold(rows, id), id, row)
  {
    assert (rows + [row])[..|rows|] == rows;
  }

  lemma SameNodesShown(st: RunState, st': RunState, ended: set<nat>, nodes: seq<Node>)
    requires StateShown(st, ended, nodes)
    requires st'.view.nodes == st.view.nodes && st'.doneNodes == st.doneNodes
    ensures StateShown(st', ended, nodes)
  {
    forall i: nat | i < |nodes|
      ensures ShownAt(st', ended, nodes, i)
    {
      assert ShownAt(st, ended, nodes, i);
    }
  }

  /** A run event while the run has not ended. */
  lemma RunEventShown(c: Ctl, run: Run, d: nat -> Detail, nodes: seq<Node>)
    requires NodesShown(c, nodes) && !Fold(c.rows, c.id).value.done && !c.terminalRun
    requires run.status in {Queued, Running, Waiting} ||
      (Terminal(run.status) && Fold(c.rows, c.id).value.view.strategy == StrategyText(run.strategy))
    ensures NodesShown(Remember(c, run, d), nodes) && RunShown(Remember(c, run, d), run)
  {
    RunRowTidy(c, run, d);
    FoldSnoc(c.rows, RunRow(c.id, EventFor(run.status), run, d(|c.rows|)), c.id);
    SameNodesShown(Fold(c.rows, c.id).value, Fold(Remember(c, run, d).rows, c.id).value, c.terminalNodes, nodes);
  }

  /** `c` has come from `c0` by emitting nodes that have not started. */
  ghost predicate Announced(c0: Ctl, c: Ctl, nodes: seq<Node>) {
    && NodesShown(c, nodes) && !Fold(c.rows, c.id).value.done && !c.terminalRun
    && c == c0.(rows := c.rows, terminalNodes := c.terminalNodes)
  }

  lemma NewNodeShown(st: RunState, ended: set<nat>, nodes: seq<Node>, node: Node, strategy: Strategy, id: RunId,
                     d: Detail)
    requires StateShown(st, ended, nodes) && node == Node(|nodes|, Queued, None, None)
    ensures var st' := StepRun(st, NodeUpdated, NodeRow(id, strategy, node, d).meta.value);
      StateShown(st', ended, nodes + [node]) && st'.done == st.done
  {
    var n := Worker(|nodes| + 1);
    assert n !in st.doneNodes;
    forall i: nat | i < |nodes|
      ensures st.view.nodes[i].id != n
    {
      assert ShownAt(st, ended, nodes, i);
    }
    assert IndexOf(st.view.nodes, n) == |nodes|;
    var st' := StepRun(st, NodeUpdated, NodeRow(id, strategy, node, d).meta.value);
    assert st'.view.nodes[..|nodes|] == st.view.nodes && st'.doneNodes == st.doneNodes;
    forall i: nat | i < |nodes + [node]|
      ensures ShownAt(st', ended, nodes + [node], i)
    {
      if i < |nodes| {
        assert ShownAt(st, ended, nodes, i);
        assert st'.view.nodes[i] == st.view.nodes[i];
      }
    }
  }

  lemma FirstNodeShown(c0: Ctl, c: Ctl, nodes: seq<Node>, node: Node, d: Detail)
    requires Announced(c0, c, nodes) && node == Node(|nodes|, Queued, None, None)
    ensures Announced(c0, EmitNode(c, node, d), nodes + [node])
  {
    assert |nodes| !in c.terminalNodes;
    NodeRowTidy(c, node, d);
    FoldSnoc(c.rows, NodeRow(c.id, c.run.strategy, node, d), c.id);
    NewNodeShown(Fold(c.rows, c.id).value, c.terminalNodes, nodes, node, c.run.strategy, c.id, d);
  }

  lemma QueuedGrow(n: nat)
    ensures QueuedNodes(n + 1) == QueuedNodes(n) + [Node(n, Queued, None, None)]
  {
  }

  lemma EmitNodesGrow(c: Ctl, front: seq<Node>, node: Node, d: nat -> Detail)
    ensures var before := EmitNodes(c, front, d);
      EmitNodes(c, front + [node], d) == EmitNode(before, node, d(|before.rows|))
  {
    assert (front + [node])[..|front|] == front;
  }

  lemma {:induction false} FirstNodesShown(c: Ctl, n: nat, d: nat -> Detail)
    requires Announced(c, c, [])
    ensures Announced(c, EmitNodes(c, QueuedNodes(n), d), QueuedNodes(n))
  {
    if n == 0 {
      assert QueuedNodes(0) == [];
    } else {
      var front, node := QueuedNodes(n - 1), Node(n - 1, Queued, None, None);
      var before := EmitNodes(c, front, d);
      FirstNodesShown(c, n - 1, d);
      FirstNodeShown(c, before, front, node, d(|before.rows|));
      EmitNodesGrow(c, front, node, d);
      QueuedGrow(n - 1);
    }
  }

  lemma FirstEventShown(id: RunId, strategy: Strategy, n: nat, d: nat -> Detail)
    ensures Announced(Created(id, strategy, n, d), Created(id, strategy, n, d), [])
  {
    var run := Run(strategy, Queued, QueuedNodes(n), None);
    var c0 := Ctl(id, run, [], {}, false, false);
    assert TidyInv(c0);
    RunRowTidy(c0, run, d);
    FoldSnoc([], RunRow(id, RunStarted, run, d(0)), id);
  }

  lemma RunStartsShown(c: Ctl, run: Run, d: nat -> Detail)
    requires NodesShown(c, run.nodes) && !Fold(c.rows, c.id).value.done && !c.terminalRun && run.status.Running?
    ensures var c' := Remember(c, run, d);
            Agrees(c') && c'.run == run && c'.id == c.id && c'.released == c.released
  {
    RunEventShown(c, run, d, run.nodes);
  }

  /** When the workers start, the log shows the running run with its queued nodes. */
  lemma BeginAgrees(id: RunId, strategy: Strategy, n: nat, d: nat -> Detail)
    ensures var c := Begin(id, strategy, n, d);
            Agrees(c) && c.run == Run(strategy, Running, QueuedNodes(n), None) && c.id == id && !c.released
  {
    FirstEventShown(id, strategy, n, d);
    FirstNodesShown(Created(id, strategy, n, d), n, d);
    RunStartsShown(Queue(id, strategy, n, d), Run(strategy, Running, QueuedNodes(n), None), d);
    CreatedFacts(id, strategy, n, d);
  }

  lemma CreatedFacts(id: RunId, strategy: Strategy, n: nat, d: nat -> Detail)
    ensures Created(id, strategy, n, d).id == id && !Created(id, strategy, n, d).released
  {
  }

  // ---- the workers ----

  function StageNode(stage: Stage, i: nat): Node {
    match stage
    case Unstarted => Node(i, Queued, None, None)
    case Active => Node(i, Running, None, None)
    case Over(node) => node
  }

  function StageNodes(stages: seq<Stage>): seq<Node> {
    seq(|stages|, i requires 0 <= i < |stages| => StageNode(stages[i], i))
  }

  /** A row of an open node changes that node of the read-back run, and nothing else. */
  lemma NodeRowRead(st: RunState, node: Node, id: RunId, strategy: Strategy, d: Detail)
    requires node.index < |st.view.nodes| && st.view.nodes[node.index].id == Worker(node.index + 1)
    requires forall j :: 0 <= j < node.index ==> st.view.nodes[j].id != Worker(node.index + 1)
    requires Worker(node.index + 1) !in st.doneNodes && st.view.nodes[node.index].errorCode == Null
    ensures var m := NodeRow(id, strategy, node, d).meta.value;
            var st', i := StepRun(st, NodeUpdated, m), node.index;
            && st'.done == st.done
            && st'.view == st.view.(nodes := st'.view.nodes)
            && st'.view.nodes == st.view.nodes[i := st'.view.nodes[i]]
            && NodeShown(st'.view.nodes[i], node, i)
            && st'.doneNodes == if Terminal(node.status) then st.doneNodes + {Worker(i + 1)} else st.doneNodes
  {
    assert IndexOf(st.view.nodes, Worker(node.index + 1)) == node.index;
  }

  lemma NodeStateShown(st: RunState, ended: set<nat>, nodes: seq<Node>, node: Node, strategy: Strategy, id: RunId,
                       d: Detail)
    requires StateShown(st, ended, nodes) && node.index < |nodes|
    requires !Terminal(nodes[node.index].status) && nodes[node.index].errorCode.None?
    ensures var st' := StepRun(st, NodeUpdated, NodeRow(id, strategy, node, d).meta.value);
      && StateShown(st', if Terminal(node.status) then ended + {node.index} else ended, nodes[node.index := node])
      && st'.done == st.done && st'.view == st.view.(nodes := st'.view.nodes)
  {
    assert ShownAt(st, ended, nodes, node.index);
    forall j: nat | j < node.index
      ensures st.view.nodes[j].id != Worker(node.index + 1)
    {
      assert ShownAt(st, ended, nodes, j);
    }
    NodeRowRead(st, node, id, strategy, d);
    var st' := StepRun(st, NodeUpdated, NodeRow(id, strategy, node, d).meta.value);
    var nodes' := nodes[node.index := node];
    var ended' := if Terminal(node.status) then ended + {node.index} else ended;
    forall i: nat | i < |nodes|
      ensures ShownAt(st', ended', nodes', i)
    {
      assert ShownAt(st, ended, nodes, i);
      assert i != node.index ==> st'.view.nodes[i] == st.view.nodes[i];
    }
  }

  lemma NodeEventShown(c: Ctl, nodes: seq<Node>, node: Node, d: Detail)
    requires NodesShown(c, nodes) && node.index < |nodes| && !c.terminalRun
    requires !Terminal(nodes[node.index].status) && nodes[node.index].errorCode.None?
    ensures NodesShown(EmitNode(c, node, d), nodes[node.index := node])
    ensures RunShown(c, c.run) ==> RunShown(EmitNode(c, node, d), c.run)
  {
    assert ShownAt(Fold(c.rows, c.id).value, c.terminalNodes, nodes, node.index);
    NodeRowTidy(c, node, d);
    FoldSnoc(c.rows, NodeRow(c.id, c.run.strategy, node, d), c.id);
    NodeStateShown(Fold(c.rows, c.id).value, c.terminalNodes, nodes, node, c.run.strategy, c.id, d);
  }

  /** A worker's next event, at whatever moment it comes, moves exactly its own node. */
  lemma WorkerEventShown(c: Ctl, stages: seq<Stage>, e: NodeEvent, d: nat -> Detail)
    requires NodesShown(c, StageNodes(stages)) && CanHappen(stages, e) && !c.terminalRun
    ensures Emit(c, e, d).terminalRun == c.terminalRun
    ensures NodesShown(Emit(c, e, d), StageNodes(After(stages, e)))
    ensures RunShown(c, c.run) ==> RunShown(Emit(c, e, d), c.run)
  {
    NodeEventShown(c, StageNodes(stages), EventNode(e), d(|c.rows|));
    assert StageNodes(After(stages, e)) == StageNodes(stages)[e.i := EventNode(e)];
  }

  lemma {:induction false} WorkersShown(c: Ctl, stages: seq<Stage>, evs: seq<NodeEvent>, d: nat -> Detail)
    requires NodesShown(c, StageNodes(stages)) && RunShown(c, c.run) && ValidTrace(stages, evs) && !c.terminalRun
    ensures var c' := EmitAll(c, evs, d);
            NodesShown(c', StageNodes(StagesAfter(stages, evs))) && RunShown(c', c'.run)
            && c'.run == c.run && c'.id == c.id && c'.released == c.released
    decreases |evs|
  {
    if evs != [] {
      WorkerEventShown(c, stages, evs[0], d);
      WorkersShown(Emit(c, evs[0], d), After(stages, evs[0]), evs[1..], d);
    }
  }

  lemma CollectedShown(c: Ctl, n: nat, evs: seq<NodeEvent>, nodes: seq<Node>, d: nat -> Detail)
    requires NodesShown(c, QueuedNodes(n)) && RunShown(c, c.run) && !c.terminalRun
    requires ValidTrace(FreshStages(n), evs) && Collected(StagesAfter(FreshStages(n), evs), nodes)
    ensures NodesShown(EmitAll(c, evs, d), nodes) && RunShown(EmitAll(c, evs, d), c.run)
    ensures EmitAll(c, evs, d).run == c.run && EmitAll(c, evs, d).id == c.id
    ensures EmitAll(c, evs, d).released == c.released
  {
    assert StageNodes(FreshStages(n)) == QueuedNodes(n);
    WorkersShown(c, FreshStages(n), evs, d);
    assert StageNodes(StagesAfter(FreshStages(n), evs)) == nodes;
  }

  // ---- the end of the run ----

  lemma ConcludeAgrees(c: Ctl, nodes: seq<Node>, stop: bool, late: bool, overBudget: bool, d: nat -> Detail)
    requires NodesShown(c, nodes) && RunShown(c, c.run) && c.run.status.Running?
    ensures Agrees(Conclude(c, nodes, stop, late, overBudget, d))
    ensures Conclude(c, nodes, stop, late, overBudget, d).released == c.released
    ensures Live(Conclude(c, nodes, stop, late, overBudget, d).run)
  {
    var run := c.run.(nodes := nodes);
    var verdict := Verdict(run, stop, late, overBudget);
    if verdict.Some? {
      RunEventShown(c, verdict.value, d, nodes);
    }
  }

  predicate Live(run: Run) {
    run.status in {Running, Waiting} || Terminal(run.status)
  }

  lemma ParentOpAgrees(c: Ctl, op: ParentOp, d: nat -> Detail)
    requires Agrees(c) && Live(c.run)
    ensures Agrees(ApplyOp(c, op, d)) && Live(ApplyOp(c, op, d).run)
  {
    if !Terminal(c.run.status) {
      match op {
        case SetWaiting(waiting) =>
          RunEventShown(c, c.run.(status := if waiting then Waiting else Running), d, c.run.nodes);
        case CheckContext(exceeded) =>
          RunEventShown(c, c.run.(status := Failed, errorCode := Some(RESULT_CONTEXT_EXCEEDED)), d, c.run.nodes);
        case Finalize(outcome, late) =>
          RunEventShown(c, c.run.(status := OutcomeStatus(outcome, late)), d, c.run.nodes);
      }
    }
  }

  lemma {:induction false} ParentAgrees(c: Ctl, ops: seq<ParentOp>, d: nat -> Detail)
    requires Agrees(c) && Live(c.run)
    ensures Agrees(ApplyOps(c, ops, d)) && Live(ApplyOps(c, ops, d).run)
  {
    if ops != [] {
      ParentAgrees(c, ops[..|ops| - 1], d);
      ParentOpAgrees(ApplyOps(c, ops[..|ops| - 1], d), ops[|ops| - 1], d);
    }
  }

  /** Everything the coordinator does for one request. */
  function WholeRun(id: RunId, strategy: Strategy, n: nat, evs: seq<NodeEvent>, nodes: seq<Node>,
                    stop: bool, late: bool, overBudget: bool, ops: seq<ParentOp>, d: nat -> Detail): Ctl
  {
    ApplyOps(Conclude(EmitAll(Begin(id, strategy, n, d), evs, d), nodes, stop, late, overBudget, d), ops, d)
  }

  /** Reading the log back gives the coordinator's run status, its nodes in task order with their
      statuses, and the error codes: for every order of the workers' events, every verdict and
      every sequence of waiting, context checks and finalisation by the parent. Each node and the
      run have at most one terminal event, and nothing of them follows it. */
  lemma LogAgreesWithRun(id: RunId, strategy: Strategy, n: nat, evs: seq<NodeEvent>, nodes: seq<Node>,
                         stop: bool, late: bool, overBudget: bool, ops: seq<ParentOp>, d: nat -> Detail)
    requires ValidTrace(FreshStages(n), evs) && Collected(StagesAfter(FreshStages(n), evs), nodes)
    ensures var c := WholeRun(id, strategy, n, evs, nodes, stop, late, overBudget, ops, d);
            Agrees(c) && c.run.nodes == nodes && Tidy(c.rows)
  {
    BeginAgrees(id, strategy, n, d);
    CollectedShown(Begin(id, strategy, n, d), n, evs, nodes, d);
    var c := EmitAll(Begin(id, strategy, n, d), evs, d);
    ConcludeAgrees(c, nodes, stop, late, overBudget, d);
    var c' := Conclude(c, nodes, stop, late, overBudget, d);
    ConcludeNodes(c, nodes, stop, late, overBudget, d);
    ParentAgrees(c', ops, d);
    OpsKeepNodes(c', ops, d);
  }

  lemma ConcludeNodes(c: Ctl, nodes: seq<Node>, stop: bool, late: bool, overBudget: bool, d: nat -> Detail)
    ensures Conclude(c, nodes, stop, late, overBudget, d).run.nodes == nodes
  {
  }

  lemma {:induction false} OpsKeepNodes(c: Ctl, ops: seq<ParentOp>, d: nat -> Detail)
    ensures ApplyOps(c, ops, d).run.nodes == c.run.nodes
  {
    if ops != [] {
      OpsKeepNodes(c, ops[..|ops| - 1], d);
    }
  }
}
