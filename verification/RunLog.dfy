/** The Multi-Agent part of a session's trace log: how the log is read back into run views, and
    how it is repaired after a restart. */
module RunLog {
  import opened Options

  /** The non-empty status texts; `OtherStatus` is any text the code does not know. */
  datatype Status =
    | Queued | Running | Waiting
    | Completed | Failed | TimedOut | Cancelled | Interrupted
    | OtherStatus(text: string)

  predicate Terminal(s: Status) {
    s.Completed? || s.Failed? || s.TimedOut? || s.Cancelled? || s.Interrupted?
  }

  /** A metadata field as `dict.get` sees it. */
  datatype Value = Absent | Null | Bool(b: bool) | Num(n: real) | Str(s: string)

  type RunId(==, !new)

  datatype NodeId = Worker(index: nat) | Named(text: string)

  datatype EventType = RunStarted | NodeUpdated | RunCompleted | RunFailed | RunCancelled | OtherEvent

  predicate EndsRun(e: EventType) {
    e.RunCompleted? || e.RunFailed? || e.RunCancelled?
  }

  /** `runId`, `nodeId` and `status` are None unless they hold a non-empty string. */
  datatype Meta = Meta(
    runId: Option<RunId>,
    nodeId: Option<NodeId>,
    status: Option<Status>,
    parentRequestId: Option<string>,
    taskLabel: Value,
    strategy: Value,
    durationMs: Value,
    errorCode: Value,
    error: Value,
    content: Value)

  datatype Row = Row(multiAgent: bool, event: EventType, meta: Option<Meta>)

  /** The label of a node without one is its id. */
  datatype Role = Label(v: Value) | IdLabel(id: NodeId)

  datatype NodeView = NodeView(
    id: NodeId, role: Role, status: Status,
    durationMs: Value, content: Value, errorCode: Value, error: Value)

  datatype RunView = RunView(
    id: RunId, status: Status, strategy: Value, nodes: seq<NodeView>,
    errorCode: Value, error: Value, durationMs: Value, parentRequestId: Option<string>)

  /** A run being read: its view, whether it has ended, and which of its nodes have. */
  datatype RunState = RunState(view: RunView, done: bool, doneNodes: set<NodeId>)

  const ERROR_LIMIT: nat := 256

  function Got(v: Value): Value {
    if v.Absent? then Null else v
  }

  predicate IsNumber(v: Value) {
    v.Num? || v.Bool?
  }

  function Clip(s: string): string {
    if |s| <= ERROR_LIMIT then s else s[..ERROR_LIMIT]
  }

  /** The run a row is about, if the reader takes the row into account at all. */
  function RunOf(row: Row): Option<RunId> {
    if row.multiAgent && row.meta.Some? && !row.event.OtherEvent? then row.meta.value.runId else None
  }

  // ---- reading ----

  function NewRun(id: RunId, m: Meta): RunView {
    RunView(id, Queued, if m.strategy.Absent? then Str("") else m.strategy, [], Null, Null, Null, m.parentRequestId)
  }

  function NewNode(id: NodeId, m: Meta): NodeView {
    NodeView(id, if m.taskLabel.Absent? then IdLabel(id) else Label(m.taskLabel), Queued, Null, Null, Null, Null)
  }

  function OnStarted(v: RunView, m: Meta): RunView {
    v.(status := if m.status.Some? then m.status.value else v.status,
       strategy := if m.strategy.Str? then m.strategy else v.strategy,
       durationMs := if IsNumber(m.durationMs) then m.durationMs else v.durationMs)
  }

  function OnNode(n: NodeView, m: Meta): NodeView {
    n.(status := if m.status.Some? then m.status.value else n.status,
       role := if m.taskLabel.Str? then Label(m.taskLabel) else n.role,
       durationMs := if IsNumber(m.durationMs) then m.durationMs else n.durationMs,
       content := if m.content.Str? then m.content else n.content,
       errorCode := if m.errorCode.Str? then m.errorCode else n.errorCode,
       error := if m.error.Str? then Str(Clip(m.error.s)) else n.error)
  }

  function OnEnd(v: RunView, m: Meta): RunView
    requires m.status.Some?
  {
    v.(status := m.status.value,
       errorCode := Got(m.errorCode),
       error := Got(m.error),
       durationMs := if IsNumber(m.durationMs) then m.durationMs else v.durationMs)
  }

  function IndexOf(nodes: seq<NodeView>, id: NodeId): (i: nat)
    ensures i <= |nodes|
    ensures i < |nodes| ==> nodes[i].id == id
    ensures forall j :: 0 <= j < i ==> nodes[j].id != id
  {
    if nodes == [] || nodes[0].id == id then 0 else 1 + IndexOf(nodes[1..], id)
  }

  function UpdateNode(nodes: seq<NodeView>, id: NodeId, m: Meta): seq<NodeView> {
    var i := IndexOf(nodes, id);
    if i < |nodes| then nodes[i := OnNode(nodes[i], m)] else nodes + [OnNode(NewNode(id, m), m)]
  }

  predicate TerminalStatus(m: Meta) {
    m.status.Some? && Terminal(m.status.value)
  }

  /** What one row does to its run. */
  function StepRun(st: RunState, event: EventType, m: Meta): RunState {
    if event.RunStarted? then
      if st.done then st else st.(view := OnStarted(st.view, m))
    else if event.NodeUpdated? then
      if m.nodeId.None? || m.nodeId.value in st.doneNodes then st
      else
        var id := m.nodeId.value;
        st.(view := st.view.(nodes := UpdateNode(st.view.nodes, id, m)),
            doneNodes := if TerminalStatus(m) then st.doneNodes + {id} else st.doneNodes)
    else if EndsRun(event) then
      if !st.done && TerminalStatus(m) then st.(view := OnEnd(st.view, m), done := true) else st
    else st
  }

  function StepOption(before: Option<RunState>, id: RunId, row: Row): Option<RunState> {
    if RunOf(row) != Some(id) then before
    else
      var m := row.meta.value;
      Some(StepRun(if before.Some? then before.value else RunState(NewRun(id, m), false, {}), row.event, m))
  }

  /** Run `id` as the whole log shows it; None when the log has no row of it. */
  function Fold(rows: seq<Row>, id: RunId): Option<RunState> {
    if rows == [] then None
    else StepOption(Fold(rows[..|rows| - 1], id), id, rows[|rows| - 1])
  }

  /** The runs of the log, by first appearance. */
  function Order(rows: seq<Row>): seq<RunId> {
    if rows == [] then []
    else
      var before := Order(rows[..|rows| - 1]);
      var run := RunOf(rows[|rows| - 1]);
      if run.Some? && run.value !in before then before + [run.value] else before
  }

  lemma {:induction false} FoldIffOrdered(rows: seq<Row>, id: RunId)
    ensures Fold(rows, id).Some? <==> id in Order(rows)
    ensures Fold(rows, id).Some? ==> Fold(rows, id).value.view.id == id
  {
    if rows != [] {
      FoldIffOrdered(rows[..|rows| - 1], id);
    }
  }

  lemma {:induction false} OrderDistinct(rows: seq<Row>)
    ensures forall i, j :: 0 <= i < j < |Order(rows)| ==> Order(rows)[i] != Order(rows)[j]
  {
    if rows != [] {
      OrderDistinct(rows[..|rows| - 1]);
    }
  }

  /** The reader's tables while it goes through the rows; the keys of `runs` come in the order of
      `order`. */
  datatype Tables = Tables(
    runs: map<RunId, RunView>,
    order: seq<RunId>,
    terminalRuns: set<RunId>,
    terminalNodes: set<(RunId, NodeId)>)

  function NodesOf(keys: set<(RunId, NodeId)>, id: RunId): set<NodeId> {
    set key | key in keys && key.0 == id :: key.1
  }

  /** What the tables say about run `id`. */
  function StateOf(t: Tables, id: RunId): Option<RunState> {
    if id in t.runs then Some(RunState(t.runs[id], id in t.terminalRuns, NodesOf(t.terminalNodes, id))) else None
  }

  /** The tables speak only of runs they have a view of. */
  ghost predicate Closed(t: Tables) {
    && (forall id :: id in t.order <==> id in t.runs)
    && (forall id :: id in t.terminalRuns ==> id in t.runs)
    && (forall id, n :: (id, n) in t.terminalNodes ==> id in t.runs)
  }

  /** One pass of the reader's loop body. */
  method ReadRow(t: Tables, row: Row) returns (t': Tables)
    requires Closed(t)
    ensures Closed(t')
    ensures forall id :: StateOf(t', id) == StepOption(StateOf(t, id), id, row)
    ensures t'.order == if RunOf(row).Some? && RunOf(row).value !in t.order then t.order + [RunOf(row).value] else t.order
  {
    t' := t;
    var run := RunOf(row);
    if run.None? {
      return;
    }
    var id, m := run.value, row.meta.value;
    if id !in t'.runs {
      t' := t'.(runs := t'.runs[id := NewRun(id, m)], order := t'.order + [id]);
      assert NodesOf(t.terminalNodes, id) == {};
    }
    ghost var t1 := t';
    assert forall q :: q != id ==> StateOf(t1, q) == StateOf(t, q);
    if row.event.RunStarted? && id !in t'.terminalRuns {
      t' := t'.(runs := t'.runs[id := OnStarted(t'.runs[id], m)]);
    }
    if row.event.NodeUpdated? {
      if m.nodeId.None? {
        return;
      }
      var nodeId := m.nodeId.value;
      assert nodeId in NodesOf(t1.terminalNodes, id) <==> (id, nodeId) in t1.terminalNodes;
      if (id, nodeId) in t'.terminalNodes {
        return;
      }
      var view := t'.runs[id].(nodes := UpdateNode(t'.runs[id].nodes, nodeId, m));
      t' := t'.(runs := t'.runs[id := view]);
      if TerminalStatus(m) {
        t' := t'.(terminalNodes := t'.terminalNodes + {(id, nodeId)});
        assert NodesOf(t'.terminalNodes, id) == NodesOf(t1.terminalNodes, id) + {nodeId};
        assert forall q :: q != id ==> NodesOf(t'.terminalNodes, q) == NodesOf(t1.terminalNodes, q);
      }
    }
    if EndsRun(row.event) && id !in t'.terminalRuns && TerminalStatus(m) {
      t' := t'.(runs := t'.runs[id := OnEnd(t'.runs[id], m)], terminalRuns := t'.terminalRuns + {id});
    }
  }

  /** The reader: one pass over the rows, filling the views, the set of ended runs and the set of
      ended nodes; then the newest `limit` views. */
  method ReadRuns(rows: seq<Row>, limit: Option<int>) returns (views: seq<RunView>)
    ensures limit.Some? && limit.value <= 0 ==> views == []
    ensures limit.None? || limit.value > 0 ==>
      var order := Order(rows);
      var first := if limit.Some? && limit.value < |order| then |order| - limit.value else 0;
      && |views| == |order| - first
      && forall i :: 0 <= i < |views| ==>
           Fold(rows, order[first + i]).Some? && views[i] == Fold(rows, order[first + i]).value.view
  {
    if limit.Some? && limit.value <= 0 {
      return [];
    }
    var t := Tables(map[], [], {}, {});
    for k := 0 to |rows|
      invariant Closed(t) && t.order == Order(rows[..k])
      invariant forall id :: StateOf(t, id) == Fold(rows[..k], id)
    {
      assert rows[..k + 1][..k] == rows[..k];
      t := ReadRow(t, rows[k]);
    }
    assert rows[..|rows|] == rows;
    var first := if limit.Some? && limit.value < |t.order| then |t.order| - limit.value else 0;
    forall i | 0 <= i < |t.order|
      ensures t.order[i] in t.runs && Fold(rows, t.order[i]).Some?
      ensures t.runs[t.order[i]] == Fold(rows, t.order[i]).value.view
    {
      assert StateOf(t, t.order[i]) == Fold(rows, t.order[i]);
    }
    views := seq(|t.order| - first, i requires 0 <= i < |t.order| - first => t.runs[t.order[first + i]]);
  }
}
