/** What reading and repairing the Multi-Agent log guarantee: ended runs and nodes never change
    again, runs do not disturb each other, and recovery ends everything that was left open. */
module RunRecovery {
  import opened Options
  import opened RunLog

  // ---- a run only depends on its own rows ----

  function RowsOf(rows: seq<Row>, id: RunId): seq<Row> {
    if rows == [] then []
    else
      var before := RowsOf(rows[..|rows| - 1], id);
      if RunOf(rows[|rows| - 1]) == Some(id) then before + [rows[|rows| - 1]] else before
  }

  lemma {:induction false} RowsOfConcat(a: seq<Row>, b: seq<Row>, id: RunId)
    ensures RowsOf(a + b, id) == RowsOf(a, id) + RowsOf(b, id)
    decreases |b|
  {
    if b == [] {
      assert a + b == a;
    } else {
      assert (a + b)[..|a + b| - 1] == a + b[..|b| - 1];
      RowsOfConcat(a, b[..|b| - 1], id);
    }
  }

  lemma {:induction false} RowsOfOwn(rows: seq<Row>, id: RunId)
    ensures forall row :: row in RowsOf(rows, id) <==> row in rows && RunOf(row) == Some(id)
  {
    if rows != [] {
      RowsOfOwn(rows[..|rows| - 1], id);
      assert rows == rows[..|rows| - 1] + [rows[|rows| - 1]];
    }
  }

  /** Rows of other runs between those of a run make no difference to it. */
  lemma {:induction false} RunsAreIndependent(rows: seq<Row>, id: RunId)
    ensures Fold(rows, id) == Fold(RowsOf(rows, id), id)
  {
    if rows != [] {
      var front, row := rows[..|rows| - 1], rows[|rows| - 1];
      RunsAreIndependent(front, id);
      if RunOf(row) == Some(id) {
        assert RowsOf(rows, id)[..|RowsOf(rows, id)| - 1] == RowsOf(front, id);
      }
    }
  }

  // ---- what has ended stays as it is ----

  /** `b` continues `a`: nodes keep their places, ended nodes and the end of the run are final. */
  ghost predicate Continues(a: RunState, b: RunState) {
    && |a.view.nodes| <= |b.view.nodes|
    && (forall i :: 0 <= i < |a.view.nodes| ==> a.view.nodes[i].id == b.view.nodes[i].id)
    && (forall i :: 0 <= i < |a.view.nodes| && a.view.nodes[i].id in a.doneNodes ==>
          a.view.nodes[i] == b.view.nodes[i])
    && a.doneNodes <= b.doneNodes
    && (a.done ==>
          b.done && b.view.status == a.view.status && b.view.errorCode == a.view.errorCode
          && b.view.error == a.view.error && b.view.strategy == a.view.strategy
          && b.view.durationMs == a.view.durationMs)
  }

  lemma StepContinues(st: RunState, event: EventType, m: Meta)
    ensures Continues(st, StepRun(st, event, m))
  {
  }

  /** Whatever is appended to the log later, the view of an ended run keeps its status and errors,
      and an ended node keeps everything. */
  lemma {:induction false} EndedStaysEnded(rows: seq<Row>, more: seq<Row>, id: RunId)
    requires Fold(rows, id).Some?
    ensures Fold(rows + more, id).Some? && Continues(Fold(rows, id).value, Fold(rows + more, id).value)
    decreases |more|
  {
    if more == [] {
      assert rows + more == rows;
    } else {
      var front, row := more[..|more| - 1], more[|more| - 1];
      assert (rows + more)[..|rows + more| - 1] == rows + front;
      EndedStaysEnded(rows, front, id);
      if RunOf(row) == Some(id) {
        StepContinues(Fold(rows + front, id).value, row.event, row.meta.value);
      }
    }
  }

  // ---- when a run and a node count as ended ----

  predicate EndsItsRun(row: Row) {
    EndsRun(row.event) && row.meta.Some? && TerminalStatus(row.meta.value)
  }

  /** Some row of the group ends the run. */
  predicate HasEnd(group: seq<Row>) {
    exists row :: row in group && EndsItsRun(row)
  }

  /** Every row belongs to run `id`. */
  ghost predicate Own(group: seq<Row>, id: RunId) {
    forall row :: row in group ==> RunOf(row) == Some(id)
  }

  predicate UpdatesNode(row: Row, n: NodeId) {
    row.event.NodeUpdated? && row.meta.Some? && row.meta.value.nodeId == Some(n)
  }

  predicate EndsNode(row: Row, n: NodeId) {
    UpdatesNode(row, n) && TerminalStatus(row.meta.value)
  }

  /** Some row of the group ends, or updates, the node. */
  ghost predicate EndedIn(group: seq<Row>, n: NodeId) {
    exists row :: row in group && EndsNode(row, n)
  }

  ghost predicate UpdatedIn(group: seq<Row>, n: NodeId) {
    exists row :: row in group && UpdatesNode(row, n)
  }

  ghost predicate InView(st: RunState, n: NodeId) {
    exists i :: 0 <= i < |st.view.nodes| && st.view.nodes[i].id == n
  }

  /** A node shows a terminal status exactly when it is among the ended ones. */
  ghost predicate NodesConsistent(st: RunState) {
    && (forall i :: 0 <= i < |st.view.nodes| ==>
          (Terminal(st.view.nodes[i].status) <==> st.view.nodes[i].id in st.doneNodes))
    && (forall i, j :: 0 <= i < j < |st.view.nodes| ==> st.view.nodes[i].id != st.view.nodes[j].id)
  }

  lemma StepShows(st: RunState, event: EventType, m: Meta, q: NodeId)
    ensures InView(StepRun(st, event, m), q) <==>
              InView(st, q) || (event.NodeUpdated? && m.nodeId == Some(q) && q !in st.doneNodes)
  {
    var st' := StepRun(st, event, m);
    if event.NodeUpdated? && m.nodeId.Some? && m.nodeId.value !in st.doneNodes {
      var n := m.nodeId.value;
      assert st'.view.nodes[IndexOf(st.view.nodes, n)].id == n;
      if InView(st, q) {
        var j :| 0 <= j < |st.view.nodes| && st.view.nodes[j].id == q;
        assert st'.view.nodes[j].id == q;
      }
      if InView(st', q) {
        var j :| 0 <= j < |st'.view.nodes| && st'.view.nodes[j].id == q;
        assert q == n || st.view.nodes[j].id == q;
      }
    }
  }

  lemma StepConsistent(st: RunState, event: EventType, m: Meta)
    requires NodesConsistent(st)
    ensures NodesConsistent(StepRun(st, event, m))
  {
  }

  lemma EndedInAppend(a: seq<Row>, b: seq<Row>, n: NodeId)
    ensures EndedIn(a + b, n) <==> EndedIn(a, n) || EndedIn(b, n)
    ensures UpdatedIn(a + b, n) <==> UpdatedIn(a, n) || UpdatedIn(b, n)
  {
    assert forall row :: row in a + b <==> row in a || row in b;
  }

  lemma EndedInOne(row: Row, n: NodeId)
    ensures EndedIn([row], n) <==> EndsNode(row, n)
    ensures UpdatedIn([row], n) <==> UpdatesNode(row, n)
  {
    assert row in [row];
  }

  lemma EndedIsUpdated(group: seq<Row>, n: NodeId)
    ensures EndedIn(group, n) ==> UpdatedIn(group, n)
  {
  }

  /** The reader's marks, told from the rows: a run has ended when one of its rows ends it, a node
      when one of its rows ends it, and the nodes shown are those that some row updates. */
  ghost predicate Marks(st: RunState, group: seq<Row>) {
    && (st.done <==> HasEnd(group))
    && NodesConsistent(st)
    && (forall n :: n in st.doneNodes <==> EndedIn(group, n))
    && (forall n :: InView(st, n) <==> UpdatedIn(group, n))
  }

  lemma StepMarks(st: RunState, front: seq<Row>, row: Row)
    requires Marks(st, front) && row.meta.Some?
    ensures Marks(StepRun(st, row.event, row.meta.value), front + [row])
  {
    var st' := StepRun(st, row.event, row.meta.value);
    StepConsistent(st, row.event, row.meta.value);
    assert HasEnd(front + [row]) <==> HasEnd(front) || EndsItsRun(row) by {
      assert forall r :: r in front + [row] <==> r in front || r == row;
    }
    forall n
      ensures n in st'.doneNodes <==> EndedIn(front + [row], n)
      ensures InView(st', n) <==> UpdatedIn(front + [row], n)
    {
      EndedInAppend(front, [row], n);
      EndedInOne(row, n);
      StepShows(st, row.event, row.meta.value, n);
      EndedIsUpdated(front, n);
    }
  }

  lemma FirstMarks(id: RunId, m: Meta)
    ensures Marks(RunState(NewRun(id, m), false, {}), [])
  {
  }

  /** The state that the last row of a run's rows is read in. */
  lemma FoldOwn(front: seq<Row>, row: Row, id: RunId)
    requires RunOf(row) == Some(id)
    ensures var before := Fold(front, id);
      Fold(front + [row], id) ==
        Some(StepRun(if before.Some? then before.value else RunState(NewRun(id, row.meta.value), false, {}),
                     row.event, row.meta.value))
  {
    assert (front + [row])[..|front|] == front;
  }

  lemma {:induction false} GroupFacts(group: seq<Row>, id: RunId)
    requires Own(group, id)
    ensures Fold(group, id).Some? <==> group != []
    ensures Fold(group, id).Some? ==> Marks(Fold(group, id).value, group)
  {
    if group != [] {
      var front, row := group[..|group| - 1], group[|group| - 1];
      assert row in group && forall r :: r in front ==> r in group;
      GroupFacts(front, id);
      FirstMarks(id, row.meta.value);
      FoldOwn(front, row, id);
      StepMarks(if front == [] then RunState(NewRun(id, row.meta.value), false, {}) else Fold(front, id).value,
                front, row);
      assert group == front + [row];
    }
  }

  // ---- repair after a restart ----

  const RESTART_CODE := "gateway_restart"
  const RESTART_ERROR := "Gateway 重启导致 Run 中断"

  /** The row that declares a node, or the run itself, interrupted. */
  function RecoveryRow(id: RunId, node: Option<NodeId>, previous: Meta): Row {
    Row(true,
        if node.Some? then NodeUpdated else RunFailed,
        Some(Meta(
          Some(id), node, Some(Interrupted), None,
          if node.Some? then Got(previous.taskLabel) else Str("multi_agent"),
          if previous.strategy.Absent? then Str("") else previous.strategy,
          Got(previous.durationMs), Str(RESTART_CODE), Str(RESTART_ERROR), Absent)))
  }

  predicate Mentions(row: Row, n: NodeId) {
    row.meta.Some? && row.meta.value.nodeId == Some(n)
  }

  /** The node ids mentioned by any row of the group, by first mention. */
  function Mentioned(group: seq<Row>): seq<NodeId> {
    if group == [] then []
    else
      var before, row := Mentioned(group[..|group| - 1]), group[|group| - 1];
      if row.meta.Some? && row.meta.value.nodeId.Some? && row.meta.value.nodeId.value !in before
      then before + [row.meta.value.nodeId.value]
      else before
  }

  /** The metadata of the last row that mentions a node. */
  function Latest(group: seq<Row>, n: NodeId): Option<Meta> {
    if group == [] then None
    else if Mentions(group[|group| - 1], n) then group[|group| - 1].meta
    else Latest(group[..|group| - 1], n)
  }

  lemma {:induction false} MentionedIffLatest(group: seq<Row>)
    ensures forall n :: n in Mentioned(group) <==> Latest(group, n).Some?
  {
    if group != [] {
      MentionedIffLatest(group[..|group| - 1]);
    }
  }

  function OpenNode(group: seq<Row>, n: NodeId): bool {
    Latest(group, n).Some? && !TerminalStatus(Latest(group, n).value)
  }

  function NodeRepairs(group: seq<Row>, id: RunId, nodes: seq<NodeId>): seq<Row> {
    if nodes == [] then []
    else
      var before, n := NodeRepairs(group, id, nodes[..|nodes| - 1]), nodes[|nodes| - 1];
      if OpenNode(group, n) then before + [RecoveryRow(id, Some(n), Latest(group, n).value)] else before
  }

  /** The rows that repair one open run: its open nodes, then the run. */
  function Repairs(group: seq<Row>, id: RunId): seq<Row>
    requires group != [] && group[|group| - 1].meta.Some?
  {
    NodeRepairs(group, id, Mentioned(group)) + [RecoveryRow(id, None, group[|group| - 1].meta.value)]
  }

  function RepairsOf(rows: seq<Row>, id: RunId): seq<Row> {
    var group := RowsOf(rows, id);
    if group == [] || group[|group| - 1].meta.None? || HasEnd(group) then [] else Repairs(group, id)
  }

  function Additions(rows: seq<Row>, ids: seq<RunId>): seq<Row> {
    if ids == [] then []
    else Additions(rows, ids[..|ids| - 1]) + RepairsOf(rows, ids[|ids| - 1])
  }

  function OpenRuns(rows: seq<Row>, ids: seq<RunId>): seq<RunId> {
    if ids == [] then []
    else
      var before := OpenRuns(rows, ids[..|ids| - 1]);
      if HasEnd(RowsOf(rows, ids[|ids| - 1])) then before else before + [ids[|ids| - 1]]
  }

  function Recover(rows: seq<Row>): seq<Row> {
    rows + Additions(rows, Order(rows))
  }

  // ---- the repair procedure ----

  method OpenNodeRepairs(group: seq<Row>, id: RunId) returns (additions: seq<Row>)
    requires Own(group, id)
    ensures additions == NodeRepairs(group, id, Mentioned(group))
  {
    var latest: map<NodeId, Meta> := map[];
    var keys: seq<NodeId> := [];
    for k := 0 to |group|
      invariant keys == Mentioned(group[..k])
      invariant forall n :: n in latest <==> Latest(group[..k], n).Some?
      invariant forall n :: n in latest ==> latest[n] == Latest(group[..k], n).value
    {
      assert group[..k + 1][..k] == group[..k];
      MentionedIffLatest(group[..k]);
      var m := group[k].meta;
      if m.Some? && m.value.nodeId.Some? {
        var n := m.value.nodeId.value;
        if n !in latest {
          keys := keys + [n];
        }
        latest := latest[n := m.value];
      }
    }
    assert group[..|group|] == group;
    MentionedIffLatest(group);
    additions := [];
    for k := 0 to |keys|
      invariant additions == NodeRepairs(group, id, keys[..k])
    {
      assert keys[..k + 1][..k] == keys[..k];
      var n := keys[k];
      if !TerminalStatus(latest[n]) {
        additions := additions + [RecoveryRow(id, Some(n), latest[n])];
      }
    }
    assert keys[..|keys|] == keys;
  }

  method OpenRunRepairs(group: seq<Row>, id: RunId) returns (additions: seq<Row>)
    requires Own(group, id) && group != [] && group[|group| - 1].meta.Some?
    ensures additions == Repairs(group, id)
  {
    additions := OpenNodeRepairs(group, id);
    additions := additions + [RecoveryRow(id, None, group[|group| - 1].meta.value)];
  }

  method GroupRows(rows: seq<Row>) returns (grouped: map<RunId, seq<Row>>, order: seq<RunId>)
    ensures order == Order(rows)
    ensures forall id :: id in grouped <==> id in order
    ensures forall id :: id in grouped ==> grouped[id] == RowsOf(rows, id) && grouped[id] != []
  {
    grouped, order := map[], [];
    for k := 0 to |rows|
      invariant order == Order(rows[..k])
      invariant forall id :: id in grouped <==> id in order
      invariant forall id :: id in grouped ==> grouped[id] == RowsOf(rows[..k], id) && grouped[id] != []
      invariant forall id :: id !in grouped ==> RowsOf(rows[..k], id) == []
    {
      assert rows[..k + 1][..k] == rows[..k];
      var run := RunOf(rows[k]);
      if run.Some? {
        var id := run.value;
        if id !in grouped {
          order := order + [id];
          grouped := grouped[id := []];
        }
        grouped := grouped[id := grouped[id] + [rows[k]]];
      }
    }
    assert rows[..|rows|] == rows;
  }

  /** Repairs one session's log: the rows it appends, and the runs it declares interrupted. */
  method RecoverInterrupted(rows: seq<Row>) returns (log: seq<Row>, recovered: seq<RunId>)
    ensures log == Recover(rows)
    ensures recovered == OpenRuns(rows, Order(rows))
  {
    var grouped, order := GroupRows(rows);
    var additions: seq<Row> := [];
    recovered := [];
    for k := 0 to |order|
      invariant additions == Additions(rows, order[..k])
      invariant recovered == OpenRuns(rows, order[..k])
    {
      assert order[..k + 1][..k] == order[..k];
      var id := order[k];
      var group := grouped[id];
      RowsOfOwn(rows, id);
      assert group[|group| - 1] in group;
      if HasEnd(group) {
        continue;
      }
      var repairs := OpenRunRepairs(group, id);
      additions := additions + repairs;
      recovered := recovered + [id];
    }
    assert order[..|order|] == order;
    log := rows + additions;
  }
}
