/** What the view of a run shows, told field by field from the rows of the run. */
module RunViews {
  import opened Options
  import opened RunLog
  import opened RunRecovery
  import opened RecoveryTheorems

  // ---- which rows count ----

  predicate Final(m: Meta) {
    m.status.Some? && var s := m.status.value;
      s == Completed || s == Failed || s == TimedOut || s == Cancelled || s == Interrupted
  }

  predicate Over(ms: seq<Meta>) {
    ms != [] && Final(ms[|ms| - 1])
  }

  /** The row ends its run. */
  predicate Closes(row: Row) {
    && (row.event == RunCompleted || row.event == RunFailed || row.event == RunCancelled)
    && row.meta.Some? && Final(row.meta.value)
  }

  /** The updates of a node, up to the first that ends it. */
  function NodeMetas(group: seq<Row>, n: NodeId): seq<Meta> {
    if group == [] then []
    else
      var before, row := NodeMetas(group[..|group| - 1], n), group[|group| - 1];
      if UpdatesNode(row, n) && !Over(before) then before + [row.meta.value] else before
  }

  /** The nodes by their first update. */
  function NodeOrder(group: seq<Row>): (r: seq<NodeId>)
    ensures forall i, j :: 0 <= i < j < |r| ==> r[i] != r[j]
  {
    if group == [] then []
    else
      var before, row := NodeOrder(group[..|group| - 1]), group[|group| - 1];
      if row.event.NodeUpdated? && row.meta.Some? && row.meta.value.nodeId.Some?
         && row.meta.value.nodeId.value !in before
      then before + [row.meta.value.nodeId.value]
      else before
  }

  /** The first row that ends the run. */
  function EndOf(group: seq<Row>): (r: Option<Meta>)
    ensures r.Some? ==> r.value.status.Some?
  {
    if group == [] then None
    else
      var before, row := EndOf(group[..|group| - 1]), group[|group| - 1];
      if before.None? && Closes(row) then row.meta else before
  }

  /** The start rows before the end. */
  function StartMetas(group: seq<Row>): seq<Meta> {
    if group == [] then []
    else
      var before, row := group[..|group| - 1], group[|group| - 1];
      if row.event.RunStarted? && row.meta.Some? && EndOf(before).None?
      then StartMetas(before) + [row.meta.value]
      else StartMetas(before)
  }

  // ---- the last value given for a field ----

  datatype Field = TaskLabel | Duration | Content | ErrorCode | ErrorText | Strategy

  /** The value that a row gives for a field; one of another type does not count. */
  function Given(m: Meta, f: Field): Option<Value> {
    match f
    case TaskLabel => if m.taskLabel.Str? then Some(m.taskLabel) else None
    case Duration => if m.durationMs.Num? || m.durationMs.Bool? then Some(m.durationMs) else None
    case Content => if m.content.Str? then Some(m.content) else None
    case ErrorCode => if m.errorCode.Str? then Some(m.errorCode) else None
    case ErrorText =>
      if !m.error.Str? then None
      else Some(Str(if |m.error.s| > 256 then m.error.s[..256] else m.error.s))
    case Strategy => if m.strategy.Str? then Some(m.strategy) else None
  }

  function LastGiven(ms: seq<Meta>, f: Field, default: Value): Value {
    if ms == [] then default
    else
      var g := Given(ms[|ms| - 1], f);
      if g.Some? then g.value else LastGiven(ms[..|ms| - 1], f, default)
  }

  function LastStatus(ms: seq<Meta>): Status {
    if ms == [] then Queued
    else if ms[|ms| - 1].status.Some? then ms[|ms| - 1].status.value
    else LastStatus(ms[..|ms| - 1])
  }

  function LastRole(ms: seq<Meta>, default: Role): Role {
    if ms == [] then default
    else if ms[|ms| - 1].taskLabel.Str? then Label(ms[|ms| - 1].taskLabel)
    else LastRole(ms[..|ms| - 1], default)
  }

  lemma OneMore(ms: seq<Meta>, m: Meta, default: Value, role: Role)
    ensures forall f ::
      LastGiven(ms + [m], f, default) == if Given(m, f).Some? then Given(m, f).value else LastGiven(ms, f, default)
    ensures LastStatus(ms + [m]) == if m.status.Some? then m.status.value else LastStatus(ms)
    ensures LastRole(ms + [m], role) == if m.taskLabel.Str? then Label(m.taskLabel) else LastRole(ms, role)
  {
    assert (ms + [m])[..|ms|] == ms;
  }

  // ---- nodes ----

  /** A node shows the last status, label, duration, content and error among its updates; without a label it
      shows what its first update has in that place, or its id. */
  ghost predicate NodeFits(v: NodeView, ms: seq<Meta>) {
    && ms != []
    && v.status == LastStatus(ms)
    && v.role == LastRole(ms, if ms[0].taskLabel.Absent? then IdLabel(v.id) else Label(ms[0].taskLabel))
    && v.durationMs == LastGiven(ms, Duration, Null)
    && v.content == LastGiven(ms, Content, Null)
    && v.errorCode == LastGiven(ms, ErrorCode, Null)
    && v.error == LastGiven(ms, ErrorText, Null)
  }

  lemma NodeStillFits(v: NodeView, ms: seq<Meta>, m: Meta)
    requires NodeFits(v, ms)
    ensures NodeFits(OnNode(v, m), ms + [m])
  {
    OneMore(ms, m, Null, if ms[0].taskLabel.Absent? then IdLabel(v.id) else Label(ms[0].taskLabel));
  }

  lemma NewNodeFits(id: NodeId, m: Meta)
    ensures NodeFits(OnNode(NewNode(id, m), m), [m])
  {
    assert [m][..0] == [];
  }

  ghost predicate InOrder(nodes: seq<NodeView>, order: seq<NodeId>) {
    |nodes| == |order| && forall i :: 0 <= i < |nodes| ==> nodes[i].id == order[i]
  }

  ghost predicate OrderFits(st: RunState, group: seq<Row>) {
    InOrder(st.view.nodes, NodeOrder(group))
  }

  ghost predicate MarksFit(st: RunState, group: seq<Row>, n: NodeId) {
    && (n in st.doneNodes <==> Over(NodeMetas(group, n)))
    && (NodeMetas(group, n) != [] <==> n in NodeOrder(group))
  }

  ghost predicate FitsAt(v: NodeView, group: seq<Row>) {
    NodeFits(v, NodeMetas(group, v.id))
  }

  ghost predicate NodesFit(st: RunState, group: seq<Row>) {
    && OrderFits(st, group) && (forall n :: MarksFit(st, group, n))
    && forall i :: 0 <= i < |st.view.nodes| ==> FitsAt(st.view.nodes[i], group)
  }

  lemma MetasAdded(front: seq<Row>, row: Row, n: NodeId)
    ensures var before := NodeMetas(front, n);
      NodeMetas(front + [row], n) == if UpdatesNode(row, n) && !Over(before) then before + [row.meta.value] else before
  {
    assert (front + [row])[..|front|] == front;
  }

  lemma OrderAdded(front: seq<Row>, row: Row)
    ensures var n := if row.meta.Some? then row.meta.value.nodeId else None;
      NodeOrder(front + [row]) ==
        if row.event.NodeUpdated? && n.Some? && n.value !in NodeOrder(front) then NodeOrder(front) + [n.value]
        else NodeOrder(front)
  {
    assert (front + [row])[..|front|] == front;
  }

  lemma DoneAfter(st: RunState, event: EventType, m: Meta, n: NodeId)
    ensures n in StepRun(st, event, m).doneNodes
      <==> n in st.doneNodes || (event.NodeUpdated? && m.nodeId == Some(n) && TerminalStatus(m))
  {
  }

  lemma MarksAdded(front: seq<Row>, row: Row, n: NodeId)
    requires NodeMetas(front, n) != [] <==> n in NodeOrder(front)
    ensures Over(NodeMetas(front + [row], n))
      <==> Over(NodeMetas(front, n)) || (UpdatesNode(row, n) && TerminalStatus(row.meta.value))
    ensures NodeMetas(front + [row], n) != [] <==> n in NodeOrder(front + [row])
  {
    MetasAdded(front, row, n);
    OrderAdded(front, row);
  }

  lemma StepMarksFit(st: RunState, front: seq<Row>, row: Row, n: NodeId)
    requires row.meta.Some? && MarksFit(st, front, n)
    ensures MarksFit(StepRun(st, row.event, row.meta.value), front + [row], n)
  {
    DoneAfter(st, row.event, row.meta.value, n);
    MarksAdded(front, row, n);
  }

  lemma UpdatedInOrder(nodes: seq<NodeView>, order: seq<NodeId>, n: NodeId, m: Meta)
    requires InOrder(nodes, order)
    ensures InOrder(UpdateNode(nodes, n, m), if n in order then order else order + [n])
  {
    FoundIffOrdered(nodes, order, n);
  }

  lemma FoundIffOrdered(nodes: seq<NodeView>, order: seq<NodeId>, n: NodeId)
    requires InOrder(nodes, order)
    ensures n in order <==> IndexOf(nodes, n) < |nodes|
  {
    var i := IndexOf(nodes, n);
    if i < |nodes| {
      assert order[i] == n;
    }
  }

  lemma NodesAfter(st: RunState, event: EventType, m: Meta)
    ensures StepRun(st, event, m).view.nodes
      == if event.NodeUpdated? && m.nodeId.Some? && m.nodeId.value !in st.doneNodes
         then UpdateNode(st.view.nodes, m.nodeId.value, m) else st.view.nodes
  {
  }

  lemma StepOrderFits(st: RunState, front: seq<Row>, row: Row)
    requires row.meta.Some? && OrderFits(st, front)
    requires forall n :: n in st.doneNodes ==> n in NodeOrder(front)
    ensures OrderFits(StepRun(st, row.event, row.meta.value), front + [row])
  {
    var m := row.meta.value;
    NodesAfter(st, row.event, m);
    OrderAdded(front, row);
    if row.event.NodeUpdated? && m.nodeId.Some? && m.nodeId.value !in st.doneNodes {
      UpdatedInOrder(st.view.nodes, NodeOrder(front), m.nodeId.value, m);
    }
  }

  lemma KeptFits(v: NodeView, front: seq<Row>, row: Row)
    requires FitsAt(v, front) && (UpdatesNode(row, v.id) ==> Over(NodeMetas(front, v.id)))
    ensures FitsAt(v, front + [row])
  {
    MetasAdded(front, row, v.id);
  }

  lemma UpdatedFits(v: NodeView, front: seq<Row>, row: Row)
    requires FitsAt(v, front) && UpdatesNode(row, v.id) && !Over(NodeMetas(front, v.id))
    ensures FitsAt(OnNode(v, row.meta.value), front + [row])
  {
    MetasAdded(front, row, v.id);
    NodeStillFits(v, NodeMetas(front, v.id), row.meta.value);
  }

  lemma AddedFits(front: seq<Row>, row: Row, n: NodeId)
    requires UpdatesNode(row, n) && NodeMetas(front, n) == []
    ensures FitsAt(OnNode(NewNode(n, row.meta.value), row.meta.value), front + [row])
  {
    MetasAdded(front, row, n);
    NewNodeFits(n, row.meta.value);
    assert [] + [row.meta.value] == [row.meta.value];
  }

  lemma StepNodesFit(st: RunState, front: seq<Row>, row: Row)
    requires NodesFit(st, front) && row.meta.Some?
    ensures NodesFit(StepRun(st, row.event, row.meta.value), front + [row])
  {
    var st' := StepRun(st, row.event, row.meta.value);
    forall n
      ensures MarksFit(st', front + [row], n)
      ensures n in st.doneNodes ==> n in NodeOrder(front)
    {
      assert MarksFit(st, front, n);
      StepMarksFit(st, front, row, n);
    }
    StepOrderFits(st, front, row);
    forall i | 0 <= i < |st'.view.nodes|
      ensures FitsAt(st'.view.nodes[i], front + [row])
    {
      StepFitsAt(st, front, row, i);
    }
  }

  lemma StepFitsAt(st: RunState, front: seq<Row>, row: Row, i: nat)
    requires NodesFit(st, front) && row.meta.Some? && i < |StepRun(st, row.event, row.meta.value).view.nodes|
    ensures FitsAt(StepRun(st, row.event, row.meta.value).view.nodes[i], front + [row])
  {
    var m, nodes := row.meta.value, st.view.nodes;
    if row.event.NodeUpdated? && m.nodeId.Some? && m.nodeId.value !in st.doneNodes {
      var n := m.nodeId.value;
      assert MarksFit(st, front, n);
      if i == |nodes| {
        assert n !in NodeOrder(front);
        AddedFits(front, row, n);
      } else if i == IndexOf(nodes, n) {
        UpdatedFits(nodes[i], front, row);
      } else {
        OneOfEach(st, front, i, IndexOf(nodes, n));
        KeptFits(nodes[i], front, row);
      }
    } else {
      assert MarksFit(st, front, nodes[i].id);
      KeptFits(nodes[i], front, row);
    }
  }

  lemma OneOfEach(st: RunState, group: seq<Row>, i: nat, j: nat)
    requires OrderFits(st, group) && i < |st.view.nodes| && i != j
    ensures j < |st.view.nodes| ==> st.view.nodes[i].id != st.view.nodes[j].id
  {
  }

  // ---- the run itself ----

  ghost predicate RunFits(st: RunState, group: seq<Row>)
    requires group != [] && group[0].meta.Some?
  {
    var first, ends, starts := group[0].meta.value, EndOf(group), StartMetas(group);
    var duration := LastGiven(starts, Duration, Null);
    && (st.done <==> ends.Some?)
    && st.view.status == (if ends.Some? then ends.value.status.value else LastStatus(starts))
    && st.view.errorCode == (if ends.Some? && !ends.value.errorCode.Absent? then ends.value.errorCode else Null)
    && st.view.error == (if ends.Some? && !ends.value.error.Absent? then ends.value.error else Null)
    && st.view.durationMs == (if ends.Some? then LastGiven([ends.value], Duration, duration) else duration)
    && st.view.strategy == LastGiven(starts, Strategy, if first.strategy.Absent? then Str("") else first.strategy)
    && st.view.parentRequestId == first.parentRequestId
  }

  lemma RunRowAdded(front: seq<Row>, row: Row)
    ensures EndOf(front + [row]) == if EndOf(front).None? && Closes(row) then row.meta else EndOf(front)
    ensures StartMetas(front + [row])
      == if row.event.RunStarted? && row.meta.Some? && EndOf(front).None? then StartMetas(front) + [row.meta.value]
         else StartMetas(front)
  {
    assert (front + [row])[..|front|] == front;
  }

  lemma StepRunFits(st: RunState, front: seq<Row>, row: Row)
    requires front != [] && front[0].meta.Some? && RunFits(st, front) && row.meta.Some?
    ensures RunFits(StepRun(st, row.event, row.meta.value), front + [row])
  {
    RunRowAdded(front, row);
    var m, first := row.meta.value, front[0].meta.value;
    OneMore(StartMetas(front), m, Null, Label(Null));
    OneMore(StartMetas(front), m, if first.strategy.Absent? then Str("") else first.strategy, Label(Null));
    OneMore([], m, LastGiven(StartMetas(front), Duration, Null), Label(Null));
    assert [] + [m] == [m];
  }

  lemma OnlyRow(row: Row)
    ensures EndOf([row]) == if Closes(row) then row.meta else None
    ensures StartMetas([row]) == if row.event.RunStarted? && row.meta.Some? then [row.meta.value] else []
  {
    RunRowAdded([], row);
    assert [] + [row] == [row];
    assert row.meta.Some? ==> [] + [row.meta.value] == [row.meta.value];
  }

  lemma OnlyMeta(m: Meta, default: Value)
    ensures forall f :: LastGiven([m], f, default) == if Given(m, f).Some? then Given(m, f).value else default
    ensures LastStatus([m]) == if m.status.Some? then m.status.value else Queued
  {
    OneMore([], m, default, Label(Null));
    assert [] + [m] == [m];
  }

  lemma FirstRunFits(id: RunId, row: Row)
    requires row.meta.Some?
    ensures RunFits(StepRun(RunState(NewRun(id, row.meta.value), false, {}), row.event, row.meta.value), [row])
  {
    var m := row.meta.value;
    OnlyRow(row);
    OnlyMeta(m, Null);
    OnlyMeta(m, if m.strategy.Absent? then Str("") else m.strategy);
  }

  // ---- every view ----

  ghost predicate Fits(group: seq<Row>, id: RunId) {
    && group != [] && group[0].meta.Some? && Fold(group, id).Some?
    && NodesFit(Fold(group, id).value, group) && RunFits(Fold(group, id).value, group)
  }

  lemma FirstFits(row: Row, id: RunId)
    requires RunOf(row) == Some(id)
    ensures Fits([row], id)
  {
    FoldOwn([], row, id);
    FirstRunFits(id, row);
    StepNodesFit(RunState(NewRun(id, row.meta.value), false, {}), [], row);
    assert [] + [row] == [row];
  }

  lemma NextFits(front: seq<Row>, row: Row, id: RunId)
    requires Fits(front, id) && RunOf(row) == Some(id)
    ensures Fits(front + [row], id)
  {
    FoldOwn(front, row, id);
    StepRunFits(Fold(front, id).value, front, row);
    StepNodesFit(Fold(front, id).value, front, row);
  }

  lemma {:induction false} GroupFits(group: seq<Row>, id: RunId)
    requires Own(group, id) && group != []
    ensures Fits(group, id)
  {
    var front, row := group[..|group| - 1], group[|group| - 1];
    assert row in group && group == front + [row] && forall r :: r in front ==> r in group;
    if front == [] {
      FirstFits(row, id);
    } else {
      GroupFits(front, id);
      NextFits(front, row, id);
    }
  }

  /** Every run of every log, told from the run's own rows: its nodes stand in the order of their first update,
      and each field of the run and of a node is the last value given for it before its end. */
  lemma ViewsShowTheirRows(rows: seq<Row>, id: RunId)
    requires Fold(rows, id).Some?
    ensures RowsOf(rows, id) != [] && RowsOf(rows, id)[0].meta.Some?
    ensures NodesFit(Fold(rows, id).value, RowsOf(rows, id)) && RunFits(Fold(rows, id).value, RowsOf(rows, id))
  {
    RunsAreIndependent(rows, id);
    RowsOfOwn(rows, id);
    GroupFits(RowsOf(rows, id), id);
  }

  // ---- the nodes of a recovered run ----

  /** A node as the restart leaves it: what it showed, with the status and the error of the restart. */
  function AfterRestart(v: NodeView): NodeView {
    v.(status := Interrupted, errorCode := Str("gateway_restart"), error := Str("Gateway 重启导致 Run 中断"))
  }

  lemma {:induction false} RepairMetas(group: seq<Row>, id: RunId, nodes: seq<NodeId>, n: NodeId)
    ensures NodeMetas(group + NodeRepairs(group, id, nodes), n) == RepairedMetas(group, id, nodes, n)
  {
    if nodes == [] {
      assert group + [] == group;
    } else {
      var front, last := nodes[..|nodes| - 1], nodes[|nodes| - 1];
      assert nodes == front + [last];
      RepairMetas(group, id, front, n);
      if OpenNode(group, last) {
        var repairs, row := NodeRepairs(group, id, front), RecoveryRow(id, Some(last), Latest(group, last).value);
        assert group + (repairs + [row]) == (group + repairs) + [row];
        MetasAdded(group + repairs, row, n);
        OneMoreRepaired(group, id, front, last, n);
      }
    }
  }

  function RepairedMetas(group: seq<Row>, id: RunId, nodes: seq<NodeId>, n: NodeId): seq<Meta> {
    var before := NodeMetas(group, n);
    if n in nodes && OpenNode(group, n) && !Over(before)
    then before + [RecoveryRow(id, Some(n), Latest(group, n).value).meta.value] else before
  }

  lemma OneMoreRepaired(group: seq<Row>, id: RunId, front: seq<NodeId>, last: NodeId, n: NodeId)
    requires OpenNode(group, last)
    ensures var before, row := RepairedMetas(group, id, front, n),
                               RecoveryRow(id, Some(last), Latest(group, last).value);
      RepairedMetas(group, id, front + [last], n)
        == if UpdatesNode(row, n) && !Over(before) then before + [row.meta.value] else before
  {
    assert n in front + [last] <==> n in front || n == last;
  }

  lemma RestartedNodeFits(v: NodeView, w: NodeView, ms: seq<Meta>, id: RunId, previous: Meta)
    requires w.id == v.id && NodeFits(v, ms)
    requires NodeFits(w, ms + [RecoveryRow(id, Some(v.id), previous).meta.value])
    ensures w == AfterRestart(v).(role := w.role, durationMs := w.durationMs)
    ensures w.role == if previous.taskLabel.Str? then Label(previous.taskLabel) else v.role
    ensures w.durationMs == if IsNumber(previous.durationMs) then previous.durationMs else v.durationMs
  {
    OneMore(ms, RecoveryRow(id, Some(v.id), previous).meta.value, Null,
            if ms[0].taskLabel.Absent? then IdLabel(v.id) else Label(ms[0].taskLabel));
  }

  /** The last mention of a node is its last update, when node ids appear on node rows only. */
  lemma {:induction false} LatestIsLastUpdate(group: seq<Row>, n: NodeId)
    requires forall row :: row in group && Mentions(row, n) ==> row.event.NodeUpdated?
    requires Latest(group, n).Some? && !EndedIn(group, n)
    ensures NodeMetas(group, n) != [] && NodeMetas(group, n)[|NodeMetas(group, n)| - 1] == Latest(group, n).value
    ensures !Over(NodeMetas(group, n))
  {
    var front, row := group[..|group| - 1], group[|group| - 1];
    assert group == front + [row] && row in group && forall r :: r in front ==> r in group;
    MetasAdded(front, row, n);
    if Latest(front, n).Some? {
      LatestIsLastUpdate(front, n);
    } else {
      NeverMentioned(front, n);
    }
  }

  lemma {:induction false} NeverMentioned(group: seq<Row>, n: NodeId)
    requires Latest(group, n).None?
    ensures NodeMetas(group, n) == []
  {
    if group != [] {
      NeverMentioned(group[..|group| - 1], n);
    }
  }

  /** The rows of an open run after recovery, as far as a node is concerned. */
  lemma RecoveredMetas(rows: seq<Row>, id: RunId, n: NodeId)
    requires id in OpenRuns(rows, Order(rows))
    ensures var group, before := RowsOf(rows, id), NodeMetas(RowsOf(rows, id), n);
      NodeMetas(RowsOf(Recover(rows), id), n)
        == if OpenNode(group, n) && !Over(before)
           then before + [RecoveryRow(id, Some(n), Latest(group, n).value).meta.value] else before
  {
    OpenRunsFacts(rows, Order(rows), id);
    RecoveredRows(rows, id);
    var group := RowsOf(rows, id);
    var nodes, last := OpenRunRows(rows, id);
    MentionedIffLatest(group);
    RepairMetas(group, id, Mentioned(group), n);
    MetasAdded(group + nodes, RecoveryRow(id, None, last), n);
  }

  lemma ShownNode(rows: seq<Row>, id: RunId, i: nat)
    requires Fold(rows, id).Some? && i < |Fold(rows, id).value.view.nodes|
    ensures var v := Fold(rows, id).value.view.nodes[i];
      NodeFits(v, NodeMetas(RowsOf(rows, id), v.id)) && MarksFit(Fold(rows, id).value, RowsOf(rows, id), v.id)
  {
    ViewsShowTheirRows(rows, id);
    assert FitsAt(Fold(rows, id).value.view.nodes[i], RowsOf(rows, id));
  }

  lemma SameFits(v: NodeView, w: NodeView, ms: seq<Meta>)
    requires w.id == v.id && NodeFits(v, ms) && NodeFits(w, ms)
    ensures w == v
  {
  }

  /** A run left open, in any log: each node that it showed keeps its place, and a node that was open by its last
      mention is shown as interrupted by the restart, with the content that it had. */
  lemma OpenNodesBecomeInterrupted(rows: seq<Row>, id: RunId, i: nat)
    requires id in OpenRuns(rows, Order(rows)) && Fold(rows, id).Some? && i < |Fold(rows, id).value.view.nodes|
    ensures Fold(Recover(rows), id).Some? && i < |Fold(Recover(rows), id).value.view.nodes|
    ensures var st, w := Fold(rows, id).value, Fold(Recover(rows), id).value.view.nodes[i];
      var v := st.view.nodes[i];
      if OpenNode(RowsOf(rows, id), v.id) && v.id !in st.doneNodes then
        w == AfterRestart(v).(role := w.role, durationMs := w.durationMs)
      else w == v
  {
    EndedStaysEnded(rows, Additions(rows, Order(rows)), id);
    var v, w := Fold(rows, id).value.view.nodes[i], Fold(Recover(rows), id).value.view.nodes[i];
    ShownNode(rows, id, i);
    ShownNode(Recover(rows), id, i);
    RecoveredMetas(rows, id, v.id);
    var ms := NodeMetas(RowsOf(rows, id), v.id);
    if OpenNode(RowsOf(rows, id), v.id) && !Over(ms) {
      RestartedNodeFits(v, w, ms, id, Latest(RowsOf(rows, id), v.id).value);
    } else {
      SameFits(v, w, ms);
    }
  }

  // ---- the whole view of a recovered run ----

  lemma {:induction false} NoEndIn(group: seq<Row>)
    ensures EndOf(group).None? <==> !HasEnd(group)
  {
    if group != [] {
      var front, row := group[..|group| - 1], group[|group| - 1];
      NoEndIn(front);
      assert group == front + [row];
      assert HasEnd(group) <==> HasEnd(front) || EndsItsRun(row);
    }
  }

  lemma {:induction false} RepairRows(group: seq<Row>, id: RunId, nodes: seq<NodeId>)
    requires forall n :: n in nodes && OpenNode(group, n) ==> n in NodeOrder(group)
    ensures var all := group + NodeRepairs(group, id, nodes);
      EndOf(all) == EndOf(group) && StartMetas(all) == StartMetas(group) && NodeOrder(all) == NodeOrder(group)
  {
    if nodes == [] {
      assert group + [] == group;
    } else {
      var front, last := nodes[..|nodes| - 1], nodes[|nodes| - 1];
      assert nodes == front + [last];
      RepairRows(group, id, front);
      if OpenNode(group, last) {
        var repairs, row := NodeRepairs(group, id, front), RecoveryRow(id, Some(last), Latest(group, last).value);
        assert group + (repairs + [row]) == (group + repairs) + [row];
        RepairRow(group + repairs, id, last, Latest(group, last).value);
      }
    }
  }

  lemma RepairRow(front: seq<Row>, id: RunId, n: NodeId, previous: Meta)
    requires n in NodeOrder(front)
    ensures var all := front + [RecoveryRow(id, Some(n), previous)];
      EndOf(all) == EndOf(front) && StartMetas(all) == StartMetas(front) && NodeOrder(all) == NodeOrder(front)
  {
    RunRowAdded(front, RecoveryRow(id, Some(n), previous));
    OrderAdded(front, RecoveryRow(id, Some(n), previous));
  }

  lemma OpenNodesAreOrdered(group: seq<Row>, n: NodeId)
    requires NodeIdsOnNodeRows(group) && OpenNode(group, n)
    ensures n in NodeOrder(group)
  {
    var row := LatestIsARow(group, n);
    UpdatedIsOrdered(group, row, n);
  }

  lemma {:induction false} UpdatedIsOrdered(group: seq<Row>, row: Row, n: NodeId)
    requires row in group && UpdatesNode(row, n)
    ensures n in NodeOrder(group)
  {
    var front, last := group[..|group| - 1], group[|group| - 1];
    assert group == front + [last];
    if row != last {
      UpdatedIsOrdered(front, row, n);
    }
  }

  /** What recovery makes of the rows of an open run. */
  lemma RecoveredGroup(rows: seq<Row>, id: RunId) returns (nodes: seq<Row>, last: Meta)
    requires id in OpenRuns(rows, Order(rows))
    ensures RowsOf(rows, id) != [] && RowsOf(rows, id)[|RowsOf(rows, id)| - 1].meta == Some(last)
    ensures RowsOf(Recover(rows), id) == (RowsOf(rows, id) + nodes) + [RecoveryRow(id, None, last)]
    ensures nodes == NodeRepairs(RowsOf(rows, id), id, Mentioned(RowsOf(rows, id)))
    ensures EndOf(RowsOf(rows, id)).None?
  {
    OpenRunsFacts(rows, Order(rows), id);
    OrderedIffRows(rows, id);
    RecoveredRows(rows, id);
    var group := RowsOf(rows, id);
    RowsOfOwn(rows, id);
    assert group[|group| - 1] in group;
    nodes, last := NodeRepairs(group, id, Mentioned(group)), group[|group| - 1].meta.value;
    assert group + RepairsOf(rows, id) == (group + nodes) + [RecoveryRow(id, None, last)];
    NoEndIn(group);
  }

  /** What the rows of an open run tell about the run after recovery. */
  lemma RecoveredRunRows(rows: seq<Row>, id: RunId)
    requires id in OpenRuns(rows, Order(rows)) && NodeIdsOnNodeRows(RowsOf(rows, id))
    ensures RowsOf(rows, id) != [] && RowsOf(rows, id)[|RowsOf(rows, id)| - 1].meta.Some?
    ensures var group, all := RowsOf(rows, id), RowsOf(Recover(rows), id);
      && EndOf(group).None? && EndOf(all) == RecoveryRow(id, None, group[|group| - 1].meta.value).meta
      && StartMetas(all) == StartMetas(group) && NodeOrder(all) == NodeOrder(group)
      && all != [] && all[0] == group[0]
  {
    var nodes, last := RecoveredGroup(rows, id);
    RecoveredGroupFacts(RowsOf(rows, id), id, last);
  }

  lemma RecoveredGroupFacts(group: seq<Row>, id: RunId, last: Meta)
    requires NodeIdsOnNodeRows(group) && EndOf(group).None?
    ensures var all := (group + NodeRepairs(group, id, Mentioned(group))) + [RecoveryRow(id, None, last)];
      && EndOf(all) == RecoveryRow(id, None, last).meta
      && StartMetas(all) == StartMetas(group) && NodeOrder(all) == NodeOrder(group)
  {
    forall n | n in Mentioned(group) && OpenNode(group, n)
      ensures n in NodeOrder(group)
    {
      OpenNodesAreOrdered(group, n);
    }
    RepairRows(group, id, Mentioned(group));
    var front, end := group + NodeRepairs(group, id, Mentioned(group)), RecoveryRow(id, None, last);
    RunRowAdded(front, end);
    OrderAdded(front, end);
  }

  /** Recovery of a run whose log is well written, exactly: the run and its open nodes get the status and the error
      of the restart, and nothing else changes, except that the run's duration is that of its last row. */
  lemma RecoveredViewIsExact(rows: seq<Row>, id: RunId)
    requires id in OpenRuns(rows, Order(rows)) && NodeIdsOnNodeRows(RowsOf(rows, id))
    ensures Fold(rows, id).Some? && Fold(Recover(rows), id).Some?
    ensures RowsOf(rows, id) != [] && RowsOf(rows, id)[|RowsOf(rows, id)| - 1].meta.Some?
    ensures var st, view := Fold(rows, id).value, Fold(Recover(rows), id).value.view;
      var last := RowsOf(rows, id)[|RowsOf(rows, id)| - 1].meta.value.durationMs;
      && view == st.view.(status := Interrupted, errorCode := Str("gateway_restart"),
                          error := Str("Gateway 重启导致 Run 中断"),
                          durationMs := if IsNumber(last) then last else st.view.durationMs, nodes := view.nodes)
      && |view.nodes| == |st.view.nodes|
      && forall i :: 0 <= i < |view.nodes| ==>
           view.nodes[i] == if st.view.nodes[i].id in st.doneNodes then st.view.nodes[i]
                            else AfterRestart(st.view.nodes[i])
  {
    RecoveredRunRows(rows, id);
    FoldIffOrdered(rows, id);
    OpenRunsFacts(rows, Order(rows), id);
    RecoveredRows(rows, id);
    FoldIffOrdered(Recover(rows), id);
    ViewsShowTheirRows(rows, id);
    ViewsShowTheirRows(Recover(rows), id);
    RecoveredRunFits(rows, id);
    forall i | 0 <= i < |Fold(rows, id).value.view.nodes|
      ensures Fold(Recover(rows), id).value.view.nodes[i]
        == var st := Fold(rows, id).value;
           if st.view.nodes[i].id in st.doneNodes then st.view.nodes[i] else AfterRestart(st.view.nodes[i])
    {
      WellWrittenNode(rows, id, i);
    }
  }

  lemma RecoveredRunFits(rows: seq<Row>, id: RunId)
    requires id in OpenRuns(rows, Order(rows)) && NodeIdsOnNodeRows(RowsOf(rows, id))
    requires Fold(rows, id).Some? && Fold(Recover(rows), id).Some?
    ensures RowsOf(rows, id) != [] && RowsOf(rows, id)[|RowsOf(rows, id)| - 1].meta.Some?
    ensures var v, view := Fold(rows, id).value.view, Fold(Recover(rows), id).value.view;
      var last := RowsOf(rows, id)[|RowsOf(rows, id)| - 1].meta.value.durationMs;
      view == v.(status := Interrupted, errorCode := Str(RESTART_CODE), error := Str(RESTART_ERROR),
                 durationMs := if IsNumber(last) then last else v.durationMs, nodes := view.nodes)
  {
    RecoveredRunRows(rows, id);
    FoldIffOrdered(rows, id);
    FoldIffOrdered(Recover(rows), id);
    ViewsShowTheirRows(rows, id);
    ViewsShowTheirRows(Recover(rows), id);
    var group := RowsOf(rows, id);
    OneMore([], RecoveryRow(id, None, group[|group| - 1].meta.value).meta.value,
            LastGiven(StartMetas(group), Duration, Null), Label(Null));
    var end := RecoveryRow(id, None, group[|group| - 1].meta.value).meta.value;
    assert [] + [end] == [end];
  }

  lemma WellWrittenNode(rows: seq<Row>, id: RunId, i: nat)
    requires id in OpenRuns(rows, Order(rows)) && NodeIdsOnNodeRows(RowsOf(rows, id))
    requires Fold(rows, id).Some? && i < |Fold(rows, id).value.view.nodes|
    ensures Fold(Recover(rows), id).Some? && i < |Fold(Recover(rows), id).value.view.nodes|
    ensures Fold(Recover(rows), id).value.view.nodes[i]
      == var st := Fold(rows, id).value;
         if st.view.nodes[i].id in st.doneNodes then st.view.nodes[i] else AfterRestart(st.view.nodes[i])
  {
    OpenNodesBecomeInterrupted(rows, id, i);
    var st := Fold(rows, id).value;
    if st.view.nodes[i].id !in st.doneNodes {
      ShownNode(rows, id, i);
      LastShown(rows, id, st.view.nodes[i].id);
      EndedStaysEnded(rows, Additions(rows, Order(rows)), id);
      ShownNode(Recover(rows), id, i);
      RestartedNode(rows, id, st.view.nodes[i], Fold(Recover(rows), id).value.view.nodes[i]);
    }
  }

  lemma RestartedNode(rows: seq<Row>, id: RunId, v: NodeView, w: NodeView)
    requires id in OpenRuns(rows, Order(rows)) && w.id == v.id
    requires var group, ms := RowsOf(rows, id), NodeMetas(RowsOf(rows, id), v.id);
      && NodeFits(v, ms) && NodeFits(w, NodeMetas(RowsOf(Recover(rows), id), v.id))
      && OpenNode(group, v.id) && ms[|ms| - 1] == Latest(group, v.id).value
    ensures w == AfterRestart(v)
  {
    var group := RowsOf(rows, id);
    RecoveredMetas(rows, id, v.id);
    RestartedNodeFits(v, w, NodeMetas(group, v.id), id, Latest(group, v.id).value);
    LastOfMetas(v, NodeMetas(group, v.id));
  }

  lemma LastOfMetas(v: NodeView, ms: seq<Meta>)
    requires NodeFits(v, ms)
    ensures ms[|ms| - 1].taskLabel.Str? ==> v.role == Label(ms[|ms| - 1].taskLabel)
    ensures IsNumber(ms[|ms| - 1].durationMs) ==> v.durationMs == ms[|ms| - 1].durationMs
  {
  }

  /** A node that has not ended is open by its last mention, which is its last update. */
  lemma LastShown(rows: seq<Row>, id: RunId, n: NodeId)
    requires NodeIdsOnNodeRows(RowsOf(rows, id)) && Fold(rows, id).Some?
    requires n !in Fold(rows, id).value.doneNodes && NodeMetas(RowsOf(rows, id), n) != []
    ensures var group := RowsOf(rows, id);
      OpenNode(group, n) && NodeMetas(group, n)[|NodeMetas(group, n)| - 1] == Latest(group, n).value
  {
    var group := RowsOf(rows, id);
    RunsAreIndependent(rows, id);
    RowsOfOwn(rows, id);
    GroupFacts(group, id);
    if Latest(group, n).None? {
      NeverMentioned(group, n);
    } else {
      LatestIsLastUpdate(group, n);
    }
  }

  // ---- the order of the runs ----

  /** The runs stand by their first row: reading more rows adds runs at the end only. */
  lemma {:induction false} OrderGrowsAtTheEnd(rows: seq<Row>, k: nat)
    requires k <= |rows|
    ensures Order(rows[..k]) <= Order(rows)
    ensures forall id :: id in Order(rows[..k]) <==> exists i :: 0 <= i < k && RunOf(rows[i]) == Some(id)
    decreases |rows|
  {
    if k < |rows| {
      OrderGrowsAtTheEnd(rows[..|rows| - 1], k);
      assert rows[..|rows| - 1][..k] == rows[..k];
    } else {
      assert rows[..k] == rows;
      if k > 0 {
        OrderGrowsAtTheEnd(rows[..k - 1], k - 1);
        assert rows[..k - 1][..k - 1] == rows[..k - 1];
      }
    }
  }

  /** The runs shown are those that a Multi-Agent row of a known event names. */
  lemma ShownRuns(rows: seq<Row>, id: RunId)
    ensures Fold(rows, id).Some? <==>
      exists i :: 0 <= i < |rows| && rows[i].multiAgent && rows[i].event != OtherEvent
        && rows[i].meta.Some? && rows[i].meta.value.runId == Some(id)
  {
    FoldIffOrdered(rows, id);
    OrderGrowsAtTheEnd(rows, |rows|);
    assert rows[..|rows|] == rows;
  }
}
