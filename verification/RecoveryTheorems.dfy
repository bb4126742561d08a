/** Recovery of an arbitrary log: afterwards every run has ended, ended runs look as before, a second
    recovery adds nothing, and exactly when all nodes of a recovered run have ended, too. */
module RecoveryTheorems {
  import opened Options
  import opened RunLog
  import opened RunRecovery

  lemma {:induction false} RepairsAreOwn(group: seq<Row>, id: RunId, nodes: seq<NodeId>)
    ensures Own(NodeRepairs(group, id, nodes), id)
    ensures forall n :: UpdatedIn(NodeRepairs(group, id, nodes), n) <==> n in nodes && OpenNode(group, n)
    ensures forall n :: UpdatedIn(NodeRepairs(group, id, nodes), n) ==> EndedIn(NodeRepairs(group, id, nodes), n)
  {
    if nodes != [] {
      var before, n := nodes[..|nodes| - 1], nodes[|nodes| - 1];
      RepairsAreOwn(group, id, before);
      assert nodes == before + [n];
      if OpenNode(group, n) {
        var row := RecoveryRow(id, Some(n), Latest(group, n).value);
        var repairs := NodeRepairs(group, id, before);
        forall q
          ensures UpdatedIn(repairs + [row], q) <==> UpdatedIn(repairs, q) || q == n
          ensures EndedIn(repairs + [row], q) <==> EndedIn(repairs, q) || q == n
        {
          EndedInAppend(repairs, [row], q);
          EndedInOne(row, q);
        }
      }
    }
  }

  lemma RepairsOfOwn(rows: seq<Row>, id: RunId)
    ensures Own(RepairsOf(rows, id), id)
  {
    RepairsAreOwn(RowsOf(rows, id), id, Mentioned(RowsOf(rows, id)));
  }

  lemma {:induction false} RowsOfOthers(rows: seq<Row>, owner: RunId, id: RunId)
    requires Own(rows, owner)
    ensures RowsOf(rows, id) == if owner == id then rows else []
  {
    if rows != [] {
      var front, row := rows[..|rows| - 1], rows[|rows| - 1];
      assert rows == front + [row] && row in rows;
      RowsOfOthers(front, owner, id);
    }
  }

  lemma {:induction false} AdditionsOf(rows: seq<Row>, ids: seq<RunId>, id: RunId)
    requires forall i, j :: 0 <= i < j < |ids| ==> ids[i] != ids[j]
    ensures RowsOf(Additions(rows, ids), id) == if id in ids then RepairsOf(rows, id) else []
  {
    if ids != [] {
      var before, q := ids[..|ids| - 1], ids[|ids| - 1];
      assert ids == before + [q];
      AdditionsOf(rows, before, id);
      RowsOfConcat(Additions(rows, before), RepairsOf(rows, q), id);
      RepairsOfOwn(rows, q);
      RowsOfOthers(RepairsOf(rows, q), q, id);
    }
  }

  lemma {:induction false} OrderedIffRows(rows: seq<Row>, id: RunId)
    ensures id in Order(rows) <==> RowsOf(rows, id) != []
  {
    if rows != [] {
      OrderedIffRows(rows[..|rows| - 1], id);
    }
  }

  /** After recovery a run has its own rows and then its repairs. */
  lemma RecoveredRows(rows: seq<Row>, id: RunId)
    ensures RowsOf(Recover(rows), id) == RowsOf(rows, id) + RepairsOf(rows, id)
    ensures id in Order(Recover(rows)) <==> id in Order(rows)
  {
    OrderDistinct(rows);
    AdditionsOf(rows, Order(rows), id);
    RowsOfConcat(rows, Additions(rows, Order(rows)), id);
    OrderedIffRows(rows, id);
    OrderedIffRows(Recover(rows), id);
  }

  /** An open run is ended by its last repair. */
  lemma RepairsEnd(rows: seq<Row>, id: RunId)
    requires id in Order(rows)
    ensures HasEnd(RowsOf(rows, id) + RepairsOf(rows, id))
  {
    var group, repairs := RowsOf(rows, id), RepairsOf(rows, id);
    OrderedIffRows(rows, id);
    RowsOfOwn(rows, id);
    if HasEnd(group) {
      var row :| row in group && EndsItsRun(row);
      assert row in group + repairs;
    } else {
      assert group[|group| - 1] in group;
      var row := repairs[|repairs| - 1];
      assert EndsItsRun(row) && row in group + repairs;
    }
  }

  /** Recovery makes every run in the log terminal. */
  lemma RecoveryEndsEveryRun(rows: seq<Row>, id: RunId)
    requires id in Order(Recover(rows))
    ensures Fold(Recover(rows), id).Some? && Fold(Recover(rows), id).value.done
    ensures Terminal(Fold(Recover(rows), id).value.view.status)
  {
    var log := Recover(rows);
    RecoveredRows(rows, id);
    RepairsEnd(rows, id);
    RunsAreIndependent(log, id);
    RowsOfOwn(log, id);
    GroupFacts(RowsOf(log, id), id);
    DoneIsTerminal(log, id);
  }

  lemma {:induction false} DoneIsTerminal(rows: seq<Row>, id: RunId)
    ensures Fold(rows, id).Some? && Fold(rows, id).value.done ==> Terminal(Fold(rows, id).value.view.status)
  {
    if rows != [] {
      DoneIsTerminal(rows[..|rows| - 1], id);
    }
  }

  lemma HasEndConcat(a: seq<Row>, b: seq<Row>)
    ensures HasEnd(a + b) <==> HasEnd(a) || HasEnd(b)
  {
  }

  lemma RestartRowEnds(before: seq<Row>, id: RunId, previous: Meta)
    requires Own(before, id) && before != [] && !HasEnd(before)
    ensures var after := Fold(before + [RecoveryRow(id, None, previous)], id);
            after.Some? && var view := after.value.view;
            view.status == Interrupted && view.errorCode == Str(RESTART_CODE) && view.error == Str(RESTART_ERROR)
  {
    GroupFacts(before, id);
    var row := RecoveryRow(id, None, previous);
    assert (before + [row])[..|before|] == before;
    assert RunOf(row) == Some(id);
  }

  /** What recovery appends to a run that was left open: the repairs of its nodes, then its own end. */
  lemma OpenRunRows(rows: seq<Row>, id: RunId) returns (nodes: seq<Row>, last: Meta)
    requires id in Order(rows) && !HasEnd(RowsOf(rows, id))
    ensures RowsOf(rows, id) != [] && Own(RowsOf(rows, id), id)
    ensures nodes == NodeRepairs(RowsOf(rows, id), id, Mentioned(RowsOf(rows, id)))
    ensures RowsOf(rows, id) + RepairsOf(rows, id) == (RowsOf(rows, id) + nodes) + [RecoveryRow(id, None, last)]
  {
    var group := RowsOf(rows, id);
    OrderedIffRows(rows, id);
    RowsOfOwn(rows, id);
    assert group[|group| - 1] in group;
    nodes := NodeRepairs(group, id, Mentioned(group));
    last := group[|group| - 1].meta.value;
  }

  /** A run left open is shown as interrupted by the restart. */
  lemma OpenRunsBecomeInterrupted(rows: seq<Row>, id: RunId)
    requires id in OpenRuns(rows, Order(rows))
    ensures Fold(Recover(rows), id).Some?
    ensures var view := Fold(Recover(rows), id).value.view;
            view.status == Interrupted && view.errorCode == Str(RESTART_CODE) && view.error == Str(RESTART_ERROR)
  {
    OpenRunsFacts(rows, Order(rows), id);
    var group := RowsOf(rows, id);
    RecoveredRows(rows, id);
    RunsAreIndependent(Recover(rows), id);
    var nodes, last := OpenRunRows(rows, id);
    RepairsAreOwn(group, id, Mentioned(group));
    NodeRepairsEndNothing(group, id, Mentioned(group));
    HasEndConcat(group, nodes);
    RestartRowEnds(group + nodes, id, last);
  }

  lemma {:induction false} NodeRepairsEndNothing(group: seq<Row>, id: RunId, nodes: seq<NodeId>)
    ensures !HasEnd(NodeRepairs(group, id, nodes))
  {
    if nodes != [] {
      NodeRepairsEndNothing(group, id, nodes[..|nodes| - 1]);
    }
  }

  /** A run that had already ended looks exactly as before. */
  lemma RecoveryKeepsEndedRuns(rows: seq<Row>, id: RunId)
    requires Fold(rows, id).Some? && Fold(rows, id).value.done
    ensures Fold(Recover(rows), id) == Fold(rows, id)
  {
    RunsAreIndependent(rows, id);
    RunsAreIndependent(Recover(rows), id);
    RowsOfOwn(rows, id);
    GroupFacts(RowsOf(rows, id), id);
    RecoveredRows(rows, id);
    assert RowsOf(rows, id) + [] == RowsOf(rows, id);
  }

  lemma {:induction false} NothingToAdd(rows: seq<Row>, ids: seq<RunId>)
    requires forall id :: id in ids ==> HasEnd(RowsOf(rows, id))
    ensures Additions(rows, ids) == [] && OpenRuns(rows, ids) == []
  {
    if ids != [] {
      NothingToAdd(rows, ids[..|ids| - 1]);
      assert ids[|ids| - 1] in ids;
    }
  }

  /** Recovering twice is recovering once, and the second time no run is reported. */
  lemma RecoveryIsIdempotent(rows: seq<Row>)
    ensures Recover(Recover(rows)) == Recover(rows)
    ensures OpenRuns(Recover(rows), Order(Recover(rows))) == []
  {
    var log := Recover(rows);
    forall id | id in Order(log)
      ensures HasEnd(RowsOf(log, id))
    {
      RecoveredRows(rows, id);
      RepairsEnd(rows, id);
    }
    NothingToAdd(log, Order(log));
  }

  // ---- the nodes of a recovered run ----

  /** Every updated node is open by its last mention, or one of its own rows ended it. */
  ghost predicate MentionsBacked(group: seq<Row>) {
    forall n :: UpdatedIn(group, n) ==> OpenNode(group, n) || EndedIn(group, n)
  }

  ghost predicate AllNodesEnded(st: RunState) {
    forall i :: 0 <= i < |st.view.nodes| ==> Terminal(st.view.nodes[i].status)
  }

  lemma {:induction false} LatestOfMention(group: seq<Row>, row: Row, n: NodeId)
    requires row in group && Mentions(row, n)
    ensures Latest(group, n).Some?
  {
    if !Mentions(group[|group| - 1], n) {
      assert group == group[..|group| - 1] + [group[|group| - 1]];
      LatestOfMention(group[..|group| - 1], row, n);
    }
  }

  /** What the repairs add to the ended and to the shown nodes of an open run. */
  lemma RepairedNodes(rows: seq<Row>, id: RunId, n: NodeId)
    requires id in Order(rows) && !HasEnd(RowsOf(rows, id))
    ensures var group, all := RowsOf(rows, id), RowsOf(rows, id) + RepairsOf(rows, id);
            && (EndedIn(all, n) <==> OpenNode(group, n) || EndedIn(group, n))
            && (UpdatedIn(all, n) <==> OpenNode(group, n) || UpdatedIn(group, n))
  {
    var group := RowsOf(rows, id);
    var nodes, last := OpenRunRows(rows, id);
    MentionedIffLatest(group);
    RepairsAreOwn(group, id, Mentioned(group));
    var end := RecoveryRow(id, None, last);
    EndedInAppend(group + nodes, [end], n);
    EndedInAppend(group, nodes, n);
    EndedInOne(end, n);
    EndedIsUpdated(nodes, n);
  }

  lemma AllEndedIff(st: RunState)
    requires NodesConsistent(st)
    ensures AllNodesEnded(st) <==> forall n :: InView(st, n) ==> n in st.doneNodes
  {
    forall i | 0 <= i < |st.view.nodes|
      ensures InView(st, st.view.nodes[i].id)
    {
    }
  }

  /** After recovery all nodes of a recovered run have ended if and only if, before it, no node's
      last mention was terminal on a row that is not a node row while its node rows left it open. */
  lemma RecoveredNodesEnd(rows: seq<Row>, id: RunId)
    requires id in OpenRuns(rows, Order(rows))
    ensures Fold(Recover(rows), id).Some?
    ensures AllNodesEnded(Fold(Recover(rows), id).value) <==> MentionsBacked(RowsOf(rows, id))
  {
    OpenRunsFacts(rows, Order(rows), id);
    var log := Recover(rows);
    RecoveredRows(rows, id);
    RunsAreIndependent(log, id);
    RowsOfOwn(log, id);
    RepairsEnd(rows, id);
    GroupFacts(RowsOf(log, id), id);
    var st := Fold(log, id).value;
    AllEndedIff(st);
    forall n
      ensures InView(st, n) && n !in st.doneNodes
        <==> UpdatedIn(RowsOf(rows, id), n) && !OpenNode(RowsOf(rows, id), n) && !EndedIn(RowsOf(rows, id), n)
    {
      RepairedNodes(rows, id, n);
    }
  }

  lemma {:induction false} OpenRunsFacts(rows: seq<Row>, ids: seq<RunId>, id: RunId)
    ensures id in OpenRuns(rows, ids) <==> id in ids && !HasEnd(RowsOf(rows, id))
  {
    if ids != [] {
      OpenRunsFacts(rows, ids[..|ids| - 1], id);
      assert ids == ids[..|ids| - 1] + [ids[|ids| - 1]];
    }
  }

  /** Node ids appear only on node rows: what the coordinator writes. */
  predicate NodeIdsOnNodeRows(group: seq<Row>) {
    forall row :: row in group && row.meta.Some? && row.meta.value.nodeId.Some? ==> row.event.NodeUpdated?
  }

  lemma {:induction false} LatestIsARow(group: seq<Row>, n: NodeId) returns (row: Row)
    requires Latest(group, n).Some?
    ensures row in group && Mentions(row, n) && row.meta == Latest(group, n)
  {
    row := group[|group| - 1];
    if !Mentions(row, n) {
      row := LatestIsARow(group[..|group| - 1], n);
      assert group == group[..|group| - 1] + [group[|group| - 1]];
    }
  }

  /** For such logs every node of a recovered run has ended. */
  lemma WellWrittenLogsRecover(rows: seq<Row>, id: RunId)
    requires id in OpenRuns(rows, Order(rows)) && NodeIdsOnNodeRows(RowsOf(rows, id))
    ensures Fold(Recover(rows), id).Some? && AllNodesEnded(Fold(Recover(rows), id).value)
  {
    var group := RowsOf(rows, id);
    forall n | UpdatedIn(group, n)
      ensures OpenNode(group, n) || EndedIn(group, n)
    {
      var row :| row in group && UpdatesNode(row, n);
      LatestOfMention(group, row, n);
      var last := LatestIsARow(group, n);
      assert UpdatesNode(last, n);
    }
    RecoveredNodesEnd(rows, id);
  }

  /** A log that is not: a queued node that a later run row mentions as completed stays queued. */
  lemma MisplacedNodeIdStaysOpen(id: RunId)
    ensures var rows := MisplacedLog(id);
      && id in OpenRuns(rows, Order(rows))
      && Fold(Recover(rows), id).Some? && !AllNodesEnded(Fold(Recover(rows), id).value)
  {
    var rows, n := MisplacedLog(id), Worker(1);
    MisplacedLogIsOpen(id);
    var first, second := rows[0], rows[1];
    assert rows == [first] + [second];
    EndedInAppend([first], [second], n);
    EndedInOne(first, n);
    EndedInOne(second, n);
    assert Latest(rows, n) == second.meta;
    assert !MentionsBacked(rows);
    RecoveredNodesEnd(rows, id);
  }

  function MisplacedLog(id: RunId): seq<Row> {
    var base := Meta(Some(id), Some(Worker(1)), Some(Queued), None, Absent, Absent, Absent, Absent, Absent, Absent);
    [Row(true, NodeUpdated, Some(base)), Row(true, RunStarted, Some(base.(status := Some(Completed))))]
  }

  lemma MisplacedLogIsOpen(id: RunId)
    ensures var rows := MisplacedLog(id); RowsOf(rows, id) == rows && id in OpenRuns(rows, Order(rows))
  {
    var rows := MisplacedLog(id);
    assert rows[..1] == [rows[0]] && [rows[0]][..0] == [];
    assert Order([rows[0]]) == [id] && Order(rows) == [id];
    assert RowsOf([rows[0]], id) == [rows[0]] && RowsOf(rows, id) == rows;
    assert !HasEnd(rows);
    OpenRunsFacts(rows, Order(rows), id);
  }
}
