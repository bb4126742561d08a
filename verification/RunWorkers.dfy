/** The workers of one run: a fan-out under two semaphores, in every interleaving, and the pipeline.
    Both end with one node per task, and with a trace of events the log theorem applies to. */
module RunWorkers {
  import opened Options
  import opened RunLog
  import opened RunEvents
  import opened RunAgreement

  lemma {:induction false} TraceAppend(stages: seq<Stage>, evs: seq<NodeEvent>, e: NodeEvent)
    requires ValidTrace(stages, evs) && CanHappen(StagesAfter(stages, evs), e)
    ensures ValidTrace(stages, evs + [e])
    ensures StagesAfter(stages, evs + [e]) == After(StagesAfter(stages, evs), e)
    decreases |evs|
  {
    if evs == [] {
      assert [] + [e] == [e] && [e][1..] == [];
    } else {
      assert (evs + [e])[1..] == evs[1..] + [e] && (evs + [e])[0] == evs[0];
      TraceAppend(After(stages, evs[0]), evs[1..], e);
    }
  }

  // ---- fan-out ----

  datatype Phase =
    | NeedRun                                          // waiting for a slot of the run
    | NeedGlobal                                       // waiting for a global slot
    | Ready                                            // both slots, running not yet emitted
    | Working
    | Ended(node: Node, run: bool, global: bool)       // end emitted, slots still held
    | Left(node: Node)

  datatype Pool = Pool(phases: seq<Phase>, runFree: nat, globalFree: nat, others: nat, trace: seq<NodeEvent>)

  datatype Step =
    | TakeRun(i: nat)
    | RefusedRun(i: nat, node: Node)
    | TakeGlobal(i: nat)
    | RefusedGlobal(i: nat, node: Node)
    | Announce(i: nat)
    | Finish(i: nat, node: Node)
    | Release(i: nat)
    | OtherTakes
    | OtherReleases

  predicate HoldsRun(p: Phase) {
    p.NeedGlobal? || p.Ready? || p.Working? || (p.Ended? && p.run)
  }

  predicate HoldsGlobal(p: Phase) {
    p.Ready? || p.Working? || (p.Ended? && p.global)
  }

  predicate EndOf(node: Node, i: nat) {
    node.index == i && Terminal(node.status)
  }

  predicate CanStep(p: Pool, s: Step) {
    match s
    case TakeRun(i) => i < |p.phases| && p.phases[i].NeedRun? && p.runFree > 0
    case RefusedRun(i, node) => i < |p.phases| && p.phases[i].NeedRun? && EndOf(node, i)
    case TakeGlobal(i) => i < |p.phases| && p.phases[i].NeedGlobal? && p.globalFree > 0
    case RefusedGlobal(i, node) => i < |p.phases| && p.phases[i].NeedGlobal? && EndOf(node, i)
    case Announce(i) => i < |p.phases| && p.phases[i].Ready?
    case Finish(i, node) => i < |p.phases| && p.phases[i].Working? && EndOf(node, i)
    case Release(i) => i < |p.phases| && p.phases[i].Ended?
    case OtherTakes => p.globalFree > 0
    case OtherReleases => p.others > 0
  }

  function DoStep(p: Pool, s: Step): Pool
    requires CanStep(p, s)
  {
    match s
    case TakeRun(i) => p.(phases := p.phases[i := NeedGlobal], runFree := p.runFree - 1)
    case RefusedRun(i, node) =>
      p.(phases := p.phases[i := Ended(node, false, false)], trace := p.trace + [Ends(i, node)])
    case TakeGlobal(i) => p.(phases := p.phases[i := Ready], globalFree := p.globalFree - 1)
    case RefusedGlobal(i, node) =>
      p.(phases := p.phases[i := Ended(node, true, false)], trace := p.trace + [Ends(i, node)])
    case Announce(i) => p.(phases := p.phases[i := Working], trace := p.trace + [Begins(i)])
    case Finish(i, node) =>
      p.(phases := p.phases[i := Ended(node, true, true)], trace := p.trace + [Ends(i, node)])
    case Release(i) =>
      p.(phases := p.phases[i := Left(p.phases[i].node)],
         globalFree := if p.phases[i].global then p.globalFree + 1 else p.globalFree,
         runFree := if p.phases[i].run then p.runFree + 1 else p.runFree)
    case OtherTakes => p.(globalFree := p.globalFree - 1, others := p.others + 1)
    case OtherReleases => p.(globalFree := p.globalFree + 1, others := p.others - 1)
  }

  ghost predicate ValidSteps(p: Pool, steps: seq<Step>)
    decreases |steps|
  {
    steps == [] || (CanStep(p, steps[0]) && ValidSteps(DoStep(p, steps[0]), steps[1..]))
  }

  ghost function RunSteps(p: Pool, steps: seq<Step>): Pool
    requires ValidSteps(p, steps)
    decreases |steps|
  {
    if steps == [] then p else RunSteps(DoStep(p, steps[0]), steps[1..])
  }

  function Count(phases: seq<Phase>, holds: Phase -> bool): nat {
    if phases == [] then 0
    else Count(phases[..|phases| - 1], holds) + if holds(phases[|phases| - 1]) then 1 else 0
  }

  lemma {:induction false} CountUpdate(phases: seq<Phase>, i: nat, p: Phase, holds: Phase -> bool)
    requires i < |phases|
    ensures Count(phases[i := p], holds) + (if holds(phases[i]) then 1 else 0)
            == Count(phases, holds) + (if holds(p) then 1 else 0)
  {
    var n := |phases| - 1;
    if i == n {
      assert phases[i := p][..n] == phases[..n];
    } else {
      assert phases[i := p][..n] == phases[..n][i := p];
      CountUpdate(phases[..n], i, p, holds);
    }
  }

  lemma {:induction false} CountWeaker(phases: seq<Phase>, p: Phase -> bool, q: Phase -> bool)
    requires forall x :: p(x) ==> q(x)
    ensures Count(phases, p) <= Count(phases, q)
  {
    if phases != [] {
      CountWeaker(phases[..|phases| - 1], p, q);
    }
  }

  lemma {:induction false} CountNone(phases: seq<Phase>, holds: Phase -> bool)
    requires forall i :: 0 <= i < |phases| ==> !holds(phases[i])
    ensures Count(phases, holds) == 0
  {
    if phases != [] {
      CountNone(phases[..|phases| - 1], holds);
    }
  }

  function StageOf(p: Phase): Stage {
    match p
    case Working => Active
    case Ended(node, _, _) => Over(node)
    case Left(node) => Over(node)
    case _ => Unstarted
  }

  function Stages(phases: seq<Phase>): seq<Stage> {
    seq(|phases|, i requires 0 <= i < |phases| => StageOf(phases[i]))
  }

  /** Permits are conserved: free ones and held ones make up each limit. */
  ghost predicate Conserved(p: Pool, runLimit: nat, globalLimit: nat) {
    && p.runFree + Count(p.phases, HoldsRun) == runLimit
    && p.globalFree + Count(p.phases, HoldsGlobal) + p.others == globalLimit
  }

  ghost predicate Traced(p: Pool) {
    && ValidTrace(FreshStages(|p.phases|), p.trace)
    && StagesAfter(FreshStages(|p.phases|), p.trace) == Stages(p.phases)
  }

  lemma StepConserves(p: Pool, s: Step, runLimit: nat, globalLimit: nat)
    requires Conserved(p, runLimit, globalLimit) && CanStep(p, s)
    ensures Conserved(DoStep(p, s), runLimit, globalLimit)
  {
    if !s.OtherTakes? && !s.OtherReleases? {
      CountUpdate(p.phases, s.i, DoStep(p, s).phases[s.i], HoldsRun);
      CountUpdate(p.phases, s.i, DoStep(p, s).phases[s.i], HoldsGlobal);
    }
  }

  lemma StepTraced(p: Pool, s: Step)
    requires Traced(p) && CanStep(p, s)
    ensures Traced(DoStep(p, s)) && |DoStep(p, s).phases| == |p.phases|
  {
    var p' := DoStep(p, s);
    if s.RefusedRun? || s.RefusedGlobal? || s.Announce? || s.Finish? {
      var e := p'.trace[|p.trace|];
      TraceAppend(FreshStages(|p.phases|), p.trace, e);
      assert Stages(p'.phases) == After(Stages(p.phases), e);
    } else {
      assert Stages(p'.phases) == Stages(p.phases);
    }
  }

  lemma {:induction false} StepsKeep(p: Pool, steps: seq<Step>, runLimit: nat, globalLimit: nat)
    requires Conserved(p, runLimit, globalLimit) && Traced(p) && ValidSteps(p, steps)
    ensures var p' := RunSteps(p, steps);
            Conserved(p', runLimit, globalLimit) && Traced(p') && |p'.phases| == |p.phases|
    decreases |steps|
  {
    if steps != [] {
      StepConserves(p, steps[0], runLimit, globalLimit);
      StepTraced(p, steps[0]);
      StepsKeep(DoStep(p, steps[0]), steps[1..], runLimit, globalLimit);
    }
  }

  /** `n` workers, all slots of the run free, `others` global slots in use elsewhere. */
  function StartPool(n: nat, runLimit: nat, globalLimit: nat, others: nat): Pool
    requires others <= globalLimit
  {
    Pool(seq(n, _ => NeedRun), runLimit, globalLimit - others, others, [])
  }

  lemma StartKeeps(n: nat, runLimit: nat, globalLimit: nat, others: nat)
    requires others <= globalLimit
    ensures var p := StartPool(n, runLimit, globalLimit, others);
            Conserved(p, runLimit, globalLimit) && Traced(p)
  {
    var p := StartPool(n, runLimit, globalLimit, others);
    CountNone(p.phases, HoldsRun);
    CountNone(p.phases, HoldsGlobal);
    assert Stages(p.phases) == FreshStages(n);
  }

  /** At every moment the workers at work are at most as many as each limit allows. */
  lemma WorkersWithinLimits(n: nat, runLimit: nat, globalLimit: nat, others: nat, steps: seq<Step>)
    requires others <= globalLimit && ValidSteps(StartPool(n, runLimit, globalLimit, others), steps)
    ensures var p := RunSteps(StartPool(n, runLimit, globalLimit, others), steps);
            && Count(p.phases, (x: Phase) => x.Working?) <= runLimit
            && Count(p.phases, (x: Phase) => x.Working?) + p.others <= globalLimit
  {
    StartKeeps(n, runLimit, globalLimit, others);
    StepsKeep(StartPool(n, runLimit, globalLimit, others), steps, runLimit, globalLimit);
    var p := RunSteps(StartPool(n, runLimit, globalLimit, others), steps);
    CountWeaker(p.phases, (x: Phase) => x.Working?, HoldsRun);
    CountWeaker(p.phases, (x: Phase) => x.Working?, HoldsGlobal);
  }

  function NodesOf(phases: seq<Phase>): seq<Node>
    requires forall i :: 0 <= i < |phases| ==> phases[i].Left?
  {
    seq(|phases|, i requires 0 <= i < |phases| => phases[i].node)
  }

  /** When all workers have left, both semaphores are back where they were but for the other runs'
      slots, and whatever happened since, the log shows the run with its nodes in task order. */
  lemma FanOutEnds(n: nat, runLimit: nat, globalLimit: nat, others: nat, steps: seq<Step>,
                   id: RunId, stop: bool, late: bool, overBudget: bool, ops: seq<ParentOp>, d: nat -> Detail)
    requires others <= globalLimit && ValidSteps(StartPool(n, runLimit, globalLimit, others), steps)
    requires var p := RunSteps(StartPool(n, runLimit, globalLimit, others), steps);
             forall i :: 0 <= i < |p.phases| ==> p.phases[i].Left?
    ensures var p := RunSteps(StartPool(n, runLimit, globalLimit, others), steps);
            && p.runFree == runLimit
            && p.globalFree + p.others == globalLimit
            && |p.phases| == n
            && var c := WholeRun(id, FanOut, n, p.trace, NodesOf(p.phases), stop, late, overBudget, ops, d);
               Agrees(c) && c.run.nodes == NodesOf(p.phases)
  {
    StartKeeps(n, runLimit, globalLimit, others);
    StepsKeep(StartPool(n, runLimit, globalLimit, others), steps, runLimit, globalLimit);
    var p := RunSteps(StartPool(n, runLimit, globalLimit, others), steps);
    CountNone(p.phases, HoldsRun);
    CountNone(p.phases, HoldsGlobal);
    LogAgreesWithRun(id, FanOut, n, p.trace, NodesOf(p.phases), stop, late, overBudget, ops, d);
  }

  // ---- pipeline ----

  const DEPENDENCY_MAX_CHARS: nat := 12_000
  const DEPENDENCY_MAX_TOKENS: nat := 6_000

  /** What running worker `i` gives: its node, and whether it got as far as emitting running. */
  datatype Work = Work(node: Node, begun: bool)

  datatype Call = Call(index: nat, dependency: Option<string>)

  /** A worker result carries content exactly when it is completed. */
  predicate ValidResult(r: WorkerResult) {
    Terminal(r.status) && (r.content.Some? <==> r.status.Completed?)
  }

  predicate WorkerNode(node: Node, i: nat) {
    EndOf(node, i) && node.result.Some? && ValidResult(node.result.value) && node.result.value.status == node.status
  }

  function CancelledNode(i: nat): Node {
    Node(i, Cancelled, Some(WorkerResult(Cancelled, None, Some("前序 Worker 未成功"))), None)
  }

  function FailedNode(i: nat): Node {
    Node(i, Failed, Some(WorkerResult(Failed, None, Some("Worker 结果超出上下文限制"))), Some(RESULT_CONTEXT_EXCEEDED))
  }

  predicate FitsAsDependency(content: string, tokens: string -> nat) {
    |content| <= DEPENDENCY_MAX_CHARS && tokens(content) <= DEPENDENCY_MAX_TOKENS
  }

  /** The dependency handed on by a completed node, or None when it is out of bounds. */
  function BuildDependency(node: Node, tokens: string -> nat): Option<string> {
    if node.result.None? || node.result.value.content.None? then None
    else if FitsAsDependency(node.result.value.content.value, tokens) then node.result.value.content
    else None
  }

  /** Completed nodes, then at most one node that is not completed, then only cancelled ones. */
  predicate PipelineShape(nodes: seq<Node>, m: nat) {
    m <= |nodes| && forall i :: 0 <= i < |nodes| ==> ShapeAt(nodes, m, i)
  }

  predicate ShapeAt(nodes: seq<Node>, m: nat, i: int)
    requires 0 <= i < |nodes|
  {
    && (i < m ==> nodes[i].status.Completed?)
    && (i == m ==> !nodes[i].status.Completed?)
    && (i > m ==> nodes[i].status.Cancelled?)
  }

  /** Call j runs worker j, and with exactly its predecessor's content, which fits. */
  predicate RanAt(worker: (nat, Option<string>) -> Work, tokens: string -> nat, nodes: seq<Node>, calls: seq<Call>,
                  j: int)
    requires 0 <= j < |calls| <= |nodes|
  {
    && calls[j].index == j
    && nodes[j] == worker(j, calls[j].dependency).node
    && if j == 0 then calls[j].dependency == None
       else
         && nodes[j - 1].status.Completed? && nodes[j - 1].result.Some?
         && calls[j].dependency.Some? && calls[j].dependency == nodes[j - 1].result.value.content
         && |calls[j].dependency.value| <= 12_000 && tokens(calls[j].dependency.value) <= 6_000
  }

  predicate CallsChained(worker: (nat, Option<string>) -> Work, tokens: string -> nat, nodes: seq<Node>,
                         calls: seq<Call>)
  {
    |calls| <= |nodes| && forall j :: 0 <= j < |calls| ==> RanAt(worker, tokens, nodes, calls, j)
  }

  function PipelineStages(nodes: seq<Node>, n: nat): seq<Stage>
    requires |nodes| <= n
  {
    seq(n, i requires 0 <= i < n => if i < |nodes| then Over(nodes[i]) else Unstarted)
  }

  /** The trace so far ends the nodes so far, and starts no other. */
  ghost predicate TraceOf(n: nat, nodes: seq<Node>, trace: seq<NodeEvent>) {
    && |nodes| <= n
    && ValidTrace(FreshStages(n), trace)
    && StagesAfter(FreshStages(n), trace) == PipelineStages(nodes, n)
  }

  /** Emits what the next worker emits: running if it got that far, and its end. */
  method RecordWork(n: nat, ghost nodes: seq<Node>, trace: seq<NodeEvent>, work: Work) returns (trace': seq<NodeEvent>)
    requires TraceOf(n, nodes, trace) && |nodes| < n && EndOf(work.node, |nodes|)
    ensures TraceOf(n, nodes + [work.node], trace')
  {
    trace' := trace;
    var i := work.node.index;
    if work.begun {
      TraceAppend(FreshStages(n), trace', Begins(i));
      trace' := trace' + [Begins(i)];
    }
    ghost var before := StagesAfter(FreshStages(n), trace');
    TraceAppend(FreshStages(n), trace', Ends(i, work.node));
    trace' := trace' + [Ends(i, work.node)];
    assert After(before, Ends(i, work.node)) == PipelineStages(nodes + [work.node], n);
  }

  predicate WorkerNodes(nodes: seq<Node>) {
    forall i :: 0 <= i < |nodes| ==> WorkerNode(nodes[i], i)
  }

  /** What holds of the nodes and calls at every moment; `m` counts the completed nodes in front. */
  ghost predicate Progress(n: nat, worker: (nat, Option<string>) -> Work, tokens: string -> nat,
                           nodes: seq<Node>, calls: seq<Call>, m: nat)
  {
    |nodes| <= n && WorkerNodes(nodes) && PipelineShape(nodes, m) && CallsChained(worker, tokens, nodes, calls)
  }

  lemma ShapeGrows(nodes: seq<Node>, m: nat, node: Node, m': nat)
    requires PipelineShape(nodes, m) && m <= m' <= |nodes| + 1 && (m' == m || m == |nodes|)
    requires if m' > m then node.status.Completed?
             else node.status.Cancelled? || (m == |nodes| && !node.status.Completed?)
    ensures PipelineShape(nodes + [node], m')
  {
    forall i | 0 <= i < |nodes + [node]|
      ensures ShapeAt(nodes + [node], m', i)
    {
      if i < |nodes| {
        assert ShapeAt(nodes, m, i);
      }
    }
  }

  lemma RanStays(worker: (nat, Option<string>) -> Work, tokens: string -> nat, nodes: seq<Node>, calls: seq<Call>,
                 node: Node, more: seq<Call>, j: int)
    requires 0 <= j < |calls| && |calls + more| <= |nodes| + 1 && |calls| <= |nodes|
    requires RanAt(worker, tokens, nodes, calls, j)
    ensures RanAt(worker, tokens, nodes + [node], calls + more, j)
  {
  }

  lemma CallProgress(n: nat, worker: (nat, Option<string>) -> Work, tokens: string -> nat,
                     nodes: seq<Node>, calls: seq<Call>, dependency: Option<string>)
    requires Progress(n, worker, tokens, nodes, calls, |nodes|) && |calls| == |nodes| < n
    requires if nodes == [] then dependency == None
             else dependency.Some? && dependency == BuildDependency(nodes[|nodes| - 1], tokens)
    requires WorkerNode(worker(|nodes|, dependency).node, |nodes|)
    ensures var node := worker(|nodes|, dependency).node;
            Progress(n, worker, tokens, nodes + [node], calls + [Call(|nodes|, dependency)],
                     if node.status.Completed? then |nodes| + 1 else |nodes|)
  {
    var node, call := worker(|nodes|, dependency).node, Call(|nodes|, dependency);
    ShapeGrows(nodes, |nodes|, node, if node.status.Completed? then |nodes| + 1 else |nodes|);
    if nodes != [] {
      assert ShapeAt(nodes, |nodes|, |nodes| - 1);
    }
    forall j | 0 <= j < |calls + [call]|
      ensures RanAt(worker, tokens, nodes + [node], calls + [call], j)
    {
      if j < |calls| {
        RanStays(worker, tokens, nodes, calls, node, [call], j);
      }
    }
  }

  lemma FillProgress(n: nat, worker: (nat, Option<string>) -> Work, tokens: string -> nat,
                     nodes: seq<Node>, calls: seq<Call>, m: nat, node: Node)
    requires Progress(n, worker, tokens, nodes, calls, m) && |nodes| < n && WorkerNode(node, |nodes|)
    requires node.status.Cancelled? || (m == |nodes| && !node.status.Completed?)
    ensures Progress(n, worker, tokens, nodes + [node], calls, m)
  {
    ShapeGrows(nodes, m, node, m);
    assert calls + [] == calls;
    forall j | 0 <= j < |calls|
      ensures RanAt(worker, tokens, nodes + [node], calls, j)
    {
      RanStays(worker, tokens, nodes, calls, node, [], j);
    }
  }

  /** The last worker that was run has nothing to hand on. */
  predicate Stopped(nodes: seq<Node>, calls: seq<Call>, tokens: string -> nat) {
    && 0 < |calls| <= |nodes|
    && var last := nodes[|calls| - 1].result;
       || last.None? || last.value.content.None?
       || |last.value.content.value| > 12_000 || tokens(last.value.content.value) > 6_000
  }

  /** A node whose worker was not run, after `k` that were: it failed for its predecessor's content, when that
      worker completed, and was cancelled otherwise. */
  predicate UnrunAt(nodes: seq<Node>, k: nat, i: nat)
    requires 0 < k <= i < |nodes|
  {
    if i == k && nodes[k - 1].status.Completed? then
      nodes[i] == Node(i, Failed, Some(WorkerResult(Failed, None, Some("Worker 结果超出上下文限制"))),
                       Some("result_context_exceeded"))
    else nodes[i] == Node(i, Cancelled, Some(WorkerResult(Cancelled, None, Some("前序 Worker 未成功"))), None)
  }

  predicate Unrun(nodes: seq<Node>, k: nat) {
    0 < k ==> forall i: nat :: k <= i < |nodes| ==> UnrunAt(nodes, k, i)
  }

  lemma UnrunGrows(nodes: seq<Node>, k: nat, node: Node)
    requires 0 < k <= |nodes| && Unrun(nodes, k) && UnrunAt(nodes + [node], k, |nodes|)
    ensures Unrun(nodes + [node], k)
  {
    forall i: nat | k <= i < |nodes + [node]|
      ensures UnrunAt(nodes + [node], k, i)
    {
      if i < |nodes| {
        assert UnrunAt(nodes, k, i);
      }
    }
  }

  /** What the pipeline has done so far. */
  datatype Line = Line(nodes: seq<Node>, calls: seq<Call>, trace: seq<NodeEvent>)

  ghost predicate Held(n: nat, worker: (nat, Option<string>) -> Work, tokens: string -> nat, l: Line, m: nat) {
    Progress(n, worker, tokens, l.nodes, l.calls, m) && TraceOf(n, l.nodes, l.trace)
  }

  /** A node put in without running its worker. */
  method Fill(n: nat, ghost worker: (nat, Option<string>) -> Work, ghost tokens: string -> nat,
              l: Line, ghost m: nat, node: Node) returns (l': Line)
    requires Held(n, worker, tokens, l, m) && |l.nodes| < n && WorkerNode(node, |l.nodes|)
    requires node.status.Cancelled? || (m == |l.nodes| && !node.status.Completed?)
    ensures Held(n, worker, tokens, l', m)
    ensures l'.nodes == l.nodes + [node] && l'.calls == l.calls
    ensures Stopped(l.nodes, l.calls, tokens) ==> Stopped(l'.nodes, l'.calls, tokens)
  {
    var trace := RecordWork(n, l.nodes, l.trace, Work(node, false));
    FillProgress(n, worker, tokens, l.nodes, l.calls, m, node);
    l' := Line(l.nodes + [node], l.calls, trace);
  }

  /** The next worker is run. */
  method CallWorker(n: nat, worker: (nat, Option<string>) -> Work, ghost tokens: string -> nat,
                    l: Line, dependency: Option<string>) returns (l': Line, node: Node)
    requires Held(n, worker, tokens, l, |l.nodes|) && |l.calls| == |l.nodes| < n
    requires if l.nodes == [] then dependency == None
             else dependency.Some? && dependency == BuildDependency(l.nodes[|l.nodes| - 1], tokens)
    requires WorkerNode(worker(|l.nodes|, dependency).node, |l.nodes|)
    ensures Held(n, worker, tokens, l', if node.status.Completed? then |l.nodes| + 1 else |l.nodes|)
    ensures l'.nodes == l.nodes + [node] && |l'.calls| == |l'.nodes| && WorkerNode(node, |l.nodes|)
  {
    var work := worker(|l.nodes|, dependency);
    node := work.node;
    var trace := RecordWork(n, l.nodes, l.trace, work);
    CallProgress(n, worker, tokens, l.nodes, l.calls, dependency);
    l' := Line(l.nodes + [node], l.calls + [Call(|l.nodes|, dependency)], trace);
  }

  /** The state of the pipeline's loop: what it did, and whether and with what the next worker runs. */
  datatype Going = Going(line: Line, dependency: Option<string>, blocked: bool, skipNext: bool)

  ghost predicate GoesOn(n: nat, worker: (nat, Option<string>) -> Work, tokens: string -> nat,
                         index: nat, g: Going, m: nat)
  {
    && |g.line.nodes| == (if g.skipNext then index + 1 else index) <= n
    && Held(n, worker, tokens, g.line, m)
    && (g.skipNext ==> g.blocked)
    && (!g.blocked ==> m == |g.line.calls| == index)
    && (!g.blocked && index < n ==>
          if index == 0 then g.dependency == None
          else g.dependency.Some? && g.dependency == BuildDependency(g.line.nodes[index - 1], tokens))
    && (g.blocked ==> Stopped(g.line.nodes, g.line.calls, tokens))
    && (g.blocked && |g.line.nodes| == |g.line.calls| ==> !g.line.nodes[|g.line.calls| - 1].status.Completed?)
    && Unrun(g.line.nodes, |g.line.calls|)
  }

  /** What the pipeline promises when it has gone through all tasks. */
  ghost predicate PipelineDone(n: nat, worker: (nat, Option<string>) -> Work, tokens: string -> nat, l: Line) {
    && |l.nodes| == n && WorkerNodes(l.nodes)
    && (exists m :: PipelineShape(l.nodes, m))
    && CallsChained(worker, tokens, l.nodes, l.calls)
    && (n > 0 ==> |l.calls| > 0)
    && (0 < |l.calls| < n ==> Stopped(l.nodes, l.calls, tokens))
    && Unrun(l.nodes, |l.calls|)
    && ValidTrace(FreshStages(n), l.trace) && Collected(StagesAfter(FreshStages(n), l.trace), l.nodes)
  }

  lemma PipelineEnds(n: nat, worker: (nat, Option<string>) -> Work, tokens: string -> nat, g: Going, m: nat)
    requires GoesOn(n, worker, tokens, n, g, m)
    ensures PipelineDone(n, worker, tokens, g.line)
  {
    assert PipelineShape(g.line.nodes, m);
  }

  /** The turn of one task that is not skipped. */
  method RunNext(n: nat, worker: (nat, Option<string>) -> Work, tokens: string -> nat,
                 index: nat, g: Going, ghost m: nat) returns (g': Going, ghost m': nat)
    requires index < n && GoesOn(n, worker, tokens, index, g, m) && !g.skipNext
    requires WorkerNode(worker(index, g.dependency).node, index)
    ensures GoesOn(n, worker, tokens, index + 1, g', m')
  {
    m' := m;
    if g.blocked {
      var l := Fill(n, worker, tokens, g.line, m, CancelledNode(index));
      UnrunGrows(g.line.nodes, |g.line.calls|, CancelledNode(index));
      return g.(line := l), m';
    }
    var l, node := CallWorker(n, worker, tokens, g.line, g.dependency);
    m' := if node.status.Completed? then index + 1 else index;
    if !node.status.Completed? || node.result.None? || node.result.value.content.None? {
      return Going(l, g.dependency, true, false), m';
    }
    if index + 1 >= n {
      return g.(line := l), m';
    }
    var dependency := BuildDependency(node, tokens);
    if dependency.None? {
      var failed := Fill(n, worker, tokens, l, m', FailedNode(index + 1));
      UnrunGrows(l.nodes, |l.calls|, FailedNode(index + 1));
      return Going(failed, dependency, true, true), m';
    }
    g' := Going(l, dependency, false, false);
  }

  /** The pipeline, for any behaviour of the workers and any token count: one node per task in task
      order, of pipeline shape; worker j is run only after worker j-1 completed, and with exactly
      its content; the first worker that has nothing to hand on is the last one run. */
  method RunSequential(n: nat, worker: (nat, Option<string>) -> Work, tokens: string -> nat) returns (l: Line)
    requires forall i: nat, dependency :: i < n ==> WorkerNode(worker(i, dependency).node, i)
    ensures PipelineDone(n, worker, tokens, l)
  {
    var g := Going(Line([], [], []), None, false, false);
    ghost var m := 0;
    assert PipelineStages([], n) == FreshStages(n);
    for index := 0 to n
      invariant GoesOn(n, worker, tokens, index, g, m)
    {
      if g.skipNext {
        g := g.(skipNext := false);
      } else {
        g, m := RunNext(n, worker, tokens, index, g, m);
      }
    }
    PipelineEnds(n, worker, tokens, g, m);
    l := g.line;
  }
}
