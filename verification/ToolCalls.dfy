/** How the tool calls of one model reply are executed: ordinary calls in groups that are flushed before a
    delegation, parallel-safe calls of a group side by side, everything answered in the order asked. */
module ToolCalls {
  import opened Options

  datatype Call = Call(id: string, name: string, args: string)

  datatype Role = System | User | Assistant

  datatype Note = Note(role: Role, content: string)

  /** What a call came to. `attachment` are texts that the tool asks to add to the context. */
  datatype Record = Record(callId: string, content: string, attachment: Option<seq<Note>>)

  /** A call and its place in the reply. */
  datatype Job = Job(call: Call, at: nat)

  const DELEGATE: string := "delegate_multi_agent"
  const NOT_ALLOWED: string := "当前父回合不允许 delegate_multi_agent 调用。"

  /** An execution that has finished, with its record. */
  datatype Run = Run(job: Job, record: Record)

  /** What the surroundings do with the calls of one reply: which are safe to run side by side, what each
      execution gives after those that finished before it, where a delegation is visible, and where
      waiting raises an error. */
  datatype Tools = Tools(
    safe: Call -> bool, result: (Job, seq<Run>) -> Record, visible: nat -> bool, raises: nat -> bool)

  /** The execution of a call after those of the log; its record gets the id of the call. */
  function Execute(tools: Tools, job: Job, log: seq<Run>): Run {
    Run(job, tools.result(job, log).(callId := job.call.id))
  }

  /** The log of the executions in the order in which they finished. */
  ghost predicate RealLog(tools: Tools, log: seq<Run>) {
    forall p: nat :: p < |log| ==> RealAt(tools, log, p)
  }

  predicate RealAt(tools: Tools, log: seq<Run>, p: nat)
    requires p < |log|
  {
    var before := Execute(tools, log[p].job, log[..p]);
    log[p].record == before.record
  }

  ghost predicate HasRun(log: seq<Run>, from: nat, job: Job, record: Record) {
    exists p :: from <= p < |log| && log[p] == Run(job, record)
  }

  /** From `log` to `log'` exactly the jobs ran, call number `base` and following, once each, and every
      record is that of its own job. */
  ghost predicate RanAll(tools: Tools, log: seq<Run>, log': seq<Run>, base: nat, jobs: seq<Job>, records: seq<Record>) {
    && log <= log' && |log'| == |log| + |jobs| && |records| == |jobs| && RealLog(tools, log')
    && (forall i :: 0 <= i < |jobs| ==> HasRun(log', |log|, jobs[i], records[i]))
    && (forall p :: |log| <= p < |log'| ==> base <= log'[p].job.at < base + |jobs|)
    && (forall p, q :: |log| <= p < q < |log'| ==> log'[p].job.at != log'[q].job.at)
  }

  predicate Waits(tools: Tools, call: Call, at: nat) {
    call.name != DELEGATE || tools.visible(at)
  }

  /** Some call is waited for and the waiting raises. */
  ghost predicate Breaks(tools: Tools, calls: seq<Call>) {
    exists i :: 0 <= i < |calls| && Waits(tools, calls[i], i) && tools.raises(i)
  }

  /** Ordinary calls that follow the first `from`. */
  ghost predicate Collected(calls: seq<Call>, from: nat, ordinary: seq<Job>) {
    && from + |ordinary| <= |calls|
    && forall j :: 0 <= j < |ordinary| ==>
      ordinary[j] == Job(calls[from + j], from + j) && calls[from + j].name != DELEGATE
  }

  // ---- which executions may overtake each other ----

  /** All calls from lo to hi are ordinary and safe to run side by side. */
  ghost predicate Together(tools: Tools, calls: seq<Call>, lo: nat, hi: nat) {
    forall k: nat :: lo <= k <= hi ==> SafeAt(tools, calls, k)
  }

  predicate SafeAt(tools: Tools, calls: seq<Call>, k: nat) {
    k < |calls| && calls[k].name != DELEGATE && tools.safe(calls[k])
  }

  /** No call ran twice, and one finishes before an earlier one only if they ran in one safe batch. */
  ghost predicate Ordered(tools: Tools, calls: seq<Call>, log: seq<Run>) {
    forall p, q :: 0 <= p < q < |log| ==>
      && log[p].job.at != log[q].job.at
      && (log[q].job.at < log[p].job.at ==> Together(tools, calls, log[q].job.at, log[p].job.at))
  }

  ghost predicate Below(log: seq<Run>, n: nat) {
    forall p :: 0 <= p < |log| ==> log[p].job.at < n
  }

  lemma LogGrows(tools: Tools, log: seq<Run>, job: Job)
    requires RealLog(tools, log)
    ensures RealLog(tools, log + [Execute(tools, job, log)])
  {
    var log' := log + [Execute(tools, job, log)];
    forall p: nat | p < |log'|
      ensures RealAt(tools, log', p)
    {
      if p < |log| {
        assert RealAt(tools, log, p) && log'[p] == log[p] && log'[..p] == log[..p];
      } else {
        assert log'[..p] == log;
      }
    }
  }

  lemma RanBoth(tools: Tools, l0: seq<Run>, l1: seq<Run>, l2: seq<Run>, base: nat, a: seq<Job>, ra: seq<Record>,
                b: seq<Job>, rb: seq<Record>)
    requires RanAll(tools, l0, l1, base, a, ra) && RanAll(tools, l1, l2, base + |a|, b, rb)
    ensures RanAll(tools, l0, l2, base, a + b, ra + rb)
  {
    forall i | 0 <= i < |a + b|
      ensures HasRun(l2, |l0|, (a + b)[i], (ra + rb)[i])
    {
      if i < |a| {
        assert HasRun(l1, |l0|, a[i], ra[i]);
        var p :| |l0| <= p < |l1| && l1[p] == Run(a[i], ra[i]);
        assert l2[p] == l1[p];
      } else {
        assert HasRun(l2, |l1|, b[i - |a|], rb[i - |a|]);
        var p :| |l1| <= p < |l2| && l2[p] == Run(b[i - |a|], rb[i - |a|]);
      }
    }
    forall p | |l0| <= p < |l2|
      ensures base <= l2[p].job.at < base + |a + b|
      ensures p < |l1| ==> l2[p].job.at < base + |a|
    {
      if p < |l1| {
        assert l2[p] == l1[p];
      }
    }
    forall p, q | |l0| <= p < q < |l2|
      ensures l2[p].job.at != l2[q].job.at
    {
      if q < |l1| {
        assert l2[p] == l1[p] && l2[q] == l1[q];
      }
    }
  }

  lemma StillOrdered(tools: Tools, calls: seq<Call>, log: seq<Run>, log': seq<Run>, base: nat, jobs: seq<Job>,
                     records: seq<Record>)
    requires RanAll(tools, log, log', base, jobs, records) && Below(log, base) && Ordered(tools, calls, log)
    requires |jobs| <= 1 || Together(tools, calls, base, base + |jobs| - 1)
    ensures Ordered(tools, calls, log') && Below(log', base + |jobs|)
  {
    forall p | 0 <= p < |log|
      ensures log'[p] == log[p]
    {
    }
    forall p, q | 0 <= p < q < |log'|
      ensures log'[p].job.at != log'[q].job.at
      ensures log'[q].job.at < log'[p].job.at ==> Together(tools, calls, log'[q].job.at, log'[p].job.at)
    {
      if p >= |log| {
        TogetherInside(tools, calls, base, base + |jobs| - 1, log'[q].job.at, log'[p].job.at);
      }
    }
  }

  lemma TogetherInside(tools: Tools, calls: seq<Call>, lo: nat, hi: nat, a: nat, b: nat)
    requires Together(tools, calls, lo, hi) && lo <= a && b <= hi
    ensures Together(tools, calls, a, b)
  {
  }

  // ---- executing ----

  method ExecuteOne(tools: Tools, log: seq<Run>, job: Job) returns (record: Record, log': seq<Run>)
    requires RealLog(tools, log)
    ensures RanAll(tools, log, log', job.at, [job], [record])
  {
    var run := Execute(tools, job, log);
    LogGrows(tools, log, job);
    record, log' := run.record, log + [run];
    assert log'[|log|] == Run(job, record);
  }

  /** Runs the batch side by side: the calls finish in any order, the records are in the order asked. */
  method ExecuteParallelBatch(tools: Tools, log: seq<Run>, batch: seq<Job>, ghost base: nat)
    returns (records: seq<Record>, log': seq<Run>)
    requires RealLog(tools, log) && forall i :: 0 <= i < |batch| ==> batch[i].at == base + i
    ensures RanAll(tools, log, log', base, batch, records)
  {
    if |batch| == 0 {
      return [], log;
    }
    if |batch| == 1 {
      var record;
      record, log' := ExecuteOne(tools, log, batch[0]);
      assert batch == [batch[0]];
      return [record], log';
    }
    var finished;
    finished, log' := RunAllOf(tools, log, batch, base);
    records := seq(|batch|, i requires 0 <= i < |batch| => finished[i]);
    BatchRan(tools, log, log', batch, base, finished, records);
  }

  lemma BatchRan(tools: Tools, log: seq<Run>, log': seq<Run>, batch: seq<Job>, base: nat, finished: map<int, Record>,
                 records: seq<Record>)
    requires log <= log' && |log'| == |log| + |batch| && RealLog(tools, log')
    requires FinishedHas(log, log', batch, finished) && FinishedOnce(log, log', base, finished)
    requires |records| == |batch| && forall i :: 0 <= i < |batch| ==> i in finished && records[i] == finished[i]
    ensures RanAll(tools, log, log', base, batch, records)
  {
    forall i | 0 <= i < |batch|
      ensures HasRun(log', |log|, batch[i], records[i])
    {
      assert i in finished;
    }
    forall p: nat | |log| <= p < |log'|
      ensures base <= log'[p].job.at < base + |batch|
    {
      assert KnownAt(log', p, base, finished);
    }
  }

  /** The finished part of a batch: a record for each, and its own run in the log, once. */
  ghost predicate FinishedHas(log: seq<Run>, log': seq<Run>, batch: seq<Job>, finished: map<int, Record>) {
    forall i :: i in finished ==> 0 <= i < |batch| && HasRun(log', |log|, batch[i], finished[i])
  }

  ghost predicate FinishedOnce(log: seq<Run>, log': seq<Run>, base: nat, finished: map<int, Record>) {
    && (forall p: nat :: |log| <= p < |log'| ==> KnownAt(log', p, base, finished))
    && (forall p, q :: |log| <= p < q < |log'| ==> log'[p].job.at != log'[q].job.at)
  }

  predicate KnownAt(log: seq<Run>, p: nat, base: nat, finished: map<int, Record>)
    requires p < |log|
  {
    log[p].job.at - base in finished
  }

  lemma HasRunStays(log: seq<Run>, from: nat, job: Job, record: Record, run: Run)
    requires HasRun(log, from, job, record)
    ensures HasRun(log + [run], from, job, record)
  {
    var p :| from <= p < |log| && log[p] == Run(job, record);
    assert (log + [run])[p] == log[p];
  }

  lemma MoreFinishedHas(log: seq<Run>, log': seq<Run>, batch: seq<Job>, finished: map<int, Record>, i: nat, run: Run)
    requires FinishedHas(log, log', batch, finished) && |log| <= |log'| && i < |batch| && run.job == batch[i]
    ensures FinishedHas(log, log' + [run], batch, finished[i := run.record])
  {
    forall j | j in finished[i := run.record]
      ensures 0 <= j < |batch| && HasRun(log' + [run], |log|, batch[j], finished[i := run.record][j])
    {
      if j == i {
        assert (log' + [run])[|log'|] == Run(batch[i], run.record);
      } else {
        HasRunStays(log', |log|, batch[j], finished[j], run);
      }
    }
  }

  lemma MoreFinishedOnce(log: seq<Run>, log': seq<Run>, base: nat, finished: map<int, Record>, i: nat, run: Run)
    requires FinishedOnce(log, log', base, finished) && |log| <= |log'| && i !in finished && run.job.at == base + i
    ensures FinishedOnce(log, log' + [run], base, finished[i := run.record])
  {
    var log'' := log' + [run];
    forall p: nat | |log| <= p < |log''|
      ensures KnownAt(log'', p, base, finished[i := run.record])
      ensures p < |log'| ==> log''[p].job.at != base + i
    {
      if p < |log'| {
        assert log''[p] == log'[p] && KnownAt(log', p, base, finished);
      }
    }
    forall p, q | |log| <= p < q < |log''|
      ensures log''[p].job.at != log''[q].job.at
    {
      assert log''[p] == log'[p] && (q < |log'| ==> log''[q] == log'[q]);
    }
  }

  /** What is still to finish. */
  ghost predicate Pending(pending: seq<int>, finished: map<int, Record>, n: nat) {
    && (forall i :: 0 <= i < n ==> i in pending || i in finished)
    && (forall i :: i in pending ==> 0 <= i < n && i !in finished)
    && (forall j, k :: 0 <= j < k < |pending| ==> pending[j] != pending[k])
  }

  lemma OneLessPending(pending: seq<int>, finished: map<int, Record>, n: nat, k: nat, record: Record)
    requires Pending(pending, finished, n) && k < |pending|
    ensures 0 <= pending[k] < n && pending[k] !in finished
    ensures Pending(pending[..k] + pending[k + 1..], finished[pending[k] := record], n)
  {
    PickedOut(pending, k);
  }

  lemma AllPending(n: nat)
    ensures Pending(seq(n, i => i), map[], n)
  {
    var pending := seq(n, i => i);
    forall i | 0 <= i < n
      ensures i in pending
    {
      assert pending[i] == i;
    }
  }

  /** One call of a batch finishes, whichever. */
  method FinishOne(tools: Tools, ghost log: seq<Run>, now: seq<Run>, batch: seq<Job>, ghost base: nat, i: nat,
                   finished: map<int, Record>)
    returns (finished': map<int, Record>, log': seq<Run>)
    requires |log| <= |now| && RealLog(tools, now) && i < |batch| && batch[i].at == base + i && i !in finished
    requires FinishedHas(log, now, batch, finished) && FinishedOnce(log, now, base, finished)
    ensures now <= log' && |log'| == |now| + 1 && RealLog(tools, log')
    ensures finished'.Keys == finished.Keys + {i} && finished' == finished[i := finished'[i]]
    ensures FinishedHas(log, log', batch, finished') && FinishedOnce(log, log', base, finished')
  {
    var run := Execute(tools, batch[i], now);
    LogGrows(tools, now, batch[i]);
    MoreFinishedHas(log, now, batch, finished, i, run);
    MoreFinishedOnce(log, now, base, finished, i, run);
    finished', log' := finished[i := run.record], now + [run];
  }

  method RunAllOf(tools: Tools, log: seq<Run>, batch: seq<Job>, ghost base: nat)
    returns (finished: map<int, Record>, log': seq<Run>)
    requires RealLog(tools, log) && forall i :: 0 <= i < |batch| ==> batch[i].at == base + i
    ensures log <= log' && |log'| == |log| + |batch| && RealLog(tools, log')
    ensures FinishedHas(log, log', batch, finished) && FinishedOnce(log, log', base, finished)
    ensures forall i :: 0 <= i < |batch| ==> i in finished
  {
    finished, log' := map[], log;
    var pending := seq(|batch|, i => i);
    AllPending(|batch|);
    while pending != []
      invariant Pending(pending, finished, |batch|)
      invariant log <= log' && |log'| == |log| + |batch| - |pending| && RealLog(tools, log')
      invariant FinishedHas(log, log', batch, finished) && FinishedOnce(log, log', base, finished)
      decreases |pending|
    {
      var k :| 0 <= k < |pending|;
      var i := pending[k];
      ghost var was := finished;
      assert i in pending;
      finished, log' := FinishOne(tools, log, log', batch, base, i, finished);
      OneLessPending(pending, was, |batch|, k, finished[i]);
      pending := pending[..k] + pending[k + 1..];
    }
  }

  lemma PickedOut(pending: seq<int>, k: nat)
    requires k < |pending| && forall j, l :: 0 <= j < l < |pending| ==> pending[j] != pending[l]
    ensures var others := pending[..k] + pending[k + 1..];
      && pending[k] in pending && pending[k] !in others
      && (forall j :: j in pending <==> j == pending[k] || j in others)
      && forall j, l :: 0 <= j < l < |others| ==> others[j] != others[l]
  {
    var others := pending[..k] + pending[k + 1..];
    assert pending == pending[..k] + [pending[k]] + pending[k + 1..];
    forall j | 0 <= j < |others|
      ensures others[j] == pending[if j < k then j else j + 1]
    {
    }
  }

  /** Executes ordinary calls, call number `base` and following: safe neighbours side by side. */
  method ExecuteCalls(tools: Tools, log: seq<Run>, jobs: seq<Job>, ghost calls: seq<Call>, ghost base: nat)
    returns (records: seq<Record>, log': seq<Run>)
    requires RealLog(tools, log) && Collected(calls, base, jobs) && Below(log, base) && Ordered(tools, calls, log)
    ensures RanAll(tools, log, log', base, jobs, records)
    ensures Below(log', base + |jobs|) && Ordered(tools, calls, log')
  {
    records, log' := [], log;
    var batch: seq<Job> := [];
    for i := 0 to |jobs|
      invariant |batch| <= i && batch == jobs[i - |batch|..i]
      invariant forall j :: 0 <= j < |batch| ==> tools.safe(batch[j].call)
      invariant RanAll(tools, log, log', base, jobs[..i - |batch|], records)
      invariant Below(log', base + i - |batch|) && Ordered(tools, calls, log')
    {
      var job := jobs[i];
      if tools.safe(job.call) {
        batch := batch + [job];
        continue;
      }
      records, log' := FlushBatch(tools, log, log', jobs, batch, records, i, calls, base);
      batch := [];
      var record, log'' := ExecuteOne(tools, log', job);
      StillOrdered(tools, calls, log', log'', base + i, [job], [record]);
      RanBoth(tools, log, log', log'', base, jobs[..i], records, [job], [record]);
      assert jobs[..i + 1] == jobs[..i] + [job];
      records, log' := records + [record], log'';
    }
    records, log' := FlushBatch(tools, log, log', jobs, batch, records, |jobs|, calls, base);
    assert jobs[..|jobs|] == jobs;
  }

  /** Runs the safe batch that ends before job i. */
  method FlushBatch(tools: Tools, ghost log: seq<Run>, now: seq<Run>, ghost jobs: seq<Job>, batch: seq<Job>,
                    before: seq<Record>, ghost i: nat, ghost calls: seq<Call>, ghost base: nat)
    returns (records: seq<Record>, log': seq<Run>)
    requires Collected(calls, base, jobs) && |batch| <= i <= |jobs| && batch == jobs[i - |batch|..i]
    requires forall j :: 0 <= j < |batch| ==> tools.safe(batch[j].call)
    requires RanAll(tools, log, now, base, jobs[..i - |batch|], before)
    requires Below(now, base + i - |batch|) && Ordered(tools, calls, now)
    ensures RanAll(tools, log, log', base, jobs[..i], records)
    ensures Below(log', base + i) && Ordered(tools, calls, log')
  {
    ghost var first := i - |batch|;
    forall k: nat | base + first <= k < base + i
      ensures SafeAt(tools, calls, k)
    {
      assert batch[k - base - first] == jobs[k - base];
    }
    var parallel;
    parallel, log' := ExecuteParallelBatch(tools, now, batch, base + first);
    StillOrdered(tools, calls, now, log', base + first, batch, parallel);
    RanBoth(tools, log, now, log', base, jobs[..first], before, batch, parallel);
    assert jobs[..i] == jobs[..first] + batch;
    records := before + parallel;
  }

  // ---- the calls of one reply ----

  ghost predicate NeverRan(log: seq<Run>, j: nat) {
    forall p :: 0 <= p < |log| ==> log[p].job.at != j
  }

  /** The record that belongs to call j, given the executions. */
  ghost predicate Answers(tools: Tools, calls: seq<Call>, log: seq<Run>, j: nat, record: Record)
    requires j < |calls|
  {
    var job := Job(calls[j], j);
    if calls[j].name != DELEGATE then HasRun(log, 0, job, record)
    else if !tools.visible(j) then record == Record(calls[j].id, NOT_ALLOWED, None) && NeverRan(log, j)
    else exists own :: HasRun(log, 0, job, own) && record == own.(attachment := None)
  }

  /** The first calls have their records, none of which was interrupted; `persist` tells which of them are
      kept as tool calls of the turn. */
  ghost predicate Answered(tools: Tools, calls: seq<Call>, log: seq<Run>, results: seq<Record>, persist: seq<bool>) {
    && |results| == |persist| <= |calls|
    && RealLog(tools, log) && Below(log, |results|) && Ordered(tools, calls, log)
    && forall j: nat :: j < |results| ==>
      && Answers(tools, calls, log, j, results[j])
      && (persist[j] <==> calls[j].name != DELEGATE)
      && !(Waits(tools, calls[j], j) && tools.raises(j))
  }

  lemma StillAnswers(tools: Tools, calls: seq<Call>, log: seq<Run>, log': seq<Run>, j: nat, record: Record)
    requires j < |calls| && Answers(tools, calls, log, j, record) && log <= log'
    requires forall p :: |log| <= p < |log'| ==> log'[p].job.at > j
    ensures Answers(tools, calls, log', j, record)
  {
    assert forall p :: 0 <= p < |log| ==> log'[p] == log[p];
    forall own: Record | HasRun(log, 0, Job(calls[j], j), own)
      ensures HasRun(log', 0, Job(calls[j], j), own)
    {
      var p :| 0 <= p < |log| && log[p] == Run(Job(calls[j], j), own);
      assert log'[p] == log[p];
    }
  }

  lemma AnswerNext(tools: Tools, calls: seq<Call>, log: seq<Run>, log': seq<Run>, results: seq<Record>,
                   persist: seq<bool>, x: Record, p: bool)
    requires Answered(tools, calls, log, results, persist) && |results| < |calls|
    requires log <= log' && RealLog(tools, log') && Below(log', |results| + 1) && Ordered(tools, calls, log')
    requires forall p :: |log| <= p < |log'| ==> log'[p].job.at >= |results|
    requires var j := |results|;
      && Answers(tools, calls, log', j, x) && (p <==> calls[j].name != DELEGATE)
      && !(Waits(tools, calls[j], j) && tools.raises(j))
    ensures Answered(tools, calls, log', results + [x], persist + [p])
  {
    forall j: nat | j < |results|
      ensures Answers(tools, calls, log', j, results[j])
    {
      StillAnswers(tools, calls, log, log', j, results[j]);
    }
  }

  /** One record for every call, in the order of the calls, each from its own execution; None when waiting
      for one of them raised. */
  method ExecuteParentCalls(tools: Tools, calls: seq<Call>)
    returns (r: Option<seq<Record>>, persist: seq<bool>, log: seq<Run>)
    ensures r.None? <==> Breaks(tools, calls)
    ensures r.Some? ==> |r.value| == |calls| && Answered(tools, calls, log, r.value, persist)
  {
    var results: seq<Record> := [];
    persist, log := [], [];
    var ordinary: seq<Job> := [];
    for i := 0 to |calls|
      invariant |results| + |ordinary| == i
      invariant Answered(tools, calls, log, results, persist) && Collected(calls, |results|, ordinary)
    {
      var call := calls[i];
      if call.name != DELEGATE {
        ordinary := ordinary + [Job(call, i)];
        continue;
      }
      var ok;
      ok, results, persist, log := Flush(tools, calls, results, persist, log, ordinary);
      if !ok {
        return None, persist, log;
      }
      ordinary := [];
      if !tools.visible(i) {
        var refused := Record(call.id, NOT_ALLOWED, None);
        AnswerNext(tools, calls, log, log, results, persist, refused, false);
        results, persist := results + [refused], persist + [false];
        continue;
      }
      if tools.raises(i) {
        assert Waits(tools, calls[i], i);
        return None, persist, log;
      }
      results, persist, log := Delegate(tools, calls, results, persist, log, i);
    }
    var ok;
    ok, results, persist, log := Flush(tools, calls, results, persist, log, ordinary);
    r := if ok then Some(results) else None;
  }

  method Delegate(tools: Tools, calls: seq<Call>, results: seq<Record>, persist: seq<bool>, log: seq<Run>, i: nat)
    returns (results': seq<Record>, persist': seq<bool>, log': seq<Run>)
    requires i == |results| < |calls| && Answered(tools, calls, log, results, persist)
    requires calls[i].name == DELEGATE && tools.visible(i) && !tools.raises(i)
    ensures Answered(tools, calls, log', results', persist') && |results'| == i + 1
  {
    var own;
    own, log' := ExecuteOne(tools, log, Job(calls[i], i));
    StillOrdered(tools, calls, log, log', i, [Job(calls[i], i)], [own]);
    assert HasRun(log', |log|, [Job(calls[i], i)][0], [own][0]);
    assert HasRun(log', 0, Job(calls[i], i), own);
    AnswerNext(tools, calls, log, log', results, persist, own.(attachment := None), false);
    results', persist' := results + [own.(attachment := None)], persist + [false];
  }

  /** Executes the collected ordinary calls; false when waiting for one of them raised. */
  method Flush(tools: Tools, ghost calls: seq<Call>, results: seq<Record>, persist: seq<bool>, log: seq<Run>,
               ordinary: seq<Job>)
    returns (ok: bool, results': seq<Record>, persist': seq<bool>, log': seq<Run>)
    requires Answered(tools, calls, log, results, persist) && Collected(calls, |results|, ordinary)
    ensures ok ==> Answered(tools, calls, log', results', persist') && |results'| == |results| + |ordinary|
    ensures !ok ==> Breaks(tools, calls)
  {
    if |ordinary| == 0 {
      return true, results, persist, log;
    }
    var raised := AnyRaises(tools, calls, |results|, ordinary);
    if raised {
      return false, results, persist, log;
    }
    var records;
    records, log' := ExecuteCalls(tools, log, ordinary, calls, |results|);
    results' := results + records;
    persist' := persist + seq(|ordinary|, _ => true);
    ok := true;
    AnswerAll(tools, calls, log, log', results, persist, ordinary, records);
  }

  method AnyRaises(tools: Tools, ghost calls: seq<Call>, ghost from: nat, ordinary: seq<Job>) returns (raised: bool)
    requires Collected(calls, from, ordinary)
    ensures raised ==> Breaks(tools, calls)
    ensures !raised ==> forall j :: from <= j < from + |ordinary| ==> !tools.raises(j)
  {
    raised := false;
    for k := 0 to |ordinary|
      invariant raised ==> Breaks(tools, calls)
      invariant !raised ==> forall j :: from <= j < from + k ==> !tools.raises(j)
    {
      if tools.raises(ordinary[k].at) {
        assert Waits(tools, calls[from + k], from + k) && tools.raises(from + k);
        raised := true;
      }
    }
  }

  lemma AnswerAll(tools: Tools, calls: seq<Call>, log: seq<Run>, log': seq<Run>, results: seq<Record>,
                  persist: seq<bool>, ordinary: seq<Job>, records: seq<Record>)
    requires Answered(tools, calls, log, results, persist) && Collected(calls, |results|, ordinary)
    requires RanAll(tools, log, log', |results|, ordinary, records)
    requires Below(log', |results| + |ordinary|) && Ordered(tools, calls, log')
    requires forall j :: |results| <= j < |results| + |ordinary| ==> !tools.raises(j)
    ensures Answered(tools, calls, log', results + records, persist + seq(|ordinary|, _ => true))
  {
    forall j: nat | j < |results| + |ordinary|
      ensures Answers(tools, calls, log', j, (results + records)[j])
    {
      if j < |results| {
        StillAnswers(tools, calls, log, log', j, results[j]);
      } else {
        var k := j - |results|;
        assert HasRun(log', |log|, ordinary[k], records[k]);
        assert HasRun(log', 0, Job(calls[j], j), records[k]);
      }
    }
  }

  /** Whose outcome a record is, for every finishing order: an ordinary call's record is what its own execution
      gave after those that had finished, under the call's id; a delegation's is the same without attachments, and
      one that may not be made is answered without being executed. */
  lemma OwnOutcome(tools: Tools, calls: seq<Call>, log: seq<Run>, results: seq<Record>, persist: seq<bool>, j: nat)
    requires Answered(tools, calls, log, results, persist) && j < |results|
    ensures results[j].callId == calls[j].id && (persist[j] <==> calls[j].name != DELEGATE)
    ensures (exists p :: 0 <= p < |log| && log[p].job.at == j)
      <==> (calls[j].name == DELEGATE ==> tools.visible(j))
    ensures forall p :: 0 <= p < |log| && log[p].job.at == j ==>
      var own := tools.result(Job(calls[j], j), log[..p]);
      && results[j].content == own.content
      && results[j].attachment == if calls[j].name == DELEGATE then None else own.attachment
    ensures calls[j].name == DELEGATE && !tools.visible(j) ==>
      results[j] == Record(calls[j].id, "当前父回合不允许 delegate_multi_agent 调用。", None)
  {
    if calls[j].name != DELEGATE || tools.visible(j) {
      var own: Record :| HasRun(log, 0, Job(calls[j], j), own)
        && results[j] == if calls[j].name == DELEGATE then own.(attachment := None) else own;
      var q :| 0 <= q < |log| && log[q] == Run(Job(calls[j], j), own);
      assert RealAt(tools, log, q);
    }
  }
}
