/** The rounds of model calls and tool calls, and the transcript that they build. */
module Transcript {
  import opened Options
  import opened ToolCalls
  import Texts

  /** `Asks` is an assistant message with tool calls, `Reply` the tool message that answers one of them. */
  datatype Msg = Text(role: Role, content: string) | Asks(content: string, calls: seq<Call>)
               | Reply(callId: string, name: string, content: string)

  datatype Gate = Open | DeadlineExpired | ContextFull

  datatype Model = Says(content: string, calls: seq<Call>) | TimesOut | Fails

  const GUIDANCE: string := "【用户正在引导当前任务】\n" +
    "用户在任务执行中补充了以下方向。请在系统约束和安全审批不变的前提下调整后续计划；" +
    "不要重复已经完成的操作。\n\n"
  const REFUSED: string := "本轮上下文附件被拒绝："

  /** What the surroundings do in one round. `guidance` is what the user sent meanwhile, `accepts` says
      which attachments of the calls are admitted and `attachmentError` why one is not. */
  datatype Round = Round(
    stopBefore: bool, guidanceBefore: seq<string>, gateBefore: Gate, model: Model, stopAfterReply: bool,
    tools: Tools, toolsTimeOut: bool, accepts: nat -> bool, attachmentError: nat -> string,
    stopAfter: bool, guidanceAfter: seq<string>, gateAfter: Gate)

  datatype End = Completed | Cancelled | TimedOut | Failed | Raised

  // ---- what a good transcript is ----

  ghost predicate AnswersAt(t: seq<Msg>, i: int) {
    && 0 <= i < |t| && t[i].Asks? && i + |t[i].calls| < |t|
    && forall k :: 0 <= k < |t[i].calls| ==> Replies(t[i + 1 + k], t[i].calls[k])
  }

  predicate Replies(m: Msg, call: Call) {
    m.Reply? && m.callId == call.id && m.name == call.name
  }

  /** From `base` on, every asking message is followed at once by its answers, one for one and in order,
      and there are no other tool messages. */
  ghost predicate Complete(t: seq<Msg>, base: nat) {
    && (forall i :: base <= i < |t| && t[i].Asks? ==> AnswersAt(t, i))
    && (forall j :: base <= j < |t| && t[j].Reply? ==> Belongs(t, base, j))
  }

  /** Message j answers an earlier asking message. */
  ghost predicate Belongs(t: seq<Msg>, base: nat, j: int) {
    exists i :: base <= i < j < |t| && t[i].Asks? && j <= i + |t[i].calls|
  }

  /** As above, except that the transcript may end with an asking message. */
  ghost predicate WellFormed(t: seq<Msg>, base: nat) {
    Complete(t, base) || (|t| > base && t[|t| - 1].Asks? && Complete(t[..|t| - 1], base))
  }

  lemma StillAnswers(t: seq<Msg>, more: seq<Msg>, i: int)
    requires AnswersAt(t, i)
    ensures AnswersAt(t + more, i)
  {
    var all := t + more;
    forall k | 0 <= k < |all[i].calls|
      ensures Replies(all[i + 1 + k], all[i].calls[k])
    {
      assert all[i + 1 + k] == t[i + 1 + k];
    }
  }

  /** Appending messages, where the new asking messages are answered and the new replies answer. */
  lemma CompleteGrows(t: seq<Msg>, more: seq<Msg>, base: nat)
    requires Complete(t, base)
    requires forall i :: |t| <= i < |t + more| && (t + more)[i].Asks? ==> AnswersAt(t + more, i)
    requires forall j :: |t| <= j < |t + more| && (t + more)[j].Reply? ==> Belongs(t + more, base, j)
    ensures Complete(t + more, base)
  {
    var all := t + more;
    forall i | base <= i < |all| && all[i].Asks?
      ensures AnswersAt(all, i)
    {
      if i < |t| {
        StillAnswers(t, more, i);
      }
    }
    forall j | base <= j < |all| && all[j].Reply?
      ensures Belongs(all, base, j)
    {
      if j < |t| {
        assert Belongs(t, base, j);
        var i :| base <= i < j && t[i].Asks? && j <= i + |t[i].calls|;
        assert all[i] == t[i];
      }
    }
  }

  lemma AddTexts(t: seq<Msg>, more: seq<Msg>, base: nat)
    requires Complete(t, base) && forall k :: 0 <= k < |more| ==> more[k].Text?
    ensures Complete(t + more, base)
  {
    CompleteGrows(t, more, base);
  }

  /** An asking message with its answers. */
  ghost predicate Exchange(more: seq<Msg>) {
    && more != [] && more[0].Asks? && |more| == 1 + |more[0].calls|
    && forall k :: 1 <= k < |more| ==> Replies(more[k], more[0].calls[k - 1])
  }

  lemma ExchangeAnswers(t: seq<Msg>, more: seq<Msg>)
    requires Exchange(more)
    ensures AnswersAt(t + more, |t|)
    ensures forall i :: |t| < i < |t + more| ==> (t + more)[i].Reply?
  {
    var all := t + more;
    assert all[|t|] == more[0];
    forall i | |t| < i < |all|
      ensures all[i].Reply? && Replies(all[i], more[0].calls[i - |t| - 1])
    {
      assert all[i] == more[i - |t|];
    }
    forall k | 0 <= k < |more[0].calls|
      ensures Replies(all[|t| + 1 + k], more[0].calls[k])
    {
      assert Replies(all[|t| + 1 + k], more[0].calls[|t| + 1 + k - |t| - 1]);
    }
  }

  lemma AddRound(t: seq<Msg>, more: seq<Msg>, base: nat)
    requires Complete(t, base) && base <= |t| && Exchange(more)
    ensures Complete(t + more, base)
  {
    ExchangeAnswers(t, more);
    assert (t + more)[|t|] == more[0];
    CompleteGrows(t, more, base);
  }

  // ---- the answers of one round ----

  predicate Accepted(record: Record, round: Round, i: nat) {
    record.attachment.None? || round.accepts(i)
  }

  /** The message that answers call i: the record's content, or why its attachment was refused. */
  function AnswerTo(call: Call, record: Record, round: Round, i: nat): Msg {
    Reply(call.id, call.name, if Accepted(record, round, i) then record.content else REFUSED + round.attachmentError(i))
  }

  function NoteTexts(notes: seq<Note>): seq<Msg> {
    seq(|notes|, i requires 0 <= i < |notes| => Text(notes[i].role, notes[i].content))
  }

  function Extra(record: Record, round: Round, i: nat): seq<Msg> {
    if record.attachment.Some? && round.accepts(i) then NoteTexts(record.attachment.value) else []
  }

  /** The accepted attachments of the first n records, in order. */
  function Attached(records: seq<Record>, round: Round, n: nat): seq<Msg>
    requires n <= |records|
  {
    if n == 0 then [] else Attached(records, round, n - 1) + Extra(records[n - 1], round, n - 1)
  }

  lemma {:induction false} AttachedAreTexts(records: seq<Record>, round: Round, n: nat)
    requires n <= |records|
    ensures forall k :: 0 <= k < |Attached(records, round, n)| ==> Attached(records, round, n)[k].Text?
  {
    if n > 0 {
      AttachedAreTexts(records, round, n - 1);
    }
  }

  /** How many messages the accepted attachments of the first n records have. */
  function Offset(records: seq<Record>, round: Round, n: nat): nat
    requires n <= |records|
  {
    if n == 0 then 0
    else
      Offset(records, round, n - 1)
        + if records[n - 1].attachment.Some? && round.accepts(n - 1) then |records[n - 1].attachment.value| else 0
  }

  lemma {:induction false} AttachedLength(records: seq<Record>, round: Round, n: nat)
    requires n <= |records|
    ensures |Attached(records, round, n)| == Offset(records, round, n)
  {
    if n > 0 {
      AttachedLength(records, round, n - 1);
    }
  }

  predicate StandsAt(records: seq<Record>, round: Round, n: nat, i: nat, k: nat)
    requires i < n <= |records| && records[i].attachment.Some? && k < |records[i].attachment.value|
  {
    var all, at, note := Attached(records, round, n), Offset(records, round, i) + k, records[i].attachment.value[k];
    at < |all| && all[at] == Text(note.role, note.content)
  }

  lemma LastStandsAt(records: seq<Record>, round: Round, i: nat, k: nat)
    requires i < |records| && records[i].attachment.Some? && round.accepts(i)
    requires k < |records[i].attachment.value|
    ensures StandsAt(records, round, i + 1, i, k)
  {
    AttachedLength(records, round, i);
    var before, more := Attached(records, round, i), NoteTexts(records[i].attachment.value);
    assert Attached(records, round, i + 1) == before + more;
    assert (before + more)[|before| + k] == more[k];
  }

  /** Where the k-th text of the i-th attachment stands, when it is accepted; there are no others. */
  lemma {:induction false} AttachedInOrder(records: seq<Record>, round: Round, n: nat, i: nat, k: nat)
    requires i < n <= |records| && records[i].attachment.Some? && round.accepts(i)
    requires k < |records[i].attachment.value|
    ensures StandsAt(records, round, n, i, k) && |Attached(records, round, n)| == Offset(records, round, n)
  {
    AttachedLength(records, round, n);
    if i == n - 1 {
      LastStandsAt(records, round, i, k);
    } else {
      AttachedInOrder(records, round, n - 1, i, k);
      assert Attached(records, round, n - 1) <= Attached(records, round, n);
    }
  }

  function FirstAnswers(calls: seq<Call>, records: seq<Record>): seq<Msg>
    requires |records| == |calls|
  {
    seq(|calls|, i requires 0 <= i < |calls| => Reply(calls[i].id, calls[i].name, records[i].content))
  }

  function FinalAnswers(calls: seq<Call>, records: seq<Record>, round: Round): seq<Msg>
    requires |records| == |calls|
  {
    seq(|calls|, i requires 0 <= i < |calls| => AnswerTo(calls[i], records[i], round, i))
  }

  /** Appends the answers, one for one, and then the accepted attachments; a refused one changes its answer
      in place. */
  method AnswerCalls(working: seq<Msg>, calls: seq<Call>, records: seq<Record>, round: Round)
    returns (r: seq<Msg>)
    requires |records| == |calls|
    ensures r == working + FinalAnswers(calls, records, round) + Attached(records, round, |records|)
  {
    var messages: seq<Msg> := [];
    for i := 0 to |calls|
      invariant messages == FirstAnswers(calls, records)[..i]
    {
      messages := messages + [Reply(calls[i].id, calls[i].name, records[i].content)];
    }
    r := AttachAll(working, messages, calls, records, round);
  }

  /** What the i-th record adds: nothing, its attachment, or its refusal in place of its answer. */
  method AttachOne(
    ghost working: seq<Msg>, ghost answers: seq<Msg>, ghost attached: seq<Msg>, r: seq<Msg>, start: nat, i: nat,
    call: Call, record: Record, round: Round)
    returns (r': seq<Msg>)
    requires r == working + answers + attached && start == |working| && i < |answers|
    requires answers[i] == Reply(call.id, call.name, record.content)
    ensures r' == working + answers[i := AnswerTo(call, record, round, i)] + (attached + Extra(record, round, i))
  {
    if record.attachment.Some? && !round.accepts(i) {
      r' := r[start + i := Reply(call.id, call.name, REFUSED + round.attachmentError(i))];
    } else if record.attachment.Some? {
      r' := r + NoteTexts(record.attachment.value);
    } else {
      r' := r;
    }
  }

  /** The answers after the first `n` records. */
  function AnswersSoFar(calls: seq<Call>, records: seq<Record>, round: Round, n: nat): seq<Msg>
    requires n <= |records| == |calls|
  {
    seq(|calls|, i requires 0 <= i < |calls| =>
      if i < n then AnswerTo(calls[i], records[i], round, i)
      else Reply(calls[i].id, calls[i].name, records[i].content))
  }

  lemma NextAnswer(calls: seq<Call>, records: seq<Record>, round: Round, i: nat)
    requires i < |records| == |calls|
    ensures AnswersSoFar(calls, records, round, i)[i] == Reply(calls[i].id, calls[i].name, records[i].content)
    ensures AnswersSoFar(calls, records, round, i)[i := AnswerTo(calls[i], records[i], round, i)]
         == AnswersSoFar(calls, records, round, i + 1)
    ensures Attached(records, round, i) + Extra(records[i], round, i) == Attached(records, round, i + 1)
  {
  }

  lemma FirstAndLastAnswers(calls: seq<Call>, records: seq<Record>, round: Round)
    requires |records| == |calls|
    ensures AnswersSoFar(calls, records, round, 0) == FirstAnswers(calls, records)
    ensures AnswersSoFar(calls, records, round, |calls|) == FinalAnswers(calls, records, round)
  {
  }

  lemma NothingAttached(working: seq<Msg>, messages: seq<Msg>, records: seq<Record>, round: Round)
    ensures working + messages == working + messages + Attached(records, round, 0)
  {
  }

  method AttachAll(
    working: seq<Msg>, messages: seq<Msg>, calls: seq<Call>, records: seq<Record>, round: Round)
    returns (r: seq<Msg>)
    requires |records| == |calls| && messages == FirstAnswers(calls, records)
    ensures r == working + FinalAnswers(calls, records, round) + Attached(records, round, |records|)
  {
    r := working + messages;
    var start := |r| - |messages|;
    FirstAndLastAnswers(calls, records, round);
    NothingAttached(working, messages, records, round);
    for i := 0 to |calls|
      invariant r == working + AnswersSoFar(calls, records, round, i) + Attached(records, round, i)
    {
      NextAnswer(calls, records, round, i);
      r := AttachOne(working, AnswersSoFar(calls, records, round, i), Attached(records, round, i), r, start, i,
                     calls[i], records[i], round);
    }
  }

  /** The message for one text of the user, none for a blank one. */
  function GuidanceFor(text: string): seq<Msg> {
    if Texts.Strip(text) == "" then [] else [Text(User, GUIDANCE + Texts.Strip(text))]
  }

  function AllGuidance(guidance: seq<string>): seq<Msg> {
    if guidance == [] then []
    else AllGuidance(guidance[..|guidance| - 1]) + GuidanceFor(guidance[|guidance| - 1])
  }

  lemma {:induction false} GuidanceIsText(guidance: seq<string>)
    ensures forall k :: 0 <= k < |AllGuidance(guidance)| ==> AllGuidance(guidance)[k].Text?
  {
    if guidance != [] {
      GuidanceIsText(guidance[..|guidance| - 1]);
    }
  }

  /** The texts that are not blank, trimmed. */
  function Nonblank(guidance: seq<string>): seq<string> {
    if guidance == [] then []
    else if Texts.Strip(guidance[0]) == "" then Nonblank(guidance[1..])
    else [Texts.Strip(guidance[0])] + Nonblank(guidance[1..])
  }

  lemma {:induction false} NonblankAppend(guidance: seq<string>, text: string)
    ensures Nonblank(guidance + [text])
      == Nonblank(guidance) + if Texts.Strip(text) == "" then [] else [Texts.Strip(text)]
  {
    if guidance == [] {
      assert [] + [text] == [text] && [text][1..] == [];
    } else {
      assert (guidance + [text])[1..] == guidance[1..] + [text];
      NonblankAppend(guidance[1..], text);
    }
  }

  /** The user's texts arrive in order, each as a message of the user after the fixed words. */
  lemma {:induction false} GuidanceExactly(guidance: seq<string>)
    ensures |AllGuidance(guidance)| == |Nonblank(guidance)|
    ensures forall k :: 0 <= k < |Nonblank(guidance)| ==>
      AllGuidance(guidance)[k] == Text(User, GUIDANCE + Nonblank(guidance)[k])
  {
    if guidance != [] {
      var n := |guidance| - 1;
      GuidanceExactly(guidance[..n]);
      NonblankAppend(guidance[..n], guidance[n]);
      assert guidance == guidance[..n] + [guidance[n]];
    }
  }

  /** A stop request, or the user's new texts. */
  method ApplyTurnControl(working: seq<Msg>, stop: bool, guidance: seq<string>) returns (stopped: bool, r: seq<Msg>)
    ensures stopped == stop
    ensures r == if stopped then working else working + AllGuidance(guidance)
    ensures forall base :: Complete(working, base) ==> Complete(r, base)
  {
    if stop {
      return true, working;
    }
    r := working;
    for i := 0 to |guidance|
      invariant r == working + AllGuidance(guidance[..i])
    {
      assert guidance[..i + 1][..i] == guidance[..i];
      var text := Texts.Strip(guidance[i]);
      if text != "" {
        r := r + [Text(User, GUIDANCE + text)];
      }
    }
    assert guidance[..|guidance|] == guidance;
    stopped := false;
    GuidanceIsText(guidance);
    forall base | Complete(working, base)
      ensures Complete(r, base)
    {
      AddTexts(working, AllGuidance(guidance), base);
    }
  }

  // ---- the loop ----

  /** The model is called in this round. */
  predicate Asked(round: Round) { !round.stopBefore && round.gateBefore.Open? }

  /** The model answers, and the turn is not stopped meanwhile. */
  predicate Replied(round: Round) { Asked(round) && round.model.Says? && !round.stopAfterReply }

  /** The first calls of the answer, up to the limit. */
  function CallsOf(round: Round, maxCalls: nat): seq<Call>
    requires round.model.Says?
  {
    var asked := round.model.calls;
    asked[..if |asked| < maxCalls then |asked| else maxCalls]
  }

  ghost predicate Executes(round: Round, maxCalls: nat) {
    Replied(round) && round.model.calls != [] && !Breaks(round.tools, CallsOf(round, maxCalls))
  }

  ghost predicate Interrupted(round: Round, maxCalls: nat) {
    Replied(round) && round.model.calls != [] && Breaks(round.tools, CallsOf(round, maxCalls))
  }

  /** The loop goes on after this round. */
  ghost predicate GoesOn(round: Round, maxCalls: nat) {
    Executes(round, maxCalls) && !round.stopAfter && round.gateAfter.Open?
  }

  /** How the turn ends in a round that does not go on. */
  ghost predicate EndsAs(round: Round, maxCalls: nat, end: End) {
    && (end.Cancelled? <==>
          || round.stopBefore || (Asked(round) && round.model.Says? && round.stopAfterReply)
          || (Executes(round, maxCalls) && round.stopAfter))
    && (end.TimedOut? <==>
          || (!round.stopBefore && round.gateBefore.DeadlineExpired?) || (Asked(round) && round.model.TimesOut?)
          || (Interrupted(round, maxCalls) && round.toolsTimeOut)
          || (Executes(round, maxCalls) && !round.stopAfter && round.gateAfter.DeadlineExpired?))
    && (end.Failed? <==>
          || (!round.stopBefore && round.gateBefore.ContextFull?)
          || (Executes(round, maxCalls) && !round.stopAfter && round.gateAfter.ContextFull?))
    && (end.Completed? <==> Replied(round) && round.model.calls == [] && Texts.Strip(round.model.content) != "")
  }

  /** What the asked calls of a round that goes on add: the asking message, its answers and attachments, and the
      texts of the user that came meanwhile. */
  ghost predicate ToolsAdd(
    before: seq<Msg>, working: seq<Msg>, round: Round, maxCalls: nat, records: seq<Record>, persist: seq<bool>,
    log: seq<Run>)
  {
    && round.model.Says?
    && var calls := CallsOf(round, maxCalls);
       && |records| == |calls| && Answered(round.tools, calls, log, records, persist)
       && working == before + [Asks(round.model.content, calls)]
                     + FinalAnswers(calls, records, round) + Attached(records, round, |records|)
                     + AllGuidance(round.guidanceAfter)
  }

  /** A round that goes on adds the texts of the user before that. */
  ghost predicate RoundAdds(
    before: seq<Msg>, working: seq<Msg>, round: Round, maxCalls: nat, records: seq<Record>, persist: seq<bool>,
    log: seq<Run>)
  {
    ToolsAdd(before + AllGuidance(round.guidanceBefore), working, round, maxCalls, records, persist, log)
  }

  /** Whether the loop goes on, and otherwise how the turn ends, with the transcript that is left. */
  ghost predicate RoundEnds(
    messages: seq<Msg>, working: seq<Msg>, round: Round, maxCalls: nat, end: End, goOn: bool)
  {
    && (goOn <==> GoesOn(round, maxCalls)) && (!goOn ==> EndsAs(round, maxCalls, end))
    && WellFormed(working, |messages|)
    && (goOn || end.Completed? || end.Failed? ==> Complete(working, |messages|))
  }

  /** The state at the head of a round. */
  ghost predicate Ready(working: seq<Msg>, requests: seq<seq<Msg>>, messages: seq<Msg>) {
    messages <= working && Complete(working, |messages|) && Sound(requests, messages)
  }

  /** The transcripts given to the model are complete. */
  ghost predicate Sound(requests: seq<seq<Msg>>, messages: seq<Msg>) {
    forall r :: r in requests ==> messages <= r && Complete(r, |messages|)
  }

  /** One round. `goOn` tells whether the loop goes on; `requests` are the transcripts given to the model. */
  method RunRound(messages: seq<Msg>, before: seq<Msg>, requests: seq<seq<Msg>>, round: Round, maxCalls: nat)
    returns (working: seq<Msg>, requests': seq<seq<Msg>>, end: End, goOn: bool,
             ghost records: seq<Record>, ghost persist: seq<bool>, ghost log: seq<Run>)
    requires Ready(before, requests, messages)
    ensures before <= working && RoundEnds(messages, working, round, maxCalls, end, goOn)
    ensures requests' == requests + if Asked(round) then [before + AllGuidance(round.guidanceBefore)] else []
    ensures Sound(requests', messages)
    ensures goOn ==> RoundAdds(before, working, round, maxCalls, records, persist, log)
  {
    var stopped;
    goOn, requests' := false, requests;
    records, persist, log := [], [], [];
    stopped, working := ApplyTurnControl(before, round.stopBefore, round.guidanceBefore);
    if stopped {
      end := Cancelled;
      return;
    }
    if !round.gateBefore.Open? {
      end := if round.gateBefore.DeadlineExpired? then TimedOut else Failed;
      return;
    }
    requests' := requests + [working];
    if !round.model.Says? {
      end := if round.model.TimesOut? then TimedOut else Raised;
      return;
    }
    if round.model.calls == [] {
      end := if round.stopAfterReply then Cancelled
             else if Texts.Strip(round.model.content) == "" then Raised else Completed;
      return;
    }
    working, end, goOn, records, persist, log := RunTools(messages, working, round, maxCalls);
  }

  /** The rest of a round in which the model asked for calls. */
  method RunTools(messages: seq<Msg>, complete: seq<Msg>, round: Round, maxCalls: nat)
    returns (working: seq<Msg>, end: End, goOn: bool,
             ghost records: seq<Record>, ghost persist: seq<bool>, ghost log: seq<Run>)
    requires messages <= complete && Complete(complete, |messages|)
    requires Asked(round) && round.model.Says? && round.model.calls != []
    ensures complete <= working && RoundEnds(messages, working, round, maxCalls, end, goOn)
    ensures goOn ==> ToolsAdd(complete, working, round, maxCalls, records, persist, log)
  {
    var asked := round.model.calls;
    var calls := asked[..if |asked| < maxCalls then |asked| else maxCalls];
    goOn, records, persist, log := false, [], [], [];
    working := complete + [Asks(round.model.content, calls)];
    assert working[..|working| - 1] == complete;
    if round.stopAfterReply {
      end := Cancelled;
      return;
    }
    var executed;
    executed, working, records, persist, log :=
      ExecuteAsked(complete, |messages|, working, round.model.content, calls, round);
    if !executed {
      end := if round.toolsTimeOut then TimedOut else Raised;
      return;
    }
    var stopped;
    stopped, working := ApplyTurnControl(working, round.stopAfter, round.guidanceAfter);
    if stopped {
      end := Cancelled;
      return;
    }
    if !round.gateAfter.Open? {
      end := if round.gateAfter.DeadlineExpired? then TimedOut else Failed;
      return;
    }
    goOn := true;
    end := Completed;
  }

  lemma CompleteAfter(t: seq<Msg>, base: nat, exchange: seq<Msg>, texts: seq<Msg>)
    requires Complete(t, base) && base <= |t| && Exchange(exchange)
    requires forall k :: 0 <= k < |texts| ==> texts[k].Text?
    ensures Complete(t + exchange + texts, base)
  {
    AddRound(t, exchange, base);
    AddTexts(t + exchange, texts, base);
  }

  /** Executes the calls that the model asked for and appends what comes back. */
  method ExecuteAsked(
    ghost complete: seq<Msg>, ghost base: nat, asking: seq<Msg>, content: string, calls: seq<Call>, round: Round)
    returns (ok: bool, working: seq<Msg>, ghost records: seq<Record>, ghost persist: seq<bool>, ghost log: seq<Run>)
    requires base <= |complete| && Complete(complete, base) && asking == complete + [Asks(content, calls)]
    ensures ok <==> !Breaks(round.tools, calls)
    ensures asking <= working && (!ok ==> working == asking)
    ensures ok ==> Complete(working, base)
    ensures ok ==> |asking| + |calls| <= |working|
    ensures ok ==> Answered(round.tools, calls, log, records, persist) && |records| == |calls|
    ensures ok ==> forall i :: 0 <= i < |calls| ==>
      working[|asking| + i] == Reply(calls[i].id, calls[i].name,
        if records[i].attachment.None? || round.accepts(i) then records[i].content
        else "本轮上下文附件被拒绝：" + round.attachmentError(i))
    ensures ok ==> working == asking + FinalAnswers(calls, records, round) + Attached(records, round, |records|)
  {
    var executed, kept, executions := ExecuteParentCalls(round.tools, calls);
    if executed.None? {
      return false, asking, [], [], [];
    }
    records, persist, log := executed.value, kept, executions;
    working := AnswerCalls(asking, calls, executed.value, round);
    ok := true;
    AsksAreAnswered(complete, base, content, calls, executed.value, round);
    AnswersInPlace(asking, calls, executed.value, round);
  }

  lemma AsksAreAnswered(
    t: seq<Msg>, base: nat, content: string, calls: seq<Call>, records: seq<Record>, round: Round)
    requires base <= |t| && Complete(t, base) && |records| == |calls|
    ensures Complete(t + [Asks(content, calls)] + FinalAnswers(calls, records, round)
                       + Attached(records, round, |records|), base)
  {
    var answers, texts := FinalAnswers(calls, records, round), Attached(records, round, |records|);
    AttachedAreTexts(records, round, |records|);
    CompleteAfter(t, base, [Asks(content, calls)] + answers, texts);
    assert t + ([Asks(content, calls)] + answers) == t + [Asks(content, calls)] + answers;
  }

  lemma AnswersInPlace(asking: seq<Msg>, calls: seq<Call>, records: seq<Record>, round: Round)
    requires |records| == |calls|
    ensures var all := asking + FinalAnswers(calls, records, round) + Attached(records, round, |records|);
      && asking <= all && |asking| + |calls| <= |all|
      && forall i :: 0 <= i < |calls| ==> all[|asking| + i] == AnswerTo(calls[i], records[i], round, i)
  {
    var answers := FinalAnswers(calls, records, round);
    var all := asking + answers + Attached(records, round, |records|);
    forall i | 0 <= i < |calls|
      ensures all[|asking| + i] == AnswerTo(calls[i], records[i], round, i)
    {
      assert all[|asking| + i] == answers[i];
    }
  }

  /** How the turn ends after the last round, where the model is asked once more for a summary. */
  ghost predicate SummaryEnds(end: End, expired: bool, summary: Model, stopped: bool) {
    && (end.TimedOut? <==> expired || summary.TimesOut?)
    && (end.Raised? <==> !expired && summary.Fails?)
    && (end.Cancelled? <==> !expired && summary.Says? && stopped)
    && (end.Completed? <==> !expired && summary.Says? && !stopped)
  }

  /** The model is asked once more, without tools, unless the time is up. */
  method Summarize(messages: seq<Msg>, before: seq<Msg>, requests: seq<seq<Msg>>, prompt: string, expired: bool,
                   summary: Model, stopped: bool)
    returns (working: seq<Msg>, requests': seq<seq<Msg>>, end: End)
    requires Ready(before, requests, messages)
    ensures messages <= working && Complete(working, |messages|)
    ensures working == before + [Text(System, prompt)] && SummaryEnds(end, expired, summary, stopped)
    ensures requests' == requests + if expired then [] else [working]
    ensures Sound(requests', messages)
  {
    AddTexts(before, [Text(System, prompt)], |messages|);
    working, requests' := before + [Text(System, prompt)], requests;
    if expired {
      end := TimedOut;
      return;
    }
    requests' := requests + [working];
    end := if summary.Fails? then Raised else if summary.TimesOut? then TimedOut
           else if stopped then Cancelled else Completed;
  }

  ghost predicate AllGoOn(rounds: nat -> Round, n: nat, maxCalls: nat) {
    forall k: nat :: k < n ==> GoesOn(rounds(k), maxCalls)
  }

  /** The loop over the rounds, up to the first that does not go on. */
  method Loop(messages: seq<Msg>, rounds: nat -> Round, maxRounds: nat, maxCalls: nat)
    returns (working: seq<Msg>, requests: seq<seq<Msg>>, end: End, last: nat)
    ensures last <= maxRounds && AllGoOn(rounds, last, maxCalls)
    ensures messages <= working && Sound(requests, messages)
    ensures last < maxRounds ==> RoundEnds(messages, working, rounds(last), maxCalls, end, false)
    ensures last == maxRounds ==> Complete(working, |messages|)
    ensures |requests| == last + if last < maxRounds && Asked(rounds(last)) then 1 else 0
  {
    working, requests, end, last := messages, [], Completed, 0;
    while last < maxRounds
      invariant last <= maxRounds && Ready(working, requests, messages) && |requests| == last
      invariant AllGoOn(rounds, last, maxCalls)
    {
      var goOn;
      ghost var records, persist, log;
      working, requests, end, goOn, records, persist, log :=
        RunRound(messages, working, requests, rounds(last), maxCalls);
      if !goOn {
        return;
      }
      last := last + 1;
    }
  }

  /** The whole turn. It ends in the first round that does not go on, or with the summary after the last one.
      Every transcript that is given to the model is complete, the final one is complete unless the turn was
      stopped or interrupted right after the model asked, and the model is called at most once more than there
      are rounds. */
  method Run(messages: seq<Msg>, rounds: nat -> Round, maxRounds: nat, maxCalls: nat, prompt: string, expired: bool,
             summary: Model, stopped: bool)
    returns (working: seq<Msg>, requests: seq<seq<Msg>>, end: End, last: nat)
    ensures messages <= working && WellFormed(working, |messages|) && Sound(requests, messages)
    ensures last <= maxRounds && AllGoOn(rounds, last, maxCalls)
    ensures last < maxRounds ==> RoundEnds(messages, working, rounds(last), maxCalls, end, false)
    ensures |requests| == last + if if last < maxRounds then Asked(rounds(last)) else !expired then 1 else 0
    ensures last == maxRounds ==>
      && SummaryEnds(end, expired, summary, stopped)
      && working != [] && working[|working| - 1] == Text(System, prompt)
      && (!expired ==> requests[|requests| - 1] == working)
    ensures end.Completed? || end.Failed? ==> Complete(working, |messages|)
  {
    working, requests, end, last := Loop(messages, rounds, maxRounds, maxCalls);
    if last == maxRounds {
      working, requests, end := Summarize(messages, working, requests, prompt, expired, summary, stopped);
    }
  }
}
