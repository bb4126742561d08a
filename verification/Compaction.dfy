/** Short-term memory: which messages stay in the recent window and which are handed to the summary. */
module Compaction {
  import opened Batching

  type Id(==, !new)

  datatype Role = User | Assistant | Other

  datatype Message = Message(id: Id, role: Role, tokens: nat)

  function CountTokens(messages: seq<Message>): nat {
    if messages == [] then 0 else messages[0].tokens + CountTokens(messages[1..])
  }

  // ---- the reference: positions in the history ----

  /** A user message directly followed by an assistant message. */
  predicate Pair(m: seq<Message>, p: int) {
    0 <= p < |m| - 1 && m[p].role == User && m[p + 1].role == Assistant
  }

  predicate InTurn(m: seq<Message>, p: int) {
    Pair(m, p) || Pair(m, p - 1)
  }

  /** The window that starts at position `from`: what belongs to a complete turn there or later. */
  predicate InWindow(m: seq<Message>, from: int, p: int) {
    p >= from && InTurn(m, p)
  }

  /** The messages from position i on that are inside the window, or outside, in order. */
  function Part(m: seq<Message>, from: int, inside: bool, i: nat): seq<Message>
    requires i <= |m|
    decreases |m| - i
  {
    if i == |m| then []
    else (if InWindow(m, from, i) == inside then [m[i]] else []) + Part(m, from, inside, i + 1)
  }

  function Window(m: seq<Message>, from: int): seq<Message> {
    Part(m, from, true, 0)
  }

  function Outside(m: seq<Message>, from: int): seq<Message> {
    Part(m, from, false, 0)
  }

  /** The longest window of complete turns within the limit, or the empty one. */
  ghost predicate LongestWindow(m: seq<Message>, limit: int, from: int) {
    && (from == |m| || (Pair(m, from) && CountTokens(Window(m, from)) <= limit))
    && (forall p :: 0 <= p < from && Pair(m, p) ==> CountTokens(Window(m, p)) > limit)
  }

  lemma {:induction false} CountAppend(a: seq<Message>, b: seq<Message>)
    ensures CountTokens(a + b) == CountTokens(a) + CountTokens(b)
  {
    if a == [] {
      assert a + b == b;
    } else {
      assert (a + b)[1..] == a[1..] + b;
      CountAppend(a[1..], b);
    }
  }

  /** The two parts share out the messages: their tokens add up, and so do their lengths. */
  lemma {:induction false} PartsAddUp(m: seq<Message>, from: int, i: nat)
    requires i <= |m|
    ensures CountTokens(Part(m, from, true, i)) + CountTokens(Part(m, from, false, i)) == CountTokens(m[i..])
    ensures |Part(m, from, true, i)| + |Part(m, from, false, i)| == |m| - i
    decreases |m| - i
  {
    if i < |m| {
      PartsAddUp(m, from, i + 1);
      assert m[i..] == [m[i]] + m[i + 1..];
      assert CountTokens([m[i]]) == m[i].tokens;
      var w := InWindow(m, from, i);
      assert Part(m, from, w, i) == [m[i]] + Part(m, from, w, i + 1);
      assert Part(m, from, !w, i) == Part(m, from, !w, i + 1);
      CountAppend([m[i]], Part(m, from, w, i + 1));
      CountAppend([m[i]], m[i + 1..]);
    }
  }

  lemma {:induction false} PartHolds(m: seq<Message>, from: int, inside: bool, i: nat)
    requires i <= |m|
    ensures forall x :: x in Part(m, from, inside, i) <==>
              exists p :: i <= p < |m| && m[p] == x && InWindow(m, from, p) == inside
    decreases |m| - i
  {
    if i < |m| {
      PartHolds(m, from, inside, i + 1);
    }
  }

  // ---- complete turns ----

  /** The turns with their positions: exactly the adjacent pairs, in order. */
  ghost predicate AreTurns(m: seq<Message>, turns: seq<seq<Message>>, starts: seq<int>) {
    && |turns| == |starts|
    && (forall p :: p in starts <==> Pair(m, p))
    && (forall j :: 0 <= j < |starts| ==> Pair(m, starts[j]) && turns[j] == [m[starts[j]], m[starts[j] + 1]])
    && (forall i, j :: 0 <= i < j < |starts| ==> starts[i] < starts[j])
  }

  method CompleteTurns(messages: seq<Message>) returns (turns: seq<seq<Message>>)
    ensures exists starts :: AreTurns(messages, turns, starts)
  {
    turns := [];
    ghost var starts: seq<int> := [];
    var index := 0;
    while index < |messages| - 1
      invariant 0 <= index && |turns| == |starts|
      invariant forall p :: p in starts <==> Pair(messages, p) && p < index
      invariant index < |messages| ==> !Pair(messages, index - 1)
      invariant forall j :: 0 <= j < |starts| ==>
        && Pair(messages, starts[j])
        && turns[j] == [messages[starts[j]], messages[starts[j] + 1]]
      invariant forall j :: 0 <= j < |starts| ==> starts[j] < index
      invariant forall i, j :: 0 <= i < j < |starts| ==> starts[i] < starts[j]
    {
      var current, following := messages[index], messages[index + 1];
      if current.role == User && following.role == Assistant {
        turns := turns + [[current, following]];
        starts := starts + [index];
        index := index + 2;
        continue;
      }
      index := index + 1;
    }
    assert AreTurns(messages, turns, starts);
  }

  lemma {:induction false} SkipOutside(m: seq<Message>, from: int, i: nat, k: nat)
    requires i <= k <= |m| && forall p :: i <= p < k ==> !InWindow(m, from, p)
    ensures Part(m, from, true, i) == Part(m, from, true, k)
    decreases k - i
  {
    if i < k {
      SkipOutside(m, from, i + 1, k);
    }
  }

  /** From a position on, windows that start before it agree. */
  lemma {:induction false} SameFrom(m: seq<Message>, a: int, b: int, i: nat)
    requires a <= i <= |m| && b <= i
    ensures Part(m, a, true, i) == Part(m, b, true, i)
    decreases |m| - i
  {
    if i < |m| {
      SameFrom(m, a, b, i + 1);
    }
  }

  /** Where the k-th turn starts; after the last one, at the end. */
  ghost function StartOf(m: seq<Message>, starts: seq<int>, k: nat): int
    requires k <= |starts|
  {
    if k == |starts| then |m| else starts[k]
  }

  lemma PartUnfolds(m: seq<Message>, from: int, i: nat)
    requires i < |m| && InWindow(m, from, i)
    ensures Part(m, from, true, i) == [m[i]] + Part(m, from, true, i + 1)
  {
  }

  lemma TurnUnfolds(m: seq<Message>, from: nat)
    requires from + 2 <= |m| && InTurn(m, from) && InTurn(m, from + 1)
    ensures Part(m, from, true, from) == [m[from], m[from + 1]] + Part(m, from, true, from + 2)
  {
    PartUnfolds(m, from, from);
    PartUnfolds(m, from, from + 1);
  }

  /** A window that starts with a turn is that turn and the window of the next one. */
  lemma WindowUnfolds(m: seq<Message>, from: int, next: int)
    requires Pair(m, from) && from + 2 <= next <= |m|
    requires InTurn(m, from) && InTurn(m, from + 1)
    requires forall p :: from + 2 <= p < next ==> !InTurn(m, p)
    ensures Window(m, from) == [m[from], m[from + 1]] + Window(m, next)
  {
    SkipOutside(m, from, 0, from);
    TurnUnfolds(m, from);
    SkipOutside(m, from, from + 2, next);
    SkipOutside(m, next, 0, next);
    SameFrom(m, from, next, next);
  }

  /** The turns from the k-th on, joined, are the window that starts where the k-th turn does. */
  lemma {:induction false} JoinedTurnsAreWindow(m: seq<Message>, turns: seq<seq<Message>>, starts: seq<int>, k: nat)
    requires AreTurns(m, turns, starts) && k <= |starts|
    ensures Flatten(turns[k..]) == Window(m, StartOf(m, starts, k))
    decreases |starts| - k
  {
    if k == |starts| {
      SkipOutside(m, |m|, 0, |m|);
    } else {
      JoinedTurnsAreWindow(m, turns, starts, k + 1);
      NoTurnBetween(m, turns, starts, k);
      WindowUnfolds(m, starts[k], StartOf(m, starts, k + 1));
      assert turns[k..][1..] == turns[k + 1..];
    }
  }

  lemma NoTurnBetween(m: seq<Message>, turns: seq<seq<Message>>, starts: seq<int>, k: nat)
    requires AreTurns(m, turns, starts) && k < |starts|
    ensures starts[k] + 2 <= StartOf(m, starts, k + 1)
    ensures InTurn(m, starts[k]) && InTurn(m, starts[k] + 1)
    ensures forall p :: starts[k] + 2 <= p < StartOf(m, starts, k + 1) ==> !InTurn(m, p)
  {
    var from, next := starts[k], StartOf(m, starts, k + 1);
    forall p | from < p < next
      ensures !Pair(m, p)
    {
      forall j | 0 <= j < |starts|
        ensures starts[j] != p
      {
        assert j < k ==> starts[j] < from;
        assert j > k + 1 ==> starts[j] > next;
      }
      assert p !in starts;
    }
  }

  lemma {:induction false} FlattenTokens(turns: seq<seq<Message>>)
    ensures turns != [] ==>
      CountTokens(Flatten(turns)) == CountTokens(turns[0]) + CountTokens(Flatten(turns[1..]))
  {
    if turns != [] {
      CountAppend(turns[0], Flatten(turns[1..]));
    }
  }

  lemma {:induction false} ShorterSuffixIsSmaller(turns: seq<seq<Message>>, j: nat, k: nat)
    requires j <= k <= |turns|
    ensures CountTokens(Flatten(turns[k..])) <= CountTokens(Flatten(turns[j..]))
    decreases k - j
  {
    if j < k {
      ShorterSuffixIsSmaller(turns, j + 1, k);
      FlattenTokens(turns[j..]);
      assert turns[j..][1..] == turns[j + 1..];
    }
  }

  ghost predicate KeptFrom(m: seq<Message>, limit: int, kept: seq<Message>, from: int) {
    0 <= from <= |m| && LongestWindow(m, limit, from) && kept == Window(m, from)
  }

  method RecentWindow(messages: seq<Message>, limit: int) returns (selected: seq<Message>)
    ensures exists from :: KeptFrom(messages, limit, selected, from)
  {
    var turns := CompleteTurns(messages);
    ghost var k;
    selected, k := LastTurns(turns, limit);
    ghost var starts :| AreTurns(messages, turns, starts);
    WindowIsLongest(messages, turns, starts, k, limit);
    assert KeptFrom(messages, limit, selected, StartOf(messages, starts, k));
  }

  /** Goes back from the last turn while the turns fit. */
  method LastTurns(turns: seq<seq<Message>>, limit: int) returns (selected: seq<Message>, ghost k: nat)
    ensures k <= |turns| && selected == Flatten(turns[k..])
    ensures k < |turns| ==> CountTokens(selected) <= limit
    ensures k > 0 ==> CountTokens(Flatten(turns[k - 1..])) > limit
  {
    selected := [];
    var total, i := 0, |turns|;
    while i > 0
      invariant 0 <= i <= |turns|
      invariant selected == Flatten(turns[i..]) && total == CountTokens(selected)
      invariant i < |turns| ==> total <= limit
    {
      var turn := turns[i - 1];
      var turnTokens := CountTokens(turn);
      assert turns[i - 1..][1..] == turns[i..];
      FlattenTokens(turns[i - 1..]);
      if turnTokens > limit {
        break;
      }
      if total + turnTokens > limit {
        break;
      }
      selected := turn + selected;
      total := total + turnTokens;
      i := i - 1;
    }
    k := i;
  }

  lemma EarlierWindowExceeds(
    m: seq<Message>, turns: seq<seq<Message>>, starts: seq<int>, k: nat, j: nat, limit: int)
    requires AreTurns(m, turns, starts) && j < k <= |turns|
    requires CountTokens(Flatten(turns[k - 1..])) > limit
    ensures CountTokens(Window(m, starts[j])) > limit
  {
    JoinedTurnsAreWindow(m, turns, starts, j);
    ShorterSuffixIsSmaller(turns, j, k - 1);
  }

  lemma PositionOfTurn(m: seq<Message>, turns: seq<seq<Message>>, starts: seq<int>, k: nat, p: int) returns (j: nat)
    requires AreTurns(m, turns, starts) && k <= |turns| && Pair(m, p) && p < StartOf(m, starts, k)
    ensures j < k && starts[j] == p
  {
    assert p in starts;
    j :| 0 <= j < |starts| && starts[j] == p;
  }

  lemma WindowIsLongest(m: seq<Message>, turns: seq<seq<Message>>, starts: seq<int>, k: nat, limit: int)
    requires AreTurns(m, turns, starts) && k <= |turns|
    requires k < |turns| ==> CountTokens(Flatten(turns[k..])) <= limit
    requires k > 0 ==> CountTokens(Flatten(turns[k - 1..])) > limit
    ensures 0 <= StartOf(m, starts, k) <= |m|
    ensures Flatten(turns[k..]) == Window(m, StartOf(m, starts, k))
    ensures LongestWindow(m, limit, StartOf(m, starts, k))
  {
    var from := StartOf(m, starts, k);
    JoinedTurnsAreWindow(m, turns, starts, k);
    forall p | 0 <= p < from && Pair(m, p)
      ensures CountTokens(Window(m, p)) > limit
    {
      var j := PositionOfTurn(m, turns, starts, k, p);
      EarlierWindowExceeds(m, turns, starts, k, j, limit);
    }
  }

  // ---- the plan ----

  datatype Plan = Plan(shouldCompact: bool, compactSource: seq<Message>, recentWindow: seq<Message>,
                       compactedTokens: nat, windowTokens: nat)

  function Ids(messages: seq<Message>): set<Id> {
    set x | x in messages :: x.id
  }

  /** The messages from position i on whose id is not among `ids`. */
  function WithoutIds(m: seq<Message>, ids: set<Id>): seq<Message> {
    if m == [] then [] else (if m[0].id in ids then [] else [m[0]]) + WithoutIds(m[1..], ids)
  }

  ghost predicate DistinctIds(m: seq<Message>) {
    forall i, j :: 0 <= i < j < |m| ==> m[i].id != m[j].id
  }

  /** No message outside the window has the id of one inside. */
  ghost predicate WindowIdsAreItsOwn(m: seq<Message>, from: int) {
    forall p, q :: 0 <= p < |m| && 0 <= q < |m| && InWindow(m, from, p) && m[p].id == m[q].id ==> InWindow(m, from, q)
  }

  ghost predicate OutsideAvoids(m: seq<Message>, from: int, ids: set<Id>, i: nat) {
    forall q :: i <= q < |m| && !InWindow(m, from, q) ==> m[q].id !in ids
  }

  lemma {:induction false} FilterAgainstPart(m: seq<Message>, from: int, ids: set<Id>, i: nat)
    requires i <= |m|
    requires forall p :: i <= p < |m| && InWindow(m, from, p) ==> m[p].id in ids
    ensures |WithoutIds(m[i..], ids)| <= |Part(m, from, false, i)|
    ensures OutsideAvoids(m, from, ids, i) ==> WithoutIds(m[i..], ids) == Part(m, from, false, i)
    ensures |WithoutIds(m[i..], ids)| == |Part(m, from, false, i)| ==> OutsideAvoids(m, from, ids, i)
    decreases |m| - i
  {
    if i < |m| {
      FilterAgainstPart(m, from, ids, i + 1);
      assert m[i..][1..] == m[i + 1..] && m[i..][0] == m[i];
    }
  }

  /** The messages that are handed to the summary are those outside the window, none lost, exactly when
      no message outside the window has the id of one inside. */
  lemma NothingIsLost(m: seq<Message>, from: int)
    ensures var source := WithoutIds(m, Ids(Window(m, from)));
      && (WindowIdsAreItsOwn(m, from) <==> |source| + |Window(m, from)| == |m|)
      && (WindowIdsAreItsOwn(m, from) ==> source == Outside(m, from))
  {
    var ids := Ids(Window(m, from));
    PartHolds(m, from, true, 0);
    assert m[0..] == m;
    forall p | 0 <= p < |m| && InWindow(m, from, p)
      ensures m[p].id in ids
    {
      assert m[p] in Window(m, from);
    }
    FilterAgainstPart(m, from, ids, 0);
    PartsAddUp(m, from, 0);
    assert WindowIdsAreItsOwn(m, from) <==> OutsideAvoids(m, from, ids, 0);
  }

  lemma DistinctIdsSuffice(m: seq<Message>, from: int)
    requires DistinctIds(m)
    ensures WindowIdsAreItsOwn(m, from)
  {
    forall p, q | 0 <= p < |m| && 0 <= q < |m| && m[p].id == m[q].id
      ensures p == q
    {
    }
  }

  /** A history reloaded without ids: everything outside the window is dropped from both parts. */
  lemma EqualIdsLoseMessages(id: Id)
    ensures var m := [Message(id, Assistant, 1), Message(id, User, 1), Message(id, Assistant, 1)];
      && LongestWindow(m, 2, 1)
      && WithoutIds(m, Ids(Window(m, 1))) == [] && Window(m, 1) == m[1..]
  {
    var m := [Message(id, Assistant, 1), Message(id, User, 1), Message(id, Assistant, 1)];
    assert Part(m, 1, true, 3) == [];
    assert Part(m, 1, true, 2) == [m[2]];
    assert Part(m, 1, true, 1) == [m[1], m[2]];
    assert Window(m, 1) == [m[1], m[2]] == m[1..];
    assert CountTokens([m[2]]) == 1;
    assert CountTokens([m[1], m[2]]) == 2;
    assert m[1] in Window(m, 1) && id in Ids(Window(m, 1));
    assert WithoutIds(m[2..], Ids(Window(m, 1))) == [];
    assert m[1..][1..] == m[2..];
    assert WithoutIds(m[1..], Ids(Window(m, 1))) == [];
  }

  method PlanCompaction(messages: seq<Message>, threshold: int, limit: int, force: bool)
    returns (plan: Plan)
    ensures plan.shouldCompact <==> force || CountTokens(messages) > threshold
    ensures !plan.shouldCompact ==> plan == Plan(false, [], messages, 0, CountTokens(messages))
    ensures plan.shouldCompact ==>
      && (exists from :: KeptFrom(messages, limit, plan.recentWindow, from))
      && plan.compactSource == WithoutIds(messages, Ids(plan.recentWindow))
      && plan.windowTokens == CountTokens(plan.recentWindow)
      && plan.compactedTokens == CountTokens(plan.compactSource)
    ensures plan.shouldCompact && DistinctIds(messages) ==>
      && (exists from :: KeptFrom(messages, limit, plan.recentWindow, from) && plan.compactSource == Outside(messages, from))
      && plan.compactedTokens + plan.windowTokens == CountTokens(messages)
  {
    if !force && CountTokens(messages) <= threshold {
      return Plan(false, [], messages, 0, CountTokens(messages));
    }
    var recent := RecentWindow(messages, limit);
    ghost var from :| KeptFrom(messages, limit, recent, from);
    var source := WithoutIds(messages, Ids(recent));
    NothingIsLost(messages, from);
    PartsAddUp(messages, from, 0);
    assert messages[0..] == messages;
    if DistinctIds(messages) {
      DistinctIdsSuffice(messages, from);
    }
    plan := Plan(true, source, recent, CountTokens(source), CountTokens(recent));
  }
}
