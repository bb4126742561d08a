/** Which messages of a session a periodic review selects, in which batches, and how the cursor of the
    session moves. A message sorts by its time and then by its id. */
module ReviewWindow {
  import opened Options
  import opened Batching

  datatype Role = User | Assistant | Other

  /** `time` is the instant of `created_at`; `tokens` is its stored token count. */
  datatype Message = Message(id: string, role: Role, time: int, tokens: nat)

  datatype Cursor = Cursor(id: string, time: int)

  function CursorOf(m: Message): Cursor { Cursor(m.id, m.time) }

  // ---- the order of messages ----

  predicate LexLess(a: string, b: string) {
    b != "" && (a == "" || a[0] < b[0] || (a[0] == b[0] && LexLess(a[1..], b[1..])))
  }

  predicate Before(a: Cursor, b: Cursor) {
    a.time < b.time || (a.time == b.time && LexLess(a.id, b.id))
  }

  lemma {:induction false} LexLessOrder(a: string, b: string, c: string)
    ensures LexLess(a, b) && LexLess(b, c) ==> LexLess(a, c)
    ensures !LexLess(a, a)
    ensures LexLess(a, b) || LexLess(b, a) || a == b
  {
    if a != "" {
      LexLessOrder(a[1..], if b == "" then "" else b[1..], if c == "" then "" else c[1..]);
      assert a == [a[0]] + a[1..];
      assert b != "" ==> b == [b[0]] + b[1..];
    }
  }

  lemma BeforeOrder(a: Cursor, b: Cursor, c: Cursor)
    ensures Before(a, b) && Before(b, c) ==> Before(a, c)
    ensures !Before(a, a)
    ensures Before(a, b) || Before(b, a) || a == b
    ensures Before(a, b) ==> !Before(b, a)
  {
    LexLessOrder(a.id, b.id, c.id);
    LexLessOrder(a.id, b.id, a.id);
  }

  ghost predicate Ascending(s: seq<Message>) {
    forall i, j :: 0 <= i < j < |s| ==> Before(CursorOf(s[i]), CursorOf(s[j]))
  }

  ghost predicate DistinctIds(s: seq<Message>) {
    forall i, j :: 0 <= i < j < |s| ==> s[i].id != s[j].id
  }

  // ---- the messages in view: of the right role, not in the future, sorted ----

  predicate Eligible(m: Message, now: int) {
    m.role != Other && m.time <= now
  }

  function Insert(m: Message, s: seq<Message>): seq<Message> {
    if s == [] || Before(CursorOf(m), CursorOf(s[0])) then [m] + s
    else [s[0]] + Insert(m, s[1..])
  }

  function Source(messages: seq<Message>, now: int): seq<Message> {
    if messages == [] then []
    else
      var rest := Source(messages[1..], now);
      if Eligible(messages[0], now) then Insert(messages[0], rest) else rest
  }

  lemma {:induction false} InsertKeepsOrder(m: Message, s: seq<Message>)
    requires Ascending(s) && forall x :: x in s ==> x.id != m.id
    ensures Ascending(Insert(m, s))
    ensures forall x :: x in Insert(m, s) <==> x == m || x in s
  {
    if s == [] {
    } else if Before(CursorOf(m), CursorOf(s[0])) {
      forall j | 0 < j < |s|
        ensures Before(CursorOf(m), CursorOf(s[j]))
      {
        BeforeOrder(CursorOf(m), CursorOf(s[0]), CursorOf(s[j]));
      }
    } else {
      assert s[0] in s;
      BeforeOrder(CursorOf(m), CursorOf(s[0]), CursorOf(m));
      InsertKeepsOrder(m, s[1..]);
      var r := Insert(m, s[1..]);
      assert s == [s[0]] + s[1..];
      forall j | 0 <= j < |r|
        ensures Before(CursorOf(s[0]), CursorOf(r[j]))
      {
        assert r[j] in r;
      }
    }
  }

  lemma {:induction false} SourceFacts(messages: seq<Message>, now: int)
    requires DistinctIds(messages)
    ensures Ascending(Source(messages, now))
    ensures forall x :: x in Source(messages, now) <==> x in messages && Eligible(x, now)
  {
    if messages != [] {
      assert messages == [messages[0]] + messages[1..];
      SourceFacts(messages[1..], now);
      if Eligible(messages[0], now) {
        InsertKeepsOrder(messages[0], Source(messages[1..], now));
      }
    }
  }

  // ---- what is selected, stated message by message ----

  /** The messages after the cursor: by position if the cursor's message is in view, else by time. */
  ghost predicate Unread(source: seq<Message>, cursor: Option<Cursor>, m: Message) {
    cursor.Some? ==>
      if exists x :: x in source && x.id == cursor.value.id then Before(cursor.value, CursorOf(m))
      else m.time > cursor.value.time
  }

  predicate Fresh(cursor: Option<Cursor>, windowStart: int) {
    cursor.Some? && cursor.value.time >= windowStart
  }

  ghost predicate Chosen(source: seq<Message>, cursor: Option<Cursor>, windowStart: int, m: Message) {
    Unread(source, cursor, m) && (Fresh(cursor, windowStart) || m.time >= windowStart)
  }

  ghost function Keep(s: seq<Message>, p: Message -> bool): seq<Message> {
    if s == [] then [] else (if p(s[0]) then [s[0]] else []) + Keep(s[1..], p)
  }

  ghost function Selected(source: seq<Message>, cursor: Option<Cursor>, windowStart: int): seq<Message> {
    Keep(source, m => Chosen(source, cursor, windowStart, m))
  }

  lemma {:induction false} KeepFacts(s: seq<Message>, p: Message -> bool)
    ensures forall x :: x in Keep(s, p) <==> x in s && p(x)
    ensures Ascending(s) ==> Ascending(Keep(s, p))
  {
    if s != [] {
      KeepFacts(s[1..], p);
      assert s == [s[0]] + s[1..];
      if Ascending(s) && p(s[0]) {
        var r := Keep(s[1..], p);
        forall j | 0 <= j < |r|
          ensures Before(CursorOf(s[0]), CursorOf(r[j]))
        {
          assert r[j] in r;
        }
      }
    }
  }

  /** Keeping what holds from position k on is cutting there. */
  lemma {:induction false} KeepSuffix(s: seq<Message>, p: Message -> bool, k: nat)
    requires k <= |s| && forall i :: 0 <= i < |s| ==> (p(s[i]) <==> i >= k)
    ensures Keep(s, p) == s[k..]
  {
    if s != [] {
      KeepSuffix(s[1..], p, if k == 0 then 0 else k - 1);
      assert k > 0 ==> s[k..] == s[1..][k - 1..];
      assert k == 0 ==> s[k..] == [s[0]] + s[1..];
    }
  }

  // ---- the selection as the code computes it ----

  datatype Selection = Selection(batches: seq<seq<Message>>, advance: Option<Cursor>, skippedBefore: bool)

  function Tokens(): Message -> nat { (m: Message) => m.tokens }

  method FirstAtOrAfter(messages: seq<Message>, threshold: int, strict: bool) returns (k: nat)
    ensures k <= |messages|
    ensures forall i :: 0 <= i < k ==> messages[i].time < threshold || (strict && messages[i].time == threshold)
    ensures k < |messages| ==> messages[k].time > threshold || (!strict && messages[k].time == threshold)
  {
    for i := 0 to |messages|
      invariant forall j :: 0 <= j < i ==>
        messages[j].time < threshold || (strict && messages[j].time == threshold)
    {
      if if strict then messages[i].time > threshold else messages[i].time >= threshold {
        return i;
      }
    }
    return |messages|;
  }

  /** An id names one message, also after its message left the view. */
  ghost predicate CursorFits(source: seq<Message>, cursor: Option<Cursor>) {
    cursor.Some? ==> forall m :: m in source && m.id == cursor.value.id ==> m.time == cursor.value.time
  }

  method UnreadStart(messages: seq<Message>, cursor: Option<Cursor>) returns (k: nat)
    requires Ascending(messages) && CursorFits(messages, cursor)
    ensures k <= |messages|
    ensures forall i :: 0 <= i < |messages| ==> (Unread(messages, cursor, messages[i]) <==> i >= k)
  {
    if cursor.None? {
      return 0;
    }
    var c := cursor.value;
    for i := 0 to |messages|
      invariant forall j :: 0 <= j < i ==> messages[j].id != c.id
    {
      if messages[i].id == c.id {
        assert messages[i] in messages && CursorOf(messages[i]) == c;
        forall j | 0 <= j < |messages|
          ensures Before(c, CursorOf(messages[j])) <==> j >= i + 1
        {
          BeforeOrder(c, CursorOf(messages[j]), c);
        }
        return i + 1;
      }
    }
    k := FirstAtOrAfter(messages, c.time, true);
  }

  /** The fewest in-order batches of whole messages within the limit. */
  ghost predicate Batched(batches: seq<seq<Message>>, selected: seq<Message>, limit: int) {
    && IsSplit(batches, selected, Tokens(), limit)
    && forall other :: IsSplit(other, selected, Tokens(), limit) ==> |batches| <= |other|
  }

  ghost predicate LeavesOut(source: seq<Message>, cursor: Option<Cursor>, windowStart: int) {
    exists m :: m in source && Unread(source, cursor, m) && m !in Selected(source, cursor, windowStart)
  }

  /** The selection that the documentation promises, for a view `source` of a session. */
  ghost predicate IsSelection(
    sel: Selection, source: seq<Message>, cursor: Option<Cursor>, windowStart: int, limit: int)
  {
    && Batched(sel.batches, Selected(source, cursor, windowStart), limit)
    && (sel.skippedBefore <==> LeavesOut(source, cursor, windowStart))
    && sel.advance == Advance(source, cursor)
  }

  /** Where the cursor ends: at the newest message in view, unless nothing there is unread. */
  ghost function Advance(source: seq<Message>, cursor: Option<Cursor>): Option<Cursor> {
    if exists m :: m in source && Unread(source, cursor, m) then Some(CursorOf(source[|source| - 1]))
    else cursor
  }

  lemma CutAt(source: seq<Message>, cursor: Option<Cursor>, windowStart: int, start: nat, cut: nat)
    requires start <= cut <= |source|
    requires forall i :: 0 <= i < |source| ==> (Unread(source, cursor, source[i]) <==> i >= start)
    requires forall i :: 0 <= i < |source| ==> (Chosen(source, cursor, windowStart, source[i]) <==> i >= cut)
    requires DistinctIds(source)
    ensures Selected(source, cursor, windowStart) == source[cut..]
    ensures cut > start <==> LeavesOut(source, cursor, windowStart)
    ensures Advance(source, cursor) == if start < |source| then Some(CursorOf(source[|source| - 1])) else cursor
  {
    KeepSuffix(source, m => Chosen(source, cursor, windowStart, m), cut);
    if start < |source| {
      assert source[start] in source && Unread(source, cursor, source[start]);
      if start < cut {
        assert source[start] !in source[cut..];
      }
    }
  }

  lemma AscendingDistinct(s: seq<Message>)
    requires Ascending(s) && forall i, j :: 0 <= i < j < |s| && s[i].id == s[j].id ==> s[i].time == s[j].time
    ensures DistinctIds(s)
  {
    forall i, j | 0 <= i < j < |s|
      ensures s[i].id != s[j].id
    {
      BeforeOrder(CursorOf(s[i]), CursorOf(s[j]), CursorOf(s[i]));
    }
  }

  /** None is an error: a limit or a period that is not positive, or a selected message over the limit. */
  method SelectReviewWindow(
    messages: seq<Message>, cursor: Option<Cursor>, now: int, refresh: int, limit: int)
    returns (r: Option<Selection>)
    requires DistinctIds(messages) && CursorFits(messages, cursor)
    ensures r.None? <==>
      limit <= 0 || refresh <= 0
      || exists m :: m in Selected(Source(messages, now), cursor, now - refresh) && m.tokens > limit
    ensures r.Some? ==> IsSelection(r.value, Source(messages, now), cursor, now - refresh, limit)
  {
    if limit <= 0 || refresh <= 0 {
      return None;
    }
    var source := Source(messages, now);
    SourceFacts(messages, now);
    DistinctInView(messages, now);
    r := SelectFrom(source, cursor, now - refresh, limit);
  }

  /** Where the unread messages start, and where the selected ones do. */
  method SelectedRange(source: seq<Message>, cursor: Option<Cursor>, windowStart: int)
    returns (start: nat, cut: nat)
    requires Ascending(source) && CursorFits(source, cursor)
    ensures start <= cut <= |source|
    ensures forall i :: 0 <= i < |source| ==> (Unread(source, cursor, source[i]) <==> i >= start)
    ensures forall i :: 0 <= i < |source| ==> (Chosen(source, cursor, windowStart, source[i]) <==> i >= cut)
    ensures Fresh(cursor, windowStart) ==> cut == start
  {
    start := UnreadStart(source, cursor);
    cut := start;
    if !Fresh(cursor, windowStart) {
      var first := FirstAtOrAfter(source, windowStart, false);
      cut := if start < first then first else start;
      WindowIsSuffix(source, windowStart, first);
    }
  }

  lemma MakesSelection(
    batches: seq<seq<Message>>, source: seq<Message>, cursor: Option<Cursor>, windowStart: int, limit: int,
    start: nat, cut: nat)
    requires start <= cut <= |source| && DistinctIds(source)
    requires forall i :: 0 <= i < |source| ==> (Unread(source, cursor, source[i]) <==> i >= start)
    requires forall i :: 0 <= i < |source| ==> (Chosen(source, cursor, windowStart, source[i]) <==> i >= cut)
    requires IsSplit(batches, source[cut..], Tokens(), limit) && Tight(batches, Tokens(), limit)
    ensures Selected(source, cursor, windowStart) == source[cut..]
    ensures forall m :: m in source[cut..] ==> m.tokens <= limit
    ensures var advance := if start < |source| then Some(CursorOf(source[|source| - 1])) else cursor;
            IsSelection(Selection(batches, advance, cut > start), source, cursor, windowStart, limit)
  {
    CutAt(source, cursor, windowStart, start, cut);
    MakesBatches(batches, source[cut..], limit);
  }

  lemma MakesBatches(batches: seq<seq<Message>>, selected: seq<Message>, limit: int)
    requires IsSplit(batches, selected, Tokens(), limit) && Tight(batches, Tokens(), limit)
    ensures Batched(batches, selected, limit)
    ensures forall m :: m in selected ==> m.tokens <= limit
  {
    NoneTooLarge(batches, selected, limit);
    TightIsFewest(batches, selected, Tokens(), limit);
  }

  method SelectFrom(source: seq<Message>, cursor: Option<Cursor>, windowStart: int, limit: int)
    returns (r: Option<Selection>)
    requires Ascending(source) && DistinctIds(source) && CursorFits(source, cursor)
    ensures r.None? <==> exists m :: m in Selected(source, cursor, windowStart) && m.tokens > limit
    ensures r.Some? ==> IsSelection(r.value, source, cursor, windowStart, limit)
  {
    var start, cut := SelectedRange(source, cursor, windowStart);
    var selected := source[cut..];
    if selected == [] {
      MakesSelection([], source, cursor, windowStart, limit, start, cut);
      if start >= |source| {
        return Some(Selection([], cursor, false));
      }
      return Some(Selection([], Some(CursorOf(source[|source| - 1])), !Fresh(cursor, windowStart)));
    }
    var batches := Pack(selected, Tokens(), limit);
    if batches.None? {
      CutAt(source, cursor, windowStart, start, cut);
      var m :| m in selected && Tokens()(m) > limit;
      assert m.tokens > limit;
      return None;
    }
    MakesSelection(batches.value, source, cursor, windowStart, limit, start, cut);
    var last := if cut > start then source[|source| - 1] else selected[|selected| - 1];
    return Some(Selection(batches.value, Some(CursorOf(last)), cut > start));
  }

  lemma DistinctInView(messages: seq<Message>, now: int)
    requires DistinctIds(messages)
    ensures DistinctIds(Source(messages, now))
  {
    SourceFacts(messages, now);
    var s := Source(messages, now);
    forall i, j | 0 <= i < j < |s| && s[i].id == s[j].id
      ensures s[i].time == s[j].time
    {
      assert s[i] in messages && s[j] in messages;
    }
    AscendingDistinct(s);
  }

  lemma WindowIsSuffix(source: seq<Message>, windowStart: int, first: nat)
    requires Ascending(source) && first <= |source|
    requires forall i :: 0 <= i < first ==> source[i].time < windowStart
    requires first < |source| ==> source[first].time >= windowStart
    ensures forall i :: 0 <= i < |source| ==> (source[i].time >= windowStart <==> i >= first)
  {
    forall i | first < i < |source|
      ensures source[i].time >= windowStart
    {
      assert Before(CursorOf(source[first]), CursorOf(source[i]));
    }
  }

  lemma {:induction false} NoneTooLarge(batches: seq<seq<Message>>, selected: seq<Message>, limit: int)
    requires IsSplit(batches, selected, Tokens(), limit)
    ensures forall m :: m in selected ==> m.tokens <= limit
  {
    if batches != [] {
      assert batches[0] in batches && forall p :: p in batches[1..] ==> p in batches;
      NoneTooLarge(batches[1..], Flatten(batches[1..]), limit);
      PartWithin(batches[0]);
    }
  }

  lemma {:induction false} PartWithin(s: seq<Message>)
    ensures forall m :: m in s ==> m.tokens <= Total(s, Tokens())
  {
    if s != [] {
      PartWithin(s[1..]);
    }
  }
}
