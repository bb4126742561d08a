/** Review runs: how the cursor of a session moves over any number of runs, with failing batches, and
    which messages are reviewed. */
module ReviewRuns {
  import opened Options
  import opened Batching
  import opened ReviewWindow

  /** What one run sees of one session: the stored messages and perhaps one that is not stored yet. */
  datatype Visit = Visit(stored: seq<Message>, current: Option<Message>, now: int, refresh: int, limit: int)

  function MessagesFor(stored: seq<Message>, current: Option<Message>): seq<Message> {
    if current.Some? && forall m :: m in stored ==> m.id != current.value.id then stored + [current.value]
    else stored
  }

  function View(v: Visit): seq<Message> {
    Source(MessagesFor(v.stored, v.current), v.now)
  }

  ghost function Picked(v: Visit, cursor: Option<Cursor>): seq<Message> {
    Selected(View(v), cursor, v.now - v.refresh)
  }

  /** The selection is refused: the whole run stops there. */
  ghost predicate Fails(v: Visit, cursor: Option<Cursor>) {
    v.limit <= 0 || v.refresh <= 0 || exists m :: m in Picked(v, cursor) && m.tokens > v.limit
  }

  /** The cursor after `k` successful batches. */
  function CursorAfter(sel: Selection, k: nat, before: Option<Cursor>): Option<Cursor>
    requires k <= |sel.batches| && forall b :: b in sel.batches ==> b != []
  {
    if sel.batches == [] then (if sel.advance.None? then before else sel.advance)
    else if k == 0 then before
    else
      var batch := sel.batches[k - 1];
      assert batch in sel.batches;
      Some(CursorOf(batch[|batch| - 1]))
  }

  /** One run's effect on one session: what was in its successful batches, and its cursor. */
  datatype Step = Step(visit: Visit, before: Option<Cursor>, reviewed: seq<Message>, after: Option<Cursor>)

  ghost predicate Reviews(s: Step, sel: Selection, k: nat) {
    && IsSplit(sel.batches, Picked(s.visit, s.before), Tokens(), s.visit.limit)
    && sel.advance == Advance(View(s.visit), s.before)
    && k <= |sel.batches|
    && s.reviewed == Flatten(sel.batches[..k])
    && s.after == CursorAfter(sel, k, s.before)
  }

  ghost predicate IsStep(s: Step) {
    if Fails(s.visit, s.before) then s.reviewed == [] && s.after == s.before
    else exists sel, k: nat :: Reviews(s, sel, k)
  }

  /** Ids are distinct, and an id keeps its time: also when the message is seen before it is stored. */
  ghost predicate Known(v: Visit, cursor: Option<Cursor>, stamp: string -> int) {
    && DistinctIds(v.stored)
    && (forall m :: m in MessagesFor(v.stored, v.current) ==> m.time == stamp(m.id))
    && (cursor.Some? ==> cursor.value.time == stamp(cursor.value.id))
  }

  ghost predicate AtMost(m: Message, cursor: Option<Cursor>) {
    cursor.Some? && !Before(cursor.value, CursorOf(m))
  }

  ghost predicate NotBack(before: Option<Cursor>, after: Option<Cursor>) {
    before.Some? ==> after.Some? && !Before(after.value, before.value)
  }

  lemma ViewFacts(v: Visit, cursor: Option<Cursor>, stamp: string -> int)
    requires Known(v, cursor, stamp)
    ensures DistinctIds(MessagesFor(v.stored, v.current))
    ensures Ascending(View(v)) && DistinctIds(View(v)) && CursorFits(View(v), cursor)
    ensures CursorFits(MessagesFor(v.stored, v.current), cursor)
    ensures forall m :: m in View(v) ==> m.time == stamp(m.id)
  {
    SourceFacts(MessagesFor(v.stored, v.current), v.now);
    DistinctInView(MessagesFor(v.stored, v.current), v.now);
  }

  lemma PickedFacts(v: Visit, cursor: Option<Cursor>)
    requires Ascending(View(v))
    ensures Ascending(Picked(v, cursor))
    ensures forall m :: m in Picked(v, cursor) <==>
              m in View(v) && Chosen(View(v), cursor, v.now - v.refresh, m)
    ensures forall m :: m in Picked(v, cursor) && cursor.Some? ==> Before(cursor.value, CursorOf(m))
  {
    KeepFacts(View(v), m => Chosen(View(v), cursor, v.now - v.refresh, m));
  }

  /** The successful batches are a prefix of the selected messages, and the cursor is its last one. */
  lemma BatchesPrefix(batches: seq<seq<Message>>, k: nat)
    requires k <= |batches| && forall b :: b in batches ==> b != []
    ensures Flatten(batches) == Flatten(batches[..k]) + Flatten(batches[k..])
    ensures k > 0 ==>
      && batches[k - 1] in batches && Flatten(batches[..k]) != []
      && Flatten(batches[..k])[|Flatten(batches[..k])| - 1] == batches[k - 1][|batches[k - 1]| - 1]
  {
    assert batches == batches[..k] + batches[k..];
    FlattenAppend(batches[..k], batches[k..]);
    if k > 0 {
      assert batches[..k] == batches[..k - 1] + [batches[k - 1]];
      FlattenAppend(batches[..k - 1], [batches[k - 1]]);
      FlattenOne(batches[k - 1]);
      assert batches[k - 1] in batches;
    }
  }

  /** What every step keeps. */
  ghost predicate GoodStep(s: Step) {
    && Ascending(s.reviewed)
    && NotBack(s.before, s.after)
    && (forall m :: m in s.reviewed ==> AtMost(m, s.after))
    && (forall m :: m in s.reviewed && s.before.Some? ==> Before(s.before.value, CursorOf(m)))
  }

  lemma AdvanceFacts(source: seq<Message>, cursor: Option<Cursor>)
    requires Ascending(source)
    ensures NotBack(cursor, Advance(source, cursor))
    ensures Advance(source, cursor) == cursor
      || exists m :: m in source && Advance(source, cursor) == Some(CursorOf(m))
  {
    if cursor.Some? {
      BeforeOrder(cursor.value, cursor.value, cursor.value);
    }
    if m :| m in source && Unread(source, cursor, m) {
      var last := source[|source| - 1];
      assert last in source;
      if cursor.Some? {
        var i :| 0 <= i < |source| && source[i] == m;
        BeforeOrder(cursor.value, CursorOf(m), CursorOf(last));
        BeforeOrder(cursor.value, CursorOf(last), CursorOf(m));
      }
    }
  }

  lemma BatchesEnd(sel: Selection, k: nat, before: Option<Cursor>)
    requires k <= |sel.batches| && forall b :: b in sel.batches ==> b != []
    ensures var reviewed, after := Flatten(sel.batches[..k]), CursorAfter(sel, k, before);
      && reviewed <= Flatten(sel.batches)
      && (reviewed != [] ==> after == Some(CursorOf(reviewed[|reviewed| - 1])))
      && (reviewed == [] ==> after == before || (Flatten(sel.batches) == [] && after == sel.advance))
  {
    BatchesPrefix(sel.batches, k);
  }

  /** A step either ends at its last reviewed message, or reviews nothing and moves over what is left out. */
  lemma HowItEnds(s: Step, sel: Selection, k: nat)
    requires Reviews(s, sel, k)
    ensures s.reviewed <= Picked(s.visit, s.before)
    ensures s.reviewed != [] ==> s.after == Some(CursorOf(s.reviewed[|s.reviewed| - 1]))
    ensures s.reviewed == [] ==>
      s.after == s.before || (Picked(s.visit, s.before) == [] && s.after == Advance(View(s.visit), s.before))
  {
    BatchesEnd(sel, k, s.before);
  }

  lemma ReviewedIsGood(s: Step, all: seq<Message>)
    requires Ascending(all) && s.reviewed <= all && s.reviewed != []
    requires s.after == Some(CursorOf(s.reviewed[|s.reviewed| - 1]))
    requires forall m :: m in all && s.before.Some? ==> Before(s.before.value, CursorOf(m))
    ensures GoodStep(s)
  {
    var n := |s.reviewed|;
    forall i | 0 <= i < n
      ensures AtMost(s.reviewed[i], s.after) && s.reviewed[i] == all[i] && all[i] in all
    {
      BeforeOrder(CursorOf(all[i]), CursorOf(all[n - 1]), CursorOf(all[i]));
    }
    if s.before.Some? {
      BeforeOrder(s.before.value, CursorOf(all[n - 1]), s.before.value);
    }
  }

  lemma CursorStaysKnown(s: Step, sel: Selection, k: nat, stamp: string -> int)
    requires Known(s.visit, s.before, stamp) && Reviews(s, sel, k)
    ensures s.after.Some? ==> s.after.value.time == stamp(s.after.value.id)
    ensures GoodStep(s)
  {
    ViewFacts(s.visit, s.before, stamp);
    PickedFacts(s.visit, s.before);
    HowItEnds(s, sel, k);
    if s.reviewed != [] {
      ReviewedIsGood(s, Picked(s.visit, s.before));
      assert s.reviewed[|s.reviewed| - 1] in Picked(s.visit, s.before);
    } else {
      AdvanceFacts(View(s.visit), s.before);
      if s.before.Some? {
        BeforeOrder(s.before.value, s.before.value, s.before.value);
      }
    }
  }

  lemma StepFacts(s: Step, stamp: string -> int)
    requires Known(s.visit, s.before, stamp) && IsStep(s)
    ensures s.after.Some? ==> s.after.value.time == stamp(s.after.value.id)
    ensures GoodStep(s)
  {
    if Fails(s.visit, s.before) {
      if s.before.Some? {
        BeforeOrder(s.before.value, s.before.value, s.before.value);
      }
    } else {
      var sel, k: nat :| Reviews(s, sel, k);
      CursorStaysKnown(s, sel, k, stamp);
    }
  }

  // ---- any number of runs ----

  ghost predicate Chain(steps: seq<Step>, stamp: string -> int) {
    && (forall s :: s in steps ==> IsStep(s) && Known(s.visit, s.before, stamp))
    && (forall i :: 0 < i < |steps| ==> steps[i].before == steps[i - 1].after)
  }

  /** Everything that successful batches of the runs contained, in order. */
  ghost function AllReviewed(steps: seq<Step>): seq<Message> {
    if steps == [] then [] else AllReviewed(steps[..|steps| - 1]) + steps[|steps| - 1].reviewed
  }

  /** Over any runs, the reviewed messages sort strictly upwards, so none is reviewed twice; the cursor
      never moves back, and lies at or after everything reviewed. */
  lemma {:induction false} NothingIsReviewedTwice(steps: seq<Step>, stamp: string -> int)
    requires Chain(steps, stamp) && steps != []
    ensures Ascending(AllReviewed(steps))
    ensures NotBack(steps[0].before, steps[|steps| - 1].after)
    ensures forall m :: m in AllReviewed(steps) ==> AtMost(m, steps[|steps| - 1].after)
    ensures forall m :: m in AllReviewed(steps) && steps[0].before.Some? ==>
              Before(steps[0].before.value, CursorOf(m))
  {
    var n := |steps| - 1;
    var last := steps[n];
    assert last in steps;
    StepFacts(last, stamp);
    if n == 0 {
      assert AllReviewed(steps) == last.reviewed;
    } else {
      var init := steps[..n];
      assert forall s :: s in init ==> s in steps;
      NothingIsReviewedTwice(init, stamp);
      assert last.before == init[n - 1].after;
      NextStep(AllReviewed(init), steps[0].before, last);
    }
  }

  lemma NextStep(earlier: seq<Message>, first: Option<Cursor>, last: Step)
    requires Ascending(earlier) && GoodStep(last) && NotBack(first, last.before)
    requires forall m :: m in earlier ==> AtMost(m, last.before)
    requires forall m :: m in earlier && first.Some? ==> Before(first.value, CursorOf(m))
    ensures Ascending(earlier + last.reviewed)
    ensures NotBack(first, last.after)
    ensures forall m :: m in earlier + last.reviewed ==> AtMost(m, last.after)
    ensures forall m :: m in earlier + last.reviewed && first.Some? ==> Before(first.value, CursorOf(m))
  {
    if last.before.Some? {
      var c, a := last.before.value, last.after.value;
      forall m | m in earlier
        ensures AtMost(m, last.after)
        ensures forall x :: x in last.reviewed ==> Before(CursorOf(m), CursorOf(x))
      {
        BeforeOrder(CursorOf(m), c, a);
        BeforeOrder(a, CursorOf(m), c);
        forall x | x in last.reviewed
          ensures Before(CursorOf(m), CursorOf(x))
        {
          BeforeOrder(CursorOf(m), c, CursorOf(x));
        }
      }
      if first.Some? {
        var f := first.value;
        BeforeOrder(a, f, c);
        BeforeOrder(f, c, a);
        forall x | x in last.reviewed
          ensures Before(f, CursorOf(x))
        {
          BeforeOrder(f, c, CursorOf(x));
        }
      }
    }
    forall i, j | 0 <= i < j < |earlier + last.reviewed|
      ensures Before(CursorOf((earlier + last.reviewed)[i]), CursorOf((earlier + last.reviewed)[j]))
    {
      if i < |earlier| <= j {
        assert earlier[i] in earlier;
        assert last.reviewed[j - |earlier|] in last.reviewed;
      }
    }
  }

  /** The cursor's message is in view, or nothing after it has exactly its time. */
  ghost predicate PositionKnown(source: seq<Message>, cursor: Cursor) {
    || (exists x :: x in source && x.id == cursor.id)
    || (forall m :: m in source && m.time == cursor.time ==> !Before(cursor, CursorOf(m)))
  }

  /** With a fresh cursor everything after it is selected, exactly when its position is known. */
  lemma FreshSelectionIsComplete(v: Visit, c: Cursor, stamp: string -> int)
    requires Known(v, Some(c), stamp) && Fresh(Some(c), v.now - v.refresh)
    ensures PositionKnown(View(v), c) <==>
      forall m :: m in View(v) && Before(c, CursorOf(m)) ==> m in Picked(v, Some(c))
  {
    ViewFacts(v, Some(c), stamp);
    PickedFacts(v, Some(c));
    if !PositionKnown(View(v), c) {
      var m :| m in View(v) && m.time == c.time && Before(c, CursorOf(m));
      assert m !in Picked(v, Some(c));
    }
  }

  /** A fresh cursor whose message is gone: another message of exactly its time is skipped. */
  lemma TiedMessageIsSkipped(t: int)
    ensures var v, c := Visit([Message("b", User, t, 1)], None, t, 1, 10), Cursor("a", t);
      && Known(v, Some(c), _ => t) && Fresh(Some(c), v.now - v.refresh)
      && v.stored[0] in View(v) && Before(c, CursorOf(v.stored[0])) && v.stored[0] !in Picked(v, Some(c))
  {
    var m := Message("b", User, t, 1);
    var v, c := Visit([m], None, t, 1, 10), Cursor("a", t);
    assert v.stored[1..] == [];
    assert Source([], t) == [];
    assert View(v) == [m];
    assert LexLess("a", "b");
    assert !Unread([m], Some(c), m);
    PickedFacts(v, Some(c));
  }

  ghost predicate FreshStep(s: Step) {
    && s.before.Some? && Fresh(s.before, s.visit.now - s.visit.refresh)
    && PositionKnown(View(s.visit), s.before.value)
  }

  /** A run with a fresh cursor reviews every message that its cursor passes. */
  lemma FreshStepMissesNothing(s: Step, m: Message, stamp: string -> int)
    requires Known(s.visit, s.before, stamp) && IsStep(s) && FreshStep(s)
    requires m in View(s.visit) && Before(s.before.value, CursorOf(m)) && AtMost(m, s.after)
    ensures m in s.reviewed
  {
    assert s.after != s.before;
    var sel, k: nat :| Reviews(s, sel, k);
    ViewFacts(s.visit, s.before, stamp);
    FreshSelectionIsComplete(s.visit, s.before.value, stamp);
    PickedFacts(s.visit, s.before);
    HowItEnds(s, sel, k);
    InPrefix(Picked(s.visit, s.before), s.reviewed, m);
  }

  lemma InPrefix(all: seq<Message>, some: seq<Message>, m: Message)
    requires Ascending(all) && some <= all && some != [] && m in all
    requires !Before(CursorOf(some[|some| - 1]), CursorOf(m))
    ensures m in some
  {
    var i :| 0 <= i < |all| && all[i] == m;
    assert some[|some| - 1] == all[|some| - 1];
    assert i < |some|;
    assert some[i] == m;
  }

  /** A message that a run did not see, and a later run does, sorts after the earlier run's cursor. */
  ghost predicate ArriveInOrder(steps: seq<Step>) {
    forall i, j, m :: 0 <= i < j < |steps| && m in View(steps[j].visit) && AtMost(m, steps[i].after) ==>
      m in View(steps[i].visit)
  }

  // ---- a growing list of messages ----

  /** Messages stay in view. */
  ghost predicate ViewsGrow(steps: seq<Step>) {
    forall i, j, m :: 0 <= i < j < |steps| && m in View(steps[i].visit) ==> m in View(steps[j].visit)
  }

  ghost predicate CursorInView(source: seq<Message>, cursor: Option<Cursor>) {
    cursor.Some? && exists x :: x in source && x.id == cursor.value.id
  }

  ghost predicate FreshCursor(s: Step) {
    s.before.Some? && Fresh(s.before, s.visit.now - s.visit.refresh)
  }

  lemma CursorComesFromView(s: Step, stamp: string -> int)
    requires Known(s.visit, s.before, stamp) && IsStep(s)
    ensures s.after == s.before || exists m :: m in View(s.visit) && s.after == Some(CursorOf(m))
  {
    if !Fails(s.visit, s.before) {
      var sel, k: nat :| Reviews(s, sel, k);
      ViewFacts(s.visit, s.before, stamp);
      PickedFacts(s.visit, s.before);
      HowItEnds(s, sel, k);
      AdvanceFacts(View(s.visit), s.before);
      if s.reviewed != [] {
        assert s.reviewed[|s.reviewed| - 1] in Picked(s.visit, s.before);
      }
    }
  }

  lemma NextCursorInView(s: Step, next: seq<Message>, stamp: string -> int)
    requires Known(s.visit, s.before, stamp) && IsStep(s)
    requires CursorInView(View(s.visit), s.before) && forall m :: m in View(s.visit) ==> m in next
    ensures CursorInView(next, s.after)
  {
    CursorComesFromView(s, stamp);
    if s.after == s.before {
      var x :| x in View(s.visit) && x.id == s.before.value.id;
      assert x in next;
    } else {
      var m :| m in View(s.visit) && s.after == Some(CursorOf(m));
      assert m in next && m.id == s.after.value.id;
    }
  }

  /** While messages stay in view, so does the message of the cursor. */
  lemma {:induction false} CursorStaysInView(steps: seq<Step>, k: nat, stamp: string -> int)
    requires Chain(steps, stamp) && ViewsGrow(steps) && k < |steps|
    requires CursorInView(View(steps[0].visit), steps[0].before)
    ensures CursorInView(View(steps[k].visit), steps[k].before)
  {
    if k > 0 {
      CursorStaysInView(steps, k - 1, stamp);
      assert steps[k - 1] in steps;
      NextCursorInView(steps[k - 1], View(steps[k].visit), stamp);
    }
  }

  /** While messages stay in view, arrive in order and the cursor is fresh, every message that the cursor
      passed was reviewed in some run. */
  lemma FreshRunsMissNothing(steps: seq<Step>, m: Message, stamp: string -> int)
    requires Chain(steps, stamp) && steps != [] && ViewsGrow(steps) && ArriveInOrder(steps)
    requires forall s :: s in steps ==> FreshCursor(s)
    requires CursorInView(View(steps[0].visit), steps[0].before)
    requires m in View(steps[|steps| - 1].visit)
    requires Before(steps[0].before.value, CursorOf(m)) && AtMost(m, steps[|steps| - 1].after)
    ensures m in AllReviewed(steps)
  {
    forall s | s in steps
      ensures FreshStep(s)
    {
      var k: nat :| k < |steps| && steps[k] == s;
      CursorStaysInView(steps, k, stamp);
    }
    KnownPositionsMissNothing(steps, m, stamp);
  }

  lemma EarlierRuns(steps: seq<Step>, n: nat, stamp: string -> int)
    requires Chain(steps, stamp) && ArriveInOrder(steps) && n <= |steps|
    requires forall s :: s in steps ==> FreshStep(s)
    ensures Chain(steps[..n], stamp) && ArriveInOrder(steps[..n])
    ensures forall s :: s in steps[..n] ==> FreshStep(s)
  {
    var init := steps[..n];
    forall i, j, m | 0 <= i < j < n && m in View(init[j].visit) && AtMost(m, init[i].after)
      ensures m in View(init[i].visit)
    {
      assert init[i] == steps[i] && init[j] == steps[j];
    }
  }

  /** The same for any lists, where the position of every run's cursor is known. */
  lemma {:induction false} KnownPositionsMissNothing(steps: seq<Step>, m: Message, stamp: string -> int)
    requires Chain(steps, stamp) && steps != [] && ArriveInOrder(steps)
    requires forall s :: s in steps ==> FreshStep(s)
    requires m in View(steps[|steps| - 1].visit)
    requires steps[0].before.Some? && Before(steps[0].before.value, CursorOf(m))
    requires AtMost(m, steps[|steps| - 1].after)
    ensures m in AllReviewed(steps)
  {
    var n := |steps| - 1;
    var last := steps[n];
    assert last in steps;
    if Before(last.before.value, CursorOf(m)) {
      FreshStepMissesNothing(last, m, stamp);
    } else {
      assert n > 0;
      assert AtMost(m, steps[n - 1].after);
      assert m in View(steps[n - 1].visit);
      EarlierRuns(steps, n, stamp);
      KnownPositionsMissNothing(steps[..n], m, stamp);
    }
  }
}
