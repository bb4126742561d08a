/** What a review selects and where it leaves the cursor, in the terms of a reader of the documentation. */
module ReviewLaws {
  import opened Options
  import opened Batching
  import opened ReviewWindow
  import opened ReviewRuns
  import opened Breakbeat

  /** The messages of users and assistants up to now, the unsaved one among them unless it is stored by now. */
  ghost predicate Seen(v: Visit, m: Message) {
    && (m in v.stored || (v.current == Some(m) && forall x :: x in v.stored ==> x.id != m.id))
    && (m.role == User || m.role == Assistant) && m.time <= v.now
  }

  lemma SeenIsView(v: Visit, cursor: Option<Cursor>, stamp: string -> int, m: Message)
    requires Known(v, cursor, stamp)
    ensures m in View(v) <==> Seen(v, m)
  {
    ViewFacts(v, cursor, stamp);
    SourceFacts(MessagesFor(v.stored, v.current), v.now);
  }

  /** What lies after a cursor: by time and id while its message is seen, by time alone when it is gone. */
  ghost predicate NewTo(v: Visit, c: Cursor, m: Message) {
    || m.time > c.time
    || (m.time == c.time && LexLess(c.id, m.id) && exists x :: Seen(v, x) && x.id == c.id)
  }

  /** A message is selected when it is seen, new to the cursor, and inside the period of the review; a cursor inside
      the period takes in all that is new to it. */
  lemma SelectedExactly(v: Visit, cursor: Option<Cursor>, stamp: string -> int, m: Message)
    requires Known(v, cursor, stamp)
    ensures m in Picked(v, cursor) <==>
      && Seen(v, m) && (cursor.Some? ==> NewTo(v, cursor.value, m))
      && (m.time >= v.now - v.refresh || (cursor.Some? && cursor.value.time >= v.now - v.refresh))
  {
    ViewFacts(v, cursor, stamp);
    PickedFacts(v, cursor);
    forall x
      ensures x in View(v) <==> Seen(v, x)
    {
      SeenIsView(v, cursor, stamp, x);
    }
  }

  /** The newest message seen. */
  ghost predicate Newest(v: Visit, c: Cursor) {
    && (exists m :: Seen(v, m) && CursorOf(m) == c)
    && forall m :: Seen(v, m) ==> !Before(c, CursorOf(m))
  }

  ghost predicate AnyNew(v: Visit, cursor: Option<Cursor>) {
    exists m :: Seen(v, m) && (cursor.Some? ==> NewTo(v, cursor.value, m))
  }

  lemma LastIsNewest(v: Visit, cursor: Option<Cursor>, stamp: string -> int)
    requires Known(v, cursor, stamp) && View(v) != []
    ensures Newest(v, CursorOf(View(v)[|View(v)| - 1]))
  {
    ViewFacts(v, cursor, stamp);
    var source := View(v);
    var last := source[|source| - 1];
    assert last in source;
    SeenIsView(v, cursor, stamp, last);
    forall m | Seen(v, m)
      ensures !Before(CursorOf(last), CursorOf(m))
    {
      SeenIsView(v, cursor, stamp, m);
      var i :| 0 <= i < |source| && source[i] == m;
      BeforeOrder(CursorOf(m), CursorOf(last), CursorOf(m));
    }
  }

  lemma AdvanceIsNewest(v: Visit, cursor: Option<Cursor>, stamp: string -> int)
    requires Known(v, cursor, stamp)
    ensures var a := Advance(View(v), cursor);
      if AnyNew(v, cursor) then a.Some? && Newest(v, a.value) else a == cursor
  {
    ViewFacts(v, cursor, stamp);
    forall m
      ensures m in View(v) <==> Seen(v, m)
    {
      SeenIsView(v, cursor, stamp, m);
    }
    if AnyNew(v, cursor) {
      LastIsNewest(v, cursor, stamp);
    }
  }

  /** Nothing selected: the cursor moves to the newest message seen, unless none is new. */
  lemma EmptySelectionMovesOn(s: Step, results: nat -> BatchResult, broken: bool, stamp: string -> int)
    requires Known(s.visit, s.before, stamp) && Ended(s, results, broken) && Picked(s.visit, s.before) == []
    ensures s.reviewed == [] && !broken
    ensures if AnyNew(s.visit, s.before) then s.after.Some? && Newest(s.visit, s.after.value) else s.after == s.before
  {
    var sel, k: nat :| EndedAt(s, results, broken, sel, k);
    assert IsSplit([], Picked(s.visit, s.before), Tokens(), s.visit.limit);
    AdvanceIsNewest(s.visit, s.before, stamp);
  }

  lemma LastPickedIsNewest(v: Visit, cursor: Option<Cursor>, stamp: string -> int)
    requires Known(v, cursor, stamp) && Picked(v, cursor) != []
    ensures var p := Picked(v, cursor); Newest(v, CursorOf(p[|p| - 1]))
  {
    ViewFacts(v, cursor, stamp);
    PickedFacts(v, cursor);
    LastIsNewest(v, cursor, stamp);
    var p, source := Picked(v, cursor), View(v);
    var m, last := p[|p| - 1], source[|source| - 1];
    assert m in p && last in source;
    var i :| 0 <= i < |source| && source[i] == m;
    if m != last {
      SeenIsView(v, cursor, stamp, last);
      LaterIsPicked(v, cursor, m, last, stamp);
      var j :| 0 <= j < |p| && p[j] == last;
      BeforeOrder(CursorOf(m), CursorOf(last), CursorOf(m));
    }
  }

  lemma LaterIsPicked(v: Visit, cursor: Option<Cursor>, m: Message, later: Message, stamp: string -> int)
    requires Known(v, cursor, stamp) && m in Picked(v, cursor) && Seen(v, later)
    requires Before(CursorOf(m), CursorOf(later))
    ensures later in Picked(v, cursor)
  {
    SelectedExactly(v, cursor, stamp, m);
    SelectedExactly(v, cursor, stamp, later);
    if cursor.Some? && later.time == cursor.value.time {
      LexLessOrder(cursor.value.id, m.id, later.id);
    }
  }

  /** All batches succeed: exactly the selected messages were reviewed, and the cursor is at the newest message
      seen. */
  lemma SuccessReviewsAll(s: Step, results: nat -> BatchResult, broken: bool, stamp: string -> int)
    requires Known(s.visit, s.before, stamp) && Ended(s, results, broken)
    requires Picked(s.visit, s.before) != [] && forall k: nat :: results(k).Succeeds?
    ensures s.reviewed == Picked(s.visit, s.before) && !broken
    ensures s.after.Some? && Newest(s.visit, s.after.value)
  {
    AllBatchesEnd(s, results, broken);
    LastPickedIsNewest(s.visit, s.before, stamp);
  }

  lemma HowItEnded(s: Step, results: nat -> BatchResult, broken: bool) returns (sel: Selection, k: nat)
    requires Ended(s, results, broken)
    ensures Reviews(s, sel, k) && UpTo(results, k, |sel.batches|)
    ensures broken <==> k < |sel.batches| && results(k).Raises?
  {
    sel, k :| EndedAt(s, results, broken, sel, k);
  }

  lemma AllBatchesEnd(s: Step, results: nat -> BatchResult, broken: bool)
    requires Ended(s, results, broken)
    requires Picked(s.visit, s.before) != [] && forall k: nat :: results(k).Succeeds?
    ensures s.reviewed == Picked(s.visit, s.before) && !broken
    ensures s.after == Some(CursorOf(s.reviewed[|s.reviewed| - 1]))
  {
    var sel, k := HowItEnded(s, results, broken);
    assert k == |sel.batches|;
    AllBatches(s, sel);
    HowItEnds(s, sel, k);
  }

  lemma AllBatches(s: Step, sel: Selection)
    requires Reviews(s, sel, |sel.batches|)
    ensures s.reviewed == Picked(s.visit, s.before)
  {
    assert sel.batches[..|sel.batches|] == sel.batches;
  }

  /** The first batch does not succeed: nothing counts as reviewed, and the cursor stays. */
  lemma FailureKeepsTheCursor(s: Step, results: nat -> BatchResult, broken: bool)
    requires Ended(s, results, broken) && Picked(s.visit, s.before) != [] && !results(0).Succeeds?
    ensures s.reviewed == [] && s.after == s.before && (broken <==> results(0).Raises?)
  {
    var sel, k := HowItEnded(s, results, broken);
    assert k == 0 && sel.batches[..0] == [];
  }
}
