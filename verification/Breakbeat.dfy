/** The periodic review over all sessions: one cursor a session, moved batch by batch. */
module Breakbeat {
  import opened Options
  import opened Batching
  import opened ReviewWindow
  import opened ReviewRuns

  datatype Session = Session(id: string, archived: bool, visit: Visit)

  /** How the review of a batch ends: with its actions applied, with a failure that is counted, or with an
      exception that ends the run. */
  datatype BatchResult = Succeeds | Fails | Raises

  /** The first `k` batches of `n` succeed, and the next one, if there is one, does not. */
  ghost predicate UpTo(results: nat -> BatchResult, k: nat, n: nat) {
    && k <= n && (forall i: nat :: i < k ==> results(i).Succeeds?)
    && (k < n ==> !results(k).Succeeds?)
  }

  /** A step whose batches, the fewest within the limit, ended so: those before the first that did not succeed
      count, and `broken` tells whether that one raised. */
  ghost predicate Ended(s: Step, results: nat -> BatchResult, broken: bool) {
    !ReviewRuns.Fails(s.visit, s.before) && exists sel, k: nat :: EndedAt(s, results, broken, sel, k)
  }

  ghost predicate EndedAt(s: Step, results: nat -> BatchResult, broken: bool, sel: Selection, k: nat) {
    && Reviews(s, sel, k) && Batched(sel.batches, Picked(s.visit, s.before), s.visit.limit)
    && UpTo(results, k, |sel.batches|)
    && (broken <==> k < |sel.batches| && results(k).Raises?)
  }

  lemma EndedIsStep(s: Step, results: nat -> BatchResult, broken: bool)
    requires Ended(s, results, broken)
    ensures IsStep(s)
  {
    var sel, k: nat :| EndedAt(s, results, broken, sel, k);
    assert Reviews(s, sel, k);
  }

  datatype SessionEnd = Reviewed | Refused | Broken

  ghost predicate DistinctSessions(sessions: seq<Session>) {
    forall i, j :: 0 <= i < j < |sessions| ==> sessions[i].id != sessions[j].id
  }

  function CursorIn(cursors: map<string, Cursor>, session: string): Option<Cursor> {
    if session in cursors then Some(cursors[session]) else None
  }

  /** The session took one step between the two sets of cursors. */
  ghost predicate Stepped(
    s: Session, results: nat -> BatchResult, broken: bool, before: map<string, Cursor>, after: map<string, Cursor>,
    reviewed: map<string, seq<Message>>)
  {
    && !s.archived && s.id in reviewed
    && Ended(Step(s.visit, CursorIn(before, s.id), reviewed[s.id], CursorIn(after, s.id)), results, broken)
  }

  type Results = string -> nat -> BatchResult

  /** The first `done` sessions are through, of which the last is broken or none is; nothing else has changed. */
  ghost predicate Through(
    sessions: seq<Session>, results: Results, done: nat, broken: bool, before: map<string, Cursor>,
    after: map<string, Cursor>, reviewed: map<string, seq<Message>>)
    requires done <= |sessions|
  {
    && (forall i :: 0 <= i < done ==> PassedAt(sessions[i], results, broken && i == done - 1, before, after, reviewed))
    && (forall id :: id in reviewed ==> AmongFirst(sessions, done, id))
    && (forall id :: id !in reviewed ==> CursorIn(after, id) == CursorIn(before, id))
  }

  ghost predicate PassedAt(
    s: Session, results: Results, broken: bool, before: map<string, Cursor>, after: map<string, Cursor>,
    reviewed: map<string, seq<Message>>)
  {
    if s.archived then !broken else Stepped(s, results(s.id), broken, before, after, reviewed)
  }

  ghost predicate AmongFirst(sessions: seq<Session>, done: nat, id: string)
    requires done <= |sessions|
  {
    exists i :: 0 <= i < done && sessions[i].id == id && !sessions[i].archived
  }

  lemma NotAmongFirst(sessions: seq<Session>, done: nat)
    requires DistinctSessions(sessions) && done < |sessions|
    ensures !AmongFirst(sessions, done, sessions[done].id)
  {
  }

  lemma ThroughOne(
    sessions: seq<Session>, results: Results, done: nat, broken: bool, before: map<string, Cursor>,
    mid: map<string, Cursor>, after: map<string, Cursor>, reviewed: map<string, seq<Message>>,
    messages: seq<Message>)
    requires DistinctSessions(sessions) && done < |sessions| && !sessions[done].archived
    requires Through(sessions, results, done, false, before, mid, reviewed)
    requires var s := sessions[done];
      && Ended(Step(s.visit, CursorIn(mid, s.id), messages, CursorIn(after, s.id)), results(s.id), broken)
      && forall id :: id != s.id ==> CursorIn(after, id) == CursorIn(mid, id)
    ensures Through(sessions, results, done + 1, broken, before, after, reviewed[sessions[done].id := messages])
  {
    var s, reviewed' := sessions[done], reviewed[sessions[done].id := messages];
    NotAmongFirst(sessions, done);
    assert s.id !in reviewed;
    forall i | 0 <= i < done + 1
      ensures PassedAt(sessions[i], results, broken && i == done, before, after, reviewed')
    {
      if i < done {
        StillPassed(sessions[i], results, before, mid, after, reviewed, s.id, messages);
      }
    }
    forall id | id in reviewed'
      ensures AmongFirst(sessions, done + 1, id)
    {
      OneMoreAmong(sessions, done, id);
    }
  }

  lemma StillPassed(
    s: Session, results: Results, before: map<string, Cursor>, mid: map<string, Cursor>,
    after: map<string, Cursor>, reviewed: map<string, seq<Message>>, next: string, messages: seq<Message>)
    requires PassedAt(s, results, false, before, mid, reviewed) && s.id != next
    requires CursorIn(after, s.id) == CursorIn(mid, s.id)
    ensures PassedAt(s, results, false, before, after, reviewed[next := messages])
  {
  }

  lemma OneMoreAmong(sessions: seq<Session>, done: nat, id: string)
    requires done < |sessions|
    ensures AmongFirst(sessions, done + 1, id)
      <==> AmongFirst(sessions, done, id) || (sessions[done].id == id && !sessions[done].archived)
  {
  }

  lemma ThroughArchived(
    sessions: seq<Session>, results: Results, done: nat, before: map<string, Cursor>, after: map<string, Cursor>,
    reviewed: map<string, seq<Message>>)
    requires done < |sessions| && sessions[done].archived
    requires Through(sessions, results, done, false, before, after, reviewed)
    ensures Through(sessions, results, done + 1, false, before, after, reviewed)
  {
    forall id | id in reviewed
      ensures AmongFirst(sessions, done + 1, id)
    {
      assert AmongFirst(sessions, done, id);
      var i :| 0 <= i < done && sessions[i].id == id && !sessions[i].archived;
    }
  }

  class BreakbeatManager {
    var cursors: map<string, Cursor>

    function CursorFor(session: string): Option<Cursor>
      reads this
    {
      CursorIn(cursors, session)
    }

    method AdvanceCursor(session: string, cursor: Option<Cursor>)
      modifies this
      ensures CursorFor(session) == if cursor.None? then old(CursorFor(session)) else cursor
      ensures forall s :: s != session ==> CursorIn(cursors, s) == CursorIn(old(cursors), s)
    {
      if cursor.Some? {
        cursors := cursors[session := cursor.value];
      }
    }

    /** Reviews the batches in order up to the first that does not succeed. */
    method ReviewSelection(session: string, sel: Selection, results: nat -> BatchResult)
      returns (successes: nat, raised: bool)
      requires forall b :: b in sel.batches ==> b != []
      modifies this
      ensures successes <= |sel.batches|
      ensures forall i: nat :: i < successes ==> results(i).Succeeds?
      ensures successes < |sel.batches| ==> !results(successes).Succeeds?
      ensures raised <==> successes < |sel.batches| && results(successes).Raises?
      ensures CursorFor(session) == CursorAfter(sel, successes, old(CursorFor(session)))
      ensures forall s :: s != session ==> CursorIn(cursors, s) == CursorIn(old(cursors), s)
    {
      if |sel.batches| == 0 {
        AdvanceCursor(session, sel.advance);
        return 0, false;
      }
      successes := 0;
      while successes < |sel.batches| && results(successes).Succeeds?
        invariant successes <= |sel.batches|
        invariant forall i: nat :: i < successes ==> results(i).Succeeds?
        invariant CursorFor(session) == CursorAfter(sel, successes, old(CursorFor(session)))
        invariant forall s :: s != session ==> CursorIn(cursors, s) == CursorIn(old(cursors), s)
      {
        var batch := sel.batches[successes];
        assert batch in sel.batches;
        AdvanceCursor(session, Some(CursorOf(batch[|batch| - 1])));
        successes := successes + 1;
      }
      raised := successes < |sel.batches| && results(successes).Raises?;
    }

    /** One session's part of a run: a step, unless the selection is refused. */
    method ReviewSession(s: Session, results: nat -> BatchResult, ghost stamp: string -> int)
      returns (end: SessionEnd, ghost reviewed: seq<Message>)
      requires Known(s.visit, CursorFor(s.id), stamp)
      modifies this
      ensures end.Refused? <==> ReviewRuns.Fails(s.visit, old(CursorFor(s.id)))
      ensures end.Refused? ==> CursorFor(s.id) == old(CursorFor(s.id))
      ensures !end.Refused? ==>
        Ended(Step(s.visit, old(CursorFor(s.id)), reviewed, CursorFor(s.id)), results, end.Broken?)
      ensures forall id :: id != s.id ==> CursorIn(cursors, id) == CursorIn(old(cursors), id)
    {
      var v, before := s.visit, CursorFor(s.id);
      ViewFacts(v, before, stamp);
      var messages := MessagesFor(v.stored, v.current);
      var selection := SelectReviewWindow(messages, before, v.now, v.refresh, v.limit);
      reviewed := [];
      if selection.None? {
        return Refused, [];
      }
      var sel := selection.value;
      assert IsSplit(sel.batches, Picked(v, before), Tokens(), v.limit);
      var successes, raised := ReviewSelection(s.id, sel, results);
      reviewed := Flatten(sel.batches[..successes]);
      assert EndedAt(Step(v, before, reviewed, CursorFor(s.id)), results, raised, sel, successes);
      end := if raised then Broken else Reviewed;
    }

    /** A run over the listed sessions: those before `end` are through. It stops there when a selection was
        refused, or when a batch raised an error, in which case the session had its step. `reviewed` holds
        what each session's successful batches contained. */
    method Run(sessions: seq<Session>, results: Results, ghost stamp: string -> int)
      returns (end: nat, broken: bool, ghost reviewed: map<string, seq<Message>>)
      requires DistinctSessions(sessions)
      requires forall s :: s in sessions ==> Known(s.visit, CursorFor(s.id), stamp)
      modifies this
      ensures end <= |sessions| && Through(sessions, results, end, broken, old(cursors), cursors, reviewed)
      ensures broken ==> end > 0
      ensures !broken && end < |sessions| ==>
        !sessions[end].archived && ReviewRuns.Fails(sessions[end].visit, old(CursorFor(sessions[end].id)))
    {
      end, broken, reviewed := 0, false, map[];
      while end < |sessions|
        invariant end <= |sessions| && !broken
        invariant Through(sessions, results, end, false, old(cursors), cursors, reviewed)
      {
        assert sessions[end] in sessions;
        var how, next := NextSession(sessions, end, results, stamp, old(cursors), reviewed);
        if how.Refused? {
          return;
        }
        end, reviewed := end + 1, next;
        if how.Broken? {
          return end, true, reviewed;
        }
      }
    }

    /** Goes through one more session, unless its selection is refused. */
    method NextSession(
      sessions: seq<Session>, done: nat, results: Results, ghost stamp: string -> int,
      ghost before: map<string, Cursor>, ghost reviewed: map<string, seq<Message>>)
      returns (how: SessionEnd, ghost next: map<string, seq<Message>>)
      requires DistinctSessions(sessions) && done < |sessions|
      requires Through(sessions, results, done, false, before, cursors, reviewed)
      requires Known(sessions[done].visit, CursorIn(before, sessions[done].id), stamp)
      modifies this
      ensures how.Refused? ==>
        && Through(sessions, results, done, false, before, cursors, reviewed) && !sessions[done].archived
        && ReviewRuns.Fails(sessions[done].visit, CursorIn(before, sessions[done].id))
      ensures !how.Refused? ==> Through(sessions, results, done + 1, how.Broken?, before, cursors, next)
    {
      var s := sessions[done];
      if s.archived {
        ThroughArchived(sessions, results, done, before, cursors, reviewed);
        return Reviewed, reviewed;
      }
      NotAmongFirst(sessions, done);
      assert s.id !in reviewed && CursorFor(s.id) == CursorIn(before, s.id);
      ghost var mid := cursors;
      ghost var messages;
      how, messages := ReviewSession(s, results(s.id), stamp);
      next := reviewed[s.id := messages];
      if how.Refused? {
        assert CursorFor(s.id) == CursorIn(mid, s.id);
        SameCursors(sessions, results, done, before, mid, cursors, reviewed);
      } else {
        ThroughOne(sessions, results, done, how.Broken?, before, mid, cursors, reviewed, messages);
      }
    }
  }

  lemma SameCursors(
    sessions: seq<Session>, results: Results, done: nat, before: map<string, Cursor>, mid: map<string, Cursor>,
    after: map<string, Cursor>, reviewed: map<string, seq<Message>>)
    requires done <= |sessions| && Through(sessions, results, done, false, before, mid, reviewed)
    requires forall id :: CursorIn(after, id) == CursorIn(mid, id)
    ensures Through(sessions, results, done, false, before, after, reviewed)
  {
    forall i | 0 <= i < done
      ensures PassedAt(sessions[i], results, false, before, after, reviewed)
    {
      assert PassedAt(sessions[i], results, false, before, mid, reviewed);
    }
  }
}
