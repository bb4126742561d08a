/** Greedy batching: items are packed in order into pieces whose total size stays within a limit.
    The loop is shared by review batches and text chunks; it loses nothing and uses the fewest pieces. */
module Batching {
  import opened Options

  function Total<T>(items: seq<T>, size: T -> nat): (r: nat) {
    if items == [] then 0 else size(items[0]) + Total(items[1..], size)
  }

  function Flatten<T>(pieces: seq<seq<T>>): (r: seq<T>) {
    if pieces == [] then [] else pieces[0] + Flatten(pieces[1..])
  }

  /** An in-order split of the items into non-empty pieces within the limit. */
  ghost predicate IsSplit<T(!new)>(pieces: seq<seq<T>>, items: seq<T>, size: T -> nat, limit: int) {
    && Flatten(pieces) == items
    && forall p :: p in pieces ==> p != [] && Total(p, size) <= limit
  }

  /** No piece could have taken in the first item of the piece after it. */
  ghost predicate Tight<T(!new)>(pieces: seq<seq<T>>, size: T -> nat, limit: int) {
    forall k :: 0 <= k < |pieces| - 1 && pieces[k + 1] != [] ==>
      Total(pieces[k], size) + size(pieces[k + 1][0]) > limit
  }

  lemma {:induction false} TotalAppend<T>(a: seq<T>, b: seq<T>, size: T -> nat)
    ensures Total(a + b, size) == Total(a, size) + Total(b, size)
  {
    if a == [] {
      assert a + b == b;
    } else {
      assert (a + b)[1..] == a[1..] + b;
      TotalAppend(a[1..], b, size);
    }
  }

  lemma {:induction false} FlattenAppend<T>(a: seq<seq<T>>, b: seq<seq<T>>)
    ensures Flatten(a + b) == Flatten(a) + Flatten(b)
  {
    if a == [] {
      assert a + b == b;
    } else {
      assert (a + b)[1..] == a[1..] + b;
      FlattenAppend(a[1..], b);
    }
  }

  lemma FlattenOne<T>(p: seq<T>)
    ensures Flatten([p]) == p
  {
    assert Flatten([p]) == p + Flatten<T>([]);
  }

  /** Adding an item to the last of the pieces. */
  lemma FlattenGrow<T>(pieces: seq<seq<T>>, last: seq<T>, x: T)
    ensures Flatten(pieces + [last]) + [x] == Flatten(pieces + [last + [x]])
  {
    FlattenAppend(pieces, [last]);
    FlattenAppend(pieces, [last + [x]]);
    FlattenOne(last);
    FlattenOne(last + [x]);
  }

  lemma SplitAt<T>(t: seq<T>, rest: seq<T>, reach: seq<T>, more: seq<T>)
    requires t + rest == reach + more
    ensures |t| <= |reach| ==> rest == reach[|t|..] + more
    ensures |t| > |reach| ==> more != [] && t == reach + [more[0]] + t[|reach| + 1..]
  {
    var all := t + rest;
    if |t| <= |reach| {
      assert rest == all[|t|..] == (reach + more)[|t|..] == reach[|t|..] + more;
    } else {
      assert more == all[|reach|..];
      assert more[0] == all[|reach|] == t[|reach|];
      assert t == all[..|t|];
      assert reach == all[..|reach|] == t[..|reach|];
    }
  }

  lemma Overfull<T>(ahead: seq<T>, p: seq<T>, x: T, more: seq<T>, size: T -> nat)
    ensures Total(ahead + p + [x] + more, size) >= Total(p, size) + size(x)
  {
    TotalAppend(ahead + p + [x], more, size);
    TotalAppend(ahead + p, [x], size);
    TotalAppend(ahead, p, size);
    assert Total([x], size) == size(x);
  }

  /** A tight split is ahead of every other one: if it starts `|ahead|` items further, it needs no more
      pieces. */
  lemma {:induction false} TightStaysAhead<T(!new)>(
    tight: seq<seq<T>>, other: seq<seq<T>>, ahead: seq<T>, size: T -> nat, limit: int)
    requires Tight(tight, size, limit) && forall p :: p in tight ==> p != []
    requires forall p :: p in other ==> Total(p, size) <= limit
    requires Flatten(other) == ahead + Flatten(tight)
    ensures |tight| <= |other|
  {
    if tight != [] {
      var p, t := tight[0], if other == [] then [] else other[0];
      assert p in tight && |Flatten(other)| > 0;
      var reach := ahead + p;
      assert t + Flatten(other[1..]) == reach + Flatten(tight[1..]);
      SplitAt(t, Flatten(other[1..]), reach, Flatten(tight[1..]));
      assert forall q :: q in tight[1..] ==> q in tight;
      if |t| > |reach| {
        assert tight[1] in tight[1..];
        Overfull(ahead, p, tight[1][0], t[|reach| + 1..], size);
      }
      assert t in other;
      assert forall k :: 0 <= k < |tight[1..]| ==> tight[1..][k] == tight[k + 1];
      TightStaysAhead(tight[1..], other[1..], reach[|t|..], size, limit);
    }
  }

  lemma TightIsFewest<T(!new)>(tight: seq<seq<T>>, items: seq<T>, size: T -> nat, limit: int)
    requires IsSplit(tight, items, size, limit) && Tight(tight, size, limit)
    ensures forall other :: IsSplit(other, items, size, limit) ==> |tight| <= |other|
  {
    forall other | IsSplit(other, items, size, limit)
      ensures |tight| <= |other|
    {
      TightStaysAhead(tight, other, [], size, limit);
    }
  }

  lemma AnotherPiece<T(!new)>(pieces: seq<seq<T>>, last: seq<T>, x: T, size: T -> nat, limit: int)
    requires Tight(pieces + [last], size, limit) && last != []
    requires Total(last, size) + size(x) > limit
    ensures Tight(pieces + [last] + [[x]], size, limit)
  {
    var all := pieces + [last] + [[x]];
    forall k | 0 <= k < |all| - 1 && all[k + 1] != []
      ensures Total(all[k], size) + size(all[k + 1][0]) > limit
    {
      if k < |pieces| {
        assert all[k] == (pieces + [last])[k] && all[k + 1] == (pieces + [last])[k + 1];
      }
    }
  }

  lemma LargerPiece<T(!new)>(pieces: seq<seq<T>>, last: seq<T>, x: T, size: T -> nat, limit: int)
    requires Tight(pieces + [last], size, limit) && last != []
    ensures Tight(pieces + [last + [x]], size, limit)
  {
    var all, was := pieces + [last + [x]], pieces + [last];
    forall k | 0 <= k < |all| - 1 && all[k + 1] != []
      ensures Total(all[k], size) + size(all[k + 1][0]) > limit
    {
      assert all[k] == was[k] && all[k + 1][0] == was[k + 1][0];
    }
  }

  /** The first i items, packed into the finished batches and the current one. */
  ghost predicate Packed<T(!new)>(
    batches: seq<seq<T>>, current: seq<T>, items: seq<T>, i: nat, size: T -> nat, limit: int)
  {
    && i <= |items|
    && (current == [] ==> i == 0 && batches == [])
    && (current != [] ==> IsSplit(batches + [current], items[..i], size, limit))
    && Tight(batches + [current], size, limit)
  }

  lemma GrowPiece<T(!new)>(
    batches: seq<seq<T>>, current: seq<T>, items: seq<T>, i: nat, size: T -> nat, limit: int)
    requires Packed(batches, current, items, i, size, limit) && i < |items|
    requires Total(current, size) + size(items[i]) <= limit
    ensures Packed(batches, current + [items[i]], items, i + 1, size, limit)
  {
    var x := items[i];
    assert items[..i + 1] == items[..i] + [x];
    TotalAppend(current, [x], size);
    assert Total([x], size) == size(x);
    if current == [] {
      assert current + [x] == [x];
      assert batches + [current + [x]] == [[x]];
      FlattenOne([x]);
    } else {
      FlattenGrow(batches, current, x);
      LargerPiece(batches, current, x, size, limit);
      forall p | p in batches + [current + [x]]
        ensures p != [] && Total(p, size) <= limit
      {
        assert p in batches ==> p in batches + [current];
      }
    }
  }

  lemma StartPiece<T(!new)>(
    batches: seq<seq<T>>, current: seq<T>, items: seq<T>, i: nat, size: T -> nat, limit: int)
    requires Packed(batches, current, items, i, size, limit) && i < |items| && current != []
    requires size(items[i]) <= limit && Total(current, size) + size(items[i]) > limit
    ensures Packed(batches + [current], [items[i]], items, i + 1, size, limit)
  {
    var x := items[i];
    assert items[..i + 1] == items[..i] + [x];
    assert Total([x], size) == size(x);
    AnotherPiece(batches, current, x, size, limit);
    FlattenAppend(batches + [current], [[x]]);
    FlattenOne([x]);
  }

  lemma PackEnds<T(!new)>(batches: seq<seq<T>>, current: seq<T>, items: seq<T>, size: T -> nat, limit: int)
    requires Packed(batches, current, items, |items|, size, limit)
    ensures var r := if current == [] then batches else batches + [current];
      && IsSplit(r, items, size, limit) && Tight(r, size, limit)
      && forall other :: IsSplit(other, items, size, limit) ==> |r| <= |other|
  {
    assert items[..|items|] == items;
    TightIsFewest(if current == [] then batches else batches + [current], items, size, limit);
  }

  /** None is the error of an item that exceeds the limit by itself. */
  method Pack<T(!new)>(items: seq<T>, size: T -> nat, limit: int) returns (r: Option<seq<seq<T>>>)
    ensures r.None? <==> exists x :: x in items && size(x) > limit
    ensures r.Some? ==> IsSplit(r.value, items, size, limit)
    ensures r.Some? ==> forall other :: IsSplit(other, items, size, limit) ==> |r.value| <= |other|
    ensures r.Some? ==> Tight(r.value, size, limit)
  {
    var batches: seq<seq<T>> := [];
    var current: seq<T> := [];
    var currentSize := 0;
    for i := 0 to |items|
      invariant forall j :: 0 <= j < i ==> size(items[j]) <= limit
      invariant Packed(batches, current, items, i, size, limit) && currentSize == Total(current, size)
    {
      var x := items[i];
      if size(x) > limit {
        return None;
      }
      TotalAppend(current, [x], size);
      assert Total([x], size) == size(x);
      if current != [] && currentSize + size(x) > limit {
        StartPiece(batches, current, items, i, size, limit);
        batches := batches + [current];
        current := [];
        currentSize := 0;
      } else {
        GrowPiece(batches, current, items, i, size, limit);
      }
      assert [] + [x] == [x];
      current := current + [x];
      currentSize := currentSize + size(x);
    }
    PackEnds(batches, current, items, size, limit);
    if current != [] {
      batches := batches + [current];
    }
    return Some(batches);
  }
}
