/**
 * The list of selected item ids on the create-location page and the toggle
 * that `handleSelectItem` applies to it: a `findIndex` scan, then either a
 * `filter` that drops the id or a spread that appends it.
 */
module Selection {

  /** No id occurs twice: the shape every toggle from the empty list keeps. */
  predicate NoDuplicates(s: seq<int>) {
    forall i, j :: 0 <= i < j < |s| ==> s[i] != s[j]
  }

  /** `findIndex` with the test `item === x`: the first position of `x`, or -1. */
  function FindIndex(s: seq<int>, x: int): (r: int)
    ensures -1 <= r < |s|
    ensures r == -1 <==> x !in s
    ensures 0 <= r ==> s[r] == x && forall j :: 0 <= j < r ==> s[j] != x
  {
    if |s| == 0 then -1
    else if s[0] == x then 0
    else
      var k := FindIndex(s[1..], x);
      if k < 0 then -1 else k + 1
  }

  /** `filter` with the test `item !== x`: every other id, in its original order. */
  function Without(s: seq<int>, x: int): (r: seq<int>)
    ensures x !in r
    ensures forall y :: y != x ==> (y in r <==> y in s)
    ensures multiset(r) == multiset(s)[x := 0]
  {
    if |s| == 0 then []
    else
      assert s == [s[0]] + s[1..];
      if s[0] == x then Without(s[1..], x)
      else [s[0]] + Without(s[1..], x)
  }

  /** The new selection after clicking the item with id `id`. */
  function Toggle(s: seq<int>, id: int): (r: seq<int>)
    ensures id in r <==> id !in s
    ensures forall y :: y != id ==> (y in r <==> y in s)
  {
    if FindIndex(s, id) >= 0 then Without(s, id) else s + [id]
  }

  /** Filtering distributes over concatenation, so the survivors keep their order. */
  lemma {:induction false} WithoutConcat(a: seq<int>, b: seq<int>, x: int)
    ensures Without(a + b, x) == Without(a, x) + Without(b, x)
  {
    if |a| == 0 {
      assert a + b == b;
    } else {
      assert (a + b)[0] == a[0];
      assert (a + b)[1..] == a[1..] + b;
      WithoutConcat(a[1..], b, x);
    }
  }

  /** Filtering out an id that is not there changes nothing. */
  lemma {:induction false} WithoutAbsent(s: seq<int>, x: int)
    requires x !in s
    ensures Without(s, x) == s
  {
    if |s| > 0 {
      assert x !in s[1..];
      WithoutAbsent(s[1..], x);
    }
  }

  /** Toggling an id that is not selected appends it and keeps every earlier entry. */
  lemma ToggleAppends(s: seq<int>, id: int)
    requires id !in s
    ensures Toggle(s, id) == s + [id]
    ensures Toggle(s, id)[..|s|] == s && Toggle(s, id)[|s|] == id
  {
  }

  /**
   * Toggling the id at position `i` of a duplicate-free selection removes
   * exactly that entry; the rest keep their relative order.
   */
  lemma ToggleRemoves(s: seq<int>, i: nat)
    requires NoDuplicates(s) && i < |s|
    ensures Toggle(s, s[i]) == s[..i] + s[i + 1..]
  {
    var x := s[i];
    assert s == s[..i] + [x] + s[i + 1..];
    assert x !in s[..i];
    assert x !in s[i + 1..] by {
      forall k | i + 1 <= k < |s| ensures s[k] != x {
        assert i < k;
      }
    }
    WithoutConcat(s[..i] + [x], s[i + 1..], x);
    WithoutConcat(s[..i], [x], x);
    WithoutAbsent(s[..i], x);
    WithoutAbsent(s[i + 1..], x);
  }

  /** Removing one entry of a duplicate-free list leaves it duplicate-free. */
  lemma RemoveAtKeepsNoDuplicates(s: seq<int>, i: nat)
    requires NoDuplicates(s) && i < |s|
    ensures NoDuplicates(s[..i] + s[i + 1..])
  {
  }

  /** The toggle never introduces a duplicate. */
  lemma ToggleKeepsNoDuplicates(s: seq<int>, id: int)
    requires NoDuplicates(s)
    ensures NoDuplicates(Toggle(s, id))
  {
    var i := FindIndex(s, id);
    if i >= 0 {
      ToggleRemoves(s, i);
      RemoveAtKeepsNoDuplicates(s, i);
    } else {
      var r := s + [id];
      forall p, q | 0 <= p < q < |r| ensures r[p] != r[q] {
        if q == |s| {
          assert r[p] == s[p];
        }
      }
    }
  }

  /** Toggling an unselected id twice restores the selection. */
  lemma ToggleTwiceRestores(s: seq<int>, id: int)
    requires id !in s
    ensures Toggle(Toggle(s, id), id) == s
  {
    WithoutConcat(s, [id], id);
    WithoutAbsent(s, id);
    assert Without([id], id) == [];
  }

  /** The selection after a run of clicks, in click order; it stays duplicate-free. */
  function ToggleAll(s: seq<int>, clicks: seq<int>): (r: seq<int>)
    ensures NoDuplicates(s) ==> NoDuplicates(r)
    decreases |clicks|
  {
    if |clicks| == 0 then s
    else
      var t := Toggle(s, clicks[0]);
      assert NoDuplicates(s) ==> NoDuplicates(t) by {
        if NoDuplicates(s) {
          ToggleKeepsNoDuplicates(s, clicks[0]);
        }
      }
      ToggleAll(t, clicks[1..])
  }

  /**
   * One more click toggles the selection reached so far, so a caller that
   * applies `Toggle` once per click holds `ToggleAll(s, clicks[..k])` after k clicks.
   */
  lemma {:induction false} ToggleAllSnoc(s: seq<int>, clicks: seq<int>, x: int)
    ensures ToggleAll(s, clicks + [x]) == Toggle(ToggleAll(s, clicks), x)
    decreases |clicks|
  {
    if |clicks| == 0 {
      assert clicks + [x] == [x];
    } else {
      assert (clicks + [x])[0] == clicks[0];
      assert (clicks + [x])[1..] == clicks[1..] + [x];
      ToggleAllSnoc(Toggle(s, clicks[0]), clicks[1..], x);
    }
  }

  /** How often `x` was clicked. */
  function Occurrences(clicks: seq<int>, x: int): nat
  {
    if |clicks| == 0 then 0
    else (if clicks[0] == x then 1 else 0) + Occurrences(clicks[1..], x)
  }

  /** An id flips its membership once per click on it, and only then. */
  lemma {:induction false} ToggleAllParity(s: seq<int>, clicks: seq<int>, x: int)
    ensures x in ToggleAll(s, clicks) <==> (x in s) != (Occurrences(clicks, x) % 2 == 1)
    decreases |clicks|
  {
    if |clicks| > 0 {
      var t := Toggle(s, clicks[0]);
      ToggleAllParity(t, clicks[1..], x);
      assert ToggleAll(s, clicks) == ToggleAll(t, clicks[1..]);
      assert Occurrences(clicks, x) == (if clicks[0] == x then 1 else 0) + Occurrences(clicks[1..], x);
    }
  }

  /** From the empty selection, an id is selected exactly when it was clicked an odd number of times. */
  lemma SelectedIffOddClicks(clicks: seq<int>, x: int)
    ensures x in ToggleAll([], clicks) <==> Occurrences(clicks, x) % 2 == 1
  {
    ToggleAllParity([], clicks, x);
  }
}
