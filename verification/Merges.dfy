/**
 Interleavings of several lists, and what a reading that goes event by event
 makes of them.
*/
module Merges {
  /** The elements that came from list `i`, in order. */
  function Part<T>(merged: seq<T>, owners: seq<nat>, i: nat): seq<T>
    requires |owners| == |merged|
  {
    if merged == [] then []
    else
      var n := |merged| - 1;
      var before := Part(merged[..n], owners[..n], i);
      if owners[n] == i then before + [merged[n]] else before
  }

  /** A merge of the lists: `owners` says where each element came from. */
  ghost predicate IsMerge<T>(merged: seq<T>, owners: seq<nat>, lists: seq<seq<T>>) {
    && |owners| == |merged|
    && (forall p | 0 <= p < |owners| :: owners[p] < |lists|)
    && forall i | 0 <= i < |lists| :: Part(merged, owners, i) == lists[i]
  }

  lemma PartSnoc<T>(front: seq<T>, owners: seq<nat>, x: T, owner: nat, i: nat)
    requires |owners| == |front|
    ensures Part(front + [x], owners + [owner], i) == Part(front, owners, i) + if owner == i then [x] else []
  {
    assert (front + [x])[..|front|] == front && (owners + [owner])[..|front|] == owners;
    assert Part(front, owners, i) + [] == Part(front, owners, i);
  }

  lemma {:induction false} PartHolds<T>(merged: seq<T>, owners: seq<nat>, p: nat)
    requires |owners| == |merged| && p < |merged|
    ensures merged[p] in Part(merged, owners, owners[p])
  {
    var n := |merged| - 1;
    if p < n {
      assert merged[..n][p] == merged[p] && owners[..n][p] == owners[p];
      PartHolds(merged[..n], owners[..n], p);
    }
  }

  lemma {:induction false} PartGrows<T>(merged: seq<T>, owners: seq<nat>, k: nat, i: nat)
    requires |owners| == |merged| && k <= |merged|
    ensures Part(merged[..k], owners[..k], i) <= Part(merged, owners, i)
    decreases |merged|
  {
    if k == |merged| {
      assert merged[..k] == merged && owners[..k] == owners;
    } else {
      var n := |merged| - 1;
      assert merged[..n][..k] == merged[..k] && owners[..n][..k] == owners[..k];
      PartGrows(merged[..n], owners[..n], k, i);
    }
  }

  /** The first element of a part stands somewhere in the merge. */
  lemma {:induction false} FirstOfPart<T>(merged: seq<T>, owners: seq<nat>, i: nat) returns (q: nat)
    requires |owners| == |merged| && Part(merged, owners, i) != []
    ensures q < |merged| && owners[q] == i && merged[q] == Part(merged, owners, i)[0]
  {
    var n := |merged| - 1;
    if Part(merged[..n], owners[..n], i) == [] {
      q := n;
    } else {
      q := FirstOfPart(merged[..n], owners[..n], i);
    }
  }

  /** Before an element stands the first element of its list, if it is not that one itself. */
  lemma FirstComesFirst<T(!new)>(merged: seq<T>, owners: seq<nat>, lists: seq<seq<T>>, p: nat) returns (q: nat)
    requires IsMerge(merged, owners, lists) && p < |merged|
    ensures q <= p && owners[q] == owners[p] && lists[owners[p]] != [] && merged[q] == lists[owners[p]][0]
  {
    var i := owners[p];
    assert merged[..p + 1][p] == merged[p] && owners[..p + 1][p] == i;
    PartHolds(merged[..p + 1], owners[..p + 1], p);
    PartGrows(merged, owners, p + 1, i);
    q := FirstOfPart(merged[..p + 1], owners[..p + 1], i);
  }

  lemma InItsList<T(!new)>(merged: seq<T>, owners: seq<nat>, lists: seq<seq<T>>, p: nat)
    requires IsMerge(merged, owners, lists) && p < |merged|
    ensures merged[p] in lists[owners[p]]
  {
    PartHolds(merged, owners, p);
  }

  // ----- Readings -----

  /** What each element says, joined. */
  function Read<E, T>(events: seq<E>, f: E -> seq<T>): seq<T> {
    if events == [] then [] else Read(events[..|events| - 1], f) + f(events[|events| - 1])
  }

  lemma ReadSnoc<E, T>(front: seq<E>, e: E, f: E -> seq<T>)
    ensures Read(front + [e], f) == Read(front, f) + f(e)
  {
    assert (front + [e])[..|front|] == front;
  }

  lemma {:induction false} ReadAppend<E, T>(a: seq<E>, b: seq<E>, f: E -> seq<T>)
    ensures Read(a + b, f) == Read(a, f) + Read(b, f)
  {
    if b == [] {
      assert a + b == a;
    } else {
      var front, e := b[..|b| - 1], b[|b| - 1];
      assert b == front + [e] && a + b == (a + front) + [e];
      ReadAppend(a, front, f);
      ReadSnoc(front, e, f);
      ReadSnoc(a + front, e, f);
    }
  }

  /** The lists read one after another. */
  function ReadLists<E, T>(lists: seq<seq<E>>, f: E -> seq<T>): seq<T> {
    if lists == [] then [] else ReadLists(lists[..|lists| - 1], f) + Read(lists[|lists| - 1], f)
  }

  lemma ReadListsSnoc<E, T>(lists: seq<seq<E>>, last: seq<E>, f: E -> seq<T>)
    ensures ReadLists(lists + [last], f) == ReadLists(lists, f) + Read(last, f)
  {
    assert (lists + [last])[..|lists|] == lists;
  }

  /** The first `n` values one after another. */
  function Sum<T>(g: nat -> seq<T>, n: nat): seq<T> {
    if n == 0 then [] else Sum(g, n - 1) + g(n - 1)
  }

  /** What each part of a merge says. */
  function PartReadings<E, T>(merged: seq<E>, owners: seq<nat>, f: E -> seq<T>): nat -> seq<T>
    requires |owners| == |merged|
  {
    (i: nat) => Read(Part(merged, owners, i), f)
  }

  /** Whatever says something comes in the order of the lists. */
  ghost predicate InOrder<E, T>(merged: seq<E>, owners: seq<nat>, f: E -> seq<T>)
    requires |owners| == |merged|
  {
    forall p, q | 0 <= p < q < |merged| && f(merged[p]) != [] && f(merged[q]) != [] :: owners[p] <= owners[q]
  }

  /** Whatever says something came from one of the lists up to `j`. */
  ghost predicate SaidUpTo<E, T>(merged: seq<E>, owners: seq<nat>, f: E -> seq<T>, j: nat)
    requires |owners| == |merged|
  {
    forall p | 0 <= p < |merged| && f(merged[p]) != [] :: owners[p] <= j
  }

  lemma {:induction false} NothingAbove<E, T>(merged: seq<E>, owners: seq<nat>, f: E -> seq<T>, j: nat, i: nat)
    requires |owners| == |merged| && i > j && SaidUpTo(merged, owners, f, j)
    ensures Read(Part(merged, owners, i), f) == []
  {
    if merged != [] {
      var n := |merged| - 1;
      forall p | 0 <= p < n && f(merged[..n][p]) != [] ensures owners[..n][p] <= j {
        assert merged[..n][p] == merged[p];
      }
      NothingAbove(merged[..n], owners[..n], f, j, i);
      if owners[n] == i {
        ReadSnoc(Part(merged[..n], owners[..n], i), merged[n], f);
      }
    }
  }

  /** `more` is `g`, but for what value `owner` says besides, after which `g` says nothing. */
  ghost predicate SaysMore<T>(g: nat -> seq<T>, more: nat -> seq<T>, owner: nat, said: seq<T>) {
    && (forall i :: more(i) == if i == owner then g(i) + said else g(i))
    && (said != [] ==> forall i | i > owner :: g(i) == [])
  }

  lemma {:induction false} SumBelow<T>(g: nat -> seq<T>, more: nat -> seq<T>, owner: nat, said: seq<T>, n: nat)
    requires SaysMore(g, more, owner, said) && n <= owner
    ensures Sum(more, n) == Sum(g, n)
    decreases n
  {
    if n > 0 {
      SumBelow(g, more, owner, said, n - 1);
    }
  }

  /** What is said besides is said last. */
  lemma {:induction false} SaidLast<T>(g: nat -> seq<T>, more: nat -> seq<T>, owner: nat, said: seq<T>, n: nat)
    requires SaysMore(g, more, owner, said) && owner < n
    ensures Sum(more, n) == Sum(g, n) + said
    decreases n
  {
    var before, last := Sum(g, n - 1), g(n - 1);
    if owner == n - 1 {
      SumBelow(g, more, owner, said, n - 1);
      assert before + (last + said) == (before + last) + said;
    } else {
      SaidLast(g, more, owner, said, n - 1);
      if said == [] {
        assert before + said == before && (before + last) + said == before + last;
      } else {
        assert last == [] && before + last == before && (before + said) + last == before + said;
      }
    }
  }

  /** What one more element adds to what the parts say. */
  lemma OneMoreSays<E, T>(front: seq<E>, owners: seq<nat>, e: E, owner: nat, f: E -> seq<T>)
    requires |owners| == |front| && (f(e) != [] ==> SaidUpTo(front, owners, f, owner))
    ensures SaysMore(PartReadings(front, owners, f), PartReadings(front + [e], owners + [owner], f), owner, f(e))
  {
    forall i: nat
      ensures Read(Part(front + [e], owners + [owner], i), f) ==
              if i == owner then Read(Part(front, owners, i), f) + f(e) else Read(Part(front, owners, i), f)
    {
      PartSnoc(front, owners, e, owner, i);
      ReadSnoc(Part(front, owners, i), e, f);
      assert Part(front, owners, i) + [] == Part(front, owners, i);
    }
    if f(e) != [] {
      forall i: nat | i > owner ensures Read(Part(front, owners, i), f) == [] {
        NothingAbove(front, owners, f, owner, i);
      }
    }
  }

  lemma {:induction false} OrderedParts<E, T>(merged: seq<E>, owners: seq<nat>, n: nat, f: E -> seq<T>)
    requires |owners| == |merged| && InOrder(merged, owners, f)
    requires forall p | 0 <= p < |owners| :: owners[p] < n
    ensures Read(merged, f) == Sum(PartReadings(merged, owners, f), n)
  {
    if merged == [] {
      NothingToSum(PartReadings(merged, owners, f), n);
    } else {
      var m := |merged| - 1;
      var front, before, e, owner := merged[..m], owners[..m], merged[m], owners[m];
      assert merged == front + [e] && owners == before + [owner];
      forall p, q | 0 <= p < q < m && f(front[p]) != [] && f(front[q]) != [] ensures before[p] <= before[q] {
        assert front[p] == merged[p] && front[q] == merged[q];
      }
      OrderedParts(front, before, n, f);
      forall p | 0 <= p < m && f(front[p]) != [] && f(e) != [] ensures before[p] <= owner {
        assert front[p] == merged[p];
      }
      assert f(e) != [] ==> SaidUpTo(front, before, f, owner);
      OneMoreSays(front, before, e, owner, f);
      SaidLast(PartReadings(front, before, f), PartReadings(merged, owners, f), owner, f(e), n);
    }
  }

  lemma {:induction false} NothingToSum<T>(g: nat -> seq<T>, n: nat)
    requires forall i :: g(i) == []
    ensures Sum(g, n) == []
  {
    if n > 0 {
      NothingToSum(g, n - 1);
    }
  }

  lemma {:induction false} PartsAreLists<E(!new), T>(merged: seq<E>, owners: seq<nat>, lists: seq<seq<E>>, n: nat, f: E -> seq<T>)
    requires IsMerge(merged, owners, lists) && n <= |lists|
    ensures Sum(PartReadings(merged, owners, f), n) == ReadLists(lists[..n], f)
  {
    if n > 0 {
      PartsAreLists(merged, owners, lists, n - 1, f);
      assert lists[..n][..n - 1] == lists[..n - 1];
    }
  }

  /** A merge that keeps what it says in the order of the lists says what they do one after another. */
  lemma MergeReadsAsLists<E(!new), T>(merged: seq<E>, owners: seq<nat>, lists: seq<seq<E>>, f: E -> seq<T>)
    requires IsMerge(merged, owners, lists) && InOrder(merged, owners, f)
    ensures Read(merged, f) == ReadLists(lists, f)
  {
    OrderedParts(merged, owners, |lists|, f);
    PartsAreLists(merged, owners, lists, |lists|, f);
    assert lists[..|lists|] == lists;
  }
}
