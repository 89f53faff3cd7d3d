/** Merit order: plants listed by ascending cost, ties kept in input order
    (Python's stable `sorted` with the cost as key), and the `min`/`max` with a
    key that the correction pass applies to its candidate lists.  Plants are
    identified by their index in the input; `keys[i]` is the cost of plant i. */
module MeritOrder {

  /** Every entry of s is the index of a plant. */
  predicate InRange(s: seq<nat>, n: nat)
  {
    forall k :: 0 <= k < |s| ==> s[k] < n
  }

  /** Plant a comes strictly before plant b in a stable sort by cost. */
  predicate Before(keys: seq<real>, a: nat, b: nat)
    requires a < |keys| && b < |keys|
  {
    keys[a] < keys[b] || (keys[a] == keys[b] && a < b)
  }

  /** s lists plants in strictly increasing (cost, input position) order. */
  predicate Sorted(keys: seq<real>, s: seq<nat>)
    requires InRange(s, |keys|)
  {
    forall k, k' :: 0 <= k < k' < |s| ==> Before(keys, s[k], s[k'])
  }

  /** order is the stable sort of all plants by cost. */
  predicate IsMeritOrder(keys: seq<real>, order: seq<nat>)
  {
    && |order| == |keys|
    && InRange(order, |keys|)
    && Sorted(keys, order)
    && forall i: nat :: i < |keys| ==> i in order
  }

  /** A sorted list names each plant at most once. */
  lemma SortedDistinct(keys: seq<real>, s: seq<nat>, k: nat, k': nat)
    requires InRange(s, |keys|) && Sorted(keys, s)
    requires k < |s| && k' < |s| && k != k'
    ensures s[k] != s[k']
  {
    if k < k' {
      assert Before(keys, s[k], s[k']);
    } else {
      assert Before(keys, s[k'], s[k]);
    }
  }

  /** Inserts plant i into the sorted list s at its place. */
  function Insert(keys: seq<real>, s: seq<nat>, i: nat): (r: seq<nat>)
    requires InRange(s, |keys|) && i < |keys| && Sorted(keys, s) && i !in s
    ensures |r| == |s| + 1 && InRange(r, |keys|) && Sorted(keys, r)
    ensures forall x :: x in r <==> x in s || x == i
  {
    if s == [] then
      [i]
    else if Before(keys, i, s[0]) then
      [i] + s
    else
      var rest := Insert(keys, s[1..], i);
      assert forall x :: x in rest ==> Before(keys, s[0], x) by {
        forall x | x in rest
          ensures Before(keys, s[0], x)
        {
          if x != i {
            var k :| 1 <= k < |s| && s[k] == x;
          }
        }
      }
      [s[0]] + rest
  }

  /** The first n plants, stably sorted by cost. */
  function SortPrefix(keys: seq<real>, n: nat): (r: seq<nat>)
    requires n <= |keys|
    ensures |r| == n && InRange(r, |keys|) && Sorted(keys, r)
    ensures forall x: nat :: x in r <==> x < n
  {
    if n == 0 then [] else Insert(keys, SortPrefix(keys, n - 1), n - 1)
  }

  /** Python's `sorted(plants, key=cost)`: the merit order of all plants. */
  function SortByCost(keys: seq<real>): (order: seq<nat>)
    ensures IsMeritOrder(keys, order)
  {
    SortPrefix(keys, |keys|)
  }

  /** A list without members is empty. */
  lemma NoMembersIsEmpty(s: seq<nat>)
    ensures (forall x :: x !in s) ==> s == []
  {
    if s != [] {
      assert s[0] in s;
    }
  }

  /** Two sorted lists of the same plants are the same list. */
  lemma {:induction false} SortedUnique(keys: seq<real>, a: seq<nat>, b: seq<nat>)
    requires InRange(a, |keys|) && InRange(b, |keys|) && Sorted(keys, a) && Sorted(keys, b)
    requires forall x :: x in a <==> x in b
    ensures a == b
  {
    if a == [] {
      NoMembersIsEmpty(b);
    } else {
      assert a[0] in b;
      assert b[0] in b;
      assert a[0] == b[0];
      forall x
        ensures x in a[1..] <==> x in b[1..]
      {
        if x in a[1..] {
          var k :| 1 <= k < |a| && a[k] == x;
          SortedDistinct(keys, a, 0, k);
          assert x in a;
          var m :| 0 <= m < |b| && b[m] == x;
        }
        if x in b[1..] {
          var k :| 1 <= k < |b| && b[k] == x;
          SortedDistinct(keys, b, 0, k);
          assert x in b;
          var m :| 0 <= m < |a| && a[m] == x;
        }
      }
      SortedUnique(keys, a[1..], b[1..]);
    }
  }

  /** Stability pins the order down: any list that sorts all plants by
      (cost, input position) is the merit order. */
  lemma MeritOrderUnique(keys: seq<real>, order: seq<nat>)
    requires IsMeritOrder(keys, order)
    ensures order == SortByCost(keys)
  {
    var m := SortByCost(keys);
    forall x
      ensures x in order <==> x in m
    {
      if x in order {
        var k :| 0 <= k < |order| && order[k] == x;
      }
      if x in m {
        var k :| 0 <= k < |m| && m[k] == x;
      }
    }
    SortedUnique(keys, order, m);
  }

  /** Position among the first n candidates of Python's `min` by cost: the
      first candidate whose cost is the smallest. */
  function FirstMinOf(keys: seq<real>, c: seq<nat>, n: nat): (k: nat)
    requires 0 < n <= |c| && InRange(c, |keys|)
    ensures k < n
    ensures forall k' :: 0 <= k' < n ==> keys[c[k]] <= keys[c[k']]
    ensures forall k' :: 0 <= k' < k ==> keys[c[k]] < keys[c[k']]
  {
    if n == 1 then 0
    else
      var m := FirstMinOf(keys, c, n - 1);
      if keys[c[n - 1]] < keys[c[m]] then n - 1 else m
  }

  /** Position among the first n candidates of Python's `max` by cost: the
      first candidate whose cost is the largest. */
  function FirstMaxOf(keys: seq<real>, c: seq<nat>, n: nat): (k: nat)
    requires 0 < n <= |c| && InRange(c, |keys|)
    ensures k < n
    ensures forall k' :: 0 <= k' < n ==> keys[c[k']] <= keys[c[k]]
    ensures forall k' :: 0 <= k' < k ==> keys[c[k']] < keys[c[k]]
  {
    if n == 1 then 0
    else
      var m := FirstMaxOf(keys, c, n - 1);
      if keys[c[m]] < keys[c[n - 1]] then n - 1 else m
  }

  /** Position in c of Python's `min(c, key=cost)`. */
  function FirstMin(keys: seq<real>, c: seq<nat>): (k: nat)
    requires c != [] && InRange(c, |keys|)
    ensures k < |c|
    ensures forall k' :: 0 <= k' < |c| ==> keys[c[k]] <= keys[c[k']]
    ensures forall k' :: 0 <= k' < k ==> keys[c[k]] < keys[c[k']]
  {
    FirstMinOf(keys, c, |c|)
  }

  /** Position in c of Python's `max(c, key=cost)`. */
  function FirstMax(keys: seq<real>, c: seq<nat>): (k: nat)
    requires c != [] && InRange(c, |keys|)
    ensures k < |c|
    ensures forall k' :: 0 <= k' < |c| ==> keys[c[k']] <= keys[c[k]]
    ensures forall k' :: 0 <= k' < k ==> keys[c[k']] < keys[c[k]]
  {
    FirstMaxOf(keys, c, |c|)
  }

  /** Appending a candidate does not move the minimum among the first n. */
  lemma {:induction false} FirstMinOfSnoc(keys: seq<real>, c: seq<nat>, x: nat, n: nat)
    requires 0 < n <= |c| && InRange(c + [x], |keys|)
    ensures InRange(c, |keys|) && FirstMinOf(keys, c + [x], n) == FirstMinOf(keys, c, n)
  {
    assert forall k :: 0 <= k < |c| ==> (c + [x])[k] == c[k];
    if n > 1 {
      FirstMinOfSnoc(keys, c, x, n - 1);
    }
  }

  /** Appending a candidate does not move the maximum among the first n. */
  lemma {:induction false} FirstMaxOfSnoc(keys: seq<real>, c: seq<nat>, x: nat, n: nat)
    requires 0 < n <= |c| && InRange(c + [x], |keys|)
    ensures InRange(c, |keys|) && FirstMaxOf(keys, c + [x], n) == FirstMaxOf(keys, c, n)
  {
    assert forall k :: 0 <= k < |c| ==> (c + [x])[k] == c[k];
    if n > 1 {
      FirstMaxOfSnoc(keys, c, x, n - 1);
    }
  }

  /** `min` over a list extended by one candidate: the new candidate wins
      only when it is strictly cheaper than the old minimum. */
  lemma FirstMinSnoc(keys: seq<real>, c: seq<nat>, x: nat)
    requires c != [] && InRange(c, |keys|) && x < |keys|
    ensures InRange(c + [x], |keys|)
    ensures FirstMin(keys, c + [x]) ==
      var m := FirstMin(keys, c); if keys[x] < keys[c[m]] then |c| else m
  {
    assert forall k :: 0 <= k < |c| + 1 ==> (c + [x])[k] == if k < |c| then c[k] else x;
    FirstMinOfSnoc(keys, c, x, |c|);
  }

  /** `max` over a list extended by one candidate: the new candidate wins
      only when it is strictly dearer than the old maximum. */
  lemma FirstMaxSnoc(keys: seq<real>, c: seq<nat>, x: nat)
    requires c != [] && InRange(c, |keys|) && x < |keys|
    ensures InRange(c + [x], |keys|)
    ensures FirstMax(keys, c + [x]) ==
      var m := FirstMax(keys, c); if keys[c[m]] < keys[x] then |c| else m
  {
    assert forall k :: 0 <= k < |c| + 1 ==> (c + [x])[k] == if k < |c| then c[k] else x;
    FirstMaxOfSnoc(keys, c, x, |c|);
  }
}
