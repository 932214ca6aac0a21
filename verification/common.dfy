/** Small value types and the Python list primitives the detection code relies on:
    slicing, `range`, `max`, `list.index`, `sorted` and counting comprehensions. */
module Common {

  /** Python's `None` or a value. */
  datatype Option<+T> = None | Some(value: T)

  /** The outcome of a call that may raise. */
  datatype Result<+T, +E> = Success(value: T) | Failure(error: E)

  /** A point in time, in microseconds (the resolution of Python's `datetime`). */
  type Time = int

  /** One second in `Time` units; configured durations are whole seconds. */
  const Second: int := 1000000

  /** Python's `xs[:n]`: a negative `n` drops `-n` elements from the end. */
  function PyPrefix<T>(xs: seq<T>, n: int): (r: seq<T>)
    ensures |r| <= |xs| && r == xs[..|r|]
    ensures n >= 0 ==> |r| == (if n < |xs| then n else |xs|)
    ensures n < 0 ==> |r| == (if -n < |xs| then |xs| + n else 0)
  {
    if n >= 0 then (if n < |xs| then xs[..n] else xs)
    else if -n < |xs| then xs[..|xs| + n]
    else []
  }

  /** Python's `list(range(lo, hi))`. */
  function Range(lo: int, hi: int): (r: seq<int>)
    ensures |r| == (if lo <= hi then hi - lo else 0)
    ensures forall i :: 0 <= i < |r| ==> r[i] == lo + i
  {
    if lo >= hi then [] else seq(hi - lo, i => lo + i)
  }

  /** `sum(1 for x in xs if x >= t)`. */
  function CountAtLeast(xs: seq<real>, t: real): (r: nat)
    ensures r <= |xs|
    ensures r > 0 <==> exists i :: 0 <= i < |xs| && xs[i] >= t
    ensures r == |xs| <==> forall i :: 0 <= i < |xs| ==> xs[i] >= t
  {
    if xs == [] then 0
    else
      var rest := CountAtLeast(xs[1..], t);
      assert forall i :: 0 < i < |xs| ==> xs[i] == xs[1..][i - 1];
      (if xs[0] >= t then 1 else 0) + rest
  }

  /** The positions of the entries at or above `t`. */
  function AtLeastPositions(xs: seq<real>, t: real): set<int> {
    set i | 0 <= i < |xs| && xs[i] >= t
  }

  /** Counting a list extended at the back adds one exactly for an entry at or above `t`. */
  lemma {:induction false} CountAtLeastAppend(xs: seq<real>, x: real, t: real)
    ensures CountAtLeast(xs + [x], t) == CountAtLeast(xs, t) + (if x >= t then 1 else 0)
    decreases |xs|
  {
    if xs == [] {
      assert [x][1..] == [];
    } else {
      assert (xs + [x])[1..] == xs[1..] + [x];
      CountAtLeastAppend(xs[1..], x, t);
    }
  }

  /** `CountAtLeast` is the number of positions whose entry is at or above `t`. */
  lemma {:induction false} CountAtLeastCountsPositions(xs: seq<real>, t: real)
    ensures CountAtLeast(xs, t) == |AtLeastPositions(xs, t)|
    decreases |xs|
  {
    if xs != [] {
      var n := |xs| - 1;
      var init := xs[..n];
      assert xs == init + [xs[n]];
      CountAtLeastAppend(init, xs[n], t);
      CountAtLeastCountsPositions(init, t);
      var extra: set<int> := if xs[n] >= t then {n} else {};
      assert AtLeastPositions(xs, t) == AtLeastPositions(init, t) + extra by {
        forall i ensures i in AtLeastPositions(xs, t) <==> i in AtLeastPositions(init, t) + extra {
          if 0 <= i < n {
            assert xs[i] == init[i];
          }
        }
      }
      assert n !in AtLeastPositions(init, t);
    } else {
      assert AtLeastPositions(xs, t) == {};
    }
  }

  /** Python's `max(xs)` on a non-empty list. */
  function Max(xs: seq<real>): (m: real)
    requires |xs| > 0
    ensures m in xs
    ensures forall i :: 0 <= i < |xs| ==> xs[i] <= m
  {
    if |xs| == 1 then xs[0]
    else
      var rest := Max(xs[1..]);
      if xs[0] >= rest then xs[0] else rest
  }

  /** Python's `xs.index(x)`: the first position holding `x`. */
  function IndexOf(xs: seq<real>, x: real): (k: nat)
    requires x in xs
    ensures k < |xs| && xs[k] == x
    ensures forall j :: 0 <= j < k ==> xs[j] != x
  {
    if xs[0] == x then 0 else 1 + IndexOf(xs[1..], x)
  }

  predicate Ascending(xs: seq<int>) {
    forall i, j :: 0 <= i < j < |xs| ==> xs[i] <= xs[j]
  }

  predicate StrictlyAscending(xs: seq<int>) {
    forall i, j :: 0 <= i < j < |xs| ==> xs[i] < xs[j]
  }

  /** Inserts `x` into a list in front of the first element not below it. */
  function Insert(x: int, xs: seq<int>): seq<int>
  {
    if xs == [] then [x]
    else if x <= xs[0] then [x] + xs
    else [xs[0]] + Insert(x, xs[1..])
  }

  /** Python's `sorted(xs)` on integers, as an insertion sort. */
  function Sort(xs: seq<int>): seq<int>
  {
    if xs == [] then [] else Insert(xs[0], Sort(xs[1..]))
  }

  /** Inserting adds exactly `x` and keeps an ascending list ascending. */
  lemma InsertCorrect(x: int, xs: seq<int>)
    ensures multiset(Insert(x, xs)) == multiset(xs) + multiset{x}
    ensures Ascending(xs) ==> Ascending(Insert(x, xs))
  {
    InsertAddsOne(x, xs);
    if Ascending(xs) {
      InsertKeepsAscending(x, xs);
    }
  }

  /** Inserting adds exactly one occurrence of `x`. */
  lemma {:induction false} InsertAddsOne(x: int, xs: seq<int>)
    ensures multiset(Insert(x, xs)) == multiset(xs) + multiset{x}
  {
    if xs != [] && x > xs[0] {
      InsertAddsOne(x, xs[1..]);
      assert Insert(x, xs) == [xs[0]] + Insert(x, xs[1..]);
      assert xs == [xs[0]] + xs[1..];
    }
  }

  /** Inserting into an ascending list keeps it ascending. */
  lemma {:induction false} InsertKeepsAscending(x: int, xs: seq<int>)
    requires Ascending(xs)
    ensures Ascending(Insert(x, xs))
  {
    if xs != [] && x > xs[0] {
      var tail := Insert(x, xs[1..]);
      InsertKeepsAscending(x, xs[1..]);
      InsertAddsOne(x, xs[1..]);
      forall i | 0 <= i < |tail| ensures xs[0] <= tail[i] {
        assert tail[i] in multiset(tail);
        assert tail[i] == x || tail[i] in multiset(xs[1..]);
      }
      ConsAscending(xs[0], tail);
      assert Insert(x, xs) == [xs[0]] + tail;
    } else if xs != [] {
      ConsAscending(x, xs);
    }
  }

  /** A head no larger than any element of an ascending tail gives an ascending list. */
  lemma ConsAscending(h: int, t: seq<int>)
    requires Ascending(t) && forall k :: 0 <= k < |t| ==> h <= t[k]
    ensures Ascending([h] + t)
  {
  }

  /** `Sort` returns an ascending permutation of its input. */
  lemma {:induction false} SortCorrect(xs: seq<int>)
    ensures Ascending(Sort(xs))
    ensures multiset(Sort(xs)) == multiset(xs)
  {
    if xs != [] {
      SortCorrect(xs[1..]);
      InsertCorrect(xs[0], Sort(xs[1..]));
      assert xs == [xs[0]] + xs[1..];
    }
  }
}
