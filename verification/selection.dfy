/** Which collected frames of a closed event are sent, how each is labelled, and the
    gate that decides whether they are sent at all. Both history-aware editions
    (`AiDetection.execute` and the script loop) contain this code verbatim. */
module Selection {
  import opened Common

  /** The caption stage of a sent frame. */
  datatype Stage = BestCapture | ExtraCapture | BeforePeak | Peak | AfterPeak

  /** The indices proposed before sorting: every index of a one- or two-frame event,
      otherwise the peak, then the frame before it and the frame after it when they exist.
      (The source writes the index before the peak as `max(0, k - 1)` under `k > 0`,
      which is just `k - 1`.) */
  function Candidates(n: nat, k: nat): seq<int>
  {
    if n <= 2 then Range(0, n)
    else [k] + (if k > 0 then [k - 1] else []) + (if k < n - 1 then [k + 1] else [])
  }

  /** Reference definition: all indices of a short event, otherwise the indices at
      distance at most one from the peak, clipped to `[0, n)`, in ascending order. */
  function Neighbourhood(n: nat, k: nat): seq<int>
  {
    if n <= 2 then Range(0, n)
    else Range(if k > 0 then k - 1 else 0, if k + 2 <= n then k + 2 else n)
  }

  lemma SortSingle(a: int)
    ensures Sort([a]) == [a]
  {
    assert [a][1..] == [];
  }

  lemma SortPair(a: int, b: int)
    ensures a <= b ==> Sort([a, b]) == [a, b]
    ensures a > b ==> Sort([a, b]) == [b, a]
  {
    assert [a, b][1..] == [b];
    SortSingle(b);
    assert [b][1..] == [];
    assert Insert(a, []) == [a];
    if a > b {
      assert Insert(a, [b]) == [b] + Insert(a, []);
    }
  }

  lemma SortPeakTriple(k: int)
    ensures Sort([k, k - 1, k + 1]) == [k - 1, k, k + 1]
  {
    assert [k, k - 1, k + 1][1..] == [k - 1, k + 1];
    SortPair(k - 1, k + 1);
    assert [k - 1, k + 1][1..] == [k + 1];
    assert [k + 1][1..] == [];
    assert Insert(k, [k + 1]) == [k, k + 1];
  }

  lemma RangeSmall(lo: int)
    ensures Range(lo, lo + 1) == [lo]
    ensures Range(lo, lo + 2) == [lo, lo + 1]
    ensures Range(lo, lo + 3) == [lo, lo + 1, lo + 2]
  {
  }

  /** Sorting the candidates yields exactly the neighbourhood of the peak. */
  lemma SortedCandidatesAreNeighbourhood(n: nat, k: nat)
    requires k < n
    ensures Sort(Candidates(n, k)) == Neighbourhood(n, k)
  {
    if n <= 2 {
      ShortEventCandidates(n, k);
    } else {
      LongEventCandidates(n, k);
    }
  }

  lemma LongEventCandidates(n: nat, k: nat)
    requires 3 <= n && k < n
    ensures Sort(Candidates(n, k)) == Neighbourhood(n, k)
  {
    if k == 0 {
      PeakFirstCandidates(n);
    } else if k == n - 1 {
      PeakLastCandidates(n);
    } else {
      PeakInsideCandidates(n, k);
    }
  }

  lemma PeakFirstCandidates(n: nat)
    requires n >= 3
    ensures Sort(Candidates(n, 0)) == Neighbourhood(n, 0)
  {
    assert Candidates(n, 0) == [0] + [] + [1];
    SortPair(0, 1);
    RangeSmall(0);
  }

  lemma PeakLastCandidates(n: nat)
    requires n >= 3
    ensures Sort(Candidates(n, n - 1)) == Neighbourhood(n, n - 1)
  {
    var k := n - 1;
    assert Candidates(n, k) == [k, k - 1];
    SortPair(k, k - 1);
    assert Neighbourhood(n, k) == Range(k - 1, n);
    RangeSmall(k - 1);
    assert Range(k - 1, n) == [k - 1, k];
  }

  lemma PeakInsideCandidates(n: nat, k: nat)
    requires n >= 3 && 0 < k < n - 1
    ensures Sort(Candidates(n, k)) == Neighbourhood(n, k)
  {
    assert Candidates(n, k) == [k] + [k - 1] + [k + 1];
    SortPeakTriple(k);
    RangeSmall(k - 1);
  }

  lemma ShortEventCandidates(n: nat, k: nat)
    requires n <= 2
    ensures Sort(Candidates(n, k)) == Neighbourhood(n, k)
  {
    RangeSmall(0);
    if n == 1 {
      SortSingle(0);
    } else if n == 2 {
      SortPair(0, 1);
    }
  }

  /** `sorted(selected_indices)[:max_screenshots]` for an event of `n` frames whose
      first maximum is at `k`. */
  function SelectIndices(n: nat, k: nat, maxShots: int): (r: seq<int>)
    requires k < n
    ensures r == PyPrefix(Neighbourhood(n, k), maxShots)
    ensures StrictlyAscending(r)
    ensures forall i :: 0 <= i < |r| ==> 0 <= r[i] < n
    ensures |r| <= 3 && |r| <= n
    ensures maxShots >= 0 ==> |r| <= maxShots
    ensures n <= 2 ==> r == PyPrefix(Range(0, n), maxShots)
    ensures maxShots >= 2 ==> k in r
  {
    SortedCandidatesAreNeighbourhood(n, k);
    var r := PyPrefix(Sort(Candidates(n, k)), maxShots);
    assert n >= 3 && maxShots >= 2 ==> r[0] == k || r[1] == k;
    r
  }

  /** The stage label of selected index `idx`, given how many indices were selected. */
  function StageOf(selectedCount: nat, idx: int, peakIdx: int): Stage
  {
    if selectedCount <= 2 then (if idx == peakIdx then BestCapture else ExtraCapture)
    else if idx < peakIdx then BeforePeak
    else if idx == peakIdx then Peak
    else AfterPeak
  }

  /** When three frames are selected they are, in order, before, at and after the peak. */
  lemma ThreeShotsAreBeforePeakAfter(n: nat, k: nat, maxShots: int)
    requires k < n
    requires |SelectIndices(n, k, maxShots)| == 3
    ensures var sel := SelectIndices(n, k, maxShots);
      sel == [k - 1, k, k + 1]
      && [StageOf(3, sel[0], k), StageOf(3, sel[1], k), StageOf(3, sel[2], k)]
         == [BeforePeak, Peak, AfterPeak]
  {
    var sel := SelectIndices(n, k, maxShots);
    assert n >= 3;
    assert sel == Neighbourhood(n, k);
  }

  /** The notify gate: a non-empty event whose maximum reaches the notify threshold and
      which has enough frames at or above it. */
  predicate GatePasses(confs: seq<real>, notify: real, minHigh: int)
  {
    |confs| > 0 && Max(confs) >= notify && CountAtLeast(confs, notify) >= minHigh
  }

  /** A positive count of frames at or above `t` names such a frame. */
  lemma {:induction false} CountedFrameExists(xs: seq<real>, t: real)
    requires CountAtLeast(xs, t) > 0
    ensures exists i :: 0 <= i < |xs| && xs[i] >= t
  {
    if xs[0] < t {
      CountedFrameExists(xs[1..], t);
      var i :| 0 <= i < |xs[1..]| && xs[1..][i] >= t;
      assert xs[i + 1] >= t;
    }
  }

  /** With at least one corroborating frame required, the count condition of the gate
      already implies its maximum condition. */
  lemma CountConditionImpliesMaxCondition(confs: seq<real>, notify: real, minHigh: int)
    requires minHigh >= 1
    ensures GatePasses(confs, notify, minHigh) <==> CountAtLeast(confs, notify) >= minHigh
  {
    if CountAtLeast(confs, notify) >= minHigh {
      CountedFrameExists(confs, notify);
    }
  }
}
