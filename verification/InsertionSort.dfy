/**
 * The insertion pass that finishes eio_dent_sort. Its inner loop has no bounds check: the smallest
 * entry, moved to the front first, stops it. Its cost is linear after the radix pass.
 */
module InsertionSort {
  import opened Dirents

  // scores for which the signed char comparison is exact
  ghost predicate SmallScores(s: seq<Dirent>) {
    forall i :: 0 <= i < |s| ==> s[i].score <= 100
  }

  lemma SmallScoresPermuted(s: seq<Dirent>, t: seq<Dirent>, lo: nat, hi: nat)
    requires SmallScores(s) && Permuted(s, t, lo, hi)
    ensures SmallScores(t)
  {
    forall i | 0 <= i < |t|
      ensures t[i].score <= 100
    {
      if lo <= i < hi {
        var j := PermutedFrom(s, t, lo, hi, i);
      } else {
        PermutedOutside(s, t, lo, hi, i);
      }
    }
  }

  ghost predicate LeastAt(s: seq<Dirent>, m: nat, n: nat) {
    m < n <= |s| && forall k :: 0 <= k < n ==> AtMost(s[m], s[k])
  }

  /** The least of the first `n` entries, looked up from the back. */
  method FindLeast(dents: array<Dirent>, n: nat) returns (min: nat)
    requires 0 < n <= dents.Length && SmallScores(dents[..n])
    ensures LeastAt(dents[..], min, n)
  {
    min := 0;
    var i := n - 1;
    while i != 0
      invariant 0 <= i < n && min < n
      invariant forall k :: i < k < n ==> AtMost(dents[min], dents[k])
      invariant AtMost(dents[min], dents[0])
    {
      CmpSign(dents[..n][i], dents[..n][min]);
      if Cmp(dents[i], dents[min]) < 0 {
        min := i;
      }
      i := i - 1;
    }
  }

  /**
   * After the radix pass the least of the first 31 entries is the least of all, and it lies in the
   * first segment.
   */
  lemma LeastInFirstSegment(s: seq<Dirent>, cuts: seq<nat>, m: nat)
    requires |s| > SORT_FAST && Segmented(s, cuts, |s|) && LeastAt(s, m, SORT_CUTOFF + 1)
    ensures LeastAt(s, m, |s|)
    ensures |cuts| > 1 && m < cuts[1]
  {
    var c := cuts[1];
    assert Cut(s, c) && SmallOrSame(s, 0, c) by {
      assert SmallOrSame(s, cuts[0], cuts[1]);
    }
    forall k | 0 <= k < |s|
      ensures AtMost(s[m], s[k])
    {
      if k > SORT_CUTOFF {
        if k < c {
          assert SameKey(s[0], s[k]);
        } else {
          assert Less(s[0], s[k]);
        }
        assert AtMost(s[m], s[0]);
      }
    }
    assert AtMost(s[m], s[0]);
  }

  /** `t` is `s` with element `i` moved down to place `p`. */
  ghost predicate Inserted(s: seq<Dirent>, t: seq<Dirent>, p: nat, i: nat) {
    && 0 < p <= i < |s|
    && t == s[..p] + [s[i]] + s[p..i] + s[i + 1..]
    && (forall k :: p <= k < i ==> Less(s[i], s[k]))
    && AtMost(s[p - 1], s[i])
  }

  /** `t` is `s` once the entries from `j + 1` up to `i` have moved up one place, over entry `i`. */
  ghost predicate ShiftedFrom(s: seq<Dirent>, t: seq<Dirent>, j: int, i: nat) {
    && -1 <= j < i < |s|
    && t == s[..j + 1] + (if j + 1 < i then [s[j + 1]] else [s[i]]) + s[j + 1..i] + s[i + 1..]
    && (forall k :: j < k < i ==> Less(s[i], s[k]))
  }

  lemma ShiftStart(s: seq<Dirent>, i: nat)
    requires 0 < i < |s|
    ensures ShiftedFrom(s, s, i - 1, i)
  {
    assert s == s[..i] + [s[i]] + s[i..i] + s[i + 1..];
  }

  lemma ShiftAt(s: seq<Dirent>, t: seq<Dirent>, j: nat, i: nat)
    requires ShiftedFrom(s, t, j, i)
    ensures |t| == |s| && t[j] == s[j]
  {
  }

  lemma ShiftNext(s: seq<Dirent>, t: seq<Dirent>, j: nat, i: nat)
    requires ShiftedFrom(s, t, j, i) && Less(s[i], s[j])
    ensures |t| == |s| && ShiftedFrom(s, t[j + 1 := t[j]], j - 1, i)
  {
    assert t[j + 1 := t[j]] == s[..j] + [s[j]] + s[j..i] + s[i + 1..];
  }

  lemma ShiftEnd(s: seq<Dirent>, t: seq<Dirent>, j: nat, i: nat)
    requires ShiftedFrom(s, t, j, i) && AtMost(s[j], s[i])
    ensures |t| == |s| && Inserted(s, t[j + 1 := s[i]], j + 1, i)
  {
    assert t[j + 1 := s[i]] == s[..j + 1] + [s[i]] + s[j + 1..i] + s[i + 1..];
  }

  /** The unguarded inner loop: shift larger entries up, then store the value below them. */
  method InsertOne(dents: array<Dirent>, i: nat) returns (ghost p: nat)
    requires 0 < i < dents.Length && SmallScores(dents[..i + 1])
    requires AtMost(dents[0], dents[i])
    modifies dents
    ensures Inserted(old(dents[..]), dents[..], p, i)
  {
    hide ShiftedFrom, Inserted, Cmp;
    ghost var s, t := dents[..], dents[..];
    var value := dents[i];
    var j: int := i - 1;
    SmallPair(s, i);
    ShiftStart(s, i);
    CmpSign(s[j], value);
    while Cmp(dents[j], value) > 0
      invariant 0 <= j < i && dents[..] == t && ShiftedFrom(s, t, j, i)
      invariant dents[j] == s[j]
      decreases j
    {
      CmpSign(s[j], value);
      ShiftNext(s, t, j, i);
      dents[j + 1] := dents[j];
      t := dents[..];
      j := j - 1;
      assert j >= 0;
      ShiftAt(s, t, j, i);
    }
    CmpSign(s[j], value);
    ShiftEnd(s, t, j, i);
    dents[j + 1] := value;
    p := j + 1;
  }

  // the scores up to `i` are small, and entry 0 is not above entry `i`
  lemma SmallPair(s: seq<Dirent>, i: nat)
    requires i < |s| && SmallScores(s[..i + 1])
    ensures forall k :: 0 <= k <= i ==> s[k].score <= 100
  {
    assert forall k :: 0 <= k <= i ==> s[k] == s[..i + 1][k];
  }

  lemma InsertedShape(s: seq<Dirent>, t: seq<Dirent>, p: nat, i: nat)
    requires Inserted(s, t, p, i)
    ensures |t| == |s| && Permuted(s, t, p, i + 1)
    ensures forall k :: 0 <= k < p ==> t[k] == s[k]
    ensures t[p] == s[i]
    ensures forall k :: p < k <= i ==> t[k] == s[k - 1]
    ensures forall k :: i < k < |s| ==> t[k] == s[k]
  {
    InsertPermuted(s, t, p, i);
  }

  lemma InsertedSorted(s: seq<Dirent>, t: seq<Dirent>, p: nat, i: nat)
    requires Inserted(s, t, p, i) && Sorted(s[..i])
    ensures |t| == |s| && Sorted(t[..i + 1])
  {
    InsertedShape(s, t, p, i);
    assert forall a, b :: 0 <= a < b < i ==> AtMost(s[..i][a], s[..i][b]);
    forall a, b | 0 <= a < b < i + 1
      ensures AtMost(t[a], t[b])
    {
      var a' := if a < p then a else if a == p then i else a - 1;
      var b' := if b < p then b else if b == p then i else b - 1;
      assert t[a] == s[a'] && t[b] == s[b'];
      if a' != i && b' != i {
        assert AtMost(s[..i][a'], s[..i][b']);
      } else if b' == i && a' < p - 1 {
        assert AtMost(s[..i][a'], s[..i][p - 1]);
      }
    }
  }

  /**
   * In a segmented array an entry stays in its own segment, so it moves at most 28 places, and the
   * segments survive.
   */
  /** An entry stays in its segment: nothing before the segment, and nothing equal to it, lies above it. */
  lemma StaysInSegment(s: seq<Dirent>, cuts: seq<nat>, m: nat, p: nat, i: nat)
    requires Segmented(s, cuts, |s|) && m < |cuts| - 1 && cuts[m] <= i < cuts[m + 1] && p <= i < |s|
    requires forall k :: p <= k < i ==> Less(s[i], s[k])
    ensures cuts[m] <= p && i - p <= SORT_CUTOFF - 2
  {
    var c := cuts[m];
    assert Cut(s, c) && SmallOrSame(s, cuts[m], cuts[m + 1]);
    assert p < c ==> Less(s[p], s[i]);
    assert p < i ==> Less(s[i], s[p]);
  }

  lemma InsertedInSegment(s: seq<Dirent>, t: seq<Dirent>, p: nat, i: nat, cuts: seq<nat>)
    requires Segmented(s, cuts, |s|) && Inserted(s, t, p, i)
    ensures |t| == |s| && Segmented(t, cuts, |t|)
    ensures i - p <= SORT_CUTOFF - 2
  {
    InsertedShape(s, t, p, i);
    SegmentedEnds(s, cuts);
    var m := FindSegment(cuts, i, |cuts| - 1);
    StaysInSegment(s, cuts, m, p, i);
    hide Segmented, Inserted, Permuted;
    forall k | 0 <= k < |cuts|
      ensures cuts[k] <= p || i + 1 <= cuts[k]
    {
      if k <= m {
        CutsIncrease(cuts, k, m);
      } else {
        CutsIncrease(cuts, m + 1, k);
      }
    }
    SegmentedPermuted(s, t, p, i + 1, cuts, |s|);
  }

  lemma SegmentedEnds(s: seq<Dirent>, cuts: seq<nat>)
    requires Segmented(s, cuts, |s|)
    ensures s != [] ==> |cuts| > 1 && cuts[0] == 0 && cuts[|cuts| - 1] == |s|
    ensures forall k :: 0 <= k < |cuts| - 1 ==> cuts[k] < cuts[k + 1]
  {
  }

  /** What the outer loop keeps: the first `i` entries are in order and the least entry is in front. */
  ghost predicate Progress(s: seq<Dirent>, i: nat) {
    0 < i <= |s| && SmallScores(s) && LeastAt(s, 0, |s|) && Sorted(s[..i])
  }

  lemma ProgressStep(s: seq<Dirent>, t: seq<Dirent>, p: nat, i: nat)
    requires Progress(s, i) && Inserted(s, t, p, i)
    ensures Progress(t, i + 1) && Permuted(s, t, 0, |s|)
  {
    InsertedShape(s, t, p, i);
    InsertedSorted(s, t, p, i);
    SmallScoresPermuted(s, t, p, i + 1);
    PermutedWiden(s, t, p, i + 1, 0, |s|);
    forall k | 0 <= k < |t|
      ensures AtMost(t[0], t[k])
    {
      var k' := if k < p || i < k then k else if k == p then i else k - 1;
      assert t[k] == s[k'] && AtMost(s[0], s[k']);
    }
  }

  lemma InsertedPrefix(s: seq<Dirent>, t: seq<Dirent>, p: nat, i: nat, n: nat)
    requires Inserted(s, t, p, i) && i < n <= |s|
    ensures |t| == |s| && Inserted(s[..n], t[..n], p, i) && s[n..] == t[n..]
  {
    var u := s[..n];
    PrefixSlices(s, p, i, n);
    InsertedFront(s, t, p, i, n);
    assert forall k :: p - 1 <= k < i ==> u[k] == s[k];
  }

  lemma PrefixSlices<T>(s: seq<T>, p: nat, i: nat, n: nat)
    requires p <= i < n <= |s|
    ensures s[..n][..p] == s[..p] && s[..n][p..i] == s[p..i] && s[..n][i] == s[i]
  {
  }

  lemma InsertedFront<T>(s: seq<T>, t: seq<T>, p: nat, i: nat, n: nat)
    requires p <= i < n <= |s| && t == s[..p] + [s[i]] + s[p..i] + s[i + 1..]
    ensures |t| == |s| && t[..n] == s[..p] + [s[i]] + s[p..i] + s[..n][i + 1..] && t[n..] == s[n..]
  {
    var head := s[..p] + [s[i]] + s[p..i];
    assert |head| == i + 1;
    assert s[i + 1..] == s[..n][i + 1..] + s[n..];
    assert t == (head + s[..n][i + 1..]) + s[n..];
  }

  /** `t` is `s` with some least entry and the first one exchanged. */
  ghost predicate LeastSwapped(s: seq<Dirent>, t: seq<Dirent>) {
    exists m: nat :: LeastAt(s, m, |s|) && t == Swapped(s, 0, m)
  }

  /** The sentinel swap. */
  method MoveLeastToFront(dents: array<Dirent>, size: nat, ghost cuts: seq<nat>)
    requires 0 < size <= dents.Length && SmallScores(dents[..size])
    requires size > SORT_FAST ==> Segmented(dents[..size], cuts, size)
    modifies dents
    ensures dents[size..] == old(dents[size..])
    ensures Permuted(old(dents[..size]), dents[..size], 0, size)
    ensures LeastSwapped(old(dents[..size]), dents[..size]) && Progress(dents[..size], 1)
    ensures size > SORT_FAST ==> Segmented(dents[..size], cuts, size)
  {
    hide Permuted, Segmented, Progress, LeastAt;
    var n := if size > SORT_FAST then SORT_CUTOFF + 1 else size;
    ghost var s := dents[..size];
    assert dents[..n] == s[..n];
    SmallScoresPrefix(s, n);
    var min := FindLeast(dents, n);
    LeastAtPrefix(dents[..], min, n, size);
    assert dents[..][..size] == s;
    var tmp := dents[0];
    dents[0] := dents[min];
    dents[min] := tmp;
    assert dents[..size] == Swapped(s, 0, min);
    SwapLeast(s, cuts, min, n);
  }

  lemma SmallScoresPrefix(s: seq<Dirent>, n: nat)
    requires SmallScores(s) && n <= |s|
    ensures SmallScores(s[..n])
  {
  }

  lemma LeastAtPrefix(s: seq<Dirent>, m: nat, n: nat, size: nat)
    requires LeastAt(s, m, n) && n <= size <= |s|
    ensures LeastAt(s[..size], m, n) && m < n
  {
  }

  lemma SwapInFront(s: seq<Dirent>, cuts: seq<nat>, min: nat)
    requires Segmented(s, cuts, |s|) && |cuts| > 1 && min < cuts[1]
    ensures Permuted(s, Swapped(s, 0, min), 0, cuts[1]) && Segmented(Swapped(s, 0, min), cuts, |s|)
  {
    hide Permuted, Swapped;
    CutsIncrease(cuts, 1, |cuts| - 1);
    SwapPermuted(s, 0, min, 0, cuts[1]);
    forall k | 0 <= k < |cuts|
      ensures cuts[k] <= 0 || cuts[1] <= cuts[k]
    {
      if k > 0 {
        CutsIncrease(cuts, 1, k);
      }
    }
    SegmentedPermuted(s, Swapped(s, 0, min), 0, cuts[1], cuts, |s|);
  }

  lemma SwapToFront(s: seq<Dirent>, min: nat)
    requires SmallScores(s) && LeastAt(s, min, |s|)
    ensures Permuted(s, Swapped(s, 0, min), 0, |s|) && Progress(Swapped(s, 0, min), 1)
  {
    hide AtMost;
    SwapPermuted(s, 0, min, 0, |s|);
    hide Permuted;
    var t := Swapped(s, 0, min);
    SmallScoresPermuted(s, t, 0, |s|);
    assert forall k :: 0 <= k < |t| ==> t[k] == if k == 0 then s[min] else if k == min then s[0] else s[k];
  }

  /** Swapping the least entry to the front disturbs no segment, since it comes from the first one. */
  lemma SwapLeast(s: seq<Dirent>, cuts: seq<nat>, min: nat, n: nat)
    requires SmallScores(s) && LeastAt(s, min, n)
    requires n == if |s| > SORT_FAST then SORT_CUTOFF + 1 else |s|
    requires |s| > SORT_FAST ==> Segmented(s, cuts, |s|)
    ensures var t := Swapped(s, 0, min);
            && Permuted(s, t, 0, |s|) && LeastSwapped(s, t) && Progress(t, 1)
            && (|s| > SORT_FAST ==> Segmented(t, cuts, |s|))
  {
    hide Segmented, LeastAt, Permuted, Progress, Swapped;
    if |s| > SORT_FAST {
      LeastInFirstSegment(s, cuts, min);
      SwapInFront(s, cuts, min);
    }
    SwapToFront(s, min);
  }

  /**
   * What the pass does, insertion by insertion: `states[k]` is the array once entry `k` is inserted, which
   * shifted `shifts[k]` entries.
   */
  ghost predicate InsertionTrace(states: seq<seq<Dirent>>, shifts: seq<nat>, last: seq<Dirent>) {
    && |states| == |shifts| > 0 && shifts[0] == 0 && states[|states| - 1] == last
    && (forall k :: 0 < k < |states| ==> shifts[k] < k && Inserted(states[k - 1], states[k], k - shifts[k], k))
  }

  lemma TraceStart(s: seq<Dirent>)
    ensures InsertionTrace([s], [0], s)
  {
  }

  lemma TraceNext(states: seq<seq<Dirent>>, shifts: seq<nat>, s: seq<Dirent>, t: seq<Dirent>, p: nat, i: nat)
    requires InsertionTrace(states, shifts, s) && |states| == i && Inserted(s, t, p, i)
    ensures InsertionTrace(states + [t], shifts + [i - p], t)
  {
    hide Inserted;
    assert 0 < p <= i by {
      InsertedBounds(s, t, p, i);
    }
  }

  /** eio_dent_insertion_sort; `shifts` counts the moves made for each entry, as `states` shows. */
  method InsertionSort(dents: array<Dirent>, size: nat, ghost cuts: seq<nat>)
    returns (ghost shifts: seq<nat>, ghost states: seq<seq<Dirent>>)
    requires 0 < size <= dents.Length && SmallScores(dents[..size])
    requires size > SORT_FAST ==> Segmented(dents[..size], cuts, size)
    modifies dents
    ensures dents[size..] == old(dents[size..])
    ensures Permuted(old(dents[..size]), dents[..size], 0, size)
    ensures Sorted(dents[..size])
    ensures |states| == size && LeastSwapped(old(dents[..size]), states[0])
    ensures InsertionTrace(states, shifts, dents[..size])
    ensures size > SORT_FAST ==> forall k :: 0 <= k < size ==> shifts[k] <= SORT_CUTOFF - 2
  {
    hide Permuted, Segmented, Inserted, Progress, SmallScores, InsertionTrace, LeastSwapped;
    ghost var was := dents[..size];
    MoveLeastToFront(dents, size, cuts);
    shifts, states := [0], [dents[..size]];
    TraceStart(dents[..size]);
    var i := 1;
    while i < size
      invariant 0 < i <= size && |shifts| == |states| == i
      invariant dents[size..] == old(dents[size..])
      invariant Progress(dents[..size], i)
      invariant Permuted(was, dents[..size], 0, size)
      invariant LeastSwapped(was, states[0]) && InsertionTrace(states, shifts, dents[..size])
      invariant size > SORT_FAST ==> Segmented(dents[..size], cuts, size)
      invariant size > SORT_FAST ==> forall k :: 0 <= k < i ==> shifts[k] <= SORT_CUTOFF - 2
    {
      ghost var all, s := dents[..], dents[..size];
      ProgressAt(s, i);
      assert s[..i + 1] == dents[..i + 1] && s[0] == dents[0] && s[i] == dents[i];
      ghost var p := InsertOne(dents, i);
      ghost var t := dents[..][..size];
      InsertedPrefix(all, dents[..], p, i, size);
      InsertedBounds(s, t, p, i);
      ProgressStep(s, t, p, i);
      PermutedTrans(was, s, t, 0, size);
      TraceNext(states, shifts, s, t, p, i);
      if size > SORT_FAST {
        InsertedInSegment(s, t, p, i, cuts);
      }
      assert dents[..size] == t && dents[size..] == all[size..];
      ghost var moves: nat := i - p;
      shifts, states := shifts + [moves], states + [t];
      i := i + 1;
    }
    ProgressDone(dents[..size]);
    TraceLengths(states, shifts, dents[..size]);
  }

  lemma TraceLengths(states: seq<seq<Dirent>>, shifts: seq<nat>, last: seq<Dirent>)
    requires InsertionTrace(states, shifts, last)
    ensures |shifts| == |states|
  {
  }

  lemma ProgressAt(s: seq<Dirent>, i: nat)
    requires Progress(s, i) && i < |s|
    ensures SmallScores(s[..i + 1]) && AtMost(s[0], s[i])
  {
  }

  lemma ProgressDone(s: seq<Dirent>)
    requires Progress(s, |s|)
    ensures Sorted(s)
  {
    assert s[..|s|] == s;
  }

  lemma InsertedBounds(s: seq<Dirent>, t: seq<Dirent>, p: nat, i: nat)
    requires Inserted(s, t, p, i)
    ensures 0 < p <= i
  {
  }

  ghost function Sum(xs: seq<nat>): nat {
    if xs == [] then 0 else Sum(xs[..|xs| - 1]) + xs[|xs| - 1]
  }

  /** Bounded moves per entry make the total linear. */
  lemma {:induction false} LinearMoves(shifts: seq<nat>, bound: nat)
    requires forall k :: 0 <= k < |shifts| ==> shifts[k] <= bound
    ensures Sum(shifts) <= bound * |shifts|
  {
    if shifts != [] {
      LinearMoves(shifts[..|shifts| - 1], bound);
    }
  }
}
